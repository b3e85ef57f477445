/** The loop thread of common/message_queue.cpp next to any number of posting and cancelling
    threads, as a step system. A step is one critical section of the queue mutex, or something
    that happens outside it. Posts and cancels may come at every point at which the mutex is
    free, including from inside a running callback. */
module TimerLoop {
  import opened Options
  import opened TimerList

  /** Where the loop thread is. Draining lies between the unlock at line 69 and the lock at
      line 79; Firing is inside a callback; Parked is inside `_cv.wait` or `_cv.wait_until`. */
  datatype Loop = Scanning | Draining | Firing(msg: Msg) | Parked(until: Option<int>, notified: bool)

  /** What has become of a posted message. Silent ones were due without a callback; Replaced
      ones lost their batch entry to a later message with the same id. */
  datatype Place = Queued | Batched | Fired | Unlinked | Skipped | Silent | Replaced

  datatype State = State(
    ticksPerMs: nat,
    clock: int,
    queue: seq<Msg>,
    nextId: nat,
    hasPost: bool,
    canceled: set<nat>,
    loop: Loop,
    batch: map<nat, Msg>,
    scanNow: int,          // `now` of the last scan
    duration: int,         // `duration` of the last scan, in milliseconds
    scanHead: Option<Msg>, // the message it stopped at
    posted: nat,           // history: number of posts
    place: map<nat, Place>,// history: what became of each of them
    fired: seq<nat>        // history: the callbacks started, in order
  )

  function Initial(ticksPerMs: nat, clock: int): State {
    State(ticksPerMs, clock, [], 1, false, {}, Scanning, map[], clock, 0, None, 0, map[], [])
  }

  datatype Event =
    | Post(after: int, callback: Option<nat>)
    | Cancel(id: nat)
    | Scan            // lines 37-69
    | Check(id: nat)  // lines 71-77, for the batch entry with this id
    | Return          // the callback comes back
    | Decide          // lines 79-90
    | Wake            // the wait ends, for whatever reason
    | Tick(to: int)   // the system clock, which may also be set back

  predicate Enabled(s: State, e: Event) {
    match e
    case Post(_, _) => true
    case Cancel(_) => true
    case Scan => s.loop == Scanning
    case Check(id) => s.loop == Draining && id in s.batch && forall k :: k in s.batch ==> id <= k
    case Return => s.loop.Firing?
    case Decide => s.loop == Draining && s.batch == map[]
    case Wake => s.loop.Parked?
    case Tick(_) => true
  }

  function ApplyPost(s: State, after: int, callback: Option<nat>): State {
    var m := Msg(s.nextId, s.clock + after, callback, s.posted);
    s.(queue := Insert(s.queue, m), nextId := NextId(s.nextId), hasPost := true,
       loop := if s.loop.Parked? then Parked(s.loop.until, true) else s.loop,
       posted := s.posted + 1, place := s.place[s.posted := Queued])
  }

  function ApplyCancel(s: State, id: nat): State {
    var i := Find(s.queue, id);
    s.(queue := Unlink(s.queue, id), canceled := s.canceled + {id},
       place := if i < |s.queue| then s.place[s.queue[i].serial := Unlinked] else s.place)
  }

  /** The fate of a message that a scan takes off the list. */
  function Taken(batch: map<nat, Msg>, m: Msg): Place {
    if m.callback.None? then Silent
    else if m.id in batch && batch[m.id].serial == m.serial then Batched
    else Replaced
  }

  function TakenPlaces(batch: map<nat, Msg>, due: seq<Msg>, place: map<nat, Place>): map<nat, Place> {
    if due == [] then place
    else TakenPlaces(batch, due[1..], place[due[0].serial := Taken(batch, due[0])])
  }

  function ApplyScan(s: State): State
    requires s.ticksPerMs > 0
  {
    var n := DueCount(s.queue, s.clock, s.ticksPerMs);
    var batch := Collect(s.queue[..n]);
    s.(queue := s.queue[n..], batch := batch, canceled := {}, hasPost := false, loop := Draining,
       scanNow := s.clock,
       duration := if n == |s.queue| then 0 else Millis(s.queue[n].when - s.clock, s.ticksPerMs),
       scanHead := if n == |s.queue| then None else Some(s.queue[n]),
       place := TakenPlaces(batch, s.queue[..n], s.place))
  }

  function ApplyCheck(s: State, id: nat): State
    requires id in s.batch
  {
    var m := s.batch[id];
    if id in s.canceled then
      s.(batch := s.batch - {id}, place := s.place[m.serial := Skipped])
    else
      s.(batch := s.batch - {id}, place := s.place[m.serial := Fired], fired := s.fired + [m.serial],
         loop := Firing(m))
  }

  function ApplyDecide(s: State): State {
    if s.hasPost then s.(hasPost := false, loop := Scanning)
    else if s.duration == 0 then s.(loop := Parked(None, false))
    else s.(loop := Parked(Some(s.scanNow + s.duration * s.ticksPerMs), false))
  }

  function Apply(s: State, e: Event): State
    requires s.ticksPerMs > 0 && Enabled(s, e)
  {
    match e
    case Post(after, callback) => ApplyPost(s, after, callback)
    case Cancel(id) => ApplyCancel(s, id)
    case Scan => ApplyScan(s)
    case Check(id) => ApplyCheck(s, id)
    case Return => s.(loop := Draining)
    case Decide => ApplyDecide(s)
    case Wake => s.(loop := Scanning)
    case Tick(to) => s.(clock := to)
  }

  /** A sequence of events that can happen one after the other. */
  predicate IsRun(s: State, es: seq<Event>)
    decreases |es|
  {
    s.ticksPerMs > 0 && (es != [] ==> Enabled(s, es[0]) && IsRun(Apply(s, es[0]), es[1..]))
  }

  function After(s: State, es: seq<Event>): State
    requires IsRun(s, es)
    decreases |es|
  {
    if es == [] then s else After(Apply(s, es[0]), es[1..])
  }

  // ----- the invariant -----

  ghost predicate Numbered(posted: nat, m: Msg) {
    m.serial < posted && m.id == IdOf(m.serial)
  }

  ghost predicate QueuePlaced(q: seq<Msg>, posted: nat, place: map<nat, Place>) {
    && DistinctSerials(q)
    && (forall i :: 0 <= i < |q| ==>
         Numbered(posted, q[i]) && q[i].serial in place && place[q[i].serial] == Queued)
    && (forall x :: x in place && place[x] == Queued ==> Holds(q, x))
  }

  ghost predicate BatchPlaced(b: map<nat, Msg>, posted: nat, place: map<nat, Place>) {
    && (forall k :: k in b ==>
         Numbered(posted, b[k]) && b[k].id == k && b[k].callback.Some?
         && b[k].serial in place && place[b[k].serial] == Batched)
    && (forall x :: x in place && place[x] == Batched ==> IdOf(x) in b && b[IdOf(x)].serial == x)
  }

  ghost predicate Recorded(posted: nat, place: map<nat, Place>) {
    forall x: nat :: x in place <==> x < posted
  }

  /** Every message is where its history says, and nowhere else. */
  ghost predicate Placed(s: State) {
    && s.nextId == IdOf(s.posted)
    && Recorded(s.posted, s.place)
    && QueuePlaced(s.queue, s.posted, s.place)
    && BatchPlaced(s.batch, s.posted, s.place)
  }

  /** The callbacks that were started are the Fired messages, each of them once. */
  ghost predicate FiredOnce(s: State) {
    && (forall i :: 0 <= i < |s.fired| ==> s.fired[i] in s.place && s.place[s.fired[i]] == Fired)
    && (forall i, j :: 0 <= i < j < |s.fired| ==> s.fired[i] != s.fired[j])
    && (forall x :: x in s.place && s.place[x] == Fired ==> x in s.fired)
    && (s.loop.Firing? ==>
         Numbered(s.posted, s.loop.msg) && s.loop.msg.serial in s.place && s.place[s.loop.msg.serial] == Fired)
  }

  /** While no post has come in since the scan, the queue only holds messages that are not due
      before the deadline the scan has computed. */
  ghost predicate DeadlineHolds(s: State) {
    if s.duration == 0 then s.queue == []
    else forall i :: 0 <= i < |s.queue| ==> s.scanNow + s.duration * s.ticksPerMs <= s.queue[i].when
  }

  /** The loop never sleeps past a message: a wait without a deadline that nobody has notified
      means that the queue is empty, and a wait until `d` that every message is due at `d` or
      later. */
  ghost predicate SleepsSoundly(s: State) {
    s.loop.Parked? && !s.loop.notified ==>
      match s.loop.until
      case None => s.queue == []
      case Some(d) => forall i :: 0 <= i < |s.queue| ==> d <= s.queue[i].when
  }

  /** The deadline is within a millisecond of the message it was computed from. */
  ghost predicate DeadlineIsTight(s: State) {
    && (s.duration != 0 <==> s.scanHead.Some?)
    && (s.scanHead.Some? ==>
      s.scanHead.value.when - s.ticksPerMs < s.scanNow + s.duration * s.ticksPerMs <= s.scanHead.value.when)
    && (s.loop.Parked? ==>
      s.loop.until == (if s.duration == 0 then None else Some(s.scanNow + s.duration * s.ticksPerMs)))
  }

  ghost predicate Inv(s: State) {
    && s.ticksPerMs > 0
    && Sorted(s.queue)
    && Placed(s)
    && FiredOnce(s)
    && ((s.loop.Draining? || s.loop.Firing?) && !s.hasPost ==> DeadlineHolds(s))
    && SleepsSoundly(s)
    && DeadlineIsTight(s)
    && (s.loop.Scanning? || s.loop.Parked? ==> s.batch == map[])
  }

  lemma InitialInv(ticksPerMs: nat, clock: int)
    requires ticksPerMs > 0
    ensures Inv(Initial(ticksPerMs, clock))
  {
  }

  // ----- posting -----

  lemma PostQueue(q: seq<Msg>, m: Msg, posted: nat, place: map<nat, Place>)
    requires QueuePlaced(q, posted, place) && m.serial == posted && m.id == IdOf(posted)
    ensures QueuePlaced(Insert(q, m), posted + 1, place[posted := Queued])
  {
    hide IdOf, Insert;
    InsertPlaces(q, m);
    assert !Holds(q, m.serial);
    InsertDistinct(q, m);
    forall x ensures Holds(Insert(q, m), x) <==> x == m.serial || Holds(q, x) {
      InsertHolds(q, m, x);
    }
    var i := Before(q, m.when);
    assert forall j :: 0 <= j < |q| + 1 && j != i ==> Insert(q, m)[j] == q[if j < i then j else j - 1];
  }

  lemma PostPlaced(s: State, after: int, callback: Option<nat>)
    requires Placed(s)
    ensures Placed(ApplyPost(s, after, callback))
  {
    NextIdOf(s.posted);
    hide IdOf, NextId, Insert;
    PostQueue(s.queue, Msg(s.nextId, s.clock + after, callback, s.posted), s.posted, s.place);
    hide QueuePlaced;
  }

  lemma PostFired(s: State, after: int, callback: Option<nat>)
    requires Placed(s) && FiredOnce(s)
    ensures FiredOnce(ApplyPost(s, after, callback))
  {
    hide IdOf, NextId, Insert, Holds, DistinctSerials;
  }

  lemma PostInv(s: State, after: int, callback: Option<nat>)
    requires Inv(s)
    ensures Inv(ApplyPost(s, after, callback))
  {
    PostPlaced(s, after, callback);
    PostFired(s, after, callback);
    hide IdOf, NextId, Placed, FiredOnce, Insert, Sorted;
    assert Sorted(ApplyPost(s, after, callback).queue) by {
      InsertSorted(s.queue, Msg(s.nextId, s.clock + after, callback, s.posted));
    }
  }

  // ----- cancelling -----

  lemma CancelQueue(q: seq<Msg>, id: nat, posted: nat, place: map<nat, Place>)
    requires QueuePlaced(q, posted, place)
    ensures var i := Find(q, id);
      QueuePlaced(Unlink(q, id), posted, if i < |q| then place[q[i].serial := Unlinked] else place)
  {
    hide IdOf, Unlink;
    UnlinkExact(q, id);
    UnlinkOrdered(q, id);
    forall x ensures Holds(Unlink(q, id), x) <==>
      Holds(q, x) && !(Find(q, id) < |q| && q[Find(q, id)].serial == x)
    {
      UnlinkHolds(q, id, x);
    }
  }

  lemma CancelPlaced(s: State, id: nat)
    requires Placed(s) && FiredOnce(s)
    ensures Placed(ApplyCancel(s, id)) && FiredOnce(ApplyCancel(s, id))
  {
    hide IdOf, Unlink;
    CancelQueue(s.queue, id, s.posted, s.place);
    var i := Find(s.queue, id);
    if i < |s.queue| {
      assert s.place[s.queue[i].serial] == Queued;
    }
    hide Holds, DistinctSerials;
  }

  lemma CancelInv(s: State, id: nat)
    requires Inv(s)
    ensures Inv(ApplyCancel(s, id))
  {
    CancelPlaced(s, id);
    hide IdOf, NextId, Placed, FiredOnce, Unlink;
    UnlinkExact(s.queue, id);
    UnlinkOrdered(s.queue, id);
  }

  // ----- scanning -----

  lemma ScanTiming(s: State)
    requires s.ticksPerMs > 0 && Sorted(s.queue)
    ensures var t := ApplyScan(s);
      Sorted(t.queue) && DeadlineHolds(t) && DeadlineIsTight(t) && SleepsSoundly(t)
  {
    hide Collect, TakenPlaces, Millis;
    var n := DueCount(s.queue, s.clock, s.ticksPerMs);
    DueCountIff(s.queue, s.clock, s.ticksPerMs, n);
    if n < |s.queue| {
      MillisDue(s.clock, s.queue[n].when, s.ticksPerMs);
    }
  }

  lemma {:induction false} TakenPlacesAt(batch: map<nat, Msg>, due: seq<Msg>, place: map<nat, Place>)
    requires DistinctSerials(due)
    ensures var p := TakenPlaces(batch, due, place);
      && (forall i :: 0 <= i < |due| ==> due[i].serial in p && p[due[i].serial] == Taken(batch, due[i]))
      && (forall x: nat :: x in place ==> x in p)
      && (forall x :: x in p && !Holds(due, x) ==> x in place && p[x] == place[x])
  {
    if due != [] {
      var rest := due[1..];
      var place1 := place[due[0].serial := Taken(batch, due[0])];
      TakenPlacesAt(batch, rest, place1);
      var p := TakenPlaces(batch, due, place);
      forall i | 0 <= i < |due| ensures due[i].serial in p && p[due[i].serial] == Taken(batch, due[i]) {
        if i == 0 {
          assert !Holds(rest, due[0].serial);
        } else {
          assert due[i] == rest[i - 1];
        }
      }
      forall x | x in p && !Holds(due, x) ensures x in place && p[x] == place[x] {
        assert due[0].serial != x;
        assert forall j :: 0 <= j < |rest| ==> rest[j] == due[j + 1];
      }
    }
  }

  lemma HoldsRest(q: seq<Msg>, n: nat, x: nat)
    requires n <= |q| && Holds(q, x) && !Holds(q[..n], x)
    ensures Holds(q[n..], x)
  {
    assert forall k :: 0 <= k < n ==> q[..n][k] == q[k];
    var j :| 0 <= j < |q| && q[j].serial == x;
    assert q[n..][j - n] == q[j];
  }

  lemma ScanQueue(q: seq<Msg>, n: nat, posted: nat, place: map<nat, Place>, batch: map<nat, Msg>)
    requires QueuePlaced(q, posted, place) && n <= |q|
    ensures QueuePlaced(q[n..], posted, TakenPlaces(batch, q[..n], place))
  {
    hide IdOf, TakenPlaces;
    var due, rest := q[..n], q[n..];
    var place' := TakenPlaces(batch, due, place);
    TakenPlacesAt(batch, due, place);
    forall i | 0 <= i < |rest|
      ensures rest[i] == q[n + i] && rest[i].serial in place' && place'[rest[i].serial] == Queued
    {
      assert !Holds(due, rest[i].serial);
    }
    forall x | x in place' && place'[x] == Queued ensures Holds(rest, x) {
      assert !Holds(due, x) && Holds(q, x);
      HoldsRest(q, n, x);
    }
  }

  lemma ScanBatch(q: seq<Msg>, n: nat, posted: nat, place: map<nat, Place>)
    requires QueuePlaced(q, posted, place) && n <= |q|
    requires forall x :: x in place ==> place[x] != Batched
    ensures var batch := Collect(q[..n]);
      BatchPlaced(batch, posted, TakenPlaces(batch, q[..n], place))
  {
    hide IdOf, TakenPlaces, Collect;
    var due := q[..n];
    var batch := Collect(due);
    var place' := TakenPlaces(batch, due, place);
    TakenPlacesAt(batch, due, place);
    forall k | k in batch
      ensures Numbered(posted, batch[k]) && batch[k].id == k && batch[k].callback.Some?
      ensures batch[k].serial in place' && place'[batch[k].serial] == Batched
    {
      CollectSound(due, k);
      var i :| 0 <= i < |due| && due[i] == batch[k];
      assert due[i] == q[i];
    }
    forall x | x in place' && place'[x] == Batched
      ensures IdOf(x) in batch && batch[IdOf(x)].serial == x
    {
      assert Holds(due, x);
      var i :| 0 <= i < |due| && due[i].serial == x;
      assert due[i] == q[i];
    }
  }

  lemma ScanRecorded(q: seq<Msg>, n: nat, posted: nat, place: map<nat, Place>, batch: map<nat, Msg>)
    requires QueuePlaced(q, posted, place) && n <= |q| && Recorded(posted, place)
    ensures var place' := TakenPlaces(batch, q[..n], place);
      && Recorded(posted, place')
      && (forall x :: x in place ==> (place[x] == Fired <==> place'[x] == Fired))
  {
    hide IdOf, TakenPlaces;
    var due := q[..n];
    TakenPlacesAt(batch, due, place);
    assert forall i :: 0 <= i < n ==> due[i] == q[i];
    assert forall x :: Holds(due, x) ==> x in place && place[x] == Queued;
  }

  lemma ScanPlaced(s: State)
    requires Inv(s) && s.loop == Scanning
    ensures Placed(ApplyScan(s)) && FiredOnce(ApplyScan(s))
  {
    hide IdOf, DueCount, Collect, TakenPlaces, DeadlineHolds, DeadlineIsTight, SleepsSoundly, Sorted;
    var n := DueCount(s.queue, s.clock, s.ticksPerMs);
    var batch := Collect(s.queue[..n]);
    ScanQueue(s.queue, n, s.posted, s.place, batch);
    ScanBatch(s.queue, n, s.posted, s.place);
    ScanRecorded(s.queue, n, s.posted, s.place, batch);
    hide QueuePlaced, Numbered;
  }

  lemma ScanInv(s: State)
    requires Inv(s) && s.loop == Scanning
    ensures Inv(ApplyScan(s))
  {
    ScanTiming(s);
    ScanPlaced(s);
    hide DueCount, Collect, TakenPlaces, DeadlineHolds, DeadlineIsTight, SleepsSoundly, Sorted, Placed, FiredOnce;
  }

  // ----- running the batch -----

  lemma LeaveBatch(s: State, id: nat, p: Place)
    requires Placed(s) && id in s.batch && p != Queued && p != Batched
    ensures var place := s.place[s.batch[id].serial := p];
      Recorded(s.posted, place) && QueuePlaced(s.queue, s.posted, place)
      && BatchPlaced(s.batch - {id}, s.posted, place)
  {
    hide IdOf, DistinctSerials, Holds;
    var x := s.batch[id].serial;
    assert s.place[x] == Batched;
    assert forall i :: 0 <= i < |s.queue| ==> s.queue[i].serial != x;
    assert forall k :: k in s.batch && k != id ==> s.batch[k].serial != x;
  }

  lemma CheckInv(s: State, id: nat)
    requires Inv(s) && Enabled(s, Check(id))
    ensures Inv(ApplyCheck(s, id))
  {
    LeaveBatch(s, id, if id in s.canceled then Skipped else Fired);
    CheckFired(s, id);
    hide IdOf, DeadlineHolds, DeadlineIsTight, SleepsSoundly, Sorted, QueuePlaced, BatchPlaced, FiredOnce;
  }

  lemma CheckFired(s: State, id: nat)
    requires Placed(s) && FiredOnce(s) && Enabled(s, Check(id))
    ensures FiredOnce(ApplyCheck(s, id))
  {
    hide IdOf, QueuePlaced;
    var t := ApplyCheck(s, id);
    var x := s.batch[id].serial;
    assert s.place[x] == Batched;
    if id !in s.canceled {
      assert t.fired[|s.fired|] == x;
      assert forall y :: y in s.fired ==> y in t.fired;
    }
  }

  /** Every step keeps the invariant. */
  lemma StepInv(s: State, e: Event)
    requires Inv(s) && Enabled(s, e)
    ensures Inv(Apply(s, e))
  {
    match e
    case Post(after, callback) => PostInv(s, after, callback);
    case Cancel(id) => CancelInv(s, id);
    case Scan => ScanInv(s);
    case Check(id) => CheckInv(s, id);
    case Return =>
      hide Placed, Sorted;
    case Decide =>
      hide Placed, Sorted;
    case Wake =>
      hide Placed, Sorted;
    case Tick(_) =>
      hide Placed, Sorted;
  }

  /** Every reachable state satisfies the invariant; in particular the loop never sleeps past
      a message and no callback is started twice. */
  lemma {:induction false} RunInv(s: State, es: seq<Event>)
    requires Inv(s) && IsRun(s, es)
    ensures Inv(After(s, es))
    decreases |es|
  {
    if es != [] {
      StepInv(s, es[0]);
      RunInv(Apply(s, es[0]), es[1..]);
    }
  }

  // ----- what the invariant gives -----

  /** A posted message is in exactly one place, and the queue, the batch and the log of
      started callbacks are what the places say. */
  lemma {:induction false} Partition(s: State, x: nat)
    requires Inv(s) && x < s.posted
    ensures x in s.place
    ensures Holds(s.queue, x) <==> s.place[x] == Queued
    ensures (IdOf(x) in s.batch && s.batch[IdOf(x)].serial == x) <==> s.place[x] == Batched
    ensures x in s.fired <==> s.place[x] == Fired
    ensures forall i, j :: 0 <= i < j < |s.fired| ==> s.fired[i] != s.fired[j]
  {
    hide IdOf, DeadlineHolds, DeadlineIsTight, SleepsSoundly, Sorted;
  }

  /** No timed wait is in vain: when the loop looks at the clock at or after the deadline it
      slept for, and the message the deadline was computed from still heads the queue, the scan
      takes at least that message. */
  lemma TimedWakeProgress(s: State)
    requires Inv(s) && s.loop.Parked? && s.loop.until.Some? && s.loop.until.value <= s.clock
    requires s.queue != [] && s.scanHead == Some(s.queue[0])
    ensures Enabled(s, Wake) && Enabled(Apply(s, Wake), Scan)
    ensures |Apply(Apply(s, Wake), Scan).queue| < |s.queue|
  {
    hide IdOf, Placed, FiredOnce, SleepsSoundly, DeadlineHolds, Millis;
    MillisDue(s.clock, s.queue[0].when, s.ticksPerMs);
    assert DueCount(s.queue, s.clock, s.ticksPerMs) >= 1;
  }

  lemma QueueDistinct(s: State)
    requires Inv(s)
    ensures DistinctSerials(s.queue) && s.ticksPerMs > 0
  {
    hide IdOf, FiredOnce, SleepsSoundly, DeadlineHolds, DeadlineIsTight, Sorted, IsDue, BatchPlaced;
  }

  lemma ScanTakes(s: State)
    requires s.ticksPerMs > 0 && s.loop == Scanning
    ensures var t, n := Apply(s, Scan), DueCount(s.queue, s.clock, s.ticksPerMs);
      t.queue == s.queue[n..] && t.batch == Collect(s.queue[..n])
  {
    hide DueCount, Collect, TakenPlaces, Millis;
  }

  /** The scan takes exactly the due messages, and keeps the callback of such a message exactly
      when no later due message with a callback has its id. */
  lemma {:induction false} ScanLosesNothing(s: State, i: nat)
    requires Inv(s) && s.loop == Scanning && i < |s.queue|
    ensures var t, m := Apply(s, Scan), s.queue[i];
      && (m in t.queue <==> !IsDue(m, s.clock, s.ticksPerMs))
      && (IsDue(m, s.clock, s.ticksPerMs) && m.callback.Some? ==>
           m.id in t.batch && (t.batch[m.id] == m <==>
             forall j :: i < j < |s.queue| && IsDue(s.queue[j], s.clock, s.ticksPerMs) && s.queue[j].callback.Some? ==>
               s.queue[j].id != m.id))
  {
    ScanDue(s);
    var q, n := s.queue, DueCount(s.queue, s.clock, s.ticksPerMs);
    QueueDistinct(s);
    ScanTakes(s);
    hide Inv, IdOf, TakenPlaces, Collect, DueCount, IsDue, Apply, ApplyScan;
    var t, m := Apply(s, Scan), q[i];
    assert forall j :: 0 <= j < |q[n..]| ==> q[n..][j] == q[n + j];
    assert forall j :: 0 <= j < n ==> q[..n][j] == q[j];
    if i < n {
      if m.callback.Some? { CollectKeepsIff(q[..n], i); }
    } else {
      assert q[n..][i - n] == m;
    }
  }

  /** In a queue as the invariant has it, a message is due iff it is among the first DueCount. */
  lemma ScanDue(s: State)
    requires Inv(s)
    ensures var n := DueCount(s.queue, s.clock, s.ticksPerMs);
      n <= |s.queue| && forall j :: 0 <= j < |s.queue| ==> (IsDue(s.queue[j], s.clock, s.ticksPerMs) <==> j < n)
  {
    hide IdOf, Placed, FiredOnce, SleepsSoundly, DeadlineHolds, DeadlineIsTight;
    ScanTakesAllDue(s.queue, s.clock, s.ticksPerMs);
  }

  // ----- cancelling is final -----

  /** A message that has not been started and never will be. */
  ghost predicate Doomed(s: State, x: nat) {
    && x in s.place
    && (s.place[x] == Unlinked || s.place[x] == Skipped || s.place[x] == Silent || s.place[x] == Replaced
        || (s.place[x] == Batched && IdOf(x) in s.canceled && !s.loop.Scanning? && !s.loop.Parked?))
  }

  /** A cancel dooms the first queued message with the id, and also one that already left the
      queue but has not been checked yet. */
  lemma {:induction false} CancelDooms(s: State, id: nat, x: nat)
    requires Inv(s) && x < s.posted && IdOf(x) == id
    requires
      || s.place[x] == Batched
      || (Find(s.queue, id) < |s.queue| && s.queue[Find(s.queue, id)].serial == x)
    ensures Doomed(ApplyCancel(s, id), x) && x !in s.fired
  {
    hide DeadlineHolds, DeadlineIsTight, SleepsSoundly, Sorted, DistinctSerials, IdOf;
  }

  lemma DoomedStep(s: State, e: Event, x: nat)
    requires Inv(s) && Enabled(s, e) && Doomed(s, x)
    ensures Doomed(Apply(s, e), x)
  {
    hide DeadlineHolds, DeadlineIsTight, SleepsSoundly, Sorted, IdOf, TakenPlaces, Collect, DueCount;
    match e
    case Post(_, _) =>
    case Cancel(_) =>
    case Scan =>
      var due := s.queue[..DueCount(s.queue, s.clock, s.ticksPerMs)];
      TakenPlacesAt(Collect(due), due, s.place);
      assert forall i :: 0 <= i < |due| ==> due[i] == s.queue[i];
      assert !Holds(due, x);
    case Check(_) =>
    case Return =>
    case Decide =>
    case Wake =>
    case Tick(_) =>
  }

  /** Once the cancel is recorded before the check, the callback is never started, although
      the set of cancelled ids is emptied by every scan. */
  lemma {:induction false} CanceledNeverFires(s: State, es: seq<Event>, x: nat)
    requires Inv(s) && IsRun(s, es) && Doomed(s, x)
    ensures x !in After(s, es).fired
    decreases |es|
  {
    if es == [] {
      hide IdOf, QueuePlaced, SleepsSoundly, DeadlineHolds, DeadlineIsTight;
    } else {
      StepInv(s, es[0]);
      DoomedStep(s, es[0], x);
      CanceledNeverFires(Apply(s, es[0]), es[1..], x);
    }
  }

  // ----- one iteration of the loop -----

  predicate Posts(es: seq<Event>) { exists i :: 0 <= i < |es| && es[i].Post? }

  /** Between the locked halves of an iteration. */
  predicate Between(es: seq<Event>) { forall i :: 0 <= i < |es| ==> !es[i].Scan? && !es[i].Decide? }

  lemma {:induction false} FlagIsPosts(s: State, es: seq<Event>)
    requires IsRun(s, es) && Between(es)
    ensures After(s, es).hasPost <==> s.hasPost || Posts(es)
    decreases |es|
  {
    if es != [] {
      FlagStep(s, es[0]);
      hide Apply, Enabled;
      FlagIsPosts(Apply(s, es[0]), es[1..]);
      assert Posts(es) <==> es[0].Post? || Posts(es[1..]) by {
        if i :| 0 <= i < |es| && es[i].Post? && i > 0 { assert es[1..][i - 1].Post?; }
        if i :| 0 <= i < |es[1..]| && es[1..][i].Post? { assert es[i + 1].Post?; }
      }
    }
  }

  lemma FlagStep(s: State, e: Event)
    requires s.ticksPerMs > 0 && Enabled(s, e) && !e.Scan? && !e.Decide?
    ensures Apply(s, e).hasPost <==> s.hasPost || e.Post?
  {
    hide Insert, Unlink, Find, NextId;
  }

  /** Over all runs: an iteration goes round again at once iff something was posted since its scan;
      otherwise it waits. Either way the next iteration starts from a lowered flag. */
  lemma {:induction false} GoesRoundIff(s: State, es: seq<Event>)
    requires s.ticksPerMs > 0 && s.loop == Scanning && Between(es)
    requires IsRun(Apply(s, Scan), es) && Enabled(After(Apply(s, Scan), es), Decide)
    ensures After(Apply(s, Scan), es).ticksPerMs > 0
    ensures var u := Apply(After(Apply(s, Scan), es), Decide);
      && (u.loop == Scanning <==> Posts(es)) && (u.loop.Parked? <==> !Posts(es)) && !u.hasPost
  {
    FlagIsPosts(Apply(s, Scan), es);
    TicksKept(Apply(s, Scan), es);
    assert !Apply(s, Scan).hasPost by { hide DueCount, Collect, TakenPlaces, Millis; }
    hide After, IsRun, Posts, DueCount, Collect, TakenPlaces, Millis;
  }

  lemma {:induction false} TicksKept(s: State, es: seq<Event>)
    requires IsRun(s, es)
    ensures After(s, es).ticksPerMs > 0
    decreases |es|
  {
    if es != [] {
      hide Apply, Enabled;
      TicksKept(Apply(s, es[0]), es[1..]);
    }
  }

  /** The callbacks of a batch are looked at in the order of their ids, each once. */
  lemma {:induction false} BatchInOrder(s: State, es: seq<Event>, j: nat)
    requires IsRun(s, es) && Between(es) && j < |es| && es[j].Check?
    ensures es[j].id in s.batch
    ensures forall i :: 0 <= i < j && es[i].Check? ==> es[i].id < es[j].id
    decreases |es|
  {
    BatchShrinks(s, es[0]);
    if j > 0 {
      hide Apply, Enabled;
      BatchInOrder(Apply(s, es[0]), es[1..], j - 1);
      forall i | 0 <= i < j && es[i].Check? ensures es[i].id < es[j].id {
        if i > 0 { assert es[i] == es[1..][i - 1]; }
      }
    }
  }

  lemma BatchShrinks(s: State, e: Event)
    requires s.ticksPerMs > 0 && Enabled(s, e) && !e.Scan?
    ensures var u := Apply(s, e);
      && (forall k :: k in u.batch ==> k in s.batch && (e.Check? ==> e.id < k))
      && (e.Check? ==> e.id in s.batch)
  {
    hide Insert, Unlink, Find, NextId;
  }

  /** A post is in the list at its time, with its callback and the id that is handed out. */
  lemma {:induction false} PostedAt(s: State, after: int, callback: Option<nat>)
    ensures var u := ApplyPost(s, after, callback);
      var i := Before(s.queue, s.clock + after);
      && |u.queue| == |s.queue| + 1 && i <= |s.queue|
      && u.queue[i] == Msg(s.nextId, s.clock + after, callback, s.posted)
      && u.queue[..i] == s.queue[..i] && u.queue[i + 1..] == s.queue[i..]
  {
    hide NextId;
  }
}
