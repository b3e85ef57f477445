/** Alarms of common/alarm.cpp on top of the timer queue. Start and Cancel hold the alarm's
    mutex around their call into the queue, so each of them is two steps here; the wrapper
    installed by SetCallback is the step Enter, taken by the loop thread inside the callback. */
module Alarms {
  import opened Options
  import opened TimerList
  import opened TimerLoop

  datatype Status = Idle | Started | Canceled | Rung

  /** One Alarm. `serial` is the number of the post `messageId` came from (history). */
  datatype Alarm = Alarm(messageId: nat, status: Status, serial: nat)

  /** The alarm's mutex: free, held by a Start that has posted, or held by a Cancel that has
      called the queue. */
  datatype Lock = Free | Posted(id: nat, serial: nat) | Unlinking

  datatype System = System(
    t: State,
    alarms: seq<Alarm>,
    locks: seq<Lock>,
    entered: bool,          // the running callback is past the wrapper
    owner: map<nat, nat>    // history: the alarm that made each post
  )

  datatype Action =
    | StartPost(a: nat, after: int)  // alarm.cpp:37-42
    | StartDone(a: nat)              // alarm.cpp:42-44
    | CancelCall(a: nat)             // alarm.cpp:53-55
    | CancelDone(a: nat)             // alarm.cpp:56-58
    | Enter                          // alarm.cpp:26-31
    | Timer(e: Event)

  /** `_messageId = id; _status = kStatusStart;` */
  function AfterStart(al: Alarm, id: nat, serial: nat): Alarm {
    Alarm(id, Started, serial)
  }

  /** `_messageId = 0; _status = kStatusCancel;` */
  function AfterCancel(al: Alarm): Alarm {
    Alarm(0, Canceled, al.serial)
  }

  /** The wrapper: a cancelled alarm returns at once, any other one rings. */
  function AfterEnter(al: Alarm): Alarm {
    if al.messageId == 0 then al else al.(status := Rung)
  }

  predicate Possible(s: System, e: Action) {
    && |s.locks| == |s.alarms|
    && match e
       case StartPost(a, _) => a < |s.alarms| && s.locks[a] == Free && s.alarms[a].status != Started
       case StartDone(a) => a < |s.alarms| && s.locks[a].Posted?
       case CancelCall(a) => a < |s.alarms| && s.locks[a] == Free && s.alarms[a].messageId != 0
       case CancelDone(a) => a < |s.alarms| && s.locks[a] == Unlinking
       case Enter =>
         && s.t.loop.Firing? && !s.entered
         && s.t.loop.msg.callback.Some?
         && s.t.loop.msg.callback.value < |s.alarms| && s.locks[s.t.loop.msg.callback.value] == Free
       case Timer(e) => !e.Post? && !e.Cancel? && Enabled(s.t, e) && (e.Return? ==> s.entered)
  }

  function Perform(s: System, e: Action): System
    requires s.t.ticksPerMs > 0 && Possible(s, e)
  {
    match e
    case StartPost(a, after) =>
      s.(t := Apply(s.t, Post(after, Some(a))), locks := s.locks[a := Posted(s.t.nextId, s.t.posted)],
         owner := s.owner[s.t.posted := a])
    case StartDone(a) =>
      s.(alarms := s.alarms[a := AfterStart(s.alarms[a], s.locks[a].id, s.locks[a].serial)],
         locks := s.locks[a := Free])
    case CancelCall(a) =>
      s.(t := Apply(s.t, Cancel(s.alarms[a].messageId)), locks := s.locks[a := Unlinking])
    case CancelDone(a) =>
      s.(alarms := s.alarms[a := AfterCancel(s.alarms[a])], locks := s.locks[a := Free])
    case Enter =>
      var a := s.t.loop.msg.callback.value;
      s.(alarms := s.alarms[a := AfterEnter(s.alarms[a])], entered := true)
    case Timer(e) =>
      s.(t := Apply(s.t, e), entered := if e.Check? then false else s.entered)
  }

  // ----- what always holds -----

  /** The message belongs to the alarm that posted it, one of the first `n`. */
  ghost predicate Mine(owner: map<nat, nat>, n: nat, m: Msg) {
    m.serial in owner && m.callback == Some(owner[m.serial]) && owner[m.serial] < n
  }

  ghost predicate AllMine(t: State, owner: map<nat, nat>, n: nat) {
    && (forall i :: 0 <= i < |t.queue| ==> Mine(owner, n, t.queue[i]))
    && (forall k :: k in t.batch ==> Mine(owner, n, t.batch[k]))
    && (t.loop.Firing? ==> Mine(owner, n, t.loop.msg))
  }

  /** A message id of zero means exactly "never started" or "cancelled". */
  ghost predicate IdsMean(alarms: seq<Alarm>, posted: nat) {
    forall a :: 0 <= a < |alarms| ==>
      && (alarms[a].messageId == 0 <==> alarms[a].status == Idle || alarms[a].status == Canceled)
      && (alarms[a].messageId != 0 ==>
           alarms[a].messageId == IdOf(alarms[a].serial) && alarms[a].serial < posted)
  }

  ghost predicate LocksMean(locks: seq<Lock>, posted: nat) {
    forall a :: 0 <= a < |locks| && locks[a].Posted? ==>
      locks[a].id == IdOf(locks[a].serial) && locks[a].serial < posted
  }

  ghost predicate AlarmInv(s: System) {
    && Inv(s.t)
    && |s.locks| == |s.alarms|
    && IdsMean(s.alarms, s.t.posted)
    && LocksMean(s.locks, s.t.posted)
    && AllMine(s.t, s.owner, |s.alarms|)
  }

  function Fresh(ticksPerMs: nat, clock: int, n: nat): System {
    System(Initial(ticksPerMs, clock), seq(n, _ => Alarm(0, Idle, 0)), seq(n, _ => Free), true, map[])
  }

  lemma FreshInv(ticksPerMs: nat, clock: int, n: nat)
    requires ticksPerMs > 0
    ensures AlarmInv(Fresh(ticksPerMs, clock, n))
  {
    InitialInv(ticksPerMs, clock);
  }

  lemma MineKept(t: State, owner: map<nat, nat>, n: nat, e: Event)
    requires Inv(t) && AllMine(t, owner, n) && Enabled(t, e) && !e.Post?
    ensures AllMine(Apply(t, e), owner, n)
  {
    hide IdOf, Mine, TakenPlaces, Collect, DueCount, Unlink, Placed, FiredOnce, Sorted;
    hide SleepsSoundly, DeadlineHolds, DeadlineIsTight;
    match e
    case Cancel(id) =>
      UnlinkExact(t.queue, id);
    case Scan =>
      var d := DueCount(t.queue, t.clock, t.ticksPerMs);
      var due := t.queue[..d];
      var u := Apply(t, e);
      forall k | k in u.batch ensures Mine(owner, n, u.batch[k]) {
        CollectSound(due, k);
        var i :| 0 <= i < |due| && due[i] == u.batch[k];
        assert due[i] == t.queue[i];
      }
      assert forall i :: 0 <= i < |u.queue| ==> u.queue[i] == t.queue[d + i];
    case Check(_) =>
    case Return =>
    case Decide =>
    case Wake =>
    case Tick(_) =>
  }

  /** The serial numbers in use are below the number of posts. */
  lemma SerialsBelow(t: State)
    requires Inv(t)
    ensures forall i :: 0 <= i < |t.queue| ==> t.queue[i].serial < t.posted
    ensures forall k :: k in t.batch ==> t.batch[k].serial < t.posted
    ensures t.loop.Firing? ==> t.loop.msg.serial < t.posted
    ensures t.nextId == IdOf(t.posted)
  {
    hide IdOf, SleepsSoundly, DeadlineHolds, DeadlineIsTight, DistinctSerials, Sorted;
  }

  lemma InsertMine(q: seq<Msg>, m: Msg, owner: map<nat, nat>, n: nat, a: nat)
    requires forall i :: 0 <= i < |q| ==> Mine(owner, n, q[i]) && q[i].serial != m.serial
    requires m.callback == Some(a) && a < n
    ensures forall i :: 0 <= i < |Insert(q, m)| ==> Mine(owner[m.serial := a], n, Insert(q, m)[i])
  {
    InsertPlaces(q, m);
    var r := Insert(q, m);
    hide Insert;
    forall i | 0 <= i < |r| ensures Mine(owner[m.serial := a], n, r[i]) {
      if i != Before(q, m.when) {
        assert r[i] == q[if i < Before(q, m.when) then i else i - 1];
      }
    }
  }

  lemma PostMine(t: State, owner: map<nat, nat>, n: nat, a: nat, after: int)
    requires Inv(t) && AllMine(t, owner, n) && a < n
    ensures AllMine(ApplyPost(t, after, Some(a)), owner[t.posted := a], n)
  {
    SerialsBelow(t);
    hide Inv, IdOf, NextId, Insert;
    InsertMine(t.queue, Msg(t.nextId, t.clock + after, Some(a), t.posted), owner, n, a);
  }

  lemma ActionInv(s: System, e: Action)
    requires AlarmInv(s) && Possible(s, e)
    ensures AlarmInv(Perform(s, e))
  {
    match e
    case StartPost(a, after) =>
      StepInv(s.t, Post(after, Some(a)));
      PostMine(s.t, s.owner, |s.alarms|, a, after);
      SerialsBelow(s.t);
      hide Inv, IdOf, NextId, Insert, AllMine;
    case StartDone(a) =>
      hide Inv, AllMine, IdOf;
      IdPositive(s.locks[a].serial);
    case CancelCall(a) =>
      StepInv(s.t, Cancel(s.alarms[a].messageId));
      MineKept(s.t, s.owner, |s.alarms|, Cancel(s.alarms[a].messageId));
      hide Inv, IdOf, Unlink, AllMine;
    case CancelDone(a) =>
      hide Inv, IdOf, AllMine;
    case Enter =>
      hide Inv, IdOf, AllMine;
    case Timer(e) =>
      StepInv(s.t, e);
      MineKept(s.t, s.owner, |s.alarms|, e);
      PostedKept(s.t, e);
      hide Inv, IdOf, Apply, AllMine;
  }

  lemma IdPositive(serial: nat)
    ensures IdOf(serial) != 0
  {
  }

  lemma PostedKept(t: State, e: Event)
    requires t.ticksPerMs > 0 && Enabled(t, e) && !e.Post?
    ensures Apply(t, e).posted == t.posted && Apply(t, e).nextId == t.nextId
    ensures Apply(t, e).ticksPerMs == t.ticksPerMs
  {
  }

  predicate IsHistory(s: System, es: seq<Action>)
    decreases |es|
  {
    s.t.ticksPerMs > 0 && (es != [] ==> Possible(s, es[0]) && IsHistory(Perform(s, es[0]), es[1..]))
  }

  function Later(s: System, es: seq<Action>): System
    requires IsHistory(s, es)
    decreases |es|
  {
    if es == [] then s else Later(Perform(s, es[0]), es[1..])
  }

  /** In every reachable state a message id of zero means exactly "never started" or "cancelled". */
  lemma {:induction false} HistoryInv(s: System, es: seq<Action>)
    requires AlarmInv(s) && IsHistory(s, es)
    ensures AlarmInv(Later(s, es))
    decreases |es|
  {
    if es != [] {
      ActionInv(s, es[0]);
      HistoryInv(Perform(s, es[0]), es[1..]);
    }
  }

  /** A cancelled alarm does not ring before it is started again. */
  lemma {:induction false} CanceledStaysCanceled(s: System, es: seq<Action>, a: nat)
    requires AlarmInv(s) && IsHistory(s, es)
    requires a < |s.alarms| && s.alarms[a].status == Canceled && s.locks[a] == Free
    requires forall e :: e in es ==> !(e.StartPost? && e.a == a)
    ensures var u := Later(s, es);
      |u.alarms| == |s.alarms| == |u.locks| && u.alarms[a].status == Canceled && u.locks[a] == Free
    decreases |es|
  {
    if es != [] {
      ActionInv(s, es[0]);
      assert es[0] in es;
      CanceledStep(s, es[0], a);
      assert forall e :: e in es[1..] ==> e in es;
      hide AlarmInv, Perform, Possible;
      CanceledStaysCanceled(Perform(s, es[0]), es[1..], a);
    }
  }

  lemma CanceledStep(s: System, e: Action, a: nat)
    requires AlarmInv(s) && Possible(s, e) && !(e.StartPost? && e.a == a)
    requires a < |s.alarms| && s.alarms[a].status == Canceled && s.locks[a] == Free
    ensures var u := Perform(s, e);
      |u.alarms| == |s.alarms| == |u.locks| && u.alarms[a].status == Canceled && u.locks[a] == Free
  {
    CanceledHasNoMessage(s, a);
    hide Inv, AllMine, IdsMean, LocksMean, Apply;
  }

  lemma CanceledHasNoMessage(s: System, a: nat)
    requires AlarmInv(s) && a < |s.alarms| && s.alarms[a].status == Canceled
    ensures s.alarms[a].messageId == 0
  {
  }

  // ----- a started alarm has its message on the way -----

  /** The post `x` has not reached the wrapper yet and nothing stops it from getting there:
      it is in the list, in the batch and not cancelled, or committed to run. */
  ghost predicate Pending(t: State, entered: bool, x: nat) {
    x in t.place &&
    (t.place[x] == Queued
     || (t.place[x] == Batched && IdOf(x) !in t.canceled)
     || (t.loop.Firing? && t.loop.msg.serial == x && !entered))
  }

  ghost predicate Waiting(t: State, y: nat) {
    y in t.place && (t.place[y] == Queued || t.place[y] == Batched)
  }

  /** No other waiting post and no other alarm uses the id of post `x`, which alarm `a` made. */
  ghost predicate Alone(s: System, a: nat, x: nat) {
    && x in s.owner && s.owner[x] == a
    && (forall y :: Waiting(s.t, y) && y != x ==> IdOf(y) != IdOf(x))
    && (forall b :: 0 <= b < |s.alarms| && b != a ==> s.alarms[b].messageId != IdOf(x))
    && (forall b :: 0 <= b < |s.locks| && b != a && s.locks[b].Posted? ==> s.locks[b].id != IdOf(x))
  }

  /** An alarm in status Start (and not in the middle of a Cancel), or one whose Start has
      posted, has its message pending. */
  ghost predicate Backed(s: System) {
    && |s.locks| == |s.alarms|
    && (forall a :: 0 <= a < |s.alarms| && s.alarms[a].status == Started && s.locks[a] != Unlinking ==>
         Pending(s.t, s.entered, s.alarms[a].serial) && Alone(s, a, s.alarms[a].serial))
    && (forall a :: 0 <= a < |s.locks| && s.locks[a].Posted? ==>
         Pending(s.t, s.entered, s.locks[a].serial) && Alone(s, a, s.locks[a].serial))
  }

  /** The id is held by an alarm other than `a`, or by a message that waits. */
  ghost predicate TakenByOthers(s: System, a: nat, id: nat) {
    || (exists b :: 0 <= b < |s.alarms| && b != a && s.alarms[b].messageId == id)
    || (exists b :: 0 <= b < |s.locks| && b != a && s.locks[b].Posted? && s.locks[b].id == id)
    || (exists y :: Waiting(s.t, y) && IdOf(y) == id)
  }

  /** Steps other than a post move no message back into the list. */
  lemma WaitingShrinks(t: State, e: Event, y: nat)
    requires Inv(t) && Enabled(t, e) && !e.Post?
    ensures Waiting(Apply(t, e), y) ==> Waiting(t, y)
  {
    hide IdOf, DeadlineHolds, DeadlineIsTight, SleepsSoundly, Sorted, TakenPlaces, Collect, DueCount, Unlink;
    if e.Scan? {
      var d := DueCount(t.queue, t.clock, t.ticksPerMs);
      var due := t.queue[..d];
      TakenPlacesAt(Collect(due), due, t.place);
      if Holds(due, y) {
        var i :| 0 <= i < |due| && due[i].serial == y;
        assert due[i] == t.queue[i];
      }
    }
  }

  /** A pending message whose id nobody else uses stays pending through the loop's own steps
      and through cancels of other ids. */
  lemma PendingKept(t: State, entered: bool, e: Event, x: nat)
    requires Inv(t) && Enabled(t, e) && Pending(t, entered, x)
    requires e.Return? ==> entered
    requires e.Cancel? ==> e.id != IdOf(x)
    requires e.Post? ==> IdOf(t.posted) != IdOf(x)
    requires forall y :: Waiting(t, y) && y != x ==> IdOf(y) != IdOf(x)
    requires forall i :: 0 <= i < |t.queue| && t.queue[i].serial == x ==> t.queue[i].callback.Some?
    ensures Pending(Apply(t, e), if e.Check? then false else entered, x)
  {
    match e
    case Post(_, _) =>
      hide IdOf, DeadlineHolds, DeadlineIsTight, SleepsSoundly, Sorted, Insert;
    case Cancel(id) =>
      PendingCancel(t, entered, id, x);
    case Scan =>
      PendingScan(t, entered, x);
    case Check(id) =>
      hide IdOf, DeadlineHolds, DeadlineIsTight, SleepsSoundly, Sorted, Holds;
    case Return =>
      hide IdOf, Inv;
    case Decide =>
      hide IdOf, Inv;
    case Wake =>
      hide IdOf, Inv;
    case Tick(_) =>
      hide IdOf, Inv;
  }

  lemma PendingCancel(t: State, entered: bool, id: nat, x: nat)
    requires Inv(t) && Pending(t, entered, x) && id != IdOf(x)
    ensures Pending(ApplyCancel(t, id), entered, x)
  {
    hide IdOf, DeadlineHolds, DeadlineIsTight, SleepsSoundly, Sorted, Unlink;
    var i := Find(t.queue, id);
    FindIff(t.queue, id, i);
    assert i < |t.queue| ==> t.queue[i].serial != x;
  }

  lemma PendingScan(t: State, entered: bool, x: nat)
    requires Inv(t) && t.loop == Scanning && Pending(t, entered, x)
    requires forall y :: Waiting(t, y) && y != x ==> IdOf(y) != IdOf(x)
    requires forall i :: 0 <= i < |t.queue| && t.queue[i].serial == x ==> t.queue[i].callback.Some?
    ensures Pending(ApplyScan(t), entered, x)
  {
    hide IdOf, DeadlineHolds, DeadlineIsTight, SleepsSoundly, Sorted, TakenPlaces, Collect, DueCount;
    assert t.place[x] == Queued;
    var d := DueCount(t.queue, t.clock, t.ticksPerMs);
    var due := t.queue[..d];
    TakenPlacesAt(Collect(due), due, t.place);
    if Holds(due, x) {
      var i :| 0 <= i < |due| && due[i].serial == x;
      assert due[i] == t.queue[i];
      forall j | i < j < |due| ensures due[j].id != due[i].id {
        assert due[j] == t.queue[j] && Waiting(t, due[j].serial);
      }
      CollectKeeps(due, i);
    }
  }

  lemma AloneKept(s: System, e: Action, a: nat, x: nat)
    requires AlarmInv(s) && Possible(s, e) && a < |s.alarms| && Alone(s, a, x) && x < s.t.posted
    requires e.StartPost? ==> IdOf(s.t.posted) != IdOf(x)
    ensures Alone(Perform(s, e), a, x)
  {
    var u := Perform(s, e);
    forall y | Waiting(u.t, y) && y != x ensures IdOf(y) != IdOf(x) {
      match e
      case CancelCall(b) => WaitingShrinks(s.t, Cancel(s.alarms[b].messageId), y);
      case Timer(e') => WaitingShrinks(s.t, e', y);
      case StartPost(_, _) =>
      case StartDone(_) =>
      case CancelDone(_) =>
      case Enter =>
    }
    SerialsBelow(s.t);
    IdPositive(x);
    hide Inv, IdOf, Apply, AllMine;
  }

  /** Alarm `a` counts on post `x`. */
  ghost predicate CountsOn(s: System, a: nat, x: nat) {
    && a < |s.alarms| && |s.locks| == |s.alarms|
    && ((s.alarms[a].status == Started && s.locks[a] != Unlinking && s.alarms[a].serial == x)
        || (s.locks[a].Posted? && s.locks[a].serial == x))
  }

  /** What Backed says, one alarm at a time. */
  lemma BackedMeans(s: System)
    requires |s.locks| == |s.alarms|
    ensures Backed(s) <==>
      forall a, x :: CountsOn(s, a, x) ==> Pending(s.t, s.entered, x) && Alone(s, a, x)
  {
    hide Pending, Alone;
    if forall a, x :: CountsOn(s, a, x) ==> Pending(s.t, s.entered, x) && Alone(s, a, x) {
      forall a | 0 <= a < |s.alarms| && s.alarms[a].status == Started && s.locks[a] != Unlinking
        ensures Pending(s.t, s.entered, s.alarms[a].serial) && Alone(s, a, s.alarms[a].serial)
      {
        assert CountsOn(s, a, s.alarms[a].serial);
      }
      forall a | 0 <= a < |s.locks| && s.locks[a].Posted?
        ensures Pending(s.t, s.entered, s.locks[a].serial) && Alone(s, a, s.locks[a].serial)
      {
        assert CountsOn(s, a, s.locks[a].serial);
      }
    }
  }

  lemma CountedIsTaken(s: System, a: nat, x: nat, other: nat)
    requires AlarmInv(s) && CountsOn(s, a, x) && other != a
    ensures TakenByOthers(s, other, IdOf(x))
  {
    hide Inv, IdOf, AllMine;
  }

  lemma NewPostIsBacked(s: System, a: nat, after: int)
    requires AlarmInv(s) && Possible(s, StartPost(a, after)) && !TakenByOthers(s, a, s.t.nextId)
    ensures var u := Perform(s, StartPost(a, after));
      Pending(u.t, u.entered, s.t.posted) && Alone(u, a, s.t.posted)
  {
    SerialsBelow(s.t);
    var u := Perform(s, StartPost(a, after));
    hide Inv, IdOf, NextId, Insert, AllMine, IdsMean, LocksMean;
    forall y | Waiting(u.t, y) && y != s.t.posted ensures IdOf(y) != IdOf(s.t.posted) {
      assert Waiting(s.t, y);
    }
  }

  lemma MineInQueue(s: System, x: nat)
    requires AlarmInv(s) && x in s.owner
    ensures forall i :: 0 <= i < |s.t.queue| && s.t.queue[i].serial == x ==> s.t.queue[i].callback.Some?
    ensures s.t.loop.Firing? && s.t.loop.msg.serial == x ==> s.t.loop.msg.callback == Some(s.owner[x])
  {
    hide Inv, IdsMean, LocksMean;
  }

  /** One alarm, one step: what was pending and unshared stays so. */
  lemma BackedOne(s: System, e: Action, a: nat, x: nat)
    requires AlarmInv(s) && Possible(s, e)
    requires e.StartPost? ==> e.a != a && !TakenByOthers(s, e.a, s.t.nextId)
    requires CountsOn(s, a, x) && x < s.t.posted && Pending(s.t, s.entered, x) && Alone(s, a, x)
    requires e.CancelCall? ==> e.a != a
    requires e.Enter? ==> s.t.loop.msg.callback != Some(a)
    ensures var u := Perform(s, e); Pending(u.t, u.entered, x) && Alone(u, a, x)
  {
    SerialsBelow(s.t);
    MineInQueue(s, x);
    if e.StartPost? { CountedIsTaken(s, a, x, e.a); }
    assert e.StartPost? ==> IdOf(s.t.posted) != IdOf(x);
    AloneKept(s, e, a, x);
    hide Inv, IdOf, AllMine, IdsMean, LocksMean, Apply, TakenByOthers;
    match e
    case StartPost(b, after) => PendingKept(s.t, s.entered, Post(after, Some(b)), x);
    case StartDone(_) =>
    case CancelCall(b) => PendingKept(s.t, s.entered, Cancel(s.alarms[b].messageId), x);
    case CancelDone(_) =>
    case Enter =>
    case Timer(e') => PendingKept(s.t, s.entered, e', x);
  }

  lemma CountsOnBefore(s: System, e: Action, a: nat, x: nat)
    requires AlarmInv(s) && Possible(s, e) && CountsOn(Perform(s, e), a, x)
    requires !(e.StartPost? && e.a == a)
    ensures CountsOn(s, a, x) && x < s.t.posted
    ensures e.CancelCall? ==> e.a != a
    ensures e.Enter? ==> s.t.loop.msg.callback != Some(a)
  {
    hide Inv, IdOf, AllMine, Apply;
  }

  /** Every step keeps started alarms backed, provided a post gets an id that is not in use. */
  lemma BackedStep(s: System, e: Action)
    requires AlarmInv(s) && Possible(s, e) && Backed(s)
    requires e.StartPost? ==> !TakenByOthers(s, e.a, s.t.nextId)
    ensures Backed(Perform(s, e))
  {
    var u := Perform(s, e);
    ActionInv(s, e);
    BackedMeans(s);
    BackedMeans(u);
    forall a, x | CountsOn(u, a, x) ensures Pending(u.t, u.entered, x) && Alone(u, a, x) {
      if e.StartPost? && e.a == a {
        NewPostIsBacked(s, a, e.after);
        StartPostCountsOn(s, a, e.after, x);
      } else {
        CountsOnBefore(s, e, a, x);
        BackedOne(s, e, a, x);
      }
    }
  }

  lemma StartPostCountsOn(s: System, a: nat, after: int, x: nat)
    requires s.t.ticksPerMs > 0 && Possible(s, StartPost(a, after))
    requires CountsOn(Perform(s, StartPost(a, after)), a, x)
    ensures x == s.t.posted
  {
  }

  /** A history in which every generated id is free at the time it is given out. */
  ghost predicate FreshIds(s: System, es: seq<Action>)
    requires IsHistory(s, es)
    decreases |es|
  {
    es != [] ==> (es[0].StartPost? ==> !TakenByOthers(s, es[0].a, s.t.nextId)) && FreshIds(Perform(s, es[0]), es[1..])
  }

  /** Over all histories with fresh ids: status Start means that the message is queued, in the
      batch and not cancelled, or committed to run; so a started alarm does ring unless it is
      cancelled. */
  lemma {:induction false} StartedIsPending(s: System, es: seq<Action>)
    requires AlarmInv(s) && Backed(s) && IsHistory(s, es) && FreshIds(s, es)
    ensures Backed(Later(s, es))
    decreases |es|
  {
    if es != [] {
      ActionInv(s, es[0]);
      BackedStep(s, es[0]);
      StartedIsPending(Perform(s, es[0]), es[1..]);
    }
  }

  /** An id is free for alarm `a` as long as what every other alarm and every waiting message holds
      was posted within the last 2^32-2 posts, which is how many ids there are. */
  lemma {:induction false} WindowIsFresh(s: System, a: nat)
    requires AlarmInv(s)
    requires forall b :: 0 <= b < |s.alarms| && b != a && s.alarms[b].messageId != 0 ==>
      s.t.posted < s.alarms[b].serial + PERIOD
    requires forall b :: 0 <= b < |s.locks| && b != a && s.locks[b].Posted? ==>
      s.t.posted < s.locks[b].serial + PERIOD
    requires forall y: nat :: Waiting(s.t, y) ==> s.t.posted < y + PERIOD
    ensures !TakenByOthers(s, a, s.t.nextId)
  {
    SerialsBelow(s.t);
    WaitingBelow(s.t);
    forall y: nat | y < s.t.posted < y + PERIOD ensures IdOf(y) != IdOf(s.t.posted) {
      SameIdIff(y, s.t.posted);
    }
    IdPositive(s.t.posted);
    hide Inv, IdOf, AllMine;
  }

  lemma WaitingBelow(t: State)
    requires Inv(t)
    ensures forall y: nat :: Waiting(t, y) ==> y < t.posted
  {
    hide IdOf, QueuePlaced, BatchPlaced, FiredOnce, SleepsSoundly, DeadlineHolds, DeadlineIsTight, Sorted;
  }

  // ----- an id that has come round -----

  /** No message in front of the place of the next post has the id it gets. */
  ghost predicate NoneBefore(t: State, after: int) {
    forall i :: 0 <= i < Before(t.queue, t.clock + after) ==> t.queue[i].id != t.nextId
  }

  function StealRun(a: nat, after: int, b: nat): seq<Action> {
    [StartPost(a, after), StartDone(a), CancelCall(b)]
  }

  /** Alarm `a` is started and then alarm `b` is cancelled: that unlinks the message of `a` exactly
      when `b` holds the id that the post gets and no earlier message in the list has it; and then
      `a` waits for nothing. */
  lemma {:induction false} StealsIff(s: System, a: nat, after: int, b: nat)
    requires AlarmInv(s) && Possible(s, StartPost(a, after))
    requires b < |s.alarms| && b != a && s.locks[b] == Free && s.alarms[b].messageId != 0
    ensures IsHistory(s, StealRun(a, after, b))
    ensures var u := Later(s, StealRun(a, after, b));
         && |u.alarms| == |u.locks| == |s.alarms| && u.locks[a] == Free
         && u.alarms[a] == Alarm(s.t.nextId, Started, s.t.posted) && s.t.posted in u.t.place
         && (u.t.place[s.t.posted] == Unlinked <==>
              s.alarms[b].messageId == s.t.nextId && NoneBefore(s.t, after))
         && (u.t.place[s.t.posted] == Unlinked ==> !Backed(u))
  {
    assert Inv(s.t) by { hide Inv; }
    hide AlarmInv, Perform, Possible, IdOf, ApplyCancel, ApplyPost, Backed, NoneBefore;
    StealEffect(s, a, after, b);
    NewestPlace(s.t, after, Some(a), s.alarms[b].messageId);
    var s1 := Perform(s, StartPost(a, after));
    var s2 := Perform(s1, StartDone(a));
    var u := Perform(s2, CancelCall(b));
    ActionInv(s, StartPost(a, after));
    ActionInv(s1, StartDone(a));
    ActionInv(s2, CancelCall(b));
    ThreeActions(s, StartPost(a, after), StartDone(a), CancelCall(b));
    if u.t.place[s.t.posted] == Unlinked { UnlinkedIsLost(u, a); }
  }

  lemma UnlinkedIsLost(u: System, a: nat)
    requires AlarmInv(u) && a < |u.alarms| && u.alarms[a].status == Started && u.locks[a] == Free
    requires u.alarms[a].serial in u.t.place && u.t.place[u.alarms[a].serial] == Unlinked
    ensures !Backed(u)
  {
    hide IdOf, AllMine, IdsMean, LocksMean, SleepsSoundly, DeadlineHolds, DeadlineIsTight, Sorted;
    assert !Pending(u.t, u.entered, u.alarms[a].serial);
  }

  lemma StealEffect(s: System, a: nat, after: int, b: nat)
    requires AlarmInv(s) && Possible(s, StartPost(a, after))
    requires b < |s.alarms| && b != a && s.locks[b] == Free && s.alarms[b].messageId != 0
    ensures var s1 := Perform(s, StartPost(a, after));
      && s1.t.ticksPerMs > 0 && Possible(s1, StartDone(a))
      && var s2 := Perform(s1, StartDone(a));
      && s2.t.ticksPerMs > 0 && Possible(s2, CancelCall(b))
      && var u := Perform(s2, CancelCall(b));
      && u.t == ApplyCancel(ApplyPost(s.t, after, Some(a)), s.alarms[b].messageId)
      && u.t.ticksPerMs > 0 && |u.alarms| == |u.locks| == |s.alarms| && u.locks[a] == Free
      && u.alarms[a] == Alarm(s.t.nextId, Started, s.t.posted)
  {
    assert s.t.ticksPerMs > 0 && |s.locks| == |s.alarms|;
    hide AlarmInv, IdOf, Insert, NextId, Find, Unlink;
  }

  lemma ThreeActions(s: System, e1: Action, e2: Action, e3: Action)
    requires s.t.ticksPerMs > 0 && Possible(s, e1)
    requires var s1 := Perform(s, e1); s1.t.ticksPerMs > 0 && Possible(s1, e2)
    requires var s2 := Perform(Perform(s, e1), e2); s2.t.ticksPerMs > 0 && Possible(s2, e3)
    requires Perform(Perform(Perform(s, e1), e2), e3).t.ticksPerMs > 0
    ensures IsHistory(s, [e1, e2, e3]) && Later(s, [e1, e2, e3]) == Perform(Perform(Perform(s, e1), e2), e3)
  {
    hide Perform, Possible;
    var s1 := Perform(s, e1);
    var s2 := Perform(s1, e2);
    var s3 := Perform(s2, e3);
    HistoryCons(s2, e3, []);
    HistoryCons(s1, e2, [e3]);
    HistoryCons(s, e1, [e2, e3]);
  }

  lemma HistoryCons(s: System, e: Action, es: seq<Action>)
    requires s.t.ticksPerMs > 0 && Possible(s, e) && IsHistory(Perform(s, e), es)
    ensures IsHistory(s, [e] + es) && Later(s, [e] + es) == Later(Perform(s, e), es)
  {
    assert ([e] + es)[0] == e && ([e] + es)[1..] == es;
    hide Perform, Possible;
  }

  /** What a cancel of `id` does to the message just posted. */
  lemma NewestPlace(t: State, after: int, callback: Option<nat>, id: nat)
    requires Inv(t)
    ensures var u := ApplyCancel(ApplyPost(t, after, callback), id);
      && t.posted in u.place
      && (u.place[t.posted] == Unlinked <==>
           id == t.nextId && NoneBefore(t, after))
  {
    hide Inv, IdOf, NextId, Unlink, Before, Insert, Find;
    SerialsBelow(t);
    FoundIsNew(t.queue, Msg(t.nextId, t.clock + after, callback, t.posted), id);
  }

  lemma FoundIsNew(q: seq<Msg>, m: Msg, id: nat)
    requires forall i :: 0 <= i < |q| ==> q[i].serial < m.serial
    ensures Before(q, m.when) <= |q|
    ensures var f := Find(Insert(q, m), id);
      f < |Insert(q, m)| && Insert(q, m)[f].serial == m.serial <==>
      id == m.id && forall i :: 0 <= i < Before(q, m.when) ==> q[i].id != id
  {
    var ins, p := Insert(q, m), Before(q, m.when);
    assert forall i :: 0 <= i < p ==> ins[i] == q[i];
    assert ins[p] == m && forall i :: p < i < |ins| ==> ins[i] == q[i - 1];
    hide Insert, Before;
    var f := Find(ins, id);
    FindIff(ins, id, f);
    FindIff(ins, id, p);
    hide Find;
    assert f < |ins| && ins[f].serial == m.serial <==> f == p;
  }

  /** Without fresh ids the promise fails: an alarm that has rung keeps its id, and when that id
      has come round again its Cancel unlinks the message of another, started alarm. */
  lemma StaleIdUnlinksOther(s: System, a: nat, b: nat)
    requires AlarmInv(s) && a < |s.alarms| && b < |s.alarms| && a != b
    requires s.alarms[a].status == Started && s.locks[a] == Free
    requires s.alarms[b].status == Rung && s.locks[b] == Free
    requires s.alarms[b].messageId == s.alarms[a].messageId
    requires var i := Find(s.t.queue, s.alarms[a].messageId);
      i < |s.t.queue| && s.t.queue[i].serial == s.alarms[a].serial
    ensures Possible(s, CancelCall(b))
    ensures var u := Perform(s, CancelCall(b));
      && u.alarms[a].status == Started && u.t.place[s.alarms[a].serial] == Unlinked
      && !Pending(u.t, u.entered, s.alarms[a].serial) && !Backed(u)
  {
    var x := s.alarms[a].serial;
    var u := Perform(s, CancelCall(b));
    assert s.t.place[x] == Queued by {
      hide IdOf, Unlink, DeadlineHolds, DeadlineIsTight, SleepsSoundly, Sorted, Holds;
    }
    assert !(s.t.loop.Firing? && s.t.loop.msg.serial == x) by {
      hide IdOf, Unlink, DeadlineHolds, DeadlineIsTight, SleepsSoundly, Sorted, Holds;
    }
    hide Inv, IdOf, Unlink, AllMine;
  }

  // ----- how an id comes round -----

  /** Alarm 1 has rung and keeps id 1; alarm 0 is not started; the loop is between two callbacks and
      nothing waits. */
  ghost predicate Resting(s: System, posts: nat) {
    && AlarmInv(s) && |s.alarms| == 2 && s.locks == [Free, Free]
    && s.t.queue == [] && s.t.posted == posts
    && s.alarms[1] == Alarm(1, Rung, 0) && s.alarms[0].status != Started
  }

  /** A post into an empty list, and the cancel of that message. */
  lemma OnlyMessage(t: State, after: int, callback: Option<nat>)
    requires Inv(t) && t.queue == []
    ensures var u := ApplyPost(t, after, callback);
      && u.queue == [Msg(t.nextId, t.clock + after, callback, t.posted)]
      && u.posted == t.posted + 1 && u.clock == t.clock && (!t.loop.Parked? ==> u.loop == t.loop)
      && ApplyCancel(u, t.nextId).queue == []
      && ApplyCancel(u, t.nextId).posted == u.posted
  {
    hide Inv, IdOf, NextId;
    var m := Msg(t.nextId, t.clock + after, callback, t.posted);
    assert Before([], m.when) == 0 && Insert([], m) == [m];
    assert Find([m], m.id) == 0;
  }

  /** Alarm 0 is started and cancelled: one more id is used up. */
  lemma Cycle(s: System, posts: nat)
    requires Resting(s, posts)
    ensures var es := [StartPost(0, 0), StartDone(0), CancelCall(0), CancelDone(0)];
      IsHistory(s, es) && Resting(Later(s, es), posts + 1)
  {
    var s1 := Perform(s, StartPost(0, 0));
    var s2 := Perform(s1, StartDone(0));
    var s3 := Perform(s2, CancelCall(0));
    var s4 := Perform(s3, CancelDone(0));
    OnlyMessage(s.t, 0, Some(0));
    SerialsBelow(s.t);
    IdPositive(s.t.posted);
    ActionInv(s, StartPost(0, 0));
    CycleEffect(s);
    ActionInv(s1, StartDone(0));
    ActionInv(s2, CancelCall(0));
    ActionInv(s3, CancelDone(0));
    hide AlarmInv, Perform, Possible, ApplyPost, ApplyCancel;
    HistoryCons(s3, CancelDone(0), []);
    HistoryCons(s2, CancelCall(0), [CancelDone(0)]);
    HistoryCons(s1, StartDone(0), [CancelCall(0), CancelDone(0)]);
    HistoryCons(s, StartPost(0, 0), [StartDone(0), CancelCall(0), CancelDone(0)]);
  }

  lemma CycleEffect(s: System)
    requires s.t.ticksPerMs > 0 && |s.alarms| == 2 && s.locks == [Free, Free] && s.alarms[0].status != Started
    requires s.t.nextId != 0
    ensures Possible(s, StartPost(0, 0))
    ensures var s1 := Perform(s, StartPost(0, 0));
      && s1.t == ApplyPost(s.t, 0, Some(0)) && s1.t.ticksPerMs > 0 && Possible(s1, StartDone(0))
      && var s2 := Perform(s1, StartDone(0));
      && s2.t == s1.t && s2.alarms == [Alarm(s.t.nextId, Started, s.t.posted), s.alarms[1]] && s2.locks == [Free, Free]
      && Possible(s2, CancelCall(0))
      && var s3 := Perform(s2, CancelCall(0));
      && s3.t == ApplyCancel(s1.t, s.t.nextId) && s3.t.ticksPerMs > 0 && Possible(s3, CancelDone(0))
      && var s4 := Perform(s3, CancelDone(0));
      && s4.t == s3.t && s4.alarms == [Alarm(0, Canceled, s.t.posted), s.alarms[1]] && s4.locks == [Free, Free]
  {
    hide Insert, NextId, Find, Unlink;
  }

  lemma {:induction false} LaterAppend(s: System, es: seq<Action>, fs: seq<Action>)
    requires IsHistory(s, es) && IsHistory(Later(s, es), fs)
    ensures IsHistory(s, es + fs) && Later(s, es + fs) == Later(Later(s, es), fs)
    decreases |es|
  {
    if es == [] {
      assert [] + fs == fs;
    } else {
      assert (es + fs)[1..] == es[1..] + fs;
      hide Perform, Possible;
      LaterAppend(Perform(s, es[0]), es[1..], fs);
    }
  }

  lemma {:induction false} Cycles(s: System, posts: nat, n: nat) returns (es: seq<Action>)
    requires Resting(s, posts)
    ensures IsHistory(s, es) && Resting(Later(s, es), posts + n)
    decreases n
  {
    es := [];
    if n == 0 {
      assert s.t.ticksPerMs > 0;
    } else {
      hide Perform, Possible, Resting;
      Cycle(s, posts);
      var one := [StartPost(0, 0), StartDone(0), CancelCall(0), CancelDone(0)];
      var rest := Cycles(Later(s, one), posts + 1, n - 1);
      LaterAppend(s, one, rest);
      es := one + rest;
    }
  }

  lemma StartEffect(s: System, a: nat)
    requires s.t.ticksPerMs > 0 && |s.locks| == |s.alarms| && a < |s.alarms|
    requires s.locks[a] == Free && s.alarms[a].status != Started
    ensures Possible(s, StartPost(a, 0))
    ensures var s1 := Perform(s, StartPost(a, 0));
      && s1.t == ApplyPost(s.t, 0, Some(a)) && s1.t.ticksPerMs > 0 && Possible(s1, StartDone(a))
      && Perform(s1, StartDone(a)) ==
           s.(t := s1.t, owner := s1.owner, alarms := s.alarms[a := Alarm(s.t.nextId, Started, s.t.posted)])
  {
    hide Insert, NextId;
    assert s.locks[a := Free] == s.locks;
  }

  /** Alarm 1 is started and rings. */
  lemma FirstRing()
    ensures var es := [StartPost(1, 0), StartDone(1), Timer(Scan), Timer(Check(1)), Enter, Timer(Return)];
      IsHistory(Fresh(1, 0, 2), es) && Resting(Later(Fresh(1, 0, 2), es), 1)
  {
    hide AlarmInv, Perform, Possible, Insert, NextId, Resting, ApplyPost, Fresh, IdOf;
    var s0 := Fresh(1, 0, 2);
    FreshInv(1, 0, 2);
    FreshTwo();
    OnlyMessage(s0.t, 0, Some(1));
    StartEffect(s0, 1);
    var s1 := Perform(s0, StartPost(1, 0));
    var s2 := Perform(s1, StartDone(1));
    ActionInv(s0, StartPost(1, 0));
    ActionInv(s1, StartDone(1));
    OneRings(s2, Msg(1, 0, Some(1), 0));
    var rest := [Timer(Scan), Timer(Check(1)), Enter, Timer(Return)];
    HistoryCons(s1, StartDone(1), rest);
    HistoryCons(s0, StartPost(1, 0), [StartDone(1)] + rest);
    assert [StartPost(1, 0)] + ([StartDone(1)] + rest)
        == [StartPost(1, 0), StartDone(1), Timer(Scan), Timer(Check(1)), Enter, Timer(Return)];
  }

  lemma FreshTwo()
    ensures var s := Fresh(1, 0, 2);
      && s.t == Initial(1, 0) && s.locks == [Free, Free] && s.alarms == [Alarm(0, Idle, 0), Alarm(0, Idle, 0)]
      && Inv(s.t)
  {
    FreshInv(1, 0, 2);
  }

  /** The scan of a single message that is due. */
  lemma ScanOne(t: State, m: Msg)
    requires t.ticksPerMs > 0 && t.queue == [m] && m.when == t.clock && m.callback.Some?
    ensures var u := ApplyScan(t);
      u.queue == [] && u.batch == map[m.id := m] && u.canceled == {} && u.loop == Draining && u.posted == t.posted
      && u.ticksPerMs == t.ticksPerMs
  {
    assert IsDue(m, t.clock, t.ticksPerMs);
    assert DueCount([m], t.clock, t.ticksPerMs) == 1 by { assert [m][1..] == []; }
    assert [m][..1] == [m] && [m][1..] == [];
    assert Collect([m]) == map[m.id := m] by { assert [m][..0] == []; }
    hide DueCount, Collect, TakenPlaces, IsDue;
  }

  lemma OneRings(s: System, m: Msg)
    requires AlarmInv(s) && s.locks == [Free, Free] && s.alarms == [Alarm(0, Idle, 0), Alarm(1, Started, 0)]
    requires s.t.queue == [m] && m == Msg(1, s.t.clock, Some(1), 0) && s.t.loop == Scanning && s.t.posted == 1
    ensures var es := [Timer(Scan), Timer(Check(1)), Enter, Timer(Return)];
      IsHistory(s, es) && Resting(Later(s, es), 1)
  {
    ScanOne(s.t, m);
    OneScanned(s, m);
    var s1 := Perform(s, Timer(Scan));
    OneChecked(s1, m);
    var s2 := Perform(s1, Timer(Check(1)));
    OneEntered(s2, m);
    var s3 := Perform(s2, Enter);
    ActionInv(s, Timer(Scan));
    ActionInv(s1, Timer(Check(1)));
    ActionInv(s2, Enter);
    ActionInv(s3, Timer(Return));
    hide Perform, Possible, AlarmInv, ApplyScan, ApplyCheck;
    HistoryCons(s3, Timer(Return), []);
    HistoryCons(s2, Enter, [Timer(Return)]);
    HistoryCons(s1, Timer(Check(1)), [Enter, Timer(Return)]);
    HistoryCons(s, Timer(Scan), [Timer(Check(1)), Enter, Timer(Return)]);
  }

  lemma OneScanned(s: System, m: Msg)
    requires s.t.ticksPerMs > 0 && |s.locks| == |s.alarms| && s.t.loop == Scanning
    ensures Possible(s, Timer(Scan))
    ensures var u := Perform(s, Timer(Scan)); u.t == ApplyScan(s.t) && u.locks == s.locks && u.alarms == s.alarms
  {
    hide ApplyScan;
  }

  lemma OneChecked(s: System, m: Msg)
    requires s.t.ticksPerMs > 0 && |s.locks| == |s.alarms| && s.t.loop == Draining
    requires s.t.batch == map[1 := m] && s.t.canceled == {}
    ensures Possible(s, Timer(Check(1)))
    ensures var u := Perform(s, Timer(Check(1)));
      && u.t.loop == Firing(m) && !u.entered && u.t.queue == s.t.queue && u.t.posted == s.t.posted
      && u.t.ticksPerMs == s.t.ticksPerMs && u.locks == s.locks && u.alarms == s.alarms
  {
  }

  lemma OneEntered(s: System, m: Msg)
    requires s.t.ticksPerMs > 0 && s.locks == [Free, Free] && s.alarms == [Alarm(0, Idle, 0), Alarm(1, Started, 0)]
    requires s.t.loop == Firing(m) && m.callback == Some(1) && !s.entered
    ensures Possible(s, Enter)
    ensures var u := Perform(s, Enter);
      && u.t == s.t && u.locks == s.locks && u.alarms == [Alarm(0, Idle, 0), Alarm(1, Rung, 0)]
      && Possible(u, Timer(Return))
      && var v := Perform(u, Timer(Return));
      && v.t == s.t.(loop := Draining) && v.locks == s.locks && v.alarms == u.alarms
  {
  }

  /** It does happen: two alarms, one that has rung, and 2^32-3 starts and cancels of the other.
      Then the other one is started once more, the first is cancelled, and the started alarm has
      lost its message. */
  lemma {:induction false} StaleIdHappens() returns (es: seq<Action>)
    ensures IsHistory(Fresh(1, 0, 2), es)
    ensures var u := Later(Fresh(1, 0, 2), es);
      && |u.alarms| == 2 && |u.locks| == 2 && u.alarms[0].status == Started && u.locks[0] == Free
      && PERIOD in u.t.place && u.alarms[0].serial == PERIOD && u.t.place[PERIOD] == Unlinked && !Backed(u)
  {
    FirstRing();
    var ring := [StartPost(1, 0), StartDone(1), Timer(Scan), Timer(Check(1)), Enter, Timer(Return)];
    var s := Later(Fresh(1, 0, 2), ring);
    var cycles := Cycles(s, 1, PERIOD - 1);
    LaterAppend(Fresh(1, 0, 2), ring, cycles);
    var r := Later(s, cycles);
    RestingId(r);
    StealsIff(r, 0, 0, 1);
    hide Perform, Possible, Resting, Backed;
    LaterAppend(Fresh(1, 0, 2), ring + cycles, StealRun(0, 0, 1));
    es := ring + cycles + StealRun(0, 0, 1);
  }

  lemma RestingId(r: System)
    requires Resting(r, PERIOD)
    ensures AlarmInv(r) && r.t.nextId == 1 && r.t.posted == PERIOD && r.t.queue == []
    ensures Possible(r, StartPost(0, 0)) && |r.alarms| == 2 && r.locks == [Free, Free] && r.alarms[1].messageId == 1
    ensures NoneBefore(r.t, 0)
  {
    SerialsBelow(r.t);
    assert IdOf(PERIOD) == 1;
    hide AlarmInv;
  }
}
