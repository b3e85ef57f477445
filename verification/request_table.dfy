/** Requests in flight (tcp_client.cpp:170-196, 223-240, 543-581, 648-661, 675-698): the map of
    callbacks and the map of timeout alarms, for which responses, timeouts and disconnects
    compete. A step is one critical section of `_mapMutex` or `_timeoutMutex`. */
module RequestTable {
  import opened Options

  /** Ids run from 1 to 65534 and start over. */
  const LAST_ID: nat := 65534

  function RequestId(serial: nat): (id: nat)
    ensures 1 <= id <= LAST_ID
  {
    serial % LAST_ID + 1
  }

  /** Lines 237-240, in 16 bits. */
  function NextMsgId(id: nat): nat {
    var next := (id + 1) % 0x1_0000;
    if next == 0xFFFF then 1 else next
  }

  lemma NextMsgIdIs(serial: nat)
    ensures NextMsgId(RequestId(serial)) == RequestId(serial + 1)
  {
    if serial % LAST_ID == LAST_ID - 1 {
      assert (serial + 1) % LAST_ID == 0;
    } else {
      assert (serial + 1) % LAST_ID == serial % LAST_ID + 1;
    }
  }

  /** Requests less than 65534 apart have different ids. */
  lemma {:induction false} CloseIdsDiffer(x: nat, y: nat)
    requires x < y < x + LAST_ID
    ensures RequestId(x) != RequestId(y)
  {
    DivMod(x);
    DivMod(y);
  }

  lemma DivMod(x: nat)
    ensures x == (x / LAST_ID) * LAST_ID + x % LAST_ID
  {
  }

  // ----- one disconnect, as a function of the two maps -----

  /** A stored callback; None is an empty std::function. */
  type Callback = Option<nat>

  ghost predicate IsSmallest(keys: set<nat>, k: nat) {
    k in keys && forall j :: j in keys ==> k <= j
  }

  lemma {:induction false} SmallestExists(keys: set<nat>)
    requires keys != {}
    ensures exists k :: IsSmallest(keys, k)
    decreases |keys|
  {
    var x :| x in keys;
    var rest := keys - {x};
    if rest == {} {
      assert keys == {x};
      assert IsSmallest(keys, x);
    } else {
      SmallestExists(rest);
      var k :| IsSmallest(rest, k);
      var m := if x < k then x else k;
      forall j | j in keys ensures m <= j {
        if j != x { assert j in rest; }
      }
      assert IsSmallest(keys, m);
    }
  }

  /** The keys in the order in which std::map visits them. */
  ghost function Ascending(keys: set<nat>): (ids: seq<nat>)
    ensures forall k :: k in ids <==> k in keys
    ensures forall i, j :: 0 <= i < j < |ids| ==> ids[i] < ids[j]
    decreases |keys|
  {
    if keys == {} then []
    else
      SmallestExists(keys);
      var k :| IsSmallest(keys, k);
      [k] + Ascending(keys - {k})
  }

  predicate Answers(callbacks: map<nat, Callback>, id: nat) {
    id in callbacks && callbacks[id].Some?
  }

  /** Lines 188-196: who gets kErrorCodeLoseConnect, and the callbacks that are left. */
  function Sweep(ids: seq<nat>, callbacks: map<nat, Callback>): (seq<nat>, map<nat, Callback>)
    decreases |ids|
  {
    if ids == [] then ([], callbacks)
    else if !Answers(callbacks, ids[0]) then ([], callbacks - {ids[0]})
    else
      var rest := Sweep(ids[1..], callbacks - {ids[0]});
      ([callbacks[ids[0]].value] + rest.0, rest.1)
  }

  predicate Distinct(ids: seq<nat>) {
    forall i, j :: 0 <= i < j < |ids| ==> ids[i] != ids[j]
  }

  /** The ids served before the loop stops: up to the first one without a callback to call. */
  function Served(ids: seq<nat>, callbacks: map<nat, Callback>): nat {
    if ids == [] || !Answers(callbacks, ids[0]) then 0 else 1 + Served(ids[1..], callbacks)
  }

  lemma {:induction false} ServedWithout(ids: seq<nat>, callbacks: map<nat, Callback>, id: nat)
    requires id !in ids
    ensures Served(ids, callbacks - {id}) == Served(ids, callbacks)
  {
    if ids != [] { ServedWithout(ids[1..], callbacks, id); }
  }

  lemma {:induction false} ServedBounds(ids: seq<nat>, callbacks: map<nat, Callback>)
    ensures var n := Served(ids, callbacks);
      && n <= |ids|
      && (forall i :: 0 <= i < n ==> Answers(callbacks, ids[i]))
      && (n < |ids| ==> !Answers(callbacks, ids[n]))
  {
    if ids != [] { ServedBounds(ids[1..], callbacks); }
  }

  /** Exactly what the loop does: the ids before the first one that has no callback to call are
      served, each with its own callback and in order; that first one loses its entry; all other
      entries stay. */
  lemma {:induction false} SweepExact(ids: seq<nat>, callbacks: map<nat, Callback>)
    requires Distinct(ids)
    ensures var n := Served(ids, callbacks);
      && n <= |ids| && |Sweep(ids, callbacks).0| == n
      && (forall i :: 0 <= i < n ==>
           Answers(callbacks, ids[i]) && Sweep(ids, callbacks).0[i] == callbacks[ids[i]].value)
      && (forall k :: k in Sweep(ids, callbacks).1 <==>
           k in callbacks && (forall i :: 0 <= i <= n && i < |ids| ==> ids[i] != k))
      && (forall k :: k in Sweep(ids, callbacks).1 ==> Sweep(ids, callbacks).1[k] == callbacks[k])
  {
    if ids != [] && Answers(callbacks, ids[0]) {
      var rest, left := ids[1..], callbacks - {ids[0]};
      SweepExact(rest, left);
      ServedWithout(rest, callbacks, ids[0]);
      ServedBounds(ids, callbacks);
      var n := Served(ids, callbacks);
      var after := Sweep(rest, left).1;
      assert Sweep(ids, callbacks).1 == after;
      forall k ensures k in after <==> k in callbacks && (forall i :: 0 <= i <= n && i < |ids| ==> ids[i] != k) {
        if k in callbacks && (forall i :: 0 <= i <= n && i < |ids| ==> ids[i] != k) {
          assert forall i :: 0 <= i <= n - 1 && i < |rest| ==> rest[i] == ids[i + 1];
        }
        if k in after {
          forall i | 0 <= i <= n && i < |ids| ensures ids[i] != k {
            if i > 0 { assert rest[i - 1] == ids[i]; }
          }
        }
      }
    }
  }

  /** Everybody in flight is told about the lost connection iff everybody in flight has a
      callback to call. */
  lemma {:induction false} EveryoneIsToldIff(ids: seq<nat>, callbacks: map<nat, Callback>)
    requires Distinct(ids)
    ensures |Sweep(ids, callbacks).0| == |ids| <==> (forall i :: 0 <= i < |ids| ==> Answers(callbacks, ids[i]))
  {
    SweepExact(ids, callbacks);
    ServedBounds(ids, callbacks);
  }

  /** One request that wants no reply is enough for nobody to be told: its id 0 comes first and
      no request has it. */
  lemma NoReplySilencesAll(timers: set<nat>, callbacks: map<nat, Callback>)
    requires 0 in timers && (forall k :: k in callbacks ==> 1 <= k)
    ensures Sweep(Ascending(timers), callbacks) == ([], callbacks)
  {
    var ids := Ascending(timers);
    assert 0 in ids;
    assert ids[0] == 0;
    assert callbacks - {0} == callbacks;
  }

  // ----- the competition, step by step -----

  datatype Why = Answered | TimedOut | LostConnection

  /** What has become of the callback of an accepted Send. */
  datatype Fate = InTable | Taken | Overwritten

  datatype Outcome = Outcome(serial: nat, id: nat, why: Why)

  /** The worker between `alarm->Start` and line 579, or in __handleSendResp past line 686. */
  datatype Worker = Free | Armed(alarm: nat, id: nat) | Erased(id: nat)

  /** The timer thread before line 553 and before line 560 of the timeout callback, or in the
      loop of lines 188-196. */
  datatype Timer = Quiet | Fired(id: nat) | Expired(id: nat) | Sweeping(ids: seq<nat>)

  datatype Table = Table(
    currentMsgId: nat,
    callbacks: map<nat, Callback>,
    timers: map<nat, nat>,   // _timeoutAlarmMap: an alarm for a message id
    running: map<nat, nat>,  // alarms that are started, and their user data
    alarms: nat,             // number of alarms handed out
    worker: Worker,
    timer: Timer,
    sent: nat,               // history: number of accepted Sends
    origin: map<nat, nat>,   // history: the Send that made each entry of `callbacks`
    fate: map<nat, Fate>,    // history
    log: seq<Outcome>        // history: the callbacks taken, in order
  )

  datatype Event =
    | Send(func: Callback)
    | Arm(id: nat)
    | Record
    | RespErase(id: nat)
    | RespTake
    | Fire(alarm: nat)
    | TimeoutErase
    | TimeoutTake
    | SweepStart
    | SweepNext

  const EMPTY := Table(1, map[], map[], map[], 0, Free, Quiet, 0, map[], map[], [])

  predicate Enabled(t: Table, e: Event) {
    match e
    case Send(_) => true
    case Arm(id) => t.worker == Free
    case Record => t.worker.Armed?
    case RespErase(_) => t.worker == Free
    case RespTake => t.worker.Erased?
    case Fire(a) => t.timer == Quiet && a in t.running
    case TimeoutErase => t.timer.Fired?
    case TimeoutTake => t.timer.Expired?
    case SweepStart => t.timer == Quiet && t.worker == Free
    case SweepNext => t.timer.Sweeping? && t.timer.ids != []
  }

  /** __GetCallback: finding and erasing are one critical section. */
  function Take(t: Table, id: nat, why: Why): Table {
    if id in t.callbacks && id in t.origin then
      t.(callbacks := t.callbacks - {id}, origin := t.origin - {id}, fate := t.fate[t.origin[id] := Taken],
         log := t.log + [Outcome(t.origin[id], id, why)])
    else t
  }

  ghost function Apply(t: Table, e: Event): Table
    requires Enabled(t, e)
  {
    match e
    case Send(func) =>
      var id := t.currentMsgId;
      var fate := if id in t.origin then t.fate[t.origin[id] := Overwritten] else t.fate;
      t.(callbacks := t.callbacks[id := func], origin := t.origin[id := t.sent], fate := fate[t.sent := InTable],
         sent := t.sent + 1, currentMsgId := NextMsgId(id))
    case Arm(id) => t.(running := t.running[t.alarms := id], worker := Armed(t.alarms, id), alarms := t.alarms + 1)
    case Record => t.(timers := t.timers[t.worker.id := t.worker.alarm], worker := Free)
    case RespErase(id) =>
      t.(running := if id in t.timers then t.running - {t.timers[id]} else t.running,
         timers := t.timers - {id}, worker := Erased(id))
    case RespTake => Take(t, t.worker.id, Answered).(worker := Free)
    case Fire(a) => t.(running := t.running - {a}, timer := Fired(t.running[a]))
    case TimeoutErase => t.(timers := t.timers - {t.timer.id}, timer := Expired(t.timer.id))
    case TimeoutTake => Take(t, t.timer.id, TimedOut).(timer := Quiet)
    case SweepStart =>
      t.(timer := if t.timers == map[] then Quiet else Sweeping(Ascending(t.timers.Keys)),
         running := t.running - t.timers.Values, timers := map[])
    case SweepNext =>
      var id, rest := t.timer.ids[0], t.timer.ids[1..];
      Take(t, id, LostConnection).(timer := if Answers(t.callbacks, id) && rest != [] then Sweeping(rest) else Quiet)
  }

  ghost predicate IsRun(t: Table, es: seq<Event>)
    decreases |es|
  {
    es != [] ==> Enabled(t, es[0]) && IsRun(Apply(t, es[0]), es[1..])
  }

  ghost function After(t: Table, es: seq<Event>): Table
    requires IsRun(t, es)
    decreases |es|
  {
    if es == [] then t else After(Apply(t, es[0]), es[1..])
  }

  // ----- at most one outcome -----

  /** Every accepted Send is in the table, or has been taken, or has been overwritten. */
  ghost predicate Accounted(t: Table) {
    && t.currentMsgId == RequestId(t.sent)
    && (forall x: nat :: x in t.fate <==> x < t.sent)
    && t.origin.Keys == t.callbacks.Keys
    && (forall id :: id in t.origin ==>
         t.origin[id] in t.fate && t.fate[t.origin[id]] == InTable && RequestId(t.origin[id]) == id)
    && (forall x :: x in t.fate && t.fate[x] == InTable ==>
         RequestId(x) in t.origin && t.origin[RequestId(x)] == x)
  }

  ghost predicate TakenOnce(t: Table) {
    && (forall i :: 0 <= i < |t.log| ==>
         t.log[i].serial in t.fate && t.fate[t.log[i].serial] == Taken && t.log[i].id == RequestId(t.log[i].serial))
    && (forall i, j :: 0 <= i < j < |t.log| ==> t.log[i].serial != t.log[j].serial)
    && (forall x :: x in t.fate && t.fate[x] == Taken ==> exists i :: 0 <= i < |t.log| && t.log[i].serial == x)
  }

  lemma TakeAccounted(t: Table, id: nat, why: Why)
    requires Accounted(t)
    ensures Accounted(Take(t, id, why))
  {
    hide RequestId;
  }

  lemma TakeOnce(t: Table, id: nat, why: Why)
    requires Accounted(t) && TakenOnce(t)
    ensures TakenOnce(Take(t, id, why))
  {
    hide RequestId;
    var u := Take(t, id, why);
    if id in t.callbacks {
      assert u.log[|t.log|].serial == t.origin[id];
      forall x | x in u.fate && u.fate[x] == Taken ensures exists i :: 0 <= i < |u.log| && u.log[i].serial == x {
        if x != t.origin[id] {
          var i :| 0 <= i < |t.log| && t.log[i].serial == x;
          assert u.log[i].serial == x;
        }
      }
    }
  }

  lemma TakeInv(t: Table, id: nat, why: Why)
    requires Accounted(t) && TakenOnce(t)
    ensures Accounted(Take(t, id, why)) && TakenOnce(Take(t, id, why))
  {
    TakeAccounted(t, id, why);
    TakeOnce(t, id, why);
    hide *;
  }

  lemma SendAccounted(t: Table, func: Callback)
    requires Accounted(t)
    ensures Accounted(Apply(t, Send(func)))
  {
    NextMsgIdIs(t.sent);
    hide RequestId, NextMsgId;
  }

  lemma SendTakenOnce(t: Table, func: Callback)
    requires Accounted(t) && TakenOnce(t)
    ensures TakenOnce(Apply(t, Send(func)))
  {
    var u := Apply(t, Send(func));
    assert forall x :: x in t.fate && t.fate[x] == Taken ==> x in u.fate && u.fate[x] == Taken;
    assert forall x :: x in u.fate && u.fate[x] == Taken ==> x in t.fate && t.fate[x] == Taken;
    assert u.log == t.log;
    hide RequestId, Accounted, Apply;
  }

  lemma SendInv(t: Table, func: Callback)
    requires Accounted(t) && TakenOnce(t)
    ensures Accounted(Apply(t, Send(func))) && TakenOnce(Apply(t, Send(func)))
  {
    SendAccounted(t, func);
    SendTakenOnce(t, func);
    hide *;
  }

  predicate SameRecords(t: Table, u: Table) {
    && t.currentMsgId == u.currentMsgId && t.callbacks == u.callbacks && t.sent == u.sent
    && t.origin == u.origin && t.fate == u.fate && t.log == u.log
  }

  lemma RecordsDecide(t: Table, u: Table)
    requires SameRecords(t, u) && Accounted(t) && TakenOnce(t)
    ensures Accounted(u) && TakenOnce(u)
  {
  }

  /** Which steps touch the callbacks, and how. */
  lemma EventRecords(t: Table, e: Event)
    requires Enabled(t, e) && !e.Send?
    ensures SameRecords(Apply(t, e),
      (match e
      case RespTake => Take(t, t.worker.id, Answered)
      case TimeoutTake => Take(t, t.timer.id, TimedOut)
      case SweepNext => Take(t, t.timer.ids[0], LostConnection)
      case _ => t))
  {
  }

  lemma EventInv(t: Table, e: Event)
    requires Accounted(t) && TakenOnce(t) && Enabled(t, e)
    ensures Accounted(Apply(t, e)) && TakenOnce(Apply(t, e))
  {
    if e.Send? { SendInv(t, e.func); } else { EventRecords(t, e); }
    hide Accounted, TakenOnce, Apply, SameRecords, Take;
    match e
    case RespTake =>
      TakeInv(t, t.worker.id, Answered);
      RecordsDecide(Take(t, t.worker.id, Answered), Apply(t, e));
    case TimeoutTake =>
      TakeInv(t, t.timer.id, TimedOut);
      RecordsDecide(Take(t, t.timer.id, TimedOut), Apply(t, e));
    case SweepNext =>
      TakeInv(t, t.timer.ids[0], LostConnection);
      RecordsDecide(Take(t, t.timer.ids[0], LostConnection), Apply(t, e));
    case Send(_) =>
    case _ => RecordsDecide(t, Apply(t, e));
  }

  /** Under all interleavings of sends, responses, timeouts and disconnects every accepted Send
      has its callback taken at most once, by its own id, and never after it was overwritten. */
  lemma {:induction false} OneOutcome(t: Table, es: seq<Event>)
    requires Accounted(t) && TakenOnce(t) && IsRun(t, es)
    ensures Accounted(After(t, es)) && TakenOnce(After(t, es))
    decreases |es|
  {
    if es != [] {
      EventInv(t, es[0]);
      hide Accounted, TakenOnce, Apply, Enabled;
      OneOutcome(Apply(t, es[0]), es[1..]);
    }
  }

  /** A Send overwrites the callback of an earlier request iff that one is 65534 Sends back; with
      fewer ids outstanding none is ever lost this way. */
  lemma {:induction false} OverwritesIff(t: Table)
    requires Accounted(t)
    ensures t.currentMsgId in t.callbacks <==> exists x :: x in t.fate && t.fate[x] == InTable && RequestId(x) == RequestId(t.sent)
    ensures (forall x :: x in t.fate && t.fate[x] == InTable ==> t.sent < x + LAST_ID) ==> t.currentMsgId !in t.callbacks
  {
    if t.currentMsgId in t.callbacks {
      var x := t.origin[t.currentMsgId];
      if t.sent < x + LAST_ID { CloseIdsDiffer(x, t.sent); }
    }
    hide RequestId;
  }

  // ----- a disconnect -----

  /** Every running timeout alarm is in the map under its id, unless the worker is about to put
      it there. */
  ghost predicate AllRecorded(t: Table) {
    && (forall a :: a in t.running ==>
         && a < t.alarms && t.timer != Fired(t.running[a])
         && (t.worker == Armed(a, t.running[a]) || (t.running[a] in t.timers && t.timers[t.running[a]] == a)))
    && (t.worker.Armed? ==>
         && t.worker.alarm < t.alarms && t.worker.id !in t.timers
         && (t.worker.alarm in t.running ==> t.running[t.worker.alarm] == t.worker.id))
  }

  /** A request is only written under an id that no other request in flight uses. */
  ghost predicate FreshArm(t: Table, e: Event) {
    e.Arm? ==> e.id !in t.timers && t.timer != Fired(e.id)
  }

  ghost predicate FreshArms(t: Table, es: seq<Event>)
    requires IsRun(t, es)
    decreases |es|
  {
    es != [] ==> FreshArm(t, es[0]) && FreshArms(Apply(t, es[0]), es[1..])
  }

  lemma RecordedStep(t: Table, e: Event)
    requires AllRecorded(t) && Enabled(t, e) && FreshArm(t, e)
    ensures AllRecorded(Apply(t, e))
  {
    hide RequestId, NextMsgId, Ascending, Answers;
  }

  lemma {:induction false} RecordedRun(t: Table, es: seq<Event>)
    requires AllRecorded(t) && IsRun(t, es) && FreshArms(t, es)
    ensures AllRecorded(After(t, es))
    decreases |es|
  {
    if es != [] {
      RecordedStep(t, es[0]);
      hide AllRecorded, Apply, Enabled, FreshArm;
      RecordedRun(Apply(t, es[0]), es[1..]);
    }
  }

  lemma RunCons(t: Table, e: Event, es: seq<Event>)
    requires Enabled(t, e) && IsRun(Apply(t, e), es)
    ensures IsRun(t, [e] + es) && After(t, [e] + es) == After(Apply(t, e), es)
  {
    assert ([e] + es)[0] == e && ([e] + es)[1..] == es;
    hide Apply, Enabled;
  }

  /** Writing a request under `id`: lines 576 and 578-580. */
  ghost function Written(t: Table, id: nat): (u: Table)
    requires t.worker == Free
    ensures u == t.(running := t.running[t.alarms := id], timers := t.timers[id := t.alarms], alarms := t.alarms + 1)
  {
    Apply(Apply(t, Arm(id)), Record)
  }

  /** The client has written a request without reply when the connection is lost, and nobody is
      told: the callback of the other request in flight is neither called nor timed any more. */
  lemma NoReplyRun()
    ensures var es := [Send(Some(7)), Arm(1), Record, Arm(0), Record, SweepStart, SweepNext];
      && IsRun(EMPTY, es)
      && var u := After(EMPTY, es);
         u.log == [] && u.callbacks == map[1 := Some(7)] && u.running == map[] && u.timer == Quiet
  {
    FirstSend();
    var t1 := Apply(EMPTY, Send(Some(7)));
    TwoWritten(t1);
    SweptInVain(Written(Written(t1, 1), 0));
    hide Apply, Enabled, Written;
    var rest := [SweepStart, SweepNext];
    RunCons(Apply(TwoInFlight(t1), SweepStart), SweepNext, []);
    RunCons(TwoInFlight(t1), SweepStart, [SweepNext]);
    WriteRun(Written(t1, 1), 0, rest);
    WriteRun(t1, 1, [Arm(0), Record] + rest);
    RunCons(EMPTY, Send(Some(7)), [Arm(1), Record] + ([Arm(0), Record] + rest));
    assert [Send(Some(7))] + ([Arm(1), Record] + ([Arm(0), Record] + rest))
        == [Send(Some(7)), Arm(1), Record, Arm(0), Record, SweepStart, SweepNext];
  }

  lemma WriteRun(t: Table, id: nat, es: seq<Event>)
    requires t.worker == Free && IsRun(Written(t, id), es)
    ensures IsRun(t, [Arm(id), Record] + es) && After(t, [Arm(id), Record] + es) == After(Written(t, id), es)
  {
    var armed := Apply(t, Arm(id));
    assert Enabled(t, Arm(id)) && Enabled(armed, Record) && Apply(armed, Record) == Written(t, id);
    hide Apply, Enabled, Written;
    RunCons(armed, Record, es);
    RunCons(t, Arm(id), [Record] + es);
    assert [Arm(id)] + ([Record] + es) == [Arm(id), Record] + es;
  }

  lemma FirstSend()
    ensures Enabled(EMPTY, Send(Some(7)))
    ensures Apply(EMPTY, Send(Some(7))) ==
      EMPTY.(callbacks := map[1 := Some(7)], origin := map[1 := 0], fate := map[0 := InTable], sent := 1, currentMsgId := 2)
  {
  }

  ghost function TwoInFlight(t: Table): Table
    requires t.worker == Free
  {
    Written(Written(t, 1), 0)
  }

  lemma TwoWritten(t: Table)
    requires t.worker == Free && t.running == map[] && t.timers == map[] && t.alarms == 0
    ensures TwoInFlight(t) == t.(running := map[0 := 1, 1 := 0], timers := map[0 := 1, 1 := 0], alarms := 2)
  {
    assert map[1 := 0][0 := 1] == map[0 := 1, 1 := 0];
  }

  lemma SweptInVain(t: Table)
    requires t.worker == Free && t.timer == Quiet && 0 !in t.callbacks
    requires t.running == map[0 := 1, 1 := 0] && t.timers == map[0 := 1, 1 := 0]
    ensures Enabled(t, SweepStart) && Enabled(Apply(t, SweepStart), SweepNext)
    ensures var u := Apply(Apply(t, SweepStart), SweepNext);
      u.log == t.log && u.callbacks == t.callbacks && u.running == map[] && u.timer == Quiet
  {
    assert t.timers[0] in t.timers.Values && t.timers[1] in t.timers.Values;
    SweepsZeroFirst(t);
    var u := Apply(t, SweepStart);
    assert u == t.(timer := u.timer, running := map[], timers := map[]) by { hide Ascending; }
    hide Apply;
    NextInVain(u);
  }

  lemma NextInVain(t: Table)
    requires Enabled(t, SweepNext) && t.timer.ids[0] !in t.callbacks
    ensures Apply(t, SweepNext) == t.(timer := Quiet)
  {
  }

  lemma SweepsZeroFirst(t: Table)
    requires 0 in t.timers && t.timer == Quiet && t.worker == Free
    requires forall a :: a in t.running ==> a in t.timers.Values
    ensures var u := Apply(t, SweepStart); u.timer.Sweeping? && u.timer.ids != [] && u.timer.ids[0] == 0
    ensures Apply(t, SweepStart).running == map[]
  {
    assert 0 in Ascending(t.timers.Keys);
  }

  // ----- timeouts that survive a disconnect -----

  /** The map holds alarms that have been handed out, and a running one under its own id. */
  ghost predicate Own(t: Table) {
    && (forall a :: a in t.running ==> a < t.alarms)
    && (forall id :: id in t.timers ==>
         && t.timers[id] < t.alarms
         && (t.timers[id] in t.running ==> t.running[t.timers[id]] == id))
    && (t.worker.Armed? ==>
         && t.worker.alarm < t.alarms
         && (t.worker.alarm in t.running ==> t.running[t.worker.alarm] == t.worker.id))
  }

  lemma OwnStep(t: Table, e: Event)
    requires Own(t) && Enabled(t, e)
    ensures Own(Apply(t, e))
  {
    hide RequestId, NextMsgId, Ascending, Answers;
  }

  lemma {:induction false} OwnRun(t: Table, es: seq<Event>)
    requires Own(t) && IsRun(t, es)
    ensures Own(After(t, es))
    decreases |es|
  {
    if es != [] {
      OwnStep(t, es[0]);
      hide Own, Apply, Enabled;
      OwnRun(Apply(t, es[0]), es[1..]);
    }
  }

  /** Over all runs: a disconnect silences every timeout exactly when each alarm that runs is the
      one in the map under its id. */
  lemma {:induction false} SilencesIff(es: seq<Event>)
    requires IsRun(EMPTY, es) && Enabled(After(EMPTY, es), SweepStart)
    ensures var t := After(EMPTY, es);
      Apply(t, SweepStart).running == map[] <==> forall a :: a in t.running ==> Recorded(t, a)
  {
    OwnRun(EMPTY, es);
    SilencedIff(After(EMPTY, es));
    hide *;
  }

  /** What a caller can look at before it writes a request under `id`: over all runs, a disconnect
      right after the write silences every timeout exactly when one right before it would have, and
      no timeout runs under that id already. */
  lemma {:induction false} WriteSilencesIff(es: seq<Event>, id: nat)
    requires IsRun(EMPTY, es)
    requires var t := After(EMPTY, es); t.worker == Free && t.timer == Quiet
    ensures var t := After(EMPTY, es);
      Apply(Written(t, id), SweepStart).running == map[] <==>
      Apply(t, SweepStart).running == map[] && (id !in t.timers || t.timers[id] !in t.running)
  {
    OwnRun(EMPTY, es);
    WriteSilences(After(EMPTY, es), id);
    hide *;
  }

  ghost predicate Recorded(t: Table, a: nat)
    requires a in t.running
  {
    t.running[a] in t.timers && t.timers[t.running[a]] == a
  }

  /** What line 183 stops, for every alarm that runs. */
  lemma SilencedIff(t: Table)
    requires Own(t) && Enabled(t, SweepStart)
    ensures Apply(t, SweepStart).running == map[] <==> forall a :: a in t.running ==> Recorded(t, a)
  {
    hide Ascending;
    var u := Apply(t, SweepStart);
    if u.running == map[] {
      forall a | a in t.running ensures Recorded(t, a) {
        assert a !in u.running;
        var id :| id in t.timers && t.timers[id] == a;
      }
    } else {
      var a :| a in u.running;
      assert a in t.running && a !in t.timers.Values;
    }
  }

  lemma WriteSilences(t: Table, id: nat)
    requires Own(t) && t.worker == Free && t.timer == Quiet
    ensures Apply(Written(t, id), SweepStart).running == map[] <==>
      Apply(t, SweepStart).running == map[] && (id !in t.timers || t.timers[id] !in t.running)
  {
    var w := Written(t, id);
    OwnStep(t, Arm(id));
    OwnStep(Apply(t, Arm(id)), Record);
    SilencedIff(t);
    SilencedIff(w);
    WrittenRecords(t, id);
    hide Apply, Written, Own, Recorded;
    assert w.running.Keys == t.running.Keys + {t.alarms};
    if id in t.timers && t.timers[id] in t.running { assert !Recorded(w, t.timers[id]); }
  }

  /** Which alarms are in the map behind the write. */
  lemma WrittenRecords(t: Table, id: nat)
    requires Own(t) && t.worker == Free
    ensures var w := Written(t, id);
      && w.running.Keys == t.running.Keys + {t.alarms} && Recorded(w, t.alarms)
      && (id in t.timers && t.timers[id] in t.running ==> !Recorded(w, t.timers[id]))
      && (id !in t.timers || t.timers[id] !in t.running ==>
           forall a :: a in t.running ==> (Recorded(t, a) <==> Recorded(w, a)))
      && (forall a :: a in t.running && Recorded(w, a) ==> Recorded(t, a))
  {
    hide Apply, Written;
  }

  /** It holds whenever no request was written under an id in flight. */
  lemma {:induction false} FreshIdsSilence(es: seq<Event>)
    requires IsRun(EMPTY, es) && FreshArms(EMPTY, es) && Enabled(After(EMPTY, es), SweepStart)
    ensures var t := After(EMPTY, es); forall a :: a in t.running ==> Recorded(t, a)
  {
    RecordedRun(EMPTY, es);
    hide After, IsRun, FreshArms, Apply;
  }

  // ----- a response, and a timeout -----

  /** From any table: a response stops the timeout of its id and no other, and then takes the callback
      of its id and no other. */
  lemma ResponseStops(t: Table, id: nat)
    requires Own(t) && Enabled(t, RespErase(id)) && t.origin.Keys == t.callbacks.Keys
    ensures var u := Apply(t, RespErase(id));
      && id !in u.timers && (id in t.timers ==> t.timers[id] !in u.running)
      && (forall k :: k in t.timers && k != id ==> k in u.timers && u.timers[k] == t.timers[k])
      && (forall a :: a in t.running && (id in t.timers ==> a != t.timers[id]) ==>
           a in u.running && u.running[a] == t.running[a])
      && u.timers.Keys <= t.timers.Keys && u.running.Keys <= t.running.Keys
      && u.callbacks == t.callbacks && u.log == t.log
      && Enabled(u, RespTake) && var v := Apply(u, RespTake);
         && v.timers == u.timers && v.running == u.running
         && v.callbacks == t.callbacks - {id}
         && v.log == (if id in t.callbacks then t.log + [Outcome(t.origin[id], id, Answered)] else t.log)
         && v.worker == Free
  {
  }

  /** From any table: a timeout that is delivered takes the entry of its id, which is its own alarm's
      while ids in flight differ, and the callback of its id and no other. */
  lemma TimeoutTakes(t: Table, a: nat)
    requires Own(t) && Enabled(t, Fire(a)) && t.origin.Keys == t.callbacks.Keys
    ensures var id := t.running[a]; var u := Apply(t, Fire(a));
      && a !in u.running && (forall b :: b in t.running && b != a ==> b in u.running && u.running[b] == t.running[b])
      && u.running.Keys <= t.running.Keys && u.timers == t.timers
      && Enabled(u, TimeoutErase) && var v := Apply(u, TimeoutErase);
         && id !in v.timers && v.running == u.running
         && (forall k :: k in t.timers && k != id ==> k in v.timers && v.timers[k] == t.timers[k])
         && v.timers.Keys <= t.timers.Keys
         && Enabled(v, TimeoutTake) && var w := Apply(v, TimeoutTake);
            && w.timers == v.timers && w.running == v.running
            && w.callbacks == t.callbacks - {id}
            && w.log == (if id in t.callbacks then t.log + [Outcome(t.origin[id], id, TimedOut)] else t.log)
            && w.timer == Quiet
  {
  }

  /** An accepted Send waits under the next id with its own callback, and touches no other. */
  lemma SendWaits(t: Table, func: Callback)
    ensures var u := Apply(t, Send(func));
      && t.currentMsgId in u.callbacks && u.callbacks[t.currentMsgId] == func
      && u.callbacks.Keys == t.callbacks.Keys + {t.currentMsgId}
      && (forall k :: k in t.callbacks && k != t.currentMsgId ==> u.callbacks[k] == t.callbacks[k])
      && u.timers == t.timers && u.running == t.running && u.log == t.log && u.sent == t.sent + 1
  {
  }

  /** Starting the timeout of a request that is written records it under its id. */
  lemma WriteStarts(t: Table, id: nat)
    requires t.worker == Free
    ensures var u := Written(t, id);
      && t.alarms in u.running && u.running[t.alarms] == id && id in u.timers && u.timers[id] == t.alarms
      && (forall k :: k in t.timers && k != id ==> k in u.timers && u.timers[k] == t.timers[k])
      && (forall b :: b in t.running && b < t.alarms ==> b in u.running && u.running[b] == t.running[b])
      && u.callbacks == t.callbacks && u.log == t.log
  {
  }

  /** An alarm that has been handed out and does not run never runs again. */
  lemma {:induction false} NeverRunsAgain(t: Table, es: seq<Event>, a: nat)
    requires IsRun(t, es) && a < t.alarms && a !in t.running
    ensures a !in After(t, es).running && forall i :: 0 <= i < |es| ==> es[i] != Fire(a)
    decreases |es|
  {
    if es != [] {
      hide Apply, Enabled;
      GoneStep(t, es[0], a);
      NeverRunsAgain(Apply(t, es[0]), es[1..], a);
      forall i | 0 <= i < |es| ensures es[i] != Fire(a) {
        if i > 0 { assert es[i] == es[1..][i - 1]; }
      }
    }
  }

  lemma GoneStep(t: Table, e: Event, a: nat)
    requires Enabled(t, e) && a < t.alarms && a !in t.running
    ensures e != Fire(a) && a < Apply(t, e).alarms && a !in Apply(t, e).running
  {
    hide Ascending, Answers, RequestId, NextMsgId;
  }

  /** Over all runs: after a response the timeout recorded for its id is never delivered, whatever
      happens; and when no request was written under an id in flight, no timeout runs under that id. */
  lemma {:induction false} AnsweredNeverTimesOut(before: seq<Event>, id: nat, after: seq<Event>)
    requires IsRun(EMPTY, before) && Enabled(After(EMPTY, before), RespErase(id))
    requires IsRun(Apply(After(EMPTY, before), RespErase(id)), after)
    ensures var t := After(EMPTY, before); var u := Apply(t, RespErase(id));
      && (id in t.timers ==> forall i :: 0 <= i < |after| ==> after[i] != Fire(t.timers[id]))
      && (FreshArms(EMPTY, before) ==> forall a :: a in u.running ==> u.running[a] != id)
  {
    OwnRun(EMPTY, before);
    OneOutcome(EMPTY, before);
    if FreshArms(EMPTY, before) { RecordedRun(EMPTY, before); }
    var t := After(EMPTY, before);
    ResponseStops(t, id);
    assert Apply(t, RespErase(id)).alarms == t.alarms;
    assert forall a :: a in Apply(t, RespErase(id)).running ==> Apply(t, RespErase(id)).running[a] == t.running[a];
    hide After, IsRun, FreshArms, Apply;
    if id in t.timers { NeverRunsAgain(Apply(t, RespErase(id)), after, t.timers[id]); }
  }

  /** A run that breaks it: two requests without reply are in flight, both under id 0, when the
      connection is lost, and the timeout of the first one goes on running. */
  lemma SharedIdKeepsRunning()
    ensures var es := [Arm(0), Record, Arm(0), Record, SweepStart];
      IsRun(EMPTY, es) && After(EMPTY, es).running == map[0 := 0]
  {
    var t1 := Apply(EMPTY, Arm(0));
    var t2 := Apply(t1, Record);
    var t3 := Apply(t2, Arm(0));
    var t4 := Apply(t3, Record);
    var t5 := Apply(t4, SweepStart);
    assert t2 == Written(EMPTY, 0) && t4 == Written(t2, 0);
    assert t4.timers == map[0 := 1] && t4.running == map[0 := 0, 1 := 0];
    assert t4.timers.Values == {1} by {
      assert forall a :: a in t4.timers.Values ==> a == 1;
      assert t4.timers[0] in t4.timers.Values;
    }
    assert t5.running == map[0 := 0];
    hide Apply, Enabled;
    RunCons(t4, SweepStart, []);
    RunCons(t3, Record, [SweepStart]);
    RunCons(t2, Arm(0), [Record, SweepStart]);
    RunCons(t1, Record, [Arm(0), Record, SweepStart]);
    RunCons(EMPTY, Arm(0), [Record, Arm(0), Record, SweepStart]);
  }

  predicate NoWrite(es: seq<Event>) { forall i :: 0 <= i < |es| ==> !es[i].Arm? }

  predicate NoTimeout(es: seq<Event>) { forall i :: 0 <= i < |es| ==> !es[i].Fire? }

  /** Over all runs: after a disconnect no timeout is delivered until another request is written,
      whatever happens, exactly when each alarm that runs is the one in the map under its id. */
  lemma {:induction false} DisconnectStopsTimeouts(before: seq<Event>)
    requires IsRun(EMPTY, before) && Enabled(After(EMPTY, before), SweepStart)
    ensures var t := After(EMPTY, before); var u := Apply(t, SweepStart);
      (forall after :: IsRun(u, after) && NoWrite(after) ==> NoTimeout(after)) <==>
      forall a :: a in t.running ==> Recorded(t, a)
  {
    SilencesIff(before);
    var u := Apply(After(EMPTY, before), SweepStart);
    hide Apply, Recorded, IsRun, After;
    if u.running == map[] {
      forall after | IsRun(u, after) && NoWrite(after) ensures NoTimeout(after) { NothingFires(u, after); }
    } else {
      var a :| a in u.running;
      var after := FiresAfterwards(u, a);
      assert !NoTimeout(after);
    }
  }

  /** A timeout that runs on is delivered when the loop of lines 188-196 is over. */
  lemma {:induction false} FiresAfterwards(t: Table, a: nat) returns (es: seq<Event>)
    requires a in t.running && (t.timer == Quiet || (t.timer.Sweeping? && t.timer.ids != []))
    ensures IsRun(t, es) && NoWrite(es) && es != [] && es[|es| - 1] == Fire(a)
    decreases if t.timer.Sweeping? then |t.timer.ids| else 0
  {
    if t.timer == Quiet {
      es := [Fire(a)];
      assert es[1..] == [];
      assert IsRun(Apply(t, Fire(a)), []);
    } else {
      var u := Apply(t, SweepNext);
      var rest := FiresAfterwards(u, a);
      RunCons(t, SweepNext, rest);
      es := [SweepNext] + rest;
    }
  }

  lemma {:induction false} NothingFires(t: Table, es: seq<Event>)
    requires t.running == map[] && IsRun(t, es) && (forall i :: 0 <= i < |es| ==> !es[i].Arm?)
    ensures forall i :: 0 <= i < |es| ==> !es[i].Fire?
    decreases |es|
  {
    if es != [] {
      assert Apply(t, es[0]).running == map[] by { hide Ascending, Answers, RequestId, NextMsgId; }
      NothingFires(Apply(t, es[0]), es[1..]);
      forall i | 0 <= i < |es| ensures !es[i].Fire? {
        if i > 0 { assert es[i] == es[1..][i - 1]; }
      }
    }
  }

  /** The loop of lines 188-196 run to its end. */
  ghost function SweepOut(t: Table): Table
    requires t.timer == Quiet || (t.timer.Sweeping? && t.timer.ids != [])
    decreases if t.timer.Sweeping? then |t.timer.ids| else 0
  {
    if t.timer == Quiet then t else SweepOut(Apply(t, SweepNext))
  }

  /** Lines 176-196 without interruption. */
  ghost function Disconnect(t: Table): Table
    requires t.timer == Quiet && t.worker == Free
  {
    SweepMayRun(t);
    SweepOut(Apply(t, SweepStart))
  }

  lemma SomeTimer(timers: map<nat, nat>)
    requires timers != map[]
    ensures Ascending(timers.Keys) != []
  {
    var k :| k in timers;
    assert k in Ascending(timers.Keys);
  }

  lemma SweepMayRun(t: Table)
    requires t.timer == Quiet && t.worker == Free
    ensures var u := Apply(t, SweepStart); u.timer == Quiet || (u.timer.Sweeping? && u.timer.ids != [])
  {
    hide Ascending;
    if t.timers != map[] {
      SomeTimer(t.timers);
    }
  }

  /** The loop computes Sweep on the callbacks, and what it takes is recorded as lost. */
  lemma {:induction false} SweepOutIs(t: Table)
    requires Accounted(t) && t.timer.Sweeping? && t.timer.ids != [] && Distinct(t.timer.ids)
    ensures var u := SweepOut(t);
      && u.callbacks == Sweep(t.timer.ids, t.callbacks).1
      && t.log <= u.log
      && (forall i :: |t.log| <= i < |u.log| ==> u.log[i].why == LostConnection)
    decreases |t.timer.ids|
  {
    var ids := t.timer.ids;
    var u := Apply(t, SweepNext);
    SweepAccounted(t);
    assert u.callbacks == t.callbacks - {ids[0]} by { hide RequestId; }
    assert t.log <= u.log && |u.log| <= |t.log| + 1;
    assert |t.log| < |u.log| ==> u.log[|t.log|].why == LostConnection;
    hide RequestId, Accounted;
    if u.timer.Sweeping? {
      assert u.timer.ids == ids[1..];
      SweepOutIs(u);
    } else {
      assert SweepOut(t) == u;
      if Answers(t.callbacks, ids[0]) { assert ids[1..] == []; }
    }
  }

  lemma SweepAccounted(t: Table)
    requires Accounted(t) && Enabled(t, SweepNext)
    ensures Accounted(Apply(t, SweepNext))
  {
    hide RequestId;
  }

  lemma AnswersByIndex(timers: map<nat, nat>, callbacks: map<nat, Callback>)
    ensures var ids := Ascending(timers.Keys);
      && ((forall i :: 0 <= i < |ids| ==> Answers(callbacks, ids[i])) <==>
           (forall id :: id in timers ==> Answers(callbacks, id)))
      && (forall id :: id in timers ==> exists i :: 0 <= i < |ids| && ids[i] == id)
      && (forall i :: 0 <= i < |ids| ==> ids[i] in timers)
  {
    var ids := Ascending(timers.Keys);
    forall i | 0 <= i < |ids| ensures ids[i] in timers {
      assert ids[i] in ids;
    }
    forall id | id in timers ensures exists i :: 0 <= i < |ids| && ids[i] == id {
      assert id in ids;
    }
  }

  /** When everybody in flight has a callback to call, the callbacks left are exactly those of
      requests that are not in flight. */
  lemma SweepOfAll(timers: map<nat, nat>, callbacks: map<nat, Callback>)
    requires forall id :: id in timers ==> Answers(callbacks, id)
    ensures Sweep(Ascending(timers.Keys), callbacks).1.Keys == callbacks.Keys - timers.Keys
  {
    var ids := Ascending(timers.Keys);
    AnswersByIndex(timers, callbacks);
    EveryoneIsToldIff(ids, callbacks);
    SweepExact(ids, callbacks);
    hide Sweep, Ascending, Served, Answers;
    var left := Sweep(ids, callbacks).1;
    assert forall k :: k in left <==> k in callbacks && k !in timers;
  }

  /** A disconnect with all timeouts recorded: no alarm is left, everybody in flight is told iff
      everybody in flight has a callback to call, and then what is left of the callbacks is
      exactly those not in flight. */
  lemma DisconnectTellsExactly(t: Table)
    requires Accounted(t) && AllRecorded(t) && t.timer == Quiet && t.worker == Free
    ensures var u := Disconnect(t); var told := Sweep(Ascending(t.timers.Keys), t.callbacks).0;
      && u.running == map[] && u.timers == map[]
      && (|told| == |Ascending(t.timers.Keys)| <==> forall id :: id in t.timers ==> Answers(t.callbacks, id))
      && ((forall id :: id in t.timers ==> Answers(t.callbacks, id)) ==>
           u.callbacks.Keys == t.callbacks.Keys - t.timers.Keys)
  {
    hide Accounted, Disconnect, Sweep, Ascending, Answers;
    SweepOutFields(t);
    assert t.running - t.timers.Values == map[] by {
      assert forall a :: a in t.running ==> a in t.timers.Values;
    }
    AnswersByIndex(t.timers, t.callbacks);
    EveryoneIsToldIff(Ascending(t.timers.Keys), t.callbacks);
    hide *;
    if forall id :: id in t.timers ==> Answers(t.callbacks, id) {
      SweepOfAll(t.timers, t.callbacks);
    }
  }

  // ----- the operations -----

  /** The fields of TcpClient for requests in flight, and its methods on them. `running` stands
      for the alarm objects: those that are started, with their user data. */
  class Requests {
    var currentMsgId: nat
    var callbackMap: map<nat, Callback>
    var timeoutAlarmMap: map<nat, nat>
    var running: map<nat, nat>
    var alarms: nat

    constructor ()
      ensures Shows(EMPTY)
    {
      currentMsgId, callbackMap, timeoutAlarmMap, running, alarms := 1, map[], map[], map[], 0;
    }

    /** What the fields have in common with a state of the step system. */
    ghost predicate Shows(t: Table)
      reads this
    {
      && currentMsgId == t.currentMsgId && callbackMap == t.callbacks
      && timeoutAlarmMap == t.timers && running == t.running && alarms == t.alarms
    }

    /** Lines 223-240. */
    method Send(func: Callback, ghost t: Table) returns (id: nat)
      requires Shows(t)
      modifies this
      ensures Shows(Apply(t, Event.Send(func))) && id == t.currentMsgId
    {
      id := currentMsgId;
      callbackMap := callbackMap[id := func];
      currentMsgId := (currentMsgId + 1) % 0x1_0000;
      if currentMsgId == 0xFFFF {
        currentMsgId := 1;
      }
    }

    /** Lines 648-661. */
    method GetCallback(id: nat) returns (callback: Callback)
      modifies this`callbackMap
      ensures callback == if id in old(callbackMap) then old(callbackMap)[id] else None
      ensures callbackMap == old(callbackMap) - {id}
    {
      callback := None;
      if id in callbackMap {
        callback := callbackMap[id];
        callbackMap := callbackMap - {id};
      }
    }

    /** Lines 547-580: an alarm for a request that has been written. */
    method SetTimeout(id: nat, ghost t: Table)
      requires Shows(t) && t.worker == Free
      modifies this
      ensures Shows(Apply(Apply(t, Arm(id)), Record))
    {
      var alarm := alarms;
      alarms := alarms + 1;
      running := running[alarm := id];
      timeoutAlarmMap := timeoutAlarmMap[id := alarm];
    }

    /** Lines 675-697. `called` is the callback that gets kErrorCodeNone. */
    method HandleSendResp(id: nat, ghost t: Table) returns (called: Callback)
      requires Shows(t) && t.worker == Free && t.origin.Keys == t.callbacks.Keys
      modifies this
      ensures Shows(Apply(Apply(t, RespErase(id)), RespTake))
      ensures called == if id in t.callbacks then t.callbacks[id] else None
    {
      if id in timeoutAlarmMap {
        var alarm := timeoutAlarmMap[id];
        running := running - {alarm};
        timeoutAlarmMap := timeoutAlarmMap - {id};
      }
      called := GetCallback(id);
    }

    /** Lines 550-566, in the alarm `alarm`. `called` is the callback that gets kErrorCodeTimeout. */
    method OnTimeout(alarm: nat, ghost t: Table) returns (called: Callback)
      requires Shows(t) && t.timer == Quiet && alarm in t.running && t.origin.Keys == t.callbacks.Keys
      modifies this
      ensures Shows(Apply(Apply(Apply(t, Fire(alarm)), TimeoutErase), TimeoutTake))
      ensures called == if t.running[alarm] in t.callbacks then t.callbacks[t.running[alarm]] else None
    {
      var id := running[alarm];
      running := running - {alarm};
      if id in timeoutAlarmMap {
        timeoutAlarmMap := timeoutAlarmMap - {id};
      }
      called := GetCallback(id);
    }

    /** The smallest key, which is where std::map starts. */
    static method First(keys: set<nat>) returns (k: nat)
      requires keys != {}
      ensures IsSmallest(keys, k)
    {
      k :| k in keys;
      var rest := keys - {k};
      while rest != {}
        invariant rest <= keys && k in keys && forall j :: j in keys ==> j in rest || k <= j
      {
        var j :| j in rest;
        if j < k {
          k := j;
        }
        rest := rest - {j};
      }
    }

    /** Lines 176-196, after the join. `told` are the callbacks that get kErrorCodeLoseConnect, and
        `all` says that the loop came to its end. */
    method LoseConnection(ghost t: Table) returns (told: seq<nat>, all: bool)
      requires Shows(t) && t.timer == Quiet && t.worker == Free && Accounted(t)
      modifies this
      ensures Shows(Disconnect(t))
      ensures (told, callbackMap) == Sweep(Ascending(t.timers.Keys), t.callbacks)
      ensures all <==> forall id :: id in t.timers ==> Answers(t.callbacks, id)
    {
      hide SweepOut, Apply, Sweep, Ascending, Accounted, Disconnect, RequestId, Answers, Served;
      SweepOutFields(t);
      var ids := StopTimers();
      told, all := TellAll(ids);
      AnswersByIndex(t.timers, t.callbacks);
      EveryoneIsToldIff(ids, t.callbacks);
    }

    /** Lines 188-196. */
    method TellAll(ids: seq<nat>) returns (told: seq<nat>, all: bool)
      modifies this`callbackMap
      ensures (told, callbackMap) == Sweep(ids, old(callbackMap)) && (all <==> |told| == |ids|)
    {
      told, all := [], false;
      var i := 0;
      StartExtending(ids, callbackMap);
      while i < |ids|
        invariant 0 <= i <= |ids| && |told| == i && !all
        invariant Sweep(ids, old(callbackMap)) == Extend(told, Sweep(ids[i..], callbackMap))
      {
        ExtendStep(told, ids, i, callbackMap);
        hide Extend, Sweep;
        var callback := GetCallback(ids[i]);
        if callback.None? {
          return;
        }
        told := told + [callback.value];
        i := i + 1;
      }
      ExtendEnd(told, ids, callbackMap);
      all := true;
    }

    /** Lines 177-186. */
    method StopTimers() returns (ids: seq<nat>)
      modifies this`timeoutAlarmMap, this`running
      ensures ids == Ascending(old(timeoutAlarmMap).Keys)
      ensures timeoutAlarmMap == map[] && running == old(running) - old(timeoutAlarmMap).Values
    {
      ids := [];
      var left := timeoutAlarmMap.Keys;
      ghost var timers := timeoutAlarmMap;
      hide *;
      NothingStopped(running, timers);
      while left != {}
        invariant left <= timers.Keys && timeoutAlarmMap == timers
        invariant ids + Ascending(left) == Ascending(timers.Keys)
        invariant running == Without(old(running), timers, left)
      {
        var k := First(left);
        AscendingStep(ids, left, k);
        WithoutStep(old(running), timers, left, k);
        FirstIn(left, k);
        ids := ids + [k];
        running := running - {timeoutAlarmMap[k]};
        left := left - {k};
      }
      AllStopped(old(running), timers, ids);
      timeoutAlarmMap := map[];
    }
  }

  ghost function AlarmsOutside(timers: map<nat, nat>, left: set<nat>): set<nat> {
    set k | k in timers && k !in left :: timers[k]
  }

  ghost function Without(running: map<nat, nat>, timers: map<nat, nat>, left: set<nat>): map<nat, nat> {
    running - AlarmsOutside(timers, left)
  }

  lemma NothingStopped(running: map<nat, nat>, timers: map<nat, nat>)
    ensures Without(running, timers, timers.Keys) == running
    ensures [] + Ascending(timers.Keys) == Ascending(timers.Keys)
  {
    assert AlarmsOutside(timers, timers.Keys) == {};
  }

  lemma AllStopped(running: map<nat, nat>, timers: map<nat, nat>, ids: seq<nat>)
    ensures Without(running, timers, {}) == running - timers.Values
    ensures ids + Ascending({}) == ids
  {
    assert AlarmsOutside(timers, {}) == timers.Values;
  }

  lemma WithoutStep(running: map<nat, nat>, timers: map<nat, nat>, left: set<nat>, k: nat)
    requires IsSmallest(left, k) && left <= timers.Keys
    ensures k in timers && Without(running, timers, left) - {timers[k]} == Without(running, timers, left - {k})
  {
    assert AlarmsOutside(timers, left - {k}) == AlarmsOutside(timers, left) + {timers[k]};
  }

  lemma FirstIn(keys: set<nat>, k: nat)
    requires IsSmallest(keys, k)
    ensures k in keys
  {
  }

  lemma AscendingHead(keys: set<nat>, k: nat)
    requires IsSmallest(keys, k)
    ensures Ascending(keys) == [k] + Ascending(keys - {k})
  {
    assert forall j :: IsSmallest(keys, j) ==> j == k;
    assert keys != {};
    hide IsSmallest;
  }

  lemma AscendingStep(ids: seq<nat>, keys: set<nat>, k: nat)
    requires IsSmallest(keys, k)
    ensures ids + Ascending(keys) == (ids + [k]) + Ascending(keys - {k})
  {
    AscendingHead(keys, k);
    hide Ascending, IsSmallest;
  }

  ghost function Extend(told: seq<nat>, s: (seq<nat>, map<nat, Callback>)): (seq<nat>, map<nat, Callback>) {
    (told + s.0, s.1)
  }

  lemma StartExtending(ids: seq<nat>, callbacks: map<nat, Callback>)
    ensures Extend([], Sweep(ids[0..], callbacks)) == Sweep(ids, callbacks)
  {
    assert ids[0..] == ids;
    assert [] + Sweep(ids, callbacks).0 == Sweep(ids, callbacks).0;
  }

  lemma ExtendStep(told: seq<nat>, ids: seq<nat>, i: nat, callbacks: map<nat, Callback>)
    requires i < |ids|
    ensures var left := callbacks - {ids[i]};
      Extend(told, Sweep(ids[i..], callbacks)) ==
        if Answers(callbacks, ids[i]) then Extend(told + [callbacks[ids[i]].value], Sweep(ids[i + 1..], left))
        else (told, left)
  {
    assert ids[i..][0] == ids[i] && ids[i..][1..] == ids[i + 1..];
    var left := callbacks - {ids[i]};
    if Answers(callbacks, ids[i]) {
      var x, rest := callbacks[ids[i]].value, Sweep(ids[i + 1..], left).0;
      assert told + ([x] + rest) == (told + [x]) + rest;
    } else {
      assert told + [] == told;
    }
  }

  lemma ExtendEnd(told: seq<nat>, ids: seq<nat>, callbacks: map<nat, Callback>)
    ensures Extend(told, Sweep(ids[|ids|..], callbacks)) == (told, callbacks)
  {
    assert ids[|ids|..] == [];
    assert told + [] == told;
  }

  lemma SweepOutFields(t: Table)
    requires Accounted(t) && t.timer == Quiet && t.worker == Free
    ensures var u := Disconnect(t);
      && u.callbacks == Sweep(Ascending(t.timers.Keys), t.callbacks).1
      && u.timers == map[] && u.running == t.running - t.timers.Values
      && u.currentMsgId == t.currentMsgId && u.alarms == t.alarms
  {
    var u := Apply(t, SweepStart);
    SweepMayRun(t);
    if t.timers != map[] {
      RecordsDecideAccounted(t, u);
      SweepOutIs(u);
      SweepOutFrame(u);
    }
  }

  lemma RecordsDecideAccounted(t: Table, u: Table)
    requires SameRecords(t, u) && Accounted(t)
    ensures Accounted(u)
  {
  }

  lemma {:induction false} SweepOutFrame(t: Table)
    requires t.timer == Quiet || (t.timer.Sweeping? && t.timer.ids != [])
    ensures var u := SweepOut(t);
      u.timers == t.timers && u.running == t.running && u.currentMsgId == t.currentMsgId && u.alarms == t.alarms
    decreases if t.timer.Sweeping? then |t.timer.ids| else 0
  {
    if t.timer.Sweeping? { SweepOutFrame(Apply(t, SweepNext)); }
  }
}
