/** From the end of a worker to the next one: `_thread`, the reconnect alarm that every worker
    starts as its last step, and the reconnect callback that joins the worker and clears
    `_thread` (tcp_client.cpp:79-88, 103-133, 170-175, 318), on top of the alarms and the timer
    loop. Alarm 0 is `_reconnectAlarm`; nothing but the worker starts it and nothing cancels it. */
module WorkerLife {
  import opened Options
  import opened TimerList
  import opened TimerLoop
  import opened Alarms

  /** The worker thread: not there, before `_reconnectAlarm.Start(0)`, inside it with the message
      posted, or ended and not joined yet. */
  datatype Worker = Absent | Running | Starting | Finished

  /** The reconnect callback: not running or past its use of `_thread`, about to join, joined with
      `_thread` still set, or `_thread` cleared. */
  datatype Callback = Quiet | Waits | Joined | Cleared

  datatype Life = Life(
    sys: System,
    worker: Worker,
    thread: bool,       // _thread != NULL
    cb: Callback,
    overlapped: bool,   // history: a worker was created while another one existed
    startFailed: bool   // history: some `_reconnectAlarm.Start(0)` returned false
  )

  datatype Act =
    | Spawn              // line 129, `_thread` is NULL
    | StartReconnect     // line 318, up to the post
    | EndStart           // line 318, the rest of Start
    | Ring               // the wrapper of the reconnect alarm
    | Join               // line 173
    | Forget             // lines 174-175
    | Reconnect          // line 83 and after
    | Other(a: Action)   // any step of the other alarms and of the timer loop

  const RECONNECT: nat := 0

  predicate FiringReconnect(t: State) {
    t.loop.Firing? && t.loop.msg.callback == Some(RECONNECT)
  }

  /** Steps that are not about the reconnect alarm. A callback of it returns when it is over. */
  predicate Elsewhere(l: Life, a: Action) {
    match a
    case StartPost(b, _) => b != RECONNECT
    case StartDone(b) => b != RECONNECT
    case CancelCall(b) => b != RECONNECT
    case CancelDone(b) => b != RECONNECT
    case Enter => !FiringReconnect(l.sys.t)
    case Timer(e) => e.Return? ==> l.cb == Quiet
  }

  predicate Ready(l: Life, a: Act) {
    && |l.sys.locks| == |l.sys.alarms| > 0
    && match a
       case Spawn => !l.thread
       case StartReconnect => l.worker == Running && l.sys.locks[RECONNECT] == Free
       case EndStart => l.worker == Starting && Possible(l.sys, StartDone(RECONNECT))
       case Ring => Possible(l.sys, Enter) && FiringReconnect(l.sys.t)
       case Join => l.cb == Waits && l.thread && l.worker == Finished
       case Forget => l.cb == Joined || (l.cb == Waits && !l.thread)
       case Reconnect => l.cb == Cleared
       case Other(b) => Elsewhere(l, b) && Possible(l.sys, b)
  }

  function Do(l: Life, a: Act): Life
    requires l.sys.t.ticksPerMs > 0 && Ready(l, a)
  {
    match a
    case Spawn =>
      l.(worker := Running, thread := true, overlapped := l.overlapped || l.worker != Absent)
    case StartReconnect =>
      if Possible(l.sys, StartPost(RECONNECT, 0)) then
        l.(sys := Perform(l.sys, StartPost(RECONNECT, 0)), worker := Starting)
      else l.(worker := Finished, startFailed := true)
    case EndStart => l.(sys := Perform(l.sys, StartDone(RECONNECT)), worker := Finished)
    case Ring =>
      l.(sys := Perform(l.sys, Enter), cb := if l.sys.alarms[RECONNECT].messageId == 0 then l.cb else Waits)
    case Join => l.(worker := Absent, cb := Joined)
    case Forget => l.(thread := false, cb := Cleared)
    case Reconnect => l.(cb := Quiet)
    case Other(b) => l.(sys := Perform(l.sys, b))
  }

  // ----- what always holds -----

  /** Every message of the reconnect alarm that may still ring is the one it counts on. */
  ghost predicate NoStray(s: System) {
    && (forall y :: Waiting(s.t, y) && y in s.owner && s.owner[y] == RECONNECT ==> CountsOn(s, RECONNECT, y))
    && (FiringReconnect(s.t) && !s.entered ==> CountsOn(s, RECONNECT, s.t.loop.msg.serial))
  }

  ghost predicate CallbackMeans(l: Life)
    requires |l.sys.alarms| > 0
  {
    && (l.cb != Quiet ==> FiringReconnect(l.sys.t) && l.sys.entered)
    && (l.cb == Waits ==> l.worker == Finished && l.sys.alarms[RECONNECT].status == Rung)
    && (l.cb == Joined ==> l.worker == Absent)
    && (l.thread <==> l.worker != Absent || l.cb == Joined)
  }

  ghost predicate WorkerMeans(l: Life)
    requires |l.sys.locks| == |l.sys.alarms| > 0
  {
    var status := l.sys.alarms[RECONNECT].status;
    var lock := l.sys.locks[RECONNECT];
    match l.worker
    case Absent => (status == Idle || status == Rung) && lock == Free
    case Running => (status == Idle || status == Rung) && lock == Free
    case Starting => (status == Idle || status == Rung) && lock.Posted?
    case Finished => lock == Free && (status == Alarms.Started || (status == Rung && l.cb == Waits))
  }

  ghost predicate LifeInv(l: Life) {
    && AlarmInv(l.sys) && |l.sys.alarms| > 0
    && NoStray(l.sys)
    && CallbackMeans(l) && WorkerMeans(l)
    && !l.overlapped && !l.startFailed
  }

  function Birth(ticksPerMs: nat, clock: int, n: nat): Life {
    Life(Fresh(ticksPerMs, clock, n), Absent, false, Quiet, false, false)
  }

  lemma BirthInv(ticksPerMs: nat, clock: int, n: nat)
    requires ticksPerMs > 0 && n > 0
    ensures LifeInv(Birth(ticksPerMs, clock, n)) && Backed(Birth(ticksPerMs, clock, n).sys)
  {
    FreshInv(ticksPerMs, clock, n);
  }

  /** Steps elsewhere leave the reconnect alarm and its lock alone. */
  lemma ElsewhereFrame(l: Life, a: Action)
    requires LifeInv(l) && Possible(l.sys, a) && Elsewhere(l, a)
    ensures var u := Perform(l.sys, a);
      && |u.alarms| == |u.locks| == |l.sys.alarms|
      && u.alarms[RECONNECT] == l.sys.alarms[RECONNECT] && u.locks[RECONNECT] == l.sys.locks[RECONNECT]
      && (l.cb != Quiet ==> FiringReconnect(u.t) && u.entered)
  {
    hide Inv, IdOf, AllMine, IdsMean, LocksMean, Insert, Unlink, Collect, DueCount, TakenPlaces;
  }

  /** No step but the worker's own post brings up a message of the reconnect alarm. */
  lemma StraysShrink(s: System, a: Action, y: nat)
    requires AlarmInv(s) && Possible(s, a) && !(a.StartPost? && a.a == RECONNECT)
    requires var u := Perform(s, a); Waiting(u.t, y) && y in u.owner && u.owner[y] == RECONNECT
    ensures Waiting(s.t, y) && y in s.owner && s.owner[y] == RECONNECT
  {
    match a
    case StartPost(_, _) => hide Inv, IdOf, AllMine, IdsMean, LocksMean, Insert;
    case StartDone(_) => hide Inv;
    case CancelCall(b) =>
      WaitingShrinks(s.t, Cancel(s.alarms[b].messageId), y);
      hide Inv, Unlink;
    case CancelDone(_) => hide Inv;
    case Enter => hide Inv;
    case Timer(e) =>
      WaitingShrinks(s.t, e, y);
      hide Inv, Apply;
  }

  /** A callback that starts was in the batch before. */
  lemma FiringWasWaiting(s: System, a: Action)
    requires AlarmInv(s) && Possible(s, a)
    requires var u := Perform(s, a); FiringReconnect(u.t) && !u.entered
    ensures var x := Perform(s, a).t.loop.msg.serial;
      (FiringReconnect(s.t) && !s.entered && s.t.loop.msg.serial == x)
      || (Waiting(s.t, x) && x in s.owner && s.owner[x] == RECONNECT)
  {
    hide IdOf, IdsMean, LocksMean, Insert, Unlink, Collect, DueCount, TakenPlaces;
    hide FiredOnce, SleepsSoundly, DeadlineHolds, DeadlineIsTight, QueuePlaced, Sorted;
  }

  lemma StraysKept(s: System, a: Action)
    requires AlarmInv(s) && NoStray(s) && Possible(s, a) && |s.alarms| > 0
    requires s.locks[RECONNECT].Posted? ==> s.alarms[RECONNECT].status != Alarms.Started
    requires !(a.StartPost? && a.a == RECONNECT) && !(a.CancelCall? && a.a == RECONNECT)
    requires !(a.CancelDone? && a.a == RECONNECT) && !(a.Enter? && FiringReconnect(s.t))
    ensures NoStray(Perform(s, a))
  {
    var u := Perform(s, a);
    forall y | Waiting(u.t, y) && y in u.owner && u.owner[y] == RECONNECT ensures CountsOn(u, RECONNECT, y) {
      StraysShrink(s, a, y);
      CountsOnKept(s, a, y);
    }
    if FiringReconnect(u.t) && !u.entered {
      FiringWasWaiting(s, a);
      CountsOnKept(s, a, u.t.loop.msg.serial);
    }
  }

  lemma CountsOnKept(s: System, a: Action, x: nat)
    requires AlarmInv(s) && Possible(s, a) && CountsOn(s, RECONNECT, x)
    requires s.locks[RECONNECT].Posted? ==> s.alarms[RECONNECT].status != Alarms.Started
    requires !(a.StartPost? && a.a == RECONNECT) && !(a.CancelCall? && a.a == RECONNECT)
    requires !(a.CancelDone? && a.a == RECONNECT) && !(a.Enter? && FiringReconnect(s.t))
    ensures CountsOn(Perform(s, a), RECONNECT, x)
  {
    hide Inv, IdOf, AllMine, IdsMean, LocksMean, Apply;
  }

  /** The worker's post is the only message the reconnect alarm has under way. */
  lemma StartKeeps(l: Life)
    requires LifeInv(l) && l.worker == Running
    ensures Possible(l.sys, StartPost(RECONNECT, 0))
    ensures LifeInv(Do(l, StartReconnect))
  {
    var a := StartPost(RECONNECT, 0);
    ActionInv(l.sys, a);
    var u := Perform(l.sys, a);
    SerialsBelow(l.sys.t);
    NothingWaits(l);
    hide Inv, IdOf, NextId, AllMine, IdsMean, LocksMean, Insert;
  }

  lemma NothingWaits(l: Life)
    requires LifeInv(l) && (l.worker == Running || l.worker == Absent)
    ensures forall y :: Waiting(l.sys.t, y) && y in l.sys.owner ==> l.sys.owner[y] != RECONNECT
    ensures !(FiringReconnect(l.sys.t) && !l.sys.entered)
  {
    hide AlarmInv;
  }

  lemma StartedKeeps(l: Life)
    requires LifeInv(l) && Ready(l, EndStart)
    ensures LifeInv(Do(l, EndStart))
  {
    var a := StartDone(RECONNECT);
    ActionInv(l.sys, a);
    StraysKept(l.sys, a);
    hide AlarmInv, NoStray;
  }

  /** The wrapper finds the alarm started, so the callback does run, and it finds the ended worker. */
  lemma RingKeeps(l: Life)
    requires LifeInv(l) && Ready(l, Ring)
    ensures Do(l, Ring).cb == Waits && LifeInv(Do(l, Ring))
  {
    var s := l.sys;
    var x := s.t.loop.msg.serial;
    ActionInv(s, Enter);
    assert CountsOn(s, RECONNECT, x) && s.alarms[RECONNECT].messageId != 0 by { hide Inv, AllMine; }
    assert !Waiting(s.t, x) by {
      hide IdOf, AllMine, IdsMean, LocksMean, SleepsSoundly, DeadlineHolds, DeadlineIsTight, Placed;
    }
    hide AlarmInv, Waiting;
  }

  lemma OtherKeeps(l: Life, a: Action)
    requires LifeInv(l) && Ready(l, Other(a))
    ensures LifeInv(Do(l, Other(a)))
  {
    ActionInv(l.sys, a);
    StraysKept(l.sys, a);
    ElsewhereFrame(l, a);
    hide AlarmInv, NoStray, Perform;
  }

  lemma ActInv(l: Life, a: Act)
    requires LifeInv(l) && Ready(l, a)
    ensures LifeInv(Do(l, a))
  {
    match a
    case Spawn => hide AlarmInv, NoStray;
    case StartReconnect => StartKeeps(l);
    case EndStart => StartedKeeps(l);
    case Ring => RingKeeps(l);
    case Join => hide AlarmInv, NoStray;
    case Forget => hide AlarmInv, NoStray;
    case Reconnect => hide AlarmInv, NoStray;
    case Other(b) => OtherKeeps(l, b);
  }

  predicate IsLife(l: Life, acts: seq<Act>)
    decreases |acts|
  {
    l.sys.t.ticksPerMs > 0 && (acts != [] ==> Ready(l, acts[0]) && IsLife(Do(l, acts[0]), acts[1..]))
  }

  function Afterwards(l: Life, acts: seq<Act>): Life
    requires IsLife(l, acts)
    decreases |acts|
  {
    if acts == [] then l else Afterwards(Do(l, acts[0]), acts[1..])
  }

  /** Over all runs: no worker is created while another one exists, starting the reconnect alarm
      never fails, and the reconnect callback always finds the ended worker to join. */
  lemma {:induction false} OneWorker(l: Life, acts: seq<Act>)
    requires LifeInv(l) && IsLife(l, acts)
    ensures var u := Afterwards(l, acts);
      && LifeInv(u) && !u.overlapped && !u.startFailed
      && (u.cb == Waits ==> Ready(u, Join))
      && (Ready(u, Ring) ==> Do(u, Ring).cb == Waits && Do(u, Ring).worker == Finished)
    decreases |acts|
  {
    if acts == [] {
      if Ready(l, Ring) { RingKeeps(l); }
    } else {
      ActInv(l, acts[0]);
      OneWorker(Do(l, acts[0]), acts[1..]);
    }
  }

  // ----- every worker is reaped -----

  ghost predicate FreshPost(l: Life, a: Act) {
    && (a == StartReconnect ==> !TakenByOthers(l.sys, RECONNECT, l.sys.t.nextId))
    && (a.Other? && a.a.StartPost? ==> !TakenByOthers(l.sys, a.a.a, l.sys.t.nextId))
  }

  ghost predicate FreshLife(l: Life, acts: seq<Act>)
    requires IsLife(l, acts)
    decreases |acts|
  {
    acts != [] ==> FreshPost(l, acts[0]) && FreshLife(Do(l, acts[0]), acts[1..])
  }

  lemma ActBacked(l: Life, a: Act)
    requires LifeInv(l) && Ready(l, a) && Backed(l.sys) && FreshPost(l, a)
    ensures Backed(Do(l, a).sys)
  {
    match a
    case Spawn =>
    case StartReconnect =>
      StartKeeps(l);
      BackedStep(l.sys, StartPost(RECONNECT, 0));
    case EndStart => BackedStep(l.sys, StartDone(RECONNECT));
    case Ring => BackedStep(l.sys, Enter);
    case Join =>
    case Forget =>
    case Reconnect =>
    case Other(b) => BackedStep(l.sys, b);
  }

  /** `_thread` is set only while the worker has not started the reconnect alarm, or that alarm's
      message is queued, batched or about to ring, or the callback is at the join. */
  ghost predicate WillBeReaped(l: Life)
    requires |l.sys.alarms| == |l.sys.locks| > 0
  {
    l.thread ==>
      || l.worker == Running
      || (l.worker == Starting && l.sys.locks[RECONNECT].Posted?
          && Pending(l.sys.t, l.sys.entered, l.sys.locks[RECONNECT].serial))
      || (l.worker == Finished && Pending(l.sys.t, l.sys.entered, l.sys.alarms[RECONNECT].serial))
      || (FiringReconnect(l.sys.t) && (l.cb == Waits || l.cb == Joined))
  }

  /** Over all runs with fresh ids every worker is on its way to being joined. */
  lemma {:induction false} EveryWorkerIsReaped(l: Life, acts: seq<Act>)
    requires LifeInv(l) && Backed(l.sys) && IsLife(l, acts) && FreshLife(l, acts)
    ensures var u := Afterwards(l, acts);
      |u.sys.alarms| == |u.sys.locks| > 0 && WillBeReaped(u)
    decreases |acts|
  {
    if acts == [] {
      hide AlarmInv, NoStray, Pending, Alone;
    } else {
      ActInv(l, acts[0]);
      ActBacked(l, acts[0]);
      EveryWorkerIsReaped(Do(l, acts[0]), acts[1..]);
    }
  }

  // ----- one worker from its last step to its join -----

  /** A client's first worker. */
  function FirstWorker(): Life { Birth(1, 0, 1).(worker := Running, thread := true) }

  lemma FirstWorkerIs()
    ensures var l := Birth(1, 0, 1);
      LifeInv(l) && Ready(l, Spawn) && Do(l, Spawn) == FirstWorker() && LifeInv(FirstWorker())
  {
    BirthInv(1, 0, 1);
    FreshInv(1, 0, 1);
    ActInv(Birth(1, 0, 1), Spawn);
    hide LifeInv, AlarmInv;
  }

  lemma FreshOne()
    ensures var s := Fresh(1, 0, 1);
      && s.t == Initial(1, 0) && s.locks == [Free] && s.alarms == [Alarm(0, Idle, 0)] && Inv(s.t)
  {
    FreshInv(1, 0, 1);
  }

  /** The last steps of a first worker, up to the message that waits to be scanned. */
  lemma FirstPost(l: Life)
    requires l.worker == Running && l.thread && l.cb == Quiet && l.sys.locks == [Free]
    requires l.sys.alarms == [Alarm(0, Idle, 0)] && l.sys.t == Initial(1, 0) && Inv(l.sys.t)
    ensures Ready(l, StartReconnect) && Do(l, StartReconnect).sys.t.ticksPerMs > 0
    ensures Ready(Do(l, StartReconnect), EndStart)
    ensures var u := Do(Do(l, StartReconnect), EndStart);
      && u.worker == Finished && u.thread && u.cb == Quiet && u.sys.locks == [Free]
      && u.sys.alarms == [Alarm(1, Alarms.Started, 0)] && u.sys.t.loop == Scanning
      && u.sys.t.ticksPerMs > 0 && u.sys.t.queue == [Msg(1, u.sys.t.clock, Some(RECONNECT), 0)]
  {
    var s := l.sys;
    OnlyMessage(s.t, 0, Some(RECONNECT));
    StartEffect(s, RECONNECT);
    assert [Alarm(0, Idle, 0)][RECONNECT := Alarm(1, Alarms.Started, 0)] == [Alarm(1, Alarms.Started, 0)];
    hide Perform, Possible, Inv, ApplyPost;
    PossibleStart(s);
    var l1 := Do(l, StartReconnect);
    assert l1 == l.(sys := Perform(s, StartPost(RECONNECT, 0)), worker := Starting);
    assert Do(l1, EndStart) == l1.(sys := Perform(l1.sys, StartDone(RECONNECT)), worker := Finished);
  }

  lemma PossibleStart(s: System)
    requires Possible(s, StartPost(RECONNECT, 0)) && s.t.ticksPerMs > 0
    ensures |s.locks| == |s.alarms| > 0
    ensures var u := Perform(s, StartPost(RECONNECT, 0)); |u.locks| == |u.alarms| > 0
  {
    hide ApplyPost;
  }

  /** The loop takes it, and the callback rings, joins and clears. */
  lemma FirstFired(l: Life, m: Msg)
    requires l.worker == Finished && l.thread && l.cb == Quiet && l.sys.locks == [Free]
    requires l.sys.alarms == [Alarm(1, Alarms.Started, 0)] && l.sys.t.loop == Scanning
    requires l.sys.t.ticksPerMs > 0 && m == Msg(1, l.sys.t.clock, Some(RECONNECT), 0) && l.sys.t.queue == [m]
    ensures Ready(l, Other(Timer(Scan)))
    ensures var u := Do(l, Other(Timer(Scan)));
      u.sys.t.ticksPerMs > 0 && Ready(u, Other(Timer(Check(1))))
      && var v := Do(u, Other(Timer(Check(1))));
         && v.sys.t.loop == Firing(m) && !v.sys.entered && v.sys.t.ticksPerMs > 0
         && v.sys.locks == [Free] && v.sys.alarms == l.sys.alarms
         && v.worker == Finished && v.thread && v.cb == Quiet
  {
    ScanOne(l.sys.t, m);
    OneScanned(l.sys, m);
    var u := Do(l, Other(Timer(Scan)));
    OneChecked(u.sys, m);
    hide Perform, Possible, ApplyScan, ApplyCheck;
  }

  lemma FirstJoined(l: Life, m: Msg)
    requires l.worker == Finished && l.thread && l.cb == Quiet && l.sys.locks == [Free]
    requires l.sys.alarms == [Alarm(1, Alarms.Started, 0)] && !l.sys.entered
    requires l.sys.t.loop == Firing(m) && m.callback == Some(RECONNECT) && l.sys.t.ticksPerMs > 0
    ensures Ready(l, Ring) && Do(l, Ring).sys.t.ticksPerMs > 0
    ensures var v := Do(l, Ring); Ready(v, Join) && Do(v, Join).sys.t.ticksPerMs > 0 && Ready(Do(v, Join), Forget)
    ensures var u := Do(Do(Do(l, Ring), Join), Forget); !u.thread && u.cb == Cleared && u.sys.t.ticksPerMs > 0
  {
  }

  lemma LifeCons(l: Life, a: Act, acts: seq<Act>)
    requires l.sys.t.ticksPerMs > 0 && Ready(l, a) && IsLife(Do(l, a), acts)
    ensures IsLife(l, [a] + acts) && Afterwards(l, [a] + acts) == Afterwards(Do(l, a), acts)
  {
    hide Ready, Do;
    assert ([a] + acts)[1..] == acts;
  }

  predicate IsReaping(a: Act) { !a.Spawn? && !a.StartReconnect? && !a.Reconnect? }

  lemma FirstEnds()
    ensures var l := FirstWorker();
      && LifeInv(l) && l.sys.t.ticksPerMs > 0
      && Ready(l, StartReconnect) && Do(l, StartReconnect).sys.t.ticksPerMs > 0
      && LifeInv(Do(l, StartReconnect)) && Ready(Do(l, StartReconnect), EndStart)
      && var u := Do(Do(l, StartReconnect), EndStart);
         && u.worker == Finished && u.thread && u.cb == Quiet && u.sys.locks == [Free]
         && u.sys.alarms == [Alarm(1, Alarms.Started, 0)] && u.sys.t.loop == Scanning
         && u.sys.t.ticksPerMs > 0 && u.sys.t.queue == [Msg(1, u.sys.t.clock, Some(RECONNECT), 0)]
  {
    FirstWorkerIs();
    FreshOne();
    FirstPost(FirstWorker());
    hide Ready, Do, LifeInv, Inv;
    ActInv(FirstWorker(), StartReconnect);
  }

  lemma EndIsReaping()
    ensures IsReaping(EndStart)
  {
  }

  lemma FirstRings(l: Life, m: Msg) returns (acts: seq<Act>)
    requires l.worker == Finished && l.thread && l.cb == Quiet && l.sys.locks == [Free]
    requires l.sys.alarms == [Alarm(1, Alarms.Started, 0)] && l.sys.t.loop == Scanning
    requires l.sys.t.ticksPerMs > 0 && m == Msg(1, l.sys.t.clock, Some(RECONNECT), 0) && l.sys.t.queue == [m]
    ensures forall i :: 0 <= i < |acts| ==> IsReaping(acts[i])
    ensures IsLife(l, acts) && var u := Afterwards(l, acts); !u.thread && u.cb == Cleared
  {
    FirstFired(l, m);
    var l3 := Do(l, Other(Timer(Scan)));
    var l4 := Do(l3, Other(Timer(Check(1))));
    FirstJoined(l4, m);
    hide Ready, Do;
    var l5 := Do(l4, Ring);
    LifeCons(Do(l5, Join), Forget, []);
    LifeCons(l5, Join, [Forget]);
    LifeCons(l4, Ring, [Join, Forget]);
    LifeCons(l3, Other(Timer(Check(1))), [Ring, Join, Forget]);
    LifeCons(l, Other(Timer(Scan)), [Other(Timer(Check(1))), Ring, Join, Forget]);
    acts := [Other(Timer(Scan)), Other(Timer(Check(1))), Ring, Join, Forget];
  }

  /** From the end of the first worker to `_thread` cleared, on a timer that has nothing else to do. */
  lemma {:induction false} FirstReaped() returns (acts: seq<Act>)
    ensures acts != [] && forall i :: 0 <= i < |acts| ==> IsReaping(acts[i])
    ensures var l := FirstWorker();
      && LifeInv(l) && Ready(l, StartReconnect) && LifeInv(Do(l, StartReconnect))
      && IsLife(Do(l, StartReconnect), acts)
      && var u := Afterwards(Do(l, StartReconnect), acts); LifeInv(u) && !u.thread && u.cb == Cleared
  {
    hide *;
    FirstEnds();
    EndIsReaping();
    var l1 := Do(FirstWorker(), StartReconnect);
    var l2 := Do(l1, EndStart);
    acts := FirstRings(l2, Msg(1, l2.sys.t.clock, Some(RECONNECT), 0));
    LifeCons(l1, EndStart, acts);
    acts := [EndStart] + acts;
    OneWorker(l1, acts);
  }
}
