/** The mutexes of the client: what every call, the worker and the timer thread lock, in which
    order, and why no set of threads can block each other for ever, the join of the worker
    included. */
module LockOrder {

  datatype Lock =
    | ClientLock            // TcpClient::_mutex
    | TimeoutLock           // TcpClient::_timeoutMutex
    | MapLock               // TcpClient::_mapMutex
    | BreakerLock(conn: bool)
    | AlarmLock(alarm: nat)
    | QueueLock             // MessageQueue::_mutex
    | PoolLock              // ObjectPool::_mutex

  function Rank(l: Lock): nat {
    match l
    case ClientLock => 0
    case TimeoutLock => 0
    case PoolLock => 0
    case MapLock => 1
    case BreakerLock(_) => 1
    case AlarmLock(_) => 1
    case QueueLock => 2
  }

  datatype Op = Acquire(l: Lock) | Release(l: Lock) | JoinWorker

  function Brief(l: Lock): seq<Op> { [Acquire(l), Release(l)] }

  /** The stretches of code that lock something. Between two of them a thread holds nothing. */
  datatype Piece =
    | MakeSure                        // tcp_client.cpp:104-133
    | Stop                            // tcp_client.cpp:137-163
    | Send                            // tcp_client.cpp:212-244
    | PushOnly                        // tcp_client.cpp:248-271
    | GetCallback                     // tcp_client.cpp:650-661
    | LookAtQueue                     // tcp_client.cpp:486-488, 528-536, 583-585
    | ClearBreaker(conn: bool)        // socket_epoll.cpp:129
    | BreakBreaker(conn: bool)        // tcp_client.cpp:89-96
    | StartAlarm(alarm: nat)          // alarm.cpp:37-45
    | CancelAlarm(alarm: nat)         // alarm.cpp:53-59
    | TakePooledAlarm                 // tcp_client.cpp:547
    | RecordTimeout                   // tcp_client.cpp:578-580
    | HandleResponse(alarm: nat)      // tcp_client.cpp:678-686
    | TouchQueue                      // message_queue.cpp:37-69, 71-74, 79-90
    | EnterAlarm(alarm: nat)          // alarm.cpp:26-31
    | ForgetTimeout                   // tcp_client.cpp:553-558
    | JoinIt                          // tcp_client.cpp:173
    | StopAllTimeouts(alarms: seq<nat>) // tcp_client.cpp:178-186

  function CancelOps(alarm: nat): seq<Op> {
    [Acquire(AlarmLock(alarm)), Acquire(QueueLock), Release(QueueLock), Release(AlarmLock(alarm))]
  }

  function CancelEach(alarms: seq<nat>): seq<Op> {
    if alarms == [] then [] else CancelOps(alarms[0]) + CancelEach(alarms[1..])
  }

  /** What the code locks and unlocks there, in its order. */
  function Ops(p: Piece): seq<Op> {
    match p
    case MakeSure => [Acquire(ClientLock)] + Brief(BreakerLock(false)) + Brief(BreakerLock(true)) + [Release(ClientLock)]
    case Stop => [Acquire(ClientLock)] + Brief(BreakerLock(false)) + Brief(BreakerLock(true)) + [Release(ClientLock)]
    case Send => [Acquire(ClientLock)] + Brief(MapLock) + Brief(BreakerLock(false)) + [Release(ClientLock)]
    case PushOnly => [Acquire(ClientLock)] + Brief(BreakerLock(false)) + [Release(ClientLock)]
    case GetCallback => Brief(MapLock)
    case LookAtQueue => Brief(ClientLock)
    case ClearBreaker(conn) => Brief(BreakerLock(conn))
    case BreakBreaker(conn) => Brief(BreakerLock(conn))
    case StartAlarm(alarm) => CancelOps(alarm)
    case CancelAlarm(alarm) => CancelOps(alarm)
    case TakePooledAlarm => Brief(PoolLock)
    case RecordTimeout => Brief(TimeoutLock)
    case HandleResponse(alarm) => [Acquire(TimeoutLock)] + CancelOps(alarm) + [Release(TimeoutLock)]
    case TouchQueue => Brief(QueueLock)
    case EnterAlarm(alarm) => Brief(AlarmLock(alarm))
    case ForgetTimeout => Brief(TimeoutLock)
    case JoinIt => [JoinWorker]
    case StopAllTimeouts(alarms) => [Acquire(TimeoutLock)] + CancelEach(alarms) + [Release(TimeoutLock)]
  }

  function Code(ps: seq<Piece>): seq<Op> {
    if ps == [] then [] else Ops(ps[0]) + Code(ps[1..])
  }

  // ----- the discipline -----

  /** With `held` locked, innermost last, the rest of the code only locks upwards in rank, unlocks
      the innermost lock, joins holding nothing, and ends holding nothing. */
  predicate Disciplined(held: seq<Lock>, ops: seq<Op>)
    decreases |ops|
  {
    if ops == [] then held == []
    else
      match ops[0]
      case Acquire(l) =>
        (held != [] ==> Rank(held[|held| - 1]) < Rank(l)) && Disciplined(held + [l], ops[1..])
      case Release(l) => held != [] && held[|held| - 1] == l && Disciplined(held[..|held| - 1], ops[1..])
      case JoinWorker => held == [] && Disciplined(held, ops[1..])
  }

  lemma BriefNeutral(held: seq<Lock>, l: Lock, rest: seq<Op>)
    requires held != [] ==> Rank(held[|held| - 1]) < Rank(l)
    requires Disciplined(held, rest)
    ensures Disciplined(held, Brief(l) + rest)
  {
    var ops := Brief(l) + rest;
    assert ops[1..] == [Release(l)] + rest && ops[1..][1..] == rest;
    assert (held + [l])[..|held|] == held;
  }

  lemma InsideNeutral(held: seq<Lock>, l: Lock, inner: seq<Op>, rest: seq<Op>)
    requires held != [] ==> Rank(held[|held| - 1]) < Rank(l)
    requires Disciplined(held + [l], inner + ([Release(l)] + rest))
    ensures Disciplined(held, [Acquire(l)] + inner + [Release(l)] + rest)
  {
    var ops := [Acquire(l)] + inner + [Release(l)] + rest;
    assert ops[1..] == inner + ([Release(l)] + rest);
  }

  lemma ReleaseLast(held: seq<Lock>, l: Lock, rest: seq<Op>)
    requires Disciplined(held, rest)
    ensures Disciplined(held + [l], [Release(l)] + rest)
  {
    assert ([Release(l)] + rest)[1..] == rest;
    assert (held + [l])[..|held|] == held;
  }

  lemma CancelNeutral(held: seq<Lock>, alarm: nat, rest: seq<Op>)
    requires held != [] ==> Rank(held[|held| - 1]) < 1
    requires Disciplined(held, rest)
    ensures Disciplined(held, CancelOps(alarm) + rest)
  {
    hide Disciplined, CancelOps, Brief;
    var l := AlarmLock(alarm);
    CancelOpsIs(alarm, rest);
    ReleaseLast(held, l, rest);
    BriefNeutral(held + [l], QueueLock, [Release(l)] + rest);
    InsideNeutral(held, l, Brief(QueueLock), rest);
  }

  lemma CancelOpsIs(alarm: nat, rest: seq<Op>)
    ensures var l := AlarmLock(alarm);
      CancelOps(alarm) + rest == [Acquire(l)] + Brief(QueueLock) + [Release(l)] + rest
  {
  }

  lemma {:induction false} CancelEachNeutral(alarms: seq<nat>, rest: seq<Op>)
    requires Disciplined([TimeoutLock], rest)
    ensures Disciplined([TimeoutLock], CancelEach(alarms) + rest)
  {
    if alarms == [] {
      assert CancelEach(alarms) + rest == rest;
    } else {
      CancelEachNeutral(alarms[1..], rest);
      CancelNeutral([TimeoutLock], alarms[0], CancelEach(alarms[1..]) + rest);
      assert CancelEach(alarms) + rest == CancelOps(alarms[0]) + (CancelEach(alarms[1..]) + rest);
    }
  }

  /** The client's mutex around what breaks or clears both breakers. */
  lemma UnderClient(a: Lock, b: Lock, rest: seq<Op>)
    requires Rank(a) == 1 && Rank(b) == 1 && Disciplined([], rest)
    ensures Disciplined([], [Acquire(ClientLock)] + Brief(a) + Brief(b) + [Release(ClientLock)] + rest)
    ensures Disciplined([], [Acquire(ClientLock)] + Brief(a) + [Release(ClientLock)] + rest)
  {
    hide Disciplined, Brief;
    assert [] + [ClientLock] == [ClientLock];
    ReleaseLast([], ClientLock, rest);
    var tail := [Release(ClientLock)] + rest;
    BriefNeutral([ClientLock], b, tail);
    BriefNeutral([ClientLock], a, Brief(b) + tail);
    BriefNeutral([ClientLock], a, tail);
    assert (Brief(a) + Brief(b)) + tail == Brief(a) + (Brief(b) + tail);
    InsideNeutral([], ClientLock, Brief(a) + Brief(b), rest);
    InsideNeutral([], ClientLock, Brief(a), rest);
    assert [Acquire(ClientLock)] + (Brief(a) + Brief(b)) + [Release(ClientLock)] + rest
        == [Acquire(ClientLock)] + Brief(a) + Brief(b) + [Release(ClientLock)] + rest;
  }

  lemma CallsDisciplined(p: Piece, rest: seq<Op>)
    requires p == MakeSure || p == Stop || p == Send || p == PushOnly
    requires Disciplined([], rest)
    ensures Disciplined([], Ops(p) + rest)
  {
    UnderClient(BreakerLock(false), BreakerLock(true), rest);
    UnderClient(MapLock, BreakerLock(false), rest);
    hide Disciplined;
  }

  lemma ResponseDisciplined(alarm: nat, rest: seq<Op>)
    requires Disciplined([], rest)
    ensures Disciplined([], Ops(HandleResponse(alarm)) + rest)
  {
    hide Disciplined, CancelOps;
    assert [] + [TimeoutLock] == [TimeoutLock];
    ReleaseLast([], TimeoutLock, rest);
    CancelNeutral([TimeoutLock], alarm, [Release(TimeoutLock)] + rest);
    InsideNeutral([], TimeoutLock, CancelOps(alarm), rest);
  }

  lemma StopAllDisciplined(alarms: seq<nat>, rest: seq<Op>)
    requires Disciplined([], rest)
    ensures Disciplined([], Ops(StopAllTimeouts(alarms)) + rest)
  {
    hide Disciplined, CancelEach;
    assert [] + [TimeoutLock] == [TimeoutLock];
    ReleaseLast([], TimeoutLock, rest);
    CancelEachNeutral(alarms, [Release(TimeoutLock)] + rest);
    InsideNeutral([], TimeoutLock, CancelEach(alarms), rest);
  }

  lemma BriefDisciplined(p: Piece, l: Lock, rest: seq<Op>)
    requires Ops(p) == Brief(l) && Disciplined([], rest)
    ensures Disciplined([], Ops(p) + rest)
  {
    BriefNeutral([], l, rest);
    hide *;
  }

  /** Every stretch of the code follows the order. */
  lemma PieceDisciplined(p: Piece, rest: seq<Op>)
    requires Disciplined([], rest)
    ensures Disciplined([], Ops(p) + rest)
  {
    if p == JoinIt { assert ([JoinWorker] + rest)[1..] == rest; assert Disciplined([], [JoinWorker] + rest); }
    hide Disciplined, Brief, CancelOps, CancelEach, Rank;
    match p
    case MakeSure => CallsDisciplined(p, rest);
    case Stop => CallsDisciplined(p, rest);
    case Send => CallsDisciplined(p, rest);
    case PushOnly => CallsDisciplined(p, rest);
    case GetCallback => BriefDisciplined(p, MapLock, rest);
    case LookAtQueue => BriefDisciplined(p, ClientLock, rest);
    case ClearBreaker(conn) => BriefDisciplined(p, BreakerLock(conn), rest);
    case BreakBreaker(conn) => BriefDisciplined(p, BreakerLock(conn), rest);
    case StartAlarm(alarm) => CancelNeutral([], alarm, rest);
    case CancelAlarm(alarm) => CancelNeutral([], alarm, rest);
    case TakePooledAlarm => BriefDisciplined(p, PoolLock, rest);
    case RecordTimeout => BriefDisciplined(p, TimeoutLock, rest);
    case HandleResponse(alarm) => ResponseDisciplined(alarm, rest);
    case TouchQueue => BriefDisciplined(p, QueueLock, rest);
    case EnterAlarm(alarm) => BriefDisciplined(p, AlarmLock(alarm), rest);
    case ForgetTimeout => BriefDisciplined(p, TimeoutLock, rest);
    case JoinIt =>
    case StopAllTimeouts(alarms) => StopAllDisciplined(alarms, rest);
  }

  lemma {:induction false} CodeDisciplined(ps: seq<Piece>)
    ensures Disciplined([], Code(ps))
  {
    if ps != [] {
      CodeDisciplined(ps[1..]);
      PieceDisciplined(ps[0], Code(ps[1..]));
    }
  }

  /** The nested stretches, operation by operation. */
  lemma NestedOps(alarm: nat)
    ensures var b, c := BreakerLock(false), BreakerLock(true);
      Ops(MakeSure) == Ops(Stop) ==
        [Acquire(ClientLock), Acquire(b), Release(b), Acquire(c), Release(c), Release(ClientLock)]
    ensures var b := BreakerLock(false);
      Ops(Send) == [Acquire(ClientLock), Acquire(MapLock), Release(MapLock), Acquire(b), Release(b), Release(ClientLock)]
    ensures var b := BreakerLock(false);
      Ops(PushOnly) == [Acquire(ClientLock), Acquire(b), Release(b), Release(ClientLock)]
    ensures var a := AlarmLock(alarm);
      Ops(HandleResponse(alarm)) == Ops(StopAllTimeouts([alarm])) ==
        [Acquire(TimeoutLock), Acquire(a), Acquire(QueueLock), Release(QueueLock), Release(a), Release(TimeoutLock)]
  {
    assert CancelEach([]) == [];
    assert CancelEach([alarm]) == CancelOps(alarm);
  }

  // ----- any number of threads -----

  /** A thread: the locks it holds, innermost last, and the code it has yet to run. */
  datatype Thread = Thread(held: seq<Lock>, todo: seq<Op>)

  /** Thread 0 is the worker. */
  const WORKER: nat := 0

  predicate Holds(t: Thread, l: Lock) {
    exists i :: 0 <= i < |t.held| && t.held[i] == l
  }

  predicate IsFree(ts: seq<Thread>, l: Lock) {
    forall i :: 0 <= i < |ts| ==> !Holds(ts[i], l)
  }

  predicate CanStep(ts: seq<Thread>, i: nat) {
    i < |ts| && ts[i].todo != [] &&
    match ts[i].todo[0]
    case Acquire(l) => IsFree(ts, l)
    case Release(_) => true
    case JoinWorker => ts[WORKER].todo == []
  }

  function Step(t: Thread): Thread
    requires t.todo != [] && (t.todo[0].Release? ==> t.held != [])
  {
    var rest := t.todo[1..];
    match t.todo[0]
    case Acquire(l) => Thread(t.held + [l], rest)
    case Release(_) => Thread(t.held[..|t.held| - 1], rest)
    case JoinWorker => Thread(t.held, rest)
  }

  /** A thread goes on by one operation, or a thread with nothing left begins other pieces; the
      worker never joins itself. */
  datatype Event = Go(i: nat) | Begin(i: nat, ps: seq<Piece>)

  predicate Enabled(ts: seq<Thread>, e: Event) {
    match e
    case Go(i) => CanStep(ts, i) && (ts[i].todo[0].Release? ==> ts[i].held != [])
    case Begin(i, ps) => i < |ts| && ts[i].todo == [] && (i == WORKER ==> JoinIt !in ps)
  }

  function Apply(ts: seq<Thread>, e: Event): seq<Thread>
    requires Enabled(ts, e)
  {
    match e
    case Go(i) => ts[i := Step(ts[i])]
    case Begin(i, ps) => ts[i := Thread(ts[i].held, Code(ps))]
  }

  ghost predicate Exclusive(ts: seq<Thread>) {
    forall i, j, l :: 0 <= i < |ts| && 0 <= j < |ts| && i != j && Holds(ts[i], l) ==> !Holds(ts[j], l)
  }

  predicate Sorted(held: seq<Lock>) {
    forall i, j :: 0 <= i < j < |held| ==> Rank(held[i]) < Rank(held[j])
  }

  predicate NeverJoins(todo: seq<Op>) {
    forall k :: 0 <= k < |todo| ==> todo[k] != JoinWorker
  }

  ghost predicate LockInv(ts: seq<Thread>) {
    && |ts| > 0
    && (forall i :: 0 <= i < |ts| ==> Disciplined(ts[i].held, ts[i].todo) && Sorted(ts[i].held))
    && NeverJoins(ts[WORKER].todo)
    && Exclusive(ts)
  }

  lemma {:induction false} CodeNeverJoins(ps: seq<Piece>)
    requires JoinIt !in ps
    ensures NeverJoins(Code(ps))
  {
    if ps != [] {
      assert ps[0] in ps;
      CodeNeverJoins(ps[1..]);
      PieceNeverJoins(ps[0]);
    }
  }

  lemma PieceNeverJoins(p: Piece)
    requires p != JoinIt
    ensures NeverJoins(Ops(p))
  {
    match p
    case StopAllTimeouts(alarms) => CancelEachNeverJoins(alarms);
    case _ =>
  }

  lemma {:induction false} CancelEachNeverJoins(alarms: seq<nat>)
    ensures NeverJoins(CancelEach(alarms))
  {
    if alarms != [] { CancelEachNeverJoins(alarms[1..]); }
  }

  lemma StepHolds(t: Thread, l: Lock)
    requires t.todo != [] && (t.todo[0].Release? ==> t.held != [])
    ensures Holds(Step(t), l) ==> Holds(t, l) || t.todo[0] == Acquire(l)
  {
  }

  lemma GoInv(ts: seq<Thread>, i: nat)
    requires LockInv(ts) && Enabled(ts, Go(i))
    ensures LockInv(Apply(ts, Go(i)))
  {
    var us := Apply(ts, Go(i));
    assert Disciplined(us[i].held, us[i].todo) && Sorted(us[i].held);
    forall l ensures Holds(us[i], l) ==> Holds(ts[i], l) || (ts[i].todo[0] == Acquire(l) && IsFree(ts, l)) {
      StepHolds(ts[i], l);
    }
    assert i == WORKER ==> NeverJoins(us[i].todo);
    hide Holds, Disciplined, Step, Sorted, NeverJoins;
  }

  lemma EventInv(ts: seq<Thread>, e: Event)
    requires LockInv(ts) && Enabled(ts, e)
    ensures LockInv(Apply(ts, e))
  {
    match e
    case Go(i) => GoInv(ts, i); hide *;
    case Begin(i, ps) =>
      CodeDisciplined(ps);
      if i == WORKER { CodeNeverJoins(ps); }
      assert ts[i].held == [];
      hide Disciplined, Code;
  }

  predicate IsRun(ts: seq<Thread>, es: seq<Event>)
    decreases |es|
  {
    es != [] ==> Enabled(ts, es[0]) && IsRun(Apply(ts, es[0]), es[1..])
  }

  function After(ts: seq<Thread>, es: seq<Event>): seq<Thread>
    requires IsRun(ts, es)
    decreases |es|
  {
    if es == [] then ts else After(Apply(ts, es[0]), es[1..])
  }

  lemma {:induction false} RunInv(ts: seq<Thread>, es: seq<Event>)
    requires LockInv(ts) && IsRun(ts, es)
    ensures LockInv(After(ts, es))
    decreases |es|
  {
    if es != [] {
      EventInv(ts, es[0]);
      hide LockInv, Enabled, Apply;
      RunInv(Apply(ts, es[0]), es[1..]);
    }
  }

  // ----- nobody is stuck -----

  /** A thread that holds a lock has something left to do, is not at a join, and only waits for
      a lock of higher rank. */
  lemma HolderGoesOn(ts: seq<Thread>, h: nat, l: Lock)
    requires LockInv(ts) && h < |ts| && Holds(ts[h], l)
    ensures ts[h].todo != [] && ts[h].todo[0] != JoinWorker
    ensures ts[h].todo[0].Acquire? ==> Rank(l) < Rank(ts[h].todo[0].l)
  {
    var t := ts[h];
    assert Disciplined(t.held, t.todo) && Sorted(t.held);
    var i :| 0 <= i < |t.held| && t.held[i] == l;
    if t.todo[0].Acquire? && i < |t.held| - 1 {
      assert Rank(t.held[i]) < Rank(t.held[|t.held| - 1]);
    }
  }

  /** Thread `i` cannot go on before thread `j` has: `j` holds the lock that `i` wants next, or is
      the worker that `i` joins. */
  ghost predicate WaitsFor(ts: seq<Thread>, i: nat, j: nat) {
    && i < |ts| && j < |ts| && ts[i].todo != []
    && match ts[i].todo[0]
       case Acquire(l) => Holds(ts[j], l)
       case JoinWorker => j == WORKER && ts[j].todo != []
       case Release(_) => false
  }

  /** A thread cannot go on exactly when it waits for some thread. */
  lemma StuckIff(ts: seq<Thread>, i: nat)
    requires |ts| > 0 && i < |ts| && ts[i].todo != []
    ensures !CanStep(ts, i) <==> exists j :: WaitsFor(ts, i, j)
  {
    if !CanStep(ts, i) {
      match ts[i].todo[0]
      case Acquire(l) =>
        var j :| 0 <= j < |ts| && Holds(ts[j], l);
        assert WaitsFor(ts, i, j);
      case JoinWorker => assert WaitsFor(ts, i, WORKER);
      case Release(_) =>
    }
  }

  /** How close a thread is to going on. */
  function Level(t: Thread): nat {
    if t.todo == [] then 4
    else
      match t.todo[0]
      case JoinWorker => 0
      case Acquire(l) => 1 + Rank(l)
      case Release(_) => 4
  }

  lemma WaitingClimbs(ts: seq<Thread>, i: nat, j: nat)
    requires LockInv(ts) && WaitsFor(ts, i, j)
    ensures Level(ts[i]) < Level(ts[j]) <= 4 && ts[j].todo != []
  {
    match ts[i].todo[0]
    case Acquire(l) => HolderGoesOn(ts, j, l);
    case JoinWorker => assert ts[WORKER].todo[0] != JoinWorker;
    case Release(_) =>
  }

  /** `path` leads from thread to thread, each waiting for the next. */
  ghost predicate Chain(ts: seq<Thread>, path: seq<nat>) {
    path != [] && forall k :: 0 <= k < |path| - 1 ==> WaitsFor(ts, path[k], path[k + 1])
  }

  lemma {:induction false} ChainClimbs(ts: seq<Thread>, path: seq<nat>)
    requires LockInv(ts) && Chain(ts, path) && |path| > 1
    ensures path[0] < |ts| && path[|path| - 1] < |ts|
    ensures Level(ts[path[0]]) < Level(ts[path[|path| - 1]])
    decreases |path|
  {
    WaitingClimbs(ts, path[0], path[1]);
    if |path| > 2 {
      var rest := path[1..];
      assert forall k :: 0 <= k < |rest| ==> rest[k] == path[k + 1];
      ChainClimbs(ts, rest);
    }
  }

  /** Waiting is acyclic: over all runs no chain comes back to where it started. */
  lemma {:induction false} NoCycle(ts: seq<Thread>, es: seq<Event>, path: seq<nat>)
    requires LockInv(ts) && IsRun(ts, es) && Chain(After(ts, es), path) && |path| > 1
    ensures path[0] != path[|path| - 1]
  {
    RunInv(ts, es);
    ChainClimbs(After(ts, es), path);
  }

  /** Following the waiting from thread `i` ends, after at most four others, at a thread that can
      go on. */
  lemma {:induction false} Climb(ts: seq<Thread>, i: nat) returns (path: seq<nat>)
    requires LockInv(ts) && i < |ts| && ts[i].todo != []
    ensures Chain(ts, path) && path[0] == i && CanStep(ts, path[|path| - 1])
    ensures |path| + Level(ts[i]) <= 5
    decreases 4 - Level(ts[i])
  {
    StuckIff(ts, i);
    path := [i];
    if !CanStep(ts, i) {
      var j :| WaitsFor(ts, i, j);
      WaitingClimbs(ts, i, j);
      var rest := Climb(ts, j);
      path := [i] + rest;
      assert forall k :: 1 <= k < |path| ==> path[k] == rest[k - 1];
    }
  }

  /** No deadlock: over all runs of any number of threads, from every thread that has something
      left to do the waiting leads to a thread that can go on; waiting for the worker to end is no
      exception. */
  lemma {:induction false} NoDeadlock(ts: seq<Thread>, es: seq<Event>, i: nat) returns (path: seq<nat>)
    requires LockInv(ts) && IsRun(ts, es)
    requires i < |After(ts, es)| && After(ts, es)[i].todo != []
    ensures Chain(After(ts, es), path) && path[0] == i && CanStep(After(ts, es), path[|path| - 1])
  {
    RunInv(ts, es);
    path := Climb(After(ts, es), i);
  }

  /** If the worker could join itself, it would wait for ever: a worker that calls the synchronous
      Disconnect. */
  lemma SelfJoinIsStuck(others: seq<Thread>)
    requires forall i :: 0 <= i < |others| ==> others[i] == Thread([], [])
    ensures var ts := [Thread([], Code([JoinIt]))] + others;
      forall j :: !CanStep(ts, j)
  {
    var ts := [Thread([], Code([JoinIt]))] + others;
    assert Code([JoinIt]) == [JoinWorker];
    forall j: nat ensures !CanStep(ts, j) {
      if 0 < j < |ts| { assert ts[j] == others[j - 1]; }
    }
  }
}
