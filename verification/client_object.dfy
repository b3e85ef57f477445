/** A TcpClient's fields and its methods on them: the calls that run under `_mutex`, one pass of the
    worker's loop, and the reconnect and timeout callbacks (tcp_client.cpp:82-86, 103-163, 170-203,
    210-272, 461-637, 640-646). What nobody interrupts does to the fields what its steps in
    ClientWorker do one after the other. */
module ClientObject {
  import opened Breakers
  import opened ClientWorker
  import L = WorkerLife
  import Requests = RequestTable
  import Lives = BreakerLives

  /** What a disconnect and the passes of the loop leave alone. */
  predicate Untouched(c: Client, u: Client) {
    && u.status == c.status && u.trace == c.trace && u.life == c.life
    && u.timeoutDisconnect == c.timeoutDisconnect && u.holder == c.holder
  }

  /** MakeSureConnected in one go. */
  ghost function MakeCall(c: Client): Client
    requires L.LifeInv(c.life) && Enabled(c, MakeSure)
  {
    LifeFacts(c.life);
    SpawnReady(c.life);
    Apply(Apply(Apply(Apply(c, MakeSure), MakeNext), MakeNext), MakeNext)
  }

  /** DisconnectAsync in one go. */
  ghost function StopCall(c: Client, code: nat, again: bool): Client
    requires L.LifeInv(c.life) && Enabled(c, Stop(code, again)) && c.life.thread
  {
    LifeFacts(c.life);
    Apply(Apply(Apply(c, Stop(code, again)), StopNext), StopNext)
  }

  function Renewed(b: Breaker, anew: bool): Breaker {
    if anew then Do(b, ReCreate) else b
  }

  lemma StopCallIs(c: Client, code: nat, again: bool)
    requires L.LifeInv(c.life) && Enabled(c, Stop(code, again)) && c.life.thread
    ensures var u := StopCall(c, code, again);
      && Untouched(c, u) && u.queue == c.queue && u.wire == c.wire && u.pingTimeout == c.pingTimeout
      && u.disCode == code && u.shouldReconnect == again
      && u.rw == Broke(c.rw, false) && u.conn == Broke(c.conn, false)
    ensures Healthy(c.rw) ==> Stopped(c.rw, false) == Broke(c.rw, false)
    ensures Healthy(c.conn) ==> Stopped(c.conn, false) == Broke(c.conn, false)
  {
    LifeFacts(c.life);
    hide L.LifeInv, Broke;
  }

  /** What is left of a breaker that DisconnectAsync has broken, or has closed because that failed. */
  function Stopped(b: Breaker, faulty: bool): Breaker {
    if BreakResult(b, faulty) then Broke(b, faulty) else Do(b, Close)
  }

  /** A timeout callback in one go, with the DisconnectAsync it may end in. */
  ghost function TimeoutCall(c: Client): Client
    requires ClientInv(c) && Enabled(c, TimesOut) && c.holder == Nobody
  {
    TimeoutFacts(c);
    var u := Apply(c, TimesOut);
    if u.timeoutStops then Apply(Apply(Apply(u, TimeoutStop), StopNext), StopNext) else u
  }

  lemma TimeoutCallIs(c: Client)
    requires ClientInv(c) && Enabled(c, TimesOut) && c.holder == Nobody
    ensures var stops := c.status == Connected && !c.timeoutDisconnect;
      TimeoutCall(c) == (if stops then
        c.(inFlight := c.inFlight - 1, timeoutDisconnect := true, disCode := SEND_REQ_TIMEOUT, shouldReconnect := true,
           rw := Broke(c.rw, false), conn := Broke(c.conn, false))
      else c.(inFlight := c.inFlight - 1))
    ensures Stopped(c.rw, false) == Broke(c.rw, false) && Stopped(c.conn, false) == Broke(c.conn, false)
  {
    TimeoutFacts(c);
    hide ClientInv, L.LifeInv, L.Ready, Broke;
  }

  lemma TimeoutFacts(c: Client)
    requires ClientInv(c) && Enabled(c, TimesOut)
    ensures c.life.sys.t.ticksPerMs > 0 && c.life.thread && L.LifeInv(c.life)
    ensures Healthy(c.rw) && Healthy(c.conn)
  {
    StatusFacts(c);
    hide L.LifeInv, TraceMeans, Ordered, StopSignalled, PingSignalled, QueueSignalled;
  }

  /** Send, SendNoReply or SendDisconnect in one go. */
  ghost function PushCall(c: Client, m: Outgoing): Client
    requires L.LifeInv(c.life) && Enabled(c, Push(m))
  {
    LifeFacts(c.life);
    Apply(Apply(c, Push(m)), PushBreak)
  }

  /** MakeCall field by field. */
  lemma MakeCallIs(c: Client)
    requires L.LifeInv(c.life) && Enabled(c, MakeSure)
    ensures var u := MakeCall(c);
      && u.status == Idle && u.disCode == 0 && u.shouldReconnect && !u.timeoutDisconnect
      && u.rw == Wiped(c.rw) && u.conn == Wiped(c.conn) && u.queue == [] && u.wire == []
      && u.life.thread && u.pc == Begin && u.holder == Nobody && u.spawned == c.spawned + 1
      && u.trace == c.trace && u.pingTimeout == c.pingTimeout
  {
    LifeFacts(c.life);
    SpawnReady(c.life);
    hide L.LifeInv, L.Ready, Wiped, InLanguage, StopSignalled, PingSignalled, QueueSignalled, Ordered, Healthy;
  }

  /** What DisconnectAsync, the callback and MakeSureConnected do to a breaker and its mark, whole, is
      what their steps in BreakerLives do. */
  lemma {:induction false} LineSteps(l: Lives.Line, faulty: bool, all: bool)
    ensures l.worker && !l.failing ==>
      var u := Lives.Apply(l, Lives.Ask(faulty));
      var v := if u.failing then Lives.Apply(u, Lives.CloseIt) else u;
      && v.b == Stopped(l.b, faulty) && v.marked == (l.marked || !BreakResult(l.b, faulty))
      && v.asked && !v.failing
    ensures l.worker && l.callback == Lives.Away ==>
      var u := Lives.Apply(Lives.Apply(Lives.Apply(l, Lives.Forget), Lives.Look(all)), Lives.Remake);
      u.b == Renewed(l.b, all && l.marked) && u.marked == l.marked && !u.worker
    ensures !l.worker && !l.failing ==>
      var u := Lives.Apply(l, Lives.Spawn); u.b == Wiped(l.b) && !u.marked && u.worker
  {
  }

  // ----- one pass of the worker's loop -----

  /** What comes in when the socket is readable. */
  datatype Incoming = Unreadable | PingResp | Response | KickMessage | OtherMessage

  /** What the clock, the network and the ping alarm answer in one pass: whether the loop has run for
      more than five seconds, and whether the ping alarm rings before line 622, after its last start,
      or only behind it, which the next pass does not notice. */
  datatype Answers = Answers(stable: bool, ev: Events, wrote: bool, incoming: Incoming, rings: bool, pinged: bool,
                             late: bool)

  ghost predicate MayPass(c: Client, a: Answers) {
    && c.pc == Sample && c.holder == Nobody && c.life.sys.t.ticksPerMs > 0
    && (a.ev.writable ==> c.queue != [])
    && (c.rw.unread > 0 || a.ev.readable || a.ev.writable || a.ev.error)
  }

  /** Lines 486-526. */
  ghost function Waited(c: Client, a: Answers): (u: Client)
    requires MayPass(c, a)
    ensures u.life == c.life && u.holder == Nobody && (u.pc == Leaving || u.pc == CheckQueue(a.ev))
  {
    var c3 := Woke(c, a);
    var c4 := ApplyWorker(c3, LookForStop);
    if c4.pc == Leaving then c4 else ApplyWorker(c4, LookForPing)
  }

  /** Lines 486-492. */
  ghost function Woke(c: Client, a: Answers): (u: Client)
    requires MayPass(c, a)
    ensures u == c.(pc := CheckStop(a.ev), rw := Wiped(c.rw))
  {
    var c1 := ApplyWorker(c, TakeSample);
    var c2 := ApplyWorker(c1, Wake(a.ev));
    ApplyWorker(c2, ClearSignal)
  }

  lemma WaitedIs(c: Client, a: Answers)
    requires MayPass(c, a)
    ensures var u, stops := Waited(c, a), c.disCode != 0 || a.ev.error;
      && Untouched(c, u) && u.shouldReconnect == c.shouldReconnect && u.queue == c.queue && u.wire == c.wire
      && u.pingTimeout == c.pingTimeout && u.conn == c.conn && u.rw == Wiped(c.rw) && u.inFlight == c.inFlight
      && u.disCode == (if !stops && c.pingTimeout == Rung then PING_TIMEOUT else c.disCode)
      && (u.pc == Leaving <==> stops || c.pingTimeout == Rung)
  {
    hide ApplyAround, ApplyTransfer, Wiped, L.Ready, L.Do, Woke;
  }

  /** Lines 527-589. */
  ghost function Wrote(c: Client, a: Answers): (u: Client)
    requires c.pc == CheckQueue(a.ev) && c.holder == Nobody && c.life.sys.t.ticksPerMs > 0
    ensures u.life == c.life && u.holder == Nobody && (u.pc == Leaving || u.pc == Reading(a.ev))
  {
    var c1 := ApplyWorker(c, LookForMessage);
    if c1.pc == Reading(a.ev) then c1 else Sent(c1, a)
  }

  /** Lines 534-589. */
  ghost function Sent(c: Client, a: Answers): (u: Client)
    requires c.pc == Writing(a.ev) && c.queue != [] && c.holder == Nobody && c.life.sys.t.ticksPerMs > 0
    ensures u == if !a.wrote then c.(pc := Leaving)
      else c.(pc := Reading(a.ev), queue := c.queue[1..], wire := c.wire + [c.queue[0]],
              inFlight := c.inFlight + if Calls(c.queue[0]) then 1 else 0)
  {
    var c2 := ApplyWorker(c, Write(a.wrote));
    if c2.pc == Leaving then c2 else ApplyWorker(c2, Pop)
  }

  lemma WroteIs(c: Client, a: Answers)
    requires c.pc == CheckQueue(a.ev) && c.holder == Nobody && c.life.sys.t.ticksPerMs > 0
    ensures var u, writes := Wrote(c, a), a.ev.writable && c.queue != [];
      && Untouched(c, u) && u.disCode == c.disCode && u.shouldReconnect == c.shouldReconnect
      && u.pingTimeout == c.pingTimeout && u.rw == c.rw && u.conn == c.conn
      && u.queue == (if writes && a.wrote then c.queue[1..] else c.queue)
      && u.wire == (if writes && a.wrote then c.wire + [c.queue[0]] else c.wire)
      && u.inFlight == c.inFlight + (if writes && a.wrote && Calls(c.queue[0]) then 1 else 0)
      && (u.pc == Leaving <==> writes && !a.wrote)
  {
    hide ApplyAround, ApplyTransfer, Calls, L.Ready, L.Do, Sent;
  }

  /** The worker's step when a message comes in; a response is one to a request in flight, if there
      is any. */
  function Reads(c: Client, a: Answers): Work {
    Read(a.incoming != Unreadable, a.incoming == PingResp, a.incoming == Response && c.inFlight > 0)
  }

  /** Line 706. */
  ghost function Kicked(c: Client, a: Answers): (u: Client)
    requires c.pc == Reading(a.ev) && a.ev.readable && c.holder == Nobody && c.life.sys.t.ticksPerMs > 0
    ensures u == c.(pc := Pinging, disCode := KICKOUT, shouldReconnect := false,
                    rw := Broke(c.rw, false), conn := Broke(c.conn, false))
  {
    ApplyStop(ApplyStop(ApplyWorker(c, KickedOut)))
  }

  /** Lines 591-620. */
  ghost function Received(c: Client, a: Answers): (u: Client)
    requires c.pc == Reading(a.ev) && c.holder == Nobody && c.life.sys.t.ticksPerMs > 0
    ensures u.life == c.life && u.holder == Nobody && (u.pc == Leaving || u.pc == Pinging)
    ensures u.wire == c.wire && u.queue == c.queue
  {
    if !a.ev.readable then ApplyWorker(c, Read(true, false, false))
    else if a.incoming == KickMessage then Kicked(c, a)
    else ApplyWorker(c, Reads(c, a))
  }

  lemma ReceivedIs(c: Client, a: Answers)
    requires c.pc == Reading(a.ev) && c.holder == Nobody && c.life.sys.t.ticksPerMs > 0
    ensures var u, kicked := Received(c, a), a.ev.readable && a.incoming == KickMessage;
      && Untouched(c, u) && u.queue == c.queue && u.wire == c.wire
      && u.pingTimeout == (if a.ev.readable && a.incoming == PingResp then Off else c.pingTimeout)
      && u.disCode == (if kicked then KICKOUT else c.disCode) && u.shouldReconnect == (c.shouldReconnect && !kicked)
      && u.rw == (if kicked then Broke(c.rw, false) else c.rw)
      && u.conn == (if kicked then Broke(c.conn, false) else c.conn)
      && u.inFlight == c.inFlight - (if a.ev.readable && a.incoming == Response && c.inFlight > 0 then 1 else 0)
      && (u.pc == Leaving <==> a.ev.readable && a.incoming == Unreadable)
  {
    if a.ev.readable && a.incoming != KickMessage { ReadIs(c, a); }
    else if !a.ev.readable { NothingReadIs(c); }
    hide ApplyWorker, Broke, L.Ready, L.Do, Kicked, WorkerAt, Reads;
  }

  lemma NothingReadIs(c: Client)
    requires c.pc.Reading? && !c.pc.ev.readable && c.life.sys.t.ticksPerMs > 0
    ensures WorkerAt(c, Read(true, false, false))
    ensures ApplyWorker(c, Read(true, false, false)) == c.(pc := Pinging)
  {
  }

  lemma ReadIs(c: Client, a: Answers)
    requires c.pc == Reading(a.ev) && c.life.sys.t.ticksPerMs > 0 && a.ev.readable
    ensures WorkerAt(c, Reads(c, a))
    ensures var u := ApplyWorker(c, Reads(c, a));
      u == c.(pc := if a.incoming == Unreadable then Leaving else Pinging,
              inFlight := c.inFlight - (if a.incoming == Response && c.inFlight > 0 then 1 else 0),
              pingTimeout := if a.incoming == PingResp then Off else c.pingTimeout)
  {
    hide ApplyAround, ApplyLook;
  }

  /** Lines 621-636. */
  ghost function Pinged(c: Client, a: Answers): (u: Client)
    requires c.pc == Pinging && c.life.sys.t.ticksPerMs > 0
    ensures u == c.(pc := if a.rings && !a.pinged then Leaving else Sample,
                    pingTimeout := if a.rings && a.pinged then Armed else c.pingTimeout)
  {
    ApplyWorker(c, Ping(a.rings, !a.rings || a.pinged))
  }

  /** Lines 527-636. */
  ghost function Transferred(c: Client, a: Answers): Client
    requires c.pc == CheckQueue(a.ev) && c.holder == Nobody && c.life.sys.t.ticksPerMs > 0
  {
    var c2 := Wrote(c, a);
    if c2.pc == Leaving then c2 else
    var c3 := Received(c2, a);
    if c3.pc == Leaving then c3 else Pinged(c3, a)
  }

  /** Lines 469-637. */
  ghost function PassOf(c: Client, a: Answers): Client
    requires MayPass(c, a)
  {
    var c1 := Waited(c, a);
    if c1.pc == Leaving then c1 else Transferred(c1, a)
  }

  /** A pass that gets as far as line 622. */
  ghost predicate ReachesPing(c: Client, a: Answers)
    requires MayPass(c, a)
  {
    Waited(c, a).pc != Leaving && TransfersAll(Waited(c, a), a)
  }

  /** Lines 527-620 are left neither by a failed write nor by a failed read. */
  ghost predicate TransfersAll(c: Client, a: Answers)
    requires c.pc == CheckQueue(a.ev) && c.holder == Nobody && c.life.sys.t.ticksPerMs > 0
  {
    var c2 := Wrote(c, a);
    c2.pc != Leaving && Received(c2, a).pc != Leaving
  }

  /** One step of the worker, in a pass. */
  lemma StepKeeps(c: Client, w: Work)
    requires ClientInv(c) && InRun(c) && WorkerAt(c, w) && !w.StartAlarm?
    ensures c.life.sys.t.ticksPerMs > 0 && ClientInv(ApplyWorker(c, w)) && InRun(ApplyWorker(c, w))
  {
    hide ClientInv, WorkerAt, ApplyWorker;
    TicksRun(c);
    WorkEffect(c, w);
    EventInv(c, Work(w));
  }

  lemma TicksRun(c: Client)
    requires ClientInv(c)
    ensures c.life.sys.t.ticksPerMs > 0
  {
    LifeFacts(c.life);
    hide L.LifeInv;
  }

  lemma WaitedKeeps(c: Client, a: Answers)
    requires ClientInv(c) && InRun(c) && MayPass(c, a)
    ensures ClientInv(Waited(c, a)) && InRun(Waited(c, a))
  {
    WokeKeeps(c, a);
    WokeAt(c, a);
    hide ClientInv, InRun, Woke, ApplyWorker, WorkerAt, MayPass;
    LookedKeeps(Woke(c, a), a);
    var u := ApplyWorker(Woke(c, a), LookForStop);
    if u.pc != Leaving { LookedOnKeeps(u, a); }
  }

  lemma WokeAt(c: Client, a: Answers)
    requires MayPass(c, a)
    ensures Woke(c, a).pc == CheckStop(a.ev) && Woke(c, a).life == c.life && c.life.sys.t.ticksPerMs > 0
    ensures WorkerAt(Woke(c, a), LookForStop)
  {
    hide Woke, Wiped;
  }

  lemma LookedOnKeeps(c: Client, a: Answers)
    requires ClientInv(c) && InRun(c) && c.pc == CheckPing(a.ev) && c.life.sys.t.ticksPerMs > 0
    ensures WorkerAt(c, LookForPing)
    ensures ClientInv(ApplyWorker(c, LookForPing)) && InRun(ApplyWorker(c, LookForPing))
  {
    StepKeeps(c, LookForPing);
  }

  lemma LookedKeeps(c: Client, a: Answers)
    requires ClientInv(c) && InRun(c) && c.pc == CheckStop(a.ev) && c.life.sys.t.ticksPerMs > 0
    ensures var u := ApplyWorker(c, LookForStop);
      && ClientInv(u) && InRun(u) && (u.pc == Leaving || u.pc == CheckPing(a.ev)) && u.life.sys.t.ticksPerMs > 0
  {
    StepKeeps(c, LookForStop);
    hide ClientInv, InRun, ApplyAround, ApplyTransfer, L.Ready, L.Do;
  }

  lemma WokeKeeps(c: Client, a: Answers)
    requires ClientInv(c) && InRun(c) && MayPass(c, a)
    ensures ClientInv(Woke(c, a)) && InRun(Woke(c, a))
  {
    hide ClientInv, InRun;
    StepKeeps(c, TakeSample);
    var c1 := ApplyWorker(c, TakeSample);
    StepKeeps(c1, Wake(a.ev));
    StepKeeps(ApplyWorker(c1, Wake(a.ev)), ClearSignal);
  }

  lemma WroteKeeps(c: Client, a: Answers)
    requires ClientInv(c) && InRun(c) && c.pc == CheckQueue(a.ev) && c.holder == Nobody
    requires c.life.sys.t.ticksPerMs > 0
    ensures ClientInv(Wrote(c, a)) && InRun(Wrote(c, a))
  {
    hide ClientInv, InRun;
    StepKeeps(c, LookForMessage);
    var c1 := ApplyWorker(c, LookForMessage);
    if c1.pc != Reading(a.ev) {
      StepKeeps(c1, Write(a.wrote));
      var c2 := ApplyWorker(c1, Write(a.wrote));
      if c2.pc != Leaving { StepKeeps(c2, Pop); }
    }
  }

  lemma ReceivedKeeps(c: Client, a: Answers)
    requires ClientInv(c) && InRun(c) && c.pc == Reading(a.ev) && c.holder == Nobody
    requires c.life.sys.t.ticksPerMs > 0
    ensures ClientInv(Received(c, a)) && InRun(Received(c, a))
  {
    hide ClientInv;
    if a.ev.readable && a.incoming == KickMessage {
      StepKeeps(c, KickedOut);
      var c1 := ApplyWorker(c, KickedOut);
      EventInv(c1, StopNext);
      var c2 := ApplyStop(c1);
      EventInv(c2, StopNext);
      assert ApplyStop(c2).life == c.life;
    } else if a.ev.readable {
      StepKeeps(c, Reads(c, a));
    } else {
      StepKeeps(c, Read(true, false, false));
    }
  }

  /** A pass keeps the invariant, and writes the first queued message or nothing. */
  lemma {:induction false} PassKeeps(c: Client, a: Answers)
    requires ClientInv(c) && InRun(c) && MayPass(c, a)
    ensures var u := PassOf(c, a);
      && ClientInv(u) && (u.pc == Leaving || u.pc == Sample)
      && ((u.wire == c.wire && u.queue == c.queue)
          || (c.queue != [] && u.wire == c.wire + [c.queue[0]] && u.queue == c.queue[1..]))
  {
    hide ClientInv, InRun, Waited, Wrote, Received, Pinged, Wiped, Calls, TransfersAll;
    WaitedKeeps(c, a);
    WaitedIs(c, a);
    var c1 := Waited(c, a);
    if c1.pc != Leaving {
      WroteKeeps(c1, a);
      WroteIs(c1, a);
      var c2 := Wrote(c1, a);
      if c2.pc != Leaving {
        ReceivedKeeps(c2, a);
        var c3 := Received(c2, a);
        if c3.pc != Leaving { PingedKeeps(c3, a); }
      }
    }
  }

  lemma PingedKeeps(c: Client, a: Answers)
    requires ClientInv(c) && InRun(c) && c.pc == Pinging && c.life.sys.t.ticksPerMs > 0
    ensures ClientInv(Pinged(c, a))
  {
    hide ClientInv, InRun;
    StepKeeps(c, Ping(a.rings, !a.rings || a.pinged));
  }

  class TcpClient {
    var status: ConnectStatus
    var disCode: nat
    var shouldReconnect: bool
    var shouldNewBreaker: bool
    var shouldNewConnBreaker: bool
    var thread: bool
    var messageQueue: seq<Outgoing>
    var reported: seq<ConnectStatus>   // what _onStatusChange was called with
    var written: seq<Outgoing>         // what went out on the socket
    var pingTimeout: PingTimeout       // the status of _pingTimeoutAlarm
    var pingAlarm: PingTimeout         // the status of _pingAlarm
    var timeoutDisconnect: bool
    var reconnectCount: nat
    const readWriteBreaker: SocketBreaker
    const connectBreaker: SocketBreaker
    const requests: Requests.Requests

    constructor ()
      ensures forall c: Client :: c == New(1, 0, 1) ==> Shows(c)
      ensures readWriteBreaker != connectBreaker && requests.Shows(Requests.EMPTY)
    {
      status, disCode, shouldReconnect, thread := Idle, 0, false, false;
      shouldNewBreaker, shouldNewConnBreaker := false, false;
      messageQueue, reported, written := [], [], [];
      pingTimeout, pingAlarm, timeoutDisconnect, reconnectCount := Off, Off, false, 0;
      readWriteBreaker := new SocketBreaker();
      connectBreaker := new SocketBreaker();
      requests := new Requests.Requests();
    }

    ghost predicate Shows(c: Client)
      reads this, readWriteBreaker, connectBreaker
    {
      && status == c.status && disCode == c.disCode && shouldReconnect == c.shouldReconnect
      && thread == c.life.thread && messageQueue == c.queue && reported == c.trace
      && written == c.wire && pingTimeout == c.pingTimeout && timeoutDisconnect == c.timeoutDisconnect
      && readWriteBreaker.View() == c.rw && connectBreaker.View() == c.conn
    }

    /** Lines 126-128. */
    method EmptyQueue()
      modifies `messageQueue
      ensures messageQueue == []
    {
      while messageQueue != []
        decreases |messageQueue|
      {
        messageQueue := messageQueue[1..];
      }
    }

    /** Lines 123-124. */
    method ClearBreakers()
      requires readWriteBreaker != connectBreaker
      modifies readWriteBreaker, connectBreaker
      ensures readWriteBreaker.View() == Wiped(old(readWriteBreaker.View()))
      ensures connectBreaker.View() == Wiped(old(connectBreaker.View()))
    {
      var wiped := readWriteBreaker.Clear();
      wiped := connectBreaker.Clear();
    }

    /** Lines 111-121. */
    method ResetFlags()
      modifies `status, `disCode, `shouldReconnect, `shouldNewBreaker, `shouldNewConnBreaker, `timeoutDisconnect
      ensures status == Idle && disCode == 0 && shouldReconnect
      ensures !shouldNewBreaker && !shouldNewConnBreaker && !timeoutDisconnect
    {
      status := Idle;
      disCode := 0;
      shouldReconnect := true;
      shouldNewBreaker := false;
      shouldNewConnBreaker := false;
      timeoutDisconnect := false;
    }

    /** Lines 110-129. */
    method CreateWorker(ghost c: Client)
      requires L.LifeInv(c.life) && Shows(c) && Enabled(c, MakeSure) && readWriteBreaker != connectBreaker
      modifies `status, `disCode, `shouldReconnect, `shouldNewBreaker, `shouldNewConnBreaker, `timeoutDisconnect,
        `messageQueue, `written, `thread, readWriteBreaker, connectBreaker
      ensures Shows(MakeCall(c)) && !shouldNewBreaker && !shouldNewConnBreaker
    {
      MakeCallIs(c);
      hide MakeCall, Wiped, L.LifeInv, L.Ready, Enabled;
      ResetFlags();
      ClearBreakers();
      EmptyQueue();
      written := [];
      thread := true;
    }

    /** Lines 103-133. `created` says that a worker was created. */
    method MakeSureConnected(ghost c: Client) returns (created: bool)
      requires L.LifeInv(c.life) && Shows(c) && c.holder == Nobody && readWriteBreaker != connectBreaker
      modifies `status, `disCode, `shouldReconnect, `shouldNewBreaker, `shouldNewConnBreaker, `timeoutDisconnect,
        `messageQueue, `written, `thread, readWriteBreaker, connectBreaker
      ensures created <==> c.status != Connected && !c.life.thread
      ensures created ==> Shows(MakeCall(c)) && !shouldNewBreaker && !shouldNewConnBreaker
      ensures !created ==> Shows(c)
    {
      hide L.LifeInv, MakeCall;
      if status == Connected {
        return false;
      }
      if !thread {
        CreateWorker(c);
        return true;
      }
      return false;
    }

    /** Lines 153-157 and 158-162. */
    method BreakOrClose(breaker: SocketBreaker, faulty: bool) returns (failed: bool)
      modifies breaker
      ensures failed <==> !BreakResult(old(breaker.View()), faulty)
      ensures breaker.View() == Stopped(old(breaker.View()), faulty)
    {
      var ok := breaker.Break(faulty);
      if !ok {
        breaker.CloseFds();
      }
      return !ok;
    }

    /** Lines 135-163. `faulty` says that the pipe of a breaker does not take the byte. */
    method DisconnectAsync(code: nat, again: bool, faulty: bool, faultyConn: bool, ghost c: Client)
      requires L.LifeInv(c.life) && Shows(c) && c.holder == Nobody && readWriteBreaker != connectBreaker
      modifies `status, `disCode, `shouldReconnect, `shouldNewBreaker, `shouldNewConnBreaker, `timeoutDisconnect,
        `messageQueue, `written, `thread, readWriteBreaker, connectBreaker
      ensures c.life.thread ==>
        && disCode == code && shouldReconnect == again
        && readWriteBreaker.View() == Stopped(c.rw, faulty) && connectBreaker.View() == Stopped(c.conn, faultyConn)
        && shouldNewBreaker == (old(shouldNewBreaker) || !BreakResult(c.rw, faulty))
        && shouldNewConnBreaker == (old(shouldNewConnBreaker) || !BreakResult(c.conn, faultyConn))
        && Shows(c.(disCode := code, shouldReconnect := again, rw := Stopped(c.rw, faulty),
                    conn := Stopped(c.conn, faultyConn)))
      ensures c.life.thread && !faulty && !faultyConn && Healthy(c.rw) && Healthy(c.conn) ==>
        Shows(StopCall(c, code, again))
      ensures !c.life.thread ==> Shows(if again && c.status != Connected then MakeCall(c) else c)
    {
      if c.life.thread { StopCallIs(c, code, again); }
      hide L.LifeInv, L.Ready, Enabled, MakeCall, StopCall, Broke, BreakResult, Healthy, Stopped;
      if !thread {
        if again {
          var created := MakeSureConnected(c);
        }
        return;
      }
      StopWorker(code, again, faulty, faultyConn, c);
    }

    /** Lines 148-162. */
    method StopWorker(code: nat, again: bool, faulty: bool, faultyConn: bool, ghost c: Client)
      requires Shows(c) && readWriteBreaker != connectBreaker
      modifies `disCode, `shouldReconnect, `shouldNewBreaker, `shouldNewConnBreaker, readWriteBreaker, connectBreaker
      ensures disCode == code && shouldReconnect == again
      ensures readWriteBreaker.View() == Stopped(c.rw, faulty) && connectBreaker.View() == Stopped(c.conn, faultyConn)
      ensures shouldNewBreaker == (old(shouldNewBreaker) || !BreakResult(c.rw, faulty))
      ensures shouldNewConnBreaker == (old(shouldNewConnBreaker) || !BreakResult(c.conn, faultyConn))
    {
      hide Stopped, BreakResult;
      disCode := code;
      shouldReconnect := again;
      var failed := BreakOrClose(readWriteBreaker, faulty);
      if failed {
        shouldNewBreaker := true;
      }
      failed := BreakOrClose(connectBreaker, faultyConn);
      if failed {
        shouldNewConnBreaker := true;
      }
    }

    /** Lines 567-571, the end of a timeout callback. */
    method TimeoutDisconnect(ghost c: Client)
      requires ClientInv(c) && Shows(c) && c.holder == Nobody && Enabled(c, TimesOut)
      requires readWriteBreaker != connectBreaker
      modifies this, readWriteBreaker, connectBreaker
      ensures Shows(TimeoutCall(c))
    {
      TimeoutCallIs(c);
      TimeoutFacts(c);
      hide ClientInv, L.LifeInv, L.Ready, Enabled, TimeoutCall, StopCall, MakeCall, Broke, Healthy;
      if status == Connected && !timeoutDisconnect {
        timeoutDisconnect := true;
        DisconnectAsync(SEND_REQ_TIMEOUT, true, false, false, c.(timeoutDisconnect := true));
      }
    }

    /** Lines 469-477. */
    method Prepare(stable: bool)
      modifies `reconnectCount, `pingAlarm
      ensures reconnectCount == if stable then 0 else old(reconnectCount)
      ensures pingAlarm == Armed
    {
      if reconnectCount != 0 && stable {
        reconnectCount := 0;
      }
      if pingAlarm != Armed {
        pingAlarm := Armed;
      }
    }

    /** Lines 487-491: whether the socket is watched for writing. */
    method HasMessage() returns (watched: bool)
      ensures watched == (messageQueue != [])
    {
      return messageQueue != [];
    }

    /** Lines 492-526. */
    method WaitForEvents(a: Answers, ghost c: Client) returns (goesOn: bool)
      requires Shows(c) && MayPass(c, a) && readWriteBreaker != connectBreaker
      modifies `disCode, readWriteBreaker
      ensures Shows(Waited(c, a)) && (goesOn <==> Waited(c, a).pc != Leaving)
    {
      hide Wiped, Waited, ApplyWorker, MayPass, WorkerAt, Healthy, Agrees;
      WaitedIs(c, a);
      ghost var u := Waited(c, a);
      var ok := readWriteBreaker.Clear();
      goesOn := LookAround(a.ev.error);
      assert Shows(u);
    }

    /** Lines 493-526. */
    method LookAround(error: bool) returns (goesOn: bool)
      modifies `disCode
      ensures goesOn <==> old(disCode) == 0 && !error && pingTimeout != Rung
      ensures disCode == if old(disCode) == 0 && !error && pingTimeout == Rung then PING_TIMEOUT else old(disCode)
    {
      if disCode != 0 {
        return false;
      }
      if error {
        return false;
      }
      if pingTimeout == Rung {
        disCode := PING_TIMEOUT;
        return false;
      }
      return true;
    }

    /** Lines 538 and 582-588. */
    method SendFront()
      requires messageQueue != []
      modifies `messageQueue, `written, `pingAlarm
      ensures written == old(written) + [old(messageQueue)[0]] && messageQueue == old(messageQueue)[1..]
      ensures pingAlarm == Armed
    {
      written := written + [messageQueue[0]];
      messageQueue := messageQueue[1..];
      pingAlarm := Armed;
    }

    /** Lines 527-589. */
    method WriteOne(a: Answers, ghost c: Client) returns (goesOn: bool)
      requires Shows(c) && c.pc == CheckQueue(a.ev) && c.holder == Nobody && c.life.sys.t.ticksPerMs > 0
      requires pingAlarm == Armed
      modifies `messageQueue, `written, `pingAlarm
      ensures Shows(Wrote(c, a)) && (goesOn <==> Wrote(c, a).pc != Leaving) && pingAlarm == Armed
    {
      WroteIs(c, a);
      hide Wrote, Calls;
      ghost var u := Wrote(c, a);
      var hasMessage := messageQueue != [];
      goesOn := !a.ev.writable || !hasMessage || a.wrote;
      if a.ev.writable && hasMessage && a.wrote {
        SendFront();
      }
      assert Shows(u);
    }

    /** Line 706, where `_thread` is set and the pipes work. */
    method KickOut()
      requires readWriteBreaker != connectBreaker
      modifies `disCode, `shouldReconnect, readWriteBreaker, connectBreaker
      ensures disCode == KICKOUT && !shouldReconnect
      ensures readWriteBreaker.View() == Broke(old(readWriteBreaker.View()), false)
      ensures connectBreaker.View() == Broke(old(connectBreaker.View()), false)
    {
      disCode := KICKOUT;
      shouldReconnect := false;
      var ok := readWriteBreaker.Break(false);
      ok := connectBreaker.Break(false);
    }

    /** Lines 591-620. */
    method ReceiveOne(a: Answers, ghost c: Client) returns (goesOn: bool)
      requires Shows(c) && c.pc == Reading(a.ev) && c.holder == Nobody && c.life.sys.t.ticksPerMs > 0
      requires readWriteBreaker != connectBreaker
      modifies `disCode, `shouldReconnect, `pingTimeout, readWriteBreaker, connectBreaker
      ensures Shows(Received(c, a)) && (goesOn <==> Received(c, a).pc != Leaving)
    {
      ReceivedIs(c, a);
      hide Broke, Received;
      ghost var u := Received(c, a);
      goesOn := !a.ev.readable || a.incoming != Unreadable;
      if a.ev.readable {
        Handle(a.incoming);
      }
      assert Shows(u);
    }

    /** Lines 601-617. */
    method Handle(incoming: Incoming)
      requires readWriteBreaker != connectBreaker
      modifies `disCode, `shouldReconnect, `pingTimeout, readWriteBreaker, connectBreaker
      ensures pingTimeout == if incoming == PingResp then Off else old(pingTimeout)
      ensures disCode == if incoming == KickMessage then KICKOUT else old(disCode)
      ensures shouldReconnect == (old(shouldReconnect) && incoming != KickMessage)
      ensures var b := old(readWriteBreaker.View());
        readWriteBreaker.View() == if incoming == KickMessage then Broke(b, false) else b
      ensures var b := old(connectBreaker.View());
        connectBreaker.View() == if incoming == KickMessage then Broke(b, false) else b
    {
      match incoming
      case Unreadable =>
      case PingResp => pingTimeout := Off;
      case KickMessage => KickOut();
      case Response =>
      case OtherMessage =>
    }

    /** Lines 469-637, where `a` says what the clock, the network and the ping alarm answer; `goesOn`
        says that the loop is not left. */
    method ReadWritePass(a: Answers, ghost c: Client) returns (goesOn: bool)
      requires Shows(c) && MayPass(c, a) && readWriteBreaker != connectBreaker
      modifies this, readWriteBreaker, connectBreaker
      ensures Shows(PassOf(c, a)) && (goesOn <==> PassOf(c, a).pc != Leaving)
      ensures reconnectCount == if a.stable then 0 else old(reconnectCount)
      ensures pingAlarm == if ReachesPing(c, a) && (a.rings || a.late) then Rung else Armed
    {
      hide Waited, Transferred, TransfersAll, Wiped;
      Prepare(a.stable);
      var watched := HasMessage();
      assert a.ev.writable ==> watched;
      goesOn := WaitForEvents(a, c);
      if goesOn {
        goesOn := Transfer(a, Waited(c, a));
      }
    }

    /** Lines 527-636. */
    method Transfer(a: Answers, ghost c: Client) returns (goesOn: bool)
      requires Shows(c) && c.pc == CheckQueue(a.ev) && c.holder == Nobody && c.life.sys.t.ticksPerMs > 0
      requires readWriteBreaker != connectBreaker && pingAlarm == Armed
      modifies `messageQueue, `written, `pingAlarm, `disCode, `shouldReconnect, `pingTimeout
      modifies readWriteBreaker, connectBreaker
      ensures Shows(Transferred(c, a)) && (goesOn <==> Transferred(c, a).pc != Leaving)
      ensures pingAlarm == if TransfersAll(c, a) && (a.rings || a.late) then Rung else Armed
    {
      hide Wrote, Received, Pinged, Broke, Wiped;
      goesOn := WriteOne(a, c);
      if !goesOn {
        return;
      }
      ghost var c2 := Wrote(c, a);
      goesOn := ReceiveOne(a, c2);
      if !goesOn {
        return;
      }
      goesOn := PingIfDue(a, Received(c2, a));
    }

    /** Lines 621-636. */
    method PingIfDue(a: Answers, ghost c: Client) returns (goesOn: bool)
      requires Shows(c) && c.pc == Pinging && c.life.sys.t.ticksPerMs > 0 && pingAlarm == Armed
      modifies `pingTimeout, `pingAlarm
      ensures Shows(Pinged(c, a)) && (goesOn <==> Pinged(c, a).pc != Leaving)
      ensures pingAlarm == if a.rings || a.late then Rung else Armed
    {
      ghost var u := Pinged(c, a);
      hide Pinged;
      goesOn := !a.rings || a.pinged;
      pingAlarm := if a.rings || (goesOn && a.late) then Rung else Armed;
      if a.rings && a.pinged {
        pingTimeout := Armed;
      }
      assert Shows(u);
    }

    /** Lines 83-86, the end of the reconnect callback. */
    method Reconnect(ghost c: Client) returns (created: bool)
      requires L.LifeInv(c.life) && Shows(c) && c.holder == Nobody && readWriteBreaker != connectBreaker
      modifies this, readWriteBreaker, connectBreaker
      ensures created <==> c.shouldReconnect && c.status != Connected && !c.life.thread
      ensures Shows(if created then MakeCall(c) else c)
      ensures reconnectCount == old(reconnectCount) + if c.shouldReconnect then 1 else 0
    {
      created := false;
      if shouldReconnect {
        reconnectCount := reconnectCount + 1;
        created := MakeSureConnected(c);
      }
    }

    /** Lines 197-203. */
    method RenewBreakers()
      requires readWriteBreaker != connectBreaker
      modifies readWriteBreaker, connectBreaker
      ensures readWriteBreaker.View() == Renewed(old(readWriteBreaker.View()), shouldNewBreaker)
      ensures connectBreaker.View() == Renewed(old(connectBreaker.View()), shouldNewConnBreaker)
    {
      if shouldNewBreaker {
        readWriteBreaker.NewPipe();
      }
      if shouldNewConnBreaker {
        connectBreaker.NewPipe();
      }
    }

    /** Lines 170-203, once the worker has ended. `told` are the callbacks that get
        kErrorCodeLoseConnect. A breaker closed after a failed Break is made anew exactly when
        everyone in flight can be told; otherwise line 190 returns before. */
    method WaitDisconnect(ghost t: Requests.Table) returns (told: seq<nat>)
      requires requests.Shows(t) && t.timer == Requests.Quiet && t.worker == Requests.Free && Requests.Accounted(t)
      requires readWriteBreaker != connectBreaker
      modifies `thread, requests, readWriteBreaker, connectBreaker
      ensures !thread
      ensures old(thread) ==>
        && requests.Shows(Requests.Disconnect(t))
        && told == Requests.Sweep(Requests.Ascending(t.timers.Keys), t.callbacks).0
      ensures old(thread) ==>
        var all := forall id :: id in t.timers ==> Requests.Answers(t.callbacks, id);
        && readWriteBreaker.View() == Renewed(old(readWriteBreaker.View()), all && shouldNewBreaker)
        && connectBreaker.View() == Renewed(old(connectBreaker.View()), all && shouldNewConnBreaker)
      ensures !old(thread) ==>
        && told == [] && requests.Shows(t)
        && readWriteBreaker.View() == old(readWriteBreaker.View())
        && connectBreaker.View() == old(connectBreaker.View())
    {
      hide Requests.Disconnect, Requests.Accounted, Requests.Sweep, Requests.Ascending, Requests.Answers;
      if !thread {
        return [];
      }
      thread := false;
      var all;
      told, all := requests.LoseConnection(t);
      if !all {
        return;
      }
      RenewBreakers();
    }

    /** Lines 210-244. Without a connection the request is refused and nothing changes. */
    method Send(func: Requests.Callback, ghost c: Client, ghost t: Requests.Table) returns (accepted: bool)
      requires L.LifeInv(c.life) && Shows(c) && c.holder == Nobody && requests.Shows(t)
      requires readWriteBreaker != connectBreaker
      modifies this, readWriteBreaker, requests
      ensures accepted <==> c.status == Connected
      ensures accepted ==>
        && Shows(PushCall(c, Request(t.currentMsgId, func.Some?)))
        && requests.Shows(Requests.Apply(t, Requests.Send(func)))
      ensures !accepted ==> Shows(c) && requests.Shows(t)
    {
      hide L.LifeInv, L.Ready;
      if status != Connected {
        return false;
      }
      var id := requests.Send(func, t);
      var pushed := PushAndBreak(Request(id, func.Some?), c);
      return true;
    }

    /** Lines 248-271: SendNoReply and SendDisconnect. */
    method PushAndBreak(m: Outgoing, ghost c: Client) returns (accepted: bool)
      requires L.LifeInv(c.life) && Shows(c) && c.holder == Nobody && readWriteBreaker != connectBreaker
      modifies this, readWriteBreaker
      ensures accepted <==> c.status == Connected
      ensures Shows(if accepted then PushCall(c, m) else c)
    {
      hide L.LifeInv, L.Ready;
      if status != Connected {
        return false;
      }
      messageQueue := messageQueue + [m];
      var ok := readWriteBreaker.Break(false);
      return true;
    }

    /** Lines 640-646. */
    method SetConnectStatus(s: ConnectStatus, ghost c: Client)
      requires Shows(c)
      modifies this
      ensures Shows(Report(c, s))
      ensures status == s && reported == if s == old(status) then old(reported) else old(reported) + [s]
    {
      if s == status {
        return;
      }
      status := s;
      reported := reported + [s];
    }
  }
}
