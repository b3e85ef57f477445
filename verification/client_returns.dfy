/** Whether a client that was told to disconnect, kicked out or refused comes back: when it is for
    good, what can still turn it round, and runs of a new client in which it is turned round. */
module ClientReturns {
  import L = WorkerLife
  import opened Breakers
  import opened ClientWorker

  /** Calls from outside that ask for a connection; kDisCodeNone, which withdraws an earlier stop
      code, counts as one. */
  predicate Connects(e: Event) { e.MakeSure? || (e.Stop? && (e.again || e.code == 0)) }

  predicate Unasked(es: seq<Event>) { forall i :: 0 <= i < |es| ==> !Connects(es[i]) }

  /** However the client goes on unasked, it does not decide to reconnect and creates no worker. */
  ghost predicate NeverAgain(c: Client) {
    forall es :: IsRun(c, es) && Unasked(es) ==> !After(c, es).shouldReconnect && After(c, es).spawned == c.spawned
  }

  predicate FrontMayCall(queue: seq<Outgoing>) { queue == [] || Calls(queue[0]) }

  /** The worker is past its look at the stop code and may still write a request with a callback. */
  predicate MayWrite(pc: Pc, queue: seq<Outgoing>, pingTimeout: PingTimeout) {
    match pc
    case CheckPing(ev) => ev.writable && !ev.error && pingTimeout != Rung && FrontMayCall(queue)
    case CheckQueue(ev) => ev.writable && FrontMayCall(queue)
    case Writing(_) => FrontMayCall(queue)
    case _ => false
  }

  predicate WillWrite(c: Client) { MayWrite(c.pc, c.queue, c.pingTimeout) }

  /** What a caller has to know before a disconnect for good: no timeout is about to disconnect, and
      none is still to come while the status is Connected. */
  predicate SafeToStop(c: Client) {
    !c.timeoutStops && (c.status != Connected || c.timeoutDisconnect || (c.inFlight == 0 && !WillWrite(c)))
  }

  /** The worker will not read or write again. */
  predicate Doomed(c: Client) {
    c.disCode != 0 || c.pc.Leaving? || c.pc.Ending? || (c.pc.Judged? && c.pc.v != Success)
  }

  /** No timeout can turn the client round. */
  predicate Quenched(c: Client) {
    && !c.timeoutStops
    && (c.timeoutDisconnect || !c.life.thread || c.pc.AtStart? || (Doomed(c) && c.inFlight == 0 && !WillWrite(c)))
  }

  /** It is not to reconnect, and nothing under way has decided otherwise or will. */
  predicate Down(c: Client) {
    !c.shouldReconnect && !c.holder.Making? && (c.auto == WillConnect ==> c.life.thread) && Quenched(c)
  }

  // Down is kept.

  lemma DownElsewhere(c: Client, e: Event)
    requires ClientInv(c) && c.life.sys.t.ticksPerMs > 0 && Enabled(c, e) && Down(c) && !Connects(e) && !e.Work?
    ensures Down(Apply(c, e)) && Apply(c, e).spawned == c.spawned
  {
    StatusFacts(c);
    HandlingMeans(c);
    if e.LifeStep? { DownLife(c, e.a); }
    else if e.Push? || e.Rings? || e.StopNext? { DownSignal(c, e); }
    else if e.AutoEnd? { ReconnectThread(c.life); }
    hide CoreInv, GapMeans, L.Ready, L.Do, ApplyLife, Broke, Wiped, MayWrite;
  }

  lemma DownSignal(c: Client, e: Event)
    requires c.life.sys.t.ticksPerMs > 0 && Enabled(c, e) && Down(c) && (e.Push? || e.Rings? || e.StopNext?)
    requires c.holder.Stopping? && c.holder.self <==> c.pc.Handling?
    ensures Down(Apply(c, e)) && Apply(c, e).spawned == c.spawned
  {
    hide L.Ready, L.Do, Broke, Wiped;
  }

  lemma DownLife(c: Client, a: L.Act)
    requires ClientInv(c) && c.life.sys.t.ticksPerMs > 0 && Enabled(c, LifeStep(a)) && Down(c)
    ensures Down(ApplyLife(c, a)) && ApplyLife(c, a).spawned == c.spawned
  {
    StatusFacts(c);
    CoreLife(c);
    LifeStepKeeps(c.life, a);
    hide CoreInv, L.LifeInv, L.Ready, L.Do, MayWrite;
  }

  /** A doomed worker with nothing in flight writes no more requests that could time out. */
  lemma DoomedWork(c: Client, w: Work)
    requires c.life.sys.t.ticksPerMs > 0 && WorkerAt(c, w)
    requires c.pc.AtStart? || (Doomed(c) && c.inFlight == 0 && !WillWrite(c))
    ensures var u := ApplyWorker(c, w); u.pc.AtStart? || (Doomed(u) && u.inFlight == 0 && !WillWrite(u))
  {
    assert c.pc.AtStart? ==> AroundLoop(w) by { hide L.Ready; }
    if w.LookForStop? || w.LookForPing? || w.LookForMessage? || w.Write? { DoomedLook(c, w); }
    else if AroundLoop(w) { DoomedAround(c, w); }
    else { DoomedRest(c, w); }
    hide *;
  }

  lemma DoomedLook(c: Client, w: Work)
    requires c.life.sys.t.ticksPerMs > 0 && WorkerAt(c, w)
    requires w.LookForStop? || w.LookForPing? || w.LookForMessage? || w.Write?
    requires Doomed(c) && c.inFlight == 0 && !WillWrite(c)
    ensures var u := ApplyWorker(c, w); Doomed(u) && u.inFlight == 0 && !WillWrite(u)
  {
    hide L.Ready, L.Do, Broke, Wiped;
    match w
    case LookForStop =>
    case LookForPing =>
    case LookForMessage =>
    case Write(_) =>
  }

  lemma DoomedRest(c: Client, w: Work)
    requires c.life.sys.t.ticksPerMs > 0 && WorkerAt(c, w) && !AroundLoop(w)
    requires !w.LookForStop? && !w.LookForPing? && !w.LookForMessage? && !w.Write?
    requires Doomed(c) && c.inFlight == 0
    ensures var u := ApplyWorker(c, w); Doomed(u) && u.inFlight == 0 && !WillWrite(u)
  {
    hide ApplyAround;
    hide L.Ready, L.Do, Broke, Wiped, FrontMayCall;
  }

  lemma DoomedAround(c: Client, w: Work)
    requires c.life.sys.t.ticksPerMs > 0 && WorkerAt(c, w) && AroundLoop(w)
    requires c.pc.AtStart? || (Doomed(c) && c.inFlight == 0)
    ensures var u := ApplyWorker(c, w); u.pc.AtStart? || (Doomed(u) && u.inFlight == 0 && !WillWrite(u))
  {
    if w.Dial? { DialFacts(c, w.d); }
    hide ApplyTransfer, ApplyLook, ApplyDial;
    hide L.Ready, L.Do, Broke, Wiped, FrontMayCall;
    match w
    case Announce =>
    case Dial(_) =>
    case Judge =>
    case Leave =>
    case End =>
    case StartAlarm =>
  }

  lemma DownWork(c: Client, w: Work)
    requires c.life.sys.t.ticksPerMs > 0 && Enabled(c, Work(w)) && Down(c)
    ensures Down(Apply(c, Work(w))) && Apply(c, Work(w)).spawned == c.spawned
  {
    WorkEffect(c, w);
    if !c.timeoutDisconnect && c.life.thread { DoomedWork(c, w); }
    hide WorkerAt, ApplyWorker, Doomed, WillWrite;
  }

  lemma {:induction false} StaysDown(c: Client, es: seq<Event>)
    requires ClientInv(c) && IsRun(c, es) && Down(c) && Unasked(es)
    ensures !After(c, es).shouldReconnect && After(c, es).spawned == c.spawned
    decreases |es|
  {
    if es != [] {
      EventInv(c, es[0]);
      if es[0].Work? { DownWork(c, es[0].w); } else { DownElsewhere(c, es[0]); }
      hide ClientInv, Enabled, Apply, Down;
      StaysDown(Apply(c, es[0]), es[1..]);
    }
  }

  lemma DownIsForGood(c: Client)
    requires ClientInv(c) && Down(c)
    ensures NeverAgain(c)
  {
    hide ClientInv, IsRun, After, Down, Unasked;
    forall es | IsRun(c, es) && Unasked(es)
      ensures !After(c, es).shouldReconnect && After(c, es).spawned == c.spawned
    {
      StaysDown(c, es);
    }
  }

  // And only Down is for good.

  /** The client, unasked, may come to set `_shouldReconnect` again. */
  ghost predicate CanAsk(c: Client) {
    exists es :: IsRun(c, es) && Unasked(es) && After(c, es).shouldReconnect
  }

  lemma AskNow(c: Client)
    requires c.life.sys.t.ticksPerMs > 0 && c.shouldReconnect
    ensures CanAsk(c)
  {
    assert IsRun(c, []) && After(c, []) == c;
  }

  lemma AskLater(c: Client, e: Event)
    requires MayRun(c, e) && !Connects(e) && CanAsk(Apply(c, e))
    ensures CanAsk(c)
  {
    hide Apply, Enabled, Connects;
    var es :| IsRun(Apply(c, e), es) && Unasked(es) && After(Apply(c, e), es).shouldReconnect;
    var fs := [e] + es;
    assert fs[0] == e && fs[1..] == es;
    assert IsRun(c, fs) && After(c, fs) == After(Apply(c, e), es);
  }

  lemma AskedIsNotNever(c: Client)
    requires CanAsk(c)
    ensures !NeverAgain(c)
  {
    hide IsRun, After, Unasked;
  }

  lemma ConnectedFacts(c: Client)
    requires ClientInv(c) && c.status == Connected
    ensures InRun(c) && c.life.thread && c.life.sys.t.ticksPerMs > 0
    ensures c.life.cb == L.Quiet || c.life.cb == L.Cleared
    ensures |c.life.sys.locks| == |c.life.sys.alarms| > 0
    ensures c.auto != Undecided ==> c.life.cb == L.Cleared
  {
    StatusFacts(c);
    CoreLife(c);
    assert InRun(c);
    RunningFacts(c.life);
    hide CoreInv, L.LifeInv;
  }

  lemma RunningFacts(l: L.Life)
    requires L.LifeInv(l) && l.worker == L.Running
    ensures (l.cb == L.Quiet || l.cb == L.Cleared) && |l.sys.locks| == |l.sys.alarms| > 0
  {
    hide L.NoStray;
  }

  /** A connected client, with `_mutex` free, that a timeout can still turn round. */
  ghost predicate Open(c: Client) {
    ClientInv(c) && c.status == Connected && c.holder == Nobody && !c.timeoutDisconnect && !c.timeoutStops
  }

  lemma AskByTimeoutStop(c: Client)
    requires c.timeoutStops && c.holder == Nobody && c.life.thread && c.life.sys.t.ticksPerMs > 0
    ensures CanAsk(c)
  {
    hide CanAsk;
    var u := Apply(c, TimeoutStop);
    assert u.shouldReconnect && u.life == c.life by { hide L.Ready, L.Do; }
    hide Apply;
    AskNow(u);
    AskLater(c, TimeoutStop);
  }

  lemma AskByTimeout(c: Client)
    requires Open(c) && c.inFlight > 0 && c.life.cb == L.Quiet && !c.ringing
    ensures CanAsk(c)
  {
    ConnectedFacts(c);
    hide CanAsk, ClientInv, L.Ready, L.Do;
    var u := Apply(c, TimesOut);
    AskByTimeoutStop(u);
    AskLater(c, TimesOut);
  }

  lemma AskPastRinging(c: Client)
    requires Open(c) && c.inFlight > 0 && c.life.cb == L.Quiet
    ensures CanAsk(c)
  {
    ConnectedFacts(c);
    hide CanAsk, CoreInv, TimeoutMeans, GapMeans, L.Ready, L.Do, Broke;
    if c.ringing {
      EventInv(c, RingBreak);
      AskByTimeout(Apply(c, RingBreak));
      AskLater(c, RingBreak);
    } else {
      AskByTimeout(c);
    }
  }

  lemma AskPastDone(c: Client)
    requires Open(c) && c.inFlight > 0 && (c.life.cb == L.Cleared ==> c.auto == Done)
    ensures CanAsk(c)
  {
    ConnectedFacts(c);
    hide CanAsk, CoreInv, TimeoutMeans, GapMeans;
    if c.life.cb == L.Cleared {
      EventInv(c, AutoEnd);
      AskPastRinging(Apply(c, AutoEnd));
      AskLater(c, AutoEnd);
    } else {
      AskPastRinging(c);
    }
  }

  lemma AskPastConnect(c: Client)
    requires Open(c) && c.inFlight > 0 && (c.life.cb == L.Cleared ==> c.auto != Undecided)
    ensures CanAsk(c)
  {
    ConnectedFacts(c);
    hide CanAsk, CoreInv, TimeoutMeans, GapMeans, L.Ready, L.Do;
    if c.auto == WillConnect {
      EventInv(c, AutoMake);
      AskPastDone(Apply(c, AutoMake));
      AskLater(c, AutoMake);
    } else {
      AskPastDone(c);
    }
  }

  /** Whatever the timer thread is doing, it comes to the timeout of the request in flight. */
  lemma AskInFlight(c: Client)
    requires Open(c) && c.inFlight > 0
    ensures CanAsk(c)
  {
    ConnectedFacts(c);
    hide CanAsk, CoreInv, TimeoutMeans, GapMeans, L.Ready, L.Do;
    if c.life.cb == L.Cleared && c.auto == Undecided {
      EventInv(c, Reconsider);
      AskPastConnect(Apply(c, Reconsider));
      AskLater(c, Reconsider);
    } else {
      AskPastConnect(c);
    }
  }

  /** A step of the worker that the other conditions survive. */
  lemma AskByWork(c: Client, w: Work)
    requires Open(c) && MayRun(c, Work(w))
    requires Open(Apply(c, Work(w))) ==> CanAsk(Apply(c, Work(w)))
    requires w.LookForPing? || w.LookForMessage? || w.Write?
    requires w.LookForPing? ==> !c.pc.ev.error && c.pingTimeout != Rung
    ensures CanAsk(c)
  {
    hide *;
    OpenKept(c, w);
    AskWork(c, w);
  }

  lemma OpenKept(c: Client, w: Work)
    requires Open(c) && MayRun(c, Work(w)) && (w.LookForPing? || w.LookForMessage? || w.Write?)
    requires w.LookForPing? ==> !c.pc.ev.error && c.pingTimeout != Rung
    ensures Open(Apply(c, Work(w)))
  {
    EventInv(c, Work(w));
    LookEffect(c, w);
    hide CoreInv, TimeoutMeans, GapMeans, ApplyWorker, WorkerAt;
  }

  lemma LookEffect(c: Client, w: Work)
    requires c.life.sys.t.ticksPerMs > 0 && WorkerAt(c, w) && (w.LookForPing? || w.LookForMessage? || w.Write?)
    ensures var u := ApplyWorker(c, w);
      && u.status == c.status && u.holder == c.holder
      && u.timeoutDisconnect == c.timeoutDisconnect && u.timeoutStops == c.timeoutStops
  {
    hide L.Ready, L.Do, Broke, Wiped;
  }

  lemma AskWork(c: Client, w: Work)
    requires MayRun(c, Work(w)) && CanAsk(Apply(c, Work(w)))
    ensures CanAsk(c)
  {
    hide CanAsk, Apply, Enabled;
    AskLater(c, Work(w));
  }

  lemma AskWriting(c: Client)
    requires Open(c) && c.pc.Writing? && FrontMayCall(c.queue)
    ensures CanAsk(c)
  {
    ConnectedFacts(c);
    assert c.queue != [] by { hide L.LifeInv, TraceMeans, Healthy, Ordered, StopSignalled, PingSignalled, QueueSignalled; }
    var w := Write(true);
    hide CanAsk, CoreInv, TimeoutMeans, GapMeans, L.Ready, L.Do;
    assert Apply(c, Work(w)).inFlight > 0;
    if Open(Apply(c, Work(w))) { AskInFlight(Apply(c, Work(w))); }
    AskByWork(c, w);
  }

  lemma AskFound(c: Client)
    requires Open(c) && c.pc.CheckQueue? && c.pc.ev.writable && c.queue != [] && Calls(c.queue[0])
    ensures CanAsk(c)
  {
    ConnectedFacts(c);
    hide CanAsk, CoreInv, TimeoutMeans, GapMeans, L.Ready, L.Do;
    var u := Apply(c, Work(LookForMessage));
    assert u.pc.Writing? && FrontMayCall(u.queue);
    if Open(u) { AskWriting(u); }
    AskByWork(c, LookForMessage);
  }

  /** A Send that has not heard of the disconnect yet may come in between. */
  lemma AskQueue(c: Client)
    requires Open(c) && c.pc.CheckQueue? && c.pc.ev.writable && FrontMayCall(c.queue)
    ensures CanAsk(c)
  {
    ConnectedFacts(c);
    hide CanAsk, CoreInv, TimeoutMeans, GapMeans, L.Ready, L.Do, Broke;
    if c.queue == [] {
      var e := Push(Request(1, true));
      EventInv(c, e);
      var c1 := Apply(c, e);
      EventInv(c1, PushBreak);
      AskFound(Apply(c1, PushBreak));
      AskLater(c1, PushBreak);
      AskLater(c, e);
    } else {
      AskFound(c);
    }
  }

  lemma AskCheckPing(c: Client)
    requires Open(c) && c.pc.CheckPing? && c.pc.ev.writable && !c.pc.ev.error && c.pingTimeout != Rung
    requires FrontMayCall(c.queue)
    ensures CanAsk(c)
  {
    ConnectedFacts(c);
    hide CanAsk, CoreInv, TimeoutMeans, GapMeans, L.Ready, L.Do;
    var u := Apply(c, Work(LookForPing));
    assert u.pc.CheckQueue? && u.pc.ev.writable && u.queue == c.queue;
    if Open(u) { AskQueue(u); }
    AskByWork(c, LookForPing);
  }

  /** With `_mutex` free and a worker there, what is not safe can come back. */
  lemma AskUnsafe(c: Client)
    requires ClientInv(c) && c.holder == Nobody && c.life.thread && !SafeToStop(c)
    ensures CanAsk(c)
  {
    StatusFacts(c);
    hide CanAsk, CoreInv, TimeoutMeans, GapMeans;
    if c.timeoutStops { AskByTimeoutStop(c); }
    else if c.inFlight > 0 { AskInFlight(c); }
    else {
      match c.pc
      case Writing(_) => AskWriting(c);
      case CheckQueue(_) => AskQueue(c);
      case CheckPing(_) => AskCheckPing(c);
    }
  }

  /** The two signals of a disconnect change nothing that matters here. */
  lemma AskAfterStop(c: Client)
    requires ClientInv(c) && c.holder == Stopping(0, false) && c.life.thread && !SafeToStop(c)
    ensures CanAsk(c)
  {
    StatusFacts(c);
    EventInv(c, StopNext);
    var c1 := Apply(c, StopNext);
    EventInv(c1, StopNext);
    hide CanAsk, ClientInv, L.Ready, L.Do, Broke;
    AskUnsafe(Apply(c1, StopNext));
    AskLater(c1, StopNext);
    AskLater(c, StopNext);
  }

  lemma AskAfterKick(c: Client)
    requires ClientInv(c) && c.holder == Stopping(0, true) && c.life.thread && c.status == Connected
    requires c.timeoutStops || (!c.timeoutDisconnect && c.inFlight > 0)
    ensures CanAsk(c)
  {
    StatusFacts(c);
    EventInv(c, StopNext);
    var c1 := Apply(c, StopNext);
    EventInv(c1, StopNext);
    hide CanAsk, ClientInv, L.Ready, L.Do, Broke;
    AskUnsafe(Apply(c1, StopNext));
    AskLater(c1, StopNext);
    AskLater(c, StopNext);
  }

  lemma AskInGap(c: Client)
    requires ClientInv(c) && c.holder == Nobody && !c.life.thread && (c.shouldReconnect || c.auto == WillConnect)
    ensures CanAsk(c)
  {
    StatusFacts(c);
    hide CanAsk, CoreInv, TimeoutMeans, GapMeans, L.Ready, L.Do;
    if c.shouldReconnect {
      AskNow(c);
    } else {
      AskNow(Apply(c, AutoMake));
      AskLater(c, AutoMake);
    }
  }

  /** DisconnectAsync(code, false) is for good, whatever all threads do next short of asking for a
      connection, exactly when: with a worker there, no timeout is about to disconnect or can still
      come to; without one, the client was not to reconnect anyway. */
  lemma {:induction false} StopIsFinalIff(c: Client, code: nat)
    requires ClientInv(c) && Enabled(c, Stop(code, false)) && code != 0
    ensures c.life.sys.t.ticksPerMs > 0
    ensures NeverAgain(Apply(c, Stop(code, false))) <==>
      if c.life.thread then SafeToStop(c) else !c.shouldReconnect && c.auto != WillConnect
  {
    StatusFacts(c);
    EventInv(c, Stop(code, false));
    var u := Apply(c, Stop(code, false));
    hide NeverAgain, CoreInv, L.Ready, L.Do;
    if c.life.thread {
      if SafeToStop(c) { assert Down(u); DownIsForGood(u); }
      else { assert !SafeToStop(u); AskAfterStop(u); AskedIsNotNever(u); }
    } else if !c.shouldReconnect && c.auto != WillConnect {
      DownIsForGood(u);
    } else {
      AskInGap(u);
      AskedIsNotNever(u);
    }
  }

  /** The same for the server's kick, which the worker itself handles. */
  lemma {:induction false} KickIsFinalIff(c: Client)
    requires ClientInv(c) && c.life.sys.t.ticksPerMs > 0 && Enabled(c, Work(KickedOut))
    ensures NeverAgain(Apply(c, Work(KickedOut))) <==> SafeToStop(c)
  {
    hide *;
    KickMeans(c);
    var u := Apply(c, Work(KickedOut));
    EventInv(c, Work(KickedOut));
    KickEffect(c);
    if SafeToStop(c) { DownIsForGood(u); }
    else { AskAfterKick(u); AskedIsNotNever(u); }
  }

  lemma KickMeans(c: Client)
    requires ClientInv(c) && Enabled(c, Work(KickedOut))
    ensures c.life.sys.t.ticksPerMs > 0 && c.status == Connected && c.life.thread
  {
    StatusFacts(c);
    hide CoreInv, L.Ready, L.Do;
  }

  lemma KickEffect(c: Client)
    requires c.life.sys.t.ticksPerMs > 0 && Enabled(c, Work(KickedOut)) && c.status == Connected && c.life.thread
    ensures var u := Apply(c, Work(KickedOut));
      && (SafeToStop(c) ==> Down(u))
      && u.holder == Stopping(0, true) && u.life == c.life && u.status == c.status
      && (!SafeToStop(c) ==> u.timeoutStops || (!u.timeoutDisconnect && u.inFlight > 0))
  {
    hide L.Ready, L.Do;
  }

  /** The connection is refused with a kick, or given up without a network. */
  predicate Refuses(d: DialStep) { d == Login(Kickout) || d == Prepare(NoNet) }

  /** That is always for good: no request is in flight yet. */
  lemma {:induction false} RefusalIsFinal(c: Client, d: DialStep)
    requires ClientInv(c) && c.life.sys.t.ticksPerMs > 0 && Enabled(c, Work(Dial(d))) && Refuses(d)
    ensures NeverAgain(Apply(c, Work(Dial(d))))
  {
    hide *;
    DialingFacts(c, d);
    EventInv(c, Work(Dial(d)));
    RefusalEffect(c, d);
    DownIsForGood(Apply(c, Work(Dial(d))));
  }

  lemma DialingFacts(c: Client, d: DialStep)
    requires ClientInv(c) && Enabled(c, Work(Dial(d)))
    ensures c.life.thread && !c.holder.Making? && c.status == Connecting && c.inFlight == 0 && !c.timeoutStops
  {
    StatusFacts(c);
    NoAutoBeforeWorker(c);
    hide CoreInv, L.Ready, L.Do;
  }

  lemma RefusalEffect(c: Client, d: DialStep)
    requires c.life.sys.t.ticksPerMs > 0 && Enabled(c, Work(Dial(d))) && Refuses(d)
    requires c.life.thread && !c.holder.Making? && c.inFlight == 0 && !c.timeoutStops
    ensures Down(Apply(c, Work(Dial(d))))
  {
    hide L.Ready, L.Do, ApplyTransfer, ApplyLook;
  }

  // ----- what comes back, and how -----

  /** One more step of a run. */
  lemma Step(c: Client, es: seq<Event>, u: Client, e: Event) returns (fs: seq<Event>, v: Client)
    requires Leads(c, es, u) && MayRun(u, e) && Apply(u, e).life.sys.t.ticksPerMs > 0
    ensures fs == es + [e] && v == Apply(u, e) && Leads(c, fs, v)
    ensures Unasked(es) && !Connects(e) ==> Unasked(fs)
  {
    fs, v := es + [e], Apply(u, e);
    hide Apply, Enabled, Connects, Leads;
    LeadsTo(u, e, [], v);
    assert [e] + [] == [e];
    LeadsOn(c, es, u, [e], v);
  }

  /** One more step of the worker. */
  lemma Works(c: Client, es: seq<Event>, u: Client, w: Work) returns (fs: seq<Event>, v: Client)
    requires Leads(c, es, u) && InRun(u) && u.life.sys.t.ticksPerMs > 0 && WorkerAt(u, w) && !w.StartAlarm?
    ensures fs == es + [Work(w)] && v == ApplyWorker(u, w) && v.life == u.life && Leads(c, fs, v)
    ensures Unasked(es) ==> Unasked(fs)
  {
    WorkEffect(u, w);
    hide WorkerAt, ApplyWorker, Leads, Unasked;
    fs, v := Step(c, es, u, Work(w));
  }

  lemma Here(c: Client)
    requires c.life.sys.t.ticksPerMs > 0
    ensures Leads(c, [], c) && Unasked([])
  {
  }

  /** What the reconnect callback does by itself, from line 83 or from line 85 on. */
  lemma ComesBack(c: Client) returns (es: seq<Event>, u: Client)
    requires L.LifeInv(c.life) && c.holder == Nobody && !c.life.thread && c.life.cb == L.Cleared
    requires c.status != Connected && (if c.auto == Undecided then c.shouldReconnect else c.auto == WillConnect)
    ensures Leads(c, es, u) && Unasked(es) && u.pc == Begin && InRun(u) && u.spawned == c.spawned + 1
  {
    LifeFacts(c.life);
    hide L.LifeInv, L.Ready, Leads, Unasked;
    Here(c);
    es, u := [], c;
    if c.auto == Undecided {
      es, u := Step(c, es, u, Reconsider);
    }
    es, u := Step(c, es, u, AutoMake);
    es, u := Makes(c, es, u);
  }

  /** MakeSureConnected from line 122 on. */
  lemma Makes(c: Client, es: seq<Event>, u: Client) returns (fs: seq<Event>, v: Client)
    requires Leads(c, es, u) && u.holder.Making? && u.holder.stage == 0 && L.LifeInv(u.life) && !u.life.thread
    ensures Leads(c, fs, v) && (Unasked(es) ==> Unasked(fs))
    ensures v == u.(rw := Wiped(u.rw), conn := Wiped(u.conn), queue := [], pushed := [], wire := [],
                    life := L.Do(u.life, L.Spawn), pc := Begin, holder := Nobody, spawned := u.spawned + 1)
    ensures InRun(v) && v.life.sys.t.ticksPerMs > 0
  {
    LifeFacts(u.life);
    SpawnReady(u.life);
    SpawnThread(u.life);
    hide L.LifeInv, L.Ready, L.Do, Wiped, Leads, Unasked;
    fs, v := Step(c, es, u, MakeNext);
    fs, v := Step(c, fs, v, MakeNext);
    fs, v := Step(c, fs, v, MakeNext);
  }

  /** A client without a worker creates none, unasked, exactly when it is not to reconnect and the
      reconnect callback has not decided to: a disconnect between two workers makes no difference. */
  lemma {:induction false} GapIff(c: Client, code: nat)
    requires ClientInv(c) && Enabled(c, Stop(code, false)) && !c.life.thread
    ensures c.life.sys.t.ticksPerMs > 0 && Apply(c, Stop(code, false)) == c
    ensures (forall es :: IsRun(c, es) && Unasked(es) ==> After(c, es).spawned == c.spawned)
      <==> !c.shouldReconnect && c.auto != WillConnect
  {
    StatusFacts(c);
    CoreLife(c);
    hide CoreInv, L.Ready, L.Do, IsRun, After, L.LifeInv, Unasked;
    if !c.shouldReconnect && c.auto != WillConnect {
      DownIsForGood(c);
    } else {
      var es, u := ComesBack(c);
      assert IsRun(c, es) && Unasked(es) && After(c, es).spawned == c.spawned + 1;
    }
  }

  /** The first connection attempt of a new client. */
  lemma FirstWorkerRuns() returns (es: seq<Event>, u: Client)
    ensures Leads(New(1, 0, 1), es, u)
    ensures u == New(1, 0, 1).(life := L.FirstWorker(), pc := Begin, shouldReconnect := true, spawned := 1)
  {
    var c := New(1, 0, 1);
    L.FirstWorkerIs();
    LifeFacts(c.life);
    assert c.life == L.Birth(1, 0, 1) && !c.life.thread;
    hide L.LifeInv, L.Ready, L.Do, Leads, L.Birth, L.FirstWorker;
    Here(c);
    es, u := Step(c, [], c, MakeSure);
    es, u := Makes(c, es, u);
  }

  function Lift(acts: seq<L.Act>): seq<Event> {
    if acts == [] then [] else [LifeStep(acts[0])] + Lift(acts[1..])
  }

  predicate TimerActs(acts: seq<L.Act>) { forall i :: 0 <= i < |acts| ==> L.IsReaping(acts[i]) }

  lemma {:induction false} LiftRuns(c: Client, acts: seq<L.Act>) returns (u: Client)
    requires L.IsLife(c.life, acts) && TimerActs(acts) && !c.ringing && !c.timeoutStops
    ensures Leads(c, Lift(acts), u) && Unasked(Lift(acts))
    ensures u == c.(life := L.Afterwards(c.life, acts), inFlight := u.inFlight)
    decreases |acts|
  {
    hide L.Ready, L.Do;
    if acts == [] {
      u := c;
    } else {
      var e := LifeStep(acts[0]);
      var c1 := Apply(c, e);
      u := LiftRuns(c1, acts[1..]);
      if acts[1..] == [] { assert Lift(acts[1..]) == [] && u == c1; }
      LeadsTo(c, e, Lift(acts[1..]), u);
    }
  }

  lemma FirstStart(c: Client)
    requires c.life == L.FirstWorker() && c.pc.AtStart?
    requires L.LifeInv(c.life) && L.Ready(c.life, L.StartReconnect) && L.LifeInv(L.Do(c.life, L.StartReconnect))
    ensures MayRun(c, Work(StartAlarm))
    ensures Apply(c, Work(StartAlarm)) == c.(life := L.Do(c.life, L.StartReconnect))
  {
    FirstWorkerFacts();
    hide L.LifeInv, L.Ready, L.Do, L.FirstWorker, ApplyTransfer, ApplyLook;
  }

  /** The worker has nothing left but its reconnect alarm, and the timer nothing else to do. */
  lemma FirstReaped(c: Client) returns (es: seq<Event>, u: Client)
    requires c.life == L.FirstWorker() && c.pc.AtStart? && !c.ringing && !c.timeoutStops
    ensures Leads(c, es, u) && Unasked(es)
    ensures !u.life.thread && u.life.cb == L.Cleared && L.LifeInv(u.life)
    ensures u == c.(life := u.life, inFlight := u.inFlight)
  {
    var acts := L.FirstReaped();
    FirstStart(c);
    var v := Apply(c, Work(StartAlarm));
    assert Lift(acts) != [];
    hide Apply, Enabled, L.LifeInv, L.Do, L.Ready, L.IsLife, L.Afterwards, L.FirstWorker, Leads, Unasked, Lift;
    u := LiftRuns(v, acts);
    es := WorkThen(c, StartAlarm, Lift(acts), u);
  }

  lemma WorkThen(c: Client, w: Work, es: seq<Event>, u: Client) returns (fs: seq<Event>)
    requires MayRun(c, Work(w)) && Leads(Apply(c, Work(w)), es, u) && Unasked(es) && es != []
    ensures Leads(c, fs, u) && Unasked(fs)
  {
    fs := [Work(w)] + es;
    NotAsking();
    hide Apply, Enabled, Connects, Leads;
    LeadsTo(c, Work(w), es, u);
  }

  lemma UnaskedOn(es: seq<Event>, fs: seq<Event>)
    requires Unasked(es) && Unasked(fs)
    ensures Unasked(es + fs)
  {
  }

  lemma NotAsking()
    ensures forall w :: !Connects(Work(w))
  {
  }

  lemma FirstWorkerFacts()
    ensures var l := L.FirstWorker(); L.LifeInv(l) && l.worker == L.Running && l.thread && l.cb == L.Quiet
    ensures L.FirstWorker().sys.t.ticksPerMs > 0
  {
    L.FirstWorkerIs();
    LifeFacts(L.FirstWorker());
    hide L.LifeInv;
  }

  /** A connection attempt and its outcome. */
  lemma Dials(c: Client, es: seq<Event>, u: Client, v: Verdict) returns (fs: seq<Event>, x: Client)
    requires Leads(c, es, u) && InRun(u) && u.life.sys.t.ticksPerMs > 0 && u.pc.Begin? && u.status == Idle
    requires v != Kickout && u.conn.unread == 0
    ensures Leads(c, fs, x) && (Unasked(es) ==> Unasked(fs))
    ensures x == u.(pc := if v == Success then Sample else Leaving, status := Outcome(v),
                    trace := u.trace + [Connecting] + [Outcome(v)], verdicts := u.verdicts + [v])
  {
    hide L.Ready, L.Do, Leads, Unasked, ApplyTransfer, ApplyLook, Enabled, Apply, Outcome;
    fs, x := Works(c, es, u, Announce);
    fs, x := Prepares(c, fs, x);
    fs, x := Wins(c, fs, x);
    fs, x := Works(c, fs, x, Dial(Login(v)));
    assert Outcome(v) != Connecting by { SomeOutcome(v); }
    fs, x := Works(c, fs, x, Judge);
  }

  lemma Prepares(c: Client, es: seq<Event>, u: Client) returns (fs: seq<Event>, v: Client)
    requires Leads(c, es, u) && InRun(u) && u.life.sys.t.ticksPerMs > 0 && u.pc == Dialing(Preparing)
    ensures Leads(c, fs, v) && (Unasked(es) ==> Unasked(fs)) && v == u.(pc := Dialing(Racing))
  {
    hide L.Ready, L.Do, Leads, Unasked, ApplyTransfer, ApplyLook, Enabled, Apply;
    fs, v := Works(c, es, u, Dial(Prepare(HttpDns)));
  }

  /** A race that nobody interrupts and that finds a socket at once. */
  lemma Wins(c: Client, es: seq<Event>, u: Client) returns (fs: seq<Event>, v: Client)
    requires Leads(c, es, u) && InRun(u) && u.life.sys.t.ticksPerMs > 0 && u.pc == Dialing(Racing)
    requires u.conn.unread == 0
    ensures Leads(c, fs, v) && (Unasked(es) ==> Unasked(fs)) && v == u.(pc := Dialing(Exchanging))
  {
    hide L.Ready, L.Do, Leads, Unasked, ApplyTransfer, ApplyLook, Enabled, Apply;
    fs, v := Works(c, es, u, Dial(Select(false)));
    fs, v := Works(c, fs, v, Dial(Heed(Found)));
  }

  lemma SomeOutcome(v: Verdict)
    ensures IsOutcome(Outcome(v))
  {
  }

  /** The end of __Run. */
  lemma Closes(c: Client, es: seq<Event>, u: Client) returns (fs: seq<Event>, v: Client)
    requires Leads(c, es, u) && InRun(u) && u.life.sys.t.ticksPerMs > 0 && u.pc.Leaving? && u.status != Disconnected
    ensures Leads(c, fs, v) && (Unasked(es) ==> Unasked(fs))
    ensures v == u.(pc := AtStart, pingTimeout := Off, status := Disconnected, trace := u.trace + [Disconnected])
  {
    hide L.Ready, L.Do, Leads, Unasked, ApplyTransfer, ApplyLook, Enabled, Apply;
    fs, v := Works(c, es, u, Leave);
    fs, v := Works(c, fs, v, End);
  }

  /** A new client connects in vain, and in the gap behind that worker it is told to disconnect and
      not to reconnect: it reconnects. */
  lemma {:induction false} LostDisconnect(code: nat)
    returns (before: seq<Event>, gap: Client, after: seq<Event>, u: Client)
    ensures Leads(New(1, 0, 1), before, gap) && gap.spawned == 1
    ensures MayRun(gap, Stop(code, false)) && Leads(Apply(gap, Stop(code, false)), after, u)
    ensures Unasked(after) && u.spawned == 2
  {
    var c := New(1, 0, 1);
    before, gap := FirstWorkerRuns();
    FirstWorkerFacts();
    hide L.LifeInv, L.Ready, L.Do, L.FirstWorker, Leads, Unasked, Enabled, Apply;
    before, gap := Dials(c, before, gap, Failed);
    before, gap := Closes(c, before, gap);
    var reap, v := FirstReaped(gap);
    LeadsOn(c, before, gap, reap, v);
    before, gap := before + reap, v;
    IgnoredStop(gap, code);
    after, u := ComesBack(gap);
  }

  lemma IgnoredStop(c: Client, code: nat)
    requires L.LifeInv(c.life) && c.holder == Nobody && !c.life.thread
    ensures MayRun(c, Stop(code, false)) && Apply(c, Stop(code, false)) == c
  {
    LifeFacts(c.life);
    hide L.LifeInv;
  }

  /** One pass of the loop up to the write. */
  lemma WritesFirst(c: Client, es: seq<Event>, u: Client, ev: Events) returns (fs: seq<Event>, v: Client)
    requires Leads(c, es, u) && InRun(u) && u.life.sys.t.ticksPerMs > 0 && u.pc.Sample? && u.holder == Nobody
    requires u.queue != [] && u.disCode == 0 && u.pingTimeout == Off && ev.writable && !ev.error
    ensures Leads(c, fs, v)
    ensures v == u.(pc := Written(ev), rw := Wiped(u.rw), wire := u.wire + [u.queue[0]],
                    inFlight := u.inFlight + if Calls(u.queue[0]) then 1 else 0)
  {
    hide L.Ready, L.Do, Leads, Wiped, Calls, ApplyAround, ApplyTransfer, Enabled, Apply;
    fs, v := Works(c, es, u, TakeSample);
    fs, v := Works(c, fs, v, Wake(ev));
    fs, v := Works(c, fs, v, ClearSignal);
    assert v == u.(pc := CheckStop(ev), rw := Wiped(u.rw));
    fs, v := FindsMessage(c, fs, v);
    fs, v := WritesFront(c, fs, v);
  }

  lemma FindsMessage(c: Client, es: seq<Event>, u: Client) returns (fs: seq<Event>, v: Client)
    requires Leads(c, es, u) && InRun(u) && u.life.sys.t.ticksPerMs > 0 && u.pc.CheckStop? && u.holder == Nobody
    requires u.queue != [] && u.disCode == 0 && u.pingTimeout == Off && u.pc.ev.writable && !u.pc.ev.error
    ensures Leads(c, fs, v) && v == u.(pc := Writing(u.pc.ev))
  {
    hide L.Ready, L.Do, Leads, Wiped, ApplyAround, ApplyTransfer, Enabled, Apply;
    fs, v := Works(c, es, u, LookForStop);
    fs, v := Works(c, fs, v, LookForPing);
    fs, v := Works(c, fs, v, LookForMessage);
  }

  lemma WritesFront(c: Client, es: seq<Event>, u: Client) returns (fs: seq<Event>, v: Client)
    requires Leads(c, es, u) && InRun(u) && u.life.sys.t.ticksPerMs > 0 && u.pc.Writing? && u.holder == Nobody
    requires u.queue != []
    ensures Leads(c, fs, v)
    ensures v == u.(pc := Written(u.pc.ev), wire := u.wire + [u.queue[0]],
                    inFlight := u.inFlight + if Calls(u.queue[0]) then 1 else 0)
  {
    hide L.Ready, L.Do, Leads, Calls, ApplyAround, ApplyLook, Enabled, Apply;
    fs, v := Works(c, es, u, Write(true));
  }

  lemma Sends(c: Client, es: seq<Event>, u: Client, m: Outgoing) returns (fs: seq<Event>, v: Client)
    requires Leads(c, es, u) && u.life.sys.t.ticksPerMs > 0 && u.holder == Nobody && u.status == Connected
    ensures Leads(c, fs, v)
    ensures v == u.(queue := u.queue + [m], pushed := u.pushed + [m], rw := Broke(u.rw, false))
  {
    hide L.Ready, L.Do, Leads, Broke;
    fs, v := Step(c, es, u, Push(m));
    fs, v := Step(c, fs, v, PushBreak);
  }

  /** A new client that is connected and has written one request. */
  lemma WritesRequest(id: nat) returns (es: seq<Event>, u: Client)
    ensures Leads(New(1, 0, 1), es, u)
    ensures u.life == L.FirstWorker() && u.pc == Written(Events(true, true, false)) && u.status == Connected
    ensures u.queue == [Request(id, true)] && u.inFlight == 1 && u.holder == Nobody && u.auto == Undecided
    ensures !u.ringing && !u.timeoutStops && !u.timeoutDisconnect && u.spawned == 1
    ensures u.wire == [Request(id, true)] && u.disCode == 0 && u.shouldReconnect && u.pingTimeout == Off
  {
    var c := New(1, 0, 1);
    es, u := FirstWorkerRuns();
    FirstWorkerFacts();
    hide L.LifeInv, L.FirstWorker, Leads, Broke, Wiped;
    es, u := Dials(c, es, u, Success);
    es, u := Sends(c, es, u, Request(id, true));
    es, u := WritesFirst(c, es, u, Events(true, true, false));
  }

  /** The answer cannot be read, and the connection is closed. */
  lemma LosesConnection(c: Client, es: seq<Event>, u: Client) returns (fs: seq<Event>, v: Client)
    requires Leads(c, es, u) && Unasked(es) && InRun(u) && u.life.sys.t.ticksPerMs > 0 && u.holder == Nobody
    requires u.pc == Written(Events(true, true, false)) && u.queue != [] && u.status == Connected
    ensures Leads(c, fs, v) && Unasked(fs)
    ensures v == u.(pc := AtStart, queue := u.queue[1..], pingTimeout := Off, status := Disconnected,
                    trace := u.trace + [Disconnected])
  {
    hide L.Ready, L.Do, Leads, Unasked, ApplyAround, ApplyLook, Enabled, Apply;
    fs, v := Works(c, es, u, Pop);
    fs, v := Works(c, fs, v, Read(false, false, false));
    fs, v := Closes(c, fs, v);
  }

  /** The request times out while the worker has not noticed the disconnect yet. */
  lemma TimesOutLate(c: Client) returns (es: seq<Event>, u: Client)
    requires c.holder == Stopping(0, false) && c.life.thread && TimerIdle(c) && c.life.sys.t.ticksPerMs > 0
    requires c.inFlight == 1 && c.status == Connected && !c.timeoutDisconnect
    ensures Leads(c, es, u) && Unasked(es)
    ensures u == c.(inFlight := 0, timeoutDisconnect := true, disCode := SEND_REQ_TIMEOUT, shouldReconnect := true,
                    holder := Nobody, rw := u.rw, conn := u.conn)
  {
    hide L.Ready, L.Do, Leads, Unasked, Broke;
    Here(c);
    es, u := Step(c, [], c, StopNext);
    es, u := Step(c, es, u, StopNext);
    es, u := Step(c, es, u, TimesOut);
    es, u := Step(c, es, u, TimeoutStop);
    es, u := Step(c, es, u, StopNext);
    es, u := Step(c, es, u, StopNext);
  }

  /** A new client connects and writes a request; it is told to disconnect and not to reconnect;
      before the worker has closed the connection, the request times out: it reconnects. */
  lemma {:induction false} LogoutUndone(id: nat, code: nat)
    returns (before: seq<Event>, busy: Client, after: seq<Event>, u: Client)
    ensures Leads(New(1, 0, 1), before, busy) && busy.spawned == 1
    ensures MayRun(busy, Stop(code, false)) && Leads(Apply(busy, Stop(code, false)), after, u)
    ensures Unasked(after) && u.spawned == 2
  {
    before, busy := WritesRequest(id);
    FirstWorkerFacts();
    var c := Apply(busy, Stop(code, false));
    hide L.LifeInv, L.FirstWorker, Leads, Unasked;
    after, u := TimesOutLate(c);
    after, u := LosesConnection(c, after, u);
    var reap, v := FirstReaped(u);
    LeadsOn(c, after, u, reap, v);
    var back, w := ComesBack(v);
    LeadsOn(c, after + reap, v, back, w);
    UnaskedOn(after, reap);
    UnaskedOn(after + reap, back);
    after, u := after + reap + back, w;
  }
}
