/** What the client's steps add up to: requests in flight, the ping timeout and the write interest as
    consequences of the events of a run, and runs of a new client that connects, pings, is answered
    and is told to stop. */
module ClientLaws {
  import L = WorkerLife
  import opened Breakers
  import opened ClientWorker
  import opened ClientReturns

  // ----- requests in flight -----

  /** Requests with a callback. */
  function CallsIn(ms: seq<Outgoing>): nat {
    if ms == [] then 0 else CallsIn(ms[..|ms| - 1]) + if Calls(ms[|ms| - 1]) then 1 else 0
  }

  predicate IsAnswer(e: Event) { e.Work? && e.w.Read? && e.w.answers }

  predicate IsForget(e: Event) { e.LifeStep? && e.a.Forget? }

  /** The responses read, and the timeouts run, in the events of a run. */
  function Answers(es: seq<Event>): nat {
    if es == [] then 0 else (if IsAnswer(es[0]) then 1 else 0) + Answers(es[1..])
  }

  function Timeouts(es: seq<Event>): nat {
    if es == [] then 0 else (if es[0] == TimesOut then 1 else 0) + Timeouts(es[1..])
  }

  predicate WithoutForget(es: seq<Event>) { forall i :: 0 <= i < |es| ==> !IsForget(es[i]) }

  lemma InFlightWork(c: Client, w: Work)
    requires MayRun(c, Work(w))
    ensures var u := Apply(c, Work(w));
      u.inFlight + (if IsAnswer(Work(w)) then 1 else 0) + CallsIn(c.wire) == c.inFlight + CallsIn(u.wire)
  {
    hide *;
    if w.Write? { InFlightWrite(c, w.ok); }
    else if w.Read? { InFlightRead(c, w); }
    else { InFlightRest(c, w); }
  }

  lemma InFlightWrite(c: Client, ok: bool)
    requires MayRun(c, Work(Write(ok)))
    ensures var u := Apply(c, Work(Write(ok)));
      u.inFlight + CallsIn(c.wire) == c.inFlight + CallsIn(u.wire) && !IsAnswer(Work(Write(ok)))
  {
    hide L.Ready, L.Do, ApplyAround, ApplyLook, CallsIn, Calls;
    if ok { CallsSnoc(c.wire, c.queue[0]); }
  }

  lemma InFlightRead(c: Client, w: Work)
    requires MayRun(c, Work(w)) && w.Read?
    ensures var u := Apply(c, Work(w));
      u.inFlight + (if IsAnswer(Work(w)) then 1 else 0) == c.inFlight && u.wire == c.wire
  {
    hide L.Ready, L.Do, ApplyAround, ApplyLook, CallsIn, Calls;
  }

  lemma InFlightRest(c: Client, w: Work)
    requires MayRun(c, Work(w)) && !w.Write? && !w.Read?
    ensures var u := Apply(c, Work(w)); u.inFlight == c.inFlight && u.wire == c.wire && !IsAnswer(Work(w))
  {
    if w.Dial? { DialFacts(c, w.d); }
    else if w.Announce? || w.Judge? || w.End? { ReportsOnly(c, w); }
    hide L.Ready, L.Do, Broke, Wiped, ApplyDial, Report;
    if AroundLoop(w) { hide ApplyTransfer, ApplyLook; } else { hide ApplyAround; }
  }

  lemma ReportsOnly(c: Client, w: Work)
    requires c.life.sys.t.ticksPerMs > 0 && WorkerAt(c, w) && (w.Announce? || w.Judge? || w.End?)
    ensures var u := ApplyWorker(c, w); u.inFlight == c.inFlight && u.wire == c.wire
  {
    hide L.Ready, L.Do, ApplyTransfer, ApplyLook, ApplyDial;
  }

  lemma CallsSnoc(ms: seq<Outgoing>, m: Outgoing)
    ensures CallsIn(ms + [m]) == CallsIn(ms) + if Calls(m) then 1 else 0
  {
    assert (ms + [m])[..|ms|] == ms;
  }

  lemma InFlightElsewhere(c: Client, e: Event)
    requires ClientInv(c) && MayRun(c, e) && c.life.thread && !e.Work? && !IsForget(e)
    ensures var u := Apply(c, e);
      u.inFlight + (if e == TimesOut then 1 else 0) == c.inFlight && u.wire == c.wire && u.life.thread
  {
    NotMaking(c);
    if e.LifeStep? { CoreLife(c); LifeStepKeeps(c.life, e.a); }
    if e.AutoEnd? { ReconnectThread(c.life); }
    hide ClientInv, L.LifeInv, L.Ready, L.Do, Broke, Wiped;
  }

  lemma NotMaking(c: Client)
    requires ClientInv(c) && c.life.thread
    ensures !c.holder.Making?
  {
    hide L.LifeInv, TraceMeans, Healthy, Ordered, StopSignalled, PingSignalled, QueueSignalled;
  }

  lemma {:induction false} InFlightCounts(c: Client, es: seq<Event>)
    requires ClientInv(c) && IsRun(c, es) && c.life.thread && WithoutForget(es)
    ensures var u := After(c, es);
      u.inFlight + Answers(es) + Timeouts(es) + CallsIn(c.wire) == c.inFlight + CallsIn(u.wire)
    decreases |es|
  {
    if es != [] {
      EventInv(c, es[0]);
      if es[0].Work? { InFlightWork(c, es[0].w); WorkKeepsThread(c, es[0].w); }
      else { InFlightElsewhere(c, es[0]); }
      hide ClientInv, Enabled, Apply, CallsIn, IsForget, IsAnswer;
      InFlightCounts(Apply(c, es[0]), es[1..]);
    }
  }

  lemma WorkKeepsThread(c: Client, w: Work)
    requires MayRun(c, Work(w))
    ensures Apply(c, Work(w)).life.thread == c.life.thread
  {
    WorkEffect(c, w);
    hide WorkerAt, ApplyWorker;
  }

  /** Over all runs from the creation of a worker until it is joined: the requests in flight are those
      with a callback that have been written, without the responses read and the timeouts run. */
  lemma {:induction false} InFlightIs(c: Client, es: seq<Event>)
    requires ClientInv(c) && MayRun(c, MakeNext) && c.holder.stage >= 2
    requires IsRun(Apply(c, MakeNext), es) && WithoutForget(es)
    ensures var u := After(Apply(c, MakeNext), es);
      u.inFlight + Answers(es) + Timeouts(es) == CallsIn(u.wire)
  {
    StatusFacts(c);
    SpawnThread(c.life);
    NoThreadNoFlight(c);
    EventInv(c, MakeNext);
    InFlightCounts(Apply(c, MakeNext), es);
    hide ClientInv, L.Do, L.Ready, IsRun, After;
  }

  lemma NoThreadNoFlight(c: Client)
    requires ClientInv(c) && c.holder.Making?
    ensures c.inFlight == 0
  {
    hide L.LifeInv, TraceMeans, Healthy, Ordered, StopSignalled, PingSignalled, QueueSignalled;
  }

  // ----- the ping timeout, and the write interest -----

  /** The last event that concerns the ping timeout decides its status. */
  function LastPing(es: seq<Event>, p: PingTimeout): PingTimeout {
    if es == [] then p else PingAfter(es[|es| - 1], LastPing(es[..|es| - 1], p))
  }

  lemma {:induction false} PingIsLast(c: Client, es: seq<Event>)
    requires IsRun(c, es)
    ensures After(c, es).pingTimeout == LastPing(es, c.pingTimeout)
    decreases |es|
  {
    if es != [] {
      var init, e := es[..|es| - 1], es[|es| - 1];
      assert es == init + [e];
      SnocRun(c, init, e);
      PingIsLast(c, init);
      hide IsRun, After, Apply, Enabled;
      PingStep(After(c, init), e);
    }
  }

  /** The status of the ping timeout after one event. */
  function PingAfter(e: Event, p: PingTimeout): PingTimeout {
    if e == Rings(true) then Rung
    else if e == Work(Ping(true, true)) then Armed
    else if e == Work(Leave) || (e.Work? && e.w.Read? && e.w.ok && e.w.pingResp) then Off
    else p
  }

  lemma PingStep(c: Client, e: Event)
    requires MayRun(c, e)
    ensures Apply(c, e).pingTimeout == PingAfter(e, c.pingTimeout)
  {
    hide *;
    if e.Work? && AroundLoop(e.w) { PingAround(c, e.w); }
    else if e.Work? { PingInside(c, e.w); }
    else { PingElsewhere(c, e); }
  }

  lemma PingElsewhere(c: Client, e: Event)
    requires MayRun(c, e) && !e.Work?
    ensures Apply(c, e).pingTimeout == PingAfter(e, c.pingTimeout)
  {
    hide L.Ready, L.Do, Broke, Wiped;
    match e
    case MakeSure =>
    case MakeNext =>
    case Stop(_, _) =>
    case StopNext =>
    case Push(_) =>
    case PushBreak =>
    case Rings(_) =>
    case RingBreak =>
    case TimesOut =>
    case TimeoutStop =>
    case LifeStep(_) =>
    case Reconsider =>
    case AutoMake =>
    case AutoEnd =>
  }

  lemma PingAround(c: Client, w: Work)
    requires MayRun(c, Work(w)) && AroundLoop(w)
    ensures Apply(c, Work(w)).pingTimeout == PingAfter(Work(w), c.pingTimeout)
  {
    if w.Dial? { DialFacts(c, w.d); }
    hide L.Ready, L.Do, ApplyDial, ApplyTransfer, ApplyLook;
  }

  lemma PingInside(c: Client, w: Work)
    requires MayRun(c, Work(w)) && !AroundLoop(w)
    ensures Apply(c, Work(w)).pingTimeout == PingAfter(Work(w), c.pingTimeout)
  {
    if Transfers(w) { PingTransfer(c, w); }
    hide L.Ready, L.Do, ApplyAround, ApplyTransfer, Broke, Wiped;
  }

  lemma PingTransfer(c: Client, w: Work)
    requires MayRun(c, Work(w)) && Transfers(w)
    ensures ApplyWorker(c, w).pingTimeout == PingAfter(Work(w), c.pingTimeout)
  {
    hide L.Ready, L.Do, ApplyAround, ApplyLook, Calls;
    match w
    case Write(_) =>
    case Pop =>
    case Read(_, _, _) =>
    case KickedOut =>
    case Ping(_, _) =>
  }

  lemma {:induction false} SnocRun(c: Client, es: seq<Event>, e: Event)
    requires IsRun(c, es + [e])
    ensures IsRun(c, es) && MayRun(After(c, es), e) && After(c, es + [e]) == Apply(After(c, es), e)
    decreases |es|
  {
    hide Enabled, Apply;
    var fs := es + [e];
    if es == [] {
      assert fs[0] == e && fs[1..] == [];
    } else {
      assert fs[0] == es[0] && fs[1..] == es[1..] + [e];
      SnocRun(Apply(c, es[0]), es[1..], e);
    }
  }

  /** The worker is not woken for writability while it has nothing to write. */
  predicate WatchMeans(c: Client) { c.pc.Blocked? && c.pc.watch ==> c.queue != [] }

  lemma WatchStep(c: Client, e: Event)
    requires ClientInv(c) && MayRun(c, e) && WatchMeans(c)
    ensures WatchMeans(Apply(c, e))
  {
    hide *;
    if e.Work? { WatchWork(c, e.w); }
    else { MakingApart(c); WatchElsewhere(c, e); }
  }

  lemma WatchElsewhere(c: Client, e: Event)
    requires MayRun(c, e) && WatchMeans(c) && !e.Work? && (c.holder.Making? ==> c.pc.AtStart?)
    ensures WatchMeans(Apply(c, e))
  {
    hide L.Ready, L.Do, Broke, Wiped;
  }

  lemma MakingApart(c: Client)
    requires ClientInv(c)
    ensures c.holder.Making? ==> c.pc.AtStart?
  {
    LifeFacts(c.life);
    hide L.LifeInv, TraceMeans, Healthy, Ordered, StopSignalled, PingSignalled, QueueSignalled;
  }

  lemma WatchWork(c: Client, w: Work)
    requires MayRun(c, Work(w)) && WatchMeans(c)
    ensures WatchMeans(Apply(c, Work(w)))
  {
    hide L.Ready, L.Do, Broke, Wiped, Calls;
  }

  /** Over all runs of a new client: it watches for writability only while a message is queued. */
  lemma {:induction false} WatchesOnlyMessages(c: Client, es: seq<Event>)
    requires ClientInv(c) && IsRun(c, es) && WatchMeans(c)
    ensures WatchMeans(After(c, es))
    decreases |es|
  {
    if es != [] {
      EventInv(c, es[0]);
      WatchStep(c, es[0]);
      hide ClientInv, Enabled, Apply, WatchMeans;
      WatchesOnlyMessages(Apply(c, es[0]), es[1..]);
    }
  }

  /** And without a signal only its socket wakes it: NoLostWakeup says that nothing is lost by that. */
  lemma StaysAsleep(c: Client, w: Work)
    requires c.pc.Blocked? && c.rw.unread == 0 && WorkerAt(c, w)
    ensures w.Wake? && (w.ev.readable || w.ev.error || (w.ev.writable && c.pc.watch))
  {
  }

  /** A message is accepted only while a worker is connected that can write it, and only a message that
      has come in kicks the client out. */
  lemma AcceptsConnected(c: Client, m: Outgoing)
    requires ClientInv(c)
    ensures Enabled(c, Push(m)) ==> c.status == Connected && InRun(c) && c.life.thread && c.holder == Nobody
    ensures Enabled(c, Work(KickedOut)) ==> c.pc.Reading? && c.pc.ev.readable && c.status == Connected
  {
    StatusFacts(c);
    hide CoreInv, L.Ready, L.Do;
  }

  /** The steps that begin by locking `_mutex`. */
  predicate Locks(e: Event) {
    || e.MakeSure? || e.Stop? || e.Push? || e.TimeoutStop? || e.AutoMake?
    || (e.Work? && (e.w.TakeSample? || e.w.LookForMessage? || e.w.Write? || e.w.Pop? || e.w.KickedOut?))
  }

  /** No thread gets into `_mutex` while another one is inside it. */
  lemma MutexExcludes(c: Client, e: Event)
    requires Enabled(c, e) && Locks(e)
    ensures c.holder == Nobody
  {
    hide L.Ready;
  }

  /** The stop codes of a kick and of a timeout. */
  lemma StopCodes(c: Client)
    requires c.life.sys.t.ticksPerMs > 0
    ensures WorkerAt(c, KickedOut) ==> ApplyWorker(c, KickedOut).disCode == 4
    ensures Enabled(c, TimeoutStop) ==> Apply(c, TimeoutStop).disCode == 7
    ensures WorkerAt(c, LookForPing) && !c.pc.ev.error && c.pingTimeout == Rung ==>
      ApplyWorker(c, LookForPing).disCode == 8
  {
    hide L.Ready, L.Do, ApplyAround, Calls;
  }

  // ----- runs of a new client -----

  /** A request is written and answered, and the worker is back at the top of its loop. */
  lemma IsAnswered(c: Client, es: seq<Event>, u: Client) returns (fs: seq<Event>, v: Client)
    requires Leads(c, es, u) && InRun(u) && u.life.sys.t.ticksPerMs > 0 && u.holder == Nobody
    requires u.pc == Written(Events(true, true, false)) && u.queue != [] && u.inFlight > 0
    ensures Leads(c, fs, v)
    ensures v == u.(pc := Sample, queue := u.queue[1..], inFlight := u.inFlight - 1)
  {
    hide L.Ready, L.Do, Leads, ApplyAround, ApplyLook, Enabled, Apply;
    fs, v := Works(c, es, u, Pop);
    fs, v := Works(c, fs, v, Read(true, false, true));
    fs, v := Works(c, fs, v, Ping(false, true));
  }

  /** A new client connects, writes a request and reads its response; told to disconnect then, it is
      for good. */
  lemma {:induction false} AnsweredIsFinal(id: nat, code: nat) returns (before: seq<Event>, idle: Client)
    requires code != 0
    ensures Leads(New(1, 0, 1), before, idle) && idle.status == Connected && idle.wire == [Request(id, true)]
    ensures MayRun(idle, Stop(code, false)) && NeverAgain(Apply(idle, Stop(code, false)))
  {
    var c := New(1, 0, 1);
    before, idle := WritesRequest(id);
    FirstWorkerFacts();
    hide L.LifeInv, L.FirstWorker, Leads;
    before, idle := IsAnswered(c, before, idle);
    RunKeeps(before, idle);
    hide *;
    FinalWhenIdle(idle, code);
  }

  lemma RunKeeps(es: seq<Event>, u: Client)
    requires Leads(New(1, 0, 1), es, u)
    ensures ClientInv(u)
  {
    NewInv(1, 0, 1);
    RunInv(New(1, 0, 1), es);
  }

  lemma FinalWhenIdle(c: Client, code: nat)
    requires ClientInv(c) && c.holder == Nobody && c.life.thread && code != 0
    requires !c.timeoutStops && c.inFlight == 0 && c.pc.Sample?
    ensures MayRun(c, Stop(code, false)) && NeverAgain(Apply(c, Stop(code, false)))
  {
    StopIsFinalIff(c, code);
    hide ClientInv, NeverAgain, Apply;
  }

  /** A pass that finds the ping alarm rung sends a ping and waits for its answer. */
  lemma PingsOnce(c: Client, es: seq<Event>, u: Client) returns (fs: seq<Event>, v: Client)
    requires Leads(c, es, u) && InRun(u) && u.life.sys.t.ticksPerMs > 0 && u.holder == Nobody
    requires u.pc == Written(Events(true, true, false)) && u.queue != []
    ensures Leads(c, fs, v) && v == u.(pc := Sample, queue := u.queue[1..], pingTimeout := Armed)
  {
    hide L.Ready, L.Do, Leads, ApplyAround, ApplyLook, Enabled, Apply;
    fs, v := Works(c, es, u, Pop);
    fs, v := Works(c, fs, v, Read(true, false, false));
    fs, v := Works(c, fs, v, Ping(true, true));
  }

  lemma TimeoutRings(c: Client, es: seq<Event>, u: Client) returns (fs: seq<Event>, v: Client)
    requires Leads(c, es, u) && u.life.sys.t.ticksPerMs > 0 && TimerIdle(u) && u.pingTimeout == Armed
    ensures Leads(c, fs, v) && v == u.(pingTimeout := Rung, rw := Broke(u.rw, false)) && Rings(true) in fs
  {
    hide L.Ready, L.Do, Leads, Broke;
    fs, v := Step(c, es, u, Rings(true));
    fs, v := Step(c, fs, v, RingBreak);
  }

  lemma FindsTimeout(c: Client, es: seq<Event>, u: Client) returns (fs: seq<Event>, v: Client)
    requires Leads(c, es, u) && InRun(u) && u.life.sys.t.ticksPerMs > 0 && u.pc.Sample? && u.holder == Nobody
    requires u.rw.unread > 0 && u.disCode == 0 && u.pingTimeout == Rung
    ensures Leads(c, fs, v) && es <= fs
    ensures v == u.(pc := Leaving, rw := Wiped(u.rw), disCode := PING_TIMEOUT)
  {
    hide L.Ready, L.Do, Leads, ApplyAround, ApplyTransfer, Enabled, Apply, Wiped;
    fs, v := Works(c, es, u, TakeSample);
    fs, v := Works(c, fs, v, Wake(NO_EVENTS));
    fs, v := Works(c, fs, v, ClearSignal);
    assert v == u.(pc := CheckStop(NO_EVENTS), rw := Wiped(u.rw));
    fs, v := GivesUpPinging(c, fs, v);
  }

  lemma GivesUpPinging(c: Client, es: seq<Event>, u: Client) returns (fs: seq<Event>, v: Client)
    requires Leads(c, es, u) && InRun(u) && u.life.sys.t.ticksPerMs > 0 && u.pc == CheckStop(NO_EVENTS)
    requires u.disCode == 0 && u.pingTimeout == Rung
    ensures Leads(c, fs, v) && es <= fs && v == u.(pc := Leaving, disCode := PING_TIMEOUT)
  {
    hide L.Ready, L.Do, Leads, ApplyAround, ApplyTransfer, Enabled, Apply;
    fs, v := Works(c, es, u, LookForStop);
    fs, v := Works(c, fs, v, LookForPing);
  }

  /** A new client pings, nobody answers, and the ping timeout rings: the connection is given up with
      the code of a ping timeout, and the client is to reconnect. */
  lemma {:induction false} UnansweredPing(id: nat) returns (es: seq<Event>, u: Client)
    ensures Leads(New(1, 0, 1), es, u) && u.pc == Leaving && u.disCode == 8 && u.shouldReconnect
    ensures Rings(true) in es
  {
    var c := New(1, 0, 1);
    es, u := WritesRequest(id);
    FirstWorkerFacts();
    RunKeeps(es, u);
    PipeOf(u);
    hide L.LifeInv, L.FirstWorker, Leads, ClientInv, Broke;
    es, u := PingsOnce(c, es, u);
    es, u := TimeoutRings(c, es, u);
    es, u := FindsTimeout(c, es, u);
  }

  lemma PipeOf(c: Client)
    requires ClientInv(c)
    ensures Broke(c.rw, false).unread == 1
  {
    hide L.LifeInv, TraceMeans, Ordered, StopSignalled, PingSignalled, QueueSignalled;
  }

  /** A new client that asks for the host: it waits for the answer, and then for the race. */
  lemma {:induction false} ResolvesFirst() returns (es: seq<Event>, asking: Client, fs: seq<Event>, u: Client)
    ensures Leads(New(1, 0, 1), es, asking) && asking.pc == Dialing(Resolving)
    ensures Leads(asking, fs, u) && u.status == Connected && u.pc == Sample && |fs| >= 2
    ensures fs[..2] == [Work(Dial(Select(false))), Work(Dial(Heed(Again)))]
  {
    var c := New(1, 0, 1);
    es, asking := FirstWorkerRuns();
    FirstWorkerFacts();
    hide L.LifeInv, L.FirstWorker, Leads, L.Ready, L.Do, ApplyTransfer, ApplyLook, Apply, Enabled;
    es, asking := Works(c, es, asking, Announce);
    es, asking := Works(c, es, asking, Dial(Prepare(AskDns)));
    fs, u := ConnectsFrom(asking);
  }

  lemma ConnectsFrom(c: Client) returns (fs: seq<Event>, u: Client)
    requires InRun(c) && c.life.sys.t.ticksPerMs > 0 && c.pc == Dialing(Resolving) && c.conn.unread == 0
    requires c.status == Connecting
    ensures Leads(c, fs, u) && u.status == Connected && u.pc == Sample
    ensures |fs| >= 2 && fs[..2] == [Work(Dial(Select(false))), Work(Dial(Heed(Again)))]
  {
    hide Leads, L.Ready, L.Do, ApplyTransfer, ApplyLook, Apply, Enabled;
    Here(c);
    fs, u := Works(c, [], c, Dial(Select(false)));
    fs, u := Works(c, fs, u, Dial(Heed(Again)));
    var first := fs;
    assert first == [Work(Dial(Select(false))), Work(Dial(Heed(Again)))];
    fs, u := Works(c, fs, u, Dial(Select(false)));
    fs, u := Works(c, fs, u, Dial(Heed(Found)));
    fs, u := Works(c, fs, u, Dial(Login(Success)));
    fs, u := Works(c, fs, u, Judge);
    assert fs[..2] == first;
  }
}
