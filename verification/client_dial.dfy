/** Whether a disconnect interrupts a connection attempt: the waits of GetHostByName and of the race
    watch the connect breaker, and clear it behind the wait whether it was reported or not
    (socket_epoll.cpp:112-129, dns_query.cpp:74-82, complex_connect.cpp:95-110). */
module ClientDials {
  import L = WorkerLife
  import opened Breakers
  import opened ClientWorker
  import opened ClientReturns

  /** A worker that has not got past its last wait on the connect breaker. */
  predicate BeforeHeed(pc: Pc) { pc.Begin? || (pc.Dialing? && !pc.at.Exchanging?) }

  predicate InSelect(pc: Pc) { pc.Dialing? && pc.at.Selected? }

  predicate Heeds(e: Event) { e.Work? && e.w.Dial? && e.w.d.Heed? }

  /** The attempt ends before the first wait. */
  predicate GivesUp(e: Event) { e == Work(Dial(Prepare(NoNet))) || e == Work(Dial(Prepare(NoHost))) }

  predicate WithoutHeed(es: seq<Event>) { forall i :: 0 <= i < |es| ==> !Heeds(es[i]) && !GivesUp(es[i]) }

  /** A run up to the first Clear behind a wait, and what the race comes to there. */
  function HeedAfter(es: seq<Event>, next: Progress): seq<Event> { es + [Work(Dial(Heed(next)))] }

  /** The Break of line 158 is due. */
  predicate BreakDue(c: Client) { c.holder.Stopping? && c.holder.stage != 0 }

  /** The byte is in the pipe. A wait that had returned before has reported what it has; any other one
      reports it, unless epoll_wait fails. */
  predicate Signalled(c: Client, was: Pc) {
    && InRun(c) && BeforeHeed(c.pc) && c.conn.open && c.conn.broken && c.conn.unread == 1
    && (if InSelect(was) then c.pc == was else InSelect(c.pc) ==> c.pc.at.heard == !c.pc.at.failed)
    && (was.Dialing? && was.at.Racing? ==>
         c.pc.Dialing? && (c.pc.at.Racing? || (c.pc.at.Selected? && c.pc.at.racing)))
  }

  lemma BreakSignals(c: Client)
    requires ClientInv(c) && InRun(c) && BeforeHeed(c.pc) && BreakDue(c) && MayRun(c, StopNext)
    ensures Signalled(Apply(c, StopNext), c.pc)
  {
    HandlingMeans(c);
    ConnFacts(c);
    hide ClientInv, L.Ready, L.Do;
  }

  lemma ConnFacts(c: Client)
    requires ClientInv(c)
    ensures Healthy(c.conn)
  {
    hide L.LifeInv, TraceMeans, Ordered, StopSignalled, PingSignalled, QueueSignalled;
  }

  lemma SignalStays(c: Client, e: Event, was: Pc)
    requires ClientInv(c) && MayRun(c, e) && Signalled(c, was) && !Heeds(e) && !GivesUp(e)
    ensures Signalled(Apply(c, e), was)
  {
    hide *;
    if e.Work? { StaysInWork(c, e.w, was); } else { StaysElsewhere(c, e, was); }
  }

  lemma StaysInWork(c: Client, w: Work, was: Pc)
    requires MayRun(c, Work(w)) && Signalled(c, was) && !Heeds(Work(w)) && !GivesUp(Work(w))
    ensures Signalled(Apply(c, Work(w)), was)
  {
    hide L.Ready, L.Do, ApplyTransfer, ApplyLook, Wiped;
  }

  lemma StaysElsewhere(c: Client, e: Event, was: Pc)
    requires ClientInv(c) && MayRun(c, e) && Signalled(c, was) && !e.Work?
    ensures Signalled(Apply(c, e), was)
  {
    ConnKept(c, e);
    hide *;
    SameSignal(c, Apply(c, e), was);
  }

  lemma SameSignal(c: Client, u: Client, was: Pc)
    requires Signalled(c, was) && InRun(u) && u.pc == c.pc && u.conn == c.conn
    ensures Signalled(u, was)
  {
  }

  lemma ConnKept(c: Client, e: Event)
    requires ClientInv(c) && MayRun(c, e) && InRun(c) && BeforeHeed(c.pc) && c.conn.broken && !e.Work?
    ensures var u := Apply(c, e); InRun(u) && u.pc == c.pc && u.conn == c.conn
  {
    NoAutoBeforeWorker(c);
    HandlingMeans(c);
    if e.LifeStep? { RunsOn(c, e.a); }
    else if e.AutoEnd? { ReconnectRunsOn(c.life); }
    else if e.StopNext? { StopKeepsConn(c); }
    hide ClientInv, L.Ready, L.Do, ApplyLife, ApplyMake, ApplyStop, Reset, Broke;
  }

  lemma StopKeepsConn(c: Client)
    requires c.holder.Stopping? && !c.holder.self && c.conn.broken
    ensures var u := ApplyStop(c); u.life == c.life && u.pc == c.pc && u.conn == c.conn
  {
  }

  lemma RunsOn(c: Client, a: L.Act)
    requires ClientInv(c) && MayRun(c, LifeStep(a)) && InRun(c)
    ensures var u := ApplyLife(c, a); InRun(u) && u.pc == c.pc && u.conn == c.conn
  {
    CoreLife(c);
    LifeStepKeeps(c.life, a);
    hide ClientInv, L.LifeInv, L.Ready, L.Do;
  }

  lemma ReconnectRunsOn(l: L.Life)
    requires l.sys.t.ticksPerMs > 0 && L.Ready(l, L.Reconnect)
    ensures L.Do(l, L.Reconnect).worker == l.worker
  {
  }

  lemma {:induction false} SignalledUntil(c: Client, es: seq<Event>, was: Pc)
    requires ClientInv(c) && IsRun(c, es) && Signalled(c, was) && WithoutHeed(es)
    ensures Signalled(After(c, es), was)
    decreases |es|
  {
    if es != [] {
      EventInv(c, es[0]);
      SignalStays(c, es[0], was);
      hide ClientInv, Enabled, Apply, Signalled, Heeds, GivesUp;
      SignalledUntil(Apply(c, es[0]), es[1..], was);
    }
  }

  lemma {:induction false} LastStep(c: Client, es: seq<Event>, e: Event)
    requires IsRun(c, es + [e])
    ensures IsRun(c, es) && MayRun(After(c, es), e) && After(c, es + [e]) == Apply(After(c, es), e)
    decreases |es|
  {
    hide Enabled, Apply;
    var fs := es + [e];
    if es == [] {
      assert fs[0] == e && fs[1..] == [];
    } else {
      assert fs[0] == es[0] && fs[1..] == es[1..] + [e];
      LastStep(Apply(c, es[0]), es[1..], e);
    }
  }

  /** Over all runs from a Break of the connect breaker to the next Clear of it by the attempt: the wait
      before that Clear reports the disconnect iff it had reported it already, or had not returned yet
      and does not fail. The attempt ends there iff it is reported, or the race ends anyway. */
  lemma {:induction false} SignalHeardIff(c: Client, es: seq<Event>, next: Progress)
    requires ClientInv(c) && InRun(c) && BeforeHeed(c.pc) && BreakDue(c) && MayRun(c, StopNext)
    requires IsRun(Apply(c, StopNext), HeedAfter(es, next)) && WithoutHeed(es)
    ensures IsRun(Apply(c, StopNext), es)
    ensures var s := After(Apply(c, StopNext), es).pc; var v := After(Apply(c, StopNext), HeedAfter(es, next));
      && InSelect(s) && (InSelect(c.pc) ==> s == c.pc)
      && (c.pc.Dialing? && c.pc.at.Racing? ==> s.at.racing)
      && (s.at.heard <==> if InSelect(c.pc) then c.pc.at.heard else !s.at.failed)
      && (v.pc == Judged(Failed) <==> s.at.heard || (s.at.racing && (s.at.failed || next == Exhausted)))
      && (v.pc != Judged(Failed) ==> v.pc == Dialing(if s.at.racing && next == Found then Exchanging else Racing))
      && v.conn.unread == 0
  {
    var u, e := Apply(c, StopNext), Work(Dial(Heed(next)));
    EventInv(c, StopNext);
    BreakSignals(c);
    LastStep(u, es, e);
    SignalledUntil(u, es, c.pc);
    HeedIs(After(u, es), next, c.pc);
    hide ClientInv, IsRun, After, Apply, Enabled, InRun;
  }

  lemma HeedIs(s: Client, next: Progress, was: Pc)
    requires MayRun(s, Work(Dial(Heed(next)))) && Signalled(s, was)
    ensures InSelect(s.pc) && Apply(s, Work(Dial(Heed(next)))).conn.unread == 0
    ensures var v := Apply(s, Work(Dial(Heed(next))));
      && (v.pc == Judged(Failed) <==> s.pc.at.heard || (s.pc.at.racing && (s.pc.at.failed || next == Exhausted)))
      && (v.pc != Judged(Failed) ==>
           v.pc == Dialing(if s.pc.at.racing && next == Found then Exchanging else Racing))
  {
    hide L.Ready, L.Do, ApplyTransfer, ApplyLook;
  }

  /** However all threads go on, the next look at a wait is the last of the attempt. */
  ghost predicate NextSelectIsLast(c: Client) {
    forall es, next :: IsRun(c, HeedAfter(es, next)) && WithoutHeed(es) ==>
      After(c, HeedAfter(es, next)).pc == Judged(Failed)
  }

  /** The disconnect cannot be missed: the race is between two waits, or in one that has reported a
      disconnect or has failed. */
  predicate Caught(at: Stage) {
    at.Racing? || (at.Selected? && (at.heard || (at.racing && at.failed)))
  }

  /** The Break of a disconnect makes the next Select of the race its last, whatever happens, exactly
      when it does not fall between a wait that saw nothing and its Clear. While the host is resolved
      it is never sure: that wait may fail, which ends nothing, and its Clear takes the byte. */
  lemma {:induction false} NextSelectIsLastIff(c: Client)
    requires ClientInv(c) && InRun(c) && BreakDue(c) && MayRun(c, StopNext)
    requires c.pc.Dialing? && (c.pc.at.Resolving? || c.pc.at.Racing? || c.pc.at.Selected?)
    ensures NextSelectIsLast(Apply(c, StopNext)) <==> Caught(c.pc.at)
  {
    var u := Apply(c, StopNext);
    if Caught(c.pc.at) {
      forall es, next | IsRun(u, HeedAfter(es, next)) && WithoutHeed(es)
        ensures After(u, HeedAfter(es, next)).pc == Judged(Failed)
      {
        SignalHeardIff(c, es, next);
        hide ClientInv, IsRun, After, Apply, Enabled;
      }
    } else {
      var es := MissesIt(c);
      hide ClientInv, IsRun, After, Apply, Enabled;
      assert After(u, HeedAfter(es, Again)).pc != Judged(Failed);
    }
  }

  lemma MissesIt(c: Client) returns (es: seq<Event>)
    requires ClientInv(c) && InRun(c) && BreakDue(c) && MayRun(c, StopNext)
    requires c.pc.Dialing? && (c.pc.at.Resolving? || (c.pc.at.Selected? && !Caught(c.pc.at)))
    ensures WithoutHeed(es) && var u := Apply(c, StopNext);
      IsRun(u, HeedAfter(es, Again)) && After(u, HeedAfter(es, Again)).pc == Dialing(Racing)
  {
    var u := Apply(c, StopNext);
    EventInv(c, StopNext);
    BreakSignals(c);
    StatusFacts(u);
    Here(u);
    assert u.pc == c.pc by { HandlingMeans(c); hide ClientInv; }
    hide ClientInv, IsRun, After, Apply, Enabled, Leads, L.Ready, L.Do, ApplyTransfer, ApplyLook;
    var v := u;
    es := [];
    if c.pc.at.Resolving? {
      es, v := Works(u, es, u, Dial(Select(true)));
    }
    var fs, w := Works(u, es, v, Dial(Heed(Again)));
    assert fs == HeedAfter(es, Again) && Leads(u, fs, w);
  }

  // ----- a run of a new client -----

  /** A new client is told to disconnect while a wait of its race has returned and the breaker is not
      cleared yet: the race goes on, finds a socket, and the client reports that it is connected, with
      the stop code set. */
  lemma {:induction false} MissedStop(code: nat)
    returns (before: seq<Event>, window: Client, after: seq<Event>, u: Client)
    ensures Leads(New(1, 0, 1), before, window) && window.pc == Dialing(Selected(true, false, false))
    ensures MayRun(window, Stop(code, false)) && Leads(Apply(window, Stop(code, false)), after, u)
    ensures Unasked(after) && u.status == Connected && u.disCode == code && u.trace == [Connecting, Connected]
  {
    before, window := FirstWait();
    FirstWorkerFacts();
    var c := Apply(window, Stop(code, false));
    assert c == window.(disCode := code, shouldReconnect := false, holder := Stopping(0, false));
    hide L.Ready, L.Do, L.LifeInv, L.FirstWorker, Leads, Unasked, Apply, Enabled;
    after, u := BothBreaks(c);
    after, u := GoesOnRacing(c, after, u);
    after, u := Wins(c, after, u);
    after, u := LogsIn(c, after, u);
  }

  /** A new client in the first wait of its race. */
  lemma FirstWait() returns (es: seq<Event>, u: Client)
    ensures Leads(New(1, 0, 1), es, u)
    ensures u == New(1, 0, 1).(life := L.FirstWorker(), pc := Dialing(Selected(true, false, false)),
      shouldReconnect := true, spawned := 1, status := Connecting, trace := [Connecting])
  {
    var c := New(1, 0, 1);
    es, u := FirstWorkerRuns();
    FirstWorkerFacts();
    hide L.Ready, L.Do, L.LifeInv, L.FirstWorker, Leads, ApplyTransfer, ApplyLook, Apply, Enabled;
    es, u := Works(c, es, u, Announce);
    es, u := Prepares(c, es, u);
    es, u := Works(c, es, u, Dial(Select(false)));
  }

  /** DisconnectAsync from line 153 on. */
  lemma BothBreaks(c: Client) returns (es: seq<Event>, u: Client)
    requires c.holder == Stopping(0, false) && c.life.sys.t.ticksPerMs > 0
    ensures Leads(c, es, u) && Unasked(es)
    ensures u == c.(rw := Broke(c.rw, false), conn := Broke(c.conn, false), holder := Nobody)
  {
    hide L.Ready, L.Do, Leads, Unasked, Broke;
    Here(c);
    es, u := Step(c, [], c, StopNext);
    es, u := Step(c, es, u, StopNext);
  }

  lemma GoesOnRacing(c: Client, es: seq<Event>, u: Client) returns (fs: seq<Event>, v: Client)
    requires Leads(c, es, u) && Unasked(es) && InRun(u) && u.life.sys.t.ticksPerMs > 0
    requires u.pc == Dialing(Selected(true, false, false))
    ensures Leads(c, fs, v) && Unasked(fs) && v == u.(pc := Dialing(Racing), conn := Wiped(u.conn))
  {
    hide L.Ready, L.Do, Leads, Unasked, ApplyTransfer, ApplyLook, Enabled, Apply, Wiped;
    fs, v := Works(c, es, u, Dial(Heed(Again)));
  }

  lemma LogsIn(c: Client, es: seq<Event>, u: Client) returns (fs: seq<Event>, v: Client)
    requires Leads(c, es, u) && Unasked(es) && InRun(u) && u.life.sys.t.ticksPerMs > 0
    requires u.pc == Dialing(Exchanging) && u.status == Connecting
    ensures Leads(c, fs, v) && Unasked(fs)
    ensures v == u.(pc := Sample, status := Connected, trace := u.trace + [Connected],
                    verdicts := u.verdicts + [Success])
  {
    hide L.Ready, L.Do, Leads, Unasked, ApplyTransfer, ApplyLook, Enabled, Apply;
    fs, v := Works(c, es, u, Dial(Login(Success)));
    fs, v := Works(c, fs, v, Judge);
  }
}
