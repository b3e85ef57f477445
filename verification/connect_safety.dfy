/** What every connection race keeps, whatever the clock and the system calls do: the cap on
    open sockets, the order and spacing of the attempts, and the ownership of sockets. */
module ConnectSafety {
  import opened Options
  import opened ConnectRace

  // ----- reading the log -----

  function Last<T>(s: seq<T>): T
    requires s != []
  {
    s[|s| - 1]
  }

  function ButLast<T>(s: seq<T>): seq<T>
    requires s != []
  {
    s[..|s| - 1]
  }

  /** The time of the most recent attempt. */
  function LastStart(log: seq<Happening>): Option<int> {
    if log == [] then None
    else if Last(log).Started? then Some(Last(log).at)
    else LastStart(ButLast(log))
  }

  /** Some connector has failed since the most recent attempt. */
  predicate FailedSince(log: seq<Happening>) {
    log != [] && !Last(log).Started? && (Last(log).Failed? || FailedSince(ButLast(log)))
  }

  function StartCount(log: seq<Happening>): nat {
    if log == [] then 0 else StartCount(ButLast(log)) + if Last(log).Started? then 1 else 0
  }

  /** Attempts are made in address order, one per address, and two consecutive ones are at
      least `interval` apart, or `errorInterval` if a connector failed in between. */
  ghost predicate Spaced(cfg: Config, log: seq<Happening>) {
    log == [] ||
    (Spaced(cfg, ButLast(log)) &&
     (Last(log).Started? ==>
        && Last(log).i == StartCount(ButLast(log))
        && (LastStart(ButLast(log)).Some? ==>
             Last(log).at - LastStart(ButLast(log)).value >=
               if FailedSince(ButLast(log)) then cfg.errorInterval else cfg.interval)))
  }

  function Count(log: seq<Happening>, h: Happening): nat { multiset(log)[h] }

  lemma Snoc(log: seq<Happening>, h: Happening)
    ensures Last(log + [h]) == h && ButLast(log + [h]) == log
    ensures forall g :: Count(log + [h], g) == Count(log, g) + if g == h then 1 else 0
  {
  }

  /** The spacing in terms of positions in the log. */
  lemma {:induction false} SpacingMeaning(cfg: Config, log: seq<Happening>, p: nat, q: nat)
    requires Spaced(cfg, log) && p < q < |log| && log[p].Started? && log[q].Started?
    requires forall m :: p < m < q ==> !log[m].Started?
    ensures log[q].i == log[p].i + 1
    ensures (forall m :: p < m < q ==> !log[m].Failed?) ==> log[q].at - log[p].at >= cfg.interval
    ensures (exists m :: p < m < q && log[m].Failed?) ==> log[q].at - log[p].at >= cfg.errorInterval
    decreases |log|
  {
    if q < |log| - 1 {
      SpacingMeaning(cfg, ButLast(log), p, q);
    } else {
      SinceStart(ButLast(log), p);
      SpacedAt(cfg, ButLast(log), p);
    }
  }

  lemma {:induction false} SinceStart(log: seq<Happening>, p: nat)
    requires p < |log| && log[p].Started? && forall m :: p < m < |log| ==> !log[m].Started?
    ensures LastStart(log) == Some(log[p].at)
    ensures FailedSince(log) <==> exists m :: p < m < |log| && log[m].Failed?
    ensures StartCount(log) == StartCount(log[..p]) + 1
    decreases |log|
  {
    if p == |log| - 1 {
      assert ButLast(log) == log[..p];
    } else {
      SinceStart(ButLast(log), p);
      assert ButLast(log)[..p] == log[..p];
      assert forall m :: p < m < |log| - 1 ==> ButLast(log)[m] == log[m];
    }
  }

  lemma {:induction false} SpacedAt(cfg: Config, log: seq<Happening>, p: nat)
    requires Spaced(cfg, log) && p < |log| && log[p].Started?
    ensures log[p].i == StartCount(log[..p])
    decreases |log|
  {
    if p < |log| - 1 {
      SpacedAt(cfg, ButLast(log), p);
      assert ButLast(log)[..p] == log[..p];
    }
  }

  // ----- the invariant -----

  /** The scheduling variables are what the log says. */
  ghost predicate Scheduled(cfg: Config, r: Race) {
    && r.index == StartCount(r.log) <= |r.slots|
    && r.lastError == FailedSince(r.log)
    && (r.index > 0 ==> LastStart(r.log) == Some(r.lastStart))
    && (r.index == 0 ==> LastStart(r.log) == None)
    && Spaced(cfg, r.log)
  }

  ghost predicate HoldsSocket(r: Race, i: nat)
    requires i < |r.slots|
  {
    (r.slots[i].Some? && r.slots[i].value.hasSocket) || r.ret == Some(i)
  }

  /** A socket object is created at most once per address, and has been closed exactly once
      unless a connector or the caller holds it. */
  ghost predicate Owned(r: Race) {
    && (forall i :: 0 <= i < |r.slots| ==>
         && Count(r.log, Opened(i)) == Count(r.log, Closed(i)) + (if HoldsSocket(r, i) then 1 else 0)
         && Count(r.log, Opened(i)) <= 1)
    && (r.ret.Some? ==> r.ret.value < |r.slots| && r.slots[r.ret.value].None?)
  }

  /** Connectors beyond `index` are untouched; a started one is under way or gone. */
  ghost predicate Slots(r: Race) {
    && (forall i :: r.index <= i < |r.slots| ==>
         r.slots[i] == Some(Conn(Start, false, 0)) && Count(r.log, Opened(i)) == 0)
    && (forall i :: 0 <= i < |r.slots| && i < r.index && r.slots[i].Some? ==>
         (r.slots[i].value.status == Connecting || r.slots[i].value.status == StartSSL)
         && r.slots[i].value.hasSocket)
  }

  /** A slot that is empty without being the returned one belongs to a failed attempt. */
  ghost predicate Blamed(r: Race) {
    forall i :: 0 <= i < |r.slots| && r.slots[i].None? && r.ret != Some(i) ==> Failed(i) in r.log
  }

  ghost predicate RaceInv(cfg: Config, addrs: seq<Addr>, r: Race) {
    && |addrs| == |r.slots| && r.index <= |r.slots|
    && Scheduled(cfg, r)
    && Owned(r)
    && Running(r.slots) <= cfg.maxConnect
    && (r.ended.None? ==> Slots(r) && Blamed(r) && r.ret.None? && addrs != [] && !AllInvalid(r.slots))
  }

  lemma RaceBounds(cfg: Config, addrs: seq<Addr>, r: Race)
    requires RaceInv(cfg, addrs, r)
    ensures |addrs| == |r.slots| && r.index <= |r.slots|
  {
  }

  lemma {:induction false} RunningOfNone(slots: seq<Option<Conn>>)
    requires forall i :: 0 <= i < |slots| ==> slots[i].Some? ==> !slots[i].value.hasSocket
    ensures Running(slots) == 0
  {
    if slots != [] { RunningOfNone(slots[1..]); }
  }

  lemma EntryInv(cfg: Config, addrs: seq<Addr>, now: int)
    ensures RaceInv(cfg, addrs, Entry(cfg, addrs, now))
  {
    var r := Entry(cfg, addrs, now);
    RunningOfNone(r.slots);
    if addrs != [] { assert r.slots[0].Some?; }
  }

  // ----- before Select -----

  lemma {:induction false} RunningUpdate(slots: seq<Option<Conn>>, i: nat, c: Option<Conn>)
    requires i < |slots|
    ensures Running(slots[i := c])
      + (if slots[i].Some? && slots[i].value.hasSocket then 1 else 0)
      == Running(slots) + (if c.Some? && c.value.hasSocket then 1 else 0)
  {
    if i == 0 {
      assert slots[0 := c][1..] == slots[1..];
    } else {
      RunningUpdate(slots[1..], i - 1, c);
      assert slots[i := c][1..] == slots[1..][i - 1 := c];
    }
  }

  /** Nothing to do for connectors that are already under way. */
  lemma {:induction false} PreAllIdle(cfg: Config, addrs: seq<Addr>, r: Race, launch: Launch, i: nat)
    requires |addrs| == |r.slots| && r.index <= |r.slots|
    requires forall j :: i <= j < r.index && r.slots[j].Some? ==> r.slots[j].value.status != Start
    ensures PreAll(cfg, addrs, r, launch, i) == r
    decreases r.index - i
  {
    if i < r.index {
      if r.slots[i].Some? {
        assert r.slots[i := Some(r.slots[i].value)] == r.slots;
      }
      PreAllIdle(cfg, addrs, r, launch, i + 1);
    }
  }

  /** Only the connector that was just scheduled changes. */
  lemma {:induction false} PreAllFresh(cfg: Config, addrs: seq<Addr>, r: Race, launch: Launch, i: nat)
    requires |addrs| == |r.slots| && i < r.index <= |r.slots|
    requires r.slots[r.index - 1] == Some(Conn(Start, false, 0))
    requires forall j :: i <= j < r.index - 1 && r.slots[j].Some? ==> r.slots[j].value.status != Start
    ensures var k := r.index - 1;
      var c := PreSelect(Conn(Start, false, 0), addrs[k], launch, r.now);
      PreAll(cfg, addrs, r, launch, i) ==
        r.(slots := r.slots[k := Some(c)], log := if c.hasSocket then r.log + [Opened(k)] else r.log)
    decreases r.index - i
  {
    if i == r.index - 1 {
    } else {
      if r.slots[i].Some? {
        assert r.slots[i := Some(r.slots[i].value)] == r.slots;
      }
      PreAllFresh(cfg, addrs, r, launch, i + 1);
    }
  }

  /** Connectors as Select leaves them: the new one may already have failed. */
  ghost predicate MidSlots(r: Race) {
    && (forall i :: r.index <= i < |r.slots| ==>
         r.slots[i] == Some(Conn(Start, false, 0)) && Count(r.log, Opened(i)) == 0)
    && (forall i :: 0 <= i < |r.slots| && i < r.index && r.slots[i].Some? ==>
         match r.slots[i].value.status
         case Connecting => r.slots[i].value.hasSocket
         case StartSSL => r.slots[i].value.hasSocket
         case Error => !r.slots[i].value.hasSocket
         case _ => false)
  }

  ghost predicate MidInv(cfg: Config, addrs: seq<Addr>, r: Race) {
    && |addrs| == |r.slots| && r.index <= |r.slots|
    && Scheduled(cfg, r) && Owned(r) && MidSlots(r) && Blamed(r) && r.ret.None?
    && Running(r.slots) <= cfg.maxConnect
  }

  lemma ScheduleKeeps(cfg: Config, r: Race)
    requires Scheduled(cfg, r)
    ensures Scheduled(cfg, Schedule(cfg, r))
  {
    hide Running;
    Snoc(r.log, Started(r.index, r.now));
  }

  lemma OpenedKeeps(cfg: Config, r: Race, k: nat)
    requires Scheduled(cfg, r)
    ensures Scheduled(cfg, r.(log := r.log + [Opened(k)]))
    ensures Scheduled(cfg, r.(log := r.log + [Closed(k)]))
    ensures Scheduled(cfg, r.(log := r.log + [Failed(k)], lastError := true))
  {
    Snoc(r.log, Opened(k));
    Snoc(r.log, Closed(k));
    Snoc(r.log, Failed(k));
  }

  lemma BeforeSelectKeeps(cfg: Config, addrs: seq<Addr>, r: Race, input: Input)
    requires RaceInv(cfg, addrs, r) && r.ended.None?
    ensures MidInv(cfg, addrs, BeforeSelect(cfg, addrs, r, input))
  {
    if Schedule(cfg, r) == r {
      IdleKeeps(cfg, addrs, r, input);
    } else {
      FreshKeeps(cfg, addrs, r, input);
    }
  }

  lemma IdleKeeps(cfg: Config, addrs: seq<Addr>, r: Race, input: Input)
    requires RaceInv(cfg, addrs, r) && r.ended.None? && Schedule(cfg, r) == r
    ensures MidInv(cfg, addrs, BeforeSelect(cfg, addrs, r, input))
  {
    hide Spaced, LastStart, FailedSince, StartCount, Running, Count, Scheduled;
    PreAllIdle(cfg, addrs, r, input.launch, 0);
    hide PreAll;
  }

  lemma FreshKeeps(cfg: Config, addrs: seq<Addr>, r: Race, input: Input)
    requires RaceInv(cfg, addrs, r) && r.ended.None? && Schedule(cfg, r) != r
    ensures MidInv(cfg, addrs, BeforeSelect(cfg, addrs, r, input))
  {
    var m := Schedule(cfg, r);
    var k := r.index;
    ScheduleKeeps(cfg, r);
    hide Spaced, LastStart, FailedSince, StartCount, Count;
    PreAllFresh(cfg, addrs, m, input.launch, 0);
    var c := PreSelect(Conn(Start, false, 0), addrs[k], input.launch, r.now);
    RunningUpdate(r.slots, k, Some(c));
    FreshSlot(cfg, r, m, k, c);
    if c.hasSocket {
      OpenedKeeps(cfg, m, k);
    }
    hide Running, PreAll, Owned, MidSlots, Blamed;
  }

  lemma FreshSlot(cfg: Config, r: Race, m: Race, k: nat, c: Conn)
    requires Slots(r) && Owned(r) && Blamed(r) && r.ret.None? && r.index == k < |r.slots|
    requires m == r.(index := k + 1, log := r.log + [Started(k, r.now)], lastStart := m.lastStart, lastError := m.lastError)
    requires (c.status == Error && !c.hasSocket) || (c.status == Connecting && c.hasSocket)
    ensures var u := m.(slots := m.slots[k := Some(c)], log := if c.hasSocket then m.log + [Opened(k)] else m.log);
      Owned(u) && MidSlots(u) && Blamed(u)
  {
    Snoc(r.log, Started(k, r.now));
    Snoc(m.log, Opened(k));
    hide Count;
  }

  // ----- after Select -----

  /** The loop over the connectors, with those below `i` already looked at. */
  ghost predicate PartInv(cfg: Config, addrs: seq<Addr>, r: Race, i: nat) {
    && MidInv(cfg, addrs, r)
    && (forall j :: 0 <= j < |r.slots| && j < r.index && j < i && r.slots[j].Some? ==> r.slots[j].value.status != Error)
  }

  ghost predicate DoneInv(cfg: Config, addrs: seq<Addr>, r: Race) {
    && |addrs| == |r.slots| && r.index <= |r.slots|
    && Scheduled(cfg, r) && Owned(r) && Blamed(r)
    && Running(r.slots) <= cfg.maxConnect
    && (r.ret.None? ==> Slots(r))
  }

  function FailLog(r: Race, i: nat): seq<Happening>
    requires i < |r.slots| && r.slots[i].Some?
  {
    if r.slots[i].value.hasSocket then r.log + [Closed(i), Failed(i)] else r.log + [Failed(i)]
  }

  lemma FailLogCounts(r: Race, i: nat)
    requires i < |r.slots| && r.slots[i].Some?
    ensures forall h :: (Count(FailLog(r, i), h) ==
      Count(r.log, h) + (if h == Failed(i) || (h == Closed(i) && r.slots[i].value.hasSocket) then 1 else 0))
    ensures forall h :: h in r.log ==> h in FailLog(r, i)
    ensures Failed(i) in FailLog(r, i)
  {
    Snoc(r.log, Closed(i));
    Snoc(r.log, Failed(i));
    Snoc(r.log + [Closed(i)], Failed(i));
    assert r.log + [Closed(i), Failed(i)] == r.log + [Closed(i)] + [Failed(i)];
    assert FailLog(r, i)[|FailLog(r, i)| - 1] == Failed(i);
  }

  lemma FailScheduled(cfg: Config, r: Race, i: nat)
    requires Scheduled(cfg, r) && i < |r.slots| && r.slots[i].Some?
    ensures Scheduled(cfg, r.(slots := r.slots[i := None], lastError := true, log := FailLog(r, i)))
  {
    OpenedKeeps(cfg, r, i);
    OpenedKeeps(cfg, r.(log := r.log + [Closed(i)]), i);
    assert r.log + [Closed(i), Failed(i)] == r.log + [Closed(i)] + [Failed(i)];
    hide Spaced, LastStart, FailedSince, StartCount;
  }

  lemma FailOwned(r: Race, i: nat)
    requires Owned(r) && Blamed(r) && MidSlots(r) && r.ret.None? && i < r.index <= |r.slots| && r.slots[i].Some?
    ensures var u := r.(slots := r.slots[i := None], lastError := true, log := FailLog(r, i));
      Owned(u) && Blamed(u) && MidSlots(u)
  {
    FailLogCounts(r, i);
    hide Count, FailLog;
  }

  lemma FailSlot(cfg: Config, addrs: seq<Addr>, r: Race, i: nat)
    requires PartInv(cfg, addrs, r, i) && i < r.index && r.slots[i].Some?
    ensures PartInv(cfg, addrs, r.(slots := r.slots[i := None], lastError := true, log := FailLog(r, i)), i + 1)
  {
    RunningUpdate(r.slots, i, None);
    FailScheduled(cfg, r, i);
    FailOwned(r, i);
    hide Running, Scheduled, Owned, Blamed, MidSlots, FailLog;
  }

  lemma WinSlot(cfg: Config, addrs: seq<Addr>, r: Race, i: nat)
    requires PartInv(cfg, addrs, r, i) && i < r.index && r.slots[i].Some? && r.slots[i].value.hasSocket
    ensures DoneInv(cfg, addrs, r.(slots := r.slots[i := None], ret := Some(i)))
  {
    RunningUpdate(r.slots, i, None);
    hide Running, Count, Spaced, LastStart, FailedSince, StartCount;
  }

  lemma StaySlot(cfg: Config, addrs: seq<Addr>, r: Race, i: nat, c: Conn)
    requires PartInv(cfg, addrs, r, i) && i < r.index && r.slots[i].Some? && r.slots[i].value.hasSocket
    requires c.hasSocket && (c.status == Connecting || c.status == StartSSL)
    ensures PartInv(cfg, addrs, r.(slots := r.slots[i := Some(c)]), i + 1)
  {
    RunningUpdate(r.slots, i, Some(c));
    hide Running, Count, Spaced, LastStart, FailedSince, StartCount;
  }

  lemma {:induction false} AfterAllKeeps(cfg: Config, addrs: seq<Addr>, r: Race, input: Input, i: nat)
    requires PartInv(cfg, addrs, r, i)
    ensures DoneInv(cfg, addrs, AfterAll(cfg, addrs, r, input, i))
    decreases r.index - i
  {
    if i >= r.index {
      hide Running, Count, Scheduled, Owned, Blamed;
    } else if r.slots[i].None? {
      assert PartInv(cfg, addrs, r, i + 1) by { hide Running, Count, Scheduled, Owned, Blamed; }
      hide PartInv, DoneInv;
      AfterAllKeeps(cfg, addrs, r, input, i + 1);
    } else {
      var c := AfterSelect(cfg, r.slots[i].value, addrs[i], ReadyAt(input, i), r.now);
      assert c.hasSocket == r.slots[i].value.hasSocket;
      if c.status == Error {
        FailSlot(cfg, addrs, r, i);
        hide PartInv, DoneInv, MidInv;
        AfterAllKeeps(cfg, addrs, r.(slots := r.slots[i := None], lastError := true, log := FailLog(r, i)), input, i + 1);
      } else {
        assert r.slots[i].value.hasSocket && (c.status != Connected ==> c.status == Connecting || c.status == StartSSL) by {
          hide Running, Count, Scheduled, Owned, Blamed;
        }
        if c.status == Connected {
          WinSlot(cfg, addrs, r, i);
        } else {
          StaySlot(cfg, addrs, r, i, c);
          hide PartInv, DoneInv, MidInv;
          AfterAllKeeps(cfg, addrs, r.(slots := r.slots[i := Some(c)]), input, i + 1);
        }
      }
    }
  }

  // ----- leaving the loop -----

  function WithoutSlot(r: Race, i: nat): Race
    requires i < |r.slots|
  {
    var log := if r.slots[i].Some? && r.slots[i].value.hasSocket then r.log + [Closed(i)] else r.log;
    r.(slots := r.slots[i := None], log := log)
  }

  lemma ClosedScheduled(cfg: Config, r: Race, i: nat)
    requires i < |r.slots| && Scheduled(cfg, r)
    ensures Scheduled(cfg, WithoutSlot(r, i))
  {
    Snoc(r.log, Closed(i));
    hide Count;
  }

  lemma ClosedOwned(r: Race, i: nat)
    requires i < |r.slots| && Owned(r)
    ensures Owned(WithoutSlot(r, i))
  {
    Snoc(r.log, Closed(i));
    hide Spaced, LastStart, FailedSince, StartCount, Count;
  }

  lemma CloseSlot(cfg: Config, r: Race, i: nat)
    requires i < |r.slots| && r.index <= |r.slots| && Scheduled(cfg, r) && Owned(r)
    ensures var m := WithoutSlot(r, i); Scheduled(cfg, m) && Owned(m)
  {
    ClosedScheduled(cfg, r, i);
    ClosedOwned(r, i);
    hide *;
  }

  lemma {:induction false} CloseAllKeeps(cfg: Config, r: Race, i: nat)
    requires i <= |r.slots| && r.index <= |r.slots| && Scheduled(cfg, r) && Owned(r)
    requires forall j :: 0 <= j < i ==> r.slots[j].None?
    ensures var u := CloseAll(r, i);
      && Scheduled(cfg, u) && Owned(u) && AllInvalid(u.slots) && u.ret == r.ret
      && |u.slots| == |r.slots| && u.index == r.index && u.now == r.now
    decreases |r.slots| - i
  {
    if i < |r.slots| {
      CloseSlot(cfg, r, i);
      hide Scheduled, Owned, Count;
      var log := if r.slots[i].Some? && r.slots[i].value.hasSocket then r.log + [Closed(i)] else r.log;
      CloseAllKeeps(cfg, r.(slots := r.slots[i := None], log := log), i + 1);
    }
  }

  lemma {:induction false} CloseAllLog(r: Race, i: nat)
    requires i <= |r.slots|
    ensures forall h :: h in r.log ==> h in CloseAll(r, i).log
    decreases |r.slots| - i
  {
    if i < |r.slots| {
      var log := if r.slots[i].Some? && r.slots[i].value.hasSocket then r.log + [Closed(i)] else r.log;
      CloseAllLog(r.(slots := r.slots[i := None], log := log), i + 1);
      assert forall h :: h in r.log ==> h in log;
    }
  }

  lemma FinishInv(cfg: Config, addrs: seq<Addr>, r: Race, reason: Reason)
    requires |addrs| == |r.slots| && r.index <= |r.slots| && Scheduled(cfg, r) && Owned(r)
    ensures RaceInv(cfg, addrs, Finish(r, reason)) && Finish(r, reason).ret == r.ret
    ensures AllInvalid(Finish(r, reason).slots) && Finish(r, reason).index == r.index
    ensures Finish(r, reason).now == r.now && |Finish(r, reason).slots| == |r.slots|
  {
    CloseAllKeeps(cfg, r, 0);
    RunningOfNone(CloseAll(r, 0).slots);
    hide CloseAll, Spaced, StartCount, LastStart, FailedSince, Count, Running;
  }

  /** Every iteration keeps the invariant. */
  lemma RoundInv(cfg: Config, addrs: seq<Addr>, r: Race, input: Input)
    requires RaceInv(cfg, addrs, r) && r.ended.None?
    ensures RaceInv(cfg, addrs, Round(cfg, addrs, r, input))
  {
    BeforeSelectKeeps(cfg, addrs, r, input);
    var w := WhenWoken(cfg, addrs, r, input);
    assert PartInv(cfg, addrs, w, 0) by { hide BeforeSelect, SelectTimeout, Count, Running, Spaced, StartCount, LastStart, FailedSince; }
    AfterAllKeeps(cfg, addrs, w, input, 0);
    var u := AfterAll(cfg, addrs, w, input, 0);
    FinishInv(cfg, addrs, w, SelectFailed);
    FinishInv(cfg, addrs, w, Interrupted);
    FinishInv(cfg, addrs, u, Found);
    FinishInv(cfg, addrs, u, Exhausted);
    hide WhenWoken, AfterAll, Scheduled, Owned, Blamed, Slots, MidSlots, Running, Finish;
    if u.ret.None? && !AllInvalid(u.slots) && input.outcome == Woken {
      assert addrs != [];
    }
  }

  // ----- whole races -----

  /** The race after the given iterations, or as many of them as it takes to end. */
  ghost function Rounds(cfg: Config, addrs: seq<Addr>, r: Race, inputs: seq<Input>): (u: Race)
    requires RaceInv(cfg, addrs, r)
    ensures RaceInv(cfg, addrs, u)
    decreases |inputs|
  {
    if inputs == [] || r.ended.Some? then r
    else
      RoundInv(cfg, addrs, r, inputs[0]);
      Rounds(cfg, addrs, Round(cfg, addrs, r, inputs[0]), inputs[1..])
  }

  ghost function RaceAfter(cfg: Config, addrs: seq<Addr>, now: int, inputs: seq<Input>): Race {
    EntryInv(cfg, addrs, now);
    Rounds(cfg, addrs, Entry(cfg, addrs, now), inputs)
  }

  /** At every moment of every race: no more than `_maxConnect` sockets, attempts in order and
      spaced, and no socket object created twice, lost or closed twice. */
  lemma {:induction false} RaceSafety(cfg: Config, addrs: seq<Addr>, now: int, inputs: seq<Input>)
    ensures var u := RaceAfter(cfg, addrs, now, inputs);
      && Running(u.slots) <= cfg.maxConnect
      && Spaced(cfg, u.log)
      && (forall i :: 0 <= i < |addrs| ==>
           && Count(u.log, Opened(i)) <= 1
           && Count(u.log, Opened(i)) == Count(u.log, Closed(i)) + (if HoldsSocket(u, i) then 1 else 0))
  {
    hide Rounds, Running, Spaced, Count;
  }

  /** How an iteration can end the race, and what each ending means. */
  lemma RoundEnds(cfg: Config, addrs: seq<Addr>, r: Race, input: Input)
    requires RaceInv(cfg, addrs, r) && r.ended.None?
    ensures var u := Round(cfg, addrs, r, input);
      && (u.ended == Some(SelectFailed) <==> input.outcome == SelectError || input.outcome == BreakerError)
      && (u.ended == Some(Interrupted) <==> input.outcome == Broken)
      && (u.ended == Some(Found) <==> u.ret.Some?)
      && (u.ended == Some(Exhausted) ==>
           u.index == |addrs| && forall i :: 0 <= i < |addrs| ==> Failed(i) in u.log)
      && (u.ended.Some? ==> AllInvalid(u.slots) && u.ended != Some(NoAddress))
  {
    BeforeSelectKeeps(cfg, addrs, r, input);
    var w := WhenWoken(cfg, addrs, r, input);
    assert PartInv(cfg, addrs, w, 0) by { hide BeforeSelect, SelectTimeout, Count, Running, Spaced, StartCount, LastStart, FailedSince; }
    AfterAllKeeps(cfg, addrs, w, input, 0);
    var u := AfterAll(cfg, addrs, w, input, 0);
    FinishInv(cfg, addrs, w, SelectFailed);
    FinishInv(cfg, addrs, w, Interrupted);
    FinishInv(cfg, addrs, u, Found);
    FinishInv(cfg, addrs, u, Exhausted);
    if input.outcome == Woken && u.ret.None? && AllInvalid(u.slots) {
      ExhaustedMeans(u);
      CloseAllLog(u, 0);
    }
    hide WhenWoken, AfterAll, Scheduled, Owned, Blamed, Slots, Running, CloseAll;
  }

  lemma ExhaustedMeans(u: Race)
    requires u.index <= |u.slots| && Slots(u) && Blamed(u) && u.ret.None? && AllInvalid(u.slots)
    ensures u.index == |u.slots| && forall i :: 0 <= i < |u.slots| ==> Failed(i) in u.log
  {
    if u.index < |u.slots| {
      UntouchedSlot(u, u.index);
      assert false;
    }
  }

  lemma UntouchedSlot(u: Race, i: nat)
    requires Slots(u) && u.index <= i < |u.slots|
    ensures u.slots[i].Some?
  {
  }

  /** When a race is over, every socket object that was created has been closed exactly once,
      except the one that is returned, which was never closed; and nothing is returned only for
      one of the four reasons the source gives. */
  lemma {:induction false} RaceOutcome(cfg: Config, addrs: seq<Addr>, r: Race, inputs: seq<Input>)
    requires RaceInv(cfg, addrs, r) && r.ended.None?
    ensures var u := Rounds(cfg, addrs, r, inputs); u.ended.Some? ==>
      && (forall i :: 0 <= i < |addrs| ==>
           && Count(u.log, Opened(i)) <= 1
           && Count(u.log, Closed(i)) == Count(u.log, Opened(i)) - (if u.ret == Some(i) then 1 else 0))
      && (u.ret.Some? <==> u.ended == Some(Found))
      && (u.ret.None? ==>
           || u.ended == Some(SelectFailed) || u.ended == Some(Interrupted)
           || (u.ended == Some(Exhausted) && u.index == |addrs|
               && forall i :: 0 <= i < |addrs| ==> Failed(i) in u.log))
    decreases |inputs|
  {
    if inputs != [] {
      RoundInv(cfg, addrs, r, inputs[0]);
      RoundEnds(cfg, addrs, r, inputs[0]);
      var u := Round(cfg, addrs, r, inputs[0]);
      if u.ended.None? {
        hide Round, Scheduled, Owned, Slots, Blamed, Running, Count;
        RaceOutcome(cfg, addrs, u, inputs[1..]);
      } else {
        hide Round, Scheduled, Slots, Blamed, Running, Count;
        assert Rounds(cfg, addrs, r, inputs) == u;
      }
    }
  }

  /** The connector that is returned is the lowest one found connected in its round. */
  lemma {:induction false} FoundIsLowest(cfg: Config, addrs: seq<Addr>, r: Race, input: Input, i: nat)
    requires |addrs| == |r.slots| && i <= r.index <= |r.slots| && r.ret.None?
    requires AfterAll(cfg, addrs, r, input, i).ret.Some?
    ensures var k := AfterAll(cfg, addrs, r, input, i).ret.value;
      && i <= k < r.index && r.slots[k].Some?
      && AfterSelect(cfg, r.slots[k].value, addrs[k], ReadyAt(input, k), r.now).status == Connected
      && (forall j :: i <= j < k && r.slots[j].Some? ==>
           AfterSelect(cfg, r.slots[j].value, addrs[j], ReadyAt(input, j), r.now).status != Connected)
    decreases r.index - i
  {
    if i < r.index {
      if r.slots[i].None? {
        FoundIsLowest(cfg, addrs, r, input, i + 1);
      } else {
        var c := AfterSelect(cfg, r.slots[i].value, addrs[i], ReadyAt(input, i), r.now);
        if c.status == Error {
          var log := if c.hasSocket then r.log + [Closed(i), Failed(i)] else r.log + [Failed(i)];
          FoundIsLowest(cfg, addrs, r.(slots := r.slots[i := None], lastError := true, log := log), input, i + 1);
        } else if c.status != Connected {
          FoundIsLowest(cfg, addrs, r.(slots := r.slots[i := Some(c)]), input, i + 1);
        }
      }
    }
  }
}
