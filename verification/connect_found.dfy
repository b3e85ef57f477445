/** What a race makes of the reports of Select, in terms of the reports themselves: which connector
    is returned, and which ones are given up (connect/tcp_connector.cpp:53-135,
    connect/complex_connect.cpp:112-147). */
module ConnectFound {
  import opened Options
  import opened ConnectRace
  import opened ConnectSafety

  /** Its TCP connection is there: the socket of a plain address is reported writable and without
      error, and can be made blocking again. */
  predicate Answers(c: Conn, addr: Addr, ready: Ready) {
    c.status == Connecting && c.hasSocket && !addr.isTls && !ready.error && ready.writable && ready.blockOk
  }

  /** It is given up: it could not be launched, or its socket has an error, or cannot be made
      blocking, or has been silent for as long as it may. */
  predicate GivenUp(cfg: Config, c: Conn, addr: Addr, ready: Ready, now: int) {
    || c.status == Error
    || (c.status == Connecting
        && (!c.hasSocket || ready.error || (ready.writable && !addr.isTls && !ready.blockOk)
            || (!ready.writable && now >= c.start + cfg.timeout)))
  }

  /** No connector keeps the status of one that has been returned. */
  ghost predicate NoneConnected(slots: seq<Option<Conn>>, from: nat) {
    forall i :: from <= i < |slots| && slots[i].Some? ==> slots[i].value.status != Connected
  }

  predicate WinsAt(slots: seq<Option<Conn>>, addrs: seq<Addr>, input: Input, k: nat)
    requires |addrs| == |slots|
  {
    k < |slots| && slots[k].Some? && Answers(slots[k].value, addrs[k], ReadyAt(input, k))
  }

  predicate LosesAt(cfg: Config, slots: seq<Option<Conn>>, addrs: seq<Addr>, input: Input, now: int, k: nat)
    requires |addrs| == |slots|
  {
    k < |slots| && slots[k].Some? && GivenUp(cfg, slots[k].value, addrs[k], ReadyAt(input, k), now)
  }

  /** `k` is the first of the started connectors, from `i` on, that answers. */
  ghost predicate FirstWinner(r: Race, addrs: seq<Addr>, input: Input, i: nat, k: nat)
    requires |addrs| == |r.slots|
  {
    i <= k < r.index && WinsAt(r.slots, addrs, input, k) && forall j :: i <= j < k ==> !WinsAt(r.slots, addrs, input, j)
  }

  lemma JudgedIs(cfg: Config, c: Conn, addr: Addr, ready: Ready, now: int)
    requires c.status != Connected
    ensures var d := AfterSelect(cfg, c, addr, ready, now);
      && (d.status == Connected <==> Answers(c, addr, ready))
      && (d.status == Error <==> GivenUp(cfg, c, addr, ready, now))
      && d.hasSocket == c.hasSocket && d.start == c.start
      && (d.status == StartSSL <==>
           c.status == StartSSL || (c.status == Connecting && c.hasSocket && addr.isTls && !ready.error && ready.writable))
      && (d.status == c.status || d.status == Connected || d.status == Error || d.status == StartSSL)
  {
  }

  /** What lines 112-137 make of a slot that is reached. */
  ghost predicate SlotJudged(cfg: Config, before: Conn, addr: Addr, ready: Ready, now: int, after: Option<Conn>) {
    if Answers(before, addr, ready) || GivenUp(cfg, before, addr, ready, now) then after == None
    else after.Some? && after.value.hasSocket == before.hasSocket && after.value.start == before.start
         && after.value.status == (if before.status == Connecting && ready.writable then StartSSL else before.status)
  }

  /** One turn of the loop of lines 112-137, which has not found a connector yet. */
  ghost function Turn(cfg: Config, addrs: seq<Addr>, r: Race, input: Input, i: nat): Race
    requires |addrs| == |r.slots| && i < r.index <= |r.slots|
  {
    if r.slots[i].None? then r
    else
      var c := AfterSelect(cfg, r.slots[i].value, addrs[i], ReadyAt(input, i), r.now);
      if c.status == Error then
        r.(slots := r.slots[i := None], lastError := true,
           log := if c.hasSocket then r.log + [Closed(i), Failed(i)] else r.log + [Failed(i)])
      else if c.status == Connected then r.(slots := r.slots[i := None], ret := Some(i))
      else r.(slots := r.slots[i := Some(c)])
  }

  lemma TurnIs(cfg: Config, addrs: seq<Addr>, r: Race, input: Input, i: nat)
    requires |addrs| == |r.slots| && i < r.index <= |r.slots| && r.ret.None? && NoneConnected(r.slots, i)
    ensures var u := Turn(cfg, addrs, r, input, i);
      && AfterAll(cfg, addrs, r, input, i) == (if u.ret.Some? then u else AfterAll(cfg, addrs, u, input, i + 1))
      && |u.slots| == |r.slots| && u.index == r.index && u.now == r.now && NoneConnected(u.slots, i + 1)
      && (forall j :: 0 <= j < |r.slots| && j != i ==> u.slots[j] == r.slots[j])
      && u.ret == (if WinsAt(r.slots, addrs, input, i) then Some(i) else None)
      && (if r.slots[i].Some? then SlotJudged(cfg, r.slots[i].value, addrs[i], ReadyAt(input, i), r.now, u.slots[i])
          else u.slots[i] == None)
      && (u.lastError <==> r.lastError || LosesAt(cfg, r.slots, addrs, input, r.now, i))
      && (LosesAt(cfg, r.slots, addrs, input, r.now, i) ==> u.log == FailLog(r, i))
      && (!LosesAt(cfg, r.slots, addrs, input, r.now, i) ==> u.log == r.log)
  {
    if r.slots[i].Some? {
      JudgedIs(cfg, r.slots[i].value, addrs[i], ReadyAt(input, i), r.now);
      hide AfterSelect;
    }
  }

  /** A turn leaves what it says about the connectors behind it. */
  lemma TurnElsewhere(cfg: Config, addrs: seq<Addr>, r: Race, u: Race, input: Input, i: nat, j: nat)
    requires |addrs| == |r.slots| == |u.slots| && u.now == r.now && j != i
    requires j < |r.slots| ==> u.slots[j] == r.slots[j]
    ensures WinsAt(u.slots, addrs, input, j) == WinsAt(r.slots, addrs, input, j)
    ensures LosesAt(cfg, u.slots, addrs, input, u.now, j) == LosesAt(cfg, r.slots, addrs, input, r.now, j)
  {
  }

  /** Exactly the first connector that answers is returned. */
  lemma {:induction false} RetIff(cfg: Config, addrs: seq<Addr>, r: Race, input: Input, i: nat)
    requires |addrs| == |r.slots| && i <= r.index <= |r.slots| && r.ret.None? && NoneConnected(r.slots, i)
    ensures forall k: nat :: AfterAll(cfg, addrs, r, input, i).ret == Some(k) <==> FirstWinner(r, addrs, input, i, k)
    decreases r.index - i
  {
    hide AfterAll, WinsAt, LosesAt, SlotJudged, Turn, NoneConnected;
    if i < r.index {
      TurnIs(cfg, addrs, r, input, i);
      var u := Turn(cfg, addrs, r, input, i);
      if u.ret.None? {
        RetIff(cfg, addrs, u, input, i + 1);
        forall j: nat | j != i ensures WinsAt(u.slots, addrs, input, j) == WinsAt(r.slots, addrs, input, j) {
          TurnElsewhere(cfg, addrs, r, u, input, i, j);
        }
      }
    } else {
      NothingAfter(cfg, addrs, r, input, i);
    }
  }

  lemma NothingAfter(cfg: Config, addrs: seq<Addr>, r: Race, input: Input, i: nat)
    requires |addrs| == |r.slots| && i == r.index <= |r.slots|
    ensures AfterAll(cfg, addrs, r, input, i) == r
  {
  }

  /** The connectors that are reached: all the started ones up to the one that is returned. */
  predicate Reached(index: nat, ret: Option<nat>, j: nat) {
    j < index && (ret.Some? ==> j <= ret.value)
  }

  /** Each slot that is reached is judged by its own report, and no other changes. */
  lemma {:induction false} SlotsIff(cfg: Config, addrs: seq<Addr>, r: Race, input: Input, i: nat)
    requires |addrs| == |r.slots| && i <= r.index <= |r.slots| && r.ret.None? && NoneConnected(r.slots, i)
    ensures var u := AfterAll(cfg, addrs, r, input, i);
      && |u.slots| == |r.slots|
      && (forall j :: 0 <= j < |r.slots| && (j < i || !Reached(r.index, u.ret, j) || r.slots[j].None?) ==>
           u.slots[j] == r.slots[j])
      && (forall j :: i <= j < |r.slots| && Reached(r.index, u.ret, j) && r.slots[j].Some? ==>
           SlotJudged(cfg, r.slots[j].value, addrs[j], ReadyAt(input, j), r.now, u.slots[j]))
    decreases r.index - i
  {
    hide AfterAll, WinsAt, LosesAt, SlotJudged, Turn, NoneConnected;
    if i < r.index {
      RetIff(cfg, addrs, r, input, i);
      TurnIs(cfg, addrs, r, input, i);
      var u := Turn(cfg, addrs, r, input, i);
      if u.ret.None? { SlotsIff(cfg, addrs, u, input, i + 1); }
    } else {
      NothingAfter(cfg, addrs, r, input, i);
    }
  }

  /** Exactly the connectors that are reached and given up are logged as failed, each with its socket
      closed if it has one, and the next address may start after the error interval. */
  lemma {:induction false} FailuresIff(cfg: Config, addrs: seq<Addr>, r: Race, input: Input, i: nat)
    requires |addrs| == |r.slots| && i <= r.index <= |r.slots| && r.ret.None? && NoneConnected(r.slots, i)
    ensures var u := AfterAll(cfg, addrs, r, input, i);
      && (u.lastError <==> r.lastError || SomeLost(cfg, addrs, r, u, input, i))
      && (forall j: nat :: Failed(j) in u.log <==> Failed(j) in r.log || Lost(cfg, addrs, r, u, input, i, j))
      && (forall j: nat :: Closed(j) in u.log <==>
           Closed(j) in r.log || (Lost(cfg, addrs, r, u, input, i, j) && r.slots[j].value.hasSocket))
    decreases r.index - i
  {
    hide AfterAll, WinsAt, SlotJudged, Turn, NoneConnected, LosesAt;
    if i < r.index {
      TurnIs(cfg, addrs, r, input, i);
      var v := Turn(cfg, addrs, r, input, i);
      var u := AfterAll(cfg, addrs, r, input, i);
      RetIff(cfg, addrs, r, input, i);
      if v.ret.None? {
        FailuresIff(cfg, addrs, v, input, i + 1);
        forall j: nat ensures
          Lost(cfg, addrs, r, u, input, i, j) <==>
          (j == i && LosesAt(cfg, r.slots, addrs, input, r.now, i)) || LostFrom(cfg, addrs, v, u, input, i, j)
        {
          if j != i { TurnElsewhere(cfg, addrs, r, v, input, i, j); }
        }
        assert LosesAt(cfg, r.slots, addrs, input, r.now, i) ==> Lost(cfg, addrs, r, u, input, i, i);
        SomeLostStep(cfg, addrs, r, v, u, input, i);
      } else {
        NotBoth(cfg, addrs, r, input, i);
        assert forall j: nat :: !Lost(cfg, addrs, r, u, input, i, j);
      }
      LostHasSlot(cfg, addrs, r, input, i);
    } else {
      NothingAfter(cfg, addrs, r, input, i);
    }
  }

  ghost predicate Lost(cfg: Config, addrs: seq<Addr>, r: Race, u: Race, input: Input, i: nat, j: nat)
    requires |addrs| == |r.slots|
  {
    i <= j && Reached(r.index, u.ret, j) && LosesAt(cfg, r.slots, addrs, input, r.now, j)
  }

  ghost predicate SomeLost(cfg: Config, addrs: seq<Addr>, r: Race, u: Race, input: Input, i: nat)
    requires |addrs| == |r.slots|
  {
    exists j: nat :: Lost(cfg, addrs, r, u, input, i, j)
  }

  lemma SomeLostStep(cfg: Config, addrs: seq<Addr>, r: Race, v: Race, u: Race, input: Input, i: nat)
    requires |addrs| == |r.slots| == |v.slots|
    requires forall j: nat :: Lost(cfg, addrs, r, u, input, i, j) <==>
      (j == i && LosesAt(cfg, r.slots, addrs, input, r.now, i)) || LostFrom(cfg, addrs, v, u, input, i, j)
    requires LosesAt(cfg, r.slots, addrs, input, r.now, i) ==> Lost(cfg, addrs, r, u, input, i, i)
    ensures SomeLost(cfg, addrs, r, u, input, i) <==>
      LosesAt(cfg, r.slots, addrs, input, r.now, i) || SomeLost(cfg, addrs, v, u, input, i + 1)
  {
    hide LosesAt, Lost;
    var n := i + 1;
    if j: nat :| Lost(cfg, addrs, v, u, input, n, j) {
      assert LostFrom(cfg, addrs, v, u, input, i, j);
    }
    if j: nat :| Lost(cfg, addrs, r, u, input, i, j) {
      assert j != i ==> LostFrom(cfg, addrs, v, u, input, i, j);
    }
  }

  ghost predicate LostFrom(cfg: Config, addrs: seq<Addr>, v: Race, u: Race, input: Input, i: nat, j: nat)
    requires |addrs| == |v.slots|
  {
    Lost(cfg, addrs, v, u, input, i + 1, j)
  }

  lemma NotBoth(cfg: Config, addrs: seq<Addr>, r: Race, input: Input, i: nat)
    requires |addrs| == |r.slots|
    ensures !(WinsAt(r.slots, addrs, input, i) && LosesAt(cfg, r.slots, addrs, input, r.now, i))
  {
  }

  lemma LostHasSlot(cfg: Config, addrs: seq<Addr>, r: Race, input: Input, i: nat)
    requires |addrs| == |r.slots|
    ensures LosesAt(cfg, r.slots, addrs, input, r.now, i) ==> i < |r.slots| && r.slots[i].Some?
  {
  }

  // ----- one iteration -----

  /** It is time for the next address: there is one, there is room for a socket, and the interval
      since the last start is over, or the error interval if a connector has failed since. */
  predicate StartsNow(cfg: Config, r: Race) {
    && r.index < |r.slots| && Running(r.slots) < cfg.maxConnect
    && r.now - r.lastStart >= (if r.lastError then cfg.errorInterval else cfg.interval)
  }

  /** The slots when Select returns: the next address, when it is its time, has a socket under way iff
      the address is usable and the system has launched it. */
  lemma StartMeans(cfg: Config, addrs: seq<Addr>, r: Race, input: Input)
    requires RaceInv(cfg, addrs, r) && r.ended.None?
    ensures var w := WhenWoken(cfg, addrs, r, input);
      && |w.slots| == |r.slots| && w.ret == r.ret && w.now > r.now
      && (!StartsNow(cfg, r) ==> w.slots == r.slots && w.index == r.index && w.log == r.log)
      && (StartsNow(cfg, r) ==>
           && w.index == r.index + 1 && w.lastStart == r.now && !w.lastError && Started(r.index, r.now) in w.log
           && (forall i :: 0 <= i < |r.slots| && i != r.index ==> w.slots[i] == r.slots[i])
           && w.slots[r.index].Some? && var c := w.slots[r.index].value;
              if input.launch == Launched && addrs[r.index].hasIp then c == Conn(Connecting, true, r.now)
              else c.status == Error && !c.hasSocket
                   && c.start == (if input.launch == Refused && addrs[r.index].hasIp then r.now else 0))
  {
    var m := Schedule(cfg, r);
    hide Running, Scheduled, Owned, Blamed, Count, SelectTimeout;
    if StartsNow(cfg, r) {
      PreAllFresh(cfg, addrs, m, input.launch, 0);
    } else {
      PreAllIdle(cfg, addrs, m, input.launch, 0);
    }
    hide PreAll;
  }

  lemma NoneReturned(cfg: Config, addrs: seq<Addr>, r: Race, input: Input)
    requires RaceInv(cfg, addrs, r) && r.ended.None?
    ensures var w := WhenWoken(cfg, addrs, r, input);
      |w.slots| == |addrs| && w.index <= |w.slots| && w.ret.None? && NoneConnected(w.slots, 0)
  {
    BeforeSelectKeeps(cfg, addrs, r, input);
    hide BeforeSelect, Scheduled, Owned, Blamed, Running, Count, SelectTimeout;
  }

  lemma {:induction false} CloseAllKeepsRet(r: Race, i: nat)
    requires i <= |r.slots|
    ensures CloseAll(r, i).ret == r.ret
    decreases |r.slots| - i
  {
    if i < |r.slots| {
      var log := if r.slots[i].Some? && r.slots[i].value.hasSocket then r.log + [Closed(i)] else r.log;
      CloseAllKeepsRet(r.(slots := r.slots[i := None], log := log), i + 1);
    }
  }

  /** An iteration returns connector `k` iff Select neither failed nor was broken, and `k` is the first
      of the started connectors that answers. */
  lemma {:induction false} RoundFindsIff(cfg: Config, addrs: seq<Addr>, r: Race, input: Input, k: nat)
    requires RaceInv(cfg, addrs, r) && r.ended.None?
    ensures var w := WhenWoken(cfg, addrs, r, input); var u := Round(cfg, addrs, r, input);
      |w.slots| == |addrs|
      && (u.ret == Some(k) <==> input.outcome == Woken && FirstWinner(w, addrs, input, 0, k))
      && (u.ret == Some(k) ==> u.ended == Some(Found))
  {
    NoneReturned(cfg, addrs, r, input);
    var w := WhenWoken(cfg, addrs, r, input);
    RetIff(cfg, addrs, w, input, 0);
    var u := AfterAll(cfg, addrs, w, input, 0);
    CloseAllKeepsRet(w, 0);
    CloseAllKeepsRet(u, 0);
    RoundEnds(cfg, addrs, r, input);
    hide RaceInv, WhenWoken, AfterAll, CloseAll, FirstWinner, AllInvalid;
  }

  /** While the race goes on, an iteration has judged every started connector by its own report. */
  lemma {:induction false} RoundJudges(cfg: Config, addrs: seq<Addr>, r: Race, input: Input, j: nat)
    requires RaceInv(cfg, addrs, r) && r.ended.None? && Round(cfg, addrs, r, input).ended.None?
    ensures var w := WhenWoken(cfg, addrs, r, input); var u := Round(cfg, addrs, r, input);
      |w.slots| == |u.slots| == |addrs|
      && (j < |addrs| && (j >= w.index || w.slots[j].None?) ==> u.slots[j] == w.slots[j])
      && (j < |addrs| && j < w.index && w.slots[j].Some? ==>
           SlotJudged(cfg, w.slots[j].value, addrs[j], ReadyAt(input, j), w.now, u.slots[j]))
      && (Failed(j) in u.log <==> Failed(j) in w.log || (j < w.index && LosesAt(cfg, w.slots, addrs, input, w.now, j)))
  {
    NoneReturned(cfg, addrs, r, input);
    var w := WhenWoken(cfg, addrs, r, input);
    SlotsIff(cfg, addrs, w, input, 0);
    FailuresIff(cfg, addrs, w, input, 0);
    RoundEnds(cfg, addrs, r, input);
    hide RaceInv, WhenWoken, AfterAll, SlotJudged, LosesAt, AllInvalid, Finish;
  }

  // ----- how long an iteration waits -----

  /** No started connector and no address that is due wants Select back before `wait` is over. */
  ghost predicate NobodyLater(cfg: Config, r: Race, w: Race, wait: int) {
    && wait <= cfg.timeout
    && (r.index < |r.slots| && Running(r.slots) < cfg.maxConnect && !StartsNow(cfg, r) ==>
         wait <= r.lastStart + (if r.lastError then cfg.errorInterval else cfg.interval) - r.now)
    && (forall i :: 0 <= i < w.index <= |w.slots| && w.slots[i].Some? ==> wait <= Patience(cfg, w.slots[i].value, r.now))
  }

  /** How long a started connector can wait. */
  function Patience(cfg: Config, c: Conn, now: int): int {
    if c.status == Connecting then c.start + cfg.timeout - now
    else if c.status == Error || c.status == Connected then 0
    else 0x7FFF_FFFF
  }

  lemma {:induction false} NearestMeans(cfg: Config, slots: seq<Option<Conn>>, n: nat, now: int, timeout: int, wait: int)
    requires n <= |slots|
    ensures wait <= Nearest(cfg, slots, n, now, timeout) <==>
      wait <= timeout && forall i :: 0 <= i < n && slots[i].Some? ==> wait <= Patience(cfg, slots[i].value, now)
  {
    if n > 0 { NearestMeans(cfg, slots, n - 1, now, timeout, wait); }
  }

  /** An iteration waits exactly as long as nobody wants it back, in whole seconds, unless Select has
      something to report before, and takes at least a millisecond. */
  lemma {:induction false} WaitMeans(cfg: Config, addrs: seq<Addr>, r: Race, input: Input, wait: int)
    requires RaceInv(cfg, addrs, r) && r.ended.None?
    ensures |addrs| == |r.slots| && r.index <= |r.slots|
    ensures var w, limit := WhenWoken(cfg, addrs, r, input), SelectTimeout(cfg, addrs, r, input);
      var moved := w.now - r.now;
      && (wait <= limit <==> NobodyLater(cfg, r, w, wait))
      && moved >= 1 && (limit < 1000 || input.sleep <= 1 ==> moved == 1)
      && (limit >= 1000 && input.sleep >= limit ==> moved == limit - limit % 1000)
      && (1 <= input.sleep <= limit - limit % 1000 ==> moved == input.sleep)
      && (limit >= 0 ==> moved <= limit || moved == 1)
  {
    NoneReturned(cfg, addrs, r, input);
    StartMeans(cfg, addrs, r, input);
    var q := BeforeSelect(cfg, addrs, r, input);
    var w := WhenWoken(cfg, addrs, r, input);
    assert q.slots == w.slots && q.index == w.index && q.now == r.now by { BeforeNow(cfg, addrs, r, input); }
    NearestMeans(cfg, q.slots, q.index, q.now, ScheduleTimeout(cfg, r), wait);
    hide RaceInv, BeforeSelect, Nearest, Running, NoneConnected;
  }

  lemma BeforeNow(cfg: Config, addrs: seq<Addr>, r: Race, input: Input)
    requires |addrs| == |r.slots| && r.index <= |r.slots|
    ensures BeforeSelect(cfg, addrs, r, input).now == r.now
  {
    hide PreAll, Running;
  }

  // ----- races that find a socket -----

  /** The first address answers at once. */
  lemma {:induction false} FirstAnswers(cfg: Config, addrs: seq<Addr>, now: int) returns (inputs: seq<Input>)
    requires cfg.maxConnect > 0 && addrs != [] && addrs[0].hasIp && !addrs[0].isTls
    ensures var u := RaceAfter(cfg, addrs, now, inputs); u.ended == Some(Found) && u.ret == Some(0)
  {
    var input := Input(Launched, 0, Woken, [Ready(false, true, true)]);
    inputs := [input];
    var r := Entry(cfg, addrs, now);
    EntryInv(cfg, addrs, now);
    NothingRuns(cfg, addrs, now);
    StartMeans(cfg, addrs, r, input);
    RoundFindsIff(cfg, addrs, r, input, 0);
    assert FirstWinner(WhenWoken(cfg, addrs, r, input), addrs, input, 0, 0) by { hide WhenWoken; }
    OneRound(cfg, addrs, r, input);
    hide Round, WhenWoken, Rounds;
  }

  lemma NothingRuns(cfg: Config, addrs: seq<Addr>, now: int)
    requires cfg.maxConnect > 0 && addrs != []
    ensures var r := Entry(cfg, addrs, now);
      StartsNow(cfg, r) && r.index == 0 && r.ended.None? && r.ret.None? && r.now == now && |r.slots| == |addrs|
  {
    RunningOfNone(Entry(cfg, addrs, now).slots);
  }

  lemma OneRound(cfg: Config, addrs: seq<Addr>, r: Race, input: Input)
    requires RaceInv(cfg, addrs, r) && r.ended.None? && Round(cfg, addrs, r, input).ended.Some?
    ensures Rounds(cfg, addrs, r, [input]) == Round(cfg, addrs, r, input)
  {
    RoundInv(cfg, addrs, r, input);
    hide Round, RaceInv;
    assert [input][1..] == [];
  }

  /** The first `k` addresses have been refused by the system, one iteration each. */
  ghost predicate Refusals(cfg: Config, addrs: seq<Addr>, r: Race, k: nat) {
    && RaceInv(cfg, addrs, r) && r.ended.None? && r.index == k && k < |r.slots|
    && (forall j :: 0 <= j < k ==> r.slots[j].None?)
    && r.now - r.lastStart >= (if r.lastError then 0 else cfg.interval)
  }

  const REFUSAL := Input(Refused, 0, Woken, [])

  lemma RefusedStarts(cfg: Config, addrs: seq<Addr>, r: Race, k: nat)
    requires Refusals(cfg, addrs, r, k) && cfg.errorInterval == 0 && cfg.maxConnect > 0
    ensures StartsNow(cfg, r)
  {
    RunningOfNone(r.slots);
    hide Running, Scheduled, Owned, Blamed;
  }

  lemma {:induction false} RefusedRound(cfg: Config, addrs: seq<Addr>, r: Race, k: nat)
    requires Refusals(cfg, addrs, r, k) && cfg.errorInterval == 0 && cfg.maxConnect > 0 && k + 1 < |addrs|
    ensures Refusals(cfg, addrs, Round(cfg, addrs, r, REFUSAL), k + 1)
  {
    var w := WhenWoken(cfg, addrs, r, REFUSAL);
    var u := AfterAll(cfg, addrs, w, REFUSAL, 0);
    RefusedStarts(cfg, addrs, r, k);
    StartMeans(cfg, addrs, r, REFUSAL);
    NoneReturned(cfg, addrs, r, REFUSAL);
    RetIff(cfg, addrs, w, REFUSAL, 0);
    SlotsIff(cfg, addrs, w, REFUSAL, 0);
    FailuresIff(cfg, addrs, w, REFUSAL, 0);
    RoundInv(cfg, addrs, r, REFUSAL);
    hide RaceInv, WhenWoken, AfterAll, StartsNow, Finish, WinsAt, NoneConnected, Running;
    NobodyAnswers(w, addrs, k);
    assert forall j: nat :: !FirstWinner(w, addrs, REFUSAL, 0, j);
    assert Lost(cfg, addrs, w, u, REFUSAL, 0, k);
    assert SomeLost(cfg, addrs, w, u, REFUSAL, 0);
    assert u.slots[k + 1].Some? by { NextUntouched(cfg, addrs, r, k + 1); }
    AfterAllFrame(cfg, addrs, w, REFUSAL, 0);
    assert Round(cfg, addrs, r, REFUSAL) == u by { assert !AllInvalid(u.slots); }
  }

  lemma NextUntouched(cfg: Config, addrs: seq<Addr>, r: Race, j: nat)
    requires RaceInv(cfg, addrs, r) && r.ended.None? && r.index <= j < |addrs|
    ensures |r.slots| == |addrs| && r.slots[j].Some?
  {
    hide Scheduled, Owned, Blamed, Running;
  }

  lemma NobodyAnswers(w: Race, addrs: seq<Addr>, k: nat)
    requires |addrs| == |w.slots| && w.index == k + 1 <= |w.slots|
    requires forall j :: 0 <= j < k ==> w.slots[j].None?
    requires w.slots[k].Some? && w.slots[k].value.status == Error
    ensures forall j :: 0 <= j < w.index ==> !WinsAt(w.slots, addrs, REFUSAL, j)
  {
  }

  lemma {:induction false} AfterAllFrame(cfg: Config, addrs: seq<Addr>, r: Race, input: Input, i: nat)
    requires |addrs| == |r.slots| && r.index <= |r.slots|
    ensures var u := AfterAll(cfg, addrs, r, input, i);
      u.index == r.index && u.now == r.now && u.lastStart == r.lastStart && u.ended == r.ended
  {
  }

  /** Any address is found, once those before it have been refused. */
  lemma {:induction false} LaterAnswers(cfg: Config, addrs: seq<Addr>, r: Race, k: nat, n: nat) returns (inputs: seq<Input>)
    requires Refusals(cfg, addrs, r, k) && cfg.errorInterval == 0 && cfg.maxConnect > 0
    requires k <= n < |addrs| && addrs[n].hasIp && !addrs[n].isTls
    ensures var u := Rounds(cfg, addrs, r, inputs); u.ended == Some(Found) && u.ret == Some(n)
    decreases n - k
  {
    if k == n {
      var input := Input(Launched, 0, Woken, seq(n + 1, _ => Ready(false, true, true)));
      inputs := [input];
      RefusedStarts(cfg, addrs, r, k);
      StartMeans(cfg, addrs, r, input);
      RoundFindsIff(cfg, addrs, r, input, n);
      OneRound(cfg, addrs, r, input);
      hide Round, WhenWoken, Rounds, RaceInv;
    } else {
      RefusedRound(cfg, addrs, r, k);
      var rest := LaterAnswers(cfg, addrs, Round(cfg, addrs, r, REFUSAL), k + 1, n);
      inputs := [REFUSAL] + rest;
      hide Round, RaceInv;
      assert inputs[1..] == rest;
    }
  }

  /** With the settings of the client, every plain address can be the one that is returned. */
  lemma {:induction false} AnyAddressCanWin(addrs: seq<Addr>, now: int, n: nat) returns (inputs: seq<Input>)
    requires n < |addrs| && addrs[n].hasIp && !addrs[n].isTls
    ensures var u := RaceAfter(Config(10000, 4000, 0, 3), addrs, now, inputs); u.ended == Some(Found) && u.ret == Some(n)
  {
    var cfg := Config(10000, 4000, 0, 3);
    EntryInv(cfg, addrs, now);
    inputs := LaterAnswers(cfg, addrs, Entry(cfg, addrs, now), 0, n);
  }
}
