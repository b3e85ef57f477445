/** How long a connection race can take. */
module ConnectBound {
  import opened Options
  import opened ConnectRace
  import opened ConnectSafety

  /** Time until the next attempt after one has been made, at the worst: the attempt has failed
      after `timeout` (a millisecond, if that is zero) and `errorInterval` is over. */
  function Gap(cfg: Config): nat { Max(Max(1, cfg.timeout), cfg.errorInterval) }

  function Bound(cfg: Config, n: nat): nat
    requires n > 0
  {
    (n - 1) * Gap(cfg) + Max(1, cfg.timeout)
  }

  predicate Plain(addrs: seq<Addr>) {
    forall i :: 0 <= i < |addrs| ==> !addrs[i].isTls
  }

  /** A connector under way that was started by `last` and has not timed out at `now`. */
  predicate OnTime(cfg: Config, slot: Option<Conn>, last: int, now: int) {
    slot.Some? ==>
      slot.value.status == Connecting && slot.value.start <= last && now < slot.value.start + Max(1, cfg.timeout)
  }

  /** The timing between two iterations. */
  ghost predicate Timely(cfg: Config, r: Race, entry: int) {
    && r.index <= |r.slots|
    && (r.index == 0 ==> r.now == entry && r.lastStart == entry - cfg.interval && !r.lastError)
    && (r.index > 0 ==>
      && entry <= r.lastStart <= entry + (r.index - 1) * Gap(cfg)
      && r.lastStart <= r.now <= r.lastStart + Gap(cfg)
      && (forall i :: 0 <= i < r.index ==> OnTime(cfg, r.slots[i], r.lastStart, r.now))
      && (!r.lastError ==> r.slots[r.index - 1].Some?))
  }

  /** The timeout handed to Select is at most the remaining time of any connector under way. */
  lemma {:induction false} NearestBounds(cfg: Config, slots: seq<Option<Conn>>, n: nat, now: int, timeout: int, i: nat)
    requires n <= |slots|
    ensures Nearest(cfg, slots, n, now, timeout) <= timeout
    ensures i < n && slots[i].Some? ==> Nearest(cfg, slots, n, now, timeout) <= TimeLeft(cfg, slots[i].value, now)
  {
    if n > 0 { NearestBounds(cfg, slots, n - 1, now, timeout, i); }
  }

  /** As long as sockets are only held by connectors under way, a full house has one. */
  lemma {:induction false} SomeoneRuns(slots: seq<Option<Conn>>) returns (i: nat)
    requires Running(slots) > 0
    ensures i < |slots| && slots[i].Some? && slots[i].value.hasSocket
  {
    if slots[0].Some? && slots[0].value.hasSocket {
      i := 0;
    } else {
      i := SomeoneRuns(slots[1..]);
      i := i + 1;
    }
  }

  /** The state in the middle of an iteration, with the clock still at its beginning: every
      connector under way has time left, a new one has all of it. */
  ghost predicate MidTimely(cfg: Config, r: Race, entry: int) {
    && 0 < r.index <= |r.slots|
    && entry <= r.lastStart <= entry + (r.index - 1) * Gap(cfg)
    && r.lastStart <= r.now
    && (forall i :: 0 <= i < r.index && r.slots[i].Some? && r.slots[i].value.status != Error ==>
         OnTime(cfg, r.slots[i], r.lastStart, r.now))
    && (!r.lastError ==> r.slots[r.index - 1].Some?)
  }

  lemma MulStep(k: nat, g: nat)
    ensures (k + 1) * g == k * g + g
  {
  }

  lemma BeforeSelectTimely(cfg: Config, addrs: seq<Addr>, r: Race, input: Input, entry: int)
    requires RaceInv(cfg, addrs, r) && r.ended.None? && cfg.maxConnect > 0 && Timely(cfg, r, entry)
    ensures MidTimely(cfg, BeforeSelect(cfg, addrs, r, input), entry)
  {
    hide Spaced, LastStart, FailedSince, StartCount, Count, Owned, Blamed;
    var m := Schedule(cfg, r);
    if m == r {
      PreAllIdle(cfg, addrs, r, input.launch, 0);
      if r.index == 0 {
        NobodyRuns(r);
        assert false;
      }
    } else {
      PreAllFresh(cfg, addrs, m, input.launch, 0);
      if r.index > 0 { MulStep(r.index - 1, Gap(cfg)); }
    }
  }

  lemma NobodyRuns(r: Race)
    requires Slots(r) && r.index == 0
    ensures Running(r.slots) == 0
  {
    RunningOfNone(r.slots);
  }

  /** Select returns before anything it should have waited for is overdue. */
  lemma SelectIsNotLate(cfg: Config, addrs: seq<Addr>, r: Race, input: Input, entry: int)
    requires RaceInv(cfg, addrs, r) && r.ended.None? && cfg.maxConnect > 0 && Timely(cfg, r, entry)
    ensures var q := BeforeSelect(cfg, addrs, r, input);
      var w := WhenWoken(cfg, addrs, r, input);
      && MidTimely(cfg, q, entry)
      && w.now > q.now
      && (forall i :: 0 <= i < q.index && q.slots[i].Some? && q.slots[i].value.status != Error ==>
           w.now <= q.slots[i].value.start + Max(1, cfg.timeout))
      && w.now <= q.lastStart + (if q.index == |addrs| then Max(1, cfg.timeout) else Gap(cfg))
  {
    BeforeSelectTimely(cfg, addrs, r, input, entry);
    BeforeSelectKeeps(cfg, addrs, r, input);
    var q := BeforeSelect(cfg, addrs, r, input);
    var t := SelectTimeout(cfg, addrs, r, input);
    var w := WhenWoken(cfg, addrs, r, input);
    assert w.now <= q.now + Max(1, t);
    forall i | 0 <= i < q.index && q.slots[i].Some?
      ensures t <= TimeLeft(cfg, q.slots[i].value, q.now)
    {
      NearestBounds(cfg, q.slots, q.index, q.now, ScheduleTimeout(cfg, r), i);
    }
    NearestBounds(cfg, q.slots, q.index, q.now, ScheduleTimeout(cfg, r), 0);
    if exists i :: 0 <= i < q.index && q.slots[i].Some? && q.slots[i].value.status != Error {
    } else if exists i :: 0 <= i < q.index && q.slots[i].Some? {
      ErrorIsNew(cfg, addrs, r, input);
    } else {
      NobodyLeft(cfg, addrs, r, input);
    }
  }

  /** A connector can only have failed already if it was started in this very iteration. */
  lemma ErrorIsNew(cfg: Config, addrs: seq<Addr>, r: Race, input: Input)
    requires RaceInv(cfg, addrs, r) && r.ended.None?
    ensures var q := BeforeSelect(cfg, addrs, r, input);
      forall i :: 0 <= i < q.index && q.slots[i].Some? && q.slots[i].value.status == Error ==> q.lastStart == q.now
  {
    hide Spaced, LastStart, FailedSince, StartCount, Count, Owned, Blamed, Running, Scheduled;
    var m := Schedule(cfg, r);
    if m == r {
      PreAllIdle(cfg, addrs, r, input.launch, 0);
    } else {
      PreAllFresh(cfg, addrs, m, input.launch, 0);
    }
  }

  /** When every attempt so far is over, the next one is due within `errorInterval`. */
  lemma NobodyLeft(cfg: Config, addrs: seq<Addr>, r: Race, input: Input)
    requires RaceInv(cfg, addrs, r) && r.ended.None? && cfg.maxConnect > 0
    requires r.index > 0 ==> (!r.lastError ==> r.slots[r.index - 1].Some?)
    requires var q := BeforeSelect(cfg, addrs, r, input);
      q.index > 0 && forall i :: 0 <= i < q.index ==> q.slots[i].None?
    ensures var q := BeforeSelect(cfg, addrs, r, input);
      && q.index < |addrs| && q == r
      && ScheduleTimeout(cfg, r) <= cfg.errorInterval - (r.now - r.lastStart)
      && cfg.errorInterval - (r.now - r.lastStart) > 0
  {
    hide Spaced, LastStart, FailedSince, StartCount, Count, Owned, Blamed, Scheduled;
    if Schedule(cfg, r) == r {
      PreAllIdle(cfg, addrs, r, input.launch, 0);
      RunningOfNone(r.slots);
    } else {
      NewSlot(cfg, addrs, r, input);
      assert false;
    }
  }

  lemma NewSlot(cfg: Config, addrs: seq<Addr>, r: Race, input: Input)
    requires RaceInv(cfg, addrs, r) && r.ended.None? && Schedule(cfg, r) != r
    ensures var q := BeforeSelect(cfg, addrs, r, input);
      r.index < q.index && q.slots[r.index].Some?
  {
    hide Spaced, LastStart, FailedSince, StartCount, Count, Owned, Blamed, Running, Scheduled;
    PreAllFresh(cfg, addrs, Schedule(cfg, r), input.launch, 0);
  }

  /** What the loop over the connectors does to each slot when none is connected. */
  lemma {:induction false} AfterAllEffect(cfg: Config, addrs: seq<Addr>, r: Race, input: Input, i: nat)
    requires |addrs| == |r.slots| && r.index <= |r.slots| && AfterAll(cfg, addrs, r, input, i).ret.None?
    ensures var u := AfterAll(cfg, addrs, r, input, i);
      && (r.lastError ==> u.lastError)
      && (forall j :: 0 <= j < |r.slots| && (j < i || j >= r.index) ==> u.slots[j] == r.slots[j])
      && (forall j :: i <= j < r.index && r.slots[j].None? ==> u.slots[j].None?)
      && (forall j :: i <= j < r.index && r.slots[j].Some? ==>
           var c := AfterSelect(cfg, r.slots[j].value, addrs[j], ReadyAt(input, j), r.now);
           if c.status == Error then u.slots[j].None? && u.lastError else u.slots[j] == Some(c) && c.status != Connected)
    decreases r.index - i
  {
    if i < r.index {
      if r.slots[i].None? {
        AfterAllEffect(cfg, addrs, r, input, i + 1);
      } else {
        var c := AfterSelect(cfg, r.slots[i].value, addrs[i], ReadyAt(input, i), r.now);
        hide AfterSelect;
        if c.status == Error {
          var log := if c.hasSocket then r.log + [Closed(i), Failed(i)] else r.log + [Failed(i)];
          AfterAllEffect(cfg, addrs, r.(slots := r.slots[i := None], lastError := true, log := log), input, i + 1);
        } else {
          AfterAllEffect(cfg, addrs, r.(slots := r.slots[i := Some(c)]), input, i + 1);
        }
      }
    }
  }

  lemma StaysOnTime(cfg: Config, c: Conn, addr: Addr, ready: Ready, last: int, before: int, now: int)
    requires !addr.isTls && OnTime(cfg, Some(c), last, before) && now <= c.start + Max(1, cfg.timeout)
    ensures var d := AfterSelect(cfg, c, addr, ready, now);
      d.status == Error || d.status == Connected || OnTime(cfg, Some(d), last, now)
  {
  }

  lemma AfterAllTimely(cfg: Config, addrs: seq<Addr>, r: Race, input: Input, entry: int)
    requires RaceInv(cfg, addrs, r) && r.ended.None? && cfg.maxConnect > 0 && Timely(cfg, r, entry) && Plain(addrs)
    requires AfterAll(cfg, addrs, WhenWoken(cfg, addrs, r, input), input, 0).ret.None?
    ensures Timely(cfg, AfterAll(cfg, addrs, WhenWoken(cfg, addrs, r, input), input, 0), entry)
  {
    SelectIsNotLate(cfg, addrs, r, input, entry);
    BeforeSelectKeeps(cfg, addrs, r, input);
    var q := BeforeSelect(cfg, addrs, r, input);
    var w := WhenWoken(cfg, addrs, r, input);
    assert w == q.(now := w.now);
    AfterAllEffect(cfg, addrs, w, input, 0);
    GapCovers(cfg);
    TimelyAfter(cfg, addrs, q, w, input, entry);
  }

  lemma TimelyAfter(cfg: Config, addrs: seq<Addr>, q: Race, w: Race, input: Input, entry: int)
    requires |addrs| == |q.slots| && q.index <= |q.slots| && w == q.(now := w.now) && q.now < w.now && Plain(addrs)
    requires MidTimely(cfg, q, entry) && MidSlots(q) && w.now <= q.lastStart + Gap(cfg)
    requires forall i :: 0 <= i < q.index && q.slots[i].Some? && q.slots[i].value.status != Error ==>
      w.now <= q.slots[i].value.start + Max(1, cfg.timeout)
    requires AfterAll(cfg, addrs, w, input, 0).ret.None?
    ensures Timely(cfg, AfterAll(cfg, addrs, w, input, 0), entry)
  {
    AfterAllEffect(cfg, addrs, w, input, 0);
    var u := AfterAll(cfg, addrs, w, input, 0);
    forall i | 0 <= i < u.index ensures OnTime(cfg, u.slots[i], u.lastStart, u.now) {
      if w.slots[i].Some? && w.slots[i].value.status != Error {
        StaysOnTime(cfg, w.slots[i].value, addrs[i], ReadyAt(input, i), q.lastStart, q.now, w.now);
      }
    }
    hide AfterAll, Gap, OnTime, MidSlots, Count;
  }

  lemma GapCovers(cfg: Config)
    ensures Max(1, cfg.timeout) <= Gap(cfg)
  {
  }

  lemma IndexBound(cfg: Config, k: nat, n: nat)
    requires 0 < k <= n
    ensures k == n ==> (k - 1) * Gap(cfg) + Max(1, cfg.timeout) == Bound(cfg, n)
    ensures k < n ==> (k - 1) * Gap(cfg) + Gap(cfg) <= Bound(cfg, n)
  {
    if k < n {
      MulStep(k - 1, Gap(cfg));
      MulMonotone(k, n - 1, Gap(cfg));
    }
  }

  lemma MulMonotone(a: nat, b: nat, g: nat)
    requires a <= b
    ensures a * g <= b * g
  {
  }

  /** One iteration: the clock moves on and stays within the bound. */
  lemma RoundTimely(cfg: Config, addrs: seq<Addr>, r: Race, input: Input, entry: int)
    requires RaceInv(cfg, addrs, r) && r.ended.None? && cfg.maxConnect > 0 && Timely(cfg, r, entry) && Plain(addrs)
    ensures var u := Round(cfg, addrs, r, input);
      && r.now < u.now <= entry + Bound(cfg, |addrs|)
      && (u.ended.None? ==> Timely(cfg, u, entry))
  {
    SelectIsNotLate(cfg, addrs, r, input, entry);
    var q := BeforeSelect(cfg, addrs, r, input);
    var w := WhenWoken(cfg, addrs, r, input);
    IndexBound(cfg, q.index, |addrs|);
    assert q.now == r.now && r.now < w.now <= entry + Bound(cfg, |addrs|);
    var u := AfterAll(cfg, addrs, w, input, 0);
    if u.ret.None? { AfterAllTimely(cfg, addrs, r, input, entry); }
    hide BeforeSelect, AfterAll, Scheduled, Owned, Blamed, Running, Timely, Gap, WhenWoken, RaceInv;
    CloseAllNow(w, 0);
    CloseAllNow(u, 0);
  }

  lemma {:induction false} CloseAllNow(r: Race, i: nat)
    requires i <= |r.slots|
    ensures CloseAll(r, i).now == r.now
    decreases |r.slots| - i
  {
    if i < |r.slots| {
      var log := if r.slots[i].Some? && r.slots[i].value.hasSocket then r.log + [Closed(i)] else r.log;
      CloseAllNow(r.(slots := r.slots[i := None], log := log), i + 1);
    }
  }

  lemma {:induction false} RoundsTimely(cfg: Config, addrs: seq<Addr>, r: Race, inputs: seq<Input>, entry: int)
    requires RaceInv(cfg, addrs, r) && cfg.maxConnect > 0 && Plain(addrs) && addrs != []
    requires r.now <= entry + Bound(cfg, |addrs|) && (r.ended.None? ==> Timely(cfg, r, entry))
    ensures var u := Rounds(cfg, addrs, r, inputs);
      u.now <= entry + Bound(cfg, |addrs|) && (u.ended.None? ==> u.now >= r.now + |inputs|)
    decreases |inputs|
  {
    if inputs != [] && r.ended.None? {
      RoundInv(cfg, addrs, r, inputs[0]);
      RoundTimely(cfg, addrs, r, inputs[0], entry);
      hide Round, RaceInv, Timely, Bound;
      RoundsTimely(cfg, addrs, Round(cfg, addrs, r, inputs[0]), inputs[1..], entry);
    }
  }

  /** A race over plain connectors never runs past the bound, and has ended after at most that
      many iterations, whatever Select and the other system calls answer. */
  lemma TimeBound(cfg: Config, addrs: seq<Addr>, now: int, inputs: seq<Input>)
    requires addrs != [] && cfg.maxConnect > 0 && Plain(addrs)
    ensures RaceAfter(cfg, addrs, now, inputs).now <= now + Bound(cfg, |addrs|)
    ensures |inputs| > Bound(cfg, |addrs|) ==> RaceAfter(cfg, addrs, now, inputs).ended.Some?
  {
    EntryInv(cfg, addrs, now);
    var r := Entry(cfg, addrs, now);
    assert Timely(cfg, r, now);
    assert Bound(cfg, |addrs|) >= 0;
    hide Bound, Timely, RaceInv;
    RoundsTimely(cfg, addrs, r, inputs, now);
  }

  // ----- the worst case -----

  /** Nothing ever happens: Select waits as long as it may and no socket reports anything. */
  function Silence(cfg: Config): Input {
    Input(Launched, cfg.timeout, Woken, [])
  }

  /** What Select can wait for in one go. */
  ghost predicate WholeSeconds(cfg: Config) {
    cfg.timeout >= 1000 && cfg.timeout % 1000 == 0 && cfg.maxConnect > 0
  }

  /** The first `k` attempts have timed out, one after the other, and the next one may have to wait
      for the error interval. */
  ghost predicate SilentFor(cfg: Config, r: Race, entry: int, k: nat) {
    && r.index == k <= |r.slots| && r.ret.None?
    && (k == 0 ==> r.now == entry && r.lastStart == entry - cfg.interval && !r.lastError)
    && (k > 0 ==>
         && r.lastError && r.lastStart == entry + (k - 1) * Gap(cfg)
         && r.lastStart + cfg.timeout <= r.now <= r.lastStart + Gap(cfg))
    && (forall i :: 0 <= i < k ==> r.slots[i].None?)
    && (forall i :: k <= i < |r.slots| ==> r.slots[i] == Some(Conn(Start, false, 0)))
  }

  lemma {:induction false} NearestOfNone(cfg: Config, slots: seq<Option<Conn>>, n: nat, now: int, timeout: int)
    requires n <= |slots| && forall i :: 0 <= i < n ==> slots[i].None?
    ensures Nearest(cfg, slots, n, now, timeout) == timeout
  {
    if n > 0 { NearestOfNone(cfg, slots, n - 1, now, timeout); }
  }

  lemma {:induction false} AfterAllOfNone(cfg: Config, addrs: seq<Addr>, r: Race, input: Input, i: nat, k: nat)
    requires |addrs| == |r.slots| && i <= k <= r.index <= |r.slots|
    requires forall j :: i <= j < k ==> r.slots[j].None?
    ensures AfterAll(cfg, addrs, r, input, i) == AfterAll(cfg, addrs, r, input, k)
    decreases k - i
  {
    if i < k { AfterAllOfNone(cfg, addrs, r, input, i + 1, k); }
  }

  lemma SilentWakes(cfg: Config, addrs: seq<Addr>, r: Race, entry: int, k: nat)
    requires WholeSeconds(cfg) && |addrs| == |r.slots| && SilentFor(cfg, r, entry, k) && k < |addrs|
    requires NextIn(cfg, r) <= 0 && forall i :: 0 <= i < |addrs| ==> addrs[i].hasIp
    ensures var c := Conn(Connecting, true, r.now);
      WhenWoken(cfg, addrs, r, Silence(cfg)) ==
        r.(now := r.now + cfg.timeout, lastStart := r.now, lastError := false, index := k + 1,
           slots := r.slots[k := Some(c)], log := r.log + [Started(k, r.now)] + [Opened(k)])
  {
    RunningOfNone(r.slots);
    var m := Schedule(cfg, r);
    var c := Conn(Connecting, true, r.now);
    PreAllFresh(cfg, addrs, m, Launched, 0);
    var q := BeforeSelect(cfg, addrs, r, Silence(cfg));
    assert q == m.(slots := r.slots[k := Some(c)], log := m.log + [Opened(k)]);
    NearestOfNone(cfg, q.slots, k, q.now, cfg.timeout);
    assert Nearest(cfg, q.slots, k + 1, q.now, cfg.timeout) == cfg.timeout;
    assert SelectTimeout(cfg, addrs, r, Silence(cfg)) == cfg.timeout;
    assert Advance(cfg.timeout, cfg.timeout) == cfg.timeout;
  }

  /** An iteration that only waits for the error interval to be over. */
  lemma SilentWait(cfg: Config, addrs: seq<Addr>, r: Race, entry: int, k: nat)
    requires WholeSeconds(cfg) && |addrs| == |r.slots| && SilentFor(cfg, r, entry, k) && k < |addrs|
    requires NextIn(cfg, r) > 0 && r.ended.None?
    ensures var u := Round(cfg, addrs, r, Silence(cfg));
      SilentFor(cfg, u, entry, k) && u.ended.None? && r.now < u.now
  {
    RunningOfNone(r.slots);
    PreAllIdle(cfg, addrs, r, Launched, 0);
    NearestOfNone(cfg, r.slots, k, r.now, ScheduleTimeout(cfg, r));
    var w := WhenWoken(cfg, addrs, r, Silence(cfg));
    assert w == r.(now := w.now) && r.now < w.now <= r.now + NextIn(cfg, r);
    AfterAllOfNone(cfg, addrs, w, Silence(cfg), 0, k);
    assert AfterAll(cfg, addrs, w, Silence(cfg), k) == w;
    assert w.slots[k].Some?;
    hide WhenWoken, AfterAll, CloseAll, Running, Schedule;
  }

  /** An iteration that starts an attempt and waits for it in vain. */
  lemma SilentRound(cfg: Config, addrs: seq<Addr>, r: Race, entry: int, k: nat)
    requires WholeSeconds(cfg) && |addrs| == |r.slots| && SilentFor(cfg, r, entry, k) && k < |addrs|
    requires !addrs[k].isTls && forall i :: 0 <= i < |addrs| ==> addrs[i].hasIp
    requires NextIn(cfg, r) <= 0 && r.ended.None?
    ensures var u := Round(cfg, addrs, r, Silence(cfg));
      if k + 1 < |addrs| then SilentFor(cfg, u, entry, k + 1) && u.ended.None?
      else u.ended == Some(Exhausted) && u.now == entry + k * Gap(cfg) + cfg.timeout
  {
    SilentWakes(cfg, addrs, r, entry, k);
    if k > 0 { MulStep(k - 1, Gap(cfg)); }
    assert r.now == entry + k * Gap(cfg);
    var w := WhenWoken(cfg, addrs, r, Silence(cfg));
    AfterAllOfNone(cfg, addrs, w, Silence(cfg), 0, k);
    var u := AfterAll(cfg, addrs, w, Silence(cfg), k);
    assert AfterSelect(cfg, w.slots[k].value, addrs[k], ReadyAt(Silence(cfg), k), w.now).status == Error;
    assert u == w.(slots := w.slots[k := None], lastError := true, log := w.log + [Closed(k), Failed(k)]);
    CloseAllNow(u, 0);
    if k + 1 < |addrs| { assert u.slots[k + 1].Some?; }
    hide WhenWoken, AfterAll, CloseAll;
  }

  lemma SilentBounds(cfg: Config, r: Race, entry: int, k: nat)
    requires SilentFor(cfg, r, entry, k)
    ensures r.now <= entry + k * Gap(cfg)
  {
    if k > 0 { MulStep(k - 1, Gap(cfg)); }
  }

  lemma {:induction false} SilentRounds(cfg: Config, addrs: seq<Addr>, r: Race, entry: int, k: nat)
    returns (inputs: seq<Input>)
    requires WholeSeconds(cfg) && Plain(addrs) && RaceInv(cfg, addrs, r) && SilentFor(cfg, r, entry, k) && k < |addrs|
    requires forall i :: 0 <= i < |addrs| ==> addrs[i].hasIp
    requires r.ended.None?
    ensures Rounds(cfg, addrs, r, inputs).now == entry + (|addrs| - 1) * Gap(cfg) + cfg.timeout
    decreases |addrs| - k, entry + k * Gap(cfg) - r.now
  {
    RaceBounds(cfg, addrs, r);
    SilentBounds(cfg, r, entry, k);
    hide Round, RaceInv, SilentFor, WholeSeconds, Silence, Gap;
    RoundInv(cfg, addrs, r, Silence(cfg));
    var u := Round(cfg, addrs, r, Silence(cfg));
    var rest := [];
    if NextIn(cfg, r) > 0 {
      SilentWait(cfg, addrs, r, entry, k);
      SilentBounds(cfg, u, entry, k);
      rest := SilentRounds(cfg, addrs, u, entry, k);
    } else {
      SilentRound(cfg, addrs, r, entry, k);
      if k + 1 < |addrs| {
        SilentBounds(cfg, u, entry, k + 1);
        rest := SilentRounds(cfg, addrs, u, entry, k + 1);
      }
    }
    inputs := [Silence(cfg)] + rest;
    assert inputs[1..] == rest;
  }

  /** The bound is reached: with a timeout of whole seconds, a race in which nothing answers takes
      the full timeout for every address, one after the other, because the iteration that starts
      an attempt does not limit its wait to the interval; and the error interval, if it is longer. */
  lemma SilentRace(cfg: Config, addrs: seq<Addr>, now: int) returns (inputs: seq<Input>)
    requires WholeSeconds(cfg) && Plain(addrs) && addrs != [] && forall i :: 0 <= i < |addrs| ==> addrs[i].hasIp
    ensures RaceAfter(cfg, addrs, now, inputs).now == now + Bound(cfg, |addrs|)
  {
    EntryInv(cfg, addrs, now);
    assert SilentFor(cfg, Entry(cfg, addrs, now), now, 0);
    inputs := SilentRounds(cfg, addrs, Entry(cfg, addrs, now), now, 0);
    hide SilentFor, RaceInv, Rounds;
  }

  /** The time a staggered race should need: one interval per further address, one timeout. */
  function Staggered(cfg: Config, n: nat): int
    requires n > 0
  {
    (n - 1) * cfg.interval + cfg.timeout
  }

  ghost predicate KeepsStaggered(cfg: Config, addrs: seq<Addr>, now: int)
    requires addrs != []
  {
    forall inputs: seq<Input> :: RaceAfter(cfg, addrs, now, inputs).now <= now + Staggered(cfg, |addrs|)
  }

  /** For every timeout: the race keeps to the staggered time, whatever the network does, if the
      interval is no shorter than the timeout and the error interval. */
  lemma StaggeredIf(cfg: Config, addrs: seq<Addr>, now: int)
    requires cfg.timeout > 0 && cfg.maxConnect > 0 && Plain(addrs) && addrs != []
    requires |addrs| == 1 || cfg.interval >= Max(cfg.timeout, cfg.errorInterval)
    ensures KeepsStaggered(cfg, addrs, now)
  {
    var n := |addrs|;
    MulMonotoneRight(n - 1, Gap(cfg), cfg.interval);
    forall inputs: seq<Input>
      ensures RaceAfter(cfg, addrs, now, inputs).now <= now + Staggered(cfg, n)
    {
      TimeBound(cfg, addrs, now, inputs);
    }
  }

  /** With a timeout of whole seconds and addresses that can be tried, that is the exact condition. */
  lemma StaggeredIff(cfg: Config, addrs: seq<Addr>, now: int)
    requires WholeSeconds(cfg) && Plain(addrs) && addrs != [] && forall i :: 0 <= i < |addrs| ==> addrs[i].hasIp
    ensures KeepsStaggered(cfg, addrs, now) <==>
      |addrs| == 1 || cfg.interval >= Max(cfg.timeout, cfg.errorInterval)
  {
    var n := |addrs|;
    if n == 1 || cfg.interval >= Max(cfg.timeout, cfg.errorInterval) {
      StaggeredIf(cfg, addrs, now);
    } else {
      var inputs := SilentRace(cfg, addrs, now);
      MulStrict(n - 1, cfg.interval, Gap(cfg));
      assert RaceAfter(cfg, addrs, now, inputs).now > now + Staggered(cfg, n);
    }
  }

  lemma MulMonotoneRight(k: nat, a: nat, b: nat)
    requires a <= b || k == 0
    ensures k * a <= k * b
  {
  }

  lemma MulStrict(k: nat, a: nat, b: nat)
    requires k > 0 && a < b
    ensures k * a < k * b
  {
  }

  /** With the client's own settings, 10 s timeout, 4 s interval and three addresses, a race
      can take 30 seconds and no longer; the staggered time would be 18. */
  lemma ClientRace(addrs: seq<Addr>, now: int, inputs: seq<Input>) returns (worst: seq<Input>)
    requires |addrs| == 3 && Plain(addrs) && forall i :: 0 <= i < 3 ==> addrs[i].hasIp
    ensures var cfg := Config(10000, 4000, 0, 3);
      && Staggered(cfg, 3) == 18000
      && RaceAfter(cfg, addrs, now, inputs).now <= now + 30000
      && RaceAfter(cfg, addrs, now, worst).now == now + 30000
  {
    var cfg := Config(10000, 4000, 0, 3);
    TimeBound(cfg, addrs, now, inputs);
    worst := SilentRace(cfg, addrs, now);
    hide RaceAfter;
  }
}
