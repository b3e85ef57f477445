/** TcpConnector objects and the loop of ComplexConnect::ConnectImpatient over a vector of
    them, tied to the state and the iteration of ConnectRace. A socket object is named after
    the index of the connector that creates it. */
module Connectors {
  import opened Options
  import opened ConnectRace
  import opened ConnectSafety
  import opened ConnectBound

  class TcpConnector {
    const index: nat
    const addr: Addr
    const connTimeout: nat
    var socket: Option<nat>
    var status: Status
    var startConnTime: int

    constructor (addr: Addr, index: nat, connTimeout: nat)
      ensures this.addr == addr && this.index == index && this.connTimeout == connTimeout
      ensures View() == Conn(Start, false, 0) && Sound()
    {
      this.addr, this.index, this.connTimeout := addr, index, connTimeout;
      socket, status, startConnTime := None, Start, 0;
    }

    ghost function View(): Conn
      reads this
    {
      Conn(status, socket.Some?, startConnTime)
    }

    ghost predicate Sound()
      reads this
    {
      socket.Some? ==> socket.value == index
    }

    method Timeout(now: int) returns (left: int)
      ensures forall cfg: Config :: cfg.timeout == connTimeout ==> left == TimeLeft(cfg, View(), now)
    {
      if status == Connecting {
        return startConnTime + connTimeout - now;
      } else if status == Error || status == Connected {
        return 0;
      } else {
        return INT_MAX;
      }
    }

    method PreSelect(launch: Launch, now: int)
      requires Sound()
      modifies this
      ensures Sound() && View() == ConnectRace.PreSelect(old(View()), addr, launch, now)
    {
      if status == Start {
        PreConnectSelect(launch, now);
      }
    }

    method PreConnectSelect(launch: Launch, now: int)
      requires Sound() && status == Start
      modifies this
      ensures Sound() && View() == ConnectRace.PreSelect(old(View()), addr, launch, now)
    {
      if launch == NoSocket {
        status := Error;
        return;
      }
      if !addr.hasIp {
        status := Error;
        return;
      }
      if launch == NoNonblock {
        status := Error;
        return;
      }
      startConnTime := now;
      if launch == Refused {
        status := Error;
        return;
      }
      socket := Some(index);
      status := Connecting;
    }

    method AfterSelect(ready: Ready, now: int)
      requires Sound()
      modifies this
      ensures Sound() && socket == old(socket)
      ensures forall cfg: Config :: cfg.timeout == connTimeout ==>
        View() == ConnectRace.AfterSelect(cfg, old(View()), addr, ready, now)
    {
      if status == Connecting {
        AfterConnectSelect(ready, now);
      }
    }

    method AfterConnectSelect(ready: Ready, now: int)
      requires Sound() && status == Connecting
      modifies this
      ensures Sound() && socket == old(socket)
      ensures forall cfg: Config :: cfg.timeout == connTimeout ==>
        View() == ConnectRace.AfterSelect(cfg, old(View()), addr, ready, now)
    {
      if socket.None? {
        status := Error;
        return;
      }
      var timeout := Timeout(now);
      if ready.error {
        status := Error;
        return;
      }
      if ready.writable {
        if addr.isTls {
          status := StartSSL;
        } else {
          if !ready.blockOk {
            status := Error;
            return;
          }
          status := Connected;
        }
        return;
      }
      if timeout <= 0 {
        status := Error;
        return;
      }
    }

    /** Close: a connector without a socket is left as it is. */
    method Close()
      modifies this
      ensures socket.None?
      ensures status == if old(socket).Some? then End else old(status)
    {
      if socket.None? {
        return;
      }
      socket := None;
      status := End;
    }
  }

  /** The vector shows the slots: null where a slot is empty, otherwise its own connector. */
  ghost predicate Shows(cfg: Config, addrs: seq<Addr>, cs: seq<TcpConnector?>, slots: seq<Option<Conn>>)
    reads cs
  {
    && |cs| == |slots| == |addrs|
    && (forall i :: 0 <= i < |cs| && cs[i] != null ==> cs[i].index == i)
    && (forall i :: 0 <= i < |cs| ==> (cs[i] == null <==> slots[i].None?))
    && (forall i :: 0 <= i < |cs| && cs[i] != null ==>
         && cs[i].Sound() && cs[i].addr == addrs[i] && cs[i].connTimeout == cfg.timeout
         && slots[i] == Some(cs[i].View()))
  }

  ghost function Objects(cs: seq<TcpConnector?>): set<TcpConnector> {
    set c: TcpConnector | c in cs
  }

  lemma ObjectsAt(cs: seq<TcpConnector?>, i: nat)
    requires i < |cs| && cs[i] != null
    ensures cs[i] in Objects(cs)
  {
  }

  lemma ShowsLength(cfg: Config, addrs: seq<Addr>, cs: seq<TcpConnector?>, slots: seq<Option<Conn>>)
    requires Shows(cfg, addrs, cs, slots)
    ensures |cs| == |slots| == |addrs|
  {
  }

  lemma ShowsAt(cfg: Config, addrs: seq<Addr>, cs: seq<TcpConnector?>, slots: seq<Option<Conn>>, i: nat)
    requires Shows(cfg, addrs, cs, slots) && i < |cs|
    ensures |cs| == |slots| == |addrs| && (cs[i] == null <==> slots[i].None?)
    ensures cs[i] != null ==>
      slots[i].value.status == cs[i].status && (slots[i].value.hasSocket <==> cs[i].socket.Some?)
  {
  }

  lemma SettleableAt(slots: seq<Option<Conn>>, i: nat)
    requires Settleable(slots, i) && i < |slots| && slots[i].Some?
    ensures slots[i].value.status != Connected && (slots[i].value.status == Connecting ==> slots[i].value.hasSocket)
  {
  }

  lemma {:induction false} NearestLocal(cfg: Config, slots: seq<Option<Conn>>, n: nat, now: int, timeout: int, c: Option<Conn>, i: nat)
    requires n <= i < |slots|
    ensures Nearest(cfg, slots[i := c], n, now, timeout) == Nearest(cfg, slots, n, now, timeout)
  {
    if n > 0 { NearestLocal(cfg, slots, n - 1, now, timeout, c, i); }
  }

  /** PreAll one connector on, for the loop that runs forwards. */
  lemma PreAllStep(cfg: Config, addrs: seq<Addr>, q: Race, launch: Launch, i: nat)
    requires |addrs| == |q.slots| && i < q.index <= |q.slots|
    ensures q.slots[i].None? ==> PreAll(cfg, addrs, q, launch, i) == PreAll(cfg, addrs, q, launch, i + 1)
    ensures q.slots[i].Some? ==>
      PreAll(cfg, addrs, q, launch, i) == PreAll(cfg, addrs, Prepared(q, addrs[i], launch, i), launch, i + 1)
  {
  }

  ghost function Prepared(q: Race, addr: Addr, launch: Launch, i: nat): Race
    requires i < |q.slots| && q.slots[i].Some?
  {
    var c := q.slots[i].value;
    var d := ConnectRace.PreSelect(c, addr, launch, q.now);
    q.(slots := q.slots[i := Some(d)], log := if d.hasSocket && !c.hasSocket then q.log + [Opened(i)] else q.log)
  }

  /** Lines 87-89 for one connector. */
  method PreSelectOne(cfg: Config, addrs: seq<Addr>, connectors: array<TcpConnector?>, i: nat, c: TcpConnector,
                      launch: Launch, now: int, ghost q: Race)
    returns (left: int)
    requires Shows(cfg, addrs, connectors[..], q.slots) && i < connectors.Length && connectors[i] == c && q.now == now
    modifies c
    ensures q.slots[i].Some?
    ensures var u := Prepared(q, addrs[i], launch, i);
      && Shows(cfg, addrs, connectors[..], u.slots)
      && u.slots[i].Some? && left == TimeLeft(cfg, u.slots[i].value, now)
  {
    hide ConnectRace.PreSelect, TimeLeft;
    assert c == connectors[..][i];
    c.PreSelect(launch, now);
    left := c.Timeout(now);
  }

  lemma NearestStep(cfg: Config, slots: seq<Option<Conn>>, i: nat, now: int, timeout: int)
    requires i < |slots|
    ensures var t := Nearest(cfg, slots, i, now, timeout);
      Nearest(cfg, slots, i + 1, now, timeout) == if slots[i].None? then t else Min(t, TimeLeft(cfg, slots[i].value, now))
  {
  }

  /** Lines 84-90: PreSelect and Timeout of every started connector. */
  method PreSelectAll(cfg: Config, addrs: seq<Addr>, connectors: array<TcpConnector?>, index: nat,
                      launch: Launch, now: int, timeout0: int, ghost r: Race)
    returns (timeout: int, ghost q: Race)
    requires Shows(cfg, addrs, connectors[..], r.slots) && r.index == index <= |r.slots| && r.now == now
    modifies Objects(connectors[..])
    ensures q == PreAll(cfg, addrs, r, launch, 0) && Shows(cfg, addrs, connectors[..], q.slots)
    ensures timeout == Nearest(cfg, q.slots, index, now, timeout0)
  {
    hide *;
    timeout := timeout0;
    q := r;
    ShowsLength(cfg, addrs, connectors[..], q.slots);
    NearestStart(cfg, q.slots, now, timeout0);
    var i := 0;
    while i < index
      invariant 0 <= i <= index <= |q.slots| == |addrs| == connectors.Length
      invariant Shows(cfg, addrs, connectors[..], q.slots) && q.index == index && q.now == now
      invariant PreAll(cfg, addrs, q, launch, i) == PreAll(cfg, addrs, r, launch, 0)
      invariant timeout == Nearest(cfg, q.slots, i, now, timeout0)
    {
      PreAllStep(cfg, addrs, q, launch, i);
      var c := connectors[i];
      ShowsAt(cfg, addrs, connectors[..], q.slots, i);
      if c != null {
        ObjectsAt(connectors[..], i);
        var left := PreSelectOne(cfg, addrs, connectors, i, c, launch, now, q);
        NearestPrepared(cfg, q, addrs[i], launch, i, timeout0);
        timeout := Min(timeout, left);
        q := Prepared(q, addrs[i], launch, i);
      } else {
        NearestStep(cfg, q.slots, i, now, timeout0);
      }
      i := i + 1;
    }
    PreAllEnd(cfg, addrs, q, launch, index);
  }

  lemma NearestStart(cfg: Config, slots: seq<Option<Conn>>, now: int, timeout: int)
    ensures Nearest(cfg, slots, 0, now, timeout) == timeout
  {
  }

  lemma PreAllEnd(cfg: Config, addrs: seq<Addr>, q: Race, launch: Launch, index: nat)
    requires |addrs| == |q.slots| && q.index == index <= |q.slots|
    ensures PreAll(cfg, addrs, q, launch, index) == q
  {
  }

  lemma NearestPrepared(cfg: Config, q: Race, addr: Addr, launch: Launch, i: nat, timeout: int)
    requires i < |q.slots| && q.slots[i].Some?
    ensures var u := Prepared(q, addr, launch, i);
      && |u.slots| == |q.slots| && u.slots[i].Some? && u.now == q.now && u.index == q.index
      && Nearest(cfg, u.slots, i + 1, q.now, timeout)
         == Min(Nearest(cfg, q.slots, i, q.now, timeout), TimeLeft(cfg, u.slots[i].value, q.now))
  {
    hide ConnectRace.PreSelect, TimeLeft;
    var u := Prepared(q, addr, launch, i);
    NearestLocal(cfg, q.slots, i, q.now, timeout, u.slots[i], i);
    NearestStep(cfg, u.slots, i, q.now, timeout);
  }

  lemma ConnectedOwnsSocket(cfg: Config, c: Conn, addr: Addr, ready: Ready, now: int)
    requires c.status != Connected && (c.status == Connecting ==> c.hasSocket)
    ensures var d := ConnectRace.AfterSelect(cfg, c, addr, ready, now);
      d.hasSocket == c.hasSocket && (d.status == Connected ==> d.hasSocket)
  {
  }

  ghost function Judged(cfg: Config, q: Race, addr: Addr, ready: Ready, i: nat): Race
    requires i < |q.slots| && q.slots[i].Some?
  {
    var d := ConnectRace.AfterSelect(cfg, q.slots[i].value, addr, ready, q.now);
    if d.status == Error then
      q.(slots := q.slots[i := None], lastError := true,
         log := if d.hasSocket then q.log + [Closed(i), Failed(i)] else q.log + [Failed(i)])
    else if d.status == Connected then q.(slots := q.slots[i := None], ret := Some(i))
    else q.(slots := q.slots[i := Some(d)])
  }

  /** Lines 115-136 for one connector. */
  method Settle(cfg: Config, addrs: seq<Addr>, connectors: array<TcpConnector?>, i: nat, c: TcpConnector,
                ready: Ready, now: int, ghost q: Race)
    returns (status: Status, socket: Option<nat>)
    requires Shows(cfg, addrs, connectors[..], q.slots) && i < connectors.Length && connectors[i] == c
    requires q.now == now && q.ret.None?
    requires c.status != Connected && (c.status == Connecting ==> c.socket.Some?)
    modifies connectors, c
    ensures q.slots[i].Some?
    ensures var u := Judged(cfg, q, addrs[i], ready, i);
      && Shows(cfg, addrs, connectors[..], u.slots)
      && u.lastError == (q.lastError || status == Error)
      && u.ret == (if status == Connected then Some(i) else None)
    ensures status == Connected ==> socket == Some(i)
    ensures connectors[..] == old(connectors[..]) || connectors[..] == old(connectors[..])[i := null]
  {
    assert c == connectors[..][i];
    ConnectedOwnsSocket(cfg, c.View(), c.addr, ready, now);
    hide ConnectRace.AfterSelect;
    c.AfterSelect(ready, now);
    status := c.status;
    socket := None;
    if status == Error {
      c.Close();
      connectors[i] := null;
    } else if status == Connected {
      socket := c.socket;
      c.socket := None;
      connectors[i] := null;
    }
  }

  ghost predicate Settleable(slots: seq<Option<Conn>>, from: nat) {
    forall i :: from <= i < |slots| && slots[i].Some? ==>
      slots[i].value.status != Connected && (slots[i].value.status == Connecting ==> slots[i].value.hasSocket)
  }

  /** AfterAll one connector on, for the loop that runs forwards. */
  lemma AfterAllStep(cfg: Config, addrs: seq<Addr>, q: Race, input: Input, i: nat)
    requires |addrs| == |q.slots| && i < q.index <= |q.slots| && q.ret.None? && Settleable(q.slots, i)
    ensures q.slots[i].None? ==> AfterAll(cfg, addrs, q, input, i) == AfterAll(cfg, addrs, q, input, i + 1)
    ensures q.slots[i].Some? ==>
      && var u := Judged(cfg, q, addrs[i], ReadyAt(input, i), i);
      && Settleable(u.slots, i + 1) && u.index == q.index && u.now == q.now && |u.slots| == |q.slots|
      && AfterAll(cfg, addrs, q, input, i) == if u.ret.Some? then u else AfterAll(cfg, addrs, u, input, i + 1)
  {
    hide ConnectRace.AfterSelect;
  }

  /** Lines 112-137: AfterSelect of every started connector, up to the first that is connected. */
  method AfterSelectAll(cfg: Config, addrs: seq<Addr>, connectors: array<TcpConnector?>, index: nat,
                        input: Input, now: int, lastError0: bool, ghost r: Race)
    returns (lastError: bool, ret: Option<nat>, ghost q: Race)
    requires Shows(cfg, addrs, connectors[..], r.slots) && r.index == index <= |r.slots| && r.now == now
    requires r.ret.None? && r.lastError == lastError0 && Settleable(r.slots, 0)
    modifies connectors, Objects(connectors[..])
    ensures q == AfterAll(cfg, addrs, r, input, 0) && Shows(cfg, addrs, connectors[..], q.slots)
    ensures lastError == q.lastError && ret == q.ret
    ensures forall j :: 0 <= j < connectors.Length ==> connectors[j] == null || connectors[j] == old(connectors[j])
  {
    hide *;
    lastError, ret, q := lastError0, None, r;
    ShowsLength(cfg, addrs, connectors[..], q.slots);
    var i := 0;
    while i < index
      invariant 0 <= i <= index <= |q.slots| == |addrs| == connectors.Length
      invariant Shows(cfg, addrs, connectors[..], q.slots) && q.index == index && q.now == now
      invariant lastError == q.lastError && ret == q.ret == None && Settleable(q.slots, i)
      invariant AfterAll(cfg, addrs, q, input, i) == AfterAll(cfg, addrs, r, input, 0)
      invariant forall j :: 0 <= j < connectors.Length ==> connectors[j] == null || connectors[j] == old(connectors[j])
    {
      AfterAllStep(cfg, addrs, q, input, i);
      var c := connectors[i];
      ShowsAt(cfg, addrs, connectors[..], q.slots, i);
      if c != null {
        ObjectsAt(old(connectors[..]), i);
        SettleableAt(q.slots, i);
        var status, socket := Settle(cfg, addrs, connectors, i, c, ReadyAt(input, i), now, q);
        q := Judged(cfg, q, addrs[i], ReadyAt(input, i), i);
        if status == Error {
          lastError := true;
        } else if status == Connected {
          ret := socket;
          AfterAllEnd(cfg, addrs, q, input, index);
          return;
        }
      } else {
        SettleableNext(q.slots, i);
      }
      i := i + 1;
    }
    AfterAllEnd(cfg, addrs, q, input, index);
  }

  lemma SettleableNext(slots: seq<Option<Conn>>, i: nat)
    requires Settleable(slots, i)
    ensures Settleable(slots, i + 1)
  {
  }

  lemma AfterAllEnd(cfg: Config, addrs: seq<Addr>, q: Race, input: Input, index: nat)
    requires |addrs| == |q.slots| && q.index == index <= |q.slots|
    ensures AfterAll(cfg, addrs, q, input, index) == q
  {
  }

  /** std::count_if with __IsConnecting. */
  method CountConnecting(cfg: Config, addrs: seq<Addr>, connectors: array<TcpConnector?>, ghost slots: seq<Option<Conn>>)
    returns (n: nat)
    requires Shows(cfg, addrs, connectors[..], slots)
    ensures n == Running(slots)
  {
    n := 0;
    var i := 0;
    while i < connectors.Length
      invariant 0 <= i <= connectors.Length == |slots|
      invariant n + Running(slots[i..]) == Running(slots)
    {
      var c := connectors[i];
      assert c == connectors[..][i];
      assert slots[i..][0] == slots[i] && slots[i..][1..] == slots[i + 1..];
      if c != null && c.socket.Some? {
        n := n + 1;
      }
      i := i + 1;
    }
  }

  /** Lines 139-145. */
  method NoneLeft(cfg: Config, addrs: seq<Addr>, connectors: array<TcpConnector?>, ghost slots: seq<Option<Conn>>)
    returns (allInvalid: bool)
    requires Shows(cfg, addrs, connectors[..], slots)
    ensures allInvalid <==> AllInvalid(slots)
  {
    allInvalid := true;
    var i := 0;
    while i < connectors.Length
      invariant 0 <= i <= connectors.Length == |slots|
      invariant allInvalid && forall j :: 0 <= j < i ==> slots[j].None?
    {
      assert connectors[i] == connectors[..][i];
      if connectors[i] != null {
        assert slots[i].Some?;
        return false;
      }
      i := i + 1;
    }
  }

  /** Lines 150-156. */
  method CloseRest(cfg: Config, addrs: seq<Addr>, connectors: array<TcpConnector?>, ghost r: Race)
    requires Shows(cfg, addrs, connectors[..], r.slots)
    modifies connectors, Objects(connectors[..])
    ensures forall i :: 0 <= i < connectors.Length ==> connectors[i] == null
  {
    var i := 0;
    while i < connectors.Length
      invariant 0 <= i <= connectors.Length
      invariant forall j :: 0 <= j < i ==> connectors[j] == null
      invariant forall j :: i <= j < connectors.Length ==> connectors[j] == old(connectors[j])
    {
      var c := connectors[i];
      if c != null {
        assert c == old(connectors[i]) && c in old(connectors[..]);
        c.Close();
        connectors[i] := null;
      }
      i := i + 1;
    }
  }

  lemma {:induction false} RoundsSnoc(cfg: Config, addrs: seq<Addr>, r: Race, inputs: seq<Input>, input: Input)
    requires RaceInv(cfg, addrs, r) && Rounds(cfg, addrs, r, inputs).ended.None?
    ensures Rounds(cfg, addrs, r, inputs + [input]) == Round(cfg, addrs, Rounds(cfg, addrs, r, inputs), input)
    decreases |inputs|
  {
    hide Round, RaceInv;
    RaceBounds(cfg, addrs, r);
    if inputs == [] {
      RoundInv(cfg, addrs, r, input);
      assert ([] + [input])[1..] == [];
    } else {
      NotEndedBefore(cfg, addrs, r, inputs);
      RoundInv(cfg, addrs, r, inputs[0]);
      assert (inputs + [input])[1..] == inputs[1..] + [input];
      RoundsSnoc(cfg, addrs, Round(cfg, addrs, r, inputs[0]), inputs[1..], input);
    }
  }

  lemma NotEndedBefore(cfg: Config, addrs: seq<Addr>, r: Race, inputs: seq<Input>)
    requires RaceInv(cfg, addrs, r) && Rounds(cfg, addrs, r, inputs).ended.None?
    ensures r.ended.None?
  {
    hide Round, RaceInv;
  }

  /** The constructors of lines 30-43. */
  method NewConnectors(cfg: Config, addrs: seq<Addr>) returns (connectors: array<TcpConnector?>)
    ensures fresh(connectors) && forall i :: 0 <= i < connectors.Length ==> connectors[i] != null && fresh(connectors[i])
    ensures Shows(cfg, addrs, connectors[..], seq(|addrs|, _ => Some(Conn(Start, false, 0))))
  {
    connectors := new TcpConnector?[|addrs|](_ => null);
    var i := 0;
    while i < |addrs|
      invariant 0 <= i <= |addrs| == connectors.Length
      invariant forall j :: 0 <= j < i ==>
        && connectors[j] != null && fresh(connectors[j]) && connectors[j].index == j && connectors[j].Sound()
        && connectors[j].addr == addrs[j] && connectors[j].connTimeout == cfg.timeout
        && connectors[j].View() == Conn(Start, false, 0)
    {
      var conn := new TcpConnector(addrs[i], i, cfg.timeout);
      connectors[i] := conn;
      i := i + 1;
    }
  }

  /** Lines 61-82: how long to wait, and whether the next address starts now. */
  method StartNext(cfg: Config, addrs: seq<Addr>, connectors: array<TcpConnector?>, curTime: int,
                   lastStart0: int, lastError0: bool, index0: nat, ghost r: Race)
    returns (timeout: int, lastStartConnTime: int, lastError: bool, index: nat)
    requires Shows(cfg, addrs, connectors[..], r.slots)
    requires r.now == curTime && r.lastStart == lastStart0 && r.lastError == lastError0 && r.index == index0
    ensures var m := Schedule(cfg, r); m.index == index && m.lastStart == lastStartConnTime && m.lastError == lastError
    ensures timeout == ScheduleTimeout(cfg, r)
  {
    lastStartConnTime, lastError, index := lastStart0, lastError0, index0;
    var interval := if lastError then cfg.errorInterval else cfg.interval;
    var nextConnTimeout := interval - (curTime - lastStartConnTime);
    timeout := cfg.timeout;
    var runningCount := CountConnecting(cfg, addrs, connectors, r.slots);
    hide Running;
    if index < connectors.Length && runningCount < cfg.maxConnect {
      if nextConnTimeout > 0 {
        timeout := Min(timeout, nextConnTimeout);
      } else {
        lastStartConnTime := curTime;
        lastError := false;
        index := index + 1;
      }
    }
  }

  /** What AfterSelect may rely on when Select returns. */
  lemma WokenFacts(cfg: Config, addrs: seq<Addr>, r: Race, input: Input)
    requires RaceInv(cfg, addrs, r) && r.ended.None?
    ensures var w := WhenWoken(cfg, addrs, r, input);
      w.ret.None? && w.ended.None? && Settleable(w.slots, 0)
  {
    BeforeSelectKeeps(cfg, addrs, r, input);
    hide PreAll, Running, Scheduled, Owned, Blamed, Slots, Count, Spaced, SelectTimeout;
  }

  /** Lines 61-95: scheduling, PreSelect, Select. */
  method UntilWake(cfg: Config, addrs: seq<Addr>, connectors: array<TcpConnector?>, input: Input,
                   curTime: int, lastStart0: int, lastError0: bool, index0: nat, ghost r: Race)
    returns (now: int, lastStartConnTime: int, lastError: bool, index: nat)
    requires Shows(cfg, addrs, connectors[..], r.slots) && |addrs| == |r.slots| && r.index <= |r.slots|
    requires r.now == curTime && r.lastStart == lastStart0 && r.lastError == lastError0 && r.index == index0
    modifies Objects(connectors[..])
    ensures var w := WhenWoken(cfg, addrs, r, input);
      && Shows(cfg, addrs, connectors[..], w.slots)
      && w.now == now && w.lastStart == lastStartConnTime && w.lastError == lastError && w.index == index
  {
    RoundParts(cfg, addrs, r, input);
    hide *;
    var timeout;
    timeout, lastStartConnTime, lastError, index :=
      StartNext(cfg, addrs, connectors, curTime, lastStart0, lastError0, index0, r);
    ghost var q;
    timeout, q := PreSelectAll(cfg, addrs, connectors, index, input.launch, curTime, timeout, Schedule(cfg, r));
    now := curTime + Advance(timeout, input.sleep);
  }

  /** One iteration of the loop. `more` says that the loop goes on; otherwise `socket` is the result. */
  method Iterate(cfg: Config, addrs: seq<Addr>, connectors: array<TcpConnector?>, input: Input,
                 curTime: int, lastStart0: int, lastError0: bool, index0: nat, ghost r: Race)
    returns (more: bool, socket: Option<nat>, now: int, lastStartConnTime: int, lastError: bool, index: nat)
    requires RaceInv(cfg, addrs, r) && r.ended.None? && Shows(cfg, addrs, connectors[..], r.slots)
    requires r.now == curTime && r.lastStart == lastStart0 && r.lastError == lastError0 && r.index == index0
    modifies connectors, Objects(connectors[..])
    ensures var u := Round(cfg, addrs, r, input);
      && (more <==> u.ended.None?) && socket == u.ret
      && (more ==>
        && u.now == now && u.lastStart == lastStartConnTime && u.lastError == lastError && u.index == index
        && Shows(cfg, addrs, connectors[..], u.slots))
    ensures forall j :: 0 <= j < connectors.Length ==> connectors[j] == null || connectors[j] == old(connectors[j])
  {
    RaceBounds(cfg, addrs, r);
    WokenFacts(cfg, addrs, r, input);
    RoundConcludes(cfg, addrs, r, input);
    hide *;
    now, lastStartConnTime, lastError, index :=
      UntilWake(cfg, addrs, connectors, input, curTime, lastStart0, lastError0, index0, r);
    assert connectors[..] == old(connectors[..]);
    ghost var w := WhenWoken(cfg, addrs, r, input);
    more, socket, lastError := AfterWake(cfg, addrs, connectors, index, input, now, lastError, w);
  }

  lemma RoundConcludes(cfg: Config, addrs: seq<Addr>, r: Race, input: Input)
    requires |addrs| == |r.slots| && r.index <= |r.slots|
    ensures Round(cfg, addrs, r, input) == Concluded(cfg, addrs, WhenWoken(cfg, addrs, r, input), input)
  {
    hide WhenWoken, AfterAll, Finish;
  }

  lemma RoundParts(cfg: Config, addrs: seq<Addr>, r: Race, input: Input)
    requires |addrs| == |r.slots| && r.index <= |r.slots|
    ensures var m := Schedule(cfg, r);
      && m == r.(index := m.index, lastStart := m.lastStart, lastError := m.lastError, log := m.log)
      && m.index <= |m.slots|
      && var q := PreAll(cfg, addrs, m, input.launch, 0);
         var w := q.(now := q.now + Advance(Nearest(cfg, q.slots, q.index, q.now, ScheduleTimeout(cfg, r)), input.sleep));
         w == WhenWoken(cfg, addrs, r, input)
  {
    hide PreAll, Nearest, AfterAll, Finish, Running;
  }

  /** Lines 96-156 as a function of the state in which Select returns. */
  ghost function Concluded(cfg: Config, addrs: seq<Addr>, w: Race, input: Input): Race
    requires |addrs| == |w.slots| && w.index <= |w.slots|
  {
    if input.outcome == SelectError || input.outcome == BreakerError then Finish(w, SelectFailed)
    else if input.outcome == Broken then Finish(w, Interrupted)
    else
      var u := AfterAll(cfg, addrs, w, input, 0);
      if u.ret.Some? then Finish(u, Found)
      else if AllInvalid(u.slots) then Finish(u, Exhausted)
      else u
  }

  method AfterWake(cfg: Config, addrs: seq<Addr>, connectors: array<TcpConnector?>, index: nat,
                   input: Input, now: int, lastError0: bool, ghost w: Race)
    returns (more: bool, socket: Option<nat>, lastError: bool)
    requires Shows(cfg, addrs, connectors[..], w.slots) && w.index == index <= |w.slots| && w.now == now
    requires w.ret.None? && w.ended.None? && w.lastError == lastError0 && Settleable(w.slots, 0)
    modifies connectors, Objects(connectors[..])
    ensures var u := Concluded(cfg, addrs, w, input);
      && (more <==> u.ended.None?) && socket == u.ret
      && (more ==> u == w.(slots := u.slots, log := u.log, lastError := lastError)
                   && Shows(cfg, addrs, connectors[..], u.slots))
    ensures forall j :: 0 <= j < connectors.Length ==> connectors[j] == null || connectors[j] == old(connectors[j])
  {
    hide Settleable, AfterAll, CloseAll;
    if input.outcome == SelectError || input.outcome == BreakerError || input.outcome == Broken {
      CloseAllReturns(w);
      CloseRest(cfg, addrs, connectors, w);
      return false, None, lastError0;
    }
    ghost var u;
    lastError, socket, u := AfterSelectAll(cfg, addrs, connectors, index, input, now, lastError0, w);
    var allInvalid := NoneLeft(cfg, addrs, connectors, u.slots);
    CloseAllReturns(u);
    more := !(allInvalid || socket.Some?);
    if !more {
      CloseRest(cfg, addrs, connectors, u);
    }
  }

  lemma CloseAllReturns(r: Race)
    ensures CloseAll(r, 0).ret == r.ret
  {
    CloseAllRet(r, 0);
  }

  lemma {:induction false} CloseAllRet(r: Race, i: nat)
    requires i <= |r.slots|
    ensures CloseAll(r, i).ret == r.ret
    decreases |r.slots| - i
  {
    if i < |r.slots| {
      var log := if r.slots[i].Some? && r.slots[i].value.hasSocket then r.log + [Closed(i)] else r.log;
      CloseAllRet(r.(slots := r.slots[i := None], log := log), i + 1);
    }
  }

  function FirstAnswers(env: nat -> Input, n: nat): seq<Input> {
    seq(n, k requires 0 <= k => env(k))
  }

  /** The race in an environment that answers iteration `k` with `env(k)`, for as many iterations
      as it can have. */
  ghost function WholeRace(cfg: Config, addrs: seq<Addr>, entry: int, env: nat -> Input): Race {
    RaceAfter(cfg, addrs, entry, FirstAnswers(env, if addrs == [] then 0 else Bound(cfg, |addrs|) + 1))
  }

  /** Further answers change nothing once the race is over. */
  lemma {:induction false} RoundsStop(cfg: Config, addrs: seq<Addr>, r: Race, inputs: seq<Input>, more: seq<Input>)
    requires RaceInv(cfg, addrs, r) && Rounds(cfg, addrs, r, inputs).ended.Some?
    ensures Rounds(cfg, addrs, r, inputs + more) == Rounds(cfg, addrs, r, inputs)
    decreases |inputs|
  {
    hide Round, RaceInv;
    if inputs == [] {
      assert [] + more == more;
    } else if r.ended.None? {
      RaceBounds(cfg, addrs, r);
      RoundInv(cfg, addrs, r, inputs[0]);
      assert (inputs + more)[1..] == inputs[1..] + more;
      RoundsStop(cfg, addrs, Round(cfg, addrs, r, inputs[0]), inputs[1..], more);
    }
  }

  /** ConnectImpatient. `env` answers the system calls, one entry per iteration. With plain
      connectors and room for at least one attempt the loop ends, and it computes the race. */
  method ConnectImpatient(cfg: Config, addrs: seq<Addr>, entry: int, env: nat -> Input)
    returns (socket: Option<nat>)
    requires Plain(addrs) && cfg.maxConnect > 0
    ensures var u := WholeRace(cfg, addrs, entry, env); u.ended.Some? && socket == u.ret
  {
    hide Round, RaceInv, Rounds, Timely, Bound, Spaced, Running;
    ghost var inputs := [];
    EntryInv(cfg, addrs, entry);
    ghost var r0 := Entry(cfg, addrs, entry);
    NoRounds(cfg, addrs, r0);
    if |addrs| == 0 {
      NoAddressRace(cfg, entry, env);
      return None;
    }
    var connectors := NewConnectors(cfg, addrs);
    var curTime, lastStartConnTime, lastError, index: nat := entry, entry - cfg.interval, false, 0;
    ghost var r := r0;
    EntryTimely(cfg, addrs, entry);
    var more, k := true, 0;
    socket := None;
    while more
      invariant k == |inputs| && forall j :: 0 <= j < k ==> inputs[j] == env(j)
      invariant RaceInv(cfg, addrs, r) && r == Rounds(cfg, addrs, r0, inputs)
      invariant more <==> r.ended.None?
      invariant !more ==> socket == r.ret
      invariant more ==> Timely(cfg, r, entry) && Shows(cfg, addrs, connectors[..], r.slots)
      invariant more ==> r.now == curTime && r.lastStart == lastStartConnTime && r.lastError == lastError && r.index == index
      invariant entry + k <= r.now <= entry + Bound(cfg, |addrs|)
      invariant fresh(connectors) && forall j :: 0 <= j < connectors.Length ==> connectors[j] == null || fresh(connectors[j])
      decreases if more then 1 else 0, entry + Bound(cfg, |addrs|) - r.now
    {
      var input := env(k);
      RaceBounds(cfg, addrs, r);
      RoundTimely(cfg, addrs, r, input, entry);
      RoundInv(cfg, addrs, r, input);
      RoundsSnoc(cfg, addrs, r0, inputs, input);
      more, socket, curTime, lastStartConnTime, lastError, index :=
        Iterate(cfg, addrs, connectors, input, curTime, lastStartConnTime, lastError, index, r);
      r := Round(cfg, addrs, r, input);
      inputs := inputs + [input];
      k := k + 1;
    }
    RaceIsOver(cfg, addrs, entry, env, inputs);
  }

  lemma NoAddressRace(cfg: Config, entry: int, env: nat -> Input)
    ensures var u := WholeRace(cfg, [], entry, env); u.ended == Some(NoAddress) && u.ret.None?
  {
    EntryInv(cfg, [], entry);
    assert FirstAnswers(env, 0) == [];
    NoRounds(cfg, [], Entry(cfg, [], entry));
    hide Rounds, RaceInv;
  }

  lemma AnswersSoFar(env: nat -> Input, n: nat, inputs: seq<Input>)
    requires |inputs| <= n && forall j :: 0 <= j < |inputs| ==> inputs[j] == env(j)
    ensures FirstAnswers(env, n) == inputs + FirstAnswers(env, n)[|inputs|..]
  {
    assert FirstAnswers(env, n)[..|inputs|] == inputs;
  }

  lemma RaceIsOver(cfg: Config, addrs: seq<Addr>, entry: int, env: nat -> Input, inputs: seq<Input>)
    requires addrs != [] && |inputs| <= Bound(cfg, |addrs|) + 1
    requires forall j :: 0 <= j < |inputs| ==> inputs[j] == env(j)
    requires RaceAfter(cfg, addrs, entry, inputs).ended.Some?
    ensures WholeRace(cfg, addrs, entry, env) == RaceAfter(cfg, addrs, entry, inputs)
  {
    hide Bound, Rounds, RaceInv, FirstAnswers;
    EntryInv(cfg, addrs, entry);
    var n := Bound(cfg, |addrs|) + 1;
    AnswersSoFar(env, n, inputs);
    RoundsStop(cfg, addrs, Entry(cfg, addrs, entry), inputs, FirstAnswers(env, n)[|inputs|..]);
  }

  lemma NoRounds(cfg: Config, addrs: seq<Addr>, r: Race)
    requires RaceInv(cfg, addrs, r)
    ensures Rounds(cfg, addrs, r, []) == r
  {
    hide RaceInv;
  }

  lemma EntryTimely(cfg: Config, addrs: seq<Addr>, entry: int)
    requires addrs != []
    ensures Timely(cfg, Entry(cfg, addrs, entry), entry) && entry <= entry + Bound(cfg, |addrs|)
    ensures Entry(cfg, addrs, entry).ended.None?
  {
  }
}
