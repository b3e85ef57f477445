/** The connection race of connect/complex_connect.cpp over plain TCP connectors
    (connect/tcp_connector.cpp): one iteration of its loop as a function of the state and of
    what the system calls answer, and what every race keeps. The clock only moves inside
    Select. */
module ConnectRace {
  import opened Options

  const INT_MAX := 0x7FFF_FFFF

  datatype Config = Config(timeout: nat, interval: nat, errorInterval: nat, maxConnect: nat)

  datatype Addr = Addr(hasIp: bool, isTls: bool)

  datatype Status = Start | Connecting | Error | StartSSL | Connected | End

  /** A TcpConnector: its status, whether it owns a socket object, and `_startConnTime`. */
  datatype Conn = Conn(status: Status, hasSocket: bool, start: int)

  // ----- what the environment decides in one iteration -----

  /** The system calls of PreConnectSelect. */
  datatype Launch = Launched | NoSocket | NoNonblock | Refused

  /** What Select reports for one socket, and whether it can be made blocking again. */
  datatype Ready = Ready(error: bool, writable: bool, blockOk: bool)

  datatype Outcome = Woken | SelectError | BreakerError | Broken

  /** `sleep` is how long Select would like to wait, in milliseconds. */
  datatype Input = Input(launch: Launch, sleep: nat, outcome: Outcome, ready: seq<Ready>)

  // ----- the state -----

  datatype Happening = Started(i: nat, at: int) | Opened(i: nat) | Failed(i: nat) | Closed(i: nat)

  datatype Reason = NoAddress | SelectFailed | Interrupted | Exhausted | Found

  datatype Race = Race(
    now: int,
    lastStart: int,
    lastError: bool,
    index: nat,
    slots: seq<Option<Conn>>,  // `connectors`; None is a slot set to NULL
    ret: Option<nat>,          // `retIndex`
    ended: Option<Reason>,
    log: seq<Happening>        // history
  )

  function Entry(cfg: Config, addrs: seq<Addr>, now: int): Race {
    var slots := seq(|addrs|, _ => Some(Conn(Start, false, 0)));
    Race(now, now - cfg.interval, false, 0, slots, None, if addrs == [] then Some(NoAddress) else None, [])
  }

  function Min(a: int, b: int): int { if a < b then a else b }

  function Max(a: int, b: int): int { if a < b then b else a }

  /** TcpConnector::Timeout. */
  function TimeLeft(cfg: Config, c: Conn, now: int): int {
    match c.status
    case Connecting => c.start + cfg.timeout - now
    case Error => 0
    case Connected => 0
    case _ => INT_MAX
  }

  /** TcpConnector::PreSelect: a connector that has not started connects now. */
  function PreSelect(c: Conn, addr: Addr, launch: Launch, now: int): Conn {
    if c.status != Start then c
    else if launch == NoSocket || !addr.hasIp || launch == NoNonblock then c.(status := Error)
    else if launch == Refused then c.(status := Error, start := now)
    else Conn(Connecting, true, now)
  }

  /** TcpConnector::AfterSelect. */
  function AfterSelect(cfg: Config, c: Conn, addr: Addr, ready: Ready, now: int): Conn {
    if c.status != Connecting then c
    else if !c.hasSocket || ready.error then c.(status := Error)
    else if ready.writable then
      c.(status := if addr.isTls then StartSSL else if ready.blockOk then Connected else Error)
    else if TimeLeft(cfg, c, now) <= 0 then c.(status := Error)
    else c
  }

  /** How many connectors own a socket. */
  function Running(slots: seq<Option<Conn>>): nat {
    if slots == [] then 0
    else (if slots[0].Some? && slots[0].value.hasSocket then 1 else 0) + Running(slots[1..])
  }

  /** `nextConnTimeout`. */
  function NextIn(cfg: Config, r: Race): int {
    (if r.lastError then cfg.errorInterval else cfg.interval) - (r.now - r.lastStart)
  }

  predicate MayStart(cfg: Config, r: Race) {
    r.index < |r.slots| && Running(r.slots) < cfg.maxConnect
  }

  /** Lines 69-82: start the next address if it may start and its time has come. */
  function Schedule(cfg: Config, r: Race): Race {
    if MayStart(cfg, r) && NextIn(cfg, r) <= 0 then
      r.(lastStart := r.now, lastError := false, index := r.index + 1, log := r.log + [Started(r.index, r.now)])
    else r
  }

  function ScheduleTimeout(cfg: Config, r: Race): int {
    if MayStart(cfg, r) && NextIn(cfg, r) > 0 then Min(cfg.timeout, NextIn(cfg, r)) else cfg.timeout
  }

  /** Lines 84-90, from connector `i` on. */
  function PreAll(cfg: Config, addrs: seq<Addr>, r: Race, launch: Launch, i: nat): Race
    requires |addrs| == |r.slots| && r.index <= |r.slots|
    ensures var q := PreAll(cfg, addrs, r, launch, i);
      |q.slots| == |r.slots| && q == r.(slots := q.slots, log := q.log)
    decreases r.index - i
  {
    if i >= r.index then r
    else if r.slots[i].None? then PreAll(cfg, addrs, r, launch, i + 1)
    else
      var c := r.slots[i].value;
      var c' := PreSelect(c, addrs[i], launch, r.now);
      var log := if c'.hasSocket && !c.hasSocket then r.log + [Opened(i)] else r.log;
      PreAll(cfg, addrs, r.(slots := r.slots[i := Some(c')], log := log), launch, i + 1)
  }

  /** The smallest remaining time among the first `n` connectors, but at most `timeout`. */
  function Nearest(cfg: Config, slots: seq<Option<Conn>>, n: nat, now: int, timeout: int): int
    requires n <= |slots|
  {
    if n == 0 then timeout
    else
      var t := Nearest(cfg, slots, n - 1, now, timeout);
      if slots[n - 1].None? then t else Min(t, TimeLeft(cfg, slots[n - 1].value, now))
  }

  /** How far the clock moves: Select waits at most `timeout/1000` seconds, and an iteration
      takes at least a millisecond. */
  function Advance(timeout: int, sleep: nat): (a: nat)
    ensures 1 <= a && a <= Max(1, timeout)
  {
    Max(1, Min(sleep, Max(0, timeout) / 1000 * 1000))
  }

  function ReadyAt(input: Input, i: nat): Ready {
    if i < |input.ready| then input.ready[i] else Ready(false, false, true)
  }

  /** Lines 112-137, from connector `i` on. */
  function AfterAll(cfg: Config, addrs: seq<Addr>, r: Race, input: Input, i: nat): Race
    requires |addrs| == |r.slots| && r.index <= |r.slots|
    ensures var q := AfterAll(cfg, addrs, r, input, i);
      |q.slots| == |r.slots| && q == r.(slots := q.slots, log := q.log, lastError := q.lastError, ret := q.ret)
    decreases r.index - i
  {
    if i >= r.index then r
    else if r.slots[i].None? then AfterAll(cfg, addrs, r, input, i + 1)
    else
      var c := AfterSelect(cfg, r.slots[i].value, addrs[i], ReadyAt(input, i), r.now);
      if c.status == Error then
        var log := if c.hasSocket then r.log + [Closed(i), Failed(i)] else r.log + [Failed(i)];
        AfterAll(cfg, addrs, r.(slots := r.slots[i := None], lastError := true, log := log), input, i + 1)
      else if c.status == Connected then
        r.(slots := r.slots[i := None], ret := Some(i))
      else
        AfterAll(cfg, addrs, r.(slots := r.slots[i := Some(c)]), input, i + 1)
  }

  /** Lines 150-156: close whatever is left, from slot `i` on. */
  function CloseAll(r: Race, i: nat): Race
    requires i <= |r.slots|
    decreases |r.slots| - i
  {
    if i == |r.slots| then r
    else
      var log := if r.slots[i].Some? && r.slots[i].value.hasSocket then r.log + [Closed(i)] else r.log;
      CloseAll(r.(slots := r.slots[i := None], log := log), i + 1)
  }

  function Finish(r: Race, reason: Reason): Race {
    CloseAll(r, 0).(ended := Some(reason))
  }

  /** The part of an iteration before Select returns. */
  function BeforeSelect(cfg: Config, addrs: seq<Addr>, r: Race, input: Input): Race
    requires |addrs| == |r.slots| && r.index <= |r.slots|
    ensures var q := BeforeSelect(cfg, addrs, r, input); |q.slots| == |r.slots| && q.index <= |q.slots|
  {
    PreAll(cfg, addrs, Schedule(cfg, r), input.launch, 0)
  }

  function SelectTimeout(cfg: Config, addrs: seq<Addr>, r: Race, input: Input): int
    requires |addrs| == |r.slots| && r.index <= |r.slots|
  {
    var q := BeforeSelect(cfg, addrs, r, input);
    Nearest(cfg, q.slots, q.index, q.now, ScheduleTimeout(cfg, r))
  }

  predicate AllInvalid(slots: seq<Option<Conn>>) {
    forall i :: 0 <= i < |slots| ==> slots[i].None?
  }

  /** The state when Select returns. */
  function WhenWoken(cfg: Config, addrs: seq<Addr>, r: Race, input: Input): Race
    requires |addrs| == |r.slots| && r.index <= |r.slots|
    ensures var w := WhenWoken(cfg, addrs, r, input); |w.slots| == |r.slots| && w.index <= |w.slots|
  {
    var q := BeforeSelect(cfg, addrs, r, input);
    q.(now := q.now + Advance(SelectTimeout(cfg, addrs, r, input), input.sleep))
  }

  /** One iteration of the loop in ConnectImpatient. */
  function Round(cfg: Config, addrs: seq<Addr>, r: Race, input: Input): Race
    requires |addrs| == |r.slots| && r.index <= |r.slots|
  {
    var w := WhenWoken(cfg, addrs, r, input);
    match input.outcome
    case SelectError => Finish(w, SelectFailed)
    case BreakerError => Finish(w, SelectFailed)
    case Broken => Finish(w, Interrupted)
    case Woken =>
      var u := AfterAll(cfg, addrs, w, input, 0);
      if u.ret.Some? then Finish(u, Found)
      else if AllInvalid(u.slots) then Finish(u, Exhausted)
      else u
  }
}
