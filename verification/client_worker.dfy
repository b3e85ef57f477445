/** The worker thread of tcp_client.cpp next to API threads, the timer thread and the network,
    as a step system. API calls that hold `_mutex` are split where another thread can see them
    half done; the worker is split at every access to a shared field. Unlocked fields are read
    and written one at a time in some order. */
module ClientWorker {
  import Alarms
  import L = WorkerLife
  import opened Breakers

  datatype ConnectStatus = Idle | Connecting | Connected | Disconnected | ConnectFailed | ConnectKickout

  /** `calls` says that the request has a callback to call. */
  datatype Outgoing = Request(id: nat, calls: bool) | NoReply | Farewell

  predicate Calls(m: Outgoing) { m.Request? && m.calls }

  /** What __RunConnect returns. */
  datatype Verdict = Success | Kickout | Failed | TimedOut

  /** What Poll reports about the socket; `error` is any of lines 499-519. */
  datatype Events = Events(readable: bool, writable: bool, error: bool)

  /** Where __RunConnect is: before the host is resolved; in one of the waits that watch the connect
      breaker, the one of GetHostByName or those of the race; or behind the race. In Selected
      epoll_wait has returned and the breaker is not cleared yet; `heard` says that it was reported,
      `failed` that epoll_wait returned an error. */
  datatype Stage =
    | Preparing              // lines 324-361
    | Resolving              // dns_query.cpp:74-78
    | Racing                 // between two Selects, complex_connect.cpp:55-95
    | Selected(racing: bool, heard: bool, failed: bool)
    | Exchanging             // lines 380-455

  datatype Pc =
    | Begin                  // line 322
    | Dialing(at: Stage)     // in __RunConnect
    | Judged(v: Verdict)     // lines 278-286
    | Sample                 // lines 469-491
    | Blocked(watch: bool)   // in epoll_wait; `watch` is the write interest
    | Woken(ev: Events)      // epoll_wait has returned, the breaker is not cleared yet
    | CheckStop(ev: Events)  // line 494
    | CheckPing(ev: Events)  // lines 499-526
    | CheckQueue(ev: Events) // lines 528-532
    | Writing(ev: Events)    // lines 534-542
    | Written(ev: Events)    // lines 543-585
    | Reading(ev: Events)    // lines 592-617
    | Handling               // inside the DisconnectAsync of line 706
    | Pinging                // lines 622-636
    | Leaving                // lines 464-465 and 310-314
    | Ending                 // line 316
    | AtStart                // line 318 and after: see WorkerLife

  /** Who holds `_mutex`, and how far they are: MakeSureConnected past lines 112-121, 123 and
      124, from the reconnect callback or not; DisconnectAsync before line 153 and before line 158;
      a Send between push and Break. */
  datatype Holder = Nobody | Making(stage: nat, auto: bool) | Stopping(stage: nat, self: bool) | Pushing

  /** The reconnect callback after line 82: before line 83, before it has `_mutex` in line 85, or
      past its call. */
  datatype AutoPc = Undecided | WillConnect | Done

  datatype PingTimeout = Off | Armed | Rung

  const KICKOUT: nat := 4
  const SEND_REQ_TIMEOUT: nat := 7
  const PING_TIMEOUT: nat := 8

  datatype Client = Client(
    life: L.Life,
    pc: Pc,
    status: ConnectStatus,
    disCode: nat,               // 0 is kDisCodeNone
    shouldReconnect: bool,
    timeoutDisconnect: bool,
    timeoutStops: bool,         // a timeout callback is at line 571 and does not have `_mutex` yet
    inFlight: nat,              // requests written whose callback is still to be called
    queue: seq<Outgoing>,
    rw: Breaker,
    conn: Breaker,
    holder: Holder,
    pingTimeout: PingTimeout,   // the status of _pingTimeoutAlarm
    auto: AutoPc,
    ringing: bool,              // a ping callback runs and has not called Break yet
    trace: seq<ConnectStatus>,  // history: what _onStatusChange was called with
    verdicts: seq<Verdict>,     // history: what __RunConnect returned
    spawned: nat,               // history: number of workers created
    pushed: seq<Outgoing>,      // history: what was queued since the worker was created
    wire: seq<Outgoing>         // history: what the worker has written
  )

  datatype Event =
    // API threads
    | MakeSure
    | MakeNext
    | Stop(code: nat, again: bool)
    | StopNext
    | Push(m: Outgoing)
    | PushBreak
    // the timer thread
    | Rings(timeout: bool)
    | RingBreak
    | TimesOut                 // lines 553-570, for a request with a callback
    | TimeoutStop              // line 571, once it has `_mutex`
    | LifeStep(a: L.Act)
    | Reconsider               // line 83
    | AutoMake                 // line 85, up to line 121
    | AutoEnd                  // line 87
    // the worker
    | Work(w: Work)

  /** How the host is resolved, or why it is not: no network, or no host or backup ip. */
  datatype Route = NoNet | NoHost | AskDns | HttpDns

  /** What an iteration of the race comes to, unless Select fails or reports the breaker. */
  datatype Progress = Again | Found | Exhausted

  /** The steps of __RunConnect: up to the resolving, a wait, the Clear behind it together with the
      tests of what the wait has reported, and the exchange of Connect and ConnAck. */
  datatype DialStep = Prepare(route: Route) | Select(failed: bool) | Heed(next: Progress) | Login(v: Verdict)

  /** The worker's steps, in the order of its code. */
  datatype Work =
    | Announce
    | Dial(d: DialStep)
    | Judge
    | TakeSample
    | Wake(ev: Events)
    | ClearSignal
    | LookForStop
    | LookForPing
    | LookForMessage
    | Write(ok: bool)
    | Pop
    | Read(ok: bool, pingResp: bool, answers: bool)
    | KickedOut
    | Ping(due: bool, ok: bool)
    | Leave
    | End
    | StartAlarm

  predicate DialAt(at: Stage, d: DialStep) {
    match d
    case Prepare(_) => at.Preparing?
    case Select(_) => at.Resolving? || at.Racing?
    case Heed(_) => at.Selected?
    case Login(_) => at.Exchanging?
  }

  /** The worker's code is at `pc`. */
  predicate WorkerAt(c: Client, w: Work)
  {
    match w
    case Announce => c.pc.Begin?
    case Dial(d) => c.pc.Dialing? && DialAt(c.pc.at, d)
    case Judge => c.pc.Judged?
    case TakeSample => c.pc.Sample? && c.holder == Nobody
    case Wake(ev) =>
      && c.pc.Blocked? && (ev.writable ==> c.pc.watch)
      && (c.rw.unread > 0 || ev.readable || ev.writable || ev.error)
    case ClearSignal => c.pc.Woken?
    case LookForStop => c.pc.CheckStop?
    case LookForPing => c.pc.CheckPing?
    case LookForMessage => c.pc.CheckQueue? && c.holder == Nobody
    case Write(_) => c.pc.Writing? && c.holder == Nobody && c.queue != []
    case Pop => c.pc.Written? && c.holder == Nobody && c.queue != []
    case Read(ok, pingResp, answers) =>
      && c.pc.Reading? && (!c.pc.ev.readable ==> ok && !pingResp)
      && (answers ==> c.pc.ev.readable && ok && !pingResp && c.inFlight > 0)
    case KickedOut => c.pc.Reading? && c.pc.ev.readable && c.holder == Nobody
    case Ping(due, ok) => c.pc.Pinging? && (!due ==> ok)
    case Leave => c.pc.Leaving?
    case End => c.pc.Ending?
    case StartAlarm => c.pc.AtStart? && L.Ready(c.life, L.StartReconnect)
  }

  /** The timer thread runs one callback at a time. */
  predicate TimerIdle(c: Client) { c.life.cb == L.Quiet && !c.ringing && !c.timeoutStops }

  predicate Enabled(c: Client, e: Event) {
    match e
    case MakeSure => c.holder == Nobody && c.status != Connected && !c.life.thread
    case MakeNext => c.holder.Making? && (c.holder.stage >= 2 ==> L.Ready(c.life, L.Spawn))
    case Stop(_, _) => c.holder == Nobody
    case StopNext => c.holder.Stopping?
    case Push(_) => c.holder == Nobody && c.status == Connected
    case PushBreak => c.holder == Pushing
    case Rings(timeout) => TimerIdle(c) && (timeout ==> c.pingTimeout == Armed)
    case RingBreak => c.ringing
    case TimesOut => TimerIdle(c) && c.inFlight > 0
    case TimeoutStop => c.timeoutStops && c.holder == Nobody && c.life.thread
    case LifeStep(a) =>
      && L.Ready(c.life, a) && !a.Spawn? && !a.StartReconnect? && !a.Reconnect?
      && (a.Ring? ==> !c.ringing && !c.timeoutStops)
    case Reconsider => c.life.cb == L.Cleared && c.auto == Undecided
    case AutoMake => c.auto == WillConnect && c.holder == Nobody
    case AutoEnd => c.auto == Done && !(c.holder.Making? && c.holder.auto) && L.Ready(c.life, L.Reconnect)
    case Work(w) => c.life.worker == L.Running && WorkerAt(c, w)
  }

  /** __SetConnectStatus. */
  function Report(c: Client, status: ConnectStatus): Client {
    if status == c.status then c else c.(status := status, trace := c.trace + [status])
  }

  function Outcome(v: Verdict): ConnectStatus {
    match v
    case Success => Connected
    case Kickout => ConnectKickout
    case Failed => ConnectFailed
    case TimedOut => ConnectFailed
  }

  /** Lines 110-121. */
  function Reset(c: Client, auto: bool): Client {
    c.(status := Idle, disCode := 0, shouldReconnect := true, timeoutDisconnect := false, holder := Making(0, auto))
  }

  /** Lines 135-151. Without a worker the call does nothing: the MakeSureConnected of line 144 is a
      MakeSure of its own. */
  function ApplyStopCall(c: Client, code: nat, again: bool): Client {
    if c.life.thread then c.(disCode := code, shouldReconnect := again, holder := Stopping(0, false)) else c
  }

  /** Lines 553-570 in one step, at the moment at which line 568 reads the status. Until then the
      request counts as in flight: what comes before only takes its callback away, so that a response
      to it finds none. What comes after, the flag, is the timer thread's own while there is a worker:
      line 121, the only other access, needs `_thread` to be NULL, which this thread alone sets. */
  function ApplyTimesOut(c: Client): Client
    requires c.inFlight > 0
  {
    var stops := c.status == Connected && !c.timeoutDisconnect;
    c.(inFlight := c.inFlight - 1, timeoutDisconnect := c.timeoutDisconnect || stops,
       timeoutStops := c.timeoutStops || stops)
  }

  /** The sweep over the requests in flight is taken together with line 175. */
  function ApplyLife(c: Client, a: L.Act): Client
    requires c.life.sys.t.ticksPerMs > 0 && L.Ready(c.life, a)
  {
    c.(life := L.Do(c.life, a), inFlight := if a.Forget? then 0 else c.inFlight)
  }

  function ApplyMake(c: Client): Client
    requires c.life.sys.t.ticksPerMs > 0 && Enabled(c, MakeNext)
  {
    if c.holder.stage == 0 then c.(rw := Wiped(c.rw), holder := Making(1, c.holder.auto))
    else if c.holder.stage == 1 then c.(conn := Wiped(c.conn), holder := Making(2, c.holder.auto))
    else c.(queue := [], pushed := [], wire := [], life := L.Do(c.life, L.Spawn), pc := Begin, holder := Nobody,
            spawned := c.spawned + 1)
  }

  function ApplyStop(c: Client): Client
    requires c.holder.Stopping?
  {
    if c.holder.stage == 0 then c.(rw := Broke(c.rw, false), holder := c.holder.(stage := 1))
    else c.(conn := Broke(c.conn, false), holder := Nobody, pc := if c.holder.self then Pinging else c.pc)
  }

  /** The steps of __RunConnect, and of __Run around the loop. */
  predicate AroundLoop(w: Work) {
    w.Announce? || w.Dial? || w.Judge? || w.Leave? || w.End? || w.StartAlarm?
  }

  /** The steps of the loop that read and write the socket. */
  predicate Transfers(w: Work) { w.Write? || w.Pop? || w.Read? || w.KickedOut? || w.Ping? }

  /** Where a wait that watched the connect breaker leads to (dns_query.cpp:80-98,
      complex_connect.cpp:97-147). An error ends the race, but not the resolving. */
  function PastSelect(at: Stage, next: Progress): Pc
    requires at.Selected?
  {
    if at.heard || (at.racing && (at.failed || next == Exhausted)) then Judged(Failed)
    else Dialing(if at.racing && next == Found then Exchanging else Racing)
  }

  function ApplyDial(c: Client, d: DialStep): Client
    requires c.pc.Dialing? && DialAt(c.pc.at, d)
  {
    match d
    case Prepare(route) =>
      if route == NoNet then c.(pc := Judged(Failed), shouldReconnect := false)
      else if route == NoHost then c.(pc := Judged(Failed))
      else c.(pc := Dialing(if route == AskDns then Resolving else Racing))
    case Select(failed) => c.(pc := Dialing(Selected(c.pc.at.Racing?, !failed && c.conn.unread > 0, failed)))
    case Heed(next) => c.(conn := Wiped(c.conn), pc := PastSelect(c.pc.at, next))
    case Login(v) => c.(pc := Judged(v), shouldReconnect := c.shouldReconnect && v != Kickout)
  }

  function ApplyAround(c: Client, w: Work): Client
    requires WorkerAt(c, w) && c.life.sys.t.ticksPerMs > 0 && AroundLoop(w)
  {
    match w
    case Announce => Report(c, Connecting).(pc := Dialing(Preparing))
    case Dial(d) => ApplyDial(c, d)
    case Judge =>
      Report(c, Outcome(c.pc.v)).(pc := if c.pc.v == Success then Sample else Leaving,
                                  verdicts := c.verdicts + [c.pc.v])
    case Leave => c.(pc := Ending, pingTimeout := Off)
    case End => Report(c, Disconnected).(pc := AtStart)
    case StartAlarm => c.(life := L.Do(c.life, L.StartReconnect))
  }

  function ApplyTransfer(c: Client, w: Work): Client
    requires WorkerAt(c, w) && Transfers(w)
  {
    match w
    case Write(ok) =>
      if !ok then c.(pc := Leaving)
      else c.(wire := c.wire + [c.queue[0]], pc := Written(c.pc.ev),
              inFlight := c.inFlight + if Calls(c.queue[0]) then 1 else 0)
    case Pop => c.(queue := c.queue[1..], pc := Reading(c.pc.ev))
    case Read(ok, pingResp, answers) =>
      c.(pc := if ok then Pinging else Leaving, pingTimeout := if ok && pingResp then Off else c.pingTimeout,
         inFlight := if answers then c.inFlight - 1 else c.inFlight)
    case KickedOut => c.(pc := Handling, disCode := KICKOUT, shouldReconnect := false, holder := Stopping(0, true))
    case Ping(due, ok) =>
      if !ok then c.(pc := Leaving)
      else c.(pc := Sample, pingTimeout := if due then Armed else c.pingTimeout)
  }

  function ApplyLook(c: Client, w: Work): Client
    requires WorkerAt(c, w) && !AroundLoop(w) && !Transfers(w)
  {
    match w
    case TakeSample => c.(pc := Blocked(c.queue != []))
    case Wake(ev) => c.(pc := Woken(ev))
    case ClearSignal => c.(rw := Wiped(c.rw), pc := CheckStop(c.pc.ev))
    case LookForStop => c.(pc := if c.disCode != 0 then Leaving else CheckPing(c.pc.ev))
    case LookForPing =>
      if c.pc.ev.error then c.(pc := Leaving)
      else if c.pingTimeout == Rung then c.(disCode := PING_TIMEOUT, pc := Leaving)
      else c.(pc := CheckQueue(c.pc.ev))
    case LookForMessage => c.(pc := if c.pc.ev.writable && c.queue != [] then Writing(c.pc.ev) else Reading(c.pc.ev))
  }

  function ApplyWorker(c: Client, w: Work): Client
    requires WorkerAt(c, w) && c.life.sys.t.ticksPerMs > 0
  {
    if AroundLoop(w) then ApplyAround(c, w)
    else if Transfers(w) then ApplyTransfer(c, w)
    else ApplyLook(c, w)
  }

  function Apply(c: Client, e: Event): Client
    requires c.life.sys.t.ticksPerMs > 0 && Enabled(c, e)
  {
    match e
    case MakeSure => Reset(c, false)
    case MakeNext => ApplyMake(c)
    case Stop(code, again) => ApplyStopCall(c, code, again)
    case StopNext => ApplyStop(c)
    case Push(m) => c.(queue := c.queue + [m], pushed := c.pushed + [m], holder := Pushing)
    case PushBreak => c.(rw := Broke(c.rw, false), holder := Nobody)
    case Rings(timeout) => c.(pingTimeout := if timeout then Rung else c.pingTimeout, ringing := true)
    case RingBreak => c.(rw := Broke(c.rw, false), ringing := false)
    case TimesOut => ApplyTimesOut(c)
    case TimeoutStop => ApplyStopCall(c, SEND_REQ_TIMEOUT, true).(timeoutStops := false)
    case LifeStep(a) => ApplyLife(c, a)
    case Reconsider => c.(auto := if c.shouldReconnect then WillConnect else Done)
    case AutoMake =>
      (if c.status != Connected && !c.life.thread then Reset(c, true) else c).(auto := Done)
    case AutoEnd => c.(life := L.Do(c.life, L.Reconnect), auto := Undecided)
    case Work(w) => ApplyWorker(c, w)
  }

  // ----- what always holds -----

  ghost predicate Healthy(b: Breaker) { b.open && Agrees(b) }

  /** Between the first and the last line of __Run. */
  predicate InRun(c: Client) { c.life.worker == L.Running }

  ghost predicate Phases(c: Client) {
    && (!InRun(c) ==> c.pc.AtStart?)
    && (c.holder.Making? ==> !c.life.thread && c.status == Idle && c.disCode == 0)
    && ((c.holder.Stopping? && c.holder.self) <==> c.pc.Handling?)
    && (c.pc.Begin? ==> c.status == Idle)
    && (c.auto != Undecided ==> c.life.cb == L.Cleared)
    && (c.holder.Making? && c.holder.auto ==> c.auto == Done)
  }

  /** A stop code that the worker has not read yet comes with a byte in the pipe, or with a call
      that is about to write one. */
  ghost predicate StopSignalled(c: Client) {
    InRun(c) && !c.pc.CheckStop? && !c.pc.Leaving? && !c.pc.Ending? && !c.pc.AtStart? && c.disCode != 0 ==>
      c.rw.unread == 1 || (c.holder.Stopping? && c.holder.stage == 0)
  }

  ghost predicate PingSignalled(c: Client) {
    && (InRun(c) && !c.pc.CheckStop? && !c.pc.CheckPing? && !c.pc.Leaving? && c.pingTimeout == Rung ==>
         c.rw.unread == 1 || c.ringing)
    && (!InRun(c) || c.pc.Begin? || c.pc.Dialing? || c.pc.Judged? || c.pc.Ending? || c.pc.AtStart? ==>
         c.pingTimeout == Off)
  }

  /** A worker that does not watch for writability has an empty queue, or is being signalled. */
  ghost predicate QueueSignalled(c: Client) {
    c.pc.Blocked? && !c.pc.watch && c.queue != [] ==> c.rw.unread == 1 || c.holder == Pushing
  }

  /** What was queued is what was written followed by what is still queued, in that order. */
  ghost predicate Ordered(written: bool, queue: seq<Outgoing>, wire: seq<Outgoing>, pushed: seq<Outgoing>) {
    if written then queue != [] && wire + queue[1..] == pushed else wire + queue == pushed
  }

  predicate IsOutcome(s: ConnectStatus) {
    s == Connected || s == ConnectFailed || s == ConnectKickout
  }

  /** A prefix of (Connecting (Connected | ConnectFailed | ConnectKickout) Disconnected)*. */
  ghost predicate InLanguage(trace: seq<ConnectStatus>) {
    forall i :: 0 <= i < |trace| ==>
      (i % 3 == 0 ==> trace[i] == Connecting) && (i % 3 == 1 ==> IsOutcome(trace[i]))
      && (i % 3 == 2 ==> trace[i] == Disconnected)
  }

  /** The second status of every round tells what __RunConnect returned. */
  ghost predicate Truthful(trace: seq<ConnectStatus>, verdicts: seq<Verdict>) {
    && |verdicts| == (|trace| + 1) / 3
    && forall k :: 0 <= k < |verdicts| ==>
         && (trace[3 * k + 1] == Connected <==> verdicts[k] == Success)
         && (trace[3 * k + 1] == ConnectKickout <==> verdicts[k] == Kickout)
  }

  /** The parts of __Run: outside, connecting, reading and writing, closing. */
  datatype Phase = Apart | Setup | Traffic | Closing

  function PhaseOf(pc: Pc): Phase {
    if pc.Begin? || pc.AtStart? then Apart
    else if pc.Dialing? || pc.Judged? then Setup
    else if pc.Leaving? || pc.Ending? then Closing
    else Traffic
  }

  ghost predicate TraceMeans(trace: seq<ConnectStatus>, verdicts: seq<Verdict>, status: ConnectStatus, phase: Phase) {
    && InLanguage(trace) && Truthful(trace, verdicts)
    && match phase
       case Apart => |trace| % 3 == 0 && (status == Idle || status == Disconnected)
       case Setup => |trace| % 3 == 1 && status == Connecting
       case Traffic => |trace| % 3 == 2 && status == Connected
       case Closing => |trace| % 3 == 2 && IsOutcome(status)
  }

  lemma ClosingTrace(trace: seq<ConnectStatus>, verdicts: seq<Verdict>, status: ConnectStatus)
    requires TraceMeans(trace, verdicts, status, Traffic)
    ensures TraceMeans(trace, verdicts, status, Closing)
  {
  }

  ghost predicate WritingMeans(c: Client) {
    c.pc.Writing? ==> c.queue != []
  }

  ghost predicate CoreInv(c: Client) {
    && L.LifeInv(c.life)
    && Healthy(c.rw) && Healthy(c.conn)
    && Phases(c) && StopSignalled(c) && PingSignalled(c) && QueueSignalled(c)
    && Ordered(c.pc.Written?, c.queue, c.wire, c.pushed) && WritingMeans(c)
    && TraceMeans(c.trace, c.verdicts, c.status, PhaseOf(c.pc))
  }

  /** Requests are in flight only while their worker is there, and a timeout callback that is about
      to disconnect holds the timer thread, so that nobody joins the worker meanwhile. */
  ghost predicate TimeoutMeans(c: Client) {
    && (c.timeoutStops ==> c.life.cb == L.Quiet && c.timeoutDisconnect)
    && (c.timeoutStops || c.inFlight > 0 ==> c.life.thread && (c.status == Connected || c.pc.AtStart?))
  }

  /** Between two workers `_shouldReconnect` is up only while the reconnect callback has not looked
      at it, or has and is about to connect. */
  ghost predicate GapMeans(c: Client) {
    !c.life.thread && !c.holder.Making? && c.shouldReconnect ==> c.life.cb == L.Cleared && c.auto != Done
  }

  ghost predicate ClientInv(c: Client) {
    CoreInv(c) && TimeoutMeans(c) && GapMeans(c)
  }

  function New(ticksPerMs: nat, clock: int, alarms: nat): Client {
    Client(L.Birth(ticksPerMs, clock, alarms), AtStart, Idle, 0, false, false, false, 0, [], Breaker(false, 0, true),
           Breaker(false, 0, true), Nobody, Off, Undecided, false, [], [], 0, [], [])
  }

  lemma NewInv(ticksPerMs: nat, clock: int, alarms: nat)
    requires ticksPerMs > 0 && alarms > 0
    ensures CoreInv(New(ticksPerMs, clock, alarms))
  {
    L.BirthInv(ticksPerMs, clock, alarms);
    hide L.LifeInv;
  }

  /** What the client needs to know about the life of its worker. */
  lemma LifeFacts(l: L.Life)
    requires L.LifeInv(l)
    ensures l.sys.t.ticksPerMs > 0 && (!l.thread ==> l.worker == L.Absent) && (l.worker == L.Running ==> l.thread)
  {
    hide L.NoStray;
  }

  lemma SnocLanguage(trace: seq<ConnectStatus>, s: ConnectStatus)
    requires InLanguage(trace)
    requires (|trace| % 3 == 0 ==> s == Connecting) && (|trace| % 3 == 1 ==> IsOutcome(s))
    requires |trace| % 3 == 2 ==> s == Disconnected
    ensures InLanguage(trace + [s]) && |trace + [s]| % 3 == (|trace| + 1) % 3
  {
  }

  lemma LifeStepKeeps(l: L.Life, a: L.Act)
    requires L.LifeInv(l) && L.Ready(l, a) && !a.Spawn? && !a.StartReconnect?
    ensures var u := L.Do(l, a);
      && (u.thread ==> l.thread) && (u.worker == L.Running <==> l.worker == L.Running)
      && (l.cb == L.Cleared && !a.Reconnect? ==> u.cb == L.Cleared && u.thread == l.thread)
      && (if a.Forget? then l.cb != L.Cleared && l.cb != L.Quiet && u.cb == L.Cleared && !u.thread else u.thread == l.thread)
      && (l.cb == L.Quiet && !a.Ring? ==> u.cb == L.Quiet)
  {
    hide L.NoStray, L.WorkerMeans;
  }

  lemma TruthfulSnoc(trace: seq<ConnectStatus>, verdicts: seq<Verdict>, s: ConnectStatus, v: Verdict)
    requires Truthful(trace, verdicts)
    ensures |trace| % 3 == 1 && s == Outcome(v) ==> Truthful(trace + [s], verdicts + [v])
    ensures |trace| % 3 != 1 ==> Truthful(trace + [s], verdicts)
  {
    assert forall k :: 0 <= k < |verdicts| ==> (trace + [s])[3 * k + 1] == trace[3 * k + 1];
    if |trace| % 3 == 1 {
      assert 3 * |verdicts| + 1 == |trace|;
      assert (trace + [s])[3 * |verdicts| + 1] == s;
    }
  }

  lemma PipeFacts(b: Breaker)
    requires Healthy(b)
    ensures Healthy(Broke(b, false)) && Broke(b, false).unread == 1
    ensures Healthy(Wiped(b)) && Wiped(b).unread == 0
  {
  }

  // One lemma for every kind of event.

  lemma MakeKeeps(c: Client, e: Event)
    requires CoreInv(c) && (e.MakeSure? || e.MakeNext?) && c.life.sys.t.ticksPerMs > 0 && Enabled(c, e)
    ensures CoreInv(Apply(c, e))
  {
    if e.MakeSure? { MakeSureKeeps(c); } else { MakeNextKeeps(c); }
    hide *;
  }

  lemma MakeSureKeeps(c: Client)
    requires CoreInv(c) && c.life.sys.t.ticksPerMs > 0 && Enabled(c, MakeSure)
    ensures CoreInv(Apply(c, MakeSure))
  {
    LifeFacts(c.life);
    hide L.LifeInv, InLanguage, Truthful, Ordered, Healthy;
  }

  lemma MakeNextKeeps(c: Client)
    requires CoreInv(c) && c.life.sys.t.ticksPerMs > 0 && Enabled(c, MakeNext)
    ensures CoreInv(Apply(c, MakeNext))
  {
    if c.holder.stage >= 2 { SpawnKeeps(c); } else { WipesKeep(c); }
    hide *;
  }

  lemma SpawnKeeps(c: Client)
    requires CoreInv(c) && c.life.sys.t.ticksPerMs > 0 && Enabled(c, MakeNext) && c.holder.stage >= 2
    ensures CoreInv(Apply(c, MakeNext))
  {
    LifeFacts(c.life);
    L.ActInv(c.life, L.Spawn);
    SpawnThread(c.life);
    hide L.LifeInv, L.Ready, L.Do, InLanguage, Truthful, Healthy;
  }

  lemma WipesKeep(c: Client)
    requires CoreInv(c) && c.life.sys.t.ticksPerMs > 0 && Enabled(c, MakeNext) && c.holder.stage < 2
    ensures CoreInv(Apply(c, MakeNext))
  {
    NotRunning(c);
    if c.holder.stage == 0 { WipeKeeps(c); } else { WipeConnKeeps(c); }
    hide *;
  }

  /** MakeSureConnected finds no worker. */
  lemma NotRunning(c: Client)
    requires CoreInv(c) && c.holder.Making?
    ensures !InRun(c) && c.pc.AtStart?
  {
    LifeFacts(c.life);
    hide L.LifeInv, TraceMeans, Ordered, Healthy, StopSignalled, PingSignalled, QueueSignalled;
  }

  lemma WipeKeeps(c: Client)
    requires CoreInv(c) && c.life.sys.t.ticksPerMs > 0 && Enabled(c, MakeNext) && c.holder.stage == 0
    requires !InRun(c) && c.pc.AtStart?
    ensures CoreInv(Apply(c, MakeNext))
  {
    PipeFacts(c.rw);
    hide L.LifeInv, TraceMeans, L.Ready, L.Do, Healthy, Wiped, Ordered;
  }

  lemma WipeConnKeeps(c: Client)
    requires CoreInv(c) && c.life.sys.t.ticksPerMs > 0 && Enabled(c, MakeNext) && c.holder.stage == 1
    requires !InRun(c) && c.pc.AtStart?
    ensures CoreInv(Apply(c, MakeNext))
  {
    PipeFacts(c.conn);
    hide L.LifeInv, TraceMeans, L.Ready, L.Do, Healthy, Wiped, Ordered;
  }

  lemma StopKeeps(c: Client, e: Event)
    requires CoreInv(c) && (e.Stop? || e.TimeoutStop?) && c.life.sys.t.ticksPerMs > 0 && Enabled(c, e)
    ensures CoreInv(Apply(c, e))
  {
    hide L.LifeInv, TraceMeans, L.Ready, L.Do, Ordered;
  }

  lemma StopNextKeeps(c: Client, e: Event)
    requires CoreInv(c) && e.StopNext? && c.life.sys.t.ticksPerMs > 0 && Enabled(c, e)
    ensures CoreInv(Apply(c, e))
  {
    if c.holder.stage == 0 { BreakKeeps(c); } else { BreakConnKeeps(c); }
    hide CoreInv, Broke;
  }

  lemma BreakKeeps(c: Client)
    requires CoreInv(c) && c.holder.Stopping? && c.holder.stage == 0
    ensures CoreInv(ApplyStop(c))
  {
    PipeFacts(c.rw);
    hide L.LifeInv, TraceMeans, Ordered, Healthy, Broke;
  }

  lemma BreakConnKeeps(c: Client)
    requires CoreInv(c) && c.holder.Stopping? && c.holder.stage != 0
    ensures CoreInv(ApplyStop(c))
  {
    PipeFacts(c.conn);
    hide L.LifeInv, TraceMeans, Ordered, Healthy, Broke;
  }

  lemma PushKeeps(c: Client, e: Event)
    requires CoreInv(c) && (e.Push? || e.PushBreak?) && c.life.sys.t.ticksPerMs > 0 && Enabled(c, e)
    ensures CoreInv(Apply(c, e))
  {
    if e.Push? { PushKeepsOrder(c.wire, c.queue, c.pushed, e.m); }
    hide L.LifeInv, TraceMeans;
  }

  lemma PushKeepsOrder(wire: seq<Outgoing>, queue: seq<Outgoing>, pushed: seq<Outgoing>, m: Outgoing)
    ensures wire + queue == pushed ==> wire + (queue + [m]) == pushed + [m]
    ensures queue != [] && wire + queue[1..] == pushed ==>
      (queue + [m])[1..] == queue[1..] + [m] && wire + (queue + [m])[1..] == pushed + [m]
  {
    assert wire + (queue + [m]) == (wire + queue) + [m];
    if queue != [] {
      assert (queue + [m])[1..] == queue[1..] + [m];
      assert wire + (queue[1..] + [m]) == (wire + queue[1..]) + [m];
    }
  }

  lemma ReconsiderKeeps(c: Client)
    requires CoreInv(c) && c.life.sys.t.ticksPerMs > 0 && Enabled(c, Reconsider)
    ensures CoreInv(Apply(c, Reconsider))
  {
    hide L.LifeInv, TraceMeans, L.Ready, L.Do, Ordered, Healthy;
  }

  lemma AutoMakeKeeps(c: Client)
    requires CoreInv(c) && c.life.sys.t.ticksPerMs > 0 && Enabled(c, AutoMake)
    ensures CoreInv(Apply(c, AutoMake))
  {
    LifeFacts(c.life);
    hide L.LifeInv, InLanguage, Truthful, L.Ready, L.Do, Ordered, Healthy;
  }

  lemma AutoEndKeeps(c: Client)
    requires CoreInv(c) && c.life.sys.t.ticksPerMs > 0 && Enabled(c, AutoEnd)
    ensures CoreInv(Apply(c, AutoEnd))
  {
    L.ActInv(c.life, L.Reconnect);
    LifeStepKeeps(c.life, L.Reconnect);
    hide L.LifeInv, TraceMeans, L.Ready, L.Do, Ordered, Healthy;
  }

  lemma TimerKeeps(c: Client, e: Event)
    requires CoreInv(c) && (e.Rings? || e.RingBreak? || e.LifeStep? || e.TimesOut?) && c.life.sys.t.ticksPerMs > 0 && Enabled(c, e)
    ensures CoreInv(Apply(c, e))
  {
    if e.LifeStep? {
      L.ActInv(c.life, e.a);
      LifeStepKeeps(c.life, e.a);
    }
    hide L.LifeInv, TraceMeans, L.Ready, L.Do, Ordered;
  }

  /** What each report does to the trace. */
  lemma ReportTrace(trace: seq<ConnectStatus>, verdicts: seq<Verdict>, status: ConnectStatus, v: Verdict)
    ensures TraceMeans(trace, verdicts, status, Apart) ==>
      status != Connecting && TraceMeans(trace + [Connecting], verdicts, Connecting, Setup)
    ensures TraceMeans(trace, verdicts, status, Setup) ==>
      var phase := if v == Success then Traffic else Closing;
      status != Outcome(v) && TraceMeans(trace + [Outcome(v)], verdicts + [v], Outcome(v), phase)
    ensures TraceMeans(trace, verdicts, status, Closing) ==>
      status != Disconnected && TraceMeans(trace + [Disconnected], verdicts, Disconnected, Apart)
  {
    if InLanguage(trace) && Truthful(trace, verdicts) {
      if |trace| % 3 == 0 {
        SnocLanguage(trace, Connecting);
        TruthfulSnoc(trace, verdicts, Connecting, v);
      } else if |trace| % 3 == 1 {
        SnocLanguage(trace, Outcome(v));
        TruthfulSnoc(trace, verdicts, Outcome(v), v);
      } else {
        SnocLanguage(trace, Disconnected);
        TruthfulSnoc(trace, verdicts, Disconnected, v);
      }
    }
    hide InLanguage, Truthful;
  }

  lemma AnnounceKeeps(c: Client)
    requires CoreInv(c)
    requires c.life.sys.t.ticksPerMs > 0 && Enabled(c, Work(Announce))
    ensures CoreInv(Apply(c, Work(Announce)))
  {
    LifeFacts(c.life);
    ReportTrace(c.trace, c.verdicts, c.status, Failed);
    hide ApplyTransfer, ApplyLook, ApplyDial;
    hide L.LifeInv, TraceMeans, L.Ready, L.Do, Ordered, Healthy;
  }

  lemma DialKeeps(c: Client, w: Work)
    requires CoreInv(c) && w.Dial?
    requires c.life.sys.t.ticksPerMs > 0 && Enabled(c, Work(w))
    ensures CoreInv(Apply(c, Work(w)))
  {
    PipeFacts(c.conn);
    DialFacts(c, w.d);
    hide L.LifeInv, TraceMeans, L.Ready, L.Do, Ordered, Healthy, Wiped, ApplyDial, ApplyTransfer, ApplyLook;
  }

  /** What a step of __RunConnect changes. */
  lemma DialFacts(c: Client, d: DialStep)
    requires c.pc.Dialing? && DialAt(c.pc.at, d)
    ensures var u := ApplyDial(c, d);
      && u == c.(pc := u.pc, conn := u.conn, shouldReconnect := u.shouldReconnect)
      && (u.pc.Dialing? || u.pc.Judged?)
      && (u.shouldReconnect <==> c.shouldReconnect && d != Prepare(NoNet) && d != Login(Kickout))
      && u.conn == if d.Heed? then Wiped(c.conn) else c.conn
  {
    hide Wiped;
  }

  lemma JudgeKeeps(c: Client)
    requires CoreInv(c)
    requires c.life.sys.t.ticksPerMs > 0 && Enabled(c, Work(Judge))
    ensures CoreInv(Apply(c, Work(Judge)))
  {
    LifeFacts(c.life);
    ReportTrace(c.trace, c.verdicts, c.status, c.pc.v);
    hide ApplyTransfer, ApplyLook, ApplyDial;
    hide L.LifeInv, TraceMeans, L.Ready, L.Do, Ordered, Healthy;
  }

  lemma EndKeeps(c: Client)
    requires CoreInv(c)
    requires c.life.sys.t.ticksPerMs > 0 && Enabled(c, Work(End))
    ensures CoreInv(Apply(c, Work(End)))
  {
    LifeFacts(c.life);
    ReportTrace(c.trace, c.verdicts, c.status, Failed);
    hide ApplyTransfer, ApplyLook, ApplyDial;
    hide L.LifeInv, TraceMeans, L.Ready, L.Do, Ordered, Healthy;
  }

  lemma WaitKeeps(c: Client, w: Work)
    requires CoreInv(c) && (w.TakeSample? || w.Wake?)
    requires c.life.sys.t.ticksPerMs > 0 && Enabled(c, Work(w))
    ensures CoreInv(Apply(c, Work(w)))
  {
    hide L.LifeInv, TraceMeans, L.Ready, L.Do, Ordered, Healthy, ApplyAround, ApplyTransfer;
  }

  lemma ClearKeeps(c: Client)
    requires CoreInv(c)
    requires c.life.sys.t.ticksPerMs > 0 && Enabled(c, Work(ClearSignal))
    ensures CoreInv(Apply(c, Work(ClearSignal)))
  {
    PipeFacts(c.rw);
    hide L.LifeInv, TraceMeans, L.Ready, L.Do, Ordered, Healthy, Wiped, ApplyAround, ApplyTransfer;
  }

  /** The worker gives up its loop. */
  lemma Leaves(c: Client, code: nat)
    requires CoreInv(c) && InRun(c) && PhaseOf(c.pc) == Traffic && !c.pc.Handling? && !c.pc.Written?
    ensures CoreInv(c.(pc := Leaving, disCode := code))
  {
    LifeFacts(c.life);
    ClosingTrace(c.trace, c.verdicts, c.status);
    hide L.LifeInv, TraceMeans, Healthy, Ordered;
  }

  /** The worker goes on inside its loop, past its look at the stop code and the ping timeout. */
  lemma GoesOn(c: Client, next: Pc, timeout: PingTimeout)
    requires CoreInv(c) && InRun(c) && PhaseOf(c.pc) == Traffic && !c.pc.Handling? && !c.pc.Written?
    requires next.CheckPing? || next.CheckQueue? || next.Reading? || next.Pinging? || next.Sample?
    requires c.pc.CheckStop? ==> c.disCode == 0 && next.CheckPing?
    requires c.pc.CheckPing? ==> next.CheckQueue? && c.pingTimeout != Rung
    requires next.CheckPing? ==> c.pc.CheckStop?
    requires timeout == c.pingTimeout || timeout != Rung
    ensures CoreInv(c.(pc := next, pingTimeout := timeout))
  {
    hide L.LifeInv, TraceMeans, Healthy, Ordered;
  }

  lemma LookForStopKeeps(c: Client)
    requires CoreInv(c)
    requires c.life.sys.t.ticksPerMs > 0 && Enabled(c, Work(LookForStop))
    ensures CoreInv(Apply(c, Work(LookForStop)))
  {
    var u := Apply(c, Work(LookForStop));
    assert u == if c.disCode != 0 then c.(pc := Leaving, disCode := c.disCode)
                else c.(pc := CheckPing(c.pc.ev), pingTimeout := c.pingTimeout) by { hide CoreInv, L.Ready, L.Do; }
    hide CoreInv, Apply;
    if c.disCode != 0 { Leaves(c, c.disCode); } else { GoesOn(c, CheckPing(c.pc.ev), c.pingTimeout); }
  }

  lemma LookForPingKeeps(c: Client)
    requires CoreInv(c)
    requires c.life.sys.t.ticksPerMs > 0 && Enabled(c, Work(LookForPing))
    ensures CoreInv(Apply(c, Work(LookForPing)))
  {
    var u := Apply(c, Work(LookForPing));
    assert u == if c.pc.ev.error then c.(pc := Leaving, disCode := c.disCode)
                else if c.pingTimeout == Rung then c.(pc := Leaving, disCode := PING_TIMEOUT)
                else c.(pc := CheckQueue(c.pc.ev), pingTimeout := c.pingTimeout) by { hide CoreInv, L.Ready, L.Do; }
    hide CoreInv, Apply;
    if c.pc.ev.error { Leaves(c, c.disCode); }
    else if c.pingTimeout == Rung { Leaves(c, PING_TIMEOUT); }
    else { GoesOn(c, CheckQueue(c.pc.ev), c.pingTimeout); }
  }

  lemma LookForMessageKeeps(c: Client)
    requires CoreInv(c)
    requires c.life.sys.t.ticksPerMs > 0 && Enabled(c, Work(LookForMessage))
    ensures CoreInv(Apply(c, Work(LookForMessage)))
  {
    hide L.LifeInv, TraceMeans, L.Ready, L.Do, Healthy, Ordered;
  }

  lemma WriteKeeps(c: Client, ok: bool)
    requires CoreInv(c)
    requires c.life.sys.t.ticksPerMs > 0 && Enabled(c, Work(Write(ok)))
    ensures CoreInv(Apply(c, Work(Write(ok))))
  {
    var u := Apply(c, Work(Write(ok)));
    if ok {
      FrontSplit(c.wire, c.queue);
      hide L.LifeInv, TraceMeans, L.Ready, L.Do, Healthy;
    } else {
      assert u == c.(pc := Leaving, disCode := c.disCode) by { hide CoreInv, L.Ready, L.Do; }
      hide CoreInv, Apply;
      Leaves(c, c.disCode);
    }
  }

  lemma PopKeeps(c: Client)
    requires CoreInv(c)
    requires c.life.sys.t.ticksPerMs > 0 && Enabled(c, Work(Pop))
    ensures CoreInv(Apply(c, Work(Pop)))
  {
    hide L.LifeInv, TraceMeans, L.Ready, L.Do, Healthy;
  }

  lemma FrontSplit(wire: seq<Outgoing>, queue: seq<Outgoing>)
    ensures queue != [] ==> (wire + [queue[0]]) + queue[1..] == wire + queue
  {
  }

  lemma ReadKeeps(c: Client, ok: bool, pingResp: bool, answers: bool)
    requires CoreInv(c)
    requires c.life.sys.t.ticksPerMs > 0 && Enabled(c, Work(Read(ok, pingResp, answers)))
    ensures CoreInv(Apply(c, Work(Read(ok, pingResp, answers))))
  {
    var u := Apply(c, Work(Read(ok, pingResp, answers)));
    var timeout := if pingResp then Off else c.pingTimeout;
    var c0 := if ok then c.(pc := Pinging, pingTimeout := timeout) else c.(pc := Leaving, disCode := c.disCode);
    assert u == c0.(inFlight := u.inFlight) by { hide CoreInv, L.Ready, L.Do; }
    InFlightApart(c0, u.inFlight);
    hide CoreInv, Apply;
    if ok { GoesOn(c, Pinging, timeout); } else { Leaves(c, c.disCode); }
  }

  lemma InFlightApart(c: Client, n: nat)
    ensures CoreInv(c.(inFlight := n)) == CoreInv(c)
  {
    hide L.LifeInv, TraceMeans, Healthy, Ordered;
  }

  lemma PingKeeps(c: Client, due: bool, ok: bool)
    requires CoreInv(c)
    requires c.life.sys.t.ticksPerMs > 0 && Enabled(c, Work(Ping(due, ok)))
    ensures CoreInv(Apply(c, Work(Ping(due, ok))))
  {
    var u := Apply(c, Work(Ping(due, ok)));
    var timeout := if due then Armed else c.pingTimeout;
    assert u == if ok then c.(pc := Sample, pingTimeout := timeout)
                else c.(pc := Leaving, disCode := c.disCode) by { hide CoreInv, L.Ready, L.Do; }
    hide CoreInv, Apply;
    if ok { GoesOn(c, Sample, timeout); } else { Leaves(c, c.disCode); }
  }

  lemma LeaveKeeps(c: Client)
    requires CoreInv(c)
    requires c.life.sys.t.ticksPerMs > 0 && Enabled(c, Work(Leave))
    ensures CoreInv(Apply(c, Work(Leave)))
  {
    hide L.LifeInv, TraceMeans, L.Ready, L.Do, Healthy, Ordered;
  }

  lemma KickedOutKeeps(c: Client, w: Work)
    requires CoreInv(c) && (w.KickedOut?)
    requires c.life.sys.t.ticksPerMs > 0 && Enabled(c, Work(w))
    ensures CoreInv(Apply(c, Work(w)))
  {
    LifeFacts(c.life);
    hide L.LifeInv, TraceMeans, L.Ready, L.Do, Ordered;
  }

  lemma StartKeepsThread(l: L.Life)
    requires l.sys.t.ticksPerMs > 0 && L.Ready(l, L.StartReconnect)
    ensures var u := L.Do(l, L.StartReconnect); u.thread == l.thread && u.cb == l.cb
  {
  }

  lemma LifeSwapped(c: Client, l: L.Life)
    requires CoreInv(c) && L.LifeInv(l) && c.pc.AtStart? && !c.holder.Making? && l.cb == c.life.cb
    ensures CoreInv(c.(life := l))
  {
    hide L.LifeInv, TraceMeans, Healthy;
  }

  lemma StartKeeps(c: Client)
    requires CoreInv(c) && c.life.sys.t.ticksPerMs > 0 && Enabled(c, Work(StartAlarm))
    ensures CoreInv(Apply(c, Work(StartAlarm)))
  {
    var l := L.Do(c.life, L.StartReconnect);
    StartKeepsThread(c.life);
    StartAlone(c);
    hide *;
    L.ActInv(c.life, L.StartReconnect);
    LifeSwapped(c, l);
  }

  lemma StartAlone(c: Client)
    requires CoreInv(c) && c.life.sys.t.ticksPerMs > 0 && Enabled(c, Work(StartAlarm))
    ensures L.LifeInv(c.life) && L.Ready(c.life, L.StartReconnect) && c.pc.AtStart? && !c.holder.Making?
    ensures Apply(c, Work(StartAlarm)) == c.(life := L.Do(c.life, L.StartReconnect))
  {
    LifeFacts(c.life);
    hide L.LifeInv, L.Ready, L.Do, TraceMeans, Healthy, Ordered, StopSignalled, PingSignalled, QueueSignalled;
    hide ApplyTransfer, ApplyLook;
  }

  lemma TraceFacts(trace: seq<ConnectStatus>, verdicts: seq<Verdict>, status: ConnectStatus, phase: Phase)
    requires TraceMeans(trace, verdicts, status, phase)
    ensures match phase
      case Apart => status == Idle || status == Disconnected
      case Setup => status == Connecting
      case Traffic => status == Connected
      case Closing => IsOutcome(status)
  {
  }

  lemma StatusFacts(c: Client)
    requires CoreInv(c)
    ensures match PhaseOf(c.pc)
      case Apart => c.status == Idle || c.status == Disconnected
      case Setup => c.status == Connecting
      case Traffic => c.status == Connected
      case Closing => IsOutcome(c.status)
    ensures c.pc.Begin? ==> c.status == Idle
    ensures !InRun(c) ==> c.pc.AtStart?
    ensures c.auto != Undecided ==> c.life.cb == L.Cleared
    ensures c.life.sys.t.ticksPerMs > 0 && (!c.life.thread ==> !InRun(c)) && (InRun(c) ==> c.life.thread)
    ensures c.holder.Making? && c.holder.auto ==> c.auto == Done
  {
    TraceFacts(c.trace, c.verdicts, c.status, PhaseOf(c.pc));
    LifeFacts(c.life);
    hide L.LifeInv, TraceMeans, Healthy, Ordered, StopSignalled, PingSignalled, QueueSignalled;
  }

  /** No step of the others leaves a request in flight without its worker. */
  lemma TimeoutKept(c: Client, e: Event)
    requires CoreInv(c) && TimeoutMeans(c) && c.life.sys.t.ticksPerMs > 0 && Enabled(c, e) && !e.Work?
    ensures TimeoutMeans(Apply(c, e))
  {
    StatusFacts(c);
    if e.LifeStep? { TimeoutKeptByLife(c, e.a); }
    else if e.MakeNext? { TimeoutKeptByMake(c); }
    else if e.AutoMake? || e.AutoEnd? || e.Reconsider? { TimeoutKeptByAuto(c, e); }
    else if e.StopNext? { HandlingMeans(c); StopNextSpares(c); }
    hide CoreInv, L.Ready, L.Do, ApplyLife, ApplyMake, ApplyStop, Reset, Broke, Wiped;
    if e.MakeSure? { ResetSpares(c); }
  }

  lemma StopNextSpares(c: Client)
    requires TimeoutMeans(c) && c.holder.Stopping? && (c.holder.self <==> c.pc.Handling?)
    ensures TimeoutMeans(ApplyStop(c))
  {
  }

  lemma ResetSpares(c: Client)
    requires TimeoutMeans(c) && !c.life.thread
    ensures TimeoutMeans(Reset(c, false))
  {
  }

  lemma TimeoutKeptByAuto(c: Client, e: Event)
    requires CoreInv(c) && TimeoutMeans(c) && c.life.sys.t.ticksPerMs > 0 && Enabled(c, e)
    requires e.AutoMake? || e.AutoEnd? || e.Reconsider?
    ensures TimeoutMeans(Apply(c, e))
  {
    StatusFacts(c);
    if e.AutoEnd? { ReconnectThread(c.life); }
    hide CoreInv, L.Ready, L.Do;
  }

  lemma TimeoutKeptByMake(c: Client)
    requires CoreInv(c) && TimeoutMeans(c) && c.life.sys.t.ticksPerMs > 0 && Enabled(c, MakeNext)
    ensures TimeoutMeans(ApplyMake(c))
  {
    StatusFacts(c);
    if c.holder.stage >= 2 { SpawnThread(c.life); }
    hide CoreInv, L.Ready, L.Do, Wiped;
  }

  lemma TimeoutKeptByLife(c: Client, a: L.Act)
    requires CoreInv(c) && TimeoutMeans(c) && c.life.sys.t.ticksPerMs > 0 && Enabled(c, LifeStep(a))
    ensures TimeoutMeans(ApplyLife(c, a))
  {
    CoreLife(c);
    LifeStepKeeps(c.life, a);
    hide CoreInv, L.LifeInv, L.Ready, L.Do;
  }

  lemma CoreLife(c: Client)
    requires CoreInv(c)
    ensures L.LifeInv(c.life)
  {
  }

  lemma SpawnReady(l: L.Life)
    requires L.LifeInv(l) && !l.thread
    ensures l.sys.t.ticksPerMs > 0 && L.Ready(l, L.Spawn)
  {
    hide L.NoStray;
  }

  lemma SpawnThread(l: L.Life)
    requires l.sys.t.ticksPerMs > 0 && L.Ready(l, L.Spawn)
    ensures var u := L.Do(l, L.Spawn); u.thread && u.cb == l.cb && u.worker == L.Running && u.sys == l.sys
  {
  }

  lemma GapKept(c: Client, e: Event)
    requires ClientInv(c) && c.life.sys.t.ticksPerMs > 0 && Enabled(c, e) && !e.Work?
    ensures GapMeans(Apply(c, e))
  {
    StatusFacts(c);
    if e.LifeStep? { LifeStepKeeps(c.life, e.a) by { hide *; CoreLife(c); } }
    hide CoreInv, L.Ready, L.Do, Broke, Wiped;
    if e == MakeNext && c.holder.stage >= 2 { SpawnThread(c.life); }
    if e.AutoEnd? { ReconnectThread(c.life); }
  }

  lemma ReconnectThread(l: L.Life)
    requires l.sys.t.ticksPerMs > 0 && L.Ready(l, L.Reconnect)
    ensures L.Do(l, L.Reconnect).thread == l.thread
  {
  }

  lemma LateWork(c: Client, w: Work)
    requires ClientInv(c) && c.life.sys.t.ticksPerMs > 0 && Enabled(c, Work(w))
    ensures TimeoutMeans(Apply(c, Work(w))) && GapMeans(Apply(c, Work(w)))
  {
    StatusFacts(c);
    WorkEffect(c, w);
    hide CoreInv, ApplyWorker, WorkerAt;
  }

  /** What a step of the worker leaves alone of the fields that others use. */
  predicate Spares(c: Client, u: Client) {
    && u.spawned == c.spawned && u.auto == c.auto
    && u.life.thread == c.life.thread && u.life.cb == c.life.cb
    && u.timeoutStops == c.timeoutStops && u.timeoutDisconnect == c.timeoutDisconnect
    && (u.shouldReconnect ==> c.shouldReconnect)
    && (u.holder == c.holder || (u.holder.Stopping? && c.holder == Nobody))
    && (u.inFlight > c.inFlight ==> PhaseOf(c.pc) == Traffic)
    && (u.status == c.status || PhaseOf(c.pc) == Setup || c.pc.Begin? || u.pc.AtStart?)
    && (c.pc.AtStart? ==> u.pc.AtStart?)
  }

  lemma WorkEffect(c: Client, w: Work)
    requires c.life.sys.t.ticksPerMs > 0 && WorkerAt(c, w)
    ensures Spares(c, ApplyWorker(c, w)) && (!w.StartAlarm? ==> ApplyWorker(c, w).life == c.life)
  {
    if AroundLoop(w) { EffectAround(c, w); }
    else if Transfers(w) { EffectTransfer(c, w); }
    else { EffectLook(c, w); }
    hide *;
  }

  lemma EffectAround(c: Client, w: Work)
    requires c.life.sys.t.ticksPerMs > 0 && WorkerAt(c, w) && AroundLoop(w)
    ensures Spares(c, ApplyWorker(c, w)) && (!w.StartAlarm? ==> ApplyWorker(c, w).life == c.life)
  {
    if w.Announce? || w.Judge? || w.End? { EffectReport(c, w); }
    if w.Dial? { DialFacts(c, w.d); }
    hide ApplyTransfer, ApplyLook, ApplyDial, Report, PhaseOf;
    hide L.Ready, L.Do, Broke, Wiped;
    match w
    case Announce =>
    case Dial(_) =>
    case Judge =>
    case Leave =>
    case End =>
    case StartAlarm => StartKeepsThread(c.life);
  }

  lemma EffectReport(c: Client, w: Work)
    requires c.life.sys.t.ticksPerMs > 0 && WorkerAt(c, w) && (w.Announce? || w.Judge? || w.End?)
    ensures Spares(c, ApplyWorker(c, w)) && ApplyWorker(c, w).life == c.life
  {
    hide ApplyTransfer, ApplyLook, Outcome;
    hide L.Ready, L.Do, Broke, Wiped;
    match w
    case Announce =>
    case Judge =>
    case End =>
  }

  lemma EffectTransfer(c: Client, w: Work)
    requires c.life.sys.t.ticksPerMs > 0 && WorkerAt(c, w) && Transfers(w)
    ensures Spares(c, ApplyWorker(c, w)) && ApplyWorker(c, w).life == c.life
  {
    hide ApplyAround, ApplyLook;
    hide L.Ready, L.Do, Broke, Wiped, Calls;
    match w
    case Write(_) =>
    case Pop =>
    case Read(_, _, _) =>
    case KickedOut =>
    case Ping(_, _) =>
  }

  lemma EffectLook(c: Client, w: Work)
    requires c.life.sys.t.ticksPerMs > 0 && WorkerAt(c, w) && !AroundLoop(w) && !Transfers(w)
    ensures Spares(c, ApplyWorker(c, w)) && ApplyWorker(c, w).life == c.life
  {
    hide ApplyAround, ApplyTransfer;
    hide L.Ready, L.Do, Broke, Wiped, PhaseOf;
    match w
    case TakeSample =>
    case Wake(_) =>
    case ClearSignal =>
    case LookForStop =>
    case LookForPing =>
    case LookForMessage =>
  }

  lemma EventInv(c: Client, e: Event)
    requires ClientInv(c) && c.life.sys.t.ticksPerMs > 0 && Enabled(c, e)
    ensures ClientInv(Apply(c, e))
  {
    CoreStep(c, e);
    if e.Work? {
      LateWork(c, e.w);
    } else {
      TimeoutKept(c, e);
      GapKept(c, e);
    }
    hide CoreInv, TimeoutMeans, GapMeans, Apply;
  }

  lemma CoreStep(c: Client, e: Event)
    requires CoreInv(c) && c.life.sys.t.ticksPerMs > 0 && Enabled(c, e)
    ensures CoreInv(Apply(c, e))
  {
    hide *;
    match e
    case MakeSure => MakeKeeps(c, e);
    case MakeNext => MakeKeeps(c, e);
    case Stop(_, _) => StopKeeps(c, e);
    case StopNext => StopNextKeeps(c, e);
    case Push(_) => PushKeeps(c, e);
    case PushBreak => PushKeeps(c, e);
    case Rings(_) => TimerKeeps(c, e);
    case RingBreak => TimerKeeps(c, e);
    case TimesOut => TimerKeeps(c, e);
    case TimeoutStop => StopKeeps(c, e);
    case LifeStep(_) => TimerKeeps(c, e);
    case Reconsider => ReconsiderKeeps(c);
    case AutoMake => AutoMakeKeeps(c);
    case AutoEnd => AutoEndKeeps(c);
    case Work(w) => WorkInv(c, w);
  }

  lemma WorkInv(c: Client, w: Work)
    requires CoreInv(c) && c.life.sys.t.ticksPerMs > 0 && Enabled(c, Work(w))
    ensures CoreInv(Apply(c, Work(w)))
  {
    hide *;
    match w
    case Announce => AnnounceKeeps(c);
    case Dial(_) => DialKeeps(c, w);
    case Judge => JudgeKeeps(c);
    case TakeSample => WaitKeeps(c, w);
    case Wake(_) => WaitKeeps(c, w);
    case ClearSignal => ClearKeeps(c);
    case LookForStop => LookForStopKeeps(c);
    case LookForPing => LookForPingKeeps(c);
    case LookForMessage => LookForMessageKeeps(c);
    case Write(ok) => WriteKeeps(c, ok);
    case Pop => PopKeeps(c);
    case Read(ok, pingResp, answers) => ReadKeeps(c, ok, pingResp, answers);
    case KickedOut => KickedOutKeeps(c, w);
    case Ping(due, ok) => PingKeeps(c, due, ok);
    case Leave => LeaveKeeps(c);
    case End => EndKeeps(c);
    case StartAlarm => StartKeeps(c);
  }

  // ----- over whole runs -----

  predicate IsRun(c: Client, es: seq<Event>)
    decreases |es|
  {
    c.life.sys.t.ticksPerMs > 0 && (es != [] ==> Enabled(c, es[0]) && IsRun(Apply(c, es[0]), es[1..]))
  }

  function After(c: Client, es: seq<Event>): Client
    requires IsRun(c, es)
    decreases |es|
  {
    if es == [] then c else After(Apply(c, es[0]), es[1..])
  }

  predicate MayRun(c: Client, e: Event) { c.life.sys.t.ticksPerMs > 0 && Enabled(c, e) }

  ghost predicate Leads(c: Client, es: seq<Event>, u: Client) { IsRun(c, es) && After(c, es) == u }

  lemma LeadsTo(c: Client, e: Event, es: seq<Event>, u: Client)
    requires MayRun(c, e) && (es == [] ==> u == Apply(c, e) && u.life.sys.t.ticksPerMs > 0)
    requires es != [] ==> Leads(Apply(c, e), es, u)
    ensures Leads(c, [e] + es, u) && ([e] + es)[1..] == es
  {
    hide Enabled, Apply;
    var fs := [e] + es;
    assert fs != [] && fs[0] == e && fs[1..] == es;
    assert IsRun(Apply(c, e), es) && After(Apply(c, e), es) == u;
    assert IsRun(c, fs) && After(c, fs) == After(Apply(c, fs[0]), fs[1..]);
  }

  lemma {:induction false} LeadsOn(c: Client, es: seq<Event>, u: Client, fs: seq<Event>, v: Client)
    requires Leads(c, es, u) && Leads(u, fs, v)
    ensures Leads(c, es + fs, v)
    decreases |es|
  {
    hide Enabled, Apply;
    if es == [] {
      assert es + fs == fs;
    } else {
      LeadsOn(Apply(c, es[0]), es[1..], u, fs, v);
      assert (es + fs)[0] == es[0] && (es + fs)[1..] == es[1..] + fs;
    }
  }

  lemma {:induction false} RunInv(c: Client, es: seq<Event>)
    requires ClientInv(c) && IsRun(c, es)
    ensures ClientInv(After(c, es))
    decreases |es|
  {
    if es != [] {
      EventInv(c, es[0]);
      hide ClientInv, Enabled, Apply;
      RunInv(Apply(c, es[0]), es[1..]);
    }
  }

  /** No lost wakeup: while the worker sleeps in epoll_wait with nothing in the pipe, and no call
      is between its change and its Break, there is nothing for it to do: no stop code, no ping
      timeout, and no message unless it is watching for writability. */
  lemma {:induction false} NoLostWakeup(c: Client, es: seq<Event>)
    requires ClientInv(c) && IsRun(c, es)
    ensures var u := After(c, es);
      u.pc.Blocked? && u.rw.unread == 0 && u.holder == Nobody && !u.ringing ==>
        && u.disCode == 0 && u.pingTimeout != Rung
        && (u.queue == [] || u.pc.watch)
  {
    RunInv(c, es);
    hide After, IsRun, L.LifeInv, InLanguage;
  }

  /** From a new client on: the statuses reported are a prefix of
      (Connecting (Connected | ConnectFailed | ConnectKickout) Disconnected)* that tells what
      __RunConnect returned each time, each breaker's flag
      agrees with its pipe, there is never more than one worker, and the worker writes messages
      in the order in which they were queued, each of them once. */
  lemma {:induction false} ClientSafety(ticksPerMs: nat, clock: int, alarms: nat, es: seq<Event>)
    requires ticksPerMs > 0 && alarms > 0 && IsRun(New(ticksPerMs, clock, alarms), es)
    ensures var u := After(New(ticksPerMs, clock, alarms), es);
      && InLanguage(u.trace) && Truthful(u.trace, u.verdicts)
      && Agrees(u.rw) && Agrees(u.conn)
      && !u.life.overlapped && !u.life.startFailed
      && u.wire <= u.pushed
      && (u.status == Connected ==> InRun(u) && u.life.thread)
  {
    NewInv(ticksPerMs, clock, alarms);
    RunInv(New(ticksPerMs, clock, alarms), es);
    var u := After(New(ticksPerMs, clock, alarms), es);
    LifeFacts(u.life);
    WireIsPrefix(u);
    hide After, IsRun, L.NoStray, L.CallbackMeans, InLanguage, Truthful, New;
  }

  lemma WireIsPrefix(c: Client)
    requires Ordered(c.pc.Written?, c.queue, c.wire, c.pushed)
    ensures c.wire <= c.pushed
  {
  }

  // ----- a disconnect ends the worker -----

  /** How many steps the worker has left once there is a stop code. */
  function Rank(pc: Pc): nat {
    match pc
    case Begin => 23
    case Dialing(at) =>
      if at.Preparing? then 22 else if at.Resolving? || (at.Selected? && !at.racing) then 21
      else if at.Exchanging? then 19 else 20
    case Judged(_) => 18
    case CheckPing(_) => 17
    case CheckQueue(_) => 16
    case Writing(_) => 15
    case Written(_) => 14
    case Reading(_) => 13
    case Handling => 12
    case Pinging => 11
    case Sample => 10
    case Blocked(_) => 9
    case Woken(_) => 8
    case CheckStop(_) => 7
    case Leaving => 3
    case Ending => 2
    case AtStart => 1
  }

  /** The waits that watch the connect breaker, and the looks at what they report. */
  predicate Polls(w: Work) { w.Dial? && (w.d.Select? || w.d.Heed?) }

  /** The worker's steps until it posts its reconnect message; waiting for the connection race
      does not count. */
  function StepsTaken(c: Client, es: seq<Event>): nat
    requires IsRun(c, es)
    decreases |es|
  {
    if es == [] || !InRun(c) then 0
    else (if es[0].Work? && !Polls(es[0].w) then 1 else 0) + StepsTaken(Apply(c, es[0]), es[1..])
  }

  lemma StopStep(c: Client, e: Event)
    requires ClientInv(c) && c.life.sys.t.ticksPerMs > 0 && Enabled(c, e)
    requires InRun(c) && c.disCode != 0 && !(e.Stop? && e.code == 0)
    ensures var u := Apply(c, e);
      && (InRun(u) ==> u.disCode != 0)
      && (InRun(u) ==> Rank(u.pc) <= Rank(c.pc))
      && (InRun(u) && e.Work? && !Polls(e.w) ==> Rank(u.pc) < Rank(c.pc))
  {
    if e.Work? {
      if e.w.StartAlarm? { StartEnds(c.life); } else { StopWork(c, e.w); }
    } else {
      StopElsewhere(c, e);
    }
    hide *;
  }

  lemma StopElsewhere(c: Client, e: Event)
    requires ClientInv(c) && c.life.sys.t.ticksPerMs > 0 && Enabled(c, e) && !e.Work?
    requires InRun(c) && c.disCode != 0 && !(e.Stop? && e.code == 0)
    ensures var u := Apply(c, e); u.disCode != 0 && Rank(u.pc) <= Rank(c.pc)
  {
    NoAutoBeforeWorker(c);
    HandlingMeans(c);
    if e.StopNext? { StopNextRank(c); }
    hide ClientInv, L.Ready, L.Do, Broke, Wiped, ApplyMake, ApplyStop, Reset, Rank;
  }

  lemma StopNextRank(c: Client)
    requires c.holder.Stopping? && (c.holder.self <==> c.pc.Handling?)
    ensures var u := ApplyStop(c); u.disCode == c.disCode && Rank(u.pc) <= Rank(c.pc)
  {
  }

  lemma NoAutoBeforeWorker(c: Client)
    requires ClientInv(c) && InRun(c)
    ensures c.life.thread && !c.holder.Making?
  {
    StatusFacts(c);
    hide L.LifeInv, TraceMeans, Healthy, Ordered, StopSignalled, PingSignalled, QueueSignalled;
  }

  lemma HandlingMeans(c: Client)
    requires CoreInv(c)
    ensures c.holder.Stopping? && c.holder.self <==> c.pc.Handling?
  {
    hide L.LifeInv, TraceMeans, Healthy, Ordered, StopSignalled, PingSignalled, QueueSignalled;
  }

  lemma StopWork(c: Client, w: Work)
    requires c.life.sys.t.ticksPerMs > 0 && WorkerAt(c, w) && c.disCode != 0 && !w.StartAlarm?
    ensures var u := ApplyWorker(c, w);
      && u.disCode != 0 && u.life == c.life
      && (if Polls(w) then Rank(u.pc) <= Rank(c.pc) else Rank(u.pc) < Rank(c.pc))
  {
    WorkTouches(c, w);
    StopWorkCode(c, w);
    StopWorkRank(c, w);
    hide *;
  }

  lemma StopWorkCode(c: Client, w: Work)
    requires c.life.sys.t.ticksPerMs > 0 && WorkerAt(c, w) && c.disCode != 0
    ensures ApplyWorker(c, w).disCode != 0
  {
    hide L.Ready, L.Do, Broke, Wiped, Calls;
    if AroundLoop(w) { hide ApplyTransfer, ApplyLook; }
    else if Transfers(w) { hide ApplyAround, ApplyLook; }
    else { hide ApplyAround, ApplyTransfer; }
  }

  lemma StopWorkRank(c: Client, w: Work)
    requires c.life.sys.t.ticksPerMs > 0 && WorkerAt(c, w) && c.disCode != 0 && !w.StartAlarm?
    ensures var u := ApplyWorker(c, w); if Polls(w) then Rank(u.pc) <= Rank(c.pc) else Rank(u.pc) < Rank(c.pc)
  {
    if AroundLoop(w) { StopAround(c, w); }
    else if Transfers(w) { StopTransfer(c, w); }
    else { StopLook(c, w); }
    hide *;
  }

  lemma StopAround(c: Client, w: Work)
    requires c.life.sys.t.ticksPerMs > 0 && WorkerAt(c, w) && AroundLoop(w) && !w.StartAlarm?
    ensures var u := ApplyWorker(c, w); if Polls(w) then Rank(u.pc) <= Rank(c.pc) else Rank(u.pc) < Rank(c.pc)
  {
    if w.Dial? { DialRank(c, w.d); }
    hide ApplyTransfer, ApplyLook, ApplyDial;
    hide L.Ready, L.Do, Broke, Wiped;
    match w
    case Announce =>
    case Dial(_) =>
    case Judge =>
    case Leave =>
    case End =>
  }

  lemma DialRank(c: Client, d: DialStep)
    requires c.pc.Dialing? && DialAt(c.pc.at, d)
    ensures var u := ApplyDial(c, d);
      if Polls(Dial(d)) then Rank(u.pc) <= Rank(c.pc) else Rank(u.pc) < Rank(c.pc)
  {
    hide Wiped;
  }

  lemma StopTransfer(c: Client, w: Work)
    requires c.life.sys.t.ticksPerMs > 0 && WorkerAt(c, w) && Transfers(w)
    ensures Rank(ApplyWorker(c, w).pc) < Rank(c.pc)
  {
    hide ApplyAround, ApplyLook;
    hide L.Ready, L.Do, Broke, Wiped, Calls;
    match w
    case Write(_) =>
    case Pop =>
    case Read(_, _, _) =>
    case KickedOut =>
    case Ping(_, _) =>
  }

  lemma StopLook(c: Client, w: Work)
    requires c.life.sys.t.ticksPerMs > 0 && WorkerAt(c, w) && !AroundLoop(w) && !Transfers(w) && c.disCode != 0
    ensures Rank(ApplyWorker(c, w).pc) < Rank(c.pc)
  {
    hide ApplyAround, ApplyTransfer;
    hide L.Ready, L.Do, Broke, Wiped;
  }

  lemma StartEnds(l: L.Life)
    requires L.LifeInv(l) && l.worker == L.Running && L.Ready(l, L.StartReconnect)
    ensures L.Do(l, L.StartReconnect).worker != L.Running
  {
    hide L.LifeInv;
  }

  /** No kDisCodeNone takes a stop code back. */
  predicate NeverWithdrawn(es: seq<Event>) { forall i :: 0 <= i < |es| ==> !(es[i].Stop? && es[i].code == 0) }

  lemma NotWithdrawnNow(es: seq<Event>)
    requires NeverWithdrawn(es) && es != []
    ensures !(es[0].Stop? && es[0].code == 0) && NeverWithdrawn(es[1..])
  {
  }

  /** However the steps interleave, a worker with a stop code ends within 23 steps of its own. */
  lemma {:induction false} StopEndsWorker(c: Client, es: seq<Event>)
    requires ClientInv(c) && IsRun(c, es) && (InRun(c) ==> c.disCode != 0)
    requires NeverWithdrawn(es)
    ensures StepsTaken(c, es) <= Rank(c.pc) <= 23
    decreases |es|
  {
    RankPositive(c.pc);
    if es != [] && InRun(c) {
      NotWithdrawnNow(es);
      hide ClientInv, Enabled, Apply, Rank, InRun, NeverWithdrawn;
      EventInv(c, es[0]);
      StopStep(c, es[0]);
      if InRun(Apply(c, es[0])) {
        StopEndsWorker(Apply(c, es[0]), es[1..]);
      }
    }
  }

  lemma RankPositive(pc: Pc)
    ensures 1 <= Rank(pc) <= 23
  {
  }

  const NO_EVENTS := Events(false, false, false)

  /** Where the code is inside a blocking call: the pause and the query before the race, the waits
      that watch the connect breaker, the exchange behind the race, a write, the rest of a message
      that has begun to arrive, and a ping that is due. */
  predicate InNetworkCall(pc: Pc) {
    (pc.Dialing? && !pc.at.Selected?) || pc.Writing? || (pc.Reading? && pc.ev.readable) || pc.Pinging?
  }

  /** The worker is never held up by anything else: whenever nobody is inside `_mutex`, it is in a
      blocking call or in epoll_wait without a signal, or it has a step to take that asks nothing of
      the network. */
  lemma WorkerGoesOn(c: Client) returns (w: Work)
    requires ClientInv(c) && InRun(c) && c.holder == Nobody
    requires !(c.pc.Blocked? && c.rw.unread == 0) && !InNetworkCall(c.pc)
    ensures WorkerAt(c, w) && (w.Wake? ==> w.ev == NO_EVENTS)
    ensures (w.Dial? ==> w.d.Heed?) && !w.Write? && !w.KickedOut? && !w.Ping? && (w.Read? ==> !c.pc.ev.readable)
  {
    match c.pc
    case Begin => w := Announce;
    case Dialing(_) => w := Dial(Heed(Again));
    case Judged(_) => w := Judge;
    case Sample => w := TakeSample;
    case Blocked(_) => w := Wake(NO_EVENTS);
    case Woken(_) => w := ClearSignal;
    case CheckStop(_) => w := LookForStop;
    case CheckPing(_) => w := LookForPing;
    case CheckQueue(_) => w := LookForMessage;
    case Written(_) => w := Pop;
    case Reading(_) => w := Read(true, false, false);
    case Handling => w := Leave; assert false;
    case Leaving => w := Leave;
    case Ending => w := End;
    case AtStart =>
      w := StartAlarm;
      StartReady(c.life);
  }

  /** The worker can take this step, and then it is somewhere else and not asleep in epoll_wait. */
  predicate MovesOn(c: Client, w: Work)
    requires c.life.sys.t.ticksPerMs > 0
  {
    Enabled(c, Work(w)) && var u := Apply(c, Work(w)); InRun(u) && u.pc != c.pc && !u.pc.Blocked?
  }

  /** And however a blocking call returns, by success, by an error or by its timeout, the worker moves
      on: nothing else is needed. */
  lemma AnyAnswerIsAStep(c: Client, ok: bool, pingResp: bool, due: bool)
    requires ClientInv(c) && InRun(c) && c.holder == Nobody && InNetworkCall(c.pc) && (!due ==> ok)
    ensures c.life.sys.t.ticksPerMs > 0
    ensures c.pc.Dialing? ==> forall d :: DialAt(c.pc.at, d) ==> MovesOn(c, Dial(d))
    ensures c.pc.Writing? ==> MovesOn(c, Write(ok))
    ensures c.pc.Reading? ==> MovesOn(c, Read(ok, pingResp, false)) && MovesOn(c, KickedOut)
    ensures c.pc.Pinging? ==> MovesOn(c, Ping(due, ok))
  {
    StatusFacts(c);
    assert c.pc.Writing? ==> c.queue != [] by {
      hide L.LifeInv, TraceMeans, Healthy, Ordered, StopSignalled, PingSignalled, QueueSignalled;
    }
    hide CoreInv, L.Ready, L.Do, ApplyWorker, WorkerAt, MovesOn, DialAt, Apply, Enabled;
    if c.pc.Dialing? { DialMovesOn(c); } else { TransferMovesOn(c, ok, pingResp, due); }
  }

  lemma DialMovesOn(c: Client)
    requires InRun(c) && c.life.sys.t.ticksPerMs > 0 && c.pc.Dialing?
    ensures forall d :: DialAt(c.pc.at, d) ==> MovesOn(c, Dial(d))
  {
    forall d | DialAt(c.pc.at, d) ensures MovesOn(c, Dial(d)) {
      DialFacts(c, d);
      hide L.Ready, L.Do, ApplyTransfer, ApplyLook;
    }
  }

  lemma TransferMovesOn(c: Client, ok: bool, pingResp: bool, due: bool)
    requires InRun(c) && c.life.sys.t.ticksPerMs > 0 && c.holder == Nobody && (!due ==> ok)
    requires InNetworkCall(c.pc) && !c.pc.Dialing? && (c.pc.Writing? ==> c.queue != [])
    ensures c.pc.Writing? ==> MovesOn(c, Write(ok))
    ensures c.pc.Reading? ==> MovesOn(c, Read(ok, pingResp, false)) && MovesOn(c, KickedOut)
    ensures c.pc.Pinging? ==> MovesOn(c, Ping(due, ok))
  {
    if c.pc.Writing? { WriteMovesOn(c, ok); }
    else if c.pc.Reading? { ReadMovesOn(c, ok, pingResp); }
    else { PingMovesOn(c, ok, due); }
    hide MovesOn;
  }

  lemma WriteMovesOn(c: Client, ok: bool)
    requires InRun(c) && c.life.sys.t.ticksPerMs > 0 && c.holder == Nobody && c.pc.Writing? && c.queue != []
    ensures MovesOn(c, Write(ok))
  {
    hide L.Ready, L.Do, ApplyAround, ApplyLook, Calls;
  }

  lemma ReadMovesOn(c: Client, ok: bool, pingResp: bool)
    requires InRun(c) && c.life.sys.t.ticksPerMs > 0 && c.holder == Nobody && c.pc.Reading? && c.pc.ev.readable
    ensures MovesOn(c, Read(ok, pingResp, false)) && MovesOn(c, KickedOut)
  {
    hide L.Ready, L.Do, ApplyAround, ApplyLook;
  }

  lemma PingMovesOn(c: Client, ok: bool, due: bool)
    requires InRun(c) && c.life.sys.t.ticksPerMs > 0 && c.pc.Pinging? && (!due ==> ok)
    ensures MovesOn(c, Ping(due, ok))
  {
    hide L.Ready, L.Do, ApplyAround, ApplyLook;
  }

  lemma StartReady(l: L.Life)
    requires L.LifeInv(l) && l.worker == L.Running
    ensures L.Ready(l, L.StartReconnect)
  {
    hide L.NoStray;
  }

  /** In particular a disconnect wakes the worker: with a stop code and `_mutex` free it is not
      stuck in epoll_wait. */
  lemma StopWakesWorker(c: Client) returns (w: Work)
    requires ClientInv(c) && InRun(c) && c.holder == Nobody && c.disCode != 0 && !InNetworkCall(c.pc)
    ensures Enabled(c, Work(w)) && (w.Wake? ==> w.ev == NO_EVENTS)
    ensures (w.Dial? ==> w.d.Heed?) && !w.Write? && !w.KickedOut? && !w.Ping? && (w.Read? ==> !c.pc.ev.readable)
  {
    assert c.pc.Blocked? ==> c.rw.unread == 1 by { hide L.LifeInv, InLanguage, Truthful; }
    w := WorkerGoesOn(c);
    hide ClientInv;
  }

  // ----- the worker is joined -----

  predicate TouchesLife(c: Client, e: Event) {
    e.LifeStep? || e.AutoEnd? || e == Work(StartAlarm) || (e == MakeNext && c.holder.Making? && c.holder.stage >= 2)
  }

  function ActOf(e: Event): L.Act {
    if e.LifeStep? then e.a else if e.AutoEnd? then L.Reconnect else if e == MakeNext then L.Spawn else L.StartReconnect
  }

  /** A run in which every message id given out is free at that time. */
  ghost predicate FreshRun(c: Client, es: seq<Event>)
    requires IsRun(c, es)
    decreases |es|
  {
    es != [] ==>
      (TouchesLife(c, es[0]) ==> L.FreshPost(c.life, ActOf(es[0]))) && FreshRun(Apply(c, es[0]), es[1..])
  }

  lemma ApplyTouches(c: Client, e: Event)
    requires c.life.sys.t.ticksPerMs > 0 && Enabled(c, e)
    ensures TouchesLife(c, e) ==> L.Ready(c.life, ActOf(e)) && Apply(c, e).life == L.Do(c.life, ActOf(e))
    ensures !TouchesLife(c, e) ==> Apply(c, e).life == c.life
  {
    hide L.Ready, L.Do, Broke, Wiped;
    if e.Work? { WorkTouches(c, e.w); }
    hide ApplyWorker, WorkerAt;
  }

  lemma WorkTouches(c: Client, w: Work)
    requires c.life.sys.t.ticksPerMs > 0 && WorkerAt(c, w)
    ensures w.StartAlarm? ==>
      L.Ready(c.life, L.StartReconnect) && ApplyWorker(c, w).life == L.Do(c.life, L.StartReconnect)
    ensures !w.StartAlarm? ==> ApplyWorker(c, w).life == c.life
  {
    hide L.Ready, L.Do, Broke, Wiped;
  }

  lemma BackedKept(c: Client, e: Event)
    requires ClientInv(c) && c.life.sys.t.ticksPerMs > 0 && Enabled(c, e) && Alarms.Backed(c.life.sys)
    requires TouchesLife(c, e) ==> L.FreshPost(c.life, ActOf(e))
    ensures Alarms.Backed(Apply(c, e).life.sys)
  {
    ApplyTouches(c, e);
    hide TouchesLife, Enabled, Apply;
    if TouchesLife(c, e) {
      L.ActBacked(c.life, ActOf(e));
    }
  }

  /** Over all runs with fresh ids: while `_thread` is set, the worker is before its reconnect
      alarm, or that alarm's message is on its way, or the callback is at the join. */
  lemma {:induction false} ThreadIsReaped(c: Client, es: seq<Event>)
    requires ClientInv(c) && Alarms.Backed(c.life.sys) && IsRun(c, es) && FreshRun(c, es)
    ensures var u := After(c, es).life;
      |u.sys.alarms| == |u.sys.locks| > 0 && L.WillBeReaped(u)
    decreases |es|
  {
    if es == [] {
      L.EveryWorkerIsReaped(c.life, []);
    } else {
      EventInv(c, es[0]);
      BackedKept(c, es[0]);
      hide ClientInv, Enabled, Apply, Alarms.Backed, L.FreshPost, L.WillBeReaped, TouchesLife;
      ThreadIsReaped(Apply(c, es[0]), es[1..]);
    }
  }
}
