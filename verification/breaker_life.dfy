/** One of the client's two breakers over the life of the client (tcp_client.cpp:103-163, 170-203):
    marked and closed by a DisconnectAsync whose Break fails, made anew by the reconnect callback
    behind the join, cleared and forgotten about by the next MakeSureConnected. The callback does
    not hold `_mutex`, so it can run between any two steps of the others. */
module BreakerLives {
  import opened Breakers

  /** The reconnect callback: not in lines 175-203, before it looks at the mark, or behind that look
      with its decision. */
  datatype Callback = Away | Behind | Decided(anew: bool)

  datatype Line = Line(
    b: Breaker,
    marked: bool,     // _shouldNewBreaker or _shouldNewConnBreaker
    worker: bool,     // _thread != NULL
    failing: bool,    // DisconnectAsync is behind a Break that failed, and has not closed the pipe yet
    callback: Callback,
    asked: bool       // history: since the last Spawn a DisconnectAsync has got past this breaker
  )

  datatype Event =
    | Spawn                // lines 110-129; the mark first: a look behind that is one behind all of it
    | Ask(faulty: bool)    // line 153 or 158
    | CloseIt              // lines 154-156 or 159-161, the mark last: a look before that is one before all of it
    | Signal(faulty: bool) // a Break of Send or of a ping callback
    | Select               // the Clear at the end of a wait
    | Forget               // line 175
    | Look(all: bool)      // lines 187-198 or 202; `all` says that everyone in flight can be told
    | Remake               // line 199 or 202

  predicate Enabled(l: Line, e: Event) {
    match e
    case Spawn => !l.worker && !l.failing
    case Ask(_) => l.worker && !l.failing
    case CloseIt => l.failing
    case Signal(_) => true
    case Select => l.worker
    case Forget => l.worker && l.callback == Away
    case Look(_) => l.callback == Behind
    case Remake => l.callback.Decided?
  }

  function Apply(l: Line, e: Event): Line
    requires Enabled(l, e)
  {
    match e
    case Spawn => l.(b := Wiped(l.b), marked := false, worker := true, asked := false)
    case Ask(faulty) =>
      if BreakResult(l.b, faulty) then l.(b := Broke(l.b, faulty), asked := true) else l.(failing := true)
    case CloseIt => l.(b := Do(l.b, Close), marked := true, failing := false, asked := true)
    case Signal(faulty) => l.(b := Broke(l.b, faulty))
    case Select => l.(b := Wiped(l.b))
    case Forget => l.(worker := false, callback := Behind)
    case Look(all) => l.(callback := Decided(all && l.marked))
    case Remake => l.(b := if l.callback.anew then Do(l.b, ReCreate) else l.b, callback := Away)
  }

  predicate IsRun(l: Line, es: seq<Event>)
    decreases |es|
  {
    es != [] ==> Enabled(l, es[0]) && IsRun(Apply(l, es[0]), es[1..])
  }

  function After(l: Line, es: seq<Event>): Line
    requires IsRun(l, es)
    decreases |es|
  {
    if es == [] then l else After(Apply(l, es[0]), es[1..])
  }

  const NEW := Line(Breaker(false, 0, true), false, false, false, Away, false)

  // ----- what a breaker can be -----

  /** A pipe that works: Break puts its byte there, or the byte is there already. */
  predicate Works(b: Breaker) { b.open && Agrees(b) }

  /** Closed with the flag down: every Break fails, and says so. */
  predicate Closed(b: Breaker) { !b.open && b.unread == 0 && !b.broken }

  /** Nothing to read and the flag up: every Break does nothing, and says that it worked. */
  predicate Deaf(b: Breaker) { b.broken && (!b.open || b.unread == 0) }

  /** It is always exactly one of the three, and a closed breaker is marked exactly when a
      DisconnectAsync has got past it for this worker. */
  predicate LineInv(l: Line) {
    && (Works(l.b) || Closed(l.b) || Deaf(l.b))
    && (Closed(l.b) ==> (l.marked <==> l.asked))
    && (l.marked ==> l.asked)
  }

  lemma ExactlyOne(b: Breaker)
    ensures !(Works(b) && Closed(b)) && !(Works(b) && Deaf(b)) && !(Closed(b) && Deaf(b))
    ensures Works(b) ==> BreakResult(b, false) && Broke(b, false).unread == 1
    ensures Closed(b) ==> forall faulty :: !BreakResult(b, faulty) && Broke(b, faulty) == b
    ensures Deaf(b) ==> Wiped(b) == b && forall faulty :: BreakResult(b, faulty) && Broke(b, faulty) == b
  {
  }

  lemma StepLine(l: Line, e: Event)
    requires LineInv(l) && Enabled(l, e)
    ensures LineInv(Apply(l, e))
  {
  }

  lemma {:induction false} RunLine(l: Line, es: seq<Event>)
    requires LineInv(l) && IsRun(l, es)
    ensures LineInv(After(l, es))
    decreases |es|
  {
    if es != [] {
      StepLine(l, es[0]);
      RunLine(Apply(l, es[0]), es[1..]);
    }
  }

  /** A wait takes the signal of a breaker that works, and so does a new worker. */
  lemma TakesSignal(l: Line)
    requires LineInv(l) && Works(l.b)
    ensures Enabled(l, Select) ==> Apply(l, Select).b == Breaker(false, 0, true)
    ensures Enabled(l, Spawn) ==> Apply(l, Spawn).b == Breaker(false, 0, true)
    ensures forall faulty :: Enabled(l, Ask(faulty)) && !Apply(l, Ask(faulty)).failing ==>
      Apply(l, Ask(faulty)).b == Breaker(true, 1, true)
    ensures Apply(l, Signal(false)).b == Breaker(true, 1, true)
  {
  }

  // ----- a closed breaker -----

  /** The callback makes the pipe anew. */
  predicate Reopens(l: Line, e: Event) { e == Remake && l.callback == Decided(true) }

  /** A callback decides to make a closed breaker anew exactly when it can tell everyone, behind a
      worker that a DisconnectAsync has got to. */
  lemma DecidesIff(l: Line, all: bool)
    requires LineInv(l) && Closed(l.b) && Enabled(l, Look(all))
    ensures Apply(l, Look(all)).callback == Decided(all && l.asked) && Apply(l, Look(all)).b == l.b
  {
  }

  /** That step makes it work again. Every other step leaves it as it is. */
  lemma ClosedStep(l: Line, e: Event)
    requires LineInv(l) && Enabled(l, e) && Closed(l.b)
    ensures Reopens(l, e) ==> Apply(l, e).b == Breaker(false, 0, true)
    ensures !Reopens(l, e) ==> Apply(l, e).b == l.b
  {
  }

  /** No step of the run reopens it. */
  predicate NeverReopens(l: Line, es: seq<Event>)
    requires IsRun(l, es)
    decreases |es|
  {
    es != [] ==> !Reopens(l, es[0]) && NeverReopens(Apply(l, es[0]), es[1..])
  }

  ghost predicate ClosedThroughout(l: Line, es: seq<Event>)
    requires IsRun(l, es)
    decreases |es|
  {
    Closed(l.b) && (es != [] ==> ClosedThroughout(Apply(l, es[0]), es[1..]))
  }

  /** Over all runs: a closed breaker stays closed, over any number of workers, exactly as long as no
      callback carries out a decision to make it anew; DecidesIff says when it decides so. */
  lemma {:induction false} ClosedIff(l: Line, es: seq<Event>)
    requires LineInv(l) && IsRun(l, es) && Closed(l.b)
    ensures ClosedThroughout(l, es) <==> NeverReopens(l, es)
    decreases |es|
  {
    if es != [] {
      StepLine(l, es[0]);
      ClosedStep(l, es[0]);
      if Closed(Apply(l, es[0]).b) { ClosedIff(Apply(l, es[0]), es[1..]); }
    }
  }

  // ----- a deaf breaker -----

  /** Deafness is for good: no step, the making of a new pipe included, ever ends it. */
  lemma {:induction false} DeafForGood(l: Line, es: seq<Event>)
    requires Deaf(l.b) && IsRun(l, es)
    ensures Deaf(After(l, es).b)
    decreases |es|
  {
    if es != [] { DeafForGood(Apply(l, es[0]), es[1..]); }
  }

  /** And it comes about exactly when a pipe is closed, or made anew, with the flag up. */
  lemma DeafIff(l: Line, e: Event)
    requires LineInv(l) && Enabled(l, e) && !Deaf(l.b)
    ensures Deaf(Apply(l, e).b) <==> l.b.broken && (e == CloseIt || Reopens(l, e))
  {
  }

  // ----- runs of a new client -----

  ghost predicate Leads(l: Line, es: seq<Event>, u: Line) { IsRun(l, es) && After(l, es) == u }

  lemma {:induction false} Step(l: Line, es: seq<Event>, u: Line, e: Event) returns (fs: seq<Event>, v: Line)
    requires Leads(l, es, u) && Enabled(u, e)
    ensures fs == es + [e] && v == Apply(u, e) && Leads(l, fs, v)
    decreases |es|
  {
    fs, v := es + [e], Apply(u, e);
    hide Enabled, Apply;
    if es == [] {
      assert fs[0] == e && fs[1..] == [];
      assert IsRun(v, []) && After(v, []) == v;
    } else {
      var gs, w := Step(Apply(l, es[0]), es[1..], u, e);
      assert fs[0] == es[0] && fs[1..] == gs;
    }
  }

  /** A Break fails in a new client, and not everyone in flight can be told. */
  lemma Closes() returns (es: seq<Event>, u: Line)
    ensures Leads(NEW, es, u) && Closed(u.b) && LineInv(u) && !u.worker && !u.failing && u.callback == Away
  {
    hide Leads;
    es, u := [], NEW;
    assert Leads(NEW, [], NEW) by { Here(); }
    es, u := Step(NEW, es, u, Spawn);
    es, u := Step(NEW, es, u, Ask(true));
    es, u := Step(NEW, es, u, CloseIt);
    es, u := Step(NEW, es, u, Forget);
    es, u := Step(NEW, es, u, Look(false));
    es, u := Step(NEW, es, u, Remake);
  }

  lemma Here()
    ensures Leads(NEW, [], NEW)
  {
  }

  /** A worker that ends without a DisconnectAsync, and a callback that can tell everyone. */
  const UNASKED: seq<Event> := [Spawn, Forget, Look(true), Remake]

  function Times(n: nat): seq<Event> {
    if n == 0 then [] else UNASKED + Times(n - 1)
  }

  lemma TimesIs(n: nat)
    requires n > 0
    ensures Times(n) == UNASKED + Times(n - 1)
  {
  }

  lemma Prepend(l: Line, e: Event, es: seq<Event>)
    requires Enabled(l, e) && Closed(l.b) && IsRun(Apply(l, e), es) && ClosedThroughout(Apply(l, e), es)
    ensures IsRun(l, [e] + es) && ClosedThroughout(l, [e] + es) && After(l, [e] + es) == After(Apply(l, e), es)
  {
    hide Enabled, Apply;
    var fs := [e] + es;
    assert fs[0] == e && fs[1..] == es;
  }

  /** Such workers leave a closed breaker closed, however many of them there are. */
  lemma {:induction false} ClosedOverWorkers(l: Line, n: nat)
    requires Closed(l.b) && LineInv(l) && !l.worker && !l.failing && l.callback == Away
    ensures IsRun(l, Times(n)) && ClosedThroughout(l, Times(n))
    ensures var u := After(l, Times(n)); !u.worker && !u.failing && u.callback == Away && LineInv(u)
    decreases n
  {
    if n > 0 {
      var es, rest := Times(n), Times(n - 1);
      var l1 := Apply(l, Spawn);
      var l2 := Apply(l1, Forget);
      var l3 := Apply(l2, Look(true));
      var l4 := Apply(l3, Remake);
      ClosedOverWorkers(l4, n - 1);
      hide Times;
      Prepend(l3, Remake, rest);
      Prepend(l2, Look(true), [Remake] + rest);
      Prepend(l1, Forget, [Look(true)] + ([Remake] + rest));
      Prepend(l, Spawn, [Forget] + ([Look(true)] + ([Remake] + rest)));
      assert es == UNASKED + rest by { TimesIs(n); }
      assert es == [Spawn] + ([Forget] + ([Look(true)] + ([Remake] + rest)));
    }
  }

  /** Closed over any number of workers, and back behind the first of them that is told to
      disconnect. */
  lemma {:induction false} ClosedAndBack(n: nat) returns (es: seq<Event>, closed: Line, after: seq<Event>, u: Line)
    ensures Leads(NEW, es, closed) && Closed(closed.b) && IsRun(closed, Times(n)) && ClosedThroughout(closed, Times(n))
    ensures Leads(After(closed, Times(n)), after, u)
    ensures after == [Spawn, Ask(false), CloseIt, Forget, Look(true), Remake] && u.b == Breaker(false, 0, true)
  {
    es, closed := Closes();
    ClosedOverWorkers(closed, n);
    var l := After(closed, Times(n));
    AtTheEnd(closed, Times(n));
    hide Times, ClosedThroughout;
    after, u := [], l;
    after, u := Step(l, after, u, Spawn);
    after, u := Step(l, after, u, Ask(false));
    after, u := Step(l, after, u, CloseIt);
    after, u := Step(l, after, u, Forget);
    after, u := Step(l, after, u, Look(true));
    after, u := Step(l, after, u, Remake);
  }

  lemma {:induction false} AtTheEnd(l: Line, es: seq<Event>)
    requires IsRun(l, es) && ClosedThroughout(l, es)
    ensures Closed(After(l, es).b)
    decreases |es|
  {
    if es != [] { AtTheEnd(Apply(l, es[0]), es[1..]); }
  }

  /** A new client becomes deaf when a ping callback breaks between the failed Break and Close. */
  lemma {:induction false} DeafByPing() returns (es: seq<Event>, u: Line)
    ensures es == [Spawn, Ask(true), Signal(false), CloseIt]
    ensures Leads(NEW, es, u) && Deaf(u.b)
  {
    hide Leads;
    Here();
    es, u := Step(NEW, [], NEW, Spawn);
    es, u := Step(NEW, es, u, Ask(true));
    es, u := Step(NEW, es, u, Signal(false));
    es, u := Step(NEW, es, u, CloseIt);
  }

  /** And when the callback of one worker is so late that it makes the pipe of the next one anew: the
      mark stays up, and the next callback makes that pipe anew with the flag up. */
  lemma {:induction false} DeafByLateCallback() returns (es: seq<Event>, u: Line)
    ensures es == [Spawn, Forget, Spawn, Ask(true), CloseIt, Look(true), Remake, Ask(false), Forget, Look(true),
                   Remake]
    ensures Leads(NEW, es, u) && Deaf(u.b) && u.b.open
  {
    hide Leads;
    Here();
    es, u := Step(NEW, [], NEW, Spawn);
    es, u := Step(NEW, es, u, Forget);
    es, u := Step(NEW, es, u, Spawn);
    es, u := Step(NEW, es, u, Ask(true));
    es, u := Step(NEW, es, u, CloseIt);
    es, u := Step(NEW, es, u, Look(true));
    es, u := Step(NEW, es, u, Remake);
    es, u := Step(NEW, es, u, Ask(false));
    es, u := Step(NEW, es, u, Forget);
    es, u := Step(NEW, es, u, Look(true));
    es, u := Step(NEW, es, u, Remake);
  }
}
