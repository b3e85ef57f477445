/** SocketBreaker (socket/socket_breaker.cpp): a pipe in non-blocking mode and the flag `_broken`,
    which change together under a mutex. */
module Breakers {

  /** `unread` is how many bytes are in the pipe. */
  datatype Breaker = Breaker(broken: bool, unread: nat, open: bool)

  /** What a non-blocking pipe takes before it refuses a write, and what Clear reads at once. */
  const CAPACITY: nat := 65536
  const CHUNK: nat := 128

  /** `faulty` says that the write fails although there is room. */
  datatype Op = Break(faulty: bool) | Clear | Close | ReCreate

  function WriteSucceeds(b: Breaker, faulty: bool): bool {
    b.open && b.unread < CAPACITY && !faulty
  }

  function Broke(b: Breaker, faulty: bool): Breaker {
    if !b.broken && WriteSucceeds(b, faulty) then b.(broken := true, unread := b.unread + 1) else b
  }

  function BreakResult(b: Breaker, faulty: bool): bool {
    b.broken || WriteSucceeds(b, faulty)
  }

  /** Reading an empty pipe fails, and then the flag is left alone. */
  function Wiped(b: Breaker): Breaker {
    if b.open && b.unread > 0 then
      b.(broken := false, unread := if b.unread <= CHUNK then 0 else b.unread - CHUNK)
    else b
  }

  /** ReCreate makes a new pipe; it does not touch `_broken`. */
  function Do(b: Breaker, op: Op): Breaker {
    match op
    case Break(faulty) => Broke(b, faulty)
    case Clear => Wiped(b)
    case Close => b.(open := false)
    case ReCreate => b.(unread := 0, open := true)
  }

  function DoAll(b: Breaker, ops: seq<Op>): Breaker
    decreases |ops|
  {
    if ops == [] then b else DoAll(Do(b, ops[0]), ops[1..])
  }

  /** The flag is up iff exactly one unread byte is in the pipe. */
  predicate Agrees(b: Breaker) {
    b.unread <= 1 && (b.broken <==> b.unread == 1)
  }

  /** Every new pipe is made while the flag is down. */
  predicate Careful(b: Breaker, ops: seq<Op>)
    decreases |ops|
  {
    ops != [] ==> (ops[0].ReCreate? ==> !b.broken) && Careful(Do(b, ops[0]), ops[1..])
  }

  /** Flag and pipe agree all along. */
  ghost predicate AgreesThroughout(b: Breaker, ops: seq<Op>) {
    forall k :: 0 <= k <= |ops| ==> Agrees(DoAll(b, ops[..k]))
  }

  /** Over all histories: flag and pipe agree all along exactly when every new pipe is made while
      the flag is down. */
  lemma {:induction false} AgreesIff(b: Breaker, ops: seq<Op>)
    requires Agrees(b)
    ensures AgreesThroughout(b, ops) <==> Careful(b, ops)
    decreases |ops|
  {
    assert ops[..0] == [];
    if ops != [] {
      var c, rest := Do(b, ops[0]), ops[1..];
      assert forall k :: 0 < k <= |ops| ==> ops[..k][0] == ops[0] && ops[..k][1..] == rest[..k - 1];
      assert DoAll(b, ops[..1]) == c by { assert rest[..0] == []; }
      if Agrees(c) {
        AgreesIff(c, rest);
        if AgreesThroughout(b, ops) {
          forall k | 0 <= k <= |rest| ensures Agrees(DoAll(c, rest[..k])) {
            assert DoAll(b, ops[..k + 1]) == DoAll(c, rest[..k]);
          }
        }
        if AgreesThroughout(c, rest) {
          forall k | 0 <= k <= |ops| ensures Agrees(DoAll(b, ops[..k])) {
            if k > 0 { assert DoAll(b, ops[..k]) == DoAll(c, rest[..k - 1]); }
          }
        }
      } else {
        assert !Agrees(DoAll(b, ops[..1]));
      }
    }
  }

  /** After a history in which every new pipe was made while the flag was down, they agree. */
  lemma {:induction false} AlwaysAgrees(b: Breaker, ops: seq<Op>)
    requires Agrees(b) && Careful(b, ops)
    ensures Agrees(DoAll(b, ops))
    decreases |ops|
  {
    AgreesIff(b, ops);
    assert ops[..|ops|] == ops;
  }

  /** How the client can get there all the same: a Break fails, a ping callback breaks again before
      the client has closed the pipe, and then the pipe is made anew with the flag up. */
  lemma {:induction false} PingBetween(b: Breaker)
    requires b == Breaker(false, 0, true)
    ensures var u := DoAll(b, [Break(true), Break(false), Close, ReCreate]);
      !Agrees(u) && u.broken && u.unread == 0
  {
    var ops := [Break(true), Break(false), Close, ReCreate];
    assert ops[1..] == [Break(false), Close, ReCreate];
    assert ops[1..][1..] == [Close, ReCreate];
    assert [Close, ReCreate][1..] == [ReCreate];
    assert [ReCreate][1..] == [];
  }

  /** A closed pipe that is not made anew carries no signal, and says so when the flag is down. */
  lemma {:induction false} ClosedStaysClosed(b: Breaker, ops: seq<Op>)
    requires !b.open && !b.broken && forall i :: 0 <= i < |ops| ==> !ops[i].ReCreate?
    ensures DoAll(b, ops) == b && !BreakResult(b, false)
    decreases |ops|
  {
    if ops != [] { ClosedStaysClosed(Do(b, ops[0]), ops[1..]); }
  }

  /** Clear reads up to 128 bytes at once, and lowers the flag iff there was something to read. */
  lemma {:induction false} ClearReads(b: Breaker)
    ensures var u := Wiped(b);
      && u.open == b.open
      && (b.open && 1 <= b.unread <= 128 ==> u == Breaker(false, 0, true))
      && (b.open && b.unread > 128 ==> u == Breaker(false, b.unread - 128, true))
      && (!b.open || b.unread == 0 ==> u == b)
  {
  }

  /** Signals are not lost: on an open pipe that works, Break succeeds whatever came before, and
      its byte stays until the next Clear. */
  lemma {:induction false} SignalSurvives(b: Breaker, before: seq<Op>, after: seq<Op>)
    requires Agrees(b) && Careful(b, before) && DoAll(b, before).open
    requires forall i :: 0 <= i < |after| ==> after[i].Break?
    ensures BreakResult(DoAll(b, before), false)
    ensures var u := DoAll(Broke(DoAll(b, before), false), after); u.broken && u.unread == 1
    decreases |after|
  {
    AlwaysAgrees(b, before);
    StaysUp(Broke(DoAll(b, before), false), after);
  }

  lemma {:induction false} StaysUp(b: Breaker, ops: seq<Op>)
    requires b.broken && forall i :: 0 <= i < |ops| ==> ops[i].Break?
    ensures DoAll(b, ops) == b
    decreases |ops|
  {
    if ops != [] { StaysUp(Do(b, ops[0]), ops[1..]); }
  }

  /** A failed Break leaves the flag down, which is what makes the new pipe agree; a new pipe
      made while the flag is up never carries a signal again. */
  lemma {:induction false} RecreateAgreesIff(b: Breaker, ops: seq<Op>)
    requires Agrees(b)
    ensures !BreakResult(b, true) <==> !b.broken
    ensures Agrees(Do(b, ReCreate)) <==> !b.broken
    ensures b.broken && (forall i :: 0 <= i < |ops| ==> ops[i].Break? || ops[i].Clear?) ==>
      DoAll(Do(b, ReCreate), ops) == Do(b, ReCreate)
  {
    if b.broken && (forall i :: 0 <= i < |ops| ==> ops[i].Break? || ops[i].Clear?) {
      DeafForever(Do(b, ReCreate), ops);
    }
  }

  lemma {:induction false} DeafForever(b: Breaker, ops: seq<Op>)
    requires b.broken && b.unread == 0 && forall i :: 0 <= i < |ops| ==> ops[i].Break? || ops[i].Clear?
    ensures DoAll(b, ops) == b
    decreases |ops|
  {
    if ops != [] { DeafForever(Do(b, ops[0]), ops[1..]); }
  }

  class SocketBreaker {
    var pipe: seq<char>
    var isOpen: bool
    var broken: bool

    constructor ()
      ensures View() == Breaker(false, 0, true)
    {
      pipe, isOpen, broken := [], true, false;
    }

    function View(): Breaker
      reads this
    {
      Breaker(broken, |pipe|, isOpen)
    }

    /** Lines 62-75. */
    method Break(faulty: bool) returns (ok: bool)
      modifies this
      ensures View() == Broke(old(View()), faulty) && ok == BreakResult(old(View()), faulty)
    {
      if broken {
        return true;
      }
      var ret := -1;
      if isOpen && |pipe| < CAPACITY && !faulty {
        pipe, ret := pipe + ['1'], 1;
      }
      if ret != 1 {
        return false;
      }
      broken := true;
      return broken;
    }

    /** Lines 53-60. */
    method CloseFds()
      modifies this
      ensures View() == Do(old(View()), Close)
    {
      isOpen := false;
    }

    /** Lines 23-51, where the system calls succeed. */
    method NewPipe()
      modifies this
      ensures View() == Do(old(View()), ReCreate)
    {
      pipe, isOpen := [], true;
    }

    /** Lines 77-88. */
    method Clear() returns (ok: bool)
      modifies this
      ensures View() == Wiped(old(View())) && ok == (old(View()).open && old(View()).unread > 0)
    {
      var ret := -1;
      if isOpen && pipe != [] {
        ret := if |pipe| <= CHUNK then |pipe| else CHUNK;
        pipe := pipe[ret..];
      }
      if ret < 0 {
        return false;
      }
      broken := false;
      return true;
    }
  }
}
