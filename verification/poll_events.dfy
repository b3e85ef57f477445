/** SocketEpoll (socket/socket_epoll.cpp): the vector of events to wait for, and waiting, which
    clears the breaker afterwards. */
module PollEvents {
  import opened Options
  import opened Breakers

  datatype Kind = Reading | Writing | Failing

  /** An epoll_event with what is asked for. */
  datatype Interest = Interest(fd: int, read: bool, write: bool, error: bool)

  /** An epoll_event with what is reported. */
  datatype Report = Report(fd: int, readable: bool, writable: bool, hangUp: bool, error: bool)

  function Asks(e: Interest, kind: Kind): bool {
    match kind
    case Reading => e.read
    case Writing => e.write
    case Failing => e.error
  }

  function WithFlag(e: Interest, kind: Kind, active: bool): Interest {
    match kind
    case Reading => e.(read := active)
    case Writing => e.(write := active)
    case Failing => e.(error := active)
  }

  predicate DistinctFds(es: seq<Interest>) {
    forall i, j :: 0 <= i < j < |es| ==> es[i].fd != es[j].fd
  }

  /** Whether a wait asks for this event of `fd`. */
  ghost predicate Wants(es: seq<Interest>, fd: int, kind: Kind) {
    exists i :: 0 <= i < |es| && es[i].fd == fd && Asks(es[i], kind)
  }

  /** The first entry of `fd`, or the end. */
  function IndexOf(es: seq<Interest>, fd: int): (i: nat)
    ensures i <= |es| && (i < |es| ==> es[i].fd == fd) && forall j :: 0 <= j < i ==> es[j].fd != fd
  {
    if es == [] || es[0].fd == fd then 0
    else
      var i := IndexOf(es[1..], fd);
      assert forall j :: 0 < j < 1 + i ==> es[j] == es[1..][j - 1];
      1 + i
  }

  /** What setting one event does to the vector. */
  function Put(es: seq<Interest>, fd: int, kind: Kind, active: bool): seq<Interest> {
    var i := IndexOf(es, fd);
    if i == |es| then es + [WithFlag(Interest(fd, false, false, false), kind, active)]
    else es[i := WithFlag(es[i], kind, active)]
  }

  /** Setting an event changes that event of that socket and no other, and the vector keeps one
      entry per socket, the breaker's first. */
  lemma {:induction false} PutExact(es: seq<Interest>, fd: int, kind: Kind, active: bool, other: int, k: Kind)
    requires DistinctFds(es)
    ensures var us := Put(es, fd, kind, active);
      && DistinctFds(us)
      && (Wants(us, other, k) <==> if other == fd && k == kind then active else Wants(es, other, k))
      && (es != [] ==> us != [] && us[0].fd == es[0].fd)
  {
    var us := Put(es, fd, kind, active);
    var i := IndexOf(es, fd);
    assert us[i] == WithFlag(if i < |es| then es[i] else Interest(fd, false, false, false), kind, active);
    assert forall j :: 0 <= j < |us| && j != i ==> us[j] == es[j];
    if Wants(es, other, k) {
      var j :| 0 <= j < |es| && es[j].fd == other && Asks(es[j], k);
      assert us[j].fd == other;
    }
    if Wants(us, other, k) {
      var j :| 0 <= j < |us| && us[j].fd == other && Asks(us[j], k);
    }
  }

  /** What the first report on `fd` says. */
  function Reported(rs: seq<Report>, fd: int): Option<Report> {
    if rs == [] then None else if rs[0].fd == fd then Some(rs[0]) else Reported(rs[1..], fd)
  }

  /** The place of the first report on `fd`. */
  predicate IsFirst(rs: seq<Report>, fd: int, i: nat) {
    i < |rs| && rs[i].fd == fd && forall j :: 0 <= j < i ==> rs[j].fd != fd
  }

  /** Wherever it is among the reports, the first one on `fd` is the one that is found, and there is
      none only if no report is on `fd`. */
  lemma {:induction false} ReportedIff(rs: seq<Report>, fd: int)
    ensures forall i: nat :: IsFirst(rs, fd, i) ==> Reported(rs, fd) == Some(rs[i])
    ensures Reported(rs, fd).None? <==> forall i :: 0 <= i < |rs| ==> rs[i].fd != fd
    ensures Reported(rs, fd).Some? ==> exists i: nat :: IsFirst(rs, fd, i)
  {
    if rs != [] {
      if rs[0].fd == fd {
        assert IsFirst(rs, fd, 0);
      } else {
        ReportedIff(rs[1..], fd);
        forall i: nat | IsFirst(rs, fd, i) ensures Reported(rs, fd) == Some(rs[i]) {
          assert IsFirst(rs[1..], fd, i - 1);
        }
        if Reported(rs, fd).Some? {
          var i: nat :| IsFirst(rs[1..], fd, i);
          assert IsFirst(rs, fd, i + 1);
        }
        assert forall i :: 1 <= i < |rs| ==> rs[i] == rs[1..][i - 1];
      }
    }
  }

  /** What is registered after adding every entry; a socket that is there already is left alone. */
  function Registration(registered: map<int, Interest>, es: seq<Interest>): map<int, Interest> {
    if es == [] then registered
    else
      var before := Registration(registered, es[..|es| - 1]);
      var e := es[|es| - 1];
      if e.fd in before then before else before[e.fd := e]
  }

  /** The first wait of an object asks for exactly what was set; later waits ask for what the first
      one did, as far as the same sockets go. */
  lemma {:induction false} RegistrationExact(registered: map<int, Interest>, es: seq<Interest>, fd: int)
    requires DistinctFds(es)
    ensures var u := Registration(registered, es);
      && (fd in u <==> fd in registered || exists i :: 0 <= i < |es| && es[i].fd == fd)
      && (fd in registered ==> u[fd] == registered[fd])
      && (forall i :: 0 <= i < |es| && es[i].fd == fd && fd !in registered ==> u[fd] == es[i])
  {
    if es != [] {
      var init := es[..|es| - 1];
      RegistrationExact(registered, init, fd);
      assert forall i :: 0 <= i < |init| ==> init[i] == es[i];
    }
  }

  /** The seconds of the caller in milliseconds; -1 waits for ever, anything below not at all. */
  function WaitTime(timeout: int): (wait: int)
    ensures timeout >= 0 ==> wait == 1000 * timeout
    ensures wait < 0 <==> timeout == -1
    ensures timeout == -1 ==> wait == -1
  {
    if timeout > 0 then timeout * 1000 else if timeout < -1 then 0 else timeout
  }

  class SocketEpoll {
    const breakerFd: int
    const breaker: SocketBreaker
    var events: seq<Interest>
    var registered: map<int, Interest>   // what the kernel watches for
    var pollEvents: seq<Report>

    /** One entry per socket, the breaker's first. */
    ghost predicate Valid()
      reads this
    {
      DistinctFds(events) && events != [] && events[0].fd == breakerFd
    }

    constructor (breakerFd: int, breaker: SocketBreaker)
      ensures Valid() && this.breakerFd == breakerFd && this.breaker == breaker
      ensures events == [Interest(breakerFd, true, false, false)] && registered == map[] && pollEvents == []
    {
      this.breakerFd, this.breaker := breakerFd, breaker;
      events, registered, pollEvents := [Interest(breakerFd, true, false, false)], map[], [];
    }

    /** ReadEvent, WriteEvent and ErrorEvent, which differ in the flag only. */
    method SetEvent(fd: int, kind: Kind, active: bool)
      requires Valid()
      modifies `events
      ensures Valid() && events == Put(old(events), fd, kind, active)
    {
      PutExact(events, fd, kind, active, fd, kind);
      var i := 0;
      while i < |events| && events[i].fd != fd
        invariant 0 <= i <= |events| && forall j :: 0 <= j < i ==> events[j].fd != fd
      {
        i := i + 1;
      }
      if i == |events| {
        events := events + [WithFlag(Interest(fd, false, false, false), kind, active)];
      } else {
        events := events[i := WithFlag(events[i], kind, active)];
      }
    }

    /** ClearEvent: only the breaker is left. */
    method ClearEvent()
      requires Valid()
      modifies `events
      ensures Valid() && events == [old(events)[0]]
    {
      events := events[..1];
    }

    /** EPOLL_CTL_ADD: a socket that is registered already keeps its registration. */
    method Register()
      requires Valid()
      modifies `registered
      ensures registered == Registration(old(registered), events)
    {
      var i := 0;
      assert events[..0] == [];
      while i < |events|
        invariant 0 <= i <= |events| && registered == Registration(old(registered), events[..i])
      {
        assert events[..i + 1][..i] == events[..i];
        if events[i].fd !in registered {
          registered := registered[events[i].fd := events[i]];
        }
        i := i + 1;
      }
      assert events[..|events|] == events;
    }

    /** Poll, where `timeout` is in seconds and `answer` is what epoll_wait returns after waiting for
        at most `wait` milliseconds; None is an error. Whatever it is, the breaker is cleared after
        the wait. */
    method Poll(timeout: int, answer: Option<seq<Report>>) returns (ret: int, wait: int)
      requires Valid()
      modifies `registered, `pollEvents, breaker
      ensures Valid() && breaker.View() == Wiped(old(breaker.View()))
      ensures registered == Registration(old(registered), events)
      ensures wait == WaitTime(timeout)
      ensures ret == if answer.None? then -1 else |answer.value|
      ensures pollEvents == if answer.None? then [] else answer.value
    {
      wait := timeout;
      if wait > 0 {
        wait := wait * 1000;
      }
      if wait < -1 {
        wait := 0;
      }
      pollEvents := [];
      Register();
      if answer.None? {
        ret := -1;
      } else {
        ret := |answer.value|;
        var i := 0;
        while i < ret
          invariant 0 <= i <= ret == |answer.value| && pollEvents == answer.value[..i]
          invariant breaker.View() == old(breaker.View()) && registered == Registration(old(registered), events)
        {
          pollEvents := pollEvents + [answer.value[i]];
          i := i + 1;
        }
      }
      var ok := breaker.Clear();
    }

    /** The loop of ReadFdIsSet, WriteFdIsSet and ExceptionFdIsSet. */
    method Find(fd: int) returns (r: Option<Report>)
      ensures r == Reported(pollEvents, fd)
      ensures r.Some? <==> exists i :: 0 <= i < |pollEvents| && pollEvents[i].fd == fd
      ensures forall i: nat :: IsFirst(pollEvents, fd, i) ==> r == Some(pollEvents[i])
    {
      ReportedIff(pollEvents, fd);
      var i := 0;
      assert pollEvents[0..] == pollEvents;
      while i < |pollEvents|
        invariant 0 <= i <= |pollEvents| && Reported(pollEvents, fd) == Reported(pollEvents[i..], fd)
      {
        assert pollEvents[i..][0] == pollEvents[i] && pollEvents[i..][1..] == pollEvents[i + 1..];
        if pollEvents[i].fd == fd {
          return Some(pollEvents[i]);
        }
        i := i + 1;
      }
      return None;
    }

    /** BreakerIsBreak and BreakerIsError: the breaker is one of the sockets. */
    method BreakerIsBreak() returns (b: bool)
      ensures b <==> exists i: nat ::
        IsFirst(pollEvents, breakerFd, i) && (pollEvents[i].readable || pollEvents[i].hangUp)
    {
      b := ReadFdIsSet(breakerFd);
    }

    method BreakerIsError() returns (b: bool)
      ensures b <==> exists i: nat :: IsFirst(pollEvents, breakerFd, i) && pollEvents[i].error
    {
      b := ExceptionFdIsSet(breakerFd);
    }

    method ReadFdIsSet(fd: int) returns (b: bool)
      ensures b <==> exists i: nat :: IsFirst(pollEvents, fd, i) && (pollEvents[i].readable || pollEvents[i].hangUp)
    {
      ReportedIff(pollEvents, fd);
      var r := Find(fd);
      return r.Some? && (r.value.readable || r.value.hangUp);
    }

    method WriteFdIsSet(fd: int) returns (b: bool)
      ensures b <==> exists i: nat :: IsFirst(pollEvents, fd, i) && pollEvents[i].writable
    {
      ReportedIff(pollEvents, fd);
      var r := Find(fd);
      return r.Some? && r.value.writable;
    }

    method ExceptionFdIsSet(fd: int) returns (b: bool)
      ensures b <==> exists i: nat :: IsFirst(pollEvents, fd, i) && pollEvents[i].error
    {
      ReportedIff(pollEvents, fd);
      var r := Find(fd);
      return r.Some? && r.value.error;
    }
  }

  /** What the worker asks for: its socket for reading and errors always, for writing iff it saw a
      message, and the breaker (tcp_client.cpp:478-491). */
  lemma WorkerWatches(breakerFd: int, fd: int, hasMessage: bool)
    requires fd != breakerFd
    ensures var es := Put(Put([Interest(breakerFd, true, false, false)], fd, Reading, true), fd, Failing, true);
      var us := if hasMessage then Put(es, fd, Writing, true) else es;
      && Wants(us, breakerFd, Reading) && Wants(us, fd, Reading) && Wants(us, fd, Failing)
      && (Wants(us, fd, Writing) <==> hasMessage)
  {
    var e0 := [Interest(breakerFd, true, false, false)];
    assert e0[0].fd == breakerFd && Asks(e0[0], Reading);
    assert Wants(e0, breakerFd, Reading) && !Wants(e0, fd, Writing);
    hide Put, Wants;
    WantsAfter(e0, fd, breakerFd, Reading);
    WantsAfter(e0, fd, fd, Reading);
    WantsAfter(e0, fd, fd, Failing);
    WantsAfter(e0, fd, fd, Writing);
  }

  lemma WantsAfter(e0: seq<Interest>, fd: int, g: int, k: Kind)
    requires DistinctFds(e0)
    ensures var e2 := Put(Put(e0, fd, Reading, true), fd, Failing, true);
      && (Wants(e2, g, k) <==> (g == fd && k != Writing) || Wants(e0, g, k))
      && (Wants(Put(e2, fd, Writing, true), g, k) <==> g == fd || Wants(e0, g, k))
  {
    hide Put, Wants;
    PutExact(e0, fd, Reading, true, g, k);
    var e1 := Put(e0, fd, Reading, true);
    PutExact(e1, fd, Failing, true, g, k);
    var e2 := Put(e1, fd, Failing, true);
    PutExact(e2, fd, Writing, true, g, k);
  }
}
