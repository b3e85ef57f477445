/** The message list of common/message_queue.cpp as a sequence: where PostMessage puts a
    message, what CancelMessage unlinks, what one pass of __RunLoop takes out, and the
    truncation to milliseconds both comparisons go through. */
module TimerList {
  import opened Options

  /** One Message. `serial` numbers the posts; the source has no such field. The callback is
      a token for the function that was posted. */
  datatype Msg = Msg(id: nat, when: int, callback: Option<nat>, serial: nat)

  // ----- message ids -----

  const UINT32_MAX := 0xFFFF_FFFF
  const PERIOD := UINT32_MAX - 1  // ids run through 1 .. 2^32-2

  /** `_currentMsgId++`, reset to 1 at UINT32_MAX. */
  function NextId(id: nat): nat {
    if id + 1 == UINT32_MAX then 1 else id + 1
  }

  /** The id of the post with a given serial number. */
  function IdOf(serial: nat): (id: nat)
    ensures 1 <= id <= PERIOD
  {
    1 + serial % PERIOD
  }

  lemma {:induction false} NextIdOf(serial: nat)
    ensures NextId(IdOf(serial)) == IdOf(serial + 1)
  {
    var q, r := serial / PERIOD, serial % PERIOD;
    assert serial == q * PERIOD + r;
    if r == PERIOD - 1 {
      assert serial + 1 == (q + 1) * PERIOD;
    } else {
      assert serial + 1 == q * PERIOD + (r + 1);
    }
  }

  /** Two posts share an id exactly when a multiple of the period lies between them. */
  lemma {:induction false} SameIdIff(a: nat, b: nat)
    requires a <= b
    ensures IdOf(a) == IdOf(b) <==> (b - a) % PERIOD == 0
    ensures a < b < a + PERIOD ==> IdOf(a) != IdOf(b)
  {
  }

  // ----- clock arithmetic -----

  /** `duration_cast<milliseconds>` of `d` ticks, `k` ticks to the millisecond. */
  function Millis(d: int, k: nat): int
    requires k > 0
  {
    if d >= 0 then d / k else -((-d) / k)
  }

  lemma DivBounds(d: nat, k: nat)
    requires k > 0
    ensures d / k * k <= d < d / k * k + k
    ensures d / k >= 1 <==> d >= k
  {
  }

  /** The due test of the loop holds up to one millisecond early; and when it fails, the
      truncated waiting time is at least one, so that a duration of zero can only mean an
      empty queue, and the deadline it gives lies at most a millisecond before the message. */
  lemma {:induction false} MillisDue(now: int, when: int, k: nat)
    requires k > 0
    ensures Millis(now - when, k) >= 0 <==> now - when + k > 0
    ensures Millis(now - when, k) < 0 ==>
      var d := Millis(when - now, k); d >= 1 && when - k < now + d * k <= when
  {
    if when > now {
      DivBounds(when - now, k);
    }
  }

  predicate IsDue(m: Msg, now: int, k: nat)
    requires k > 0
  {
    Millis(now - m.when, k) >= 0
  }

  // ----- the list -----

  ghost predicate Sorted(q: seq<Msg>) {
    forall i, j :: 0 <= i < j < |q| ==> q[i].when <= q[j].when
  }

  ghost predicate DistinctSerials(q: seq<Msg>) {
    forall i, j :: 0 <= i < j < |q| ==> q[i].serial != q[j].serial
  }

  ghost predicate Holds(q: seq<Msg>, x: nat) {
    exists i :: 0 <= i < |q| && q[i].serial == x
  }

  /** How many messages PostMessage steps over: the strictly earlier ones at the head. */
  function Before(q: seq<Msg>, when: int): (i: nat)
    ensures i <= |q|
  {
    if q != [] && q[0].when < when then 1 + Before(q[1..], when) else 0
  }

  lemma {:induction false} BeforeIff(q: seq<Msg>, when: int, i: nat)
    requires i <= |q|
    ensures i == Before(q, when) <==>
      (forall j :: 0 <= j < i ==> q[j].when < when) && (i < |q| ==> q[i].when >= when)
  {
    if q != [] && q[0].when < when && i > 0 {
      BeforeIff(q[1..], when, i - 1);
      assert forall j :: 0 <= j < i - 1 ==> q[1..][j] == q[j + 1];
      assert (forall j :: 1 <= j < i ==> q[j].when < when) <==>
        (forall j :: 0 <= j < i - 1 ==> q[1..][j].when < when) by {
        assert forall j :: 1 <= j < i ==> q[j] == q[1..][j - 1];
      }
    }
  }

  function Insert(q: seq<Msg>, m: Msg): seq<Msg> {
    q[..Before(q, m.when)] + [m] + q[Before(q, m.when)..]
  }

  /** Position of the first message with an id, or the length. */
  function Find(q: seq<Msg>, id: nat): (i: nat)
    ensures i <= |q|
  {
    if q == [] || q[0].id == id then 0 else 1 + Find(q[1..], id)
  }

  lemma {:induction false} FindIff(q: seq<Msg>, id: nat, i: nat)
    requires i <= |q|
    ensures i == Find(q, id) <==> (forall j :: 0 <= j < i ==> q[j].id != id) && (i < |q| ==> q[i].id == id)
  {
    if q != [] && q[0].id != id && i > 0 {
      FindIff(q[1..], id, i - 1);
      assert (forall j :: 1 <= j < i ==> q[j].id != id) <==>
        (forall j :: 0 <= j < i - 1 ==> q[1..][j].id != id) by {
        assert forall j :: 1 <= j < i ==> q[j] == q[1..][j - 1];
        assert forall j :: 0 <= j < i - 1 ==> q[1..][j] == q[j + 1];
      }
    }
  }

  function Unlink(q: seq<Msg>, id: nat): seq<Msg> {
    var i := Find(q, id);
    if i < |q| then q[..i] + q[i + 1..] else q
  }

  /** How many messages the scan takes off the head. */
  function DueCount(q: seq<Msg>, now: int, k: nat): (n: nat)
    requires k > 0
    ensures n <= |q|
  {
    if q != [] && IsDue(q[0], now, k) then 1 + DueCount(q[1..], now, k) else 0
  }

  lemma {:induction false} DueCountIff(q: seq<Msg>, now: int, k: nat, n: nat)
    requires k > 0 && n <= |q|
    ensures n == DueCount(q, now, k) <==>
      (forall j :: 0 <= j < n ==> IsDue(q[j], now, k)) && (n < |q| ==> !IsDue(q[n], now, k))
  {
    if q != [] && IsDue(q[0], now, k) && n > 0 {
      DueCountIff(q[1..], now, k, n - 1);
      assert (forall j :: 1 <= j < n ==> IsDue(q[j], now, k)) <==>
        (forall j :: 0 <= j < n - 1 ==> IsDue(q[1..][j], now, k)) by {
        assert forall j :: 1 <= j < n ==> q[j] == q[1..][j - 1];
        assert forall j :: 0 <= j < n - 1 ==> q[1..][j] == q[j + 1];
      }
    }
  }

  /** `callbackMap[id] = callback` for the messages in list order that have a callback. */
  function Collect(q: seq<Msg>): map<nat, Msg> {
    if q == [] then map[]
    else
      var last := q[|q| - 1];
      var b := Collect(q[..|q| - 1]);
      if last.callback.Some? then b[last.id := last] else b
  }

  lemma InsertPlaces(q: seq<Msg>, m: Msg)
    ensures var i := Before(q, m.when);
      && |Insert(q, m)| == |q| + 1 && Insert(q, m)[i] == m
      && (forall j :: 0 <= j < i ==> Insert(q, m)[j] == q[j])
      && (forall j :: i < j <= |q| ==> Insert(q, m)[j] == q[j - 1])
  {
  }

  lemma SortedFrom(q: seq<Msg>, m: Msg, j: nat)
    requires Sorted(q) && Before(q, m.when) <= j < |q|
    ensures q[j].when >= m.when
  {
    BeforeIff(q, m.when, Before(q, m.when));
  }

  /** Posting keeps the list sorted: after everything strictly earlier, before everything
      equal or later, and nothing else moves. */
  lemma InsertSorted(q: seq<Msg>, m: Msg)
    requires Sorted(q)
    ensures Sorted(Insert(q, m))
    ensures forall j :: 0 <= j < |q| ==> (q[j].when < m.when <==> j < Before(q, m.when))
  {
    var i := Before(q, m.when);
    BeforeIff(q, m.when, i);
    forall j | i <= j < |q| ensures q[j].when >= m.when {
      SortedFrom(q, m, j);
    }
    var r := Insert(q, m);
    InsertPlaces(q, m);
    forall a, b | 0 <= a < b < |r| ensures r[a].when <= r[b].when {
      if a == i {
        assert r[b] == q[b - 1];
      } else if b != i {
        assert r[a] == q[if a < i then a else a - 1] && r[b] == q[if b < i then b else b - 1];
      }
    }
  }

  lemma InsertHolds(q: seq<Msg>, m: Msg, x: nat)
    ensures Holds(Insert(q, m), x) <==> x == m.serial || Holds(q, x)
  {
    var i := Before(q, m.when);
    var r := Insert(q, m);
    assert r[i] == m;
    if Holds(q, x) {
      var j :| 0 <= j < |q| && q[j].serial == x;
      assert r[if j < i then j else j + 1].serial == x;
    }
    if Holds(r, x) {
      var j :| 0 <= j < |r| && r[j].serial == x;
      if j != i {
        assert q[if j < i then j else j - 1].serial == x;
      }
    }
  }

  lemma InsertDistinct(q: seq<Msg>, m: Msg)
    requires DistinctSerials(q) && !Holds(q, m.serial)
    ensures DistinctSerials(Insert(q, m))
  {
  }

  /** Canceling removes exactly the first message with the id, and nothing else. */
  lemma {:induction false} UnlinkExact(q: seq<Msg>, id: nat)
    ensures Find(q, id) == |q| ==> Unlink(q, id) == q
    ensures Find(q, id) < |q| ==>
      |Unlink(q, id)| == |q| - 1 &&
      forall j :: 0 <= j < |q| - 1 ==> Unlink(q, id)[j] == q[if j < Find(q, id) then j else j + 1]
  {
  }

  lemma UnlinkOrdered(q: seq<Msg>, id: nat)
    ensures Sorted(q) ==> Sorted(Unlink(q, id))
    ensures DistinctSerials(q) ==> DistinctSerials(Unlink(q, id))
  {
    UnlinkExact(q, id);
  }

  lemma UnlinkHolds(q: seq<Msg>, id: nat, x: nat)
    requires DistinctSerials(q)
    ensures Holds(Unlink(q, id), x) <==>
      Holds(q, x) && !(Find(q, id) < |q| && q[Find(q, id)].serial == x)
  {
    UnlinkExact(q, id);
    var i := Find(q, id);
    var r := Unlink(q, id);
    if i < |q| {
      if Holds(q, x) && q[i].serial != x {
        var j :| 0 <= j < |q| && q[j].serial == x;
        assert r[if j < i then j else j - 1].serial == x;
      }
      if Holds(r, x) {
        var j :| 0 <= j < |r| && r[j].serial == x;
        assert q[if j < i then j else j + 1].serial == x;
      }
    }
  }

  /** The scan stops at the first message that is not due, and still takes every due one. */
  lemma {:induction false} ScanTakesAllDue(q: seq<Msg>, now: int, k: nat)
    requires k > 0 && Sorted(q)
    ensures forall j :: 0 <= j < |q| ==> (IsDue(q[j], now, k) <==> j < DueCount(q, now, k))
  {
    var n := DueCount(q, now, k);
    DueCountIff(q, now, k, n);
    forall j | n <= j < |q| ensures !IsDue(q[j], now, k) {
      MillisDue(now, q[n].when, k);
      MillisDue(now, q[j].when, k);
    }
  }

  lemma {:induction false} CollectSound(q: seq<Msg>, id: nat)
    requires id in Collect(q)
    ensures var m := Collect(q)[id]; m in q && m.id == id && m.callback.Some?
  {
    var p := q[..|q| - 1];
    if id in Collect(p) { CollectSound(p, id); }
  }

  /** The batch keeps, for each id, the last due message with a callback. */
  lemma {:induction false} CollectKeepsIff(q: seq<Msg>, i: nat)
    requires i < |q| && q[i].callback.Some? && forall j :: i < j < |q| ==> q[j] != q[i]
    ensures q[i].id in Collect(q)
    ensures Collect(q)[q[i].id] == q[i] <==>
      forall j :: i < j < |q| && q[j].callback.Some? ==> q[j].id != q[i].id
  {
    if i < |q| - 1 {
      var p := q[..|q| - 1];
      assert p[i] == q[i] && forall j :: 0 <= j < |p| ==> p[j] == q[j];
      CollectKeepsIff(p, i);
    }
  }

  /** With distinct ids it keeps all of them. */
  lemma {:induction false} CollectKeeps(q: seq<Msg>, i: nat)
    requires i < |q| && q[i].callback.Some?
    ensures q[i].id in Collect(q)
    ensures (forall j :: i < j < |q| ==> q[j].id != q[i].id) ==> Collect(q)[q[i].id] == q[i]
  {
    if i < |q| - 1 {
      var p := q[..|q| - 1];
      CollectKeeps(p, i);
      assert p[i] == q[i];
    }
  }
}
