/** MessageQueue of common/message_queue.cpp on the heap: a singly linked list whose pointers
    are relinked in place. Each method is one critical section of `_mutex`. */
module MessageQueueClass {
  import opened Options
  import opened TimerList
  import opened TimerLoop

  class Message {
    const callback: Option<nat>
    const messageId: nat
    const when: int
    var next: Message?
    ghost const serial: nat

    constructor (callback: Option<nat>, messageId: nat, when: int, ghost serial: nat)
      ensures Value() == Msg(messageId, when, callback, serial) && next == null
    {
      this.callback, this.messageId, this.when, this.next := callback, messageId, when, null;
      this.serial := serial;
    }

    ghost function Value(): Msg {
      Msg(messageId, when, callback, serial)
    }
  }

  ghost predicate Linked(ns: seq<Message>)
    reads ns
  {
    && (forall i, j :: 0 <= i < j < |ns| ==> ns[i] != ns[j])
    && (forall i {:trigger ns[i].next} :: 0 <= i < |ns| - 1 ==> ns[i].next == ns[i + 1])
    && (ns != [] ==> ns[|ns| - 1].next == null)
  }

  /** `x` put in front of the `i`-th element. */
  ghost function WithAt<T>(s: seq<T>, i: nat, x: T): seq<T> {
    if i <= |s| then s[..i] + [x] + s[i..] else s + [x]
  }

  ghost predicate Spells(ns: seq<Message>, q: seq<Msg>) {
    |ns| == |q| && forall i :: 0 <= i < |ns| ==> ns[i].Value() == q[i]
  }

  class MessageQueue {
    const ticksPerMs: nat
    var firstMessage: Message?
    var currentMsgId: nat
    var hasPost: bool
    var canceled: set<nat>
    ghost var nodes: seq<Message>
    ghost var contents: seq<Msg>
    ghost var posted: nat

    /** The pointers spell out `nodes`, without a cycle and ending in null, and the nodes hold
        the messages of `contents`. */
    ghost predicate Valid()
      reads this, nodes
    {
      && ticksPerMs > 0
      && currentMsgId == IdOf(posted)
      && firstMessage == (if nodes == [] then null else nodes[0])
      && Linked(nodes)
      && Spells(nodes, contents)
    }

    constructor (ticksPerMs: nat)
      requires ticksPerMs > 0
      ensures Valid() && contents == [] && !hasPost && canceled == {} && this.ticksPerMs == ticksPerMs
    {
      this.ticksPerMs := ticksPerMs;
      firstMessage, currentMsgId, hasPost, canceled := null, 1, false, {};
      nodes, contents, posted := [], [], 0;
    }

    /** PostMessage: `now` is the clock reading and `after` the delay, in ticks. */
    method PostMessage(now: int, after: int, callback: Option<nat>) returns (id: nat, ghost added: Message)
      requires Valid()
      modifies this, nodes
      ensures Valid() && fresh(added)
      ensures id == IdOf(old(posted)) && posted == old(posted) + 1
      ensures nodes == WithAt(old(nodes), Before(old(contents), now + after), added)
      ensures contents == Insert(old(contents), Msg(id, now + after, callback, old(posted)))
      ensures hasPost && canceled == old(canceled)
    {
      hide IdOf, Before, Linked, Spells, Insert, WithAt;
      id := TakeId();
      var newMessage := new Message(callback, id, now + after, posted - 1);
      added := newMessage;
      Place(newMessage);
      Notify();
    }

    /** Lines 135-136. */
    method Notify()
      requires Valid()
      modifies `hasPost
      ensures Valid() && hasPost
    {
      hide Linked, Spells, IdOf;
      hasPost := true;
    }

    /** Finds the place of the new message and links it in. */
    method Place(newMessage: Message)
      requires Valid() && (forall k :: 0 <= k < |nodes| ==> nodes[k] != newMessage) && newMessage.next == null
      modifies `firstMessage, `nodes, `contents, newMessage`next, nodes`next
      ensures Valid() && nodes == WithAt(old(nodes), Before(old(contents), newMessage.when), newMessage)
      ensures contents == Insert(old(contents), newMessage.Value())
    {
      assert |nodes| == |contents|;
      InsertIs(contents, newMessage.Value());
      hide IdOf, Before, Linked, Spells, Insert;
      var lastMessage, currentMessage := FindPlace(newMessage.when);
      LinkIn(lastMessage, currentMessage, newMessage, Before(contents, newMessage.when));
    }

    /** The id of the new message, and `_currentMsgId` for the next one. */
    method TakeId() returns (id: nat)
      requires Valid()
      modifies `currentMsgId, `posted
      ensures Valid() && id == IdOf(old(posted)) && posted == old(posted) + 1
    {
      id := currentMsgId;
      NextIdOf(posted);
      currentMsgId := currentMsgId + 1;
      if currentMsgId == UINT32_MAX {
        currentMsgId := 1;
      }
      posted := posted + 1;
    }

    /** The search loop of PostMessage. */
    method FindPlace(when: int) returns (lastMessage: Message?, currentMessage: Message?)
      requires Valid()
      ensures var i := Before(contents, when);
        && currentMessage == (if i < |nodes| then nodes[i] else null)
        && lastMessage == (if i > 0 then nodes[i - 1] else null)
    {
      lastMessage := null;
      currentMessage := firstMessage;
      ghost var i := 0;
      while currentMessage != null && currentMessage.when < when
        invariant 0 <= i <= |nodes|
        invariant currentMessage == (if i < |nodes| then nodes[i] else null)
        invariant lastMessage == (if i > 0 then nodes[i - 1] else null)
        invariant forall j :: 0 <= j < i ==> contents[j].when < when
        decreases |nodes| - i
      {
        assert contents[i] == nodes[i].Value();
        lastMessage := currentMessage;
        currentMessage := currentMessage.next;
        i := i + 1;
      }
      assert i < |nodes| ==> contents[i] == nodes[i].Value();
      BeforeIff(contents, when, i);
    }

    /** The pointer updates of PostMessage, in front of the `i`-th message. */
    method LinkIn(lastMessage: Message?, currentMessage: Message?, newMessage: Message, ghost i: nat)
      requires Valid() && (forall k :: 0 <= k < |nodes| ==> nodes[k] != newMessage)
      requires newMessage.next == null && i <= |nodes|
      requires currentMessage == if i < |nodes| then nodes[i] else null
      requires lastMessage == if i > 0 then nodes[i - 1] else null
      modifies `firstMessage, `nodes, `contents, newMessage`next, nodes`next
      ensures Valid() && nodes == old(nodes)[..i] + [newMessage] + old(nodes)[i..]
      ensures contents == old(contents)[..i] + [newMessage.Value()] + old(contents)[i..]
    {
      hide IdOf;
      if lastMessage == null {
        newMessage.next := firstMessage;
        firstMessage := newMessage;
      } else {
        lastMessage.next := newMessage;
        if currentMessage != null {
          newMessage.next := currentMessage;
        }
      }
      ghost var ns := nodes;
      SpellsIn(nodes, contents, newMessage, i);
      hide Spells;
      nodes := nodes[..i] + [newMessage] + nodes[i..];
      contents := contents[..i] + [newMessage.Value()] + contents[i..];
      assert nodes[i] == newMessage && forall j :: 0 <= j < |nodes| && j != i ==>
        nodes[j] == ns[if j < i then j else j - 1];
      forall j | 0 <= j < |nodes| - 1 ensures nodes[j].next == nodes[j + 1] {
        if i < j { assert ns[j - 1].next == ns[j]; }
        if j + 1 < i { assert ns[j].next == ns[j + 1]; }
      }
    }

    /** CancelMessage: the id is remembered whether or not a message was found. */
    method CancelMessage(id: nat) returns (found: bool)
      requires Valid()
      modifies this, nodes
      ensures Valid() && forall j :: 0 <= j < |nodes| ==> nodes[j] in old(nodes)
      ensures found <==> Find(old(contents), id) < |old(contents)|
      ensures contents == Unlink(old(contents), id)
      ensures canceled == old(canceled) + {id} && hasPost == old(hasPost) && posted == old(posted)
    {
      var lastMessage: Message? := null;
      var currentMessage := firstMessage;
      ghost var i := 0;
      while currentMessage != null
        invariant 0 <= i <= |nodes|
        invariant currentMessage == (if i < |nodes| then nodes[i] else null)
        invariant lastMessage == (if i > 0 then nodes[i - 1] else null)
        invariant forall j :: 0 <= j < i ==> contents[j].id != id
        decreases |nodes| - i
      {
        assert contents[i] == nodes[i].Value();
        if currentMessage.messageId == id {
          break;
        }
        lastMessage := currentMessage;
        currentMessage := currentMessage.next;
        i := i + 1;
      }
      assert i < |nodes| ==> contents[i] == nodes[i].Value();
      FindIff(contents, id, i);
      canceled := canceled + {id};
      if currentMessage == null {
        return false;
      }
      LinkOut(lastMessage, currentMessage, i);
      return true;
    }

    /** The pointer updates of CancelMessage: the `i`-th message leaves the list. */
    method LinkOut(lastMessage: Message?, currentMessage: Message, ghost i: nat)
      requires Valid() && i < |nodes| && currentMessage == nodes[i]
      requires lastMessage == if i > 0 then nodes[i - 1] else null
      modifies `firstMessage, `nodes, `contents, nodes`next
      ensures Valid() && nodes == old(nodes)[..i] + old(nodes)[i + 1..]
      ensures contents == old(contents)[..i] + old(contents)[i + 1..]
    {
      hide IdOf;
      if lastMessage == null {
        firstMessage := currentMessage.next;
      } else {
        lastMessage.next := currentMessage.next;
      }
      nodes := nodes[..i] + nodes[i + 1..];
      contents := contents[..i] + contents[i + 1..];
    }

    /** What the fields have in common with a state of the timer loop. */
    ghost predicate Shows(s: State)
      reads this
    {
      && ticksPerMs == s.ticksPerMs && contents == s.queue && currentMsgId == s.nextId
      && hasPost == s.hasPost && canceled == s.canceled && posted == s.posted
    }

    /** The locked first half of an iteration of __RunLoop: take the due messages off the
        head, compute the waiting time, and reset the two flags before unlocking. */
    method Scan(now: int, ghost s: State) returns (batch: map<nat, nat>, duration: int)
      requires Valid() && Shows(s) && s.clock == now
      modifies this
      ensures Valid() && Shows(ApplyScan(s))
      ensures duration == ApplyScan(s).duration && Callbacks(batch, ApplyScan(s).batch)
      ensures exists k :: 0 <= k <= |old(nodes)| && nodes == old(nodes)[k..]
    {
      assert ticksPerMs > 0;
      hide Millis, IdOf, Linked, Spells, DueCount, Collect, Callbacks, TakenPlaces;
      var currentMessage;
      batch, currentMessage := TakeDue(now);
      if currentMessage == null {
        duration := 0;
      } else {
        duration := Millis(currentMessage.when - now, ticksPerMs);
      }
      canceled := {};
      hasPost := false;
    }

    /** The check of lines 71-75: a batch entry whose id was cancelled is skipped. */
    method IsCanceled(id: nat) returns (skip: bool)
      ensures skip <==> id in canceled
    {
      return id in canceled;
    }

    /** The locked second half: go round again if something was posted, otherwise how long to wait,
        for ever if `deadline` is None. */
    method Decide(duration: int, now: int, ghost s: State) returns (again: bool, deadline: Option<int>)
      requires Shows(s) && s.duration == duration && s.scanNow == now
      modifies `hasPost
      ensures Shows(ApplyDecide(s))
      ensures ApplyDecide(s).loop == if again then Scanning else Parked(deadline, false)
    {
      deadline := None;
      if hasPost {
        hasPost := false;
        return true, None;
      }
      if duration != 0 {
        deadline := Some(now + duration * ticksPerMs);
      }
      return false, deadline;
    }

    /** The first loop of __RunLoop; `currentMessage` is the head it stops at. */
    method TakeDue(now: int) returns (batch: map<nat, nat>, currentMessage: Message?)
      requires Valid()
      modifies `firstMessage, `nodes, `contents
      ensures Valid()
      ensures var q := old(contents);
        var n := DueCount(q, now, ticksPerMs);
        && contents == q[n..] && |q| == |old(nodes)| && nodes == old(nodes)[n..]
        && Callbacks(batch, Collect(q[..n]))
        && (currentMessage == null <==> n == |q|)
        && (currentMessage != null ==> currentMessage.when == q[n].when)
    {
      ghost var q, ns := contents, nodes;
      SpellsHead(nodes, contents);
      NothingTaken(q);
      hide Millis, IdOf, Linked, Spells, IsDue, Collect, Callbacks, DueCount;
      currentMessage := firstMessage;
      batch := map[];
      ghost var i := 0;
      while currentMessage != null && Millis(now - currentMessage.when, ticksPerMs) >= 0
        invariant Valid() && 0 <= i <= |q| && contents == q[i..]
        invariant nodes == ns[i..] && |q| == |ns|
        invariant currentMessage == firstMessage
        invariant forall j :: 0 <= j < i ==> IsDue(q[j], now, ticksPerMs)
        invariant Callbacks(batch, Collect(q[..i]))
        decreases |q| - i
      {
        SpellsHead(nodes, contents);
        assert q[i] == contents[0];
        DueOne(q[i], now, ticksPerMs);
        CollectStep(q, i);
        CallbacksStep(batch, Collect(q[..i]), q[i]);
        if currentMessage.callback.Some? {
          batch := batch[currentMessage.messageId := currentMessage.callback.value];
        }
        currentMessage := currentMessage.next;
        DropFirst();
        i := i + 1;
      }
      SpellsHead(nodes, contents);
      if i < |q| {
        assert q[i] == contents[0];
        DueOne(q[i], now, ticksPerMs);
      }
      DueCountIff(q, now, ticksPerMs, i);
    }

    /** `_firstMessage = currentMessage->_next`. */
    method DropFirst()
      requires Valid() && nodes != []
      modifies `firstMessage, `nodes, `contents
      ensures Valid() && nodes == old(nodes)[1..] && contents == old(contents)[1..]
      ensures firstMessage == old(firstMessage.next)
    {
      firstMessage := firstMessage.next;
      nodes := nodes[1..];
      contents := contents[1..];
    }
  }

  lemma InsertIs(q: seq<Msg>, m: Msg)
    ensures var i := Before(q, m.when); i <= |q| && Insert(q, m) == q[..i] + [m] + q[i..]
  {
  }

  lemma SpellsIn(ns: seq<Message>, q: seq<Msg>, m: Message, i: nat)
    requires Spells(ns, q) && i <= |ns|
    ensures |ns| == |q| && Spells(ns[..i] + [m] + ns[i..], q[..i] + [m.Value()] + q[i..])
  {
  }

  lemma SpellsHead(ns: seq<Message>, q: seq<Msg>)
    requires Spells(ns, q)
    ensures |ns| == |q| && (ns != [] ==> q[0] == ns[0].Value())
  {
  }

  lemma DueOne(m: Msg, now: int, ticksPerMs: nat)
    requires ticksPerMs > 0
    ensures IsDue(m, now, ticksPerMs) <==> Millis(now - m.when, ticksPerMs) >= 0
  {
    hide Millis;
  }

  /** The source's map from ids to callbacks, next to the messages it came from. */
  ghost predicate Callbacks(batch: map<nat, nat>, taken: map<nat, Msg>) {
    batch.Keys == taken.Keys &&
    forall id :: id in taken ==> taken[id].callback == Some(batch[id])
  }

  lemma CollectStep(q: seq<Msg>, i: nat)
    requires i < |q|
    ensures Collect(q[..i + 1]) ==
      if q[i].callback.Some? then Collect(q[..i])[q[i].id := q[i]] else Collect(q[..i])
  {
    assert q[..i + 1][..i] == q[..i];
  }

  lemma CallbacksStep(batch: map<nat, nat>, taken: map<nat, Msg>, m: Msg)
    requires Callbacks(batch, taken)
    ensures m.callback.Some? ==> Callbacks(batch[m.id := m.callback.value], taken[m.id := m])
  {
  }

  lemma NothingTaken(q: seq<Msg>)
    ensures q[0..] == q && q[..0] == [] && Callbacks(map[], Collect([]))
  {
  }
}
