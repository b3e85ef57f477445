/** The Alarm class of common/alarm.cpp: its fields, changed in place by Start, Cancel and the
    wrapper, each under the alarm's mutex. The new field values are those of module Alarms. */
module AlarmObjects {
  import opened Options
  import opened TimerList
  import opened MessageQueueClass
  import Alarms

  class AlarmObject {
    const tag: nat          // identifies the callback that the alarm posts
    var hasCallback: bool
    var messageId: nat
    var status: Alarms.Status
    ghost var serial: nat

    ghost function Value(): Alarms.Alarm
      reads this
    {
      Alarms.Alarm(messageId, status, serial)
    }

    constructor (tag: nat)
      ensures this.tag == tag && !hasCallback && Value() == Alarms.Alarm(0, Alarms.Idle, 0)
    {
      this.tag, hasCallback, messageId, status, serial := tag, false, 0, Alarms.Idle, 0;
    }

    method SetCallback()
      modifies `hasCallback
      ensures hasCallback
    {
      hasCallback := true;
    }

    /** Start: refused without a callback or while already started. */
    method Start(queue: MessageQueue, now: int, after: int) returns (ok: bool)
      requires queue.Valid()
      modifies this, queue, queue.nodes
      ensures queue.Valid() && hasCallback == old(hasCallback)
      ensures ok <==> old(hasCallback) && old(status) != Alarms.Started
      ensures ok ==>
        var x := old(queue.posted);
        && Value() == Alarms.AfterStart(old(Value()), IdOf(x), x)
        && queue.contents == Insert(old(queue.contents), Msg(IdOf(x), now + after, Some(tag), x))
      ensures !ok ==> Value() == old(Value()) && queue.contents == old(queue.contents)
    {
      hide Linked, Spells, IdOf, Insert;
      if !hasCallback {
        return false;
      }
      if status == Alarms.Started {
        return false;
      }
      ghost var x := queue.posted;
      ghost var added;
      messageId, added := queue.PostMessage(now, after, Some(tag));
      status := Alarms.Started;
      serial := x;
      return true;
    }

    /** Cancel: an alarm without a message id has nothing to cancel. */
    method Cancel(queue: MessageQueue) returns (ok: bool)
      requires queue.Valid()
      modifies this, queue, queue.nodes
      ensures queue.Valid() && hasCallback == old(hasCallback)
      ensures ok <==> old(messageId) != 0
      ensures ok ==>
        && Value() == Alarms.AfterCancel(old(Value()))
        && queue.contents == Unlink(old(queue.contents), old(messageId))
        && queue.canceled == old(queue.canceled) + {old(messageId)}
      ensures !ok ==> Value() == old(Value()) && queue.contents == old(queue.contents)
    {
      hide Linked, Spells, IdOf, Unlink, Find;
      if messageId == 0 {
        return false;
      }
      var _ := queue.CancelMessage(messageId);
      messageId := 0;
      status := Alarms.Canceled;
      return true;
    }

    /** The wrapper that the queue runs; `ring` says whether it goes on to the user's callback. */
    method Enter() returns (ring: bool)
      modifies this
      ensures Value() == Alarms.AfterEnter(old(Value())) && hasCallback == old(hasCallback)
      ensures ring <==> old(messageId) != 0
    {
      if messageId == 0 {
        return false;
      }
      status := Alarms.Rung;
      return true;
    }

    method IsWaiting() returns (r: bool)
      ensures r <==> status == Alarms.Started
    {
      return status == Alarms.Started;
    }

    method IsAlarm() returns (r: bool)
      ensures r <==> status == Alarms.Rung
    {
      return status == Alarms.Rung;
    }
  }
}
