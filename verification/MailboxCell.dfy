/** The mailbox as the source keeps it: counters and a queue changed in place. */
module MailboxCell {
  import opened Wrappers
  import opened ClientEvents
  import Spec = Mailbox

  class Mailbox {
    var events: seq<Spec.Queued>
    var terminalCount: nat
    var regularCount: nat
    var queuedBytes: nat
    var closed: bool

    function Abstract(): Spec.State
      reads this
    {
      Spec.State(events, terminalCount, regularCount, queuedBytes, closed)
    }

    constructor ()
      ensures Abstract() == Spec.EMPTY && Spec.Valid(Abstract())
    {
      events, terminalCount, regularCount, queuedBytes, closed := [], 0, 0, 0, false;
    }

    /** One turn of the receive loop: an event, or the reason there is none. */
    method Recv() returns (event: Option<Event>, ended: bool)
      requires Spec.Valid(Abstract())
      modifies this
      ensures Spec.Valid(Abstract()) && closed == old(closed)
      ensures old(events) != [] ==>
                event == Some(old(events)[0].event) && Abstract() == Spec.Pop(old(Abstract())) && !ended
      ensures old(events) == [] ==> event == None && Abstract() == old(Abstract()) && ended == closed
    {
      event, ended := None, false;
      if events != [] {
        Spec.PopValid(Abstract());
        var queued := events[0];
        events := events[1..];
        queuedBytes := Minus(queuedBytes, queued.byteLen);
        if queued.terminal {
          terminalCount := Minus(terminalCount, 1);
        } else {
          regularCount := Minus(regularCount, 1);
        }
        event := Some(queued.event);
      } else if closed {
        ended := true;
      }
    }

    method PushTerminal(event: Event) returns (accepted: bool)
      requires Spec.Valid(Abstract()) && IsTerminal(event)
      modifies this
      ensures (Abstract(), accepted) == Spec.PushTerminal(old(Abstract()), event)
      ensures Spec.Valid(Abstract())
      ensures accepted ==> events == old(events) + [Spec.Queued(Weight(event), true, event)]
      ensures !accepted ==> Abstract() == old(Abstract())
    {
      Spec.AppendValid(Abstract(), event);
      accepted := false;
      if closed || terminalCount >= THREAD_TERMINAL_CAPACITY {
        return;
      }
      var byteLen := Weight(event);
      if queuedBytes + byteLen > THREAD_MAILBOX_BYTE_BUDGET {
        return;
      }
      queuedBytes := queuedBytes + byteLen;
      terminalCount := terminalCount + 1;
      events := events + [Spec.Queued(byteLen, true, event)];
      accepted := true;
    }

    method PushLossy(event: Event)
      requires Spec.Valid(Abstract()) && !IsTerminal(event)
      modifies this
      ensures Abstract() == Spec.PushLossy(old(Abstract()), event).0
      ensures Spec.Valid(Abstract()) && closed == old(closed) && terminalCount == old(terminalCount)
    {
      Spec.LossyValid(Abstract(), event);
      if closed {
        return;
      }
      var byteLen := Weight(event);
      var isDelta := StreamOf(event).Some?;
      if isDelta && byteLen > THREAD_DELTA_BYTE_LIMIT {
        return;
      }
      if isDelta && events != [] {
        var back := events[|events| - 1];
        if !back.terminal && StreamOf(back.event) == StreamOf(event) {
          var mergedWeight := back.byteLen + |event.text|;
          if mergedWeight <= THREAD_DELTA_BYTE_LIMIT &&
             Minus(queuedBytes, back.byteLen) + mergedWeight <= THREAD_MAILBOX_BYTE_BUDGET &&
             |back.event.text| + |event.text| <= THREAD_DELTA_BYTE_LIMIT {
            var merged := back.event.(text := back.event.text + event.text);
            events := events[|events| - 1 := Spec.Queued(Weight(merged), false, merged)];
            queuedBytes := Minus(queuedBytes, back.byteLen) + Weight(merged);
            assert events == old(events)[..|old(events)| - 1] + [Spec.Queued(Weight(merged), false, merged)];
          }
          return;
        }
      }
      if regularCount >= THREAD_EVENT_CAPACITY || queuedBytes + byteLen > THREAD_MAILBOX_BYTE_BUDGET {
        return;
      }
      queuedBytes := queuedBytes + byteLen;
      regularCount := regularCount + 1;
      events := events + [Spec.Queued(byteLen, false, event)];
    }

    method Close()
      modifies this
      ensures Abstract() == Spec.Close(old(Abstract()))
    {
      closed := true;
    }

    method Invalidate(thread: ThreadId, reason: Reason)
      modifies this
      ensures Abstract() == Spec.Invalidate(old(Abstract()), thread, reason)
      ensures Spec.Valid(Abstract())
    {
      var event := Event.Invalidated(thread, reason);
      events := [Spec.Queued(Weight(event), true, event)];
      terminalCount, regularCount, queuedBytes, closed := 1, 0, Weight(event), true;
      Spec.InvalidateValid(old(Abstract()), thread, reason);
    }
  }
}
