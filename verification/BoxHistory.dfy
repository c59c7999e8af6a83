/** What one mailbox has shown its owner, against what its thread dispatched. */
module BoxHistory {
  import opened Wrappers
  import opened ClientEvents
  import Mail = Mailbox
  import opened Router

  /** Terminal events received or still queued. */
  function Seen(b: Box): seq<Event> { Terminals(b.got + Mail.EventsOf(b.m.events)) }

  function Sent(b: Box, log: seq<Lifecycle>): seq<Lifecycle>
    requires b.since <= |log|
  {
    b.replay + log[b.since..]
  }

  /** A prefix of what was sent, then one invalidation notice. */
  predicate CutShort(thread: ThreadId, seen: seq<Event>, sent: seq<Event>) {
    seen != [] && seen[|seen| - 1].Invalidated? && seen[|seen| - 1].thread == thread &&
    seen[..|seen| - 1] <= sent
  }

  /** All of what was sent, then the end of the connection. */
  predicate Complete(seen: seq<Event>, sent: seq<Event>) {
    |seen| == |sent| + 1 && seen[..|sent|] == sent && seen[|sent|].ConnectionClosed?
  }

  /** An open mailbox is listed on its route and has lost nothing; a closed one
      was closed by its owner, was cut short, or saw the connection end. */
  predicate BoxOk(b: Box, log: seq<Lifecycle>, listed: bool, exited: bool) {
    && Mail.Valid(b.m)
    && b.since <= |log|
    && (b.ownerClosed ==> b.m.closed)
    && (if !b.m.closed then listed && Seen(b) == Sent(b, log)
        else || (b.ownerClosed && Seen(b) <= Sent(b, log))
             || (!listed && CutShort(b.thread, Seen(b), Sent(b, log)))
             || (!listed && exited && Complete(Seen(b), Sent(b, log))))
  }

  lemma SeenAppend(b: Box, m: Mail.State, q: Mail.Queued)
    requires m.events == b.m.events + [q]
    ensures Seen(b.(m := m)) == Seen(b) + if IsTerminal(q.event) then [q.event] else []
  {
    var all := b.got + Mail.EventsOf(b.m.events);
    assert b.got + Mail.EventsOf(m.events) == all + [q.event];
    assert (all + [q.event])[..|all|] == all;
  }

  /** Received events alone are a prefix of what was seen. */
  lemma GotPrefix(b: Box)
    ensures Terminals(b.got) <= Seen(b)
  {
    TerminalsAppend(b.got, Mail.EventsOf(b.m.events));
  }

  lemma InvalidatedSeen(b: Box, t: ThreadId, reason: Reason)
    ensures var e := Event.Invalidated(t, reason);
            Seen(b.(m := Mail.Invalidate(b.m, t, reason))) == Terminals(b.got) + [e]
  {
    var e := Event.Invalidated(t, reason);
    var m := Mail.Invalidate(b.m, t, reason);
    assert Mail.EventsOf(m.events) == [e];
    assert (b.got + [e])[..|b.got|] == b.got;
  }

  /** Invalidating a listed mailbox cuts it short. */
  lemma InvalidateOk(b: Box, log: seq<Lifecycle>, t: ThreadId, reason: Reason, exited: bool)
    requires BoxOk(b, log, true, false) && b.thread == t
    ensures BoxOk(b.(m := Mail.Invalidate(b.m, t, reason)), log, false, exited)
  {
    InvalidatedSeen(b, t, reason);
    GotPrefix(b);
    Mail.InvalidateValid(b.m, t, reason);
  }

  lemma GrowOk(b: Box, log: seq<Lifecycle>, e: Lifecycle, listed: bool)
    requires BoxOk(b, log, listed, false) && b.m.closed
    ensures BoxOk(b, log + [e], false, false)
  {
    assert Sent(b, log + [e]) == Sent(b, log) + [e];
  }

  /** Offering a terminal event to a listed mailbox. */
  lemma OfferOk(b: Box, log: seq<Lifecycle>, t: ThreadId, e: Lifecycle)
    requires BoxOk(b, log, true, false) && b.thread == t
    ensures var c := Offer(b, t, e); BoxOk(c, log + [e], !c.m.closed, false) && c.thread == t
  {
    assert Sent(b, log + [e]) == Sent(b, log) + [e];
    if b.m.closed {
      GrowOk(b, log, e, true);
    } else if Mail.PushTerminal(b.m, e).1 {
      Mail.AppendValid(b.m, e);
      SeenAppend(b, Mail.PushTerminal(b.m, e).0, Mail.Queued(Weight(e), true, e));
    } else {
      InvalidateOk(b, log, t, Lagged, false);
      GrowOk(Offer(b, t, e), log, e, false);
    }
  }

  /** The lossy lane never touches what was seen of the terminal lane. */
  lemma LossySeen(b: Box, e: Event)
    requires Mail.Valid(b.m) && !IsTerminal(e)
    ensures Seen(b.(m := Mail.PushLossy(b.m, e).0)) == Seen(b)
  {
    var m := Mail.PushLossy(b.m, e).0;
    if m != b.m && Mail.Continues(b.m, e) {
      var n := |b.m.events| - 1;
      var all := b.got + Mail.EventsOf(b.m.events);
      var now := b.got + Mail.EventsOf(m.events);
      assert now[..|now| - 1] == all[..|all| - 1];
    } else if m != b.m {
      SeenAppend(b, m, Mail.Queued(Weight(e), false, e));
    }
  }

  lemma SpreadOk(b: Box, log: seq<Lifecycle>, e: Event)
    requires BoxOk(b, log, true, false) && !IsTerminal(e)
    ensures var c := b.(m := Mail.PushLossy(b.m, e).0); BoxOk(c, log, !c.m.closed, false)
  {
    LossySeen(b, e);
    Mail.LossyValid(b.m, e);
  }

  lemma ReceiveOk(b: Box, log: seq<Lifecycle>, listed: bool, exited: bool)
    requires BoxOk(b, log, listed, exited) && b.m.events != []
    ensures BoxOk(b.(m := Mail.Pop(b.m), got := b.got + [b.m.events[0].event]), log, listed, exited)
  {
    var c := b.(m := Mail.Pop(b.m), got := b.got + [b.m.events[0].event]);
    Mail.PopValid(b.m);
    assert c.got + Mail.EventsOf(c.m.events) == b.got + Mail.EventsOf(b.m.events);
  }

  lemma DropOk(b: Box, log: seq<Lifecycle>, listed: bool, exited: bool)
    requires BoxOk(b, log, listed, exited)
    ensures BoxOk(b.(m := Mail.Close(b.m), ownerClosed := true), log, listed, exited)
  {
    assert Seen(b.(m := Mail.Close(b.m), ownerClosed := true)) == Seen(b);
  }

  lemma FarewellOk(b: Box, log: seq<Lifecycle>, exit: nat)
    requires BoxOk(b, log, true, false)
    ensures BoxOk(Farewell(b, exit), log, false, true)
  {
    var e := Event.ConnectionClosed(exit);
    if Mail.PushTerminal(b.m, e).1 {
      Mail.AppendValid(b.m, e);
      SeenAppend(b, Mail.Close(Mail.PushTerminal(b.m, e).0), Mail.Queued(Weight(e), true, e));
    } else {
      InvalidateOk(b, log, b.thread, Lagged, true);
    }
  }

  /** A new subscriber starts with exactly the replayed event, if any. */
  lemma NewBoxOk(w: World, t: ThreadId)
    requires t in w.routes && ValidId(t)
    ensures var b := NewBox(w, t); BoxOk(b, Log(w, t), true, false) && !b.m.closed && b.thread == t
  {
    var b := NewBox(w, t);
    assert Mail.EventsOf([]) == [];
    assert Log(w, t)[b.since..] == [];
    if w.routes[t].p.threadStarted {
      var e := Event.ThreadStarted(t);
      var c := b.(m := Mail.EMPTY);
      assert c.got + Mail.EventsOf(c.m.events) == [];
      Mail.AppendValid(Mail.EMPTY, e);
      SeenAppend(c, b.m, Mail.Queued(Weight(e), true, e));
    }
  }
}
