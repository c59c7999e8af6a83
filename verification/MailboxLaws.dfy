/**
 What a mailbox takes and what it gives: each push is taken exactly when the
 events still waiting leave room for it, and one stream never waits in pieces.
 */
module MailboxLaws {
  import opened Wrappers
  import opened ClientEvents
  import opened Mailbox

  /** What the subscriber has yet to receive. */
  function Waiting(h: History): seq<Event> { EventsOf(h.m.events) }

  function TotalWeight(es: seq<Event>): nat {
    if es == [] then 0 else TotalWeight(es[..|es| - 1]) + Weight(es[|es| - 1])
  }

  function CountOf(es: seq<Event>, terminal: bool): nat {
    if es == [] then 0
    else CountOf(es[..|es| - 1], terminal) + if IsTerminal(es[|es| - 1]) == terminal then 1 else 0
  }

  /** The counters are those of the waiting events. */
  lemma {:induction false} CountersMean(qs: seq<Queued>)
    requires forall i :: 0 <= i < |qs| ==>
               qs[i].byteLen == Weight(qs[i].event) && qs[i].terminal == IsTerminal(qs[i].event)
    ensures Bytes(qs) == TotalWeight(EventsOf(qs))
    ensures CountLane(qs, true) == CountOf(EventsOf(qs), true)
    ensures CountLane(qs, false) == CountOf(EventsOf(qs), false)
  {
    if qs != [] {
      var n := |qs| - 1;
      CountersMean(qs[..n]);
      assert EventsOf(qs)[..n] == EventsOf(qs[..n]);
    }
  }

  // ------------------------------------------------------- one push

  /** There is room for one more terminal event. */
  predicate TerminalRoom(es: seq<Event>, e: Event) {
    CountOf(es, true) < THREAD_TERMINAL_CAPACITY && TotalWeight(es) + Weight(e) <= THREAD_MAILBOX_BYTE_BUDGET
  }

  /** There is room for one more lossy event, and it is not too large. */
  predicate LossyRoom(es: seq<Event>, e: Event) {
    && (e.Delta? ==> Weight(e) <= THREAD_DELTA_BYTE_LIMIT)
    && CountOf(es, false) < THREAD_EVENT_CAPACITY && TotalWeight(es) + Weight(e) <= THREAD_MAILBOX_BYTE_BUDGET
  }

  /** The delta continues the last waiting event. */
  predicate Follows(es: seq<Event>, e: Event) {
    e.Delta? && es != [] && es[|es| - 1].Delta? && StreamOf(es[|es| - 1]) == StreamOf(e)
  }

  /** The last waiting event with the delta's text appended. */
  function Joined(es: seq<Event>, e: Event): Event
    requires Follows(es, e)
  {
    es[|es| - 1].(text := es[|es| - 1].text + e.text)
  }

  /** The joined delta is neither too large nor too heavy. */
  predicate JoinRoom(es: seq<Event>, e: Event)
    requires Follows(es, e)
  {
    && Weight(e) <= THREAD_DELTA_BYTE_LIMIT && Weight(Joined(es, e)) <= THREAD_DELTA_BYTE_LIMIT
    && TotalWeight(es) + |e.text| <= THREAD_MAILBOX_BYTE_BUDGET
  }

  lemma TakesTerminal(m: State, e: Event)
    requires Valid(m) && IsTerminal(e)
    ensures var (n, ok) := PushTerminal(m, e);
            && (ok <==> !m.closed && TerminalRoom(EventsOf(m.events), e))
            && EventsOf(n.events) == EventsOf(m.events) + if ok then [e] else []
  {
    CountersMean(m.events);
    assert EventsOf(m.events) + [] == EventsOf(m.events);
    assert EventsOf(m.events + [Queued(Weight(e), true, e)]) == EventsOf(m.events) + [e];
  }

  lemma FollowsMeans(m: State, e: Event)
    requires Valid(m) && !IsTerminal(e)
    ensures Follows(EventsOf(m.events), e) <==> Continues(m, e)
  {
    if m.events != [] {
      assert EventsOf(m.events)[|m.events| - 1] == Back(m).event;
    }
  }

  lemma TakesLossy(m: State, e: Event)
    requires Valid(m) && !IsTerminal(e) && !Follows(EventsOf(m.events), e)
    ensures var (n, ok) := PushLossy(m, e);
            && (ok <==> !m.closed && LossyRoom(EventsOf(m.events), e))
            && EventsOf(n.events) == EventsOf(m.events) + if ok then [e] else []
  {
    FollowsMeans(m, e);
    CountersMean(m.events);
    assert EventsOf(m.events) + [] == EventsOf(m.events);
    assert EventsOf(m.events + [Queued(Weight(e), false, e)]) == EventsOf(m.events) + [e];
  }

  lemma JoinsDelta(m: State, e: Event)
    requires Valid(m) && !IsTerminal(e) && Follows(EventsOf(m.events), e)
    ensures var (n, ok) := PushLossy(m, e);
            var es := EventsOf(m.events);
            && (ok <==> !m.closed && JoinRoom(es, e))
            && EventsOf(n.events) == if ok then es[..|es| - 1] + [Joined(es, e)] else es
  {
    FollowsMeans(m, e);
    CountersMean(m.events);
    var n := |m.events| - 1;
    assert EventsOf(m.events)[n] == Back(m).event;
    MergedWeight(Back(m).event, e);
    assert Bytes(m.events) == Bytes(m.events[..n]) + Back(m).byteLen;
    var q := Queued(Weight(Merge(Back(m).event, e)), false, Merge(Back(m).event, e));
    assert EventsOf(m.events[..n] + [q]) == EventsOf(m.events)[..n] + [q.event];
  }

  // ------------------------------------------------------- whole runs

  predicate Shuts(op: Op) { op.CloseIt? || op.CutShort? }

  predicate Open(ops: seq<Op>) { forall i :: 0 <= i < |ops| ==> !Shuts(ops[i]) }

  predicate LanesOk(ops: seq<Op>) { forall i :: 0 <= i < |ops| ==> LaneOk(ops[i]) }

  lemma StepShuts(h: History, op: Op)
    ensures Step(h, op).m.closed <==> h.m.closed || Shuts(op)
  {
  }

  /** The mailbox is open until it is closed or invalidated. */
  lemma {:induction false} OpenUntilShut(ops: seq<Op>)
    ensures Run(ops).m.closed <==> !Open(ops)
  {
    if ops != [] {
      var n := |ops| - 1;
      OpenUntilShut(ops[..n]);
      StepShuts(Run(ops[..n]), ops[n]);
      assert ops == ops[..n] + [ops[n]];
    }
  }

  /** A terminal event is taken exactly when the mailbox is open, fewer than 64
      terminal events wait and its weight fits; it is then the last to wait. */
  lemma TerminalIsTaken(ops: seq<Op>, e: Event)
    requires LanesOk(ops) && IsTerminal(e)
    ensures var h, g := Run(ops), Step(Run(ops), Terminal(e));
            var takes := Open(ops) && TerminalRoom(Waiting(h), e);
            g.accepted == h.accepted + (if takes then [e] else []) &&
            Waiting(g) == Waiting(h) + if takes then [e] else []
  {
    CoalescingRefinesQueue(ops);
    OpenUntilShut(ops);
    TakesTerminal(Run(ops).m, e);
  }

  /** A lossy event that continues nothing is taken exactly when the mailbox is
      open, it is not too large, fewer than 256 lossy events wait and its weight
      fits. */
  lemma LossyIsTaken(ops: seq<Op>, e: Event)
    requires LanesOk(ops) && !IsTerminal(e) && !Follows(Waiting(Run(ops)), e)
    ensures var h, g := Run(ops), Step(Run(ops), Lossy(e));
            var takes := Open(ops) && LossyRoom(Waiting(h), e);
            g.accepted == h.accepted + (if takes then [e] else []) &&
            Waiting(g) == Waiting(h) + if takes then [e] else []
  {
    CoalescingRefinesQueue(ops);
    OpenUntilShut(ops);
    TakesLossy(Run(ops).m, e);
    FollowsMeans(Run(ops).m, e);
  }

  /** A delta that continues the last waiting one is merged into it exactly when
      the mailbox is open and the result is neither too large nor too heavy; it
      takes no place of its own. */
  lemma DeltaIsJoined(ops: seq<Op>, e: Event)
    requires LanesOk(ops) && !IsTerminal(e) && Follows(Waiting(Run(ops)), e)
    ensures var h, g := Run(ops), Step(Run(ops), Lossy(e));
            var takes := Open(ops) && JoinRoom(Waiting(h), e);
            g.accepted == h.accepted + (if takes then [e] else []) &&
            Waiting(g) == if takes then Waiting(h)[..|Waiting(h)| - 1] + [Joined(Waiting(h), e)] else Waiting(h)
  {
    CoalescingRefinesQueue(ops);
    OpenUntilShut(ops);
    JoinsDelta(Run(ops).m, e);
    FollowsMeans(Run(ops).m, e);
  }

  /** Receiving gives the oldest waiting event. */
  lemma OldestIsReceived(h: History)
    ensures var g := Step(h, Receive);
            if Waiting(h) == [] then g == h
            else g.received == h.received + [Waiting(h)[0]] && Waiting(g) == Waiting(h)[1..]
  {
  }

  // -------------------------------------------------- streams in one piece

  /** Two neighbouring events are deltas of one stream. */
  predicate Torn(es: seq<Event>, i: int) {
    0 <= i && i + 1 < |es| && es[i].Delta? && es[i + 1].Delta? && StreamOf(es[i]) == StreamOf(es[i + 1])
  }

  predicate Whole(es: seq<Event>) { forall i :: 0 <= i < |es| ==> !Torn(es, i) }

  lemma SnocWhole(es: seq<Event>, e: Event)
    requires Whole(es) && !Follows(es, e)
    ensures Whole(es + [e])
  {
    forall i | 0 <= i < |es + [e]| ensures !Torn(es + [e], i) {
      if i + 1 < |es| { assert !Torn(es, i); }
    }
  }

  lemma JoinWhole(es: seq<Event>, e: Event)
    requires Whole(es) && Follows(es, e)
    ensures Whole(es[..|es| - 1] + [Joined(es, e)])
  {
    var all := es[..|es| - 1] + [Joined(es, e)];
    forall i | 0 <= i < |all| ensures !Torn(all, i) { assert !Torn(es, i); }
  }

  lemma TailWhole(es: seq<Event>)
    requires es != [] && Whole(es)
    ensures Whole(es[1..])
  {
    var tail := es[1..];
    forall i | 0 <= i < |tail| ensures !Torn(tail, i) { assert !Torn(es, i + 1); }
  }

  lemma LossyWhole(ops: seq<Op>, e: Event)
    requires LanesOk(ops) && !IsTerminal(e) && Whole(Waiting(Run(ops)))
    ensures Whole(Waiting(Step(Run(ops), Lossy(e))))
  {
    var es := Waiting(Run(ops));
    if Follows(es, e) {
      DeltaIsJoined(ops, e);
      JoinWhole(es, e);
    } else {
      LossyIsTaken(ops, e);
      SnocWhole(es, e);
      assert es + [] == es;
    }
  }

  /** One stream never waits in two neighbouring pieces. */
  lemma {:induction false} DeltasAreCoalesced(ops: seq<Op>)
    requires LanesOk(ops)
    ensures Whole(Waiting(Run(ops)))
  {
    if ops != [] {
      var front, op := ops[..|ops| - 1], ops[|ops| - 1];
      var es := Waiting(Run(front));
      DeltasAreCoalesced(front);
      match op
      case Terminal(e) =>
        TerminalIsTaken(front, e);
        SnocWhole(es, e);
        assert es + [] == es;
      case Lossy(e) => LossyWhole(front, e);
      case Receive =>
        OldestIsReceived(Run(front));
        if es != [] { TailWhole(es); }
      case CloseIt => assert Waiting(Run(ops)) == es;
      case CutShort(_, _) => assert |Waiting(Run(ops))| == 1;
    }
  }
}
