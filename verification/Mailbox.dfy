/**
 One subscriber's mailbox: a lossy lane that coalesces consecutive deltas of
 one stream, and a terminal lane that refuses rather than drops
 (src/codex/client.rs, `impl Mailbox`).
 */
module Mailbox {
  import opened Wrappers
  import opened ClientEvents

  datatype Queued = Queued(byteLen: nat, terminal: bool, event: Event)

  datatype State = State(events: seq<Queued>, terminals: nat, regulars: nat, bytes: nat, closed: bool)

  const EMPTY: State := State([], 0, 0, 0, false)

  /** Merge b's text onto a; both are deltas of one stream. */
  function Merge(a: Event, b: Event): Event
    requires a.Delta? && b.Delta?
  {
    a.(text := a.text + b.text)
  }

  function Back(m: State): Queued
    requires m.events != []
  {
    m.events[|m.events| - 1]
  }

  /** push_terminal */
  function PushTerminal(m: State, e: Event): (State, bool) {
    if m.closed || m.terminals >= THREAD_TERMINAL_CAPACITY ||
       m.bytes + Weight(e) > THREAD_MAILBOX_BYTE_BUDGET
    then (m, false)
    else (State(m.events + [Queued(Weight(e), true, e)], m.terminals + 1, m.regulars,
                m.bytes + Weight(e), m.closed), true)
  }

  /** A delta that continues the last queued entry. */
  predicate Continues(m: State, e: Event) {
    e.Delta? && m.events != [] && !Back(m).terminal && StreamOf(Back(m).event) == StreamOf(e)
  }

  function Replace(m: State, q: Queued): State
    requires m.events != []
  {
    m.(events := m.events[..|m.events| - 1] + [q],
       bytes := Minus(m.bytes, Back(m).byteLen) + q.byteLen)
  }

  /** push_lossy; the flag says whether the event was kept. */
  function PushLossy(m: State, e: Event): (State, bool) {
    if m.closed || (e.Delta? && Weight(e) > THREAD_DELTA_BYTE_LIMIT) then (m, false)
    else if Continues(m, e) then
      var last := Back(m);
      var merged := last.byteLen + |e.text|;
      if merged <= THREAD_DELTA_BYTE_LIMIT && Minus(m.bytes, last.byteLen) + merged <= THREAD_MAILBOX_BYTE_BUDGET &&
         |last.event.text| + |e.text| <= THREAD_DELTA_BYTE_LIMIT
      then (Replace(m, Queued(Weight(Merge(last.event, e)), false, Merge(last.event, e))), true)
      else (m, false)
    else if m.regulars >= THREAD_EVENT_CAPACITY || m.bytes + Weight(e) > THREAD_MAILBOX_BYTE_BUDGET
    then (m, false)
    else (State(m.events + [Queued(Weight(e), false, e)], m.terminals, m.regulars + 1,
                m.bytes + Weight(e), m.closed), true)
  }

  /** recv, when an event is waiting. */
  function Pop(m: State): State
    requires m.events != []
  {
    var q := m.events[0];
    State(m.events[1..], if q.terminal then Minus(m.terminals, 1) else m.terminals,
          if q.terminal then m.regulars else Minus(m.regulars, 1), Minus(m.bytes, q.byteLen), m.closed)
  }

  function Close(m: State): State { m.(closed := true) }

  /** invalidate: everything queued is replaced by one final notice. */
  function Invalidate(m: State, thread: ThreadId, reason: Reason): State {
    var e := Event.Invalidated(thread, reason);
    State([Queued(Weight(e), true, e)], 1, 0, Weight(e), true)
  }

  // ---------------------------------------------------------- accounting

  function Bytes(qs: seq<Queued>): nat {
    if qs == [] then 0 else Bytes(qs[..|qs| - 1]) + qs[|qs| - 1].byteLen
  }

  function CountLane(qs: seq<Queued>, terminal: bool): nat {
    if qs == [] then 0
    else CountLane(qs[..|qs| - 1], terminal) + if qs[|qs| - 1].terminal == terminal then 1 else 0
  }

  /** The counters are exact and within their bounds. */
  predicate Valid(m: State) {
    && m.bytes == Bytes(m.events) <= THREAD_MAILBOX_BYTE_BUDGET
    && m.terminals == CountLane(m.events, true) <= THREAD_TERMINAL_CAPACITY
    && m.regulars == CountLane(m.events, false) <= THREAD_EVENT_CAPACITY
    && (forall i :: 0 <= i < |m.events| ==>
          && m.events[i].byteLen == Weight(m.events[i].event)
          && m.events[i].terminal == IsTerminal(m.events[i].event))
  }

  lemma {:induction false} FrontBytes(qs: seq<Queued>)
    requires qs != []
    ensures Bytes(qs) == qs[0].byteLen + Bytes(qs[1..])
    ensures forall t :: CountLane(qs, t) == (if qs[0].terminal == t then 1 else 0) + CountLane(qs[1..], t)
  {
    var n := |qs| - 1;
    if n == 0 {
      assert qs[..0] == [] && qs[1..] == [];
    } else {
      FrontBytes(qs[..n]);
      assert qs[..n][1..] == qs[1..][..n - 1];
    }
  }

  lemma AppendValid(m: State, e: Event)
    requires Valid(m)
    ensures PushTerminal(m, e).1 && IsTerminal(e) ==> Valid(PushTerminal(m, e).0)
    ensures !PushTerminal(m, e).1 ==> PushTerminal(m, e).0 == m
  {
    var qs := m.events + [Queued(Weight(e), true, e)];
    assert qs[..|qs| - 1] == m.events;
  }

  lemma PopValid(m: State)
    requires Valid(m) && m.events != []
    ensures Valid(Pop(m))
  {
    FrontBytes(m.events);
  }

  /** An entry to queue, with its weight and lane. */
  function Lossily(e: Event): Queued { Queued(Weight(e), false, e) }

  function Queue(m: State, q: Queued): State {
    State(m.events + [q], m.terminals, m.regulars + 1, m.bytes + q.byteLen, m.closed)
  }

  lemma QueueValid(m: State, q: Queued)
    requires Valid(m) && !q.terminal && q.byteLen == Weight(q.event) && !IsTerminal(q.event)
    requires m.regulars < THREAD_EVENT_CAPACITY && m.bytes + q.byteLen <= THREAD_MAILBOX_BYTE_BUDGET
    ensures Valid(Queue(m, q))
  {
    var qs := m.events + [q];
    assert qs[..|qs| - 1] == m.events;
  }

  /** The mailbox without its last, lossy, entry. */
  function Shorter(m: State): State
    requires m.events != []
  {
    State(m.events[..|m.events| - 1], m.terminals, Minus(m.regulars, 1), Minus(m.bytes, Back(m).byteLen), m.closed)
  }

  lemma ShorterValid(m: State)
    requires Valid(m) && m.events != [] && !Back(m).terminal
    ensures Valid(Shorter(m)) && Shorter(m).regulars + 1 == m.regulars
  {
    var front := m.events[..|m.events| - 1];
    assert CountLane(m.events, false) == CountLane(front, false) + 1;
    assert CountLane(m.events, true) == CountLane(front, true);
  }

  lemma AppendLossyValid(m: State, e: Event)
    requires Valid(m) && !IsTerminal(e) && !Continues(m, e)
    ensures Valid(PushLossy(m, e).0)
  {
    if m.regulars < THREAD_EVENT_CAPACITY && m.bytes + Weight(e) <= THREAD_MAILBOX_BYTE_BUDGET {
      QueueValid(m, Lossily(e));
    }
  }

  lemma MergedWeight(a: Event, b: Event)
    requires a.Delta? && b.Delta?
    ensures Weight(Merge(a, b)) == Weight(a) + |b.text| && !IsTerminal(Merge(a, b))
  {
  }

  lemma MergeLossyValid(m: State, e: Event)
    requires Valid(m) && !IsTerminal(e) && Continues(m, e)
    ensures Valid(PushLossy(m, e).0)
  {
    var last := Back(m);
    MergedWeight(last.event, e);
    var q := Lossily(Merge(last.event, e));
    ShorterValid(m);
    if Shorter(m).bytes + q.byteLen <= THREAD_MAILBOX_BYTE_BUDGET {
      QueueValid(Shorter(m), q);
      assert Replace(m, q) == Queue(Shorter(m), q);
    }
  }

  lemma LossyValid(m: State, e: Event)
    requires Valid(m) && !IsTerminal(e)
    ensures Valid(PushLossy(m, e).0)
  {
    if Continues(m, e) { MergeLossyValid(m, e); } else { AppendLossyValid(m, e); }
  }

  lemma InvalidateValid(m: State, thread: ThreadId, reason: Reason)
    ensures Valid(Invalidate(m, thread, reason))
  {
    var qs := Invalidate(m, thread, reason).events;
    assert qs[..|qs| - 1] == [];
  }

  // ---------------------------------------------- coalescing as a queue

  datatype Op = Terminal(e: Event) | Lossy(e: Event) | Receive | CloseIt | CutShort(thread: ThreadId, reason: Reason)

  /** A run's observable past. `groups` splits merged entries apart again:
      group k lists the pushes that make up the k-th event the subscriber sees.
      `cut` is how many it had received when the mailbox was invalidated. */
  datatype History = History(m: State, received: seq<Event>, accepted: seq<Event>, groups: seq<seq<Event>>,
                             cut: Option<nat>)

  const START: History := History(EMPTY, [], [], [], None)

  predicate LaneOk(op: Op) {
    (op.Terminal? ==> IsTerminal(op.e)) && (op.Lossy? ==> !IsTerminal(op.e))
  }

  function Step(h: History, op: Op): History {
    match op
    case Terminal(e) =>
      var (m, ok) := PushTerminal(h.m, e);
      if ok then Appended(h, m, e) else h
    case Lossy(e) =>
      var (m, ok) := PushLossy(h.m, e);
      if !ok then h
      else if Continues(h.m, e) && h.groups != [] then
        var k := |h.groups| - 1;
        h.(m := m, accepted := h.accepted + [e], groups := h.groups[..k] + [h.groups[k] + [e]])
      else Appended(h, m, e)
    case Receive =>
      if h.m.events == [] then h
      else h.(m := Pop(h.m), received := h.received + [h.m.events[0].event])
    case CloseIt => h.(m := Close(h.m))
    case CutShort(thread, reason) =>
      var n := if |h.received| <= |h.groups| then |h.received| else |h.groups|;
      h.(m := Invalidate(h.m, thread, reason), groups := h.groups[..n] + [[Event.Invalidated(thread, reason)]],
         cut := if h.cut.Some? then h.cut else Some(n))
  }

  function Appended(h: History, m: State, e: Event): History {
    h.(m := m, accepted := h.accepted + [e], groups := h.groups + [[e]])
  }

  function Run(ops: seq<Op>): History {
    if ops == [] then START else Step(Run(ops[..|ops| - 1]), ops[|ops| - 1])
  }

  function EventsOf(qs: seq<Queued>): seq<Event> {
    seq(|qs|, i requires 0 <= i < |qs| => qs[i].event)
  }

  /** Everything ever queued, as the subscriber sees it. */
  function Seen(h: History): seq<Event> { h.received + EventsOf(h.m.events) }

  function Flatten(gs: seq<seq<Event>>): seq<Event> {
    if gs == [] then [] else Flatten(gs[..|gs| - 1]) + gs[|gs| - 1]
  }

  /** g is one event, or consecutive deltas of one stream; e is their merge. */
  ghost predicate MergesTo(g: seq<Event>, e: Event) {
    if |g| == 0 then false
    else if |g| == 1 then g[0] == e
    else
      var last := g[|g| - 1];
      e.Delta? && last.Delta? && StreamOf(last) == StreamOf(e) &&
      exists t :: MergesTo(g[..|g| - 1], e.(text := t)) && e.text == t + last.text
  }

  /** What is seen of the pushes: all of them, or those received before the
      cut, followed by notices and nothing else. */
  ghost predicate Accounted(h: History) {
    match h.cut
    case None => Flatten(h.groups) == h.accepted
    case Some(n) =>
      && h.m.closed && n <= |h.received| && n <= |h.groups| && Flatten(h.groups[..n]) <= h.accepted
      && forall k :: n <= k < |h.groups| ==> |h.groups[k]| == 1 && h.groups[k][0].Invalidated?
  }

  ghost predicate Coalesced(h: History) {
    && Valid(h.m)
    && |h.groups| == |Seen(h)|
    && Accounted(h)
    && forall k :: 0 <= k < |h.groups| ==> MergesTo(h.groups[k], Seen(h)[k])
  }

  lemma {:induction false} FlattenPrefix(gs: seq<seq<Event>>, n: nat)
    requires n <= |gs|
    ensures Flatten(gs[..n]) <= Flatten(gs)
  {
    if n == |gs| {
      assert gs[..n] == gs;
    } else {
      var m := |gs| - 1;
      FlattenPrefix(gs[..m], n);
      assert gs[..m][..n] == gs[..n];
    }
  }

  lemma CutCoalesced(h: History, thread: ThreadId, reason: Reason)
    requires Coalesced(h)
    ensures Coalesced(Step(h, CutShort(thread, reason)))
  {
    InvalidateValid(h.m, thread, reason);
    var r, n := Step(h, CutShort(thread, reason)), |h.received|;
    assert EventsOf(r.m.events) == [Event.Invalidated(thread, reason)];
    assert Seen(r) == Seen(h)[..n] + [Event.Invalidated(thread, reason)];
    if h.cut.None? {
      FlattenPrefix(h.groups, n);
      assert r.groups[..n] == h.groups[..n];
    } else {
      assert r.groups[..h.cut.value] == h.groups[..h.cut.value];
    }
  }

  lemma SingleGroup(h: History, e: Event, q: Queued, m: State)
    requires Coalesced(h) && Valid(m) && h.cut.None?
    requires m.events == h.m.events + [q] && q.event == e
    ensures Coalesced(Appended(h, m, e))
  {
    var r := Appended(h, m, e);
    assert EventsOf(m.events) == EventsOf(h.m.events) + [e];
    assert Seen(r) == Seen(h) + [e];
    assert r.groups[..|r.groups| - 1] == h.groups;
  }

  lemma GrowGroup(h: History, e: Event)
    requires Coalesced(h) && !IsTerminal(e)
    requires PushLossy(h.m, e).1 && Continues(h.m, e)
    ensures Coalesced(Step(h, Lossy(e)))
  {
    LossyValid(h.m, e);
    var m := PushLossy(h.m, e).0;
    var k := |h.groups| - 1;
    var last := Back(h.m).event;
    assert Seen(h)[k] == last;
    var g := h.groups[k] + [e];
    assert g[..|g| - 1] == h.groups[k];
    var merged := Merge(last, e);
    assert merged.(text := last.text) == last;
    assert MergesTo(g, merged);
    var r := Step(h, Lossy(e));
    assert r.groups == h.groups[..k] + [g];
    assert EventsOf(m.events) == EventsOf(h.m.events)[..|h.m.events| - 1] + [merged];
    assert Seen(r) == Seen(h)[..k] + [merged];
    assert r.groups[..k] == h.groups[..k];
    assert Flatten(r.groups) == Flatten(h.groups[..k]) + g;
    assert Flatten(h.groups) == Flatten(h.groups[..k]) + h.groups[k];
  }

  lemma LossyCoalesced(h: History, e: Event)
    requires Coalesced(h) && !IsTerminal(e)
    ensures Coalesced(Step(h, Lossy(e)))
  {
    LossyValid(h.m, e);
    var (m, ok) := PushLossy(h.m, e);
    if ok && Continues(h.m, e) {
      GrowGroup(h, e);
    } else if ok {
      SingleGroup(h, e, Queued(Weight(e), false, e), m);
    }
  }

  lemma TerminalCoalesced(h: History, e: Event)
    requires Coalesced(h) && IsTerminal(e)
    ensures Coalesced(Step(h, Terminal(e)))
  {
    AppendValid(h.m, e);
    var (m, ok) := PushTerminal(h.m, e);
    if ok { SingleGroup(h, e, Queued(Weight(e), true, e), m); }
  }

  lemma ReceiveCoalesced(h: History)
    requires Coalesced(h)
    ensures Coalesced(Step(h, Receive))
  {
    if h.m.events != [] {
      PopValid(h.m);
      assert Seen(Step(h, Receive)) == Seen(h);
    }
  }

  lemma StepCoalesced(h: History, op: Op)
    requires Coalesced(h) && LaneOk(op)
    ensures Coalesced(Step(h, op))
  {
    match op
    case Terminal(e) => TerminalCoalesced(h, e);
    case Lossy(e) => LossyCoalesced(h, e);
    case Receive => ReceiveCoalesced(h);
    case CloseIt => assert Seen(Step(h, op)) == Seen(h);
    case CutShort(thread, reason) => CutCoalesced(h, thread, reason);
  }

  /** Coalescing refines a plain queue: over any run, what was received and
      what is still queued, with merged deltas split apart, are the accepted
      pushes in order, or after an invalidation a first part of them and then
      notices; and the counters, byte total and bounds are exact. */
  lemma {:induction false} CoalescingRefinesQueue(ops: seq<Op>)
    requires forall i :: 0 <= i < |ops| ==> LaneOk(ops[i])
    ensures Coalesced(Run(ops))
  {
    if ops != [] {
      CoalescingRefinesQueue(ops[..|ops| - 1]);
      StepCoalesced(Run(ops[..|ops| - 1]), ops[|ops| - 1]);
    }
  }

  /** The text one stream carries in a list of events. */
  function TextOf(s: Stream, es: seq<Event>): string {
    if es == [] then ""
    else
      var e := es[|es| - 1];
      TextOf(s, es[..|es| - 1]) + if StreamOf(e) == Some(s) then e.text else ""
  }

  lemma {:induction false} TextAppend(s: Stream, x: seq<Event>, y: seq<Event>)
    ensures TextOf(s, x + y) == TextOf(s, x) + TextOf(s, y)
  {
    if y == [] {
      assert x + y == x;
    } else {
      var n := |y| - 1;
      assert (x + y)[..|x + y| - 1] == x + y[..n];
      TextAppend(s, x, y[..n]);
    }
  }

  lemma {:induction false} GroupText(s: Stream, g: seq<Event>, e: Event)
    requires MergesTo(g, e)
    ensures TextOf(s, g) == TextOf(s, [e])
  {
    assert [e][..0] == [];
    if |g| == 1 {
      assert g == [e];
    } else {
      var n := |g| - 1;
      var t :| MergesTo(g[..n], e.(text := t)) && e.text == t + g[n].text;
      var f := e.(text := t);
      GroupText(s, g[..n], f);
      assert [f][..0] == [];
    }
  }

  lemma {:induction false} GroupsText(s: Stream, gs: seq<seq<Event>>, es: seq<Event>)
    requires |gs| == |es| && forall k :: 0 <= k < |gs| ==> MergesTo(gs[k], es[k])
    ensures TextOf(s, Flatten(gs)) == TextOf(s, es)
  {
    if gs != [] {
      var n := |gs| - 1;
      GroupsText(s, gs[..n], es[..n]);
      TextAppend(s, Flatten(gs[..n]), gs[n]);
      GroupText(s, gs[n], es[n]);
      TextAppend(s, es[..n], [es[n]]);
      assert es == es[..n] + [es[n]];
    }
  }

  lemma {:induction false} NoticesHaveNoText(s: Stream, es: seq<Event>)
    requires forall i :: 0 <= i < |es| ==> es[i].Invalidated?
    ensures TextOf(s, es) == ""
  {
    if es != [] { NoticesHaveNoText(s, es[..|es| - 1]); }
  }

  lemma TextPrefix(s: Stream, es: seq<Event>, all: seq<Event>)
    requires es <= all
    ensures TextOf(s, es) <= TextOf(s, all)
  {
    assert all == es + all[|es|..];
    TextAppend(s, es, all[|es|..]);
  }

  /** No stream's text is lost, duplicated or reordered by merging; an
      invalidation loses only text from some point on. */
  lemma StreamTextPreserved(ops: seq<Op>, s: Stream)
    requires forall i :: 0 <= i < |ops| ==> LaneOk(ops[i])
    ensures var h := Run(ops);
            if h.cut.None? then TextOf(s, Seen(h)) == TextOf(s, h.accepted)
            else TextOf(s, Seen(h)) <= TextOf(s, h.accepted)
  {
    CoalescingRefinesQueue(ops);
    var h := Run(ops);
    if h.cut.None? {
      GroupsText(s, h.groups, Seen(h));
    } else {
      CutText(h, s);
    }
  }

  lemma OnlyNoticesAfter(h: History)
    requires Coalesced(h) && h.cut.Some?
    ensures forall i :: h.cut.value <= i < |Seen(h)| ==> Seen(h)[i].Invalidated?
  {
    forall i | h.cut.value <= i < |Seen(h)| ensures Seen(h)[i].Invalidated? {
      assert MergesTo(h.groups[i], Seen(h)[i]);
    }
  }

  lemma CutText(h: History, s: Stream)
    requires Coalesced(h) && h.cut.Some?
    ensures TextOf(s, Seen(h)) <= TextOf(s, h.accepted)
  {
    var n := h.cut.value;
    var head, tail := Seen(h)[..n], Seen(h)[n..];
    GroupsText(s, h.groups[..n], head);
    TextPrefix(s, Flatten(h.groups[..n]), h.accepted);
    OnlyNoticesAfter(h);
    assert forall i :: 0 <= i < |tail| ==> tail[i] == Seen(h)[n + i];
    NoticesHaveNoText(s, tail);
    TextAppend(s, head, tail);
    assert Seen(h) == head + tail;
  }
}
