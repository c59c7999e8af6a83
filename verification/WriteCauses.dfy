/**
 What every act of the write actor is for: each act in the log of a run goes
 back to an input that calls for it, and each input that was handled has the
 acts it calls for. What an input calls for is said in terms of the answers it
 carries, as src/codex/external_write.rs promises it.
 */
module WriteCauses {
  import opened Wrappers
  import opened ExternalWrite

  // ---------------------------------------------------- inputs of a run

  /** The actor's state when it comes to the n-th input. */
  function StateAt(inputs: seq<Input>, n: nat): State
    requires n <= |inputs|
  {
    if n == 0 then INIT else TurnOf(StateAt(inputs, n - 1), inputs[n - 1]).state
  }

  /** The m-th input does not stop the actor. */
  predicate GoesOn(inputs: seq<Input>, m: nat)
    requires m < |inputs|
  {
    TurnOf(StateAt(inputs, m), inputs[m]).next.Continue?
  }

  /** The n-th input is handled: none before it stops the actor. */
  predicate Handled(inputs: seq<Input>, n: nat) {
    n < |inputs| && forall m :: 0 <= m < n ==> GoesOn(inputs, m)
  }

  function MutationsBefore(inputs: seq<Input>, n: nat): nat
    requires n <= |inputs|
  {
    if n == 0 then 0 else MutationsBefore(inputs, n - 1) + if inputs[n - 1].Mutate? then 1 else 0
  }

  /** Command k is the mutation the n-th input asks for. */
  predicate Asks(inputs: seq<Input>, n: nat, k: nat) {
    Handled(inputs, n) && inputs[n].Mutate? && k == MutationsBefore(inputs, n)
  }

  lemma {:induction false} CommandsAreMutations(inputs: seq<Input>, n: nat)
    requires n <= |inputs|
    ensures StateAt(inputs, n).commands == MutationsBefore(inputs, n)
  {
    if n > 0 { CommandsAreMutations(inputs, n - 1); }
  }

  function ActsBefore(inputs: seq<Input>, n: nat): seq<Act>
    requires n <= |inputs|
  {
    if n == 0 then [] else ActsBefore(inputs, n - 1) + TurnOf(StateAt(inputs, n - 1), inputs[n - 1]).acts
  }

  lemma {:induction false} RunSplits(inputs: seq<Input>, queued: nat, n: nat)
    requires n <= |inputs| && forall m :: 0 <= m < n ==> GoesOn(inputs, m)
    ensures RunOf(inputs, queued) == ActsBefore(inputs, n) + RunFrom(StateAt(inputs, n), inputs[n..], queued)
  {
    if n == 0 {
      assert inputs[0..] == inputs;
      LeftUnit(RunOf(inputs, queued));
    } else {
      RunSplits(inputs, queued, n - 1);
      assert GoesOn(inputs, n - 1);
      var st := StateAt(inputs, n - 1);
      assert inputs[n - 1..][0] == inputs[n - 1] && inputs[n - 1..][1..] == inputs[n..];
      Assoc(ActsBefore(inputs, n - 1), TurnOf(st, inputs[n - 1]).acts,
            RunFrom(StateAt(inputs, n), inputs[n..], queued));
    }
  }

  /** What a handled input does is in the log. */
  lemma HandledIsLogged(inputs: seq<Input>, queued: nat, n: nat, a: Act)
    requires Handled(inputs, n) && a in TurnOf(StateAt(inputs, n), inputs[n]).acts
    ensures a in RunOf(inputs, queued)
  {
    RunSplits(inputs, queued, n);
    assert inputs[n..][0] == inputs[n];
  }

  lemma {:induction false} ClosedOnly(k: nat, n: nat, a: Act)
    requires a in ClosedReplies(k, n)
    ensures a.Cmd? && a.k >= k && a.deed == Replied(Err(Closed))
    decreases n
  {
    if a != Cmd(k, Replied(Err(Closed))) { ClosedOnly(k + 1, n - 1, a); }
  }

  /** The act comes from the n-th input. */
  predicate DoneAt(inputs: seq<Input>, n: nat, a: Act) {
    Handled(inputs, n) && a in TurnOf(StateAt(inputs, n), inputs[n]).acts
  }

  /** The act is the stop, a Closed reply, or done for some handled input. */
  predicate Sourced(inputs: seq<Input>, a: Act) {
    || a == Stopped || (a.Cmd? && a.deed == Replied(Err(Closed)))
    || exists n :: 0 <= n < |inputs| && DoneAt(inputs, n, a)
  }

  /** The act is still to come when the actor comes to the n-th input. */
  predicate Ahead(inputs: seq<Input>, queued: nat, n: nat, a: Act) {
    && n <= |inputs| && (forall m :: 0 <= m < n ==> GoesOn(inputs, m))
    && a in RunFrom(StateAt(inputs, n), inputs[n..], queued)
  }

  lemma TurnHasASource(inputs: seq<Input>, queued: nat, n: nat, a: Act)
    requires Ahead(inputs, queued, n, a) && n < |inputs|
    ensures Sourced(inputs, a) || Ahead(inputs, queued, n + 1, a)
  {
    var o := TurnOf(StateAt(inputs, n), inputs[n]);
    if a in o.acts {
      assert DoneAt(inputs, n, a);
    } else if GoesOn(inputs, n) {
      StaysAhead(inputs, queued, n, a, o);
    } else {
      assert inputs[n..][0] == inputs[n];
      AfterTurn(StateAt(inputs, n), inputs[n..], queued, a, o);
      EndingOnly(o.next, o.state.commands, queued, a);
    }
  }

  lemma StaysAhead(inputs: seq<Input>, queued: nat, n: nat, a: Act, o: Outcome)
    requires Ahead(inputs, queued, n, a) && n < |inputs| && GoesOn(inputs, n)
    requires o == TurnOf(StateAt(inputs, n), inputs[n]) && a !in o.acts
    ensures Ahead(inputs, queued, n + 1, a)
  {
    assert inputs[n..][0] == inputs[n] && inputs[n..][1..] == inputs[n + 1..];
    AfterTurn(StateAt(inputs, n), inputs[n..], queued, a, o);
  }

  lemma {:induction false} RestHasASource(inputs: seq<Input>, queued: nat, n: nat, a: Act)
    requires Ahead(inputs, queued, n, a)
    ensures Sourced(inputs, a)
    decreases |inputs| - n
  {
    if n < |inputs| {
      TurnHasASource(inputs, queued, n, a);
      if Ahead(inputs, queued, n + 1, a) { RestHasASource(inputs, queued, n + 1, a); }
    } else {
      EndHasASource(StateAt(inputs, n), inputs, queued, a);
    }
  }

  lemma EndHasASource(st: State, inputs: seq<Input>, queued: nat, a: Act)
    requires a in RunFrom(st, inputs[|inputs|..], queued)
    ensures Sourced(inputs, a)
  {
    EndingOnly(Break, st.commands, queued, a);
  }

  /** What a run does beyond its first turn. */
  lemma AfterTurn(st: State, inputs: seq<Input>, queued: nat, a: Act, o: Outcome)
    requires inputs != [] && o == TurnOf(st, inputs[0]) && a in RunFrom(st, inputs, queued) && a !in o.acts
    ensures a in if o.next.Continue? then RunFrom(o.state, inputs[1..], queued)
                 else Ending(o.next, o.state.commands, queued)
  {
    assert a in Rest(o.next, o.state, inputs[1..], queued);
  }

  lemma EndingOnly(next: Next, k: nat, queued: nat, a: Act)
    requires a in Ending(next, k, queued)
    ensures a == Stopped || (a.Cmd? && a.deed == Replied(Err(Closed)))
  {
    if a != Stopped { ClosedOnly(k, queued, a); }
  }

  /** Every act is the stop, a Closed reply, or done for some handled input. */
  lemma LoggedHasASource(inputs: seq<Input>, queued: nat, a: Act)
    requires a in RunOf(inputs, queued)
    ensures Sourced(inputs, a)
  {
    assert inputs[0..] == inputs;
    RestHasASource(inputs, queued, 0, a);
  }

  // ------------------------------------------------ what a mutation calls for

  /** Starting a turn needs a free thread. */
  predicate NeedsFree(kind: Kind) { kind.Start? || kind.QueueStart? }

  /** The intent was prepared. */
  predicate Prepares(s: Script) { s.checks.None? && s.prepare.Ready? }

  /** Nothing stands in the way of the request. */
  predicate Cleared(kind: Kind, s: Script) {
    Prepares(s) && (NeedsFree(kind) ==> s.free.Yes?) && s.mark.Took?
  }

  /** The peer applied the mutation and gave it this id: it answered, the answer
      fits the request (an interrupt has nothing to fit), and where the effect
      can be read back it was there. */
  predicate AppliedAs(kind: Kind, s: Script, id: nat) {
    && s.call.Response? && s.call.id == id
    && (!kind.Interrupt? ==> s.call.matches) && (kind.Start? || kind.Steer? ==> s.confirmed.Yes?)
  }

  /** The peer answered, and what it did is not what was asked. */
  predicate Doubtful(kind: Kind, s: Script) {
    && s.call.Response? && !kind.Interrupt?
    && (if s.call.matches then (kind.Start? || kind.Steer?) && s.confirmed.No?
        else !(kind.Start? && s.confirmed.Failing?))
  }

  /** When the store is told this of a mutation. */
  predicate Resolves(kind: Kind, s: Script, x: Resolution) {
    match x
    case Applied(id) => Cleared(kind, s) && AppliedAs(kind, s, id)
    case Rejected =>
      Prepares(s) && ((NeedsFree(kind) && s.free.No?) || (Cleared(kind, s) && s.call.ServerRejected?))
    case Unresolved => Cleared(kind, s) && (s.call.Lost? || Doubtful(kind, s))
  }

  /** The acts a mutation calls for before its reply. */
  predicate CallsFor(kind: Kind, s: Script, d: Deed) {
    match d
    case Prepared => Prepares(s)
    case Sent => Cleared(kind, s)
    case Called => Cleared(kind, s)
    case Stored(x) => s.resolve.Took? && Resolves(kind, s, x)
    case Replied(_) => false
  }

  lemma SettlingHas(k: nat, x: Resolution, stores: Stores, d: Deed)
    ensures Cmd(k, d) in Settling(k, x, stores).0 <==> stores.Took? && d == Stored(x)
  {
  }

  lemma BeforeHas(kind: Kind, k: nat, s: Script, d: Deed)
    ensures Cmd(k, d) in BeforeCall(kind, k, s).0 <==>
            || (d == Prepared && Prepares(s)) || (d == Sent && Cleared(kind, s))
            || (d == Stored(Rejected) && s.resolve.Took? && Prepares(s) && NeedsFree(kind) && s.free.No?)
    ensures BeforeCall(kind, k, s).1.None? <==> Cleared(kind, s)
  {
    SettlingHas(k, Rejected, s.resolve, d);
  }

  lemma AfterHas(kind: Kind, k: nat, s: Script, d: Deed)
    ensures Cmd(k, d) in AfterCall(kind, k, s).0 <==>
            && d.Stored? && s.resolve.Took?
            && match d.resolution
               case Applied(id) => AppliedAs(kind, s, id)
               case Rejected => s.call.ServerRejected?
               case Unresolved => s.call.Lost? || Doubtful(kind, s)
  {
    SettlingHas(k, Rejected, s.resolve, d);
    SettlingHas(k, Unresolved, s.resolve, d);
    if s.call.Response? { SettlingHas(k, Applied(s.call.id), s.resolve, d); }
  }

  lemma PlanHas(kind: Kind, k: nat, s: Script, d: Deed)
    ensures Cmd(k, d) in Plan(kind, k, s).0 <==> CallsFor(kind, s, d)
  {
    BeforeHas(kind, k, s, d);
    AfterHas(kind, k, s, d);
  }

  /** The reply to a mutation: the id it was applied under once that is stored,
      and otherwise what went wrong first. */
  predicate RepliesWith(kind: Kind, s: Script, r: Result<nat, WriteError>) {
    match r
    case Ok(id) => Cleared(kind, s) && AppliedAs(kind, s, id) && s.resolve.Took?
    case Err(e) =>
      || s.checks == Some(e)
      || (s.checks.None? && !s.prepare.Ready? && e == PreparationError(s.prepare))
      || (Prepares(s) && NeedsFree(kind) && s.free == Failing(e))
      || (Prepares(s) && NeedsFree(kind) && s.free.No? && e == Unless(s.resolve, Conflict))
      || (Prepares(s) && (NeedsFree(kind) ==> s.free.Yes?) && !s.mark.Took? && e == Unless(s.mark, Store))
      || (Cleared(kind, s) && s.call.ServerRejected? && e == Unless(s.resolve, Conflict))
      || (Cleared(kind, s) && s.call.Lost? && e == Unless(s.resolve, Uncertain))
      || (Cleared(kind, s) && Doubtful(kind, s) && e == Unless(s.resolve, Ambiguous))
      || (&& Cleared(kind, s) && s.call.Response? && (kind.Start? || (kind.Steer? && s.call.matches))
          && s.confirmed == Failing(e))
      || (&& Cleared(kind, s) && s.call.Response? && AppliedAs(kind, s, s.call.id) && !s.resolve.Took?
          && e == Unless(s.resolve, Store))
  }

  /** The store's own failure, or else the given error. */
  function Unless(stores: Stores, e: WriteError): WriteError {
    match stores
    case Took => e
    case Stale => NotReady
    case Broken => Store
  }

  function PreparationError(p: Prepare): WriteError
    requires !p.Ready?
  {
    match p
    case PrepareBusy => Busy
    case PrepareUncertain => Uncertain
    case PrepareNotReady => NotReady
    case HandlerMismatch => InvalidSettings
    case Duplicate => Conflict
    case PrepareBroken => Store
  }

  lemma PlanReplies(kind: Kind, k: nat, s: Script, r: Result<nat, WriteError>)
    ensures Plan(kind, k, s).1 == r <==> RepliesWith(kind, s, r)
  {
    if s.checks.None? && s.prepare.Ready? && s.call.Response? {
      assert ReadsBack(kind, s) <==> kind.Start? || (kind.Steer? && s.call.matches);
    }
  }

  // --------------------------------------------------------- whole runs

  lemma MutationActs(st: State, i: Input, a: Act)
    requires i.Mutate?
    ensures a in TurnOf(st, i).acts <==>
            a.Cmd? && a.k == st.commands && Due(i, a.deed)
  {
    var (acts, r) := Plan(i.kind, st.commands, i.script);
    PlanOrderly(i.kind, st.commands, i.script);
    if a.Cmd? {
      if a.deed.Replied? {
        PlanReplies(i.kind, st.commands, i.script, a.deed.result);
        assert Cmd(st.commands, a.deed) !in acts by { PlanHas(i.kind, st.commands, i.script, a.deed); }
      } else {
        PlanHas(i.kind, st.commands, i.script, a.deed);
      }
    }
  }

  /** Only mutations act on commands. */
  lemma OtherActs(st: State, i: Input, a: Act)
    requires !i.Mutate? && a in TurnOf(st, i).acts
    ensures !a.Cmd?
  {
    match i
    case Tick(now, denials, order) => SettleActs(st.approvals, now, denials, order);
    case _ =>
  }

  lemma SettleActs(table: Table, now: nat, denials: string -> Answering, order: seq<string>)
    ensures forall a :: a in Settle(table, now, denials, order).0 ==> a.Req?
  {
    SettleMeans(table, now, denials, order);
    forall a | a in Settle(table, now, denials, order).0 ensures a.Req? {
      var id :| id in Overdue(table, now, false) && Denied(table, id, denials, a);
      assert a == DenialActs(table[id], denials(id))[0];
    }
  }

  /** The act is one its mutation calls for. */
  predicate Due(i: Input, d: Deed)
    requires i.Mutate?
  {
    if d.Replied? then RepliesWith(i.kind, i.script, d.result) else CallsFor(i.kind, i.script, d)
  }

  lemma CommandHasASource(inputs: seq<Input>, n: nat, a: Act)
    requires DoneAt(inputs, n, a) && a.Cmd?
    ensures Asks(inputs, n, a.k) && Due(inputs[n], a.deed)
  {
    CommandsAreMutations(inputs, n);
    if inputs[n].Mutate? {
      MutationActs(StateAt(inputs, n), inputs[n], a);
    } else {
      OtherActs(StateAt(inputs, n), inputs[n], a);
    }
  }

  lemma AskedIsLogged(inputs: seq<Input>, queued: nat, n: nat, a: Act)
    requires a.Cmd? && Asks(inputs, n, a.k) && Due(inputs[n], a.deed)
    ensures a in RunOf(inputs, queued)
  {
    CommandsAreMutations(inputs, n);
    MutationActs(StateAt(inputs, n), inputs[n], a);
    HandledIsLogged(inputs, queued, n, a);
  }

  /** For every run: command k does this before its reply exactly when it is
      the mutation of a handled input that calls for it. In particular a
      mutation is stored as applied under an id only if the peer applied it
      under that id, as rejected only if it was, and as unresolved only if
      nobody can tell. */
  lemma CommandActsAreCalledFor(inputs: seq<Input>, queued: nat, k: nat, d: Deed)
    requires !d.Replied?
    ensures Cmd(k, d) in RunOf(inputs, queued) <==>
            exists n: nat :: Asks(inputs, n, k) && CallsFor(inputs[n].kind, inputs[n].script, d)
  {
    var a := Cmd(k, d);
    if a in RunOf(inputs, queued) {
      LoggedHasASource(inputs, queued, a);
      var n :| 0 <= n < |inputs| && DoneAt(inputs, n, a);
      CommandHasASource(inputs, n, a);
    }
    if n: nat :| Asks(inputs, n, k) && CallsFor(inputs[n].kind, inputs[n].script, d) {
      AskedIsLogged(inputs, queued, n, a);
    }
  }

  /** For every run: a reply other than Closed is the one its mutation calls
      for, and every handled mutation gets it. */
  lemma RepliesAreCalledFor(inputs: seq<Input>, queued: nat, k: nat, r: Result<nat, WriteError>)
    requires r != Err(Closed)
    ensures Cmd(k, Replied(r)) in RunOf(inputs, queued) <==>
            exists n: nat :: Asks(inputs, n, k) && RepliesWith(inputs[n].kind, inputs[n].script, r)
  {
    var a := Cmd(k, Replied(r));
    if a in RunOf(inputs, queued) {
      LoggedHasASource(inputs, queued, a);
      var n :| 0 <= n < |inputs| && DoneAt(inputs, n, a);
      CommandHasASource(inputs, n, a);
    }
    if n: nat :| Asks(inputs, n, k) && RepliesWith(inputs[n].kind, inputs[n].script, r) {
      AskedIsLogged(inputs, queued, n, a);
    }
  }

  /** A rejected call whose resolution the store takes is stored as rejected,
      not as applied, and answered Conflict; a lost one is stored as unresolved
      and answered Uncertain. */
  lemma RejectedAndLost(inputs: seq<Input>, queued: nat, n: nat, id: nat)
    requires Handled(inputs, n) && inputs[n].Mutate? && Cleared(inputs[n].kind, inputs[n].script)
    requires inputs[n].script.resolve.Took? && !inputs[n].script.call.Response?
    ensures var k, log := MutationsBefore(inputs, n), RunOf(inputs, queued);
            var rejected := inputs[n].script.call.ServerRejected?;
            && Cmd(k, Stored(if rejected then Rejected else Unresolved)) in log
            && Cmd(k, Replied(Err(if rejected then Conflict else Uncertain))) in log
            && Cmd(k, Stored(Applied(id))) !in log && Cmd(k, Replied(Ok(id))) !in log
  {
    var k, s, kind := MutationsBefore(inputs, n), inputs[n].script, inputs[n].kind;
    var rejected := s.call.ServerRejected?;
    assert Asks(inputs, n, k);
    CommandActsAreCalledFor(inputs, queued, k, Stored(if rejected then Rejected else Unresolved));
    RepliesAreCalledFor(inputs, queued, k, Err(if rejected then Conflict else Uncertain));
    assert CallsFor(kind, s, Stored(if rejected then Rejected else Unresolved));
    assert RepliesWith(kind, s, Err(if rejected then Conflict else Uncertain));
    CommandActsAreCalledFor(inputs, queued, k, Stored(Applied(id)));
    RepliesAreCalledFor(inputs, queued, k, Ok(id));
    forall m: nat | Asks(inputs, m, k) ensures m == n { OneAsks(inputs, n, m, k); }
  }

  lemma {:induction false} MutationsGrow(inputs: seq<Input>, m: nat, n: nat)
    requires m < n <= |inputs| && inputs[m].Mutate?
    ensures MutationsBefore(inputs, m) < MutationsBefore(inputs, n)
    decreases n
  {
    if m < n - 1 { MutationsGrow(inputs, m, n - 1); }
  }

  /** One input asks for command k. */
  lemma OneAsks(inputs: seq<Input>, m: nat, n: nat, k: nat)
    requires Asks(inputs, m, k) && Asks(inputs, n, k)
    ensures m == n
  {
    if m < n { MutationsGrow(inputs, m, n); }
    if n < m { MutationsGrow(inputs, n, m); }
  }

  // ------------------------------------------------ what approvals call for

  /** The request can wait for a decision. */
  predicate Admitted(st: State, i: Input)
    requires i.Approval?
  {
    i.current && |st.approvals| < APPROVAL_CAPACITY && i.key.Some? && i.receipt.Received?
  }

  /** The claim is ours and stored, so the answer goes out. */
  predicate Goes(a: Answering) { a.claim.Claimed? && a.responding }

  /** The denial did not go through as it should, and nobody else answered. */
  predicate DenialFails(a: Answering) {
    || a.claim.ClaimUnauthorized? || a.claim.ClaimBroken?
    || (a.claim.Claimed? && !(a.responding && a.delivered && a.closed))
  }

  predicate Late(st: State, id: string, now: nat, responded: bool) {
    id in st.approvals && st.approvals[id].deadline <= now && st.approvals[id].responded == responded
  }

  /** The input has request r answered, in this kind. */
  predicate AnswersFor(st: State, i: Input, r: nat, topic: Topic) {
    match i
    case Decide(authorized, id, t, answering, _) =>
      && authorized && id in st.approvals && !st.approvals[id].responded && st.approvals[id].r == r
      && st.approvals[id].topic == topic == t && Goes(answering)
    case Approval(t, _, _, _, _, _, prompted, denial) =>
      Admitted(st, i) && !prompted && r == st.requests && topic == t && Goes(denial)
    case Tick(now, denials, _) =>
      && (forall id :: id in st.approvals ==> !Late(st, id, now, true))
      && exists id :: id in st.approvals && Late(st, id, now, false) && st.approvals[id].r == r &&
                      st.approvals[id].topic == topic && Goes(denials(id))
    case _ => false
  }

  lemma DenialMeans(p: Pending, a: Answering)
    ensures DenialError(a).Some? <==> DenialFails(a)
    ensures DenialActs(p, a) == if Goes(a) then [Req(p.r, Answered(p.topic))] else []
  {
  }

  lemma NoneLate(st: State, now: nat, responded: bool)
    ensures Overdue(st.approvals, now, responded) == {} <==>
            forall id :: id in st.approvals ==> !Late(st, id, now, responded)
  {
    var late := Overdue(st.approvals, now, responded);
    assert forall id :: id in st.approvals ==> (Late(st, id, now, responded) <==> id in late);
  }

  lemma TickAnswers(st: State, now: nat, denials: string -> Answering, order: seq<string>, r: nat, topic: Topic)
    requires Req(r, Answered(topic)) in Settle(st.approvals, now, denials, order).0
    ensures AnswersFor(st, Tick(now, denials, order), r, topic)
  {
    SettleMeans(st.approvals, now, denials, order);
    NoneLate(st, now, true);
    var a := Req(r, Answered(topic));
    var id :| id in Overdue(st.approvals, now, false) && Denied(st.approvals, id, denials, a);
    DenialMeans(st.approvals[id], denials(id));
    assert DenialActs(st.approvals[id], denials(id))[0] == a;
    assert Late(st, id, now, false);
  }

  lemma TurnAnswers(st: State, i: Input, r: nat, topic: Topic)
    requires Req(r, Answered(topic)) in TurnOf(st, i).acts
    ensures AnswersFor(st, i, r, topic)
  {
    match i
    case Mutate(_, _) => MutationActs(st, i, Req(r, Answered(topic)));
    case Tick(now, denials, order) => TickAnswers(st, now, denials, order, r, topic);
    case Approval(_, _, _, _, _, _, _, _) => ApprovalAnswers(st, i, r, topic);
    case _ =>
  }

  lemma ApprovalAnswers(st: State, i: Input, r: nat, topic: Topic)
    requires i.Approval? && Req(r, Answered(topic)) in TurnOf(st, i).acts
    ensures AnswersFor(st, i, r, topic)
  {
    if Refusal(i, |st.approvals|).None? {
      DenialMeans(Pending(st.requests, i.topic, i.key.value, i.deadline, false), i.denial);
    }
  }

  /** The answer is called for by the n-th input. */
  predicate AnswerDue(inputs: seq<Input>, n: nat, r: nat, topic: Topic) {
    Handled(inputs, n) && AnswersFor(StateAt(inputs, n), inputs[n], r, topic)
  }

  /** In every run an approval request is answered only on an authorised
      decision of its kind that the store let us claim, or as the denial of a
      request that is overdue or that nobody could be asked about. */
  lemma AnswersAreCalledFor(inputs: seq<Input>, queued: nat, r: nat, topic: Topic)
    requires Req(r, Answered(topic)) in RunOf(inputs, queued)
    ensures exists n: nat :: AnswerDue(inputs, n, r, topic)
  {
    var a := Req(r, Answered(topic));
    LoggedHasASource(inputs, queued, a);
    var n :| 0 <= n < |inputs| && DoneAt(inputs, n, a);
    TurnAnswers(StateAt(inputs, n), inputs[n], r, topic);
    assert AnswerDue(inputs, n, r, topic);
  }

  /** A decision or a refusal to prompt that calls for an answer sends it. */
  lemma AnswersAreSent(inputs: seq<Input>, queued: nat, n: nat, r: nat, topic: Topic)
    requires AnswerDue(inputs, n, r, topic) && !inputs[n].Tick?
    ensures Req(r, Answered(topic)) in RunOf(inputs, queued)
  {
    var st, i, a := StateAt(inputs, n), inputs[n], Req(r, Answered(topic));
    if i.Approval? {
      var asked := [Req(r, Asked(topic))];
      DenialMeans(Pending(st.requests, i.topic, i.key.value, i.deadline, false), i.denial);
      assert (asked + [a])[1] == a;
    }
    HandledIsLogged(inputs, queued, n, a);
  }

  /** In every run exactly the admitted requests are asked about. */
  lemma AdmittedIsAsked(inputs: seq<Input>, queued: nat, r: nat, topic: Topic)
    ensures Req(r, Asked(topic)) in RunOf(inputs, queued) <==>
            exists n: nat :: AskDue(inputs, n, r, topic)
  {
    var a := Req(r, Asked(topic));
    if a in RunOf(inputs, queued) {
      LoggedHasASource(inputs, queued, a);
      var n :| 0 <= n < |inputs| && DoneAt(inputs, n, a);
      TurnAsks(StateAt(inputs, n), inputs[n], r, topic);
      assert AskDue(inputs, n, r, topic);
    }
    if n: nat :| AskDue(inputs, n, r, topic) {
      assert TurnOf(StateAt(inputs, n), inputs[n]).acts[0] == a;
      HandledIsLogged(inputs, queued, n, a);
    }
  }

  predicate AskDue(inputs: seq<Input>, n: nat, r: nat, topic: Topic) {
    && Handled(inputs, n) && inputs[n].Approval? && Admitted(StateAt(inputs, n), inputs[n])
    && r == StateAt(inputs, n).requests && topic == inputs[n].topic
  }

  lemma TurnAsks(st: State, i: Input, r: nat, topic: Topic)
    requires Req(r, Asked(topic)) in TurnOf(st, i).acts
    ensures i.Approval? && Admitted(st, i) && r == st.requests && topic == i.topic
  {
    match i
    case Mutate(_, _) => MutationActs(st, i, Req(r, Asked(topic)));
    case Tick(now, denials, order) => TickNeverAsks(st.approvals, now, denials, order);
    case _ =>
  }

  lemma TickNeverAsks(table: Table, now: nat, denials: string -> Answering, order: seq<string>)
    ensures forall a :: a in Settle(table, now, denials, order).0 ==> a.Req? && a.gesture.Answered?
  {
    SettleMeans(table, now, denials, order);
    forall a | a in Settle(table, now, denials, order).0 ensures a.Req? && a.gesture.Answered? {
      var id :| id in Overdue(table, now, false) && Denied(table, id, denials, a);
      assert a == DenialActs(table[id], denials(id))[0];
    }
  }

  // ------------------------------------------------------- what stops it

  /** The input ends the actor's loop. */
  predicate Stops(st: State, i: Input) {
    match i
    case Mutate(kind, s) => RepliesWith(kind, s, Err(Uncertain)) || RepliesWith(kind, s, Err(Ambiguous))
    case Approval(_, _, _, _, _, _, prompted, denial) => !Admitted(st, i) || (!prompted && DenialFails(denial))
    case Settled(key, took) => key.None? || !took
    case Tick(now, denials, _) =>
      || (exists id :: id in st.approvals && Late(st, id, now, true))
      || (exists id :: id in st.approvals && Late(st, id, now, false) && DenialFails(denials(id)))
    case Decide(authorized, id, topic, answering, _) =>
      && authorized && id in st.approvals && !st.approvals[id].responded && st.approvals[id].topic == topic
      && Goes(answering) && !answering.delivered
    case Reassign(valid, stores) => valid && st.approvals == map[] && stores.Took?
    case ReviewerChanged(same) => !same
    case Disconnected | Cancelled | Shutdown => true
    case Unrelated => false
  }

  lemma {:induction false} DenyEachFails(table: Table, ids: seq<string>, denials: string -> Answering)
    requires forall i, j :: 0 <= i < j < |ids| ==> ids[i] != ids[j]
    ensures DenyEach(table, ids, denials).2.Some? <==>
            exists i :: 0 <= i < |ids| && ids[i] in table && DenialFails(denials(ids[i]))
    decreases |ids|
  {
    if ids != [] {
      var id, tail := ids[0], ids[1..];
      var next := if id in table then table - {id} else table;
      assert forall i :: 0 <= i < |tail| ==> tail[i] == ids[i + 1] && tail[i] != id;
      DenyEachFails(next, tail, denials);
      if id in table { DenialMeans(table[id], denials(id)); }
      if i :| 0 <= i < |ids| && ids[i] in table && DenialFails(denials(ids[i])) {
        if i > 0 { assert tail[i - 1] in next; }
      }
    }
  }

  lemma SettleFails(st: State, now: nat, denials: string -> Answering, order: seq<string>)
    ensures Settle(st.approvals, now, denials, order).2.Some? <==> Stops(st, Tick(now, denials, order))
  {
    NoneLate(st, now, true);
    var table := st.approvals;
    var unresolved := Listed(order, Overdue(table, now, true));
    if unresolved == [] {
      assert Overdue(table, now, true) == {} by {
        assert forall id :: id in Overdue(table, now, true) ==> id in unresolved;
      }
      var ids := Listed(order, Overdue(table, now, false));
      DenyEachFails(table, ids, denials);
      forall id | id in table ensures Late(st, id, now, false) <==> id in ids {
        assert id in ids <==> id in Overdue(table, now, false);
      }
    } else {
      assert unresolved[0] in Overdue(table, now, true);
    }
  }

  /** Exactly these inputs stop the actor. */
  lemma StopsExactly(st: State, i: Input)
    ensures !TurnOf(st, i).next.Continue? <==> Stops(st, i)
  {
    match i
    case Mutate(kind, s) =>
      PlanReplies(kind, st.commands, s, Err(Uncertain));
      PlanReplies(kind, st.commands, s, Err(Ambiguous));
    case Tick(now, denials, order) =>
      SettleFails(st, now, denials, order);
      if st.approvals == map[] { EmptySettles(now, denials, order); }
    case Approval(_, _, _, _, _, _, _, denial) => DenialMeans(Pending(0, i.topic, 0, 0, false), denial);
    case _ =>
  }

  lemma EmptySettles(now: nat, denials: string -> Answering, order: seq<string>)
    ensures Settle(map[], now, denials, order).2.None?
  {
    SettleFails(INIT, now, denials, order);
  }

  // --------------------------------------------------- who waits, who is told

  /** Request `id` waits after the input, if the actor goes on. */
  predicate WaitsNext(st: State, i: Input, id: string) {
    match i
    case Approval(_, asked, _, _, _, _, prompted, _) => if id == asked then prompted else id in st.approvals
    case Settled(key, _) => id in st.approvals && key != Some(st.approvals[id].key)
    case Tick(now, _, _) => id in st.approvals && st.approvals[id].deadline > now
    case _ => id in st.approvals
  }

  lemma SettleLeaves(st: State, now: nat, denials: string -> Answering, order: seq<string>, id: string)
    requires Settle(st.approvals, now, denials, order).2.None?
    ensures var rest := Settle(st.approvals, now, denials, order).1;
            && (id in rest <==> id in st.approvals && st.approvals[id].deadline > now)
            && (id in rest ==> rest[id] == st.approvals[id])
  {
    SettleMeans(st.approvals, now, denials, order);
    var rest := Settle(st.approvals, now, denials, order).1;
    assert rest == map x | x in st.approvals && st.approvals[x].deadline > now :: st.approvals[x];
  }

  /** A request waits from when it is admitted until it is resolved, or until it
      is overdue; what waits changes only when its answer goes out. */
  lemma WaitsAfter(st: State, i: Input, id: string)
    requires TurnOf(st, i).next.Continue?
    ensures var table := TurnOf(st, i).state.approvals;
            && (id in table <==> WaitsNext(st, i, id))
            && (id in table && id in st.approvals && !(i.Approval? && i.id == id) ==>
                  table[id] == if i.Decide? && i.id == id && AnswersFor(st, i, st.approvals[id].r, i.topic)
                               then st.approvals[id].(responded := true, deadline := i.until)
                               else st.approvals[id])
            && (i.Approval? && i.id == id && id in table ==>
                  i.key.Some? && table[id] == Pending(st.requests, i.topic, i.key.value, i.deadline, false))
  {
    match i
    case Tick(now, denials, order) => if st.approvals != map[] { SettleLeaves(st, now, denials, order, id); }
    case _ =>
  }

  lemma {:induction false} ClosedAre(k: nat, n: nat, j: nat)
    requires j < n
    ensures Cmd(k + j, Replied(Err(Closed))) in ClosedReplies(k, n)
    decreases n
  {
    if j > 0 {
      ClosedAre(k + 1, n - 1, j - 1);
      assert k + 1 + (j - 1) == k + j;
    }
  }

  /** The actor leaves its loop at the n-th input, or for want of one. */
  predicate LeavesAt(inputs: seq<Input>, n: nat) {
    && n <= |inputs| && (forall m :: 0 <= m < n ==> GoesOn(inputs, m))
    && (n < |inputs| ==> !GoesOn(inputs, n) && !inputs[n].Shutdown? && !inputs[n].Reassign?)
  }

  /** Unless it was shut down or reassigned, every command still queued when the
      actor leaves its loop is told that it is closed. */
  lemma QueuedAreTold(inputs: seq<Input>, queued: nat, n: nat, j: nat)
    requires LeavesAt(inputs, n) && j < queued
    ensures var k := MutationsBefore(inputs, if n < |inputs| then n + 1 else n) + j;
            Cmd(k, Replied(Err(Closed))) in RunOf(inputs, queued)
  {
    var last := if n < |inputs| then n + 1 else n;
    var k, told := ClosedFor(inputs, queued, last, j);
    var before := EndsClosed(inputs, queued, n);
    InSecond(Cmd(k, Replied(Err(Closed))), before, told);
  }

  lemma ClosedFor(inputs: seq<Input>, queued: nat, last: nat, j: nat) returns (k: nat, told: seq<Act>)
    requires last <= |inputs| && j < queued
    ensures k == MutationsBefore(inputs, last) + j && told == ClosedReplies(StateAt(inputs, last).commands, queued)
    ensures Cmd(k, Replied(Err(Closed))) in told
  {
    CommandsAreMutations(inputs, last);
    ClosedAre(StateAt(inputs, last).commands, queued, j);
    k, told := MutationsBefore(inputs, last) + j, ClosedReplies(StateAt(inputs, last).commands, queued);
  }

  lemma InSecond(a: Act, s: seq<Act>, t: seq<Act>)
    requires a in t
    ensures a in s + t
  {
  }

  lemma EndsClosed(inputs: seq<Input>, queued: nat, n: nat) returns (before: seq<Act>)
    requires LeavesAt(inputs, n)
    ensures RunOf(inputs, queued) ==
            before + ClosedReplies(StateAt(inputs, if n < |inputs| then n + 1 else n).commands, queued)
  {
    RunSplits(inputs, queued, n);
    var st := StateAt(inputs, n);
    if n < |inputs| {
      BreaksOff(inputs, queued, n);
      var acts, told := TurnOf(st, inputs[n]).acts, ClosedReplies(StateAt(inputs, n + 1).commands, queued);
      before := ActsBefore(inputs, n) + (acts + [Stopped]);
      Regroup(ActsBefore(inputs, n), acts, [Stopped], told);
    } else {
      assert inputs[n..] == [];
      before := ActsBefore(inputs, n) + [Stopped];
      Assoc(ActsBefore(inputs, n), [Stopped], ClosedReplies(st.commands, queued));
    }
  }

  lemma Regroup(a: seq<Act>, b: seq<Act>, c: seq<Act>, d: seq<Act>)
    ensures a + (b + (c + d)) == (a + (b + c)) + d
  {
  }

  lemma BreaksOff(inputs: seq<Input>, queued: nat, n: nat)
    requires LeavesAt(inputs, n) && n < |inputs|
    ensures RunFrom(StateAt(inputs, n), inputs[n..], queued) ==
            TurnOf(StateAt(inputs, n), inputs[n]).acts +
            ([Stopped] + ClosedReplies(StateAt(inputs, n + 1).commands, queued))
  {
    assert inputs[n..][0] == inputs[n];
    assert TurnOf(StateAt(inputs, n), inputs[n]).next == Break by { QuitsOnlyWhenTold(StateAt(inputs, n), inputs[n]); }
  }

  lemma QuitsOnlyWhenTold(st: State, i: Input)
    ensures TurnOf(st, i).next.Quit? <==> i.Shutdown? || (i.Reassign? && Stops(st, i))
  {
  }
}
