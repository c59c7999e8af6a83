/**
 The external write actor (src/codex/external_write.rs, `run_write_actor`, the
 `execute_*` functions and the approval functions). The peer, the store and
 the clock are arbitrary: every input carries the outcomes the actor will meet.
 The actor's visible acts go to a log, which is a function of the inputs.
 */
module ExternalWrite {
  import opened Wrappers
  import NameOrder
  import Sets

  const APPROVAL_CAPACITY: nat := 64

  datatype Kind = Start | Steer | Interrupt | QueueAdd | QueueStart

  datatype Topic = CommandRun | FileChange | Permissions

  datatype WriteError =
    | UnsupportedProfile | InvalidSettings | Unauthorized | Conflict | Busy | NotReady | Uncertain | Ambiguous
    | Store | Transport | Closed

  datatype Resolution = Applied(id: nat) | Rejected | Unresolved

  datatype Deed = Prepared | Sent | Called | Stored(resolution: Resolution) | Replied(result: Result<nat, WriteError>)

  datatype Gesture = Asked(topic: Topic) | Answered(topic: Topic)

  /** What makes the actor give up besides the result of a command. */
  datatype Trouble = ApprovalFailed(error: WriteError) | ResolutionLost | ReviewerMoved | Hangup

  /** Acts of command k, acts on approval request r, a failure that is fatal,
      and the stop. */
  datatype Act = Cmd(k: nat, deed: Deed) | Req(r: nat, gesture: Gesture) | Fault(trouble: Trouble) | Stopped

  /** A reply or a failure after which the actor must stop. */
  predicate IsFatal(a: Act) {
    || a.Fault?
    || (a.Cmd? && a.deed.Replied? && (a.deed.result == Err(Uncertain) || a.deed.result == Err(Ambiguous)))
  }

  // --------------------------------------------------- what inputs decide

  datatype Probe = Yes | No | Failing(error: WriteError)

  datatype Stores = Took | Stale | Broken

  datatype Transport = Response(id: nat, matches: bool) | ServerRejected | Lost

  datatype Prepare =
    | Ready | PrepareBusy | PrepareUncertain | PrepareNotReady | HandlerMismatch | Duplicate | PrepareBroken

  /** How one mutation command goes: the checks before the intent is prepared,
      the preparation, the check after it, the sent mark, the call, the
      confirming read, and the stored resolution. */
  datatype Script = Script(
    checks: Option<WriteError>,
    prepare: Prepare,
    free: Probe,
    mark: Stores,
    call: Transport,
    confirmed: Probe,
    resolve: Stores)

  /** What the store makes of a resolution, and the error it causes if refused. */
  function Settling(k: nat, resolution: Resolution, stores: Stores): (seq<Act>, Option<WriteError>) {
    match stores
    case Took => ([Cmd(k, Stored(resolution))], None)
    case Stale => ([], Some(NotReady))
    case Broken => ([], Some(Store))
  }

  function Failed(k: nat, resolution: Resolution, stores: Stores, error: WriteError):
    (seq<Act>, Result<nat, WriteError>)
  {
    var (acts, e) := Settling(k, resolution, stores);
    (acts, Err(if e.Some? then e.value else error))
  }

  /** A response that is read back before it counts. */
  predicate ReadsBack(kind: Kind, s: Script) {
    s.call.Response? && (kind.Start? || (kind.Steer? && s.call.matches))
  }

  function AfterCall(kind: Kind, k: nat, s: Script): (seq<Act>, Result<nat, WriteError>) {
    match s.call
    case ServerRejected => Failed(k, Rejected, s.resolve, Conflict)
    case Lost => Failed(k, Unresolved, s.resolve, Uncertain)
    case Response(id, matches) =>
      if ReadsBack(kind, s) && s.confirmed.Failing? then ([], Err(s.confirmed.error))
      else if !kind.Interrupt? && (!matches || (ReadsBack(kind, s) && s.confirmed.No?))
      then Failed(k, Unresolved, s.resolve, Ambiguous)
      else
        var (acts, e) := Settling(k, Applied(id), s.resolve);
        (acts, if e.Some? then Err(e.value) else Ok(id))
  }

  function PrepareError(p: Prepare): Option<WriteError> {
    match p
    case Ready => None
    case PrepareBusy => Some(Busy)
    case PrepareUncertain => Some(Uncertain)
    case PrepareNotReady => Some(NotReady)
    case HandlerMismatch => Some(InvalidSettings)
    case Duplicate => Some(Conflict)
    case PrepareBroken => Some(Store)
  }

  /** The acts before the request, and the error that keeps it from being sent. */
  function BeforeCall(kind: Kind, k: nat, s: Script): (seq<Act>, Option<WriteError>) {
    if s.checks.Some? then ([], s.checks)
    else if PrepareError(s.prepare).Some? then ([], PrepareError(s.prepare))
    else if (kind.Start? || kind.QueueStart?) && s.free.Failing? then ([Cmd(k, Prepared)], Some(s.free.error))
    else if (kind.Start? || kind.QueueStart?) && s.free.No? then
      var (acts, e) := Settling(k, Rejected, s.resolve);
      ([Cmd(k, Prepared)] + acts, if e.Some? then e else Some(Conflict))
    else
      match s.mark
      case Took => ([Cmd(k, Prepared), Cmd(k, Sent)], None)
      case Stale => ([Cmd(k, Prepared)], Some(NotReady))
      case Broken => ([Cmd(k, Prepared)], Some(Store))
  }

  /** Everything one mutation command does, and its result. */
  function Plan(kind: Kind, k: nat, s: Script): (seq<Act>, Result<nat, WriteError>) {
    var (before, e) := BeforeCall(kind, k, s);
    if e.Some? then (before, Err(e.value))
    else
      var (after, r) := AfterCall(kind, k, s);
      (before + [Cmd(k, Called)] + after, r)
  }

  /** A request that was sent gets a stored resolution exactly when the store
      takes one and no confirming read fails first: a failed read returns
      early, possibly with an error that does not stop the actor. */
  lemma SentIsResolvedUnlessReadFails(kind: Kind, k: nat, s: Script)
    requires Cmd(k, Called) in Plan(kind, k, s).0
    ensures (exists x :: Cmd(k, Stored(x)) in Plan(kind, k, s).0) <==>
            s.resolve.Took? && !(ReadsBack(kind, s) && s.confirmed.Failing?)
  {
    var before := BeforeCall(kind, k, s).0;
    assert before == [Cmd(k, Prepared), Cmd(k, Sent)] by { PlanCalls(kind, k, s); }
    var after := AfterCall(kind, k, s).0;
    if s.resolve.Took? && !(ReadsBack(kind, s) && s.confirmed.Failing?) {
      assert after[0].deed.Stored?;
      assert Cmd(k, Stored(after[0].deed.resolution)) in Plan(kind, k, s).0;
    } else {
      assert after == [];
    }
  }

  lemma PlanCalls(kind: Kind, k: nat, s: Script)
    requires Cmd(k, Called) in Plan(kind, k, s).0
    ensures BeforeCall(kind, k, s) == ([Cmd(k, Prepared), Cmd(k, Sent)], None)
  {
  }

  /** One such command: the peer rejects the confirming read after it accepted
      the start. The command fails with Conflict, which is not fatal, and the
      sent intent stays unresolved. */
  lemma ReadFailureLeavesIntentOpen(k: nat)
    ensures var s := Script(None, Ready, Yes, Took, Response(7, true), Failing(Conflict), Took);
            Plan(Start, k, s) == ([Cmd(k, Prepared), Cmd(k, Sent), Cmd(k, Called)], Err(Conflict)) &&
            !IsFatal(Cmd(k, Replied(Err(Conflict))))
  {
    var s := Script(None, Ready, Yes, Took, Response(7, true), Failing(Conflict), Took);
    assert AfterCall(Start, k, s) == ([], Err(Conflict));
    assert [Cmd(k, Prepared), Cmd(k, Sent)] + [Cmd(k, Called)] + [] == [Cmd(k, Prepared), Cmd(k, Sent), Cmd(k, Called)];
  }

  datatype Claim = Claimed | ClaimUnauthorized | ClaimDuplicate | ClaimStale | ClaimBroken

  /** How answering an approval goes. */
  datatype Answering = Answering(claim: Claim, responding: bool, delivered: bool, closed: bool)

  datatype Receipt = Received | NotOwned | ReceiptNotReady | Fenced | ReceiptMismatch | ReceiptDuplicate | ReceiptBroken

  /** Whether denying a claimed request succeeds. */
  function DenialError(a: Answering): Option<WriteError> {
    match a.claim
    case ClaimDuplicate | ClaimStale => None
    case ClaimUnauthorized => Some(Unauthorized)
    case ClaimBroken => Some(Store)
    case Claimed =>
      if !a.responding then Some(Store)
      else if !a.delivered then Some(Uncertain)
      else if a.closed then None
      else Some(Store)
  }

  datatype Pending = Pending(r: nat, topic: Topic, key: nat, deadline: nat, responded: bool)

  /** `order` is the order in which the table of waiting requests is walked. */
  datatype Input =
    | Mutate(kind: Kind, script: Script)
    | Approval(topic: Topic, id: string, key: Option<nat>, current: bool, deadline: nat, receipt: Receipt,
               prompted: bool, denial: Answering)
    | Settled(key: Option<nat>, took: bool)
    | Tick(now: nat, denials: string -> Answering, order: seq<string>)
    | Decide(authorized: bool, id: string, topic: Topic, answering: Answering, until: nat)
    | Reassign(valid: bool, stores: Stores)
    | ReviewerChanged(same: bool)
    | Disconnected
    | Unrelated
    | Cancelled
    | Shutdown

  /** Why an approval request is turned away, when `waiting` others wait. */
  function Refusal(i: Input, waiting: nat): Option<WriteError>
    requires i.Approval?
  {
    if !i.current || waiting >= APPROVAL_CAPACITY then Some(Uncertain)
    else if i.key.None? then Some(WriteError.Transport)
    else
      match i.receipt
      case Received => None
      case NotOwned => Some(Unauthorized)
      case ReceiptNotReady => Some(NotReady)
      case Fenced => Some(Uncertain)
      case ReceiptMismatch => Some(InvalidSettings)
      case ReceiptDuplicate => Some(Ambiguous)
      case ReceiptBroken => Some(Store)
  }

  // ------------------------------------------------- the actor as a function

  type Table = map<string, Pending>

  datatype State = State(commands: nat, requests: nat, approvals: Table)

  const INIT: State := State(0, 0, map[])

  /** Go on, leave the loop and answer what is queued, or return at once. */
  datatype Next = Continue | Break | Quit

  datatype Outcome = Outcome(acts: seq<Act>, state: State, next: Next)

  /** The members of s in the order given, the others after them. */
  function Listed(order: seq<string>, s: set<string>): (l: seq<string>)
    ensures forall id :: id in l <==> id in s
    ensures forall i, j :: 0 <= i < j < |l| ==> l[i] != l[j]
    decreases |order|
  {
    if order == [] then NameOrder.Sorted(s)
    else if order[0] in s then [order[0]] + Listed(order[1..], s - {order[0]})
    else Listed(order[1..], s)
  }

  function Troubled(e: Option<WriteError>): seq<Act> {
    if e.Some? then [Fault(ApprovalFailed(e.value))] else []
  }

  function Going(e: Option<WriteError>): Next { if e.Some? then Break else Continue }

  /** A denial answers the request when the claim is ours and stored. */
  function DenialActs(p: Pending, a: Answering): seq<Act> {
    if a.claim.Claimed? && a.responding then [Req(p.r, Answered(p.topic))] else []
  }

  /** Deny the requests in turn until a denial fails. */
  function DenyEach(table: Table, ids: seq<string>, denials: string -> Answering):
    (seq<Act>, Table, Option<WriteError>)
  {
    if ids == [] then ([], table, None)
    else if ids[0] !in table then DenyEach(table, ids[1..], denials)
    else
      var acts, e := DenialActs(table[ids[0]], denials(ids[0])), DenialError(denials(ids[0]));
      if e.Some? then (acts, table - {ids[0]}, e)
      else
        var (more, rest, failure) := DenyEach(table - {ids[0]}, ids[1..], denials);
        (acts + more, rest, failure)
  }

  function Overdue(table: Table, now: nat, responded: bool): set<string> {
    set id | id in table && table[id].responded == responded && table[id].deadline <= now
  }

  /** settle_expired_approvals: an answer the server never resolved is fatal;
      otherwise every expired request is denied. */
  function Settle(table: Table, now: nat, denials: string -> Answering, order: seq<string>):
    (seq<Act>, Table, Option<WriteError>)
  {
    var unresolved := Listed(order, Overdue(table, now, true));
    if unresolved != [] then ([], table - {unresolved[0]}, Some(Uncertain))
    else DenyEach(table, Listed(order, Overdue(table, now, false)), denials)
  }

  /** receive_approval */
  function Receive(st: State, i: Input): Outcome
    requires i.Approval?
  {
    var refusal := Refusal(i, |st.approvals|);
    if refusal.Some? then Outcome(Troubled(refusal), st, Break)
    else
      var p := Pending(st.requests, i.topic, i.key.value, i.deadline, false);
      var asked := [Req(p.r, Asked(p.topic))];
      if i.prompted then Outcome(asked, State(st.commands, st.requests + 1, st.approvals[i.id := p]), Continue)
      else
        var e := DenialError(i.denial);
        Outcome(asked + DenialActs(p, i.denial) + Troubled(e),
                State(st.commands, st.requests + 1, st.approvals - {i.id}), Going(e))
  }

  /** The decision is let through to the peer. */
  predicate Answers(st: State, i: Input)
    requires i.Decide?
  {
    && i.authorized && i.id in st.approvals && !st.approvals[i.id].responded && st.approvals[i.id].topic == i.topic
    && i.answering.claim.Claimed? && i.answering.responding
  }

  /** resolve_pending_approval: an answer that may or may not have been
      delivered is fatal, so it is never sent again. */
  function Resolved(st: State, i: Input): Outcome
    requires i.Decide?
  {
    if !Answers(st, i) then Outcome([], st, Continue)
    else
      var p := st.approvals[i.id];
      var answered := [Req(p.r, Answered(p.topic))];
      if i.answering.delivered
      then
        var q := p.(responded := true, deadline := i.until);
        Outcome(answered, st.(approvals := st.approvals[i.id := q]), Continue)
      else Outcome(answered + Troubled(Some(Uncertain)), st, Break)
  }

  /** One turn of the actor's loop. */
  function TurnOf(st: State, i: Input): Outcome {
    match i
    case Mutate(kind, s) =>
      var (acts, r) := Plan(kind, st.commands, s);
      var reply := Cmd(st.commands, Replied(r));
      Outcome(acts + [reply], st.(commands := st.commands + 1), if IsFatal(reply) then Break else Continue)
    case Approval(_, _, _, _, _, _, _, _) => Receive(st, i)
    case Settled(key, took) =>
      if key.None? || !took then Outcome([Fault(ResolutionLost)], st, Break)
      else Outcome([], st.(approvals := Without(st.approvals, key.value)), Continue)
    case Tick(now, denials, order) =>
      if st.approvals == map[] then Outcome([], st, Continue)
      else
        var (acts, rest, e) := Settle(st.approvals, now, denials, order);
        Outcome(acts + Troubled(e), st.(approvals := rest), Going(e))
    case Decide(_, _, _, _, _) => Resolved(st, i)
    case Reassign(valid, stores) =>
      Outcome([], st, if valid && st.approvals == map[] && stores == Took then Quit else Continue)
    case ReviewerChanged(same) => if same then Outcome([], st, Continue) else Outcome([Fault(ReviewerMoved)], st, Break)
    case Disconnected => Outcome([Fault(Hangup)], st, Break)
    case Unrelated => Outcome([], st, Continue)
    case Cancelled => Outcome([], st, Break)
    case Shutdown => Outcome([], st, Quit)
  }

  function Without(table: Table, key: nat): Table {
    map id | id in table && table[id].key != key :: table[id]
  }

  /** A Closed reply to each of n commands. */
  function ClosedReplies(k: nat, n: nat): seq<Act>
    decreases n
  {
    if n == 0 then [] else [Cmd(k, Replied(Err(Closed)))] + ClosedReplies(k + 1, n - 1)
  }

  /** Everything the actor does on these inputs, with `queued` commands still
      waiting when it leaves its loop. */
  function RunFrom(st: State, inputs: seq<Input>, queued: nat): seq<Act>
    decreases |inputs|, 0
  {
    if inputs == [] then [Stopped] + ClosedReplies(st.commands, queued)
    else
      var o := TurnOf(st, inputs[0]);
      o.acts + Rest(o.next, o.state, inputs[1..], queued)
  }

  /** What is still to come once a turn has said how to go on. */
  function Rest(next: Next, st: State, inputs: seq<Input>, queued: nat): seq<Act>
    decreases |inputs|, 1
  {
    match next
    case Continue => RunFrom(st, inputs, queued)
    case Break => [Stopped] + ClosedReplies(st.commands, queued)
    case Quit => [Stopped]
  }

  // ------------------------------------------------------ what runs keep

  predicate AnswerIn(log: seq<Act>, r: nat) { exists t :: Req(r, Answered(t)) in log }

  predicate ReplyIn(log: seq<Act>, k: nat) {
    exists i :: 0 <= i < |log| && log[i].Cmd? && log[i].k == k && log[i].deed.Replied?
  }

  /** What may happen next: a mutation is called once, after its sent mark; an
      Ok reply follows its stored application; a command does nothing after
      its reply; a request is answered once, in its own kind; a fatal act is
      followed by the stop, and the stop by nothing but failed replies. */
  predicate Allowed(log: seq<Act>, a: Act) {
    && (Stopped in log ==> a.Cmd? && a.deed == Replied(Err(Closed)))
    && (log != [] && IsFatal(log[|log| - 1]) ==> a.Stopped?)
    && (a.Cmd? ==> !ReplyIn(log, a.k))
    && (a.Cmd? && a.deed.Called? ==> Cmd(a.k, Sent) in log && Cmd(a.k, Called) !in log)
    && (a.Cmd? && a.deed.Replied? && a.deed.result.Ok? ==>
          Cmd(a.k, Stored(Applied(a.deed.result.value))) in log && Cmd(a.k, Called) in log)
    && (a.Req? && a.gesture.Answered? ==> Req(a.r, Asked(a.gesture.topic)) in log && !AnswerIn(log, a.r))
  }

  predicate WellFormed(log: seq<Act>) {
    log == [] || (WellFormed(log[..|log| - 1]) && Allowed(log[..|log| - 1], log[|log| - 1]))
  }

  lemma Snoc(log: seq<Act>, a: Act)
    requires WellFormed(log) && Allowed(log, a)
    ensures WellFormed(log + [a])
  {
    assert (log + [a])[..|log|] == log;
  }

  lemma SameAnswers(log: seq<Act>, a: Act, r: nat)
    requires !(a.Req? && a.gesture.Answered? && a.r == r)
    ensures AnswerIn(log + [a], r) <==> AnswerIn(log, r)
  {
  }

  lemma SameReplies(log: seq<Act>, a: Act, k: nat)
    requires !(a.Cmd? && a.deed.Replied? && a.k == k)
    ensures ReplyIn(log + [a], k) <==> ReplyIn(log, k)
  {
    if ReplyIn(log, k) {
      var i :| 0 <= i < |log| && log[i].Cmd? && log[i].k == k && log[i].deed.Replied?;
      assert (log + [a])[i] == log[i];
    }
  }

  lemma Assoc(a: seq<Act>, b: seq<Act>, c: seq<Act>)
    ensures a + b + c == a + (b + c)
  {
  }

  /** Numbers given out so far stay below the counters. */
  predicate Numbered(log: seq<Act>, st: State) {
    forall i :: 0 <= i < |log| ==> (log[i].Cmd? ==> log[i].k < st.commands) && (log[i].Req? ==> log[i].r < st.requests)
  }

  /** A waiting request was asked, and was answered only if it says so. */
  predicate Waits(log: seq<Act>, p: Pending) {
    Req(p.r, Asked(p.topic)) in log && (!p.responded ==> !AnswerIn(log, p.r))
  }

  /** No two waiting requests are the same. */
  predicate Apart(table: Table) {
    forall id, other :: id in table && other in table && table[id].r == table[other].r ==> id == other
  }

  predicate Good(log: seq<Act>, st: State) {
    && WellFormed(log) && Numbered(log, st) && Stopped !in log && (log == [] || !IsFatal(log[|log| - 1]))
    && Apart(st.approvals) && forall id :: id in st.approvals ==> Waits(log, st.approvals[id])
  }

  /** One more act that is neither an answer nor a failure. */
  lemma ActGood(log: seq<Act>, st: State, a: Act)
    requires Good(log, st) && Allowed(log, a) && !IsFatal(a) && !a.Stopped?
    requires a.Cmd? ==> a.k < st.commands
    requires a.Req? ==> a.r < st.requests && (a.gesture.Answered? ==>
               forall id :: id in st.approvals ==> st.approvals[id].r != a.r)
    ensures Good(log + [a], st)
  {
    Snoc(log, a);
    forall id | id in st.approvals ensures Waits(log + [a], st.approvals[id]) {
      assert Waits(log, st.approvals[id]);
      SameAnswers(log, a, st.approvals[id].r);
    }
  }

  // ---------------------------------------------------------- commands

  /** Acts of one command before its reply, in an order that is allowed. */
  predicate Orderly(k: nat, acts: seq<Act>) {
    forall i :: 0 <= i < |acts| ==>
      && acts[i].Cmd? && acts[i].k == k && !acts[i].deed.Replied?
      && (acts[i].deed.Called? ==> Cmd(k, Sent) in acts[..i] && Cmd(k, Called) !in acts[..i])
  }

  predicate Fresh(log: seq<Act>, k: nat) { forall i :: 0 <= i < |log| ==> !(log[i].Cmd? && log[i].k == k) }

  lemma {:induction false} OrderlyGood(log: seq<Act>, st: State, k: nat, acts: seq<Act>)
    requires Good(log, st) && Fresh(log, k) && k < st.commands && Orderly(k, acts)
    ensures Good(log + acts, st) && !ReplyIn(log + acts, k)
  {
    if acts == [] {
      assert log + acts == log;
    } else {
      var n := |acts| - 1;
      var front, a := acts[..n], acts[n];
      OrderlyFront(k, acts);
      OrderlyGood(log, st, k, front);
      NextAllowed(log, k, front, a);
      ActGood(log + front, st, a);
      SameReplies(log + front, a, k);
      assert log + acts == log + front + [a];
    }
  }

  lemma OrderlyFront(k: nat, acts: seq<Act>)
    requires Orderly(k, acts) && acts != []
    ensures Orderly(k, acts[..|acts| - 1])
  {
    var front := acts[..|acts| - 1];
    assert forall i :: 0 <= i < |front| ==> front[i] == acts[i] && front[..i] == acts[..i];
  }

  lemma NextAllowed(log: seq<Act>, k: nat, front: seq<Act>, a: Act)
    requires Fresh(log, k) && !ReplyIn(log + front, k) && Stopped !in log + front && a.Cmd? && a.k == k
    requires log + front == [] || !IsFatal((log + front)[|log + front| - 1])
    requires !a.deed.Replied? && (a.deed.Called? ==> Cmd(k, Sent) in front && Cmd(k, Called) !in front)
    ensures Allowed(log + front, a)
  {
    assert Cmd(k, Called) !in log;
  }

  lemma PlanOrderly(kind: Kind, k: nat, s: Script)
    ensures Orderly(k, Plan(kind, k, s).0)
  {
    var before, after := BeforeCall(kind, k, s), AfterCall(kind, k, s).0;
    if before.1.None? {
      assert before.0 == [Cmd(k, Prepared), Cmd(k, Sent)];
      assert |after| <= 1 && (after != [] ==> after[0].Cmd? && after[0].k == k && after[0].deed.Stored?);
      var acts := before.0 + [Cmd(k, Called)] + after;
      assert acts[..2] == before.0;
      assert forall i :: 0 <= i < |acts| && acts[i].deed.Called? ==> i == 2;
    } else {
      assert |before.0| <= 2;
      assert forall i :: 0 <= i < |before.0| ==>
        before.0[i].Cmd? && before.0[i].k == k && (before.0[i].deed.Prepared? || before.0[i].deed.Stored?);
    }
  }

  /** An Ok plan calls once and stores its application. */
  lemma OkPlan(kind: Kind, k: nat, s: Script)
    requires Plan(kind, k, s).1.Ok?
    ensures Cmd(k, Stored(Applied(Plan(kind, k, s).1.value))) in Plan(kind, k, s).0
    ensures Cmd(k, Called) in Plan(kind, k, s).0
  {
    var id := Plan(kind, k, s).1.value;
    assert AfterCall(kind, k, s).0 == [Cmd(k, Stored(Applied(id)))];
  }

  /** What a turn owes the turns after it. */
  predicate Kept(log: seq<Act>, st: State, next: Next) {
    && WellFormed(log) && Stopped !in log && Numbered(log, st)
    && (next.Continue? ==> Good(log, st))
  }

  /** The reply to a command whose acts were orderly. */
  lemma ReplyKept(log: seq<Act>, st: State, k: nat, acts: seq<Act>, r: Result<nat, WriteError>)
    requires Good(log, st) && Fresh(log, k) && k < st.commands && Orderly(k, acts)
    requires r.Ok? ==> Cmd(k, Stored(Applied(r.value))) in acts && Cmd(k, Called) in acts
    ensures var reply := Cmd(k, Replied(r));
            Kept(log + (acts + [reply]), st, if IsFatal(reply) then Break else Continue)
  {
    var reply := Cmd(k, Replied(r));
    OrderlyGood(log, st, k, acts);
    assert log + acts + [reply] == log + (acts + [reply]);
    assert Allowed(log + acts, reply);
    if IsFatal(reply) {
      Snoc(log + acts, reply);
    } else {
      ActGood(log + acts, st, reply);
    }
  }

  lemma NextCommand(log: seq<Act>, st: State)
    requires Good(log, st)
    ensures Good(log, st.(commands := st.commands + 1)) && Fresh(log, st.commands)
  {
  }

  lemma MutateKept(log: seq<Act>, st: State, kind: Kind, s: Script)
    requires Good(log, st)
    ensures var o := TurnOf(st, Mutate(kind, s));
            Kept(log + o.acts, o.state, o.next)
  {
    NextCommand(log, st);
    PlanOrderly(kind, st.commands, s);
    if Plan(kind, st.commands, s).1.Ok? { OkPlan(kind, st.commands, s); }
    ReplyKept(log, st.(commands := st.commands + 1), st.commands, Plan(kind, st.commands, s).0,
              Plan(kind, st.commands, s).1);
  }

  // --------------------------------------------------------- approvals

  lemma FaultKept(log: seq<Act>, st: State, trouble: Trouble)
    requires Good(log, st)
    ensures Kept(log + [Fault(trouble)], st, Break)
  {
    Snoc(log, Fault(trouble));
  }

  /** Fewer requests wait. */
  lemma FewerGood(log: seq<Act>, st: State, rest: Table)
    requires Good(log, st)
    requires forall id :: id in rest ==> id in st.approvals && rest[id] == st.approvals[id]
    ensures Good(log, st.(approvals := rest))
  {
  }

  /** Denying a request that waits takes it off the table and answers it at
      most once. */
  lemma DenyGood(log: seq<Act>, st: State, id: string, a: Answering)
    requires Good(log, st) && id in st.approvals && !st.approvals[id].responded
    ensures Good(log + DenialActs(st.approvals[id], a), st.(approvals := st.approvals - {id}))
  {
    var p, rest := st.approvals[id], st.approvals - {id};
    FewerGood(log, st, rest);
    assert Waits(log, p);
    if a.claim.Claimed? && a.responding {
      ActGood(log, st.(approvals := rest), Req(p.r, Answered(p.topic)));
    } else {
      assert log + [] == log;
    }
  }

  lemma {:induction false} DenyEachGood(log: seq<Act>, st: State, ids: seq<string>, denials: string -> Answering)
    requires Good(log, st) && forall id :: id in ids && id in st.approvals ==> !st.approvals[id].responded
    ensures var (acts, rest, e) := DenyEach(st.approvals, ids, denials);
            Good(log + acts, st.(approvals := rest))
    decreases |ids|
  {
    if ids == [] {
      assert log + [] == log;
    } else if ids[0] !in st.approvals {
      DenyEachGood(log, st, ids[1..], denials);
    } else {
      var acts := DenialActs(st.approvals[ids[0]], denials(ids[0]));
      DenyGood(log, st, ids[0], denials(ids[0]));
      if DenialError(denials(ids[0])).None? {
        var next := st.(approvals := st.approvals - {ids[0]});
        DenyEachGood(log + acts, next, ids[1..], denials);
        Assoc(log, acts, DenyEach(next.approvals, ids[1..], denials).0);
      }
    }
  }

  /** A failure on top of what was done, if there is one. */
  lemma TroubledKept(log: seq<Act>, acts: seq<Act>, st: State, e: Option<WriteError>)
    requires Good(log + acts, st)
    ensures Kept(log + (acts + Troubled(e)), st, Going(e))
  {
    Assoc(log, acts, Troubled(e));
    if e.Some? {
      FaultKept(log + acts, st, ApprovalFailed(e.value));
    } else {
      assert log + acts + [] == log + acts;
    }
  }

  lemma TickKept(log: seq<Act>, st: State, now: nat, denials: string -> Answering, order: seq<string>)
    requires Good(log, st)
    ensures var (acts, rest, e) := Settle(st.approvals, now, denials, order);
            Kept(log + (acts + Troubled(e)), st.(approvals := rest), Going(e))
  {
    var (acts, rest, e) := Settle(st.approvals, now, denials, order);
    var unresolved := Listed(order, Overdue(st.approvals, now, true));
    if unresolved != [] {
      FewerGood(log, st, rest);
      assert log + [] == log;
    } else {
      DenyEachGood(log, st, Listed(order, Overdue(st.approvals, now, false)), denials);
    }
    TroubledKept(log, acts, st.(approvals := rest), e);
  }

  lemma AskGood(log: seq<Act>, st: State, topic: Topic)
    requires Good(log, st)
    ensures var a := Req(st.requests, Asked(topic));
            Good(log + [a], st.(requests := st.requests + 1)) && !AnswerIn(log + [a], st.requests)
  {
    var a := Req(st.requests, Asked(topic));
    ActGood(log, st.(requests := st.requests + 1), a);
    SameAnswers(log, a, st.requests);
  }

  /** A request just asked joins the table. */
  lemma PutGood(log: seq<Act>, st: State, id: string, p: Pending)
    requires Good(log, st) && Waits(log, p)
    requires forall other :: other in st.approvals && other != id ==> st.approvals[other].r != p.r
    ensures Good(log, st.(approvals := st.approvals[id := p]))
  {
  }

  /** A request is asked and joins the table. */
  lemma EnlistGood(log: seq<Act>, st: State, id: string, p: Pending)
    requires Good(log, st) && p.r == st.requests && !p.responded
    ensures Good(log + [Req(p.r, Asked(p.topic))], State(st.commands, st.requests + 1, st.approvals[id := p]))
  {
    var asked := Req(p.r, Asked(p.topic));
    forall other | other in st.approvals ensures st.approvals[other].r < p.r {
      assert Waits(log, st.approvals[other]);
    }
    AskGood(log, st, p.topic);
    assert (log + [asked])[|log|] == asked;
    PutGood(log + [asked], st.(requests := st.requests + 1), id, p);
  }

  lemma ReceiveKept(log: seq<Act>, st: State, i: Input)
    requires Good(log, st) && i.Approval?
    ensures var o := Receive(st, i);
            Kept(log + o.acts, o.state, o.next)
  {
    var refusal := Refusal(i, |st.approvals|);
    if refusal.Some? {
      FaultKept(log, st, ApprovalFailed(refusal.value));
    } else {
      var p := Pending(st.requests, i.topic, i.key.value, i.deadline, false);
      if i.prompted {
        AskedKept(log, st, i.id, p);
      } else {
        AskedAndDenied(log, st, i.id, p, i.denial);
      }
    }
  }

  lemma AskedKept(log: seq<Act>, st: State, id: string, p: Pending)
    requires Good(log, st) && p.r == st.requests && !p.responded
    ensures Kept(log + [Req(p.r, Asked(p.topic))], State(st.commands, st.requests + 1, st.approvals[id := p]), Continue)
  {
    EnlistGood(log, st, id, p);
  }

  lemma AskedAndDenied(log: seq<Act>, st: State, id: string, p: Pending, a: Answering)
    requires Good(log, st) && p.r == st.requests && !p.responded
    ensures Kept(log + ([Req(p.r, Asked(p.topic))] + DenialActs(p, a) + Troubled(DenialError(a))),
                 State(st.commands, st.requests + 1, st.approvals - {id}), Going(DenialError(a)))
  {
    var asked := [Req(p.r, Asked(p.topic))];
    EnlistGood(log, st, id, p);
    DenyGood(log + asked, State(st.commands, st.requests + 1, st.approvals[id := p]), id, a);
    assert st.approvals[id := p] - {id} == st.approvals - {id};
    Assoc(log, asked, DenialActs(p, a));
    TroubledKept(log, asked + DenialActs(p, a), State(st.commands, st.requests + 1, st.approvals - {id}),
                 DenialError(a));
  }

  lemma DecideKept(log: seq<Act>, st: State, i: Input)
    requires Good(log, st) && i.Decide?
    ensures var o := Resolved(st, i);
            Kept(log + o.acts, o.state, o.next)
  {
    if Answers(st, i) {
      var p, rest := st.approvals[i.id], st.approvals - {i.id};
      var a := Req(p.r, Answered(p.topic));
      assert Waits(log, p);
      FewerGood(log, st, rest);
      ActGood(log, st.(approvals := rest), a);
      if i.answering.delivered {
        var q := p.(responded := true, deadline := i.until);
        PutGood(log + [a], st.(approvals := rest), i.id, q);
        assert rest[i.id := q] == st.approvals[i.id := q];
      } else {
        Assoc(log, [a], Troubled(Some(Uncertain)));
        FaultKept(log + [a], st.(approvals := rest), ApprovalFailed(Uncertain));
      }
    } else {
      assert log + [] == log;
    }
  }

  /** The request with this id is answered by a denial. */
  predicate Denied(table: Table, id: string, denials: string -> Answering, a: Act) {
    id in table && DenialActs(table[id], denials(id)) == [a]
  }

  lemma {:induction false} DenyEachMeans(table: Table, ids: seq<string>, denials: string -> Answering)
    requires forall i, j :: 0 <= i < j < |ids| ==> ids[i] != ids[j]
    ensures var (acts, rest, e) := DenyEach(table, ids, denials);
            && (forall id :: id in rest ==> id in table && rest[id] == table[id])
            && (forall id :: id in table && id !in ids ==> id in rest)
            && (forall a :: a in acts ==> exists id :: id in ids && Denied(table, id, denials, a))
            && (e.None? ==> forall id, a :: id in ids && Denied(table, id, denials, a) ==> a in acts)
            && (e.None? ==> forall id :: id in ids ==> id !in rest)
    decreases |ids|
  {
    if ids != [] {
      var id, tail := ids[0], ids[1..];
      assert ids == [id] + tail;
      assert id !in tail;
      if id !in table {
        DenyEachMeans(table, tail, denials);
      } else if DenialError(denials(id)).None? {
        DenyEachMeans(table - {id}, tail, denials);
        assert forall other, a :: other != id ==>
          (Denied(table - {id}, other, denials, a) <==> Denied(table, other, denials, a));
      } else {
        assert forall a :: a in DenialActs(table[id], denials(id)) ==> Denied(table, id, denials, a);
      }
    }
  }

  /** Settling denies nothing that is not overdue; if it succeeds, exactly the
      requests that are not overdue stay, and every overdue one whose claim was
      ours was answered. An overdue answer fails it with nothing done. */
  lemma SettleMeans(table: Table, now: nat, denials: string -> Answering, order: seq<string>)
    ensures var (acts, rest, e) := Settle(table, now, denials, order);
            var late := Overdue(table, now, false);
            && (Overdue(table, now, true) != {} ==> acts == [] && e == Some(Uncertain))
            && (forall a :: a in acts ==> exists id :: id in late && Denied(table, id, denials, a))
            && (e.None? ==> forall id, a :: id in late && Denied(table, id, denials, a) ==> a in acts)
            && (e.None? ==> rest == map id | id in table && table[id].deadline > now :: table[id])
  {
    var unresolved := Listed(order, Overdue(table, now, true));
    if unresolved == [] {
      var late := Listed(order, Overdue(table, now, false));
      assert Overdue(table, now, true) == {} by {
        assert forall id :: id in Overdue(table, now, true) ==> id in unresolved;
      }
      DenyEachMeans(table, late, denials);
      forall id | id in table ensures id in late <==> table[id].deadline <= now {
        assert id !in Overdue(table, now, true);
        assert id in late <==> id in Overdue(table, now, false);
      }
      var (acts, rest, e) := DenyEach(table, late, denials);
      if e.None? {
        assert rest == map id | id in table && table[id].deadline > now :: table[id];
      }
    } else {
      assert unresolved[0] in Overdue(table, now, true);
    }
  }

  /** No more than 64 requests ever wait. */
  lemma TableBounded(st: State, i: Input)
    requires |st.approvals| <= APPROVAL_CAPACITY
    ensures |TurnOf(st, i).state.approvals| <= APPROVAL_CAPACITY
  {
    var next := TurnOf(st, i).state.approvals;
    match i
    case Approval(_, id, _, _, _, _, _, _) =>
      if next.Keys <= st.approvals.Keys {
        Sets.Smaller(next.Keys, st.approvals.Keys);
      } else {
        Sets.MapGrown(st.approvals, id, next[id]);
      }
    case Tick(now, denials, order) =>
      DenyEachMeans(st.approvals, Listed(order, Overdue(st.approvals, now, false)), denials);
      Sets.Smaller(next.Keys, st.approvals.Keys);
    case Decide(_, id, _, _, _) => if id in st.approvals { Sets.MapGrown(st.approvals, id, next[id]); }
    case Settled(_, _) => Sets.Smaller(next.Keys, st.approvals.Keys);
    case _ =>
  }

  // -------------------------------------------------------- whole runs

  lemma TurnKept(log: seq<Act>, st: State, i: Input)
    requires Good(log, st)
    ensures var o := TurnOf(st, i);
            Kept(log + o.acts, o.state, o.next)
  {
    assert log + [] == log;
    match i
    case Mutate(kind, s) => MutateKept(log, st, kind, s);
    case Approval(_, _, _, _, _, _, _, _) => ReceiveKept(log, st, i);
    case Settled(key, took) =>
      if key.None? || !took {
        FaultKept(log, st, ResolutionLost);
      } else {
        FewerGood(log, st, Without(st.approvals, key.value));
      }
    case Tick(now, denials, order) => TickKept(log, st, now, denials, order);
    case Decide(_, _, _, _, _) => DecideKept(log, st, i);
    case ReviewerChanged(same) => if !same { FaultKept(log, st, ReviewerMoved); }
    case Disconnected => FaultKept(log, st, Hangup);
    case _ =>
  }

  /** The log does not end in a fatal act. */
  predicate EndsWell(log: seq<Act>) { log != [] && !IsFatal(log[|log| - 1]) }

  lemma {:induction false} ClosedWellFormed(log: seq<Act>, k: nat, n: nat)
    requires WellFormed(log) && Stopped in log && EndsWell(log)
    requires forall i :: 0 <= i < |log| && log[i].Cmd? ==> log[i].k < k
    ensures WellFormed(log + ClosedReplies(k, n)) && EndsWell(log + ClosedReplies(k, n))
    decreases n
  {
    if n == 0 {
      assert log + [] == log;
    } else {
      var a := Cmd(k, Replied(Err(Closed)));
      Snoc(log, a);
      ClosedWellFormed(log + [a], k + 1, n - 1);
      Assoc(log, [a], ClosedReplies(k + 1, n - 1));
    }
  }

  lemma StopWellFormed(log: seq<Act>)
    requires WellFormed(log) && Stopped !in log
    ensures WellFormed(log + [Stopped]) && EndsWell(log + [Stopped])
  {
    assert Allowed(log, Stopped);
    Snoc(log, Stopped);
    LastOf(log, Stopped);
  }

  lemma LastOf(log: seq<Act>, a: Act)
    ensures log + [a] != [] && (log + [a])[|log + [a]| - 1] == a
  {
  }

  lemma {:induction false} RestKept(log: seq<Act>, next: Next, st: State, inputs: seq<Input>, queued: nat)
    requires Kept(log, st, next)
    ensures WellFormed(log + Rest(next, st, inputs, queued)) && EndsWell(log + Rest(next, st, inputs, queued))
    decreases |inputs|, 1
  {
    match next
    case Continue => RunKept(log, st, inputs, queued);
    case Break => BreakKept(log, st, queued);
    case Quit => StopWellFormed(log);
  }

  lemma BreakKept(log: seq<Act>, st: State, queued: nat)
    requires Kept(log, st, Break)
    ensures var all := log + ([Stopped] + ClosedReplies(st.commands, queued));
            WellFormed(all) && EndsWell(all)
  {
    StopWellFormed(log);
    assert (log + [Stopped])[|log|] == Stopped;
    ClosedWellFormed(log + [Stopped], st.commands, queued);
    Assoc(log, [Stopped], ClosedReplies(st.commands, queued));
  }

  lemma {:induction false} RunKept(log: seq<Act>, st: State, inputs: seq<Input>, queued: nat)
    requires Good(log, st)
    ensures WellFormed(log + RunFrom(st, inputs, queued)) && EndsWell(log + RunFrom(st, inputs, queued))
    decreases |inputs|, 0
  {
    if inputs == [] {
      BreakKept(log, st, queued);
    } else {
      var o := TurnOf(st, inputs[0]);
      TurnKept(log, st, inputs[0]);
      RestKept(log + o.acts, o.next, o.state, inputs[1..], queued);
      Assoc(log, o.acts, Rest(o.next, o.state, inputs[1..], queued));
    }
  }

  /** Everything the actor does from its start on these inputs. */
  function RunOf(inputs: seq<Input>, queued: nat): seq<Act> { RunFrom(INIT, inputs, queued) }

  /** Every run keeps the order of acts, and does not end in a fatal act. */
  lemma RunIsWellFormed(inputs: seq<Input>, queued: nat)
    ensures WellFormed(RunOf(inputs, queued)) && EndsWell(RunOf(inputs, queued))
  {
    RunKept([], INIT, inputs, queued);
    assert [] + RunOf(inputs, queued) == RunOf(inputs, queued);
  }

  lemma {:induction false} AllowedAt(log: seq<Act>, n: nat)
    requires WellFormed(log) && n < |log|
    ensures Allowed(log[..n], log[n])
  {
    var m := |log| - 1;
    if n < m {
      AllowedAt(log[..m], n);
      assert log[..m][..n] == log[..n];
    }
  }

  /** What was allowed when the j-th act of a run was done. */
  lemma RunAllows(inputs: seq<Input>, queued: nat, j: nat)
    requires j < |RunOf(inputs, queued)|
    ensures Allowed(RunOf(inputs, queued)[..j], RunOf(inputs, queued)[j])
  {
    RunIsWellFormed(inputs, queued);
    AllowedAt(RunOf(inputs, queued), j);
  }

  /** At most one mutation request per command. */
  lemma CalledOnce(inputs: seq<Input>, queued: nat, k: nat, i: nat, j: nat)
    requires i < j < |RunOf(inputs, queued)| && RunOf(inputs, queued)[i] == Cmd(k, Called)
    ensures RunOf(inputs, queued)[j] != Cmd(k, Called)
  {
    RunAllows(inputs, queued, j);
    assert RunOf(inputs, queued)[..j][i] == Cmd(k, Called);
  }

  /** A mutation request comes after its stored sent mark. */
  lemma CalledAfterSent(inputs: seq<Input>, queued: nat, k: nat, j: nat)
    requires j < |RunOf(inputs, queued)| && RunOf(inputs, queued)[j] == Cmd(k, Called)
    ensures exists i :: 0 <= i < j && RunOf(inputs, queued)[i] == Cmd(k, Sent)
  {
    var log := RunOf(inputs, queued);
    RunAllows(inputs, queued, j);
    var i :| 0 <= i < j && log[..j][i] == Cmd(k, Sent);
    assert log[i] == Cmd(k, Sent);
  }

  /** An Ok reply names a result the store holds as applied, and follows the
      request. */
  lemma OkAfterApplied(inputs: seq<Input>, queued: nat, k: nat, id: nat, j: nat)
    requires j < |RunOf(inputs, queued)| && RunOf(inputs, queued)[j] == Cmd(k, Replied(Ok(id)))
    ensures exists i :: 0 <= i < j && RunOf(inputs, queued)[i] == Cmd(k, Stored(Applied(id)))
    ensures exists i :: 0 <= i < j && RunOf(inputs, queued)[i] == Cmd(k, Called)
  {
    var log := RunOf(inputs, queued);
    RunAllows(inputs, queued, j);
    var i :| 0 <= i < j && log[..j][i] == Cmd(k, Stored(Applied(id)));
    assert log[i] == Cmd(k, Stored(Applied(id)));
    var h :| 0 <= h < j && log[..j][h] == Cmd(k, Called);
    assert log[h] == Cmd(k, Called);
  }

  /** A reply is the last act of its command. */
  lemma ReplyIsLast(inputs: seq<Input>, queued: nat, k: nat, i: nat, j: nat)
    requires var log := RunOf(inputs, queued);
             i < j < |log| && log[i].Cmd? && log[i].k == k && log[i].deed.Replied?
    ensures !(RunOf(inputs, queued)[j].Cmd? && RunOf(inputs, queued)[j].k == k)
  {
    RunAllows(inputs, queued, j);
    assert RunOf(inputs, queued)[..j][i] == RunOf(inputs, queued)[i];
  }

  /** Each approval request is answered at most once, */
  lemma AnsweredOnce(inputs: seq<Input>, queued: nat, r: nat, t: Topic, u: Topic, i: nat, j: nat)
    requires i < j < |RunOf(inputs, queued)| && RunOf(inputs, queued)[i] == Req(r, Answered(t))
    ensures RunOf(inputs, queued)[j] != Req(r, Answered(u))
  {
    RunAllows(inputs, queued, j);
    assert RunOf(inputs, queued)[..j][i] == Req(r, Answered(t));
  }

  /** after it was asked, and in the kind it was asked in. */
  lemma AnsweredInKind(inputs: seq<Input>, queued: nat, r: nat, t: Topic, j: nat)
    requires j < |RunOf(inputs, queued)| && RunOf(inputs, queued)[j] == Req(r, Answered(t))
    ensures exists i :: 0 <= i < j && RunOf(inputs, queued)[i] == Req(r, Asked(t))
  {
    var log := RunOf(inputs, queued);
    RunAllows(inputs, queued, j);
    var i :| 0 <= i < j && log[..j][i] == Req(r, Asked(t));
    assert log[i] == Req(r, Asked(t));
  }

  /** After the stop there is no request, no answer and no Ok reply. */
  lemma NothingAfterStop(inputs: seq<Input>, queued: nat, i: nat, j: nat)
    requires i < j < |RunOf(inputs, queued)| && RunOf(inputs, queued)[i] == Stopped
    ensures RunOf(inputs, queued)[j].Cmd? && RunOf(inputs, queued)[j].deed == Replied(Err(Closed))
  {
    RunAllows(inputs, queued, j);
    assert RunOf(inputs, queued)[..j][i] == Stopped;
  }

  /** A fatal reply, a failed or undelivered approval answer, a lost
      resolution, a moved reviewer or a hangup is followed by the stop at once. */
  lemma FatalStops(inputs: seq<Input>, queued: nat, i: nat)
    requires i < |RunOf(inputs, queued)| && IsFatal(RunOf(inputs, queued)[i])
    ensures i + 1 < |RunOf(inputs, queued)| && RunOf(inputs, queued)[i + 1] == Stopped
  {
    var log := RunOf(inputs, queued);
    RunIsWellFormed(inputs, queued);
    RunAllows(inputs, queued, i + 1);
    assert log[..i + 1][i] == log[i];
  }

  /** From here, denying the rest ends where denying them all from the start
      would; a failure leaves nothing to do. */
  predicate DenialsLeft(log: seq<Act>, table: Table, rest: seq<string>, denials: string -> Answering,
                        e: Option<WriteError>, log0: seq<Act>, table0: Table, ids: seq<string>) {
    var now, all := DenyEach(table, rest, denials), DenyEach(table0, ids, denials);
    log + now.0 == log0 + all.0 && now.1 == all.1 && (if e.None? then now.2 else e) == all.2
  }

  lemma DenialStep(log: seq<Act>, table: Table, rest: seq<string>, denials: string -> Answering,
                   log0: seq<Act>, table0: Table, ids: seq<string>)
    requires rest != [] && DenialsLeft(log, table, rest, denials, None, log0, table0, ids)
    ensures var id := rest[0];
            var acts := if id in table then DenialActs(table[id], denials(id)) else [];
            var e := if id in table then DenialError(denials(id)) else None;
            DenialsLeft(log + acts, table - {id}, if e.None? then rest[1..] else [], denials, e, log0, table0, ids)
  {
    var id := rest[0];
    if id in table {
      Assoc(log, DenialActs(table[id], denials(id)), DenyEach(table - {id}, rest[1..], denials).0);
    } else {
      assert table - {id} == table && log + [] == log;
    }
  }

  // ------------------------------------------------------- the actor itself

  class WriteActor {
    var log: seq<Act>
    var commands: nat
    var requests: nat
    var approvals: Table

    function Abstract(): State
      reads `commands, `requests, `approvals
    {
      State(commands, requests, approvals)
    }

    constructor ()
      ensures log == [] && Abstract() == INIT
    {
      log, commands, requests, approvals := [], 0, 0, map[];
    }

    method Emit(a: Act)
      modifies `log
      ensures log == old(log) + [a]
    {
      log := log + [a];
    }

    /** resolve */
    method Resolve(k: nat, resolution: Resolution, stores: Stores) returns (e: Option<WriteError>)
      modifies `log
      ensures log == old(log) + Settling(k, resolution, stores).0 && e == Settling(k, resolution, stores).1
    {
      match stores {
        case Took =>
          Emit(Cmd(k, Stored(resolution)));
          e := None;
        case Stale => e := Some(NotReady);
        case Broken => e := Some(Store);
      }
    }

    /** resolve_transport_failure, and the resolution of a mismatched response. */
    method Fail(k: nat, resolution: Resolution, stores: Stores, error: WriteError) returns (r: Result<nat, WriteError>)
      modifies `log
      ensures log == old(log) + Failed(k, resolution, stores, error).0
      ensures r == Failed(k, resolution, stores, error).1
    {
      var e := Resolve(k, resolution, stores);
      r := Err(if e.Some? then e.value else error);
    }

    /** The execute_* functions: one skeleton, with the checks of each kind. */
    method Execute(kind: Kind, k: nat, s: Script) returns (r: Result<nat, WriteError>)
      modifies `log
      ensures log == old(log) + Plan(kind, k, s).0 && r == Plan(kind, k, s).1
    {
      var e := PrepareAndMark(kind, k, s);
      if e.Some? {
        return Err(e.value);
      }
      ghost var before := BeforeCall(kind, k, s).0;
      Emit(Cmd(k, Called));
      r := Follow(kind, k, s);
      Assoc(old(log), before, [Cmd(k, Called)]);
      Assoc(old(log), before + [Cmd(k, Called)], AfterCall(kind, k, s).0);
    }

    /** Prepare the intent, check that the thread is free where the kind asks
        for it, and store the sent mark. */
    method PrepareAndMark(kind: Kind, k: nat, s: Script) returns (e: Option<WriteError>)
      modifies `log
      ensures log == old(log) + BeforeCall(kind, k, s).0 && e == BeforeCall(kind, k, s).1
    {
      if s.checks.Some? {
        return s.checks;
      }
      if PrepareError(s.prepare).Some? {
        return PrepareError(s.prepare);
      }
      Emit(Cmd(k, Prepared));
      if kind.Start? || kind.QueueStart? {
        if s.free.Failing? {
          return Some(s.free.error);
        }
        if s.free.No? {
          e := Resolve(k, Rejected, s.resolve);
          Assoc(old(log), [Cmd(k, Prepared)], Settling(k, Rejected, s.resolve).0);
          return if e.Some? then e else Some(Conflict);
        }
      }
      match s.mark {
        case Took =>
          Emit(Cmd(k, Sent));
          Assoc(old(log), [Cmd(k, Prepared)], [Cmd(k, Sent)]);
          return None;
        case Stale => return Some(NotReady);
        case Broken => return Some(Store);
      }
    }

    /** What follows the mutation request. */
    method Follow(kind: Kind, k: nat, s: Script) returns (r: Result<nat, WriteError>)
      modifies `log
      ensures log == old(log) + AfterCall(kind, k, s).0 && r == AfterCall(kind, k, s).1
    {
      match s.call {
        case ServerRejected => r := Fail(k, Rejected, s.resolve, Conflict);
        case Lost => r := Fail(k, Unresolved, s.resolve, Uncertain);
        case Response(id, matches) =>
          var probes := kind.Start? || (kind.Steer? && matches);
          if probes && s.confirmed.Failing? {
            return Err(s.confirmed.error);
          }
          if !kind.Interrupt? && (!matches || (probes && s.confirmed.No?)) {
            r := Fail(k, Unresolved, s.resolve, Ambiguous);
            return;
          }
          var e := Resolve(k, Applied(id), s.resolve);
          r := if e.Some? then Err(e.value) else Ok(id);
      }
    }

    /** One command, then its reply; a fatal result stops the actor. */
    method RunCommand(kind: Kind, s: Script) returns (next: Next)
      modifies `log, `commands
      ensures var o := TurnOf(old(Abstract()), Mutate(kind, s));
              log == old(log) + o.acts && Abstract() == o.state && next == o.next
    {
      var k := commands;
      commands := commands + 1;
      var r := Execute(kind, k, s);
      var reply := Cmd(k, Replied(r));
      Emit(reply);
      Assoc(old(log), Plan(kind, k, s).0, [reply]);
      next := if IsFatal(reply) then Break else Continue;
    }

    /** deny_one_approval */
    method DenyOne(id: string, a: Answering) returns (e: Option<WriteError>)
      modifies `log, `approvals
      ensures approvals == old(approvals) - {id}
      ensures e == if id in old(approvals) then DenialError(a) else None
      ensures log == old(log) + if id in old(approvals) then DenialActs(old(approvals)[id], a) else []
    {
      if id !in approvals {
        return None;
      }
      var p := approvals[id];
      approvals := approvals - {id};
      match a.claim {
        case Claimed =>
        case ClaimDuplicate | ClaimStale => return None;
        case ClaimUnauthorized => return Some(Unauthorized);
        case ClaimBroken => return Some(Store);
      }
      if !a.responding {
        return Some(Store);
      }
      Emit(Req(p.r, Answered(p.topic)));
      if !a.delivered {
        return Some(Uncertain);
      }
      return if a.closed then None else Some(Store);
    }

    /** resolve_pending_approval */
    method ResolvePending(i: Input) returns (e: Option<WriteError>)
      requires i.Decide?
      modifies `log, `approvals
      ensures var o := Resolved(old(Abstract()), i);
              log + Troubled(if e == Some(Uncertain) then e else None) == old(log) + o.acts && Abstract() == o.state &&
              o.next == if e == Some(Uncertain) then Break else Continue
    {
      if !i.authorized {
        return Some(Unauthorized);
      }
      if i.id !in approvals || approvals[i.id].responded || approvals[i.id].topic != i.topic {
        return Some(Conflict);
      }
      var p := approvals[i.id];
      match i.answering.claim {
        case Claimed =>
        case ClaimUnauthorized => return Some(Unauthorized);
        case ClaimDuplicate | ClaimStale => return Some(Conflict);
        case ClaimBroken => return Some(Store);
      }
      if !i.answering.responding {
        return Some(Store);
      }
      Emit(Req(p.r, Answered(p.topic)));
      if !i.answering.delivered {
        Assoc(old(log), [Req(p.r, Answered(p.topic))], Troubled(Some(Uncertain)));
        return Some(Uncertain);
      }
      approvals := approvals[i.id := p.(responded := true, deadline := i.until)];
      return None;
    }

    /** receive_approval: refused without a trace, or asked and waiting, or
        asked and at once denied because nobody could be prompted. */
    method ReceiveApproval(i: Input) returns (e: Option<WriteError>)
      requires i.Approval?
      modifies `log, `approvals, `requests
      ensures var o := Receive(old(Abstract()), i);
              log + Troubled(e) == old(log) + o.acts && Abstract() == o.state && o.next == Going(e)
    {
      e := Refusal(i, |approvals|);
      if e.Some? {
        return;
      }
      var p := Pending(requests, i.topic, i.key.value, i.deadline, false);
      requests := requests + 1;
      if i.prompted {
        Emit(Req(p.r, Asked(p.topic)));
        approvals := approvals[i.id := p];
      } else {
        e := AskAndDeny(i.id, p, i.denial);
      }
    }

    /** A request nobody can be prompted for. */
    method AskAndDeny(id: string, p: Pending, a: Answering) returns (e: Option<WriteError>)
      modifies `log, `approvals
      ensures e == DenialError(a) && approvals == old(approvals) - {id}
      ensures log + Troubled(e) == old(log) + ([Req(p.r, Asked(p.topic))] + DenialActs(p, a) + Troubled(e))
    {
      var asked := [Req(p.r, Asked(p.topic))];
      Emit(Req(p.r, Asked(p.topic)));
      approvals := approvals[id := p];
      e := DenyOne(id, a);
      assert approvals == old(approvals) - {id};
      Assoc(old(log), asked, DenialActs(p, a));
      Assoc(old(log), asked + DenialActs(p, a), Troubled(e));
    }

    /** settle_expired_approvals */
    method SettleExpired(now: nat, denials: string -> Answering, order: seq<string>) returns (e: Option<WriteError>)
      modifies `log, `approvals
      ensures var (acts, rest, failure) := Settle(old(approvals), now, denials, order);
              log == old(log) + acts && approvals == rest && e == failure
    {
      var unresolved := Listed(order, Overdue(approvals, now, true));
      if unresolved != [] {
        approvals := approvals - {unresolved[0]};
        return Some(Uncertain);
      }
      var expired := Listed(order, Overdue(approvals, now, false));
      e := DenyAll(expired, denials);
    }

    method DenyAll(ids: seq<string>, denials: string -> Answering) returns (e: Option<WriteError>)
      modifies `log, `approvals
      ensures DenialsLeft(log, approvals, [], denials, e, old(log), old(approvals), ids)
    {
      e := None;
      var i := 0;
      assert ids[0..] == ids;
      while i < |ids| && e.None?
        invariant 0 <= i <= |ids|
        invariant DenialsLeft(log, approvals, if e.None? then ids[i..] else [], denials, e,
                              old(log), old(approvals), ids)
      {
        assert ids[i..][0] == ids[i] && ids[i..][1..] == ids[i + 1..];
        DenialStep(log, approvals, ids[i..], denials, old(log), old(approvals), ids);
        e := DenyOne(ids[i], denials(ids[i]));
        i := i + 1;
      }
    }

    /** One turn of the actor's loop. */
    method Turn(i: Input) returns (next: Next)
      modifies this
      ensures var o := TurnOf(old(Abstract()), i);
              log == old(log) + o.acts && Abstract() == o.state && next == o.next
    {
      next := Continue;
      match i {
        case Mutate(kind, s) =>
          next := RunCommand(kind, s);
        case Approval(_, _, _, _, _, _, _, _) =>
          var e := ReceiveApproval(i);
          next := Report(e);
        case Settled(key, took) =>
          if key.Some? && took {
            approvals := Without(approvals, key.value);
          } else {
            Emit(Fault(ResolutionLost));
            next := Break;
          }
        case Tick(now, denials, order) =>
          if approvals != map[] {
            var e := SettleExpired(now, denials, order);
            next := Report(e);
            Assoc(old(log), Settle(old(approvals), now, denials, order).0, Troubled(e));
          }
        case Decide(_, _, _, _, _) =>
          var e := ResolvePending(i);
          next := Report(if e == Some(Uncertain) then e else None);
        case Reassign(valid, stores) =>
          next := if valid && approvals == map[] && stores == Took then Quit else Continue;
        case ReviewerChanged(same) =>
          if !same {
            Emit(Fault(ReviewerMoved));
            next := Break;
          }
        case Disconnected =>
          Emit(Fault(Hangup));
          next := Break;
        case Unrelated =>
        case Cancelled => next := Break;
        case Shutdown => next := Quit;
      }
    }

    /** A failed approval is fatal. */
    method Report(e: Option<WriteError>) returns (next: Next)
      modifies `log
      ensures log == old(log) + Troubled(e) && next == Going(e)
    {
      next := Going(e);
      if e.Some? {
        Emit(Fault(ApprovalFailed(e.value)));
      }
    }

    method RefuseQueued(queued: nat)
      modifies `log, `commands
      ensures log == old(log) + ClosedReplies(old(commands), queued)
    {
      ghost var target := log + ClosedReplies(commands, queued);
      for j := 0 to queued
        invariant target == log + ClosedReplies(commands, queued - j)
      {
        ghost var was := log;
        Emit(Cmd(commands, Replied(Err(Closed))));
        Assoc(was, [Cmd(commands, Replied(Err(Closed)))], ClosedReplies(commands + 1, queued - j - 1));
        commands := commands + 1;
      }
    }

    /** A turn that is the next step of a run. */
    method TurnToward(i: Input, ghost inputs: seq<Input>, ghost queued: nat, ghost target: seq<Act>)
      returns (next: Next)
      requires inputs != [] && inputs[0] == i && target == log + RunFrom(Abstract(), inputs, queued)
      modifies this
      ensures target == log + Rest(next, Abstract(), inputs[1..], queued)
    {
      ghost var was, o := log, TurnOf(Abstract(), i);
      next := Turn(i);
      Assoc(was, o.acts, Rest(o.next, o.state, inputs[1..], queued));
    }

    /** The actor's loop: turns until one says to stop or no input is left. */
    method Loop(inputs: seq<Input>, ghost queued: nat, ghost target: seq<Act>) returns (next: Next)
      requires target == log + RunFrom(Abstract(), inputs, queued)
      modifies this
      ensures target == log + Ending(next, commands, queued)
    {
      var i := 0;
      next := Continue;
      assert inputs[0..] == inputs;
      while next.Continue? && i < |inputs|
        invariant 0 <= i <= |inputs|
        invariant target == log + Rest(next, Abstract(), inputs[i..], queued)
        decreases |inputs| - i
      {
        assert inputs[i..][0] == inputs[i] && inputs[i..][1..] == inputs[i + 1..];
        next := TurnToward(inputs[i], inputs[i..], queued, target);
        i := i + 1;
      }
      RestEnds(next, Abstract(), inputs[i..], queued);
    }

    /** run_write_actor: the loop, then the stop, then a Closed reply to every
        command still queued unless the actor quit. */
    method Run(inputs: seq<Input>, queued: nat)
      requires log == [] && Abstract() == INIT
      modifies this
      ensures log == RunOf(inputs, queued)
    {
      ghost var target := RunOf(inputs, queued);
      LeftUnit(target);
      var next := Loop(inputs, queued, target);
      ghost var was, base := log, commands;
      Emit(Stopped);
      if !next.Quit? {
        RefuseQueued(queued);
        Assoc(was, [Stopped], ClosedReplies(base, queued));
      }
    }
  }

  /** The stop, and what follows it. */
  function Ending(next: Next, commands: nat, queued: nat): seq<Act> {
    if next.Quit? then [Stopped] else [Stopped] + ClosedReplies(commands, queued)
  }

  lemma RestEnds(next: Next, st: State, inputs: seq<Input>, queued: nat)
    requires next.Continue? ==> inputs == []
    ensures Rest(next, st, inputs, queued) == Ending(next, st.commands, queued)
  {
  }

  lemma LeftUnit(log: seq<Act>)
    ensures [] + log == log
  {
  }
}
