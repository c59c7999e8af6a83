/**
 Starting a turn (src/codex/client.rs, `start_turn`, `PendingTurnStartGuard`):
 a non-idempotent request between a registration with the router and an
 observation by it. The call's commands go through the router, among whatever
 else the router handles meanwhile. Every wait can end in an answer, an error,
 or the caller dropping the future; a script lists how each one ends.
 */
module TurnStart {
  import opened Wrappers
  import opened ClientEvents
  import R = Router
  import RP = RouterPending

  datatype RpcError =
    | Timeout | Server | ActiveWriter | ConnectionLost | AlreadyInitialized | Serialize | Deserialize
    | PayloadTooLarge | UnknownServerRequest | RequestIdExhausted

  datatype ClientError =
    | Rpc(error: RpcError) | RouterClosed | RouterTaskFailed | RouterTimeout | Capacity | ControlEventsTaken
    | ConfirmedThreadUntracked | ConfirmedTurnUntracked(turn: Turn) | InvalidNotification

  /** definitely_not_applied */
  predicate NotApplied(e: RpcError) {
    e.Serialize? || e.PayloadTooLarge? || e.RequestIdExhausted? || e.Server? || e.ActiveWriter?
  }

  /** turn_start_definitely_not_applied */
  predicate DefinitelyNotApplied(e: ClientError) {
    match e
    case Rpc(r) => NotApplied(r)
    case ConfirmedThreadUntracked | ConfirmedTurnUntracked(_) => false
    case _ => true
  }

  /** How a router round trip looks to the caller. */
  datatype Seen = Answered(yes: bool) | Closed | TimedOut | Dropped

  /** One command to the router. `between` is what the router handles before
      it. A caller may give up before the router answers (`Early`), or just as
      it does, so that the answer is sent and never read (`Late`). */
  datatype Patience = Patient | Late | Early

  datatype Trip =
    | Unsent(why: Seen)
    | Sent(between: seq<R.Input>, hint: ThreadId, patience: Patience, dropped: bool)

  /** `executed`: whether Codex ran the request, which the caller cannot see. */
  datatype Response = Confirmed(turn: Turn) | Undecodable | Rejected(error: RpcError, executed: bool) | Interrupted

  datatype Script = Script(
    encodes: bool,
    ensure: Trip,
    begin: Trip,
    meanwhile: seq<R.Input>,
    response: Response,
    abortQueued: bool,
    observe: Trip)

  datatype Exit = Returned(turn: Turn) | Failed(error: ClientError) | Abandoned

  /** `world` is the router once it has handled what the call sent. `aborting`: an
      AbortTurnStart is queued. `sent`, `confirmed`: the request left the
      client, and its success came back. `tracked`: the router accepted the
      observation of the turn. */
  datatype State = State(world: R.World, aborting: bool, faulted: bool, cancelled: bool, sent: bool,
                         confirmed: bool, tracked: bool)

  function Idle(w: R.World): State { State(w, false, false, false, false, false, false) }

  /** The router when it comes to the command of the trip. */
  function Before(w: R.World, trip: Trip): R.World {
    if trip.Sent? then RP.RunFrom(w, trip.between) else w
  }

  /** What the caller sees when the router, still running, answers `yes`. A
      router that has exited drops the command and closes the answer. */
  function See(trip: Trip, v: R.World, yes: bool): Seen {
    match trip
    case Unsent(why) => if why.Answered? then Closed else why
    case Sent(_, _, patience, dropped) =>
      if patience.Early? || (patience.Late? && !v.exited) then (if dropped then Dropped else TimedOut)
      else if v.exited then Closed
      else Answered(yes)
  }

  function Carry(w: R.World, trip: Trip, c: R.Command): R.World {
    if trip.Sent? then R.Step(Before(w, trip), R.Cmd(c)) else w
  }

  function Hint(trip: Trip): ThreadId { if trip.Sent? then trip.hint else "" }

  function RouterFailure(seen: Seen): Exit {
    match seen
    case Answered(_) => Failed(Capacity)
    case Closed => Failed(RouterClosed)
    case TimedOut => Failed(RouterTimeout)
    case Dropped => Abandoned
  }

  /** The guard's drop: an armed guard faults and cancels the epoch. */
  function FailClosed(s: State): State { s.(faulted := true, cancelled := true) }

  // ------------------------------------------------ the three round trips

  /** ensure_thread_route */
  function Ensured(w: R.World, t: ThreadId, trip: Trip): (Seen, R.World) {
    var v := Before(w, trip);
    (See(trip, v, R.RouteForUpdate(v, t, Hint(trip)).1), Carry(w, trip, R.Ensure(t, Hint(trip))))
  }

  /** begin_turn_start: the acknowledgement fails when nobody waits for it. */
  function Begun(w: R.World, t: ThreadId, attempt: nat, trip: Trip): (Seen, R.World) {
    var v := Before(w, trip);
    (See(trip, v, R.BeginStart(v, t, attempt, Hint(trip)).1),
     Carry(w, trip, R.Begin(t, attempt, Hint(trip), trip.Sent? && !trip.patience.Early?)))
  }

  /** ObserveTurnStarted: answered before deferred notifications are replayed. */
  function Observed(w: R.World, t: ThreadId, attempt: nat, turn: Turn, trip: Trip): (Seen, R.World) {
    var v := Before(w, trip);
    (See(trip, v, R.StartTurn(v, t, turn, Hint(trip)).1), Carry(w, trip, R.ObserveTurn(t, attempt, turn, Hint(trip))))
  }

  // ------------------------------------------------------ start_turn

  function Told(seen: Seen, turn: Turn, st: State): (Exit, State) {
    match seen
    case Answered(true) => (Returned(turn), st)
    case Dropped => (Abandoned, FailClosed(st))
    case _ => (Failed(ConfirmedTurnUntracked(turn)), FailClosed(st))
  }

  /** The router comes to the observation and accepts the turn. */
  predicate Accepts(w: R.World, t: ThreadId, turn: Turn, trip: Trip) {
    var v := Before(w, trip);
    trip.Sent? && !v.exited && R.StartTurn(v, t, turn, trip.hint).1
  }

  function Observe(t: ThreadId, attempt: nat, s: Script, turn: Turn, st: State): (Exit, State) {
    var (seen, w) := Observed(st.world, t, attempt, turn, s.observe);
    Told(seen, turn, st.(world := w, tracked := Accepts(st.world, t, turn, s.observe)))
  }

  /** The request failed, or its response could not be used. */
  function Refused(response: Response, abortQueued: bool, st: State): (Exit, State)
    requires !response.Confirmed?
  {
    match response
    case Undecodable => (Failed(Rpc(Deserialize)), FailClosed(st.(confirmed := true)))
    case Interrupted => (Abandoned, FailClosed(st))
    case Rejected(e, _) =>
      if !NotApplied(e) then (Failed(Rpc(e)), FailClosed(st))
      else (Failed(Rpc(e)), if abortQueued then st.(aborting := true) else st.(cancelled := true))
  }

  /** What the guard covers: the request, and the observation of its success. */
  function Request(t: ThreadId, attempt: nat, s: Script, w: R.World): (Exit, State) {
    var st := Idle(RP.RunFrom(w, s.meanwhile)).(sent := true);
    if s.response.Confirmed? then Observe(t, attempt, s, s.response.turn, st.(confirmed := true))
    else Refused(s.response, s.abortQueued, st)
  }

  /** start_turn for a thread, with a fresh attempt id, from any router state. */
  function StartOutcome(w: R.World, t: ThreadId, attempt: nat, s: Script): (Exit, State) {
    if !s.encodes then (Failed(Rpc(Serialize)), Idle(w))
    else if !R.ValidId(t) then (Failed(Capacity), Idle(w))
    else
      var (ensured, v) := Ensured(w, t, s.ensure);
      if ensured != Answered(true) then (RouterFailure(ensured), Idle(v))
      else
        var (begun, u) := Begun(v, t, attempt, s.begin);
        if begun != Answered(true) then (RouterFailure(begun), Idle(u))
        else Request(t, attempt, s, u)
  }

  /** No route knows the attempt yet, and nobody else will name it. */
  predicate FreshAttempt(w: R.World, attempt: nat, s: Script) {
    && RP.Unknown(w, attempt, {}) && RP.Unrelated(s.meanwhile, attempt)
    && (s.ensure.Sent? ==> RP.Unrelated(s.ensure.between, attempt))
    && (s.begin.Sent? ==> RP.Unrelated(s.begin.between, attempt))
    && (s.observe.Sent? ==> RP.Unrelated(s.observe.between, attempt))
  }

  // --------------------------------------------------------- properties

  /** The exit returns a turn the router accepted; or reports a failure
      classified as definitely not applied after no confirmed request; or was
      dropped before anything was sent; or leaves the epoch faulted and
      cancelled. */
  predicate FailedClosed(response: Response, exit: Exit, st: State) {
    match exit
    case Returned(turn) => response == Confirmed(turn) && st.tracked && !st.faulted && !st.cancelled
    case Failed(e) =>
      if DefinitelyNotApplied(e) then !st.confirmed && !st.faulted else st.sent && st.faulted && st.cancelled
    case Abandoned => (!st.sent && !st.faulted) || (st.faulted && st.cancelled)
  }

  lemma SeenIsAccepted(w: R.World, t: ThreadId, attempt: nat, turn: Turn, trip: Trip)
    ensures Observed(w, t, attempt, turn, trip).0 == Answered(true) ==> Accepts(w, t, turn, trip)
  {
    var yes := R.StartTurn(Before(w, trip), t, turn, Hint(trip)).1;
    assert See(trip, Before(w, trip), yes) == Answered(true) ==> trip.Sent? && !Before(w, trip).exited && yes;
  }

  lemma ToldFailsClosed(seen: Seen, turn: Turn, st: State)
    requires st.sent && st.confirmed && !st.faulted && !st.cancelled && (seen == Answered(true) ==> st.tracked)
    ensures FailedClosed(Confirmed(turn), Told(seen, turn, st).0, Told(seen, turn, st).1)
  {
  }

  lemma RefusedFailsClosed(response: Response, abortQueued: bool, st: State)
    requires !response.Confirmed? && st.sent && !st.confirmed && !st.faulted
    ensures FailedClosed(response, Refused(response, abortQueued, st).0, Refused(response, abortQueued, st).1)
  {
  }

  lemma RequestFailsClosed(t: ThreadId, attempt: nat, s: Script, w: R.World)
    ensures FailedClosed(s.response, Request(t, attempt, s, w).0, Request(t, attempt, s, w).1)
  {
    var v := RP.RunFrom(w, s.meanwhile);
    if s.response.Confirmed? {
      var turn := s.response.turn;
      SeenIsAccepted(v, t, attempt, turn, s.observe);
      var (seen, u) := Observed(v, t, attempt, turn, s.observe);
      ToldFailsClosed(seen, turn, State(u, false, false, false, true, true, Accepts(v, t, turn, s.observe)));
    } else {
      RefusedFailsClosed(s.response, s.abortQueued, State(v, false, false, false, true, false, false));
    }
  }

  lemma RouterFailureFailsClosed(response: Response, seen: Seen, w: R.World)
    ensures FailedClosed(response, RouterFailure(seen), Idle(w))
  {
  }

  /** Every exit of start_turn, for every router state and every script. */
  lemma StartFailsClosed(w: R.World, t: ThreadId, attempt: nat, s: Script)
    ensures FailedClosed(s.response, StartOutcome(w, t, attempt, s).0, StartOutcome(w, t, attempt, s).1)
  {
    var (ensured, v) := Ensured(w, t, s.ensure);
    var (begun, u) := Begun(v, t, attempt, s.begin);
    RouterFailureFailsClosed(s.response, ensured, v);
    RouterFailureFailsClosed(s.response, begun, u);
    RequestFailsClosed(t, attempt, s, u);
  }

  /** Codex may have run the request: it answered with success, it said so, or
      nobody waited for the answer. */
  predicate MayHaveRun(response: Response) { response.Rejected? ==> response.executed }

  /** A request that never left the client, or that the server refused, did not
      run. */
  predicate Truthful(response: Response) {
    response.Rejected? && response.executed ==>
      response.error.Timeout? || response.error.ConnectionLost? || response.error.AlreadyInitialized? ||
      response.error.Deserialize? || response.error.UnknownServerRequest?
  }

  /** Whenever the request may have run, the call returns the turn or leaves the
      epoch faulted and cancelled; it never reports "definitely not applied". */
  lemma WhatMayHaveRunIsNotDenied(w: R.World, t: ThreadId, attempt: nat, s: Script)
    requires Truthful(s.response) && MayHaveRun(s.response) && StartOutcome(w, t, attempt, s).1.sent
    ensures var (exit, st) := StartOutcome(w, t, attempt, s);
            exit.Returned? || (st.faulted && st.cancelled && (exit.Failed? ==> !DefinitelyNotApplied(exit.error)))
  {
    var v := Ensured(w, t, s.ensure).1;
    RequestRunsClosed(t, attempt, s, Begun(v, t, attempt, s.begin).1);
  }

  lemma RequestRunsClosed(t: ThreadId, attempt: nat, s: Script, w: R.World)
    requires Truthful(s.response) && MayHaveRun(s.response)
    ensures var (exit, st) := Request(t, attempt, s, w);
            exit.Returned? || (st.faulted && st.cancelled && (exit.Failed? ==> !DefinitelyNotApplied(exit.error)))
  {
  }

  /** The caller reads a yes exactly when it was sent, waited for and given. */
  predicate SaysYes(trip: Trip, v: R.World, yes: bool) {
    trip.Sent? && trip.patience.Patient? && !v.exited && yes
  }

  lemma YesMeans(trip: Trip, v: R.World, yes: bool)
    ensures See(trip, v, yes) == Answered(true) <==> SaysYes(trip, v, yes)
  {
  }

  /** The router let the call go as far as its request. */
  predicate Admitted(w: R.World, t: ThreadId, attempt: nat, s: Script) {
    && s.encodes && R.ValidId(t)
    && SaysYes(s.ensure, Before(w, s.ensure), R.RouteForUpdate(Before(w, s.ensure), t, Hint(s.ensure)).1)
    && var v := Ensured(w, t, s.ensure).1;
       SaysYes(s.begin, Before(v, s.begin), R.BeginStart(Before(v, s.begin), t, attempt, Hint(s.begin)).1)
  }

  function AtRequest(w: R.World, t: ThreadId, attempt: nat, s: Script): R.World {
    Begun(Ensured(w, t, s.ensure).1, t, attempt, s.begin).1
  }

  lemma AdmittedMeans(w: R.World, t: ThreadId, attempt: nat, s: Script)
    ensures Admitted(w, t, attempt, s) ==>
              StartOutcome(w, t, attempt, s) == Request(t, attempt, s, AtRequest(w, t, attempt, s))
    ensures !Admitted(w, t, attempt, s) ==> !StartOutcome(w, t, attempt, s).1.sent
  {
    var v := Ensured(w, t, s.ensure).1;
    YesMeans(s.ensure, Before(w, s.ensure), R.RouteForUpdate(Before(w, s.ensure), t, Hint(s.ensure)).1);
    YesMeans(s.begin, Before(v, s.begin), R.BeginStart(Before(v, s.begin), t, attempt, Hint(s.begin)).1);
  }

  lemma RequestReturns(t: ThreadId, attempt: nat, s: Script, w: R.World, turn: Turn)
    ensures var u := RP.RunFrom(w, s.meanwhile);
            Request(t, attempt, s, w).0 == Returned(turn) <==>
            s.response == Confirmed(turn) && s.observe.Sent? && s.observe.patience.Patient? &&
            Accepts(u, t, turn, s.observe)
  {
    var u := RP.RunFrom(w, s.meanwhile);
    YesMeans(s.observe, Before(u, s.observe), R.StartTurn(Before(u, s.observe), t, turn, Hint(s.observe)).1);
  }

  /** The call returns a turn exactly when the router admitted it, Codex
      confirmed that turn, and the router accepted the observation and was
      heard. */
  lemma ReturnsExactly(w: R.World, t: ThreadId, attempt: nat, s: Script, turn: Turn)
    ensures var u := RP.RunFrom(AtRequest(w, t, attempt, s), s.meanwhile);
            StartOutcome(w, t, attempt, s).0 == Returned(turn) <==>
            Admitted(w, t, attempt, s) && s.response == Confirmed(turn) && s.observe.Sent? &&
            s.observe.patience.Patient? && Accepts(u, t, turn, s.observe)
  {
    AdmittedMeans(w, t, attempt, s);
    if Admitted(w, t, attempt, s) {
      RequestReturns(t, attempt, s, AtRequest(w, t, attempt, s), turn);
    } else {
      NeverReturns(w, t, attempt, s);
    }
  }

  lemma NeverReturns(w: R.World, t: ThreadId, attempt: nat, s: Script)
    requires !StartOutcome(w, t, attempt, s).1.sent
    ensures !StartOutcome(w, t, attempt, s).0.Returned?
  {
    StartFailsClosed(w, t, attempt, s);
    RequestSends(t, attempt, s, AtRequest(w, t, attempt, s));
  }

  lemma RequestSends(t: ThreadId, attempt: nat, s: Script, w: R.World)
    ensures Request(t, attempt, s, w).1.sent
  {
  }

  /** A round trip to the router that ends like this. */
  predicate EndsIn(trip: Trip, v: R.World, yes: bool, e: ClientError) {
    match e
    case Capacity => SaysYes(trip, v, !yes)
    case RouterClosed => (trip.Unsent? && (trip.why.Answered? || trip.why.Closed?)) ||
                         (trip.Sent? && v.exited && !trip.patience.Early?)
    case RouterTimeout => (trip.Unsent? && trip.why.TimedOut?) ||
                          (trip.Sent? && !trip.dropped && (trip.patience.Early? || (trip.patience.Late? && !v.exited)))
    case _ => false
  }

  lemma FailureMeans(trip: Trip, v: R.World, yes: bool, e: ClientError)
    requires RouterFailure(See(trip, v, yes)) == Failed(e) && See(trip, v, yes) != Answered(true)
    ensures EndsIn(trip, v, yes, e)
  {
  }

  /** What the call reports is what happened. */
  predicate Explains(w: R.World, t: ThreadId, attempt: nat, s: Script, e: ClientError) {
    var v := Ensured(w, t, s.ensure).1;
    || (e == Rpc(Serialize) && !s.encodes)
    || (e == Capacity && !R.ValidId(t))
    || EndsIn(s.ensure, Before(w, s.ensure), R.RouteForUpdate(Before(w, s.ensure), t, Hint(s.ensure)).1, e)
    || EndsIn(s.begin, Before(v, s.begin), R.BeginStart(Before(v, s.begin), t, attempt, Hint(s.begin)).1, e)
    || (s.response.Rejected? && e == Rpc(s.response.error))
    || (s.response.Undecodable? && e == Rpc(Deserialize))
    || (s.response.Confirmed? && e == ConfirmedTurnUntracked(s.response.turn))
  }

  lemma RequestErrors(t: ThreadId, attempt: nat, s: Script, w: R.World)
    ensures var exit := Request(t, attempt, s, w).0;
            exit.Failed? ==>
              || (s.response.Rejected? && exit.error == Rpc(s.response.error))
              || (s.response.Undecodable? && exit.error == Rpc(Deserialize))
              || (s.response.Confirmed? && exit.error == ConfirmedTurnUntracked(s.response.turn))
  {
  }

  lemma ErrorsAreTruthful(w: R.World, t: ThreadId, attempt: nat, s: Script)
    requires StartOutcome(w, t, attempt, s).0.Failed?
    ensures Explains(w, t, attempt, s, StartOutcome(w, t, attempt, s).0.error)
  {
    var e := StartOutcome(w, t, attempt, s).0.error;
    if s.encodes && R.ValidId(t) {
      var yes := R.RouteForUpdate(Before(w, s.ensure), t, Hint(s.ensure)).1;
      var (ensured, v) := Ensured(w, t, s.ensure);
      if ensured != Answered(true) {
        FailureMeans(s.ensure, Before(w, s.ensure), yes, e);
      } else {
        var accepted := R.BeginStart(Before(v, s.begin), t, attempt, Hint(s.begin)).1;
        var (begun, u) := Begun(v, t, attempt, s.begin);
        if begun != Answered(true) {
          FailureMeans(s.begin, Before(v, s.begin), accepted, e);
        } else {
          RequestErrors(t, attempt, s, u);
        }
      }
    }
  }

  /** A failure classified as definitely not applied never follows a confirmed request. */
  lemma ConfirmedIsNeverDenied(w: R.World, t: ThreadId, attempt: nat, s: Script)
    requires StartOutcome(w, t, attempt, s).1.confirmed && StartOutcome(w, t, attempt, s).0.Failed?
    ensures !DefinitelyNotApplied(StartOutcome(w, t, attempt, s).0.error)
  {
    StartFailsClosed(w, t, attempt, s);
  }

  /** The router, still running, accepts the start and acknowledges it, and the
      caller gives up without reading the acknowledgement. */
  predicate Orphaned(w: R.World, t: ThreadId, attempt: nat, s: Script) {
    && s.encodes && R.ValidId(t)
    && var (ensured, v) := Ensured(w, t, s.ensure);
       var u := Before(v, s.begin);
       && ensured == Answered(true) && s.begin.Sent? && s.begin.patience.Late? && !u.exited
       && R.BeginStart(u, t, attempt, s.begin.hint).1
  }

  /** The router runs on, the route of the thread still waits for this attempt,
      and nothing this call did will end that. */
  predicate LeftPending(st: State, t: ThreadId, attempt: nat) {
    !st.world.exited && RP.Waits(st.world, t, attempt) && !st.aborting && !st.cancelled
  }

  lemma CarryUnknown(w: R.World, trip: Trip, c: R.Command, attempt: nat, but: set<ThreadId>)
    requires RP.Unknown(w, attempt, but) && (trip.Sent? ==> RP.Unrelated(trip.between, attempt))
    requires !RP.NamesAttempt(c, attempt)
    ensures RP.Unknown(Before(w, trip), attempt, but) && RP.Unknown(Carry(w, trip, c), attempt, but)
  {
    if trip.Sent? {
      RP.UnknownSurvives(w, trip.between, attempt, but);
      RP.StepUnknown(Before(w, trip), R.Cmd(c), attempt, but);
    }
  }

  /** After the command to begin: the route waits exactly when the router
      accepted it and could acknowledge. */
  lemma BegunPending(w: R.World, t: ThreadId, attempt: nat, trip: Trip)
    requires RP.Unknown(w, attempt, {}) && (trip.Sent? ==> RP.Unrelated(trip.between, attempt))
    ensures var (seen, v) := Begun(w, t, attempt, trip);
            var u := Before(w, trip);
            var accepted := trip.Sent? && !u.exited && R.BeginStart(u, t, attempt, Hint(trip)).1;
            && RP.Unknown(v, attempt, {t}) && (accepted && !trip.patience.Early? ==> !v.exited)
            && (RP.Waits(v, t, attempt) <==> accepted && !trip.patience.Early?)
            && (seen == Answered(true) <==> accepted && trip.patience.Patient?)
  {
    if trip.Sent? {
      var u := Before(w, trip);
      RP.UnknownSurvives(w, trip.between, attempt, {});
      if !u.exited {
        RP.BeginPending(u, t, attempt, trip.hint, !trip.patience.Early?);
      }
    }
  }

  /** Once observed, nothing waits for the attempt. */
  lemma ObservedSettles(w: R.World, t: ThreadId, attempt: nat, turn: Turn, trip: Trip)
    requires RP.Unknown(w, attempt, {t}) && trip.Sent? && RP.Unrelated(trip.between, attempt)
    ensures var v := Observed(w, t, attempt, turn, trip).1;
            v.exited || !RP.Waits(v, t, attempt)
  {
    var v := Before(w, trip);
    RP.UnknownSurvives(w, trip.between, attempt, {t});
    if !v.exited {
      RP.ObserveUnknown(v, t, attempt, turn, trip.hint, attempt, {t});
    }
  }

  /** A call that got as far as the request leaves nothing pending. */
  lemma RequestSettles(t: ThreadId, attempt: nat, s: Script, w: R.World)
    requires RP.Unknown(w, attempt, {t}) && RP.Unrelated(s.meanwhile, attempt)
    requires s.observe.Sent? ==> RP.Unrelated(s.observe.between, attempt)
    ensures !LeftPending(Request(t, attempt, s, w).1, t, attempt)
  {
    if s.response.Confirmed? && s.observe.Sent? {
      RP.UnknownSurvives(w, s.meanwhile, attempt, {t});
      ObservedSettles(RP.RunFrom(w, s.meanwhile), t, attempt, s.response.turn, s.observe);
    }
  }

  /** The registration outlives the call, with no abort queued and the epoch
      not cancelled, exactly when the router's acceptance was orphaned. */
  lemma SettledUnlessOrphaned(w: R.World, t: ThreadId, attempt: nat, s: Script)
    requires FreshAttempt(w, attempt, s)
    ensures LeftPending(StartOutcome(w, t, attempt, s).1, t, attempt) <==> Orphaned(w, t, attempt, s)
  {
    if s.encodes && R.ValidId(t) {
      CarryUnknown(w, s.ensure, R.Ensure(t, Hint(s.ensure)), attempt, {});
      var (ensured, v) := Ensured(w, t, s.ensure);
      if ensured == Answered(true) {
        BegunPending(v, t, attempt, s.begin);
        RequestSettles(t, attempt, s, Begun(v, t, attempt, s.begin).1);
      }
    }
  }

  /** A queued abort, handled after anything else, ends the wait. */
  lemma AbortSettles(w: R.World, t: ThreadId, attempt: nat, later: seq<R.Input>)
    requires RP.Unknown(w, attempt, {t}) && RP.Unrelated(later, attempt)
    ensures var v := R.Step(RP.RunFrom(w, later), R.Cmd(R.Abort(t, attempt)));
            v.exited || RP.Unknown(v, attempt, {})
  {
    var v := RP.RunFrom(w, later);
    RP.UnknownSurvives(w, later, attempt, {t});
    if !v.exited {
      RP.FinishUnknown(v, t, attempt, attempt, {t});
      assert {t} - {t} == {};
    }
  }

  /** An orphaned start refuses every later start of its thread, whatever else
      the router handles, until the router exits. */
  lemma OrphanBlocks(
      w: R.World, t: ThreadId, attempt: nat, s: Script, later: seq<R.Input>, other: nat, hint: ThreadId)
    requires FreshAttempt(w, attempt, s) && Orphaned(w, t, attempt, s) && RP.Unrelated(later, attempt)
    ensures var v := RP.RunFrom(StartOutcome(w, t, attempt, s).1.world, later);
            v.exited || !R.BeginStart(v, t, other, hint).1
  {
    SettledUnlessOrphaned(w, t, attempt, s);
    var st := StartOutcome(w, t, attempt, s).1;
    if !RP.RunFrom(st.world, later).exited {
      RP.UnfinishedStartBlocks(st.world, later, t, attempt, other, hint);
    }
  }

  /** A round trip with nothing in between. */
  function Quick(patience: Patience): Trip { Sent([], "", patience, false) }

  /** One orphaned start, on a new router: the acknowledgement is sent just as
      the caller's wait times out. The caller is told "definitely not applied",
      no guard exists yet, and the route keeps waiting. */
  lemma OrphanLeaksPendingStart()
    ensures var s := Script(true, Quick(Patient), Quick(Late), [], Interrupted, true, Quick(Patient));
            var (exit, st) := StartOutcome(R.START, "t", 0, s);
            && FreshAttempt(R.START, 0, s) && Orphaned(R.START, "t", 0, s)
            && exit == Failed(RouterTimeout) && DefinitelyNotApplied(RouterTimeout) && LeftPending(st, "t", 0)
  {
    var s := Script(true, Quick(Patient), Quick(Late), [], Interrupted, true, Quick(Patient));
    assert FreshAttempt(R.START, 0, s);
    assert RP.RunFrom(R.START, []) == R.START;
    var (ensured, v) := Ensured(R.START, "t", s.ensure);
    assert R.Prune(R.START) == R.START;
    assert v == R.SetRoute(R.START, "t", R.NEW_ROUTE);
    assert RP.RunFrom(v, []) == v;
    SettledUnlessOrphaned(R.START, "t", 0, s);
  }

  // ------------------------------------------------- the guard in action

  /** PendingTurnStartGuard over the state of its epoch. */
  class TurnStarter {
    var armed: bool
    var state: State

    constructor (w: R.World)
      ensures !armed && state == Idle(w)
    {
      armed, state := false, Idle(w);
    }

    method Arm()
      modifies `armed
      ensures armed
    {
      armed := true;
    }

    method Disarm()
      modifies `armed
      ensures !armed
    {
      armed := false;
    }

    method AbortKnownFailure(queued: bool)
      modifies this
      ensures !armed
      ensures state == if !old(armed) then old(state)
                       else if queued then old(state).(aborting := true) else old(state).(cancelled := true)
    {
      if armed {
        armed := false;
        if queued {
          state := state.(aborting := true);
        } else {
          state := state.(cancelled := true);
        }
      }
    }

    /** Runs whenever start_turn leaves, by return, error or cancellation. */
    method DropGuard()
      modifies this
      ensures !armed && state == if old(armed) then FailClosed(old(state)) else old(state)
    {
      if armed {
        armed := false;
        state := state.(faulted := true);
        state := state.(cancelled := true);
      }
    }

    method StartTurn(t: ThreadId, attempt: nat, s: Script) returns (exit: Exit)
      requires state == Idle(state.world) && !armed
      modifies this
      ensures !armed && (exit, state) == StartOutcome(old(state.world), t, attempt, s)
    {
      if !s.encodes {
        return Failed(Rpc(Serialize));
      }
      if !R.ValidId(t) {
        return Failed(Capacity);
      }
      var (ensured, v) := Ensured(state.world, t, s.ensure);
      state := state.(world := v);
      if ensured != Answered(true) {
        return RouterFailure(ensured);
      }
      var (begun, u) := Begun(state.world, t, attempt, s.begin);
      state := state.(world := u);
      if begun != Answered(true) {
        return RouterFailure(begun);
      }
      Arm();
      exit := Guarded(t, attempt, s);
      DropGuard();
    }

    /** The part of start_turn the guard covers. */
    method Guarded(t: ThreadId, attempt: nat, s: Script) returns (exit: Exit)
      requires armed && state == Idle(state.world)
      modifies this
      ensures (exit, if armed then FailClosed(state) else state) == Request(t, attempt, s, old(state.world))
    {
      state := state.(world := RP.RunFrom(state.world, s.meanwhile), sent := true);
      match s.response {
        case Interrupted => return Abandoned;
        case Undecodable =>
          state := state.(confirmed := true);
          return Failed(Rpc(Deserialize));
        case Rejected(e, _) =>
          if NotApplied(e) {
            AbortKnownFailure(s.abortQueued);
          }
          return Failed(Rpc(e));
        case Confirmed(turn) =>
          state := state.(confirmed := true);
          var accepted := Accepts(state.world, t, turn, s.observe);
          var (seen, w) := Observed(state.world, t, attempt, turn, s.observe);
          state := state.(world := w, tracked := accepted);
          if seen == Answered(true) {
            Disarm();
            return Returned(turn);
          }
          return if seen.Dropped? then Abandoned else Failed(ConfirmedTurnUntracked(turn));
      }
    }
  }
}
