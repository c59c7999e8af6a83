/** A pending turn start stays until its own attempt is finished. */
module RouterPending {
  import opened Wrappers
  import opened ClientEvents
  import NameOrder
  import P = Projection
  import opened Router
  import RouterLimits

  /** Route t waits for the given attempt. */
  predicate Waits(w: World, t: ThreadId, attempt: nat) {
    t in w.routes && w.routes[t].pending == Some(attempt)
  }

  lemma LookupWaits(w: World, u: ThreadId, hint: ThreadId, t: ThreadId, attempt: nat)
    requires Waits(w, t, attempt)
    ensures Waits(RouteForUpdate(w, u, hint).0, t, attempt)
    ensures RouteForUpdate(w, u, hint).1 ==> u in RouteForUpdate(w, u, hint).0.routes
  {
    if ValidId(u) && u !in Prune(w).routes && IdleRoutes(Prune(w)) != {} {
      assert t !in IdleRoutes(Prune(w));
    }
  }

  lemma UpdateWaits(w: World, u: ThreadId, n: P.Notice, hint: ThreadId, t: ThreadId, attempt: nat)
    requires Waits(w, t, attempt)
    ensures Waits(Update(w, u, n, hint).0, t, attempt)
  {
    LookupWaits(w, u, hint, t, attempt);
    var (v, found) := RouteForUpdate(w, u, hint);
    if found {
      var (q, effect) := P.Apply(v.routes[u].p, u, n);
      RouterLimits.ActRoute(v, u, q, effect);
    }
  }

  lemma DirectWaits(w: World, r: Raw, t: ThreadId, attempt: nat)
    requires Waits(w, t, attempt)
    ensures Waits(Direct(w, r).0, t, attempt)
  {
    if !r.call.CDelta? && !r.call.COther? && Decoded(r.call).Some? {
      UpdateWaits(w, Decoded(r.call).value.0, Decoded(r.call).value.1, r.hint, t, attempt);
    }
  }

  lemma {:induction false} ReplayWaits(w: World, rs: seq<Late>, t: ThreadId, attempt: nat)
    requires Waits(w, t, attempt)
    ensures Waits(Replay(w, rs).0, t, attempt)
  {
    if rs != [] {
      ReplayWaits(w, rs[..|rs| - 1], t, attempt);
      LateWaits(Replay(w, rs[..|rs| - 1]).0, rs[|rs| - 1], t, attempt);
    }
  }

  lemma LateWaits(w: World, r: Late, t: ThreadId, attempt: nat)
    requires Waits(w, t, attempt)
    ensures Waits(NotifyLate(w, r).0, t, attempt)
  {
    if !Defers(w, r) { DirectWaits(w, r, t, attempt); }
  }

  lemma StopWaits(w: World, u: ThreadId, t: ThreadId, attempt: nat)
    requires Waits(w, t, attempt)
    ensures Waits(StopDeferring(w, u).0, t, attempt)
  {
    if u in w.routes {
      var v := SetRoute(w, u, w.routes[u].(defer := false, deferred := [], deferredBytes := 0));
      ReplayWaits(v, w.routes[u].deferred, t, attempt);
    }
  }

  lemma NotifyWaits(w: World, r: Raw, t: ThreadId, attempt: nat)
    requires Waits(w, t, attempt)
    ensures Waits(Notify(w, r).0, t, attempt)
  {
    match r.call {
      case CTurnUp(Some((u, turn))) =>
        UpdateWaits(w, u, P.TurnUp(turn), r.hint, t, attempt);
        StopWaits(StartTurn(w, u, turn, r.hint).0, u, t, attempt);
      case CTurnUp(None) =>
      case _ => LateWaits(w, r, t, attempt);
    }
  }

  /** Finishing some other attempt. */
  lemma FinishWaits(w: World, u: ThreadId, other: nat, t: ThreadId, attempt: nat)
    requires Waits(w, t, attempt) && other != attempt
    ensures Waits(FinishTurnStart(w, u, other).0, t, attempt)
  {
    if u in w.routes && w.routes[u].pending == Some(other) {
      StopWaits(SetRoute(w, u, w.routes[u].(pending := None)), u, t, attempt);
    }
  }

  lemma BeginWaits(w: World, u: ThreadId, other: nat, hint: ThreadId, t: ThreadId, attempt: nat)
    requires Waits(w, t, attempt)
    ensures Waits(BeginStart(w, u, other, hint).0, t, attempt)
    ensures u == t ==> !BeginStart(w, u, other, hint).1
  {
    LookupWaits(w, u, hint, t, attempt);
  }

  lemma JoinWaits(w: World, id: SubId, u: ThreadId, hint: ThreadId, ackOk: bool, t: ThreadId, attempt: nat)
    requires Waits(w, t, attempt)
    ensures Waits(Join(w, id, u, hint, ackOk), t, attempt)
  {
    LookupWaits(Prune(w), u, hint, t, attempt);
  }

  predicate NamesAttempt(c: Command, attempt: nat) {
    (c.ObserveTurn? || c.Begin? || c.Abort?) && c.attempt == attempt
  }

  lemma HandleWaits(w: World, c: Command, t: ThreadId, attempt: nat)
    requires Waits(w, t, attempt) && !NamesAttempt(c, attempt)
    ensures Waits(Handle(w, c).0, t, attempt)
  {
    match c {
      case Subscribe(id, u, hint, ackOk) => JoinWaits(w, id, u, hint, ackOk, t, attempt);
      case Unsubscribe(id, u) =>
      case ObserveTurn(u, other, turn, hint) =>
        UpdateWaits(w, u, P.TurnUp(turn), hint, t, attempt);
        FinishWaits(StartTurn(w, u, turn, hint).0, u, other, t, attempt);
      case Begin(u, other, hint, ackOk) =>
        BeginWaits(w, u, other, hint, t, attempt);
        FinishWaits(BeginStart(w, u, other, hint).0, u, other, t, attempt);
      case Abort(u, other) => FinishWaits(w, u, other, t, attempt);
      case ObserveThread(u, hint) => UpdateWaits(w, u, P.ThreadUp, hint, t, attempt);
      case Ensure(u, hint) => LookupWaits(w, u, hint, t, attempt);
      case Release(u) =>
    }
  }

  /** No command among the inputs names the attempt. */
  predicate Unrelated(inputs: seq<Input>, attempt: nat) {
    forall i :: 0 <= i < |inputs| ==> !(inputs[i].Cmd? && NamesAttempt(inputs[i].command, attempt))
  }

  function RunFrom(w: World, inputs: seq<Input>): World {
    if inputs == [] then w else Step(RunFrom(w, inputs[..|inputs| - 1]), inputs[|inputs| - 1])
  }

  /** Whatever else happens, a route keeps waiting for its attempt until a
      command names that attempt or the router exits. */
  lemma {:induction false} PendingSurvives(w: World, inputs: seq<Input>, t: ThreadId, attempt: nat)
    requires Waits(w, t, attempt) && Unrelated(inputs, attempt)
    ensures RunFrom(w, inputs).exited || Waits(RunFrom(w, inputs), t, attempt)
  {
    if inputs != [] {
      var n := |inputs| - 1;
      PendingSurvives(w, inputs[..n], t, attempt);
      var v := RunFrom(w, inputs[..n]);
      if !v.exited {
        match inputs[n] {
          case Cmd(c) => HandleWaits(v, c, t, attempt);
          case Incoming(r) => NotifyWaits(v, r, t, attempt);
          case _ =>
        }
      }
    }
  }

  /** So a start that nobody finishes blocks every later start of its thread
      for as long as the router runs. */
  lemma UnfinishedStartBlocks(w: World, inputs: seq<Input>, t: ThreadId, attempt: nat, other: nat, hint: ThreadId)
    requires Waits(w, t, attempt) && Unrelated(inputs, attempt)
    requires !RunFrom(w, inputs).exited
    ensures !BeginStart(RunFrom(w, inputs), t, other, hint).1
  {
    PendingSurvives(w, inputs, t, attempt);
    BeginWaits(RunFrom(w, inputs), t, other, hint, t, attempt);
  }

  // -------------------------------------------- attempts nobody waits for

  /** No route waits for the attempt, except perhaps those named. */
  predicate Unknown(w: World, attempt: nat, but: set<ThreadId>) {
    forall t :: t in w.routes && t !in but ==> w.routes[t].pending != Some(attempt)
  }

  lemma LookupUnknown(w: World, u: ThreadId, hint: ThreadId, attempt: nat, but: set<ThreadId>)
    requires Unknown(w, attempt, but)
    ensures Unknown(RouteForUpdate(w, u, hint).0, attempt, but)
  {
  }

  lemma UpdateUnknown(w: World, u: ThreadId, n: P.Notice, hint: ThreadId, attempt: nat, but: set<ThreadId>)
    requires Unknown(w, attempt, but)
    ensures Unknown(Update(w, u, n, hint).0, attempt, but)
  {
    LookupUnknown(w, u, hint, attempt, but);
    var (v, found) := RouteForUpdate(w, u, hint);
    if found {
      var (q, effect) := P.Apply(v.routes[u].p, u, n);
      RouterLimits.ActRoute(v, u, q, effect);
    }
  }

  lemma DirectUnknown(w: World, r: Raw, attempt: nat, but: set<ThreadId>)
    requires Unknown(w, attempt, but)
    ensures Unknown(Direct(w, r).0, attempt, but)
  {
    if !r.call.CDelta? && !r.call.COther? && Decoded(r.call).Some? {
      UpdateUnknown(w, Decoded(r.call).value.0, Decoded(r.call).value.1, r.hint, attempt, but);
    }
  }

  lemma LateUnknown(w: World, r: Late, attempt: nat, but: set<ThreadId>)
    requires Unknown(w, attempt, but)
    ensures Unknown(NotifyLate(w, r).0, attempt, but)
  {
    if !Defers(w, r) { DirectUnknown(w, r, attempt, but); }
  }

  lemma {:induction false} ReplayUnknown(w: World, rs: seq<Late>, attempt: nat, but: set<ThreadId>)
    requires Unknown(w, attempt, but)
    ensures Unknown(Replay(w, rs).0, attempt, but)
  {
    if rs != [] {
      ReplayUnknown(w, rs[..|rs| - 1], attempt, but);
      LateUnknown(Replay(w, rs[..|rs| - 1]).0, rs[|rs| - 1], attempt, but);
    }
  }

  lemma StopUnknown(w: World, u: ThreadId, attempt: nat, but: set<ThreadId>)
    requires Unknown(w, attempt, but)
    ensures Unknown(StopDeferring(w, u).0, attempt, but)
  {
    if u in w.routes {
      var v := SetRoute(w, u, w.routes[u].(defer := false, deferred := [], deferredBytes := 0));
      ReplayUnknown(v, w.routes[u].deferred, attempt, but);
    }
  }

  lemma NotifyUnknown(w: World, r: Raw, attempt: nat, but: set<ThreadId>)
    requires Unknown(w, attempt, but)
    ensures Unknown(Notify(w, r).0, attempt, but)
  {
    match r.call {
      case CTurnUp(Some((u, turn))) =>
        UpdateUnknown(w, u, P.TurnUp(turn), r.hint, attempt, but);
        StopUnknown(StartTurn(w, u, turn, r.hint).0, u, attempt, but);
      case CTurnUp(None) =>
      case _ => LateUnknown(w, r, attempt, but);
    }
  }

  /** Finishing an attempt makes it unknown; finishing another keeps it so. */
  lemma FinishUnknown(w: World, u: ThreadId, other: nat, attempt: nat, but: set<ThreadId>)
    requires Unknown(w, attempt, but)
    ensures Unknown(FinishTurnStart(w, u, other).0, attempt, if other == attempt then but - {u} else but)
  {
    if u in w.routes && w.routes[u].pending == Some(other) {
      var v := SetRoute(w, u, w.routes[u].(pending := None));
      StopUnknown(v, u, attempt, if other == attempt then but - {u} else but);
    }
  }

  lemma BeginUnknown(w: World, u: ThreadId, other: nat, hint: ThreadId, attempt: nat, but: set<ThreadId>)
    requires Unknown(w, attempt, but)
    ensures var (v, accepted) := BeginStart(w, u, other, hint);
            && Unknown(v, attempt, but + {u}) && (accepted ==> Waits(v, u, other))
            && (other != attempt || !accepted ==> Unknown(v, attempt, but))
  {
    LookupUnknown(w, u, hint, attempt, but);
  }

  /** A running router comes to the command to begin: the route waits for the
      attempt exactly when it is accepted and can be acknowledged. */
  lemma BeginPending(w: World, u: ThreadId, attempt: nat, hint: ThreadId, ackOk: bool)
    requires Unknown(w, attempt, {}) && !w.exited
    ensures var v := Step(w, Cmd(Begin(u, attempt, hint, ackOk)));
            var accepted := BeginStart(w, u, attempt, hint).1;
            && Unknown(v, attempt, {u}) && (accepted && ackOk ==> !v.exited)
            && (Waits(v, u, attempt) <==> accepted && ackOk)
  {
    var (v, accepted) := BeginStart(w, u, attempt, hint);
    BeginUnknown(w, u, attempt, hint, attempt, {});
    if accepted && !ackOk {
      FinishUnknown(v, u, attempt, attempt, {u});
    }
  }

  lemma ObserveUnknown(
      w: World, u: ThreadId, other: nat, turn: Turn, hint: ThreadId, attempt: nat, but: set<ThreadId>)
    requires Unknown(w, attempt, but)
    ensures Unknown(Handle(w, ObserveTurn(u, other, turn, hint)).0, attempt,
                    if other == attempt then but - {u} else but)
  {
    UpdateUnknown(w, u, P.TurnUp(turn), hint, attempt, but);
    FinishUnknown(StartTurn(w, u, turn, hint).0, u, other, attempt, but);
  }

  lemma HandleUnknown(w: World, c: Command, attempt: nat, but: set<ThreadId>)
    requires Unknown(w, attempt, but) && !NamesAttempt(c, attempt)
    ensures Unknown(Handle(w, c).0, attempt, but)
  {
    match c {
      case Subscribe(id, u, hint, ackOk) => LookupUnknown(Prune(w), u, hint, attempt, but);
      case Unsubscribe(id, u) =>
      case ObserveTurn(u, other, turn, hint) => ObserveUnknown(w, u, other, turn, hint, attempt, but);
      case Begin(u, other, hint, ackOk) =>
        BeginUnknown(w, u, other, hint, attempt, but);
        FinishUnknown(BeginStart(w, u, other, hint).0, u, other, attempt, but);
      case Abort(u, other) => FinishUnknown(w, u, other, attempt, but);
      case ObserveThread(u, hint) => UpdateUnknown(w, u, P.ThreadUp, hint, attempt, but);
      case Ensure(u, hint) => LookupUnknown(w, u, hint, attempt, but);
      case Release(u) =>
    }
  }

  lemma StepUnknown(w: World, i: Input, attempt: nat, but: set<ThreadId>)
    requires Unknown(w, attempt, but) && !(i.Cmd? && NamesAttempt(i.command, attempt))
    ensures Unknown(Step(w, i), attempt, but)
  {
    if !w.exited {
      match i {
        case Cmd(c) => HandleUnknown(w, c, attempt, but);
        case Incoming(r) => NotifyUnknown(w, r, attempt, but);
        case _ =>
      }
    }
  }

  /** An attempt nobody waits for stays so until a command names it. */
  lemma {:induction false} UnknownSurvives(w: World, inputs: seq<Input>, attempt: nat, but: set<ThreadId>)
    requires Unknown(w, attempt, but) && Unrelated(inputs, attempt)
    ensures Unknown(RunFrom(w, inputs), attempt, but)
  {
    if inputs != [] {
      var n := |inputs| - 1;
      UnknownSurvives(w, inputs[..n], attempt, but);
      StepUnknown(RunFrom(w, inputs[..n]), inputs[n], attempt, but);
    }
  }
}
