/**
 Event intake from the node sidecar (src/channel/sidecar.rs, `handle_line`,
 `event_loop`, `process_event`, `ActiveEventIds`). A reader and a worker share
 the active-id set, a bounded queue and the write channel; each step below is
 one operation on that shared state, so every interleaving is a run.
 */
module Sidecar {
  import opened Wrappers

  /** An accepted event frame: its number and its correlation id. */
  datatype Pending = Pending(frame: nat, id: string)

  datatype Ack = Ack(frame: nat, id: string, ok: bool)

  datatype Handled = Durable | Rejected | TimedOut

  datatype Config = Config(capacity: nat, concurrency: nat)

  /** `entering`: the reader inserted the id and has not offered the event yet.
      `refused`: the reader is about to send a negative ack. `settling`: the
      worker sent an ack and has not removed the id yet. */
  datatype Intake = Intake(
    active: set<string>,
    queue: seq<Pending>,
    inFlight: seq<Pending>,
    entering: Option<Pending>,
    refused: Option<Pending>,
    settling: Option<string>,
    acks: seq<Ack>,
    accepted: nat,
    handled: map<nat, Handled>,
    workerEnded: bool,
    ended: bool)

  const START: Intake := Intake({}, [], [], None, None, None, [], 0, map[], false, false)

  datatype Step =
    | Arrive(id: string, oversize: bool)
    | Offer
    | Refuse(writeOk: bool)
    | TakeNext
    | Complete(index: nat, result: Handled, writeOk: bool)
    | Settle
    | EndSession

  function Without(ps: seq<Pending>, i: nat): seq<Pending>
    requires i < |ps|
  {
    ps[..i] + ps[i + 1..]
  }

  function Do(c: Config, s: Intake, step: Step): Intake {
    match step
    case Arrive(id, oversize) =>
      var p := Pending(s.accepted, id);
      if s.ended || s.entering.Some? || s.refused.Some? then s
      else if oversize then s.(refused := Some(p), accepted := s.accepted + 1)
      else if id in s.active then s.(ended := true, active := {})
      else s.(active := s.active + {id}, entering := Some(p), accepted := s.accepted + 1)
    case Offer =>
      if s.ended || s.entering.None? || s.refused.Some? then s
      else if s.workerEnded || |s.queue| >= c.capacity
      then s.(entering := None, refused := s.entering, active := s.active - {s.entering.value.id})
      else s.(entering := None, queue := s.queue + [s.entering.value])
    case Refuse(writeOk) =>
      if s.ended || s.refused.None? || s.entering.Some? then s
      else if writeOk
      then s.(refused := None, acks := s.acks + [Ack(s.refused.value.frame, s.refused.value.id, false)])
      else s.(ended := true, active := {})
    case TakeNext =>
      if s.ended || s.workerEnded || s.settling.Some? || s.queue == [] || |s.inFlight| >= c.concurrency then s
      else s.(queue := s.queue[1..], inFlight := s.inFlight + [s.queue[0]])
    case Complete(i, result, writeOk) =>
      if s.ended || s.workerEnded || s.settling.Some? || i >= |s.inFlight| then s
      else
        var p := s.inFlight[i];
        var t := s.(handled := s.handled[p.frame := result]);
        if writeOk
        then t.(inFlight := Without(s.inFlight, i), settling := Some(p.id),
                acks := s.acks + [Ack(p.frame, p.id, result == Durable)])
        else t.(active := {}, workerEnded := true)
    case Settle =>
      if s.settling.None? then s else s.(active := s.active - {s.settling.value}, settling := None)
    case EndSession => s.(ended := true, active := {})
  }

  function Run(c: Config, steps: seq<Step>): Intake {
    if steps == [] then START else Do(c, Run(c, steps[..|steps| - 1]), steps[|steps| - 1])
  }

  // ------------------------------------------------------ conservation

  function FramesAt(ps: seq<Pending>, f: nat): nat {
    if ps == [] then 0 else FramesAt(ps[..|ps| - 1], f) + if ps[|ps| - 1].frame == f then 1 else 0
  }

  function IdsAt(ps: seq<Pending>, id: string): nat {
    if ps == [] then 0 else IdsAt(ps[..|ps| - 1], id) + if ps[|ps| - 1].id == id then 1 else 0
  }

  function AcksAt(acks: seq<Ack>, f: nat): nat {
    if acks == [] then 0 else AcksAt(acks[..|acks| - 1], f) + if acks[|acks| - 1].frame == f then 1 else 0
  }

  function FrameAt(o: Option<Pending>, f: nat): nat { if o.Some? && o.value.frame == f then 1 else 0 }

  /** In how many places frame f is: acknowledged, queued, in flight, entering
      or about to be refused. */
  function Places(s: Intake, f: nat): nat {
    AcksAt(s.acks, f) + FramesAt(s.queue, f) + FramesAt(s.inFlight, f) + FrameAt(s.entering, f) + FrameAt(s.refused, f)
  }

  /** How often the id is held between acceptance and release. */
  function Held(s: Intake, id: string): nat {
    IdsAt(s.queue, id) + IdsAt(s.inFlight, id) + (if s.entering.Some? && s.entering.value.id == id then 1 else 0) +
    if s.settling == Some(id) then 1 else 0
  }

  lemma {:induction false} Concat(a: seq<Pending>, b: seq<Pending>, f: nat, id: string)
    ensures FramesAt(a + b, f) == FramesAt(a, f) + FramesAt(b, f)
    ensures IdsAt(a + b, id) == IdsAt(a, id) + IdsAt(b, id)
  {
    if b == [] {
      assert a + b == a;
    } else {
      assert (a + b)[..|a + b| - 1] == a + b[..|b| - 1];
      Concat(a, b[..|b| - 1], f, id);
    }
  }

  lemma Single(p: Pending, f: nat, id: string)
    ensures FramesAt([p], f) == (if p.frame == f then 1 else 0) && IdsAt([p], id) == if p.id == id then 1 else 0
  {
    assert [p][..0] == [];
  }

  lemma RemoveAt(ps: seq<Pending>, i: nat, f: nat, id: string)
    requires i < |ps|
    ensures FramesAt(ps, f) == FramesAt(Without(ps, i), f) + if ps[i].frame == f then 1 else 0
    ensures IdsAt(ps, id) == IdsAt(Without(ps, i), id) + if ps[i].id == id then 1 else 0
  {
    assert ps == ps[..i] + ([ps[i]] + ps[i + 1..]);
    Concat(ps[..i], [ps[i]] + ps[i + 1..], f, id);
    Concat([ps[i]], ps[i + 1..], f, id);
    Concat(ps[..i], ps[i + 1..], f, id);
    Single(ps[i], f, id);
  }

  lemma Snoc(ps: seq<Pending>, p: Pending, f: nat, id: string)
    ensures FramesAt(ps + [p], f) == FramesAt(ps, f) + if p.frame == f then 1 else 0
    ensures IdsAt(ps + [p], id) == IdsAt(ps, id) + if p.id == id then 1 else 0
  {
    assert (ps + [p])[..|ps|] == ps;
  }

  lemma SnocAcks(acks: seq<Ack>, a: Ack, f: nat)
    ensures AcksAt(acks + [a], f) == AcksAt(acks, f) + if a.frame == f then 1 else 0
  {
    assert (acks + [a])[..|acks|] == acks;
  }

  /** Frame f is in exactly one place once it is accepted. */
  predicate Placed(s: Intake, f: nat) { Places(s, f) == if f < s.accepted then 1 else 0 }

  /** Until the session or its worker ends, the id is active exactly when it is
      held, and it is held once. */
  predicate Tracked(s: Intake, id: string) {
    !s.ended && !s.workerEnded ==> Held(s, id) == if id in s.active then 1 else 0
  }

  lemma ArriveOk(c: Config, s: Intake, step: Step, f: nat, id: string)
    requires step.Arrive? && Placed(s, f) && Tracked(s, id)
    ensures Placed(Do(c, s, step), f) && Tracked(Do(c, s, step), id)
  {
  }

  lemma OfferPlaced(c: Config, s: Intake, f: nat)
    requires Placed(s, f)
    ensures Placed(Do(c, s, Offer), f)
  {
    var t := Do(c, s, Offer);
    if t != s {
      assert t.acks == s.acks && t.inFlight == s.inFlight && t.entering.None? && s.refused.None?;
      if t.refused.None? { Snoc(s.queue, s.entering.value, f, ""); }
    }
  }

  lemma OfferTracked(c: Config, s: Intake, id: string)
    requires Tracked(s, id)
    ensures Tracked(Do(c, s, Offer), id)
  {
    if s.entering.Some? { Snoc(s.queue, s.entering.value, 0, id); }
  }

  lemma RefuseOk(c: Config, s: Intake, writeOk: bool, f: nat, id: string)
    requires Placed(s, f) && Tracked(s, id)
    ensures Placed(Do(c, s, Refuse(writeOk)), f) && Tracked(Do(c, s, Refuse(writeOk)), id)
  {
    if s.refused.Some? { SnocAcks(s.acks, Ack(s.refused.value.frame, s.refused.value.id, false), f); }
  }

  lemma TakeMoves(s: Intake, f: nat, id: string)
    requires s.queue != []
    ensures FramesAt(s.queue[1..], f) + FramesAt(s.inFlight + [s.queue[0]], f) ==
            FramesAt(s.queue, f) + FramesAt(s.inFlight, f)
    ensures IdsAt(s.queue[1..], id) + IdsAt(s.inFlight + [s.queue[0]], id) == IdsAt(s.queue, id) + IdsAt(s.inFlight, id)
  {
    RemoveAt(s.queue, 0, f, id);
    assert Without(s.queue, 0) == s.queue[1..];
    Snoc(s.inFlight, s.queue[0], f, id);
  }

  lemma TakeOk(c: Config, s: Intake, f: nat, id: string)
    requires Placed(s, f) && Tracked(s, id)
    ensures Placed(Do(c, s, TakeNext), f) && Tracked(Do(c, s, TakeNext), id)
  {
    if s.queue != [] { TakeMoves(s, f, id); }
  }

  lemma CompletePlaced(c: Config, s: Intake, i: nat, result: Handled, writeOk: bool, f: nat)
    requires Placed(s, f)
    ensures Placed(Do(c, s, Complete(i, result, writeOk)), f)
  {
    if i < |s.inFlight| {
      RemoveAt(s.inFlight, i, f, "");
      SnocAcks(s.acks, Ack(s.inFlight[i].frame, s.inFlight[i].id, result == Durable), f);
    }
  }

  lemma CompleteTracked(c: Config, s: Intake, i: nat, result: Handled, writeOk: bool, id: string)
    requires Tracked(s, id)
    ensures Tracked(Do(c, s, Complete(i, result, writeOk)), id)
  {
    if i < |s.inFlight| { RemoveAt(s.inFlight, i, 0, id); }
  }

  lemma SettleOk(c: Config, s: Intake, step: Step, f: nat, id: string)
    requires (step.Settle? || step.EndSession?) && Placed(s, f) && Tracked(s, id)
    ensures Placed(Do(c, s, step), f) && Tracked(Do(c, s, step), id)
  {
  }

  lemma StepOk(c: Config, s: Intake, step: Step, f: nat, id: string)
    requires Placed(s, f) && Tracked(s, id)
    ensures Placed(Do(c, s, step), f) && Tracked(Do(c, s, step), id)
  {
    match step
    case Arrive(_, _) => ArriveOk(c, s, step, f, id);
    case Offer =>
      OfferPlaced(c, s, f);
      OfferTracked(c, s, id);
    case Refuse(writeOk) => RefuseOk(c, s, writeOk, f, id);
    case TakeNext => TakeOk(c, s, f, id);
    case Complete(i, result, writeOk) =>
      CompletePlaced(c, s, i, result, writeOk, f);
      CompleteTracked(c, s, i, result, writeOk, id);
    case _ => SettleOk(c, s, step, f, id);
  }

  /** Ack conservation, in every interleaving. Each accepted frame is in exactly
      one place: acknowledged, queued, in flight, or on its way between them.
      Until the session or its worker ends, the active ids are exactly the ids
      held, each once. */
  lemma {:induction false} AcksAreConserved(c: Config, steps: seq<Step>, f: nat, id: string)
    ensures Placed(Run(c, steps), f) && Tracked(Run(c, steps), id)
  {
    if steps != [] {
      AcksAreConserved(c, steps[..|steps| - 1], f, id);
      StepOk(c, Run(c, steps[..|steps| - 1]), steps[|steps| - 1], f, id);
    }
  }

  /** The queue and the number of handlers in flight stay within their limits. */
  lemma {:induction false} LimitsHold(c: Config, steps: seq<Step>)
    ensures |Run(c, steps).queue| <= c.capacity && |Run(c, steps).inFlight| <= c.concurrency
  {
    if steps != [] { LimitsHold(c, steps[..|steps| - 1]); }
  }

  /** No frame is acknowledged twice. */
  lemma AckedAtMostOnce(c: Config, steps: seq<Step>, f: nat)
    ensures AcksAt(Run(c, steps).acks, f) <= 1
  {
    AcksAreConserved(c, steps, f, "");
  }

  /** When nothing is waiting, every accepted frame has been acknowledged once. */
  lemma IdleMeansAcknowledged(c: Config, steps: seq<Step>, f: nat)
    requires var s := Run(c, steps); s.queue == [] && s.inFlight == [] && s.entering.None? && s.refused.None?
    ensures AcksAt(Run(c, steps).acks, f) == if f < Run(c, steps).accepted then 1 else 0
  {
    AcksAreConserved(c, steps, f, "");
  }

  // --------------------------------------------------- what acks mean

  predicate WasDurable(s: Intake, f: nat) { f in s.handled && s.handled[f] == Durable }

  predicate Honest(s: Intake) {
    forall i :: 0 <= i < |s.acks| ==> (s.acks[i].ok <==> WasDurable(s, s.acks[i].frame))
  }

  /** A handler's result is for a frame that was acknowledged or is in flight. */
  predicate HandledPlaced(s: Intake, f: nat) {
    f in s.handled ==> AcksAt(s.acks, f) + FramesAt(s.inFlight, f) >= 1
  }

  lemma StepHandled(c: Config, s: Intake, step: Step, f: nat)
    requires HandledPlaced(s, f)
    ensures HandledPlaced(Do(c, s, step), f)
  {
    match step
    case Refuse(_) =>
      if s.refused.Some? { SnocAcks(s.acks, Ack(s.refused.value.frame, s.refused.value.id, false), f); }
    case TakeNext => if s.queue != [] { Snoc(s.inFlight, s.queue[0], f, ""); }
    case Complete(i, result, _) =>
      if i < |s.inFlight| {
        RemoveAt(s.inFlight, i, f, "");
        SnocAcks(s.acks, Ack(s.inFlight[i].frame, s.inFlight[i].id, result == Durable), f);
      }
    case _ =>
  }

  lemma {:induction false} HandledAreKnown(c: Config, steps: seq<Step>, f: nat)
    ensures HandledPlaced(Run(c, steps), f)
  {
    if steps != [] {
      HandledAreKnown(c, steps[..|steps| - 1], f);
      StepHandled(c, Run(c, steps[..|steps| - 1]), steps[|steps| - 1], f);
    }
  }

  /** A frame about to be refused has no handler result. */
  lemma RefusedUnhandled(c: Config, steps: seq<Step>)
    requires Run(c, steps).refused.Some?
    ensures Run(c, steps).refused.value.frame !in Run(c, steps).handled
  {
    var f := Run(c, steps).refused.value.frame;
    HandledAreKnown(c, steps, f);
    AcksAreConserved(c, steps, f, "");
  }

  lemma {:induction false} NotAcked(acks: seq<Ack>, f: nat)
    requires AcksAt(acks, f) == 0
    ensures forall i :: 0 <= i < |acks| ==> acks[i].frame != f
  {
    if acks != [] { NotAcked(acks[..|acks| - 1], f); }
  }

  /** A frame in flight has no ack yet, so its handler's result is the only one. */
  lemma InFlightUnacked(c: Config, steps: seq<Step>, i: nat)
    requires i < |Run(c, steps).inFlight|
    ensures var s := Run(c, steps); forall k :: 0 <= k < |s.acks| ==> s.acks[k].frame != s.inFlight[i].frame
  {
    var s := Run(c, steps);
    var f := s.inFlight[i].frame;
    AcksAreConserved(c, steps, f, "");
    RemoveAt(s.inFlight, i, f, "");
    NotAcked(s.acks, f);
  }

  /** An ack is positive exactly when the durable handler succeeded for that
      very frame. */
  lemma {:induction false} AcksTellTheResult(c: Config, steps: seq<Step>)
    ensures Honest(Run(c, steps))
  {
    if steps != [] {
      var s := Run(c, steps[..|steps| - 1]);
      var step := steps[|steps| - 1];
      AcksTellTheResult(c, steps[..|steps| - 1]);
      if step.Complete? && step.index < |s.inFlight| {
        InFlightUnacked(c, steps[..|steps| - 1], step.index);
      }
      if step.Refuse? && s.refused.Some? {
        RefusedUnhandled(c, steps[..|steps| - 1]);
      }
    }
  }

  /** The step that sent an ack: the reader refused the frame, or the handler
      of that frame finished with the result the ack tells. */
  predicate Sends(s: Intake, step: Step, a: Ack) {
    || (step == Refuse(true) && s.refused == Some(Pending(a.frame, a.id)) && !a.ok)
    || (&& step.Complete? && step.writeOk && step.index < |s.inFlight|
        && s.inFlight[step.index] == Pending(a.frame, a.id) && (a.ok <==> step.result == Durable))
  }

  predicate SentAt(c: Config, steps: seq<Step>, a: Ack, k: nat) {
    k < |steps| && Sends(Run(c, steps[..k]), steps[k], a)
  }

  /** Every ack was sent by some step for that reason. */
  lemma {:induction false} AcksHaveACause(c: Config, steps: seq<Step>, a: Ack)
    requires a in Run(c, steps).acks
    ensures exists k: nat :: SentAt(c, steps, a, k)
  {
    var n := |steps| - 1;
    var s := Run(c, steps[..n]);
    if a in s.acks {
      AcksHaveACause(c, steps[..n], a);
      var k: nat :| SentAt(c, steps[..n], a, k);
      assert steps[..n][..k] == steps[..k];
      assert SentAt(c, steps, a, k);
    } else {
      assert SentAt(c, steps, a, n);
    }
  }

  /** A handler may finish. */
  predicate CanFinish(s: Intake, index: nat) {
    !s.ended && !s.workerEnded && s.settling.None? && index < |s.inFlight|
  }

  lemma AcksGrow(c: Config, s: Intake, step: Step)
    ensures s.acks <= Do(c, s, step).acks
  {
  }

  lemma {:induction false} AcksStay(c: Config, steps: seq<Step>, k: nat, a: Ack)
    requires k <= |steps| && a in Run(c, steps[..k]).acks
    ensures a in Run(c, steps).acks
  {
    if k < |steps| {
      var n := |steps| - 1;
      assert steps[..n][..k] == steps[..k];
      AcksStay(c, steps[..n], k, a);
      AcksGrow(c, Run(c, steps[..n]), steps[n]);
    } else {
      assert steps[..k] == steps;
    }
  }

  /** Every handler that finishes and can write has its frame acknowledged with
      its result, for good. */
  lemma FinishedIsAcknowledged(c: Config, steps: seq<Step>, k: nat)
    requires k < |steps| && steps[k].Complete? && steps[k].writeOk
    requires CanFinish(Run(c, steps[..k]), steps[k].index)
    ensures var p := Run(c, steps[..k]).inFlight[steps[k].index];
            Ack(p.frame, p.id, steps[k].result == Durable) in Run(c, steps).acks
  {
    var s := Run(c, steps[..k]);
    var p := s.inFlight[steps[k].index];
    var a := Ack(p.frame, p.id, steps[k].result == Durable);
    assert steps[..k + 1][..k] == steps[..k];
    assert Run(c, steps[..k + 1]).acks[|s.acks|] == a;
    AcksStay(c, steps, k + 1, a);
  }

  // ------------------------------------------------- why frames are refused

  /** The step that turned the frame away: it was oversize, or there was no
      room for it or nobody to take it. */
  predicate TurnsAway(c: Config, s: Intake, step: Step, p: Pending) {
    || (step == Arrive(p.id, true) && s.accepted == p.frame)
    || (step == Offer && s.entering == Some(p) && (s.workerEnded || |s.queue| >= c.capacity))
  }

  predicate TurnedAwayAt(c: Config, steps: seq<Step>, p: Pending, k: nat) {
    k < |steps| && TurnsAway(c, Run(c, steps[..k]), steps[k], p)
  }

  lemma {:induction false} RefusalsHaveACause(c: Config, steps: seq<Step>, p: Pending)
    requires Run(c, steps).refused == Some(p)
    ensures exists k: nat :: TurnedAwayAt(c, steps, p, k)
  {
    var n := |steps| - 1;
    var s := Run(c, steps[..n]);
    if s.refused == Some(p) {
      RefusalsHaveACause(c, steps[..n], p);
      var k: nat :| TurnedAwayAt(c, steps[..n], p, k);
      assert steps[..n][..k] == steps[..k];
      assert TurnedAwayAt(c, steps, p, k);
    } else {
      assert TurnedAwayAt(c, steps, p, n);
    }
  }

  /** Some accepted frame with this id is not released yet. */
  predicate InUse(s: Intake, id: string) { !s.workerEnded && Held(s, id) > 0 }

  lemma {:induction false} EndedWorkerForgets(c: Config, steps: seq<Step>)
    ensures Run(c, steps).ended ==> Run(c, steps).active == {}
    ensures Run(c, steps).workerEnded && Run(c, steps).entering.None? ==> Run(c, steps).active == {}
    ensures Run(c, steps).workerEnded && Run(c, steps).entering.Some? ==>
              Run(c, steps).active <= {Run(c, steps).entering.value.id}
  {
    if steps != [] { EndedWorkerForgets(c, steps[..|steps| - 1]); }
  }

  /** The session ends by itself exactly when an ack cannot be written or an id
      in use arrives again; any other frame a free reader gets is accepted. */
  lemma EndsForAReason(c: Config, steps: seq<Step>, step: Step)
    requires !Run(c, steps).ended
    ensures var s := Run(c, steps);
            Do(c, s, step).ended ==>
              || step.EndSession? || step == Refuse(false)
              || (step.Arrive? && !step.oversize && InUse(s, step.id))
    ensures var s := Run(c, steps);
            step.Arrive? && s.entering.None? && s.refused.None? && (step.oversize || !InUse(s, step.id)) ==>
              !Do(c, s, step).ended && Do(c, s, step).accepted == s.accepted + 1
    ensures var s := Run(c, steps);
            step.Arrive? && s.entering.None? && s.refused.None? && !step.oversize && InUse(s, step.id) ==>
              Do(c, s, step).ended
  {
    if step.Arrive? {
      AcksAreConserved(c, steps, 0, step.id);
      EndedWorkerForgets(c, steps);
    }
  }

  // -------------------------------------------------------------- order

  /** Every frame a handler has had is earlier than n. */
  predicate HadBefore(s: Intake, n: nat) {
    && (forall i :: 0 <= i < |s.inFlight| ==> s.inFlight[i].frame < n)
    && (forall f :: f in s.handled ==> f < n)
  }

  /** Frames are handled in the order they arrived. */
  predicate Ordered(s: Intake) {
    && (forall i, j :: 0 <= i < j < |s.queue| ==> s.queue[i].frame < s.queue[j].frame)
    && (forall j :: 0 <= j < |s.queue| ==> HadBefore(s, s.queue[j].frame) && s.queue[j].frame < s.accepted)
    && (s.entering.Some? ==> Newest(s, s.entering.value.frame)) && HadBefore(s, s.accepted)
  }

  predicate Newest(s: Intake, n: nat) {
    n < s.accepted && HadBefore(s, n) && forall j :: 0 <= j < |s.queue| ==> s.queue[j].frame < n
  }

  lemma StepOrdered(c: Config, s: Intake, step: Step)
    requires Ordered(s)
    ensures Ordered(Do(c, s, step))
  {
    match step
    case Offer => OfferOrdered(c, s);
    case TakeNext => TakeOrdered(c, s);
    case Complete(i, result, writeOk) => CompleteOrdered(c, s, i, result, writeOk);
    case _ =>
  }

  lemma OfferOrdered(c: Config, s: Intake)
    requires Ordered(s)
    ensures Ordered(Do(c, s, Offer))
  {
    var t := Do(c, s, Offer);
    assert t.inFlight == s.inFlight && t.handled == s.handled && t.accepted == s.accepted;
    assert forall n :: HadBefore(s, n) ==> HadBefore(t, n);
  }

  lemma TakeOrdered(c: Config, s: Intake)
    requires Ordered(s)
    ensures Ordered(Do(c, s, TakeNext))
  {
    var t := Do(c, s, TakeNext);
    if t != s {
      var p := s.queue[0];
      assert t.inFlight == s.inFlight + [p] && t.queue == s.queue[1..] && t.handled == s.handled;
      assert forall j :: 0 <= j < |t.queue| ==> t.queue[j] == s.queue[j + 1];
      assert forall n :: HadBefore(s, n) && p.frame < n ==> HadBefore(t, n);
    }
  }

  lemma CompleteOrdered(c: Config, s: Intake, i: nat, result: Handled, writeOk: bool)
    requires Ordered(s)
    ensures Ordered(Do(c, s, Complete(i, result, writeOk)))
  {
    var t := Do(c, s, Complete(i, result, writeOk));
    if t != s {
      assert t.queue == s.queue && t.entering == s.entering && t.accepted == s.accepted;
      assert forall n :: HadBefore(s, n) ==> HadBefore(t, n) by {
        assert s.inFlight[i].frame in t.handled;
        assert forall p :: p in t.inFlight ==> p in s.inFlight;
      }
    }
  }

  /** No handler starts on a frame while an earlier one still waits. */
  lemma {:induction false} HandledInOrder(c: Config, steps: seq<Step>)
    ensures Ordered(Run(c, steps))
  {
    if steps != [] {
      HandledInOrder(c, steps[..|steps| - 1]);
      StepOrdered(c, Run(c, steps[..|steps| - 1]), steps[|steps| - 1]);
    }
  }

  // ----------------------------------------------------------- progress

  function RunFrom(c: Config, s: Intake, steps: seq<Step>): Intake
    decreases |steps|
  {
    if steps == [] then s else RunFrom(c, Do(c, s, steps[0]), steps[1..])
  }

  predicate Live(s: Intake) { !s.ended && !s.workerEnded && (s.entering.Some? ==> s.refused.None?) }

  predicate Idle(s: Intake) {
    s.queue == [] && s.inFlight == [] && s.entering.None? && s.refused.None? && s.settling.None?
  }

  /** Steps that finish everything there is to do, each handler succeeding. */
  function Drain(c: Config, s: Intake): seq<Step>
    requires Live(s) && c.concurrency > 0
    decreases Work(s)
  {
    if s.settling.Some? then [Settle] + Drain(c, Do(c, s, Settle))
    else if s.refused.Some? then [Refuse(true)] + Drain(c, Do(c, s, Refuse(true)))
    else if s.entering.Some? then [Offer] + Drain(c, Do(c, s, Offer))
    else if s.inFlight != [] then [Complete(0, Durable, true)] + Drain(c, Do(c, s, Complete(0, Durable, true)))
    else if s.queue != [] then [TakeNext] + Drain(c, Do(c, s, TakeNext))
    else []
  }

  function Work(s: Intake): nat {
    5 * (if s.entering.Some? then 1 else 0) + 3 * |s.queue| + 2 * |s.inFlight| +
    (if s.refused.Some? then 1 else 0) + if s.settling.Some? then 1 else 0
  }

  lemma {:induction false} DrainWorks(c: Config, s: Intake)
    requires Live(s) && c.concurrency > 0
    ensures Idle(RunFrom(c, s, Drain(c, s)))
    decreases Work(s)
  {
    var d := Drain(c, s);
    if d != [] {
      var t := Do(c, s, d[0]);
      assert d == [d[0]] + Drain(c, t);
      assert d[1..] == Drain(c, t);
      DrainWorks(c, t);
    }
  }

  lemma {:induction false} RunOn(c: Config, steps: seq<Step>, more: seq<Step>)
    ensures RunFrom(c, Run(c, steps), more) == Run(c, steps + more)
    decreases |more|
  {
    if more == [] {
      assert steps + more == steps;
    } else {
      var next := steps + [more[0]];
      assert next[..|next| - 1] == steps;
      RunOn(c, next, more[1..]);
      assert next + more[1..] == steps + more;
    }
  }

  lemma {:induction false} EnteringAlone(c: Config, steps: seq<Step>)
    ensures Run(c, steps).entering.Some? ==> Run(c, steps).refused.None?
  {
    if steps != [] { EnteringAlone(c, steps[..|steps| - 1]); }
  }

  /** Nothing gets stuck: from every state of a running session some steps
      acknowledge every accepted frame, once, and release every id. */
  lemma NothingGetsStuck(c: Config, steps: seq<Step>, f: nat, id: string)
    requires !Run(c, steps).ended && !Run(c, steps).workerEnded && c.concurrency > 0
    ensures exists more: seq<Step> :: Finished(Run(c, steps + more), f, id)
  {
    EnteringAlone(c, steps);
    var more := Drain(c, Run(c, steps));
    DrainWorks(c, Run(c, steps));
    RunOn(c, steps, more);
    AcksAreConserved(c, steps + more, f, id);
    DrainLives(c, Run(c, steps));
    assert Finished(Run(c, steps + more), f, id);
  }

  predicate Finished(s: Intake, f: nat, id: string) {
    Idle(s) && id !in s.active && AcksAt(s.acks, f) == if f < s.accepted then 1 else 0
  }

  lemma {:induction false} DrainLives(c: Config, s: Intake)
    requires Live(s) && c.concurrency > 0
    ensures Live(RunFrom(c, s, Drain(c, s)))
    decreases Work(s)
  {
    var d := Drain(c, s);
    if d != [] {
      var t := Do(c, s, d[0]);
      assert d == [d[0]] + Drain(c, t);
      assert d[1..] == Drain(c, t);
      DrainLives(c, t);
    }
  }

  // ------------------------------------------------------ two sharp edges

  /** Acks are per frame, not per id: an oversize frame is refused before the
      active-id check, so a negative ack can name an id that stays active. */
  lemma OversizeAcksAnActiveId(c: Config, s: Intake, id: string)
    requires !s.ended && s.entering.None? && s.refused.None? && id in s.active
    ensures var t := Do(c, Do(c, s, Arrive(id, true)), Refuse(true));
            t.acks == s.acks + [Ack(s.accepted, id, false)] && id in t.active && !t.ended
  {
  }

  /** An id is released only after its ack is on its way, so a peer that reuses
      it at once can find it still active and lose the session. */
  lemma PromptReuseEndsSession(c: Config, s: Intake, id: string)
    requires !s.ended && s.entering.None? && s.refused.None? && s.settling == Some(id) && id in s.active
    ensures Do(c, s, Arrive(id, false)).ended
    ensures !Do(c, Do(c, s, Settle), Arrive(id, false)).ended
  {
  }

  // ------------------------------------------------------ the two tasks

  /** One choice of the worker's select: a new event, or a finished handler. */
  datatype Turn = Receive | Finish(index: nat, result: Handled, writeOk: bool)

  function DoTurn(c: Config, s: Intake, turn: Turn): Intake {
    match turn
    case Receive => Do(c, s, TakeNext)
    case Finish(i, result, writeOk) => Do(c, Do(c, s, Complete(i, result, writeOk)), Settle)
  }

  function DoTurns(c: Config, s: Intake, turns: seq<Turn>): Intake
    decreases |turns|
  {
    if turns == [] then s else DoTurns(c, DoTurn(c, s, turns[0]), turns[1..])
  }

  lemma {:induction false} EndedWorkerRests(c: Config, s: Intake, turns: seq<Turn>)
    requires s.workerEnded && s.settling.None?
    ensures DoTurns(c, s, turns) == s
    decreases |turns|
  {
    if turns != [] {
      assert DoTurn(c, s, turns[0]) == s;
      EndedWorkerRests(c, s, turns[1..]);
    }
  }

  class Session {
    var active: set<string>
    var queue: seq<Pending>
    var inFlight: seq<Pending>
    var acks: seq<Ack>
    var accepted: nat
    var handled: map<nat, Handled>
    var workerEnded: bool
    var ended: bool

    /** Between calls neither task is in the middle of anything. */
    function Abstract(): Intake
      reads this
    {
      Intake(active, queue, inFlight, None, None, None, acks, accepted, handled, workerEnded, ended)
    }

    constructor ()
      ensures Abstract() == START
    {
      active, queue, inFlight, acks, accepted, handled, workerEnded, ended := {}, [], [], [], 0, map[], false, false;
    }

    /** handle_line for an event frame; false ends the session. */
    method HandleEvent(c: Config, id: string, oversize: bool, writeOk: bool) returns (ok: bool)
      requires !ended
      modifies this
      ensures var arrived := Do(c, old(Abstract()), Arrive(id, oversize));
              var offered := Do(c, Do(c, arrived, Offer), Refuse(writeOk));
              if offered.ended then !ok && ended && acks == offered.acks else ok && Abstract() == offered
    {
      var event := Pending(accepted, id);
      if !oversize {
        if id in active {
          ended := true;
          return false;
        }
        active := active + {id};
        accepted := accepted + 1;
        if !workerEnded && |queue| < c.capacity {
          queue := queue + [event];
          return true;
        }
        active := active - {id};
      } else {
        accepted := accepted + 1;
      }
      if !writeOk {
        ended := true;
        return false;
      }
      acks := acks + [Ack(event.frame, event.id, false)];
      return true;
    }

    /** event_loop, for any choices of the select. */
    method EventLoop(c: Config, turns: seq<Turn>)
      requires !ended
      modifies this
      ensures Abstract() == DoTurns(c, old(Abstract()), turns)
    {
      for i := 0 to |turns|
        invariant !ended && DoTurns(c, Abstract(), turns[i..]) == DoTurns(c, old(Abstract()), turns)
      {
        if workerEnded {
          EndedWorkerRests(c, Abstract(), turns[i..]);
          return;
        }
        assert turns[i..][0] == turns[i] && turns[i..][1..] == turns[i + 1..];
        RunTurn(c, turns[i]);
      }
    }

    method RunTurn(c: Config, turn: Turn)
      requires !ended && !workerEnded
      modifies this
      ensures Abstract() == DoTurn(c, old(Abstract()), turn) && !ended
    {
      match turn {
        case Receive =>
          if queue != [] && |inFlight| < c.concurrency {
            inFlight := inFlight + [queue[0]];
            queue := queue[1..];
          }
        case Finish(i, result, writeOk) =>
          if i < |inFlight| {
            var event := inFlight[i];
            handled := handled[event.frame := result];
            if !writeOk {
              active := {};
              workerEnded := true;
              return;
            }
            acks := acks + [Ack(event.frame, event.id, result == Durable)];
            inFlight := inFlight[..i] + inFlight[i + 1..];
            active := active - {event.id};
          }
      }
    }
  }
}
