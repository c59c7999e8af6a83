/**
 Who may signal a process group (src/codex/process.rs, `CodexProcess`,
 `reap_owned_process_tree`, `try_wait_for_owned_leader_exit_without_reaping`,
 `record_wait_identity_loss`), on POSIX. The operating system is arbitrary:
 every call carries its answers, and a list of answers that runs out is a wait
 that timed out or was cancelled.
 */
module SignalAuthority {
  import opened Wrappers

  /** What happened at the boundary: the destructive group signal, the reap of
      the leader, the observation that someone else reaped it, and the proof
      that the group is gone. */
  datatype OsEvent = Killed | Reaped | Lost | Absent

  datatype WaitAnswer = Exited(status: int) | NoChild | WaitError | NoAnswer

  datatype Poll = PollExited | NotYet | Interrupted | PollNoChild | PollError

  datatype Probe = Gone | StillThere | ProbeError

  datatype Failure = Unconfirmed | WaitFailed | TerminateFailed

  /** `id`: the child handle still reports its pid. `child`: the handle is held. */
  datatype Process = Process(exit: Option<int>, treeReaped: bool, authorized: bool, lost: bool, id: bool, child: bool,
                             log: seq<OsEvent>)

  const SPAWNED: Process := Process(None, false, true, false, true, true, [])

  /** record_wait_identity_loss */
  function LoseIdentity(p: Process): Process { p.(authorized := false, lost := true, log := p.log + [Lost]) }

  /** The wait on the child handle; a handle that was waited for answers again
      with the same status. */
  function WaitHandle(p: Process, a: WaitAnswer): (Process, WaitAnswer) {
    if !p.id then (p, Exited(if p.exit.Some? then p.exit.value else 0))
    else
      match a
      case Exited(_) => (p.(id := false, log := p.log + [Reaped]), a)
      case NoChild => (LoseIdentity(p), a)
      case _ => (p, a)
  }

  /** wait */
  function Wait(p: Process, a: WaitAnswer): (Process, Result<int, Failure>) {
    if p.exit.Some? then (p, Ok(p.exit.value))
    else if p.lost || !p.child then (p, Err(Unconfirmed))
    else
      var (q, answer) := WaitHandle(p, a);
      match answer
      case Exited(status) => (q.(authorized := false, exit := Some(status)), Ok(status))
      case _ => (q, Err(WaitFailed))
  }

  /** The poll loop of wait_for_owned_leader_exit_without_reaping; None is a
      wait that never ended. */
  function PollUntilExit(p: Process, polls: seq<Poll>): (Process, Option<Result<(), Failure>>)
    decreases |polls|
  {
    if p.lost then (p, Some(Err(WaitFailed)))
    else if polls == [] then (p, None)
    else
      match polls[0]
      case PollExited => (p, Some(Ok(())))
      case NotYet | Interrupted => PollUntilExit(p, polls[1..])
      case PollNoChild => (LoseIdentity(p), Some(Err(WaitFailed)))
      case PollError => (p, Some(Err(WaitFailed)))
  }

  /** wait_for_exit_without_reaping */
  function Observe(p: Process, polls: seq<Poll>): (Process, Option<Result<(), Failure>>) {
    if p.exit.Some? then (p, Some(Ok(())))
    else if p.lost then (p, Some(Err(Unconfirmed)))
    else PollUntilExit(p, polls)
  }

  /** wait_for_owned_process_group_empty: only the absence of the group proves it. */
  function ProbeUntilGone(probes: seq<Probe>): bool
    decreases |probes|
  {
    probes != [] && (probes[0].Gone? || (probes[0].StillThere? && ProbeUntilGone(probes[1..])))
  }

  /** The last group signal, sent only while the leader's identity is reserved. */
  function Signal(p: Process): Process {
    if p.authorized && p.id then p.(authorized := false, log := p.log + [Killed]) else p.(authorized := false)
  }

  /** reap_owned_process_tree */
  function Reap(p: Process, a: WaitAnswer, probes: seq<Probe>): (Process, Result<int, Failure>) {
    if p.lost then (p, Err(Unconfirmed))
    else
      var (q, answer) := WaitHandle(Signal(p), a);
      match answer
      case Exited(status) =>
        var exit := if q.exit.Some? then q.exit.value else status;
        var r := q.(exit := Some(exit));
        if ProbeUntilGone(probes) then (r.(treeReaped := true, log := r.log + [Absent]), Ok(exit))
        else (r, Err(TerminateFailed))
      case NoChild | WaitError => (q, Err(WaitFailed))
      case NoAnswer => (q, Err(TerminateFailed))
  }

  /** terminate */
  function Terminate(p: Process, polls: seq<Poll>, a: WaitAnswer, probes: seq<Probe>): (Process, Result<int, Failure>) {
    if p.treeReaped then (p, if p.exit.Some? then Ok(p.exit.value) else Err(WaitFailed))
    else
      var (q, seen) := if p.exit.None? then Observe(p, polls) else (p, None);
      if seen.Some? && seen.value.Err? then (q, Err(seen.value.error))
      else if !q.child then (q, Err(Unconfirmed))
      else Reap(q, a, probes)
  }

  /** Drop */
  function Release(p: Process): Process {
    if !p.child then p
    else
      var q := if !p.treeReaped && p.authorized && p.id then p.(authorized := false, log := p.log + [Killed]) else p;
      q.(child := false)
  }

  datatype Op =
    | DoWait(answer: WaitAnswer)
    | DoObserve(polls: seq<Poll>)
    | DoTerminate(polls: seq<Poll>, answer: WaitAnswer, probes: seq<Probe>)
    | DoRelease

  function Do(p: Process, op: Op): Process {
    match op
    case DoWait(a) => Wait(p, a).0
    case DoObserve(polls) => Observe(p, polls).0
    case DoTerminate(polls, a, probes) => Terminate(p, polls, a, probes).0
    case DoRelease => Release(p)
  }

  function Run(ops: seq<Op>): Process {
    if ops == [] then SPAWNED else Do(Run(ops[..|ops| - 1]), ops[|ops| - 1])
  }

  // ---------------------------------------------------------- properties

  /** At most one kill, and none once the leader's identity is gone. */
  predicate SafeLog(log: seq<OsEvent>) {
    forall i, j :: 0 <= i < j < |log| && log[j] == Killed ==> log[i] == Absent
  }

  /** Authority is held exactly while nothing has ended it; the flags mirror
      the log. */
  predicate Consistent(p: Process) {
    && SafeLog(p.log)
    && (p.authorized <==> Killed !in p.log && Reaped !in p.log && Lost !in p.log)
    && (p.lost <==> Lost in p.log)
    && (!p.id <==> Reaped in p.log)
    && (!p.id ==> p.exit.Some?)
    && (p.exit.Some? ==> !p.id)
    && (p.treeReaped ==> Proven(p.log))
    && (Absent in p.log ==> Reaped in p.log)
  }

  /** A reap of the leader, and later a proof that the group is gone. */
  predicate Proven(log: seq<OsEvent>) {
    exists i, j :: 0 <= i < j < |log| && log[i] == Reaped && log[j] == Absent
  }

  lemma AppendSafe(log: seq<OsEvent>, e: OsEvent)
    requires SafeLog(log) && (e == Killed ==> Killed !in log && Reaped !in log && Lost !in log)
    ensures SafeLog(log + [e]) && (Proven(log) ==> Proven(log + [e]))
  {
    var more := log + [e];
    forall i, j | 0 <= i < j < |more| && more[j] == Killed ensures more[i] == Absent {
      if j == |log| { assert log[i] in log; }
    }
    if Proven(log) {
      var i, j :| 0 <= i < j < |log| && log[i] == Reaped && log[j] == Absent;
      assert more[i] == Reaped && more[j] == Absent;
    }
  }

  lemma AppendAbsent(log: seq<OsEvent>)
    requires Reaped in log
    ensures Proven(log + [Absent])
  {
    var i :| 0 <= i < |log| && log[i] == Reaped;
    assert (log + [Absent])[i] == Reaped && (log + [Absent])[|log|] == Absent;
  }

  lemma LoseOk(p: Process)
    requires Consistent(p)
    ensures Consistent(LoseIdentity(p))
  {
    AppendSafe(p.log, Lost);
  }

  lemma {:induction false} PollOk(p: Process, polls: seq<Poll>)
    requires Consistent(p)
    ensures Consistent(PollUntilExit(p, polls).0) && PollUntilExit(p, polls).0.child == p.child
    decreases |polls|
  {
    if !p.lost && polls != [] {
      match polls[0]
      case NotYet | Interrupted => PollOk(p, polls[1..]);
      case PollNoChild => LoseOk(p);
      case _ =>
    }
  }

  lemma SignalOk(p: Process)
    requires Consistent(p)
    ensures Consistent(Signal(p)) && !Signal(p).authorized && Signal(p).id == p.id && Signal(p).exit == p.exit
  {
    if p.authorized { AppendSafe(p.log, Killed); }
  }

  /** A completed wait: the handle forgets its pid and the exit is cached. */
  lemma ReapedOk(p: Process, status: int)
    requires Consistent(p) && p.id
    ensures Consistent(p.(id := false, authorized := false, exit := Some(status), log := p.log + [Reaped]))
  {
    AppendSafe(p.log, Reaped);
  }

  lemma WaitOk(p: Process, a: WaitAnswer)
    requires Consistent(p)
    ensures Consistent(Wait(p, a).0)
  {
    if p.exit.None? && !p.lost && p.child {
      match a
      case Exited(status) => ReapedOk(p, status);
      case NoChild => LoseOk(p);
      case _ =>
    }
  }

  lemma AbsentOk(p: Process)
    requires Consistent(p) && !p.id
    ensures Consistent(p.(treeReaped := true, log := p.log + [Absent]))
  {
    AppendSafe(p.log, Absent);
    AppendAbsent(p.log);
  }

  lemma ReapOk(p: Process, a: WaitAnswer, probes: seq<Probe>)
    requires Consistent(p)
    ensures Consistent(Reap(p, a, probes).0)
  {
    if !p.lost {
      SignalOk(p);
      var q := Signal(p);
      if !q.id {
        assert q.(exit := Some(q.exit.value)) == q;
        AbsentOk(q);
      } else {
        match a
        case Exited(status) =>
          var r := q.(id := false, authorized := false, exit := Some(status), log := q.log + [Reaped]);
          ReapedOk(q, status);
          AbsentOk(r);
        case NoChild => LoseOk(q);
        case _ =>
      }
    }
  }

  lemma ReleaseOk(p: Process)
    requires Consistent(p)
    ensures Consistent(Release(p))
  {
    if p.authorized { AppendSafe(p.log, Killed); }
  }

  lemma DoOk(p: Process, op: Op)
    requires Consistent(p)
    ensures Consistent(Do(p, op))
  {
    match op
    case DoWait(a) => WaitOk(p, a);
    case DoObserve(polls) => PollOk(p, polls);
    case DoTerminate(polls, a, probes) =>
      PollOk(p, polls);
      ReapOk(p, a, probes);
      ReapOk(PollUntilExit(p, polls).0, a, probes);
    case DoRelease => ReleaseOk(p);
  }

  lemma {:induction false} RunIsConsistent(ops: seq<Op>)
    ensures Consistent(Run(ops))
  {
    if ops != [] {
      RunIsConsistent(ops[..|ops| - 1]);
      DoOk(Run(ops[..|ops| - 1]), ops[|ops| - 1]);
    }
  }

  /** Over any calls and any answers: a destructive signal is never preceded by
      another one, by an observed reap or by an observed loss of identity. */
  lemma SignalsOnlyWhatItOwns(ops: seq<Op>, i: nat, j: nat)
    requires i < j < |Run(ops).log| && Run(ops).log[j] == Killed
    ensures Run(ops).log[i] != Killed && Run(ops).log[i] != Reaped && Run(ops).log[i] != Lost
  {
    RunIsConsistent(ops);
  }

  /** The tree counts as reaped only after the leader was reaped and, later, the
      group was proved absent. */
  lemma ReapedMeansProven(ops: seq<Op>)
    requires Run(ops).treeReaped
    ensures Proven(Run(ops).log)
  {
    RunIsConsistent(ops);
  }

  // ------------------------------------------------- what is achieved

  /** The authority to signal ends only with the signal, a reap of the leader
      or a loss of its identity. */
  lemma AuthorityEndsForAReason(ops: seq<Op>)
    ensures Run(ops).authorized <==>
            Killed !in Run(ops).log && Reaped !in Run(ops).log && Lost !in Run(ops).log
  {
    RunIsConsistent(ops);
  }

  /** The polls end in a failure before they see the exit. */
  predicate ObservationFails(polls: seq<Poll>) {
    exists i :: 0 <= i < |polls| && (polls[i].PollNoChild? || polls[i].PollError?) && StillRunning(polls[..i])
  }

  /** The polls see the exit. */
  predicate ExitSeen(polls: seq<Poll>) {
    exists i :: 0 <= i < |polls| && polls[i].PollExited? && StillRunning(polls[..i])
  }

  predicate StillRunning(polls: seq<Poll>) {
    forall i :: 0 <= i < |polls| ==> polls[i].NotYet? || polls[i].Interrupted?
  }

  /** Every probe up to one that finds the group gone finds it there. */
  predicate GroupVanishes(probes: seq<Probe>) {
    exists i :: 0 <= i < |probes| && probes[i].Gone? && forall j :: 0 <= j < i ==> probes[j].StillThere?
  }

  lemma {:induction false} ProbeMeans(probes: seq<Probe>)
    ensures ProbeUntilGone(probes) <==> GroupVanishes(probes)
    decreases |probes|
  {
    if probes != [] {
      ProbeMeans(probes[1..]);
      if GroupVanishes(probes[1..]) && probes[0].StillThere? {
        var i :| 0 <= i < |probes[1..]| && probes[1..][i].Gone? &&
                 forall j :: 0 <= j < i ==> probes[1..][j].StillThere?;
        assert forall j :: 1 <= j < i + 1 ==> probes[j] == probes[1..][j - 1];
        assert probes[i + 1].Gone?;
      }
      if GroupVanishes(probes) && !probes[0].Gone? {
        var i :| 0 <= i < |probes| && probes[i].Gone? && forall j :: 0 <= j < i ==> probes[j].StillThere?;
        assert probes[1..][i - 1].Gone?;
        assert probes[0].StillThere?;
      }
    }
  }

  lemma FailsNow(polls: seq<Poll>)
    requires polls != [] && (polls[0].PollNoChild? || polls[0].PollError?)
    ensures ObservationFails(polls)
  {
    assert StillRunning(polls[..0]);
  }

  lemma SeenLater(polls: seq<Poll>)
    requires polls != [] && !polls[0].PollExited?
    ensures ExitSeen(polls) <==> (polls[0].NotYet? || polls[0].Interrupted?) && ExitSeen(polls[1..])
  {
    if ExitSeen(polls) {
      var i :| 0 <= i < |polls| && polls[i].PollExited? && StillRunning(polls[..i]);
      assert polls[..i][0] == polls[0];
      assert polls[1..][i - 1] == polls[i] && polls[1..][..i - 1] == polls[..i][1..];
    }
    if (polls[0].NotYet? || polls[0].Interrupted?) && ExitSeen(polls[1..]) {
      var i :| 0 <= i < |polls[1..]| && polls[1..][i].PollExited? && StillRunning(polls[1..][..i]);
      assert polls[..i + 1] == [polls[0]] + polls[1..][..i];
      assert polls[i + 1] == polls[1..][i];
    }
  }

  /** Observing reports the exit exactly when it is known already or the polls
      see it; it never reaps and never signals. */
  lemma ObserveMeans(ops: seq<Op>, polls: seq<Poll>)
    ensures var p := Run(ops);
            var (q, seen) := Observe(p, polls);
            && (seen == Some(Ok(())) <==> p.exit.Some? || (!p.lost && ExitSeen(polls)))
            && (q == p || q == LoseIdentity(p))
  {
    var p := Run(ops);
    if p.exit.None? && !p.lost {
      PollMeans(p, polls);
      PollSees(p, polls);
    }
  }

  lemma {:induction false} PollSees(p: Process, polls: seq<Poll>)
    requires !p.lost
    ensures PollUntilExit(p, polls).1 == Some(Ok(())) <==> ExitSeen(polls)
    decreases |polls|
  {
    if polls != [] {
      if polls[0].PollExited? {
        assert StillRunning(polls[..0]);
      } else {
        SeenLater(polls);
        PollSees(p, polls[1..]);
      }
    }
  }

  lemma FailsLater(polls: seq<Poll>)
    requires polls != [] && !polls[0].PollNoChild? && !polls[0].PollError?
    ensures ObservationFails(polls) <==> !polls[0].PollExited? && ObservationFails(polls[1..])
  {
    if ObservationFails(polls) {
      var i :| 0 <= i < |polls| && (polls[i].PollNoChild? || polls[i].PollError?) && StillRunning(polls[..i]);
      assert polls[..i][0] == polls[0];
      assert polls[1..][i - 1] == polls[i] && polls[1..][..i - 1] == polls[..i][1..];
    }
    if !polls[0].PollExited? && ObservationFails(polls[1..]) {
      var i :| 0 <= i < |polls[1..]| && (polls[1..][i].PollNoChild? || polls[1..][i].PollError?) &&
               StillRunning(polls[1..][..i]);
      assert polls[..i + 1] == [polls[0]] + polls[1..][..i];
      assert polls[i + 1] == polls[1..][i];
    }
  }

  /** Polling fails exactly when the polls do; otherwise it changes nothing. */
  lemma {:induction false} PollMeans(p: Process, polls: seq<Poll>)
    requires !p.lost
    ensures var (q, seen) := PollUntilExit(p, polls);
            && (seen.Some? && seen.value.Err? <==> ObservationFails(polls))
            && (!ObservationFails(polls) ==> q == p)
            && (q == p || q == LoseIdentity(p))
    decreases |polls|
  {
    if polls != [] {
      if polls[0].PollNoChild? || polls[0].PollError? {
        FailsNow(polls);
      } else {
        FailsLater(polls);
        if !polls[0].PollExited? { PollMeans(p, polls[1..]); }
      }
    }
  }

  /** Terminating a process whose authority and handle are held signals its
      group, unless observing its exit fails. */
  lemma TerminateSignals(ops: seq<Op>, polls: seq<Poll>, a: WaitAnswer, probes: seq<Probe>)
    requires Run(ops).authorized && Run(ops).child
    ensures Killed in Terminate(Run(ops), polls, a, probes).0.log <==> !ObservationFails(polls)
  {
    var p := Run(ops);
    RunIsConsistent(ops);
    PollMeans(p, polls);
    if !ObservationFails(polls) {
      assert Signal(p).log == p.log + [Killed];
      assert Signal(p).log[|p.log|] == Killed;
      assert Signal(p).log <= Reap(p, a, probes).0.log;
    }
  }

  /** Dropping the handle signals the group exactly when the authority is still
      held, so a tree is never left running unsignalled. */
  lemma DropSignals(ops: seq<Op>)
    ensures Release(Run(ops)).log == Run(ops).log + if Run(ops).authorized && Run(ops).child then [Killed] else []
    ensures Run(ops).child ==>
              var log := Release(Run(ops)).log; Killed in log || Reaped in log || Lost in log
  {
    var p := Run(ops);
    RunIsConsistent(ops);
    if p.authorized && p.child {
      assert Release(p).log[|p.log|] == Killed;
    }
  }

  /** What makes a terminate succeed. */
  predicate Terminates(p: Process, polls: seq<Poll>, a: WaitAnswer, probes: seq<Probe>) {
    && p.child && !p.lost && (p.exit.None? ==> !ObservationFails(polls) && a.Exited?)
    && GroupVanishes(probes)
  }

  /** terminate succeeds exactly when the tree is already known to be reaped, or
      the exit can be observed, the leader reaped and the group seen to vanish;
      it returns the leader's status, and the tree counts as reaped exactly then. */
  lemma TerminateSucceeds(ops: seq<Op>, polls: seq<Poll>, a: WaitAnswer, probes: seq<Probe>)
    ensures var p := Run(ops);
            var (q, r) := Terminate(p, polls, a, probes);
            && (r.Ok? <==> p.treeReaped || Terminates(p, polls, a, probes))
            && (r.Ok? <==> q.treeReaped)
            && (r.Ok? ==> r.value == if p.exit.Some? then p.exit.value else if a.Exited? then a.status else 0)
  {
    var p := Run(ops);
    RunIsConsistent(ops);
    ProbeMeans(probes);
    if p.treeReaped {
      var i, j :| 0 <= i < j < |p.log| && p.log[i] == Reaped && p.log[j] == Absent;
      assert p.log[i] in p.log;
    } else if !p.lost && p.exit.None? {
      PollMeans(p, polls);
    }
  }

  /** An exit status once known never changes, and a wait returns it. */
  lemma ExitIsStable(ops: seq<Op>, op: Op, a: WaitAnswer)
    requires Run(ops).exit.Some?
    ensures Do(Run(ops), op).exit == Run(ops).exit
    ensures Wait(Run(ops), a).1 == Ok(Run(ops).exit.value)
  {
    RunIsConsistent(ops);
    if op.DoTerminate? && !Run(ops).treeReaped {
      ProbeMeans(op.probes);
    }
  }

  // --------------------------------------------------- flags in place

  class CodexProcess {
    var exit: Option<int>
    var treeReaped: bool
    var groupSignalAuthorized: bool
    var identityLost: bool
    var hasId: bool
    var hasChild: bool
    ghost var log: seq<OsEvent>

    ghost function Abstract(): Process
      reads this
    {
      Process(exit, treeReaped, groupSignalAuthorized, identityLost, hasId, hasChild, log)
    }

    constructor ()
      ensures Abstract() == SPAWNED
    {
      exit, treeReaped, groupSignalAuthorized, identityLost, hasId, hasChild := None, false, true, false, true, true;
      log := [];
    }

    method RecordIdentityLoss()
      modifies this
      ensures Abstract() == LoseIdentity(old(Abstract()))
    {
      groupSignalAuthorized := false;
      identityLost := true;
      log := log + [Lost];
    }

    method WaitOnHandle(a: WaitAnswer) returns (answer: WaitAnswer)
      modifies this
      ensures (Abstract(), answer) == WaitHandle(old(Abstract()), a)
    {
      if !hasId {
        return Exited(if exit.Some? then exit.value else 0);
      }
      answer := a;
      match a {
        case Exited(_) =>
          hasId := false;
          log := log + [Reaped];
        case NoChild => RecordIdentityLoss();
        case WaitError =>
        case NoAnswer =>
      }
    }

    method WaitForExit(a: WaitAnswer) returns (r: Result<int, Failure>)
      modifies this
      ensures (Abstract(), r) == Wait(old(Abstract()), a)
    {
      if exit.Some? {
        return Ok(exit.value);
      }
      if identityLost || !hasChild {
        return Err(Unconfirmed);
      }
      var answer := WaitOnHandle(a);
      if answer.Exited? {
        groupSignalAuthorized := false;
        exit := Some(answer.status);
        return Ok(answer.status);
      }
      return Err(WaitFailed);
    }

    method ObserveExit(polls: seq<Poll>) returns (r: Option<Result<(), Failure>>)
      modifies this
      ensures (Abstract(), r) == Observe(old(Abstract()), polls)
    {
      if exit.Some? {
        return Some(Ok(()));
      }
      if identityLost {
        return Some(Err(Unconfirmed));
      }
      var i := 0;
      while i < |polls|
        invariant i <= |polls| && Abstract() == old(Abstract())
        invariant PollUntilExit(Abstract(), polls[i..]) == PollUntilExit(old(Abstract()), polls)
      {
        match polls[i] {
          case PollExited => return Some(Ok(()));
          case PollNoChild =>
            RecordIdentityLoss();
            return Some(Err(WaitFailed));
          case PollError => return Some(Err(WaitFailed));
          case NotYet =>
          case Interrupted =>
        }
        assert polls[i..][1..] == polls[i + 1..];
        i := i + 1;
      }
      return None;
    }

    static method ProbeGroup(probes: seq<Probe>) returns (gone: bool)
      ensures gone == ProbeUntilGone(probes)
    {
      for i := 0 to |probes|
        invariant ProbeUntilGone(probes[i..]) == ProbeUntilGone(probes)
      {
        match probes[i] {
          case Gone => return true;
          case ProbeError => return false;
          case StillThere => assert probes[i..][1..] == probes[i + 1..];
        }
      }
      return false;
    }

    method ReapTree(a: WaitAnswer, probes: seq<Probe>) returns (r: Result<int, Failure>)
      modifies this
      ensures (Abstract(), r) == Reap(old(Abstract()), a, probes)
    {
      if identityLost {
        return Err(Unconfirmed);
      }
      if !hasId {
        groupSignalAuthorized := false;
      }
      if groupSignalAuthorized {
        log := log + [Killed];
        groupSignalAuthorized := false;
      }
      var answer := WaitOnHandle(a);
      match answer {
        case Exited(status) =>
          exit := Some(if exit.Some? then exit.value else status);
          var gone := ProbeGroup(probes);
          if !gone {
            return Err(TerminateFailed);
          }
          treeReaped := true;
          log := log + [Absent];
          return Ok(exit.value);
        case NoChild | WaitError => return Err(WaitFailed);
        case NoAnswer => return Err(TerminateFailed);
      }
    }

    method TerminateTree(polls: seq<Poll>, a: WaitAnswer, probes: seq<Probe>) returns (r: Result<int, Failure>)
      modifies this
      ensures (Abstract(), r) == Terminate(old(Abstract()), polls, a, probes)
    {
      if treeReaped {
        return if exit.Some? then Ok(exit.value) else Err(WaitFailed);
      }
      if exit.None? {
        var seen := ObserveExit(polls);
        if seen.Some? && seen.value.Err? {
          return Err(seen.value.error);
        }
      }
      if !hasChild {
        return Err(Unconfirmed);
      }
      r := ReapTree(a, probes);
    }

    method Drop()
      modifies this
      ensures Abstract() == Release(old(Abstract()))
    {
      if hasChild {
        if !treeReaped && groupSignalAuthorized && hasId {
          log := log + [Killed];
          groupSignalAuthorized := false;
        }
        hasChild := false;
      }
    }
  }
}
