/**
 The job state machine shared by the Go runtime (`domain/job_state.go`) and the
 Python API (`core/state_machine.py`), and the source lists that the runtime
 turns into SQL guards (`legalSourcesSQL`).
 */
module JobStates {

  datatype JobState =
    | Queued
    | Admitted
    | Starting
    | Running
    | RetryWait
    | RecoveryPending
    | CancelRequested
    | Succeeded
    | Failed
    | Cancelled
  {
    predicate IsTerminal() {
      Succeeded? || Failed? || Cancelled?
    }
  }

  const AllStates: seq<JobState> :=
    [Queued, Admitted, Starting, Running, RetryWait, RecoveryPending, CancelRequested,
     Succeeded, Failed, Cancelled]

  /** The transition table. */
  function LegalTargets(from: JobState): set<JobState> {
    match from
    case Queued => {Admitted, CancelRequested}
    case Admitted => {Starting, CancelRequested}
    case Starting => {Running, RetryWait, Failed, CancelRequested}
    case Running => {Succeeded, RetryWait, Failed, CancelRequested, RecoveryPending}
    case RetryWait => {Queued, CancelRequested}
    case RecoveryPending => {RetryWait, Failed, CancelRequested}
    case CancelRequested => {Cancelled}
    case Succeeded => {}
    case Failed => {}
    case Cancelled => {}
  }

  /** Membership in the table, as a test on the two states. */
  predicate Legal(from: JobState, to: JobState) {
    match from
    case Queued => to.Admitted? || to.CancelRequested?
    case Admitted => to.Starting? || to.CancelRequested?
    case Starting => to.Running? || to.RetryWait? || to.Failed? || to.CancelRequested?
    case Running => to.Succeeded? || to.RetryWait? || to.Failed? || to.CancelRequested? || to.RecoveryPending?
    case RetryWait => to.Queued? || to.CancelRequested?
    case RecoveryPending => to.RetryWait? || to.Failed? || to.CancelRequested?
    case CancelRequested => to.Cancelled?
    case _ => false
  }

  lemma LegalIsTheTable(from: JobState, to: JobState)
    ensures Legal(from, to) <==> to in LegalTargets(from)
  {
  }

  datatype TransitionError = TerminalState | InvalidTransition | NoError

  /** `ValidateTransition`: a terminal source is reported before a missing edge. */
  function ValidateTransition(current: JobState, next: JobState): (e: TransitionError)
    ensures e.NoError? <==> Legal(current, next)
    ensures e.TerminalState? <==> current.IsTerminal()
  {
    LegalIsTheTable(current, next);
    if current.IsTerminal() then TerminalState
    else if next !in LegalTargets(current) then InvalidTransition
    else NoError
  }

  /** What the guard `state IN (legalSourcesSQL(targets))` means. */
  predicate InLegalSources(state: JobState, targets: set<JobState>) {
    exists t :: t in targets && Legal(state, t)
  }

  predicate NoRepeats(states: seq<JobState>) {
    forall i, j :: 0 <= i < j < |states| ==> states[i] != states[j]
  }

  /** `LegalSourcesFor`: every state with an edge to `target`, once each. */
  method LegalSourcesFor(target: JobState) returns (sources: seq<JobState>)
    ensures NoRepeats(sources)
    ensures forall s :: s in sources <==> Legal(s, target)
  {
    sources := [];
    for n := 0 to |AllStates|
      invariant NoRepeats(sources)
      invariant forall s :: s in sources <==> s in AllStates[..n] && Legal(s, target)
    {
      assert AllStates[n] !in AllStates[..n];
      LegalIsTheTable(AllStates[n], target);
      if target in LegalTargets(AllStates[n]) {
        sources := sources + [AllStates[n]];
      }
    }
    assert AllStates[..|AllStates|] == AllStates;
    forall s: JobState ensures s in AllStates {
      match s
      case Queued => assert AllStates[0] == s;
      case Admitted => assert AllStates[1] == s;
      case Starting => assert AllStates[2] == s;
      case Running => assert AllStates[3] == s;
      case RetryWait => assert AllStates[4] == s;
      case RecoveryPending => assert AllStates[5] == s;
      case CancelRequested => assert AllStates[6] == s;
      case Succeeded => assert AllStates[7] == s;
      case Failed => assert AllStates[8] == s;
      case Cancelled => assert AllStates[9] == s;
    }
  }

  /**
   `legalSourcesSQL`: the list put into the SQL guard holds exactly the states the guard
   is meant to admit, without repetition, whatever order and repetition the targets have.
   */
  method LegalSourcesSQL(targets: seq<JobState>) returns (sources: seq<JobState>)
    ensures NoRepeats(sources)
    ensures forall s :: s in sources <==> InLegalSources(s, set t | t in targets)
  {
    sources := [];
    for n := 0 to |targets|
      invariant NoRepeats(sources)
      invariant forall s :: s in sources <==> exists i :: 0 <= i < n && Legal(s, targets[i])
    {
      var more := LegalSourcesFor(targets[n]);
      ghost var before := sources;
      for k := 0 to |more|
        invariant NoRepeats(sources)
        invariant forall s :: s in sources <==> s in before || s in more[..k]
      {
        if more[k] !in sources {
          sources := sources + [more[k]];
        }
      }
      assert more[..|more|] == more;
    }
  }

  /** The CASE of `MarkJobAttemptFailed`. */
  function FailureTarget(state: JobState, shouldRetry: bool): JobState {
    if state.CancelRequested? then Cancelled else if shouldRetry then RetryWait else Failed
  }

  /** The CASE of `MarkJobAttemptSucceeded`. */
  function SuccessTarget(state: JobState): JobState {
    if state.CancelRequested? then Cancelled else Succeeded
  }

  /** The target that `ConfirmJobRecovery` chooses before it knows the job's state. */
  function RecoveryTarget(shouldRetry: bool, isCancel: bool): JobState {
    if isCancel then Cancelled else if shouldRetry then RetryWait else Failed
  }

  const FAILURE_TARGETS: set<JobState> := {RetryWait, Failed, Cancelled}
  const SUCCESS_TARGETS: set<JobState> := {Succeeded, Cancelled}

  /**
   Although each multi-target update is guarded by the union of its targets' sources, the
   CASE never picks an edge the table does not have, and the guard excludes no source from
   which the chosen edge exists.
   */
  lemma CaseUpdatesAreLegal(s: JobState, shouldRetry: bool)
    ensures InLegalSources(s, FAILURE_TARGETS) <==> Legal(s, FailureTarget(s, shouldRetry))
    ensures InLegalSources(s, SUCCESS_TARGETS) <==> Legal(s, SuccessTarget(s))
    ensures InLegalSources(s, {RecoveryTarget(shouldRetry, false)}) <==> s in {Starting, Running, RecoveryPending}
    ensures InLegalSources(s, {Cancelled}) <==> s.CancelRequested?
  {
    var f, g, r := FailureTarget(s, shouldRetry), SuccessTarget(s), RecoveryTarget(shouldRetry, false);
    assert f in FAILURE_TARGETS && g in SUCCESS_TARGETS && r in {r} && Cancelled in {Cancelled};
  }
}
