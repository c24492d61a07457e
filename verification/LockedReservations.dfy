/**
 A run in which a skipped release leaves a reservation that no job occupies: an API request that is refused in the end
 holds the workspace's only ACTIVE row locked while the job that took it finishes.
 */
module LockedReservations {
  import opened Options
  import opened JobStates
  import opened JobTables
  import opened JobProtocol
  import opened QuotaReservations
  import opened OverlapLimits

  /** The job's worker reports RUNNING and then success; the release finds the row locked. */
  const FINISH: seq<Op> := [MarkRunning(CLAIM1), MarkSucceeded(CLAIM1, None)]

  const RUNNING_DB := CLAIMED1.(jobs := map[0 := JobRow(Running, 1, 100)],
                                attempts := map[0 := Attempt(0, 1, Running, 1, None, None)])
  const DONE_DB := CLAIMED1.(jobs := map[0 := JobRow(Succeeded, 1, 100)],
                             attempts := map[0 := Attempt(0, 1, Succeeded, 1, Some(0), None)],
                             intents := map[0 := Intent(0, Applied, 1, Some(7), Some(60))])

  lemma FinishSteps()
    ensures RunningTx(CLAIMED1, CLAIM1, 100) == RUNNING_DB
    ensures SucceededTx(RUNNING_DB, CLAIM1, None, 100) == DONE_DB
  {
    assert RunningOk(CLAIMED1, CLAIM1);
    CaseUpdatesAreLegal(Running, true);
    assert SucceededOk(RUNNING_DB, CLAIM1);
  }

  lemma FinishRun()
    ensures Run(INIT, FIRST_ATTEMPT + FINISH) == W5.(db := DONE_DB)
  {
    FirstAttemptRun();
    FinishSteps();
    RunConcat(INIT, FIRST_ATTEMPT, FINISH);
    assert Apply(W5, FINISH[0]) == W5.(db := RUNNING_DB);
    assert Apply(W5.(db := RUNNING_DB), FINISH[1]) == W5.(db := DONE_DB);
    ChainIsRun([W5, W5.(db := RUNNING_DB), W5.(db := DONE_DB)], FINISH);
  }

  /** One ACTIVE reservation, no job that occupies a slot. */
  lemma LockedRowIsOverCounted()
    ensures var db := Run(INIT, FIRST_ATTEMPT + FINISH).db;
            |ActiveRows(db.reservations, 0)| == 1 && |Occupying(db, 0)| == 0
  {
    FinishRun();
    assert ActiveRows(DONE_DB.reservations, 0) == {0};
    assert Occupying(DONE_DB, 0) == {};
  }
}
