/** What a finished cycle amounts to: final outcome and process exit code. */
module Outcomes {
  import opened Wrappers
  import opened States
  import opened Records

  const HEALTH_FAILURE := "health-check-failed"

  predicate HealthFailed(error: Option<ErrorInfo>) {
    error.Some? && error.value.kind == HEALTH_FAILURE
  }

  predicate AllHealthy(results: seq<HealthResult>) {
    forall i | 0 <= i < |results| :: results[i].ok
  }

  predicate CriticalFailure(hs: seq<HealthResult>) {
    exists i :: 0 <= i < |hs| && hs[i].critical && !hs[i].ok
  }

  function FinalOutcome(c: CycleState): Outcome {
    if HealthFailed(c.error) then OutcomeFailed
    else if c.outcome == Some(ManualRebootRequired) then ManualRebootRequired
    else if c.warnings != [] || !AllHealthy(c.healthResults) then SuccessWithWarnings
    else if !c.updatesApplied && c.packagesPending == 0 then NoUpdates
    else OutcomeSuccess
  }

  function ExitCode(outcome: Option<Outcome>): int {
    match outcome
    case Some(ManualRebootRequired) => 6
    case Some(OutcomeFailed) => 1
    case Some(Blocked) => 2
    case _ => 0
  }

  /** Outcomes that tell the administrator nothing is left to do. */
  predicate AllDone(o: Option<Outcome>) {
    o == Some(OutcomeSuccess) || o == Some(SuccessWithWarnings) || o == Some(NoUpdates)
  }

  /** Storing the computed outcome and any delivery results leaves the computed outcome as it was. */
  lemma FinalOutcomeStable(c: CycleState, status: map<Name, string>)
    ensures FinalOutcome(c.(outcome := Some(FinalOutcome(c)), notificationStatus := status)) == FinalOutcome(c)
  {
  }

  function Pending(us: seq<UpdateInfo>): nat {
    if us == [] then 0 else Pending(us[..|us|-1]) + (if IsHeld(us[|us|-1]) then 0 else 1)
  }

  /** The updates not held back, in order: what is handed to the package manager. */
  function Unheld(us: seq<UpdateInfo>): seq<UpdateInfo> {
    if us == [] then [] else Unheld(us[..|us|-1]) + (if IsHeld(us[|us|-1]) then [] else [us[|us|-1]])
  }

  lemma {:induction false} UnheldCounts(us: seq<UpdateInfo>)
    ensures |Unheld(us)| == Pending(us)
    ensures forall u :: u in Unheld(us) <==> u in us && !IsHeld(u)
  {
    if us != [] {
      var last := us[|us| - 1];
      UnheldCounts(us[..|us| - 1]);
      assert us == us[..|us| - 1] + [last];
      forall u ensures u in Unheld(us) <==> u in us && !IsHeld(u) {
        assert u in us <==> u in us[..|us| - 1] || u == last;
      }
    }
  }

  /** What is pending are the updates not held back, and these are handed on. */
  lemma {:induction false} PendingCounts(us: seq<UpdateInfo>)
    ensures Pending(us) == |set i | 0 <= i < |us| && !IsHeld(us[i])|
  {
    var here := set i | 0 <= i < |us| && !IsHeld(us[i]);
    if us != [] {
      var last := |us| - 1;
      PendingCounts(us[..last]);
      var before := set i | 0 <= i < |us[..last]| && !IsHeld(us[..last][i]);
      assert here == before + if IsHeld(us[last]) then {} else {last};
    }
  }

  /** A record as `run` creates it, before its first save. */
  function NewCycle(runId: string, hostname: string, startedAt: string, provider: string): CycleState {
    CycleState(
      runId, IDLE, hostname, SCHEMA_VERSION, None, startedAt, "", map[], provider, [], 0, 0, false, false, None,
      false, [], false, None, None, "", None, None, 0, false, false, None, None, [], [], map[], None, [], false)
  }
}
