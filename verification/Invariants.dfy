/** What every reachable world satisfies, and the proof that every allowed event keeps it. */
module Invariants {
  import opened Wrappers
  import opened States
  import opened Records
  import opened Outcomes
  import opened Protocol

  // ---------------------------------------------------- facts of a record

  /** Where the logged transitions lead from IDLE, if they are a contiguous walk of the table. */
  function WalkEnd(ts: seq<Transition>): Option<State> {
    if ts == [] then Some(IDLE)
    else
      var last, before := ts[|ts| - 1], WalkEnd(ts[..|ts| - 1]);
      if before.None? || last.src != Some(StateName(before.value)) || last.dst.None? then None
      else
        var dst := ParseState(last.dst.value);
        if dst.Some? && IsLegal(before.value, dst.value) then dst else None
  }

  /** The audit trail ends at the current state, or the cycle was forced to FAILED where no arc leads there. */
  ghost predicate TrailOk(c: CycleState) {
    var end := WalkEnd(c.transitions);
    end == Some(c.state) || (c.state.FAILED? && (end == Some(NOTIFYING) || end == Some(COMPLETED)))
  }

  predicate Excused(c: CycleState) {
    c.outcome == Some(ManualRebootRequired) || HealthFailed(c.error)
  }

  predicate RebootProved(c: CycleState) {
    c.bootIdBefore.Some? && c.bootIdAfter.Some? && c.bootIdBefore != c.bootIdAfter
  }

  predicate Awaiting(s: State) {
    s.REBOOT_PENDING? || s.REBOOTING? || s.POST_REBOOT?
  }

  /** Reboot bookkeeping, state by state. */
  ghost predicate PhaseOk(c: CycleState) {
    && !c.state.IDLE?
    && (c.rebootBeforeUpdates ==> !c.initialRebootCompleted && c.rebootRequired)
    && (c.rebootBeforeUpdates ==> Awaiting(c.state) || c.state.FAILED? || (Late(c.state) && Excused(c)))
    && (BeforeRebooting(c.state) || c.state.PRECHECK? ==> c.bootIdAfter.None? && c.rebootAttempts == 0)
    && (BeforeRebooting(c.state) || c.state.REBOOTING? || c.state.POST_REBOOT? ==> Truthy(c.bootIdBefore))
    && (c.state.REBOOTING? ==> c.bootIdAfter.None?)
    && (c.state.POST_REBOOT? && c.bootIdAfter.Some? ==> Truthy(c.bootIdAfter) && RebootProved(c))
  }

  /** Nothing is left to apply: an apply was recorded, or discovery found nothing. */
  predicate Settled(c: CycleState) {
    c.updatesApplied || c.packagesPending == 0
  }

  predicate Undecided(c: CycleState) {
    c.outcome.None? || c.outcome == Some(ManualRebootRequired)
  }

  /** What the record claims is what happened. */
  ghost predicate TruthOk(c: CycleState) {
    && (Late(c.state) && !c.state.VERIFYING? ==> c.verifyPassed == Some(true) && c.outstandingUpdates == Some(0))
    && (c.state.CHECKING_REBOOT? ==> Settled(c))
    && (Awaiting(c.state) && !c.rebootBeforeUpdates ==> Settled(c))
    && (Late(c.state) && !Excused(c) ==> Settled(c) && (c.rebootRequired ==> RebootProved(c)))
    && (!Late(c.state) && !c.state.FAILED? ==> c.outcome.None?)
    && (c.state.VERIFYING? || c.state.HEALTH_CHECKING? ==> Undecided(c))
    && (c.state.NOTIFYING? ==> Undecided(c) || c.outcome == Some(FinalOutcome(c)))
    && (c.state.COMPLETED? ==> c.outcome == Some(FinalOutcome(c)))
    && (!c.state.NOTIFYING? && !Terminal(c.state) ==> c.error.None?)
    && (c.state.NOTIFYING? || c.state.COMPLETED? ==>
          && (c.error.Some? ==> HealthFailed(c.error))
          && (HealthFailed(c.error) <==> CriticalFailure(c.healthResults)))
    && (Late(c.state) && c.outcome == Some(ManualRebootRequired) ==> c.rebootRequired || c.preExistingReboot)
  }

  ghost predicate Sound(c: CycleState) {
    WellFormed(c) && TrailOk(c) && PhaseOk(c) && TruthOk(c)
  }

  // ----------------------------------------------------- facts of a world

  predicate BootsOk(boots: seq<string>) {
    && boots != []
    && (forall i | 0 <= i < |boots| :: boots[i] != "")
    && (forall i, j | 0 <= i < j < |boots| :: boots[i] != boots[j])
  }

  /** The record's boot facts are real boots of this machine, and attempts stay within budget. */
  ghost predicate Anchored(s: Sys, c: CycleState) {
    && c.runId in s.used
    && c.rebootAttempts <= s.maxAttempts
    && (c.bootIdBefore.Some? ==> c.bootIdBefore.value in s.boots)
    && (c.bootIdAfter.Some? ==> c.bootIdAfter.value in s.boots)
    && (c.state.POST_REBOOT? ==> !SameBoot(s, c))
  }

  ghost predicate ShelfOk(s: Sys, h: Shelf) {
    forall r | r in h :: h[r].runId == r && r in s.used && Terminal(h[r].state) && Sound(h[r])
  }

  /** The archive, now or after a power loss. */
  ghost predicate ArchiveOk(s: Sys) {
    forall h | h in Shelves(s) :: ShelfOk(s, h)
  }

  ghost predicate CellOk(s: Sys, x: Cell) {
    x.Rec? ==> Sound(x.cycle) && Anchored(s, x.cycle)
  }

  /** What may come back is as sound as what is there; unreadable bytes do not come back under readable ones. */
  ghost predicate PastOk(s: Sys) {
    forall x | x in s.past :: CellOk(s, x) && (x.Unreadable() ==> s.cell.Unreadable()) && !x.Aside?
  }

  ghost predicate ProcOk(s: Sys, p: Proc) {
    && (p.loaded ==> !s.cell.Unreadable())
    && (p.finishing ==> p.loaded && IsEngine(p) && s.cell.Rec? && Terminal(s.cell.cycle.state))
    && (ResumePathGate in p.gates ==> s.unitEnabled)
    && (p.paid ==>
          && s.cell.Rec?
          && var d := s.cell.cycle;
             d.state.REBOOTING? && SameBoot(s, d) && Truthy(d.rebootInitiatedAt) && d.rebootAttempts >= 1)
    && (p.applying ==>
          && s.cell.Rec?
          && var d := s.cell.cycle; d.updatesApplied || d.state.UPGRADING? || d.state.FAILED?)
    && (p.applied.Some? ==> p.applying)
  }

  ghost predicate Inv(s: Sys) {
    && BootsOk(s.boots)
    && ArchiveOk(s)
    && CellOk(s, s.cell) && PastOk(s)
    && (s.proc.Some? ==> ProcOk(s, s.proc.value))
  }

  // --------------------------------------------------------- preservation

  lemma WalkStep(ts: seq<Transition>, src: State, dst: State, at: string)
    requires WalkEnd(ts) == Some(src) && IsLegal(src, dst)
    ensures WalkEnd(ts + [StepEntry(src, dst, at)]) == Some(dst)
  {
    ParseOfName(dst);
    assert (ts + [StepEntry(src, dst, at)])[..|ts|] == ts;
  }

  lemma ArcTrail(edited: CycleState, c: CycleState)
    requires Arc(edited, c) && WalkEnd(edited.transitions) == Some(edited.state)
    ensures TrailOk(c)
  {
    var at := c.transitions[|c.transitions| - 1].at.GetOr("");
    WalkStep(edited.transitions, edited.state, c.state, at);
  }

  /** What an edit may do to the facts the safety theorems follow over a whole run. */
  ghost predicate EditFacts(s: Sys, p: Proc, d: CycleState, c: CycleState) {
    BootFacts(s, d, c) && WorkFacts(s, p, d, c) && ReportFacts(d, c) && MarkFacts(p, d, c)
  }

  /** What an edit marks sent was marked before, or the process had the answer. */
  ghost predicate MarkFacts(p: Proc, d: CycleState, c: CycleState) {
    Same(c.notificationStatus, d.notificationStatus) || MarksHonestly(p, d, c)
  }

  predicate BootFacts(s: Sys, d: CycleState, c: CycleState) {
    && (c.bootIdBefore == d.bootIdBefore || SameBoot(s, c))
    && (c.bootIdAfter == d.bootIdAfter || c.bootIdAfter.None?
        || (c.state.POST_REBOOT? && c.bootIdAfter == Some(Current(s))))
    && (c.state.POST_REBOOT? ==> !SameBoot(s, c))
    && (BeforeRebooting(c.state) || c.state.PRECHECK? ==>
          BeforeRebooting(d.state) || d.state.PRECHECK? || SameBoot(s, c))
    && (c.rebootAttempts > d.rebootAttempts ==>
          && c.rebootAttempts == d.rebootAttempts + 1 <= s.maxAttempts
          && d.state.REBOOTING? && c.state.REBOOTING? && SameBoot(s, c) && Truthy(c.rebootInitiatedAt))
    && (|| (c.initialRebootCompleted == d.initialRebootCompleted && c.rebootAttempts >= d.rebootAttempts)
        || (c.initialRebootCompleted && !d.initialRebootCompleted && c.rebootAttempts == 0))
    && (d.state.POST_REBOOT? && (c.state.VERIFYING? || c.state.PRECHECK?) ==>
          !SameBoot(s, d) && d.bootIdAfter == Some(Current(s)) && KernelAsExpected(s, d))
  }

  predicate WorkFacts(s: Sys, p: Proc, d: CycleState, c: CycleState) {
    && (d.updatesApplied ==> c.updatesApplied)
    && (c.updatesApplied && !d.updatesApplied ==> d.state.UPGRADING? && p.applied.Some? && p.applied.value.ok)
    && (p.applying && d.state.UPGRADING? ==> c.updatesApplied || c.state.FAILED?)
    && (Terminal(d.state) ==> Terminal(c.state))
    && (d.state.FAILED? ==> c.state.FAILED?)
    && (d.state.NOTIFYING? ==> c.state.NOTIFYING? || Terminal(c.state))
    && (Doomed(s, d) ==> c.state.FAILED? && Diagnosed(p))
  }

  predicate ReportFacts(d: CycleState, c: CycleState) {
    c.state.NOTIFYING? || c.state.COMPLETED? ==>
      && (d.state.HEALTH_CHECKING? || d.state.NOTIFYING? || d.state.COMPLETED?)
      && (d.outcome == Some(FinalOutcome(d)) && !d.state.HEALTH_CHECKING? ==>
            c.outcome == d.outcome && FinalOutcome(c) == FinalOutcome(d))
      && (forall n | n in d.notificationStatus && d.notificationStatus[n] == SENT ::
            n in c.notificationStatus && c.notificationStatus[n] == SENT)
  }

  // One lemma per source state: an allowed edit leaves a sound record sound.

  lemma FailedIsSound(c: CycleState)
    requires c.state.FAILED? && WellFormed(c) && TrailOk(c)
    requires c.rebootBeforeUpdates ==> !c.initialRebootCompleted && c.rebootRequired
    ensures Sound(c)
  {
    hide WellFormed, WalkEnd, FinalOutcome, HealthFailed;
  }

  lemma FailsKeepsSound(s: Sys, p: Proc, d: CycleState, c: CycleState)
    requires Sound(d) && Fails(s, p, d, c) && WellFormed(c)
    ensures Sound(c) && EditFacts(s, p, d, c)
  {
    hide WalkEnd, StateName, ParseState, WellFormed, TruthOk, Doomed;
    if IsLegal(d.state, FAILED) {
      ArcTrail(d, c);
    }
    FailedIsSound(c);
  }

  lemma RestartKeepsSound(s: Sys, p: Proc, d: CycleState, c: CycleState)
    requires Sound(d) && Restarts(s, p, d, c) && WellFormed(c)
    requires d.state.REFRESHING? || d.state.DISCOVERING_UPDATES? || d.state.UPGRADING?
    ensures Sound(c) && EditFacts(s, p, d, c)
  {
    hide WalkEnd, StateName, ParseState, ValidRunId;
    ArcTrail(d, c);
  }

  lemma AwaitingIsSound(edited: CycleState, c: CycleState)
    requires Arc(edited, c) && WalkEnd(edited.transitions) == Some(edited.state) && WellFormed(c)
    requires c.state.REBOOT_PENDING? || c.state.REBOOTING?
    requires Truthy(edited.bootIdBefore) && edited.bootIdAfter.None? && edited.rebootAttempts == 0
    requires edited.outcome.None? && edited.error.None?
    requires if edited.rebootBeforeUpdates then !edited.initialRebootCompleted && edited.rebootRequired
             else Settled(edited)
    ensures Sound(c)
  {
    ArcTrail(edited, c);
    ArcKeeps(edited, c);
    hide WellFormed, TrailOk, FinalOutcome, HealthFailed, Arc;
  }

  lemma VerifyingIsSound(edited: CycleState, c: CycleState)
    requires Arc(edited, c) && WalkEnd(edited.transitions) == Some(edited.state) && WellFormed(c)
    requires c.state.VERIFYING? && edited.error.None? && Undecided(edited)
    requires edited.rebootBeforeUpdates ==>
      !edited.initialRebootCompleted && edited.rebootRequired && Excused(edited)
    requires Excused(edited) || (Settled(edited) && !edited.rebootRequired)
    requires edited.outcome.Some? ==> edited.rebootRequired || edited.preExistingReboot
    ensures Sound(c)
  {
    ArcTrail(edited, c);
    ArcKeeps(edited, c);
    hide WellFormed, TrailOk, FinalOutcome, HealthFailed, CriticalFailure, Arc;
  }

  lemma RefreshingIsSound(s: Sys, d: CycleState, checked: CycleState, c: CycleState)
    requires BootsOk(s.boots) && Sound(d) && d.state.PRECHECK? && c.state.REFRESHING? && WellFormed(c)
    requires Arc(checked, c)
    requires checked == d.(os := c.os, kernelBefore := c.kernelBefore, bootIdBefore := Some(Current(s)),
                           preExistingReboot := c.preExistingReboot)
    ensures Sound(c)
  {
    hide WalkEnd, WellFormed, FinalOutcome, HealthFailed;
    ArcTrail(checked, c);
    ArcKeeps(checked, c);
    hide Arc, TrailOk;
  }

  lemma PrecheckFacts(s: Sys, p: Proc, d: CycleState, c: CycleState)
    requires d.state.PRECHECK? && EditsPrecheck(s, p, d, c)
    ensures EditFacts(s, p, d, c)
  {
    var checked := d.(os := c.os, kernelBefore := c.kernelBefore, bootIdBefore := Some(Current(s)),
                      preExistingReboot := c.preExistingReboot);
    ArcKeeps(if c.state.REFRESHING? then checked
             else checked.(rebootBeforeUpdates := true, rebootRequired := true), c);
    hide Arc, FinalOutcome, EditsPrecheck;
  }

  lemma PrecheckKeepsSound(s: Sys, p: Proc, d: CycleState, c: CycleState)
    requires BootsOk(s.boots) && Sound(d) && d.state.PRECHECK? && EditsPrecheck(s, p, d, c) && WellFormed(c)
    ensures Sound(c) && EditFacts(s, p, d, c)
  {
    hide Arc, WalkEnd, WellFormed, FinalOutcome, HealthFailed, EditFacts;
    PrecheckFacts(s, p, d, c);
    var checked := d.(os := c.os, kernelBefore := c.kernelBefore, bootIdBefore := Some(Current(s)),
                      preExistingReboot := c.preExistingReboot);
    if c.state.REFRESHING? {
      RefreshingIsSound(s, d, checked, c);
    } else {
      AwaitingIsSound(checked.(rebootBeforeUpdates := true, rebootRequired := true), c);
    }
  }

  lemma RefreshKeepsSound(s: Sys, p: Proc, d: CycleState, c: CycleState)
    requires Sound(d) && d.state.REFRESHING? && WellFormed(c)
    requires c.state.DISCOVERING_UPDATES? && SameBoot(s, d) && Arc(d.(warnings := c.warnings), c)
    ensures Sound(c) && EditFacts(s, p, d, c)
  {
    hide WalkEnd, StateName, ParseState, ValidRunId;
    ArcTrail(d.(warnings := c.warnings), c);
  }

  lemma DiscoveryKeepsSound(s: Sys, p: Proc, d: CycleState, c: CycleState)
    requires Sound(d) && d.state.DISCOVERING_UPDATES? && EditsDiscovering(s, p, d, c) && WellFormed(c)
    ensures Sound(c) && EditFacts(s, p, d, c)
  {
    hide WalkEnd, StateName, ParseState, ValidRunId;
    ArcTrail(d.(updatesAvailable := c.updatesAvailable, packagesPending := c.packagesPending), c);
  }

  lemma UpgradeKeepsSound(s: Sys, p: Proc, d: CycleState, c: CycleState)
    requires Sound(d) && d.state.UPGRADING? && EditsUpgrading(s, p, d, c) && WellFormed(c)
    ensures Sound(c) && EditFacts(s, p, d, c)
  {
    hide WalkEnd, StateName, ParseState, ValidRunId;
    if !c.state.UPGRADING? {
      ArcTrail(d, c);
    }
  }

  lemma CheckFacts(s: Sys, p: Proc, d: CycleState, c: CycleState)
    requires d.state.CHECKING_REBOOT? && EditsCheckingReboot(s, p, d, c)
    ensures EditFacts(s, p, d, c)
  {
    var probed := d.(rebootRequired := c.rebootRequired, rebootReasons := c.rebootReasons);
    ArcKeeps(if Arc(probed, c) then probed else probed.(outcome := Some(ManualRebootRequired)), c);
    hide Arc, FinalOutcome, EditsCheckingReboot;
  }

  lemma CheckKeepsSound(s: Sys, p: Proc, d: CycleState, c: CycleState)
    requires Sound(d) && d.state.CHECKING_REBOOT? && EditsCheckingReboot(s, p, d, c) && WellFormed(c)
    ensures Sound(c) && EditFacts(s, p, d, c)
  {
    hide Arc, WalkEnd, WellFormed, FinalOutcome, HealthFailed, EditFacts;
    CheckFacts(s, p, d, c);
    var probed := d.(rebootRequired := c.rebootRequired, rebootReasons := c.rebootReasons);
    var manual := probed.(outcome := Some(ManualRebootRequired));
    var edited := if !c.rebootRequired && Arc(probed, c) then probed else manual;
    if c.state.REBOOT_PENDING? {
      AwaitingIsSound(probed, c);
    } else {
      VerifyingIsSound(edited, c);
    }
  }

  lemma DecisionFacts(s: Sys, p: Proc, d: CycleState, c: CycleState)
    requires d.state.REBOOT_PENDING? && EditsRebootPending(s, p, d, c)
    ensures EditFacts(s, p, d, c)
  {
    ArcKeeps(if Arc(d, c) then d else d.(outcome := Some(ManualRebootRequired)), c);
    hide Arc, FinalOutcome, EditsRebootPending;
  }

  lemma DecisionKeepsSound(s: Sys, p: Proc, d: CycleState, c: CycleState)
    requires Sound(d) && d.state.REBOOT_PENDING? && EditsRebootPending(s, p, d, c) && WellFormed(c)
    ensures Sound(c) && EditFacts(s, p, d, c)
  {
    hide Arc, WalkEnd, WellFormed, FinalOutcome, HealthFailed, EditFacts;
    DecisionFacts(s, p, d, c);
    var manual := d.(outcome := Some(ManualRebootRequired));
    var edited := if !d.rebootRequired && Arc(d, c) then d else manual;
    if c.state.REBOOTING? {
      AwaitingIsSound(d, c);
    } else {
      VerifyingIsSound(edited, c);
    }
  }

  lemma RebootingKeepsSound(s: Sys, p: Proc, d: CycleState, c: CycleState)
    requires BootsOk(s.boots) && Sound(d) && d.state.REBOOTING? && EditsRebooting(s, p, d, c) && WellFormed(c)
    ensures Sound(c) && EditFacts(s, p, d, c)
  {
    hide WalkEnd, StateName, ParseState, ValidRunId;
    if !c.state.REBOOTING? {
      ArcTrail(d, c);
    }
  }

  lemma PostRebootKeepsSound(s: Sys, p: Proc, d: CycleState, c: CycleState)
    requires BootsOk(s.boots) && Sound(d) && d.state.POST_REBOOT? && EditsPostReboot(s, p, d, c) && WellFormed(c)
    ensures Sound(c) && EditFacts(s, p, d, c)
  {
    PostRebootFacts(s, p, d, c);
    hide EditFacts, WalkEnd, WellFormed, StateName;
    if c.state.PRECHECK? {
      SecondPassIsSound(s, d, c);
    } else {
      ProofIsSound(s, d, c);
    }
  }

  lemma ProofIsSound(s: Sys, d: CycleState, c: CycleState)
    requires BootsOk(s.boots) && Sound(d) && d.state.POST_REBOOT? && WellFormed(c)
    requires || (!SameBoot(s, d) && c == d.(kernelAfter := Some(s.kernel), bootIdAfter := Some(Current(s))))
             || (d.bootIdAfter == Some(Current(s)) && !d.rebootBeforeUpdates && c.state.VERIFYING? && Arc(d, c))
    ensures Sound(c)
  {
    hide WalkEnd, StateName, ParseState, ValidRunId, FinalOutcome, HealthFailed, AllHealthy;
    if c.state.VERIFYING? {
      ArcTrail(d, c);
    }
  }

  lemma PostRebootFacts(s: Sys, p: Proc, d: CycleState, c: CycleState)
    requires d.rebootBeforeUpdates ==> !d.initialRebootCompleted
    requires d.state.POST_REBOOT? && EditsPostReboot(s, p, d, c)
    requires d.bootIdAfter.Some? ==> d.bootIdBefore != d.bootIdAfter
    ensures EditFacts(s, p, d, c)
  {
    hide StateName, ParseState, FinalOutcome;
  }

  lemma SecondPassIsSound(s: Sys, d: CycleState, c: CycleState)
    requires BootsOk(s.boots) && Sound(d) && d.state.POST_REBOOT? && c.state.PRECHECK? && WellFormed(c)
    requires Arc(d.(rebootBeforeUpdates := false, initialRebootCompleted := true,
                    bootIdBefore := Some(Current(s)), bootIdAfter := None,
                    rebootAttempts := 0, rebootInitiatedAt := None), c)
    ensures Sound(c)
  {
    hide WalkEnd, StateName, ParseState, ValidRunId, FinalOutcome, HealthFailed, AllHealthy;
    ArcTrail(d.(rebootBeforeUpdates := false, initialRebootCompleted := true,
                bootIdBefore := Some(Current(s)), bootIdAfter := None,
                rebootAttempts := 0, rebootInitiatedAt := None), c);
  }

  lemma VerifyKeepsSound(s: Sys, p: Proc, d: CycleState, c: CycleState)
    requires Sound(d) && d.state.VERIFYING? && EditsVerifying(s, p, d, c) && WellFormed(c)
    ensures Sound(c) && EditFacts(s, p, d, c)
  {
    hide WalkEnd, StateName, ParseState, ValidRunId;
    if !c.state.VERIFYING? {
      ArcTrail(d, c);
    }
  }

  lemma HealthKeepsSound(s: Sys, p: Proc, d: CycleState, c: CycleState)
    requires Sound(d) && d.state.HEALTH_CHECKING? && EditsHealthChecking(s, p, d, c) && WellFormed(c)
    ensures Sound(c) && EditFacts(s, p, d, c)
  {
    hide WalkEnd, StateName, ParseState, ValidRunId;
    ArcTrail(d.(healthResults := c.healthResults, error := c.error), c);
  }

  lemma NotifyKeepsSound(s: Sys, p: Proc, d: CycleState, c: CycleState)
    requires Sound(d) && d.state.NOTIFYING? && EditsNotifying(s, p, d, c) && WellFormed(c)
    ensures Sound(c) && EditFacts(s, p, d, c)
  {
    hide Sound, EditFacts, Arc, FinalOutcome;
    if c.state.COMPLETED? {
      CompletionIsSound(s, p, d, c);
    } else if c == d.(outcome := Some(FinalOutcome(d))) {
      OutcomeIsSound(s, p, d, c);
    } else {
      DeliveryIsSound(s, p, d, c);
    }
  }

  lemma OutcomeIsSound(s: Sys, p: Proc, d: CycleState, c: CycleState)
    requires Sound(d) && d.state.NOTIFYING? && WellFormed(c) && c == d.(outcome := Some(FinalOutcome(d)))
    ensures Sound(c) && EditFacts(s, p, d, c)
  {
    assert EditFacts(s, p, d, c) by {
      hide Sound, FinalOutcome;
    }
    hide EditFacts, WalkEnd, StateName, ParseState, ValidRunId, AllHealthy;
    FinalOutcomeStable(d, d.notificationStatus);
  }

  lemma DeliveryIsSound(s: Sys, p: Proc, d: CycleState, c: CycleState)
    requires Sound(d) && d.state.NOTIFYING? && WellFormed(c)
    requires c == d.(notificationStatus := c.notificationStatus)
    requires forall n | n in d.notificationStatus && d.notificationStatus[n] == SENT ::
      n in c.notificationStatus && c.notificationStatus[n] == SENT
    requires MarksHonestly(p, d, c)
    ensures Sound(c) && EditFacts(s, p, d, c)
  {
    assert EditFacts(s, p, d, c) by {
      hide Sound, FinalOutcome, MarksHonestly;
    }
    hide EditFacts, WalkEnd, StateName, ParseState, ValidRunId, AllHealthy;
  }

  lemma CompletionIsSound(s: Sys, p: Proc, d: CycleState, c: CycleState)
    requires Sound(d) && d.state.NOTIFYING? && WellFormed(c)
    requires c.state.COMPLETED? && d.outcome == Some(FinalOutcome(d)) && Arc(d, c)
    ensures Sound(c) && EditFacts(s, p, d, c)
  {
    assert EditFacts(s, p, d, c) by {
      hide Sound, FinalOutcome, StateName, MarksHonestly;
    }
    hide EditFacts;
    ArcTrail(d, c);
    assert FinalOutcome(c) == FinalOutcome(d) by {
      ArcKeeps(d, c);
      hide Arc, Sound, WellFormed, TrailOk;
    }
    hide WellFormed, TrailOk, WalkEnd, StateName, FinalOutcome, CriticalFailure, HealthFailed;
  }

  lemma EditKeepsSound(s: Sys, p: Proc, d: CycleState, c: CycleState)
    requires BootsOk(s.boots) && Sound(d) && Edit(s, p, d, c) && WellFormed(c)
    ensures Sound(c) && EditFacts(s, p, d, c)
  {
    hide Sound, EditFacts, Fails, Restarts, Arc, EditsPrecheck, EditsDiscovering, EditsUpgrading,
         EditsCheckingReboot, EditsRebootPending, EditsRebooting, EditsPostReboot, EditsVerifying,
         EditsHealthChecking, EditsNotifying;
    if Fails(s, p, d, c) {
      FailsKeepsSound(s, p, d, c);
      return;
    }
    match d.state {
      case PRECHECK => PrecheckKeepsSound(s, p, d, c);
      case REFRESHING =>
        if Restarts(s, p, d, c) { RestartKeepsSound(s, p, d, c); } else { RefreshKeepsSound(s, p, d, c); }
      case DISCOVERING_UPDATES =>
        if Restarts(s, p, d, c) { RestartKeepsSound(s, p, d, c); } else { DiscoveryKeepsSound(s, p, d, c); }
      case UPGRADING =>
        if Restarts(s, p, d, c) { RestartKeepsSound(s, p, d, c); } else { UpgradeKeepsSound(s, p, d, c); }
      case CHECKING_REBOOT => CheckKeepsSound(s, p, d, c);
      case REBOOT_PENDING => DecisionKeepsSound(s, p, d, c);
      case REBOOTING => RebootingKeepsSound(s, p, d, c);
      case POST_REBOOT => PostRebootKeepsSound(s, p, d, c);
      case VERIFYING => VerifyKeepsSound(s, p, d, c);
      case HEALTH_CHECKING => HealthKeepsSound(s, p, d, c);
      case NOTIFYING => NotifyKeepsSound(s, p, d, c);
      case COMPLETED => CompletedKeepsSound(s, p, d, c);
      case FAILED => FailedKeepsSound(s, p, d, c);
      case IDLE =>
    }
  }

  lemma CompletedKeepsSound(s: Sys, p: Proc, d: CycleState, c: CycleState)
    requires Sound(d) && d.state.COMPLETED? && WellFormed(c)
    requires c == d.(outcome := Some(FinalOutcome(d)), updatedAt := c.updatedAt)
    ensures Sound(c) && EditFacts(s, p, d, c)
  {
    assert EditFacts(s, p, d, c) by {
      hide Sound, FinalOutcome, StateName;
    }
    hide EditFacts, WalkEnd, StateName, ParseState, ValidRunId;
    FinalOutcomeStable(d, d.notificationStatus);
  }

  lemma FailedKeepsSound(s: Sys, p: Proc, d: CycleState, c: CycleState)
    requires Sound(d) && d.state.FAILED? && WellFormed(c)
    requires c == d.(error := c.error, outcome := c.outcome, notificationStatus := c.notificationStatus)
    requires MarksHonestly(p, d, c)
    ensures Sound(c) && EditFacts(s, p, d, c)
  {
    hide WalkEnd, StateName, ParseState, ValidRunId;
  }

  lemma FirstSaveIsSound(n: CycleState, c: CycleState)
    requires n == NewCycle(c.runId, c.hostname, c.startedAt, c.provider)
    requires Arc(n, c) && c.state.PRECHECK? && WellFormed(c)
    ensures Sound(c) && c.bootIdBefore.None? && c.bootIdAfter.None? && c.rebootAttempts == 0
      && !c.updatesApplied
  {
    assert WalkEnd(n.transitions) == Some(IDLE);
    hide WalkEnd, StateName, ParseState, ValidRunId;
    ArcTrail(n, c);
  }

  // ---- worlds ----

  lemma SaveKeepsRecord(s: Sys, p: Proc, c: CycleState, settled: bool)
    requires Inv(s) && s.proc == Some(p) && OkIn(s, p, Saved(c, settled))
    ensures Sound(c) && Anchored(Next(s, Saved(c, settled)), c)
    ensures s.cell.Rec? ==> EditFacts(s, p, s.cell.cycle, c)
  {
    hide Edit, Sound, WellFormed, FinalOutcome, Arc, WorkFacts, ReportFacts, PastOk, ArchiveOk, ProcOk;
    assert Current(s) in s.boots;
    match s.cell {
      case Rec(d) => EditKeepsSound(s, p, d, c);
      case Empty => FirstSaveIsSound(NewCycle(c.runId, c.hostname, c.startedAt, c.provider), c);
      case _ =>
    }
  }

  lemma SaveKeepsProc(s: Sys, p: Proc, c: CycleState, settled: bool)
    requires s.proc == Some(p) && OkIn(s, p, Saved(c, settled)) && ProcOk(s, p)
    requires s.cell.Rec? ==> BootFacts(s, s.cell.cycle, c) && WorkFacts(s, p, s.cell.cycle, c)
    ensures var t := Next(s, Saved(c, settled)); t.proc.Some? && ProcOk(t, t.proc.value)
  {
    hide Edit, WellFormed, Arc, Doomed;
  }

  /** On the same boots, with no run forgotten, what was sound stays so. */
  lemma CellsCarry(s: Sys, t: Sys)
    requires PastOk(s) && CellOk(s, s.cell) && Same(t.boots, s.boots) && s.used <= t.used
    requires t.maxAttempts == s.maxAttempts
    ensures forall x | x in Possible(s) :: CellOk(t, x)
  {
    hide Sound;
  }

  lemma ShelvesCarry(s: Sys, t: Sys)
    requires ArchiveOk(s) && s.used <= t.used
    ensures forall h | h in Shelves(s) :: ShelfOk(t, h)
  {
    hide Sound;
    forall h | h in Shelves(s) ensures ShelfOk(t, h) {
      assert ShelfOk(s, h);
    }
  }

  lemma SaveKeepsInv(s: Sys, p: Proc, c: CycleState, settled: bool)
    requires Inv(s) && s.proc == Some(p) && OkIn(s, p, Saved(c, settled))
    ensures Inv(Next(s, Saved(c, settled)))
  {
    hide Edit, Sound, WellFormed, FinalOutcome, Arc, ReportFacts, BootFacts, WorkFacts, ProcOk, Anchored, BootsOk,
         ShelfOk;
    SaveKeepsRecord(s, p, c, settled);
    SaveKeepsProc(s, p, c, settled);
    var t := Next(s, Saved(c, settled));
    CellsCarry(s, t);
    ShelvesCarry(s, t);
  }

  /** A new boot leaves every record's boot facts those of earlier boots. */
  lemma BootKeepsCell(s: Sys, t: Sys, x: Cell)
    requires CellOk(s, x) && t.boots != [] && t.boots == s.boots + [Current(t)] && Current(t) !in s.boots
    requires Same(t.used, s.used) && t.maxAttempts == s.maxAttempts
    ensures CellOk(t, x)
  {
    hide Sound;
  }

  lemma BootKeepsInv(s: Sys, e: Event)
    requires Inv(s) && Ok(s, e) && (e.Booted? || e.BootedInPlace?)
    ensures Inv(Next(s, e))
  {
    hide Sound, Anchored, SaveOk, DeliveryOk;
    var t := Next(s, e);
    assert Current(t) == e.id;
    hide CellOk;
    forall x | x in Possible(s) ensures CellOk(t, x) {
      assert CellOk(s, x);
      BootKeepsCell(s, t, x);
    }
    ShelvesCarry(s, t);
    hide ShelfOk;
  }

  lemma NoteKeepsProc(s: Sys, e: Event)
    requires s.proc.Some? && IsNote(e) && OkIn(s, s.proc.value, e) && ProcOk(s, s.proc.value)
    ensures ProcOk(s, NextProc(s.proc.value, e))
  {
    hide SaveOk, DeliveryOk;
  }

  lemma ProcCarries(s: Sys, t: Sys, p: Proc)
    requires SameEnv(s, t) && ProcOk(s, p)
    ensures ProcOk(t, p)
  {
  }

  lemma NoteKeepsInv(s: Sys, e: Event)
    requires Inv(s) && Ok(s, e) && s.proc.Some? && IsNote(e)
    ensures Inv(Next(s, e))
  {
    hide Sound, OkIn, Next, NextProc, ProcOk, BootsOk, ShelfOk, Anchored;
    NoteNext(s, e);
    NoteKeepsProc(s, e);
    var t := Next(s, e);
    ProcCarries(s, t, NextProc(s.proc.value, e));
    CellsCarry(s, t);
    ShelvesCarry(s, t);
  }

  lemma ShelfGrows(s: Sys, h: Shelf, c: CycleState)
    requires ShelfOk(s, h) && c.runId in s.used && Terminal(c.state) && Sound(c)
    ensures ShelfOk(s, h[c.runId := c])
  {
    hide Sound;
  }

  /** A terminal record reaches the archive as it is. */
  lemma PutKeepsInv(s: Sys, e: Event)
    requires Inv(s) && Ok(s, e) && e.HistoryPut?
    ensures Inv(Next(s, e))
  {
    hide Sound, NextProc, BootsOk, SaveOk, DeliveryOk, ShelfOk;
    var t := Next(s, e);
    assert ShelfOk(s, s.history);
    ShelfGrows(s, s.history, e.cycle);
    hide Anchored;
    ShelvesCarry(s, t);
    CellsCarry(s, t);
    assert ShelfOk(t, t.history) by {
      SameUsed(s, t, t.history);
    }
  }

  lemma SameUsed(s: Sys, t: Sys, h: Shelf)
    requires ShelfOk(s, h) && t.used == s.used
    ensures ShelfOk(t, h)
  {
    hide Sound;
  }

  lemma OtherKeepsInv(s: Sys, e: Event)
    requires Inv(s) && Ok(s, e) && !e.Saved? && !e.Booted? && !e.BootedInPlace?
    ensures Inv(Next(s, e))
  {
    hide Sound, SaveOk, DeliveryOk, NextProc, BootsOk;
    if IsNote(e) {
      hide Inv, Next, OkIn;
      NoteKeepsInv(s, e);
    } else if e.HistoryPut? {
      hide Inv, Next, OkIn;
      PutKeepsInv(s, e);
    } else {
      CellsCarry(s, Next(s, e));
      ShelvesCarry(s, Next(s, e));
      hide ShelfOk, Anchored;
      assert ShelfOk(Next(s, e), map[]) by {
        EmptyShelfOk(Next(s, e));
      }
    }
  }

  lemma EmptyShelfOk(s: Sys)
    ensures ShelfOk(s, map[])
  {
  }

  /** Every allowed event keeps the invariant. */
  lemma StepKeepsInv(s: Sys, e: Event)
    requires Inv(s) && Ok(s, e)
    ensures Inv(Next(s, e))
  {
    hide Inv, Next, OkIn;
    match e
    case Saved(c, settled) => SaveKeepsInv(s, s.proc.value, c, settled);
    case Booted(_, _, _, _) => BootKeepsInv(s, e);
    case BootedInPlace(_, _) => BootKeepsInv(s, e);
    case _ => OtherKeepsInv(s, e);
  }

  /** Every world a legal log reaches satisfies the invariant, and allows the next event of the log. */
  lemma {:induction false} Reachable(s0: Sys, log: seq<Event>, k: nat)
    requires Legal(s0, log) && k <= |log|
    ensures Inv(At(s0, log, k))
    ensures k < |log| ==> Ok(At(s0, log, k), log[k])
  {
    hide Inv, Ok, Next, Start;
    if k < |log| {
      assert Permitted(s0, log, k);
    }
    if k > 0 {
      Reachable(s0, log, k - 1);
      StepKeepsInv(At(s0, log, k - 1), log[k - 1]);
    } else {
      StartIsSane(s0);
    }
  }

  lemma StartIsSane(s0: Sys)
    requires Start(s0)
    ensures Inv(s0)
  {
  }
}
