/** Each transition the engine makes, shown to be an edit the protocol allows, whatever its timestamps. */
module Edges {
  import opened Wrappers
  import opened States
  import opened Records
  import opened Outcomes
  import opened Protocol
  import opened Invariants

  // ------------------------------------------ memory against the stored record

  /** What is in memory is what is stored, for an engine process; a finished cycle is one it finished itself. */
  ghost predicate Stored(s: Sys, c: CycleState) {
    && s.proc.Some? && s.proc.value.loaded && (s.proc.value.entry == RunEntry || s.proc.value.entry == ResumeEntry)
    && Same(s.cell, Rec(c)) && !c.state.IDLE? && (Terminal(c.state) ==> s.proc.value.finishing)
  }

  lemma StoredCell(s: Sys, c: CycleState)
    requires Stored(s, c)
    ensures s.proc.Some? && s.cell == Rec(c) && Same(s.cell, Rec(c)) && !c.state.IDLE?
  {
  }

  /** A loaded record that has ended; it may already have been archived. */
  ghost predicate Finished(s: Sys, c: CycleState) {
    && s.proc.Some? && s.proc.value.loaded && (s.proc.value.entry == RunEntry || s.proc.value.entry == ResumeEntry)
    && Same(s.cell, Rec(c)) && Terminal(c.state)
  }

  /** The cycle is new, and nothing is stored. */
  ghost predicate Created(s: Sys, c: CycleState) {
    && s.proc.Some? && s.proc.value.loaded && s.proc.value.entry == RunEntry
    && !s.proc.value.applying && s.cell.Empty? && c.runId !in s.used && ValidRunId(c.runId)
    && Same(c, NewCycle(c.runId, c.hostname, c.startedAt, c.provider))
  }

  ghost predicate Owns(s: Sys, c: CycleState) {
    if c.state.IDLE? then Created(s, c) else Stored(s, c)
  }

  /** The boot facts a cycle needs to be worked on at `state`. */
  predicate SteadyAt(s: Sys, c: CycleState, state: State) {
    && (BeforeRebooting(state) || state.REBOOTING? ==> SameBoot(s, c))
    && (state.PRECHECK? ==> c.bootIdBefore.None? || SameBoot(s, c))
    && (state.POST_REBOOT? ==> Truthy(c.bootIdAfter) ==> c.bootIdAfter == Some(Current(s)))
  }

  predicate BeforeCheck(state: State) {
    state.PRECHECK? || state.REFRESHING? || state.DISCOVERING_UPDATES? || state.UPGRADING?
  }

  /** The process may work on the cycle: it is not stale, and what this process applied is on record. */
  predicate Working(p: Proc, c: CycleState, state: State) {
    && FreshGate in p.gates
    && (p.applying ==> c.updatesApplied && !c.rebootBeforeUpdates && !BeforeCheck(state))
  }

  /** States no recovery enters: only the process that brought the cycle there, durably, works on it there. */
  predicate Grounded(state: State) {
    state.REFRESHING? || state.DISCOVERING_UPDATES? || state.UPGRADING?
  }

  /** What a handler is given: the stored cycle, on a boot where its state may be worked on. */
  ghost predicate Holds(s: Sys, c: CycleState) {
    && Stored(s, c) && SteadyAt(s, c, c.state) && Working(s.proc.value, c, c.state)
    && (Grounded(c.state) ==> s.past == {})
  }

  /** What the failure path needs: a stored, unfinished record of the run. */
  ghost predicate Recoverable(s: Sys, run: string) {
    && s.cell.Rec? && s.cell.cycle.runId == run && Stored(s, s.cell.cycle) && !s.cell.cycle.state.FAILED?
    && (Doomed(s, s.cell.cycle) ==> Diagnosed(s.proc.value))
  }

  /** What could be failed cleanly before can be still. */
  ghost predicate Safer(s: Sys, t: Sys) {
    forall run: string :: Recoverable(s, run) ==> Recoverable(t, run)
  }

  lemma NoteIsSafe(s: Sys, e: Event)
    requires s.proc.Some? && IsNote(e)
    ensures Safer(s, Next(s, e))
  {
    NoteNext(s, e);
    assert Diagnosed(s.proc.value) ==> Diagnosed(NextProc(s.proc.value, e));
    assert NextProc(s.proc.value, e).entry == s.proc.value.entry;
    assert s.proc.value.loaded ==> NextProc(s.proc.value, e).loaded;
    hide Next, NextProc, Diagnosed;
    forall run | Recoverable(s, run) ensures Recoverable(Next(s, e), run) {
    }
  }

  /** A move the caller can go on from. */
  predicate Lands(s: Sys, mem: CycleState, dst: State) {
    && !dst.IDLE? && !dst.FAILED? && SteadyAt(s, mem, dst) && s.proc.Some?
    && if mem.state.IDLE? then s.cell.Empty? && !s.proc.value.applying else Working(s.proc.value, mem, dst)
  }

  /** From `s` to `t` at most the stored record changed, and the process's note of a paid attempt. */
  ghost predicate Kept(s: Sys, t: Sys) {
    && s.proc.Some? && t.proc.Some?
    && Same(t, s.(cell := t.cell, past := t.past, used := t.used, proc := t.proc))
    && Same(t.proc.value, s.proc.value.(paid := t.proc.value.paid, gates := t.proc.value.gates,
                                        finishing := t.proc.value.finishing))
    && (if s.cell.Empty? && t.cell.Rec? then FreshGate in t.proc.value.gates
        else Same(t.proc.value.gates, s.proc.value.gates))
  }

  /** What the process found, and what it had vetted, is as it was. */
  ghost predicate SameNotes(p: Proc, q: Proc) {
    && SameFinds(p, q) && Same(p.reported, q.reported) && Same(p.refreshed, q.refreshed)
    && Same(p.window, q.window) && Same(p.vetted, q.vetted) && Same(p.gates, q.gates)
  }

  lemma KeptNotes(s: Sys, t: Sys)
    requires Kept(s, t) && s.cell.Rec?
    ensures SameNotes(s.proc.value, t.proc.value) && Current(t) == Current(s)
  {
  }

  /** Nothing but the process's own findings, gates and sleep differs, and what was sent since. */
  ghost predicate Abides(s: Sys, t: Sys) {
    && s.proc.Some? && t.proc.Some? && SameEnv(s, t) && Safer(s, t) && SameRole(s.proc.value, t.proc.value)
    && Same(t.proc.value.hooks, s.proc.value.hooks)
  }

  lemma AbidesJoin(s: Sys, t: Sys, u: Sys)
    requires Abides(s, t) && Abides(t, u)
    ensures Abides(s, u)
  {
    hide Recoverable;
  }

  lemma AbidesStart(s: Sys)
    requires s.proc.Some?
    ensures Abides(s, s)
  {
    hide Recoverable;
  }

  lemma AbidesStill(s: Sys, t: Sys, u: Sys)
    requires Abides(s, t) && u.proc.Some? && SameEnv(t, u) && Safer(t, u) && SameRole(t.proc.value, u.proc.value)
    requires Same(u.proc.value.hooks, t.proc.value.hooks)
    ensures Abides(s, u)
  {
    hide Recoverable;
  }

  lemma AbidesFacts(s: Sys, t: Sys)
    requires Abides(s, t)
    ensures Same(t.cell, s.cell) && t.past == s.past && t.proc.value.loaded == s.proc.value.loaded
    ensures t.proc.value.finishing == s.proc.value.finishing
  {
    hide Recoverable;
  }

  lemma StoredIsFinished(s: Sys, c: CycleState)
    requires Stored(s, c) && Terminal(c.state)
    ensures Finished(s, c)
  {
  }

  /** `next` is `mem` moved to `dst`: nothing else differs but the trail and the timestamp. */
  ghost predicate Follows(mem: CycleState, next: CycleState, dst: State) {
    Same(next, mem.(state := dst, transitions := next.transitions, updatedAt := next.updatedAt))
  }

  /** The trail gained this move, and kept what it had. */
  ghost predicate Logged(mem: CycleState, next: CycleState, dst: State) {
    exists at :: Same(next.transitions, mem.transitions + [StepEntry(mem.state, dst, at)])
  }

  /** `failed` is the record `d` marked FAILED: by a logged move where the table has it, else by force. */
  ghost predicate FailedFrom(d: CycleState, failed: CycleState) {
    if IsLegal(d.state, FAILED) then
      Follows(d, failed, FAILED) && Logged(d, failed, FAILED)
    else
      Same(failed, d.(state := FAILED))
  }

  lemma Carried(mem: CycleState, next: CycleState, dst: State)
    requires Follows(mem, next, dst)
    ensures Same(next.state, dst) && Same(next.outcome, mem.outcome) && Same(next.warnings, mem.warnings)
    ensures Same(next.updatesAvailable, mem.updatesAvailable) && next.packagesPending == mem.packagesPending
    ensures next.updatesApplied == mem.updatesApplied && next.rebootRequired == mem.rebootRequired
    ensures next.preExistingReboot == mem.preExistingReboot && next.rebootAttempts == mem.rebootAttempts
    ensures next.initialRebootCompleted == mem.initialRebootCompleted
    ensures Same(next.verifyPassed, mem.verifyPassed) && Same(next.outstandingUpdates, mem.outstandingUpdates)
    ensures Same(next.healthResults, mem.healthResults) && Same(next.error, mem.error)
    ensures Same(next.notificationStatus, mem.notificationStatus) && Same(next.rebootReasons, mem.rebootReasons)
    ensures Same(next.bootIdBefore, mem.bootIdBefore) && Same(next.bootIdAfter, mem.bootIdAfter)
  {
  }

  /** One step of the loop in `_drive`: up the table, or once back to PRECHECK after a reboot-first. */
  predicate Advances(c: CycleState, next: CycleState) {
    && next.runId == c.runId && !next.state.IDLE? && !next.state.FAILED?
    && (|| (Rank(c.state) < Rank(next.state) && next.initialRebootCompleted == c.initialRebootCompleted)
        || (next.initialRebootCompleted && !c.initialRebootCompleted)
        || (c.state.REBOOTING? && next.state.REBOOTING?))
  }

  predicate Climbs(c: CycleState, mem: CycleState, dst: State) {
    && mem.runId == c.runId && !dst.IDLE? && !dst.FAILED?
    && (|| (Rank(c.state) < Rank(dst) && mem.initialRebootCompleted == c.initialRebootCompleted)
        || (mem.initialRebootCompleted && !c.initialRebootCompleted))
  }

  lemma Climbed(c: CycleState, mem: CycleState, next: CycleState, dst: State)
    requires Climbs(c, mem, dst) && Follows(mem, next, dst)
    ensures Advances(c, next)
  {
  }

  lemma AdvancesFrom(c: CycleState, d: CycleState, next: CycleState)
    requires Advances(d, next) && Same(d.runId, c.runId) && Same(d.state, c.state)
    requires d.initialRebootCompleted == c.initialRebootCompleted
    ensures Advances(c, next)
  {
  }

  /** A save that neither moves the cycle nor forgets the boot it is on. */
  ghost predicate Stays(c: CycleState, next: CycleState) {
    && !c.state.FAILED? && Same(next.state, c.state) && Same(next.runId, c.runId)
    && Same(next.bootIdBefore, c.bootIdBefore)
  }

  lemma StayIsSafe(s: Sys, t: Sys, c: CycleState, next: CycleState)
    requires Stored(s, c) && Stays(c, next) && Kept(s, t) && Stored(t, next)
    ensures Recoverable(s, c.runId) ==> Recoverable(t, c.runId)
  {
  }

  lemma MaySave(s: Sys, c: CycleState, next: CycleState)
    requires Stored(s, c) && next.runId == c.runId && (next.state.FAILED? || FreshGate in s.proc.value.gates)
    requires Edit(s, s.proc.value, c, next) && WellFormed(next)
    ensures OkIn(s, s.proc.value, Saved(next, true))
  {
    hide Edit, WellFormed;
  }

  /** Whether a save reaches the disk makes no difference to whether it may be made. */
  lemma EitherWay(s: Sys, p: Proc, c: CycleState)
    requires OkIn(s, p, Saved(c, true))
    ensures OkIn(s, p, Saved(c, false))
  {
    hide SaveOk;
  }

  lemma MayCreate(s: Sys, c: CycleState, next: CycleState)
    requires Created(s, c) && Arc(c, next) && next.state.PRECHECK? && WellFormed(next)
    ensures OkIn(s, s.proc.value, Saved(next, true))
  {
    ArcKeeps(c, next);
    hide Edit, WellFormed, Arc;
  }

  lemma NewIsCreated(s: Sys, runId: string, hostname: string, startedAt: string, provider: string)
    requires s.proc.Some? && s.proc.value.loaded && s.proc.value.entry == RunEntry && !s.proc.value.applying
    requires s.cell.Empty? && runId !in s.used && ValidRunId(runId)
    ensures var c := NewCycle(runId, hostname, startedAt, provider); Created(s, c) && Same(c.runId, runId)
  {
  }

  lemma NewIsWellFormed(s: Sys, c: CycleState)
    requires Created(s, c)
    ensures WellFormed(c)
  {
  }

  lemma SavedIsStored(s: Sys, t: Sys, c: CycleState, next: CycleState)
    requires Owns(s, c) && Kept(s, t) && t.cell == Rec(next) && !next.state.IDLE?
    requires t.proc.value.finishing == Terminal(next.state)
    ensures Stored(t, next)
  {
    hide NewCycle;
  }

  /** Facts of a stored record its owner may rely on. */
  lemma StoredFacts(s: Sys, c: CycleState)
    requires Inv(s) && Stored(s, c)
    ensures WellFormed(c)
    ensures c.state.POST_REBOOT? ==> !SameBoot(s, c) && (c.rebootBeforeUpdates ==> !c.initialRebootCompleted)
    ensures BeforeRebooting(c.state) || c.state.REBOOTING? || c.state.POST_REBOOT? ==> Truthy(c.bootIdBefore)
    ensures BeforeRebooting(c.state) || c.state.PRECHECK? || c.state.REBOOTING? ==> c.bootIdAfter.None?
    ensures c.state.POST_REBOOT? && c.bootIdAfter.Some? ==> Truthy(c.bootIdAfter)
    ensures c.bootIdBefore.Some? ==> Truthy(c.bootIdBefore)
    ensures c.state.UPGRADING? ==> !c.rebootBeforeUpdates
    ensures c.state.COMPLETED? ==> c.outcome == Some(FinalOutcome(c))
    ensures Current(s) != ""
  {
    hide WellFormed, TrailOk, FinalOutcome, ArchiveOk, PastOk, ProcOk;
  }

  /** A move that lands can be failed; one that reached the disk leaves its caller holding the next record. */
  lemma Landed(s: Sys, t: Sys, mem: CycleState, next: CycleState, dst: State)
    requires Kept(s, t) && Stored(t, next) && Follows(mem, next, dst) && Lands(s, mem, dst)
    ensures Recoverable(t, mem.runId) && (t.past == {} ==> Holds(t, next))
  {
  }

  lemma HeldFacts(s: Sys, c: CycleState)
    requires Holds(s, c)
    ensures Stored(s, c) && Working(s.proc.value, c, c.state)
    ensures BeforeRebooting(c.state) || c.state.REBOOTING? ==> SameBoot(s, c)
    ensures c.state.PRECHECK? ==> c.bootIdBefore.None? || SameBoot(s, c)
    ensures c.state.POST_REBOOT? && Truthy(c.bootIdAfter) ==> c.bootIdAfter == Some(Current(s))
    ensures !c.state.FAILED? ==> Recoverable(s, c.runId)
    ensures Grounded(c.state) ==> s.past == {}
  {
  }

  lemma MayTransition(s: Sys, c: CycleState, mem: CycleState, dst: State, at: string, now: string)
    requires Owns(s, c) && mem.runId == c.runId && mem.state == c.state && IsLegal(mem.state, dst) && WellFormed(mem)
    requires if c.state.IDLE? then mem == c else Allowed(s, s.proc.value, c, mem, dst)
    requires c.state.IDLE? || dst.FAILED? || FreshGate in s.proc.value.gates
    ensures var next := Moved(mem, dst, at, now);
      OkIn(s, s.proc.value, Saved(next, true)) && Follows(mem, next, dst) && !next.state.IDLE?
  {
    hide Edit, OkIn;
    MovedIsArc(mem, dst, at, now);
    var next := Moved(mem, dst, at, now);
    ArcKeeps(mem, next);
    if c.state.IDLE? {
      MayCreate(s, c, next);
    } else {
      hide Arc;
      MaySave(s, c, next);
    }
  }

  /** Between two reboot attempts: the record is stored at REBOOTING, whichever attempt it is. */
  ghost predicate AtReboot(s: Sys, run: string) {
    && s.proc.Some? && s.proc.value.loaded && (s.proc.value.entry == RunEntry || s.proc.value.entry == ResumeEntry)
    && s.cell.Rec? && s.cell.cycle.state.REBOOTING? && s.cell.cycle.runId == run
  }

  lemma AtRebootIsRecoverable(s: Sys, run: string)
    requires AtReboot(s, run)
    ensures Recoverable(s, run)
  {
  }

  // --------------------------------------------------------- the edits it makes

  /** The record `_transition` saves. */
  function Moved(c: CycleState, dst: State, at: string, now: string): CycleState {
    RecordTransition(c, dst, at).(state := dst, updatedAt := now)
  }

  lemma MovedIsArc(c: CycleState, dst: State, at: string, now: string)
    requires IsLegal(c.state, dst)
    ensures Arc(c, Moved(c, dst, at, now)) && Moved(c, dst, at, now).state == dst
    ensures WellFormed(c) ==> WellFormed(Moved(c, dst, at, now))
  {
    hide StateName, ValidRunId, DurationOk;
  }

  lemma MovedKeeps(mem: CycleState, dst: State, at: string, now: string)
    ensures Moved(mem, dst, at, now).runId == mem.runId && Logged(mem, Moved(mem, dst, at, now), dst)
  {
    assert Same(Moved(mem, dst, at, now).transitions, mem.transitions + [StepEntry(mem.state, dst, at)]);
  }

  /** Moving `mem` (the stored record `d` with a handler's facts filled in) to `dst` is an allowed edit. */
  ghost predicate Allowed(s: Sys, p: Proc, d: CycleState, mem: CycleState, dst: State) {
    forall c | Arc(mem, c) && c.state == dst :: Edit(s, p, d, c)
  }

  /** What a move of the table still needs: a record that can be written, and an edit that is allowed. */
  ghost predicate MayMove(s: Sys, p: Proc, c: CycleState, mem: CycleState, dst: State) {
    && WellFormed(mem) && (c.state.IDLE? || dst.FAILED? || FreshGate in p.gates)
    && if c.state.IDLE? then Same(mem, c) else Allowed(s, p, c, mem, dst)
  }

  lemma AllowFail(s: Sys, p: Proc, d: CycleState)
    requires IsLegal(d.state, FAILED)
    requires Doomed(s, d) ==> Diagnosed(p)
    ensures Allowed(s, p, d, d, FAILED)
  {
    hide Arc, Doomed;
  }

  lemma AllowRestart(s: Sys, p: Proc, d: CycleState)
    requires d.state.REFRESHING? || d.state.DISCOVERING_UPDATES? || d.state.UPGRADING?
    requires SameBoot(s, d) && p.entry == RunEntry && !p.applying
    ensures Allowed(s, p, d, d, PRECHECK)
  {
    hide Arc, Fails, EditsDiscovering, EditsUpgrading;
  }

  lemma AllowPrecheck(s: Sys, p: Proc, d: CycleState, mem: CycleState)
    requires RootGate in p.gates && SpaceGate in p.gates
    requires d.state.PRECHECK? && PreflightGate in p.gates && (d.bootIdBefore.None? || SameBoot(s, d))
    requires p.identity == Some(OsIdentity(mem.os, mem.kernelBefore))
    requires p.reported.Some? && mem.preExistingReboot == p.reported.value.preExistingReboot
    requires mem == d.(os := mem.os, kernelBefore := mem.kernelBefore, bootIdBefore := Some(Current(s)),
                       preExistingReboot := mem.preExistingReboot)
    ensures Allowed(s, p, d, mem, REFRESHING)
  {
    forall c | Arc(mem, c) && c.state.REFRESHING? ensures EditsPrecheck(s, p, d, c) {
      ArcKeeps(mem, c);
      hide Arc;
    }
    hide EditsPrecheck, Arc, Fails;
  }

  lemma AllowRebootFirst(s: Sys, p: Proc, d: CycleState, mem: CycleState)
    requires RootGate in p.gates && SpaceGate in p.gates
    requires d.state.PRECHECK? && PreflightGate in p.gates && (d.bootIdBefore.None? || SameBoot(s, d))
    requires p.identity == Some(OsIdentity(mem.os, mem.kernelBefore))
    requires p.reported.Some? && mem.preExistingReboot == p.reported.value.preExistingReboot
    requires !d.initialRebootCompleted && mem.preExistingReboot
    requires mem == d.(os := mem.os, kernelBefore := mem.kernelBefore, bootIdBefore := Some(Current(s)),
                       preExistingReboot := mem.preExistingReboot,
                       rebootBeforeUpdates := true, rebootRequired := true)
    ensures Allowed(s, p, d, mem, REBOOT_PENDING)
  {
    forall c | Arc(mem, c) && c.state.REBOOT_PENDING? ensures EditsPrecheck(s, p, d, c) {
      ArcKeeps(mem, c);
      hide Arc;
    }
    hide EditsPrecheck, Arc, Fails;
  }

  lemma AllowDiscover(s: Sys, p: Proc, d: CycleState, mem: CycleState)
    requires d.state.REFRESHING? && SameBoot(s, d) && s.past == {}
    requires p.refreshed.Some? && p.refreshed.value.ok
    requires mem == d.(warnings := mem.warnings)
    requires forall w :: w in mem.warnings <==> w in d.warnings + p.refreshed.value.warnings
    ensures Allowed(s, p, d, mem, DISCOVERING_UPDATES)
  {
    forall c | Arc(mem, c) && c.state.DISCOVERING_UPDATES? ensures EditsRefreshing(s, p, d, c) {
      ArcKeeps(mem, c);
      hide Arc;
    }
    hide EditsRefreshing, Arc, Fails, Restarts;
  }

  lemma AllowAfterDiscovery(s: Sys, p: Proc, d: CycleState, mem: CycleState)
    requires d.state.DISCOVERING_UPDATES? && SameBoot(s, d) && s.past == {} && p.listed == Some(mem.updatesAvailable)
    requires mem == d.(updatesAvailable := mem.updatesAvailable, packagesPending := Pending(mem.updatesAvailable))
    ensures Allowed(s, p, d, mem, if mem.packagesPending == 0 then CHECKING_REBOOT else UPGRADING)
  {
    var dst := if mem.packagesPending == 0 then CHECKING_REBOOT else UPGRADING;
    forall c | Arc(mem, c) && c.state == dst ensures EditsDiscovering(s, p, d, c) {
      ArcKeeps(mem, c);
      hide Arc, Pending;
    }
    hide EditsDiscovering, Arc, Fails, Restarts;
  }

  lemma AllowAfterUpgrade(s: Sys, p: Proc, d: CycleState)
    requires d.state.UPGRADING? && SameBoot(s, d) && s.past == {} && d.updatesApplied
    requires p.applying ==> AfterUpgrade in p.hooks
    ensures Allowed(s, p, d, d, CHECKING_REBOOT)
  {
    hide Arc, Fails, Restarts;
  }

  lemma AllowAfterCheck(s: Sys, p: Proc, d: CycleState, mem: CycleState, dst: State)
    requires d.state.CHECKING_REBOOT? && SameBoot(s, d)
    requires p.probed == Some(RebootStatus(mem.rebootRequired, mem.rebootReasons))
    requires var probed := d.(rebootRequired := mem.rebootRequired, rebootReasons := mem.rebootReasons);
      || (dst.REBOOT_PENDING? && mem == probed)
      || (dst.VERIFYING? && mem == probed && !mem.rebootRequired)
      || (dst.VERIFYING? && d.preExistingReboot && mem == probed.(outcome := Some(ManualRebootRequired)))
    ensures Allowed(s, p, d, mem, dst)
  {
    forall c | Arc(mem, c) && c.state == dst ensures EditsCheckingReboot(s, p, d, c) {
      ArcKeeps(mem, c);
      hide Arc;
    }
    hide EditsCheckingReboot, Arc, Fails;
  }

  lemma AllowDecision(s: Sys, p: Proc, d: CycleState, mem: CycleState, dst: State)
    requires d.state.REBOOT_PENDING? && SameBoot(s, d)
    requires || (dst.REBOOTING? && mem == d && DecisionGates(p))
             || (dst.VERIFYING? && mem == d && !d.rebootRequired)
             || (dst.VERIFYING? && d.rebootRequired && mem == d.(outcome := Some(ManualRebootRequired)))
    ensures Allowed(s, p, d, mem, dst)
  {
    hide Arc, Fails;
  }

  lemma AllowPostReboot(s: Sys, p: Proc, d: CycleState)
    requires d.state.REBOOTING? && !SameBoot(s, d)
    ensures Allowed(s, p, d, d, POST_REBOOT)
  {
    hide Arc, Fails;
  }

  lemma AllowAfterProof(s: Sys, p: Proc, d: CycleState, mem: CycleState, dst: State)
    requires d.state.POST_REBOOT? && KernelAsExpected(s, d)
    requires d.bootIdAfter == Some(Current(s)) && AfterReboot in p.hooks
    requires if d.rebootBeforeUpdates then
               && dst.PRECHECK?
               && mem == d.(rebootBeforeUpdates := false, initialRebootCompleted := true,
                            bootIdBefore := Some(Current(s)), bootIdAfter := None,
                            rebootAttempts := 0, rebootInitiatedAt := None)
             else dst.VERIFYING? && mem == d
    ensures Allowed(s, p, d, mem, dst)
  {
    hide Arc, Fails;
  }

  lemma AllowAfterVerify(s: Sys, p: Proc, d: CycleState)
    requires d.state.VERIFYING? && d.verifyPassed == Some(true) && d.outstandingUpdates == Some(0)
    requires p.verified == Some(VerifyResult(true, 0))
    ensures Allowed(s, p, d, d, HEALTH_CHECKING)
  {
    hide Arc, Fails;
  }

  lemma AllowAfterHealth(s: Sys, p: Proc, d: CycleState, mem: CycleState)
    requires d.state.HEALTH_CHECKING? && p.health == Some(mem.healthResults)
    requires mem == d.(healthResults := mem.healthResults, error := mem.error)
    requires if CriticalFailure(mem.healthResults) then HealthFailed(mem.error) else mem.error == d.error
    ensures Allowed(s, p, d, mem, NOTIFYING)
  {
    forall c | Arc(mem, c) && c.state.NOTIFYING? ensures EditsHealthChecking(s, p, d, c) {
      ArcKeeps(mem, c);
      hide Arc, HealthFailed;
    }
    hide EditsHealthChecking, Arc, Fails;
  }

  lemma AllowCompletion(s: Sys, p: Proc, d: CycleState)
    requires d.state.NOTIFYING? && d.outcome == Some(FinalOutcome(d)) && s.past == {}
    ensures Allowed(s, p, d, d, COMPLETED)
  {
    hide Arc, Fails, FinalOutcome;
  }

  // ------------------------------------------------ each handler's move, complete

  /** `mem` may be moved from `c`'s state to `dst`, and the handler's caller can go on from there. */
  ghost predicate Moves(s: Sys, c: CycleState, mem: CycleState, dst: State) {
    && Same(mem.runId, c.runId) && Same(mem.state, c.state) && IsLegal(mem.state, dst) && WellFormed(mem)
    && s.proc.Some? && FreshGate in s.proc.value.gates
    && Allowed(s, s.proc.value, c, mem, dst) && Lands(s, mem, dst)
    && (dst.PRECHECK? || Climbs(c, mem, dst))
  }

  ghost predicate Proceeds(s: Sys, c: CycleState, mem: CycleState, dst: State) {
    Moves(s, c, mem, dst) && Climbs(c, mem, dst)
  }

  function Checked(c: CycleState, os: map<Name, string>, kernel: string, bootId: string, pending: bool): CycleState {
    c.(os := os, kernelBefore := kernel, bootIdBefore := Some(bootId), preExistingReboot := pending)
  }

  /** What the process found of the machine, and what the last preflight reported of a pending reboot. */
  predicate Reports(p: Proc, os: map<Name, string>, kernel: string, pending: bool) {
    && p.identity == Some(OsIdentity(os, kernel))
    && p.reported.Some? && p.reported.value.preExistingReboot == pending
  }

  lemma PrecheckMoves(s: Sys, c: CycleState, os: map<Name, string>, kernel: string, pending: bool)
    requires Stored(s, c) && c.state.PRECHECK? && PreflightGate in s.proc.value.gates && WellFormed(c)
    requires (c.bootIdBefore.None? || SameBoot(s, c)) && Working(s.proc.value, c, c.state)
    requires RootGate in s.proc.value.gates && SpaceGate in s.proc.value.gates
    requires Reports(s.proc.value, os, kernel, pending)
    ensures var mem := Checked(c, os, kernel, Current(s), pending);
      && Proceeds(s, c, mem, REFRESHING)
      && mem.initialRebootCompleted == c.initialRebootCompleted && mem.preExistingReboot == pending
  {
    hide Edit;
    AllowPrecheck(s, s.proc.value, c, Checked(c, os, kernel, Current(s), pending));
    hide Allowed;
  }

  function AskReboot(c: CycleState): CycleState {
    c.(rebootBeforeUpdates := true, rebootRequired := true)
  }

  lemma RebootFirstMoves(s: Sys, c: CycleState, os: map<Name, string>, kernel: string)
    requires Stored(s, c) && c.state.PRECHECK? && PreflightGate in s.proc.value.gates && WellFormed(c)
    requires (c.bootIdBefore.None? || SameBoot(s, c)) && Working(s.proc.value, c, c.state)
    requires RootGate in s.proc.value.gates && SpaceGate in s.proc.value.gates
    requires !c.initialRebootCompleted && Reports(s.proc.value, os, kernel, true)
    ensures var mem := AskReboot(Checked(c, os, kernel, Current(s), true));
      && Proceeds(s, c, mem, REBOOT_PENDING)
      && mem.initialRebootCompleted == c.initialRebootCompleted && mem.preExistingReboot
  {
    hide Edit;
    AllowRebootFirst(s, s.proc.value, c, AskReboot(Checked(c, os, kernel, Current(s), true)));
    hide Allowed;
  }

  lemma RefreshMoves(s: Sys, c: CycleState, warnings: seq<string>)
    requires Stored(s, c) && c.state.REFRESHING? && WellFormed(c) && SameBoot(s, c) && s.past == {}
    requires Working(s.proc.value, c, c.state) && s.proc.value.refreshed.Some? && s.proc.value.refreshed.value.ok
    requires forall w :: w in warnings <==> w in c.warnings + s.proc.value.refreshed.value.warnings
    ensures var mem := c.(warnings := warnings);
      && Proceeds(s, c, mem, DISCOVERING_UPDATES) && mem.initialRebootCompleted == c.initialRebootCompleted
      && mem.warnings == warnings
  {
    hide Edit;
    AllowDiscover(s, s.proc.value, c, c.(warnings := warnings));
    hide Allowed;
  }

  function Discovered(c: CycleState, us: seq<UpdateInfo>): CycleState {
    c.(updatesAvailable := us, packagesPending := Pending(us))
  }

  lemma DiscoveryMoves(s: Sys, c: CycleState, us: seq<UpdateInfo>)
    requires Stored(s, c) && c.state.DISCOVERING_UPDATES? && WellFormed(c) && SameBoot(s, c) && s.past == {}
    requires Working(s.proc.value, c, c.state) && s.proc.value.listed == Some(us)
    ensures var mem := Discovered(c, us);
      && Proceeds(s, c, mem, if Pending(us) == 0 then CHECKING_REBOOT else UPGRADING)
      && mem.initialRebootCompleted == c.initialRebootCompleted && mem.packagesPending == Pending(us)
      && mem.updatesAvailable == us
  {
    hide Edit, Pending;
    AllowAfterDiscovery(s, s.proc.value, c, Discovered(c, us));
    hide Allowed;
  }

  function Applied(c: CycleState, r: ApplyResult): CycleState {
    c.(updatesApplied := true, packagesUpdated := r.packagesUpdated, kernelUpdate := r.kernelUpdate,
       expectedKernel := r.expectedKernel)
  }

  lemma UpgradeSaves(s: Sys, c: CycleState, r: ApplyResult)
    requires Stored(s, c) && c.state.UPGRADING? && WellFormed(c) && SameBoot(s, c) && !c.updatesApplied && s.past == {}
    requires s.proc.value.applying && s.proc.value.applied == Some(r) && r.ok
    requires FreshGate in s.proc.value.gates
    ensures var next := Applied(c, r);
      && OkIn(s, s.proc.value, Saved(next, true)) && WellFormed(next)
      && Stays(c, next) && next.state.UPGRADING? && next.updatesApplied && SameBoot(s, next)
      && next.initialRebootCompleted == c.initialRebootCompleted && next.rebootBeforeUpdates == c.rebootBeforeUpdates
  {
    assert EditsUpgrading(s, s.proc.value, c, Applied(c, r));
    hide EditsUpgrading, OkIn;
    MaySave(s, c, Applied(c, r));
  }

  lemma UpgradedMoves(s: Sys, c: CycleState)
    requires Stored(s, c) && c.state.UPGRADING? && WellFormed(c) && SameBoot(s, c) && c.updatesApplied && s.past == {}
    requires FreshGate in s.proc.value.gates
    requires s.proc.value.applying ==> !c.rebootBeforeUpdates && AfterUpgrade in s.proc.value.hooks
    ensures Proceeds(s, c, c, CHECKING_REBOOT)
  {
    hide Edit;
    AllowAfterUpgrade(s, s.proc.value, c);
    hide Allowed;
  }

  function Probe(c: CycleState, status: RebootStatus): CycleState {
    c.(rebootRequired := status.required, rebootReasons := status.reasons)
  }

  function ByHand(c: CycleState): CycleState {
    c.(outcome := Some(ManualRebootRequired))
  }

  lemma ProbeMoves(s: Sys, c: CycleState, status: RebootStatus, dst: State)
    requires Stored(s, c) && c.state.CHECKING_REBOOT? && WellFormed(c) && SameBoot(s, c)
    requires Working(s.proc.value, c, c.state) && s.proc.value.probed == Some(status)
    requires dst.REBOOT_PENDING? || (dst.VERIFYING? && !status.required)
    ensures var mem := Probe(c, status);
      && Proceeds(s, c, mem, dst) && mem.initialRebootCompleted == c.initialRebootCompleted
      && mem.rebootRequired == status.required
  {
    hide Edit;
    AllowAfterCheck(s, s.proc.value, c, Probe(c, status), dst);
    hide Allowed;
  }

  lemma ReportOnlyMoves(s: Sys, c: CycleState, status: RebootStatus)
    requires Stored(s, c) && c.state.CHECKING_REBOOT? && WellFormed(c) && SameBoot(s, c)
    requires Working(s.proc.value, c, c.state) && s.proc.value.probed == Some(status)
    requires c.preExistingReboot
    ensures var mem := ByHand(Probe(c, status));
      && Proceeds(s, c, mem, VERIFYING) && mem.initialRebootCompleted == c.initialRebootCompleted
      && mem.outcome == Some(ManualRebootRequired)
  {
    hide Edit;
    AllowAfterCheck(s, s.proc.value, c, ByHand(Probe(c, status)), VERIFYING);
    hide Allowed;
  }

  lemma DecisionMoves(s: Sys, c: CycleState, dst: State)
    requires Stored(s, c) && c.state.REBOOT_PENDING? && WellFormed(c) && SameBoot(s, c)
    requires Working(s.proc.value, c, c.state)
    requires (dst.REBOOTING? && DecisionGates(s.proc.value)) || (dst.VERIFYING? && !c.rebootRequired)
    ensures Proceeds(s, c, c, dst)
  {
    hide Edit;
    AllowDecision(s, s.proc.value, c, c, dst);
    hide Allowed;
  }

  lemma ByHandMoves(s: Sys, c: CycleState)
    requires Stored(s, c) && c.state.REBOOT_PENDING? && WellFormed(c) && SameBoot(s, c)
    requires Working(s.proc.value, c, c.state) && c.rebootRequired
    ensures var mem := ByHand(c);
      && Proceeds(s, c, mem, VERIFYING) && mem.initialRebootCompleted == c.initialRebootCompleted
      && mem.outcome == Some(ManualRebootRequired)
  {
    hide Edit;
    AllowDecision(s, s.proc.value, c, ByHand(c), VERIFYING);
    hide Allowed;
  }

  lemma RebootedMoves(s: Sys, c: CycleState)
    requires Stored(s, c) && c.state.REBOOTING? && WellFormed(c) && !SameBoot(s, c) && c.bootIdAfter.None?
    requires Working(s.proc.value, c, c.state)
    ensures Proceeds(s, c, c, POST_REBOOT)
  {
    hide Edit;
    AllowPostReboot(s, s.proc.value, c);
    hide Allowed;
  }

  function Proved(c: CycleState, bootId: string, kernel: string): CycleState {
    c.(kernelAfter := Some(kernel), bootIdAfter := Some(bootId))
  }

  lemma ProofSaves(s: Sys, c: CycleState)
    requires Stored(s, c) && c.state.POST_REBOOT? && WellFormed(c) && !SameBoot(s, c) && KernelAsExpected(s, c)
    requires Truthy(c.bootIdAfter) ==> c.bootIdAfter == Some(Current(s))
    requires FreshGate in s.proc.value.gates
    ensures var next := Proved(c, Current(s), s.kernel);
      && OkIn(s, s.proc.value, Saved(next, true)) && WellFormed(next)
      && Stays(c, next) && next.state.POST_REBOOT?
      && next.bootIdAfter == Some(Current(s)) && next.rebootBeforeUpdates == c.rebootBeforeUpdates
      && next.initialRebootCompleted == c.initialRebootCompleted && next.updatesApplied == c.updatesApplied
      && KernelAsExpected(s, next)
  {
    assert EditsPostReboot(s, s.proc.value, c, Proved(c, Current(s), s.kernel));
    hide EditsPostReboot, OkIn;
    MaySave(s, c, Proved(c, Current(s), s.kernel));
  }

  /** The reboot-first phase is over: forget its attempts and start the second pass from this boot. */
  function SecondPass(c: CycleState, bootId: string): CycleState {
    c.(rebootBeforeUpdates := false, initialRebootCompleted := true, bootIdBefore := Some(bootId),
       bootIdAfter := None, rebootAttempts := 0, rebootInitiatedAt := None)
  }

  lemma SecondPassMoves(s: Sys, c: CycleState)
    requires Stored(s, c) && c.state.POST_REBOOT? && WellFormed(c) && KernelAsExpected(s, c)
    requires c.bootIdAfter == Some(Current(s)) && AfterReboot in s.proc.value.hooks && c.rebootBeforeUpdates
    requires Working(s.proc.value, c, c.state)
    requires !c.initialRebootCompleted
    ensures var mem := SecondPass(c, Current(s));
      Proceeds(s, c, mem, PRECHECK) && mem.initialRebootCompleted && mem.rebootAttempts == 0
  {
    hide Edit;
    AllowAfterProof(s, s.proc.value, c, SecondPass(c, Current(s)), PRECHECK);
    hide Allowed;
  }

  lemma ProvedMoves(s: Sys, c: CycleState)
    requires Stored(s, c) && c.state.POST_REBOOT? && WellFormed(c) && KernelAsExpected(s, c)
    requires c.bootIdAfter == Some(Current(s)) && AfterReboot in s.proc.value.hooks && !c.rebootBeforeUpdates
    requires Working(s.proc.value, c, c.state)
    ensures Proceeds(s, c, c, VERIFYING)
  {
    hide Edit;
    AllowAfterProof(s, s.proc.value, c, c, VERIFYING);
    hide Allowed;
  }

  function Verified(c: CycleState, v: VerifyResult): CycleState {
    c.(verifyPassed := Some(v.consistent && v.outstanding == 0), outstandingUpdates := Some(v.outstanding))
  }

  lemma VerdictEdits(s: Sys, c: CycleState, v: VerifyResult)
    requires s.proc.Some? && c.state.VERIFYING? && s.proc.value.verified == Some(v)
    ensures Edit(s, s.proc.value, c, Verified(c, v))
  {
    hide Fails;
    assert EditsVerifying(s, s.proc.value, c, Verified(c, v));
    hide EditsVerifying;
  }

  lemma VerdictSaves(s: Sys, c: CycleState, v: VerifyResult)
    requires Stored(s, c) && c.state.VERIFYING? && WellFormed(c) && s.proc.value.verified == Some(v)
    requires FreshGate in s.proc.value.gates
    ensures var next := Verified(c, v);
      && OkIn(s, s.proc.value, Saved(next, true)) && WellFormed(next)
      && Stays(c, next) && next.state.VERIFYING?
      && next.initialRebootCompleted == c.initialRebootCompleted && next.rebootBeforeUpdates == c.rebootBeforeUpdates
      && next.updatesApplied == c.updatesApplied
      && next.verifyPassed == Some(v.consistent && v.outstanding == 0) && next.outstandingUpdates == Some(v.outstanding)
  {
    hide OkIn, Edit;
    assert Edit(s, s.proc.value, c, Verified(c, v)) by {
      VerdictEdits(s, c, v);
    }
    MaySave(s, c, Verified(c, v));
  }

  lemma VerifiedMoves(s: Sys, c: CycleState)
    requires Stored(s, c) && c.state.VERIFYING? && WellFormed(c) && s.proc.value.verified == Some(VerifyResult(true, 0))
    requires c.verifyPassed == Some(true) && c.outstandingUpdates == Some(0)
    requires Working(s.proc.value, c, c.state)
    ensures Proceeds(s, c, c, HEALTH_CHECKING)
  {
    hide Edit;
    AllowAfterVerify(s, s.proc.value, c);
    hide Allowed;
  }

  function Examined(c: CycleState, hs: seq<HealthResult>, error: Option<ErrorInfo>): CycleState {
    c.(healthResults := hs, error := error)
  }

  lemma HealthMoves(s: Sys, c: CycleState, hs: seq<HealthResult>, error: Option<ErrorInfo>)
    requires Stored(s, c) && c.state.HEALTH_CHECKING? && WellFormed(c) && s.proc.value.health == Some(hs)
    requires forall h | h in hs && h.duration.Some? :: DurationOk(h.duration.value)
    requires if CriticalFailure(hs) then HealthFailed(error) else error == c.error
    requires Working(s.proc.value, c, c.state)
    ensures var mem := Examined(c, hs, error);
      && Proceeds(s, c, mem, NOTIFYING) && mem.initialRebootCompleted == c.initialRebootCompleted
      && mem.healthResults == hs && mem.error == error
  {
    hide Edit, DurationOk, ValidRunId, CriticalFailure;
    AllowAfterHealth(s, s.proc.value, c, Examined(c, hs, error));
    hide Allowed;
  }

  lemma OutcomeSaves(s: Sys, c: CycleState)
    requires Stored(s, c) && c.state.NOTIFYING? && WellFormed(c)
    requires FreshGate in s.proc.value.gates
    ensures var next := c.(outcome := Some(FinalOutcome(c)));
      && OkIn(s, s.proc.value, Saved(next, true)) && WellFormed(next)
      && Stays(c, next) && next.state.NOTIFYING?
      && next.initialRebootCompleted == c.initialRebootCompleted && next.rebootBeforeUpdates == c.rebootBeforeUpdates
      && next.updatesApplied == c.updatesApplied
      && next.outcome == Some(FinalOutcome(c)) && FinalOutcome(next) == FinalOutcome(c)
      && next.notificationStatus == c.notificationStatus
  {
    FinalOutcomeStable(c, c.notificationStatus);
    var next := c.(outcome := Some(FinalOutcome(c)));
    assert next == c.(outcome := Some(FinalOutcome(c)), notificationStatus := c.notificationStatus);
    assert EditsNotifying(s, s.proc.value, c, next);
    hide EditsNotifying, OkIn, FinalOutcome;
    MaySave(s, c, next);
  }

  lemma StatusSaves(s: Sys, c: CycleState, n: Name, status: string)
    requires Stored(s, c) && c.state.NOTIFYING? && WellFormed(c) && c.outcome == Some(FinalOutcome(c))
    requires !SentIn(c, n) && (status == SENT ==> (c.runId, n) in s.proc.value.sent)
    requires FreshGate in s.proc.value.gates
    ensures var next := c.(notificationStatus := c.notificationStatus[n := status]);
      && OkIn(s, s.proc.value, Saved(next, true)) && WellFormed(next)
      && Stays(c, next) && next.state.NOTIFYING?
      && next.initialRebootCompleted == c.initialRebootCompleted && next.rebootBeforeUpdates == c.rebootBeforeUpdates
      && next.updatesApplied == c.updatesApplied
      && next.outcome == Some(FinalOutcome(next)) && FinalOutcome(next) == FinalOutcome(c)
      && next.notificationStatus == c.notificationStatus[n := status]
  {
    var next := c.(notificationStatus := c.notificationStatus[n := status]);
    assert EditsNotifying(s, s.proc.value, c, next) by {
      hide FinalOutcome;
    }
    assert FinalOutcome(next) == FinalOutcome(c);
    hide EditsNotifying, OkIn, FinalOutcome;
    MaySave(s, c, next);
  }

  lemma NotifiedMoves(s: Sys, c: CycleState)
    requires Stored(s, c) && c.state.NOTIFYING? && WellFormed(c) && c.outcome == Some(FinalOutcome(c))
    requires Working(s.proc.value, c, c.state) && s.past == {}
    ensures Proceeds(s, c, c, COMPLETED)
  {
    hide Edit, FinalOutcome;
    AllowCompletion(s, s.proc.value, c);
    hide Allowed;
  }

  lemma RestartMoves(s: Sys, c: CycleState)
    requires Stored(s, c) && WellFormed(c) && SameBoot(s, c) && s.proc.value.entry == RunEntry && !s.proc.value.applying
    requires c.state.REFRESHING? || c.state.DISCOVERING_UPDATES? || c.state.UPGRADING?
    requires FreshGate in s.proc.value.gates
    ensures Moves(s, c, c, PRECHECK)
  {
    hide Edit;
    AllowRestart(s, s.proc.value, c);
    hide Allowed;
  }

  lemma FailureMoves(s: Sys, c: CycleState)
    requires Recoverable(s, c.runId) && s.cell == Rec(c) && IsLegal(c.state, FAILED)
    ensures Stored(s, c) && Allowed(s, s.proc.value, c, c, FAILED)
  {
    hide Edit, Doomed;
    AllowFail(s, s.proc.value, c);
    hide Allowed;
  }

  lemma ForcedFailureSaves(s: Sys, c: CycleState)
    requires Recoverable(s, c.runId) && s.cell == Rec(c) && !IsLegal(c.state, FAILED) && WellFormed(c)
    ensures var next := c.(state := FAILED);
      && Stored(s, c) && OkIn(s, s.proc.value, Saved(next, true)) && WellFormed(next)
      && next.runId == c.runId && next.state.FAILED?
  {
    var next := c.(state := FAILED);
    assert Fails(s, s.proc.value, c, next) by {
      hide Doomed;
    }
    hide Fails, OkIn;
    MaySave(s, c, next);
  }

  lemma VerdictOnFailureSaves(s: Sys, c: CycleState, error: ErrorInfo, o: Outcome)
    requires Stored(s, c) && c.state.FAILED? && WellFormed(c)
    ensures var next := c.(error := Some(error), outcome := Some(o));
      && OkIn(s, s.proc.value, Saved(next, true)) && WellFormed(next) && next.runId == c.runId && next.state.FAILED?
      && next.outcome == Some(o) && next.error == Some(error)
  {
    var next := c.(error := Some(error), outcome := Some(o));
    assert next == c.(error := next.error, outcome := next.outcome, notificationStatus := next.notificationStatus);
    assert Edit(s, s.proc.value, c, next) by {
      hide Fails;
    }
    hide Edit, OkIn;
    MaySave(s, c, next);
  }

  lemma FailureStatusSaves(s: Sys, c: CycleState, status: map<Name, string>)
    requires Stored(s, c) && c.state.FAILED? && WellFormed(c)
    requires MarksHonestly(s.proc.value, c, c.(notificationStatus := status))
    ensures var next := c.(notificationStatus := status);
      && OkIn(s, s.proc.value, Saved(next, true)) && WellFormed(next) && next.runId == c.runId && next.state.FAILED?
      && next.outcome == c.outcome && Same(next.error, c.error) && next.notificationStatus == status
  {
    var next := c.(notificationStatus := status);
    assert next == c.(error := next.error, outcome := next.outcome, notificationStatus := next.notificationStatus);
    assert Edit(s, s.proc.value, c, next) by {
      hide Fails;
    }
    hide Edit, OkIn;
    MaySave(s, c, next);
  }

  lemma ConclusionSaves(s: Sys, c: CycleState, now: string)
    requires Stored(s, c) && c.state.COMPLETED? && WellFormed(c)
    requires FreshGate in s.proc.value.gates
    ensures var next := c.(outcome := Some(FinalOutcome(c)), updatedAt := now);
      && OkIn(s, s.proc.value, Saved(next, true)) && WellFormed(next) && next.runId == c.runId && next.state.COMPLETED?
      && next.outcome == Some(FinalOutcome(c))
  {
    hide FinalOutcome;
    var next := c.(outcome := Some(FinalOutcome(c)), updatedAt := now);
    assert Edit(s, s.proc.value, c, next) by {
      hide Fails;
    }
    hide Edit, OkIn;
    MaySave(s, c, next);
  }

  // -------------------------------------------------------- effects it may have

  /** The last preflight found an interrupted transaction. */
  predicate Interrupted(p: Proc) {
    p.reported.Some? && !p.reported.value.ok && p.reported.value.kind.InterruptedTransaction?
  }

  lemma MayRepair(s: Sys, c: CycleState)
    requires Stored(s, c) && c.state.PRECHECK? && (c.bootIdBefore.None? || SameBoot(s, c))
    requires WindowGate in s.proc.value.gates && Interrupted(s.proc.value)
    ensures OkIn(s, s.proc.value, RepairCalled(c.runId))
  {
  }

  lemma MayApply(s: Sys, c: CycleState)
    requires Stored(s, c) && c.state.UPGRADING? && SameBoot(s, c) && !c.updatesApplied && !s.proc.value.applying
    requires s.past == {}
    requires BeforeUpgrade in s.proc.value.hooks
    requires PreflightGate in s.proc.value.gates && WindowGate in s.proc.value.gates
    ensures OkIn(s, s.proc.value, ApplyCalled(c.runId))
  {
  }

  lemma HoldsAtReboot(s: Sys, c: CycleState)
    requires AtReboot(s, c.runId) && s.cell == Rec(c) && SameBoot(s, c) && Working(s.proc.value, c, c.state)
    ensures Holds(s, c) && Advances(c, c)
  {
  }

  lemma RecoverableFacts(s: Sys, run: string)
    requires Recoverable(s, run)
    ensures s.cell.Rec? && Same(s.cell.cycle.runId, run) && Stored(s, s.cell.cycle) && !s.cell.cycle.state.FAILED?
  {
  }

  /** In the delivery loop: the outcome is settled and durable, and so is every status so far. */
  ghost predicate Notifying(s: Sys, c: CycleState, o: Outcome) {
    && s.past == {}
    && Stored(s, c) && c.state.NOTIFYING? && WellFormed(c) && c.outcome == Some(o) && o == FinalOutcome(c)
    && Working(s.proc.value, c, c.state) && Recoverable(s, c.runId)
  }

  lemma NotifyingFacts(s: Sys, c: CycleState, o: Outcome)
    requires Notifying(s, c, o)
    ensures Stored(s, c) && c.state.NOTIFYING? && WellFormed(c) && c.outcome == Some(o) && o == FinalOutcome(c)
    ensures Working(s.proc.value, c, c.state) && Recoverable(s, c.runId) && s.past == {}
  {
    hide FinalOutcome, WellFormed, Recoverable;
  }

  lemma FailedFacts(c: CycleState, next: CycleState)
    requires Follows(c, next, FAILED)
    ensures next.state.FAILED? && Same(next.runId, c.runId)
  {
  }

  lemma MayDeliver(s: Sys, c: CycleState, n: Name, o: Outcome)
    requires Notifying(s, c, o) && !SentIn(c, n)
    ensures s.proc.Some? && s.proc.value.loaded && s.past == {}
    ensures DeliveryOk(s.cell, s.proc.value.finishing, c.runId, n, o)
  {
    hide FinalOutcome, WellFormed;
  }

  lemma StillNotifying(s: Sys, t: Sys, c: CycleState, o: Outcome)
    requires Notifying(s, c, o) && Abides(s, t)
    ensures Notifying(t, c, o) && Recoverable(t, c.runId)
  {
    hide FinalOutcome, WellFormed, Recoverable;
  }

  lemma NotifiedOne(s: Sys, t: Sys, c: CycleState, next: CycleState, o: Outcome)
    requires Notifying(s, c, o) && Kept(s, t) && Stored(t, next) && Recoverable(t, c.runId)
    requires Stays(c, next) && WellFormed(next) && next.updatesApplied == c.updatesApplied && t.past == {}
    requires next.rebootBeforeUpdates == c.rebootBeforeUpdates
    requires next.outcome == Some(o) && FinalOutcome(next) == o
    ensures Notifying(t, next, o)
  {
    hide FinalOutcome, WellFormed, Recoverable;
  }

  lemma MayDeliverFailure(s: Sys, c: CycleState, n: Name, o: Outcome)
    requires Stored(s, c) && c.state.FAILED? && c.outcome == Some(o) && s.past == {}
    ensures s.proc.Some? && s.proc.value.loaded && s.past == {}
    ensures DeliveryOk(s.cell, s.proc.value.finishing, c.runId, n, o)
  {
    hide FinalOutcome;
  }

  lemma StillStored(s: Sys, t: Sys, c: CycleState)
    requires Stored(s, c) && s.proc.Some? && t.proc.Some? && SameEnv(s, t)
    requires t.proc.value.loaded == s.proc.value.loaded && t.proc.value.entry == s.proc.value.entry
    requires t.proc.value.finishing == s.proc.value.finishing
    ensures Stored(t, c)
  {
  }
}
