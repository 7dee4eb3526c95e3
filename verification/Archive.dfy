/**
 What the durable records say over whole runs: no cycle is lost, corruption is never healed silently,
 the archive tells the truth, and what was reported is what was archived.
 */
module Archive {
  import opened Wrappers
  import opened States
  import opened Records
  import opened Outcomes
  import opened Protocol
  import opened Invariants
  import opened Safety

  /** `c` is on record for run `r`: active or archived, seen now or by whoever comes after a power loss. */
  ghost predicate OnRecord(s: Sys, r: string, c: CycleState) {
    (c.runId == r && Rec(c) in Possible(s)) || exists h: Shelf | h in Shelves(s) :: Shelved(h, r, c)
  }

  predicate Shelved(h: Shelf, r: string, c: CycleState) {
    r in h && h[r] == c
  }

  /** Only a save puts on record what was not: anything else leaves it, or loses it. */
  lemma RecordsStay(s: Sys, e: Event, r: string)
    requires Inv(s) && Ok(s, e)
    ensures forall c | OnRecord(Next(s, e), r, c) :: OnRecord(s, r, c) || (e.Saved? && c == e.cycle && c.runId == r)
    ensures r in s.used ==> r in Next(s, e).used
  {
    NothingNew(s, e);
    ShelvesStay(s, e, r);
    hide Next, Ok, Inv;
    forall c | OnRecord(Next(s, e), r, c)
      ensures OnRecord(s, r, c) || (e.Saved? && c == e.cycle && c.runId == r)
    {
      if c.runId == r && Rec(c) in Possible(Next(s, e)) {
        assert Rec(c) in Possible(s) || (e.Saved? && c == e.cycle);
      }
    }
  }

  lemma ShelvesStay(s: Sys, e: Event, r: string)
    requires Ok(s, e)
    ensures forall h, c | h in Shelves(Next(s, e)) && Shelved(h, r, c) :: OnRecord(s, r, c)
  {
    if e.HistoryPut? {
      PutShelves(s, e, r);
      hide Ok, Next;
    } else {
      ShelvesShrink(s, e);
      hide Ok, Next;
    }
  }

  /** The archive holds the copies it held, but for the one put in, which is of the active record. */
  lemma PutShelves(s: Sys, e: Event, r: string)
    requires Ok(s, e) && e.HistoryPut?
    ensures Same(s.cell, Rec(e.cycle))
    ensures forall h | h in Shelves(Next(s, e)) :: h in Shelves(s) || h == s.history[e.cycle.runId := e.cycle]
  {
    hide SaveOk, DeliveryOk;
  }

  lemma ShelvesShrink(s: Sys, e: Event)
    requires Ok(s, e) && !e.HistoryPut?
    ensures forall h | h in Shelves(Next(s, e)) :: h in Shelves(s) || h == map[]
    ensures !e.Purged? ==> Shelves(Next(s, e)) <= Shelves(s)
  {
    hide OkIn, NextProc;
    if Silent(e) {
      SilentNext(s, e);
      hide Next;
    }
  }

  /** What a process does to the record it finds. */
  lemma SavedFrom(s: Sys, e: Event)
    requires Inv(s) && Ok(s, e) && e.Saved?
    ensures s.cell.Rec? ==>
      e.cycle.runId == s.cell.cycle.runId && EditFacts(s, s.proc.value, s.cell.cycle, e.cycle) && Sound(s.cell.cycle)
    ensures s.cell.Rec? ==> OnRecord(s, e.cycle.runId, s.cell.cycle)
    ensures !s.cell.Rec? ==> e.cycle.runId !in s.used && e.cycle.bootIdAfter.None? && !e.cycle.updatesApplied
  {
    hide Sound, Edit, WellFormed, Arc, DeliveryOk, Anchored, ProcOk, EditFacts, PastOk, ArchiveOk;
    var c := e.cycle;
    if s.cell.Rec? {
      EditKeepsSound(s, s.proc.value, s.cell.cycle, c);
    } else {
      FirstSaveIsSound(NewCycle(c.runId, c.hostname, c.startedAt, c.provider), c);
    }
  }

  // ---------------------------------------------------------- conservation

  /** The runs a reader finds now: active, archived, or among unreadable bytes. */
  function Known(s: Sys): set<string> {
    IdsOf(s.cell) + s.history.Keys
  }

  /** A reader finds the run, now and after any power loss. */
  ghost predicate Secured(s: Sys, r: string) {
    forall x, h | x in Possible(s) && h in Shelves(s) :: r in IdsOf(x) || r in h
  }

  lemma KeptSave(s: Sys, e: Event, r: string)
    requires Inv(s) && Ok(s, e) && e.Saved?
    requires Secured(s, r) || (e.settled && e.cycle.runId == r)
    ensures Secured(Next(s, e), r)
  {
    hide Sound, Edit, WellFormed, Arc, DeliveryOk, ProcOk, Anchored, BootsOk, PastOk, ArchiveOk;
    var t := Next(s, e);
    assert IdsOf(s.cell) <= IdsOf(t.cell);
    assert Shelves(t) == Shelves(s);
    assert s.cell in Possible(s);
  }

  lemma KeptPut(s: Sys, e: Event, r: string)
    requires Ok(s, e) && e.HistoryPut? && Secured(s, r)
    ensures Secured(Next(s, e), r)
  {
    hide SaveOk, DeliveryOk;
    var t := Next(s, e);
    assert Possible(t) == Possible(s);
    assert s.history in Shelves(s);
  }

  lemma KeptStep(s: Sys, e: Event, r: string)
    requires Inv(s) && Ok(s, e) && !e.Purged? && !e.OperatorCleared?
    requires Secured(s, r) || (e.Saved? && e.settled && e.cycle.runId == r)
    ensures Secured(Next(s, e), r)
  {
    if e.Saved? {
      hide Ok, Next, Inv, Secured;
      KeptSave(s, e, r);
    } else if e.HistoryPut? {
      hide OkIn, Next, Inv, Secured;
      KeptPut(s, e, r);
    } else {
      hide Inv;
      KeptElse(s, e, r);
    }
  }

  lemma KeptElse(s: Sys, e: Event, r: string)
    requires Ok(s, e) && !e.Purged? && !e.OperatorCleared? && !e.Saved? && !e.HistoryPut? && Secured(s, r)
    ensures Secured(Next(s, e), r)
  {
    hide SaveOk, DeliveryOk, NextProc;
    assert s.cell in Possible(s) && s.history in Shelves(s);
    if Silent(e) {
      SilentNext(s, e);
      hide Next, OkIn;
    } else if e.ActiveRemoved? {
      assert Shelves(s) == {s.history};
    } else {
      hide OkIn;
    }
  }

  /**
   A run whose save returned is found by every reader ever after, active, archived, or among bytes set aside,
   across any crash; only a purge, or an operator clearing the bytes away, can lose it.
   */
  lemma {:induction false} CyclesAreConserved(s0: Sys, log: seq<Event>, i: nat, j: nat, r: string)
    requires Legal(s0, log) && i < j <= |log|
    requires log[i].Saved? && log[i].settled && log[i].cycle.runId == r
    requires forall m | i < m < j :: !log[m].Purged? && !log[m].OperatorCleared?
    ensures Secured(At(s0, log, j), r) && r in Known(At(s0, log, j))
    decreases j
  {
    hide Inv, Ok, Next, Start, Secured;
    if i + 1 < j {
      CyclesAreConserved(s0, log, i, j - 1, r);
    }
    Reachable(s0, log, j - 1);
    KeptStep(At(s0, log, j - 1), log[j - 1], r);
    KeptIsKnown(At(s0, log, j), r);
  }

  lemma KeptIsKnown(s: Sys, r: string)
    requires Secured(s, r)
    ensures r in Known(s)
  {
    assert s.cell in Possible(s) && s.history in Shelves(s);
  }

  /** The run was used, and no reader finds it. */
  predicate Forgotten(s: Sys, r: string) {
    r in s.used && r !in Known(s)
  }

  lemma ForgottenStep(s: Sys, e: Event, r: string)
    requires Inv(s) && Ok(s, e) && !e.Booted? && Forgotten(s, r)
    ensures Forgotten(Next(s, e), r)
  {
    hide CellOk, PastOk, Edit, WellFormed, Arc, DeliveryOk, ProcOk, BootsOk, NextProc, ArchiveOk;
    if IsNote(e) {
      NoteNext(s, e);
      hide Next, OkIn, Inv;
    }
  }

  /** After a purge no process brings any earlier run back; only a power loss could, undoing the removal. */
  lemma {:induction false} PurgeForgets(s0: Sys, log: seq<Event>, i: nat, j: nat, r: string)
    requires Legal(s0, log) && i < j <= |log| && log[i] == Purged && r in At(s0, log, i).used
    requires forall m | i < m < j :: !log[m].Booted?
    ensures r !in Known(At(s0, log, j))
    ensures Forgotten(At(s0, log, j), r)
    decreases j
  {
    hide Inv, Ok, Next, Start, Forgotten;
    Reachable(s0, log, j - 1);
    if i + 1 < j {
      PurgeForgets(s0, log, i, j - 1, r);
      ForgottenStep(At(s0, log, j - 1), log[j - 1], r);
    } else {
      PurgedIsForgotten(At(s0, log, i), r);
    }
    ForgottenMeans(At(s0, log, j), r);
  }

  lemma ForgottenMeans(s: Sys, r: string)
    requires Forgotten(s, r)
    ensures r !in Known(s)
  {
  }

  lemma PurgedIsForgotten(s: Sys, r: string)
    requires Ok(s, Purged) && r in s.used
    ensures Forgotten(Next(s, Purged), r)
  {
  }

  // ------------------------------------------------- what is archived for good

  /**
   `a` is the archive copy of `r`, whatever happens, and no other record of `r` is left that could be worked on:
   none that may come back, and none a process is still finishing.
   */
  ghost predicate ArchivedForGood(s: Sys, r: string, a: CycleState) {
    && (forall h: Shelf | h in Shelves(s) :: Shelved(h, r, a))
    && (forall x | x in Possible(s) :: IsRecordOf(x, r) ==> x == Rec(a))
    && !Finishing(s, r)
  }

  predicate Finishing(s: Sys, r: string) {
    IsActive(s, r) && s.proc.Some? && s.proc.value.finishing
  }

  lemma ForGoodSave(s: Sys, e: Event, r: string, a: CycleState)
    requires Inv(s) && Ok(s, e) && e.Saved? && ArchivedForGood(s, r, a)
    ensures ArchivedForGood(Next(s, e), r, a)
  {
    hide Sound, Edit, WellFormed, Arc, DeliveryOk, ProcOk, Anchored, BootsOk, PastOk;
    assert s.history in Shelves(s) && s.cell in Possible(s);
    assert ShelfOk(s, s.history);
    assert e.cycle.runId != r;
    hide ArchiveOk, ShelfOk, SaveOk;
    NothingNew(s, e);
    assert Shelves(Next(s, e)) == Shelves(s);
    assert !IsActive(Next(s, e), r);
  }

  lemma ForGoodElse(s: Sys, e: Event, r: string, a: CycleState)
    requires Inv(s) && Ok(s, e) && !e.Saved? && !e.Purged? && ArchivedForGood(s, r, a)
    ensures ArchivedForGood(Next(s, e), r, a)
  {
    hide Inv, Ok, Next, Finishing, Possible, Shelved;
    NothingNew(s, e);
    StillFinishing(s, e, r);
    assert s.history in Shelves(s) && s.cell in Possible(s) by {
      ItselfPossible(s);
    }
    if e.HistoryPut? {
      PutShelves(s, e, r);
      SamePut(s, e.cycle, r, a);
    } else {
      ShelvesShrink(s, e);
    }
    hide Shelves;
  }

  lemma ItselfPossible(s: Sys)
    ensures s.history in Shelves(s) && s.cell in Possible(s)
  {
  }

  /** The record of `r` that is put in the archive is the one that is there. */
  lemma SamePut(s: Sys, c: CycleState, r: string, a: CycleState)
    requires Same(s.cell, Rec(c)) && (IsRecordOf(s.cell, r) ==> s.cell == Rec(a)) && Shelved(s.history, r, a)
    ensures Shelved(s.history[c.runId := c], r, a)
  {
  }

  lemma StillFinishing(s: Sys, e: Event, r: string)
    requires Ok(s, e) && !e.Saved?
    ensures Finishing(Next(s, e), r) ==> Finishing(s, r)
  {
    if Finishing(Next(s, e), r) {
      if IsNote(e) {
        NoteNext(s, e);
        NoteFlags(s.proc.value, e);
      } else if s.proc.Some? {
        NothingGained(s, e);
      } else {
        NobodyGained(s, e);
      }
    }
    hide Ok, Next, NextProc;
  }

  /** What is archived for good never changes: archiving again after a crash is idempotent. */
  lemma {:induction false} ArchiveIsImmutable(s0: Sys, log: seq<Event>, i: nat, j: nat, r: string, a: CycleState)
    requires Legal(s0, log) && i <= j <= |log| && ArchivedForGood(At(s0, log, i), r, a)
    requires forall m | i <= m < j :: !log[m].Purged?
    ensures ArchivedForGood(At(s0, log, j), r, a) && Shelved(At(s0, log, j).history, r, a)
    decreases j
  {
    hide Inv, Ok, Next, Start, ArchivedForGood, Shelved;
    if i < j {
      ArchiveIsImmutable(s0, log, i, j - 1, r, a);
      Reachable(s0, log, j - 1);
      var s, e := At(s0, log, j - 1), log[j - 1];
      if e.Saved? {
        ForGoodSave(s, e, r, a);
      } else {
        ForGoodElse(s, e, r, a);
      }
    }
    ForGoodMeans(At(s0, log, j), r, a);
  }

  lemma ForGoodMeans(s: Sys, r: string, a: CycleState)
    requires ArchivedForGood(s, r, a)
    ensures Shelved(s.history, r, a)
  {
    assert s.history in Shelves(s);
  }

  /** An archiving that returned has archived the cycle for good. */
  lemma ReturnedArchiveIsForGood(s: Sys)
    requires Ok(s, ActiveRemoved(true))
    ensures ArchivedForGood(Next(s, ActiveRemoved(true)), s.cell.cycle.runId, s.cell.cycle)
  {
    hide SaveOk, DeliveryOk;
    assert Shelves(Next(s, ActiveRemoved(true))) == {s.history};
  }

  /** A new cycle's first save finds the store empty: it never overwrites an unarchived cycle. */
  lemma FirstSaveOverwritesNothing(s0: Sys, log: seq<Event>, k: nat)
    requires Legal(s0, log) && k < |log| && log[k].Saved?
    requires log[k].cycle.runId !in At(s0, log, k).used
    ensures At(s0, log, k).cell == Empty
  {
    Reachable(s0, log, k);
    hide Sound, Edit, WellFormed, Arc, ArchiveOk, PastOk;
  }

  /** Every record there is of the run, or may be again, has ended. */
  ghost predicate Over(s: Sys, r: string) {
    r in s.used && forall c | OnRecord(s, r, c) :: Terminal(c.state)
  }

  lemma EndedStep(s: Sys, e: Event, r: string)
    requires Inv(s) && Ok(s, e) && Over(s, r)
    ensures Over(Next(s, e), r)
  {
    RecordsStay(s, e, r);
    if e.Saved? {
      SavedFrom(s, e);
      hide BootFacts, ReportFacts, Doomed;
    }
    hide Inv, Ok, Next, OnRecord, Sound;
  }

  /** A cycle that has ended is never resumed. */
  lemma {:induction false} EndedIsFinal(s0: Sys, log: seq<Event>, i: nat, j: nat, r: string)
    requires Legal(s0, log) && i <= j <= |log| && Over(At(s0, log, i), r)
    ensures Over(At(s0, log, j), r)
    decreases j
  {
    hide Inv, Ok, Next, Start, Over;
    if i < j {
      EndedIsFinal(s0, log, i, j - 1, r);
      Reachable(s0, log, j - 1);
      EndedStep(At(s0, log, j - 1), log[j - 1], r);
    }
  }

  // ------------------------------------------------------------ corruption

  /** However the state directory comes back, a load refuses it. */
  ghost predicate Refused(s: Sys) {
    forall x | x in Possible(s) :: x.Unreadable()
  }

  /** Events that change a machine or a durable maintenance fact. */
  predicate Acts(e: Event) {
    e.Saved? || e.HistoryPut? || e.Purged? || e.UnitSet? || e.ApplyCalled? || e.RepairCalled? || e.RebootCalled?
    || e.Delivered?
  }

  /** Over unreadable bytes nothing is loaded or done. */
  lemma RefusedActs(s: Sys, e: Event)
    requires Inv(s) && Ok(s, e) && s.cell.Unreadable()
    ensures !Acts(e) && !e.Loaded?
  {
    hide CellOk, PastOk, ArchiveOk, BootsOk, Edit, WellFormed, FinalOutcome;
  }

  lemma RefusedStep(s: Sys, e: Event)
    requires Inv(s) && Ok(s, e) && Refused(s) && !e.OperatorCleared?
    ensures Refused(Next(s, e)) && !Acts(e) && !e.Loaded?
  {
    assert s.cell in Possible(s);
    RefusedActs(s, e);
    hide Inv, Ok, Next;
  }

  /** Refusal is sticky: unreadable bytes, or their quarantine, stop every process until an operator acts. */
  lemma {:induction false} CorruptionIsRefused(s0: Sys, log: seq<Event>, i: nat, j: nat)
    requires Legal(s0, log) && i <= j < |log| && Refused(At(s0, log, i))
    requires forall m | i <= m <= j :: !log[m].OperatorCleared?
    ensures Refused(At(s0, log, j)) && !Acts(log[j]) && !log[j].Loaded?
    decreases j
  {
    hide Inv, Ok, Next, Start, Refused, Acts;
    if i < j {
      CorruptionIsRefused(s0, log, i, j - 1);
      Reachable(s0, log, j - 1);
      RefusedStep(At(s0, log, j - 1), log[j - 1]);
    }
    Reachable(s0, log, j);
    RefusedStep(At(s0, log, j), log[j]);
  }

  lemma NewerStep(s: Sys, e: Event, lost: set<string>)
    requires Inv(s) && Ok(s, e) && !e.OperatorCleared? && !e.Tampered? && Possible(s) == {Newer(lost)}
    ensures Possible(Next(s, e)) == {Newer(lost)} && Shelves(Next(s, e)) <= Shelves(s) && !Acts(e) && !e.Loaded?
  {
    assert s.cell in Possible(s);
    RefusedActs(s, e);
    ShelvesShrink(s, e);
    hide Inv, Ok, Next, Possible, Shelves;
  }

  /** A record of a newer schema is refused without any mutation, quarantine included. */
  lemma {:induction false} NewerSchemaIsUntouched(s0: Sys, log: seq<Event>, i: nat, j: nat, lost: set<string>)
    requires Legal(s0, log) && i <= j < |log| && Possible(At(s0, log, i)) == {Newer(lost)}
    requires forall m | i <= m <= j :: !log[m].OperatorCleared? && !log[m].Tampered?
    ensures Possible(At(s0, log, j)) == {Newer(lost)} && Shelves(At(s0, log, j)) <= Shelves(At(s0, log, i))
    ensures !Acts(log[j]) && !log[j].Loaded?
    decreases j
  {
    hide Inv, Ok, Next, Start, Acts, Possible, Shelves;
    if i < j {
      NewerSchemaIsUntouched(s0, log, i, j - 1, lost);
      Reachable(s0, log, j - 1);
      NewerStep(At(s0, log, j - 1), log[j - 1], lost);
    }
    Reachable(s0, log, j);
    NewerStep(At(s0, log, j), log[j], lost);
  }

  // --------------------------------------------------------- truthful archive

  /** Some apply of this run returned success before position `k`. */
  ghost predicate ApplySucceeded(log: seq<Event>, k: nat, r: string)
    requires k <= |log|
  {
    exists a :: 0 <= a < k && log[a].ApplyReturned? && log[a].run == r && log[a].result.ok
  }

  /** A recorded success, or one the process has yet to record. */
  ghost predicate ClaimsApply(s: Sys, r: string) {
    (exists c | OnRecord(s, r, c) :: c.updatesApplied) || HeldSuccess(s, r)
  }

  predicate HeldSuccess(s: Sys, r: string) {
    IsActive(s, r) && s.proc.Some? && s.proc.value.applied.Some? && s.proc.value.applied.value.ok
  }

  lemma HeldStep(s: Sys, e: Event, r: string)
    requires Inv(s) && Ok(s, e) && HeldSuccess(Next(s, e), r)
    ensures HeldSuccess(s, r) || (e.ApplyReturned? && e.run == r && e.result.ok)
  {
    hide CellOk, PastOk, ArchiveOk, DeliveryOk, Edit, WellFormed;
    if IsNote(e) {
      NoteNext(s, e);
      NoteApplied(s.proc.value, e);
      hide Next, NextProc, Inv;
      if !e.ApplyReturned? {
        hide OkIn;
      }
    }
  }

  lemma ClaimStep(s: Sys, e: Event, r: string)
    requires Inv(s) && Ok(s, e) && ClaimsApply(Next(s, e), r)
    ensures ClaimsApply(s, r) || (e.ApplyReturned? && e.run == r && e.result.ok)
  {
    if HeldSuccess(Next(s, e), r) {
      HeldStep(s, e, r);
      hide Inv, Ok, Next, OnRecord, HeldSuccess;
    } else {
      RecordsStay(s, e, r);
      if e.Saved? {
        SavedFrom(s, e);
        hide BootFacts, ReportFacts, Doomed;
      }
      hide Inv, Ok, Next, OnRecord, Sound;
    }
  }

  lemma {:induction false} ClaimsHaveCauses(s0: Sys, log: seq<Event>, k: nat, r: string)
    requires Legal(s0, log) && k <= |log| && ClaimsApply(At(s0, log, k), r)
    ensures ApplySucceeded(log, k, r)
  {
    hide Inv, Ok, Next, ClaimsApply;
    if k == 0 {
      NoClaimAtStart(s0, r);
    } else {
      Reachable(s0, log, k - 1);
      ClaimStep(At(s0, log, k - 1), log[k - 1], r);
      if ClaimsApply(At(s0, log, k - 1), r) {
        ClaimsHaveCauses(s0, log, k - 1, r);
      }
    }
  }

  lemma NoClaimAtStart(s0: Sys, r: string)
    requires Start(s0)
    ensures !ClaimsApply(s0, r)
  {
  }

  predicate CompletedIn(s: Sys, r: string) {
    r in s.history && s.history[r].state.COMPLETED?
  }

  /** What a record archived as COMPLETED claims. */
  ghost predicate Truthful(c: CycleState) {
    && c.verifyPassed == Some(true) && c.outstandingUpdates == Some(0) && c.outcome == Some(FinalOutcome(c))
    && (c.outcome == Some(OutcomeFailed) <==> CriticalFailure(c.healthResults))
    && (c.outcome == Some(ManualRebootRequired) ==> c.rebootRequired || c.preExistingReboot)
    && (AllDone(c.outcome) || c.outcome == Some(OutcomeFailed) || c.outcome == Some(ManualRebootRequired))
    && (AllDone(c.outcome) ==>
          && (c.outcome == Some(SuccessWithWarnings) <==> c.warnings != [] || !AllHealthy(c.healthResults))
          && (c.outcome == Some(NoUpdates) <==>
                c.warnings == [] && AllHealthy(c.healthResults) && !c.updatesApplied && c.packagesPending == 0)
          && (c.updatesApplied || c.packagesPending == 0))
    && (AllDone(c.outcome) && c.rebootRequired ==> RebootProved(c))
  }

  lemma CompletedMeans(c: CycleState)
    requires Sound(c) && c.state.COMPLETED?
    ensures Truthful(c)
  {
    hide WellFormed, TrailOk, PhaseOk, AllHealthy;
  }

  lemma CompletedIsTruthful(s0: Sys, log: seq<Event>, k: nat, r: string)
    requires Legal(s0, log) && k <= |log| && CompletedIn(At(s0, log, k), r)
    ensures Truthful(At(s0, log, k).history[r])
  {
    hide Legal, At, Sound, Truthful;
    ArchivedIsSound(s0, log, k, r);
    CompletedMeans(At(s0, log, k).history[r]);
  }

  lemma ArchivedIsSound(s0: Sys, log: seq<Event>, k: nat, r: string)
    requires Legal(s0, log) && k <= |log| && r in At(s0, log, k).history
    ensures Sound(At(s0, log, k).history[r])
  {
    Reachable(s0, log, k);
    hide Sound, Anchored, ProcOk, PastOk, CellOk;
    assert ShelfOk(At(s0, log, k), At(s0, log, k).history);
  }

  /** A COMPLETED archive record tells the truth; success took an apply of this run that returned ok. */
  lemma CompletionIsTruthful(s0: Sys, log: seq<Event>, k: nat, r: string)
    requires Legal(s0, log) && k <= |log| && CompletedIn(At(s0, log, k), r)
    ensures var c := At(s0, log, k).history[r];
      Truthful(c) && (c.outcome == Some(OutcomeSuccess) ==> ApplySucceeded(log, k, r))
  {
    hide Legal, At, AllHealthy, FinalOutcome, Inv, ApplySucceeded;
    var s := At(s0, log, k);
    CompletedIsTruthful(s0, log, k, r);
    if s.history[r].updatesApplied {
      ArchivedClaims(s, r);
      ClaimsHaveCauses(s0, log, k, r);
    }
  }

  lemma ArchivedClaims(s: Sys, r: string)
    requires r in s.history && s.history[r].updatesApplied
    ensures ClaimsApply(s, r)
  {
    var c := s.history[r];
    assert s.history in Shelves(s) && Shelved(s.history, r, c);
    assert OnRecord(s, r, c);
  }

  /** A required reboot is never silently skipped. */
  lemma RequiredRebootHappened(s0: Sys, log: seq<Event>, k: nat, r: string)
    requires Legal(s0, log) && k <= |log| && CompletedIn(At(s0, log, k), r)
    requires var c := At(s0, log, k).history[r]; c.rebootRequired && AllDone(c.outcome)
    ensures RebootProved(At(s0, log, k).history[r])
  {
    hide Legal, At, FinalOutcome, AllHealthy, RebootProved;
    CompletedIsTruthful(s0, log, k, r);
  }

  /** Every durable record's audit trail is a legal walk from IDLE, active or archived. */
  lemma TrailsAreWalks(s0: Sys, log: seq<Event>, k: nat, r: string, c: CycleState)
    requires Legal(s0, log) && k <= |log| && OnRecord(At(s0, log, k), r, c)
    ensures TrailOk(c)
  {
    Reachable(s0, log, k);
    hide TrailOk, WellFormed, PhaseOk, TruthOk, BootsOk, ProcOk, Anchored;
    var s := At(s0, log, k);
    if h :| h in Shelves(s) && Shelved(h, r, c) {
      assert ShelfOk(s, h);
    } else {
      assert CellOk(s, Rec(c));
    }
  }

  // ------------------------------------------- what may come back agrees

  /** The record is on course to be archived with outcome `o`, or it failed. */
  predicate CommittedTo(c: CycleState, o: Outcome) {
    || c.state.FAILED?
    || ((c.state.NOTIFYING? || c.state.COMPLETED?) && c.outcome == Some(o) && FinalOutcome(c) == o)
  }

  /** Under a completed cycle only records may come back that report what it reports. */
  ghost predicate PastAgrees(s: Sys) {
    s.cell.Rec? && s.cell.cycle.state.COMPLETED? ==>
      forall x | x in s.past && IsRecordOf(x, s.cell.cycle.runId) :: CommittedTo(x.cycle, FinalOutcome(s.cell.cycle))
  }

  /** ... and so it is with what is archived as completed. */
  ghost predicate ShelvesAgree(s: Sys) {
    forall h: Shelf, r: string, x |
      h in Shelves(s) && r in h && h[r].state.COMPLETED? && x in Possible(s) && IsRecordOf(x, r) ::
      CommittedTo(x.cycle, FinalOutcome(h[r]))
  }

  /** Under a cycle at CHECKING_REBOOT no record with a proof of reboot may come back. */
  ghost predicate CheckIsClean(s: Sys) {
    s.cell.Rec? && s.cell.cycle.state.CHECKING_REBOOT? ==>
      forall x | x in s.past && IsRecordOf(x, s.cell.cycle.runId) :: x.cycle.bootIdAfter.None?
  }

  ghost predicate Agreed(s: Sys) {
    PastAgrees(s) && ShelvesAgree(s) && CheckIsClean(s)
  }

  /** How records in the last states follow one another. */
  lemma LateSave(s: Sys, e: Event)
    requires Inv(s) && Ok(s, e) && e.Saved? && s.cell.Rec?
    ensures var d, c := s.cell.cycle, e.cycle;
      && (d.state.FAILED? ==> c.state.FAILED?)
      && (c.state.COMPLETED? ==> CommittedTo(d, FinalOutcome(c)) && (d.state.COMPLETED? || s.past == {}))
      && (c.state.CHECKING_REBOOT? ==> d.bootIdAfter.None? && s.past == {})
      && (forall o :: CommittedTo(d, o) ==> CommittedTo(c, o))
  {
    SavedFrom(s, e);
    LateEdit(s, s.proc.value, s.cell.cycle, e.cycle) by {
      hide Edit, WellFormed, Inv, EditFacts, Sound;
    }
    hide Inv, Ok, FinalOutcome, BootFacts, WorkFacts;
  }

  lemma LateEdit(s: Sys, p: Proc, d: CycleState, c: CycleState)
    requires Edit(s, p, d, c)
    ensures c.state.COMPLETED? ==>
      d.state.COMPLETED? || (s.past == {} && d.state.NOTIFYING? && d.outcome == Some(FinalOutcome(d)))
    ensures c.state.CHECKING_REBOOT? ==> s.past == {} && (d.state.DISCOVERING_UPDATES? || d.state.UPGRADING?)
  {
    hide FinalOutcome, Doomed, StateName, Pending;
  }

  lemma PastAgreesSave(s: Sys, e: Event)
    requires Inv(s) && Ok(s, e) && e.Saved? && Agreed(s)
    ensures PastAgrees(Next(s, e)) && CheckIsClean(Next(s, e))
  {
    SavedCell(s, e);
    if s.cell.Rec? {
      LateSave(s, e);
      SavedFrom(s, e);
      hide BootFacts, WorkFacts;
    } else {
      FirstSaveIsEarly(s, e);
    }
    hide Inv, Ok, Next, FinalOutcome, Sound;
  }

  lemma FirstSaveIsEarly(s: Sys, e: Event)
    requires Ok(s, e) && e.Saved? && !s.cell.Rec?
    ensures e.cycle.state.PRECHECK? && e.cycle.runId !in s.used
  {
    hide Edit, WellFormed, Arc;
  }

  lemma ShelvesAgreeSave(s: Sys, e: Event)
    requires Inv(s) && Ok(s, e) && e.Saved? && Agreed(s)
    ensures ShelvesAgree(Next(s, e))
  {
    SavedCell(s, e);
    NothingNew(s, e);
    SavedShelves(s, e);
    if s.cell.Rec? {
      LateSave(s, e);
      SavedFrom(s, e);
      hide BootFacts, WorkFacts, ReportFacts;
    } else {
      FirstSaveIsEarly(s, e);
      assert forall h: Shelf, r: string | h in Shelves(s) && r in h :: r in s.used;
    }
    hide Inv, Ok, Next, FinalOutcome, Sound;
    assert s.cell in Possible(s);
    var t := Next(s, e);
    forall h: Shelf, r: string, x |
      h in Shelves(t) && r in h && h[r].state.COMPLETED? && x in Possible(t) && IsRecordOf(x, r)
      ensures CommittedTo(x.cycle, FinalOutcome(h[r]))
    {
      if x !in Possible(s) {
        assert CommittedTo(s.cell.cycle, FinalOutcome(h[r]));
      }
    }
  }

  lemma SavedShelves(s: Sys, e: Event)
    requires s.proc.Some? && e.Saved?
    ensures Shelves(Next(s, e)) == Shelves(s)
  {
  }

  lemma AgreedPut(s: Sys, e: Event)
    requires Inv(s) && Ok(s, e) && e.HistoryPut? && Agreed(s)
    ensures Agreed(Next(s, e))
  {
    hide ArchiveOk, PastOk, BootsOk, ProcOk, WellFormed, TrailOk, PhaseOk, FinalOutcome, SaveOk, DeliveryOk;
    var t, c := Next(s, e), e.cycle;
    assert s.cell == Rec(c) && Possible(t) == Possible(s) && t.cell == s.cell && t.past == s.past;
    assert c.state.COMPLETED? ==> CommittedTo(c, FinalOutcome(c));
    hide Inv, Ok;
    assert s.history in Shelves(s);
    assert forall h: Shelf | h in Shelves(t) :: h in Shelves(s) || h == s.history[c.runId := c];
    hide Next, CommittedTo;
  }

  lemma AgreedElse(s: Sys, e: Event)
    requires Ok(s, e) && !e.Saved? && !e.HistoryPut? && Agreed(s)
    ensures Agreed(Next(s, e))
  {
    hide CommittedTo, FinalOutcome;
    NothingNew(s, e);
    CellMoves(s, e);
    ShelvesShrink(s, e);
    hide Ok, Next;
  }

  lemma AgreedStep(s: Sys, e: Event)
    requires Inv(s) && Ok(s, e) && Agreed(s)
    ensures Agreed(Next(s, e))
  {
    hide Inv, Ok, Next, PastAgrees, ShelvesAgree, CheckIsClean;
    if e.Saved? {
      PastAgreesSave(s, e);
      ShelvesAgreeSave(s, e);
    } else if e.HistoryPut? {
      hide Agreed;
      AgreedPut(s, e);
    } else {
      hide Agreed;
      AgreedElse(s, e);
    }
  }

  lemma {:induction false} AgreedEver(s0: Sys, log: seq<Event>, k: nat)
    requires Legal(s0, log) && k <= |log|
    ensures Agreed(At(s0, log, k))
  {
    hide Inv, Ok, Next, Agreed;
    if k > 0 {
      AgreedEver(s0, log, k - 1);
      Reachable(s0, log, k - 1);
      AgreedStep(At(s0, log, k - 1), log[k - 1]);
    } else {
      NothingToAgree(s0);
    }
  }

  lemma NothingToAgree(s0: Sys)
    requires Start(s0)
    ensures Agreed(s0)
  {
  }

  // ------------------------------------------------------- proof of reboot

  /** The boot identity that proves a reboot was recorded at POST_REBOOT, on the boot it names. */
  ghost predicate ProofRecorded(s0: Sys, log: seq<Event>, i: nat, k: nat, r: string, id: string)
    requires k <= |log|
  {
    exists a :: i <= a < k && log[a].Saved? && log[a].cycle.runId == r && log[a].cycle.state.POST_REBOOT?
             && log[a].cycle.bootIdAfter == Some(id) && Current(At(s0, log, a)) == id
  }

  /** `c` is a record of `r` that is active, or may come back as such, or one archived as completed. */
  ghost predicate Counts(s: Sys, r: string, c: CycleState) {
    || (c.runId == r && Rec(c) in Possible(s))
    || (c.state.COMPLETED? && exists h: Shelf | h in Shelves(s) :: Shelved(h, r, c))
  }

  /** Some such record of `r` has `id` as its proof of reboot. */
  ghost predicate Bears(s: Sys, r: string, id: string) {
    exists c | Counts(s, r, c) :: c.bootIdAfter == Some(id)
  }

  lemma CountsStay(s: Sys, e: Event, r: string)
    requires Inv(s) && Ok(s, e)
    ensures forall c | Counts(Next(s, e), r, c) :: Counts(s, r, c) || (e.Saved? && c == e.cycle && c.runId == r)
  {
    NothingNew(s, e);
    ShelvesStay(s, e, r);
    hide Next, Ok, Inv, Shelves;
  }

  lemma BearsStep(s: Sys, e: Event, r: string, id: string)
    requires Inv(s) && Ok(s, e) && Bears(Next(s, e), r, id)
    ensures || Bears(s, r, id)
            || (e.Saved? && e.cycle.runId == r && e.cycle.state.POST_REBOOT? && e.cycle.bootIdAfter == Some(id)
                && Current(s) == id)
  {
    CountsStay(s, e, r);
    if e.Saved? {
      SavedFrom(s, e);
      assert s.cell in Possible(s);
      hide WorkFacts, ReportFacts;
    }
    hide Inv, Ok, Next, OnRecord, Sound, KernelAsExpected, Possible, Shelves;
  }

  /** At CHECKING_REBOOT nothing that counts proves a reboot yet. */
  lemma NoProofYet(s: Sys, r: string, id: string)
    requires Inv(s) && Agreed(s) && OnCycle(s, r, CHECKING_REBOOT)
    ensures !Bears(s, r, id)
  {
    hide WellFormed, TrailOk, TruthOk, ArchiveOk, ProcOk, PastOk, Anchored, BootsOk, FinalOutcome;
    assert s.cell in Possible(s) && IsRecordOf(s.cell, r);
    forall c | Counts(s, r, c) ensures c.bootIdAfter != Some(id) {
      if h :| h in Shelves(s) && Shelved(h, r, c) && c.state.COMPLETED? {
        assert false;
      }
    }
  }

  lemma {:induction false} ProofIsTraced(s0: Sys, log: seq<Event>, i: nat, k: nat, r: string, id: string)
    requires Legal(s0, log) && i <= k <= |log|
    requires OnCycle(At(s0, log, i), r, CHECKING_REBOOT) && Bears(At(s0, log, k), r, id)
    ensures ProofRecorded(s0, log, i, k, r, id)
    decreases k
  {
    hide Inv, Ok, Next, Start, Bears, OnCycle, Current, Agreed;
    if i == k {
      Reachable(s0, log, i);
      AgreedEver(s0, log, i);
      NoProofYet(At(s0, log, i), r, id);
    } else {
      Reachable(s0, log, k - 1);
      BearsStep(At(s0, log, k - 1), log[k - 1], r, id);
      if Bears(At(s0, log, k - 1), r, id) {
        ProofIsTraced(s0, log, i, k - 1, r, id);
        var a :| i <= a < k - 1 && log[a].Saved? && log[a].cycle.runId == r && log[a].cycle.state.POST_REBOOT?
                 && log[a].cycle.bootIdAfter == Some(id) && Current(At(s0, log, a)) == id;
      }
    }
  }

  /**
   The proof of reboot of a cycle archived as completed was recorded after the run last stood at CHECKING_REBOOT,
   on the boot it names. Where a reboot was required and the cycle ended as done there is such a proof, and it
   names another boot than the one the cycle began on.
   */
  lemma ProofIsNewer(s0: Sys, log: seq<Event>, i: nat, k: nat, r: string)
    requires Legal(s0, log) && i <= k <= |log|
    requires OnCycle(At(s0, log, i), r, CHECKING_REBOOT) && CompletedIn(At(s0, log, k), r)
    ensures var c := At(s0, log, k).history[r];
      && (forall id | c.bootIdAfter == Some(id) :: ProofRecorded(s0, log, i, k, r, id))
      && (c.rebootRequired && AllDone(c.outcome) ==>
            RebootProved(c) && ProofRecorded(s0, log, i, k, r, c.bootIdAfter.value))
  {
    hide Legal, At, ProofRecorded, OnCycle, FinalOutcome;
    var s := At(s0, log, k);
    var c := s.history[r];
    if c.bootIdAfter.Some? {
      assert s.history in Shelves(s) && Shelved(s.history, r, c);
      assert Counts(s, r, c);
      ProofIsTraced(s0, log, i, k, r, c.bootIdAfter.value);
    }
    if c.rebootRequired && AllDone(c.outcome) {
      RequiredRebootHappened(s0, log, k, r);
    }
  }

  // -------------------------------------------------- reports and deliveries

  /** Every record of the run is on course to archive the outcome it reported, or has failed since. */
  ghost predicate Committed(s: Sys, r: string, o: Outcome) {
    r in s.used && forall c | OnRecord(s, r, c) :: CommittedTo(c, o)
  }

  lemma CommittedStep(s: Sys, e: Event, r: string, o: Outcome)
    requires Inv(s) && Ok(s, e) && Committed(s, r, o)
    ensures Committed(Next(s, e), r, o)
  {
    RecordsStay(s, e, r);
    if e.Saved? {
      SavedFrom(s, e);
      if s.cell.Rec? {
        LateSave(s, e);
      }
      hide BootFacts, ReportFacts, WorkFacts;
    }
    hide Inv, Ok, Next, OnRecord, Sound, CommittedTo;
  }

  lemma DeliveryFinds(s: Sys, e: Event, r: string, n: Name, o: Outcome)
    requires Ok(s, e) && Tells(e, r, n, o) && OnCycle(s, r, NOTIFYING)
    ensures s.past == {} && CommittedTo(s.cell.cycle, o)
  {
    hide FinalOutcome, SaveOk;
  }

  lemma ShelfCommits(s: Sys, r: string, o: Outcome, h: Shelf)
    requires Inv(s) && ShelvesAgree(s) && OnCycle(s, r, NOTIFYING) && CommittedTo(s.cell.cycle, o)
    requires h in Shelves(s) && r in h
    ensures CommittedTo(h[r], o)
  {
    hide CellOk, PastOk, ProcOk, BootsOk, WellFormed, TrailOk, PhaseOk, FinalOutcome;
    assert ShelfOk(s, h);
    assert s.cell in Possible(s) && IsRecordOf(s.cell, r);
    hide Inv;
    assert h[r].state.COMPLETED? ==> CommittedTo(s.cell.cycle, FinalOutcome(h[r]));
  }

  lemma DeliveryCommits(s: Sys, e: Event, r: string, n: Name, o: Outcome)
    requires Inv(s) && Agreed(s) && Ok(s, e) && Tells(e, r, n, o) && OnCycle(s, r, NOTIFYING)
    ensures Committed(s, r, o)
  {
    DeliveryFinds(s, e, r, n, o);
    assert r in s.used by {
      hide PastOk, ProcOk, BootsOk, Sound, ArchiveOk;
    }
    hide Inv, Ok, CommittedTo, ShelvesAgree, PastAgrees, CheckIsClean;
    forall c | OnRecord(s, r, c) ensures CommittedTo(c, o) {
      if h :| h in Shelves(s) && Shelved(h, r, c) {
        ShelfCommits(s, r, o, h);
      } else {
        assert Rec(c) == s.cell;
      }
    }
  }

  lemma CommittedArchive(s: Sys, r: string, o: Outcome)
    requires Committed(s, r, o) && CompletedIn(s, r)
    ensures s.history[r].outcome == Some(o)
  {
    hide FinalOutcome;
    assert s.history in Shelves(s) && Shelved(s.history, r, s.history[r]);
    assert OnRecord(s, r, s.history[r]);
  }

  lemma {:induction false} StaysCommitted(s0: Sys, log: seq<Event>, i: nat, j: nat, r: string, n: Name, o: Outcome)
    requires Legal(s0, log) && i < j <= |log| && Tells(log[i], r, n, o)
    requires OnCycle(At(s0, log, i), r, NOTIFYING)
    ensures Committed(At(s0, log, j), r, o)
    decreases j
  {
    hide Inv, Ok, Next, Start, Committed, OnCycle, Agreed;
    Reachable(s0, log, j - 1);
    if i + 1 < j {
      StaysCommitted(s0, log, i, j - 1, r, n, o);
    } else {
      AgreedEver(s0, log, i);
      DeliveryCommits(At(s0, log, i), log[i], r, n, o);
    }
    CommittedStep(At(s0, log, j - 1), log[j - 1], r, o);
  }

  /** Every report delivered from NOTIFYING, across any crashes there, carried the outcome archived as COMPLETED. */
  lemma ReportsMatchArchive(s0: Sys, log: seq<Event>, i: nat, j: nat, r: string, n: Name, o: Outcome)
    requires Legal(s0, log) && i < j <= |log| && Tells(log[i], r, n, o)
    requires OnCycle(At(s0, log, i), r, NOTIFYING) && CompletedIn(At(s0, log, j), r)
    ensures At(s0, log, j).history[r].outcome == Some(o)
  {
    hide Inv, Ok, Next, Start, Committed, OnCycle, CompletedIn;
    StaysCommitted(s0, log, i, j, r, n, o);
    CommittedArchive(At(s0, log, j), r, o);
  }

  predicate SentOrFailed(d: CycleState, n: Name) {
    d.state.FAILED? || ((d.state.NOTIFYING? || d.state.COMPLETED?) && SentIn(d, n))
  }

  /** The notifier is durably marked sent: in every active record there may be, short of a failed one. */
  ghost predicate HasSent(s: Sys, r: string, n: Name) {
    r in s.used && forall x | x in Possible(s) && IsRecordOf(x, r) :: SentOrFailed(x.cycle, n)
  }

  lemma SentSave(s: Sys, e: Event, r: string, n: Name)
    requires Inv(s) && Ok(s, e) && HasSent(s, r, n) && e.Saved?
    ensures HasSent(Next(s, e), r, n)
  {
    NothingNew(s, e);
    SavedFrom(s, e);
    assert s.cell in Possible(s);
    hide Inv, Ok, Next, FinalOutcome, Doomed, BootFacts, Sound;
  }

  lemma SentElse(s: Sys, e: Event, r: string, n: Name)
    requires Ok(s, e) && HasSent(s, r, n) && !e.Saved?
    ensures HasSent(Next(s, e), r, n)
  {
    NothingNew(s, e);
    hide Ok, Next;
  }

  lemma SentDelivery(s: Sys, e: Event, r: string, n: Name)
    requires Ok(s, e) && HasSent(s, r, n) && e.Delivered? && e.run == r && e.notifier == n
    ensures OnCycle(s, r, FAILED)
  {
    hide FinalOutcome, SaveOk;
    assert s.cell in Possible(s);
  }

  lemma SentStep(s: Sys, e: Event, r: string, n: Name)
    requires Inv(s) && Ok(s, e) && HasSent(s, r, n)
    ensures HasSent(Next(s, e), r, n)
    ensures e.Delivered? && e.run == r && e.notifier == n ==> OnCycle(s, r, FAILED)
  {
    hide Inv, Ok, Next, HasSent, OnCycle;
    if e.Saved? {
      SentSave(s, e, r, n);
    } else {
      SentElse(s, e, r, n);
    }
    if e.Delivered? && e.run == r && e.notifier == n {
      SentDelivery(s, e, r, n);
    }
  }

  /** A notifier durably marked sent is contacted again only by the failure path. */
  lemma {:induction false} SentIsNotRepeated(s0: Sys, log: seq<Event>, i: nat, j: nat, r: string, n: Name)
    requires Legal(s0, log) && i <= j < |log| && HasSent(At(s0, log, i), r, n)
    ensures HasSent(At(s0, log, j), r, n)
    ensures log[j].Delivered? && log[j].run == r && log[j].notifier == n ==> OnCycle(At(s0, log, j), r, FAILED)
    decreases j
  {
    hide Inv, Ok, Next, Start, HasSent, OnCycle;
    if i < j {
      SentIsNotRepeated(s0, log, i, j - 1, r, n);
      Reachable(s0, log, j - 1);
      SentStep(At(s0, log, j - 1), log[j - 1], r, n);
    }
    Reachable(s0, log, j);
    SentStep(At(s0, log, j), log[j], r, n);
  }

  /** The report of `r` was handed to `n`, who answered "sent". */
  predicate TookReport(e: Event, r: string, n: Name) {
    e.Delivered? && e.run == r && e.notifier == n && e.answer == Some(SENT)
  }

  /** The notifier counts as told: on a record there is or may be, or in the process's own notes. */
  ghost predicate Marked(s: Sys, r: string, n: Name) {
    (exists c | OnRecord(s, r, c) :: SentIn(c, n)) || (s.proc.Some? && (r, n) in s.proc.value.sent)
  }

  lemma FirstMarksNobody(s: Sys, p: Proc, c: CycleState)
    requires SaveOk(s, p, c) && !s.cell.Rec?
    ensures c.notificationStatus == map[]
  {
    hide WellFormed, Edit;
    ArcKeeps(NewCycle(c.runId, c.hostname, c.startedAt, c.provider), c);
    hide Arc;
  }

  lemma MarkSave(s: Sys, e: Event, n: Name)
    requires Inv(s) && Ok(s, e) && e.Saved? && SentIn(e.cycle, n)
    ensures Marked(s, e.cycle.runId, n)
  {
    SavedFrom(s, e);
    hide Inv, SaveOk, BootFacts, WorkFacts, ReportFacts, Sound, OnRecord;
    if s.cell.Rec? {
      var d := s.cell.cycle;
      assert MarkFacts(s.proc.value, d, e.cycle);
      assert SentIn(d, n) || (d.runId, n) in s.proc.value.sent;
    } else {
      FirstMarksNobody(s, s.proc.value, e.cycle);
    }
  }

  lemma SentNote(p: Proc, e: Event, r: string, n: Name)
    requires (r, n) in NextProc(p, e).sent
    ensures (r, n) in p.sent || TookReport(e, r, n)
  {
    hide Checks;
    match e {
      case GateChecked(c) => ChecksKeepSent(p, c);
      case Delivered(_, _, _, _) =>
      case _ =>
    }
  }

  lemma ChecksKeepSent(p: Proc, c: Check)
    ensures Checks(p, c).sent == p.sent
  {
  }

  lemma SentNoted(s: Sys, e: Event, r: string, n: Name)
    requires Ok(s, e) && Next(s, e).proc.Some? && (r, n) in Next(s, e).proc.value.sent
    ensures (s.proc.Some? && (r, n) in s.proc.value.sent) || TookReport(e, r, n)
  {
    hide NextProc, Ok;
    if IsNote(e) {
      NoteNext(s, e);
      SentNote(s.proc.value, e, r, n);
      hide Next;
    } else if !e.Began? {
      LooksKept(s, e);
      hide Next;
    }
  }

  lemma MarkStep(s: Sys, e: Event, r: string, n: Name)
    requires Inv(s) && Ok(s, e) && Marked(Next(s, e), r, n)
    ensures Marked(s, r, n) || TookReport(e, r, n)
  {
    hide Inv, Ok, Next, OnRecord;
    var t := Next(s, e);
    if t.proc.Some? && (r, n) in t.proc.value.sent {
      SentNoted(s, e, r, n);
    } else {
      var c :| OnRecord(t, r, c) && SentIn(c, n);
      RecordsStay(s, e, r);
      if !OnRecord(s, r, c) {
        MarkSave(s, e, n);
      }
    }
  }

  /** Whoever counts as told took a report of that very run, and answered that it was sent. */
  lemma {:induction false} SentWasAnswered(s0: Sys, log: seq<Event>, k: nat, r: string, n: Name)
    requires Legal(s0, log) && k <= |log| && Marked(At(s0, log, k), r, n)
    ensures exists i :: 0 <= i < k && TookReport(log[i], r, n)
  {
    hide Inv, Ok, Next, Start, Marked;
    if k == 0 {
      NobodyMarked(s0, r, n);
    } else {
      Reachable(s0, log, k - 1);
      MarkStep(At(s0, log, k - 1), log[k - 1], r, n);
      if Marked(At(s0, log, k - 1), r, n) {
        SentWasAnswered(s0, log, k - 1, r, n);
      }
    }
  }

  lemma NobodyMarked(s0: Sys, r: string, n: Name)
    requires Start(s0)
    ensures !Marked(s0, r, n)
  {
  }

  // ------------------------------------------------------ the recovery path

  /** A cycle is under way, a load refuses, or either may be so after a power loss. */
  ghost predicate MayBePending(s: Sys) {
    exists x | x in Possible(s) :: CyclePending(x)
  }

  /** An installer touches the unit over a finished cycle that a power loss may bring back unfinished. */
  ghost predicate Undercuts(s: Sys, e: Event) {
    e.UnitSet? && exists x | x in s.past :: CyclePending(x)
  }

  lemma UnitStep(s: Sys, e: Event)
    requires Inv(s) && Ok(s, e) && s.unitEnabled && MayBePending(s) && !Undercuts(s, e)
    ensures Next(s, e).unitEnabled
  {
    hide SaveOk, DeliveryOk, NextProc, Inv;
    if IsNote(e) {
      NoteNext(s, e);
      hide Next, OkIn;
    }
  }

  lemma CommandFindsUnit(s: Sys, r: string)
    requires Inv(s) && Ok(s, RebootCalled(r))
    ensures s.unitEnabled
  {
    hide CellOk, PastOk, ArchiveOk;
  }

  /**
   From a reboot command on, the boot-resume unit stays enabled for as long as a load finds, or a power loss may
   bring back, an unfinished cycle or a store that is refused; as long as no installer acts on an ending that
   has not reached the disk.
   */
  lemma {:induction false} RecoveryPathSurvives(s0: Sys, log: seq<Event>, i: nat, j: nat, r: string)
    requires Legal(s0, log) && i < j <= |log| && log[i] == RebootCalled(r)
    requires forall m | i <= m < j :: MayBePending(At(s0, log, m)) && !Undercuts(At(s0, log, m), log[m])
    ensures At(s0, log, j).unitEnabled
    decreases j
  {
    hide Inv, Ok, Next, Start, MayBePending, Undercuts;
    if i + 1 < j {
      RecoveryPathSurvives(s0, log, i, j - 1, r);
    } else {
      Reachable(s0, log, i);
      CommandFindsUnit(At(s0, log, i), r);
    }
    Reachable(s0, log, j - 1);
    UnitStep(At(s0, log, j - 1), log[j - 1]);
  }

  /** While the cycle is visibly pending, or the store refused, no installer undercuts anything. */
  lemma PendingIsSafe(s: Sys, e: Event)
    requires Ok(s, e) && CyclePending(s.cell)
    ensures MayBePending(s) && !Undercuts(s, e)
  {
    hide SaveOk, DeliveryOk;
    assert s.cell in Possible(s);
  }

  /** So it does while a load finds an unfinished cycle, or a store it refuses. */
  lemma PendingKeepsUnit(s0: Sys, log: seq<Event>, i: nat, j: nat, r: string)
    requires Legal(s0, log) && i < j <= |log| && log[i] == RebootCalled(r)
    requires forall m | i <= m < j :: CyclePending(At(s0, log, m).cell)
    ensures At(s0, log, j).unitEnabled
  {
    hide Inv, Ok, Next, Start, MayBePending, Undercuts, CyclePending;
    forall m | i <= m < j ensures MayBePending(At(s0, log, m)) && !Undercuts(At(s0, log, m), log[m]) {
      Reachable(s0, log, m);
      PendingIsSafe(At(s0, log, m), log[m]);
    }
    RecoveryPathSurvives(s0, log, i, j, r);
  }
}
