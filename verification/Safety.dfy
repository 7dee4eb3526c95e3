/**
 Safety over whole runs: for every legal log, whatever the interleaving of runs, resumes, crashes,
 power losses, I/O errors, installs and uninstalls.
 */
module Safety {
  import opened Wrappers
  import opened States
  import opened Records
  import opened Outcomes
  import opened Protocol
  import opened Invariants

  function Count(log: seq<Event>, k: nat, e: Event): nat
    requires k <= |log|
  {
    if k == 0 then 0 else Count(log, k - 1, e) + (if log[k - 1] == e then 1 else 0)
  }

  predicate IsActive(s: Sys, r: string) {
    s.cell.Rec? && s.cell.cycle.runId == r
  }

  predicate IsRecordOf(x: Cell, r: string) {
    x.Rec? && x.cycle.runId == r
  }

  /** Only a save brings a record into the state directory that could not have been there before. */
  lemma NothingNew(s: Sys, e: Event)
    requires Ok(s, e)
    ensures forall x | x in Possible(Next(s, e)) ::
      x in Possible(s) || (e.Saved? && x == Rec(e.cycle) == Next(s, e).cell) || !x.Rec?
    ensures s.used <= Next(s, e).used && (!e.Saved? ==> Same(Next(s, e).used, s.used))
    ensures Next(s, e).maxAttempts == s.maxAttempts
    ensures e.Booted? ==> Next(s, e).past == {}
  {
    hide SaveOk, DeliveryOk, NextProc;
    if Silent(e) {
      SilentNext(s, e);
      hide Next, OkIn;
    }
  }

  /** The record that may come back after a power loss was, before it, the visible one or one of the past. */
  lemma PastIsOld(s: Sys, e: Event)
    requires Ok(s, e)
    ensures forall x | x in Next(s, e).past :: x in Possible(s)
  {
    hide SaveOk, DeliveryOk, NextProc;
    if Silent(e) {
      SilentNext(s, e);
      hide Next, OkIn;
    }
  }

  // ---------------------------------------------------- the reboot budget

  /** Reboot commands run `r` can have been given, by what the state directory holds: its durable attempts. */
  function Attempts(s: Sys, x: Cell, r: string): nat {
    if r !in s.used then 0
    else if !IsRecordOf(x, r) then 2 * s.maxAttempts
    else (if x.cycle.initialRebootCompleted then s.maxAttempts else 0) + x.cycle.rebootAttempts
  }

  /** A saved attempt whose command is still to come. */
  predicate Unspent(s: Sys, r: string) {
    IsActive(s, r) && s.proc.Some? && s.proc.value.paid
  }

  /** However the state directory comes back, it has `n` attempts of run `r` on record, and the unspent one. */
  ghost predicate PaidFor(s: Sys, r: string, n: nat) {
    && n + (if Unspent(s, r) then 1 else 0) <= Attempts(s, s.cell, r)
    && forall x | x in s.past :: n <= Attempts(s, x, r)
  }

  lemma PaidNote(s: Sys, e: Event, r: string, n: nat)
    requires Inv(s) && Ok(s, e) && s.proc.Some? && IsNote(e) && PaidFor(s, r, n)
    ensures PaidFor(Next(s, e), r, if e == RebootCalled(r) then n + 1 else n)
  {
    hide SaveOk, DeliveryOk, CellOk, PastOk, ArchiveOk, ProcOk, BootsOk;
    NoteNext(s, e);
    NoteFlags(s.proc.value, e);
    hide Next, NextProc;
    if !e.RebootCalled? {
      hide OkIn;
    }
  }

  lemma PaidSave(s: Sys, e: Event, r: string, n: nat)
    requires Inv(s) && Ok(s, e) && e.Saved? && PaidFor(s, r, n)
    ensures PaidFor(Next(s, e), r, n)
  {
    hide Sound, Edit, WellFormed, Arc, DeliveryOk, ProcOk, PastOk, ArchiveOk, WorkFacts, ReportFacts;
    if s.cell.Rec? {
      EditKeepsSound(s, s.proc.value, s.cell.cycle, e.cycle);
    }
  }

  lemma PaidStep(s: Sys, e: Event, r: string, n: nat)
    requires Inv(s) && Ok(s, e) && PaidFor(s, r, n)
    ensures PaidFor(Next(s, e), r, if e == RebootCalled(r) then n + 1 else n)
  {
    hide Inv, OkIn, Next, PaidFor;
    if e.Saved? {
      PaidSave(s, e, r, n);
    } else if IsNote(e) {
      PaidNote(s, e, r, n);
    } else {
      PaidElse(s, e, r, n);
    }
  }

  lemma PaidElse(s: Sys, e: Event, r: string, n: nat)
    requires Inv(s) && Ok(s, e) && !e.Saved? && !IsNote(e) && PaidFor(s, r, n)
    ensures PaidFor(Next(s, e), r, n)
  {
    hide Inv, Ok, Next, Unspent;
    var t := Next(s, e);
    PaidBound(s, r, n);
    NothingNew(s, e);
    PastIsOld(s, e);
    if Unspent(t, r) {
      NobodyPays(s, e, r);
    }
    assert forall x | x in Possible(s) :: n <= Attempts(s, x, r);
    assert t.cell in Possible(t);
    assert forall x: Cell | !x.Rec? :: n <= Attempts(t, x, r);
  }

  lemma NobodyPays(s: Sys, e: Event, r: string)
    requires Ok(s, e) && !e.Saved? && !IsNote(e) && Unspent(Next(s, e), r)
    ensures Unspent(s, r) && Same(Next(s, e).cell, s.cell)
  {
    if s.proc.Some? {
      NothingGained(s, e);
    } else {
      NobodyGained(s, e);
    }
    hide Ok, Next;
  }

  lemma PaidBound(s: Sys, r: string, n: nat)
    requires Inv(s) && PaidFor(s, r, n)
    ensures n <= 2 * s.maxAttempts
  {
    hide Sound, PastOk, ArchiveOk;
  }

  /**
   Every command is paid for by an attempt that no power loss takes back, and a run never issues more than twice
   the maximum.
   */
  lemma {:induction false} RebootBudget(s0: Sys, log: seq<Event>, k: nat, r: string)
    requires Legal(s0, log) && k <= |log|
    ensures PaidFor(At(s0, log, k), r, Count(log, k, RebootCalled(r)))
    ensures Count(log, k, RebootCalled(r)) <= 2 * s0.maxAttempts
  {
    hide Inv, Ok, Next, Start, PaidFor;
    if k > 0 {
      RebootBudget(s0, log, k - 1, r);
      Reachable(s0, log, k - 1);
      PaidStep(At(s0, log, k - 1), log[k - 1], r, Count(log, k - 1, RebootCalled(r)));
    } else {
      NothingPaid(s0, r);
    }
    Reachable(s0, log, k);
    MaxAttemptsFixed(s0, log, k);
    PaidBound(At(s0, log, k), r, Count(log, k, RebootCalled(r)));
  }

  lemma NothingPaid(s0: Sys, r: string)
    requires Start(s0)
    ensures PaidFor(s0, r, 0)
  {
  }

  lemma {:induction false} MaxAttemptsFixed(s0: Sys, log: seq<Event>, k: nat)
    requires k <= |log|
    ensures At(s0, log, k).maxAttempts == s0.maxAttempts
  {
    if k > 0 {
      MaxAttemptsFixed(s0, log, k - 1);
    }
  }

  // -------------------------------------------------- applying at most once

  /** Times a process ended, killed or not, while `r` stood at UPGRADING. */
  function EndsWhileUpgrading(s0: Sys, log: seq<Event>, k: nat, r: string): nat
    requires k <= |log|
  {
    if k == 0 then 0
    else EndsWhileUpgrading(s0, log, k - 1, r)
         + (if log[k - 1].Ended? && OnCycle(At(s0, log, k - 1), r, UPGRADING) then 1 else 0)
  }

  /** An early cycle bound to a boot: were it to come back on another, it would be doomed. */
  predicate Spoiled(d: CycleState) {
    (BeforeRebooting(d.state) || d.state.PRECHECK?) && d.bootIdBefore.Some?
  }

  /** No process will apply for this record. */
  predicate NeverApplied(s: Sys, d: CycleState) {
    d.updatesApplied || Terminal(d.state) || Doomed(s, d) || (s.proc.Some? && s.proc.value.applying)
  }

  /** ... nor for this one, should a power loss bring it back. */
  predicate NeverAgain(x: Cell, r: string) {
    IsRecordOf(x, r) ==> x.cycle.updatesApplied || Terminal(x.cycle.state) || Spoiled(x.cycle)
  }

  /** At most `m` applies of `r` that no process end excuses, however the state directory comes back. */
  ghost predicate AppliedFor(s: Sys, r: string, m: int) {
    && m <= 1 && (r !in s.used ==> m <= 0)
    && (m == 1 ==> (IsActive(s, r) ==> NeverApplied(s, s.cell.cycle)) && forall x | x in s.past :: NeverAgain(x, r))
  }

  lemma AppliedNote(s: Sys, e: Event, r: string, m: int)
    requires Inv(s) && Ok(s, e) && s.proc.Some? && IsNote(e) && AppliedFor(s, r, m)
    ensures AppliedFor(Next(s, e), r, m + if e == ApplyCalled(r) then 1 else 0)
  {
    hide SaveOk, DeliveryOk, Sound, PastOk, ArchiveOk, ProcOk, BootsOk;
    NoteNext(s, e);
    NoteFlags(s.proc.value, e);
    hide Next, NextProc;
    if !e.ApplyCalled? {
      hide OkIn;
    }
  }

  lemma AppliedSave(s: Sys, e: Event, r: string, m: int)
    requires Inv(s) && Ok(s, e) && e.Saved? && AppliedFor(s, r, m)
    ensures AppliedFor(Next(s, e), r, m)
  {
    hide WellFormed, TrailOk, TruthOk, Edit, Arc, DeliveryOk, PastOk, ArchiveOk, Anchored, BootFacts, ReportFacts;
    if s.cell.Rec? {
      assert Sound(s.cell.cycle);
      EditKeepsSound(s, s.proc.value, s.cell.cycle, e.cycle);
    }
  }

  /** On a later boot, a record bound to an earlier one is doomed. */
  lemma SpoiledIsDoomed(s: Sys, e: Event, x: Cell, r: string)
    requires Inv(s) && Ok(s, e) && e.Booted? && x == e.cell && IsRecordOf(x, r)
    requires Spoiled(x.cycle) || Doomed(s, x.cycle)
    ensures Doomed(Next(s, e), x.cycle)
  {
    hide Sound, ArchiveOk, ProcOk, BootsOk;
    assert CellOk(s, x);
    assert Current(Next(s, e)) == e.id;
  }

  lemma AppliedBoot(s: Sys, e: Event, r: string, m: int)
    requires Inv(s) && Ok(s, e) && (e.Booted? || e.BootedInPlace?) && AppliedFor(s, r, m)
    ensures AppliedFor(Next(s, e), r, m)
  {
    hide Inv, SaveOk, DeliveryOk;
    if e.Booted? && m == 1 && IsRecordOf(e.cell, r) && (Spoiled(e.cell.cycle) || Doomed(s, e.cell.cycle)) {
      SpoiledIsDoomed(s, e, e.cell, r);
    }
  }

  lemma AppliedSilent(s: Sys, e: Event, r: string, m: int)
    requires Inv(s) && Ok(s, e) && AppliedFor(s, r, m) && (e.Began? || e.Ended? || e.UnitSet?)
    ensures AppliedFor(Next(s, e), r, m - if e.Ended? && OnCycle(s, r, UPGRADING) then 1 else 0)
  {
    hide CellOk, PastOk, ArchiveOk, BootsOk, SaveOk, DeliveryOk, NeverAgain;
    SilentNext(s, e);
  }

  lemma AppliedStore(s: Sys, e: Event, r: string, m: int)
    requires Inv(s) && Ok(s, e) && AppliedFor(s, r, m)
    requires e.Tampered? || e.OperatorCleared? || e.Quarantined? || e.HistoryPut? || e.ActiveRemoved? || e.Purged?
    ensures AppliedFor(Next(s, e), r, m)
  {
    var t := Next(s, e);
    PastIsOld(s, e);
    NothingNew(s, e);
    if e.HistoryPut? {
    } else {
      NoRecordLeft(s, e);
    }
    hide Inv, Ok, Next;
  }

  /** What is removed, or made unreadable, is no unfinished record of a process at work. */
  lemma NoRecordLeft(s: Sys, e: Event)
    requires Inv(s) && Ok(s, e)
    requires e.Tampered? || e.OperatorCleared? || e.Quarantined? || e.ActiveRemoved? || e.Purged?
    ensures var t := Next(s, e);
      if e.OperatorCleared? && s.cell.Rec? then Same(t, s)
      else !t.cell.Rec? && (s.cell.Rec? ==> s.proc.None? || Terminal(s.cell.cycle.state))
  {
    hide CellOk, PastOk, ProcOk, BootsOk, SaveOk, DeliveryOk, Sound;
    if e.ActiveRemoved? {
      assert ShelfOk(s, s.history);
    }
    hide ArchiveOk;
  }

  lemma AppliedStep(s: Sys, e: Event, r: string, m: int)
    requires Inv(s) && Ok(s, e) && AppliedFor(s, r, m)
    ensures AppliedFor(Next(s, e), r, m + (if e == ApplyCalled(r) then 1 else 0)
                                        - (if e.Ended? && OnCycle(s, r, UPGRADING) then 1 else 0))
  {
    hide Inv, OkIn, Next, AppliedFor;
    if e.Saved? {
      AppliedSave(s, e, r, m);
    } else if IsNote(e) && s.proc.Some? {
      AppliedNote(s, e, r, m);
    } else if e.Booted? || e.BootedInPlace? {
      AppliedBoot(s, e, r, m);
    } else if e.Began? || e.Ended? || e.UnitSet? {
      AppliedSilent(s, e, r, m);
    } else {
      AppliedStore(s, e, r, m);
    }
  }

  /** Applying is repeated only after a process died in the middle of it. */
  lemma {:induction false} ApplyBound(s0: Sys, log: seq<Event>, k: nat, r: string)
    requires Legal(s0, log) && k <= |log|
    ensures AppliedFor(At(s0, log, k), r, Count(log, k, ApplyCalled(r)) - EndsWhileUpgrading(s0, log, k, r))
    ensures Count(log, k, ApplyCalled(r)) <= EndsWhileUpgrading(s0, log, k, r) + 1
  {
    hide Inv, Ok, Next, Start, NeverApplied, NeverAgain;
    if k > 0 {
      ApplyBound(s0, log, k - 1, r);
      Reachable(s0, log, k - 1);
      AppliedStep(At(s0, log, k - 1), log[k - 1], r,
                  Count(log, k - 1, ApplyCalled(r)) - EndsWhileUpgrading(s0, log, k - 1, r));
    }
  }

  /** Work recorded, or under way, cannot be lost to a power loss without the cycle being lost to it too. */
  ghost predicate NoWayBack(s: Sys) {
    s.cell.Rec? && (s.cell.cycle.updatesApplied || (s.proc.Some? && s.proc.value.applying)) ==>
      forall x | x in s.past :: NeverAgain(x, s.cell.cycle.runId)
  }

  lemma NoWayBackSave(s: Sys, e: Event)
    requires Inv(s) && Ok(s, e) && e.Saved? && NoWayBack(s)
    ensures NoWayBack(Next(s, e))
  {
    hide WellFormed, TrailOk, TruthOk, Edit, Arc, DeliveryOk, PastOk, ArchiveOk, Anchored, BootFacts, ReportFacts,
         Doomed;
    var c := e.cycle;
    if s.cell.Rec? {
      assert Sound(s.cell.cycle);
      EditKeepsSound(s, s.proc.value, s.cell.cycle, c);
    } else {
      FirstSaveIsSound(NewCycle(c.runId, c.hostname, c.startedAt, c.provider), c);
    }
  }

  lemma NoWayBackStep(s: Sys, e: Event)
    requires Inv(s) && Ok(s, e) && NoWayBack(s)
    ensures NoWayBack(Next(s, e))
  {
    hide Inv, OkIn, Next, NoWayBack;
    if e.Saved? {
      NoWayBackSave(s, e);
    } else if IsNote(e) {
      NoWayBackNote(s, e);
    } else {
      NoWayBackElse(s, e);
    }
  }

  lemma NoWayBackNote(s: Sys, e: Event)
    requires Ok(s, e) && IsNote(e) && NoWayBack(s)
    ensures NoWayBack(Next(s, e))
  {
    hide SaveOk, DeliveryOk, NextProc, NeverAgain;
    NoteNext(s, e);
    NoteFlags(s.proc.value, e);
    hide Next;
    if !e.ApplyCalled? {
      hide OkIn;
    }
  }

  lemma NoWayBackElse(s: Sys, e: Event)
    requires Ok(s, e) && !e.Saved? && !IsNote(e) && NoWayBack(s)
    ensures NoWayBack(Next(s, e))
  {
    CellMoves(s, e);
    if Next(s, e).proc.Some? {
      if s.proc.Some? {
        NothingGained(s, e);
      } else {
        NobodyGained(s, e);
      }
    }
    hide Ok, Next, NeverAgain;
  }

  lemma {:induction false} NoWayBackEver(s0: Sys, log: seq<Event>, k: nat)
    requires Legal(s0, log) && k <= |log|
    ensures NoWayBack(At(s0, log, k))
  {
    hide Inv, Ok, Next, NoWayBack;
    if k > 0 {
      NoWayBackEver(s0, log, k - 1);
      Reachable(s0, log, k - 1);
      NoWayBackStep(At(s0, log, k - 1), log[k - 1]);
    } else {
      NothingToLose(s0);
    }
  }

  lemma NothingToLose(s0: Sys)
    requires Start(s0)
    ensures NoWayBack(s0)
  {
  }

  /** A load finds `updates_applied` on the record of `r`. */
  predicate WorkSeen(s: Sys, r: string) {
    IsActive(s, r) && s.cell.cycle.updatesApplied
  }

  /** Every record of `r` there may be has `updates_applied`. */
  ghost predicate WorkDurable(s: Sys, r: string) {
    r in s.used && forall x | x in Possible(s) && IsRecordOf(x, r) :: x.cycle.updatesApplied
  }

  /** However the state directory comes back, no process will ever apply for `r`. */
  ghost predicate NoMoreApplying(s: Sys, r: string) {
    && r in s.used
    && (IsActive(s, r) ==>
          var d := s.cell.cycle; d.updatesApplied || Terminal(d.state) || Doomed(s, d))
    && forall x | x in s.past :: NeverAgain(x, r)
  }

  lemma SeenIsDone(s: Sys, r: string)
    requires Inv(s) && NoWayBack(s) && WorkSeen(s, r)
    ensures NoMoreApplying(s, r)
  {
    hide Sound, PastOk, ArchiveOk, NeverAgain;
  }

  lemma NoMoreSave(s: Sys, e: Event, r: string)
    requires Inv(s) && Ok(s, e) && e.Saved? && NoMoreApplying(s, r)
    ensures NoMoreApplying(Next(s, e), r)
  {
    hide Sound, WellFormed, Edit, Arc, DeliveryOk, PastOk, ArchiveOk, ProcOk, Anchored, BootFacts, ReportFacts;
    if s.cell.Rec? {
      assert Sound(s.cell.cycle);
      EditKeepsSound(s, s.proc.value, s.cell.cycle, e.cycle);
    }
  }

  lemma NoMoreElse(s: Sys, e: Event, r: string)
    requires Ok(s, e) && !e.Saved? && !e.Booted? && !e.BootedInPlace? && NoMoreApplying(s, r)
    ensures NoMoreApplying(Next(s, e), r)
  {
    hide SaveOk, DeliveryOk, NextProc;
    if IsNote(e) {
      NoteNext(s, e);
      hide Next, OkIn;
    }
  }

  lemma NoMoreStep(s: Sys, e: Event, r: string)
    requires Inv(s) && Ok(s, e) && NoMoreApplying(s, r)
    ensures NoMoreApplying(Next(s, e), r) && e != ApplyCalled(r)
  {
    NotApplied(s, e, r);
    hide Inv, Ok, Next, NoMoreApplying;
    if e.Saved? {
      NoMoreSave(s, e, r);
    } else if e.Booted? || e.BootedInPlace? {
    } else {
      NoMoreElse(s, e, r);
    }
  }

  lemma NotApplied(s: Sys, e: Event, r: string)
    requires Ok(s, e) && NoMoreApplying(s, r)
    ensures e != ApplyCalled(r)
  {
    hide SaveOk, DeliveryOk, NeverAgain;
  }

  lemma {:induction false} NoMoreEver(s0: Sys, log: seq<Event>, i: nat, j: nat, r: string)
    requires Legal(s0, log) && i <= j < |log| && NoMoreApplying(At(s0, log, i), r)
    ensures NoMoreApplying(At(s0, log, j), r) && log[j] != ApplyCalled(r)
    decreases j
  {
    hide Inv, Ok, Next, Start, NoMoreApplying;
    if i < j {
      NoMoreEver(s0, log, i, j - 1, r);
      Reachable(s0, log, j - 1);
      NoMoreStep(At(s0, log, j - 1), log[j - 1], r);
    }
    Reachable(s0, log, j);
    NoMoreStep(At(s0, log, j), log[j], r);
  }

  /** Once a load finds `updates_applied`, no process applies for that run again, even if a power loss hides it. */
  lemma AppliedWorkIsNotRepeated(s0: Sys, log: seq<Event>, i: nat, j: nat, r: string)
    requires Legal(s0, log) && i <= j < |log| && WorkSeen(At(s0, log, i), r)
    ensures log[j] != ApplyCalled(r)
  {
    hide Inv, Ok, Next, Start, NoMoreApplying, NoWayBack, WorkSeen;
    Reachable(s0, log, i);
    NoWayBackEver(s0, log, i);
    SeenIsDone(At(s0, log, i), r);
    NoMoreEver(s0, log, i, j, r);
  }

  lemma DurableSave(s: Sys, e: Event, r: string)
    requires Inv(s) && Ok(s, e) && e.Saved? && WorkDurable(s, r)
    ensures WorkDurable(Next(s, e), r)
  {
    hide Sound, WellFormed, Edit, Arc, DeliveryOk, PastOk, ArchiveOk, ProcOk, Anchored, BootFacts, ReportFacts;
    NothingNew(s, e);
    if s.cell.Rec? {
      assert Sound(s.cell.cycle);
      EditKeepsSound(s, s.proc.value, s.cell.cycle, e.cycle);
      hide Doomed, Next;
      assert s.cell in Possible(s);
      assert Next(s, e).cell == Rec(e.cycle) by { SavedCell(s, e); }
    }
  }

  lemma SavedCell(s: Sys, e: Event)
    requires s.proc.Some? && e.Saved?
    ensures Next(s, e).cell == Rec(e.cycle) && Next(s, e).past == Older(s, e.settled)
  {
  }

  lemma DurableStep(s: Sys, e: Event, r: string)
    requires Inv(s) && Ok(s, e) && WorkDurable(s, r)
    ensures WorkDurable(Next(s, e), r)
  {
    if e.Saved? {
      hide Inv, Ok, Next, WorkDurable;
      DurableSave(s, e, r);
    } else {
      NothingNew(s, e);
      hide Inv, Ok, Next;
    }
  }

  /** ... and once it is durable, it is there for ever after. */
  lemma {:induction false} AppliedWorkStays(s0: Sys, log: seq<Event>, i: nat, j: nat, r: string)
    requires Legal(s0, log) && i <= j <= |log| && WorkDurable(At(s0, log, i), r)
    ensures WorkDurable(At(s0, log, j), r)
    decreases j
  {
    hide Inv, Ok, Next, Start, WorkDurable;
    if i < j {
      AppliedWorkStays(s0, log, i, j - 1, r);
      Reachable(s0, log, j - 1);
      DurableStep(At(s0, log, j - 1), log[j - 1], r);
    }
  }

  // --------------------------------------------------- unexpected reboots

  predicate CondemnedAs(s: Sys, x: Cell, r: string) {
    IsRecordOf(x, r) ==> x.cycle.state.FAILED? || Doomed(s, x.cycle)
  }

  /** However the state directory comes back, the machine rebooted under run `r`, or it has failed. */
  ghost predicate Condemned(s: Sys, r: string) {
    r in s.used && forall x | x in Possible(s) :: CondemnedAs(s, x, r)
  }

  /** What a run hit by an unexpected reboot never does again; whatever is stored for it is FAILED. */
  predicate Harmless(e: Event, r: string) {
    && e != ApplyCalled(r) && e != RepairCalled(r) && e != RebootCalled(r)
    && (e.Saved? && e.cycle.runId == r ==> e.cycle.state.FAILED?)
    && (e.HistoryPut? && e.cycle.runId == r ==> e.cycle.state.FAILED?)
  }

  lemma CondemnedSave(s: Sys, e: Event, r: string)
    requires Inv(s) && Ok(s, e) && Condemned(s, r) && e.Saved?
    ensures Condemned(Next(s, e), r) && Harmless(e, r)
  {
    hide Sound, Edit, WellFormed, Arc, Doomed, PastOk, ArchiveOk;
    if s.cell.Rec? {
      assert CondemnedAs(s, s.cell, r);
      EditKeepsSound(s, s.proc.value, s.cell.cycle, e.cycle);
      hide BootFacts, ReportFacts;
    }
    NothingNew(s, e);
    SavedCell(s, e);
    hide Next, Ok, SaveOk;
    var t := Next(s, e);
    forall x | x in Possible(t) ensures CondemnedAs(t, x, r) {
      if x in Possible(s) && x.Rec? {
        assert CondemnedAs(s, x, r);
        DoomedCarries(s, t, x);
      }
    }
  }

  lemma DoomedCarries(s: Sys, t: Sys, x: Cell)
    requires Same(t.boots, s.boots) && x.Rec?
    ensures Doomed(t, x.cycle) <==> Doomed(s, x.cycle)
  {
  }

  /** A record doomed on one boot, or bound to an earlier one, is doomed on the next. */
  lemma CondemnedBoot(s: Sys, e: Event, r: string)
    requires Inv(s) && Ok(s, e) && Condemned(s, r) && (e.Booted? || e.BootedInPlace?)
    ensures Condemned(Next(s, e), r)
  {
    hide Sound, ArchiveOk, ProcOk, SaveOk, DeliveryOk;
    var t := Next(s, e);
    assert Current(t) == e.id;
    forall x | x in Possible(t) ensures CondemnedAs(t, x, r) {
      assert x in Possible(s);
      assert CondemnedAs(s, x, r) && CellOk(s, x);
    }
  }

  lemma CondemnedElse(s: Sys, e: Event, r: string)
    requires Ok(s, e) && Condemned(s, r) && !e.Saved? && !e.Booted? && !e.BootedInPlace?
    ensures Condemned(Next(s, e), r) && Harmless(e, r)
  {
    NotHarmful(s, e, r);
    NothingNew(s, e);
    hide Next, Ok, Harmless;
    var t := Next(s, e);
    forall x | x in Possible(t) ensures CondemnedAs(t, x, r) {
      if x in Possible(s) && x.Rec? {
        assert CondemnedAs(s, x, r);
        DoomedCarries(s, t, x);
      }
    }
  }

  lemma NotHarmful(s: Sys, e: Event, r: string)
    requires Ok(s, e) && Condemned(s, r) && !e.Saved?
    ensures Harmless(e, r)
  {
    hide SaveOk, DeliveryOk;
    assert s.cell in Possible(s);
    assert CondemnedAs(s, s.cell, r);
    hide Condemned;
    if !e.ApplyCalled? && !e.RepairCalled? && !e.RebootCalled? && !e.HistoryPut? {
      hide OkIn;
    }
  }

  lemma CondemnedStep(s: Sys, e: Event, r: string)
    requires Inv(s) && Ok(s, e) && Condemned(s, r)
    ensures Condemned(Next(s, e), r) && Harmless(e, r)
  {
    hide Inv, Ok, Condemned, Next;
    if e.Saved? {
      CondemnedSave(s, e, r);
    } else if e.Booted? || e.BootedInPlace? {
      CondemnedBoot(s, e, r);
    } else {
      CondemnedElse(s, e, r);
    }
  }

  lemma {:induction false} CondemnedEver(s0: Sys, log: seq<Event>, i: nat, j: nat, r: string)
    requires Legal(s0, log) && i <= j < |log|
    requires Condemned(At(s0, log, i), r)
    ensures Condemned(At(s0, log, j), r) && Harmless(log[j], r)
    decreases j
  {
    hide Inv, Ok, Next, Start, Condemned, Harmless;
    Reachable(s0, log, j);
    if i < j {
      CondemnedEver(s0, log, i, j - 1, r);
      Reachable(s0, log, j - 1);
      CondemnedStep(At(s0, log, j - 1), log[j - 1], r);
    }
    CondemnedStep(At(s0, log, j), log[j], r);
  }

  /** The visible record is an early one of an earlier boot. */
  predicate DoomedNow(s: Sys) {
    s.cell.Rec? && Doomed(s, s.cell.cycle)
  }

  /** Since the boot that doomed a cycle nothing was written: what a load finds is what there is. */
  predicate DoomedAlone(s: Sys) {
    DoomedNow(s) ==> s.past == {}
  }

  lemma DoomedAloneStep(s: Sys, e: Event)
    requires Inv(s) && Ok(s, e) && DoomedAlone(s)
    ensures DoomedAlone(Next(s, e))
  {
    hide Inv, Ok, Next, Doomed;
    if e.Saved? {
      SaveDoomsNothing(s, e);
    } else {
      CellMoves(s, e);
      if !e.Booted? && DoomedNow(Next(s, e)) {
        SameBootsOrRebooting(s, e);
        NotDoomedBefore(s, Next(s, e));
      }
    }
  }

  lemma NotDoomedBefore(s: Sys, t: Sys)
    requires DoomedNow(t) && Same(t.cell, s.cell)
    requires Same(t.boots, s.boots) || s.cell.cycle.state.REBOOTING?
    ensures DoomedNow(s)
  {
  }

  /** Without a save, a readable record stays as it was, or is one that came back. */
  lemma CellMoves(s: Sys, e: Event)
    requires Ok(s, e) && !e.Saved?
    ensures var t := Next(s, e);
      if e.Booted? then t.past == {} else (Same(t.cell, s.cell) && Same(t.past, s.past)) || !t.cell.Rec?
  {
    hide OkIn, NextProc;
    if Silent(e) {
      SilentNext(s, e);
      hide Next;
    }
  }

  lemma SameBootsOrRebooting(s: Sys, e: Event)
    requires Ok(s, e) && !e.Booted?
    ensures Same(Next(s, e).boots, s.boots) || (s.cell.Rec? && s.cell.cycle.state.REBOOTING?)
  {
    hide SaveOk, DeliveryOk, NextProc;
  }

  lemma SaveDoomsNothing(s: Sys, e: Event)
    requires Inv(s) && Ok(s, e) && e.Saved?
    ensures !DoomedNow(Next(s, e))
  {
    hide Sound, WellFormed, Edit, Arc, DeliveryOk, PastOk, ArchiveOk, ProcOk, ReportFacts;
    var c := e.cycle;
    if s.cell.Rec? {
      assert Sound(s.cell.cycle);
      EditKeepsSound(s, s.proc.value, s.cell.cycle, c);
    } else {
      FirstSaveIsSound(NewCycle(c.runId, c.hostname, c.startedAt, c.provider), c);
    }
  }

  lemma {:induction false} DoomedAloneEver(s0: Sys, log: seq<Event>, k: nat)
    requires Legal(s0, log) && k <= |log|
    ensures DoomedAlone(At(s0, log, k))
  {
    hide Inv, Ok, Next, DoomedAlone;
    if k > 0 {
      DoomedAloneEver(s0, log, k - 1);
      Reachable(s0, log, k - 1);
      DoomedAloneStep(At(s0, log, k - 1), log[k - 1]);
    } else {
      NothingDoomed(s0);
    }
  }

  lemma NothingDoomed(s0: Sys)
    requires Start(s0)
    ensures DoomedAlone(s0)
  {
  }

  lemma DoomedIsCondemned(s: Sys, r: string)
    requires Inv(s) && DoomedAlone(s) && DoomedNow(s) && IsActive(s, r)
    ensures Condemned(s, r)
  {
    hide Sound, ArchiveOk;
  }

  /** The inspection was made, in this process, before position `k`. */
  ghost predicate InspectedInProcess(log: seq<Event>, k: nat, i: Inspection)
    requires k <= |log|
  {
    exists a :: 0 <= a < k && Inspects(log[a], i) && forall b | a < b < k :: !log[b].Began?
  }

  predicate Inspects(e: Event, i: Inspection) {
    if i.PreflightInspection? then e.PreflightCalled? else e.VerifyCalled?
  }

  predicate HasInspected(s: Sys, i: Inspection) {
    s.proc.Some? && i in s.proc.value.inspected
  }

  lemma InspectionNote(p: Proc, e: Event, i: Inspection)
    requires IsNote(e) && i in NextProc(p, e).inspected
    ensures Inspects(e, i) || i in p.inspected
  {
  }

  lemma InspectionStep(s: Sys, e: Event, i: Inspection)
    requires HasInspected(Next(s, e), i)
    ensures Inspects(e, i) || (HasInspected(s, i) && !e.Began?)
  {
    hide NextProc;
    if IsNote(e) && s.proc.Some? {
      NoteNext(s, e);
      InspectionNote(s.proc.value, e, i);
      hide Next;
    }
  }

  lemma {:induction false} InspectionsRan(s0: Sys, log: seq<Event>, k: nat, i: Inspection)
    requires Legal(s0, log) && k <= |log| && HasInspected(At(s0, log, k), i)
    ensures InspectedInProcess(log, k, i)
  {
    hide Ok, Next, HasInspected, Inspects;
    if k == 0 {
      NothingInspected(s0, i);
    } else {
      InspectionStep(At(s0, log, k - 1), log[k - 1], i);
      if !Inspects(log[k - 1], i) {
        InspectionsRan(s0, log, k - 1, i);
        var a :| 0 <= a < k - 1 && Inspects(log[a], i) && forall b | a < b < k - 1 :: !log[b].Began?;
        assert forall b | a < b < k :: !log[b].Began?;
      }
    }
  }

  lemma NothingInspected(s0: Sys, i: Inspection)
    requires Start(s0)
    ensures !HasInspected(s0, i)
  {
  }

  lemma DoomedSaveIsDiagnosed(s: Sys, e: Event)
    requires Inv(s) && Ok(s, e) && e.Saved? && DoomedNow(s)
    ensures HasInspected(s, PreflightInspection) && HasInspected(s, VerifyInspection)
  {
    hide Sound, WellFormed, Edit, Arc, DeliveryOk, PastOk, ArchiveOk, ProcOk, ReportFacts, BootFacts, Doomed;
    EditKeepsSound(s, s.proc.value, s.cell.cycle, e.cycle);
  }

  /**
   A run whose machine rebooted under it in an early state never again applies, repairs or reboots, whichever
   processes follow; all that is stored of it is FAILED, first after a preflight and a verification.
   */
  lemma UnexpectedRebootFailsSafe(s0: Sys, log: seq<Event>, i: nat, j: nat, r: string)
    requires Legal(s0, log) && i <= j < |log|
    requires IsActive(At(s0, log, i), r) && DoomedNow(At(s0, log, i))
    ensures Harmless(log[j], r)
    ensures log[j].Saved? && DoomedNow(At(s0, log, j)) ==>
      InspectedInProcess(log, j, PreflightInspection) && InspectedInProcess(log, j, VerifyInspection)
  {
    hide Inv, Ok, Next, Start, Condemned, Harmless, DoomedNow, IsActive, DoomedAlone, HasInspected,
         InspectedInProcess;
    Reachable(s0, log, i);
    DoomedAloneEver(s0, log, i);
    DoomedIsCondemned(At(s0, log, i), r);
    CondemnedEver(s0, log, i, j, r);
    if log[j].Saved? && DoomedNow(At(s0, log, j)) {
      Reachable(s0, log, j);
      DoomedSaveIsDiagnosed(At(s0, log, j), log[j]);
      InspectionsRan(s0, log, j, PreflightInspection);
      InspectionsRan(s0, log, j, VerifyInspection);
    }
  }

  // ------------------------------------------------------- freshness of gates

  /** Events after which a passed gate no longer vouches for anything. */
  predicate Disturbs(e: Event, g: Gate) {
    || (g !in STANDING && (e.HookRan? || e.Slept?))
    || e.Began? || e.Ended? || e.Booted? || e.BootedInPlace? || e.UnitSet?
    || (e.GateChecked? && GateOf(e.check) == g && !Passed(e.check))
  }

  /** A check of the gate that passed. */
  predicate Passes(e: Event, g: Gate) {
    e.GateChecked? && GateOf(e.check) == g && Passed(e.check)
  }

  /** The gate passed, in this process, with nothing disturbing since. */
  ghost predicate FreshlyPassed(log: seq<Event>, k: nat, g: Gate)
    requires k <= |log|
  {
    exists a :: 0 <= a < k && Passes(log[a], g) && forall b | a < b < k :: !Disturbs(log[b], g)
  }

  predicate HasGate(s: Sys, g: Gate) {
    s.proc.Some? && g in s.proc.value.gates
  }

  lemma GateNote(p: Proc, e: Event, g: Gate)
    requires g in NextProc(p, e).gates
    ensures Passes(e, g) || g in p.gates
    ensures g !in STANDING ==> !e.HookRan? && !e.Slept?
    ensures e.GateChecked? && GateOf(e.check) == g ==> Passed(e.check)
  {
  }

  lemma GateStep(s: Sys, e: Event, g: Gate)
    requires Ok(s, e) && HasGate(Next(s, e), g) && g != FreshGate
    ensures Passes(e, g) || (HasGate(s, g) && !Disturbs(e, g))
  {
    hide NextProc, OkIn;
    if IsNote(e) {
      NoteNext(s, e);
      GateNote(s.proc.value, e, g);
      hide Next;
    }
  }

  lemma {:induction false} GatesAreFresh(s0: Sys, log: seq<Event>, k: nat, g: Gate)
    requires Legal(s0, log) && k <= |log| && HasGate(At(s0, log, k), g) && g != FreshGate
    ensures FreshlyPassed(log, k, g)
  {
    hide Ok, Next, Disturbs, HasGate, Passes;
    if k == 0 {
      NoGateAtStart(s0, g);
    } else {
      assert Permitted(s0, log, k - 1);
      GateStep(At(s0, log, k - 1), log[k - 1], g);
      if !Passes(log[k - 1], g) {
        GatesAreFresh(s0, log, k - 1, g);
        var a :| 0 <= a < k - 1 && Passes(log[a], g) && forall b | a < b < k - 1 :: !Disturbs(log[b], g);
        assert forall b | a < b < k :: !Disturbs(log[b], g);
      }
    }
  }

  lemma NoGateAtStart(s0: Sys, g: Gate)
    requires Start(s0)
    ensures !HasGate(s0, g)
  {
  }

  /** What the process remembers of the gate's last check is what the event found. */
  predicate Backs(e: Event, p: Proc, g: Gate) {
    && Passes(e, g)
    && (e.check.WindowCheck? ==> p.window == Some(Vet(e.check.window, e.check.estimate)))
    && (e.check.PreflightCheck? ==> p.reported == Some(e.check.result))
  }

  predicate Tests(e: Event, g: Gate) {
    e.GateChecked? && GateOf(e.check) == g
  }

  /** ... and nothing disturbed or tested the gate since. */
  ghost predicate Backed(log: seq<Event>, k: nat, p: Proc, g: Gate)
    requires k <= |log|
  {
    exists a :: 0 <= a < k && Backs(log[a], p, g) && forall b | a < b < k :: !Disturbs(log[b], g) && !Tests(log[b], g)
  }

  /** What backed the gate does so still. */
  predicate StillBacked(p: Proc, q: Proc, g: Gate) {
    && (g.WindowGate? ==> q.window == p.window)
    && (g.PreflightGate? ==> q.reported == p.reported)
  }

  lemma BackedNote(p: Proc, e: Event, g: Gate)
    requires g in NextProc(p, e).gates
    ensures Backs(e, NextProc(p, e), g) || (g in p.gates && StillBacked(p, NextProc(p, e), g) && !Tests(e, g))
  {
  }

  lemma NotByElse(e: Event, g: Gate)
    requires !IsNote(e)
    ensures !Passes(e, g) && !Tests(e, g) && (e.Began? ==> Disturbs(e, g))
  {
  }

  lemma BackedStep(s: Sys, e: Event, g: Gate)
    requires Ok(s, e) && HasGate(Next(s, e), g) && g != FreshGate
    ensures || Backs(e, Next(s, e).proc.value, g)
            || (HasGate(s, g) && !Disturbs(e, g) && !Tests(e, g)
                && StillBacked(s.proc.value, Next(s, e).proc.value, g))
  {
    GateStep(s, e, g);
    hide Ok, NextProc, Backs;
    if IsNote(e) {
      NoteNext(s, e);
      BackedNote(s.proc.value, e, g);
      hide Next, IsNote;
    } else {
      NotByElse(e, g);
      LooksKept(s, e);
      hide Next, IsNote, Disturbs, Tests;
    }
  }

  /** A gate stands for what its last check found: the window and the estimate, the preflight's whole report. */
  lemma {:induction false} GatesAreBacked(s0: Sys, log: seq<Event>, k: nat, g: Gate)
    requires Legal(s0, log) && k <= |log| && HasGate(At(s0, log, k), g) && g != FreshGate
    ensures Backed(log, k, At(s0, log, k).proc.value, g)
  {
    hide Ok, Next, Disturbs, Passes, Tests;
    if k == 0 {
      NoGateAtStart(s0, g);
    } else {
      assert Permitted(s0, log, k - 1);
      var p := At(s0, log, k).proc.value;
      BackedStep(At(s0, log, k - 1), log[k - 1], g);
      if !Backs(log[k - 1], p, g) {
        GatesAreBacked(s0, log, k - 1, g);
        var q := At(s0, log, k - 1).proc.value;
        var a :| 0 <= a < k - 1 && Backs(log[a], q, g)
                 && forall b | a < b < k - 1 :: !Disturbs(log[b], g) && !Tests(log[b], g);
        PassedKind(log[a], g);
        assert Backs(log[a], p, g);
        assert forall b | a < b < k :: !Disturbs(log[b], g) && !Tests(log[b], g);
      }
    }
  }

  lemma PassedKind(e: Event, g: Gate)
    requires Passes(e, g)
    ensures e.GateChecked? && (e.check.WindowCheck? ==> g == WindowGate)
    ensures e.check.PreflightCheck? ==> g == PreflightGate
  {
  }

  /** A window check that passed for this window and this long. */
  predicate Vets(e: Event, v: Vet) {
    e.GateChecked? && e.check.WindowCheck? && Passed(e.check) && Vet(e.check.window, e.check.estimate) == v
  }

  /** Such a check, the last there was, with no hook, wait or other process since. */
  ghost predicate FreshlyVetted(log: seq<Event>, k: nat, v: Vet)
    requires k <= |log|
  {
    exists a :: 0 <= a < k && Vets(log[a], v)
                && forall b | a < b < k :: !Disturbs(log[b], WindowGate) && !Tests(log[b], WindowGate)
  }

  /** What a process that has the window gate remembers is the check it has it from. */
  lemma WindowIsVetted(s0: Sys, log: seq<Event>, k: nat)
    requires Legal(s0, log) && k <= |log| && HasGate(At(s0, log, k), WindowGate)
    ensures At(s0, log, k).proc.value.window.Some? && FreshlyVetted(log, k, At(s0, log, k).proc.value.window.value)
  {
    hide Legal, At, Disturbs, Tests;
    GatesAreBacked(s0, log, k, WindowGate);
    var p := At(s0, log, k).proc.value;
    var a :| 0 <= a < k && Backs(log[a], p, WindowGate)
             && forall b | a < b < k :: !Disturbs(log[b], WindowGate) && !Tests(log[b], WindowGate);
    assert Vets(log[a], p.window.value);
  }

  /** Repairs, applies and reboots. */
  predicate Disruptive(e: Event) {
    e.RepairCalled? || e.ApplyCalled? || e.RebootCalled?
  }

  lemma DisruptionIsGuarded(s: Sys, e: Event)
    requires Ok(s, e) && Disruptive(e)
    ensures HasGate(s, WindowGate) && Next(s, e).proc == Some(NextProc(s.proc.value, e))
    ensures NextProc(s.proc.value, e).vetted == s.proc.value.window
  {
    hide DeliveryOk, SaveOk;
    NoteNext(s, e);
    hide Next;
  }

  /**
   Nothing disruptive is done but inside a window, for an estimate, that a check passed since the last hook and wait;
   that window and that estimate are what the process remembers of it.
   */
  lemma DisruptionIsVetted(s0: Sys, log: seq<Event>, k: nat)
    requires Legal(s0, log) && k < |log| && Disruptive(log[k])
    ensures var p := At(s0, log, k + 1).proc;
      p.Some? && p.value.vetted.Some? && FreshlyVetted(log, k, p.value.vetted.value)
  {
    hide Inv, Ok, Next, HasGate, FreshlyVetted;
    Reachable(s0, log, k);
    DisruptionIsGuarded(At(s0, log, k), log[k]);
    WindowIsVetted(s0, log, k);
  }

  /** The hooks of the point ran, and none asked to abort. */
  predicate Ran(e: Event, h: HookPoint) {
    e == HookRan(h, false)
  }

  /** The hooks of a point ran in this process before position `k`, without asking to abort. */
  ghost predicate HookedInProcess(log: seq<Event>, k: nat, h: HookPoint)
    requires k <= |log|
  {
    exists a :: 0 <= a < k && Ran(log[a], h) && forall b | a < b < k :: !log[b].Began?
  }

  predicate HasHook(s: Sys, h: HookPoint) {
    s.proc.Some? && h in s.proc.value.hooks
  }

  lemma HookNote(p: Proc, e: Event, h: HookPoint)
    requires IsNote(e) && h in NextProc(p, e).hooks
    ensures Ran(e, h) || h in p.hooks
  {
  }

  lemma HookStep(s: Sys, e: Event, h: HookPoint)
    requires HasHook(Next(s, e), h)
    ensures Ran(e, h) || (HasHook(s, h) && !e.Began?)
  {
    hide NextProc;
    if IsNote(e) && s.proc.Some? {
      NoteNext(s, e);
      HookNote(s.proc.value, e, h);
      hide Next;
    }
  }

  lemma {:induction false} HooksRan(s0: Sys, log: seq<Event>, k: nat, h: HookPoint)
    requires Legal(s0, log) && k <= |log| && HasHook(At(s0, log, k), h)
    ensures HookedInProcess(log, k, h)
  {
    hide Ok, Next, HasHook;
    if k == 0 {
      NoHookAtStart(s0, h);
    } else {
      HookStep(At(s0, log, k - 1), log[k - 1], h);
      if !Ran(log[k - 1], h) {
        HooksRan(s0, log, k - 1, h);
        var a :| 0 <= a < k - 1 && Ran(log[a], h) && forall b | a < b < k - 1 :: !log[b].Began?;
        assert forall b | a < b < k :: !log[b].Began?;
      }
    }
  }

  lemma NoHookAtStart(s0: Sys, h: HookPoint)
    requires Start(s0)
    ensures !HasHook(s0, h)
  {
  }

  /** The record a reboot command may be issued on: durable, whatever happens. */
  predicate ReadyToReboot(s: Sys, r: string) {
    && OnCycle(s, r, REBOOTING) && s.past == {} && s.unitEnabled
    && var d := s.cell.cycle;
       && SameBoot(s, d) && d.bootIdAfter.None? && Truthy(d.rebootInitiatedAt)
       && 1 <= d.rebootAttempts <= s.maxAttempts
  }

  predicate GuardsReboot(g: Gate) {
    g.PolicyGate? || g.UsersGate? || g.WindowGate? || g.ResumePathGate?
  }

  lemma CommandGates(s: Sys, r: string, g: Gate)
    requires Ok(s, RebootCalled(r)) && GuardsReboot(g)
    ensures HasGate(s, g) && HasHook(s, BeforeReboot)
  {
    hide SaveOk, DeliveryOk;
  }

  lemma CommandIsReady(s: Sys, r: string)
    requires Inv(s) && Ok(s, RebootCalled(r))
    ensures ReadyToReboot(s, r)
  {
    hide WellFormed, TrailOk, TruthOk, SaveOk, DeliveryOk, ArchiveOk, BootsOk;
  }

  /** Every reboot command, first try or retry, finds durable facts and freshly passed gates. */
  lemma RebootGatesAreFresh(s0: Sys, log: seq<Event>, k: nat, r: string)
    requires Legal(s0, log) && k < |log| && log[k] == RebootCalled(r)
    ensures ReadyToReboot(At(s0, log, k), r)
    ensures forall g | GuardsReboot(g) :: FreshlyPassed(log, k, g)
    ensures HookedInProcess(log, k, BeforeReboot)
  {
    hide Inv, Ok, Next, At, HasGate, HasHook, FreshlyPassed, HookedInProcess, ReadyToReboot;
    Reachable(s0, log, k);
    CommandIsReady(At(s0, log, k), r);
    forall g | GuardsReboot(g) ensures FreshlyPassed(log, k, g) {
      CommandGates(At(s0, log, k), r, g);
      GatesAreFresh(s0, log, k, g);
    }
    CommandGates(At(s0, log, k), r, PolicyGate);
    HooksRan(s0, log, k, BeforeReboot);
  }

  predicate GuardsApply(g: Gate) {
    g.PreflightGate? || g.WindowGate?
  }

  lemma ApplyGates(s: Sys, r: string, g: Gate)
    requires Ok(s, ApplyCalled(r)) && GuardsApply(g)
    ensures HasGate(s, g) && HasHook(s, BeforeUpgrade)
    ensures OnCycle(s, r, UPGRADING) && !s.cell.cycle.updatesApplied && SameBoot(s, s.cell.cycle) && s.past == {}
  {
    hide SaveOk, DeliveryOk;
  }

  /** No package is touched without a preflight and a window check taken after the last hook and wait. */
  lemma ApplyGatesAreFresh(s0: Sys, log: seq<Event>, k: nat, r: string)
    requires Legal(s0, log) && k < |log| && log[k] == ApplyCalled(r)
    ensures OnCycle(At(s0, log, k), r, UPGRADING) && !At(s0, log, k).cell.cycle.updatesApplied
    ensures At(s0, log, k).past == {}
    ensures SameBoot(At(s0, log, k), At(s0, log, k).cell.cycle)
    ensures forall g | GuardsApply(g) :: FreshlyPassed(log, k, g)
    ensures HookedInProcess(log, k, BeforeUpgrade)
  {
    hide Inv, Ok, Next, At, HasGate, HasHook, FreshlyPassed, HookedInProcess, OnCycle, SameBoot;
    Reachable(s0, log, k);
    forall g | GuardsApply(g) ensures FreshlyPassed(log, k, g) {
      ApplyGates(At(s0, log, k), r, g);
      GatesAreFresh(s0, log, k, g);
    }
    ApplyGates(At(s0, log, k), r, WindowGate);
    HooksRan(s0, log, k, BeforeUpgrade);
  }

  predicate GuardsPrecheck(g: Gate) {
    g.RootGate? || g.SpaceGate? || g.PreflightGate?
  }

  /** A step of a cycle out of PRECHECK other than into failure. */
  predicate LeavesPrecheck(s: Sys, e: Event) {
    e.Saved? && s.cell.Rec? && s.cell.cycle.state.PRECHECK? && !e.cycle.state.FAILED?
  }

  lemma PrecheckGates(s: Sys, e: Event, g: Gate)
    requires Ok(s, e) && LeavesPrecheck(s, e) && GuardsPrecheck(g)
    ensures HasGate(s, g)
  {
    hide WellFormed, Arc, Doomed;
  }

  /** No cycle leaves PRECHECK but as root, with disk space, and with a preflight passed since the last wait. */
  lemma PrecheckGatesAreFresh(s0: Sys, log: seq<Event>, k: nat)
    requires Legal(s0, log) && k < |log| && LeavesPrecheck(At(s0, log, k), log[k])
    ensures forall g | GuardsPrecheck(g) :: FreshlyPassed(log, k, g)
  {
    hide Inv, Ok, Next, At, HasGate, FreshlyPassed, LeavesPrecheck;
    Reachable(s0, log, k);
    forall g | GuardsPrecheck(g) ensures FreshlyPassed(log, k, g) {
      PrecheckGates(At(s0, log, k), log[k], g);
      GatesAreFresh(s0, log, k, g);
    }
  }

  /** A preflight that passed, and reported this of a pending reboot. */
  predicate ReportsPending(e: Event, pending: bool) {
    e.GateChecked? && e.check.PreflightCheck? && Passed(e.check) && e.check.result.preExistingReboot == pending
  }

  /** Such a preflight, the last there was, with no hook, wait or other process since. */
  ghost predicate AsReported(log: seq<Event>, k: nat, pending: bool)
    requires k <= |log|
  {
    exists a :: 0 <= a < k && ReportsPending(log[a], pending)
                && forall b | a < b < k :: !Disturbs(log[b], PreflightGate) && !Tests(log[b], PreflightGate)
  }

  lemma PrecheckRecords(s: Sys, e: Event)
    requires Ok(s, e) && LeavesPrecheck(s, e)
    ensures e.Saved? && HasGate(s, PreflightGate) && s.proc.Some? && s.proc.value.reported.Some?
    ensures e.cycle.preExistingReboot == s.proc.value.reported.value.preExistingReboot
    ensures e.cycle.state.REFRESHING? || e.cycle.state.REBOOT_PENDING?
    ensures e.cycle.state.REBOOT_PENDING? ==> e.cycle.preExistingReboot && !e.cycle.initialRebootCompleted
  {
    hide WellFormed, Doomed;
  }

  /** What the record says of a pending reboot is what the last preflight or repair before it reported. */
  lemma PendingIsAsReported(s0: Sys, log: seq<Event>, k: nat)
    requires Legal(s0, log) && k < |log| && LeavesPrecheck(At(s0, log, k), log[k])
    ensures AsReported(log, k, log[k].cycle.preExistingReboot)
  {
    hide Inv, Ok, Next, At, HasGate, LeavesPrecheck, Disturbs, Tests;
    Reachable(s0, log, k);
    var s := At(s0, log, k);
    PrecheckRecords(s, log[k]);
    GatesAreBacked(s0, log, k, PreflightGate);
    var p := s.proc.value;
    var a :| 0 <= a < k && Backs(log[a], p, PreflightGate)
             && forall b | a < b < k :: !Disturbs(log[b], PreflightGate) && !Tests(log[b], PreflightGate);
    assert ReportsPending(log[a], log[k].cycle.preExistingReboot);
  }

  /** What a preflight, or a repair, found. */
  predicate Reveals(e: Event, r: PreflightResult) {
    e == GateChecked(PreflightCheck(r))
  }

  /** The last such finding of this process. */
  ghost predicate LastRevealed(log: seq<Event>, k: nat, r: PreflightResult)
    requires k <= |log|
  {
    exists a :: 0 <= a < k && Reveals(log[a], r)
                && forall b | a < b < k :: !log[b].Began? && !Tests(log[b], PreflightGate)
  }

  predicate Knows(s: Sys, r: PreflightResult) {
    s.proc.Some? && s.proc.value.reported == Some(r)
  }

  lemma RevealNote(p: Proc, e: Event, r: PreflightResult)
    requires NextProc(p, e).reported == Some(r)
    ensures Reveals(e, r) || (p.reported == Some(r) && !Tests(e, PreflightGate))
  {
  }

  lemma RevealStep(s: Sys, e: Event, r: PreflightResult)
    requires Ok(s, e) && Knows(Next(s, e), r)
    ensures Reveals(e, r) || (Knows(s, r) && !e.Began? && !Tests(e, PreflightGate))
  {
    hide Ok, NextProc;
    if IsNote(e) {
      NoteNext(s, e);
      hide Next;
      RevealNote(s.proc.value, e, r);
    } else if !e.Began? {
      LooksKept(s, e);
      hide Next;
    }
  }

  lemma {:induction false} ReportIsLast(s0: Sys, log: seq<Event>, k: nat, r: PreflightResult)
    requires Legal(s0, log) && k <= |log| && Knows(At(s0, log, k), r)
    ensures LastRevealed(log, k, r)
  {
    hide Ok, Next, Tests, Knows;
    if k == 0 {
      NothingKnown(s0, r);
    } else {
      assert Permitted(s0, log, k - 1);
      RevealStep(At(s0, log, k - 1), log[k - 1], r);
      if !Reveals(log[k - 1], r) {
        ReportIsLast(s0, log, k - 1, r);
        var a :| 0 <= a < k - 1 && Reveals(log[a], r)
                 && forall b | a < b < k - 1 :: !log[b].Began? && !Tests(log[b], PreflightGate);
        assert forall b | a < b < k :: !log[b].Began? && !Tests(log[b], PreflightGate);
      }
    }
  }

  lemma NothingKnown(s0: Sys, r: PreflightResult)
    requires Start(s0)
    ensures !Knows(s0, r)
  {
  }

  lemma RepairIsCalledFor(s: Sys, r: string)
    requires Ok(s, RepairCalled(r))
    ensures OnCycle(s, r, PRECHECK) && s.proc.Some? && s.proc.value.reported.Some?
    ensures var found := s.proc.value.reported.value; !found.ok && found.kind.InterruptedTransaction?
  {
    hide SaveOk, DeliveryOk;
  }

  /** Nothing is repaired but in PRECHECK, when the last preflight found a transaction interrupted. */
  lemma RepairFollowsInterruption(s0: Sys, log: seq<Event>, k: nat, r: string)
    requires Legal(s0, log) && k < |log| && log[k] == RepairCalled(r)
    ensures OnCycle(At(s0, log, k), r, PRECHECK)
    ensures exists found :: LastRevealed(log, k, found) && !found.ok && found.kind.InterruptedTransaction?
  {
    hide Inv, Ok, Next, At, OnCycle, LastRevealed;
    Reachable(s0, log, k);
    RepairIsCalledFor(At(s0, log, k), r);
    ReportIsLast(s0, log, k, At(s0, log, k).proc.value.reported.value);
  }

  // ------------------------------------------------------------ stale cycles

  /** Found recent, or created by the process itself. */
  predicate Admits(s: Sys, e: Event) {
    e == GateChecked(StalenessCheck(false)) || (e.Saved? && s.cell.Empty?)
  }

  /** In this process, the cycle was found recent or created. */
  ghost predicate Admitted(s0: Sys, log: seq<Event>, k: nat)
    requires k <= |log|
  {
    exists a :: 0 <= a < k && Admits(At(s0, log, a), log[a]) && forall b | a < b < k :: !log[b].Began?
  }

  lemma AdmissionNote(p: Proc, e: Event)
    requires IsNote(e) && FreshGate in NextProc(p, e).gates
    ensures e == GateChecked(StalenessCheck(false)) || FreshGate in p.gates
  {
  }

  lemma AdmissionStep(s: Sys, e: Event)
    requires HasGate(Next(s, e), FreshGate)
    ensures Admits(s, e) || (HasGate(s, FreshGate) && !e.Began?)
  {
    hide NextProc;
    if IsNote(e) && s.proc.Some? {
      NoteNext(s, e);
      AdmissionNote(s.proc.value, e);
      hide Next;
    }
  }

  lemma {:induction false} FreshIsAdmitted(s0: Sys, log: seq<Event>, k: nat)
    requires Legal(s0, log) && k <= |log| && HasGate(At(s0, log, k), FreshGate)
    ensures Admitted(s0, log, k)
  {
    hide Ok, Next, HasGate, Admits;
    if k == 0 {
      NoGateAtStart(s0, FreshGate);
    } else {
      AdmissionStep(At(s0, log, k - 1), log[k - 1]);
      if !Admits(At(s0, log, k - 1), log[k - 1]) {
        FreshIsAdmitted(s0, log, k - 1);
        var a :| 0 <= a < k - 1 && Admits(At(s0, log, a), log[a]) && forall b | a < b < k - 1 :: !log[b].Began?;
        assert forall b | a < b < k :: !log[b].Began?;
      }
    }
  }

  lemma WorkNeedsAdmission(s: Sys, e: Event)
    requires Ok(s, e) && e.Saved? && s.cell.Rec? && !e.cycle.state.FAILED?
    ensures HasGate(s, FreshGate)
  {
    hide Edit, WellFormed;
  }

  /** A stale cycle is only ever failed: any other save of a stored cycle is by a process that found it recent. */
  lemma StaleIsOnlyFailed(s0: Sys, log: seq<Event>, k: nat)
    requires Legal(s0, log) && k < |log| && log[k].Saved? && At(s0, log, k).cell.Rec?
    requires !log[k].cycle.state.FAILED?
    ensures Admitted(s0, log, k)
  {
    hide Inv, Ok, Next, At, HasGate, Admitted;
    Reachable(s0, log, k);
    WorkNeedsAdmission(At(s0, log, k), log[k]);
    FreshIsAdmitted(s0, log, k);
  }

  // --------------------------------------------------------- proof of reboot

  /** A boot strictly before the current one. */
  ghost predicate EarlierBoot(boots: seq<string>, id: string) {
    exists e :: 0 <= e < |boots| - 1 && boots[e] == id
  }

  /** POST_REBOOT is only ever held on a later boot than the recorded one. */
  lemma PostRebootIsLater(s0: Sys, log: seq<Event>, k: nat)
    requires Legal(s0, log) && k <= |log|
    requires var s := At(s0, log, k); s.cell.Rec? && s.cell.cycle.state.POST_REBOOT?
    ensures var s := At(s0, log, k);
      s.cell.cycle.bootIdBefore.Some? && EarlierBoot(s.boots, s.cell.cycle.bootIdBefore.value)
  {
    Reachable(s0, log, k);
  }

  /** Leaving POST_REBOOT for more work proves a later boot and, when one is expected, its kernel. */
  lemma RebootIsProved(s0: Sys, log: seq<Event>, k: nat)
    requires Legal(s0, log) && k < |log| && log[k].Saved?
    requires var s := At(s0, log, k); s.cell.Rec? && s.cell.cycle.state.POST_REBOOT?
    requires log[k].cycle.state.VERIFYING? || log[k].cycle.state.PRECHECK?
    ensures var s := At(s0, log, k); var d := s.cell.cycle;
      && d.bootIdBefore.Some? && EarlierBoot(s.boots, d.bootIdBefore.value)
      && d.bootIdAfter == Some(Current(s))
      && KernelAsExpected(s, d)
  {
    var s := At(s0, log, k);
    Reachable(s0, log, k);
    PostRebootIsLater(s0, log, k);
    EditKeepsSound(s, s.proc.value, s.cell.cycle, log[k].cycle);
    hide WellFormed, TrailOk, TruthOk, PhaseOk, Edit, WorkFacts, ReportFacts;
  }
}
