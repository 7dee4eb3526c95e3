/**
 Everything outside a PatchCycle process: disk, boot, package manager, users, clock, notifiers.
 Every effect appends to the log only events the protocol allows. After any effect the process may die;
 most effects may also raise. Results of providers, health checks, hooks and notifiers are arbitrary.
 The state directory is a volume of `Disk`; loads, saves and archivings are those of `Disk.Store`.
 */
module Environment {
  import opened Wrappers
  import opened States
  import opened Records
  import opened Outcomes
  import opened Protocol
  import opened Invariants
  import opened Edges
  import opened Accounts
  import opened Refinement
  import Disk
  import Window

  lemma StillRunning(s: Sys, e: Event)
    requires s.proc.Some? && !e.Ended?
    ensures Next(s, e).proc.Some?
  {
  }

  lemma SavedShape(s: Sys, c: CycleState, settled: bool)
    requires s.proc.Some?
    ensures var t := Next(s, Saved(c, settled));
      && Kept(s, t) && t.cell == Rec(c) && t.past == Older(s, settled)
      && t.proc.value.finishing == Terminal(c.state)
      && (settled && s.cell.Rec? && s.cell.cycle.rebootAttempts < c.rebootAttempts ==> t.proc.value.paid)
  {
  }

  lemma SavedKeepsShelves(s: Sys, c: CycleState, settled: bool)
    requires s.proc.Some?
    ensures var t := Next(s, Saved(c, settled)); Same(t.history, s.history) && Same(t.fading, s.fading)
  {
  }

  lemma MaxAttemptsKept(s: Sys, e: Event)
    ensures Next(s, e).maxAttempts == s.maxAttempts
  {
  }

  lemma PutShape(s: Sys, c: CycleState, settled: bool)
    requires Finished(s, c)
    ensures Ok(s, HistoryPut(c, settled))
    ensures var t := Next(s, HistoryPut(c, settled));
      && t.proc == Some(s.proc.value.(finishing := false)) && Same(t.cell, Rec(c)) && Same(t.cell, s.cell)
      && Same(t.past, s.past)
      && Same(t.history, s.history[c.runId := c]) && t.fading == (if settled then {} else s.fading + {s.history})
      && t.used == s.used
  {
    hide SaveOk, DeliveryOk;
  }

  lemma RemovalShape(s: Sys, c: CycleState, settled: bool)
    requires s.proc.Some? && Same(s.cell, Rec(c)) && s.fading == {} && c.runId in s.history && s.history[c.runId] == c
    ensures Ok(s, ActiveRemoved(settled))
    ensures var t := Next(s, ActiveRemoved(settled));
      && t.cell == Empty && t.past == Older(s, settled) && Same(t.history, s.history) && Same(t.fading, s.fading)
      && t.proc == Some(NoWork(s.proc.value)) && t.used == s.used
  {
    hide SaveOk, DeliveryOk;
  }

  lemma PurgedShape(s: Sys)
    requires s.proc.Some?
    ensures var t := Next(s, Purged);
      && t.cell == Empty && t.past == s.past + {s.cell} && t.history == map[] && t.fading == s.fading + {s.history}
      && t.proc.Some? && t.unitEnabled == s.unitEnabled
  {
  }

  lemma StillNobody(s: Sys, e: Event)
    requires s.proc.None? && (e.Tampered? || e.OperatorCleared?)
    ensures Next(s, e).proc.None? && Ok(s, e)
  {
  }

  lemma MayReturn(s: Sys, t: Sys, run: string, result: ApplyResult)
    requires s.proc.Some? && OkIn(s, s.proc.value, ApplyCalled(run)) && SameEnv(s, t)
    requires t.proc == Some(NextProc(s.proc.value, ApplyCalled(run)))
    ensures OkIn(t, t.proc.value, ApplyReturned(run, result))
  {
    hide SaveOk, DeliveryOk;
  }

  // What notes make of a process.

  lemma CalledPreflight(p: Proc)
    ensures var q := NextProc(p, PreflightCalled);
      && SameRole(p, q) && SameFinds(p, q) && Same(q.hooks, p.hooks) && q.paid == p.paid && q.slept == p.slept
      && q.inspected == p.inspected + {PreflightInspection} && q.gates - {PreflightGate} == p.gates - {PreflightGate}
  {
  }

  lemma FoundPreflight(p: Proc, r: PreflightResult)
    ensures var q := NextProc(p, GateChecked(PreflightCheck(r)));
      && SameRole(p, q) && SameFinds(p, q) && Same(q.hooks, p.hooks) && q.paid == p.paid && q.slept == p.slept
      && Same(q.inspected, p.inspected) && q.gates - {PreflightGate} == p.gates - {PreflightGate}
      && q.reported == Some(r) && (r.ok ==> PreflightGate in q.gates) && q.vetted == p.vetted
  {
  }

  lemma CalledRepair(p: Proc, run: string)
    ensures var q := NextProc(p, RepairCalled(run));
      SameDuties(p, q) && q.slept == p.slept && q.vetted == p.window
  {
  }

  lemma VerdictNoted(p: Proc, v: VerifyResult)
    ensures var q := NextProc(p, VerifyCalled); SameRole(p, q) && q.inspected == p.inspected + {VerifyInspection}
    ensures var q := NextProc(p, VerifyReturned(v));
      SameRole(p, q) && Same(q.inspected, p.inspected) && q.verified == Some(v)
  {
  }

  lemma CalledApply(p: Proc, run: string, r: ApplyResult)
    ensures var q := NextProc(p, ApplyCalled(run));
      && q.entry == p.entry && q.loaded == p.loaded && q.applying && Same(q.hooks, p.hooks) && Same(q.gates, p.gates)
      && q.vetted == p.window
    ensures var q := NextProc(p, ApplyReturned(run, r));
      && q.entry == p.entry && q.loaded == p.loaded && q.applying == p.applying && Same(q.hooks, p.hooks)
      && Same(q.gates, p.gates) && q.vetted == p.vetted && q.applied == Some(r)
  {
  }

  lemma TookReport(p: Proc, run: string, n: Name, o: Outcome, answer: Option<string>)
    ensures var q := NextProc(p, Delivered(run, n, o, answer));
      && SameRole(p, q) && Same(q.hooks, p.hooks) && q.slept == p.slept && (answer == Some(SENT) ==> (run, n) in q.sent)
  {
  }

  lemma RolesJoin(p: Proc, q: Proc, r: Proc)
    requires SameRole(p, q) && SameRole(q, r)
    ensures SameRole(p, r)
  {
  }

  lemma DutiesJoin(p: Proc, q: Proc, r: Proc)
    requires SameDuties(p, q) && SameRole(q, r)
    ensures SameDuties(p, r)
  {
  }

  lemma FindsJoin(p: Proc, q: Proc, r: Proc)
    requires SameFinds(p, q) && SameFinds(q, r)
    ensures SameFinds(p, r)
  {
  }

  lemma MayPurgeStore(s: Sys)
    requires s.proc.Some? && OkIn(s, s.proc.value, Purged)
    ensures Ok(s, Purged) && !s.cell.Unreadable()
  {
    hide SaveOk, DeliveryOk;
  }

  lemma QuarantineShape(s: Sys, settled: bool)
    requires s.proc.Some? && s.cell.Bad?
    ensures Ok(s, Quarantined(settled))
    ensures var t := Next(s, Quarantined(settled));
      && t.cell.Aside? && t.past == Older(s, settled) && Same(t.history, s.history) && Same(t.fading, s.fading)
      && Same(t.proc, s.proc) && t.unitEnabled == s.unitEnabled
  {
    hide SaveOk, DeliveryOk;
  }

  lemma SilentKeepsStore(s: Sys, e: Event)
    requires Silent(e)
    ensures SameStore(s, Next(s, e))
  {
    SilentNext(s, e);
    hide Next;
  }

  /** The machine is on a new boot, with a state directory and an archive it may have come back with. */
  ghost predicate CameBack(s: Sys, t: Sys) {
    && |t.boots| == |s.boots| + 1 && Current(t) !in s.boots
    && t.cell in Possible(s) && t.past == {} && t.history in Shelves(s) && t.fading == {}
    && t.used == s.used && t.unitEnabled == s.unitEnabled
  }

  /** A note that changes nothing. */
  lemma Untouched(s: Sys, t: Sys)
    requires s.proc.Some? && t.proc == s.proc && SameEnv(s, t)
    ensures Same(t, s)
  {
  }

  lemma KeptAsIs(s: Sys)
    requires s.proc.Some?
    ensures Kept(s, s)
  {
  }

  datatype Fate = Fine | Breaks | Dies

  class World {
    const maxAttempts: nat
    ghost const start: Sys
    ghost var log: seq<Event>
    var sys: Sys
    var volume: Disk.Volume

    /** What the log tells is what there is. Worded so that a proof sees inside only where it says `Lived`. */
    ghost predicate Valid()
      reads this
    {
      forall k | |log| <= k <= |log| :: Lived(k)
    }

    ghost predicate Lived(k: nat)
      reads this
    {
      && k == |log| && Legal(start, log) && sys == At(start, log, k) && Inv(sys) && sys.maxAttempts == maxAttempts
      && Matches(sys, volume)
    }

    predicate Alive()
      reads this
    {
      sys.proc.Some?
    }

    /** The process holding the lock. */
    function P(): Proc
      reads this
      requires Alive()
    {
      sys.proc.value
    }

    ghost predicate Ready()
      reads this
    {
      Valid() && Alive()
    }

    /** Only the process's own notes changed: the record, the archive and the machine did not. */
    twostate predicate OnlyProc()
      reads this
    {
      SameEnv(old(sys), sys) && Safer(old(sys), sys)
    }

    lemma Lives()
      requires Valid()
      ensures Legal(start, log) && sys == At(start, log, |log|) && Inv(sys) && sys.maxAttempts == maxAttempts
      ensures Matches(sys, volume) && volume.state != [] && volume.history != []
    {
      hide Inv, Legal, At, Disk.DirOk, Copied, MayBe, MayHold, Disk.Seen;
      assert Lived(|log|);
    }

    /** Facts of the stored record a process may rely on. */
    lemma Knows(c: CycleState)
      requires Ready() && Stored(sys, c)
      ensures WellFormed(c)
      ensures c.state.POST_REBOOT? ==> !SameBoot(sys, c) && (c.rebootBeforeUpdates ==> !c.initialRebootCompleted)
      ensures BeforeRebooting(c.state) || c.state.REBOOTING? || c.state.POST_REBOOT? ==> Truthy(c.bootIdBefore)
      ensures BeforeRebooting(c.state) || c.state.PRECHECK? || c.state.REBOOTING? ==> c.bootIdAfter.None?
      ensures c.state.POST_REBOOT? && c.bootIdAfter.Some? ==> Truthy(c.bootIdAfter)
      ensures c.bootIdBefore.Some? ==> Truthy(c.bootIdBefore)
      ensures c.state.UPGRADING? ==> !c.rebootBeforeUpdates
      ensures c.state.COMPLETED? ==> c.outcome == Some(FinalOutcome(c))
      ensures Current(sys) != ""
    {
      hide Inv, Legal, WellFormed, Stored, Matches;
      Lives();
      StoredFacts(sys, c);
    }

    /** An unfinished record that was loaded may be worked on. */
    lemma Unfinished(c: CycleState)
      requires Ready() && P().loaded && IsEngine(P()) && Same(sys.cell, Rec(c)) && !Terminal(c.state)
      ensures Stored(sys, c)
    {
      hide World.Valid;
      NotIdle(c);
    }

    lemma NotIdle(c: CycleState)
      requires Ready() && Same(sys.cell, Rec(c))
      ensures !c.state.IDLE?
    {
      hide Legal, WellFormed, TrailOk, TruthOk, ArchiveOk, PastOk, Anchored, ProcOk, Next, Ok, At, Matches;
      Lives();
    }

    constructor (s0: Sys)
      requires Start(s0)
      ensures Valid() && log == [] && start == s0 && Same(sys, s0)
    {
      maxAttempts := s0.maxAttempts;
      start := s0;
      log := [];
      sys := s0;
      volume := NewVolume();
      new;
      NewMatches(s0);
      hide Inv, Matches;
      Reachable(s0, [], 0);
    }

    /** An event takes place, and leaves the volume as `v`. */
    method Record(e: Event, v: Disk.Volume)
      requires Valid() && Ok(sys, e) && Matches(Next(sys, e), v)
      modifies this
      ensures Valid() && Same(sys, Next(old(sys), e)) && log == old(log) + [e] && Grew(old(log), log) && volume == v
    {
      hide Next, Ok, Inv, Legal, Matches;
      Lives();
      LegalAppend(start, log, e);
      StepKeepsInv(sys, e);
      MaxAttemptsKept(sys, e);
      log := log + [e];
      sys := Next(sys, e);
      volume := v;
    }

    /** An event takes place that leaves the store alone. */
    method Emit(e: Event)
      requires Valid() && Ok(sys, e) && Silent(e)
      modifies this
      ensures Valid() && Same(sys, Next(old(sys), e)) && log == old(log) + [e] && Grew(old(log), log)
    {
      hide Next, Ok, Inv, Legal, Matches;
      Lives();
      SilentKeepsStore(sys, e);
      StoreCarries(sys, Next(sys, e), volume);
      Record(e, volume);
    }

    /** The volume changed in a way no load can tell. */
    method Settle(v: Disk.Volume)
      requires Valid() && Matches(sys, v)
      modifies this`volume
      ensures Valid() && volume == v
    {
      hide Inv, Legal, At, Matches;
      Lives();
      volume := v;
    }

    method ChooseFate() returns (f: Fate) {
      f := *;
    }

    method Die()
      requires Ready()
      modifies this
      ensures Valid() && !Alive() && Grew(old(log), log)
    {
      hide Inv, Legal, Matches, World.Valid;
      Emit(Ended(true));
    }

    // ---- process life and the machine around it ----

    method Begin(entry: Entry)
      requires Valid() && !Alive()
      modifies this
      ensures Ready() && sys == old(sys).(proc := Some(NewProc(entry)))
    {
      hide Inv, Legal, Matches, World.Valid;
      Emit(Began(entry));
    }

    method End()
      requires Ready()
      modifies this
      ensures Valid() && sys == old(sys).(proc := None)
    {
      hide Inv, Legal, Matches, World.Valid;
      Emit(Ended(false));
    }

    /** The power goes; the machine comes up with one of the states each directory may be in. */
    method PowerCycle()
      requires Valid() && !Alive()
      modifies this
      ensures Valid() && !Alive()
      ensures Same(sys, old(sys)) || CameBack(old(sys), sys)
    {
      hide Inv, Legal, At, Like, Copied, Disk.Seen, Disk.Sane, Disk.SameCopies, Disk.AllRefused, Disk.Evidence,
           Disk.Kept, Disk.Clean;
      Lives();
      var id: string, kernel: string := *, *;
      if !Fresh(sys, id) {
        return;
      }
      var store := new Disk.Store(volume);
      store.LosePower();
      var d, h := store.v.state[0], store.v.history[0];
      PowerLossFinds(sys, volume, store.v);
      var found :| found in Possible(sys) && Like(found, Disk.Seen(store.v, d));
      var shelf :| shelf in Shelves(sys) && Copied(store.v, h, shelf);
      var e := Booted(id, kernel, found, shelf);
      PowerLossMatches(Next(sys, e), store.v);
      Record(e, store.v);
      assert CameBack(old(sys), sys);
    }

    /** Somebody else makes the state file unreadable; what is in quarantine stays there. */
    method Tamper()
      requires Valid() && !Alive()
      modifies this
      ensures Valid() && !Alive()
    {
      hide World.Valid, Inv, Legal, At, Matches, Damaged, Next;
      var newer: bool, settled: bool := *, *;
      if !sys.cell.Aside? {
        Lives();
        DamageMatches(sys, volume, newer, settled);
        StillNobody(sys, Tampered(newer, settled));
        Record(Tampered(newer, settled), Damaged(volume, Unreadable(newer), settled));
      }
    }

    method OperatorRecovers()
      requires Valid() && !Alive()
      modifies this
      ensures Valid() && !Alive()
    {
      hide World.Valid, Inv, Legal, At, Matches, Cleared, Next;
      if !sys.cell.Rec? {
        Lives();
        ClearedMatches(sys, volume);
        StillNobody(sys, OperatorCleared);
        Record(OperatorCleared, Cleared(volume));
      }
    }

    // ---- clock and identities: reads without effect ----

    method NowIso() returns (t: string)
      ensures t != ""
    {
      t := *;
      if t == "" {
        t := "1970-01-01T00:00:00Z";
      }
    }

    /** Seconds since the reboot was initiated; 600 when a timestamp does not parse. */
    method Elapsed() returns (seconds: int)
      requires Ready()
      modifies this
      ensures Ready() && OnlyProc() && P() == old(P()) && Grew(old(log), log)
      ensures seconds >= 600 ==> Since(log, old(|log|), Because(RebootError))
      ensures Since(log, old(|log|), LookedBack(seconds))
    {
      hide World.Valid, Inv, Legal, Next, Ok, OkIn, At, Recoverable, Grew, Since;
      seconds := *;
      SinceNow(log, Aged(seconds), LookedBack(seconds));
      if seconds >= 600 {
        SinceNow(log, Aged(seconds), Because(RebootError));
      }
      MayLook(Aged(seconds));
      Note(Aged(seconds));
    }

    /** The attempts on record, against the budget. */
    method BudgetSpent(c: CycleState) returns (spent: bool)
      requires Ready() && sys.cell.Rec? && Same(sys.cell, Rec(c))
      modifies this
      ensures Ready() && OnlyProc() && P() == old(P()) && Grew(old(log), log)
      ensures spent <==> c.rebootAttempts >= maxAttempts
      ensures spent ==> Since(log, old(|log|), Because(RebootError))
    {
      hide World.Valid, Inv, Legal, Next, Ok, At, Recoverable, Grew, Since;
      assert sys.maxAttempts == maxAttempts by {
        Lives();
      }
      spent := c.rebootAttempts >= maxAttempts;
      var e := Counted(c.rebootAttempts, maxAttempts);
      if spent {
        SinceNow(log, e, Because(RebootError));
      }
      hide Shows;
      Note(e);
    }

    /** Notes that need no permission. */
    predicate Harmless(e: Event) {
      || e.Aged? || e.Identified? || e.Refreshed? || e.Listed? || e.Probed? || e.HealthReturned? || e.PreflightCalled?
      || e.VerifyCalled? || e.VerifyReturned? || e.HookRan? || e.Slept? || e.Threw? || e.LoadRefused?
      || e.CommandBroke? || (e.GateChecked? && !e.check.ResumePathCheck? && !e.check.PolicyCheck?)
    }

    lemma MayLook(e: Event)
      requires Alive() && Harmless(e)
      ensures OkIn(sys, P(), e)
    {
    }

    /** `provider.os_identity`: the os facts recorded, and the running kernel. */
    method Identity() returns (id: OsIdentity)
      requires Ready()
      modifies this
      ensures Ready() && OnlyProc() && Same(P(), old(P()).(identity := Some(id))) && Grew(old(log), log)
    {
      hide World.Valid, Inv, Legal, Next, Ok, OkIn, At, Recoverable, Grew;
      id := *;
      MayLook(Identified(id));
      Note(Identified(id));
    }

    method Text() returns (t: string) {
      t := *;
    }

    method Flag() returns (b: bool) {
      b := *;
    }

    /** A fresh run id. A collision is not modelled: the process counts as killed. */
    method Uuid() returns (r: Result<string, Trouble>)
      requires Ready()
      modifies this
      ensures Valid() && (Dead(r) <==> !Alive()) && Grew(old(log), log)
      ensures r.Success? ==> Same(sys, old(sys)) && ValidRunId(r.value) && r.value !in sys.used
      ensures r.Failure? ==> r.error.Died?
    {
      LogsGrow();
      var id: string := *;
      if ValidRunId(id) && id !in sys.used {
        r := Success(id);
      } else {
        Die();
        r := Failure(Died);
      }
    }

    /** `boot_id_reader`: the current boot ID, unless reading it raises. */
    method BootId() returns (r: Result<string, Trouble>)
      requires Ready()
      modifies this
      ensures Valid() && (Dead(r) <==> !Alive()) && Grew(old(log), log)
      ensures Alive() ==> Same(sys, old(sys))
      ensures r.Success? ==> r.value == Current(sys) && log == old(log)
      ensures Unexpected(r) && Accounted(log, old(|log|), r)
    {
      hide World.Valid, Inv, Legal, Grew, Since;
      LogsGrow();
      var fate := ChooseFate();
      match fate {
        case Fine => r := Success(Current(sys));
        case Breaks => Throw(); r := Failure(Raised(OtherException));
        case Dies => Die(); r := Failure(Died);
      }
    }

    /** The record's boot is held against the current one. */
    method Hold(c: CycleState)
      requires Ready() && Same(sys.cell, Rec(c))
      modifies this
      ensures Ready() && Same(sys, old(sys)) && Grew(old(log), log)
      ensures Barred(P().entry, c, Current(sys)) ==> Since(log, old(|log|), Because(Diagnosis("unexpected-reboot")))
    {
      hide World.Valid, Inv, Legal, Next, Ok, At, Recoverable, Grew, Since, Barred;
      ghost var before := sys;
      var e := Compared(P().entry, c, Current(sys));
      if Barred(P().entry, c, Current(sys)) {
        SinceNow(log, e, Because(Diagnosis("unexpected-reboot")));
      }
      hide Shows;
      Note(e);
      Untouched(before, sys);
    }

    /** Boot and kernel are read to see whether the reboot of the record took place. */
    method Confirm(c: CycleState) returns (r: Result<string, Trouble>)
      requires Ready() && Same(sys.cell, Rec(c))
      modifies this
      ensures Valid() && (Dead(r) <==> !Alive()) && Grew(old(log), log)
      ensures Alive() ==> Same(sys, old(sys))
      ensures r.Success? ==> r.value == Current(sys)
      ensures r.Success? && Unconfirmed(c, Current(sys), sys.kernel) ==>
        Since(log, old(|log|), Because(RebootError))
      ensures Unexpected(r) && Accounted(log, old(|log|), r)
    {
      hide World.Valid, Inv, Legal, Next, Ok, At, Recoverable, Grew, Since, Unconfirmed;
      LogsGrow();
      ghost var before := sys;
      var e := Confirmed(c, Current(sys), sys.kernel);
      if Unconfirmed(c, Current(sys), sys.kernel) {
        SinceNow(log, e, Because(RebootError));
      }
      hide Shows;
      var current :- BootId();
      Note(e);
      Untouched(before, sys);
      r := Success(current);
    }

    // ---- effects ----

    /** Emit `e`; then go on, or die. */
    method Effect(e: Event) returns (r: Result<(), Trouble>)
      requires Ready() && Ok(sys, e) && Silent(e) && !e.Ended?
      modifies this
      ensures Valid() && (Dead(r) <==> !Alive()) && Grew(old(log), log)
      ensures Alive() ==> Same(sys, Next(old(sys), e))
      ensures r.Failure? ==> r.error.Died?
    {
      hide World.Valid, Inv, Legal, Ok, OkIn, Next, At, Grew;
      LogsGrow();
      Emit(e);
      StillRunning(old(sys), e);
      var dies: bool := *;
      if dies {
        Die();
        return Failure(Died);
      }
      r := Success(());
    }

    /** An event that only the process remembers. */
    method Note(e: Event)
      requires Ready() && IsNote(e) && OkIn(sys, P(), e)
      modifies this
      ensures Ready() && OnlyProc() && P() == NextProc(old(P()), e) && log == old(log) + [e] && Grew(old(log), log)
    {
      hide World.Valid, Inv, Legal, OkIn, NextProc, Next, At, Recoverable;
      NoteNext(sys, e);
      NoteIsSafe(sys, e);
      Emit(e);
    }

    /** Something raised, nobody knows what. */
    method Throw()
      requires Ready()
      modifies this
      ensures Ready() && Same(sys, old(sys)) && log == old(log) + [Threw] && Grew(old(log), log)
      ensures Since(log, old(|log|), Because(OtherException))
    {
      hide World.Valid, Inv, Legal, OkIn, Next, At, Recoverable, Grew, Since;
      ghost var before := sys;
      SinceNow(log, Threw, Because(OtherException));
      MayLook(Threw);
      Note(Threw);
      Untouched(before, sys);
    }

    /** An event that only the process remembers, after which it goes on, sees an exception, or dies. */
    method Attempt(e: Event) returns (r: Result<(), Trouble>)
      requires Ready() && IsNote(e) && OkIn(sys, P(), e)
      modifies this
      ensures Valid() && (Dead(r) <==> !Alive()) && Grew(old(log), log) && Grew(old(log) + [e], log)
      ensures Alive() ==> OnlyProc() && P() == NextProc(old(P()), e)
      ensures r.Success? ==> log == old(log) + [e]
      ensures Unexpected(r) && Accounted(log, old(|log|), r)
    {
      hide World.Valid, Inv, Legal, OkIn, NextProc, Next, Ok, At, Recoverable, Grew, Since;
      LogsGrow();
      Note(e);
      var fate := ChooseFate();
      match fate {
        case Fine => r := Success(());
        case Breaks => Throw(); r := Failure(Raised(OtherException));
        case Dies => Die(); r := Failure(Died);
      }
    }

    /** `store.load`: the record or nothing; corruption is quarantined and refused, a newer schema only refused. */
    method Load() returns (r: Result<Option<CycleState>, Trouble>)
      requires Ready()
      modifies this
      ensures Valid() && (Dead(r) <==> !Alive()) && Grew(old(log), log)
      ensures r.Success? ==>
        && OnlyProc() && P().loaded && P().entry == old(P().entry) && Same(P().inspected, old(P().inspected))
        && P().applying == old(P().applying) && Same(P().gates, old(P().gates)) && Same(P().hooks, old(P().hooks))
        && P().finishing == old(P().finishing) && (sys.cell.Rec? || sys.cell.Empty?)
        && Same(r.value, if sys.cell.Rec? then Some(sys.cell.cycle) else None)
      ensures r.Success? ==> Same(P(), old(P()).(loaded := true)) && Same(sys.cell, old(sys.cell))
      ensures r.Failure? && r.error.Raised? ==> r.error.exn.StateError? || r.error.exn.OtherException?
      ensures Accounted(log, old(|log|), r)
      ensures Alive() && r.Failure? ==>
        && P().loaded == old(P().loaded) && sys.unitEnabled == old(sys.unitEnabled)
        && Same(sys.history, old(sys.history))
        && (!old(sys.cell.Bad?) ==> Same(sys.cell, old(sys.cell)))
    {
      hide World.Valid, Inv, Legal, At, Next, Ok, OkIn, Recoverable, Grew, Since;
      LogsGrow();
      var fate := ChooseFate();
      if fate.Dies? {
        Die();
        return Failure(Died);
      }
      if fate.Breaks? {
        RefuseLoad();
        return Failure(Raised(StateError));
      }
      var found := LoadStore();
      if found.Failure? {
        if found.error == Raised(StateError) {
          RefuseLoad();
        } else if found.error.Raised? {
          Throw();
        }
        r := found;
        return;
      }
      MayLoad();
      Note(Loaded);
      r := found;
    }

    /** The store cannot be read, or what it holds is not to be used. */
    method RefuseLoad()
      requires Ready()
      modifies this
      ensures Ready() && Same(sys, old(sys)) && Grew(old(log), log)
      ensures Since(log, old(|log|), Because(StateError))
    {
      hide World.Valid, Inv, Legal, OkIn, Next, At, Recoverable, Grew, Since;
      ghost var before := sys;
      SinceNow(log, LoadRefused, Because(StateError));
      MayLook(LoadRefused);
      Note(LoadRefused);
      Untouched(before, sys);
    }

    lemma MayLoad()
      requires Alive() && !sys.cell.Unreadable()
      ensures OkIn(sys, P(), Loaded)
    {
    }

    /** What the store on disk makes of it. */
    method LoadStore() returns (r: Result<Option<CycleState>, Trouble>)
      requires Ready()
      modifies this
      ensures Valid() && (Dead(r) <==> !Alive()) && Grew(old(log), log)
      ensures r.Success? ==>
        && Same(sys, old(sys)) && !sys.cell.Unreadable()
        && Same(r.value, if sys.cell.Rec? then Some(sys.cell.cycle) else None)
      ensures r.Failure? && r.error.Raised? ==> r.error.exn.StateError? || r.error.exn.OtherException?
      ensures Alive() && r.Failure? ==>
        && P().loaded == old(P().loaded) && sys.unitEnabled == old(sys.unitEnabled)
        && Same(sys.history, old(sys.history))
        && (!old(sys.cell.Bad?) ==> Same(sys.cell, old(sys.cell)))
    {
      hide Inv, Legal, At, Next, Ok, OkIn, Disk.Seen, Disk.Widens, Disk.Only, Disk.AllRefused, Disk.Evidence, Disk.Sane,
           Disk.SameShelves, Disk.Rooted, Copied;
      Lives();
      var stamp: nat := *;
      var store := new Disk.Store(volume);
      var loaded := store.Load(stamp);
      assert loaded.Success? || loaded.error.StateTooNew? ==> store.v == volume;
      if loaded.Success? {
        return Success(loaded.value);
      }
      if loaded.error.StateTooNew? || !sys.cell.Bad? {
        return Failure(Raised(StateError));
      }
      QuarantineShape(sys, true);
      QuarantineShape(sys, false);
      if loaded.error.StateRefused? {
        OnlyMatches(sys, volume, Next(sys, Quarantined(true)), store.v, Disk.Refused);
        hide Matches;
        Record(Quarantined(true), store.v);
        return Failure(Raised(StateError));
      }
      if loaded.error.stop.replaced {
        RefusedIsSeen(store.v);
        WiderMatches(sys, volume, Next(sys, Quarantined(false)), store.v, Disk.Refused);
        hide Matches;
        Record(Quarantined(false), store.v);
      }
      if loaded.error.stop.killed {
        Die();
        return Failure(Died);
      }
      r := Failure(Raised(OtherException));
    }

    lemma RefusedIsSeen(v: Disk.Volume)
      requires Disk.Sane(v) && Disk.Quarantined(v.Visible(Disk.InState))
      ensures Disk.ReadsFile(v, v.Visible(Disk.InState)) && Disk.Sees(v) == Disk.Refused
    {
      Disk.VisibleReads(v);
    }

    /**
     `store.save`: however it ends, a load finds the old record or the new, now or after a power loss; returning
     means the new one for certain. `c` is what the process held before.
     */
    method Save(ghost c: CycleState, next: CycleState) returns (r: Result<(), Trouble>)
      requires Ready() && Owns(sys, c) && OkIn(sys, P(), Saved(next, true))
      requires next.runId == c.runId && !next.state.IDLE?
      modifies this
      ensures Valid() && (Dead(r) <==> !Alive()) && Grew(old(log), log)
      ensures Alive() ==>
        && Kept(old(sys), sys)
        && (Same(sys, old(sys)) || (Stored(sys, next) && sys.past == Older(old(sys), r.Success?)))
      ensures r.Success? ==> Stored(sys, next) && sys.past == {}
      ensures Alive() && old(Recoverable(sys, c.runId)) && Stays(c, next) ==> Recoverable(sys, c.runId)
      ensures r.Success? && !c.state.IDLE? && c.rebootAttempts < next.rebootAttempts ==> P().paid
      ensures r.Success? ==> log == old(log) + [Saved(next, true)]
      ensures Unexpected(r) && Accounted(log, old(|log|), r)
    {
      hide World.Valid, Legal, OkIn, Next, Sound, Anchored, ProcOk, At, Owns, Stored, Recoverable, Stays, Kept, Since;
      KeptAsIs(sys);
      LogsGrow();
      SaveFacts(c, next, true);
      SaveFacts(c, next, false);
      hide Inv, Grew;
      var store := new Disk.Store(volume);
      var wrote := WriteRecord(store, next);
      if wrote.Success? {
        Record(Saved(next, true), store.v);
      } else if wrote.error.replaced {
        Record(Saved(next, false), store.v);
      } else {
        Settle(store.v);
      }
      var dies: bool := *;
      if dies || (wrote.Failure? && wrote.error.killed) {
        Die();
        return Failure(Died);
      }
      if wrote.Failure? {
        Throw();
        return Failure(Raised(OtherException));
      }
      return Success(());
    }

    /** What the process holds once the record is saved. */
    lemma SaveFacts(c: CycleState, next: CycleState, settled: bool)
      requires Ready() && Owns(sys, c) && OkIn(sys, P(), Saved(next, true))
      requires next.runId == c.runId && !next.state.IDLE?
      ensures Ok(sys, Saved(next, settled))
      ensures var t := Next(sys, Saved(next, settled));
        && Alive() && t.proc.Some? && Kept(sys, t) && Stored(t, next) && t.past == Older(sys, settled)
        && (Recoverable(sys, c.runId) && Stays(c, next) ==> Recoverable(t, c.runId))
        && (settled && !c.state.IDLE? && c.rebootAttempts < next.rebootAttempts ==> t.proc.value.paid)
    {
      hide World.Valid, OkIn, Next;
      SavedShape(sys, next, settled);
      if !settled {
        EitherWay(sys, P(), next);
      }
      SavedIsStored(sys, Next(sys, Saved(next, settled)), c, next);
      if Stored(sys, c) && Stays(c, next) {
        StayIsSafe(sys, Next(sys, Saved(next, settled)), c, next);
      }
    }

    /** The write itself, and what the protocol may say of how it went. */
    method WriteRecord(store: Disk.Store, next: CycleState) returns (wrote: Result<(), Disk.Stop>)
      requires Ready() && store.v == volume && OkIn(sys, P(), Saved(next, true))
      modifies store
      ensures wrote.Success? ==> Matches(Next(sys, Saved(next, true)), store.v)
      ensures wrote.Failure? ==>
        if wrote.error.replaced then Matches(Next(sys, Saved(next, false)), store.v) else Matches(sys, store.v)
    {
      hide Legal, At, OkIn, Next, Disk.Seen, Disk.Sane, Disk.Widens, Disk.Only, Disk.Rooted, Disk.SameShelves,
           Disk.Kept, Like, Copied, WellFormed, PastOk, ArchiveOk, CellOk, ProcOk;
      Lives();
      MayWrite(next);
      MatchesClean(sys, volume);
      SavedShape(sys, next, true);
      SavedShape(sys, next, false);
      SavedKeepsShelves(sys, next, true);
      SavedKeepsShelves(sys, next, false);
      IsLike(next);
      hide Kept, Disk.Clean;
      wrote := store.Save(next);
      if wrote.Success? {
        OnlyMatches(sys, volume, Next(sys, Saved(next, true)), store.v, Disk.Has(next));
      } else if wrote.error.replaced {
        WiderMatches(sys, volume, Next(sys, Saved(next, false)), store.v, Disk.Has(next));
      } else {
        UnwrittenMatches(sys, volume, store.v);
      }
    }

    lemma MayWrite(next: CycleState)
      requires Alive() && OkIn(sys, P(), Saved(next, true))
      ensures WellFormed(next) && !sys.cell.Unreadable()
    {
      hide WellFormed, Edit;
    }

    lemma IsLike(c: CycleState)
      ensures Like(Rec(c), Disk.Has(c))
    {
    }

    /** `store.archive`: write the history file, then remove the active record. */
    method Archive(c: CycleState) returns (r: Result<(), Trouble>)
      requires Ready() && Finished(sys, c)
      modifies this
      ensures Valid() && (Dead(r) <==> !Alive()) && Grew(old(log), log)
      ensures r.Success? ==>
        && sys.cell.Empty? && sys.past == {} && sys.fading == {}
        && c.runId in sys.history && Same(sys.history[c.runId], c)
        && P().loaded && P().entry == old(P().entry) && !P().applying && Same(P().hooks, old(P().hooks))
      ensures r.Success? ==> Same(sys.used, old(sys.used)) && Since(log, old(|log|), Filed(c))
      ensures Unexpected(r) && Accounted(log, old(|log|), r)
    {
      hide World.Valid, Inv, Legal, Next, Ok, OkIn, At, Disk.Sane, Disk.Rooted, Disk.Seen, Disk.HasCopy, Matches,
           Grew, Since;
      LogsGrow();
      var store := new Disk.Store(volume);
      var _ :- WriteCopy(store, c);
      r := RemoveRecord(store, c);
    }

    method WriteCopy(store: Disk.Store, c: CycleState) returns (r: Result<(), Trouble>)
      requires Ready() && Finished(sys, c) && store.v == volume
      modifies this, store
      ensures Valid() && (Dead(r) <==> !Alive()) && Grew(old(log), log)
      ensures r.Success? ==>
        && store.v == volume && Same(sys.cell, Rec(c)) && c.runId in sys.history && Same(sys.history[c.runId], c)
        && sys.fading == {} && P() == old(P()).(finishing := false) && sys.used == old(sys.used)
        && Since(log, old(|log|), Filed(c))
      ensures Unexpected(r) && Accounted(log, old(|log|), r)
    {
      hide World.Valid, Inv, Legal, Next, Ok, OkIn, At, Matches, Finished, Grew, Since;
      LogsGrow();
      PutShape(sys, c, true);
      PutShape(sys, c, false);
      SinceNow(log, HistoryPut(c, true), Filed(c));
      hide Shows;
      var put := PutOnDisk(store, c);
      if put.Success? {
        Record(HistoryPut(c, true), store.v);
      } else if put.error.replaced {
        Record(HistoryPut(c, false), store.v);
      } else {
        Settle(store.v);
      }
      var dies: bool := *;
      if dies || (put.Failure? && put.error.killed) {
        Die();
        return Failure(Died);
      }
      if put.Failure? {
        Throw();
        return Failure(Raised(OtherException));
      }
      return Success(());
    }

    method PutOnDisk(store: Disk.Store, c: CycleState) returns (put: Result<(), Disk.Stop>)
      requires Ready() && Finished(sys, c) && store.v == volume
      modifies store
      ensures put.Success? ==> Matches(Next(sys, HistoryPut(c, true)), store.v)
      ensures put.Failure? ==>
        if put.error.replaced then Matches(Next(sys, HistoryPut(c, false)), store.v) else Matches(sys, store.v)
    {
      hide Legal, At, Next, Ok, Disk.Seen, Disk.HasCopy, Disk.DirOk, Like, Copied, WellFormed, PastOk, ArchiveOk,
           CellOk, ProcOk, Disk.SameCopies, Disk.NewCopies, Disk.OldOrNewCopies, Disk.KeepsCopies, MayBe, MayHold,
           Disk.Stems;
      Lives();
      ArchivedIsWellFormed(c);
      MatchesClean(sys, volume);
      PutShape(sys, c, true);
      PutShape(sys, c, false);
      put := store.PutCopy(c);
      if put.Success? {
        PutSettles(sys, volume, Next(sys, HistoryPut(c, true)), store.v, c);
      } else if put.error.replaced {
        PutMatches(sys, volume, Next(sys, HistoryPut(c, false)), store.v, c, true);
      } else {
        NotPutMatches(sys, volume, store.v, c);
      }
    }

    lemma ArchivedIsWellFormed(c: CycleState)
      requires Ready() && Finished(sys, c)
      ensures WellFormed(c) && !sys.cell.Unreadable()
    {
      hide Legal, At, WellFormed, TrailOk, PhaseOk, TruthOk, Matches, PastOk, ArchiveOk, Anchored, ProcOk;
      Lives();
    }

    method RemoveRecord(store: Disk.Store, c: CycleState) returns (r: Result<(), Trouble>)
      requires Ready() && store.v == volume && Same(sys.cell, Rec(c)) && sys.fading == {}
      requires c.runId in sys.history && Same(sys.history[c.runId], c)
      modifies this, store
      ensures Valid() && (Dead(r) <==> !Alive()) && Grew(old(log), log)
      ensures r.Success? ==>
        && sys.cell.Empty? && sys.past == {} && sys.fading == {} && Same(sys.history, old(sys.history))
        && P() == NoWork(old(P())) && sys.used == old(sys.used)
      ensures Unexpected(r) && Accounted(log, old(|log|), r)
    {
      hide World.Valid, Inv, Legal, Next, Ok, OkIn, At, Matches, NoWork, Grew, Since;
      LogsGrow();
      RemovalShape(sys, c, true);
      RemovalShape(sys, c, false);
      var removed := RemoveOnDisk(store, c);
      Record(ActiveRemoved(removed.Success?), store.v);
      var dies: bool := *;
      if dies || (removed.Failure? && removed.error.killed) {
        Die();
        return Failure(Died);
      }
      if removed.Failure? {
        Throw();
        return Failure(Raised(OtherException));
      }
      return Success(());
    }

    method RemoveOnDisk(store: Disk.Store, ghost c: CycleState) returns (removed: Result<(), Disk.Stop>)
      requires Ready() && store.v == volume && Same(sys.cell, Rec(c)) && sys.fading == {}
      requires c.runId in sys.history && Same(sys.history[c.runId], c)
      modifies store
      ensures Matches(Next(sys, ActiveRemoved(removed.Success?)), store.v)
    {
      hide Legal, At, Next, Ok, Disk.Seen, Disk.HasCopy, Disk.DirOk, Copied, WellFormed, PastOk, ArchiveOk, CellOk,
           ProcOk, MayBe, MayHold, Disk.Stems, Disk.Kept, Disk.KeepsCopies, Disk.Widens, Disk.Only, Disk.MovedAway,
           NoWork;
      Lives();
      MatchesClean(sys, volume);
      MayRemove(sys, volume, c);
      RemovalShape(sys, c, true);
      RemovalShape(sys, c, false);
      removed := store.RemoveActive(c);
      if removed.Success? {
        OnlyMatches(sys, volume, Next(sys, ActiveRemoved(true)), store.v, Disk.Nothing);
      } else {
        WiderMatches(sys, volume, Next(sys, ActiveRemoved(false)), store.v, Disk.Nothing);
      }
    }

    /** `store.save_report`: no modelled effect, but it may raise. */
    method Quietly() returns (r: Result<(), Trouble>)
      requires Ready()
      modifies this
      ensures Valid() && (Dead(r) <==> !Alive()) && Grew(old(log), log)
      ensures Alive() ==> Same(sys, old(sys))
      ensures Unexpected(r) && Accounted(log, old(|log|), r)
    {
      hide World.Valid, Inv, Legal, Next, Ok, OkIn, At, Recoverable, Grew, Since;
      LogsGrow();
      var fate := ChooseFate();
      match fate {
        case Fine => r := Success(());
        case Breaks => Throw(); r := Failure(Raised(OtherException));
        case Dies => Die(); r := Failure(Died);
      }
    }

    /** A systemd command failed. */
    method BreakCommand()
      requires Ready()
      modifies this
      ensures Ready() && Same(sys, old(sys)) && Grew(old(log), log)
      ensures Since(log, old(|log|), Because(CommandFailed))
    {
      hide World.Valid, Inv, Legal, OkIn, Next, At, Recoverable, Grew, Since;
      ghost var before := sys;
      SinceNow(log, CommandBroke, Because(CommandFailed));
      MayLook(CommandBroke);
      Note(CommandBroke);
      Untouched(before, sys);
    }

    /** Local work of the installer: says whether it went well. */
    method Prepare() returns (ok: bool)
      requires Ready()
      modifies this
      ensures Ready() && Same(sys, old(sys)) && Grew(old(log), log)
      ensures !ok ==> Since(log, old(|log|), Because(CommandFailed))
    {
      LogsGrow();
      ok := *;
      if !ok {
        BreakCommand();
      }
    }

    // ---- package manager ----

    method Preflight() returns (r: Result<PreflightResult, Trouble>)
      requires Ready()
      modifies this
      ensures Valid() && (Dead(r) <==> !Alive()) && Grew(old(log), log)
      ensures Alive() ==>
        && OnlyProc()
        && SameRole(old(P()), P()) && SameFinds(old(P()), P())
        && Same(P().hooks, old(P().hooks)) && P().paid == old(P().paid) && P().slept == old(P().slept)
        && P().inspected == old(P().inspected) + {PreflightInspection}
        && P().gates - {PreflightGate} == old(P().gates) - {PreflightGate}
      ensures r.Success? ==> P().reported == Some(r.value) && (r.value.ok ==> PreflightGate in P().gates)
      ensures r.Success? && !r.value.ok ==> Since(log, old(|log|), Because(Refusal(r.value.kind)))
      ensures Unexpected(r) && Accounted(log, old(|log|), r)
    {
      hide NextProc, SameRole, SameFinds, World.Valid, Inv, Legal, Next, Ok, OkIn, At, Recoverable, Grew, Since;
      LogsGrow();
      var result: PreflightResult := *;
      if !result.ok {
        SinceNow(log + [PreflightCalled], GateChecked(PreflightCheck(result)), Because(Refusal(result.kind)));
      }
      hide Shows;
      ghost var p := P();
      CalledPreflight(p);
      MayLook(PreflightCalled);
      var _ :- Attempt(PreflightCalled);
      ghost var q := P();
      FoundPreflight(q, result);
      RolesJoin(p, q, NextProc(q, GateChecked(PreflightCheck(result))));
      FindsJoin(p, q, NextProc(q, GateChecked(PreflightCheck(result))));
      MayLook(GateChecked(PreflightCheck(result)));
      Note(GateChecked(PreflightCheck(result)));
      r := Success(result);
    }

    method RepairInterrupted(run: string) returns (r: Result<PreflightResult, Trouble>)
      requires Ready() && OkIn(sys, P(), RepairCalled(run))
      modifies this
      ensures Valid() && (Dead(r) <==> !Alive()) && Grew(old(log), log)
      ensures Alive() ==>
        && OnlyProc() && SameDuties(old(P()), P()) && P().slept == old(P().slept)
        && P().vetted == old(P().window)
      ensures Alive() ==> Since(log, old(|log|), Repaired(run))
      ensures r.Success? ==> P().reported == Some(r.value) && (r.value.ok ==> PreflightGate in P().gates)
      ensures r.Success? && !r.value.ok ==> Since(log, old(|log|), Because(Refusal(r.value.kind)))
      ensures Unexpected(r) && Accounted(log, old(|log|), r)
    {
      hide NextProc, SameRole, SameDuties, SameFinds, World.Valid, Inv, Legal, Next, Ok, OkIn, At, Recoverable, Grew,
           Since;
      LogsGrow();
      var result: PreflightResult := *;
      if !result.ok {
        SinceNow(log + [RepairCalled(run)], GateChecked(PreflightCheck(result)), Because(Refusal(result.kind)));
      }
      SinceNow(log, RepairCalled(run), Repaired(run));
      hide Shows;
      ghost var p := P();
      CalledRepair(p, run);
      var _ :- Attempt(RepairCalled(run));
      ghost var q := P();
      FoundPreflight(q, result);
      DutiesJoin(p, q, NextProc(q, GateChecked(PreflightCheck(result))));
      MayLook(GateChecked(PreflightCheck(result)));
      Note(GateChecked(PreflightCheck(result)));
      r := Success(result);
    }

    method Refresh() returns (r: Result<RefreshResult, Trouble>)
      requires Ready()
      modifies this
      ensures Valid() && (Dead(r) <==> !Alive()) && Grew(old(log), log)
      ensures Alive() ==> OnlyProc() && Same(P(), old(P()).(refreshed := P().refreshed))
      ensures r.Success? ==> P().refreshed == Some(r.value)
      ensures r.Success? && !r.value.ok ==> Since(log, old(|log|), Because(PackageManagerError))
      ensures Unexpected(r) && Accounted(log, old(|log|), r)
    {
      hide World.Valid, Inv, Legal, Next, Ok, OkIn, At, Recoverable, Grew, Since;
      LogsGrow();
      var result: RefreshResult := *;
      if !result.ok {
        SinceNow(log, Refreshed(result), Because(PackageManagerError));
      }
      MayLook(Refreshed(result));
      var _ :- Attempt(Refreshed(result));
      r := Success(result);
    }

    method ListUpdates() returns (r: Result<seq<UpdateInfo>, Trouble>)
      requires Ready()
      modifies this
      ensures Valid() && (Dead(r) <==> !Alive()) && Grew(old(log), log)
      ensures Alive() ==> OnlyProc()
      ensures Alive() ==> SameRole(old(P()), P()) && Same(P().hooks, old(P().hooks)) && Same(P().gates, old(P().gates))
      ensures r.Success? ==> P().listed == Some(r.value)
      ensures Unexpected(r) && Accounted(log, old(|log|), r)
    {
      hide World.Valid, Inv, Legal, Next, Ok, OkIn, At, Recoverable, Grew, Since;
      var updates: seq<UpdateInfo> := *;
      MayLook(Listed(updates));
      var _ :- Attempt(Listed(updates));
      r := Success(updates);
    }

    /** Applies these updates, which are all those on record that are not held back. */
    method ApplyUpdates(run: string, updates: seq<UpdateInfo>) returns (r: Result<ApplyResult, Trouble>)
      requires Ready() && OkIn(sys, P(), ApplyCalled(run)) && P().loaded
      requires sys.cell.Rec? && Same(updates, Unheld(sys.cell.cycle.updatesAvailable))
      modifies this
      ensures Valid() && (Dead(r) <==> !Alive()) && Grew(old(log), log)
      ensures Alive() ==>
        && OnlyProc() && P().entry == old(P().entry) && P().loaded
        && P().applying && Same(P().hooks, old(P().hooks)) && Same(P().gates, old(P().gates))
        && P().vetted == old(P().window)
      ensures r.Success? ==> P().applied == Some(r.value)
      ensures r.Success? && !r.value.ok ==> Since(log, old(|log|), Because(PackageManagerError))
      ensures Unexpected(r) && Accounted(log, old(|log|), r)
    {
      hide World.Valid, Inv, Legal, Next, Ok, OkIn, At, Recoverable, Grew, Since;
      LogsGrow();
      var result: ApplyResult := *;
      if !result.ok {
        SinceNow(log + [ApplyCalled(run)], ApplyReturned(run, result), Because(PackageManagerError));
      }
      hide Shows;
      ghost var before := sys;
      CalledApply(P(), run, result);
      var _ :- Attempt(ApplyCalled(run));
      MayReturn(before, sys, run, result);
      CalledApply(P(), run, result);
      hide NextProc;
      Note(ApplyReturned(run, result));
      r := Success(result);
    }

    method RebootRequired() returns (r: Result<RebootStatus, Trouble>)
      requires Ready()
      modifies this
      ensures Valid() && (Dead(r) <==> !Alive()) && Grew(old(log), log)
      ensures Alive() ==> OnlyProc() && SameRole(old(P()), P())
      ensures r.Success? ==> P().probed == Some(r.value)
      ensures Unexpected(r) && Accounted(log, old(|log|), r)
    {
      hide World.Valid, Inv, Legal, Next, Ok, OkIn, At, Recoverable, Grew, Since;
      var status: RebootStatus := *;
      MayLook(Probed(status));
      var _ :- Attempt(Probed(status));
      r := Success(status);
    }

    method Verify() returns (r: Result<VerifyResult, Trouble>)
      requires Ready()
      modifies this
      ensures Valid() && (Dead(r) <==> !Alive()) && Grew(old(log), log)
      ensures Alive() ==>
        && OnlyProc()
        && SameRole(old(P()), P()) && P().inspected == old(P().inspected) + {VerifyInspection}
      ensures r.Success? ==> P().verified == Some(r.value)
      ensures r.Success? && !(r.value.consistent && r.value.outstanding == 0) ==>
        Since(log, old(|log|), Because(VerificationError))
      ensures Unexpected(r) && Accounted(log, old(|log|), r)
    {
      hide NextProc, SameRole, World.Valid, Inv, Legal, Next, Ok, OkIn, At, Recoverable, Grew, Since;
      LogsGrow();
      var verdict: VerifyResult := *;
      if !(verdict.consistent && verdict.outstanding == 0) {
        SinceNow(log + [VerifyCalled], VerifyReturned(verdict), Because(VerificationError));
      }
      hide Shows;
      ghost var p := P();
      VerdictNoted(p, verdict);
      MayLook(VerifyCalled);
      var _ :- Attempt(VerifyCalled);
      ghost var q := P();
      VerdictNoted(q, verdict);
      RolesJoin(p, q, NextProc(q, VerifyReturned(verdict)));
      MayLook(VerifyReturned(verdict));
      Note(VerifyReturned(verdict));
      r := Success(verdict);
    }

    /** Health results are well typed: a duration is finite and not negative. */
    method RunHealthChecks() returns (r: Result<seq<HealthResult>, Trouble>)
      requires Ready()
      modifies this
      ensures Valid() && (Dead(r) <==> !Alive()) && Grew(old(log), log)
      ensures Alive() ==> OnlyProc() && SameRole(old(P()), P())
      ensures r.Success? ==> P().health == Some(r.value)
      ensures r.Success? ==> forall h | h in r.value && h.duration.Some? :: DurationOk(h.duration.value)
      ensures Unexpected(r) && Accounted(log, old(|log|), r)
    {
      hide World.Valid, Inv, Legal, Next, Ok, OkIn, At, DurationOk, Recoverable, Grew, Since;
      var results: seq<HealthResult> := *;
      if exists i :: 0 <= i < |results| && results[i].duration.Some? && !DurationOk(results[i].duration.value) {
        results := [];
      }
      MayLook(HealthReturned(results));
      var _ :- Attempt(HealthReturned(results));
      r := Success(results);
    }

    // ---- looking before deciding ----

    /** `is_root`. */
    method IsRoot() returns (ok: bool)
      requires Ready()
      modifies this
      ensures Ready() && OnlyProc() && SameButGates(old(P()), P()) && Grew(old(log), log)
      ensures P().gates == if ok then old(P().gates) + {RootGate} else old(P().gates) - {RootGate}
      ensures !ok ==> Since(log, old(|log|), Because(PreflightError(Unspecified)))
    {
      hide World.Valid, Inv, Legal, Next, Ok, OkIn, At, Recoverable, Grew, Since;
      ok := *;
      if !ok {
        SinceNow(log, GateChecked(RootCheck(ok)), Because(PreflightError(Unspecified)));
      }
      MayLook(GateChecked(RootCheck(ok)));
      Note(GateChecked(RootCheck(ok)));
    }

    /** `_check_disk_space`. */
    method HasDiskSpace() returns (ok: bool)
      requires Ready()
      modifies this
      ensures Ready() && OnlyProc() && SameButGates(old(P()), P()) && Grew(old(log), log)
      ensures P().gates == if ok then old(P().gates) + {SpaceGate} else old(P().gates) - {SpaceGate}
      ensures !ok ==> Since(log, old(|log|), Because(PreflightError(OtherKind("disk-space"))))
    {
      hide World.Valid, Inv, Legal, Next, Ok, OkIn, At, Recoverable, Grew, Since;
      ok := *;
      if !ok {
        SinceNow(log, GateChecked(SpaceCheck(ok)), Because(PreflightError(OtherKind("disk-space"))));
      }
      MayLook(GateChecked(SpaceCheck(ok)));
      Note(GateChecked(SpaceCheck(ok)));
    }

    /** More than seven days since the record was written, or an unreadable timestamp. */
    method IsStale(c: CycleState) returns (stale: bool)
      requires Ready()
      modifies this
      ensures Ready() && OnlyProc() && SameButGates(old(P()), P()) && Grew(old(log), log)
      ensures !stale ==> FreshGate in P().gates
      ensures Since(log, old(|log|), Found(StalenessCheck(stale)))
      ensures stale ==> Since(log, old(|log|), Because(Diagnosis("stale-cycle")))
    {
      hide World.Valid, Inv, Legal, Next, Ok, OkIn, At, Recoverable, Grew, Since;
      stale := *;
      SinceNow(log, GateChecked(StalenessCheck(stale)), Found(StalenessCheck(stale)));
      if stale {
        SinceNow(log, GateChecked(StalenessCheck(stale)), Because(Diagnosis("stale-cycle")));
      }
      MayLook(GateChecked(StalenessCheck(stale)));
      Note(GateChecked(StalenessCheck(stale)));
    }

    /** The configured reboot policy, held against what the record requires. */
    method CheckPolicy(policy: Policy, required: bool)
      requires Ready() && sys.cell.Rec? && required == sys.cell.cycle.rebootRequired
      modifies this
      ensures Ready() && OnlyProc() && Grew(old(log), log)
      ensures SameDeeds(old(P()), P()) && P().slept == old(P().slept)
      ensures Permits(policy, required) ==> P().gates == old(P()).gates + {PolicyGate}
      ensures !Permits(policy, required) ==> Forbidden(log, old(|log|))
      ensures Since(log, old(|log|), Found(PolicyCheck(policy, required)))
    {
      hide World.Valid, Inv, Legal, Next, Ok, At, Recoverable, Grew, Since;
      SinceNow(log, GateChecked(PolicyCheck(policy, required)), Found(PolicyCheck(policy, required)));
      if !Permits(policy, required) {
        ForbiddenNow(log, PolicyCheck(policy, required));
      }
      Note(GateChecked(PolicyCheck(policy, required)));
    }

    /** The configuration lets a reboot happen under logged-in users. */
    method WaiveUsers(allowed: bool)
      requires Ready()
      modifies this
      ensures Ready() && OnlyProc() && Grew(old(log), log)
      ensures SameDeeds(old(P()), P()) && P().slept == old(P().slept)
      ensures allowed ==> P().gates == old(P()).gates + {UsersGate}
      ensures Since(log, old(|log|), Found(UsersCheck(allowed, true)))
    {
      hide World.Valid, Inv, Legal, Next, Ok, OkIn, At, Recoverable, Grew, Since;
      SinceNow(log, GateChecked(UsersCheck(allowed, true)), Found(UsersCheck(allowed, true)));
      hide Shows;
      MayLook(GateChecked(UsersCheck(allowed, true)));
      Note(GateChecked(UsersCheck(allowed, true)));
    }

    method UsersLoggedIn() returns (r: Result<bool, Trouble>)
      requires Ready()
      modifies this
      ensures Valid() && (Dead(r) <==> !Alive()) && Grew(old(log), log)
      ensures Alive() ==> OnlyProc() && SameDeeds(old(P()), P()) && P().slept == old(P().slept)
      ensures r.Success? ==>
        P().gates == if r.value then old(P()).gates - {UsersGate} else old(P()).gates + {UsersGate}
      ensures r.Success? ==> Since(log, old(|log|), Found(UsersCheck(false, r.value)))
      ensures r == Success(true) ==> Forbidden(log, old(|log|))
      ensures r.Failure? ==> r.error.Died?
    {
      hide World.Valid, Inv, Legal, Next, Ok, OkIn, At, Recoverable, Grew, Since;
      LogsGrow();
      var dies, loggedIn: bool := *, *;
      if dies {
        Die();
        return Failure(Died);
      }
      SinceNow(log, GateChecked(UsersCheck(false, loggedIn)), Found(UsersCheck(false, loggedIn)));
      if loggedIn {
        ForbiddenNow(log, UsersCheck(false, loggedIn));
      }
      hide Shows;
      MayLook(GateChecked(UsersCheck(false, loggedIn)));
      Note(GateChecked(UsersCheck(false, loggedIn)));
      r := Success(loggedIn);
    }

    /** `allows_disruptive` at the current local time. */
    method WindowAllows(window: Window.Window, estimate: nat) returns (ok: bool)
      requires Ready()
      modifies this
      ensures Ready() && OnlyProc() && Grew(old(log), log)
      ensures SameDeeds(old(P()), P()) && P().slept == old(P().slept)
      ensures P().gates == if ok then old(P().gates) + {WindowGate} else old(P().gates) - {WindowGate}
      ensures P().window == Some(Vet(window, estimate))
      ensures !ok ==> Forbidden(log, old(|log|))
    {
      hide World.Valid, Inv, Legal, Next, Ok, OkIn, At, Recoverable, Grew, Since;
      var now: nat := *;
      now := Window.Wrap(now);
      ok := window.Allows(now, estimate);
      if !ok {
        ForbiddenNow(log, WindowCheck(window, now, estimate));
      }
      MayLook(GateChecked(WindowCheck(window, now, estimate)));
      Note(GateChecked(WindowCheck(window, now, estimate)));
    }

    /** `resume_path_ok`: never says yes unless the boot-resume unit is enabled. */
    method ResumePathOk() returns (ok: bool)
      requires Ready()
      modifies this
      ensures Ready() && OnlyProc() && SameButGates(old(P()), P()) && Grew(old(log), log)
      ensures P().gates == if ok then old(P().gates) + {ResumePathGate} else old(P().gates) - {ResumePathGate}
      ensures !ok ==> Since(log, old(|log|), Because(RebootError))
    {
      hide World.Valid, Inv, Legal, Next, Ok, At, Recoverable, Grew, Since;
      ok := *;
      ok := ok && sys.unitEnabled;
      if !ok {
        SinceNow(log, GateChecked(ResumePathCheck(ok)), Because(RebootError));
      }
      Note(GateChecked(ResumePathCheck(ok)));
    }

    /** Run the hooks of one point; says whether the failure policy asks to abort. */
    method RunHooks(point: HookPoint) returns (r: Result<bool, Trouble>)
      requires Ready()
      modifies this
      ensures Valid() && (Dead(r) <==> !Alive()) && Grew(old(log), log)
      ensures Alive() ==>
        && OnlyProc() && SameRole(old(P()), P()) && SameFinds(old(P()), P())
        && Same(P().inspected, old(P().inspected)) && P().paid == old(P().paid)
        && P().slept == old(P().slept) && P().gates == old(P().gates) * STANDING
      ensures r == Success(false) ==> P().hooks == old(P().hooks) + {point}
      ensures r == Success(true) ==> Since(log, old(|log|), Because(PreflightError(Unspecified)))
      ensures Alive() ==> Since(log, old(|log|), Hooked(point))
      ensures Unexpected(r) && Accounted(log, old(|log|), r)
    {
      hide World.Valid, Inv, Legal, Next, Ok, OkIn, At, Recoverable, Grew, Since;
      LogsGrow();
      var abort: bool := *;
      SinceNow(log, HookRan(point, abort), Hooked(point));
      if abort {
        SinceNow(log, HookRan(point, abort), Because(PreflightError(Unspecified)));
      }
      hide Shows;
      MayLook(HookRan(point, abort));
      var _ :- Attempt(HookRan(point, abort));
      r := Success(abort);
    }

    method Sleep(seconds: nat) returns (r: Result<(), Trouble>)
      requires Ready()
      modifies this
      ensures Valid() && (Dead(r) <==> !Alive()) && Grew(old(log), log)
      ensures Alive() ==>
        && OnlyProc() && SameDeeds(old(P()), P()) && P().window == old(P().window)
        && P().slept == old(P().slept) + seconds && P().gates == old(P().gates) * STANDING
      ensures r.Success? ==> log == old(log) + [Slept(seconds)] && Since(log, old(|log|), Rested(seconds))
      ensures r.Failure? ==> r.error.Died?
    {
      hide World.Valid, Inv, Legal, Next, Ok, OkIn, At, Recoverable, Grew, Since;
      LogsGrow();
      SinceNow(log, Slept(seconds), Rested(seconds));
      hide Shows;
      MayLook(Slept(seconds));
      Note(Slept(seconds));
      var dies: bool := *;
      if dies {
        Die();
        return Failure(Died);
      }
      r := Success(());
    }

    /**
     The reboot command. It may fail, be queued and return, take the machine down before returning,
     or (in a simulated machine) return on the next boot.
     */
    method Rebooter(run: string) returns (r: Result<(), Trouble>)
      requires Ready() && OkIn(sys, P(), RebootCalled(run))
      modifies this
      ensures Valid() && (Dead(r) <==> !Alive()) && Grew(old(log), log)
      ensures Alive() ==>
        && Same(sys.cell, old(sys.cell)) && Same(sys.past, old(sys.past)) && Same(sys.history, old(sys.history))
        && sys.maxAttempts == old(sys.maxAttempts)
        && P().entry == old(P().entry) && P().loaded == old(P().loaded) && P().applying == old(P().applying)
        && P().finishing == old(P().finishing) && (FreshGate in old(P().gates) ==> FreshGate in P().gates)
        && Same(P().hooks, old(P().hooks)) && P().slept == old(P().slept) && P().vetted == old(P().window)
      ensures Alive() ==> Since(log, old(|log|), Commanded(run))
      ensures r.Failure? && r.error.Raised? ==>
        Same(sys.boots, old(sys.boots)) && (r.error.exn.CommandFailed? || r.error.exn.OtherException?)
      ensures Accounted(log, old(|log|), r)
    {
      hide World.Valid, Inv, Legal, Matches, Recoverable, Grew, Since;
      LogsGrow();
      assert sys.cell.Rec? && sys.cell.cycle.state.REBOOTING?;
      SinceNow(log, RebootCalled(run), Commanded(run));
      hide Shows;
      Note(RebootCalled(run));
      var fate := ChooseFate();
      if fate.Dies? {
        Die();
        return Failure(Died);
      }
      if fate.Breaks? {
        var command: bool := *;
        if command {
          BreakCommand();
          return Failure(Raised(CommandFailed));
        }
        Throw();
        return Failure(Raised(OtherException));
      }
      var id: string, kernel: string, simulated: bool := *, *, *;
      if simulated && Fresh(sys, id) {
        Emit(BootedInPlace(id, kernel));
      }
      r := Success(());
    }

    /** One delivery attempt; returns the notifier's answer, "sent" on success, or raises. */
    method Deliver(run: string, n: Name, o: Outcome) returns (r: Result<string, Trouble>)
      requires Ready() && P().loaded && sys.past == {} && DeliveryOk(sys.cell, P().finishing, run, n, o)
      modifies this
      ensures Valid() && (Dead(r) <==> !Alive()) && Grew(old(log), log)
      ensures Alive() ==>
        && OnlyProc() && SameRole(old(P()), P()) && Same(P().hooks, old(P().hooks)) && P().slept == old(P().slept)
      ensures r.Success? ==> log == old(log) + [Delivered(run, n, o, Some(r.value))]
      ensures r == Success(SENT) ==> (run, n) in P().sent
      ensures r.Failure? && r.error.Raised? ==> log == old(log) + [Delivered(run, n, o, None), Threw]
      ensures Unexpected(r) && Accounted(log, old(|log|), r)
    {
      hide NextProc, World.Valid, Inv, Legal, Next, Ok, At, Recoverable, DeliveryOk, Grew, Since;
      LogsGrow();
      var answer: Option<string> := *;
      var e := Delivered(run, n, o, answer);
      TookReport(P(), run, n, o, answer);
      hide Shows;
      Note(e);
      var dies: bool := *;
      if dies {
        Die();
        return Failure(Died);
      }
      if answer.None? {
        Throw();
        return Failure(Raised(OtherException));
      }
      r := Success(answer.value);
    }

    /** systemd enables or disables the boot-resume unit; the command may fail with or without effect. */
    method SetResumeUnit(enabled: bool) returns (r: Result<(), Trouble>)
      requires Ready() && OkIn(sys, P(), UnitSet(enabled))
      modifies this
      ensures Valid() && (Dead(r) <==> !Alive()) && Grew(old(log), log)
      ensures Alive() ==> Same(sys, old(sys).(unitEnabled := sys.unitEnabled, proc := sys.proc))
      ensures Alive() ==> P().loaded == old(P().loaded) && P().entry == old(P().entry)
      ensures r.Success? ==> sys.unitEnabled == enabled
      ensures r.Failure? && r.error.Raised? ==> r.error.exn.CommandFailed?
      ensures Accounted(log, old(|log|), r)
    {
      hide World.Valid, Inv, Legal, At, Matches, Grew, Since;
      LogsGrow();
      var effective, fails: bool := *, *;
      if effective || !fails {
        var _ :- Effect(UnitSet(enabled));
      }
      if fails {
        BreakCommand();
        return Failure(Raised(CommandFailed));
      }
      r := Success(());
    }

    /** Remove the state directory, active record and archive. */
    method PurgeState() returns (r: Result<(), Trouble>)
      requires Ready() && OkIn(sys, P(), Purged)
      modifies this
      ensures Valid() && (Dead(r) <==> !Alive())
      ensures Alive() ==> sys.unitEnabled == old(sys.unitEnabled)
      ensures r.Success? ==> sys.cell.Empty? && sys.history == map[]
      ensures r.Failure? && r.error.Raised? ==> r.error.exn.CommandFailed?
      ensures Grew(old(log), log) && Accounted(log, old(|log|), r)
    {
      hide World.Valid, Inv, Legal, At, Matches, Emptied, Next, Ok, OkIn, Grew, Since;
      LogsGrow();
      Lives();
      var fate := ChooseFate();
      if fate.Breaks? {
        BreakCommand();
        return Failure(Raised(CommandFailed));
      }
      PurgedShape(sys);
      MayPurgeStore(sys);
      EmptiedMatches(sys, volume, Next(sys, Purged));
      Record(Purged, Emptied(volume));
      if fate.Dies? {
        Die();
        return Failure(Died);
      }
      r := Success(());
    }
  }
}
