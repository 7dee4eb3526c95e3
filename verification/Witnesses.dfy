/**
 Legal logs that show what the code, and the disk, do not rule out: a notifier told twice, an archived cycle
 overwritten, a cycle reported done and archived failed, a run lost before its save was settled. Built from the
 start, on any machine and for any run.
 */
module Witnesses {
  import opened Wrappers
  import opened States
  import opened Records
  import opened Outcomes
  import opened Protocol
  import opened Invariants
  import opened Edges
  import opened Safety
  import opened Archive
  import opened Futures

  /** A run is at work on the stored cycle, on the boot it started on, with everything on disk; nobody told yet. */
  ghost predicate AtWork(s: Sys, c: CycleState, r: string, state: State) {
    && Stored(s, c) && s.past == {} && c.runId == r && c.state == state && WellFormed(c)
    && FreshGate in s.proc.value.gates && !s.proc.value.applying
    && (state.PRECHECK? || SameBoot(s, c)) && (state.PRECHECK? ==> c.bootIdBefore.None?)
    && c.notificationStatus == map[]
  }

  /** Notes that leave a process as much at work as it was. */
  predicate Plain(e: Event) {
    || e.PreflightCalled? || e.Identified? || e.Refreshed? || e.Listed? || e.Probed? || e.VerifyCalled?
    || e.VerifyReturned? || e.HealthReturned?
    || (e.GateChecked? && !e.check.StalenessCheck? && !e.check.ResumePathCheck? && !e.check.PolicyCheck?)
  }

  lemma Note(s0: Sys, log: seq<Event>, s: Sys, c: CycleState, r: string, state: State, e: Event)
    returns (longer: seq<Event>, t: Sys)
    requires Stands(s0, log, s) && AtWork(s, c, r, state) && Plain(e)
    ensures Stands(s0, longer, t) && GoesOn(s0, log, longer) && AtWork(t, c, r, state)
    ensures t == s.(proc := Some(NextProc(s.proc.value, e)))
  {
    hide Inv, Legal, At, WellFormed;
    Continue(s0, log, s, e) by {
      hide SaveOk, DeliveryOk;
    }
    longer, t := log + [e], Next(s, e);
    hide OkIn;
    NoteNext(s, e);
  }

  /** A move of the table, stored. */
  lemma Move(s0: Sys, log: seq<Event>, s: Sys, c: CycleState, mem: CycleState, dst: State, settled: bool)
    returns (longer: seq<Event>, t: Sys, next: CycleState)
    requires Stands(s0, log, s) && Stored(s, c) && Moves(s, c, mem, dst) && WellFormed(mem)
    ensures Stands(s0, longer, t) && GoesOn(s0, log, longer)
    ensures t.cell == Rec(next) && Follows(mem, next, dst) && WellFormed(next) && Edges.Kept(s, t) && Stored(t, next)
    ensures t.past == Older(s, settled) && Same(t.history, s.history) && Same(t.fading, s.fading)
    ensures t.proc.value.finishing == Terminal(dst) && longer == log + [Saved(next, settled)]
  {
    hide Inv, Legal, At, OkIn, WellFormed, Allowed, Moved, IsLegal, Next;
    next := Moved(mem, dst, "", "");
    MayTransition(s, c, mem, dst, "", "");
    MovedIsArc(mem, dst, "", "");
    longer, t := SaveIt(s0, log, s, next, settled);
    SavedIsStored(s, t, c, next);
  }

  lemma MovedWork(s: Sys, t: Sys, c: CycleState, mem: CycleState, next: CycleState, r: string, src: State, dst: State)
    requires AtWork(s, c, r, src) && Same(mem.runId, c.runId) && Follows(mem, next, dst) && WellFormed(next)
    requires Edges.Kept(s, t) && Stored(t, next) && t.past == {} && SameBoot(s, mem) && !dst.PRECHECK?
    requires Same(mem.notificationStatus, c.notificationStatus)
    ensures AtWork(t, next, r, dst)
  {
    hide WellFormed;
  }

  lemma IsWorking(s: Sys, c: CycleState, r: string, state: State)
    requires AtWork(s, c, r, state)
    ensures Working(s.proc.value, c, state) && Stored(s, c) && WellFormed(c)
  {
    hide WellFormed;
  }

  lemma FromTheStart(s0: Sys)
    requires Start(s0)
    ensures Stands(s0, [], s0) && GoesOn(s0, [], [])
  {
  }

  /** A run on a machine that never ran one starts a cycle. */
  lemma ToPrecheck(s0: Sys, r: string) returns (log: seq<Event>, s: Sys, c: CycleState)
    requires Start(s0) && ValidRunId(r)
    ensures Stands(s0, log, s) && AtWork(s, c, r, PRECHECK) && s.history == map[] && s.fading == {}
    ensures Same(s.cell, Rec(c))
  {
    hide Inv, OkIn, Moved, IsLegal, Next, ValidRunId;
    FromTheStart(s0);
    var log1, s1 := Enter(s0, [], s0);
    var n := NewCycle(r, "", "", "");
    NewIsCreated(s1, r, "", "", "");
    NewIsWellFormed(s1, n);
    assert IsLegal(n.state, PRECHECK) by {
      FirstIsLegal();
    }
    MayTransition(s1, n, n, PRECHECK, "", "");
    c := Moved(n, PRECHECK, "", "");
    MovedIsArc(n, PRECHECK, "", "");
    log, s := SaveIt(s0, log1, s1, c, true);
    SavedIsStored(s1, s, n, c);
    Begun(s1, s, n, c);
  }

  lemma FirstIsLegal()
    ensures IsLegal(IDLE, PRECHECK)
  {
  }

  lemma Begun(s: Sys, t: Sys, n: CycleState, c: CycleState)
    requires Created(s, n) && Follows(n, c, PRECHECK) && WellFormed(c) && Edges.Kept(s, t)
    requires Stored(t, c) && t.past == {} && t.cell == Rec(c)
    ensures AtWork(t, c, n.runId, PRECHECK)
  {
    hide WellFormed, ValidRunId;
  }

  lemma ToQualified(s0: Sys, r: string) returns (log: seq<Event>, s: Sys, c: CycleState)
    requires Start(s0) && ValidRunId(r)
    ensures Stands(s0, log, s) && AtWork(s, c, r, PRECHECK) && s.history == map[] && s.fading == {}
    ensures RootGate in s.proc.value.gates && SpaceGate in s.proc.value.gates
    ensures s.proc.value.identity == Some(OsIdentity(map[], ""))
  {
    hide Legal, At, Stored, SameBoot, WellFormed, ValidRunId, Inv, GoesOn;
    log, s, c := ToPrecheck(s0, r);
    log, s := Note(s0, log, s, c, r, PRECHECK, GateChecked(RootCheck(true)));
    log, s := Note(s0, log, s, c, r, PRECHECK, GateChecked(SpaceCheck(true)));
    log, s := Note(s0, log, s, c, r, PRECHECK, Identified(OsIdentity(map[], "")));
  }

  /** Everything it takes to leave PRECHECK was looked at, and found well. */
  lemma ToSurveyed(s0: Sys, r: string) returns (log: seq<Event>, s: Sys, c: CycleState)
    requires Start(s0) && ValidRunId(r)
    ensures Stands(s0, log, s) && AtWork(s, c, r, PRECHECK) && s.history == map[] && s.fading == {}
    ensures RootGate in s.proc.value.gates && SpaceGate in s.proc.value.gates && PreflightGate in s.proc.value.gates
    ensures Reports(s.proc.value, map[], "", false)
  {
    hide Legal, At, Stored, SameBoot, WellFormed, ValidRunId, Inv, GoesOn;
    log, s, c := ToQualified(s0, r);
    log, s := Note(s0, log, s, c, r, PRECHECK, PreflightCalled);
    var healthy := PreflightResult(true, Unspecified, false);
    log, s := Note(s0, log, s, c, r, PRECHECK, GateChecked(PreflightCheck(healthy)));
  }

  lemma ToRefreshing(s0: Sys, r: string) returns (log: seq<Event>, s: Sys, c: CycleState)
    requires Start(s0) && ValidRunId(r)
    ensures Stands(s0, log, s) && AtWork(s, c, r, REFRESHING) && s.history == map[] && s.fading == {}
  {
    hide Legal, At, Stored, SameBoot, WellFormed, ValidRunId, Moves, Inv, Edges.Kept, Reports;
    var d, t;
    log, t, d := ToSurveyed(s0, r);
    IsWorking(t, d, r, PRECHECK);
    PrecheckMoves(t, d, map[], "", false);
    var mem := Checked(d, map[], "", Current(t), false);
    ProceedsMoves(t, d, mem, REFRESHING);
    var u;
    log, u, c := Move(s0, log, t, d, mem, REFRESHING, true);
    assert SameBoot(t, mem) by {
      CheckedHere(t, d);
    }
    MovedWork(t, u, d, mem, c, r, PRECHECK, REFRESHING);
    s := u;
  }

  lemma CheckedHere(s: Sys, d: CycleState)
    ensures SameBoot(s, Checked(d, map[], "", Current(s), false))
  {
  }

  lemma ProceedsMoves(s: Sys, c: CycleState, mem: CycleState, dst: State)
    requires Proceeds(s, c, mem, dst)
    ensures Moves(s, c, mem, dst) && WellFormed(mem)
  {
    hide WellFormed, Allowed;
  }

  /** One move of a cycle at work, to the next state. */
  lemma Go(s0: Sys, log: seq<Event>, s: Sys, c: CycleState, r: string, src: State, mem: CycleState, dst: State)
    returns (longer: seq<Event>, t: Sys, next: CycleState)
    requires Stands(s0, log, s) && AtWork(s, c, r, src) && Proceeds(s, c, mem, dst) && !dst.PRECHECK?
    requires Same(mem.bootIdBefore, c.bootIdBefore) && !src.PRECHECK?
    requires Same(mem.notificationStatus, c.notificationStatus)
    ensures Stands(s0, longer, t) && AtWork(t, next, r, dst) && Follows(mem, next, dst)
    ensures Same(t.history, s.history) && Same(t.fading, s.fading)
  {
    hide Legal, At, Stored, WellFormed, Moves, Inv, Edges.Kept, Follows;
    ProceedsMoves(s, c, mem, dst);
    IsWorking(s, c, r, src);
    longer, t, next := Move(s0, log, s, c, mem, dst, true);
    SameRun(s, c, mem, dst);
    MovedWork(s, t, c, mem, next, r, src, dst);
  }

  lemma SameRun(s: Sys, c: CycleState, mem: CycleState, dst: State)
    requires Moves(s, c, mem, dst)
    ensures Same(mem.runId, c.runId)
  {
    hide WellFormed, Allowed;
  }

  /** A save that leaves the cycle where it is. */
  lemma Keep(s0: Sys, log: seq<Event>, s: Sys, c: CycleState, r: string, state: State, next: CycleState)
    returns (longer: seq<Event>, t: Sys)
    requires Stands(s0, log, s) && AtWork(s, c, r, state) && !state.PRECHECK? && !Terminal(state)
    requires OkIn(s, s.proc.value, Saved(next, true)) && WellFormed(next) && Stays(c, next)
    requires Same(next.notificationStatus, c.notificationStatus)
    ensures Stands(s0, longer, t) && AtWork(t, next, r, state) && Edges.Kept(s, t)
    ensures Same(t.history, s.history) && Same(t.fading, s.fading)
  {
    hide Inv, Legal, At, OkIn, WellFormed, Next;
    longer, t := SaveIt(s0, log, s, next, true);
    SavedIsStored(s, t, c, next);
  }

  lemma ToDiscovering(s0: Sys, r: string) returns (log: seq<Event>, s: Sys, c: CycleState)
    requires Start(s0) && ValidRunId(r)
    ensures Stands(s0, log, s) && AtWork(s, c, r, DISCOVERING_UPDATES) && s.history == map[] && s.fading == {}
  {
    hide Legal, At, Stored, WellFormed, ValidRunId, Proceeds, Inv, Follows, SameBoot;
    var d;
    log, s, d := ToRefreshing(s0, r);
    log, s := Note(s0, log, s, d, r, REFRESHING, Refreshed(RefreshResult(true, [])));
    WorkFacts(s, d, r, REFRESHING);
    RefreshMoves(s, d, d.warnings);
    log, s, c := Go(s0, log, s, d, r, REFRESHING, d.(warnings := d.warnings), DISCOVERING_UPDATES);
  }

  /** Nothing to update: the cycle comes to see whether it has to reboot. */
  lemma ToCheckingReboot(s0: Sys, r: string) returns (log: seq<Event>, s: Sys, c: CycleState)
    requires Start(s0) && ValidRunId(r)
    ensures Stands(s0, log, s) && AtWork(s, c, r, CHECKING_REBOOT) && s.history == map[] && s.fading == {}
  {
    hide Legal, At, Stored, WellFormed, ValidRunId, Proceeds, Inv, Follows, SameBoot;
    var d;
    log, s, d := ToDiscovering(s0, r);
    log, s := Note(s0, log, s, d, r, DISCOVERING_UPDATES, Listed([]));
    WorkFacts(s, d, r, DISCOVERING_UPDATES);
    DiscoveryMoves(s, d, []);
    log, s, c := Go(s0, log, s, d, r, DISCOVERING_UPDATES, Discovered(d, []), CHECKING_REBOOT);
  }

  /** ... and has not: it reaches its verification. */
  lemma ToVerifying(s0: Sys, r: string) returns (log: seq<Event>, s: Sys, c: CycleState)
    requires Start(s0) && ValidRunId(r)
    ensures Stands(s0, log, s) && AtWork(s, c, r, VERIFYING) && s.history == map[] && s.fading == {}
    ensures c.outcome.None?
  {
    hide Legal, At, Stored, WellFormed, ValidRunId, Proceeds, Inv, Follows, SameBoot;
    var d;
    log, s, d := ToCheckingReboot(s0, r);
    var status := RebootStatus(false, []);
    log, s := Note(s0, log, s, d, r, CHECKING_REBOOT, Probed(status));
    WorkFacts(s, d, r, CHECKING_REBOOT);
    ProbeMoves(s, d, status, VERIFYING);
    NoOutcomeYet(s0, log, s, d, r, CHECKING_REBOOT);
    log, s, c := Go(s0, log, s, d, r, CHECKING_REBOOT, Probe(d, status), VERIFYING);
    Carried(Probe(d, status), c, VERIFYING);
  }

  /** Up to its verification a cycle has no outcome, and up to its report no error. */
  lemma NoOutcomeYet(s0: Sys, log: seq<Event>, s: Sys, c: CycleState, r: string, state: State)
    requires Stands(s0, log, s) && AtWork(s, c, r, state)
    ensures state.CHECKING_REBOOT? ==> c.outcome.None?
    ensures state.HEALTH_CHECKING? ==> c.error.None?
  {
    hide Legal, At, Inv;
    NotYet(s0, log);
    IsWorking(s, c, r, state);
    RecordIsSound(s, c);
    hide WellFormed, TrailOk, PhaseOk, FinalOutcome;
  }

  lemma WorkFacts(s: Sys, c: CycleState, r: string, state: State)
    requires AtWork(s, c, r, state) && !state.PRECHECK?
    ensures Stored(s, c) && WellFormed(c) && SameBoot(s, c) && Working(s.proc.value, c, c.state) && s.past == {}
    ensures c.state == state
  {
    hide WellFormed;
  }

  /** ... and goes on to tell its notifiers, its outcome settled. */
  lemma ToNotifying(s0: Sys, r: string) returns (log: seq<Event>, s: Sys, c: CycleState)
    requires Start(s0) && ValidRunId(r)
    ensures Stands(s0, log, s) && AtWork(s, c, r, NOTIFYING) && c.outcome == Some(FinalOutcome(c))
    ensures AllDone(c.outcome)
    ensures s.history == map[] && s.fading == {}
  {
    hide Legal, At, Stored, WellFormed, ValidRunId, Proceeds, Inv, SameBoot, FinalOutcome, OkIn;
    var d, t;
    log, t, d := ToHealthChecking(s0, r);
    log, t := Note(s0, log, t, d, r, HEALTH_CHECKING, HealthReturned([]));
    WorkFacts(t, d, r, HEALTH_CHECKING);
    HealthMoves(t, d, [], d.error);
    NoOutcomeYet(s0, log, t, d, r, HEALTH_CHECKING);
    log, t, c := Go(s0, log, t, d, r, HEALTH_CHECKING, Examined(d, [], d.error), NOTIFYING);
    Carried(Examined(d, [], d.error), c, NOTIFYING);
    hide Follows;
    WorkFacts(t, c, r, NOTIFYING);
    OutcomeSaves(t, c);
    DoneIfUntroubled(c);
    d := c;
    c := d.(outcome := Some(FinalOutcome(d)));
    log, s := Keep(s0, log, t, d, r, NOTIFYING, c);
  }

  lemma DoneIfUntroubled(c: CycleState)
    requires c.error.None? && c.outcome.None?
    ensures AllDone(Some(FinalOutcome(c)))
  {
  }

  lemma ToHealthChecking(s0: Sys, r: string) returns (log: seq<Event>, s: Sys, c: CycleState)
    requires Start(s0) && ValidRunId(r)
    ensures Stands(s0, log, s) && AtWork(s, c, r, HEALTH_CHECKING) && s.history == map[] && s.fading == {}
    ensures c.outcome.None?
  {
    hide Legal, At, Stored, WellFormed, ValidRunId, Proceeds, Inv, Follows, SameBoot, OkIn;
    var d, t;
    log, t, d := ToVerifying(s0, r);
    var v := VerifyResult(true, 0);
    log, t := Note(s0, log, t, d, r, VERIFYING, VerifyCalled);
    log, t := Note(s0, log, t, d, r, VERIFYING, VerifyReturned(v));
    WorkFacts(t, d, r, VERIFYING);
    VerdictSaves(t, d, v);
    c := Verified(d, v);
    log, s := Keep(s0, log, t, d, r, VERIFYING, c);
    WorkFacts(s, c, r, VERIFYING);
    VerifiedMoves(s, c);
    d, t := c, s;
    log, s, c := Go(s0, log, t, d, r, VERIFYING, d, HEALTH_CHECKING);
    Carried(d, c, HEALTH_CHECKING);
  }

  // ----------------------------------------------------------- told twice

  /** A notifier heard of run `r` at `i`, was durably marked sent by `m`, and heard of it again at `j`. */
  ghost predicate ToldTwice(s0: Sys, log: seq<Event>, i: nat, m: nat, j: nat, r: string, n: Name) {
    && Legal(s0, log) && i < m <= j < |log|
    && log[i].Delivered? && log[i].run == r && log[i].notifier == n && OnCycle(At(s0, log, i), r, NOTIFYING)
    && HasSent(At(s0, log, m), r, n)
    && log[j].Delivered? && log[j].run == r && log[j].notifier == n && OnCycle(At(s0, log, j), r, FAILED)
  }

  /** The cycle is at the end of its deliveries, its outcome settled. */
  ghost predicate Reported(s: Sys, c: CycleState, r: string) {
    && Stored(s, c) && s.past == {} && c.runId == r && c.state.NOTIFYING? && WellFormed(c)
    && c.outcome == Some(FinalOutcome(c)) && Working(s.proc.value, c, c.state)
  }

  /** The report is handed over and answered "sent"; only the process knows. */
  lemma Tell(s0: Sys, log: seq<Event>, s: Sys, c: CycleState, r: string, n: Name) returns (t: Sys)
    requires Stands(s0, log, s) && AtWork(s, c, r, NOTIFYING) && c.outcome == Some(FinalOutcome(c))
    ensures var longer := log + [Delivered(r, n, FinalOutcome(c), Some(SENT))];
      Stands(s0, longer, t) && GoesOn(s0, log, longer)
    ensures AtWork(t, c, r, NOTIFYING) && (r, n) in t.proc.value.sent
  {
    hide Inv, Legal, At, OkIn, WellFormed, FinalOutcome, NextProc;
    var e := Delivered(r, n, FinalOutcome(c), Some(SENT));
    MayTell(s, c, r, n);
    Continue(s0, log, s, e);
    NoteNext(s, e);
    t := Next(s, e);
    DeliveryIsNoted(s.proc.value, r, n, FinalOutcome(c));
  }

  lemma DeliveryIsNoted(p: Proc, r: string, n: Name, o: Outcome)
    ensures NextProc(p, Delivered(r, n, o, Some(SENT))) == p.(sent := p.sent + {(r, n)})
  {
  }

  /** The report is handed over, and that it was is stored. */
  lemma TellAndMark(s0: Sys, log: seq<Event>, s: Sys, c: CycleState, r: string, n: Name)
    returns (longer: seq<Event>, t: Sys, d: CycleState)
    requires Stands(s0, log, s) && AtWork(s, c, r, NOTIFYING) && c.outcome == Some(FinalOutcome(c))
    ensures Stands(s0, longer, t) && GoesOn(s0, log, longer) && HasSent(t, r, n) && Unfinished(t, r)
    ensures |longer| == |log| + 2 && longer[|log| + 1].Saved?
    ensures longer[|log|] == Delivered(r, n, FinalOutcome(c), Some(SENT))
    ensures Reported(t, d, r)
  {
    hide Inv, Legal, At, OkIn, WellFormed, FinalOutcome, Reported, Next, HasSent, Unfinished;
    var s1 := Tell(s0, log, s, c, r, n);
    var log1 := log + [Delivered(r, n, FinalOutcome(c), Some(SENT))];
    StatusSaves(s1, c, n, SENT);
    d := c.(notificationStatus := c.notificationStatus[n := SENT]);
    longer, t := SaveIt(s0, log1, s1, d, true);
    StillReported(s1, t, c, d, r);
    GoesOnMore(s0, log, log1, longer);
    MarkedSent(s0, longer, t, d, r, n);
  }

  lemma StillReported(s: Sys, t: Sys, c: CycleState, d: CycleState, r: string)
    requires AtWork(s, c, r, NOTIFYING) && Edges.Kept(s, t) && t.cell == Rec(d) && t.past == {}
    requires !t.proc.value.finishing && d.runId == r && d.state.NOTIFYING? && WellFormed(d)
    requires d.outcome == Some(FinalOutcome(d)) && d.updatesApplied == c.updatesApplied
    ensures Reported(t, d, r)
  {
    hide WellFormed, FinalOutcome;
  }

  lemma MayTell(s: Sys, c: CycleState, r: string, n: Name)
    requires AtWork(s, c, r, NOTIFYING) && c.outcome == Some(FinalOutcome(c))
    ensures OkIn(s, s.proc.value, Delivered(r, n, FinalOutcome(c), Some(SENT)))
  {
    hide WellFormed, FinalOutcome;
  }

  lemma MarkedSent(s0: Sys, log: seq<Event>, t: Sys, d: CycleState, r: string, n: Name)
    requires Stands(s0, log, t) && t.cell == Rec(d) && t.past == {}
    requires d.runId == r && d.state.NOTIFYING? && SentIn(d, n)
    ensures HasSent(t, r, n) && Unfinished(t, r)
  {
    hide Legal, At, Sound;
    NotYet(s0, log);
    hide ArchiveOk, PastOk, BootsOk, ProcOk;
    assert IsRecordOf(t.cell, r) && t.cell in Possible(t);
  }

  /** On any machine, a notifier durably marked sent can be told again. */
  lemma SentIsContactedAgain(s0: Sys, r: string, n: Name)
    requires Start(s0) && ValidRunId(r)
    ensures exists log: seq<Event>, i: nat, m: nat, j: nat :: ToldTwice(s0, log, i, m, j, r, n)
  {
    hide Legal, At, ValidRunId, Inv, HasSent, Unfinished, FinalOutcome, AtWork;
    var log1, s1, c := ToNotifying(s0, r);
    var log2, s2, _ := TellAndMark(s0, log1, s1, c, r, n);
    ToldAgainIsExact(s0, log2, r, n);
    var log3: seq<Event> :| GoesOn(s0, log2, log3) && ToldIn(log3, |log2|, r, n);
    var j :| |log2| <= j < |log3| && log3[j].Delivered? && log3[j].run == r && log3[j].notifier == n;
    GoesOnMore(s0, log1, log2, log3);
    SamePast(s0, log1, log3, |log1|);
    SamePast(s0, log2, log3, |log2|);
    assert log3[|log1|] == log2[|log1|];
    assert OnCycle(At(s0, log3, |log1|), r, NOTIFYING) by {
      IsNotifying(s1, c, r);
    }
    assert ToldTwice(s0, log3, |log1|, |log2|, j, r, n);
  }

  lemma IsNotifying(s: Sys, c: CycleState, r: string)
    requires AtWork(s, c, r, NOTIFYING)
    ensures OnCycle(s, r, NOTIFYING)
  {
    hide WellFormed;
  }

  // ------------------------------------------------------ an archive overwritten

  /** Run `r` is archived as completed at `i`, and as failed at `j`; in between nothing was purged. */
  ghost predicate Overwritten(s0: Sys, log: seq<Event>, i: nat, j: nat, r: string) {
    && Legal(s0, log) && i < j <= |log|
    && CompletedIn(At(s0, log, i), r)
    && r in At(s0, log, j).history && At(s0, log, j).history[r].state.FAILED?
    && forall m | i <= m < j :: !log[m].Purged? && !log[m].OperatorCleared?
  }

  /** The save of the completed record is cut short between its rename and the sync of its directory. */
  lemma HalfCompleted(s0: Sys, log: seq<Event>, s: Sys, n: CycleState, r: string)
    returns (longer: seq<Event>, t: Sys, c: CycleState)
    requires Stands(s0, log, s) && Reported(s, n, r)
    ensures Stands(s0, longer, t) && GoesOn(s0, log, longer) && Stored(t, c)
    ensures t.cell == Rec(c) && c.state.COMPLETED? && c.runId == r && Rec(n) in t.past
    ensures longer == log + [Saved(c, false)]
  {
    hide Inv, Legal, At, WellFormed, FinalOutcome, OkIn, Stored;
    NotifiedMoves(s, n);
    ProceedsMoves(s, n, n, COMPLETED);
    hide Proceeds, Moves;
    longer, t, c := Move(s0, log, s, n, n, COMPLETED, false);
    assert s.cell == Rec(n) by {
      StoredCell(s, n);
    }
  }

  /** ... and the process is killed at that. */
  lemma KilledCompleting(s0: Sys, log: seq<Event>, s: Sys, n: CycleState, r: string)
    returns (longer: seq<Event>, t: Sys, c: CycleState)
    requires Stands(s0, log, s) && Reported(s, n, r)
    ensures Stands(s0, longer, t) && GoesOn(s0, log, longer) && t.proc.None?
    ensures t.cell == Rec(c) && c.state.COMPLETED? && c.runId == r && Rec(n) in t.past
  {
    hide Inv, Legal, At, OkIn, Stored, Reported;
    var log1, s1;
    log1, s1, c := HalfCompleted(s0, log, s, n, r);
    assert s1.proc.Some? by {
      StoredCell(s1, c);
    }
    Continue(s0, log1, s1, Ended(true));
    longer, t := log1 + [Ended(true)], Next(s1, Ended(true));
    GoesOnMore(s0, log, log1, longer);
  }

  /**
   The failing input: a save of the completed record is cut short before its directory reaches the disk; the next
   process archives what it finds; the power goes, and the unfinished record is back, to be failed and archived
   over the completed one.
   */
  lemma CompletedIsOverwritten(s0: Sys, r: string)
    requires Start(s0) && ValidRunId(r)
    ensures exists log: seq<Event>, i: nat, j: nat :: Overwritten(s0, log, i, j, r)
  {
    hide Legal, At, ValidRunId, Inv, FinalOutcome, AtWork, WellFormed;
    var log1, s1, n := ToNotifying(s0, r);
    assert n.runId == r && n.state.NOTIFYING? by {
      NotifyingRecord(s1, n, r);
    }
    WorkFacts(s1, n, r, NOTIFYING);
    var log2, s2, c := KilledCompleting(s0, log1, s1, n, r);
    var log3, s3 := Enter(s0, log2, s2);
    var log4, s4 := PutIt(s0, log3, s3, c);
    var log5, s5 := CanBeReplaced(s0, log4, s4, r, c, Rec(n));
    SamePast(s0, log4, log5, |log4|);
    Lengthens(s0, log4, s4, log5, s5, r);
    assert Overwritten(s0, log5, |log4|, |log5|, r);
  }

  lemma NotifyingRecord(s: Sys, c: CycleState, r: string)
    requires AtWork(s, c, r, NOTIFYING)
    ensures c.runId == r && c.state.NOTIFYING?
  {
    hide WellFormed;
  }

  lemma Lengthens(s0: Sys, log: seq<Event>, s: Sys, longer: seq<Event>, t: Sys, r: string)
    requires Stands(s0, log, s) && Stands(s0, longer, t) && GoesOn(s0, log, longer)
    requires CompletedIn(s, r) && r in t.history && t.history[r].state.FAILED?
    ensures |log| < |longer|
  {
    hide Legal, At;
    assert |log| == |longer| ==> log == longer;
  }

  // ------------------------------------------------- reported done, archived failed

  /**
   At `i` the report that run `r` is done, as `o`, is handed over; at `m` the save of its completed record raises
   with the record in place; by `j` the same process has archived the run as failed.
   */
  ghost predicate DoneButFailed(s0: Sys, log: seq<Event>, i: nat, m: nat, j: nat, r: string, n: Name, o: Outcome) {
    && Legal(s0, log) && i < m < j <= |log|
    && Tells(log[i], r, n, o) && OnCycle(At(s0, log, i), r, NOTIFYING) && AllDone(Some(o))
    && log[m].Saved? && !log[m].settled && log[m].cycle.runId == r && log[m].cycle.state.COMPLETED?
    && r in At(s0, log, j).history && At(s0, log, j).history[r].state.FAILED?
    && forall k | i <= k < j :: log[k].Delivered? || log[k].Saved? || log[k].HistoryPut?
  }

  /** On any machine, a cycle whose success was reported can end up archived as failed. */
  lemma DoneIsArchivedFailed(s0: Sys, r: string, n: Name)
    requires Start(s0) && ValidRunId(r)
    ensures exists log: seq<Event>, i: nat, m: nat, j: nat, o: Outcome :: DoneButFailed(s0, log, i, m, j, r, n, o)
  {
    hide Legal, At, ValidRunId, Inv, HasSent, Unfinished, FinalOutcome, AtWork, Reported, OnCycle;
    var error := ErrorInfo("k", "m", "s", None);
    var log1, s1, c := ToNotifying(s0, r);
    var log2, s2, d := TellAndMark(s0, log1, s1, c, r, n);
    var log3, s3, h := HalfCompleted(s0, log2, s2, d, r);
    assert Recoverable(s3, r);
    var log4, s4 := FailHeld(s0, log3, s3, h, error);
    var log5, s5 := PutIt(s0, log4, s4, s4.cell.cycle);
    SamePast(s0, log1, log5, |log1|) by {
      GoesOnMore(s0, log1, log2, log3);
      GoesOnMore(s0, log1, log3, log4);
      GoesOnMore(s0, log1, log4, log5);
    }
    assert OnCycle(At(s0, log5, |log1|), r, NOTIFYING) by {
      IsNotifying(s1, c, r);
    }
    assert log5[|log2|] == log3[|log2|] && log5[|log1|] == log2[|log1|];
    assert DoneButFailed(s0, log5, |log1|, |log2|, |log5|, r, n, FinalOutcome(c));
  }

  // --------------------------------------------------------- a run that is lost

  /** Run `r` was saved, and nobody finds it; nothing was purged, no operator acted. */
  ghost predicate SavedAndLost(s0: Sys, log: seq<Event>, i: nat, r: string) {
    && Legal(s0, log) && i < |log| && log[i].Saved? && log[i].cycle.runId == r
    && r !in Known(At(s0, log, |log|))
    && forall m | 0 <= m < |log| :: !log[m].Purged? && !log[m].OperatorCleared?
  }

  /** A first save cut short before its directory reached the disk, and a power loss: the run was never there. */
  lemma UnsettledSaveIsLost(s0: Sys, r: string)
    requires Start(s0) && ValidRunId(r)
    ensures exists log: seq<Event>, i: nat :: SavedAndLost(s0, log, i, r)
  {
    hide Legal, At, Inv, OkIn, Moved, IsLegal, Next, ValidRunId;
    FromTheStart(s0);
    var log1, s1 := Enter(s0, [], s0);
    var n := NewCycle(r, "", "", "");
    NewIsCreated(s1, r, "", "", "");
    NewIsWellFormed(s1, n);
    assert IsLegal(n.state, PRECHECK) by {
      FirstIsLegal();
    }
    MayTransition(s1, n, n, PRECHECK, "", "");
    var c := Moved(n, PRECHECK, "", "");
    MovedKeeps(n, PRECHECK, "", "");
    var log2, s2 := SaveIt(s0, log1, s1, c, false);
    var log3, s3 := ComeBack(s0, log2, s2, Empty, map[]);
    GoesOnMore(s0, [], log1, log2);
    GoesOnMore(s0, [], log2, log3);
    assert log3[|log1|] == log2[|log1|] == Saved(c, false);
    assert SavedAndLost(s0, log3, |log1|, r);
  }
}
