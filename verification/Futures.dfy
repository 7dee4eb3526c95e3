/**
 What may still happen. The theorems of `Safety` and `Archive` say what no future brings under a condition; here is
 the other half: where the condition fails, a legal log that brings it about. So each condition is the exact one.
 */
module Futures {
  import opened Wrappers
  import opened States
  import opened Records
  import opened Outcomes
  import opened Protocol
  import opened Invariants
  import opened Edges
  import opened Safety
  import opened Archive

  // -------------------------------------------------------- extending a log

  /** The world after a legal log. */
  ghost predicate Stands(s0: Sys, log: seq<Event>, s: Sys) {
    Legal(s0, log) && Same(At(s0, log, |log|), s)
  }

  /** A legal log goes on, with no purge and nothing done by an operator. */
  ghost predicate GoesOn(s0: Sys, log: seq<Event>, longer: seq<Event>) {
    && Legal(s0, longer) && log <= longer
    && forall m | |log| <= m < |longer| :: !longer[m].Purged? && !longer[m].OperatorCleared?
  }

  /** Nobody tampers with the store from the end of `log` on. */
  ghost predicate Untampered(log: seq<Event>, longer: seq<Event>) {
    forall m | |log| <= m < |longer| :: !longer[m].Tampered?
  }

  lemma Continue(s0: Sys, log: seq<Event>, s: Sys, e: Event)
    requires Stands(s0, log, s) && Ok(s, e) && !e.Purged? && !e.OperatorCleared?
    ensures Stands(s0, log + [e], Next(s, e)) && GoesOn(s0, log, log + [e]) && Inv(s) && Inv(Next(s, e))
  {
    hide Ok, Next, Inv, Start;
    LegalAppend(s0, log, e);
    Reachable(s0, log, |log|);
    Reachable(s0, log + [e], |log| + 1);
  }

  lemma GoesOnMore(s0: Sys, a: seq<Event>, b: seq<Event>, c: seq<Event>)
    requires GoesOn(s0, a, b) && GoesOn(s0, b, c)
    ensures GoesOn(s0, a, c)
  {
    hide Legal;
    forall m | |a| <= m < |c| ensures !c[m].Purged? && !c[m].OperatorCleared? {
      if m < |b| {
        assert c[m] == b[m];
      }
    }
  }

  lemma NotYet(s0: Sys, log: seq<Event>)
    requires Legal(s0, log)
    ensures GoesOn(s0, log, log) && Stands(s0, log, At(s0, log, |log|)) && Inv(At(s0, log, |log|))
  {
    hide Inv, Legal;
    Reachable(s0, log, |log|);
  }

  /** A prefix of a log is what it was. */
  lemma {:induction false} SamePast(s0: Sys, log: seq<Event>, longer: seq<Event>, k: nat)
    requires log <= longer && k <= |log|
    ensures At(s0, longer, k) == At(s0, log, k)
  {
    hide Next;
    if k > 0 {
      SamePast(s0, log, longer, k - 1);
    }
  }

  function Longer(boots: seq<string>): (id: string)
    ensures id != "" && forall b | b in boots :: |b| < |id|
  {
    if boots == [] then "b"
    else
      var last, id := boots[|boots| - 1], Longer(boots[..|boots| - 1]);
      assert forall b | b in boots :: b == last || b in boots[..|boots| - 1];
      if |last| < |id| then id else last + "b"
  }

  /** The power goes, and the directories come back as they might. */
  lemma ComeBack(s0: Sys, log: seq<Event>, s: Sys, x: Cell, h: Shelf) returns (longer: seq<Event>, t: Sys)
    requires Stands(s0, log, s) && x in Possible(s) && h in Shelves(s)
    ensures Stands(s0, longer, t) && GoesOn(s0, log, longer) && Untampered(log, longer) && Inv(t)
    ensures t.cell == x && t.past == {} && t.history == h && t.fading == {} && t.proc.None?
    ensures t.used == s.used && t.unitEnabled == s.unitEnabled
  {
    hide Inv, Legal, At, OkIn, NextIn;
    longer, t := log, s;
    NotYet(s0, log);
    if s.proc.Some? {
      Continue(s0, longer, t, Ended(true));
      longer, t := longer + [Ended(true)], Next(t, Ended(true));
    }
    ghost var log1 := longer;
    var e := Booted(Longer(t.boots), t.kernel, x, h);
    assert Fresh(t, e.id);
    assert Possible(t) == Possible(s) && Shelves(t) == Shelves(s);
    Continue(s0, longer, t, e);
    longer, t := longer + [e], Next(t, e);
    GoesOnMore(s0, log, log1, longer);
  }

  /** A run is started and loads what it finds. */
  lemma Enter(s0: Sys, log: seq<Event>, s: Sys) returns (longer: seq<Event>, t: Sys)
    requires Stands(s0, log, s) && s.proc.None? && !s.cell.Unreadable()
    ensures Stands(s0, longer, t) && GoesOn(s0, log, longer) && Inv(t)
    ensures t == s.(proc := Some(NewProc(RunEntry).(loaded := true)))
    ensures |longer| == |log| + 2 && longer[|log| + 1] == Loaded
  {
    hide Inv, Legal, At;
    Continue(s0, log, s, Began(RunEntry));
    var log1, s1 := log + [Began(RunEntry)], Next(s, Began(RunEntry));
    Continue(s0, log1, s1, Loaded);
    longer, t := log1 + [Loaded], Next(s1, Loaded);
    GoesOnMore(s0, log, log1, longer);
  }

  // ------------------------------------------------------------- failing

  /** A process has a failed cycle in hand, durably. */
  ghost predicate HasFailed(s: Sys, r: string, error: ErrorInfo) {
    && s.past == {} && s.cell.Rec? && Stored(s, s.cell.cycle)
    && s.cell.cycle.runId == r && s.cell.cycle.state.FAILED?
    && s.cell.cycle.outcome == Some(OutcomeFailed) && s.cell.cycle.error == Some(error)
  }

  lemma SaveIt(s0: Sys, log: seq<Event>, s: Sys, c: CycleState, settled: bool) returns (longer: seq<Event>, t: Sys)
    requires Stands(s0, log, s) && s.proc.Some? && OkIn(s, s.proc.value, Saved(c, true))
    ensures Stands(s0, longer, t) && GoesOn(s0, log, longer) && Inv(t)
    ensures longer == log + [Saved(c, settled)] && t.cell == Rec(c) && t.past == Older(s, settled)
    ensures Edges.Kept(s, t) && t.proc.value.finishing == Terminal(c.state)
    ensures Same(t.history, s.history) && Same(t.fading, s.fading)
  {
    hide Inv, Legal, At, OkIn;
    if !settled {
      EitherWay(s, s.proc.value, c);
    }
    Continue(s0, log, s, Saved(c, settled));
    longer, t := log + [Saved(c, settled)], Next(s, Saved(c, settled));
  }

  /** From FAILED, the error and the outcome are recorded. */
  lemma RecordFailure(s0: Sys, log: seq<Event>, s: Sys, f: CycleState, error: ErrorInfo)
    returns (longer: seq<Event>, t: Sys)
    requires Stands(s0, log, s) && Stored(s, f) && f.state.FAILED? && WellFormed(f)
    ensures Stands(s0, longer, t) && GoesOn(s0, log, longer) && Inv(t)
    ensures HasFailed(t, f.runId, error) && Same(t.history, s.history) && Same(t.fading, s.fading)
    ensures |longer| == |log| + 1 && longer[|log|].Saved?
  {
    hide Inv, Legal, At, OkIn, WellFormed, Next;
    var c := f.(error := Some(error), outcome := Some(OutcomeFailed));
    VerdictOnFailureSaves(s, f, error, OutcomeFailed);
    longer, t := SaveIt(s0, log, s, c, true);
  }

  /** The record a process fails a cycle with. */
  lemma FailingRecord(s: Sys, d: CycleState) returns (f: CycleState)
    requires Inv(s) && s.cell == Rec(d) && Recoverable(s, d.runId)
    ensures OkIn(s, s.proc.value, Saved(f, true))
    ensures f.state.FAILED? && f.runId == d.runId && WellFormed(f) && Stored(s, d)
  {
    hide Inv, OkIn, WellFormed, Allowed, Moved, Doomed, IsLegal;
    assert WellFormed(d) by {
      RecordIsSound(s, d);
    }
    if IsLegal(d.state, FAILED) {
      f := Moved(d, FAILED, "", "");
      FailureMoves(s, d);
      MovedIsArc(d, FAILED, "", "");
      MovedKeeps(d, FAILED, "", "");
      MaySave(s, d, f);
    } else {
      f := d.(state := FAILED);
      ForcedFailureSaves(s, d);
    }
  }

  /** The record a process may fail: one it holds, not failed yet; after diagnostics, if a reboot hit it. */
  lemma FailHeld(s0: Sys, log: seq<Event>, s: Sys, d: CycleState, error: ErrorInfo)
    returns (longer: seq<Event>, t: Sys)
    requires Stands(s0, log, s) && s.cell == Rec(d) && Recoverable(s, d.runId)
    ensures Stands(s0, longer, t) && GoesOn(s0, log, longer) && Inv(t)
    ensures HasFailed(t, d.runId, error) && Same(t.history, s.history) && Same(t.fading, s.fading)
    ensures |longer| == |log| + 2 && longer[|log|].Saved? && longer[|log| + 1].Saved?
  {
    hide Legal, At, OkIn, WellFormed, Next, Inv, Recoverable, HasFailed;
    NotYet(s0, log);
    var f := FailingRecord(s, d);
    var log1, s1 := SaveIt(s0, log, s, f, true);
    longer, t := RecordFailure(s0, log1, s1, f, error);
    GoesOnMore(s0, log, log1, longer);
  }

  lemma RecordIsSound(s: Sys, d: CycleState)
    requires Inv(s) && s.cell == Rec(d)
    ensures Sound(d) && WellFormed(d) && !d.state.IDLE?
  {
    hide WellFormed, TrailOk, TruthOk, ArchiveOk, PastOk, ProcOk, BootsOk, Anchored;
  }

  /** A process that has just loaded an unfinished cycle may fail it, after its diagnostics. */
  lemma FailFound(s0: Sys, log: seq<Event>, s: Sys, d: CycleState, error: ErrorInfo)
    returns (longer: seq<Event>, t: Sys)
    requires Stands(s0, log, s) && s.proc.None? && s.cell == Rec(d) && !Terminal(d.state)
    ensures Stands(s0, longer, t) && GoesOn(s0, log, longer) && Inv(t)
    ensures HasFailed(t, d.runId, error) && Same(t.history, s.history) && Same(t.fading, s.fading)
  {
    hide Inv, Legal, At, Doomed;
    var log1, s1 := Enter(s0, log, s);
    assert !d.state.IDLE? by {
      RecordIsSound(s1, d);
    }
    Continue(s0, log1, s1, PreflightCalled);
    var log2, s2 := log1 + [PreflightCalled], Next(s1, PreflightCalled);
    Continue(s0, log2, s2, VerifyCalled);
    var log3, s3 := log2 + [VerifyCalled], Next(s2, VerifyCalled);
    assert Recoverable(s3, d.runId);
    hide Next, OkIn;
    longer, t := FailHeld(s0, log3, s3, d, error);
    GoesOnMore(s0, log, log1, log2);
    GoesOnMore(s0, log, log2, log3);
    GoesOnMore(s0, log, log3, longer);
  }

  lemma PutIt(s0: Sys, log: seq<Event>, s: Sys, c: CycleState) returns (longer: seq<Event>, t: Sys)
    requires Stands(s0, log, s) && Finished(s, c)
    ensures Stands(s0, longer, t) && GoesOn(s0, log, longer) && Inv(t)
    ensures c.runId in t.history && t.history[c.runId] == c && Same(t.cell, s.cell) && Same(t.past, s.past)
    ensures t.proc.Some? && longer == log + [HistoryPut(c, true)]
  {
    hide Inv, Legal, At, SaveOk, DeliveryOk;
    Continue(s0, log, s, HistoryPut(c, true));
    longer, t := log + [HistoryPut(c, true)], Next(s, HistoryPut(c, true));
  }

  // --------------------------------------------- what is archived for good, exactly

  /** Whatever happens short of a purge, `a` is the archive copy of `r`. */
  ghost predicate NeverChanges(s0: Sys, log: seq<Event>, r: string, a: CycleState) {
    forall longer: seq<Event> | GoesOn(s0, log, longer) :: Shelved(At(s0, longer, |longer|).history, r, a)
  }

  function OtherError(a: CycleState): ErrorInfo {
    ErrorInfo("k", if a.error.Some? then a.error.value.message + "m" else "", "", None)
  }

  lemma OtherErrorDiffers(a: CycleState, c: CycleState)
    requires c.error == Some(OtherError(a))
    ensures c != a
  {
    if a.error.Some? {
      assert |OtherError(a).message| == |a.error.value.message| + 1;
    }
  }

  /** A record of the run that may come back, or is being finished, can be put in the archive in place of `a`. */
  lemma CanBeReplaced(s0: Sys, log: seq<Event>, s: Sys, r: string, a: CycleState, x: Cell)
    returns (longer: seq<Event>, t: Sys)
    requires Stands(s0, log, s) && x in Possible(s) && IsRecordOf(x, r) && x != Rec(a)
    ensures Stands(s0, longer, t) && GoesOn(s0, log, longer)
    ensures r in t.history && t.history[r] != a && (!Terminal(x.cycle.state) ==> t.history[r].state.FAILED?)
  {
    hide Legal, At, Inv, Next, OkIn;
    NotYet(s0, log);
    assert s.history in Shelves(s);
    var log1, s1 := ComeBack(s0, log, s, x, s.history);
    var d := x.cycle;
    if Terminal(d.state) {
      var log2, s2 := Enter(s0, log1, s1);
      var log3, s3 := PutIt(s0, log2, s2, d);
      GoesOnMore(s0, log, log1, log2);
      GoesOnMore(s0, log, log2, log3);
      longer, t := log3, s3;
    } else {
      var log2, s2 := FailFound(s0, log1, s1, d, OtherError(a));
      var f := s2.cell.cycle;
      OtherErrorDiffers(a, f);
      var log3, s3 := PutIt(s0, log2, s2, f);
      GoesOnMore(s0, log, log1, log2);
      GoesOnMore(s0, log, log2, log3);
      longer, t := log3, s3;
    }
  }

  /** A process still finishing the run may store it once more, otherwise, and archive that. */
  lemma CanBeRefinished(s0: Sys, log: seq<Event>, s: Sys, r: string, a: CycleState) returns (longer: seq<Event>, t: Sys)
    requires Stands(s0, log, s) && Finishing(s, r)
    ensures Stands(s0, longer, t) && GoesOn(s0, log, longer)
    ensures r in t.history && t.history[r] != a
  {
    hide Legal, At, Next, OkIn;
    NotYet(s0, log);
    var log1, s1 := FailFinishing(s0, log, s, r, OtherError(a));
    hide Inv;
    var f := s1.cell.cycle;
    OtherErrorDiffers(a, f);
    var log2, s2 := PutIt(s0, log1, s1, f);
    GoesOnMore(s0, log, log1, log2);
    longer, t := log2, s2;
  }

  lemma FailFinishing(s0: Sys, log: seq<Event>, s: Sys, r: string, error: ErrorInfo)
    returns (longer: seq<Event>, t: Sys)
    requires Stands(s0, log, s) && Finishing(s, r)
    ensures Stands(s0, longer, t) && GoesOn(s0, log, longer) && Inv(t)
    ensures HasFailed(t, r, error)
  {
    hide Legal, At, Next, OkIn, WellFormed;
    NotYet(s0, log);
    var d := s.cell.cycle;
    RecordIsSound(s, d);
    assert Stored(s, d) by {
    }
    hide Inv;
    if d.state.FAILED? {
      longer, t := RecordFailure(s0, log, s, d, error);
    } else {
      assert !Doomed(s, d);
      longer, t := FailHeld(s0, log, s, d, error);
    }
  }

  /**
   Exactly what is archived for good never changes: if another record of the run may come back, or is still in the
   hands of a process, or the copy itself is not on disk yet, there is a way for the archive to change.
   */
  lemma ForGoodIsExact(s0: Sys, log: seq<Event>, s: Sys, r: string, a: CycleState)
    requires Stands(s0, log, s)
    ensures NeverChanges(s0, log, r, a) <==> ArchivedForGood(s, r, a)
  {
    hide At, Legal, Inv, Next, OkIn, Shelved;
    NotYet(s0, log);
    if ArchivedForGood(s, r, a) {
      hide ArchivedForGood, NeverChanges;
      ForGoodIsEnough(s0, log, r, a);
    } else if h :| h in Shelves(s) && !Shelved(h, r, a) {
      var longer, t := ComeBack(s0, log, s, s.cell, h);
      assert !Shelved(At(s0, longer, |longer|).history, r, a);
    } else if x :| x in Possible(s) && IsRecordOf(x, r) && x != Rec(a) {
      var longer, t := CanBeReplaced(s0, log, s, r, a, x);
      NotShelved(At(s0, longer, |longer|).history, r, a);
    } else {
      var longer, t := CanBeRefinished(s0, log, s, r, a);
      NotShelved(At(s0, longer, |longer|).history, r, a);
    }
  }

  lemma NotShelved(h: Shelf, r: string, a: CycleState)
    requires r in h && h[r] != a
    ensures !Shelved(h, r, a)
  {
  }

  lemma ForGoodIsEnough(s0: Sys, log: seq<Event>, r: string, a: CycleState)
    requires Legal(s0, log) && ArchivedForGood(At(s0, log, |log|), r, a)
    ensures NeverChanges(s0, log, r, a)
  {
    hide At, Legal, ArchivedForGood, Shelved;
    forall longer: seq<Event> | GoesOn(s0, log, longer) ensures Shelved(At(s0, longer, |longer|).history, r, a) {
      SamePast(s0, log, longer, |log|);
      ArchiveIsImmutable(s0, longer, |log|, |longer|, r, a);
    }
  }

  // ------------------------------------------------------------ finality, exactly

  /** No load ever finds the run unfinished again. */
  ghost predicate NeverUnfinished(s0: Sys, log: seq<Event>, r: string) {
    forall longer: seq<Event> | GoesOn(s0, log, longer) :: EndedNow(At(s0, longer, |longer|), r)
  }

  predicate EndedNow(s: Sys, r: string) {
    IsActive(s, r) ==> Terminal(s.cell.cycle.state)
  }

  /** A run is over exactly when every record of it that there may be has ended. */
  lemma EndIsExact(s0: Sys, log: seq<Event>, r: string)
    requires Legal(s0, log) && r in At(s0, log, |log|).used
    ensures NeverUnfinished(s0, log, r) <==> Over(At(s0, log, |log|), r)
  {
    hide At, Legal, Inv, OnRecord;
    var s := At(s0, log, |log|);
    NotYet(s0, log);
    if Over(s, r) {
      hide Over;
      forall longer: seq<Event> | GoesOn(s0, log, longer) ensures EndedNow(At(s0, longer, |longer|), r) {
        SamePast(s0, log, longer, |log|);
        EndedIsFinal(s0, longer, |log|, |longer|, r);
        EndedIsEnded(At(s0, longer, |longer|), r);
      }
    } else {
      var c :| OnRecord(s, r, c) && !Terminal(c.state);
      UnfinishedIsActive(s, r, c);
      assert s.history in Shelves(s);
      var longer, t := ComeBack(s0, log, s, Rec(c), s.history);
      assert !EndedNow(At(s0, longer, |longer|), r);
    }
  }

  lemma EndedIsEnded(s: Sys, r: string)
    requires Over(s, r)
    ensures EndedNow(s, r)
  {
    if IsActive(s, r) {
      assert OnRecord(s, r, s.cell.cycle);
    }
  }

  lemma UnfinishedIsActive(s: Sys, r: string, c: CycleState)
    requires Inv(s) && OnRecord(s, r, c) && !Terminal(c.state)
    ensures Rec(c) in Possible(s) && c.runId == r
  {
    hide Sound, CellOk, PastOk, ProcOk, BootsOk;
    assert forall h: Shelf | h in Shelves(s) && Shelved(h, r, c) :: ShelfOk(s, h);
  }

  // -------------------------------------------------------- conservation, exactly

  /** Every reader finds the run for ever after, unless it is purged or cleared away. */
  ghost predicate NeverLost(s0: Sys, log: seq<Event>, r: string) {
    forall longer: seq<Event> | GoesOn(s0, log, longer) :: r in Known(At(s0, longer, |longer|))
  }

  lemma {:induction false} KeptEver(s0: Sys, log: seq<Event>, i: nat, j: nat, r: string)
    requires Legal(s0, log) && i <= j <= |log| && Secured(At(s0, log, i), r)
    requires forall m | i <= m < j :: !log[m].Purged? && !log[m].OperatorCleared?
    ensures Secured(At(s0, log, j), r)
    decreases j
  {
    hide Inv, Ok, Next, Start, Secured;
    if i < j {
      KeptEver(s0, log, i, j - 1, r);
      Reachable(s0, log, j - 1);
      KeptStep(At(s0, log, j - 1), log[j - 1], r);
    }
  }

  /** A run is never lost exactly when it is in everything that may come back. */
  lemma KeptIsExact(s0: Sys, log: seq<Event>, s: Sys, r: string)
    requires Stands(s0, log, s)
    ensures NeverLost(s0, log, r) <==> Secured(s, r)
  {
    hide At, Legal, Inv;
    NotYet(s0, log);
    if Secured(s, r) {
      hide Secured, Known;
      forall longer: seq<Event> | GoesOn(s0, log, longer) ensures r in Known(At(s0, longer, |longer|)) {
        SamePast(s0, log, longer, |log|);
        KeptEver(s0, longer, |log|, |longer|, r);
        KeptIsKnown(At(s0, longer, |longer|), r);
      }
    } else {
      var x, h :| x in Possible(s) && h in Shelves(s) && r !in IdsOf(x) && r !in h;
      var longer, t := ComeBack(s0, log, s, x, h);
      assert r !in Known(At(s0, longer, |longer|));
    }
  }

  // ----------------------------------------------------------- refusal, exactly

  /** No process gets past its load until an operator acts. */
  ghost predicate NeverLoaded(s0: Sys, log: seq<Event>) {
    forall longer: seq<Event> | GoesOn(s0, log, longer) :: forall m | |log| <= m < |longer| :: !longer[m].Loaded?
  }

  /** Refusal is sticky exactly when every state the directory may come back in is refused. */
  lemma RefusalIsExact(s0: Sys, log: seq<Event>)
    requires Legal(s0, log) && At(s0, log, |log|).proc.None?
    ensures NeverLoaded(s0, log) <==> Refused(At(s0, log, |log|))
  {
    hide At, Legal, Inv;
    var s := At(s0, log, |log|);
    NotYet(s0, log);
    if Refused(s) {
      hide Refused;
      forall longer: seq<Event>, m | GoesOn(s0, log, longer) && |log| <= m < |longer| ensures !longer[m].Loaded? {
        SamePast(s0, log, longer, |log|);
        CorruptionIsRefused(s0, longer, |log|, m);
      }
    } else {
      var x :| x in Possible(s) && !x.Unreadable();
      assert s.history in Shelves(s);
      var log1, s1 := ComeBack(s0, log, s, x, s.history);
      var longer, t := Enter(s0, log1, s1);
      GoesOnMore(s0, log, log1, longer);
      assert longer[|log1| + 1] == Loaded;
    }
  }

  // ------------------------------------------------------ telling again, exactly

  /** Some notifier report of the run is still to come, in some future. */
  ghost predicate MayBeTold(s0: Sys, log: seq<Event>, r: string, n: Name) {
    exists longer: seq<Event> | GoesOn(s0, log, longer) :: ToldIn(longer, |log|, r, n)
  }

  ghost predicate ToldIn(log: seq<Event>, from: nat, r: string, n: Name) {
    exists m | from <= m < |log| :: log[m].Delivered? && log[m].run == r && log[m].notifier == n
  }

  /** The run is not over: an unfinished record of it may come back, or a process is still finishing it. */
  ghost predicate Unfinished(s: Sys, r: string) {
    Finishing(s, r) || exists x | x in Possible(s) :: IsRecordOf(x, r) && !Terminal(x.cycle.state)
  }

  lemma OverStep(s: Sys, e: Event, r: string)
    requires Inv(s) && Ok(s, e) && r in s.used && !Unfinished(s, r)
    ensures r in Next(s, e).used && !Unfinished(Next(s, e), r) && !(e.Delivered? && e.run == r)
  {
    NothingNew(s, e);
    OverIsSilent(s, e, r);
    hide Inv, Ok, Next;
  }

  lemma OverIsSilent(s: Sys, e: Event, r: string)
    requires Ok(s, e) && r in s.used && !Unfinished(s, r)
    ensures !(e.Delivered? && e.run == r) && !(e.Saved? && e.cycle.runId == r) && !Finishing(Next(s, e), r)
  {
    if e.Saved? {
      SavedCell(s, e);
    } else {
      StillFinishing(s, e, r);
    }
    hide Ok, Next;
  }

  lemma {:induction false} OverEver(s0: Sys, log: seq<Event>, i: nat, j: nat, r: string)
    requires Legal(s0, log) && i <= j < |log| && r in At(s0, log, i).used && !Unfinished(At(s0, log, i), r)
    ensures r in At(s0, log, j).used && !Unfinished(At(s0, log, j), r) && !(log[j].Delivered? && log[j].run == r)
    decreases j
  {
    hide Inv, Ok, Next, Start, Unfinished;
    if i < j {
      OverEver(s0, log, i, j - 1, r);
      Reachable(s0, log, j - 1);
      OverStep(At(s0, log, j - 1), log[j - 1], r);
    }
    Reachable(s0, log, j);
    OverStep(At(s0, log, j), log[j], r);
  }

  lemma TellFailure(s0: Sys, log: seq<Event>, s: Sys, r: string, error: ErrorInfo, n: Name) returns (longer: seq<Event>)
    requires Stands(s0, log, s) && HasFailed(s, r, error)
    ensures GoesOn(s0, log, longer) && longer == log + [Delivered(r, n, OutcomeFailed, None)]
  {
    hide Inv, Legal, At, FinalOutcome, SaveOk;
    Continue(s0, log, s, Delivered(r, n, OutcomeFailed, None));
    longer := log + [Delivered(r, n, OutcomeFailed, None)];
  }

  lemma CanBeTold(s0: Sys, log: seq<Event>, s: Sys, r: string, n: Name) returns (longer: seq<Event>)
    requires Stands(s0, log, s) && Unfinished(s, r)
    ensures GoesOn(s0, log, longer) && ToldIn(longer, |log|, r, n)
  {
    hide Inv, Legal, At, Next, OkIn, HasFailed;
    var error := ErrorInfo("k", "m", "s", None);
    var log2, s2;
    if Finishing(s, r) {
      log2, s2 := FailFinishing(s0, log, s, r, error);
    } else {
      var x :| x in Possible(s) && IsRecordOf(x, r) && !Terminal(x.cycle.state);
      assert s.history in Shelves(s);
      var log1, s1 := ComeBack(s0, log, s, x, s.history);
      log2, s2 := FailFound(s0, log1, s1, x.cycle, error);
      GoesOnMore(s0, log, log1, log2);
    }
    longer := TellFailure(s0, log2, s2, r, error, n);
    GoesOnMore(s0, log, log2, longer);
    assert longer[|log2|].Delivered?;
  }

  /**
   A notifier, told or not, may hear of a run again exactly as long as the run is not over. If it was durably
   marked sent, it hears only of a failure.
   */
  lemma ToldAgainIsExact(s0: Sys, log: seq<Event>, r: string, n: Name)
    requires Legal(s0, log) && HasSent(At(s0, log, |log|), r, n)
    ensures MayBeTold(s0, log, r, n) <==> Unfinished(At(s0, log, |log|), r)
    ensures forall longer: seq<Event>, m | GoesOn(s0, log, longer) && |log| <= m < |longer| ::
      longer[m].Delivered? && longer[m].run == r && longer[m].notifier == n ==>
        OnCycle(At(s0, longer, m), r, FAILED)
  {
    hide At, Legal, Inv, OnCycle;
    var s := At(s0, log, |log|);
    NotYet(s0, log);
    if Unfinished(s, r) {
      hide Unfinished, HasSent;
      var longer := CanBeTold(s0, log, s, r, n);
    } else {
      assert r in s.used;
      hide Unfinished, HasSent;
      forall longer: seq<Event>, m | GoesOn(s0, log, longer) && |log| <= m < |longer|
        ensures !(longer[m].Delivered? && longer[m].run == r)
      {
        SamePast(s0, log, longer, |log|);
        OverEver(s0, longer, |log|, m, r);
      }
    }
    forall longer: seq<Event>, m | GoesOn(s0, log, longer) && |log| <= m < |longer|
      ensures longer[m].Delivered? && longer[m].run == r && longer[m].notifier == n ==>
                OnCycle(At(s0, longer, m), r, FAILED)
    {
      SamePast(s0, log, longer, |log|);
      SentIsNotRepeated(s0, longer, |log|, m, r, n);
    }
  }

  // -------------------------------------------------- the recovery path, exactly

  /** An unfinished cycle, one of `runs`, is found, or the store is refused, and no boot will resume it. */
  predicate Stranded(s: Sys, runs: set<string>) {
    !s.unitEnabled && CyclePending(s.cell) && (s.cell.Rec? ==> s.cell.cycle.runId in runs)
  }

  /** Nothing of the kind is found, nor may come back. */
  ghost predicate Clear(s: Sys, runs: set<string>) {
    forall x | x in Possible(s) && CyclePending(x) :: x.Rec? && x.cycle.runId !in runs
  }

  lemma ClearStep(s: Sys, e: Event, runs: set<string>)
    requires Inv(s) && Ok(s, e) && !e.Tampered? && Clear(s, runs) && runs <= s.used
    ensures Clear(Next(s, e), runs) && runs <= Next(s, e).used
  {
    NothingNew(s, e);
    if e.Saved? {
      SavedFrom(s, e);
      SavedCell(s, e);
      hide Inv, Ok, Next, BootFacts, ReportFacts, Doomed, Sound;
      assert s.cell in Possible(s);
    } else {
      CellMoves(s, e);
      StillReadable(s, e);
      hide Inv, Ok, Next;
    }
  }

  lemma StillReadable(s: Sys, e: Event)
    requires Ok(s, e) && !e.Tampered? && forall x | x in Possible(s) :: !x.Unreadable()
    ensures forall x | x in Possible(Next(s, e)) :: !x.Unreadable()
  {
    hide SaveOk, DeliveryOk, NextProc;
    assert s.cell in Possible(s);
    if Silent(e) {
      SilentNext(s, e);
      hide Next, OkIn;
    }
  }

  lemma {:induction false} ClearEver(s0: Sys, log: seq<Event>, i: nat, j: nat, runs: set<string>)
    requires Legal(s0, log) && i <= j <= |log| && Clear(At(s0, log, i), runs) && runs <= At(s0, log, i).used
    requires forall m | i <= m < j :: !log[m].Tampered?
    ensures Clear(At(s0, log, j), runs) && runs <= At(s0, log, j).used
    decreases j
  {
    hide Inv, Ok, Next, Start, Clear;
    if i < j {
      ClearEver(s0, log, i, j - 1, runs);
      Reachable(s0, log, j - 1);
      ClearStep(At(s0, log, j - 1), log[j - 1], runs);
    }
  }

  /** A legal log goes on to leave stranded a cycle that was there before the unit was disabled. */
  ghost predicate MayStrand(s0: Sys, log: seq<Event>, runs: set<string>) {
    exists longer: seq<Event> | GoesOn(s0, log, longer) && Untampered(log, longer) ::
      Stranded(At(s0, longer, |longer|), runs)
  }

  /**
   Once the unit is disabled, a cycle of before, or a store refused without anybody's tampering, can be left without
   it exactly when what the disabling acts on has not reached the disk and an unfinished cycle may come back.
   */
  lemma UndercuttingIsExact(s0: Sys, log: seq<Event>)
    requires Legal(s0, log) && log != [] && log[|log| - 1] == UnitSet(false)
    ensures var s := At(s0, log, |log| - 1);
      Undercuts(s, UnitSet(false)) <==> MayStrand(s0, log, s.used)
  {
    hide Inv, OkIn, Ok, Start, Next, MayStrand, Stranded, Clear, Undercuts;
    var k := |log| - 1;
    var s, t := At(s0, log, k), At(s0, log, |log|);
    assert Permitted(s0, log, k);
    Reachable(s0, log, k);
    NotYet(s0, log);
    Disabled(s);
    if Undercuts(s, UnitSet(false)) {
      CanBeStranded(s0, log, s, t);
    } else {
      NeverStranded(s0, log, s.used);
    }
  }

  lemma NeverStranded(s0: Sys, log: seq<Event>, runs: set<string>)
    requires Legal(s0, log) && Clear(At(s0, log, |log|), runs) && runs <= At(s0, log, |log|).used
    ensures !MayStrand(s0, log, runs)
  {
    hide Legal, At, Stranded, Clear;
    forall longer: seq<Event> | GoesOn(s0, log, longer) && Untampered(log, longer)
      ensures !Stranded(At(s0, longer, |longer|), runs)
    {
      SamePast(s0, log, longer, |log|);
      ClearEver(s0, longer, |log|, |longer|, runs);
      NobodyStranded(At(s0, longer, |longer|), runs);
    }
  }

  lemma CanBeStranded(s0: Sys, log: seq<Event>, s: Sys, t: Sys)
    requires Stands(s0, log, t) && Inv(s) && Undercuts(s, UnitSet(false))
    requires !t.unitEnabled && Possible(t) == Possible(s) && t.history in Shelves(t)
    ensures MayStrand(s0, log, s.used)
  {
    hide Legal, At, Inv;
    var x :| x in s.past && CyclePending(x);
    if x.Rec? {
      StillOnRecord(s, x);
    }
    var longer, u := ComeBack(s0, log, t, x, t.history);
    assert Stranded(At(s0, longer, |longer|), s.used);
  }

  lemma NobodyStranded(s: Sys, runs: set<string>)
    requires Clear(s, runs)
    ensures !Stranded(s, runs)
  {
    assert s.cell in Possible(s);
  }

  lemma Disabled(s: Sys)
    requires Ok(s, UnitSet(false))
    ensures var t := Next(s, UnitSet(false));
      && !t.unitEnabled && Possible(t) == Possible(s) && t.history in Shelves(t) && Same(t.used, s.used)
    ensures !CyclePending(s.cell) && (!Undercuts(s, UnitSet(false)) ==> Clear(Next(s, UnitSet(false)), s.used))
  {
    hide SaveOk, DeliveryOk;
  }

  lemma StillOnRecord(s: Sys, x: Cell)
    requires Inv(s) && x in Possible(s) && x.Rec?
    ensures x.cycle.runId in s.used
  {
    hide Sound, ArchiveOk, ProcOk, BootsOk;
    assert CellOk(s, x);
  }
}
