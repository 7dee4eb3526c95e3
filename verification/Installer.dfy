/** Installing and removing the services: the other party that can touch the recovery path. */
module Installer {
  import opened Wrappers
  import opened States
  import opened Protocol
  import opened Invariants
  import opened Edges
  import opened Accounts
  import opened Environment

  /** An idle store was loaded by this installer process. */
  ghost predicate Idle(s: Sys, entry: Entry) {
    s.proc.Some? && s.proc.value.loaded && s.proc.value.entry == entry && !CyclePending(s.cell)
  }

  lemma MaySetUnit(s: Sys, on: bool)
    requires Idle(s, if on then InstallEntry else UninstallEntry)
    ensures OkIn(s, s.proc.value, UnitSet(on))
  {
  }

  lemma MayPurge(s: Sys)
    requires Idle(s, UninstallEntry)
    ensures OkIn(s, s.proc.value, Purged)
  {
  }

  /** Since `from` a load was refused, a command broke, or something was thrown. */
  ghost predicate WentWrong(log: seq<Event>, from: nat) {
    || Since(log, from, Because(StateError)) || Since(log, from, Because(CommandFailed))
    || Since(log, from, Because(OtherException))
  }

  class Installer {
    const w: World

    constructor (w: World)
      ensures this.w == w
    {
      this.w := w;
    }

    /** Refuses while a cycle is pending, quarantined or of a newer schema. */
    method RequireIdle() returns (r: Result<(), Trouble>)
      requires w.Ready()
      modifies w
      ensures w.Valid() && (Dead(r) <==> !w.Alive())
      ensures w.Alive() ==> w.sys.unitEnabled == old(w.sys.unitEnabled) && Same(w.sys.history, old(w.sys.history))
      ensures w.Alive() && old(w.sys.cell.Rec?) ==> Same(w.sys.cell, old(w.sys.cell))
      ensures r.Success? ==> Idle(w.sys, old(w.P().entry)) && Same(w.sys.cell, old(w.sys.cell))
      ensures Grew(old(w.log), w.log)
      ensures r.Failure? && r.error.Raised? ==> old(CyclePending(w.sys.cell)) || WentWrong(w.log, old(|w.log|))
    {
      hide World.Valid, Inv, Legal, Next, Ok, OkIn, At, Recoverable, Grew, Since;
      LogsGrow();
      var loaded := w.Load();
      if loaded.Failure? {
        return Failure(loaded.error);
      }
      if loaded.value.Some? && !Terminal(loaded.value.value.state) {
        return Failure(Raised(CommandFailed));
      }
      return Success(());
    }

    /** Success means the boot-resume unit is enabled; a pending cycle is left exactly as it was. */
    method Install(root: bool) returns (r: Result<bool, Trouble>)
      requires w.Ready() && w.P() == NewProc(InstallEntry)
      modifies w
      ensures w.Valid() && (Dead(r) <==> !w.Alive())
      ensures r.Failure? ==> r.error.Died?
      ensures r == Success(true) ==> w.sys.unitEnabled && !old(CyclePending(w.sys.cell))
      ensures w.Alive() && old(CyclePending(w.sys.cell)) ==>
        r == Success(false) && w.sys.unitEnabled == old(w.sys.unitEnabled)
      ensures r == Success(false) ==> !root || old(CyclePending(w.sys.cell)) || WentWrong(w.log, old(|w.log|))
      ensures w.Alive() ==> Same(w.sys.history, old(w.sys.history))
      ensures w.Alive() && old(w.sys.cell.Rec?) ==> Same(w.sys.cell, old(w.sys.cell))
    {
      hide World.Valid, Inv, Legal, Next, Ok, OkIn, At, Grew, Since;
      LogsGrow();
      if !root {
        return Success(false);
      }
      var idle := RequireIdle();
      if idle.Failure? {
        return if idle.error.Died? then Failure(Died) else Success(false);
      }
      var prepared := w.Prepare();   // unit files written and verified
      if !prepared {
        return Success(false);
      }
      MaySetUnit(w.sys, true);
      var enabled := w.SetResumeUnit(true);
      if enabled.Failure? {
        return if enabled.error.Died? then Failure(Died) else Success(false);
      }
      var timer := w.Prepare();
      return Success(timer);
    }

    /** Success means the unit is gone and, when asked for, so is all state; never while a cycle is pending. */
    method Uninstall(root: bool, purge: bool) returns (r: Result<bool, Trouble>)
      requires w.Ready() && w.P() == NewProc(UninstallEntry)
      modifies w
      ensures w.Valid() && (Dead(r) <==> !w.Alive())
      ensures r.Failure? ==> r.error.Died?
      ensures r == Success(true) ==> !w.sys.unitEnabled && !old(CyclePending(w.sys.cell))
      ensures r == Success(true) && purge ==> w.sys.cell.Empty? && w.sys.history == map[]
      ensures w.Alive() && old(CyclePending(w.sys.cell)) ==>
        r == Success(false) && w.sys.unitEnabled == old(w.sys.unitEnabled) && Same(w.sys.history, old(w.sys.history))
      ensures r == Success(false) ==> !root || old(CyclePending(w.sys.cell)) || WentWrong(w.log, old(|w.log|))
      ensures w.Alive() && !purge ==> Same(w.sys.history, old(w.sys.history))
    {
      hide World.Valid, Inv, Legal, Next, Ok, OkIn, At, Grew, Since;
      LogsGrow();
      if !root {
        return Success(false);
      }
      var idle := RequireIdle();
      if idle.Failure? {
        return if idle.error.Died? then Failure(Died) else Success(false);
      }
      if purge {
        var target := w.Prepare();   // the purge target is acceptable
        if !target {
          return Success(false);
        }
      }
      var unitFile := w.Flag();
      if unitFile || w.sys.unitEnabled {
        MaySetUnit(w.sys, false);
        var disabled := w.SetResumeUnit(false);
        if disabled.Failure? {
          return if disabled.error.Died? then Failure(Died) else Success(false);
        }
      }
      var unlinked := w.Prepare();
      if !unlinked {
        return Success(false);
      }
      if purge {
        MayPurge(w.sys);
        var purged := w.PurgeState();
        if purged.Failure? {
          return if purged.error.Died? then Failure(Died) else Success(false);
        }
      }
      return Success(true);
    }
  }
}
