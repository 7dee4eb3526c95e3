/**
 The life of a machine: any number of runs, resumes, installs and uninstalls, each under the execution lock, each
 with a configuration of its own, each possibly killed at any effect; between them power cycles, damage to the
 state file, and operator recoveries. Every such life is a legal log, so every theorem
 about legal logs is a theorem about the engine, the reboot controller and the installer as written.
 */
module Lifetime {
  import opened Wrappers
  import opened Records
  import opened Protocol
  import opened Invariants
  import opened Environment
  import opened Reboot
  import Safety
  import Archive
  import Engine
  import Installer
  import Lock

  datatype Deed =
    | Runs(scheduled: bool, force: bool) | Resumes | Installs(root: bool) | Uninstalls(root: bool, purge: bool)
    | LosesPower | IsTamperedWith | IsRecovered
  {
    predicate IsProcess() {
      Runs? || Resumes? || Installs? || Uninstalls?
    }
  }

  class Machine {
    const w: World
    const file: Lock.LockFile

    /** Nobody runs, and nobody has the lock. */
    ghost predicate Quiescent()
      reads w, file
    {
      w.Valid() && !w.Alive() && file.holder.None?
    }

    constructor (s0: Sys)
      requires Start(s0)
      ensures Quiescent() && w.log == [] && w.start == s0 && fresh(w) && fresh(file)
    {
      w := new World(s0);
      file := new Lock.LockFile();
    }

    /** One deed, start to end or to sudden death: afterwards nobody holds the lock. */
    method Do(deed: Deed, pid: nat)
      requires Quiescent()
      modifies w, file
      ensures Quiescent()
    {
      hide World.Valid, Inv, Legal, Next, Ok, At, Start;
      match deed {
        case LosesPower => w.PowerCycle();
        case IsTamperedWith => w.Tamper();
        case IsRecovered => w.OperatorRecovers();
        case _ => Enter(deed, pid);
      }
    }

    /** Take the lock or be refused; do the work; let go of the lock, or have the kernel drop it. */
    method Enter(deed: Deed, pid: nat)
      requires Quiescent() && deed.IsProcess()
      modifies w, file
      ensures Quiescent()
    {
      hide World.Valid, Inv, Legal, Next, Ok, At, Start;
      var lock := new Lock.ExecutionLock(file, pid);
      var entered := lock.Acquire();
      if entered.Failure? {
        return;
      }
      Work(deed);
      if w.Alive() {
        w.End();
        lock.Release();
      } else {
        file.Drop(pid);
      }
    }

    method Work(deed: Deed)
      requires w.Valid() && !w.Alive() && deed.IsProcess()
      modifies w
      ensures w.Valid()
    {
      hide World.Valid, Inv, Legal, Next, Ok, At, Start;
      match deed {
        case Runs(scheduled, force) =>
          w.Begin(RunEntry);
          var engine := AnyEngine();
          var _ := engine.Run(scheduled, force);
        case Resumes =>
          w.Begin(ResumeEntry);
          var engine := AnyEngine();
          var _ := engine.Resume();
        case Installs(root) =>
          w.Begin(InstallEntry);
          var installer := new Installer.Installer(w);
          var _ := installer.Install(root);
        case Uninstalls(root, purge) =>
          w.Begin(UninstallEntry);
          var installer := new Installer.Installer(w);
          var _ := installer.Uninstall(root, purge);
      }
    }

    /** An engine with any configuration at all, on this machine. */
    method AnyEngine() returns (engine: Engine.CycleEngine)
      ensures engine.w == w && engine.Wired() && fresh(engine)
    {
      var config: Engine.Config := *;
      var allowUsers: bool, userWaitS: nat, notifiers: seq<Name>, hostname: string, provider: string := *, *, *, *, *;
      var controller := new RebootController(w, config.policy, allowUsers, userWaitS, config.window);
      engine := new Engine.CycleEngine(w, config, controller, notifiers, hostname, provider);
    }

    /** Whatever is done to the machine, the theorems hold of its history. */
    method Live(deeds: seq<Deed>, pids: seq<nat>)
      requires Quiescent() && |pids| == |deeds|
      modifies w, file
      ensures Quiescent()
      ensures forall r :: Safety.Count(w.log, |w.log|, RebootCalled(r)) <= 2 * w.maxAttempts
      ensures forall r ::
        Safety.Count(w.log, |w.log|, ApplyCalled(r)) <= 1 + Safety.EndsWhileUpgrading(w.start, w.log, |w.log|, r)
      ensures forall r | Archive.CompletedIn(w.sys, r) :: Archive.Truthful(w.sys.history[r])
    {
      hide World.Valid, Inv, Legal, Next, Ok, At, Start;
      for i := 0 to |deeds|
        invariant Quiescent()
      {
        Do(deeds[i], pids[i]);
      }
      Bounded(w);
    }
  }

  lemma Bounded(w: World)
    requires w.Valid()
    ensures forall r :: Safety.Count(w.log, |w.log|, RebootCalled(r)) <= 2 * w.maxAttempts
    ensures forall r ::
      Safety.Count(w.log, |w.log|, ApplyCalled(r)) <= 1 + Safety.EndsWhileUpgrading(w.start, w.log, |w.log|, r)
    ensures forall r | Archive.CompletedIn(w.sys, r) :: Archive.Truthful(w.sys.history[r])
  {
    hide Inv, Next, Ok, At, Start, Legal;
    w.Lives();
    Safety.MaxAttemptsFixed(w.start, w.log, |w.log|);
    forall r ensures Safety.Count(w.log, |w.log|, RebootCalled(r)) <= 2 * w.maxAttempts {
      Safety.RebootBudget(w.start, w.log, |w.log|, r);
    }
    forall r
      ensures Safety.Count(w.log, |w.log|, ApplyCalled(r)) <= 1 + Safety.EndsWhileUpgrading(w.start, w.log, |w.log|, r)
    {
      Safety.ApplyBound(w.start, w.log, |w.log|, r);
    }
    forall r | Archive.CompletedIn(w.sys, r) ensures Archive.Truthful(w.sys.history[r]) {
      Archive.CompletedIsTruthful(w.start, w.log, |w.log|, r);
    }
  }

  /** What the engine reports closed is archived for good, and over. */
  lemma ClosedIsForGood(s: Sys, run: string, code: int)
    requires Inv(s) && Engine.Closed(s, run, code)
    ensures Archive.ArchivedForGood(s, run, s.history[run]) && Archive.Over(s, run)
    ensures forall c | Archive.OnRecord(s, run, c) :: Engine.Concludes(c, code)
  {
    assert run in s.used by {
      hide CellOk, PastOk, ProcOk, BootsOk, Sound, Engine.Concludes;
      assert ShelfOk(s, s.history);
    }
    hide Inv;
    assert Possible(s) == {Empty} && Shelves(s) == {s.history};
  }
}
