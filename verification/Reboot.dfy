/** Reboot policy, the ordered reboot itself, and the proof that it happened. */
module Reboot {
  import opened Wrappers
  import opened States
  import opened Records
  import opened Protocol
  import opened Invariants
  import opened Edges
  import opened Accounts
  import opened Environment
  import Window

  datatype Reason = PolicyForbids | UsersLoggedIn | WindowTooShort
  datatype Decision = DoReboot | DeferManual(reason: Reason) | Skip

  /** Only gates and sleeping changed. */
  ghost predicate Waited(s: Sys, t: Sys) {
    && s.proc.Some? && t.proc.Some? && SameEnv(s, t) && Safer(s, t) && SameDeeds(s.proc.value, t.proc.value)
    && s.proc.value.slept <= t.proc.value.slept
  }

  lemma WaitBegins(s: Sys, t: Sys)
    requires s.proc.Some? && t.proc.Some? && SameEnv(s, t) && Safer(s, t) && SameDeeds(s.proc.value, t.proc.value)
    requires s.proc.value.slept <= t.proc.value.slept
    ensures Waited(s, t)
  {
    hide Recoverable;
  }

  lemma NoWait(s: Sys)
    requires s.proc.Some?
    ensures Waited(s, s)
  {
    hide Recoverable;
  }

  lemma WaitsJoin(s: Sys, t: Sys, u: Sys)
    requires Waited(s, t) && Waited(t, u)
    ensures Waited(s, u)
  {
    hide Recoverable;
  }

  lemma WaitGoesOn(s: Sys, t: Sys, u: Sys)
    requires Waited(s, t) && u.proc.Some? && SameEnv(t, u) && Safer(t, u) && SameDeeds(t.proc.value, u.proc.value)
    requires t.proc.value.slept <= u.proc.value.slept
    ensures Waited(s, u)
  {
    hide Recoverable;
  }

  /** A reboot is decided, with a window check for this estimate. */
  predicate Decided(p: Proc, window: Window.Window, estimate: nat) {
    DecisionGates(p) && p.window == Some(Vet(window, estimate))
  }

  /** The in-memory record a reboot attempt saves before its command. */
  function Attempted(c: CycleState, bootId: string, kernel: string, at: string): CycleState {
    c.(bootIdBefore := Some(bootId), bootIdAfter := None, kernelBefore := kernel,
       rebootInitiatedAt := if Truthy(c.rebootInitiatedAt) then c.rebootInitiatedAt else Some(at),
       rebootAttempts := c.rebootAttempts + 1)
  }

  lemma AttemptIsPaid(s: Sys, c: CycleState, at: string)
    requires AtReboot(s, c.runId) && s.cell == Rec(c) && SameBoot(s, c) && WellFormed(c)
    requires c.rebootAttempts < s.maxAttempts && at != "" && ReadyGates(s.proc.value)
    requires FreshGate in s.proc.value.gates
    ensures var next := Attempted(c, Current(s), s.kernel, at);
      && OkIn(s, s.proc.value, Saved(next, true))
      && next.state.REBOOTING? && next.runId == c.runId && next.rebootAttempts == c.rebootAttempts + 1
      && next.initialRebootCompleted == c.initialRebootCompleted && next.updatesApplied == c.updatesApplied
      && next.rebootBeforeUpdates == c.rebootBeforeUpdates && SameBoot(s, next)
  {
    var next := Attempted(c, Current(s), s.kernel, at);
    assert EditsRebooting(s, s.proc.value, c, next);
    assert WellFormed(next) by {
      hide ValidRunId, DurationOk;
    }
    hide EditsRebooting;
    MaySave(s, c, next);
  }

  lemma MayCommand(s: Sys, run: string)
    requires s.proc.Some? && s.proc.value.loaded && OnCycle(s, run, REBOOTING) && s.proc.value.paid && s.past == {}
    requires BeforeReboot in s.proc.value.hooks && ReadyGates(s.proc.value)
    ensures OkIn(s, s.proc.value, RebootCalled(run))
  {
  }

  /** One more attempt is on record, of the same cycle. */
  predicate OneMore(c: CycleState, next: CycleState) {
    && next.runId == c.runId && next.rebootAttempts == c.rebootAttempts + 1
    && next.initialRebootCompleted == c.initialRebootCompleted && next.updatesApplied == c.updatesApplied
    && next.rebootBeforeUpdates == c.rebootBeforeUpdates
  }

  lemma SameRun(c: CycleState, next: CycleState)
    requires OneMore(c, next)
    ensures Same(next.runId, c.runId)
  {
  }

  /** The record as the attempt left it, and whether the command was accepted. */
  datatype Tried = Tried(cycle: CycleState, accepted: bool)

  lemma StillAtReboot(s: Sys, t: Sys, c: CycleState)
    requires AtReboot(s, c.runId) && Same(s.cell, Rec(c)) && SameBoot(s, c) && Waited(s, t)
    ensures AtReboot(t, c.runId) && Same(t.cell, Rec(c)) && SameBoot(t, c)
    ensures t.proc.value.applying == s.proc.value.applying && Same(t.proc.value.hooks, s.proc.value.hooks)
    ensures FreshGate in s.proc.value.gates <==> FreshGate in t.proc.value.gates
  {
    hide Safer;
  }

  lemma SameBootCarries(s: Sys, t: Sys, c: CycleState)
    requires SameBoot(s, c) && Same(t.boots, s.boots)
    ensures SameBoot(t, c)
  {
  }

  class RebootController {
    const w: World
    const policy: Policy
    const allowUsers: bool
    const userWaitS: nat
    const window: Window.Window

    constructor (w: World, policy: Policy, allowUsers: bool, userWaitS: nat, window: Window.Window)
      ensures this.w == w && this.policy == policy && this.allowUsers == allowUsers
      ensures this.userWaitS == userWaitS && this.window == window
    {
      this.w := w;
      this.policy := policy;
      this.allowUsers := allowUsers;
      this.userWaitS := userWaitS;
      this.window := window;
    }

    /**
     Policy, sessions, window. A reboot is decided only with all three passed after the last wait, and refused only
     for a check that failed.
     */
    method Evaluate(required: bool, estimate: nat) returns (r: Result<Decision, Trouble>)
      requires w.Ready() && w.sys.cell.Rec? && required == w.sys.cell.cycle.rebootRequired
      modifies w
      ensures w.Valid() && (Dead(r) <==> !w.Alive()) && Grew(old(w.log), w.log)
      ensures w.Alive() ==> Waited(old(w.sys), w.sys)
      ensures w.Alive() ==> w.P().slept <= old(w.P().slept) + userWaitS
      ensures r.Failure? ==> r.error.Died?
      ensures r.Success? ==> (r.value.Skip? <==> !required && !policy.Always?)
      ensures r.Success? ==>
        (r.value == DeferManual(PolicyForbids) <==> required && (policy.Never? || policy.NotifyOnly?))
      ensures r == Success(DeferManual(UsersLoggedIn)) ==> !allowUsers && Stayed(w.log, old(|w.log|))
      ensures r == Success(DeferManual(WindowTooShort)) ==>
        w.P().window == Some(Vet(window, estimate)) && WindowGate !in w.P().gates
      ensures r == Success(DoReboot) ==> Decided(w.P(), window, estimate)
      ensures r.Success? && !r.value.DoReboot? ==> Forbidden(w.log, old(|w.log|))
      ensures r.Success? ==> Since(w.log, old(|w.log|), Found(PolicyCheck(policy, required)))
      ensures r == Success(DoReboot) ==> Considered(w.log, old(|w.log|), required)
    {
      hide World.Valid, Inv, Legal, Next, Ok, OkIn, At, Recoverable, Waited, Safer, SameEnv, SameDeeds, Grew, Since;
      LogsGrow();
      ghost var start := w.sys;
      w.CheckPolicy(policy, required);
      WaitBegins(start, w.sys);
      if policy.Never? || policy.NotifyOnly? {
        return Success(if required then DeferManual(PolicyForbids) else Skip);
      }
      if policy.WhenRequired? && !required {
        return Success(Skip);
      }
      ghost var before := w.sys;
      if allowUsers {
        w.WaiveUsers(true);
        WaitGoesOn(start, before, w.sys);
      } else {
        var stay :- AwaitUsers();
        WaitsJoin(start, before, w.sys);
        if stay {
          return Success(DeferManual(UsersLoggedIn));
        }
      }
      before := w.sys;
      var fits := w.WindowAllows(window, estimate);
      WaitGoesOn(start, before, w.sys);
      if !fits {
        return Success(DeferManual(WindowTooShort));
      }
      return Success(DoReboot);
    }

    /** The configured policy was held against what is required, and users were waived, if configured, or looked for. */
    ghost predicate Considered(log: seq<Event>, from: nat, required: bool) {
      && Since(log, from, Found(PolicyCheck(policy, required)))
      && Since(log, from, Found(if allowUsers then UsersCheck(true, true) else UsersCheck(false, false)))
    }

    /** Users were there at the last look. */
    ghost predicate Stayed(log: seq<Event>, from: nat) {
      Since(log, from, Found(UsersCheck(false, true)))
    }

    /**
     Wait for users to log out, never longer than configured; says whether they are still there. It gives up
     waiting only when the time is used up, or somebody came back after a moment when nobody was there.
     */
    method AwaitUsers() returns (r: Result<bool, Trouble>)
      requires w.Ready() && PolicyGate in w.P().gates
      modifies w
      ensures w.Valid() && (Dead(r) <==> !w.Alive()) && Grew(old(w.log), w.log)
      ensures w.Alive() ==> Waited(old(w.sys), w.sys) && w.P().slept <= old(w.P().slept) + userWaitS
      ensures r.Failure? ==> r.error.Died?
      ensures r == Success(false) ==>
        {PolicyGate, UsersGate} <= w.P().gates && Since(w.log, old(|w.log|), Found(UsersCheck(false, false)))
      ensures r == Success(true) ==> Stayed(w.log, old(|w.log|)) && Forbidden(w.log, old(|w.log|))
      ensures r == Success(true) ==>
        || w.P().slept == old(w.P().slept) + userWaitS
        || Since(w.log, old(|w.log|), Found(UsersCheck(false, false)))
    {
      hide World.Valid, Inv, Legal, Next, Ok, OkIn, At, Recoverable, Waited, Safer, SameEnv, SameDeeds, Shows, Grew,
           Since;
      LogsGrow();
      ghost var start := w.sys;
      var loggedIn :- w.UsersLoggedIn();
      WaitBegins(start, w.sys);
      if !loggedIn {
        return Success(false);
      }
      ghost var before := w.sys;
      loggedIn :- w.UsersLoggedIn();
      WaitGoesOn(start, before, w.sys);
      before := w.sys;
      var _ :- Outwait(loggedIn);
      WaitsJoin(start, before, w.sys);
      before := w.sys;
      loggedIn :- w.UsersLoggedIn();
      WaitGoesOn(start, before, w.sys);
      return Success(loggedIn);
    }

    /** Look again every half minute while somebody is logged in and there is time left. */
    method Outwait(first: bool) returns (r: Result<(), Trouble>)
      requires w.Ready() && PolicyGate in w.P().gates
      modifies w
      ensures w.Valid() && (Dead(r) <==> !w.Alive()) && Grew(old(w.log), w.log)
      ensures w.Alive() ==> Waited(old(w.sys), w.sys) && w.P().slept <= old(w.P().slept) + userWaitS
      ensures r.Failure? ==> r.error.Died?
      ensures r.Success? ==> PolicyGate in w.P().gates
      ensures r.Success? && first && w.P().slept < old(w.P().slept) + userWaitS ==>
        Since(w.log, old(|w.log|), Found(UsersCheck(false, false)))
    {
      hide World.Valid, Inv, Legal, Next, Ok, OkIn, At, Recoverable, Waited, Safer, SameEnv, SameDeeds, Shows, Grew,
           Since;
      LogsGrow();
      ghost var start := w.sys;
      ghost var log0 := w.log;
      NoWait(start);
      var loggedIn, waited := first, 0;
      while loggedIn && waited < userWaitS
        invariant w.Ready() && Waited(start, w.sys) && waited <= userWaitS && Grew(log0, w.log)
        invariant w.P().slept == old(w.P().slept) + waited && PolicyGate in w.P().gates
        invariant first && !loggedIn ==> Since(w.log, |log0|, Found(UsersCheck(false, false)))
        decreases userWaitS - waited
      {
        var delay := if userWaitS - waited < 30 then userWaitS - waited else 30;
        ghost var before := w.sys;
        var _ :- w.Sleep(delay);
        WaitGoesOn(start, before, w.sys);
        waited := waited + delay;
        before := w.sys;
        loggedIn :- w.UsersLoggedIn();
        WaitGoesOn(start, before, w.sys);
      }
      return Success(());
    }

    /** Check the resume path and make the pre-reboot facts durable: only then is a command paid for. */
    method Commit(c: CycleState) returns (r: Result<CycleState, Trouble>)
      requires w.Ready() && AtReboot(w.sys, c.runId) && Same(w.sys.cell, Rec(c)) && SameBoot(w.sys, c)
      requires DecisionGates(w.P()) && FreshGate in w.P().gates && c.rebootAttempts < w.maxAttempts
      modifies w
      ensures w.Valid() && (Dead(r) <==> !w.Alive())
      ensures w.Alive() ==>
        && AtReboot(w.sys, c.runId) && Same(w.sys.boots, old(w.sys.boots)) && w.P().applying == old(w.P().applying)
        && FreshGate in w.P().gates
      ensures r.Success? ==>
        && Same(w.sys.cell, Rec(r.value)) && SameBoot(w.sys, r.value) && OneMore(c, r.value)
        && w.sys.past == {} && w.P().paid && Same(w.P().hooks, old(w.P().hooks)) && ReadyGates(w.P())
        && w.P().window == old(w.P().window)
      ensures r.Failure? && r.error.Raised? ==> r.error.exn.RebootError? || r.error.exn.OtherException?
      ensures Grew(old(w.log), w.log) && Accounted(w.log, old(|w.log|), r)
    {
      hide World.Valid, Inv, Legal, Next, Ok, OkIn, At, Recoverable, WellFormed, Attempted, Grew, Since;
      LogsGrow();
      assert WellFormed(c) by {
        w.Knows(c);
      }
      var safe := w.ResumePathOk();
      if !safe {
        return Failure(Raised(RebootError));
      }
      var bootId :- w.BootId();
      if bootId == "" {
        var _ :- w.Confirm(c);
        return Failure(Raised(RebootError));
      }
      assert w.sys.maxAttempts == w.maxAttempts by {
        w.Lives();
      }
      r := Persist(c, bootId);
    }

    /** Save the pre-reboot facts of a boot identity just read: the attempt is then paid for. */
    method Persist(c: CycleState, bootId: string) returns (r: Result<CycleState, Trouble>)
      requires w.Ready() && AtReboot(w.sys, c.runId) && Same(w.sys.cell, Rec(c)) && SameBoot(w.sys, c)
      requires ReadyGates(w.P()) && FreshGate in w.P().gates && c.rebootAttempts < w.sys.maxAttempts
      requires WellFormed(c) && bootId == Current(w.sys)
      modifies w
      ensures w.Valid() && (Dead(r) <==> !w.Alive())
      ensures w.Alive() ==>
        && AtReboot(w.sys, c.runId) && Same(w.sys.boots, old(w.sys.boots)) && w.P().applying == old(w.P().applying)
        && FreshGate in w.P().gates
      ensures r.Success? ==>
        && Same(w.sys.cell, Rec(r.value)) && SameBoot(w.sys, r.value) && OneMore(c, r.value)
        && w.sys.past == {} && w.P().paid && Same(w.P().hooks, old(w.P().hooks)) && ReadyGates(w.P())
        && w.P().window == old(w.P().window)
      ensures r.Failure? && r.error.Raised? ==> r.error.exn.RebootError? || r.error.exn.OtherException?
      ensures Grew(old(w.log), w.log) && Accounted(w.log, old(|w.log|), r)
    {
      hide World.Valid, Inv, Legal, Next, Ok, OkIn, At, Recoverable, WellFormed, Attempted, Grew, Since;
      LogsGrow();
      var at := w.NowIso();
      var next := Attempted(c, bootId, w.sys.kernel, at);
      AttemptIsPaid(w.sys, c, at);
      var _ :- w.Save(c, next);
      return Success(next);
    }

    /** Before a further attempt the decision is made afresh; before the first it still stands. */
    method Reevaluate(c: CycleState, estimate: nat) returns (r: Result<(), Trouble>)
      requires w.Ready() && AtReboot(w.sys, c.runId) && Same(w.sys.cell, Rec(c)) && SameBoot(w.sys, c)
      requires FreshGate in w.P().gates && (c.rebootAttempts == 0 ==> Decided(w.P(), window, estimate))
      modifies w
      ensures w.Valid() && (Dead(r) <==> !w.Alive())
      ensures w.Alive() ==>
        && AtReboot(w.sys, c.runId) && Same(w.sys.cell, Rec(c)) && SameBoot(w.sys, c)
        && w.P().applying == old(w.P().applying) && FreshGate in w.P().gates && Same(w.P().hooks, old(w.P().hooks))
      ensures r.Success? ==> Decided(w.P(), window, estimate)
      ensures r.Success? && c.rebootAttempts > 0 ==> Considered(w.log, old(|w.log|), c.rebootRequired)
      ensures r.Failure? && r.error.Raised? ==> r.error.exn.RebootError?
      ensures Grew(old(w.log), w.log) && Accounted(w.log, old(|w.log|), r)
    {
      hide World.Valid, Inv, Legal, Next, Ok, OkIn, At, Recoverable, SameBoot, AtReboot, Decided, Grew, Since;
      LogsGrow();
      if c.rebootAttempts == 0 {
        return Success(());
      }
      assert c.rebootRequired == w.sys.cell.cycle.rebootRequired;
      ghost var before := w.sys;
      var decision :- Evaluate(c.rebootRequired, estimate);
      StillAtReboot(before, w.sys, c);
      if !decision.DoReboot? {
        return Failure(Raised(RebootError));
      }
      return Success(());
    }

    /** Issue the paid-for command; says whether it was accepted, and if not waits when there is another attempt. */
    method Command(c: CycleState) returns (r: Result<bool, Trouble>)
      requires w.Ready() && AtReboot(w.sys, c.runId) && Same(w.sys.cell, Rec(c)) && SameBoot(w.sys, c)
      requires BeforeReboot in w.P().hooks && FreshGate in w.P().gates
      requires ReadyGates(w.P()) && w.P().paid && w.sys.past == {}
      modifies w
      ensures w.Valid() && (Dead(r) <==> !w.Alive())
      ensures w.Alive() ==>
        && AtReboot(w.sys, c.runId) && Same(w.sys.cell, Rec(c))
        && w.P().applying == old(w.P().applying) && FreshGate in w.P().gates
      ensures r == Success(false) ==> SameBoot(w.sys, c) && BeforeReboot in w.P().hooks
      ensures r == Success(false) ==>
        && Since(w.log, old(|w.log|), Because(CommandFailed))
        && w.P().slept == old(w.P().slept) + if c.rebootAttempts < w.maxAttempts then 30 else 0
      ensures r.Success? ==> w.P().vetted == old(w.P().window) && Since(w.log, old(|w.log|), Commanded(c.runId))
      ensures r.Failure? && r.error.Raised? ==> r.error.exn.OtherException?
      ensures Grew(old(w.log), w.log) && Accounted(w.log, old(|w.log|), r)
    {
      hide World.Valid, Inv, Legal, Next, Ok, OkIn, At, Recoverable, SameBoot, ReadyGates, Grew, Since;
      LogsGrow();
      MayCommand(w.sys, c.runId);
      ghost var before := w.sys;
      var sent := w.Rebooter(c.runId);
      if sent.Success? {
        return Success(true);
      }
      if sent.error.Died? || !sent.error.exn.CommandFailed? {
        return Failure(sent.error);
      }
      if c.rebootAttempts < w.maxAttempts {
        var _ :- w.Sleep(30);
      }
      SameBootCarries(before, w.sys, c);
      return Success(false);
    }

    /**
     One attempt: re-evaluate unless it is the first, save the pre-reboot facts, command a reboot; after a failed
     command wait, if there is another attempt to come.
     */
    method TryOnce(c: CycleState, estimate: nat) returns (r: Result<Tried, Trouble>)
      requires w.Ready() && AtReboot(w.sys, c.runId) && Same(w.sys.cell, Rec(c)) && SameBoot(w.sys, c)
      requires BeforeReboot in w.P().hooks && FreshGate in w.P().gates && c.rebootAttempts < w.maxAttempts
      requires c.rebootAttempts == 0 ==> Decided(w.P(), window, estimate)
      modifies w
      ensures w.Valid() && (Dead(r) <==> !w.Alive())
      ensures w.Alive() ==>
        AtReboot(w.sys, c.runId) && w.P().applying == old(w.P().applying) && FreshGate in w.P().gates
      ensures r.Success? ==>
        && Same(w.sys.cell, Rec(r.value.cycle)) && OneMore(c, r.value.cycle)
        && (!r.value.accepted ==> SameBoot(w.sys, r.value.cycle) && BeforeReboot in w.P().hooks)
        && (!r.value.accepted ==> Since(w.log, old(|w.log|), Because(CommandFailed)))
        && w.P().vetted == Some(Vet(window, estimate)) && Since(w.log, old(|w.log|), Commanded(c.runId))
        && (c.rebootAttempts > 0 ==> Considered(w.log, old(|w.log|), c.rebootRequired))
      ensures r.Failure? && r.error.Raised? ==> r.error.exn.RebootError? || r.error.exn.OtherException?
      ensures Grew(old(w.log), w.log) && Accounted(w.log, old(|w.log|), r)
    {
      hide World.Valid, Inv, Legal, Next, Ok, OkIn, At, Recoverable, SameBoot, AtReboot, DecisionGates, ReadyGates,
           OneMore, Grew, Since;
      LogsGrow();
      var _ :- Reevaluate(c, estimate);
      var cycle :- Commit(c);
      SameRun(c, cycle);
      var accepted :- Command(cycle);
      return Success(Tried(cycle, accepted));
    }

    /**
     Save the pre-reboot facts, then command a reboot; on a failed command wait, re-evaluate and retry
     within the budget. Returning means a command was accepted: same boot still, or already the next.
     */
    method PrepareAndReboot(c: CycleState, estimate: nat) returns (r: Result<CycleState, Trouble>)
      requires w.Ready() && AtReboot(w.sys, c.runId) && Same(w.sys.cell, Rec(c)) && SameBoot(w.sys, c)
      requires BeforeReboot in w.P().hooks && Decided(w.P(), window, estimate) && FreshGate in w.P().gates
      modifies w
      ensures w.Valid() && (Dead(r) <==> !w.Alive())
      ensures w.Alive() ==>
        AtReboot(w.sys, c.runId) && w.P().applying == old(w.P().applying) && FreshGate in w.P().gates
      ensures r.Success? ==>
        && Same(w.sys.cell, Rec(r.value)) && r.value.runId == c.runId
        && c.rebootAttempts < r.value.rebootAttempts <= w.maxAttempts
        && r.value.initialRebootCompleted == c.initialRebootCompleted && r.value.updatesApplied == c.updatesApplied
        && r.value.rebootBeforeUpdates == c.rebootBeforeUpdates
        && w.P().vetted == Some(Vet(window, estimate)) && Since(w.log, old(|w.log|), Commanded(c.runId))
      ensures r.Failure? && r.error.Raised? ==> r.error.exn.RebootError? || r.error.exn.OtherException?
      ensures Grew(old(w.log), w.log) && Accounted(w.log, old(|w.log|), r)
    {
      hide World.Valid, Inv, Legal, Next, Ok, OkIn, At, Recoverable, SameBoot, AtReboot, Decided, Grew, Since;
      LogsGrow();
      ghost var log0 := w.log;
      var cycle := c;
      while cycle.rebootAttempts < w.maxAttempts
        invariant w.Ready() && AtReboot(w.sys, c.runId) && Same(w.sys.cell, Rec(cycle)) && SameBoot(w.sys, cycle)
        invariant BeforeReboot in w.P().hooks && c.rebootAttempts <= cycle.rebootAttempts
        invariant w.P().applying == old(w.P().applying) && cycle.runId == c.runId && FreshGate in w.P().gates
        invariant cycle.rebootBeforeUpdates == c.rebootBeforeUpdates
        invariant cycle.initialRebootCompleted == c.initialRebootCompleted && cycle.updatesApplied == c.updatesApplied
        invariant cycle.rebootAttempts == 0 ==> Decided(w.P(), window, estimate)
        invariant Grew(log0, w.log)
        decreases w.maxAttempts - cycle.rebootAttempts
      {
        var tried :- TryOnce(cycle, estimate);
        cycle := tried.cycle;
        if tried.accepted {
          return Success(cycle);
        }
      }
      var spent := w.BudgetSpent(cycle);
      assert spent;
      return Failure(Raised(RebootError));
    }

    /** Confirms a genuine reboot, and the kernel it was for, or raises. */
    method VerifyRebooted(c: CycleState) returns (r: Result<string, Trouble>)
      requires w.Ready() && Same(w.sys.cell, Rec(c))
      modifies w
      ensures w.Valid() && (Dead(r) <==> !w.Alive()) && Grew(old(w.log), w.log)
      ensures w.Alive() ==> Same(w.sys, old(w.sys))
      ensures r.Success? ==>
        && r.value == Current(w.sys) != "" && Truthy(c.bootIdBefore)
        && !SameBoot(w.sys, c) && KernelAsExpected(w.sys, c)
      ensures r.Failure? && r.error.Raised? && !r.error.exn.OtherException? ==>
        && r.error.exn.RebootError?
        && (Current(w.sys) == "" || !Truthy(c.bootIdBefore) || SameBoot(w.sys, c) || !KernelAsExpected(w.sys, c))
      ensures Accounted(w.log, old(|w.log|), r)
    {
      hide World.Valid, Inv, Legal, Next, Ok, OkIn, At, Recoverable, Grew, Since;
      var current :- w.Confirm(c);
      if !Truthy(c.bootIdBefore) || current == "" {
        return Failure(Raised(RebootError));
      }
      if Some(current) == c.bootIdBefore {
        return Failure(Raised(RebootError));
      }
      if Truthy(c.expectedKernel) && w.sys.kernel != c.expectedKernel.value {
        return Failure(Raised(RebootError));
      }
      return Success(current);
    }
  }
}
