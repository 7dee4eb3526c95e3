/**
 Why a call did not return, and what in the log accounts for it: every exception comes of something that was
 looked at, answered or tried, and so do the error kind and the exit code it ends in.
 */
module Accounts {
  import opened Wrappers
  import opened States
  import opened Records
  import opened Outcomes
  import opened Protocol
  import opened Edges

  /**
   What a Python exception amounts to here. `IllegalTransition` is the state machine's own refusal, `Diagnosis` the
   plain PatchCycleError recovery fails a cycle with.
   */
  datatype Exn =
    | PreflightError(kind: PreflightKind) | PackageManagerLockedError | PackageManagerError
    | StateError | RebootError | VerificationError | Diagnosis(text: string)
    | IllegalTransition(src: State, dst: State)
    | CommandFailed    // OSError or SubprocessError
    | OtherException

  /** Why a call did not return: it raised, or the process was killed or lost power. */
  datatype Trouble = Died | Raised(exn: Exn)

  /** The process did not live to see the call return. */
  predicate Dead<T>(r: Result<T, Trouble>) {
    r.Failure? && r.error.Died?
  }

  /** The call raised something other than a PatchCycleError or a failed command. */
  predicate Unexpected<T>(r: Result<T, Trouble>) {
    r.Failure? && r.error.Raised? ==> r.error.exn.OtherException?
  }

  // ------------------------------------------------------ kinds and exit codes

  function KindText(k: PreflightKind): string {
    match k
    case Unspecified => "preflight-failed"
    case PmLocked => "pm-locked"
    case InterruptedTransaction => "interrupted-transaction"
    case OtherKind(text) => if text == "" then "preflight-failed" else text
  }

  /** Exit code and error kind, as the exception classes define them. */
  function CodeOf(exn: Exn): int {
    if exn.PreflightError? || exn.PackageManagerLockedError? then 2 else 1
  }

  function KindOf(exn: Exn): string {
    match exn
    case PreflightError(kind) => KindText(kind)
    case PackageManagerLockedError => "pm-locked"
    case PackageManagerError => "pm-failed"
    case StateError => "state-corrupt"
    case IllegalTransition(_, _) => "state-corrupt"
    case RebootError => "reboot-failed"
    case VerificationError => "verify-failed"
    case Diagnosis(text) => text
    case _ => "internal"
  }

  // ----------------------------------------------------------- what accounts for what

  /** The machine is not on the boot the record knows last: the one that proved its reboot, or the one before. */
  predicate Rebooted(c: CycleState, current: string) {
    if Truthy(c.bootIdAfter) then c.bootIdAfter != Some(current)
    else c.bootIdBefore.Some? && c.bootIdBefore != Some(current)
  }

  predicate Resumable(s: State) {
    s.POST_REBOOT? || s.VERIFYING? || s.HEALTH_CHECKING? || s.NOTIFYING?
  }

  /**
   The boots compared do not let the cycle be recovered. A boot resume that finds no proof of reboot goes on only on
   a new boot, and then only from REBOOTING or later; otherwise only an ordered reboot may have taken place.
   */
  predicate Barred(entry: Entry, c: CycleState, current: string) {
    if entry.ResumeEntry? && !Truthy(c.bootIdAfter) then
      !c.state.REBOOTING? && !(Rebooted(c, current) && Resumable(c.state))
    else
      Rebooted(c, current) && !((c.state.REBOOTING? || c.state.POST_REBOOT?) && !Truthy(c.bootIdAfter))
  }

  /** The reboot of `c` is not confirmed by what is running. */
  predicate Unconfirmed(c: CycleState, current: string, kernel: string) {
    || !Truthy(c.bootIdBefore) || current == "" || c.bootIdBefore == Some(current)
    || (Truthy(c.expectedKernel) && c.expectedKernel.value != kernel)
  }

  /** A check whose failure forbids a reboot. */
  predicate ForbidsReboot(c: Check) {
    !Passed(c) && (c.PolicyCheck? || c.UsersCheck? || c.WindowCheck?)
  }

  /** The event is a reason to raise. */
  predicate Explains(e: Event, x: Exn) {
    match x
    case PreflightError(kind) =>
      || (e.GateChecked? && !Passed(e.check)
          && (match e.check
              case PreflightCheck(result) => kind == result.kind && !kind.PmLocked?
              case SpaceCheck(_) => kind == OtherKind("disk-space")
              case RootCheck(_) => kind.Unspecified?
              case _ => kind.Unspecified? && ForbidsReboot(e.check)))
      || (e.HookRan? && e.abort && kind.Unspecified?)
    case PackageManagerLockedError =>
      e.GateChecked? && e.check.PreflightCheck? && !e.check.result.ok && e.check.result.kind.PmLocked?
    case PackageManagerError => (e.Refreshed? && !e.refresh.ok) || (e.ApplyReturned? && !e.result.ok)
    case StateError => e.LoadRefused?
    case RebootError =>
      || (e.GateChecked? && (ForbidsReboot(e.check) || e.check == ResumePathCheck(false)))
      || (e.Confirmed? && Unconfirmed(e.baseline, e.current, e.kernel))
      || (e.Counted? && e.attempts >= e.most) || (e.Aged? && e.elapsed >= 600)
    case VerificationError => e.VerifyReturned? && !(e.verdict.consistent && e.verdict.outstanding == 0)
    case Diagnosis(text) =>
      || (text == "stale-cycle" && e == GateChecked(StalenessCheck(true)))
      || (text == "unexpected-reboot" && e.Compared? && Barred(e.entry, e.baseline, e.current))
    case CommandFailed => e.CommandBroke?
    case OtherException => e.Threw?
    case IllegalTransition(_, _) => false
  }

  /** The error kind a failed preflight goes down as. */
  predicate Names(k: PreflightKind, kind: string) {
    match k
    case PmLocked => kind == "pm-locked"
    case InterruptedTransaction => kind == "interrupted-transaction"
    case OtherKind(text) => if text == "" then kind == "preflight-failed" else kind == text
    case Unspecified => kind == "preflight-failed"
  }

  /** What the engine raises when a preflight fails. */
  function Refusal(k: PreflightKind): Exn {
    if k.PmLocked? then PackageManagerLockedError else PreflightError(k)
  }

  /** The event makes a cycle end with this error kind and exit code. */
  predicate Blames(e: Event, kind: string, code: int) {
    match e
    case GateChecked(PreflightCheck(result)) =>
      !result.ok && code == 2 && Names(result.kind, kind)
    case GateChecked(SpaceCheck(ok)) => !ok && kind == "disk-space" && code == 2
    case GateChecked(RootCheck(ok)) => !ok && kind == "preflight-failed" && code == 2
    case GateChecked(ResumePathCheck(ok)) => !ok && kind == "reboot-failed" && code == 1
    case GateChecked(StalenessCheck(stale)) => stale && kind == "stale-cycle" && code == 1
    case GateChecked(check) =>
      !Passed(check) && ((kind == "preflight-failed" && code == 2) || (kind == "reboot-failed" && code == 1))
    case HookRan(_, abort) => abort && kind == "preflight-failed" && code == 2
    case Refreshed(refresh) => !refresh.ok && kind == "pm-failed" && code == 1
    case ApplyReturned(_, result) => !result.ok && kind == "pm-failed" && code == 1
    case VerifyReturned(v) => !(v.consistent && v.outstanding == 0) && kind == "verify-failed" && code == 1
    case Compared(entry, c, current) => Barred(entry, c, current) && kind == "unexpected-reboot" && code == 1
    case Confirmed(c, current, kernel) => Unconfirmed(c, current, kernel) && kind == "reboot-failed" && code == 1
    case Counted(attempts, most) => attempts >= most && kind == "reboot-failed" && code == 1
    case Aged(elapsed) => elapsed >= 600 && kind == "reboot-failed" && code == 1
    case LoadRefused => kind == "state-corrupt" && code == 1
    case CommandBroke | Threw => kind == "internal" && code == 1
    case _ => false
  }

  /** Error kind and exit code of an exception are those of whatever accounts for it. */
  lemma BlameFits(e: Event, x: Exn)
    requires Explains(e, x)
    ensures Blames(e, KindOf(x), CodeOf(x))
  {
    hide Barred, Unconfirmed;
  }

  // ------------------------------------------------------------------ since when

  /** What an event may show: a reason for an exception, or for a kind and a code, or something done. */
  datatype Claim =
    | Because(exn: Exn) | Blame(kind: string, code: int) | Commanded(run: string) | Reached(mem: CycleState, to: State)
    | Hooked(point: HookPoint) | Rested(seconds: nat) | Found(check: Check) | LookedBack(elapsed: int)
    | Repaired(run: string) | Filed(cycle: CycleState) | Recorded(cycle: CycleState)

  ghost predicate Shows(e: Event, c: Claim) {
    match c
    case Because(x) => Explains(e, x)
    case Blame(kind, code) => Blames(e, kind, code)
    case Commanded(run) => e == RebootCalled(run)
    case Reached(mem, to) => e.Saved? && Follows(mem, e.cycle, to)
    case Hooked(point) => e.HookRan? && e.point == point
    case Rested(seconds) => e == Slept(seconds)
    case Found(check) => e == GateChecked(check)
    case LookedBack(elapsed) => e == Aged(elapsed)
    case Repaired(run) => e == RepairCalled(run)
    case Filed(cycle) => e.HistoryPut? && e.settled && Same(e.cycle, cycle)
    case Recorded(cycle) => e.Saved? && e.settled && Same(e.cycle, cycle)
  }

  /** From position `from` on, something showed it. */
  ghost predicate Since(log: seq<Event>, from: nat, c: Claim) {
    exists k :: from <= k < |log| && Shows(log[k], c)
  }

  /** What was raised is accounted for. */
  ghost predicate Accounted<T>(log: seq<Event>, from: nat, r: Result<T, Trouble>) {
    r.Failure? && r.error.Raised? ==> Since(log, from, Because(r.error.exn))
  }

  /** What has happened stays so; more may have. */
  ghost predicate Grew(before: seq<Event>, after: seq<Event>): (r: bool)
    ensures r ==> |before| <= |after|
  {
    before <= after
  }

  lemma SinceNow(log: seq<Event>, e: Event, c: Claim)
    requires Shows(e, c)
    ensures Since(log + [e], |log|, c)
  {
    hide Shows;
    assert (log + [e])[|log|] == e;
  }

  lemma SinceThen(a: seq<Event>, b: seq<Event>, from: nat, to: nat, c: Claim)
    requires Grew(a, b) && Since(a, from, c) && to <= from
    ensures Since(b, to, c)
  {
    hide Shows;
    var k :| from <= k < |a| && Shows(a[k], c);
    assert b[k] == a[k];
  }

  /** Logs only grow, and what showed in one shows ever after, seen from as far back as you like. */
  lemma LogsGrow()
    ensures forall a: seq<Event> :: Grew(a, a)
    ensures forall a: seq<Event>, b: seq<Event>, c: seq<Event> {:trigger Grew(a, b), Grew(b, c)} ::
      Grew(a, b) && Grew(b, c) ==> Grew(a, c)
    ensures forall a: seq<Event>, b: seq<Event>, from: nat, c: Claim {:trigger Grew(a, b), Since(a, from, c)} ::
      Grew(a, b) && Since(a, from, c) ==> Since(b, from, c)
    ensures forall a: seq<Event>, from: nat, to: nat, c: Claim {:trigger Since(a, from, c), Since(a, to, c)} ::
      to <= from && Since(a, from, c) ==> Since(a, to, c)
  {
    hide Since;
    forall a: seq<Event>, b: seq<Event>, from: nat, c: Claim | Grew(a, b) && Since(a, from, c)
      ensures Since(b, from, c)
    {
      SinceThen(a, b, from, from, c);
    }
    forall a: seq<Event>, from: nat, to: nat, c: Claim | to <= from && Since(a, from, c) ensures Since(a, to, c) {
      SinceThen(a, a, from, to, c);
    }
  }

  /** A check forbids the reboot, or the disruptive work. */
  ghost predicate Forbidden(log: seq<Event>, from: nat) {
    Since(log, from, Because(PreflightError(Unspecified))) && Since(log, from, Because(RebootError))
  }

  lemma ForbiddenNow(log: seq<Event>, c: Check)
    requires ForbidsReboot(c)
    ensures Forbidden(log + [GateChecked(c)], |log|)
  {
    hide Since;
    SinceNow(log, GateChecked(c), Because(PreflightError(Unspecified)));
    SinceNow(log, GateChecked(c), Because(RebootError));
  }

  /** What accounts for an exception accounts for the kind and the code it ends in. */
  lemma BlameSince(log: seq<Event>, from: nat, x: Exn)
    requires Since(log, from, Because(x))
    ensures Since(log, from, Blame(KindOf(x), CodeOf(x)))
  {
    hide Explains, Blames, KindOf, CodeOf;
    var k :| from <= k < |log| && Shows(log[k], Because(x));
    BlameFits(log[k], x);
    assert Shows(log[k], Blame(KindOf(x), CodeOf(x)));
  }

  /** A cycle goes down as stale only if it was found so, as unexpectedly rebooted only if its boots are such. */
  lemma VerdictsAreFound(log: seq<Event>, from: nat, kind: string)
    requires Since(log, from, Blame(kind, 1))
    ensures kind == "stale-cycle" ==> Since(log, from, Found(StalenessCheck(true)))
    ensures kind == "unexpected-reboot" ==>
      exists k :: from <= k < |log| && log[k].Compared? && Barred(log[k].entry, log[k].baseline, log[k].current)
  {
    hide Barred, Unconfirmed;
    var k :| from <= k < |log| && Shows(log[k], Blame(kind, 1));
    assert kind == "stale-cycle" ==> Shows(log[k], Found(StalenessCheck(true)));
  }
}
