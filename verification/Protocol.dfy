/**
 The maintenance cycle as a protocol between short-lived processes that share one durable record.
 A run of the machine is a log of events. `Next` is what an event does to the world; `Ok` is what must
 hold for a process (or the environment) to be allowed the event. The engine, the reboot controller and
 the installer are proved to produce only such logs; the safety theorems are about all such logs.
 */
module Protocol {
  import opened Wrappers
  import opened States
  import opened Records
  import opened Outcomes
  import Window

  // ---------------------------------------------------------------- world

  /**
   The state directory as a load finds it: no active record, a record, one of a schema from the future, bytes
   that fail validation, or, whatever else is there, bytes set aside in quarantine. `lost` are the runs whose
   record the unreadable bytes were.
   */
  datatype Cell =
    | Empty | Rec(cycle: CycleState) | Newer(lost: set<string>) | Bad(lost: set<string>) | Aside(lost: set<string>)
  {
    predicate Unreadable() {
      Newer? || Bad? || Aside?
    }
  }

  type Shelf = map<string, CycleState>

  datatype Entry = RunEntry | ResumeEntry | InstallEntry | UninstallEntry
  datatype Gate =
    | PolicyGate | UsersGate | WindowGate | ResumePathGate | PreflightGate | RootGate | SpaceGate | FreshGate
  datatype HookPoint = BeforeUpgrade | AfterUpgrade | BeforeReboot | AfterReboot | OnFailure
  datatype Inspection = PreflightInspection | VerifyInspection

  datatype ApplyResult = ApplyResult(
    ok: bool, packagesUpdated: nat, kernelUpdate: bool, expectedKernel: Option<string>)
  datatype RebootStatus = RebootStatus(required: bool, reasons: seq<string>)
  datatype VerifyResult = VerifyResult(consistent: bool, outstanding: nat)
  datatype PreflightKind = Unspecified | PmLocked | InterruptedTransaction | OtherKind(text: string)
  datatype PreflightResult = PreflightResult(ok: bool, kind: PreflightKind, preExistingReboot: bool)
  datatype RefreshResult = RefreshResult(ok: bool, warnings: seq<string>)
  datatype OsIdentity = OsIdentity(os: map<Name, string>, kernel: string)

  /** What a window check was made for. */
  datatype Vet = Vet(window: Window.Window, estimate: nat)

  /**
   What the process holding the execution lock has done so far. `gates` are the checks that passed
   with no hook and no sleep since (those of STANDING stand for the rest of the process); a process
   that creates a cycle need not check it for staleness. `paid` is a saved reboot attempt whose
   command is not yet issued. `finishing` is a cycle this process ended and has not put in the archive yet.
   `window` is the last window check made, `vetted` the one behind the last repair, apply or reboot command; `sent`
   are the notifiers that took a report of a run.
   */
  datatype Proc = Proc(
    entry: Entry, loaded: bool, gates: set<Gate>, hooks: set<HookPoint>, inspected: set<Inspection>,
    paid: bool, commanded: bool, finishing: bool, applying: bool, applied: Option<ApplyResult>,
    listed: Option<seq<UpdateInfo>>, probed: Option<RebootStatus>, verified: Option<VerifyResult>,
    health: Option<seq<HealthResult>>, slept: nat, reported: Option<PreflightResult>,
    identity: Option<OsIdentity>, refreshed: Option<RefreshResult>, window: Option<Vet>, vetted: Option<Vet>,
    sent: set<(string, Name)>)

  const STANDING: set<Gate> := {PolicyGate, RootGate, SpaceGate, FreshGate}

  datatype Policy = Never | NotifyOnly | WhenRequired | Always

  /** A check as it was made, with what was found. */
  datatype Check =
    | PolicyCheck(policy: Policy, required: bool)
    | UsersCheck(allowed: bool, loggedIn: bool)
    | WindowCheck(window: Window.Window, now: nat, estimate: nat)
    | ResumePathCheck(enabled: bool)
    | PreflightCheck(result: PreflightResult)
    | RootCheck(ok: bool)
    | SpaceCheck(ok: bool)
    | StalenessCheck(stale: bool)

  function GateOf(c: Check): Gate {
    match c
    case PolicyCheck(_, _) => PolicyGate
    case UsersCheck(_, _) => UsersGate
    case WindowCheck(_, _, _) => WindowGate
    case ResumePathCheck(_) => ResumePathGate
    case PreflightCheck(_) => PreflightGate
    case RootCheck(_) => RootGate
    case SpaceCheck(_) => SpaceGate
    case StalenessCheck(_) => FreshGate
  }

  predicate Permits(policy: Policy, required: bool) {
    policy.Always? || (policy.WhenRequired? && required)
  }

  predicate Passed(c: Check) {
    match c
    case PolicyCheck(policy, required) => Permits(policy, required)
    case UsersCheck(allowed, loggedIn) => allowed || !loggedIn
    case WindowCheck(window, now, estimate) => now < Window.DAY && window.Allows(now, estimate)
    case ResumePathCheck(enabled) => enabled
    case PreflightCheck(result) => result.ok
    case RootCheck(ok) => ok
    case SpaceCheck(ok) => ok
    case StalenessCheck(stale) => !stale
  }

  /**
   The machine. `cell` and `history` are what a process sees; `past` and `fading` are the other states in which
   the state directory and the archive may come back from a power loss, because a write was cut short.
   */
  datatype Sys = Sys(
    maxAttempts: nat, cell: Cell, past: set<Cell>, history: Shelf, fading: set<Shelf>,
    used: set<string>, boots: seq<string>, kernel: string, unitEnabled: bool, proc: Option<Proc>)

  datatype Event =
    // environment
    | Booted(id: string, kernel: string, cell: Cell, history: Shelf)
    | Tampered(newer: bool, settled: bool) | OperatorCleared
    // process life
    | Began(entry: Entry) | Ended(killed: bool) | BootedInPlace(id: string, kernel: string)
    // durable effects; one that is not settled was cut short before its directory reached the disk
    | Loaded | Quarantined(settled: bool) | Saved(cycle: CycleState, settled: bool)
    | HistoryPut(cycle: CycleState, settled: bool) | ActiveRemoved(settled: bool) | Purged | UnitSet(enabled: bool)
    // package manager
    | PreflightCalled | RepairCalled(run: string) | Listed(updates: seq<UpdateInfo>)
    | ApplyCalled(run: string) | ApplyReturned(run: string, result: ApplyResult)
    | Probed(status: RebootStatus) | VerifyCalled | VerifyReturned(verdict: VerifyResult)
    | HealthReturned(results: seq<HealthResult>) | Refreshed(refresh: RefreshResult) | Identified(identity: OsIdentity)
    // what was looked at before deciding
    | GateChecked(check: Check) | Compared(entry: Entry, baseline: CycleState, current: string)
    | Confirmed(baseline: CycleState, current: string, kernel: string) | Counted(attempts: nat, most: nat)
    | Aged(elapsed: int)
    // everything else; a delivery with the notifier's answer, unless it raised
    | RebootCalled(run: string) | HookRan(point: HookPoint, abort: bool) | Slept(seconds: nat)
    | Delivered(run: string, notifier: Name, outcome: Outcome, answer: Option<string>)
    // calls that raised: a command, the store refusing to load, anything else
    | CommandBroke | LoadRefused | Threw

  function Current(s: Sys): string {
    if s.boots == [] then "" else s.boots[|s.boots| - 1]
  }

  /** A cycle is under way, or nobody can tell. */
  predicate CyclePending(c: Cell) {
    (c.Rec? && !Terminal(c.cycle.state)) || c.Unreadable()
  }

  /** The states the state directory may be in now, or after a power loss. */
  function Possible(s: Sys): set<Cell> {
    s.past + {s.cell}
  }

  function Shelves(s: Sys): set<Shelf> {
    s.fading + {s.history}
  }

  /** The other states, once the visible one has changed. */
  function Older(s: Sys, settled: bool): set<Cell> {
    if settled then {} else s.past + {s.cell}
  }

  // Frames: what two worlds, or two processes, have in common.

  /** All but the process. */
  ghost predicate SameEnv(s: Sys, t: Sys) {
    Same(t, s.(proc := t.proc))
  }

  /** All but findings, hooks, passing gates, what it had vetted, and sleep; nothing that was sent is forgotten. */
  ghost predicate SameDuties(p: Proc, q: Proc) {
    && p.entry == q.entry && p.loaded == q.loaded && p.commanded == q.commanded && p.finishing == q.finishing
    && p.applying == q.applying && Same(p.applied, q.applied) && Same(p.identity, q.identity) && p.sent <= q.sent
    && (RootGate in p.gates <==> RootGate in q.gates) && (SpaceGate in p.gates <==> SpaceGate in q.gates)
    && (FreshGate in p.gates <==> FreshGate in q.gates)
  }

  ghost predicate SameRole(p: Proc, q: Proc) {
    SameDuties(p, q) && Same(p.vetted, q.vetted)
  }

  ghost predicate SameFinds(p: Proc, q: Proc) {
    Same(p.listed, q.listed) && Same(p.probed, q.probed) && Same(p.verified, q.verified) && Same(p.health, q.health)
  }

  /** All but gates, the window checked and sleeping. */
  ghost predicate SameElse(p: Proc, q: Proc) {
    && p.entry == q.entry && p.loaded == q.loaded && Same(p.hooks, q.hooks) && Same(p.inspected, q.inspected)
    && p.paid == q.paid && p.commanded == q.commanded && p.finishing == q.finishing && p.applying == q.applying
    && Same(p.applied, q.applied) && SameFinds(p, q) && Same(p.reported, q.reported) && Same(p.identity, q.identity)
    && Same(p.refreshed, q.refreshed) && Same(p.vetted, q.vetted) && p.sent == q.sent
  }

  /** All but passing gates, the window checked and sleeping. */
  ghost predicate SameDeeds(p: Proc, q: Proc) {
    && SameElse(p, q)
    && (RootGate in p.gates <==> RootGate in q.gates) && (SpaceGate in p.gates <==> SpaceGate in q.gates)
    && (FreshGate in p.gates <==> FreshGate in q.gates)
  }

  /** All but gates. */
  ghost predicate SameButGates(p: Proc, q: Proc) {
    SameElse(p, q) && Same(p.window, q.window) && p.slept == q.slept
  }

  function NewProc(entry: Entry): Proc {
    Proc(entry, false, {}, {}, {}, false, false, false, false, None, None, None, None, None, 0, None, None, None, None,
         None, {})
  }

  /** The runs a load would find, or whose unreadable record is still there. */
  function IdsOf(c: Cell): set<string> {
    match c
    case Empty => {}
    case Rec(cycle) => {cycle.runId}
    case Newer(lost) => lost
    case Bad(lost) => lost
    case Aside(lost) => lost
  }

  function Next(s: Sys, e: Event): Sys {
    if Outside(e) then
      NextOutside(s, e)
    else if e.Ended? then
      s.(proc := None)
    else if s.proc.None? then
      s
    else
      NextIn(s, s.proc.value, e)
  }

  /** What happens to the machine while no process holds the lock. */
  predicate Outside(e: Event) {
    e.Booted? || e.Tampered? || e.OperatorCleared? || e.Began?
  }

  function NextOutside(s: Sys, e: Event): Sys
    requires Outside(e)
  {
    match e
    case Booted(id, k, c, h) =>
      s.(boots := s.boots + [id], kernel := k, cell := c, past := {}, history := h, fading := {})
    case Tampered(newer, settled) =>
      if s.cell.Aside? then s
      else s.(cell := if newer then Newer(IdsOf(s.cell)) else Bad(IdsOf(s.cell)), past := Older(s, settled))
    case OperatorCleared => if s.cell.Rec? then s else s.(cell := Empty, past := {})
    case Began(entry) => s.(proc := Some(NewProc(entry)))
  }

  /** The record is gone: so is what the process did for it. */
  function NoWork(p: Proc): Proc {
    p.(paid := false, finishing := false, applying := false, applied := None)
  }

  function NextIn(s: Sys, p: Proc, e: Event): Sys {
    if IsNote(e) then
      s.(proc := Some(NextProc(p, e)))
    else
      match e
      case BootedInPlace(id, k) =>
        s.(boots := s.boots + [id], kernel := k, proc := Some(p.(paid := false, gates := p.gates * {FreshGate})))
      case Quarantined(settled) => s.(cell := Aside(IdsOf(s.cell)), past := Older(s, settled))
      case Saved(c, settled) =>
        var pays := settled && s.cell.Rec? && s.cell.cycle.rebootAttempts < c.rebootAttempts;
        var gates := if s.cell.Empty? then p.gates + {FreshGate} else p.gates;
        s.(cell := Rec(c), past := Older(s, settled), used := s.used + {c.runId},
           proc := Some(p.(paid := pays, gates := gates, finishing := Terminal(c.state))))
      case HistoryPut(c, settled) =>
        s.(history := s.history[c.runId := c], fading := if settled then {} else s.fading + {s.history},
           proc := Some(p.(finishing := false)))
      case ActiveRemoved(settled) => s.(cell := Empty, past := Older(s, settled), proc := Some(NoWork(p)))
      case Purged =>
        s.(cell := Empty, past := s.past + {s.cell}, history := map[], fading := s.fading + {s.history},
           proc := Some(NoWork(p)))
      case UnitSet(on) => s.(unitEnabled := on, proc := Some(p.(gates := {})))
      case _ => s
  }

  function NextProc(p: Proc, e: Event): Proc {
    match e
    case Loaded => p.(loaded := true)
    case PreflightCalled => p.(inspected := p.inspected + {PreflightInspection}, gates := p.gates - {PreflightGate})
    case RepairCalled(_) => p.(vetted := p.window)
    case Listed(us) => p.(listed := Some(us))
    case ApplyCalled(_) => p.(applying := true, applied := None, vetted := p.window)
    case ApplyReturned(_, r) => p.(applied := Some(r))
    case Probed(r) => p.(probed := Some(r))
    case VerifyCalled => p.(inspected := p.inspected + {VerifyInspection}, verified := None)
    case VerifyReturned(r) => p.(verified := Some(r))
    case HealthReturned(hs) => p.(health := Some(hs))
    case Refreshed(r) => p.(refreshed := Some(r))
    case Identified(id) => p.(identity := Some(id))
    case GateChecked(c) => Checks(p, c)
    case RebootCalled(_) => p.(paid := false, commanded := true, vetted := p.window)
    case HookRan(h, abort) =>
      p.(hooks := if abort then p.hooks - {h} else p.hooks + {h}, gates := p.gates * STANDING)
    case Slept(n) => p.(slept := p.slept + n, gates := p.gates * STANDING)
    case Delivered(r, n, _, answer) => if answer == Some(SENT) then p.(sent := p.sent + {(r, n)}) else p
    case _ => p
  }

  /** A check was made: its gate stands or falls with it, and what it found is remembered. */
  function Checks(p: Proc, c: Check): Proc {
    p.(gates := if Passed(c) then p.gates + {GateOf(c)} else p.gates - {GateOf(c)},
       reported := if c.PreflightCheck? then Some(c.result) else p.reported,
       window := if c.WindowCheck? then Some(Vet(c.window, c.estimate)) else p.window)
  }

  const SENT := "sent"

  /** Events that change nothing but the process's own notes. */
  predicate IsNote(e: Event) {
    match e
    case Loaded | PreflightCalled | VerifyCalled | CommandBroke | LoadRefused | Threw => true
    case RepairCalled(_) | Listed(_) | ApplyCalled(_) | ApplyReturned(_, _) | Probed(_) => true
    case VerifyReturned(_) | HealthReturned(_) | Refreshed(_) | Identified(_) | GateChecked(_) => true
    case Compared(_, _, _) | Confirmed(_, _, _) | Counted(_, _) | Aged(_) => true
    case RebootCalled(_) | HookRan(_, _) | Slept(_) | Delivered(_, _, _, _) => true
    case _ => false
  }

  /** The report of `r`, with outcome `o`, was handed to `n`. */
  predicate Tells(e: Event, r: string, n: Name, o: Outcome) {
    e.Delivered? && e.run == r && e.notifier == n && e.outcome == o
  }

  lemma NoteNext(s: Sys, e: Event)
    requires s.proc.Some? && IsNote(e)
    ensures Same(Next(s, e), s.(proc := Some(NextProc(s.proc.value, e))))
  {
    hide NextProc;
  }

  /** Events that leave the store alone. */
  predicate Silent(e: Event) {
    IsNote(e) || e.Began? || e.Ended? || e.BootedInPlace? || e.UnitSet?
  }

  lemma SilentNext(s: Sys, e: Event)
    requires Silent(e)
    ensures var t := Next(s, e);
      && Same(t.cell, s.cell) && Same(t.past, s.past) && Same(t.history, s.history) && Same(t.fading, s.fading)
      && Same(t.used, s.used)
  {
    hide NextProc;
    if IsNote(e) && s.proc.Some? {
      NoteNext(s, e);
      hide Next;
    }
  }

  lemma NoteFlags(p: Proc, e: Event)
    requires IsNote(e)
    ensures NextProc(p, e).paid == (p.paid && !e.RebootCalled?)
    ensures NextProc(p, e).applying == (p.applying || e.ApplyCalled?)
    ensures NextProc(p, e).finishing == p.finishing && NextProc(p, e).loaded == (p.loaded || e.Loaded?)
  {
    match e
    case Loaded | PreflightCalled | VerifyCalled | CommandBroke | LoadRefused | Threw =>
    case RepairCalled(_) | Listed(_) | ApplyCalled(_) | ApplyReturned(_, _) | Probed(_) =>
    case VerifyReturned(_) | HealthReturned(_) | Refreshed(_) | Identified(_) | GateChecked(_) =>
    case Compared(_, _, _) | Confirmed(_, _, _) | Counted(_, _) | Aged(_) =>
    case RebootCalled(_) | HookRan(_, _) | Slept(_) | Delivered(_, _, _, _) =>
  }

  lemma NoteApplied(p: Proc, e: Event)
    requires IsNote(e)
    ensures Same(NextProc(p, e).applied, if e.ApplyReturned? then Some(e.result)
                                         else if e.ApplyCalled? then None else p.applied)
  {
  }

  // ---------------------------------------------------- edits of the record

  /** `c` is `edited`, moved along a table arc from its own state, with the step logged. */
  predicate Arc(edited: CycleState, c: CycleState) {
    && IsLegal(edited.state, c.state)
    && |c.transitions| > 0
    && var at := c.transitions[|c.transitions| - 1].at.GetOr("");
       c == RecordTransition(edited, c.state, at).(state := c.state, updatedAt := c.updatedAt)
  }

  /** An arc changes nothing but state, trail and timestamp. */
  lemma ArcKeeps(mem: CycleState, c: CycleState)
    requires Arc(mem, c)
    ensures c == mem.(state := c.state, transitions := c.transitions, updatedAt := c.updatedAt)
  {
    hide StateName;
  }

  predicate SameBoot(s: Sys, d: CycleState) {
    d.bootIdBefore == Some(Current(s))
  }

  predicate BeforeRebooting(s: State) {
    s.REFRESHING? || s.DISCOVERING_UPDATES? || s.UPGRADING? || s.CHECKING_REBOOT? || s.REBOOT_PENDING?
  }

  predicate Late(s: State) {
    s.VERIFYING? || s.HEALTH_CHECKING? || s.NOTIFYING? || s.COMPLETED?
  }

  /** The machine rebooted under a cycle that had not asked for it yet. */
  predicate Doomed(s: Sys, d: CycleState) {
    (BeforeRebooting(d.state) || d.state.PRECHECK?) && d.bootIdBefore.Some? && !SameBoot(s, d)
  }

  predicate Fails(s: Sys, p: Proc, d: CycleState, c: CycleState) {
    && c.state.FAILED? && !d.state.FAILED?
    && (if IsLegal(d.state, FAILED) then Arc(d, c) else c == d.(state := FAILED))
    && (Doomed(s, d) ==> Diagnosed(p))
  }

  /** Early-state crash recovery: back to PRECHECK, by `run`, on the boot the cycle started on. */
  predicate Restarts(s: Sys, p: Proc, d: CycleState, c: CycleState) {
    c.state.PRECHECK? && Arc(d, c) && SameBoot(s, d) && p.entry == RunEntry && !p.applying
  }

  /** A decision to reboot still stands. */
  predicate DecisionGates(p: Proc) {
    PolicyGate in p.gates && UsersGate in p.gates && WindowGate in p.gates
  }

  /** ... and there is a way back. */
  predicate ReadyGates(p: Proc) {
    PolicyGate in p.gates && UsersGate in p.gates && WindowGate in p.gates && ResumePathGate in p.gates
  }

  /** The read-only diagnostics were run. */
  predicate Diagnosed(p: Proc) {
    PreflightInspection in p.inspected && VerifyInspection in p.inspected
  }

  predicate EditsPrecheck(s: Sys, p: Proc, d: CycleState, c: CycleState) {
    && PreflightGate in p.gates && RootGate in p.gates && SpaceGate in p.gates
    && (d.bootIdBefore.None? || SameBoot(s, d)) && p.identity == Some(OsIdentity(c.os, c.kernelBefore))
    && p.reported.Some? && c.preExistingReboot == p.reported.value.preExistingReboot
    && var checked := d.(os := c.os, kernelBefore := c.kernelBefore, bootIdBefore := Some(Current(s)),
                         preExistingReboot := c.preExistingReboot);
       || (c.state.REFRESHING? && Arc(checked, c))
       || (c.state.REBOOT_PENDING? && c.preExistingReboot && !d.initialRebootCompleted
           && Arc(checked.(rebootBeforeUpdates := true, rebootRequired := true), c))
  }

  /** The warnings of the refresh join those there were. */
  predicate EditsRefreshing(s: Sys, p: Proc, d: CycleState, c: CycleState) {
    && c.state.DISCOVERING_UPDATES? && s.past == {} && SameBoot(s, d)
    && p.refreshed.Some? && p.refreshed.value.ok
    && (forall w | w in d.warnings + p.refreshed.value.warnings :: w in c.warnings)
    && (forall w | w in c.warnings :: w in d.warnings + p.refreshed.value.warnings)
    && Arc(d.(warnings := c.warnings), c)
  }

  predicate EditsDiscovering(s: Sys, p: Proc, d: CycleState, c: CycleState) {
    && s.past == {} && SameBoot(s, d) && p.listed == Some(c.updatesAvailable)
    && c.packagesPending == Pending(c.updatesAvailable)
    && c.state == (if c.packagesPending == 0 then CHECKING_REBOOT else UPGRADING)
    && Arc(d.(updatesAvailable := c.updatesAvailable, packagesPending := c.packagesPending), c)
  }

  predicate EditsUpgrading(s: Sys, p: Proc, d: CycleState, c: CycleState) {
    && s.past == {} && SameBoot(s, d)
    && if c.state.UPGRADING? then
         && !d.updatesApplied && p.applying && p.applied.Some? && p.applied.value.ok
         && var r := p.applied.value;
            c == d.(updatesApplied := true, packagesUpdated := r.packagesUpdated,
                    kernelUpdate := r.kernelUpdate, expectedKernel := r.expectedKernel)
       else
         c.state.CHECKING_REBOOT? && d.updatesApplied && (p.applying ==> AfterUpgrade in p.hooks) && Arc(d, c)
  }

  predicate EditsCheckingReboot(s: Sys, p: Proc, d: CycleState, c: CycleState) {
    && SameBoot(s, d) && p.probed == Some(RebootStatus(c.rebootRequired, c.rebootReasons))
    && var probed := d.(rebootRequired := c.rebootRequired, rebootReasons := c.rebootReasons);
       || (c.state.REBOOT_PENDING? && Arc(probed, c))
       || (c.state.VERIFYING? && !c.rebootRequired && Arc(probed, c))
       || (c.state.VERIFYING? && d.preExistingReboot && Arc(probed.(outcome := Some(ManualRebootRequired)), c))
  }

  predicate EditsRebootPending(s: Sys, p: Proc, d: CycleState, c: CycleState) {
    && SameBoot(s, d)
    && (|| (c.state.REBOOTING? && DecisionGates(p) && Arc(d, c))
        || (c.state.VERIFYING? && !d.rebootRequired && Arc(d, c))
        || (c.state.VERIFYING? && d.rebootRequired && Arc(d.(outcome := Some(ManualRebootRequired)), c)))
  }

  /** Everything that must be durable before a reboot command: identity, timestamp, attempt. */
  predicate PaysForReboot(s: Sys, d: CycleState, c: CycleState) {
    && d.rebootAttempts < s.maxAttempts && Truthy(c.rebootInitiatedAt)
    && (Truthy(d.rebootInitiatedAt) ==> c.rebootInitiatedAt == d.rebootInitiatedAt)
    && c == d.(bootIdBefore := Some(Current(s)), bootIdAfter := None, kernelBefore := s.kernel,
               rebootInitiatedAt := c.rebootInitiatedAt, rebootAttempts := d.rebootAttempts + 1)
  }

  predicate EditsRebooting(s: Sys, p: Proc, d: CycleState, c: CycleState) {
    if c.state.REBOOTING? then
      SameBoot(s, d) && ReadyGates(p) && PaysForReboot(s, d, c)
    else
      c.state.POST_REBOOT? && !SameBoot(s, d) && Arc(d, c)
  }

  predicate KernelAsExpected(s: Sys, d: CycleState) {
    Truthy(d.expectedKernel) ==> d.expectedKernel.value == s.kernel
  }

  predicate EditsPostReboot(s: Sys, p: Proc, d: CycleState, c: CycleState) {
    && KernelAsExpected(s, d)
    && if c.state.POST_REBOOT? then
         && !SameBoot(s, d) && (Truthy(d.bootIdAfter) ==> d.bootIdAfter == Some(Current(s)))
         && c == d.(kernelAfter := Some(s.kernel), bootIdAfter := Some(Current(s)))
       else
         && d.bootIdAfter == Some(Current(s)) && AfterReboot in p.hooks
         && if d.rebootBeforeUpdates then
              && c.state.PRECHECK?
              && Arc(d.(rebootBeforeUpdates := false, initialRebootCompleted := true,
                        bootIdBefore := Some(Current(s)), bootIdAfter := None,
                        rebootAttempts := 0, rebootInitiatedAt := None), c)
            else c.state.VERIFYING? && Arc(d, c)
  }

  predicate EditsVerifying(s: Sys, p: Proc, d: CycleState, c: CycleState) {
    if c.state.VERIFYING? then
      && p.verified.Some?
      && var v := p.verified.value;
         c == d.(verifyPassed := Some(v.consistent && v.outstanding == 0), outstandingUpdates := Some(v.outstanding))
    else
      && c.state.HEALTH_CHECKING? && d.verifyPassed == Some(true) && d.outstandingUpdates == Some(0)
      && p.verified == Some(VerifyResult(true, 0)) && Arc(d, c)
  }

  predicate EditsHealthChecking(s: Sys, p: Proc, d: CycleState, c: CycleState) {
    && c.state.NOTIFYING? && p.health == Some(c.healthResults)
    && (if CriticalFailure(c.healthResults) then HealthFailed(c.error) else c.error == d.error)
    && Arc(d.(healthResults := c.healthResults, error := c.error), c)
  }

  predicate EditsNotifying(s: Sys, p: Proc, d: CycleState, c: CycleState) {
    if c.state.NOTIFYING? then
      || c == d.(outcome := Some(FinalOutcome(d)))
      || (c == d.(notificationStatus := c.notificationStatus) && d.outcome == Some(FinalOutcome(d))
          && (forall n | n in d.notificationStatus :: SentIn(d, n) ==> SentIn(c, n)) && MarksHonestly(p, d, c))
    else
      s.past == {} && c.state.COMPLETED? && d.outcome == Some(FinalOutcome(d)) && Arc(d, c)
  }

  predicate SentIn(c: CycleState, n: Name) {
    n in c.notificationStatus && c.notificationStatus[n] == SENT
  }

  /** Nobody is marked sent but who was before, or took the report from this process. */
  predicate MarksHonestly(p: Proc, d: CycleState, c: CycleState) {
    forall n | n in c.notificationStatus :: SentIn(c, n) ==> SentIn(d, n) || (d.runId, n) in p.sent
  }

  /** The edits of a stored record `d` that the protocol allows. */
  predicate Edit(s: Sys, p: Proc, d: CycleState, c: CycleState) {
    || Fails(s, p, d, c)
    || match d.state
       case IDLE => false
       case PRECHECK => EditsPrecheck(s, p, d, c)
       case REFRESHING => Restarts(s, p, d, c) || EditsRefreshing(s, p, d, c)
       case DISCOVERING_UPDATES => Restarts(s, p, d, c) || EditsDiscovering(s, p, d, c)
       case UPGRADING => Restarts(s, p, d, c) || EditsUpgrading(s, p, d, c)
       case CHECKING_REBOOT => EditsCheckingReboot(s, p, d, c)
       case REBOOT_PENDING => EditsRebootPending(s, p, d, c)
       case REBOOTING => EditsRebooting(s, p, d, c)
       case POST_REBOOT => EditsPostReboot(s, p, d, c)
       case VERIFYING => EditsVerifying(s, p, d, c)
       case HEALTH_CHECKING => EditsHealthChecking(s, p, d, c)
       case NOTIFYING => EditsNotifying(s, p, d, c)
       case COMPLETED => c == d.(outcome := Some(FinalOutcome(d)), updatedAt := c.updatedAt)
       case FAILED =>
         && c == d.(error := c.error, outcome := c.outcome, notificationStatus := c.notificationStatus)
         && MarksHonestly(p, d, c)
  }

  ghost predicate SaveOk(s: Sys, p: Proc, c: CycleState) {
    && WellFormed(c)
    && match s.cell
       case Rec(d) =>
         && c.runId == d.runId && Edit(s, p, d, c)
         && (c.state.FAILED? || FreshGate in p.gates) && (Terminal(d.state) ==> p.finishing)
       case Empty =>
         && c.runId !in s.used && p.entry == RunEntry && c.state.PRECHECK?
         && Arc(NewCycle(c.runId, c.hostname, c.startedAt, c.provider), c)
       case _ => false
  }

  // --------------------------------------------------------------- guards

  predicate OnCycle(s: Sys, run: string, state: State) {
    s.cell.Rec? && s.cell.cycle.runId == run && s.cell.cycle.state == state
  }

  /** From NOTIFYING who is not marked sent is told; of a failure everybody is, by the process that recorded it. */
  predicate DeliveryOk(cell: Cell, finishing: bool, run: string, n: Name, o: Outcome) {
    && cell.Rec? && cell.cycle.runId == run && cell.cycle.outcome == Some(o)
    && var d := cell.cycle;
       || (d.state.FAILED? && finishing)
       || (d.state.NOTIFYING? && o == FinalOutcome(d)
           && !SentIn(d, n))
  }

  predicate Fresh(s: Sys, id: string) {
    id != "" && id !in s.boots
  }

  ghost predicate Ok(s: Sys, e: Event) {
    if s.proc.Some? then
      e.Ended? || (!Outside(e) && OkIn(s, s.proc.value, e))
    else
      && Outside(e)
      && (e.Booted? ==> Fresh(s, e.id) && e.cell in Possible(s) && e.history in Shelves(s))
  }

  predicate IsEngine(p: Proc) {
    p.entry == RunEntry || p.entry == ResumeEntry
  }

  ghost predicate OkIn(s: Sys, p: Proc, e: Event) {
    match e
    case BootedInPlace(id, _) => Fresh(s, id) && p.commanded && s.cell.Rec? && s.cell.cycle.state.REBOOTING?
    case Loaded => !s.cell.Unreadable()
    case Quarantined(_) => s.cell.Bad?
    case Saved(c, _) => p.loaded && IsEngine(p) && SaveOk(s, p, c)
    case HistoryPut(c, _) => p.loaded && IsEngine(p) && s.cell == Rec(c) && Terminal(c.state)
    case ActiveRemoved(_) =>
      && s.cell.Rec? && s.fading == {}
      && s.cell.cycle.runId in s.history && s.history[s.cell.cycle.runId] == s.cell.cycle
    case Purged => p.loaded && p.entry == UninstallEntry && !CyclePending(s.cell)
    case UnitSet(on) => p.loaded && p.entry == (if on then InstallEntry else UninstallEntry) && !CyclePending(s.cell)
    case RepairCalled(r) =>
      && p.loaded && OnCycle(s, r, PRECHECK) && WindowGate in p.gates
      && p.reported.Some? && !p.reported.value.ok && p.reported.value.kind.InterruptedTransaction?
      && (s.cell.cycle.bootIdBefore.None? || SameBoot(s, s.cell.cycle))
    case ApplyCalled(r) =>
      && p.loaded && s.past == {}
      && OnCycle(s, r, UPGRADING) && !s.cell.cycle.updatesApplied && SameBoot(s, s.cell.cycle)
      && !p.applying && BeforeUpgrade in p.hooks && PreflightGate in p.gates && WindowGate in p.gates
    case ApplyReturned(r, _) => p.applying && OnCycle(s, r, UPGRADING)
    case GateChecked(c) =>
      && (c.ResumePathCheck? && c.enabled ==> s.unitEnabled)
      && (c.PolicyCheck? ==> s.cell.Rec? && c.required == s.cell.cycle.rebootRequired)
    case Compared(entry, c, current) => entry == p.entry && s.cell == Rec(c) && current == Current(s)
    case Confirmed(c, current, kernel) => s.cell == Rec(c) && current == Current(s) && kernel == s.kernel
    case Counted(attempts, most) =>
      s.cell.Rec? && attempts == s.cell.cycle.rebootAttempts && most == s.maxAttempts
    case RebootCalled(r) =>
      && p.loaded && s.past == {} && OnCycle(s, r, REBOOTING) && p.paid
      && BeforeReboot in p.hooks && ReadyGates(p)
    case Delivered(r, n, o, _) => p.loaded && s.past == {} && DeliveryOk(s.cell, p.finishing, r, n, o)
    case _ => true
  }

  /** No event but a save, or a note, gives a process more than it had. */
  lemma NothingGained(s: Sys, e: Event)
    requires Ok(s, e) && !e.Saved? && !IsNote(e) && Next(s, e).proc.Some? && s.proc.Some?
    ensures var p, q := s.proc.value, Next(s, e).proc.value;
      && (q.paid ==> p.paid) && (q.applying ==> p.applying) && (q.finishing ==> p.finishing)
      && (Next(s, e).cell.Rec? ==> Same(Next(s, e).cell, s.cell))
  {
    hide OkIn, NextProc;
  }

  lemma NobodyGained(s: Sys, e: Event)
    requires !e.Saved? && !IsNote(e) && Next(s, e).proc.Some? && s.proc.None?
    ensures var q := Next(s, e).proc.value; !q.paid && !q.applying && !q.finishing
  {
    hide NextIn;
  }

  /** Only notes change what a process looked at and what it sent. */
  lemma LooksKept(s: Sys, e: Event)
    requires !IsNote(e) && !e.Began? && Next(s, e).proc.Some?
    ensures s.proc.Some?
    ensures var p, q := s.proc.value, Next(s, e).proc.value;
      Same(q.window, p.window) && Same(q.reported, p.reported) && Same(q.sent, p.sent)
  {
    hide NextProc;
  }

  // ----------------------------------------------------------------- runs

  ghost predicate Start(s: Sys) {
    && s.cell == Empty && s.past == {} && s.history == map[] && s.fading == {} && s.used == {} && s.proc.None?
    && |s.boots| == 1 && s.boots[0] != ""
  }

  /** The world after the first `k` events of a log. */
  function At(s0: Sys, log: seq<Event>, k: nat): Sys
    requires k <= |log|
  {
    if k == 0 then s0 else Next(At(s0, log, k - 1), log[k - 1])
  }

  /** The event at `k` was allowed when it took place. */
  ghost predicate Permitted(s0: Sys, log: seq<Event>, k: nat)
    requires k < |log|
  {
    Ok(At(s0, log, k), log[k])
  }

  /** A log the protocol allows, from a machine that has never run a cycle. */
  ghost predicate Legal(s0: Sys, log: seq<Event>) {
    Start(s0) && forall k | 0 <= k < |log| :: Permitted(s0, log, k)
  }

  lemma AtPrefix(s0: Sys, log: seq<Event>, e: Event, k: nat)
    requires k <= |log|
    ensures At(s0, log + [e], k) == At(s0, log, k)
  {
    if k > 0 {
      AtPrefix(s0, log, e, k - 1);
    }
  }

  lemma LegalAppend(s0: Sys, log: seq<Event>, e: Event)
    requires Legal(s0, log) && Ok(At(s0, log, |log|), e)
    ensures Legal(s0, log + [e]) && At(s0, log + [e], |log| + 1) == Next(At(s0, log, |log|), e)
  {
    hide Ok, Next;
    var longer := log + [e];
    forall k | 0 <= k <= |log| ensures At(s0, longer, k) == At(s0, log, k) {
      AtPrefix(s0, log, e, k);
    }
    forall k | 0 <= k < |longer| ensures Permitted(s0, longer, k) {
      if k < |log| {
        assert Permitted(s0, log, k);
      }
    }
  }
}
