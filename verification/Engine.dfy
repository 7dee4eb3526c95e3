/**
 The cycle engine. Every handler is proved to touch the world only as the protocol allows, to leave behind a
 record its caller can go on from or fail, and never to ask for a transition the table refuses.
 */
module Engine {
  import opened Wrappers
  import opened States
  import opened Records
  import opened Outcomes
  import opened Protocol
  import opened Invariants
  import opened Edges
  import opened Accounts
  import opened Environment
  import opened Reboot
  import Safety
  import Window

  datatype ExistingPending = RebootFirst | ContinueThenReboot | ReportOnly

  type Positive = n: nat | n > 0 witness 1

  datatype Config = Config(
    enabled: bool, window: Window.Window, upgradeMinS: nat, perPackageS: nat, rebootVerifyS: nat,
    repairInterrupted: bool, lockTimeoutS: nat, lockPollS: Positive, existingPending: ExistingPending,
    policy: Policy)

  /** What PRECHECK goes on with. */
  datatype Findings = Findings(identity: OsIdentity, bootId: string, pending: bool)

  /** The process is what it was. */
  predicate StillOn(p: Proc, q: Proc) {
    && p.entry == q.entry && p.loaded == q.loaded && p.finishing == q.finishing && p.applying == q.applying
    && (FreshGate in p.gates <==> FreshGate in q.gates)
  }

  /** The call was not refused by the transition table, and is no verdict of recovery's. */
  predicate Granted<T>(r: Result<T, Trouble>) {
    r.Failure? && r.error.Raised? ==> !r.error.exn.IllegalTransition? && !r.error.exn.Diagnosis?
  }

  /** ... nor anything to do with a reboot. */
  predicate Spared<T>(r: Result<T, Trouble>) {
    Granted(r) && (r.Failure? && r.error.Raised? ==> !r.error.exn.RebootError?)
  }

  /** `dict.fromkeys`: first occurrences, in order. */
  function Dedup(xs: seq<string>): (r: seq<string>)
    ensures forall x :: x in r <==> x in xs
    ensures forall i, j | 0 <= i < j < |r| :: r[i] != r[j]
  {
    if xs == [] then []
    else
      var last := xs[|xs| - 1];
      var r := Dedup(xs[..|xs| - 1]);
      assert xs == xs[..|xs| - 1] + [last];
      if last in r then r else r + [last]
  }

  /** How a finished cycle's archive record and the process's exit code go together. */
  predicate Concludes(c: CycleState, code: int) {
    if c.state.COMPLETED? then
      && (code == 6 <==> c.outcome == Some(ManualRebootRequired)) && (code == 1 <==> c.outcome == Some(OutcomeFailed))
      && (code == 0 <==> AllDone(c.outcome)) && code in {0, 1, 6}
    else
      && c.state.FAILED? && (code == 2 <==> c.outcome == Some(Blocked))
      && (code == 1 <==> c.outcome == Some(OutcomeFailed)) && code in {1, 2}
  }

  function FailureOutcome(code: int): Outcome {
    if code == 2 || code == 4 || code == 5 then Blocked else OutcomeFailed
  }

  lemma FailureConcludes(c: CycleState, exn: Exn)
    requires c.state.FAILED? && c.outcome == Some(FailureOutcome(CodeOf(exn)))
    ensures Concludes(c, CodeOf(exn))
  {
  }

  lemma CompletionConcludes(c: CycleState, d: CycleState)
    requires c.state.COMPLETED? && c.outcome == Some(FinalOutcome(d))
    ensures Concludes(c, ExitCode(c.outcome))
  {
  }

  /** The cycle has ended and is archived for good: no power loss brings it back. */
  ghost predicate Closed(s: Sys, run: string, code: int) {
    s.cell == Empty && s.past == {} && s.fading == {} && run in s.history && Concludes(s.history[run], code)
  }

  /** The run is archived as FAILED under this kind. */
  ghost predicate FailedAs(s: Sys, run: string, kind: string, code: int) {
    && Closed(s, run, code) && code == 1 && s.history[run].state.FAILED?
    && s.history[run].error.Some? && s.history[run].error.value.kind == kind
  }

  /** `c` is the record `d` marked FAILED, with what went wrong and who was told. */
  ghost predicate Buried(d: CycleState, c: CycleState) {
    exists f :: FailedFrom(d, f)
                && Same(c, f.(error := c.error, outcome := c.outcome, notificationStatus := c.notificationStatus))
  }

  lemma BuriedNow(failed: CycleState, error: ErrorInfo, o: Outcome, told: CycleState)
    requires
      Same(told, failed.(error := Some(error), outcome := Some(o), notificationStatus := told.notificationStatus))
    ensures forall d | FailedFrom(d, failed) :: Buried(d, told)
  {
    hide FailedFrom;
  }

  /** Archived as FAILED, under an error kind and with an exit code that something since `from` accounts for. */
  ghost predicate GaveUp(s: Sys, log: seq<Event>, from: nat, run: string, code: int) {
    && Closed(s, run, code) && s.history[run].state.FAILED? && s.history[run].error.Some?
    && Since(log, from, Blame(s.history[run].error.value.kind, code))
  }

  ghost predicate Done(s: Sys, run: string, code: int) {
    Closed(s, run, code) && s.history[run].state.COMPLETED?
  }

  /** Where a cycle can be left: waiting for a reboot commanded since, completed, or given up for a reason. */
  ghost predicate Left(s: Sys, log: seq<Event>, from: nat, run: string, code: int) {
    || (Waiting(s, run, code) && Since(log, from, Commanded(run)))
    || Done(s, run, code)
    || GaveUp(s, log, from, run, code)
  }

  /**
   What becomes of a reboot that never happened: within the budget and ten minutes the command is given again, half
   a minute after the last at the earliest; else the cycle fails.
   */
  ghost predicate Retried(s: Sys, log: seq<Event>, from: nat, c: CycleState, most: nat, code: int) {
    exists elapsed ::
      && Since(log, from, LookedBack(elapsed))
      && if c.rebootAttempts < most && elapsed < 600 then
           Since(log, from, Rested(if elapsed < 30 then 30 - elapsed else 0))
         else
           FailedAs(s, c.runId, "reboot-failed", code)
  }

  /** What is archived is no verdict of recovery's: no boots compared, no record found stale. */
  ghost predicate Undiagnosed(s: Sys, run: string, code: int) {
    !FailedAs(s, run, "unexpected-reboot", code) && !FailedAs(s, run, "stale-cycle", code)
  }

  /** What becomes of a pending cycle on `current`, the record being recent. */
  ghost predicate Dispatched(s: Sys, log: seq<Event>, from: nat, c: CycleState, current: string, most: nat, code: int) {
    if Rebooted(c, current) then
      if (c.state.REBOOTING? || c.state.POST_REBOOT?) && !Truthy(c.bootIdAfter) then
        Undiagnosed(s, c.runId, code) && (c.state.REBOOTING? ==> Since(log, from, Reached(c, POST_REBOOT)))
      else
        FailedAs(s, c.runId, "unexpected-reboot", code)
    else
      && Undiagnosed(s, c.runId, code)
      && (c.state.REBOOTING? ==> Retried(s, log, from, c, most, code))
      && (Grounded(c.state) ==> Since(log, from, Reached(c, PRECHECK)))
  }

  /** What becomes of a pending cycle that `run` finds, or `resume` after a proven reboot. */
  ghost predicate Recovered(s: Sys, log: seq<Event>, from: nat, c: CycleState, current: string, most: nat, code: int) {
    && Left(s, log, from, c.runId, code)
    && ((Since(log, from, Found(StalenessCheck(true))) && FailedAs(s, c.runId, "stale-cycle", code))
        || (Since(log, from, Found(StalenessCheck(false))) && Dispatched(s, log, from, c, current, most, code)))
  }

  /** The same for a cycle found at boot. Without proof of its reboot it goes on only where that reboot leads. */
  ghost predicate Resumed(s: Sys, log: seq<Event>, from: nat, c: CycleState, current: string, most: nat, code: int) {
    if Truthy(c.bootIdAfter) then
      Recovered(s, log, from, c, current, most, code)
    else
      && Left(s, log, from, c.runId, code)
      && ((Since(log, from, Found(StalenessCheck(true))) && FailedAs(s, c.runId, "stale-cycle", code))
          || (Since(log, from, Found(StalenessCheck(false))) && Continued(s, log, from, c, current, most, code)))
  }

  ghost predicate Continued(s: Sys, log: seq<Event>, from: nat, c: CycleState, current: string, most: nat, code: int) {
    if c.state.REBOOTING? then
      && Undiagnosed(s, c.runId, code)
      && if Rebooted(c, current) then Since(log, from, Reached(c, POST_REBOOT))
         else Retried(s, log, from, c, most, code)
    else if Rebooted(c, current) && Resumable(c.state) then Undiagnosed(s, c.runId, code)
    else FailedAs(s, c.runId, "unexpected-reboot", code)
  }

  lemma FailedUnder(s: Sys, run: string, kind: string, code: int)
    requires Closed(s, run, code) && code == 1 && s.history[run].state.FAILED?
    requires s.history[run].error.Some? && s.history[run].error.value.kind == kind
    ensures FailedAs(s, run, kind, code)
    ensures kind != "unexpected-reboot" && kind != "stale-cycle" ==> Undiagnosed(s, run, code)
  {
    hide Closed;
  }

  lemma OrdinaryKinds(exn: Exn)
    requires CodeOf(exn) == 1 && !exn.Diagnosis?
    ensures KindOf(exn) != "unexpected-reboot" && KindOf(exn) != "stale-cycle"
  {
  }

  lemma OthersUndiagnosed(s: Sys, run: string, code: int)
    requires code != 1 || Done(s, run, code)
    ensures Undiagnosed(s, run, code)
  {
  }

  /** The store holds an unfinished cycle. */
  predicate Underway(s: Sys) {
    s.cell.Rec? && !Terminal(s.cell.cycle.state)
  }

  /** A new cycle was begun, and left somewhere. */
  ghost predicate Started(s: Sys, log: seq<Event>, from: nat, used: set<string>, hostname: string, provider: string,
                          code: int) {
    exists run, at ::
      && run !in used && Left(s, log, from, run, code)
      && Since(log, from, Reached(NewCycle(run, hostname, at, provider), PRECHECK))
  }

  lemma LeftWaiting(s: Sys, log: seq<Event>, from: nat, run: string)
    requires Waiting(s, run, 0) && Since(log, from, Commanded(run))
    ensures Left(s, log, from, run, 0)
  {
    hide Waiting, Since;
  }

  lemma LeftDone(s: Sys, log: seq<Event>, from: nat, run: string, code: int)
    requires Done(s, run, code)
    ensures Left(s, log, from, run, code)
  {
    hide Done;
  }

  /** The process ends with the reboot still to come. */
  ghost predicate Waiting(s: Sys, run: string, code: int) {
    AtReboot(s, run) && code == 0
  }

  /** States a boot resume never continues, whether or not the machine rebooted. */
  predicate Early(s: State) {
    s.PRECHECK? || BeforeRebooting(s)
  }

  /** Where `_drive` may be called from: a new cycle, one to go on with, or one of the two recovery moves. */
  ghost predicate MayStart(s: Sys, c: CycleState, startAt: Option<State>) {
    || (Created(s, c) && c.state.IDLE? && startAt.None?)
    || (Holds(s, c) && !Terminal(c.state) && startAt.GetOr(c.state) == c.state)
    || (Stored(s, c) && Working(s.proc.value, c, PRECHECK) && SameBoot(s, c) && s.proc.value.entry.RunEntry?
        && startAt == Some(PRECHECK)
        && (c.state.REFRESHING? || c.state.DISCOVERING_UPDATES? || c.state.UPGRADING?))
    || (Stored(s, c) && Working(s.proc.value, c, POST_REBOOT) && !SameBoot(s, c) && c.bootIdAfter.None?
        && startAt == Some(POST_REBOOT) && c.state.REBOOTING?)
  }

  /** The state the work begins in. */
  function EntryState(c: CycleState, startAt: Option<State>): State {
    startAt.GetOr(if c.state.IDLE? then PRECHECK else c.state)
  }

  lemma StartIsOwned(s: Sys, c: CycleState, startAt: Option<State>)
    requires MayStart(s, c, startAt)
    ensures Owns(s, c) && (c.state.IDLE? <==> Created(s, c))
  {
    hide SteadyAt;
  }

  lemma StartIsElsewhere(s: Sys, c: CycleState, startAt: Option<State>)
    requires MayStart(s, c, startAt) && c.state.IDLE?
    ensures EntryState(c, startAt) != c.state
  {
    hide SteadyAt;
  }

  lemma StartMoves(s: Sys, c: CycleState, startAt: Option<State>)
    requires MayStart(s, c, startAt) && (!c.state.IDLE? ==> WellFormed(c))
    requires EntryState(c, startAt) != c.state
    ensures var state := EntryState(c, startAt);
      && Owns(s, c) && IsLegal(c.state, state) && WellFormed(c) && Lands(s, c, state)
      && !state.FAILED?
      && (!c.state.IDLE? ==> Allowed(s, s.proc.value, c, c, state) && FreshGate in s.proc.value.gates)
  {
    hide Allowed, WellFormed, SteadyAt;
    if c.state.IDLE? {
      NewIsWellFormed(s, c);
      NewLands(s, c);
    } else if startAt == Some(PRECHECK) {
      RestartMoves(s, c);
    } else {
      RebootedMoves(s, c);
    }
  }

  lemma NewLands(s: Sys, c: CycleState)
    requires Created(s, c)
    ensures Lands(s, c, PRECHECK)
  {
  }

  lemma EntryFacts(c: CycleState, next: CycleState, state: State)
    requires Follows(c, next, state)
    ensures Same(next.runId, c.runId) && Same(next.state, state)
  {
  }

  lemma StartHolds(s: Sys, c: CycleState, startAt: Option<State>)
    requires MayStart(s, c, startAt) && !c.state.IDLE?
    requires startAt.GetOr(c.state) == c.state
    ensures Holds(s, c) && !c.state.FAILED?
  {
    hide SteadyAt;
  }

  lemma AdvanceFacts(c: CycleState, next: CycleState)
    requires Advances(c, next)
    ensures Same(next.runId, c.runId) && !next.state.FAILED?
    ensures || (next.initialRebootCompleted == c.initialRebootCompleted && Rank(c.state) < Rank(next.state) <= 12)
            || (next.initialRebootCompleted && !c.initialRebootCompleted)
            || (c.state.REBOOTING? && next.state.REBOOTING?)
  {
  }

  lemma StillWaiting(s: Sys, c: CycleState)
    requires Holds(s, c) && c.state.REBOOTING?
    ensures Waiting(s, c.runId, 0)
  {
  }

  lemma DiagnosedIsRecoverable(s: Sys, c: CycleState)
    requires Stored(s, c) && !c.state.FAILED? && Diagnosed(s.proc.value)
    ensures Recoverable(s, c.runId)
  {
  }

  lemma StillHeld(s: Sys, t: Sys, c: CycleState)
    requires Holds(s, c) && t.proc.Some? && SameEnv(s, t) && SameRole(s.proc.value, t.proc.value)
    ensures Holds(t, c)
  {
  }

  lemma HeldMayStart(s: Sys, c: CycleState, startAt: Option<State>)
    requires Holds(s, c) && !Terminal(c.state) && startAt.GetOr(c.state) == c.state
    ensures MayStart(s, c, startAt)
  {
    hide SteadyAt, Stored, Created;
  }

  /** The machine rebooted under REBOOTING or POST_REBOOT, and no proof is recorded yet. */
  lemma RebootedMayStart(s: Sys, c: CycleState)
    requires Stored(s, c) && !s.proc.value.applying && (c.state.REBOOTING? || c.state.POST_REBOOT?)
    requires !Truthy(c.bootIdAfter) && !SameBoot(s, c) && (c.state.REBOOTING? ==> c.bootIdAfter.None?)
    requires FreshGate in s.proc.value.gates
    ensures MayStart(s, c, Some(POST_REBOOT))
  {
  }

  /** On the boot the record is held against, a late state may be worked on as it stands. */
  lemma UnchangedHolds(s: Sys, c: CycleState)
    requires Stored(s, c) && !s.proc.value.applying
    requires !Rebooted(c, Current(s))
    requires c.state.REBOOTING? || c.state.CHECKING_REBOOT? || c.state.REBOOT_PENDING? ==>
      c.bootIdAfter.None? && c.bootIdBefore.Some?
    requires !c.state.PRECHECK? && !c.state.REFRESHING? && !c.state.DISCOVERING_UPDATES? && !c.state.UPGRADING?
    requires FreshGate in s.proc.value.gates
    ensures Holds(s, c)
  {
  }

  lemma EarlyMayRestart(s: Sys, c: CycleState)
    requires Stored(s, c) && !s.proc.value.applying && s.proc.value.entry.RunEntry? && c.bootIdAfter.None?
    requires !Rebooted(c, Current(s))
    requires c.state.PRECHECK? || c.state.REFRESHING? || c.state.DISCOVERING_UPDATES? || c.state.UPGRADING?
    requires c.state.PRECHECK? || c.bootIdBefore.Some?
    requires FreshGate in s.proc.value.gates
    ensures MayStart(s, c, Some(PRECHECK))
  {
  }

  lemma TargetNeedsChange(state: State, changed: bool)
    ensures ResumeTarget(state, changed).Some? ==> changed
  {
  }

  /** A boot resume continues only where the boot has changed, and then where the resume table says. */
  lemma TargetMayStart(s: Sys, c: CycleState)
    requires Stored(s, c) && !s.proc.value.applying && !Truthy(c.bootIdAfter) && !SameBoot(s, c)
    requires ResumeTarget(c.state, true).Some? && (c.state.REBOOTING? ==> c.bootIdAfter.None?)
    requires FreshGate in s.proc.value.gates
    ensures MayStart(s, c, ResumeTarget(c.state, true))
  {
  }

  lemma NewMayStart(s: Sys, c: CycleState)
    requires Created(s, c)
    ensures MayStart(s, c, None) && c.state.IDLE?
  {
  }

  /** The events of a delivery that got these answers; without one the delivery raised. */
  function Tries(run: string, n: Name, o: Outcome, answers: seq<Option<string>>): seq<Event> {
    if answers == [] then []
    else
      var k := |answers| - 1;
      Tries(run, n, o, answers[..k]) + Try(run, n, o, answers[k], k)
  }

  /** After a failure there is a pause, but after the third. */
  function Try(run: string, n: Name, o: Outcome, answer: Option<string>, k: nat): seq<Event> {
    [Delivered(run, n, o, answer)] + (if answer.None? then [Threw] else [])
    + (if answer == Some(SENT) || k >= 2 then [] else [Slept(if k == 0 then 5 else 30)])
  }

  /** What became of a try that was not answered "sent". */
  predicate CameTo(answer: Option<string>, result: string) {
    result != SENT && if answer.Some? then result == answer.value else FAILED_ANSWER <= result
  }

  lemma NothingTried(log: seq<Event>, run: string, n: Name, o: Outcome)
    ensures log == log + Tries(run, n, o, [])
  {
  }

  /** The first "sent" settles it; else the third answer is the status, an exception being a failure. */
  predicate Settles(answers: seq<Option<string>>, status: string) {
    && 1 <= |answers| <= 3 && (forall i | 0 <= i < |answers| - 1 :: answers[i] != Some(SENT))
    && var last := answers[|answers| - 1];
       if last == Some(SENT) then status == SENT else |answers| == 3 && CameTo(last, status)
  }

  const FAILED_ANSWER := "failed:"

  /** From `before` on, a delivery took place and came to this status. */
  ghost predicate Answered(before: seq<Event>, after: seq<Event>, run: string, n: Name, o: Outcome, status: string) {
    exists answers :: Grew(before + Tries(run, n, o, answers), after) && Settles(answers, status)
  }

  /** So it did at some time since `from`. */
  ghost predicate Reported(log: seq<Event>, from: nat, run: string, n: Name, o: Outcome, status: string) {
    exists before: seq<Event> :: from <= |before| && Answered(before, log, run, n, o, status)
  }

  lemma ReportsStay(a: seq<Event>, b: seq<Event>, from: nat, run: string, n: Name, o: Outcome, status: string)
    requires Reported(a, from, run, n, o, status) && Grew(a, b)
    ensures Reported(b, from, run, n, o, status)
  {
    hide Answered;
    var before: seq<Event> :| from <= |before| && Answered(before, a, run, n, o, status);
    AnswersStay(before, a, b, run, n, o, status);
  }

  lemma AnsweredNow(before: seq<Event>, log: seq<Event>, run: string, n: Name, o: Outcome, answers: seq<Option<string>>,
                    status: string)
    requires Grew(before + Tries(run, n, o, answers), log) && Settles(answers, status)
    ensures Answered(before, log, run, n, o, status)
  {
    hide Grew, Settles, Tries;
  }

  lemma SetAsIs(m: map<Name, string>, n: Name)
    requires n in m
    ensures Same(m, m[n := m[n]])
  {
    assert m == m[n := m[n]];
  }

  lemma AnswersStay(before: seq<Event>, a: seq<Event>, b: seq<Event>, run: string, n: Name, o: Outcome, status: string)
    requires Answered(before, a, run, n, o, status) && Grew(a, b)
    ensures Answered(before, b, run, n, o, status)
  {
    hide Settles, Tries;
    var answers :| Grew(before + Tries(run, n, o, answers), a) && Settles(answers, status);
    assert Grew(before + Tries(run, n, o, answers), b);
  }

  lemma ReportsEarlier(a: seq<Event>, b: seq<Event>, from: nat, to: nat, run: string, ns: seq<Name>, o: Outcome,
                       d: map<Name, string>)
    requires Grew(a, b) && to <= from
    requires forall k | 0 <= k < |ns| :: ns[k] in d && Reported(a, from, run, ns[k], o, d[ns[k]])
    ensures forall k | 0 <= k < |ns| :: ns[k] in d && Reported(b, to, run, ns[k], o, d[ns[k]])
  {
    hide Grew, Answered;
    forall k | 0 <= k < |ns| ensures Reported(b, to, run, ns[k], o, d[ns[k]]) {
      ReportsStay(a, b, from, run, ns[k], o, d[ns[k]]);
    }
  }

  lemma MarksNothing(p: Proc, c: CycleState)
    ensures MarksHonestly(p, c, c.(notificationStatus := c.notificationStatus))
  {
  }

  lemma MarksOne(p: Proc, q: Proc, c: CycleState, d: map<Name, string>, n: Name, answer: string)
    requires MarksHonestly(p, c, c.(notificationStatus := d)) && p.sent <= q.sent
    requires answer == SENT ==> (c.runId, n) in q.sent
    ensures MarksHonestly(q, c, c.(notificationStatus := d[n := answer]))
  {
    var x, y := c.(notificationStatus := d), c.(notificationStatus := d[n := answer]);
    forall m | m in y.notificationStatus && SentIn(y, m) ensures SentIn(c, m) || (c.runId, m) in q.sent {
      assert m != n ==> SentIn(x, m);
    }
  }

  /** One more delivery came to its status. */
  lemma ToldNow(log0: seq<Event>, a: seq<Event>, b: seq<Event>, run: string, ns: seq<Name>, i: nat, o: Outcome,
                answers: seq<Option<string>>, d: map<Name, string>, status: string)
    requires i < |ns| && Grew(log0, a) && b == a + Tries(run, ns[i], o, answers) && Settles(answers, status)
    requires forall k | 0 <= k < i :: ns[k] in d && Reported(a, |log0|, run, ns[k], o, d[ns[k]])
    ensures var e := d[ns[i] := status];
      forall k | 0 <= k <= i :: ns[k] in e && Reported(b, |log0|, run, ns[k], o, e[ns[k]])
  {
    hide Tries, Settles;
    assert Grew(a, b) && Grew(b, b);
    hide Grew;
    assert Answered(a, b, run, ns[i], o, status);
    ReportedNow(a, b, |log0|, run, ns[i], o, status);
    ReportsEarlier(a, b, |log0|, |log0|, run, ns[..i], o, d);
    hide Reported;
    forall k | 0 <= k <= i
      ensures var e := d[ns[i] := status]; ns[k] in e && Reported(b, |log0|, run, ns[k], o, e[ns[k]])
    {
      if k < i {
        assert ns[..i][k] == ns[k];
      }
    }
  }

  lemma ReportedNow(before: seq<Event>, log: seq<Event>, from: nat, run: string, n: Name, o: Outcome, status: string)
    requires Answered(before, log, run, n, o, status) && from <= |before|
    ensures Reported(log, from, run, n, o, status)
  {
    hide Answered;
  }

  /** The two maps agree on `m`. */
  predicate SameEntry(a: map<Name, string>, b: map<Name, string>, m: Name) {
    (m in a <==> m in b) && (m in a ==> a[m] == b[m])
  }

  /** The notifier was marked sent before, or its status is what a delivery since came to. */
  ghost predicate StatusKnown(log: seq<Event>, from: nat, c: CycleState, n: Name, o: Outcome, d: map<Name, string>) {
    n in d && (SentIn(c, n) || Reported(log, from, c.runId, n, o, d[n]))
  }

  lemma StatusesStay(a: seq<Event>, b: seq<Event>, from: nat, c: CycleState, ns: seq<Name>, o: Outcome,
                     d: map<Name, string>)
    requires Grew(a, b) && forall k | 0 <= k < |ns| :: StatusKnown(a, from, c, ns[k], o, d)
    ensures forall k | 0 <= k < |ns| :: StatusKnown(b, from, c, ns[k], o, d)
  {
    hide Reported, Grew;
    forall k | 0 <= k < |ns| ensures StatusKnown(b, from, c, ns[k], o, d) {
      if !SentIn(c, ns[k]) {
        ReportsStay(a, b, from, c.runId, ns[k], o, d[ns[k]]);
      }
    }
  }

  /** One more notifier was attended to. */
  lemma StatusesKnown(log0: seq<Event>, a: seq<Event>, b: seq<Event>, c: CycleState, ns: seq<Name>, i: nat, o: Outcome,
                      d: map<Name, string>, e: map<Name, string>)
    requires i < |ns| && Grew(log0, a) && Grew(a, b) && ns[i] in e && Same(e, d[ns[i] := e[ns[i]]])
    requires if ns[i] in d && d[ns[i]] == SENT then Same(e, d) else Answered(a, b, c.runId, ns[i], o, e[ns[i]])
    requires forall k | 0 <= k < i :: StatusKnown(a, |log0|, c, ns[k], o, d)
    requires forall m | m !in ns[..i] :: SameEntry(d, c.notificationStatus, m)
    ensures forall k | 0 <= k <= i :: StatusKnown(b, |log0|, c, ns[k], o, e)
    ensures forall m | m !in ns[..i + 1] :: SameEntry(e, c.notificationStatus, m)
  {
    hide Reported, Answered;
    StatusesStay(a, b, |log0|, c, ns[..i], o, d);
    if !(ns[i] in d && d[ns[i]] == SENT) {
      ReportedNow(a, b, |log0|, c.runId, ns[i], o, e[ns[i]]);
    } else if ns[i] in ns[..i] {
      var k :| 0 <= k < i && ns[k] == ns[i];
      assert StatusKnown(b, |log0|, c, ns[..i][k], o, d);
    }
    forall k | 0 <= k <= i ensures StatusKnown(b, |log0|, c, ns[k], o, e) {
      if k < i && ns[k] != ns[i] {
        assert StatusKnown(b, |log0|, c, ns[..i][k], o, d);
      }
    }
    assert ns[..i + 1] == ns[..i] + [ns[i]];
  }

  lemma TriedAgain(run: string, n: Name, o: Outcome, answers: seq<Option<string>>, answer: Option<string>)
    ensures Tries(run, n, o, answers + [answer]) == Tries(run, n, o, answers) + Try(run, n, o, answer, |answers|)
  {
    assert (answers + [answer])[..|answers|] == answers;
  }

  /** The window the process remembers is the one of a check in the log, with no hook or wait since. */
  lemma VettedNow(w: World)
    requires w.Ready() && WindowGate in w.P().gates
    ensures w.P().window.Some? && Safety.FreshlyVetted(w.log, |w.log|, w.P().window.value)
  {
    hide Inv, Legal, At, Safety.FreshlyVetted;
    w.Lives();
    Safety.WindowIsVetted(w.start, w.log, |w.log|);
  }

  class CycleEngine {
    const w: World
    const config: Config
    const reboot: RebootController
    const notifiers: seq<Name>
    const hostname: string
    const provider: string

    constructor (w: World, config: Config, reboot: RebootController, notifiers: seq<Name>,
                 hostname: string, provider: string)
      requires reboot.w == w && reboot.policy == config.policy && reboot.window == config.window
      ensures this.w == w && this.config == config && this.notifiers == notifiers && Wired()
    {
      this.w := w;
      this.config := config;
      this.reboot := reboot;
      this.notifiers := notifiers;
      this.hostname := hostname;
      this.provider := provider;
    }

    predicate Wired() {
      reboot.w == w && reboot.policy == config.policy && reboot.window == config.window
    }

    /** Persist the move before anything is done in the new state; refuse what the table does not have. */
    method Transition(ghost c: CycleState, mem: CycleState, dst: State) returns (r: Result<CycleState, Trouble>)
      requires w.Ready() && Owns(w.sys, c) && mem.runId == c.runId && mem.state == c.state
      requires IsLegal(mem.state, dst) ==> MayMove(w.sys, w.P(), c, mem, dst)
      modifies w
      ensures w.Valid() && (Dead(r) <==> !w.Alive())
      ensures w.Alive() ==> Kept(old(w.sys), w.sys)
      ensures r.Success? ==> Stored(w.sys, r.value) && Follows(mem, r.value, dst) && IsLegal(mem.state, dst)
      ensures r.Success? ==> Logged(mem, r.value, dst)
      ensures (r.Success? ==> w.sys.past == {}) && Grew(old(w.log), w.log)
      ensures r.Success? ==> Since(w.log, old(|w.log|), Reached(mem, dst))
      ensures r.Success? ==>
        && (old(Lands(w.sys, mem, dst)) ==> Holds(w.sys, r.value)) && (Climbs(c, mem, dst) ==> Advances(c, r.value))
      ensures r.Failure? && r.error.Raised? && old(Recoverable(w.sys, c.runId) && Lands(w.sys, mem, dst)) ==>
        Recoverable(w.sys, c.runId)
      ensures r.Failure? && r.error.Raised? ==>
        if IsLegal(mem.state, dst) then
          r.error.exn.OtherException? && Since(w.log, old(|w.log|), Because(OtherException))
        else r.error.exn.IllegalTransition?
    {
      hide World.Valid, Inv, Legal, Next, Ok, OkIn, At, Owns, Allowed, WellFormed, IsLegal, Lands, Follows,
           Recoverable, Holds, Stored, Moved, Advances, Climbs, Logged, Grew, Since;
      LogsGrow();
      KeptAsIs(w.sys);
      if !IsLegal(mem.state, dst) {
        return Failure(Raised(IllegalTransition(mem.state, dst)));
      }
      var at := w.NowIso();
      var now := w.NowIso();
      var next := Moved(mem, dst, at, now);
      MayTransition(w.sys, c, mem, dst, at, now);
      ghost var before := w.sys;
      MovedKeeps(mem, dst, at, now);
      SinceNow(w.log, Saved(next, true), Reached(mem, dst));
      hide Shows;
      var saved := w.Save(c, next);
      if w.Alive() && !Same(w.sys, before) && Lands(before, mem, dst) {
        Landed(before, w.sys, mem, next, dst);
      }
      var _ :- saved;
      if Climbs(c, mem, dst) {
        Climbed(c, mem, next, dst);
      }
      if Lands(before, mem, dst) {
        Landed(before, w.sys, mem, next, dst);
      }
      return Success(next);
    }

    /** A handler's own move. */
    method Advance(c: CycleState, mem: CycleState, dst: State) returns (r: Result<CycleState, Trouble>)
      requires w.Ready() && Stored(w.sys, c) && Recoverable(w.sys, c.runId)
      requires Proceeds(w.sys, c, mem, dst)
      modifies w
      ensures w.Valid() && (Dead(r) <==> !w.Alive())
      ensures r.Success? ==> Holds(w.sys, r.value) && Advances(c, r.value) && Follows(mem, r.value, dst)
      ensures r.Failure? && r.error.Raised? ==> Recoverable(w.sys, c.runId)
      ensures w.Alive() ==> SameNotes(old(w.P()), w.P()) && Current(w.sys) == Current(old(w.sys))
      ensures Unexpected(r) && Grew(old(w.log), w.log) && Accounted(w.log, old(|w.log|), r)
    {
      hide World.Valid, Inv, Legal, Next, Ok, OkIn, At, Holds, Recoverable, WellFormed, Allowed, Lands, Created,
           IsLegal, Advances, Climbs, Follows, Kept, SameNotes, Grew, Since;
      LogsGrow();
      ghost var before := w.sys;
      StoredCell(before, c);
      r := Transition(c, mem, dst);
      if w.Alive() {
        KeptNotes(before, w.sys);
      }
    }

    // ------------------------------------------------------------ handlers

    /** The estimate covers the configured minimum and every pending package, and no more. */
    predicate Covers(c: CycleState, estimate: nat) {
      && estimate >= config.upgradeMinS && estimate >= config.perPackageS
      && estimate >= config.perPackageS * c.packagesPending
      && (|| estimate == config.upgradeMinS || estimate == config.perPackageS
          || estimate == config.perPackageS * c.packagesPending)
    }

    function UpgradeEstimate(c: CycleState): (estimate: nat)
      ensures Covers(c, estimate)
    {
      var perPackage := config.perPackageS * (if c.packagesPending > 1 then c.packagesPending else 1);
      if config.upgradeMinS > perPackage then config.upgradeMinS else perPackage
    }

    /** The last disruptive act was vetted by a check of the configured window, for the whole of the upgrade. */
    predicate Vetted(p: Proc, c: CycleState) {
      p.vetted.Some? && p.vetted.value.window == config.window && Covers(c, p.vetted.value.estimate)
    }

    /** Preflight again and again while the package manager is locked; sleeps less than timeout plus one poll. */
    method PreflightWithLockWait() returns (r: Result<PreflightResult, Trouble>)
      requires w.Ready()
      modifies w
      ensures w.Valid() && (Dead(r) <==> !w.Alive())
      ensures w.Alive() ==>
        && SameEnv(old(w.sys), w.sys) && Safer(old(w.sys), w.sys) && SameRole(old(w.P()), w.P())
        && Same(w.P().hooks, old(w.P().hooks))
        && old(w.P().slept) <= w.P().slept
        && w.P().slept - old(w.P().slept) <
             if config.lockTimeoutS == 0 then 1 else config.lockTimeoutS + config.lockPollS
      ensures r.Success? && r.value.ok ==> PreflightGate in w.P().gates
      ensures r.Success? && r.value.kind.PmLocked? && !r.value.ok ==>
        w.P().slept - old(w.P().slept) >= config.lockTimeoutS
      ensures r.Success? && w.P().slept > old(w.P().slept) ==>
        Since(w.log, old(|w.log|), Because(PackageManagerLockedError))
      ensures r.Success? ==> w.P().reported == Some(r.value)
      ensures r.Success? && !r.value.ok ==> Since(w.log, old(|w.log|), Because(Refusal(r.value.kind)))
      ensures Unexpected(r) && Grew(old(w.log), w.log) && Accounted(w.log, old(|w.log|), r)
    {
      hide World.Valid, Inv, Legal, Next, Ok, OkIn, At, Recoverable, Grew, Since;
      LogsGrow();
      ghost var log0 := w.log;
      var waited := 0;
      while true
        invariant w.Ready() && SameEnv(old(w.sys), w.sys) && Safer(old(w.sys), w.sys) && SameRole(old(w.P()), w.P())
        invariant Same(w.P().hooks, old(w.P().hooks)) && w.P().slept == old(w.P().slept) + waited
        invariant waited == 0 || waited < config.lockTimeoutS + config.lockPollS
        invariant (config.lockTimeoutS == 0 ==> waited == 0) && Grew(log0, w.log)
        invariant waited > 0 ==> Since(w.log, |log0|, Because(PackageManagerLockedError))
        decreases config.lockTimeoutS - waited
      {
        var result :- w.Preflight();
        if result.ok || !result.kind.PmLocked? {
          return Success(result);
        }
        if waited >= config.lockTimeoutS {
          return Success(result);
        }
        var _ :- w.Sleep(config.lockPollS);
        waited := waited + config.lockPollS;
      }
    }

    method DoPrecheck(c: CycleState) returns (r: Result<CycleState, Trouble>)
      requires Wired() && w.Ready() && Holds(w.sys, c) && c.state.PRECHECK?
      modifies w
      ensures w.Valid() && (Dead(r) <==> !w.Alive())
      ensures r.Success? ==> Holds(w.sys, r.value) && Advances(c, r.value)
      ensures r.Failure? && r.error.Raised? ==> Recoverable(w.sys, c.runId)
      ensures Spared(r) && Grew(old(w.log), w.log) && Accounted(w.log, old(|w.log|), r)
      ensures r.Success? ==>
        && w.P().reported.Some? && r.value.preExistingReboot == w.P().reported.value.preExistingReboot
        && r.value.state ==
             if w.P().reported.value.preExistingReboot && !c.initialRebootCompleted
                && config.existingPending.RebootFirst?
             then REBOOT_PENDING else REFRESHING
      ensures r == Failure(Raised(PreflightError(InterruptedTransaction))) && config.repairInterrupted ==>
        Since(w.log, old(|w.log|), Repaired(c.runId))
      ensures r.Success? && w.P().vetted != old(w.P().vetted) ==> config.repairInterrupted && Vetted(w.P(), c)
    {
      hide World.Valid, Inv, Legal, Next, Ok, OkIn, At, Holds, Recoverable, WellFormed, Allowed, Lands, Created,
           IsLegal, Advances, Climbs, Proceeds, Follows, Grew, Since;
      LogsGrow();
      HeldFacts(w.sys, c);
      assert WellFormed(c) by {
        w.Knows(c);
      }
      var found :- Survey(c);
      r := FinishPrecheck(c, found.identity, found.bootId, found.pending);
    }

    /** What there is to know before anything is begun. */
    method Survey(c: CycleState) returns (r: Result<Findings, Trouble>)
      requires w.Ready() && Stored(w.sys, c) && c.state.PRECHECK? && (c.bootIdBefore.None? || SameBoot(w.sys, c))
      modifies w
      ensures w.Valid() && (Dead(r) <==> !w.Alive())
      ensures w.Alive() ==> SameEnv(old(w.sys), w.sys) && Safer(old(w.sys), w.sys) && StillOn(old(w.P()), w.P())
      ensures r.Success? ==>
        && RootGate in w.P().gates && SpaceGate in w.P().gates && PreflightGate in w.P().gates
        && r.value.bootId == Current(w.sys) && w.P().identity == Some(r.value.identity)
        && w.P().reported.Some? && r.value.pending == w.P().reported.value.preExistingReboot
      ensures r == Failure(Raised(PreflightError(InterruptedTransaction))) && config.repairInterrupted ==>
        Since(w.log, old(|w.log|), Repaired(c.runId))
      ensures r.Success? && w.P().vetted != old(w.P().vetted) ==> config.repairInterrupted && Vetted(w.P(), c)
      ensures Spared(r) && Grew(old(w.log), w.log) && Accounted(w.log, old(|w.log|), r)
    {
      hide World.Valid, Inv, Legal, Next, Ok, OkIn, At, Recoverable, SteadyAt, Vetted, Grew, Since;
      LogsGrow();
      var _ :- Qualify();
      var identity := w.Identity();
      var bootId :- w.BootId();
      var pre :- Inspect(c);
      return Success(Findings(identity, bootId, pre.preExistingReboot));
    }

    /** Without root or space nothing is begun. */
    method Qualify() returns (r: Result<(), Trouble>)
      requires w.Ready()
      modifies w
      ensures w.Ready() && SameEnv(old(w.sys), w.sys) && Safer(old(w.sys), w.sys)
      ensures SameButGates(old(w.P()), w.P()) && (FreshGate in w.P().gates <==> FreshGate in old(w.P().gates))
      ensures r.Success? ==> RootGate in w.P().gates && SpaceGate in w.P().gates
      ensures r.Failure? ==>
        && r.error.Raised?
        && r.error.exn in {PreflightError(Unspecified), PreflightError(OtherKind("disk-space"))}
      ensures Grew(old(w.log), w.log) && Accounted(w.log, old(|w.log|), r)
    {
      hide World.Valid, Inv, Legal, Next, Ok, OkIn, At, Recoverable, Grew, Since;
      LogsGrow();
      var root := w.IsRoot();
      if !root {
        return Failure(Raised(PreflightError(Unspecified)));
      }
      var space := w.HasDiskSpace();
      if !space {
        return Failure(Raised(PreflightError(OtherKind("disk-space"))));
      }
      return Success(());
    }

    /** Preflight, with the one repair an interrupted transaction may get. */
    method Inspect(c: CycleState) returns (r: Result<PreflightResult, Trouble>)
      requires w.Ready() && Stored(w.sys, c) && c.state.PRECHECK? && (c.bootIdBefore.None? || SameBoot(w.sys, c))
      modifies w
      ensures w.Valid() && (Dead(r) <==> !w.Alive())
      ensures w.Alive() ==>
        && SameEnv(old(w.sys), w.sys) && Safer(old(w.sys), w.sys)
        && SameDuties(old(w.P()), w.P())
      ensures r.Success? ==> r.value.ok && w.P().reported == Some(r.value) && PreflightGate in w.P().gates
      ensures r == Failure(Raised(PreflightError(InterruptedTransaction))) && config.repairInterrupted ==>
        Since(w.log, old(|w.log|), Repaired(c.runId))
      ensures r.Success? && w.P().vetted != old(w.P().vetted) ==> config.repairInterrupted && Vetted(w.P(), c)
      ensures Spared(r) && Grew(old(w.log), w.log) && Accounted(w.log, old(|w.log|), r)
    {
      hide World.Valid, Inv, Legal, Next, Ok, OkIn, At, Recoverable, SteadyAt, Covers, Grew, Since;
      LogsGrow();
      var pre :- PreflightWithLockWait();
      if !pre.ok && pre.kind.InterruptedTransaction? && config.repairInterrupted {
        pre :- Repair(c);
      }
      if !pre.ok {
        return Failure(Raised(Refusal(pre.kind)));
      }
      return Success(pre);
    }

    method FinishPrecheck(c: CycleState, identity: OsIdentity, bootId: string, pending: bool)
      returns (r: Result<CycleState, Trouble>)
      requires w.Ready() && Stored(w.sys, c) && Recoverable(w.sys, c.runId) && c.state.PRECHECK? && WellFormed(c)
      requires (c.bootIdBefore.None? || SameBoot(w.sys, c)) && Working(w.P(), c, c.state)
      requires RootGate in w.P().gates && SpaceGate in w.P().gates
      requires PreflightGate in w.P().gates && bootId == Current(w.sys)
      requires Reports(w.P(), identity.os, identity.kernel, pending)
      modifies w
      ensures w.Valid() && (Dead(r) <==> !w.Alive())
      ensures r.Success? ==> Holds(w.sys, r.value) && Advances(c, r.value)
      ensures r.Failure? && r.error.Raised? ==> Recoverable(w.sys, c.runId)
      ensures Unexpected(r) && Grew(old(w.log), w.log) && Accounted(w.log, old(|w.log|), r)
      ensures r.Success? ==>
        && Same(w.P().reported, old(w.P().reported)) && Same(w.P().vetted, old(w.P().vetted))
        && r.value.preExistingReboot == pending
        && r.value.state ==
             if pending && !c.initialRebootCompleted && config.existingPending.RebootFirst?
             then REBOOT_PENDING else REFRESHING
    {
      hide World.Valid, Inv, Legal, Next, Ok, OkIn, At, Holds, Recoverable, WellFormed, Allowed, Lands, Created,
           IsLegal, Advances, Climbs, Proceeds, Follows, Grew, Since;
      LogsGrow();
      var mem := Checked(c, identity.os, identity.kernel, bootId, pending);
      if pending && !c.initialRebootCompleted && config.existingPending.RebootFirst? {
        RebootFirstMoves(w.sys, c, identity.os, identity.kernel);
        hide Checked, AskReboot;
        r := Advance(c, AskReboot(mem), REBOOT_PENDING);
        if r.Success? {
          Carried(AskReboot(mem), r.value, REBOOT_PENDING);
        }
      } else {
        PrecheckMoves(w.sys, c, identity.os, identity.kernel, pending);
        hide Checked;
        r := Advance(c, mem, REFRESHING);
        if r.Success? {
          Carried(mem, r.value, REFRESHING);
        }
      }
    }

    /** Repair of an interrupted transaction: disruptive, so only inside the window. */
    method Repair(c: CycleState) returns (r: Result<PreflightResult, Trouble>)
      requires w.Ready() && Stored(w.sys, c) && c.state.PRECHECK? && (c.bootIdBefore.None? || SameBoot(w.sys, c))
      requires Interrupted(w.P())
      modifies w
      ensures w.Valid() && (Dead(r) <==> !w.Alive())
      ensures w.Alive() ==>
        && SameEnv(old(w.sys), w.sys) && Safer(old(w.sys), w.sys)
        && SameDuties(old(w.P()), w.P())
      ensures r.Success? ==> w.P().reported == Some(r.value) && (r.value.ok ==> PreflightGate in w.P().gates)
      ensures r.Success? ==> Vetted(w.P(), c) && Since(w.log, old(|w.log|), Repaired(c.runId))
      ensures r.Success? && !r.value.ok ==> Since(w.log, old(|w.log|), Because(Refusal(r.value.kind)))
      ensures r != Failure(Raised(PreflightError(InterruptedTransaction)))
      ensures Spared(r) && Grew(old(w.log), w.log) && Accounted(w.log, old(|w.log|), r)
    {
      hide World.Valid, Inv, Legal, Next, Ok, OkIn, At, Recoverable, Created, Grew, Since;
      LogsGrow();
      var fits := w.WindowAllows(config.window, UpgradeEstimate(c));
      if !fits {
        return Failure(Raised(PreflightError(Unspecified)));
      }
      MayRepair(w.sys, c);
      r := w.RepairInterrupted(c.runId);
    }

    method DoRefreshing(c: CycleState) returns (r: Result<CycleState, Trouble>)
      requires Wired() && w.Ready() && Holds(w.sys, c) && c.state.REFRESHING?
      modifies w
      ensures w.Valid() && (Dead(r) <==> !w.Alive())
      ensures r.Success? ==> Holds(w.sys, r.value) && Advances(c, r.value)
      ensures r.Failure? && r.error.Raised? ==> Recoverable(w.sys, c.runId)
      ensures Granted(r) && Grew(old(w.log), w.log) && Accounted(w.log, old(|w.log|), r)
      ensures r.Success? ==>
        && r.value.state.DISCOVERING_UPDATES? && w.P().refreshed.Some? && w.P().refreshed.value.ok
        && Same(r.value.warnings, Dedup(c.warnings + w.P().refreshed.value.warnings))
    {
      hide World.Valid, Inv, Legal, Next, Ok, OkIn, At, Holds, Recoverable, WellFormed, Allowed, Lands, Created,
           IsLegal, Advances, Climbs, Proceeds, Follows, Grew, Since;
      LogsGrow();
      HeldFacts(w.sys, c);
      assert WellFormed(c) by {
        w.Knows(c);
      }
      var result :- w.Refresh();
      if !result.ok {
        return Failure(Raised(PackageManagerError));
      }
      var warnings := Dedup(c.warnings + result.warnings);
      RefreshMoves(w.sys, c, warnings);
      r := Advance(c, c.(warnings := warnings), DISCOVERING_UPDATES);
      if r.Success? {
        Carried(c.(warnings := warnings), r.value, DISCOVERING_UPDATES);
      }
    }

    method DoDiscovering(c: CycleState) returns (r: Result<CycleState, Trouble>)
      requires Wired() && w.Ready() && Holds(w.sys, c) && c.state.DISCOVERING_UPDATES?
      modifies w
      ensures w.Valid() && (Dead(r) <==> !w.Alive())
      ensures r.Success? ==> Holds(w.sys, r.value) && Advances(c, r.value)
      ensures r.Failure? && r.error.Raised? ==> Recoverable(w.sys, c.runId)
      ensures Granted(r) && Grew(old(w.log), w.log) && Accounted(w.log, old(|w.log|), r)
      ensures r.Success? ==>
        && r.value.packagesPending == Pending(r.value.updatesAvailable)
        && r.value.state == if r.value.packagesPending == 0 then CHECKING_REBOOT else UPGRADING
    {
      hide World.Valid, Inv, Legal, Next, Ok, OkIn, At, Holds, Recoverable, WellFormed, Allowed, Lands, Created,
           IsLegal, Advances, Climbs, Proceeds, Follows, Grew, Since;
      LogsGrow();
      hide Pending;
      HeldFacts(w.sys, c);
      assert WellFormed(c) by {
        w.Knows(c);
      }
      var updates :- w.ListUpdates();
      DiscoveryMoves(w.sys, c, updates);
      var mem := Discovered(c, updates);
      hide Discovered;
      if mem.packagesPending == 0 {
        r := Advance(c, mem, CHECKING_REBOOT);
        if r.Success? {
          Carried(mem, r.value, CHECKING_REBOOT);
        }
      } else {
        r := Advance(c, mem, UPGRADING);
        if r.Success? {
          Carried(mem, r.value, UPGRADING);
        }
      }
    }

    method DoUpgrading(c: CycleState) returns (r: Result<CycleState, Trouble>)
      requires Wired() && w.Ready() && Holds(w.sys, c) && c.state.UPGRADING?
      modifies w
      ensures w.Valid() && (Dead(r) <==> !w.Alive())
      ensures r.Success? ==> Holds(w.sys, r.value) && Advances(c, r.value)
      ensures r.Failure? && r.error.Raised? ==> Recoverable(w.sys, c.runId)
      ensures Spared(r) && Grew(old(w.log), w.log) && Accounted(w.log, old(|w.log|), r)
      ensures r.Success? ==> r.value.state.CHECKING_REBOOT? && r.value.updatesApplied
      ensures r.Success? && !c.updatesApplied ==> Vetted(w.P(), c)
    {
      hide World.Valid, Inv, Legal, Next, Ok, OkIn, At, Holds, Recoverable, WellFormed, Allowed, Lands, Created,
           IsLegal, Advances, Climbs, Proceeds, Follows, Grew, Since;
      LogsGrow();
      HeldFacts(w.sys, c);
      assert WellFormed(c) && !c.rebootBeforeUpdates by {
        w.Knows(c);
      }
      if c.updatesApplied {
        UpgradedMoves(w.sys, c);
        r := Advance(c, c, CHECKING_REBOOT);
        if r.Success? {
          Carried(c, r.value, CHECKING_REBOOT);
        }
        return;
      }
      var _ :- PrepareUpgrade(c);
      StoredCell(w.sys, c);
      var result :- w.ApplyUpdates(c.runId, Unheld(c.updatesAvailable));
      if !result.ok {
        return Failure(Raised(PackageManagerError));
      }
      r := FinishUpgrade(c, result);
    }

    /** Window, hooks, preflight and window again: nothing is applied before all of them. */
    method PrepareUpgrade(c: CycleState) returns (r: Result<(), Trouble>)
      requires w.Ready() && Stored(w.sys, c) && c.state.UPGRADING? && SameBoot(w.sys, c)
      requires !c.updatesApplied && !w.P().applying && w.sys.past == {}
      modifies w
      ensures w.Valid() && (Dead(r) <==> !w.Alive())
      ensures w.Alive() ==> SameEnv(old(w.sys), w.sys) && Safer(old(w.sys), w.sys) && SameRole(old(w.P()), w.P())
      ensures r.Success? ==> OkIn(w.sys, w.P(), ApplyCalled(c.runId))
      ensures r.Success? ==>
        && WindowGate in w.P().gates && w.P().window.Some? && w.P().window.value.window == config.window
        && Covers(c, w.P().window.value.estimate)
        && Safety.FreshlyVetted(w.log, |w.log|, w.P().window.value)
      ensures Spared(r) && Grew(old(w.log), w.log) && Accounted(w.log, old(|w.log|), r)
    {
      hide World.Valid, Inv, Legal, Next, Ok, OkIn, At, Recoverable, Created, Covers, SameFinds, Grew, Since,
           Safety.FreshlyVetted;
      LogsGrow();
      var estimate := UpgradeEstimate(c);
      var fits := w.WindowAllows(config.window, estimate);
      if !fits {
        return Failure(Raised(PreflightError(Unspecified)));
      }
      var abort :- w.RunHooks(BeforeUpgrade);
      if abort {
        return Failure(Raised(PreflightError(Unspecified)));
      }
      r := CheckAgain(c, estimate);
      if r.Success? {
        VettedNow(w);
      }
    }

    /** After the hooks: preflight, then the window once more. */
    method CheckAgain(c: CycleState, estimate: nat) returns (r: Result<(), Trouble>)
      requires w.Ready() && Stored(w.sys, c) && c.state.UPGRADING? && SameBoot(w.sys, c)
      requires !c.updatesApplied && !w.P().applying && w.sys.past == {} && BeforeUpgrade in w.P().hooks
      modifies w
      ensures w.Valid() && (Dead(r) <==> !w.Alive())
      ensures w.Alive() ==> SameEnv(old(w.sys), w.sys) && Safer(old(w.sys), w.sys) && SameRole(old(w.P()), w.P())
      ensures r.Success? ==> OkIn(w.sys, w.P(), ApplyCalled(c.runId))
      ensures r.Success? ==> WindowGate in w.P().gates && w.P().window == Some(Vet(config.window, estimate))
      ensures Spared(r) && Grew(old(w.log), w.log) && Accounted(w.log, old(|w.log|), r)
    {
      hide World.Valid, Inv, Legal, Next, Ok, OkIn, At, Recoverable, Created, Grew, Since;
      LogsGrow();
      var pre :- PreflightWithLockWait();
      if !pre.ok {
        return Failure(Raised(Refusal(pre.kind)));
      }
      var fits := w.WindowAllows(config.window, estimate);
      if !fits {
        return Failure(Raised(PreflightError(Unspecified)));
      }
      MayApply(w.sys, c);
      return Success(());
    }

    /** Record the work before anything else may fail. */
    method FinishUpgrade(c: CycleState, result: ApplyResult) returns (r: Result<CycleState, Trouble>)
      requires w.Ready() && Stored(w.sys, c) && c.state.UPGRADING? && WellFormed(c) && SameBoot(w.sys, c)
      requires !c.updatesApplied && w.P().applying && w.P().applied == Some(result) && result.ok
      requires FreshGate in w.P().gates && !c.rebootBeforeUpdates && Recoverable(w.sys, c.runId) && w.sys.past == {}
      modifies w
      ensures w.Valid() && (Dead(r) <==> !w.Alive())
      ensures r.Success? ==> Holds(w.sys, r.value) && Advances(c, r.value)
      ensures r.Success? ==> r.value.state.CHECKING_REBOOT? && r.value.updatesApplied
      ensures r.Success? ==> Same(w.P().vetted, old(w.P().vetted))
      ensures r.Failure? && r.error.Raised? ==> Recoverable(w.sys, c.runId)
      ensures Spared(r) && Grew(old(w.log), w.log) && Accounted(w.log, old(|w.log|), r)
    {
      hide World.Valid, Inv, Legal, Next, Ok, OkIn, At, Holds, Recoverable, WellFormed, Allowed, Lands, Created,
           IsLegal, Advances, Climbs, Proceeds, Follows, Grew, Since;
      LogsGrow();
      var next := Applied(c, result);
      UpgradeSaves(w.sys, c, result);
      hide Applied;
      var _ :- w.Save(c, next);
      var abort :- w.RunHooks(AfterUpgrade);
      if abort {
        return Failure(Raised(PreflightError(Unspecified)));
      }
      UpgradedMoves(w.sys, next);
      r := Advance(next, next, CHECKING_REBOOT);
      if r.Success? {
        Carried(next, r.value, CHECKING_REBOOT);
        AdvancesFrom(c, next, r.value);
      }
    }

    method DoCheckingReboot(c: CycleState) returns (r: Result<CycleState, Trouble>)
      requires Wired() && w.Ready() && Holds(w.sys, c) && c.state.CHECKING_REBOOT?
      modifies w
      ensures w.Valid() && (Dead(r) <==> !w.Alive())
      ensures r.Success? ==> Holds(w.sys, r.value) && Advances(c, r.value)
      ensures r.Failure? && r.error.Raised? ==> Recoverable(w.sys, c.runId)
      ensures Granted(r) && Grew(old(w.log), w.log) && Accounted(w.log, old(|w.log|), r)
      ensures r.Success? ==>
        r.value.state == if c.preExistingReboot && config.existingPending.ReportOnly? then VERIFYING
                         else if r.value.rebootRequired || config.policy.Always? then REBOOT_PENDING else VERIFYING
      ensures r.Success? ==>
        && w.P().probed.Some? && r.value.rebootRequired == w.P().probed.value.required
        && Same(r.value.rebootReasons, w.P().probed.value.reasons)
      ensures r.Success? && c.preExistingReboot && config.existingPending.ReportOnly? ==>
        r.value.outcome == Some(ManualRebootRequired)
    {
      hide World.Valid, Inv, Legal, Next, Ok, OkIn, At, Holds, Recoverable, WellFormed, Allowed, Lands, Created,
           IsLegal, Advances, Climbs, Proceeds, Follows, Grew, Since;
      LogsGrow();
      HeldFacts(w.sys, c);
      assert WellFormed(c) by {
        w.Knows(c);
      }
      var status :- w.RebootRequired();
      var mem := Probe(c, status);
      assert mem.rebootRequired == ByHand(mem).rebootRequired == status.required;
      assert Same(mem.rebootReasons, status.reasons) && Same(ByHand(mem).rebootReasons, status.reasons);
      var dst := VERIFYING;
      if c.preExistingReboot && config.existingPending.ReportOnly? {
        ReportOnlyMoves(w.sys, c, status);
        mem := ByHand(mem);
      } else {
        dst := if status.required || config.policy.Always? then REBOOT_PENDING else VERIFYING;
        ProbeMoves(w.sys, c, status, dst);
      }
      hide Probe, ByHand;
      r := Advance(c, mem, dst);
      if r.Success? {
        Carried(mem, r.value, dst);
      }
    }

    method DoRebootPending(c: CycleState) returns (r: Result<CycleState, Trouble>)
      requires Wired() && w.Ready() && Holds(w.sys, c) && c.state.REBOOT_PENDING?
      modifies w
      ensures w.Valid() && (Dead(r) <==> !w.Alive())
      ensures r.Success? ==> Holds(w.sys, r.value) && Advances(c, r.value)
      ensures r.Failure? && r.error.Raised? ==> Recoverable(w.sys, c.runId)
      ensures Spared(r) && Grew(old(w.log), w.log) && Accounted(w.log, old(|w.log|), r)
      ensures r.Success? ==> r.value.state == if Permits(config.policy, c.rebootRequired) then REBOOTING else VERIFYING
      ensures r.Success? && r.value.state.VERIFYING? ==>
        r.value.outcome == if c.rebootRequired then Some(ManualRebootRequired) else c.outcome
      ensures r.Success? && r.value.state.REBOOTING? ==>
        && WindowGate in w.P().gates && w.P().window == Some(Vet(config.window, config.rebootVerifyS))
        && reboot.Considered(w.log, old(|w.log|), c.rebootRequired)
    {
      hide World.Valid, Inv, Legal, Next, Ok, OkIn, At, Holds, Recoverable, WellFormed, Allowed, Lands, Created,
           IsLegal, Advances, Climbs, Proceeds, Follows, Grew, Since;
      LogsGrow();
      HeldFacts(w.sys, c);
      assert WellFormed(c) by {
        w.Knows(c);
      }
      var decision :- reboot.Evaluate(c.rebootRequired, config.rebootVerifyS);
      if decision.DeferManual? && !decision.reason.PolicyForbids? {
        return Failure(Raised(PreflightError(Unspecified)));
      }
      var mem := c;
      if decision.DeferManual? {
        ByHandMoves(w.sys, c);
        mem := ByHand(c);
      } else {
        DecisionMoves(w.sys, c, if decision.DoReboot? then REBOOTING else VERIFYING);
      }
      var dst := if decision.DoReboot? then REBOOTING else VERIFYING;
      hide ByHand;
      r := Advance(c, mem, dst);
      if r.Success? {
        Carried(mem, r.value, dst);
      }
    }

    method DoRebooting(c: CycleState) returns (r: Result<CycleState, Trouble>)
      requires Wired() && w.Ready() && Holds(w.sys, c) && c.state.REBOOTING?
      modifies w
      ensures w.Valid() && (Dead(r) <==> !w.Alive())
      ensures r.Success? ==> Holds(w.sys, r.value) && Advances(c, r.value)
      ensures r.Failure? && r.error.Raised? ==> Recoverable(w.sys, c.runId)
      ensures Granted(r) && Grew(old(w.log), w.log) && Accounted(w.log, old(|w.log|), r)
      ensures r.Success? ==> r.value.state.REBOOTING? || r.value.state.POST_REBOOT?
      ensures r.Success? ==> r.value.rebootAttempts > c.rebootAttempts
      ensures r.Success? ==> (r.value.state.POST_REBOOT? <==> Rebooted(r.value, Current(w.sys)))
      ensures r.Success? ==>
        && w.P().vetted == Some(Vet(config.window, config.rebootVerifyS))
        && reboot.Considered(w.log, old(|w.log|), c.rebootRequired)
        && Since(w.log, old(|w.log|), Commanded(c.runId))
    {
      hide World.Valid, Inv, Legal, Next, Ok, OkIn, At, Holds, Recoverable, WellFormed, Allowed, Lands, Created,
           IsLegal, Advances, Climbs, Proceeds, Follows, Grew, Since;
      LogsGrow();
      HeldFacts(w.sys, c);
      var _ :- DecideAgain(c);
      var sent := reboot.PrepareAndReboot(c, config.rebootVerifyS);
      if w.Alive() {
        AtRebootIsRecoverable(w.sys, c.runId);
      }
      var cycle :- sent;
      r := AwaitReboot(cycle);
      if r.Success? {
        AdvancesFrom(c, cycle, r.value);
      }
    }

    /** The hooks run, and then the decision is made once more. */
    method DecideAgain(c: CycleState) returns (r: Result<(), Trouble>)
      requires Wired() && w.Ready() && Stored(w.sys, c) && c.state.REBOOTING?
      modifies w
      ensures w.Valid() && (Dead(r) <==> !w.Alive())
      ensures w.Alive() ==>
        && SameEnv(old(w.sys), w.sys) && Safer(old(w.sys), w.sys) && SameRole(old(w.P()), w.P())
      ensures r.Success? ==>
        && BeforeReboot in w.P().hooks && Decided(w.P(), config.window, config.rebootVerifyS)
        && reboot.Considered(w.log, old(|w.log|), c.rebootRequired)
      ensures r.Failure? && r.error.Raised? ==> r.error.exn in {PreflightError(Unspecified), OtherException}
      ensures Grew(old(w.log), w.log) && Accounted(w.log, old(|w.log|), r)
    {
      hide World.Valid, Inv, Legal, Next, Ok, OkIn, At, Recoverable, Decided, Grew, Since;
      LogsGrow();
      StoredCell(w.sys, c);
      var abort :- w.RunHooks(BeforeReboot);
      if abort {
        return Failure(Raised(PreflightError(Unspecified)));
      }
      var decision :- reboot.Evaluate(c.rebootRequired, config.rebootVerifyS);
      if !decision.DoReboot? {
        return Failure(Raised(PreflightError(Unspecified)));
      }
      return Success(());
    }

    /** The command was accepted: carry on only if the boot has visibly changed. */
    method AwaitReboot(c: CycleState) returns (r: Result<CycleState, Trouble>)
      requires w.Ready() && AtReboot(w.sys, c.runId) && Same(w.sys.cell, Rec(c))
      requires Working(w.P(), c, c.state)
      modifies w
      ensures w.Valid() && (Dead(r) <==> !w.Alive())
      ensures r.Success? ==> Holds(w.sys, r.value) && Advances(c, r.value) && r.value.rebootAttempts == c.rebootAttempts
      ensures r.Success? ==> r.value.state.REBOOTING? || r.value.state.POST_REBOOT?
      ensures r.Success? ==> (r.value.state.POST_REBOOT? <==> Rebooted(r.value, Current(w.sys)))
      ensures r.Success? ==> Same(w.P().vetted, old(w.P().vetted))
      ensures r.Failure? && r.error.Raised? ==> Recoverable(w.sys, c.runId)
      ensures Granted(r) && Grew(old(w.log), w.log) && Accounted(w.log, old(|w.log|), r)
    {
      hide World.Valid, Inv, Legal, Next, Ok, OkIn, At, Holds, Recoverable, WellFormed, Allowed, Lands, Created,
           IsLegal, Advances, Climbs, Proceeds, Follows, Grew, Since;
      LogsGrow();
      assert WellFormed(c) && c.bootIdAfter.None? && Truthy(c.bootIdBefore) by {
        w.Knows(c);
      }
      AtRebootIsRecoverable(w.sys, c.runId);
      var changed :- BootChanged(c);
      if !changed {
        HoldsAtReboot(w.sys, c);
        return Success(c);
      }
      RebootedMoves(w.sys, c);
      r := Advance(c, c, POST_REBOOT);
      if r.Success? {
        Carried(c, r.value, POST_REBOOT);
      }
    }

    method BootChanged(c: CycleState) returns (r: Result<bool, Trouble>)
      requires w.Ready() && Same(w.sys.cell, Rec(c))
      modifies w
      ensures w.Valid() && (Dead(r) <==> !w.Alive()) && Grew(old(w.log), w.log)
      ensures w.Alive() ==> Same(w.sys, old(w.sys))
      ensures r.Success? ==> (r.value <==> Rebooted(c, Current(w.sys)))
      ensures r.Success? && Barred(w.P().entry, c, Current(w.sys)) ==>
        Since(w.log, old(|w.log|), Because(Diagnosis("unexpected-reboot")))
      ensures Unexpected(r) && Accounted(w.log, old(|w.log|), r)
    {
      hide World.Valid, Inv, Legal, Next, Ok, OkIn, At, Recoverable, Grew, Since, Barred;
      LogsGrow();
      var baseline := if Truthy(c.bootIdAfter) then c.bootIdAfter else c.bootIdBefore;
      if baseline.None? {
        w.Hold(c);
        return Success(false);
      }
      var bootId :- w.BootId();
      w.Hold(c);
      return Success(bootId != baseline.value);
    }

    method DoPostReboot(c: CycleState) returns (r: Result<CycleState, Trouble>)
      requires Wired() && w.Ready() && Holds(w.sys, c) && c.state.POST_REBOOT?
      modifies w
      ensures w.Valid() && (Dead(r) <==> !w.Alive())
      ensures r.Success? ==> Holds(w.sys, r.value) && Advances(c, r.value)
      ensures r.Failure? && r.error.Raised? ==> Recoverable(w.sys, c.runId)
      ensures Granted(r) && Grew(old(w.log), w.log) && Accounted(w.log, old(|w.log|), r)
      ensures r.Success? ==> r.value.state == if c.rebootBeforeUpdates then PRECHECK else VERIFYING
      ensures r.Success? && c.rebootBeforeUpdates ==> r.value.initialRebootCompleted && r.value.rebootAttempts == 0
    {
      hide World.Valid, Inv, Legal, Next, Ok, OkIn, At, Holds, Recoverable, WellFormed, Allowed, Lands, Created,
           IsLegal, Advances, Climbs, Proceeds, Follows, Grew, Since;
      LogsGrow();
      HeldFacts(w.sys, c);
      assert WellFormed(c) && (c.rebootBeforeUpdates ==> !c.initialRebootCompleted) by {
        w.Knows(c);
      }
      var bootId :- reboot.VerifyRebooted(c);
      var next := Proved(c, bootId, w.sys.kernel);
      ProofSaves(w.sys, c);
      hide Proved;
      var _ :- w.Save(c, next);
      r := FinishPostReboot(next);
      if r.Success? {
        AdvancesFrom(c, next, r.value);
      }
    }

    /** The proof is durable: run the hooks, then on, or back for the second pass. */
    method FinishPostReboot(c: CycleState) returns (r: Result<CycleState, Trouble>)
      requires w.Ready() && Stored(w.sys, c) && Recoverable(w.sys, c.runId) && c.state.POST_REBOOT? && WellFormed(c)
      requires KernelAsExpected(w.sys, c) && c.bootIdAfter == Some(Current(w.sys)) && Working(w.P(), c, c.state)
      requires c.rebootBeforeUpdates ==> !c.initialRebootCompleted
      modifies w
      ensures w.Valid() && (Dead(r) <==> !w.Alive())
      ensures r.Success? ==> Holds(w.sys, r.value) && Advances(c, r.value)
      ensures r.Failure? && r.error.Raised? ==> Recoverable(w.sys, c.runId)
      ensures Granted(r) && Grew(old(w.log), w.log) && Accounted(w.log, old(|w.log|), r)
      ensures r.Success? ==> r.value.state == if c.rebootBeforeUpdates then PRECHECK else VERIFYING
      ensures r.Success? && c.rebootBeforeUpdates ==> r.value.initialRebootCompleted && r.value.rebootAttempts == 0
    {
      hide World.Valid, Inv, Legal, Next, Ok, OkIn, At, Holds, Recoverable, WellFormed, Allowed, Lands, Created,
           IsLegal, Advances, Climbs, Proceeds, Follows, Grew, Since;
      LogsGrow();
      var abort :- w.RunHooks(AfterReboot);
      if abort {
        return Failure(Raised(PreflightError(Unspecified)));
      }
      if c.rebootBeforeUpdates {
        var here :- w.BootId();
        SecondPassMoves(w.sys, c);
        r := Advance(c, SecondPass(c, here), PRECHECK);
        if r.Success? {
          Carried(SecondPass(c, here), r.value, PRECHECK);
        }
      } else {
        ProvedMoves(w.sys, c);
        r := Advance(c, c, VERIFYING);
        if r.Success? {
          Carried(c, r.value, VERIFYING);
        }
      }
    }

    method DoVerifying(c: CycleState) returns (r: Result<CycleState, Trouble>)
      requires Wired() && w.Ready() && Holds(w.sys, c) && c.state.VERIFYING?
      modifies w
      ensures w.Valid() && (Dead(r) <==> !w.Alive())
      ensures r.Success? ==> Holds(w.sys, r.value) && Advances(c, r.value)
      ensures r.Failure? && r.error.Raised? ==> Recoverable(w.sys, c.runId)
      ensures Granted(r) && Grew(old(w.log), w.log) && Accounted(w.log, old(|w.log|), r)
      ensures r.Success? ==>
        && r.value.state.HEALTH_CHECKING?
        && r.value.verifyPassed == Some(true) && r.value.outstandingUpdates == Some(0)
      ensures r.Failure? && r.error.Raised? && r.error.exn.VerificationError? ==>
        w.sys.cell.Rec? && w.sys.cell.cycle.verifyPassed == Some(false)
    {
      hide World.Valid, Inv, Legal, Next, Ok, OkIn, At, Holds, Recoverable, WellFormed, Allowed, Lands, Created,
           IsLegal, Advances, Climbs, Proceeds, Follows, Grew, Since;
      LogsGrow();
      HeldFacts(w.sys, c);
      assert WellFormed(c) by {
        w.Knows(c);
      }
      var verdict :- w.Verify();
      var next := Verified(c, verdict);
      VerdictSaves(w.sys, c, verdict);
      hide Verified;
      var _ :- w.Save(c, next);
      if !verdict.consistent {
        return Failure(Raised(VerificationError));
      }
      if verdict.outstanding != 0 {
        return Failure(Raised(VerificationError));
      }
      VerifiedMoves(w.sys, next);
      r := Advance(next, next, HEALTH_CHECKING);
      if r.Success? {
        Carried(next, r.value, HEALTH_CHECKING);
        AdvancesFrom(c, next, r.value);
      }
    }

    method DoHealthChecking(c: CycleState) returns (r: Result<CycleState, Trouble>)
      requires Wired() && w.Ready() && Holds(w.sys, c) && c.state.HEALTH_CHECKING?
      modifies w
      ensures w.Valid() && (Dead(r) <==> !w.Alive())
      ensures r.Success? ==> Holds(w.sys, r.value) && Advances(c, r.value)
      ensures r.Failure? && r.error.Raised? ==> Recoverable(w.sys, c.runId)
      ensures Granted(r) && Grew(old(w.log), w.log) && Accounted(w.log, old(|w.log|), r)
      ensures r.Success? ==>
        && r.value.state.NOTIFYING?
        && w.P().health == Some(r.value.healthResults)
        && (CriticalFailure(r.value.healthResults) ==>
              && HealthFailed(r.value.error) && r.value.error.value.stage == "HEALTH_CHECKING"
              && r.value.error.value.manualIntervention == Some(true))
        && (!CriticalFailure(r.value.healthResults) ==> r.value.error == c.error)
    {
      hide World.Valid, Inv, Legal, Next, Ok, OkIn, At, Holds, Recoverable, WellFormed, Allowed, Lands, Created,
           IsLegal, Advances, Climbs, Proceeds, Follows, Grew, Since;
      LogsGrow();
      hide DurationOk, CriticalFailure;
      HeldFacts(w.sys, c);
      assert WellFormed(c) by {
        w.Knows(c);
      }
      var results :- w.RunHealthChecks();
      var message := w.Text();
      var error := if CriticalFailure(results)
                   then Some(ErrorInfo(HEALTH_FAILURE, message, "HEALTH_CHECKING", Some(true)))
                   else c.error;
      HealthMoves(w.sys, c, results, error);
      hide HealthFailed;
      r := Advance(c, Examined(c, results, error), NOTIFYING);
      if r.Success? {
        Carried(Examined(c, results, error), r.value, NOTIFYING);
      }
    }

    // -------------------------------------------------------- notification

    /** Three tries, 5 and 30 seconds apart; an exception counts as a failed try. Stops at the first success. */
    method DeliverWithRetries(run: string, n: Name, o: Outcome)
      returns (r: Result<string, Trouble>, ghost answers: seq<Option<string>>)
      requires w.Ready() && w.P().loaded && w.sys.past == {} && DeliveryOk(w.sys.cell, w.P().finishing, run, n, o)
      modifies w
      ensures w.Valid() && (Dead(r) <==> !w.Alive()) && Grew(old(w.log), w.log)
      ensures r.Success? ==> w.log == old(w.log) + Tries(run, n, o, answers) && Settles(answers, r.value)
      ensures r == Success(SENT) ==> (run, n) in w.P().sent
      ensures w.Alive() ==>
        Abides(old(w.sys), w.sys) && w.P().slept <= old(w.P().slept) + 35
      ensures r.Success? && r.value != SENT ==> w.P().slept == old(w.P().slept) + 35
      ensures r.Failure? ==> r.error.Died?
    {
      hide World.Valid, Inv, Legal, Next, Ok, OkIn, At, Recoverable, DeliveryOk, Shows, Tries, Try, CameTo, Abides,
           Grew, Since;
      LogsGrow();
      ghost var start, log0 := w.sys, w.log;
      AbidesStart(start);
      answers := [];
      NothingTried(log0, run, n, o);
      var result := "";
      var attempt := 1;
      while attempt <= 3
        invariant 1 <= attempt <= 4 && w.Ready() && Abides(start, w.sys)
        invariant Grew(log0, w.log)
        invariant |answers| == attempt - 1 && (forall i | 0 <= i < |answers| :: answers[i] != Some(SENT))
        invariant w.log == log0 + Tries(run, n, o, answers)
        invariant attempt > 1 ==> result != SENT && CameTo(answers[|answers| - 1], result)
        invariant w.P().slept ==
          old(w.P().slept) + if attempt == 1 then 0 else if attempt == 2 then 5 else 35
        decreases 4 - attempt
      {
        ghost var before := w.sys;
        AbidesFacts(start, before);
        var told, answer := DeliverAndPause(run, n, o, attempt);
        if w.Alive() {
          AbidesJoin(start, before, w.sys);
        }
        result :- told;
        TriedAgain(run, n, o, answers, answer);
        answers := answers + [answer];
        if result == SENT {
          return Success(result), answers;
        }
        attempt := attempt + 1;
      }
      return Success(result), answers;
    }

    /** One try, and the pause after a failure that is not the last. */
    method DeliverAndPause(run: string, n: Name, o: Outcome, attempt: nat)
      returns (r: Result<string, Trouble>, ghost answer: Option<string>)
      requires w.Ready() && w.P().loaded && w.sys.past == {} && DeliveryOk(w.sys.cell, w.P().finishing, run, n, o)
      requires attempt > 0
      modifies w
      ensures w.Valid() && (Dead(r) <==> !w.Alive()) && Grew(old(w.log), w.log)
      ensures r.Success? ==> w.log == old(w.log) + Try(run, n, o, answer, attempt - 1)
      ensures r.Success? ==> (r.value == SENT <==> answer == Some(SENT))
      ensures r.Success? && r.value != SENT ==> CameTo(answer, r.value)
      ensures r == Success(SENT) ==> (run, n) in w.P().sent
      ensures w.Alive() ==> Abides(old(w.sys), w.sys)
      ensures r.Success? ==>
        w.P().slept - old(w.P().slept) == if r.value == SENT || attempt >= 3 then 0 else if attempt == 1 then 5 else 30
      ensures r.Failure? ==> r.error.Died?
    {
      hide World.Valid, Inv, Legal, Next, Ok, OkIn, At, Recoverable, DeliveryOk, Shows, CameTo, Abides, Grew, Since;
      LogsGrow();
      ghost var start := w.sys;
      r, answer := DeliverOnce(run, n, o);
      if r.Failure? || r.value == SENT || attempt >= 3 {
        return;
      }
      ghost var before := w.sys;
      var slept := w.Sleep(if attempt == 1 then 5 else 30);
      if slept.Failure? {
        r := Failure(Died);
        return;
      }
      AbidesStill(start, before, w.sys);
    }

    /** One try. An exception makes a failure of it. */
    method DeliverOnce(run: string, n: Name, o: Outcome)
      returns (r: Result<string, Trouble>, ghost answer: Option<string>)
      requires w.Ready() && w.P().loaded && w.sys.past == {} && DeliveryOk(w.sys.cell, w.P().finishing, run, n, o)
      modifies w
      ensures w.Valid() && (Dead(r) <==> !w.Alive()) && Grew(old(w.log), w.log)
      ensures r.Success? ==>
        w.log == old(w.log) + [Delivered(run, n, o, answer)] + if answer.None? then [Threw] else []
      ensures r.Success? ==> (r.value == SENT <==> answer == Some(SENT))
      ensures r.Success? && r.value != SENT ==> CameTo(answer, r.value)
      ensures r == Success(SENT) ==> (run, n) in w.P().sent
      ensures w.Alive() ==>
        Abides(old(w.sys), w.sys) && w.P().slept == old(w.P().slept)
      ensures r.Failure? ==> r.error.Died?
    {
      hide World.Valid, Inv, Legal, Next, Ok, OkIn, At, Recoverable, DeliveryOk, Shows, Grew, Since;
      LogsGrow();
      answer := None;
      var sent := w.Deliver(run, n, o);
      if sent.Success? {
        answer := Some(sent.value);
        return Success(sent.value), answer;
      } else if sent.error.Died? {
        return Failure(Died), answer;
      } else {
        var text := w.Text();
        return Success(FAILED_ANSWER + text), answer;
      }
    }

    /** Deliver to one notifier not yet marked sent, and make its status durable. */
    method NotifyOne(c: CycleState, n: Name, o: Outcome) returns (r: Result<CycleState, Trouble>)
      requires w.Ready() && Notifying(w.sys, c, o)
      modifies w
      ensures w.Valid() && (Dead(r) <==> !w.Alive())
      ensures r.Success? ==>
        && Notifying(w.sys, r.value, o) && Same(r.value.runId, c.runId) && Same(r.value.state, c.state)
        && r.value.initialRebootCompleted == c.initialRebootCompleted
        && n in r.value.notificationStatus
        && Same(r.value.notificationStatus, c.notificationStatus[n := r.value.notificationStatus[n]])
        && if SentIn(c, n) then Same(r.value, c)
           else Answered(old(w.log), w.log, c.runId, n, o, r.value.notificationStatus[n])
      ensures r.Failure? && r.error.Raised? ==> Recoverable(w.sys, c.runId)
      ensures Granted(r) && Grew(old(w.log), w.log) && Accounted(w.log, old(|w.log|), r)
    {
      hide World.Valid, Inv, Legal, Next, Ok, OkIn, At, Holds, Recoverable, WellFormed, Created, DeliveryOk,
           FinalOutcome, Notifying, Stored, Abides, Settles, Tries, Answered, Grew, Since;
      LogsGrow();
      if SentIn(c, n) {
        SetAsIs(c.notificationStatus, n);
        return Success(c);
      }
      MayDeliver(w.sys, c, n, o);
      assert w.P().loaded && Recoverable(w.sys, c.runId) by {
        NotifyingFacts(w.sys, c, o);
      }
      ghost var before := w.sys;
      ghost var log0 := w.log;
      var told, answers := DeliverWithRetries(c.runId, n, o);
      var status :- told;
      StillNotifying(before, w.sys, c, o);
      r := RecordStatus(c, n, o, status);
      AnsweredNow(log0, w.log, c.runId, n, o, answers, status);
    }

    method RecordStatus(c: CycleState, n: Name, o: Outcome, status: string) returns (r: Result<CycleState, Trouble>)
      requires w.Ready() && Notifying(w.sys, c, o)
      requires !SentIn(c, n) && (status == SENT ==> (c.runId, n) in w.P().sent)
      modifies w
      ensures w.Valid() && (Dead(r) <==> !w.Alive())
      ensures r.Success? ==>
        && Notifying(w.sys, r.value, o) && Same(r.value.runId, c.runId) && Same(r.value.state, c.state)
        && r.value.initialRebootCompleted == c.initialRebootCompleted
        && Same(r.value.notificationStatus, c.notificationStatus[n := status])
      ensures r.Failure? && r.error.Raised? ==> Recoverable(w.sys, c.runId)
      ensures Granted(r) && Grew(old(w.log), w.log) && Accounted(w.log, old(|w.log|), r)
    {
      hide World.Valid, Inv, Legal, Next, Ok, OkIn, At, Holds, Recoverable, WellFormed, Created, FinalOutcome,
           Notifying, Grew, Since;
      LogsGrow();
      NotifyingFacts(w.sys, c, o);
      var next := c.(notificationStatus := c.notificationStatus[n := status]);
      StatusSaves(w.sys, c, n, status);
      ghost var before := w.sys;
      var _ :- w.Save(c, next);
      NotifiedOne(before, w.sys, c, next, o);
      return Success(next);
    }

    method DoNotifying(c: CycleState) returns (r: Result<CycleState, Trouble>)
      requires Wired() && w.Ready() && Holds(w.sys, c) && c.state.NOTIFYING?
      modifies w
      ensures w.Valid() && (Dead(r) <==> !w.Alive())
      ensures r.Success? ==> Holds(w.sys, r.value) && Advances(c, r.value)
      ensures r.Failure? && r.error.Raised? ==> Recoverable(w.sys, c.runId)
      ensures Granted(r) && Grew(old(w.log), w.log) && Accounted(w.log, old(|w.log|), r)
      ensures r.Success? ==> r.value.state.COMPLETED? && r.value.outcome == Some(FinalOutcome(c))
      ensures r.Success? ==> forall k | 0 <= k < |notifiers| ::
        && notifiers[k] in r.value.notificationStatus
        && (|| SentIn(c, notifiers[k])
            || Reported(w.log, old(|w.log|), c.runId, notifiers[k], FinalOutcome(c),
                        r.value.notificationStatus[notifiers[k]]))
      ensures r.Success? ==> forall m | m !in notifiers ::
        SameEntry(r.value.notificationStatus, c.notificationStatus, m)
    {
      hide World.Valid, Inv, Legal, Next, Ok, OkIn, At, Holds, Recoverable, WellFormed, Created, FinalOutcome,
           Notifying, IsLegal, Advances, Climbs, Proceeds, Follows, Stored, Grew, Since;
      LogsGrow();
      ghost var log0 := w.log;
      var cycle :- SettleOutcome(c);
      var o := FinalOutcome(c);
      var i := 0;
      while i < |notifiers|
        invariant 0 <= i <= |notifiers| && w.Ready() && Notifying(w.sys, cycle, o)
        invariant Same(cycle.runId, c.runId) && Same(cycle.state, c.state)
        invariant cycle.initialRebootCompleted == c.initialRebootCompleted
        invariant Grew(log0, w.log)
        invariant forall k | 0 <= k < i :: StatusKnown(w.log, |log0|, c, notifiers[k], o, cycle.notificationStatus)
        invariant forall m | m !in notifiers[..i] :: SameEntry(cycle.notificationStatus, c.notificationStatus, m)
        decreases |notifiers| - i
      {
        ghost var log1, before := w.log, cycle.notificationStatus;
        cycle :- NotifyOne(cycle, notifiers[i], o);
        StatusesKnown(log0, log1, w.log, c, notifiers, i, o, before, cycle.notificationStatus);
        i := i + 1;
      }
      ghost var log2 := w.log;
      r := CompleteNotifying(c, cycle, o);
      if r.Success? {
        StatusesStay(log2, w.log, |log0|, c, notifiers, o, cycle.notificationStatus);
      }
    }

    /** Store the outcome and the report before anything is delivered. */
    method SettleOutcome(c: CycleState) returns (r: Result<CycleState, Trouble>)
      requires w.Ready() && Holds(w.sys, c) && c.state.NOTIFYING?
      modifies w
      ensures w.Valid() && (Dead(r) <==> !w.Alive())
      ensures r.Success? ==>
        && Notifying(w.sys, r.value, FinalOutcome(c)) && Same(r.value.runId, c.runId) && Same(r.value.state, c.state)
        && r.value.initialRebootCompleted == c.initialRebootCompleted
        && Same(r.value.notificationStatus, c.notificationStatus)
      ensures r.Failure? && r.error.Raised? ==> Recoverable(w.sys, c.runId)
      ensures Granted(r) && Grew(old(w.log), w.log) && Accounted(w.log, old(|w.log|), r)
    {
      hide World.Valid, Inv, Legal, Next, Ok, OkIn, At, Holds, Recoverable, WellFormed, Created, FinalOutcome, Grew,
           Since;
      LogsGrow();
      HeldFacts(w.sys, c);
      assert WellFormed(c) by {
        w.Knows(c);
      }
      var next := c.(outcome := Some(FinalOutcome(c)));
      OutcomeSaves(w.sys, c);
      var _ :- w.Save(c, next);
      var _ :- w.Quietly();
      return Success(next);
    }

    /** Store the final report, then move to COMPLETED. */
    method CompleteNotifying(c: CycleState, cycle: CycleState, o: Outcome) returns (r: Result<CycleState, Trouble>)
      requires w.Ready() && Notifying(w.sys, cycle, o) && Same(cycle.runId, c.runId) && Same(cycle.state, c.state)
      requires cycle.initialRebootCompleted == c.initialRebootCompleted
      modifies w
      ensures w.Valid() && (Dead(r) <==> !w.Alive())
      ensures r.Success? ==> Holds(w.sys, r.value) && Advances(c, r.value)
      ensures r.Success? ==>
        && r.value.state.COMPLETED? && r.value.outcome == Some(o)
        && Same(r.value.notificationStatus, cycle.notificationStatus)
      ensures r.Failure? && r.error.Raised? ==> Recoverable(w.sys, c.runId)
      ensures Granted(r) && Grew(old(w.log), w.log) && Accounted(w.log, old(|w.log|), r)
    {
      hide World.Valid, Inv, Legal, Next, Ok, OkIn, At, Holds, Recoverable, WellFormed, Created, FinalOutcome,
           Notifying, IsLegal, Advances, Climbs, Proceeds, Follows, Grew, Since;
      LogsGrow();
      NotifyingFacts(w.sys, cycle, o);
      var _ :- w.Quietly();
      NotifiedMoves(w.sys, cycle);
      r := Advance(cycle, cycle, COMPLETED);
      if r.Success? {
        Carried(cycle, r.value, COMPLETED);
        AdvancesFrom(c, cycle, r.value);
      }
    }

    // ------------------------------------------------------------- failure

    /**
     Reload what is durable, mark it FAILED (forced where the table has no such arc), record the error and the
     outcome, run the failure hooks, notify, archive. The exit code is the exception's.
     */
    method Fail(c: CycleState, exn: Exn) returns (r: Result<int, Trouble>)
      requires w.Ready() && Recoverable(w.sys, c.runId)
      modifies w
      ensures w.Valid() && (Dead(r) <==> !w.Alive())
      ensures r.Success? ==> r.value == CodeOf(exn) && Closed(w.sys, c.runId, r.value)
      ensures r.Success? ==>
        && w.sys.history[c.runId].state.FAILED?
        && var error := w.sys.history[c.runId].error;
           && error.Some? && error.value.kind == KindOf(exn) && error.value.stage == StateName(c.state)
           && error.value.manualIntervention == Some(true)
      ensures r.Success? ==> old(w.sys.cell.Rec?) && Buried(old(w.sys.cell.cycle), w.sys.history[c.runId])
      ensures r.Success? ==> Since(w.log, old(|w.log|), Hooked(OnFailure))
      ensures r.Success? ==> forall k | 0 <= k < |notifiers| ::
        && notifiers[k] in w.sys.history[c.runId].notificationStatus
        && Reported(w.log, old(|w.log|), c.runId, notifiers[k], FailureOutcome(CodeOf(exn)),
                    w.sys.history[c.runId].notificationStatus[notifiers[k]])
      ensures Granted(r) && Grew(old(w.log), w.log) && Accounted(w.log, old(|w.log|), r)
    {
      hide World.Valid, Inv, Legal, Next, Ok, OkIn, At, Holds, Recoverable, WellFormed, Created, FinalOutcome,
           Concludes, CodeOf, KindOf, FailedFrom, Reported, Stored, Grew, Since;
      LogsGrow();
      ghost var log0 := w.log;
      var failed :- MarkFailed(c);
      var message := w.Text();
      var error := ErrorInfo(KindOf(exn), message, StateName(c.state), Some(true));
      var o := FailureOutcome(CodeOf(exn));
      hide FailureOutcome;
      var next :- RecordError(failed, error, o);
      ghost var log3 := w.log;
      var told :- NotifyBestEffort(next, o);
      ghost var log4 := w.log;
      StoredIsFinished(w.sys, told);
      var _ :- w.Archive(told);
      ReportsEarlier(log4, w.log, |log3|, |log0|, c.runId, notifiers, o, told.notificationStatus);
      BuriedNow(failed, error, o, told);
      FailureConcludes(told, exn);
      return Success(CodeOf(exn));
    }

    /** Store the error and the outcome, then run the failure hooks, whose own failure counts for nothing. */
    method RecordError(failed: CycleState, error: ErrorInfo, o: Outcome) returns (r: Result<CycleState, Trouble>)
      requires w.Ready() && Stored(w.sys, failed) && failed.state.FAILED? && WellFormed(failed)
      modifies w
      ensures w.Valid() && (Dead(r) <==> !w.Alive())
      ensures r.Success? ==>
        && Stored(w.sys, r.value) && WellFormed(r.value) && w.sys.past == {}
        && Same(r.value, failed.(error := Some(error), outcome := Some(o)))
      ensures r.Success? ==> Since(w.log, old(|w.log|), Hooked(OnFailure))
      ensures Granted(r) && Grew(old(w.log), w.log) && Accounted(w.log, old(|w.log|), r)
    {
      hide World.Valid, Inv, Legal, Next, Ok, OkIn, At, Holds, Recoverable, WellFormed, Created, Stored, Kept, Grew,
           Since;
      LogsGrow();
      var next := failed.(error := Some(error), outcome := Some(o));
      VerdictOnFailureSaves(w.sys, failed, error, o);
      var _ :- w.Save(failed, next);
      ghost var before := w.sys;
      var hooked := w.RunHooks(OnFailure);
      if hooked.Failure? && hooked.error.Died? {
        return Failure(Died);
      }
      StillStored(before, w.sys, next);
      return Success(next);
    }

    method MarkFailed(c: CycleState) returns (r: Result<CycleState, Trouble>)
      requires w.Ready() && Recoverable(w.sys, c.runId)
      modifies w
      ensures w.Valid() && (Dead(r) <==> !w.Alive())
      ensures r.Success? ==>
        Stored(w.sys, r.value) && r.value.state.FAILED? && Same(r.value.runId, c.runId) && WellFormed(r.value)
      ensures r.Success? ==> old(w.sys.cell.Rec?) && FailedFrom(old(w.sys.cell.cycle), r.value)
      ensures r.Success? ==> w.sys.past == {}
      ensures Granted(r) && Grew(old(w.log), w.log) && Accounted(w.log, old(|w.log|), r)
    {
      hide World.Valid, Inv, Legal, Next, Ok, OkIn, At, Holds, Recoverable, WellFormed, Created, IsLegal, Allowed,
           Lands, Follows, Logged, Grew, Since;
      LogsGrow();
      RecoverableFacts(w.sys, c.runId);
      var saved :- w.Load();
      RecoverableFacts(w.sys, c.runId);
      var cycle := if saved.Some? && saved.value.runId == c.runId then saved.value else c;
      assert WellFormed(cycle) by {
        w.Knows(cycle);
      }
      if IsLegal(cycle.state, FAILED) {
        FailureMoves(w.sys, cycle);
        var failed :- Transition(cycle, cycle, FAILED);
        FailedFacts(cycle, failed);
        assert WellFormed(failed) by {
          w.Knows(failed);
        }
        return Success(failed);
      } else {
        var next := cycle.(state := FAILED);
        ForcedFailureSaves(w.sys, cycle);
        var _ :- w.Save(cycle, next);
        return Success(next);
      }
    }

    /** Every notifier is contacted, also those already told. */
    method NotifyBestEffort(c: CycleState, o: Outcome) returns (r: Result<CycleState, Trouble>)
      requires w.Ready() && Stored(w.sys, c) && c.state.FAILED? && c.outcome == Some(o) && WellFormed(c)
      requires w.sys.past == {}
      modifies w
      ensures w.Valid() && (Dead(r) <==> !w.Alive())
      ensures r.Success? ==>
        && Stored(w.sys, r.value) && Same(w.P().hooks, old(w.P().hooks))
        && Same(r.value, c.(notificationStatus := r.value.notificationStatus))
      ensures r.Success? ==> forall k | 0 <= k < |notifiers| ::
        && notifiers[k] in r.value.notificationStatus
        && Reported(w.log, old(|w.log|), c.runId, notifiers[k], o, r.value.notificationStatus[notifiers[k]])
      ensures Granted(r) && Grew(old(w.log), w.log) && Accounted(w.log, old(|w.log|), r)
    {
      hide World.Valid, Inv, Legal, Next, Ok, OkIn, At, Holds, Recoverable, WellFormed, Created, DeliveryOk, Stored,
           Reported, MarksHonestly, Grew, Since;
      LogsGrow();
      ghost var log0 := w.log;
      var _ :- w.Quietly();
      var status := c.notificationStatus;
      MarksNothing(w.P(), c);
      var i := 0;
      while i < |notifiers|
        invariant 0 <= i <= |notifiers| && w.Ready() && Stored(w.sys, c) && Same(w.P().hooks, old(w.P().hooks))
        invariant w.sys.past == {} && Grew(log0, w.log) && MarksHonestly(w.P(), c, c.(notificationStatus := status))
        invariant forall k | 0 <= k < i ::
          notifiers[k] in status && Reported(w.log, |log0|, c.runId, notifiers[k], o, status[notifiers[k]])
        decreases |notifiers| - i
      {
        MayDeliverFailure(w.sys, c, notifiers[i], o);
        ghost var before, log1, status1 := w.sys, w.log, status;
        var told, answers := DeliverWithRetries(c.runId, notifiers[i], o);
        var answer :- told;
        StillStored(before, w.sys, c);
        status := status[notifiers[i] := answer];
        MarksOne(before.proc.value, w.P(), c, status1, notifiers[i], answer);
        ToldNow(log0, log1, w.log, c.runId, notifiers, i, o, answers, status1, answer);
        i := i + 1;
      }
      ghost var log2 := w.log;
      r := RecordFailureStatus(c, status);
      if r.Success? {
        ReportsEarlier(log2, w.log, |log0|, |log0|, c.runId, notifiers, o, status);
      }
    }

    method RecordFailureStatus(c: CycleState, status: map<Name, string>) returns (r: Result<CycleState, Trouble>)
      requires w.Ready() && Stored(w.sys, c) && c.state.FAILED? && WellFormed(c)
      requires MarksHonestly(w.P(), c, c.(notificationStatus := status))
      modifies w
      ensures w.Valid() && (Dead(r) <==> !w.Alive())
      ensures r.Success? ==>
        && Stored(w.sys, r.value) && Same(w.P().hooks, old(w.P().hooks))
        && Same(r.value, c.(notificationStatus := status))
      ensures Granted(r) && Grew(old(w.log), w.log) && Accounted(w.log, old(|w.log|), r)
    {
      hide World.Valid, Inv, Legal, Next, Ok, OkIn, At, Holds, Recoverable, WellFormed, Created, Grew, Since;
      LogsGrow();
      var next := c.(notificationStatus := status);
      FailureStatusSaves(w.sys, c, status);
      var _ :- w.Save(c, next);
      var _ :- w.Quietly();
      return Success(next);
    }

    // ------------------------------------------------------------ the loop

    method Step(c: CycleState) returns (r: Result<CycleState, Trouble>)
      requires Wired() && w.Ready() && Holds(w.sys, c) && !Terminal(c.state)
      modifies w
      ensures w.Valid() && (Dead(r) <==> !w.Alive())
      ensures r.Success? ==> Holds(w.sys, r.value) && Advances(c, r.value)
      ensures r.Success? && c.state.REBOOTING? ==> Since(w.log, old(|w.log|), Commanded(c.runId))
      ensures r.Failure? && r.error.Raised? ==> Recoverable(w.sys, c.runId)
      ensures Granted(r) && Grew(old(w.log), w.log) && Accounted(w.log, old(|w.log|), r)
    {
      hide World.Valid, Inv, Legal, Next, Ok, OkIn, At, Recoverable, SteadyAt, Advances, FinalOutcome,
           CriticalFailure, Grew, Since;
      LogsGrow();
      match c.state {
        case PRECHECK => r := DoPrecheck(c);
        case REFRESHING => r := DoRefreshing(c);
        case DISCOVERING_UPDATES => r := DoDiscovering(c);
        case UPGRADING => r := DoUpgrading(c);
        case CHECKING_REBOOT => r := DoCheckingReboot(c);
        case REBOOT_PENDING => r := DoRebootPending(c);
        case REBOOTING => r := DoRebooting(c);
        case POST_REBOOT => r := DoPostReboot(c);
        case VERIFYING => r := DoVerifying(c);
        case HEALTH_CHECKING => r := DoHealthChecking(c);
        case NOTIFYING => r := DoNotifying(c);
      }
    }

    /**
     Work the cycle from `startAt` to its end. Terminates although the table has a way back to PRECHECK: that
     way is taken once per cycle. Whatever a handler raises is turned into a FAILED cycle.
     */
    method Drive(c: CycleState, startAt: Option<State>, ghost from: nat) returns (r: Result<int, Trouble>)
      requires Wired() && w.Ready() && MayStart(w.sys, c, startAt) && from <= |w.log|
      modifies w
      ensures w.Valid() && (Dead(r) <==> !w.Alive())
      ensures r.Success? ==> Left(w.sys, w.log, from, c.runId, r.value) && Undiagnosed(w.sys, c.runId, r.value)
      ensures r.Success? && EntryState(c, startAt) != c.state ==> Since(w.log, from, Reached(c, EntryState(c, startAt)))
      ensures Granted(r) && Grew(old(w.log), w.log) && Accounted(w.log, old(|w.log|), r)
    {
      hide World.Valid, Inv, Legal, Next, Ok, OkIn, At, Holds, Recoverable, WellFormed, Created, Advances,
           Waiting, Closed, MayStart, Stored, Left, Undiagnosed, Grew, Since;
      LogsGrow();
      ghost var log0 := w.log;
      var cycle :- Enter(c, startAt);
      while !Terminal(cycle.state)
        invariant w.Ready() && Holds(w.sys, cycle) && Same(cycle.runId, c.runId) && !cycle.state.FAILED?
        invariant Grew(log0, w.log)
        invariant EntryState(c, startAt) != c.state ==> Since(w.log, from, Reached(c, EntryState(c, startAt)))
        decreases if cycle.initialRebootCompleted then 0 else 1, 13 - Rank(cycle.state)
      {
        ghost var log1 := w.log;
        var stepped := Step(cycle);
        if stepped.Failure? {
          if stepped.error.Died? {
            return Failure(Died);
          }
          r := FailFor(cycle, stepped.error.exn, from);
          return;
        }
        var next := stepped.value;
        AdvanceFacts(cycle, next);
        if cycle.state.REBOOTING? && next.state.REBOOTING? {
          StillWaiting(w.sys, next);
          LeftWaiting(w.sys, w.log, from, c.runId);
          OthersUndiagnosed(w.sys, c.runId, 0);
          return Success(0);
        }
        cycle := next;
      }
      r := Conclude(cycle);
      if r.Success? {
        LeftDone(w.sys, w.log, from, c.runId, r.value);
        OthersUndiagnosed(w.sys, c.runId, r.value);
      }
    }

    /** Fail a cycle for something that is accounted for. */
    method FailFor(c: CycleState, exn: Exn, ghost from: nat) returns (r: Result<int, Trouble>)
      requires w.Ready() && Recoverable(w.sys, c.runId) && from <= |w.log| && Since(w.log, from, Because(exn))
      modifies w
      ensures w.Valid() && (Dead(r) <==> !w.Alive())
      ensures r.Success? ==>
        && Left(w.sys, w.log, from, c.runId, r.value) && r.value == CodeOf(exn)
        && (r.value == 1 ==> FailedAs(w.sys, c.runId, KindOf(exn), 1))
        && (!exn.Diagnosis? ==> Undiagnosed(w.sys, c.runId, r.value))
      ensures Granted(r) && Grew(old(w.log), w.log) && Accounted(w.log, old(|w.log|), r)
    {
      hide World.Valid, Inv, Legal, Next, Ok, OkIn, At, Recoverable, CodeOf, KindOf, Reported, Buried, Waiting, Grew,
           Since;
      LogsGrow();
      r := Fail(c, exn);
      if r.Success? {
        BlameSince(w.log, from, exn);
        hide Closed;
        if r.value == 1 {
          FailedUnder(w.sys, c.runId, KindOf(exn), 1);
          if !exn.Diagnosis? {
            OrdinaryKinds(exn);
          }
        } else {
          OthersUndiagnosed(w.sys, c.runId, r.value);
        }
      }
    }

    /** The first move, if the cycle is not where it is to be worked. */
    method Enter(c: CycleState, startAt: Option<State>) returns (r: Result<CycleState, Trouble>)
      requires w.Ready() && MayStart(w.sys, c, startAt)
      modifies w
      ensures w.Valid() && (Dead(r) <==> !w.Alive())
      ensures r.Success? ==> Holds(w.sys, r.value) && Same(r.value.runId, c.runId) && !r.value.state.FAILED?
      ensures r.Success? && EntryState(c, startAt) != c.state ==>
        Since(w.log, old(|w.log|), Reached(c, EntryState(c, startAt)))
      ensures Granted(r) && Grew(old(w.log), w.log) && Accounted(w.log, old(|w.log|), r)
    {
      hide World.Valid, Inv, Legal, Next, Ok, OkIn, At, Holds, Recoverable, WellFormed, Created, Allowed, Lands,
           IsLegal, Follows, MayStart, SteadyAt, Grew, Since;
      LogsGrow();
      var state := startAt.GetOr(if c.state.IDLE? then PRECHECK else c.state);
      if c.state.IDLE? || state != c.state {
        if c.state.IDLE? {
          StartIsElsewhere(w.sys, c, startAt);
        } else {
          assert WellFormed(c) by {
            StartIsOwned(w.sys, c, startAt);
            w.Knows(c);
          }
        }
        StartMoves(w.sys, c, startAt);
        r := Transition(c, c, state);
        if r.Success? {
          EntryFacts(c, r.value, state);
        }
      } else {
        StartHolds(w.sys, c, startAt);
        return Success(c);
      }
    }

    /** Entered COMPLETED: settle the outcome once more, archive. */
    method Conclude(c: CycleState) returns (r: Result<int, Trouble>)
      requires w.Ready() && Holds(w.sys, c) && c.state.COMPLETED?
      modifies w
      ensures w.Valid() && (Dead(r) <==> !w.Alive())
      ensures r.Success? ==> Done(w.sys, c.runId, r.value)
      ensures r.Success? ==>
        var d := w.sys.history[c.runId];
        && Same(d, c.(outcome := Some(FinalOutcome(c)), updatedAt := d.updatedAt))
        && Since(w.log, old(|w.log|), Recorded(d))
      ensures Granted(r) && Grew(old(w.log), w.log) && Accounted(w.log, old(|w.log|), r)
    {
      hide World.Valid, Inv, Legal, Next, Ok, OkIn, At, Holds, Recoverable, WellFormed, Created, FinalOutcome, Grew,
           Since;
      LogsGrow();
      HeldFacts(w.sys, c);
      assert WellFormed(c) by {
        w.Knows(c);
      }
      var now := w.NowIso();
      var done := c.(outcome := Some(FinalOutcome(c)), updatedAt := now);
      ConclusionSaves(w.sys, c, now);
      SinceNow(w.log, Saved(done, true), Recorded(done));
      var _ :- w.Save(c, done);
      var _ :- w.Archive(done);
      CompletionConcludes(done, c);
      hide Concludes;
      return Success(ExitCode(done.outcome));
    }

    // ------------------------------------------------------------ recovery

    /** Read-only diagnostics, then FAILED. */
    method DiagnoseAndFail(c: CycleState, kind: string, ghost from: nat) returns (r: Result<int, Trouble>)
      requires w.Ready() && Stored(w.sys, c) && !c.state.FAILED?
      requires from <= |w.log| && Since(w.log, from, Because(Diagnosis(kind)))
      modifies w
      ensures w.Valid() && (Dead(r) <==> !w.Alive())
      ensures r.Success? ==> Left(w.sys, w.log, from, c.runId, r.value) && FailedAs(w.sys, c.runId, kind, r.value)
      ensures Granted(r) && Grew(old(w.log), w.log) && Accounted(w.log, old(|w.log|), r)
    {
      hide World.Valid, Inv, Legal, Next, Ok, OkIn, At, Holds, Recoverable, WellFormed, Created, Closed, Stored, Left,
           Grew, Since;
      LogsGrow();
      ghost var before := w.sys;
      var pre := w.Preflight();
      if pre.Failure? && pre.error.Died? {
        return Failure(Died);
      }
      StillStored(before, w.sys, c);
      before := w.sys;
      var verdict := w.Verify();
      if verdict.Failure? && verdict.error.Died? {
        return Failure(Died);
      }
      StillStored(before, w.sys, c);
      DiagnosedIsRecoverable(w.sys, c);
      r := FailFor(c, Diagnosis(kind), from);
    }

    /** REBOOTING on the boot the command was given on: retry within the budget and ten minutes, else fail. */
    method RebootNeverHappened(c: CycleState, ghost from: nat) returns (r: Result<int, Trouble>)
      requires Wired() && w.Ready() && Holds(w.sys, c) && c.state.REBOOTING? && !w.P().applying && from <= |w.log|
      modifies w
      ensures w.Valid() && (Dead(r) <==> !w.Alive())
      ensures r.Success? ==> Left(w.sys, w.log, from, c.runId, r.value) && Undiagnosed(w.sys, c.runId, r.value)
      ensures r.Success? ==> Retried(w.sys, w.log, from, c, w.maxAttempts, r.value)
      ensures Granted(r) && Grew(old(w.log), w.log) && Accounted(w.log, old(|w.log|), r)
    {
      hide World.Valid, Inv, Legal, Next, Ok, OkIn, At, Holds, Recoverable, WellFormed, Created, Stored, MayStart,
           SteadyAt, Left, Undiagnosed, FailedAs, SameRole, SameDuties, Safer,
           SameEnv, SameBoot, Grew, Since;
      assert CodeOf(RebootError) == 1 && KindOf(RebootError) == "reboot-failed";
      hide CodeOf, KindOf;
      LogsGrow();
      HeldFacts(w.sys, c);
      ghost var before := w.sys;
      var elapsed := w.Elapsed();
      assert Since(w.log, from, LookedBack(elapsed));
      StillHeld(before, w.sys, c);
      if c.rebootAttempts < w.maxAttempts && elapsed < 600 {
        before := w.sys;
        var _ :- w.Sleep(if elapsed < 30 then 30 - elapsed else 0);
        StillHeld(before, w.sys, c);
        HeldMayStart(w.sys, c, Some(REBOOTING));
        r := Drive(c, Some(REBOOTING), from);
        assert Since(w.log, from, LookedBack(elapsed));
      } else {
        HeldFacts(w.sys, c);
        before := w.sys;
        StoredCell(w.sys, c);
        var spent := w.BudgetSpent(c);
        StillHeld(before, w.sys, c);
        HeldFacts(w.sys, c);
        r := FailFor(c, RebootError, from);
        assert Since(w.log, from, LookedBack(elapsed));
      }
    }

    /** A non-terminal cycle found by `run`, or by `resume` after a proven reboot. */
    method RecoverSameBoot(c: CycleState, ghost from: nat) returns (r: Result<int, Trouble>)
      requires Wired() && w.Ready() && Stored(w.sys, c) && !Terminal(c.state) && !w.P().applying && from <= |w.log|
      requires w.P().entry.RunEntry? || Truthy(c.bootIdAfter)
      modifies w
      ensures w.Valid() && (Dead(r) <==> !w.Alive())
      ensures r.Success? ==> Recovered(w.sys, w.log, from, c, Current(old(w.sys)), w.maxAttempts, r.value)
      ensures r.Success? && old(Doomed(w.sys, c)) ==> r.value == 1 && Closed(w.sys, c.runId, 1)
      ensures Granted(r) && Grew(old(w.log), w.log) && Accounted(w.log, old(|w.log|), r)
    {
      hide World.Valid, Inv, Legal, Next, Ok, OkIn, At, Holds, Recoverable, WellFormed, Created, Stored, MayStart,
           SteadyAt, Left, Undiagnosed, Closed, Retried, Grew, Since;
      LogsGrow();
      w.Knows(c);
      ghost var before := w.sys;
      var stale := w.IsStale(c);
      assert Since(w.log, from, Found(StalenessCheck(stale)));
      StillStored(before, w.sys, c);
      if stale {
        r := DiagnoseAndFail(c, "stale-cycle", from);
        return;
      }
      StoredCell(w.sys, c);
      var changed :- BootChanged(c);
      if changed {
        if (c.state.REBOOTING? || c.state.POST_REBOOT?) && !Truthy(c.bootIdAfter) {
          RebootedMayStart(w.sys, c);
          r := Drive(c, Some(POST_REBOOT), from);
        } else {
          r := DiagnoseAndFail(c, "unexpected-reboot", from);
        }
        return;
      }
      r := RecoverUnchanged(c, from);
    }

    /** No reboot since: the reboot is tried again, later work goes on where it was, earlier work from the start. */
    method RecoverUnchanged(c: CycleState, ghost from: nat) returns (r: Result<int, Trouble>)
      requires Wired() && w.Ready() && Stored(w.sys, c) && !Terminal(c.state) && !w.P().applying && from <= |w.log|
      requires w.P().entry.RunEntry? || Truthy(c.bootIdAfter)
      requires !Rebooted(c, Current(w.sys)) && FreshGate in w.P().gates
      modifies w
      ensures w.Valid() && (Dead(r) <==> !w.Alive())
      ensures r.Success? ==> Left(w.sys, w.log, from, c.runId, r.value) && Undiagnosed(w.sys, c.runId, r.value)
      ensures r.Success? && c.state.REBOOTING? ==> Retried(w.sys, w.log, from, c, w.maxAttempts, r.value)
      ensures r.Success? && Grounded(c.state) ==> Since(w.log, from, Reached(c, PRECHECK))
      ensures Granted(r) && Grew(old(w.log), w.log) && Accounted(w.log, old(|w.log|), r)
    {
      hide World.Valid, Inv, Legal, Next, Ok, OkIn, At, Holds, Recoverable, WellFormed, Created, Stored, MayStart,
           SteadyAt, Left, Undiagnosed, Retried, Grew, Since;
      w.Knows(c);
      StoredCell(w.sys, c);
      if c.state.REBOOTING? {
        UnchangedHolds(w.sys, c);
        r := RebootNeverHappened(c, from);
        return;
      }
      if c.state.CHECKING_REBOOT? || c.state.REBOOT_PENDING? || c.state.POST_REBOOT?
         || c.state.VERIFYING? || c.state.HEALTH_CHECKING? || c.state.NOTIFYING? {
        UnchangedHolds(w.sys, c);
        HeldMayStart(w.sys, c, None);
        r := Drive(c, None, from);
        return;
      }
      EarlyMayRestart(w.sys, c);
      r := Drive(c, Some(PRECHECK), from);
    }

    // ------------------------------------------------------------- entries

    /** `run`: start a cycle, or recover the pending one. */
    method Run(scheduled: bool, force: bool) returns (r: Result<int, Trouble>)
      requires Wired() && w.Ready() && w.P() == NewProc(RunEntry)
      modifies w
      ensures w.Valid() && (Dead(r) <==> !w.Alive())
      ensures !config.enabled && !force ==> r == Success(if scheduled then 0 else 2) && w.sys == old(w.sys)
      ensures r.Success? && (config.enabled || force) ==>
        || (r.value == 1 && Since(w.log, old(|w.log|), Because(StateError)))
        || (old(Underway(w.sys))
            && Recovered(w.sys, w.log, old(|w.log|), old(w.sys.cell.cycle), Current(old(w.sys)), w.maxAttempts,
                         r.value))
        || (!old(Underway(w.sys))
            && (old(w.sys.cell.Rec?) ==> Since(w.log, old(|w.log|), Filed(old(w.sys.cell.cycle))))
            && Started(w.sys, w.log, old(|w.log|), old(w.sys.used), hostname, provider, r.value))
      ensures r.Success? && (config.enabled || force) && old(w.sys.cell.Rec? && Doomed(w.sys, w.sys.cell.cycle)) ==>
        r.value == 1 && (w.P().loaded ==> Closed(w.sys, old(w.sys.cell.cycle.runId), 1))
      ensures Granted(r) && Grew(old(w.log), w.log) && Accounted(w.log, old(|w.log|), r)
    {
      hide World.Valid, Inv, Legal, Next, Ok, OkIn, At, Holds, Recoverable, WellFormed, Created, Closed, Recovered,
           MayStart, Left, Grew, Since;
      LogsGrow();
      ghost var log0 := w.log;
      if !config.enabled && !force {
        return Success(if scheduled then 0 else 2);
      }
      var loaded := w.Load();
      if loaded.Failure? {
        return if loaded.error == Raised(StateError) then Success(1) else Failure(loaded.error);
      }
      var existing := loaded.value;
      if existing.Some? && !Terminal(existing.value.state) {
        w.Unfinished(existing.value);
        r := RecoverSameBoot(existing.value, |log0|);
        return;
      }
      if existing.Some? {
        var _ :- w.Archive(existing.value);
        assert Since(w.log, |log0|, Filed(existing.value));
      }
      r := Begin(|log0|);
    }

    /** A cycle of its own, on an empty store. */
    method Begin(ghost from: nat) returns (r: Result<int, Trouble>)
      requires Wired() && w.Ready() && from <= |w.log| && w.P().loaded && w.P().entry.RunEntry? && !w.P().applying
      requires w.sys.cell.Empty?
      modifies w
      ensures w.Valid() && (Dead(r) <==> !w.Alive())
      ensures r.Success? ==> Started(w.sys, w.log, from, old(w.sys.used), hostname, provider, r.value)
      ensures Granted(r) && Grew(old(w.log), w.log) && Accounted(w.log, old(|w.log|), r)
    {
      hide World.Valid, Inv, Legal, Next, Ok, OkIn, At, Holds, Recoverable, WellFormed, Created, MayStart, Left, Grew,
           Since;
      LogsGrow();
      var runId :- w.Uuid();
      var startedAt := w.NowIso();
      var c := NewCycle(runId, hostname, startedAt, provider);
      NewIsCreated(w.sys, runId, hostname, startedAt, provider);
      hide NewCycle;
      NewMayStart(w.sys, c);
      r := Drive(c, None, from);
    }

    /** `resume`, at boot: continue the pending cycle, or do nothing. */
    method Resume() returns (r: Result<int, Trouble>)
      requires Wired() && w.Ready() && w.P() == NewProc(ResumeEntry)
      modifies w
      ensures w.Valid() && (Dead(r) <==> !w.Alive())
      ensures r.Success? ==>
        || (r.value == 1 && Since(w.log, old(|w.log|), Because(StateError)))
        || (old(Underway(w.sys))
            && Resumed(w.sys, w.log, old(|w.log|), old(w.sys.cell.cycle), Current(old(w.sys)), w.maxAttempts,
                         r.value))
        || (!old(Underway(w.sys)) && r.value == 0 && w.sys.cell.Empty?
            && (old(w.sys.cell.Rec?) ==> Since(w.log, old(|w.log|), Filed(old(w.sys.cell.cycle)))))
      ensures r.Success? && old(w.sys.cell.Rec? && Early(w.sys.cell.cycle.state)) ==>
        r.value == 1 && (w.P().loaded ==> Closed(w.sys, old(w.sys.cell.cycle.runId), 1))
      ensures Granted(r) && Grew(old(w.log), w.log) && Accounted(w.log, old(|w.log|), r)
    {
      hide World.Valid, Inv, Legal, Next, Ok, OkIn, At, Holds, Recoverable, WellFormed, Created, Closed, Resumed,
           MayStart, Stored, SteadyAt, Left, Grew, Since;
      LogsGrow();
      ghost var log0 := w.log;
      var loaded := w.Load();
      if loaded.Failure? {
        return if loaded.error == Raised(StateError) then Success(1) else Failure(loaded.error);
      }
      if loaded.value.None? {
        return Success(0);
      }
      var c := loaded.value.value;
      if Terminal(c.state) {
        var _ :- w.Archive(c);
        return Success(0);
      }
      w.Unfinished(c);
      r := Continue(c, |log0|);
    }

    /** The pending cycle, found at boot. */
    method Continue(c: CycleState, ghost from: nat) returns (r: Result<int, Trouble>)
      requires Wired() && w.Ready() && Stored(w.sys, c) && !Terminal(c.state) && !w.P().applying && from <= |w.log|
      requires w.P().entry.ResumeEntry?
      modifies w
      ensures w.Valid() && (Dead(r) <==> !w.Alive())
      ensures r.Success? ==> Resumed(w.sys, w.log, from, c, Current(old(w.sys)), w.maxAttempts, r.value)
      ensures r.Success? && Early(c.state) ==> r.value == 1 && Closed(w.sys, c.runId, 1)
      ensures Granted(r) && Grew(old(w.log), w.log) && Accounted(w.log, old(|w.log|), r)
    {
      hide World.Valid, Inv, Legal, Next, Ok, OkIn, At, Holds, Recoverable, WellFormed, Created, Closed, Undiagnosed,
           MayStart, Stored, SteadyAt, Left, Dispatched, Retried, Grew, Since;
      LogsGrow();
      w.Knows(c);
      ghost var before, current := w.sys, Current(w.sys);
      var stale := w.IsStale(c);
      assert Since(w.log, from, Found(StalenessCheck(stale)));
      StillStored(before, w.sys, c);
      if stale {
        r := DiagnoseAndFail(c, "stale-cycle", from);
        return;
      }
      assert Current(w.sys) == current;
      if Truthy(c.bootIdAfter) {
        r := RecoverSameBoot(c, from);
        return;
      }
      StoredCell(w.sys, c);
      var changed :- BootChanged(c);
      var target := ResumeTarget(c.state, changed);
      TargetNeedsChange(c.state, changed);
      if target.None? {
        if c.state.REBOOTING? {
          UnchangedHolds(w.sys, c);
          r := RebootNeverHappened(c, from);
        } else {
          r := DiagnoseAndFail(c, "unexpected-reboot", from);
        }
        return;
      }
      TargetMayStart(w.sys, c);
      r := Drive(c, target, from);
    }
  }
}
