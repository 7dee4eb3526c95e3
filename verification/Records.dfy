/** The persisted cycle record and the nested records it carries. */
module Records {
  import opened Wrappers
  import opened States

  const SCHEMA_VERSION := 2

  datatype Outcome =
    | OutcomeSuccess | SuccessWithWarnings | NoUpdates | OutcomeFailed | Blocked | ManualRebootRequired

  /** A member name of a JSON object: one the schema knows, or any other text. */
  datatype Name =
    | Schema_version | Run_id | State_ | Outcome_ | Started_at | Updated_at | Host | Hostname | Os | Provider
    | Updates_available | Packages_pending | Packages_updated | Updates_applied | Kernel_update
    | Expected_kernel | Reboot_required | Reboot_reasons | Pre_existing_reboot | Boot_id_before
    | Boot_id_after | Kernel_before | Kernel_after | Reboot_initiated_at | Reboot_attempts
    | Reboot_before_updates | Initial_reboot_completed | Verify_passed | Outstanding_updates
    | Health_results | Warnings | Notification_status | Error_ | Transitions | Dry_run
    | Name_ | Version_from | Version_to | Security | Held | Requires_reboot_hint | Arch
    | Kind | Ok_ | Critical | Detail | Duration_s | Message | Stage | Manual_intervention
    | From_ | To_ | At_
    | Other(text: string)

  /** A parsed JSON value. `NonFinite` stands for the NaN and Infinity literals the parser accepts. */
  datatype Json =
    | Null | Bool(b: bool) | Int(n: int) | Float(x: real) | NonFinite | Str(s: string)
    | Arr(items: seq<Json>) | Obj(fields: map<Name, Json>)

  datatype Seconds = Whole(n: int) | Fractional(x: real)

  // The source keeps nested records as dictionaries. Those it accepts have a closed set of
  // members, some optional: None below is "member absent".

  datatype UpdateInfo = UpdateInfo(
    name: string, versionFrom: string, versionTo: string, security: Option<bool>,
    held: Option<bool>, requiresRebootHint: Option<bool>, arch: Option<string>)

  datatype HealthResult = HealthResult(
    kind: string, name: string, ok: bool, critical: bool, detail: Option<string>, duration: Option<Seconds>)

  datatype ErrorInfo = ErrorInfo(kind: string, message: string, stage: string, manualIntervention: Option<bool>)

  /** A transition entry may carry further members; they are kept. */
  datatype Transition = Transition(
    src: Option<string>, dst: Option<string>, at: Option<string>, extra: map<Name, Json>)

  datatype CycleState = CycleState(
    runId: string, state: State, hostname: string, schemaVersion: nat, outcome: Option<Outcome>,
    startedAt: string, updatedAt: string, os: map<Name, string>, provider: string,
    updatesAvailable: seq<UpdateInfo>, packagesPending: nat, packagesUpdated: nat,
    updatesApplied: bool, kernelUpdate: bool, expectedKernel: Option<string>,
    rebootRequired: bool, rebootReasons: seq<string>, preExistingReboot: bool,
    bootIdBefore: Option<string>, bootIdAfter: Option<string>, kernelBefore: string,
    kernelAfter: Option<string>, rebootInitiatedAt: Option<string>, rebootAttempts: nat,
    rebootBeforeUpdates: bool, initialRebootCompleted: bool, verifyPassed: Option<bool>,
    outstandingUpdates: Option<nat>, healthResults: seq<HealthResult>, warnings: seq<string>,
    notificationStatus: map<Name, string>, error: Option<ErrorInfo>,
    transitions: seq<Transition>, dryRun: bool)

  /** Python truthiness of an optional string. */
  predicate Truthy(s: Option<string>) {
    s.Some? && s.value != ""
  }

  predicate IsHeld(u: UpdateInfo) {
    u.held == Some(true)
  }

  function StepEntry(src: State, dst: State, at: string): Transition {
    Transition(Some(StateName(src)), Some(StateName(dst)), Some(at), map[])
  }

  function RecordTransition(c: CycleState, dst: State, at: string): CycleState {
    c.(transitions := c.transitions + [StepEntry(c.state, dst, at)])
  }

  predicate AlphaNumeric(ch: char) {
    'A' <= ch <= 'Z' || 'a' <= ch <= 'z' || '0' <= ch <= '9'
  }

  predicate ValidRunId(s: string) {
    && 1 <= |s| <= 128
    && AlphaNumeric(s[0])
    && forall i | 1 <= i < |s| :: AlphaNumeric(s[i]) || s[i] == '_' || s[i] == '-'
  }

  const TWO_TO_194: int := 0x4_0000_0000_0000_0000_0000_0000_0000_0000_0000_0000_0000_0000

  /** The first integer a double cannot hold, 2^1024 - 2^970: converting it overflows. */
  const FLOAT_OVERFLOW: int :=
    0x3F_FFFF_FFFF_FFFF * TWO_TO_194 * TWO_TO_194 * TWO_TO_194 * TWO_TO_194 * TWO_TO_194

  predicate DurationOk(d: Seconds) {
    match d
    case Whole(n) => 0 <= n < FLOAT_OVERFLOW
    case Fractional(x) => x >= 0.0
  }

  const ENTRY_NAMES: set<Name> := {From_, To_, At_}

  /** What a record must satisfy, beyond its types, to survive its own validators. */
  ghost predicate WellFormed(c: CycleState) {
    && c.schemaVersion == SCHEMA_VERSION
    && ValidRunId(c.runId)
    && (forall h | h in c.healthResults && h.duration.Some? :: DurationOk(h.duration.value))
    && (forall t | t in c.transitions :: t.extra.Keys !! ENTRY_NAMES)
  }
}
