/** Encoding a cycle record to JSON, validating and decoding it, and migrating schema 1. */
module Codec {
  import opened Wrappers
  import opened States
  import opened Records

  type Dict = map<Name, Json>

  datatype LoadError = Corrupt | NewerVersion(version: int)

  // ------------------------------------------------------------ encoding

  function OptStr(s: Option<string>): Json {
    if s.Some? then Str(s.value) else Null
  }

  // An optional member is written only when it is there.

  function BoolMember(d: Dict, k: Name, v: Option<bool>): Dict {
    if v.Some? then d[k := Bool(v.value)] else d
  }

  function StrMember(d: Dict, k: Name, v: Option<string>): Dict {
    if v.Some? then d[k := Str(v.value)] else d
  }

  function SecondsJson(d: Seconds): Json {
    match d
    case Whole(n) => Int(n)
    case Fractional(x) => Float(x)
  }

  function UpdateJson(u: UpdateInfo): Json {
    var d := map[Name_ := Str(u.name), Version_from := Str(u.versionFrom), Version_to := Str(u.versionTo)];
    var d := BoolMember(d, Security, u.security);
    var d := BoolMember(d, Held, u.held);
    var d := BoolMember(d, Requires_reboot_hint, u.requiresRebootHint);
    Obj(StrMember(d, Arch, u.arch))
  }

  function HealthJson(h: HealthResult): Json {
    var d := map[Kind := Str(h.kind), Name_ := Str(h.name), Ok_ := Bool(h.ok), Critical := Bool(h.critical)];
    var d := StrMember(d, Detail, h.detail);
    Obj(if h.duration.Some? then d[Duration_s := SecondsJson(h.duration.value)] else d)
  }

  function ErrorJson(e: ErrorInfo): Json {
    var d := map[Kind := Str(e.kind), Message := Str(e.message), Stage := Str(e.stage)];
    Obj(BoolMember(d, Manual_intervention, e.manualIntervention))
  }

  function TransitionJson(t: Transition): Json {
    var d := StrMember(t.extra, From_, t.src);
    var d := StrMember(d, To_, t.dst);
    Obj(StrMember(d, At_, t.at))
  }

  function OutcomeName(o: Outcome): string {
    match o
    case OutcomeSuccess => "success"
    case SuccessWithWarnings => "success_with_warnings"
    case NoUpdates => "no_updates"
    case OutcomeFailed => "failed"
    case Blocked => "blocked"
    case ManualRebootRequired => "manual_reboot_required"
  }

  function StrMap(m: map<Name, string>): Json {
    Obj(map k | k in m :: Str(m[k]))
  }

  function Each<A>(items: seq<A>, f: A -> Json): Json {
    Arr(seq(|items|, i requires 0 <= i < |items| => f(items[i])))
  }

  // The members of the document, by the part of the record they come from.

  function IdentityMembers(c: CycleState): Dict {
    map[
      Schema_version := Int(c.schemaVersion),
      Run_id := Str(c.runId),
      State_ := Str(StateName(c.state)),
      Outcome_ := if c.outcome.Some? then Str(OutcomeName(c.outcome.value)) else Null,
      Started_at := Str(c.startedAt),
      Updated_at := Str(c.updatedAt),
      Host := Obj(map[Hostname := Str(c.hostname)]),
      Os := StrMap(c.os),
      Provider := Str(c.provider)
    ]
  }

  function UpdateMembers(c: CycleState): Dict {
    map[
      Updates_available := Each(c.updatesAvailable, u => UpdateJson(u)),
      Packages_pending := Int(c.packagesPending),
      Packages_updated := Int(c.packagesUpdated),
      Updates_applied := Bool(c.updatesApplied),
      Kernel_update := Bool(c.kernelUpdate),
      Expected_kernel := OptStr(c.expectedKernel)
    ]
  }

  function RebootMembers(c: CycleState): Dict {
    map[
      Reboot_required := Bool(c.rebootRequired),
      Reboot_reasons := Each(c.rebootReasons, s => Str(s)),
      Pre_existing_reboot := Bool(c.preExistingReboot),
      Boot_id_before := OptStr(c.bootIdBefore),
      Boot_id_after := OptStr(c.bootIdAfter),
      Kernel_before := Str(c.kernelBefore),
      Kernel_after := OptStr(c.kernelAfter),
      Reboot_initiated_at := OptStr(c.rebootInitiatedAt),
      Reboot_attempts := Int(c.rebootAttempts),
      Reboot_before_updates := Bool(c.rebootBeforeUpdates),
      Initial_reboot_completed := Bool(c.initialRebootCompleted)
    ]
  }

  function ResultMembers(c: CycleState): Dict {
    map[
      Verify_passed := if c.verifyPassed.Some? then Bool(c.verifyPassed.value) else Null,
      Outstanding_updates := if c.outstandingUpdates.Some? then Int(c.outstandingUpdates.value) else Null,
      Health_results := Each(c.healthResults, h => HealthJson(h)),
      Warnings := Each(c.warnings, s => Str(s)),
      Notification_status := StrMap(c.notificationStatus),
      Error_ := if c.error.Some? then ErrorJson(c.error.value) else Null,
      Transitions := Each(c.transitions, t => TransitionJson(t)),
      Dry_run := Bool(c.dryRun)
    ]
  }

  function ToDict(c: CycleState): Dict {
    IdentityMembers(c) + UpdateMembers(c) + RebootMembers(c) + ResultMembers(c)
  }

  // ---------------------------------------------------------- validation

  function Get(d: Dict, k: Name, default: Json): Json {
    if k in d then d[k] else default
  }

  predicate IsNat(j: Json) {
    j.Int? && j.n >= 0
  }

  /** An object with string values. */
  predicate IsStrMap(j: Json) {
    j.Obj? && forall k | k in j.fields :: j.fields[k].Str?
  }

  predicate IsStrArray(j: Json) {
    j.Arr? && forall i | 0 <= i < |j.items| :: j.items[i].Str?
  }

  predicate BoolIfPresent(d: Dict, k: Name) {
    k in d ==> d[k].Bool?
  }

  predicate StrIfPresent(d: Dict, k: Name) {
    k in d ==> d[k].Str?
  }

  predicate IsDuration(j: Json) {
    || (j.Int? && DurationOk(Whole(j.n)))
    || (j.Float? && DurationOk(Fractional(j.x)))
  }

  /** `UpdateInfo(**item)` plus the member types. */
  predicate IsUpdate(j: Json) {
    && j.Obj?
    && {Name_, Version_from, Version_to} <= j.fields.Keys
    && j.fields.Keys <= {Name_, Version_from, Version_to, Security, Held, Requires_reboot_hint, Arch}
    && StrIfPresent(j.fields, Name_) && StrIfPresent(j.fields, Version_from)
    && StrIfPresent(j.fields, Version_to) && StrIfPresent(j.fields, Arch)
    && BoolIfPresent(j.fields, Held) && BoolIfPresent(j.fields, Security)
    && BoolIfPresent(j.fields, Requires_reboot_hint)
  }

  /** `HealthResult(**item)` plus the member types and a finite, non-negative duration. */
  predicate IsHealth(j: Json) {
    && j.Obj?
    && {Kind, Name_, Ok_, Critical} <= j.fields.Keys
    && j.fields.Keys <= {Kind, Name_, Ok_, Critical, Detail, Duration_s}
    && StrIfPresent(j.fields, Kind) && StrIfPresent(j.fields, Name_) && StrIfPresent(j.fields, Detail)
    && BoolIfPresent(j.fields, Ok_) && BoolIfPresent(j.fields, Critical)
    && IsDuration(Get(j.fields, Duration_s, Int(0)))
  }

  predicate IsError(j: Json) {
    && j.Obj?
    && {Kind, Message, Stage} <= j.fields.Keys
    && j.fields.Keys <= {Kind, Message, Stage, Manual_intervention}
    && StrIfPresent(j.fields, Kind) && StrIfPresent(j.fields, Message) && StrIfPresent(j.fields, Stage)
    && BoolIfPresent(j.fields, Manual_intervention)
  }

  predicate IsTransition(j: Json) {
    && j.Obj?
    && StrIfPresent(j.fields, From_) && StrIfPresent(j.fields, To_) && StrIfPresent(j.fields, At_)
  }

  predicate IsOutcome(j: Json) {
    j.Str? && ParseOutcome(j.s).Some?
  }

  function ParseOutcome(s: string): (r: Option<Outcome>)
    ensures r.Some? ==> OutcomeName(r.value) == s
  {
    if s == "success" then Some(OutcomeSuccess)
    else if s == "success_with_warnings" then Some(SuccessWithWarnings)
    else if s == "no_updates" then Some(NoUpdates)
    else if s == "failed" then Some(OutcomeFailed)
    else if s == "blocked" then Some(Blocked)
    else if s == "manual_reboot_required" then Some(ManualRebootRequired)
    else None
  }

  predicate AllItems(j: Json, p: Json -> bool) {
    j.Arr? && forall i | 0 <= i < |j.items| :: p(j.items[i])
  }

  predicate NatIfPresent(d: Dict, k: Name) {
    k in d ==> IsNat(d[k])
  }

  predicate StrOrNull(d: Dict, k: Name) {
    Get(d, k, Null).Null? || d[k].Str?
  }

  predicate CountersOk(d: Dict) {
    && NatIfPresent(d, Packages_pending) && NatIfPresent(d, Packages_updated)
    && NatIfPresent(d, Reboot_attempts)
    && (Get(d, Outstanding_updates, Null).Null? || IsNat(d[Outstanding_updates]))
  }

  predicate RecoveryValuesOk(d: Dict) {
    && (Get(d, Outcome_, Null).Null? || IsOutcome(d[Outcome_]))
    && StrIfPresent(d, State_) && StrIfPresent(d, Started_at) && StrIfPresent(d, Updated_at)
    && StrIfPresent(d, Provider) && StrIfPresent(d, Kernel_before)
    && StrOrNull(d, Expected_kernel) && StrOrNull(d, Boot_id_before) && StrOrNull(d, Boot_id_after)
    && StrOrNull(d, Kernel_after) && StrOrNull(d, Reboot_initiated_at)
    && (Get(d, Verify_passed, Null).Null? || d[Verify_passed].Bool?)
    && IsStrArray(Get(d, Reboot_reasons, Arr([]))) && IsStrArray(Get(d, Warnings, Arr([])))
  }

  predicate NestedRecordsOk(d: Dict) {
    && AllItems(Get(d, Updates_available, Arr([])), j => IsUpdate(j))
    && AllItems(Get(d, Health_results, Arr([])), j => IsHealth(j))
    && AllItems(Get(d, Transitions, Arr([])), j => IsTransition(j))
    && (Get(d, Error_, Null).Null? || IsError(d[Error_]))
  }

  predicate BasicsOk(d: Dict) {
    && Get(d, Run_id, Null).Str? && ValidRunId(d[Run_id].s)
    && BoolIfPresent(d, Updates_applied) && BoolIfPresent(d, Kernel_update)
    && BoolIfPresent(d, Reboot_required) && BoolIfPresent(d, Pre_existing_reboot)
    && BoolIfPresent(d, Reboot_before_updates) && BoolIfPresent(d, Initial_reboot_completed)
    && BoolIfPresent(d, Dry_run)
    && IsStrMap(Get(d, Host, Obj(map[]))) && IsStrMap(Get(d, Os, Obj(map[])))
    && IsStrMap(Get(d, Notification_status, Obj(map[])))
  }

  predicate SchemaOk(d: Dict) {
    BasicsOk(d) && CountersOk(d) && RecoveryValuesOk(d) && NestedRecordsOk(d)
  }

  // ------------------------------------------------------------ decoding

  function GetStr(d: Dict, k: Name): string
    requires StrIfPresent(d, k)
  {
    if k in d then d[k].s else ""
  }

  function GetBool(d: Dict, k: Name): bool
    requires BoolIfPresent(d, k)
  {
    k in d && d[k].b
  }

  function GetNat(d: Dict, k: Name): nat
    requires NatIfPresent(d, k)
  {
    if k in d then d[k].n else 0
  }

  function GetOptStr(d: Dict, k: Name): Option<string>
    requires StrOrNull(d, k)
  {
    if Get(d, k, Null).Null? then None else Some(d[k].s)
  }

  function OptBoolMember(d: Dict, k: Name): Option<bool>
    requires BoolIfPresent(d, k)
  {
    if k in d then Some(d[k].b) else None
  }

  function OptStrMember(d: Dict, k: Name): Option<string>
    requires StrIfPresent(d, k)
  {
    if k in d then Some(d[k].s) else None
  }

  function StrMapOf(j: Json): map<Name, string>
    requires IsStrMap(j)
  {
    map k | k in j.fields :: j.fields[k].s
  }

  function StrArrayOf(j: Json): seq<string>
    requires IsStrArray(j)
  {
    seq(|j.items|, i requires 0 <= i < |j.items| => j.items[i].s)
  }

  function UpdateOf(j: Json): UpdateInfo
    requires IsUpdate(j)
  {
    var d := j.fields;
    UpdateInfo(GetStr(d, Name_), GetStr(d, Version_from), GetStr(d, Version_to), OptBoolMember(d, Security),
               OptBoolMember(d, Held), OptBoolMember(d, Requires_reboot_hint), OptStrMember(d, Arch))
  }

  function HealthOf(j: Json): HealthResult
    requires IsHealth(j)
  {
    var d := j.fields;
    var duration :=
      if Duration_s !in d then None
      else if d[Duration_s].Int? then Some(Whole(d[Duration_s].n))
      else Some(Fractional(d[Duration_s].x));
    HealthResult(GetStr(d, Kind), GetStr(d, Name_), GetBool(d, Ok_), GetBool(d, Critical),
                 OptStrMember(d, Detail), duration)
  }

  function ErrorOf(j: Json): ErrorInfo
    requires IsError(j)
  {
    var d := j.fields;
    ErrorInfo(GetStr(d, Kind), GetStr(d, Message), GetStr(d, Stage), OptBoolMember(d, Manual_intervention))
  }

  function TransitionOf(j: Json): Transition
    requires IsTransition(j)
  {
    var d := j.fields;
    Transition(OptStrMember(d, From_), OptStrMember(d, To_), OptStrMember(d, At_), d - ENTRY_NAMES)
  }

  function UpdatesOf(j: Json): seq<UpdateInfo>
    requires AllItems(j, i => IsUpdate(i))
  {
    seq(|j.items|, i requires 0 <= i < |j.items| => UpdateOf(j.items[i]))
  }

  function HealthResultsOf(j: Json): seq<HealthResult>
    requires AllItems(j, i => IsHealth(i))
  {
    seq(|j.items|, i requires 0 <= i < |j.items| => HealthOf(j.items[i]))
  }

  function TransitionsOf(j: Json): seq<Transition>
    requires AllItems(j, i => IsTransition(i))
  {
    seq(|j.items|, i requires 0 <= i < |j.items| => TransitionOf(j.items[i]))
  }

  function MigrateV1(d: Dict): Dict {
    map[Boot_id_after := Null, Reboot_before_updates := Bool(false), Initial_reboot_completed := Bool(false)]
    + d + map[Schema_version := Int(2)]
  }

  /** The record a validated schema-2 document stands for. */
  function Build(d: Dict, state: State): CycleState
    requires SchemaOk(d)
  {
    CycleState(
      d[Run_id].s, state,
      GetStr(Get(d, Host, Obj(map[])).fields, Hostname), SCHEMA_VERSION,
      if Get(d, Outcome_, Null).Null? then None else ParseOutcome(d[Outcome_].s),
      GetStr(d, Started_at), GetStr(d, Updated_at), StrMapOf(Get(d, Os, Obj(map[]))), GetStr(d, Provider),
      UpdatesOf(Get(d, Updates_available, Arr([]))), GetNat(d, Packages_pending), GetNat(d, Packages_updated),
      GetBool(d, Updates_applied), GetBool(d, Kernel_update), GetOptStr(d, Expected_kernel),
      GetBool(d, Reboot_required), StrArrayOf(Get(d, Reboot_reasons, Arr([]))), GetBool(d, Pre_existing_reboot),
      GetOptStr(d, Boot_id_before), GetOptStr(d, Boot_id_after), GetStr(d, Kernel_before),
      GetOptStr(d, Kernel_after), GetOptStr(d, Reboot_initiated_at), GetNat(d, Reboot_attempts),
      GetBool(d, Reboot_before_updates), GetBool(d, Initial_reboot_completed),
      if Get(d, Verify_passed, Null).Null? then None else Some(d[Verify_passed].b),
      if Get(d, Outstanding_updates, Null).Null? then None else Some(d[Outstanding_updates].n),
      HealthResultsOf(Get(d, Health_results, Arr([]))), StrArrayOf(Get(d, Warnings, Arr([]))),
      StrMapOf(Get(d, Notification_status, Obj(map[]))),
      if Get(d, Error_, Null).Null? then None else Some(ErrorOf(d[Error_])),
      TransitionsOf(Get(d, Transitions, Arr([]))), GetBool(d, Dry_run))
  }

  function FromDict(doc: Json): Result<CycleState, LoadError> {
    if !doc.Obj? then Failure(Corrupt)
    else
      var version := Get(doc.fields, Schema_version, Null);
      if !version.Int? || version.n < 1 then Failure(Corrupt)
      else if version.n > SCHEMA_VERSION then Failure(NewerVersion(version.n))
      else if !SchemaOk(doc.fields) then Failure(Corrupt)
      else
        var d := if version.n == 1 then MigrateV1(doc.fields) else doc.fields;
        var state := if State_ in d then ParseState(d[State_].s) else None;
        if state.None? then Failure(Corrupt) else (MigrationKeepsSchema(doc.fields); Success(Build(d, state.value)))
  }

  const MIGRATED: set<Name> := {Schema_version, Boot_id_after, Reboot_before_updates, Initial_reboot_completed}

  ghost predicate SameAt(d: Dict, m: Dict, k: Name) {
    (k in m <==> k in d) && (k in d ==> m[k] == d[k])
  }

  lemma MigrationKeepsSchema(d: Dict)
    requires SchemaOk(d)
    ensures SchemaOk(MigrateV1(d))
  {
    var m := MigrateV1(d);
    assert forall k | k !in MIGRATED :: SameAt(d, m, k);
    MigrationKeepsBasics(d, m);
    MigrationKeepsValues(d, m);
    MigrationKeepsRecords(d, m);
  }

  lemma MigrationKeepsBasics(d: Dict, m: Dict)
    requires BasicsOk(d) && CountersOk(d) && forall k | k !in MIGRATED :: SameAt(d, m, k)
    requires BoolIfPresent(m, Reboot_before_updates) && BoolIfPresent(m, Initial_reboot_completed)
    ensures BasicsOk(m) && CountersOk(m)
  {
    assert SameAt(d, m, Run_id) && SameAt(d, m, Updates_applied) && SameAt(d, m, Kernel_update)
        && SameAt(d, m, Reboot_required) && SameAt(d, m, Pre_existing_reboot) && SameAt(d, m, Dry_run)
        && SameAt(d, m, Host) && SameAt(d, m, Os) && SameAt(d, m, Notification_status);
    assert SameAt(d, m, Packages_pending) && SameAt(d, m, Packages_updated)
        && SameAt(d, m, Reboot_attempts) && SameAt(d, m, Outstanding_updates);
  }

  lemma MigrationKeepsValues(d: Dict, m: Dict)
    requires RecoveryValuesOk(d) && forall k | k !in MIGRATED :: SameAt(d, m, k)
    requires StrOrNull(m, Boot_id_after)
    ensures RecoveryValuesOk(m)
  {
    hide ParseOutcome;
    assert SameAt(d, m, Outcome_) && SameAt(d, m, State_) && SameAt(d, m, Started_at) && SameAt(d, m, Updated_at)
        && SameAt(d, m, Provider) && SameAt(d, m, Kernel_before) && SameAt(d, m, Expected_kernel)
        && SameAt(d, m, Boot_id_before) && SameAt(d, m, Kernel_after) && SameAt(d, m, Reboot_initiated_at)
        && SameAt(d, m, Verify_passed) && SameAt(d, m, Reboot_reasons) && SameAt(d, m, Warnings);
  }

  lemma MigrationKeepsRecords(d: Dict, m: Dict)
    requires NestedRecordsOk(d) && forall k | k !in MIGRATED :: SameAt(d, m, k)
    ensures NestedRecordsOk(m)
  {
    assert SameAt(d, m, Updates_available) && SameAt(d, m, Health_results)
        && SameAt(d, m, Transitions) && SameAt(d, m, Error_);
  }
}
