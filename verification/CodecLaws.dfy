/** Round-trip laws of the record codec. */
module CodecLaws {
  import opened Wrappers
  import opened States
  import opened Records
  import opened Outcomes
  import opened Codec

  lemma OutcomeRoundTrip(o: Outcome)
    ensures ParseOutcome(OutcomeName(o)) == Some(o)
  {
    var n := OutcomeName(o);
    assert n[0] == OutcomeName(o)[0];
  }

  lemma StrMapRoundTrip(m: map<Name, string>)
    ensures IsStrMap(StrMap(m)) && StrMapOf(StrMap(m)) == m
  {
  }

  lemma StrArrayRoundTrip(xs: seq<string>)
    ensures IsStrArray(Each(xs, s => Str(s))) && StrArrayOf(Each(xs, s => Str(s))) == xs
  {
  }

  lemma UpdateRoundTrip(u: UpdateInfo)
    ensures IsUpdate(UpdateJson(u)) && UpdateOf(UpdateJson(u)) == u
  {
  }

  lemma ErrorRoundTrip(e: ErrorInfo)
    ensures IsError(ErrorJson(e)) && ErrorOf(ErrorJson(e)) == e
  {
  }

  // The members of an encoded record, one by one.

  ghost predicate IdentityEncoded(d: Dict, c: CycleState) {
    && Schema_version in d && d[Schema_version] == Int(c.schemaVersion)
    && Run_id in d && d[Run_id] == Str(c.runId)
    && State_ in d && d[State_] == Str(StateName(c.state))
    && Outcome_ in d && d[Outcome_] == (if c.outcome.Some? then Str(OutcomeName(c.outcome.value)) else Null)
    && Started_at in d && d[Started_at] == Str(c.startedAt)
    && Updated_at in d && d[Updated_at] == Str(c.updatedAt)
    && Host in d && d[Host] == Obj(map[Hostname := Str(c.hostname)])
    && Os in d && d[Os] == StrMap(c.os)
    && Provider in d && d[Provider] == Str(c.provider)
  }

  ghost predicate UpdateEncoded(d: Dict, c: CycleState) {
    && Updates_available in d && d[Updates_available] == Each(c.updatesAvailable, u => UpdateJson(u))
    && Packages_pending in d && d[Packages_pending] == Int(c.packagesPending)
    && Packages_updated in d && d[Packages_updated] == Int(c.packagesUpdated)
    && Updates_applied in d && d[Updates_applied] == Bool(c.updatesApplied)
    && Kernel_update in d && d[Kernel_update] == Bool(c.kernelUpdate)
    && Expected_kernel in d && d[Expected_kernel] == OptStr(c.expectedKernel)
  }

  ghost predicate RebootEncoded(d: Dict, c: CycleState) {
    && Reboot_required in d && d[Reboot_required] == Bool(c.rebootRequired)
    && Reboot_reasons in d && d[Reboot_reasons] == Each(c.rebootReasons, s => Str(s))
    && Pre_existing_reboot in d && d[Pre_existing_reboot] == Bool(c.preExistingReboot)
    && Boot_id_before in d && d[Boot_id_before] == OptStr(c.bootIdBefore)
    && Boot_id_after in d && d[Boot_id_after] == OptStr(c.bootIdAfter)
    && Kernel_before in d && d[Kernel_before] == Str(c.kernelBefore)
    && Kernel_after in d && d[Kernel_after] == OptStr(c.kernelAfter)
    && Reboot_initiated_at in d && d[Reboot_initiated_at] == OptStr(c.rebootInitiatedAt)
    && Reboot_attempts in d && d[Reboot_attempts] == Int(c.rebootAttempts)
    && Reboot_before_updates in d && d[Reboot_before_updates] == Bool(c.rebootBeforeUpdates)
    && Initial_reboot_completed in d && d[Initial_reboot_completed] == Bool(c.initialRebootCompleted)
  }

  ghost predicate ResultEncoded(d: Dict, c: CycleState) {
    && Verify_passed in d && d[Verify_passed] == (if c.verifyPassed.Some? then Bool(c.verifyPassed.value) else Null)
    && Outstanding_updates in d
    && d[Outstanding_updates] == (if c.outstandingUpdates.Some? then Int(c.outstandingUpdates.value) else Null)
    && Health_results in d && d[Health_results] == Each(c.healthResults, h => HealthJson(h))
    && Warnings in d && d[Warnings] == Each(c.warnings, s => Str(s))
    && Notification_status in d && d[Notification_status] == StrMap(c.notificationStatus)
    && Error_ in d && d[Error_] == (if c.error.Some? then ErrorJson(c.error.value) else Null)
    && Transitions in d && d[Transitions] == Each(c.transitions, t => TransitionJson(t))
    && Dry_run in d && d[Dry_run] == Bool(c.dryRun)
  }

  ghost predicate Encodes(d: Dict, c: CycleState) {
    IdentityEncoded(d, c) && UpdateEncoded(d, c) && RebootEncoded(d, c) && ResultEncoded(d, c)
  }

  /** Which part of the document a member belongs to. */
  function Part(k: Name): nat {
    match k
    case Schema_version | Run_id | State_ | Outcome_ | Started_at | Updated_at | Host | Os | Provider => 0
    case Updates_available | Packages_pending | Packages_updated | Updates_applied | Kernel_update
      | Expected_kernel => 1
    case Reboot_required | Reboot_reasons | Pre_existing_reboot | Boot_id_before | Boot_id_after | Kernel_before
      | Kernel_after | Reboot_initiated_at | Reboot_attempts | Reboot_before_updates | Initial_reboot_completed => 2
    case Verify_passed | Outstanding_updates | Health_results | Warnings | Notification_status | Error_ | Transitions
      | Dry_run => 3
    case _ => 4
  }

  lemma IdentityLookup(c: CycleState)
    ensures IdentityEncoded(IdentityMembers(c), c)
  {
  }

  lemma UpdateLookup(c: CycleState)
    ensures UpdateEncoded(UpdateMembers(c), c)
  {
  }

  lemma RebootLookup(c: CycleState)
    ensures RebootEncoded(RebootMembers(c), c)
  {
  }

  lemma ResultLookup(c: CycleState)
    ensures ResultEncoded(ResultMembers(c), c)
  {
  }

  lemma IdentityParts(c: CycleState)
    ensures forall k | k in IdentityMembers(c) :: Part(k) == 0
  {
  }

  lemma UpdateParts(c: CycleState)
    ensures forall k | k in UpdateMembers(c) :: Part(k) == 1
  {
  }

  lemma RebootParts(c: CycleState)
    ensures forall k | k in RebootMembers(c) :: Part(k) == 2
  {
  }

  lemma ResultParts(c: CycleState)
    ensures forall k | k in ResultMembers(c) :: Part(k) == 3
  {
  }

  lemma Carries(part: Dict, whole: Dict, c: CycleState)
    requires forall k | k in part :: k in whole && whole[k] == part[k]
    ensures IdentityEncoded(part, c) ==> IdentityEncoded(whole, c)
    ensures UpdateEncoded(part, c) ==> UpdateEncoded(whole, c)
    ensures RebootEncoded(part, c) ==> RebootEncoded(whole, c)
    ensures ResultEncoded(part, c) ==> ResultEncoded(whole, c)
  {
    hide StateName, OutcomeName;
  }

  lemma EncodesMembers(c: CycleState)
    ensures Encodes(ToDict(c), c)
  {
    hide IdentityEncoded, UpdateEncoded, RebootEncoded, ResultEncoded, IdentityMembers, UpdateMembers,
         RebootMembers, ResultMembers, Part;
    IdentityLookup(c);
    IdentityParts(c);
    UpdateLookup(c);
    UpdateParts(c);
    RebootLookup(c);
    RebootParts(c);
    ResultLookup(c);
    ResultParts(c);
    var d := ToDict(c);
    Carries(IdentityMembers(c), d, c);
    Carries(UpdateMembers(c), d, c);
    Carries(RebootMembers(c), d, c);
    Carries(ResultMembers(c), d, c);
  }

  lemma EncodedSchema(d: Dict, c: CycleState)
    requires WellFormed(c) && Encodes(d, c)
    ensures SchemaOk(d)
  {
    StrMapRoundTrip(c.os);
    StrMapRoundTrip(c.notificationStatus);
    StrArrayRoundTrip(c.rebootReasons);
    StrArrayRoundTrip(c.warnings);
    if c.outcome.Some? {
      OutcomeRoundTrip(c.outcome.value);
    }
    EncodedRecords(d, c);
  }

  lemma EncodedRecords(d: Dict, c: CycleState)
    requires WellFormed(c) && Encodes(d, c)
    ensures NestedRecordsOk(d)
  {
    UpdatesRoundTrip(c.updatesAvailable);
    HealthResultsRoundTrip(c.healthResults);
    TransitionsRoundTrip(c.transitions);
    if c.error.Some? {
      ErrorRoundTrip(c.error.value);
    }
  }

  lemma BuildsRebootFacts(d: Dict, c: CycleState)
    requires Encodes(d, c) && SchemaOk(d)
    ensures var b := Build(d, c.state);
      && b.rebootRequired == c.rebootRequired && b.preExistingReboot == c.preExistingReboot
      && b.bootIdBefore == c.bootIdBefore && b.bootIdAfter == c.bootIdAfter && b.kernelBefore == c.kernelBefore
      && b.kernelAfter == c.kernelAfter && b.rebootInitiatedAt == c.rebootInitiatedAt
      && b.rebootAttempts == c.rebootAttempts && b.rebootBeforeUpdates == c.rebootBeforeUpdates
      && b.initialRebootCompleted == c.initialRebootCompleted
  {
    hide UpdateJson, HealthJson, TransitionJson, ErrorJson, UpdateOf, HealthOf, TransitionOf, ErrorOf,
         OutcomeName, ParseOutcome, StateName, BasicsOk, CountersOk, RecoveryValuesOk, NestedRecordsOk,
         UpdatesOf, HealthResultsOf, TransitionsOf, StrMapOf, StrArrayOf, StrMap, Each, IsStrMap, IsStrArray,
         IdentityEncoded, UpdateEncoded, ResultEncoded;
  }

  lemma BuildsCollections(d: Dict, c: CycleState)
    requires WellFormed(c) && Encodes(d, c) && SchemaOk(d)
    ensures var b := Build(d, c.state);
      && b.os == c.os && b.notificationStatus == c.notificationStatus && b.rebootReasons == c.rebootReasons
      && b.warnings == c.warnings && b.updatesAvailable == c.updatesAvailable
      && b.healthResults == c.healthResults && b.transitions == c.transitions
  {
    hide UpdateJson, HealthJson, TransitionJson, ErrorJson, UpdateOf, HealthOf, TransitionOf, ErrorOf,
         OutcomeName, ParseOutcome, StateName, BasicsOk, CountersOk, RecoveryValuesOk, NestedRecordsOk;
    StrMapRoundTrip(c.os);
    StrMapRoundTrip(c.notificationStatus);
    StrArrayRoundTrip(c.rebootReasons);
    StrArrayRoundTrip(c.warnings);
    UpdatesRoundTrip(c.updatesAvailable);
    HealthResultsRoundTrip(c.healthResults);
    TransitionsRoundTrip(c.transitions);
  }

  lemma BuildsChoices(d: Dict, c: CycleState)
    requires WellFormed(c) && Encodes(d, c) && SchemaOk(d)
    ensures var b := Build(d, c.state); b.outcome == c.outcome && b.error == c.error
  {
    hide UpdateJson, HealthJson, TransitionJson, ErrorJson, UpdateOf, HealthOf, TransitionOf, ErrorOf,
         OutcomeName, ParseOutcome, StateName, BasicsOk, CountersOk, RecoveryValuesOk, NestedRecordsOk;
    if c.outcome.Some? {
      OutcomeRoundTrip(c.outcome.value);
    }
    if c.error.Some? {
      ErrorRoundTrip(c.error.value);
    }
  }

  lemma EncodedBuild(d: Dict, c: CycleState)
    requires WellFormed(c) && Encodes(d, c) && SchemaOk(d)
    ensures Build(d, c.state) == c
  {
    BuildsRebootFacts(d, c);
    BuildsCollections(d, c);
    BuildsChoices(d, c);
    hide Encodes, SchemaOk;
  }

  lemma DecodesTo(d: Dict, c: CycleState)
    requires Schema_version in d && d[Schema_version] == Int(SCHEMA_VERSION) && SchemaOk(d)
    requires State_ in d && d[State_] == Str(StateName(c.state)) && Build(d, c.state) == c
    ensures FromDict(Obj(d)) == Success(c)
  {
    hide SchemaOk, Build, StateName, ParseState;
    ParseOfName(c.state);
  }

  /** What the store writes it reads back: the same record, for every well-formed cycle. */
  lemma RoundTrip(c: CycleState)
    requires WellFormed(c)
    ensures FromDict(Obj(ToDict(c))) == Success(c)
  {
    hide ToDict, SchemaOk, Build, StateName, FromDict, UpdateEncoded, RebootEncoded, ResultEncoded, StrMap,
         ValidRunId, DurationOk;
    var d := ToDict(c);
    EncodesMembers(c);
    EncodedSchema(d, c);
    EncodedBuild(d, c);
    DecodesTo(d, c);
  }

  lemma UpdatesRoundTrip(us: seq<UpdateInfo>)
    ensures var j := Each(us, u => UpdateJson(u)); AllItems(j, i => IsUpdate(i)) && UpdatesOf(j) == us
  {
    forall u | u in us {
      UpdateRoundTrip(u);
    }
  }

  lemma HealthResultsRoundTrip(hs: seq<HealthResult>)
    requires forall h | h in hs && h.duration.Some? :: DurationOk(h.duration.value)
    ensures var j := Each(hs, h => HealthJson(h)); AllItems(j, i => IsHealth(i)) && HealthResultsOf(j) == hs
  {
    forall h | h in hs ensures IsHealth(HealthJson(h)) && HealthOf(HealthJson(h)) == h {
    }
  }

  lemma TransitionsRoundTrip(ts: seq<Transition>)
    requires forall t | t in ts :: t.extra.Keys !! ENTRY_NAMES
    ensures var j := Each(ts, t => TransitionJson(t)); AllItems(j, i => IsTransition(i)) && TransitionsOf(j) == ts
  {
    forall t | t in ts ensures IsTransition(TransitionJson(t)) && TransitionOf(TransitionJson(t)) == t {
    }
  }

  // --------------------------------------------------------- what is accepted

  lemma DecodedTransitionsAreSplit(j: Json)
    requires AllItems(j, i => IsTransition(i))
    ensures forall t | t in TransitionsOf(j) :: t.extra.Keys !! ENTRY_NAMES
  {
    forall t | t in TransitionsOf(j) ensures t.extra.Keys !! ENTRY_NAMES {
      var i :| 0 <= i < |j.items| && t == TransitionOf(j.items[i]);
      assert IsTransition(j.items[i]);
    }
  }

  lemma BuiltIsWellFormed(d: Dict, state: State)
    requires SchemaOk(d)
    ensures WellFormed(Build(d, state))
  {
    DecodedTransitionsAreSplit(Get(d, Transitions, Arr([])));
    hide IsHealth, IsTransition, IsUpdate, IsError, HealthOf, TransitionOf, UpdateOf, ErrorOf, ParseOutcome,
         HealthResultsOf, TransitionsOf, UpdatesOf, DurationOk, CountersOk, RecoveryValuesOk;
  }

  /** Every accepted document, of either schema, decodes to a well-formed record. */
  lemma DecodedIsWellFormed(doc: Json)
    requires FromDict(doc).Success?
    ensures WellFormed(FromDict(doc).value)
  {
    var d := if doc.fields[Schema_version].n == 1 then MigrateV1(doc.fields) else doc.fields;
    MigrationKeepsSchema(doc.fields);
    hide SchemaOk, WellFormed, Build, MigrateV1;
    BuiltIsWellFormed(d, ParseState(d[State_].s).value);
  }

  /** Decoding, encoding and decoding again is decoding: what is accepted once is accepted for good. */
  lemma DecodeIsStable(doc: Json)
    requires FromDict(doc).Success?
    ensures FromDict(Obj(ToDict(FromDict(doc).value))) == FromDict(doc)
  {
    DecodedIsWellFormed(doc);
    hide FromDict, WellFormed, ToDict;
    RoundTrip(FromDict(doc).value);
  }

  /** What the validators refuse, they refuse migrated too. */
  lemma MigrationReflectsSchema(d: Dict)
    requires SchemaOk(MigrateV1(d))
    ensures SchemaOk(d)
  {
    var m := MigrateV1(d);
    assert forall k | k !in MIGRATED :: SameAt(m, d, k);
    MigrationKeepsBasics(m, d);
    MigrationKeepsValues(m, d);
    MigrationKeepsRecords(m, d);
  }

  /** Schema 1 is accepted, refused and read as its migration to schema 2. */
  lemma MigrationIsDecoding(doc: Json)
    requires doc.Obj? && Schema_version in doc.fields && doc.fields[Schema_version] == Int(1)
    ensures FromDict(Obj(MigrateV1(doc.fields))) == FromDict(doc)
  {
    if SchemaOk(doc.fields) {
      MigrationKeepsSchema(doc.fields);
    } else if SchemaOk(MigrateV1(doc.fields)) {
      MigrationReflectsSchema(doc.fields);
    }
    hide SchemaOk, Build;
  }

  /** Migration invents no boot proof and no finished reboot-first phase. */
  lemma MigrationInventsNoProof(doc: Json)
    requires FromDict(doc).Success? && doc.fields[Schema_version] == Int(1)
    ensures var c := FromDict(doc).value;
      && (c.bootIdAfter.Some? ==> Boot_id_after in doc.fields && doc.fields[Boot_id_after] == Str(c.bootIdAfter.value))
      && (c.rebootBeforeUpdates ==>
            Reboot_before_updates in doc.fields && doc.fields[Reboot_before_updates] == Bool(true))
      && (c.initialRebootCompleted ==>
            Initial_reboot_completed in doc.fields && doc.fields[Initial_reboot_completed] == Bool(true))
      && c.schemaVersion == SCHEMA_VERSION
  {
    hide NestedRecordsOk, CountersOk, HealthResultsOf, TransitionsOf, UpdatesOf, StrArrayOf, StrMapOf, ErrorOf,
         ParseOutcome, ParseState, StateName, OutcomeName, IsStrMap, IsStrArray;
    MigrationKeepsSchema(doc.fields);
  }

  /** The least document that names a run, as far as its creation does. */
  function Bare(runId: string, hostname: string, startedAt: string, provider: string): Dict {
    map[Schema_version := Int(SCHEMA_VERSION), Run_id := Str(runId), State_ := Str(StateName(IDLE)),
        Host := Obj(map[Hostname := Str(hostname)]), Started_at := Str(startedAt), Provider := Str(provider)]
  }

  lemma BareBasics(runId: string, hostname: string, startedAt: string, provider: string)
    requires ValidRunId(runId)
    ensures var d := Bare(runId, hostname, startedAt, provider); BasicsOk(d) && CountersOk(d)
  {
    hide ValidRunId, StateName;
  }

  lemma BareValues(runId: string, hostname: string, startedAt: string, provider: string)
    ensures var d := Bare(runId, hostname, startedAt, provider); RecoveryValuesOk(d) && NestedRecordsOk(d)
  {
    hide StateName;
  }

  lemma BareSchema(runId: string, hostname: string, startedAt: string, provider: string)
    requires ValidRunId(runId)
    ensures SchemaOk(Bare(runId, hostname, startedAt, provider))
  {
    BareBasics(runId, hostname, startedAt, provider);
    BareValues(runId, hostname, startedAt, provider);
    hide BasicsOk, CountersOk, RecoveryValuesOk, NestedRecordsOk, Bare;
  }

  ghost predicate OnlyNames(d: Dict, runId: string, hostname: string, startedAt: string, provider: string) {
    && (forall k | k in d :: k in {Schema_version, Run_id, State_, Host, Started_at, Provider})
    && Run_id in d && d[Run_id] == Str(runId) && Host in d && d[Host] == Obj(map[Hostname := Str(hostname)])
    && Started_at in d && d[Started_at] == Str(startedAt) && Provider in d && d[Provider] == Str(provider)
  }

  lemma BareBuild(d: Dict, runId: string, hostname: string, startedAt: string, provider: string)
    requires SchemaOk(d) && OnlyNames(d, runId, hostname, startedAt, provider)
    ensures Same(Build(d, IDLE), NewCycle(runId, hostname, startedAt, provider))
  {
    hide SchemaOk, StateName;
    var b := Build(d, IDLE);
    assert b.os == map[] == b.notificationStatus && b.updatesAvailable == [] && b.healthResults == [];
    assert b.transitions == [] && b.rebootReasons == [] == b.warnings;
  }

  /** A new cycle is what a document without anything else decodes to: both have the same defaults. */
  lemma NewCycleIsDefault(runId: string, hostname: string, startedAt: string, provider: string)
    requires ValidRunId(runId)
    ensures FromDict(Obj(Bare(runId, hostname, startedAt, provider))) ==
      Success(NewCycle(runId, hostname, startedAt, provider))
  {
    BareSchema(runId, hostname, startedAt, provider);
    BareBuild(Bare(runId, hostname, startedAt, provider), runId, hostname, startedAt, provider);
    hide ValidRunId, SchemaOk, Build, NewCycle, MigrateV1;
  }
}
