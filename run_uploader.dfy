/** The run uploader of the common result upload: it fills a run's property map
    from the entities it belongs to, applies the version policy, and creates the
    run through the REST service, with a separate status update when the run
    carries a status. */
module RunUpload {
  import opened Java
  import Base64

  const RUN_PREFIX: string := "runs"
  const RUN_VERSION_MAP_NAME: string := "udf|Run On Version"
  const VC_VERSION_NUMBER: string := "vc-version-number"
  /** The key under which the policy reads a test's subtype. */
  const TEST_SUBTYPE_ID: string := "subtype-id"

  // Field names of the ALM entity schema and of the upload parameters.
  const ID: string := "id"
  const OWNER: string := "owner"
  const NAME: string := "name"
  const RUN_CONFIG_ID: string := "test-config-id"
  const RUN_CYCLE_ID: string := "cycle-id"
  const RUN_TEST_ID: string := "test-id"
  const RUN_TESTCYCL_UNIQUE_ID: string := "testcycl-id"
  const RUN_DURATION: string := "duration"
  const RUN_SUBTYPE_ID: string := "subtype-id"
  const RUN_DETAIL: string := "detail"
  const RUN_STATUS: string := "status"
  const TEST_INSTANCE_SUBTYPE_ID: string := "subtype-id"
  const ACTUAL_USER: string := "actualUser"

  /** The run fields that upload always writes before the policy runs. */
  const WRITTEN_FIELDS: set<string> :=
    {RUN_CONFIG_ID, RUN_CYCLE_ID, RUN_TEST_ID, RUN_TESTCYCL_UNIQUE_ID, OWNER, NAME, RUN_DURATION, RUN_SUBTYPE_ID}

  /** What the uploader is built with besides its REST service: the upload parameters,
      the optional run-status table, and the answers of the customization service and
      of the platform routines the source does not show. */
  datatype UploadSettings = UploadSettings(
    params: JMap,
    runStatusMapping: Option<JMap>,
    /** TestUploader.NO_VERSION_TESTS, in its iteration order. */
    noVersionTests: seq<string>,
    /** customizationService.isVersioningEnabled(TEST_ENTITY_NAME). */
    versioningEnabled: bool,
    /** customizationService.getRunSubtypeIdByTestInstance. */
    runSubtypeIdByTestInstance: Value -> Value,
    /** Float.valueOf followed by truncation toward zero; None where it throws NumberFormatException. */
    parseFloat: string -> Option<int>,
    /** String.getBytes in the platform charset. */
    getBytes: string -> seq<Base64.byte>,
    /** IAlmConsts.IStatuses.NO_RUN.value(). */
    noRunStatus: string)

  // ---------------------------------------------------------------------
  // The pure conversions
  // ---------------------------------------------------------------------

  /** convertDuration: a whole number of seconds as Java prints an int, "0" when the
      duration is missing, empty or not a number. */
  function ConvertDuration(duration: Value, parseFloat: string -> Option<int>): (r: string)
    ensures IsEmpty(duration) ==> r == "0"
    ensures IsNotEmpty(duration) && parseFloat(duration.value).None? ==> r == "0"
    ensures IsNotEmpty(duration) && parseFloat(duration.value).Some? ==>
              ParseInt(r) == Some(SaturateToInt32(parseFloat(duration.value).value))
    ensures ParseInt(r).Some?
    ensures r == IntToString(ParseInt(r).value)
  {
    ParseIntOfIntToString(0);
    if IsNotEmpty(duration) then
      match parseFloat(duration.value)
      case None => IntToString(0)
      case Some(f) =>
        var seconds := SaturateToInt32(f);
        ParseIntOfIntToString(seconds);
        IntToString(seconds)
    else
      IntToString(0)
  }

  /** convertDetail: a non-empty detail becomes the Base 64 text of its bytes, which
      decodes back to them; a missing or empty detail is returned as it is. A text that
      decodes is the encoding of its bytes (Base64.EncodeDecode), so the result is the one
      Base 64 text of those bytes. */
  function ConvertDetail(detail: Value, getBytes: string -> seq<Base64.byte>): (r: Value)
    ensures IsEmpty(detail) ==> r == detail
    ensures IsNotEmpty(detail) ==> r.Some? && Base64.Decode(r.value) == Some(getBytes(detail.value))
  {
    if IsNotEmpty(detail) then
      var bytes := getBytes(detail.value);
      Base64.DecodeEncode(bytes);
      Some(Base64.Encode(bytes))
    else
      detail
  }

  /** getRunStatus: NO_RUN for an empty status; otherwise the status's entry in the
      mapping table when there is a table and a non-null entry, else the status itself. */
  function GetRunStatus(status: Value, mapping: Option<JMap>, noRun: string): (r: string)
    ensures IsEmpty(status) ==> r == noRun
    ensures IsNotEmpty(status) && mapping.Some? && Get(mapping.value, status.value).Some? ==>
              r == mapping.value[status.value].value
    ensures IsNotEmpty(status) && (mapping.None? || Get(mapping.value, status.value).None?) ==>
              r == status.value
  {
    if IsEmpty(status) then noRun
    else if mapping.Some? then
      match Get(mapping.value, status.value)
      case Some(realStatus) => realStatus
      case None => status.value
    else status.value
  }

  /** A non-empty status never maps to an empty one when the table holds no empty entry. */
  lemma RunStatusNonEmpty(status: Value, mapping: Option<JMap>, noRun: string)
    requires IsNotEmpty(status)
    requires mapping.Some? ==> forall k :: k in mapping.value ==> mapping.value[k] != Some("")
    ensures |GetRunStatus(status, mapping, noRun)| > 0
  {
    if mapping.Some? && status.value in mapping.value {
      assert mapping.value[status.value] != Some("");
    }
  }

  // ---------------------------------------------------------------------
  // The run mapping and the version policy as functions of their inputs
  // ---------------------------------------------------------------------

  const RELATION_FIELDS: set<string> := {RUN_CONFIG_ID, RUN_CYCLE_ID, RUN_TEST_ID, RUN_TESTCYCL_UNIQUE_ID}
  const CALCULATED_FIELDS: set<string> := {OWNER, NAME, RUN_DURATION, RUN_SUBTYPE_ID}

  /** The two pairs of field names of equal length differ in their first letter. */
  lemma EqualLengthFieldsDiffer()
    ensures RUN_CYCLE_ID != RUN_DURATION && RUN_DETAIL != RUN_STATUS
  {
    assert RUN_CYCLE_ID[0] != RUN_DURATION[0];
    assert RUN_DETAIL[0] != RUN_STATUS[0];
  }

  /** Each step of upload writes fields that no other step touches. */
  lemma FieldsDisjoint()
    ensures RELATION_FIELDS !! CALCULATED_FIELDS
    ensures RUN_DETAIL !in WRITTEN_FIELDS && RUN_STATUS !in WRITTEN_FIELDS
    ensures RUN_VERSION_MAP_NAME !in WRITTEN_FIELDS && RUN_VERSION_MAP_NAME != RUN_DETAIL
    ensures RUN_STATUS != RUN_DETAIL && RUN_STATUS != RUN_VERSION_MAP_NAME
    ensures WRITTEN_FIELDS == RELATION_FIELDS + CALCULATED_FIELDS
  {
    EqualLengthFieldsDiffer();
  }

  /** The first step of upload: the run's foreign keys are the ids of its entities. */
  function SetRelations(run: JMap, testset: JMap, test: JMap, testconfig: JMap, testinstance: JMap): (r: JMap)
    ensures r.Keys == run.Keys + RELATION_FIELDS
    ensures r[RUN_CONFIG_ID] == Get(testconfig, ID)
    ensures r[RUN_CYCLE_ID] == Get(testset, ID)
    ensures r[RUN_TEST_ID] == Get(test, ID)
    ensures r[RUN_TESTCYCL_UNIQUE_ID] == Get(testinstance, ID)
    ensures forall k :: k in run && k !in RELATION_FIELDS ==> r[k] == run[k]
  {
    run[RUN_CONFIG_ID := Get(testconfig, ID)][RUN_CYCLE_ID := Get(testset, ID)]
       [RUN_TEST_ID := Get(test, ID)][RUN_TESTCYCL_UNIQUE_ID := Get(testinstance, ID)]
  }

  /** The second step: owner, name, the converted duration and the run subtype. */
  function SetCalculated(s: UploadSettings, run: JMap, testinstance: JMap, runName: string): (r: JMap)
    ensures r.Keys == run.Keys + CALCULATED_FIELDS
    ensures r[OWNER] == Get(s.params, ACTUAL_USER)
    ensures r[NAME] == Some(runName)
    ensures r[RUN_DURATION] == Some(ConvertDuration(Get(run, RUN_DURATION), s.parseFloat))
    ensures r[RUN_SUBTYPE_ID] == s.runSubtypeIdByTestInstance(Get(testinstance, TEST_INSTANCE_SUBTYPE_ID))
    ensures forall k :: k in run && k !in CALCULATED_FIELDS ==> r[k] == run[k]
  {
    var named := run[OWNER := Get(s.params, ACTUAL_USER)][NAME := Some(runName)];
    named[RUN_DURATION := Some(ConvertDuration(Get(named, RUN_DURATION), s.parseFloat))]
         [RUN_SUBTYPE_ID := s.runSubtypeIdByTestInstance(Get(testinstance, TEST_INSTANCE_SUBTYPE_ID))]
  }

  /** The third step: a non-empty detail is replaced by its encoding. */
  function SetDetail(s: UploadSettings, run: JMap): (r: JMap)
    ensures r.Keys == run.Keys
    ensures Get(r, RUN_DETAIL) == ConvertDetail(Get(run, RUN_DETAIL), s.getBytes)
    ensures forall k :: k in run && k != RUN_DETAIL ==> r[k] == run[k]
  {
    if IsNotEmpty(Get(run, RUN_DETAIL)) then run[RUN_DETAIL := ConvertDetail(Get(run, RUN_DETAIL), s.getBytes)]
    else run
  }

  /** The run after the relations, the calculated values and the detail are set. */
  function MappedRun(s: UploadSettings, testset: JMap, test: JMap, testconfig: JMap, testinstance: JMap,
                     run: JMap, runName: string): (r: JMap)
    ensures r.Keys == run.Keys + WRITTEN_FIELDS
    ensures r[RUN_CONFIG_ID] == Get(testconfig, ID)
    ensures r[RUN_CYCLE_ID] == Get(testset, ID)
    ensures r[RUN_TEST_ID] == Get(test, ID)
    ensures r[RUN_TESTCYCL_UNIQUE_ID] == Get(testinstance, ID)
    ensures r[OWNER] == Get(s.params, ACTUAL_USER)
    ensures r[NAME] == Some(runName)
    ensures r[RUN_DURATION] == Some(ConvertDuration(Get(run, RUN_DURATION), s.parseFloat))
    ensures r[RUN_SUBTYPE_ID] == s.runSubtypeIdByTestInstance(Get(testinstance, TEST_INSTANCE_SUBTYPE_ID))
    ensures Get(r, RUN_DETAIL) == ConvertDetail(Get(run, RUN_DETAIL), s.getBytes)
    ensures forall k :: k in run && k !in WRITTEN_FIELDS && k != RUN_DETAIL ==> r[k] == run[k]
  {
    FieldsDisjoint();
    var related := SetRelations(run, testset, test, testconfig, testinstance);
    var calculated := SetCalculated(s, related, testinstance, runName);
    assert Get(related, RUN_DURATION) == Get(run, RUN_DURATION);
    assert Get(calculated, RUN_DETAIL) == Get(run, RUN_DETAIL);
    SetDetail(s, calculated)
  }

  /** Upload does not fill in the status before the policy. */
  lemma MappedKeepsStatus(s: UploadSettings, testset: JMap, test: JMap, testconfig: JMap, testinstance: JMap,
                          run: JMap, runName: string)
    ensures Get(MappedRun(s, testset, test, testconfig, testinstance, run, runName), RUN_STATUS) == Get(run, RUN_STATUS)
  {
    FieldsDisjoint();
  }

  /** What shouldProceedVersionForRun answers, with the run as it leaves it. */
  datatype PolicyOutcome = PolicyOutcome(decision: Result<bool>, run: JMap)

  /** The versioning check applies: versioning is on, the run has the version field,
      and the test has a version number. */
  predicate VersionGateOpen(versioningEnabled: bool, test: JMap, run: JMap) {
    versioningEnabled && RUN_VERSION_MAP_NAME in run && IsNotEmpty(Get(test, VC_VERSION_NUMBER))
  }

  /** shouldProceedVersionForRun. Reading the subtype of a test that has none throws as
      soon as there is an exempt subtype to compare it with. */
  function VersionPolicy(noVersionTests: seq<string>, versioningEnabled: bool, test: JMap, run: JMap): PolicyOutcome
  {
    var subtype := Get(test, TEST_SUBTYPE_ID);
    if |noVersionTests| > 0 && subtype.None? then PolicyOutcome(Throw(NullPointerException), run)
    else if subtype.Some? && subtype.value in noVersionTests then PolicyOutcome(Return(true), run)
    else if !VersionGateOpen(versioningEnabled, test, run) then PolicyOutcome(Return(true), run)
    else if IsEmpty(Get(run, RUN_VERSION_MAP_NAME)) then
      PolicyOutcome(Return(true), run[RUN_VERSION_MAP_NAME := Get(test, VC_VERSION_NUMBER)])
    else
      var testLatestVersion := ParseInt(Get(test, VC_VERSION_NUMBER).value);
      var runVersion := ParseInt(Get(run, RUN_VERSION_MAP_NAME).value);
      if testLatestVersion.None? || runVersion.None? then PolicyOutcome(Return(false), run)
      else
        PolicyOutcome(Return(runVersion.value <= testLatestVersion.value),
                      if runVersion.value < 1 then run[RUN_VERSION_MAP_NAME := Some("1")] else run)
  }

  /** The policy changes nothing but the version field, and never adds or drops a key. */
  lemma PolicyOnlyTouchesVersion(noVersionTests: seq<string>, versioningEnabled: bool, test: JMap, run: JMap)
    ensures var p := VersionPolicy(noVersionTests, versioningEnabled, test, run);
            p.run.Keys == run.Keys && forall k :: k in run && k != RUN_VERSION_MAP_NAME ==> p.run[k] == run[k]
  {
  }

  lemma PolicyExempt(noVersionTests: seq<string>, versioningEnabled: bool, test: JMap, run: JMap)
    requires Get(test, TEST_SUBTYPE_ID).Some? && Get(test, TEST_SUBTYPE_ID).value in noVersionTests
    ensures VersionPolicy(noVersionTests, versioningEnabled, test, run) == PolicyOutcome(Return(true), run)
  {
  }

  /** A test without a subtype cannot be compared with the exempt list. */
  lemma PolicyThrowsWithoutSubtype(noVersionTests: seq<string>, versioningEnabled: bool, test: JMap, run: JMap)
    requires |noVersionTests| > 0 && Get(test, TEST_SUBTYPE_ID).None?
    ensures VersionPolicy(noVersionTests, versioningEnabled, test, run) == PolicyOutcome(Throw(NullPointerException), run)
  {
  }

  /** Versioning off, no version field in the run, or no version number in the test: proceed, run unchanged. */
  lemma PolicyGateClosed(noVersionTests: seq<string>, versioningEnabled: bool, test: JMap, run: JMap)
    requires |noVersionTests| == 0 || Get(test, TEST_SUBTYPE_ID).Some?
    requires !versioningEnabled || RUN_VERSION_MAP_NAME !in run || IsEmpty(Get(test, VC_VERSION_NUMBER))
    ensures VersionPolicy(noVersionTests, versioningEnabled, test, run) == PolicyOutcome(Return(true), run)
  {
  }

  /** Not exempt and no exception: the decision and the new run of the open gate. */
  predicate Checked(noVersionTests: seq<string>, versioningEnabled: bool, test: JMap, run: JMap) {
    var subtype := Get(test, TEST_SUBTYPE_ID);
    (|noVersionTests| == 0 || subtype.Some?)
    && !(subtype.Some? && subtype.value in noVersionTests)
    && VersionGateOpen(versioningEnabled, test, run)
  }

  lemma PolicyFillsEmptyVersion(noVersionTests: seq<string>, versioningEnabled: bool, test: JMap, run: JMap)
    requires Checked(noVersionTests, versioningEnabled, test, run)
    requires IsEmpty(Get(run, RUN_VERSION_MAP_NAME))
    ensures VersionPolicy(noVersionTests, versioningEnabled, test, run)
            == PolicyOutcome(Return(true), run[RUN_VERSION_MAP_NAME := Get(test, VC_VERSION_NUMBER)])
  {
  }

  lemma PolicyBlocksUnparsable(noVersionTests: seq<string>, versioningEnabled: bool, test: JMap, run: JMap)
    requires Checked(noVersionTests, versioningEnabled, test, run)
    requires IsNotEmpty(Get(run, RUN_VERSION_MAP_NAME))
    requires ParseInt(Get(test, VC_VERSION_NUMBER).value).None? || ParseInt(Get(run, RUN_VERSION_MAP_NAME).value).None?
    ensures VersionPolicy(noVersionTests, versioningEnabled, test, run) == PolicyOutcome(Return(false), run)
  {
  }

  /** With both versions readable: the run proceeds exactly when its version is not
      above the test's, and a version below 1 is raised to "1" whatever the decision. */
  lemma PolicyComparesVersions(noVersionTests: seq<string>, versioningEnabled: bool, test: JMap, run: JMap,
                               testVersion: int, runVersion: int)
    requires Checked(noVersionTests, versioningEnabled, test, run)
    requires IsNotEmpty(Get(run, RUN_VERSION_MAP_NAME))
    requires ParseInt(Get(test, VC_VERSION_NUMBER).value) == Some(testVersion)
    requires ParseInt(Get(run, RUN_VERSION_MAP_NAME).value) == Some(runVersion)
    ensures var p := VersionPolicy(noVersionTests, versioningEnabled, test, run);
            && (p.decision == Return(true) <==> runVersion <= testVersion)
            && p.decision.Return?
            && (runVersion < 1 ==> p.run == run[RUN_VERSION_MAP_NAME := Some("1")])
            && (runVersion >= 1 ==> p.run == run)
  {
  }

  /** A version of "0" is raised to "1" and proceeds while the test's version is readable and not negative. */
  lemma PolicyClampsZero(noVersionTests: seq<string>, versioningEnabled: bool, test: JMap, run: JMap, testVersion: int)
    requires Checked(noVersionTests, versioningEnabled, test, run)
    requires Get(run, RUN_VERSION_MAP_NAME) == Some("0")
    requires ParseInt(Get(test, VC_VERSION_NUMBER).value) == Some(testVersion) && testVersion >= 0
    ensures VersionPolicy(noVersionTests, versioningEnabled, test, run)
            == PolicyOutcome(Return(true), run[RUN_VERSION_MAP_NAME := Some("1")])
  {
    assert "0" == IntToString(0);
    ParseIntOfIntToString(0);
    PolicyComparesVersions(noVersionTests, versioningEnabled, test, run, testVersion, 0);
  }

  /** The raise to "1" does not depend on the decision: a test at version -1 and a run at
      version 0 are both blocked and raised. */
  lemma PolicyBlocksAndClamps()
    ensures var test := map[TEST_SUBTYPE_ID := Some("MANUAL"), VC_VERSION_NUMBER := Some("-1")];
            var run := map[RUN_VERSION_MAP_NAME := Some("0")];
            VersionPolicy([], true, test, run) == PolicyOutcome(Return(false), map[RUN_VERSION_MAP_NAME := Some("1")])
  {
    var test := map[TEST_SUBTYPE_ID := Some("MANUAL"), VC_VERSION_NUMBER := Some("-1")];
    var run := map[RUN_VERSION_MAP_NAME := Some("0")];
    assert "0" == IntToString(0);
    assert "-1" == IntToString(-1);
    ParseIntOfIntToString(0);
    ParseIntOfIntToString(-1);
    PolicyComparesVersions([], true, test, run, -1, 0);
  }

  /** Whenever the gate was open on a non-empty version and the run proceeds, the version
      it is uploaded with reads as an int no greater than the larger of the test's version and 1. */
  lemma PolicyBoundsUploadedVersion(noVersionTests: seq<string>, versioningEnabled: bool, test: JMap, run: JMap)
    requires Checked(noVersionTests, versioningEnabled, test, run)
    requires IsNotEmpty(Get(run, RUN_VERSION_MAP_NAME))
    requires VersionPolicy(noVersionTests, versioningEnabled, test, run).decision == Return(true)
    ensures var p := VersionPolicy(noVersionTests, versioningEnabled, test, run);
            var testVersion := ParseInt(Get(test, VC_VERSION_NUMBER).value);
            var uploaded := ParseInt(Get(p.run, RUN_VERSION_MAP_NAME).value);
            && testVersion.Some? && uploaded.Some?
            && (uploaded.value <= testVersion.value || uploaded.value == 1)
  {
    var testVersion := ParseInt(Get(test, VC_VERSION_NUMBER).value);
    var runVersion := ParseInt(Get(run, RUN_VERSION_MAP_NAME).value);
    assert testVersion.Some? && runVersion.Some?;
    if runVersion.value < 1 {
      assert "1" == IntToString(1);
      ParseIntOfIntToString(1);
    }
  }

  // ---------------------------------------------------------------------
  // The upload as a function of its inputs
  // ---------------------------------------------------------------------

  datatype RestCall = CreateCall(prefix: string, entity: JMap) | UpdateCall(prefix: string, entity: JMap)

  /** What upload leaves behind: the caller's run map, the REST calls issued in order,
      and how the method completed. */
  datatype UploadEffect = UploadEffect(run: JMap, calls: seq<RestCall>, completion: Completion)

  /** upload; `created` is what the REST service answers to the create. */
  function UploadEffects(s: UploadSettings, testset: JMap, test: JMap, testconfig: JMap, testinstance: JMap,
                  run: JMap, runName: string, created: JMap): UploadEffect
  {
    var mapped := MappedRun(s, testset, test, testconfig, testinstance, run, runName);
    var policy := VersionPolicy(s.noVersionTests, s.versioningEnabled, test, mapped);
    match policy.decision
    case Throw(e) => UploadEffect(policy.run, [], Abrupt(e))
    case Return(proceed) =>
      if !proceed then UploadEffect(policy.run, [], Normal)
      else CreateEffects(s, policy.run, created)
  }

  /** The creation of a run that may proceed: a status is held back from the create and
      set by an update of the new run. */
  function CreateEffects(s: UploadSettings, run: JMap, created: JMap): UploadEffect
  {
    if IsNotEmpty(Get(run, RUN_STATUS)) then
      var runstatus := GetRunStatus(Get(run, RUN_STATUS), s.runStatusMapping, s.noRunStatus);
      var withoutStatus := run - {RUN_STATUS};
      UploadEffect(withoutStatus,
                   [CreateCall(RUN_PREFIX, withoutStatus),
                    UpdateCall(RUN_PREFIX, map[ID := Get(created, ID), RUN_STATUS := Some(runstatus)])],
                   Normal)
    else
      UploadEffect(run, [CreateCall(RUN_PREFIX, run)], Normal)
  }

  /** In every outcome the run holds the relations to its test configuration, test set,
      test and test instance, and the owner, name, duration and subtype. */
  lemma UploadSetsRelations(s: UploadSettings, testset: JMap, test: JMap, testconfig: JMap, testinstance: JMap,
                            run: JMap, runName: string, created: JMap)
    ensures var r := UploadEffects(s, testset, test, testconfig, testinstance, run, runName, created).run;
            && Get(r, RUN_CONFIG_ID) == Get(testconfig, ID)
            && Get(r, RUN_CYCLE_ID) == Get(testset, ID)
            && Get(r, RUN_TEST_ID) == Get(test, ID)
            && Get(r, RUN_TESTCYCL_UNIQUE_ID) == Get(testinstance, ID)
            && Get(r, OWNER) == Get(s.params, ACTUAL_USER)
            && Get(r, NAME) == Some(runName)
            && Get(r, RUN_DURATION) == Some(ConvertDuration(Get(run, RUN_DURATION), s.parseFloat))
            && Get(r, RUN_SUBTYPE_ID) == s.runSubtypeIdByTestInstance(Get(testinstance, TEST_INSTANCE_SUBTYPE_ID))
            && Get(r, RUN_DETAIL) == ConvertDetail(Get(run, RUN_DETAIL), s.getBytes)
  {
    var mapped := MappedRun(s, testset, test, testconfig, testinstance, run, runName);
    var r := UploadEffects(s, testset, test, testconfig, testinstance, run, runName, created).run;
    UploadRunAgrees(s, testset, test, testconfig, testinstance, run, runName, created);
    KeptFields(mapped, r);
  }

  /** The run upload leaves differs from the mapped run at most in the version and the status. */
  lemma UploadRunAgrees(s: UploadSettings, testset: JMap, test: JMap, testconfig: JMap, testinstance: JMap,
                        run: JMap, runName: string, created: JMap)
    ensures var mapped := MappedRun(s, testset, test, testconfig, testinstance, run, runName);
            var r := UploadEffects(s, testset, test, testconfig, testinstance, run, runName, created).run;
            forall k :: k != RUN_VERSION_MAP_NAME && k != RUN_STATUS ==> Get(r, k) == Get(mapped, k)
  {
    var mapped := MappedRun(s, testset, test, testconfig, testinstance, run, runName);
    var policy := VersionPolicy(s.noVersionTests, s.versioningEnabled, test, mapped);
    PolicyOnlyTouchesVersion(s.noVersionTests, s.versioningEnabled, test, mapped);
    var r := UploadEffects(s, testset, test, testconfig, testinstance, run, runName, created).run;
    assert r == policy.run || r == policy.run - {RUN_STATUS};
  }

  /** The fields upload writes before the policy, as read back from a later map that
      agrees with it everywhere but on the version and the status. */
  lemma KeptFields(mapped: JMap, r: JMap)
    requires forall k :: k != RUN_VERSION_MAP_NAME && k != RUN_STATUS ==> Get(r, k) == Get(mapped, k)
    ensures forall k :: k in WRITTEN_FIELDS + {RUN_DETAIL} ==> Get(r, k) == Get(mapped, k)
  {
    FieldsDisjoint();
  }

  /** A blocked or failed policy issues no REST call, though the run map is already filled. */
  lemma UploadBlockedMakesNoCalls(s: UploadSettings, testset: JMap, test: JMap, testconfig: JMap, testinstance: JMap,
                                  run: JMap, runName: string, created: JMap)
    requires var mapped := MappedRun(s, testset, test, testconfig, testinstance, run, runName);
             VersionPolicy(s.noVersionTests, s.versioningEnabled, test, mapped).decision != Return(true)
    ensures var u := UploadEffects(s, testset, test, testconfig, testinstance, run, runName, created);
            u.calls == [] && u.run.Keys == run.Keys + WRITTEN_FIELDS
  {
    var mapped := MappedRun(s, testset, test, testconfig, testinstance, run, runName);
    PolicyOnlyTouchesVersion(s.noVersionTests, s.versioningEnabled, test, mapped);
  }

  /** A run with a status is created without it, then updated with nothing but the new
      run's id and the mapped status. */
  lemma CreateWithStatus(s: UploadSettings, run: JMap, created: JMap)
    requires IsNotEmpty(Get(run, RUN_STATUS))
    ensures var e := CreateEffects(s, run, created);
            && e.completion == Normal
            && e.run == run - {RUN_STATUS}
            && e.calls == [CreateCall(RUN_PREFIX, e.run), UpdateCall(RUN_PREFIX, e.calls[1].entity)]
            && e.calls[1].entity.Keys == {ID, RUN_STATUS}
            && e.calls[1].entity[ID] == Get(created, ID)
            && e.calls[1].entity[RUN_STATUS] == Some(GetRunStatus(Get(run, RUN_STATUS), s.runStatusMapping, s.noRunStatus))
  {
    FieldsDisjoint();
    assert ID != RUN_STATUS;
  }

  /** Upload of a proceeding run with a status: the create carries everything but the status. */
  lemma UploadWithStatus(s: UploadSettings, testset: JMap, test: JMap, testconfig: JMap, testinstance: JMap,
                         run: JMap, runName: string, created: JMap)
    requires var mapped := MappedRun(s, testset, test, testconfig, testinstance, run, runName);
             VersionPolicy(s.noVersionTests, s.versioningEnabled, test, mapped).decision == Return(true)
    requires IsNotEmpty(Get(run, RUN_STATUS))
    ensures var u := UploadEffects(s, testset, test, testconfig, testinstance, run, runName, created);
            var mapped := MappedRun(s, testset, test, testconfig, testinstance, run, runName);
            && u == CreateEffects(s, VersionPolicy(s.noVersionTests, s.versioningEnabled, test, mapped).run, created)
            && IsNotEmpty(Get(VersionPolicy(s.noVersionTests, s.versioningEnabled, test, mapped).run, RUN_STATUS))
            && Get(VersionPolicy(s.noVersionTests, s.versioningEnabled, test, mapped).run, RUN_STATUS) == Get(run, RUN_STATUS)
  {
    var mapped := MappedRun(s, testset, test, testconfig, testinstance, run, runName);
    PolicyOnlyTouchesVersion(s.noVersionTests, s.versioningEnabled, test, mapped);
    MappedKeepsStatus(s, testset, test, testconfig, testinstance, run, runName);
    FieldsDisjoint();
  }

  /** A run without a status is created once, with every field it has. */
  lemma UploadWithoutStatus(s: UploadSettings, testset: JMap, test: JMap, testconfig: JMap, testinstance: JMap,
                            run: JMap, runName: string, created: JMap)
    requires var mapped := MappedRun(s, testset, test, testconfig, testinstance, run, runName);
             VersionPolicy(s.noVersionTests, s.versioningEnabled, test, mapped).decision == Return(true)
    requires IsEmpty(Get(run, RUN_STATUS))
    ensures var u := UploadEffects(s, testset, test, testconfig, testinstance, run, runName, created);
            var mapped := MappedRun(s, testset, test, testconfig, testinstance, run, runName);
            && u.completion == Normal
            && u.calls == [CreateCall(RUN_PREFIX, u.run)]
            && u.run == VersionPolicy(s.noVersionTests, s.versioningEnabled, test, mapped).run
  {
    var mapped := MappedRun(s, testset, test, testconfig, testinstance, run, runName);
    PolicyOnlyTouchesVersion(s.noVersionTests, s.versioningEnabled, test, mapped);
    MappedKeepsStatus(s, testset, test, testconfig, testinstance, run, runName);
  }

  // ---------------------------------------------------------------------
  // The objects: the caller's map, the REST service, the uploader
  // ---------------------------------------------------------------------

  /** A java.util.Map<String, String> that upload changes in place. */
  class PropertyMap {
    var entries: JMap

    constructor (initial: JMap)
      ensures entries == initial
    {
      entries := initial;
    }

    function Get(key: string): Value
      reads this
    {
      Java.Get(entries, key)
    }

    predicate ContainsKey(key: string)
      reads this
    {
      key in entries
    }

    method Put(key: string, value: Value)
      modifies this
      ensures entries == old(entries)[key := value]
    {
      entries := entries[key := value];
    }

    method Remove(key: string)
      modifies this
      ensures entries == old(entries) - {key}
    {
      entries := entries - {key};
    }
  }

  /** The REST service, as the log of the calls made to it; `createdEntity` is the entity
      the server sends back for a create. */
  class RestService {
    var calls: seq<RestCall>
    const createdEntity: JMap

    constructor (created: JMap)
      ensures calls == [] && createdEntity == created
    {
      calls := [];
      createdEntity := created;
    }

    method Create(prefix: string, entity: JMap) returns (created: JMap)
      modifies this
      ensures calls == old(calls) + [CreateCall(prefix, entity)]
      ensures created == createdEntity
    {
      calls := calls + [CreateCall(prefix, entity)];
      created := createdEntity;
    }

    method Update(prefix: string, entity: JMap)
      modifies this
      ensures calls == old(calls) + [UpdateCall(prefix, entity)]
    {
      calls := calls + [UpdateCall(prefix, entity)];
    }
  }

  class RunUploader {
    const settings: UploadSettings
    const restService: RestService

    constructor (settings: UploadSettings, restService: RestService)
      ensures this.settings == settings && this.restService == restService
    {
      this.settings := settings;
      this.restService := restService;
    }

    /** shouldProceedVersionForRun: the exempt list is searched first, then the version
        gate may rewrite the run's version field. */
    method ShouldProceedVersionForRun(test: JMap, run: PropertyMap) returns (r: Result<bool>)
      modifies run
      ensures var p := VersionPolicy(settings.noVersionTests, settings.versioningEnabled, test, old(run.entries));
              r == p.decision && run.entries == p.run
    {
      var subtype := Get(test, TEST_SUBTYPE_ID);
      for i := 0 to |settings.noVersionTests|
        invariant run.entries == old(run.entries)
        invariant forall j :: 0 <= j < i ==> subtype != Some(settings.noVersionTests[j])
        invariant i > 0 ==> subtype.Some?
      {
        if subtype.None? {
          return Throw(NullPointerException);
        }
        if subtype.value == settings.noVersionTests[i] {
          return Return(true);
        }
      }
      var shouldProceed := true;
      if settings.versioningEnabled && run.ContainsKey(RUN_VERSION_MAP_NAME) && IsNotEmpty(Get(test, VC_VERSION_NUMBER)) {
        if IsEmpty(run.Get(RUN_VERSION_MAP_NAME)) {
          run.Put(RUN_VERSION_MAP_NAME, Get(test, VC_VERSION_NUMBER));
        } else {
          var testLatestVersion := ParseInt(Get(test, VC_VERSION_NUMBER).value);
          var runVersion := ParseInt(run.Get(RUN_VERSION_MAP_NAME).value);
          if testLatestVersion.None? || runVersion.None? {
            shouldProceed := false;
          } else {
            if runVersion.value > testLatestVersion.value {
              shouldProceed := false;
            }
            if runVersion.value < 1 {
              run.Put(RUN_VERSION_MAP_NAME, Some("1"));
            }
          }
        }
      }
      return Return(shouldProceed);
    }

    /** upload: fills `run` in place, then creates it through the REST service unless
        the version policy blocks it or throws. */
    method Upload(testset: JMap, test: JMap, testconfig: JMap, testinstance: JMap, run: PropertyMap, runName: string)
      returns (outcome: Completion)
      modifies run, restService
      ensures var u := UploadEffects(settings, testset, test, testconfig, testinstance, old(run.entries), runName,
                                     restService.createdEntity);
              && run.entries == u.run
              && restService.calls == old(restService.calls) + u.calls
              && outcome == u.completion
    {
      FillRun(testset, test, testconfig, testinstance, run, runName);
      var proceed := ShouldProceedVersionForRun(test, run);
      if proceed.Throw? {
        return Abrupt(proceed.e);
      }
      if !proceed.value {
        return Normal;
      }
      CreateRun(run);
      return Normal;
    }

    /** The first part of upload: relations, calculated values and the detail, in place. */
    method FillRun(testset: JMap, test: JMap, testconfig: JMap, testinstance: JMap, run: PropertyMap, runName: string)
      modifies run
      ensures run.entries == MappedRun(settings, testset, test, testconfig, testinstance, old(run.entries), runName)
    {
      // Set relations
      run.Put(RUN_CONFIG_ID, Get(testconfig, ID));
      run.Put(RUN_CYCLE_ID, Get(testset, ID));
      run.Put(RUN_TEST_ID, Get(test, ID));
      run.Put(RUN_TESTCYCL_UNIQUE_ID, Get(testinstance, ID));
      ghost var related := run.entries;
      assert related == SetRelations(old(run.entries), testset, test, testconfig, testinstance);
      // Set calculated values
      run.Put(OWNER, Get(settings.params, ACTUAL_USER));
      run.Put(NAME, Some(runName));
      run.Put(RUN_DURATION, Some(ConvertDuration(run.Get(RUN_DURATION), settings.parseFloat)));
      run.Put(RUN_SUBTYPE_ID, settings.runSubtypeIdByTestInstance(Get(testinstance, TEST_INSTANCE_SUBTYPE_ID)));
      ghost var calculated := run.entries;
      assert calculated == SetCalculated(settings, related, testinstance, runName);
      // Set values for external test
      if IsNotEmpty(run.Get(RUN_DETAIL)) {
        run.Put(RUN_DETAIL, ConvertDetail(run.Get(RUN_DETAIL), settings.getBytes));
      }
    }

    /** The last part of upload, for a run that may proceed. */
    method CreateRun(run: PropertyMap)
      modifies run, restService
      ensures var e := CreateEffects(settings, old(run.entries), restService.createdEntity);
              run.entries == e.run && restService.calls == old(restService.calls) + e.calls
    {
      if IsNotEmpty(run.Get(RUN_STATUS)) {
        var runstatus := GetRunStatus(run.Get(RUN_STATUS), settings.runStatusMapping, settings.noRunStatus);
        // Create a run without status
        run.Remove(RUN_STATUS);
        var createdRun := restService.Create(RUN_PREFIX, run.entries);
        // Update status of the run
        var updateRun := new PropertyMap(map[]);
        updateRun.Put(ID, Get(createdRun, ID));
        updateRun.Put(RUN_STATUS, Some(runstatus));
        restService.Update(RUN_PREFIX, updateRun.entries);
      } else {
        var _ := restService.Create(RUN_PREFIX, run.entries);
      }
    }
  }
}
