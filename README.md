# A model of three decision procedures of the ALM / Octane Jenkins plugins

This Dafny project models three small pieces of the plugins and proves what they do.

- **The run uploader** of the common result upload (`RunUploader`, module `RunUpload`, file `run_uploader.dfy`).
  - `upload` fills the caller's run property map in place: the foreign keys of the run's test configuration, test set, test and test instance; the owner, the name, the duration and the subtype; and the Base 64 form of the detail.
  - It then applies the version policy (`shouldProceedVersionForRun`), which may rewrite the run's "Run On Version" field.
  - Finally it creates the run through the REST service. A run with a status is created without it and then gets a separate update carrying only the new run's id and the mapped status.
  - The map is a class holding a `map` field (`PropertyMap`), and the REST service is a log of the calls made to it (`RestService`).
  - Each method is proved against a function of the old state: `MappedRun`, `VersionPolicy`, `UploadEffects`, `CreateEffects`. Lemmas then state the promised properties about those functions.
- **The UI-location parser and the connection check** of the Octane configuration service (module `ConfigurationService`, file `configuration_service.dfy`).
  - The parser cuts the server location out of a UI address and takes the shared space from the first `p` query parameter.
  - Every failure is a red markup with its own message; a successful check is a green one.
  - Markup is proved to be readable back, so different messages give different validations.
- **The tests-to-run converter build step** (module `TestsToRunConverter`, file `tests_to_run_converter.dfy`).
  - It covers the argument checks of the "test convert" button and the decision logic of `perform`: which parameters it reads, the executing directory, the skip rules, the action it adds to the build, and the failure path.
  - The build is a class with its actions and result. The converter library is a parameter.

Two supporting modules:

- `java.dfy` (module `Java`) holds the platform pieces the core relies on:
  - Java `null` (a `Value` is an `Option<string>`, and a `JMap` is a HashMap whose values may be null);
  - `StringUtils.isEmpty` and `String.indexOf`;
  - `Integer.parseInt` and `String.valueOf(int)`, with their round trip;
  - the exceptions the core throws or catches.
- `base64.dfy` (module `Base64`) holds the encoding of section 4 of RFC 4648, with the decoder and the round trip.

One behaviour of the version policy is worth knowing. A run at version 0 is raised to "1" whatever the decision. With a test at version 0, that run therefore proceeds and is uploaded at version 1, above the test's version (`PolicyClampsZero`, `PolicyBoundsUploadedVersion`).

## Model

| member | source | states |
|---|---|---|
| `RunUpload.ConvertDuration` | src/main/java/com/microfocus/application/automation/tools/commonResultUpload/uploader/RunUploader.java:112-124 | "0" when the duration is null, empty or not a number; otherwise the text reads back through parseInt as the parsed value narrowed to int; the result always parses as an int, and is exactly the text String.valueOf prints for that int, without a sign or leading zeros parseInt would also accept |
| `RunUpload.ConvertDetail` | src/main/java/com/microfocus/application/automation/tools/commonResultUpload/uploader/RunUploader.java:105-110 | a null or empty detail is returned as it is; a non-empty one becomes a Base 64 text whose decoding is the detail's bytes, which by Base64.EncodeDecode is the only text that decodes to them |
| `Base64.DecodeEncode` | src/main/java/com/microfocus/application/automation/tools/commonResultUpload/uploader/RunUploader.java:107 | decoding the Base 64 encoding of any byte string gives back those bytes |
| `Base64.EncodeDecode` | src/main/java/com/microfocus/application/automation/tools/commonResultUpload/uploader/RunUploader.java:107 | a text that decodes is the encoding of its bytes; the decoder rejects padded quanta with non-zero unused bits, as section 3.5 of RFC 4648 allows |
| `RunUpload.GetRunStatus` | src/main/java/com/microfocus/application/automation/tools/commonResultUpload/uploader/RunUploader.java:140-151 | NO_RUN for an empty status; with a table and a non-null entry, the entry; otherwise the status unchanged |
| `RunUpload.RunStatusNonEmpty` | src/main/java/com/microfocus/application/automation/tools/commonResultUpload/uploader/RunUploader.java:140-151 | a non-empty status maps to a non-empty one when the table has no empty entry |
| `RunUpload.SetRelations` | src/main/java/com/microfocus/application/automation/tools/commonResultUpload/uploader/RunUploader.java:67-71 | config-id, cycle-id, test-id and testcycl-id of the run are the ids of test configuration, test set, test and test instance; the keys grow by these four; every other field is kept |
| `RunUpload.SetCalculated` | src/main/java/com/microfocus/application/automation/tools/commonResultUpload/uploader/RunUploader.java:72-78 | owner is the actual-user parameter, name the run name, duration its conversion, subtype the customization service's answer; every other field is kept |
| `RunUpload.SetDetail` | src/main/java/com/microfocus/application/automation/tools/commonResultUpload/uploader/RunUploader.java:79-82 | only the detail changes, to its conversion; no key is added |
| `RunUpload.MappedRun` | src/main/java/com/microfocus/application/automation/tools/commonResultUpload/uploader/RunUploader.java:67-82 | after the three steps the run has all eight written fields with their values stated in terms of the inputs, its detail converted, and every other field as before |
| `RunUpload.MappedKeepsStatus` | src/main/java/com/microfocus/application/automation/tools/commonResultUpload/uploader/RunUploader.java:67-89 | the filling leaves the status field as the caller gave it |
| `RunUpload.VersionPolicy` | src/main/java/com/microfocus/application/automation/tools/commonResultUpload/uploader/RunUploader.java:163-199 | the decision and the run as shouldProceedVersionForRun leaves it; its properties are the Policy lemmas below |
| `RunUpload.PolicyOnlyTouchesVersion` | src/main/java/com/microfocus/application/automation/tools/commonResultUpload/uploader/RunUploader.java:163-199 | the policy neither adds nor drops a key and changes no field but the Run On Version field |
| `RunUpload.PolicyExempt` | src/main/java/com/microfocus/application/automation/tools/commonResultUpload/uploader/RunUploader.java:165-169 | a test whose subtype is exempt proceeds with the run unchanged |
| `RunUpload.PolicyThrowsWithoutSubtype` | src/main/java/com/microfocus/application/automation/tools/commonResultUpload/uploader/RunUploader.java:165-166 | a test without a subtype throws NullPointerException as soon as the exempt list is non-empty |
| `RunUpload.PolicyGateClosed` | src/main/java/com/microfocus/application/automation/tools/commonResultUpload/uploader/RunUploader.java:171-198 | versioning off, no version key in the run, or no version number in the test: proceed with the run unchanged |
| `RunUpload.PolicyFillsEmptyVersion` | src/main/java/com/microfocus/application/automation/tools/commonResultUpload/uploader/RunUploader.java:177-179 | an open gate and an empty run version: the run takes the test's version and proceeds |
| `RunUpload.PolicyBlocksUnparsable` | src/main/java/com/microfocus/application/automation/tools/commonResultUpload/uploader/RunUploader.java:181-195 | either version not an int: blocked, run unchanged |
| `RunUpload.PolicyComparesVersions` | src/main/java/com/microfocus/application/automation/tools/commonResultUpload/uploader/RunUploader.java:181-191 | both versions ints: proceeds exactly when the run's version is not above the test's; a version below 1 is set to "1", otherwise the run is unchanged |
| `RunUpload.PolicyClampsZero` | src/main/java/com/microfocus/application/automation/tools/commonResultUpload/uploader/RunUploader.java:184-191 | a run at "0" is raised to "1" and proceeds when the test's version is not negative |
| `RunUpload.PolicyBlocksAndClamps` | src/main/java/com/microfocus/application/automation/tools/commonResultUpload/uploader/RunUploader.java:184-191 | test at -1, run at 0: blocked and raised to "1" at once |
| `RunUpload.PolicyBoundsUploadedVersion` | src/main/java/com/microfocus/application/automation/tools/commonResultUpload/uploader/RunUploader.java:181-191 | a proceeding run with a non-empty version is uploaded with an int version at most the test's or equal to 1 |
| `RunUpload.UploadEffects` | src/main/java/com/microfocus/application/automation/tools/commonResultUpload/uploader/RunUploader.java:64-103 | the final run, the REST calls and the completion of upload; its properties are the Upload lemmas below |
| `RunUpload.CreateEffects` | src/main/java/com/microfocus/application/automation/tools/commonResultUpload/uploader/RunUploader.java:88-102 | the run and the REST calls once the policy lets the run through; the status branch is CreateWithStatus |
| `RunUpload.UploadRunAgrees` | src/main/java/com/microfocus/application/automation/tools/commonResultUpload/uploader/RunUploader.java:84-99 | the run upload leaves behind differs from the filled run at most in the version and the status |
| `RunUpload.UploadSetsRelations` | src/main/java/com/microfocus/application/automation/tools/commonResultUpload/uploader/RunUploader.java:67-86 | in every outcome the run holds the relation ids, owner, name, converted duration, subtype and converted detail |
| `RunUpload.UploadBlockedMakesNoCalls` | src/main/java/com/microfocus/application/automation/tools/commonResultUpload/uploader/RunUploader.java:84-86 | a blocked or throwing policy makes no REST call, while the run map already holds every written field |
| `RunUpload.CreateWithStatus` | src/main/java/com/microfocus/application/automation/tools/commonResultUpload/uploader/RunUploader.java:89-99 | with a status: one create of the run without the status, then one update holding exactly the created id and the mapped status |
| `RunUpload.UploadWithStatus` | src/main/java/com/microfocus/application/automation/tools/commonResultUpload/uploader/RunUploader.java:84-99 | a proceeding run with a status goes through the two-call path, with the status the caller gave |
| `RunUpload.UploadWithoutStatus` | src/main/java/com/microfocus/application/automation/tools/commonResultUpload/uploader/RunUploader.java:100-101 | a proceeding run without a status is created exactly once, with every field the policy left |
| `RunUpload.RunUploader.constructor` | src/main/java/com/microfocus/application/automation/tools/commonResultUpload/uploader/RunUploader.java:54-62 | the uploader keeps its settings and REST service |
| `RunUpload.PropertyMap.Put` | src/main/java/com/microfocus/application/automation/tools/commonResultUpload/uploader/RunUploader.java:67-98 | the key is bound to the value and every other entry stays |
| `RunUpload.PropertyMap.Remove` | src/main/java/com/microfocus/application/automation/tools/commonResultUpload/uploader/RunUploader.java:92 | the key is gone and every other entry stays |
| `RunUpload.RestService.Create` | src/main/java/com/microfocus/application/automation/tools/commonResultUpload/uploader/RunUploader.java:93-101 | exactly one create call with the prefix and the entity is logged, and the server's entity is returned |
| `RunUpload.RestService.Update` | src/main/java/com/microfocus/application/automation/tools/commonResultUpload/uploader/RunUploader.java:99 | exactly one update call with the prefix and the entity is logged |
| `RunUpload.RunUploader.ShouldProceedVersionForRun` | src/main/java/com/microfocus/application/automation/tools/commonResultUpload/uploader/RunUploader.java:163-199 | answer and new run map are those of VersionPolicy on the old map; the loop over the exempt list keeps the map unchanged |
| `RunUpload.RunUploader.FillRun` | src/main/java/com/microfocus/application/automation/tools/commonResultUpload/uploader/RunUploader.java:67-82 | the puts in source order leave the map equal to MappedRun of the old map |
| `RunUpload.RunUploader.CreateRun` | src/main/java/com/microfocus/application/automation/tools/commonResultUpload/uploader/RunUploader.java:88-102 | map and REST call log after the create (and update) are those of CreateEffects |
| `RunUpload.RunUploader.Upload` | src/main/java/com/microfocus/application/automation/tools/commonResultUpload/uploader/RunUploader.java:64-103 | final map, appended REST calls and completion are those of UploadEffects on the old map and the server's created entity |
| `ConfigurationService.Markup` | jenkins/plugin/src/main/java/com/hp/octane/plugins/jenkins/configuration/ConfigurationService.java:97-99 | the message in bold in the colour; ParseMarkupOfMarkup reads both back |
| `ConfigurationService.ParseMarkupOfMarkup` | jenkins/plugin/src/main/java/com/hp/octane/plugins/jenkins/configuration/ConfigurationService.java:97-99 | a markup reads back as its colour and message whenever the colour has no quote |
| `ConfigurationService.MarkupInjective` | jenkins/plugin/src/main/java/com/hp/octane/plugins/jenkins/configuration/ConfigurationService.java:97-99 | different (colour, message) pairs give different markups |
| `ConfigurationService.RedErrorInjective` | jenkins/plugin/src/main/java/com/hp/octane/plugins/jenkins/configuration/ConfigurationService.java:97-99 | red errors with different message texts differ |
| `ConfigurationService.ContextLocation` | jenkins/plugin/src/main/java/com/hp/octane/plugins/jenkins/configuration/ConfigurationService.java:47-58 | the location, when there is one, is a prefix of the address; there is none exactly when neither context occurs |
| `ConfigurationService.ContextLocationShape` | jenkins/plugin/src/main/java/com/hp/octane/plugins/jenkins/configuration/ConfigurationService.java:47-58 | the location ends in "/qcbin" just before the first "/qcbin/ui", or, without any, in "/mqm" just before the first "/mqm/ui" |
| `ConfigurationService.QcbinWins` | jenkins/plugin/src/main/java/com/hp/octane/plugins/jenkins/configuration/ConfigurationService.java:47-58 | the first "/qcbin/ui" decides, plus six characters, whatever "/mqm/ui" occurrences there are |
| `ConfigurationService.MqmFallback` | jenkins/plugin/src/main/java/com/hp/octane/plugins/jenkins/configuration/ConfigurationService.java:48-55 | without "/qcbin/ui", the first "/mqm/ui" decides, plus four characters |
| `ConfigurationService.FindParam` | jenkins/plugin/src/main/java/com/hp/octane/plugins/jenkins/configuration/ConfigurationService.java:60-68 | the index of the first parameter named so, or none when no parameter has the name |
| `ConfigurationService.ParseUiLocation` | jenkins/plugin/src/main/java/com/hp/octane/plugins/jenkins/configuration/ConfigurationService.java:43-75 | a project comes only from a valid URI, with the context location and a non-empty shared space |
| `ConfigurationService.ParseMalformedUrl` | jenkins/plugin/src/main/java/com/hp/octane/plugins/jenkins/configuration/ConfigurationService.java:45-71 | a malformed URL is ConfigurationUrInvalid |
| `ConfigurationService.ParseNoContext` | jenkins/plugin/src/main/java/com/hp/octane/plugins/jenkins/configuration/ConfigurationService.java:47-55 | no context is ApplicationContextNotFound, checked before the URI syntax |
| `ConfigurationService.ParseUriSyntaxError` | jenkins/plugin/src/main/java/com/hp/octane/plugins/jenkins/configuration/ConfigurationService.java:59-73 | a context but an invalid URI is ConfigurationUrInvalid |
| `ConfigurationService.ParseMissingProject` | jenkins/plugin/src/main/java/com/hp/octane/plugins/jenkins/configuration/ConfigurationService.java:59-69 | no "p" parameter is MissingDomainProject |
| `ConfigurationService.ParseFirstProjectParam` | jenkins/plugin/src/main/java/com/hp/octane/plugins/jenkins/configuration/ConfigurationService.java:60-67 | the first "p" parameter decides: empty or valueless is UnexpectedSharedSpace, otherwise the project (location, value) |
| `ConfigurationService.ParseRejectionsDistinct` | jenkins/plugin/src/main/java/com/hp/octane/plugins/jenkins/configuration/ConfigurationService.java:52-73 | rejections for different reasons are different validations |
| `ConfigurationService.CheckConfiguration` | jenkins/plugin/src/main/java/com/hp/octane/plugins/jenkins/configuration/ConfigurationService.java:77-95 | the validation is an ok exactly when the probe connected |
| `ConfigurationService.CheckConfigurationMarkup` | jenkins/plugin/src/main/java/com/hp/octane/plugins/jenkins/configuration/ConfigurationService.java:81-94 | success reads back as green ConnectionSuccess; each failure as red with its own message |
| `ConfigurationService.CheckConfigurationDistinct` | jenkins/plugin/src/main/java/com/hp/octane/plugins/jenkins/configuration/ConfigurationService.java:81-94 | different probe outcomes never give the same validation |
| `TestsToRunConverter.FirstParametersAction` | src/main/java/com/microfocus/application/automation/tools/octane/testrunner/TestsToRunConverterBuilder.java:82 | the index of the first ParametersAction of the build, none when there is none |
| `TestsToRunConverter.GetParameter` | src/main/java/com/microfocus/application/automation/tools/octane/testrunner/TestsToRunConverterBuilder.java:101-107 | a parameter found has the name and is one of the parameters; none is found only when no parameter has the name |
| `TestsToRunConverter.GetParameterFirst` | src/main/java/com/microfocus/application/automation/tools/octane/testrunner/TestsToRunConverterBuilder.java:101-107 | a parameter lookup returns the first parameter of that name |
| `TestsToRunConverter.RawTests` | src/main/java/com/microfocus/application/automation/tools/octane/testrunner/TestsToRunConverterBuilder.java:101-105 | the tests are present exactly when the testsToRun parameter exists with a String value, and then they are that String |
| `TestsToRunConverter.ExecutingDirectory` | src/main/java/com/microfocus/application/automation/tools/octane/testrunner/TestsToRunConverterBuilder.java:107-115 | a non-empty String value of the checkout-directory parameter is the directory, and any directory other than "${workspace}" is such a value |
| `TestsToRunConverter.AsWrittenThrowsWithoutTests` | src/main/java/com/microfocus/application/automation/tools/octane/testrunner/TestsToRunConverterBuilder.java:107-109 | as written, a checkout directory without a testsToRun parameter throws NullPointerException, where the corrected choice takes the directory |
| `TestsToRunConverter.AsWrittenThrowsOnNonString` | src/main/java/com/microfocus/application/automation/tools/octane/testrunner/TestsToRunConverterBuilder.java:109-113 | as written, a non-String checkout value throws ClassCastException, where the corrected choice falls back to the workspace |
| `TestsToRunConverter.AsWrittenAgreesWithTests` | src/main/java/com/microfocus/application/automation/tools/octane/testrunner/TestsToRunConverterBuilder.java:107-115 | when there are tests and the written guard does not throw, the written and corrected choices agree |
| `TestsToRunConverter.ExecutingDirectoryAsWritten` | src/main/java/com/microfocus/application/automation/tools/octane/testrunner/TestsToRunConverterBuilder.java:107-115 | the written guard throws only with a checkout-directory parameter present, and only NullPointerException or ClassCastException |
| `TestsToRunConverter.PerformEffectsAsWritten` | src/main/java/com/microfocus/application/automation/tools/octane/testrunner/TestsToRunConverterBuilder.java:80-156 | perform with the checkout guard as the source writes it; related to PerformEffects by PerformAsWrittenAgrees and PerformAsWrittenEscapes |
| `TestsToRunConverter.PerformAsWrittenEscapes` | src/main/java/com/microfocus/application/automation/tools/octane/testrunner/TestsToRunConverterBuilder.java:107-115 | as written, where the guard throws, perform leaves the build unchanged and the exception escapes the catch at line 150 |
| `TestsToRunConverter.PerformAsWrittenAgrees` | src/main/java/com/microfocus/application/automation/tools/octane/testrunner/TestsToRunConverterBuilder.java:80-156 | wherever the written guard returns, perform as written has exactly the effects of the corrected step |
| `TestsToRunConverter.PerformAsWrittenThrowsWithoutTests` | src/main/java/com/microfocus/application/automation/tools/octane/testrunner/TestsToRunConverterBuilder.java:101-111 | only `testsToRunCheckoutDirectory="src"`: perform as written throws NullPointerException, the corrected step skips normally |
| `TestsToRunConverter.PerformAsWrittenThrowsOnNonString` | src/main/java/com/microfocus/application/automation/tools/octane/testrunner/TestsToRunConverterBuilder.java:101-111 | `testsToRun="a"` and a non-String checkout value: perform as written throws ClassCastException with the build unchanged |
| `TestsToRunConverter.GetIsCustom` | src/main/java/com/microfocus/application/automation/tools/octane/testrunner/TestsToRunConverterBuilder.java:178-180 | the framework name equals the value of Custom; GetIsCustomMeansCustom ties it to the library |
| `TestsToRunConverter.GetIsCustomMeansCustom` | src/main/java/com/microfocus/application/automation/tools/octane/testrunner/TestsToRunConverterBuilder.java:178-180 | provided fromValue reads Custom exactly by its value (CustomByValue), getIsCustom holds exactly when a model exists and its framework name is read as Custom by the library |
| `TestsToRunConverter.DoTestConvert` | src/main/java/com/microfocus/application/automation/tools/octane/testrunner/TestsToRunConverterBuilder.java:200-228 | a successful conversion had tests, a framework, and a format when the framework is Custom |
| `TestsToRunConverter.TestConvertChecksTestsFirst` | src/main/java/com/microfocus/application/automation/tools/octane/testrunner/TestsToRunConverterBuilder.java:207-209 | empty tests give "'Tests to run' parameter is missing", whatever the other arguments |
| `TestsToRunConverter.TestConvertChecksFrameworkSecond` | src/main/java/com/microfocus/application/automation/tools/octane/testrunner/TestsToRunConverterBuilder.java:211-213 | then an empty framework gives "'Framework' parameter is missing", whatever the format |
| `TestsToRunConverter.TestConvertChecksFormatThird` | src/main/java/com/microfocus/application/automation/tools/octane/testrunner/TestsToRunConverterBuilder.java:215-218 | then Custom with an empty format gives "'Format' parameter is missing" |
| `TestsToRunConverter.TestConvertRunsConverter` | src/main/java/com/microfocus/application/automation/tools/octane/testrunner/TestsToRunConverterBuilder.java:220-226 | past the checks, the button shows the converter's result on the default directory, or its exception |
| `TestsToRunConverter.ArgumentMessagesDistinct` | src/main/java/com/microfocus/application/automation/tools/octane/testrunner/TestsToRunConverterBuilder.java:207-218 | the three argument messages are pairwise different |
| `TestsToRunConverter.Worse` | src/main/java/com/microfocus/application/automation/tools/octane/testrunner/TestsToRunConverterBuilder.java:152 | setting a result never makes the build's result better than before nor better than the one set |
| `TestsToRunConverter.RemoveParametersActions` | src/main/java/com/microfocus/application/automation/tools/octane/testrunner/TestsToRunConverterBuilder.java:145 | no ParametersAction is left, and every other action stays as often as it occurred; RemoveParametersActionsConcat keeps their order |
| `TestsToRunConverter.RemoveParametersActionsConcat` | src/main/java/com/microfocus/application/automation/tools/octane/testrunner/TestsToRunConverterBuilder.java:145 | removal works piece by piece, so the kept actions stay in their order |
| `TestsToRunConverter.RemoveParametersActionsKeepsOthers` | src/main/java/com/microfocus/application/automation/tools/octane/testrunner/TestsToRunConverterBuilder.java:145 | a list without ParametersActions is left exactly as it is |
| `TestsToRunConverter.Build.AddOrReplaceAction` | src/main/java/com/microfocus/application/automation/tools/octane/testrunner/TestsToRunConverterBuilder.java:145 | the build's ParametersActions are replaced by the new one, at the end |
| `TestsToRunConverter.Build.AddAction` | src/main/java/com/microfocus/application/automation/tools/octane/testrunner/TestsToRunConverterBuilder.java:148 | the action is appended, the result kept |
| `TestsToRunConverter.Build.SetResult` | src/main/java/com/microfocus/application/automation/tools/octane/testrunner/TestsToRunConverterBuilder.java:152 | the result becomes the worse of the old and the new one |
| `TestsToRunConverter.Failed` | src/main/java/com/microfocus/application/automation/tools/octane/testrunner/TestsToRunConverterBuilder.java:150-154 | the effects of the catch clause: an argument error fails the build, anything else leaves it |
| `TestsToRunConverter.PerformEffects` | src/main/java/com/microfocus/application/automation/tools/octane/testrunner/TestsToRunConverterBuilder.java:80-156 | perform, with the corrected checkout guard, as the build's actions, result and completion; its properties are the Perform lemmas below |
| `TestsToRunConverter.PerformWith` | src/main/java/com/microfocus/application/automation/tools/octane/testrunner/TestsToRunConverterBuilder.java:118-149 | the skips, the conversion and the action added, once the parameters are read |
| `TestsToRunConverter.PerformSkipsWithoutTests` | src/main/java/com/microfocus/application/automation/tools/octane/testrunner/TestsToRunConverterBuilder.java:118-121 | no ParametersAction, no String testsToRun, or an empty one: build unchanged, normal completion |
| `TestsToRunConverter.PerformSkipsWithoutFramework` | src/main/java/com/microfocus/application/automation/tools/octane/testrunner/TestsToRunConverterBuilder.java:123-126 | no framework name: build unchanged, normal completion |
| `TestsToRunConverter.PerformChangesOnlyWithTests` | src/main/java/com/microfocus/application/automation/tools/octane/testrunner/TestsToRunConverterBuilder.java:101-126 | a perform that changes the build had tests and a framework name |
| `TestsToRunConverter.PerformWorkflowAppends` | src/main/java/com/microfocus/application/automation/tools/octane/testrunner/TestsToRunConverterBuilder.java:141-145 | in a pipeline run the other actions are kept as RemoveParametersActions leaves them, followed by a single ParametersAction with the old parameters in order plus the converted one |
| `TestsToRunConverter.PerformInjectsVariable` | src/main/java/com/microfocus/application/automation/tools/octane/testrunner/TestsToRunConverterBuilder.java:146-148 | in another build exactly one variable-injection action with the converted name and value is appended |
| `TestsToRunConverter.PerformFailsOnArgumentError` | src/main/java/com/microfocus/application/automation/tools/octane/testrunner/TestsToRunConverterBuilder.java:150-154 | an IllegalArgumentException or NumberFormatException of the library adds no action, completes normally, and leaves the result FAILURE or worse |
| `TestsToRunConverter.TestsToRunConverterBuilder.constructor` | src/main/java/com/microfocus/application/automation/tools/octane/testrunner/TestsToRunConverterBuilder.java:74-77 | the model holds the framework and the format given |
| `TestsToRunConverter.TestsToRunConverterBuilder.WithoutFormat` | src/main/java/com/microfocus/application/automation/tools/octane/testrunner/TestsToRunConverterBuilder.java:70-72 | the model holds the framework and the empty format |
| `TestsToRunConverter.TestsToRunConverterBuilder.Perform` | src/main/java/com/microfocus/application/automation/tools/octane/testrunner/TestsToRunConverterBuilder.java:80-156 | actions, result and completion of the build are those of PerformEffects on the old build |
| `TestsToRunConverter.TestsToRunConverterBuilder.Fail` | src/main/java/com/microfocus/application/automation/tools/octane/testrunner/TestsToRunConverterBuilder.java:150-154 | an IllegalArgumentException, or its subclass NumberFormatException, sets FAILURE and is swallowed; any other exception leaves the build alone and propagates |

## Left out

- Logging: CommonUploadLogger, java.util.logging and printToConsole. None of them changes state the model sees.
- `generateImportRunName` reads the clock and a template that is not part of this model. The run name is an input.
- RunUpload.ConvertDuration: Float.valueOf and intValue are floating point. They are one abstract function, `parseFloat`, from text to the truncated value, or None where Java throws NumberFormatException. Only the narrowing to int is written out.
- The Base64Encoder class and platform-charset `getBytes` are not part of this model. The encoder follows section 4 of RFC 4648. `getBytes` is an abstract function.
- The field-name constants of AlmRun, AlmCommonProperties, AlmTestInstance and ParamConstant are not part of this model. The model names the fields "test-config-id", "cycle-id", "test-id", "testcycl-id", "owner", "name", "duration", "subtype-id", "detail", "status" and "actualUser". The proofs use only that these names are pairwise distinct: the eight written fields among themselves (the relation fields apart from the calculated ones), each of them apart from the detail, the status and the version field, and in particular the duration apart from the owner and the name, since the duration is read after those two are written. The update after a create also needs the id field apart from the status, and the upload with a status needs the version field apart from the status.
- IAlmConsts NO_RUN and TestUploader.NO_VERSION_TESTS are not part of this model. They are uploader settings; the exempt list keeps its iteration order.
- CustomizationService is two uninterpreted inputs: the versioning flag and the run-subtype lookup.
- REST transport: create and update always succeed, and the server's created entity is a fixed map. Network failures, a null created entity, and the missing status left by a failure between the two calls are not modelled.
- Integer.parseInt accepts only ASCII digits with an optional sign. Java also accepts other Unicode digits.
- The caller's maps (`test`, `testset`, …) are values. The model does not cover aliasing between them and the run map.
- java.net.URL, toURI and URLEncodedUtils are not modelled. Their result is an input: a malformed URL, an invalid URI, or the decoded query pairs.
- The message bundle's texts are an input function (`text`). Distinctness of the validations needs those texts to differ.
- ConfigurationService.CheckConfiguration: creating the client and unchecked exceptions from `tryToConnectProject` are not modelled. The probe's outcome is an input with the success and the four checked exceptions.
- `getServerConfiguration`, `setMqmRestClientFactory` and `_setMqmRestClientFactory` are Jenkins and Guice plumbing.
- The SDK's TestsToRunFramework.fromValue, the value of Custom, and createConverter(...).setFormat(...).convert(...) are abstract functions of `ConverterLibrary`. The converted count is kept but not used.
- TestsToRunConverter.GetIsCustomMeansCustom: assumes that the SDK's fromValue returns Custom for exactly the value of Custom (CustomByValue). The SDK is not part of this model, and a fromValue that also read, say, another spelling as Custom would make getIsCustom false for a framework the library reads as Custom.
- TestsToRunConverterModel and TestsFramework are not part of this model. A model is the framework name and format it was built with. The `framework` field is optional because a deserialised step may lack it.
- TestsToRunConverter.DoTestConvert: Util.escape and ConfigurationValidator.wrapWithFormValidation are not modelled. A success is the converted text, and a failure is the exception rather than its message.
- The suite, suite-run and execution-id parameters are only printed. They are not modelled.
- TestsToRunConverter.TestsToRunConverterBuilder.Perform and TestsToRunConverter.PerformEffects use the corrected checkout-directory guard (see Findings). Perform as written is TestsToRunConverter.PerformEffectsAsWritten, which agrees with them wherever the written guard returns (TestsToRunConverter.PerformAsWrittenAgrees).
- TestsToRunConverter.PerformSkipsWithoutTests: states the corrected step; as written, a checkout-directory parameter without a testsToRun parameter throws NullPointerException at line 109 instead.
- TestsToRunConverter.PerformSkipsWithoutFramework: states the corrected step; as written, the guard at line 109 can throw before the framework check at line 123.
- TestsToRunConverter.PerformWorkflowAppends: states the corrected step; as written, a non-String checkout value throws ClassCastException at line 109 first.
- TestsToRunConverter.PerformInjectsVariable: states the corrected step; as written, a non-String checkout value throws ClassCastException at line 109 first.
- TestsToRunConverter.PerformFailsOnArgumentError: states the corrected step; as written, the guard at line 109 can throw before the library is called.
- Jenkins Actionable.addOrReplaceAction, for a new ParametersAction object, drops every ParametersAction and appends the new one. Run.setResult keeps the worse result. A result set after the build completed is not modelled.
- InterruptedException and IOException of `perform`, and the descriptor's `isApplicable`, `getDisplayName` and `getFrameworks`, are not modelled.

## Findings

| source | as written | input that shows it | evidently intended | confidence | as-written member | corrected member |
|---|---|---|---|---|---|---|
| src/main/java/com/microfocus/application/automation/tools/octane/testrunner/TestsToRunConverterBuilder.java:109 | the `instanceof String` test and the null dereference apply to `testsParameter`; then the checkout value is cast to String | only `testsToRunCheckoutDirectory="src"`: NullPointerException, which escapes `perform`; `testsToRun="a"` and a non-String checkout value: ClassCastException | test the checkout-directory parameter's own value, and otherwise fall back to "${workspace}" as the message at line 113 says | high; not executed | `TestsToRunConverter.PerformEffectsAsWritten` | `TestsToRunConverter.ExecutingDirectory` |
