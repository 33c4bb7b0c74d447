/** The decision logic of the tests-to-run converter build step: which parameters it reads,
    where the tests are taken to be checked out, when it skips, which action it adds to the
    build, and how a failed conversion marks the build; and the argument checks of the
    step's "test convert" form button. The conversion itself is an external function. */
module TestsToRunConverter {
  import opened Java

  const TESTS_TO_RUN_PARAMETER: string := "testsToRun"
  const DEFAULT_EXECUTING_DIRECTORY: string := "${workspace}"
  const CHECKOUT_DIRECTORY_PARAMETER: string := "testsToRunCheckoutDirectory"

  const TESTS_MISSING: string := "'Tests to run' parameter is missing"
  const FRAMEWORK_MISSING: string := "'Framework' parameter is missing"
  const FORMAT_MISSING: string := "'Format' parameter is missing"

  // ---------------------------------------------------------------------
  // Build parameters and actions
  // ---------------------------------------------------------------------

  /** ParameterValue.getValue: a String, null, or an object of another type. */
  datatype ParamValue = StringValue(s: string) | NullValue | OtherValue

  datatype ParameterValue = ParameterValue(name: string, value: ParamValue)

  /** The actions of a build the step looks at or adds; every other kind is OtherAction. */
  datatype Action =
    | ParametersAction(parameters: seq<ParameterValue>)
    | VariableInjectionAction(name: string, value: string)
    | OtherAction

  /** Jenkins build results, from best to worst. */
  datatype BuildResult = Success | Unstable | Failure | NotBuilt | Aborted

  function Ordinal(r: BuildResult): nat {
    match r
    case Success => 0
    case Unstable => 1
    case Failure => 2
    case NotBuilt => 3
    case Aborted => 4
  }

  /** Run.setResult: a result is only ever replaced by a worse one; None is a build still
      without a result. */
  function Worse(current: Option<BuildResult>, r: BuildResult): (w: Option<BuildResult>)
    ensures w.Some? && Ordinal(w.value) >= Ordinal(r)
    ensures current.Some? ==> Ordinal(w.value) >= Ordinal(current.value)
    ensures w == current || w == Some(r)
  {
    if current.None? || Ordinal(r) > Ordinal(current.value) then Some(r) else current
  }

  /** The index of the first ParametersAction, as Actionable.getAction finds it. */
  function FirstParametersAction(actions: seq<Action>, from: nat): (r: Option<nat>)
    requires from <= |actions|
    decreases |actions| - from
    ensures r.Some? ==> from <= r.value < |actions| && actions[r.value].ParametersAction?
    ensures r.Some? ==> forall j :: from <= j < r.value ==> !actions[j].ParametersAction?
    ensures r.None? ==> forall j :: from <= j < |actions| ==> !actions[j].ParametersAction?
  {
    if from == |actions| then None
    else if actions[from].ParametersAction? then Some(from)
    else FirstParametersAction(actions, from + 1)
  }

  /** build.getAction(ParametersAction.class), as the parameters it holds; None is null. */
  function GetParameters(actions: seq<Action>): Option<seq<ParameterValue>> {
    match FirstParametersAction(actions, 0)
    case None => None
    case Some(i) => Some(actions[i].parameters)
  }

  /** ParametersAction.getParameter: the first parameter with the name, or null. */
  function GetParameter(params: seq<ParameterValue>, name: string): (r: Option<ParameterValue>)
    ensures r.Some? ==> r.value in params && r.value.name == name
    ensures r.None? ==> forall j :: 0 <= j < |params| ==> params[j].name != name
  {
    if |params| == 0 then None
    else if params[0].name == name then Some(params[0])
    else GetParameter(params[1..], name)
  }

  /** The first parameter with a name decides, whatever follows it. */
  lemma {:induction false} GetParameterFirst(params: seq<ParameterValue>, name: string, i: nat)
    requires i < |params| && params[i].name == name
    requires forall j :: 0 <= j < i ==> params[j].name != name
    ensures GetParameter(params, name) == Some(params[i])
  {
    if i > 0 {
      GetParameterFirst(params[1..], name, i - 1);
    }
  }

  /** Actionable.addOrReplaceAction for a new ParametersAction object: every
      ParametersAction goes, the new one is appended. */
  function RemoveParametersActions(actions: seq<Action>): (r: seq<Action>)
    ensures forall j :: 0 <= j < |r| ==> !r[j].ParametersAction?
    ensures forall a :: a in actions && !a.ParametersAction? ==> a in r
    ensures forall a :: a in r ==> a in actions
    ensures forall a :: multiset(r)[a] == if a.ParametersAction? then 0 else multiset(actions)[a]
  {
    if |actions| == 0 then []
    else
      assert actions == [actions[0]] + actions[1..];
      if actions[0].ParametersAction? then RemoveParametersActions(actions[1..])
      else [actions[0]] + RemoveParametersActions(actions[1..])
  }

  /** Removing the ParametersActions works piece by piece, so the other actions keep their
      order. */
  lemma {:induction false} RemoveParametersActionsConcat(a: seq<Action>, b: seq<Action>)
    ensures RemoveParametersActions(a + b) == RemoveParametersActions(a) + RemoveParametersActions(b)
  {
    if |a| == 0 {
      assert a + b == b;
    } else {
      assert (a + b)[1..] == a[1..] + b;
      RemoveParametersActionsConcat(a[1..], b);
    }
  }

  /** A list without ParametersActions is left exactly as it is. */
  lemma {:induction false} RemoveParametersActionsKeepsOthers(actions: seq<Action>)
    requires forall j :: 0 <= j < |actions| ==> !actions[j].ParametersAction?
    ensures RemoveParametersActions(actions) == actions
  {
    if |actions| > 0 {
      RemoveParametersActionsKeepsOthers(actions[1..]);
    }
  }

  /** The Jenkins build (hudson.model.Run) the step runs in. */
  class Build {
    /** The build's class is the pipeline run class. */
    const isWorkflowRun: bool
    var actions: seq<Action>
    var result: Option<BuildResult>

    constructor (isWorkflowRun: bool, actions: seq<Action>, result: Option<BuildResult>)
      ensures this.isWorkflowRun == isWorkflowRun && this.actions == actions && this.result == result
    {
      this.isWorkflowRun := isWorkflowRun;
      this.actions := actions;
      this.result := result;
    }

    function GetAction(): Option<seq<ParameterValue>>
      reads this
    {
      GetParameters(actions)
    }

    method AddAction(a: Action)
      modifies this
      ensures actions == old(actions) + [a] && result == old(result)
    {
      actions := actions + [a];
    }

    method AddOrReplaceAction(parameters: seq<ParameterValue>)
      modifies this
      ensures actions == RemoveParametersActions(old(actions)) + [ParametersAction(parameters)]
      ensures result == old(result)
    {
      actions := RemoveParametersActions(actions) + [ParametersAction(parameters)];
    }

    method SetResult(r: BuildResult)
      modifies this
      ensures result == Worse(old(result), r) && actions == old(actions)
    {
      if result.None? || Ordinal(r) > Ordinal(result.value) {
        result := Some(r);
      }
    }
  }

  // ---------------------------------------------------------------------
  // The converter library, as a parameter
  // ---------------------------------------------------------------------

  /** TestsToRunFramework: the Custom framework, or one of the others by its value. */
  datatype TestsToRunFramework = Custom | Framework(id: string)

  /** TestsToRunConverterResult: the number of tests read, the name of the parameter to
      set and the converted list. */
  datatype ConverterResult = ConverterResult(testsCount: nat, parameterName: string, convertedTests: string)

  /** The external converter library: TestsToRunFramework.fromValue, the value of Custom,
      and createConverter(framework).setFormat(format).convert(rawTests, directory). */
  datatype ConverterLibrary = ConverterLibrary(
    fromValue: string -> Result<TestsToRunFramework>,
    customValue: string,
    convert: (TestsToRunFramework, Value, string, string) -> Result<ConverterResult>)

  /** fromValue names Custom by exactly the value of Custom. */
  ghost predicate CustomByValue(lib: ConverterLibrary) {
    forall v {:trigger lib.fromValue(v)} :: lib.fromValue(v) == Return(Custom) <==> v == lib.customValue
  }

  /** TestsToRunConverterModel, by the framework name and format it was built with. */
  datatype ConverterModel = ConverterModel(name: Value, format: Value)

  /** getIsCustom: a model whose framework name is the value of Custom. */
  function GetIsCustom(framework: Option<ConverterModel>, customValue: string): bool {
    framework.Some? && framework.value.name == Some(customValue)
  }

  /** getIsCustom agrees with the library: it holds exactly when the model's framework name
      is one the library reads as Custom. */
  lemma GetIsCustomMeansCustom(framework: Option<ConverterModel>, lib: ConverterLibrary)
    requires CustomByValue(lib)
    ensures GetIsCustom(framework, lib.customValue)
            <==> framework.Some? && framework.value.name.Some? && lib.fromValue(framework.value.name.value) == Return(Custom)
  {
    if framework.Some? && framework.value.name.Some? {
      var v := framework.value.name.value;
      assert lib.fromValue(v) == Return(Custom) <==> v == lib.customValue;
    }
  }

  // ---------------------------------------------------------------------
  // Descriptor.doTestConvert
  // ---------------------------------------------------------------------

  /** The form validation the button shows: the converted list, or the failure's exception. */
  datatype TestConvert = ConversionSuccessful(convertedTests: string) | FailedToConvert(cause: Exception)

  /** doTestConvert: the tests, then the framework, then a Custom framework's format are
      checked before the converter runs, on the default directory. */
  function DoTestConvert(rawTests: Value, framework: Value, format: Value, lib: ConverterLibrary): (r: TestConvert)
    ensures r.ConversionSuccessful? ==> IsNotEmpty(rawTests) && IsNotEmpty(framework)
    ensures r.ConversionSuccessful? ==>
              exists fw :: lib.fromValue(framework.value) == Return(fw) && (fw == Custom ==> IsNotEmpty(format))
  {
    if IsEmpty(rawTests) then FailedToConvert(IllegalArgumentException(TESTS_MISSING))
    else if IsEmpty(framework) then FailedToConvert(IllegalArgumentException(FRAMEWORK_MISSING))
    else
      match lib.fromValue(framework.value)
      case Throw(e) => FailedToConvert(e)
      case Return(fw) =>
        if fw == Custom && IsEmpty(format) then FailedToConvert(IllegalArgumentException(FORMAT_MISSING))
        else
          match lib.convert(fw, format, rawTests.value, DEFAULT_EXECUTING_DIRECTORY)
          case Throw(e) => FailedToConvert(e)
          case Return(cr) => ConversionSuccessful(cr.convertedTests)
  }

  /** Missing tests are reported first, whatever the framework and the format. */
  lemma TestConvertChecksTestsFirst(rawTests: Value, framework: Value, format: Value, lib: ConverterLibrary)
    requires IsEmpty(rawTests)
    ensures DoTestConvert(rawTests, framework, format, lib) == FailedToConvert(IllegalArgumentException(TESTS_MISSING))
  {
  }

  /** With tests, a missing framework is reported, whatever the format. */
  lemma TestConvertChecksFrameworkSecond(rawTests: Value, framework: Value, format: Value, lib: ConverterLibrary)
    requires IsNotEmpty(rawTests) && IsEmpty(framework)
    ensures DoTestConvert(rawTests, framework, format, lib) == FailedToConvert(IllegalArgumentException(FRAMEWORK_MISSING))
  {
  }

  /** With tests and a framework the library reads as Custom, a missing format is reported. */
  lemma TestConvertChecksFormatThird(rawTests: Value, framework: Value, format: Value, lib: ConverterLibrary)
    requires IsNotEmpty(rawTests) && IsNotEmpty(framework)
    requires lib.fromValue(framework.value) == Return(Custom) && IsEmpty(format)
    ensures DoTestConvert(rawTests, framework, format, lib) == FailedToConvert(IllegalArgumentException(FORMAT_MISSING))
  {
  }

  /** Once the checks pass, the button shows what the converter makes of the tests in the
      default directory. */
  lemma TestConvertRunsConverter(rawTests: Value, framework: Value, format: Value, lib: ConverterLibrary,
                                 fw: TestsToRunFramework)
    requires IsNotEmpty(rawTests) && IsNotEmpty(framework)
    requires lib.fromValue(framework.value) == Return(fw) && (fw == Custom ==> IsNotEmpty(format))
    ensures var c := lib.convert(fw, format, rawTests.value, DEFAULT_EXECUTING_DIRECTORY);
            DoTestConvert(rawTests, framework, format, lib)
            == if c.Return? then ConversionSuccessful(c.value.convertedTests) else FailedToConvert(c.e)
  {
  }

  /** The three argument messages differ, so the failing check can be told from the message. */
  lemma ArgumentMessagesDistinct()
    ensures TESTS_MISSING != FRAMEWORK_MISSING && FRAMEWORK_MISSING != FORMAT_MISSING && TESTS_MISSING != FORMAT_MISSING
  {
    assert TESTS_MISSING[1] != FRAMEWORK_MISSING[1];
    assert FRAMEWORK_MISSING[2] != FORMAT_MISSING[2];
    assert TESTS_MISSING[1] != FORMAT_MISSING[1];
  }

  // ---------------------------------------------------------------------
  // perform
  // ---------------------------------------------------------------------

  /** The tests to run: the testsToRun parameter's value when it is a String. */
  function RawTests(params: seq<ParameterValue>): (r: Value)
    ensures r.Some? <==> exists p :: GetParameter(params, TESTS_TO_RUN_PARAMETER) == Some(p) && p.value.StringValue?
    ensures r.Some? ==> GetParameter(params, TESTS_TO_RUN_PARAMETER).value.value == StringValue(r.value)
  {
    match GetParameter(params, TESTS_TO_RUN_PARAMETER)
    case Some(ParameterValue(_, StringValue(s))) => Some(s)
    case _ => None
  }

  /** Where the tests are checked out: the checkout-directory parameter's value when it is
      a non-empty String, and the workspace otherwise. */
  function ExecutingDirectory(params: seq<ParameterValue>): (d: string)
    ensures d != DEFAULT_EXECUTING_DIRECTORY ==>
              && GetParameter(params, CHECKOUT_DIRECTORY_PARAMETER).Some?
              && GetParameter(params, CHECKOUT_DIRECTORY_PARAMETER).value.value == StringValue(d)
              && |d| > 0
    ensures var c := GetParameter(params, CHECKOUT_DIRECTORY_PARAMETER);
            c.Some? && c.value.value.StringValue? && |c.value.value.s| > 0 ==> d == c.value.value.s
  {
    match GetParameter(params, CHECKOUT_DIRECTORY_PARAMETER)
    case Some(ParameterValue(_, StringValue(s))) => if |s| > 0 then s else DEFAULT_EXECUTING_DIRECTORY
    case _ => DEFAULT_EXECUTING_DIRECTORY
  }

  /** The same choice with the guard as the source writes it: the type test is made on the
      testsToRun parameter, which may be null, and the checkout value is then cast to String. */
  function ExecutingDirectoryAsWritten(params: seq<ParameterValue>): (r: Result<string>)
    ensures r.Throw? ==> GetParameter(params, CHECKOUT_DIRECTORY_PARAMETER).Some?
    ensures r.Throw? ==> r.e == NullPointerException || r.e == ClassCastException
  {
    match GetParameter(params, CHECKOUT_DIRECTORY_PARAMETER)
    case None => Return(DEFAULT_EXECUTING_DIRECTORY)
    case Some(checkout) =>
      match GetParameter(params, TESTS_TO_RUN_PARAMETER)
      case None => Throw(NullPointerException)
      case Some(tests) =>
        if !tests.value.StringValue? then Return(DEFAULT_EXECUTING_DIRECTORY)
        else
          match checkout.value
          case OtherValue => Throw(ClassCastException)
          case NullValue => Return(DEFAULT_EXECUTING_DIRECTORY)
          case StringValue(s) => Return(if |s| > 0 then s else DEFAULT_EXECUTING_DIRECTORY)
  }

  /** A checkout directory without any testsToRun parameter makes the written guard throw. */
  lemma AsWrittenThrowsWithoutTests()
    ensures var params := [ParameterValue(CHECKOUT_DIRECTORY_PARAMETER, StringValue("src"))];
            && ExecutingDirectoryAsWritten(params) == Throw(NullPointerException)
            && ExecutingDirectory(params) == "src"
  {
    var params := [ParameterValue(CHECKOUT_DIRECTORY_PARAMETER, StringValue("src"))];
    assert CHECKOUT_DIRECTORY_PARAMETER != TESTS_TO_RUN_PARAMETER by {
      assert |CHECKOUT_DIRECTORY_PARAMETER| != |TESTS_TO_RUN_PARAMETER|;
    }
    assert GetParameter(params[1..], TESTS_TO_RUN_PARAMETER) == None;
  }

  /** A checkout directory that is not a String makes the written guard throw where it
      meant to fall back to the workspace. */
  lemma AsWrittenThrowsOnNonString()
    ensures var params := [ParameterValue(TESTS_TO_RUN_PARAMETER, StringValue("a")),
                           ParameterValue(CHECKOUT_DIRECTORY_PARAMETER, OtherValue)];
            && ExecutingDirectoryAsWritten(params) == Throw(ClassCastException)
            && ExecutingDirectory(params) == DEFAULT_EXECUTING_DIRECTORY
  {
    var params := [ParameterValue(TESTS_TO_RUN_PARAMETER, StringValue("a")),
                   ParameterValue(CHECKOUT_DIRECTORY_PARAMETER, OtherValue)];
    assert CHECKOUT_DIRECTORY_PARAMETER != TESTS_TO_RUN_PARAMETER by {
      assert |CHECKOUT_DIRECTORY_PARAMETER| != |TESTS_TO_RUN_PARAMETER|;
    }
    assert GetParameter(params[1..], CHECKOUT_DIRECTORY_PARAMETER) == Some(params[1]);
  }

  /** Wherever the written guard does not throw and there are tests to run, both choices
      agree; so the correction changes nothing on the inputs the source already handles. */
  lemma AsWrittenAgreesWithTests(params: seq<ParameterValue>)
    requires RawTests(params).Some?
    requires ExecutingDirectoryAsWritten(params).Return?
    ensures ExecutingDirectoryAsWritten(params) == Return(ExecutingDirectory(params))
  {
  }

  /** What perform leaves behind: the build's actions and result, and how it completed. */
  datatype PerformOutcome = PerformOutcome(actions: seq<Action>, result: Option<BuildResult>, completion: Completion)

  /** The failure path: an IllegalArgumentException, or a NumberFormatException, its
      subclass, fails the build and is swallowed; any other exception leaves the step. */
  function Failed(e: Exception, actions: seq<Action>, result: Option<BuildResult>): PerformOutcome {
    if IsIllegalArgument(e) then PerformOutcome(actions, Worse(result, Failure), Normal)
    else PerformOutcome(actions, result, Abrupt(e))
  }

  /** perform, on the build's class, actions and result. */
  function PerformEffects(framework: Option<ConverterModel>, lib: ConverterLibrary,
                          isWorkflowRun: bool, actions: seq<Action>, result: Option<BuildResult>): PerformOutcome
  {
    var parameterAction := GetParameters(actions);
    var rawTests := if parameterAction.Some? then RawTests(parameterAction.value) else None;
    var executingDirectory :=
      if parameterAction.Some? then ExecutingDirectory(parameterAction.value) else DEFAULT_EXECUTING_DIRECTORY;
    PerformWith(parameterAction, rawTests, executingDirectory, framework, lib, isWorkflowRun, actions, result)
  }

  /** perform with the checkout-directory guard as the source writes it: an exception of the
      guard passes through the catch clause like any other. */
  function PerformEffectsAsWritten(framework: Option<ConverterModel>, lib: ConverterLibrary,
                                   isWorkflowRun: bool, actions: seq<Action>, result: Option<BuildResult>): PerformOutcome
  {
    var parameterAction := GetParameters(actions);
    var rawTests := if parameterAction.Some? then RawTests(parameterAction.value) else None;
    var executingDirectory :=
      if parameterAction.Some? then ExecutingDirectoryAsWritten(parameterAction.value) else Return(DEFAULT_EXECUTING_DIRECTORY);
    match executingDirectory
    case Throw(e) => Failed(e, actions, result)
    case Return(d) => PerformWith(parameterAction, rawTests, d, framework, lib, isWorkflowRun, actions, result)
  }

  /** The rest of perform, once the parameters are read: the two skips, the conversion and
      the action it adds. */
  function PerformWith(parameterAction: Option<seq<ParameterValue>>, rawTests: Value, executingDirectory: string,
                       framework: Option<ConverterModel>, lib: ConverterLibrary,
                       isWorkflowRun: bool, actions: seq<Action>, result: Option<BuildResult>): PerformOutcome
  {
    if IsEmpty(rawTests) then PerformOutcome(actions, result, Normal)
    else if framework.None? || IsEmpty(framework.value.name) then PerformOutcome(actions, result, Normal)
    else
      match lib.fromValue(framework.value.name.value)
      case Throw(e) => Failed(e, actions, result)
      case Return(fw) =>
        match lib.convert(fw, framework.value.format, rawTests.value, executingDirectory)
        case Throw(e) => Failed(e, actions, result)
        case Return(cr) =>
          var entry := ParameterValue(cr.parameterName, StringValue(cr.convertedTests));
          if isWorkflowRun then
            var newParams := (if parameterAction.Some? then parameterAction.value else []) + [entry];
            PerformOutcome(RemoveParametersActions(actions) + [ParametersAction(newParams)], result, Normal)
          else
            PerformOutcome(actions + [VariableInjectionAction(cr.parameterName, cr.convertedTests)], result, Normal)
  }

  /** Without a String testsToRun parameter, or with an empty one, perform leaves the build alone. */
  lemma PerformSkipsWithoutTests(framework: Option<ConverterModel>, lib: ConverterLibrary,
                                 isWorkflowRun: bool, actions: seq<Action>, result: Option<BuildResult>)
    requires GetParameters(actions).None? || IsEmpty(RawTests(GetParameters(actions).value))
    ensures PerformEffects(framework, lib, isWorkflowRun, actions, result) == PerformOutcome(actions, result, Normal)
  {
  }

  /** Without a framework name, perform leaves the build alone. */
  lemma PerformSkipsWithoutFramework(framework: Option<ConverterModel>, lib: ConverterLibrary,
                                     isWorkflowRun: bool, actions: seq<Action>, result: Option<BuildResult>)
    requires framework.None? || IsEmpty(framework.value.name)
    ensures PerformEffects(framework, lib, isWorkflowRun, actions, result) == PerformOutcome(actions, result, Normal)
  {
  }

  /** The converter gets to convert only non-empty tests; a build step that changes the
      build has found both tests and a framework name. */
  lemma PerformChangesOnlyWithTests(framework: Option<ConverterModel>, lib: ConverterLibrary,
                                    isWorkflowRun: bool, actions: seq<Action>, result: Option<BuildResult>)
    requires var o := PerformEffects(framework, lib, isWorkflowRun, actions, result);
             o.actions != actions || o.result != result
    ensures GetParameters(actions).Some? && IsNotEmpty(RawTests(GetParameters(actions).value))
    ensures framework.Some? && IsNotEmpty(framework.value.name)
  {
  }

  /** A successful conversion in a pipeline run: the build keeps a single ParametersAction,
      holding the old parameters in order and then the converted one. */
  lemma PerformWorkflowAppends(framework: Option<ConverterModel>, lib: ConverterLibrary,
                               actions: seq<Action>, result: Option<BuildResult>,
                               fw: TestsToRunFramework, cr: ConverterResult)
    requires GetParameters(actions).Some? && IsNotEmpty(RawTests(GetParameters(actions).value))
    requires framework.Some? && IsNotEmpty(framework.value.name)
    requires lib.fromValue(framework.value.name.value) == Return(fw)
    requires lib.convert(fw, framework.value.format, RawTests(GetParameters(actions).value).value,
                         ExecutingDirectory(GetParameters(actions).value)) == Return(cr)
    ensures var o := PerformEffects(framework, lib, true, actions, result);
            && o.completion == Normal && o.result == result
            && |o.actions| > 0
            && o.actions[|o.actions| - 1]
               == ParametersAction(GetParameters(actions).value + [ParameterValue(cr.parameterName, StringValue(cr.convertedTests))])
            && o.actions[..|o.actions| - 1] == RemoveParametersActions(actions)
            && (forall j :: 0 <= j < |o.actions| - 1 ==> !o.actions[j].ParametersAction?)
            && GetParameters(o.actions) == Some(GetParameters(actions).value + [ParameterValue(cr.parameterName, StringValue(cr.convertedTests))])
  {
    var o := PerformEffects(framework, lib, true, actions, result);
    var removed := RemoveParametersActions(actions);
    var n := |o.actions| - 1;
    assert o.actions == removed + [o.actions[n]];
    assert forall j :: 0 <= j < n ==> o.actions[j] == removed[j];
    var f := FirstParametersAction(o.actions, 0);
    assert f == Some(n);
  }

  /** A successful conversion in any other build adds exactly one variable-injection action
      with the converted parameter. */
  lemma PerformInjectsVariable(framework: Option<ConverterModel>, lib: ConverterLibrary,
                               actions: seq<Action>, result: Option<BuildResult>,
                               fw: TestsToRunFramework, cr: ConverterResult)
    requires GetParameters(actions).Some? && IsNotEmpty(RawTests(GetParameters(actions).value))
    requires framework.Some? && IsNotEmpty(framework.value.name)
    requires lib.fromValue(framework.value.name.value) == Return(fw)
    requires lib.convert(fw, framework.value.format, RawTests(GetParameters(actions).value).value,
                         ExecutingDirectory(GetParameters(actions).value)) == Return(cr)
    ensures PerformEffects(framework, lib, false, actions, result)
            == PerformOutcome(actions + [VariableInjectionAction(cr.parameterName, cr.convertedTests)], result, Normal)
  {
  }

  /** An argument error of the library fails the build, adds no action, and is not rethrown. */
  lemma PerformFailsOnArgumentError(framework: Option<ConverterModel>, lib: ConverterLibrary,
                                    isWorkflowRun: bool, actions: seq<Action>, result: Option<BuildResult>)
    requires GetParameters(actions).Some? && IsNotEmpty(RawTests(GetParameters(actions).value))
    requires framework.Some? && IsNotEmpty(framework.value.name)
    requires var fw := lib.fromValue(framework.value.name.value);
             || (fw.Throw? && IsIllegalArgument(fw.e))
             || (fw.Return? &&
                 var c := lib.convert(fw.value, framework.value.format, RawTests(GetParameters(actions).value).value,
                                      ExecutingDirectory(GetParameters(actions).value));
                 c.Throw? && IsIllegalArgument(c.e))
    ensures var o := PerformEffects(framework, lib, isWorkflowRun, actions, result);
            && o.actions == actions && o.completion == Normal
            && o.result.Some? && Ordinal(o.result.value) >= Ordinal(Failure)
  {
  }

  /** Where the written guard throws, perform leaves the build alone and the NullPointerException
      or ClassCastException escapes it. */
  lemma PerformAsWrittenEscapes(framework: Option<ConverterModel>, lib: ConverterLibrary,
                                isWorkflowRun: bool, actions: seq<Action>, result: Option<BuildResult>)
    requires GetParameters(actions).Some? && ExecutingDirectoryAsWritten(GetParameters(actions).value).Throw?
    ensures var e := ExecutingDirectoryAsWritten(GetParameters(actions).value).e;
            && (e == NullPointerException || e == ClassCastException)
            && PerformEffectsAsWritten(framework, lib, isWorkflowRun, actions, result) == PerformOutcome(actions, result, Abrupt(e))
  {
  }

  /** Wherever the written guard returns, perform as written and perform with the corrected
      guard have the same effects. */
  lemma PerformAsWrittenAgrees(framework: Option<ConverterModel>, lib: ConverterLibrary,
                               isWorkflowRun: bool, actions: seq<Action>, result: Option<BuildResult>)
    requires GetParameters(actions).None? || ExecutingDirectoryAsWritten(GetParameters(actions).value).Return?
    ensures PerformEffectsAsWritten(framework, lib, isWorkflowRun, actions, result)
            == PerformEffects(framework, lib, isWorkflowRun, actions, result)
  {
    var parameterAction := GetParameters(actions);
    if parameterAction.Some? && RawTests(parameterAction.value).Some? {
      AsWrittenAgreesWithTests(parameterAction.value);
    }
  }

  /** Only a checkout directory: perform as written throws NullPointerException, where the
      corrected step skips normally. */
  lemma PerformAsWrittenThrowsWithoutTests(framework: Option<ConverterModel>, lib: ConverterLibrary,
                                           isWorkflowRun: bool, result: Option<BuildResult>)
    ensures var actions := [ParametersAction([ParameterValue(CHECKOUT_DIRECTORY_PARAMETER, StringValue("src"))])];
            && PerformEffectsAsWritten(framework, lib, isWorkflowRun, actions, result)
               == PerformOutcome(actions, result, Abrupt(NullPointerException))
            && PerformEffects(framework, lib, isWorkflowRun, actions, result) == PerformOutcome(actions, result, Normal)
  {
    var params := [ParameterValue(CHECKOUT_DIRECTORY_PARAMETER, StringValue("src"))];
    var actions := [ParametersAction(params)];
    assert FirstParametersAction(actions, 0) == Some(0);
    AsWrittenThrowsWithoutTests();
    assert CHECKOUT_DIRECTORY_PARAMETER != TESTS_TO_RUN_PARAMETER by {
      assert |CHECKOUT_DIRECTORY_PARAMETER| != |TESTS_TO_RUN_PARAMETER|;
    }
    assert GetParameter(params[1..], TESTS_TO_RUN_PARAMETER) == None;
  }

  /** Tests to run and a checkout value that is not a String: perform as written throws
      ClassCastException before it reaches the framework checks. */
  lemma PerformAsWrittenThrowsOnNonString(framework: Option<ConverterModel>, lib: ConverterLibrary,
                                          isWorkflowRun: bool, result: Option<BuildResult>)
    ensures var actions := [ParametersAction([ParameterValue(TESTS_TO_RUN_PARAMETER, StringValue("a")),
                                              ParameterValue(CHECKOUT_DIRECTORY_PARAMETER, OtherValue)])];
            PerformEffectsAsWritten(framework, lib, isWorkflowRun, actions, result)
            == PerformOutcome(actions, result, Abrupt(ClassCastException))
  {
    var params := [ParameterValue(TESTS_TO_RUN_PARAMETER, StringValue("a")),
                   ParameterValue(CHECKOUT_DIRECTORY_PARAMETER, OtherValue)];
    var actions := [ParametersAction(params)];
    assert FirstParametersAction(actions, 0) == Some(0);
    AsWrittenThrowsOnNonString();
  }

  /** The step itself, holding the framework model it was configured with. */
  class TestsToRunConverterBuilder {
    var framework: Option<ConverterModel>

    constructor (framework: Value, format: Value)
      ensures this.framework == Some(ConverterModel(framework, format))
    {
      this.framework := Some(ConverterModel(framework, format));
    }

    /** The constructor without a format, which uses the empty one. */
    constructor WithoutFormat(framework: Value)
      ensures this.framework == Some(ConverterModel(framework, Some("")))
    {
      this.framework := Some(ConverterModel(framework, Some("")));
    }

    /** perform; `lib` is the converter library. */
    method Perform(build: Build, lib: ConverterLibrary) returns (completion: Completion)
      modifies build
      ensures var o := PerformEffects(framework, lib, build.isWorkflowRun, old(build.actions), old(build.result));
              build.actions == o.actions && build.result == o.result && completion == o.completion
    {
      var parameterAction := build.GetAction();
      var rawTests: Value := None;
      var executingDirectory := DEFAULT_EXECUTING_DIRECTORY;
      if parameterAction.Some? {
        var testsParameter := GetParameter(parameterAction.value, TESTS_TO_RUN_PARAMETER);
        if testsParameter.Some? && testsParameter.value.value.StringValue? {
          rawTests := Some(testsParameter.value.value.s);
        }
        var checkoutDirParameter := GetParameter(parameterAction.value, CHECKOUT_DIRECTORY_PARAMETER);
        if checkoutDirParameter.Some? {
          if checkoutDirParameter.value.value.StringValue? && |checkoutDirParameter.value.value.s| > 0 {
            executingDirectory := checkoutDirParameter.value.value.s;
          }
        }
      }
      if IsEmpty(rawTests) {
        return Normal;
      }
      if framework.None? || IsEmpty(framework.value.name) {
        return Normal;
      }
      var frameworkName := framework.value.name.value;
      var frameworkFormat := framework.value.format;
      var testsToRunFramework := lib.fromValue(frameworkName);
      if testsToRunFramework.Throw? {
        completion := Fail(build, testsToRunFramework.e);
        return;
      }
      var convertResult := lib.convert(testsToRunFramework.value, frameworkFormat, rawTests.value, executingDirectory);
      if convertResult.Throw? {
        completion := Fail(build, convertResult.e);
        return;
      }
      var cr := convertResult.value;
      if build.isWorkflowRun {
        var newParams := if parameterAction.Some? then parameterAction.value else [];
        newParams := newParams + [ParameterValue(cr.parameterName, StringValue(cr.convertedTests))];
        build.AddOrReplaceAction(newParams);
      } else {
        build.AddAction(VariableInjectionAction(cr.parameterName, cr.convertedTests));
      }
      return Normal;
    }

    /** The catch clause of perform. */
    static method Fail(build: Build, e: Exception) returns (completion: Completion)
      modifies build
      ensures var o := Failed(e, old(build.actions), old(build.result));
              build.actions == o.actions && build.result == o.result && completion == o.completion
    {
      if IsIllegalArgument(e) {
        build.SetResult(Failure);
        return Normal;
      }
      return Abrupt(e);
    }
  }
}
