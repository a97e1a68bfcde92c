/** The records the harness passes around: expectation kinds, expectations,
    test cases, per-expectation diagnostics and test results, with the
    defaults the pydantic models give to omitted fields. Timestamps
    (`created_at`, `timestamp`) and `execution_time` are not modelled. */
module Models {
  import opened Wrappers
  import Strings

  /** `EvaluationType`: the six kinds of assertion an expectation can make. */
  datatype Kind = Contains | NotContains | Regex | LengthMin | LengthMax | Manual
  {
    /** The enum member's string value, as stored in JSON. */
    function Name(): string
    {
      match this
      case Contains => "contains"
      case NotContains => "not_contains"
      case Regex => "regex"
      case LengthMin => "length_min"
      case LengthMax => "length_max"
      case Manual => "manual"
    }

    /** How an f-string renders the member of this `(str, Enum)` class on
        Python 3.11 and later: class name, dot, member name. */
    function QualifiedName(): string
    {
      match this
      case Contains => "EvaluationType.CONTAINS"
      case NotContains => "EvaluationType.NOT_CONTAINS"
      case Regex => "EvaluationType.REGEX"
      case LengthMin => "EvaluationType.LENGTH_MIN"
      case LengthMax => "EvaluationType.LENGTH_MAX"
      case Manual => "EvaluationType.MANUAL"
    }
  }

  const AllKinds: seq<Kind> := [Contains, NotContains, Regex, LengthMin, LengthMax, Manual]

  /** `EvaluationType(s)`: look a kind up by its string value; `None` stands
      for the `ValueError` an unknown value raises. */
  function ParseKind(s: string): (r: Option<Kind>)
    ensures r.Some? ==> r.value.Name() == s
    ensures r.None? ==> forall k: Kind :: k.Name() != s
  {
    if s == "contains" then Some(Contains)
    else if s == "not_contains" then Some(NotContains)
    else if s == "regex" then Some(Regex)
    else if s == "length_min" then Some(LengthMin)
    else if s == "length_max" then Some(LengthMax)
    else if s == "manual" then Some(Manual)
    else None
  }

  /** There are exactly six kinds, with pairwise distinct names, and each
      name parses back to its kind. */
  lemma KindsAreSix()
    ensures |AllKinds| == 6
    ensures forall k: Kind :: k in AllKinds
    ensures forall i, j :: 0 <= i < j < |AllKinds| ==> AllKinds[i].Name() != AllKinds[j].Name()
    ensures forall k: Kind :: ParseKind(k.Name()) == Some(k)
  {
    forall k: Kind ensures k in AllKinds {
      match k
      case Contains => assert AllKinds[0] == k;
      case NotContains => assert AllKinds[1] == k;
      case Regex => assert AllKinds[2] == k;
      case LengthMin => assert AllKinds[3] == k;
      case LengthMax => assert AllKinds[4] == k;
      case Manual => assert AllKinds[5] == k;
    }
  }

  /** An expectation's `value` is typed `Any`; the values the harness meets
      are strings, integers and `None`. */
  datatype Value = Str(s: string) | Int(n: int) | NoValue
  {
    /** `f"{value}"`. */
    function Text(): string
    {
      match this
      case Str(s) => s
      case Int(n) => Strings.IntToString(n)
      case NoValue => "None"
    }

    /** `type(value).__name__`, as it appears in Python's error messages. */
    function TypeName(): string
    {
      match this
      case Str(_) => "str"
      case Int(_) => "int"
      case NoValue => "NoneType"
    }
  }

  datatype Expectation = Expectation(kind: Kind, value: Value, description: Option<string>)

  /** An expectation built without a description. */
  function NewExpectation(kind: Kind, value: Value): (e: Expectation)
    ensures e.kind == kind && e.value == value
    ensures e.description == None
  {
    Expectation(kind, value, None)
  }

  /** The `Literal["claude", "openai", "goose"]` a test case's provider must be. */
  datatype ProviderName = ClaudeName | OpenAIName | GooseName
  {
    function Name(): string
    {
      match this
      case ClaudeName => "claude"
      case OpenAIName => "openai"
      case GooseName => "goose"
    }
  }

  /** Validation of the provider literal; `None` is the validation error. */
  function ParseProviderName(s: string): (r: Option<ProviderName>)
    ensures r.Some? ==> r.value.Name() == s
    ensures r.None? ==> forall p: ProviderName :: p.Name() != s
  {
    if s == "claude" then Some(ClaudeName)
    else if s == "openai" then Some(OpenAIName)
    else if s == "goose" then Some(GooseName)
    else None
  }

  const DefaultModel: string := "claude-sonnet-4-20250514"
  const DefaultTemperature: real := 1.0
  const DefaultMaxTokens: int := 1024

  datatype TestCase = TestCase(
    id: string,
    name: string,
    prompt: string,
    provider: ProviderName,
    model: string,
    expectations: seq<Expectation>,
    systemPrompt: Option<string>,
    temperature: real,
    maxTokens: int,
    tags: seq<string>)

  /** A test case built from its three required fields, every other field at its default. */
  function NewTestCase(id: string, name: string, prompt: string): (tc: TestCase)
    ensures tc.id == id && tc.name == name && tc.prompt == prompt
    ensures tc.provider == ClaudeName && tc.model == "claude-sonnet-4-20250514"
    ensures tc.expectations == [] && tc.systemPrompt == None && tc.tags == []
    ensures tc.temperature == 1.0 && tc.maxTokens == 1024
  {
    TestCase(id, name, prompt, ClaudeName, DefaultModel, [], None,
             DefaultTemperature, DefaultMaxTokens, [])
  }

  /** One entry of `evaluation_results`: the dict built per expectation. */
  datatype Diagnostic = Diagnostic(kind: Kind, description: string, passed: Option<bool>, details: string)

  datatype TestResult = TestResult(
    testId: string,
    testName: string,
    prompt: string,
    response: string,
    provider: string,
    model: string,
    passed: Option<bool>,
    evaluationResults: seq<Diagnostic>,
    error: Option<string>)

  /** A result built from its required fields: `passed` and `error` are
      `None` and `evaluation_results` is empty. */
  function NewTestResult(testId: string, testName: string, prompt: string,
                         response: string, provider: string, model: string): (r: TestResult)
    ensures r.testId == testId && r.testName == testName && r.prompt == prompt
    ensures r.response == response && r.provider == provider && r.model == model
    ensures r.passed == None && r.evaluationResults == [] && r.error == None
  {
    TestResult(testId, testName, prompt, response, provider, model, None, [], None)
  }
}
