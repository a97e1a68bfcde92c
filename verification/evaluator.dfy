/** The evaluator: checks one generated response against a test case's
    expectations and produces a tri-state verdict plus one diagnostic per
    expectation. The regular-expression engine is a parameter. */
module Evaluator {
  import opened Wrappers
  import opened Strings
  import opened Models

  /** `re.search(pattern, text) is not None`, or the `re.error` text for an
      invalid pattern. */
  type RegexSearch = (string, string) -> Result<bool, string>

  /** What the diagnostic says the expectation checks: its own description
      unless that is missing or empty, otherwise "<kind>: <value>". */
  function Describe(e: Expectation): (r: string)
    ensures e.description.Some? && e.description.value != "" ==> r == e.description.value
    ensures !(e.description.Some? && e.description.value != "") ==>
              r == e.kind.QualifiedName() + ": " + e.value.Text()
    ensures r != ""
  {
    if e.description.Some? && e.description.value != "" then e.description.value
    else e.kind.QualifiedName() + ": " + e.value.Text()
  }

  /** Whether the expectation's value has the type its kind needs: a string
      for the substring and pattern kinds, an integer for the length bounds;
      a manual expectation never looks at its value. */
  predicate WellTyped(e: Expectation)
  {
    match e.kind
    case Contains => e.value.Str?
    case NotContains => e.value.Str?
    case Regex => e.value.Str?
    case LengthMin => e.value.Int?
    case LengthMax => e.value.Int?
    case Manual => true
  }

  function NoLowerError(v: Value): string
  {
    "'" + v.TypeName() + "' object has no attribute 'lower'"
  }

  function CompareError(op: string, v: Value): string
  {
    "'" + op + "' not supported between instances of 'int' and '" + v.TypeName() + "'"
  }

  const PatternTypeError: string := "first argument must be string or compiled pattern"
  const ManualDetails: string := "Manual review required"

  /** `Evaluator._evaluate_single`: `Err` is the exception the kind's test
      raises (`.lower()`, `re.search` or the comparison). */
  function EvaluateSingle(response: string, e: Expectation, search: RegexSearch): (r: Result<Diagnostic, string>)
    ensures r.Ok? ==> r.value.kind == e.kind && r.value.description == Describe(e)
    ensures !WellTyped(e) ==> r.Err?
    ensures WellTyped(e) && e.kind != Regex ==> r.Ok?
    ensures r.Ok? ==> (r.value.passed.None? <==> e.kind == Manual)
  {
    var d := Describe(e);
    match e.kind
    case Contains =>
      if !e.value.Str? then Err(NoLowerError(e.value))
      else Ok(Diagnostic(Contains, d, Some(IsSubstring(Lower(e.value.s), Lower(response))),
                         "Looking for: '" + e.value.s + "'"))
    case NotContains =>
      if !e.value.Str? then Err(NoLowerError(e.value))
      else Ok(Diagnostic(NotContains, d, Some(!IsSubstring(Lower(e.value.s), Lower(response))),
                         "Should not contain: '" + e.value.s + "'"))
    case Regex =>
      if !e.value.Str? then Err(PatternTypeError)
      else (match search(e.value.s, response)
            case Err(msg) => Err(msg)
            case Ok(found) => Ok(Diagnostic(Regex, d, Some(found), "Pattern: " + e.value.s)))
    case LengthMin =>
      if !e.value.Int? then Err(CompareError(">=", e.value))
      else Ok(Diagnostic(LengthMin, d, Some(|response| >= e.value.n),
                         "Min length: " + IntToString(e.value.n) + ", Actual: " + IntToString(|response|)))
    case LengthMax =>
      if !e.value.Int? then Err(CompareError("<=", e.value))
      else Ok(Diagnostic(LengthMax, d, Some(|response| <= e.value.n),
                         "Max length: " + IntToString(e.value.n) + ", Actual: " + IntToString(|response|)))
    case Manual =>
      Ok(Diagnostic(Manual, d, None, ManualDetails))
  }

  /** The outcome of evaluating a non-empty expectation list, or of an empty one. */
  datatype Evaluation = Evaluation(verdict: Option<bool>, diagnostics: seq<Diagnostic>)

  /** A per-item flag that Python's `not` treats as failure: `False` and `None`. */
  predicate Falsy(passed: Option<bool>)
  {
    passed != Some(true)
  }

  /** The loop's `all_passed` flag after visiting every diagnostic. */
  function AllPassed(ds: seq<Diagnostic>): (r: bool)
    ensures r <==> forall i :: 0 <= i < |ds| ==> ds[i].passed == Some(true)
  {
    if ds == [] then true
    else if Falsy(ds[0].passed) then false
    else AllPassed(ds[1..])
  }

  /** The loop of `Evaluator.evaluate`: evaluate every expectation in order,
      stopping at the first that raises. */
  function EvaluateEach(response: string, es: seq<Expectation>, search: RegexSearch): (r: Result<seq<Diagnostic>, string>)
    ensures r.Ok? ==> |r.value| == |es|
    ensures r.Ok? ==> forall i :: 0 <= i < |es| ==> EvaluateSingle(response, es[i], search) == Ok(r.value[i])
    ensures r.Ok? <==> forall i :: 0 <= i < |es| ==> EvaluateSingle(response, es[i], search).Ok?
    ensures r.Err? ==> exists i :: 0 <= i < |es| && EvaluateSingle(response, es[i], search) == Err(r.error)
                                   && forall j :: 0 <= j < i ==> EvaluateSingle(response, es[j], search).Ok?
  {
    if es == [] then Ok([])
    else
      match EvaluateSingle(response, es[0], search)
      case Err(msg) => Err(msg)
      case Ok(d) =>
        match EvaluateEach(response, es[1..], search)
        case Err(msg) =>
          assert forall j :: 1 <= j < |es| ==> es[j] == es[1..][j - 1];
          Err(msg)
        case Ok(ds) =>
          assert forall j :: 1 <= j < |es| ==> es[j] == es[1..][j - 1];
          Ok([d] + ds)
  }

  /** `Evaluator.evaluate`. An empty list is inconclusive; otherwise the
      verdict is true exactly when every item passed outright, so a manual
      item (whose flag is `None`) makes it false. */
  function Evaluate(response: string, es: seq<Expectation>, search: RegexSearch): (r: Result<Evaluation, string>)
    ensures es == [] ==> r == Ok(Evaluation(None, []))
    ensures r.Ok? <==> forall i :: 0 <= i < |es| ==> EvaluateSingle(response, es[i], search).Ok?
    ensures r.Ok? && es != [] ==>
              && |r.value.diagnostics| == |es|
              && (forall i :: 0 <= i < |es| ==> EvaluateSingle(response, es[i], search) == Ok(r.value.diagnostics[i]))
              && r.value.verdict == Some(forall i :: 0 <= i < |es| ==> r.value.diagnostics[i].passed == Some(true))
    ensures r.Err? ==> exists i :: 0 <= i < |es| && EvaluateSingle(response, es[i], search) == Err(r.error)
                                   && forall j :: 0 <= j < i ==> EvaluateSingle(response, es[j], search).Ok?
  {
    if es == [] then Ok(Evaluation(None, []))
    else
      match EvaluateEach(response, es, search)
      case Err(msg) => Err(msg)
      case Ok(ds) => Ok(Evaluation(Some(AllPassed(ds)), ds))
  }

  // ---------------------------------------------------------------------
  // Per-kind properties

  /** An expectation without a usable description of its own is reported as
      "<kind>: <value>", whatever the response and the engine. */
  lemma DiagnosticIdentifiesExpectation(response: string, e: Expectation, search: RegexSearch)
    requires e.description.None? || e.description == Some("")
    ensures EvaluateSingle(response, e, search).Ok? ==>
              EvaluateSingle(response, e, search).value.description == e.kind.QualifiedName() + ": " + e.value.Text()
  {
  }

  /** The details of a diagnostic show the criterion it checked and, for the
      length bounds, the observed length. */
  lemma SingleDetails(response: string, e: Expectation, search: RegexSearch)
    ensures EvaluateSingle(response, e, search).Ok? ==>
      var details := EvaluateSingle(response, e, search).value.details;
      match e.kind
      case Contains => details == "Looking for: '" + e.value.s + "'"
      case NotContains => details == "Should not contain: '" + e.value.s + "'"
      case Regex => details == "Pattern: " + e.value.s
      case LengthMin => details == "Min length: " + IntToString(e.value.n) + ", Actual: " + IntToString(|response|)
      case LengthMax => details == "Max length: " + IntToString(e.value.n) + ", Actual: " + IntToString(|response|)
      case Manual => details == ManualDetails
  {
  }

  /** The text of the exception one expectation raises: the attribute error
      of `.lower()` on a non-string, the type error of `re.search` on a
      non-string pattern, the engine's own message for a rejected pattern,
      and the comparison's type error for a non-integer bound. */
  lemma SingleErrorText(response: string, e: Expectation, search: RegexSearch)
    ensures EvaluateSingle(response, e, search).Err? ==>
      var err := EvaluateSingle(response, e, search).error;
      match e.kind
      case Contains => err == NoLowerError(e.value)
      case NotContains => err == NoLowerError(e.value)
      case Regex => (if e.value.Str? then err == search(e.value.s, response).error else err == PatternTypeError)
      case LengthMin => err == CompareError(">=", e.value)
      case LengthMax => err == CompareError("<=", e.value)
      case Manual => false
  {
  }

  /** Evaluation of one expectation raises exactly when its value has the
      wrong type for its kind, or when the pattern engine rejects a pattern. */
  lemma SingleFailsOnlyOnMisuse(response: string, e: Expectation, search: RegexSearch)
    ensures EvaluateSingle(response, e, search).Err? <==>
              !WellTyped(e) || (e.kind == Regex && search(e.value.s, response).Err?)
  {
  }

  /** A case-insensitive occurrence of `v` in `response`, stated window by window. */
  predicate OccursIgnoringCase(v: string, response: string)
  {
    exists i :: 0 <= i <= |response| - |v| && OccursIgnoringCaseAt(v, response, i)
  }

  predicate OccursIgnoringCaseAt(v: string, response: string, i: int)
    requires 0 <= i <= |response| - |v|
  {
    EqualIgnoringCase(response[i..i + |v|], v)
  }

  lemma LowerSlice(s: string, i: int, j: int)
    requires 0 <= i <= j <= |s|
    ensures Lower(s)[i..j] == Lower(s[i..j])
  {
  }

  lemma LowerEqualIff(a: string, b: string)
    requires |a| == |b|
    ensures Lower(a) == Lower(b) <==> EqualIgnoringCase(a, b)
  {
  }

  /** Lower-casing both sides and testing substring membership is the same
      as finding a window of the response equal to the value up to case. */
  lemma {:induction false} SubstringOfLowerIff(v: string, response: string)
    ensures IsSubstring(Lower(v), Lower(response)) <==> OccursIgnoringCase(v, response)
  {
    if IsSubstring(Lower(v), Lower(response)) {
      var i :| 0 <= i <= |response| - |v| && OccursAt(Lower(v), Lower(response), i);
      LowerSlice(response, i, i + |v|);
      LowerEqualIff(response[i..i + |v|], v);
      assert OccursIgnoringCaseAt(v, response, i);
    }
    if OccursIgnoringCase(v, response) {
      var i :| 0 <= i <= |response| - |v| && OccursIgnoringCaseAt(v, response, i);
      LowerSlice(response, i, i + |v|);
      LowerEqualIff(response[i..i + |v|], v);
      assert OccursAt(Lower(v), Lower(response), i);
    }
  }

  /** `contains` passes exactly when the value occurs in the response
      ignoring case, and `not_contains` on the same value passes exactly
      when `contains` fails. */
  lemma ContainsIgnoresCase(response: string, v: string, d: Option<string>, search: RegexSearch)
    ensures EvaluateSingle(response, Expectation(Contains, Str(v), d), search).Ok?
    ensures EvaluateSingle(response, Expectation(NotContains, Str(v), d), search).Ok?
    ensures EvaluateSingle(response, Expectation(Contains, Str(v), d), search).value.passed
            == Some(OccursIgnoringCase(v, response))
    ensures EvaluateSingle(response, Expectation(NotContains, Str(v), d), search).value.passed
            == Some(!OccursIgnoringCase(v, response))
  {
    SubstringOfLowerIff(v, response);
  }

  /** Both length bounds are inclusive: `length_min n` passes iff the
      response has at least n characters, `length_max n` iff at most n, so
      a response of exactly n characters passes both. */
  lemma LengthBoundsInclusive(response: string, n: int, d: Option<string>, search: RegexSearch)
    ensures EvaluateSingle(response, Expectation(LengthMin, Int(n), d), search).Ok?
    ensures EvaluateSingle(response, Expectation(LengthMax, Int(n), d), search).Ok?
    ensures EvaluateSingle(response, Expectation(LengthMin, Int(n), d), search).value.passed == Some(n <= |response|)
    ensures EvaluateSingle(response, Expectation(LengthMax, Int(n), d), search).value.passed == Some(|response| <= n)
    ensures |response| == n ==>
              && EvaluateSingle(response, Expectation(LengthMin, Int(n), d), search).value.passed == Some(true)
              && EvaluateSingle(response, Expectation(LengthMax, Int(n), d), search).value.passed == Some(true)
  {
  }

  /** A manual expectation never raises and is never scored, whatever the
      response and whatever its value. */
  lemma ManualIsNeverScored(response: string, e: Expectation, search: RegexSearch)
    requires e.kind == Manual
    ensures EvaluateSingle(response, e, search) == Ok(Diagnostic(Manual, Describe(e), None, ManualDetails))
  {
  }

  /** A regex expectation passes exactly when the engine finds a match of
      the pattern anywhere in the response. */
  lemma RegexFollowsEngine(response: string, pattern: string, d: Option<string>, search: RegexSearch)
    requires search(pattern, response).Ok?
    ensures EvaluateSingle(response, Expectation(Regex, Str(pattern), d), search).Ok?
    ensures EvaluateSingle(response, Expectation(Regex, Str(pattern), d), search).value.passed
            == Some(search(pattern, response).value)
  {
  }

  // ---------------------------------------------------------------------
  // Aggregate properties

  /** A non-empty expectation list that evaluates never yields the
      inconclusive verdict, and any manual item in it makes the verdict false. */
  lemma ManualMakesVerdictFalse(response: string, es: seq<Expectation>, search: RegexSearch, k: int)
    requires 0 <= k < |es| && es[k].kind == Manual
    ensures Evaluate(response, es, search).Ok? ==> Evaluate(response, es, search).value.verdict == Some(false)
  {
  }

  /** The verdict is inconclusive exactly when there are no expectations. */
  lemma InconclusiveIffEmpty(response: string, es: seq<Expectation>, search: RegexSearch)
    ensures Evaluate(response, es, search).Ok? ==> (Evaluate(response, es, search).value.verdict.None? <==> es == [])
  {
  }

  /** A 10-character response against a minimum of 15 fails and reports
      both numbers. */
  lemma MinLengthExample(search: RegexSearch)
    ensures EvaluateSingle("0123456789", NewExpectation(LengthMin, Int(15)), search)
            == Ok(Diagnostic(LengthMin, "EvaluationType.LENGTH_MIN: 15", Some(false), "Min length: 15, Actual: 10"))
  {
    var response, e := "0123456789", NewExpectation(LengthMin, Int(15));
    assert |response| == 10;
    assert IntToString(15) == "15" by {
      assert NatToString(1) == "1";
    }
    assert IntToString(10) == "10" by {
      assert NatToString(1) == "1";
    }
    assert Describe(e) == "EvaluationType.LENGTH_MIN: 15";
    assert EvaluateSingle(response, e, search)
           == Ok(Diagnostic(LengthMin, Describe(e), Some(false),
                            "Min length: " + IntToString(15) + ", Actual: " + IntToString(|response|)));
    assert "Min length: " + "15" + ", Actual: " + "10" == "Min length: 15, Actual: 10";
  }

  /** "hello" is found in "Hello World", whatever the case. */
  lemma ContainsExample(search: RegexSearch)
    ensures EvaluateSingle("Hello World", NewExpectation(Contains, Str("hello")), search).value.passed == Some(true)
  {
    var response, v := "Hello World", "hello";
    assert OccursIgnoringCase(v, response) by {
      assert OccursIgnoringCaseAt(v, response, 0);
    }
    ContainsIgnoresCase(response, v, None, search);
  }
}
