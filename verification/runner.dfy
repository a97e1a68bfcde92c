/** The run orchestrator: resolves a test case's provider through a cache
    of instances keyed by provider name, generates a response, evaluates
    it, and packages exactly one result, turning every exception into a
    failed result. The cache is threaded through explicitly. */
module Runner {
  import opened Wrappers
  import opened Models
  import opened Providers
  import Evaluator

  /** `TestRunner.providers`. */
  type Cache = map<string, Provider>

  datatype Resolution = Resolution(provider: Provider, cache: Cache)

  /** The module imports only the Claude and Goose providers, so the
      "openai" branch refers to an undefined name. */
  const OpenAINameError: string := "name 'OpenAIProvider' is not defined"

  /** `TestRunner._get_provider`: a cached instance is returned as is;
      otherwise the named provider is constructed and cached, and any
      exception leaves the cache as it was. */
  function GetProvider(cache: Cache, name: string, env: Env): (r: Result<Resolution, string>)
    ensures name in cache ==> r == Ok(Resolution(cache[name], cache))
    ensures r.Ok? ==> r.value.cache == cache[name := r.value.provider]
    ensures r.Ok? ==> WellFormed(r.value.provider) || name in cache
    ensures name !in cache && name == "openai" ==> r == Err(OpenAINameError)
    ensures name !in cache && name != "claude" && name != "openai" && name != "goose" ==>
              r == Err("Unknown provider: " + name)
    ensures name !in cache && name == "claude" ==>
              (r.Ok? <==> NewClaude(None, env).Ok?) && (r.Ok? ==> r.value.provider == NewClaude(None, env).value)
    ensures name !in cache && name == "claude" && r.Err? ==> NewClaude(None, env) == Err(r.error)
    ensures name !in cache && name == "goose" ==>
              (r.Ok? <==> NewGoose(None, env).Ok?) && (r.Ok? ==> r.value.provider == NewGoose(None, env).value)
    ensures name !in cache && name == "goose" && r.Err? ==> NewGoose(None, env) == Err(r.error)
  {
    if name in cache then Ok(Resolution(cache[name], cache))
    else
      var made :=
        if name == "claude" then NewClaude(None, env)
        else if name == "openai" then Err(OpenAINameError)
        else if name == "goose" then NewGoose(None, env)
        else Err("Unknown provider: " + name);
      match made
      case Err(msg) => Err(msg)
      case Ok(p) => Ok(Resolution(p, cache[name := p]))
  }

  /** The arguments `run_test` passes to `generate`. */
  function CallOf(tc: TestCase): Call
  {
    Call(tc.prompt, tc.model, tc.systemPrompt, tc.temperature, tc.maxTokens)
  }

  datatype Run = Run(result: TestResult, cache: Cache)

  /** The fields every result copies from its test case. */
  predicate DescribesCase(r: TestResult, tc: TestCase)
  {
    && r.testId == tc.id
    && r.testName == tc.name
    && r.prompt == tc.prompt
    && r.provider == tc.provider.Name()
    && r.model == tc.model
  }

  /** The `except` branch's record: no response, verdict false, no
      diagnostics, and the exception text as the error. */
  predicate FailedWith(r: TestResult, msg: string)
  {
    r.response == "" && r.passed == Some(false) && r.evaluationResults == [] && r.error == Some(msg)
  }

  /** The result record of the `except` branch. */
  function FailedResult(tc: TestCase, msg: string): (r: TestResult)
    ensures DescribesCase(r, tc) && FailedWith(r, msg)
  {
    NewTestResult(tc.id, tc.name, tc.prompt, "", tc.provider.Name(), tc.model)
      .(passed := Some(false), error := Some(msg))
  }

  /** Whether every step of the `try` block returns: the provider resolves,
      generation succeeds and the evaluator does not raise. */
  predicate Completes(cache: Cache, tc: TestCase, env: Env, vendor: Vendor, search: Evaluator.RegexSearch)
  {
    var res := GetProvider(cache, tc.provider.Name(), env);
    && res.Ok?
    && var gen := Generate(res.value.provider, CallOf(tc), vendor);
       && gen.Ok?
       && Evaluator.Evaluate(gen.value, tc.expectations, search).Ok?
  }

  /** `TestRunner.run_test`. It always returns one result describing the
      test case. A resolution, generation or evaluation exception yields a
      failed record with that exception's text; a run that completes
      carries the generated response with the evaluator's verdict and
      diagnostics and no error. The cache gains the provider the run
      resolved, even when generation or evaluation fails afterwards. */
  function RunTest(cache: Cache, tc: TestCase, env: Env, vendor: Vendor, search: Evaluator.RegexSearch): (r: Run)
    ensures DescribesCase(r.result, tc)
    ensures var res := GetProvider(cache, tc.provider.Name(), env);
            res.Err? ==> FailedWith(r.result, res.error) && r.cache == cache
    ensures var res := GetProvider(cache, tc.provider.Name(), env);
            res.Ok? ==>
              && r.cache == res.value.cache
              && var gen := Generate(res.value.provider, CallOf(tc), vendor);
                 && (gen.Err? ==> FailedWith(r.result, gen.error))
                 && (gen.Ok? ==>
                       var ev := Evaluator.Evaluate(gen.value, tc.expectations, search);
                       && (ev.Err? ==> FailedWith(r.result, ev.error))
                       && (ev.Ok? ==>
                             && r.result.response == gen.value
                             && r.result.passed == ev.value.verdict
                             && r.result.evaluationResults == ev.value.diagnostics
                             && r.result.error == None))
  {
    match GetProvider(cache, tc.provider.Name(), env)
    case Err(msg) => Run(FailedResult(tc, msg), cache)
    case Ok(res) =>
      var result :=
        match Generate(res.provider, CallOf(tc), vendor)
        case Err(msg) => FailedResult(tc, msg)
        case Ok(response) =>
          match Evaluator.Evaluate(response, tc.expectations, search)
          case Err(msg) => FailedResult(tc, msg)
          case Ok(ev) =>
            NewTestResult(tc.id, tc.name, tc.prompt, response, tc.provider.Name(), tc.model)
              .(passed := ev.verdict, evaluationResults := ev.diagnostics);
      Run(result, res.cache)
  }

  // ---------------------------------------------------------------------
  // Properties of the orchestrator

  /** A cached provider is returned without constructing anything, so the
      environment at the time of the later call plays no part. */
  lemma CachedProviderIgnoresEnv(cache: Cache, name: string, env1: Env, env2: Env)
    requires name in cache
    ensures GetProvider(cache, name, env1) == GetProvider(cache, name, env2)
    ensures GetProvider(cache, name, env1).value.provider == cache[name]
  {
  }

  /** What a runner's cache can hold: only "claude" and "goose", each bound
      to a well-formed instance of its own kind. */
  predicate CacheInvariant(cache: Cache)
  {
    forall n :: n in cache ==>
      && (n == "claude" || n == "goose")
      && WellFormed(cache[n])
      && (n == "claude" ==> cache[n].Claude?)
      && (n == "goose" ==> cache[n].Goose?)
  }

  /** A fresh runner starts with an empty cache, which satisfies the invariant. */
  lemma EmptyCacheInvariant()
    ensures CacheInvariant(map[])
  {
  }

  /** Every run keeps the cache invariant. */
  lemma RunKeepsCacheInvariant(cache: Cache, tc: TestCase, env: Env, vendor: Vendor, search: Evaluator.RegexSearch)
    requires CacheInvariant(cache)
    ensures CacheInvariant(RunTest(cache, tc, env, vendor, search).cache)
  {
  }

  /** Because the OpenAI provider class is never imported, every run of an
      "openai" test case from a reachable cache fails with the NameError
      text, and leaves the cache unchanged. */
  lemma OpenAIRunAlwaysFails(cache: Cache, tc: TestCase, env: Env, vendor: Vendor, search: Evaluator.RegexSearch)
    requires CacheInvariant(cache)
    requires tc.provider == OpenAIName
    ensures RunTest(cache, tc, env, vendor, search).result.error == Some(OpenAINameError)
    ensures RunTest(cache, tc, env, vendor, search).result.response == ""
    ensures RunTest(cache, tc, env, vendor, search).cache == cache
  {
    assert "openai" !in cache;
  }

  /** A result is inconclusive only when the run completed and the test
      case has no expectations; a run that completes with no expectations
      is always inconclusive. */
  lemma InconclusiveOnlyWithoutExpectations(cache: Cache, tc: TestCase, env: Env, vendor: Vendor, search: Evaluator.RegexSearch)
    ensures RunTest(cache, tc, env, vendor, search).result.passed.None? <==>
              Completes(cache, tc, env, vendor, search) && tc.expectations == []
  {
  }

  /** A run is reported without an error exactly when every step completed. */
  lemma ErrorIffNotCompleted(cache: Cache, tc: TestCase, env: Env, vendor: Vendor, search: Evaluator.RegexSearch)
    ensures RunTest(cache, tc, env, vendor, search).result.error.None? <==> Completes(cache, tc, env, vendor, search)
  {
  }

  /** A missing Anthropic key makes a fresh "claude" run fail with a
      non-empty error and an empty response, instead of raising. */
  lemma MissingKeyGivesFailedResult(tc: TestCase, env: Env, vendor: Vendor, search: Evaluator.RegexSearch)
    requires tc.provider == ClaudeName
    requires !Truthy(GetEnv(env, AnthropicKeyVar))
    ensures RunTest(map[], tc, env, vendor, search).result.error == Some("ANTHROPIC_API_KEY not found")
    ensures RunTest(map[], tc, env, vendor, search).result.response == ""
    ensures RunTest(map[], tc, env, vendor, search).result.passed == Some(false)
  {
  }

  /** On a completed run, `generate` was called on the resolved provider
      with the test case's own prompt, model, system prompt, temperature
      and token limit. */
  lemma GenerateSeesTestCase(cache: Cache, tc: TestCase, env: Env, vendor: Vendor, search: Evaluator.RegexSearch)
    ensures Completes(cache, tc, env, vendor, search) ==> GetProvider(cache, tc.provider.Name(), env).Ok?
    ensures Completes(cache, tc, env, vendor, search) ==>
            var p := GetProvider(cache, tc.provider.Name(), env).value.provider;
            Generate(p, Call(tc.prompt, tc.model, tc.systemPrompt, tc.temperature, tc.maxTokens), vendor)
            == Ok(RunTest(cache, tc, env, vendor, search).result.response)
  {
  }
}
