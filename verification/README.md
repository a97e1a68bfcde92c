# Prompt-regression harness: a Dafny model of the evaluation-and-execution pipeline

The harness stores test cases (a prompt plus declarative expectations about
the response), sends each one to a language-model provider, checks the
generated response against the expectations, and keeps a history of result
records. This project models that pipeline as immutable datatypes and pure
functions, and proves what each step promises:

- `models.dfy` (`Models`): the six expectation kinds, expectation values
  (string, integer or `None`), test cases, per-expectation diagnostics and
  test results, with the pydantic defaults. `NewExpectation` leaves the
  description `None`. `NewTestCase` gives provider `claude`, model
  `claude-sonnet-4-20250514`, no expectations, no system prompt, temperature
  1.0, 1024 max tokens and no tags. `NewTestResult` gives `passed = None`, no
  diagnostics and no error.
- `evaluator.dfy` (`Evaluator`): `Evaluator.evaluate` and
  `_evaluate_single`. The regex engine is a parameter
  `search(pattern, text)` that returns whether a match exists, or the
  engine's error. Evaluation is deterministic because every member is a
  pure function of its arguments, the engine included.
- `providers.dfy` (`Providers`): construction of the Claude and OpenAI
  backends from an explicit key or the environment, and the Goose router,
  which picks a backend when it is built and forwards `generate` calls to
  it. The environment is a `map` parameter. The vendor HTTP call is a
  parameter `vendor(api, key, call)`.
- `runner.dfy` (`Runner`): `TestRunner._get_provider` with its provider
  cache, which is passed in and returned explicitly, and
  `TestRunner.run_test`, which always returns exactly one result.
- `storage.dfy` (`Storage`): the storage manager's operations as list
  transforms: replace-by-id-and-append, first-match lookup, delete-by-id,
  append-only results and filter-by-test-id.
- `helpers.dfy` (`Helpers`): `truncate_text` and `sanitize_filename`.
- `strings.dfy` (`Strings`) and `wrappers.dfy` (`Wrappers`): ASCII lower-casing,
  substring membership, decimal rendering of integers, `Option` and `Result`.

The model follows the code in these places, where its behaviour may be
unexpected:

- The aggregate verdict. One might expect a `manual` expectation's `None`
  flag not to block the verdict. In the code, `not None` is true, so for a non-empty list the verdict is `true` exactly
  when every item's flag is `True`. Any manual item makes it `false`. Only
  the empty list gives `None`.
- An invalid pattern, or a value of the wrong type for its kind (a string
  bound for `length_min`, say), is not turned into a failed diagnostic.
  The evaluator raises. The runner then turns that into a failed result
  with an empty response and no diagnostics.
- `runner.py` imports only the Claude and Goose providers. So the `openai`
  branch of `_get_provider` raises `NameError`, and every `openai` test
  case fails with `name 'OpenAIProvider' is not defined`.
- The runner stores the new provider in its cache before it calls
  `generate`. So a run whose generation or evaluation fails still leaves
  the resolved provider cached.

Exception texts follow CPython's wording: `'int' object has no attribute
'lower'`, `'>=' not supported between instances of 'int' and 'str'`,
`first argument must be string or compiled pattern`, and the `ValueError`
messages the source raises. The derived description `"{type}: {value}"`
renders the kind the way an f-string renders a `(str, Enum)` member on
Python 3.11 and later, e.g. `EvaluationType.LENGTH_MIN: 15`. Earlier
interpreters render the bare value (`length_min: 15`).

## Model

| member | source | states |
|---|---|---|
| `Models.ParseKind` | src/core/models.py:6-12 | looking up a kind by its string value finds a kind with exactly that name, and fails only for a string that names no kind |
| `Models.KindsAreSix` | src/core/models.py:6-12 | there are exactly six kinds, their names are pairwise distinct, and each name looks up its own kind |
| `Models.ParseProviderName` | src/core/models.py:23 | a test case's provider validates only as one of "claude", "openai" or "goose", and each validated name is that string |
| `Models.NewExpectation` | src/core/models.py:14-17 | an expectation built from a kind and a value keeps both and has no description |
| `Models.NewTestCase` | src/core/models.py:19-30 | a test case built from id, name and prompt keeps them and has provider claude, model "claude-sonnet-4-20250514", no expectations, no system prompt, temperature 1.0, 1024 max tokens and no tags |
| `Models.NewTestResult` | src/core/models.py:32-43 | a result built from its required fields keeps them and has `passed` `None`, no diagnostics and no error |
| `Evaluator.AllPassed` | src/core/evaluator.py:16-22 | the `all_passed` flag survives the loop exactly when every diagnostic's flag is exactly true; `None` and `False` both clear it |
| `Evaluator.EvaluateEach` | src/core/evaluator.py:15-22 | on success, one diagnostic per expectation, in the same order, each equal to that expectation's own evaluation; it fails exactly when some expectation raises, and then with the error of the first one that does |
| `Evaluator.Evaluate` | src/core/evaluator.py:12-24 | an empty list gives verdict `None` and no diagnostics; a non-empty list gives one diagnostic per expectation in order, and verdict true exactly when every flag is true; an exception from any item is the error of the first raising item |
| `Evaluator.Describe` | src/core/evaluator.py:30 | a non-empty explicit description is used as is; a missing or empty one becomes "<kind>: <value>", the kind rendered as the enum member and the value as text; the description is never empty |
| `Evaluator.EvaluateSingle` | src/core/evaluator.py:26-60 | a diagnostic carries the expectation's kind and description; a value of the wrong type for its kind always raises, a well-typed non-regex expectation never does; and the flag is `None` exactly for a manual expectation |
| `Evaluator.DiagnosticIdentifiesExpectation` | src/core/evaluator.py:28-30 | an expectation with no description, or an empty one, is reported in its diagnostic as "<kind>: <value>", whatever the response and the engine |
| `Evaluator.SingleFailsOnlyOnMisuse` | src/core/evaluator.py:35-54 | evaluating one expectation raises exactly when its value has the wrong type for its kind, or the pattern engine rejects a regex |
| `Evaluator.SingleDetails` | src/core/evaluator.py:35-58 | a diagnostic's details name the criterion: "Looking for: '<v>'", "Should not contain: '<v>'", "Pattern: <v>", "Min length: <n>, Actual: <len>" and "Max length: <n>, Actual: <len>" with the response's length, and "Manual review required" |
| `Evaluator.SingleErrorText` | src/core/evaluator.py:35-54 | the exception text is the `.lower()` attribute error for a non-string substring value, the `re.search` type error for a non-string pattern, the engine's own message for a rejected pattern, the `>=` or `<=` comparison error for a non-integer bound; a manual expectation never raises |
| `Evaluator.SubstringOfLowerIff` | src/core/evaluator.py:36 | lower-casing value and response and testing substring membership is the same as finding a window of the response equal to the value up to case |
| `Evaluator.ContainsIgnoresCase` | src/core/evaluator.py:35-41 | with a string value, `contains` never raises and passes exactly when the value occurs in the response ignoring case; `not_contains` passes exactly when `contains` fails |
| `Evaluator.LengthBoundsInclusive` | src/core/evaluator.py:48-54 | with an integer bound n, `length_min` passes exactly when the response has at least n characters and `length_max` exactly when it has at most n, so a response of exactly n characters passes both |
| `Evaluator.ManualIsNeverScored` | src/core/evaluator.py:56-58 | a manual expectation never raises, records flag `None` and the details "Manual review required", whatever the response and value |
| `Evaluator.RegexFollowsEngine` | src/core/evaluator.py:43-46 | a regex expectation passes exactly when the engine reports a match anywhere in the response |
| `Evaluator.ManualMakesVerdictFalse` | src/core/evaluator.py:18-22 | a list that contains a manual expectation and evaluates without error gets verdict false, never `None` and never true |
| `Evaluator.InconclusiveIffEmpty` | src/core/evaluator.py:12-24 | the verdict is `None` exactly when the expectation list is empty |
| `Evaluator.MinLengthExample` | src/core/evaluator.py:48-50 | a 10-character response against a minimum of 15 fails, with details "Min length: 15, Actual: 10" |
| `Evaluator.ContainsExample` | src/core/evaluator.py:35-37 | "hello" is found in "Hello World" |
| `Providers.NewClaude` | src/api/providers/claude.py:6-10 | construction succeeds exactly when the explicit key or `ANTHROPIC_API_KEY` is non-empty; the instance holds the explicit key when it is truthy and the environment's otherwise; the error is "ANTHROPIC_API_KEY not found" |
| `Providers.NewOpenAI` | src/api/providers/openai.py:6-10 | construction succeeds exactly when the explicit key or `OPENAI_API_KEY` is non-empty; the instance holds the explicit key when it is truthy and the environment's otherwise; the error is "OPENAI_API_KEY not found" |
| `Providers.GooseBackend` | src/api/providers/goose.py:16-17 | a truthy explicit backend overrides the environment; otherwise `GOOSE_BACKEND` is used, and "claude" when it is unset |
| `Providers.NewGoose` | src/api/providers/goose.py:16-24 | a constructed router records the chosen backend name and wraps a well-formed backend of the matching kind; "claude" and "openai" build the router around that backend, or fail with that backend's own error; any other name fails with "Unknown Goose backend: " and the name |
| `Providers.GooseDefaultsToClaude` | src/api/providers/goose.py:16-20 | with no backend given and `GOOSE_BACKEND` unset, the router uses Claude and fails exactly when no Anthropic key is set |
| `Providers.GooseForward` | src/api/providers/goose.py:43-54 | the delegate gets the same prompt, model, temperature and max tokens; a truthy system prompt is passed through, a missing or empty one becomes "You are Goose, a helpful AI assistant.", so the delegate always gets a non-empty one |
| `Providers.Generate` | src/api/providers/goose.py:49-55 | a Claude or OpenAI instance makes exactly one vendor call, on its own API with the key the instance holds and the call unchanged; a well-formed Goose instance makes its delegate's vendor call on the call with the system prompt filled in |
| `Providers.GooseGenerateDelegates` | src/api/providers/goose.py:49-55 | the router's `generate` returns exactly what its backend's own `generate` returns for the call with the system prompt filled in |
| `Runner.GetProvider` | src/core/runner.py:13-23 | a cached name returns the cached instance and the same cache; otherwise "claude" and "goose" are built and cached; "openai" fails with the NameError text; any other name fails with "Unknown provider: " and the name; a failure adds nothing to the cache; a failed construction carries the constructor's own error message |
| `Runner.FailedResult` | src/core/runner.py:59-72 | the `except` record copies the test case's id, name, prompt, provider and model, and has an empty response, verdict false, no diagnostics and the exception text as error |
| `Runner.RunTest` | src/core/runner.py:25-72 | always returns one result carrying the test case's id, name, prompt, provider and model; a resolution, generation or evaluation exception gives an empty response, verdict false, no diagnostics and that exception's text; a completed run carries the generated response with the evaluator's verdict and diagnostics and no error; the cache keeps a provider it resolved |
| `Runner.CachedProviderIgnoresEnv` | src/core/runner.py:13-23 | once a name is cached, resolving it again constructs nothing, so the environment has no effect, and it returns the cached instance |
| `Runner.EmptyCacheInvariant` | src/core/runner.py:9-11 | a fresh runner's empty cache satisfies the cache invariant |
| `Runner.RunKeepsCacheInvariant` | src/core/runner.py:13-23 | every run keeps the invariant that the cache holds only "claude" and "goose", each bound to a well-formed instance of its kind |
| `Runner.OpenAIRunAlwaysFails` | src/core/runner.py:17-18 | from any reachable cache, an "openai" test case fails with the NameError text and an empty response, and leaves the cache unchanged |
| `Runner.InconclusiveOnlyWithoutExpectations` | src/core/runner.py:43-57 | a result has verdict `None` exactly when the run completed and the test case has no expectations |
| `Runner.ErrorIffNotCompleted` | src/core/runner.py:29-72 | a result has no error exactly when provider resolution, generation and evaluation all completed |
| `Runner.MissingKeyGivesFailedResult` | src/core/runner.py:59-72 | a fresh "claude" run with no Anthropic key returns a failed result with error "ANTHROPIC_API_KEY not found" and an empty response, instead of raising |
| `Runner.GenerateSeesTestCase` | src/core/runner.py:30-38 | on a completed run, the resolved provider generated the recorded response from the test case's own prompt, model, system prompt, temperature and max tokens |
| `Storage.WithoutId` | src/storage/manager.py:32 | the kept records are exactly the records whose id differs, and none has the dropped id |
| `Storage.WithoutIdKeepsOrder` | src/storage/manager.py:32 | dropping the records with one id keeps all other records in their original relative order |
| `Storage.WithoutIdCount` | src/storage/manager.py:32 | dropping the records with one id removes exactly as many records as carry that id, and none is left |
| `Storage.SaveTestCase` | src/storage/manager.py:29-34 | the saved record is last, no earlier record has its id, and the earlier records are exactly the old records with other ids |
| `Storage.SaveTestCaseOnce` | src/storage/manager.py:29-34 | after a save exactly one record has the saved id, and the records before it keep their old relative order |
| `Storage.SaveTestCaseCount` | src/storage/manager.py:32-33 | with unique ids, saving an id already present keeps the count, saving a fresh id adds one, and the ids stay unique |
| `Storage.GetTestCase` | src/storage/manager.py:39-41 | returns the first record with the id, and `None` exactly when no record has it |
| `Storage.SaveThenGet` | src/storage/manager.py:29-41 | looking up the id of a record just saved returns that record |
| `Storage.DeleteTestCase` | src/storage/manager.py:43-45 | afterwards no record has the id, every record with another id is still there, nothing new appears, and the list shrinks by exactly the number of records that had the id |
| `Storage.DeleteAbsentIsNoop` | src/storage/manager.py:43-45 | deleting an id that no record has leaves the list unchanged |
| `Storage.DeleteKeepsOrder` | src/storage/manager.py:43-45 | deleting keeps the other records in their relative order, and a lookup of the deleted id finds nothing |
| `Storage.SaveResult` | src/storage/manager.py:48-51 | the history grows by one, the earlier results are unchanged, and the new result is last |
| `Storage.GetResultsForTest` | src/storage/manager.py:56-58 | returns exactly the results with that test id |
| `Storage.ResultsForTestKeepsOrder` | src/storage/manager.py:56-58 | the filtered results keep their history order |
| `Storage.SaveResultThenQuery` | src/storage/manager.py:48-58 | after a save, the saved result's test history is the old one plus the new result at the end, and every other test's history is unchanged |
| `Strings.Lower` | src/core/evaluator.py:36-40 | `.lower()` keeps the length and lower-cases each character in place, under the ASCII case mapping |
| `Strings.NatToString` | src/core/evaluator.py:50 | a non-negative number renders as decimal digits whose value is the number, with no leading zero |
| `Strings.IntToString` | src/core/evaluator.py:50 | an integer renders as the non-empty decimal digits of its magnitude, with no leading zero unless it is zero, preceded by a minus sign when negative |
| `Helpers.PrefixSlice` | src/utils/helpers.py:16 | `text[:n]`: a non-negative n keeps the first min(n, len) characters, a negative n drops -n characters from the end, leaving nothing when -n exceeds the length |
| `Helpers.TruncateText` | src/utils/helpers.py:12-16 | text of at most max_length characters is returned unchanged; longer text ends in "..." and, for a non-negative limit, is its first max_length characters followed by "...", max_length + 3 in all |
| `Helpers.TruncateIdempotent` | src/utils/helpers.py:12-16 | truncating twice with the same non-negative limit is the same as truncating once |
| `Helpers.TruncateDefault` | src/utils/helpers.py:12 | with the default limit of 100, text of up to 100 characters is unchanged and longer text becomes 103 characters |
| `Helpers.SanitizeFilename` | src/utils/helpers.py:18-20 | keeps the length, every output character is a word character, '-', '_' or '.', allowed characters are unchanged, and each other character becomes '_' |
| `Helpers.SanitizeFixesAllowed` | src/utils/helpers.py:20 | a name made only of allowed characters is returned unchanged |
| `Helpers.SanitizeIdempotent` | src/utils/helpers.py:20 | sanitizing a sanitized name changes nothing |

## Left out

- Time: `time.time`, `execution_time`, and the `created_at` and `timestamp` defaults (`datetime.now()`) are not modelled. Neither are `format_timestamp` and its datetime parsing. Results carry no timing fields.
- File I/O in the storage manager is not modelled: the data directory, the JSON files, `json.load`/`json.dump`, and the dict form of stored records. Records are kept as typed values, so missing dict keys cannot occur.
- The vendor SDK calls in `claude.py` and `openai.py` are a parameter. So are the request shapes they build (message lists, the optional `system` field) and reading the first completion. Constructing the SDK client is assumed to succeed.
- The regular-expression engine (`re.search`) and `validate_regex` are not modelled; `search` is a parameter that returns a match flag or an error.
- Providers.NewOpenAI and Providers.Generate: `openai.py` stores the key in the process-wide `openai.api_key`, and its `generate` passes no key, so a request uses the key of the OpenAI provider constructed last in the process. The model gives each instance its own key. Within one runner the only OpenAI provider built is a cached Goose delegate, so the two agree there; they differ once several OpenAI providers exist in one process.
- Goose's announcement `print` is not modelled. `os.getenv` is modelled as a lookup in an explicit environment map.
- `Strings.Lower`: ASCII case mapping only. Python's `str.lower` also maps non-ASCII letters, and can change a string's length.
- `Helpers.IsWordChar`: ASCII letters, digits and underscore only. Python's `\w` on `str` also matches non-ASCII word characters.
- Expectation values that are floats, booleans, lists or dicts are not modelled. The model covers strings, integers and `None`.
- Temperature is an unbounded `real` passed through unchanged. The source's float is not range-checked.
- The UI pages, including the batch loop that runs tests one by one and saves each result, and their counting and filtering.
- Helpers.TruncateText: for a negative max_length its contract says only that the result ends in "..."; the Python slice behaviour for that case (`text[:n]` drops `-n` characters from the end) is stated by `Helpers.PrefixSlice`, which it uses.
