/** The provider abstraction: the Claude and OpenAI backends, which need an
    API key when they are constructed, and the Goose router, which picks one
    of them at construction time and forwards every call to it. The vendor
    HTTP call itself is a parameter. */
module Providers {
  import opened Wrappers

  /** The process environment, read when a provider is constructed. */
  type Env = map<string, string>

  /** `os.getenv(key)`. */
  function GetEnv(env: Env, key: string): Option<string>
  {
    if key in env then Some(env[key]) else None
  }

  /** `os.getenv(key, default)`: the default only when the variable is unset. */
  function GetEnvOr(env: Env, key: string, default: string): string
  {
    if key in env then env[key] else default
  }

  /** Python truthiness of an optional string: present and non-empty. */
  predicate Truthy(s: Option<string>)
  {
    s.Some? && s.value != ""
  }

  /** `a or b` on optional strings. */
  function Or(a: Option<string>, b: Option<string>): (r: Option<string>)
    ensures Truthy(a) ==> r == a
    ensures !Truthy(a) ==> r == b
  {
    if Truthy(a) then a else b
  }

  /** The two vendor APIs a concrete backend talks to. */
  datatype Api = AnthropicApi | OpenAIApi

  /** The uniform arguments of `generate`. */
  datatype Call = Call(prompt: string, model: string, systemPrompt: Option<string>,
                       temperature: real, maxTokens: int)

  /** The vendor capability: given the API, the key and the call, the
      generated text or the message of whatever the SDK raised. */
  type Vendor = (Api, string, Call) -> Result<string, string>

  /** A constructed provider instance. */
  datatype Provider =
    | Claude(apiKey: string)
    | OpenAI(apiKey: string)
    | Goose(backend: string, delegate: Provider)

  /** What construction guarantees of an instance: a non-empty key, and a
      Goose router wrapping the concrete backend its name selects. */
  predicate WellFormed(p: Provider)
  {
    match p
    case Claude(key) => key != ""
    case OpenAI(key) => key != ""
    case Goose(b, d) =>
      && ((b == "claude" && d.Claude?) || (b == "openai" && d.OpenAI?))
      && WellFormed(d)
  }

  const AnthropicKeyVar: string := "ANTHROPIC_API_KEY"
  const OpenAIKeyVar: string := "OPENAI_API_KEY"
  const GooseBackendVar: string := "GOOSE_BACKEND"

  /** `ClaudeProvider(api_key)`: the explicit key, else the environment's;
      a missing or empty key is a construction error. */
  function NewClaude(apiKey: Option<string>, env: Env): (r: Result<Provider, string>)
    ensures r.Ok? <==> Truthy(apiKey) || Truthy(GetEnv(env, AnthropicKeyVar))
    ensures r.Ok? ==> r.value.Claude? && WellFormed(r.value)
    ensures r.Ok? && Truthy(apiKey) ==> r.value.apiKey == apiKey.value
    ensures r.Ok? ==> r.value.apiKey == Or(apiKey, GetEnv(env, AnthropicKeyVar)).value
    ensures r.Err? ==> r.error == "ANTHROPIC_API_KEY not found"
  {
    var key := Or(apiKey, GetEnv(env, AnthropicKeyVar));
    if !Truthy(key) then Err(AnthropicKeyVar + " not found") else Ok(Claude(key.value))
  }

  /** `OpenAIProvider(api_key)`, resolved the same way from its own variable. */
  function NewOpenAI(apiKey: Option<string>, env: Env): (r: Result<Provider, string>)
    ensures r.Ok? <==> Truthy(apiKey) || Truthy(GetEnv(env, OpenAIKeyVar))
    ensures r.Ok? ==> r.value.OpenAI? && WellFormed(r.value)
    ensures r.Ok? && Truthy(apiKey) ==> r.value.apiKey == apiKey.value
    ensures r.Ok? ==> r.value.apiKey == Or(apiKey, GetEnv(env, OpenAIKeyVar)).value
    ensures r.Err? ==> r.error == "OPENAI_API_KEY not found"
  {
    var key := Or(apiKey, GetEnv(env, OpenAIKeyVar));
    if !Truthy(key) then Err(OpenAIKeyVar + " not found") else Ok(OpenAI(key.value))
  }

  /** The backend name Goose routes to: the explicit argument when truthy,
      otherwise `GOOSE_BACKEND`, which defaults to "claude" when unset. */
  function GooseBackend(backend: Option<string>, env: Env): (name: string)
    ensures Truthy(backend) ==> name == backend.value
    ensures !Truthy(backend) && GooseBackendVar in env ==> name == env[GooseBackendVar]
    ensures !Truthy(backend) && GooseBackendVar !in env ==> name == "claude"
  {
    if Truthy(backend) then backend.value else GetEnvOr(env, GooseBackendVar, "claude")
  }

  /** `GooseProvider(backend)`: construct the selected backend (with no
      explicit key) and wrap it; an unknown name, or a delegate that cannot
      be constructed, is a construction error. */
  function NewGoose(backend: Option<string>, env: Env): (r: Result<Provider, string>)
    ensures r.Ok? ==> r.value.Goose? && WellFormed(r.value)
    ensures r.Ok? ==> r.value.backend == GooseBackend(backend, env)
    ensures GooseBackend(backend, env) == "claude" ==>
              match r
              case Ok(p) => NewClaude(None, env) == Ok(p.delegate)
              case Err(msg) => NewClaude(None, env) == Err(msg)
    ensures GooseBackend(backend, env) == "openai" ==>
              match r
              case Ok(p) => NewOpenAI(None, env) == Ok(p.delegate)
              case Err(msg) => NewOpenAI(None, env) == Err(msg)
    ensures GooseBackend(backend, env) != "claude" && GooseBackend(backend, env) != "openai" ==>
              r == Err("Unknown Goose backend: " + GooseBackend(backend, env))
  {
    var b := GooseBackend(backend, env);
    if b == "claude" then
      match NewClaude(None, env)
      case Err(msg) => Err(msg)
      case Ok(p) => Ok(Goose(b, p))
    else if b == "openai" then
      match NewOpenAI(None, env)
      case Err(msg) => Err(msg)
      case Ok(p) => Ok(Goose(b, p))
    else Err("Unknown Goose backend: " + b)
  }

  const GooseDefaultSystemPrompt: string := "You are Goose, a helpful AI assistant."

  /** The call Goose hands to its delegate: the system prompt replaced by
      Goose's default when it is missing or empty, everything else
      unchanged, so the delegate always gets a non-empty system prompt. */
  function GooseForward(call: Call): (f: Call)
    ensures f.prompt == call.prompt && f.model == call.model
    ensures f.temperature == call.temperature && f.maxTokens == call.maxTokens
    ensures Truthy(call.systemPrompt) ==> f.systemPrompt == call.systemPrompt
    ensures !Truthy(call.systemPrompt) ==> f.systemPrompt == Some(GooseDefaultSystemPrompt)
    ensures Truthy(f.systemPrompt)
  {
    var system := if Truthy(call.systemPrompt) then call.systemPrompt else Some(GooseDefaultSystemPrompt);
    call.(systemPrompt := system)
  }

  /** `provider.generate(...)`: a concrete backend calls its vendor with its
      key, Goose forwards to its delegate. */
  function Generate(p: Provider, call: Call, vendor: Vendor): (r: Result<string, string>)
    ensures p.Claude? ==> r == vendor(AnthropicApi, p.apiKey, call)
    ensures p.OpenAI? ==> r == vendor(OpenAIApi, p.apiKey, call)
    ensures p.Goose? && WellFormed(p) && p.delegate.Claude? ==>
              r == vendor(AnthropicApi, p.delegate.apiKey, GooseForward(call))
    ensures p.Goose? && WellFormed(p) && p.delegate.OpenAI? ==>
              r == vendor(OpenAIApi, p.delegate.apiKey, GooseForward(call))
    decreases p
  {
    match p
    case Claude(key) => vendor(AnthropicApi, key, call)
    case OpenAI(key) => vendor(OpenAIApi, key, call)
    case Goose(_, d) => Generate(d, GooseForward(call), vendor)
  }

  // ---------------------------------------------------------------------
  // Properties of the Goose router

  /** With no explicit backend and `GOOSE_BACKEND` unset, Goose routes to
      Claude, and fails exactly when no Anthropic key is available. */
  lemma GooseDefaultsToClaude(env: Env)
    requires GooseBackendVar !in env
    ensures NewGoose(None, env).Ok? <==> Truthy(GetEnv(env, AnthropicKeyVar))
    ensures NewGoose(None, env).Ok? ==> NewGoose(None, env).value.delegate.Claude?
  {
  }

  /** A well-formed Goose instance generates exactly what its concrete
      delegate generates for the prepared call. */
  lemma GooseGenerateDelegates(p: Provider, call: Call, vendor: Vendor)
    requires p.Goose? && WellFormed(p)
    ensures Generate(p, call, vendor) == Generate(p.delegate, GooseForward(call), vendor)
  {
  }
}
