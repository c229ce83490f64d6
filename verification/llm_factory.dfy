/**
 * Provider selection: building a chat-model backend for "ollama", "openai" or
 * "anthropic". Which client libraries imported successfully and the process
 * environment are explicit inputs; the constructed client is represented by
 * the configuration it was built with.
 */
module LlmFactory {
  import opened Wrappers

  datatype Provider = Ollama | OpenAI | Anthropic

  /** The environment variables visible to `os.getenv`. */
  type Env = map<string, string>

  /** The configuration a chat client is constructed with (temperature aside). */
  datatype BackendConfig = BackendConfig(provider: Provider, model: string, timeout: Option<nat>)

  /** A constructed backend together with the environment left after construction. */
  datatype Created = Created(backend: BackendConfig, env: Env)

  /** The Python exception class an error is raised as. */
  datatype ExceptionClass = ImportError | ValueError

  datatype FactoryError =
    | ImportMissing(provider: Provider)   // the provider's client library is not installed
    | MissingApiKey(variable: string)     // the API key variable is absent or empty
    | UnknownProvider(name: string)       // the provider name is none of the three

  const OllamaTimeout: nat := 300

  /** The identifier a provider is selected by. */
  function ProviderId(p: Provider): string {
    match p
    case Ollama => "ollama"
    case OpenAI => "openai"
    case Anthropic => "anthropic"
  }

  /** The provider a name selects, compared exactly. */
  function ParseProvider(name: string): Option<Provider> {
    if name == "ollama" then Some(Ollama)
    else if name == "openai" then Some(OpenAI)
    else if name == "anthropic" then Some(Anthropic)
    else None
  }

  /** The model used when the caller gives none (or an empty name). */
  function DefaultModel(p: Provider): string {
    match p
    case Ollama => "llama2"
    case OpenAI => "gpt-3.5-turbo"
    case Anthropic => "claude-3-sonnet-20240229"
  }

  /** The environment variable a hosted provider reads its API key from. */
  function ApiKeyVar(p: Provider): string
    requires p != Ollama
  {
    if p == OpenAI then "OPENAI_API_KEY" else "ANTHROPIC_API_KEY"
  }

  /** `os.getenv(name)` is truthy: the variable is set and not empty. */
  predicate HasKey(env: Env, name: string) {
    name in env && env[name] != ""
  }

  /** The rank of a provider in the order availability is reported in. */
  function Rank(p: Provider): nat {
    match p
    case Ollama => 0
    case OpenAI => 1
    case Anthropic => 2
  }

  function Class(e: FactoryError): ExceptionClass {
    match e
    case ImportMissing(_) => ImportError
    case MissingApiKey(_) => ValueError
    case UnknownProvider(_) => ValueError
  }

  function Message(e: FactoryError): string {
    match e
    case ImportMissing(p) =>
      "langchain-" + ProviderId(p) + " not installed. Run: pip install langchain-" + ProviderId(p)
    case MissingApiKey(variable) => variable + " not found. Set it in .env file."
    case UnknownProvider(name) => "Unknown provider: " + name
  }

  /** Everything a successful `create_llm` needs for provider `p`. */
  predicate Ready(p: Provider, installed: set<Provider>, env: Env) {
    p in installed && (p == Ollama || HasKey(env, ApiKeyVar(p)))
  }

  /** `create_ollama`: the library check only; the environment is not consulted. */
  function CreateOllama(installed: set<Provider>, model: string): (r: Result<BackendConfig, FactoryError>)
    ensures r.Success? <==> Ollama in installed
    ensures r.Failure? ==> r.error == ImportMissing(Ollama)
  {
    if Ollama !in installed then Failure(ImportMissing(Ollama))
    else Success(BackendConfig(Ollama, model, Some(OllamaTimeout)))
  }

  /**
   * `create_openai` and `create_anthropic`: the library check, then the key
   * check, then the key is written back to the variable it was read from.
   */
  function CreateHosted(p: Provider, installed: set<Provider>, env: Env, model: string): (r: Result<Created, FactoryError>)
    requires p != Ollama
    ensures r.Success? <==> p in installed && HasKey(env, ApiKeyVar(p))
    ensures p !in installed ==> r == Failure(ImportMissing(p))
    ensures r.Success? ==> r.value.env == env
  {
    if p !in installed then Failure(ImportMissing(p))
    else if !HasKey(env, ApiKeyVar(p)) then Failure(MissingApiKey(ApiKeyVar(p)))
    else
      var key := env[ApiKeyVar(p)];
      Success(Created(BackendConfig(p, model, None), env[ApiKeyVar(p) := key]))
  }

  /** `create_llm`: dispatch on the provider name, filling in the default model. */
  function CreateLlm(provider: string, modelName: Option<string>, installed: set<Provider>, env: Env): (r: Result<Created, FactoryError>)
    ensures ParseProvider(provider).None? <==> r == Failure(UnknownProvider(provider))
    ensures r.Success? <==> ParseProvider(provider).Some? && Ready(ParseProvider(provider).value, installed, env)
    ensures r.Success? ==> r.value.env == env && ProviderId(r.value.backend.provider) == provider
  {
    match ParseProvider(provider)
    case None => Failure(UnknownProvider(provider))
    case Some(p) =>
      var model := if modelName.None? || modelName.value == "" then DefaultModel(p) else modelName.value;
      if p == Ollama then
        match CreateOllama(installed, model)
        case Success(b) => Success(Created(b, env))
        case Failure(e) => Failure(e)
      else CreateHosted(p, installed, env, model)
  }

  /** `get_available_providers`: the installed providers, in the fixed order. */
  function AvailableProviders(installed: set<Provider>): (r: seq<string>)
    ensures forall p :: p in installed <==> ProviderId(p) in r
    ensures forall i :: 0 <= i < |r| ==> ParseProvider(r[i]).Some?
    ensures forall i, j :: 0 <= i < j < |r| ==> Rank(ParseProvider(r[i]).value) < Rank(ParseProvider(r[j]).value)
  {
    (if Ollama in installed then ["ollama"] else [])
    + (if OpenAI in installed then ["openai"] else [])
    + (if Anthropic in installed then ["anthropic"] else [])
  }

  /** Provider names and providers correspond one to one. */
  lemma ProviderIdRoundTrip(p: Provider, name: string)
    ensures ParseProvider(ProviderId(p)) == Some(p)
    ensures ParseProvider(name) == Some(p) ==> name == ProviderId(p)
  {
  }

  /** A name other than the three fails with "Unknown provider", whatever else holds. */
  lemma UnknownProviderRejected(provider: string, modelName: Option<string>, installed: set<Provider>, env: Env)
    requires provider != "ollama" && provider != "openai" && provider != "anthropic"
    ensures CreateLlm(provider, modelName, installed, env) == Failure(UnknownProvider(provider))
    ensures Class(UnknownProvider(provider)) == ValueError
    ensures "Unknown provider" <= Message(UnknownProvider(provider))
  {
  }

  /** An absent or empty model name falls back to the provider's default; any other is used as given. */
  lemma ModelNameResolution(p: Provider, modelName: Option<string>, installed: set<Provider>, env: Env)
    requires CreateLlm(ProviderId(p), modelName, installed, env).Success?
    ensures var b := CreateLlm(ProviderId(p), modelName, installed, env).value.backend;
      && b.provider == p
      && (modelName.Some? && modelName.value != "" ==> b.model == modelName.value)
      && (modelName.None? || modelName == Some("") ==>
            b.model == (if p == Ollama then "llama2" else if p == OpenAI then "gpt-3.5-turbo" else "claude-3-sonnet-20240229"))
  {
  }

  /** A missing client library is reported as ImportError before the API key is looked at. */
  lemma ImportCheckedBeforeKey(p: Provider, modelName: Option<string>, installed: set<Provider>, env: Env)
    requires p !in installed
    ensures CreateLlm(ProviderId(p), modelName, installed, env) == Failure(ImportMissing(p))
    ensures Class(ImportMissing(p)) == ImportError
  {
  }

  /** With the library installed, a hosted provider succeeds exactly when its key is set and non-empty. */
  lemma HostedNeedsKey(p: Provider, modelName: Option<string>, installed: set<Provider>, env: Env)
    requires p != Ollama && p in installed
    ensures var r := CreateLlm(ProviderId(p), modelName, installed, env);
      && (r.Success? <==> HasKey(env, ApiKeyVar(p)))
      && (r.Failure? ==> r.error == MissingApiKey(ApiKeyVar(p)) && Class(r.error) == ValueError)
  {
  }

  /** The local backend's outcome does not depend on the environment at all. */
  lemma OllamaIgnoresEnv(modelName: Option<string>, installed: set<Provider>, env1: Env, env2: Env)
    ensures var r1 := CreateLlm("ollama", modelName, installed, env1);
      var r2 := CreateLlm("ollama", modelName, installed, env2);
      && (r1.Success? <==> r2.Success?)
      && (r1.Success? ==> r1.value.backend == r2.value.backend)
      && (r1.Failure? ==> r1 == r2)
  {
  }

  /** Only the local backend gets an explicit timeout, of 300 seconds. */
  lemma TimeoutOnlyForOllama(provider: string, modelName: Option<string>, installed: set<Provider>, env: Env)
    requires CreateLlm(provider, modelName, installed, env).Success?
    ensures var b := CreateLlm(provider, modelName, installed, env).value.backend;
      b.timeout == (if provider == "ollama" then Some(300) else None)
  {
  }

  /** A reported provider passes the library check, so creating it can only lack an API key. */
  lemma AvailableProvidersCreatable(name: string, modelName: Option<string>, installed: set<Provider>, env: Env)
    requires name in AvailableProviders(installed)
    ensures var r := CreateLlm(name, modelName, installed, env);
      r.Failure? ==> name != "ollama" && r.error.MissingApiKey?
  {
  }

  /** Each message names what is missing: the package to install, or the variable to set. */
  lemma MessagesNameTheCause(p: Provider, variable: string)
    ensures "langchain-" + ProviderId(p) <= Message(ImportMissing(p))
    ensures variable <= Message(MissingApiKey(variable))
  {
  }

  /** The availability report never names a provider twice. */
  lemma AvailableProvidersDistinct(installed: set<Provider>)
    ensures var r := AvailableProviders(installed);
      forall i, j :: 0 <= i < j < |r| ==> r[i] != r[j]
  {
    var r := AvailableProviders(installed);
    forall i, j | 0 <= i < j < |r| ensures r[i] != r[j] {
      assert Rank(ParseProvider(r[i]).value) < Rank(ParseProvider(r[j]).value);
    }
  }
}
