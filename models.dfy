/** Configuration records and their validators (cascade/models.py). Pydantic's
    machinery is left out: each validator is a plain function that either passes
    its input through or names the `ValueError` it would raise. */
module Models {
  import opened Results

  /** The two roles a chat message takes. */
  const USER := "user"
  const ASSISTANT := "assistant"

  datatype Message = Message(role: string, content: string)

  datatype LLMConfig = LLMConfig(connection: string, systemPromptFile: string)

  /** `human_in_the_loop: Optional[bool]` is a bool here: `None` behaves as false. */
  datatype Config = Config(
    llm1: LLMConfig,
    llm2: LLMConfig,
    rounds: int,
    outputFile: string,
    history: Option<seq<Message>>,
    historyFile: Option<string>,
    humanInTheLoop: bool)

  /** The values of the `Provider` enum. */
  const PROVIDERS: set<string> := {"anthropic", "openai", "ollama"}

  const FORMAT_ERROR := "Connection string must be in format 'provider:model'"
  const MISSING_PART_ERROR := "Both provider and model must be specified"
  const PROVIDER_ERROR := "Provider must be one of: ['anthropic', 'openai', 'ollama']"
  const HISTORY_ERROR := "Either 'history' or 'history_file' must be provided"

  /** Position of the first ':' in `s`, or `|s|` when there is none. */
  function ColonIndex(s: string): (i: nat)
    ensures i <= |s|
    ensures i < |s| ==> s[i] == ':'
    ensures forall j :: 0 <= j < i ==> s[j] != ':'
  {
    if |s| == 0 then 0
    else if s[0] == ':' then 0
    else 1 + ColonIndex(s[1..])
  }

  /** `connection.split(":", 1)[0]`: everything before the first ':', or the
      whole string when there is no ':'. */
  function ProviderOf(connection: string): (p: string)
    ensures p <= connection && ':' !in p
  {
    connection[..ColonIndex(connection)]
  }

  /** `connection.split(":", 1)[1]`: everything after the first ':'; indexing the
      one-element list of a string without ':' raises IndexError. */
  function ModelOf(connection: string): (r: Result<string>)
    ensures r.Success? <==> ':' in connection
    ensures r.Success? ==> |r.value| < |connection|
    ensures r.Failure? ==> r.error == IndexError
  {
    var i := ColonIndex(connection);
    if i == |connection| then Failure(IndexError) else Success(connection[i + 1..])
  }

  /** Splitting at the first ':' and joining again gives back the connection
      string; the provider never contains ':', the model may. */
  lemma SplitRejoins(connection: string)
    requires ':' in connection
    ensures ModelOf(connection).Success?
    ensures ProviderOf(connection) + ":" + ModelOf(connection).value == connection
    ensures ':' !in ProviderOf(connection)
  {
    var i := ColonIndex(connection);
    assert i < |connection| by {
      var k :| 0 <= k < |connection| && connection[k] == ':';
    }
    assert connection == connection[..i] + [connection[i]] + connection[i + 1..];
  }

  /** Joining a ':'-free provider with any model and splitting again gives both
      parts back, even when the model itself contains ':'. */
  lemma JoinSplits(provider: string, model: string)
    requires ':' !in provider
    ensures ProviderOf(provider + ":" + model) == provider
    ensures ModelOf(provider + ":" + model) == Success(model)
  {
    var s := provider + ":" + model;
    var i := ColonIndex(s);
    assert s[|provider|] == ':';
    assert forall j :: 0 <= j < |provider| ==> s[j] == provider[j];
    assert i == |provider|;
    assert s[..i] == provider;
    assert s[i + 1..] == model;
  }

  /** The `connection` field validator: passes the string through unchanged or
      raises the first applicable `ValueError`. */
  function ValidateConnection(v: string): (r: Result<string>)
    ensures r.Success? ==> r.value == v && ':' in v
    ensures r.Failure? ==>
      (r.error == ValueError(FORMAT_ERROR) || r.error == ValueError(MISSING_PART_ERROR) ||
       r.error == ValueError(PROVIDER_ERROR))
  {
    if ':' !in v then Failure(ValueError(FORMAT_ERROR))
    else
      var provider := ProviderOf(v);
      var model := ModelOf(v).value;
      if provider == "" || model == "" then Failure(ValueError(MISSING_PART_ERROR))
      else if provider !in PROVIDERS then Failure(ValueError(PROVIDER_ERROR))
      else Success(v)
  }

  /** A connection string is accepted exactly when it has the shape
      `provider:model` with a known provider and a non-empty model, and an
      accepted string is returned unchanged. */
  lemma ValidateConnectionAccepts(v: string)
    ensures ValidateConnection(v).Success? <==>
              ':' in v && ProviderOf(v) in PROVIDERS && ModelOf(v) != Success("")
    ensures ValidateConnection(v).Success? ==> ValidateConnection(v).value == v
    ensures ':' !in v ==> ValidateConnection(v) == Failure(ValueError(FORMAT_ERROR))
    ensures ':' in v && (ProviderOf(v) == "" || ModelOf(v) == Success("")) ==>
      ValidateConnection(v) == Failure(ValueError(MISSING_PART_ERROR))
    ensures ':' in v && ProviderOf(v) != "" && ModelOf(v) != Success("") && ProviderOf(v) !in PROVIDERS ==>
      ValidateConnection(v) == Failure(ValueError(PROVIDER_ERROR))
  {
    if ':' in v {
      SplitRejoins(v);
    }
  }

  /** Every known provider joined to any non-empty model, including one that
      contains further ':' characters, is a valid connection string. */
  lemma KnownProviderIsValid(provider: string, model: string)
    requires provider in PROVIDERS && model != ""
    ensures ValidateConnection(provider + ":" + model) == Success(provider + ":" + model)
  {
    assert ':' !in provider;
    JoinSplits(provider, model);
    assert (provider + ":" + model)[|provider|] == ':';
  }

  /** The environment variable a provider needs, if any. */
  function ApiKeyVariable(provider: string): Option<string>
  {
    if provider == "openai" then Some("OPENAI_API_KEY")
    else if provider == "anthropic" then Some("ANTHROPIC_API_KEY")
    else None
  }

  /** `require_api_key`, with the process environment passed in as a map. A
      variable that is unset or set to "" is missing. */
  function RequireApiKey(llm: LLMConfig, env: map<string, string>): (o: Outcome)
    ensures o.Fail? ==> o.error.ValueError? && ApiKeyVariable(ProviderOf(llm.connection)).Some?
  {
    var provider := ProviderOf(llm.connection);
    match ApiKeyVariable(provider)
    case None => Pass
    case Some(name) =>
      if name !in env || env[name] == "" then
        Fail(ValueError(name + " must be set in the environment for provider '" + provider + "'"))
      else Pass
  }

  /** OpenAI and Anthropic connections need their own non-empty key; every other
      provider, Ollama included, needs nothing. */
  lemma RequireApiKeyCases(llm: LLMConfig, env: map<string, string>)
    ensures var p := ProviderOf(llm.connection);
      RequireApiKey(llm, env).Fail? <==>
        (p == "openai" && ("OPENAI_API_KEY" !in env || env["OPENAI_API_KEY"] == "")) ||
        (p == "anthropic" && ("ANTHROPIC_API_KEY" !in env || env["ANTHROPIC_API_KEY"] == ""))
    ensures ProviderOf(llm.connection) == "ollama" ==> RequireApiKey(llm, env) == Pass
  {
  }

  /** The `check_history` model validator. */
  function CheckHistory(conf: Config): (o: Outcome)
    ensures o.Fail? ==> o == Fail(ValueError(HISTORY_ERROR))
    ensures conf.history.Some? || conf.historyFile.Some? ==> o == Pass
  {
    if conf.history.None? && conf.historyFile.None? then Fail(ValueError(HISTORY_ERROR))
    else Pass
  }

  /** Python truthiness of the optional seed fields. */
  predicate HasHistoryFile(conf: Config)
  {
    conf.historyFile.Some? && conf.historyFile.value != ""
  }

  predicate HasHistory(conf: Config)
  {
    conf.history.Some? && conf.history.value != []
  }

  /** `check_history` rejects only when both fields are absent: an empty list,
      an empty file name and both fields set together all pass. */
  lemma CheckHistoryRejectsOnlyBothAbsent(conf: Config)
    ensures CheckHistory(conf).Fail? <==> conf.history.None? && conf.historyFile.None?
    ensures conf.history == Some([]) ==> CheckHistory(conf) == Pass
    ensures conf.history.Some? && conf.historyFile.Some? ==> CheckHistory(conf) == Pass
  {
  }
}
