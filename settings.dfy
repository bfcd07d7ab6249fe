/** The service settings: every field is read from the process environment,
    with a default when the variable is unset. The environment is a
    parameter (a map from variable names to their values), so the settings
    are a pure function of it. */
module Settings {
  import opened Common

  type Env = map<string, string>

  /** The spellings `_bool_env` accepts as true, after lower-casing. */
  const TrueWords: set<string> := {"1", "true", "yes", "on"}

  /** `os.getenv(name, fallback)`. */
  function GetEnv(env: Env, name: string, fallback: string): string {
    if name in env then env[name] else fallback
  }

  /** `_bool_env`: the default when unset; otherwise whether the value,
      lower-cased, is one of the true spellings. */
  function BoolEnv(env: Env, name: string, fallback: bool): (b: bool)
    ensures name !in env ==> b == fallback
  {
    if name !in env then fallback else Lower(env[name]) in TrueWords
  }

  /** Once a variable is set, the default no longer matters, and neither
      does the case of the value: any other spelling, even an empty one,
      reads as false. */
  lemma BoolEnvIgnoresDefault(env: Env, name: string, value: string, d1: bool, d2: bool)
    ensures BoolEnv(env[name := value], name, d1) == BoolEnv(env[name := Lower(value)], name, d2)
    ensures BoolEnv(env[name := value], name, d1) <==> Lower(value) in TrueWords
  {
    LowerIdempotent(value);
  }

  predicate AllDigits(s: string) {
    forall i | 0 <= i < |s| :: IsDigit(s[i])
  }

  /** `int(raw)` for the strings this model accepts: an optional sign
      followed by at least one decimal digit. Anything else fails. */
  function ParseInt(s: string): (r: Option<int>)
    ensures r.Some? ==> s != [] && (IsDigit(s[0]) || s[0] == '+' || s[0] == '-')
    ensures r.Some? ==> forall i | 0 < i < |s| :: IsDigit(s[i])
  {
    if s != [] && (s[0] == '+' || s[0] == '-') then
      var digits := s[1..];
      if digits != [] && AllDigits(digits) then
        var v: int := DigitsValue(digits);
        Some(if s[0] == '-' then -v else v)
      else None
    else if s != [] && AllDigits(s) then Some(DigitsValue(s))
    else None
  }

  lemma ParseUnsigned(s: string)
    requires s != [] && AllDigits(s)
    ensures ParseInt(s) == Some(DigitsValue(s))
  {
    assert IsDigit(s[0]);
  }

  lemma ParseNegative(digits: string)
    requires digits != [] && AllDigits(digits)
    ensures ParseInt("-" + digits) == Some(-(DigitsValue(digits) as int))
  {
    assert ("-" + digits)[1..] == digits;
  }

  /** Parsing the decimal rendering of any integer gives it back. */
  lemma ParseIntRoundTrip(i: int)
    ensures ParseInt(IntToString(i)) == Some(i)
  {
    if i < 0 {
      var digits := NatToString(-i);
      assert IntToString(i) == "-" + digits;
      ParseNegative(digits);
      DigitsValueOfNatToString(-i);
    } else {
      var digits := NatToString(i);
      assert IntToString(i) == digits;
      ParseUnsigned(digits);
      DigitsValueOfNatToString(i);
    }
  }

  /** `_int_env`: the default when unset or unparsable, else the value. */
  function IntEnv(env: Env, name: string, fallback: int): (n: int)
    ensures name !in env ==> n == fallback
    ensures name in env && ParseInt(env[name]).None? ==> n == fallback
  {
    if name !in env then fallback
    else
      match ParseInt(env[name])
      case Some(v) => v
      case None => fallback
  }

  /** A variable set to the decimal rendering of a number reads back as
      that number, whatever the default. */
  lemma IntEnvRoundTrip(env: Env, name: string, v: int, fallback: int)
    ensures IntEnv(env[name := IntToString(v)], name, fallback) == v
  {
    ParseIntRoundTrip(v);
  }

  /** The frozen settings record. */
  datatype Settings = Settings(
    debug: bool, host: string, port: int,
    ragTopK: int, ragDataDir: string, embedBackend: string,
    llmProvider: string, llmApiKey: string, llmAllowMock: bool, llmModel: string,
    enableRag: bool, enableGraph: bool, agentExperimental: bool)

  /** The settings an environment yields. The API key is `LLM_API_KEY`
      unless that is unset or empty, then `GEMINI_API_KEY`. */
  function Load(env: Env): Settings {
    Settings(
      BoolEnv(env, "API_DEBUG", true),
      GetEnv(env, "API_HOST", "0.0.0.0"),
      IntEnv(env, "API_PORT", 5000),
      IntEnv(env, "RAG_TOP_K", 4),
      GetEnv(env, "RAG_DATA_DIR", "data/demo_docs"),
      GetEnv(env, "RAG_EMBED_BACKEND", "tfidf"),
      GetEnv(env, "LLM_PROVIDER", "gemini"),
      if GetEnv(env, "LLM_API_KEY", "") != "" then GetEnv(env, "LLM_API_KEY", "") else GetEnv(env, "GEMINI_API_KEY", ""),
      BoolEnv(env, "LLM_ALLOW_MOCK", false),
      GetEnv(env, "LLM_MODEL", "gemini-1.5-flash-002"),
      BoolEnv(env, "RAG_ENABLED", false),
      BoolEnv(env, "ENABLE_GRAPH_BACKEND", false),
      BoolEnv(env, "AGENT_EXPERIMENTAL", false))
  }

  const Defaults: Settings := Settings(
    true, "0.0.0.0", 5000, 4, "data/demo_docs", "tfidf",
    "gemini", "", false, "gemini-1.5-flash-002", false, false, false)

  /** With nothing set, the settings are the defaults: debug on, port 5000,
      four retrieved documents, Gemini without a key, the mock and every
      optional feature off. */
  lemma LoadEmpty()
    ensures Load(map[]) == Defaults
  {
  }

  /** The optional features (text retrieval, the graph backend, the
      experimental agent, the mock model) stay off unless their variable is
      set to a true spelling. */
  lemma FeaturesOffByDefault(env: Env)
    ensures Load(env).enableGraph <==> "ENABLE_GRAPH_BACKEND" in env && Lower(env["ENABLE_GRAPH_BACKEND"]) in TrueWords
    ensures Load(env).enableRag <==> "RAG_ENABLED" in env && Lower(env["RAG_ENABLED"]) in TrueWords
    ensures Load(env).agentExperimental <==> "AGENT_EXPERIMENTAL" in env && Lower(env["AGENT_EXPERIMENTAL"]) in TrueWords
    ensures Load(env).llmAllowMock <==> "LLM_ALLOW_MOCK" in env && Lower(env["LLM_ALLOW_MOCK"]) in TrueWords
  {
  }

  /** The API key is present exactly when one of the two variables holds a
      non-empty value, and `LLM_API_KEY` wins when both do. */
  lemma ApiKeyFallback(env: Env)
    ensures Load(env).llmApiKey != "" <==>
      ("LLM_API_KEY" in env && env["LLM_API_KEY"] != "") || ("GEMINI_API_KEY" in env && env["GEMINI_API_KEY"] != "")
    ensures "LLM_API_KEY" in env && env["LLM_API_KEY"] != "" ==> Load(env).llmApiKey == env["LLM_API_KEY"]
  {
  }
}
