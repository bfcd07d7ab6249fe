/** The language-model clients of the text retrieval pipeline: a mock that
    stitches the retrieved chunks into a reply, and a Gemini client whose
    remote model is a parameter (a function from the model name and the
    prompt to the reply text or the failure). The factory chooses between
    them from the configuration. */
module LlmClient {
  import opened Common
  import DocLoading

  type Chunk = DocLoading.DocumentChunk

  /** The clients the factory can build. */
  datatype Client = MockClient(demoPrefix: string) | GeminiClient(apiKey: string, model: string)

  /** `llm_client.__class__.__name__`. */
  function ClassName(c: Client): string {
    match c
    case MockClient(_) => "MockLLMClient"
    case GeminiClient(_, _) => "GeminiLLMClient"
  }

  const DemoPrefix: string := "[DEMO MODE] "
  const DefaultModel: string := "gemini-1.5-flash-002"
  const MockDisabled: string := "ConfigError: Mock LLM is demo-only. Set LLM_ALLOW_MOCK=1 to enable."
  const KeyMissing: string := "ConfigError: Gemini API key is required (set GEMINI_API_KEY or LLM_API_KEY)."
  const NotInstalled: string := "ConfigError: google-generativeai is not installed. Install it to use Gemini."
  const NoContent: string := "AttributeError: 'DocumentChunk' object has no attribute 'content'"

  // ------------------------------------------------------------ factory

  /** `GeminiLLMClient.__init__`: the client library must be importable
      (`installed`) and the key non-empty. */
  function NewGeminiClient(apiKey: string, model: string, installed: bool): (r: Result<Client>)
    ensures r.Ok? <==> installed && apiKey != ""
    ensures r.Ok? ==> r.value == GeminiClient(apiKey, model)
  {
    if !installed then Err(NotInstalled)
    else if apiKey == "" then Err("ConfigError: Gemini API key is required for provider=gemini.")
    else Ok(GeminiClient(apiKey, model))
  }

  /** `build_llm_client`; `provider` is `None` for Python's `None`. */
  function BuildLlmClient(provider: Option<string>, apiKey: string, allowMock: bool, model: string, geminiInstalled: bool)
    : (r: Result<Client>)
    ensures var p := Lower(provider.GetOr(""));
      r.Ok? <==> (p == "mock" && allowMock) || (p == "gemini" && apiKey != "" && geminiInstalled)
    ensures r.Ok? && r.value.MockClient? ==> r.value.demoPrefix == DemoPrefix
    ensures r.Ok? && r.value.GeminiClient? ==>
      r.value.apiKey == apiKey && r.value.model == (if model == "" then DefaultModel else model)
  {
    var p := Lower(provider.GetOr(""));
    if p == "mock" then
      if !allowMock then Err(MockDisabled) else Ok(MockClient(DemoPrefix))
    else if p == "gemini" then
      if apiKey == "" then Err(KeyMissing)
      else NewGeminiClient(apiKey, if model == "" then DefaultModel else model, geminiInstalled)
    else Err("ConfigError: Unsupported LLM provider: " + p)
  }

  /** The factory's errors: an unknown provider is named in lower case; the
      mock needs its switch; Gemini's key is checked before its library. */
  lemma BuildLlmClientErrors(provider: Option<string>, apiKey: string, allowMock: bool, model: string, geminiInstalled: bool)
    ensures var p := Lower(provider.GetOr(""));
      var r := BuildLlmClient(provider, apiKey, allowMock, model, geminiInstalled);
      (p != "mock" && p != "gemini" ==> r == Err("ConfigError: Unsupported LLM provider: " + p)) &&
      (p == "mock" && !allowMock ==> r == Err(MockDisabled)) &&
      (p == "gemini" && apiKey == "" ==> r == Err(KeyMissing)) &&
      (p == "gemini" && apiKey != "" && !geminiInstalled ==> r == Err(NotInstalled))
  {
  }

  /** The provider name is read without regard to case, and a missing one
      is the empty name. */
  lemma ProviderCaseInsensitive(p: string, apiKey: string, allowMock: bool, model: string, installed: bool)
    ensures BuildLlmClient(Some(p), apiKey, allowMock, model, installed) ==
            BuildLlmClient(Some(Lower(p)), apiKey, allowMock, model, installed)
    ensures BuildLlmClient(None, apiKey, allowMock, model, installed) ==
            BuildLlmClient(Some(""), apiKey, allowMock, model, installed)
  {
    LowerIdempotent(p);
  }

  // ------------------------------------------------------------ the mock reply

  const Found: string := "Based on what I found: "
  const Echo: string := "I could not find anything relevant. Echoing your question: "

  /** One chunk as the mock quotes it. */
  function Highlight(c: Chunk): string {
    "[" + c.title + "] " + c.text
  }

  function Highlights(context: seq<Chunk>): (h: seq<string>)
    ensures |h| == |context|
    ensures forall i | 0 <= i < |h| :: h[i] == Highlight(context[i])
  {
    seq(|context|, i requires 0 <= i < |context| => Highlight(context[i]))
  }

  /** The mock's reply, reading each chunk's text: the query echoed when
      nothing was retrieved, else the highlights joined and cut to 800
      characters. */
  function MockAnswer(prefix: string, query: string, context: seq<Chunk>): string {
    if context == [] then prefix + Echo + query
    else prefix + Found + Take(Join(" ", Highlights(context)), 800)
  }

  /** The reply starts with the client's prefix; with no context it ends in
      the query; otherwise it is at most 800 characters past the fixed
      opening, and a short enough first highlight opens the quoted text. */
  lemma MockAnswerShape(prefix: string, query: string, context: seq<Chunk>)
    ensures var a := MockAnswer(prefix, query, context);
      StartsWith(a, prefix) &&
      (context == [] ==> |query| <= |a| && a[|a| - |query|..] == query) &&
      (context != [] ==> |a| <= |prefix| + |Found| + 800 && StartsWith(a[|prefix|..], Found)) &&
      (context != [] && |Highlight(context[0])| <= 800 ==> StartsWith(a[|prefix| + |Found|..], Highlight(context[0])))
  {
    var a := MockAnswer(prefix, query, context);
    if context == [] {
      assert a == prefix + Echo + query;
      assert a[..|prefix|] == prefix;
    } else {
      var h := Highlights(context);
      var j := Join(" ", h);
      JoinPrefix(" ", h, 1);
      assert Join(" ", h[..1]) == h[0];
      var t := Take(j, 800);
      assert a == prefix + Found + t;
      assert a[..|prefix|] == prefix;
      assert a[|prefix|..] == Found + t;
      assert a[|prefix| + |Found|..] == t;
      if |h[0]| <= 800 {
        assert t[..|h[0]|] == j[..|h[0]|];
      }
    }
  }

  /** `MockLLMClient.generate`, reading each chunk's text. */
  method MockGenerate(prefix: string, query: string, context: seq<Chunk>) returns (answer: string)
    ensures answer == MockAnswer(prefix, query, context)
  {
    if context == [] {
      return prefix + Echo + query;
    }
    var highlights: seq<string> := [];
    var i := 0;
    while i < |context|
      invariant 0 <= i <= |context|
      invariant highlights == Highlights(context[..i])
    {
      highlights := highlights + [Highlight(context[i])];
      i := i + 1;
    }
    assert context[..i] == context;
    var joined := Take(Join(" ", highlights), 800);
    answer := prefix + Found + joined;
  }

  // ------------------------------------------------------------ the Gemini prompt

  /** The prompt's lines: the question, then the context heading and one
      line per chunk when there is context. */
  function PromptLines(query: string, context: seq<Chunk>): seq<string> {
    ["Question: " + query] +
    (if context == [] then []
     else ["Context:"] + seq(|context|, i requires 0 <= i < |context| => "- " + context[i].title + ": " + context[i].text))
  }

  function Prompt(query: string, context: seq<Chunk>): string {
    Join("\n", PromptLines(query, context))
  }

  /** The prompt is the bare question without context, and otherwise opens
      with the question followed by the context heading. */
  lemma PromptShape(query: string, context: seq<Chunk>)
    ensures context == [] ==> Prompt(query, context) == "Question: " + query
    ensures context != [] ==> StartsWith(Prompt(query, context), "Question: " + query + "\nContext:")
  {
    var lines := PromptLines(query, context);
    if context != [] {
      JoinPrefix("\n", lines, 2);
      assert lines[..2][..1] == ["Question: " + query];
      assert Join("\n", lines[..2]) == "Question: " + query + "\n" + "Context:";
    }
  }

  /** The prompt-building loop of `GeminiLLMClient.generate`. */
  method BuildPrompt(query: string, context: seq<Chunk>) returns (prompt: string)
    ensures prompt == Prompt(query, context)
  {
    var parts := ["Question: " + query];
    if context != [] {
      parts := parts + ["Context:"];
      var i := 0;
      while i < |context|
        invariant 0 <= i <= |context|
        invariant parts == ["Question: " + query, "Context:"] +
          seq(i, k requires 0 <= k < i => "- " + context[k].title + ": " + context[k].text)
      {
        parts := parts + ["- " + context[i].title + ": " + context[i].text];
        i := i + 1;
      }
    }
    assert parts == PromptLines(query, context);
    prompt := Join("\n", parts);
  }

  // ------------------------------------------------------------ generation

  /** The remote model: from the model name and the prompt to the reply text
      (empty when the reply has none) or the failure's message. */
  type Remote = (string, string) -> Result<string>

  /** `generate` of either client, reading each chunk's text. */
  function Generate(c: Client, query: string, context: seq<Chunk>, remote: Remote): (r: Result<string>)
    ensures c.MockClient? ==> r == Ok(MockAnswer(c.demoPrefix, query, context))
    ensures c.GeminiClient? ==>
      (r.Ok? <==> remote(c.model, Prompt(query, context)).Ok?) &&
      (r.Ok? ==> r.value == remote(c.model, Prompt(query, context)).value)
  {
    match c
    case MockClient(p) => Ok(MockAnswer(p, query, context))
    case GeminiClient(_, m) =>
      match remote(m, Prompt(query, context))
      case Ok(t) => Ok(t)
      case Err(e) => Err("RuntimeError: Gemini generation failed: " + e)
  }

  /** `generate` of either client as written: both read `chunk.content`,
      which document chunks do not have, so any non-empty context raises
      before a reply is built. */
  function GenerateAsWritten(c: Client, query: string, context: seq<Chunk>, remote: Remote): (r: Result<string>)
    ensures context != [] ==> r == Err(NoContent)
  {
    if context != [] then Err(NoContent) else Generate(c, query, context, remote)
  }

  /** The written clients agree with the corrected ones on an empty context
      and fail on every other, where the corrected mock always answers. */
  lemma GenerateAsWrittenDiffers(c: Client, query: string, context: seq<Chunk>, remote: Remote)
    ensures context == [] ==> GenerateAsWritten(c, query, context, remote) == Generate(c, query, context, remote)
    ensures context != [] && c.MockClient? ==>
      GenerateAsWritten(c, query, context, remote).Err? && Generate(c, query, context, remote).Ok?
  {
  }
}
