/** The text retrieval pipeline: the retriever's sources (a parameter: the
    retriever's scoring is not modelled) are turned back into document
    chunks, handed to the language-model client if one is configured, and
    returned with the answer and a small metadata dictionary. */
module RagPipeline {
  import opened Common
  import DocLoading
  import opened LlmClient

  /** A retrieved source: a dictionary of its string fields ("doc_id",
      "title", "snippet"). */
  type Source = map<string, string>

  /** `src.get(key, fallback)`. */
  function Field(src: Source, key: string, fallback: string): string {
    if key in src then src[key] else fallback
  }

  /** The chunk rebuilt from the source at position `idx`. */
  function ContextChunk(src: Source, idx: nat): Chunk {
    DocLoading.DocumentChunk(Field(src, "doc_id", "src-" + NatToString(idx)), Field(src, "title", ""), Field(src, "snippet", ""))
  }

  function Context(sources: seq<Source>): (chunks: seq<Chunk>)
    ensures |chunks| == |sources|
    ensures forall i | 0 <= i < |chunks| :: chunks[i] == ContextChunk(sources[i], i)
  {
    seq(|sources|, i requires 0 <= i < |sources| => ContextChunk(sources[i], i))
  }

  /** `_build_context`: one chunk per source, in order. */
  method BuildContext(sources: seq<Source>) returns (chunks: seq<Chunk>)
    ensures chunks == Context(sources)
  {
    chunks := [];
    var idx := 0;
    while idx < |sources|
      invariant 0 <= idx <= |sources|
      invariant chunks == Context(sources[..idx])
    {
      var src := sources[idx];
      chunks := chunks + [DocLoading.DocumentChunk(Field(src, "doc_id", "src-" + NatToString(idx)), Field(src, "title", ""), Field(src, "snippet", ""))];
      idx := idx + 1;
    }
    assert sources[..idx] == sources;
  }

  /** Every chunk carries its source's fields, or the defaults; the ids made
      up for sources without one differ from each other. */
  lemma ContextSound(sources: seq<Source>)
    ensures forall i | 0 <= i < |sources| ::
      Context(sources)[i].title == Field(sources[i], "title", "") &&
      Context(sources)[i].text == Field(sources[i], "snippet", "") &&
      ("doc_id" in sources[i] ==> Context(sources)[i].docId == sources[i]["doc_id"])
    ensures forall i, j | 0 <= i < j < |sources| && "doc_id" !in sources[i] && "doc_id" !in sources[j] ::
      Context(sources)[i].docId != Context(sources)[j].docId
  {
    var c := Context(sources);
    forall i, j | 0 <= i < j < |sources| && "doc_id" !in sources[i] && "doc_id" !in sources[j]
      ensures c[i].docId != c[j].docId
    {
      var p := "src-";
      assert c[i].docId == p + NatToString(i);
      assert c[j].docId == p + NatToString(j);
      assert (p + NatToString(i))[|p|..] == NatToString(i);
      assert (p + NatToString(j))[|p|..] == NatToString(j);
      DigitsValueOfNatToString(i);
      DigitsValueOfNatToString(j);
    }
  }

  const NotFound: string := "没有找到相关文档。"
  const NoLlm: string := "(No LLM configured) Query: "

  function Snippets(sources: seq<Source>): (s: seq<string>)
    ensures |s| == |sources|
  {
    seq(|sources|, i requires 0 <= i < |sources| => Field(sources[i], "snippet", ""))
  }

  /** `_build_fallback_answer`. */
  function FallbackAnswer(query: string, sources: seq<Source>): string {
    if sources == [] then NotFound
    else NoLlm + query + ". Context: " + Join(" ", Snippets(sources))
  }

  /** The fixed not-found message is given exactly when nothing was
      retrieved; otherwise the answer names the query and quotes the
      snippets. */
  lemma FallbackAnswerSound(query: string, sources: seq<Source>)
    ensures FallbackAnswer(query, sources) == NotFound <==> sources == []
    ensures sources != [] ==> StartsWith(FallbackAnswer(query, sources), NoLlm + query + ". Context: ")
  {
    if sources != [] {
      var a := FallbackAnswer(query, sources);
      assert a[0] == '(' != NotFound[0];
      var p := NoLlm + query + ". Context: ";
      assert a[..|p|] == p;
    }
  }

  /** A pipeline's configuration: its client (absent when none could be
      built), how many sources it retrieves and the client error to report. */
  datatype Pipeline = Pipeline(client: Option<Client>, topK: int, llmError: Option<string>)

  /** The dictionary `run` returns. */
  datatype RagAnswer = RagAnswer(answer: string, sources: seq<Source>, meta: map<string, Value>)

  /** The provider `run` reports. */
  function ProviderName(client: Option<Client>): string {
    if client.None? then "unconfigured" else ClassName(client.value)
  }

  /** The answer before the not-found rule: the fallback without a client;
      else the client's reply, a mock's marked as a demo unless it already
      is. */
  function Reply(p: Pipeline, query: string, retrieved: seq<Source>, remote: Remote): Result<string> {
    if p.client.None? then Ok(FallbackAnswer(query, retrieved))
    else
      match Generate(p.client.value, query, Context(retrieved), remote)
      case Err(e) => Err(e)
      case Ok(a) => Ok(if p.client.value.MockClient? && !StartsWith(a, "[DEMO MODE]") then DemoPrefix + a else a)
  }

  /** `run`, given what the retriever returns for the query. */
  function Run(p: Pipeline, query: string, retrieved: seq<Source>, remote: Remote): Result<RagAnswer> {
    match Reply(p, query, retrieved, remote)
    case Err(e) => Err(e)
    case Ok(a) =>
      var meta := map["mode" := Str("text_rag"), "top_k" := Int(p.topK),
                      "llm_provider" := Str(ProviderName(p.client)), "llm_error" := OptStr(p.llmError)];
      Ok(RagAnswer(if retrieved == [] && a == "" then NotFound else a, retrieved, meta))
  }

  /** Only a failing remote model makes `run` raise. When it answers, the
      sources come back unchanged, the metadata has exactly its four keys,
      and with nothing retrieved the answer is never empty. */
  lemma RunSound(p: Pipeline, query: string, retrieved: seq<Source>, remote: Remote)
    ensures var r := Run(p, query, retrieved, remote);
      (r.Err? ==> p.client.Some? && p.client.value.GeminiClient? &&
                  remote(p.client.value.model, Prompt(query, Context(retrieved))).Err?) &&
      (r.Ok? ==>
        r.value.sources == retrieved &&
        r.value.meta.Keys == {"mode", "top_k", "llm_provider", "llm_error"} &&
        r.value.meta["mode"] == Str("text_rag") && r.value.meta["top_k"] == Int(p.topK) &&
        r.value.meta["llm_provider"] == Str(ProviderName(p.client)) && r.value.meta["llm_error"] == OptStr(p.llmError) &&
        (retrieved == [] ==> r.value.answer != ""))
  {
    var r := Run(p, query, retrieved, remote);
    if r.Ok? {
      assert r.value.meta.Keys == {"mode", "top_k", "llm_provider", "llm_error"};
    }
  }

  /** Without a client, `run` never raises, answers with the fallback and
      reports the provider as unconfigured. */
  lemma UnconfiguredFallback(p: Pipeline, query: string, retrieved: seq<Source>, remote: Remote)
    requires p.client.None?
    ensures Run(p, query, retrieved, remote).Ok?
    ensures Run(p, query, retrieved, remote).value.answer == FallbackAnswer(query, retrieved)
    ensures Run(p, query, retrieved, remote).value.meta["llm_provider"] == Str("unconfigured")
  {
    FallbackAnswerSound(query, retrieved);
  }

  /** A mock's answer is always marked as a demo, and the mark is never
      doubled: the mock the factory builds already carries it, so its reply
      passes through unchanged. */
  lemma MockMarkedOnce(p: Pipeline, query: string, retrieved: seq<Source>, remote: Remote)
    requires p.client.Some? && p.client.value.MockClient?
    ensures Run(p, query, retrieved, remote).Ok?
    ensures StartsWith(Run(p, query, retrieved, remote).value.answer, "[DEMO MODE]")
    ensures p.client.value.demoPrefix == DemoPrefix ==>
      Run(p, query, retrieved, remote).value.answer == MockAnswer(DemoPrefix, query, Context(retrieved))
  {
    var prefix := p.client.value.demoPrefix;
    var a := MockAnswer(prefix, query, Context(retrieved));
    var answer := Run(p, query, retrieved, remote).value.answer;
    MockAnswerShape(prefix, query, Context(retrieved));
    if StartsWith(a, "[DEMO MODE]") {
      assert a != "";
      assert answer == a;
    } else {
      assert answer == DemoPrefix + a;
      assert answer[..11] == "[DEMO MODE]";
    }
    if prefix == DemoPrefix {
      assert a[..11] == DemoPrefix[..11];
    }
  }
}
