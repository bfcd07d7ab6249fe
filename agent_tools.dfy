/** The agent's two tools. The graph tool finds a vertex id in the message
    and asks the graph backend for a summary of its neighbourhood (the
    backend's answer is a parameter); the text tool hands the message to the
    text retrieval pipeline. */
module AgentTools {
  import opened Common
  import opened LlmClient
  import opened RagPipeline

  /** What a tool returns: the answer, its sources and its metadata. */
  datatype ToolOutput = ToolOutput(answer: string, sources: seq<Source>, meta: map<string, Value>)

  // ------------------------------------------------------------ vertex ids

  /** The tokens `_extract_vid` scans: "?" and "," count as whitespace. */
  function Tokens(text: string): seq<string> {
    SplitWhitespace(Replace(Replace(text, "?", " "), ",", " "))
  }

  predicate IsVid(token: string) {
    StartsWith(token, "player") || StartsWith(token, "team")
  }

  /** The first token naming a vertex, if any. */
  function FirstVid(tokens: seq<string>): (r: Option<string>)
    ensures r.None? <==> forall i | 0 <= i < |tokens| :: !IsVid(tokens[i])
    ensures r.Some? ==>
      exists i | 0 <= i < |tokens| :: (tokens[i] == r.value && IsVid(tokens[i]) && forall k | 0 <= k < i :: !IsVid(tokens[k]))
  {
    if tokens == [] then None
    else if IsVid(tokens[0]) then Some(tokens[0])
    else
      var r := FirstVid(tokens[1..]);
      assert forall i | 0 <= i < |tokens[1..]| :: tokens[1..][i] == tokens[i + 1];
      r
  }

  /** `_extract_vid`. */
  function ExtractVid(text: string): Option<string> {
    FirstVid(Tokens(text))
  }

  /** An extracted id is a non-empty run without whitespace, "?" or ",",
      starting with "player" or "team". */
  lemma ExtractedVidClean(text: string)
    requires ExtractVid(text).Some?
    ensures var v := ExtractVid(text).value;
      v != [] && IsVid(v) && '?' !in v && ',' !in v && forall j | 0 <= j < |v| :: !IsSpace(v[j])
  {
    var once := Replace(text, "?", " ");
    var twice := Replace(once, ",", " ");
    ReplaceRemoves(text, '?', " ");
    ReplaceNoNew(once, ",", " ", '?');
    ReplaceRemoves(once, ',', " ");
    SplitWhitespaceTokens(twice, '?');
    SplitWhitespaceTokens(twice, ',');
  }

  // ------------------------------------------------------------ the graph tool

  /** The backend's summary of a vertex's neighbourhood: the answer and its
      sources, or the failure's message. */
  type Fetch = string -> Result<(string, seq<Source>)>

  const NoAdapter: string := "'NoneType' object has no attribute 'fetch_subgraph_summary'"
  const Disabled: string := "Graph backend disabled."
  const AskForVid: string := "Provide a node id (e.g., player142) to fetch a subgraph."

  /** The metadata every answer of the graph tool starts from. */
  function BaseMeta(graphEnabled: bool, initError: Option<string>): map<string, Value> {
    map["tool" := Str("graph_rag"), "graph_enabled" := Bool(graphEnabled), "graph_error" := OptStr(initError)]
  }

  /** `GraphTool.run` for a tool in the given state: disabled, then a
      recorded (non-empty) construction error, then a missing id, then the
      backend's answer. A tool without an adapter and with an empty error
      message gets as far as calling the missing adapter. */
  function GraphRun(graphEnabled: bool, hasAdapter: bool, initError: Option<string>, message: string, fetch: Fetch): ToolOutput {
    var meta := BaseMeta(graphEnabled, initError);
    if !graphEnabled then ToolOutput(Disabled, [], meta)
    else if initError.Some? && initError.value != "" then
      ToolOutput("Graph backend unavailable: " + initError.value, [], meta)
    else
      match ExtractVid(message)
      case None => ToolOutput(AskForVid, [], meta["graph_error" := Str("missing_vid")])
      case Some(vid) =>
        var outcome := if hasAdapter then fetch(vid) else Err(NoAdapter);
        match outcome
        case Ok(summary) => ToolOutput(summary.0, summary.1, meta["graph_vid" := Str(vid)])
        case Err(e) => ToolOutput("Graph backend call failed: " + e, [], meta["graph_error" := Str(e)])
  }

  /** The gating of the graph tool: a disabled tool answers the same fixed
      text whatever the backend would say; a recorded error is quoted; a
      message without an id is flagged; and sources come only from a
      successful backend call for the extracted id. */
  lemma GraphRunGating(graphEnabled: bool, hasAdapter: bool, initError: Option<string>, message: string, fetch: Fetch, other: Fetch)
    ensures var out := GraphRun(graphEnabled, hasAdapter, initError, message, fetch);
      (!graphEnabled ==> out == ToolOutput(Disabled, [], BaseMeta(false, initError)) &&
                         out == GraphRun(graphEnabled, hasAdapter, initError, message, other)) &&
      (graphEnabled && initError.Some? && initError.value != "" ==>
         out.sources == [] && Contains(out.answer, initError.value)) &&
      (graphEnabled && (initError.None? || initError.value == "") && ExtractVid(message).None? ==>
         out.sources == [] && out.meta["graph_error"] == Str("missing_vid")) &&
      (out.sources != [] ==>
         graphEnabled && hasAdapter && ExtractVid(message).Some? &&
         fetch(ExtractVid(message).value).Ok? && out.sources == fetch(ExtractVid(message).value).value.1)
  {
    var out := GraphRun(graphEnabled, hasAdapter, initError, message, fetch);
    if graphEnabled && initError.Some? && initError.value != "" {
      var p := "Graph backend unavailable: ";
      assert out.answer[|p|..|p| + |initError.value|] == initError.value;
      assert OccursAt(out.answer, initError.value, |p|);
    }
  }

  /** The graph tool's metadata always names the tool, whether the backend
      is enabled, and the error (null when none); its only other possible
      key is the vertex fetched. */
  lemma GraphMetaKeys(graphEnabled: bool, hasAdapter: bool, initError: Option<string>, message: string, fetch: Fetch)
    ensures var m := GraphRun(graphEnabled, hasAdapter, initError, message, fetch).meta;
      {"tool", "graph_enabled", "graph_error"} <= m.Keys <= {"tool", "graph_enabled", "graph_error", "graph_vid"} &&
      m["tool"] == Str("graph_rag") && m["graph_enabled"] == Bool(graphEnabled)
  {
    var base := BaseMeta(graphEnabled, initError);
    var m := GraphRun(graphEnabled, hasAdapter, initError, message, fetch).meta;
    assert base.Keys == {"tool", "graph_enabled", "graph_error"};
    if graphEnabled && !(initError.Some? && initError.value != "") && ExtractVid(message).Some? {
      var vid := ExtractVid(message).value;
      var outcome := if hasAdapter then fetch(vid) else Err(NoAdapter);
      if outcome.Ok? {
        assert m == base["graph_vid" := Str(vid)];
      } else {
        assert m == base["graph_error" := Str(outcome.error)];
      }
    }
  }

  class GraphTool {
    const name: string := "graph_rag"
    const graphEnabled: bool
    var hasAdapter: bool
    var initError: Option<string>

    /** The dataclass constructor with `__post_init__`: the adapter is built
        only when the backend is enabled; `adapterFailure` is the message of
        the exception building it raises, if it does. */
    constructor(graphEnabled: bool, adapterFailure: Option<string>)
      ensures this.graphEnabled == graphEnabled
      ensures hasAdapter <==> graphEnabled && adapterFailure.None?
      ensures initError == if graphEnabled then adapterFailure else None
    {
      this.graphEnabled := graphEnabled;
      hasAdapter := false;
      initError := None;
      new;
      if graphEnabled {
        if adapterFailure.Some? {
          initError := adapterFailure;
        } else {
          hasAdapter := true;
        }
      }
    }

    /** `run`: the metadata is built up in place on the way to the answer. */
    method Run(message: string, fetch: Fetch) returns (out: ToolOutput)
      ensures out == GraphRun(graphEnabled, hasAdapter, initError, message, fetch)
    {
      var meta := map["tool" := Str(name), "graph_enabled" := Bool(graphEnabled), "graph_error" := OptStr(initError)];
      if !graphEnabled {
        return ToolOutput(Disabled, [], meta);
      }
      if initError.Some? && initError.value != "" {
        return ToolOutput("Graph backend unavailable: " + initError.value, [], meta);
      }
      var vid := ExtractVid(message);
      if vid.None? {
        meta := meta["graph_error" := Str("missing_vid")];
        return ToolOutput(AskForVid, [], meta);
      }
      var outcome := if hasAdapter then fetch(vid.value) else Err(NoAdapter);
      if outcome.Ok? {
        meta := meta["graph_vid" := Str(vid.value)];
        return ToolOutput(outcome.value.0, outcome.value.1, meta);
      }
      meta := meta["graph_error" := Str(outcome.error)];
      out := ToolOutput("Graph backend call failed: " + outcome.error, [], meta);
    }
  }

  // ------------------------------------------------------------ the text tool

  const NoAnswerMethod: string := "AttributeError: 'RagPipeline' object has no attribute 'answer'"

  /** `TextRagTool.run` as written: it calls the pipeline's `answer`, which
      the pipeline does not have, so every call raises. */
  function TextRagRunAsWritten(p: Pipeline, query: string, retrieved: seq<Source>, remote: Remote): (r: Result<ToolOutput>)
    ensures r == Err(NoAnswerMethod)
  {
    Err(NoAnswerMethod)
  }

  /** `TextRagTool.run` through the pipeline's `run`: its answer and sources,
      and its metadata under the tool's name. */
  function TextRagRun(p: Pipeline, query: string, retrieved: seq<Source>, remote: Remote): Result<ToolOutput> {
    match Run(p, query, retrieved, remote)
    case Err(e) => Err(e)
    case Ok(res) => Ok(ToolOutput(res.answer, res.sources, map["tool" := Str("text_rag")] + res.meta))
  }

  /** The text tool raises exactly when the pipeline does, passes its answer
      and sources through, and adds only the tool's name to its metadata. */
  lemma TextRagForwards(p: Pipeline, query: string, retrieved: seq<Source>, remote: Remote)
    ensures var r := TextRagRun(p, query, retrieved, remote);
      var q := Run(p, query, retrieved, remote);
      (r.Ok? <==> q.Ok?) &&
      (r.Ok? ==>
        r.value.answer == q.value.answer && r.value.sources == retrieved &&
        r.value.meta.Keys == q.value.meta.Keys + {"tool"} && r.value.meta["tool"] == Str("text_rag") &&
        forall k | k in q.value.meta :: r.value.meta[k] == q.value.meta[k])
  {
    RunSound(p, query, retrieved, remote);
  }

  /** Where the written text tool always raises, the corrected one answers
      whenever the pipeline does, for instance always without a client. */
  lemma TextRagAsWrittenFails(p: Pipeline, query: string, retrieved: seq<Source>, remote: Remote)
    requires p.client.None?
    ensures TextRagRunAsWritten(p, query, retrieved, remote).Err?
    ensures TextRagRun(p, query, retrieved, remote).Ok?
  {
    UnconfiguredFallback(p, query, retrieved, remote);
  }
}
