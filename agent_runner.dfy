/** The agent: it classifies a message as a graph or a text question, runs
    the matching tool, and records a two-step trace of what it did. */
module AgentRunner {
  import opened Common
  import opened LlmClient
  import opened RagPipeline
  import opened AgentTools
  import Settings

  const GraphKeywords: seq<string> := ["graph", "subgraph", "neighbor", "path"]

  /** `detect_intent`. */
  function DetectIntent(message: string): (intent: string)
    ensures intent == "graph" || intent == "text"
  {
    if ContainsAny(Lower(message), GraphKeywords) then "graph" else "text"
  }

  /** "subgraph" contains "graph", so it adds nothing: a message is a graph
      question exactly when it mentions "graph", "neighbor" or "path" in
      any case. */
  lemma DetectIntentSound(message: string)
    ensures var s := Lower(message);
      DetectIntent(message) == "graph" <==> Contains(s, "graph") || Contains(s, "neighbor") || Contains(s, "path")
  {
    var s := Lower(message);
    if Contains(s, "subgraph") {
      var i :| 0 <= i <= |s| - 8 && OccursAt(s, "subgraph", i);
      assert s[i + 3..i + 8] == s[i..i + 8][3..] == "graph";
      assert OccursAt(s, "graph", i + 3);
    }
    if Contains(s, "graph") {
      assert Contains(s, GraphKeywords[0]);
    }
    if Contains(s, "neighbor") {
      assert Contains(s, GraphKeywords[2]);
    }
    if Contains(s, "path") {
      assert Contains(s, GraphKeywords[3]);
    }
  }

  /** One step of the trace. */
  datatype AgentStep = AgentStep(name: string, input: map<string, Value>, output: map<string, Value>)

  datatype AgentResult = AgentResult(answer: string, sources: seq<Source>, trace: seq<AgentStep>, meta: map<string, Value>)

  /** What `run_agent` is handed: the text pipeline and the settings, if any. */
  datatype Deps = Deps(pipeline: Pipeline, settings: Option<Settings.Settings>)

  /** `bool(getattr(settings, "enable_graph", False))`. */
  function GraphEnabled(deps: Deps): bool {
    deps.settings.Some? && deps.settings.value.enableGraph
  }

  /** `pipeline.llm_client.__class__.__name__`: "NoneType" without a client. */
  function ClientClassName(client: Option<Client>): string {
    if client.None? then "NoneType" else ClassName(client.value)
  }

  /** Whether the graph tool answers. */
  predicate UsesGraph(message: string, deps: Deps) {
    DetectIntent(message) == "graph" && GraphEnabled(deps)
  }

  /** The answer of the graph tool `run_agent` builds. */
  function GraphAnswer(message: string, deps: Deps, adapterFailure: Option<string>, fetch: Fetch): ToolOutput {
    var enabled := GraphEnabled(deps);
    GraphRun(enabled, enabled && adapterFailure.None?, if enabled then adapterFailure else None, message, fetch)
  }

  /** The output recorded for a tool call. */
  function CallOutput(out: ToolOutput): map<string, Value> {
    map["answer_preview" := Str(Take(out.answer, 160)), "sources_count" := Int(|out.sources|), "meta" := Dict(out.meta)]
  }

  /** The metadata `run_agent` starts from, before the tool's own. */
  function AgentMeta(mode: string, intent: string, enabled: bool, client: Option<Client>): map<string, Value> {
    map["mode" := Str(mode), "intent" := Str(intent), "graph_enabled" := Bool(enabled),
        "llm_provider" := Str(ClientClassName(client)), "agent_version" := Str("lite-1")]
  }

  /** The result `run_agent` assembles from the tool's outcome: the tool's
      answer and sources, a two-step trace, and the agent's metadata updated
      with the tool's. */
  function Assemble(message: string, deps: Deps, graph: bool, tool: Result<ToolOutput>): Result<AgentResult> {
    match tool
    case Err(e) => Err(e)
    case Ok(out) =>
      var intent := DetectIntent(message);
      var enabled := GraphEnabled(deps);
      var first := AgentStep("classify_intent", map["message" := Str(message)], map["intent" := Str(intent)]);
      var second :=
        if graph then AgentStep("call_graph_rag", map["graph_enabled" := Bool(enabled)], CallOutput(out))
        else AgentStep("call_text_rag", map["top_k" := Int(deps.pipeline.topK)], CallOutput(out));
      var meta := AgentMeta(if graph then "graph_rag" else "text_rag", intent, enabled, deps.pipeline.client) + out.meta;
      Ok(AgentResult(out.answer, out.sources, [first, second], meta))
  }

  /** What `run_agent` returns, with the text tool reading the pipeline's
      `run`. The retriever's sources for the message, whether building the
      graph adapter fails, and the backends' answers are parameters. */
  function Agent(message: string, deps: Deps, adapterFailure: Option<string>, fetch: Fetch,
                 retrieved: seq<Source>, remote: Remote): Result<AgentResult>
  {
    if UsesGraph(message, deps) then Assemble(message, deps, true, Ok(GraphAnswer(message, deps, adapterFailure, fetch)))
    else Assemble(message, deps, false, TextRagRun(deps.pipeline, message, retrieved, remote))
  }

  /** The routing: the graph tool answers exactly when the message is a
      graph question and the backend is enabled, and then the agent never
      raises; otherwise the text tool answers and the agent raises only
      when it does. */
  lemma AgentRouting(message: string, deps: Deps, adapterFailure: Option<string>, fetch: Fetch,
                     retrieved: seq<Source>, remote: Remote)
    ensures var r := Agent(message, deps, adapterFailure, fetch, retrieved, remote);
      (UsesGraph(message, deps) ==>
        r.Ok? && r.value.answer == GraphAnswer(message, deps, adapterFailure, fetch).answer &&
        r.value.sources == GraphAnswer(message, deps, adapterFailure, fetch).sources) &&
      (!UsesGraph(message, deps) ==>
        (r.Ok? <==> TextRagRun(deps.pipeline, message, retrieved, remote).Ok?) &&
        (r.Ok? ==> r.value.answer == TextRagRun(deps.pipeline, message, retrieved, remote).value.answer &&
                   r.value.sources == retrieved))
  {
    TextRagForwards(deps.pipeline, message, retrieved, remote);
  }

  /** The trace has two steps: the classification with the message and the
      intent, then the tool call, whose preview is the answer's first 160
      characters. */
  lemma AssembledTrace(message: string, deps: Deps, graph: bool, tool: Result<ToolOutput>)
    ensures var r := Assemble(message, deps, graph, tool);
      r.Ok? ==>
        |r.value.trace| == 2 &&
        r.value.trace[0] == AgentStep("classify_intent", map["message" := Str(message)], map["intent" := Str(DetectIntent(message))]) &&
        r.value.trace[1].name == (if graph then "call_graph_rag" else "call_text_rag") &&
        "answer_preview" in r.value.trace[1].output && "sources_count" in r.value.trace[1].output &&
        r.value.trace[1].output["answer_preview"] == Str(Take(r.value.answer, 160)) &&
        |Take(r.value.answer, 160)| <= 160 &&
        r.value.trace[1].output["sources_count"] == Int(|r.value.sources|)
  {
  }

  /** The agent's own entries: its version, the intent and the backend flag. */
  predicate KeepsAgentEntries(m: map<string, Value>, intent: string, enabled: bool) {
    "agent_version" in m && m["agent_version"] == Str("lite-1") &&
    "intent" in m && m["intent"] == Str(intent) &&
    "graph_enabled" in m && m["graph_enabled"] == Bool(enabled)
  }

  /** The entries naming the mode, the tool and the provider. */
  predicate Reports(m: map<string, Value>, mode: string, tool: string, provider: string) {
    "mode" in m && m["mode"] == Str(mode) &&
    "tool" in m && m["tool"] == Str(tool) &&
    "llm_provider" in m && m["llm_provider"] == Str(provider)
  }

  /** Merging a tool's metadata that names neither the version nor the
      intent, and agrees on the backend flag, keeps the agent's values for
      those three; every entry of the tool's is kept as it is. */
  lemma AssembledMeta(message: string, deps: Deps, graph: bool, tool: Result<ToolOutput>)
    requires tool.Ok? ==> "agent_version" !in tool.value.meta && "intent" !in tool.value.meta
    requires tool.Ok? && "graph_enabled" in tool.value.meta ==> tool.value.meta["graph_enabled"] == Bool(GraphEnabled(deps))
    ensures var r := Assemble(message, deps, graph, tool);
      r.Ok? ==>
        KeepsAgentEntries(r.value.meta, DetectIntent(message), GraphEnabled(deps)) &&
        (forall k | k in tool.value.meta :: k in r.value.meta && r.value.meta[k] == tool.value.meta[k]) &&
        ("mode" !in tool.value.meta ==> r.value.meta["mode"] == Str(if graph then "graph_rag" else "text_rag")) &&
        ("llm_provider" !in tool.value.meta ==> r.value.meta["llm_provider"] == Str(ClientClassName(deps.pipeline.client)))
  {
  }

  /** Assembling a graph answer: the graph tool's metadata names neither
      the mode, the version, the intent nor the client, so those keep the
      agent's values. */
  lemma AssembledGraphMeta(message: string, deps: Deps, out: ToolOutput)
    requires out.meta.Keys <= {"tool", "graph_enabled", "graph_error", "graph_vid"}
    requires "tool" in out.meta && out.meta["tool"] == Str("graph_rag")
    requires "graph_enabled" in out.meta && out.meta["graph_enabled"] == Bool(GraphEnabled(deps))
    ensures var r := Assemble(message, deps, true, Ok(out));
      r.Ok? && KeepsAgentEntries(r.value.meta, DetectIntent(message), GraphEnabled(deps)) &&
      Reports(r.value.meta, "graph_rag", "graph_rag", ClientClassName(deps.pipeline.client))
  {
    AssembledMeta(message, deps, true, Ok(out));
  }

  /** The metadata of a graph answer: the tool's entries override the
      agent's but name neither the mode, the version, the intent nor the
      client, which keep the agent's values. */
  lemma AgentGraphMeta(message: string, deps: Deps, adapterFailure: Option<string>, fetch: Fetch,
                       retrieved: seq<Source>, remote: Remote)
    requires UsesGraph(message, deps)
    ensures var r := Agent(message, deps, adapterFailure, fetch, retrieved, remote);
      r.Ok? && KeepsAgentEntries(r.value.meta, "graph", true) &&
      Reports(r.value.meta, "graph_rag", "graph_rag", ClientClassName(deps.pipeline.client))
  {
    var out := GraphAnswer(message, deps, adapterFailure, fetch);
    GraphMetaKeys(true, adapterFailure.None?, adapterFailure, message, fetch);
    AssembledGraphMeta(message, deps, out);
  }

  /** Assembling a text answer: the pipeline's metadata names the mode and
      the provider but neither the version, the intent nor the backend
      flag, so those three keep the agent's values. */
  lemma AssembledTextMeta(message: string, deps: Deps, out: ToolOutput, provider: string)
    requires out.meta.Keys == {"tool", "mode", "top_k", "llm_provider", "llm_error"}
    requires out.meta["tool"] == Str("text_rag") && out.meta["mode"] == Str("text_rag")
    requires out.meta["llm_provider"] == Str(provider)
    ensures var r := Assemble(message, deps, false, Ok(out));
      r.Ok? && KeepsAgentEntries(r.value.meta, DetectIntent(message), GraphEnabled(deps)) &&
      Reports(r.value.meta, "text_rag", "text_rag", provider)
  {
    AssembledMeta(message, deps, false, Ok(out));
  }

  /** The metadata of a text answer: the pipeline's entries override the
      agent's, so the provider is the pipeline's ("unconfigured" rather
      than the agent's "NoneType" without a client), while the version, the
      intent and the backend flag keep the agent's values. */
  lemma AgentTextMeta(message: string, deps: Deps, adapterFailure: Option<string>, fetch: Fetch,
                      retrieved: seq<Source>, remote: Remote)
    requires !UsesGraph(message, deps)
    ensures var r := Agent(message, deps, adapterFailure, fetch, retrieved, remote);
      r.Ok? ==>
        KeepsAgentEntries(r.value.meta, DetectIntent(message), GraphEnabled(deps)) &&
        Reports(r.value.meta, "text_rag", "text_rag", ProviderName(deps.pipeline.client))
  {
    var p := deps.pipeline;
    var tool := TextRagRun(p, message, retrieved, remote);
    TextRagForwards(p, message, retrieved, remote);
    RunSound(p, message, retrieved, remote);
    if tool.Ok? {
      AssembledTextMeta(message, deps, tool.value, ProviderName(p.client));
    }
  }

  /** `run_agent`: the trace grows a step at a time and the metadata is
      updated in place. */
  method RunAgent(message: string, deps: Deps, adapterFailure: Option<string>, fetch: Fetch,
                  retrieved: seq<Source>, remote: Remote)
    returns (r: Result<AgentResult>)
    ensures r == Agent(message, deps, adapterFailure, fetch, retrieved, remote)
  {
    var steps: seq<AgentStep> := [];
    var intent := DetectIntent(message);
    steps := steps + [AgentStep("classify_intent", map["message" := Str(message)], map["intent" := Str(intent)])];

    var pipeline := deps.pipeline;
    var graphEnabled := GraphEnabled(deps);
    var graphTool := new GraphTool(graphEnabled, adapterFailure);

    if intent == "graph" && graphEnabled {
      var out := graphTool.Run(message, fetch);
      assert out == GraphAnswer(message, deps, adapterFailure, fetch);
      r := Finish(message, deps, true, steps, Ok(out));
      return;
    }

    var text := TextRagRun(pipeline, message, retrieved, remote);
    r := Finish(message, deps, false, steps, text);
  }

  /** The rest of `run_agent` once the tool has answered or raised: the
      call step is recorded and the metadata merged. */
  method Finish(message: string, deps: Deps, graph: bool, steps: seq<AgentStep>, tool: Result<ToolOutput>)
    returns (r: Result<AgentResult>)
    requires steps == [AgentStep("classify_intent", map["message" := Str(message)], map["intent" := Str(DetectIntent(message))])]
    ensures r == Assemble(message, deps, graph, tool)
  {
    if tool.Err? {
      return Err(tool.error);
    }
    var out := tool.value;
    var second;
    if graph {
      second := AgentStep("call_graph_rag", map["graph_enabled" := Bool(GraphEnabled(deps))], CallOutput(out));
    } else {
      second := AgentStep("call_text_rag", map["top_k" := Int(deps.pipeline.topK)], CallOutput(out));
    }
    var meta := AgentMeta(if graph then "graph_rag" else "text_rag", DetectIntent(message), GraphEnabled(deps), deps.pipeline.client);
    meta := meta + out.meta;
    assert steps + [second] == [steps[0], second];
    r := Ok(AgentResult(out.answer, out.sources, steps + [second], meta));
  }
}
