/** The analysis node: render the kept search hits as numbered source blocks,
    fill the selected template with the company name, send both prompts to
    the text-generation provider, and store the first segment of its reply
    as the report. */
module Analyze {
  import opened Types
  import opened Text
  import opened Registry

  /** What separates two source blocks in the context. */
  const Separator: string := "\n---\n"
  /** The generation model requested. */
  const ModelName: string := "claude-sonnet-4-20250514"
  /** `max_tokens` of the generation request. */
  const MaxTokens: nat := 4096
  /** The message of the `IndexError` raised when the reply has no content. */
  const EmptyReplyError: string := "list index out of range"

  /** The opening of the block numbered `n`. */
  function Label(n: nat): string {
    "[Source " + NatToString(n) + "] "
  }

  /** The block for one hit, numbered `n`: its label, its title (or
      "Untitled"), its URL and its content (or "No content"), each field
      closed by a newline. */
  function SourceBlock(n: nat, h: Hit): string {
    Label(n) + h.title.GetOr("Untitled") + "\nURL: " + h.url + "\nContent: " + h.content.GetOr("No content") + "\n"
  }

  /** `context_parts`: one block per hit, numbered from 1. */
  function ContextParts(hits: seq<Hit>): (parts: seq<string>)
    ensures |parts| == |hits|
  {
    seq(|hits|, i requires 0 <= i < |hits| => SourceBlock(i + 1, hits[i]))
  }

  /** The context: the blocks joined by the separator. */
  function Context(hits: seq<Hit>): string {
    Join(ContextParts(hits), Separator)
  }

  /** The loop of `analyze_node` that accumulates `context_parts`, followed
      by the join. */
  method BuildContext(hits: seq<Hit>) returns (context: string)
    ensures context == Context(hits)
  {
    var parts: seq<string> := [];
    for i := 0 to |hits|
      invariant |parts| == i
      invariant forall k :: 0 <= k < i ==> parts[k] == SourceBlock(k + 1, hits[k])
    {
      parts := parts + [SourceBlock(i + 1, hits[i])];
    }
    assert parts == ContextParts(hits);
    context := Join(parts, Separator);
  }

  /** Line `k` of the fixed system prompt (0-based, five lines). */
  function SystemLine(k: nat): string {
    if k == 0 then "You are an expert market intelligence analyst. "
    else if k == 1 then "Your reports are thorough, well-structured, and actionable."
    else if k == 2 then "Always cite your sources using [Source N] notation."
    else if k == 3 then "Use markdown formatting for clear structure."
    else "Be direct and avoid filler language."
  }

  /** The system prompt: its five lines separated by newlines. */
  function SystemPrompt(): string {
    Join(seq(5, k requires 0 <= k < 5 => SystemLine(k)), "\n")
  }

  /** Line `k` of the user prompt that does not depend on the analysis: the
      research data heading (line 2), the rule (line 6) and the two closing
      sentences (lines 8 and 9); every other such line is empty. */
  function FixedLine(k: nat): string {
    if k == 2 then "## Research Data"
    else if k == 6 then "---"
    else if k == 8 then "Generate a comprehensive markdown report based on the research above."
    else if k == 9 then "Cite sources where applicable using [Source N] notation."
    else ""
  }

  /** The ten lines of the user prompt: the filled template first, the
      context fifth, the fixed lines around them. */
  function UserLines(filled: string, context: string): seq<string> {
    seq(10, k requires 0 <= k < 10 => if k == 0 then filled else if k == 4 then context else FixedLine(k))
  }

  /** The template selected for the state's analysis type, filled with its
      company name. */
  function FilledTemplate(state: AgentState): string {
    Format(TemplateFor(state.analysisType), state.companyName)
  }

  /** The user prompt: its lines separated by newlines. */
  function UserPrompt(state: AgentState, context: string): string {
    Join(UserLines(FilledTemplate(state), context), "\n")
  }

  /** The generation request `analyze_node` sends. */
  function GenerationFor(state: AgentState): GenerateRequest {
    GenerateRequest(ModelName, MaxTokens, SystemPrompt(), UserPrompt(state, Context(state.searchResults)))
  }

  /** The state `analyze_node` returns, or the error it raises: the provider
      call fails, or its reply has no segment to read. */
  function Analyze(state: AgentState, generate: GenerateRequest -> GenerateOutcome): Result<AgentState> {
    StoreReply(state, generate(GenerationFor(state)))
  }

  /** What `analyze_node` makes of the provider's answer: the error it
      raises, or the state with the first reply segment as its report. */
  function StoreReply(state: AgentState, reply: GenerateOutcome): (r: Result<AgentState>)
    ensures r.Ok? <==> reply.GenerateReply? && reply.segments != []
    ensures r.Ok? ==> r.value == state.(report := reply.segments[0])
    ensures reply.GenerateFailed? ==> r == Err(reply.message)
  {
    match reply
    case GenerateFailed(message) => Err(message)
    case GenerateReply(segments) =>
      if segments == [] then Err(EmptyReplyError)
      else Ok(state.(report := segments[0]))
  }

  /** `analyze_node`: builds the context with its loop, makes the call, and
      stores the reply. */
  method AnalyzeNode(state: AgentState, generate: GenerateRequest -> GenerateOutcome) returns (r: Result<AgentState>)
    ensures r == Analyze(state, generate)
  {
    var context := BuildContext(state.searchResults);
    var reply := generate(GenerateRequest(ModelName, MaxTokens, SystemPrompt(), UserPrompt(state, context)));
    assert reply == generate(GenerationFor(state));
    r := StoreReply(state, reply);
  }

  // ----- properties of the context -----

  /** No hits, no context. */
  lemma EmptyContext()
    ensures Context([]) == ""
  {
  }

  /** One hit: the context is that hit's block alone, labelled 1. */
  lemma SingleHitContext(h: Hit)
    ensures Context([h]) == SourceBlock(1, h)
    ensures Label(1) == "[Source 1] "
  {
  }

  /** Appending a hit appends the separator and that hit's block, numbered
      one past the previous count. */
  lemma ContextSnoc(hits: seq<Hit>, h: Hit)
    requires hits != []
    ensures Context(hits + [h]) == Context(hits) + Separator + SourceBlock(|hits| + 1, h)
  {
    assert ContextParts(hits + [h]) == ContextParts(hits) + [SourceBlock(|hits| + 1, h)];
    JoinSnoc(ContextParts(hits), SourceBlock(|hits| + 1, h), Separator);
  }

  /** A hit without title is rendered as if its title were "Untitled", and
      one without content as if its content were "No content". */
  lemma AbsentFieldsRenderAsDefaults(n: nat, h: Hit)
    ensures h.title.None? ==> SourceBlock(n, h) == SourceBlock(n, h.(title := Some("Untitled")))
    ensures h.content.None? ==> SourceBlock(n, h) == SourceBlock(n, h.(content := Some("No content")))
  {
  }

  /** Block `i` (0-based) opens with the label of number `i + 1`. */
  lemma BlockOpensWithLabel(hits: seq<Hit>, i: nat)
    requires i < |hits|
    ensures Label(i + 1) <= ContextParts(hits)[i]
  {
  }

  /** No two blocks carry the same label: the numbering identifies the
      source. */
  lemma LabelsDiffer(i: nat, j: nat)
    requires i != j
    ensures Label(i) != Label(j)
  {
    if Label(i) == Label(j) {
      assert NatToString(i) == Label(i)[8..|Label(i)| - 2];
      NatToStringInjective(i, j);
    }
  }

  // ----- properties of the node -----

  /** `analyze_node` changes only the report, which is the first segment of
      the reply; it fails exactly when the call fails or the reply is empty. */
  lemma AnalyzeOnlySetsReport(state: AgentState, reply: GenerateOutcome)
    ensures var r := StoreReply(state, reply);
      r.Ok? ==>
        && r.value.report == reply.segments[0]
        && r.value.companyName == state.companyName
        && r.value.analysisType == state.analysisType
        && r.value.searchResults == state.searchResults
        && r.value.sources == state.sources
  {
  }

  /** The request carries the fixed model, token limit and system prompt;
      the first line of its user prompt is the filled template and the
      fifth is the context built from the state's search results. */
  lemma RequestShape(state: AgentState)
    ensures var req := GenerationFor(state);
      var lines := UserLines(FilledTemplate(state), Context(state.searchResults));
      && req.model == ModelName && req.maxTokens == MaxTokens
      && req.system == SystemPrompt()
      && req.user == Join(lines, "\n")
      && |lines| == 10
      && lines[0] == FilledTemplate(state)
      && lines[4] == Context(state.searchResults)
  {
  }

  /** An unrecognised type sends exactly the request "competition" sends. */
  lemma UnknownTypeRequestsAsDefault(state: AgentState, analysisType: string)
    requires analysisType !in KnownTypes
    ensures GenerationFor(state.(analysisType := analysisType)) == GenerationFor(state.(analysisType := DefaultType))
  {
  }

  /** A successful analysis leaves the sources as they were. */
  lemma AnalyzeKeepsSources(state: AgentState, generate: GenerateRequest -> GenerateOutcome)
    ensures Analyze(state, generate).Ok? ==> Analyze(state, generate).value.sources == state.sources
  {
  }
}
