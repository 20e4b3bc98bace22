/** The two entry points over the graph: `run_analysis`, which runs the
    research node then the analysis node from an empty state and returns the
    report and its sources, and `stream_analysis`, which runs the same two
    nodes while announcing its progress as a fixed sequence of frames. */
module Pipeline {
  import opened Types
  import opened Text
  import Research
  import Analyze
  import Registry

  /** The state both entry points start from: the request's company and
      type, no results, no report, no sources. */
  function InitialState(company: string, analysisType: string): AgentState {
    AgentState(company, analysisType, [], "", [])
  }

  /** The state after the research node. */
  function Researched(company: string, analysisType: string, search: SearchRequest -> SearchOutcome): AgentState {
    Research.Research(InitialState(company, analysisType), search)
  }

  /** What `run_analysis` returns. */
  datatype Report = Report(report: string, sources: seq<string>)

  /** `run_analysis`: research then analysis; the final report and sources,
      or the error the analysis node raised. */
  function RunAnalysis(company: string, analysisType: string,
                       search: SearchRequest -> SearchOutcome,
                       generate: GenerateRequest -> GenerateOutcome): Result<Report>
  {
    FinalReport(Analyze.Analyze(Researched(company, analysisType, search), generate))
  }

  /** The report and sources of the final state, or the analysis error. */
  function FinalReport(analyzed: Result<AgentState>): Result<Report> {
    match analyzed
    case Err(message) => Err(message)
    case Ok(final) => Ok(Report(final.report, final.sources))
  }

  /** The `phase` field of a frame. */
  datatype Phase = ResearchPhase | AnalyzePhase | CompletePhase

  /** One server-sent event: a progress message, or the final report and
      sources. */
  datatype Frame = Progress(phase: Phase, message: string) | Complete(report: string, sources: seq<string>)

  function PhaseOf(f: Frame): Phase {
    match f
    case Progress(phase, _) => phase
    case Complete(_, _) => CompletePhase
  }

  /** The message announcing how many sources the research node kept. */
  function FoundMessage(count: nat): string {
    "Found " + NatToString(count) + " sources"
  }

  /** What `stream_analysis` yields, and the error that ends it when the
      analysis node raises after the third frame. */
  datatype Stream = Stream(frames: seq<Frame>, error: Option<string>)

  /** `stream_analysis`: announce the search, run the research node,
      announce the number of sources, announce the analysis, run the
      analysis node, then send the report and sources. */
  function StreamAnalysis(company: string, analysisType: string,
                          search: SearchRequest -> SearchOutcome,
                          generate: GenerateRequest -> GenerateOutcome): Stream
  {
    var researched := Researched(company, analysisType, search);
    Frames(researched, Analyze.Analyze(researched, generate))
  }

  /** The frames sent around the two nodes, given the state the research node
      returned and the outcome of the analysis node. */
  function Frames(researched: AgentState, analyzed: Result<AgentState>): Stream {
    var opening := [
      Progress(ResearchPhase, "Searching for information..."),
      Progress(ResearchPhase, FoundMessage(|researched.sources|)),
      Progress(AnalyzePhase, "Analyzing data...")
    ];
    match analyzed
    case Err(message) => Stream(opening, Some(message))
    case Ok(final) => Stream(opening + [Complete(final.report, final.sources)], None)
  }

  // ----- properties of the two entry points -----

  /** The stream ends with a report exactly when `run_analysis` succeeds on
      the same analysis outcome, and its last frame then carries the same
      report and sources; when the analysis fails, the stream stops after
      three frames with that error. */
  lemma StreamAgreesWithRun(researched: AgentState, analyzed: Result<AgentState>)
    ensures var st := Frames(researched, analyzed);
      var run := FinalReport(analyzed);
      && (st.error.None? <==> run.Ok?)
      && (run.Ok? ==> |st.frames| == 4 && st.frames[3] == Complete(run.value.report, run.value.sources))
      && (run.Err? ==> |st.frames| == 3 && st.error == Some(run.message))
  {
  }

  /** The frames come in the fixed order research, research, analyze, and,
      only on success, complete. */
  lemma StreamOrder(researched: AgentState, analyzed: Result<AgentState>)
    ensures var st := Frames(researched, analyzed);
      var fs := st.frames;
      && (|fs| == 3 || |fs| == 4)
      && fs[0] == Progress(ResearchPhase, "Searching for information...")
      && PhaseOf(fs[1]) == ResearchPhase
      && fs[2] == Progress(AnalyzePhase, "Analyzing data...")
      && (|fs| == 4 <==> st.error.None?)
      && (|fs| == 4 ==> fs[3].Complete?)
  {
  }

  /** The number announced in the second frame is the number of sources the
      last frame carries, written in decimal: its digits read back as that
      count. This holds for any analysis outcome that leaves the sources as
      they were, which `Analyze.AnalyzeKeepsSources` shows of the analysis
      node. */
  lemma FoundCountMatchesSources(researched: AgentState, analyzed: Result<AgentState>)
    requires analyzed.Ok? ==> analyzed.value.sources == researched.sources
    requires Frames(researched, analyzed).error.None?
    ensures var fs := Frames(researched, analyzed).frames;
      var n := |fs[3].sources|;
      && fs[1] == Progress(ResearchPhase, FoundMessage(n))
      && AllDigits(NatToString(n)) && ParseNat(NatToString(n)) == n
  {
    NatToStringRoundTrip(|researched.sources|);
  }

  /** The two entry points agree: for the same providers, the stream ends
      with a complete frame exactly when `run_analysis` succeeds, that frame
      carries the report and sources `run_analysis` returns, and the second
      frame announces the number of those sources. */
  lemma StreamMatchesRun(company: string, analysisType: string,
                         search: SearchRequest -> SearchOutcome,
                         generate: GenerateRequest -> GenerateOutcome)
    ensures var st := StreamAnalysis(company, analysisType, search, generate);
      var run := RunAnalysis(company, analysisType, search, generate);
      && (st.error.None? <==> run.Ok?)
      && (run.Ok? ==>
            && |st.frames| == 4
            && st.frames[3] == Complete(run.value.report, run.value.sources)
            && st.frames[1] == Progress(ResearchPhase, FoundMessage(|run.value.sources|)))
      && (run.Err? ==> |st.frames| == 3 && st.error == Some(run.message))
  {
    var researched := Researched(company, analysisType, search);
    var analyzed := Analyze.Analyze(researched, generate);
    StreamAgreesWithRun(researched, analyzed);
    Analyze.AnalyzeKeepsSources(researched, generate);
    if analyzed.Ok? {
      FoundCountMatchesSources(researched, analyzed);
    }
  }

  /** `run_analysis` returns the sources the research node kept, unchanged by
      the analysis node: at most fifteen, no URL twice. */
  lemma RunAnalysisSources(company: string, analysisType: string,
                           search: SearchRequest -> SearchOutcome,
                           generate: GenerateRequest -> GenerateOutcome)
    ensures var run := RunAnalysis(company, analysisType, search, generate);
      run.Ok? ==>
        && run.value.sources == Researched(company, analysisType, search).sources
        && |run.value.sources| <= Research.MaxResults
        && Distinct(run.value.sources)
  {
    var researched := Researched(company, analysisType, search);
    Analyze.AnalyzeKeepsSources(researched, generate);
    Research.ResearchResult(InitialState(company, analysisType), search);
  }

  /** The report and sources do not depend on the analysis type of the state
      the reply is stored into. */
  lemma StoredReplyIgnoresType(researched: AgentState, analysisType: string, reply: GenerateOutcome)
    ensures FinalReport(Analyze.StoreReply(researched.(analysisType := analysisType), reply))
         == FinalReport(Analyze.StoreReply(researched, reply))
    ensures Frames(researched.(analysisType := analysisType), Analyze.StoreReply(researched.(analysisType := analysisType), reply))
         == Frames(researched, Analyze.StoreReply(researched, reply))
  {
  }

  /** An unrecognised type gives the same result and the same frames as
      "competition", for the same providers. */
  lemma UnknownTypeRunsAsDefault(company: string, analysisType: string,
                                 search: SearchRequest -> SearchOutcome,
                                 generate: GenerateRequest -> GenerateOutcome)
    requires analysisType !in Registry.KnownTypes
    ensures RunAnalysis(company, analysisType, search, generate) == RunAnalysis(company, Registry.DefaultType, search, generate)
    ensures StreamAnalysis(company, analysisType, search, generate) == StreamAnalysis(company, Registry.DefaultType, search, generate)
  {
    var initial := InitialState(company, Registry.DefaultType);
    var byDefault := Researched(company, Registry.DefaultType, search);
    Research.UnknownTypeResearchesAsDefault(initial, analysisType, search);
    assert InitialState(company, analysisType) == initial.(analysisType := analysisType);
    assert Researched(company, analysisType, search) == byDefault.(analysisType := analysisType);
    Analyze.UnknownTypeRequestsAsDefault(byDefault, analysisType);
    var reply := generate(Analyze.GenerationFor(byDefault));
    StoredReplyIgnoresType(byDefault, analysisType, reply);
  }
}
