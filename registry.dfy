/** The two tables keyed by analysis type: the search queries issued for a
    company and the prompt templates. Both are read with `.get(key, ...)`
    and fall back to their "competition" entry for a key they do not hold. */
module Registry {
  import opened Types
  import opened Text

  /** The key both lookups fall back to. */
  const DefaultType: string := "competition"

  /** The three keys both tables define. */
  const KnownTypes: set<string> := {"competition", "due_diligence", "market_trends"}

  /** The analysis types the HTTP layer accepts before it calls the pipeline. */
  const AcceptedByHttp: seq<string> := ["competition", "due_diligence", "market_trends"]

  /** The key a lookup with fallback reads: the type itself when both
      tables hold it, "competition" otherwise. */
  function ResolveType(analysisType: string): (key: string)
    ensures key in KnownTypes
    ensures analysisType in KnownTypes ==> key == analysisType
    ensures analysisType !in KnownTypes ==> key == DefaultType
  {
    if analysisType in KnownTypes then analysisType else DefaultType
  }

  /** The entries of `ANALYSIS_PROMPTS`, each cut at its `{company}` fields,
      read at a key the table holds ("competition" stands for any other). */
  function Template(key: string): seq<string> {
    if key == "due_diligence" then [
      "You are a risk analyst conducting merchant due diligence. Assess ",
      " thoroughly.\n\nYour report MUST include:\n1. **Company Overview** - Background, founding, leadership\n2. **Business Model Assessment** - How they make money, sustainability\n3. **Red Flags & Concerns** - Any warning signs from news/reviews\n4. **Reputation Analysis** - Customer sentiment, industry standing\n5. **Financial Health Indicators** - Any public financial signals\n6. **Risk Score** - Low/Medium/High with justification\n7. **Recommendation** - Partner/Caution/Avoid with reasoning\n\nBe objective and evidence-based. Flag uncertainties clearly."
    ]
    else if key == "market_trends" then [
      "You are a market research analyst. Analyze macro trends affecting ",
      " and its sector.\n\nYour report MUST include:\n1. **Industry Overview** - Current state and size of the market\n2. **Growth Trends** - Historical and projected growth rates\n3. **Key Drivers** - What's fueling industry changes?\n4. **Emerging Trends** - New technologies, business models, consumer behaviors\n5. **Regulatory Landscape** - Current and upcoming regulations\n6. **Competitive Dynamics** - How is the market structure evolving?\n7. **Future Outlook** - 3-5 year forecast and key uncertainties\n\nSupport claims with data. Distinguish between established trends and speculation."
    ]
    else [
      "You are a senior competitive intelligence analyst. Analyze the competitive landscape for ",
      ".\n\nYour report MUST include:\n1. **Executive Summary** - Key findings in 3-4 bullet points\n2. **Key Competitors** - Identify top 5 competitors with brief profiles\n3. **Market Positioning** - How does ",
      " position itself vs competitors?\n4. **Pricing & Business Model** - Compare pricing strategies\n5. **Strengths & Weaknesses** - SWOT-style analysis\n6. **Strategic Recommendations** - 3-5 actionable insights\n\nBe specific, cite data where available, and focus on actionable intelligence."
    ]
  }

  /** `ANALYSIS_PROMPTS[key]`, cut at its `{company}` fields; `None` for a
      key the table does not hold. */
  function AnalysisPrompt(key: string): Option<seq<string>> {
    if key in KnownTypes then Some(Template(key)) else None
  }

  /** The query table `research_node` builds for `company`, at `key`: each
      query is the company name followed by a fixed suffix; `None` for a key
      the table does not hold. */
  function SearchQueries(company: string, key: string): Option<seq<string>> {
    if key == "competition" then Some([
      company + " competitors market share",
      company + " pricing strategy business model",
      company + " vs competitors comparison"
    ])
    else if key == "due_diligence" then Some([
      company + " company background leadership",
      company + " reviews complaints issues",
      company + " funding revenue financials"
    ])
    else if key == "market_trends" then Some([
      company + " industry trends 2024",
      company + " market growth forecast",
      company + " sector regulation news"
    ])
    else None
  }

  /** The queries issued for one analysis:
      `search_queries.get(analysis_type, search_queries["competition"])`. */
  function QueriesFor(company: string, analysisType: string): seq<string> {
    SearchQueries(company, ResolveType(analysisType)).value
  }

  /** The template pieces used for one analysis:
      `ANALYSIS_PROMPTS.get(analysis_type, ANALYSIS_PROMPTS["competition"])`. */
  function TemplatePieces(analysisType: string): seq<string> {
    Template(ResolveType(analysisType))
  }

  /** The template used for one analysis, with its `{company}` fields in place. */
  function TemplateFor(analysisType: string): string {
    Join(TemplatePieces(analysisType), Placeholder)
  }

  /** Every analysis issues three queries, each the company name followed by
      a non-empty suffix. */
  lemma QueriesNameTheCompany(company: string, analysisType: string)
    ensures |QueriesFor(company, analysisType)| == 3
    ensures forall q :: q in QueriesFor(company, analysisType) ==> company <= q && |q| > |company|
  {
  }

  /** Both tables hold exactly the same keys, and those are exactly the
      types the HTTP layer accepts: a request that passes the HTTP check never
      takes a fallback, and the two fallbacks are taken for the same keys. */
  lemma TablesAgreeOnKeys(company: string, key: string)
    ensures SearchQueries(company, key).Some? <==> key in KnownTypes
    ensures AnalysisPrompt(key).Some? <==> key in KnownTypes
    ensures key in AcceptedByHttp <==> key in KnownTypes
  {
    QueryTableKeys(company, key);
    PromptTableKeys(key);
    HttpAcceptsKeys(key);
  }

  /** The query table holds exactly the three known types. */
  lemma QueryTableKeys(company: string, key: string)
    ensures SearchQueries(company, key).Some? <==> key in KnownTypes
  {
  }

  /** The HTTP layer accepts exactly the three known types. */
  lemma HttpAcceptsKeys(key: string)
    ensures key in AcceptedByHttp <==> key in KnownTypes
  {
  }

  /** The template table holds exactly the three known types. */
  lemma PromptTableKeys(key: string)
    ensures AnalysisPrompt(key).Some? <==> key in KnownTypes
  {
  }

  /** An unknown type gets exactly the queries and the template the tables
      hold for "competition". */
  lemma UnknownTypeFallsBack(company: string, analysisType: string)
    requires analysisType !in KnownTypes
    ensures Some(QueriesFor(company, analysisType)) == SearchQueries(company, DefaultType)
    ensures Some(TemplatePieces(analysisType)) == AnalysisPrompt(DefaultType)
  {
  }

  /** Filling the selected template puts the company name at every
      `{company}` field and leaves the rest of its text as it is, given that
      the template text has no brace other than those fields. */
  lemma TemplateFilled(company: string, analysisType: string)
    requires forall i :: 0 <= i < |TemplatePieces(analysisType)| ==> '{' !in TemplatePieces(analysisType)[i]
    ensures Format(TemplateFor(analysisType), company) == Join(TemplatePieces(analysisType), company)
  {
    FormatFillsEveryPlaceholder(TemplatePieces(analysisType), company);
  }
}
