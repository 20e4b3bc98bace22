/** The values the analysis pipeline passes around: the state record threaded
    through the two graph nodes, search hits, and what the two external
    providers (web search and text generation) answer. */
module Types {

  datatype Option<T> = None | Some(value: T) {
    /** `d.get(key, default)` on an optional key. */
    function GetOr(default: T): T {
      match this
      case Some(v) => v
      case None => default
    }
  }

  /** A request either succeeds or raises; `Err` carries the exception text. */
  datatype Result<T> = Ok(value: T) | Err(message: string)

  /** One entry of a search provider's `results` list, as a dictionary whose
      keys may be absent: `url` is read with `r["url"]` (absent raises),
      `title` and `content` with `.get(..., default)`. */
  datatype RawResult = RawResult(url: Option<string>, title: Option<string>, content: Option<string>)

  /** A search hit that has a URL, as kept in `search_results`. */
  datatype Hit = Hit(url: string, title: Option<string>, content: Option<string>)

  /** The call made to the search provider for one query. */
  datatype SearchRequest = SearchRequest(query: string, maxResults: nat, depth: string)

  /** What one search call produces: it raises, or returns a response whose
      `results` key may be absent (read with `.get("results", [])`). */
  datatype SearchOutcome = SearchFailed | SearchResponse(results: Option<seq<RawResult>>)

  /** The call made to the text-generation provider. */
  datatype GenerateRequest = GenerateRequest(model: string, maxTokens: nat, system: string, user: string)

  /** What the generation call produces: it raises, or returns a list of
      content segments (possibly empty). */
  datatype GenerateOutcome = GenerateFailed(message: string) | GenerateReply(segments: seq<string>)

  /** `AgentState`: the record each graph node receives and returns. */
  datatype AgentState = AgentState(
    companyName: string,
    analysisType: string,
    searchResults: seq<Hit>,
    report: string,
    sources: seq<string>)

  /** The URL column of a list of hits, in order. */
  function Urls(hits: seq<Hit>): (us: seq<string>)
    ensures |us| == |hits|
    ensures forall i :: 0 <= i < |hits| ==> us[i] == hits[i].url
  {
    seq(|hits|, i requires 0 <= i < |hits| => hits[i].url)
  }

  /** No value occurs twice. */
  predicate Distinct(us: seq<string>) {
    forall i, j :: 0 <= i < j < |us| ==> us[i] != us[j]
  }
}
