// Enumerations and tunable settings of the search pipeline, and the
// environment the pipeline cannot compute itself (set iteration order,
// logarithms, hashing).

module Config {
  import opened Base

  /** The search back-ends (ai_scholar/enums/providers.py). */
  datatype ProviderType = Crossref | Arxiv | SemanticScholar | Core | OpenAlex
  {
    /** The enum member's `.value`. */
    function Value(): string
    {
      match this
      case Crossref => "crossref"
      case Arxiv => "arxiv"
      case SemanticScholar => "semantic_scholar"
      case Core => "core"
      case OpenAlex => "openalex"
    }
  }

  /** Attribute lookup `ProviderType.<NAME>`; None is the AttributeError for a missing member. */
  function ProviderMember(name: string): (r: Option<ProviderType>)
    ensures name == "OPENCITATIONS" ==> r == None
  {
    match name
    case "CROSSREF" => Some(Crossref)
    case "ARXIV" => Some(Arxiv)
    case "SEMANTIC_SCHOLAR" => Some(SemanticScholar)
    case "CORE" => Some(Core)
    case "OPENALEX" => Some(OpenAlex)
    case _ => None
  }

  /** The ranking modes (ai_scholar/enums/search_modes.py). */
  datatype RankingMode = AiMode | CitationsMode | YearMode
  {
    function Value(): string
    {
      match this
      case AiMode => "ai"
      case CitationsMode => "citations"
      case YearMode => "year"
    }
  }

  /** The aggregation settings; each may be overridden from the environment. */
  datatype Settings = Settings(
    maxPapersForAi: int,
    maxPerProvider: int,
    maxPerProviderAfterFilter: int,
    preFilterMinScore: real)

  /** The values used when the environment sets none. */
  const DefaultSettings := Settings(200, 100, 50, 0.3)

  const DefaultLimit := 50
  const CitationWeightAi := 0.3
  const CitationWeightCitation := 0.5

  /** Batch sizes and the quota cooldown of the AI back-ends, in seconds. */
  const GoogleBatchSize := 35
  const OpenRouterBatchSize := 25
  const QuotaCooldownSeconds := 3600

  /**
   * What the pipeline takes from outside: the iteration order Python happens
   * to give a set of query words, and math.log10.
   */
  datatype Env = Env(setOrder: set<string> -> seq<string>, log10: real -> real)

  /**
   * An environment that behaves as Python's does: a set iterates over each
   * of its words exactly once, and log10 is non-decreasing with log10(1) = 0.
   */
  ghost predicate ValidEnv(e: Env)
  {
    (forall s :: |e.setOrder(s)| == |s| && forall w :: w in e.setOrder(s) <==> w in s) &&
    e.log10(1.0) == 0.0 &&
    forall x, y :: 0.0 < x <= y ==> e.log10(x) <= e.log10(y)
  }
}
