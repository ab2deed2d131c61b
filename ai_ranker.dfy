// ai_scholar/ai_ranker.py: the legacy batch ranker. The papers are sent to
// the AI model in consecutive batches; what process_ai_batch returns for a
// batch (the parsed list of dicts, or None when the call raised) comes from
// a function parameter that is given the batch number, counted from 1, and
// the prompt summaries of the batch's papers. The ranker updates the
// caller's dicts in place; here each update yields a new dict, and the
// descriptions that reach the ranked list through shared dicts are written
// back by position.

module AiRanker {
  import opened Base
  import opened Text
  import opened Values
  import opened Lists
  import opened Sorting
  import opened AiUtils
  import opened Helpers
  import opened Config
  import opened Batching

  /** What process_ai_batch returns for one batch. */
  type Reply = Option<seq<PaperDict>>

  /** The AI model behind process_ai_batch: batch number and summaries to the reply. */
  type Model = (nat, seq<PaperDict>) -> Reply

  /** `if ai_result:` (and `if result:`): only a non-empty list is used. */
  predicate Answered(reply: Reply)
  {
    reply.Some? && reply.value != []
  }

  /** The openings a generated description may not have. */
  const ForbiddenStarts: seq<string> := ["this paper", "the authors", "this work", "this research", "the paper", "this study"]

  /** The explanation check generate_ai_descriptions applies, with the forbidden openings above. */
  predicate Acceptable(e: string)
  {
    ValidExplanation(e, ForbiddenStarts)
  }

  // ---------------------------------------------------------------- ranking one batch

  /** The three fields ai_ranker writes into a paper. */
  function RankFields(p: PaperDict, ai: int, score: real, explanation: string): PaperDict
  {
    p["ai_relevance_score" := IntV(ai)]["final_relevance_score" := RealV(score)]["explanation" := StrV(explanation)]
  }

  /** A paper of a batch the model did not answer: relevance 5, score 5.0, no explanation. */
  function Unranked(p: PaperDict): PaperDict
  {
    RankFields(p, 5, 5.0, "")
  }

  /**
   * Batch paper `p` paired with its reply: the relevance read by
   * _safe_int_conversion (5 when absent), the final score from the paper's
   * citations (0 when absent) and the stripped explanation. A citation
   * value that is not a number makes the division raise, and an
   * explanation that is not a string has no strip.
   */
  function Scored(p: PaperDict, reply: PaperDict, weight: real): Result<PaperDict>
  {
    var ai := SafeIntConversion(Get(reply, "relevance_score", IntV(5)));
    match NumOf(Get(p, "citations", IntV(0)))
    case None => Err("TypeError: unsupported operand type(s) for /")
    case Some(c) =>
      match Get(reply, "explanation", StrV(""))
      case StrV(e) => Ok(RankFields(p, ai, FinalScore(ai, c, weight), Strip(e)))
      case _ => Err("AttributeError: object has no attribute 'strip'")
  }

  function ScoreWith(weight: real): (PaperDict, PaperDict) -> Result<PaperDict>
  {
    (p: PaperDict, reply: PaperDict) => Scored(p, reply, weight)
  }

  /** One batch: its papers paired with the model's replies, or every paper unranked when there are none. */
  function BatchRanked(batch: seq<PaperDict>, reply: Reply, weight: real): Result<seq<PaperDict>>
  {
    if Answered(reply) then PairedWith(batch, reply.value, ScoreWith(weight)) else Ok(Map(batch, Unranked))
  }

  /** The paired papers of a batch, in order. */
  method PairReplies(batch: seq<PaperDict>, replies: seq<PaperDict>, weight: real) returns (r: Result<seq<PaperDict>>)
    ensures r == PairedWith(batch, replies, ScoreWith(weight))
  {
    var ranked: seq<PaperDict> := [];
    for i := 0 to |replies|
      invariant PairedWith(batch, replies[..i], ScoreWith(weight)) == Ok(ranked)
    {
      assert replies[..i + 1][..i] == replies[..i];
      if i < |batch| {
        var q := Scored(batch[i], replies[i], weight);
        if q.Err? {
          PairedWithErr(batch, replies, ScoreWith(weight), i + 1);
          return Err(q.error);
        }
        ranked := ranked + [q.value];
      }
    }
    assert replies[..|replies|] == replies;
    return Ok(ranked);
  }

  /** The body of the batch loop of ai_ranker. */
  method RankBatch(batch: seq<PaperDict>, reply: Reply, weight: real) returns (r: Result<seq<PaperDict>>)
    ensures r == BatchRanked(batch, reply, weight)
  {
    if Answered(reply) {
      r := PairReplies(batch, reply.value, weight);
    } else {
      var ranked: seq<PaperDict> := [];
      for i := 0 to |batch|
        invariant ranked == Map(batch[..i], Unranked)
      {
        assert batch[..i + 1][..i] == batch[..i];
        ranked := ranked + [Unranked(batch[i])];
      }
      assert batch[..|batch|] == batch;
      r := Ok(ranked);
    }
  }

  /** Every paper the ranking returns carries a real final score and a string explanation. */
  predicate HasRankFields(q: PaperDict)
  {
    "final_relevance_score" in q && q["final_relevance_score"].RealV? &&
    "explanation" in q && q["explanation"].StrV?
  }

  lemma RankFieldsHas(p: PaperDict, ai: int, score: real, e: string)
    ensures HasRankFields(RankFields(p, ai, score, e))
  {
  }

  /** A ranked paper is its batch paper with the relevance, the score and the explanation written in. */
  lemma ScoredFields(p: PaperDict, reply: PaperDict, weight: real)
    ensures Scored(p, reply, weight).Ok? ==> HasRankFields(Scored(p, reply, weight).value)
    ensures Scored(p, reply, weight).Ok? <==>
      NumOf(Get(p, "citations", IntV(0))).Some? && Get(reply, "explanation", StrV("")).StrV?
  {
    if Scored(p, reply, weight).Ok? {
      var ai := SafeIntConversion(Get(reply, "relevance_score", IntV(5)));
      var c := NumOf(Get(p, "citations", IntV(0))).value;
      RankFieldsHas(p, ai, FinalScore(ai, c, weight), Strip(Get(reply, "explanation", StrV("")).s));
    }
  }

  /** An unranked paper has relevance 5, score 5.0 and an empty explanation, and keeps every other field. */
  lemma UnrankedFields(p: PaperDict)
    ensures Get(Unranked(p), "ai_relevance_score", NoneV) == IntV(5)
    ensures Get(Unranked(p), "final_relevance_score", NoneV) == RealV(5.0)
    ensures Get(Unranked(p), "explanation", NoneV) == StrV("")
    ensures forall k :: k in p && k !in {"ai_relevance_score", "final_relevance_score", "explanation"} ==>
      k in Unranked(p) && Unranked(p)[k] == p[k]
  {
  }

  /**
   * A batch without an answer keeps every paper, unranked; an answered
   * batch keeps the first min(len(replies), len(batch)) papers, each paired
   * with its reply; either way every paper gets a score and an explanation.
   */
  lemma BatchRankedShape(batch: seq<PaperDict>, reply: Reply, weight: real)
    ensures var r := BatchRanked(batch, reply, weight);
      Answered(reply) && r.Ok? ==> (|r.value| == Min(|batch|, |reply.value|) &&
        forall i :: 0 <= i < |r.value| && i < |batch| && i < |reply.value| ==>
          Ok(r.value[i]) == Scored(batch[i], reply.value[i], weight))
    ensures var r := BatchRanked(batch, reply, weight);
      r.Ok? ==> |r.value| <= |batch| && AllGood(r.value, HasRankFields)
  {
    var r := BatchRanked(batch, reply, weight);
    if Answered(reply) {
      PairedWithShape(batch, reply.value, ScoreWith(weight));
      if r.Ok? {
        forall j | 0 <= j < |r.value|
          ensures HasRankFields(r.value[j])
        {
          ScoredFields(batch[j], reply.value[j], weight);
        }
      }
    } else {
      forall j | 0 <= j < |batch|
        ensures HasRankFields(Unranked(batch[j]))
      {
        RankFieldsHas(batch[j], 5, 5.0, "");
      }
    }
  }

  // ---------------------------------------------------------------- all batches

  /** The batch loop's body: the model sees batch number k and the summaries of the batch. */
  function RankStep(model: Model, weight: real): (nat, seq<PaperDict>) -> Result<seq<PaperDict>>
  {
    (k: nat, b: seq<PaperDict>) => BatchRanked(b, model(k, Map(b, PaperSummary)), weight)
  }

  /** The batches return no more papers than they were given, each with a real score and a string explanation. */
  lemma RankedBatchesShape(s: seq<PaperDict>, size: nat, model: Model, weight: real)
    requires size > 0
    ensures var r := BatchesWith(s, size, RankStep(model, weight), BatchCount(|s|, size));
      r.Ok? ==> |r.value| <= |s| && AllGood(r.value, HasRankFields)
  {
    var step := RankStep(model, weight);
    forall k: nat, b: seq<PaperDict> | step(k, b).Ok?
      ensures |step(k, b).value| <= |b| && AllGood(step(k, b).value, HasRankFields)
    {
      BatchRankedShape(b, model(k, Map(b, PaperSummary)), weight);
    }
    BatchesWithBounded(s, size, step, HasRankFields, BatchCount(|s|, size));
    BatchesCover(s, size, BatchCount(|s|, size));
  }

  /** A model that never answers leaves every paper unranked, in order. */
  lemma RankedBatchesUnanswered(s: seq<PaperDict>, size: nat, model: Model, weight: real)
    requires size > 0
    requires forall k: nat, b: seq<PaperDict> :: !Answered(model(k, b))
    ensures BatchesWith(s, size, RankStep(model, weight), BatchCount(|s|, size)) == Ok(Map(s, Unranked))
  {
    var step := RankStep(model, weight);
    forall k: nat, b: seq<PaperDict>
      ensures step(k, b) == Ok(Map(b, Unranked))
    {
      assert !Answered(model(k, Map(b, PaperSummary)));
    }
    BatchesWithMap(s, size, step, Unranked, BatchCount(|s|, size));
    BatchesCover(s, size, BatchCount(|s|, size));
  }

  // ---------------------------------------------------------------- descriptions

  /** A description reply for paper `p`: a valid stripped explanation replaces the paper's. */
  function Described(p: PaperDict, reply: PaperDict): Result<PaperDict>
  {
    DescribedBy(p, Get(reply, "explanation", StrV("")), Acceptable)
  }

  /** `Described` on the reply's explanation value, with the explanation check `accept` as a parameter. */
  function DescribedBy(p: PaperDict, explanation: Value, accept: string -> bool): Result<PaperDict>
  {
    match explanation
    case StrV(e) => Ok(if accept(Strip(e)) then p["explanation" := StrV(Strip(e))] else p)
    case _ => Err("AttributeError: object has no attribute 'strip'")
  }

  function DescribeWith(): (PaperDict, PaperDict) -> Result<PaperDict>
  {
    (p: PaperDict, reply: PaperDict) => Described(p, reply)
  }

  /** One description batch: the replies applied in place, or the batch unchanged without an answer. */
  function DescribedBatch(batch: seq<PaperDict>, reply: Reply): Result<seq<PaperDict>>
  {
    if Answered(reply) then InPlaceWith(batch, reply.value, DescribeWith()) else Ok(batch)
  }

  /** `q` is `p`, or `p` with an explanation that passes the check with the forbidden openings. */
  predicate Updated(p: PaperDict, q: PaperDict)
  {
    q == p ||
    ("explanation" in q && q["explanation"].StrV? &&
     Acceptable(q["explanation"].s) && q == p["explanation" := q["explanation"]])
  }

  /** A description reply either leaves the paper alone or gives it an explanation that passes the check. */
  lemma DescribedUpdates(p: PaperDict, reply: PaperDict)
    ensures Described(p, reply).Ok? ==> Updated(p, Described(p, reply).value)
    ensures Described(p, reply).Ok? <==> Get(reply, "explanation", StrV("")).StrV?
  {
    var ex := Get(reply, "explanation", StrV(""));
    if ex.StrV? {
      var e := Strip(ex.s);
      if Acceptable(e) {
        var q := p["explanation" := StrV(e)];
        assert Described(p, reply) == Ok(q);
        assert q["explanation"] == StrV(e);
      } else {
        assert Described(p, reply) == Ok(p);
      }
    }
  }

  lemma DescribedBatchShape(batch: seq<PaperDict>, reply: Reply)
    ensures DescribedBatch(batch, reply).Ok? ==> Pointwise(batch, DescribedBatch(batch, reply).value, Updated)
  {
    if Answered(reply) {
      InPlaceWithShape(batch, reply.value, DescribeWith());
      var r := DescribedBatch(batch, reply);
      if r.Ok? {
        forall i | 0 <= i < |batch|
          ensures Updated(batch[i], r.value[i])
        {
          if i < |reply.value| {
            DescribedUpdates(batch[i], reply.value[i]);
          }
        }
      }
    }
  }

  function DescribeStep(model: Model): (nat, seq<PaperDict>) -> Result<seq<PaperDict>>
  {
    (k: nat, b: seq<PaperDict>) => DescribedBatch(b, model(k, Map(b, DescriptionSummary)))
  }

  /** generate_ai_descriptions: at most DEFAULT_LIMIT papers, in batches; it returns the papers it handled. */
  function GenerateDescriptions(papers: seq<PaperDict>, size: nat, model: Model): Result<seq<PaperDict>>
    requires size > 0
  {
    if papers == [] then Ok([])
    else
      var total := Min(|papers|, DefaultLimit);
      BatchesWith(papers[..total], size, DescribeStep(model), BatchCount(total, size))
  }

  /**
   * generate_ai_descriptions handles the first min(len(papers),
   * DEFAULT_LIMIT) papers, and changes at most the explanation of each,
   * to one that passes the check with the forbidden openings.
   */
  lemma GenerateDescriptionsShape(papers: seq<PaperDict>, size: nat, model: Model)
    requires size > 0
    ensures var r := GenerateDescriptions(papers, size, model);
      r.Ok? ==> Pointwise(papers[..Min(|papers|, DefaultLimit)], r.value, Updated)
  {
    if papers != [] {
      var total := Min(|papers|, DefaultLimit);
      var step := DescribeStep(model);
      forall k: nat, b: seq<PaperDict> | step(k, b).Ok?
        ensures Pointwise(b, step(k, b).value, Updated)
      {
        DescribedBatchShape(b, model(k, Map(b, DescriptionSummary)));
      }
      BatchesWithPointwise(papers[..total], size, step, Updated, BatchCount(total, size));
      BatchesCover(papers[..total], size, BatchCount(total, size));
    }
  }

  /** The loop body of generate_ai_descriptions for one paper and the explanation its reply holds, with the explanation check `accept`. */
  method DescribePaper(p: PaperDict, explanation: Value, accept: string -> bool) returns (r: Result<PaperDict>)
    ensures r == DescribedBy(p, explanation, accept)
  {
    if !explanation.StrV? {
      return Err("AttributeError: object has no attribute 'strip'");
    }
    var e := Strip(explanation.s);
    if accept(e) {
      return Ok(p["explanation" := StrV(e)]);
    }
    return Ok(p);
  }

  /** One batch of generate_ai_descriptions, the replies applied paper by paper. */
  method DescribeBatch(batch: seq<PaperDict>, reply: Reply) returns (r: Result<seq<PaperDict>>)
    ensures r == DescribedBatch(batch, reply)
  {
    if !Answered(reply) {
      return Ok(batch);
    }
    var replies := reply.value;
    var papers := batch;
    for i := 0 to |replies|
      invariant InPlaceWith(batch, replies[..i], DescribeWith()) == Ok(papers)
    {
      InPlaceWithStep(batch, replies, DescribeWith(), i);
      if i < |batch| {
        var d := DescribePaper(papers[i], Get(replies[i], "explanation", StrV("")), Acceptable);
        if d.Err? {
          InPlaceWithErr(batch, replies, DescribeWith(), i + 1);
          return Err(d.error);
        }
        papers := papers[i := d.value];
      }
    }
    assert replies[..|replies|] == replies;
    return Ok(papers);
  }

  /** Batch k of generate_ai_descriptions, counted from 0: slice it out, ask the model, apply the replies. */
  method DescribeBatchNumber(toProcess: seq<PaperDict>, size: nat, model: Model, k: nat)
    returns (v: Result<seq<PaperDict>>)
    requires size > 0 && k < BatchCount(|toProcess|, size)
    ensures k * size < |toProcess| && v == DescribeStep(model)(k + 1, Batch(toProcess, size, k))
  {
    BatchCountBounds(|toProcess|, size, k);
    var b := Batch(toProcess, size, k);
    v := DescribeBatch(b, model(k + 1, Map(b, DescriptionSummary)));
  }

  /** generate_ai_descriptions, returning the papers it handled. */
  method GenerateAiDescriptions(papers: seq<PaperDict>, size: nat, model: Model) returns (r: Result<seq<PaperDict>>)
    requires size > 0
    ensures r == GenerateDescriptions(papers, size, model)
  {
    if papers == [] {
      return Ok([]);
    }
    var total := Min(|papers|, DefaultLimit);
    var toProcess := papers[..total];
    var count := (total + size - 1) / size;
    var handled: seq<PaperDict> := [];
    for k := 0 to count
      invariant BatchesWith(toProcess, size, DescribeStep(model), k) == Ok(handled)
    {
      BatchesWithStep(toProcess, size, DescribeStep(model), k);
      var v := DescribeBatchNumber(toProcess, size, model, k);
      if v.Err? {
        BatchesWithErr(toProcess, size, DescribeStep(model), k + 1, count);
        return Err(v.error);
      }
      handled := handled + v.value;
    }
    return Ok(handled);
  }

  // ---------------------------------------------------------------- ai_ranker

  /** `x.get("final_relevance_score", 0)`, the sort key. */
  function ScoreKey(p: PaperDict): Key
  {
    NumKey(NumField(p, "final_relevance_score"))
  }

  /** The explanation text of a ranked paper (always a string after ranking). */
  function ExplanationText(p: PaperDict): string
  {
    match Get(p, "explanation", StrV(""))
    case StrV(s) => s
    case _ => ""
  }

  /** A paper whose explanation fails validate_explanation without forbidden openings. */
  predicate Lacks(p: PaperDict)
  {
    !ValidExplanation(ExplanationText(p), [])
  }

  /**
   * The ranked list after generate_ai_descriptions has written into the
   * dicts it shares with it: the j-th paper that lacks an explanation
   * becomes `described[j]`, while there is one.
   */
  function Patched(sorted: seq<PaperDict>, described: seq<PaperDict>): (r: seq<PaperDict>)
    ensures |r| == |sorted|
  {
    PatchedWith(sorted, described, Lacks)
  }

  /** `Patched` with the test for a missing explanation as a parameter. */
  function PatchedWith(sorted: seq<PaperDict>, described: seq<PaperDict>, lacks: PaperDict -> bool): (r: seq<PaperDict>)
    ensures |r| == |sorted|
  {
    if sorted == [] then []
    else
      var n := |sorted| - 1;
      var c := |Filter(sorted[..n], lacks)|;
      PatchedWith(sorted[..n], described, lacks) + [if lacks(sorted[n]) && c < |described| then described[c] else sorted[n]]
  }

  /** Writing back updated copies of the lacking papers updates each paper of the list, and only lacking ones. */
  lemma PatchedShape(sorted: seq<PaperDict>, described: seq<PaperDict>)
    requires |described| <= |Filter(sorted, Lacks)|
    requires forall j :: 0 <= j < |described| ==> Updated(Filter(sorted, Lacks)[j], described[j])
    ensures forall i :: 0 <= i < |sorted| ==> Updated(sorted[i], Patched(sorted, described)[i])
    ensures forall i :: 0 <= i < |sorted| && !Lacks(sorted[i]) ==> Patched(sorted, described)[i] == sorted[i]
  {
    forall i | 0 <= i < |sorted|
      ensures Updated(sorted[i], Patched(sorted, described)[i])
      ensures !Lacks(sorted[i]) ==> Patched(sorted, described)[i] == sorted[i]
    {
      PatchedAt(sorted, described, Lacks, i);
    }
  }

  /** Paper i is replaced by the described copy of the j-th lacking paper, j counting the lacking papers before it. */
  lemma {:induction false} PatchedAt(sorted: seq<PaperDict>, described: seq<PaperDict>, lacks: PaperDict -> bool, i: nat)
    requires i < |sorted|
    ensures var j := |Filter(sorted[..i], lacks)|;
      if lacks(sorted[i]) && j < |described|
      then j < |Filter(sorted, lacks)| && Filter(sorted, lacks)[j] == sorted[i] && PatchedWith(sorted, described, lacks)[i] == described[j]
      else PatchedWith(sorted, described, lacks)[i] == sorted[i]
    decreases |sorted|
  {
    var n := |sorted| - 1;
    var f := Filter(sorted[..n], lacks);
    FilterStep(sorted, n, lacks);
    assert sorted[..n + 1] == sorted;
    assert Filter(sorted, lacks) == f + (if lacks(sorted[n]) then [sorted[n]] else []);
    if i < n {
      PatchedAt(sorted[..n], described, lacks, i);
      assert sorted[..n][..i] == sorted[..i];
      assert sorted[..n][i] == sorted[i];
      assert PatchedWith(sorted, described, lacks)[i] == PatchedWith(sorted[..n], described, lacks)[i];
    }
  }

  /** Updating explanations leaves the sort key of every paper as it was. */
  lemma UpdatedKeepsScore(p: PaperDict, q: PaperDict)
    requires Updated(p, q)
    ensures ScoreKey(q) == ScoreKey(p)
  {
  }

  /** CITATION_WEIGHT_CITATION for "citation_ranking", CITATION_WEIGHT_AI for any other mode. */
  function Weight(mode: string): real
  {
    if mode == "citation_ranking" then CitationWeightCitation else CitationWeightAi
  }

  /** `all_papers[:ai_result_limit * 2] if len(all_papers) > ai_result_limit * 2 else all_papers`. */
  function ToProcess(all: seq<PaperDict>, limit: int): seq<PaperDict>
  {
    if |all| > limit * 2 then Slice(all, limit * 2) else all
  }

  /** The batch loop of ai_ranker over all its batches. */
  function RankedAll(s: seq<PaperDict>, size: nat, model: Model, weight: real): Result<seq<PaperDict>>
    requires size > 0
  {
    BatchesWith(s, size, RankStep(model, weight), BatchCount(|s|, size))
  }

  /**
   * ai_ranker: the first 2*ai_result_limit papers ranked in batches with
   * the citation weight of the mode, stably sorted by non-increasing final
   * score, then descriptions generated for the papers that lack one.
   */
  function AiRanked(all: seq<PaperDict>, mode: string, limit: int, size: nat, descSize: nat,
                    rankModel: Model, descModel: Model): Result<seq<PaperDict>>
    requires size > 0 && descSize > 0
  {
    if all == [] then Ok([])
    else
      match RankedAll(ToProcess(all, limit), size, rankModel, Weight(mode))
      case Err(e) => Err(e)
      case Ok(ranked) =>
        var sorted := SortDesc(ranked, ScoreKey);
        var lacking := Filter(sorted, Lacks);
        if lacking == [] then Ok(sorted)
        else
          match GenerateDescriptions(lacking, descSize, descModel)
          case Err(e) => Err(e)
          case Ok(described) => Ok(Patched(sorted, described))
  }

  /** Batch k of ai_ranker, counted from 0: slice it out, ask the model, rank it. */
  method RankBatchNumber(toProcess: seq<PaperDict>, size: nat, rankModel: Model, weight: real, k: nat)
    returns (v: Result<seq<PaperDict>>)
    requires size > 0 && k < BatchCount(|toProcess|, size)
    ensures k * size < |toProcess| && v == RankStep(rankModel, weight)(k + 1, Batch(toProcess, size, k))
  {
    BatchCountBounds(|toProcess|, size, k);
    var b := Batch(toProcess, size, k);
    v := RankBatch(b, rankModel(k + 1, Map(b, PaperSummary)), weight);
  }

  /** The batch loop of ai_ranker. */
  method RankAll(toProcess: seq<PaperDict>, size: nat, rankModel: Model, weight: real) returns (r: Result<seq<PaperDict>>)
    requires size > 0
    ensures r == RankedAll(toProcess, size, rankModel, weight)
  {
    var total := |toProcess|;
    var count := (total + size - 1) / size;
    var ranked: seq<PaperDict> := [];
    for k := 0 to count
      invariant BatchesWith(toProcess, size, RankStep(rankModel, weight), k) == Ok(ranked)
    {
      BatchesWithStep(toProcess, size, RankStep(rankModel, weight), k);
      var v := RankBatchNumber(toProcess, size, rankModel, weight, k);
      if v.Err? {
        BatchesWithErr(toProcess, size, RankStep(rankModel, weight), k + 1, count);
        return Err(v.error);
      }
      ranked := ranked + v.value;
    }
    return Ok(ranked);
  }

  /** ai_ranker, with the batch sizes that get_optimal_batch_size gives for "ranking" and "description". */
  method RankPapers(all: seq<PaperDict>, mode: string, limit: int, size: nat, descSize: nat,
                    rankModel: Model, descModel: Model) returns (r: Result<seq<PaperDict>>)
    requires size > 0 && descSize > 0
    ensures r == AiRanked(all, mode, limit, size, descSize, rankModel, descModel)
  {
    if all == [] {
      return Ok([]);
    }
    var weight := Weight(mode);
    var toProcess := ToProcess(all, limit);
    var ranked := RankAll(toProcess, size, rankModel, weight);
    if ranked.Err? {
      return Err(ranked.error);
    }
    var sorted := SortDesc(ranked.value, ScoreKey);
    var lacking := Filter(sorted, Lacks);
    if lacking != [] {
      var described := GenerateAiDescriptions(lacking, descSize, descModel);
      if described.Err? {
        return Err(described.error);
      }
      return Ok(Patched(sorted, described.value));
    }
    return Ok(sorted);
  }

  /** Writing the descriptions back keeps the list's order by score and its rank fields. */
  lemma PatchedKeepsOrder(sorted: seq<PaperDict>, described: seq<PaperDict>)
    requires |described| <= |Filter(sorted, Lacks)|
    requires Pointwise(Filter(sorted, Lacks)[..|described|], described, Updated)
    requires SortedDesc(sorted, ScoreKey) && AllGood(sorted, HasRankFields)
    ensures var p := Patched(sorted, described);
      SortedDesc(p, ScoreKey) && AllGood(p, HasRankFields)
  {
    var f := Filter(sorted, Lacks);
    assert forall j :: 0 <= j < |described| ==> f[..|described|][j] == f[j];
    PatchedShape(sorted, described);
    var p := Patched(sorted, described);
    forall i | 0 <= i < |sorted|
      ensures ScoreKey(p[i]) == ScoreKey(sorted[i]) && HasRankFields(p[i])
    {
      UpdatedKeepsScore(sorted[i], p[i]);
    }
  }

  /**
   * An empty input gives []; otherwise no more papers than given, and at
   * most 2*ai_result_limit, come back, sorted by non-increasing final
   * score, each with a real score and a string explanation.
   */
  lemma AiRankedProperties(all: seq<PaperDict>, mode: string, limit: int, size: nat, descSize: nat,
                           rankModel: Model, descModel: Model)
    requires size > 0 && descSize > 0
    ensures all == [] ==> AiRanked(all, mode, limit, size, descSize, rankModel, descModel) == Ok([])
    ensures var r := AiRanked(all, mode, limit, size, descSize, rankModel, descModel);
      r.Ok? ==> (|r.value| <= |all| && (limit >= 0 ==> |r.value| <= 2 * limit) &&
        SortedDesc(r.value, ScoreKey) && AllGood(r.value, HasRankFields))
  {
    var r := AiRanked(all, mode, limit, size, descSize, rankModel, descModel);
    if all != [] && r.Ok? {
      var toProcess := ToProcess(all, limit);
      RankedBatchesShape(toProcess, size, rankModel, Weight(mode));
      var ranked := RankedAll(toProcess, size, rankModel, Weight(mode)).value;
      var sorted := SortDesc(ranked, ScoreKey);
      SortDescSorted(ranked, ScoreKey);
      SortDescMembers(ranked, ScoreKey);
      forall j | 0 <= j < |sorted|
        ensures HasRankFields(sorted[j])
      {
        assert sorted[j] in ranked;
      }
      var lacking := Filter(sorted, Lacks);
      if lacking != [] {
        var described := GenerateDescriptions(lacking, descSize, descModel).value;
        GenerateDescriptionsShape(lacking, descSize, descModel);
        PatchedKeepsOrder(sorted, described);
      }
    }
  }

  /**
   * Papers that already hold a valid explanation come back as ranked; only
   * the others can gain a description.
   */
  lemma AiRankedKeepsExplained(all: seq<PaperDict>, mode: string, limit: int, size: nat, descSize: nat,
                               rankModel: Model, descModel: Model)
    requires size > 0 && descSize > 0 && all != []
    ensures var ranked := RankedAll(ToProcess(all, limit), size, rankModel, Weight(mode));
      var r := AiRanked(all, mode, limit, size, descSize, rankModel, descModel);
      r.Ok? ==> (ranked.Ok? && |r.value| == |ranked.value| &&
        forall i :: 0 <= i < |r.value| ==>
          var q := SortDesc(ranked.value, ScoreKey)[i];
          Updated(q, r.value[i]) && (!Lacks(q) ==> r.value[i] == q))
  {
    var r := AiRanked(all, mode, limit, size, descSize, rankModel, descModel);
    if r.Ok? {
      var ranked := RankedAll(ToProcess(all, limit), size, rankModel, Weight(mode)).value;
      var sorted := SortDesc(ranked, ScoreKey);
      var lacking := Filter(sorted, Lacks);
      if lacking != [] {
        var described := GenerateDescriptions(lacking, descSize, descModel).value;
        GenerateDescriptionsShape(lacking, descSize, descModel);
        assert |described| <= |lacking|;
        assert forall j :: 0 <= j < |described| ==> lacking[..|described|][j] == lacking[j];
        PatchedShape(sorted, described);
      }
    }
  }

  /** A model that never answers ranks every processed paper 5.0 with no explanation, in input order. */
  lemma RankedWithoutAnswers(all: seq<PaperDict>, mode: string, limit: int, size: nat, rankModel: Model)
    requires size > 0 && forall k: nat, b: seq<PaperDict> :: !Answered(rankModel(k, b))
    ensures var ranked := RankedAll(ToProcess(all, limit), size, rankModel, Weight(mode));
      ranked == Ok(Map(ToProcess(all, limit), Unranked)) && SortDesc(ranked.value, ScoreKey) == ranked.value
  {
    var toProcess := ToProcess(all, limit);
    RankedBatchesUnanswered(toProcess, size, rankModel, Weight(mode));
    var m := Map(toProcess, Unranked);
    forall i, j | 0 <= i < j < |m|
      ensures KeyGe(ScoreKey(m[i]), ScoreKey(m[j]))
    {
      StrGeRefl("");
    }
    SortDescOfSorted(m, ScoreKey);
  }

  /** At most 2*ai_result_limit papers are processed, and all of them when there are no more. */
  lemma ToProcessBounds(all: seq<PaperDict>, limit: int)
    ensures ToProcess(all, limit) == all[..|ToProcess(all, limit)|]
    ensures limit >= 0 ==> |ToProcess(all, limit)| == Min(|all|, 2 * limit)
  {
  }
}
