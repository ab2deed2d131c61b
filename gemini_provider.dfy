// ai_scholar/providers/ai/gemini_provider.py: how the Gemini back-end
// matches the titles of its JSON reply back to the candidate papers, the
// guards of rank_papers, and the quota attributes of the provider object.
// The model call, the regular-expression and JSON extraction of the reply,
// and the randomised fallback ranking are parameters.

module GeminiProviders {
  import opened Base
  import opened Text
  import opened Values
  import opened Config
  import opened AiUtils
  import opened Quotas

  // ---------------------------------------------------------------- title similarity

  /** The words `_calculate_title_similarity` ignores. */
  const StopWords: set<string> := {"a", "an", "the", "and", "or", "but", "in", "on", "at", "to", "for", "of", "with", "by"}

  /** `set(s.split())`. */
  function WordSet(s: string): set<string>
  {
    set w | w in Split(s)
  }

  /** Shared words over all words; 0.0 when either set is empty. */
  function Jaccard(a: set<string>, b: set<string>): (r: real)
    ensures 0.0 <= r <= 1.0
  {
    if a == {} || b == {} then 0.0
    else
      SubsetCard(a * b, a + b);
      SubsetCard(a, a + b);
      Ratio(|a * b|, |a + b|)
  }

  /** i / u for counts with 0 <= i <= u and u > 0. */
  function Ratio(i: nat, u: nat): (r: real)
    requires 0 < u && i <= u
    ensures 0.0 <= r <= 1.0 && (r == 1.0 <==> i == u)
  {
    i as real / u as real
  }

  /** `_calculate_title_similarity` past its emptiness check, on the lower-cased and stripped titles. */
  function CleanSimilarity(c1: string, c2: string): (r: real)
    ensures 0.0 <= r <= 1.0
  {
    if c1 == c2 then 1.0
    else if Contains(c2, c1) || Contains(c1, c2) then 0.9
    else Jaccard(WordSet(c1) - StopWords, WordSet(c2) - StopWords)
  }

  /** `_calculate_title_similarity`. */
  function TitleSimilarity(t1: string, t2: string): real
  {
    if t1 == [] || t2 == [] then 0.0 else CleanSimilarity(Strip(Lower(t1)), Strip(Lower(t2)))
  }

  lemma {:induction false} SubsetCard<T>(a: set<T>, b: set<T>)
    requires a <= b
    ensures |a| <= |b|
    ensures |a| == |b| ==> a == b
    decreases |b|
  {
    if b != {} {
      var x :| x in b;
      SubsetCard(a - {x}, b - {x});
      assert |b - {x}| == |b| - 1;
      if x in a {
        assert |a - {x}| == |a| - 1;
        if |a| == |b| {
          assert a - {x} == b - {x};
          assert a == (a - {x}) + {x} && b == (b - {x}) + {x};
        }
      } else {
        assert a - {x} == a;
      }
    }
  }

  /** The overlap lies in [0, 1], is symmetric, and is 1 only for equal non-empty sets. */
  lemma JaccardProperties(a: set<string>, b: set<string>)
    ensures 0.0 <= Jaccard(a, b) <= 1.0
    ensures Jaccard(a, b) == Jaccard(b, a)
    ensures Jaccard(a, b) == 1.0 <==> a == b && a != {}
  {
    assert a * b == b * a && a + b == b + a;
    if a != {} && b != {} {
      SubsetCard(a * b, a + b);
      if Jaccard(a, b) == 1.0 {
        assert a * b == a + b;
        assert a == b by {
          forall x | x in a ensures x in b { assert x in a + b; }
          forall x | x in b ensures x in a { assert x in a + b; }
        }
      }
      if a == b {
        assert a * b == a + b;
      }
    }
  }

  lemma CleanSimilaritySymmetric(c1: string, c2: string)
    ensures CleanSimilarity(c1, c2) == CleanSimilarity(c2, c1)
  {
    JaccardProperties(WordSet(c1) - StopWords, WordSet(c2) - StopWords);
  }

  /** Title similarity always lies in [0, 1] and does not depend on the order of the titles. */
  lemma SimilarityBoundsAndSymmetry(t1: string, t2: string)
    ensures 0.0 <= TitleSimilarity(t1, t2) <= 1.0
    ensures TitleSimilarity(t1, t2) == TitleSimilarity(t2, t1)
  {
    if t1 != [] && t2 != [] {
      CleanSimilaritySymmetric(Strip(Lower(t1)), Strip(Lower(t2)));
    }
  }

  /** `_titles_match`: both titles non-empty, and after lower/strip equal or one inside the other. */
  predicate TitlesMatch(t1: string, t2: string)
  {
    t1 != [] && t2 != [] &&
    var c1 := Strip(Lower(t1));
    var c2 := Strip(Lower(t2));
    c1 == c2 || Contains(c2, c1) || Contains(c1, c2)
  }

  /**
   * Matching titles are at least 0.9 similar, and the reverse fails only
   * through the word overlap: titles that do not match but have the same
   * words outside the stop words are similar with 1.0.
   */
  lemma TitlesMatchSimilar(t1: string, t2: string)
    ensures TitlesMatch(t1, t2) <==> TitlesMatch(t2, t1)
    ensures TitlesMatch(t1, t2) ==> TitleSimilarity(t1, t2) >= 0.9
    ensures !TitlesMatch(t1, t2) && t1 != [] && t2 != [] ==>
      TitleSimilarity(t1, t2) == Jaccard(WordSet(Strip(Lower(t1))) - StopWords, WordSet(Strip(Lower(t2))) - StopWords)
  {
  }

  /**
   * A title made only of spaces is non-empty but strips to "", which every
   * other stripped title contains, so it is 0.9 similar to any different
   * non-empty title and passes the 0.7 matching threshold.
   */
  lemma BlankTitleMatchesAnything(t1: string, t2: string)
    requires t1 != [] && forall i :: 0 <= i < |t1| ==> t1[i] == ' '
    requires t2 != [] && Strip(Lower(t2)) != []
    ensures TitleSimilarity(t1, t2) == 0.9
  {
    assert Lower(t1) == t1;
    assert Strip(t1) == [] by {
      assert forall i :: 0 <= i < |t1| ==> IsSpace(t1[i]);
      StripBlank(t1);
    }
    EmptyCleanTitle(Strip(Lower(t2)));
  }

  /** An empty cleaned title is contained in any other. */
  lemma EmptyCleanTitle(c: string)
    requires c != []
    ensures CleanSimilarity([], c) == 0.9
  {
    ContainsEmpty(c);
  }

  lemma {:induction false} StripBlank(s: string)
    requires forall i :: 0 <= i < |s| ==> IsSpace(s[i])
    ensures Strip(s) == []
  {
    LStripBlank(s);
  }

  lemma {:induction false} LStripBlank(s: string)
    requires forall i :: 0 <= i < |s| ==> IsSpace(s[i])
    ensures LStrip(s) == []
    decreases |s|
  {
    if s != [] {
      LStripBlank(s[1..]);
    }
  }

  // ---------------------------------------------------------------- matching one reply entry

  /** `paper.get('title', '')`. */
  function PaperTitle(p: PaperDict): Value
  {
    Get(p, "title", StrV(""))
  }

  /**
   * `_calculate_title_similarity` on the values found in the dicts: a falsy
   * value gives 0.0 before any string method is called; a truthy value that
   * is not a string raises AttributeError on `.lower()`.
   */
  function Similarity(paperTitle: Value, title: Value): Result<real>
  {
    if !Truthy(paperTitle) || !Truthy(title) then Ok(0.0)
    else if paperTitle.StrV? && title.StrV? then Ok(TitleSimilarity(paperTitle.s, title.s))
    else Err("AttributeError: object has no attribute 'lower'")
  }

  /** A lists or a dict cannot be looked up in the set of found titles. */
  predicate Unhashable(v: Value)
  {
    v.ListV? || v.DictV?
  }

  /** A paper whose title was matched by an earlier entry is skipped. */
  predicate Taken(p: PaperDict, found: set<string>)
  {
    PaperTitle(p).StrV? && PaperTitle(p).s in found
  }

  /** How a paper title is scored against a reply title; `Similarity` in the provider. */
  type Scorer = (Value, Value) -> Result<real>

  /** The best match so far: the paper's index and its similarity. */
  datatype Match = Match(index: nat, score: real)

  function BestScore(best: Option<Match>): real
  {
    if best.Some? then best.value.score else 0.0
  }

  /**
   * The inner loop over `papers[:n]`: a paper replaces the best match when
   * its similarity is above both the best so far and 0.7.
   */
  function BestOver(papers: seq<PaperDict>, title: Value, found: set<string>, n: nat, sim: Scorer): (r: Result<Option<Match>>)
    requires n <= |papers|
    ensures r.Ok? && r.value.Some? ==> r.value.value.index < n && r.value.value.score > 0.7
  {
    if n == 0 then Ok(None)
    else
      match BestOver(papers, title, found, n - 1, sim)
      case Err(e) => Err(e)
      case Ok(best) =>
        var pt := PaperTitle(papers[n - 1]);
        if Unhashable(pt) then Err("TypeError: unhashable type")
        else if Taken(papers[n - 1], found) then Ok(best)
        else
          match sim(pt, title)
          case Err(e) => Err(e)
          case Ok(s) => if s > BestScore(best) && s > 0.7 then Ok(Some(Match(n - 1, s))) else Ok(best)
  }

  /** Paper j's similarity to the entry is known and at most `bound`, and below it when j comes before `first`. */
  predicate Beaten(papers: seq<PaperDict>, title: Value, j: nat, bound: real, first: int, sim: Scorer)
    requires j < |papers|
  {
    sim(PaperTitle(papers[j]), title).Ok? &&
    sim(PaperTitle(papers[j]), title).value <= bound &&
    (j < first ==> sim(PaperTitle(papers[j]), title).value < bound)
  }

  /**
   * The match is an untaken paper more than 0.7 similar, as similar as any
   * other untaken paper and more similar than every one before it; without
   * a match, no untaken paper is more than 0.7 similar.
   */
  lemma {:induction false} BestOverSpec(papers: seq<PaperDict>, title: Value, found: set<string>, n: nat, sim: Scorer)
    requires n <= |papers|
    ensures var r := BestOver(papers, title, found, n, sim);
      r.Ok? ==> forall j :: 0 <= j < n ==> !Unhashable(PaperTitle(papers[j]))
    ensures var r := BestOver(papers, title, found, n, sim);
      r.Ok? && r.value.Some? ==>
        (var m := r.value.value;
         !Taken(papers[m.index], found) && sim(PaperTitle(papers[m.index]), title) == Ok(m.score) &&
         forall j :: 0 <= j < n && !Taken(papers[j], found) ==> Beaten(papers, title, j, m.score, m.index, sim))
    ensures var r := BestOver(papers, title, found, n, sim);
      r.Ok? && r.value.None? ==>
        forall j :: 0 <= j < n && !Taken(papers[j], found) ==> Beaten(papers, title, j, 0.7, 0, sim)
  {
    if n > 0 {
      BestOverSpec(papers, title, found, n - 1, sim);
    }
  }

  /** The copy of the matched paper with the entry's explanation and score and the match confidence. */
  function Annotated(p: PaperDict, explanation: Value, relevance: Value, confidence: real): PaperDict
  {
    p["explanation" := explanation]["ai_relevance_score" := relevance]["ranking_confidence" := RealV(confidence)]
  }

  /** One entry of the reply: the annotated match and its title, if any paper matched. */
  function RankEntry(papers: seq<PaperDict>, entry: Value, found: set<string>, sim: Scorer): Result<Option<(PaperDict, string)>>
  {
    if !entry.DictV? then Err("AttributeError: object has no attribute 'get'")
    else
      var f := entry.fields;
      match BestOver(papers, Get(f, "title", StrV("")), found, |papers|, sim)
      case Err(e) => Err(e)
      case Ok(None) => Ok(None)
      case Ok(Some(m)) =>
        var p := papers[m.index];
        Ok(Some((Annotated(p, Get(f, "explanation", StrV("")), Get(f, "relevance_score", IntV(0)), m.score),
                 if PaperTitle(p).StrV? then PaperTitle(p).s else "")))
  }

  /** `ranked_papers` and `found_titles` after the first n entries. */
  datatype Parse = Parse(ranked: seq<PaperDict>, found: set<string>)

  function ParseEntries(papers: seq<PaperDict>, entries: seq<Value>, sim: Scorer): Result<Parse>
  {
    if entries == [] then Ok(Parse([], {}))
    else
      match ParseEntries(papers, entries[..|entries| - 1], sim)
      case Err(e) => Err(e)
      case Ok(acc) =>
        match RankEntry(papers, entries[|entries| - 1], acc.found, sim)
        case Err(e) => Err(e)
        case Ok(None) => Ok(acc)
        case Ok(Some((q, t))) => Ok(Parse(acc.ranked + [q], acc.found + {t}))
  }

  /** `q` is paper `p` annotated with a match confidence above 0.7. */
  ghost predicate AnnotatedFrom(q: PaperDict, p: PaperDict)
  {
    exists e: Value, rel: Value, c: real :: c > 0.7 && q == Annotated(p, e, rel, c)
  }

  /** `q` is an annotated copy of one of the papers. */
  ghost predicate FromPapers(q: PaperDict, papers: seq<PaperDict>)
  {
    exists k :: 0 <= k < |papers| && AnnotatedFrom(q, papers[k])
  }

  /** The title string of a ranked copy. */
  function RankedTitle(q: PaperDict): string
  {
    if PaperTitle(q).StrV? then PaperTitle(q).s else ""
  }

  /** The titles of the ranked copies are pairwise different. */
  predicate DistinctTitles(ranked: seq<PaperDict>)
  {
    forall i, j :: 0 <= i < j < |ranked| ==> RankedTitle(ranked[i]) != RankedTitle(ranked[j])
  }

  lemma AnnotatedKeepsTitle(p: PaperDict, e: Value, rel: Value, c: real)
    ensures PaperTitle(Annotated(p, e, rel, c)) == PaperTitle(p)
  {
  }

  /** The title strings of the ranked copies. */
  function TitlesOf(ranked: seq<PaperDict>): set<string>
  {
    set i | 0 <= i < |ranked| :: RankedTitle(ranked[i])
  }

  /** What holds of the parse after every entry. */
  ghost predicate WellParsed(parse: Parse, papers: seq<PaperDict>)
  {
    (forall i :: 0 <= i < |parse.ranked| ==> FromPapers(parse.ranked[i], papers)) &&
    parse.found == TitlesOf(parse.ranked) && DistinctTitles(parse.ranked)
  }

  lemma WellParsedSnoc(acc: Parse, q: PaperDict, papers: seq<PaperDict>)
    requires WellParsed(acc, papers) && FromPapers(q, papers) && RankedTitle(q) !in acc.found
    ensures WellParsed(Parse(acc.ranked + [q], acc.found + {RankedTitle(q)}), papers)
  {
    var ranked := acc.ranked + [q];
    assert forall i :: 0 <= i < |acc.ranked| ==> ranked[i] == acc.ranked[i];
    assert TitlesOf(ranked) == TitlesOf(acc.ranked) + {RankedTitle(q)} by {
      forall t | t in TitlesOf(ranked) ensures t in TitlesOf(acc.ranked) + {RankedTitle(q)} {
        var i :| 0 <= i < |ranked| && RankedTitle(ranked[i]) == t;
        if i < |acc.ranked| {
          assert RankedTitle(acc.ranked[i]) in TitlesOf(acc.ranked);
        }
      }
      forall t | t in TitlesOf(acc.ranked) ensures t in TitlesOf(ranked) {
        var i :| 0 <= i < |acc.ranked| && RankedTitle(acc.ranked[i]) == t;
        assert RankedTitle(ranked[i]) == t;
      }
      assert RankedTitle(ranked[|acc.ranked|]) == RankedTitle(q);
    }
    forall i | 0 <= i < |acc.ranked|
      ensures RankedTitle(ranked[i]) != RankedTitle(q)
    {
      assert RankedTitle(acc.ranked[i]) in TitlesOf(acc.ranked);
    }
  }

  /** A scorer that gives a match score only to string titles, as `Similarity` does. */
  ghost predicate StringsOnly(sim: Scorer)
  {
    forall v: Value, t: Value :: sim(v, t).Ok? && sim(v, t).value > 0.7 ==> v.StrV?
  }

  lemma SimilarityStringsOnly()
    ensures StringsOnly(Similarity)
  {
  }

  /** One entry's match is an untaken paper whose title string is recorded, annotated from that paper. */
  lemma RankEntryShape(papers: seq<PaperDict>, entry: Value, found: set<string>, sim: Scorer)
    requires StringsOnly(sim)
    ensures var r := RankEntry(papers, entry, found, sim);
      r.Ok? && r.value.Some? ==>
        (FromPapers(r.value.value.0, papers) && r.value.value.1 == RankedTitle(r.value.value.0) &&
         r.value.value.1 !in found)
  {
    var r := RankEntry(papers, entry, found, sim);
    if r.Ok? && r.value.Some? {
      var f := entry.fields;
      var title := Get(f, "title", StrV(""));
      BestOverSpec(papers, title, found, |papers|, sim);
      var m := BestOver(papers, title, found, |papers|, sim).value.value;
      var p := papers[m.index];
      var e := Get(f, "explanation", StrV(""));
      var rel := Get(f, "relevance_score", IntV(0));
      AnnotatedKeepsTitle(p, e, rel, m.score);
      assert AnnotatedFrom(Annotated(p, e, rel, m.score), p);
    }
  }

  /**
   * Each entry adds at most one paper; every paper added is an annotated
   * copy of a candidate, and no title is matched twice (the found titles
   * are exactly the titles of the copies).
   */
  lemma {:induction false} ParseEntriesShape(papers: seq<PaperDict>, entries: seq<Value>, sim: Scorer)
    requires StringsOnly(sim)
    ensures var r := ParseEntries(papers, entries, sim);
      r.Ok? ==> |r.value.ranked| <= |entries| && WellParsed(r.value, papers)
    decreases |entries|
  {
    if entries != [] {
      var init := entries[..|entries| - 1];
      ParseEntriesShape(papers, init, sim);
      var r := ParseEntries(papers, entries, sim);
      if r.Ok? {
        var acc := ParseEntries(papers, init, sim).value;
        var entry := entries[|entries| - 1];
        RankEntryShape(papers, entry, acc.found, sim);
        var step := RankEntry(papers, entry, acc.found, sim);
        if step.value.Some? {
          WellParsedSnoc(acc, step.value.value.0, papers);
        }
      }
    }
  }

  /**
   * `_parse_ranking_response`, with `extracted` the list the regular
   * expression and json.loads give (None when either fails) and `fallback`
   * what `_fallback_ranking(papers, limit)` returns: the matches are kept
   * only when there are at least min(3, limit) of them.
   */
  function ParseRankingResponse(extracted: Option<seq<Value>>, papers: seq<PaperDict>, limit: int,
                                fallback: seq<PaperDict>): seq<PaperDict>
  {
    if extracted.None? then fallback
    else
      match ParseEntries(papers, Slice(extracted.value, limit), Similarity)
      case Err(_) => fallback
      case Ok(parse) => if |parse.ranked| >= Min3(limit) then parse.ranked else fallback
  }

  /** min(3, limit). */
  function Min3(limit: int): int
  {
    if limit < 3 then limit else 3
  }

  /**
   * The reply is used only when it parses, considers the first `limit`
   * entries, and yields at least min(3, limit) distinct-titled annotated
   * copies of candidates; otherwise the fallback is returned.
   */
  lemma ParseRankingAccepted(extracted: Option<seq<Value>>, papers: seq<PaperDict>, limit: int, fallback: seq<PaperDict>)
    ensures var r := ParseRankingResponse(extracted, papers, limit, fallback);
      r == fallback ||
      (extracted.Some? && Min3(limit) <= |r| <= |Slice(extracted.value, limit)| &&
       (forall i :: 0 <= i < |r| ==> FromPapers(r[i], papers)) && DistinctTitles(r))
  {
    if extracted.Some? {
      SimilarityStringsOnly();
      ParseEntriesShape(papers, Slice(extracted.value, limit), Similarity);
    }
  }

  /** With a limit of at most 0 any parsed reply is accepted, even one that matches nothing. */
  lemma NonPositiveLimitAcceptsAnything(extracted: seq<Value>, papers: seq<PaperDict>, limit: int, fallback: seq<PaperDict>)
    requires limit <= 0 && ParseEntries(papers, Slice(extracted, limit), Similarity).Ok?
    ensures ParseRankingResponse(Some(extracted), papers, limit, fallback) ==
      ParseEntries(papers, Slice(extracted, limit), Similarity).value.ranked
  {
  }

  // ---------------------------------------------------------------- the loops as written

  /** The inner `for paper in papers` loop, scoring each paper with `sim`. */
  method FindBestMatch(papers: seq<PaperDict>, title: Value, found: set<string>, sim: Scorer) returns (r: Result<Option<Match>>)
    ensures r == BestOver(papers, title, found, |papers|, sim)
  {
    var best: Option<Match> := None;
    var bestScore := 0.0;
    for n := 0 to |papers|
      invariant BestOver(papers, title, found, n, sim) == Ok(best)
      invariant bestScore == BestScore(best)
    {
      var step := MatchPaper(papers, title, found, n, best, bestScore, sim);
      if step.Err? {
        BestOverErr(papers, title, found, n + 1, sim);
        return Err(step.error);
      }
      best := step.value;
      bestScore := BestScore(best);
    }
    return Ok(best);
  }

  /** One turn of the inner loop: paper `n` is skipped, scored, or raises. */
  method MatchPaper(papers: seq<PaperDict>, title: Value, found: set<string>, n: nat, best: Option<Match>, bestScore: real, sim: Scorer)
    returns (r: Result<Option<Match>>)
    requires n < |papers| && BestOver(papers, title, found, n, sim) == Ok(best) && bestScore == BestScore(best)
    ensures r == BestOver(papers, title, found, n + 1, sim)
  {
    var pt := PaperTitle(papers[n]);
    if pt.ListV? || pt.DictV? {
      return Err("TypeError: unhashable type");
    }
    if pt.StrV? && pt.s in found {
      return Ok(best);
    }
    var s := sim(pt, title);
    if s.Err? {
      return Err(s.error);
    }
    if s.value > bestScore && s.value > 0.7 {
      return Ok(Some(Match(n, s.value)));
    }
    return Ok(best);
  }

  lemma {:induction false} BestOverErr(papers: seq<PaperDict>, title: Value, found: set<string>, n: nat, sim: Scorer)
    requires n <= |papers| && BestOver(papers, title, found, n, sim).Err?
    ensures BestOver(papers, title, found, |papers|, sim) == BestOver(papers, title, found, n, sim)
    decreases |papers| - n
  {
    if n < |papers| {
      BestOverErr(papers, title, found, n + 1, sim);
    }
  }

  lemma {:induction false} ParseEntriesErr(papers: seq<PaperDict>, entries: seq<Value>, n: nat, sim: Scorer)
    requires n <= |entries| && ParseEntries(papers, entries[..n], sim).Err?
    ensures ParseEntries(papers, entries, sim).Err?
    decreases |entries| - n
  {
    if n < |entries| {
      assert entries[..n + 1][..n] == entries[..n];
      ParseEntriesErr(papers, entries, n + 1, sim);
    } else {
      assert entries[..n] == entries;
    }
  }

  /** `_parse_ranking_response` with its loops. */
  method ParseRanking(extracted: Option<seq<Value>>, papers: seq<PaperDict>, limit: int, fallback: seq<PaperDict>)
    returns (r: seq<PaperDict>)
    ensures r == ParseRankingResponse(extracted, papers, limit, fallback)
  {
    if extracted.None? {
      return fallback;
    }
    var entries := Slice(extracted.value, limit);
    var ranked: seq<PaperDict> := [];
    var found: set<string> := {};
    for i := 0 to |entries|
      invariant ParseEntries(papers, entries[..i], Similarity) == Ok(Parse(ranked, found))
    {
      assert entries[..i + 1][..i] == entries[..i];
      var entry := entries[i];
      if !entry.DictV? {
        ParseEntriesErr(papers, entries, i + 1, Similarity);
        return fallback;
      }
      var best := FindBestMatch(papers, Get(entry.fields, "title", StrV("")), found, Similarity);
      if best.Err? {
        ParseEntriesErr(papers, entries, i + 1, Similarity);
        return fallback;
      }
      if best.value.Some? {
        var p := papers[best.value.value.index];
        var copy := Annotated(p, Get(entry.fields, "explanation", StrV("")),
                              Get(entry.fields, "relevance_score", IntV(0)), best.value.value.score);
        ranked := ranked + [copy];
        found := found + {if PaperTitle(p).StrV? then PaperTitle(p).s else ""};
      }
    }
    assert entries[..|entries|] == entries;
    if |ranked| >= Min3(limit) {
      return ranked;
    }
    return fallback;
  }

  // ---------------------------------------------------------------- the provider object

  /** What the SDK call of generate_content gives: a reply whose `.text` may be missing or empty, or an exception. */
  datatype Outcome = Reply(text: Option<string>) | Raised(message: string)

  /** generate_content: the quota attributes afterwards, and the stripped text, None, or the re-raised error. */
  function Generated(q: Quota, outcome: Outcome, now: real): (Quota, Result<Option<string>>)
  {
    match outcome
    case Reply(text) =>
      if text.Some? && text.value != [] then (AfterSuccess(q), Ok(Some(Strip(text.value))))
      else (q, Ok(None))
    case Raised(m) => (AfterError(q, m, now), Err(m))
  }

  /** rank_papers once the reply is known: papers[:limit] for an empty reply, else the parsed ranking. */
  function RankedByReply(papers: seq<PaperDict>, limit: int, reply: Option<string>,
                         extract: string -> Option<seq<Value>>, fallback: seq<PaperDict>): seq<PaperDict>
  {
    if reply.None? || reply.value == [] then Slice(papers, limit)
    else ParseRankingResponse(extract(reply.value), papers, limit, fallback)
  }

  /** A missing or blank reply falls back to the first `limit` papers, in their order. */
  lemma EmptyReplyKeepsOrder(papers: seq<PaperDict>, limit: int, extract: string -> Option<seq<Value>>,
                             fallback: seq<PaperDict>)
    ensures var r := RankedByReply(papers, limit, None, extract, fallback);
      r == RankedByReply(papers, limit, Some([]), extract, fallback) &&
      |r| <= |papers| && r == papers[..|r|] && (0 <= limit <= |papers| ==> |r| == limit)
  {
  }

  class GeminiProvider {
    var quotaExceeded: bool
    var lastErrorTime: Option<real>
    const batchSize: int

    function State(): Quota
      reads this
    {
      Quota(quotaExceeded, lastErrorTime)
    }

    constructor ()
      ensures State() == Clear && batchSize == GoogleBatchSize
    {
      quotaExceeded := false;
      lastErrorTime := None;
      batchSize := GoogleBatchSize;
    }

    /** generate_content, with the SDK's outcome as a parameter. */
    method GenerateContent(outcome: Outcome, now: real) returns (r: Result<Option<string>>)
      modifies this
      ensures (State(), r) == Generated(old(State()), outcome, now)
    {
      match outcome
      case Reply(text) =>
        if text.Some? && text.value != [] {
          if quotaExceeded {
            quotaExceeded := false;
            lastErrorTime := None;
          }
          return Ok(Some(Strip(text.value)));
        }
        return Ok(None);
      case Raised(m) =>
        if IsQuotaError(m) {
          quotaExceeded := true;
          lastErrorTime := Some(now);
        }
        return Err(m);
    }

    /** is_available. */
    method IsAvailable(now: real) returns (ok: bool)
      modifies this
      ensures (ok, State()) == Availability(old(State()), now)
    {
      if quotaExceeded && lastErrorTime.Some? && lastErrorTime.value != 0.0 {
        if now - lastErrorTime.value > Cooldown {
          quotaExceeded := false;
          lastErrorTime := None;
          return true;
        }
        return false;
      }
      return !quotaExceeded;
    }

    method ResetQuotaStatus()
      modifies this
      ensures State() == Clear
    {
      quotaExceeded := false;
      lastErrorTime := None;
    }

    function GetOptimalBatchSize(operation: string): int
      reads this
    {
      OptimalBatchSize(batchSize, operation)
    }

    /**
     * rank_papers: [] for no papers without calling the model; otherwise the
     * model's error is re-raised, and its reply is ranked.
     */
    method RankPapers(papers: seq<PaperDict>, limit: int, outcome: Outcome, now: real,
                      extract: string -> Option<seq<Value>>, fallback: seq<PaperDict>) returns (r: Result<seq<PaperDict>>)
      modifies this
      ensures papers == [] ==> r == Ok([]) && State() == old(State())
      ensures papers != [] ==>
        var (q, reply) := Generated(old(State()), outcome, now);
        State() == q &&
        r == (if reply.Err? then Err(reply.error) else Ok(RankedByReply(papers, limit, reply.value, extract, fallback)))
    {
      if papers == [] {
        return Ok([]);
      }
      var reply := GenerateContent(outcome, now);
      if reply.Err? {
        return Err(reply.error);
      }
      if reply.value.None? || reply.value.value == [] {
        return Ok(Slice(papers, limit));
      }
      var ranked := ParseRanking(extract(reply.value.value), papers, limit, fallback);
      return Ok(ranked);
    }
  }

  /** Both providers' batch sizes are positive, so the batch loops that use them make progress. */
  lemma GeminiBatchSizePositive(operation: string)
    ensures OptimalBatchSize(GoogleBatchSize, operation) >= GoogleBatchSize > 0
  {
  }
}
