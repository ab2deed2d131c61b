// ai_scholar/utils/ai_utils.py (and its identical copy ai_scholar/ai_utils.py):
// cleaning and dispatching the text an AI model returns, recognising quota
// errors, the paper summaries sent in prompts, the combined score and the
// explanation check. json.loads is a parameter: it returns the decoded
// value or an Err for a JSONDecodeError.

module AiUtils {
  import opened Base
  import opened Text
  import opened Values

  const JsonFence := "```json"
  const Fence := "```"

  /**
   * The fence removal on stripped text `t`: when it opens with the JSON
   * fence `jf`, every `jf` and then every `f` is removed; when it opens
   * with `f`, every `f` is removed; the result is stripped again.
   */
  function Unfence(t: string, jf: string, f: string): string
    requires jf != [] && f != []
  {
    if StartsWith(t, jf) then Strip(ReplaceAll(ReplaceAll(t, jf, ""), f, ""))
    else if StartsWith(t, f) then Strip(ReplaceAll(t, f, ""))
    else t
  }

  function CleanWith(text: string, jf: string, f: string): string
    requires jf != [] && f != []
  {
    Unfence(Strip(text), jf, f)
  }

  /** clean_ai_response: strip, then drop code fences when the text opens with one. */
  function CleanAiResponse(text: string): (r: string)
  {
    CleanWith(text, JsonFence, Fence)
  }

  /** No backtick anywhere. */
  predicate TickFree(s: string)
  {
    forall i :: 0 <= i < |s| ==> s[i] != '`'
  }

  /** A backtick-led pattern cannot start inside a backtick-free prefix. */
  lemma {:induction false} ReplaceAfterTickFree(body: string, tail: string, pat: string, rep: string)
    requires pat != [] && pat[0] == '`' && TickFree(body)
    ensures ReplaceAll(body + tail, pat, rep) == body + ReplaceAll(tail, pat, rep)
    decreases |body|
  {
    if body != [] {
      assert (body + tail)[0] == body[0];
      assert !StartsWith(body + tail, pat);
      assert (body + tail)[1..] == body[1..] + tail;
      ReplaceAfterTickFree(body[1..], tail, pat, rep);
      assert ReplaceAll(body + tail, pat, rep) == [body[0]] + ReplaceAll(body[1..] + tail, pat, rep);
      assert body == [body[0]] + body[1..];
    } else {
      assert body + tail == tail;
    }
  }

  lemma ShortUnchanged(s: string, pat: string, rep: string)
    requires pat != [] && |s| < |pat|
    ensures ReplaceAll(s, pat, rep) == s
  {
    if Contains(s, pat) {
      ContainsLength(s, pat);
    }
  }

  lemma ConcatParts(a: string, b: string)
    ensures StartsWith(a + b, a) && (a + b)[|a|..] == b
  {
  }

  /** Stripping a backtick-free text leaves it backtick-free. */
  lemma TickFreeStrip(s: string)
    requires TickFree(s)
    ensures TickFree(Strip(s))
  {
    var l := LStrip(s);
    TickFreeSlice(s, |s| - |l|, |s|);
    TickFreeSlice(l, 0, |RStrip(l)|);
  }

  lemma TickFreeSlice(s: string, a: nat, b: nat)
    requires TickFree(s) && a <= b <= |s|
    ensures TickFree(s[a..b])
  {
    assert forall i :: 0 <= i < b - a ==> s[a..b][i] == s[a + i];
  }

  /** Fences that open and close with a backtick, the JSON one longer than the plain one. */
  predicate FencePair(jf: string, f: string)
  {
    |f| < |jf| && f != [] && jf[0] == '`' && f[0] == '`' && f[|f| - 1] == '`'
  }

  lemma UnfenceJson(body: string, jf: string, f: string)
    requires FencePair(jf, f) && TickFree(body)
    ensures Unfence(jf + (body + f), jf, f) == Strip(body)
  {
    var s := jf + (body + f);
    ConcatParts(jf, body + f);
    ReplaceAfterTickFree(body, f, jf, "");
    ShortUnchanged(f, jf, "");
    assert ReplaceAll(s, jf, "") == body + f;
    ReplaceAfterTickFree(body, f, f, "");
    ConcatParts(f, []);
    assert f + [] == f;
    assert ReplaceAll(f, f, "") == "";
    assert body + "" == body;
  }

  lemma UnfenceBare(body: string, jf: string, f: string)
    requires FencePair(jf, f) && TickFree(body) && (body == [] || body[0] != jf[|f|])
    requires jf[|f|] != '`'
    ensures Unfence(f + (body + f), jf, f) == Strip(body)
  {
    var s := f + (body + f);
    ConcatParts(f, body + f);
    assert s[|f|] == if body == [] then f[0] else body[0];
    assert !StartsWith(s, jf);
    ReplaceAfterTickFree(body, f, f, "");
    ConcatParts(f, []);
    assert f + [] == f;
    assert ReplaceAll(f, f, "") == "";
    assert ReplaceAll(s, f, "") == "" + ReplaceAll(body + f, f, "");
    assert ReplaceAll(s, f, "") == body;
  }

  lemma UnfenceTickFree(t: string, jf: string, f: string)
    requires FencePair(jf, f) && TickFree(t)
    ensures Unfence(t, jf, f) == t
  {
  }

  lemma FencedStripped(pre: string, body: string, f: string)
    requires pre != [] && f != [] && pre[0] == '`' && f[|f| - 1] == '`'
    ensures Strip(pre + (body + f)) == pre + (body + f)
  {
    var s := pre + (body + f);
    assert s[0] == '`' && s[|s| - 1] == '`';
    StripOfNonSpaceEnds(s);
  }

  lemma CleanWithJson(body: string, jf: string, f: string)
    requires FencePair(jf, f) && TickFree(body)
    ensures CleanWith(jf + (body + f), jf, f) == Strip(body)
  {
    FencedStripped(jf, body, f);
    UnfenceJson(body, jf, f);
  }

  lemma CleanWithBare(body: string, jf: string, f: string)
    requires FencePair(jf, f) && TickFree(body) && jf[|f|] != '`' && (body == [] || body[0] != jf[|f|])
    ensures CleanWith(f + (body + f), jf, f) == Strip(body)
  {
    FencedStripped(f, body, f);
    UnfenceBare(body, jf, f);
  }

  lemma CleanWithPlain(body: string, jf: string, f: string)
    requires FencePair(jf, f) && TickFree(body)
    ensures CleanWith(body, jf, f) == Strip(body)
  {
    TickFreeStrip(body);
    UnfenceTickFree(Strip(body), jf, f);
  }

  lemma FencesArePair()
    ensures FencePair(JsonFence, Fence) && JsonFence[|Fence|] == 'j'
  {
  }

  /**
   * A backtick-free body wrapped in a ```json fence, or in a bare ```
   * fence when it does not begin with 'j', cleans to the stripped body,
   * and so does the unfenced body.
   */
  lemma CleanFenced(body: string)
    requires TickFree(body)
    ensures CleanAiResponse(JsonFence + (body + Fence)) == Strip(body)
    ensures body == [] || body[0] != 'j' ==> CleanAiResponse(Fence + (body + Fence)) == Strip(body)
    ensures CleanAiResponse(body) == Strip(body)
  {
    FencesArePair();
    CleanWithJson(body, JsonFence, Fence);
    if body == [] || body[0] != 'j' {
      CleanWithBare(body, JsonFence, Fence);
    }
    CleanWithPlain(body, JsonFence, Fence);
  }

  /** The dispatch on the decoded value: a list as is, a dict's "papers" value, None otherwise or on a decode error. */
  function Decoded(d: Result<Value>): (r: Option<Value>)
    ensures r.Some? <==> d.Ok? && (d.value.ListV? || (d.value.DictV? && "papers" in d.value.fields))
    ensures d.Ok? && d.value.ListV? ==> r == Some(d.value)
    ensures d.Ok? && d.value.DictV? && "papers" in d.value.fields ==> r == Some(d.value.fields["papers"])
  {
    match d
    case Err(_) => None
    case Ok(ListV(items)) => Some(ListV(items))
    case Ok(DictV(fields)) => if "papers" in fields then Some(fields["papers"]) else None
    case Ok(_) => None
  }

  /** parse_ai_response: json.loads of the cleaned text, then the dispatch. */
  function ParseAiResponse(text: string, loads: string -> Result<Value>): (r: Option<Value>)
  {
    Decoded(loads(CleanAiResponse(text)))
  }

  /** Wrapping a backtick-free body in a fence does not change what is parsed. */
  lemma ParseFenced(body: string, loads: string -> Result<Value>)
    requires TickFree(body)
    ensures ParseAiResponse(JsonFence + (body + Fence), loads) == ParseAiResponse(body, loads)
    ensures body == [] || body[0] != 'j' ==> ParseAiResponse(Fence + (body + Fence), loads) == ParseAiResponse(body, loads)
  {
    CleanFenced(body);
  }

  const QuotaIndicators: seq<string> := ["quota exceeded", "rate limit", "429", "resource exhausted", "too many requests"]

  /** is_quota_error on `str(error)`: a case-insensitive search for one of the five indicators. */
  predicate IsQuotaError(message: string)
  {
    exists k :: 0 <= k < |QuotaIndicators| && Contains(Lower(message), QuotaIndicators[k])
  }

  lemma {:induction false} ContainsAfter(m: string, b: string, sub: string)
    requires Contains(m, sub)
    ensures Contains(m + b, sub)
    decreases |m|
  {
    if StartsWith(m, sub) {
      assert (m + b)[..|sub|] == m[..|sub|];
    } else {
      assert (m + b)[1..] == m[1..] + b;
      ContainsAfter(m[1..], b, sub);
    }
  }

  lemma {:induction false} ContainsInfix(a: string, m: string, b: string, sub: string)
    requires Contains(m, sub)
    ensures Contains(a + m + b, sub)
    decreases |a|
  {
    if a == [] {
      assert a + m + b == m + b;
      ContainsAfter(m, b, sub);
    } else {
      assert (a + m + b)[1..] == a[1..] + m + b;
      ContainsInfix(a[1..], m, b, sub);
    }
  }

  /**
   * Quota detection ignores case and survives any surrounding text: a
   * message that embeds a quota message, in any letter case, is one too.
   */
  lemma IsQuotaErrorEmbedded(a: string, m: string, b: string)
    requires IsQuotaError(m)
    ensures IsQuotaError(a + m + b)
    ensures IsQuotaError(Lower(m))
  {
    var k :| 0 <= k < |QuotaIndicators| && Contains(Lower(m), QuotaIndicators[k]);
    LowerConcat(a + m, b);
    LowerConcat(a, m);
    ContainsInfix(Lower(a), Lower(m), Lower(b), QuotaIndicators[k]);
    LowerIdempotent(m);
  }

  /** Every indicator is at least three characters long, so a shorter message is never a quota error. */
  lemma ShortNotQuota(message: string)
    requires |message| < 3
    ensures !IsQuotaError(message)
  {
    forall k | 0 <= k < |QuotaIndicators|
      ensures !Contains(Lower(message), QuotaIndicators[k])
    {
      assert |QuotaIndicators[k]| >= 3;
      if Contains(Lower(message), QuotaIndicators[k]) {
        ContainsLength(Lower(message), QuotaIndicators[k]);
      }
    }
  }

  /** A message carrying the status 429 is a quota error; an empty message is not. */
  lemma IsQuotaErrorExamples()
    ensures IsQuotaError("HTTP 429")
    ensures !IsQuotaError("")
  {
    assert Lower("429") == "429";
    ContainsSelf("429");
    assert QuotaIndicators[2] == "429";
    IsQuotaErrorEmbedded("HTTP ", "429", "");
    assert "HTTP " + "429" + "" == "HTTP 429";
    ShortNotQuota("");
  }

  /** create_paper_summary: the five prompt fields, `published` sent as `publication_date`. */
  function PaperSummary(p: PaperDict): (r: PaperDict)
  {
    map["title" := Get(p, "title", StrV("")), "authors" := Get(p, "authors", StrV("")),
        "abstract" := Get(p, "abstract", StrV("")), "publication_date" := Get(p, "published", StrV("")),
        "citations" := Get(p, "citations", IntV(0))]
  }

  /** create_description_summary: title and authors only. */
  function DescriptionSummary(p: PaperDict): (r: PaperDict)
  {
    map["title" := Get(p, "title", StrV("")), "authors" := Get(p, "authors", StrV(""))]
  }

  /** The keys a summary reads. */
  const SummarySources := {"title", "authors", "abstract", "published", "citations"}

  /**
   * The description summary is the paper summary cut down to title and
   * authors, and a summary depends on nothing but the five fields it
   * reads: papers that agree on them summarise alike.
   */
  lemma SummariesAgree(p: PaperDict, q: PaperDict)
    ensures DescriptionSummary(p) == map k | k in PaperSummary(p) && k in {"title", "authors"} :: PaperSummary(p)[k]
    ensures PaperSummary(p).Keys == {"title", "authors", "abstract", "publication_date", "citations"}
    ensures (forall k :: k in SummarySources ==> (k in p <==> k in q) && (k in p ==> p[k] == q[k])) ==>
      PaperSummary(p) == PaperSummary(q) && DescriptionSummary(p) == DescriptionSummary(q)
  {
    var d := map k | k in PaperSummary(p) && k in {"title", "authors"} :: PaperSummary(p)[k];
    assert d.Keys == DescriptionSummary(p).Keys;
  }

  /** calculate_final_score before the final round(…, 1): weighted AI relevance plus the capped citation share, out of 10. */
  function FinalScore(aiRelevance: int, citations: real, weight: real): (r: real)
  {
    var citationScore := MinReal(citations / 100.0, 1.0);
    ((1.0 - weight) * (aiRelevance as real / 10.0) + weight * citationScore) * 10.0
  }

  /**
   * The citation component saturates at 100 citations, more citations
   * never lower the score for a weight in [0, 1], and for a relevance in
   * 0..10 and a non-negative count the score lies in [0, 10].
   */
  lemma FinalScoreBounds(ai: int, c1: real, c2: real, weight: real)
    requires 0.0 <= weight <= 1.0
    ensures c1 >= 100.0 && c2 >= 100.0 ==> FinalScore(ai, c1, weight) == FinalScore(ai, c2, weight)
    ensures c1 <= c2 ==> FinalScore(ai, c1, weight) <= FinalScore(ai, c2, weight)
    ensures 0 <= ai <= 10 && c1 >= 0.0 ==> 0.0 <= FinalScore(ai, c1, weight) <= 10.0
  {
    var r := ai as real / 10.0;
    var s1 := MinReal(c1 / 100.0, 1.0);
    var s2 := MinReal(c2 / 100.0, 1.0);
    if c1 <= c2 {
      assert c1 / 100.0 <= c2 / 100.0;
      assert s1 <= s2;
    }
    assert FinalScore(ai, c1, weight) == ((1.0 - weight) * r + weight * s1) * 10.0;
    assert FinalScore(ai, c2, weight) == ((1.0 - weight) * r + weight * s2) * 10.0;
    Weighted(r, s1, s2, weight);
  }

  /** The score arithmetic on reals: monotone in the citation share, within [0, 10] for shares in [0, 1]. */
  lemma Weighted(r: real, s1: real, s2: real, w: real)
    requires 0.0 <= w <= 1.0
    ensures s1 <= s2 ==> ((1.0 - w) * r + w * s1) * 10.0 <= ((1.0 - w) * r + w * s2) * 10.0
    ensures 0.0 <= r <= 1.0 && 0.0 <= s1 <= 1.0 ==> 0.0 <= ((1.0 - w) * r + w * s1) * 10.0 <= 10.0
  {
    if s1 <= s2 {
      MulMono(w, s1, s2);
      Scale10((1.0 - w) * r + w * s1, (1.0 - w) * r + w * s2);
    }
    if 0.0 <= r <= 1.0 && 0.0 <= s1 <= 1.0 {
      var v := 1.0 - w;
      Fraction(w, s1);
      Fraction(v, r);
      var p := v * r;
      var q := w * s1;
      assert 0.0 <= p <= v;
      assert 0.0 <= q <= w;
      var x := p + q;
      assert x <= 1.0;
      Scale10(0.0, x);
      Scale10(x, 1.0);
    }
  }

  lemma MulMono(x: real, a: real, b: real)
    requires x >= 0.0 && a <= b
    ensures x * a <= x * b
  {
    assert x * b - x * a == x * (b - a);
  }

  lemma Scale10(x: real, y: real)
    requires x <= y
    ensures x * 10.0 <= y * 10.0
  {
  }

  lemma Fraction(x: real, a: real)
    requires x >= 0.0 && 0.0 <= a <= 1.0
    ensures 0.0 <= x * a <= x
  {
    MulMono(x, 0.0, a);
    MulMono(x, a, 1.0);
  }

  /** validate_explanation: at least 20 characters, and no lower-cased opening from `forbidden` (None and [] forbid nothing). */
  predicate ValidExplanation(explanation: string, forbidden: seq<string>)
  {
    |explanation| >= 20 && forall k :: 0 <= k < |forbidden| ==> !StartsWith(Lower(explanation), forbidden[k])
  }

  /**
   * Letter case of the explanation never matters, and a forbidden opening
   * that holds an upper-case letter can never match, because it is
   * compared against the lower-cased text.
   */
  lemma ValidExplanationCase(explanation: string, forbidden: seq<string>, f: string)
    requires exists i :: 0 <= i < |f| && IsUpper(f[i])
    ensures ValidExplanation(Lower(explanation), forbidden) <==> ValidExplanation(explanation, forbidden)
    ensures ValidExplanation(explanation, forbidden + [f]) <==> ValidExplanation(explanation, forbidden)
  {
    LowerIdempotent(explanation);
    var i :| 0 <= i < |f| && IsUpper(f[i]);
    var g := forbidden + [f];
    if ValidExplanation(explanation, forbidden) && |explanation| >= 20 {
      forall k | 0 <= k < |g|
        ensures !StartsWith(Lower(explanation), g[k])
      {
        if k < |forbidden| {
          assert g[k] == forbidden[k];
        }
      }
    }
    if ValidExplanation(explanation, g) {
      forall k | 0 <= k < |forbidden|
        ensures !StartsWith(Lower(explanation), forbidden[k])
      {
        assert g[k] == forbidden[k];
      }
    }
  }
}
