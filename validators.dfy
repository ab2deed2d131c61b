// ai_scholar/utils/validators.py: the request guards. Each raises a
// ValidationError (an Err carrying its message) or returns the cleaned value.

module Validators {
  import opened Base
  import opened Text
  import opened Values

  const MaxQueryLength := 500
  const MinYearFloor := 1900
  const MaxYearCeiling := 2030
  const DefaultMaxLimit := 1000

  // ---------------------------------------------------------------- whitespace collapsing

  /** Whitespace only as single plain spaces. */
  predicate Collapsed(s: string)
  {
    forall i :: 0 <= i < |s| && IsSpace(s[i]) ==> s[i] == ' ' && (i + 1 < |s| ==> !IsSpace(s[i + 1]))
  }

  /** The collapsed text keeps a non-space first and last character. */
  lemma {:induction false} CollapseSpaceEnds(s: string)
    ensures var r := CollapseSpace(s);
      (s != [] && !IsSpace(s[0]) ==> r != [] && r[0] == s[0]) &&
      (s != [] && !IsSpace(s[|s| - 1]) ==> r != [] && !IsSpace(r[|r| - 1]))
    decreases |s|
  {
    if s != [] {
      if IsSpace(s[0]) {
        var t := LStrip(s);
        CollapseSpaceEnds(t);
        if !IsSpace(s[|s| - 1]) {
          assert t != [] && t[|t| - 1] == s[|s| - 1];
        }
      } else {
        CollapseSpaceEnds(s[1..]);
      }
    }
  }

  /** After re.sub(r'\s+', ' ', ·) there is no whitespace but single spaces. */
  lemma {:induction false} CollapseSpaceCollapsed(s: string)
    ensures Collapsed(CollapseSpace(s))
    decreases |s|
  {
    if s != [] {
      if IsSpace(s[0]) {
        var t := LStrip(s);
        CollapseSpaceCollapsed(t);
        CollapseSpaceEnds(t);
      } else {
        CollapseSpaceCollapsed(s[1..]);
      }
    }
  }

  lemma CollapsedTail(s: string)
    requires s != [] && Collapsed(s)
    ensures Collapsed(s[1..])
  {
    var t := s[1..];
    forall i | 0 <= i < |t| && IsSpace(t[i])
      ensures t[i] == ' ' && (i + 1 < |t| ==> !IsSpace(t[i + 1]))
    {
      assert t[i] == s[i + 1];
      assert i + 1 < |t| ==> t[i + 1] == s[i + 2];
    }
  }

  /** Collapsing a collapsed text changes nothing. */
  lemma {:induction false} CollapseSpaceOfCollapsed(s: string)
    requires Collapsed(s)
    ensures CollapseSpace(s) == s
    decreases |s|
  {
    if s != [] {
      var t := s[1..];
      CollapsedTail(s);
      CollapseSpaceOfCollapsed(t);
      if IsSpace(s[0]) {
        assert s[0] == ' ';
        assert t == [] || !IsSpace(t[0]) by {
          if t != [] {
            assert t[0] == s[1];
          }
        }
        assert LStrip(s) == t;
        assert s == " " + t;
      } else {
        assert s == [s[0]] + t;
      }
    }
  }

  // ---------------------------------------------------------------- validate_query

  /** validate_query: a falsy or non-string query, an empty stripped query and an over-long one are rejected. */
  function ValidateQuery(query: Value): Result<string>
  {
    if !Truthy(query) || !query.StrV? then Err("Query must be a non-empty string")
    else
      var cleaned := Strip(query.s);
      if |cleaned| == 0 then Err("Query cannot be empty")
      else if |cleaned| > MaxQueryLength then Err("Query too long (max 500 characters)")
      else Ok(CollapseSpace(cleaned))
  }

  /** A query passes exactly when it is a string whose stripped length, measured before collapsing, is 1 to 500. */
  lemma ValidateQueryAccepts(query: Value)
    ensures ValidateQuery(query).Ok? <==> query.StrV? && 0 < |Strip(query.s)| <= MaxQueryLength
  {
    if query.StrV? && query.s == [] {
      assert Strip(query.s) == [];
    }
  }

  /**
   * The cleaned query is non-empty, has no surrounding whitespace, only
   * single spaces inside, and is no longer than the stripped input.
   */
  lemma ValidateQueryCleaned(query: Value)
    requires ValidateQuery(query).Ok?
    ensures var r := ValidateQuery(query).value;
      0 < |r| <= |Strip(query.s)| && !IsSpace(r[0]) && !IsSpace(r[|r| - 1]) && Collapsed(r)
  {
    var t := Strip(query.s);
    CollapseSpaceEnds(t);
    CollapseSpaceCollapsed(t);
  }

  /** Cleaning is idempotent: a cleaned query validates to itself. */
  lemma ValidateQueryIdempotent(query: Value)
    requires ValidateQuery(query).Ok?
    ensures ValidateQuery(StrV(ValidateQuery(query).value)) == ValidateQuery(query)
  {
    ValidateQueryCleaned(query);
    var r := ValidateQuery(query).value;
    StripOfNonSpaceEnds(r);
    CollapseSpaceOfCollapsed(r);
  }

  // ---------------------------------------------------------------- validate_year_range

  /** `isinstance(v, int)`: bool is a subclass of int. */
  function IntLike(v: Value): Option<int>
  {
    match v
    case IntV(i) => Some(i)
    case BoolV(b) => Some(if b then 1 else 0)
    case _ => None
  }

  /** validate_year_range: each given bound must be an int on its side of [1900, 2030], and they must be ordered. */
  function ValidateYearRange(minYear: Value, maxYear: Value): (r: Result<(Value, Value)>)
  {
    if minYear != NoneV && (IntLike(minYear).None? || IntLike(minYear).value < MinYearFloor) then
      Err("Minimum year must be an integer >= 1900")
    else if maxYear != NoneV && (IntLike(maxYear).None? || IntLike(maxYear).value > MaxYearCeiling) then
      Err("Maximum year must be an integer <= 2030")
    else if minYear != NoneV && maxYear != NoneV && IntLike(minYear).value > IntLike(maxYear).value then
      Err("Minimum year cannot be greater than maximum year")
    else Ok((minYear, maxYear))
  }

  /**
   * The range passes exactly when each bound is None or an int on its side
   * of [1900, 2030] and a given minimum does not exceed a given maximum;
   * a passing range comes back unchanged.
   */
  lemma ValidateYearRangeIff(minYear: Value, maxYear: Value)
    ensures ValidateYearRange(minYear, maxYear).Ok? <==>
      (minYear == NoneV || (IntLike(minYear).Some? && IntLike(minYear).value >= MinYearFloor)) &&
      (maxYear == NoneV || (IntLike(maxYear).Some? && IntLike(maxYear).value <= MaxYearCeiling)) &&
      (minYear != NoneV && maxYear != NoneV ==> IntLike(minYear).value <= IntLike(maxYear).value)
    ensures ValidateYearRange(minYear, maxYear).Ok? ==> ValidateYearRange(minYear, maxYear).value == (minYear, maxYear)
  {
  }

  // ---------------------------------------------------------------- validate_limit

  /** validate_limit: a positive int no greater than `maxLimit`. */
  function ValidateLimit(limit: Value, maxLimit: int): Result<Value>
  {
    if IntLike(limit).None? || IntLike(limit).value <= 0 then Err("Limit must be a positive integer")
    else if IntLike(limit).value > maxLimit then Err("Limit cannot exceed " + IntToString(maxLimit))
    else Ok(limit)
  }

  /** Exactly the ints 1..max_limit pass, unchanged; with the default maximum, 1000 passes and 1001 does not. */
  lemma ValidateLimitIff(limit: Value, maxLimit: int)
    ensures ValidateLimit(limit, maxLimit).Ok? <==> IntLike(limit).Some? && 1 <= IntLike(limit).value <= maxLimit
    ensures ValidateLimit(limit, maxLimit).Ok? ==> ValidateLimit(limit, maxLimit).value == limit
    ensures ValidateLimit(IntV(1000), DefaultMaxLimit).Ok? && ValidateLimit(IntV(1001), DefaultMaxLimit).Err?
  {
  }

  // ---------------------------------------------------------------- validate_ranking_mode

  const ValidRankingModes: seq<string> := ["ai_ranking", "citation_ranking"]

  /** validate_ranking_mode: only the two listed names pass. */
  function ValidateRankingMode(mode: Value): Result<string>
  {
    if !mode.StrV? then Err("Ranking mode must be a string")
    else if mode.s !in ValidRankingModes then Err("Ranking mode must be one of: ['ai_ranking', 'citation_ranking']")
    else Ok(mode.s)
  }

  /**
   * Only 'ai_ranking' and 'citation_ranking' pass; the ranking modes the
   * aggregation understands ('ai', 'citations', 'year') are all rejected.
   */
  lemma ValidateRankingModeIff(mode: Value)
    ensures ValidateRankingMode(mode).Ok? <==> mode == StrV("ai_ranking") || mode == StrV("citation_ranking")
    ensures ValidateRankingMode(mode).Ok? ==> ValidateRankingMode(mode).value == mode.s
    ensures ValidateRankingMode(StrV("ai")).Err? && ValidateRankingMode(StrV("citations")).Err? &&
            ValidateRankingMode(StrV("year")).Err?
  {
  }
}
