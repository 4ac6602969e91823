/** The keyword-coverage ("personalization") score: the share of an industry's
    recommended keywords that occur in a page's text, and the keywords that do not. */
module AioScorer {
  import opened Text
  import opened Seqs
  import opened IndustryDetection

  /** A coverage score together with the recommended keywords that are missing. */
  datatype Personalization = Personalization(score: real, missing: seq<string>)

  /** The recommended keywords of an industry; an absent entry has none. */
  function RecommendedKeywords(industry: string, contents: ContentTable): seq<string> {
    if industry in contents then contents[industry].keywords else []
  }

  /** `kw.lower() in text_lower`. */
  predicate Found(textLower: string, kw: string) {
    Contains(textLower, Lower(kw))
  }

  function Covered(textLower: string): string -> bool {
    kw => Found(textLower, kw)
  }

  function NotCovered(textLower: string): string -> bool {
    kw => !Found(textLower, kw)
  }

  /** matched out of total, in percent. */
  function Percent(matched: nat, total: nat): real
    requires total > 0
  {
    matched as real / total as real * 100.0
  }

  lemma PercentBounds(matched: nat, total: nat)
    requires 0 < total && matched <= total
    ensures 0.0 <= Percent(matched, total) <= 100.0
    ensures Percent(matched, total) * total as real == 100.0 * matched as real
  {
    var q := matched as real / total as real;
    assert q * total as real == matched as real;
    assert q <= 1.0 by {
      if q > 1.0 {
        assert q * total as real > 1.0 * total as real;
      }
    }
  }

  lemma PercentWhole(total: nat)
    requires 0 < total
    ensures Percent(total, total) == 100.0 && Percent(0, total) == 0.0
  {
  }

  lemma PercentMonotone(a: nat, b: nat, total: nat)
    requires 0 < total && a <= b
    ensures Percent(a, total) <= Percent(b, total)
  {
    var qa := a as real / total as real;
    var qb := b as real / total as real;
    assert qb - qa == (b - a) as real / total as real;
  }

  /** The result of calculate_personalization_score. */
  function PersonalizationScore(text: string, industry: string, contents: ContentTable): (r: Personalization) {
    var keywords := RecommendedKeywords(industry, contents);
    if text == [] || industry !in contents || keywords == [] then Personalization(0.0, [])
    else
      var textLower := Lower(text);
      var matched := |Filter(keywords, Covered(textLower))|;
      Personalization(Percent(matched, |keywords|), Filter(keywords, NotCovered(textLower)))
  }

  /** calculate_personalization_score: the early exits, then one pass over the
      keywords, then the percentage. */
  method CalculatePersonalizationScore(text: string, industry: string, industryContentsMap: ContentTable)
    returns (score: real, missing: seq<string>)
    ensures Personalization(score, missing) == PersonalizationScore(text, industry, industryContentsMap)
  {
    if text == [] || industry !in industryContentsMap {
      return 0.0, [];
    }
    var keywords := industryContentsMap[industry].keywords;
    if keywords == [] {
      return 0.0, [];
    }
    var matched;
    matched, missing := CheckKeywords(Lower(text), keywords);
    score := Percent(matched, |keywords|);
  }

  /** The loop of calculate_personalization_score: counts the keywords found in the
      lower-cased text and collects, in order, the ones not found. */
  method CheckKeywords(textLower: string, keywords: seq<string>) returns (matched: nat, missing: seq<string>)
    ensures matched == |Filter(keywords, Covered(textLower))|
    ensures missing == Filter(keywords, NotCovered(textLower))
  {
    missing := [];
    matched := 0;
    for i := 0 to |keywords|
      invariant matched == |Filter(keywords[..i], Covered(textLower))|
      invariant missing == Filter(keywords[..i], NotCovered(textLower))
    {
      var kw := keywords[i];
      var done := keywords[..i];
      assert keywords[..i + 1] == done + [kw];
      FilterSnoc(done, kw, Covered(textLower));
      FilterSnoc(done, kw, NotCovered(textLower));
      if Found(textLower, kw) {
        assert Filter(done + [kw], Covered(textLower)) == Filter(done, Covered(textLower)) + [kw];
        matched := matched + 1;
      } else {
        assert Filter(done + [kw], NotCovered(textLower)) == Filter(done, NotCovered(textLower)) + [kw];
        missing := missing + [kw];
      }
    }
    assert keywords[..|keywords|] == keywords;
  }

  // ---------------------------------------------------------------------------
  // Properties
  // ---------------------------------------------------------------------------

  /** An empty text, an unknown industry or an industry without keywords scores 0
      with nothing missing. */
  lemma EarlyExits(text: string, industry: string, contents: ContentTable)
    requires text == [] || industry !in contents || contents[industry].keywords == []
    ensures PersonalizationScore(text, industry, contents) == Personalization(0.0, [])
  {
  }

  /** The missing list holds exactly the recommended keywords whose lower-cased form
      does not occur in the lower-cased text, in the table's order. */
  lemma MissingKeywordsExact(text: string, industry: string, contents: ContentTable)
    requires text != [] && industry in contents
    ensures var r := PersonalizationScore(text, industry, contents);
      (forall kw :: kw in r.missing <==>
        kw in contents[industry].keywords && !Contains(Lower(text), Lower(kw))) &&
      IsSubsequence(r.missing, contents[industry].keywords)
  {
    FilterIsSubsequence(contents[industry].keywords, NotCovered(Lower(text)));
  }

  /** With keywords to check, the score is the share of the n keywords that are not
      missing, in percent, and lies in [0, 100]. */
  lemma ScoreIsCoverage(text: string, industry: string, contents: ContentTable)
    requires text != [] && industry in contents && contents[industry].keywords != []
    ensures var r := PersonalizationScore(text, industry, contents);
      var n := |contents[industry].keywords|;
      |r.missing| <= n && r.score == Percent(n - |r.missing|, n) && 0.0 <= r.score <= 100.0
  {
    var keywords := contents[industry].keywords;
    var textLower := Lower(text);
    var matched := |Filter(keywords, Covered(textLower))|;
    var missing := Filter(keywords, NotCovered(textLower));
    assert PersonalizationScore(text, industry, contents) == Personalization(Percent(matched, |keywords|), missing);
    FilterSplitCount(keywords, Covered(textLower), NotCovered(textLower));
    PercentBounds(matched, |keywords|);
  }

  /** A text that contains every recommended keyword scores 100 with nothing missing. */
  lemma FullCoverage(text: string, industry: string, contents: ContentTable)
    requires text != [] && industry in contents && contents[industry].keywords != []
    requires forall kw :: kw in contents[industry].keywords ==> Contains(Lower(text), Lower(kw))
    ensures PersonalizationScore(text, industry, contents) == Personalization(100.0, [])
  {
    var keywords := contents[industry].keywords;
    FilterAll(keywords, Covered(Lower(text)));
    FilterNone(keywords, NotCovered(Lower(text)));
    PercentWhole(|keywords|);
  }

  /** A non-empty text that contains none of the recommended keywords scores 0, and
      every keyword is reported missing. */
  lemma NoCoverage(text: string, industry: string, contents: ContentTable)
    requires text != [] && industry in contents && contents[industry].keywords != []
    requires forall kw :: kw in contents[industry].keywords ==> !Contains(Lower(text), Lower(kw))
    ensures PersonalizationScore(text, industry, contents) ==
      Personalization(0.0, contents[industry].keywords)
  {
    var keywords := contents[industry].keywords;
    var textLower := Lower(text);
    FilterAll(keywords, NotCovered(textLower));
    FilterNone(keywords, Covered(textLower));
    PercentWhole(|keywords|);
    assert PersonalizationScore(text, industry, contents) ==
      Personalization(Percent(0, |keywords|), Filter(keywords, NotCovered(textLower)));
  }

  /** A page whose text is the recommended keywords joined by any separator covers
      them all and scores 100. */
  lemma JoinedKeywordsScoreFull(sep: string, industry: string, contents: ContentTable)
    requires industry in contents && contents[industry].keywords != []
    requires Join(sep, contents[industry].keywords) != []
    ensures PersonalizationScore(Join(sep, contents[industry].keywords), industry, contents) ==
      Personalization(100.0, [])
  {
    var keywords := contents[industry].keywords;
    var text := Join(sep, keywords);
    forall kw | kw in keywords
      ensures Contains(Lower(text), Lower(kw))
    {
      var i :| 0 <= i < |keywords| && keywords[i] == kw;
      JoinContainsEach(sep, keywords, i);
      LowerKeepsContains(text, kw);
    }
    FullCoverage(text, industry, contents);
  }

  /** Adding text to a page never lowers its score and never adds a missing keyword. */
  lemma AppendingTextNeverLowersScore(text: string, extra: string, industry: string, contents: ContentTable)
    requires text != [] && industry in contents && contents[industry].keywords != []
    ensures var before := PersonalizationScore(text, industry, contents);
      var after := PersonalizationScore(text + extra, industry, contents);
      after.score >= before.score && IsSubsequence(after.missing, contents[industry].keywords) &&
      forall kw :: kw in after.missing ==> kw in before.missing
  {
    var keywords := contents[industry].keywords;
    var short, long := Lower(text), Lower(text + extra);
    LowerConcat(text, extra);
    forall kw | kw in keywords && Covered(short)(kw)
      ensures Covered(long)(kw)
    {
      ContainsLeft(short, Lower(extra), Lower(kw));
    }
    FilterWeakerKeepsMore(keywords, Covered(short), Covered(long));
    FilterIsSubsequence(keywords, NotCovered(long));
    PercentMonotone(|Filter(keywords, Covered(short))|, |Filter(keywords, Covered(long))|, |keywords|);
  }
}
