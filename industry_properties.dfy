/** What the industry analysis guarantees: how raw scores arise from keyword counts,
    when the undetermined result is returned, which industry becomes primary, which
    become secondary, and what the audience and regulatory lists contain. */
module IndustryProperties {
  import opened Text
  import opened Seqs
  import opened IndustryDetection

  function ProfileName(p: IndustryProfile): string {
    p.name
  }

  /** The built-in table has ten industries under distinct names, as the keys of a
      dictionary are. */
  lemma DetectorTableShape()
    ensures |DetectorTable| == 10
    ensures NoDuplicates(Map(DetectorTable, ProfileName))
  {
  }

  // ---------------------------------------------------------------------------
  // Scores and matched keywords
  // ---------------------------------------------------------------------------

  /** A tier scores zero exactly when none of its keywords occurs. */
  lemma {:induction false} TierScoreZeroIffNothingMatched(text: string, keywords: seq<string>, weight: nat)
    requires weight > 0
    ensures TierScore(text, keywords, weight) == 0 <==> TierMatched(text, keywords) == []
    decreases |keywords|
  {
    if keywords != [] {
      var init, last := keywords[..|keywords| - 1], keywords[|keywords| - 1];
      TierScoreZeroIffNothingMatched(text, init, weight);
      assert keywords == init + [last];
      FilterSnoc(init, last, OccursIn(text));
    }
  }

  /** An industry scores zero exactly when none of its keywords occurs. */
  lemma IndustryScoreZeroIffNothingMatched(text: string, p: IndustryProfile)
    ensures ScoreIndustry(text, p).score == 0 <==> ScoreIndustry(text, p).matched == []
  {
    TierScoreZeroIffNothingMatched(text, p.primary, PrimaryWeight);
    TierScoreZeroIffNothingMatched(text, p.secondary, SecondaryWeight);
    TierScoreZeroIffNothingMatched(text, p.specialized, SpecializedWeight);
  }

  /** The matched list holds exactly the tier keywords whose lower-cased form occurs in
      the text, each tier's keywords in that tier's order. */
  lemma MatchedKeywordsOccur(text: string, p: IndustryProfile)
    ensures forall k :: k in ScoreIndustry(text, p).matched <==>
      (k in p.primary || k in p.secondary || k in p.specialized) && Contains(text, Lower(k))
    ensures IsSubsequence(TierMatched(text, p.primary), p.primary)
    ensures IsSubsequence(TierMatched(text, p.secondary), p.secondary)
    ensures IsSubsequence(TierMatched(text, p.specialized), p.specialized)
  {
    forall k: string {
      CountPositiveIffContains(text, Lower(k));
    }
    FilterIsSubsequence(p.primary, OccursIn(text));
    FilterIsSubsequence(p.secondary, OccursIn(text));
    FilterIsSubsequence(p.specialized, OccursIn(text));
  }

  lemma BlobAppend(title: string, content: string, metaDescription: string, extra: string)
    ensures Blob(title, content + extra, metaDescription) == Blob(title, content, metaDescription) + Lower(extra)
  {
    var prefix := title + " " + metaDescription + " ";
    assert title + " " + metaDescription + " " + (content + extra) == (prefix + content) + extra;
    LowerConcat(prefix + content, extra);
  }

  /** Appending text never lowers a tier's score. */
  lemma {:induction false} TierScoreAppendMonotone(text: string, extra: string, keywords: seq<string>, weight: nat)
    ensures TierScore(text + extra, keywords, weight) >= TierScore(text, keywords, weight)
    decreases |keywords|
  {
    if keywords != [] {
      var last := keywords[|keywords| - 1];
      TierScoreAppendMonotone(text, extra, keywords[..|keywords| - 1], weight);
      CountAppendMonotone(text, extra, Lower(last));
      MultiplyMonotone(KeywordCount(text + extra, last), KeywordCount(text, last), weight);
    }
  }

  lemma MultiplyMonotone(a: nat, b: nat, w: nat)
    requires a >= b
    ensures a * w >= b * w
  {
  }

  lemma MultiplyAddOne(a: nat, b: nat, w: nat)
    requires a >= b + 1
    ensures a * w >= b * w + w
  {
    MultiplyMonotone(a, b + 1, w);
    assert (b + 1) * w == b * w + w;
  }

  /** Appending one more occurrence of a tier keyword raises the tier's score by at
      least the tier's weight. */
  lemma {:induction false} TierScoreAppendKeyword(text: string, keywords: seq<string>, weight: nat, k: string)
    requires k in keywords && k != ""
    ensures TierScore(text + Lower(k), keywords, weight) >= TierScore(text, keywords, weight) + weight
    decreases |keywords|
  {
    var init, last := keywords[..|keywords| - 1], keywords[|keywords| - 1];
    var longer := text + Lower(k);
    assert TierScore(longer, keywords, weight) == TierScore(longer, init, weight) + KeywordCount(longer, last) * weight;
    assert TierScore(text, keywords, weight) == TierScore(text, init, weight) + KeywordCount(text, last) * weight;
    if last == k {
      TierScoreAppendMonotone(text, Lower(k), init, weight);
      CountAppendSelf(text, Lower(k));
      MultiplyAddOne(KeywordCount(longer, k), KeywordCount(text, k), weight);
    } else {
      assert keywords == init + [last];
      assert k in init;
      TierScoreAppendKeyword(text, init, weight, k);
      CountAppendMonotone(text, Lower(k), Lower(last));
      MultiplyMonotone(KeywordCount(longer, last), KeywordCount(text, last), weight);
    }
  }

  /** Adding text to the content never lowers any industry's raw score. */
  lemma AppendingContentNeverLowersScore(p: IndustryProfile, title: string, content: string, metaDescription: string, extra: string)
    ensures ScoreIndustry(Blob(title, content + extra, metaDescription), p).score >=
            ScoreIndustry(Blob(title, content, metaDescription), p).score
  {
    var text := Blob(title, content, metaDescription);
    BlobAppend(title, content, metaDescription, extra);
    TierScoreAppendMonotone(text, Lower(extra), p.primary, PrimaryWeight);
    TierScoreAppendMonotone(text, Lower(extra), p.secondary, SecondaryWeight);
    TierScoreAppendMonotone(text, Lower(extra), p.specialized, SpecializedWeight);
  }

  /** Adding one more occurrence of a primary-tier keyword to the content raises the
      industry's raw score by at least the primary weight 3. */
  lemma AppendingPrimaryKeywordRaisesScore(p: IndustryProfile, title: string, content: string, metaDescription: string, k: string)
    requires k in p.primary && k != ""
    ensures ScoreIndustry(Blob(title, content + k, metaDescription), p).score >=
            ScoreIndustry(Blob(title, content, metaDescription), p).score + PrimaryWeight
  {
    var text := Blob(title, content, metaDescription);
    BlobAppend(title, content, metaDescription, k);
    TierScoreAppendKeyword(text, p.primary, PrimaryWeight, k);
    TierScoreAppendMonotone(text, Lower(k), p.secondary, SecondaryWeight);
    TierScoreAppendMonotone(text, Lower(k), p.specialized, SpecializedWeight);
  }

  // ---------------------------------------------------------------------------
  // Ranking
  // ---------------------------------------------------------------------------

  /** Adjacent order gives order between any two positions. */
  lemma {:induction false} SortedPairwise(s: seq<IndustryScore>, i: int, j: int)
    requires SortedByScore(s) && 0 <= i <= j < |s|
    ensures s[i].score >= s[j].score
    decreases j - i
  {
    if i < j {
      SortedPairwise(s, i + 1, j);
    }
  }

  /** The first element of the ranking is the first element, in table order, among
      those with the highest score: the stable sort breaks ties by table position. */
  lemma {:induction false} SortHeadIsFirstBest(xs: seq<IndustryScore>)
    requires xs != []
    ensures exists i :: IsFirstBest(xs, i) && SortByScore(xs)[0] == xs[i]
    decreases |xs|
  {
    var tail := xs[1..];
    var rest := SortByScore(tail);
    assert SortByScore(xs) == InsertByScore(xs[0], rest);
    InsertHead(xs[0], rest);
    assert xs == [xs[0]] + tail;
    if tail == [] {
      assert IsFirstBest(xs, 0);
    } else {
      SortHeadIsFirstBest(tail);
      var j :| IsFirstBest(tail, j) && rest[0] == tail[j];
      FirstBestCons(xs[0], tail, j);
    }
  }

  /** Putting one more element in front of a sequence whose first best is at j. */
  lemma FirstBestCons(x: IndustryScore, tail: seq<IndustryScore>, j: int)
    requires IsFirstBest(tail, j)
    ensures tail[j].score <= x.score ==> IsFirstBest([x] + tail, 0)
    ensures tail[j].score > x.score ==> IsFirstBest([x] + tail, j + 1)
  {
    var xs := [x] + tail;
    assert forall k :: 1 <= k < |xs| ==> xs[k] == tail[k - 1];
  }

  /** Where an insertion puts its element relative to the head of the ranking. */
  lemma InsertHead(x: IndustryScore, s: seq<IndustryScore>)
    requires SortedByScore(s)
    ensures InsertByScore(x, s)[0] == if s == [] || s[0].score <= x.score then x else s[0]
  {
  }

  /** Filtering a ranking keeps it ranked. */
  lemma {:induction false} FilterKeepsSorted(xs: seq<IndustryScore>, keep: IndustryScore -> bool)
    requires SortedByScore(xs)
    ensures SortedByScore(Filter(xs, keep))
    decreases |xs|
  {
    if xs != [] {
      var init, last := xs[..|xs| - 1], xs[|xs| - 1];
      FilterKeepsSorted(init, keep);
      var f := Filter(init, keep);
      if keep(last) && f != [] {
        assert f[|f| - 1] in init;
        var k :| 0 <= k < |init| && init[k] == f[|f| - 1];
        SortedPairwise(xs, k, |xs| - 1);
      }
    }
  }

  // ---------------------------------------------------------------------------
  // The analysis result
  // ---------------------------------------------------------------------------

  lemma RankedHead(text: string, table: seq<IndustryProfile>)
    requires table != []
    ensures Ranked(text, table) != []
    ensures exists i :: IsFirstBest(ScoreAll(text, table), i) && Ranked(text, table)[0] == ScoreAll(text, table)[i]
  {
    var scores := ScoreAll(text, table);
    assert scores[0] in multiset(scores);
    SortHeadIsFirstBest(scores);
  }

  /** The ranking is empty or led by a zero score exactly when no keyword of any
      industry occurs. */
  lemma NothingScoredIff(text: string, table: seq<IndustryProfile>)
    ensures var ranked := Ranked(text, table);
      (ranked == [] || ranked[0].score == 0) <==>
      forall i :: 0 <= i < |table| ==> ScoreIndustry(text, table[i]).matched == []
  {
    var scores := ScoreAll(text, table);
    var ranked := Ranked(text, table);
    forall i | 0 <= i < |table| {
      IndustryScoreZeroIffNothingMatched(text, table[i]);
    }
    if table == [] {
      assert multiset(ranked) == multiset{};
    } else {
      RankedHead(text, table);
      var i :| IsFirstBest(scores, i) && ranked[0] == scores[i];
      if ranked[0].score > 0 {
        assert scores[i].matched != [];
      }
    }
  }

  /** The undetermined result is returned exactly when no keyword of any industry
      occurs in the text; it then also reports no audience and no regulation, whatever
      the text contains. */
  lemma UndeterminedIffNothingMatches(table: seq<IndustryProfile>, title: string, content: string, metaDescription: string)
    ensures var r := Analyze(table, title, content, metaDescription);
      r == Undetermined <==>
      forall i :: 0 <= i < |table| ==> ScoreIndustry(Blob(title, content, metaDescription), table[i]).matched == []
    ensures var r := Analyze(table, title, content, metaDescription);
      r == Undetermined ==>
        r.primaryIndustry == UndeterminedIndustry && r.confidenceScore == 0.0 &&
        r.secondaryIndustries == [] && r.industryKeywords == [] && r.specializedTerms == [] &&
        r.regulatoryIndicators == [] && r.targetAudienceClues == []
  {
    var text := Blob(title, content, metaDescription);
    var ranked := Ranked(text, table);
    NothingScoredIff(text, table);
    if ranked != [] && ranked[0].score > 0 {
      assert Analyze(table, title, content, metaDescription).confidenceScore ==
        Confidence(ranked[0].score, WordCount(text));
    }
  }

  /** When something matched, the primary industry is the first industry in table order
      among those with the highest score, and both keyword lists of the result are that
      industry's whole matched list (every tier, not only the specialized one). */
  lemma PrimaryIsFirstBest(table: seq<IndustryProfile>, title: string, content: string, metaDescription: string)
    requires table != []
    ensures var scores := ScoreAll(Blob(title, content, metaDescription), table);
      var r := Analyze(table, title, content, metaDescription);
      exists i :: IsFirstBest(scores, i) &&
        (scores[i].score > 0 ==>
          r.primaryIndustry == table[i].name &&
          r.industryKeywords == scores[i].matched &&
          r.specializedTerms == scores[i].matched)
  {
    RankedHead(Blob(title, content, metaDescription), table);
  }

  /** Secondary industries: at most five, drawn from ranks 2 to 6 of the ranking, each
      with a positive score that reaches 30% of the primary score and does not exceed
      it, listed from highest to lowest score and rendered "name(score)". */
  lemma SecondaryIndustriesChoice(table: seq<IndustryProfile>, title: string, content: string, metaDescription: string)
    requires var ranked := Ranked(Blob(title, content, metaDescription), table);
      ranked != [] && ranked[0].score > 0
    ensures var text := Blob(title, content, metaDescription);
      var ranked := Ranked(text, table);
      var top := ranked[0].score;
      var chosen := Filter(SecondaryCandidates(ranked), IsSecondary(top));
      Analyze(table, title, content, metaDescription).secondaryIndustries == Map(chosen, FormatSecondary) &&
      |chosen| <= 5 && SortedByScore(chosen) &&
      forall e :: e in chosen ==>
        e in ranked[1..] && e in ScoreAll(text, table) && 0 < e.score <= top && 10 * e.score >= 3 * top
  {
    var text := Blob(title, content, metaDescription);
    var ranked := Ranked(text, table);
    SecondaryFromRanking(ranked);
    forall e | e in ranked[1..]
      ensures e in ScoreAll(text, table)
    {
      assert e in ranked;
      assert e in multiset(ranked);
    }
  }

  /** The secondary choice on any ranking. */
  lemma SecondaryFromRanking(ranked: seq<IndustryScore>)
    requires ranked != [] && SortedByScore(ranked)
    ensures var top := ranked[0].score;
      var chosen := Filter(SecondaryCandidates(ranked), IsSecondary(top));
      |chosen| <= 5 && SortedByScore(chosen) &&
      forall e :: e in chosen ==> e in ranked[1..] && 0 < e.score <= top && 10 * e.score >= 3 * top
  {
    var top := ranked[0].score;
    var candidates := SecondaryCandidates(ranked);
    var chosen := Filter(candidates, IsSecondary(top));
    FilterKeepsSorted(candidates, IsSecondary(top));
    forall e | e in chosen
      ensures e in ranked[1..] && e.score <= top
    {
      var k :| 0 <= k < |candidates| && candidates[k] == e;
      assert ranked[1..][k] == e;
      SortedPairwise(ranked, 0, k + 1);
    }
  }

  /** A secondary label is the industry name followed by its score in parentheses;
      reading the digits back gives the score. */
  lemma SecondaryLabelRoundTrip(e: IndustryScore)
    ensures exists digits :: (FormatSecondary(e) == e.name + "(" + digits + ")" &&
      (forall i :: 0 <= i < |digits| ==> IsDigit(digits[i])) && DecimalValue(digits) == e.score)
  {
    DecimalRoundTrip(e.score);
    var digits := NatToDecimal(e.score);
    assert FormatSecondary(e) == e.name + "(" + digits + ")";
  }

  /** The confidence is zero for the undetermined result and lies in (0, 100] otherwise. */
  lemma ConfidenceInRange(table: seq<IndustryProfile>, title: string, content: string, metaDescription: string)
    ensures var r := Analyze(table, title, content, metaDescription);
      (r == Undetermined ==> r.confidenceScore == 0.0) &&
      (r != Undetermined ==> 0.0 < r.confidenceScore <= 100.0)
  {
  }

  // ---------------------------------------------------------------------------
  // Audience and regulatory vocabularies
  // ---------------------------------------------------------------------------

  lemma AudienceVocabularyNames()
    ensures Map(AudienceVocabulary, Label) == ["法人向け", "個人向け", "専門職向け", "経営者向け"]
    ensures NoDuplicates(Map(AudienceVocabulary, Label))
  {
  }

  /** Audience labels come in vocabulary order, each at most once. */
  lemma AudienceLabelsOrdered(text: string)
    ensures IsSubsequence(TargetAudience(text), ["法人向け", "個人向け", "専門職向け", "経営者向け"])
    ensures NoDuplicates(TargetAudience(text))
  {
    AudienceVocabularyNames();
    FilterIsSubsequence(AudienceVocabulary, Fires(text));
    MapKeepsSubsequence(Filter(AudienceVocabulary, Fires(text)), AudienceVocabulary, Label);
    var chosen := Filter(AudienceVocabulary, Fires(text));
    FilterNoDuplicates(AudienceVocabulary, Fires(text));
    forall i, j | 0 <= i < j < |chosen|
      ensures chosen[i].name != chosen[j].name
    {
      assert chosen[i] in AudienceVocabulary && chosen[j] in AudienceVocabulary;
    }
  }

  /** A label is reported exactly when its category fires: the labels are distinct. */
  lemma AudienceLabelIff(t: string, i: int)
    requires 0 <= i < |AudienceVocabulary|
    ensures AudienceVocabulary[i].name in TargetAudience(t) <==> Fires(t)(AudienceVocabulary[i])
  {
    var chosen := Filter(AudienceVocabulary, Fires(t));
    var c := AudienceVocabulary[i];
    if c.name in TargetAudience(t) {
      var k :| 0 <= k < |chosen| && TargetAudience(t)[k] == c.name;
      assert chosen[k] in AudienceVocabulary;
      assert chosen[k] == c;
    }
    if Fires(t)(c) {
      assert c in chosen;
      var k :| 0 <= k < |chosen| && chosen[k] == c;
      assert TargetAudience(t)[k] == c.name;
    }
  }

  /** The audience of a lower-cased text: the patterns "B2B", "B2C" and "CEO" contain
      upper-case letters and so never match, and each label is detected exactly when
      one of its remaining patterns occurs. */
  lemma AudienceOfLoweredText(s: string)
    ensures var t := Lower(s);
      ("法人向け" in TargetAudience(t) <==>
        Contains(t, "企業") || Contains(t, "会社") || Contains(t, "法人") || Contains(t, "ビジネス")) &&
      ("個人向け" in TargetAudience(t) <==>
        Contains(t, "個人") || Contains(t, "家庭") || Contains(t, "一般") || Contains(t, "消費者")) &&
      ("専門職向け" in TargetAudience(t) <==>
        Contains(t, "医師") || Contains(t, "弁護士") || Contains(t, "税理士") || Contains(t, "エンジニア") || Contains(t, "専門家")) &&
      ("経営者向け" in TargetAudience(t) <==>
        Contains(t, "経営者") || Contains(t, "社長") || Contains(t, "役員") || Contains(t, "管理職"))
  {
    var t := Lower(s);
    assert IsUpper("B2B"[0]) && IsUpper("B2C"[0]) && IsUpper("CEO"[0]);
    LoweredTextMissesUpperCase(s, "B2B");
    LoweredTextMissesUpperCase(s, "B2C");
    LoweredTextMissesUpperCase(s, "CEO");
    AudienceLabelIff(t, 0);
    AudienceLabelIff(t, 1);
    AudienceLabelIff(t, 2);
    AudienceLabelIff(t, 3);
    FiresOnFive(t, AudienceVocabulary[0]);
    FiresOnFive(t, AudienceVocabulary[1]);
    FiresOnFive(t, AudienceVocabulary[2]);
    FiresOnFive(t, AudienceVocabulary[3]);
  }

  /** A category of five patterns fires exactly when one of the five occurs. */
  lemma FiresOnFive(t: string, c: AudienceCategory)
    requires |c.patterns| == 5
    ensures Fires(t)(c) <==>
      Contains(t, c.patterns[0]) || Contains(t, c.patterns[1]) || Contains(t, c.patterns[2]) ||
      Contains(t, c.patterns[3]) || Contains(t, c.patterns[4])
  {
    if Fires(t)(c) {
      var p :| p in c.patterns && Contains(t, p);
      var k :| 0 <= k < 5 && c.patterns[k] == p;
    }
  }

  lemma RegulatoryVocabularyDistinct()
    ensures NoDuplicates(RegulatoryVocabulary)
  {
  }

  /** Regulation names come in vocabulary order, each at most once, and a name is
      reported exactly when its lower-cased form occurs. */
  lemma RegulatoryTermsDetected(text: string)
    ensures forall term :: term in RegulatoryTerms(text) <==> term in RegulatoryVocabulary && Contains(text, Lower(term))
    ensures IsSubsequence(RegulatoryTerms(text), RegulatoryVocabulary)
    ensures NoDuplicates(RegulatoryTerms(text))
  {
    FilterIsSubsequence(RegulatoryVocabulary, Mentions(text));
    RegulatoryVocabularyDistinct();
    FilterNoDuplicates(RegulatoryVocabulary, Mentions(text));
  }
}
