/** The keyword-table industry detector: it scores a page's lower-cased text against
    ten industries with three weighted keyword tiers, ranks them, and derives the
    primary and secondary industries, a confidence value, audience labels and
    regulatory terms. */
module IndustryDetection {
  import opened Text
  import opened Seqs

  // ---------------------------------------------------------------------------
  // Data model
  // ---------------------------------------------------------------------------

  /** One industry of the detector's table with its three keyword tiers. */
  datatype IndustryProfile = IndustryProfile(
    name: string,
    primary: seq<string>,
    secondary: seq<string>,
    specialized: seq<string>)

  /** The result record of one analysis. */
  datatype IndustryAnalysis = IndustryAnalysis(
    primaryIndustry: string,
    secondaryIndustries: seq<string>,
    confidenceScore: real,
    industryKeywords: seq<string>,
    specializedTerms: seq<string>,
    regulatoryIndicators: seq<string>,
    targetAudienceClues: seq<string>)

  /** The raw score of one industry and the keywords that contributed to it. */
  datatype IndustryScore = IndustryScore(name: string, score: nat, matched: seq<string>)

  /** One audience label and the substrings that reveal it. */
  datatype AudienceCategory = AudienceCategory(name: string, patterns: seq<string>)

  /** One entry of the content-profile table that the fit scorer and the advice text read. */
  datatype ContentProfile = ContentProfile(displayName: string, keywords: seq<string>)

  type ContentTable = map<string, ContentProfile>

  const PrimaryWeight: nat := 3
  const SecondaryWeight: nat := 2
  const SpecializedWeight: nat := 5

  /** Only ranks 2 to 6 are considered as secondary industries. */
  const SecondaryRankLimit: nat := 6

  const UndeterminedIndustry: string := "指定なし（自動判定不可）"

  /** The detector's keyword table, in the order the analysis visits it. */
  const DetectorTable: seq<IndustryProfile> := [
    IndustryProfile("IT・テクノロジー",
      ["API", "SDK", "SaaS", "クラウド", "データベース", "システム開発", "ソフトウェア", "アプリ"],
      ["DX", "デジタル変革", "IT導入", "クラウド移行", "セキュリティ", "AI", "IoT"],
      ["React", "Python", "AWS", "Docker", "kubernetes", "GitHub", "DevOps"]),
    IndustryProfile("医療・ヘルスケア",
      ["診療", "治療", "医師", "看護師", "病院", "クリニック", "薬事法", "医療"],
      ["予防医療", "遠隔診療", "電子カルテ", "医療DX", "健康管理"],
      ["ICD-10", "レセプト", "診療報酬", "薬機法", "PMDA"]),
    IndustryProfile("不動産",
      ["物件", "賃貸", "売買", "マンション", "戸建て", "土地", "不動産投資"],
      ["リノベーション", "住宅ローン", "仲介手数料", "賃貸管理"],
      ["重要事項説明", "宅建士", "建ぺい率", "容積率", "登記"]),
    IndustryProfile("教育・人材",
      ["学習", "教育", "講座", "スクール", "研修", "資格", "eラーニング", "人材"],
      ["オンライン授業", "学習管理", "教材開発", "採用", "転職"],
      ["LMS", "アダプティブラーニング", "学習分析", "HRtech"]),
    IndustryProfile("金融・保険",
      ["融資", "投資", "保険", "資産運用", "金利", "リスク管理", "銀行"],
      ["フィンテック", "ロボアドバイザー", "仮想通貨", "決済"],
      ["AML", "KYC", "Basel III", "Solvency II", "PCI DSS"]),
    IndustryProfile("製造業",
      ["製造", "生産", "工場", "品質管理", "サプライチェーン", "設備"],
      ["IoT", "スマートファクトリー", "予知保全", "自動化"],
      ["QMS", "ISO9001", "TPM", "5S", "カイゼン", "JIT"]),
    IndustryProfile("小売・EC",
      ["商品", "販売", "店舗", "顧客", "在庫", "決済", "配送", "EC"],
      ["オムニチャネル", "CRM", "ポイント", "レコメンド"],
      ["SKU", "GMV", "LTV", "CAC", "CVR", "ROAS"]),
    IndustryProfile("飲食・食品",
      ["メニュー", "レストラン", "食材", "調理", "衛生管理", "栄養"],
      ["テイクアウト", "デリバリー", "食品ロス", "フードテック"],
      ["HACCP", "食品表示法", "トレーサビリティ"]),
    IndustryProfile("建設・建築",
      ["建設", "建築", "施工", "設計", "リフォーム", "住宅"],
      ["BIM", "建築DX", "省エネ", "耐震"],
      ["建築基準法", "一級建築士", "施工管理", "構造計算"]),
    IndustryProfile("コンサルティング",
      ["コンサル", "戦略", "業務改善", "経営", "支援"],
      ["DXコンサル", "ITコンサル", "人事コンサル"],
      ["フレームワーク", "ベストプラクティス", "KPI"])
  ]

  /** The audience vocabulary, in the order the labels are reported. */
  const AudienceVocabulary: seq<AudienceCategory> := [
    AudienceCategory("法人向け", ["企業", "会社", "法人", "ビジネス", "B2B"]),
    AudienceCategory("個人向け", ["個人", "家庭", "一般", "消費者", "B2C"]),
    AudienceCategory("専門職向け", ["医師", "弁護士", "税理士", "エンジニア", "専門家"]),
    AudienceCategory("経営者向け", ["経営者", "社長", "CEO", "役員", "管理職"])
  ]

  /** The regulation names the detector looks for, in reporting order. */
  const RegulatoryVocabulary: seq<string> := [
    "薬機法", "医療法", "金融商品取引法", "宅建業法", "建築基準法",
    "個人情報保護法", "食品衛生法", "労働基準法", "GDPR", "ISO"
  ]

  // ---------------------------------------------------------------------------
  // Specification of one analysis
  // ---------------------------------------------------------------------------

  /** The text every keyword is searched in: title, meta description and content,
      separated by single spaces and lower-cased. */
  function Blob(title: string, content: string, metaDescription: string): (blob: string) {
    Lower(title + " " + metaDescription + " " + content)
  }

  /** The number of times keyword occurs in text, as the detector counts it. */
  function KeywordCount(text: string, keyword: string): nat {
    CountOccurrences(text, Lower(keyword))
  }

  function OccursIn(text: string): string -> bool {
    k => KeywordCount(text, k) > 0
  }

  /** weight times the occurrence count, summed over the keywords of one tier. */
  function TierScore(text: string, keywords: seq<string>, weight: nat): (score: nat)
    decreases |keywords|
  {
    if keywords == [] then 0
    else
      TierScore(text, keywords[..|keywords| - 1], weight) +
      KeywordCount(text, keywords[|keywords| - 1]) * weight
  }

  /** The keywords of one tier that occur, in tier order. */
  function TierMatched(text: string, keywords: seq<string>): seq<string> {
    Filter(keywords, OccursIn(text))
  }

  function ScoreIndustry(text: string, p: IndustryProfile): (s: IndustryScore) {
    IndustryScore(
      p.name,
      TierScore(text, p.primary, PrimaryWeight) +
      TierScore(text, p.secondary, SecondaryWeight) +
      TierScore(text, p.specialized, SpecializedWeight),
      TierMatched(text, p.primary) + TierMatched(text, p.secondary) + TierMatched(text, p.specialized))
  }

  function Scorer(text: string): IndustryProfile -> IndustryScore {
    p => ScoreIndustry(text, p)
  }

  /** The scores of every industry, in table order. */
  function ScoreAll(text: string, table: seq<IndustryProfile>): seq<IndustryScore> {
    Map(table, Scorer(text))
  }

  /** Scores never increase from one position to the next. */
  predicate SortedByScore(s: seq<IndustryScore>) {
    forall i :: 0 < i < |s| ==> s[i - 1].score >= s[i].score
  }

  /** Inserts x in front of the first element whose score is not higher than its own. */
  function InsertByScore(x: IndustryScore, s: seq<IndustryScore>): (r: seq<IndustryScore>)
    requires SortedByScore(s)
    ensures |r| == |s| + 1
    ensures r[0] == x || (s != [] && r[0] == s[0])
    ensures multiset(r) == multiset(s) + multiset{x}
    ensures SortedByScore(r)
    decreases |s|
  {
    if s == [] || s[0].score <= x.score then [x] + s
    else
      var rest := InsertByScore(x, s[1..]);
      assert s == [s[0]] + s[1..];
      [s[0]] + rest
  }

  /** The entries with score v: one class of ties. */
  function WithScore(v: nat): IndustryScore -> bool {
    (e: IndustryScore) => e.score == v
  }

  /** Insertion puts x in front of the entries that tie with it and leaves the
      order within the class of tied scores v unchanged. */
  lemma {:induction false} InsertLeadsItsClass(x: IndustryScore, s: seq<IndustryScore>, v: nat)
    requires SortedByScore(s)
    ensures Filter(InsertByScore(x, s), WithScore(v)) == Filter([x], WithScore(v)) + Filter(s, WithScore(v))
    decreases |s|
  {
    if s == [] || s[0].score <= x.score {
      assert InsertByScore(x, s) == [x] + s;
      FilterAppend([x], s, WithScore(v));
    } else {
      assert s == [s[0]] + s[1..];
      InsertLeadsItsClass(x, s[1..], v);
      InsertPastHead(x, s[0], s[1..], v);
    }
  }

  /** The step of InsertLeadsItsClass where x goes behind a strictly higher head. */
  lemma InsertPastHead(x: IndustryScore, head: IndustryScore, tail: seq<IndustryScore>, v: nat)
    requires SortedByScore(tail) && SortedByScore([head] + tail) && head.score > x.score
    requires Filter(InsertByScore(x, tail), WithScore(v)) == Filter([x], WithScore(v)) + Filter(tail, WithScore(v))
    ensures Filter(InsertByScore(x, [head] + tail), WithScore(v)) ==
            Filter([x], WithScore(v)) + Filter([head] + tail, WithScore(v))
  {
    var keep := WithScore(v);
    InsertUnfoldsPastHead(x, head, tail);
    FilterAppend([head], InsertByScore(x, tail), keep);
    FilterAppend([head], tail, keep);
    SingletonsCommute(head, x, v);
    SwapFronts(Filter([head], keep), Filter([x], keep), Filter(tail, keep));
  }

  lemma InsertUnfoldsPastHead(x: IndustryScore, head: IndustryScore, tail: seq<IndustryScore>)
    requires SortedByScore(tail) && SortedByScore([head] + tail) && head.score > x.score
    ensures InsertByScore(x, [head] + tail) == [head] + InsertByScore(x, tail)
  {
    var s := [head] + tail;
    assert s[0] == head && s[1..] == tail;
  }

  lemma SwapFronts<T>(a: seq<T>, b: seq<T>, c: seq<T>)
    requires a + b == b + a
    ensures a + (b + c) == b + (a + c)
  {
    assert a + (b + c) == (a + b) + c;
  }

  /** Two entries with different scores never both belong to one class of ties. */
  lemma SingletonsCommute(a: IndustryScore, b: IndustryScore, v: nat)
    requires a.score != b.score
    ensures Filter([a], WithScore(v)) + Filter([b], WithScore(v)) ==
            Filter([b], WithScore(v)) + Filter([a], WithScore(v))
  {
    FilterSnoc([], a, WithScore(v));
    FilterSnoc([], b, WithScore(v));
    assert [] + [a] == [a] && [] + [b] == [b];
  }

  /** Python's stable `sorted(..., key=score, reverse=True)`: descending by score,
      a permutation of the input; that ties keep their order is `SortIsStable`. */
  function SortByScore(xs: seq<IndustryScore>): (r: seq<IndustryScore>)
    ensures multiset(r) == multiset(xs)
    ensures SortedByScore(r)
  {
    if xs == [] then []
    else
      assert xs == [xs[0]] + xs[1..];
      InsertByScore(xs[0], SortByScore(xs[1..]))
  }

  /** The sort is stable: the entries of every class of tied scores appear in the
      ranking in the order they had in the input. */
  lemma {:induction false} SortIsStable(xs: seq<IndustryScore>, v: nat)
    ensures Filter(SortByScore(xs), WithScore(v)) == Filter(xs, WithScore(v))
    decreases |xs|
  {
    if xs != [] {
      var sorted := SortByScore(xs[1..]);
      assert SortByScore(xs) == InsertByScore(xs[0], sorted);
      SortIsStable(xs[1..], v);
      InsertLeadsItsClass(xs[0], sorted, v);
      assert xs == [xs[0]] + xs[1..];
      FilterAppend([xs[0]], xs[1..], WithScore(v));
    }
  }

  /** Index i holds a maximal score and no earlier index reaches it. */
  predicate IsFirstBest(xs: seq<IndustryScore>, i: int) {
    0 <= i < |xs| &&
    (forall k :: 0 <= k < |xs| ==> xs[k].score <= xs[i].score) &&
    (forall k :: 0 <= k < i ==> xs[k].score < xs[i].score)
  }

  /** The ranking restricted to ranks 2 to 6. */
  function SecondaryCandidates(ranked: seq<IndustryScore>): seq<IndustryScore>
    requires ranked != []
  {
    ranked[1..if |ranked| < SecondaryRankLimit then |ranked| else SecondaryRankLimit]
  }

  /** A candidate is reported when it scored and reaches 30% of the primary score. */
  function IsSecondary(primaryScore: nat): IndustryScore -> bool {
    (e: IndustryScore) => 10 * e.score >= 3 * primaryScore && e.score > 0
  }

  /** "name(score)". */
  function FormatSecondary(e: IndustryScore): string {
    e.name + "(" + NatToDecimal(e.score) + ")"
  }

  /** min(100, primaryScore / max(totalWords * 0.1, 1) * 100). */
  function Confidence(primaryScore: nat, totalWords: nat): (c: real)
    ensures 0.0 <= c <= 100.0
    ensures primaryScore > 0 <==> c > 0.0
  {
    var scaled := totalWords as real * 0.1;
    var denominator := if 1.0 > scaled then 1.0 else scaled;
    var ratio := primaryScore as real / denominator * 100.0;
    if ratio < 100.0 then ratio else 100.0
  }

  function Fires(text: string): AudienceCategory -> bool {
    (c: AudienceCategory) => exists p :: p in c.patterns && Contains(text, p)
  }

  function Label(c: AudienceCategory): string {
    c.name
  }

  /** The audience labels whose patterns occur in text, in vocabulary order. */
  function TargetAudience(text: string): seq<string> {
    Map(Filter(AudienceVocabulary, Fires(text)), Label)
  }

  function Mentions(text: string): string -> bool {
    t => Contains(text, Lower(t))
  }

  /** The regulation names that occur in text, in vocabulary order. */
  function RegulatoryTerms(text: string): seq<string> {
    Filter(RegulatoryVocabulary, Mentions(text))
  }

  /** The result when no keyword of any industry occurs. */
  const Undetermined: IndustryAnalysis := IndustryAnalysis(UndeterminedIndustry, [], 0.0, [], [], [], [])

  function Ranked(text: string, table: seq<IndustryProfile>): seq<IndustryScore> {
    SortByScore(ScoreAll(text, table))
  }

  /** The result of analyze_industries for the given keyword table. */
  function Analyze(table: seq<IndustryProfile>, title: string, content: string, metaDescription: string): (r: IndustryAnalysis) {
    var text := Blob(title, content, metaDescription);
    var ranked := Ranked(text, table);
    if ranked == [] || ranked[0].score == 0 then Undetermined
    else
      var top := ranked[0];
      IndustryAnalysis(
        top.name,
        Map(Filter(SecondaryCandidates(ranked), IsSecondary(top.score)), FormatSecondary),
        Confidence(top.score, WordCount(text)),
        top.matched,
        top.matched,
        RegulatoryTerms(text),
        TargetAudience(text))
  }

  // ---------------------------------------------------------------------------
  // The detector object
  // ---------------------------------------------------------------------------

  /** Scans one keyword tier, adding weight times each keyword's count to score and
      appending the keywords that occur to matched. */
  method ScanTier(text: string, keywords: seq<string>, weight: nat, score0: nat, matched0: seq<string>)
    returns (score: nat, matched: seq<string>)
    ensures score == score0 + TierScore(text, keywords, weight)
    ensures matched == matched0 + TierMatched(text, keywords)
  {
    score, matched := score0, matched0;
    for i := 0 to |keywords|
      invariant score == score0 + TierScore(text, keywords[..i], weight)
      invariant matched == matched0 + TierMatched(text, keywords[..i])
    {
      var keyword := keywords[i];
      assert keywords[..i + 1] == keywords[..i] + [keyword];
      assert keywords[..i + 1][..i] == keywords[..i];
      var count := CountOccurrences(text, Lower(keyword));
      assert TierScore(text, keywords[..i + 1], weight) == TierScore(text, keywords[..i], weight) + count * weight;
      FilterSnoc(keywords[..i], keyword, OccursIn(text));
      score := score + count * weight;
      if count > 0 {
        matched := matched + [keyword];
      }
    }
    assert keywords[..|keywords|] == keywords;
  }

  /** One iteration of the scoring loop: the three tiers of one industry, in order. */
  method ScoreProfile(text: string, keywords: IndustryProfile) returns (r: IndustryScore)
    ensures r == ScoreIndustry(text, keywords)
  {
    var score, matched := ScanTier(text, keywords.primary, PrimaryWeight, 0, []);
    score, matched := ScanTier(text, keywords.secondary, SecondaryWeight, score, matched);
    score, matched := ScanTier(text, keywords.specialized, SpecializedWeight, score, matched);
    r := IndustryScore(keywords.name, score, matched);
  }

  class IndustryDetector {
    /** The keyword table, fixed when the detector is created. */
    const industryKeywords: seq<IndustryProfile>

    constructor ()
      ensures industryKeywords == DetectorTable
    {
      industryKeywords := DetectorTable;
    }

    method AnalyzeIndustries(title: string, content: string, metaDescription: string)
      returns (r: IndustryAnalysis)
      ensures r == Analyze(industryKeywords, title, content, metaDescription)
    {
      var combinedText := Lower(title + " " + metaDescription + " " + content);
      assert combinedText == Blob(title, content, metaDescription);
      var industryScores := ScoreIndustries(combinedText);

      var sortedIndustries := SortByScore(industryScores);
      if |sortedIndustries| == 0 || sortedIndustries[0].score == 0 {
        return Undetermined;
      }

      var primary := sortedIndustries[0];
      var secondaryIndustries := SelectSecondary(SecondaryCandidates(sortedIndustries), primary.score);
      var totalWords := WordCount(combinedText);
      var confidence := Confidence(primary.score, totalWords);
      var targetClues := DetectTargetAudience(combinedText);
      var regulatoryIndicators := DetectRegulatoryTerms(combinedText);
      r := IndustryAnalysis(primary.name, secondaryIndustries, confidence, primary.matched,
                            primary.matched, regulatoryIndicators, targetClues);
    }

    /** The scoring loop of the analysis: every industry's weighted count and matched keywords. */
    method ScoreIndustries(text: string) returns (industryScores: seq<IndustryScore>)
      ensures industryScores == ScoreAll(text, industryKeywords)
    {
      industryScores := [];
      for i := 0 to |industryKeywords|
        invariant |industryScores| == i
        invariant forall k :: 0 <= k < i ==> industryScores[k] == ScoreIndustry(text, industryKeywords[k])
      {
        var industryScore := ScoreProfile(text, industryKeywords[i]);
        industryScores := industryScores + [industryScore];
      }
      assert forall k :: 0 <= k < |industryKeywords| ==> ScoreAll(text, industryKeywords)[k] == ScoreIndustry(text, industryKeywords[k]);
    }

    /** The secondary-industry loop: candidates that reach the threshold, formatted "name(score)". */
    method SelectSecondary(candidates: seq<IndustryScore>, primaryScore: nat) returns (secondaryIndustries: seq<string>)
      ensures secondaryIndustries == Map(Filter(candidates, IsSecondary(primaryScore)), FormatSecondary)
    {
      var threshold := 3 * primaryScore;
      secondaryIndustries := [];
      for j := 0 to |candidates|
        invariant secondaryIndustries == Map(Filter(candidates[..j], IsSecondary(primaryScore)), FormatSecondary)
      {
        var candidate := candidates[j];
        assert candidates[..j + 1] == candidates[..j] + [candidate];
        FilterSnoc(candidates[..j], candidate, IsSecondary(primaryScore));
        if 10 * candidate.score >= threshold && candidate.score > 0 {
          MapSnoc(Filter(candidates[..j], IsSecondary(primaryScore)), candidate, FormatSecondary);
          secondaryIndustries := secondaryIndustries + [FormatSecondary(candidate)];
        }
      }
      assert candidates[..|candidates|] == candidates;
    }

    method DetectTargetAudience(text: string) returns (detected: seq<string>)
      ensures detected == TargetAudience(text)
    {
      detected := [];
      for i := 0 to |AudienceVocabulary|
        invariant detected == Map(Filter(AudienceVocabulary[..i], Fires(text)), Label)
      {
        var category := AudienceVocabulary[i];
        assert AudienceVocabulary[..i + 1] == AudienceVocabulary[..i] + [category];
        FilterSnoc(AudienceVocabulary[..i], category, Fires(text));
        if exists p :: p in category.patterns && Contains(text, p) {
          MapSnoc(Filter(AudienceVocabulary[..i], Fires(text)), category, Label);
          detected := detected + [category.name];
        }
      }
      assert AudienceVocabulary[..|AudienceVocabulary|] == AudienceVocabulary;
    }

    method DetectRegulatoryTerms(text: string) returns (detected: seq<string>)
      ensures detected == RegulatoryTerms(text)
    {
      detected := KeepMentioned(RegulatoryVocabulary, text);
    }
  }

  /** The loop of _detect_regulatory_terms: the terms whose lower-cased form occurs in
      text, in order. */
  method KeepMentioned(terms: seq<string>, text: string) returns (detected: seq<string>)
    ensures detected == Filter(terms, Mentions(text))
  {
    detected := [];
    for i := 0 to |terms|
      invariant detected == Filter(terms[..i], Mentions(text))
    {
      var term := terms[i];
      assert terms[..i + 1] == terms[..i] + [term];
      FilterSnoc(terms[..i], term, Mentions(text));
      if Contains(text, Lower(term)) {
        detected := detected + [term];
      }
    }
    assert terms[..|terms|] == terms;
  }
}
