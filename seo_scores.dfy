/** The deterministic scoring helpers of the analyser: the 0-100 normalisation of a
    score, the seven SEO sub-scores (each on a 0-10 scale) and the choice of the
    industry a report is written for. Scores are exact reals. */
module SeoAioAnalyzer {
  import opened Text
  import opened IndustryDetection

  // ---------------------------------------------------------------------------
  // _scale_to_100
  // ---------------------------------------------------------------------------

  /** A value handed to the normaliser: a number, or anything else. */
  datatype ScoreInput = Number(value: real) | NotANumber

  /** _scale_to_100: a 0-10 score is multiplied by 10, anything above 100 is cut to
      100, other numbers pass unchanged and non-numbers give 0. */
  function ScaleTo100(input: ScoreInput): (r: real)
    ensures input.NotANumber? ==> r == 0.0
    ensures input.Number? && 0.0 <= input.value ==> 0.0 <= r <= 100.0
    ensures input.Number? && input.value < 0.0 ==> r == input.value
    ensures input.Number? && 10.0 < input.value <= 100.0 ==> r == input.value
  {
    match input
    case NotANumber => 0.0
    case Number(value) =>
      if 0.0 <= value <= 10.0 then value * 10.0
      else if value > 100.0 then 100.0
      else value
  }

  /** Scaling is monotone within each of the two scales it accepts, 0-10 and above 10. */
  lemma ScaleMonotoneWithinScale(a: real, b: real)
    requires 0.0 <= a <= b && (b <= 10.0 || 10.0 < a)
    ensures ScaleTo100(Number(a)) <= ScaleTo100(Number(b))
  {
  }

  /** Across the two scales it is not: 10 is read as ten out of ten and becomes 100,
      while 11 is read as eleven out of a hundred and stays 11. */
  lemma ScaleNotMonotoneAcrossScales()
    ensures ScaleTo100(Number(10.0)) == 100.0
    ensures ScaleTo100(Number(11.0)) == 11.0
  {
  }

  /** Scaling a score already on the 0-100 scale a second time changes it only where
      it is at most 10. */
  lemma ScaleIdempotentAbove10(a: real)
    requires 0.0 <= a
    ensures ScaleTo100(Number(a)) > 10.0 ==> ScaleTo100(Number(ScaleTo100(Number(a)))) == ScaleTo100(Number(a))
  {
  }

  lemma ScaleExamples()
    ensures ScaleTo100(Number(7.0)) == 70.0
    ensures ScaleTo100(Number(85.0)) == 85.0
    ensures ScaleTo100(Number(120.0)) == 100.0
  {
  }

  // ---------------------------------------------------------------------------
  // Title and meta description
  // ---------------------------------------------------------------------------

  /** _calculate_title_score: 10 for 30-60 characters, less the further the length
      is from that band, 0 for a missing title. */
  function TitleScore(title: string): (r: nat)
    ensures r in {0, 3, 4, 6, 8, 10}
    ensures r == 0 <==> title == []
    ensures r == 10 <==> 30 <= |title| <= 60
  {
    var l := |title|;
    if title == [] then 0
    else if 30 <= l <= 60 then 10
    else if (20 <= l < 30) || (60 < l <= 70) then 8
    else if (10 <= l < 20) || (70 < l <= 80) then 6
    else if l < 10 then 3 else 4
  }

  /** Below the ideal band a longer title never scores lower; above it, a shorter
      one never does. */
  lemma TitleScoreUnimodal(a: string, b: string)
    requires a != [] && |a| <= |b|
    ensures |b| <= 30 ==> TitleScore(a) <= TitleScore(b)
    ensures 60 <= |a| ==> TitleScore(a) >= TitleScore(b)
  {
  }

  /** _calculate_meta_description_score: 10 for 120-156 characters, less the further
      the length is from that band, 0 for a missing description. */
  function MetaDescriptionScore(desc: string): (r: nat)
    ensures r in {0, 3, 4, 6, 8, 10}
    ensures r == 0 <==> desc == []
    ensures r == 10 <==> 120 <= |desc| <= 156
  {
    var l := |desc|;
    if desc == [] then 0
    else if 120 <= l <= 156 then 10
    else if (100 <= l < 120) || (156 < l <= 170) then 8
    else if (80 <= l < 100) || (170 < l <= 200) then 6
    else if l < 80 then 3 else 4
  }

  lemma MetaDescriptionScoreUnimodal(a: string, b: string)
    requires a != [] && |a| <= |b|
    ensures |b| <= 120 ==> MetaDescriptionScore(a) <= MetaDescriptionScore(b)
    ensures 156 <= |a| ==> MetaDescriptionScore(a) >= MetaDescriptionScore(b)
  {
  }

  lemma TitleAndMetaExamples()
    ensures TitleScore(seq(50, _ => 'a')) == 10
    ensures MetaDescriptionScore(seq(50, _ => 'a')) == 3
  {
  }

  // ---------------------------------------------------------------------------
  // Headings
  // ---------------------------------------------------------------------------

  /** headings.get(tag, 0). */
  function HeadingCount(headings: map<string, int>, tag: string): int {
    if tag in headings then headings[tag] else 0
  }

  /** Some heading of level 3 to 6 is present. */
  predicate HasDeepHeading(headings: map<string, int>) {
    HeadingCount(headings, "h3") > 0 || HeadingCount(headings, "h4") > 0 ||
    HeadingCount(headings, "h5") > 0 || HeadingCount(headings, "h6") > 0
  }

  /** _calculate_headings_score: 40% for exactly one h1 (half for several), 30% for
      any h2, 30% for a sound hierarchy (half when h1 is followed directly by deeper
      levels without an h2). */
  function HeadingsScore(headings: map<string, int>): (r: real)
    ensures 3.0 <= r <= 10.0
  {
    var h1s, h2s := HeadingCount(headings, "h1"), HeadingCount(headings, "h2");
    var h1Score := if h1s == 1 then 10.0 else if h1s > 1 then 5.0 else 0.0;
    var h2Score := if h2s >= 1 then 10.0 else 0.0;
    var hierarchyScore := if h1s > 0 && h2s == 0 && HasDeepHeading(headings) then 5.0 else 10.0;
    h1Score * 0.4 + h2Score * 0.3 + hierarchyScore * 0.3
  }

  /** Full marks exactly for one h1 and at least one h2. */
  lemma HeadingsFullMarks(headings: map<string, int>)
    ensures HeadingsScore(headings) == 10.0 <==>
      HeadingCount(headings, "h1") == 1 && HeadingCount(headings, "h2") >= 1
  {
  }

  /** Adding an h2 to a page that has none never lowers the score. */
  lemma AddingH2NeverHurts(headings: map<string, int>)
    requires HeadingCount(headings, "h2") <= 0
    ensures HeadingsScore(headings["h2" := 1]) >= HeadingsScore(headings)
  {
    var more := headings["h2" := 1];
    assert HeadingCount(more, "h1") == HeadingCount(headings, "h1");
    assert HeadingCount(more, "h2") == 1;
  }

  lemma HeadingsExample()
    ensures HeadingsScore(map["h1" := 1, "h2" := 2]) == 10.0
  {
    HeadingsFullMarks(map["h1" := 1, "h2" := 2]);
  }

  // ---------------------------------------------------------------------------
  // Content, links, images, technical
  // ---------------------------------------------------------------------------

  function WordCountBand(wc: int): (r: real)
    ensures r in {2.0, 4.0, 6.0, 8.0, 10.0}
  {
    if wc >= 600 then 10.0 else if wc >= 400 then 8.0 else if wc >= 300 then 6.0
    else if wc >= 200 then 4.0 else 2.0
  }

  function TextRatioBand(tr: real): (r: real)
    ensures r in {2.0, 4.0, 6.0, 8.0, 10.0}
  {
    if tr >= 20.0 then 10.0 else if tr >= 15.0 then 8.0 else if tr >= 10.0 then 6.0
    else if tr >= 5.0 then 4.0 else 2.0
  }

  /** _calculate_content_score: 70% word-count band, 30% text-to-HTML ratio band. */
  function ContentScore(wc: int, tr: real): (r: real)
    ensures 2.0 <= r <= 10.0
  {
    WordCountBand(wc) * 0.7 + TextRatioBand(tr) * 0.3
  }

  /** More words or a higher text ratio never lower the content score. */
  lemma ContentScoreMonotone(wc1: int, tr1: real, wc2: int, tr2: real)
    requires wc1 <= wc2 && tr1 <= tr2
    ensures ContentScore(wc1, tr1) <= ContentScore(wc2, tr2)
  {
    assert WordCountBand(wc1) <= WordCountBand(wc2);
    assert TextRatioBand(tr1) <= TextRatioBand(tr2);
  }

  lemma ContentExample()
    ensures ContentScore(500, 20.0) == 8.6
  {
  }

  function InternalLinkBand(n: nat): (r: real)
    ensures r in {0.0, 5.0, 8.0, 10.0}
  {
    if n >= 5 then 10.0 else if n >= 3 then 8.0 else if n >= 1 then 5.0 else 0.0
  }

  function ExternalLinkBand(n: nat): (r: real)
    ensures r in {5.0, 8.0, 10.0}
  {
    if n >= 3 then 10.0 else if n >= 1 then 8.0 else 5.0
  }

  /** _calculate_links_score: 70% internal-link band, 30% external-link band. */
  function LinksScore(internal: nat, external: nat): (r: real)
    ensures 1.5 <= r <= 10.0
  {
    InternalLinkBand(internal) * 0.7 + ExternalLinkBand(external) * 0.3
  }

  /** More links never lower the score; full marks need 5 internal and 3 external. */
  lemma LinksScoreMonotone(i1: nat, e1: nat, i2: nat, e2: nat)
    requires i1 <= i2 && e1 <= e2
    ensures LinksScore(i1, e1) <= LinksScore(i2, e2)
    ensures LinksScore(i2, e2) == 10.0 <==> i2 >= 5 && e2 >= 3
  {
    assert InternalLinkBand(i1) <= InternalLinkBand(i2);
    assert ExternalLinkBand(e1) <= ExternalLinkBand(e2);
  }

  lemma LinksExample()
    ensures LinksScore(5, 3) == 10.0
  {
  }

  /** The band of the share of images that carry alt text. */
  function AltShareBand(ratio: real): real {
    if ratio == 1.0 then 10.0 else if ratio >= 0.8 then 8.0 else if ratio >= 0.6 then 6.0
    else if ratio >= 0.4 then 4.0 else if ratio >= 0.2 then 2.0 else 0.0
  }

  /** _calculate_images_score: 5 without images, otherwise the band of the share of
      images that carry alt text. */
  function ImagesScore(withAlt: nat, withoutAlt: nat): (r: real)
    ensures r in {0.0, 2.0, 4.0, 5.0, 6.0, 8.0, 10.0}
    ensures r == 5.0 <==> withAlt + withoutAlt == 0
    ensures r == 10.0 <==> withAlt > 0 && withoutAlt == 0
  {
    var total := withAlt + withoutAlt;
    if total == 0 then 5.0
    else
      var ratio := withAlt as real / total as real;
      assert ratio == 1.0 <==> withoutAlt == 0 by {
        assert ratio * total as real == withAlt as real;
      }
      AltShareBand(ratio)
  }

  lemma AltShareBandMonotone(a: real, b: real)
    requires a <= b <= 1.0
    ensures AltShareBand(a) <= AltShareBand(b)
  {
  }

  /** Adding the missing alt text to one image never lowers the score. */
  lemma AddingAltTextNeverHurts(withAlt: nat, withoutAlt: nat)
    requires withoutAlt > 0
    ensures ImagesScore(withAlt + 1, withoutAlt - 1) >= ImagesScore(withAlt, withoutAlt)
  {
    var total := (withAlt + withoutAlt) as real;
    var before := withAlt as real / total;
    var after := (withAlt + 1) as real / total;
    assert after == before + 1.0 / total;
    assert after <= 1.0 by {
      assert after * total == (withAlt + 1) as real;
    }
    AltShareBandMonotone(before, after);
  }

  lemma ImagesExample()
    ensures ImagesScore(1, 4) == 2.0
  {
    assert 1 as real / 5 as real == 0.2;
  }

  /** _calculate_technical_score: the mean of structured data (10 or 0), viewport
      (10 or 0) and canonical URL (10 or 5). */
  function TechnicalScore(structuredData: bool, viewport: bool, canonicalUrl: bool): (r: real)
    ensures 5.0 / 3.0 <= r <= 10.0
    ensures r == 10.0 <==> structuredData && viewport && canonicalUrl
  {
    var parts := [if structuredData then 10.0 else 0.0, if viewport then 10.0 else 0.0,
                  if canonicalUrl then 10.0 else 5.0];
    (parts[0] + parts[1] + parts[2]) / 3.0
  }

  lemma TechnicalExample()
    ensures TechnicalScore(false, false, false) == 5.0 / 3.0
  {
  }

  // ---------------------------------------------------------------------------
  // _determine_final_industry
  // ---------------------------------------------------------------------------

  /** Where the chosen industry came from. */
  datatype Source =
    | Unset
    | ConfirmedByDetection
    | UserOverridingDetection(detected: string)
    | UserInput
    | Detected(confidence: real)
    | Undeterminable

  datatype FinalIndustry = FinalIndustry(
    primary: string,
    source: Source,
    confidence: real,
    secondaryDetected: seq<string>,
    autoPrimary: string,
    autoConfidence: real)

  const NoIndustry: string := "指定なし"

  /** _determine_final_industry: a user-supplied industry always wins, with a
      confidence of 95 when detection (above 50) agrees, 85 when it disagrees and 80
      when detection is weak; without one, detection above 70 is taken as is, and
      anything weaker leaves the industry unspecified. */
  method DetermineFinalIndustry(userIndustry: string, autoAnalysis: IndustryAnalysis) returns (result: FinalIndustry)
    ensures result.secondaryDetected == autoAnalysis.secondaryIndustries
    ensures result.autoPrimary == autoAnalysis.primaryIndustry
    ensures result.autoConfidence == autoAnalysis.confidenceScore
    ensures result.source != Unset
    ensures userIndustry != "" ==> result.primary == userIndustry && result.confidence >= 80.0
    ensures userIndustry != "" && autoAnalysis.confidenceScore > 50.0 ==>
      if Contains(Lower(autoAnalysis.primaryIndustry), Lower(userIndustry))
      then result.source == ConfirmedByDetection && result.confidence == 95.0
      else result.source == UserOverridingDetection(autoAnalysis.primaryIndustry) && result.confidence == 85.0
    ensures userIndustry != "" && autoAnalysis.confidenceScore <= 50.0 ==>
      result.source == UserInput && result.confidence == 80.0
    ensures userIndustry == "" ==> result.confidence == autoAnalysis.confidenceScore
    ensures userIndustry == "" ==>
      (autoAnalysis.confidenceScore > 70.0 <==> result.primary == autoAnalysis.primaryIndustry && result.source.Detected?)
    ensures userIndustry == "" && autoAnalysis.confidenceScore > 70.0 ==>
      result.source == Detected(autoAnalysis.confidenceScore)
    ensures userIndustry == "" && autoAnalysis.confidenceScore <= 70.0 ==>
      result.primary == NoIndustry && result.source == Undeterminable
    ensures 0.0 <= autoAnalysis.confidenceScore <= 100.0 ==> 0.0 <= result.confidence <= 100.0
  {
    result := FinalIndustry(
      if userIndustry != "" then userIndustry else autoAnalysis.primaryIndustry,
      Unset, 0.0,
      autoAnalysis.secondaryIndustries, autoAnalysis.primaryIndustry, autoAnalysis.confidenceScore);
    if userIndustry != "" && autoAnalysis.confidenceScore > 50.0 {
      if Contains(Lower(autoAnalysis.primaryIndustry), Lower(userIndustry)) {
        result := result.(source := ConfirmedByDetection, confidence := 95.0);
      } else {
        result := result.(source := UserOverridingDetection(autoAnalysis.primaryIndustry), confidence := 85.0);
      }
    } else if userIndustry != "" {
      result := result.(source := UserInput, confidence := 80.0);
    } else if autoAnalysis.confidenceScore > 70.0 {
      result := result.(source := Detected(autoAnalysis.confidenceScore), confidence := autoAnalysis.confidenceScore);
    } else {
      result := result.(primary := NoIndustry, source := Undeterminable, confidence := autoAnalysis.confidenceScore);
    }
  }
}
