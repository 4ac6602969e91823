# aio2 analysis core in Dafny

This project models the deterministic core of aio2. aio2 is a Streamlit tool that
scores a web page for classic SEO and for "AIO" (how well AI assistants can use
the page). The model covers the parts of the analysis that are plain computation:

- **Industry detection** (`industry_detector.dfy`, `industry_properties.dfy`).
  The `IndustryDetector` class keeps a fixed table of ten industries. Each industry
  has primary, secondary and specialized keyword tiers, weighted 3, 2 and 5.
  `AnalyzeIndustries` lower-cases title, meta description and content. It counts
  every keyword with Python's non-overlapping `str.count`, ranks the industries with
  a stable descending sort, and picks the primary industry. It then picks up to five
  secondary industries that reach 30% of the primary score, computes a confidence
  from the word count, and detects the audience and regulation vocabularies. Each
  method is proved equal to a specification function (`Analyze`, `ScoreAll`,
  `TargetAudience`, ...). The properties are proved about those functions.
- **Keyword coverage** (`aio_scorer.dfy`). `CalculatePersonalizationScore` gives
  the percentage of an industry's recommended keywords that occur in the page and
  lists the ones that do not.
- **Advice text** (`advice_utils.dfy`). `GenerateActionableAdvice` builds the
  sentence that names the missing keywords.
- **Mojibake heuristic** (`text_utils.dfy`). `DetectMojibake` flags text that
  contains `Ã`, `Â` or U+FFFD, or whose share of "valid" characters is below 70%.
  Valid characters are printable ASCII, CJK punctuation and kana, and the main
  kanji block.
- **Scoring helpers of the analyser class** (`seo_scores.dfy`): `_scale_to_100`,
  the seven SEO sub-scores and `_determine_final_industry`.
- **Shared helpers** (`text.dfy`, `seqs.dfy`). These model the Python string
  operations the code relies on: `lower`, `in`, `count`, `join`, `len(split())`
  and integer formatting. They also hold order-preserving filter and map.

The industry-content table `INDUSTRY_CONTENTS` (display name and recommended
keywords per industry key) is a parameter of type `ContentTable`. Its contents are
not part of this model.

Fractional scores are exact `real`s. Every comparison with a decimal constant is
modelled exactly. Examples: `score >= primary_score * 0.3` becomes
`10 * score >= 3 * primary`, and `valid / len < 0.7` becomes `10 * valid < 7 * len`.
For integer operands these agree with IEEE doubles until the operands reach about
2^50.

Two behaviours of the code are proved as written:

- The audience patterns `B2B`, `B2C` and `CEO` contain upper-case letters. They are
  searched in lower-cased text, so they never match (`AudienceOfLoweredText`).
- `_scale_to_100` reads values up to 10 as a 0-10 score and larger values as a 0-100
  score. So 10 becomes 100 while 11 stays 11 (`ScaleNotMonotoneAcrossScales`).

The advice test for the key `unknown` (`tests/test_advice_utils.py:11-14`) expects
the phrase 「業種を特定できませんでした」. The generic sentence of
`core/advice_utils.py:20` does not contain it, so the test can pass only when the
industry-content table has an entry `unknown` whose display name contains that
phrase. The table is a parameter here. `AdviceNamesKnownIndustry` proves that such
an entry's display name appears in the advice, and `UnknownIndustryAdvice` proves
that without an entry the advice is the generic sentence.

## Model

| member | source | states |
|---|---|---|
| IndustryDetection.IndustryDetector.constructor | core/industry_detector.py:20-72 | the detector's table is the built-in ten-industry keyword table |
| IndustryProperties.DetectorTableShape | core/industry_detector.py:21-72 | the built-in table has ten industries with distinct names |
| IndustryDetection.IndustryDetector.AnalyzeIndustries | core/industry_detector.py:74-134 | the analysis the method returns is `Analyze` of the detector's table on the same title, content and meta description |
| IndustryDetection.IndustryDetector.ScoreIndustries | core/industry_detector.py:79-98 | the loop over the table yields, per industry and in table order, its weighted count and matched keywords (`ScoreAll`) |
| IndustryDetection.ScoreProfile | core/industry_detector.py:80-98 | one industry's score is the sum of its three tier scores and its matched list is the three tier lists in order |
| IndustryDetection.ScanTier | core/industry_detector.py:82-96 | scanning a tier adds weight × count of each keyword to the running score and appends the keywords with a positive count |
| IndustryProperties.TierScoreZeroIffNothingMatched | core/industry_detector.py:82-96 | with a positive weight, a tier scores zero exactly when none of its keywords occurs |
| IndustryProperties.IndustryScoreZeroIffNothingMatched | core/industry_detector.py:79-98 | an industry scores zero exactly when its matched list is empty |
| IndustryProperties.MatchedKeywordsOccur | core/industry_detector.py:82-96 | a keyword is in the matched list exactly when it belongs to a tier and its lower-cased form occurs in the text; each tier's matches keep the tier's order |
| IndustryProperties.BlobAppend | core/industry_detector.py:75 | adding text to the end of the content adds its lower-cased form to the end of the searched text |
| IndustryProperties.TierScoreAppendMonotone | core/industry_detector.py:82-96 | appending text never lowers a tier's score |
| IndustryProperties.TierScoreAppendKeyword | core/industry_detector.py:82-96 | appending one more copy of a tier keyword raises the tier score by at least the weight |
| IndustryProperties.AppendingContentNeverLowersScore | core/industry_detector.py:75-98 | adding text to the content never lowers any industry's raw score |
| IndustryProperties.AppendingPrimaryKeywordRaisesScore | core/industry_detector.py:75-98 | adding a primary keyword to the content raises that industry's score by at least 3 |
| IndustryDetection.InsertByScore | core/industry_detector.py:100 | insertion into a descending ranking keeps it descending, adds exactly the new element, and leads with either the new element or the old head |
| IndustryDetection.SortByScore | core/industry_detector.py:100 | the ranking is a permutation of the scores, in descending score order |
| IndustryDetection.InsertLeadsItsClass | core/industry_detector.py:100 | insertion puts the new entry in front of the entries it ties with and keeps the order of every class of tied scores |
| IndustryDetection.SortIsStable | core/industry_detector.py:100 | the sort is stable: for every score, the entries with that score appear in the ranking in table order, which fixes ranks 2-6 and the order of the secondaries under ties |
| IndustryProperties.SortedPairwise | core/industry_detector.py:100 | in the ranking an earlier industry never has a lower score than a later one |
| IndustryProperties.SortHeadIsFirstBest | core/industry_detector.py:100 | the head of the ranking is the first industry in table order among those with the highest score, so ties keep table order |
| IndustryProperties.FilterKeepsSorted | core/industry_detector.py:114-118 | selecting from a ranking keeps it in descending order |
| IndustryProperties.NothingScoredIff | core/industry_detector.py:100-101 | the ranking is empty or led by a zero score exactly when no keyword of any industry occurs |
| IndustryProperties.UndeterminedIffNothingMatches | core/industry_detector.py:100-110 | the undetermined result (no industry, confidence 0, all lists empty) is returned exactly when no keyword of any industry occurs |
| IndustryProperties.PrimaryIsFirstBest | core/industry_detector.py:112-113 | when something matched, the primary industry is a first-best industry of the table, and both keyword lists of the result are its whole matched list |
| IndustryDetection.IndustryDetector.SelectSecondary | core/industry_detector.py:114-118 | the loop keeps, in rank order, the candidates with a positive score of at least 30% of the primary score, rendered "name(score)" |
| IndustryProperties.SecondaryFromRanking | core/industry_detector.py:114-118 | on any ranking: at most five secondaries, from ranks 2 to 6, in descending order, each with 0 < score ≤ primary and 10·score ≥ 3·primary |
| IndustryProperties.SecondaryIndustriesChoice | core/industry_detector.py:112-118 | the analysis's secondary list is that selection from the ranking of the table's industries, each of them one of the table's scores |
| IndustryProperties.SecondaryLabelRoundTrip | core/industry_detector.py:118 | a secondary label is the name, "(", decimal digits, ")"; reading the digits back gives the score |
| IndustryDetection.Confidence | core/industry_detector.py:120-121 | the confidence lies in [0, 100] and is positive exactly when the primary score is |
| IndustryProperties.ConfidenceInRange | core/industry_detector.py:101-134 | the analysis reports confidence 0 when undetermined and a value in (0, 100] otherwise |
| IndustryDetection.IndustryDetector.DetectTargetAudience | core/industry_detector.py:136-147 | the labels returned are those of the categories with an occurring pattern, in vocabulary order (`TargetAudience`) |
| IndustryProperties.AudienceVocabularyNames | core/industry_detector.py:138-141 | the four audience labels, in order, all distinct |
| IndustryProperties.AudienceLabelsOrdered | core/industry_detector.py:136-147 | detected labels come in vocabulary order, each at most once |
| IndustryProperties.AudienceLabelIff | core/industry_detector.py:144-146 | a label is reported exactly when one of its category's patterns occurs |
| IndustryProperties.FiresOnFive | core/industry_detector.py:145 | a five-pattern category fires exactly when one of its five patterns occurs |
| IndustryProperties.AudienceOfLoweredText | core/industry_detector.py:136-147 | on lower-cased text, B2B, B2C and CEO never match; each label is detected exactly when one of its other patterns occurs |
| IndustryDetection.IndustryDetector.DetectRegulatoryTerms | core/industry_detector.py:149-158 | the terms returned are the regulation names whose lower-cased form occurs, in vocabulary order (`RegulatoryTerms`) |
| IndustryDetection.KeepMentioned | core/industry_detector.py:154-158 | the loop keeps, in order, exactly the terms whose lower-cased form occurs |
| IndustryProperties.RegulatoryVocabularyDistinct | core/industry_detector.py:150-153 | the ten regulation names are distinct |
| IndustryProperties.RegulatoryTermsDetected | core/industry_detector.py:149-158 | a name is reported exactly when it is in the vocabulary and its lower-cased form occurs; output keeps vocabulary order without repeats |
| Text.CountPositiveIffContains | core/industry_detector.py:83-85 | `count(k) > 0` exactly when `k in text` |
| Text.CountBound | core/industry_detector.py:83 | counted occurrences do not overlap: count × length of the keyword ≤ length of the text |
| Text.CountAppendMonotone | core/industry_detector.py:83 | appending text never loses a counted occurrence |
| Text.CountAppendSelf | core/industry_detector.py:83 | appending one more copy of a keyword adds at least one occurrence |
| Text.WordCountPositive | core/industry_detector.py:120 | `len(text.split())` is positive exactly when the text has a non-space character |
| Text.DecimalRoundTrip | core/industry_detector.py:118 | the decimal rendering of a score reads back as the score |
| Text.LoweredTextMissesUpperCase | core/industry_detector.py:75 | lower-cased text never contains a pattern with an upper-case letter |
| Text.JoinContainsEach | core/advice_utils.py:17 | every joined element occurs in the joined text |
| AioScorer.CalculatePersonalizationScore | core/aio_scorer.py:6-22 | the score and missing list returned are `PersonalizationScore` of the same text, industry and table |
| AioScorer.CheckKeywords | core/aio_scorer.py:14-20 | the loop counts the keywords found and collects, in order, those not found |
| AioScorer.EarlyExits | core/aio_scorer.py:8-12 | empty text, an unknown industry or an empty keyword list give score 0 and nothing missing |
| AioScorer.MissingKeywordsExact | core/aio_scorer.py:13-20 | a keyword is missing exactly when it is recommended and its lower-cased form does not occur in the lower-cased text; order kept |
| AioScorer.ScoreIsCoverage | core/aio_scorer.py:21 | the score is the percentage of the recommended keywords that are not missing, within [0, 100] |
| AioScorer.FullCoverage | core/aio_scorer.py:14-21 | a text containing every recommended keyword scores 100 with nothing missing |
| AioScorer.NoCoverage | core/aio_scorer.py:14-21 | a non-empty text containing none scores 0 with every keyword missing |
| AioScorer.JoinedKeywordsScoreFull | core/aio_scorer.py:6-22 | a page made of the recommended keywords joined by any separator scores 100 |
| AioScorer.AppendingTextNeverLowersScore | core/aio_scorer.py:13-21 | adding text never lowers the score and never makes a keyword missing |
| AioScorer.PercentBounds | core/aio_scorer.py:21 | matched out of total, in percent, lies in [0, 100] and times total gives 100 × matched |
| AioScorer.PercentMonotone | core/aio_scorer.py:21 | more matches never give a lower percentage |
| AdviceUtils.GenerateActionableAdvice | core/advice_utils.py:7-20 | with no missing keyword the fixed sentence; with missing keywords and a table entry, a sentence that opens with the display name and ends with the "add information" closing; without an entry, the generic "consider including" sentence |
| AdviceUtils.NothingMissingIffNoKeywords | core/advice_utils.py:12-13 | the fixed "nothing missing" sentence is returned exactly when no keyword is missing |
| AdviceUtils.AdviceNamesEveryMissingKeyword | core/advice_utils.py:15-20 | the advice contains every missing keyword |
| AdviceUtils.AdviceNamesKnownIndustry | core/advice_utils.py:15-19 | for an industry with an entry, the advice contains its display name |
| AdviceUtils.AdviceDependsOnlyOnDisplayName | core/advice_utils.py:15-20 | two tables that agree on whether the industry has an entry and on its display name give the same advice |
| AdviceUtils.UnknownIndustryAdvice | core/advice_utils.py:15-20 | advice for an industry without an entry is the same for every table and differs from the advice for a known industry |
| TextUtils.DetectMojibake | core/text_utils.py:6-19 | empty text is not flagged; text containing Ã, Â or U+FFFD is flagged; any other text is flagged exactly when fewer than 70% of its characters are valid |
| TextUtils.SuspiciousIffMarkerChar | core/text_utils.py:14-15 | the suspicious-sequence test holds exactly when Ã, Â or U+FFFD is in the text |
| TextUtils.MarkersAreDecisive | core/text_utils.py:12-16 | empty text is never flagged; text with a marker always is |
| TextUtils.AllValidIsClean | core/text_utils.py:14-19 | text made only of valid characters is never flagged |
| TextUtils.NoValidIsGarbled | core/text_utils.py:17-19 | non-empty text with no valid character is always flagged |
| TextUtils.CleanConcatenation | core/text_utils.py:6-19 | concatenating two texts that are not flagged gives one that is not flagged |
| TextUtils.CleanSentence | core/text_utils.py:6-19 | 「これは正常なテキストです。」 is not flagged |
| TextUtils.GarbledSample | core/text_utils.py:6-19 | "Ã§Â¨Â³" is flagged |
| SeoAioAnalyzer.ScaleTo100 | seo_aio_streamlit.py:251-259 | non-numbers give 0; non-negative numbers land in [0, 100]; negatives and values in (10, 100] pass unchanged |
| SeoAioAnalyzer.ScaleMonotoneWithinScale | seo_aio_streamlit.py:251-259 | scaling is monotone within the 0-10 scale and within the above-10 scale |
| SeoAioAnalyzer.ScaleNotMonotoneAcrossScales | seo_aio_streamlit.py:254-259 | 10 becomes 100 but 11 stays 11 |
| SeoAioAnalyzer.ScaleIdempotentAbove10 | seo_aio_streamlit.py:254-259 | a result above 10 is unchanged by scaling it again |
| SeoAioAnalyzer.ScaleExamples | seo_aio_streamlit.py:251-259 | 7 → 70, 85 → 85, 120 → 100 |
| SeoAioAnalyzer.TitleScore | seo_aio_streamlit.py:555-561 | the score is one of 0, 3, 4, 6, 8, 10; it is 0 exactly for a missing title and 10 exactly for 30-60 characters |
| SeoAioAnalyzer.TitleScoreUnimodal | seo_aio_streamlit.py:555-561 | up to 30 characters a longer title never scores lower; from 60 up a shorter one never does |
| SeoAioAnalyzer.MetaDescriptionScore | seo_aio_streamlit.py:563-569 | the score is one of 0, 3, 4, 6, 8, 10; it is 0 exactly for a missing description and 10 exactly for 120-156 characters |
| SeoAioAnalyzer.MetaDescriptionScoreUnimodal | seo_aio_streamlit.py:563-569 | up to 120 characters longer never scores lower; from 156 up shorter never does |
| SeoAioAnalyzer.TitleAndMetaExamples | seo_aio_streamlit.py:555-569 | a 50-character title scores 10; a 50-character description scores 3 |
| SeoAioAnalyzer.HeadingsScore | seo_aio_streamlit.py:571-576 | the headings score lies in [3, 10] |
| SeoAioAnalyzer.HeadingsFullMarks | seo_aio_streamlit.py:571-576 | full marks exactly for one h1 and at least one h2 |
| SeoAioAnalyzer.AddingH2NeverHurts | seo_aio_streamlit.py:571-576 | adding an h2 to a page without one never lowers the score |
| SeoAioAnalyzer.HeadingsExample | seo_aio_streamlit.py:571-576 | one h1 and two h2 score 10 |
| SeoAioAnalyzer.WordCountBand | seo_aio_streamlit.py:579 | the word-count band is one of 2, 4, 6, 8, 10 |
| SeoAioAnalyzer.TextRatioBand | seo_aio_streamlit.py:580 | the text-ratio band is one of 2, 4, 6, 8, 10 |
| SeoAioAnalyzer.ContentScore | seo_aio_streamlit.py:578-581 | the content score lies in [2, 10] |
| SeoAioAnalyzer.ContentScoreMonotone | seo_aio_streamlit.py:578-581 | more words or a higher text ratio never lower the score |
| SeoAioAnalyzer.ContentExample | seo_aio_streamlit.py:578-581 | 500 words at ratio 20 score 8.6 |
| SeoAioAnalyzer.InternalLinkBand | seo_aio_streamlit.py:584 | the internal-link band is one of 0, 5, 8, 10 |
| SeoAioAnalyzer.ExternalLinkBand | seo_aio_streamlit.py:585 | the external-link band is one of 5, 8, 10 |
| SeoAioAnalyzer.LinksScore | seo_aio_streamlit.py:583-586 | the links score lies in [1.5, 10] |
| SeoAioAnalyzer.LinksScoreMonotone | seo_aio_streamlit.py:583-586 | more links never lower the score; full marks exactly from 5 internal and 3 external links |
| SeoAioAnalyzer.LinksExample | seo_aio_streamlit.py:583-586 | 5 internal and 3 external links score 10 |
| SeoAioAnalyzer.ImagesScore | seo_aio_streamlit.py:588-596 | the score is one of 0, 2, 4, 5, 6, 8, 10; 5 exactly without images; 10 exactly when every image has alt text |
| SeoAioAnalyzer.AltShareBandMonotone | seo_aio_streamlit.py:591-596 | a larger alt-text share never gets a lower band |
| SeoAioAnalyzer.AddingAltTextNeverHurts | seo_aio_streamlit.py:588-596 | giving one more image alt text never lowers the score |
| SeoAioAnalyzer.ImagesExample | seo_aio_streamlit.py:588-596 | 1 image with alt and 4 without score 2 |
| SeoAioAnalyzer.TechnicalScore | seo_aio_streamlit.py:598-600 | the score lies in [5/3, 10] and is 10 exactly when all three signals are present |
| SeoAioAnalyzer.TechnicalExample | seo_aio_streamlit.py:598-600 | no signal at all scores 5/3 |
| SeoAioAnalyzer.DetermineFinalIndustry | seo_aio_streamlit.py:340-369 | a user industry always wins. With detection above 50 it is confirmed at 95 when the detected name contains it (case-insensitively), and otherwise overrides the named detection at 85. With weaker detection it is plain user input at 80. Without one, detection above 70 is taken with source and confidence equal to its confidence, and weaker detection gives 「指定なし」, undeterminable. Detection fields are copied, and confidence stays in [0, 100] |

## Left out

- Fetching pages, HTML parsing, the OpenAI calls, PDF and chart output, the Streamlit UI, `_integrate_results`, `calculate_aio_score` and the constants module: I/O or foreign services.
- `INDUSTRY_CONTENTS` is not part of this model. The table is a parameter whose entries always carry a display name and a keyword list. An entry without `keywords` (`.get` falls back to `[]`) or an empty-dict entry (falsy in the advice) cannot be represented.
- `detect_industry` and the other callers of the detector are not part of this model.
- Text.Lower: lower-cases only `A`-`Z`. Python's `str.lower` also maps other scripts, full-width Latin letters and signs such as the Kelvin sign U+212A, which becomes ASCII `k`. What matters is mostly the page text: in Python `"\u212AYC"` contains the keyword `KYC` after lowering, in the model it does not.
- Floating point: every fractional value is an exact `real`, so IEEE rounding is not modelled. This covers the confidence, the coverage percentage, the 0.4/0.3/0.7 weights, the image ratio and the mean of the technical score. `ContentExample` gives exactly 8.6, where Python gives the nearest double.
- SeoAioAnalyzer.ScaleTo100: the input is a number or "not a number". Python booleans, which count as ints (`True` scales to 10), NaN, and the int/float distinction of the result are not modelled.
- SeoAioAnalyzer.DetermineFinalIndustry: the `source` label is a tag, not text. The label wording and the `%.1f` rendering of the confidence inside it are not modelled.
- SeoAioAnalyzer.TechnicalScore: the three arguments are booleans. Python's truthiness of arbitrary values (a canonical URL string, say) is reduced to "present or not".
- `None` arguments are not modelled. The callers in `seo_aio_streamlit.py:282-290` always pass a string, using `""` for a missing title or description. The score helpers treat `None` like `""` (`if not title`), but `analyze_industries` would render `None` as the text "None" in the searched text.
- The repository's detector test runs the whole built-in table on a concrete page. That instance is not proved; only the general properties above are.
- The default `meta_description=""` of `analyze_industries` is an ordinary parameter.
