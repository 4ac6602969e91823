/** The one-sentence advice shown next to the keyword-coverage score. The table of
    industries is a parameter: the advice depends on it only through whether the
    industry has an entry and, if so, its display name. */
module AdviceUtils {
  import opened Text
  import opened IndustryDetection

  const NothingMissing: string := "特に不足している重要キーワードは見当たりません。"
  const ListSeparator: string := "、"
  const KnownClosing: string := "』に関する情報を追加すると効果的です。"
  const GenericOpening: string := "関連性の高い内容（例: "
  const GenericClosing: string := "）をページに盛り込むことを検討してください。"

  predicate StartsWith(s: string, prefix: string) {
    |prefix| <= |s| && s[..|prefix|] == prefix
  }

  predicate EndsWith(s: string, suffix: string) {
    |suffix| <= |s| && s[|s| - |suffix|..] == suffix
  }

  /** generate_actionable_advice: the fixed sentence when nothing is missing;
      otherwise a sentence that opens with the industry's display name and ends with
      the known-industry closing when the table has the industry, and a generic one
      when it does not. */
  function GenerateActionableAdvice(missingKeywords: seq<string>, industry: string, contents: ContentTable): (r: string)
    ensures missingKeywords == [] ==> r == NothingMissing
    ensures missingKeywords != [] && industry in contents ==>
      StartsWith(r, contents[industry].displayName) && EndsWith(r, KnownClosing)
    ensures missingKeywords != [] && industry !in contents ==>
      StartsWith(r, GenericOpening) && EndsWith(r, GenericClosing)
  {
    if missingKeywords == [] then NothingMissing
    else
      var joined := Join(ListSeparator, missingKeywords);
      if industry in contents then
        var r := contents[industry].displayName + "向けに『" + joined + KnownClosing;
        assert r[..|contents[industry].displayName|] == contents[industry].displayName;
        assert r[|r| - |KnownClosing|..] == KnownClosing;
        r
      else
        var r := GenericOpening + joined + GenericClosing;
        assert r[..|GenericOpening|] == GenericOpening;
        assert r[|r| - |GenericClosing|..] == GenericClosing;
        r
  }

  /** The fixed "nothing missing" sentence is given exactly when no keyword is missing. */
  lemma NothingMissingIffNoKeywords(missingKeywords: seq<string>, industry: string, contents: ContentTable)
    ensures GenerateActionableAdvice(missingKeywords, industry, contents) == NothingMissing <==> missingKeywords == []
  {
    var r := GenerateActionableAdvice(missingKeywords, industry, contents);
    if missingKeywords != [] {
      assert |r| >= 2;
      assert r[|r| - 2] != NothingMissing[|NothingMissing| - 2];
    }
  }

  /** When keywords are missing, the advice names every one of them. */
  lemma AdviceNamesEveryMissingKeyword(missingKeywords: seq<string>, industry: string, contents: ContentTable, i: nat)
    requires i < |missingKeywords|
    ensures Contains(GenerateActionableAdvice(missingKeywords, industry, contents), missingKeywords[i])
  {
    var joined := Join(ListSeparator, missingKeywords);
    JoinContainsEach(ListSeparator, missingKeywords, i);
    if industry in contents {
      var head := contents[industry].displayName + "向けに『";
      ContainsRight(head, joined, missingKeywords[i]);
      ContainsLeft(head + joined, "』に関する情報を追加すると効果的です。", missingKeywords[i]);
    } else {
      ContainsRight("関連性の高い内容（例: ", joined, missingKeywords[i]);
      ContainsLeft("関連性の高い内容（例: " + joined, "）をページに盛り込むことを検討してください。", missingKeywords[i]);
    }
  }

  /** For a known industry with missing keywords, the advice names the industry by
      its display name. */
  lemma AdviceNamesKnownIndustry(missingKeywords: seq<string>, industry: string, contents: ContentTable)
    requires missingKeywords != [] && industry in contents
    ensures Contains(GenerateActionableAdvice(missingKeywords, industry, contents), contents[industry].displayName)
  {
    var name := contents[industry].displayName;
    var r := GenerateActionableAdvice(missingKeywords, industry, contents);
    assert StartsWith(r, name);
    assert OccursAt(r, name, 0);
  }

  /** The advice depends on the table only through the industry's display name: the
      recommended keywords and every other entry play no part. */
  lemma AdviceDependsOnlyOnDisplayName(missingKeywords: seq<string>, industry: string, c1: ContentTable, c2: ContentTable)
    requires (industry in c1) == (industry in c2)
    requires industry in c1 ==> c1[industry].displayName == c2[industry].displayName
    ensures GenerateActionableAdvice(missingKeywords, industry, c1) == GenerateActionableAdvice(missingKeywords, industry, c2)
  {
  }

  /** Advice for an industry without an entry is the same for every table, and it
      is never the known-industry sentence for any display name. */
  lemma UnknownIndustryAdvice(missingKeywords: seq<string>, industry: string, contents: ContentTable, known: ContentTable)
    requires missingKeywords != [] && industry !in contents && industry in known
    ensures GenerateActionableAdvice(missingKeywords, industry, contents) ==
            GenerateActionableAdvice(missingKeywords, industry, map[])
    ensures GenerateActionableAdvice(missingKeywords, industry, contents) !=
            GenerateActionableAdvice(missingKeywords, industry, known)
  {
    var joined := Join(ListSeparator, missingKeywords);
    var generic := GenerateActionableAdvice(missingKeywords, industry, contents);
    var specific := GenerateActionableAdvice(missingKeywords, industry, known);
    var tail := "』に関する情報を追加すると効果的です。";
    assert specific[|specific| - 1] == tail[|tail| - 1];
    var genericTail := "）をページに盛り込むことを検討してください。";
    assert generic[|generic| - 1] == genericTail[|genericTail| - 1];
    assert |generic| >= 2 && |specific| >= 2;
    assert specific[|specific| - 2] == 'す';
    assert generic[|generic| - 2] == 'い';
  }
}
