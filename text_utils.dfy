/** The heuristic that flags garbled ("mojibake") Japanese text: a telltale
    character of a mis-decoded UTF-8 byte sequence, or too few characters from the
    printable ASCII, CJK punctuation, kana and common kanji ranges. */
module TextUtils {
  import opened Text
  import opened Seqs

  /** Characters whose presence alone marks the text as garbled: U+00C3 'Ã',
      U+00C2 'Â' and the replacement character U+FFFD. */
  const SuspiciousSequences: seq<string> := ["Ã", "Â", "�"]

  /** The character class [ -~　-ヿ一-鿿]. */
  predicate IsValidChar(c: char) {
    (' ' <= c <= '~') || ('　' <= c <= 'ヿ') || ('一' <= c <= '鿿')
  }

  function ValidChar(): char -> bool {
    c => IsValidChar(c)
  }

  /** The number of characters of s in the valid class. */
  function ValidCount(s: string): (n: nat)
    ensures n <= |s|
  {
    |Filter(s, ValidChar())|
  }

  predicate HasSuspicious(text: string) {
    exists sub :: sub in SuspiciousSequences && Contains(text, sub)
  }

  /** detect_mojibake: empty text is clean, a suspicious marker flags the text, and
      otherwise the text is flagged exactly when fewer than 70% of its characters are
      valid (valid_count / len(text) < 0.7, compared exactly). */
  function DetectMojibake(text: string): (garbled: bool)
    ensures text == [] ==> !garbled
    ensures ('Ã' in text || 'Â' in text || '�' in text) ==> garbled
    ensures !('Ã' in text || 'Â' in text || '�' in text) ==>
      (garbled <==> text != [] && 10 * ValidCount(text) < 7 * |text|)
  {
    SuspiciousIffMarkerChar(text);
    if text == [] then false
    else if HasSuspicious(text) then true
    else 10 * ValidCount(text) < 7 * |text|
  }

  // ---------------------------------------------------------------------------
  // Properties
  // ---------------------------------------------------------------------------

  /** The suspicious markers are single characters, none of them in the valid class. */
  lemma SuspiciousIffMarkerChar(text: string)
    ensures HasSuspicious(text) <==> 'Ã' in text || 'Â' in text || '�' in text
  {
    ContainsChar(text, 'Ã');
    ContainsChar(text, 'Â');
    ContainsChar(text, '�');
    assert SuspiciousSequences == [['Ã'], ['Â'], ['�']];
  }

  /** Empty text is never flagged; text with a marker always is. */
  lemma MarkersAreDecisive(text: string)
    ensures text == [] ==> !DetectMojibake(text)
    ensures ('Ã' in text || 'Â' in text || '�' in text) ==> DetectMojibake(text)
  {
    SuspiciousIffMarkerChar(text);
  }

  /** Text made only of valid characters is never flagged. */
  lemma AllValidIsClean(text: string)
    requires forall i :: 0 <= i < |text| ==> IsValidChar(text[i])
    ensures !DetectMojibake(text)
  {
    SuspiciousIffMarkerChar(text);
    FilterAll(text, ValidChar());
  }

  /** Non-empty text without a valid character is always flagged. */
  lemma NoValidIsGarbled(text: string)
    requires text != []
    requires forall i :: 0 <= i < |text| ==> !IsValidChar(text[i])
    ensures DetectMojibake(text)
  {
    FilterNone(text, ValidChar());
  }

  /** The verdict on two texts joined together: if neither is flagged, neither is
      the concatenation. */
  lemma CleanConcatenation(s: string, t: string)
    requires !DetectMojibake(s) && !DetectMojibake(t)
    ensures !DetectMojibake(s + t)
  {
    SuspiciousIffMarkerChar(s);
    SuspiciousIffMarkerChar(t);
    SuspiciousIffMarkerChar(s + t);
    FilterAppend(s, t, ValidChar());
  }

  /** The verdict for a clean Japanese sentence. */
  lemma CleanSentence()
    ensures !DetectMojibake("これは正常なテキストです。")
  {
    AllValidIsClean("これは正常なテキストです。");
  }

  /** The verdict for UTF-8 bytes of Japanese read as Latin-1. */
  lemma GarbledSample()
    ensures DetectMojibake("Ã§Â¨Â³")
  {
    MarkersAreDecisive("Ã§Â¨Â³");
  }
}
