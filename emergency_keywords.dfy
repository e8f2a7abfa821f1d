/** data/emergencyKeywords.ts: the crisis keyword lists and `detectEmergency`,
    which flags a text when its lower-cased form contains a keyword. */
module EmergencyKeywords {

  import Text

  /** The Vietnamese keywords (precomposed, Unicode NFC). */
  const Vietnamese: seq<string> := [
    "mu\U{1ED1}n ch\U{1EBF}t", "t\U{1EF1} t\U{1EED}", "k\U{1EBF}t th\U{FA}c cu\U{1ED9}c \U{111}\U{1EDD}i",
    "kh\U{F4}ng mu\U{1ED1}n s\U{1ED1}ng", "tuy\U{1EC7}t v\U{1ECD}ng", "kh\U{F4}ng c\U{F2}n hy v\U{1ECD}ng",
    "kh\U{F4}ng ch\U{1ECB}u n\U{1ED5}i", "qu\U{E1} t\U{1EA3}i", "s\U{1EE5}p \U{111}\U{1ED5}", "panic",
    "ho\U{1EA3}ng lo\U{1EA1}n", "tim \U{111}\U{1EAD}p nhanh", "kh\U{F3} th\U{1EDF}", "b\U{1EBF} t\U{1EAF}c",
    "c\U{1EE9}u t\U{F4}i", "\U{111}au kh\U{1ED5} t\U{1ED9}t c\U{F9}ng"
  ]

  const English: seq<string> := [
    "want to die", "kill myself", "end it all", "suicide",
    "can't take this", "give up", "no hope", "panic attack",
    "chest pain", "can't breathe", "collapsing", "help me"
  ]

  /** `[...vietnamese, ...english]`. */
  const Keywords: seq<string> := Vietnamese + English

  /** `keywords.some(keyword => lowerText.includes(keyword))`, left to right. */
  function AnyIncluded(keywords: seq<string>, lowerText: string): (r: bool)
    ensures r <==> exists k :: k in keywords && Text.Includes(lowerText, k)
  {
    if keywords == [] then false
    else if Text.Includes(lowerText, keywords[0]) then
      assert keywords[0] in keywords;
      true
    else
      var rest := AnyIncluded(keywords[1..], lowerText);
      assert forall k :: k in keywords ==> k == keywords[0] || k in keywords[1..];
      assert forall k :: k in keywords[1..] ==> k in keywords;
      rest
  }

  /** `detectEmergency`: never for the empty text; otherwise exactly when the
      lower-cased text contains one of the keywords. */
  function DetectEmergency(text: string): (r: bool)
    ensures text == [] ==> !r
    ensures r <==> text != [] && exists k :: k in Keywords && Text.Includes(Text.ToLower(text), k)
  {
    text != [] && AnyIncluded(Keywords, Text.ToLower(text))
  }

  /** `s` is already in lower case, checked character by character. */
  predicate IsLower(s: string) {
    s == [] || (Text.LowerChar(s[0]) == s[0] && IsLower(s[1..]))
  }

  lemma {:induction false} LowerOfLower(s: string)
    requires IsLower(s)
    ensures Text.ToLower(s) == s
  {
    if s != [] {
      LowerOfLower(s[1..]);
      assert Text.ToLower(s) == [s[0]] + Text.ToLower(s[1..]);
    }
  }

  /** Lower-casing the input first changes nothing. */
  lemma DetectionIgnoresCase(text: string)
    ensures DetectEmergency(Text.ToLower(text)) == DetectEmergency(text)
  {
    var l := Text.ToLower(text);
    forall i | 0 <= i < |l| ensures Text.LowerChar(l[i]) == l[i] {
      Text.LowerCharIdempotent(text[i]);
    }
    assert Text.ToLower(l) == l;
  }

  /** A keyword written in lower case, as all of them are, is flagged on its
      own. */
  lemma KeywordFlagged(k: string)
    requires k in Keywords && IsLower(k)
    ensures DetectEmergency(k)
  {
    LowerOfLower(k);
    assert Text.IsPrefix(k, k);
  }

  /** "muốn chết" is flagged. */
  lemma WantToDieFlagged()
    ensures DetectEmergency("mu\U{1ED1}n ch\U{1EBF}t")
  {
    assert IsLower("mu\U{1ED1}n ch\U{1EBF}t");
    KeywordFlagged(Vietnamese[0]);
  }

  /** Lower-casing keeps an occurrence of `t` in `u`. */
  lemma LowerKeepsOccurrence(u: string, t: string, i: int)
    requires Text.OccursAt(u, t, i)
    ensures Text.OccursAt(Text.ToLower(u), Text.ToLower(t), i)
  {
    var lu, lt := Text.ToLower(u), Text.ToLower(t);
    forall j | 0 <= j < |t| ensures lu[i + j] == lt[j] {
      assert u[i + j] == u[i..i + |t|][j];
    }
  }

  /** An occurrence of `k` inside an occurrence of `t` is an occurrence in `u`. */
  lemma OccursTransitive(u: string, t: string, k: string, i: int, j: int)
    requires Text.OccursAt(u, t, i) && Text.OccursAt(t, k, j)
    ensures Text.OccursAt(u, k, i + j)
  {
    forall m | 0 <= m < |k| ensures u[i + j + m] == k[m] {
      assert u[i + j + m] == u[i..i + |t|][j + m];
      assert t[j + m] == t[j..j + |k|][m];
    }
  }

  /** A text that contains a flagged text is flagged. */
  lemma FlaggedInsideIsFlagged(t: string, u: string)
    requires DetectEmergency(t) && Text.Includes(u, t)
    ensures DetectEmergency(u)
  {
    var k :| k in Keywords && Text.Includes(Text.ToLower(t), k);
    Text.IncludesIffOccurs(u, t);
    var i :| Text.OccursAt(u, t, i);
    Text.IncludesIffOccurs(Text.ToLower(t), k);
    var j :| Text.OccursAt(Text.ToLower(t), k, j);
    LowerKeepsOccurrence(u, t, i);
    OccursTransitive(Text.ToLower(u), Text.ToLower(t), k, i, j);
    Text.IncludesIffOccurs(Text.ToLower(u), k);
  }
}
