/** The text clean-up that both services apply to identifiers they receive. */
module Text {

  /** Characters with the Unicode White_Space property, which Rust's `trim` removes. */
  predicate IsWhitespace(c: char) {
    || '\t' <= c <= '\r'
    || c == ' '
    || c == '\U{0085}'
    || c == '\U{00A0}'
    || c == '\U{1680}'
    || '\U{2000}' <= c <= '\U{200A}'
    || c == '\U{2028}'
    || c == '\U{2029}'
    || c == '\U{202F}'
    || c == '\U{205F}'
    || c == '\U{3000}'
  }

  /** Python's `str.strip` also removes the four information separators. */
  predicate IsPythonSpace(c: char) {
    IsWhitespace(c) || '\U{001C}' <= c <= '\U{001F}'
  }

  function Strip(s: string, blank: char -> bool): (r: string)
    ensures |r| <= |s|
    ensures r != "" ==> !blank(r[0]) && !blank(r[|r| - 1])
    ensures forall c :: c in r ==> c in s
    decreases |s|
  {
    if s == "" then s
    else if blank(s[0]) then Strip(s[1..], blank)
    else if blank(s[|s| - 1]) then Strip(s[..|s| - 1], blank)
    else s
  }

  predicate AllBlank(s: string, blank: char -> bool) {
    forall c :: c in s ==> blank(c)
  }

  /** Stripping takes blanks off the two ends and nothing else. */
  lemma {:induction false} StripTakesTheEnds(s: string, blank: char -> bool) returns (front: string, back: string)
    ensures s == front + Strip(s, blank) + back && AllBlank(front, blank) && AllBlank(back, blank)
    decreases |s|
  {
    front, back := "", "";
    if s != "" && blank(s[0]) {
      front, back := StripTakesTheEnds(s[1..], blank);
      front := [s[0]] + front;
      assert s == [s[0]] + s[1..];
    } else if s != "" && blank(s[|s| - 1]) {
      front, back := StripTakesTheEnds(s[..|s| - 1], blank);
      back := back + [s[|s| - 1]];
      assert s == s[..|s| - 1] + [s[|s| - 1]];
    }
  }

  function Trim(s: string): (r: string)
    ensures |r| <= |s|
    ensures Trimmed(r)
  {
    Strip(s, IsWhitespace)
  }

  predicate Trimmed(s: string) {
    s != "" ==> !IsWhitespace(s[0]) && !IsWhitespace(s[|s| - 1])
  }

  /** Trimming touches exactly the strings with blanks at an end. */
  lemma TrimFixpoint(s: string)
    ensures Trim(s) == s <==> Trimmed(s)
  {
  }
}
