/**
 * The string operations the pages rely on: `toLowerCase`, `includes` and
 * `trim`. Strings are sequences of characters; lower-casing is the ASCII
 * fold, which keeps the length of the string.
 */
module Text {

  /** `c.toLowerCase()` restricted to ASCII: A-Z map to a-z, everything else is kept. */
  function LowerChar(c: char): char {
    if 'A' <= c <= 'Z' then (c as int - 'A' as int + 'a' as int) as char else c
  }

  /** `s.toLowerCase()`, character by character. */
  function Lower(s: string): string {
    seq(|s|, i requires 0 <= i < |s| => LowerChar(s[i]))
  }

  /** `t` occurs in `s` starting at index `i`. */
  predicate OccursAt(s: string, t: string, i: int) {
    0 <= i && i + |t| <= |s| && s[i..i + |t|] == t
  }

  /** `s.includes(t)`: `t` occurs as a contiguous slice of `s`. */
  predicate Contains(s: string, t: string) {
    exists i :: 0 <= i <= |s| && OccursAt(s, t, i)
  }

  /** `field.toLowerCase().includes(term.toLowerCase())`, the search test of every admin table. */
  predicate IncludesIgnoringCase(field: string, term: string) {
    Contains(Lower(field), Lower(term))
  }

  /**
   * The characters `String.prototype.trim` removes: ECMAScript's WhiteSpace
   * (TAB, VT, FF, SP, NBSP, ZWNBSP and the Unicode space separators) and
   * LineTerminator (LF, CR, LS, PS).
   */
  predicate IsWhitespace(c: char) {
    || '\t' <= c <= '\r'
    || c == ' '
    || c == '\U{00A0}'
    || c == '\U{1680}'
    || '\U{2000}' <= c <= '\U{200A}'
    || c == '\U{2028}'
    || c == '\U{2029}'
    || c == '\U{202F}'
    || c == '\U{205F}'
    || c == '\U{3000}'
    || c == '\U{FEFF}'
  }

  /** Every character of `s` is whitespace (true of the empty string). */
  predicate AllWhitespace(s: string) {
    forall i :: 0 <= i < |s| ==> IsWhitespace(s[i])
  }

  function TrimStart(s: string): string {
    if |s| > 0 && IsWhitespace(s[0]) then TrimStart(s[1..]) else s
  }

  function TrimEnd(s: string): string {
    if |s| > 0 && IsWhitespace(s[|s| - 1]) then TrimEnd(s[..|s| - 1]) else s
  }

  /** `s.trim()`. */
  function Trim(s: string): string {
    TrimEnd(TrimStart(s))
  }

  /** `!s.trim()`: the trimmed string is the empty, falsy, string. */
  predicate IsBlank(s: string) {
    Trim(s) == ""
  }

  /** Searching for the empty string always succeeds (`s.includes('')`). */
  lemma ContainsEmpty(s: string)
    ensures Contains(s, "")
  {
    assert OccursAt(s, "", 0);
  }

  /** `TrimStart` drops exactly a whitespace prefix: what remains is empty or starts with a non-blank. */
  lemma {:induction false} TrimStartShape(s: string)
    ensures TrimStart(s) == [] <==> AllWhitespace(s)
    ensures TrimStart(s) != [] ==> !IsWhitespace(TrimStart(s)[0])
  {
    if |s| > 0 && IsWhitespace(s[0]) {
      TrimStartShape(s[1..]);
      if AllWhitespace(s[1..]) {
        forall i | 0 <= i < |s| ensures IsWhitespace(s[i]) {
          if i > 0 { assert s[i] == s[1..][i - 1]; }
        }
      }
      if AllWhitespace(s) {
        forall i | 0 <= i < |s| - 1 ensures IsWhitespace(s[1..][i]) {
          assert s[1..][i] == s[i + 1];
        }
      }
    } else if |s| > 0 {
      assert !IsWhitespace(s[0]);
    }
  }

  /** `TrimEnd` never empties a string whose first character is not whitespace. */
  lemma {:induction false} TrimEndKeepsNonBlankHead(s: string)
    requires s != [] && !IsWhitespace(s[0])
    ensures TrimEnd(s) != []
  {
    if IsWhitespace(s[|s| - 1]) {
      assert |s| > 1;
      assert s[..|s| - 1][0] == s[0];
      TrimEndKeepsNonBlankHead(s[..|s| - 1]);
    }
  }

  /** `!s.trim()` holds exactly when every character of `s` is whitespace. */
  lemma BlankIffAllWhitespace(s: string)
    ensures IsBlank(s) <==> AllWhitespace(s)
  {
    TrimStartShape(s);
    if TrimStart(s) != [] {
      TrimEndKeepsNonBlankHead(TrimStart(s));
    }
  }

  /** A search is case-insensitive: "Payment delay issue" is found by "PAYMENT". */
  lemma SearchIgnoresCaseExample()
    ensures IncludesIgnoringCase("Payment delay issue", "PAYMENT")
  {
    var field, term := Lower("Payment delay issue"), Lower("PAYMENT");
    assert term == "payment";
    assert field[0..7] == "payment";
    assert OccursAt(field, term, 0);
  }
}
