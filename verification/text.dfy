/**
 * The parts of JavaScript's string semantics the handlers rely on: ASCII
 * character classes of non-unicode regular expressions, `toUpperCase` and
 * `toLowerCase` on the letters the reports use (ASCII and Turkish), the
 * case-insensitive comparison of a `/i` pattern, `includes`, `trim`, and
 * decimal digit strings.
 */
module Text {

  import opened Wrappers

  // ---------------------------------------------------------------------
  // Character classes
  // ---------------------------------------------------------------------

  /** `\d` of a JavaScript regular expression: an ASCII digit. */
  predicate IsDigit(c: char) {
    '0' <= c <= '9'
  }

  /** `\w` of a non-unicode JavaScript regular expression; `\b` is defined from it. */
  predicate IsWordChar(c: char) {
    ('a' <= c <= 'z') || ('A' <= c <= 'Z') || IsDigit(c) || c == '_'
  }

  /** ECMAScript WhiteSpace and LineTerminator code points: what `trim` removes. */
  predicate IsJsWhitespace(c: char) {
    c == '\t' || c == '\n' || c == '\U{000B}' || c == '\U{000C}' || c == '\r'
    || c == ' ' || c == '\U{00A0}' || c == '\U{1680}'
    || ('\U{2000}' <= c <= '\U{200A}')
    || c == '\U{2028}' || c == '\U{2029}' || c == '\U{202F}' || c == '\U{205F}'
    || c == '\U{3000}' || c == '\U{FEFF}'
  }

  /** Every character of `s` is white space (so `s.trim()` is empty and falsy). */
  predicate IsBlank(s: string) {
    forall i :: 0 <= i < |s| ==> IsJsWhitespace(s[i])
  }

  // ---------------------------------------------------------------------
  // String.prototype.trim
  // ---------------------------------------------------------------------

  function TrimStart(s: string): (r: string)
    ensures |r| <= |s| && r == s[|s| - |r|..]
    ensures r == [] || !IsJsWhitespace(r[0])
    ensures forall i :: 0 <= i < |s| - |r| ==> IsJsWhitespace(s[i])
  {
    if s == [] || !IsJsWhitespace(s[0]) then s else TrimStart(s[1..])
  }

  function TrimEnd(s: string): (r: string)
    ensures |r| <= |s| && r == s[..|r|]
    ensures r == [] || !IsJsWhitespace(r[|r| - 1])
    ensures forall i :: |r| <= i < |s| ==> IsJsWhitespace(s[i])
  {
    if s == [] || !IsJsWhitespace(s[|s| - 1]) then s else TrimEnd(s[..|s| - 1])
  }

  /** `s.trim()`: the slice of `s` between its leading and trailing white space. */
  function Trim(s: string): (r: string)
    ensures r == [] <==> IsBlank(s)
    ensures r != [] ==> !IsJsWhitespace(r[0]) && !IsJsWhitespace(r[|r| - 1])
  {
    TrimEnd(TrimStart(s))
  }

  // ---------------------------------------------------------------------
  // Case mapping (ASCII and the Turkish letters ç ğ ı ö ş ü / Ç Ğ İ Ö Ş Ü)
  // ---------------------------------------------------------------------

  /** `String(c).toUpperCase()` for the modelled letters; note 'ı' and 'i' both become 'I'. */
  function UpperChar(c: char): char {
    if 'a' <= c <= 'z' then (c as int - 32) as char
    else if c == '\U{0131}' then 'I'          // ı
    else if c == '\U{00E7}' then '\U{00C7}'   // ç
    else if c == '\U{011F}' then '\U{011E}'   // ğ
    else if c == '\U{00F6}' then '\U{00D6}'   // ö
    else if c == '\U{015F}' then '\U{015E}'   // ş
    else if c == '\U{00FC}' then '\U{00DC}'   // ü
    else c
  }

  /**
   * `String(c).toLowerCase()` for the modelled letters. Without a locale,
   * 'İ' lowers to two code points: 'i' followed by U+0307 COMBINING DOT ABOVE.
   */
  function LowerChars(c: char): (r: string)
    ensures 1 <= |r| <= 2
  {
    if 'A' <= c <= 'Z' then [(c as int + 32) as char]
    else if c == '\U{0130}' then ['i', '\U{0307}']   // İ
    else if c == '\U{00C7}' then ['\U{00E7}']         // Ç
    else if c == '\U{011E}' then ['\U{011F}']         // Ğ
    else if c == '\U{00D6}' then ['\U{00F6}']         // Ö
    else if c == '\U{015E}' then ['\U{015F}']         // Ş
    else if c == '\U{00DC}' then ['\U{00FC}']         // Ü
    else [c]
  }

  /** `s.toUpperCase()`: character by character, the length never changes. */
  function Upper(s: string): (r: string)
    ensures |r| == |s|
    ensures forall i :: 0 <= i < |s| ==> r[i] == UpperChar(s[i])
  {
    seq(|s|, i requires 0 <= i < |s| => UpperChar(s[i]))
  }

  /** `s.toLowerCase()`: each character lowers to one or two characters. */
  function Lower(s: string): (r: string)
    ensures |s| <= |r| <= 2 * |s|
  {
    if s == [] then [] else LowerChars(s[0]) + Lower(s[1..])
  }

  /**
   * Canonicalize of a non-unicode case-insensitive JavaScript pattern:
   * the upper-case form, unless that would map a non-ASCII character to an
   * ASCII one (so 'ı' stays 'ı' and never equals 'I' or 'i').
   */
  function Canon(c: char): char {
    var u := UpperChar(c);
    if c as int >= 128 && u as int < 128 then c else u
  }

  // ---------------------------------------------------------------------
  // String.prototype.includes
  // ---------------------------------------------------------------------

  /** `sub` occurs in `s` starting at index `i`. */
  predicate OccursAt(s: string, sub: string, i: int) {
    0 <= i && i + |sub| <= |s| && s[i..i + |sub|] == sub
  }

  /** `s.includes(sub)`, scanning left to right. */
  function Contains(s: string, sub: string): (b: bool)
    ensures b <==> exists i :: OccursAt(s, sub, i)
    decreases |s|
  {
    if |s| < |sub| then false
    else if s[..|sub|] == sub then
      assert OccursAt(s, sub, 0);
      true
    else
      var rest := Contains(s[1..], sub);
      assert rest ==> exists i :: OccursAt(s, sub, i) by {
        if rest {
          var i :| OccursAt(s[1..], sub, i);
          assert s[1..][i..i + |sub|] == s[i + 1..i + 1 + |sub|];
          assert OccursAt(s, sub, i + 1);
        }
      }
      assert (exists i :: OccursAt(s, sub, i)) ==> rest by {
        if exists i :: OccursAt(s, sub, i) {
          var i :| OccursAt(s, sub, i);
          assert i != 0;
          assert s[1..][i - 1..i - 1 + |sub|] == s[i..i + |sub|];
          assert OccursAt(s[1..], sub, i - 1);
        }
      }
      rest
  }

  // ---------------------------------------------------------------------
  // Decimal digit strings
  // ---------------------------------------------------------------------

  predicate AllDigits(s: string) {
    forall i :: 0 <= i < |s| ==> IsDigit(s[i])
  }

  /** `Number(s)` for a string of ASCII digits. */
  function DecimalValue(s: string): nat
    requires AllDigits(s)
  {
    if s == [] then 0
    else DecimalValue(s[..|s| - 1]) * 10 + (s[|s| - 1] as int - '0' as int)
  }

  function DigitChar(d: nat): (c: char)
    requires d < 10
    ensures IsDigit(c) && c as int - '0' as int == d
  {
    ('0' as int + d) as char
  }

  /** `String(n)` for a natural number: its shortest decimal spelling. */
  function NatToString(n: nat): (r: string)
    ensures 1 <= |r| && AllDigits(r)
    ensures |r| > 1 ==> r[0] != '0'
  {
    if n < 10 then [DigitChar(n)] else NatToString(n / 10) + [DigitChar(n % 10)]
  }

  /** Reading back the spelling of `n` gives `n`. */
  lemma {:induction false} NatToStringRoundTrip(n: nat)
    ensures DecimalValue(NatToString(n)) == n
  {
    var r := NatToString(n);
    if n >= 10 {
      var p := NatToString(n / 10);
      assert r[..|r| - 1] == p;
      NatToStringRoundTrip(n / 10);
    }
  }

  /** Distinct numbers have distinct spellings (so `p1`, `p2`, ... never collide). */
  lemma NatToStringInjective(m: nat, n: nat)
    requires NatToString(m) == NatToString(n)
    ensures m == n
  {
    NatToStringRoundTrip(m);
    NatToStringRoundTrip(n);
  }

  // ---------------------------------------------------------------------
  // First match of a year pattern: (19|20)\d{2} and 20\d{2}
  // ---------------------------------------------------------------------

  /** A year pattern `(c1|c2|...)\d\d` matches the four characters of `s` at `i`. */
  predicate YearAt(s: string, centuries: set<string>, i: int) {
    0 <= i && i + 4 <= |s| && s[i..i + 2] in centuries && IsDigit(s[i + 2]) && IsDigit(s[i + 3])
  }

  /** No match of the year pattern starts before index `k`. */
  predicate NoYearBefore(s: string, centuries: set<string>, k: int) {
    forall j :: 0 <= j < k ==> !YearAt(s, centuries, j)
  }

  function FirstYearFrom(s: string, centuries: set<string>, k: nat): (r: Option<string>)
    requires k <= |s| && NoYearBefore(s, centuries, k)
    ensures r.None? <==> forall j :: k <= j ==> !YearAt(s, centuries, j)
    ensures r.Some? ==> exists i :: YearAt(s, centuries, i) && NoYearBefore(s, centuries, i) && r.value == s[i..i + 4]
    decreases |s| - k
  {
    if k + 4 > |s| then None
    else if YearAt(s, centuries, k) then Some(s[k..k + 4])
    else FirstYearFrom(s, centuries, k + 1)
  }

  /**
   * `s.match(/(c1|c2|...)\d{2}/)[0]`: the leftmost four characters matching
   * the year pattern, or None when nothing matches.
   */
  function FirstYear(s: string, centuries: set<string>): (r: Option<string>)
    ensures r.None? <==> forall j :: !YearAt(s, centuries, j)
    ensures r.Some? ==> exists i :: YearAt(s, centuries, i) && NoYearBefore(s, centuries, i) && r.value == s[i..i + 4]
  {
    FirstYearFrom(s, centuries, 0)
  }

}
