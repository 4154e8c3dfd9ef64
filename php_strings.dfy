/**
 * The few PHP string semantics the plugin's decisions rest on: `empty()` and
 * truthiness of strings, `trim()` with its default character list, and the
 * decimal text PHP produces when an integer is concatenated to a string.
 */
module PhpStrings {

  /** PHP `empty($s)` for a string: true for "" and for "0". */
  predicate IsEmpty(s: string) {
    s == "" || s == "0"
  }

  /** PHP truthiness of a string (`if ($s)`): every string except "" and "0". */
  predicate IsTruthy(s: string) {
    !IsEmpty(s)
  }

  /** The characters `trim()` strips by default: space, tab, LF, CR, NUL and vertical tab. */
  predicate IsTrimChar(c: char) {
    c == ' ' || c == '\t' || c == '\n' || c == '\r' || c == '\0' || c == '\U{B}'
  }

  predicate AllTrimChars(s: string) {
    forall i :: 0 <= i < |s| ==> IsTrimChar(s[i])
  }

  /** `ltrim()`: drops the longest prefix of trim characters. */
  function TrimLeft(s: string): (r: string)
    ensures |r| <= |s| && r == s[|s| - |r|..]
    ensures r == [] || !IsTrimChar(r[0])
    ensures AllTrimChars(s[..|s| - |r|])
  {
    if s != [] && IsTrimChar(s[0]) then TrimLeft(s[1..]) else s
  }

  /** `rtrim()`: drops the longest suffix of trim characters. */
  function TrimRight(s: string): (r: string)
    ensures |r| <= |s| && r == s[..|r|]
    ensures r == [] || !IsTrimChar(r[|r| - 1])
    ensures AllTrimChars(s[|r|..])
  {
    if s != [] && IsTrimChar(s[|s| - 1]) then TrimRight(s[..|s| - 1]) else s
  }

  /**
   * `r` is what is left of `s` after removing the `k` trim characters at its
   * start and the trim characters after position `k + |r|`; `r` neither starts
   * nor ends with a trim character.
   */
  predicate TrimmedFrom(s: string, k: nat, r: string) {
    && k + |r| <= |s|
    && r == s[k..k + |r|]
    && AllTrimChars(s[..k])
    && AllTrimChars(s[k + |r|..])
    && (r == [] || (!IsTrimChar(r[0]) && !IsTrimChar(r[|r| - 1])))
  }

  /** What `ltrim()` then `rtrim()` leave of `s` is `s` trimmed at both ends. */
  lemma TrimParts(s: string, l: string, r: string)
    requires |l| <= |s| && l == s[|s| - |l|..] && (l == [] || !IsTrimChar(l[0]))
    requires AllTrimChars(s[..|s| - |l|])
    requires |r| <= |l| && r == l[..|r|] && (r == [] || !IsTrimChar(r[|r| - 1]))
    requires AllTrimChars(l[|r|..])
    ensures TrimmedFrom(s, |s| - |l|, r)
  {
    SuffixSlices(s, |s| - |l|, l, |r|);
    assert r != [] ==> r[0] == l[0];
  }

  /** Slicing the suffix `l` of `s` that starts at `k` is slicing `s` itself from `k` on. */
  lemma SuffixSlices(s: string, k: nat, l: string, j: nat)
    requires k <= |s| && l == s[k..] && j <= |l|
    ensures l[..j] == s[k..k + j] && l[j..] == s[k + j..]
  {
  }

  /** `trim()`: strips trim characters from both ends of `s`. */
  function Trim(s: string): (r: string)
    ensures TrimmedFrom(s, |s| - |TrimLeft(s)|, r)
  {
    TrimParts(s, TrimLeft(s), TrimRight(TrimLeft(s)));
    TrimRight(TrimLeft(s))
  }

  /** Trimming twice is trimming once. */
  lemma TrimIdempotent(s: string)
    ensures Trim(Trim(s)) == Trim(s)
  {
    var t := Trim(s);
    assert TrimLeft(t) == t;
    assert TrimRight(t) == t;
  }

  /** A string with no trim character at either end is its own trim. */
  lemma TrimOfClean(s: string)
    requires s == [] || (!IsTrimChar(s[0]) && !IsTrimChar(s[|s| - 1]))
    ensures Trim(s) == s
  {
    assert TrimLeft(s) == s;
    assert TrimRight(s) == s;
  }

  /** The character of decimal digit `d`. */
  function DigitChar(d: nat): (c: char)
    requires d < 10
  {
    (('0' as int) + d) as char
  }

  predicate IsDigit(c: char) {
    '0' <= c <= '9'
  }

  function DigitValue(c: char): nat
    requires IsDigit(c)
  {
    (c as int) - ('0' as int)
  }

  /** The decimal text of `n` that PHP's `.` produces for an integer, without leading zeros. */
  function DecimalString(n: nat): (s: string)
    ensures 1 <= |s|
    ensures forall i :: 0 <= i < |s| ==> IsDigit(s[i])
    ensures |s| > 1 ==> s[0] != '0'
  {
    if n < 10 then [DigitChar(n)] else DecimalString(n / 10) + [DigitChar(n % 10)]
  }

  /** Reads a string of digits back as a number. */
  function DecimalValue(s: string): nat
    requires forall i :: 0 <= i < |s| ==> IsDigit(s[i])
  {
    if s == [] then 0 else 10 * DecimalValue(s[..|s| - 1]) + DigitValue(s[|s| - 1])
  }

  /** Reading back the decimal text of `n` gives `n`. */
  lemma {:induction false} DecimalRoundTrip(n: nat)
    ensures DecimalValue(DecimalString(n)) == n
  {
    var s := DecimalString(n);
    if n < 10 {
      assert s[..0] == [];
    } else {
      assert s[..|s| - 1] == DecimalString(n / 10);
      DecimalRoundTrip(n / 10);
    }
  }

  /** Different numbers have different decimal texts. */
  lemma DecimalStringInjective(m: nat, n: nat)
    requires DecimalString(m) == DecimalString(n)
    ensures m == n
  {
    DecimalRoundTrip(m);
    DecimalRoundTrip(n);
  }
}
