/** String helpers shared by the backend and the browser code: decimal
    text of integers (JavaScript's `${n}`), ASCII case mapping, substring
    search, blank tests and joining. */
module Text {

  // ---------------------------------------------------------------------
  // Decimal text of integers
  // ---------------------------------------------------------------------

  function DigitChar(d: nat): (c: char)
    requires d < 10
    ensures '0' <= c <= '9' && c as int == '0' as int + d
  {
    ('0' as int + d) as char
  }

  predicate IsDigit(c: char) {
    '0' <= c <= '9'
  }

  function DigitValue(c: char): (d: nat)
    requires IsDigit(c)
    ensures d < 10 && DigitChar(d) == c
  {
    (c as int - '0' as int) as nat
  }

  /** The shortest decimal text of n, without sign or leading zeros. */
  function Digits(n: nat): (s: string)
    ensures |s| >= 1
    ensures forall i :: 0 <= i < |s| ==> IsDigit(s[i])
  {
    if n < 10 then [DigitChar(n)] else Digits(n / 10) + [DigitChar(n % 10)]
  }

  /** JavaScript's String(n) for an integer n. */
  function DecimalText(n: int): (s: string)
    ensures |s| >= 1
  {
    if n < 0 then "-" + Digits(-n) else Digits(n)
  }

  /** Value of a non-empty all-digit string. */
  function ParseDigits(s: string): (n: nat)
    requires forall i :: 0 <= i < |s| ==> IsDigit(s[i])
  {
    if s == [] then 0 else 10 * ParseDigits(s[..|s| - 1]) + DigitValue(s[|s| - 1])
  }

  /** Reading back the decimal text gives the number. */
  lemma {:induction false} ParseDigitsOfDigits(n: nat)
    ensures ParseDigits(Digits(n)) == n
  {
    var s := Digits(n);
    if n < 10 {
      assert s[..0] == [];
      assert ParseDigits(s) == DigitValue(s[0]);
    } else {
      assert s[..|s| - 1] == Digits(n / 10);
      assert DigitValue(s[|s| - 1]) == n % 10;
      ParseDigitsOfDigits(n / 10);
    }
  }

  /** Different numbers have different decimal texts. */
  lemma DigitsInjective(a: nat, b: nat)
    requires Digits(a) == Digits(b)
    ensures a == b
  {
    ParseDigitsOfDigits(a);
    ParseDigitsOfDigits(b);
  }

  /** Most significant decimal digit. */
  function LeadingDigit(n: nat): (d: nat)
    ensures d < 10
    ensures n > 0 ==> d > 0
  {
    if n < 10 then n else LeadingDigit(n / 10)
  }

  lemma {:induction false} DigitsStartWithLeadingDigit(n: nat)
    ensures Digits(n)[0] == DigitChar(LeadingDigit(n))
  {
    if n >= 10 {
      DigitsStartWithLeadingDigit(n / 10);
    }
  }

  /** For a three-digit number the leading digit is its hundreds. */
  lemma LeadingDigitOfThreeDigits(n: nat)
    requires 100 <= n < 1000
    ensures LeadingDigit(n) == n / 100
  {
    assert LeadingDigit(n / 10) == LeadingDigit(n / 10 / 10);
  }

  /** Does the decimal text of n start with the character c? */
  predicate TextStartsWith(n: int, c: char) {
    DecimalText(n)[0] == c
  }

  lemma DecimalTextStartsWithFour(n: int)
    ensures TextStartsWith(n, '4') <==> n >= 0 && LeadingDigit(n) == 4
  {
    if n >= 0 {
      DigitsStartWithLeadingDigit(n);
    }
  }

  // ---------------------------------------------------------------------
  // Case mapping (ASCII letters; other characters are left alone)
  // ---------------------------------------------------------------------

  function LowerChar(c: char): (r: char)
    ensures 'A' <= c <= 'Z' ==> r as int == c as int + 32
    ensures !('A' <= c <= 'Z') ==> r == c
  {
    if 'A' <= c <= 'Z' then (c as int + 32) as char else c
  }

  function UpperChar(c: char): (r: char)
    ensures 'a' <= c <= 'z' ==> r as int == c as int - 32
    ensures !('a' <= c <= 'z') ==> r == c
  {
    if 'a' <= c <= 'z' then (c as int - 32) as char else c
  }

  /** JavaScript's toLowerCase on ASCII text. */
  function Lower(s: string): (r: string)
    ensures |r| == |s|
    ensures forall i :: 0 <= i < |s| ==> r[i] == LowerChar(s[i])
  {
    if s == [] then [] else [LowerChar(s[0])] + Lower(s[1..])
  }

  /** JavaScript's toUpperCase on ASCII text. */
  function Upper(s: string): (r: string)
    ensures |r| == |s|
    ensures forall i :: 0 <= i < |s| ==> r[i] == UpperChar(s[i])
  {
    if s == [] then [] else [UpperChar(s[0])] + Upper(s[1..])
  }

  /** `s.charAt(0).toUpperCase() + s.slice(1).toLowerCase()` */
  function Capitalize(s: string): (r: string)
    ensures |r| == |s|
    ensures |s| > 0 ==> r[0] == UpperChar(s[0])
    ensures forall i :: 1 <= i < |s| ==> r[i] == LowerChar(s[i])
  {
    if s == [] then [] else Upper(s[..1]) + Lower(s[1..])
  }

  /** For an upper-case letter u, a character upper-cases to u exactly
      when it lower-cases to u's lower form. */
  lemma UpperCharMatches(c: char, u: char)
    requires 'A' <= u <= 'Z'
    ensures UpperChar(c) == u <==> LowerChar(c) == LowerChar(u)
  {
  }

  /** A capitalised word w (upper-case first letter, then no upper-case
      letter) is what Capitalize makes of s exactly when s lowers to the
      lower form of w: capitalising accepts any letter casing of the word. */
  lemma CapitalizeMatchesLower(s: string, w: string)
    requires |w| >= 1 && 'A' <= w[0] <= 'Z'
    requires forall i :: 1 <= i < |w| ==> !('A' <= w[i] <= 'Z')
    ensures Capitalize(s) == w <==> Lower(s) == Lower(w)
  {
    if |s| == |w| {
      UpperCharMatches(s[0], w[0]);
      var c, l := Capitalize(s), Lower(s);
      assert (c[0] == w[0]) == (l[0] == Lower(w)[0]);
      forall i | 1 <= i < |s| ensures (c[i] == w[i]) == (l[i] == Lower(w)[i]) {
        assert LowerChar(w[i]) == w[i];
      }
      assert c == w <==> (forall i :: 0 <= i < |s| ==> c[i] == w[i]);
      assert l == Lower(w) <==> (forall i :: 0 <= i < |s| ==> l[i] == Lower(w)[i]);
    }
  }

  // ---------------------------------------------------------------------
  // Substrings, blanks, joining
  // ---------------------------------------------------------------------

  /** JavaScript's `s.includes(t)`. */
  predicate Contains(s: string, t: string) {
    exists i | 0 <= i <= |s| - |t| :: OccursAt(s, t, i)
  }

  /** t occurs in s starting at index i. */
  predicate OccursAt(s: string, t: string, i: int) {
    0 <= i <= |s| - |t| && s[i..i + |t|] == t
  }

  /** The characters String.prototype.trim removes that this model knows:
      space, tab, line feed, vertical tab, form feed, carriage return,
      no-break space, line and paragraph separators and the byte order mark. */
  predicate IsWhitespace(c: char) {
    c == ' ' || c == '\t' || c == '\n' || c == '\U{000B}' || c == '\U{000C}' || c == '\r'
    || c == '\U{00A0}' || c == '\U{2028}' || c == '\U{2029}' || c == '\U{FEFF}'
  }

  /** `!s.trim()`: nothing is left once surrounding whitespace is removed. */
  predicate IsBlank(s: string) {
    forall i :: 0 <= i < |s| ==> IsWhitespace(s[i])
  }

  /** JavaScript's `parts.join(sep)`. */
  function Join(parts: seq<string>, sep: string): (r: string)
    ensures parts == [] ==> r == ""
    ensures |parts| == 1 ==> r == parts[0]
  {
    if parts == [] then "" else if |parts| == 1 then parts[0] else parts[0] + sep + Join(parts[1..], sep)
  }

  /** Every part appears, whole, inside the joined text. */
  lemma {:induction false} JoinContainsPart(parts: seq<string>, sep: string, k: nat)
    requires k < |parts|
    ensures Contains(Join(parts, sep), parts[k])
  {
    var r := Join(parts, sep);
    if |parts| == 1 || k == 0 {
      assert OccursAt(r, parts[k], 0);
    } else {
      JoinContainsPart(parts[1..], sep, k - 1);
      var rest := Join(parts[1..], sep);
      assert parts[1..][k - 1] == parts[k];
      var i :| 0 <= i <= |rest| - |parts[k]| && OccursAt(rest, parts[k], i);
      var off := |parts[0] + sep|;
      assert r == (parts[0] + sep) + rest;
      assert rest[i..i + |parts[k]|] == parts[k];
      assert r[off + i..off + i + |parts[k]|] == rest[i..i + |parts[k]|];
      assert OccursAt(r, parts[k], off + i);
    }
  }

  /** `s.split(c)[0]`: the text before the first c (all of s if none). */
  function Before(s: string, c: char): (r: string)
    ensures |r| <= |s| && r == s[..|r|]
    ensures forall i :: 0 <= i < |r| ==> r[i] != c
    ensures |r| < |s| ==> s[|r|] == c
  {
    if s == [] then [] else if s[0] == c then [] else [s[0]] + Before(s[1..], c)
  }
}
