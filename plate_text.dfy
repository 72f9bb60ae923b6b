/**
 * Plate-text normalisation and the letters-and-digits check.
 *
 * The system cleans every OCR fragment the same way: it removes '-' and ' ',
 * upper-cases the rest and strips surrounding whitespace; a fragment is then
 * "only letters and numbers" when the cleaned text matches [A-Z0-9]+.
 * Upper-casing, whitespace and letter tests follow Python's string methods on
 * ASCII characters.
 */
module PlateText {

  /** Python's str.isspace restricted to ASCII: ' ', \t \n \v \f \r and the separators 0x1C-0x1F. */
  predicate IsSpace(c: char) {
    c == ' ' || 9 <= c as int <= 13 || 28 <= c as int <= 31
  }

  predicate IsLower(c: char) { 'a' <= c <= 'z' }
  predicate IsUpper(c: char) { 'A' <= c <= 'Z' }
  predicate IsDigit(c: char) { '0' <= c <= '9' }

  /** Python's str.isalpha on an ASCII character. */
  predicate IsAlpha(c: char) { IsLower(c) || IsUpper(c) }

  /** Python's str.upper on one ASCII character; other characters are left alone. */
  function UpperChar(c: char): (u: char)
    ensures !IsLower(u)
    ensures IsUpper(u) <==> IsAlpha(c)
    ensures !IsLower(c) ==> u == c
    ensures IsLower(c) ==> u as int == c as int - 32
  {
    if IsLower(c) then (c as int - 32) as char else c
  }

  /** `s.replace(c, "")`: every occurrence of c is removed. */
  function Without(s: string, c: char): (r: string)
    ensures |r| <= |s|
    ensures forall x :: x in r <==> x in s && x != c
    ensures c !in s ==> r == s
  {
    if s == [] then []
    else if s[0] == c then Without(s[1..], c)
    else [s[0]] + Without(s[1..], c)
  }

  /** Removing c keeps every other character as many times as it occurs, and no c. */
  lemma {:induction false} WithoutMultiset(s: string, c: char)
    ensures multiset(Without(s, c)) == multiset(s)[c := 0]
  {
    if s != [] {
      WithoutMultiset(s[1..], c);
      assert s == [s[0]] + s[1..];
    }
  }

  /** Removal works piece by piece, so the kept characters stay in their original order. */
  lemma {:induction false} WithoutAppend(a: string, b: string, c: char)
    ensures Without(a + b, c) == Without(a, c) + Without(b, c)
  {
    if a != [] {
      assert (a + b)[1..] == a[1..] + b;
      WithoutAppend(a[1..], b, c);
    } else {
      assert a + b == b;
    }
  }

  /** `s.upper()`. */
  function Upper(s: string): (r: string)
  {
    seq(|s|, k requires 0 <= k < |s| => UpperChar(s[k]))
  }

  /** Where `s.lstrip()` starts: the number of leading whitespace characters. */
  function StripStart(s: string): (n: nat)
    ensures n <= |s|
    ensures forall k :: 0 <= k < n ==> IsSpace(s[k])
    ensures n == |s| || !IsSpace(s[n])
  {
    if s != [] && IsSpace(s[0]) then 1 + StripStart(s[1..]) else 0
  }

  /** Where `s.rstrip()` ends: the length of s without its trailing whitespace. */
  function StripEnd(s: string): (n: nat)
    ensures n <= |s|
    ensures forall k :: n <= k < |s| ==> IsSpace(s[k])
    ensures n == 0 || !IsSpace(s[n - 1])
  {
    if s != [] && IsSpace(s[|s| - 1]) then StripEnd(s[..|s| - 1]) else |s|
  }

  /** `s.strip()`: s with leading and trailing whitespace removed. */
  function Strip(s: string): string
  {
    if StripStart(s) < StripEnd(s) then s[StripStart(s)..StripEnd(s)] else []
  }

  /** What the cleaning step leaves: no '-', no ' ', no lower-case letter, no surrounding whitespace. */
  predicate IsNormalised(t: string) {
    && '-' !in t
    && ' ' !in t
    && (forall k :: 0 <= k < |t| ==> !IsLower(t[k]))
    && (t == [] || (!IsSpace(t[0]) && !IsSpace(t[|t| - 1])))
  }

  /** `text.replace("-", "").replace(" ", "").upper().strip()`. */
  function Normalize(text: string): string
  {
    Strip(Upper(Without(Without(text, '-'), ' ')))
  }

  /** `re.fullmatch(r'[A-Z0-9]+', s)`. */
  predicate MatchesPlatePattern(s: string) {
    |s| > 0 && forall k :: 0 <= k < |s| ==> IsUpper(s[k]) || IsDigit(s[k])
  }

  /** only_letters_numbers: the cleaned text is non-empty and made of A-Z and 0-9 only. */
  predicate OnlyLettersNumbers(text: string) {
    MatchesPlatePattern(Normalize(text))
  }

  /** Cleaned text has no '-', no ' ', no lower-case letter and no surrounding whitespace. */
  lemma NormalizeIsNormalised(text: string)
    ensures IsNormalised(Normalize(text))
  {
    var w := Without(Without(text, '-'), ' ');
    var u := Upper(w);
    forall k | 0 <= k < |u| ensures u[k] != '-' && u[k] != ' ' && !IsLower(u[k]) {
      assert w[k] in w;
    }
  }

  /** Text that is already clean is left unchanged by the cleaning step. */
  lemma NormalizeFixpoint(t: string)
    requires IsNormalised(t)
    ensures Normalize(t) == t
  {
    assert Upper(t) == t;
    assert StripStart(t) == 0;
    assert StripEnd(t) == |t|;
  }

  /** Cleaning is idempotent. */
  lemma NormalizeIdempotent(text: string)
    ensures Normalize(Normalize(text)) == Normalize(text)
  {
    NormalizeIsNormalised(text);
    NormalizeFixpoint(Normalize(text));
  }

  /** Re-checking already-cleaned text, as the selector does, gives the same answer. */
  lemma OnlyLettersNumbersOfNormalised(text: string)
    ensures OnlyLettersNumbers(Normalize(text)) == OnlyLettersNumbers(text)
  {
    NormalizeIdempotent(text);
  }

  /** Text built from ASCII letters of either case, digits, '-' and ' ', with at least one letter or digit, passes. */
  lemma OnlyLettersNumbersAccepts(text: string)
    requires forall k :: 0 <= k < |text| ==> IsAlpha(text[k]) || IsDigit(text[k]) || text[k] == '-' || text[k] == ' '
    requires exists k :: 0 <= k < |text| && (IsAlpha(text[k]) || IsDigit(text[k]))
    ensures OnlyLettersNumbers(text)
  {
    var w := Without(Without(text, '-'), ' ');
    var k :| 0 <= k < |text| && (IsAlpha(text[k]) || IsDigit(text[k]));
    assert text[k] in w;
    forall x | x in w
      ensures IsAlpha(x) || IsDigit(x)
    {
      var j :| 0 <= j < |text| && text[j] == x;
    }
    var u := Upper(w);
    assert forall j :: 0 <= j < |u| ==> IsUpper(u[j]) || IsDigit(u[j]) by {
      forall j | 0 <= j < |u| ensures IsUpper(u[j]) || IsDigit(u[j]) {
        assert w[j] in w;
      }
    }
    assert StripStart(u) == 0;
    assert StripEnd(u) == |u|;
  }

  /** Text that passes holds nothing but ASCII letters, digits, '-' and whitespace. */
  lemma OnlyLettersNumbersChars(text: string)
    requires OnlyLettersNumbers(text)
    ensures forall k :: 0 <= k < |text| ==> IsAlpha(text[k]) || IsDigit(text[k]) || text[k] == '-' || IsSpace(text[k])
  {
    var w := Without(Without(text, '-'), ' ');
    var u := Upper(w);
    var i, j := StripStart(u), StripEnd(u);
    assert i < j && Normalize(text) == u[i..j];
    forall k | 0 <= k < |text|
      ensures IsAlpha(text[k]) || IsDigit(text[k]) || text[k] == '-' || IsSpace(text[k])
    {
      var c := text[k];
      if c != '-' && c != ' ' {
        assert c in w;
        var m :| 0 <= m < |w| && w[m] == c;
        assert u[m] == UpperChar(c);
        if i <= m < j {
          assert u[m] == Normalize(text)[m - i];
        } else {
          assert IsSpace(u[m]);
        }
      }
    }
  }
}
