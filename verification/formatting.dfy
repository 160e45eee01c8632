/**
 * The pieces of Rust's text formatting that the request strings are built from:
 * `Display` for `u8` and `bool`, `str::to_lowercase`, and the kebab-case
 * spelling that clap's `rename_all = "kebab_case"` gives an enum variant.
 * Beside them, two small scanners (`StripPrefix`, `Cut`) used to read a URL back.
 */
module Formatting {
  import opened Wrappers

  predicate IsUpper(c: char) { 'A' <= c <= 'Z' }

  predicate IsLower(c: char) { 'a' <= c <= 'z' }

  predicate IsDigit(c: char) { '0' <= c <= '9' }

  predicate AllDigits(s: string) {
    forall i :: 0 <= i < |s| ==> IsDigit(s[i])
  }

  /** `char::to_lowercase` restricted to ASCII: capitals map to small letters, all else is kept. */
  function LowerChar(c: char): (d: char)
    ensures !IsUpper(d)
    ensures IsUpper(c) ==> IsLower(d) && d as int - c as int == 32
    ensures !IsUpper(c) ==> d == c
  {
    if IsUpper(c) then (c as int + 32) as char else c
  }

  /** A word made of ASCII letters only. */
  predicate Letters(s: string) {
    forall i :: 0 <= i < |s| ==> IsUpper(s[i]) || IsLower(s[i])
  }

  /** `str::to_lowercase` on ASCII text: every character lowered, in place. */
  function ToLower(s: string): (r: string)
    ensures |r| == |s|
    ensures forall i :: 0 <= i < |s| ==> r[i] == LowerChar(s[i])
  {
    if s == [] then [] else [LowerChar(s[0])] + ToLower(s[1..])
  }

  /** Lowering a word of letters leaves only small letters. */
  lemma LowerOfLetters(s: string)
    requires Letters(s)
    ensures forall i :: 0 <= i < |ToLower(s)| ==> IsLower(ToLower(s)[i])
  {
  }

  /** The lowered form of a word, checked character by character. */
  lemma LowerWord(s: string, r: string)
    requires |s| == |r| && forall i :: 0 <= i < |s| ==> LowerChar(s[i]) == r[i]
    ensures ToLower(s) == r
  {
  }

  /**
   * The kebab-case spelling of a Rust identifier in PascalCase: a `-` goes
   * before each capital that follows a small letter, and every letter is lowered.
   */
  function KebabCase(ident: string): (r: string)
    ensures |r| >= |ident|
    ensures forall i :: 0 <= i < |r| ==> !IsUpper(r[i])
  {
    if ident == [] then [] else [LowerChar(ident[0])] + KebabTail(ident[0], ident[1..])
  }

  /** The kebab-case spelling of `s`, which follows the character `prev`. */
  function KebabTail(prev: char, s: string): (r: string)
    ensures |r| >= |s|
    ensures forall i :: 0 <= i < |r| ==> !IsUpper(r[i])
    decreases s
  {
    if s == [] then []
    else
      var head := if IsUpper(s[0]) && IsLower(prev) then ['-', LowerChar(s[0])] else [LowerChar(s[0])];
      head + KebabTail(s[0], s[1..])
  }

  /** A one-word identifier has no capital after its first character. */
  predicate SingleWord(ident: string) {
    forall i :: 1 <= i < |ident| ==> !IsUpper(ident[i])
  }

  lemma {:induction false} KebabTailOfLowercase(prev: char, s: string)
    requires forall i :: 0 <= i < |s| ==> !IsUpper(s[i])
    ensures KebabTail(prev, s) == ToLower(s)
    decreases s
  {
    if s != [] {
      KebabTailOfLowercase(s[0], s[1..]);
    }
  }

  /** For a one-word identifier the kebab-case spelling is just the identifier lowered. */
  lemma KebabCaseOfSingleWord(ident: string)
    requires SingleWord(ident)
    ensures KebabCase(ident) == ToLower(ident)
  {
    if ident != [] {
      KebabTailOfLowercase(ident[0], ident[1..]);
    }
  }

  function DigitChar(d: nat): (c: char)
    requires d < 10
    ensures IsDigit(c)
  {
    ('0' as int + d) as char
  }

  function DigitValue(c: char): (d: nat)
    requires IsDigit(c)
    ensures d < 10 && DigitChar(d) == c
  {
    c as int - '0' as int
  }

  /** The number a string of decimal digits denotes, most significant digit first. */
  function DigitsValue(s: string): nat
    requires AllDigits(s)
  {
    if s == [] then 0 else DigitsValue(s[..|s| - 1]) * 10 + DigitValue(s[|s| - 1])
  }

  /**
   * `Display` for an unsigned integer: the shortest decimal numeral of `n`,
   * with no sign and no leading zero.
   */
  function Decimal(n: nat): (r: string)
    ensures 1 <= |r| && AllDigits(r)
    ensures DigitsValue(r) == n
    ensures |r| > 1 ==> r[0] != '0'
  {
    if n < 10 then [DigitChar(n)]
    else
      var r := Decimal(n / 10) + [DigitChar(n % 10)];
      assert r[..|r| - 1] == Decimal(n / 10);
      r
  }

  /** A canonical numeral (digits only, no leading zero) denotes at least one when it does not start with zero. */
  lemma {:induction false} LeadingDigitBound(s: string)
    requires 1 <= |s| && AllDigits(s) && s[0] != '0'
    ensures DigitsValue(s) >= 1
    ensures |s| > 1 ==> DigitsValue(s) >= 10
  {
    if |s| > 1 {
      LeadingDigitBound(s[..|s| - 1]);
    }
  }

  /** Every canonical numeral is the `Decimal` of the number it denotes. */
  lemma {:induction false} DecimalOfDigits(s: string)
    requires 1 <= |s| && AllDigits(s)
    requires |s| > 1 ==> s[0] != '0'
    ensures Decimal(DigitsValue(s)) == s
  {
    var n := DigitsValue(s);
    if |s| == 1 {
      assert s[..|s| - 1] == [] && DigitsValue([]) == 0;
      assert n == DigitValue(s[0]);
    } else {
      var init, last := s[..|s| - 1], s[|s| - 1];
      var q, d := DigitsValue(init), DigitValue(last);
      assert n == q * 10 + d;
      LeadingDigitBound(s);
      assert n / 10 == q && n % 10 == d;
      assert Decimal(n) == Decimal(q) + [DigitChar(d)];
      DecimalOfDigits(init);
      assert init + [last] == s;
    }
  }

  /** Numbers up to 255, the range of `u8`, print with one to three digits. */
  lemma DecimalOfByte(n: nat)
    requires n < 256
    ensures 1 <= |Decimal(n)| <= 3
    ensures n < 10 <==> |Decimal(n)| == 1
  {
    if n >= 10 {
      assert Decimal(n) == Decimal(n / 10) + [DigitChar(n % 10)];
      if n / 10 >= 10 {
        assert Decimal(n / 10) == Decimal(n / 10 / 10) + [DigitChar(n / 10 % 10)];
      }
    }
  }

  /** `Display` for `bool`. */
  function BoolText(b: bool): (r: string)
    ensures r == "true" <==> b
    ensures r == "false" <==> !b
  {
    if b then "true" else "false"
  }

  /** What is left of `s` after the prefix `p`, if `s` starts with it. */
  function StripPrefix(p: string, s: string): (r: Option<string>)
    ensures r.Some? <==> p <= s
    ensures r.Some? ==> s == p + r.value
  {
    if p <= s then Some(s[|p|..]) else None
  }

  /** `s` split around its first `c`: the part before, which holds no `c`, and the part after. */
  function Cut(s: string, c: char): (r: Option<(string, string)>)
    ensures r.None? <==> c !in s
    ensures r.Some? ==> c !in r.value.0 && s == r.value.0 + [c] + r.value.1
  {
    if s == [] then None
    else if s[0] == c then Some(([], s[1..]))
    else match Cut(s[1..], c)
      case None => None
      case Some(p) => Some(([s[0]] + p.0, p.1))
  }

  lemma {:induction false} CutAt(a: string, c: char, b: string)
    requires c !in a
    ensures Cut(a + [c] + b, c) == Some((a, b))
  {
    if a != [] {
      CutAt(a[1..], c, b);
      assert (a + [c] + b)[1..] == a[1..] + [c] + b;
      assert [a[0]] + a[1..] == a;
    } else {
      assert a + [c] + b == [c] + b;
    }
  }

  lemma StripPrefixOf(p: string, r: string)
    ensures StripPrefix(p, p + r) == Some(r)
  {
    assert (p + r)[|p|..] == r;
  }
}
