/**
  The Python string operations the gateway's handlers apply to query
  parameters: `str.upper`, `str.lower`, `str.strip`, `str.isdigit`, `int(str)`
  and, as its inverse, `str(int)`. Case mapping and digits are ASCII only;
  `strip()` removes Python's full `str.isspace` set, `int()` skips a
  narrower one.
 */
module PyText {
  import opened Wrappers

  /** Python's `str.isspace()` on one character: the set `strip()` removes. */
  predicate IsSpace(c: char) {
    var n := c as int;
    (0x09 <= n <= 0x0D) || (0x1C <= n <= 0x20) || n == 0x85 || n == 0xA0 || n == 0x1680
    || (0x2000 <= n <= 0x200A) || n == 0x2028 || n == 0x2029 || n == 0x202F
    || n == 0x205F || n == 0x3000
  }

  predicate IsDigit(c: char) {
    '0' <= c <= '9'
  }

  function DigitValue(c: char): nat
    requires IsDigit(c)
  {
    c as int - '0' as int
  }

  function DigitChar(d: nat): char
    requires d < 10
  {
    ('0' as int + d) as char
  }

  function UpperChar(c: char): char {
    if 'a' <= c <= 'z' then (c as int - 32) as char else c
  }

  function LowerChar(c: char): char {
    if 'A' <= c <= 'Z' then (c as int + 32) as char else c
  }

  /** `s.upper()`: every character mapped on its own, length unchanged. */
  function Upper(s: string): (r: string)
    ensures |r| == |s|
    ensures forall i :: 0 <= i < |s| ==> r[i] == UpperChar(s[i])
  {
    if s == [] then [] else [UpperChar(s[0])] + Upper(s[1..])
  }

  /** `s.lower()`: every character mapped on its own, length unchanged. */
  function Lower(s: string): (r: string)
    ensures |r| == |s|
    ensures forall i :: 0 <= i < |s| ==> r[i] == LowerChar(s[i])
  {
    if s == [] then [] else [LowerChar(s[0])] + Lower(s[1..])
  }

  /** Case-insensitive equality, stated character by character. */
  predicate EqualsIgnoreCase(a: string, b: string) {
    |a| == |b| && forall i :: 0 <= i < |a| ==> LowerChar(a[i]) == LowerChar(b[i])
  }

  /** Comparing `s.lower()` with an all-lower-case token is case-insensitive equality. */
  lemma LowerEqualsToken(s: string, token: string)
    requires Lower(token) == token
    ensures Lower(s) == token <==> EqualsIgnoreCase(s, token)
  {
    if EqualsIgnoreCase(s, token) {
      assert forall i :: 0 <= i < |s| ==> Lower(s)[i] == token[i] by {
        forall i | 0 <= i < |s| ensures Lower(s)[i] == token[i] {
          assert Lower(token)[i] == LowerChar(token[i]);
        }
      }
    }
    if Lower(s) == token {
      forall i | 0 <= i < |s| ensures LowerChar(s[i]) == LowerChar(token[i]) {
        assert Lower(token)[i] == LowerChar(token[i]);
      }
    }
  }

  /**
    `s.isdigit()` restricted to ASCII: non-empty and made of the digits
    0-9 only. Python's `isdigit` also accepts other Unicode digits, some of
    which (such as "²") are not decimal digits and `int()` rejects.
   */
  predicate IsDigitString(s: string) {
    |s| > 0 && forall i :: 0 <= i < |s| ==> IsDigit(s[i])
  }

  /** Which whitespace a trim skips: the set `str.strip()` removes, or the set `int()` skips. */
  datatype Blanks = StripBlanks | IntBlanks

  /**
    `StripBlanks` is all of `str.isspace()`. `IntBlanks` is the part of it
    `int()` skips: CPython's `int()` first turns each non-ASCII whitespace
    character into a space and leaves ASCII characters alone, then skips
    only tab, line feed, vertical tab, form feed, carriage return and space;
    the separators U+001C to U+001F are whitespace to `strip()` but not to
    `int()`.
   */
  predicate IsBlank(b: Blanks, c: char) {
    IsSpace(c) && (b == IntBlanks ==> !(0x1C <= c as int <= 0x1F))
  }

  /** The length of the leading run of blanks. */
  function LeadingBlanks(b: Blanks, s: string): (k: nat)
    ensures k <= |s|
    ensures forall i :: 0 <= i < k ==> IsBlank(b, s[i])
    ensures k < |s| ==> !IsBlank(b, s[k])
  {
    if s != [] && IsBlank(b, s[0]) then 1 + LeadingBlanks(b, s[1..]) else 0
  }

  /** The length of the trailing run of blanks. */
  function TrailingBlanks(b: Blanks, s: string): (k: nat)
    ensures k <= |s|
    ensures forall i :: |s| - k <= i < |s| ==> IsBlank(b, s[i])
    ensures k < |s| ==> !IsBlank(b, s[|s| - 1 - k])
  {
    if s != [] && IsBlank(b, s[|s| - 1]) then 1 + TrailingBlanks(b, s[..|s| - 1]) else 0
  }

  /**
    What lies between the leading and the trailing blanks; empty exactly
    when `s` is all blanks, otherwise it begins and ends with a non-blank.
   */
  function Trim(b: Blanks, s: string): (r: string)
    ensures |r| <= |s|
    ensures r == [] <==> forall i :: 0 <= i < |s| ==> IsBlank(b, s[i])
    ensures r != [] ==> !IsBlank(b, r[0]) && !IsBlank(b, r[|r| - 1])
  {
    var a := LeadingBlanks(b, s);
    if a == |s| then [] else s[a..|s| - TrailingBlanks(b, s)]
  }

  /** `s.strip()`: with no argument, it removes the `str.isspace()` characters at both ends. */
  function Strip(s: string): (r: string)
    ensures |r| <= |s|
    ensures r == [] <==> forall i :: 0 <= i < |s| ==> IsSpace(s[i])
    ensures r != [] ==> !IsSpace(r[0]) && !IsSpace(r[|r| - 1])
  {
    Trim(StripBlanks, s)
  }

  lemma {:induction false} LeadingBlanksPadded(b: Blanks, pre: string, rest: string)
    requires forall i :: 0 <= i < |pre| ==> IsBlank(b, pre[i])
    requires rest == [] || !IsBlank(b, rest[0])
    ensures LeadingBlanks(b, pre + rest) == |pre|
  {
    if pre != [] {
      assert (pre + rest)[1..] == pre[1..] + rest;
      LeadingBlanksPadded(b, pre[1..], rest);
    } else {
      assert pre + rest == rest;
    }
  }

  lemma {:induction false} TrailingBlanksPadded(b: Blanks, rest: string, post: string)
    requires forall i :: 0 <= i < |post| ==> IsBlank(b, post[i])
    requires rest == [] || !IsBlank(b, rest[|rest| - 1])
    ensures TrailingBlanks(b, rest + post) == |post|
  {
    if post != [] {
      var s := rest + post;
      assert s[..|s| - 1] == rest + post[..|post| - 1];
      TrailingBlanksPadded(b, rest, post[..|post| - 1]);
    } else {
      assert rest + post == rest;
    }
  }

  /**
    A trim removes exactly the surrounding blanks: a text with no blank at
    either end, padded on both sides with blanks, trims back to itself. With
    `StripBlanks` this is `strip()`; with `IntBlanks`, the whitespace `int()`
    tolerates around a literal.
   */
  lemma TrimPadded(b: Blanks, pre: string, mid: string, post: string)
    requires forall i :: 0 <= i < |pre| ==> IsBlank(b, pre[i])
    requires forall i :: 0 <= i < |post| ==> IsBlank(b, post[i])
    requires mid == [] || (!IsBlank(b, mid[0]) && !IsBlank(b, mid[|mid| - 1]))
    ensures Trim(b, pre + mid + post) == mid
  {
    var s := pre + mid + post;
    if mid == [] {
      forall i | 0 <= i < |s| ensures IsBlank(b, s[i]) {
        if i < |pre| { assert s[i] == pre[i]; } else { assert s[i] == post[i - |pre|]; }
      }
    } else {
      assert s == pre + (mid + post);
      LeadingBlanksPadded(b, pre, mid + post);
      assert s == (pre + mid) + post;
      TrailingBlanksPadded(b, pre + mid, post);
      assert s[|pre|..|s| - |post|] == mid;
    }
  }

  /** A text that neither begins nor ends with a blank is its own trim. */
  lemma TrimUnchanged(b: Blanks, s: string)
    requires s == [] || (!IsBlank(b, s[0]) && !IsBlank(b, s[|s| - 1]))
    ensures Trim(b, s) == s
  {
    if s != [] {
      assert s[0..|s| - 0] == s;
    }
  }

  /**
    The digit part `int()` accepts: digits, with single underscores allowed
    only between two digits (`1_000`, not `_1`, `1_` or `1__0`).
   */
  predicate IsGroupedDigits(t: string) {
    && |t| > 0
    && IsDigit(t[0])
    && IsDigit(t[|t| - 1])
    && (forall i :: 0 <= i < |t| ==> IsDigit(t[i]) || t[i] == '_')
    && (forall i, j :: 0 <= i < |t| && j == i + 1 < |t| ==> t[i] != '_' || t[j] != '_')
  }

  /** The digits of a grouped literal with its underscores removed. */
  function DropUnderscores(t: string): (d: string)
    ensures |d| <= |t|
    ensures (forall i :: 0 <= i < |t| ==> IsDigit(t[i]) || t[i] == '_') ==>
              forall i :: 0 <= i < |d| ==> IsDigit(d[i])
  {
    if t == [] then []
    else if t[0] == '_' then DropUnderscores(t[1..])
    else [t[0]] + DropUnderscores(t[1..])
  }

  /** The base-10 value of a string of digits, most significant first. */
  function DecimalValue(d: string): nat
    requires forall i :: 0 <= i < |d| ==> IsDigit(d[i])
  {
    if d == [] then 0 else 10 * DecimalValue(d[..|d| - 1]) + DigitValue(d[|d| - 1])
  }

  /** The value of a grouped digit literal. */
  function GroupedValue(t: string): nat
    requires IsGroupedDigits(t)
  {
    DecimalValue(DropUnderscores(t))
  }

  /**
    Python's `int(s)` for a `str` argument in base 10: surrounding whitespace
    (the `IntBlanks` set, narrower than `strip()`'s) is skipped, then an optional sign, then grouped digits; anything else is
    a `ValueError`, modelled as `None`.
   */
  function ParseInt(s: string): (r: Option<int>)
    ensures r.Some? ==> Trim(IntBlanks, s) != []
    ensures r.Some? && r.value < 0 ==> Trim(IntBlanks, s)[0] == '-'
  {
    ParseLiteral(Trim(IntBlanks, s))
  }

  /** An integer literal with no surrounding whitespace: an optional sign, then grouped digits. */
  function ParseLiteral(t: string): (r: Option<int>)
    ensures r.Some? ==> t != []
    ensures r.Some? && r.value < 0 ==> t[0] == '-'
  {
    if t != [] && (t[0] == '-' || t[0] == '+') then
      var digits := t[1..];
      if IsGroupedDigits(digits) then
        var v: int := GroupedValue(digits);
        Some(if t[0] == '-' then -v else v)
      else None
    else if IsGroupedDigits(t) then Some(GroupedValue(t))
    else None
  }

  lemma {:induction false} NoUnderscoresKept(s: string)
    requires forall i :: 0 <= i < |s| ==> IsDigit(s[i])
    ensures DropUnderscores(s) == s
  {
    if s != [] {
      NoUnderscoresKept(s[1..]);
      assert [s[0]] + s[1..] == s;
    }
  }

  /** A plain digit string is a grouped literal whose value is its base-10 value. */
  lemma DigitsAreGrouped(d: string)
    requires IsDigitString(d)
    ensures IsGroupedDigits(d) && GroupedValue(d) == DecimalValue(d)
  {
    NoUnderscoresKept(d);
  }

  lemma UnsignedLiteral(t: string)
    requires IsGroupedDigits(t)
    ensures ParseLiteral(t) == Some(GroupedValue(t))
  {
  }

  lemma NegatedLiteral(t: string)
    requires IsGroupedDigits(t)
    ensures ParseLiteral("-" + t) == Some(-(GroupedValue(t) as int))
  {
    assert ("-" + t)[1..] == t;
  }

  /** An ASCII digit string (what the modelled `isdigit` accepts) is read by `int()` as the digits' base-10 value. */
  lemma DigitStringValue(s: string)
    requires IsDigitString(s)
    ensures ParseInt(s) == Some(DecimalValue(s))
  {
    TrimUnchanged(IntBlanks, s);
    DigitsAreGrouped(s);
    UnsignedLiteral(s);
  }

  /** `str(n)` for a natural number: its base-10 digits, no leading zero. */
  function NatToDecimal(n: nat): (d: string)
    ensures |d| > 0 && forall i :: 0 <= i < |d| ==> IsDigit(d[i])
    ensures |d| > 1 ==> d[0] != '0'
    decreases n
  {
    if n < 10 then [DigitChar(n)] else NatToDecimal(n / 10) + [DigitChar(n % 10)]
  }

  /** `str(n)` for any integer (used where a handler formats a parsed uid into a message). */
  function FormatInt(n: int): string {
    if n < 0 then "-" + NatToDecimal(-n) else NatToDecimal(n)
  }

  lemma {:induction false} DecimalOfNat(n: nat)
    ensures DecimalValue(NatToDecimal(n)) == n
    decreases n
  {
    var d := NatToDecimal(n);
    if n >= 10 {
      assert d[..|d| - 1] == NatToDecimal(n / 10);
      DecimalOfNat(n / 10);
    }
  }

  /** A minus sign followed by digits reads as the negated value of the digits. */
  lemma NegativeLiteralValue(d: string)
    requires IsDigitString(d)
    ensures ParseInt("-" + d) == Some(-(DecimalValue(d) as int))
  {
    var s := "-" + d;
    assert !IsBlank(IntBlanks, s[|s| - 1]) by { assert s[|s| - 1] == d[|d| - 1]; }
    TrimUnchanged(IntBlanks, s);
    DigitsAreGrouped(d);
    NegatedLiteral(d);
  }

  lemma NegativeRoundTrip(n: int)
    requires n < 0
    ensures ParseInt(FormatInt(n)) == Some(n)
  {
    var m: nat := -n;
    var d := NatToDecimal(m);
    DecimalOfNat(m);
    NegativeLiteralValue(d);
    assert ParseInt("-" + d) == Some(-(m as int));
    assert FormatInt(n) == "-" + d;
  }

  lemma NonNegativeRoundTrip(n: nat)
    ensures ParseInt(FormatInt(n)) == Some(n)
  {
    var d := NatToDecimal(n);
    DigitStringValue(d);
    DecimalOfNat(n);
    assert FormatInt(n) == d;
  }

  /** `int(str(n)) == n`: the formatted integer parses back to itself. */
  lemma ParseFormatRoundTrip(n: int)
    ensures ParseInt(FormatInt(n)) == Some(n)
  {
    if n < 0 {
      NegativeRoundTrip(n);
    } else {
      NonNegativeRoundTrip(n);
    }
  }

  /**
    `strip()` and `int()` disagree on U+001C: the string U+001C "5" strips
    to "5", yet `int()` rejects it.
   */
  lemma {:induction false} IntRejectsFileSeparator()
    ensures Strip([0x1C as char] + "5") == "5"
    ensures ParseInt([0x1C as char] + "5").None?
  {
    var s := [0x1C as char] + "5";
    assert IsBlank(StripBlanks, s[0]);
    TrimPadded(StripBlanks, [0x1C as char], "5", "");
    assert [0x1C as char] + "5" + "" == s;
    TrimUnchanged(IntBlanks, s);
    assert !IsGroupedDigits(s);
  }
}
