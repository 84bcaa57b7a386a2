/** The string operations the pages rely on, restricted to ASCII:
    `toLowerCase`/`toUpperCase`, `includes`, the digit filter of a
    `replace(/\D/g, '')`, number-to-string conversion and `parseInt(s, 10)`. */
module Text {
  import opened Base

  predicate IsUpper(c: char) { 'A' <= c <= 'Z' }
  predicate IsLower(c: char) { 'a' <= c <= 'z' }
  predicate IsDigit(c: char) { '0' <= c <= '9' }

  function LowerChar(c: char): char
  {
    if IsUpper(c) then (c as int + 32) as char else c
  }

  function UpperChar(c: char): char
  {
    if IsLower(c) then (c as int - 32) as char else c
  }

  function ToLower(s: string): (r: string)
    ensures |r| == |s|
    ensures forall i :: 0 <= i < |s| ==> r[i] == LowerChar(s[i])
  {
    seq(|s|, i requires 0 <= i < |s| => LowerChar(s[i]))
  }

  function ToUpper(s: string): (r: string)
    ensures |r| == |s|
    ensures forall i :: 0 <= i < |s| ==> r[i] == UpperChar(s[i])
  {
    seq(|s|, i requires 0 <= i < |s| => UpperChar(s[i]))
  }

  /** Upper-casing a lower-cased string restores every character that was
      already an upper-case letter or a digit. */
  lemma UpperOfLower(s: string)
    requires forall i :: 0 <= i < |s| ==> IsUpper(s[i]) || IsDigit(s[i])
    ensures ToUpper(ToLower(s)) == s
    ensures ToUpper(s) == s
  {
  }

  predicate StartsWith(s: string, prefix: string)
  {
    |prefix| <= |s| && s[..|prefix|] == prefix
  }

  /** `needle` occurs in `hay` starting at offset `i`. */
  predicate OccursAt(hay: string, needle: string, i: int)
  {
    0 <= i <= |hay| - |needle| && hay[i..i + |needle|] == needle
  }

  /** `hay.includes(needle)`: the needle occurs at some offset of the hay. */
  function Contains(hay: string, needle: string): (b: bool)
    ensures b <==> exists i :: OccursAt(hay, needle, i)
    decreases |hay|
  {
    if StartsWith(hay, needle) then
      assert OccursAt(hay, needle, 0);
      true
    else if hay == [] then false
    else
      var b := Contains(hay[1..], needle);
      assert b ==> exists i :: OccursAt(hay, needle, i) by {
        if b {
          var j :| OccursAt(hay[1..], needle, j);
          assert hay[j + 1..j + 1 + |needle|] == hay[1..][j..j + |needle|];
          assert OccursAt(hay, needle, j + 1);
        }
      }
      assert (exists i :: OccursAt(hay, needle, i)) ==> b by {
        if exists i :: OccursAt(hay, needle, i) {
          var i :| OccursAt(hay, needle, i);
          assert i != 0;
          assert hay[1..][i - 1..i - 1 + |needle|] == hay[i..i + |needle|];
          assert OccursAt(hay[1..], needle, i - 1);
        }
      }
      b
  }

  /** Every string contains the empty string, so an empty search term
      matches everything. */
  lemma ContainsEmpty(hay: string)
    ensures Contains(hay, "")
  {
  }

  /** The case-insensitive match used by the search boxes. */
  predicate ContainsIgnoreCase(hay: string, needle: string)
  {
    Contains(ToLower(hay), ToLower(needle))
  }

  /** `s.replace(/\D/g, '')`: the decimal digits of `s`, in order. */
  function DigitsOf(s: string): (r: string)
    ensures forall i :: 0 <= i < |r| ==> IsDigit(r[i])
    ensures forall c :: c in r <==> c in s && IsDigit(c)
    ensures IsSubsequence(r, s)
  {
    FilterIsSubsequence(s, IsDigit);
    Filter(s, IsDigit)
  }

  /** Stripping non-digits again changes nothing, and a string of digits only
      is its own digit string. */
  lemma DigitsOfIdempotent(s: string)
    ensures DigitsOf(DigitsOf(s)) == DigitsOf(s)
  {
    var d := DigitsOf(s);
    FilterAll(d, IsDigit);
  }

  function DigitChar(d: nat): (c: char)
    requires d < 10
    ensures IsDigit(c) && c as int - '0' as int == d
  {
    ('0' as int + d) as char
  }

  function DigitValue(c: char): (d: nat)
    requires IsDigit(c)
    ensures d < 10 && DigitChar(d) == c
  {
    c as int - '0' as int
  }

  /** `String(n)` for a natural number: its decimal digits, no leading zero. */
  function NatToString(n: nat): (s: string)
    ensures |s| > 0 && forall i :: 0 <= i < |s| ==> IsDigit(s[i])
  {
    if n < 10 then [DigitChar(n)] else NatToString(n / 10) + [DigitChar(n % 10)]
  }

  /** `String(i)` for an integer: a minus sign before the digits of a negative. */
  function IntToString(i: int): string
  {
    if i < 0 then "-" + NatToString(-i) else NatToString(i)
  }

  /** The value of a string of decimal digits, read most significant first. */
  function DecimalValue(ds: string): nat
    requires forall i :: 0 <= i < |ds| ==> IsDigit(ds[i])
  {
    if ds == [] then 0 else DecimalValue(ds[..|ds| - 1]) * 10 + DigitValue(ds[|ds| - 1])
  }

  /** The longest prefix of `s` made of digits. */
  function DigitPrefix(s: string): (r: string)
    ensures |r| <= |s| && r == s[..|r|]
    ensures forall i :: 0 <= i < |r| ==> IsDigit(r[i])
    ensures |r| < |s| ==> !IsDigit(s[|r|])
  {
    if s == [] || !IsDigit(s[0]) then [] else [s[0]] + DigitPrefix(s[1..])
  }

  predicate IsSpace(c: char) { c == ' ' || c == '\t' || c == '\n' || c == '\r' }

  function TrimStart(s: string): (r: string)
    ensures |r| <= |s| && r == s[|s| - |r|..]
    ensures r != [] ==> !IsSpace(r[0])
  {
    if s != [] && IsSpace(s[0]) then TrimStart(s[1..]) else s
  }

  /** `parseInt(s, 10)`: leading blanks, an optional sign and the longest run
      of digits that follows; no digit at all gives NaN, here `None`. */
  function ParseInt(s: string): Option<int>
  {
    ParseSigned(TrimStart(s))
  }

  /** The sign, then the digits. */
  function ParseSigned(t: string): Option<int>
  {
    if |t| > 0 && t[0] == '-' then Negated(ParseDigits(t[1..]))
    else if |t| > 0 && t[0] == '+' then ParseDigits(t[1..])
    else ParseDigits(t)
  }

  function Negated(v: Option<int>): Option<int>
  {
    match v case None => None case Some(x) => Some(-x)
  }

  /** The value of the leading digits, if there are any. */
  function ParseDigits(body: string): Option<int>
  {
    var ds := DigitPrefix(body);
    if ds == [] then None else Some(DecimalValue(ds))
  }

  lemma {:induction false} DecimalValueOfNatToString(n: nat)
    ensures DecimalValue(NatToString(n)) == n
  {
    if n >= 10 {
      var s := NatToString(n);
      assert s[..|s| - 1] == NatToString(n / 10);
      DecimalValueOfNatToString(n / 10);
    }
  }

  lemma {:induction false} DigitPrefixOfDigits(s: string)
    requires forall i :: 0 <= i < |s| ==> IsDigit(s[i])
    ensures DigitPrefix(s) == s
  {
    if s != [] {
      DigitPrefixOfDigits(s[1..]);
    }
  }

  lemma AppendAssoc(a: string, b: string, c: string)
    ensures a + b + c == a + (b + c)
  {
  }

  /** Text that does not start with a blank is already trimmed. */
  lemma TrimStartNoSpace(t: string)
    requires t == [] || !IsSpace(t[0])
    ensures TrimStart(t) == t
  {
  }

  /** Text that does not start with a blank is read by its sign and digits. */
  lemma ParseIntTrimmed(t: string)
    requires t == [] || !IsSpace(t[0])
    ensures ParseInt(t) == ParseSigned(t)
  {
    TrimStartNoSpace(t);
  }

  /** Text that starts with a digit is read as digits only. */
  lemma ParseIntUnsigned(s: string)
    requires s != [] && IsDigit(s[0])
    ensures ParseInt(s) == ParseDigits(s)
  {
    TrimStartNoSpace(s);
  }

  /** The digit prefix stops at the first non-digit. */
  lemma {:induction false} DigitPrefixOfDigitsThen(ds: string, rest: string)
    requires forall i :: 0 <= i < |ds| ==> IsDigit(ds[i])
    requires rest == [] || !IsDigit(rest[0])
    ensures DigitPrefix(ds + rest) == ds
  {
    if ds == [] {
      assert ds + rest == rest;
    } else {
      assert (ds + rest)[1..] == ds[1..] + rest;
      DigitPrefixOfDigitsThen(ds[1..], rest);
    }
  }

  /** The digits of a number, followed by text that does not start with a
      digit, are read as that number. */
  lemma ParseDigitsThen(m: nat, rest: string)
    requires rest == [] || !IsDigit(rest[0])
    ensures ParseDigits(NatToString(m) + rest) == Some(m)
  {
    var ds := NatToString(m);
    DecimalValueOfNatToString(m);
    DigitPrefixOfDigitsThen(ds, rest);
  }

  lemma ParseNatThen(m: nat, rest: string)
    requires rest == [] || !IsDigit(rest[0])
    ensures ParseInt(IntToString(m) + rest) == Some(m)
  {
    var t := NatToString(m) + rest;
    assert t[0] == NatToString(m)[0];
    ParseDigitsThen(m, rest);
    ParseIntUnsigned(t);
  }

  /** A minus sign before the digits negates what they read as. */
  lemma ParseSignedNegativeThen(m: nat, rest: string)
    requires rest == [] || !IsDigit(rest[0])
    ensures ParseSigned("-" + (NatToString(m) + rest)) == Some(-(m as int))
  {
    var t := NatToString(m) + rest;
    ParseDigitsThen(m, rest);
    assert ("-" + t)[1..] == t;
  }

  lemma ParseNegativeThen(m: nat, rest: string)
    requires m > 0
    requires rest == [] || !IsDigit(rest[0])
    ensures ParseInt(IntToString(-(m as int)) + rest) == Some(-(m as int))
  {
    ParseSignedNegativeThen(m, rest);
    ParseIntTrimmed("-" + (NatToString(m) + rest));
    assert IntToString(-(m as int)) == "-" + NatToString(m);
    AppendAssoc("-", NatToString(m), rest);
  }

  /** Reading a number that is followed by text which does not start with a
      digit gives back the number: `parseInt(String(i) + rest, 10) == i`. */
  lemma ParseIntOfIntToStringThen(i: int, rest: string)
    requires rest == [] || !IsDigit(rest[0])
    ensures ParseInt(IntToString(i) + rest) == Some(i)
  {
    if i < 0 {
      ParseNegativeThen(-i, rest);
    } else {
      ParseNatThen(i, rest);
    }
  }

  /** `parseInt(String(i), 10) == i`: printing an integer and parsing the text
      back gives the same integer. */
  lemma ParseIntOfIntToString(i: int)
    ensures ParseInt(IntToString(i)) == Some(i)
  {
    ParseIntOfIntToStringThen(i, []);
    assert IntToString(i) + [] == IntToString(i);
  }
}
