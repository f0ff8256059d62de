/** String helpers shared by the model: decimal rendering of integers, the
    JavaScript `parseInt(s, 10)` and `String.prototype.split` behaviours the
    source relies on, ASCII case mapping and padding. */
module Strings {

  predicate IsDigit(c: char) { '0' <= c <= '9' }

  predicate AllDigits(s: string) { forall i :: 0 <= i < |s| ==> IsDigit(s[i]) }

  function DigitValue(c: char): (d: nat)
    requires IsDigit(c)
    ensures d < 10
  {
    (c as int) - ('0' as int)
  }

  function DigitChar(d: nat): (c: char)
    requires d < 10
    ensures IsDigit(c) && DigitValue(c) == d
  {
    (('0' as int) + d) as char
  }

  /** Decimal rendering of a natural number without leading zeros (JavaScript `String(n)`). */
  function NatToString(n: nat): (s: string)
    ensures |s| > 0 && AllDigits(s)
    ensures s[0] != '0' || n == 0
    decreases n
  {
    if n < 10 then [DigitChar(n)] else NatToString(n / 10) + [DigitChar(n % 10)]
  }

  /** Decimal rendering of an integer, with a leading '-' when negative (JavaScript `${i}`). */
  function IntToString(i: int): (s: string)
    ensures |s| > 0
    ensures i < 0 <==> s[0] == '-'
    ensures forall k :: 0 <= k < |s| ==> s[k] != ','
  {
    if i < 0 then "-" + NatToString(-i) else NatToString(i)
  }

  /** The value of the digits of `s` appended to the value `acc`, read left to right. */
  function DigitsFrom(acc: nat, s: string): nat
    requires AllDigits(s)
    decreases |s|
  {
    if s == [] then acc else DigitsFrom(acc * 10 + DigitValue(s[0]), s[1..])
  }

  /** The value of a digit string. */
  function DigitsValue(s: string): nat
    requires AllDigits(s)
  {
    DigitsFrom(0, s)
  }

  lemma {:induction false} DigitsFromSnoc(acc: nat, s: string, c: char)
    requires AllDigits(s) && IsDigit(c)
    ensures AllDigits(s + [c])
    ensures DigitsFrom(acc, s + [c]) == DigitsFrom(acc, s) * 10 + DigitValue(c)
    decreases |s|
  {
    if s != [] {
      assert (s + [c])[1..] == s[1..] + [c];
      DigitsFromSnoc(acc * 10 + DigitValue(s[0]), s[1..], c);
    }
  }

  lemma {:induction false} NatToStringValue(n: nat)
    ensures DigitsValue(NatToString(n)) == n
    decreases n
  {
    if n >= 10 {
      assert NatToString(n) == NatToString(n / 10) + [DigitChar(n % 10)];
      NatToStringValue(n / 10);
      DigitsFromSnoc(0, NatToString(n / 10), DigitChar(n % 10));
      assert (n / 10) * 10 + n % 10 == n;
    } else {
      var c := DigitChar(n);
      assert NatToString(n) == [c];
      assert [c][1..] == [];
      assert DigitsFrom(0, [c]) == DigitsFrom(DigitValue(c), []);
    }
  }

  /** The result of JavaScript's `parseInt`: a number, or NaN. */
  datatype Parsed = NaN | Num(value: int)

  /** The white-space and line-terminator characters `parseInt` skips (ECMA-262 StrWhiteSpaceChar,
      restricted to the ASCII ones, NBSP, BOM and the two Unicode line separators). */
  predicate IsJsWhitespace(c: char)
  {
    c == ' ' || c == '\t' || c == '\n' || c == '\r' || c == '\U{000B}' || c == '\U{000C}'
    || c == '\U{00A0}' || c == '\U{FEFF}' || c == '\U{2028}' || c == '\U{2029}'
  }

  /** `v` with the sign the scan read. */
  function SignedValue(negative: bool, v: nat): int
  {
    if negative then -(v as int) else v
  }

  /** Where `parseInt` is in its scan: before the number, after a sign, or inside the digits. */
  datatype ScanPhase = Leading | Signed(negative: bool) | InDigits(negative: bool, acc: nat)

  /** The scan of `parseInt` from a phase: white space is skipped only before the number, one sign
      may follow it, and the number ends at the first character that is not a digit. */
  function ScanInt(s: string, phase: ScanPhase): Parsed
    decreases |s|
  {
    if s == [] then
      (if phase.InDigits? then Num(SignedValue(phase.negative, phase.acc)) else NaN)
    else
      var c := s[0];
      match phase
      case Leading =>
        if IsJsWhitespace(c) then ScanInt(s[1..], Leading)
        else if c == '-' then ScanInt(s[1..], Signed(true))
        else if c == '+' then ScanInt(s[1..], Signed(false))
        else if IsDigit(c) then ScanInt(s[1..], InDigits(false, DigitValue(c)))
        else NaN
      case Signed(negative) =>
        if IsDigit(c) then ScanInt(s[1..], InDigits(negative, DigitValue(c))) else NaN
      case InDigits(negative, acc) =>
        if IsDigit(c) then ScanInt(s[1..], InDigits(negative, acc * 10 + DigitValue(c)))
        else Num(SignedValue(negative, acc))
  }

  /** JavaScript `parseInt(s, 10)`: skip leading white space, read an optional sign, then the
      longest run of decimal digits; NaN when there is none. */
  function ParseInt(s: string): Parsed
  {
    ScanInt(s, Leading)
  }

  lemma {:induction false} ScanDigits(s: string, negative: bool, acc: nat)
    requires AllDigits(s)
    ensures ScanInt(s, InDigits(negative, acc)) == Num(SignedValue(negative, DigitsFrom(acc, s)))
    decreases |s|
  {
    if s != [] {
      ScanDigits(s[1..], negative, acc * 10 + DigitValue(s[0]));
    }
  }

  lemma ParseIntOfDigits(s: string)
    requires s != [] && AllDigits(s)
    ensures ParseInt(s) == Num(DigitsValue(s))
  {
    assert ParseInt(s) == ScanInt(s[1..], InDigits(false, DigitValue(s[0])));
    ScanDigits(s[1..], false, DigitValue(s[0]));
    assert DigitsFrom(0, s) == DigitsFrom(DigitValue(s[0]), s[1..]);
  }

  /** Printing an integer and parsing it back gives the integer. */
  lemma IntToStringRoundTrip(i: int)
    ensures ParseInt(IntToString(i)) == Num(i)
  {
    if i < 0 {
      var s := IntToString(i);
      var d := NatToString(-i);
      assert s[0] == '-' && s[1..] == d;
      assert ParseInt(s) == ScanInt(d, Signed(true));
      assert ScanInt(d, Signed(true)) == ScanInt(d[1..], InDigits(true, DigitValue(d[0])));
      ScanDigits(d[1..], true, DigitValue(d[0]));
      assert DigitsFrom(0, d) == DigitsFrom(DigitValue(d[0]), d[1..]);
      NatToStringValue(-i);
    } else {
      ParseIntOfDigits(NatToString(i));
      NatToStringValue(i);
    }
  }

  lemma {:induction false} NatToStringInjective(a: nat, b: nat)
    requires NatToString(a) == NatToString(b)
    ensures a == b
  {
    NatToStringValue(a);
    NatToStringValue(b);
  }

  lemma IntToStringInjective(a: int, b: int)
    requires IntToString(a) == IntToString(b)
    ensures a == b
  {
    IntToStringRoundTrip(a);
    IntToStringRoundTrip(b);
  }

  /** Index of the first `c` in `s`, or |s| when there is none. */
  function IndexOf(s: string, c: char): (i: nat)
    ensures i <= |s|
    ensures i < |s| ==> s[i] == c
    ensures forall k :: 0 <= k < i ==> s[k] != c
    decreases |s|
  {
    if s == [] then 0 else if s[0] == c then 0 else 1 + IndexOf(s[1..], c)
  }

  /** JavaScript `s.split(sep)` for a one-character separator: always at least one part. */
  function Split(s: string, sep: char): (parts: seq<string>)
    ensures |parts| >= 1
    decreases |s|
  {
    var i := IndexOf(s, sep);
    if i == |s| then [s] else [s[..i]] + Split(s[i + 1..], sep)
  }

  /** The inverse of `Split`: the parts glued back together with the separator. */
  function Join(parts: seq<string>, sep: char): string
  {
    if |parts| <= 1 then (if parts == [] then "" else parts[0])
    else parts[0] + [sep] + Join(parts[1..], sep)
  }

  lemma {:induction false} SplitJoin(s: string, sep: char)
    ensures Join(Split(s, sep), sep) == s
    ensures forall k, j :: 0 <= k < |Split(s, sep)| && 0 <= j < |Split(s, sep)[k]| ==> Split(s, sep)[k][j] != sep
    decreases |s|
  {
    var i := IndexOf(s, sep);
    if i < |s| {
      SplitJoin(s[i + 1..], sep);
      assert s == s[..i] + [sep] + s[i + 1..];
    }
  }

  lemma SplitAtFirst(a: string, sep: char, b: string)
    requires forall k :: 0 <= k < |a| ==> a[k] != sep
    ensures Split(a + [sep] + b, sep) == [a] + Split(b, sep)
  {
    var s := a + [sep] + b;
    var i := IndexOf(s, sep);
    assert s[|a|] == sep;
    assert forall k :: 0 <= k < |a| ==> s[k] == a[k] && s[k] != sep;
    assert i == |a|;
    assert s[..i] == a;
    assert s[i + 1..] == b;
  }

  lemma SplitNoSeparator(a: string, sep: char)
    requires forall k :: 0 <= k < |a| ==> a[k] != sep
    ensures Split(a, sep) == [a]
  {
    assert IndexOf(a, sep) == |a|;
  }

  /** JavaScript `toLowerCase`, for ASCII letters. */
  function ToLowerChar(c: char): char
  {
    if 'A' <= c <= 'Z' then ((c as int) + 32) as char else c
  }

  /** JavaScript `toUpperCase`, for ASCII letters. */
  function ToUpperChar(c: char): char
  {
    if 'a' <= c <= 'z' then ((c as int) - 32) as char else c
  }

  function ToLower(s: string): (r: string)
    ensures |r| == |s|
    ensures forall i :: 0 <= i < |s| ==> r[i] == ToLowerChar(s[i])
  {
    seq(|s|, i requires 0 <= i < |s| => ToLowerChar(s[i]))
  }

  function ToUpper(s: string): (r: string)
    ensures |r| == |s|
    ensures forall i :: 0 <= i < |s| ==> r[i] == ToUpperChar(s[i])
  {
    seq(|s|, i requires 0 <= i < |s| => ToUpperChar(s[i]))
  }

  /** Lower-casing twice is lower-casing once. */
  lemma ToLowerIdempotent(s: string)
    ensures ToLower(ToLower(s)) == ToLower(s)
  {
  }

  /** `s.charAt(0).toUpperCase() + s.slice(1)`. */
  function Capitalize(s: string): (r: string)
    ensures |r| == |s|
    ensures s != [] ==> r[0] == ToUpperChar(s[0]) && r[1..] == s[1..]
  {
    if s == [] then "" else [ToUpperChar(s[0])] + s[1..]
  }

  /** `s.padStart(2, '0')`. */
  function PadStart2(s: string): (r: string)
    ensures |r| == if |s| >= 2 then |s| else 2
    ensures r[|r| - |s|..] == s
    ensures forall k :: 0 <= k < |r| - |s| ==> r[k] == '0'
  {
    if |s| >= 2 then s else if |s| == 1 then "0" + s else "00"
  }

  /** `s.substring(0, n)` for n >= 0. */
  function Prefix(s: string, n: nat): (r: string)
    ensures |r| == if |s| < n then |s| else n
    ensures r == s[..|r|]
  {
    if |s| <= n then s else s[..n]
  }

  predicate IsPrefix(p: string, s: string) { |p| <= |s| && s[..|p|] == p }

  predicate IsSuffix(p: string, s: string) { |p| <= |s| && s[|s| - |p|..] == p }

  /** A prefix of `a` is a prefix of `a + b`. */
  lemma PrefixExtend(p: string, a: string, b: string)
    requires IsPrefix(p, a)
    ensures IsPrefix(p, a + b)
  {
    assert (a + b)[..|a|] == a;
    assert (a + b)[..|p|] == a[..|p|];
  }

  /** A prefix of a prefix is a prefix. */
  lemma PrefixTrans(a: string, b: string, c: string)
    requires IsPrefix(a, b) && IsPrefix(b, c)
    ensures IsPrefix(a, c)
  {
    assert c[..|a|] == c[..|b|][..|a|];
  }

  /** The three digits of a number below 1000, with leading zeros. */
  function Pad3(r: nat): (s: string)
    requires r < 1000
    ensures |s| == 3 && AllDigits(s)
  {
    [DigitChar(r / 100), DigitChar(r / 10 % 10), DigitChar(r % 10)]
  }

  /** `n.toLocaleString()` in the en-US locale: the decimal digits in groups of three, separated by
      commas. */
  function LocaleString(n: nat): string
    decreases n
  {
    if n < 1000 then NatToString(n) else LocaleString(n / 1000) + "," + Pad3(n % 1000)
  }

  /** `s` with its commas removed. */
  function RemoveCommas(s: string): (r: string)
    ensures forall k :: 0 <= k < |r| ==> r[k] != ','
  {
    if s == [] then [] else (if s[0] == ',' then [] else [s[0]]) + RemoveCommas(s[1..])
  }

  lemma {:induction false} RemoveCommasAppend(a: string, b: string)
    ensures RemoveCommas(a + b) == RemoveCommas(a) + RemoveCommas(b)
    decreases |a|
  {
    if a != [] {
      assert (a + b)[1..] == a[1..] + b;
      RemoveCommasAppend(a[1..], b);
    } else {
      assert a + b == b;
    }
  }

  lemma {:induction false} RemoveCommasOfDigits(s: string)
    requires AllDigits(s)
    ensures RemoveCommas(s) == s
    decreases |s|
  {
    if s != [] {
      RemoveCommasOfDigits(s[1..]);
    }
  }

  lemma {:induction false} DigitsFromAppend(acc: nat, a: string, b: string)
    requires AllDigits(a) && AllDigits(b)
    ensures AllDigits(a + b)
    ensures DigitsFrom(acc, a + b) == DigitsFrom(DigitsFrom(acc, a), b)
    decreases |a|
  {
    if a != [] {
      assert (a + b)[1..] == a[1..] + b;
      DigitsFromAppend(acc * 10 + DigitValue(a[0]), a[1..], b);
    } else {
      assert a + b == b;
    }
  }

  /** The three digits of `r`, read after `acc`, extend it by three decimal places. */
  lemma Pad3Arith(acc: nat, r: nat)
    requires r < 1000
    ensures ((acc * 10 + r / 100) * 10 + r / 10 % 10) * 10 + r % 10 == acc * 1000 + r
  {
    var t := r / 10;
    assert r == 10 * t + r % 10;
    assert t == 10 * (t / 10) + t % 10;
    assert t / 10 == r / 100;
  }

  lemma Pad3Value(acc: nat, r: nat)
    requires r < 1000
    ensures DigitsFrom(acc, Pad3(r)) == acc * 1000 + r
  {
    var p := Pad3(r);
    var a := acc * 10 + r / 100;
    var b := a * 10 + r / 10 % 10;
    assert DigitsFrom(acc, p) == DigitsFrom(a, p[1..]);
    assert DigitsFrom(a, p[1..]) == DigitsFrom(b, p[2..]);
    assert DigitsFrom(b, p[2..]) == DigitsFrom(b * 10 + r % 10, p[3..]);
    assert p[3..] == [];
    Pad3Arith(acc, r);
  }

  /** The grouped rendering is made of digits and commas, and without its commas it reads back as
      the number. */
  lemma {:induction false} LocaleStringValue(n: nat)
    ensures AllDigits(RemoveCommas(LocaleString(n)))
    ensures DigitsValue(RemoveCommas(LocaleString(n))) == n
    ensures n < 1000 ==> LocaleString(n) == NatToString(n)
    decreases n
  {
    if n < 1000 {
      RemoveCommasOfDigits(NatToString(n));
      NatToStringValue(n);
    } else {
      var q, r := n / 1000, n % 1000;
      LocaleStringValue(q);
      var head := RemoveCommas(LocaleString(q));
      RemoveCommasAppend(LocaleString(q) + ",", Pad3(r));
      RemoveCommasAppend(LocaleString(q), ",");
      RemoveCommasOfDigits(Pad3(r));
      assert RemoveCommas(",") == [];
      assert RemoveCommas(LocaleString(n)) == head + Pad3(r);
      DigitsFromAppend(0, head, Pad3(r));
      Pad3Value(q, r);
    }
  }
}
