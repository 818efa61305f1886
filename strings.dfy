/**
 * The JavaScript string operations the application relies on, stated on `seq<char>`:
 * `toLowerCase` (ASCII letters), `includes`, `startsWith`, `endsWith`, `parseInt` without a
 * radix, number-to-string conversion, `padStart`, `join`, `split` and `replace`.
 */
module Strings {
  import opened Wrappers

  // ---------------------------------------------------------------- case

  predicate IsUpper(c: char) { 'A' <= c <= 'Z' }

  function LowerChar(c: char): (r: char)
    ensures !IsUpper(r)
    ensures !IsUpper(c) ==> r == c
  {
    if IsUpper(c) then (c as int + 32) as char else c
  }

  /** `String.prototype.toLowerCase`, on the ASCII letters. */
  function ToLower(s: string): (r: string)
    ensures |r| == |s|
    ensures forall i | 0 <= i < |r| :: !IsUpper(r[i])
    ensures (forall i | 0 <= i < |s| :: !IsUpper(s[i])) ==> r == s
  {
    seq(|s|, i requires 0 <= i < |s| => LowerChar(s[i]))
  }

  // ---------------------------------------------------------------- search

  predicate StartsWith(s: string, p: string) { |p| <= |s| && s[..|p|] == p }

  predicate EndsWith(s: string, p: string) { |p| <= |s| && s[|s| - |p|..] == p }

  /** `k` occurs in `s` at position `i`. */
  predicate MatchAt(s: string, k: string, i: nat) { i + |k| <= |s| && s[i..i + |k|] == k }

  /** `s.includes(k)`. */
  predicate Contains(s: string, k: string) { exists i: nat | i <= |s| :: MatchAt(s, k, i) }

  /** `ks.some(k => s.includes(k))`. */
  predicate ContainsAny(s: string, ks: seq<string>) { exists k | k in ks :: Contains(s, k) }

  lemma StartsWithIsContained(s: string, k: string)
    requires StartsWith(s, k)
    ensures Contains(s, k)
  {
    assert MatchAt(s, k, 0);
  }

  lemma EndsWithIsContained(s: string, k: string)
    requires EndsWith(s, k)
    ensures Contains(s, k)
  {
    assert MatchAt(s, k, |s| - |k|);
  }

  /** A keyword with a character that the message lacks does not occur in it. */
  lemma RefuteByChar(s: string, k: string, j: nat)
    requires j < |k| && k[j] !in s
    ensures !Contains(s, k)
  {
  }

  /** A keyword with two neighbouring characters that never stand side by side in the message does not occur in it. */
  lemma RefuteByPair(s: string, k: string, j: nat)
    requires j + 1 < |k|
    requires forall i | 0 <= i < |s| - 1 :: !(s[i] == k[j] && s[i + 1] == k[j + 1])
    ensures !Contains(s, k)
  {
    forall i: nat | i <= |s| ensures !MatchAt(s, k, i) {
      if i + |k| <= |s| {
        assert s[i..i + |k|][j] == s[i + j] && s[i..i + |k|][j + 1] == s[i + j + 1];
      }
    }
  }

  /** Refutes a keyword through whichever of its first five characters the message lacks. */
  lemma RefuteByEarlyChar(s: string, k: string)
    requires
      || (|k| > 0 && k[0] !in s) || (|k| > 1 && k[1] !in s) || (|k| > 2 && k[2] !in s)
      || (|k| > 3 && k[3] !in s) || (|k| > 4 && k[4] !in s)
    ensures !Contains(s, k)
  {
    if |k| > 0 && k[0] !in s { RefuteByChar(s, k, 0); }
    else if |k| > 1 && k[1] !in s { RefuteByChar(s, k, 1); }
    else if |k| > 2 && k[2] !in s { RefuteByChar(s, k, 2); }
    else if |k| > 3 && k[3] !in s { RefuteByChar(s, k, 3); }
    else { RefuteByChar(s, k, 4); }
  }

  // ---------------------------------------------------------------- numbers

  predicate IsDigit(c: char) { '0' <= c <= '9' }

  predicate AllDigits(d: string) { forall i | 0 <= i < |d| :: IsDigit(d[i]) }

  /**
   * The white space and line terminators `parseInt` skips before a number: tab, line feed,
   * vertical tab, form feed, carriage return, space, no-break space, the byte order mark,
   * the Unicode space separators and the line and paragraph separators.
   */
  predicate IsSpace(c: char) {
    || c == '\t' || c == '\n' || c == '\U{000B}' || c == '\U{000C}' || c == '\r' || c == ' '
    || c == '\U{00A0}' || c == '\U{1680}' || '\U{2000}' <= c <= '\U{200A}' || c == '\U{2028}'
    || c == '\U{2029}' || c == '\U{202F}' || c == '\U{205F}' || c == '\U{3000}' || c == '\U{FEFF}'
  }

  /** The value of `c` as a digit of a base up to 36 (`0`-`9`, then the letters from 10); 36 for anything else. */
  function DigitValue(c: char): (v: nat)
    ensures v <= 36
    ensures v < 10 <==> IsDigit(c)
    ensures IsDigit(c) ==> v == c as int - '0' as int
  {
    if IsDigit(c) then c as int - '0' as int
    else if 'a' <= c <= 'z' then c as int - 'a' as int + 10
    else if 'A' <= c <= 'Z' then c as int - 'A' as int + 10
    else 36
  }

  predicate AllDigitsIn(d: string, radix: nat) { forall i | 0 <= i < |d| :: DigitValue(d[i]) < radix }

  function DigitChar(n: nat): (c: char)
    requires n < 10
    ensures IsDigit(c) && DigitValue(c) == n
  {
    ('0' as int + n) as char
  }

  /** The longest prefix of `s` made of digits of base `radix`. */
  function LeadingDigits(s: string, radix: nat): (d: string)
    ensures d <= s && AllDigitsIn(d, radix)
    ensures |d| == |s| || DigitValue(s[|d|]) >= radix
  {
    if |s| > 0 && DigitValue(s[0]) < radix then [s[0]] + LeadingDigits(s[1..], radix) else []
  }

  /** The value of a string of base-`radix` digits, most significant first. */
  function DigitsValue(d: string, radix: nat): nat
    requires AllDigitsIn(d, radix)
  {
    if d == [] then 0 else radix * DigitsValue(d[..|d| - 1], radix) + DigitValue(d[|d| - 1])
  }

  /** `s` without the white space at its start. */
  function TrimStart(s: string): (t: string)
    ensures |t| <= |s|
    ensures t == [] || !IsSpace(t[0])
  {
    if |s| > 0 && IsSpace(s[0]) then TrimStart(s[1..]) else s
  }

  /** `u` starts with the `0x` or `0X` that makes `parseInt` read hexadecimal. */
  predicate HexPrefixed(u: string) { |u| >= 2 && u[0] == '0' && (u[1] == 'x' || u[1] == 'X') }

  /**
   * `parseInt` after the sign: the longest run of hexadecimal digits after a `0x` prefix,
   * otherwise of decimal digits; no number (`NaN`) when that run is empty.
   */
  function ParseMagnitude(u: string): (r: Option<int>)
    ensures r.Some? ==> r.value >= 0
    ensures |u| > 0 && IsDigit(u[0]) && !HexPrefixed(u) ==> r.Some?
    ensures u == [] || DigitValue(u[0]) >= 10 ==> r.None?
  {
    var radix := if HexPrefixed(u) then 16 else 10;
    var d := LeadingDigits(if HexPrefixed(u) then u[2..] else u, radix);
    if d == [] then None else Some(DigitsValue(d, radix))
  }

  /** `-m` for a number, NaN for NaN. */
  function Negate(r: Option<int>): (n: Option<int>)
    ensures n.Some? <==> r.Some?
    ensures n.Some? ==> n.value + r.value == 0
  {
    match r
    case None => None
    case Some(m) => Some(-m)
  }

  /** `parseInt` after the white space: an optional `+` or `-` sign, then the magnitude. */
  function ParseSigned(t: string): (r: Option<int>)
    ensures t == [] || (t[0] != '+' && t[0] != '-') ==> r == ParseMagnitude(t)
  {
    if |t| > 0 && t[0] == '-' then Negate(ParseMagnitude(t[1..]))
    else if |t| > 0 && t[0] == '+' then ParseMagnitude(t[1..])
    else ParseMagnitude(t)
  }

  /**
   * `parseInt(s)` with no radix, None standing for `NaN`: white space at the start is
   * skipped, an optional `+` or `-` sign is read, a `0x` or `0X` prefix then selects base 16,
   * and the longest run of digits that follows is the number (`-0` is 0).
   */
  function ParseInt(s: string): (r: Option<int>)
    ensures |s| > 0 && IsDigit(s[0]) ==> r.None? || r.value >= 0
    ensures |s| > 0 && IsDigit(s[0]) && !HexPrefixed(s) ==> r.Some?
    ensures s == [] || (DigitValue(s[0]) >= 10 && !IsSpace(s[0]) && s[0] != '+' && s[0] != '-') ==> r.None?
  {
    assert s != [] && !IsSpace(s[0]) ==> TrimStart(s) == s;
    ParseSigned(TrimStart(s))
  }

  /** Text that starts with neither white space nor a sign parses as its magnitude. */
  lemma ParseUnsigned(u: string)
    requires u == [] || (!IsSpace(u[0]) && u[0] != '+' && u[0] != '-')
    ensures ParseInt(u) == ParseMagnitude(u)
  {
  }

  /** White space before a number is skipped. */
  lemma ParseIntSkipsSpace(c: char, s: string)
    requires IsSpace(c)
    ensures ParseInt([c] + s) == ParseInt(s)
  {
    assert ([c] + s)[1..] == s;
  }

  /** A minus sign negates the number after it and a plus sign leaves it as it is. */
  lemma ParseIntSign(u: string)
    requires u == [] || (!IsSpace(u[0]) && u[0] != '+' && u[0] != '-')
    ensures ParseInt("-" + u) == Negate(ParseMagnitude(u)) == Negate(ParseInt(u))
    ensures ParseInt("+" + u) == ParseMagnitude(u) == ParseInt(u)
  {
    assert ("-" + u)[0] == '-' && ("-" + u)[1..] == u;
    assert ("+" + u)[0] == '+' && ("+" + u)[1..] == u;
    ParseUnsigned(u);
  }

  /** `parseInt(" 9")` is 9: the space is skipped. */
  lemma ParseIntSpaceExample()
    ensures ParseInt(" 9") == Some(9)
  {
    ParseIntSkipsSpace(' ', "9");
    assert [' '] + "9" == " 9";
    ParseUnsigned("9");
    assert LeadingDigits("9", 10) == "9";
  }

  /** `parseInt("-1")` is -1. */
  lemma ParseIntSignExample()
    ensures ParseInt("-1") == Some(-1)
  {
    assert "-" + "1" == "-1";
    ParseIntSign("1");
    ParseIntDigits("1");
    assert DigitsValue("1", 10) == 1;
  }

  lemma HexTwelve()
    ensures LeadingDigits("12", 16) == "12" && DigitsValue("12", 16) == 18
  {
    assert "12"[1..] == "2" && "12"[..1] == "1";
    assert LeadingDigits("2", 16) == "2";
    assert DigitsValue("1", 16) == 1;
  }

  /** `parseInt("0x12")` is 18 and `parseInt("0x")` is NaN. */
  lemma ParseIntHexExample()
    ensures ParseInt("0x12") == Some(18)
    ensures ParseInt("0x") == None
  {
    ParseUnsigned("0x12");
    ParseUnsigned("0x");
    assert HexPrefixed("0x12") && "0x12"[2..] == "12";
    assert HexPrefixed("0x") && "0x"[2..] == [];
    HexTwelve();
  }

  /** The decimal representation of `n`, as `n.toString()` gives it. */
  function NatToString(n: nat): (s: string)
    ensures |s| > 0 && AllDigits(s)
    ensures n >= 10 ==> s[0] != '0'
  {
    if n < 10 then [DigitChar(n)] else NatToString(n / 10) + [DigitChar(n % 10)]
  }

  /** `n.toString()` for an integer: a minus sign for a negative one, then its digits. */
  function IntToString(n: int): (s: string)
    ensures |s| > 0 && (s[0] == '-' <==> n < 0)
    ensures n >= 0 ==> AllDigits(s)
    ensures n < 0 ==> AllDigits(s[1..]) && |s| >= 2
  {
    if n < 0 then "-" + NatToString(-n) else NatToString(n)
  }

  lemma {:induction false} NatToStringValue(n: nat)
    ensures DigitsValue(NatToString(n), 10) == n
  {
    if n >= 10 {
      var s := NatToString(n);
      assert s[..|s| - 1] == NatToString(n / 10);
      NatToStringValue(n / 10);
    }
  }

  lemma {:induction false} LeadingDigitsOfNumber(d: string, rest: string)
    requires AllDigits(d)
    requires rest == [] || !IsDigit(rest[0])
    ensures LeadingDigits(d + rest, 10) == d
  {
    if d != [] {
      assert (d + rest)[1..] == d[1..] + rest;
      LeadingDigitsOfNumber(d[1..], rest);
    }
  }

  lemma {:induction false} LeadingZeroValue(d: string)
    requires AllDigits(d)
    ensures DigitsValue("0" + d, 10) == DigitsValue(d, 10)
  {
    if d != [] {
      assert ("0" + d)[..|"0" + d| - 1] == "0" + d[..|d| - 1];
      LeadingZeroValue(d[..|d| - 1]);
    }
  }

  /** A run of decimal digits reads as its decimal value. */
  lemma ParseIntDigits(d: string)
    ensures d != [] && AllDigits(d) ==> ParseInt(d) == Some(DigitsValue(d, 10))
  {
    if d != [] && AllDigits(d) {
      ParseUnsigned(d);
      assert !HexPrefixed(d);
      LeadingDigitsOfNumber(d, []);
      assert d + [] == d;
    }
  }

  /** The magnitude of a printed number followed by a non-digit is the number. */
  lemma MagnitudeOfNumber(n: nat, rest: string)
    requires rest == [] || (!IsDigit(rest[0]) && (n != 0 || (rest[0] != 'x' && rest[0] != 'X')))
    ensures ParseMagnitude(NatToString(n) + rest) == Some(n)
  {
    var s := NatToString(n) + rest;
    assert s[0] == NatToString(n)[0];
    assert !HexPrefixed(s);
    LeadingDigitsOfNumber(NatToString(n), rest);
    NatToStringValue(n);
  }

  /**
   * Parsing a printed number gives the number back when what follows it is not a digit
   * (nor, after a lone 0, the `x` of a hexadecimal prefix).
   */
  lemma ParseIntOfNumber(n: nat, rest: string)
    requires rest == [] || (!IsDigit(rest[0]) && (n != 0 || (rest[0] != 'x' && rest[0] != 'X')))
    ensures ParseInt(NatToString(n) + rest) == Some(n)
  {
    var s := NatToString(n) + rest;
    assert s[0] == NatToString(n)[0];
    ParseUnsigned(s);
    MagnitudeOfNumber(n, rest);
  }

  /** Parsing a printed integer, negative or not, gives it back under the same condition on what follows. */
  lemma ParseIntOfInt(n: int, rest: string)
    requires rest == [] || (!IsDigit(rest[0]) && (n != 0 || (rest[0] != 'x' && rest[0] != 'X')))
    ensures ParseInt(IntToString(n) + rest) == Some(n)
  {
    if n < 0 {
      var d := NatToString(-n) + rest;
      assert IntToString(n) + rest == "-" + d;
      assert d[0] == NatToString(-n)[0];
      NegativeNumber(d, -n, rest);
    } else {
      ParseIntOfNumber(n, rest);
    }
  }

  lemma NegativeNumber(d: string, m: nat, rest: string)
    requires m != 0 && d == NatToString(m) + rest && (rest == [] || !IsDigit(rest[0]))
    ensures ParseInt("-" + d) == Some(-(m as int))
  {
    assert d[0] == NatToString(m)[0];
    ParseIntSign(d);
    MagnitudeOfNumber(m, rest);
  }

  /** `s.padStart(2, '0')`. */
  function PadStart2(s: string): (r: string)
    ensures |r| == if |s| < 2 then 2 else |s|
    ensures r[|r| - |s|..] == s
  {
    if |s| == 0 then "00" else if |s| == 1 then "0" + s else s
  }

  /** A zero-padded integer still parses back to the integer. */
  lemma ParsePaddedNumber(n: int, rest: string)
    requires rest == [] || !IsDigit(rest[0])
    ensures ParseInt(PadStart2(IntToString(n)) + rest) == Some(n)
  {
    var s := IntToString(n);
    if |s| == 1 {
      NatToStringValue(n);
      assert PadStart2(s) + rest == "0" + (s + rest);
      assert !HexPrefixed("0" + (s + rest));
      ParseUnsigned("0" + (s + rest));
      LeadingDigitsOfNumber("0" + s, rest);
      LeadingDigitsOfNumber(s, rest);
      LeadingZeroValue(s);
    } else {
      ParseIntOfInt(n, rest);
    }
  }

  // ---------------------------------------------------------------- join and split

  /** `xs.join(sep)`. */
  function Join(xs: seq<string>, sep: string): (r: string)
    ensures xs == [] ==> r == ""
    ensures |xs| == 1 ==> r == xs[0]
  {
    if xs == [] then "" else if |xs| == 1 then xs[0] else Join(xs[..|xs| - 1], sep) + sep + xs[|xs| - 1]
  }

  /** `s.split(c)` for a one-character separator: the pieces between the separators. */
  function Split(s: string, c: char): (r: seq<string>)
    ensures |r| > 0
  {
    if s == [] then [""]
    else
      var rest := Split(s[..|s| - 1], c);
      if s[|s| - 1] == c then rest + [""]
      else rest[..|rest| - 1] + [rest[|rest| - 1] + [s[|s| - 1]]]
  }

  lemma {:induction false} SplitAppendPlain(s: string, t: string, c: char)
    requires c !in t
    ensures Split(s + t, c) == Split(s, c)[..|Split(s, c)| - 1] + [Split(s, c)[|Split(s, c)| - 1] + t]
    decreases |t|
  {
    if t == [] {
      var S := Split(s, c);
      assert s + t == s;
      assert S[|S| - 1] + t == S[|S| - 1];
      assert S[..|S| - 1] + [S[|S| - 1]] == S;
    } else {
      var t' := t[..|t| - 1];
      assert (s + t)[..|s + t| - 1] == s + t';
      SplitAppendPlain(s, t', c);
      var S, rest := Split(s, c), Split(s + t', c);
      assert (s + t)[|s + t| - 1] == t[|t| - 1] != c;
      assert rest[..|rest| - 1] == S[..|S| - 1];
      assert rest[|rest| - 1] == S[|S| - 1] + t';
      assert S[|S| - 1] + t' + [t[|t| - 1]] == S[|S| - 1] + t;
    }
  }

  lemma SplitAppendSep(s: string, c: char)
    ensures Split(s + [c], c) == Split(s, c) + [""]
  {
    assert (s + [c])[..|s + [c]| - 1] == s;
  }

  /** A separator followed by plain text starts one more piece holding that text. */
  lemma SplitAfterSep(s: string, t: string, c: char)
    requires c !in t
    ensures Split(s + [c] + t, c) == Split(s, c) + [t]
  {
    SplitAppendSep(s, c);
    SplitAppendPlain(s + [c], t, c);
    var S := Split(s, c) + [""];
    assert S[..|S| - 1] == Split(s, c);
    assert S[|S| - 1] + t == t;
  }

  /** Splitting a joined list on its separator gives the list back when no element holds the separator. */
  lemma {:induction false} SplitJoin(xs: seq<string>, c: char)
    requires xs != []
    requires forall x | x in xs :: c !in x
    ensures Split(Join(xs, [c]), c) == xs
  {
    if |xs| == 1 {
      SplitAppendPlain([], xs[0], c);
      assert [] + xs[0] == xs[0];
    } else {
      var init, last := xs[..|xs| - 1], xs[|xs| - 1];
      assert xs == init + [last];
      assert forall x | x in init :: x in xs;
      SplitJoin(init, c);
      assert Join(xs, [c]) == Join(init, [c]) + [c] + last;
      SplitAfterSep(Join(init, [c]), last, c);
    }
  }

  // ---------------------------------------------------------------- replace

  /** `s.replace(p, r)` with a string pattern: only the first occurrence is replaced. */
  function ReplaceFirst(s: string, p: string, r: string): (res: string)
    ensures !Contains(s, p) ==> res == s
    decreases |s|
  {
    if StartsWith(s, p) then
      StartsWithIsContained(s, p);
      r + s[|p|..]
    else if s == [] then
      s
    else
      NotContainedInTail(s, p);
      [s[0]] + ReplaceFirst(s[1..], p, r)
  }

  lemma NotContainedInTail(s: string, p: string)
    requires s != [] && !StartsWith(s, p)
    ensures Contains(s[1..], p) ==> Contains(s, p)
  {
    if Contains(s[1..], p) {
      var i: nat :| i <= |s[1..]| && MatchAt(s[1..], p, i);
      assert s[i + 1..i + 1 + |p|] == s[1..][i..i + |p|];
      assert MatchAt(s, p, i + 1);
    }
  }

  /** `s.replace(/x/g, y)` for a single character `x`. */
  function ReplaceAllChar(s: string, x: char, y: char): (r: string)
    ensures |r| == |s|
    ensures x != y ==> x !in r
    ensures forall i | 0 <= i < |s| && s[i] != x :: r[i] == s[i]
  {
    seq(|s|, i requires 0 <= i < |s| => if s[i] == x then y else s[i])
  }
}
