/**
 * String helpers shared by the model: joining and splitting on a separator,
 * substring search, decimal rendering of integers and whitespace trimming.
 * Strings are sequences of UTF-16 code units, as in .NET.
 */
module Text {

  /** The parts separated by `sep`, as Python's `sep.join(parts)` and .NET's `string.Join`. */
  function Join(parts: seq<string>, sep: string): string
  {
    if |parts| == 0 then ""
    else if |parts| == 1 then parts[0]
    else parts[0] + sep + Join(parts[1..], sep)
  }

  /** .NET `s.Split(c)`: the maximal runs between occurrences of `c`; empty runs are kept. */
  function Split(s: string, c: char): (r: seq<string>)
    ensures |r| >= 1
    ensures forall k :: 0 <= k < |r| ==> c !in r[k]
  {
    if |s| == 0 then [""]
    else if s[0] == c then [""] + Split(s[1..], c)
    else
      var rest := Split(s[1..], c);
      [[s[0]] + rest[0]] + rest[1..]
  }

  /** Splitting and re-joining with the same separator gives back the original string. */
  lemma {:induction false} JoinSplit(s: string, c: char)
    ensures Join(Split(s, c), [c]) == s
  {
    if |s| == 0 {
    } else if s[0] == c {
      JoinSplit(s[1..], c);
      assert s == [c] + s[1..];
    } else {
      JoinSplit(s[1..], c);
      var rest := Split(s[1..], c);
      if |rest| == 1 {
        assert Split(s, c) == [[s[0]] + rest[0]];
      } else {
        assert Split(s, c)[1..] == rest[1..];
        assert Join(rest, [c]) == rest[0] + [c] + Join(rest[1..], [c]);
      }
      assert s == [s[0]] + s[1..];
    }
  }

  /** Characters other than the separator extend the first part. */
  lemma {:induction false} SplitPlain(x: string, s: string, c: char)
    requires c !in x
    ensures Split(x + s, c) == [x + Split(s, c)[0]] + Split(s, c)[1..]
    decreases |x|
  {
    if x == [] {
      var r := Split(s, c);
      assert x + s == s && x + r[0] == r[0];
      assert [r[0]] + r[1..] == r;
    } else {
      assert (x + s)[0] == x[0] && (x + s)[1..] == x[1..] + s;
      SplitPlain(x[1..], s, c);
      assert [x[0]] + (x[1..] + Split(s, c)[0]) == x + Split(s, c)[0];
    }
  }

  /** Joining parts free of the separator and splitting again gives the parts back. */
  lemma {:induction false} SplitJoin(parts: seq<string>, c: char)
    requires |parts| >= 1 && forall k :: 0 <= k < |parts| ==> c !in parts[k]
    ensures Split(Join(parts, [c]), c) == parts
    decreases |parts|
  {
    var x := parts[0];
    if |parts| == 1 {
      SplitPlain(x, "", c);
      assert x + "" == x;
    } else {
      var rest := Join(parts[1..], [c]);
      SplitJoin(parts[1..], c);
      assert Join(parts, [c]) == x + ([c] + rest);
      assert ([c] + rest)[0] == c && ([c] + rest)[1..] == rest;
      SplitPlain(x, [c] + rest, c);
      assert x + "" == x;
    }
  }

  /** `sub` occurs in `s` starting at index `i`. */
  predicate OccursAt(s: string, sub: string, i: int)
  {
    0 <= i && i + |sub| <= |s| && s[i..i + |sub|] == sub
  }

  /** .NET `s.Contains(sub)` (ordinal comparison). */
  predicate Contains(s: string, sub: string)
  {
    exists i | 0 <= i <= |s| - |sub| :: OccursAt(s, sub, i)
  }

  lemma ContainsInAppend(a: string, sub: string, b: string)
    requires Contains(a, sub)
    ensures Contains(a + b, sub) && Contains(b + a, sub)
  {
    var i :| 0 <= i <= |a| - |sub| && OccursAt(a, sub, i);
    assert a[i..i + |sub|] == sub;
    assert (a + b)[i..i + |sub|] == a[i..i + |sub|];
    assert OccursAt(a + b, sub, i);
    assert (b + a)[|b| + i..|b| + i + |sub|] == a[i..i + |sub|];
    assert OccursAt(b + a, sub, |b| + i);
  }

  predicate IsDigit(c: char)
  {
    '0' <= c <= '9'
  }

  function DigitChar(d: nat): (c: char)
    requires d < 10
    ensures IsDigit(c)
  {
    "0123456789"[d]
  }

  function DigitValue(c: char): (d: nat)
    requires IsDigit(c)
    ensures d < 10
  {
    (c as int - '0' as int) as nat
  }

  /** Decimal rendering of a natural number, without leading zeros ("0" for zero). */
  function NatToDecimal(n: nat): (r: string)
    ensures |r| >= 1
    ensures forall k :: 0 <= k < |r| ==> IsDigit(r[k])
    ensures |r| > 1 ==> r[0] != '0'
  {
    if n < 10 then [DigitChar(n)] else NatToDecimal(n / 10) + [DigitChar(n % 10)]
  }

  /** The number a string of decimal digits denotes. */
  function DecimalValue(s: string): nat
    requires forall k :: 0 <= k < |s| ==> IsDigit(s[k])
  {
    if |s| == 0 then 0 else 10 * DecimalValue(s[..|s| - 1]) + DigitValue(s[|s| - 1])
  }

  /** Reading back a rendered number gives the number. */
  lemma {:induction false} DecimalRoundTrip(n: nat)
    ensures DecimalValue(NatToDecimal(n)) == n
  {
    var r := NatToDecimal(n);
    if n < 10 {
      assert DigitValue(DigitChar(n)) == n;
    } else {
      DecimalRoundTrip(n / 10);
      assert r[..|r| - 1] == NatToDecimal(n / 10);
      assert DigitValue(DigitChar(n % 10)) == n % 10;
    }
  }

  /** Decimal rendering of an integer, with a leading '-' when negative (C# and Python agree). */
  function IntToDecimal(i: int): (r: string)
    ensures |r| >= 1
    ensures (r[0] == '-') <==> i < 0
  {
    if i < 0 then "-" + NatToDecimal(-i) else NatToDecimal(i)
  }

  /** Python's `format(n, '02d')`: zero-padded to at least two characters. */
  function Pad2(n: int): (r: string)
    ensures 0 <= n < 100 ==> |r| == 2 && IsDigit(r[0]) && IsDigit(r[1]) && DecimalValue(r) == n
    ensures n >= 100 || n < 0 ==> r == IntToDecimal(n)
  {
    if 0 <= n < 100 then
      var r := [DigitChar(n / 10), DigitChar(n % 10)];
      assert r[..1] == [DigitChar(n / 10)];
      assert DigitValue(DigitChar(n / 10)) == n / 10 && DigitValue(DigitChar(n % 10)) == n % 10;
      assert [DigitChar(n / 10)][..0] == [];
      assert DecimalValue([DigitChar(n / 10)]) == n / 10;
      assert DecimalValue(r) == 10 * (n / 10) + n % 10;
      r
    else IntToDecimal(n)
  }

  /**
   * .NET's `char.IsWhiteSpace`, the characters `Trim()` removes: the
   * controls U+0009 to U+000D and U+0085, and Unicode's space, line and
   * paragraph separators.
   */
  predicate IsWhite(c: char)
  {
    c == ' ' || ('\t' <= c <= '\r') || c == '\U{0085}' || c == '\U{00A0}' || c == '\U{1680}' ||
    ('\U{2000}' <= c <= '\U{200A}') || c == '\U{2028}' || c == '\U{2029}' || c == '\U{202F}' ||
    c == '\U{205F}' || c == '\U{3000}'
  }

  /** Whose idea of white space a trim follows. */
  datatype WhiteSpace = DotNetWhite | PythonWhite

  /** Python's `str.isspace` adds the separators U+001C to U+001F to the .NET set. */
  predicate IsWhiteIn(c: char, white: WhiteSpace)
  {
    IsWhite(c) || (white == PythonWhite && '\U{001C}' <= c <= '\U{001F}')
  }

  /** The first index at or after i that is not white (|s| if none). */
  function SkipWhite(s: string, i: nat, white: WhiteSpace): (r: nat)
    requires i <= |s|
    ensures i <= r <= |s|
    ensures forall k :: i <= k < r ==> IsWhiteIn(s[k], white)
    ensures r < |s| ==> !IsWhiteIn(s[r], white)
    decreases |s| - i
  {
    if i < |s| && IsWhiteIn(s[i], white) then SkipWhite(s, i + 1, white) else i
  }

  /** The smallest index j' with lo <= j' <= j such that s[j'..j] is all white. */
  function SkipWhiteBack(s: string, lo: nat, j: nat, white: WhiteSpace): (r: nat)
    requires lo <= j <= |s|
    ensures lo <= r <= j
    ensures forall k :: r <= k < j ==> IsWhiteIn(s[k], white)
    ensures r > lo ==> !IsWhiteIn(s[r - 1], white)
    decreases j
  {
    if j > lo && IsWhiteIn(s[j - 1], white) then SkipWhiteBack(s, lo, j - 1, white) else j
  }

  /**
   * `s` without white characters at either end: the slice between
   * the first and the last character that is not white; everything cut off
   * is white.
   */
  function TrimWith(s: string, white: WhiteSpace): (r: string)
    ensures r == "" || (!IsWhiteIn(r[0], white) && !IsWhiteIn(r[|r| - 1], white))
    ensures exists a | 0 <= a <= |s| - |r| :: OccursAt(s, r, a) &&
              (forall k :: 0 <= k < a ==> IsWhiteIn(s[k], white)) && (forall k :: a + |r| <= k < |s| ==> IsWhiteIn(s[k], white))
  {
    var a := SkipWhite(s, 0, white);
    var b := SkipWhiteBack(s, a, |s|, white);
    assert OccursAt(s, s[a..b], a);
    s[a..b]
  }

  /** Trimming twice is trimming once. */
  lemma TrimWithIdempotent(s: string, white: WhiteSpace)
    ensures TrimWith(TrimWith(s, white), white) == TrimWith(s, white)
  {
    var r := TrimWith(s, white);
    if r != "" {
      assert SkipWhite(r, 0, white) == 0;
      assert SkipWhiteBack(r, 0, |r|, white) == |r|;
    }
  }

  /** .NET `s.Trim()`: the white space at both ends removed, and nothing else. */
  function Trim(s: string): (r: string)
    ensures r == "" || (!IsWhite(r[0]) && !IsWhite(r[|r| - 1]))
    ensures exists a | 0 <= a <= |s| - |r| :: OccursAt(s, r, a) &&
              (forall k :: 0 <= k < a ==> IsWhite(s[k])) && (forall k :: a + |r| <= k < |s| ==> IsWhite(s[k]))
  {
    TrimWith(s, DotNetWhite)
  }

  /** Python `s.strip()`: the same with Python's wider set of white characters. */
  function Strip(s: string): (r: string)
    ensures r == "" || (!IsWhiteIn(r[0], PythonWhite) && !IsWhiteIn(r[|r| - 1], PythonWhite))
    ensures exists a | 0 <= a <= |s| - |r| :: OccursAt(s, r, a) &&
              (forall k :: 0 <= k < a ==> IsWhiteIn(s[k], PythonWhite)) && (forall k :: a + |r| <= k < |s| ==> IsWhiteIn(s[k], PythonWhite))
  {
    TrimWith(s, PythonWhite)
  }

  /** `Trim` applied to its own result changes nothing. */
  lemma TrimIdempotent(s: string)
    ensures Trim(Trim(s)) == Trim(s)
  {
    TrimWithIdempotent(s, DotNetWhite);
  }

  /** `Strip` applied to its own result changes nothing. */
  lemma StripIdempotent(s: string)
    ensures Strip(Strip(s)) == Strip(s)
  {
    TrimWithIdempotent(s, PythonWhite);
  }

  /** The text a .NET StringBuilder holds after `AppendLine` of each line in turn. */
  function AppendLines(lines: seq<string>, newLine: string): (r: string)
    ensures |r| == |newLine| * |lines| + LinesLength(lines)
  {
    if |lines| == 0 then "" else AppendLines(lines[..|lines| - 1], newLine) + lines[|lines| - 1] + newLine
  }

  function LinesLength(lines: seq<string>): nat
  {
    if |lines| == 0 then 0 else LinesLength(lines[..|lines| - 1]) + |lines[|lines| - 1]|
  }

  /** Every appended line can be found in the accumulated text. */
  lemma {:induction false} AppendLinesContains(lines: seq<string>, newLine: string, k: nat)
    requires k < |lines|
    ensures Contains(AppendLines(lines, newLine), lines[k] + newLine)
  {
    var n := |lines|;
    var prefix := AppendLines(lines[..n - 1], newLine);
    assert AppendLines(lines, newLine) == prefix + (lines[n - 1] + newLine);
    if k == n - 1 {
      var whole := prefix + (lines[n - 1] + newLine);
      assert whole[|prefix|..|prefix| + |lines[k] + newLine|] == lines[k] + newLine;
      assert OccursAt(whole, lines[k] + newLine, |prefix|);
    } else {
      AppendLinesContains(lines[..n - 1], newLine, k);
      assert lines[..n - 1][k] == lines[k];
      ContainsInAppend(prefix, lines[k] + newLine, lines[n - 1] + newLine);
    }
  }

  /** .NET's `Environment.NewLine` on Windows, the platform the application targets. */
  const NewLine: string := "\r\n"

  /** `char.ToLower` restricted to ASCII letters (culture-specific mappings are not modelled). */
  function LowerChar(c: char): char
  {
    if 'A' <= c <= 'Z' then (c as int + 32) as char else c
  }

  /** `string.ToLower`: every character lowered. */
  function ToLower(s: string): (r: string)
    ensures |r| == |s| && forall k :: 0 <= k < |s| ==> r[k] == LowerChar(s[k])
  {
    seq(|s|, k requires 0 <= k < |s| => LowerChar(s[k]))
  }

  predicate HasUpper(s: string)
  {
    exists k :: 0 <= k < |s| && 'A' <= s[k] <= 'Z'
  }

  /** A string with no upper-case ASCII letter is its own lower-case form, and lowering is idempotent. */
  lemma ToLowerFixes(s: string)
    ensures !HasUpper(s) ==> ToLower(s) == s
    ensures !HasUpper(ToLower(s))
    ensures ToLower(ToLower(s)) == ToLower(s)
  {
    if !HasUpper(s) {
      assert forall k :: 0 <= k < |s| ==> ToLower(s)[k] == s[k];
    }
    var t := ToLower(s);
    assert forall k :: 0 <= k < |t| ==> !('A' <= t[k] <= 'Z');
    assert forall k :: 0 <= k < |t| ==> ToLower(t)[k] == t[k];
  }
}
