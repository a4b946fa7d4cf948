/** The JavaScript string operations the system relies on, on strings as
    sequences of characters: `String.prototype.trim`, `split` with a
    one-character separator, `startsWith`, the regular-expression classes
    `\s` and `\d`, and decimal rendering of numbers in template literals. */
module Text {

  /** ECMAScript WhiteSpace and LineTerminator code points: the set removed
      by `trim()` and matched by `\s`. */
  predicate IsSpace(c: char) {
    var n := c as int;
    n == 0x09 || n == 0x0A || n == 0x0B || n == 0x0C || n == 0x0D || n == 0x20 ||
    n == 0xA0 || n == 0x1680 || (0x2000 <= n <= 0x200A) || n == 0x2028 ||
    n == 0x2029 || n == 0x202F || n == 0x205F || n == 0x3000 || n == 0xFEFF
  }

  /** The class `\d` of a regular expression without the `u` flag. */
  predicate IsDigit(c: char) {
    '0' <= c <= '9'
  }

  predicate IsBlank(s: string) {
    forall i :: 0 <= i < |s| ==> IsSpace(s[i])
  }

  /** `s` with its leading white space removed (`trimStart()`, and also the
      effect of the pattern `^\s*`). */
  function TrimStart(s: string): (r: string)
    ensures |r| <= |s| && r == s[|s| - |r|..]
    ensures IsBlank(s[..|s| - |r|])
    ensures |r| > 0 ==> !IsSpace(r[0])
  {
    if |s| > 0 && IsSpace(s[0]) then TrimStart(s[1..]) else s
  }

  /** `s` with its trailing white space removed (`trimEnd()`). */
  function TrimEnd(s: string): (r: string)
    ensures |r| <= |s| && r == s[..|r|]
    ensures IsBlank(s[|r|..])
    ensures |r| > 0 ==> !IsSpace(r[|r| - 1])
  {
    if |s| > 0 && IsSpace(s[|s| - 1]) then TrimEnd(s[..|s| - 1]) else s
  }

  /** `trim()`. */
  function Trim(s: string): (r: string)
    ensures |r| > 0 ==> !IsSpace(r[0]) && !IsSpace(r[|r| - 1])
    ensures r == "" <==> IsBlank(s)
    ensures exists i :: 0 <= i <= |s| - |r| && r == s[i..i + |r|] && IsBlank(s[..i]) && IsBlank(s[i + |r|..])
  {
    var t := TrimStart(s);
    var r := TrimEnd(t);
    assert |r| > 0 ==> t[|r| - 1] == r[|r| - 1];
    BlankEnds(s, t, r);
    r
  }

  /** Cutting a blank prefix and then a blank suffix leaves a middle slice
      of `s` with blank ends. */
  lemma BlankEnds(s: string, t: string, r: string)
    requires |t| <= |s| && t == s[|s| - |t|..] && IsBlank(s[..|s| - |t|])
    requires |r| <= |t| && r == t[..|r|] && IsBlank(t[|r|..])
    ensures exists i :: 0 <= i <= |s| - |r| && r == s[i..i + |r|] && IsBlank(s[..i]) && IsBlank(s[i + |r|..])
    ensures |t| > 0 ==> !IsSpace(t[0]) ==> (r == "" <==> IsBlank(s))
    ensures t == "" ==> r == "" && IsBlank(s)
  {
    var i := |s| - |t|;
    assert s == s[..i] + t;
    assert r == s[i..i + |r|] && s[i + |r|..] == t[|r|..];
  }

  /** A string with no white space at either end is its own trim. */
  lemma TrimOfTrimmed(s: string)
    requires |s| > 0 ==> !IsSpace(s[0]) && !IsSpace(s[|s| - 1])
    ensures Trim(s) == s
  {
  }

  /** ASCII upper case; every other character is left alone. Under the
      `i` flag of a regular expression without `u`, a character outside
      ASCII never matches an ASCII one, so comparing through this function
      is exact when one side is ASCII. */
  function AsciiUpper(c: char): (u: char)
    ensures 'a' <= c <= 'z' ==> u as int == c as int - 32
    ensures !('a' <= c <= 'z') ==> u == c
  {
    if 'a' <= c <= 'z' then (c as int - 32) as char else c
  }

  predicate StartsWith(s: string, prefix: string) {
    |prefix| <= |s| && s[..|prefix|] == prefix
  }

  /** `parts.join(sep)`. */
  function Join(parts: seq<string>, sep: char): string {
    if |parts| == 0 then ""
    else if |parts| == 1 then parts[0]
    else parts[0] + [sep] + Join(parts[1..], sep)
  }

  /** `s.split(sep)` for a one-character separator: the maximal pieces
      between separators, so `k` separators give `k + 1` pieces, and the
      empty string gives one empty piece. */
  function Split(s: string, sep: char): (r: seq<string>)
    ensures |r| >= 1
    ensures forall i :: 0 <= i < |r| ==> sep !in r[i]
    ensures Join(r, sep) == s
  {
    if |s| == 0 then [""]
    else
      var rest := Split(s[1..], sep);
      if s[0] == sep then
        assert s == [sep] + s[1..];
        [""] + rest
      else
        var r := [[s[0]] + rest[0]] + rest[1..];
        assert r[1..] == rest[1..];
        assert s == [s[0]] + s[1..];
        r
  }

  /** A separator-free string splits into itself. */
  lemma {:induction false} SplitNoSeparator(s: string, sep: char)
    requires sep !in s
    ensures Split(s, sep) == [s]
  {
    if |s| > 0 {
      SplitNoSeparator(s[1..], sep);
    }
  }

  /** Splitting at a first separator. */
  lemma {:induction false} SplitAtSeparator(a: string, b: string, sep: char)
    requires sep !in a
    ensures Split(a + [sep] + b, sep) == [a] + Split(b, sep)
  {
    var s := a + [sep] + b;
    if |a| == 0 {
      assert s[1..] == b;
    } else {
      assert s[1..] == a[1..] + [sep] + b;
      SplitAtSeparator(a[1..], b, sep);
      var rest := Split(s[1..], sep);
      assert s[0] == a[0] && a[0] != sep;
      assert [[s[0]] + rest[0]] + rest[1..] == [a] + Split(b, sep) by {
        assert a == [a[0]] + a[1..];
        assert rest[1..] == Split(b, sep);
      }
    }
  }

  /** Split undoes Join when no piece contains the separator. */
  lemma {:induction false} SplitJoin(parts: seq<string>, sep: char)
    requires |parts| >= 1
    requires forall i :: 0 <= i < |parts| ==> sep !in parts[i]
    ensures Split(Join(parts, sep), sep) == parts
  {
    if |parts| == 1 {
      SplitNoSeparator(parts[0], sep);
    } else {
      SplitJoin(parts[1..], sep);
      SplitAtSeparator(parts[0], Join(parts[1..], sep), sep);
      assert parts == [parts[0]] + parts[1..];
    }
  }

  /** Number of leading characters of `s` that are decimal digits. */
  function LeadingDigits(s: string): (k: nat)
    ensures k <= |s|
    ensures forall i :: 0 <= i < k ==> IsDigit(s[i])
    ensures k < |s| ==> !IsDigit(s[k])
  {
    if |s| > 0 && IsDigit(s[0]) then 1 + LeadingDigits(s[1..]) else 0
  }

  /** The digit run of `digits + rest` is `digits` when `rest` does not
      start with a digit. */
  lemma {:induction false} LeadingDigitsOfPrefix(digits: string, rest: string)
    requires forall i :: 0 <= i < |digits| ==> IsDigit(digits[i])
    requires |rest| > 0 && !IsDigit(rest[0])
    ensures LeadingDigits(digits + rest) == |digits|
  {
    if |digits| > 0 {
      assert (digits + rest)[1..] == digits[1..] + rest;
      LeadingDigitsOfPrefix(digits[1..], rest);
    }
  }

  /** `s.split(sep).length` is one more than the number of separators. */
  lemma {:induction false} SplitCount(s: string, sep: char)
    ensures |Split(s, sep)| == multiset(s)[sep] + 1
  {
    if |s| > 0 {
      SplitCount(s[1..], sep);
      assert s == [s[0]] + s[1..];
      assert multiset(s) == multiset{s[0]} + multiset(s[1..]);
    }
  }

  function DigitChar(d: nat): (c: char)
    requires d < 10
    ensures IsDigit(c)
  {
    ['0', '1', '2', '3', '4', '5', '6', '7', '8', '9'][d]
  }

  /** Decimal rendering of a natural number, as in a template literal. */
  function NatToString(n: nat): (r: string)
    ensures |r| > 0
    ensures forall i :: 0 <= i < |r| ==> IsDigit(r[i])
  {
    if n < 10 then [DigitChar(n)] else NatToString(n / 10) + [DigitChar(n % 10)]
  }

  /** Decimal rendering of an integer, with a leading minus sign. */
  function IntToString(n: int): string {
    if n < 0 then "-" + NatToString(-n) else NatToString(n)
  }
}
