/**
 * String operations of the JavaScript runtime that the components use, on
 * `seq<char>`: ASCII case mapping, `indexOf`/`includes`/`replace` with a string
 * pattern, `slice`, `split`/`join` on one character, number-to-decimal-string
 * conversion and the code-unit order used by `<` and `>` on strings.
 */
module Text {

  predicate IsUpper(c: char) { 'A' <= c <= 'Z' }

  predicate IsLower(c: char) { 'a' <= c <= 'z' }

  predicate IsDigit(c: char) { '0' <= c <= '9' }

  /** `toUpperCase` on one character, restricted to ASCII letters. */
  function UpperChar(c: char): char
  {
    if IsLower(c) then (c as int - 32) as char else c
  }

  /** `toLowerCase` on one character, restricted to ASCII letters. */
  function LowerChar(c: char): char
  {
    if IsUpper(c) then (c as int + 32) as char else c
  }

  /** `s.toLowerCase()` (ASCII letters only). */
  function ToLower(s: string): (r: string)
    ensures |r| == |s|
    ensures forall i | 0 <= i < |s| :: r[i] == LowerChar(s[i])
  {
    if s == [] then [] else [LowerChar(s[0])] + ToLower(s[1..])
  }

  /** `s.indexOf(t)`: the first position at which `t` occurs in `s`, or -1. */
  function IndexOf(s: string, t: string): (r: int)
    ensures r == -1 || 0 <= r <= |s| - |t|
    ensures r >= 0 ==> t <= s[r..]
    ensures forall k | 0 <= k <= |s| && (r < 0 || k < r) :: !(t <= s[k..])
    decreases |s|
  {
    if t <= s then 0
    else if s == [] then -1
    else
      var i := IndexOf(s[1..], t);
      assert forall k | 1 <= k <= |s| :: s[k..] == s[1..][k - 1..];
      if i < 0 then -1 else i + 1
  }

  /** `s.includes(t)`. */
  predicate Includes(s: string, t: string)
  {
    IndexOf(s, t) >= 0
  }

  /** Any occurrence of `t` makes `s.includes(t)` hold. */
  lemma IncludesAt(s: string, t: string, k: nat)
    requires k <= |s| && t <= s[k..]
    ensures Includes(s, t)
  {
  }

  /** `s.replace(t, r)` with a string pattern: only the first occurrence is replaced. */
  function ReplaceFirst(s: string, t: string, r: string): string
  {
    var i := IndexOf(s, t);
    if i < 0 then s else s[..i] + r + s[i + |t|..]
  }

  /** A one-character pattern is found exactly when the character occurs, and where it occurs. */
  lemma IndexOfChar(s: string, c: char)
    ensures IndexOf(s, [c]) >= 0 <==> c in s
    ensures IndexOf(s, [c]) >= 0 ==> s[IndexOf(s, [c])] == c
  {
    if c in s {
      var k :| 0 <= k < |s| && s[k] == c;
      assert [c] <= s[k..];
    }
    var i := IndexOf(s, [c]);
    if i >= 0 {
      assert [c] <= s[i..];
      assert s[i..][0] == s[i];
    }
  }

  /** The first occurrence of a character that does not occur before it. */
  lemma IndexOfCharAfter(a: string, c: char, rest: string)
    requires c !in a
    ensures IndexOf(a + [c] + rest, [c]) == |a|
  {
    var s := a + [c] + rest;
    assert [c] <= s[|a|..];
    forall k | 0 <= k < |a| ensures !([c] <= s[k..]) {
      assert s[k] == a[k];
    }
  }

  /**
   * A pattern whose first character does not occur in `a` is first found
   * right after `a`, and replacing it there swaps exactly that occurrence.
   */
  lemma ReplaceFirstAfter(a: string, t: string, rest: string, r: string)
    requires t != [] && t[0] !in a
    ensures IndexOf(a + t + rest, t) == |a|
    ensures ReplaceFirst(a + t + rest, t, r) == a + r + rest
  {
    var s := a + t + rest;
    assert s[|a|..] == t + rest;
    forall k | 0 <= k < |a| ensures !(t <= s[k..]) {
      assert s[k..][0] == a[k];
    }
    assert s[..|a|] == a && s[|a| + |t|..] == rest;
  }

  /** `s.slice(start, end)`: negative positions count from the end, then both are clamped. */
  function Slice(s: string, start: int, end: int): (r: string)
    ensures |r| <= |s|
  {
    var from := if start < 0 then Max(|s| + start, 0) else Min(start, |s|);
    var to := if end < 0 then Max(|s| + end, 0) else Min(end, |s|);
    if from < to then s[from..to] else ""
  }

  function Max(a: int, b: int): int { if a < b then b else a }

  function Min(a: int, b: int): int { if a < b then a else b }

  /** `s.replace(/\D/g, '')`: every character other than an ASCII digit removed. */
  function KeepDigits(s: string): (r: string)
    ensures |r| <= |s|
    ensures forall i | 0 <= i < |r| :: IsDigit(r[i])
    ensures forall c | c in s && IsDigit(c) :: c in r
  {
    if s == [] then ""
    else (if IsDigit(s[0]) then [s[0]] else "") + KeepDigits(s[1..])
  }

  /** A string made of digits only is kept whole. */
  lemma {:induction false} KeepDigitsOfDigits(s: string)
    requires forall i | 0 <= i < |s| :: IsDigit(s[i])
    ensures KeepDigits(s) == s
  {
    if s != [] {
      KeepDigitsOfDigits(s[1..]);
    }
  }

  // ---------------------------------------------------------------------------
  // Decimal notation of integers (`String(n)` / `'' + n` for integral numbers)

  function DigitChar(d: nat): (c: char)
    requires d < 10
    ensures IsDigit(c)
  {
    ('0' as int + d) as char
  }

  function DigitValue(c: char): nat
    requires IsDigit(c)
  {
    c as int - '0' as int
  }

  /** The decimal digits of `n`, most significant first, without leading zeros. */
  function DecimalString(n: nat): (r: string)
    ensures 1 <= |r|
    ensures forall i | 0 <= i < |r| :: IsDigit(r[i])
    ensures n < 10 <==> |r| == 1
  {
    if n < 10 then [DigitChar(n)] else DecimalString(n / 10) + [DigitChar(n % 10)]
  }

  /** The number a string of decimal digits denotes. */
  function DecimalValue(s: string): nat
    requires forall i | 0 <= i < |s| :: IsDigit(s[i])
  {
    if s == [] then 0 else 10 * DecimalValue(s[..|s| - 1]) + DigitValue(s[|s| - 1])
  }

  /** Reading back the decimal notation of a number gives the number. */
  lemma {:induction false} DecimalRoundTrip(n: nat)
    ensures DecimalValue(DecimalString(n)) == n
  {
    var s := DecimalString(n);
    if n >= 10 {
      DecimalRoundTrip(n / 10);
      assert s[..|s| - 1] == DecimalString(n / 10);
    }
  }

  // ---------------------------------------------------------------------------
  // `split` and `join` on a one-character separator

  /** `s.split(sep)` for a one-character separator; the empty string gives `[""]`. */
  function Split(s: string, sep: char): (parts: seq<string>)
    ensures 1 <= |parts|
    ensures forall i | 0 <= i < |parts| :: sep !in parts[i]
  {
    if s == [] then [""]
    else
      var rest := Split(s[1..], sep);
      if s[0] == sep then [""] + rest else [[s[0]] + rest[0]] + rest[1..]
  }

  /** `parts.join(sep)`. */
  function Join(parts: seq<string>, sep: char): string
    requires 1 <= |parts|
  {
    if |parts| == 1 then parts[0] else parts[0] + [sep] + Join(parts[1..], sep)
  }

  /** A piece without the separator, followed by the separator, splits off as one part. */
  lemma {:induction false} SplitAfterPiece(x: string, sep: char, rest: string)
    requires sep !in x
    ensures Split(x + [sep] + rest, sep) == [x] + Split(rest, sep)
  {
    var s := x + [sep] + rest;
    if x == [] {
      assert s[1..] == rest;
    } else {
      SplitAfterPiece(x[1..], sep, rest);
      assert s[1..] == x[1..] + [sep] + rest;
      assert x == [x[0]] + x[1..];
    }
  }

  /** A piece without the separator does not split. */
  lemma {:induction false} SplitOfPiece(x: string, sep: char)
    requires sep !in x
    ensures Split(x, sep) == [x]
  {
    if x != [] {
      SplitOfPiece(x[1..], sep);
      assert x == [x[0]] + x[1..];
    }
  }

  /** Splitting what was joined gives the parts back, when no part holds the separator. */
  lemma {:induction false} SplitJoin(parts: seq<string>, sep: char)
    requires 1 <= |parts|
    requires forall i | 0 <= i < |parts| :: sep !in parts[i]
    ensures Split(Join(parts, sep), sep) == parts
  {
    if |parts| == 1 {
      SplitOfPiece(parts[0], sep);
    } else {
      SplitJoin(parts[1..], sep);
      SplitAfterPiece(parts[0], sep, Join(parts[1..], sep));
    }
  }

  // ---------------------------------------------------------------------------
  // `<` on strings: lexicographic order of code units

  /** `a < b` on two strings. */
  predicate StrLess(a: string, b: string)
  {
    if a == [] then b != []
    else if b == [] then false
    else if a[0] != b[0] then a[0] < b[0]
    else StrLess(a[1..], b[1..])
  }

  lemma {:induction false} StrLessIrreflexive(a: string)
    ensures !StrLess(a, a)
  {
    if a != [] {
      StrLessIrreflexive(a[1..]);
    }
  }

  lemma {:induction false} StrLessAsymmetric(a: string, b: string)
    requires StrLess(a, b)
    ensures !StrLess(b, a)
  {
    if a != [] && b != [] && a[0] == b[0] {
      StrLessAsymmetric(a[1..], b[1..]);
    }
  }

  lemma {:induction false} StrLessTotal(a: string, b: string)
    requires a != b
    ensures StrLess(a, b) || StrLess(b, a)
  {
    if a != [] && b != [] && a[0] == b[0] {
      StrLessTotal(a[1..], b[1..]);
    }
  }

  lemma {:induction false} StrLessTransitive(a: string, b: string, c: string)
    requires StrLess(a, b) && StrLess(b, c)
    ensures StrLess(a, c)
  {
    if a != [] && b != [] && c != [] && a[0] == b[0] && b[0] == c[0] {
      StrLessTransitive(a[1..], b[1..], c[1..]);
    }
  }
}
