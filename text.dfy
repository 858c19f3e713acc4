/**
 * String primitives with the semantics the sources rely on: JavaScript's
 * `trim`, `toLowerCase`, `indexOf`, `lastIndexOf`, `substring`, `slice`,
 * decimal `toString`, and Rust's `trim`. Characters are modelled in the
 * ASCII range only (see README).
 */
module Text {

  /** Whitespace as JavaScript's `\s` and `trim` and Rust's `trim` classify
      the ASCII characters: space, tab, line feed, vertical tab, form feed,
      carriage return. */
  predicate IsSpace(c: char) {
    c == ' ' || '\t' <= c <= '\r'
  }

  /** JavaScript's `\d` (ASCII digits only). */
  predicate IsDigit(c: char) {
    '0' <= c <= '9'
  }

  predicate IsUpper(c: char) {
    'A' <= c <= 'Z'
  }

  predicate AllSpace(s: string) {
    forall i :: 0 <= i < |s| ==> IsSpace(s[i])
  }

  predicate AllDigits(s: string) {
    forall i :: 0 <= i < |s| ==> IsDigit(s[i])
  }

  predicate NoUpper(s: string) {
    forall i :: 0 <= i < |s| ==> !IsUpper(s[i])
  }

  predicate StartsWith(s: string, prefix: string) {
    |prefix| <= |s| && s[..|prefix|] == prefix
  }

  predicate EndsWith(s: string, suffix: string) {
    |suffix| <= |s| && s[|s| - |suffix|..] == suffix
  }

  // ---------------------------------------------------------------------
  // toLowerCase
  // ---------------------------------------------------------------------

  function ToLowerChar(c: char): (r: char)
    ensures !IsUpper(r)
    ensures !IsUpper(c) ==> r == c
    ensures IsUpper(c) ==> r as int == c as int + 32
  {
    if IsUpper(c) then (c as int + 32) as char else c
  }

  /** Each character lower-cased on its own: 'A'..'Z' become 'a'..'z'. */
  function ToLower(s: string): (r: string)
    ensures |r| == |s| && NoUpper(r)
    ensures forall i :: 0 <= i < |s| ==> r[i] == ToLowerChar(s[i])
  {
    seq(|s|, i requires 0 <= i < |s| => ToLowerChar(s[i]))
  }

  lemma {:induction false} ToLowerOfNoUpper(s: string)
    requires NoUpper(s)
    ensures ToLower(s) == s
  {
  }

  lemma {:induction false} ToLowerIdempotent(s: string)
    ensures ToLower(ToLower(s)) == ToLower(s)
  {
    ToLowerOfNoUpper(ToLower(s));
  }

  // ---------------------------------------------------------------------
  // trim
  // ---------------------------------------------------------------------

  /** The whitespace-free edges that `trim` leaves. */
  predicate IsTrimmed(s: string) {
    s == [] || (!IsSpace(s[0]) && !IsSpace(s[|s| - 1]))
  }

  /** The number of whitespace characters `s` starts with. */
  function LeadingSpaces(s: string): (k: nat)
    ensures k <= |s|
    ensures forall i :: 0 <= i < k ==> IsSpace(s[i])
    ensures k == |s| || !IsSpace(s[k])
  {
    if |s| > 0 && IsSpace(s[0]) then 1 + LeadingSpaces(s[1..]) else 0
  }

  /** The number of whitespace characters `s` ends with. */
  function TrailingSpaces(s: string): (k: nat)
    ensures k <= |s|
    ensures forall i :: |s| - k <= i < |s| ==> IsSpace(s[i])
    ensures k == |s| || !IsSpace(s[|s| - k - 1])
  {
    if |s| > 0 && IsSpace(s[|s| - 1]) then 1 + TrailingSpaces(s[..|s| - 1]) else 0
  }

  function TrimStart(s: string): (r: string)
    ensures |r| <= |s| && r == s[|s| - |r|..]
    ensures AllSpace(s[..|s| - |r|])
    ensures r == [] || !IsSpace(r[0])
  {
    s[LeadingSpaces(s)..]
  }

  function TrimEnd(s: string): (r: string)
    ensures |r| <= |s| && r == s[..|r|]
    ensures AllSpace(s[|r|..])
    ensures r == [] || !IsSpace(r[|r| - 1])
  {
    s[..|s| - TrailingSpaces(s)]
  }

  /** `String.prototype.trim` / Rust `str::trim` on the ASCII range. */
  function Trim(s: string): (r: string)
    ensures IsTrimmed(r)
    ensures NoUpper(s) ==> NoUpper(r)
  {
    var front := TrimStart(s);
    var back := TrimEnd(front);
    assert back != [] ==> back[0] == front[0];
    back
  }

  lemma {:induction false} TrimStartAfterSpaces(ws: string, u: string)
    requires AllSpace(ws)
    requires u == [] || !IsSpace(u[0])
    ensures TrimStart(ws + u) == u
  {
    if ws != [] {
      assert (ws + u)[1..] == ws[1..] + u;
      TrimStartAfterSpaces(ws[1..], u);
    }
  }

  lemma {:induction false} TrimEndBeforeSpaces(u: string, ws: string)
    requires AllSpace(ws)
    requires u == [] || !IsSpace(u[|u| - 1])
    ensures TrimEnd(u + ws) == u
  {
    if ws != [] {
      var n := |ws| - 1;
      assert (u + ws)[..|u + ws| - 1] == u + ws[..n];
      TrimEndBeforeSpaces(u, ws[..n]);
    }
  }

  /** Trimming removes exactly the surrounding whitespace of a trimmed core. */
  lemma {:induction false} TrimSurrounded(ws1: string, core: string, ws2: string)
    requires AllSpace(ws1) && AllSpace(ws2) && IsTrimmed(core)
    ensures Trim(ws1 + core + ws2) == core
  {
    if core == [] {
      assert ws1 + core + ws2 == ws1 + ws2;
      assert AllSpace(ws1 + ws2);
      TrimStartAfterSpaces(ws1 + ws2, []);
      assert ws1 + ws2 + [] == ws1 + ws2;
    } else {
      assert ws1 + core + ws2 == ws1 + (core + ws2);
      TrimStartAfterSpaces(ws1, core + ws2);
      TrimEndBeforeSpaces(core, ws2);
    }
  }

  lemma {:induction false} TrimOfTrimmed(s: string)
    requires IsTrimmed(s)
    ensures Trim(s) == s
  {
    TrimSurrounded([], s, []);
    assert [] + s + [] == s;
  }

  // ---------------------------------------------------------------------
  // indexOf, lastIndexOf, substring, slice
  // ---------------------------------------------------------------------

  /** `String.prototype.indexOf` for one character: -1 when absent. */
  function IndexOf(s: string, c: char): (r: int)
    ensures -1 <= r < |s|
    ensures r == -1 <==> c !in s
    ensures r >= 0 ==> s[r] == c && forall k :: 0 <= k < r ==> s[k] != c
  {
    if |s| == 0 then -1
    else if s[0] == c then 0
    else
      var k := IndexOf(s[1..], c);
      if k == -1 then -1 else k + 1
  }

  /** `String.prototype.lastIndexOf` for one character: -1 when absent. */
  function LastIndexOf(s: string, c: char): (r: int)
    ensures -1 <= r < |s|
    ensures r == -1 <==> c !in s
    ensures r >= 0 ==> s[r] == c && forall k :: r < k < |s| ==> s[k] != c
  {
    if |s| == 0 then -1
    else if s[|s| - 1] == c then |s| - 1
    else
      LastIndexOf(s[..|s| - 1], c)
  }

  lemma {:induction false} IndexOfAfterPrefix(a: string, b: string, c: char)
    requires c !in a && b != [] && b[0] == c
    ensures IndexOf(a + b, c) == |a|
  {
    assert (a + b)[|a|] == c;
    assert forall j :: 0 <= j < |a| ==> (a + b)[j] == a[j];
  }

  lemma {:induction false} LastIndexOfBeforeSuffix(a: string, b: string, c: char)
    requires c !in b && a != [] && a[|a| - 1] == c
    ensures LastIndexOf(a + b, c) == |a| - 1
  {
    assert (a + b)[|a| - 1] == c;
    assert forall j :: |a| <= j < |a + b| ==> (a + b)[j] == b[j - |a|];
  }

  function ClampIndex(x: int, len: nat): (r: nat)
    ensures r <= len
    ensures 0 <= x <= len ==> r == x
  {
    if x < 0 then 0 else if x > len then len else x
  }

  /** `String.prototype.substring(start, end)`: both indices are clamped to
      [0, length], and swapped when start exceeds end. */
  function JsSubstring(s: string, start: int, end: int): (r: string)
    ensures 0 <= start <= end <= |s| ==> r == s[start..end]
  {
    var a := ClampIndex(start, |s|);
    var b := ClampIndex(end, |s|);
    if a <= b then s[a..b] else s[b..a]
  }

  /** Relative index of `String.prototype.slice`: negative counts from the end. */
  function RelativeIndex(x: int, len: nat): (r: nat)
    ensures r <= len
    ensures 0 <= x <= len ==> r == x
    ensures x < 0 && len + x >= 0 ==> r == len + x
  {
    if x < 0 then (if len + x < 0 then 0 else len + x)
    else if x > len then len else x
  }

  /** `String.prototype.slice(start, end)`. */
  function JsSlice(s: string, start: int, end: int): (r: string)
    ensures 0 <= start <= end <= |s| ==> r == s[start..end]
  {
    var a := RelativeIndex(start, |s|);
    var b := RelativeIndex(end, |s|);
    if a < b then s[a..b] else []
  }

  /** `String.prototype.split` on a single separator character. */
  function Split(s: string, sep: char): (parts: seq<string>)
    ensures |parts| >= 1
    decreases |s|
  {
    var i := IndexOf(s, sep);
    if i < 0 then [s] else [s[..i]] + Split(s[i + 1..], sep)
  }

  lemma {:induction false} SplitWithout(s: string, sep: char)
    requires sep !in s
    ensures Split(s, sep) == [s]
  {
  }

  lemma {:induction false} SplitAfterField(a: string, sep: char, b: string)
    requires sep !in a
    ensures Split(a + [sep] + b, sep) == [a] + Split(b, sep)
  {
    assert a + [sep] + b == a + ([sep] + b);
    IndexOfAfterPrefix(a, [sep] + b, sep);
    var s := a + [sep] + b;
    assert s[..|a|] == a;
    assert s[|a| + 1..] == b;
  }

  // ---------------------------------------------------------------------
  // Decimal numerals: `${n}` / `n.toString()` for a natural n
  // ---------------------------------------------------------------------

  function DigitChar(d: nat): (c: char)
    requires d < 10
    ensures IsDigit(c)
  {
    ('0' as int + d) as char
  }

  function DigitValue(c: char): (d: nat)
    requires IsDigit(c)
    ensures d < 10
  {
    c as int - '0' as int
  }

  /** The decimal numeral of n, without leading zeros. */
  function NatToString(n: nat): (r: string)
    ensures |r| >= 1 && AllDigits(r)
    ensures n < 10 <==> |r| == 1
    ensures 10 <= n < 100 <==> |r| == 2
    ensures r[0] == '0' <==> n == 0
  {
    if n < 10 then [DigitChar(n)] else NatToString(n / 10) + [DigitChar(n % 10)]
  }

  /** The value of a string of decimal digits (most significant first). */
  function DecimalValue(s: string): nat
    requires AllDigits(s)
  {
    if s == [] then 0 else 10 * DecimalValue(s[..|s| - 1]) + DigitValue(s[|s| - 1])
  }

  lemma {:induction false} DecimalValueOfNatToString(n: nat)
    ensures DecimalValue(NatToString(n)) == n
  {
    if n >= 10 {
      var s := NatToString(n);
      assert s[..|s| - 1] == NatToString(n / 10);
      DecimalValueOfNatToString(n / 10);
    }
  }

  /** `s.padStart(width, pad)`. */
  function PadStart(s: string, width: nat, pad: char): (r: string)
    ensures |r| == if |s| >= width then |s| else width
    ensures EndsWith(r, s)
  {
    if |s| >= width then s else seq(width - |s|, _ => pad) + s
  }

  /** `n.toString().padStart(2, '0')` for n below 100: two digits whose value is n. */
  lemma {:induction false} TwoDigits(n: nat)
    requires n < 100
    ensures var r := PadStart(NatToString(n), 2, '0');
            |r| == 2 && AllDigits(r) && DecimalValue(r) == n
  {
    var r := PadStart(NatToString(n), 2, '0');
    DecimalValueOfNatToString(n);
    if n < 10 {
      assert r == ['0', DigitChar(n)];
      assert r[..1] == ['0'];
    }
  }
}
