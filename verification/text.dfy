/**
 * Character and string operations that the three front ends rely on: decimal
 * rendering and parsing of integers (Swift `Int(String)`, Rust `str::parse::<u32>`,
 * JavaScript `parseInt`), whitespace trimming, ASCII lower-casing, prefix/suffix and
 * substring search, line and whitespace splitting, and zero padding.
 */
module Text {
  import opened Wrappers
  import opened IntMath

  // ---------------------------------------------------------------- characters

  predicate IsDigit(c: char) { '0' <= c <= '9' }

  predicate AllDigits(s: string) { forall i :: 0 <= i < |s| ==> IsDigit(s[i]) }

  /**
   * The Unicode White_Space characters; this is also the set Foundation calls
   * `whitespacesAndNewlines` (general category Z plus U+0009 to U+000D and U+0085).
   */
  predicate IsWhitespace(c: char) {
    ('\U{9}' <= c <= '\U{D}') || c == ' ' || c == '\U{85}' || c == '\U{A0}' || c == '\U{1680}'
    || ('\U{2000}' <= c <= '\U{200A}') || c == '\U{2028}' || c == '\U{2029}' || c == '\U{202F}'
    || c == '\U{205F}' || c == '\U{3000}'
  }

  function DigitValue(c: char): (d: nat)
    requires IsDigit(c)
    ensures d < 10
  {
    c as int - '0' as int
  }

  function DigitChar(d: nat): (c: char)
    requires d < 10
    ensures IsDigit(c) && DigitValue(c) == d
  {
    ('0' as int + d) as char
  }

  function LowerChar(c: char): (l: char)
    ensures 'A' <= c <= 'Z' ==> 'a' <= l <= 'z'
    ensures !('A' <= c <= 'Z') ==> l == c
  {
    if 'A' <= c <= 'Z' then (c as int + 32) as char else c
  }

  /** Lower-casing of the ASCII letters; every other character is kept. */
  function Lower(s: string): (r: string)
    ensures |r| == |s|
    ensures forall i :: 0 <= i < |s| ==> r[i] == LowerChar(s[i])
  {
    seq(|s|, i requires 0 <= i < |s| => LowerChar(s[i]))
  }

  /** A cheap fingerprint of a string's lower-cased form: its length and its first and last letters. */
  function CaseKey(s: string): (int, char, char)
    requires |s| > 0
  {
    (|s|, LowerChar(s[0]), LowerChar(s[|s| - 1]))
  }

  /** Strings with different fingerprints differ after lower-casing. */
  lemma CaseKeyDistinguishes(a: string, b: string)
    requires |a| > 0 && |b| > 0 && CaseKey(a) != CaseKey(b)
    ensures Lower(a) != Lower(b)
  {
    if |a| == |b| && LowerChar(a[0]) == LowerChar(b[0]) {
      assert Lower(a)[|a| - 1] != Lower(b)[|b| - 1];
    } else if |a| == |b| {
      assert Lower(a)[0] != Lower(b)[0];
    }
  }

  /** Lower-casing leaves a string without capital letters as it is. */
  lemma LowerNoCapitals(s: string)
    requires forall i :: 0 <= i < |s| ==> !('A' <= s[i] <= 'Z')
    ensures Lower(s) == s
  {
  }

  /** Swift's `<` on strings, as a lexicographic comparison of characters. */
  predicate Less(a: string, b: string)
    decreases |a|
  {
    if a == [] then b != []
    else if b == [] then false
    else if a[0] != b[0] then a[0] < b[0]
    else Less(a[1..], b[1..])
  }

  /** The order is strict and total: exactly one of `a < b`, `a == b`, `b < a` holds. */
  lemma {:induction false} LessTrichotomy(a: string, b: string)
    ensures Less(a, b) ==> !Less(b, a)
    ensures !Less(a, b) && !Less(b, a) ==> a == b
    decreases |a|
  {
    if a != [] && b != [] && a[0] == b[0] {
      LessTrichotomy(a[1..], b[1..]);
      if !Less(a, b) && !Less(b, a) {
        assert a == [a[0]] + a[1..] && b == [b[0]] + b[1..];
      }
    }
  }

  // ---------------------------------------------------------------- affixes and search

  predicate StartsWith(s: string, prefix: string) {
    |prefix| <= |s| && s[..|prefix|] == prefix
  }

  predicate EndsWith(s: string, suffix: string) {
    |suffix| <= |s| && s[|s| - |suffix|..] == suffix
  }

  /** The first index at which `sub` occurs in `s` at or after `from` (Rust `str::find`). */
  function FindFrom(s: string, sub: string, from: nat): (r: Option<nat>)
    requires from <= |s|
    ensures r.Some? ==> from <= r.value && r.value + |sub| <= |s| && s[r.value..r.value + |sub|] == sub
    ensures r.Some? ==> forall k :: from <= k < r.value ==> !StartsWith(s[k..], sub)
    ensures r.None? ==> forall k :: from <= k <= |s| ==> !StartsWith(s[k..], sub)
    decreases |s| - from
  {
    if StartsWith(s[from..], sub) then Some(from)
    else if from == |s| then None
    else FindFrom(s, sub, from + 1)
  }

  function Find(s: string, sub: string): Option<nat> { FindFrom(s, sub, 0) }

  predicate Contains(s: string, sub: string) { Find(s, sub).Some? }

  /**
   * Rust `str::splitn(n, c)`: at most `n` pieces, split at the first `n - 1` occurrences of
   * `c`; the last piece keeps the rest. Adjacent separators give empty pieces.
   */
  function SplitN(s: string, n: nat, c: char): (r: seq<string>)
    requires n >= 1
    ensures 1 <= |r| <= n
    ensures |r| >= 2 <==> n >= 2 && c in s
    ensures |r| >= 2 ==> r[0] == Before(s, c)
    decreases n
  {
    if n == 1 || c !in s then [s]
    else
      var head := Before(s, c);
      [head] + SplitN(s[|head| + 1..], n - 1, c)
  }

  /** The part of `s` before the first `c`, or all of `s` (Rust `split(c).next()`). */
  function Before(s: string, c: char): (r: string)
    ensures StartsWith(s, r)
    ensures forall i :: 0 <= i < |r| ==> r[i] != c
    ensures |r| < |s| ==> s[|r|] == c
  {
    if s == [] || s[0] == c then [] else [s[0]] + Before(s[1..], c)
  }

  /** Before a string free of `c` followed by `c`, the part before `c` is that string. */
  lemma {:induction false} BeforeFirst(a: string, c: char, b: string)
    requires c !in a
    ensures Before(a + [c] + b, c) == a
    decreases |a|
  {
    if a == [] {
      assert a + [c] + b == [c] + b;
    } else {
      assert (a + [c] + b)[1..] == a[1..] + [c] + b;
      BeforeFirst(a[1..], c, b);
    }
  }

  /** Every non-overlapping occurrence of `pat`, from the left, replaced by `repl`. */
  function ReplaceAll(s: string, pat: string, repl: string): string
    requires |pat| > 0
    decreases |s|
  {
    if |s| == 0 then []
    else if StartsWith(s, pat) then repl + ReplaceAll(s[|pat|..], pat, repl)
    else [s[0]] + ReplaceAll(s[1..], pat, repl)
  }

  // ---------------------------------------------------------------- trimming and splitting

  /**
   * The characters JavaScript skips in front of a number (ECMAScript's StrWhiteSpaceChar:
   * white space and line terminators): the Unicode set above without U+0085, plus U+FEFF.
   */
  predicate IsJsWhitespace(c: char) {
    (IsWhitespace(c) && c != '\U{85}') || c == '\U{FEFF}'
  }

  /** JavaScript's leading-whitespace skip, as `parseInt` performs it. */
  function JsTrimStart(s: string): (r: string)
    ensures |r| <= |s| && r == s[|s| - |r|..]
    ensures forall k :: 0 <= k < |s| - |r| ==> IsJsWhitespace(s[k])
    ensures r == [] || !IsJsWhitespace(r[0])
  {
    if |s| > 0 && IsJsWhitespace(s[0]) then JsTrimStart(s[1..]) else s
  }

  function TrimStart(s: string): (r: string)
    ensures |r| <= |s| && r == s[|s| - |r|..]
    ensures forall k :: 0 <= k < |s| - |r| ==> IsWhitespace(s[k])
    ensures r == [] || !IsWhitespace(r[0])
  {
    if |s| > 0 && IsWhitespace(s[0]) then TrimStart(s[1..]) else s
  }

  function TrimEnd(s: string): (r: string)
    ensures |r| <= |s| && r == s[..|r|]
    ensures forall k :: |r| <= k < |s| ==> IsWhitespace(s[k])
    ensures r == [] || !IsWhitespace(r[|r| - 1])
  {
    if |s| > 0 && IsWhitespace(s[|s| - 1]) then TrimEnd(s[..|s| - 1]) else s
  }

  /** Whitespace removed from both ends (Swift `trimmingCharacters(in: .whitespacesAndNewlines)`, Rust `trim`). */
  function Trim(s: string): (r: string)
    ensures r == [] || (!IsWhitespace(r[0]) && !IsWhitespace(r[|r| - 1]))
    ensures (forall k :: 0 <= k < |s| ==> IsWhitespace(s[k])) <==> r == []
  {
    var t := TrimStart(s);
    var r := TrimEnd(t);
    assert r != [] ==> r[0] == t[0];
    r
  }

  /** A non-empty run of non-whitespace characters. */
  predicate IsToken(w: string) {
    w != [] && forall k :: 0 <= k < |w| ==> !IsWhitespace(w[k])
  }

  /** The whitespace-separated tokens of `s` (Rust `split_whitespace`). */
  function SplitWhitespace(s: string): (r: seq<string>)
    ensures forall i :: 0 <= i < |r| ==> IsToken(r[i])
    decreases |s|
  {
    var t := TrimStart(s);
    if t == [] then []
    else
      var w := Word(t);
      WordIsToken(t);
      var rest := SplitWhitespace(t[|w|..]);
      PrependToken(w, rest);
      [w] + rest
  }

  /** A text that starts with a non-whitespace character starts with a token. */
  lemma WordIsToken(t: string)
    requires t != [] && !IsWhitespace(t[0])
    ensures IsToken(Word(t)) && 0 < |Word(t)| <= |t|
  {
    var w := Word(t);
    assert w == t[..|w|];
  }

  lemma PrependToken(w: string, rest: seq<string>)
    requires IsToken(w) && forall i :: 0 <= i < |rest| ==> IsToken(rest[i])
    ensures forall i :: 0 <= i < |[w] + rest| ==> IsToken(([w] + rest)[i])
  {
  }

  /** The longest prefix of `s` without whitespace. */
  function Word(s: string): (w: string)
    ensures StartsWith(s, w)
    ensures forall k :: 0 <= k < |w| ==> !IsWhitespace(s[k])
    ensures |w| < |s| ==> IsWhitespace(s[|w|])
    ensures |s| > 0 && !IsWhitespace(s[0]) ==> |w| > 0
  {
    if s == [] || IsWhitespace(s[0]) then [] else [s[0]] + Word(s[1..])
  }

  /** The first `\n`-terminated or final segment, with a `\r` before the `\n` removed. */
  function StripCr(line: string): string {
    if |line| > 0 && line[|line| - 1] == '\r' then line[..|line| - 1] else line
  }

  /**
   * Rust `str::lines`: split at `\n` or `\r\n`; the last line ending is optional, so a
   * text ending in a line break has no empty last line, and the empty text has no lines.
   */
  function Lines(s: string): (r: seq<string>)
    ensures s == [] <==> r == []
    decreases |s|
  {
    if s == [] then []
    else
      match Find(s, "\n")
      case None => [s]
      case Some(i) => [StripCr(s[..i])] + Lines(s[i + 1..])
  }

  // ---------------------------------------------------------------- decimal numbers

  /** The decimal digits of `n`, without leading zeros. */
  function NatToString(n: nat): (s: string)
    ensures |s| >= 1 && AllDigits(s)
    ensures s[0] == '0' ==> n == 0 && s == "0"
    decreases n
  {
    if n < 10 then [DigitChar(n)] else NatToString(n / 10) + [DigitChar(n % 10)]
  }

  /** Swift string interpolation `"\(n)"`, Rust `{}` and JavaScript `toString()` of an integer. */
  function IntToString(n: int): string {
    if n < 0 then "-" + NatToString(-n) else NatToString(n)
  }

  /** The value of a string of decimal digits. */
  function DigitsValue(s: string): nat
    requires AllDigits(s)
    decreases |s|
  {
    if s == [] then 0 else DigitsValue(s[..|s| - 1]) * 10 + DigitValue(s[|s| - 1])
  }

  lemma {:induction false} DigitsValueOfNatToString(n: nat)
    ensures DigitsValue(NatToString(n)) == n
    decreases n
  {
    if n >= 10 {
      var s := NatToString(n);
      assert s[..|s| - 1] == NatToString(n / 10);
      DigitsValueOfNatToString(n / 10);
    }
  }

  /**
   * Swift `Int(String)`: an optional `+` or `-`, then at least one ASCII digit, and a
   * value that fits in 64 bits; anything else gives nil.
   */
  function ParseInt(s: string): (r: Option<int>)
    ensures r.Some? ==> InInt64(r.value)
    ensures r.Some? ==> |s| > 0
  {
    if |s| == 0 then None
    else
      var body := if s[0] == '-' || s[0] == '+' then s[1..] else s;
      if |body| == 0 || !AllDigits(body) then None
      else
        var v: int := if s[0] == '-' then -(DigitsValue(body) as int) else DigitsValue(body);
        if InInt64(v) then Some(v) else None
  }

  /** A run of digits whose value fits in 64 bits parses as that value. */
  lemma ParseIntOfDigits(s: string)
    requires s != [] && AllDigits(s) && InInt64(DigitsValue(s))
    ensures ParseInt(s) == Some(DigitsValue(s) as int)
  {
    assert IsDigit(s[0]);
  }

  /** Rendering a 64-bit integer and parsing it back gives the integer. */
  lemma ParseIntOfIntToString(n: int)
    requires InInt64(n)
    ensures ParseInt(IntToString(n)) == Some(n)
  {
    var s := IntToString(n);
    if n < 0 {
      var digits := NatToString(-n);
      assert s[0] == '-' && s[1..] == digits;
      DigitsValueOfNatToString(-n);
      assert AllDigits(digits) && DigitsValue(digits) == -n;
    } else {
      assert IsDigit(s[0]);
      DigitsValueOfNatToString(n);
    }
  }

  /** Rust `str::parse::<u32>`: an optional `+`, at least one ASCII digit, at most 4294967295. */
  function ParseU32(s: string): (r: Option<nat>)
    ensures r.Some? ==> r.value <= UInt32Max
  {
    var body := if |s| > 0 && s[0] == '+' then s[1..] else s;
    if |body| == 0 || !AllDigits(body) then None
    else if DigitsValue(body) <= UInt32Max then Some(DigitsValue(body))
    else None
  }

  /** The longest prefix of `s` made of digits. */
  function DigitPrefix(s: string): (d: string)
    ensures StartsWith(s, d) && AllDigits(d)
    ensures |d| < |s| ==> !IsDigit(s[|d|])
  {
    if s == [] || !IsDigit(s[0]) then [] else [s[0]] + DigitPrefix(s[1..])
  }

  /** The digit run in front of a non-digit is exactly the digits. */
  lemma {:induction false} DigitPrefixOf(d: string, rest: string)
    requires AllDigits(d) && (rest == [] || !IsDigit(rest[0]))
    ensures DigitPrefix(d + rest) == d
    decreases |d|
  {
    if d == [] {
      assert d + rest == rest;
    } else {
      assert (d + rest)[1..] == d[1..] + rest;
      DigitPrefixOf(d[1..], rest);
      assert d == [d[0]] + d[1..];
    }
  }

  /**
   * JavaScript `parseInt(text)` (radix 10) on the text of a number input: leading
   * whitespace skipped, an optional sign, then the longest run of digits; NaN (here
   * None) when there is no digit.
   */
  function ParseIntPrefix(s: string): (r: Option<int>)
  {
    var t := JsTrimStart(s);
    var neg := |t| > 0 && t[0] == '-';
    var body := if |t| > 0 && (t[0] == '-' || t[0] == '+') then t[1..] else t;
    var d := DigitPrefix(body);
    var v: int := if neg then -(DigitsValue(d) as int) else DigitsValue(d);
    if d == [] then None else Some(v)
  }

  /** `%02d` and `padStart(2, "0")`: a single digit gets a leading zero. */
  function Pad2(n: int): (s: string)
    ensures 0 <= n < 100 ==> |s| == 2 && AllDigits(s) && DigitsValue(s) == n
    ensures 0 <= n < 10 ==> s[0] == '0'
  {
    if 0 <= n < 10 then
      var s := "0" + IntToString(n);
      assert s[..1] == "0" && s[1] == DigitChar(n);
      assert DigitsValue(s[..1]) == 0 by { assert DigitsValue("0"[..0]) == 0; }
      s
    else
      (if 10 <= n < 100 then
         var s := IntToString(n);
         assert s == NatToString(n / 10) + [DigitChar(n % 10)];
         assert s[..1] == NatToString(n / 10) == [DigitChar(n / 10)];
         assert DigitsValue(s[..1]) == n / 10 by { assert s[..1][..0] == []; }
         s
       else IntToString(n))
  }
}
