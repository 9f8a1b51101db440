/**
 * The handful of JavaScript string operations the study coach relies on:
 * `toLowerCase` (ASCII letters only), `includes`/`indexOf`, `replace` with a
 * string pattern (first occurrence, with the replacement's `$` patterns),
 * `trim`, and `Number.prototype.toString` in base 10 and 16.
 */
module JsText {
  import opened Wrappers

  // ---------------------------------------------------------------------------
  // Case folding (ASCII only)
  // ---------------------------------------------------------------------------

  function LowerChar(c: char): char {
    if 'A' <= c <= 'Z' then (c as int + 32) as char else c
  }

  /** `s.toLowerCase()` restricted to ASCII letters: same length, letter by letter. */
  function Lower(s: string): (r: string)
    ensures |r| == |s|
    ensures forall i :: 0 <= i < |s| ==> r[i] == LowerChar(s[i])
  {
    if s == [] then [] else [LowerChar(s[0])] + Lower(s[1..])
  }

  lemma {:induction false} LowerIdempotent(s: string)
    ensures Lower(Lower(s)) == Lower(s)
  {
    if s != [] {
      LowerIdempotent(s[1..]);
    }
  }

  /** A text with no upper-case ASCII letter is its own lower-case form. */
  lemma {:induction false} LowerKeepsLower(s: string)
    requires forall i :: 0 <= i < |s| ==> !('A' <= s[i] <= 'Z')
    ensures Lower(s) == s
  {
    if s != [] {
      LowerKeepsLower(s[1..]);
    }
  }

  /** Lower-casing works piece by piece. */
  lemma LowerConcat(a: string, b: string)
    ensures Lower(a + b) == Lower(a) + Lower(b)
  {
    assert forall i :: 0 <= i < |a + b| ==> Lower(a + b)[i] == (Lower(a) + Lower(b))[i];
  }

  /** The length JavaScript reports: code points above U+FFFF are two UTF-16 units. */
  function JsLength(s: string): (n: nat)
    ensures |s| <= n <= 2 * |s|
  {
    if s == [] then 0 else (if s[0] as int < 0x1_0000 then 1 else 2) + JsLength(s[1..])
  }

  // ---------------------------------------------------------------------------
  // Substring search
  // ---------------------------------------------------------------------------

  /** `p` occurs in `s` starting at index `i`. */
  predicate MatchAt(s: string, p: string, i: nat) {
    i + |p| <= |s| && s[i..i + |p|] == p
  }

  /** First occurrence of `p` in `s` at or after `i`. */
  function IndexFrom(s: string, p: string, i: nat): (r: Option<nat>)
    decreases |s| - i
    ensures r.Some? ==> i <= r.value && MatchAt(s, p, r.value)
    ensures r.Some? ==> forall j :: i <= j < r.value ==> !MatchAt(s, p, j)
    ensures r.None? ==> forall j :: i <= j ==> !MatchAt(s, p, j)
  {
    if i + |p| > |s| then None
    else if s[i..i + |p|] == p then Some(i)
    else IndexFrom(s, p, i + 1)
  }

  /** `s.indexOf(p)`, with `None` for -1. */
  function IndexOf(s: string, p: string): Option<nat> {
    IndexFrom(s, p, 0)
  }

  /** `s.includes(p)`. */
  predicate Contains(s: string, p: string) {
    IndexOf(s, p).Some?
  }

  lemma ContainsIff(s: string, p: string)
    ensures Contains(s, p) <==> exists i :: MatchAt(s, p, i)
  {
    if Contains(s, p) {
      assert MatchAt(s, p, IndexOf(s, p).value);
    }
  }

  /** `p` occurs in `s` as soon as it occurs in a part of `s`. */
  lemma ContainsInfix(a: string, p: string, b: string)
    ensures Contains(a + p + b, p)
  {
    var s := a + p + b;
    assert s[|a|..|a| + |p|] == p;
    assert MatchAt(s, p, |a|);
    ContainsIff(s, p);
  }

  /** A regular expression that is an alternation of literals, tested with `.test`. */
  predicate ContainsAny(s: string, ps: seq<string>) {
    exists k :: 0 <= k < |ps| && Contains(s, ps[k])
  }

  // ---------------------------------------------------------------------------
  // replace(stringPattern, replacement)
  // ---------------------------------------------------------------------------

  /**
   * The replacement text for one match: `$$` is `$`, `$&` the match, `` $` `` the
   * text before it and `$'` the text after it; any other `$` stands for itself
   * (a string pattern has no capture groups).
   */
  function Expand(v: string, matched: string, before: string, after: string): string
    decreases |v|
  {
    if v == [] then []
    else if v[0] == '$' && |v| >= 2 && v[1] in "$&`'" then
      (if v[1] == '$' then "$" else if v[1] == '&' then matched else if v[1] == '`' then before else after)
      + Expand(v[2..], matched, before, after)
    else [v[0]] + Expand(v[1..], matched, before, after)
  }

  /** No `$` in `v` starts one of the special patterns. */
  predicate PlainReplacement(v: string) {
    forall i :: 0 <= i < |v| - 1 && v[i] == '$' ==> v[i + 1] !in "$&`'"
  }

  lemma {:induction false} ExpandPlain(v: string, matched: string, before: string, after: string)
    requires PlainReplacement(v)
    ensures Expand(v, matched, before, after) == v
  {
    if v != [] {
      assert PlainReplacement(v[1..]) by {
        forall i | 0 <= i < |v[1..]| - 1 && v[1..][i] == '$' ensures v[1..][i + 1] !in "$&`'" {
          assert v[i + 1] == '$';
        }
      }
      ExpandPlain(v[1..], matched, before, after);
    }
  }

  /** `s.replace(p, v)`: only the first occurrence of `p` is replaced. */
  function Replace(s: string, p: string, v: string): string {
    match IndexOf(s, p)
    case None => s
    case Some(i) => s[..i] + Expand(v, p, s[..i], s[i + |p|..]) + s[i + |p|..]
  }

  lemma ReplaceAbsent(s: string, p: string, v: string)
    requires !Contains(s, p)
    ensures Replace(s, p, v) == s
  {
  }

  /**
   * When nothing before `a`'s end can start `p` (its first character is not in
   * `a`), replacing `p` in `a + p + b` gives `a + v + b`: the rest is untouched.
   */
  lemma ReplaceFirst(a: string, p: string, b: string, v: string)
    requires |p| > 0 && p[0] !in a
    requires PlainReplacement(v)
    ensures Replace(a + p + b, p, v) == a + v + b
  {
    var s := a + p + b;
    assert MatchAt(s, p, |a|) by { assert s[|a|..|a| + |p|] == p; }
    forall j: nat | j < |a| ensures !MatchAt(s, p, j) {
      assert s[j..j + |p|][0] == s[j] == a[j] != p[0];
    }
    var r := IndexOf(s, p);
    assert r == Some(|a|);
    assert s[..|a|] == a;
    assert s[|a| + |p|..] == b;
    ExpandPlain(v, p, a, b);
  }

  // ---------------------------------------------------------------------------
  // trim
  // ---------------------------------------------------------------------------

  /** ECMAScript WhiteSpace and LineTerminator code points. */
  predicate IsJsSpace(c: char) {
    ('\U{0009}' <= c <= '\U{000D}') || c == ' ' || c == '\U{00A0}' || c == '\U{1680}' ||
    ('\U{2000}' <= c <= '\U{200A}') || c == '\U{2028}' || c == '\U{2029}' || c == '\U{202F}' ||
    c == '\U{205F}' || c == '\U{3000}' || c == '\U{FEFF}'
  }

  function TrimStart(s: string): (r: string)
    ensures |r| <= |s| && r == s[|s| - |r|..]
    ensures r == [] || !IsJsSpace(r[0])
    ensures forall i :: 0 <= i < |s| - |r| ==> IsJsSpace(s[i])
  {
    if s != [] && IsJsSpace(s[0]) then TrimStart(s[1..]) else s
  }

  function TrimEnd(s: string): (r: string)
    ensures |r| <= |s| && r == s[..|r|]
    ensures r == [] || !IsJsSpace(r[|r| - 1])
    ensures forall i :: |r| <= i < |s| ==> IsJsSpace(s[i])
  {
    if s != [] && IsJsSpace(s[|s| - 1]) then TrimEnd(s[..|s| - 1]) else s
  }

  /** `s.trim()`. */
  function Trim(s: string): string {
    TrimEnd(TrimStart(s))
  }

  lemma TrimEmptyIff(s: string)
    ensures Trim(s) == [] <==> forall i :: 0 <= i < |s| ==> IsJsSpace(s[i])
  {
    var t := TrimStart(s);
    if t != [] {
      assert t[0] == s[|s| - |t|];
    }
  }

  // ---------------------------------------------------------------------------
  // Number.prototype.toString(base) for non-negative integers
  // ---------------------------------------------------------------------------

  const HexDigits := "0123456789abcdef"

  function DigitChar(d: nat): char
    requires d < 16
  {
    HexDigits[d]
  }

  function DigitValue(c: char): nat {
    if '0' <= c <= '9' then c as int - '0' as int
    else if 'a' <= c <= 'f' then c as int - 'a' as int + 10
    else 0
  }

  lemma DigitRoundTrip(d: nat)
    requires d < 16
    ensures DigitValue(DigitChar(d)) == d
  {
  }

  /** `n.toString(base)`: the digits of `n`, most significant first, no leading zero. */
  function ToDigits(n: nat, base: nat): (r: string)
    requires 2 <= base <= 16
    ensures |r| >= 1 && (|r| > 1 ==> r[0] != '0')
  {
    if n < base then [DigitChar(n)]
    else ToDigits(n / base, base) + [DigitChar(n % base)]
  }

  /** The value of a digit string in `base`. */
  function FromDigits(s: string, base: nat): nat {
    if s == [] then 0 else FromDigits(s[..|s| - 1], base) * base + DigitValue(s[|s| - 1])
  }

  lemma {:induction false} DigitsRoundTrip(n: nat, base: nat)
    requires 2 <= base <= 16
    ensures FromDigits(ToDigits(n, base), base) == n
  {
    var r := ToDigits(n, base);
    if n < base {
      assert r[..|r| - 1] == [];
      DigitRoundTrip(n);
    } else {
      DivMod(n, base);
      DigitsRoundTrip(n / base, base);
      DigitsStep(n, base);
    }
  }

  /** Appending the last digit multiplies by the base and adds it. */
  lemma DigitsStep(n: nat, base: nat)
    requires 2 <= base <= 16 && n >= base
    requires FromDigits(ToDigits(n / base, base), base) == n / base
    ensures FromDigits(ToDigits(n, base), base) == n
  {
    var q, d := n / base, n % base;
    var r, init := ToDigits(n, base), ToDigits(q, base);
    assert r == init + [DigitChar(d)];
    assert r[..|r| - 1] == init;
    DigitRoundTrip(d);
    assert FromDigits(r, base) == FromDigits(init, base) * base + DigitValue(r[|r| - 1]);
    DivMod(n, base);
  }

  lemma DivMod(n: nat, base: nat)
    requires 2 <= base
    ensures (n / base) * base + n % base == n
    ensures n > 0 ==> n / base < n
  {
  }

  /** Leading zeros do not change a digit string's value. */
  lemma {:induction false} ZerosPrefix(k: nat, s: string, base: nat)
    ensures FromDigits(seq(k, _ => '0') + s, base) == FromDigits(s, base)
    decreases |s|
  {
    var z := seq(k, _ => '0');
    if s == [] {
      ZerosValue(k, base);
      assert z + s == z;
    } else {
      assert (z + s)[..|z + s| - 1] == z + s[..|s| - 1];
      ZerosPrefix(k, s[..|s| - 1], base);
    }
  }

  lemma {:induction false} ZerosValue(k: nat, base: nat)
    ensures FromDigits(seq(k, _ => '0'), base) == 0
  {
    if k > 0 {
      assert seq(k, _ => '0')[..k - 1] == seq(k - 1, _ => '0');
      ZerosValue(k - 1, base);
    }
  }

  /** `s.padStart(n, '0')`. */
  function PadZeros(s: string, n: nat): (r: string)
    ensures |r| == if |s| < n then n else |s|
    ensures r[|r| - |s|..] == s
  {
    if |s| < n then seq(n - |s|, _ => '0') + s else s
  }

  lemma PadZerosValue(s: string, n: nat, base: nat)
    ensures FromDigits(PadZeros(s, n), base) == FromDigits(s, base)
  {
    if |s| < n { ZerosPrefix(n - |s|, s, base); }
  }
}
