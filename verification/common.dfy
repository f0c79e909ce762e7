/**
  Shared vocabulary of the two analyzers: optional values, results of calls
  into services that are outside the model, and the handful of Python `str`
  operations the analyzers rely on (`strip`, `split`, `join`, `in`, `lower`),
  each written out over `seq<char>`.
 */
module Common {

  datatype Option<+T> = None | Some(value: T)

  /** Outcome of a call into a library or a remote service. */
  datatype Result<+T> = Ok(value: T) | Err(message: string)

  /** An attribute of an upstream record read with `getattr`/`hasattr`:
      absent (or `None`), present with a value, or raising when read. */
  datatype Field<+T> = Missing | Value(value: T) | Fails

  // ---------------------------------------------------------------------
  // Characters

  /** Python's `str.isspace`: the characters `strip()` and `split()` remove. */
  predicate IsSpace(c: char)
  {
    c == ' ' || ('\t' <= c <= '\r') || ('\U{001C}' <= c <= '\U{001F}')
    || c == '\U{0085}' || c == '\U{00A0}' || c == '\U{1680}'
    || ('\U{2000}' <= c <= '\U{200A}') || c == '\U{2028}' || c == '\U{2029}'
    || c == '\U{202F}' || c == '\U{205F}' || c == '\U{3000}'
  }

  predicate IsUpperAscii(c: char) { 'A' <= c <= 'Z' }

  predicate IsDigit(c: char) { '0' <= c <= '9' }

  function DigitValue(c: char): (d: nat)
    requires IsDigit(c)
    ensures d < 10
  {
    (c as int - '0' as int) as nat
  }

  function LowerChar(c: char): (r: char)
    ensures IsUpperAscii(c) ==> r as int == c as int + 32
    ensures !IsUpperAscii(c) ==> r == c
  {
    if IsUpperAscii(c) then (c as int + 32) as char else c
  }

  /** `s.lower()`, restricted to ASCII letters. */
  function Lower(s: string): (r: string)
    ensures |r| == |s|
    ensures forall i :: 0 <= i < |s| ==> r[i] == LowerChar(s[i])
  {
    if s == [] then [] else [LowerChar(s[0])] + Lower(s[1..])
  }

  // ---------------------------------------------------------------------
  // Substrings

  predicate StartsWith(s: string, prefix: string)
  {
    |prefix| <= |s| && s[..|prefix|] == prefix
  }

  predicate EndsWith(s: string, suffix: string)
  {
    |suffix| <= |s| && s[|s| - |suffix|..] == suffix
  }

  predicate OccursAt(s: string, pat: string, i: int)
  {
    0 <= i && i + |pat| <= |s| && s[i..i + |pat|] == pat
  }

  /** Python's `pat in s`. */
  predicate Contains(s: string, pat: string)
  {
    exists i :: 0 <= i <= |s| && OccursAt(s, pat, i)
  }

  lemma {:induction false} ContainsInfix(a: string, pat: string, b: string)
    ensures Contains(a + pat + b, pat)
  {
    var s := a + pat + b;
    assert s[|a|..|a| + |pat|] == pat;
    assert OccursAt(s, pat, |a|);
  }

  lemma {:induction false} ContainsExtend(s: string, pat: string, a: string, b: string)
    requires Contains(s, pat)
    ensures Contains(a + s + b, pat)
  {
    var i :| 0 <= i <= |s| && OccursAt(s, pat, i);
    var t := a + s + b;
    assert t[|a| + i..|a| + i + |pat|] == s[i..i + |pat|];
    assert OccursAt(t, pat, |a| + i);
  }

  lemma {:induction false} AppendAssoc<T>(x: seq<T>, y: seq<T>, z: seq<T>)
    ensures x + (y + z) == (x + y) + z
  {
  }

  // ---------------------------------------------------------------------
  // strip()

  /** Index of the first character at or after `i` that is not whitespace,
      or `|s|`. */
  function SkipSpace(s: string, i: nat): (k: nat)
    requires i <= |s|
    ensures i <= k <= |s|
    ensures k == |s| || !IsSpace(s[k])
    ensures forall j :: i <= j < k ==> IsSpace(s[j])
    decreases |s| - i
  {
    if i < |s| && IsSpace(s[i]) then SkipSpace(s, i + 1) else i
  }

  /** Length of `s[..n]` without its trailing whitespace. */
  function SkipSpaceBack(s: string, n: nat): (k: nat)
    requires n <= |s|
    ensures k <= n
    ensures k == 0 || !IsSpace(s[k - 1])
    ensures forall j :: k <= j < n ==> IsSpace(s[j])
  {
    if n > 0 && IsSpace(s[n - 1]) then SkipSpaceBack(s, n - 1) else n
  }

  function TrimStart(s: string): (r: string)
    ensures |r| <= |s| && r == s[|s| - |r|..]
    ensures r == [] || !IsSpace(r[0])
    ensures forall i :: 0 <= i < |s| - |r| ==> IsSpace(s[i])
  {
    s[SkipSpace(s, 0)..]
  }

  /** Python's `s.strip()`: the part between the leading and the trailing
      whitespace. */
  function Strip(s: string): string
  {
    var a := SkipSpace(s, 0);
    var b := SkipSpaceBack(s, |s|);
    if a < b then s[a..b] else []
  }

  /** Number of whitespace characters `strip()` removes at the front. */
  function StripOffset(s: string): nat
  {
    SkipSpace(s, 0)
  }

  predicate AllSpace(s: string)
  {
    forall i :: 0 <= i < |s| ==> IsSpace(s[i])
  }

  /** `strip()` removes exactly the outer whitespace: what is left is a
      contiguous part of the input with no whitespace at either end, and it is
      empty exactly when the input is all whitespace. */
  lemma {:induction false} StripSpec(s: string)
    ensures StripOffset(s) + |Strip(s)| <= |s|
    ensures Strip(s) == s[StripOffset(s)..StripOffset(s) + |Strip(s)|]
    ensures Strip(s) == [] || (!IsSpace(Strip(s)[0]) && !IsSpace(Strip(s)[|Strip(s)| - 1]))
    ensures Strip(s) == [] <==> AllSpace(s)
  {
    var a := SkipSpace(s, 0);
    var b := SkipSpaceBack(s, |s|);
    if a < |s| {
      assert !IsSpace(s[a]);
      assert a < b;
    }
  }

  /** Stripping twice is stripping once. */
  lemma {:induction false} StripIdempotent(s: string)
    ensures Strip(Strip(s)) == Strip(s)
  {
    var r := Strip(s);
    StripSpec(s);
    if r != [] {
      assert SkipSpace(r, 0) == 0;
      assert SkipSpaceBack(r, |r|) == |r|;
    }
  }

  // ---------------------------------------------------------------------
  // split(c) and join

  /** Python's `s.split(c)` for a one-character separator. */
  function SplitOn(s: string, c: char): (parts: seq<string>)
    ensures |parts| >= 1
    ensures forall p :: p in parts ==> c !in p
  {
    if s == [] then [""]
    else if s[0] == c then [""] + SplitOn(s[1..], c)
    else
      var rest := SplitOn(s[1..], c);
      [[s[0]] + rest[0]] + rest[1..]
  }

  /** Python's `sep.join(parts)`. */
  function Join(parts: seq<string>, sep: string): string
  {
    if parts == [] then ""
    else if |parts| == 1 then parts[0]
    else parts[0] + sep + Join(parts[1..], sep)
  }

  lemma {:induction false} SplitJoin(s: string, c: char)
    ensures Join(SplitOn(s, c), [c]) == s
  {
    if s == [] {
    } else if s[0] == c {
      SplitJoin(s[1..], c);
      var rest := SplitOn(s[1..], c);
      assert SplitOn(s, c) == [""] + rest;
      assert Join(SplitOn(s, c), [c]) == "" + [c] + Join(rest, [c]);
      assert s == [s[0]] + s[1..];
    } else {
      SplitJoin(s[1..], c);
      var rest := SplitOn(s[1..], c);
      var parts := SplitOn(s, c);
      assert parts == [[s[0]] + rest[0]] + rest[1..];
      if |rest| == 1 {
        assert Join(parts, [c]) == [s[0]] + rest[0];
        assert Join(rest, [c]) == rest[0];
      } else {
        assert parts[1..] == rest[1..];
        assert Join(parts, [c]) == [s[0]] + rest[0] + [c] + Join(rest[1..], [c]);
        assert Join(rest, [c]) == rest[0] + [c] + Join(rest[1..], [c]);
      }
      assert s == [s[0]] + s[1..];
    }
  }

  function Min(a: int, b: int): int { if a < b then a else b }

  function Take<T>(s: seq<T>, n: nat): (r: seq<T>)
    ensures |r| == if |s| < n then |s| else n
    ensures r == s[..|r|]
  {
    if |s| <= n then s else s[..n]
  }

  // ---------------------------------------------------------------------
  // split() on whitespace

  /** The leading run of non-space characters. */
  function WordPrefix(s: string): (w: string)
    ensures |w| <= |s| && w == s[..|w|]
    ensures forall i :: 0 <= i < |w| ==> !IsSpace(w[i])
    ensures |w| == |s| || IsSpace(s[|w|])
  {
    if s == [] || IsSpace(s[0]) then [] else [s[0]] + WordPrefix(s[1..])
  }

  /** A non-empty run of non-whitespace characters. */
  predicate IsWord(w: string)
  {
    w != [] && forall i :: 0 <= i < |w| ==> !IsSpace(w[i])
  }

  /** Python's `s.split()`: the maximal runs of non-whitespace characters. */
  function SplitWhitespace(s: string): (words: seq<string>)
    ensures forall w :: w in words ==> IsWord(w)
    decreases |s|
  {
    var t := TrimStart(s);
    if t == [] then []
    else
      var w := WordPrefix(t);
      assert IsWord(w) by { assert w[0] == t[0]; }
      [w] + SplitWhitespace(t[|w|..])
  }

  // ---------------------------------------------------------------------
  // strip(chars)

  /** Index of the first character at or after `i` not in `chars`, or
      `|s|`. */
  function SkipIn(s: string, chars: set<char>, i: nat): (k: nat)
    requires i <= |s|
    ensures i <= k <= |s|
    ensures k == |s| || s[k] !in chars
    ensures forall j :: i <= j < k ==> s[j] in chars
    decreases |s| - i
  {
    if i < |s| && s[i] in chars then SkipIn(s, chars, i + 1) else i
  }

  /** Length of `s[..n]` without its trailing characters from `chars`. */
  function SkipInBack(s: string, chars: set<char>, n: nat): (k: nat)
    requires n <= |s|
    ensures k <= n
    ensures k == 0 || s[k - 1] !in chars
    ensures forall j :: k <= j < n ==> s[j] in chars
  {
    if n > 0 && s[n - 1] in chars then SkipInBack(s, chars, n - 1) else n
  }

  /** Python's `s.rstrip(chars)`. */
  function StripCharsEnd(s: string, chars: set<char>): (r: string)
    ensures |r| <= |s| && r == s[..|r|]
    ensures r == [] || r[|r| - 1] !in chars
    ensures forall j :: |r| <= j < |s| ==> s[j] in chars
  {
    s[..SkipInBack(s, chars, |s|)]
  }

  /** Python's `s.strip(chars)`. */
  function StripChars(s: string, chars: set<char>): string
  {
    var a := SkipIn(s, chars, 0);
    var b := SkipInBack(s, chars, |s|);
    if a < b then s[a..b] else []
  }

  /** `strip(chars)` keeps the part between the leading and trailing
      characters from `chars`. */
  lemma {:induction false} StripCharsSpec(s: string, chars: set<char>)
    ensures var r := StripChars(s, chars);
      && (r == [] || (r[0] !in chars && r[|r| - 1] !in chars))
      && (r == [] <==> forall i :: 0 <= i < |s| ==> s[i] in chars)
      && |r| <= |s|
  {
    var a := SkipIn(s, chars, 0);
    var b := SkipInBack(s, chars, |s|);
    if a < |s| {
      assert s[a] !in chars;
      assert a < b;
    }
  }

  // ---------------------------------------------------------------------
  // Numbers

  /** Python's `str(n)` for a natural number. */
  function NatToString(n: nat): (r: string)
    ensures r != [] && forall i :: 0 <= i < |r| ==> IsDigit(r[i])
  {
    if n < 10 then [('0' as int + n) as char]
    else NatToString(n / 10) + [('0' as int + n % 10) as char]
  }

  function Sum(xs: seq<int>): int
  {
    if xs == [] then 0 else Sum(xs[..|xs| - 1]) + xs[|xs| - 1]
  }
}
