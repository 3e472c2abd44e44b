/** JavaScript's `String.prototype.trim`, which the form uses to decide
    whether a field is filled in and to clean the values it submits. */
module JsString {

  /** The characters `trim` removes: the WhiteSpace and LineTerminator code
      points of the ECMAScript language specification (the Unicode Zs
      category, tab, vertical tab, form feed, byte order mark, line feed,
      carriage return and the two Unicode line/paragraph separators). */
  predicate IsWs(c: char) {
    || c == '\U{9}' || c == '\U{A}' || c == '\U{B}' || c == '\U{C}' || c == '\U{D}'
    || c == '\U{20}' || c == '\U{A0}' || c == '\U{1680}'
    || ('\U{2000}' <= c <= '\U{200A}')
    || c == '\U{2028}' || c == '\U{2029}' || c == '\U{202F}' || c == '\U{205F}'
    || c == '\U{3000}' || c == '\U{FEFF}'
  }

  /** Every character of `s` at an index in [lo, hi) is whitespace. */
  predicate WsBetween(s: string, lo: nat, hi: nat)
    requires lo <= hi <= |s|
  {
    forall i :: lo <= i < hi ==> IsWs(s[i])
  }

  /** Every character of `s` is whitespace (vacuously true of ""). */
  predicate AllWs(s: string) {
    WsBetween(s, 0, |s|)
  }

  /** The index of the first non-whitespace character of `s` at or after
      `i`, or `|s|` when there is none. */
  function SkipWsFrom(s: string, i: nat): (n: nat)
    requires i <= |s|
    ensures i <= n <= |s| && WsBetween(s, i, n)
    ensures n == |s| || !IsWs(s[n])
    decreases |s| - i
  {
    if i < |s| && IsWs(s[i]) then SkipWsFrom(s, i + 1) else i
  }

  /** The index just past the last non-whitespace character of `s` in
      [lo, j), or `lo` when there is none. */
  function SkipWsBack(s: string, lo: nat, j: nat): (n: nat)
    requires lo <= j <= |s|
    ensures lo <= n <= j && WsBetween(s, n, j)
    ensures n == lo || !IsWs(s[n - 1])
    decreases j
  {
    if lo < j && IsWs(s[j - 1]) then SkipWsBack(s, lo, j - 1) else j
  }

  /** `s.trimStart()`: the suffix of `s` that starts at its first
      non-whitespace character. */
  function TrimStart(s: string): (r: string)
    ensures |r| <= |s| && r == s[|s| - |r|..]
    ensures WsBetween(s, 0, |s| - |r|)
    ensures r == [] || !IsWs(r[0])
  {
    s[SkipWsFrom(s, 0)..]
  }

  /** `s.trimEnd()`: the prefix of `s` that ends at its last
      non-whitespace character. */
  function TrimEnd(s: string): (r: string)
    ensures |r| <= |s| && r == s[..|r|]
    ensures WsBetween(s, |r|, |s|)
    ensures r == [] || !IsWs(r[|r| - 1])
  {
    s[..SkipWsBack(s, 0, |s|)]
  }

  /** `s.trim()`: the infix of `s` between its leading and trailing
      whitespace. It is empty exactly when `s` is nothing but whitespace. */
  function Trim(s: string): (r: string)
    ensures var k := |s| - |TrimStart(s)|; k + |r| <= |s| && r == s[k..k + |r|]
    ensures var k := |s| - |TrimStart(s)|; WsBetween(s, 0, k) && WsBetween(s, k + |r|, |s|)
    ensures r == [] || (!IsWs(r[0]) && !IsWs(r[|r| - 1]))
    ensures r == [] <==> AllWs(s)
  {
    var k := SkipWsFrom(s, 0);
    s[k..SkipWsBack(s, k, |s|)]
  }

  /** `trim()` is `trimStart()` followed by `trimEnd()`. */
  lemma TrimIsStartThenEnd(s: string)
    ensures Trim(s) == TrimEnd(TrimStart(s))
  {
    var k := SkipWsFrom(s, 0);
    SkipWsBackOfSuffix(s, k, |s|);
  }

  /** Scanning back over the suffix `s[k..]` finds the same place as
      scanning back over `s` with `k` as the lower bound. */
  lemma {:induction false} SkipWsBackOfSuffix(s: string, k: nat, j: nat)
    requires k <= j <= |s|
    ensures SkipWsBack(s[k..], 0, j - k) + k == SkipWsBack(s, k, j)
    decreases j
  {
    if k < j {
      assert s[k..][j - k - 1] == s[j - 1];
      if IsWs(s[j - 1]) {
        SkipWsBackOfSuffix(s, k, j - 1);
      }
    }
  }

  /** A string with no whitespace at either end is its own trim. */
  lemma TrimKeepsTrimmed(r: string)
    requires r == [] || (!IsWs(r[0]) && !IsWs(r[|r| - 1]))
    ensures Trim(r) == r
  {
    assert SkipWsFrom(r, 0) == 0;
    assert SkipWsBack(r, 0, |r|) == |r|;
    assert r[0..|r|] == r;
  }

  /** Trimming twice is trimming once. */
  lemma TrimIdempotent(s: string)
    ensures Trim(Trim(s)) == Trim(s)
  {
    TrimKeepsTrimmed(Trim(s));
  }
}
