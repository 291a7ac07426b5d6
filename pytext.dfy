/**
 * The Python `str` builtins the controller in example/test.py relies on:
 * `isdigit`, `int(...)`, `str(int)`, `strip()`, `split(sep)` and `sep.join(...)`.
 *
 * Character classes are exact on the Latin-1 range (U+0000 to U+00FF) and, for
 * whitespace, on the whole of Unicode; digits above U+00FF are not modelled.
 */
module PyText {
  import opened Base

  // ---------------------------------------------------------------------------
  // Digits: str.isdigit, int(str) and str(int)
  // ---------------------------------------------------------------------------

  /** The ASCII decimal digits. On the Latin-1 range these are exactly the
      characters `int()` reads as digits; `int()` also reads the other Unicode
      decimal digits (such as the fullwidth ones), which are not modelled. */
  predicate IsDecimalChar(c: char) {
    '0' <= c <= '9'
  }

  /** Characters for which `str.isdigit` holds: the decimal digits and the
      superscripts one, two and three, which `int()` rejects. */
  predicate IsDigitChar(c: char) {
    IsDecimalChar(c) || c == '\U{B9}' || c == '\U{B2}' || c == '\U{B3}'
  }

  /** `s.isdigit()`: false on the empty string. */
  predicate IsDigitStr(s: string) {
    |s| > 0 && forall i :: 0 <= i < |s| ==> IsDigitChar(s[i])
  }

  /** Non-empty and made of ASCII decimal digits only. On the Latin-1 range,
      this is what `int()` accepts once `isdigit()` has ruled out signs, spaces
      and underscores. */
  predicate IsDecimalStr(s: string) {
    |s| > 0 && forall i :: 0 <= i < |s| ==> IsDecimalChar(s[i])
  }

  function DigitValue(c: char): (d: nat)
    requires IsDecimalChar(c)
    ensures d < 10
  {
    (c as int) - ('0' as int)
  }

  function DigitChar(d: nat): (c: char)
    requires d < 10
    ensures IsDecimalChar(c) && DigitValue(c) == d
  {
    (('0' as int) + d) as char
  }

  /** The value of a run of decimal digits, most significant first: `int(s)`. */
  function DecimalValue(s: string): nat
    requires forall i :: 0 <= i < |s| ==> IsDecimalChar(s[i])
  {
    if s == [] then 0 else DecimalValue(s[..|s| - 1]) * 10 + DigitValue(s[|s| - 1])
  }

  /** `str(n)` for a non-negative integer: non-empty, decimal digits only,
      with no leading zero unless `n` is 0. */
  function DecimalString(n: nat): (s: string)
    ensures IsDecimalStr(s)
    ensures n > 0 ==> s[0] != '0'
  {
    if n < 10 then [DigitChar(n)] else DecimalString(n / 10) + [DigitChar(n % 10)]
  }

  /** `int(str(n)) == n`. */
  lemma {:induction false} DecimalRoundTrip(n: nat)
    ensures DecimalValue(DecimalString(n)) == n
  {
    if n >= 10 {
      var s := DecimalString(n);
      assert s[..|s| - 1] == DecimalString(n / 10);
      DecimalRoundTrip(n / 10);
    }
  }

  /** Different numbers print differently. */
  lemma DecimalStringInjective(m: nat, n: nat)
    requires DecimalString(m) == DecimalString(n)
    ensures m == n
  {
    DecimalRoundTrip(m);
    DecimalRoundTrip(n);
  }

  // ---------------------------------------------------------------------------
  // Whitespace: str.strip()
  // ---------------------------------------------------------------------------

  /** `c.isspace()`: the characters of Unicode categories Zs, B, S and WS. */
  predicate IsSpace(c: char) {
    ('\t' <= c <= '\r') || ('\U{1C}' <= c <= ' ') || c == '\U{85}' || c == '\U{A0}'
    || c == '\U{1680}' || ('\U{2000}' <= c <= '\U{200A}') || c == '\U{2028}'
    || c == '\U{2029}' || c == '\U{202F}' || c == '\U{205F}' || c == '\U{3000}'
  }

  predicate AllSpace(s: string) {
    forall i :: 0 <= i < |s| ==> IsSpace(s[i])
  }

  /** `s.lstrip()`: the suffix left after dropping leading whitespace. */
  function TrimStart(s: string): (r: string)
    ensures |r| <= |s| && r == s[|s| - |r|..]
    ensures AllSpace(s[..|s| - |r|])
    ensures r != [] ==> !IsSpace(r[0])
  {
    if s != [] && IsSpace(s[0]) then
      var r := TrimStart(s[1..]);
      assert s[..|s| - |r|] == [s[0]] + s[1..][..|s| - 1 - |r|];
      r
    else
      s
  }

  /** `s.rstrip()`: the prefix left after dropping trailing whitespace. */
  function TrimEnd(s: string): (r: string)
    ensures |r| <= |s| && r == s[..|r|]
    ensures AllSpace(s[|r|..])
    ensures r != [] ==> !IsSpace(r[|r| - 1])
  {
    if s != [] && IsSpace(s[|s| - 1]) then
      var r := TrimEnd(s[..|s| - 1]);
      assert s[|r|..] == s[..|s| - 1][|r|..] + [s[|s| - 1]];
      r
    else
      s
  }

  /** `s.strip()`: what is left of `s` once leading and trailing whitespace are
      dropped. It is empty exactly when `s` is all whitespace. */
  function Strip(s: string): (r: string)
    ensures |r| <= |s|
    ensures r == [] <==> AllSpace(s)
    ensures r != [] ==> !IsSpace(r[0]) && !IsSpace(r[|r| - 1])
  {
    var t := TrimStart(s);
    var r := TrimEnd(t);
    if r == [] then
      AllSpaceConcat(s, |s| - |t|);
      r
    else
      r
  }

  /** `s` is `r` with whitespace on either side, `r` starting at index `k`. */
  predicate PaddedAt(s: string, r: string, k: int) {
    0 <= k && k + |r| <= |s| && s[k..k + |r|] == r && AllSpace(s[..k]) && AllSpace(s[k + |r|..])
  }

  /** Only whitespace is removed, and only at the two ends: `s` is the stripped
      text with whitespace on either side. */
  lemma StripWindow(s: string)
    ensures exists k :: PaddedAt(s, Strip(s), k)
  {
    var t := TrimStart(s);
    var r := TrimEnd(t);
    assert Strip(s) == r;
    SuffixSlices(s, t, |r|);
    assert PaddedAt(s, r, |s| - |t|);
  }

  lemma SuffixSlices<T>(s: seq<T>, t: seq<T>, n: nat)
    requires |t| <= |s| && t == s[|s| - |t|..] && n <= |t|
    ensures s[|s| - |t|..|s| - |t| + n] == t[..n]
    ensures s[|s| - |t| + n..] == t[n..]
  {
  }

  lemma AllSpaceConcat(s: string, k: nat)
    requires k <= |s| && AllSpace(s[..k]) && AllSpace(s[k..])
    ensures AllSpace(s)
  {
    forall i | 0 <= i < |s| ensures IsSpace(s[i]) {
      if i < k { assert s[i] == s[..k][i]; } else { assert s[i] == s[k..][i - k]; }
    }
  }

  /** Stripping twice is stripping once. */
  lemma StripIdempotent(s: string)
    ensures Strip(Strip(s)) == Strip(s)
  {
    var r := Strip(s);
    if r != [] {
      assert TrimStart(r) == r;
      assert TrimEnd(r) == r;
    }
  }

  // ---------------------------------------------------------------------------
  // Separators: str.split(sep) and sep.join(parts)
  // ---------------------------------------------------------------------------

  /** `sep` occurs in `s` starting at index `j`. */
  predicate OccursAt(s: string, sep: string, j: int) {
    0 <= j && j + |sep| <= |s| && s[j..j + |sep|] == sep
  }

  /** `sep` occurs nowhere in `s` at an index below `n`. */
  predicate NoneBefore(s: string, sep: string, n: int) {
    forall j :: 0 <= j < n ==> !OccursAt(s, sep, j)
  }

  /** `s.find(sep)`: the first index at which `sep` occurs in `s`, if any. */
  function Find(s: string, sep: string): (r: Option<nat>)
    requires |sep| > 0
    ensures r.Some? ==> OccursAt(s, sep, r.value) && NoneBefore(s, sep, r.value)
    ensures r.None? ==> NoneBefore(s, sep, |s|)
    decreases |s|
  {
    if |s| < |sep| then None
    else if s[..|sep|] == sep then Some(0)
    else
      var rest := Find(s[1..], sep);
      assert forall j :: 1 <= j ==> OccursAt(s, sep, j) == OccursAt(s[1..], sep, j - 1);
      match rest
      case None => None
      case Some(i) => Some(i + 1)
  }

  /** `sep.join(parts)`. */
  function Join(parts: seq<string>, sep: string): string {
    if |parts| == 0 then ""
    else if |parts| == 1 then parts[0]
    else parts[0] + sep + Join(parts[1..], sep)
  }

  /** `s.split(sep)` for a non-empty separator: at least one part, no part holds
      `sep`, and joining the parts with `sep` gives `s` back. */
  function Split(s: string, sep: string): (parts: seq<string>)
    requires |sep| > 0
    ensures |parts| >= 1
    ensures Join(parts, sep) == s
    ensures forall k :: 0 <= k < |parts| ==> Find(parts[k], sep).None?
    decreases |s|
  {
    match Find(s, sep)
    case None => [s]
    case Some(i) =>
      var tail := Split(s[i + |sep|..], sep);
      SplitStep(s, sep, i, tail);
      [s[..i]] + tail
  }

  /** One step of `Split`: the text before the first separator holds none, and
      it, the separator and the rest rebuild `s`. */
  lemma SplitStep(s: string, sep: string, i: nat, tail: seq<string>)
    requires |sep| > 0 && OccursAt(s, sep, i) && NoneBefore(s, sep, i)
    requires |tail| >= 1 && Join(tail, sep) == s[i + |sep|..]
    ensures Find(s[..i], sep).None?
    ensures Join([s[..i]] + tail, sep) == s
  {
    PrefixHasNone(s, sep, i);
    NoneFound(s[..i], sep);
    JoinCons(s[..i], tail, sep);
    assert s == s[..i] + sep + s[i + |sep|..];
  }

  /** What lies before the first occurrence holds no occurrence. */
  lemma PrefixHasNone(s: string, sep: string, i: nat)
    requires i <= |s| && NoneBefore(s, sep, i)
    ensures NoneBefore(s[..i], sep, i)
  {
    forall j | 0 <= j < i ensures !OccursAt(s[..i], sep, j) {
      assert !OccursAt(s, sep, j);
      if j + |sep| <= i {
        assert s[..i][j..j + |sep|] == s[j..j + |sep|];
      }
    }
  }

  lemma NoneFound(t: string, sep: string)
    requires |sep| > 0 && NoneBefore(t, sep, |t|)
    ensures Find(t, sep).None?
  {
    var f := Find(t, sep);
    if f.Some? {
      assert false;
    }
  }

  lemma JoinCons(head: string, tail: seq<string>, sep: string)
    requires |tail| >= 1
    ensures Join([head] + tail, sep) == head + sep + Join(tail, sep)
  {
    var parts := [head] + tail;
    assert parts[0] == head && parts[1..] == tail;
  }

  /** A string without the separator's first character splits into itself. */
  lemma SplitWithoutSeparator(s: string, sep: string)
    requires |sep| > 0
    requires forall i :: 0 <= i < |s| ==> s[i] != sep[0]
    ensures Split(s, sep) == [s]
  {
    forall j | 0 <= j < |s| ensures !OccursAt(s, sep, j) {
      if j + |sep| <= |s| {
        assert s[j..j + |sep|][0] == s[j];
      }
    }
    NoneFound(s, sep);
  }

  /** When the text before the first separator cannot hold the separator's
      first character, splitting takes exactly that text off as the first part. */
  lemma {:induction false} SplitFirst(head: string, sep: string, tail: string)
    requires |sep| > 0
    requires forall i :: 0 <= i < |head| ==> head[i] != sep[0]
    ensures Split(head + sep + tail, sep) == [head] + Split(tail, sep)
  {
    var s := head + sep + tail;
    assert s[|head|..|head| + |sep|] == sep;
    assert OccursAt(s, sep, |head|);
    var f := Find(s, sep);
    assert f.Some? && f.value <= |head|;
    assert s[f.value..f.value + |sep|][0] == s[f.value];
    assert f.value == |head|;
    assert s[..|head|] == head;
    assert s[|head| + |sep|..] == tail;
  }

  /** Splitting `head + sep + tail` where neither side holds the separator's
      first character gives exactly the two sides. */
  lemma SplitPair(head: string, sep: string, tail: string)
    requires |sep| > 0
    requires forall i :: 0 <= i < |head| ==> head[i] != sep[0]
    requires forall i :: 0 <= i < |tail| ==> tail[i] != sep[0]
    ensures Split(head + sep + tail, sep) == [head, tail]
  {
    SplitFirst(head, sep, tail);
    SplitWithoutSeparator(tail, sep);
  }

  /** Joining parts none of whose characters is the separator's first
      character, and splitting the result again, gives the parts back. */
  lemma {:induction false} SplitJoin(parts: seq<string>, sep: string)
    requires |sep| > 0 && |parts| >= 1
    requires forall k, i :: 0 <= k < |parts| && 0 <= i < |parts[k]| ==> parts[k][i] != sep[0]
    ensures Split(Join(parts, sep), sep) == parts
  {
    if |parts| == 1 {
      SplitWithoutSeparator(parts[0], sep);
    } else {
      SplitJoin(parts[1..], sep);
      SplitFirst(parts[0], sep, Join(parts[1..], sep));
    }
  }
}
