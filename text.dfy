/**
 * The Python `str` operations the scheduler and the web client rely on
 * (`strip`, `split`, `" ".join`, `in`, `find`, `rfind`, `split(sep)[k]`,
 * `lower`, slicing and `str(int)`), written out over `seq<char>`.
 */
module Text {

  /** Python's `str.isspace()`: the characters `strip()` and `split()` treat as whitespace. */
  predicate IsSpace(c: char) {
    || c == ' ' || ('\t' <= c <= '\r') || ('\U{1c}' <= c <= '\U{1f}')
    || c == '\U{85}' || c == '\U{a0}' || c == '\U{1680}' || ('\U{2000}' <= c <= '\U{200a}')
    || c == '\U{2028}' || c == '\U{2029}' || c == '\U{202f}' || c == '\U{205f}' || c == '\U{3000}'
  }

  predicate NoSpace(s: string) {
    forall i :: 0 <= i < |s| ==> !IsSpace(s[i])
  }

  /** A word as `str.split()` yields one: non-empty and free of whitespace. */
  predicate IsWord(w: string) {
    w != [] && NoSpace(w)
  }

  /** A non-empty run of visible ASCII characters is a word. */
  lemma VisibleIsWord(w: string)
    requires w != [] && forall i :: 0 <= i < |w| ==> '!' <= w[i] <= '~'
    ensures IsWord(w)
  {
  }

  // ---------------------------------------------------------------- strip

  function StripLeft(s: string): (r: string)
    ensures |r| <= |s| && r == s[|s| - |r|..]
    ensures r == [] || !IsSpace(r[0])
    ensures forall i :: 0 <= i < |s| - |r| ==> IsSpace(s[i])
  {
    if s != [] && IsSpace(s[0]) then StripLeft(s[1..]) else s
  }

  function StripRight(s: string): (r: string)
    ensures |r| <= |s| && r == s[..|r|]
    ensures r == [] || !IsSpace(r[|r| - 1])
    ensures forall i :: |r| <= i < |s| ==> IsSpace(s[i])
  {
    if s != [] && IsSpace(s[|s| - 1]) then StripRight(s[..|s| - 1]) else s
  }

  /** Every character of `s` is whitespace. */
  predicate AllSpace(s: string) {
    forall i :: 0 <= i < |s| ==> IsSpace(s[i])
  }

  /** `r` is a slice of `s` with only whitespace before and after it. */
  predicate SpacedSliceOf(s: string, r: string) {
    exists i :: 0 <= i <= |s| - |r| && AllSpace(s[..i]) && s[i..i + |r|] == r && AllSpace(s[i + |r|..])
  }

  /**
   * `s.strip()`: `s` without its leading and trailing whitespace. The result
   * is the slice of `s` that starts at some `i`, with only whitespace before
   * `i` and after the slice, and it neither starts nor ends with whitespace;
   * these facts determine it.
   */
  function Strip(s: string): (r: string)
    ensures |r| <= |s|
    ensures r == [] || (!IsSpace(r[0]) && !IsSpace(r[|r| - 1]))
    ensures SpacedSliceOf(s, r)
    ensures NoSpace(s) ==> r == s
  {
    var right := StripRight(s);
    var r := StripLeft(right);
    TrimmedSlice(s, right, r);
    r
  }

  /** What is left between leading whitespace and trailing whitespace is a slice with only whitespace around it. */
  lemma TrimmedSlice(s: string, right: string, r: string)
    requires |right| <= |s| && right == s[..|right|] && forall j :: |right| <= j < |s| ==> IsSpace(s[j])
    requires right == [] || !IsSpace(right[|right| - 1])
    requires |r| <= |right| && r == right[|right| - |r|..] && forall j :: 0 <= j < |right| - |r| ==> IsSpace(right[j])
    requires r == [] || !IsSpace(r[0])
    ensures |r| <= |s|
    ensures r == [] || (!IsSpace(r[0]) && !IsSpace(r[|r| - 1]))
    ensures SpacedSliceOf(s, r)
    ensures NoSpace(s) ==> r == s
  {
    var i := |right| - |r|;
    assert s[i..i + |r|] == r;
    forall j | 0 <= j < i
      ensures IsSpace(s[j])
    {
      assert s[j] == right[j];
    }
    SliceBetweenSpaces(s, i, r);
    if |right| < |s| {
      assert IsSpace(s[|right|]);
    }
    if |r| < |right| {
      assert IsSpace(right[0]) && right[0] == s[0];
    }
  }

  /** A slice with only whitespace before and after it, stated through the parts around it. */
  lemma SliceBetweenSpaces(s: string, i: nat, r: string)
    requires i + |r| <= |s| && s[i..i + |r|] == r
    requires forall j :: 0 <= j < i ==> IsSpace(s[j])
    requires forall j :: i + |r| <= j < |s| ==> IsSpace(s[j])
    ensures SpacedSliceOf(s, r)
  {
    var end := i + |r|;
    assert AllSpace(s[..i]) by {
      forall j | 0 <= j < i
        ensures IsSpace(s[..i][j])
      {
        assert s[..i][j] == s[j];
      }
    }
    assert AllSpace(s[end..]) by {
      forall j | 0 <= j < |s| - end
        ensures IsSpace(s[end..][j])
      {
        assert s[end..][j] == s[end + j];
      }
    }
  }

  // ---------------------------------------------------------------- split / join

  /** The length of the run of non-whitespace characters that `s` starts with. */
  function WordLength(s: string): (n: nat)
    ensures n <= |s| && NoSpace(s[..n]) && (n == |s| || IsSpace(s[n]))
  {
    if s == [] || IsSpace(s[0]) then 0 else 1 + WordLength(s[1..])
  }

  lemma WordLengthIs(s: string, n: nat)
    requires n <= |s| && NoSpace(s[..n]) && (n == |s| || IsSpace(s[n]))
    ensures WordLength(s) == n
  {
    if n > 0 {
      assert s[..n][0] == s[0];
      assert s[1..][..n - 1] == s[..n][1..];
      WordLengthIs(s[1..], n - 1);
    }
  }

  /** `s.split()` with no separator: the maximal runs of non-whitespace, in order. */
  function Split(s: string): (ws: seq<string>)
    ensures forall i :: 0 <= i < |ws| ==> IsWord(ws[i])
    decreases |s|
  {
    if s == [] then []
    else if IsSpace(s[0]) then Split(s[1..])
    else
      var n := WordLength(s);
      [s[..n]] + Split(s[n..])
  }

  /** `" ".join(ws)`. */
  function Join(ws: seq<string>): string {
    if ws == [] then ""
    else if |ws| == 1 then ws[0]
    else ws[0] + " " + Join(ws[1..])
  }

  /** Splitting words joined by single spaces gives the same words back. */
  lemma {:induction false} SplitJoin(ws: seq<string>)
    requires forall i :: 0 <= i < |ws| ==> IsWord(ws[i])
    ensures Split(Join(ws)) == ws
  {
    if ws != [] {
      var w := ws[0];
      var s := Join(ws);
      if |ws| == 1 {
        assert s == w && s[..|w|] == w;
        WordLengthIs(s, |w|);
        assert s[|w|..] == [];
      } else {
        var rest := Join(ws[1..]);
        assert s == w + " " + rest;
        assert s[..|w|] == w;
        WordLengthIs(s, |w|);
        assert s[|w|..] == " " + rest;
        assert (" " + rest)[1..] == rest;
        SplitJoin(ws[1..]);
        assert Split(s) == [w] + Split(rest);
      }
    }
  }

  /** Splitting text that a whitespace character separates from what follows splits each part on its own. */
  lemma {:induction false} SplitAppend(a: string, b: string)
    requires b == [] || IsSpace(b[0])
    ensures Split(a + b) == Split(a) + Split(b)
    decreases |a|, 1
  {
    if a == [] {
      assert a + b == b;
    } else if IsSpace(a[0]) {
      SplitAppendSpace(a, b);
    } else {
      SplitAppendWord(a, b);
    }
  }

  /** `SplitAppend` when `a` starts with whitespace: the space is dropped on both sides. */
  lemma {:induction false} SplitAppendSpace(a: string, b: string)
    requires a != [] && IsSpace(a[0]) && (b == [] || IsSpace(b[0]))
    ensures Split(a + b) == Split(a) + Split(b)
    decreases |a|, 0
  {
    assert (a + b)[1..] == a[1..] + b;
    SplitAppend(a[1..], b);
  }

  /** `SplitAppend` when `a` starts with a word: that word comes first on both sides. */
  lemma {:induction false} SplitAppendWord(a: string, b: string)
    requires a != [] && !IsSpace(a[0]) && (b == [] || IsSpace(b[0]))
    ensures Split(a + b) == Split(a) + Split(b)
    decreases |a|, 0
  {
    var n := WordLength(a);
    SplitAppendFirstWord(a, b);
    SplitAppend(a[n..], b);
    assert [a[..n]] + (Split(a[n..]) + Split(b)) == ([a[..n]] + Split(a[n..])) + Split(b);
  }

  /** The first word of `a` is the first word of `a + b` when whitespace starts `b`. */
  lemma SplitAppendFirstWord(a: string, b: string)
    requires a != [] && !IsSpace(a[0]) && (b == [] || IsSpace(b[0]))
    ensures Split(a + b) == [a[..WordLength(a)]] + Split(a[WordLength(a)..] + b)
  {
    var n, s := WordLength(a), a + b;
    assert s[..n] == a[..n];
    assert n == |s| || IsSpace(s[n]) by {
      if n < |a| {
        assert s[n] == a[n];
      } else if b != [] {
        assert s[n] == b[0];
      }
    }
    WordLengthIs(s, n);
    assert s[0] == a[0] && s[n..] == a[n..] + b;
    assert Split(s) == [s[..n]] + Split(s[n..]);
  }

  /** A word split on its own is itself. */
  lemma SplitWord(w: string)
    requires IsWord(w)
    ensures Split(w) == [w]
  {
    SplitJoin([w]);
  }

  // ---------------------------------------------------------------- searching

  /** `pat` occurs in `s` at index `j`. */
  predicate OccursAt(s: string, pat: string, j: nat) {
    j + |pat| <= |s| && s[j..j + |pat|] == pat
  }

  /** `s.find(pat)` for a non-empty `pat`: the first index where it occurs, or -1. */
  function IndexOf(s: string, pat: string): (r: int)
    requires pat != []
    ensures -1 <= r && (r >= 0 ==> OccursAt(s, pat, r))
    ensures forall j: nat :: j < |s| && (r == -1 || j < r) ==> !OccursAt(s, pat, j)
    decreases |s|
  {
    if |s| < |pat| then -1
    else if s[..|pat|] == pat then 0
    else
      var k := IndexOf(s[1..], pat);
      forall j: nat | 1 <= j < |s| && OccursAt(s, pat, j) ensures OccursAt(s[1..], pat, j - 1) {
        assert s[1..][j - 1..j - 1 + |pat|] == s[j..j + |pat|];
      }
      if k == -1 then -1
      else
        assert s[1..][k..k + |pat|] == s[k + 1..k + 1 + |pat|];
        k + 1
  }

  /** `pat in s`. */
  predicate Contains(s: string, pat: string)
    requires pat != []
  {
    IndexOf(s, pat) >= 0
  }

  /**
   * `r` is the first piece of `s` split on `sep`: a prefix of `s` that holds
   * no occurrence of `sep` and is followed by `sep` or by the end of `s`.
   */
  predicate PieceBefore(s: string, sep: string, r: string) {
    && |r| <= |s| && r == s[..|r|]
    && (r == s || OccursAt(s, sep, |r|))
    && forall j: nat :: j < |r| ==> !OccursAt(s, sep, j)
  }

  /** `s.split(sep)[0]`: the text before the first `sep`, or all of `s`. */
  function FirstPiece(s: string, sep: string): (r: string)
    requires sep != []
    ensures PieceBefore(s, sep, r)
    ensures Contains(s, sep) ==> |r| == IndexOf(s, sep)
    ensures !Contains(s, sep) ==> r == s
  {
    var k := IndexOf(s, sep);
    if k == -1 then s else s[..k]
  }

  /** `s.split(sep)[1]` when `sep in s`: the text between the first `sep` and the next one (or the end). */
  function SecondPiece(s: string, sep: string): (r: string)
    requires sep != [] && Contains(s, sep)
    ensures |r| <= |s| - |sep|
    ensures PieceBefore(s[IndexOf(s, sep) + |sep|..], sep, r)
  {
    FirstPiece(s[IndexOf(s, sep) + |sep|..], sep)
  }

  /** The first occurrence of `pat` is at `k` when it occurs there and nowhere before. */
  lemma IndexOfIs(s: string, pat: string, k: nat)
    requires pat != [] && OccursAt(s, pat, k)
    requires forall j: nat :: j < k ==> !OccursAt(s, pat, j)
    ensures IndexOf(s, pat) == k
  {
  }

  /** `s.find(c)`: the index of the first `c`, or -1. */
  function Find(s: string, c: char): (r: int)
    ensures -1 <= r < |s|
    ensures r == -1 <==> c !in s
    ensures r >= 0 ==> s[r] == c && c !in s[..r]
  {
    if s == [] then -1
    else if s[0] == c then 0
    else
      var k := Find(s[1..], c);
      if k == -1 then -1
      else
        assert s[..k + 1] == [s[0]] + s[1..][..k];
        k + 1
  }

  /** `s.rfind(c)`: the index of the last `c`, or -1. */
  function RFind(s: string, c: char): (r: int)
    ensures -1 <= r < |s|
    ensures r == -1 <==> c !in s
    ensures r >= 0 ==> s[r] == c && c !in s[r + 1..]
  {
    if s == [] then -1
    else if s[|s| - 1] == c then |s| - 1
    else
      var k := RFind(s[..|s| - 1], c);
      if k == -1 then
        assert s == s[..|s| - 1] + [s[|s| - 1]];
        -1
      else
        assert s[k + 1..] == s[..|s| - 1][k + 1..] + [s[|s| - 1]];
        k
  }

  /** `s[lo:hi]` for in-range bounds: empty when `hi <= lo`, as Python slices are. */
  function Slice(s: string, lo: nat, hi: nat): (r: string)
    requires lo <= |s| && hi <= |s|
    ensures lo <= hi ==> r == s[lo..hi]
    ensures hi < lo ==> r == []
  {
    if lo <= hi then s[lo..hi] else []
  }

  /** `s[:n]`: the first `n` characters of `s`, or all of them when there are fewer. */
  function Take(s: string, n: nat): (r: string)
    ensures |r| == (if |s| <= n then |s| else n) && r == s[..|r|]
  {
    if |s| <= n then s else s[..n]
  }

  // ---------------------------------------------------------------- case and numbers

  /** Lower-cases an ASCII letter and leaves every other character alone. */
  function LowerChar(c: char): char {
    if 'A' <= c <= 'Z' then (c as int + 32) as char else c
  }

  /** `s.lower()` as far as comparisons against lower-case ASCII words can tell. */
  function Lower(s: string): (r: string)
    ensures |r| == |s|
  {
    seq(|s|, i requires 0 <= i < |s| => LowerChar(s[i]))
  }

  function DigitChar(d: nat): char
    requires d < 10
  {
    ('0' as int + d) as char
  }

  /** `str(n)` for a natural number: its decimal digits. */
  function NatToString(n: nat): (s: string)
    ensures s != [] && forall i :: 0 <= i < |s| ==> '0' <= s[i] <= '9'
  {
    if n < 10 then [DigitChar(n)] else NatToString(n / 10) + [DigitChar(n % 10)]
  }

  /** `int(s)` for a run of decimal digits. */
  function DigitsValue(s: string): nat
    requires forall i :: 0 <= i < |s| ==> '0' <= s[i] <= '9'
  {
    if s == [] then 0 else 10 * DigitsValue(s[..|s| - 1]) + (s[|s| - 1] as int - '0' as int)
  }

  /** `str(n)` reads back as `n` and has no leading zero. */
  lemma {:induction false} NatToStringValue(n: nat)
    ensures DigitsValue(NatToString(n)) == n
    ensures NatToString(n)[0] == '0' ==> n == 0
  {
    if n >= 10 {
      var s := NatToString(n);
      NatToStringValue(n / 10);
      assert s[..|s| - 1] == NatToString(n / 10);
      assert s[0] == NatToString(n / 10)[0];
    }
  }
}
