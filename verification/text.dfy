/** String helpers the generator relies on: JavaScript's `String.prototype.replace`
    with a string pattern (first occurrence only), the decimal rendering of an integer
    inside a template literal, and joining a directory and a file name with '/'. */
module Text {

  datatype Option<T> = None | Some(value: T)

  /** `pat` occurs in `s` starting at index `i`. */
  predicate OccursAt(s: string, pat: string, i: nat) {
    i + |pat| <= |s| && s[i..i + |pat|] == pat
  }

  /** `i` is the leftmost index at which `pat` occurs in `s`. */
  ghost predicate FirstOccurrence(s: string, pat: string, i: nat) {
    OccursAt(s, pat, i) && forall j: nat :: j < i ==> !OccursAt(s, pat, j)
  }

  /** Leftmost occurrence of `pat` in `s` at or after index `k` (`indexOf` with a start). */
  function IndexFrom(s: string, pat: string, k: nat): (r: Option<nat>)
    ensures r.Some? ==> k <= r.value && OccursAt(s, pat, r.value)
    ensures r.Some? ==> forall j: nat :: k <= j < r.value ==> !OccursAt(s, pat, j)
    ensures r.None? ==> forall j: nat :: k <= j ==> !OccursAt(s, pat, j)
    decreases |s| - k
  {
    if k + |pat| > |s| then None
    else if s[k..k + |pat|] == pat then Some(k)
    else IndexFrom(s, pat, k + 1)
  }

  /** `s.indexOf(pat)`, with `None` standing for -1. */
  function IndexOf(s: string, pat: string): (r: Option<nat>)
    ensures r.Some? ==> FirstOccurrence(s, pat, r.value)
    ensures r.None? <==> forall j: nat :: !OccursAt(s, pat, j)
  {
    IndexFrom(s, pat, 0)
  }

  /** `s.replace(pat, rep)` for a string pattern and a replacement without `$`
      sequences: only the leftmost occurrence is replaced. */
  function ReplaceFirst(s: string, pat: string, rep: string): (r: string)
    ensures (forall j: nat :: !OccursAt(s, pat, j)) ==> r == s
    ensures forall i: nat :: FirstOccurrence(s, pat, i) ==> r == s[..i] + rep + s[i + |pat|..]
  {
    match IndexOf(s, pat)
    case None => s
    case Some(i) =>
      FirstOccurrenceUnique(s, pat, i);
      s[..i] + rep + s[i + |pat|..]
  }

  lemma FirstOccurrenceUnique(s: string, pat: string, i: nat)
    requires FirstOccurrence(s, pat, i)
    ensures forall i': nat :: FirstOccurrence(s, pat, i') ==> i' == i
  {
  }

  /** A file name that ends in `suffix`, with no '.' before the suffix and no '/'
      anywhere: a single-extension base name. */
  predicate SingleExtension(name: string, suffix: string) {
    && |suffix| <= |name|
    && name[|name| - |suffix|..] == suffix
    && '.' !in name[..|name| - |suffix|]
    && '/' !in name
  }

  /** The part of a name before its extension. */
  function Stem(name: string, suffix: string): string
    requires |suffix| <= |name|
  {
    name[..|name| - |suffix|]
  }

  /** A single-extension name is its stem followed by the suffix, and the stem
      has no '/'. */
  lemma StemSplits(name: string, suffix: string)
    requires SingleExtension(name, suffix)
    ensures name == Stem(name, suffix) + suffix
    ensures '/' !in Stem(name, suffix)
  {
    var s := Stem(name, suffix);
    forall k | 0 <= k < |s|
      ensures s[k] != '/'
    {
      assert s[k] == name[k];
    }
  }

  /** When the pattern starts with '.' and the text before its occurrence has no
      '.', that occurrence is the first one, and only it is replaced: whatever
      follows, a later occurrence included, is kept. */
  lemma {:induction false} ReplaceAfterStem(stem: string, pat: string, tail: string, rep: string)
    requires |pat| > 0 && pat[0] == '.' && '.' !in stem
    ensures ReplaceFirst(stem + pat + tail, pat, rep) == stem + rep + tail
  {
    var s := stem + pat + tail;
    var i := |stem|;
    assert s[i..i + |pat|] == pat;
    forall j: nat | j < i
      ensures !OccursAt(s, pat, j)
    {
      assert s[j] == stem[j] != '.';
      if j + |pat| <= |s| {
        assert s[j..j + |pat|][0] == s[j];
      }
    }
    assert FirstOccurrence(s, pat, i);
    assert s[..i] == stem && s[i + |pat|..] == tail;
  }

  /** Rewriting the extension of a single-extension name touches exactly the
      extension: the first '.' is where the old extension starts. */
  lemma ReplaceExtension(name: string, ext: string, newExt: string)
    requires |ext| > 0 && ext[0] == '.'
    requires SingleExtension(name, ext)
    ensures ReplaceFirst(name, ext, newExt) == Stem(name, ext) + newExt
  {
    var stem := Stem(name, ext);
    assert name == stem + ext + [];
    ReplaceAfterStem(stem, ext, [], newExt);
    assert stem + newExt + [] == stem + newExt;
  }

  predicate IsDigit(c: char) {
    '0' <= c <= '9'
  }

  function DigitChar(d: nat): (c: char)
    requires d < 10
    ensures IsDigit(c)
  {
    (48 + d) as char
  }

  function DigitValue(c: char): (d: nat)
    requires IsDigit(c)
    ensures d < 10 && DigitChar(d) == c
  {
    (c as int) - 48
  }

  /** The decimal text of a non-negative integer, as `${n}` prints it. */
  function Decimal(n: nat): (s: string)
    ensures 1 <= |s|
    ensures forall i :: 0 <= i < |s| ==> IsDigit(s[i])
    ensures 1 < |s| ==> s[0] != '0'
    decreases n
  {
    if n < 10 then [DigitChar(n)] else Decimal(n / 10) + [DigitChar(n % 10)]
  }

  /** Reads a string of decimal digits back as a number. */
  function DecimalValue(s: string): nat
    requires forall i :: 0 <= i < |s| ==> IsDigit(s[i])
  {
    if |s| == 0 then 0 else 10 * DecimalValue(s[..|s| - 1]) + DigitValue(s[|s| - 1])
  }

  /** Reading back what `Decimal` prints gives the number again. */
  lemma {:induction false} DecimalRoundTrip(n: nat)
    ensures DecimalValue(Decimal(n)) == n
    decreases n
  {
    var s := Decimal(n);
    if n >= 10 {
      DecimalRoundTrip(n / 10);
      assert s[..|s| - 1] == Decimal(n / 10);
      assert DigitValue(s[|s| - 1]) == n % 10;
    } else {
      assert s[..0] == [];
    }
  }

  /** Different numbers print differently. */
  lemma DecimalInjective(a: nat, b: nat)
    ensures Decimal(a) == Decimal(b) ==> a == b
  {
    DecimalRoundTrip(a);
    DecimalRoundTrip(b);
  }

  /** `${dir}/${file}`. */
  function Join(dir: string, file: string): (p: string)
    ensures |p| == |dir| + 1 + |file| && p[|dir|] == '/'
  {
    dir + "/" + file
  }

  /** The text before the last '/' of a path, or nothing when it has none: the
      directory `writeFileSync` needs for the paths the generator builds. Every path
      the generator writes is a `Join` of a directory and a file name, so the empty
      result does not arise for them. */
  function Parent(p: string): (d: string)
    ensures |d| <= |p| && p[..|d|] == d
    ensures '/' in p ==> |d| < |p| && p[|d|] == '/' && '/' !in p[|d| + 1..]
    ensures '/' !in p ==> d == ""
    decreases |p|
  {
    if |p| == 0 then ""
    else if p[|p| - 1] == '/' then p[..|p| - 1]
    else
      var q := p[..|p| - 1];
      assert p == q + [p[|p| - 1]];
      var d := Parent(q);
      assert '/' in p ==> '/' in q;
      assert |d| < |q| ==> p[|d| + 1..] == q[|d| + 1..] + [p[|p| - 1]];
      d
  }

  /** The parent of `${dir}/${file}` is `dir` when the file name is plain. */
  lemma ParentOfJoin(dir: string, file: string)
    requires '/' !in file
    ensures Parent(Join(dir, file)) == dir
  {
    var p := Join(dir, file);
    var d := Parent(p);
    assert p[|dir|] == '/';
    assert p[|dir| + 1..] == file;
    assert p[..|dir|] == dir;
  }

  /** A path whose last component holds no '/' splits back into its directory and
      file name: joining is injective on such file names. */
  lemma {:induction false} JoinInjective(d1: string, f1: string, d2: string, f2: string)
    requires '/' !in f1 && '/' !in f2
    requires Join(d1, f1) == Join(d2, f2)
    ensures d1 == d2 && f1 == f2
  {
    var p := Join(d1, f1);
    if |d2| < |d1| {
      assert false;
    } else if |d1| < |d2| {
      assert false;
    }
    assert d1 == p[..|d1|] == d2;
    assert f1 == p[|d1| + 1..] == f2;
  }
}
