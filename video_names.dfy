/**
 * `videoNamesMatch`: two video names refer to the same video when their
 * stems (name without the last path extension) agree up to letter case.
 *
 * `NSString.deletingPathExtension` is modelled for plain file names: the
 * extension starts at the last '.' of the last path component unless that
 * '.' opens the component (a dot file has no extension). `lowercased()` is
 * modelled on ASCII letters.
 */
module VideoNames {
  import opened Wrappers

  function ToLower(c: char): (r: char)
    ensures 'A' <= c <= 'Z' ==> r as int == c as int + 32
    ensures !('A' <= c <= 'Z') ==> r == c
  {
    if 'A' <= c <= 'Z' then (c as int + 32) as char else c
  }

  function Lowercased(s: string): (r: string)
    ensures |r| == |s| && forall i :: 0 <= i < |s| ==> r[i] == ToLower(s[i])
  {
    seq(|s|, i requires 0 <= i < |s| => ToLower(s[i]))
  }

  /** True when no '/' occurs in s[from..]: its characters belong to the last path component. */
  predicate InLastComponent(s: string, from: nat)
  {
    forall j :: from <= j < |s| ==> s[j] != '/'
  }

  /** The dot of the last path extension among s[..k], scanning right to left. */
  function ExtensionDotBefore(s: string, k: nat): (r: Option<nat>)
    requires k <= |s|
    requires forall j :: k <= j < |s| ==> s[j] != '.' && s[j] != '/'
    ensures r.Some? ==> var d := r.value;
      0 < d < |s| && s[d] == '.' && s[d - 1] != '/' && InLastComponent(s, d) &&
      forall j :: d < j < |s| ==> s[j] != '.'
    ensures r.None? ==> forall j :: 0 <= j < |s| && s[j] == '.' && InLastComponent(s, j) ==> j == 0 || s[j - 1] == '/'
    decreases k
  {
    if k == 0 then None
    else if s[k - 1] == '/' then None
    else if s[k - 1] == '.' then
      if k - 1 > 0 && s[k - 2] != '/' then Some(k - 1) else None
    else ExtensionDotBefore(s, k - 1)
  }

  /** The dot that opens the last path extension of s, if s has one. */
  function ExtensionDot(s: string): Option<nat>
  {
    ExtensionDotBefore(s, |s|)
  }

  /** `deletingPathExtension`. */
  function DeletingPathExtension(s: string): (r: string)
    ensures |r| <= |s| && r == s[..|r|]
  {
    match ExtensionDot(s)
    case Some(d) => s[..d]
    case None => s
  }

  /** The stem two names are compared by. */
  function Stem(s: string): (r: string)
    ensures |r| <= |s| && forall i :: 0 <= i < |r| ==> r[i] == ToLower(s[i])
    ensures ExtensionDot(s).None? ==> |r| == |s|
  {
    Lowercased(DeletingPathExtension(s))
  }

  /**
   * `videoNamesMatch(a, b)`: two present, non-empty names match when their
   * stems agree; otherwise the optionals themselves are compared.
   */
  function VideoNamesMatch(a: Option<string>, b: Option<string>): (r: bool)
    ensures a.Some? && b.Some? && a.value != "" && b.value != "" ==> (r <==> Stem(a.value) == Stem(b.value))
    ensures a.None? || b.None? || a.value == "" || b.value == "" ==> (r <==> a == b)
  {
    if a.None? || b.None? || a.value == "" || b.value == "" then a == b
    else Stem(a.value) == Stem(b.value)
  }

  lemma VideoNamesMatchSymmetric(a: Option<string>, b: Option<string>)
    ensures VideoNamesMatch(a, b) == VideoNamesMatch(b, a)
  {
  }

  /** Matching is transitive, so it partitions names into classes of the same video. */
  lemma VideoNamesMatchTransitive(a: Option<string>, b: Option<string>, c: Option<string>)
    requires VideoNamesMatch(a, b) && VideoNamesMatch(b, c)
    ensures VideoNamesMatch(a, c)
  {
  }

  /** An empty name matches only an empty name; an absent one only an absent one. */
  lemma EmptyAndAbsentNames(b: Option<string>)
    ensures VideoNamesMatch(Some(""), b) <==> b == Some("")
    ensures VideoNamesMatch(None, b) <==> b == None
  {
  }

  /** A name without '.' or '/' is its own stem before lowercasing. */
  lemma {:induction false} PlainNameHasNoExtension(s: string, k: nat)
    requires k <= |s|
    requires forall j :: 0 <= j < |s| ==> s[j] != '.' && s[j] != '/'
    ensures ExtensionDotBefore(s, k) == None
    decreases k
  {
    if k > 0 {
      PlainNameHasNoExtension(s, k - 1);
    }
  }

  /** Appending "." and an extension to a plain, non-empty base gives that base back as the stem. */
  lemma BaseDotExtension(base: string, ext: string)
    requires base != []
    requires forall j :: 0 <= j < |base| ==> base[j] != '.' && base[j] != '/'
    requires forall j :: 0 <= j < |ext| ==> ext[j] != '.' && ext[j] != '/'
    ensures DeletingPathExtension(base + "." + ext) == base
  {
    var s := base + "." + ext;
    assert s[|base|] == '.';
    assert s[|base| - 1] == base[|base| - 1];
    assert forall j :: |base| < j < |s| ==> s[j] == ext[j - |base| - 1];
    SkipExtension(s, |s|, |base|);
    assert s[..|base|] == base;
  }

  /** Scanning leftwards over a dot-free, slash-free tail reaches the dot at `d`. */
  lemma {:induction false} SkipExtension(s: string, k: nat, d: nat)
    requires d < k <= |s|
    requires forall j :: k <= j < |s| ==> s[j] != '.' && s[j] != '/'
    requires s[d] == '.' && d > 0 && s[d - 1] != '/'
    requires forall j :: d < j < |s| ==> s[j] != '.' && s[j] != '/'
    ensures ExtensionDotBefore(s, k) == Some(d)
    decreases k
  {
    if k - 1 > d {
      SkipExtension(s, k - 1, d);
    }
  }

  /** Names that differ only in their extension and in letter case match. */
  lemma ExtensionAndCaseIgnored(base1: string, ext1: string, base2: string, ext2: string)
    requires base1 != [] && Lowercased(base1) == Lowercased(base2)
    requires forall j :: 0 <= j < |base1| ==> base1[j] != '.' && base1[j] != '/'
    requires forall j :: 0 <= j < |base2| ==> base2[j] != '.' && base2[j] != '/'
    requires forall j :: 0 <= j < |ext1| ==> ext1[j] != '.' && ext1[j] != '/'
    requires forall j :: 0 <= j < |ext2| ==> ext2[j] != '.' && ext2[j] != '/'
    ensures VideoNamesMatch(Some(base1 + "." + ext1), Some(base2 + "." + ext2))
  {
    BaseDotExtension(base1, ext1);
    BaseDotExtension(base2, ext2);
  }

  /** The first example the function's documentation gives: case is ignored. */
  lemma DocumentedExampleCase()
    ensures VideoNamesMatch(Some("Video1.Mp4"), Some("video1.mp4"))
  {
    var a, b := "Video1.Mp4", "video1.mp4";
    assert DeletingPathExtension(a) == "Video1" by {
      SkipExtension(a, |a|, 6);
      assert a[..6] == "Video1";
    }
    assert DeletingPathExtension(b) == "video1" by {
      SkipExtension(b, |b|, 6);
      assert b[..6] == "video1";
    }
    assert Lowercased("Video1") == Lowercased("video1");
  }

  /** The second example the function's documentation gives: the extension is ignored. */
  lemma DocumentedExampleExtension()
    ensures VideoNamesMatch(Some("video2.MOV"), Some("video2.mp4"))
  {
    var a, b := "video2.MOV", "video2.mp4";
    assert DeletingPathExtension(a) == "video2" by {
      SkipExtension(a, |a|, 6);
      assert a[..6] == "video2";
    }
    assert DeletingPathExtension(b) == "video2" by {
      SkipExtension(b, |b|, 6);
      assert b[..6] == "video2";
    }
  }
}
