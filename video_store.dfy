/**
 * The in-memory video library: an ordered list of imported videos that
 * grows by appending and shrinks by removing the rows at a set of offsets.
 */
module VideoLibrary {
  import opened Wrappers
  import opened Protocol

  /** `VideoItem`; the UUID is a natural number here. */
  datatype VideoItem = VideoItem(id: nat, name: string, bookmark: Bytes)

  /** `VideoItem.==`: two items are equal when their ids are, whatever their names and bookmarks. */
  predicate SameItem(a: VideoItem, b: VideoItem): (r: bool)
    ensures a == b ==> r
  {
    a.id == b.id
  }

  /** Identity by id is an equivalence: reflexive, symmetric and transitive. */
  lemma SameItemEquivalence(a: VideoItem, b: VideoItem, c: VideoItem)
    ensures SameItem(a, a)
    ensures SameItem(a, b) ==> SameItem(b, a)
    ensures SameItem(a, b) && SameItem(b, c) ==> SameItem(a, c)
  {
  }

  lemma SameItemIgnoresName()
    ensures SameItem(VideoItem(7, "a.mp4", []), VideoItem(7, "b.mp4", [1]))
    ensures !SameItem(VideoItem(7, "a.mp4", []), VideoItem(8, "a.mp4", []))
  {
  }

  /** The offsets of s that lie inside it. */
  function OffsetsBelow(offsets: set<nat>, n: nat): (r: set<nat>)
    ensures forall i :: i in r <==> i in offsets && i < n
  {
    set i | i in offsets && i < n
  }

  /** `remove(atOffsets:)` as a value: the rows whose offset is not in the set, in their order. */
  function RemoveAtOffsets<T>(s: seq<T>, offsets: set<nat>): (r: seq<T>)
    ensures |r| <= |s|
    ensures forall x :: x in r ==> x in s
    ensures (forall i :: 0 <= i < |s| ==> i !in offsets) ==> r == s
  {
    if s == [] then []
    else RemoveAtOffsets(s[..|s| - 1], offsets) + (if |s| - 1 in offsets then [] else [s[|s| - 1]])
  }

  /** The offsets that survive, in increasing order. */
  function KeptIndices(n: nat, offsets: set<nat>): (k: seq<nat>)
    ensures forall j :: 0 <= j < |k| ==> k[j] < n && k[j] !in offsets
    ensures forall i :: 0 <= i < n && i !in offsets ==> i in k
    ensures forall j, j' :: 0 <= j < j' < |k| ==> k[j] < k[j']
  {
    if n == 0 then [] else KeptIndices(n - 1, offsets) + (if n - 1 in offsets then [] else [n - 1])
  }

  /**
   * Exactly the rows at the given offsets are removed and the rest keep
   * their relative order: the result lists s at the surviving offsets.
   */
  lemma {:induction false} RemoveAtOffsetsKeepsOrder<T>(s: seq<T>, offsets: set<nat>)
    ensures var r := RemoveAtOffsets(s, offsets); var k := KeptIndices(|s|, offsets);
      |r| == |k| && forall j :: 0 <= j < |k| ==> r[j] == s[k[j]]
  {
    if s != [] {
      var t := s[..|s| - 1];
      RemoveAtOffsetsKeepsOrder(t, offsets);
      assert |t| == |s| - 1;
      forall j | 0 <= j < |KeptIndices(|t|, offsets)|
        ensures KeptIndices(|t|, offsets)[j] < |t|
      {
      }
    }
  }

  /** With offsets that lie inside the list, the length drops by their number. */
  lemma {:induction false} RemoveAtOffsetsLength<T>(s: seq<T>, offsets: set<nat>)
    ensures |RemoveAtOffsets(s, offsets)| == |s| - |OffsetsBelow(offsets, |s|)|
  {
    if s != [] {
      var n := |s| - 1;
      RemoveAtOffsetsLength(s[..n], offsets);
      if n in offsets {
        assert OffsetsBelow(offsets, n + 1) == OffsetsBelow(offsets, n) + {n};
      } else {
        assert OffsetsBelow(offsets, n + 1) == OffsetsBelow(offsets, n);
      }
    }
  }

  lemma RemoveValidOffsetsLength<T>(s: seq<T>, offsets: set<nat>)
    requires forall o :: o in offsets ==> o < |s|
    ensures |RemoveAtOffsets(s, offsets)| == |s| - |offsets|
  {
    RemoveAtOffsetsLength(s, offsets);
    assert OffsetsBelow(offsets, |s|) == offsets;
  }

  /** An empty offset set leaves the list as it was. */
  lemma {:induction false} RemoveNoOffsets<T>(s: seq<T>)
    ensures RemoveAtOffsets(s, {}) == s
  {
    if s != [] {
      RemoveNoOffsets(s[..|s| - 1]);
    }
  }

  /** `VideoStore`: the list of videos the user imported. */
  class VideoStore {
    var videos: seq<VideoItem>

    /** `init`: the saved list when one decodes, otherwise an empty library. */
    constructor (saved: Option<seq<VideoItem>>)
      ensures videos == saved.GetOr([])
    {
      videos := saved.GetOr([]);
    }

    /** `addVideo`: one new item at the end, everything before it unchanged. */
    method AddVideo(id: nat, name: string, bookmark: Bytes)
      modifies this`videos
      ensures videos == old(videos) + [VideoItem(id, name, bookmark)]
      ensures |videos| == |old(videos)| + 1 && videos[..|old(videos)|] == old(videos)
    {
      videos := videos + [VideoItem(id, name, bookmark)];
    }

    /** `deleteVideo(at:)`; an offset outside the list traps in Swift, so the offsets must lie inside it. */
    method DeleteVideo(offsets: set<nat>)
      requires forall o :: o in offsets ==> o < |videos|
      modifies this`videos
      ensures videos == RemoveAtOffsets(old(videos), offsets)
      ensures |videos| == |old(videos)| - |offsets|
    {
      var kept: seq<VideoItem> := [];
      var i := 0;
      while i < |videos|
        invariant 0 <= i <= |videos|
        invariant kept == RemoveAtOffsets(videos[..i], offsets)
      {
        assert videos[..i + 1][..i] == videos[..i];
        kept := kept + (if i in offsets then [] else [videos[i]]);
        i := i + 1;
      }
      assert videos[..i] == videos;
      RemoveValidOffsetsLength(videos, offsets);
      videos := kept;
    }
  }
}
