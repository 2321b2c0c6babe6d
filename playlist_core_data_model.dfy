/**
 * Playlists as the app stores them: the in-memory `PlaylistModelData`,
 * the `PlaylistCoreDataModel` handed to the database layer, and the
 * database entity whose `videoIds` column is one comma-joined string.
 */
module PlaylistData {
  import opened Wrappers

  const Comma: char := ','

  datatype PlaylistCoreDataModel = PlaylistCoreDataModel(id: string, name: string, videoIds: seq<string>)

  datatype PlaylistModelData = PlaylistModelData(id: string, name: string, videoIds: seq<string>)

  /** The stored row: every column may be absent. */
  datatype PlaylistEntity = PlaylistEntity(id: Option<string>, name: Option<string>, videoIds: Option<string>)

  predicate CommaFree(s: string) { Comma !in s }

  /** Number of commas in s. */
  function CommaCount(s: string): nat
  {
    if s == [] then 0 else (if s[0] == Comma then 1 else 0) + CommaCount(s[1..])
  }

  /** `videoIds.joined(separator: ",")`. */
  function Join(ids: seq<string>): (r: string)
    ensures ids == [] ==> r == ""
    ensures (forall i :: 0 <= i < |ids| ==> CommaFree(ids[i])) && ids != [] ==> CommaCount(r) == |ids| - 1
  {
    if ids == [] then ""
    else if |ids| == 1 then
      CommaCountOfCommaFreePrefix(ids[0], []);
      assert ids[0] + [] == ids[0];
      ids[0]
    else CommaAfter(ids[0], Join(ids[1..]))
  }

  /** a + "," + b, with the comma count it produces. */
  function CommaAfter(a: string, b: string): (r: string)
    ensures r == a + [Comma] + b
    ensures CommaFree(a) ==> CommaCount(r) == CommaCount(b) + 1
  {
    CommaCountOfCommaFreePrefix(a, [Comma] + b);
    assert ([Comma] + b)[1..] == b;
    assert a + [Comma] + b == a + ([Comma] + b);
    a + [Comma] + b
  }

  lemma {:induction false} CommaCountOfCommaFreePrefix(a: string, b: string)
    ensures CommaFree(a) ==> CommaCount(a + b) == CommaCount(b)
  {
    if a != [] && CommaFree(a) {
      assert (a + b)[1..] == a[1..] + b;
      CommaCountOfCommaFreePrefix(a[1..], b);
    } else if a == [] {
      assert a + b == b;
    }
  }

  /**
   * `components(separatedBy: ",")`: the pieces between commas, in order;
   * there is always one more piece than there are commas, so "" gives [""].
   */
  function Split(s: string): (r: seq<string>)
    ensures |r| == CommaCount(s) + 1
    ensures forall i :: 0 <= i < |r| ==> CommaFree(r[i])
    decreases |s|
  {
    if s == [] then [""]
    else if s[0] == Comma then [""] + Split(s[1..])
    else
      var rest := Split(s[1..]);
      [[s[0]] + rest[0]] + rest[1..]
  }

  /** `parseVideoIds`: no ids for an absent or empty string, otherwise the comma-separated pieces. */
  function ParseVideoIds(s: Option<string>): (r: seq<string>)
    ensures s.None? || s == Some("") ==> r == []
    ensures s.Some? && s.value != "" ==> |r| == CommaCount(s.value) + 1
  {
    match s
    case None => []
    case Some(text) => if text == "" then [] else Split(text)
  }

  /** A piece without commas splits into itself. */
  lemma {:induction false} SplitCommaFree(a: string)
    requires CommaFree(a)
    ensures Split(a) == [a]
    decreases |a|
  {
    if a != [] {
      SplitCommaFree(a[1..]);
      assert [a[0]] + a[1..] == a;
    }
  }

  /** Splitting at the first comma when the part before it is comma-free. */
  lemma {:induction false} SplitAtComma(a: string, t: string)
    requires CommaFree(a)
    ensures Split(a + [Comma] + t) == [a] + Split(t)
    decreases |a|
  {
    var s := a + [Comma] + t;
    if a == [] {
      assert s[1..] == t;
    } else {
      assert s[1..] == a[1..] + [Comma] + t;
      SplitAtComma(a[1..], t);
      assert [a[0]] + a[1..] == a;
    }
  }

  /** Splitting a join gives the ids back when none of them holds a comma. */
  lemma {:induction false} SplitJoin(ids: seq<string>)
    requires ids != []
    requires forall i :: 0 <= i < |ids| ==> CommaFree(ids[i])
    ensures Split(Join(ids)) == ids
  {
    if |ids| == 1 {
      SplitCommaFree(ids[0]);
    } else {
      SplitAtComma(ids[0], Join(ids[1..]));
      SplitJoin(ids[1..]);
      assert [ids[0]] + ids[1..] == ids;
    }
  }

  /**
   * The round trip through the stored string: `parseVideoIds(videoIdsString)`
   * gives the ids back whenever no id holds a comma and the list is not the
   * single empty id.
   */
  lemma ParseJoinRoundTrip(ids: seq<string>)
    requires forall i :: 0 <= i < |ids| ==> CommaFree(ids[i])
    requires ids != [""]
    ensures ParseVideoIds(Some(Join(ids))) == ids
  {
    if ids != [] {
      if |ids| == 1 {
        assert ids[0] != "";
      } else {
        assert Join(ids) == ids[0] + [Comma] + Join(ids[1..]);
      }
      SplitJoin(ids);
    }
  }

  /** The excluded cases are lost: a single empty id reads back as no ids, and an id with a comma reads back as two. */
  lemma RoundTripLimits()
    ensures ParseVideoIds(Some(Join([""]))) == []
    ensures ParseVideoIds(Some(Join(["a,b"]))) == ["a", "b"]
  {
    assert "a,b"[1..] == ",b";
    assert ",b"[1..] == "b";
    SplitCommaFree("b");
    assert Split(",b") == ["", "b"];
    assert Split("a,b") == [['a'] + ""] + ["b"];
    assert ['a'] + "" == "a";
    assert Join(["a,b"]) == "a,b";
  }

  /** `toPlaylistModelData`: a field-by-field copy. */
  function ToPlaylistModelData(m: PlaylistCoreDataModel): (r: PlaylistModelData)
    ensures r.id == m.id && r.name == m.name && r.videoIds == m.videoIds
  {
    PlaylistModelData(m.id, m.name, m.videoIds)
  }

  /** `PlaylistModelData.toCoreDataModel`: a field-by-field copy. */
  function ToCoreDataModel(d: PlaylistModelData): (r: PlaylistCoreDataModel)
    ensures r.id == d.id && r.name == d.name && r.videoIds == d.videoIds
  {
    PlaylistCoreDataModel(d.id, d.name, d.videoIds)
  }

  /** The two conversions are inverse to each other. */
  lemma ConversionsInverse(m: PlaylistCoreDataModel, d: PlaylistModelData)
    ensures ToCoreDataModel(ToPlaylistModelData(m)) == m
    ensures ToPlaylistModelData(ToCoreDataModel(d)) == d
  {
  }

  /** `PlaylistEntity.convertFromCoreDataModel`: the ids go into the comma-joined column. */
  function ConvertFromCoreDataModel(m: PlaylistCoreDataModel): (e: PlaylistEntity)
    ensures e.id == Some(m.id) && e.name == Some(m.name) && e.videoIds == Some(Join(m.videoIds))
  {
    PlaylistEntity(Some(m.id), Some(m.name), Some(Join(m.videoIds)))
  }

  /** `PlaylistEntity.toCoreDataModel`: absent columns read as "" and the id column is parsed. */
  function EntityToCoreDataModel(e: PlaylistEntity): (m: PlaylistCoreDataModel)
    ensures m.id == e.id.GetOr("") && m.name == e.name.GetOr("")
    ensures e.videoIds.None? ==> m.videoIds == []
  {
    PlaylistCoreDataModel(e.id.GetOr(""), e.name.GetOr(""), ParseVideoIds(e.videoIds))
  }

  /** Writing a playlist to its row and reading it back gives the same playlist, under the round-trip conditions on its ids. */
  lemma EntityRoundTrip(m: PlaylistCoreDataModel)
    requires forall i :: 0 <= i < |m.videoIds| ==> CommaFree(m.videoIds[i])
    requires m.videoIds != [""]
    ensures EntityToCoreDataModel(ConvertFromCoreDataModel(m)) == m
  {
    ParseJoinRoundTrip(m.videoIds);
  }
}
