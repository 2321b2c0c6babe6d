/**
 * The playlist screen's view model: it mirrors the store's playlist rows
 * in `playlists`, creates a playlist under a trimmed name, deletes a
 * playlist, and removes a video from a playlist by rewriting the row. The
 * store is the managed-object context's playlist rows in fetch order;
 * `saved` says whether the context's save succeeded.
 */
module PlaylistVm {
  import opened Wrappers
  import opened SeqUtil
  import opened PlaylistData

  // Trimming whitespace and newlines

  /** `CharacterSet.whitespacesAndNewlines`: the Unicode space separators, line and paragraph separators, U+0009 to U+000D and U+0085. */
  predicate IsWhitespaceOrNewline(c: char): (r: bool)
    ensures c as int < 128 ==> (r <==> c == ' ' || '\t' <= c <= '\r')
    ensures r ==> !('0' <= c <= '9') && !('A' <= c <= 'Z') && !('a' <= c <= 'z')
  {
    c == ' ' || ('\t' <= c <= '\r') || c == '\U{0085}' || c == '\U{00A0}' || c == '\U{1680}' ||
    ('\U{2000}' <= c <= '\U{200A}') || c == '\U{2028}' || c == '\U{2029}' || c == '\U{202F}' ||
    c == '\U{205F}' || c == '\U{3000}'
  }

  /** Every character of s is whitespace or a newline. */
  predicate AllWhitespace(s: string): (r: bool)
    ensures r <==> forall c :: c in s ==> IsWhitespaceOrNewline(c)
  {
    forall i :: 0 <= i < |s| ==> IsWhitespaceOrNewline(s[i])
  }

  /** Drops the whitespace at the front. */
  function TrimLeading(s: string): (r: string)
    ensures |r| <= |s| && r == s[|s| - |r|..]
    ensures AllWhitespace(s[..|s| - |r|])
    ensures r == [] || !IsWhitespaceOrNewline(r[0])
    decreases |s|
  {
    if s != [] && IsWhitespaceOrNewline(s[0]) then
      var r := TrimLeading(s[1..]);
      assert s[..|s| - |r|] == [s[0]] + s[1..][..|s| - 1 - |r|];
      r
    else s
  }

  /** Drops the whitespace at the back. */
  function TrimTrailing(s: string): (r: string)
    ensures |r| <= |s| && r == s[..|r|]
    ensures AllWhitespace(s[|r|..])
    ensures r == [] || !IsWhitespaceOrNewline(r[|r| - 1])
    decreases |s|
  {
    if s != [] && IsWhitespaceOrNewline(s[|s| - 1]) then
      var r := TrimTrailing(s[..|s| - 1]);
      assert s[|r|..] == s[..|s| - 1][|r|..] + [s[|s| - 1]];
      r
    else s
  }

  /** `trimmingCharacters(in: .whitespacesAndNewlines)`. */
  function Trim(s: string): (r: string)
    ensures r == [] || (!IsWhitespaceOrNewline(r[0]) && !IsWhitespaceOrNewline(r[|r| - 1]))
  {
    TrimTrailing(TrimLeading(s))
  }

  /** A name trims to nothing exactly when it is all whitespace and newlines. */
  lemma TrimEmptyIff(s: string)
    ensures Trim(s) == [] <==> AllWhitespace(s)
  {
    var lead := TrimLeading(s);
    if Trim(s) == [] {
      assert lead[0..] == lead;
      assert s[..|s| - |lead|] == s;
    }
  }

  /** Trimming a trimmed name changes nothing. */
  lemma TrimIdempotent(s: string)
    ensures Trim(Trim(s)) == Trim(s)
  {
    var t := Trim(s);
    if t != [] {
      assert TrimLeading(t) == t;
    }
  }

  // Reading the store

  /** `retrievePlaylists` followed by `toPlaylistModelData`: every row, in order. */
  function Fetched(store: seq<PlaylistEntity>): (r: seq<PlaylistModelData>)
    ensures |r| == |store|
    ensures forall i :: 0 <= i < |store| ==>
      r[i].id == store[i].id.GetOr("") && r[i].name == store[i].name.GetOr("") &&
      r[i].videoIds == ParseVideoIds(store[i].videoIds)
    decreases |store|
  {
    if store == [] then []
    else [ToPlaylistModelData(EntityToCoreDataModel(store[0]))] + Fetched(store[1..])
  }

  /** `filterPlaylists(["id": id]).first`: the first row with that id. */
  function FirstRowWithId(store: seq<PlaylistEntity>, id: string): (r: Option<nat>)
    ensures r.Some? ==> r.value < |store| && store[r.value].id == Some(id)
    ensures r.Some? ==> forall j :: 0 <= j < r.value ==> store[j].id != Some(id)
    ensures r.None? <==> forall j :: 0 <= j < |store| ==> store[j].id != Some(id)
    decreases |store|
  {
    if store == [] then None
    else if store[0].id == Some(id) then Some(0)
    else match FirstRowWithId(store[1..], id)
      case None => None
      case Some(k) => Some(k + 1)
  }

  /** `playlists.first(where: { $0.id == playlistId })`, as an index. */
  function FirstPlaylistWithId(playlists: seq<PlaylistModelData>, id: string): (r: Option<nat>)
    ensures r.Some? ==> r.value < |playlists| && playlists[r.value].id == id
    ensures r.Some? ==> forall j :: 0 <= j < r.value ==> playlists[j].id != id
    ensures r.None? <==> forall j :: 0 <= j < |playlists| ==> playlists[j].id != id
    decreases |playlists|
  {
    if playlists == [] then None
    else if playlists[0].id == id then Some(0)
    else match FirstPlaylistWithId(playlists[1..], id)
      case None => None
      case Some(k) => Some(k + 1)
  }

  /** How many rows carry that id. */
  function RowsWithId(store: seq<PlaylistEntity>, id: string): nat
    decreases |store|
  {
    if store == [] then 0
    else (if store[0].id == Some(id) then 1 else 0) + RowsWithId(store[1..], id)
  }

  lemma {:induction false} RowsWithIdAppend(a: seq<PlaylistEntity>, b: seq<PlaylistEntity>, id: string)
    ensures RowsWithId(a + b, id) == RowsWithId(a, id) + RowsWithId(b, id)
    decreases |a|
  {
    if a == [] {
      assert a + b == b;
    } else {
      assert (a + b)[1..] == a[1..] + b;
      RowsWithIdAppend(a[1..], b, id);
    }
  }

  /** `s.removeAll { $0 == x }` on a local copy, element by element. */
  method RemovingAll(s: seq<string>, x: string) returns (r: seq<string>)
    ensures r == RemoveAll(s, x)
  {
    r := [];
    var i := 0;
    while i < |s|
      invariant 0 <= i <= |s|
      invariant r == RemoveAll(s[..i], x)
    {
      RemoveAllSnoc(s[..i], s[i], x);
      assert s[..i + 1] == s[..i] + [s[i]];
      if s[i] != x {
        r := r + [s[i]];
      }
      i := i + 1;
    }
    assert s[..i] == s;
  }

  class PlayListVm {
    var playlists: seq<PlaylistModelData>
    /** The context's playlist rows, in fetch order. */
    var store: seq<PlaylistEntity>
    /** Whether `VideoLocalDataManager()` could be created; without it every operation does nothing. */
    const hasDataManager: bool

    /** `init`: create the data manager and, if that worked, fetch. */
    constructor (managerCreated: bool, stored: seq<PlaylistEntity>)
      ensures hasDataManager == managerCreated && store == stored
      ensures playlists == (if managerCreated then Fetched(stored) else [])
    {
      hasDataManager := managerCreated;
      store := stored;
      playlists := [];
      new;
      FetchPlaylists();
    }

    /** `fetchPlaylists`. */
    method FetchPlaylists()
      modifies this`playlists
      ensures playlists == if hasDataManager then Fetched(store) else old(playlists)
    {
      if hasDataManager {
        playlists := Fetched(store);
      }
    }

    /**
     * `createPlaylist`: a name that trims to nothing is ignored; otherwise a
     * row with the fresh id, the trimmed name and no videos is inserted, and
     * the list is fetched again if the save succeeded.
     */
    method CreatePlaylist(name: string, freshId: string, saved: bool)
      modifies this`playlists, this`store
      ensures Trim(name) == [] || !hasDataManager ==> playlists == old(playlists) && store == old(store)
      ensures Trim(name) != [] && hasDataManager ==>
        store == old(store) + [ConvertFromCoreDataModel(PlaylistCoreDataModel(freshId, Trim(name), []))] &&
        playlists == (if saved then Fetched(store) else old(playlists))
    {
      var trimmedName := Trim(name);
      if trimmedName == [] {
        return;
      }
      var newPlaylist := PlaylistModelData(freshId, trimmedName, []);
      var coreDataModel := ToCoreDataModel(newPlaylist);
      if hasDataManager {
        store := store + [ConvertFromCoreDataModel(coreDataModel)];
        if saved {
          FetchPlaylists();
        }
      }
    }

    /** `deletePlaylist`: the first row with the id is deleted; without such a row nothing happens. */
    method DeletePlaylist(id: string, saved: bool)
      modifies this`playlists, this`store
      ensures !hasDataManager || FirstRowWithId(old(store), id).None? ==>
        playlists == old(playlists) && store == old(store)
      ensures hasDataManager && FirstRowWithId(old(store), id).Some? ==>
        var k := FirstRowWithId(old(store), id).value;
        store == old(store)[..k] + old(store)[k + 1..] &&
        playlists == (if saved then Fetched(store) else old(playlists))
    {
      if !hasDataManager {
        return;
      }
      var row := FirstRowWithId(store, id);
      if row.None? {
        return;
      }
      var k := row.value;
      store := store[..k] + store[k + 1..];
      if saved {
        FetchPlaylists();
      }
    }

    /**
     * `deleteVideoFromPlaylist`: looks the playlist up in `playlists`, drops
     * every occurrence of the video id, and rewrites the store's first row
     * with the playlist's id.
     */
    method DeleteVideoFromPlaylist(playlistId: string, videoId: string, saved: bool)
      modifies this`playlists, this`store
      ensures FirstPlaylistWithId(old(playlists), playlistId).None? || !hasDataManager ==>
        playlists == old(playlists) && store == old(store)
      ensures FirstPlaylistWithId(old(playlists), playlistId).Some? && hasDataManager ==>
        var playlist := old(playlists)[FirstPlaylistWithId(old(playlists), playlistId).value];
        var row := FirstRowWithId(old(store), playlist.id);
        (row.None? ==> playlists == old(playlists) && store == old(store)) &&
        (row.Some? ==>
          store == old(store)[row.value := ConvertFromCoreDataModel(
            PlaylistCoreDataModel(playlist.id, playlist.name, RemoveAll(playlist.videoIds, videoId)))] &&
          playlists == (if saved then Fetched(store) else old(playlists)))
    {
      var found := FirstPlaylistWithId(playlists, playlistId);
      if found.None? {
        return;
      }
      var playlist := playlists[found.value];
      var updatedVideoIds := RemovingAll(playlist.videoIds, videoId);
      var updatedPlaylist := PlaylistModelData(playlist.id, playlist.name, updatedVideoIds);
      var coreDataModel := ToCoreDataModel(updatedPlaylist);
      if !hasDataManager {
        return;
      }
      var row := FirstRowWithId(store, coreDataModel.id);
      if row.None? {
        return;
      }
      store := store[row.value := ConvertFromCoreDataModel(coreDataModel)];
      if saved {
        FetchPlaylists();
      }
    }
  }

  // What the operations promise once the list is fetched again

  /** A created playlist is fetched last, with its id, its name and no videos; the earlier ones are unchanged. */
  lemma CreatedPlaylistFetchedLast(store: seq<PlaylistEntity>, id: string, name: string)
    ensures var after := Fetched(store + [ConvertFromCoreDataModel(PlaylistCoreDataModel(id, name, []))]);
      after == Fetched(store) + [PlaylistModelData(id, name, [])]
  {
    var row := ConvertFromCoreDataModel(PlaylistCoreDataModel(id, name, []));
    var after := Fetched(store + [row]);
    assert Join([]) == "";
    EntityRoundTrip(PlaylistCoreDataModel(id, name, []));
    assert after[|store|] == PlaylistModelData(id, name, []);
    assert forall i :: 0 <= i < |store| ==> after[i] == Fetched(store)[i] by {
      assert forall i :: 0 <= i < |store| ==> (store + [row])[i] == store[i];
    }
  }

  /** Deleting the first row with an id leaves exactly one row fewer with that id. */
  lemma DeleteRemovesOneRow(store: seq<PlaylistEntity>, id: string)
    requires FirstRowWithId(store, id).Some?
    ensures var k := FirstRowWithId(store, id).value;
      RowsWithId(store[..k] + store[k + 1..], id) == RowsWithId(store, id) - 1
  {
    var k := FirstRowWithId(store, id).value;
    assert store == store[..k] + ([store[k]] + store[k + 1..]);
    RowsWithIdAppend(store[..k], [store[k]] + store[k + 1..], id);
    RowsWithIdAppend(store[..k], store[k + 1..], id);
    RowsWithIdAppend([store[k]], store[k + 1..], id);
    assert RowsWithId([store[k]], id) == 1 by {
      assert [store[k]][1..] == [];
    }
  }

  /**
   * After removing a video, the rewritten row reads back with exactly the
   * remaining ids, in order, and without the removed one; the other rows read
   * back as before. This needs the stored ids not to hold commas and the
   * remaining list not to be the single empty id.
   */
  lemma RemovedVideoReadsBack(store: seq<PlaylistEntity>, k: nat, playlist: PlaylistModelData, videoId: string)
    requires k < |store|
    requires forall i :: 0 <= i < |playlist.videoIds| ==> CommaFree(playlist.videoIds[i])
    requires RemoveAll(playlist.videoIds, videoId) != [""]
    ensures var kept := RemoveAll(playlist.videoIds, videoId);
      var after := Fetched(store[k := ConvertFromCoreDataModel(PlaylistCoreDataModel(playlist.id, playlist.name, kept))]);
      after[k] == PlaylistModelData(playlist.id, playlist.name, kept) && videoId !in after[k].videoIds &&
      forall i :: 0 <= i < |store| && i != k ==> after[i] == Fetched(store)[i]
  {
    var kept := RemoveAll(playlist.videoIds, videoId);
    forall i | 0 <= i < |kept|
      ensures CommaFree(kept[i])
    {
      assert kept[i] in kept;
      var j :| 0 <= j < |playlist.videoIds| && playlist.videoIds[j] == kept[i];
    }
    EntityRoundTrip(PlaylistCoreDataModel(playlist.id, playlist.name, kept));
  }
}
