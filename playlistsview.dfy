/**
 * The playlists screen: the bounds-checked subscript, the name filter the
 * list shows, and the delete handler of the list rows, which removes the
 * playlists at a set of row offsets through the library manager.
 */
module PlaylistsView {
  import opened Wrappers
  import opened Seqs
  import opened Text
  import opened Songs
  import opened Playlists
  import opened Library

  /** `array[safe: i]`: the element when `i` is an index of the array, nil otherwise. */
  function SafeGet<T>(s: seq<T>, i: int): (r: Option<T>)
    ensures r.Some? <==> 0 <= i < |s|
    ensures r.Some? ==> r.value == s[i]
  {
    if 0 <= i < |s| then Some(s[i]) else None
  }

  function NameMatches(text: string): Playlist -> bool {
    (p: Playlist) => Contains(Lower(p.name), Lower(text))
  }

  /**
   * `filteredPlaylists`: all playlists for empty search text, else those
   * whose lowercased name contains the lowercased text, in library order.
   */
  function FilteredPlaylists(playlists: seq<Playlist>, text: string): (r: seq<Playlist>)
    ensures text == [] ==> r == playlists
    ensures text != [] ==> IsSubseq(r, playlists)
    ensures text != [] ==> forall i | 0 <= i < |r| :: Contains(Lower(r[i].name), Lower(text))
    ensures text != [] ==> forall p :: multiset(r)[p] == if NameMatches(text)(p) then multiset(playlists)[p] else 0
  {
    if text == [] then playlists
    else
      KeepFilters(playlists, NameMatches(text));
      Keep(playlists, NameMatches(text))
  }

  /** The row offsets of an `IndexSet`, in the ascending order it iterates them. */
  predicate Ascending(offsets: seq<nat>) {
    forall i, j | 0 <= i < j < |offsets| :: offsets[i] < offsets[j]
  }

  /**
   * `deletePlaylists(at:)` as written: each offset, in turn, picks a row of
   * the filtered list as it stands after the previous deletions, and every
   * playlist with that row's id is deleted.  `None` is the trap of an offset
   * past the end of the shrunken list.
   */
  function DeleteAsWritten(playlists: seq<Playlist>, text: string, offsets: seq<nat>): Option<seq<Playlist>>
    decreases |offsets|
  {
    if offsets == [] then Some(playlists)
    else
      var rows := FilteredPlaylists(playlists, text);
      if offsets[0] < |rows| then
        DeleteAsWritten(Keep(playlists, PlaylistLacksId(rows[offsets[0]].id)), text, offsets[1..])
      else None
  }

  /** The as-written deletion never adds a playlist, and keeps the survivors in their order. */
  lemma {:induction false} DeleteAsWrittenShrinks(playlists: seq<Playlist>, text: string, offsets: seq<nat>)
    requires DeleteAsWritten(playlists, text, offsets).Some?
    ensures IsSubseq(DeleteAsWritten(playlists, text, offsets).value, playlists)
    decreases |offsets|
  {
    if offsets != [] {
      var rows := FilteredPlaylists(playlists, text);
      var rest := Keep(playlists, PlaylistLacksId(rows[offsets[0]].id));
      KeepFilters(playlists, PlaylistLacksId(rows[offsets[0]].id));
      DeleteAsWrittenShrinks(rest, text, offsets[1..]);
      SubseqTransitive(DeleteAsWritten(rest, text, offsets[1..]).value, rest, playlists);
    } else {
      SubseqReflexive(playlists);
    }
  }

  /**
   * `deletePlaylists(at:)` with the library manager's `deletePlaylist`: the
   * filtered list is recomputed for every offset, exactly as the computed
   * property is re-read on each pass of the loop.
   */
  method DeletePlaylists(library: MusicLibrary, text: string, offsets: seq<nat>)
    requires Ascending(offsets)
    requires DeleteAsWritten(library.playlists, text, offsets).Some?
    modifies library
    ensures library.playlists == DeleteAsWritten(old(library.playlists), text, offsets).value
    ensures library.songs == old(library.songs) && library.albums == old(library.albums)
    ensures library.artists == old(library.artists)
  {
    for i := 0 to |offsets|
      invariant DeleteAsWritten(library.playlists, text, offsets[i..]) == DeleteAsWritten(old(library.playlists), text, offsets)
      invariant library.songs == old(library.songs) && library.albums == old(library.albums)
      invariant library.artists == old(library.artists)
    {
      var rows := FilteredPlaylists(library.playlists, text);
      assert offsets[i..][1..] == offsets[i + 1..];
      var playlist := rows[offsets[i]];
      library.DeletePlaylist(playlist);
    }
    assert offsets[|offsets|..] == [];
  }

  /** The playlists the selected rows show, read before anything is deleted. */
  function SelectedPlaylists(playlists: seq<Playlist>, text: string, offsets: seq<nat>): (r: seq<Playlist>)
    requires forall k | 0 <= k < |offsets| :: offsets[k] < |FilteredPlaylists(playlists, text)|
    ensures |r| == |offsets|
    ensures forall k | 0 <= k < |offsets| :: r[k] == FilteredPlaylists(playlists, text)[offsets[k]]
  {
    var rows := FilteredPlaylists(playlists, text);
    seq(|offsets|, k requires 0 <= k < |offsets| => rows[offsets[k]])
  }

  function Ids(ps: seq<Playlist>): (r: seq<Uuid>)
    ensures |r| == |ps| && forall k | 0 <= k < |ps| :: r[k] == ps[k].id
  {
    seq(|ps|, k requires 0 <= k < |ps| => ps[k].id)
  }

  function NotIn(ids: seq<Uuid>): Playlist -> bool {
    (p: Playlist) => p.id !in ids
  }

  /**
   * The deletion the delete handler evidently intends: the playlists on the
   * selected rows, every one of them and nothing else.
   */
  function DeleteSelected(playlists: seq<Playlist>, text: string, offsets: seq<nat>): (r: seq<Playlist>)
    requires forall k | 0 <= k < |offsets| :: offsets[k] < |FilteredPlaylists(playlists, text)|
    ensures forall k | 0 <= k < |offsets| :: FilteredPlaylists(playlists, text)[offsets[k]] !in r
    ensures forall p | p in r :: p.id !in Ids(SelectedPlaylists(playlists, text, offsets))
    ensures forall p: Playlist :: p.id !in Ids(SelectedPlaylists(playlists, text, offsets)) ==>
              multiset(r)[p] == multiset(playlists)[p]
    ensures IsSubseq(r, playlists)
  {
    var ids := Ids(SelectedPlaylists(playlists, text, offsets));
    KeepFilters(playlists, NotIn(ids));
    var r := Keep(playlists, NotIn(ids));
    assert forall p | p in r :: p.id !in ids by {
      forall p | p in r ensures p.id !in ids {
        KeepMember(playlists, NotIn(ids), p);
      }
    }
    assert forall k | 0 <= k < |offsets| :: ids[k] == FilteredPlaylists(playlists, text)[offsets[k]].id;
    r
  }

  /**
   * The evidently intended handler: read the selected playlists first, then
   * delete each through the library manager.
   */
  method DeleteSelectedPlaylists(library: MusicLibrary, text: string, offsets: seq<nat>)
    requires Ascending(offsets)
    requires forall k | 0 <= k < |offsets| :: offsets[k] < |FilteredPlaylists(library.playlists, text)|
    modifies library
    ensures library.playlists == DeleteSelected(old(library.playlists), text, offsets)
    ensures library.songs == old(library.songs) && library.albums == old(library.albums)
    ensures library.artists == old(library.artists)
  {
    var selected := SelectedPlaylists(library.playlists, text, offsets);
    var ids := Ids(selected);
    KeepAll(library.playlists, NotIn([]));
    assert ids[..0] == [];
    for i := 0 to |selected|
      invariant library.playlists == Keep(old(library.playlists), NotIn(ids[..i]))
      invariant library.songs == old(library.songs) && library.albums == old(library.albums)
      invariant library.artists == old(library.artists)
    {
      assert ids[..i + 1] == ids[..i] + [ids[i]];
      KeepNotInSnoc(old(library.playlists), ids[..i], ids[i]);
      library.DeletePlaylist(selected[i]);
    }
    assert ids[..|selected|] == ids;
  }

  /** Deleting one more id after a batch is deleting the batch with that id added. */
  lemma {:induction false} KeepNotInSnoc(s: seq<Playlist>, ids: seq<Uuid>, id: Uuid)
    ensures Keep(Keep(s, NotIn(ids)), PlaylistLacksId(id)) == Keep(s, NotIn(ids + [id]))
  {
    if s != [] {
      var t, y := Init(s), Last(s);
      KeepNotInSnoc(t, ids, id);
      var kept := Keep(t, NotIn(ids));
      assert Keep(s, NotIn(ids)) == kept + (if NotIn(ids)(y) then [y] else []);
      assert Keep(s, NotIn(ids + [id])) == Keep(t, NotIn(ids + [id])) + (if NotIn(ids + [id])(y) then [y] else []);
      assert NotIn(ids + [id])(y) == (NotIn(ids)(y) && PlaylistLacksId(id)(y));
      if NotIn(ids)(y) {
        KeepSnoc(kept, y, PlaylistLacksId(id));
        assert Keep(kept + [y], PlaylistLacksId(id)) == Keep(t, NotIn(ids + [id])) + (if PlaylistLacksId(id)(y) then [y] else []);
      } else {
        assert Keep(s, NotIn(ids)) == kept;
        assert Keep(s, NotIn(ids + [id])) == Keep(t, NotIn(ids + [id]));
      }
    }
  }

  /** One selected row (a swipe) is deleted correctly as written. */
  lemma {:induction false} SingleRowAgrees(playlists: seq<Playlist>, text: string, offset: nat)
    requires offset < |FilteredPlaylists(playlists, text)|
    ensures DeleteAsWritten(playlists, text, [offset]) == Some(DeleteSelected(playlists, text, [offset]))
  {
    var id := FilteredPlaylists(playlists, text)[offset].id;
    assert Ids(SelectedPlaylists(playlists, text, [offset])) == [id];
    assert [offset][1..] == [];
    KeepAll(playlists, NotIn([]));
    KeepNotInSnoc(playlists, [], id);
    assert [] + [id] == [id];
  }

  const First: Playlist := Playlist(Uuid(1), "Road", [])
  const Second: Playlist := Playlist(Uuid(2), "Gym", [])
  const Third: Playlist := Playlist(Uuid(3), "Sleep", [])

  /**
   * Three playlists, no search text.  Selecting the first two rows deletes
   * the first and third, since after the first deletion offset 1 names what
   * was row 2; the second row survives.
   */
  lemma DeleteSkipsRows()
    ensures DeleteAsWritten([First, Second, Third], "", [0, 1]) == Some([Second])
  {
    var all := [First, Second, Third];
    assert all == [First] + [Second] + [Third];
    KeepSnoc([First], Second, PlaylistLacksId(First.id));
    KeepSnoc([First, Second], Third, PlaylistLacksId(First.id));
    assert Keep([First], PlaylistLacksId(First.id)) == [] by {
      KeepSnoc([], First, PlaylistLacksId(First.id));
    }
    var afterFirst := Keep(all, PlaylistLacksId(First.id));
    assert afterFirst == [Second, Third];
    KeepSnoc([Second], Third, PlaylistLacksId(Third.id));
    assert Keep([Second], PlaylistLacksId(Third.id)) == [Second] by {
      KeepSnoc([], Second, PlaylistLacksId(Third.id));
    }
    assert Keep(afterFirst, PlaylistLacksId(Third.id)) == [Second];
    assert [0, 1][1..] == [1] && [1][1..] == [];
    assert DeleteAsWritten(all, "", [0, 1]) == DeleteAsWritten(afterFirst, "", [1]);
  }

  /** The same selection, read before deleting, removes the first two playlists. */
  lemma DeleteSelectedRows()
    ensures DeleteSelected([First, Second, Third], "", [0, 1]) == [Third]
  {
    var all := [First, Second, Third];
    assert all == [First] + [Second] + [Third];
    var ids := Ids(SelectedPlaylists(all, "", [0, 1]));
    assert ids == [First.id, Second.id];
    KeepSnoc([First], Second, NotIn(ids));
    KeepSnoc([First, Second], Third, NotIn(ids));
    KeepSnoc([], First, NotIn(ids));
    assert Keep(all, NotIn(ids)) == [Third];
  }

  /**
   * Selecting the last two rows of three traps: after the first deletion
   * there is no row 2.
   */
  lemma DeleteTrapsOnLastRows()
    ensures DeleteAsWritten([First, Second, Third], "", [1, 2]).None?
  {
    var all := [First, Second, Third];
    assert all == [First] + [Second] + [Third];
    var afterSecond := Keep(all, PlaylistLacksId(Second.id));
    KeepSnoc([First], Second, PlaylistLacksId(Second.id));
    KeepSnoc([First, Second], Third, PlaylistLacksId(Second.id));
    assert Keep([First], PlaylistLacksId(Second.id)) == [First] by {
      KeepSnoc([], First, PlaylistLacksId(Second.id));
    }
    assert afterSecond == [First, Third];
    assert [1, 2][1..] == [2] && [2][1..] == [];
    assert DeleteAsWritten(all, "", [1, 2]) == DeleteAsWritten(afterSecond, "", [2]);
  }
}
