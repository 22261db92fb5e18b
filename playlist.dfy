/**
 * The `Playlist` value.  Playlist.swift is not part of this model: a
 * playlist is taken to be its id, its name and its ordered song ids, and its
 * mutators `removeSong` and `addSong` are given the behaviour the library
 * relies on (remove every occurrence; append when absent).
 */
module Playlists {
  import opened Wrappers
  import opened Seqs
  import opened Songs

  datatype Playlist = Playlist(id: Uuid, name: string, songIDs: seq<Uuid>)

  function IsNot(id: Uuid): Uuid -> bool {
    (x: Uuid) => x != id
  }

  /** `Playlist.removeSong`, taken to drop every occurrence of the id and keep the rest in order. */
  function RemoveSongId(p: Playlist, songId: Uuid): (r: Playlist)
    ensures r.id == p.id && r.name == p.name
    ensures songId !in r.songIDs
    ensures IsSubseq(r.songIDs, p.songIDs)
    ensures forall x :: x != songId ==> multiset(r.songIDs)[x] == multiset(p.songIDs)[x]
  {
    KeepFilters(p.songIDs, IsNot(songId));
    p.(songIDs := Keep(p.songIDs, IsNot(songId)))
  }

  /** `Playlist.addSong`, taken to append the id unless the playlist already holds it. */
  function AddSongId(p: Playlist, songId: Uuid): (r: Playlist)
    ensures r.id == p.id && r.name == p.name
    ensures songId in r.songIDs
    ensures p.songIDs <= r.songIDs && |r.songIDs| <= |p.songIDs| + 1
    ensures forall x :: x in r.songIDs ==> x in p.songIDs || x == songId
    ensures Distinct(p.songIDs) ==> Distinct(r.songIDs)
  {
    if songId in p.songIDs then p
    else
      var r := p.(songIDs := p.songIDs + [songId]);
      assert r.songIDs[|p.songIDs|] == songId;
      r
  }

  /** `addSong` applied to each id in turn, as the loop of `addSongsToPlaylist` does. */
  function AddSongIds(p: Playlist, ids: seq<Uuid>): (r: Playlist)
    ensures r.id == p.id && r.name == p.name
    ensures forall x :: x in ids ==> x in r.songIDs
    ensures p.songIDs <= r.songIDs
    ensures forall x :: x in r.songIDs ==> x in p.songIDs || x in ids
    ensures Distinct(p.songIDs) ==> Distinct(r.songIDs)
  {
    if ids == [] then p
    else
      var q := AddSongIds(p, Init(ids));
      assert forall x :: x in ids ==> x in Init(ids) || x == Last(ids) by {
        assert ids == Init(ids) + [Last(ids)];
      }
      AddSongId(q, Last(ids))
  }

  lemma AddSongIdsSnoc(p: Playlist, ids: seq<Uuid>, id: Uuid)
    ensures AddSongIds(p, ids + [id]) == AddSongId(AddSongIds(p, ids), id)
  {
    assert Init(ids + [id]) == ids;
  }
}
