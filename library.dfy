/**
 * The library manager: the song list, the albums and artists derived from
 * it, and the playlists, with the operations that change them and the
 * lookups and searches over them.  Saving to and loading from the user
 * defaults store is not modelled; album ids, which the source draws at
 * random, come from the caller as `albumId`.
 */
module Library {
  import opened Wrappers
  import opened Seqs
  import opened Text
  import opened Songs
  import opened Albums
  import opened Organize
  import opened Playlists

  function PlaylistHasId(id: Uuid): Playlist -> bool {
    (p: Playlist) => p.id == id
  }

  function PlaylistLacksId(id: Uuid): Playlist -> bool {
    (p: Playlist) => p.id != id
  }

  /** `songs.first { $0.id == id }`. */
  function FirstWithId(songs: seq<Song>, id: Uuid): (r: Option<Song>)
    ensures r.None? <==> forall k :: 0 <= k < |songs| ==> songs[k].id != id
    ensures r.Some? ==> exists k :: 0 <= k < |songs| && songs[k] == r.value && r.value.id == id
                                  && forall j :: 0 <= j < k ==> songs[j].id != id
  {
    match FirstIndexWhere(songs, HasId(id))
    case Some(k) => Some(songs[k])
    case None => None
  }

  function Resolves(songs: seq<Song>): Uuid -> bool {
    (id: Uuid) => FirstWithId(songs, id).Some?
  }

  /** The `compactMap` of `getSongsForPlaylist`: each id's first song, unresolved ids skipped. */
  function SongsFor(songs: seq<Song>, ids: seq<Uuid>): seq<Song> {
    if ids == [] then []
    else SongsFor(songs, Init(ids)) + match FirstWithId(songs, Last(ids)) case Some(s) => [s] case None => []
  }

  /** The songs are those of the resolvable ids, in id order, one per id. */
  lemma {:induction false} SongsForResolved(songs: seq<Song>, ids: seq<Uuid>)
    ensures |SongsFor(songs, ids)| == |Keep(ids, Resolves(songs))|
    ensures forall k | 0 <= k < |SongsFor(songs, ids)| ::
              Some(SongsFor(songs, ids)[k]) == FirstWithId(songs, Keep(ids, Resolves(songs))[k])
  {
    if ids != [] {
      SongsForResolved(songs, Init(ids));
    }
  }

  /** Search matching: the lowercased query occurs in one of the listed fields, lowercased. */
  function SongMatches(q: string): Song -> bool {
    (s: Song) => Contains(Lower(s.title), q) || Contains(Lower(s.artist), q) || Contains(Lower(s.album), q)
  }

  function AlbumMatches(q: string): Album -> bool {
    (a: Album) => Contains(Lower(a.name), q) || Contains(Lower(a.artist), q)
  }

  function ArtistMatches(q: string): Artist -> bool {
    (a: Artist) => Contains(Lower(a.name), q)
  }

  class MusicLibrary {
    var songs: seq<Song>
    var albums: seq<Album>
    var artists: seq<Artist>
    var playlists: seq<Playlist>

    /** Albums and artists are those derived from the current songs. */
    ghost predicate Organized()
      reads this
    {
      AlbumsOrganized(songs, albums) && ArtistsOrganized(songs, albums, artists)
    }

    /** The manager as its initializer leaves it: only the saved playlists are in. */
    constructor (savedPlaylists: seq<Playlist>)
      ensures songs == [] && albums == [] && artists == [] && playlists == savedPlaylists
      ensures Organized()
    {
      songs, albums, artists, playlists := [], [], [], savedPlaylists;
    }

    /** `addSong`: a no-op when a song with the same id is present; otherwise the song goes last. */
    method AddSong(song: Song, albumId: nat -> Uuid)
      modifies this
      ensures (exists s | s in old(songs) :: s.id == song.id) ==>
                songs == old(songs) && albums == old(albums) && artists == old(artists)
      ensures (forall s | s in old(songs) :: s.id != song.id) ==>
                songs == old(songs) + [song] && |songs| == |old(songs)| + 1 && Organized()
      ensures playlists == old(playlists)
    {
      if !(exists s | s in songs :: s.id == song.id) {
        songs := songs + [song];
        OrganizeLibrary(albumId);
      }
    }

    /**
     * `removeSong`: every song with the id goes, the others keep their order
     * and multiplicity, and the id leaves every playlist.
     */
    method RemoveSong(song: Song, albumId: nat -> Uuid)
      modifies this
      ensures songs == Keep(old(songs), LacksId(song.id))
      ensures forall s | s in songs :: s.id != song.id
      ensures IsSubseq(songs, old(songs))
      ensures forall s: Song :: s.id != song.id ==> multiset(songs)[s] == multiset(old(songs))[s]
      ensures |playlists| == |old(playlists)|
      ensures forall i | 0 <= i < |playlists| :: playlists[i] == RemoveSongId(old(playlists)[i], song.id)
      ensures forall i | 0 <= i < |playlists| :: song.id !in playlists[i].songIDs
      ensures Organized()
    {
      KeepFilters(songs, LacksId(song.id));
      songs := Keep(songs, LacksId(song.id));
      forall s | s in songs ensures s.id != song.id {
        KeepMember(old(songs), LacksId(song.id), s);
      }
      for index := 0 to |playlists|
        invariant songs == Keep(old(songs), LacksId(song.id))
        invariant albums == old(albums) && artists == old(artists)
        invariant |playlists| == |old(playlists)|
        invariant forall i | 0 <= i < index :: playlists[i] == RemoveSongId(old(playlists)[i], song.id)
        invariant forall i | index <= i < |playlists| :: playlists[i] == old(playlists)[i]
      {
        playlists := playlists[index := RemoveSongId(playlists[index], song.id)];
      }
      OrganizeLibrary(albumId);
    }

    /**
     * The last step of a directory scan: the songs found are appended as they
     * are, with no check against the songs already present, and the library
     * is reorganized, even when nothing was found.
     */
    method AppendSongs(found: seq<Song>, albumId: nat -> Uuid)
      modifies this
      ensures songs == old(songs) + found && Organized()
      ensures playlists == old(playlists)
    {
      songs := songs + found;
      OrganizeLibrary(albumId);
    }

    /**
     * The last step of an import or a rescan: only a non-empty batch is
     * appended (unchecked) and followed by a reorganization; an empty one
     * leaves the library as it was.
     */
    method AppendFoundSongs(found: seq<Song>, albumId: nat -> Uuid)
      modifies this
      ensures found == [] ==> unchanged(this)
      ensures found != [] ==> songs == old(songs) + found && Organized()
      ensures playlists == old(playlists)
    {
      if found != [] {
        AppendSongs(found, albumId);
      }
    }

    /** `organizeLibrary`: albums first, then the artists that refer to them. */
    method OrganizeLibrary(albumId: nat -> Uuid)
      modifies this
      ensures Organized()
      ensures songs == old(songs) && playlists == old(playlists)
    {
      OrganizeAlbums(albumId);
      OrganizeArtists();
    }

    /** `organizeAlbums`: group by key, sort the albums by name, then each album's songs. */
    method OrganizeAlbums(albumId: nat -> Uuid)
      modifies this
      ensures AlbumsOrganized(songs, albums)
      ensures songs == old(songs) && artists == old(artists) && playlists == old(playlists)
    {
      var groups := GroupAlbums(songs, albumId);
      var byName := SortBy(groups, NameLess);
      NameLessIsStrict(groups);
      albums := byName;
      for index := 0 to |albums|
        invariant songs == old(songs) && artists == old(artists) && playlists == old(playlists)
        invariant |albums| == |byName|
        invariant forall j | 0 <= j < |albums| :: SameButSongs(albums[j], byName[j])
        invariant forall j | 0 <= j < index :: TrackOrdered(albums[j].songs)
      {
        var sorted := SortBy(albums[index].songs, SongBefore);
        SortedSongsAreTrackOrdered(albums[index].songs, sorted);
        albums := albums[index := WithSongs(albums[index], sorted)];
      }
      SortedAlbumsOrganized(songs, groups, byName, albums);
    }

    /** `organizeArtists`: group by artist name, attach the albums, sort by name. */
    method OrganizeArtists()
      modifies this
      ensures ArtistsOrganized(songs, albums, artists)
      ensures songs == old(songs) && albums == old(albums) && playlists == old(playlists)
    {
      var groups := GroupArtists(songs, albums);
      var sorted := SortBy(groups, ArtistNameLess);
      SortedArtistsIncrease(groups, sorted);
      SortedArtistsOrganized(songs, albums, groups, sorted);
      artists := sorted;
    }

    /** `createPlaylist`: exactly one playlist is appended; `id` stands for the fresh UUID. */
    method CreatePlaylist(name: string, songIDs: seq<Uuid>, id: Uuid)
      modifies this
      ensures playlists == old(playlists) + [Playlist(id, name, songIDs)]
      ensures songs == old(songs) && albums == old(albums) && artists == old(artists)
    {
      var playlist := Playlist(id, name, songIDs);
      playlists := playlists + [playlist];
    }

    /** `deletePlaylist`: every playlist with the id goes; the others keep their order. */
    method DeletePlaylist(playlist: Playlist)
      modifies this
      ensures playlists == Keep(old(playlists), PlaylistLacksId(playlist.id))
      ensures forall p | p in playlists :: p.id != playlist.id
      ensures IsSubseq(playlists, old(playlists))
      ensures forall p: Playlist :: p.id != playlist.id ==> multiset(playlists)[p] == multiset(old(playlists))[p]
      ensures songs == old(songs) && albums == old(albums) && artists == old(artists)
    {
      KeepFilters(playlists, PlaylistLacksId(playlist.id));
      playlists := Keep(playlists, PlaylistLacksId(playlist.id));
      forall p | p in playlists ensures p.id != playlist.id {
        KeepMember(old(playlists), PlaylistLacksId(playlist.id), p);
      }
    }

    /** `updatePlaylist`: the first playlist with the id is replaced; no-op when there is none. */
    method UpdatePlaylist(playlist: Playlist)
      modifies this
      ensures match FirstIndexWhere(old(playlists), PlaylistHasId(playlist.id))
              case None => playlists == old(playlists)
              case Some(i) => playlists == old(playlists)[i := playlist]
      ensures songs == old(songs) && albums == old(albums) && artists == old(artists)
    {
      var found := FirstIndexWhere(playlists, PlaylistHasId(playlist.id));
      if found.Some? {
        playlists := playlists[found.value := playlist];
      }
    }

    /** `addSongsToPlaylist`: only the first playlist with the id gains the ids; no-op when there is none. */
    method AddSongsToPlaylist(songIDs: seq<Uuid>, playlist: Playlist)
      modifies this
      ensures match FirstIndexWhere(old(playlists), PlaylistHasId(playlist.id))
              case None => playlists == old(playlists)
              case Some(i) => playlists == old(playlists)[i := AddSongIds(old(playlists)[i], songIDs)]
      ensures songs == old(songs) && albums == old(albums) && artists == old(artists)
    {
      var found := FirstIndexWhere(playlists, PlaylistHasId(playlist.id));
      if found.Some? {
        var index := found.value;
        var updated := playlists[index];
        for k := 0 to |songIDs|
          invariant updated == AddSongIds(playlists[index], songIDs[..k])
          modifies {}
        {
          assert songIDs[..k + 1] == songIDs[..k] + [songIDs[k]];
          AddSongIdsSnoc(playlists[index], songIDs[..k], songIDs[k]);
          updated := AddSongId(updated, songIDs[k]);
        }
        assert songIDs[..|songIDs|] == songIDs;
        playlists := playlists[index := updated];
      }
    }

    /**
     * `getSongsForPlaylist`: the first song of each resolvable id, in id
     * order; ids with no song are skipped, so there are at most as many
     * songs as ids.
     */
    function SongsForPlaylist(playlist: Playlist): (r: seq<Song>)
      reads this
      ensures |r| <= |playlist.songIDs|
      ensures |r| == |Keep(playlist.songIDs, Resolves(songs))|
      ensures forall k | 0 <= k < |r| :: Some(r[k]) == FirstWithId(songs, Keep(playlist.songIDs, Resolves(songs))[k])
      ensures (forall id | id in playlist.songIDs :: exists s | s in songs :: s.id == id) ==> |r| == |playlist.songIDs|
    {
      SongsForResolved(songs, playlist.songIDs);
      KeepFilters(playlist.songIDs, Resolves(songs));
      AllResolve(songs, playlist.songIDs);
      SongsFor(songs, playlist.songIDs)
    }

    /** `searchSongs`: everything for an empty query, else the matching songs in library order. */
    function SearchSongs(query: string): (r: seq<Song>)
      reads this
      ensures query == [] ==> r == songs
      ensures query != [] ==> IsSubseq(r, songs)
      ensures query != [] ==> forall i | 0 <= i < |r| :: SongMatches(Lower(query))(r[i])
      ensures query != [] ==> forall s :: multiset(r)[s] == if SongMatches(Lower(query))(s) then multiset(songs)[s] else 0
    {
      if query == [] then songs
      else
        KeepFilters(songs, SongMatches(Lower(query)));
        Keep(songs, SongMatches(Lower(query)))
    }

    /** `searchAlbums`: everything for an empty query, else the albums matching by name or artist. */
    function SearchAlbums(query: string): (r: seq<Album>)
      reads this
      ensures query == [] ==> r == albums
      ensures query != [] ==> IsSubseq(r, albums)
      ensures query != [] ==> forall i | 0 <= i < |r| :: AlbumMatches(Lower(query))(r[i])
      ensures query != [] ==> forall a :: multiset(r)[a] == if AlbumMatches(Lower(query))(a) then multiset(albums)[a] else 0
    {
      if query == [] then albums
      else
        KeepFilters(albums, AlbumMatches(Lower(query)));
        Keep(albums, AlbumMatches(Lower(query)))
    }

    /** `searchArtists`: everything for an empty query, else the artists matching by name. */
    function SearchArtists(query: string): (r: seq<Artist>)
      reads this
      ensures query == [] ==> r == artists
      ensures query != [] ==> IsSubseq(r, artists)
      ensures query != [] ==> forall i | 0 <= i < |r| :: ArtistMatches(Lower(query))(r[i])
      ensures query != [] ==> forall a :: multiset(r)[a] == if ArtistMatches(Lower(query))(a) then multiset(artists)[a] else 0
    {
      if query == [] then artists
      else
        KeepFilters(artists, ArtistMatches(Lower(query)));
        Keep(artists, ArtistMatches(Lower(query)))
    }
  }

  /** When every id has a song, none is skipped. */
  lemma AllResolve(songs: seq<Song>, ids: seq<Uuid>)
    ensures (forall id | id in ids :: exists s | s in songs :: s.id == id) ==> Keep(ids, Resolves(songs)) == ids
  {
    if forall id | id in ids :: exists s | s in songs :: s.id == id {
      KeepAll(ids, Resolves(songs));
    }
  }

  predicate SameButSongs(a: Album, b: Album) {
    a.id == b.id && a.name == b.name && a.artist == b.artist && a.artworkData == b.artworkData
    && multiset(a.songs) == multiset(b.songs)
  }

  lemma SortedAlbumsOrganized(songs: seq<Song>, groups: seq<Album>, byName: seq<Album>, albums: seq<Album>)
    requires KeysDistinct(groups) && KeysCovered(songs, groups)
    requires forall i | 0 <= i < |groups| :: BuiltFrom(songs, AlbumKey(groups[i]), groups[i])
    requires multiset(byName) == multiset(groups) && SortedBy(byName, NameLess)
    requires |albums| == |byName| && forall j | 0 <= j < |albums| :: SameButSongs(albums[j], byName[j])
    requires forall j | 0 <= j < |albums| :: TrackOrdered(albums[j].songs)
    ensures AlbumsOrganized(songs, albums)
  {
    KeysDistinctPermutation(groups, byName);
    assert KeysDistinct(albums) by {
      forall i, j | 0 <= i < j < |albums| ensures AlbumKey(albums[i]) != AlbumKey(albums[j]) {
        assert AlbumKey(albums[i]) == AlbumKey(byName[i]) && AlbumKey(albums[j]) == AlbumKey(byName[j]);
      }
    }
    SortedAlbumsFiled(songs, groups, byName, albums);
    SortedAlbumsCover(songs, groups, byName, albums);
    assert SortedBy(albums, NameLess) by {
      forall i, j | 0 <= i < j < |albums| ensures !NameLess(albums[j], albums[i]) {
        assert !NameLess(byName[j], byName[i]);
      }
    }
  }

  lemma SortedAlbumsFiled(songs: seq<Song>, groups: seq<Album>, byName: seq<Album>, albums: seq<Album>)
    requires forall i | 0 <= i < |groups| :: BuiltFrom(songs, AlbumKey(groups[i]), groups[i])
    requires multiset(byName) == multiset(groups)
    requires |albums| == |byName| && forall j | 0 <= j < |albums| :: SameButSongs(albums[j], byName[j])
    ensures forall j | 0 <= j < |albums| :: FiledUnderKey(songs, albums[j])
  {
    forall j | 0 <= j < |albums| ensures FiledUnderKey(songs, albums[j]) {
      assert byName[j] in multiset(groups);
      var p :| 0 <= p < |groups| && groups[p] == byName[j];
      assert BuiltFrom(songs, AlbumKey(byName[j]), byName[j]);
      assert AlbumKey(albums[j]) == AlbumKey(byName[j]);
    }
  }

  lemma SortedAlbumsCover(songs: seq<Song>, groups: seq<Album>, byName: seq<Album>, albums: seq<Album>)
    requires KeysCovered(songs, groups)
    requires multiset(byName) == multiset(groups)
    requires |albums| == |byName| && forall j | 0 <= j < |albums| :: SameButSongs(albums[j], byName[j])
    ensures KeysCovered(songs, albums)
  {
    forall s | s in songs ensures exists i :: 0 <= i < |albums| && AlbumKey(albums[i]) == SongKey(s) {
      var p :| 0 <= p < |groups| && AlbumKey(groups[p]) == SongKey(s);
      assert groups[p] in multiset(byName);
      var i :| 0 <= i < |byName| && byName[i] == groups[p];
      assert AlbumKey(albums[i]) == SongKey(s);
    }
  }

  lemma SortedArtistsOrganized(songs: seq<Song>, albums: seq<Album>, groups: seq<Artist>, sorted: seq<Artist>)
    requires forall i | 0 <= i < |groups| ::
               groups[i].songs != [] && groups[i].songs == Keep(songs, ByArtist(groups[i].name))
               && groups[i].albums == Keep(albums, AlbumBy(groups[i].name))
    requires forall s | s in songs :: exists i :: 0 <= i < |groups| && groups[i].name == s.artist
    requires multiset(sorted) == multiset(groups)
    requires forall i, j | 0 <= i < j < |sorted| :: StrLess(sorted[i].name, sorted[j].name)
    ensures ArtistsOrganized(songs, albums, sorted)
  {
    forall j | 0 <= j < |sorted|
      ensures sorted[j].songs != [] && sorted[j].songs == Keep(songs, ByArtist(sorted[j].name))
              && sorted[j].albums == Keep(albums, AlbumBy(sorted[j].name))
    {
      assert sorted[j] in multiset(groups);
    }
    forall s | s in songs ensures exists i :: 0 <= i < |sorted| && sorted[i].name == s.artist {
      var p :| 0 <= p < |groups| && groups[p].name == s.artist;
      assert groups[p] in multiset(sorted);
      var i :| 0 <= i < |sorted| && sorted[i] == groups[p];
    }
  }
}
