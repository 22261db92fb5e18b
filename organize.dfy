/**
 * Deriving albums and artists from the song list, as the library manager's
 * `organizeAlbums` and `organizeArtists` do: songs are filed under the string
 * key `album + "_" + artist` (so ("a_b", "c") and ("a", "b_c") share a key),
 * albums are sorted by name and their songs by track number or title;
 * artists are filed by name and hold the albums whose artist they are.
 *
 * Swift dictionaries iterate in an unspecified order; the model visits keys
 * in the order they were first inserted, and no contract depends on it.
 */
module Organize {
  import opened Wrappers
  import opened Seqs
  import opened Text
  import opened Songs
  import opened Albums

  /** The grouping key of a song. */
  function SongKey(s: Song): string {
    s.album + "_" + s.artist
  }

  /** The key of an album: that of the songs it was built from. */
  function AlbumKey(a: Album): string {
    a.name + "_" + a.artist
  }

  function KeyIs(k: string): Song -> bool {
    (s: Song) => SongKey(s) == k
  }

  /** The songs filed under `k`, in library order. */
  function WithKey(songs: seq<Song>, k: string): seq<Song> {
    Keep(songs, KeyIs(k))
  }

  lemma WithKeySnoc(songs: seq<Song>, s: Song, k: string)
    ensures WithKey(songs + [s], k) == WithKey(songs, k) + (if SongKey(s) == k then [s] else [])
  {
    assert Init(songs + [s]) == songs;
  }

  lemma WithKeyMember(songs: seq<Song>, k: string, s: Song)
    ensures s in WithKey(songs, k) <==> s in songs && SongKey(s) == k
  {
    KeepMember(songs, KeyIs(k), s);
  }

  /** The album the dictionary holds for key `k` after the grouping loop has seen `songs`. */
  ghost predicate BuiltFrom(songs: seq<Song>, k: string, a: Album) {
    var g := WithKey(songs, k);
    g != [] && a.songs == g && a.name == g[0].album && a.artist == g[0].artist
    && a.artworkData == g[0].artworkData
  }

  /** An album as `organizeAlbums` leaves it: the songs of its key, in some order; name, artist and artwork of the first. */
  ghost predicate FiledUnderKey(songs: seq<Song>, a: Album) {
    var g := WithKey(songs, AlbumKey(a));
    g != [] && multiset(a.songs) == multiset(g) && a.name == g[0].album && a.artist == g[0].artist
    && a.artworkData == g[0].artworkData
  }

  ghost predicate KeysDistinct(albums: seq<Album>) {
    forall i, j | 0 <= i < j < |albums| :: AlbumKey(albums[i]) != AlbumKey(albums[j])
  }

  /** Every song's key has an album. */
  ghost predicate KeysCovered(songs: seq<Song>, albums: seq<Album>) {
    forall s | s in songs :: exists i :: 0 <= i < |albums| && AlbumKey(albums[i]) == SongKey(s)
  }

  /** The album comparator of `organizeAlbums`. */
  predicate NameLess(a: Album, b: Album) {
    StrLess(a.name, b.name)
  }

  /** The song comparator of `organizeAlbums`: by track number when both have one, else by title. */
  predicate SongBefore(a: Song, b: Song) {
    if a.trackNumber.Some? && b.trackNumber.Some? then a.trackNumber.value < b.trackNumber.value
    else StrLess(a.title, b.title)
  }

  ghost predicate AllTracked(ss: seq<Song>) {
    forall s | s in ss :: s.trackNumber.Some?
  }

  ghost predicate NoneTracked(ss: seq<Song>) {
    forall s | s in ss :: s.trackNumber.None?
  }

  /**
   * The order promised within an album: by track number when every song has
   * one, by title when none has; the mixed comparator is no strict weak order,
   * so a mixed album has no promised order.
   */
  ghost predicate TrackOrdered(ss: seq<Song>) {
    (AllTracked(ss) ==> forall i, j | 0 <= i < j < |ss| :: ss[i].trackNumber.value <= ss[j].trackNumber.value)
    && (NoneTracked(ss) ==> forall i, j | 0 <= i < j < |ss| :: !StrLess(ss[j].title, ss[i].title))
  }

  /** What `organizeAlbums` leaves in `albums`. */
  ghost predicate AlbumsOrganized(songs: seq<Song>, albums: seq<Album>) {
    KeysDistinct(albums)
    && (forall i | 0 <= i < |albums| :: FiledUnderKey(songs, albums[i]))
    && KeysCovered(songs, albums)
    && SortedBy(albums, NameLess)
    && (forall i | 0 <= i < |albums| :: TrackOrdered(albums[i].songs))
  }

  lemma NameLessIsStrict(albums: seq<Album>)
    ensures StrictOrderOn(NameLess, albums)
  {
    forall a | a in albums ensures !NameLess(a, a) {
      StrLessIrreflexive(a.name);
    }
    forall a, b, c | a in albums && b in albums && c in albums && NameLess(a, b) && NameLess(b, c)
      ensures NameLess(a, c)
    {
      StrLessTransitive(a.name, b.name, c.name);
    }
  }

  /** On songs that all have a track number, or that all lack one, the song comparator is a strict order. */
  lemma SongBeforeIsStrict(ss: seq<Song>)
    requires AllTracked(ss) || NoneTracked(ss)
    ensures StrictOrderOn(SongBefore, ss)
  {
    forall a | a in ss ensures !SongBefore(a, a) {
      StrLessIrreflexive(a.title);
    }
    if NoneTracked(ss) {
      forall a, b, c | a in ss && b in ss && c in ss && SongBefore(a, b) && SongBefore(b, c)
        ensures SongBefore(a, c)
      {
        StrLessTransitive(a.title, b.title, c.title);
      }
    }
  }

  /** Sorting with the song comparator gives the promised order. */
  lemma SortedSongsAreTrackOrdered(ss: seq<Song>, r: seq<Song>)
    requires multiset(r) == multiset(ss)
    requires StrictOrderOn(SongBefore, ss) ==> SortedBy(r, SongBefore)
    ensures TrackOrdered(r)
  {
    forall s | s in r ensures s in ss {
      assert s in multiset(r);
    }
    if AllTracked(r) {
      assert AllTracked(ss) by {
        forall s | s in ss ensures s.trackNumber.Some? {
          assert s in multiset(ss);
        }
      }
      SongBeforeIsStrict(ss);
      forall i, j | 0 <= i < j < |r| ensures r[i].trackNumber.value <= r[j].trackNumber.value {
        assert !SongBefore(r[j], r[i]);
        assert r[i] in r && r[j] in r;
      }
    }
    if NoneTracked(r) {
      assert NoneTracked(ss) by {
        forall s | s in ss ensures s.trackNumber.None? {
          assert s in multiset(ss);
        }
      }
      SongBeforeIsStrict(ss);
      forall i, j | 0 <= i < j < |r| ensures !StrLess(r[j].title, r[i].title) {
        assert !SongBefore(r[j], r[i]);
        assert r[j] in r;
      }
    }
  }

  /** `Array(dict.values)`, the values listed in the dictionary's iteration order `keys`. */
  function Values<V>(dict: map<string, V>, keys: seq<string>): (r: seq<V>)
    requires forall k | k in keys :: k in dict
    ensures |r| == |keys| && forall j | 0 <= j < |keys| :: r[j] == dict[keys[j]]
  {
    seq(|keys|, j requires 0 <= j < |keys| => dict[keys[j]])
  }

  /** The album dictionary after the grouping loop has seen `seen`; `keys` is its iteration order. */
  ghost predicate AlbumDict(seen: seq<Song>, dict: map<string, Album>, keys: seq<string>) {
    Distinct(keys)
    && (forall k :: k in dict <==> k in keys)
    && (forall k | k in dict :: BuiltFrom(seen, k, dict[k]))
    && (forall k | k !in dict :: WithKey(seen, k) == [])
  }

  /**
   * The dictionary-building loop of `organizeAlbums`: one album per key, in
   * the order keys were first met, each holding its songs in library order.
   * `albumId(n)` is the fresh id of the `n`-th album created.
   */
  method GroupAlbums(songs: seq<Song>, albumId: nat -> Uuid) returns (groups: seq<Album>)
    ensures KeysDistinct(groups) && KeysCovered(songs, groups)
    ensures forall i | 0 <= i < |groups| :: BuiltFrom(songs, AlbumKey(groups[i]), groups[i])
  {
    var dict: map<string, Album> := map[];
    var keys: seq<string> := [];
    for i := 0 to |songs|
      invariant AlbumDict(songs[..i], dict, keys)
    {
      assert songs[..i + 1] == songs[..i] + [songs[i]];
      dict, keys := FileSong(dict, keys, songs[..i], songs[i], albumId(|keys|));
    }
    assert songs[..|songs|] == songs;
    groups := Values(dict, keys);
    AlbumDictValues(songs, dict, keys);
  }

  /** One pass of the grouping loop: append `song` to the album of its key, or start that album. */
  method FileSong(dict: map<string, Album>, keys: seq<string>, ghost seen: seq<Song>, song: Song, freshId: Uuid)
    returns (dict': map<string, Album>, keys': seq<string>)
    requires AlbumDict(seen, dict, keys)
    ensures AlbumDict(seen + [song], dict', keys')
  {
    var key := song.album + "_" + song.artist;
    if key in dict {
      var album := dict[key];
      album := WithSongs(album, album.songs + [song]);
      FileIntoExisting(seen, song, dict, keys, album);
      dict', keys' := dict[key := album], keys;
    } else {
      var album := NewAlbum(freshId, song.album, song.artist, [song], song.artworkData);
      dict', keys' := dict[key := album], keys + [key];
      FileIntoNew(seen, song, dict, keys, freshId);
    }
  }

  lemma FileIntoExisting(seen: seq<Song>, song: Song, dict: map<string, Album>, keys: seq<string>, album: Album)
    requires AlbumDict(seen, dict, keys) && SongKey(song) in dict
    requires album == WithSongs(dict[SongKey(song)], dict[SongKey(song)].songs + [song])
    ensures AlbumDict(seen + [song], dict[SongKey(song) := album], keys)
  {
    var key := SongKey(song);
    var dict' := dict[key := album];
    ExtendedAlbumBuilt(seen, song, dict[key], album);
    forall k | k in dict' && k != key ensures BuiltFrom(seen + [song], k, dict'[k]) {
      WithKeySnoc(seen, song, k);
    }
    forall k | k !in dict' ensures WithKey(seen + [song], k) == [] {
      WithKeySnoc(seen, song, k);
    }
  }

  lemma ExtendedAlbumBuilt(seen: seq<Song>, song: Song, old_: Album, album: Album)
    requires BuiltFrom(seen, SongKey(song), old_) && album == WithSongs(old_, old_.songs + [song])
    ensures BuiltFrom(seen + [song], SongKey(song), album)
  {
    var g := WithKey(seen, SongKey(song));
    WithKeySnoc(seen, song, SongKey(song));
    assert (g + [song])[0] == g[0];
  }

  lemma FileIntoNew(seen: seq<Song>, song: Song, dict: map<string, Album>, keys: seq<string>, freshId: Uuid)
    requires AlbumDict(seen, dict, keys) && SongKey(song) !in dict
    ensures var key := SongKey(song);
      AlbumDict(seen + [song], dict[key := NewAlbum(freshId, song.album, song.artist, [song], song.artworkData)], keys + [key])
  {
    var key := SongKey(song);
    var dict' := dict[key := NewAlbum(freshId, song.album, song.artist, [song], song.artworkData)];
    forall k | k in dict' ensures BuiltFrom(seen + [song], k, dict'[k]) {
      WithKeySnoc(seen, song, k);
    }
    forall k | k !in dict' ensures WithKey(seen + [song], k) == [] {
      WithKeySnoc(seen, song, k);
    }
    forall i, j | 0 <= i < j < |keys + [key]| ensures (keys + [key])[i] != (keys + [key])[j] {
      if j == |keys| {
        assert keys[i] in keys;
      }
    }
  }

  lemma AlbumDictValues(songs: seq<Song>, dict: map<string, Album>, keys: seq<string>)
    requires AlbumDict(songs, dict, keys)
    ensures var groups := Values(dict, keys);
      KeysDistinct(groups) && KeysCovered(songs, groups)
      && forall i | 0 <= i < |groups| :: BuiltFrom(songs, AlbumKey(groups[i]), groups[i])
  {
    var groups := Values(dict, keys);
    forall j | 0 <= j < |groups| ensures AlbumKey(groups[j]) == keys[j] {
      var g := WithKey(songs, keys[j]);
      assert g[0] in g;
      WithKeyMember(songs, keys[j], g[0]);
    }
    forall s | s in songs ensures exists i :: 0 <= i < |groups| && AlbumKey(groups[i]) == SongKey(s) {
      WithKeyMember(songs, SongKey(s), s);
      var i :| 0 <= i < |keys| && keys[i] == SongKey(s);
      assert AlbumKey(groups[i]) == SongKey(s);
    }
  }

  /** Albums with the same content but possibly other ids and order keep distinct keys. */
  lemma KeysDistinctPermutation(a: seq<Album>, b: seq<Album>)
    requires multiset(a) == multiset(b) && KeysDistinct(a)
    ensures KeysDistinct(b)
  {
    assert Distinct(a);
    DistinctPermutation(a, b);
    forall i, j | 0 <= i < j < |b| ensures AlbumKey(b[i]) != AlbumKey(b[j]) {
      assert b[i] in multiset(a) && b[j] in multiset(a);
      var p :| 0 <= p < |a| && a[p] == b[i];
      var q :| 0 <= q < |a| && a[q] == b[j];
      assert b[i] != b[j];
    }
  }

  /** A built album, its songs reordered, is filed under its key. */
  lemma BuiltIsFiled(songs: seq<Song>, a: Album, r: seq<Song>)
    requires BuiltFrom(songs, AlbumKey(a), a) && multiset(r) == multiset(a.songs)
    ensures FiledUnderKey(songs, WithSongs(a, r))
  {
  }

  /** Every song lies in exactly one album, and that album holds all its copies. */
  lemma EachSongInOneAlbum(songs: seq<Song>, albums: seq<Album>, s: Song)
    requires AlbumsOrganized(songs, albums) && s in songs
    ensures exists i :: 0 <= i < |albums| && s in albums[i].songs
    ensures forall i, j | 0 <= i < |albums| && 0 <= j < |albums| && s in albums[i].songs && s in albums[j].songs :: i == j
    ensures forall i | 0 <= i < |albums| && s in albums[i].songs :: multiset(albums[i].songs)[s] == multiset(songs)[s]
  {
    var i :| 0 <= i < |albums| && AlbumKey(albums[i]) == SongKey(s);
    SongInItsAlbum(songs, albums[i], s);
    forall i, j | 0 <= i < |albums| && 0 <= j < |albums| && s in albums[i].songs && s in albums[j].songs
      ensures i == j
    {
      AlbumHoldsItsKey(songs, albums[i], s);
      AlbumHoldsItsKey(songs, albums[j], s);
    }
    forall i | 0 <= i < |albums| && s in albums[i].songs
      ensures multiset(albums[i].songs)[s] == multiset(songs)[s]
    {
      AlbumHoldsItsKey(songs, albums[i], s);
    }
  }

  /** A song in a filed album has the album's key, and the album holds every copy of it. */
  lemma AlbumHoldsItsKey(songs: seq<Song>, a: Album, s: Song)
    requires FiledUnderKey(songs, a) && s in a.songs
    ensures SongKey(s) == AlbumKey(a) && s in songs
    ensures multiset(a.songs)[s] == multiset(songs)[s]
  {
    assert s in multiset(a.songs);
    WithKeyMember(songs, AlbumKey(a), s);
    KeepCounts(songs, KeyIs(AlbumKey(a)));
  }

  /** A song of the library is in the filed album of its key. */
  lemma SongInItsAlbum(songs: seq<Song>, a: Album, s: Song)
    requires FiledUnderKey(songs, a) && s in songs && SongKey(s) == AlbumKey(a)
    ensures s in a.songs
  {
    WithKeyMember(songs, AlbumKey(a), s);
    assert s in multiset(WithKey(songs, AlbumKey(a)));
  }

  /** There is an album for a key exactly when some song has that key. */
  lemma AlbumKeysAreSongKeys(songs: seq<Song>, albums: seq<Album>, k: string)
    requires AlbumsOrganized(songs, albums)
    ensures (exists i :: 0 <= i < |albums| && AlbumKey(albums[i]) == k) <==> (exists s :: s in songs && SongKey(s) == k)
  {
    if i :| 0 <= i < |albums| && AlbumKey(albums[i]) == k {
      var g := WithKey(songs, k);
      assert g[0] in g;
      WithKeyMember(songs, k, g[0]);
    }
  }

  /** The key is a plain string, not a pair: ("a_b", "c") and ("a", "b_c") land in one album. */
  lemma KeysCollide(songs: seq<Song>, albums: seq<Album>, s1: Song, s2: Song)
    requires AlbumsOrganized(songs, albums) && s1 in songs && s2 in songs
    requires s1.album == "a_b" && s1.artist == "c" && s2.album == "a" && s2.artist == "b_c"
    ensures exists i :: 0 <= i < |albums| && s1 in albums[i].songs && s2 in albums[i].songs
  {
    assert SongKey(s1) == "a_b_c" == SongKey(s2);
    var i :| 0 <= i < |albums| && AlbumKey(albums[i]) == SongKey(s1);
    SongInItsAlbum(songs, albums[i], s1);
    SongInItsAlbum(songs, albums[i], s2);
  }

  // Artists

  /** Artist.swift is not part of this model: an artist is taken to be its name, songs and albums. */
  datatype Artist = Artist(name: string, songs: seq<Song>, albums: seq<Album>)

  function ByArtist(name: string): Song -> bool {
    (s: Song) => s.artist == name
  }

  function AlbumBy(name: string): Album -> bool {
    (a: Album) => a.artist == name
  }

  predicate ArtistNameLess(a: Artist, b: Artist) {
    StrLess(a.name, b.name)
  }

  /** What `organizeArtists` leaves in `artists`, given the albums already organized. */
  ghost predicate ArtistsOrganized(songs: seq<Song>, albums: seq<Album>, artists: seq<Artist>) {
    (forall i, j | 0 <= i < j < |artists| :: StrLess(artists[i].name, artists[j].name))
    && (forall i | 0 <= i < |artists| ::
          artists[i].songs != [] && artists[i].songs == Keep(songs, ByArtist(artists[i].name))
          && artists[i].albums == Keep(albums, AlbumBy(artists[i].name)))
    && (forall s | s in songs :: exists i :: 0 <= i < |artists| && artists[i].name == s.artist)
  }

  /** The artist dictionary after the first loop of `organizeArtists` has seen `seen`. */
  ghost predicate ArtistDict(seen: seq<Song>, dict: map<string, Artist>, names: seq<string>) {
    Distinct(names)
    && (forall n :: n in dict <==> n in names)
    && (forall n | n in dict :: dict[n].name == n && dict[n].songs != [] && dict[n].songs == Keep(seen, ByArtist(n)))
    && (forall n | n !in dict :: Keep(seen, ByArtist(n)) == [])
  }

  /** The loops of `organizeArtists` before the sort: songs by artist name, then each artist's albums. */
  method GroupArtists(songs: seq<Song>, albums: seq<Album>) returns (groups: seq<Artist>)
    ensures forall i, j | 0 <= i < j < |groups| :: groups[i].name != groups[j].name
    ensures forall i | 0 <= i < |groups| ::
              groups[i].songs != [] && groups[i].songs == Keep(songs, ByArtist(groups[i].name))
              && groups[i].albums == Keep(albums, AlbumBy(groups[i].name))
    ensures forall s | s in songs :: exists i :: 0 <= i < |groups| && groups[i].name == s.artist
  {
    var dict: map<string, Artist> := map[];
    var names: seq<string> := [];
    for i := 0 to |songs|
      invariant ArtistDict(songs[..i], dict, names)
    {
      assert songs[..i + 1] == songs[..i] + [songs[i]];
      dict, names := FileArtistSong(dict, names, songs[..i], songs[i]);
    }
    assert songs[..|songs|] == songs;
    EveryArtistNamed(songs, dict, names);
    dict := AttachAlbums(dict, names, songs, albums);
    groups := Values(dict, names);
    ArtistGroups(songs, albums, dict, names);
  }

  /** After the first loop every song's artist is a key of the dictionary. */
  lemma EveryArtistNamed(songs: seq<Song>, dict: map<string, Artist>, names: seq<string>)
    requires ArtistDict(songs, dict, names)
    ensures forall s | s in songs :: s.artist in names
  {
    forall s | s in songs ensures s.artist in names {
      KeepMember(songs, ByArtist(s.artist), s);
    }
  }

  /** The dictionary's values, once the albums are attached, are the grouped artists. */
  lemma ArtistGroups(songs: seq<Song>, albums: seq<Album>, dict: map<string, Artist>, names: seq<string>)
    requires Distinct(names) && forall s | s in songs :: s.artist in names
    requires forall n :: n in dict <==> n in names
    requires forall n | n in dict ::
               dict[n].name == n && dict[n].songs != [] && dict[n].songs == Keep(songs, ByArtist(n))
               && dict[n].albums == Keep(albums, AlbumBy(n))
    ensures forall i, j | 0 <= i < j < |names| :: Values(dict, names)[i].name != Values(dict, names)[j].name
    ensures forall i | 0 <= i < |names| ::
              Values(dict, names)[i].songs != [] && Values(dict, names)[i].songs == Keep(songs, ByArtist(Values(dict, names)[i].name))
              && Values(dict, names)[i].albums == Keep(albums, AlbumBy(Values(dict, names)[i].name))
    ensures forall s | s in songs :: exists i :: 0 <= i < |names| && Values(dict, names)[i].name == s.artist
  {
    var groups := Values(dict, names);
    forall i | 0 <= i < |names| ensures groups[i].name == names[i] {
      assert names[i] in dict;
    }
    forall s | s in songs ensures exists i :: 0 <= i < |names| && groups[i].name == s.artist {
      var i :| 0 <= i < |names| && names[i] == s.artist;
      assert groups[i].name == s.artist;
    }
  }

  /** One pass of the first loop: append `song` to its artist, or start that artist. */
  method FileArtistSong(dict: map<string, Artist>, names: seq<string>, ghost seen: seq<Song>, song: Song)
    returns (dict': map<string, Artist>, names': seq<string>)
    requires ArtistDict(seen, dict, names)
    ensures ArtistDict(seen + [song], dict', names')
  {
    var artistName := song.artist;
    if artistName in dict {
      var artist := dict[artistName];
      artist := artist.(songs := artist.songs + [song]);
      dict', names' := dict[artistName := artist], names;
      ExtendArtist(seen, dict, names, song);
    } else {
      dict', names' := dict[artistName := Artist(artistName, [song], [])], names + [artistName];
      StartArtist(seen, dict, names, song);
    }
  }

  lemma ExtendArtist(seen: seq<Song>, dict: map<string, Artist>, names: seq<string>, song: Song)
    requires ArtistDict(seen, dict, names) && song.artist in dict
    ensures ArtistDict(seen + [song], dict[song.artist := dict[song.artist].(songs := dict[song.artist].songs + [song])], names)
  {
    var dict' := dict[song.artist := dict[song.artist].(songs := dict[song.artist].songs + [song])];
    forall n | n in dict' ensures dict'[n].name == n && dict'[n].songs != [] && dict'[n].songs == Keep(seen + [song], ByArtist(n)) {
      KeepSnoc(seen, song, ByArtist(n));
    }
    forall n | n !in dict' ensures Keep(seen + [song], ByArtist(n)) == [] {
      KeepSnoc(seen, song, ByArtist(n));
    }
  }

  lemma StartArtist(seen: seq<Song>, dict: map<string, Artist>, names: seq<string>, song: Song)
    requires ArtistDict(seen, dict, names) && song.artist !in dict
    ensures ArtistDict(seen + [song], dict[song.artist := Artist(song.artist, [song], [])], names + [song.artist])
  {
    var dict' := dict[song.artist := Artist(song.artist, [song], [])];
    var names' := names + [song.artist];
    forall n | n in dict' ensures dict'[n].name == n && dict'[n].songs != [] && dict'[n].songs == Keep(seen + [song], ByArtist(n)) {
      KeepSnoc(seen, song, ByArtist(n));
    }
    forall n | n !in dict' ensures Keep(seen + [song], ByArtist(n)) == [] {
      KeepSnoc(seen, song, ByArtist(n));
    }
    forall i, j | 0 <= i < j < |names'| ensures names'[i] != names'[j] {
      if j == |names| {
        assert names[i] in names;
      }
    }
  }

  /** The second loop of `organizeArtists`: every artist gets the albums whose artist it is, in album order. */
  method AttachAlbums(dict: map<string, Artist>, names: seq<string>, ghost songs: seq<Song>, albums: seq<Album>)
    returns (dict': map<string, Artist>)
    requires ArtistDict(songs, dict, names)
    ensures forall n :: n in dict' <==> n in names
    ensures forall n | n in dict' ::
              dict'[n].name == n && dict'[n].songs != [] && dict'[n].songs == Keep(songs, ByArtist(n))
              && dict'[n].albums == Keep(albums, AlbumBy(n))
  {
    dict' := dict;
    for j := 0 to |names|
      invariant forall n :: n in dict' <==> n in names
      invariant forall n | n in dict' :: dict'[n].name == n && dict'[n].songs != [] && dict'[n].songs == Keep(songs, ByArtist(n))
      invariant forall k | 0 <= k < j :: dict'[names[k]].albums == Keep(albums, AlbumBy(names[k]))
    {
      var name := names[j];
      var artist := dict'[name];
      artist := artist.(albums := Keep(albums, AlbumBy(name)));
      dict' := dict'[name := artist];
    }
  }

  /** Sorting artists with distinct names by name makes the names strictly increasing. */
  lemma SortedArtistsIncrease(a: seq<Artist>, r: seq<Artist>)
    requires multiset(r) == multiset(a)
    requires forall i, j | 0 <= i < j < |a| :: a[i].name != a[j].name
    requires StrictOrderOn(ArtistNameLess, a) ==> SortedBy(r, ArtistNameLess)
    ensures forall i, j | 0 <= i < j < |r| :: StrLess(r[i].name, r[j].name)
  {
    forall x | x in a ensures !ArtistNameLess(x, x) {
      StrLessIrreflexive(x.name);
    }
    forall x, y, z | x in a && y in a && z in a && ArtistNameLess(x, y) && ArtistNameLess(y, z)
      ensures ArtistNameLess(x, z)
    {
      StrLessTransitive(x.name, y.name, z.name);
    }
    forall i, j | 0 <= i < j < |r| ensures StrLess(r[i].name, r[j].name) {
      assert r[i] in multiset(a) && r[j] in multiset(a);
      var p :| 0 <= p < |a| && a[p] == r[i];
      var q :| 0 <= q < |a| && a[q] == r[j];
      assert Distinct(a);
      DistinctPermutation(a, r);
      assert p != q;
      StrLessTotal(r[i].name, r[j].name);
      assert !ArtistNameLess(r[j], r[i]);
    }
  }
}
