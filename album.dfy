/**
 * The `Album` value: a named group of songs by one artist, identified by a
 * UUID.  Equality and hashing look at the id only; the year is that of the
 * first song that has one.
 */
module Albums {
  import opened Wrappers
  import opened Text
  import opened Songs

  datatype Album = Album(id: Uuid, name: string, artist: string, songs: seq<Song>, artworkData: Option<seq<Byte>>)

  /**
   * `Album.init`, with the random default id given as a parameter.  With the
   * default arguments (no songs, no artwork) the album has no year.
   */
  function NewAlbum(id: Uuid, name: string, artist: string, songs: seq<Song>, artworkData: Option<seq<Byte>>): (a: Album)
    ensures a.id == id && a.name == name && a.artist == artist
    ensures a.songs == songs && a.artworkData == artworkData
    ensures Year(a).None? <==> forall k :: 0 <= k < |songs| ==> songs[k].year.None?
  {
    FirstKnownYear(songs);
    Album(id, name, artist, songs, artworkData)
  }

  /**
   * Assigning the `var` field `songs`: the `let` fields `id`, `name` and
   * `artist` stay, so the album stays equal to itself, and the artwork stays.
   */
  function WithSongs(a: Album, songs: seq<Song>): (r: Album)
    ensures r.songs == songs && SameAlbum(r, a)
    ensures r.name == a.name && r.artist == a.artist && r.artworkData == a.artworkData
  {
    a.(songs := songs)
  }

  /** The years of the songs that have one, in song order (`compactMap`). */
  function KnownYears(songs: seq<Song>): seq<int> {
    if songs == [] then []
    else (if songs[0].year.Some? then [songs[0].year.value] else []) + KnownYears(songs[1..])
  }

  /** `Album.year`: the first of the known years. */
  function Year(a: Album): Option<int> {
    var years := KnownYears(a.songs);
    if years == [] then None else Some(years[0])
  }

  /** The year is that of the first song in list order that has one, and nil when no song has one. */
  lemma YearIsFirstKnown(a: Album)
    ensures Year(a).None? <==> forall k :: 0 <= k < |a.songs| ==> a.songs[k].year.None?
    ensures Year(a).Some? ==>
              exists k :: 0 <= k < |a.songs| && a.songs[k].year == Year(a)
                       && forall j :: 0 <= j < k ==> a.songs[j].year.None?
  {
    FirstKnownYear(a.songs);
  }

  lemma {:induction false} FirstKnownYear(songs: seq<Song>)
    ensures KnownYears(songs) == [] <==> forall k :: 0 <= k < |songs| ==> songs[k].year.None?
    ensures KnownYears(songs) != [] ==>
              exists k :: 0 <= k < |songs| && songs[k].year == Some(KnownYears(songs)[0])
                       && forall j :: 0 <= j < k ==> songs[j].year.None?
  {
    if songs != [] {
      FirstKnownYear(songs[1..]);
      if songs[0].year.None? {
        if KnownYears(songs) != [] {
          var k :| 0 < k + 1 < |songs| && songs[1..][k].year == Some(KnownYears(songs[1..])[0])
                 && forall j :: 0 <= j < k ==> songs[1..][j].year.None?;
          assert songs[k + 1].year == Some(KnownYears(songs)[0]);
          assert forall j :: 0 <= j < k + 1 ==> songs[j].year.None? by {
            forall j | 0 < j < k + 1 ensures songs[j].year.None? {
              assert songs[j] == songs[1..][j - 1];
            }
          }
        } else {
          forall k | 0 <= k < |songs| ensures songs[k].year.None? {
            if k > 0 { assert songs[k] == songs[1..][k - 1]; }
          }
        }
      }
    }
  }

  /** `Album.==`: albums are equal exactly when their ids are. */
  predicate SameAlbum(a: Album, b: Album) {
    a.id == b.id
  }

  /** The values `hash(into:)` feeds to the hasher: the id alone. */
  function HashInputs(a: Album): seq<Uuid> {
    [a.id]
  }

  /** Equal albums feed the hasher the same values, and albums that feed it the same values are equal. */
  lemma HashAgreesWithEquality(a: Album, b: Album)
    ensures SameAlbum(a, b) <==> HashInputs(a) == HashInputs(b)
  {
    if HashInputs(a) == HashInputs(b) {
      assert HashInputs(a)[0] == HashInputs(b)[0];
    }
  }
}
