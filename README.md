# SenkuPlayer core, modelled in Dafny

SenkuPlayer is a local music player for iOS and macOS. This project models the
parts of it that decide what the user sees and hears:

- **The library manager** (`MusicLibraryManager`). It holds the song list and the
  albums and artists derived from it, plus the playlists. It adds and removes
  songs, rebuilds albums (grouped by the key `album_artist`, sorted by name,
  songs sorted by track number or title) and artists (grouped by name, holding
  their albums). It also covers playlist create/delete/update/add-songs, playlist
  lookup and the three searches, and the file decisions of a scan, an import and
  a rescan. Those decisions are the `.mp3` test, the skip-by-name rule and the
  copy-or-reuse rule.
- **The playback queue** (`AudioPlayerManager`). It covers play, pause,
  next/previous with wrap-around and the three-second restart rule, insert-next
  and append, shuffle and unshuffle, the repeat cycle and the end-of-track
  decision. It also covers the seek flag that mutes the time observer, and the
  reactions to audio interruptions and route changes.
- **The song value** (`Song`). Equality is by id. The id is derived from the
  file name: a djb2 hash over the UTF-8 bytes, printed with its 64-bit bit
  reversal as 32 hex digits and laid out as a UUID. Metadata reading gives
  defaults, lets later tags overwrite earlier ones, and parses TRCK/TPOS/TDRC.
- **The album value** (`Album`): its year, its defaults and equality/hash by id.
- **The playlists screen** (`PlaylistsListView`): the bounds-checked
  subscript, the name filter and the row-delete handler.

Files: `wrappers.dfy` (Option), `seqs.dfy` (filter, first index, sort, subsequences),
`text.dfy` (ASCII lowercasing, substring, string order, UTF-8, `Int(String)`,
`prefix`, `split`), `song.dfy`, `album.dfy`, `organize.dfy` (album and artist
grouping), `playlist.dfy`, `library.dfy` (the manager as a class), `scan.dfy`
(scan/import/rescan decisions), `player.dfy` (the player as a class),
`playlistsview.dfy`.

Modelling choices:

- The manager and the player are classes whose fields their methods reassign.
  Value types are datatypes.
- Swift's `Int` `%` truncates toward zero. `Player.SwiftRem` models it. A
  negative subscript traps, and so does `Int` overflow in `currentIndex + 1`
  and `currentIndex - 1 + count`. Each trap shows up as a precondition.
- `UInt64` arithmetic is written modulo 2^64. `UInt64.reversed` is modelled on `bv64`.
- Dictionary iteration order is unspecified in Swift. The grouping loops visit
  keys in first-insertion order, and no contract depends on that order.
- Random values are parameters: album UUIDs (`albumId`), the fallback song UUID
  and the shuffle order. So are the media asset's metadata, file existence and
  copy success.

## Model

| member | source | states |
|---|---|---|
| Songs.SameSongIsIdentity | SenkuPlayer/SenkuPlayer/Models/Song.swift:40-42 | Song `==` is an equivalence that looks at the id only: changing title, album or track keeps a song equal to itself |
| Songs.StemAndExtension | SenkuPlayer/SenkuPlayer/Models/Song.swift:50 | the default title (the name without its extension) and the extension put back together give the file name; the extension holds no dot |
| Songs.Djb2 | SenkuPlayer/SenkuPlayer/Models/Song.swift:173-176 | the hash stays below 2^64 |
| Songs.ShiftAddStep | SenkuPlayer/SenkuPlayer/Models/Song.swift:175 | the wrapping `(h << 5) &+ h &+ byte` equals `h * 33 + byte` modulo 2^64 |
| Songs.Reverse64MovesBits | SenkuPlayer/SenkuPlayer/Models/Song.swift:183-192 | the six swap steps move bit i to bit 63 - i |
| Songs.Reverse64Involution | SenkuPlayer/SenkuPlayer/Models/Song.swift:183-192 | reversing twice gives the input back |
| Songs.HexRoundTrip | SenkuPlayer/SenkuPlayer/Models/Song.swift:178 | a number below 16^width, printed as zero-padded hex, reads back as itself |
| Songs.HashTextDigits | SenkuPlayer/SenkuPlayer/Models/Song.swift:178 | `hashString` is 32 lower-case hex digits: first 16 are the djb2 hash of the UTF-8 bytes, last 16 its bit reversal |
| Songs.HashString | SenkuPlayer/SenkuPlayer/Models/Song.swift:169-179 | the byte loop with wrapping shift-and-add yields exactly those 32 digits |
| Text.Utf8Length | SenkuPlayer/SenkuPlayer/Models/Song.swift:170 | each character contributes one to four UTF-8 bytes |
| Text.Utf8OfAscii | SenkuPlayer/SenkuPlayer/Models/Song.swift:170 | an ASCII name's bytes are its character codes, one per character |
| Songs.PadRight | SenkuPlayer/SenkuPlayer/Models/Song.swift:160 | `padding(toLength:)` yields exactly n characters, the prefix when the text is long enough |
| Songs.LayoutIsUuid | SenkuPlayer/SenkuPlayer/Models/Song.swift:161-166 | the 8-4-4-4-12 layout of 32 lower-case hex digits is a well-formed UUID text whose digits, in order, are the input |
| Songs.PadTo32Layout | SenkuPlayer/SenkuPlayer/Models/Song.swift:157-167 | `padTo32` is 36 characters, well formed, and `UUID(uuidString:)` accepts it with the value of the 32-digit hash |
| Songs.ParseUuid | SenkuPlayer/SenkuPlayer/Models/Song.swift:137 | `UUID(uuidString:)`: nil unless the text is 8-4-4-4-12 hex digits |
| Songs.StableIdValue | SenkuPlayer/SenkuPlayer/Models/Song.swift:136-137 | the id never falls back to a random UUID, and its value is the djb2 hash followed by its reversal |
| Songs.SameNameSameId | SenkuPlayer/SenkuPlayer/Models/Song.swift:136-137 | two URLs with the same last path component get the same id, wherever they are |
| Songs.LastAssignedWins | SenkuPlayer/SenkuPlayer/Models/Song.swift:67-132 | when several metadata items assign a field, the last one wins |
| Songs.LastAssignedDefault | SenkuPlayer/SenkuPlayer/Models/Song.swift:50-59 | with no assigning item the field keeps its default |
| Text.ParseInt | SenkuPlayer/SenkuPlayer/Models/Song.swift:111 | `Int(String)` only yields values in the 64-bit range |
| Text.ParseDecimal | SenkuPlayer/SenkuPlayer/Models/Song.swift:111 | `Int(String)` reads back every decimal numeral of a 64-bit value, signed or not |
| Text.Prefix | SenkuPlayer/SenkuPlayer/Models/Song.swift:110 | `prefix(4)` is the first four characters, or the whole of a shorter value |
| Text.PiecesSplit | SenkuPlayer/SenkuPlayer/Models/Song.swift:115 | `split(separator: "/")` gives non-empty pieces without '/', which together are the value with its slashes removed |
| Text.PiecesAreRuns | SenkuPlayer/SenkuPlayer/Models/Song.swift:115 | each piece of `split(separator: "/")` is a maximal run of the value: it has '/' or an end of the value on both sides |
| Text.FirstPieceIsFirstRun | SenkuPlayer/SenkuPlayer/Models/Song.swift:115 | `.first` of the split is the run that begins right after the leading slashes |
| Songs.NumberPieceMeaning | SenkuPlayer/SenkuPlayer/Models/Song.swift:113-126 | a TRCK/TPOS value assigns exactly when it has a character other than '/'; it then assigns `Int` of its first non-empty piece |
| Songs.TrackPieceExamples | SenkuPlayer/SenkuPlayer/Models/Song.swift:113-119 | example: TRCK "3/12" is track 3, and "/12" is track 12 because `split` drops the empty first piece |
| Songs.TrackPieceEdgeCases | SenkuPlayer/SenkuPlayer/Models/Song.swift:113-119 | example: "x/12" clears the track, because `Int("x")` is nil; "//" has no piece and leaves the track alone |
| Songs.YearItemMeaning | SenkuPlayer/SenkuPlayer/Models/Song.swift:108-112 | a TDRC/©day item always assigns the year: up to four leading digits give their value; an empty value, a first character that is neither digit nor sign, or a later non-digit among the first four gives nil; any year read lies between -999 and 9999 |
| Songs.YearPieceExample | SenkuPlayer/SenkuPlayer/Models/Song.swift:108-112 | example: TDRC "2019-05-01" gives the year 2019, from its first four characters |
| Songs.ReadCommonMetadata | SenkuPlayer/SenkuPlayer/Models/Song.swift:67-95 | the common-metadata loop sets each field to its last assigning item's value, else its default |
| Songs.ReadFormatMetadata | SenkuPlayer/SenkuPlayer/Models/Song.swift:98-132 | the per-format loops do the same for album artist, year, track and disc |
| Songs.FromUrl | SenkuPlayer/SenkuPlayer/Models/Song.swift:47-153 | `fromURL` builds the song from the URL, the asset's duration, the last assignment of every tag and the stable id |
| Albums.NewAlbum | SenkuPlayer/SenkuPlayer/Models/Album.swift:17-23 | `init` sets every field from its arguments, the random default id given as a parameter; the album has no year exactly when none of its songs has one, so the default (no songs) has none. `organizeAlbums` builds its albums with it |
| Albums.WithSongs | SenkuPlayer/SenkuPlayer/Models/Album.swift:11-15 | assigning the `var` field `songs` (the append and the per-album sort of `organizeAlbums` go through it) keeps the `let` fields `id`, `name` and `artist` and the artwork, so the album stays equal to itself and keeps its key |
| Albums.YearIsFirstKnown | SenkuPlayer/SenkuPlayer/Models/Album.swift:29-31 | the year is nil exactly when no song has one, else the year of the first song in list order that has one |
| Albums.HashAgreesWithEquality | SenkuPlayer/SenkuPlayer/Models/Album.swift:33-39 | albums are equal exactly when their ids are, which is exactly when they feed the hasher the same values |
| Seqs.KeepFilters | SenkuPlayer/SenkuPlayer/Managers/MusicLibraryManager.swift:165 | `filter` keeps an order-preserving subsequence: all copies of the elements that pass and nothing else |
| Seqs.FirstIndexWhere | SenkuPlayer/SenkuPlayer/Managers/MusicLibraryManager.swift:254 | `firstIndex(where:)` is the least index that passes, nil when none does |
| Seqs.SortBy | SenkuPlayer/SenkuPlayer/Managers/MusicLibraryManager.swift:203 | `sorted(by:)` returns a permutation of its input, sorted when the comparator is a strict order on it |
| Text.StrLessTransitive | SenkuPlayer/SenkuPlayer/Managers/MusicLibraryManager.swift:203 | String `<` is transitive |
| Text.StrLessTotal | SenkuPlayer/SenkuPlayer/Managers/MusicLibraryManager.swift:203 | any two different strings are ordered one way |
| Organize.NameLessIsStrict | SenkuPlayer/SenkuPlayer/Managers/MusicLibraryManager.swift:203 | the album comparator is a strict order |
| Organize.SongBeforeIsStrict | SenkuPlayer/SenkuPlayer/Managers/MusicLibraryManager.swift:207-212 | the track-or-title comparator is a strict order on songs that all have track numbers, or on songs none of which has one |
| Organize.SortedSongsAreTrackOrdered | SenkuPlayer/SenkuPlayer/Managers/MusicLibraryManager.swift:206-213 | a sort by that comparator orders an album by track number when every song has one, by title when none has |
| Organize.GroupAlbums | SenkuPlayer/SenkuPlayer/Managers/MusicLibraryManager.swift:184-201 | the grouping loop yields one album per distinct key, holding that key's songs in library order, named after its first song |
| Organize.FileSong | SenkuPlayer/SenkuPlayer/Managers/MusicLibraryManager.swift:186-200 | one pass files a song under its key: appended to the key's album, or in a new album with the song's name, artist and artwork |
| Organize.EachSongInOneAlbum | SenkuPlayer/SenkuPlayer/Managers/MusicLibraryManager.swift:183-213 | after `organizeAlbums` every song is in exactly one album, with all its copies |
| Organize.AlbumHoldsItsKey | SenkuPlayer/SenkuPlayer/Managers/MusicLibraryManager.swift:187-200 | an album holds only library songs whose key is the album's key |
| Organize.AlbumKeysAreSongKeys | SenkuPlayer/SenkuPlayer/Managers/MusicLibraryManager.swift:187-203 | there is an album for a key exactly when some song has that key |
| Organize.KeysCollide | SenkuPlayer/SenkuPlayer/Managers/MusicLibraryManager.swift:187 | songs of album "a_b" by "c" and of album "a" by "b_c" land in one album |
| Organize.GroupArtists | SenkuPlayer/SenkuPlayer/Managers/MusicLibraryManager.swift:217-236 | one artist per distinct artist name, holding that name's songs in library order and exactly the albums whose artist it is, in album order |
| Organize.FileArtistSong | SenkuPlayer/SenkuPlayer/Managers/MusicLibraryManager.swift:219-228 | one pass of the artist loop files a song under its artist name |
| Organize.AttachAlbums | SenkuPlayer/SenkuPlayer/Managers/MusicLibraryManager.swift:232-236 | each artist gets the albums whose artist equals its name |
| Organize.SortedArtistsIncrease | SenkuPlayer/SenkuPlayer/Managers/MusicLibraryManager.swift:238 | sorted artists with distinct names are strictly increasing by name |
| Library.SortedAlbumsOrganized | SenkuPlayer/SenkuPlayer/Managers/MusicLibraryManager.swift:203-213 | sorting the grouped albums by name and each album's songs keeps every album filed under its key and every key covered |
| Library.SortedArtistsOrganized | SenkuPlayer/SenkuPlayer/Managers/MusicLibraryManager.swift:238 | sorting the grouped artists by name gives the organized artist list |
| Library.MusicLibrary.constructor | SenkuPlayer/SenkuPlayer/Managers/MusicLibraryManager.swift:29-38 | the manager starts with only the saved playlists, and the empty library is organized |
| Library.MusicLibrary.AddSong | SenkuPlayer/SenkuPlayer/Managers/MusicLibraryManager.swift:156-162 | no-op when a song with the id is present; otherwise the song goes last and albums and artists are rebuilt |
| Library.MusicLibrary.AppendSongs | SenkuPlayer/SenkuPlayer/Managers/MusicLibraryManager.swift:73-76 | a directory scan appends the songs found unchecked and reorganizes the library, even when it found none |
| Library.MusicLibrary.AppendFoundSongs | SenkuPlayer/SenkuPlayer/Managers/MusicLibraryManager.swift:144-149 | an import or rescan appends a non-empty batch unchecked and reorganizes; an empty batch leaves songs, albums, artists and playlists unchanged |
| Library.MusicLibrary.RemoveSong | SenkuPlayer/SenkuPlayer/Managers/MusicLibraryManager.swift:164-175 | no song with the id remains, the others keep their order and multiplicity, the id leaves every playlist, and albums and artists are rebuilt |
| Library.MusicLibrary.OrganizeLibrary | SenkuPlayer/SenkuPlayer/Managers/MusicLibraryManager.swift:178-181 | albums and artists become those derived from the songs |
| Library.MusicLibrary.OrganizeAlbums | SenkuPlayer/SenkuPlayer/Managers/MusicLibraryManager.swift:183-214 | albums: distinct keys, each the songs of its key, all keys covered, sorted by name, songs in track or title order |
| Library.MusicLibrary.OrganizeArtists | SenkuPlayer/SenkuPlayer/Managers/MusicLibraryManager.swift:216-239 | artists strictly increasing by name, one per name among the songs, each with its songs and its albums |
| Library.MusicLibrary.CreatePlaylist | SenkuPlayer/SenkuPlayer/Managers/MusicLibraryManager.swift:242-246 | exactly one playlist is appended |
| Library.MusicLibrary.DeletePlaylist | SenkuPlayer/SenkuPlayer/Managers/MusicLibraryManager.swift:248-251 | every playlist with the id goes; the others keep their order and multiplicity |
| Library.MusicLibrary.UpdatePlaylist | SenkuPlayer/SenkuPlayer/Managers/MusicLibraryManager.swift:253-258 | only the first playlist with the id is replaced; no-op when the id is absent |
| Library.MusicLibrary.AddSongsToPlaylist | SenkuPlayer/SenkuPlayer/Managers/MusicLibraryManager.swift:260-267 | only the first playlist with the id gains the ids, one `addSong` each in order; no-op when the id is absent |
| Playlists.RemoveSongId | SenkuPlayer/SenkuPlayer/Managers/MusicLibraryManager.swift:169 | the id leaves the playlist; other ids keep order and multiplicity |
| Playlists.AddSongId | SenkuPlayer/SenkuPlayer/Managers/MusicLibraryManager.swift:263 | the id is in the playlist afterwards, the old ids are a prefix, at most one id is added, and distinct ids stay distinct |
| Playlists.AddSongIds | SenkuPlayer/SenkuPlayer/Managers/MusicLibraryManager.swift:262-264 | every given id ends up in the playlist, nothing else is added, the old ids are a prefix and distinctness is kept |
| Library.FirstWithId | SenkuPlayer/SenkuPlayer/Managers/MusicLibraryManager.swift:271 | `songs.first { $0.id == id }` is the first song with the id, nil when there is none |
| Library.SongsForResolved | SenkuPlayer/SenkuPlayer/Managers/MusicLibraryManager.swift:269-273 | the `compactMap` yields one song per resolvable id, in id order, each the first song with that id |
| Library.AllResolve | SenkuPlayer/SenkuPlayer/Managers/MusicLibraryManager.swift:269-273 | when every id has a song, no id is skipped |
| Library.MusicLibrary.SongsForPlaylist | SenkuPlayer/SenkuPlayer/Managers/MusicLibraryManager.swift:269-273 | at most as many songs as ids, one per resolvable id in order, each the first with its id; all ids resolve ⇒ same length |
| Library.MusicLibrary.SearchSongs | SenkuPlayer/SenkuPlayer/Managers/MusicLibraryManager.swift:348-357 | empty query ⇒ all songs; else the order-preserving subsequence of songs whose lowercased title, artist or album contains the lowercased query |
| Library.MusicLibrary.SearchAlbums | SenkuPlayer/SenkuPlayer/Managers/MusicLibraryManager.swift:359-367 | the same for albums by name or artist |
| Library.MusicLibrary.SearchArtists | SenkuPlayer/SenkuPlayer/Managers/MusicLibraryManager.swift:369-376 | the same for artists by name |
| Scanning.Mp3TestIgnoresCase | SenkuPlayer/SenkuPlayer/Managers/MusicLibraryManager.swift:59 | `stem.ext` passes the `.mp3` test exactly when `ext` lowercases to "mp3" |
| Scanning.Mp3Files | SenkuPlayer/SenkuPlayer/Managers/MusicLibraryManager.swift:58-59 | a scan keeps exactly the `.mp3` files of the enumeration, in order |
| Scanning.RescanFiles | SenkuPlayer/SenkuPlayer/Managers/MusicLibraryManager.swift:326-336 | a rescan keeps the `.mp3` files whose name no library song has, in order |
| Scanning.RescanKeepsNamesDistinct | SenkuPlayer/SenkuPlayer/Managers/MusicLibraryManager.swift:326-343 | with distinct library and directory names, a rescan adds no file name twice and none already present |
| Scanning.ImportPlanDestinations | SenkuPlayer/SenkuPlayer/Managers/MusicLibraryManager.swift:110-136 | each imported URL is the music-directory copy of a picked `.mp3`; an already existing one is never a URL of the library before the import |
| Scanning.ImportPlanComplete | SenkuPlayer/SenkuPlayer/Managers/MusicLibraryManager.swift:118-136 | every picked `.mp3` whose destination is missing and copies, or exists and is no song of the library, has its destination imported |
| Scanning.ImportPlanAccepted | SenkuPlayer/SenkuPlayer/Managers/MusicLibraryManager.swift:118-136 | every imported destination is that of such a picked file, so with `ImportPlanComplete` the plan holds exactly those destinations |
| Scanning.ImportPlanDuplicates | SenkuPlayer/SenkuPlayer/Managers/MusicLibraryManager.swift:118-136 | two picked files with one name make the import add the same song twice |
| Scanning.ImportPlanDeduplicatedIsDistinct | SenkuPlayer/SenkuPlayer/Managers/MusicLibraryManager.swift:118-136 | with the batch counted as known, the import adds no URL twice and none the library has |
| Player.NextRepeat | SenkuPlayer/SenkuPlayer/Managers/AudioPlayerManager.swift:341-350 | toggling always changes the mode, and reaches off exactly from one |
| Player.RepeatCycle | SenkuPlayer/SenkuPlayer/Managers/AudioPlayerManager.swift:341-350 | three toggles are the identity, two are not, and the cycle visits all three modes |
| Player.AudioPlayer.ToggleRepeat | SenkuPlayer/SenkuPlayer/Managers/AudioPlayerManager.swift:341-350 | the mode becomes the next in the cycle; nothing else changes |
| Player.SwiftRem | SenkuPlayer/SenkuPlayer/Managers/AudioPlayerManager.swift:254 | Swift `%`: the remainder has the sign of the dividend, is below the divisor in size, and differs from the Euclidean remainder by 0 or the divisor |
| Player.StepsWrap | SenkuPlayer/SenkuPlayer/Managers/AudioPlayerManager.swift:254-286 | from an index in range, next goes one on and wraps the last to 0, previous goes one back and wraps 0 to the last, and the two undo each other |
| Player.InsertAt | SenkuPlayer/SenkuPlayer/Managers/AudioPlayerManager.swift:267 | `insert(_:at:)` places the song at k, shifts the rest up by one and adds exactly that song |
| Player.InsertionPoint | SenkuPlayer/SenkuPlayer/Managers/AudioPlayerManager.swift:267 | `min(currentIndex + 1, count)` |
| Player.MoveToFront | SenkuPlayer/SenkuPlayer/Managers/AudioPlayerManager.swift:324-325 | remove-then-insert-at-0 puts the song first, keeps the other entries in order, and swaps one entry for the song |
| Player.FirstIndexOf | SenkuPlayer/SenkuPlayer/Managers/AudioPlayerManager.swift:323 | `firstIndex(of:)` is the first entry with the song's id, nil when there is none |
| Player.InterruptionReaction | SenkuPlayer/SenkuPlayer/Managers/AudioPlayerManager.swift:150-171 | pause exactly on a began interruption; resume exactly on an ended one whose options carry shouldResume; otherwise nothing |
| Player.RouteChangeReaction | SenkuPlayer/SenkuPlayer/Managers/AudioPlayerManager.swift:173-187 | pause exactly when the old device became unavailable; never resume |
| Player.AudioPlayer.constructor | SenkuPlayer/SenkuPlayer/Managers/AudioPlayerManager.swift:18-33 | the initial values of the published and private state |
| Player.AudioPlayer.PlaySong | SenkuPlayer/SenkuPlayer/Managers/AudioPlayerManager.swift:191-199 | queue and original queue become the list, index and song the arguments (the index is not checked), time 0, playing, no seek in flight |
| Player.AudioPlayer.SetupPlayer | SenkuPlayer/SenkuPlayer/Managers/AudioPlayerManager.swift:201-229 | loading a song sets its duration, clears the seek flag and resets the time; nothing else changes |
| Player.AudioPlayer.Play | SenkuPlayer/SenkuPlayer/Managers/AudioPlayerManager.swift:231-235 | playing; nothing else changes |
| Player.AudioPlayer.Pause | SenkuPlayer/SenkuPlayer/Managers/AudioPlayerManager.swift:237-241 | not playing; nothing else changes |
| Player.AudioPlayer.TogglePlayPause | SenkuPlayer/SenkuPlayer/Managers/AudioPlayerManager.swift:243-249 | the playing flag flips; nothing else changes |
| Player.AudioPlayer.PlayNext | SenkuPlayer/SenkuPlayer/Managers/AudioPlayerManager.swift:251-261 | no-op on an empty queue; otherwise, with `currentIndex + 1` required not to overflow, the index steps by Swift `%`, the last wraps to 0, and the song there is loaded and played from 0 |
| Player.AudioPlayer.PlayNextSong | SenkuPlayer/SenkuPlayer/Managers/AudioPlayerManager.swift:263-269 | empty queue ⇒ a one-song queue playing; else (requiring -1 ≤ index < `Int.max`, where `insert` and `+ 1` do not trap) the song is inserted at `min(currentIndex+1, count)` and index, song, original queue and transport are unchanged |
| Player.AudioPlayer.PlayLater | SenkuPlayer/SenkuPlayer/Managers/AudioPlayerManager.swift:271-277 | the same with the song appended |
| Player.AudioPlayer.PlayPrevious | SenkuPlayer/SenkuPlayer/Managers/AudioPlayerManager.swift:279-294 | no-op on an empty queue; past 3 s a seek to 0 with the index unchanged; else (requiring `currentIndex - 1 + count` not to overflow) the index steps back, 0 wraps to the last, and that song plays from 0 |
| Player.AudioPlayer.Seek | SenkuPlayer/SenkuPlayer/Managers/AudioPlayerManager.swift:296-300 | the time is the target and a seek is in flight |
| Player.AudioPlayer.SeekCompleted | SenkuPlayer/SenkuPlayer/Managers/AudioPlayerManager.swift:303-307 | the completion clears the seek flag |
| Player.AudioPlayer.ObserverTick | SenkuPlayer/SenkuPlayer/Managers/AudioPlayerManager.swift:219-222 | a tick sets the time unless a seek is in flight |
| Player.AudioPlayer.ToggleShuffle | SenkuPlayer/SenkuPlayer/Managers/AudioPlayerManager.swift:311-339 | on: the given permutation with the current song's first entry moved to the front and index 0 (index unchanged when absent), a permutation of the old queue; off: the original queue, at the current song's first position |
| Player.AudioPlayer.EnableShuffle | SenkuPlayer/SenkuPlayer/Managers/AudioPlayerManager.swift:314-329 | the turning-on half, with the same contract |
| Player.AudioPlayer.PlayerDidFinishPlaying | SenkuPlayer/SenkuPlayer/Managers/AudioPlayerManager.swift:132-147 | repeat-one restarts and keeps playing at the same index; repeat-all advances; repeat-off advances before the last song, else pauses at time 0 |
| Player.AudioPlayer.HandleInterruption | SenkuPlayer/SenkuPlayer/Managers/AudioPlayerManager.swift:150-171 | applies the interruption decision to the playing flag only |
| Player.AudioPlayer.HandleRouteChange | SenkuPlayer/SenkuPlayer/Managers/AudioPlayerManager.swift:173-187 | playing afterwards exactly when it was and the reason is not the loss of the old device |
| PlaylistsView.SafeGet | SenkuPlayer/SenkuPlayer/Views/PlaylistsListView.swift:508-512 | `array[safe: i]` is the element exactly when 0 ≤ i < count, nil otherwise |
| PlaylistsView.FilteredPlaylists | SenkuPlayer/SenkuPlayer/Views/PlaylistsListView.swift:16-23 | empty text ⇒ all playlists; else the order-preserving subsequence whose lowercased name contains the lowercased text |
| PlaylistsView.DeletePlaylists | SenkuPlayer/SenkuPlayer/Views/PlaylistsListView.swift:75-80 | the loop resolves each offset against the filtered list as it stands after the previous deletions |
| PlaylistsView.DeleteAsWrittenShrinks | SenkuPlayer/SenkuPlayer/Views/PlaylistsListView.swift:75-80 | the delete handler only ever removes playlists, keeping the rest in order |
| PlaylistsView.SingleRowAgrees | SenkuPlayer/SenkuPlayer/Views/PlaylistsListView.swift:75-80 | a single selected row is deleted correctly as written |
| PlaylistsView.DeleteSkipsRows | SenkuPlayer/SenkuPlayer/Views/PlaylistsListView.swift:75-80 | with three playlists and no search text, rows 0 and 1 delete the first and third playlist |
| PlaylistsView.DeleteTrapsOnLastRows | SenkuPlayer/SenkuPlayer/Views/PlaylistsListView.swift:75-80 | rows 1 and 2 of three trap on the second offset |
| PlaylistsView.DeleteSelectedRows | SenkuPlayer/SenkuPlayer/Views/PlaylistsListView.swift:75-80 | example: the intended deletion of rows 0 and 1 of three leaves only the third playlist |
| PlaylistsView.SelectedPlaylists | SenkuPlayer/SenkuPlayer/Views/PlaylistsListView.swift:77 | the playlists the selected rows show before any deletion |
| PlaylistsView.DeleteSelected | SenkuPlayer/SenkuPlayer/Views/PlaylistsListView.swift:75-80 | the intended deletion: every selected playlist goes, every playlist with another id stays, in order and multiplicity |
| PlaylistsView.DeleteSelectedPlaylists | SenkuPlayer/SenkuPlayer/Views/PlaylistsListView.swift:75-80 | reading the selected playlists first, then deleting each, gives the intended deletion |

## Left out

- File-system and persistence I/O are not modelled. This covers directory
  enumeration, copying, creating the music directory, the user-defaults JSON
  store (`saveSongs`, `savePlaylists`, `loadSavedData`) and the dispatch to
  background and main queues. File existence and copy success are inputs to
  `Scanning.ImportPlan`. Saved playlists are the constructor's parameter.
- `scanDirectory`, `importFiles` and `scanMusicDirectoryAsync` are not methods
  of their own. Their file decisions are `Scanning.Mp3Files`,
  `Scanning.ImportPlan` and `Scanning.RescanFiles`. The scan's last step is
  `Library.MusicLibrary.AppendSongs`, which runs even for an empty batch. The
  import's and rescan's last step is `Library.MusicLibrary.AppendFoundSongs`,
  which skips an empty batch. `scanProgress` and `isScanning` are left out.
- AVFoundation and MediaPlayer plumbing is left out: creating the `AVPlayer`,
  registering the time observer, the remote command centre, the now-playing
  dictionary, the audio session set-up and `isNowPlayingPresented`. Loading a
  song is the state change `SetupPlayer` makes. A notification is given as
  its raw `UInt` entries.
- Reading an `AVAsset` is left out. `Songs.Asset` gives the duration and the
  metadata items as (key, value) pairs. `fromURL` never returns nil in the
  source, and `Songs.FromUrl` always returns a song.
- The random parts are inputs: the random UUIDs (album ids, the fallback song
  id) and `shuffle()`'s order.
- Strings are sequences of Unicode scalars. Swift's grapheme clusters and
  canonical equivalence are not modelled. String `==`, `<`, dictionary keys,
  `prefix`, `split` and `contains` therefore agree with Swift only on text in
  normalization form C where every scalar is a character of its own. For
  example, "Café" written precomposed and decomposed would be one album key in
  Swift but two in the model.
- Prefix: counts Unicode scalars, where Swift's `prefix(4)` counts characters.
  A TDRC value such as "2019" followed by a combining accent gives nil in Swift
  and 2019 in the model.
- Text.StrLessTransitive: the order is the raw scalar order. Swift compares
  NFC-normalised scalars, and the two agree on NFC text.
- Lowercasing is ASCII only, so Unicode case mapping is not modelled. The
  search, filter and `.mp3` contracts hold for that lowercasing.
- Playlist.swift and Artist.swift are not part of this model. A playlist is its
  id, name and song ids. `removeSong` is taken to remove every occurrence and
  `addSong` to append when absent. An artist is its name, songs and albums.
  The artist's own UUID and playlist `moveSong` are therefore not modelled.
- `Album.totalDuration` and the other floating-point displays are not modelled.
  Durations and times are `real`, which are only assigned and compared.
- The multipeer sharing manager and the SwiftUI views other than the playlists
  screen's filter, subscript and delete handler are not modelled.
- Organize.SortedSongsAreTrackOrdered: an album whose songs mix tracked and
  untracked songs gets no promised order. The comparator is not a strict weak
  order there, and Swift's sort then leaves the order unspecified.
- Seqs.SortBy: it promises a sorted permutation, not the positions of ties. The
  order Swift's sort gives equal elements is not modelled.
- Organize.GroupAlbums: Swift's dictionary order decides the album order before
  the sort, and so the order of same-named albums after it. The model fixes one
  order, and no contract depends on it.
- Player.AudioPlayer.ToggleShuffle: the permutation is promised only when every
  queue entry with the current song's id is that very song. Song `==` compares
  ids, so the source may swap in an equal-by-id song whose other fields differ.

## Findings

| source | as written | input that shows it | evidently intended | confidence | as-written member | corrected member |
|---|---|---|---|---|---|---|
| SenkuPlayer/SenkuPlayer/Managers/MusicLibraryManager.swift:118-136 | an existing destination is skipped only if a song of the library as it was before the import has that URL; songs found earlier in the same batch are not consulted | importing `Downloads/song.mp3` and `Desktop/song.mp3`, neither yet in the music directory: the first is copied, the second finds the copy, is not in the library yet, and the same song is appended twice | each destination is added at most once, so the batch counts as known | high; not executed | Scanning.ImportPlanDuplicates | Scanning.ImportPlanDeduplicatedIsDistinct |
| SenkuPlayer/SenkuPlayer/Views/PlaylistsListView.swift:75-80 | every offset is looked up in `filteredPlaylists` after the previous offsets' playlists were already deleted, so later offsets name shifted rows | three playlists, no search text, rows {0, 1} selected: the first and third are deleted and the second survives; rows {1, 2}: the second is deleted, then offset 2 is out of range and traps | delete the playlists shown on the selected rows, resolved before any deletion | high; not executed | PlaylistsView.DeleteSkipsRows, PlaylistsView.DeleteTrapsOnLastRows | PlaylistsView.DeleteSelectedPlaylists |
