/**
 * Which files the library manager turns into songs: the `.mp3` test of
 * `scanDirectory`, `importFiles` and `scanMusicDirectoryAsync`, the rescan's
 * skip-by-file-name rule and the import's copy-or-link decisions.  File
 * existence and copy success are inputs; reading the files is not modelled.
 */
module Scanning {
  import opened Wrappers
  import opened Seqs
  import opened Text
  import opened Songs

  /** A name with a non-empty stem: the last dot is the one before the extension. */
  lemma LastDotBeforeExtension(stem: string, ext: string)
    requires '.' !in ext
    ensures LastDot(stem + "." + ext) == Some(|stem|)
  {
    var s := stem + "." + ext;
    assert s[|stem|] == '.';
    assert forall j | |stem| < j < |s| :: s[j] == ext[j - |stem| - 1];
  }

  /** The extension test ignores case: `stem.ext` passes exactly when `ext` lowercases to "mp3". */
  lemma Mp3TestIgnoresCase(dir: seq<string>, stem: string, ext: string)
    requires stem != [] && '.' !in ext
    ensures IsMp3(Url(dir, stem + "." + ext)) <==> Lower(ext) == "mp3"
  {
    LastDotBeforeExtension(stem, ext);
    assert (stem + "." + ext)[|stem| + 1..] == ext;
  }

  /** `scanDirectory`'s filter: the `.mp3` files of the enumeration, in order. */
  function Mp3Files(urls: seq<Url>): (r: seq<Url>)
    ensures IsSubseq(r, urls)
    ensures forall i | 0 <= i < |r| :: IsMp3(r[i])
    ensures forall u :: multiset(r)[u] == if IsMp3(u) then multiset(urls)[u] else 0
  {
    KeepFilters(urls, IsMp3);
    Keep(urls, IsMp3)
  }

  function Names(songs: seq<Song>): seq<string> {
    seq(|songs|, i requires 0 <= i < |songs| => songs[i].url.name)
  }

  function FileNames(urls: seq<Url>): seq<string> {
    seq(|urls|, i requires 0 <= i < |urls| => urls[i].name)
  }

  function IsNewMp3(songs: seq<Song>): Url -> bool {
    (f: Url) => IsMp3(f) && f.name !in Names(songs)
  }

  /**
   * `scanMusicDirectoryAsync`'s filter: the `.mp3` files of the music
   * directory whose file name no song of the library has.
   */
  function RescanFiles(songs: seq<Song>, files: seq<Url>): (r: seq<Url>)
    ensures IsSubseq(r, files)
    ensures forall i | 0 <= i < |r| :: IsMp3(r[i]) && r[i].name !in Names(songs)
    ensures forall f :: multiset(r)[f] == if IsNewMp3(songs)(f) then multiset(files)[f] else 0
  {
    KeepFilters(files, IsNewMp3(songs));
    Keep(files, IsNewMp3(songs))
  }

  /**
   * A rescan keeps file names unique: if the library's names are distinct,
   * and so are the directory's, the songs made from the rescan's files
   * (each keeps its file URL) bring no name twice and none the library has.
   */
  lemma {:induction false} RescanKeepsNamesDistinct(songs: seq<Song>, files: seq<Url>)
    requires Distinct(Names(songs)) && Distinct(FileNames(files))
    ensures Distinct(Names(songs) + FileNames(RescanFiles(songs, files)))
  {
    var r := RescanFiles(songs, files);
    KeepNamesDistinct(files, IsNewMp3(songs));
    forall k | 0 <= k < |FileNames(r)| ensures FileNames(r)[k] !in Names(songs) {
      FileNameAt(r, k);
    }
    DistinctJoin(Names(songs), FileNames(r));
  }

  lemma FileNameAt(urls: seq<Url>, k: nat)
    requires k < |urls|
    ensures FileNames(urls)[k] == urls[k].name
  {
  }

  lemma {:induction false} KeepNamesDistinct(files: seq<Url>, p: Url -> bool)
    requires Distinct(FileNames(files))
    ensures Distinct(FileNames(Keep(files, p)))
  {
    if files != [] {
      var init := Init(files);
      var x := Last(files);
      assert FileNames(init) == FileNames(files)[..|files| - 1];
      KeepNamesDistinct(init, p);
      if p(x) {
        var k := Keep(init, p);
        assert Keep(files, p) == k + [x];
        assert FileNames(k + [x]) == FileNames(k) + [x.name];
        forall i | 0 <= i < |k| ensures k[i].name != x.name {
          KeepMember(init, p, k[i]);
          var m :| 0 <= m < |init| && init[m] == k[i];
          assert FileNames(files)[m] == k[i].name;
          assert FileNames(files)[|files| - 1] == x.name;
        }
        assert forall i | 0 <= i < |k| :: FileNames(k)[i] == k[i].name;
      } else {
        assert Keep(files, p) == Keep(init, p);
      }
    }
  }

  /**
   * The destinations `importFiles` makes songs from, as written: each `.mp3`
   * goes to `musicDir` under its file name; a destination that does not
   * exist is copied there (if the copy succeeds, it now exists), one that
   * exists is used only if no song of `known` has that URL.  `known` is the
   * library as it was before the import: songs found earlier in the same
   * batch are not consulted.
   */
  function ImportPlan(known: set<Url>, urls: seq<Url>, musicDir: seq<string>, existing: set<Url>, copies: Url -> bool): seq<Url>
    decreases |urls|
  {
    if urls == [] then []
    else
      var u := urls[0];
      var dest := Url(musicDir, u.name);
      if !IsMp3(u) then ImportPlan(known, urls[1..], musicDir, existing, copies)
      else if dest !in existing then
        if copies(u) then [dest] + ImportPlan(known, urls[1..], musicDir, existing + {dest}, copies)
        else ImportPlan(known, urls[1..], musicDir, existing, copies)
      else if dest !in known then [dest] + ImportPlan(known, urls[1..], musicDir, existing, copies)
      else ImportPlan(known, urls[1..], musicDir, existing, copies)
  }

  /** The URLs of the library's songs. */
  function Urls(songs: seq<Song>): set<Url> {
    set s | s in songs :: s.url
  }

  /** Every destination is the music-directory copy of a picked `.mp3` file, and none already in the library exists on disk. */
  lemma {:induction false} ImportPlanDestinations(known: set<Url>, urls: seq<Url>, musicDir: seq<string>, existing: set<Url>, copies: Url -> bool)
    ensures forall d | d in ImportPlan(known, urls, musicDir, existing, copies) ::
              d.dir == musicDir && exists u | u in urls :: IsMp3(u) && u.name == d.name
    ensures forall d | d in ImportPlan(known, urls, musicDir, existing, copies) :: d in existing ==> d !in known
    decreases |urls|
  {
    if urls != [] {
      var u := urls[0];
      var dest := Url(musicDir, u.name);
      ImportPlanDestinations(known, urls[1..], musicDir, existing, copies);
      ImportPlanDestinations(known, urls[1..], musicDir, existing + {dest}, copies);
      assert forall v | v in urls[1..] :: v in urls;
      assert u in urls;
    }
  }

  /**
   * Whether `importFiles` turns the picked file `u` into a song, judged
   * against the directory as it was before the import: a `.mp3` whose
   * destination is missing and can be copied, or exists and is not a song
   * of `known` yet.
   */
  predicate Imported(known: set<Url>, musicDir: seq<string>, existing: set<Url>, copies: Url -> bool, u: Url) {
    var dest := Url(musicDir, u.name);
    IsMp3(u) && ((dest !in existing && copies(u)) || (dest in existing && dest !in known))
  }

  /** Every picked file the import accepts has its destination in the plan. */
  lemma {:induction false} ImportPlanComplete(known: set<Url>, urls: seq<Url>, musicDir: seq<string>, existing: set<Url>, copies: Url -> bool)
    ensures forall u | u in urls && Imported(known, musicDir, existing, copies, u) ::
              Url(musicDir, u.name) in ImportPlan(known, urls, musicDir, existing, copies)
    decreases |urls|
  {
    if urls != [] {
      var u0 := urls[0];
      var d0 := Url(musicDir, u0.name);
      var plan := ImportPlan(known, urls, musicDir, existing, copies);
      forall u | u in urls && Imported(known, musicDir, existing, copies, u)
        ensures Url(musicDir, u.name) in plan
      {
        var d := Url(musicDir, u.name);
        if u == u0 {
        } else if IsMp3(u0) && d0 !in existing && copies(u0) {
          ImportPlanComplete(known, urls[1..], musicDir, existing + {d0}, copies);
          assert plan == [d0] + ImportPlan(known, urls[1..], musicDir, existing + {d0}, copies);
          if d != d0 {
            assert u in urls[1..];
            assert Imported(known, musicDir, existing + {d0}, copies, u);
          }
        } else {
          ImportPlanComplete(known, urls[1..], musicDir, existing, copies);
          var rest := ImportPlan(known, urls[1..], musicDir, existing, copies);
          assert plan == rest || plan == [d0] + rest;
          assert u in urls[1..];
          assert d in rest;
        }
      }
    }
  }

  /** Conversely, every destination in the plan is that of a picked file the import accepts. */
  lemma {:induction false} ImportPlanAccepted(known: set<Url>, urls: seq<Url>, musicDir: seq<string>, existing: set<Url>, copies: Url -> bool)
    ensures forall d | d in ImportPlan(known, urls, musicDir, existing, copies) ::
              exists u | u in urls :: Imported(known, musicDir, existing, copies, u) && d == Url(musicDir, u.name)
    decreases |urls|
  {
    if urls != [] {
      var u0 := urls[0];
      var d0 := Url(musicDir, u0.name);
      var plan := ImportPlan(known, urls, musicDir, existing, copies);
      forall d | d in plan
        ensures exists u | u in urls :: Imported(known, musicDir, existing, copies, u) && d == Url(musicDir, u.name)
      {
        if IsMp3(u0) && d0 !in existing && copies(u0) {
          ImportPlanAccepted(known, urls[1..], musicDir, existing + {d0}, copies);
          if d == d0 {
            assert Imported(known, musicDir, existing, copies, u0);
          } else {
            assert d in ImportPlan(known, urls[1..], musicDir, existing + {d0}, copies);
            var u :| u in urls[1..] && Imported(known, musicDir, existing + {d0}, copies, u) && d == Url(musicDir, u.name);
            assert u in urls && Imported(known, musicDir, existing, copies, u);
          }
        } else if IsMp3(u0) && d0 in existing && d0 !in known && d == d0 {
          assert Imported(known, musicDir, existing, copies, u0);
        } else {
          ImportPlanAccepted(known, urls[1..], musicDir, existing, copies);
          assert d in ImportPlan(known, urls[1..], musicDir, existing, copies);
          var u :| u in urls[1..] && Imported(known, musicDir, existing, copies, u) && d == Url(musicDir, u.name);
          assert u in urls;
        }
      }
    }
  }

  /** Example fixtures for `ImportPlanDuplicates` only: two picked files with one name, the music directory, a copy that always succeeds. */
  const PickedA: Url := Url(["Downloads"], "song.mp3")
  const PickedB: Url := Url(["Desktop"], "song.mp3")
  const Music: seq<string> := ["Documents", "Music"]

  function CopyAlways(u: Url): bool {
    true
  }

  /**
   * Two picked files with one name, neither yet in the music directory: the
   * first is copied, the second finds the copy and, since the library has not
   * been updated yet, is used again, so the library gains the song twice.
   */
  lemma ImportPlanDuplicates()
    ensures ImportPlan({}, [PickedA, PickedB], Music, {}, CopyAlways)
         == [Url(Music, "song.mp3"), Url(Music, "song.mp3")]
    ensures !Distinct(ImportPlan({}, [PickedA, PickedB], Music, {}, CopyAlways))
  {
    Mp3TestIgnoresCase(["Downloads"], "song", "mp3");
    Mp3TestIgnoresCase(["Desktop"], "song", "mp3");
    assert "song" + "." + "mp3" == "song.mp3";
    assert IsMp3(PickedA) && IsMp3(PickedB);
    assert [PickedA, PickedB][1..] == [PickedB];
    assert [PickedB][1..] == [];
    var d := Url(Music, "song.mp3");
    assert ImportPlan({}, [PickedB], Music, {d}, CopyAlways) == [d] + ImportPlan({}, [], Music, {d}, CopyAlways);
    assert ImportPlan({}, [PickedB], Music, {d}, CopyAlways) == [d];
    assert {} + {d} == {d};
    assert ImportPlan({}, [PickedA, PickedB], Music, {}, CopyAlways) == [d] + ImportPlan({}, [PickedB], Music, {d}, CopyAlways);
    var r := ImportPlan({}, [PickedA, PickedB], Music, {}, CopyAlways);
    assert r == [d, d];
    assert r[0] == r[1];
  }

  /**
   * `importFiles` with the duplicate check it evidently intends: a
   * destination used in this batch counts as known from then on.
   */
  function ImportPlanDeduplicated(known: set<Url>, urls: seq<Url>, musicDir: seq<string>, existing: set<Url>, copies: Url -> bool): seq<Url>
    decreases |urls|
  {
    if urls == [] then []
    else
      var u := urls[0];
      var dest := Url(musicDir, u.name);
      if !IsMp3(u) then ImportPlanDeduplicated(known, urls[1..], musicDir, existing, copies)
      else if dest !in existing then
        if copies(u) then [dest] + ImportPlanDeduplicated(known + {dest}, urls[1..], musicDir, existing + {dest}, copies)
        else ImportPlanDeduplicated(known, urls[1..], musicDir, existing, copies)
      else if dest !in known then [dest] + ImportPlanDeduplicated(known + {dest}, urls[1..], musicDir, existing, copies)
      else ImportPlanDeduplicated(known, urls[1..], musicDir, existing, copies)
  }

  /**
   * When every library song's file exists, the corrected import never adds a
   * song whose URL the library has, nor any URL twice.
   */
  lemma {:induction false} ImportPlanDeduplicatedIsDistinct(known: set<Url>, urls: seq<Url>, musicDir: seq<string>, existing: set<Url>, copies: Url -> bool)
    requires known <= existing
    ensures forall d | d in ImportPlanDeduplicated(known, urls, musicDir, existing, copies) :: d !in known
    ensures Distinct(ImportPlanDeduplicated(known, urls, musicDir, existing, copies))
    decreases |urls|
  {
    if urls != [] {
      var u := urls[0];
      var dest := Url(musicDir, u.name);
      ImportPlanDeduplicatedIsDistinct(known, urls[1..], musicDir, existing, copies);
      if IsMp3(u) && dest !in existing && copies(u) {
        ImportPlanDeduplicatedIsDistinct(known + {dest}, urls[1..], musicDir, existing + {dest}, copies);
        var rest := ImportPlanDeduplicated(known + {dest}, urls[1..], musicDir, existing + {dest}, copies);
        assert ImportPlanDeduplicated(known, urls, musicDir, existing, copies) == [dest] + rest;
        assert dest !in rest;
      } else if IsMp3(u) && dest in existing && dest !in known {
        ImportPlanDeduplicatedIsDistinct(known + {dest}, urls[1..], musicDir, existing, copies);
        var rest := ImportPlanDeduplicated(known + {dest}, urls[1..], musicDir, existing, copies);
        assert ImportPlanDeduplicated(known, urls, musicDir, existing, copies) == [dest] + rest;
        assert dest !in rest;
      }
    }
  }
}
