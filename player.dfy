/**
 * The playback queue of the audio player: the queue and the order it was
 * given in, the current position and song, the transport flags and the
 * repeat and shuffle modes.  The `AVPlayer` itself, the now-playing
 * dictionary and the remote command centre are not modelled: loading a song
 * is the state change `setupPlayer` makes, the periodic time observer is the
 * method `ObserverTick`, the completion of a seek is `SeekCompleted`, and the
 * random shuffle is a permutation the caller passes in.
 */
module Player {
  import opened Wrappers
  import opened Seqs
  import opened Songs
  import opened Text

  datatype RepeatMode = Off | All | One

  /** The mode `toggleRepeat` moves to: off, then all, then one, then off again. */
  function NextRepeat(m: RepeatMode): (r: RepeatMode)
    ensures r != m
    ensures r == Off <==> m == One
  {
    match m
    case Off => All
    case All => One
    case One => Off
  }

  /** Three toggles bring every mode back, and no fewer do. */
  lemma RepeatCycle(m: RepeatMode)
    ensures NextRepeat(NextRepeat(NextRepeat(m))) == m
    ensures NextRepeat(NextRepeat(m)) != m
    ensures {NextRepeat(m), NextRepeat(NextRepeat(m)), m} == {Off, All, One}
  {
  }

  /**
   * Swift's `%` on `Int`: the remainder has the sign of the dividend (or is
   * zero) and is smaller than the divisor in magnitude; on a non-negative
   * dividend it is the mathematical remainder.
   */
  function SwiftRem(a: int, n: int): (r: int)
    requires n > 0
    ensures -n < r < n
    ensures a >= 0 ==> r == a % n
    ensures a <= 0 ==> r <= 0
    ensures r == a % n || r == a % n - n
  {
    if a >= 0 || a % n == 0 then a % n else a % n - n
  }

  /**
   * Stepping forward from a position in range goes one further and wraps the
   * last position to the first; stepping back goes one back and wraps the
   * first to the last; the two steps undo each other.
   */
  lemma {:induction false} StepsWrap(i: int, n: int)
    requires 0 <= i < n
    ensures SwiftRem(i + 1, n) == if i == n - 1 then 0 else i + 1
    ensures SwiftRem(i - 1 + n, n) == if i == 0 then n - 1 else i - 1
    ensures SwiftRem(SwiftRem(i + 1, n) - 1 + n, n) == i
    ensures SwiftRem(SwiftRem(i - 1 + n, n) + 1, n) == i
  {
    RemOfSmall(i + 1, n);
    RemOfSmall(i - 1 + n, n);
    var f := SwiftRem(i + 1, n);
    var b := SwiftRem(i - 1 + n, n);
    RemOfSmall(f - 1 + n, n);
    RemOfSmall(b + 1, n);
  }

  /** A non-negative dividend below twice the divisor leaves itself or itself minus the divisor. */
  lemma RemOfSmall(a: int, n: int)
    requires n > 0 && 0 <= a < 2 * n
    ensures SwiftRem(a, n) == if a < n then a else a - n
  {
  }

  /** Where `playNext(_:)` inserts: just after the current position, or at the end. */
  function InsertionPoint(currentIndex: int, count: nat): (k: int)
    ensures k <= count && k <= currentIndex + 1
    ensures k == count || k == currentIndex + 1
  {
    if currentIndex + 1 < count then currentIndex + 1 else count
  }

  /** `s.insert(x, at: k)`. */
  function InsertAt<T>(s: seq<T>, x: T, k: nat): (r: seq<T>)
    requires k <= |s|
    ensures |r| == |s| + 1 && r[k] == x
    ensures forall j :: 0 <= j < k ==> r[j] == s[j]
    ensures forall j :: k < j < |r| ==> r[j] == s[j - 1]
    ensures multiset(r) == multiset(s) + multiset{x}
  {
    assert s == s[..k] + s[k..];
    s[..k] + [x] + s[k..]
  }

  /** `s.remove(at: k)` followed by `s.insert(x, at: 0)`. */
  function MoveToFront<T>(s: seq<T>, k: nat, x: T): (r: seq<T>)
    requires k < |s|
    ensures |r| == |s| && r[0] == x
    ensures forall j :: 0 < j <= k ==> r[j] == s[j - 1]
    ensures forall j :: k < j < |r| ==> r[j] == s[j]
    ensures multiset(r) == multiset(s) - multiset{s[k]} + multiset{x}
  {
    assert s == s[..k] + [s[k]] + s[k + 1..];
    [x] + s[..k] + s[k + 1..]
  }

  /** `q.firstIndex(of: song)` for an optional song: Song's `==` compares ids. */
  function FirstIndexOf(q: seq<Song>, song: Option<Song>): (r: Option<nat>)
    ensures r.Some? ==> song.Some? && r.value < |q| && SameSong(q[r.value], song.value)
                        && forall j :: 0 <= j < r.value ==> !SameSong(q[j], song.value)
    ensures r.None? ==> song.None? || forall j :: 0 <= j < |q| ==> !SameSong(q[j], song.value)
  {
    if song.Some? then FirstIndexWhere(q, HasId(song.value.id)) else None
  }

  /** Every entry of `q` with the id of `song` is `song` itself. */
  ghost predicate OnlyCopy(q: seq<Song>, song: Song) {
    forall s | s in q :: SameSong(s, song) ==> s == song
  }

  /** What an event asks of the transport. */
  datatype Reaction = PausePlayback | ResumePlayback | NoReaction

  /** Raw values of `AVAudioSession.InterruptionType` and `InterruptionOptions`. */
  const InterruptionEnded: nat := 0
  const InterruptionBegan: nat := 1
  const ShouldResumeBit: nat := 1
  /** Raw value of `AVAudioSession.RouteChangeReason.oldDeviceUnavailable`. */
  const OldDeviceUnavailable: nat := 2

  /**
   * `handleInterruption`: the type and options entries of the notification
   * (`None` when missing or not a `UInt`).  A beginning interruption pauses;
   * an ended one resumes only when its options carry `shouldResume`; anything
   * else is ignored.
   */
  function InterruptionReaction(typeValue: Option<nat>, optionsValue: Option<nat>): (r: Reaction)
    ensures r == PausePlayback <==> typeValue == Some(InterruptionBegan)
    ensures r == ResumePlayback <==>
              typeValue == Some(InterruptionEnded) && optionsValue.Some? && optionsValue.value % 2 == ShouldResumeBit
  {
    if typeValue == Some(InterruptionBegan) then PausePlayback
    else if typeValue == Some(InterruptionEnded) then
      if optionsValue.Some? && optionsValue.value % 2 == ShouldResumeBit then ResumePlayback else NoReaction
    else NoReaction
  }

  /** `handleRouteChange`: only the loss of the old output device (headphones unplugged) pauses; nothing resumes. */
  function RouteChangeReaction(reasonValue: Option<nat>): (r: Reaction)
    ensures r != ResumePlayback
    ensures r == PausePlayback <==> reasonValue == Some(OldDeviceUnavailable)
  {
    if reasonValue == Some(OldDeviceUnavailable) then PausePlayback else NoReaction
  }

  class AudioPlayer {
    var queue: seq<Song>
    var originalQueue: seq<Song>
    var currentIndex: int
    var currentSong: Option<Song>
    var isPlaying: bool
    var currentTime: real
    var duration: real
    var repeatMode: RepeatMode
    var isShuffled: bool
    var isSeeking: bool

    ghost function QueuePart(): (seq<Song>, seq<Song>, int, Option<Song>)
      reads this
    {
      (queue, originalQueue, currentIndex, currentSong)
    }

    ghost function TransportPart(): (bool, real, real, bool)
      reads this
    {
      (isPlaying, currentTime, duration, isSeeking)
    }

    ghost function ModePart(): (RepeatMode, bool)
      reads this
    {
      (repeatMode, isShuffled)
    }

    /** The current song is the one at `currentIndex`, by the id comparison Song's `==` makes. */
    ghost predicate Positioned()
      reads this
    {
      0 <= currentIndex < |queue| && currentSong.Some? && SameSong(queue[currentIndex], currentSong.value)
    }

    /** The song at `currentIndex` has just been loaded and is playing from the start. */
    ghost predicate StartedAtIndex()
      reads this
    {
      0 <= currentIndex < |queue| && currentSong == Some(queue[currentIndex])
      && duration == queue[currentIndex].duration && currentTime == 0.0 && isPlaying && !isSeeking
    }

    /** What `playNext` does: nothing on an empty queue, else load and play the next position, wrapping. */
    twostate predicate Advanced()
      reads this
    {
      queue == old(queue) && originalQueue == old(originalQueue) && ModePart() == old(ModePart())
      && if old(queue) == [] then QueuePart() == old(QueuePart()) && TransportPart() == old(TransportPart())
         else currentIndex == SwiftRem(old(currentIndex) + 1, |queue|) && StartedAtIndex()
    }

    /** What a seek to the start does: the position stays, time is 0 and a seek is in flight. */
    twostate predicate Rewound()
      reads this
    {
      QueuePart() == old(QueuePart()) && ModePart() == old(ModePart())
      && duration == old(duration) && currentTime == 0.0 && isSeeking
    }

    constructor()
      ensures queue == [] && originalQueue == [] && currentIndex == 0 && currentSong.None?
      ensures !isPlaying && currentTime == 0.0 && duration == 0.0 && !isSeeking
      ensures repeatMode == Off && !isShuffled
    {
      queue := [];
      originalQueue := [];
      currentIndex := 0;
      currentSong := None;
      isPlaying := false;
      currentTime := 0.0;
      duration := 0.0;
      repeatMode := Off;
      isShuffled := false;
      isSeeking := false;
    }

    /** `playSong(_:in:at:)`; the index is not checked against the queue. */
    method PlaySong(song: Song, newQueue: seq<Song>, index: int)
      modifies this
      ensures queue == newQueue && originalQueue == newQueue
      ensures currentIndex == index && currentSong == Some(song)
      ensures duration == song.duration && currentTime == 0.0 && isPlaying && !isSeeking
      ensures ModePart() == old(ModePart())
      ensures 0 <= index < |newQueue| && SameSong(newQueue[index], song) ==> Positioned()
    {
      queue := newQueue;
      originalQueue := newQueue;
      currentIndex := index;
      currentSong := Some(song);
      SetupPlayer(song);
      Play();
    }

    /** `setupPlayer(with:)`: the new song's duration, no seek in flight, time back to 0. */
    method SetupPlayer(song: Song)
      modifies this
      ensures duration == song.duration && currentTime == 0.0 && !isSeeking
      ensures isPlaying == old(isPlaying)
      ensures QueuePart() == old(QueuePart()) && ModePart() == old(ModePart())
    {
      duration := song.duration;
      isSeeking := false;
      currentTime := 0.0;
    }

    method Play()
      modifies this
      ensures isPlaying
      ensures currentTime == old(currentTime) && duration == old(duration) && isSeeking == old(isSeeking)
      ensures QueuePart() == old(QueuePart()) && ModePart() == old(ModePart())
    {
      isPlaying := true;
    }

    method Pause()
      modifies this
      ensures !isPlaying
      ensures currentTime == old(currentTime) && duration == old(duration) && isSeeking == old(isSeeking)
      ensures QueuePart() == old(QueuePart()) && ModePart() == old(ModePart())
    {
      isPlaying := false;
    }

    method TogglePlayPause()
      modifies this
      ensures isPlaying == !old(isPlaying)
      ensures currentTime == old(currentTime) && duration == old(duration) && isSeeking == old(isSeeking)
      ensures QueuePart() == old(QueuePart()) && ModePart() == old(ModePart())
    {
      if isPlaying {
        Pause();
      } else {
        Play();
      }
    }

    /**
     * `playNext()`.  Swift's `%` keeps the sign of a negative index, and a
     * negative subscript traps: the index must not be below -1 unless the
     * step lands on 0.  `currentIndex + 1` traps on overflow at `Int.max`.
     */
    method PlayNext()
      requires queue != [] ==> currentIndex < IntMax && SwiftRem(currentIndex + 1, |queue|) >= 0
      modifies this
      ensures Advanced()
      ensures old(queue) != [] ==> Positioned()
      ensures old(queue) != [] && old(currentIndex) == |queue| - 1 ==> currentIndex == 0
    {
      if queue == [] {
        return;
      }
      currentIndex := SwiftRem(currentIndex + 1, |queue|);
      currentSong := Some(queue[currentIndex]);
      SetupPlayer(queue[currentIndex]);
      Play();
      if 0 <= old(currentIndex) < |queue| {
        StepsWrap(old(currentIndex), |queue|);
      }
    }

    /**
     * `playNext(_:)`: start a one-song queue, or insert the song right after
     * the current one.  `insert(_:at:)` traps below 0, and `currentIndex + 1`
     * traps on overflow at `Int.max`.
     */
    method PlayNextSong(song: Song)
      requires queue != [] ==> -1 <= currentIndex < IntMax
      modifies this
      ensures old(queue) == [] ==>
                queue == [song] && originalQueue == [song] && currentIndex == 0 && currentSong == Some(song)
                && StartedAtIndex() && ModePart() == old(ModePart())
      ensures old(queue) != [] ==>
                queue == InsertAt(old(queue), song, InsertionPoint(old(currentIndex), |old(queue)|))
                && originalQueue == old(originalQueue) && currentIndex == old(currentIndex)
                && currentSong == old(currentSong)
                && TransportPart() == old(TransportPart()) && ModePart() == old(ModePart())
      ensures old(Positioned()) ==> Positioned()
    {
      if queue == [] {
        PlaySong(song, [song], 0);
      } else {
        queue := InsertAt(queue, song, InsertionPoint(currentIndex, |queue|));
      }
    }

    /** `playLater(_:)`: start a one-song queue, or append the song. */
    method PlayLater(song: Song)
      modifies this
      ensures old(queue) == [] ==>
                queue == [song] && originalQueue == [song] && currentIndex == 0 && currentSong == Some(song)
                && StartedAtIndex() && ModePart() == old(ModePart())
      ensures old(queue) != [] ==>
                queue == old(queue) + [song]
                && originalQueue == old(originalQueue) && currentIndex == old(currentIndex)
                && currentSong == old(currentSong)
                && TransportPart() == old(TransportPart()) && ModePart() == old(ModePart())
      ensures old(Positioned()) ==> Positioned()
    {
      if queue == [] {
        PlaySong(song, [song], 0);
      } else {
        queue := queue + [song];
      }
    }

    /**
     * `playPrevious()`: more than three seconds in, restart the song;
     * otherwise step back one position, wrapping the first to the last.
     * `currentIndex - 1 + queue.count` traps on overflow at either end of `Int`.
     */
    method PlayPrevious()
      requires queue != [] && currentTime <= 3.0 ==>
                 IntMin < currentIndex && currentIndex - 1 + |queue| <= IntMax
                 && SwiftRem(currentIndex - 1 + |queue|, |queue|) >= 0
      modifies this
      ensures old(queue) == [] ==>
                QueuePart() == old(QueuePart()) && TransportPart() == old(TransportPart()) && ModePart() == old(ModePart())
      ensures old(queue) != [] && old(currentTime) > 3.0 ==> Rewound() && isPlaying == old(isPlaying)
      ensures old(queue) != [] && old(currentTime) <= 3.0 ==>
                queue == old(queue) && originalQueue == old(originalQueue) && ModePart() == old(ModePart())
                && currentIndex == SwiftRem(old(currentIndex) - 1 + |queue|, |queue|)
                && StartedAtIndex() && Positioned()
      ensures old(queue) != [] && old(currentTime) <= 3.0 && old(currentIndex) == 0 ==> currentIndex == |queue| - 1
    {
      if queue == [] {
        return;
      }
      if currentTime > 3.0 {
        Seek(0.0);
      } else {
        currentIndex := SwiftRem(currentIndex - 1 + |queue|, |queue|);
        currentSong := Some(queue[currentIndex]);
        SetupPlayer(queue[currentIndex]);
        Play();
        if old(currentIndex) == 0 {
          StepsWrap(0, |queue|);
        }
      }
    }

    /** `seek(to:)`: the time moves at once and a seek is in flight until its completion runs. */
    method Seek(time: real)
      modifies this
      ensures currentTime == time && isSeeking
      ensures isPlaying == old(isPlaying) && duration == old(duration)
      ensures QueuePart() == old(QueuePart()) && ModePart() == old(ModePart())
    {
      isSeeking := true;
      currentTime := time;
    }

    /** The completion handler of `seek(to:)`. */
    method SeekCompleted()
      modifies this
      ensures !isSeeking
      ensures isPlaying == old(isPlaying) && currentTime == old(currentTime) && duration == old(duration)
      ensures QueuePart() == old(QueuePart()) && ModePart() == old(ModePart())
    {
      isSeeking := false;
    }

    /** The periodic time observer: it reports the player's time unless a seek is in flight. */
    method ObserverTick(time: real)
      modifies this
      ensures currentTime == if old(isSeeking) then old(currentTime) else time
      ensures isPlaying == old(isPlaying) && duration == old(duration) && isSeeking == old(isSeeking)
      ensures QueuePart() == old(QueuePart()) && ModePart() == old(ModePart())
    {
      if !isSeeking {
        currentTime := time;
      }
    }

    /**
     * What turning shuffle on does, given `shuffled`, the permutation of the
     * queue that stands for `shuffle()`'s random order: the first entry with
     * the current song's id is moved to the front and the position becomes
     * 0; when there is none, the shuffled queue is taken as it is and
     * `currentIndex` is left as it was.
     */
    twostate predicate ShuffledFrom(shuffled: seq<Song>)
      reads this
    {
      originalQueue == old(originalQueue) && currentSong == old(currentSong)
      && TransportPart() == old(TransportPart()) && repeatMode == old(repeatMode) && isShuffled
      && match FirstIndexOf(shuffled, currentSong)
         case Some(k) => queue == MoveToFront(shuffled, k, currentSong.value) && currentIndex == 0
         case None => queue == shuffled && currentIndex == old(currentIndex)
    }

    /** What turning shuffle off does: back to the queue `playSong` was given, at the current song's first position there if it has one. */
    twostate predicate Unshuffled()
      reads this
    {
      originalQueue == old(originalQueue) && currentSong == old(currentSong)
      && TransportPart() == old(TransportPart()) && repeatMode == old(repeatMode) && !isShuffled
      && queue == originalQueue
      && match FirstIndexOf(queue, currentSong)
         case Some(k) => currentIndex == k
         case None => currentIndex == old(currentIndex)
    }

    /** `toggleShuffle()`; `shuffled` is used only when shuffle is turned on. */
    method ToggleShuffle(shuffled: seq<Song>)
      requires !isShuffled ==> multiset(shuffled) == multiset(queue)
      modifies this
      ensures !old(isShuffled) ==> ShuffledFrom(shuffled)
      ensures !old(isShuffled) && (currentSong.None? || OnlyCopy(old(queue), currentSong.value)) ==>
                multiset(queue) == multiset(old(queue))
      ensures old(isShuffled) ==> Unshuffled()
      ensures FirstIndexOf(queue, currentSong).Some? ==> Positioned()
    {
      isShuffled := !isShuffled;
      if isShuffled {
        EnableShuffle(shuffled);
      } else {
        queue := originalQueue;
        var found := FirstIndexOf(queue, currentSong);
        if found.Some? {
          currentIndex := found.value;
        }
      }
    }

    method EnableShuffle(shuffled: seq<Song>)
      requires isShuffled && multiset(shuffled) == multiset(queue)
      modifies this
      ensures ShuffledFrom(shuffled)
      ensures currentSong.None? || OnlyCopy(old(queue), currentSong.value) ==> multiset(queue) == multiset(old(queue))
      ensures FirstIndexOf(queue, currentSong).Some? ==> Positioned()
    {
      var found := FirstIndexOf(shuffled, currentSong);
      if found.Some? {
        var k := found.value;
        var song := currentSong.value;
        if OnlyCopy(old(queue), song) {
          assert shuffled[k] in multiset(old(queue));
        }
        queue := MoveToFront(shuffled, k, song);
        currentIndex := 0;
      } else {
        queue := shuffled;
      }
    }

    method ToggleRepeat()
      modifies this
      ensures repeatMode == NextRepeat(old(repeatMode)) && isShuffled == old(isShuffled)
      ensures QueuePart() == old(QueuePart()) && TransportPart() == old(TransportPart())
    {
      match repeatMode
      case Off => repeatMode := All;
      case All => repeatMode := One;
      case One => repeatMode := Off;
    }

    /**
     * `playerDidFinishPlaying`: repeat-one restarts the song, repeat-all
     * advances, repeat-off advances unless the song was the last one, in
     * which case playback stops at the start of the song.
     */
    method PlayerDidFinishPlaying()
      requires (repeatMode == All || (repeatMode == Off && currentIndex < |queue| - 1)) && queue != [] ==>
                 currentIndex < IntMax && SwiftRem(currentIndex + 1, |queue|) >= 0
      modifies this
      ensures old(repeatMode) == One ==> Rewound() && isPlaying
      ensures old(repeatMode) == All ==> Advanced()
      ensures old(repeatMode) == Off && old(currentIndex) < |old(queue)| - 1 ==> Advanced()
      ensures old(repeatMode) == Off && 0 <= old(currentIndex) < |old(queue)| - 1 ==> currentIndex == old(currentIndex) + 1
      ensures old(repeatMode) == Off && old(currentIndex) >= |old(queue)| - 1 ==> Rewound() && !isPlaying
    {
      match repeatMode
      case One =>
        Seek(0.0);
        Play();
      case All =>
        PlayNext();
      case Off =>
        if currentIndex < |queue| - 1 {
          PlayNext();
          if 0 <= old(currentIndex) {
            StepsWrap(old(currentIndex), |queue|);
          }
        } else {
          Pause();
          Seek(0.0);
        }
    }

    /** `handleInterruption`, applying `InterruptionReaction`. */
    method HandleInterruption(typeValue: Option<nat>, optionsValue: Option<nat>)
      modifies this
      ensures InterruptionReaction(typeValue, optionsValue) == PausePlayback ==> !isPlaying
      ensures InterruptionReaction(typeValue, optionsValue) == ResumePlayback ==> isPlaying
      ensures InterruptionReaction(typeValue, optionsValue) == NoReaction ==> isPlaying == old(isPlaying)
      ensures currentTime == old(currentTime) && duration == old(duration) && isSeeking == old(isSeeking)
      ensures QueuePart() == old(QueuePart()) && ModePart() == old(ModePart())
    {
      match InterruptionReaction(typeValue, optionsValue)
      case PausePlayback => Pause();
      case ResumePlayback => Play();
      case NoReaction =>
    }

    /** `handleRouteChange`, applying `RouteChangeReaction`. */
    method HandleRouteChange(reasonValue: Option<nat>)
      modifies this
      ensures isPlaying == (old(isPlaying) && reasonValue != Some(OldDeviceUnavailable))
      ensures currentTime == old(currentTime) && duration == old(duration) && isSeeking == old(isSeeking)
      ensures QueuePart() == old(QueuePart()) && ModePart() == old(ModePart())
    {
      if RouteChangeReaction(reasonValue) == PausePlayback {
        Pause();
      }
    }
  }
}
