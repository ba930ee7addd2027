/** The track list and player (components/MusicPlayer.tsx). State: a nullable
    current index into the displayed list and an `isPlaying` flag. The two
    effects are methods the caller invokes after the state they depend on
    changes; the audio element is an output (`AudioCommand`) plus an input
    event for a rejected `play()` and one for the end of a track. */
module MusicPlayer {
  import opened Types

  /** At most this many tracks are displayed. */
  const DISPLAY_LIMIT: nat := 12

  /** `tracks.slice(0, 12)`: the first min(12, |tracks|) tracks, in order. */
  function DisplayTracks(tracks: seq<MusicTrack>): (d: seq<MusicTrack>)
    ensures |d| == if |tracks| < DISPLAY_LIMIT then |tracks| else DISPLAY_LIMIT
    ensures forall i :: 0 <= i < |d| ==> d[i] == tracks[i]
  {
    if |tracks| <= DISPLAY_LIMIT then tracks else tracks[..DISPLAY_LIMIT]
  }

  /** `displayTracks[currentTrackIndex]`, or nothing when no index is set or
      the index is past the end of the displayed list (an undefined entry). */
  function CurrentTrack(tracks: seq<MusicTrack>, index: Option<nat>): (t: Option<MusicTrack>)
    ensures t.Some? <==> index.Some? && index.value < |tracks| && index.value < DISPLAY_LIMIT
    ensures t.Some? ==> t.value == tracks[index.value]
  {
    var d := DisplayTracks(tracks);
    if index.Some? && index.value < |d| then Some(d[index.value]) else None
  }

  /** The `onEnded` step `(i + 1) % n`: the next index, the last one wrapping
      to the first; the result is always a valid index. */
  function NextIndex(i: nat, n: nat): (j: nat)
    requires n > 0
    ensures j < n
    ensures i < n ==> j == if i == n - 1 then 0 else i + 1
  {
    (i + 1) % n
  }

  /** The index after `k` track endings. */
  function Advance(i: nat, n: nat, k: nat): nat
    requires n > 0
  {
    if k == 0 then i else NextIndex(Advance(i, n, k - 1), n)
  }

  /** While the end of the list is not reached, each ending moves one track on. */
  lemma {:induction false} AdvanceWithinRun(i: nat, n: nat, k: nat)
    requires n > 0 && i + k < n
    ensures Advance(i, n, k) == i + k
  {
    if k > 0 {
      AdvanceWithinRun(i, n, k - 1);
    }
  }

  /** Endings compose: `k1` endings followed by `k2` endings are `k1 + k2`. */
  lemma {:induction false} AdvanceCompose(i: nat, n: nat, k1: nat, k2: nat)
    requires n > 0
    ensures Advance(i, n, k1 + k2) == Advance(Advance(i, n, k1), n, k2)
  {
    if k2 > 0 {
      AdvanceCompose(i, n, k1, k2 - 1);
    }
  }

  /** From any valid index, the track after the last one is the first. */
  lemma WrapsToFirst(i: nat, n: nat)
    requires n > 0 && i < n
    ensures Advance(i, n, n - i) == 0
  {
    AdvanceWithinRun(i, n, n - 1 - i);
    assert n - i == (n - 1 - i) + 1;
  }

  /** After as many endings as there are displayed tracks, playback is back
      at the track it started from. */
  lemma FullCycle(i: nat, n: nat)
    requires n > 0 && i < n
    ensures Advance(i, n, n) == i
  {
    WrapsToFirst(i, n);
    AdvanceCompose(i, n, n - i, i);
    AdvanceWithinRun(0, n, i);
  }

  /** Track `j` becomes current within `n` endings from `i`. */
  ghost predicate ReachedWithin(i: nat, n: nat, j: nat)
    requires n > 0
  {
    exists k :: 0 <= k < n && Advance(i, n, k) == j
  }

  /** Automatic advance visits every displayed track, whatever the start. */
  lemma VisitsEveryTrack(i: nat, n: nat, j: nat)
    requires n > 0 && i < n && j < n
    ensures ReachedWithin(i, n, j)
  {
    if j >= i {
      AdvanceWithinRun(i, n, j - i);
      assert Advance(i, n, j - i) == j;
    } else {
      WrapsToFirst(i, n);
      AdvanceCompose(i, n, n - i, j);
      AdvanceWithinRun(0, n, j);
      assert Advance(i, n, n - i + j) == j;
    }
  }

  /** What the play/pause effect asks of the audio element. The element is
      rendered only while there is a current track, so without one there is
      no element to address. */
  datatype AudioCommand = Play(src: string) | Pause | NoAudio

  class Player {
    var currentTrackIndex: Option<nat>
    var isPlaying: bool

    /** MusicPlayer.tsx:13-14 */
    constructor ()
      ensures currentTrackIndex == None && !isPlaying
    {
      currentTrackIndex := None;
      isPlaying := false;
    }

    /** The track the mini-player shows, if any (MusicPlayer.tsx:18, 111). */
    function Current(tracks: seq<MusicTrack>): Option<MusicTrack>
      reads this
    {
      CurrentTrack(tracks, currentTrackIndex)
    }

    /** The play/pause effect (MusicPlayer.tsx:24-35): play the current
        track's source only when `isPlaying` holds and a track is current;
        otherwise pause the element when there is one. */
    function PlaybackCommand(tracks: seq<MusicTrack>): (c: AudioCommand)
      reads this
      ensures c.Play? <==> isPlaying && Current(tracks).Some?
      ensures c.Play? ==> c.src == tracks[currentTrackIndex.value].url
      ensures c == Pause <==> !isPlaying && Current(tracks).Some?
      ensures c == NoAudio <==> Current(tracks).None?
    {
      match Current(tracks)
      case None => NoAudio
      case Some(t) => if isPlaying then Play(t.url) else Pause
    }

    /** `handleTrackSelect(idx)` (MusicPlayer.tsx:37-47): the current track
        toggles play/pause; another track becomes current and starts. The
        value reported to the parent is the new `isPlaying`. */
    method HandleTrackSelect(idx: nat) returns (report: bool)
      modifies this
      ensures old(currentTrackIndex) == Some(idx) ==>
        currentTrackIndex == old(currentTrackIndex) && isPlaying == !old(isPlaying)
      ensures old(currentTrackIndex) != Some(idx) ==> currentTrackIndex == Some(idx) && isPlaying
      ensures report == isPlaying
    {
      if currentTrackIndex == Some(idx) {
        var newState := !isPlaying;
        isPlaying := newState;
        report := newState;
      } else {
        currentTrackIndex := Some(idx);
        isPlaying := true;
        report := true;
      }
    }

    /** The external-control effect (MusicPlayer.tsx:20-22), run when the
        parent's flag changes: a defined value overwrites `isPlaying`. */
    method ExternalControlChanged(externalControl: Option<bool>)
      modifies this
      ensures isPlaying == if externalControl.Some? then externalControl.value else old(isPlaying)
      ensures currentTrackIndex == old(currentTrackIndex)
    {
      if externalControl.Some? {
        isPlaying := externalControl.value;
      }
    }

    /** A rejected `play()` (MusicPlayer.tsx:27-30): playback is off and
        `false` is reported to the parent. */
    method PlayRejected() returns (report: bool)
      modifies this
      ensures !isPlaying && !report
      ensures currentTrackIndex == old(currentTrackIndex)
    {
      isPlaying := false;
      report := false;
    }

    /** `onEnded` (MusicPlayer.tsx:113). The audio element exists only while a
        track is current, so only then can it end. The next displayed track
        becomes current, wrapping at the end; `isPlaying` is untouched. */
    method OnEnded(tracks: seq<MusicTrack>)
      requires Current(tracks).Some?
      modifies this
      ensures currentTrackIndex == Some(NextIndex(old(currentTrackIndex).value, |DisplayTracks(tracks)|))
      ensures Current(tracks).Some?
      ensures isPlaying == old(isPlaying)
    {
      var n := |DisplayTracks(tracks)|;
      currentTrackIndex := Some((currentTrackIndex.value + 1) % n);
    }

    /** The mini-player button (MusicPlayer.tsx:122) flips `isPlaying` and,
        unlike the list, reports nothing to the parent. */
    method ToggleFromMiniPlayer()
      modifies this
      ensures isPlaying == !old(isPlaying)
      ensures currentTrackIndex == old(currentTrackIndex)
    {
      isPlaying := !isPlaying;
    }
  }

  /** Selecting track `a` and then a different displayed track `b`: the one
      audio element is told to play `b`'s source, and `true` is reported. */
  method SwitchTrackScenario(tracks: seq<MusicTrack>, a: nat, b: nat)
    returns (command: AudioCommand, report: bool)
    requires a != b && b < |tracks| && b < DISPLAY_LIMIT
    ensures command == Play(tracks[b].url) && report
  {
    var player := new Player();
    var _ := player.HandleTrackSelect(a);
    report := player.HandleTrackSelect(b);
    command := player.PlaybackCommand(tracks);
  }

  /** With a single displayed track, the end of the track sets the index it
      already has: the player's state is the same after the ending as before
      it, so React skips the re-render and the play/pause effect does not run
      again. */
  method SingleTrackEndScenario(tracks: seq<MusicTrack>)
    returns (before: (Option<nat>, bool), after: (Option<nat>, bool))
    requires |tracks| == 1
    ensures before == (Some(0), true)
    ensures after == before
  {
    var player := new Player();
    var _ := player.HandleTrackSelect(0);
    before := (player.currentTrackIndex, player.isPlaying);
    player.OnEnded(tracks);
    after := (player.currentTrackIndex, player.isPlaying);
  }
}
