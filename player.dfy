/** The playlist and transport controller of the player's main component.

    The controller owns a handful of state cells (the playlist, the current
    index, the play intent, the loading flag, the error slot, the volume and
    the auto-play setting) and changes them in response to user actions and
    to notifications of the media element. `PlayerState` is the value of all
    those cells at one moment; the functions over it below say what each
    action and notification does, and the class `AudioPlayer` holds the cells
    as fields and performs the same steps in place. */
module Player {
  import opened Playlist
  import opened Volume

  datatype Option<T> = None | Some(value: T)

  /** What the error slot can hold. The user interface renders each with a
      localised prefix; only the kind and the track name are modelled. */
  datatype PlayerError =
    | CouldNotLoadAudio(trackName: string)  // the media element reported `error`
    | PlaybackError(trackName: string)      // `play()` was rejected after loading
    | LoadError(trackName: string)          // resolving the track's path threw
    | FileSelectionError                    // the file picker threw

  /** Notifications of the media element the controller listens to. */
  datatype MediaEvent =
    | LoadStart
    | CanPlay
    | LoadedMetadata
    | TimeUpdate
    | MediaError
    | Ended
    | Played   // the element's `play` notification
    | Paused   // the element's `pause` notification

  /** What the controller asks of the media element, in the order asked. */
  datatype MediaCommand =
    | Load(filePath: string)  // set the source to the track's file and load it
    | Play
    | Pause
    | Rewind                  // move the playback position to 0

  /** The outcome of the file picker. */
  datatype PickResult =
    | Picked(paths: seq<string>)
    | Cancelled
    | PickFailed

  /** The controller's state cells, plus the media element's source and the
      commands issued to it so far. */
  datatype PlayerState = PlayerState(
    tracks: seq<Track>,
    currentTrackIndex: int,
    isPlaying: bool,
    isLoading: bool,
    audioError: Option<PlayerError>,
    volume: int,
    autoPlay: bool,
    src: Option<string>,
    commands: seq<MediaCommand>)

  const InitialVolume := 70

  /** The state when the component is first shown. */
  const Initial := PlayerState([], 0, false, false, None, InitialVolume, true, None, [])

  /** The controller's invariant: the index designates a track whenever
      there is one and is 0 otherwise, and the volume is a percentage. Every
      step below keeps it. The program keeps it only while its media
      listeners see the current state: `StaleEnded` shows a stale `ended`
      listener breaking it. */
  predicate Inv(s: PlayerState) {
    && MinVolume <= s.volume <= MaxVolume
    && 0 <= s.currentTrackIndex
    && (s.tracks == [] ==> s.currentTrackIndex == 0)
    && (s.tracks != [] ==> s.currentTrackIndex < |s.tracks|)
  }

  /** There is a current track. */
  predicate HasTrack(s: PlayerState) {
    0 <= s.currentTrackIndex < |s.tracks|
  }

  /** Play/pause and restart do nothing while this holds. */
  predicate TransportBlocked(s: PlayerState) {
    s.audioError.Some? || !HasTrack(s)
  }

  lemma InitialInv()
    ensures Inv(Initial) && !HasTrack(Initial)
  {
  }

  // ---------------------------------------------------------------------
  // Track navigation

  /** The next track, wrapping from the last to the first; playing starts. */
  function Next(s: PlayerState): (t: PlayerState)
    requires Inv(s)
    ensures Inv(t)
    ensures s.tracks == [] ==> t == s
    ensures s.tracks != [] ==>
              t == s.(currentTrackIndex := (s.currentTrackIndex + 1) % |s.tracks|, isPlaying := true)
  {
    if |s.tracks| == 0 then s
    else
      var c := s.currentTrackIndex;
      var nextIndex := if c == |s.tracks| - 1 then 0 else c + 1;
      ModUnique(c + 1, |s.tracks|, if c == |s.tracks| - 1 then 1 else 0, nextIndex);
      s.(currentTrackIndex := nextIndex, isPlaying := true)
  }

  /** The previous track, wrapping from the first to the last; playing starts. */
  function Previous(s: PlayerState): (t: PlayerState)
    requires Inv(s)
    ensures Inv(t)
    ensures s.tracks == [] ==> t == s
    ensures s.tracks != [] ==>
              t == s.(currentTrackIndex := (s.currentTrackIndex - 1 + |s.tracks|) % |s.tracks|,
                      isPlaying := true)
  {
    if |s.tracks| == 0 then s
    else
      var c := s.currentTrackIndex;
      var prevIndex := if c == 0 then |s.tracks| - 1 else c - 1;
      ModUnique(c - 1 + |s.tracks|, |s.tracks|, if c == 0 then 0 else 1, prevIndex);
      s.(currentTrackIndex := prevIndex, isPlaying := true)
  }

  /** Previous and next undo each other, up to starting playback. */
  lemma PreviousUndoesNext(s: PlayerState)
    requires Inv(s)
    ensures Previous(Next(s)) == Next(s).(currentTrackIndex := s.currentTrackIndex)
    ensures Next(Previous(s)) == Previous(s).(currentTrackIndex := s.currentTrackIndex)
    ensures s.tracks != [] ==> Previous(Next(s)) == s.(isPlaying := true)
  {
  }

  /** `Next` applied `k` times. */
  function NextTimes(s: PlayerState, k: nat): (t: PlayerState)
    requires Inv(s)
    ensures Inv(t) && t.tracks == s.tracks
  {
    if k == 0 then s else Next(NextTimes(s, k - 1))
  }

  lemma MulNonneg(a: int, b: int)
    requires a >= 0 && b >= 0
    ensures a * b >= 0
  {
  }

  /** The only multiple of `n` strictly between `-n` and `n` is 0. */
  lemma MulBetween(m: int, n: int)
    requires n > 0 && -n < m * n < n
    ensures m == 0
  {
    if m >= 1 {
      assert m * n == (m - 1) * n + n;
      MulNonneg(m - 1, n);
    }
  }

  /** Euclidean remainders are unique. */
  lemma ModUnique(x: int, n: int, q: int, r: int)
    requires n > 0 && 0 <= r < n && x == q * n + r
    ensures x % n == r
  {
    var q', r' := x / n, x % n;
    assert x == q' * n + r';
    assert (q - q') * n == r' - r;
    MulBetween(q - q', n);
  }

  lemma ModSucc(a: nat, n: nat)
    requires n > 0
    ensures (a % n + 1) % n == (a + 1) % n
  {
    var q, r := a / n, a % n;
    assert a == q * n + r;
    if r + 1 == n {
      assert a + 1 == (q + 1) * n + 0;
      ModUnique(a + 1, n, q + 1, 0);
    } else {
      ModUnique(a + 1, n, q, r + 1);
    }
  }

  lemma NextStep(x: int, a: nat, n: nat)
    requires n > 0 && x == a % n
    ensures (x + 1) % n == (a + 1) % n
  {
    ModSucc(a, n);
  }

  /** After `k` steps forward the index has moved by `k` around the list. */
  lemma {:induction false} NextTimesIndex(s: PlayerState, k: nat)
    requires Inv(s) && s.tracks != []
    ensures NextTimes(s, k).currentTrackIndex == (s.currentTrackIndex + k) % |s.tracks|
  {
    if k == 0 {
      ModUnique(s.currentTrackIndex, |s.tracks|, 0, s.currentTrackIndex);
    } else {
      var p := NextTimes(s, k - 1);
      NextTimesIndex(s, k - 1);
      assert p.tracks == s.tracks;
      assert NextTimes(s, k) == Next(p);
      assert Next(p).currentTrackIndex == (p.currentTrackIndex + 1) % |s.tracks|;
      NextStep(p.currentTrackIndex, s.currentTrackIndex + k - 1, |s.tracks|);
    }
  }

  /** Stepping forward once per track comes back to the starting track. */
  lemma {:induction false} NextFullCycle(s: PlayerState)
    requires Inv(s) && s.tracks != []
    ensures NextTimes(s, |s.tracks|).currentTrackIndex == s.currentTrackIndex
  {
    NextTimesIndex(s, |s.tracks|);
    ModUnique(s.currentTrackIndex + |s.tracks|, |s.tracks|, 1, s.currentTrackIndex);
  }

  /** Choosing a track from the playlist makes it current and starts playing. */
  function Select(s: PlayerState, index: int): (t: PlayerState)
    requires Inv(s) && 0 <= index < |s.tracks|
    ensures Inv(t) && HasTrack(t) && t.tracks[t.currentTrackIndex] == s.tracks[index]
    ensures t.isPlaying && t.tracks == s.tracks && t.audioError == s.audioError
    ensures t == s.(currentTrackIndex := index, isPlaying := true)
  {
    s.(currentTrackIndex := index, isPlaying := true)
  }

  // ---------------------------------------------------------------------
  // Playlist edits

  /** Removal of the track at `r`: the list loses exactly that entry, the
      current index is re-targeted, and playing stops only when the list
      becomes empty. */
  function Remove(s: PlayerState, r: int): (t: PlayerState)
    requires Inv(s) && 0 <= r < |s.tracks|
    ensures Inv(t)
    ensures t.tracks == s.tracks[..r] + s.tracks[r + 1..]
    ensures t.isPlaying == (s.isPlaying && t.tracks != [])
    ensures t == s.(tracks := t.tracks, currentTrackIndex := t.currentTrackIndex, isPlaying := t.isPlaying)
  {
    RemoveIndexAt(s.tracks, r);
    var newTracks := RemoveIndex(s.tracks, r);
    var c := s.currentTrackIndex;
    var u := s.(tracks := newTracks);
    if r == c then
      if |newTracks| == 0 then u.(currentTrackIndex := 0, isPlaying := false)
      else if r >= |newTracks| then u.(currentTrackIndex := |newTracks| - 1)
      else u
    else if r < c then u.(currentTrackIndex := c - 1)
    else u
  }

  /** Removing a track other than the current one keeps the same track
      current: the index moves down by one when the removed track was before
      it and stays put when it was after it. */
  lemma RemoveOtherKeepsCurrent(s: PlayerState, r: int)
    requires Inv(s) && 0 <= r < |s.tracks| && r != s.currentTrackIndex
    ensures var t := Remove(s, r);
            && HasTrack(t)
            && t.tracks[t.currentTrackIndex] == s.tracks[s.currentTrackIndex]
            && (r < s.currentTrackIndex ==> t.currentTrackIndex == s.currentTrackIndex - 1)
            && (r > s.currentTrackIndex ==> t.currentTrackIndex == s.currentTrackIndex)
  {
    RemoveIndexAt(s.tracks, r);
  }

  /** Removing the current track: when it was the only one, the list is
      empty, the index 0 and playing stops; when it was in the last slot, the
      new last track becomes current; otherwise the index stays and now
      names the track that followed. */
  lemma RemoveCurrent(s: PlayerState)
    requires Inv(s) && s.tracks != []
    ensures var c, t := s.currentTrackIndex, Remove(s, s.currentTrackIndex);
            && (|s.tracks| == 1 ==> t.tracks == [] && t.currentTrackIndex == 0 && !t.isPlaying)
            && (|s.tracks| > 1 && c == |s.tracks| - 1 ==>
                  t.currentTrackIndex == |t.tracks| - 1 && t.isPlaying == s.isPlaying)
            && (c < |s.tracks| - 1 ==>
                  t.currentTrackIndex == c && t.tracks[c] == s.tracks[c + 1] && t.isPlaying == s.isPlaying)
  {
    RemoveIndexAt(s.tracks, s.currentTrackIndex);
  }

  /** Emptying the playlist: no track, index 0, stopped, no error. */
  function Clear(s: PlayerState): (t: PlayerState)
    requires Inv(s)
    ensures Inv(t) && !HasTrack(t)
    ensures t.tracks == [] && t.currentTrackIndex == 0 && !t.isPlaying && t.audioError == None
    ensures t.volume == s.volume && t.autoPlay == s.autoPlay && t.isLoading == s.isLoading
    ensures t.src == s.src && t.commands == s.commands
  {
    s.(tracks := [], currentTrackIndex := 0, isPlaying := false, audioError := None)
  }

  /** The result of clearing does not depend on the playlist, the index, the
      play intent or the error that were there before. */
  lemma ClearForgetsPlayback(s1: PlayerState, s2: PlayerState)
    requires Inv(s1) && Inv(s2)
    requires s1.volume == s2.volume && s1.autoPlay == s2.autoPlay && s1.isLoading == s2.isLoading
    requires s1.src == s2.src && s1.commands == s2.commands
    ensures Clear(s1) == Clear(s2)
    ensures Clear(Clear(s1)) == Clear(s1)
  {
  }

  /** Importing: the picked tracks are appended, and a picker failure only
      records the error. */
  function Import(s: PlayerState, pick: PickResult): (t: PlayerState)
    requires Inv(s)
    ensures Inv(t)
    ensures pick.PickFailed? ==> t == s.(audioError := Some(FileSelectionError))
    ensures pick.Cancelled? ==> t == s
    ensures pick.Picked? ==> t == s.(tracks := t.tracks) && |t.tracks| == |s.tracks| + |pick.paths|
  {
    match pick
    case PickFailed => s.(audioError := Some(FileSelectionError))
    case Cancelled => s
    case Picked(paths) =>
      var newTracks := MakeTracks(paths, |s.tracks| + 1);
      var u := s.(tracks := s.tracks + newTracks);
      if |s.tracks| == 0 && |newTracks| > 0 then u.(currentTrackIndex := 0) else u
  }

  /** Importing keeps the existing tracks in place and the index where it
      was; when the list was empty, the first new track becomes current. */
  lemma {:induction false} ImportKeeps(s: PlayerState, paths: seq<string>)
    requires Inv(s)
    ensures var t := Import(s, Picked(paths));
            && t.tracks[..|s.tracks|] == s.tracks
            && t.currentTrackIndex == s.currentTrackIndex
            && (s.tracks == [] && paths != [] ==>
                  HasTrack(t) && t.currentTrackIndex == 0 && t.tracks[0].filePath == paths[0])
  {
    var t := Import(s, Picked(paths));
    var added := MakeTracks(paths, |s.tracks| + 1);
    assert t.tracks == s.tracks + added;
    if s.tracks == [] && paths != [] {
      assert t.tracks[0] == added[0];
    }
  }

  /** The picked path at position `i` becomes the track right after the
      `i` tracks before it: id `old length + i + 1`, named after the path,
      keeping the path. */
  lemma {:induction false} ImportAppendsAt(s: PlayerState, paths: seq<string>, i: int)
    requires Inv(s) && 0 <= i < |paths|
    ensures var t := Import(s, Picked(paths));
            && |s.tracks| + i < |t.tracks|
            && t.tracks[|s.tracks| + i] == Track(|s.tracks| + i + 1, TrackName(paths[i]), paths[i])
  {
    var t := Import(s, Picked(paths));
    var added := MakeTracks(paths, |s.tracks| + 1);
    assert t.tracks == s.tracks + added;
    assert t.tracks[|s.tracks| + i] == added[i];
  }

  // ---------------------------------------------------------------------
  // Guarded transport

  /** Play/pause: pauses the element when playing, otherwise asks to play;
      nothing happens while an error is shown or there is no track. */
  function Toggle(s: PlayerState): (t: PlayerState)
    requires Inv(s)
    ensures Inv(t)
    ensures TransportBlocked(s) ==> t == s
    ensures !TransportBlocked(s) ==> t.isPlaying == !s.isPlaying
    ensures !TransportBlocked(s) ==>
              t == s.(isPlaying := t.isPlaying,
                      commands := s.commands + (if s.isPlaying then [Pause] else []))
  {
    if s.audioError.Some? || !HasTrack(s) then s
    else if s.isPlaying then s.(commands := s.commands + [Pause], isPlaying := false)
    else s.(isPlaying := true)
  }

  /** Toggling twice restores the play intent. */
  lemma ToggleTwice(s: PlayerState)
    requires Inv(s)
    ensures Toggle(Toggle(s)).isPlaying == s.isPlaying
    ensures Toggle(Toggle(s)).tracks == s.tracks
  {
  }

  /** Restart ("repeat"): when playing, rewind to 0 and play again, which the
      element may reject; when not playing, ask to play. Guarded like
      `Toggle`. */
  function Restart(s: PlayerState, playRejected: bool): (t: PlayerState)
    requires Inv(s)
    ensures Inv(t)
    ensures TransportBlocked(s) ==> t == s
    ensures !TransportBlocked(s) && !(s.isPlaying && playRejected) ==> t.isPlaying
    ensures !TransportBlocked(s) && s.isPlaying ==>
              t == s.(commands := s.commands + [Rewind, Play], isPlaying := !playRejected)
    ensures !TransportBlocked(s) && !s.isPlaying ==> t == s.(isPlaying := true)
  {
    if s.audioError.Some? || !HasTrack(s) then s
    else if s.isPlaying then
      var u := s.(commands := s.commands + [Rewind, Play]);
      if playRejected then u.(isPlaying := false) else u
    else s.(isPlaying := true)
  }

  // ---------------------------------------------------------------------
  // Media notifications

  /** The name a load error shows: the current track's, or "Unknown" when
      there is no current track or its name is empty. */
  function ErrorTrackName(s: PlayerState): (name: string)
    ensures name != []
    ensures HasTrack(s) && s.tracks[s.currentTrackIndex].name != [] ==>
              name == s.tracks[s.currentTrackIndex].name
    ensures !(HasTrack(s) && s.tracks[s.currentTrackIndex].name != []) ==> name == "Unknown"
  {
    if HasTrack(s) && s.tracks[s.currentTrackIndex].name != [] then s.tracks[s.currentTrackIndex].name
    else "Unknown"
  }

  /** The effect of one notification of the media element. */
  function OnEvent(s: PlayerState, e: MediaEvent): (t: PlayerState)
    requires Inv(s)
    ensures Inv(t)
    ensures t.volume == s.volume && t.autoPlay == s.autoPlay && t.src == s.src && t.commands == s.commands
    ensures t.tracks == s.tracks
    ensures !(e.Ended? && s.autoPlay) ==> t.currentTrackIndex == s.currentTrackIndex
    ensures e.LoadStart? ==> t == s.(isLoading := true, audioError := None)
    ensures e.CanPlay? ==> t == s.(isLoading := false, audioError := None)
    ensures e.LoadedMetadata? ==> t == s.(isLoading := false)
    ensures e.TimeUpdate? ==> t == s
    ensures e.MediaError? ==>
              t == s.(isLoading := false, isPlaying := false,
                      audioError := Some(CouldNotLoadAudio(ErrorTrackName(s))))
    ensures e.Ended? && s.autoPlay ==> t == Next(s)
    ensures e.Ended? && !s.autoPlay ==> t == s.(isPlaying := false)
    ensures e.Played? ==> t == s.(isPlaying := true)
    ensures e.Paused? ==> t == s.(isPlaying := false)
  {
    match e
    case LoadStart => s.(isLoading := true, audioError := None)
    case CanPlay => s.(isLoading := false, audioError := None)
    case LoadedMetadata => s.(isLoading := false)
    case TimeUpdate => s
    case MediaError =>
      s.(isLoading := false, isPlaying := false,
         audioError := Some(CouldNotLoadAudio(ErrorTrackName(s))))
    case Ended => if s.autoPlay then Next(s) else s.(isPlaying := false)
    case Played => s.(isPlaying := true)
    case Paused => s.(isPlaying := false)
  }

  /** The `ended` listener as the program runs it when it was registered
      while the playlist had `seenLength` tracks: its `playNext` wraps only
      at the old last position. When the listener is fresh it agrees with
      `OnEvent`. */
  function StaleEnded(s: PlayerState, seenLength: int): (t: PlayerState)
    requires Inv(s)
    ensures seenLength == |s.tracks| ==> t == OnEvent(s, Ended)
    ensures t.tracks == s.tracks
  {
    if !s.autoPlay then s.(isPlaying := false)
    else if seenLength == 0 then s
    else
      var c := s.currentTrackIndex;
      s.(currentTrackIndex := if c == seenLength - 1 then 0 else c + 1, isPlaying := true)
  }

  /** Removing the last of three tracks while the second plays keeps the
      current track, so the `ended` listener is not registered again; when
      the second track then ends, the stale listener moves the index past
      the end of the two-track list. */
  lemma StaleEndedBreaksInv()
    ensures var before := Initial.(tracks := [Track(1, "a", "a"), Track(2, "b", "b"), Track(3, "c", "c")],
                                   currentTrackIndex := 1, isPlaying := true);
            var s := Remove(before, 2);
            && Inv(before) && Inv(s)
            && s.tracks[s.currentTrackIndex] == before.tracks[before.currentTrackIndex]
            && StaleEnded(s, |before.tracks|).currentTrackIndex == 2
            && !Inv(StaleEnded(s, |before.tracks|))
            && Inv(OnEvent(s, Ended))
  {
    var before := Initial.(tracks := [Track(1, "a", "a"), Track(2, "b", "b"), Track(3, "c", "c")],
                           currentTrackIndex := 1, isPlaying := true);
    RemoveOtherKeepsCurrent(before, 2);
  }

  /** After a load error, play/pause and restart are disabled and change
      nothing, while next/previous still move on. */
  lemma ErrorBlocksTransport(s: PlayerState, playRejected: bool)
    requires Inv(s)
    ensures var t := OnEvent(s, MediaError);
            && t.audioError == Some(CouldNotLoadAudio(ErrorTrackName(s)))
            && !t.isPlaying && !t.isLoading
            && Toggle(t) == t && Restart(t, playRejected) == t
            && (s.tracks != [] ==> Next(t).isPlaying)
  {
  }

  /** A load that starts and becomes playable ends with no spinner and no
      error, whatever the error was before. */
  lemma LoadStartThenCanPlay(s: PlayerState)
    requires Inv(s)
    ensures OnEvent(OnEvent(s, LoadStart), CanPlay) == s.(isLoading := false, audioError := None)
  {
  }

  // ---------------------------------------------------------------------
  // Effects run when the current track or the play intent change

  /** Loading the current track into the media element: the spinner is shown
      and the error cleared, the source is set and loaded, and if playing is
      wanted playback is requested; a rejected request stops playing and
      records a playback error. If resolving the path fails, a load error is
      recorded instead. Without a current track nothing happens. */
  function LoadTrack(s: PlayerState, resolveFailed: bool, playRejected: bool): (t: PlayerState)
    requires Inv(s)
    ensures Inv(t)
    ensures t.tracks == s.tracks && t.currentTrackIndex == s.currentTrackIndex
    ensures t.volume == s.volume && t.autoPlay == s.autoPlay
    ensures !HasTrack(s) ==> t == s
    ensures HasTrack(s) && resolveFailed ==>
              t == s.(isLoading := false,
                      audioError := Some(LoadError(s.tracks[s.currentTrackIndex].name)))
    ensures HasTrack(s) && !resolveFailed ==>
              var path := s.tracks[s.currentTrackIndex].filePath;
              && t.src == Some(path) && t.isLoading
              && t.commands == s.commands + [Load(path)] + (if s.isPlaying then [Play] else [])
              && t.isPlaying == (s.isPlaying && !playRejected)
              && (t.audioError == None <==> !(s.isPlaying && playRejected))
              && (t.audioError != None ==>
                    t.audioError == Some(PlaybackError(s.tracks[s.currentTrackIndex].name)))
  {
    if !HasTrack(s) then s
    else
      var track := s.tracks[s.currentTrackIndex];
      var u := s.(isLoading := true, audioError := None);
      if resolveFailed then u.(audioError := Some(LoadError(track.name)), isLoading := false)
      else
        var v := u.(src := Some(track.filePath), commands := u.commands + [Load(track.filePath)]);
        if v.isPlaying then
          var w := v.(commands := v.commands + [Play]);
          if playRejected then w.(isPlaying := false, audioError := Some(PlaybackError(track.name)))
          else w
        else v
  }

  /** Auto-play: while playing is wanted, no error is shown, there is a
      current track and the element has a source, playback is requested; a
      rejected request stops playing. */
  function AutoPlay(s: PlayerState, playRejected: bool): (t: PlayerState)
    requires Inv(s)
    ensures Inv(t)
    ensures !(s.isPlaying && s.audioError == None && HasTrack(s) && s.src.Some?) ==> t == s
    ensures s.isPlaying && s.audioError == None && HasTrack(s) && s.src.Some? ==>
              t == s.(commands := s.commands + [Play], isPlaying := !playRejected)
  {
    if s.isPlaying && s.audioError == None && HasTrack(s) && s.src.Some? then
      var u := s.(commands := s.commands + [Play]);
      if playRejected then u.(isPlaying := false) else u
    else s
  }

  /** Choosing a track and loading it clears any previous error, points the
      element at that track's file and asks it to play. */
  lemma SelectThenLoad(s: PlayerState, index: int)
    requires Inv(s) && 0 <= index < |s.tracks|
    ensures var t := LoadTrack(Select(s, index), false, false);
            && t.audioError == None && t.isLoading && t.isPlaying
            && t.src == Some(s.tracks[index].filePath)
            && t.commands == s.commands + [Load(s.tracks[index].filePath), Play]
  {
  }

  // ---------------------------------------------------------------------
  // Mouse gestures and volume

  /** A mouse button pressed outside the controls: primary restarts,
      secondary goes to the next track, auxiliary to the previous one;
      nothing happens with an empty playlist or another button. */
  function MouseDown(s: PlayerState, button: int, overControl: bool, playRejected: bool): (t: PlayerState)
    requires Inv(s)
    ensures Inv(t)
    ensures overControl || s.tracks == [] || button !in {0, 1, 2} ==> t == s
    ensures !overControl && button == 0 ==> t == Restart(s, playRejected)
    ensures !overControl && button == 1 ==> t == Previous(s)
    ensures !overControl && button == 2 ==> t == Next(s)
  {
    if overControl || |s.tracks| == 0 then s
    else if button == 0 then Restart(s, playRejected)
    else if button == 2 then Next(s)
    else if button == 1 then Previous(s)
    else s
  }

  /** A wheel notch outside the scrollable playlist changes the volume by
      one step, clamped; nothing else changes. */
  function Wheel(s: PlayerState, deltaY: real, overScrollArea: bool): (t: PlayerState)
    requires Inv(s)
    ensures Inv(t)
    ensures overScrollArea ==> t == s
    ensures !overScrollArea ==> t == s.(volume := WheelVolume(s.volume, deltaY))
    ensures -WheelStep <= t.volume - s.volume <= WheelStep
  {
    if overScrollArea then s else s.(volume := WheelVolume(s.volume, deltaY))
  }

  // ---------------------------------------------------------------------
  // The component's state cells, updated in place

  class AudioPlayer {
    var tracks: seq<Track>
    var currentTrackIndex: int
    var isPlaying: bool
    var isLoading: bool
    var audioError: Option<PlayerError>
    var volume: int
    var autoPlay: bool
    // the media element, as far as the controller drives it
    var src: Option<string>
    var commands: seq<MediaCommand>

    /** All fields as one value. */
    function State(): PlayerState
      reads this
    {
      PlayerState(tracks, currentTrackIndex, isPlaying, isLoading, audioError,
                  volume, autoPlay, src, commands)
    }

    ghost predicate Valid()
      reads this
    {
      Inv(State())
    }

    function HasCurrentTrack(): (b: bool)
      reads this
      ensures b == HasTrack(State())
    {
      0 <= currentTrackIndex < |tracks|
    }

    constructor ()
      ensures Valid() && State() == Initial
    {
      tracks := [];
      currentTrackIndex := 0;
      isPlaying := false;
      isLoading := false;
      audioError := None;
      volume := InitialVolume;
      autoPlay := true;
      src := None;
      commands := [];
    }

    method PlayNext()
      requires Valid()
      modifies this
      ensures Valid() && State() == Next(old(State()))
    {
      if |tracks| == 0 {
        return;
      }
      var nextIndex := if currentTrackIndex == |tracks| - 1 then 0 else currentTrackIndex + 1;
      currentTrackIndex := nextIndex;
      isPlaying := true;
    }

    method PlayPrevious()
      requires Valid()
      modifies this
      ensures Valid() && State() == Previous(old(State()))
    {
      if |tracks| == 0 {
        return;
      }
      var prevIndex := if currentTrackIndex == 0 then |tracks| - 1 else currentTrackIndex - 1;
      currentTrackIndex := prevIndex;
      isPlaying := true;
    }

    /** `index` is the position of a row of the playlist the user clicked. */
    method SelectTrack(index: int)
      requires Valid() && 0 <= index < |tracks|
      modifies this
      ensures Valid() && State() == Select(old(State()), index)
    {
      currentTrackIndex := index;
      isPlaying := true;
    }

    /** `indexToRemove` is the position of the row whose remove button was
        clicked. */
    method RemoveTrack(indexToRemove: int)
      requires Valid() && 0 <= indexToRemove < |tracks|
      modifies this
      ensures Valid() && State() == Remove(old(State()), indexToRemove)
    {
      var newTracks := RemoveIndex(tracks, indexToRemove);
      tracks := newTracks;
      if indexToRemove == currentTrackIndex {
        if |newTracks| == 0 {
          currentTrackIndex := 0;
          isPlaying := false;
        } else if indexToRemove >= |newTracks| {
          currentTrackIndex := |newTracks| - 1;
        }
      } else if indexToRemove < currentTrackIndex {
        currentTrackIndex := currentTrackIndex - 1;
      }
    }

    method ClearPlaylist()
      requires Valid()
      modifies this
      ensures Valid() && State() == Clear(old(State()))
    {
      tracks := [];
      currentTrackIndex := 0;
      isPlaying := false;
      audioError := None;
    }

    /** `pick` is what the file picker returned. */
    method HandleFileUpload(pick: PickResult)
      requires Valid()
      modifies this
      ensures State() == Import(old(State()), pick)
      ensures Valid()
    {
      match pick
      case PickFailed =>
        audioError := Some(FileSelectionError);
      case Cancelled =>
      case Picked(paths) =>
        ghost var before := State();
        var oldTracks := tracks;
        var newTracks := MakeTracks(paths, |oldTracks| + 1);
        tracks := oldTracks + newTracks;
        if |oldTracks| == 0 && |newTracks| > 0 {
          currentTrackIndex := 0;
        }
        assert before.tracks == oldTracks;
        assert State() == Import(before, pick);
        assert Inv(Import(before, pick));
    }

    method TogglePlayPause()
      requires Valid()
      modifies this
      ensures Valid() && State() == Toggle(old(State()))
    {
      if audioError.Some? || !HasCurrentTrack() {
        return;
      }
      if isPlaying {
        commands := commands + [Pause];
        isPlaying := false;
      } else {
        isPlaying := true;
      }
    }

    /** `playRejected` says whether the media element rejects the renewed
        play request. */
    method PlayCurrentTrack(playRejected: bool)
      requires Valid()
      modifies this
      ensures Valid() && State() == Restart(old(State()), playRejected)
    {
      if audioError.Some? || !HasCurrentTrack() {
        return;
      }
      if isPlaying {
        commands := commands + [Rewind, Play];
        if playRejected {
          isPlaying := false;
        }
      } else {
        isPlaying := true;
      }
    }

    method HandleMediaEvent(e: MediaEvent)
      requires Valid()
      modifies this
      ensures Valid() && State() == OnEvent(old(State()), e)
    {
      match e
      case LoadStart =>
        isLoading := true;
        audioError := None;
      case CanPlay =>
        isLoading := false;
        audioError := None;
      case LoadedMetadata =>
        isLoading := false;
      case TimeUpdate =>
      case MediaError =>
        var name := ErrorTrackName(State());
        isLoading := false;
        isPlaying := false;
        audioError := Some(CouldNotLoadAudio(name));
      case Ended =>
        if autoPlay {
          PlayNext();
        } else {
          isPlaying := false;
        }
      case Played =>
        isPlaying := true;
      case Paused =>
        isPlaying := false;
    }

    /** Runs when the current track changes. `resolveFailed` says whether
        turning the path into a playable reference throws, `playRejected`
        whether the element rejects the play request. */
    method LoadCurrentTrack(resolveFailed: bool, playRejected: bool)
      requires Valid()
      modifies this
      ensures Valid() && State() == LoadTrack(old(State()), resolveFailed, playRejected)
    {
      if !HasCurrentTrack() {
        return;
      }
      var track := tracks[currentTrackIndex];
      isLoading := true;
      audioError := None;
      if resolveFailed {
        audioError := Some(LoadError(track.name));
        isLoading := false;
        return;
      }
      src := Some(track.filePath);
      commands := commands + [Load(track.filePath)];
      if isPlaying {
        commands := commands + [Play];
        if playRejected {
          isPlaying := false;
          audioError := Some(PlaybackError(track.name));
        }
      }
    }

    /** Runs when the play intent, the error or the current track change. */
    method AutoPlayCurrent(playRejected: bool)
      requires Valid()
      modifies this
      ensures Valid() && State() == AutoPlay(old(State()), playRejected)
    {
      if isPlaying && audioError == None && HasCurrentTrack() && src.Some? {
        commands := commands + [Play];
        if playRejected {
          isPlaying := false;
        }
      }
    }

    /** `overControl` says whether the press lands on a button, input,
        slider or switch. */
    method HandleMouseDown(button: int, overControl: bool, playRejected: bool)
      requires Valid()
      modifies this
      ensures Valid() && State() == MouseDown(old(State()), button, overControl, playRejected)
    {
      if overControl {
        return;
      }
      if |tracks| == 0 {
        return;
      }
      if button == 0 {
        PlayCurrentTrack(playRejected);
      } else if button == 2 {
        PlayNext();
      } else if button == 1 {
        PlayPrevious();
      }
    }

    /** `overScrollArea` says whether the wheel turns over the scrollable
        playlist, which keeps the wheel for itself. */
    method HandleWheel(deltaY: real, overScrollArea: bool)
      requires Valid()
      modifies this
      ensures Valid() && State() == Wheel(old(State()), deltaY, overScrollArea)
    {
      if overScrollArea {
        return;
      }
      volume := WheelVolume(volume, deltaY);
    }

    /** The volume slider reports values in its range 0..100. */
    method SetVolume(v: int)
      requires Valid() && MinVolume <= v <= MaxVolume
      modifies this
      ensures Valid() && State() == old(State()).(volume := v)
    {
      volume := v;
    }

    method SetAutoPlay(on: bool)
      requires Valid()
      modifies this
      ensures Valid() && State() == old(State()).(autoPlay := on)
    {
      autoPlay := on;
    }
  }
}
