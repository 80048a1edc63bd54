# Audio player controller — a Dafny model

This project models the playlist and transport controller of a desktop
audio player's main component (`App` in `src/App.tsx`). The component keeps
these state cells:

- the playlist of imported tracks;
- the index of the current track;
- the play intent (`isPlaying`);
- the loading flag;
- an error slot;
- the volume, as a percentage;
- the auto-play setting.

It changes them in response to user actions and to notifications from its
hidden `<audio>` element. The user actions are:

- next, previous and select;
- remove and clear;
- import from the file picker;
- play/pause and restart;
- mouse buttons and the wheel.

The model has three modules:

- `Playlist` (`playlist.dfy`) covers the track record and the pure sequence
  operations the controller uses:
  - building tracks from picked paths, named after the last segment of each
    path;
  - removing the entry at one position by filtering on the position.
- `Volume` (`volume.dfy`) covers the wheel step and the clamp of the volume
  to 0..100.
- `Player` (`player.dfy`) has three parts:
  - `PlayerState`, the value of all state cells. It also holds the audio
    element's source and a log of the commands sent to the element (load,
    play, pause, rewind).
  - One function per action, per media notification and per effect, each
    stating the new state and preserving the invariant `Inv`. `Inv` says the
    index designates a track when there is one and is 0 otherwise, and that
    the volume is in range. The model keeps `Inv` on the assumption that
    every listener sees the current state. The program keeps it only while
    its listeners are fresh (see the Findings section).
  - The class `AudioPlayer`, which holds the cells as fields and updates
    them in place. Each of its methods is proved to leave its fields equal
    to the matching function applied to the old state.

Inputs the controller gets from outside are parameters of the model:

- the picker's result (paths, cancelled or failed);
- whether resolving a path throws;
- whether the element rejects a `play()` request;
- which mouse button was pressed;
- the wheel's `deltaY`;
- whether the pointer is over a control or over the scrollable list.

Some behaviour of the code worth noting:

- Clearing the playlist, or removing its last track, stops the play intent
  but sends no pause to the audio element.
- "An empty playlist is not playing" is not an invariant. The element's
  `play` notification sets the intent whatever the playlist holds.
- Track ids are `old length + position + 1`. After removals these can repeat
  earlier ids, so no uniqueness is claimed.
- The volume slider writes its value unclamped. `SetVolume` therefore assumes
  the slider's own range 0..100.
- `selectTrack` and `removeTrack` are only called from the rows of the
  rendered playlist (`src/App.tsx:640-668`), so their index is a position of
  the list. `SelectTrack` and `RemoveTrack` require this.

## Model

| member | source | states |
|---|---|---|
| Playlist.LastSegment | src/App.tsx:510 | the last piece of splitting the path at `/` and `\` is no longer than the path; its full characterisation is `Playlist.LastSegmentSpec` |
| Playlist.LastSegmentSpec | src/App.tsx:510 | the last segment of a path is its longest suffix without `/` or `\`: a suffix, free of separators, and preceded by a separator when shorter than the path |
| Playlist.TrackName | src/App.tsx:510 | the display name of an imported file is never empty |
| Playlist.TrackNameCases | src/App.tsx:510 | the name is "Unknown" when the path is empty or ends in a separator, and otherwise the longest separator-free suffix of the path; it is "Unknown" exactly when the last segment is empty or is itself "Unknown" |
| Playlist.LastSegmentSnoc | src/App.tsx:510 | appending a non-separator character to a path extends its last segment by that character |
| Playlist.LastSegmentOfJoin | src/App.tsx:510 | for any directory, `dir` + separator + a separator-free `file` has last segment `file` |
| Playlist.TrackNameOfJoin | src/App.tsx:510 | a track imported from `dir/file` is named `file`, whatever the directory |
| Playlist.MakeTracks | src/App.tsx:509-517 | one track per picked path in picker order; the i-th has id `firstId + i`, the name of its path and the path itself |
| Playlist.RemoveIndex | src/App.tsx:465 | filtering out the position `r` leaves the entries before and after it, in order; a position outside the list removes nothing |
| Playlist.RemoveIndexAt | src/App.tsx:465 | after removal the list is one shorter; entries before `r` keep their position, entries after it move down by one |
| Playlist.RemoveIndexReinsert | src/App.tsx:465 | putting the removed entry back at `r` gives the original list |
| Volume.WheelDelta | src/App.tsx:248 | one notch asks for -5 or +5, and it is negative exactly when `deltaY` is positive |
| Volume.WheelVolume | src/App.tsx:248-250 | the new volume is in [0, 100]; it is the old one plus or minus 5 unless clamped at an end; from an in-range volume it moves by at most 5, down for a positive `deltaY` and up otherwise |
| Volume.WheelUpDownInverse | src/App.tsx:248-250 | away from the ends, a notch down undoes a notch up and vice versa |
| Volume.WheelSaturates | src/App.tsx:248-250 | a further notch outward at 0 or at 100 leaves the volume unchanged |
| Player.InitialInv | src/App.tsx:213-221 | the initial state (empty list, index 0, stopped, volume 70, auto-play on) satisfies the invariant and has no current track |
| Player.Next | src/App.tsx:445-450 | with an empty list nothing changes; otherwise the index becomes `(c + 1) mod n`, playing starts and nothing else changes |
| Player.Previous | src/App.tsx:452-457 | with an empty list nothing changes; otherwise the index becomes `(c - 1 + n) mod n`, playing starts and nothing else changes |
| Player.PreviousUndoesNext | src/App.tsx:445-457 | previous after next, and next after previous, bring back the original index |
| Player.NextTimes | src/App.tsx:445-450 | repeated next keeps the invariant and the playlist |
| Player.NextTimesIndex | src/App.tsx:445-450 | after `k` nexts the index is `(c + k) mod n` |
| Player.NextFullCycle | src/App.tsx:445-450 | `n` nexts come back to the starting track |
| Player.Select | src/App.tsx:459-462 | the index becomes the chosen row, so that row's track is current, and playing starts; nothing else changes (list, error, loading flag, volume, auto-play, element) |
| Player.Remove | src/App.tsx:464-480 | the list loses exactly the entry at `r`; playing stops only when the list becomes empty; the error, volume, settings and element are untouched; the invariant holds |
| Player.RemoveOtherKeepsCurrent | src/App.tsx:469-479 | removing another track keeps the same track current: the index drops by one when the removed track was before it, and stays otherwise |
| Player.RemoveCurrent | src/App.tsx:469-476 | removing the current track: the only track leaves an empty list, index 0, stopped; the last slot hands over to the new last track; otherwise the index stays on the following track |
| Player.Clear | src/App.tsx:482-487 | empty list, index 0, not playing, no error; volume, auto-play, loading flag and element untouched |
| Player.ClearForgetsPlayback | src/App.tsx:482-487 | clearing does not depend on the old list, index, play intent or error, and is idempotent |
| Player.Import | src/App.tsx:496-530 | a picker failure only sets the file-selection error; a cancel changes nothing; a pick appends one track per path and changes nothing else; setting the index to 0 for a first import is no change, since an empty list already has index 0 |
| Player.ImportKeeps | src/App.tsx:519-524 | importing keeps the old tracks in place and the index where it was; into an empty list, the first picked file becomes current |
| Player.ImportAppendsAt | src/App.tsx:509-519 | the i-th picked path becomes the track at position `old length + i`, with id `old length + i + 1`, its name and its path |
| Player.Toggle | src/App.tsx:433-443 | with an error or no current track nothing changes; otherwise the play intent flips, and a pause is sent only when it was playing |
| Player.ToggleTwice | src/App.tsx:433-443 | two toggles restore the play intent and the playlist |
| Player.Restart | src/App.tsx:418-431 | guarded like play/pause; when playing, rewinds and replays, and a rejected replay stops playing; when stopped, playing starts |
| Player.ErrorTrackName | src/App.tsx:328 | the name in a load error is the current track's name, or "Unknown" when there is no current track or its name is empty |
| Player.OnEvent | src/App.tsx:306-344 | per notification: loadstart shows the spinner and clears the error; canplay hides it and clears the error; loadedmetadata hides it; timeupdate changes nothing here; error stops playing and records the error; ended goes to the next track with auto-play and stops otherwise; the element's `play` and `pause` notifications (`src/App.tsx:805-806`) set and clear the play intent; only `ended` with auto-play moves the index and none changes the list |
| Player.StaleEnded | src/App.tsx:331-337 | the `ended` listener run with the playlist length it saw when registered; when that length is current it agrees with `OnEvent` |
| Player.StaleEndedBreaksInv | src/App.tsx:445-449 | from `[a, b, c]` at index 1, removing row 2 keeps `b` current; a stale `ended` listener then sets the index to 2 on a two-track list, breaking `Inv`, while the fresh `OnEvent` keeps it |
| Player.ErrorBlocksTransport | src/App.tsx:322-329 | after a media error, play/pause and restart change nothing, while next still starts playing |
| Player.LoadStartThenCanPlay | src/App.tsx:312-320 | a load start followed by canplay leaves no spinner and no error, whatever came before |
| Player.LoadTrack | src/App.tsx:364-402 | without a current track nothing happens; a path that fails to resolve records a load error; otherwise the source is set and loaded; playback is requested when wanted, and a rejection stops playing and records a playback error |
| Player.AutoPlay | src/App.tsx:405-416 | playback is requested exactly when playing is wanted, no error is shown, there is a current track and a source; a rejection stops playing |
| Player.SelectThenLoad | src/App.tsx:459-462 | choosing a row and loading it clears the error and loads and plays that row's file |
| Player.MouseDown | src/App.tsx:262-283 | a press on a control or with an empty list does nothing; the primary button restarts, the secondary goes next, the auxiliary goes previous |
| Player.Wheel | src/App.tsx:239-251 | over the scrollable list nothing changes; elsewhere only the volume changes, by at most one step |
| Player.AudioPlayer.HasCurrentTrack | src/App.tsx:234 | there is a current track exactly when the index is a position of the list |
| Player.AudioPlayer.constructor | src/App.tsx:213-221 | the fields start in the initial state |
| Player.AudioPlayer.PlayNext | src/App.tsx:445-450 | the fields become `Next` of the old state |
| Player.AudioPlayer.PlayPrevious | src/App.tsx:452-457 | the fields become `Previous` of the old state |
| Player.AudioPlayer.SelectTrack | src/App.tsx:459-462 | the fields become `Select` of the old state |
| Player.AudioPlayer.RemoveTrack | src/App.tsx:464-480 | the fields become `Remove` of the old state |
| Player.AudioPlayer.ClearPlaylist | src/App.tsx:482-487 | the fields become `Clear` of the old state |
| Player.AudioPlayer.HandleFileUpload | src/App.tsx:496-530 | the fields become `Import` of the old state |
| Player.AudioPlayer.TogglePlayPause | src/App.tsx:433-443 | the fields become `Toggle` of the old state |
| Player.AudioPlayer.PlayCurrentTrack | src/App.tsx:418-431 | the fields become `Restart` of the old state |
| Player.AudioPlayer.HandleMediaEvent | src/App.tsx:306-344 | the fields become `OnEvent` of the old state, for the listeners at 306-344 and the element's `play` and `pause` notifications at `src/App.tsx:805-806` |
| Player.AudioPlayer.LoadCurrentTrack | src/App.tsx:364-402 | the fields become `LoadTrack` of the old state |
| Player.AudioPlayer.AutoPlayCurrent | src/App.tsx:405-416 | the fields become `AutoPlay` of the old state |
| Player.AudioPlayer.HandleMouseDown | src/App.tsx:262-283 | the fields become `MouseDown` of the old state |
| Player.AudioPlayer.HandleWheel | src/App.tsx:239-251 | the fields become `Wheel` of the old state |
| Player.AudioPlayer.SetVolume | src/App.tsx:772-776 | only the volume changes, to the slider's value |
| Player.AudioPlayer.SetAutoPlay | src/App.tsx:588-590 | only the auto-play setting changes |

## Left out

- Playback position, duration, seeking and time formatting
  (`src/App.tsx:306-310`, `489-494`, `532-537`) are left out. They are
  floating-point values the controller only displays or forwards; the
  `loadedmetadata` notification is modelled only through the loading flag.
- The element's volume (`volume / 100`, `src/App.tsx:357-361`) is left out
  because it is floating point. The model keeps the percentage.
- The picker dialog, the host's path-to-URL conversion and the element's
  media pipeline are outside calls, so they are left out. Their outcomes are
  parameters, and a track's URL is represented by its file path.
- `LoadTrack`, `Restart` and `AutoPlay` model the asynchronous `play()`
  promise as its outcome, a `playRejected` flag, applied at once. How a late
  rejection interleaves with later actions is not modelled.
- React's scheduling of effects and batching of state updates is not
  modelled. Every action, notification and effect is one atomic step on the
  current state, and the caller decides when the load and auto-play effects
  run.
- Stale closures are not modelled. The listeners see whatever state they
  were last registered with, while the model always uses the current state.
  Three cases:
  - After an import that keeps the current track, the `ended` listener still
    wraps at the old playlist length.
  - The same happens after removing a track behind the current one. The
    current track object, the index and the auto-play setting are all
    unchanged, so the listener effect (`src/App.tsx:354`) does not run again.
    When the current track ends, the stale `playNext` can move the index
    past the end of the shortened list. The effect is that `Inv` is broken
    in the program. It is recorded under Findings and exhibited by
    `Player.StaleEndedBreaksInv`.
  - Restart (`playCurrentTrack`) is affected too. Its only caller is the mouse
    listener (`src/App.tsx:275`), which is re-registered only when the index
    or the playlist length changes (`src/App.tsx:299`). In the program,
    restart therefore reads `isPlaying`, `audioError` and the current track
    as they were at the last such change. For example, after the play button
    is pressed, the primary button does not rewind. After a later media
    error, it is not blocked. `Player.MouseDown` and
    `Player.ErrorBlocksTransport` state restart on the current state, and so
    describe the program only when the listener is fresh.
- No guard against a slow load finishing after the track changed again is
  modelled, because the code has none.
- The audio element is assumed to be mounted, so the `!audio` early returns
  are not modelled.
- Error messages are modelled as their kind and the track name. Translations
  and the interface language are left out, and so are the settings and about
  dialogs.
- `MarqueeText` and all rendering are presentation, so they are left out.
- Only the event-target checks of the wheel and mouse handlers are modelled,
  as the booleans `overScrollArea` and `overControl`. The context-menu
  suppression and `preventDefault` are left out.
- Player.AudioPlayer.SetVolume: requires the slider's range 0..100 instead of
  modelling out-of-range values, which the slider never emits.

## Findings

| source | as written | input that shows it | evidently intended | confidence | as-written member | corrected member |
|---|---|---|---|---|---|---|
| src/App.tsx:331-354 | the `ended` listener calls the `playNext` of the render that registered it. The effect re-registers only when the index, the auto-play setting or the current track object changes, so `playNext` can see an old `tracks.length` | tracks `[a, b, c]`, index 1, auto-play on; remove row 2, then `b` ends: the index becomes 2 on a two-track list, and Next then goes to 3, 4 and so on, because line 447 wraps only at `length - 1` | when a track ends, advance around the current playlist, so the index always designates a track | not executed | Player.StaleEnded, Player.StaleEndedBreaksInv | Player.OnEvent |
