# Cecilio music player: the playback sequencer in Dafny

This project models the playlist and playback sequencer of the Cecilio music
player. That sequencer is the part of the `CecilioMusicPlayer` window
(`cecilio_main.py`) that decides which track plays. Its state is:

- the playlist, a list of track paths or stream URLs;
- the history stack of earlier cursors (`previous_tracks`);
- the shuffle queue of indices (`shuffle_playlist`);
- the cursor (`current_index`, -1 while unset);
- the `repeat` and `shuffle` flags;
- three facts about the `QMediaPlayer`: the source it has loaded, its position in milliseconds, and whether it plays.

The transport slots are `play_music`, `pause_music`, `play_pause_music`,
`next_track`, `prev_track`, `open_files`, `shuffle_playlist_action`,
`generate_shuffle_playlist`, `toggle_shuffle`, `toggle_repeat` and
`handle_media_end`, plus the common effect of the three streaming slots.

Files and modules:

- `modular.dfy` (`Modular`): `Wrap`, Python's `%` for a positive divisor, with the arithmetic facts about it.
- `permutations.dfy` (`Permutations`): index permutations. These stand for what `random.shuffle` and `random.sample` produce. The file also proves that permuting a list keeps its multiset.
- `sequencer.dfy` (`Sequencer`): the sequencer as values.
  - One function per slot maps a `State` to an `Outcome`: the new state plus the `Notice` the user sees. A notice is one of: a message box, `Silent` for no dialog, `Played` for a slot that reached `media_player.play()`, or `IndexError` for the exception the slot would raise.
  - `Command` and `Dispatch` mirror the signal wiring of the window.
  - `Run` plays a sequence of commands.
- `sequencer_properties.dfy` (`SequencerProperties`): the properties of those functions. These cover one-step behaviour, multi-step cycles and queue walks, undoing Next with Previous, and an in-range invariant with the run that breaks it.
- `player.dfy` (`Player`): the class `CecilioMusicPlayer`.
  - Its fields are the ones the source updates in place.
  - Every slot is a method that changes those fields. Its `ensures` ties the new fields and the returned notice to the matching `Sequencer` function applied to the old fields.

How the surroundings are modelled:

- **Randomness.** `random.shuffle(self.playlist)` becomes a caller-supplied index permutation `perm`; the new playlist has `old[perm[i]]` at position `i`. `random.sample(range(n), n)` becomes a caller-supplied permutation `order`. Both are constrained by `IsPermutation`.
- **Dialogs.** The file dialog's result, the shuffle and repeat buttons' checked state, and a streaming slot's resolved URL are parameters.
- **Message boxes.** These are `Notice` values.
- **Media player.**
  - `setPosition(0)` sets the position to 0.
  - `setMedia` loads a new source and starts it at position 0.
  - `play()` and `pause()` set the playing flag.
  - `QUrl.fromLocalFile` is treated as the identity: the loaded source is compared with the playlist entry itself, and the empty string stands for "no media" at start-up.
  - The position grows as the media output plays. That happens outside the model, so the lemmas hold for any position.
- **Python semantics.** `%` is `Wrap`, and `Modular.WrapIsMod` proves it is Dafny's Euclidean `%`, which is Python's for a positive divisor. `playlist[i]` is `PyIndex`: negative indices count from the end, and an index outside `-n..n-1` raises IndexError. The `IndexError` notice records the point where the slot raises. The model keeps the state changes the slot made before that point, and `Run` goes on with the next command. The real window does not go on: it installs no exception hook, and PyQt5 (5.5 and later) aborts the whole process on an exception that escapes a slot. So a `Run` past an `IndexError` describes a window that only reports the exception. `SequencerProperties.RunSafe` shows that no run within its proviso reaches that point.

The model keeps these behaviours of the code as written:

- Opening an empty selection changes nothing (`cecilio_main.py:275`). It does not clear the playlist.
- Opening files does not reset or regenerate the shuffle queue (`cecilio_main.py:276-278`). A queue drawn for a longer playlist can then hold indices past the end, and the next press of Next under shuffle raises IndexError. `SequencerProperties.StaleQueueAfterOpenRaises` exhibits this run.
- An exhausted shuffle queue falls back to index 0 (`cecilio_main.py:266`). The queue is not regenerated.
- Pressing Play with tracks and an unset cursor starts from the first track (`cecilio_main.py:231-232`).
- `shuffle_playlist_action` keeps the history (`cecilio_main.py:204-205`). Next with an unset cursor pushes -1 onto the history (`cecilio_main.py:265`, `:268`). Streaming appends grow the playlist without touching the queue (`cecilio_main.py:334`, `:347`, `:360`).

## Model

| member | source | states |
|---|---|---|
| Modular.Wrap | cecilio_main.py:258 | the wrapped cursor always lies in `0..n-1`, for any integer, as Python's `%` with a positive divisor does |
| Modular.WrapIsMod | cecilio_main.py:269 | `Wrap(i, n)` equals the Euclidean `i % n` for every integer `i`, so the wrap-around is Python's modulo |
| Permutations.PermutePreservesMultiset | cecilio_main.py:204 | rearranging the playlist by a permutation of its indices keeps exactly its tracks, with multiplicities |
| Permutations.PermutationOfRange | cecilio_main.py:221 | a permutation of `0..n-1` holds the same indices as `range(n)`, so every index occurs in it |
| Sequencer.PyIndex | cecilio_main.py:236 | `playlist[i]` succeeds exactly when `-n <= i < n` and then designates an index below `n`; otherwise it raises |
| Sequencer.PlayMusic | cecilio_main.py:230-242 | only the cursor and the media change; the cursor changes only from unset -1 to 0 on a non-empty list; the notice is Played, NoFilesWarning (exactly for an empty list) or IndexError; Played means a playlist track is loaded and playing, otherwise the media is untouched. Details in `PlayEmptyWarns`, `PlayFromUnsetStartsAtFirst`, `PlayInRange`, `PlayPastEndRaises` |
| Sequencer.PauseMusic | cecilio_main.py:244-247 | the player stops, and nothing else changes, not even the loaded source or position |
| Sequencer.PlayPauseMusic | cecilio_main.py:224-228 | playlist, history, queue and flags stay; while playing it stops on the same source; while stopped its outcome is exactly that of `PlayMusic`. See `PlayPauseWhilePlayingPauses`, `PlayPauseWhileStoppedPlays` |
| Sequencer.PrevTrack | cecilio_main.py:249-259 | playlist, queue and flags stay; the history loses exactly its top when there is one, otherwise it stays; popping a track index or -1, and stepping back (at most 5000 ms played, empty history), both end with notice Played and the track under the new cursor loaded and playing. Details in `PrevPopsHistory`, `PrevRestartsLongPlayedTrack`, `PrevStepsBack`, `PrevUndoesNext` |
| Sequencer.NextTrack | cecilio_main.py:261-270 | playlist and flags stay; an empty list changes nothing; otherwise the old cursor is pushed; the queue stays without shuffle and loses its head with shuffle; without shuffle, or with a queue of playlist indices, the notice is Played and the track under the new cursor is loaded and playing. Details in `NextSequential`, `NextShuffled` and the multi-step lemmas |
| Sequencer.OpenFiles | cecilio_main.py:272-282 | queue, media and flags stay; a non-empty selection becomes the playlist with notice Loaded(count); an empty one changes nothing. See `OpenReplacesPlaylist`, `StaleQueueAfterOpenRaises` |
| Sequencer.ShufflePlaylistAction | cecilio_main.py:200-208 | the playlist keeps its multiset of tracks; history, queue and flags stay; the notice is the warning on an empty list, else Shuffled. See `ShufflePlaylistPermutes` |
| Sequencer.GenerateShufflePlaylist | cecilio_main.py:220-221 | only the queue changes, and it becomes a permutation of the playlist's indices. See `GeneratedQueueCoversPlaylist` |
| Sequencer.ToggleShuffle | cecilio_main.py:297-300 | the flag becomes the button's state; only flag and queue change; when checked the queue is a permutation of the indices. See `ToggleShuffleRegeneratesOnlyWhenOn`, `ShuffleOnVisitsEveryTrackOnce` |
| Sequencer.ToggleRepeat | cecilio_main.py:302-303 | the repeat flag becomes the button's state and nothing else changes. See `ToggleRepeatSetsFlag` |
| Sequencer.HandleMediaEnd | cecilio_main.py:305-311 | playlist and flags always stay; a status other than EndOfMedia changes nothing; under repeat the source and cursor stay. See `MediaEndRepeatsOrAdvances` |
| Sequencer.AddStream | cecilio_main.py:327-363 | only the playlist changes, by one appended URL on success; a failure shows the error and changes nothing. See `StreamAppendsToPlaylistOnly` |
| Sequencer.Dispatch | cecilio_main.py:165-175 | each flag changes only through its own button; the playlist only through open, shuffle and streaming, and its length only through open and streaming; the queue only through Next, end of media and the shuffle button. See `StepSafe`, `RunSafe` |
| SequencerProperties.PyIndexWraps | cecilio_main.py:236 | where indexing succeeds it designates `i` wrapped into `0..n-1`, so a negative index counts from the end |
| SequencerProperties.PlayEmptyWarns | cecilio_main.py:233-235 | with an empty playlist, Play leaves the whole state unchanged and only warns "No files in playlist" |
| SequencerProperties.PlayFromUnsetStartsAtFirst | cecilio_main.py:231-232 | with tracks and cursor -1, Play sets the cursor to 0 and plays the first track |
| SequencerProperties.PlayInRange | cecilio_main.py:236-239 | with the cursor on a track, Play plays that track; it reloads from position 0 only if another source was loaded, and leaves everything but the media as it was |
| SequencerProperties.PlayPastEndRaises | cecilio_main.py:236 | a cursor at or past the end of a non-empty playlist makes Play raise IndexError without changing the state |
| SequencerProperties.PlayPauseWhilePlayingPauses | cecilio_main.py:224-247 | Play/Pause while playing only stops the media player |
| SequencerProperties.PlayPauseWhileStoppedPlays | cecilio_main.py:227-239 | Play/Pause while stopped, with the cursor on a track or unset, plays the current (or first) track with notice Played; only cursor and media change |
| SequencerProperties.EmptyPlaylistIgnoresNavigation | cecilio_main.py:249-263 | on an empty playlist Next and Previous change nothing and show nothing |
| SequencerProperties.NextSequential | cecilio_main.py:267-270 | without shuffle, Next pushes the old cursor, moves to `(old + 1) mod n` in range, keeps playlist and queue, and loads and plays that track with notice Played |
| SequencerProperties.NextShuffled | cecilio_main.py:264-266 | with shuffle, Next pushes the old cursor and dequeues exactly the queue's head into the cursor; with an empty queue the cursor becomes 0 and the queue stays empty; when the queue holds only playlist indices, the landed-on track is loaded and playing with notice Played |
| SequencerProperties.NextKeepsPlaylistAndModes | cecilio_main.py:261-270 | Next never changes the playlist or the two flags |
| SequencerProperties.NextTimesKeepsPlaylistAndModes | cecilio_main.py:261-270 | any number of Next presses keeps the playlist and the two flags |
| SequencerProperties.NextTimesCursor | cecilio_main.py:261-270 | after `k >= 1` presses of Next the cursor is the last cursor visited |
| SequencerProperties.NextTimesTrail | cecilio_main.py:265-268 | after `k` presses of Next the history is the old history followed by the start cursor and every visited cursor but the last (LIFO trail) |
| SequencerProperties.VisitedSequential | cecilio_main.py:268-269 | without shuffle, the `i`-th press of Next (from 0) lands on `(start + i + 1) mod n` |
| SequencerProperties.NextTimesSequential | cecilio_main.py:269 | without shuffle, `k >= 1` presses of Next put the cursor on `(start + k) mod n` |
| SequencerProperties.FullCycleReturns | cecilio_main.py:269 | without shuffle, `n` presses of Next on an `n`-track playlist return the cursor to where it started |
| SequencerProperties.VisitedSequentialIsPermutation | cecilio_main.py:269 | without shuffle, the cursors of `n` presses of Next are `n` distinct track indices |
| SequencerProperties.FullCycleVisitsEveryTrackOnce | cecilio_main.py:269 | without shuffle, `n` presses of Next visit every track exactly once |
| SequencerProperties.NextTimesShuffled | cecilio_main.py:266 | with shuffle, `k` presses of Next (at most the queue's length) consume exactly the first `k` queue entries, FIFO, and leave the last of them as the cursor |
| SequencerProperties.VisitedFollowsQueue | cecilio_main.py:266 | with shuffle, the cursors visited by `k` presses of Next are the first `k` queue entries in order |
| SequencerProperties.ShuffleOnVisitsEveryTrackOnce | cecilio_main.py:297-300 | once shuffle is switched on, the next `n` presses of Next visit the drawn order, which is every track exactly once |
| SequencerProperties.PrevPopsHistory | cecilio_main.py:252-253 | with a history, Previous pops its top into the cursor (LIFO), a popped -1 becoming 0; when the popped entry is -1 or a playlist index, that track is loaded and playing with notice Played |
| SequencerProperties.PrevRestartsLongPlayedTrack | cecilio_main.py:254-257 | with no history and more than 5000 ms played, Previous only rewinds the position to 0; the cursor stays |
| SequencerProperties.PrevStepsBack | cecilio_main.py:258-259 | with no history and at most 5000 ms played, Previous moves to `(old - 1) mod n`, in range, from 0 to the last track, and plays it |
| SequencerProperties.PrevUndoesNext | cecilio_main.py:249-270 | Previous right after Next restores the history and the cursor (an unset -1 comes back as 0) |
| SequencerProperties.OpenReplacesPlaylist | cecilio_main.py:272-282 | a non-empty selection replaces the playlist, sets the cursor to 0, clears the history and keeps the queue, the flags and the media, so the old track goes on playing while the cursor is on the first new file; an empty one changes nothing |
| SequencerProperties.ShufflePlaylistPermutes | cecilio_main.py:200-208 | on an empty playlist it only warns; otherwise the playlist becomes a permutation of itself (same length, same multiset), the cursor 0, the first track plays, and history, queue and both flags stay |
| SequencerProperties.GeneratedQueueCoversPlaylist | cecilio_main.py:220-221 | the generated queue holds every playlist index exactly once, and nothing else changes |
| SequencerProperties.ToggleShuffleRegeneratesOnlyWhenOn | cecilio_main.py:297-300 | the flag follows the button; a new queue is drawn only when shuffle turns on, and nothing else changes |
| SequencerProperties.ToggleRepeatSetsFlag | cecilio_main.py:302-303 | the repeat button only sets the flag |
| SequencerProperties.MediaEndRepeatsOrAdvances | cecilio_main.py:305-311 | at EndOfMedia with repeat, the outcome is exactly the old state with position 0 and playing, so the same track restarts and nothing is reloaded; without repeat it is exactly Next; any other status changes nothing |
| SequencerProperties.StreamAppendsToPlaylistOnly | cecilio_main.py:327-363 | a resolved stream is appended to the playlist and to nothing else, so when the queue held only indices of the old playlist, the new index is not in it; a failed one only shows the error |
| SequencerProperties.InitialSafe | cecilio_main.py:28-33 | the start-up state satisfies the in-range invariant |
| SequencerProperties.NavigationSafe | cecilio_main.py:249-270 | from a state satisfying the invariant, Next and Previous keep it and never raise IndexError |
| SequencerProperties.StepSafe | cecilio_main.py:165-175 | every command keeps the invariant and never raises, unless an open under shuffle shortens the list below a queued index |
| SequencerProperties.RunSafe | cecilio_main.py:165-175 | along any command sequence with that proviso the invariant holds at the end and no command raised IndexError |
| SequencerProperties.StaleQueueAfterOpenRaises | cecilio_main.py:272-278 | opening three files, switching shuffle on, opening one file and pressing Next raises IndexError with cursor 2 |
| SequencerProperties.SequentialScenario | cecilio_main.py:261-270 | on `[A, B, C]` from cursor 0 without shuffle, three presses of Next visit 1, 2, 0 and end on A |
| SequencerProperties.ShuffledScenario | cecilio_main.py:264-266 | on `[A, B, C]` with shuffle order `[2, 0, 1]`, three presses of Next play C, A, B |
| Player.CecilioMusicPlayer.constructor | cecilio_main.py:24-33 | a fresh window has an empty playlist, history and queue, cursor -1, both flags off and no media |
| Player.CecilioMusicPlayer.PlayMusic | cecilio_main.py:230-242 | the fields and notice after play_music are those of `Sequencer.PlayMusic` on the old fields |
| Player.CecilioMusicPlayer.PauseMusic | cecilio_main.py:244-247 | the fields and notice after pause_music are those of `Sequencer.PauseMusic` |
| Player.CecilioMusicPlayer.PlayPauseMusic | cecilio_main.py:224-228 | the fields and notice after play_pause_music are those of `Sequencer.PlayPauseMusic` |
| Player.CecilioMusicPlayer.PrevTrack | cecilio_main.py:249-259 | the fields and notice after prev_track are those of `Sequencer.PrevTrack` |
| Player.CecilioMusicPlayer.NextTrack | cecilio_main.py:261-270 | the fields and notice after next_track are those of `Sequencer.NextTrack` |
| Player.CecilioMusicPlayer.OpenFiles | cecilio_main.py:272-282 | the fields and notice after open_files with the selected files are those of `Sequencer.OpenFiles` |
| Player.CecilioMusicPlayer.ShufflePlaylistAction | cecilio_main.py:200-208 | the fields and notice after shuffle_playlist_action with the drawn permutation are those of `Sequencer.ShufflePlaylistAction` |
| Player.CecilioMusicPlayer.GenerateShufflePlaylist | cecilio_main.py:220-221 | the fields after generate_shuffle_playlist are those of `Sequencer.GenerateShufflePlaylist` |
| Player.CecilioMusicPlayer.ToggleShuffle | cecilio_main.py:297-300 | the fields after toggle_shuffle are those of `Sequencer.ToggleShuffle` |
| Player.CecilioMusicPlayer.ToggleRepeat | cecilio_main.py:302-303 | the fields after toggle_repeat are those of `Sequencer.ToggleRepeat` |
| Player.CecilioMusicPlayer.HandleMediaEnd | cecilio_main.py:305-311 | the fields and notice after handle_media_end are those of `Sequencer.HandleMediaEnd` |
| Player.CecilioMusicPlayer.AddStream | cecilio_main.py:327-363 | the fields and notice after a streaming slot are those of `Sequencer.AddStream` |

## Left out

- `translate` and `change_language`: a dictionary lookup with the key as fallback, and a language switch that only refreshes widget texts. Neither bears on playback.
- `init_ui`, `update_ui_texts`, both `update_playlist` definitions and `highlight_current_track`: these build or refresh Qt widgets and forward only.
- The progress and volume handlers `set_progress_max`, `update_progress`, `set_position` and `change_volume`: they forward to widgets or to the media player. The position they and playback change is a field that the lemmas quantify over.
- The visualiser calls `start_visualisation` and `stop_visualisation`: they drive drawing only.
- The exception branch of `open_files` (a failing file dialog shows a critical box): the dialog is outside the model, and its result is a parameter.
- The streaming slots' URL dialog and vendor calls (SoundCloud, Spotify, YouTube clients): these are network I/O. Only their effect is modelled, as `AddStream`. A failure, including Spotify's missing preview, arrives as `None`; a cancelled dialog means the command is not issued.
- The media player's own reaction to the end of a track: the player stopping by itself is not modelled. At EndOfMedia without repeat, the `playing` flag is what Next leaves.
- The probability distribution of `random.shuffle` and `random.sample`: only the fact that they return permutations is used.
- `cecilio_audio_visualiser.py` and the three `FUTURE_*` streaming extensions: floating-point drawing, a neural-model load, timers, configuration files and HTTP calls. None of it touches the sequencer.
- SequencerProperties.NextShuffled: assumes the queued indices are non-negative. That holds because the queue is only ever assigned from `random.sample(range(n), n)`. A queued -1 would be played as index 0.
- SequencerProperties.NextTimesShuffled: the same assumption on the queued indices.
- SequencerProperties.VisitedFollowsQueue: the same assumption on the queued indices.
- SequencerProperties.StepSafe: excludes an open under shuffle that shortens the playlist below a queued index. The source does not guard against that case, and `StaleQueueAfterOpenRaises` shows it raising.
- SequencerProperties.RunSafe: the same exclusion, at every step of the run.
