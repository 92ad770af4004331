/**
 * What the sequencer's transport commands promise, proved about the value
 * model in `Sequencer`.
 */
module SequencerProperties {
  import opened Permutations
  import opened Sequencer
  import opened Modular

  /** Python indexing agrees with wrap-around wherever it does not raise. */
  lemma PyIndexWraps(n: nat, i: int)
    requires 0 <= n + i && i < n
    ensures PyIndex(n, i) == Some(Wrap(i, n))
  {
  }

  // ---------------------------------------------------------------------------
  // play_music, pause_music
  // ---------------------------------------------------------------------------

  /** With no tracks, Play only warns and changes nothing. */
  lemma PlayEmptyWarns(s: State)
    requires |s.playlist| == 0
    ensures PlayMusic(s) == Outcome(s, NoFilesWarning)
  {
  }

  /** With tracks and an unset cursor, Play starts from the first track. */
  lemma PlayFromUnsetStartsAtFirst(s: State)
    requires |s.playlist| > 0 && s.cursor == -1
    ensures var o := PlayMusic(s);
      && o.notice == Played
      && o.state.cursor == 0
      && o.state.media.source == s.playlist[0]
      && o.state.media.playing
  {
  }

  /**
   * With the cursor on a track, Play loads that track (from position 0) unless
   * it is already loaded, and plays it; the playlist, history, queue and
   * flags stay as they were.
   */
  lemma PlayInRange(s: State)
    requires 0 <= s.cursor < |s.playlist|
    ensures var o := PlayMusic(s);
      && o.notice == Played
      && o.state.media.source == s.playlist[s.cursor]
      && o.state.media.playing
      && (s.media.source == s.playlist[s.cursor] ==> o.state.media.position == s.media.position)
      && (s.media.source != s.playlist[s.cursor] ==> o.state.media.position == 0)
      && o.state.(media := s.media) == s
  {
  }

  /** A cursor past the end of the playlist makes `playlist[current_index]` raise; only the cursor is as it was. */
  lemma PlayPastEndRaises(s: State)
    requires 0 < |s.playlist| <= s.cursor
    ensures PlayMusic(s) == Outcome(s, IndexError)
  {
  }

  /** Play-pause toggles: pausing only stops the player; the sequencer state is untouched. */
  lemma PlayPauseWhilePlayingPauses(s: State)
    requires s.media.playing
    ensures PlayPauseMusic(s) == Outcome(s.(media := s.media.(playing := false)), Silent)
  {
  }

  /** Play-pause while stopped plays: from a cursor on a track, or unset, the current (or first) track is loaded and playing. */
  lemma PlayPauseWhileStoppedPlays(s: State)
    requires !s.media.playing && |s.playlist| > 0 && -1 <= s.cursor < |s.playlist|
    ensures var o := PlayPauseMusic(s);
      && o.notice == Played && o.state.media.playing
      && o.state.cursor == (if s.cursor == -1 then 0 else s.cursor)
      && o.state.media.source == s.playlist[o.state.cursor]
      && o.state.(cursor := s.cursor, media := s.media) == s
  {
  }

  // ---------------------------------------------------------------------------
  // next_track
  // ---------------------------------------------------------------------------

  /** Next and Previous are ignored on an empty playlist. */
  lemma EmptyPlaylistIgnoresNavigation(s: State)
    requires |s.playlist| == 0
    ensures NextTrack(s) == Outcome(s, Silent)
    ensures PrevTrack(s) == Outcome(s, Silent)
  {
  }

  /** Next without shuffle pushes the cursor and steps forward with wrap-around. */
  lemma NextSequential(s: State)
    requires |s.playlist| > 0 && !s.shuffle
    ensures var t := NextTrack(s).state;
      && t.cursor == Wrap(s.cursor + 1, |s.playlist|)
      && 0 <= t.cursor < |s.playlist|
      && t.history == s.history + [s.cursor]
      && t.playlist == s.playlist && t.queue == s.queue
      && t.media.source == s.playlist[t.cursor] && t.media.playing
    ensures NextTrack(s).notice == Played
  {
  }

  /** Next with shuffle pushes the cursor and dequeues the head of the shuffle queue, or goes to 0 once it is exhausted. */
  lemma NextShuffled(s: State)
    requires |s.playlist| > 0 && s.shuffle
    requires forall i :: 0 <= i < |s.queue| ==> s.queue[i] >= 0
    ensures var t := NextTrack(s).state;
      && t.history == s.history + [s.cursor]
      && t.playlist == s.playlist
      && (|s.queue| > 0 ==> t.cursor == s.queue[0] && t.queue == s.queue[1..])
      && (|s.queue| == 0 ==> t.cursor == 0 && t.queue == [])
    ensures (forall i :: 0 <= i < |s.queue| ==> s.queue[i] < |s.playlist|) ==> var o := NextTrack(s);
      && o.notice == Played && o.state.media.playing
      && 0 <= o.state.cursor < |s.playlist| && o.state.media.source == s.playlist[o.state.cursor]
  {
  }

  /** Next changes neither the playlist nor the two modes. */
  lemma NextKeepsPlaylistAndModes(s: State)
    ensures var t := NextTrack(s).state;
      t.playlist == s.playlist && t.shuffle == s.shuffle && t.repeat == s.repeat
  {
  }

  /** Pressing Next any number of times changes neither the playlist nor the two modes. */
  lemma {:induction false} NextTimesKeepsPlaylistAndModes(s: State, k: nat)
    ensures var t := NextTimes(s, k);
      t.playlist == s.playlist && t.shuffle == s.shuffle && t.repeat == s.repeat
    decreases k
  {
    if k > 0 {
      NextKeepsPlaylistAndModes(s);
      NextTimesKeepsPlaylistAndModes(NextTrack(s).state, k - 1);
    }
  }

  /** After `k >= 1` presses of Next, in either mode, the cursor is the last one visited. */
  lemma {:induction false} NextTimesCursor(s: State, k: nat)
    requires k > 0
    ensures NextTimes(s, k).cursor == Visited(s, k)[k - 1]
    decreases k
  {
    var s1 := NextTrack(s).state;
    assert Visited(s, k) == [s1.cursor] + Visited(s1, k - 1);
    if k > 1 {
      NextTimesCursor(s1, k - 1);
    }
  }

  /**
   * After `k` presses of Next, in either mode, the history has grown by the
   * cursor each press left: the starting cursor, then every visited one but
   * the last.
   */
  lemma {:induction false} NextTimesTrail(s: State, k: nat)
    requires |s.playlist| > 0
    ensures NextTimes(s, k).history == s.history + ([s.cursor] + Visited(s, k))[..k]
    decreases k
  {
    if k > 0 {
      var s1 := NextTrack(s).state;
      assert s1.history == s.history + [s.cursor] && |s1.playlist| > 0 by {
        NextKeepsPlaylistAndModes(s);
      }
      NextTimesTrail(s1, k - 1);
      assert Visited(s, k) == [s1.cursor] + Visited(s1, k - 1);
      assert ([s.cursor] + Visited(s, k))[..k] == [s.cursor] + ([s1.cursor] + Visited(s1, k - 1))[..k - 1];
    }
  }

  /** Without shuffle, the `i`-th press of Next (counting from 0) lands on `(cursor + i + 1) mod N`. */
  lemma {:induction false} VisitedSequential(s: State, k: nat, i: nat)
    requires |s.playlist| > 0 && !s.shuffle && i < k
    ensures Visited(s, k)[i] == Wrap(s.cursor + i + 1, |s.playlist|)
    decreases i
  {
    var n := |s.playlist|;
    var s1 := NextTrack(s).state;
    NextSequential(s);
    assert Visited(s, k) == [s1.cursor] + Visited(s1, k - 1);
    if i > 0 {
      VisitedSequential(s1, k - 1, i - 1);
      WrapShift(s.cursor + 1, i, n);
    }
  }

  /** Without shuffle, `k >= 1` presses of Next move the cursor to `(cursor + k) mod N`. */
  lemma NextTimesSequential(s: State, k: nat)
    requires |s.playlist| > 0 && !s.shuffle && k > 0
    ensures NextTimes(s, k).cursor == Wrap(s.cursor + k, |s.playlist|)
  {
    NextTimesCursor(s, k);
    VisitedSequential(s, k, k - 1);
  }

  /** N presses of Next on an N-track playlist without shuffle come back to the starting track. */
  lemma FullCycleReturns(s: State)
    requires |s.playlist| > 0 && !s.shuffle
    requires 0 <= s.cursor < |s.playlist|
    ensures NextTimes(s, |s.playlist|).cursor == s.cursor
  {
    NextTimesSequential(s, |s.playlist|);
  }

  /** Without shuffle, the cursors of N presses of Next on an N-track playlist form a permutation of its indices. */
  lemma VisitedSequentialIsPermutation(s: State)
    requires |s.playlist| > 0 && !s.shuffle
    ensures IsPermutation(Visited(s, |s.playlist|), |s.playlist|)
  {
    var n := |s.playlist|;
    var p := Visited(s, n);
    forall i | 0 <= i < n
      ensures 0 <= p[i] < n
    {
      VisitedSequential(s, n, i);
    }
    forall i, j | 0 <= i < j < n
      ensures p[i] != p[j]
    {
      VisitedSequentialDistinct(s, i, j);
    }
  }

  /** Two different presses within one cycle land on different tracks. */
  lemma VisitedSequentialDistinct(s: State, i: nat, j: nat)
    requires |s.playlist| > 0 && !s.shuffle
    requires i < j < |s.playlist|
    ensures Visited(s, |s.playlist|)[i] != Visited(s, |s.playlist|)[j]
  {
    var n := |s.playlist|;
    VisitedSequential(s, n, i);
    VisitedSequential(s, n, j);
    WrapDistinct(s.cursor + i + 1, s.cursor + j + 1, n);
  }

  /** Without shuffle, N presses of Next on an N-track playlist visit every track exactly once. */
  lemma FullCycleVisitsEveryTrackOnce(s: State)
    requires |s.playlist| > 0 && !s.shuffle
    ensures multiset(Visited(s, |s.playlist|)) == multiset(Range(|s.playlist|))
  {
    VisitedSequentialIsPermutation(s);
    PermutationOfRange(Visited(s, |s.playlist|), |s.playlist|);
  }

  /** Under shuffle, `k` presses of Next consume the first `k` queue entries, the last of which becomes the cursor. */
  lemma {:induction false} NextTimesShuffled(s: State, k: nat)
    requires |s.playlist| > 0 && s.shuffle
    requires 0 < k <= |s.queue|
    requires forall i :: 0 <= i < |s.queue| ==> s.queue[i] >= 0
    ensures var t := NextTimes(s, k);
      && t.cursor == s.queue[k - 1]
      && t.queue == s.queue[k..]
    decreases k
  {
    var s1 := NextTrack(s).state;
    NextShuffled(s);
    if k > 1 {
      NextTimesShuffled(s1, k - 1);
      assert s1.queue[k - 1..] == s.queue[k..];
    }
  }

  /** Under shuffle, the cursors visited by `k` presses of Next are the first `k` queue entries. */
  lemma {:induction false} VisitedFollowsQueue(s: State, k: nat)
    requires |s.playlist| > 0 && s.shuffle
    requires k <= |s.queue|
    requires forall i :: 0 <= i < |s.queue| ==> s.queue[i] >= 0
    ensures Visited(s, k) == s.queue[..k]
    decreases k
  {
    if k > 0 {
      var s1 := NextTrack(s).state;
      DequeueStep(s);
      assert forall i :: 0 <= i < |s1.queue| ==> s1.queue[i] == s.queue[i + 1];
      VisitedFollowsQueue(s1, k - 1);
      assert Visited(s, k) == [s1.cursor] + Visited(s1, k - 1);
      assert s.queue[..k] == [s.queue[0]] + s1.queue[..k - 1];
    }
  }

  /** One shuffled press of Next on a non-empty queue, as the walk above needs it. */
  lemma DequeueStep(s: State)
    requires |s.playlist| > 0 && s.shuffle && |s.queue| > 0
    ensures var t := NextTrack(s).state;
      && t.cursor == (if s.queue[0] == -1 then 0 else s.queue[0])
      && t.queue == s.queue[1..] && t.shuffle && t.playlist == s.playlist
  {
  }

  /**
   * Turning shuffle on draws a fresh queue; the next N presses of Next then
   * visit every track of the N-track playlist exactly once, in queue order.
   */
  lemma ShuffleOnVisitsEveryTrackOnce(s: State, order: seq<int>)
    requires |s.playlist| > 0
    requires IsPermutation(order, |s.playlist|)
    ensures var t := ToggleShuffle(s, true, order).state;
      && Visited(t, |s.playlist|) == order
      && multiset(Visited(t, |s.playlist|)) == multiset(Range(|s.playlist|))
  {
    var t := ToggleShuffle(s, true, order).state;
    VisitedFollowsQueue(t, |s.playlist|);
    assert order[..|s.playlist|] == order;
    PermutationOfRange(order, |s.playlist|);
  }

  // ---------------------------------------------------------------------------
  // prev_track
  // ---------------------------------------------------------------------------

  /** Previous with a history pops its top into the cursor (an unset -1 then plays from 0). */
  lemma PrevPopsHistory(s: State)
    requires |s.playlist| > 0 && |s.history| > 0
    ensures var t := PrevTrack(s).state;
      && t.history == s.history[..|s.history| - 1]
      && t.cursor == (if Top(s.history) == -1 then 0 else Top(s.history))
      && t.playlist == s.playlist && t.queue == s.queue
    ensures -1 <= Top(s.history) < |s.playlist| ==> var o := PrevTrack(s);
      && o.notice == Played && o.state.media.playing
      && o.state.media.source == s.playlist[o.state.cursor]
  {
  }

  /** Previous with an empty history after more than 5 s of playback rewinds the track and keeps the cursor. */
  lemma PrevRestartsLongPlayedTrack(s: State)
    requires |s.playlist| > 0 && |s.history| == 0
    requires s.media.position > RestartThreshold
    ensures PrevTrack(s) == Outcome(s.(media := s.media.(position := 0)), Silent)
  {
  }

  /** Previous with an empty history early in a track steps back with wrap-around, landing in range. */
  lemma PrevStepsBack(s: State)
    requires |s.playlist| > 0 && |s.history| == 0
    requires s.media.position <= RestartThreshold
    ensures var o := PrevTrack(s);
      && o.state.cursor == Wrap(s.cursor - 1, |s.playlist|)
      && 0 <= o.state.cursor < |s.playlist|
      && (s.cursor == 0 ==> o.state.cursor == |s.playlist| - 1)
      && o.state.history == [] && o.state.playlist == s.playlist
      && o.notice == Played
  {
  }

  /** Previous right after Next undoes it through the history: same history, same cursor. */
  lemma PrevUndoesNext(s: State)
    requires |s.playlist| > 0
    ensures var t := PrevTrack(NextTrack(s).state).state;
      && t.history == s.history
      && t.cursor == (if s.cursor == -1 then 0 else s.cursor)
      && t.playlist == s.playlist
  {
  }

  // ---------------------------------------------------------------------------
  // open_files, shuffle_playlist_action, generate_shuffle_playlist, toggles
  // ---------------------------------------------------------------------------

  /** Opening a non-empty selection replaces the playlist, puts the cursor on its first track and clears the history, but keeps the old shuffle queue and leaves the old track loaded and playing; an empty selection changes nothing. */
  lemma OpenReplacesPlaylist(s: State, files: seq<string>)
    ensures |files| == 0 ==> OpenFiles(s, files) == Outcome(s, Silent)
    ensures |files| > 0 ==> var o := OpenFiles(s, files);
      && o.state.playlist == files && o.state.cursor == 0 && o.state.history == []
      && o.state.queue == s.queue
      && o.state.shuffle == s.shuffle && o.state.repeat == s.repeat
      && o.state.media == s.media
      && o.notice == Loaded(|files|)
  {
  }

  /** Shuffling the playlist keeps exactly its tracks, restarts from the new first track and leaves the history, the queue and both flags alone. */
  lemma ShufflePlaylistPermutes(s: State, perm: seq<int>)
    requires IsPermutation(perm, |s.playlist|)
    ensures |s.playlist| == 0 ==> ShufflePlaylistAction(s, perm) == Outcome(s, NoFilesWarning)
    ensures |s.playlist| > 0 ==> var o := ShufflePlaylistAction(s, perm);
      && |o.state.playlist| == |s.playlist|
      && multiset(o.state.playlist) == multiset(s.playlist)
      && o.state.cursor == 0
      && o.state.media.source == o.state.playlist[0] && o.state.media.playing
      && o.state.history == s.history && o.state.queue == s.queue
      && o.state.repeat == s.repeat && o.state.shuffle == s.shuffle
      && o.notice == Shuffled
  {
    PermutePreservesMultiset(s.playlist, perm);
  }

  /** The generated shuffle queue holds every index of the playlist exactly once. */
  lemma GeneratedQueueCoversPlaylist(s: State, order: seq<int>)
    requires IsPermutation(order, |s.playlist|)
    ensures var t := GenerateShufflePlaylist(s, order);
      && multiset(t.queue) == multiset(Range(|s.playlist|))
      && (forall j :: 0 <= j < |s.playlist| ==> j in t.queue)
      && t.(queue := s.queue) == s
  {
    PermutationOfRange(order, |s.playlist|);
  }

  /** The shuffle button sets the flag; only turning shuffle on replaces the queue. */
  lemma ToggleShuffleRegeneratesOnlyWhenOn(s: State, checked: bool, order: seq<int>)
    requires checked ==> IsPermutation(order, |s.playlist|)
    ensures var t := ToggleShuffle(s, checked, order).state;
      && t.shuffle == checked
      && (checked ==> t.queue == order)
      && (!checked ==> t.queue == s.queue)
      && t.(shuffle := s.shuffle, queue := s.queue) == s
  {
  }

  /** The repeat button only sets the flag. */
  lemma ToggleRepeatSetsFlag(s: State, checked: bool)
    ensures ToggleRepeat(s, checked) == Outcome(s.(repeat := checked), Silent)
  {
  }

  // ---------------------------------------------------------------------------
  // handle_media_end, streaming
  // ---------------------------------------------------------------------------

  /** At the end of a track: repeat replays it from 0, otherwise the player advances as Next; other statuses are ignored. */
  lemma MediaEndRepeatsOrAdvances(s: State, status: MediaStatus)
    ensures status == EndOfMedia && s.repeat ==>
      HandleMediaEnd(s, status) == Outcome(s.(media := s.media.(position := 0, playing := true)), Silent)
    ensures status == EndOfMedia && !s.repeat ==> HandleMediaEnd(s, status) == NextTrack(s)
    ensures status != EndOfMedia ==> HandleMediaEnd(s, status) == Outcome(s, Silent)
  {
  }

  /** A resolved stream is appended to the playlist only: the shuffle queue does not learn its index, so a queue within the old playlist never names the new track. */
  lemma StreamAppendsToPlaylistOnly(s: State, url: string)
    ensures var t := AddStream(s, Some(url)).state;
      && t.playlist == s.playlist + [url]
      && t.queue == s.queue
      && ((forall i :: 0 <= i < |s.queue| ==> s.queue[i] < |s.playlist|) ==> |s.playlist| !in t.queue)
      && t.(playlist := s.playlist) == s
    ensures AddStream(s, None) == Outcome(s, StreamingError)
  {
  }

  // ---------------------------------------------------------------------------
  // The in-range invariant and what breaks it
  // ---------------------------------------------------------------------------

  /** The cursor and every history entry are a track index or the unset -1. */
  predicate InRange(s: State) {
    && -1 <= s.cursor < |s.playlist|
    && (forall i :: 0 <= i < |s.history| ==> -1 <= s.history[i] < |s.playlist|)
  }

  /** Every queued index is a track index. */
  predicate QueueInRange(s: State) {
    forall i :: 0 <= i < |s.queue| ==> 0 <= s.queue[i] < |s.playlist|
  }

  /** The queue only matters while shuffle is on. */
  predicate Safe(s: State) {
    InRange(s) && (s.shuffle ==> QueueInRange(s))
  }

  /** Opening files under shuffle keeps the queue valid only if the new list is long enough for every queued index. */
  predicate OpenKeepsQueue(s: State, cmd: Command) {
    cmd.PressOpen? && |cmd.files| > 0 && s.shuffle ==>
      forall i :: 0 <= i < |s.queue| ==> s.queue[i] < |cmd.files|
  }

  lemma InitialSafe()
    ensures Safe(Initial)
  {
  }

  /** Navigation keeps the invariant and never raises. */
  lemma NavigationSafe(s: State)
    requires Safe(s)
    ensures Safe(NextTrack(s).state) && NextTrack(s).notice != IndexError
    ensures Safe(PrevTrack(s).state) && PrevTrack(s).notice != IndexError
  {
    if |s.playlist| > 0 && |s.history| > 0 {
      var h := s.history[..|s.history| - 1];
      assert forall i :: 0 <= i < |h| ==> h[i] == s.history[i];
    }
    if |s.playlist| > 0 && s.shuffle && |s.queue| > 0 {
      assert s.queue[0] >= 0;
      var q := s.queue[1..];
      assert forall i :: 0 <= i < |q| ==> q[i] == s.queue[i + 1];
    }
  }

  /** Every command keeps the invariant and none raises, provided an open under shuffle does not shorten the list below a queued index. */
  lemma StepSafe(s: State, cmd: Command)
    requires Safe(s) && Admissible(s, cmd) && OpenKeepsQueue(s, cmd)
    ensures Safe(Dispatch(s, cmd).state)
    ensures Dispatch(s, cmd).notice != IndexError
  {
    match cmd
    case PressNext => NavigationSafe(s);
    case PressPrevious => NavigationSafe(s);
    case MediaStatusChanged(status) => NavigationSafe(s);
    case PressShufflePlaylist(perm) =>
    case ClickShuffle(checked, order) =>
    case StreamResolved(resolved) =>
    case _ =>
  }

  predicate GuardedRun(s: State, cmds: seq<Command>)
    decreases |cmds|
  {
    |cmds| == 0 ||
      (Admissible(s, cmds[0]) && OpenKeepsQueue(s, cmds[0])
       && GuardedRun(Dispatch(s, cmds[0]).state, cmds[1..]))
  }

  /** Along any such run from a safe state the invariant holds at the end and no command raised IndexError. */
  lemma {:induction false} RunSafe(s: State, cmds: seq<Command>)
    requires Safe(s) && GuardedRun(s, cmds)
    ensures RunAdmissible(s, cmds)
    ensures Safe(Run(s, cmds).last)
    ensures IndexError !in Run(s, cmds).notices
    decreases |cmds|
  {
    if |cmds| > 0 {
      StepSafe(s, cmds[0]);
      RunSafe(Dispatch(s, cmds[0]).state, cmds[1..]);
    }
  }

  /**
   * The stale queue `open_files` leaves behind: queue indices drawn for three
   * tracks, then a one-track list is opened, and the next press of Next makes
   * `play_music` index past the end.
   */
  lemma StaleQueueAfterOpenRaises()
    ensures var cmds := [PressOpen(["a", "b", "c"]), ClickShuffle(true, [2, 1, 0]), PressOpen(["x"]), PressNext];
      && RunAdmissible(Initial, cmds)
      && Run(Initial, cmds).notices == [Loaded(3), Silent, Loaded(1), IndexError]
      && Run(Initial, cmds).last.cursor == 2
  {
    var s1 := OpenFiles(Initial, ["a", "b", "c"]).state;
    var s2 := ToggleShuffle(s1, true, [2, 1, 0]).state;
    var s3 := OpenFiles(s2, ["x"]).state;
    assert IsPermutation([2, 1, 0], 3);
    assert NextTrack(s3).notice == IndexError;
  }

  /** The scenario of a three-track list without shuffle: A, B, C, then back to A. */
  lemma SequentialScenario()
    ensures var s := OpenFiles(Initial, ["A", "B", "C"]).state;
      && Visited(s, 3) == [1, 2, 0]
      && NextTimes(s, 3).media.source == "A"
  {
    var s := OpenFiles(Initial, ["A", "B", "C"]).state;
    VisitedSequential(s, 3, 0);
    VisitedSequential(s, 3, 1);
    VisitedSequential(s, 3, 2);
    NextTimesCursor(s, 3);
  }

  /** The scenario of a three-track list with shuffle order [2, 0, 1]: Next visits C, A, B. */
  lemma ShuffledScenario()
    ensures var s := ToggleShuffle(OpenFiles(Initial, ["A", "B", "C"]).state, true, [2, 0, 1]).state;
      && Visited(s, 3) == [2, 0, 1]
      && NextTimes(s, 1).media.source == "C"
      && NextTimes(s, 2).media.source == "A"
      && NextTimes(s, 3).media.source == "B"
  {
    var s0 := OpenFiles(Initial, ["A", "B", "C"]).state;
    assert IsPermutation([2, 0, 1], 3);
    var s := ToggleShuffle(s0, true, [2, 0, 1]).state;
    VisitedFollowsQueue(s, 3);
    assert [2, 0, 1][..3] == [2, 0, 1];
  }
}
