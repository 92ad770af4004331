/**
 * The playlist/playback sequencer of the Cecilio music player, as values.
 *
 * `State` holds what `CecilioMusicPlayer` keeps on `self` for playback
 * (playlist, history stack, shuffle queue, cursor, the two mode flags) and
 * the three things the sequencer reads from or writes to its `QMediaPlayer`
 * (the loaded source, the position in milliseconds, whether it plays).
 * Every transport slot of the window is one function from a `State` to an
 * `Outcome`: the new state and the notice (message box, or the uncaught
 * exception) the user sees.
 */
module Sequencer {
  import opened Permutations
  import opened Modular

  datatype Option<T> = None | Some(value: T)

  /** `prev_track` restarts the current track instead of going back once more than this many milliseconds have played. */
  const RestartThreshold: nat := 5000

  /** The values of `QMediaPlayer.MediaStatus`, delivered to `handle_media_end`. */
  datatype MediaStatus =
    | UnknownMediaStatus | NoMedia | LoadingMedia | LoadedMedia | StalledMedia
    | BufferingMedia | BufferedMedia | EndOfMedia | InvalidMedia

  /** The part of the media player the sequencer touches. */
  datatype Media = Media(source: string, position: nat, playing: bool)

  datatype State = State(
    playlist: seq<string>,   // self.playlist
    history: seq<int>,       // self.previous_tracks, a stack (last element on top)
    queue: seq<int>,         // self.shuffle_playlist, a queue (first element next)
    cursor: int,             // self.current_index, -1 when unset
    repeat: bool,
    shuffle: bool,
    media: Media)

  /** What the user is shown after a command. */
  datatype Notice =
    | Silent                // no dialog
    | Played                // play_music reached media_player.play()
    | NoFilesWarning        // "No files in playlist."
    | IndexError            // playlist[current_index] raised; the slot is aborted
    | Shuffled              // "Playlist has been shuffled!"
    | Loaded(count: nat)    // "{count} files added to playlist."
    | StreamingError        // "Failed to load stream. Please check the URL."

  datatype Outcome = Outcome(state: State, notice: Notice)

  /** The state `__init__` sets up: nothing loaded, cursor unset, both modes off. */
  const Initial: State := State([], [], [], -1, false, false, Media("", 0, false))

  /**
   * Python's `xs[i]` on a list of length `n`: a negative `i` counts from the
   * end, anything outside `-n..n-1` raises IndexError (None here).
   */
  function PyIndex(n: nat, i: int): (r: Option<nat>)
    ensures r.Some? <==> 0 <= n + i && i < n
    ensures r.Some? ==> r.value < n
  {
    if 0 <= i < n then Some(i)
    else if 0 <= n + i && i < 0 then Some(n + i)
    else None
  }

  /** The last element of a non-empty list, what `list.pop()` returns. */
  function Top(h: seq<int>): int
    requires |h| > 0
  {
    h[|h| - 1]
  }

  /** `play_music`: fix an unset cursor, load the current track if it is not the loaded one, and play. */
  function PlayMusic(s: State): (r: Outcome)
    ensures r.state.(cursor := s.cursor, media := s.media) == s
    ensures r.state.cursor != s.cursor ==> s.cursor == -1 && r.state.cursor == 0 < |s.playlist|
    ensures r.notice.Played? || r.notice.NoFilesWarning? || r.notice.IndexError?
    ensures r.notice.NoFilesWarning? <==> |s.playlist| == 0
    ensures r.notice.Played? ==> r.state.media.playing && r.state.media.source in s.playlist
    ensures !r.notice.Played? ==> r.state.media == s.media
  {
    var c := if s.cursor == -1 && |s.playlist| > 0 then 0 else s.cursor;
    var s1 := s.(cursor := c);
    if |s.playlist| == 0 || c == -1 then
      Outcome(s1, NoFilesWarning)
    else
      match PyIndex(|s.playlist|, c)
      case None => Outcome(s1, IndexError)
      case Some(k) =>
        var track := s.playlist[k];
        var m := if s.media.source != track then Media(track, 0, true) else s.media.(playing := true);
        Outcome(s1.(media := m), Played)
  }

  /** `pause_music`. */
  function PauseMusic(s: State): (r: Outcome)
    ensures !r.state.media.playing
    ensures r.state.(media := s.media) == s && r.state.media.(playing := s.media.playing) == s.media
  {
    Outcome(s.(media := s.media.(playing := false)), Silent)
  }

  /** `play_pause_music`: pause while playing, play otherwise. */
  function PlayPauseMusic(s: State): (r: Outcome)
    ensures r.state.(cursor := s.cursor, media := s.media) == s
    ensures s.media.playing ==> !r.state.media.playing && r.state.media.source == s.media.source
    ensures !s.media.playing ==> r == PlayMusic(s)
  {
    if s.media.playing then PauseMusic(s) else PlayMusic(s)
  }

  /** `prev_track`: pop the history, else restart a track played past the threshold, else step back with wrap-around. */
  function PrevTrack(s: State): (r: Outcome)
    ensures r.state.(cursor := s.cursor, history := s.history, media := s.media) == s
    ensures |s.playlist| > 0 && |s.history| > 0 ==> r.state.history == s.history[..|s.history| - 1]
    ensures |s.playlist| == 0 || |s.history| == 0 ==> r.state.history == s.history
    // popping a track index (or the unset -1) plays the popped track
    ensures |s.playlist| > 0 && |s.history| > 0 && -1 <= Top(s.history) < |s.playlist| ==>
      && r.notice == Played && r.state.media.playing
      && 0 <= r.state.cursor < |s.playlist| && r.state.media.source == s.playlist[r.state.cursor]
    // stepping back from a cursor in range plays the previous track
    ensures |s.playlist| > 0 && |s.history| == 0 && s.media.position <= RestartThreshold ==>
      && r.notice == Played && r.state.media.playing
      && 0 <= r.state.cursor < |s.playlist| && r.state.media.source == s.playlist[r.state.cursor]
  {
    if |s.playlist| == 0 then
      Outcome(s, Silent)
    else if |s.history| > 0 then
      PlayMusic(s.(cursor := Top(s.history), history := s.history[..|s.history| - 1]))
    else if s.media.position > RestartThreshold then
      Outcome(s.(media := s.media.(position := 0)), Silent)
    else
      PlayMusic(s.(cursor := Wrap(s.cursor - 1, |s.playlist|)))
  }

  /** `next_track`: push the cursor, then take the head of the shuffle queue (0 when it is empty) or step forward with wrap-around. */
  function NextTrack(s: State): (r: Outcome)
    ensures r.state.playlist == s.playlist && r.state.repeat == s.repeat && r.state.shuffle == s.shuffle
    ensures |s.playlist| == 0 ==> r == Outcome(s, Silent)
    ensures |s.playlist| > 0 ==> r.state.history == s.history + [s.cursor]
    ensures !s.shuffle ==> r.state.queue == s.queue
    ensures s.shuffle && |s.playlist| > 0 && |s.queue| > 0 ==> r.state.queue == s.queue[1..]
    // the track landed on is played, whenever the queue names only tracks of the playlist
    ensures |s.playlist| > 0 && (!s.shuffle || forall i :: 0 <= i < |s.queue| ==> 0 <= s.queue[i] < |s.playlist|) ==>
      && r.notice == Played && r.state.media.playing
      && 0 <= r.state.cursor < |s.playlist| && r.state.media.source == s.playlist[r.state.cursor]
  {
    if |s.playlist| == 0 then
      Outcome(s, Silent)
    else if s.shuffle then
      var c := if |s.queue| > 0 then s.queue[0] else 0;
      var q := if |s.queue| > 0 then s.queue[1..] else s.queue;
      PlayMusic(s.(history := s.history + [s.cursor], cursor := c, queue := q))
    else
      PlayMusic(s.(history := s.history + [s.cursor], cursor := Wrap(s.cursor + 1, |s.playlist|)))
  }

  /** `open_files`, given the files the dialog returned. The shuffle queue is left as it was. */
  function OpenFiles(s: State, files: seq<string>): (r: Outcome)
    ensures r.state.queue == s.queue && r.state.media == s.media
    ensures r.state.repeat == s.repeat && r.state.shuffle == s.shuffle
    ensures |files| > 0 ==> r.state.playlist == files && r.notice == Loaded(|files|)
    ensures |files| == 0 ==> r == Outcome(s, Silent)
  {
    if |files| == 0 then Outcome(s, Silent)
    else Outcome(s.(playlist := files, cursor := 0, history := []), Loaded(|files|))
  }

  /** `shuffle_playlist_action`, with `perm` standing for the order `random.shuffle` picked. */
  function ShufflePlaylistAction(s: State, perm: seq<int>): (r: Outcome)
    requires IsPermutation(perm, |s.playlist|)
    ensures multiset(r.state.playlist) == multiset(s.playlist)
    ensures r.state.history == s.history && r.state.queue == s.queue
    ensures r.state.repeat == s.repeat && r.state.shuffle == s.shuffle
    ensures r.notice == (if |s.playlist| == 0 then NoFilesWarning else Shuffled)
  {
    if |s.playlist| == 0 then Outcome(s, NoFilesWarning)
    else
      PermutePreservesMultiset(s.playlist, perm);
      Outcome(PlayMusic(s.(playlist := Permute(s.playlist, perm), cursor := 0)).state, Shuffled)
  }

  /** `generate_shuffle_playlist`, with `order` standing for what `random.sample(range(n), n)` returned. */
  function GenerateShufflePlaylist(s: State, order: seq<int>): (t: State)
    requires IsPermutation(order, |s.playlist|)
    ensures t.(queue := s.queue) == s
    ensures |t.queue| == |t.playlist| && IsPermutation(t.queue, |t.playlist|)
  {
    s.(queue := order)
  }

  /** `toggle_shuffle`: `checked` is the button's new state; a new queue is drawn only when shuffle turns on. */
  function ToggleShuffle(s: State, checked: bool, order: seq<int>): (r: Outcome)
    requires checked ==> IsPermutation(order, |s.playlist|)
    ensures r.state.shuffle == checked && r.notice == Silent
    ensures r.state.(shuffle := s.shuffle, queue := s.queue) == s
    ensures checked ==> IsPermutation(r.state.queue, |r.state.playlist|)
  {
    var s1 := s.(shuffle := checked);
    Outcome(if checked then GenerateShufflePlaylist(s1, order) else s1, Silent)
  }

  /** `toggle_repeat`. */
  function ToggleRepeat(s: State, checked: bool): (r: Outcome)
    ensures r.state.repeat == checked && r.notice == Silent
    ensures r.state.(repeat := s.repeat) == s
  {
    Outcome(s.(repeat := checked), Silent)
  }

  /** `handle_media_end`: on EndOfMedia replay from 0 under repeat, else advance; ignore every other status. */
  function HandleMediaEnd(s: State, status: MediaStatus): (r: Outcome)
    ensures r.state.playlist == s.playlist && r.state.repeat == s.repeat && r.state.shuffle == s.shuffle
    ensures status != EndOfMedia ==> r == Outcome(s, Silent)
    ensures status == EndOfMedia && s.repeat ==> r.state.media.source == s.media.source && r.state.cursor == s.cursor
  {
    if status == EndOfMedia then
      if s.repeat then Outcome(s.(media := s.media.(position := 0, playing := true)), Silent)
      else NextTrack(s)
    else
      Outcome(s, Silent)
  }

  /**
   * The common effect of the three streaming slots once the URL dialog
   * returned a URL: a resolved stream URL is appended to the playlist (and to
   * nothing else); a failed resolution only shows the streaming error.
   */
  function AddStream(s: State, resolved: Option<string>): (r: Outcome)
    ensures r.state.(playlist := s.playlist) == s
    ensures resolved.Some? ==> r.state.playlist == s.playlist + [resolved.value] && r.notice == Silent
    ensures resolved.None? ==> r == Outcome(s, StreamingError)
  {
    match resolved
    case None => Outcome(s, StreamingError)
    case Some(url) => Outcome(s.(playlist := s.playlist + [url]), Silent)
  }

  /** The signals the window connects to the sequencer's slots. */
  datatype Command =
    | PressPlayPause
    | PressNext
    | PressPrevious
    | PressOpen(files: seq<string>)
    | PressShufflePlaylist(perm: seq<int>)
    | ClickShuffle(checked: bool, order: seq<int>)
    | ClickRepeat(checked: bool)
    | MediaStatusChanged(status: MediaStatus)
    | StreamResolved(resolved: Option<string>)

  /** The random draws a command carries are permutations of the current playlist's indices. */
  predicate Admissible(s: State, cmd: Command) {
    match cmd
    case PressShufflePlaylist(perm) => IsPermutation(perm, |s.playlist|)
    case ClickShuffle(checked, order) => checked ==> IsPermutation(order, |s.playlist|)
    case _ => true
  }

  /**
   * Each mode flag changes only through its own button; the playlist only
   * through open, shuffle and streaming; the shuffle queue only through
   * Next (directly or at the end of a track) and the shuffle button.
   */
  function Dispatch(s: State, cmd: Command): (r: Outcome)
    requires Admissible(s, cmd)
    ensures r.state.repeat != s.repeat ==> cmd.ClickRepeat?
    ensures r.state.shuffle != s.shuffle ==> cmd.ClickShuffle?
    ensures r.state.playlist != s.playlist ==> cmd.PressOpen? || cmd.PressShufflePlaylist? || cmd.StreamResolved?
    ensures r.state.queue != s.queue ==> cmd.PressNext? || cmd.ClickShuffle? || cmd.MediaStatusChanged?
    ensures |r.state.playlist| != |s.playlist| ==> cmd.PressOpen? || cmd.StreamResolved?
  {
    match cmd
    case PressPlayPause => PlayPauseMusic(s)
    case PressNext => NextTrack(s)
    case PressPrevious => PrevTrack(s)
    case PressOpen(files) => OpenFiles(s, files)
    case PressShufflePlaylist(perm) => ShufflePlaylistAction(s, perm)
    case ClickShuffle(checked, order) => ToggleShuffle(s, checked, order)
    case ClickRepeat(checked) => ToggleRepeat(s, checked)
    case MediaStatusChanged(status) => HandleMediaEnd(s, status)
    case StreamResolved(resolved) => AddStream(s, resolved)
  }

  predicate RunAdmissible(s: State, cmds: seq<Command>)
    decreases |cmds|
  {
    |cmds| == 0 || (Admissible(s, cmds[0]) && RunAdmissible(Dispatch(s, cmds[0]).state, cmds[1..]))
  }

  datatype Trace = Trace(last: State, notices: seq<Notice>)

  /** The commands delivered one after another by the event loop. */
  function Run(s: State, cmds: seq<Command>): (t: Trace)
    requires RunAdmissible(s, cmds)
    ensures |t.notices| == |cmds|
    decreases |cmds|
  {
    if |cmds| == 0 then Trace(s, [])
    else
      var o := Dispatch(s, cmds[0]);
      var t := Run(o.state, cmds[1..]);
      Trace(t.last, [o.notice] + t.notices)
  }

  /** The state after `k` presses of Next. */
  function NextTimes(s: State, k: nat): State
    decreases k
  {
    if k == 0 then s else NextTimes(NextTrack(s).state, k - 1)
  }

  /** The cursors that `k` presses of Next move to, in order. */
  function Visited(s: State, k: nat): (v: seq<int>)
    ensures |v| == k
    decreases k
  {
    if k == 0 then [] else var t := NextTrack(s).state; [t.cursor] + Visited(t, k - 1)
  }
}
