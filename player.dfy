/**
 * The window object `CecilioMusicPlayer` with the fields its playback slots
 * update in place. Each slot is a method that changes those fields the way
 * the corresponding function of `Sequencer` says, and returns the notice the
 * user is shown. Randomness and the file and URL dialogs arrive as
 * parameters.
 */
module Player {
  import opened Permutations
  import opened Modular
  import Sequencer

  class CecilioMusicPlayer {
    var playlist: seq<string>
    var previousTracks: seq<int>
    var shufflePlaylist: seq<int>
    var currentIndex: int
    var repeat: bool
    var shuffle: bool
    // The media player: the loaded source, its position in milliseconds,
    // and whether it plays. The position advances as the media output plays.
    var source: string
    var position: nat
    var playing: bool

    /** The fields as one value of the sequencer model. */
    function Snapshot(): Sequencer.State
      reads this
    {
      Sequencer.State(playlist, previousTracks, shufflePlaylist, currentIndex, repeat, shuffle,
                      Sequencer.Media(source, position, playing))
    }

    constructor ()
      ensures Snapshot() == Sequencer.Initial
    {
      playlist, previousTracks, shufflePlaylist := [], [], [];
      currentIndex := -1;
      repeat, shuffle := false, false;
      source, position, playing := "", 0, false;
    }

    method PlayMusic() returns (notice: Sequencer.Notice)
      modifies this
      ensures Sequencer.PlayMusic(old(Snapshot())) == Sequencer.Outcome(Snapshot(), notice)
    {
      if currentIndex == -1 && |playlist| > 0 {
        currentIndex := 0;
      }
      if |playlist| == 0 || currentIndex == -1 {
        return Sequencer.NoFilesWarning;
      }
      var k := Sequencer.PyIndex(|playlist|, currentIndex);
      if k.None? {
        return Sequencer.IndexError;
      }
      var track := playlist[k.value];
      if source != track {
        source, position := track, 0;
      }
      playing := true;
      notice := Sequencer.Played;
    }

    method PauseMusic() returns (notice: Sequencer.Notice)
      modifies this
      ensures Sequencer.PauseMusic(old(Snapshot())) == Sequencer.Outcome(Snapshot(), notice)
    {
      playing := false;
      notice := Sequencer.Silent;
    }

    method PlayPauseMusic() returns (notice: Sequencer.Notice)
      modifies this
      ensures Sequencer.PlayPauseMusic(old(Snapshot())) == Sequencer.Outcome(Snapshot(), notice)
    {
      if playing {
        notice := PauseMusic();
      } else {
        notice := PlayMusic();
      }
    }

    method PrevTrack() returns (notice: Sequencer.Notice)
      modifies this
      ensures Sequencer.PrevTrack(old(Snapshot())) == Sequencer.Outcome(Snapshot(), notice)
    {
      if |playlist| == 0 {
        return Sequencer.Silent;
      }
      if |previousTracks| > 0 {
        currentIndex := previousTracks[|previousTracks| - 1];
        previousTracks := previousTracks[..|previousTracks| - 1];
      } else {
        if position > Sequencer.RestartThreshold {
          position := 0;
          return Sequencer.Silent;
        }
        currentIndex := Wrap(currentIndex - 1, |playlist|);
      }
      notice := PlayMusic();
    }

    method NextTrack() returns (notice: Sequencer.Notice)
      modifies this
      ensures Sequencer.NextTrack(old(Snapshot())) == Sequencer.Outcome(Snapshot(), notice)
    {
      if |playlist| == 0 {
        return Sequencer.Silent;
      }
      previousTracks := previousTracks + [currentIndex];
      if shuffle {
        if |shufflePlaylist| > 0 {
          currentIndex := shufflePlaylist[0];
          shufflePlaylist := shufflePlaylist[1..];
        } else {
          currentIndex := 0;
        }
      } else {
        currentIndex := Wrap(currentIndex + 1, |playlist|);
      }
      notice := PlayMusic();
    }

    /** `files` is what the file dialog returned. */
    method OpenFiles(files: seq<string>) returns (notice: Sequencer.Notice)
      modifies this
      ensures Sequencer.OpenFiles(old(Snapshot()), files) == Sequencer.Outcome(Snapshot(), notice)
    {
      if |files| == 0 {
        return Sequencer.Silent;
      }
      playlist := files;
      currentIndex := 0;
      previousTracks := [];
      notice := Sequencer.Loaded(|files|);
    }

    /** `perm` is the order `random.shuffle` put the tracks in. */
    method ShufflePlaylistAction(perm: seq<int>) returns (notice: Sequencer.Notice)
      requires IsPermutation(perm, |playlist|)
      modifies this
      ensures Sequencer.ShufflePlaylistAction(old(Snapshot()), perm) == Sequencer.Outcome(Snapshot(), notice)
    {
      if |playlist| == 0 {
        return Sequencer.NoFilesWarning;
      }
      playlist := Permute(playlist, perm);
      currentIndex := 0;
      var _ := PlayMusic();
      notice := Sequencer.Shuffled;
    }

    /** `order` is what `random.sample(range(n), n)` returned. */
    method GenerateShufflePlaylist(order: seq<int>)
      requires IsPermutation(order, |playlist|)
      modifies this
      ensures Snapshot() == Sequencer.GenerateShufflePlaylist(old(Snapshot()), order)
    {
      shufflePlaylist := order;
    }

    /** `checked` is the shuffle button's state after the click. */
    method ToggleShuffle(checked: bool, order: seq<int>) returns (notice: Sequencer.Notice)
      requires checked ==> IsPermutation(order, |playlist|)
      modifies this
      ensures Sequencer.ToggleShuffle(old(Snapshot()), checked, order) == Sequencer.Outcome(Snapshot(), notice)
    {
      shuffle := checked;
      if shuffle {
        GenerateShufflePlaylist(order);
      }
      notice := Sequencer.Silent;
    }

    /** `checked` is the repeat button's state after the click. */
    method ToggleRepeat(checked: bool) returns (notice: Sequencer.Notice)
      modifies this
      ensures Sequencer.ToggleRepeat(old(Snapshot()), checked) == Sequencer.Outcome(Snapshot(), notice)
    {
      repeat := checked;
      notice := Sequencer.Silent;
    }

    method HandleMediaEnd(status: Sequencer.MediaStatus) returns (notice: Sequencer.Notice)
      modifies this
      ensures Sequencer.HandleMediaEnd(old(Snapshot()), status) == Sequencer.Outcome(Snapshot(), notice)
    {
      notice := Sequencer.Silent;
      if status == Sequencer.EndOfMedia {
        if repeat {
          position := 0;
          playing := true;
        } else {
          notice := NextTrack();
        }
      }
    }

    /** `resolved` is the stream URL a streaming slot obtained, or None when resolving it failed. */
    method AddStream(resolved: Sequencer.Option<string>) returns (notice: Sequencer.Notice)
      modifies this
      ensures Sequencer.AddStream(old(Snapshot()), resolved) == Sequencer.Outcome(Snapshot(), notice)
    {
      match resolved
      case None =>
        notice := Sequencer.StreamingError;
      case Some(url) =>
        playlist := playlist + [url];
        notice := Sequencer.Silent;
    }
  }
}
