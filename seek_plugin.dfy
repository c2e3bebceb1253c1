/**
 * The plugin's two action handlers, acting on the host's shell player.
 */
module SeekPlugin {
  import opened Wrappers
  import opened SeekTargets

  /**
   * The part of the host's shell player the handlers use: whether a song is
   * playing, the elapsed seconds and the song's duration. `Written` records
   * every position passed to SetPlayingTime, so callers can see how many
   * writes a handler made.
   */
  class ShellPlayer {
    var playing: bool
    var time: int
    var duration: int
    ghost var Written: seq<int>

    constructor (playing: bool, time: int, duration: int)
      ensures this.playing == playing && this.time == time && this.duration == duration
      ensures Written == []
    {
      this.playing, this.time, this.duration := playing, time, duration;
      Written := [];
    }

    /** The host's position setter. */
    method SetPlayingTime(t: int)
      modifies this`time, this`Written
      ensures time == t
      ensures Written == old(Written) + [t]
    {
      time := t;
      Written := Written + [t];
    }
  }

  class TrackSeekPlugin {
    const shellPlayer: ShellPlayer

    constructor (sp: ShellPlayer)
      ensures shellPlayer == sp
    {
      shellPlayer := sp;
    }

    /**
     * Seek backward: when playing, one write of the backward target of the
     * current position; otherwise nothing changes.
     */
    method OnSkipBackward()
      modifies shellPlayer`time, shellPlayer`Written
      ensures shellPlayer.playing == old(shellPlayer.playing)
      ensures shellPlayer.duration == old(shellPlayer.duration)
      ensures old(shellPlayer.playing) ==>
        shellPlayer.time == BackwardTarget(old(shellPlayer.time)) &&
        shellPlayer.Written == old(shellPlayer.Written) + [shellPlayer.time]
      ensures !old(shellPlayer.playing) ==>
        shellPlayer.time == old(shellPlayer.time) &&
        shellPlayer.Written == old(shellPlayer.Written)
    {
      var sp := shellPlayer;
      if sp.playing {
        var seekTime := sp.time - SeekBackwardTime;
        if seekTime < 0 {
          seekTime := 0;
        }
        sp.SetPlayingTime(seekTime);
      }
    }

    /**
     * Seek forward: when playing and the duration is strictly positive, one
     * write of the forward target; when not playing, or the duration is zero
     * or negative, nothing changes.
     */
    method OnSkipForward()
      modifies shellPlayer`time, shellPlayer`Written
      ensures shellPlayer.playing == old(shellPlayer.playing)
      ensures shellPlayer.duration == old(shellPlayer.duration)
      ensures old(shellPlayer.playing) && old(shellPlayer.duration) > 0 ==>
        Some(shellPlayer.time) == ForwardTarget(old(shellPlayer.time), old(shellPlayer.duration)) &&
        shellPlayer.Written == old(shellPlayer.Written) + [shellPlayer.time]
      ensures !(old(shellPlayer.playing) && old(shellPlayer.duration) > 0) ==>
        shellPlayer.time == old(shellPlayer.time) &&
        shellPlayer.Written == old(shellPlayer.Written)
    {
      var sp := shellPlayer;
      if sp.playing {
        var seekTime := sp.time + SeekForwardTime;
        var songDuration := sp.duration;
        if songDuration > 0 {
          if seekTime > songDuration {
            seekTime := songDuration;
          }
          sp.SetPlayingTime(seekTime);
        }
      }
    }
  }

  /** Two presses while playing move the player as Replay says. */
  method Session(sp: ShellPlayer)
    requires sp.playing
    modifies sp
    ensures sp.time == Replay(old(sp.time), old(sp.duration), [Backward, Forward])
  {
    var plugin := new TrackSeekPlugin(sp);
    plugin.OnSkipBackward();
    plugin.OnSkipForward();
  }
}
