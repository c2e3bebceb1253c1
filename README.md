# Track seek plugin: the seek decision rule

This project models the core of a Rhythmbox plugin that adds two actions,
"Seek Backward" and "Seek Forward". Each one moves the playback position of
the current track by a fixed number of seconds. The model covers the part
with logic in it: the two action handlers of `TrackSeekPlugin`.

- A backward seek runs only while a song is playing. It moves the position
  back 5 seconds and never below 0.
- A forward seek runs only while a song is playing and the reported duration
  is strictly positive. It moves the position forward 10 seconds and never
  past the duration. If the position is already past the duration, the seek
  moves it back to the duration.
- In every other case the handler does nothing.

Layout:

- `wrappers.dfy`: the `Option` type used for a refused forward seek.
- `seek_targets.dfy` (module `SeekTargets`): the two seek amounts and the
  pure target functions `BackwardTarget` and `ForwardTarget`. It also holds
  `Replay`, the position after a run of key presses while the song plays,
  and lemmas about single and repeated seeks.
- `seek_plugin.dfy` (module `SeekPlugin`): `ShellPlayer` stands in for the
  host's shell player. It has the playing flag, the elapsed time and the
  song duration, plus a ghost log of every position written through
  `SetPlayingTime`. `TrackSeekPlugin` holds the two handlers. Each handler
  is specified against the target functions and the write log.

The host's getters and setter become fields and one method of
`ShellPlayer`. Nothing else from the host is modelled.

The code's forward-seek guard is `song_duration > 0`, so a negative
duration is refused like a zero one; the model follows the code. The code
does not require the position to be non-negative, so the model takes any
integer position. The backward floor still gives a result of at least 0.

## Model

| member | source | states |
|---|---|---|
| SeekTargets.SeekAmounts | seek/__init__.py:28-29 | the backward amount is 5 and the forward amount 10; both are positive and forward is the larger |
| SeekTargets.BackwardTarget | seek/__init__.py:76-78 | the target is at least 0 and at least t - 5, and it is one of those two, so it is max(0, t - 5); it never exceeds a non-negative start t; from any t <= 5, including 0, it is 0 |
| SeekTargets.ForwardTarget | seek/__init__.py:90-94 | a target exists exactly when the duration d > 0, so zero and negative durations are refused; the target is at most d and at most t + 10 and equals one of them, so it is min(d, t + 10); from t >= d it is d; from t >= 0 it is non-negative |
| SeekTargets.StepInRange | seek/__init__.py:75-97 | one press while playing keeps a position in [0, d] inside [0, d] when d > 0; a forward press with d <= 0 leaves the position unchanged |
| SeekTargets.ReplayInRange | seek/__init__.py:71-100 | any sequence of backward and forward presses from a position in [0, d], with d > 0, ends in [0, d] |
| SeekTargets.RepeatedBackward | seek/__init__.py:76-81 | n >= 1 backward presses from t end at max(0, t - 5n); presses from 0 stay at 0 |
| SeekTargets.RepeatedForward | seek/__init__.py:90-97 | n >= 1 forward presses end at min(d, t + 10n) when d > 0, and leave the position at t when d <= 0 |
| SeekTargets.Examples | seek/__init__.py:76-94 | worked cases: back from 12 is 7, back from 3 is 0, back from 0 is 0; forward from 90 and from 120 in a 100-second song is 100, from 50 is 60; forward with duration 0 or -1 is refused |
| SeekPlugin.ShellPlayer.SetPlayingTime | seek/__init__.py:81 | the position becomes the given value and the write is appended to the log |
| SeekPlugin.TrackSeekPlugin.OnSkipBackward | seek/__init__.py:71-83 | while playing, exactly one write, of BackwardTarget of the old position; when not playing, no write and the position is unchanged; the playing flag and duration never change |
| SeekPlugin.TrackSeekPlugin.OnSkipForward | seek/__init__.py:85-100 | while playing with duration > 0, exactly one write, of the ForwardTarget value; when not playing or the duration is <= 0, no write and the position is unchanged; the playing flag and duration never change |
| SeekPlugin.Session | seek/__init__.py:71-100 | a backward then a forward handler call while playing leave the position where Replay of those two presses says |

## Left out

- Action and menu registration (`add_action`, `remove_action`, `do_activate`, `do_deactivate`, seek/__init__.py:44-69, 102-105): these are calls into the GTK/Gio application and window objects, whose behaviour is not part of this model.
- The action names, menu labels and accelerator strings set in `__init__` (seek/__init__.py:35-42): static configuration with no logic.
- All console logging by `print`: output only, with no effect on state.
- The GObject property `object` and the `shell_player` lookup: the handler reaches the player through `TrackSeekPlugin.shellPlayer` instead.
- The tuple results of `get_playing()` and `get_playing_time()`: modelled as the boolean `playing` and the integer `time`.
- Playback advancing the position between two key presses: `Replay` assumes the position moves only by seeks.
- The host's own handling of the position it is given (how it seeks the stream) is not part of this model.
