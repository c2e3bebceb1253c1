/**
 * The decision rule of the track-seek plugin: where a backward or forward
 * seek moves the playback position, and when a forward seek is refused.
 * Positions and durations are whole seconds, as the host player reports them.
 */
module SeekTargets {
  import opened Wrappers

  /** Seconds moved by one backward seek. */
  const SeekBackwardTime: int := 5
  /** Seconds moved by one forward seek. */
  const SeekForwardTime: int := 10

  function Max(a: int, b: int): int { if a < b then b else a }
  function Min(a: int, b: int): int { if a < b then a else b }

  /** The seek amounts are fixed, positive, and forward is the larger. */
  lemma SeekAmounts()
    ensures SeekBackwardTime == 5 && SeekForwardTime == 10
    ensures 0 < SeekBackwardTime < SeekForwardTime
  {
  }

  /**
   * Target of a backward seek from position t: t moved back by the backward
   * amount, floored at the start of the track.
   */
  function BackwardTarget(t: int): (r: int)
    ensures r >= 0
    ensures r >= t - SeekBackwardTime
    ensures r == 0 || r == t - SeekBackwardTime
    ensures t >= 0 ==> r <= t
    ensures t <= SeekBackwardTime ==> r == 0
  {
    var seekTime := t - SeekBackwardTime;
    if seekTime < 0 then 0 else seekTime
  }

  /**
   * Target of a forward seek from position t in a song of duration d: None
   * when the duration is not strictly positive (the seek is refused),
   * otherwise t moved forward by the forward amount, capped at d.
   */
  function ForwardTarget(t: int, d: int): (r: Option<int>)
    ensures r.Some? <==> d > 0
    ensures r.Some? ==> r.value <= d && r.value <= t + SeekForwardTime
    ensures r.Some? ==> r.value == d || r.value == t + SeekForwardTime
    ensures r.Some? && t >= d ==> r.value == d
    ensures r.Some? && t >= 0 ==> r.value >= 0
  {
    var seekTime := t + SeekForwardTime;
    if d > 0 then Some(if seekTime > d then d else seekTime) else None
  }

  /** The user's two actions. */
  datatype Press = Backward | Forward

  /** Position after one press while the player is playing. */
  function Step(t: int, d: int, p: Press): int
  {
    match p
    case Backward => BackwardTarget(t)
    case Forward =>
      match ForwardTarget(t, d)
      case Some(x) => x
      case None => t
  }

  /** Position after a run of presses while the player keeps playing. */
  function Replay(t: int, d: int, ps: seq<Press>): int
    decreases |ps|
  {
    if ps == [] then t else Replay(Step(t, d, ps[0]), d, ps[1..])
  }

  /** n presses of the same key. */
  function Presses(p: Press, n: nat): (r: seq<Press>)
    ensures |r| == n
    ensures forall i :: 0 <= i < n ==> r[i] == p
  {
    if n == 0 then [] else [p] + Presses(p, n - 1)
  }

  /**
   * A position inside the song stays inside it whatever key is pressed,
   * and a forward press on an unknown duration leaves it where it is.
   */
  lemma StepInRange(t: int, d: int, p: Press)
    requires 0 <= t
    ensures 0 <= Step(t, d, p)
    ensures d > 0 && t <= d ==> Step(t, d, p) <= d
    ensures d <= 0 && p == Forward ==> Step(t, d, p) == t
  {
  }

  /**
   * Any run of presses from a position inside a song of positive duration
   * ends inside the song.
   */
  lemma {:induction false} ReplayInRange(t: int, d: int, ps: seq<Press>)
    requires d > 0 && 0 <= t <= d
    ensures 0 <= Replay(t, d, ps) <= d
    decreases |ps|
  {
    if ps != [] {
      StepInRange(t, d, ps[0]);
      ReplayInRange(Step(t, d, ps[0]), d, ps[1..]);
    }
  }

  /** Pressing `p` first and then `n` more times is pressing it n + 1 times. */
  lemma {:induction false} ReplayPresses(t: int, d: int, p: Press, n: nat)
    ensures Replay(t, d, Presses(p, n + 1)) == Replay(Step(t, d, p), d, Presses(p, n))
  {
    assert Presses(p, n + 1)[0] == p;
    assert Presses(p, n + 1)[1..] == Presses(p, n);
  }

  /**
   * n >= 1 backward presses from t land at t minus n times the backward
   * amount, floored at 0; in particular presses from 0 stay at 0.
   */
  lemma {:induction false} RepeatedBackward(t: int, n: nat)
    requires n >= 1
    ensures forall d :: Replay(t, d, Presses(Backward, n)) == Max(0, t - n * SeekBackwardTime)
    decreases n
  {
    forall d ensures Replay(t, d, Presses(Backward, n)) == Max(0, t - n * SeekBackwardTime) {
      ReplayPresses(t, d, Backward, n - 1);
      if n > 1 {
        RepeatedBackward(BackwardTarget(t), n - 1);
      }
    }
  }

  /**
   * n >= 1 forward presses from t in a song of positive duration d land at t
   * plus n times the forward amount, capped at d; with a duration that is
   * not positive they leave the position at t.
   */
  lemma {:induction false} RepeatedForward(t: int, d: int, n: nat)
    requires n >= 1
    ensures d > 0 ==> Replay(t, d, Presses(Forward, n)) == Min(d, t + n * SeekForwardTime)
    ensures d <= 0 ==> Replay(t, d, Presses(Forward, n)) == t
    decreases n
  {
    ReplayPresses(t, d, Forward, n - 1);
    if n > 1 {
      RepeatedForward(Step(t, d, Forward), d, n - 1);
    }
  }

  /** The worked cases of the seek rule. */
  lemma Examples()
    ensures BackwardTarget(12) == 7
    ensures BackwardTarget(3) == 0
    ensures BackwardTarget(0) == 0
    ensures ForwardTarget(90, 100) == Some(100)
    ensures ForwardTarget(50, 100) == Some(60)
    ensures ForwardTarget(50, 0) == None
    ensures ForwardTarget(50, -1) == None
    ensures ForwardTarget(120, 100) == Some(100)
  {
  }
}
