/**
  The position clock of a VOD asset: a one-second timer advances the position by the playback rate,
  and a rewind that has reached the start restarts playback after a short wait.
 */
module VodClock {

  const BEGIN_PLAYBACK: nat := 7  // ticks spent at the start before playback restarts

  datatype Clock = Clock(
    loaded: bool,       // a source exists
    base: real,         // position at the last seek
    progress: real,     // movement since
    rate: real,
    restarts: nat,      // ticks seen at the start of the asset while rewinding
    endReached: bool,
    inProgressRecording: bool,
    armed: bool)        // the progress timer is pending

  /** The reported position never goes below 0. */
  function Position(c: Clock): (p: real)
    ensures 0.0 <= p
  {
    if c.base + c.progress >= 0.0 then c.base + c.progress else 0.0
  }

  /** The VOD server plays rate 4 at 8. */
  function PerTick(rate: real): real {
    if rate == 4.0 || rate == -4.0 then rate + rate else rate
  }

  function SeekToStart(c: Clock): Clock {
    if !c.loaded then c else c.(rate := 1.0, progress := 0.0, base := 0.0, armed := false)
  }

  function Ended(c: Clock): Clock {
    var d := c.(armed := false, endReached := true);
    if c.rate < 0.0 then SeekToStart(d.(rate := 1.0))
    else if c.inProgressRecording && c.rate >= 1.0 then d.(rate := 1.0)
    else d
  }

  function Tick(c: Clock): Clock {
    var d := c.(progress := c.progress + PerTick(c.rate), armed := true);
    if d.rate < 0.0 && Position(d) == 0.0 then
      if d.restarts + 1 > BEGIN_PLAYBACK then Ended(d.(restarts := 0)) else d.(restarts := d.restarts + 1)
    else d
  }

  function Ticks(c: Clock, n: nat): Clock {
    if n == 0 then c else Tick(Ticks(c, n - 1))
  }

  // ---------------------------------------------------------------------------
  // A rewind always ends, and exactly when
  // ---------------------------------------------------------------------------

  function Ceiling(x: real): int {
    -((-x).Floor)
  }

  /** How far one tick rewinds. */
  function Stride(c: Clock): real { -PerTick(c.rate) }

  /** The first tick that finds the position at 0. */
  function Arrival(c: Clock): nat
    requires c.rate < 0.0
  {
    var n := Ceiling(Position(c) / Stride(c));
    if n < 1 then 1 else n
  }

  /** The tick that restarts playback; ticks left over from an abandoned rewind count. */
  function RestartTick(c: Clock): int
    requires c.rate < 0.0
  {
    Arrival(c) + BEGIN_PLAYBACK - c.restarts
  }

  ghost predicate Rewinding(c: Clock) {
    c.loaded && c.rate < 0.0 && c.restarts <= BEGIN_PLAYBACK
  }

  /** The distance `n` ticks rewind. */
  function Travelled(n: nat, stride: real): real {
    if n == 0 then 0.0 else Travelled(n - 1, stride) + stride
  }

  lemma {:induction false} TravelledIs(n: nat, stride: real)
    ensures Travelled(n, stride) == n as real * stride
  {
    if n > 0 {
      TravelledIs(n - 1, stride);
      assert n as real * stride == (n - 1) as real * stride + stride;
    }
  }

  /** A rewind has reached the start after `n` ticks exactly from its arrival on. */
  lemma ArrivalMeans(c: Clock, n: nat)
    requires c.rate < 0.0 && n >= 1
    ensures c.base + c.progress - Travelled(n, Stride(c)) <= 0.0 <==> n >= Arrival(c)
  {
    TravelledIs(n, Stride(c));
    TimesVersusQuotient(n, Position(c), Stride(c));
  }

  lemma TimesVersusQuotient(n: nat, p: real, d: real)
    requires 0.0 <= p && 0.0 < d
    ensures n as real * d >= p <==> n >= Ceiling(p / d)
    ensures n as real * d >= 0.0 && 0 <= Ceiling(p / d)
  {
    QuotientIs(p, d);
    ProductIsNat(n, d);
    CeilingIs(p / d);
    if n >= Ceiling(p / d) {
      ReachesProduct(n as real, p / d, d, p);
    } else {
      MissesProduct(n as real, p / d, d, p);
    }
  }

  lemma QuotientIs(p: real, d: real)
    requires 0.0 <= p && 0.0 < d
    ensures (p / d) * d == p && 0.0 <= p / d
  {
  }

  lemma ProductIsNat(n: nat, d: real)
    requires 0.0 < d
    ensures n as real * d >= 0.0
  {
    MulMonotone(0.0, n as real, d);
  }

  lemma ReachesProduct(x: real, q: real, d: real, p: real)
    requires q <= x && 0.0 < d && q * d == p
    ensures x * d >= p
  {
    MulMonotone(q, x, d);
  }

  lemma MissesProduct(x: real, q: real, d: real, p: real)
    requires x < q && 0.0 < d && q * d == p
    ensures x * d < p
  {
    MulStrict(x, q, d);
  }

  lemma CeilingIs(x: real)
    ensures (Ceiling(x) - 1) as real < x <= Ceiling(x) as real
    ensures 0.0 <= x ==> 0 <= Ceiling(x)
  {
    var f := (-x).Floor;
    assert f as real <= -x < f as real + 1.0;
  }

  lemma MulMonotone(x: real, y: real, d: real)
    requires x <= y && 0.0 < d
    ensures x * d <= y * d
  {
  }

  lemma MulStrict(x: real, y: real, d: real)
    requires x < y && 0.0 < d
    ensures x * d < y * d
  {
  }

  /** What a clock looks like `n` ticks into a rewind from `c`. */
  function Course(c: Clock, n: nat): Clock
    requires c.rate < 0.0
  {
    c.(progress := c.progress - Travelled(n, Stride(c)),
       restarts := c.restarts + (if n < Arrival(c) then 0 else n - Arrival(c) + 1),
       armed := c.armed || n > 0)
  }

  lemma CourseStep(c: Clock, n: nat)
    requires Rewinding(c) && n + 1 < RestartTick(c)
    ensures Tick(Course(c, n)) == Course(c, n + 1)
  {
    ArrivalMeans(c, n + 1);
  }

  lemma {:induction false} RewindCourse(c: Clock, n: nat)
    requires Rewinding(c) && n < RestartTick(c)
    ensures Ticks(c, n) == Course(c, n)
  {
    if n > 0 {
      RewindCourse(c, n - 1);
      CourseStep(c, n - 1);
    }
  }

  /** Before its restart tick a rewind keeps its rate and shows exactly the position it should. */
  lemma RewindPosition(c: Clock, n: nat)
    requires Rewinding(c) && n < RestartTick(c)
    ensures Ticks(c, n).rate == c.rate && Ticks(c, n).endReached == c.endReached
    ensures Position(Ticks(c, n)) ==
            var p := c.base + c.progress - Travelled(n, Stride(c)); if p >= 0.0 then p else 0.0
  {
    RewindCourse(c, n);
  }

  /** At its restart tick, at most eight ticks after reaching the start, playback restarts at position 0 with rate 1. */
  lemma RewindEnds(c: Clock)
    requires Rewinding(c)
    ensures var reached := Ceiling(Position(c) / ((if c.rate == -4.0 then 2.0 else 1.0) * -c.rate));
            && RestartTick(c) == (if reached < 1 then 1 else reached) + 7 - c.restarts
            && 1 <= RestartTick(c) <= reached + 8
    ensures var d := Ticks(c, RestartTick(c));
            d.rate == 1.0 && Position(d) == 0.0 && d.endReached && d.restarts == 0 && !d.armed
  {
    var last := RestartTick(c);
    RewindCourse(c, last - 1);
    ArrivalMeans(c, last);
    TimesVersusQuotient(0, Position(c), Stride(c));
    assert Course(c, last - 1).restarts == BEGIN_PLAYBACK;
  }

  /** Playing forward or standing still, `n` ticks move the position by `n` times the rate, twice that at rate 4. */
  lemma {:induction false} ForwardCourse(c: Clock, n: nat)
    requires c.rate >= 0.0
    ensures Ticks(c, n) ==
            c.(progress := c.progress + n as real * (if c.rate == 4.0 then 8.0 else c.rate), armed := c.armed || n > 0)
  {
    if n > 0 {
      ForwardCourse(c, n - 1);
      ForwardTick(Ticks(c, n - 1));
      OneTimeMore(n, if c.rate == 4.0 then 8.0 else c.rate);
    }
  }

  lemma ForwardTick(c: Clock)
    requires c.rate >= 0.0
    ensures Tick(c) == c.(progress := c.progress + (if c.rate == 4.0 then 8.0 else c.rate), armed := true)
  {
  }

  lemma OneTimeMore(n: nat, d: real)
    requires n > 0
    ensures n as real * d == (n - 1) as real * d + d
  {
  }

  lemma ForwardPosition(c: Clock, n: nat)
    requires c.rate >= 0.0 && Position(c) == c.base + c.progress
    ensures Position(Ticks(c, n)) == Position(c) + n as real * (if c.rate == 4.0 then 8.0 else c.rate)
  {
    ForwardCourse(c, n);
    assert n as real * (if c.rate == 4.0 then 8.0 else c.rate) >= 0.0;
  }

  /** The end of playback: a rewind starts over if there is a source, a recording in progress goes on at rate 1. */
  lemma EndMeans(c: Clock)
    ensures var d := Ended(c);
            && d.endReached && !d.armed && d.restarts == c.restarts
            && (c.rate < 0.0 ==> d.rate == 1.0)
            && (c.rate < 0.0 && c.loaded ==> d.base == 0.0 && d.progress == 0.0)
            && (c.rate >= 0.0 || !c.loaded ==> d.base == c.base && d.progress == c.progress)
            && (c.rate >= 0.0 ==> d.rate == if c.inProgressRecording && c.rate >= 1.0 then 1.0 else c.rate)
  {
  }

  // ---------------------------------------------------------------------------
  // The player object
  // ---------------------------------------------------------------------------

  class VodPlayer {
    var loaded: bool
    var baseSeekTime: real
    var currentProgressTime: real
    var playbackRate: real
    var restartPlaybackCount: nat
    var isEndReached: bool
    var inProgressRecording: bool
    var timerArmed: bool

    ghost function View(): Clock
      reads this
    {
      Clock(loaded, baseSeekTime, currentProgressTime, playbackRate, restartPlaybackCount, isEndReached,
            inProgressRecording, timerArmed)
    }

    constructor ()
      ensures View() == Clock(false, 0.0, 0.0, 1.0, 0, false, false, false)
    {
      loaded, baseSeekTime, currentProgressTime, playbackRate := false, 0.0, 0.0, 1.0;
      restartPlaybackCount, isEndReached, inProgressRecording, timerArmed := 0, false, false, false;
    }

    method PlaybackPosition() returns (p: real)
      ensures p == Position(View()) && 0.0 <= p
      ensures baseSeekTime + currentProgressTime >= 0.0 ==> p == baseSeekTime + currentProgressTime
      ensures baseSeekTime + currentProgressTime < 0.0 ==> p == 0.0
    {
      p := baseSeekTime + currentProgressTime;
      if p < 0.0 {
        p := 0.0;
      }
    }

    /**
      Fires the timer until the rewind is over and counts the ticks. It is over at its restart tick, within eight
      ticks of the time the distance takes, and playback then stands at the start at rate 1.
     */
    method RewindOut() returns (n: nat)
      requires Rewinding(View())
      modifies this
      ensures n == RestartTick(old(View()))
      ensures var stride := (if old(playbackRate) == -4.0 then 2.0 else 1.0) * -old(playbackRate);
              n <= Ceiling(Position(old(View())) / stride) + 8
      ensures playbackRate == 1.0 && Position(View()) == 0.0 && isEndReached && restartPlaybackCount == 0
    {
      ghost var c := View();
      RewindEnds(c);
      n := 0;
      while playbackRate < 0.0
        invariant View() == Ticks(c, n) && n <= RestartTick(c)
        invariant n == RestartTick(c) ==> playbackRate == 1.0
        invariant n < RestartTick(c) ==> playbackRate < 0.0
        decreases RestartTick(c) - n
      {
        OnProgressTimerTimeout();
        n := n + 1;
        if n < RestartTick(c) {
          RewindPosition(c, n);
        }
      }
    }

    /** The progress timer fired. */
    method OnProgressTimerTimeout()
      modifies this
      ensures View() == Tick(old(View()))
      ensures old(playbackRate) >= 0.0 ==>
                && currentProgressTime == old(currentProgressTime) + (if playbackRate == 4.0 then 8.0 else playbackRate)
                && playbackRate == old(playbackRate) && baseSeekTime == old(baseSeekTime) && timerArmed
    {
      currentProgressTime := currentProgressTime + playbackRate;
      if playbackRate == 4.0 || playbackRate == -4.0 {
        currentProgressTime := currentProgressTime + playbackRate;
      }
      timerArmed := true;
      if playbackRate < 0.0 {
        var p := PlaybackPosition();
        if p == 0.0 {
          restartPlaybackCount := restartPlaybackCount + 1;
          if restartPlaybackCount > BEGIN_PLAYBACK {
            restartPlaybackCount := 0;
            OnEnded();
          }
        }
      }
    }

    method OnEnded()
      modifies this
      ensures View() == Ended(old(View()))
    {
      EndMeans(View());
      timerArmed, isEndReached := false, true;
      if playbackRate < 0.0 {
        playbackRate := 1.0;
        SeekToStartPosition();
      } else if inProgressRecording && playbackRate >= 1.0 {
        playbackRate := 1.0;
      }
    }

    method SeekToStartPosition()
      modifies this
      ensures View() == SeekToStart(old(View()))
      ensures loaded ==> playbackRate == 1.0 && Position(View()) == 0.0 && !timerArmed
      ensures !loaded ==> View() == old(View())
    {
      if !loaded {
        return;
      }
      playbackRate, currentProgressTime, baseSeekTime, timerArmed := 1.0, 0.0, 0.0, false;
    }
  }
}
