/** ImagePlayer.py: a stand-in for the media player that shows a still image
    for a fixed duration. A 33 ms timer advances the position by the
    playback rate; off the timeline the position stays within the duration
    and reaching the end pauses. Rates are integers in tenths (10 = 1.0). */
module ImagePlayer {

  datatype PlaybackState = Stopped | Playing | Paused

  datatype MediaStatus = LoadedMedia | EndOfMedia

  /** The signals the player emits, in order. */
  datatype Signal =
    | PositionChanged(position: int)
    | PlaybackStateChanged(state: PlaybackState)
    | MediaStatusChanged(status: MediaStatus)

  /** The timer interval, in milliseconds. */
  const TickMs: int := 33

  /** Python `int(33 * rate)`: truncation toward zero of 33 times a rate
      given in tenths. */
  function TickStep(rate: int): (step: int)
    ensures rate >= 0 ==> 0 <= 10 * step <= TickMs * rate < 10 * step + 10
    ensures rate < 0 ==> 10 * step - 10 < TickMs * rate <= 10 * step <= 0
  {
    if rate >= 0 then TickMs * rate / 10 else -(TickMs * -rate / 10)
  }

  /** Where `setPosition(p)` puts the player: on the timeline only negative
      positions are cut, elsewhere the position is kept within the clip. */
  function Clamped(p: int, duration: int, onTrack: bool): (r: int)
    ensures onTrack ==> r >= 0 && (p >= 0 ==> r == p) && (p < 0 ==> r == 0)
    ensures !onTrack && duration >= 0 ==>
              0 <= r <= duration && (0 <= p <= duration ==> r == p) &&
              (p > duration ==> r == duration) && (p < 0 ==> r == 0)
  {
    if onTrack then (if p > 0 then p else 0)
    else
      var m := if p < duration then p else duration;
      if m > 0 then m else 0
  }

  class ImagePlayer {
    const duration: int
    var position: int
    var state: PlaybackState
    var rate: int
    /** Set from outside when the player drives the timeline preview. */
    var isOnTrack: bool
    var timerActive: bool
    var signals: seq<Signal>

    /** The timer runs exactly while playing; the duration is never
        negative and the position is within it while off the timeline. */
    predicate Valid()
      reads this
    {
      (timerActive <==> state == Playing) && duration >= 0 && position >= 0 &&
      (!isOnTrack ==> position <= duration)
    }

    constructor (durationMs: nat)
      ensures Valid()
      ensures duration == durationMs && position == 0 && state == Stopped && rate == 10
      ensures !isOnTrack && !timerActive && signals == []
    {
      duration := durationMs;
      position := 0;
      state := Stopped;
      rate := 10;
      isOnTrack := false;
      timerActive := false;
      signals := [];
    }

    method Play()
      modifies this
      ensures state == Playing && timerActive
      ensures position == old(position) && rate == old(rate) && isOnTrack == old(isOnTrack)
      ensures signals == old(signals) + [PlaybackStateChanged(Playing)]
      ensures old(Valid()) ==> Valid()
    {
      state := Playing;
      timerActive := true;
      signals := signals + [PlaybackStateChanged(state)];
    }

    method Pause()
      modifies this
      ensures state == Paused && !timerActive
      ensures position == old(position) && rate == old(rate) && isOnTrack == old(isOnTrack)
      ensures signals == old(signals) + [PlaybackStateChanged(Paused)]
      ensures old(Valid()) ==> Valid()
    {
      state := Paused;
      timerActive := false;
      signals := signals + [PlaybackStateChanged(state)];
    }

    method Stop()
      modifies this
      ensures state == Stopped && !timerActive && position == 0
      ensures rate == old(rate) && isOnTrack == old(isOnTrack)
      ensures signals == old(signals) + [PositionChanged(0), PlaybackStateChanged(Stopped)]
      ensures old(Valid()) ==> Valid()
    {
      state := Stopped;
      timerActive := false;
      position := 0;
      signals := signals + [PositionChanged(0), PlaybackStateChanged(state)];
    }

    /** Off the timeline, landing on the end pauses a playing player and
        reports the end of the media. */
    method SetPosition(p: int)
      requires Valid()
      modifies this
      ensures Valid()
      ensures position == Clamped(p, duration, isOnTrack)
      ensures rate == old(rate) && isOnTrack == old(isOnTrack)
      ensures var atEnd := !isOnTrack && position >= duration;
              var paused := atEnd && old(state) == Playing;
              state == (if paused then Paused else old(state)) &&
              signals == old(signals) + [PositionChanged(position)] +
                         (if paused then [PlaybackStateChanged(Paused)] else []) +
                         (if atEnd then [MediaStatusChanged(EndOfMedia)] else [])
      ensures !isOnTrack ==> (Status() == EndOfMedia <==> p >= duration || duration == 0)
    {
      if isOnTrack {
        position := if p > 0 then p else 0;
      } else {
        var m := if p < duration then p else duration;
        position := if m > 0 then m else 0;
      }
      signals := signals + [PositionChanged(position)];
      if !isOnTrack && position >= duration {
        if state == Playing {
          Pause();
        }
        signals := signals + [MediaStatusChanged(EndOfMedia)];
      }
    }

    function Status(): (s: MediaStatus)
      reads this
    {
      if position >= duration then EndOfMedia else LoadedMedia
    }

    method SetPlaybackRate(r: int)
      modifies this
      ensures rate == r && PlaybackRate() == r
      ensures position == old(position) && state == old(state) && isOnTrack == old(isOnTrack)
      ensures timerActive == old(timerActive) && signals == old(signals)
    {
      rate := r;
    }

    function PlaybackRate(): int
      reads this
    {
      rate
    }

    /** One timer tick. Off the timeline, reaching the end snaps to it,
        pauses and reports the end; on the timeline the position runs on. */
    method OnTick()
      requires Valid() && rate >= 0
      modifies this
      ensures Valid()
      ensures rate == old(rate) && isOnTrack == old(isOnTrack)
      ensures var p := old(position) + TickStep(rate);
              if p >= duration && !isOnTrack then
                position == duration && state == Paused &&
                signals == old(signals) + [PlaybackStateChanged(Paused), PositionChanged(duration),
                                           MediaStatusChanged(EndOfMedia)]
              else
                position == p && state == old(state) && signals == old(signals) + [PositionChanged(p)]
      ensures !isOnTrack ==> (Status() == EndOfMedia <==> old(position) + TickStep(rate) >= duration)
      ensures !isOnTrack ==> position == PositionAfterTicks(duration, rate, old(position), 1)
    {
      var step := TickStep(rate);
      position := position + step;
      if position >= duration {
        if isOnTrack {
          signals := signals + [PositionChanged(position)];
        } else {
          position := duration;
          Pause();
          signals := signals + [PositionChanged(position), MediaStatusChanged(EndOfMedia)];
        }
      } else {
        signals := signals + [PositionChanged(position)];
      }
    }
  }

  /** Ticks at a positive rate from the start of a clip reach its end:
      after `n` ticks off the timeline the position is the smaller of the
      duration and `n` steps. */
  function PositionAfterTicks(duration: nat, rate: int, start: nat, n: nat): (p: int)
    requires rate >= 0
    ensures start <= duration ==> start <= p <= duration
    decreases n
  {
    if n == 0 then (if start <= duration then start else duration)
    else
      var next := start + TickStep(rate);
      if next >= duration then duration else PositionAfterTicks(duration, rate, next, n - 1)
  }

  lemma {:induction false} TicksReachEnd(duration: nat, rate: int, start: nat, n: nat)
    requires rate >= 1 && start <= duration && n >= duration - start
    ensures PositionAfterTicks(duration, rate, start, n) == duration
    decreases n
  {
    if n > 0 {
      var next := start + TickStep(rate);
      if next < duration {
        TicksReachEnd(duration, rate, next, n - 1);
      }
    }
  }

  /** A tick that leaves the position short of the end is the first of the
      ticks: the rest continue from where it stopped, as `OnTick` does
      tick by tick. */
  lemma TicksCompose(duration: nat, rate: int, start: nat, n: nat)
    requires rate >= 0 && start <= duration
    ensures var p := PositionAfterTicks(duration, rate, start, 1);
            p < duration ==> PositionAfterTicks(duration, rate, start, n + 1) == PositionAfterTicks(duration, rate, p, n)
  {
    var next := start + TickStep(rate);
    if next < duration {
      assert PositionAfterTicks(duration, rate, next, 0) == next;
    }
  }
}
