/** VideoTabContent.py: the speed and reverse logic of a preview tab. The
    forward button cycles the playback rate through 1.0, 1.5, 2.0, 0.5; the
    backward button cycles through -0.5, -1.0, -1.5, -2.0 and plays in
    reverse by pausing the engine, muting the sound and stepping the
    position down from a 33 ms timer. Rates are integers in tenths
    (10 = 1.0); the decode engine (a QMediaPlayer or an ImagePlayer) is
    abstracted as the fields of `View`. */
module VideoTabContent {
  import opened ImagePlayer

  /** What `self.player` is: none (an unsupported file), a QMediaPlayer
      with an audio output (video and audio files), or an ImagePlayer. */
  datatype PlayerKind = NoPlayer | MediaPlayer | StillImage

  /** The argument of `change_speed_mode`; any other string is `Other`. */
  datatype Direction = Forward | Backward | Other

  /** The state the logic reads and writes: the logical rate, whether the
      reverse timer runs, whether the audio output is muted, and the
      engine's position, duration, playback state and rate. */
  datatype View = View(rate: int, timer: bool, muted: bool, position: int, duration: int,
                       state: PlaybackState, engineRate: int)

  /** Every logical rate the buttons can produce. */
  const Rates: set<int> := {5, 10, 15, 20, -5, -10, -15, -20}

  /** The forward cycle, in order. */
  const ForwardCycle: seq<int> := [10, 15, 20, 5]
  /** The backward cycle, in order. */
  const BackwardCycle: seq<int> := [-5, -10, -15, -20]

  function Abs(x: int): int {
    if x < 0 then -x else x
  }

  /** The next rate after a forward press: from reverse back to 1.0,
      else one step along the forward cycle, any other rate to 1.0. */
  function NextForward(rate: int): (r: int)
    ensures r in ForwardCycle
    ensures rate < 0 ==> r == 10
    ensures rate !in ForwardCycle ==> r == 10
  {
    if rate < 0 then 10
    else if rate == 10 then 15
    else if rate == 15 then 20
    else if rate == 20 then 5
    else if rate == 5 then 10
    else 10
  }

  /** The next rate after a backward press: from forward play to -0.5,
      else one step along the backward cycle, any other rate to -0.5. */
  function NextBackward(rate: int): (r: int)
    ensures r in BackwardCycle
    ensures rate > 0 ==> r == -5
    ensures rate !in BackwardCycle ==> r == -5
  {
    if rate > 0 then -5
    else if rate == -5 then -10
    else if rate == -10 then -15
    else if rate == -15 then -20
    else if rate == -20 then -5
    else -5
  }

  /** `new_rate` in `change_speed_mode`: 1.0 for an unknown direction. */
  function NewRate(d: Direction, rate: int): int {
    match d
    case Forward => NextForward(rate)
    case Backward => NextBackward(rate)
    case Other => 10
  }

  /** Each press moves one place along its cycle, wrapping around. */
  lemma CyclesAdvance(i: nat)
    requires i < 4
    ensures NextForward(ForwardCycle[i]) == ForwardCycle[(i + 1) % 4]
    ensures NextBackward(BackwardCycle[i]) == BackwardCycle[(i + 1) % 4]
  {
    if i == 0 {} else if i == 1 {} else if i == 2 {} else {}
  }

  /** `n` presses of a button. */
  function Presses(d: Direction, rate: int, n: nat): int
    decreases n
  {
    if n == 0 then rate else Presses(d, NewRate(d, rate), n - 1)
  }

  /** Pressing a button `n` times from the start of its cycle lands on
      place `n mod 4` of the cycle, so four presses come back. */
  lemma {:induction false} PressesFollowCycle(i: nat, n: nat)
    requires i < 4
    ensures Presses(Forward, ForwardCycle[i], n) == ForwardCycle[(i + n) % 4]
    ensures Presses(Backward, BackwardCycle[i], n) == BackwardCycle[(i + n) % 4]
    decreases n
  {
    if n > 0 {
      CyclesAdvance(i);
      PressesFollowCycle((i + 1) % 4, n - 1);
      WrapStep(i, n);
      assert NewRate(Forward, ForwardCycle[i]) == ForwardCycle[(i + 1) % 4];
      assert NewRate(Backward, BackwardCycle[i]) == BackwardCycle[(i + 1) % 4];
    }
  }

  lemma WrapStep(i: nat, n: nat)
    requires i < 4 && n > 0
    ensures ((i + 1) % 4 + (n - 1)) % 4 == (i + n) % 4
  {
  }

  /** The reverse timer is off when there is no player; while it runs the
      logical rate is negative, the engine is paused at rate 1.0 and the
      sound is muted. The rate is always one the buttons produce, and the
      position and duration are never negative. */
  predicate Inv(k: PlayerKind, v: View) {
    (v.timer ==> k != NoPlayer && v.rate < 0 && v.state == Paused && v.engineRate == 10 &&
                 (k == MediaPlayer ==> v.muted)) &&
    v.rate in Rates && v.position >= 0 && v.duration >= 0
  }

  /** Unmuting only exists for the QMediaPlayer's audio output. */
  function Unmuted(k: PlayerKind, muted: bool): bool {
    if k == MediaPlayer then false else muted
  }

  // ---------------------------------------------------------------------
  // The handlers, as functions of the old view

  /** `change_speed_mode(direction)`. */
  function SpeedChange(k: PlayerKind, v: View, d: Direction): View {
    if k == NoPlayer then v
    else if d == Backward && v.position <= 50 then v.(timer := false, rate := 10, state := Paused)
    else
      var atEnd := Abs(v.duration - v.position) < 100;
      var r := NewRate(d, v.rate);
      if r > 0 then
        v.(rate := r, timer := false, muted := Unmuted(k, v.muted), engineRate := r,
           state := if atEnd then Paused else Playing)
      else
        v.(rate := r, muted := if k == MediaPlayer then true else v.muted, state := Paused,
           engineRate := 10, timer := true)
  }

  /** The position one reverse tick moves to: `int(max(0, pos - 33*|rate|))`. */
  function ReverseTarget(position: int, rate: int): (p: int)
    requires position > 0
    ensures 0 <= p <= position
    ensures rate != 0 ==> p < position
    ensures 10 * p <= 10 * position - 33 * Abs(rate) < 10 * p + 10 || p == 0
  {
    var tenths := 10 * position - 33 * Abs(rate);
    if tenths <= 0 then 0 else tenths / 10
  }

  /** `_on_reverse_timer_tick`. */
  function ReverseTick(k: PlayerKind, v: View): View {
    if k == NoPlayer then v.(timer := false)
    else if v.position <= 0 then
      v.(timer := false, rate := 10, state := Paused, position := 0, muted := Unmuted(k, v.muted))
    else v.(position := ReverseTarget(v.position, v.rate))
  }

  /** `_on_media_status_changed(status)` for the end of the media. */
  function EndOfMediaReached(k: PlayerKind, v: View): View {
    v.(timer := false, rate := 10, engineRate := 10, state := Paused)
  }

  /** `_check_position_for_end(pos)`: only the QMediaPlayer reports its
      position here. */
  function CheckEnd(k: PlayerKind, v: View, pos: int): View {
    if k != MediaPlayer || v.duration <= 0 then v
    else
      var remaining := v.duration - pos;
      var v1 := if 0 < remaining < 2000 && v.rate > 10 then v.(rate := 10, engineRate := 10) else v;
      if pos >= v.duration && v1.state == Playing then EndOfMediaReached(k, v1) else v1
  }

  /** `stop_reverse_logic`. */
  function StopReverse(k: PlayerKind, v: View): View {
    v.(timer := false, rate := 10, muted := Unmuted(k, v.muted))
  }

  /** `toggle_play_safe`; `endOfMedia` is what the QMediaPlayer reports as
      its media status. */
  function TogglePlay(k: PlayerKind, v: View, endOfMedia: bool): View {
    if k == NoPlayer then v
    else if v.timer then StopReverse(k, v).(state := Paused)
    else if v.state == Playing then v.(state := Paused)
    else if Abs(v.duration - v.position) < 50 || (k == MediaPlayer && endOfMedia) then v
    else
      v.(muted := Unmuted(k, v.muted), rate := 10,
         engineRate := if k == StillImage then 10 else v.engineRate, state := Playing)
  }

  /** `go_to_start`. */
  function JumpToStart(k: PlayerKind, v: View): View {
    if k == NoPlayer then v
    else v.(timer := false, rate := 10, engineRate := 10, state := Paused, position := 0,
            muted := Unmuted(k, v.muted))
  }

  /** `go_to_end`: the logical rate is left as it is. */
  function JumpToEnd(k: PlayerKind, v: View): View {
    if k == NoPlayer then v
    else v.(timer := false, state := Paused, position := v.duration, muted := Unmuted(k, v.muted))
  }

  // ---------------------------------------------------------------------
  // Properties of the handlers

  /** Every handler keeps the invariant. */
  lemma HandlersKeepInv(k: PlayerKind, v: View, d: Direction, pos: int, endOfMedia: bool)
    requires Inv(k, v)
    ensures Inv(k, SpeedChange(k, v, d))
    ensures Inv(k, ReverseTick(k, v))
    ensures Inv(k, CheckEnd(k, v, pos))
    ensures Inv(k, EndOfMediaReached(k, v))
    ensures Inv(k, StopReverse(k, v))
    ensures Inv(k, TogglePlay(k, v, endOfMedia))
    ensures Inv(k, JumpToStart(k, v))
    ensures Inv(k, JumpToEnd(k, v))
  {
    var r := NewRate(d, v.rate);
    assert r in ForwardCycle || r in BackwardCycle || r == 10;
  }

  /** A press that leads to a positive rate stops reversing, unmutes, hands
      the rate to the engine and plays unless within 100 ms of the end; one
      that leads to a negative rate mutes, pauses the engine at 1.0 and runs
      the reverse timer. A backward press within 50 ms of the start stops
      instead. */
  lemma SpeedChangeEffect(k: PlayerKind, v: View, d: Direction)
    requires k != NoPlayer && !(d == Backward && v.position <= 50)
    ensures var w := SpeedChange(k, v, d);
            w.rate == NewRate(d, v.rate) &&
            (w.rate > 0 ==> !w.timer && !(k == MediaPlayer && w.muted) && w.engineRate == w.rate &&
                            (w.state == Playing <==> Abs(v.duration - v.position) >= 100)) &&
            (w.rate < 0 ==> w.timer && (k == MediaPlayer ==> w.muted) && w.state == Paused &&
                            w.engineRate == 10) &&
            w.position == v.position
  {
    var r := NewRate(d, v.rate);
    assert r != 0 by {
      assert r in ForwardCycle || r in BackwardCycle || r == 10;
    }
  }

  /** A tick never moves the position forward or below zero, and at the
      start it ends reverse play. */
  lemma ReverseTickMovesBack(k: PlayerKind, v: View)
    requires Inv(k, v) && k != NoPlayer
    ensures var w := ReverseTick(k, v);
            0 <= w.position <= v.position &&
            (v.position > 0 ==> w.position < v.position && w.timer == v.timer) &&
            (v.position == 0 ==> !w.timer && w.rate == 10 && w.state == Paused &&
                                 !(k == MediaPlayer && w.muted))
  {
    assert v.rate != 0;
  }

  /** `n` timer ticks. */
  function Ticks(k: PlayerKind, v: View, n: nat): View
    decreases n
  {
    if n == 0 then v else Ticks(k, ReverseTick(k, v), n - 1)
  }

  /** Reverse play ends: from position `p`, at most `p + 1` ticks bring the
      position to 0 and stop the timer. */
  lemma {:induction false} ReversePlayEnds(k: PlayerKind, v: View, n: nat)
    requires Inv(k, v) && k != NoPlayer && n > v.position
    ensures Ticks(k, v, n).position == 0 && !Ticks(k, v, n).timer
    decreases n
  {
    var w := ReverseTick(k, v);
    ReverseTickMovesBack(k, v);
    HandlersKeepInv(k, v, Other, 0, false);
    if v.position == 0 {
      StoppedStaysStopped(k, w, n - 1);
    } else {
      ReversePlayEnds(k, w, n - 1);
    }
  }

  /** Once stopped at the start, further ticks keep it there. */
  lemma {:induction false} StoppedStaysStopped(k: PlayerKind, v: View, n: nat)
    requires k != NoPlayer && v.position == 0 && !v.timer
    ensures Ticks(k, v, n).position == 0 && !Ticks(k, v, n).timer
    decreases n
  {
    if n > 0 {
      StoppedStaysStopped(k, ReverseTick(k, v), n - 1);
    }
  }

  /** Near the end at more than 1.0 the rate drops to 1.0; at the end while
      playing, reverse play stops and the engine pauses. */
  lemma CheckEndEffect(v: View, pos: int)
    requires v.duration > 0
    ensures var w := CheckEnd(MediaPlayer, v, pos);
            (0 < v.duration - pos < 2000 && v.rate > 10 ==> w.rate == 10 && w.engineRate == 10) &&
            (pos >= v.duration && v.state == Playing ==> !w.timer && w.rate == 10 && w.state == Paused) &&
            (pos < v.duration && (v.duration - pos >= 2000 || v.rate <= 10) ==> w == v)
  {
  }

  /** Toggling while reversing or playing pauses; close to the end it does
      nothing; otherwise it plays forward at 1.0 with the sound on. */
  lemma TogglePlayEffect(k: PlayerKind, v: View, endOfMedia: bool)
    requires Inv(k, v) && k != NoPlayer
    ensures var w := TogglePlay(k, v, endOfMedia);
            (v.timer || v.state == Playing ==> w.state == Paused && !w.timer) &&
            (w.state == Playing ==>
               !v.timer && v.state != Playing && Abs(v.duration - v.position) >= 50 &&
               w.rate == 10 && !(k == MediaPlayer && w.muted)) &&
            (!v.timer && v.state != Playing && Abs(v.duration - v.position) < 50 ==> w == v)
  {
  }

  class VideoTabContent {
    const kind: PlayerKind
    var rate: int
    var timerActive: bool
    var muted: bool
    var position: int
    var duration: int
    var state: PlaybackState
    var engineRate: int

    function Snapshot(): View
      reads this
    {
      View(rate, timerActive, muted, position, duration, state, engineRate)
    }

    predicate Valid()
      reads this
    {
      Inv(kind, Snapshot())
    }

    /** A new tab: rate 1.0, timer off; a media player starts playing. */
    constructor (k: PlayerKind, durationMs: nat)
      ensures kind == k && Valid()
      ensures Snapshot() == View(10, false, false, 0, durationMs,
                                 if k == MediaPlayer then Playing else Stopped, 10)
    {
      kind := k;
      rate := 10;
      timerActive := false;
      muted := false;
      position := 0;
      duration := durationMs;
      state := if k == MediaPlayer then Playing else Stopped;
      engineRate := 10;
    }

    method Unmute()
      modifies this
      ensures Snapshot() == old(Snapshot()).(muted := Unmuted(kind, old(muted)))
    {
      if kind == MediaPlayer {
        muted := false;
      }
    }

    method ChangeSpeedMode(d: Direction)
      requires Valid()
      modifies this
      ensures Valid()
      ensures Snapshot() == SpeedChange(kind, old(Snapshot()), d)
    {
      ghost var v := Snapshot();
      HandlersKeepInv(kind, v, d, 0, false);
      if kind == NoPlayer {
        return;
      }
      if d == Backward && position <= 50 {
        timerActive := false;
        rate := 10;
        state := Paused;
        return;
      }
      var isAtEnd := Abs(duration - position) < 100;
      var newRate := NewRate(d, rate);
      rate := newRate;
      if newRate > 0 {
        timerActive := false;
        Unmute();
        state := Paused;
        engineRate := newRate;
        if !isAtEnd {
          state := Playing;
        }
      } else {
        if kind == MediaPlayer {
          muted := true;
        }
        state := Paused;
        engineRate := 10;
        if !timerActive {
          timerActive := true;
        }
      }
    }

    method OnReverseTimerTick()
      requires Valid()
      modifies this
      ensures Valid()
      ensures Snapshot() == ReverseTick(kind, old(Snapshot()))
    {
      HandlersKeepInv(kind, Snapshot(), Other, 0, false);
      if kind == NoPlayer {
        timerActive := false;
        return;
      }
      if position <= 0 {
        timerActive := false;
        rate := 10;
        state := Paused;
        position := 0;
        Unmute();
        return;
      }
      position := ReverseTarget(position, rate);
    }

    method OnMediaStatusChanged(endOfMedia: bool)
      requires Valid()
      modifies this
      ensures Valid()
      ensures Snapshot() == if endOfMedia then EndOfMediaReached(kind, old(Snapshot())) else old(Snapshot())
    {
      HandlersKeepInv(kind, Snapshot(), Other, 0, false);
      if endOfMedia {
        timerActive := false;
        rate := 10;
        engineRate := 10;
        state := Paused;
      }
    }

    method CheckPositionForEnd(pos: int)
      requires Valid()
      modifies this
      ensures Valid()
      ensures Snapshot() == CheckEnd(kind, old(Snapshot()), pos)
    {
      HandlersKeepInv(kind, Snapshot(), Other, pos, false);
      if kind != MediaPlayer || duration <= 0 {
        return;
      }
      var remaining := duration - pos;
      if 0 < remaining < 2000 && rate > 10 {
        rate := 10;
        engineRate := 10;
      }
      if pos >= duration && state == Playing {
        OnMediaStatusChanged(true);
      }
    }

    method StopReverseLogic()
      requires Valid()
      modifies this
      ensures Valid()
      ensures Snapshot() == StopReverse(kind, old(Snapshot()))
    {
      HandlersKeepInv(kind, Snapshot(), Other, 0, false);
      if timerActive {
        timerActive := false;
      }
      rate := 10;
      Unmute();
    }

    method TogglePlaySafe(endOfMedia: bool)
      requires Valid()
      modifies this
      ensures Valid()
      ensures Snapshot() == TogglePlay(kind, old(Snapshot()), endOfMedia)
    {
      HandlersKeepInv(kind, Snapshot(), Other, 0, endOfMedia);
      if kind == NoPlayer {
        return;
      }
      if timerActive {
        StopReverseLogic();
        state := Paused;
        return;
      }
      if state == Playing {
        state := Paused;
        return;
      }
      var isAtEnd := Abs(duration - position) < 50 || (kind == MediaPlayer && endOfMedia);
      if isAtEnd {
        return;
      }
      Unmute();
      rate := 10;
      if kind == StillImage {
        engineRate := 10;
      }
      state := Playing;
    }

    method GoToStart()
      requires Valid()
      modifies this
      ensures Valid()
      ensures Snapshot() == JumpToStart(kind, old(Snapshot()))
    {
      HandlersKeepInv(kind, Snapshot(), Other, 0, false);
      if kind != NoPlayer {
        if timerActive {
          timerActive := false;
        }
        rate := 10;
        engineRate := 10;
        state := Paused;
        position := 0;
        Unmute();
      }
    }

    method GoToEnd()
      requires Valid()
      modifies this
      ensures Valid()
      ensures Snapshot() == JumpToEnd(kind, old(Snapshot()))
    {
      HandlersKeepInv(kind, Snapshot(), Other, 0, false);
      if kind != NoPlayer {
        if timerActive {
          timerActive := false;
        }
        state := Paused;
        position := duration;
        Unmute();
      }
    }
  }
}
