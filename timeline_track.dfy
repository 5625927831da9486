/** TimelineTrackWidget.py: one track of the timeline. It holds the clips
    placed on it, a duration of at least one minute that grows when a clip
    is placed past the end, and the playhead. Times are milliseconds; the
    pixel/millisecond conversion of the mouse handlers is a parameter. */
module TimelineTrack {
  import opened Text

  /** The dictionary `add_clip` appends. */
  datatype TrackClip = TrackClip(path: string, start: int, duration: int, name: string, color: string)

  const MinDurationMs: int := 60000
  /** The room left after a clip that extends the track. */
  const TailMs: int := 5000

  function End(c: TrackClip): int {
    c.start + c.duration
  }

  class TimelineTrackWidget {
    var durationMs: int
    var playheadMs: int
    var clips: seq<TrackClip>
    /** The values `seek_request` carried, oldest first. */
    var seeks: seq<int>

    /** The duration is never below one minute and the playhead never
        negative. */
    predicate Valid()
      reads this
    {
      durationMs >= MinDurationMs && playheadMs >= 0
    }

    constructor ()
      ensures Valid()
      ensures durationMs == MinDurationMs && playheadMs == 0 && clips == [] && seeks == []
    {
      durationMs := MinDurationMs;
      playheadMs := 0;
      clips := [];
      seeks := [];
    }

    method SetDuration(ms: int)
      requires Valid()
      modifies this
      ensures Valid()
      ensures durationMs == (if ms > MinDurationMs then ms else MinDurationMs)
      ensures ms >= MinDurationMs ==> durationMs == ms
      ensures playheadMs == old(playheadMs) && clips == old(clips) && seeks == old(seeks)
    {
      durationMs := if ms > MinDurationMs then ms else MinDurationMs;
    }

    method SetPlayhead(ms: int)
      requires Valid()
      modifies this
      ensures Valid()
      ensures 0 <= playheadMs <= durationMs
      ensures 0 <= ms <= durationMs ==> playheadMs == ms
      ensures ms < 0 ==> playheadMs == 0
      ensures ms > durationMs ==> playheadMs == durationMs
      ensures durationMs == old(durationMs) && clips == old(clips) && seeks == old(seeks)
    {
      var m := if ms < durationMs then ms else durationMs;
      playheadMs := if m > 0 then m else 0;
    }

    /** Places a clip at the playhead; a clip ending past the track's end
        stretches the track to five seconds after it. */
    method AddClip(path: string, duration: int, color: string)
      requires Valid()
      modifies this
      ensures Valid()
      ensures clips == old(clips) + [TrackClip(path, old(playheadMs), duration, Basename(path), color)]
      ensures playheadMs == old(playheadMs) && seeks == old(seeks)
      ensures var end := old(playheadMs) + duration;
              durationMs == (if end > old(durationMs) then end + TailMs else old(durationMs))
      ensures End(clips[|clips| - 1]) <= durationMs
      ensures durationMs >= old(durationMs)
    {
      var name := Basename(path);
      var newClip := TrackClip(path, playheadMs, duration, name, color);
      clips := clips + [newClip];
      var endTime := playheadMs + duration;
      if endTime > durationMs {
        SetDuration(endTime + TailMs);
      }
    }

    /** A mouse press or drag at the position `ms` (already converted from
        pixels): with the left button held the playhead moves there, cut at
        0 but not at the track's end, and a seek is requested; any other
        button changes nothing. */
    method MouseSeek(ms: int, leftButton: bool)
      requires Valid()
      modifies this
      ensures Valid()
      ensures leftButton ==> playheadMs == (if ms > 0 then ms else 0) && seeks == old(seeks) + [playheadMs]
      ensures !leftButton ==> playheadMs == old(playheadMs) && seeks == old(seeks)
      ensures durationMs == old(durationMs) && clips == old(clips)
    {
      if leftButton {
        var m := if ms > 0 then ms else 0;
        playheadMs := m;
        seeks := seeks + [m];
      }
    }

    /** The end of the last clip: 0 without clips, else the largest end
        (never below 0). */
    method ContentEnd() returns (maxEnd: int)
      ensures maxEnd >= 0
      ensures forall i :: 0 <= i < |clips| ==> End(clips[i]) <= maxEnd
      ensures maxEnd == 0 || exists i :: 0 <= i < |clips| && End(clips[i]) == maxEnd
    {
      if clips == [] {
        return 0;
      }
      maxEnd := 0;
      for i := 0 to |clips|
        invariant maxEnd >= 0
        invariant forall j :: 0 <= j < i ==> End(clips[j]) <= maxEnd
        invariant maxEnd == 0 || exists j :: 0 <= j < i && End(clips[j]) == maxEnd
      {
        var end := clips[i].start + clips[i].duration;
        if end > maxEnd {
          maxEnd := end;
        }
      }
    }
  }
}
