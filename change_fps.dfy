/** transformations/change_fps.py: `ChangeFPS` clamps the rate to [1, 120]
    and emits `fps=N`. */
module ChangeFps {
  import opened Wrappers
  import opened Text
  import opened Ffmpeg

  const MinFps := 1
  const MaxFps := 120

  /** The constructor's clamp `max(1, min(120, fps))`. */
  function ClampFps(fps: int): (r: int)
    ensures MinFps <= r <= MaxFps
    ensures MinFps <= fps <= MaxFps ==> r == fps
    ensures fps < MinFps ==> r == MinFps
    ensures fps > MaxFps ==> r == MaxFps
  {
    if fps > MaxFps then MaxFps else if fps < MinFps then MinFps else fps
  }

  lemma ClampFpsIdempotent(fps: int)
    ensures ClampFps(ClampFps(fps)) == ClampFps(fps)
  {
  }

  function FpsFilter(fps: int): (f: Filter)
    requires MinFps <= fps <= MaxFps
    ensures f.stream == Video && StartsWith(f.text, "fps=")
  {
    Filter("fps=" + IntToString(fps), Video)
  }

  /** The filter's single argument reads back as the clamped rate. */
  lemma FpsFilterRoundTrip(fps: int)
    ensures ParseInts(Arguments(FpsFilter(ClampFps(fps)).text, "fps")) == Some([ClampFps(fps)])
  {
    var parts := IntStrings([ClampFps(fps)]);
    assert FpsFilter(ClampFps(fps)).text == "fps" + "=" + Join(":", parts);
    IntArgumentsRoundTrip("fps", [ClampFps(fps)]);
  }
}
