/** FilterBridge.py: turns the effect stack chosen in the interface into a
    chain of filter runs over one clip. It probes the clip's frame size,
    applies the enabled operations in a fixed order while tracking how the
    frame size changes, resizes a blend partner to the current frame, and
    reports either the processed file (renamed into the cache folder) or
    the error text. File existence, ffprobe output, the failing runs and the
    digest of the stack are parameters. */
module FilterBridge {
  import opened Wrappers
  import opened Numbers
  import opened Text
  import opened Ffmpeg
  import opened CropTransform
  import opened PaddingTransform
  import opened ChangeFps
  import opened BlurFilter
  import opened TransposeTransform
  import opened FadeInOut
  import opened DrawText

  // ---------------------------------------------------------------------
  // get_video_dimensions

  /** What `ffprobe ... -of csv=s=x:p=0` did: raised, or printed a text. */
  datatype ProbeResult = ProbeFailed | ProbeOutput(text: string)

  const FallbackWidth: int := 1920
  const FallbackHeight: int := 1080

  /** The parse of a probe's output: `WxH` with two integer parts, else the
      fallback (a wrong shape or a ValueError from `int`). */
  function ParseDimensions(output: string): (r: (int, int))
    ensures |Split(Strip(output), 'x')| != 2 ==> r == (FallbackWidth, FallbackHeight)
    ensures var parts := Split(Strip(output), 'x');
            |parts| == 2 && ParseInt(parts[0]).Some? && ParseInt(parts[1]).Some? ==>
              r == (ParseInt(parts[0]).value, ParseInt(parts[1]).value)
    ensures var parts := Split(Strip(output), 'x');
            |parts| == 2 && (ParseInt(parts[0]).None? || ParseInt(parts[1]).None?) ==>
              r == (FallbackWidth, FallbackHeight)
  {
    var parts := Split(Strip(output), 'x');
    if |parts| == 2 then
      match (ParseInt(parts[0]), ParseInt(parts[1]))
      case (Some(w), Some(h)) => (w, h)
      case _ => (FallbackWidth, FallbackHeight)
    else (FallbackWidth, FallbackHeight)
  }

  /** `get_video_dimensions`: (0, 0) for a missing file, the fallback when
      the probe raises. */
  function VideoDimensions(fileExists: bool, probe: ProbeResult): (r: (int, int))
    ensures !fileExists ==> r == (0, 0)
    ensures fileExists && probe.ProbeFailed? ==> r == (FallbackWidth, FallbackHeight)
    ensures fileExists && probe.ProbeOutput? ==> r == ParseDimensions(probe.text)
  {
    if !fileExists then (0, 0)
    else
      match probe
      case ProbeFailed => (FallbackWidth, FallbackHeight)
      case ProbeOutput(text) => ParseDimensions(text)
  }

  /** What ffprobe prints for a stream of `w` by `h` pixels. */
  function ProbeLine(w: nat, h: nat): string {
    NatToString(w) + "x" + NatToString(h) + "\n"
  }

  lemma StripProbeLine(w: nat, h: nat)
    ensures Strip(ProbeLine(w, h)) == NatToString(w) + "x" + NatToString(h)
  {
    var ws, hs := NatToString(w), NatToString(h);
    var core := ws + "x" + hs;
    var line := core + "\n";
    assert line[0] == ws[0];
    assert StripLeft(line) == line;
    assert line[..|line| - 1] == core;
    assert StripRight(line) == StripRight(core);
    assert core[|core| - 1] == hs[|hs| - 1];
    assert StripRight(core) == core;
  }

  lemma SplitSize(w: nat, h: nat)
    ensures Split(NatToString(w) + "x" + NatToString(h), 'x') == [NatToString(w), NatToString(h)]
  {
    var ws, hs := NatToString(w), NatToString(h);
    NoSeparatorInDigits(w, 'x');
    NoSeparatorInDigits(h, 'x');
    SplitAtFirst(ws, 'x', hs);
    SplitWithoutSeparator(hs, 'x');
    assert ws + "x" + hs == ws + ['x'] + hs;
  }

  /** A size ffprobe prints is read back exactly. */
  lemma DimensionsRoundTrip(w: nat, h: nat)
    ensures VideoDimensions(true, ProbeOutput(ProbeLine(w, h))) == (w, h)
  {
    StripProbeLine(w, h);
    SplitSize(w, h);
    ParseIntOfIntToString(w);
    ParseIntOfIntToString(h);
  }

  /** Output without the separator is never taken as a size. */
  lemma NoSeparatorFallsBack(output: string)
    requires 'x' !in Strip(output)
    ensures ParseDimensions(output) == (FallbackWidth, FallbackHeight)
  {
    SplitWithoutSeparator(Strip(output), 'x');
  }

  // ---------------------------------------------------------------------
  // _prepare_secondary_clip

  /** The clip to blend with, and the `-vf` text of the resize run if one
      was needed. */
  datatype Prepared = Prepared(path: string, resize: Option<string>)

  function ResizeFilter(w: int, h: int): string {
    "scale=" + IntToString(w) + ":" + IntToString(h) + ",format=yuv420p"
  }

  /** A clip already of the target size is used as it is; any other is
      scaled into the temporary file `tempPath`. */
  function PrepareSecondary(path: string, targetW: int, targetH: int, fileExists: bool,
                            probe: ProbeResult, tempPath: string): (r: Prepared)
    ensures r.resize.None? <==> VideoDimensions(fileExists, probe) == (targetW, targetH)
    ensures r.resize.None? ==> r.path == path
    ensures r.resize.Some? ==> r.path == tempPath && r.resize.value == ResizeFilter(targetW, targetH)
  {
    var (w, h) := VideoDimensions(fileExists, probe);
    if w == targetW && h == targetH then Prepared(path, None)
    else Prepared(tempPath, Some(ResizeFilter(targetW, targetH)))
  }

  /** Preparing the resized clip again changes nothing, once ffprobe reports
      the target size for it. */
  lemma PrepareResizedIsStable(path: string, targetW: nat, targetH: nat, fileExists: bool,
                               probe: ProbeResult, tempPath: string)
    requires PrepareSecondary(path, targetW, targetH, fileExists, probe, tempPath).resize.Some?
    ensures var p := PrepareSecondary(path, targetW, targetH, fileExists, probe, tempPath);
            PrepareSecondary(p.path, targetW, targetH, true, ProbeOutput(ProbeLine(targetW, targetH)), tempPath)
            == Prepared(tempPath, None)
  {
    DimensionsRoundTrip(targetW, targetH);
  }

  // ---------------------------------------------------------------------
  // Frame geometry

  datatype Geometry = Geometry(width: int, height: int)

  /** The crop `process_clip` asks for, before `CropTransform` clamps it. */
  datatype CropBox = CropBox(x: int, y: int, width: int, height: int)

  /** A requested size is used when positive, at most the frame's. */
  function SafeSize(requested: int, frame: int): (r: int)
    ensures requested > 0 && requested <= frame ==> r == requested
    ensures requested > 0 && requested > frame ==> r == frame
    ensures requested <= 0 ==> r == frame
  {
    if requested > 0 then (if requested < frame then requested else frame) else frame
  }

  /** A requested offset is kept when the crop fits, else moved left (up). */
  function SafeOffset(requested: int, size: int, frame: int): int {
    if requested + size > frame then (if frame - size > 0 then frame - size else 0) else requested
  }

  function CropFor(g: Geometry, reqW: int, reqH: int, reqX: int, reqY: int): CropBox {
    var w := SafeSize(reqW, g.width);
    var h := SafeSize(reqH, g.height);
    CropBox(SafeOffset(reqX, w, g.width), SafeOffset(reqY, h, g.height), w, h)
  }

  /** For a frame of non-negative size and non-negative requested offsets,
      the crop lies inside the frame, and an offset that already fits is
      kept. */
  lemma CropStaysInFrame(g: Geometry, reqW: int, reqH: int, reqX: int, reqY: int)
    requires g.width >= 0 && g.height >= 0 && reqX >= 0 && reqY >= 0
    ensures var c := CropFor(g, reqW, reqH, reqX, reqY);
            0 <= c.x && c.x + c.width <= g.width && 0 <= c.y && c.y + c.height <= g.height &&
            (reqX + c.width <= g.width ==> c.x == reqX) &&
            (reqY + c.height <= g.height ==> c.y == reqY)
  {
  }

  /** `abs(s - 1.0) > 0.01`. */
  predicate ScaleMatters(s: real) {
    s - 1.0 > 0.01 || 1.0 - s > 0.01
  }

  // ---------------------------------------------------------------------
  // The transpose swap

  /** The test in `process_clip`: `'clock' in mode and 'flip' not in mode`. */
  predicate SwapsAsWritten(mode: string) {
    Contains(mode, "clock") && !Contains(mode, "flip")
  }

  /** Whether the transposed frame is turned by a quarter: ffmpeg's
      `transpose` (any of its four directions) exchanges width and height,
      `hflip` and `vflip` keep them. */
  predicate SwapsDimensions(mode: string) {
    Lower(mode) in ["clock", "cclock", "clock_flip", "cclock_flip"]
  }

  /** The corrected test agrees with the filter that is actually run: the
      frame turns exactly when `Transpose` emits `transpose=N`. */
  lemma SwapsExactlyForTranspose(mode: string)
    requires ModeFilter(mode).Some?
    ensures SwapsDimensions(mode) <==> StartsWith(ModeFilter(mode).value, "transpose=")
  {
    ModeFilterTable(mode);
    var m := Lower(mode);
    if m == "hflip" {
      assert ModeFilter(mode).value == "hflip";
      assert !StartsWith("hflip", "transpose=");
    } else if m == "vflip" {
      assert ModeFilter(mode).value == "vflip";
      assert !StartsWith("vflip", "transpose=");
    }
  }

  /** The written test leaves a frame unturned that ffmpeg turns:
      `clock_flip` runs `transpose=3`, a quarter turn. */
  lemma ClockFlipNotSwappedAsWritten()
    ensures ModeFilter("clock_flip") == Some("transpose=3")
    ensures !SwapsAsWritten("clock_flip") && SwapsDimensions("clock_flip")
  {
    var m := "clock_flip";
    assert Lower(m) == m;
    ModeFilterTable(m);
    assert StartsWith(m[6..], "flip");
    assert Contains(m[6..], "flip");
    assert Contains(m[5..], "flip");
    assert Contains(m[4..], "flip");
    assert Contains(m[3..], "flip");
    assert Contains(m[2..], "flip");
    assert Contains(m[1..], "flip");
  }

  /** It also misses the modes `Transpose` accepts in capitals. */
  lemma UpperClockNotSwappedAsWritten()
    ensures ModeFilter("CLOCK") == Some("transpose=1")
    ensures !SwapsAsWritten("CLOCK") && SwapsDimensions("CLOCK")
  {
    var m := "CLOCK";
    assert Lower(m) == "clock";
    ModeFilterTable(m);
    if Contains(m, "clock") {
      ContainsFirstChar(m, "clock");
    }
  }

  /** The written test errs only one way: whenever it swaps an accepted
      mode, ffmpeg does turn the frame by a quarter. */
  lemma SwapAsWrittenIsSound(mode: string)
    requires ModeFilter(mode).Some? && SwapsAsWritten(mode)
    ensures SwapsDimensions(mode)
  {
    ModeFilterTable(mode);
    var m := Lower(mode);
    ContainsFirstChar(mode, "clock");
    var i :| 0 <= i < |mode| && mode[i] == 'c';
    assert m[i] == 'c';
  }

  // ---------------------------------------------------------------------
  // The effect stack

  /** Every operation `process_clip` knows, one per block of the method. */
  datatype Op =
    | FpsOp | SpeedOp | CropOp | PaddingOp | RotateOp | ScaleOp | TransposeOp
    | FadeOp | TextOp
    | TempoOp | KernelOp | EdgeDetectOp | BlurOp | VolumeOp | NoiseReductionOp
    | OverlayOp | BlendOp | EchoOp | DelayOp | ChorusOp

  /** The order in which the method tries them. */
  const OpOrder: seq<Op> :=
    [FpsOp, SpeedOp, CropOp, PaddingOp, RotateOp, ScaleOp, TransposeOp, FadeOp, TextOp,
     TempoOp, KernelOp, EdgeDetectOp, BlurOp, VolumeOp, NoiseReductionOp,
     OverlayOp, BlendOp, EchoOp, DelayOp, ChorusOp]

  function Rank(op: Op): (k: nat)
    ensures k < |OpOrder| && OpOrder[k] == op
  {
    match op
    case FpsOp => 0 case SpeedOp => 1 case CropOp => 2 case PaddingOp => 3 case RotateOp => 4
    case ScaleOp => 5 case TransposeOp => 6 case FadeOp => 7 case TextOp => 8 case TempoOp => 9
    case KernelOp => 10 case EdgeDetectOp => 11 case BlurOp => 12 case VolumeOp => 13
    case NoiseReductionOp => 14 case OverlayOp => 15 case BlendOp => 16 case EchoOp => 17
    case DelayOp => 18 case ChorusOp => 19
  }

  datatype PadRequest = PadRequest(top: int, bottom: int, left: int, right: int, color: string)

  /** Opacity in thousandths. */
  datatype TextRequest = TextRequest(text: string, x: int, y: int, font: string, size: int,
                                     color: string, opacity: int)

  /** The dictionary `filter_stack`, one field per block; `None` (or
      `false`) is an absent or disabled entry. Float parameters that only
      reach filters this model does not serialise are left out; a path
      that is missing or empty is "". */
  datatype FilterStack = FilterStack(
    fps: Option<int>,
    speed: Option<real>,
    crop: Option<CropBox>,
    padding: Option<PadRequest>,
    rotate: bool,
    scale: Option<(real, real)>,
    transpose: Option<string>,
    fade: Option<(int, string)>,
    text: Option<TextRequest>,
    tempo: bool,
    kernelRows: Option<nat>,
    edgeDetect: bool,
    blur: Option<int>,
    volume: bool,
    noiseReduction: bool,
    overlay: Option<string>,
    blend: Option<string>,
    echo: bool,
    delay: bool,
    chorus: bool)

  /** The world the method runs in: which files exist, what ffprobe prints
      for each, the fade's own probe, the temporary file a resize writes,
      the text of the exception each failing operation raises, the digest
      of the stack, and the exceptions the resize run of a blend partner and
      `shutil.move` raise, if any. */
  datatype Env = Env(existing: set<string>, probes: map<string, ProbeResult>, fadeProbe: Probe,
                     resizedPath: string, resizeError: Option<string>, failing: map<Op, string>,
                     stackHash: string, moveError: Option<string>)

  function ProbeOf(env: Env, path: string): ProbeResult {
    if path in env.probes then env.probes[path] else ProbeFailed
  }

  /** One filter run: the operation, the filter text when this model
      serialises it, and the second input of a composition. */
  datatype Applied = Applied(op: Op, filter: Option<Filter>, secondary: Option<string>)

  /** Where the method is: the tracked frame size, the runs so far, and the
      text of the exception that ended it, if any. */
  datatype Stage = Stage(geometry: Geometry, applied: seq<Applied>, error: Option<string>)

  /** Running one operation, or the exception it raises. */
  function Apply(env: Env, s: Stage, a: Applied, g: Geometry): Stage {
    if a.op in env.failing then Stage(s.geometry, s.applied, Some(env.failing[a.op]))
    else Stage(g, s.applied + [a], None)
  }

  function Fail(s: Stage, e: Error): Stage {
    Stage(s.geometry, s.applied, Some(e.message))
  }

  /** Whether an operation's block runs a filter when everything succeeds. */
  predicate Effective(op: Op, stack: FilterStack, env: Env) {
    match op
    case FpsOp => stack.fps.Some?
    case SpeedOp => stack.speed.Some? && stack.speed.value > 0.01
    case CropOp => stack.crop.Some?
    case PaddingOp =>
      stack.padding.Some? &&
      (stack.padding.value.top > 0 || stack.padding.value.bottom > 0 ||
       stack.padding.value.left > 0 || stack.padding.value.right > 0)
    case RotateOp => stack.rotate
    case ScaleOp => stack.scale.Some? && (ScaleMatters(stack.scale.value.0) || ScaleMatters(stack.scale.value.1))
    case TransposeOp => stack.transpose.Some?
    case FadeOp => stack.fade.Some?
    case TextOp => stack.text.Some?
    case TempoOp => stack.tempo
    case KernelOp => stack.kernelRows.Some? && stack.kernelRows.value > 0
    case EdgeDetectOp => stack.edgeDetect
    case BlurOp => stack.blur.Some?
    case VolumeOp => stack.volume
    case NoiseReductionOp => stack.noiseReduction
    case OverlayOp => stack.overlay.Some? && stack.overlay.value != "" && stack.overlay.value in env.existing
    case BlendOp => stack.blend.Some? && stack.blend.value != "" && stack.blend.value in env.existing
    case EchoOp => stack.echo
    case DelayOp => stack.delay
    case ChorusOp => stack.chorus
  }

  /** The frame size after cropping. */
  function Cropped(g: Geometry, c: CropBox): Geometry {
    var b := CropFor(g, c.width, c.height, c.x, c.y);
    Geometry(b.width, b.height)
  }

  /** The frame size after padding with already clamped sides. */
  function Padded(g: Geometry, p: Padding): Geometry {
    Geometry(g.width + p.left + p.right, g.height + p.top + p.bottom)
  }

  function Scaled(g: Geometry, sx: real, sy: real): Geometry {
    Geometry(Trunc(g.width as real * sx), Trunc(g.height as real * sy))
  }

  /** The size `process_clip` tracks after a transpose: swapped by the test
      as written (see `SwapsAsWritten` and the corrected `SwapsDimensions`). */
  function Transposed(g: Geometry, mode: string): Geometry {
    if SwapsAsWritten(mode) then Geometry(g.height, g.width) else g
  }

  /** The operations whose block runs a filter of its own parameters that
      this model leaves opaque. */
  predicate OpaqueOp(op: Op) {
    op in {SpeedOp, RotateOp, TempoOp, KernelOp, EdgeDetectOp, VolumeOp, NoiseReductionOp,
           EchoOp, DelayOp, ChorusOp}
  }

  /** The blocks whose filter is opaque: a run exactly when effective. */
  function OpaqueStep(op: Op, stack: FilterStack, env: Env, s: Stage): Stage {
    if Effective(op, stack, env) then Apply(env, s, Applied(op, None, None), s.geometry) else s
  }

  function FpsStep(stack: FilterStack, env: Env, s: Stage): Stage {
    if stack.fps.None? then s
    else Apply(env, s, Applied(FpsOp, Some(FpsFilter(ClampFps(stack.fps.value))), None), s.geometry)
  }

  function CropStep(stack: FilterStack, env: Env, s: Stage): Stage {
    if stack.crop.None? then s
    else
      var c := stack.crop.value;
      var b := CropFor(s.geometry, c.width, c.height, c.x, c.y);
      Apply(env, s, Applied(CropOp, Some(CropFilter(NewCrop(b.x, b.y, b.width, b.height))), None),
            Cropped(s.geometry, c))
  }

  function PaddingStep(stack: FilterStack, env: Env, s: Stage): Stage {
    if !Effective(PaddingOp, stack, env) then s
    else
      var r := stack.padding.value;
      var p := NewPadding(r.top, r.bottom, r.left, r.right, r.color);
      Apply(env, s, Applied(PaddingOp, Some(PadFilter(p)), None), Padded(s.geometry, p))
  }

  function ScaleStep(stack: FilterStack, env: Env, s: Stage): Stage {
    if !Effective(ScaleOp, stack, env) then s
    else
      var (sx, sy) := stack.scale.value;
      Apply(env, s, Applied(ScaleOp, None, None), Scaled(s.geometry, sx, sy))
  }

  /** A transpose that runs swaps the tracked size exactly when the mode
      passes the test as written; one that is refused or fails keeps it. */
  lemma TransposeStepGeometry(stack: FilterStack, env: Env, s: Stage)
    requires stack.transpose.Some?
    ensures var r := TransposeStep(stack, env, s);
            var g := s.geometry;
            (r.error.None? ==> r.geometry == (if SwapsAsWritten(stack.transpose.value)
                                               then Geometry(g.height, g.width) else g)) &&
            (r.error.Some? ==> r.geometry == g)
  {
  }

  /** An unknown mode raises before anything runs. */
  function TransposeStep(stack: FilterStack, env: Env, s: Stage): Stage {
    if stack.transpose.None? then s
    else
      var mode := stack.transpose.value;
      match NewTranspose(mode)
      case Err(e) => Fail(s, e)
      case Ok(t) => Apply(env, s, Applied(TransposeOp, Some(TransposeFilter(t)), None), Transposed(s.geometry, mode))
  }

  /** An unknown type, or a failing probe for a fade-out, raises. */
  function FadeStep(stack: FilterStack, env: Env, s: Stage): Stage {
    if stack.fade.None? then s
    else
      match NewFade(stack.fade.value.0, stack.fade.value.1)
      case Err(e) => Fail(s, e)
      case Ok(f) =>
        (match FadeFilter(f, env.fadeProbe)
         case Err(e) => Fail(s, e)
         case Ok(filter) => Apply(env, s, Applied(FadeOp, Some(filter), None), s.geometry))
  }

  function TextStep(stack: FilterStack, env: Env, s: Stage): Stage {
    if stack.text.None? then s
    else
      var t := stack.text.value;
      var d := NewDrawText(t.text, t.x, t.y, t.font, t.size, t.color, t.opacity);
      Apply(env, s, Applied(TextOp, Some(DrawTextFilter(d)), None), s.geometry)
  }

  function BlurStep(stack: FilterStack, env: Env, s: Stage): Stage {
    if stack.blur.None? then s
    else Apply(env, s, Applied(BlurOp, Some(BoxBlurFilter(ClampRadius(stack.blur.value))), None), s.geometry)
  }

  function OverlayStep(stack: FilterStack, env: Env, s: Stage): Stage {
    if !Effective(OverlayOp, stack, env) then s
    else Apply(env, s, Applied(OverlayOp, None, Some(stack.overlay.value)), s.geometry)
  }

  /** The partner is resized to the tracked frame first; that run may raise. */
  function BlendStep(stack: FilterStack, env: Env, s: Stage): Stage {
    if !Effective(BlendOp, stack, env) then s
    else
      var g := s.geometry;
      var path := stack.blend.value;
      var prepared := PrepareSecondary(path, g.width, g.height, true, ProbeOf(env, path), env.resizedPath);
      if prepared.resize.Some? && env.resizeError.Some? then Stage(g, s.applied, env.resizeError)
      else Apply(env, s, Applied(BlendOp, None, Some(prepared.path)), g)
  }

  /** One block of `process_clip`, as a specification: nothing happens
      after an exception; a disabled or ineffective block changes nothing. */
  function Step(op: Op, stack: FilterStack, env: Env, s: Stage): Stage {
    if s.error.Some? then s
    else
      match op
      case FpsOp => FpsStep(stack, env, s)
      case CropOp => CropStep(stack, env, s)
      case PaddingOp => PaddingStep(stack, env, s)
      case ScaleOp => ScaleStep(stack, env, s)
      case TransposeOp => TransposeStep(stack, env, s)
      case FadeOp => FadeStep(stack, env, s)
      case TextOp => TextStep(stack, env, s)
      case BlurOp => BlurStep(stack, env, s)
      case OverlayOp => OverlayStep(stack, env, s)
      case BlendOp => BlendStep(stack, env, s)
      case _ => OpaqueStep(op, stack, env, s)
  }

  /** The blocks `ops`, in order. */
  function Run(ops: seq<Op>, stack: FilterStack, env: Env, s: Stage): Stage {
    if ops == [] then s else Step(ops[|ops| - 1], stack, env, Run(ops[..|ops| - 1], stack, env, s))
  }

  /** The operations of a list of runs, in order. */
  function OpsOf(applied: seq<Applied>): (ops: seq<Op>)
    ensures |ops| == |applied|
    ensures forall i :: 0 <= i < |applied| ==> ops[i] == applied[i].op
  {
    seq(|applied|, i requires 0 <= i < |applied| => applied[i].op)
  }

  /** What one block does to a stage without an exception: it leaves the
      runs alone or adds one run of its own operation, an exception leaves
      them alone, and without an exception a run is added exactly when the
      block is effective; an ineffective block changes nothing. */
  predicate Shaped(op: Op, stack: FilterStack, env: Env, s: Stage, r: Stage) {
    (!Effective(op, stack, env) ==> r == s) &&
    (r.applied == s.applied ||
     (|r.applied| == |s.applied| + 1 && r.applied[..|s.applied|] == s.applied &&
      r.applied[|s.applied|].op == op)) &&
    (r.error.Some? ==> r.applied == s.applied) &&
    (r.error.None? ==> (|r.applied| == |s.applied| + 1 <==> Effective(op, stack, env)))
  }

  lemma ApplyShape(env: Env, s: Stage, a: Applied, g: Geometry)
    ensures var r := Apply(env, s, a, g);
            (r.applied == s.applied && r.error.Some?) ||
            (r.error.None? && |r.applied| == |s.applied| + 1 && r.applied[..|s.applied|] == s.applied &&
             r.applied[|s.applied|] == a)
  {
    var r := Apply(env, s, a, g);
    if r.error.None? {
      assert r.applied[..|s.applied|] == s.applied;
    }
  }

  lemma TransformShape(op: Op, stack: FilterStack, env: Env, s: Stage)
    requires s.error.None? && op in {FpsOp, CropOp, PaddingOp, ScaleOp, TransposeOp}
    ensures Shaped(op, stack, env, s, Step(op, stack, env, s))
  {
    match op
    case FpsOp =>
      if stack.fps.Some? {
        ApplyShape(env, s, Applied(FpsOp, Some(FpsFilter(ClampFps(stack.fps.value))), None), s.geometry);
      }
    case CropOp =>
      if stack.crop.Some? {
        var c := stack.crop.value;
        var b := CropFor(s.geometry, c.width, c.height, c.x, c.y);
        ApplyShape(env, s, Applied(CropOp, Some(CropFilter(NewCrop(b.x, b.y, b.width, b.height))), None),
                   Cropped(s.geometry, c));
      }
    case PaddingOp =>
      if Effective(op, stack, env) {
        var r := stack.padding.value;
        var p := NewPadding(r.top, r.bottom, r.left, r.right, r.color);
        ApplyShape(env, s, Applied(PaddingOp, Some(PadFilter(p)), None), Padded(s.geometry, p));
      }
    case ScaleOp =>
      if Effective(op, stack, env) {
        var (sx, sy) := stack.scale.value;
        ApplyShape(env, s, Applied(ScaleOp, None, None), Scaled(s.geometry, sx, sy));
      }
    case TransposeOp =>
      if stack.transpose.Some? {
        var mode := stack.transpose.value;
        if NewTranspose(mode).Ok? {
          ApplyShape(env, s, Applied(TransposeOp, Some(TransposeFilter(NewTranspose(mode).value)), None),
                     Transposed(s.geometry, mode));
        }
      }
  }

  lemma LaterShape(op: Op, stack: FilterStack, env: Env, s: Stage)
    requires s.error.None? && op in {FadeOp, TextOp, BlurOp, OverlayOp, BlendOp}
    ensures Shaped(op, stack, env, s, Step(op, stack, env, s))
  {
    match op
    case FadeOp =>
      if stack.fade.Some? {
        var f := NewFade(stack.fade.value.0, stack.fade.value.1);
        if f.Ok? && FadeFilter(f.value, env.fadeProbe).Ok? {
          ApplyShape(env, s, Applied(FadeOp, Some(FadeFilter(f.value, env.fadeProbe).value), None), s.geometry);
        }
      }
    case TextOp =>
      if stack.text.Some? {
        var t := stack.text.value;
        var d := NewDrawText(t.text, t.x, t.y, t.font, t.size, t.color, t.opacity);
        ApplyShape(env, s, Applied(TextOp, Some(DrawTextFilter(d)), None), s.geometry);
      }
    case BlurOp =>
      if stack.blur.Some? {
        ApplyShape(env, s, Applied(BlurOp, Some(BoxBlurFilter(ClampRadius(stack.blur.value))), None), s.geometry);
      }
    case OverlayOp =>
      if Effective(op, stack, env) {
        ApplyShape(env, s, Applied(OverlayOp, None, Some(stack.overlay.value)), s.geometry);
      }
    case BlendOp =>
      if Effective(op, stack, env) {
        var g := s.geometry;
        var path := stack.blend.value;
        var prepared := PrepareSecondary(path, g.width, g.height, true, ProbeOf(env, path), env.resizedPath);
        ApplyShape(env, s, Applied(BlendOp, None, Some(prepared.path)), g);
      }
  }

  lemma OpaqueShape(op: Op, stack: FilterStack, env: Env, s: Stage)
    requires s.error.None? && OpaqueOp(op)
    ensures Shaped(op, stack, env, s, Step(op, stack, env, s))
  {
    ApplyShape(env, s, Applied(op, None, None), s.geometry);
  }

  /** One block, in every case: see `Shaped`; once an exception is raised
      nothing changes. */
  lemma StepShape(op: Op, stack: FilterStack, env: Env, s: Stage)
    ensures var r := Step(op, stack, env, s);
            (s.error.Some? ==> r == s) &&
            (s.error.None? ==> Shaped(op, stack, env, s, r))
  {
    if s.error.None? {
      if op in {FpsOp, CropOp, PaddingOp, ScaleOp, TransposeOp} {
        TransformShape(op, stack, env, s);
      } else if op in {FadeOp, TextOp, BlurOp, OverlayOp, BlendOp} {
        LaterShape(op, stack, env, s);
      } else {
        OpaqueShape(op, stack, env, s);
      }
    }
  }

  lemma RunSnoc(ops: seq<Op>, stack: FilterStack, env: Env, s: Stage, k: nat)
    requires k < |ops|
    ensures Run(ops[..k + 1], stack, env, s) == Step(ops[k], stack, env, Run(ops[..k], stack, env, s))
  {
    assert ops[..k + 1][..k] == ops[..k];
  }

  /** Once a block has raised, the rest of the method changes nothing. */
  lemma {:induction false} RunKeepsError(ops: seq<Op>, stack: FilterStack, env: Env, s: Stage)
    requires s.error.Some?
    ensures Run(ops, stack, env, s) == s
  {
    if ops != [] {
      RunKeepsError(ops[..|ops| - 1], stack, env, s);
    }
  }

  lemma {:induction false} RunAppend(a: seq<Op>, b: seq<Op>, stack: FilterStack, env: Env, s: Stage)
    ensures Run(a + b, stack, env, s) == Run(b, stack, env, Run(a, stack, env, s))
  {
    if b == [] {
      assert a + b == a;
    } else {
      assert (a + b)[..|a + b| - 1] == a + b[..|b| - 1];
      RunAppend(a, b[..|b| - 1], stack, env, s);
    }
  }

  /** A block that raised ends the whole list of blocks. */
  lemma StopsAt(ops: seq<Op>, stack: FilterStack, env: Env, s: Stage, k: nat)
    requires k < |ops| && Run(ops[..k + 1], stack, env, s).error.Some?
    ensures Run(ops, stack, env, s) == Run(ops[..k + 1], stack, env, s)
  {
    RunAppend(ops[..k + 1], ops[k + 1..], stack, env, s);
    assert ops[..k + 1] + ops[k + 1..] == ops;
    RunKeepsError(ops[k + 1..], stack, env, Run(ops[..k + 1], stack, env, s));
  }

  lemma RankOfOrder(i: nat)
    requires i < |OpOrder|
    ensures Rank(OpOrder[i]) == i
  {
    if i < 10 {
      if i == 0 {} else if i == 1 {} else if i == 2 {} else if i == 3 {} else if i == 4 {}
      else if i == 5 {} else if i == 6 {} else if i == 7 {} else if i == 8 {} else {}
    } else {
      if i == 10 {} else if i == 11 {} else if i == 12 {} else if i == 13 {} else if i == 14 {}
      else if i == 15 {} else if i == 16 {} else if i == 17 {} else if i == 18 {} else {}
    }
  }

  /** Runs of ops ranked below `k`, in strictly increasing rank. */
  predicate InOrderBelow(applied: seq<Applied>, k: nat) {
    (forall i :: 0 <= i < |applied| ==> Rank(applied[i].op) < k) &&
    (forall i, j :: 0 <= i < j < |applied| ==> Rank(applied[i].op) < Rank(applied[j].op))
  }

  lemma InOrderExtend(prev: seq<Applied>, next: seq<Applied>, op: Op, k: nat)
    requires InOrderBelow(prev, k) && Rank(op) == k
    requires next == prev || (|next| == |prev| + 1 && next[..|prev|] == prev && next[|prev|].op == op)
    ensures InOrderBelow(next, k + 1)
  {
    if next != prev {
      forall i | 0 <= i < |prev| ensures next[i] == prev[i] {
        assert next[..|prev|][i] == next[i];
      }
    }
  }

  /** The runs follow the fixed order: every run of the first `k` blocks
      comes from one of them, and their ranks strictly increase. */
  lemma {:induction false} AppliedFollowsOrder(stack: FilterStack, env: Env, g: Geometry, k: nat)
    requires k <= |OpOrder|
    ensures InOrderBelow(Run(OpOrder[..k], stack, env, Stage(g, [], None)).applied, k)
  {
    if k > 0 {
      AppliedFollowsOrder(stack, env, g, k - 1);
      var prev := Run(OpOrder[..k - 1], stack, env, Stage(g, [], None));
      RunSnoc(OpOrder, stack, env, Stage(g, [], None), k - 1);
      StepShape(OpOrder[k - 1], stack, env, prev);
      RankOfOrder(k - 1);
      InOrderExtend(prev.applied, Run(OpOrder[..k], stack, env, Stage(g, [], None)).applied, OpOrder[k - 1], k - 1);
    }
  }

  /** The operations of the runs are the effective ones ranked below `k`. */
  predicate ExactlyEffectiveBelow(applied: seq<Applied>, stack: FilterStack, env: Env, k: nat) {
    forall op :: op in OpsOf(applied) <==> Effective(op, stack, env) && Rank(op) < k
  }

  lemma EffectiveExtend(prev: seq<Applied>, next: seq<Applied>, op: Op, stack: FilterStack, env: Env, k: nat)
    requires ExactlyEffectiveBelow(prev, stack, env, k) && Rank(op) == k
    requires next == prev || (|next| == |prev| + 1 && next[..|prev|] == prev && next[|prev|].op == op)
    requires |next| == |prev| + 1 <==> Effective(op, stack, env)
    ensures ExactlyEffectiveBelow(next, stack, env, k + 1)
  {
    if next == prev {
      assert OpsOf(next) == OpsOf(prev);
    } else {
      assert next == prev + [next[|prev|]];
      assert OpsOf(next) == OpsOf(prev) + [op];
    }
    forall o ensures o in OpsOf(next) <==> Effective(o, stack, env) && Rank(o) < k + 1 {
      if Rank(o) == k {
        RankOfOrder(k);
      }
    }
  }

  /** Without an exception, the first `k` blocks run exactly the effective
      operations among them. */
  lemma {:induction false} AppliedExactlyEffective(stack: FilterStack, env: Env, g: Geometry, k: nat)
    requires k <= |OpOrder|
    requires Run(OpOrder[..k], stack, env, Stage(g, [], None)).error.None?
    ensures ExactlyEffectiveBelow(Run(OpOrder[..k], stack, env, Stage(g, [], None)).applied, stack, env, k)
  {
    var s0 := Stage(g, [], None);
    if k > 0 {
      var prev := Run(OpOrder[..k - 1], stack, env, s0);
      RunSnoc(OpOrder, stack, env, s0, k - 1);
      var op := OpOrder[k - 1];
      StepShape(op, stack, env, prev);
      if prev.error.Some? {
        assert false;
      }
      AppliedExactlyEffective(stack, env, g, k - 1);
      RankOfOrder(k - 1);
      EffectiveExtend(prev.applied, Run(OpOrder[..k], stack, env, s0).applied, op, stack, env, k - 1);
    }
  }

  // ---------------------------------------------------------------------
  // process_clip, block by block

  /** The four sections of the stack, as `process_clip` reads them. */
  const TransformOps: seq<Op> := [FpsOp, SpeedOp, CropOp, PaddingOp, RotateOp, ScaleOp, TransposeOp]
  const TimingTextOps: seq<Op> := [FadeOp, TextOp]
  const FilterOps: seq<Op> := [TempoOp, KernelOp, EdgeDetectOp, BlurOp, VolumeOp, NoiseReductionOp]
  const CompositionOps: seq<Op> := [OverlayOp, BlendOp, EchoOp, DelayOp, ChorusOp]

  /** One `apply...` call: ffmpeg writes the next temporary file, or the
      call raises the operation's exception. */
  method Execute(env: Env, applied: seq<Applied>, a: Applied) returns (next: seq<Applied>, error: Option<string>)
    ensures a.op in env.failing ==> next == applied && error == Some(env.failing[a.op])
    ensures a.op !in env.failing ==> next == applied + [a] && error.None?
  {
    if a.op in env.failing {
      next, error := applied, Some(env.failing[a.op]);
    } else {
      next, error := applied + [a], None;
    }
  }

  // Each block reads the stage's frame size into `main_w`/`main_h`, runs its
  // operation when it is enabled, and updates the frame size only when the
  // run succeeded (after an exception nothing reads them again).

  method FpsBlock(stack: FilterStack, env: Env, s: Stage) returns (r: Stage)
    requires s.error.None?
    ensures r == Step(FpsOp, stack, env, s)
  {
    assert Step(FpsOp, stack, env, s) == FpsStep(stack, env, s);
    var applied, error := s.applied, None;
    if stack.fps.Some? {
      applied, error := Execute(env, applied, Applied(FpsOp, Some(FpsFilter(ClampFps(stack.fps.value))), None));
    }
    r := Stage(s.geometry, applied, error);
  }

  method CropBlock(stack: FilterStack, env: Env, s: Stage) returns (r: Stage)
    requires s.error.None?
    ensures r == Step(CropOp, stack, env, s)
  {
    assert Step(CropOp, stack, env, s) == CropStep(stack, env, s);
    var mainW, mainH := s.geometry.width, s.geometry.height;
    var applied, error := s.applied, None;
    if stack.crop.Some? {
      var c := stack.crop.value;
      var safeW := if c.width > 0 then (if c.width < mainW then c.width else mainW) else mainW;
      var safeH := if c.height > 0 then (if c.height < mainH then c.height else mainH) else mainH;
      var safeX := c.x;
      if safeX + safeW > mainW {
        safeX := if mainW - safeW > 0 then mainW - safeW else 0;
      }
      var safeY := c.y;
      if safeY + safeH > mainH {
        safeY := if mainH - safeH > 0 then mainH - safeH else 0;
      }
      assert CropFor(s.geometry, c.width, c.height, c.x, c.y) == CropBox(safeX, safeY, safeW, safeH);
      applied, error := Execute(env, applied, Applied(CropOp, Some(CropFilter(NewCrop(safeX, safeY, safeW, safeH))), None));
      if error.None? {
        mainW, mainH := safeW, safeH;
      }
    }
    r := Stage(Geometry(mainW, mainH), applied, error);
  }

  method PaddingBlock(stack: FilterStack, env: Env, s: Stage) returns (r: Stage)
    requires s.error.None?
    ensures r == Step(PaddingOp, stack, env, s)
  {
    assert Step(PaddingOp, stack, env, s) == PaddingStep(stack, env, s);
    var mainW, mainH := s.geometry.width, s.geometry.height;
    var applied, error := s.applied, None;
    if stack.padding.Some? {
      var p := stack.padding.value;
      var top := if p.top > 0 then p.top else 0;
      var bottom := if p.bottom > 0 then p.bottom else 0;
      var left := if p.left > 0 then p.left else 0;
      var right := if p.right > 0 then p.right else 0;
      if top > 0 || bottom > 0 || left > 0 || right > 0 {
        var pad := NewPadding(top, bottom, left, right, p.color);
        assert pad == NewPadding(p.top, p.bottom, p.left, p.right, p.color);
        applied, error := Execute(env, applied, Applied(PaddingOp, Some(PadFilter(pad)), None));
        if error.None? {
          mainW, mainH := mainW + left + right, mainH + top + bottom;
        }
      }
    }
    r := Stage(Geometry(mainW, mainH), applied, error);
  }

  method ScaleBlock(stack: FilterStack, env: Env, s: Stage) returns (r: Stage)
    requires s.error.None?
    ensures r == Step(ScaleOp, stack, env, s)
  {
    assert Step(ScaleOp, stack, env, s) == ScaleStep(stack, env, s);
    var mainW, mainH := s.geometry.width, s.geometry.height;
    var applied, error := s.applied, None;
    if stack.scale.Some? {
      var (sx, sy) := stack.scale.value;
      if ScaleMatters(sx) || ScaleMatters(sy) {
        applied, error := Execute(env, applied, Applied(ScaleOp, None, None));
        if error.None? {
          mainW, mainH := Trunc(mainW as real * sx), Trunc(mainH as real * sy);
        }
      }
    }
    r := Stage(Geometry(mainW, mainH), applied, error);
  }

  /** The transpose block, with the swap test as written. */
  method TransposeBlock(stack: FilterStack, env: Env, s: Stage) returns (r: Stage)
    requires s.error.None?
    ensures r == Step(TransposeOp, stack, env, s)
  {
    assert Step(TransposeOp, stack, env, s) == TransposeStep(stack, env, s);
    var mainW, mainH := s.geometry.width, s.geometry.height;
    var applied, error := s.applied, None;
    if stack.transpose.Some? {
      var mode := stack.transpose.value;
      var t := NewTranspose(mode);
      if t.Err? {
        error := Some(t.error.message);
      } else {
        applied, error := Execute(env, applied, Applied(TransposeOp, Some(TransposeFilter(t.value)), None));
        if error.None? && SwapsAsWritten(mode) {
          mainW, mainH := mainH, mainW;
        }
      }
    }
    r := Stage(Geometry(mainW, mainH), applied, error);
  }

  lemma RunPush(ops: seq<Op>, op: Op, stack: FilterStack, env: Env, s: Stage)
    ensures Run(ops + [op], stack, env, s) == Step(op, stack, env, Run(ops, stack, env, s))
  {
    assert (ops + [op])[..|ops|] == ops;
  }

  /** The transform section is its seven blocks, one after the other. */
  lemma TransformChain(stack: FilterStack, env: Env, s: Stage)
    ensures Run(TransformOps, stack, env, s) ==
            Step(TransposeOp, stack, env, Step(ScaleOp, stack, env, Step(RotateOp, stack, env,
              Step(PaddingOp, stack, env, Step(CropOp, stack, env, Step(SpeedOp, stack, env,
              Step(FpsOp, stack, env, s)))))))
  {
    var ops := TransformOps;
    RunPush([], FpsOp, stack, env, s);
    RunPush(ops[..1], SpeedOp, stack, env, s);
    RunPush(ops[..2], CropOp, stack, env, s);
    RunPush(ops[..3], PaddingOp, stack, env, s);
    RunPush(ops[..4], RotateOp, stack, env, s);
    RunPush(ops[..5], ScaleOp, stack, env, s);
    RunPush(ops[..6], TransposeOp, stack, env, s);
    assert [FpsOp] == ops[..1] && ops[..1] + [SpeedOp] == ops[..2] && ops[..2] + [CropOp] == ops[..3];
    assert ops[..3] + [PaddingOp] == ops[..4] && ops[..4] + [RotateOp] == ops[..5];
    assert ops[..5] + [ScaleOp] == ops[..6] && ops[..6] + [TransposeOp] == ops;
  }

  /** The `Transforms/Video` section; an exception skips the rest of the
      method. */
  method TransformBlocks(stack: FilterStack, env: Env, s: Stage) returns (r: Stage)
    requires s.error.None?
    ensures r == Run(TransformOps, stack, env, s)
  {
    TransformChain(stack, env, s);
    r := FpsBlock(stack, env, s);
    if r.error.Some? { return; }
    r := OpaqueBlock(SpeedOp, stack.speed.Some? && stack.speed.value > 0.01, stack, env, r);
    if r.error.Some? { return; }
    r := CropBlock(stack, env, r);
    if r.error.Some? { return; }
    r := PaddingBlock(stack, env, r);
    if r.error.Some? { return; }
    r := OpaqueBlock(RotateOp, stack.rotate, stack, env, r);
    if r.error.Some? { return; }
    r := ScaleBlock(stack, env, r);
    if r.error.Some? { return; }
    r := TransposeBlock(stack, env, r);
  }

  method FadeBlock(stack: FilterStack, env: Env, s: Stage) returns (r: Stage)
    requires s.error.None?
    ensures r == Step(FadeOp, stack, env, s)
  {
    assert Step(FadeOp, stack, env, s) == FadeStep(stack, env, s);
    var applied, error := s.applied, None;
    if stack.fade.Some? {
      var (duration, kind) := stack.fade.value;
      var fade := NewFade(duration, kind);
      if fade.Err? {
        error := Some(fade.error.message);
      } else {
        var filter := FadeFilter(fade.value, env.fadeProbe);
        if filter.Err? {
          error := Some(filter.error.message);
        } else {
          applied, error := Execute(env, applied, Applied(FadeOp, Some(filter.value), None));
        }
      }
    }
    r := Stage(s.geometry, applied, error);
  }

  method TextBlock(stack: FilterStack, env: Env, s: Stage) returns (r: Stage)
    requires s.error.None?
    ensures r == Step(TextOp, stack, env, s)
  {
    assert Step(TextOp, stack, env, s) == TextStep(stack, env, s);
    var applied, error := s.applied, None;
    if stack.text.Some? {
      var t := stack.text.value;
      var d := NewDrawText(t.text, t.x, t.y, t.font, t.size, t.color, t.opacity);
      applied, error := Execute(env, applied, Applied(TextOp, Some(DrawTextFilter(d)), None));
    }
    r := Stage(s.geometry, applied, error);
  }

  lemma TimingTextChain(stack: FilterStack, env: Env, s: Stage)
    ensures Run(TimingTextOps, stack, env, s) == Step(TextOp, stack, env, Step(FadeOp, stack, env, s))
  {
    RunPush([], FadeOp, stack, env, s);
    RunPush([FadeOp], TextOp, stack, env, s);
    assert [FadeOp] + [TextOp] == TimingTextOps;
  }

  /** The `Timing/Video` and `Text operation/Video` sections. */
  method TimingTextBlocks(stack: FilterStack, env: Env, s: Stage) returns (r: Stage)
    requires s.error.None?
    ensures r == Run(TimingTextOps, stack, env, s)
  {
    TimingTextChain(stack, env, s);
    r := FadeBlock(stack, env, s);
    if r.error.Some? { return; }
    r := TextBlock(stack, env, r);
  }

  /** A block that runs its opaque filter when `enabled`, the block's own
      test. */
  method OpaqueBlock(op: Op, enabled: bool, stack: FilterStack, env: Env, s: Stage) returns (r: Stage)
    requires s.error.None?
    requires OpaqueOp(op) && enabled == Effective(op, stack, env)
    ensures r == Step(op, stack, env, s)
  {
    var applied, error := s.applied, None;
    if enabled {
      applied, error := Execute(env, applied, Applied(op, None, None));
    }
    r := Stage(s.geometry, applied, error);
  }

  method BlurBlock(stack: FilterStack, env: Env, s: Stage) returns (r: Stage)
    requires s.error.None?
    ensures r == Step(BlurOp, stack, env, s)
  {
    assert Step(BlurOp, stack, env, s) == BlurStep(stack, env, s);
    var applied, error := s.applied, None;
    if stack.blur.Some? {
      applied, error := Execute(env, applied, Applied(BlurOp, Some(BoxBlurFilter(ClampRadius(stack.blur.value))), None));
    }
    r := Stage(s.geometry, applied, error);
  }

  lemma FilterChain(stack: FilterStack, env: Env, s: Stage)
    ensures Run(FilterOps, stack, env, s) ==
            Step(NoiseReductionOp, stack, env, Step(VolumeOp, stack, env, Step(BlurOp, stack, env,
              Step(EdgeDetectOp, stack, env, Step(KernelOp, stack, env, Step(TempoOp, stack, env, s))))))
  {
    var ops := FilterOps;
    RunPush([], TempoOp, stack, env, s);
    RunPush(ops[..1], KernelOp, stack, env, s);
    RunPush(ops[..2], EdgeDetectOp, stack, env, s);
    RunPush(ops[..3], BlurOp, stack, env, s);
    RunPush(ops[..4], VolumeOp, stack, env, s);
    RunPush(ops[..5], NoiseReductionOp, stack, env, s);
    assert [TempoOp] == ops[..1] && ops[..1] + [KernelOp] == ops[..2] && ops[..2] + [EdgeDetectOp] == ops[..3];
    assert ops[..3] + [BlurOp] == ops[..4] && ops[..4] + [VolumeOp] == ops[..5];
    assert ops[..5] + [NoiseReductionOp] == ops;
  }

  /** The `Filters/Video` section. */
  method FilterBlocks(stack: FilterStack, env: Env, s: Stage) returns (r: Stage)
    requires s.error.None?
    ensures r == Run(FilterOps, stack, env, s)
  {
    FilterChain(stack, env, s);
    r := OpaqueBlock(TempoOp, stack.tempo, stack, env, s);
    if r.error.Some? { return; }
    r := OpaqueBlock(KernelOp, stack.kernelRows.Some? && stack.kernelRows.value > 0, stack, env, r);
    if r.error.Some? { return; }
    r := OpaqueBlock(EdgeDetectOp, stack.edgeDetect, stack, env, r);
    if r.error.Some? { return; }
    r := BlurBlock(stack, env, r);
    if r.error.Some? { return; }
    r := OpaqueBlock(VolumeOp, stack.volume, stack, env, r);
    if r.error.Some? { return; }
    r := OpaqueBlock(NoiseReductionOp, stack.noiseReduction, stack, env, r);
  }

  /** Overlay: the second clip is used as it is, when its path is set and
      exists. */
  method OverlayBlock(stack: FilterStack, env: Env, s: Stage) returns (r: Stage)
    requires s.error.None?
    ensures r == Step(OverlayOp, stack, env, s)
  {
    assert Step(OverlayOp, stack, env, s) == OverlayStep(stack, env, s);
    var applied, error := s.applied, None;
    if stack.overlay.Some? {
      var path := stack.overlay.value;
      if path != "" && path in env.existing {
        applied, error := Execute(env, applied, Applied(OverlayOp, None, Some(path)));
      }
    }
    r := Stage(s.geometry, applied, error);
  }

  /** `_prepare_secondary_clip`: the partner as it is when ffprobe reports
      the target size, else the temporary file a resize run writes (which
      may raise). */
  method PrepareSecondaryClip(path: string, targetW: int, targetH: int, env: Env)
    returns (prepared: string, error: Option<string>)
    ensures var p := PrepareSecondary(path, targetW, targetH, true, ProbeOf(env, path), env.resizedPath);
            error == (if p.resize.Some? then env.resizeError else None) && prepared == p.path
  {
    var (w, h) := VideoDimensions(true, ProbeOf(env, path));
    if w == targetW && h == targetH {
      return path, None;
    }
    prepared, error := env.resizedPath, env.resizeError;
  }

  /** Blend: the second clip is first brought to the tracked frame size. */
  method BlendBlock(stack: FilterStack, env: Env, s: Stage) returns (r: Stage)
    requires s.error.None?
    ensures r == Step(BlendOp, stack, env, s)
  {
    assert Step(BlendOp, stack, env, s) == BlendStep(stack, env, s);
    var mainW, mainH := s.geometry.width, s.geometry.height;
    var applied, error := s.applied, None;
    if stack.blend.Some? {
      var path := stack.blend.value;
      if path != "" && path in env.existing {
        var prepared;
        prepared, error := PrepareSecondaryClip(path, mainW, mainH, env);
        if error.None? {
          applied, error := Execute(env, applied, Applied(BlendOp, None, Some(prepared)));
        }
      }
    }
    r := Stage(s.geometry, applied, error);
  }

  lemma CompositionChain(stack: FilterStack, env: Env, s: Stage)
    ensures Run(CompositionOps, stack, env, s) ==
            Step(ChorusOp, stack, env, Step(DelayOp, stack, env, Step(EchoOp, stack, env,
              Step(BlendOp, stack, env, Step(OverlayOp, stack, env, s)))))
  {
    var ops := CompositionOps;
    RunPush([], OverlayOp, stack, env, s);
    RunPush(ops[..1], BlendOp, stack, env, s);
    RunPush(ops[..2], EchoOp, stack, env, s);
    RunPush(ops[..3], DelayOp, stack, env, s);
    RunPush(ops[..4], ChorusOp, stack, env, s);
    assert [OverlayOp] == ops[..1] && ops[..1] + [BlendOp] == ops[..2] && ops[..2] + [EchoOp] == ops[..3];
    assert ops[..3] + [DelayOp] == ops[..4] && ops[..4] + [ChorusOp] == ops;
  }

  /** The `Composition/Video` and `Composition/Audio` sections. */
  method CompositionBlocks(stack: FilterStack, env: Env, s: Stage) returns (r: Stage)
    requires s.error.None?
    ensures r == Run(CompositionOps, stack, env, s)
  {
    CompositionChain(stack, env, s);
    r := OverlayBlock(stack, env, s);
    if r.error.Some? { return; }
    r := BlendBlock(stack, env, r);
    if r.error.Some? { return; }
    r := OpaqueBlock(EchoOp, stack.echo, stack, env, r);
    if r.error.Some? { return; }
    r := OpaqueBlock(DelayOp, stack.delay, stack, env, r);
    if r.error.Some? { return; }
    r := OpaqueBlock(ChorusOp, stack.chorus, stack, env, r);
  }

  // ---------------------------------------------------------------------
  // The whole method

  lemma ProcessOrder(stack: FilterStack, env: Env, s: Stage)
    ensures Run(OpOrder, stack, env, s) ==
            Run(CompositionOps, stack, env, Run(FilterOps, stack, env,
              Run(TimingTextOps, stack, env, Run(TransformOps, stack, env, s))))
  {
    assert OpOrder == TransformOps + TimingTextOps + FilterOps + CompositionOps;
    RunAppend(TransformOps + TimingTextOps + FilterOps, CompositionOps, stack, env, s);
    RunAppend(TransformOps + TimingTextOps, FilterOps, stack, env, s);
    RunAppend(TransformOps, TimingTextOps, stack, env, s);
  }

  /** The body of the `try`: every section in turn, up to the first
      exception. */
  method AllBlocks(stack: FilterStack, env: Env, s: Stage) returns (r: Stage)
    requires s.error.None?
    ensures r == Run(OpOrder, stack, env, s)
  {
    ProcessOrder(stack, env, s);
    r := TransformBlocks(stack, env, s);
    if r.error.Some? {
      RunKeepsError(TimingTextOps, stack, env, r);
      RunKeepsError(FilterOps, stack, env, r);
      RunKeepsError(CompositionOps, stack, env, r);
      return;
    }
    r := TimingTextBlocks(stack, env, r);
    if r.error.Some? {
      RunKeepsError(FilterOps, stack, env, r);
      RunKeepsError(CompositionOps, stack, env, r);
      return;
    }
    r := FilterBlocks(stack, env, r);
    if r.error.Some? {
      RunKeepsError(CompositionOps, stack, env, r);
      return;
    }
    r := CompositionBlocks(stack, env, r);
  }

  /** `os.path.splitext` of a file name: the stem and the extension. */
  function SplitExt(b: string): (r: (string, string))
    ensures r.0 + r.1 == b && r.1 == Ext(b)
  {
    var e := Ext(b);
    (b[..|b| - |e|], e)
  }

  /** `{name}_FX_{hash}{ext}`: the cached file's name. */
  function CacheName(original: string, hash: string): string {
    var (name, ext) := SplitExt(Basename(original));
    name + "_FX_" + hash + ext
  }

  function CachePath(cacheDir: string, original: string, hash: string): string {
    PathJoin(cacheDir, CacheName(original, hash))
  }

  const MissingSourceMessage: string := "Fisierul sursa nu exista."

  /** What `process_clip` reports. */
  datatype Emission = Finished(path: string, stack: FilterStack) | ProcessingError(message: string)

  /** `process_clip` as a specification: a missing source is reported; an
      exception anywhere is reported with its text; a clip no operation
      touched is reported as it is; any other result is moved into the
      cache folder under its new name (assuming every successful run writes
      a new temporary file). */
  function ProcessResult(cacheDir: string, original: string, stack: FilterStack, env: Env): Emission {
    if original !in env.existing then ProcessingError(MissingSourceMessage)
    else
      var (w, h) := VideoDimensions(true, ProbeOf(env, original));
      var r := Run(OpOrder, stack, env, Stage(Geometry(w, h), [], None));
      if r.error.Some? then ProcessingError(r.error.value)
      else if r.applied == [] then Finished(original, stack)
      else if env.moveError.Some? then ProcessingError(env.moveError.value)
      else Finished(CachePath(cacheDir, original, env.stackHash), stack)
  }

  class FilterBridge {
    const cacheDir: string
    /** The signals emitted so far, oldest first. */
    var emitted: seq<Emission>

    constructor (cacheDir: string)
      ensures this.cacheDir == cacheDir && emitted == []
    {
      this.cacheDir := cacheDir;
      emitted := [];
    }

    /** `process_clip`: emits exactly one signal, the one `ProcessResult`
        describes. */
    method ProcessClip(original: string, stack: FilterStack, env: Env)
      modifies this
      ensures emitted == old(emitted) + [ProcessResult(cacheDir, original, stack, env)]
    {
      if original !in env.existing {
        emitted := emitted + [ProcessingError(MissingSourceMessage)];
        return;
      }
      var (mainW, mainH) := VideoDimensions(true, ProbeOf(env, original));
      var r := AllBlocks(stack, env, Stage(Geometry(mainW, mainH), [], None));
      if r.error.Some? {
        emitted := emitted + [ProcessingError(r.error.value)];
      } else if r.applied == [] {
        emitted := emitted + [Finished(original, stack)];
      } else if env.moveError.Some? {
        emitted := emitted + [ProcessingError(env.moveError.value)];
      } else {
        var finalPath := PathJoin(cacheDir, CacheName(original, env.stackHash));
        emitted := emitted + [Finished(finalPath, stack)];
      }
    }
  }

  // ---------------------------------------------------------------------
  // Properties of the whole method

  /** A stack with nothing effective hands back the original clip. */
  lemma {:induction false} NothingEffectiveChangesNothing(ops: seq<Op>, stack: FilterStack, env: Env, s: Stage)
    requires forall op :: !Effective(op, stack, env)
    ensures Run(ops, stack, env, s) == s
  {
    if ops != [] {
      NothingEffectiveChangesNothing(ops[..|ops| - 1], stack, env, s);
      StepShape(ops[|ops| - 1], stack, env, s);
    }
  }

  lemma NothingEffectiveKeepsOriginal(cacheDir: string, original: string, stack: FilterStack, env: Env)
    requires original in env.existing
    requires forall op :: !Effective(op, stack, env)
    ensures ProcessResult(cacheDir, original, stack, env) == Finished(original, stack)
  {
    var (w, h) := VideoDimensions(true, ProbeOf(env, original));
    NothingEffectiveChangesNothing(OpOrder, stack, env, Stage(Geometry(w, h), [], None));
  }

  /** Without an exception, the clip is handed back as it is exactly when
      no operation is effective; otherwise it is renamed into the cache. */
  lemma FinishedPath(cacheDir: string, original: string, stack: FilterStack, env: Env)
    requires ProcessResult(cacheDir, original, stack, env).Finished?
    ensures ProcessResult(cacheDir, original, stack, env).path ==
            if exists op :: Effective(op, stack, env) then CachePath(cacheDir, original, env.stackHash)
            else original
  {
    var (w, h) := VideoDimensions(true, ProbeOf(env, original));
    var r := Run(OpOrder, stack, env, Stage(Geometry(w, h), [], None));
    assert original in env.existing && r.error.None?;
    AllRunsEffective(stack, env, Geometry(w, h));
    AppliedIffEffective(r.applied, stack, env);
  }

  /** Without an exception, the whole method runs exactly the effective
      operations. */
  lemma AllRunsEffective(stack: FilterStack, env: Env, g: Geometry)
    requires Run(OpOrder, stack, env, Stage(g, [], None)).error.None?
    ensures ExactlyEffectiveBelow(Run(OpOrder, stack, env, Stage(g, [], None)).applied, stack, env, |OpOrder|)
  {
    assert OpOrder[..|OpOrder|] == OpOrder;
    AppliedExactlyEffective(stack, env, g, |OpOrder|);
  }

  lemma AppliedIffEffective(applied: seq<Applied>, stack: FilterStack, env: Env)
    requires ExactlyEffectiveBelow(applied, stack, env, |OpOrder|)
    ensures applied != [] <==> exists op :: Effective(op, stack, env)
  {
    if applied != [] {
      assert OpsOf(applied)[0] in OpsOf(applied);
    }
    if exists op :: Effective(op, stack, env) {
      var op :| Effective(op, stack, env);
      assert op in OpsOf(applied);
    }
  }

  lemma BasenameOfName(b: string)
    requires '/' !in b
    ensures Basename(b) == b
  {
    LastIndexOfAbsent(b, '/');
  }

  /** The cached file lies in the cache folder, under the name built from
      the clip's stem, the digest and the clip's extension. */
  lemma CachePathInCache(cacheDir: string, original: string, hash: string)
    requires '/' !in hash
    ensures Basename(CachePath(cacheDir, original, hash)) == CacheName(original, hash)
    ensures StartsWith(CachePath(cacheDir, original, hash), cacheDir)
  {
    var b := Basename(original);
    var (name, ext) := SplitExt(b);
    PartsOfName(name, ext);
    var c := name + "_FX_" + hash + ext;
    assert '/' !in c;
    PathJoinBasename(cacheDir, c);
  }

  lemma ExtInsertedBefore(name: string, t: string, ext: string)
    requires '/' !in name + t + ext
    requires |ext| > 0 && ext[0] == '.' && '.' !in ext[1..]
    requires |t| > 0 && '.' !in t
    ensures Ext(name + t + ext) == ext
  {
    var c := name + t + ext;
    BasenameOfName(c);
    LastIndexOfAbsent(ext[1..], '.');
    assert ext == [ext[0]] + ext[1..];
    LastIndexOfAppend([ext[0]], ext[1..], '.');
    LastIndexOfAppend(name + t, ext, '.');
    assert c[|name|] == t[0] && t[0] != '.';
    assert c[|name + t|..] == ext;
  }

  lemma ExtAppended(b: string, t: string)
    requires '/' !in b + t && '.' !in t && Ext(b) == ""
    ensures Ext(b + t) == ""
  {
    var c := b + t;
    BasenameOfName(b);
    BasenameOfName(c);
    LastIndexOfAbsent(t, '.');
    LastIndexOfAppend(b, t, '.');
    var d := LastIndexOf(b, '.');
    assert LastIndexOf(c, '.') == d;
    if d >= 0 {
      assert !exists k :: 0 <= k < d && b[k] != '.';
      forall k | 0 <= k < d ensures c[k] == '.' {
        assert c[k] == b[k];
      }
    }
  }

  /** The extension of a path is that of its last component. */
  lemma ExtOfBasename(p: string)
    ensures Ext(Basename(p)) == Ext(p)
  {
    BasenameOfName(Basename(p));
  }

  /** An extension holds one dot, its first character. */
  lemma ExtHasOneDot(b: string)
    requires Ext(b) != ""
    ensures Ext(b)[0] == '.' && '.' !in Ext(b)[1..]
  {
    var n := Basename(b);
    var d := LastIndexOf(n, '.');
    var e := Ext(b);
    assert e == n[d..];
    forall i | 0 <= i < |e| - 1 ensures e[1..][i] != '.' {
      assert e[1..][i] == n[d + 1 + i];
    }
  }

  lemma PartsOfName(name: string, ext: string)
    requires '/' !in name + ext
    ensures '/' !in name && '/' !in ext
  {
    forall i | 0 <= i < |name| ensures name[i] != '/' {
      assert name[i] == (name + ext)[i];
    }
    forall i | 0 <= i < |ext| ensures ext[i] != '/' {
      assert ext[i] == (name + ext)[|name| + i];
    }
  }

  /** The cached file keeps the clip's extension, so ffmpeg and the player
      see the same container. */
  lemma CacheNameKeepsExt(original: string, hash: string)
    requires '/' !in hash && '.' !in hash
    ensures Ext(CacheName(original, hash)) == Ext(original)
  {
    var b := Basename(original);
    ExtOfBasename(original);
    var (name, ext) := SplitExt(b);
    var t := "_FX_" + hash;
    assert CacheName(original, hash) == name + t + ext;
    TagKeepsExt(b, name, ext, t);
  }

  /** A tag without dots or slashes put between a name and its extension
      leaves the extension as it is. */
  lemma TagKeepsExt(b: string, name: string, ext: string, t: string)
    requires '/' !in b && name + ext == b && ext == Ext(b)
    requires |t| > 0 && '/' !in t && '.' !in t
    ensures Ext(name + t + ext) == ext
  {
    PartsOfName(name, ext);
    assert '/' !in name + t + ext;
    if ext != "" {
      ExtHasOneDot(b);
      ExtInsertedBefore(name, t, ext);
    } else {
      assert name == b;
      ExtAppended(b, t);
    }
  }
}
