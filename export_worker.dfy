/** ExportWorker.py: the export thread. It renders every piece of the
    flattened timeline to a chunk, stitches the chunks, mixes the audio of
    every non-image clip, muxes the two, and always removes its temporary
    folder. The ffmpeg runs are recorded as events; which of them fail, and
    when the interface thread asks for cancellation, are parameters. */
module ExportWorker {
  import opened Wrappers
  import opened Text
  import opened ExportTimeline

  /** `path.lower().endswith(tuple(img_exts))`. */
  predicate IsImagePath(p: string, imgExts: seq<string>) {
    EndsWithAny(Lower(p), imgExts)
  }

  // ---------------------------------------------------------------------
  // The audio mix

  /** The clips whose audio is mixed: not automatic gaps, not images. */
  function MixClips(items: seq<Item>, imgExts: seq<string>): seq<Clip> {
    if items == [] then []
    else
      var c := items[|items| - 1].clip;
      MixClips(items[..|items| - 1], imgExts) + (if c.isAutoGap || IsImagePath(c.path, imgExts) then [] else [c])
  }

  /** `audio_inputs`: `-i path` for each mixed clip. */
  function AudioArgs(clips: seq<Clip>): seq<string> {
    if clips == [] then [] else AudioArgs(clips[..|clips| - 1]) + ["-i", clips[|clips| - 1].path]
  }

  /** `[i:a]adelay=S|S[ai]`: input `i` delayed to its start on the timeline. */
  function DelayPart(i: nat, startMs: int): string {
    "[" + IntToString(i) + ":a]adelay=" + IntToString(startMs) + "|" + IntToString(startMs)
    + "[a" + IntToString(i) + "]"
  }

  function DelayParts(clips: seq<Clip>): (r: seq<string>)
    ensures |r| == |clips|
  {
    if clips == [] then []
    else DelayParts(clips[..|clips| - 1]) + [DelayPart(|clips| - 1, clips[|clips| - 1].start)]
  }

  lemma {:induction false} DelayPartsIndex(clips: seq<Clip>)
    ensures forall k :: 0 <= k < |clips| ==> DelayParts(clips)[k] == DelayPart(k, clips[k].start)
  {
    forall k | 0 <= k < |clips| ensures DelayParts(clips)[k] == DelayPart(k, clips[k].start) {
      DelayPartAt(clips, k);
    }
  }

  lemma {:induction false} DelayPartAt(clips: seq<Clip>, k: nat)
    requires k < |clips|
    ensures DelayParts(clips)[k] == DelayPart(k, clips[k].start)
    decreases |clips|
  {
    var init := clips[..|clips| - 1];
    var last := DelayPart(|clips| - 1, clips[|clips| - 1].start);
    assert DelayParts(clips) == DelayParts(init) + [last];
    if k < |init| {
      DelayPartAt(init, k);
      assert init[k] == clips[k];
      assert (DelayParts(init) + [last])[k] == DelayParts(init)[k];
    } else {
      assert |DelayParts(init)| == k;
    }
  }

  /** `"".join(f"[a{i}]" for i in range(n))`. */
  function InputTags(n: nat): string {
    if n == 0 then "" else InputTags(n - 1) + "[a" + IntToString(n - 1) + "]"
  }

  function MixCommand(n: nat): string {
    InputTags(n) + "amix=inputs=" + IntToString(n) + ":dropout_transition=0:normalize=0[aout]"
  }

  /** `full_filter`. */
  function FullFilter(clips: seq<Clip>): string {
    Join(";", DelayParts(clips)) + ";" + MixCommand(|clips|)
  }

  /** Argument pair `i` of the ffmpeg call names clip `i`, whose delay part
      refers to input `i` and shifts it by that clip's start. */
  lemma {:induction false} AudioArgsPairs(clips: seq<Clip>)
    ensures |AudioArgs(clips)| == 2 * |clips|
    ensures forall i :: 0 <= i < |clips| ==>
              AudioArgs(clips)[2 * i] == "-i" && AudioArgs(clips)[2 * i + 1] == clips[i].path
  {
    if clips != [] {
      var n := |clips|;
      AudioArgsPairs(clips[..n - 1]);
      forall i | 0 <= i < n - 1
        ensures AudioArgs(clips)[2 * i] == "-i" && AudioArgs(clips)[2 * i + 1] == clips[i].path
      {
        assert clips[..n - 1][i] == clips[i];
      }
    }
  }

  lemma NoSemicolonInDelay(i: nat, startMs: int)
    ensures ';' !in DelayPart(i, startMs)
  {
    NoSeparatorInInt(i, ';');
    NoSeparatorInInt(startMs, ';');
  }

  lemma {:induction false} NoSemicolonInTags(n: nat)
    ensures ';' !in InputTags(n)
  {
    if n > 0 {
      NoSemicolonInTags(n - 1);
      NoSeparatorInInt(n - 1, ';');
    }
  }

  lemma NoSemicolonInMix(n: nat)
    ensures ';' !in MixCommand(n)
  {
    NoSemicolonInTags(n);
    NoSeparatorInInt(n, ';');
    var tail := ":dropout_transition=0:normalize=0[aout]";
    assert forall k :: 0 <= k < |tail| ==> tail[k] != ';';
    assert forall k :: 0 <= k < |"amix=inputs="| ==> "amix=inputs="[k] != ';';
  }

  lemma {:induction false} JoinAppend(sep: string, parts: seq<string>, last: string)
    requires |parts| > 0
    ensures Join(sep, parts + [last]) == Join(sep, parts) + sep + last
  {
    if |parts| == 1 {
      JoinTwo(sep, parts[0], last);
    } else {
      assert (parts + [last])[1..] == parts[1..] + [last];
      JoinAppend(sep, parts[1..], last);
    }
  }

  /** The filter graph reads back as one delay part per mixed clip followed
      by the `amix` node over all of them. */
  lemma FullFilterParts(clips: seq<Clip>)
    requires |clips| > 0
    ensures Split(FullFilter(clips), ';') == DelayParts(clips) + [MixCommand(|clips|)]
  {
    var delays, mix := DelayParts(clips), MixCommand(|clips|);
    NoSemicolonInDelays(clips);
    NoSemicolonInMix(|clips|);
    var parts := delays + [mix];
    assert forall k :: 0 <= k < |parts| ==> ';' !in parts[k] by {
      forall k | 0 <= k < |parts| ensures ';' !in parts[k] {
        if k < |delays| {
          assert parts[k] == delays[k];
        }
      }
    }
    JoinAppend(";", delays, mix);
    SplitJoin(';', parts);
  }

  lemma NoSemicolonInDelays(clips: seq<Clip>)
    ensures forall k :: 0 <= k < |clips| ==> ';' !in DelayParts(clips)[k]
  {
    forall k | 0 <= k < |clips| ensures ';' !in DelayParts(clips)[k] {
      DelayPartAt(clips, k);
      NoSemicolonInDelay(k, clips[k].start);
    }
  }

  lemma MixStep(items0: seq<Item>, t: nat, clips: seq<Clip>, j: nat, imgExts: seq<string>)
    requires j < |clips|
    ensures var before, after := items0 + TrackItems(t, clips[..j]), items0 + TrackItems(t, clips[..j + 1]);
            var c := clips[j];
            MixClips(after, imgExts) ==
              MixClips(before, imgExts) + (if c.isAutoGap || IsImagePath(c.path, imgExts) then [] else [c])
  {
    var before, it := items0 + TrackItems(t, clips[..j]), ItemOf(t, clips[j]);
    TrackItemsStep(t, clips, j);
    assert items0 + TrackItems(t, clips[..j + 1]) == before + [it];
    assert (before + [it])[..|before|] == before;
  }

  lemma MixAppend(m: seq<Clip>, c: Clip)
    ensures AudioArgs(m + [c]) == AudioArgs(m) + ["-i", c.path]
    ensures DelayParts(m + [c]) == DelayParts(m) + [DelayPart(|m|, c.start)]
  {
    assert (m + [c])[..|m|] == m;
  }

  /** One more clip of the track: a mixed clip adds its input and its delay
      part; a gap or an image adds nothing. */
  lemma MixTrackStep(items0: seq<Item>, t: nat, clips: seq<Clip>, j: nat, imgExts: seq<string>)
    requires j < |clips|
    ensures var m := MixClips(items0 + TrackItems(t, clips[..j]), imgExts);
            var next := MixClips(items0 + TrackItems(t, clips[..j + 1]), imgExts);
            var c := clips[j];
            if c.isAutoGap || IsImagePath(c.path, imgExts) then next == m
            else
              next == m + [c] && AudioArgs(next) == AudioArgs(m) + ["-i", c.path] &&
              DelayParts(next) == DelayParts(m) + [DelayPart(|m|, c.start)]
  {
    MixStep(items0, t, clips, j, imgExts);
    MixAppend(MixClips(items0 + TrackItems(t, clips[..j]), imgExts), clips[j]);
  }

  /** The inner audio loop, over the clips of one track. */
  method MixTrack(t: nat, clips: seq<Clip>, imgExts: seq<string>, ghost items0: seq<Item>,
                  inputs0: seq<string>, parts0: seq<string>, idx0: nat)
    returns (inputs: seq<string>, parts: seq<string>, idx: nat)
    requires var m := MixClips(items0, imgExts);
             inputs0 == AudioArgs(m) && parts0 == DelayParts(m) && idx0 == |m|
    ensures var m := MixClips(items0 + TrackItems(t, clips), imgExts);
            inputs == AudioArgs(m) && parts == DelayParts(m) && idx == |m|
  {
    inputs, parts, idx := inputs0, parts0, idx0;
    var j := 0;
    assert items0 + TrackItems(t, clips[..0]) == items0;
    ghost var m := MixClips(items0, imgExts);
    while j < |clips|
      invariant 0 <= j <= |clips|
      invariant m == MixClips(items0 + TrackItems(t, clips[..j]), imgExts)
      invariant inputs == AudioArgs(m) && parts == DelayParts(m) && idx == |m|
    {
      var clip := clips[j];
      MixTrackStep(items0, t, clips, j, imgExts);
      ghost var next := MixClips(items0 + TrackItems(t, clips[..j + 1]), imgExts);
      if !clip.isAutoGap && !IsImagePath(clip.path, imgExts) {
        inputs := inputs + ["-i", clip.path];
        parts := parts + [DelayPart(idx, clip.start)];
        idx := idx + 1;
        assert inputs == AudioArgs(next) && parts == DelayParts(next) && idx == |next|;
      }
      m := next;
      j := j + 1;
    }
    assert clips[..|clips|] == clips;
  }

  /** The audio loop of `run`: inputs, delay parts and their count. */
  method BuildAudioMix(tracks: seq<Track>, imgExts: seq<string>)
    returns (inputs: seq<string>, parts: seq<string>, count: nat)
    ensures var m := MixClips(AllItems(tracks), imgExts);
            inputs == AudioArgs(m) && parts == DelayParts(m) && count == |m|
  {
    inputs, parts, count := [], [], 0;
    var t := 0;
    while t < |tracks|
      invariant 0 <= t <= |tracks|
      invariant var m := MixClips(AllItems(tracks[..t]), imgExts);
                inputs == AudioArgs(m) && parts == DelayParts(m) && count == |m|
    {
      inputs, parts, count := MixTrack(t, tracks[t].clips, imgExts, AllItems(tracks[..t]), inputs, parts, count);
      AllItemsStep(tracks, t);
      t := t + 1;
    }
    assert tracks[..|tracks|] == tracks;
  }

  // ---------------------------------------------------------------------
  // Rendering one segment

  /** Which of the three ffmpeg commands `_render_video_segment` runs. */
  datatype Render =
    | Black(durationMs: int)
    | Still(path: string, durationMs: int)
    | Trimmed(path: string, startMs: int, durationMs: int)

  function RenderFor(seg: Segment, imgExts: seq<string>): (r: Render)
    ensures r.durationMs == seg.durationMs
  {
    if seg.isGap || seg.path.None? || seg.path.value == "" then Black(seg.durationMs)
    else if IsImagePath(seg.path.value, imgExts) then Still(seg.path.value, seg.durationMs)
    else Trimmed(seg.path.value, seg.sourceStartMs, seg.durationMs)
  }

  const VideoFilter: string :=
    "scale=1920:1080:force_original_aspect_ratio=decrease,pad=1920:1080:(ow-iw)/2:(oh-ih)/2,setsar=1,fps=30"

  const EncodeTail: string := "-c:v libx264 -preset ultrafast -pix_fmt yuv420p "

  /** The shell command; times are rendered as `ms / 1000.0`. */
  function RenderCommand(r: Render, outputPath: string): string {
    match r
    case Black(d) =>
      "ffmpeg -y -f lavfi -i color=c=black:s=1920x1080:r=30 " + "-t " + DecimalText(d) + " -an "
      + EncodeTail + "\"" + outputPath + "\""
    case Still(p, d) =>
      "ffmpeg -y -loop 1 -i \"" + p + "\" " + "-t " + DecimalText(d) + " -vf \"" + VideoFilter + "\" -an "
      + EncodeTail + "\"" + outputPath + "\""
    case Trimmed(p, s, d) =>
      "ffmpeg -y -ss " + DecimalText(s) + " -i \"" + p + "\" " + "-t " + DecimalText(d)
      + " -vf \"" + VideoFilter + "\" -an " + EncodeTail + "\"" + outputPath + "\""
  }

  /** Every chunk of an export is either black filler or is read from inside
      one visual clip of the timeline: a still for an image, otherwise a
      trim that starts and ends within the clip. */
  lemma RenderedChunksComeFromClips(tracks: seq<Track>, imgExts: seq<string>, i: nat)
    requires forall t, c :: 0 <= t < |tracks| && c in tracks[t].clips ==> c.start >= 0 && c.duration >= 0
    requires i < |Flattened(tracks)|
    ensures var r := RenderFor(Flattened(tracks)[i], imgExts);
            r.durationMs > 0 &&
            (r.Black? ||
             exists x :: (x in AllItems(tracks) && !IsAudioPath(x.clip.path) && r.path == x.clip.path &&
                          (r.Trimmed? ==> 0 <= r.startMs && r.startMs + r.durationMs <= x.clip.duration)))
  {
    var items := AllItems(tracks);
    var pts := Sorted(CutPoints(items));
    FlattenedCoversTimeline(tracks);
    assert Flattened(tracks)[i] == SegmentFor(Visual(items), pts[i], pts[i + 1]);
    assert pts[i] < pts[i + 1];
    AllItemsClips(tracks);
    forall x | x in items ensures x.start == x.clip.start && x.end == x.clip.start + x.clip.duration {
    }
    RenderFromClip(items, pts[i], pts[i + 1], imgExts);
  }

  /** The chunk for a piece of the timeline of positive length is black or
      comes from inside one visual clip. */
  lemma RenderFromClip(items: seq<Item>, t0: int, t1: int, imgExts: seq<string>)
    requires t0 < t1
    requires forall x :: x in items ==> x.start == x.clip.start && x.end == x.clip.start + x.clip.duration
    ensures var r := RenderFor(SegmentFor(Visual(items), t0, t1), imgExts);
            r.durationMs > 0 &&
            (r.Black? ||
             exists x :: (x in items && !IsAudioPath(x.clip.path) && r.path == x.clip.path &&
                          (r.Trimmed? ==> 0 <= r.startMs && r.startMs + r.durationMs <= x.clip.duration)))
  {
    var visual := Visual(items);
    var seg := SegmentFor(visual, t0, t1);
    var r := RenderFor(seg, imgExts);
    if !r.Black? {
      WinnerSegmentWithinClip(visual, t0, t1);
      var w :| w in visual && seg.path == Some(w.clip.path) &&
               0 <= seg.sourceStartMs && seg.sourceStartMs + seg.durationMs <= w.clip.duration;
      assert w in items && !IsAudioPath(w.clip.path) && r.path == w.clip.path;
    }
  }

  // ---------------------------------------------------------------------
  // Chunk files

  function ZeroPad3(s: string): string {
    if |s| >= 3 then s else seq(3 - |s|, _ => '0') + s
  }

  /** `f"v_chunk_{i:03d}.mp4"`. */
  function ChunkName(i: nat): string {
    "v_chunk_" + ZeroPad3(NatToString(i)) + ".mp4"
  }

  lemma {:induction false} LeadingZeros(z: string, s: string)
    requires AllDigits(s) && forall k :: 0 <= k < |z| ==> z[k] == '0'
    ensures AllDigits(z + s) && DigitsValue(z + s) == DigitsValue(s)
  {
    if s == [] {
      assert z + s == z;
      ZerosValue(z);
    } else {
      assert (z + s)[..|z + s| - 1] == z + s[..|s| - 1];
      LeadingZeros(z, s[..|s| - 1]);
    }
  }

  lemma {:induction false} ZerosValue(z: string)
    requires forall k :: 0 <= k < |z| ==> z[k] == '0'
    ensures AllDigits(z) && DigitsValue(z) == 0
  {
    if z != [] {
      ZerosValue(z[..|z| - 1]);
    }
  }

  /** The zero-padded number reads back as the number. */
  lemma PaddedValue(i: nat)
    ensures AllDigits(ZeroPad3(NatToString(i))) && DigitsValue(ZeroPad3(NatToString(i))) == i
  {
    var s := NatToString(i);
    DigitsValueOfNatToString(i);
    if |s| < 3 {
      LeadingZeros(seq(3 - |s|, _ => '0'), s);
    }
  }

  /** Two segments never write the same chunk file. */
  lemma ChunkNamesDistinct(i: nat, j: nat)
    requires i != j
    ensures ChunkName(i) != ChunkName(j)
  {
    var a, b := ZeroPad3(NatToString(i)), ZeroPad3(NatToString(j));
    if ChunkName(i) == ChunkName(j) {
      assert |a| == |b|;
      assert a == ChunkName(i)[8..8 + |a|];
      assert b == ChunkName(j)[8..8 + |b|];
      PaddedValue(i);
      PaddedValue(j);
    }
  }

  /** A line of `list.txt`. */
  function ListLine(chunkPath: string): string {
    "file '" + Replace(chunkPath, '\\', "/") + "'"
  }

  function ChunkPath(tempDir: string, i: nat): string {
    PathJoin(PathJoin(tempDir, "video_parts"), ChunkName(i))
  }

  // ---------------------------------------------------------------------
  // The run

  /** The external ffmpeg runs that can fail. */
  datatype Stage = RenderStage(index: nat) | ConcatStage | MixStage | MuxStage

  /** An external command `run` executes; a render stands for the shell
      line `RenderCommand(render, outputPath)`. */
  datatype Command =
    | RenderCmd(index: nat, render: Render, outputPath: string)
    | ConcatCmd(listText: string)
    | MixCmd(inputs: seq<string>, filter: string)
    | MuxCmd(withAudio: bool)

  /** The `finished_success` and `finished_error` signals. */
  datatype Finish = Success(path: string) | Error(message: string)

  datatype Progress = Progress(step: nat, message: string)

  datatype Outcome = Cancelled(atSegment: nat) | Succeeded | Failed(message: string)

  /** The render commands of the first `k` segments. */
  function RenderCmds(segments: seq<Segment>, tempDir: string, imgExts: seq<string>, k: nat): seq<Command>
    requires k <= |segments|
  {
    seq(k, i requires 0 <= i < k => RenderCmd(i, RenderFor(segments[i], imgExts), ChunkPath(tempDir, i)))
  }

  lemma RenderCmdsStep(segments: seq<Segment>, tempDir: string, imgExts: seq<string>, k: nat)
    requires k < |segments|
    ensures RenderCmds(segments, tempDir, imgExts, k + 1) ==
            RenderCmds(segments, tempDir, imgExts, k)
            + [RenderCmd(k, RenderFor(segments[k], imgExts), ChunkPath(tempDir, k))]
  {
  }

  function ListLines(tempDir: string, k: nat): seq<string> {
    seq(k, i requires 0 <= i < k => ListLine(ChunkPath(tempDir, i)))
  }

  lemma ListLinesStep(tempDir: string, k: nat)
    ensures ListLines(tempDir, k + 1) == ListLines(tempDir, k) + [ListLine(ChunkPath(tempDir, k))]
  {
  }

  /** The content of `list.txt` after `k` chunks. */
  function ListText(tempDir: string, k: nat): string {
    Join("\n", ListLines(tempDir, k))
  }

  function RenderingMessage(i: nat, total: nat): string {
    "Rendering Visual Segment " + NatToString(i + 1) + "/" + NatToString(total)
  }

  /** The progress reports of the first `k` segments out of `total`. */
  function LoopProgress(total: nat, k: nat): seq<Progress> {
    seq(k, i requires 0 <= i < k => Progress(i, RenderingMessage(i, total)))
  }

  lemma LoopProgressStep(total: nat, k: nat)
    ensures LoopProgress(total, k + 1) == LoopProgress(total, k) + [Progress(k, RenderingMessage(k, total))]
  {
  }

  const StitchingMessage: string := "Stitching Visual Track..."
  const MixingMessage: string := "Mixing Audio Layers..."
  const MuxingMessage: string := "Final Muxing..."

  /** The three reports after the segment loop. */
  function FinishProgress(total: nat): seq<Progress> {
    [Progress(total, StitchingMessage), Progress(total + 1, MixingMessage), Progress(total + 2, MuxingMessage)]
  }

  /** How the segment loop ends: cancelled at the first check at or after
      index `c`, failed at the first failing render, or `None` when all `n`
      segments render. */
  function LoopStop(i: nat, n: nat, c: nat, failing: set<Stage>, errorText: string): (r: Option<Outcome>)
    ensures r.Some? ==> r.value != Succeeded
    decreases n - i
  {
    if i >= n then None
    else if i >= c then Some(Cancelled(i))
    else if RenderStage(i) in failing then Some(Failed(errorText))
    else LoopStop(i + 1, n, c, failing, errorText)
  }

  /** The outcome of a run over `n` segments, with or without audio. */
  function RunOutcome(n: nat, hasAudio: bool, c: nat, failing: set<Stage>, errorText: string): Outcome {
    match LoopStop(0, n, c, failing, errorText)
    case Some(o) => o
    case None =>
      if ConcatStage in failing || (hasAudio && MixStage in failing) || MuxStage in failing
      then Failed(errorText)
      else Succeeded
  }

  /** The render of segment `j` exits cleanly. */
  predicate RenderOk(j: nat, failing: set<Stage>) {
    RenderStage(j) !in failing
  }

  /** Segment `j` is reached before the cancellation point and renders. */
  predicate Clear(j: nat, c: nat, failing: set<Stage>) {
    j < c && RenderOk(j, failing)
  }

  lemma {:induction false} LoopStopFrom(i: nat, n: nat, c: nat, failing: set<Stage>, errorText: string)
    requires i <= c
    ensures LoopStop(i, n, c, failing, errorText).None? <==>
              forall j: nat :: i <= j < n ==> Clear(j, c, failing)
    ensures LoopStop(i, n, c, failing, errorText) == Some(Cancelled(c)) <==>
              c < n && forall j: nat :: i <= j < c ==> RenderOk(j, failing)
    ensures forall k :: LoopStop(i, n, c, failing, errorText) == Some(Cancelled(k)) ==> k == c
    decreases n - i
  {
    if i >= n {
    } else if i >= c {
      assert !Clear(i, c, failing);
    } else if !RenderOk(i, failing) {
      assert !Clear(i, c, failing);
    } else {
      LoopStopFrom(i + 1, n, c, failing, errorText);
      assert LoopStop(i, n, c, failing, errorText) == LoopStop(i + 1, n, c, failing, errorText);
    }
  }

  lemma RunOutcomeAfterLoop(n: nat, hasAudio: bool, c: nat, failing: set<Stage>, errorText: string)
    requires LoopStop(0, n, c, failing, errorText).None?
    ensures RunOutcome(n, hasAudio, c, failing, errorText) ==
            (if ConcatStage in failing || (hasAudio && MixStage in failing) || MuxStage in failing
             then Failed(errorText) else Succeeded)
  {
  }

  /** A run succeeds exactly when cancellation comes after the last segment
      and no external command fails; it is cancelled exactly when the
      cancellation point lies within the segments and every render before it
      succeeded, and then at that point. */
  lemma RunOutcomeCases(n: nat, hasAudio: bool, c: nat, failing: set<Stage>, errorText: string)
    ensures RunOutcome(n, hasAudio, c, failing, errorText) == Succeeded <==>
              (c >= n && (forall j: nat :: j < n ==> RenderOk(j, failing)) &&
               ConcatStage !in failing && (hasAudio ==> MixStage !in failing) && MuxStage !in failing)
    ensures RunOutcome(n, hasAudio, c, failing, errorText).Cancelled? <==>
              (c < n && forall j: nat :: j < c ==> RenderOk(j, failing))
    ensures RunOutcome(n, hasAudio, c, failing, errorText).Cancelled? ==>
              RunOutcome(n, hasAudio, c, failing, errorText).atSegment == c
  {
    LoopStopFrom(0, n, c, failing, errorText);
    if c < n {
      assert !Clear(c, c, failing);
    }
    if forall j: nat :: j < n ==> RenderOk(j, failing) {
      if c >= n {
        assert forall j: nat :: 0 <= j < n ==> Clear(j, c, failing);
      }
    }
    if LoopStop(0, n, c, failing, errorText).None? {
      forall j: nat | j < n ensures RenderOk(j, failing) {
        assert Clear(j, c, failing);
      }
    }
  }

  /** How many segments the loop reports and renders before it stops: up to
      the cancellation point, through the first failing render, or all `n`. */
  function Rendered(i: nat, n: nat, c: nat, failing: set<Stage>): (r: nat)
    requires i <= n
    ensures i <= r <= n
    decreases n - i
  {
    if i >= n then n
    else if i >= c then i
    else if RenderStage(i) in failing then i + 1
    else Rendered(i + 1, n, c, failing)
  }

  /** The commands of the mix and mux stages: the mix command when there is
      audio, then the mux command unless the mix failed. */
  function MixMuxCommands(mix: Option<Command>, failing: set<Stage>): seq<Command> {
    (if mix.Some? then [mix.value] else [])
    + (if mix.Some? && MixStage in failing then [] else [MuxCmd(mix.Some?)])
  }

  /** The commands after the segment loop: the concat command, then the mix
      and mux stages unless the concat failed. */
  function AfterLoopCommands(mix: Option<Command>, listText: string, failing: set<Stage>): seq<Command> {
    [ConcatCmd(listText)] + (if ConcatStage in failing then [] else MixMuxCommands(mix, failing))
  }

  function MixMuxProgress(total: nat, hasAudio: bool, failing: set<Stage>): seq<Progress> {
    [Progress(total + 1, MixingMessage)]
    + (if hasAudio && MixStage in failing then [] else [Progress(total + 2, MuxingMessage)])
  }

  function AfterLoopProgress(total: nat, hasAudio: bool, failing: set<Stage>): seq<Progress> {
    [Progress(total, StitchingMessage)] + (if ConcatStage in failing then [] else MixMuxProgress(total, hasAudio, failing))
  }

  /** Regrouping a log that grew in two steps; stated once so that the
      methods below need not rediscover it. */
  lemma AppendAssoc<T>(a: seq<T>, b: seq<T>, c: seq<T>)
    ensures a + b + c == a + (b + c)
  {
  }

  /** Every command a run issues, whichever way it ends. */
  function RunCommands(segments: seq<Segment>, tempDir: string, imgExts: seq<string>, mix: Option<Command>,
                       c: nat, failing: set<Stage>, errorText: string): seq<Command>
  {
    var n := |segments|;
    RenderCmds(segments, tempDir, imgExts, Rendered(0, n, c, failing))
    + (if LoopStop(0, n, c, failing, errorText).None? then AfterLoopCommands(mix, ListText(tempDir, n), failing) else [])
  }

  /** Every progress report of a run, whichever way it ends. */
  function RunProgress(n: nat, hasAudio: bool, c: nat, failing: set<Stage>, errorText: string): seq<Progress> {
    LoopProgress(n, Rendered(0, n, c, failing))
    + (if LoopStop(0, n, c, failing, errorText).None? then AfterLoopProgress(n, hasAudio, failing) else [])
  }

  /** A failed run has rendered up to and including the first failing render,
      or every segment when the failure came after the loop; the failing
      stage is the last command it ran. */
  lemma {:induction false} FailedRunStopsAtFailure(i: nat, n: nat, c: nat, failing: set<Stage>, errorText: string)
    requires i <= n
    requires LoopStop(i, n, c, failing, errorText).Some? && LoopStop(i, n, c, failing, errorText).value.Failed?
    ensures var r := Rendered(i, n, c, failing);
            i < r && RenderStage(r - 1) in failing && r - 1 < c &&
            forall j: nat :: i <= j < r - 1 ==> RenderOk(j, failing)
    decreases n - i
  {
    if i >= n || i >= c || RenderStage(i) in failing {
    } else {
      FailedRunStopsAtFailure(i + 1, n, c, failing, errorText);
    }
  }

  lemma {:induction false} RenderedWhenStopped(i: nat, n: nat, c: nat, failing: set<Stage>, errorText: string)
    requires i <= n
    ensures LoopStop(i, n, c, failing, errorText).None? ==> Rendered(i, n, c, failing) == n
    ensures forall k :: LoopStop(i, n, c, failing, errorText) == Some(Cancelled(k)) ==> Rendered(i, n, c, failing) == k
    decreases n - i
  {
    if i < n && i < c && RenderStage(i) !in failing {
      RenderedWhenStopped(i + 1, n, c, failing, errorText);
    }
  }

  /** A cancelled run has issued exactly the renders before the cancellation
      point; a successful one every render, the concat, the mix when there is
      audio and the mux, with every progress report. */
  lemma RunLogCases(segments: seq<Segment>, tempDir: string, imgExts: seq<string>, mix: Option<Command>,
                    c: nat, failing: set<Stage>, errorText: string)
    ensures var n := |segments|;
            var o := RunOutcome(n, mix.Some?, c, failing, errorText);
            o.Cancelled? ==> (o.atSegment <= n &&
              RunCommands(segments, tempDir, imgExts, mix, c, failing, errorText)
              == RenderCmds(segments, tempDir, imgExts, o.atSegment))
    ensures var n := |segments|;
            RunOutcome(n, mix.Some?, c, failing, errorText) == Succeeded ==> (
              RunCommands(segments, tempDir, imgExts, mix, c, failing, errorText)
              == RenderCmds(segments, tempDir, imgExts, n) + [ConcatCmd(ListText(tempDir, n))]
                 + (if mix.Some? then [mix.value] else []) + [MuxCmd(mix.Some?)] &&
              RunProgress(n, mix.Some?, c, failing, errorText) == LoopProgress(n, n) + FinishProgress(n))
  {
    var n := |segments|;
    RenderedWhenStopped(0, n, c, failing, errorText);
    RunOutcomeCases(n, mix.Some?, c, failing, errorText);
  }

  /** The `amix` command of an export, when there is any audio to mix. */
  function AudioMix(tracks: seq<Track>, imgExts: seq<string>): Option<Command> {
    var mix := MixClips(AllItems(tracks), imgExts);
    if |mix| > 0 then Some(MixCmd(AudioArgs(mix), FullFilter(mix))) else None
  }

  /** The audio loop of `run` and the command built from it. */
  method AudioStage(tracks: seq<Track>, imgExts: seq<string>) returns (cmd: Option<Command>)
    ensures cmd == AudioMix(tracks, imgExts)
  {
    var audioInputs, filterParts, inputIdx := BuildAudioMix(tracks, imgExts);
    if inputIdx > 0 {
      var fullFilter := Join(";", filterParts) + ";" + MixCommand(inputIdx);
      return Some(MixCmd(audioInputs, fullFilter));
    }
    return None;
  }

  class ExportWorker {
    const tracks: seq<Track>
    const outputPath: string
    const tempDir: string
    const imgExts: seq<string>
    var isCancelled: bool
    /** What was emitted on `progress_update`. */
    var progress: seq<Progress>
    /** The external commands run so far. */
    var commands: seq<Command>
    /** What was emitted on `finished_success` and `finished_error`. */
    var finished: seq<Finish>
    var tempRemoved: bool

    constructor(tracks: seq<Track>, outputPath: string, tempDir: string, imgExts: seq<string>)
      ensures this.tracks == tracks && this.outputPath == outputPath
      ensures this.tempDir == tempDir && this.imgExts == imgExts
      ensures !isCancelled && progress == [] && commands == [] && finished == [] && !tempRemoved
    {
      this.tracks := tracks;
      this.outputPath := outputPath;
      this.tempDir := tempDir;
      this.imgExts := imgExts;
      isCancelled := false;
      progress := [];
      commands := [];
      finished := [];
      tempRemoved := false;
    }

    /** `cancel`: only raises the flag; the loop notices it before its next segment. */
    method Cancel()
      modifies this
      ensures isCancelled
      ensures progress == old(progress) && commands == old(commands)
      ensures finished == old(finished) && tempRemoved == old(tempRemoved)
    {
      isCancelled := true;
    }

    /** `run`. `cancelAt` is the segment index before whose check the
        interface thread calls `cancel`; `failing` names the external commands
        that exit with an error, whose text is `errorText`. A failure emits
        `finished_error`, a cancellation emits nothing, and the temporary
        folder is removed on every path. */
    method Run(cancelAt: nat, failing: set<Stage>, errorText: string) returns (outcome: Outcome)
      modifies this
      ensures outcome == RunOutcome(|Flattened(tracks)|, AudioMix(tracks, imgExts).Some?,
                                    if old(isCancelled) then 0 else cancelAt, failing, errorText)
      ensures finished == old(finished) + (match outcome
                                          case Succeeded => [Success(outputPath)]
                                          case Failed(m) => [Error(m)]
                                          case Cancelled(_) => [])
      ensures commands == old(commands) + RunCommands(Flattened(tracks), tempDir, imgExts, AudioMix(tracks, imgExts),
                                                      if old(isCancelled) then 0 else cancelAt, failing, errorText)
      ensures progress == old(progress) + RunProgress(|Flattened(tracks)|, AudioMix(tracks, imgExts).Some?,
                                                      if old(isCancelled) then 0 else cancelAt, failing, errorText)
      ensures tempRemoved
    {
      outcome := RunStages(cancelAt, failing, errorText);
      RunLogCases(Flattened(tracks), tempDir, imgExts, AudioMix(tracks, imgExts),
                  if old(isCancelled) then 0 else cancelAt, failing, errorText);
      if outcome.Failed? {
        finished := finished + [Error(outcome.message)];
      }
      tempRemoved := true;
    }

    /** The body of the `try` in `run`, up to the success signal. */
    method RunStages(cancelAt: nat, failing: set<Stage>, errorText: string) returns (outcome: Outcome)
      modifies this
      ensures tempRemoved == old(tempRemoved)
      ensures outcome == RunOutcome(|Flattened(tracks)|, AudioMix(tracks, imgExts).Some?,
                                    if old(isCancelled) then 0 else cancelAt, failing, errorText)
      ensures finished == old(finished) + (if outcome == Succeeded then [Success(outputPath)] else [])
      ensures commands == old(commands) + RunCommands(Flattened(tracks), tempDir, imgExts, AudioMix(tracks, imgExts),
                                                      if old(isCancelled) then 0 else cancelAt, failing, errorText)
      ensures progress == old(progress) + RunProgress(|Flattened(tracks)|, AudioMix(tracks, imgExts).Some?,
                                                      if old(isCancelled) then 0 else cancelAt, failing, errorText)
    {
      var segments := FlattenedTimeline(tracks);
      var total := |segments|;
      ghost var c := if isCancelled then 0 else cancelAt;
      ghost var mix := AudioMix(tracks, imgExts);
      var stop, rendered, chunkLines := RenderLoop(segments, cancelAt, failing, errorText);
      if stop.Some? {
        assert RunCommands(segments, tempDir, imgExts, mix, c, failing, errorText)
               == RenderCmds(segments, tempDir, imgExts, rendered);
        assert RunProgress(total, mix.Some?, c, failing, errorText) == LoopProgress(total, rendered);
        outcome := stop.value;
        return;
      }
      ghost var rendersCmds, after := RenderCmds(segments, tempDir, imgExts, total), AfterLoopCommands(mix, ListText(tempDir, total), failing);
      ghost var rendersProgress, afterProgress := LoopProgress(total, total), AfterLoopProgress(total, mix.Some?, failing);
      outcome := FinishStages(total, chunkLines, failing, errorText);
      AppendAssoc(old(commands), rendersCmds, after);
      AppendAssoc(old(progress), rendersProgress, afterProgress);
      RunOutcomeAfterLoop(total, mix.Some?, c, failing, errorText);
    }

    /** Stitching, mixing and muxing, after every segment rendered. */
    method FinishStages(total: nat, chunkLines: seq<string>, failing: set<Stage>, errorText: string)
      returns (outcome: Outcome)
      requires chunkLines == ListLines(tempDir, total)
      modifies this
      ensures tempRemoved == old(tempRemoved) && isCancelled == old(isCancelled)
      ensures var hasAudio := AudioMix(tracks, imgExts).Some?;
              outcome == (if ConcatStage in failing || (hasAudio && MixStage in failing) || MuxStage in failing
                          then Failed(errorText) else Succeeded)
      ensures finished == old(finished) + (if outcome == Succeeded then [Success(outputPath)] else [])
      ensures commands == old(commands) + AfterLoopCommands(AudioMix(tracks, imgExts), ListText(tempDir, total), failing)
      ensures progress == old(progress) + AfterLoopProgress(total, AudioMix(tracks, imgExts).Some?, failing)
    {
      ghost var mix := AudioMix(tracks, imgExts);
      var listText := Join("\n", chunkLines);
      assert listText == ListText(tempDir, total);
      progress := progress + [Progress(total, StitchingMessage)];
      commands := commands + [ConcatCmd(listText)];
      if ConcatStage in failing {
        return Failed(errorText);
      }
      ghost var commands1, progress1 := commands, progress;
      outcome := MixAndMux(total, failing, errorText);
      AppendAssoc(old(commands), [ConcatCmd(listText)], MixMuxCommands(mix, failing));
      AppendAssoc(old(progress), [Progress(total, StitchingMessage)], MixMuxProgress(total, mix.Some?, failing));
    }

    /** The audio and mux stages of `run`. */
    method MixAndMux(total: nat, failing: set<Stage>, errorText: string) returns (outcome: Outcome)
      modifies this
      ensures tempRemoved == old(tempRemoved) && isCancelled == old(isCancelled)
      ensures var hasAudio := AudioMix(tracks, imgExts).Some?;
              outcome == (if (hasAudio && MixStage in failing) || MuxStage in failing
                          then Failed(errorText) else Succeeded)
      ensures finished == old(finished) + (if outcome == Succeeded then [Success(outputPath)] else [])
      ensures commands == old(commands) + MixMuxCommands(AudioMix(tracks, imgExts), failing)
      ensures progress == old(progress) + MixMuxProgress(total, AudioMix(tracks, imgExts).Some?, failing)
    {
      progress := progress + [Progress(total + 1, MixingMessage)];
      var mixCmd := AudioStage(tracks, imgExts);
      var hasAudio := mixCmd.Some?;
      ghost var mixPart := if hasAudio then [mixCmd.value] else [];
      if hasAudio {
        commands := commands + [mixCmd.value];
        if MixStage in failing {
          return Failed(errorText);
        }
      } else {
        assert commands == old(commands) + mixPart;
      }
      outcome := Mux(total, hasAudio, failing, errorText);
      AppendAssoc(old(commands), mixPart, [MuxCmd(hasAudio)]);
      AppendAssoc(old(progress), [Progress(total + 1, MixingMessage)], [Progress(total + 2, MuxingMessage)]);
    }

    /** The mux stage of `run`: report, run the mux command, and on success
        report the output file. */
    method Mux(total: nat, hasAudio: bool, failing: set<Stage>, errorText: string) returns (outcome: Outcome)
      modifies this
      ensures tempRemoved == old(tempRemoved) && isCancelled == old(isCancelled)
      ensures outcome == if MuxStage in failing then Failed(errorText) else Succeeded
      ensures finished == old(finished) + (if outcome == Succeeded then [Success(outputPath)] else [])
      ensures commands == old(commands) + [MuxCmd(hasAudio)]
      ensures progress == old(progress) + [Progress(total + 2, MuxingMessage)]
    {
      progress := progress + [Progress(total + 2, MuxingMessage)];
      commands := commands + [MuxCmd(hasAudio)];
      if MuxStage in failing {
        return Failed(errorText);
      }
      finished := finished + [Success(outputPath)];
      outcome := Succeeded;
    }

    /** The segment loop of `run`: check the flag, report progress, render
        the chunk, remember its `list.txt` line. */
    method RenderLoop(segments: seq<Segment>, cancelAt: nat, failing: set<Stage>, errorText: string)
      returns (stop: Option<Outcome>, rendered: nat, chunkLines: seq<string>)
      modifies this
      ensures tempRemoved == old(tempRemoved) && finished == old(finished)
      ensures stop == LoopStop(0, |segments|, if old(isCancelled) then 0 else cancelAt, failing, errorText)
      ensures rendered == Rendered(0, |segments|, if old(isCancelled) then 0 else cancelAt, failing)
      ensures stop.None? ==> rendered == |segments| && chunkLines == ListLines(tempDir, |segments|)
      ensures stop.Some? && stop.value.Cancelled? ==> rendered == stop.value.atSegment
      ensures commands == old(commands) + RenderCmds(segments, tempDir, imgExts, rendered)
      ensures progress == old(progress) + LoopProgress(|segments|, rendered)
      ensures isCancelled == (old(isCancelled) || (stop.Some? && stop.value.Cancelled?))
    {
      ghost var c := if isCancelled then 0 else cancelAt;
      var total := |segments|;
      chunkLines := [];
      var i := 0;
      while i < total
        invariant 0 <= i <= total
        invariant tempRemoved == old(tempRemoved) && finished == old(finished)
        invariant isCancelled == old(isCancelled)
        invariant old(isCancelled) ==> i == 0
        invariant i <= c
        invariant LoopStop(0, total, c, failing, errorText) == LoopStop(i, total, c, failing, errorText)
        invariant Rendered(0, total, c, failing) == Rendered(i, total, c, failing)
        invariant commands == old(commands) + RenderCmds(segments, tempDir, imgExts, i)
        invariant progress == old(progress) + LoopProgress(total, i)
        invariant chunkLines == ListLines(tempDir, i)
      {
        if i == cancelAt {
          isCancelled := true;
        }
        if isCancelled {
          assert Rendered(i, total, c, failing) == i;
          return Some(Cancelled(i)), i, chunkLines;
        }
        LoopProgressStep(total, i);
        progress := progress + [Progress(i, RenderingMessage(i, total))];
        var chunkPath := ChunkPath(tempDir, i);
        RenderCmdsStep(segments, tempDir, imgExts, i);
        commands := commands + [RenderCmd(i, RenderFor(segments[i], imgExts), chunkPath)];
        if RenderStage(i) in failing {
          assert Rendered(i, total, c, failing) == i + 1;
          return Some(Failed(errorText)), i + 1, chunkLines;
        }
        ListLinesStep(tempDir, i);
        chunkLines := chunkLines + [ListLine(chunkPath)];
        i := i + 1;
      }
      return None, total, chunkLines;
    }
  }

}
