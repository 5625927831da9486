# VideoEditor core in Dafny

This project models the editing and export logic of VideoEditor, a desktop
video editor built on Qt and ffmpeg. The model covers:

- **Export thread.** `ExportWorker` cuts the timeline tracks at every clip
  boundary. For each piece it picks the topmost visual clip, or black filler
  when there is none. It renders each piece to a numbered chunk, joins the
  chunks, mixes the delayed audio of every clip and muxes the result. A
  cancellation stops the run before the next piece, and a failing ffmpeg run
  ends it with an error.
- **Effect pipeline.** `FilterBridge` turns the effect stack chosen in the
  interface into a fixed sequence of ffmpeg runs. It tracks the frame size
  through crop, padding, scale and transpose, and names the cached result
  after the clip.
- **Filter classes.** Crop, padding, frame rate, box blur, transpose, fade and
  drawtext each have a constructor that clamps or checks its arguments, and
  each produces a filter text.
- **Preview players.** `VideoTabContent` holds the speed and reverse-play logic
  of a preview tab. `ImagePlayer` is the timer-driven player for still images.
- **Timeline widgets.** A timeline track (`TimelineTrackWidget`), and the
  scroll correction that keeps the playhead visible (`TimelineAndTracks`).
- **Media library.** `MediaTabs` imports files and folders without
  duplicates, sorts them into lists by extension and sizes the grid.
- **Prototype editor.** The in-memory prototype editor (`main2.py`) and the
  editor's singleton undo/redo history (`editor/History.py`).

Each source file is one Dafny module. What the source mutates in place is a
class with `modifies` clauses: the export worker, the filter bridge, the
players, the track, the scroll area, the media library and the histories.
Each method is proved against a specification function, and the lemmas about
that function state the source's promises. Pure logic is functions and
lemmas. External effects are parameters or recorded event lists:

- ffmpeg and ffprobe runs, and their failures;
- file existence and folder listings;
- `os.path.abspath`;
- the hash of the effect stack;
- the point at which the interface thread cancels.

Conventions:

- Playback rates are integers in tenths (10 = 1.0).
- Opacities are in thousandths.
- Times are whole milliseconds.

Shared helpers:

- `Text` models Python's `int()` parse, `str.split` and `str.join`, and
  the `os.path` basename, extension and join functions. Its `Lower` is
  `str.lower` restricted to the ASCII letters, and its `Strip` is
  `str.strip` restricted to the ASCII and Latin-1 whitespace.
  `DecimalText` writes a value in thousandths the way `str(float)` does,
  and `ParseDecimal` reads it back.
- `Ffmpeg` models filter texts and reading their arguments back.
- `Numbers.Trunc` is Python's `int()` on a real.
- `Wrappers` holds Option and Result.

## Model

| member | source | states |
|---|---|---|
| BlurFilter.ClampRadius | filters/blur_filter.py:6 | the radius is at least 1, and is unchanged when already at least 1 |
| BlurFilter.BoxBlurFilter | filters/blur_filter.py:9 | a `boxblur=` filter sent as a video filter |
| BlurFilter.BlurFilterRoundTrip | filters/blur_filter.py:9-10 | the filter's luma and chroma radius both read back as the clamped radius |
| ChangeFps.ClampFps | transformations/change_fps.py:6 | the rate lies in [1, 120] and is kept when already inside, else it goes to the nearer bound |
| ChangeFps.ClampFpsIdempotent | transformations/change_fps.py:6 | clamping a clamped rate changes nothing |
| ChangeFps.FpsFilter | transformations/change_fps.py:9-10 | an `fps=` video filter |
| ChangeFps.FpsFilterRoundTrip | transformations/change_fps.py:9-10 | the filter's argument reads back as the clamped rate |
| CropTransform.NewCrop | transformations/crop_transform.py:6-9 | offsets are at least 0 and sizes at least 1; valid values are kept |
| CropTransform.NewCropIdempotent | transformations/crop_transform.py:6-9 | constructing again from a constructed crop gives the same crop |
| CropTransform.CropFilter | transformations/crop_transform.py:12-13 | a `crop=` video filter |
| CropTransform.CropFilterRoundTrip | transformations/crop_transform.py:12-13 | the arguments read back as width, height, x, y in that order |
| PaddingTransform.ClampSide | transformations/padding_transform.py:6-9 | a side is at least 0 and kept when non-negative |
| PaddingTransform.NewPadding | transformations/padding_transform.py:5-10 | each side is `max(0, side)` of the one given, so all four are non-negative, and the colour passes through unchanged |
| PaddingTransform.PadFilter | transformations/padding_transform.py:13-20 | a `pad=` video filter |
| PaddingTransform.PadFilterRoundTrip | transformations/padding_transform.py:13-18 | for a colour without `:`, the five arguments read back as `iw` plus left and right, `ih` plus top and bottom, the offsets left and top, and the colour |
| TransposeTransform.NewTranspose | pregatireOpperatii/transformations/transpose_transform.py:5-20 | accepted exactly when the lower-cased mode is in the table, which gives its ffmpeg mode; otherwise ValueError |
| TransposeTransform.TransposeFilter | pregatireOpperatii/transformations/transpose_transform.py:22-28 | a video filter |
| TransposeTransform.ModeFilterTable | pregatireOpperatii/transformations/transpose_transform.py:8-28 | each of the six modes, in any letter case, produces its own filter (transpose=1/2/3/0, hflip, vflip); any other mode produces nothing |
| TransposeTransform.ModeFilterInjective | pregatireOpperatii/transformations/transpose_transform.py:8-20 | distinct accepted modes produce distinct filters |
| FadeInOut.NewFade | timing/fade_in_out.py:7-12 | accepted exactly for in/out/both in any letter case; the duration is clamped at 0; any other type is ValueError |
| FadeInOut.VideoLength | timing/fade_in_out.py:14-29 | the probe succeeds exactly when ffprobe exits with 0, and then gives the probed length; otherwise RuntimeError with "Eroare ffprobe: " and ffprobe's standard error |
| FadeInOut.FadeFilter | timing/fade_in_out.py:31-47 | a successful result is a video filter; with a successful probe, "out" is the fade-out ending at the probed length and "both" is the fade-in, a comma and that fade-out |
| FadeInOut.FadeInReadsBack | timing/fade_in_out.py:35 | the fade-in's options split into type `in`, start 0 and a `d=` option that parses back as the duration |
| FadeInOut.FadeOutReadsBack | timing/fade_in_out.py:37-40 | the fade-out's options split into type `out`, an `st=` option that reads back as the probed length minus the duration, and a `d=` option that parses back as the duration |
| FadeInOut.FadeFilterFailsOnlyOnProbe | timing/fade_in_out.py:31-45 | a fade-in never probes and never fails; out and both fail exactly when the probe fails, with its error |
| FadeInOut.BothIsInThenOut | timing/fade_in_out.py:42-45 | "both" is the fade-in filter, a comma, then the fade-out filter, and splits back into those two |
| DrawText.UnescapeEscape | text_operation/draw_text.py:9 | escaping loses nothing: unescaping the escaped text gives the original |
| DrawText.EscapedSeparatorsArePreceded | text_operation/draw_text.py:9 | every `:` and `'` of the escaped text follows a backslash, so it cannot end an option as read by `SplitOptions` |
| DrawText.ClampSize | text_operation/draw_text.py:12 | the size is at least 1 and kept when valid |
| DrawText.ClampOpacity | text_operation/draw_text.py:14 | the opacity lies in [0, 1]: kept when inside, 0 below, 1 above |
| DrawText.NewDrawText | text_operation/draw_text.py:7-14 | the text is stored escaped and reads back as given; the size is `ClampSize` and the opacity `ClampOpacity` of the values given; the other fields pass through |
| DrawText.DrawTextParts | text_operation/draw_text.py:19-28 | the options `text='…'`, `x=`, `y=`, `fontsize=`, `fontcolor=colour@opacity` in that order, plus `font=` last only when a font is given |
| DrawText.DrawTextFilter | text_operation/draw_text.py:30-32 | a `drawtext=` video filter |
| DrawText.SplitOptionsJoin | text_operation/draw_text.py:30 | options joined with `:` split back into the same options when none holds an unescaped `:` |
| DrawText.PlainEscape | text_operation/draw_text.py:9 | the escaped form of a text without backslashes holds no unescaped `:`, so it stays inside its option |
| DrawText.DrawTextRoundTrip | text_operation/draw_text.py:7-30 | for a text without backslashes and a colour and font without `:`, backslash or `@`: the option list splits back into exactly the parts; the text unescapes to the original; x, y and the clamped size parse back; the colour and the clamped opacity read back; the font comes last exactly when given |
| Text.ParseDecimalOfDecimalText | text_operation/draw_text.py:24 | a value written as a decimal reads back as the same value in thousandths |
| ExportTimeline.Visual | ExportWorker.py:129-138 | the visual map holds exactly the clips whose path is not an audio file |
| ExportTimeline.PointSetMembers | ExportWorker.py:119-127 | a time is a boundary exactly when some clip starts or ends there |
| ExportTimeline.SortedExists | ExportWorker.py:140 | every finite set of cut points has an increasing listing |
| ExportTimeline.SortedUnique | ExportWorker.py:140 | that listing is unique |
| ExportTimeline.Sorted | ExportWorker.py:140 | `sorted` of the cut points is increasing and lists exactly the set |
| ExportTimeline.CandidatesMembers | ExportWorker.py:152-155 | a candidate is exactly a visual clip covering the whole piece |
| ExportTimeline.SortByTrackMembers | ExportWorker.py:157 | sorting by track keeps exactly the same entries |
| ExportTimeline.SortByTrackOfOrdered | ExportWorker.py:157 | the stable sort leaves a list already in track order unchanged |
| ExportTimeline.FirstNonGap | ExportWorker.py:158-162 | the winner is a candidate that is not an automatic gap |
| ExportTimeline.FirstNonGapNone | ExportWorker.py:158-164 | there is no winner exactly when every candidate is a gap |
| ExportTimeline.FirstNonGapOfOrdered | ExportWorker.py:157-162 | on a list in track order, the winner's track index is the lowest among the entries that are not gaps |
| ExportTimeline.SegmentFor | ExportWorker.py:164-178 | a piece lasts t1 - t0, and is filler exactly when it has no path |
| ExportTimeline.AllItemsTracks | ExportWorker.py:124-125 | every clip carries the index of a real track, and the clips come in track order |
| ExportTimeline.VisualByTrack | ExportWorker.py:129-138 | the visual map stays in track order |
| ExportTimeline.CandidatesByTrack | ExportWorker.py:152-155 | the candidates stay in track order |
| ExportTimeline.WinnerIsTopmostVisualClip | ExportWorker.py:150-162 | the winner of a piece is a clip of the tracks that is neither audio nor a gap, covers the piece and sits on the lowest-index track among such clips; among such clips it is the first in track-then-storage order, which is the tie-break the stable sort gives within one track; no winner means no such clip |
| ExportTimeline.FirstEligible | ExportWorker.py:152-162 | scanning the candidates in storage order picks the first clip that is visual, not a gap and covers the piece, and picks none exactly when no clip is |
| ExportTimeline.WinnerSegmentWithinClip | ExportWorker.py:154-178 | a won piece reads from the winning clip's path, at offset `t0 - start` of that clip, which is non-negative, and ends within that clip; filler reads from offset 0 with no path |
| ExportTimeline.SegmentsOfIncreasing | ExportWorker.py:143-180 | over increasing cut points, piece i is the piece between points i and i+1 |
| ExportTimeline.SegmentsLength | ExportWorker.py:143-148 | every gap between consecutive cut points gives exactly one piece |
| ExportTimeline.SegmentAt | ExportWorker.py:143-148 | piece i covers points i and i + 1 |
| ExportTimeline.SegmentsTile | ExportWorker.py:143-148 | the pieces have positive lengths that add up to last point minus first, so the skip of empty pieces never fires |
| ExportTimeline.MaxEndBounds | ExportWorker.py:119-127 | the latest end is a cut point and bounds all of them from above, with 0 below |
| ExportTimeline.FlattenedCoversTimeline | ExportWorker.py:118-182 | for non-negative starts and durations, the pieces cover 0 to the latest clip end exactly |
| ExportTimeline.AllItemsClips | ExportWorker.py:124-125 | every item is a clip of the track whose index it carries |
| ExportTimeline.CollectPoints | ExportWorker.py:119-138 | the track loops build exactly the cut points and the visual map |
| ExportTimeline.CollectTrack | ExportWorker.py:125-138 | the inner loop adds one track's boundaries and visual clips |
| ExportTimeline.SortedPoints | ExportWorker.py:140 | the sorted cut points are the increasing listing of the set |
| ExportTimeline.FindWinner | ExportWorker.py:150-162 | filtering, sorting and scanning find the specified winner |
| ExportTimeline.BuildSegments | ExportWorker.py:141-182 | the loop over consecutive points builds exactly the specified pieces |
| ExportTimeline.FlattenedTimeline | ExportWorker.py:118-182 | the whole method returns the flattened timeline |
| ExportWorker.DelayPartsIndex | ExportWorker.py:71 | there is one `adelay` part per mixed clip, and part k delays input k to that clip's start |
| ExportWorker.AudioArgsPairs | ExportWorker.py:70 | argument pair i is `-i` and the path of mixed clip i |
| ExportWorker.FullFilterParts | ExportWorker.py:76-80 | the filter graph splits on `;` into the delay parts followed by the `amix` of all inputs |
| ExportWorker.MixTrackStep | ExportWorker.py:63-72 | one more clip adds an input and a delay part exactly when it is mixed, i.e. neither a gap nor an image |
| ExportWorker.MixTrack | ExportWorker.py:64-72 | the inner audio loop yields the inputs and delay parts of the mixed clips |
| ExportWorker.BuildAudioMix | ExportWorker.py:59-72 | the audio loop yields the inputs, delay parts and count of all mixed clips |
| ExportWorker.RenderFor | ExportWorker.py:184-213 | the rendered chunk lasts as long as its piece |
| ExportWorker.RenderFromClip | ExportWorker.py:184-213 | a piece of positive length renders as black filler, or as a read from inside its winning clip |
| ExportWorker.RenderedChunksComeFromClips | ExportWorker.py:184-213 | every chunk of an export is black filler, a still of an image clip, or a trim from inside a video clip of the tracks |
| ExportWorker.PaddedValue | ExportWorker.py:36 | the zero-padded chunk number reads back as the number |
| ExportWorker.ChunkNamesDistinct | ExportWorker.py:36 | two segments never write the same chunk file |
| ExportWorker.LoopStop | ExportWorker.py:32-45 | the segment loop never stops with success |
| ExportWorker.LoopStopFrom | ExportWorker.py:32-45 | the loop runs to the end exactly when every segment is reached before the cancel and renders; it is cancelled exactly at the cancel point, when every segment before it renders |
| ExportWorker.RunOutcomeCases | ExportWorker.py:20-113 | a run succeeds exactly when no segment is cancelled and no stage fails; it is cancelled exactly when the cancel comes first; otherwise it fails with the error text |
| ExportWorker.AudioStage | ExportWorker.py:59-91 | there is an `amix` command exactly when some clip is mixed |
| ExportWorker.ExportWorker.constructor | ExportWorker.py:11-18 | a new worker is not cancelled, has emitted nothing and run nothing |
| ExportWorker.ExportWorker.Cancel | ExportWorker.py:115-116 | only raises the flag |
| ExportWorker.ExportWorker.Run | ExportWorker.py:20-113 | the outcome is the specified one. Success emits `finished_success`, failure emits `finished_error` and cancellation emits nothing. On every path, the commands and progress reports are exactly `RunCommands` and `RunProgress`: the renders up to the stop point, then concat, mix and mux up to the first failing stage. The temporary folder is always removed |
| ExportWorker.ExportWorker.RunStages | ExportWorker.py:21-104 | the body of the `try`: loop, concat, mix and mux, with the command and progress logs of `RunCommands` and `RunProgress` |
| ExportWorker.ExportWorker.FinishStages | ExportWorker.py:47-104 | after the loop: concat, then audio and mux unless the concat failed |
| ExportWorker.ExportWorker.MixAndMux | ExportWorker.py:57-104 | the audio mix runs only when there is audio, then the mux unless the mix failed |
| ExportWorker.FailedRunStopsAtFailure | ExportWorker.py:32-45 | a run that fails in the loop has run every render through the first failing one, all of them before the cancel point |
| ExportWorker.RunLogCases | ExportWorker.py:20-104 | a cancelled run has issued exactly the renders before the cancel point; a successful one every render, the concat, the mix when there is audio and the mux, with every progress report |
| ExportWorker.ExportWorker.Mux | ExportWorker.py:92-104 | the mux runs once, with the mixed audio mapped only when there is some, and the export succeeds unless the mux fails |
| ExportWorker.ExportWorker.RenderLoop | ExportWorker.py:32-45 | the segment loop renders exactly the segments before the stop point, in order, with one progress report and one list line each |
| FilterBridge.ParseDimensions | FilterBridge.py:95-101 | two `x`-separated integer parts give the size; anything else gives the 1920x1080 fallback |
| FilterBridge.VideoDimensions | FilterBridge.py:83-101 | a missing file gives (0, 0), a failed probe gives the fallback, and otherwise the parse of the output |
| FilterBridge.DimensionsRoundTrip | FilterBridge.py:95-98 | a size printed by ffprobe reads back exactly |
| FilterBridge.NoSeparatorFallsBack | FilterBridge.py:96-101 | output without `x` is never taken as a size |
| FilterBridge.PrepareSecondary | FilterBridge.py:103-121 | a partner of the target size is used as it is; any other is resized to the target into the temporary path |
| FilterBridge.PrepareResizedIsStable | FilterBridge.py:104-106 | preparing a resized partner again changes nothing |
| FilterBridge.PrepareSecondaryClip | FilterBridge.py:103-121 | the method follows that specification, raising when the resize run fails |
| FilterBridge.SafeSize | FilterBridge.py:151-152 | a positive size within the frame is kept; otherwise the frame size is used |
| FilterBridge.CropStaysInFrame | FilterBridge.py:151-160 | the crop box computed for the frame lies inside it |
| FilterBridge.SwapsExactlyForTranspose | FilterBridge.py:205-210 | the corrected swap test holds exactly when the filter run is a `transpose=` quarter turn |
| FilterBridge.ClockFlipNotSwappedAsWritten | FilterBridge.py:209 | as written, `clock_flip` runs transpose=3 but its width and height are not swapped |
| FilterBridge.UpperClockNotSwappedAsWritten | FilterBridge.py:209 | as written, `CLOCK` runs transpose=1 but its width and height are not swapped |
| FilterBridge.StepShape | FilterBridge.py:134-321 | one block either raises, or runs at most one filter of its own operation and nothing else; after an exception it does nothing |
| FilterBridge.RunKeepsError | FilterBridge.py:338-340 | once a block has raised, the remaining blocks change nothing |
| FilterBridge.StopsAt | FilterBridge.py:338-340 | the first block to raise ends the method |
| FilterBridge.AppliedFollowsOrder | FilterBridge.py:134-321 | the runs follow the fixed order of the blocks, each operation at most once |
| FilterBridge.AppliedExactlyEffective | FilterBridge.py:134-321 | without an exception, the first k blocks run exactly their effective operations |
| FilterBridge.AllRunsEffective | FilterBridge.py:134-321 | without an exception, the method runs exactly the effective operations, in order |
| FilterBridge.Execute | FilterBridge.py:138 | one apply call either appends its run or reports that operation's ffmpeg error |
| FilterBridge.FpsBlock | FilterBridge.py:135-138 | the frame-rate block follows its specification |
| FilterBridge.CropBlock | FilterBridge.py:144-170 | the crop block follows its specification and tracks the cropped size |
| FilterBridge.PaddingBlock | FilterBridge.py:172-189 | the padding block follows its specification and tracks the padded size |
| FilterBridge.ScaleBlock | FilterBridge.py:196-203 | the scale block follows its specification and tracks the scaled size |
| FilterBridge.TransposeBlock | FilterBridge.py:205-210 | the transpose block follows its specification, with the swap test as written |
| FilterBridge.TransposeStepGeometry | FilterBridge.py:205-210 | a transpose that runs swaps the tracked size exactly when the mode passes the test as written; a refused or failed one keeps it |
| FilterBridge.SwapAsWrittenIsSound | FilterBridge.py:205-210 | the written test only misses swaps: whenever it swaps an accepted mode, the filter run is a quarter turn |
| FilterBridge.TransformBlocks | FilterBridge.py:134-210 | the transform section is exactly `Run` of its seven operations in order: fps, speed, crop, padding, rotate, scale, transpose (swap test as written); it stops at the first block that raises, and each block runs its filter and tracks the frame size as its specification says |
| FilterBridge.FadeBlock | FilterBridge.py:212-217 | the fade block follows its specification; a bad type or failed probe raises |
| FilterBridge.TextBlock | FilterBridge.py:219-236 | the text block follows its specification |
| FilterBridge.TimingTextBlocks | FilterBridge.py:212-236 | fade, then text |
| FilterBridge.OpaqueBlock | FilterBridge.py:238-271 | a block whose filter text is not modelled runs exactly when enabled |
| FilterBridge.BlurBlock | FilterBridge.py:257-260 | the blur block follows its specification |
| FilterBridge.FilterBlocks | FilterBridge.py:238-271 | the filter section runs its blocks in order |
| FilterBridge.OverlayBlock | FilterBridge.py:273-285 | the overlay runs when its second clip is set and exists |
| FilterBridge.BlendBlock | FilterBridge.py:287-299 | the blend first brings its partner to the tracked frame size |
| FilterBridge.CompositionBlocks | FilterBridge.py:273-321 | the composition sections run their blocks in order |
| FilterBridge.ProcessOrder | FilterBridge.py:134-321 | the whole method is the four sections, one after the other |
| FilterBridge.AllBlocks | FilterBridge.py:134-321 | the body of the `try` is exactly `Run` of all operations in the fixed order: every enabled block runs its filter on the previous output, the tracked size follows each geometry change (transpose with the swap test as written), and the first exception ends the run with that error |
| FilterBridge.SplitExt | FilterBridge.py:329 | stem and extension rebuild the name, and the extension is the name's |
| FilterBridge.FilterBridge.constructor | FilterBridge.py:39-44 | a new bridge has its cache folder and has emitted nothing |
| FilterBridge.FilterBridge.ProcessClip | FilterBridge.py:123-340 | emits exactly one signal: the missing-source error, the exception's error, the move error, the original path when no filter ran, or the cache path named by the stack hash; the blocks run as `AllBlocks` says, transpose with the swap test as written |
| FilterBridge.NothingEffectiveChangesNothing | FilterBridge.py:134-321 | with nothing effective, no block changes anything |
| FilterBridge.NothingEffectiveKeepsOriginal | FilterBridge.py:324-336 | with nothing effective, the original clip is handed back |
| FilterBridge.FinishedPath | FilterBridge.py:324-336 | without an exception, the original is handed back exactly when nothing ran; otherwise the result is moved to the cache path |
| FilterBridge.AppliedIffEffective | FilterBridge.py:324-326 | something ran exactly when some operation was effective |
| FilterBridge.CachePathInCache | FilterBridge.py:331 | the cached file lies in the cache folder under the name built from the clip |
| FilterBridge.CacheNameKeepsExt | FilterBridge.py:327-331 | the cached file keeps the clip's extension |
| FilterBridge.ExtOfBasename | FilterBridge.py:328-329 | the extension of a path is that of its last component |
| FilterBridge.TagKeepsExt | FilterBridge.py:329-331 | a tag without dots or slashes between a name and its extension keeps the extension |
| ImagePlayer.TickStep | ImagePlayer.py:70 | the step is 33 ms times the rate, truncated toward zero |
| ImagePlayer.Clamped | ImagePlayer.py:38-42 | on the timeline only negative positions are raised to 0; otherwise the position is held in [0, duration] |
| ImagePlayer.ImagePlayer.constructor | ImagePlayer.py:10-19 | stopped at 0 at rate 1.0 with the timer off |
| ImagePlayer.ImagePlayer.Play | ImagePlayer.py:21-24 | playing, timer on, one state signal |
| ImagePlayer.ImagePlayer.Pause | ImagePlayer.py:26-29 | paused, timer off, one state signal |
| ImagePlayer.ImagePlayer.Stop | ImagePlayer.py:31-36 | stopped at 0, timer off, position then state signals |
| ImagePlayer.ImagePlayer.SetPosition | ImagePlayer.py:38-47 | the position is clamped; off the timeline, reaching the end pauses a playing player and reports the end of media |
| ImagePlayer.ImagePlayer.SetPlaybackRate | ImagePlayer.py:63-67 | the rate reads back as set, and nothing else changes |
| ImagePlayer.ImagePlayer.OnTick | ImagePlayer.py:69-82 | the position advances by the tick step; off the timeline, reaching the end snaps to it and pauses, so the new position is `PositionAfterTicks` of one tick |
| ImagePlayer.TicksCompose | ImagePlayer.py:69-80 | a tick that stops short of the end is the first of n+1 ticks; the rest continue from where it stopped |
| ImagePlayer.PositionAfterTicks | ImagePlayer.py:69-80 | repeated ticks keep a clip's position within [start, duration] |
| ImagePlayer.TicksReachEnd | ImagePlayer.py:69-80 | at a positive rate, enough ticks reach the end |
| VideoTabContent.NextForward | VideoTabContent.py:257-265 | the forward button moves along its cycle; from reverse or an unknown rate it goes back to 1.0 |
| VideoTabContent.NextBackward | VideoTabContent.py:267-275 | the backward button moves along its cycle; from forward play or an unknown rate it goes to -0.5 |
| VideoTabContent.CyclesAdvance | VideoTabContent.py:257-275 | each press moves one place along its cycle, wrapping around |
| VideoTabContent.PressesFollowCycle | VideoTabContent.py:257-275 | n presses move n places along the cycle, modulo its length |
| VideoTabContent.ReverseTarget | VideoTabContent.py:235-236 | one reverse tick moves back by 33 ms times the rate, truncated, never below 0 and never forward |
| VideoTabContent.HandlersKeepInv | VideoTabContent.py:201-365 | every handler keeps the invariant: the reverse timer runs only for a player, at a negative logical rate, with the engine paused at 1.0 and a media player muted; the rate is always one the buttons produce |
| VideoTabContent.SpeedChangeEffect | VideoTabContent.py:239-298 | the rate becomes the next one on the button's cycle. A positive rate stops reversing, unmutes and goes to the engine, which plays unless within 100 ms of the end. A negative rate mutes, pauses the engine at 1.0 and starts the reverse timer |
| VideoTabContent.ReverseTickMovesBack | VideoTabContent.py:223-237 | a tick never moves forward, and at the start it stops the timer and unmutes |
| VideoTabContent.ReversePlayEnds | VideoTabContent.py:223-237 | reverse play from position p ends at 0 with the timer off after at most p + 1 ticks |
| VideoTabContent.StoppedStaysStopped | VideoTabContent.py:223-234 | once stopped at the start, further ticks keep it there |
| VideoTabContent.CheckEndEffect | VideoTabContent.py:300-313 | within 2 s of the end at more than 1.0 the rate drops to 1.0; at the end while playing, reverse play stops and the engine pauses; otherwise nothing changes |
| VideoTabContent.TogglePlayEffect | VideoTabContent.py:335-365 | toggling while reversing or playing pauses; within 50 ms of the end it does nothing; otherwise it plays forward at 1.0 with the sound on |
| VideoTabContent.VideoTabContent.constructor | VideoTabContent.py:22-54 | a new tab is at rate 1.0 with the timer off, and a media player starts playing |
| VideoTabContent.VideoTabContent.Unmute | VideoTabContent.py:212 | only a media player's audio output is unmuted |
| VideoTabContent.VideoTabContent.ChangeSpeedMode | VideoTabContent.py:239-298 | the handler follows its specification and keeps the invariant |
| VideoTabContent.VideoTabContent.OnReverseTimerTick | VideoTabContent.py:223-237 | the handler follows its specification and keeps the invariant |
| VideoTabContent.VideoTabContent.OnMediaStatusChanged | VideoTabContent.py:315-323 | only the end-of-media status acts |
| VideoTabContent.VideoTabContent.CheckPositionForEnd | VideoTabContent.py:300-313 | the handler follows its specification and keeps the invariant |
| VideoTabContent.VideoTabContent.StopReverseLogic | VideoTabContent.py:328-333 | the timer stops, the rate returns to 1.0 and the audio is unmuted |
| VideoTabContent.VideoTabContent.TogglePlaySafe | VideoTabContent.py:335-365 | the handler follows its specification and keeps the invariant |
| VideoTabContent.VideoTabContent.GoToStart | VideoTabContent.py:201-213 | jumps to 0, stops reversing and resets the rate to 1.0 |
| VideoTabContent.VideoTabContent.GoToEnd | VideoTabContent.py:215-221 | jumps to the duration and stops reversing; the rate is left as it is |
| TimelineTrack.TimelineTrackWidget.constructor | TimelineTrackWidget.py:8-17 | a one-minute empty track with the playhead at 0 |
| TimelineTrack.TimelineTrackWidget.SetDuration | TimelineTrackWidget.py:23-26 | the duration is never below one minute, and is kept when at least that |
| TimelineTrack.TimelineTrackWidget.SetPlayhead | TimelineTrackWidget.py:39-41 | the playhead is clamped to [0, duration] |
| TimelineTrack.TimelineTrackWidget.AddClip | TimelineTrackWidget.py:43-60 | the clip is appended at the playhead under its base name; the track grows to 5 s past a clip ending beyond it, so the clip always fits |
| TimelineTrack.TimelineTrackWidget.MouseSeek | TimelineTrackWidget.py:142-158 | with the left button the playhead moves to the position, cut at 0, and one seek is requested; any other button changes nothing |
| TimelineTrack.TimelineTrackWidget.ContentEnd | TimelineTrackWidget.py:160-166 | the largest clip end, or 0 when there are no clips |
| TimelineAndTracks.ScrollWrites | TimelineAndTracks.py:75-89 | the scroll bar is written at most twice, and only when the cursor is outside a margin |
| TimelineAndTracks.InsideUnchanged | TimelineAndTracks.py:80-89 | a cursor inside the margins leaves the scroll bar alone |
| TimelineAndTracks.CorrectionTargets | TimelineAndTracks.py:80-89 | past the right edge the cursor ends one margin before it; before the left edge it ends one margin after it, or the view goes back to 0 |
| TimelineAndTracks.CursorEndsVisible | TimelineAndTracks.py:75-89 | in a viewport two margins wide the cursor ends visible, with a margin on the right, and with one on the left unless the view is at 0 |
| TimelineAndTracks.NarrowLeftWins | TimelineAndTracks.py:80-89 | in a narrower viewport both corrections fire and the left one decides |
| TimelineAndTracks.ScrollArea.EnsureCursorVisible | TimelineAndTracks.py:75-89 | the method makes exactly the specified writes |
| MediaTabs.HasKindMeansListed | MediaTabs.py:149-152 | the `endswith` test holds exactly when the lower-cased extension is in the group |
| MediaTabs.KindsDisjoint | MediaTabs.py:8-10 | no file is both audio and video, and an image is neither |
| MediaTabs.DisplayName | MediaTabs.py:139-140 | the label is at most 20 characters: the whole base name when it is short enough, else its first 15 characters and "..." |
| MediaTabs.Items | MediaTabs.py:147-148 | one "Show All" item per file, in order, carrying its full path |
| MediaTabs.NamesListGroup | MediaTabs.py:149-152 | every file of a group is shown in that group's list |
| MediaTabs.CategoriesPartition | MediaTabs.py:149-152 | the audio and video lists together hold at most one entry per file |
| MediaTabs.ImageOnlyInShowAll | MediaTabs.py:149-152 | an image shows up in neither the audio nor the video list |
| MediaTabs.BuildLists | MediaTabs.py:131-154 | the refresh loop builds exactly the three specified lists |
| MediaTabs.Insert | MediaTabs.py:156-166 | the list grows by at most the number of imported paths |
| MediaTabs.InsertMembers | MediaTabs.py:160-163 | a path is listed afterwards exactly when it was before, or is the absolute form of an imported regular file |
| MediaTabs.InsertNoDuplicates | MediaTabs.py:160-163 | the list never holds a path twice |
| MediaTabs.InsertKeepsOld | MediaTabs.py:163 | earlier files stay, in order, behind the new ones |
| MediaTabs.InsertNothingNew | MediaTabs.py:160-163 | importing only listed or non-file paths changes nothing |
| MediaTabs.AddingTwiceAddsNothing | MediaTabs.py:156-166 | importing the same paths again adds nothing |
| MediaTabs.BatchLandsReversed | MediaTabs.py:163 | a batch of new distinct files lands in front, in reverse order |
| MediaTabs.SupportedQualifies | MediaTabs.py:175-178 | only regular files with a supported extension are passed on |
| MediaTabs.SupportedComplete | MediaTabs.py:175-178 | every regular file with a supported extension is passed on |
| MediaTabs.FoundExactly | MediaTabs.py:175-178 | a folder entry is passed on exactly when, joined to the folder, it is a supported regular file |
| MediaTabs.ListFolder | MediaTabs.py:174-178 | the listing loop collects exactly those entries |
| MediaTabs.GridCellWidth | MediaTabs.py:63-81 | the grid is left alone exactly when the list is empty |
| MediaTabs.ItemsPerRow | MediaTabs.py:72 | at least one item per row, and as many spaced icons as fit |
| MediaTabs.GridCentersRow | MediaTabs.py:72-81 | a row of icons with the computed gaps (one more gap than icons, or one on each side of a lone icon) fills the list width to within one pixel per gap |
| MediaTabs.MediaTabs.constructor | MediaTabs.py:20-21 | an empty library |
| MediaTabs.MediaTabs.RefreshList | MediaTabs.py:131-154 | the three lists are rebuilt from the listed paths |
| MediaTabs.MediaTabs.AddFiles | MediaTabs.py:156-166 | the library becomes the specified insertion, keeps its invariant, and reports how many were added |
| MediaTabs.MediaTabs.InsertPaths | MediaTabs.py:158-163 | the known-path set and the list grow together, without duplicates |
| MediaTabs.MediaTabs.AddFolder | MediaTabs.py:168-180 | not a folder adds nothing; otherwise its supported files are inserted |
| HistoryStacks.Save | pregatireOpperatii/main2.py:140-141 | pushes onto the undo stack and leaves redo alone |
| HistoryStacks.Clear | pregatireOpperatii/main2.py:143-145 | both stacks become empty |
| HistoryStacks.UndoMovesTop | pregatireOpperatii/main2.py:130-133 | undo fails exactly on an empty undo stack and changes nothing then; otherwise it moves the top to redo and returns it, keeping every item |
| HistoryStacks.RedoMovesTop | pregatireOpperatii/main2.py:135-138 | the same for redo, in the other direction |
| HistoryStacks.UndoThenRedo | pregatireOpperatii/main2.py:130-138 | a redo right after a successful undo restores both stacks and returns the same item |
| HistoryStacks.RedoThenUndo | pregatireOpperatii/main2.py:130-138 | an undo right after a successful redo restores both stacks |
| HistoryStacks.SaveThenUndo | pregatireOpperatii/main2.py:130-141 | undo after save returns the saved item and puts it on redo |
| HistoryStacks.UndosReverse | pregatireOpperatii/main2.py:130-133 | n undos move the top n items onto redo in reverse order |
| InMemoryEditor.GroupConcatenates | pregatireOpperatii/main2.py:103-109 | grouping puts the stored clip's frames before the clip's, keeping the stored clip's size and rate, not the argument's |
| InMemoryEditor.GroupAssociative | pregatireOpperatii/main2.py:103-109 | grouping is associative |
| InMemoryEditor.SliceFrom | pregatireOpperatii/main2.py:117 | Python's `s[k:]` is a suffix, with negative k counting from the end |
| InMemoryEditor.CutKeepsSuffix | pregatireOpperatii/main2.py:111-118 | a cut keeps the size, the rate and a suffix of the frames starting at the start frame |
| InMemoryEditor.CutAtZero | pregatireOpperatii/main2.py:111-118 | cutting at time 0 keeps the whole clip |
| InMemoryEditor.CutInsideFirst | pregatireOpperatii/main2.py:103-118 | cutting a grouped clip inside its first part cuts that part |
| InMemoryEditor.History.constructor | pregatireOpperatii/main2.py:126-128 | both stacks start empty |
| InMemoryEditor.History.Undo | pregatireOpperatii/main2.py:130-133 | follows the stack specification, returning the error of an empty pop |
| InMemoryEditor.History.Redo | pregatireOpperatii/main2.py:135-138 | follows the stack specification |
| InMemoryEditor.History.Save | pregatireOpperatii/main2.py:140-141 | follows the stack specification |
| InMemoryEditor.History.ClearHistory | pregatireOpperatii/main2.py:143-145 | both stacks become empty |
| EditorHistory.History.constructor | pregatireOpperatii/editor/History.py:8-10 | both stacks start empty |
| EditorHistory.History.Init | pregatireOpperatii/editor/History.py:8-10 | running `__init__` again empties the shared instance's stacks |
| EditorHistory.History.Undo | pregatireOpperatii/editor/History.py:18-19 | the stub returns nothing and changes nothing |
| EditorHistory.History.Redo | pregatireOpperatii/editor/History.py:21-24 | follows the stack specification |
| EditorHistory.History.ClearHistory | pregatireOpperatii/editor/History.py:26-28 | both stacks become empty |
| EditorHistory.History.Save | pregatireOpperatii/editor/History.py:30-31 | follows the stack specification |
| EditorHistory.HistoryClass.constructor | pregatireOpperatii/editor/History.py:5-6 | no instance yet, unlocked |
| EditorHistory.HistoryClass.Construct | pregatireOpperatii/editor/History.py:8-16 | after the first construction, every later one returns the same object, and its stacks are emptied again |
| EditorHistory.ConstructTwice | pregatireOpperatii/editor/History.py:8-16 | two constructions in a row give the same object |

## Left out

- External processes are not executed. Each ffmpeg or ffprobe run is an event
  or a parameter: its exit status, its output and the error text.
- `os.path.exists`, `os.path.isfile`, `os.path.isdir`, `os.listdir` and
  `os.path.abspath` are parameters: a set of regular files, a flag, a
  sequence and a function.
- Qt widgets, pixmaps, icons, thumbnails, painting, layouts and signal
  wiring are not modelled. Signals are recorded as sequences of emitted
  values.
- Floating point is replaced by exact arithmetic:
  - rates are integers in tenths;
  - opacities are in thousandths;
  - scale factors, fps and start times are reals, truncated by `Numbers.Trunc`
    where the source calls `int()`.
- The pixel-to-millisecond conversion of `TimelineTrackWidget` is a parameter.
- `_update_dimensions`, `resizeEvent` and `paintEvent` of the track are not
  modelled, because they only draw.
- TimelineTrack.TimelineTrackWidget.MouseSeek merges `mousePressEvent` and
  `mouseMoveEvent`, because both do the same thing for the left button.
- TimelineAndTracks.ScrollArea.EnsureCursorVisible records the values
  written, not the scroll bar's own clamping to its range.
- `print` and `traceback` output of `ExportWorker.run` is left out.
- ExportWorker.ExportWorker.Run: the moment the interface thread calls
  `cancel` is a parameter (the segment index before whose check it lands).
  Real interleavings of the two threads are not modelled.
- FilterBridge:
  - The filter texts of speed, rotate, scale, tempo, kernel, edge, volume,
    noise, overlay, echo, delay and chorus are not built. The classes that
    produce them are not part of this model, so those blocks run an opaque
    filter.
  - The md5 hash of the stack and the temporary file names are parameters.
  - The model assumes each successful run writes a new temporary file.
- FilterBridge.FilterBridge.ProcessClip reports a failure of the final
  `shutil.move` as a parameter, not as a modelled file system.
- `FilterBridge.get_file_duration`, `_cleanup_on_exit` and the `atexit`
  registration are left out, because they only query or delete files.
- VideoTabContent:
  - `step_frame`, `cleanup`, the view setup methods and the image-scaling
    cache are not modelled, because they only drive widgets.
  - `is_reversing` is the `timer` field of the model.
- ImagePlayer: `setSource`, `position`, `duration` and `playbackState` are
  plain field reads. Durations are natural numbers.
- main2.py:
  - `load_video` and `write_to_file` (ffprobe/ffmpeg subprocess I/O), `PlaybackSpeed` (numpy
    resampling), the path form of the `VideoClipInMemory` constructor,
    `create_instance` and the module-level script are left out.
  - Frames are an abstract type.
- editor/History.py: the `QTimeLine` items are an abstract type.
- Python's `int()` parse is modelled for ASCII digits, an optional sign,
  surrounding whitespace and underscores between digits. Unicode digits are
  left out.
- Text.Lower folds only the ASCII letters. Python's `str.lower` also folds
  other letters, so a mode such as `cloc\u212A` (Kelvin sign) is accepted by
  the source and refused by the model. Text.Strip removes only ASCII and
  Latin-1 whitespace, not the rest of the Unicode white space.
- The `int()` and `float()` coercions of the constructors are not modelled:
  `FadeInOut` duration (timing/fade_in_out.py:8) and `DrawText` size and
  opacity (text_operation/draw_text.py:12-14) are taken as numbers already.
  A value that would make Python raise is not represented.
- Default arguments are not modelled; every constructor takes all its
  values. Examples are `DrawText`'s text, position, font, size, colour and
  opacity defaults, `FadeInOut`'s `duration=1, type="both"`, and
  `ImagePlayer`'s 5000 ms duration.
- FadeInOut.FadeOutText writes the start time exactly, in thousandths.
  Python subtracts in floating point, so it may print a nearby value such
  as `11.344999999999999`.
- DrawText.DrawTextRoundTrip needs a text without backslashes. The source
  does not escape a backslash, so a backslash in the text can escape the
  character after it, for example the closing quote.

## Findings

| source | as written | input that shows it | evidently intended | confidence | as-written member | corrected member |
|---|---|---|---|---|---|---|
| FilterBridge.py:209 | the width and height are swapped only when the mode contains `clock` and not `flip`; `Transposed`, `TransposeStep`, `TransposeBlock` and `ProcessClip` follow this test as written | mode `clock_flip` (runs `transpose=3`, a quarter turn) or `CLOCK` (accepted, because the transpose class lower-cases it) | swap exactly when the filter run is a `transpose=` quarter turn | not executed | FilterBridge.ClockFlipNotSwappedAsWritten | FilterBridge.SwapsExactlyForTranspose |
