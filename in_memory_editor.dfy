/** pregatireOpperatii/main2.py: the in-memory editing prototype. A clip is
    its frames with width, height and frame rate; grouping concatenates two
    clips, cutting drops the frames before a start time, and a history
    keeps the clips for undo and redo. Frames are left abstract; the frame
    rate and start time (Python floats) are reals. */
module InMemoryEditor {
  import opened Wrappers
  import opened Numbers
  import opened HistoryStacks

  /** `VideoClipInMemory` built from an array of frames. */
  datatype Clip<F> = Clip(frames: seq<F>, width: int, height: int, fps: real)

  /** `GroupVideo(stored).apply_operation(clip)`: the stored clip's frames
      followed by the argument's, with the stored clip's size and rate. */
  function Group<F>(stored: Clip<F>, clip: Clip<F>): Clip<F> {
    Clip(stored.frames + clip.frames, stored.width, stored.height, stored.fps)
  }

  lemma GroupConcatenates<F>(stored: Clip<F>, clip: Clip<F>)
    ensures var r := Group(stored, clip);
            |r.frames| == |stored.frames| + |clip.frames| &&
            r.frames[..|stored.frames|] == stored.frames && r.frames[|stored.frames|..] == clip.frames &&
            r.width == stored.width && r.height == stored.height && r.fps == stored.fps
  {
    var r := Group(stored, clip);
    assert r.frames[..|stored.frames|] == stored.frames;
    assert r.frames[|stored.frames|..] == clip.frames;
  }

  /** Grouping three clips gives the same clip whichever pair is grouped
      first. */
  lemma GroupAssociative<F>(a: Clip<F>, b: Clip<F>, c: Clip<F>)
    ensures Group(Group(a, b), c) == Group(a, Group(b, c))
  {
    assert (a.frames + b.frames) + c.frames == a.frames + (b.frames + c.frames);
  }

  /** Python's `s[k:]`: a negative `k` counts from the end, and an index
      past either end is cut to it. */
  function SliceFrom<F>(s: seq<F>, k: int): (r: seq<F>)
    ensures |r| <= |s| && r == s[|s| - |r|..]
    ensures 0 <= k <= |s| ==> |r| == |s| - k
    ensures k >= |s| ==> r == []
    ensures k < 0 ==> |r| == (if -k < |s| then -k else |s|)
  {
    if k >= 0 then (if k < |s| then s[k..] else [])
    else if -k < |s| then s[|s| + k..] else s
  }

  /** `int(start_time * fps)`. */
  function StartFrame(startTime: real, fps: real): int {
    Trunc(startTime * fps)
  }

  /** `CutVideo(start_time).apply_operation(clip)`. */
  function Cut<F>(startTime: real, clip: Clip<F>): Clip<F> {
    Clip(SliceFrom(clip.frames, StartFrame(startTime, clip.fps)), clip.width, clip.height, clip.fps)
  }

  /** A cut keeps size and rate and a suffix of the frames: from the start
      frame on, nothing when the start is past the end, and for a start
      time before the clip at most the last frames the negative index
      names. */
  lemma CutKeepsSuffix<F>(startTime: real, clip: Clip<F>)
    ensures var r := Cut(startTime, clip);
            var k := StartFrame(startTime, clip.fps);
            r.width == clip.width && r.height == clip.height && r.fps == clip.fps &&
            r.frames == clip.frames[|clip.frames| - |r.frames|..] &&
            (0 <= k <= |clip.frames| ==> r.frames == clip.frames[k..]) &&
            (k >= |clip.frames| ==> r.frames == [])
  {
  }

  /** Cutting at time 0 keeps the whole clip. */
  lemma CutAtZero<F>(clip: Clip<F>)
    ensures Cut(0.0, clip) == clip
  {
    assert clip.frames[0..] == clip.frames;
  }

  /** Cutting a grouped clip within its first part is cutting that part and
      grouping the rest after it. */
  lemma CutInsideFirst<F>(startTime: real, a: Clip<F>, b: Clip<F>)
    requires 0 <= StartFrame(startTime, a.fps) <= |a.frames|
    ensures Cut(startTime, Group(a, b)) == Group(Cut(startTime, a), b)
  {
    var k := StartFrame(startTime, a.fps);
    assert (a.frames + b.frames)[k..] == a.frames[k..] + b.frames;
  }

  /** `History`: the undo and redo stacks of clips. */
  class History<F> {
    var undo: seq<Clip<F>>
    var redo: seq<Clip<F>>

    function State(): Stacks<Clip<F>>
      reads this
    {
      Stacks(undo, redo)
    }

    constructor ()
      ensures undo == [] && redo == []
    {
      undo := [];
      redo := [];
    }

    method Undo() returns (video: Result<Clip<F>>)
      modifies this
      ensures State() == HistoryStacks.Undo(old(State())).stacks
      ensures video == HistoryStacks.Undo(old(State())).item
    {
      if undo == [] {
        return Err(IndexError(EmptyPop));
      }
      var v := undo[|undo| - 1];
      undo := undo[..|undo| - 1];
      redo := redo + [v];
      video := Ok(v);
    }

    method Redo() returns (video: Result<Clip<F>>)
      modifies this
      ensures State() == HistoryStacks.Redo(old(State())).stacks
      ensures video == HistoryStacks.Redo(old(State())).item
    {
      if redo == [] {
        return Err(IndexError(EmptyPop));
      }
      var v := redo[|redo| - 1];
      redo := redo[..|redo| - 1];
      undo := undo + [v];
      video := Ok(v);
    }

    method Save(video: Clip<F>)
      modifies this
      ensures State() == HistoryStacks.Save(old(State()), video)
    {
      undo := undo + [video];
    }

    method ClearHistory()
      modifies this
      ensures State() == HistoryStacks.Clear(old(State()))
    {
      undo := [];
      redo := [];
    }
  }
}
