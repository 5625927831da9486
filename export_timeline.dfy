/** ExportWorker.py, `_calculate_flattened_timeline`: the tracks are cut at
    every clip boundary, and each piece between two consecutive cut points is
    taken from the lowest-numbered track whose visual clip covers it, or is
    black filler when none does. */
module ExportTimeline {
  import opened Wrappers
  import opened Text

  /** A clip dictionary of a track: times in milliseconds. */
  datatype Clip = Clip(path: string, start: int, duration: int, isAutoGap: bool)

  datatype Track = Track(clips: seq<Clip>)

  /** An entry of `visual_clips_map`, also used for every clip before the
      audio filter. */
  datatype Item = Item(trackIdx: nat, start: int, end: int, clip: Clip)

  /** A render segment; `path` is `None` for filler. */
  datatype Segment = Segment(path: Option<string>, sourceStartMs: int, durationMs: int, isGap: bool)

  function ItemOf(idx: nat, c: Clip): Item {
    Item(idx, c.start, c.start + c.duration, c)
  }

  function TrackItems(idx: nat, clips: seq<Clip>): seq<Item> {
    seq(|clips|, k requires 0 <= k < |clips| => ItemOf(idx, clips[k]))
  }

  /** Every clip of every track, track by track, in storage order. */
  function AllItems(tracks: seq<Track>): seq<Item> {
    if tracks == [] then []
    else AllItems(tracks[..|tracks| - 1]) + TrackItems(|tracks| - 1, tracks[|tracks| - 1].clips)
  }

  /** The audio-only extensions the visual map skips. */
  predicate IsAudioPath(p: string) {
    EndsWithAny(Lower(p), [".mp3", ".wav", ".flac"])
  }

  /** `visual_clips_map`: the items whose path is not an audio file. */
  function Visual(items: seq<Item>): (v: seq<Item>)
    ensures forall x :: x in v <==> x in items && !IsAudioPath(x.clip.path)
  {
    if items == [] then []
    else
      var last := items[|items| - 1];
      Visual(items[..|items| - 1]) + (if IsAudioPath(last.clip.path) then [] else [last])
  }

  /** The starts and ends of all items, audio included. */
  function PointSet(items: seq<Item>): set<int> {
    if items == [] then {}
    else
      var last := items[|items| - 1];
      PointSet(items[..|items| - 1]) + {last.start, last.end}
  }

  /** `cut_points`: 0 and every clip boundary. */
  function CutPoints(items: seq<Item>): set<int> {
    {0} + PointSet(items)
  }

  lemma {:induction false} PointSetMembers(items: seq<Item>, t: int)
    ensures t in PointSet(items) <==>
              exists k :: 0 <= k < |items| && (t == items[k].start || t == items[k].end)
  {
    if items != [] {
      var n := |items|;
      PointSetMembers(items[..n - 1], t);
      assert forall k :: 0 <= k < n - 1 ==> items[..n - 1][k] == items[k];
    }
  }

  // ---------------------------------------------------------------------
  // sorted(list(cut_points))

  predicate Increasing(p: seq<int>) {
    forall i, j :: 0 <= i < j < |p| ==> p[i] < p[j]
  }

  function Elems(p: seq<int>): set<int> {
    set x | x in p
  }

  lemma {:induction false} MinExists(s: set<int>) returns (m: int)
    requires s != {}
    ensures m in s && forall x :: x in s ==> m <= x
    decreases |s|
  {
    if forall z :: z !in s {
      assert false;
    }
    var y :| y in s;
    var rest := s - {y};
    if rest == {} {
      m := y;
      forall x | x in s ensures m <= x {
        assert x == y || x in rest;
      }
    } else {
      var r := MinExists(rest);
      m := if y < r then y else r;
      forall x | x in s ensures m <= x {
        if x != y { assert x in rest; }
      }
    }
  }

  lemma {:induction false} SortedExists(s: set<int>)
    ensures exists p :: Increasing(p) && Elems(p) == s
    decreases |s|
  {
    if s == {} {
      assert Increasing([]) && Elems([]) == s;
    } else {
      var m := MinExists(s);
      SortedExists(s - {m});
      var q :| Increasing(q) && Elems(q) == s - {m};
      PrependMin(m, q);
      assert Increasing([m] + q) && Elems([m] + q) == s;
    }
  }

  /** Putting a value below all of an increasing sequence in front keeps it
      increasing and adds that value to its elements. */
  lemma PrependMin(m: int, q: seq<int>)
    requires Increasing(q) && forall x :: x in Elems(q) ==> m < x
    ensures Increasing([m] + q) && Elems([m] + q) == {m} + Elems(q)
  {
    var p := [m] + q;
    forall i, j | 0 <= i < j < |p|
      ensures p[i] < p[j]
    {
      assert p[j] == q[j - 1] && q[j - 1] in Elems(q);
      if i > 0 {
        assert p[i] == q[i - 1];
      }
    }
    forall x
      ensures x in Elems(p) <==> x in {m} + Elems(q)
    {
      assert x in p <==> x == m || x in q;
    }
  }

  /** A strictly increasing sequence is determined by its elements. */
  lemma {:induction false} SortedUnique(p: seq<int>, q: seq<int>)
    requires Increasing(p) && Increasing(q) && Elems(p) == Elems(q)
    ensures p == q
    decreases |p|
  {
    if p != [] && q != [] {
      assert p[0] in Elems(q) && q[0] in Elems(p);
      assert p[0] == q[0];
      assert p[0] !in Elems(p[1..]);
      assert q[0] !in Elems(q[1..]);
      assert Elems(p) == {p[0]} + Elems(p[1..]) by { assert p == [p[0]] + p[1..]; }
      assert Elems(q) == {q[0]} + Elems(q[1..]) by { assert q == [q[0]] + q[1..]; }
      SortedUnique(p[1..], q[1..]);
      assert p == [p[0]] + p[1..] && q == [q[0]] + q[1..];
    } else {
      ElemsEmpty(p);
      ElemsEmpty(q);
    }
  }

  /** A sequence has no elements exactly when it is empty. */
  lemma ElemsEmpty(p: seq<int>)
    ensures Elems(p) == {} <==> p == []
  {
    if p != [] {
      assert p[0] in Elems(p);
    }
  }

  /** `sorted(s)`: the strictly increasing sequence of the set's elements. */
  ghost function Sorted(s: set<int>): (p: seq<int>)
    ensures Increasing(p) && Elems(p) == s
  {
    SortedExists(s);
    var p :| Increasing(p) && Elems(p) == s;
    p
  }

  // ---------------------------------------------------------------------
  // The winner of a piece

  /** The visual items that cover the whole piece `[t0, t1]`. */
  function Candidates(visual: seq<Item>, t0: int, t1: int): (c: seq<Item>)
    ensures |c| <= |visual|
  {
    if visual == [] then []
    else
      var last := visual[|visual| - 1];
      Candidates(visual[..|visual| - 1], t0, t1) + (if last.start <= t0 && last.end >= t1 then [last] else [])
  }

  /** An item is a candidate exactly when it is visual and covers the piece. */
  lemma {:induction false} CandidatesMembers(visual: seq<Item>, t0: int, t1: int)
    ensures forall x :: x in Candidates(visual, t0, t1) <==> x in visual && x.start <= t0 && x.end >= t1
  {
    if visual != [] {
      var n := |visual|;
      CandidatesMembers(visual[..n - 1], t0, t1);
      assert visual == visual[..n - 1] + [visual[n - 1]];
    }
  }

  /** Insertion into a list ordered by track, after the entries with the same key. */
  function InsertByTrack(x: Item, ys: seq<Item>): (r: seq<Item>)
    ensures |r| == |ys| + 1
  {
    if ys == [] || x.trackIdx <= ys[0].trackIdx then [x] + ys
    else [ys[0]] + InsertByTrack(x, ys[1..])
  }

  lemma {:induction false} InsertByTrackMembers(x: Item, ys: seq<Item>)
    ensures forall z :: z in InsertByTrack(x, ys) <==> z == x || z in ys
  {
    if !(ys == [] || x.trackIdx <= ys[0].trackIdx) {
      InsertByTrackMembers(x, ys[1..]);
      assert ys == [ys[0]] + ys[1..];
    }
  }

  /** `candidates.sort(key=track_idx)`: a stable insertion sort. */
  function SortByTrack(xs: seq<Item>): (r: seq<Item>)
    ensures |r| == |xs|
  {
    if xs == [] then [] else InsertByTrack(xs[0], SortByTrack(xs[1..]))
  }

  /** Sorting keeps exactly the same entries. */
  lemma {:induction false} SortByTrackMembers(xs: seq<Item>)
    ensures forall z :: z in SortByTrack(xs) <==> z in xs
  {
    if xs != [] {
      SortByTrackMembers(xs[1..]);
      InsertByTrackMembers(xs[0], SortByTrack(xs[1..]));
      assert xs == [xs[0]] + xs[1..];
    }
  }

  predicate ByTrack(xs: seq<Item>) {
    forall i, j :: 0 <= i < j < |xs| ==> xs[i].trackIdx <= xs[j].trackIdx
  }

  /** The stable sort leaves a list that is already in track order alone. */
  lemma {:induction false} SortByTrackOfOrdered(xs: seq<Item>)
    requires ByTrack(xs)
    ensures SortByTrack(xs) == xs
  {
    if xs != [] {
      SortByTrackOfOrdered(xs[1..]);
      assert xs == [xs[0]] + xs[1..];
    }
  }

  /** The first entry that is not an automatic gap. */
  function FirstNonGap(xs: seq<Item>): (w: Option<Item>)
    ensures w.Some? ==> w.value in xs && !w.value.clip.isAutoGap
  {
    if xs == [] then None
    else if !xs[0].clip.isAutoGap then Some(xs[0])
    else FirstNonGap(xs[1..])
  }

  /** There is no such entry exactly when every entry is a gap. */
  lemma {:induction false} FirstNonGapNone(xs: seq<Item>)
    ensures FirstNonGap(xs).None? <==> forall x :: x in xs ==> x.clip.isAutoGap
  {
    if xs != [] && xs[0].clip.isAutoGap {
      FirstNonGapNone(xs[1..]);
      assert xs == [xs[0]] + xs[1..];
    }
  }

  lemma {:induction false} FirstNonGapOfOrdered(xs: seq<Item>)
    requires ByTrack(xs)
    ensures var w := FirstNonGap(xs);
            w.Some? ==> forall y :: y in xs && !y.clip.isAutoGap ==> w.value.trackIdx <= y.trackIdx
  {
    if xs != [] && xs[0].clip.isAutoGap {
      FirstNonGapOfOrdered(xs[1..]);
      forall y | y in xs && !y.clip.isAutoGap ensures y in xs[1..] {
        assert xs == [xs[0]] + xs[1..];
      }
    }
  }

  function Winner(visual: seq<Item>, t0: int, t1: int): Option<Item> {
    FirstNonGap(SortByTrack(Candidates(visual, t0, t1)))
  }

  /** The segment for the piece `[t0, t1]`. */
  function SegmentFor(visual: seq<Item>, t0: int, t1: int): (s: Segment)
    ensures s.durationMs == t1 - t0
    ensures s.isGap <==> s.path.None?
  {
    match Winner(visual, t0, t1)
    case Some(w) => Segment(Some(w.clip.path), t0 - w.clip.start, t1 - t0, false)
    case None => Segment(None, 0, t1 - t0, true)
  }

  /** The loop over consecutive cut points; pieces of no length are skipped. */
  function Segments(pts: seq<int>, visual: seq<Item>): seq<Segment> {
    if |pts| < 2 then []
    else
      var n := |pts|;
      Segments(pts[..n - 1], visual)
      + (if pts[n - 1] - pts[n - 2] <= 0 then [] else [SegmentFor(visual, pts[n - 2], pts[n - 1])])
  }

  /** `_calculate_flattened_timeline` as a whole. */
  ghost function Flattened(tracks: seq<Track>): seq<Segment> {
    var items := AllItems(tracks);
    Segments(Sorted(CutPoints(items)), Visual(items))
  }

  // ---------------------------------------------------------------------
  // Properties

  lemma {:induction false} AllItemsTracks(tracks: seq<Track>)
    ensures forall x :: x in AllItems(tracks) ==> x.trackIdx < |tracks|
    ensures ByTrack(AllItems(tracks))
  {
    if tracks != [] {
      var n := |tracks|;
      AllItemsTracks(tracks[..n - 1]);
      var a, b := AllItems(tracks[..n - 1]), TrackItems(n - 1, tracks[n - 1].clips);
      assert AllItems(tracks) == a + b;
      assert forall x :: x in b ==> x.trackIdx == n - 1;
      forall i, j | 0 <= i < j < |a + b| ensures (a + b)[i].trackIdx <= (a + b)[j].trackIdx {
        if i < |a| && j >= |a| {
          assert (a + b)[i] in a;
          assert (a + b)[j] in b;
        }
      }
    }
  }

  lemma {:induction false} VisualByTrack(items: seq<Item>)
    requires ByTrack(items)
    ensures ByTrack(Visual(items))
  {
    if items != [] {
      var n := |items|;
      var last := items[n - 1];
      VisualByTrack(items[..n - 1]);
      var v := Visual(items[..n - 1]);
      forall x | x in v ensures x.trackIdx <= last.trackIdx {
        var k :| 0 <= k < n - 1 && items[..n - 1][k] == x;
        assert items[k] == x;
      }
      if !IsAudioPath(last.clip.path) {
        forall i, j | 0 <= i < j < |v + [last]|
          ensures (v + [last])[i].trackIdx <= (v + [last])[j].trackIdx
        {
          if j == |v| { assert (v + [last])[i] in v; }
        }
      }
    }
  }

  lemma {:induction false} CandidatesByTrack(visual: seq<Item>, t0: int, t1: int)
    requires ByTrack(visual)
    ensures ByTrack(Candidates(visual, t0, t1))
  {
    if visual != [] {
      var n := |visual|;
      var init, last := visual[..n - 1], visual[n - 1];
      CandidatesByTrack(init, t0, t1);
      var c := Candidates(init, t0, t1);
      if last.start <= t0 && last.end >= t1 {
        assert Candidates(visual, t0, t1) == c + [last];
        CandidatesMembers(init, t0, t1);
        forall i, j | 0 <= i < j < |c + [last]|
          ensures (c + [last])[i].trackIdx <= (c + [last])[j].trackIdx
        {
          if j == |c| {
            var x := c[i];
            assert x in init;
            var k :| 0 <= k < n - 1 && init[k] == x;
            assert visual[k] == x;
          } else {
            assert (c + [last])[i] == c[i] && (c + [last])[j] == c[j];
          }
        }
      } else {
        assert Candidates(visual, t0, t1) == c + [];
      }
    }
  }

  /** A clip that may win the piece `[t0, t1]`: not audio-only, not an
      automatic gap, and covering the whole piece. */
  predicate Eligible(x: Item, t0: int, t1: int) {
    !IsAudioPath(x.clip.path) && !x.clip.isAutoGap && x.start <= t0 && t1 <= x.end
  }

  /** The first non-gap entry of a list is preceded only by gaps. */
  lemma {:induction false} FirstNonGapIndex(xs: seq<Item>)
    ensures var w := FirstNonGap(xs);
            w.Some? ==> exists k :: 0 <= k < |xs| && xs[k] == w.value &&
                                    forall i :: 0 <= i < k ==> xs[i].clip.isAutoGap
  {
    if xs != [] && xs[0].clip.isAutoGap {
      FirstNonGapIndex(xs[1..]);
      var w := FirstNonGap(xs);
      if w.Some? {
        var k :| 0 <= k < |xs[1..]| && xs[1..][k] == w.value &&
                 forall i :: 0 <= i < k ==> xs[1..][i].clip.isAutoGap;
        assert xs[k + 1] == w.value;
        forall i | 0 <= i < k + 1 ensures xs[i].clip.isAutoGap {
          if i > 0 { assert xs[i] == xs[1..][i - 1]; }
        }
      }
    } else if xs != [] {
      assert xs[0] == FirstNonGap(xs).value;
    }
  }

  /** The first non-gap entry of a concatenation. */
  lemma {:induction false} FirstNonGapAppend(a: seq<Item>, b: seq<Item>)
    ensures FirstNonGap(a + b) == if FirstNonGap(a).Some? then FirstNonGap(a) else FirstNonGap(b)
  {
    if a == [] {
      assert a + b == b;
    } else {
      assert (a + b)[0] == a[0];
      assert (a + b)[1..] == a[1..] + b;
      FirstNonGapAppend(a[1..], b);
    }
  }

  /** Adding one item at the end adds it to the candidates exactly when it
      is visual and covers the piece. */
  lemma CandidatesOfVisualSnoc(init: seq<Item>, last: Item, t0: int, t1: int)
    ensures Candidates(Visual(init + [last]), t0, t1)
            == Candidates(Visual(init), t0, t1)
               + (if !IsAudioPath(last.clip.path) && last.start <= t0 && last.end >= t1 then [last] else [])
  {
    var items := init + [last];
    assert items[..|items| - 1] == init;
    var v := Visual(init);
    if !IsAudioPath(last.clip.path) {
      assert Visual(items) == v + [last];
      assert (v + [last])[..|v|] == v;
    } else {
      assert Visual(items) == v + [];
      assert v + [] == v;
    }
  }

  /** Without the sort, the candidate scan picks the first eligible entry
      in storage order, and finds none exactly when none is eligible. */
  lemma {:induction false} FirstEligible(items: seq<Item>, t0: int, t1: int)
    ensures var w := FirstNonGap(Candidates(Visual(items), t0, t1));
            (w.Some? ==> exists k :: 0 <= k < |items| && items[k] == w.value &&
                                     forall i :: 0 <= i < k ==> !Eligible(items[i], t0, t1)) &&
            (w.None? ==> forall i :: 0 <= i < |items| ==> !Eligible(items[i], t0, t1))
  {
    if items != [] {
      var n := |items|;
      var init, last := items[..n - 1], items[n - 1];
      assert items == init + [last];
      FirstEligible(init, t0, t1);
      var c := Candidates(Visual(init), t0, t1);
      var more := if !IsAudioPath(last.clip.path) && last.start <= t0 && last.end >= t1 then [last] else [];
      CandidatesOfVisualSnoc(init, last, t0, t1);
      FirstNonGapAppend(c, more);
      EligibleStep(items, init, last, t0, t1, FirstNonGap(c), FirstNonGap(more));
    }
  }

  lemma EligibleStep(items: seq<Item>, init: seq<Item>, last: Item, t0: int, t1: int,
                     w0: Option<Item>, w1: Option<Item>)
    requires items == init + [last]
    requires w0.Some? ==> exists k :: 0 <= k < |init| && init[k] == w0.value &&
                                      forall i :: 0 <= i < k ==> !Eligible(init[i], t0, t1)
    requires w0.None? ==> forall i :: 0 <= i < |init| ==> !Eligible(init[i], t0, t1)
    requires w1 == FirstNonGap(if !IsAudioPath(last.clip.path) && last.start <= t0 && last.end >= t1 then [last] else [])
    ensures var w := if w0.Some? then w0 else w1;
            (w.Some? ==> exists k :: 0 <= k < |items| && items[k] == w.value &&
                                     forall i :: 0 <= i < k ==> !Eligible(items[i], t0, t1)) &&
            (w.None? ==> forall i :: 0 <= i < |items| ==> !Eligible(items[i], t0, t1))
  {
    var n := |items|;
    forall i | 0 <= i < n - 1 ensures items[i] == init[i] { }
    if w0.Some? {
      var k :| 0 <= k < |init| && init[k] == w0.value &&
               forall i :: 0 <= i < k ==> !Eligible(init[i], t0, t1);
      assert items[k] == w0.value;
    } else if w1.Some? {
      assert items[n - 1] == w1.value;
    } else {
      assert items[n - 1] == last;
    }
  }

  /** Who wins a piece: a clip of the timeline that is not audio-only and not
      an automatic gap, that covers the piece, and that lies on the
      lowest-numbered track among such clips; among several on that track,
      the first one stored wins. Filler exactly when there is none. */
  lemma WinnerIsTopmostVisualClip(tracks: seq<Track>, t0: int, t1: int)
    ensures var items := AllItems(tracks);
            var w := Winner(Visual(items), t0, t1);
            (w.Some? ==>
               w.value in items && !IsAudioPath(w.value.clip.path) && !w.value.clip.isAutoGap &&
               w.value.start <= t0 && t1 <= w.value.end &&
               forall y :: (y in items && !IsAudioPath(y.clip.path) && !y.clip.isAutoGap &&
                            y.start <= t0 && t1 <= y.end) ==> w.value.trackIdx <= y.trackIdx) &&
            (w.None? <==>
               forall y :: y in items && !IsAudioPath(y.clip.path) && y.start <= t0 && t1 <= y.end ==>
                           y.clip.isAutoGap)
    ensures var items := AllItems(tracks);
            var w := Winner(Visual(items), t0, t1);
            w.Some? ==> exists k :: 0 <= k < |items| && items[k] == w.value &&
                                    forall i :: 0 <= i < k ==> !Eligible(items[i], t0, t1)
  {
    var items := AllItems(tracks);
    AllItemsTracks(tracks);
    VisualByTrack(items);
    CandidatesByTrack(Visual(items), t0, t1);
    var c := Candidates(Visual(items), t0, t1);
    CandidatesMembers(Visual(items), t0, t1);
    SortByTrackOfOrdered(c);
    FirstNonGapOfOrdered(c);
    FirstNonGapNone(c);
    FirstEligible(items, t0, t1);
  }

  /** A won piece is read from inside the winning clip: from the winner's
      path, at the piece's offset from the clip's start, which is
      non-negative, and ending no later than the clip. Filler is read from
      offset 0. */
  lemma WinnerSegmentWithinClip(visual: seq<Item>, t0: int, t1: int)
    requires forall x :: x in visual ==> x.start == x.clip.start && x.end == x.clip.start + x.clip.duration
    ensures var s := SegmentFor(visual, t0, t1);
            !s.isGap ==> exists w :: w in visual && s.path == Some(w.clip.path) &&
                           0 <= s.sourceStartMs && s.sourceStartMs + s.durationMs <= w.clip.duration
    ensures var s := SegmentFor(visual, t0, t1);
            var w := Winner(visual, t0, t1);
            (w.Some? ==> w.value in visual && !s.isGap && s.path == Some(w.value.clip.path) &&
                         s.sourceStartMs == t0 - w.value.clip.start && 0 <= s.sourceStartMs &&
                         s.sourceStartMs + s.durationMs <= w.value.clip.duration) &&
            (w.None? ==> s == Segment(None, 0, t1 - t0, true))
  {
    var w := Winner(visual, t0, t1);
    if w.Some? {
      CandidatesMembers(visual, t0, t1);
      SortByTrackMembers(Candidates(visual, t0, t1));
      assert w.value in Candidates(visual, t0, t1);
    }
  }

  lemma {:induction false} SegmentsOfIncreasing(pts: seq<int>, visual: seq<Item>)
    requires Increasing(pts)
    ensures var segs := Segments(pts, visual);
            |segs| == (if pts == [] then 0 else |pts| - 1) &&
            forall i :: 0 <= i < |segs| ==> segs[i] == SegmentFor(visual, pts[i], pts[i + 1])
  {
    SegmentsLength(pts, visual);
    forall i | 0 <= i < |Segments(pts, visual)|
      ensures Segments(pts, visual)[i] == SegmentFor(visual, pts[i], pts[i + 1])
    {
      SegmentAt(pts, visual, i);
    }
  }

  lemma IncreasingPrefix(pts: seq<int>, k: nat)
    requires Increasing(pts) && k <= |pts|
    ensures Increasing(pts[..k])
  {
    var init := pts[..k];
    forall i, j | 0 <= i < j < |init| ensures init[i] < init[j] {
      assert init[i] == pts[i] && init[j] == pts[j];
    }
  }

  /** Over increasing points every gap gives one piece. */
  lemma {:induction false} SegmentsLength(pts: seq<int>, visual: seq<Item>)
    requires Increasing(pts)
    ensures |Segments(pts, visual)| == (if pts == [] then 0 else |pts| - 1)
    decreases |pts|
  {
    if |pts| >= 2 {
      var n := |pts|;
      IncreasingPrefix(pts, n - 1);
      SegmentsLength(pts[..n - 1], visual);
      assert pts[n - 2] < pts[n - 1];
    }
  }

  /** Piece `i` covers the points `i` and `i + 1`. */
  lemma {:induction false} SegmentAt(pts: seq<int>, visual: seq<Item>, i: nat)
    requires Increasing(pts) && i + 1 < |pts|
    ensures |Segments(pts, visual)| == |pts| - 1
    ensures Segments(pts, visual)[i] == SegmentFor(visual, pts[i], pts[i + 1])
    decreases |pts|
  {
    var n := |pts|;
    SegmentsLength(pts, visual);
    IncreasingPrefix(pts, n - 1);
    var init := pts[..n - 1];
    SegmentsLength(init, visual);
    assert pts[n - 2] < pts[n - 1];
    assert Segments(pts, visual) == Segments(init, visual) + [SegmentFor(visual, pts[n - 2], pts[n - 1])];
    if i < n - 2 {
      SegmentAt(init, visual, i);
      assert init[i] == pts[i] && init[i + 1] == pts[i + 1];
    }
  }

  function TotalDuration(segs: seq<Segment>): int {
    if segs == [] then 0 else TotalDuration(segs[..|segs| - 1]) + segs[|segs| - 1].durationMs
  }

  /** The pieces tile the span from the first to the last cut point: every
      piece has positive length (so the `duration <= 0` skip never fires) and
      the lengths add up to the span. */
  lemma {:induction false} SegmentsTile(pts: seq<int>, visual: seq<Item>)
    requires Increasing(pts) && |pts| > 0
    ensures var segs := Segments(pts, visual);
            |segs| == |pts| - 1 &&
            (forall i :: 0 <= i < |segs| ==> segs[i].durationMs > 0) &&
            TotalDuration(segs) == pts[|pts| - 1] - pts[0]
  {
    SegmentsOfIncreasing(pts, visual);
    if |pts| >= 2 {
      var n := |pts|;
      SegmentsTile(pts[..n - 1], visual);
      var segs := Segments(pts, visual);
      assert segs[..|segs| - 1] == Segments(pts[..n - 1], visual);
    }
  }

  /** The latest clip end, or 0. */
  function MaxEnd(items: seq<Item>): (m: int)
    ensures m >= 0
  {
    if items == [] then 0
    else
      var prev := MaxEnd(items[..|items| - 1]);
      var e := items[|items| - 1].end;
      if e > prev then e else prev
  }

  lemma {:induction false} MaxEndBounds(items: seq<Item>)
    requires forall k :: 0 <= k < |items| ==> 0 <= items[k].start <= items[k].end
    ensures MaxEnd(items) in CutPoints(items)
    ensures forall t :: t in CutPoints(items) ==> 0 <= t <= MaxEnd(items)
  {
    if items != [] {
      var n := |items|;
      MaxEndBounds(items[..n - 1]);
      assert CutPoints(items) == CutPoints(items[..n - 1]) + {items[n - 1].start, items[n - 1].end};
    }
  }

  /** With clips starting at 0 or later and of non-negative length, the
      rendered video starts at 0 and lasts until the latest clip end. */
  lemma FlattenedCoversTimeline(tracks: seq<Track>)
    requires forall t, c :: 0 <= t < |tracks| && c in tracks[t].clips ==> c.start >= 0 && c.duration >= 0
    ensures var items := AllItems(tracks);
            var pts := Sorted(CutPoints(items));
            var segs := Flattened(tracks);
            |segs| == |pts| - 1 && pts[0] == 0 &&
            (forall i :: 0 <= i < |segs| ==> segs[i] == SegmentFor(Visual(items), pts[i], pts[i + 1])) &&
            TotalDuration(segs) == MaxEnd(items)
  {
    var items := AllItems(tracks);
    AllItemsClips(tracks);
    forall k | 0 <= k < |items| ensures 0 <= items[k].start <= items[k].end {
      assert items[k] in items;
    }
    MaxEndBounds(items);
    var pts := Sorted(CutPoints(items));
    assert 0 in Elems(pts);
    assert MaxEnd(items) in Elems(pts);
    assert pts[0] == 0 by {
      var i :| 0 <= i < |pts| && pts[i] == 0;
      assert pts[0] in Elems(pts);
    }
    assert pts[|pts| - 1] == MaxEnd(items) by {
      var i :| 0 <= i < |pts| && pts[i] == MaxEnd(items);
      assert pts[|pts| - 1] in Elems(pts);
    }
    SegmentsTile(pts, Visual(items));
    SegmentsOfIncreasing(pts, Visual(items));
  }

  lemma {:induction false} AllItemsClips(tracks: seq<Track>)
    ensures forall x :: x in AllItems(tracks) ==>
              x.trackIdx < |tracks| && x.clip in tracks[x.trackIdx].clips && x == ItemOf(x.trackIdx, x.clip)
  {
    if tracks != [] {
      var n := |tracks|;
      AllItemsClips(tracks[..n - 1]);
      forall x | x in AllItems(tracks)
        ensures x.trackIdx < |tracks| && x.clip in tracks[x.trackIdx].clips && x == ItemOf(x.trackIdx, x.clip)
      {
        if x in AllItems(tracks[..n - 1]) {
          assert tracks[..n - 1][x.trackIdx] == tracks[x.trackIdx];
        }
      }
    }
  }

  // ---------------------------------------------------------------------
  // The method, loop by loop

  lemma PointsAppend(items: seq<Item>, it: Item)
    ensures CutPoints(items + [it]) == CutPoints(items) + {it.start, it.end}
  {
    assert (items + [it])[..|items|] == items;
  }

  lemma VisualAppend(items: seq<Item>, it: Item)
    ensures Visual(items + [it]) == Visual(items) + (if IsAudioPath(it.clip.path) then [] else [it])
  {
    assert (items + [it])[..|items|] == items;
  }

  lemma AllItemsStep(tracks: seq<Track>, t: nat)
    requires t < |tracks|
    ensures AllItems(tracks[..t + 1]) == AllItems(tracks[..t]) + TrackItems(t, tracks[t].clips)
  {
    assert tracks[..t + 1][..t] == tracks[..t];
  }

  lemma TrackItemsStep(t: nat, clips: seq<Clip>, j: nat)
    requires j < |clips|
    ensures TrackItems(t, clips[..j + 1]) == TrackItems(t, clips[..j]) + [ItemOf(t, clips[j])]
  {
  }

  /** The loop over tracks that fills `cut_points` and `visual_clips_map`. */
  method CollectPoints(tracks: seq<Track>) returns (cutPoints: set<int>, visual: seq<Item>)
    ensures cutPoints == CutPoints(AllItems(tracks))
    ensures visual == Visual(AllItems(tracks))
  {
    cutPoints := {0};
    visual := [];
    var t := 0;
    while t < |tracks|
      invariant 0 <= t <= |tracks|
      invariant cutPoints == CutPoints(AllItems(tracks[..t]))
      invariant visual == Visual(AllItems(tracks[..t]))
    {
      cutPoints, visual := CollectTrack(t, tracks[t].clips, cutPoints, visual, AllItems(tracks[..t]));
      AllItemsStep(tracks, t);
      t := t + 1;
    }
    assert tracks[..|tracks|] == tracks;
  }

  /** One more clip of track `t` adds its item at the end. */
  lemma NextItems(items0: seq<Item>, t: nat, clips: seq<Clip>, j: nat)
    requires j < |clips|
    ensures items0 + TrackItems(t, clips[..j + 1]) == items0 + TrackItems(t, clips[..j]) + [ItemOf(t, clips[j])]
  {
    TrackItemsStep(t, clips, j);
  }

  /** One more item adds its two boundaries to the cut points. */
  lemma CutPointsUpdate(items: seq<Item>, t: nat, clip: Clip, cutPoints: set<int>)
    requires cutPoints == CutPoints(items)
    ensures cutPoints + {clip.start} + {clip.start + clip.duration} == CutPoints(items + [ItemOf(t, clip)])
  {
    PointsAppend(items, ItemOf(t, clip));
    assert cutPoints + {clip.start} + {clip.start + clip.duration} == cutPoints + {clip.start, clip.start + clip.duration};
  }

  /** One more item joins the visual items unless it is audio. */
  lemma VisualUpdate(items: seq<Item>, t: nat, clip: Clip, visual: seq<Item>)
    requires visual == Visual(items)
    ensures IsAudioPath(clip.path) ==> Visual(items + [ItemOf(t, clip)]) == visual
    ensures !IsAudioPath(clip.path) ==> Visual(items + [ItemOf(t, clip)]) == visual + [ItemOf(t, clip)]
  {
    var it := ItemOf(t, clip);
    assert (items + [it])[..|items|] == items;
    if IsAudioPath(clip.path) {
      assert Visual(items + [it]) == Visual(items) + [];
    }
  }

  /** The inner loop, over the clips of track `t`. */
  method CollectTrack(t: nat, clips: seq<Clip>, cutPoints0: set<int>, visual0: seq<Item>,
                      ghost items0: seq<Item>)
    returns (cutPoints: set<int>, visual: seq<Item>)
    requires cutPoints0 == CutPoints(items0) && visual0 == Visual(items0)
    ensures cutPoints == CutPoints(items0 + TrackItems(t, clips))
    ensures visual == Visual(items0 + TrackItems(t, clips))
  {
    cutPoints, visual := cutPoints0, visual0;
    var j := 0;
    assert items0 + TrackItems(t, clips[..0]) == items0;
    ghost var items := items0;
    while j < |clips|
      invariant 0 <= j <= |clips|
      invariant items == items0 + TrackItems(t, clips[..j])
      invariant cutPoints == CutPoints(items) && visual == Visual(items)
    {
      var clip := clips[j];
      NextItems(items0, t, clips, j);
      CutPointsUpdate(items, t, clip, cutPoints);
      VisualUpdate(items, t, clip, visual);
      cutPoints := cutPoints + {clip.start};
      cutPoints := cutPoints + {clip.start + clip.duration};
      if !IsAudioPath(clip.path) {
        visual := visual + [ItemOf(t, clip)];
      }
      items := items + [ItemOf(t, clip)];
      j := j + 1;
    }
    assert clips[..|clips|] == clips;
  }

  lemma SortedStep(s: set<int>, p: seq<int>, rest: set<int>, m: int)
    requires Increasing(p) && Elems(p) + rest == s && Elems(p) !! rest
    requires forall i, x :: 0 <= i < |p| && x in rest ==> p[i] < x
    requires m in rest && forall x :: x in rest ==> m <= x
    ensures Increasing(p + [m]) && Elems(p + [m]) + (rest - {m}) == s && Elems(p + [m]) !! (rest - {m})
    ensures forall i, x :: 0 <= i < |p + [m]| && x in rest - {m} ==> (p + [m])[i] < x
  {
    assert Elems(p + [m]) == Elems(p) + {m};
  }

  /** `sorted(list(cut_points))`. */
  method SortedPoints(s: set<int>) returns (p: seq<int>)
    ensures p == Sorted(s)
  {
    p := [];
    var rest := s;
    while rest != {}
      invariant Increasing(p) && Elems(p) + rest == s && Elems(p) !! rest
      invariant forall i, x :: 0 <= i < |p| && x in rest ==> p[i] < x
      decreases |rest|
    {
      ghost var least := MinExists(rest);
      var m :| m in rest && forall x :: x in rest ==> m <= x;
      SortedStep(s, p, rest, m);
      p := p + [m];
      rest := rest - {m};
    }
    SortedUnique(p, Sorted(s));
  }

  /** The candidate filter, the sort by track and the search for the first
      clip that is not an automatic gap. */
  method FindWinner(visual: seq<Item>, t0: int, t1: int) returns (winner: Option<Item>)
    ensures winner == Winner(visual, t0, t1)
  {
    var candidates: seq<Item> := [];
    var k := 0;
    while k < |visual|
      invariant 0 <= k <= |visual|
      invariant candidates == Candidates(visual[..k], t0, t1)
    {
      var item := visual[k];
      if item.start <= t0 && item.end >= t1 {
        candidates := candidates + [item];
      }
      assert visual[..k + 1][..k] == visual[..k];
      k := k + 1;
    }
    assert visual[..|visual|] == visual;
    var ordered := SortByTrack(candidates);
    winner := None;
    var j := 0;
    while j < |ordered|
      invariant 0 <= j <= |ordered|
      invariant FirstNonGap(ordered) == FirstNonGap(ordered[j..])
    {
      if !ordered[j].clip.isAutoGap {
        winner := Some(ordered[j]);
        return;
      }
      assert ordered[j..][1..] == ordered[j + 1..];
      j := j + 1;
    }
  }

  /** The loop over consecutive cut points. */
  lemma SegmentsStep(pts: seq<int>, visual: seq<Item>, i: nat)
    requires i + 1 < |pts|
    ensures Segments(pts[..i + 2], visual) ==
              Segments(pts[..i + 1], visual)
              + (if pts[i + 1] - pts[i] <= 0 then [] else [SegmentFor(visual, pts[i], pts[i + 1])])
  {
    assert pts[..i + 2][..i + 1] == pts[..i + 1];
  }

  method BuildSegments(pts: seq<int>, visual: seq<Item>) returns (segments: seq<Segment>)
    ensures segments == Segments(pts, visual)
  {
    segments := [];
    if |pts| == 0 {
      return;
    }
    var i := 0;
    while i < |pts| - 1
      invariant 0 <= i <= |pts| - 1
      invariant segments == Segments(pts[..i + 1], visual)
    {
      var tStart, tEnd := pts[i], pts[i + 1];
      var duration := tEnd - tStart;
      SegmentsStep(pts, visual, i);
      if duration > 0 {
        var winner := FindWinner(visual, tStart, tEnd);
        var seg := if winner.Some? then Segment(Some(winner.value.clip.path), tStart - winner.value.clip.start, duration, false)
                   else Segment(None, 0, duration, true);
        assert seg == SegmentFor(visual, tStart, tEnd);
        segments := segments + [seg];
      }
      i := i + 1;
    }
    assert pts[..|pts|] == pts;
  }

  /** `_calculate_flattened_timeline`. */
  method FlattenedTimeline(tracks: seq<Track>) returns (segments: seq<Segment>)
    ensures segments == Flattened(tracks)
  {
    var cutPoints, visual := CollectPoints(tracks);
    var pts := SortedPoints(cutPoints);
    segments := BuildSegments(pts, visual);
  }
}
