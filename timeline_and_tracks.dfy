/** TimelineAndTracks.py, `ensure_cursor_visible`: keeps the playhead's x
    position inside the scrolled viewport with a 100 pixel margin on either
    side. Both boundaries come from the scroll value read on entry, so when
    the viewport is narrower than two margins both corrections can fire and
    the second write wins. The scroll bar's own clamping to its range is not
    part of this model. */
module TimelineAndTracks {

  const Margin: int := 100

  /** The values written to the scroll bar, in order. */
  function ScrollWrites(x: int, viewport: int, scroll: int): (w: seq<int>)
    ensures |w| <= 2
    ensures (x > scroll + viewport - Margin || x < scroll + Margin) <==> w != []
  {
    var right := if x > scroll + viewport - Margin then [x - viewport + Margin] else [];
    var left := if x < scroll + Margin then [if x - Margin < 0 then 0 else x - Margin] else [];
    right + left
  }

  /** The scroll value once the cursor has been brought into view. */
  function CursorScroll(x: int, viewport: int, scroll: int): int {
    var w := ScrollWrites(x, viewport, scroll);
    if w == [] then scroll else w[|w| - 1]
  }

  /** A cursor already inside the margins leaves the scroll bar untouched. */
  lemma InsideUnchanged(x: int, viewport: int, scroll: int)
    requires scroll + Margin <= x <= scroll + viewport - Margin
    ensures ScrollWrites(x, viewport, scroll) == []
    ensures CursorScroll(x, viewport, scroll) == scroll
  {
  }

  /** Past the right boundary the cursor ends exactly one margin before the
      right edge; before the left boundary it ends one margin after the left
      edge, or the view goes back to 0. */
  lemma CorrectionTargets(x: int, viewport: int, scroll: int)
    requires viewport >= 2 * Margin
    ensures x > scroll + viewport - Margin ==> CursorScroll(x, viewport, scroll) + viewport - Margin == x
    ensures x < scroll + Margin ==>
              CursorScroll(x, viewport, scroll) == (if x < Margin then 0 else x - Margin)
  {
  }

  /** In a viewport at least two margins wide, starting from a non-negative
      scroll value, the cursor ends inside the visible area and at least a
      margin from the right edge, and at least a margin from the left edge
      unless the view is at 0. */
  lemma CursorEndsVisible(x: int, viewport: int, scroll: int)
    requires viewport >= 2 * Margin && scroll >= 0
    ensures var r := CursorScroll(x, viewport, scroll);
            r >= 0 && x <= r + viewport - Margin && (x >= Margin ==> r + Margin <= x)
    ensures |ScrollWrites(x, viewport, scroll)| <= 1
  {
  }

  /** In a viewport narrower than two margins a cursor can be past both
      boundaries; the left correction is written last and decides. */
  lemma NarrowLeftWins(x: int, viewport: int, scroll: int)
    requires x > scroll + viewport - Margin && x < scroll + Margin
    ensures |ScrollWrites(x, viewport, scroll)| == 2
    ensures CursorScroll(x, viewport, scroll) == (if x < Margin then 0 else x - Margin)
  {
  }

  /** The scroll area around the timeline tracks. */
  class ScrollArea {
    const viewportWidth: int
    var scrollValue: int
    /** Every value written to the horizontal scroll bar, oldest first. */
    var writes: seq<int>

    constructor (viewport: int, scroll: int)
      ensures viewportWidth == viewport && scrollValue == scroll && writes == []
    {
      viewportWidth := viewport;
      scrollValue := scroll;
      writes := [];
    }

    method EnsureCursorVisible(x: int)
      modifies this
      ensures scrollValue == CursorScroll(x, viewportWidth, old(scrollValue))
      ensures writes == old(writes) + ScrollWrites(x, viewportWidth, old(scrollValue))
    {
      var currentScroll := scrollValue;
      var rightBoundary := currentScroll + viewportWidth - Margin;
      if x > rightBoundary {
        var target := x - viewportWidth + Margin;
        scrollValue := target;
        writes := writes + [target];
      }
      var leftBoundary := currentScroll + Margin;
      if x < leftBoundary {
        var target := x - Margin;
        if target < 0 {
          target := 0;
        }
        scrollValue := target;
        writes := writes + [target];
      }
    }
  }
}
