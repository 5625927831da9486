/** The undo/redo stacks shared by the two history prototypes
    (pregatireOpperatii/main2.py and pregatireOpperatii/editor/History.py):
    two Python lists used as stacks, the top at the end. Popping an empty
    list raises IndexError, modelled as an error result that changes
    nothing. */
module HistoryStacks {
  import opened Wrappers

  datatype Stacks<T> = Stacks(undo: seq<T>, redo: seq<T>)

  /** Python's message for `[].pop()`. */
  const EmptyPop: string := "pop from empty list"

  /** The outcome of moving the top of one stack onto the other: the new
      stacks and the moved item, or the IndexError of the pop. */
  datatype Moved<T> = Moved(stacks: Stacks<T>, item: Result<T>)

  /** `save`: push onto the undo stack. */
  function Save<T>(s: Stacks<T>, x: T): (r: Stacks<T>)
    ensures r.redo == s.redo && |r.undo| == |s.undo| + 1
    ensures r.undo[..|s.undo|] == s.undo && r.undo[|s.undo|] == x
  {
    Stacks(s.undo + [x], s.redo)
  }

  /** `undo`: pop the top of undo and push it onto redo. */
  function Undo<T>(s: Stacks<T>): (m: Moved<T>) {
    if s.undo == [] then Moved(s, Err(IndexError(EmptyPop)))
    else
      var top := s.undo[|s.undo| - 1];
      Moved(Stacks(s.undo[..|s.undo| - 1], s.redo + [top]), Ok(top))
  }

  /** `redo`: pop the top of redo and push it onto undo. */
  function Redo<T>(s: Stacks<T>): (m: Moved<T>) {
    if s.redo == [] then Moved(s, Err(IndexError(EmptyPop)))
    else
      var top := s.redo[|s.redo| - 1];
      Moved(Stacks(s.undo + [top], s.redo[..|s.redo| - 1]), Ok(top))
  }

  /** `clear_history`. */
  function Clear<T>(s: Stacks<T>): (r: Stacks<T>)
    ensures r.undo == [] && r.redo == []
  {
    Stacks([], [])
  }

  /** Every item is kept: the stacks only trade their tops. */
  function Total<T>(s: Stacks<T>): multiset<T> {
    multiset(s.undo) + multiset(s.redo)
  }

  /** Undo fails exactly on an empty undo stack, leaving everything alone;
      otherwise it returns the last saved item and keeps every item. */
  lemma UndoMovesTop<T>(s: Stacks<T>)
    ensures Undo(s).item.Err? <==> s.undo == []
    ensures s.undo == [] ==> Undo(s).stacks == s
    ensures s.undo != [] ==> Undo(s).item == Ok(s.undo[|s.undo| - 1]) &&
                             |Undo(s).stacks.undo| == |s.undo| - 1 &&
                             Undo(s).stacks.redo[|Undo(s).stacks.redo| - 1] == s.undo[|s.undo| - 1]
    ensures Total(Undo(s).stacks) == Total(s)
  {
    if s.undo != [] {
      assert s.undo == s.undo[..|s.undo| - 1] + [s.undo[|s.undo| - 1]];
    }
  }

  lemma RedoMovesTop<T>(s: Stacks<T>)
    ensures Redo(s).item.Err? <==> s.redo == []
    ensures s.redo == [] ==> Redo(s).stacks == s
    ensures s.redo != [] ==> Redo(s).item == Ok(s.redo[|s.redo| - 1]) &&
                             |Redo(s).stacks.redo| == |s.redo| - 1 &&
                             Redo(s).stacks.undo[|Redo(s).stacks.undo| - 1] == s.redo[|s.redo| - 1]
    ensures Total(Redo(s).stacks) == Total(s)
  {
    if s.redo != [] {
      assert s.redo == s.redo[..|s.redo| - 1] + [s.redo[|s.redo| - 1]];
    }
  }

  /** Redo right after a successful undo restores both stacks and hands
      back the same item; and the other way round. */
  lemma UndoThenRedo<T>(s: Stacks<T>)
    requires s.undo != []
    ensures Redo(Undo(s).stacks).stacks == s
    ensures Redo(Undo(s).stacks).item == Undo(s).item
  {
    var top := s.undo[|s.undo| - 1];
    assert s.undo[..|s.undo| - 1] + [top] == s.undo;
    assert (s.redo + [top])[..|s.redo|] == s.redo;
  }

  lemma RedoThenUndo<T>(s: Stacks<T>)
    requires s.redo != []
    ensures Undo(Redo(s).stacks).stacks == s
    ensures Undo(Redo(s).stacks).item == Redo(s).item
  {
    var top := s.redo[|s.redo| - 1];
    assert s.redo[..|s.redo| - 1] + [top] == s.redo;
    assert (s.undo + [top])[..|s.undo|] == s.undo;
  }

  /** Saving then undoing hands back the saved item, leaves the undo stack
      as before and puts the item on top of redo. */
  lemma SaveThenUndo<T>(s: Stacks<T>, x: T)
    ensures Undo(Save(s, x)).item == Ok(x)
    ensures Undo(Save(s, x)).stacks == Stacks(s.undo, s.redo + [x])
  {
    assert (s.undo + [x])[..|s.undo|] == s.undo;
  }

  /** `n` undos in a row on a stack of at least `n` items move its top `n`
      items, in reverse order, onto redo. */
  function Undos<T>(s: Stacks<T>, n: nat): Stacks<T>
    decreases n
  {
    if n == 0 then s else Undos(Undo(s).stacks, n - 1)
  }

  function Reversed<T>(s: seq<T>): (r: seq<T>)
    ensures |r| == |s|
  {
    if s == [] then [] else [s[|s| - 1]] + Reversed(s[..|s| - 1])
  }

  lemma {:induction false} UndosReverse<T>(s: Stacks<T>, n: nat)
    requires n <= |s.undo|
    ensures Undos(s, n) ==
            Stacks(s.undo[..|s.undo| - n], s.redo + Reversed(s.undo[|s.undo| - n..]))
    decreases n
  {
    if n > 0 {
      var k := |s.undo|;
      var t := Undo(s).stacks;
      assert t == Stacks(s.undo[..k - 1], s.redo + [s.undo[k - 1]]);
      UndosReverse(t, n - 1);
      assert t.undo[..|t.undo| - (n - 1)] == s.undo[..k - n];
      var top := s.undo[k - n..];
      assert top[..|top| - 1] == t.undo[|t.undo| - (n - 1)..];
      assert top[|top| - 1] == s.undo[k - 1];
      assert Reversed(top) == [s.undo[k - 1]] + Reversed(t.undo[|t.undo| - (n - 1)..]);
    }
  }
}
