/** pregatireOpperatii/editor/History.py: the editor's history as a
    singleton. The first construction creates the instance and locks the
    class; later constructions return that instance, but Python still runs
    `__init__` on it, so its stacks start empty again. `undo` is a stub
    that returns None. Timeline states are left abstract (`T`). */
module EditorHistory {
  import opened Wrappers
  import opened HistoryStacks

  class History<T> {
    var undo: seq<T>
    var redo: seq<T>

    function State(): Stacks<T>
      reads this
    {
      Stacks(undo, redo)
    }

    /** `object.__new__` followed by `__init__`. */
    constructor ()
      ensures undo == [] && redo == []
    {
      undo := [];
      redo := [];
    }

    /** `__init__` run again on the shared instance. */
    method Init()
      modifies this
      ensures undo == [] && redo == []
    {
      undo := [];
      redo := [];
    }

    /** The stub: nothing happens and nothing is returned. */
    method Undo() returns (r: Option<T>)
      ensures r == None
    {
      r := None;
    }

    method Redo() returns (q: Result<T>)
      modifies this
      ensures State() == HistoryStacks.Redo(old(State())).stacks
      ensures q == HistoryStacks.Redo(old(State())).item
    {
      if redo == [] {
        return Err(IndexError(EmptyPop));
      }
      var top := redo[|redo| - 1];
      redo := redo[..|redo| - 1];
      undo := undo + [top];
      q := Ok(top);
    }

    method ClearHistory()
      modifies this
      ensures State() == HistoryStacks.Clear(old(State()))
    {
      undo := [];
      redo := [];
    }

    method Save(q: T)
      modifies this
      ensures State() == HistoryStacks.Save(old(State()), q)
    {
      undo := undo + [q];
    }
  }

  /** The class-level attributes `_instance` and `_locked`. */
  class HistoryClass<T> {
    var instance: History?<T>
    var locked: bool

    /** Locked exactly once an instance exists. */
    predicate Valid()
      reads this
    {
      locked <==> instance != null
    }

    constructor ()
      ensures Valid() && !locked
    {
      instance := null;
      locked := false;
    }

    /** `History()`: the same object every time after the first, always
        with empty stacks. */
    method Construct() returns (h: History<T>)
      requires Valid()
      modifies this, instance
      ensures Valid() && locked && h == instance
      ensures old(locked) ==> h == old(instance)
      ensures !old(locked) ==> fresh(h)
      ensures h.undo == [] && h.redo == []
    {
      if !locked {
        locked := true;
        instance := new History();
      } else {
        instance.Init();
      }
      h := instance;
    }
  }

  /** Two constructions in a row give the same object. */
  method ConstructTwice<T>(cls: HistoryClass<T>) returns (a: History<T>, b: History<T>)
    requires cls.Valid()
    modifies cls, cls.instance
    ensures a == b && b.undo == [] && b.redo == []
  {
    a := cls.Construct();
    b := cls.Construct();
  }
}
