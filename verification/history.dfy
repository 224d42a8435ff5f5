/** The canvas's undo/redo stacks together with the shape list they act on,
    as a value: what `executeCommand`, `undo` and `redo` do to it, and the
    laws that relate them. The top of a stack is its last element. */
module UndoHistory {
  import opened Lists
  import opened Shapes
  import opened Commands

  datatype History = History(elems: seq<Shape>, undo: seq<AddShapeCommand>, redo: seq<AddShapeCommand>)

  /** What the stack discipline keeps: the shapes added by the commands on the
      undo stack are, in order, the tail of the list; the list has no duplicates;
      the shapes of the commands on the redo stack are distinct and not in the list. */
  predicate Coherent(h: History)
  {
    && |h.undo| <= |h.elems|
    && h.elems[|h.elems| - |h.undo|..] == Targets(h.undo)
    && NoDup(h.elems)
    && NoDup(Targets(h.redo))
    && forall s :: s in Targets(h.redo) ==> s !in h.elems
  }

  /** `executeCommand(c)`: run `c`, push it on the undo stack, clear the redo stack. */
  function Executed(h: History, c: AddShapeCommand): History
  {
    History(h.elems + [c.shape], h.undo + [c], [])
  }

  /** `undo`: nothing on an empty undo stack; otherwise pop the top command,
      undo it and push it on the redo stack. */
  function Undone(h: History): History
  {
    if h.undo == [] then h
    else
      var c := h.undo[|h.undo| - 1];
      History(RemoveFirst(h.elems, c.shape), h.undo[..|h.undo| - 1], h.redo + [c])
  }

  /** `redo`: nothing on an empty redo stack; otherwise pop the top command,
      execute it and push it on the undo stack. */
  function Redone(h: History): History
  {
    if h.redo == [] then h
    else
      var c := h.redo[|h.redo| - 1];
      History(h.elems + [c.shape], h.undo + [c], h.redo[..|h.redo| - 1])
  }

  /** Executing the commands of `cs` one after another, first to last. */
  function ExecutedAll(h: History, cs: seq<AddShapeCommand>): History
    decreases |cs|
  {
    if cs == [] then h else Executed(ExecutedAll(h, cs[..|cs| - 1]), cs[|cs| - 1])
  }

  /** The empty list with two empty stacks keeps the discipline. */
  lemma EmptyCoherent()
    ensures Coherent(History([], [], []))
  {
    assert Targets([]) == [];
  }

  lemma TargetsAppend(cs: seq<AddShapeCommand>, c: AddShapeCommand)
    ensures Targets(cs + [c]) == Targets(cs) + [c.shape]
  {
  }

  lemma TargetsPrefix(cs: seq<AddShapeCommand>, n: nat)
    requires n <= |cs|
    ensures Targets(cs[..n]) == Targets(cs)[..n]
  {
  }

  /** Executing a command whose shape is not yet in the list keeps the discipline. */
  lemma ExecutedCoherent(h: History, c: AddShapeCommand)
    requires Coherent(h) && c.shape !in h.elems
    ensures Coherent(Executed(h, c))
  {
    var e := Executed(h, c);
    TargetsAppend(h.undo, c);
    assert e.elems[|e.elems| - |e.undo|..] == h.elems[|h.elems| - |h.undo|..] + [c.shape];
    NoDupAppend(h.elems, c.shape);
  }

  /** Undo keeps the discipline. */
  lemma UndoneCoherent(h: History)
    requires Coherent(h)
    ensures Coherent(Undone(h))
  {
    if h.undo != [] {
      var n, u := |h.elems|, |h.undo|;
      var c := h.undo[u - 1];
      assert Targets(h.undo)[u - 1] == c.shape;
      assert h.elems[n - 1] == c.shape by {
        assert h.elems[n - u..][u - 1] == h.elems[n - 1];
      }
      RemoveLastDistinct(h.elems);
      var e := Undone(h);
      assert e.elems == h.elems[..n - 1];
      TargetsPrefix(h.undo, u - 1);
      assert e.elems[|e.elems| - |e.undo|..] == h.elems[n - u..][..u - 1];
      NoDupPrefix(h.elems, n - 1);
      TargetsAppend(h.redo, c);
      assert c.shape !in Targets(h.redo) by {
        assert c.shape in h.elems;
      }
      NoDupAppend(Targets(h.redo), c.shape);
      assert c.shape !in e.elems by {
        forall j | 0 <= j < n - 1 ensures h.elems[j] != c.shape {
          assert h.elems[j] != h.elems[n - 1];
        }
      }
      forall s | s in Targets(e.redo) ensures s !in e.elems {
        if s != c.shape {
          assert s in Targets(h.redo);
        }
      }
    }
  }

  /** Redo keeps the discipline. */
  lemma RedoneCoherent(h: History)
    requires Coherent(h)
    ensures Coherent(Redone(h))
  {
    if h.redo != [] {
      var r := |h.redo|;
      var c := h.redo[r - 1];
      var e := Redone(h);
      assert Targets(h.redo)[r - 1] == c.shape;
      assert c.shape !in h.elems;
      TargetsAppend(h.undo, c);
      assert e.elems[|e.elems| - |e.undo|..] == h.elems[|h.elems| - |h.undo|..] + [c.shape];
      NoDupAppend(h.elems, c.shape);
      TargetsPrefix(h.redo, r - 1);
      NoDupPrefix(Targets(h.redo), r - 1);
      forall s | s in Targets(e.redo) ensures s !in e.elems {
        var j :| 0 <= j < r - 1 && Targets(h.redo)[j] == s;
        assert Targets(h.redo)[j] != Targets(h.redo)[r - 1];
      }
    }
  }

  /** On a coherent history, undo pops the last shape of the list: the shape
      of the top command. */
  lemma UndoPopsLast(h: History)
    requires Coherent(h) && h.undo != []
    ensures h.elems[|h.elems| - 1] == h.undo[|h.undo| - 1].shape
    ensures Undone(h) == History(h.elems[..|h.elems| - 1], h.undo[..|h.undo| - 1], h.redo + [h.undo[|h.undo| - 1]])
  {
    var n, u := |h.elems|, |h.undo|;
    assert Targets(h.undo)[u - 1] == h.undo[u - 1].shape;
    assert h.elems[n - u..][u - 1] == h.elems[n - 1];
    RemoveLastDistinct(h.elems);
  }

  /** Undo followed by redo restores the list and both stacks. */
  lemma UndoThenRedo(h: History)
    requires Coherent(h) && h.undo != []
    ensures Redone(Undone(h)) == h
  {
    var n, u := |h.elems|, |h.undo|;
    var c := h.undo[u - 1];
    UndoPopsLast(h);
    assert (h.redo + [c])[..|h.redo|] == h.redo;
    assert h.elems[..n - 1] + [h.elems[n - 1]] == h.elems;
    assert h.undo[..u - 1] + [c] == h.undo;
  }

  /** Redo followed by undo restores the list and both stacks. */
  lemma RedoThenUndo(h: History)
    requires Coherent(h) && h.redo != []
    ensures Undone(Redone(h)) == h
  {
    var r := |h.redo|;
    var c := h.redo[r - 1];
    assert Targets(h.redo)[r - 1] == c.shape;
    RemoveAppended(h.elems, c.shape);
    assert (h.undo + [c])[..|h.undo|] == h.undo;
    assert h.redo[..r - 1] + [c] == h.redo;
  }

  /** Executing a command on a shape not yet in the list and undoing it restores
      the list and the undo stack; the command is then the only one to redo. */
  lemma ExecuteThenUndo(h: History, c: AddShapeCommand)
    requires c.shape !in h.elems
    ensures Undone(Executed(h, c)) == History(h.elems, h.undo, [c])
  {
    RemoveAppended(h.elems, c.shape);
    assert (h.undo + [c])[..|h.undo|] == h.undo;
  }

  /** Executing several commands appends their shapes to the list and the
      commands to the undo stack, in order; the redo stack is emptied unless
      there was nothing to execute. */
  lemma {:induction false} ExecutedAllAppends(h: History, cs: seq<AddShapeCommand>)
    ensures ExecutedAll(h, cs).elems == h.elems + Targets(cs)
    ensures ExecutedAll(h, cs).undo == h.undo + cs
    ensures ExecutedAll(h, cs).redo == if cs == [] then h.redo else []
    decreases |cs|
  {
    if cs != [] {
      var init := cs[..|cs| - 1];
      ExecutedAllAppends(h, init);
      TargetsAppend(init, cs[|cs| - 1]);
      assert init + [cs[|cs| - 1]] == cs;
    }
  }
}
