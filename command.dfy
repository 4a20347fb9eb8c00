/** Undo/redo invoker: commands on documents are executed, undone and
    redone through two stacks. A command's own Execute and Undo only print a
    line; here they append that line to a console log. */
module CommandPattern {

  datatype Command = Display(doc: string) | Delete(doc: string)

  /** The line DisplayCommand / DeleteCommand prints when executed. */
  function ExecuteLine(c: Command): string {
    match c
    case Display(doc) => "Display: " + doc
    case Delete(doc) => "Delete: " + doc
  }

  /** The line printed when the command is undone. */
  function UndoLine(c: Command): string {
    match c
    case Display(doc) => "Hide doc: " + doc
    case Delete(doc) => "Restore doc: " + doc
  }

  /** Both printed lines end with the document's name, and undoing a
      command prints something other than executing it. */
  lemma LinesNameDoc(c: Command)
    ensures var e := ExecuteLine(c);
            |e| > |c.doc| && e[|e| - |c.doc|..] == c.doc
    ensures var u := UndoLine(c);
            |u| > |c.doc| && u[|u| - |c.doc|..] == c.doc
    ensures ExecuteLine(c) != UndoLine(c)
  {
    var e, u := ExecuteLine(c), UndoLine(c);
    assert e[0] != u[0];
  }

  /** Both stacks, top last, and what has been printed. */
  datatype History = History(undo: seq<Command>, redo: seq<Command>, console: seq<string>)

  function ExecuteOf(h: History, c: Command): History {
    History(h.undo + [c], h.redo, h.console + [ExecuteLine(c)])
  }

  function UndoOf(h: History): History {
    if |h.undo| > 0 then
      var c := h.undo[|h.undo| - 1];
      History(h.undo[..|h.undo| - 1], h.redo + [c], h.console + [UndoLine(c)])
    else h
  }

  function RedoOf(h: History): History {
    if |h.redo| > 0 then
      var c := h.redo[|h.redo| - 1];
      History(h.undo + [c], h.redo[..|h.redo| - 1], h.console + [ExecuteLine(c)])
    else h
  }

  class DocumentInvoker {
    var undoQueue: seq<Command>
    var redoQueue: seq<Command>
    var console: seq<string>

    function State(): History
      reads this
    {
      History(undoQueue, redoQueue, console)
    }

    constructor ()
      ensures State() == History([], [], [])
    {
      undoQueue, redoQueue, console := [], [], [];
    }

    method Execute(cmd: Command)
      modifies this
      ensures State() == ExecuteOf(old(State()), cmd)
    {
      undoQueue := undoQueue + [cmd];
      console := console + [ExecuteLine(cmd)];
    }

    method Undo()
      modifies this
      ensures State() == UndoOf(old(State()))
    {
      if |undoQueue| > 0 {
        var cmd := undoQueue[|undoQueue| - 1];
        console := console + [UndoLine(cmd)];
        redoQueue := redoQueue + [cmd];
        undoQueue := undoQueue[..|undoQueue| - 1];
      }
    }

    method Redo()
      modifies this
      ensures State() == RedoOf(old(State()))
    {
      if |redoQueue| > 0 {
        var cmd := redoQueue[|redoQueue| - 1];
        console := console + [ExecuteLine(cmd)];
        undoQueue := undoQueue + [cmd];
        redoQueue := redoQueue[..|redoQueue| - 1];
      }
    }
  }

  /** Execute pushes the command as the new top of the undo stack, runs it,
      and leaves the redo stack alone. */
  lemma ExecutePushes(h: History, c: Command)
    ensures var g := ExecuteOf(h, c);
            && |g.undo| == |h.undo| + 1 && g.undo[|g.undo| - 1] == c && g.undo[..|h.undo|] == h.undo
            && g.redo == h.redo
            && g.console == h.console + [ExecuteLine(c)]
  {
    var g := ExecuteOf(h, c);
    assert g.undo[..|h.undo|] == h.undo;
  }

  /** Undo and Redo do nothing on an empty stack. */
  lemma EmptyStacks(h: History)
    ensures |h.undo| == 0 ==> UndoOf(h) == h
    ensures |h.redo| == 0 ==> RedoOf(h) == h
  {
  }

  /** Undo moves the top of the undo stack to the top of the redo stack,
      printing its undo line; Redo moves it back, printing its execute line. */
  lemma UndoMovesTop(h: History)
    requires |h.undo| > 0
    ensures var c := h.undo[|h.undo| - 1];
            var g := UndoOf(h);
            && g.undo + [c] == h.undo
            && g.redo == h.redo + [c]
            && g.console == h.console + [UndoLine(c)]
  {
    assert h.undo[..|h.undo| - 1] + [h.undo[|h.undo| - 1]] == h.undo;
  }

  lemma RedoMovesTop(h: History)
    requires |h.redo| > 0
    ensures var c := h.redo[|h.redo| - 1];
            var g := RedoOf(h);
            && g.redo + [c] == h.redo
            && g.undo == h.undo + [c]
            && g.console == h.console + [ExecuteLine(c)]
  {
    assert h.redo[..|h.redo| - 1] + [h.redo[|h.redo| - 1]] == h.redo;
  }

  /** Undo then Redo restores both stacks when there was something to undo;
      Redo then Undo restores them when there was something to redo. */
  lemma UndoRedoRoundTrip(h: History)
    ensures |h.undo| > 0 ==> var g := RedoOf(UndoOf(h));
            g.undo == h.undo && g.redo == h.redo
    ensures |h.redo| > 0 ==> var g := UndoOf(RedoOf(h));
            g.undo == h.undo && g.redo == h.redo
  {
    if |h.undo| > 0 {
      UndoMovesTop(h);
      var u := UndoOf(h);
      RedoMovesTop(u);
      assert u.redo[..|u.redo| - 1] == h.redo;
    }
    if |h.redo| > 0 {
      RedoMovesTop(h);
      var r := RedoOf(h);
      UndoMovesTop(r);
      assert r.undo[..|r.undo| - 1] == h.undo;
    }
  }

  function Size(h: History): nat {
    |h.undo| + |h.redo|
  }

  /** Execute adds one command to the two stacks together; Undo and Redo keep
      their total. */
  lemma SizeInvariant(h: History, c: Command)
    ensures Size(ExecuteOf(h, c)) == Size(h) + 1
    ensures Size(UndoOf(h)) == Size(h) && Size(RedoOf(h)) == Size(h)
  {
  }

  /** Commands are only ever moved: after Undo or Redo the two stacks hold
      the same commands as before, as many times each. */
  lemma UndoMovesCommands(h: History)
    ensures multiset(UndoOf(h).undo) + multiset(UndoOf(h).redo) == multiset(h.undo) + multiset(h.redo)
  {
    if |h.undo| > 0 {
      var c := h.undo[|h.undo| - 1];
      var g := UndoOf(h);
      UndoMovesTop(h);
      assert multiset(h.undo) == multiset(g.undo) + multiset{c};
    }
  }

  lemma RedoMovesCommands(h: History)
    ensures multiset(RedoOf(h).undo) + multiset(RedoOf(h).redo) == multiset(h.undo) + multiset(h.redo)
  {
    if |h.redo| > 0 {
      var c := h.redo[|h.redo| - 1];
      var g := RedoOf(h);
      RedoMovesTop(h);
      assert multiset(h.redo) == multiset(g.redo) + multiset{c};
    }
  }

  /** main's sequence: Execute(disp), Execute(del), Undo, Execute(disp2),
      Undo, Redo, then Undo four times. main runs it with a Display and a
      Delete of "Mint.iso" and a Display of "Ubuntu.iso"; nothing in it
      depends on which commands they are. */
  method MainSequence(disp: Command, del: Command, disp2: Command) returns (invoker: DocumentInvoker)
    ensures invoker.undoQueue == [] && invoker.redoQueue == [del, disp2, disp]
    ensures invoker.console == [ExecuteLine(disp), ExecuteLine(del), UndoLine(del),
                                ExecuteLine(disp2), UndoLine(disp2), ExecuteLine(disp2),
                                UndoLine(disp2), UndoLine(disp)]
  {
    invoker := new DocumentInvoker();
    invoker.Execute(disp);
    invoker.Execute(del);
    invoker.Undo();
    invoker.Execute(disp2);
    invoker.Undo();
    invoker.Redo();
    invoker.Undo();
    invoker.Undo();
    invoker.Undo();
    invoker.Undo();
    MainTrace(disp, del, disp2);
  }

  /** The same sequence on histories: after the eighth call the undo stack is
      empty, so the last two Undo calls change nothing. */
  lemma MainTrace(disp: Command, del: Command, disp2: Command)
    ensures var h8 := UndoOf(UndoOf(RedoOf(UndoOf(ExecuteOf(UndoOf(ExecuteOf(ExecuteOf(History([], [], []), disp), del)), disp2)))));
            && h8.undo == [] && h8.redo == [del, disp2, disp]
            && h8.console == [ExecuteLine(disp), ExecuteLine(del), UndoLine(del),
                              ExecuteLine(disp2), UndoLine(disp2), ExecuteLine(disp2),
                              UndoLine(disp2), UndoLine(disp)]
            && UndoOf(h8) == h8 && UndoOf(UndoOf(h8)) == h8
  {
  }
}
