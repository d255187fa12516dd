/** The console front end SokobanUI: a menu loop that reads a command,
    dispatches it and updates the puzzle and the move history. What it
    prints is not modelled. */
module TextInterface {
  import opened Directions
  import opened Engine
  import opened History

  /** The commands `execute` tells apart, in the order it tests them. */
  datatype Command =
    | QuitCmd
    | MoveCmd(dir: Direction)
    | PlayerCmd
    | UndoCmd
    | ClearCmd
    | SaveCmd
    | LoadCmd
    | UnknownCmd

  /** The words `execute` accepts, in the order it tests them. */
  const Keywords: seq<string> := ["Quit", "N", "S", "E", "W", "P", "U", "Clear", "Save", "Load"]

  /** The folding under which String.equalsIgnoreCase sees a character as
      equal to an ASCII character: ASCII letters by case, and the four
      non-ASCII characters whose upper case (LATIN SMALL LETTER LONG S,
      LATIN SMALL LETTER DOTLESS I) or lower case (LATIN CAPITAL LETTER I
      WITH DOT ABOVE, KELVIN SIGN) is an ASCII letter. */
  function Fold(c: char): char
  {
    if 'A' <= c <= 'Z' then ((c as int) + 32) as char
    else if c == '\U{017F}' then 's'
    else if c == '\U{0131}' || c == '\U{0130}' then 'i'
    else if c == '\U{212A}' then 'k'
    else c
  }

  /** String.equalsIgnoreCase when one side is ASCII text, as every keyword
      of `execute` is. */
  predicate EqualsIgnoreCase(a: string, b: string)
  {
    |a| == |b| && forall i | 0 <= i < |a| :: Fold(a[i]) == Fold(b[i])
  }

  /** The word that selects command c. */
  function Keyword(c: Command): string
    requires !c.UnknownCmd?
  {
    match c
    case QuitCmd => "Quit"
    case MoveCmd(d) =>
      (match d case NORTH => "N" case SOUTH => "S" case EAST => "E" case WEST => "W")
    case PlayerCmd => "P"
    case UndoCmd => "U"
    case ClearCmd => "Clear"
    case SaveCmd => "Save"
    case LoadCmd => "Load"
  }

  /** The dispatch ladder of `execute`: the first word the command equals,
      ignoring case; any other text is an unknown command. */
  function ParseCommand(command: string): (r: Command)
    ensures r.UnknownCmd? <==> forall k | 0 <= k < |Keywords| :: !EqualsIgnoreCase(command, Keywords[k])
    ensures !r.UnknownCmd? ==> Keyword(r) in Keywords && EqualsIgnoreCase(command, Keyword(r))
  {
    assert Keywords[0] == "Quit" && Keywords[1] == "N" && Keywords[2] == "S" && Keywords[3] == "E"
      && Keywords[4] == "W" && Keywords[5] == "P" && Keywords[6] == "U" && Keywords[7] == "Clear"
      && Keywords[8] == "Save" && Keywords[9] == "Load";
    if EqualsIgnoreCase(command, "Quit") then QuitCmd
    else if EqualsIgnoreCase(command, "N") then MoveCmd(NORTH)
    else if EqualsIgnoreCase(command, "S") then MoveCmd(SOUTH)
    else if EqualsIgnoreCase(command, "E") then MoveCmd(EAST)
    else if EqualsIgnoreCase(command, "W") then MoveCmd(WEST)
    else if EqualsIgnoreCase(command, "P") then PlayerCmd
    else if EqualsIgnoreCase(command, "U") then UndoCmd
    else if EqualsIgnoreCase(command, "Clear") then ClearCmd
    else if EqualsIgnoreCase(command, "Save") then SaveCmd
    else if EqualsIgnoreCase(command, "Load") then LoadCmd
    else UnknownCmd
  }

  /** Commands that equalsIgnoreCase matches through a non-ASCII character:
      a long s selects south, and "quit" spelt with a dotless i or a dotted
      capital I quits. */
  lemma NonAsciiCommands()
    ensures ParseCommand("\U{017F}") == MoveCmd(SOUTH)
    ensures ParseCommand("qu\U{0131}t") == QuitCmd
    ensures ParseCommand("QU\U{0130}T") == QuitCmd
  {
    var longS, dotless, dotted := "\U{017F}", "qu\U{0131}t", "QU\U{0130}T";
    assert Fold(longS[0]) == 's' == Fold("S"[0]);
    assert !EqualsIgnoreCase(longS, "N") by { assert Fold(longS[0]) != Fold("N"[0]); }
    assert EqualsIgnoreCase(longS, "S");
    assert Fold(dotless[2]) == 'i' == Fold("Quit"[2]);
    assert EqualsIgnoreCase(dotless, "Quit");
    assert Fold(dotted[2]) == 'i' == Fold("Quit"[2]);
    assert EqualsIgnoreCase(dotted, "Quit");
  }

  /** The guard of the loop in `menu`: go on while the last command was not
      Quit and the puzzle is not solved. */
  predicate MenuContinues<S>(e: Sokoban<S>, command: string, puzzle: S)
  {
    !EqualsIgnoreCase(command, "Quit") && !e.onTarget(puzzle)
  }

  /** The loop goes on exactly when the command read last is not the Quit
      command of `execute` and the puzzle is not solved. */
  lemma QuitStopsMenu<S>(e: Sokoban<S>, command: string, puzzle: S)
    ensures MenuContinues(e, command, puzzle) <==> ParseCommand(command) != QuitCmd && !e.onTarget(puzzle)
  {
  }

  /** What one command reads and writes: the puzzle, the history, the
      contents of save.txt (None when it cannot be opened), and whether the
      program has ended on a load it could not finish. */
  datatype Session<S> = Session(puzzle: S, stack: seq<Direction>, lines: Option<seq<string>>, ended: bool)

  /** The effect of `execute` for command c from s0 to s1 when save.txt can
      (writable) or cannot be opened for writing. Only a save changes the
      file; a load reads the lines s0 holds, and only a load can end the
      program (LoadAborts). */
  ghost predicate Executes<S>(e: Sokoban<S>, c: Command, writable: bool, s0: Session<S>, s1: Session<S>)
  {
    (s1.ended <==> LoadAborts(e, c, s0, s1)) &&
    match c
    case QuitCmd => s1.puzzle == s0.puzzle && s1.stack == s0.stack && s1.lines == s0.lines
    case UnknownCmd => s1.puzzle == s0.puzzle && s1.stack == s0.stack && s1.lines == s0.lines
    case SaveCmd =>
      s1.puzzle == s0.puzzle && s1.stack == s0.stack &&
      (if writable then s1.lines.Some? && Serialises(s0.stack, s1.lines.value) else s1.lines == s0.lines)
    case MoveCmd(d) => s1.lines == s0.lines && StepTo(e, s0.puzzle, s0.stack, d, s1.puzzle, s1.stack)
    case PlayerCmd =>
      s1.lines == s0.lines &&
      ((LegalDirections(e, s0.puzzle) == {} && s1.puzzle == s0.puzzle && s1.stack == s0.stack) ||
       (exists d :: d in LegalDirections(e, s0.puzzle) && StepTo(e, s0.puzzle, s0.stack, d, s1.puzzle, s1.stack)))
    case UndoCmd => s1.lines == s0.lines && UndoTo(e, s0.puzzle, s0.stack, s1.puzzle, s1.stack)
    case ClearCmd => s1.puzzle == e.init && s1.stack == [] && s1.lines == s0.lines
    case LoadCmd =>
      s1.lines == s0.lines &&
      (if s0.lines.None? then s1.puzzle == s0.puzzle && s1.stack == s0.stack
       else s1.puzzle == Replay(e, e.init, s1.stack) && exists o :: LoadedFrom(e, s0.lines.value, s1.stack, o))
  }

  /** Command c from s0 to s1 was a load that stopped before the end of the
      file: at a line which is not a direction name, where Java's valueOf
      throws IllegalArgumentException and nothing catches it, or at a move
      that violates canMove, which the comment at SokobanUI.java:177-179
      calls a fatal error. Either way the program ends there. */
  ghost predicate LoadAborts<S>(e: Sokoban<S>, c: Command, s0: Session<S>, s1: Session<S>)
  {
    c == LoadCmd && s0.lines.Some? && |s1.stack| < |s0.lines.value|
  }

  /** A load of an existing file ends the program exactly when it does not
      replay every line. */
  lemma LoadEndsUnlessComplete<S>(e: Sokoban<S>, writable: bool, s0: Session<S>, s1: Session<S>)
    requires s0.lines.Some? && Executes(e, LoadCmd, writable, s0, s1)
    ensures s1.ended <==> !LoadedFrom(e, s0.lines.value, s1.stack, Loaded)
  {
  }

  /** A load whose first line is not a direction name ends the program,
      with the session cleared. */
  lemma UnparsableLoadEnds<S>(e: Sokoban<S>, writable: bool, s0: Session<S>, s1: Session<S>)
    requires s0.lines.Some? && |s0.lines.value| > 0 && Parse(s0.lines.value[0]).None?
    requires Executes(e, LoadCmd, writable, s0, s1)
    ensures s1.ended && s1.stack == [] && s1.puzzle == e.init
  {
  }

  /** A load whose first line names a move the fresh puzzle forbids also
      ends the program, with the session cleared. */
  lemma IllegalMoveLoadEnds<S>(e: Sokoban<S>, writable: bool, s0: Session<S>, s1: Session<S>)
    requires s0.lines.Some? && |s0.lines.value| > 0 && Parse(s0.lines.value[0]).Some?
    requires !e.canMove(e.init, Parse(s0.lines.value[0]).value)
    requires Executes(e, LoadCmd, writable, s0, s1)
    ensures s1.ended && s1.stack == [] && s1.puzzle == e.init
  {
  }

  /** Saving to a writable file and then loading it, as two commands of the
      menu, leaves the puzzle and the history as they were and the file as
      written. */
  lemma SaveThenLoadCommands<S>(e: Sokoban<S>, s0: Session<S>, s1: Session<S>, s2: Session<S>)
    requires Consistent(e, s0.puzzle, s0.stack)
    requires Executes(e, SaveCmd, true, s0, s1) && Executes(e, LoadCmd, true, s1, s2)
    ensures s2.puzzle == s0.puzzle && s2.stack == s0.stack && s2.lines == s1.lines
    ensures !s2.ended
  {
    var o :| LoadedFrom(e, s1.lines.value, s2.stack, o);
    SaveLoadRoundTrip(e, s0.stack, s1.lines.value, s2.stack, o);
  }

  /** The command the menu loop tests before reading line j: the empty
      initial command, or the line read last. */
  function LineBefore(input: seq<string>, j: nat): string
    requires j <= |input|
  {
    if j == 0 then "" else input[j - 1]
  }

  /** A run of the menu over the first n lines of input, with save.txt
      writable or not throughout. trace[j] is the session before line j. The
      loop guard held before each line (for the line read before it and the
      puzzle then), the program had not ended before it, and each line had
      its `execute` effect. */
  ghost predicate MenuTrace<S>(e: Sokoban<S>, writable: bool, input: seq<string>, n: nat, trace: seq<Session<S>>)
  {
    n <= |input| && |trace| == n + 1 &&
    (forall j | 0 <= j < n :: MenuContinues(e, LineBefore(input, j), trace[j].puzzle) && !trace[j].ended) &&
    (forall j | 0 <= j < n :: Executes(e, ParseCommand(input[j]), writable, trace[j], trace[j + 1]))
  }

  /** A run extends by one line when the loop went on before it. */
  lemma MenuTraceStep<S>(e: Sokoban<S>, writable: bool, input: seq<string>, n: nat,
                         trace: seq<Session<S>>, s: Session<S>)
    requires MenuTrace(e, writable, input, n, trace) && n < |input|
    requires MenuContinues(e, LineBefore(input, n), trace[n].puzzle) && !trace[n].ended
    requires Executes(e, ParseCommand(input[n]), writable, trace[n], s)
    ensures MenuTrace(e, writable, input, n + 1, trace + [s])
  {
    GuardExtend(e, input, n, trace, s);
    ExecutesExtend(e, writable, input, n, trace, s);
  }

  /** The guard facts of a run carry over to the extended trace. */
  lemma GuardExtend<S>(e: Sokoban<S>, input: seq<string>, n: nat, trace: seq<Session<S>>, s: Session<S>)
    requires n < |input| && |trace| == n + 1
    requires forall j | 0 <= j < n :: MenuContinues(e, LineBefore(input, j), trace[j].puzzle) && !trace[j].ended
    requires MenuContinues(e, LineBefore(input, n), trace[n].puzzle) && !trace[n].ended
    ensures forall j | 0 <= j < n + 1 ::
      MenuContinues(e, LineBefore(input, j), (trace + [s])[j].puzzle) && !(trace + [s])[j].ended
  {
  }

  /** The effects of the lines of a run carry over to the extended trace. */
  lemma ExecutesExtend<S>(e: Sokoban<S>, writable: bool, input: seq<string>, n: nat,
                          trace: seq<Session<S>>, s: Session<S>)
    requires n < |input| && |trace| == n + 1
    requires forall j | 0 <= j < n :: Executes(e, ParseCommand(input[j]), writable, trace[j], trace[j + 1])
    requires Executes(e, ParseCommand(input[n]), writable, trace[n], s)
    ensures forall j | 0 <= j < n + 1 :: Executes(e, ParseCommand(input[j]), writable, (trace + [s])[j], (trace + [s])[j + 1])
  {
  }

  class SokobanUI<!S> {
    /** The engine and the layout file screens/screen.1 it starts from. */
    const engine: Sokoban<S>
    /** The puzzle field: the engine's current state. */
    var puzzle: S
    /** The Stack<Direction> field, bottom first. */
    var stack: seq<Direction>

    ghost predicate Valid()
      reads this
    {
      Consistent(engine, puzzle, stack)
    }

    /** A fresh puzzle from the layout file and an empty history. */
    constructor (engine: Sokoban<S>)
      ensures this.engine == engine
      ensures puzzle == engine.init && stack == []
      ensures Valid()
    {
      this.engine := engine;
      puzzle := engine.init;
      stack := [];
    }

    /** `clear`: rebuild the puzzle from the layout file and empty the history. */
    method Clear()
      modifies this
      ensures puzzle == engine.init && stack == []
      ensures Valid()
    {
      puzzle := engine.init;
      stack := [];
    }

    /** `save`: write the history to save.txt, one name per line, bottom of
        the stack first. saved is false when the file cannot be opened, and
        then the file is left as it was. */
    method Save(file: SaveFile) returns (saved: bool)
      modifies file
      ensures saved == file.writable && file.writable == old(file.writable)
      ensures saved ==> file.lines.Some? && Serialises(stack, file.lines.value)
      ensures !saved ==> file.lines == old(file.lines)
    {
      if !file.writable {
        return false;
      }
      var written: seq<string> := [];
      for i := 0 to |stack|
        invariant Serialises(stack[..i], written)
      {
        written := written + [Name(stack[i])];
      }
      assert stack[..|stack|] == stack;
      file.lines := Some(written);
      saved := true;
    }

    /** `load`: if save.txt opens, clear, then parse, apply and push each line
        in turn. Replay stops at a line that is not a direction name (where
        Java's valueOf throws) or that names an illegal move. */
    method Load(file: SaveFile) returns (outcome: LoadOutcome)
      requires Valid()
      modifies this
      ensures Valid()
      ensures file.lines.None? ==> outcome == NoFile && puzzle == old(puzzle) && stack == old(stack)
      ensures file.lines.Some? ==> LoadedFrom(engine, file.lines.value, stack, outcome)
    {
      if file.lines.None? {
        return NoFile;
      }
      var lines := file.lines.value;
      Clear();
      var i := 0;
      while i < |lines|
        invariant 0 <= i <= |lines| && |stack| == i
        invariant Consistent(engine, puzzle, stack)
        invariant forall j | 0 <= j < i :: Parse(lines[j]) == Some(stack[j])
      {
        var d := Parse(lines[i]);
        if d.None? {
          return Unparsable;
        }
        if !engine.canMove(puzzle, d.value) {
          return IllegalMove;
        }
        StepKeepsConsistent(engine, puzzle, stack, d.value, engine.move(puzzle, d.value), stack + [d.value]);
        puzzle := Apply(engine, puzzle, d.value);
        stack := stack + [d.value];
        i := i + 1;
      }
      outcome := Loaded;
    }

    /** `undo`: pop the last move, rebuild the puzzle and replay the rest of
        the history, oldest first, pushing each move again. */
    method Undo()
      requires Valid()
      modifies this
      ensures Valid()
      ensures UndoTo(engine, old(puzzle), old(stack), puzzle, stack)
    {
      if stack == [] {
        return;
      }
      LegalPrefix(engine, engine.init, stack, |stack| - 1);
      stack := stack[..|stack| - 1];
      var oldStack := stack;
      Clear();
      for i := 0 to |oldStack|
        invariant stack == oldStack[..i]
        invariant puzzle == Replay(engine, engine.init, stack)
      {
        var d := oldStack[i];
        LegalPrefix(engine, engine.init, oldStack, i);
        ReplayAppend(engine, engine.init, stack, d);
        puzzle := Apply(engine, puzzle, d);
        stack := stack + [d];
        assert stack == oldStack[..i + 1];
      }
      assert oldStack[..|oldStack|] == oldStack;
    }

    /** `move`: apply dir if it is legal, otherwise leave the puzzle alone;
        the history is not touched. */
    method Move(dir: Direction)
      modifies this`puzzle
      ensures puzzle == if engine.canMove(old(puzzle), dir) then engine.move(old(puzzle), dir) else old(puzzle)
    {
      if !engine.canMove(puzzle, dir) {
        return;
      }
      puzzle := Apply(engine, puzzle, dir);
    }

    /** The body shared by `north`, `south`, `east` and `west`: an illegal
        direction changes nothing; a legal one is moved and pushed. */
    method Go(dir: Direction)
      requires Valid()
      modifies this
      ensures Valid()
      ensures StepTo(engine, old(puzzle), old(stack), dir, puzzle, stack)
    {
      if !engine.canMove(puzzle, dir) {
        return;
      }
      StepKeepsConsistent(engine, puzzle, stack, dir, engine.move(puzzle, dir), stack + [dir]);
      Move(dir);
      stack := stack + [dir];
    }

    /** `north` */
    method North()
      requires Valid()
      modifies this
      ensures Valid()
      ensures StepTo(engine, old(puzzle), old(stack), NORTH, puzzle, stack)
    {
      Go(NORTH);
    }

    /** `south` */
    method South()
      requires Valid()
      modifies this
      ensures Valid()
      ensures StepTo(engine, old(puzzle), old(stack), SOUTH, puzzle, stack)
    {
      Go(SOUTH);
    }

    /** `east` */
    method East()
      requires Valid()
      modifies this
      ensures Valid()
      ensures StepTo(engine, old(puzzle), old(stack), EAST, puzzle, stack)
    {
      Go(EAST);
    }

    /** `west` */
    method West()
      requires Valid()
      modifies this
      ensures Valid()
      ensures StepTo(engine, old(puzzle), old(stack), WEST, puzzle, stack)
    {
      Go(WEST);
    }

    /** `playerMove`: the computer player picks some legal direction, which
        is moved and pushed. With no legal direction nothing is chosen and
        nothing changes. */
    method PlayerMove() returns (choice: Option<Direction>)
      requires Valid()
      modifies this
      ensures Valid()
      ensures choice.None? ==> LegalDirections(engine, old(puzzle)) == {} && puzzle == old(puzzle) && stack == old(stack)
      ensures choice.Some? ==> choice.value in LegalDirections(engine, old(puzzle))
      ensures choice.Some? ==> puzzle == engine.move(old(puzzle), choice.value) && stack == old(stack) + [choice.value]
    {
      var choices := LegalDirections(engine, puzzle);
      if choices == {} {
        return None;
      }
      var d :| d in choices;
      StepKeepsConsistent(engine, puzzle, stack, d, engine.move(puzzle, d), stack + [d]);
      Move(d);
      stack := stack + [d];
      choice := Some(d);
    }

    /** `execute`: run one command. Quit changes nothing here: the menu loop
        stops on it. Unknown commands change nothing. aborted says that the
        command was a load that stopped before the end of the file, which
        ends the program (LoadAborts). The clauses after the second one spell
        out cases of Executes on the fields themselves, for callers that hold
        the object rather than a Session. */
    method Execute(command: string, file: SaveFile) returns (aborted: bool)
      requires Valid()
      modifies this, file
      ensures Valid()
      ensures Executes(engine, ParseCommand(command), file.writable,
                       Session(old(puzzle), old(stack), old(file.lines), false), Session(puzzle, stack, file.lines, aborted))
      ensures aborted ==> ParseCommand(command) == LoadCmd && file.lines.Some?
      ensures file.writable == old(file.writable)
      ensures ParseCommand(command) != SaveCmd ==> file.lines == old(file.lines)
      ensures ParseCommand(command) == PlayerCmd ==>
        (LegalDirections(engine, old(puzzle)) == {} && puzzle == old(puzzle) && stack == old(stack)) ||
        (exists d :: d in LegalDirections(engine, old(puzzle)) && engine.canMove(old(puzzle), d)
           && puzzle == engine.move(old(puzzle), d) && stack == old(stack) + [d])
      ensures ParseCommand(command) == SaveCmd && file.writable ==> file.lines.Some? && Serialises(stack, file.lines.value)
      ensures ParseCommand(command) == SaveCmd && !file.writable ==> file.lines == old(file.lines)
      ensures ParseCommand(command) == LoadCmd && file.lines.None? ==> puzzle == old(puzzle) && stack == old(stack)
      ensures ParseCommand(command) == LoadCmd && file.lines.Some? ==> exists o :: LoadedFrom(engine, file.lines.value, stack, o)
    {
      aborted := false;
      match ParseCommand(command)
      case QuitCmd =>
      case MoveCmd(d) =>
        match d {
          case NORTH => North();
          case SOUTH => South();
          case EAST => East();
          case WEST => West();
        }
      case PlayerCmd =>
        var choice := PlayerMove();
        if choice.Some? {
          assert choice.value in LegalDirections(engine, old(puzzle))
            && StepTo(engine, old(puzzle), old(stack), choice.value, puzzle, stack);
        }
      case UndoCmd => Undo();
      case ClearCmd => Clear();
      case SaveCmd =>
        var saved := Save(file);
      case LoadCmd =>
        var outcome := Load(file);
        aborted := outcome == Unparsable || outcome == IllegalMove;
        if file.lines.Some? {
          assert LoadedFrom(engine, file.lines.value, stack, outcome);
        }
      case UnknownCmd =>
    }

    /** `menu`: read and execute commands while the last one was not Quit
        and the puzzle is not solved. input holds the lines typed; the loop
        also stops when they run out. consumed is how many were read, and
        aborted says that the last of them was a load that ended the program
        (LoadAborts). trace holds the session before each line and after the
        last. The clauses after trace[consumed] spell out the conjuncts of
        MenuTrace, so that callers need not unfold it. */
    method Menu(input: seq<string>, file: SaveFile)
      returns (consumed: nat, aborted: bool, ghost trace: seq<Session<S>>)
      requires Valid()
      modifies this, file
      ensures Valid()
      ensures file.writable == old(file.writable)
      ensures MenuTrace(engine, file.writable, input, consumed, trace)
      ensures trace[0] == Session(old(puzzle), old(stack), old(file.lines), false)
      ensures trace[consumed] == Session(puzzle, stack, file.lines, aborted)
      ensures consumed <= |input| && |trace| == consumed + 1
      ensures forall j | 0 <= j < consumed :: MenuContinues(engine, LineBefore(input, j), trace[j].puzzle) && !trace[j].ended
      ensures forall j | 0 <= j < consumed - 1 :: !EqualsIgnoreCase(input[j], "Quit")
      ensures forall j | 0 <= j < consumed ::
        Executes(engine, ParseCommand(input[j]), file.writable, trace[j], trace[j + 1])
      ensures aborted <==>
        (consumed > 0 && LoadAborts(engine, ParseCommand(input[consumed - 1]), trace[consumed - 1], trace[consumed]))
      ensures consumed < |input| && !aborted ==> !MenuContinues(engine, LineBefore(input, consumed), puzzle)
    {
      var command := "";
      consumed, aborted := 0, false;
      trace := [Session(puzzle, stack, file.lines, false)];
      while !aborted && MenuContinues(engine, command, puzzle) && consumed < |input|
        invariant Valid()
        invariant file.writable == old(file.writable)
        invariant MenuTrace(engine, file.writable, input, consumed, trace)
        invariant command == LineBefore(input, consumed)
        invariant trace[0] == Session(old(puzzle), old(stack), old(file.lines), false)
        invariant trace[consumed] == Session(puzzle, stack, file.lines, aborted)
        invariant aborted ==> consumed > 0
        decreases |input| - consumed
      {
        command := input[consumed];
        aborted := Execute(command, file);
        ghost var after := Session(puzzle, stack, file.lines, aborted);
        MenuTraceStep(engine, file.writable, input, consumed, trace, after);
        trace := trace + [after];
        consumed := consumed + 1;
      }
      forall j | 0 <= j < consumed - 1
        ensures !EqualsIgnoreCase(input[j], "Quit")
      {
        assert MenuContinues(engine, LineBefore(input, j + 1), trace[j + 1].puzzle);
      }
      if consumed > 0 {
        assert Executes(engine, ParseCommand(input[consumed - 1]), file.writable, trace[consumed - 1], trace[consumed]);
      }
    }
  }

  /** Saving to a writable file and loading it back restores the session:
      the same history, the same puzzle, and a complete load. */
  method SaveThenLoad<S>(ui: SokobanUI<S>, file: SaveFile) returns (outcome: LoadOutcome)
    requires ui.Valid() && file.writable
    modifies ui, file
    ensures ui.Valid()
    ensures ui.puzzle == old(ui.puzzle) && ui.stack == old(ui.stack)
    ensures outcome == Loaded
  {
    var saved := ui.Save(file);
    outcome := ui.Load(file);
    SaveLoadRoundTrip(ui.engine, old(ui.stack), file.lines.value, ui.stack, outcome);
  }
}
