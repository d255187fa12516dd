/** The Swing front end GUI: the same session as the console one, plus a
    status line (the text area `info`) that every command updates, and a key
    handler that maps arrow keys and R to commands. Frames, panels, cell
    images and listener plumbing are not modelled. */
module GraphicalInterface {
  import opened Directions
  import opened Engine
  import opened History

  /** Key codes of java.awt.event.KeyEvent: VK_LEFT, VK_UP, VK_RIGHT, VK_DOWN, VK_R. */
  const VkLeft: int := 37
  const VkUp: int := 38
  const VkRight: int := 39
  const VkDown: int := 40
  const VkR: int := 82

  /** Status texts written through `setInformation`. */
  const Welcome := "Use Arrow Keys to move, or press R to make a random move!"
  const GameReset := "Game reset"
  const MoveUndone := "Move Undone"
  const GameSaved := "Game Saved"
  const SaveError := "An input output error occurred"
  const LoadError := "an input output error occurred"
  const GameLoaded := "Game Loaded"
  const MoveNotValid := "Move not valid"
  const InvalidMove := "Invalid move"
  const GameWon := "Game won!"
  const InvalidKey := "Invalid Key, use Arrow Keys to move"

  /** "Moved North" and its siblings, set after a legal move that does not win. */
  function Moved(d: Direction): string
  {
    match d
    case NORTH => "Moved North"
    case SOUTH => "Moved South"
    case EAST => "Moved East"
    case WEST => "Moved West"
  }

  /** What `keyPressed` does with a key. */
  datatype KeyAction = KeyMove(dir: Direction) | KeyRandom | KeyInvalid

  /** The arrow key bound to each direction. */
  function ArrowKey(d: Direction): int
  {
    match d
    case NORTH => VkUp
    case SOUTH => VkDown
    case EAST => VkRight
    case WEST => VkLeft
  }

  /** The branches of `keyPressed`: UP north, DOWN south, LEFT west,
      RIGHT east, R a computer move, every other key invalid. */
  function KeyBinding(code: int): (r: KeyAction)
    ensures r.KeyMove? <==> exists d: Direction :: ArrowKey(d) == code
    ensures r.KeyMove? ==> ArrowKey(r.dir) == code
    ensures r == KeyRandom <==> code == VkR
    ensures r == KeyInvalid <==> code !in {VkLeft, VkUp, VkRight, VkDown, VkR}
  {
    if code == VkUp then assert ArrowKey(NORTH) == code; KeyMove(NORTH)
    else if code == VkDown then assert ArrowKey(SOUTH) == code; KeyMove(SOUTH)
    else if code == VkLeft then assert ArrowKey(WEST) == code; KeyMove(WEST)
    else if code == VkRight then assert ArrowKey(EAST) == code; KeyMove(EAST)
    else if code == VkR then KeyRandom
    else KeyInvalid
  }

  class GUI<!S> {
    /** The engine and the layout file screens/screen.1 it starts from. */
    const engine: Sokoban<S>
    /** The puzzle field: the engine's current state. */
    var puzzle: S
    /** The Stack<Direction> field, bottom first. */
    var stack: seq<Direction>
    /** The text of the status area `info`. */
    var info: string

    ghost predicate Valid()
      reads this
    {
      Consistent(engine, puzzle, stack)
    }

    /** A fresh puzzle, an empty history and the welcome status. */
    constructor (engine: Sokoban<S>)
      ensures this.engine == engine
      ensures puzzle == engine.init && stack == [] && info == Welcome
      ensures Valid()
    {
      this.engine := engine;
      puzzle := engine.init;
      stack := [];
      info := Welcome;
    }

    /** `setInformation`: replace the status text. */
    method SetInformation(i: string)
      modifies this`info
      ensures info == i
    {
      info := i;
    }

    /** `clear`: fresh puzzle, empty history, status "Game reset". */
    method Clear()
      modifies this
      ensures puzzle == engine.init && stack == [] && info == GameReset
      ensures Valid()
    {
      puzzle := engine.init;
      stack := [];
      SetInformation(GameReset);
    }

    /** `undo`: nothing at all on an empty history; otherwise drop the top
        entry, rebuild, replay the rest and report "Move Undone". */
    method Undo()
      requires Valid()
      modifies this
      ensures Valid()
      ensures UndoTo(engine, old(puzzle), old(stack), puzzle, stack)
      ensures info == if old(stack) == [] then old(info) else MoveUndone
    {
      if stack == [] {
        return;
      }
      LegalPrefix(engine, engine.init, stack, |stack| - 1);
      stack := stack[..|stack| - 1];
      var oldStack := stack;
      Clear();
      SetInformation(MoveUndone);
      for i := 0 to |oldStack|
        invariant stack == oldStack[..i]
        invariant puzzle == Replay(engine, engine.init, stack)
        invariant info == MoveUndone
      {
        var d := oldStack[i];
        LegalPrefix(engine, engine.init, oldStack, i);
        ReplayAppend(engine, engine.init, stack, d);
        puzzle := Apply(engine, puzzle, d);
        stack := stack + [d];
        assert stack == oldStack[..i + 1];
      }
      assert oldStack[..|oldStack|] == oldStack;
    }

    /** `save`: write the history to save.txt, oldest move first, and report
        "Game Saved"; when the file cannot be opened it is left as it was
        and the error is reported. */
    method Save(file: SaveFile)
      modifies this`info, file
      ensures file.writable == old(file.writable)
      ensures file.writable ==> file.lines.Some? && Serialises(stack, file.lines.value) && info == GameSaved
      ensures !file.writable ==> file.lines == old(file.lines) && info == SaveError
    {
      if !file.writable {
        SetInformation(SaveError);
        return;
      }
      var written: seq<string> := [];
      for i := 0 to |stack|
        invariant Serialises(stack[..i], written)
      {
        written := written + [Name(stack[i])];
      }
      assert stack[..|stack|] == stack;
      file.lines := Some(written);
      SetInformation(GameSaved);
    }

    /** `load`: when save.txt cannot be opened, only the error is reported.
        Otherwise clear, then parse, apply and push each line, reporting
        "Game Loaded" after each one; replay stops at a line that is not a
        direction name or that names an illegal move. An empty file leaves
        the status of the clear, "Game reset". */
    method Load(file: SaveFile) returns (outcome: LoadOutcome)
      requires Valid()
      modifies this
      ensures Valid()
      ensures file.lines.None? ==>
        outcome == NoFile && puzzle == old(puzzle) && stack == old(stack) && info == LoadError
      ensures file.lines.Some? ==> LoadedFrom(engine, file.lines.value, stack, outcome)
      ensures file.lines.Some? ==> info == if stack == [] then GameReset else GameLoaded
    {
      if file.lines.None? {
        SetInformation(LoadError);
        return NoFile;
      }
      var lines := file.lines.value;
      Clear();
      var i := 0;
      while i < |lines|
        invariant 0 <= i <= |lines| && |stack| == i
        invariant Consistent(engine, puzzle, stack)
        invariant forall j | 0 <= j < i :: Parse(lines[j]) == Some(stack[j])
        invariant info == if stack == [] then GameReset else GameLoaded
      {
        var d := Parse(lines[i]);
        if d.None? {
          return Unparsable;
        }
        if !engine.canMove(puzzle, d.value) {
          return IllegalMove;
        }
        StepKeepsConsistent(engine, puzzle, stack, d.value, engine.move(puzzle, d.value), stack + [d.value]);
        puzzle := Apply(engine, puzzle, d.value);
        stack := stack + [d.value];
        SetInformation(GameLoaded);
        i := i + 1;
      }
      outcome := Loaded;
    }

    /** `move`: an illegal dir only reports "Invalid move"; a legal one is
        applied and reports "Game won!" when it solves the puzzle, leaving
        the status alone otherwise. The history is not touched. */
    method Move(dir: Direction)
      modifies this`puzzle, this`info
      ensures !engine.canMove(old(puzzle), dir) ==> puzzle == old(puzzle) && info == InvalidMove
      ensures engine.canMove(old(puzzle), dir) ==> puzzle == engine.move(old(puzzle), dir)
      ensures engine.canMove(old(puzzle), dir) ==> info == if engine.onTarget(puzzle) then GameWon else old(info)
    {
      if !engine.canMove(puzzle, dir) {
        SetInformation(InvalidMove);
        return;
      }
      puzzle := Apply(engine, puzzle, dir);
      if engine.onTarget(puzzle) {
        SetInformation(GameWon);
      }
    }

    /** The body shared by `north`, `south`, `east` and `west`: an illegal
        direction reports "Move not valid" and changes nothing else; a legal
        one is moved and pushed, and the status says whether it won. */
    method Go(dir: Direction)
      requires Valid()
      modifies this
      ensures Valid()
      ensures StepTo(engine, old(puzzle), old(stack), dir, puzzle, stack)
      ensures info == if engine.canMove(old(puzzle), dir) then (if engine.onTarget(puzzle) then GameWon else Moved(dir)) else MoveNotValid
    {
      if !engine.canMove(puzzle, dir) {
        SetInformation(MoveNotValid);
        return;
      }
      StepKeepsConsistent(engine, puzzle, stack, dir, engine.move(puzzle, dir), stack + [dir]);
      Move(dir);
      stack := stack + [dir];
      if engine.onTarget(puzzle) {
        SetInformation(GameWon);
      } else {
        SetInformation(Moved(dir));
      }
    }

    /** `north` */
    method North()
      requires Valid()
      modifies this
      ensures Valid()
      ensures StepTo(engine, old(puzzle), old(stack), NORTH, puzzle, stack)
      ensures info == if engine.canMove(old(puzzle), NORTH) then (if engine.onTarget(puzzle) then GameWon else Moved(NORTH)) else MoveNotValid
    {
      Go(NORTH);
    }

    /** `south` */
    method South()
      requires Valid()
      modifies this
      ensures Valid()
      ensures StepTo(engine, old(puzzle), old(stack), SOUTH, puzzle, stack)
      ensures info == if engine.canMove(old(puzzle), SOUTH) then (if engine.onTarget(puzzle) then GameWon else Moved(SOUTH)) else MoveNotValid
    {
      Go(SOUTH);
    }

    /** `east` */
    method East()
      requires Valid()
      modifies this
      ensures Valid()
      ensures StepTo(engine, old(puzzle), old(stack), EAST, puzzle, stack)
      ensures info == if engine.canMove(old(puzzle), EAST) then (if engine.onTarget(puzzle) then GameWon else Moved(EAST)) else MoveNotValid
    {
      Go(EAST);
    }

    /** `west` */
    method West()
      requires Valid()
      modifies this
      ensures Valid()
      ensures StepTo(engine, old(puzzle), old(stack), WEST, puzzle, stack)
      ensures info == if engine.canMove(old(puzzle), WEST) then (if engine.onTarget(puzzle) then GameWon else Moved(WEST)) else MoveNotValid
    {
      Go(WEST);
    }

    /** `playerMove`: the computer player picks some legal direction, which
        is moved and pushed; the status changes only when the move wins.
        With no legal direction nothing is chosen and nothing changes. */
    method PlayerMove() returns (choice: Option<Direction>)
      requires Valid()
      modifies this
      ensures Valid()
      ensures choice.None? ==>
        LegalDirections(engine, old(puzzle)) == {} && puzzle == old(puzzle) && stack == old(stack) && info == old(info)
      ensures choice.Some? ==> choice.value in LegalDirections(engine, old(puzzle))
      ensures choice.Some? ==> puzzle == engine.move(old(puzzle), choice.value) && stack == old(stack) + [choice.value]
      ensures choice.Some? ==> info == if engine.onTarget(puzzle) then GameWon else old(info)
    {
      var choices := LegalDirections(engine, puzzle);
      if choices == {} {
        return None;
      }
      var d :| d in choices;
      StepKeepsConsistent(engine, puzzle, stack, d, engine.move(puzzle, d), stack + [d]);
      Move(d);
      stack := stack + [d];
      choice := Some(d);
    }

    /** `keyPressed`: the arrow keys move, R makes a computer move, and any
        other key changes nothing but the status. */
    method KeyPressed(code: int)
      requires Valid()
      modifies this
      ensures Valid()
      ensures KeyBinding(code).KeyMove? ==>
        StepTo(engine, old(puzzle), old(stack), KeyBinding(code).dir, puzzle, stack)
      ensures KeyBinding(code).KeyMove? ==>
        info == if engine.canMove(old(puzzle), KeyBinding(code).dir)
                then (if engine.onTarget(puzzle) then GameWon else Moved(KeyBinding(code).dir))
                else MoveNotValid
      ensures KeyBinding(code) == KeyRandom ==>
        (LegalDirections(engine, old(puzzle)) == {} &&
           puzzle == old(puzzle) && stack == old(stack) && info == old(info)) ||
        (exists d :: d in LegalDirections(engine, old(puzzle)) &&
           puzzle == engine.move(old(puzzle), d) && stack == old(stack) + [d] &&
           info == (if engine.onTarget(puzzle) then GameWon else old(info)))
      ensures KeyBinding(code) == KeyInvalid ==> puzzle == old(puzzle) && stack == old(stack) && info == InvalidKey
    {
      match KeyBinding(code)
      case KeyMove(d) =>
        match d {
          case NORTH => North();
          case SOUTH => South();
          case EAST => East();
          case WEST => West();
        }
      case KeyRandom =>
        var choice := PlayerMove();
        if choice.Some? {
          assert choice.value in LegalDirections(engine, old(puzzle)) &&
            puzzle == engine.move(old(puzzle), choice.value) && stack == old(stack) + [choice.value];
        }
      case KeyInvalid =>
        SetInformation(InvalidKey);
    }
  }

  /** Saving to a writable file and loading it back restores the session:
      the same history, the same puzzle, and a complete load. */
  method SaveThenLoad<S>(gui: GUI<S>, file: SaveFile) returns (outcome: LoadOutcome)
    requires gui.Valid() && file.writable
    modifies gui, file
    ensures gui.Valid()
    ensures gui.puzzle == old(gui.puzzle) && gui.stack == old(gui.stack)
    ensures outcome == Loaded
    ensures gui.info == if gui.stack == [] then GameReset else GameLoaded
  {
    gui.Save(file);
    outcome := gui.Load(file);
    SaveLoadRoundTrip(gui.engine, old(gui.stack), file.lines.value, gui.stack, outcome);
  }
}
