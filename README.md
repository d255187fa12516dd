# Sokoban session controller, modelled in Dafny

This project models the session controller of a Sokoban game. The game has two
front ends that each carry their own copy of the controller: the console
`SokobanUI` and the Swing window `GUI`. Each holds a puzzle (an instance of the
engine class `Sokoban`) and a move history (a `Stack<Direction>`). On top of
the engine it offers reset (`clear`), the four directional commands, a computer
move (`playerMove`), undo, save and load.

Undo and load do not reverse moves. Both rebuild the puzzle from the layout
file and replay the history through the engine. The model states and proves
the invariant this design relies on. The history is always a legal play from
the fresh puzzle, and the current puzzle is exactly that history replayed
(`Engine.Consistent`). Every command keeps this invariant. Saving writes one
direction name per line, oldest first. Loading those lines back gives the same
history and the same puzzle.

Files and modules:

- `directions.dfy`, module `Directions`: the four directions, their names
  (`toString`) and the parse of a name (`valueOf`).
- `engine.dfy`, module `Engine`: the puzzle engine as a value
  `Sokoban<S>(init, canMove, move, onTarget)` over an unspecified state type `S`.
  It also defines replay, legality of a history, the session invariant, and the
  specifications `StepTo` and `UndoTo` shared by both front ends.
- `history.dfy`, module `History`: the file `save.txt` (`SaveFile`), the save
  format (`Serialises`), the specification of a load (`LoadedFrom`) and the
  round-trip lemmas.
- `sokoban_ui.dfy`, module `TextInterface`: class `SokobanUI`, its command
  dispatch and its menu loop.
- `gui.dfy`, module `GraphicalInterface`: class `GUI`, its status text `info`
  and its key mapping.

The engine's push rule, win test and layout parsing are defined in the
`Sokoban` class, which this model does not cover, so the engine is a parameter. The initial state is fixed, `canMove` is
any predicate, `move` is any function, and `onTarget` is any test. The random
player is a nondeterministic choice of some legal direction.

The directional commands and the computer move test `canMove` before they call
`move`. `load` does not: it applies every parsed line with `puzzle.move(d)` and
pushes it, unguarded (SokobanUI.java:151-153, GUI.java:232-234). What the engine
does with an illegal move is defined in the `Sokoban` class. The comment at
SokobanUI.java:177-179 says that such a file makes `canMove` fail on load and
causes a fatal system error. The model therefore stops a load before the first
line that is not a legal move, reports `IllegalMove`, and ends the program
there, as it does for an unparsable line. Every call of
`move` in the model is therefore a legal one (`Engine.Apply`), and that is
proved for every replay.

In these places the model records what the code does:

- A line that is not a direction name makes `valueOf` throw an
  `IllegalArgumentException`, after the earlier lines were replayed. `load`
  catches only `IOException` (SokobanUI.java:157), so the exception leaves
  `execute`, `menu` (SokobanUI.java:51) and `main` (SokobanUI.java:262), and
  the program ends. The model's `Execute` reports such a load, and `Menu` reads
  no further line after it. The state stays partially replayed.
- The GUI sets "Game Loaded" inside the loop. So loading an empty file leaves
  the status "Game reset".
- The GUI's computer move changes the status only when the move wins.
- Commands are compared with `equalsIgnoreCase`. This matches a few non-ASCII
  characters as well: "ſ" (long s) selects south, and "quıt" quits.

## Model

| member | source | states |
|---|---|---|
| `Directions.Parse` | SokobanUI.java:151 | `valueOf` returns a direction only for that direction's exact name, and fails exactly when the line is no direction's name |
| `Directions.ParseName` | SokobanUI.java:133-151 | `valueOf` of the `toString` name that `save` writes gives back the same direction; the GUI's save and load (GUI.java:212-232) use the same pair |
| `Engine.Apply` | SokobanUI.java:253 | every `puzzle.move` call of the model (also SokobanUI.java:152 and 171, GUI.java:199, 233 and 353) is made only where `canMove` holds, and its result is the one-move history [d] replayed legally |
| `Engine.LegalDirections` | SokobanUI.java:237 | `puzzle.canMove()` holds a direction exactly when `canMove` holds for it |
| `Engine.ReplayAppend` | SokobanUI.java:170-173 | replaying one more history entry is one more engine move from the replayed state |
| `Engine.LegalAppend` | SokobanUI.java:181-188 | a history with d pushed is legal exactly when the history is legal and d is legal in the state it reaches |
| `Engine.LegalPrefix` | SokobanUI.java:167-173 | every prefix of a legal history is legal, and the next entry is legal where the prefix ends, so undo's replay never makes an illegal move |
| `Engine.StepKeepsConsistent` | SokobanUI.java:181-229 | a directional command keeps the invariant puzzle == Replay(init, history) with a legal history |
| `Engine.UndoKeepsConsistent` | SokobanUI.java:164-174 | undo keeps the same invariant |
| `Engine.UndoAfterStep` | SokobanUI.java:164-174 | undo right after a legal step restores the old puzzle and the old history |
| `History.LoadDeterministic` | SokobanUI.java:148-155 | the lines of a save file determine the loaded history and how the load ended |
| `History.LoadNotShorter` | SokobanUI.java:150-154 | an admitted load never stops before a line that another admitted load replays |
| `History.SaveLoadRoundTrip` | SokobanUI.java:130-155 | loading the lines saved for a legal history gives that history back, with a complete load |
| `TextInterface.ParseCommand` | SokobanUI.java:92-117 | a command is unknown exactly when it matches no keyword (ignoring case); otherwise it matches the keyword of the command it selects |
| `TextInterface.NonAsciiCommands` | SokobanUI.java:93-115 | the long s selects south, and "quit" written with a dotless i or a dotted capital I quits, as `equalsIgnoreCase` matches them |
| `TextInterface.QuitStopsMenu` | SokobanUI.java:48 | the menu loop goes on exactly when the last command does not parse as Quit and the puzzle is not solved |
| `TextInterface.MenuTraceStep` | SokobanUI.java:48-51 | one more loop iteration, with the guard holding, the program not ended and the line executed, extends a run of the menu by one line |
| `TextInterface.UnparsableLoadEnds` | SokobanUI.java:149-151 | a load whose first line is not a direction name clears the session and ends the program |
| `TextInterface.IllegalMoveLoadEnds` | SokobanUI.java:177-179 | a load whose first line names a move the fresh puzzle forbids clears the session and ends the program, the fatal error this comment describes for the replay at lines 151-153 |
| `TextInterface.LoadEndsUnlessComplete` | SokobanUI.java:147-159 | a load of an existing file ends the program exactly when it does not replay every line of it |
| `TextInterface.SaveThenLoadCommands` | SokobanUI.java:130-155 | a Save line to a writable file followed by a Load line, as `execute` runs them, restores the puzzle and the history, keeps the file as written, and does not end the program |
| `TextInterface.SokobanUI.constructor` | SokobanUI.java:33-38 | a new session has the fresh puzzle and an empty history |
| `TextInterface.SokobanUI.Clear` | SokobanUI.java:120-123 | the puzzle is the fresh one and the history is empty |
| `TextInterface.SokobanUI.Save` | SokobanUI.java:130-140 | if the file opens, it gets one line per history entry, oldest first, line i being the name of entry i; otherwise it is untouched |
| `TextInterface.SokobanUI.Load` | SokobanUI.java:146-160 | a missing file changes nothing; otherwise the session is reset and the history becomes the longest legal run of parsed lines, with the puzzle equal to its replay and the reason replay stopped |
| `TextInterface.SokobanUI.Undo` | SokobanUI.java:164-174 | an empty history is a no-op; otherwise the history loses its top entry and the puzzle is the fresh one with the rest replayed |
| `TextInterface.SokobanUI.Move` | SokobanUI.java:248-256 | a legal move is applied, an illegal one leaves the puzzle unchanged |
| `TextInterface.SokobanUI.Go` | SokobanUI.java:181-229 | an illegal direction changes neither puzzle nor history; a legal one applies exactly one move and pushes exactly that direction |
| `TextInterface.SokobanUI.North` | SokobanUI.java:181-190 | the directional step for NORTH, keeping the invariant |
| `TextInterface.SokobanUI.South` | SokobanUI.java:194-202 | the directional step for SOUTH, keeping the invariant |
| `TextInterface.SokobanUI.East` | SokobanUI.java:207-215 | the directional step for EAST, keeping the invariant |
| `TextInterface.SokobanUI.West` | SokobanUI.java:220-229 | the directional step for WEST, keeping the invariant |
| `TextInterface.SokobanUI.PlayerMove` | SokobanUI.java:236-241 | the chosen direction is in the legal set, is applied once and is pushed |
| `TextInterface.SokobanUI.Execute` | SokobanUI.java:92-117 | each command word runs its operation with that operation's effect on the puzzle, the history and save.txt (`Executes`): a move steps or changes nothing; a computer move changes nothing exactly when no direction is legal, and otherwise steps by one legal direction; undo, clear, save and load as their operations; Quit and unknown words change nothing. A save to an unwritable file and a load of a missing file change nothing, only a save writes the file, and the result says exactly when a load stopped before the end of the file, at a line that is not a direction name or names an illegal move, which ends the program |
| `TextInterface.SokobanUI.Menu` | SokobanUI.java:45-57 | returns the puzzle, history and save.txt contents before and after every line it read: the guard (last line not Quit, puzzle not solved) held before each line and the program had not ended, each line had its `execute` effect on all three, and the loop stops only when the guard fails, a load stops before the end of the file and so ends the program, or input runs out; the invariant holds throughout |
| `TextInterface.SaveThenLoad` | SokobanUI.java:130-160 | save followed by load restores the same history and the same puzzle |
| `GraphicalInterface.KeyBinding` | GUI.java:144-165 | UP, DOWN, LEFT and RIGHT select the direction whose arrow key was pressed, R selects a computer move, and every other key is invalid |
| `GraphicalInterface.GUI.constructor` | GUI.java:41-52 | a new window has the fresh puzzle, an empty history and the welcome status |
| `GraphicalInterface.GUI.SetInformation` | GUI.java:250-252 | the status becomes the given text |
| `GraphicalInterface.GUI.Clear` | GUI.java:178-185 | fresh puzzle, empty history, status "Game reset" |
| `GraphicalInterface.GUI.Undo` | GUI.java:190-204 | an empty history changes nothing, status included; otherwise the top entry is dropped, the rest is replayed from the fresh puzzle, and the status is "Move Undone" |
| `GraphicalInterface.GUI.Save` | GUI.java:209-220 | on success the file gets the history names oldest first and the status is "Game Saved"; otherwise the file is untouched and the status is the error |
| `GraphicalInterface.GUI.Load` | GUI.java:226-245 | a missing file changes only the status; otherwise it loads as on the console, and the status is "Game Loaded" if any line was replayed, else "Game reset" |
| `GraphicalInterface.GUI.Move` | GUI.java:348-357 | an illegal move sets "Invalid move"; a legal one is applied and sets "Game won!" only if it solves the puzzle |
| `GraphicalInterface.GUI.Go` | GUI.java:257-326 | an illegal direction sets "Move not valid" and changes nothing else; a legal one is applied and pushed once, and the status is "Game won!" or "Moved <Dir>" |
| `GraphicalInterface.GUI.North` | GUI.java:257-272 | the directional step for NORTH and its status |
| `GraphicalInterface.GUI.South` | GUI.java:277-290 | the directional step for SOUTH and its status |
| `GraphicalInterface.GUI.East` | GUI.java:295-308 | the directional step for EAST and its status |
| `GraphicalInterface.GUI.West` | GUI.java:313-326 | the directional step for WEST and its status |
| `GraphicalInterface.GUI.PlayerMove` | GUI.java:332-338 | a legal direction is applied and pushed; the status changes only to "Game won!" |
| `GraphicalInterface.GUI.KeyPressed` | GUI.java:144-165 | an arrow key steps in its direction with the status "Game won!", "Moved <Dir>" or "Move not valid"; R changes nothing (status included) exactly when no direction is legal, and otherwise moves and pushes one legal direction, setting "Game won!" only on a win; any other key changes only the status, to "Invalid Key, use Arrow Keys to move" |
| `GraphicalInterface.SaveThenLoad` | GUI.java:209-245 | save followed by load restores the same history and the same puzzle |

## Left out

- The engine's internals (the push rule, `onTarget`, `numOnTarget`, layout parsing of `screens/screen.1`) and the `Direction` and `RandomPlayer` classes: none of their source is part of this model. They appear only through the interface described above.
- Aliasing and in-place mutation of the `Sokoban` object: `puzzle.move(d)` is modelled as replacing the field with a new state value. The GUI's `makeFrame` stores `puzzle.getCell(row, col)` in `cells` (GUI.java:62-67). `clear` then replaces `puzzle` (GUI.java:180) without rebuilding `cells`, so `refreshCells` (GUI.java:363-369) keeps redrawing the cells of the first puzzle. That sharing affects only the display and is outside the model.
- A save line that is not a direction name: Java's `valueOf` throws an uncaught `IllegalArgumentException`. The console program then terminates, which the model's menu records by reading no further line, and the Swing event thread drops the event. The model ends the load with outcome `Unparsable` and keeps the partially replayed state that the exception leaves behind.
- A save line that names an illegal move: what the engine does then is defined in the `Sokoban` class, which this model does not cover. The model stops replay with outcome `IllegalMove` before calling `move` and, following the fatal error described at SokobanUI.java:177-179, its console menu reads no further line. The GUI model only stops the load.
- `playerMove` when no direction is legal: what `RandomPlayer.move` does on an empty vector is defined in the `RandomPlayer` class, which this model does not cover. The model chooses nothing and changes nothing.
- Console output (`displayMenu`, the printed messages, `trace`) and `System.exit`. Quit is modelled as the menu loop stopping. The loop also stops when the scripted input runs out, where `Scanner.nextLine` would throw.
- File access: `save.txt` is a `SaveFile` holding its lines, or None when it cannot be opened, plus whether it can be opened for writing. The model assumes that once save.txt opens, every line is written. `PrintStream` does not report a later write error (it only sets `checkError`), so such an error may leave a partial file while "game saved" / "Game Saved" is still printed or shown. The model does not capture that case.
- `TextInterface.EqualsIgnoreCase`: exact only when one side is ASCII, as every keyword is. It folds ASCII letters and the four characters that Java's `equalsIgnoreCase` matches to an ASCII letter (U+017F, U+0131, U+0130, U+212A). A comparison of two non-ASCII strings is not modelled, because `execute` never makes one.
- Swing frame and panel construction, `GUICell`, `refreshCells`, and the mouse and key listener plumbing: these are display only. The key-code mapping is kept.
