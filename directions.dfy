/** The four compass moves of the puzzle and their textual names.
    The Java enum Direction is not part of this model; its constants are
    NORTH, SOUTH, EAST and WEST, whose toString is the constant's name and
    whose valueOf accepts exactly that name (case-sensitive). */
module Directions {

  datatype Option<T> = None | Some(value: T)

  datatype Direction = NORTH | SOUTH | EAST | WEST

  const AllDirections: set<Direction> := {NORTH, SOUTH, EAST, WEST}

  /** Direction.toString: the name written to the save file. */
  function Name(d: Direction): string
  {
    match d
    case NORTH => "NORTH"
    case SOUTH => "SOUTH"
    case EAST => "EAST"
    case WEST => "WEST"
  }

  /** Direction.valueOf: the constant with exactly this name; None where
      Java throws IllegalArgumentException. */
  function Parse(line: string): (r: Option<Direction>)
    ensures r.Some? ==> Name(r.value) == line
    ensures r.None? <==> forall d: Direction :: Name(d) != line
  {
    if line == "NORTH" then Some(NORTH)
    else if line == "SOUTH" then Some(SOUTH)
    else if line == "EAST" then Some(EAST)
    else if line == "WEST" then Some(WEST)
    else None
  }

  /** valueOf(toString(d)) == d: reading back a written name gives the same move. */
  lemma ParseName(d: Direction)
    ensures Parse(Name(d)) == Some(d)
  {
  }

  /** Every direction is one of the four. */
  lemma InAllDirections(d: Direction)
    ensures d in AllDirections
  {
  }
}
