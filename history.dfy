/** The move history on disk: the file save.txt that `save` writes and
    `load` reads, one direction name per line, oldest move first. */
module History {
  import opened Directions
  import opened Engine

  /** The file save.txt. lines is None when no file can be opened for
      reading (FileNotFoundException); writable says whether it can be
      opened for writing. */
  class SaveFile {
    var lines: Option<seq<string>>
    var writable: bool

    constructor (lines: Option<seq<string>>, writable: bool)
      ensures this.lines == lines && this.writable == writable
    {
      this.lines := lines;
      this.writable := writable;
    }
  }

  /** lines is what `save` writes for history h: for each entry, oldest
      first, its name on a line of its own. */
  ghost predicate Serialises(h: seq<Direction>, lines: seq<string>)
  {
    |lines| == |h| && forall i | 0 <= i < |h| :: lines[i] == Name(h[i])
  }

  /** How a load ended. Loaded: every line was replayed. NoFile: the file
      could not be opened. Unparsable: a line is not a direction name (Java:
      an uncaught IllegalArgumentException). IllegalMove: a line names a move
      that is not legal where it is replayed. */
  datatype LoadOutcome = Loaded | NoFile | Unparsable | IllegalMove

  /** Loading lines from the fresh puzzle gives history h and ends with
      outcome: h is the longest legal run of parsed lines from the start, and
      the outcome says why the replay stopped. */
  ghost predicate LoadedFrom<S>(e: Sokoban<S>, lines: seq<string>, h: seq<Direction>, outcome: LoadOutcome)
  {
    && Legal(e, e.init, h)
    && |h| <= |lines|
    && (forall i | 0 <= i < |h| :: Parse(lines[i]) == Some(h[i]))
    && match outcome
       case Loaded => |h| == |lines|
       case NoFile => false
       case Unparsable => |h| < |lines| && Parse(lines[|h|]).None?
       case IllegalMove =>
         |h| < |lines| && Parse(lines[|h|]).Some?
         && !e.canMove(Replay(e, e.init, h), Parse(lines[|h|]).value)
  }

  /** A load result is determined by the lines: there is one history and one
      outcome that LoadedFrom admits. */
  lemma LoadDeterministic<S>(e: Sokoban<S>, lines: seq<string>,
                             h1: seq<Direction>, o1: LoadOutcome, h2: seq<Direction>, o2: LoadOutcome)
    requires LoadedFrom(e, lines, h1, o1) && LoadedFrom(e, lines, h2, o2)
    ensures h1 == h2 && o1 == o2
  {
    LoadNotShorter(e, lines, h1, o1, h2, o2);
    LoadNotShorter(e, lines, h2, o2, h1, o1);
    assert h1 == h2;
  }

  /** An admitted load result never stops short of another admitted one. */
  lemma LoadNotShorter<S>(e: Sokoban<S>, lines: seq<string>,
                          h1: seq<Direction>, o1: LoadOutcome, h2: seq<Direction>, o2: LoadOutcome)
    requires LoadedFrom(e, lines, h1, o1) && LoadedFrom(e, lines, h2, o2)
    ensures |h2| <= |h1|
  {
    if |h1| < |h2| {
      var k := |h1|;
      match o1
      case Loaded =>
        assert false;
      case NoFile =>
        assert false;
      case Unparsable =>
        assert false;
      case IllegalMove =>
        assert h1 == h2[..k];
        LegalPrefix(e, e.init, h2, k);
        assert false;
    }
  }

  /** Loading what `save` wrote for a legal history gives back that history
      and reports a complete load. */
  lemma SaveLoadRoundTrip<S>(e: Sokoban<S>, h: seq<Direction>, lines: seq<string>,
                             h': seq<Direction>, outcome: LoadOutcome)
    requires Legal(e, e.init, h) && Serialises(h, lines)
    requires LoadedFrom(e, lines, h', outcome)
    ensures h' == h && outcome == Loaded
  {
    forall i | 0 <= i < |h| ensures Parse(lines[i]) == Some(h[i]) {
      ParseName(h[i]);
    }
    assert LoadedFrom(e, lines, h, Loaded);
    LoadDeterministic(e, lines, h', outcome, h, Loaded);
  }
}
