/** The puzzle engine (the class Sokoban, which is not part of this model)
    seen only through the interface both front ends use, and the replay of a
    move history over it. No push rule is modelled: the engine is any
    deterministic state machine with a fixed initial state. */
module Engine {
  import opened Directions

  /** init: `new Sokoban(new File(FILENAME))`, the state built from the fixed
      layout file; canMove: `puzzle.canMove(d)`; move: `puzzle.move(d)`, whose
      result the front ends only rely on where canMove holds; onTarget:
      `puzzle.onTarget()`, the win test. */
  datatype Sokoban<!S> = Sokoban(
    init: S,
    canMove: (S, Direction) -> bool,
    move: (S, Direction) -> S,
    onTarget: S -> bool)

  /** `puzzle.move(d)` as the model applies it: only for a legal move, so
      that the result is the one-entry history [d] replayed legally. */
  function Apply<S>(e: Sokoban<S>, s: S, d: Direction): (r: S)
    requires e.canMove(s, d)
    ensures Legal(e, s, [d])
    ensures r == Replay(e, s, [d])
  {
    e.move(s, d)
  }

  /** `puzzle.canMove()`: the directions that are legal from s. */
  function LegalDirections<S>(e: Sokoban<S>, s: S): (r: set<Direction>)
    ensures forall d: Direction :: d in r <==> e.canMove(s, d)
  {
    assert forall d: Direction :: d in AllDirections by {
      forall d: Direction ensures d in AllDirections { InAllDirections(d); }
    }
    set d | d in AllDirections && e.canMove(s, d)
  }

  /** The state reached from s by applying the moves of h oldest first. */
  function Replay<S>(e: Sokoban<S>, s: S, h: seq<Direction>): S
    decreases |h|
  {
    if h == [] then s else Replay(e, e.move(s, h[0]), h[1..])
  }

  /** Every move of h is legal in the state it is applied to, replaying from s. */
  predicate Legal<S>(e: Sokoban<S>, s: S, h: seq<Direction>)
    decreases |h|
  {
    h == [] || (e.canMove(s, h[0]) && Legal(e, e.move(s, h[0]), h[1..]))
  }

  /** The session invariant: the history is a legal play from the fresh
      puzzle, and the current puzzle is that history replayed. */
  ghost predicate Consistent<S>(e: Sokoban<S>, puzzle: S, stack: seq<Direction>)
  {
    Legal(e, e.init, stack) && puzzle == Replay(e, e.init, stack)
  }

  /** A directional command: when d is illegal nothing changes, otherwise
      exactly one move is applied and exactly d is pushed. */
  ghost predicate StepTo<S>(e: Sokoban<S>, p0: S, h0: seq<Direction>, d: Direction, p1: S, h1: seq<Direction>)
  {
    if e.canMove(p0, d) then p1 == e.move(p0, d) && h1 == h0 + [d]
    else p1 == p0 && h1 == h0
  }

  /** Undo by replay: an empty history is left alone; otherwise the top
      entry is dropped and the puzzle is the fresh one with the rest replayed. */
  ghost predicate UndoTo<S>(e: Sokoban<S>, p0: S, h0: seq<Direction>, p1: S, h1: seq<Direction>)
  {
    if h0 == [] then p1 == p0 && h1 == h0
    else h1 == h0[..|h0| - 1] && p1 == Replay(e, e.init, h1)
  }

  /** Replaying one more move is moving once from the replayed state. */
  lemma {:induction false} ReplayAppend<S>(e: Sokoban<S>, s: S, h: seq<Direction>, d: Direction)
    ensures Replay(e, s, h + [d]) == e.move(Replay(e, s, h), d)
    decreases |h|
  {
    if h == [] {
      assert h + [d] == [d];
      assert [d][1..] == [];
    } else {
      assert (h + [d])[0] == h[0];
      assert (h + [d])[1..] == h[1..] + [d];
      ReplayAppend(e, e.move(s, h[0]), h[1..], d);
    }
  }

  /** A history extended by d is legal exactly when the history is legal
      and d is legal in the state it leads to. */
  lemma {:induction false} LegalAppend<S>(e: Sokoban<S>, s: S, h: seq<Direction>, d: Direction)
    ensures Legal(e, s, h + [d]) <==> Legal(e, s, h) && e.canMove(Replay(e, s, h), d)
    decreases |h|
  {
    if h == [] {
      assert h + [d] == [d];
      assert [d][1..] == [];
    } else {
      assert (h + [d])[0] == h[0];
      assert (h + [d])[1..] == h[1..] + [d];
      LegalAppend(e, e.move(s, h[0]), h[1..], d);
    }
  }

  /** Every prefix of a legal history is legal, and the next entry is
      legal in the state that prefix reaches. */
  lemma {:induction false} LegalPrefix<S>(e: Sokoban<S>, s: S, h: seq<Direction>, k: nat)
    requires Legal(e, s, h) && k <= |h|
    ensures Legal(e, s, h[..k])
    ensures k < |h| ==> e.canMove(Replay(e, s, h[..k]), h[k])
    decreases k
  {
    if k == 0 {
      assert h[..0] == [];
    } else {
      LegalPrefix(e, e.move(s, h[0]), h[1..], k - 1);
      assert h[..k][0] == h[0];
      assert h[..k][1..] == h[1..][..k - 1];
      if k < |h| {
        assert h[1..][k - 1] == h[k];
      }
    }
  }

  /** A directional command keeps the invariant. */
  lemma StepKeepsConsistent<S>(e: Sokoban<S>, p0: S, h0: seq<Direction>, d: Direction, p1: S, h1: seq<Direction>)
    requires Consistent(e, p0, h0) && StepTo(e, p0, h0, d, p1, h1)
    ensures Consistent(e, p1, h1)
  {
    if e.canMove(p0, d) {
      LegalAppend(e, e.init, h0, d);
      ReplayAppend(e, e.init, h0, d);
    }
  }

  /** Undo keeps the invariant. */
  lemma UndoKeepsConsistent<S>(e: Sokoban<S>, p0: S, h0: seq<Direction>, p1: S, h1: seq<Direction>)
    requires Consistent(e, p0, h0) && UndoTo(e, p0, h0, p1, h1)
    ensures Consistent(e, p1, h1)
  {
    if h0 != [] {
      LegalPrefix(e, e.init, h0, |h0| - 1);
    }
  }

  /** Undo after a legal step restores both the puzzle and the history. */
  lemma UndoAfterStep<S>(e: Sokoban<S>, p0: S, h0: seq<Direction>, d: Direction,
                         p1: S, h1: seq<Direction>, p2: S, h2: seq<Direction>)
    requires Consistent(e, p0, h0) && e.canMove(p0, d)
    requires StepTo(e, p0, h0, d, p1, h1) && UndoTo(e, p1, h1, p2, h2)
    ensures p2 == p0 && h2 == h0
  {
    assert h1[..|h1| - 1] == h0;
  }
}
