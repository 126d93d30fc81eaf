/** Stand-in for GreedyImpl, the strategy that the multi-agent tick asks for
    every character's direction (GreedyImpl is not part of this model). It
    takes the move with the largest peeked point, the earliest of UP, DOWN,
    LEFT, RIGHT on a tie, and NONE when no move stays on the grid. */
module Greedy {
  import opened Params
  import opened Options
  import opened Grid
  import opened World

  /** Keeps `best` unless d is a legal move that peeks strictly more. */
  function Better(c: Coord, m: MapView, best: Direction, d: Direction): Direction
    requires |m.points| == CELLS
  {
    if MoveTo(c, d).Some? && (best == NONE || Peek(c, m, d) > Peek(c, m, best)) then d else best
  }

  function Choose(c: Coord, m: MapView): (d: Direction)
    requires |m.points| == CELLS
    ensures d == NONE || MoveTo(c, d).Some?
  {
    Better(c, m, Better(c, m, Better(c, m, Better(c, m, NONE, UP), DOWN), LEFT), RIGHT)
  }

  /** From a cell of the grid, the chosen direction never leaves it. */
  lemma ChoiceStaysOnGrid(c: Coord, m: MapView)
    requires |m.points| == CELLS && InBounds(c)
    ensures MoveTo(c, Choose(c, m)).Some?
  {
  }
}
