/** The game's fixed configuration (src/params.ts). Every value is a
    static readonly field in the source, so each is a constant here. */
module Params {
  /** Number of columns of the grid. */
  const MAP_COLUMN: int := 5
  /** Number of rows of the grid. */
  const MAP_ROW: int := 5
  /** Turn count at which a game (or a rollout) ends. */
  const END_TURN: int := 15
  /** Number of characters placed by the automatic placement search. */
  const CHARACTER_NUM: int := 3

  /** Number of cells of the grid. */
  const CELLS: int := MAP_COLUMN * MAP_ROW

  /** The placement search always has a cell to move a character to:
      fewer characters than cells, and a non-empty grid. */
  lemma ConfigurationLeavesFreeCell()
    ensures 0 < CHARACTER_NUM < CELLS
    ensures MAP_COLUMN >= 2 && MAP_ROW >= 2
  {
  }
}
