/** Stand-in for the grid coordinate and the move vocabulary (Coord and
    DirectionType are not part of this model: only how the engine uses
    them is kept). */
module Grid {
  import opened Params
  import opened Options

  /** A grid coordinate: a column and a row. Equality is structural. */
  datatype Coord = Coord(col: int, row: int)

  /** The move vocabulary. The four moves carry the numbers 0 to 3, in the
      order below, and NONE comes last. */
  datatype Direction = UP | DOWN | LEFT | RIGHT | NONE

  function Ordinal(d: Direction): (k: nat)
  {
    match d
    case UP => 0
    case DOWN => 1
    case LEFT => 2
    case RIGHT => 3
    case NONE => 4
  }

  /** The move with number k, for k in 0..3. */
  function FromOrdinal(k: int): (d: Direction)
    requires 0 <= k < 4
    ensures d != NONE && Ordinal(d) == k
  {
    if k == 0 then UP else if k == 1 then DOWN else if k == 2 then LEFT else RIGHT
  }

  predicate InBounds(c: Coord)
  {
    0 <= c.col < MAP_COLUMN && 0 <= c.row < MAP_ROW
  }

  /** Unit offset (columns, rows) of a direction; NONE stays put. */
  function Offset(d: Direction): (int, int)
  {
    match d
    case UP => (0, -1)
    case DOWN => (0, 1)
    case LEFT => (-1, 0)
    case RIGHT => (1, 0)
    case NONE => (0, 0)
  }

  /** Coord.getMoveToCoord: the neighbour in direction d, or None where the
      source throws because the neighbour is off the grid. */
  function MoveTo(c: Coord, d: Direction): (r: Option<Coord>)
    ensures r.Some? ==> InBounds(r.value)
    ensures r.Some? <==> InBounds(Coord(c.col + Offset(d).0, c.row + Offset(d).1))
  {
    var t := Coord(c.col + Offset(d).0, c.row + Offset(d).1);
    if InBounds(t) then Some(t) else None
  }

  /** Position of a cell in the row-major point sequence of a map. */
  function Index(c: Coord): (k: nat)
    requires InBounds(c)
    ensures k < CELLS
  {
    c.row * MAP_COLUMN + c.col
  }

  predicate AllInBounds(cs: seq<Coord>)
  {
    forall i :: 0 <= i < |cs| ==> InBounds(cs[i])
  }

  predicate Distinct<T(==)>(s: seq<T>)
  {
    forall i, j :: 0 <= i < j < |s| ==> s[i] != s[j]
  }

  /** Every cell of the grid, row by row. */
  function AllCells(): (cs: seq<Coord>)
    ensures |cs| == CELLS && AllInBounds(cs) && Distinct(cs)
  {
    seq(CELLS, i requires 0 <= i < CELLS => Coord(i % MAP_COLUMN, i / MAP_COLUMN))
  }

  lemma {:induction false} SetOfSeqBound<T>(s: seq<T>)
    ensures |set x | x in s| <= |s|
  {
    if s != [] {
      var n := |s| - 1;
      SetOfSeqBound(s[..n]);
      assert (set x | x in s) == (set x | x in s[..n]) + {s[n]};
    }
  }

  lemma {:induction false} SetOfDistinctSeq<T>(s: seq<T>)
    requires Distinct(s)
    ensures |set x | x in s| == |s|
  {
    if s != [] {
      var n := |s| - 1;
      SetOfDistinctSeq(s[..n]);
      assert (set x | x in s) == (set x | x in s[..n]) + {s[n]};
      assert s[n] !in s[..n];
    }
  }

  /** A set of used cells smaller than the grid leaves a free cell. */
  lemma FreeCellExists(used: seq<Coord>)
    requires |used| < CELLS
    ensures exists c :: InBounds(c) && c !in used
  {
    var all := set x | x in AllCells();
    var taken := set x | x in used;
    SetOfDistinctSeq(AllCells());
    SetOfSeqBound(used);
    if all <= taken {
      SubsetSize(all, taken);
      assert false;
    }
    var c :| c in all && c !in taken;
  }

  lemma {:induction false} SubsetSize<T>(a: set<T>, b: set<T>)
    requires a <= b
    ensures |a| <= |b|
  {
    assert b == a + (b - a);
  }
}
