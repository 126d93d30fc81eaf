/** Stand-ins for the game's mutable entities, Character and MapState
    (neither is part of this model's sources). Each class has a value view
    of its fields; the engine's contracts are stated over these views. */
module World {
  import opened Params
  import opened Grid

  /** Everything a Character holds: position, score, the walking flag,
      and the direction and destination recorded by startWalk. */
  datatype CharView = CharView(coord: Coord, score: int, walking: bool, direction: Direction, target: Coord)

  /** Everything a MapState holds: the point of every cell, row-major,
      and the turn counter. */
  datatype MapView = MapView(points: seq<int>, turn: int)

  /** A character freshly placed on a cell. */
  function Placed(c: Coord): CharView
  {
    CharView(c, 0, false, NONE, c)
  }

  predicate ValidMap(m: MapView)
  {
    |m.points| == CELLS && forall i :: 0 <= i < |m.points| ==> m.points[i] >= 0
  }

  function PointAt(m: MapView, c: Coord): int
    requires |m.points| == CELLS && InBounds(c)
  {
    m.points[Index(c)]
  }

  /** MapState.isDone: the turn budget is spent or nothing is left. */
  predicate Done(m: MapView)
  {
    m.turn >= END_TURN || forall i :: 0 <= i < |m.points| ==> m.points[i] == 0
  }

  /** Character.startWalk: records destination and direction, marks busy. */
  function Walking(ch: CharView, t: Coord, d: Direction): CharView
  {
    ch.(walking := true, direction := d, target := t)
  }

  /** MapState.advance: the character stands on c and collects its point,
      the cell is emptied and the turn counter goes up by one. */
  function Arrive(ch: CharView, m: MapView, c: Coord): (CharView, MapView)
    requires |m.points| == CELLS && InBounds(c)
  {
    (ch.(coord := c, score := ch.score + PointAt(m, c)),
     MapView(m.points[Index(c) := 0], m.turn + 1))
  }

  /** MapService.getPointByDirection on views: the point one step in
      direction d, or 0 when that step leaves the grid. */
  function Peek(c: Coord, m: MapView, d: Direction): int
    requires |m.points| == CELLS
  {
    match MoveTo(c, d)
    case None => 0
    case Some(t) => PointAt(m, t)
  }

  class Character {
    var coord: Coord
    var score: int
    var walking: bool
    var direction: Direction
    var target: Coord

    function View(): CharView
      reads this
    {
      CharView(coord, score, walking, direction, target)
    }

    /** CharacterFactory.createForTargetPos, without the sprite. */
    constructor At(c: Coord)
      ensures View() == Placed(c)
    {
      coord, score, walking, direction, target := c, 0, false, NONE, c;
    }

    constructor FromView(v: CharView)
      ensures View() == v
    {
      coord, score, walking, direction, target := v.coord, v.score, v.walking, v.direction, v.target;
    }

    /** CharacterFactory.clone: a new character with the same fields. */
    method Clone() returns (r: Character)
      ensures fresh(r) && r.View() == View()
    {
      r := new Character.FromView(View());
    }

    method StartWalk(t: Coord, d: Direction)
      modifies this
      ensures View() == Walking(old(View()), t, d)
    {
      walking, direction, target := true, d, t;
    }

    function GetScore(): int
      reads this
    {
      score
    }
  }

  class MapState {
    var points: seq<int>
    var turn: int

    function View(): MapView
      reads this
    {
      MapView(points, turn)
    }

    constructor (v: MapView)
      ensures View() == v
    {
      points, turn := v.points, v.turn;
    }

    /** MapState.clone: an independent copy (a new object; the point
        sequence is a value, so nothing is shared). */
    method Clone() returns (r: MapState)
      ensures fresh(r) && r.View() == View()
    {
      r := new MapState(View());
    }

    function GetPoint(c: Coord): int
      reads this
      requires |points| == CELLS && InBounds(c)
    {
      PointAt(View(), c)
    }

    predicate IsDone()
      reads this
    {
      Done(View())
    }

    method Advance(ch: Character, c: Coord)
      requires |points| == CELLS && InBounds(c)
      modifies this, ch
      ensures (ch.View(), View()) == Arrive(old(ch.View()), old(View()), c)
    {
      ch.coord, ch.score := c, ch.score + points[Index(c)];
      points, turn := points[Index(c) := 0], turn + 1;
    }
  }

  /** The views of a sequence of characters, in order. */
  function Views(cs: seq<Character>): (vs: seq<CharView>)
    reads set c | c in cs
    ensures |vs| == |cs| && forall i :: 0 <= i < |cs| ==> vs[i] == cs[i].View()
  {
    seq(|cs|, i requires 0 <= i < |cs| reads set c | c in cs => cs[i].View())
  }

  /** Total score of a group of characters. */
  function SumScores(vs: seq<CharView>): (s: int)
    ensures (forall i :: 0 <= i < |vs| ==> vs[i].score >= 0) ==> s >= 0
  {
    if vs == [] then 0 else SumScores(vs[..|vs| - 1]) + vs[|vs| - 1].score
  }
}
