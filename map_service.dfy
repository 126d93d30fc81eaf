/** MapService (src/service/map/mapService.ts): the grid move engine.
    An off-grid move makes the source throw and then swallow the exception;
    here the target is an Option and the engine branches on it. */
module MapService {
  import opened Params
  import opened Options
  import opened Grid
  import opened World
  import Greedy
  import Alternate
  import PositionSim

  /** One character's move in a tick, fixed before any move is committed. */
  datatype Step = Step(direction: Direction, target: Coord)

  /** Where the greedy choice takes a character, if it stays on the grid. */
  function GreedyTarget(ch: CharView, m: MapView): Option<Coord>
    requires |m.points| == CELLS
  {
    MoveTo(ch.coord, Greedy.Choose(ch.coord, m))
  }

  predicate TargetsOnGrid(cs: seq<CharView>, m: MapView)
    requires |m.points| == CELLS
  {
    forall i :: 0 <= i < |cs| ==> GreedyTarget(cs[i], m).Some?
  }

  /** The map phase of a tick: every direction and target, all computed
      from the same pre-tick views. */
  function Plan(cs: seq<CharView>, m: MapView): (steps: seq<Step>)
    requires |m.points| == CELLS && TargetsOnGrid(cs, m)
    ensures |steps| == |cs|
  {
    seq(|cs|, i requires 0 <= i < |cs| => Step(Greedy.Choose(cs[i].coord, m), GreedyTarget(cs[i], m).value))
  }

  predicate StepsOnGrid(steps: seq<Step>)
  {
    forall i :: 0 <= i < |steps| ==> InBounds(steps[i].target)
  }

  /** One commit: startWalk, then mapState.advance to the same target. */
  function Commit(ch: CharView, m: MapView, s: Step): (CharView, MapView)
    requires |m.points| == CELLS && InBounds(s.target)
  {
    Arrive(Walking(ch, s.target, s.direction), m, s.target)
  }

  /** The forEach phase of a tick: commits in array order, each one on the
      map the earlier ones left. */
  function CommitAll(cs: seq<CharView>, m: MapView, steps: seq<Step>): (r: (seq<CharView>, MapView))
    requires |steps| == |cs| && StepsOnGrid(steps) && |m.points| == CELLS
    ensures |r.0| == |cs| && |r.1.points| == CELLS && r.1.turn == m.turn + |cs|
    ensures forall j :: 0 <= j < |cs| ==>
              r.0[j].coord == steps[j].target && r.0[j].direction == steps[j].direction && r.0[j].walking
    ensures ValidMap(m) ==> ValidMap(r.1) && forall j :: 0 <= j < |cs| ==> r.0[j].score >= cs[j].score
    decreases |cs|
  {
    if cs == [] then ([], m)
    else
      var n := |cs| - 1;
      var prior := CommitAll(cs[..n], m, steps[..n]);
      var last := Commit(cs[n], prior.1, steps[n]);
      (prior.0 + [last.0], last.1)
  }

  /** Committing one more character extends the commits of the prefix. */
  lemma CommitOneMore(cs: seq<CharView>, m: MapView, steps: seq<Step>, i: nat)
    requires |steps| == |cs| && StepsOnGrid(steps) && |m.points| == CELLS && i < |cs|
    ensures var prior := CommitAll(cs[..i], m, steps[..i]);
            var last := Commit(cs[i], prior.1, steps[i]);
            CommitAll(cs[..i + 1], m, steps[..i + 1]) == (prior.0 + [last.0], last.1)
  {
    assert cs[..i + 1][..i] == cs[..i] && steps[..i + 1][..i] == steps[..i];
  }

  /** simulatePosition on views: None when some character's greedy target
      is off the grid (the exception escapes the map phase, nothing is
      committed); otherwise every planned move committed in order. */
  function Tick(cs: seq<CharView>, m: MapView): Option<(seq<CharView>, MapView)>
    requires |m.points| == CELLS
  {
    if TargetsOnGrid(cs, m) then Some(CommitAll(cs, m, Plan(cs, m))) else None
  }

  /** simulate on views: None for an off-grid target. */
  function SimulateOne(ch: CharView, m: MapView, d: Direction): Option<(CharView, MapView)>
    requires |m.points| == CELLS
  {
    match MoveTo(ch.coord, d)
    case None => None
    case Some(t) => Some(Commit(ch, m, Step(d, t)))
  }

  /** A single move collects exactly the target cell: the character stands
      on it, walking in direction d, its score grows by the cell's point,
      the cell is emptied and one turn passes. Nothing else changes. */
  lemma SimulateOneCommitsTarget(ch: CharView, m: MapView, d: Direction)
    requires ValidMap(m)
    ensures SimulateOne(ch, m, d).None? <==> MoveTo(ch.coord, d).None?
    ensures MoveTo(ch.coord, d).Some? ==>
      var t := MoveTo(ch.coord, d).value;
      var (c, m') := SimulateOne(ch, m, d).value;
      c == ch.(coord := t, score := ch.score + PointAt(m, t), walking := true, direction := d, target := t) &&
      PointAt(m', t) == 0 && m'.turn == m.turn + 1 && ValidMap(m') &&
      forall k :: 0 <= k < CELLS && k != Index(t) ==> m'.points[k] == m.points[k]
  {
  }

  /** Character j is committed on the map that the commits of characters
      0 .. j-1 left: commits happen in array order. */
  lemma {:induction false} CommitAt(cs: seq<CharView>, m: MapView, steps: seq<Step>, j: nat)
    requires |steps| == |cs| && StepsOnGrid(steps) && |m.points| == CELLS && j < |cs|
    ensures CommitAll(cs, m, steps).0[j] == Commit(cs[j], CommitAll(cs[..j], m, steps[..j]).1, steps[j]).0
  {
    var n := |cs| - 1;
    if j < n {
      CommitAt(cs[..n], m, steps[..n], j);
      assert cs[..n][..j] == cs[..j] && steps[..n][..j] == steps[..j];
    } else {
      assert cs[..j] == cs[..n] && steps[..j] == steps[..n];
    }
  }

  /** A collected cell stays empty for the rest of the tick. */
  lemma {:induction false} EmptiedCellStaysEmpty(cs: seq<CharView>, m: MapView, steps: seq<Step>, k: nat, c: Coord)
    requires |steps| == |cs| && StepsOnGrid(steps) && |m.points| == CELLS && k <= |cs| && InBounds(c)
    requires PointAt(CommitAll(cs[..k], m, steps[..k]).1, c) == 0
    ensures PointAt(CommitAll(cs, m, steps).1, c) == 0
  {
    var n := |cs| - 1;
    if k < |cs| {
      assert cs[..n][..k] == cs[..k] && steps[..n][..k] == steps[..k];
      EmptiedCellStaysEmpty(cs[..n], m, steps[..n], k, c);
    } else {
      assert cs[..k] == cs && steps[..k] == steps;
    }
  }

  /** Two characters heading for the same cell in one tick: the later one
      in array order finds it already emptied and gains nothing. */
  lemma LaterCollectsNothing(cs: seq<CharView>, m: MapView, steps: seq<Step>, i: nat, j: nat)
    requires |steps| == |cs| && StepsOnGrid(steps) && |m.points| == CELLS
    requires i < j < |cs| && steps[i].target == steps[j].target
    ensures CommitAll(cs, m, steps).0[j].score == cs[j].score
  {
    CommitAt(cs, m, steps, j);
    var t := steps[i].target;
    CommitOneMore(cs, m, steps, i);
    assert PointAt(CommitAll(cs[..i + 1], m, steps[..i + 1]).1, t) == 0;
    assert cs[..j][..i + 1] == cs[..i + 1] && steps[..j][..i + 1] == steps[..i + 1];
    EmptiedCellStaysEmpty(cs[..j], m, steps[..j], i + 1, t);
  }

  /** Every character's direction and target in a tick are those the
      greedy strategy gives on the pre-tick map, whatever earlier commits
      of the same tick did. */
  lemma TickUsesPreTickPlan(cs: seq<CharView>, m: MapView)
    requires |m.points| == CELLS && Tick(cs, m).Some?
    ensures forall j :: 0 <= j < |cs| ==>
      Tick(cs, m).value.0[j].direction == Greedy.Choose(cs[j].coord, m) &&
      Some(Tick(cs, m).value.0[j].coord) == GreedyTarget(cs[j], m)
  {
  }

  /** A tick aborts exactly when some character's greedy target is off
      the grid, and from on-grid positions it never does. */
  lemma TickAbortsIffOffGrid(cs: seq<CharView>, m: MapView)
    requires |m.points| == CELLS
    ensures Tick(cs, m).None? <==> exists j :: 0 <= j < |cs| && MoveTo(cs[j].coord, Greedy.Choose(cs[j].coord, m)).None?
    ensures (forall j :: 0 <= j < |cs| ==> InBounds(cs[j].coord)) ==> Tick(cs, m).Some?
  {
    forall j | 0 <= j < |cs| && InBounds(cs[j].coord)
      ensures GreedyTarget(cs[j], m).Some?
    {
      Greedy.ChoiceStaysOnGrid(cs[j].coord, m);
    }
  }

  // ---------------------------------------------------------------------
  // The engine's operations on the live objects.

  /** advance, without the tween: an off-grid move is silently dropped;
      otherwise the character starts walking, and the commit waits for the
      animation's completion callback (returned here as the pending target). */
  method Advance(character: Character, direction: Direction) returns (pending: Option<Coord>)
    modifies character
    ensures pending == MoveTo(old(character.coord), direction)
    ensures pending.None? ==> character.View() == old(character.View())
    ensures pending.Some? ==> character.View() == Walking(old(character.View()), pending.value, direction)
  {
    pending := MoveTo(character.coord, direction);
    match pending {
      case None =>
      case Some(next) => character.StartWalk(next, direction);
    }
  }

  /** simulate: the synchronous one-agent move of a two-agent rollout. */
  method Simulate(sim: Alternate.Rollout, direction: Direction)
    requires |sim.mapState.points| == CELLS
    modifies sim.character, sim.mapState
    ensures |sim.mapState.points| == CELLS
    ensures var r := SimulateOne(old(sim.character.View()), old(sim.mapState.View()), direction);
      if r.None? then sim.character.View() == old(sim.character.View()) && sim.mapState.View() == old(sim.mapState.View())
      else (sim.character.View(), sim.mapState.View()) == r.value
  {
    var next := MoveTo(sim.character.coord, direction);
    match next {
      case None =>
      case Some(t) =>
        sim.character.StartWalk(t, direction);
        sim.mapState.Advance(sim.character, t);
    }
  }

  /** simulatePosition: one tick of the multi-agent rollout. */
  method SimulatePosition(sim: PositionSim.Rollout)
    requires sim.Valid()
    modifies sim.mapState, set c | c in sim.characters
    ensures sim.Valid()
    ensures var r := Tick(old(Views(sim.characters)), old(sim.mapState.View()));
      if r.None? then Views(sim.characters) == old(Views(sim.characters)) && sim.mapState.View() == old(sim.mapState.View())
      else (Views(sim.characters), sim.mapState.View()) == r.value
  {
    var steps := PlanTick(sim.characters, sim.mapState);
    if steps.Some? {
      CommitTick(sim.characters, sim.mapState, steps.value);
    }
  }

  /** The map phase of simulatePosition: each character's greedy direction
      and target, all read from the pre-tick state; None as soon as one
      target is off the grid (where the source's exception leaves it). */
  method PlanTick(chars: seq<Character>, board: MapState) returns (steps: Option<seq<Step>>)
    requires |board.points| == CELLS
    ensures steps.None? <==> !TargetsOnGrid(Views(chars), board.View())
    ensures steps.Some? ==> steps.value == Plan(Views(chars), board.View())
  {
    ghost var cs0 := Views(chars);
    var planned: seq<Step> := [];
    for i := 0 to |chars|
      invariant |planned| == i
      invariant forall j :: 0 <= j < i ==> GreedyTarget(cs0[j], board.View()).Some?
      invariant forall j :: 0 <= j < i ==> planned[j] == Step(Greedy.Choose(cs0[j].coord, board.View()), GreedyTarget(cs0[j], board.View()).value)
    {
      var direction := Greedy.Choose(chars[i].coord, board.View());
      var next := MoveTo(chars[i].coord, direction);
      if next.None? {
        assert GreedyTarget(cs0[i], board.View()).None?;
        return None;
      }
      planned := planned + [Step(direction, next.value)];
    }
    steps := Some(planned);
  }

  /** The forEach phase of simulatePosition: startWalk then advance, for
      each character in array order. */
  method CommitTick(chars: seq<Character>, board: MapState, steps: seq<Step>)
    requires |board.points| == CELLS && Distinct(chars)
    requires |steps| == |chars| && StepsOnGrid(steps)
    modifies board, set c | c in chars
    ensures (Views(chars), board.View()) == CommitAll(old(Views(chars)), old(board.View()), steps)
  {
    ghost var cs0 := Views(chars);
    ghost var m0 := board.View();
    for i := 0 to |chars|
      invariant board.View() == CommitAll(cs0[..i], m0, steps[..i]).1
      invariant forall j :: 0 <= j < i ==> chars[j].View() == CommitAll(cs0[..i], m0, steps[..i]).0[j]
      invariant forall j :: i <= j < |chars| ==> chars[j].View() == cs0[j]
    {
      chars[i].StartWalk(steps[i].target, steps[i].direction);
      board.Advance(chars[i], steps[i].target);
      CommitOneMore(cs0, m0, steps, i);
    }
    assert cs0[..|chars|] == cs0 && steps[..|chars|] == steps;
    assert Views(chars) == CommitAll(cs0, m0, steps).0;
  }

  /** legalDirections: the moves 0..3 whose target is on the grid. */
  method LegalDirections(character: Character) returns (directions: seq<Direction>)
    ensures forall d :: d in directions <==> d != NONE && MoveTo(character.coord, d).Some?
    ensures forall i, j :: 0 <= i < j < |directions| ==> Ordinal(directions[i]) < Ordinal(directions[j])
    ensures |directions| <= 4
  {
    directions := [];
    for k := 0 to 4
      invariant |directions| <= k
      invariant forall d :: d in directions ==> d != NONE && Ordinal(d) < k && MoveTo(character.coord, d).Some?
      invariant forall d :: d != NONE && Ordinal(d) < k && MoveTo(character.coord, d).Some? ==> d in directions
      invariant forall i, j :: 0 <= i < j < |directions| ==> Ordinal(directions[i]) < Ordinal(directions[j])
    {
      var direction := FromOrdinal(k);
      if MoveTo(character.coord, direction).Some? {
        directions := directions + [direction];
      }
    }
  }

  /** getPointByDirection: the point one step away, or 0 off the grid. */
  method GetPointByDirection(character: Character, mapState: MapState, direction: Direction) returns (point: int)
    requires |mapState.points| == CELLS
    ensures MoveTo(character.coord, direction).None? ==> point == 0
    ensures MoveTo(character.coord, direction).Some? ==> point == mapState.GetPoint(MoveTo(character.coord, direction).value)
    ensures point == Peek(character.coord, mapState.View(), direction)
  {
    var next := MoveTo(character.coord, direction);
    match next {
      case None => point := 0;
      case Some(t) => point := mapState.GetPoint(t);
    }
  }
}
