/** AlternateImpl (src/service/simulate/direction/impl/alternateImpl.ts):
    the two-agent rollout record. It owns clones of its two characters and
    of the map, so nothing it does reaches the state it was built from. */
module Alternate {
  import opened Params
  import opened Grid
  import opened World

  class Rollout {
    var character: Character
    var opponent: Character
    var mapState: MapState
    /** Recorded but unused by the source. */
    var firstDirection: Direction
    var evaluatedScore: int

    /** Stores clones of both characters and of the map, never the objects
        passed in; the score defaults to 0 and the first direction is NONE. */
    constructor (character: Character, opponent: Character, mapState: MapState, evaluatedScore: int := 0)
      ensures fresh(this.character) && fresh(this.opponent) && fresh(this.mapState)
      ensures this.character != this.opponent
      ensures this.character.View() == character.View()
      ensures this.opponent.View() == opponent.View()
      ensures this.mapState.View() == mapState.View()
      ensures this.evaluatedScore == evaluatedScore && firstDirection == NONE
    {
      var c := character.Clone();
      var o := opponent.Clone();
      var m := mapState.Clone();
      this.character, this.opponent, this.mapState := c, o, m;
      this.evaluatedScore := evaluatedScore;
      firstDirection := NONE;
    }

    /** A new rollout built from this one's participants, so again from
        fresh clones of them, with the same score. */
    method Clone() returns (r: Rollout)
      ensures fresh(r) && fresh(r.character) && fresh(r.opponent) && fresh(r.mapState)
      ensures r.character.View() == character.View()
      ensures r.opponent.View() == opponent.View()
      ensures r.mapState.View() == mapState.View()
      ensures r.evaluatedScore == evaluatedScore && r.firstDirection == NONE
    {
      r := new Rollout(character, opponent, mapState, evaluatedScore);
    }

    /** The differential score: own score minus the opponent's. Only
        evaluatedScore changes. */
    method Evaluate()
      modifies this`evaluatedScore
      ensures evaluatedScore == character.score - opponent.score
    {
      evaluatedScore := character.GetScore() - opponent.GetScore();
    }

    /** Delegates to the rollout's own map. */
    method IsDone() returns (done: bool)
      ensures done <==> (mapState.turn >= END_TURN || forall i :: 0 <= i < |mapState.points| ==> mapState.points[i] == 0)
    {
      done := mapState.IsDone();
    }
  }

  /** Two cloned agents with scores 5 and 3 evaluate to 2. */
  method EvaluateExample() returns (score: int)
    ensures score == 2
  {
    var board := new MapState(MapView(seq(CELLS, _ => 1), 0));
    var mine := new Character.FromView(CharView(Coord(0, 0), 5, false, NONE, Coord(0, 0)));
    var theirs := new Character.FromView(CharView(Coord(4, 4), 3, false, NONE, Coord(4, 4)));
    var rollout := new Rollout(mine, theirs, board);
    rollout.Evaluate();
    score := rollout.evaluatedScore;
  }
}
