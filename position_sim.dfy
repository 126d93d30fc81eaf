/** Stand-in for SimulatePositionImpl, the multi-agent rollout record that
    the placement search drives (it is not part of this model). It holds its
    characters, its own copy of the map, the snapshot every candidate starts
    from, the candidate's starting coordinates and its evaluated score. */
module PositionSim {
  import opened Params
  import opened Grid
  import opened World

  function CoordsOf(vs: seq<CharView>): (cs: seq<Coord>)
    ensures |cs| == |vs| && forall i :: 0 <= i < |vs| ==> cs[i] == vs[i].coord
  {
    seq(|vs|, i requires 0 <= i < |vs| => vs[i].coord)
  }

  class Rollout {
    var characters: seq<Character>
    var mapState: MapState
    var start: MapView
    var firstCoords: seq<Coord>
    var evaluatedScore: int

    ghost predicate Valid()
      reads this, mapState, set c | c in characters
    {
      |mapState.points| == CELLS && Distinct(characters)
    }

    /** Keeps the characters, works on a clone of the map and remembers
        where the characters started. */
    constructor (characters: seq<Character>, mapState: MapState)
      ensures this.characters == characters && fresh(this.mapState)
      ensures this.mapState.View() == mapState.View() && start == mapState.View()
      ensures firstCoords == CoordsOf(Views(characters)) && evaluatedScore == 0
    {
      var m := mapState.Clone();
      this.characters, this.mapState := characters, m;
      start := mapState.View();
      firstCoords := CoordsOf(Views(characters));
      evaluatedScore := 0;
    }

    method DeleteAllCharacters()
      modifies this`characters
      ensures characters == []
    {
      characters := [];
    }

    /** Starts a new candidate: new characters on a fresh copy of the
        starting map. */
    method Init(cs: seq<Character>)
      modifies this
      ensures characters == cs && fresh(mapState) && mapState.View() == start
      ensures firstCoords == CoordsOf(Views(cs))
      ensures start == old(start) && evaluatedScore == old(evaluatedScore)
    {
      var m := new MapState(start);
      characters, mapState := cs, m;
      firstCoords := CoordsOf(Views(cs));
    }

    /** The total score collected by the candidate's characters. */
    method Evaluate()
      modifies this`evaluatedScore
      ensures evaluatedScore == SumScores(Views(characters))
    {
      var total := 0;
      for i := 0 to |characters|
        invariant total == SumScores(Views(characters)[..i])
      {
        assert Views(characters)[..i + 1][..i] == Views(characters)[..i];
        total := total + characters[i].GetScore();
      }
      assert Views(characters)[..|characters|] == Views(characters);
      evaluatedScore := total;
    }

    predicate IsDone()
      reads this, mapState
    {
      mapState.IsDone()
    }
  }
}
