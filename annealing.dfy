/** AnnelingImpl (src/service/operate/position/impl/annealingImpl.ts): the
    simulated-annealing search over the characters' starting cells. The
    floating-point acceptance test and the random cell draws are inputs:
    `accepts[i]` is the outcome of iteration i's acceptance test, and
    `draws[i]` the sequence of cells the do-while loop of iteration i
    draws, in order. */
module Annealing {
  import opened Params
  import opened Options
  import opened Grid
  import opened World
  import MapService
  import PositionSim

  /** Iterations of the search. */
  const REPEAT: int := 1000
  /** The cooling horizon of the temperature formula. */
  const SIMULATE_NUMBER: int := 10000
  const START_TEMP: int := 500
  const END_TEMP: int := 10

  /** The cooling schedule, in exact arithmetic. */
  function Temperature(i: nat): real
  {
    START_TEMP as real + (END_TEMP - START_TEMP) as real * (i as real / SIMULATE_NUMBER as real)
  }

  /** The horizon is ten times the iteration count, so the temperature
      never comes near its nominal end value during a search. */
  lemma TemperatureStaysHigh(i: nat)
    requires i < REPEAT
    ensures Temperature(i) > 450.0 && Temperature(i) <= START_TEMP as real
  {
  }

  // ---------------------------------------------------------------------
  // The rollout a candidate is scored by.

  /** Characters and map a tick can run on: at least one character, every
      character on the grid with a non-negative score, a well-formed map. */
  predicate Ready(cs: seq<CharView>, m: MapView)
  {
    |cs| > 0 && ValidMap(m) && forall j :: 0 <= j < |cs| ==> InBounds(cs[j].coord) && cs[j].score >= 0
  }

  /** From a ready state a tick always commits, stays ready and advances
      the turn counter by one per character. */
  lemma TickKeepsReady(cs: seq<CharView>, m: MapView)
    requires Ready(cs, m)
    ensures MapService.Tick(cs, m).Some?
    ensures var r := MapService.Tick(cs, m).value;
      Ready(r.0, r.1) && |r.0| == |cs| && r.1.turn == m.turn + |cs|
  {
    MapService.TickAbortsIffOffGrid(cs, m);
  }

  /** `while (!isDone()) simulatePosition(...)`: ticks until the map is done. */
  function Run(cs: seq<CharView>, m: MapView): (r: (seq<CharView>, MapView))
    requires Ready(cs, m)
    ensures Ready(r.0, r.1) && Done(r.1) && |r.0| == |cs|
    decreases END_TURN - m.turn
  {
    if Done(m) then (cs, m)
    else
      TickKeepsReady(cs, m);
      var next := MapService.Tick(cs, m).value;
      Run(next.0, next.1)
  }

  /** New characters on the given cells, in order. */
  function PlacedAll(coords: seq<Coord>): (vs: seq<CharView>)
    ensures |vs| == |coords| && forall i :: 0 <= i < |coords| ==> vs[i] == Placed(coords[i])
  {
    seq(|coords|, i requires 0 <= i < |coords| => Placed(coords[i]))
  }

  /** A valid starting placement: CHARACTER_NUM distinct cells of the grid. */
  predicate Placement(coords: seq<Coord>)
  {
    |coords| == CHARACTER_NUM && AllInBounds(coords) && Distinct(coords)
  }

  /** The score of a candidate: the total collected once its rollout on a
      fresh copy of the map is done. */
  function Score(coords: seq<Coord>, m: MapView): (s: int)
    requires |coords| > 0 && AllInBounds(coords) && ValidMap(m)
    ensures s >= 0
  {
    SumScores(Run(PlacedAll(coords), m).0)
  }

  // ---------------------------------------------------------------------
  // Best-score bookkeeping.

  /** The `bestScore` tuple: best score so far and the cells that gave it. */
  datatype Search = Search(bestScore: int, bestCoords: seq<Coord>)

  const Unscored: Search := Search(-1, [])

  /** annealingImpl.ts:86-89: the best is replaced only on a strict improvement. */
  function Record(s: Search, score: int, coords: seq<Coord>): Search
  {
    if score > s.bestScore then Search(score, coords) else s
  }

  /** annealingImpl.ts:85-92: the cells the next candidate is built from: the new best
      on an improvement, otherwise the candidate's own cells if accepted and
      the best cells if not. */
  function NextBase(s: Search, score: int, coords: seq<Coord>, accept: bool): seq<Coord>
  {
    if score > s.bestScore then Record(s, score, coords).bestCoords
    else if accept then coords
    else s.bestCoords
  }

  /** The best never goes down and changes only on a strict improvement,
      and after an improvement the next candidate comes from the new best. */
  lemma RecordOnlyOnImprovement(s: Search, score: int, coords: seq<Coord>, accept: bool)
    ensures Record(s, score, coords).bestScore >= s.bestScore
    ensures Record(s, score, coords) != s ==> score > s.bestScore
    ensures score > s.bestScore ==> Record(s, score, coords) == Search(score, coords) &&
                                    NextBase(s, score, coords, accept) == Record(s, score, coords).bestCoords
    ensures score <= s.bestScore ==> NextBase(s, score, coords, accept) == if accept then coords else s.bestCoords
  {
  }

  /** The bookkeeping after scoring candidates[0..n) with scores[0..n). */
  function BestOf(scores: seq<int>, candidates: seq<seq<Coord>>): Search
    requires |scores| == |candidates|
  {
    if scores == [] then Unscored
    else
      var n := |scores| - 1;
      Record(BestOf(scores[..n], candidates[..n]), scores[n], candidates[n])
  }

  /** The best score is the maximum of -1 and every score so far. */
  lemma {:induction false} BestIsMaximum(scores: seq<int>, candidates: seq<seq<Coord>>)
    requires |scores| == |candidates|
    ensures var b := BestOf(scores, candidates).bestScore;
      b >= -1 && (forall j :: 0 <= j < |scores| ==> scores[j] <= b) &&
      (b == -1 || exists j :: 0 <= j < |scores| && scores[j] == b)
  {
    if scores != [] {
      var n := |scores| - 1;
      BestIsMaximum(scores[..n], candidates[..n]);
      assert forall j :: 0 <= j < n ==> scores[..n][j] == scores[j];
    }
  }

  /** The best cells are those of the first candidate that reached the best
      score; before any score above -1 they are empty. */
  lemma {:induction false} BestIsFirstMaximum(scores: seq<int>, candidates: seq<seq<Coord>>)
    requires |scores| == |candidates|
    ensures var s := BestOf(scores, candidates);
      (s.bestScore == -1 ==> s.bestCoords == []) &&
      (s.bestScore != -1 ==>
         exists k :: 0 <= k < |scores| && candidates[k] == s.bestCoords &&
                     scores[k] == s.bestScore && forall j :: 0 <= j < k ==> scores[j] < s.bestScore)
  {
    if scores != [] {
      var n := |scores| - 1;
      BestIsFirstMaximum(scores[..n], candidates[..n]);
      BestIsMaximum(scores[..n], candidates[..n]);
      var prior := BestOf(scores[..n], candidates[..n]);
      if scores[n] <= prior.bestScore && prior.bestScore != -1 {
        var k :| 0 <= k < n && candidates[..n][k] == prior.bestCoords &&
          scores[..n][k] == prior.bestScore && forall j :: 0 <= j < k ==> scores[..n][j] < prior.bestScore;
        assert candidates[k] == prior.bestCoords && scores[k] == prior.bestScore;
        assert forall j :: 0 <= j < k ==> scores[j] < prior.bestScore by {
          forall j | 0 <= j < k ensures scores[j] < prior.bestScore { assert scores[..n][j] == scores[j]; }
        }
      } else if scores[n] > prior.bestScore {
        forall j | 0 <= j < n ensures scores[j] < scores[n] { assert scores[..n][j] == scores[j]; }
      }
    }
  }

  /** The best score never decreases from one iteration to the next. */
  lemma BestNeverDecreases(scores: seq<int>, candidates: seq<seq<Coord>>, k: nat)
    requires |scores| == |candidates| && k <= |scores|
    ensures BestOf(scores[..k], candidates[..k]).bestScore <= BestOf(scores, candidates).bestScore
  {
    BestIsMaximum(scores[..k], candidates[..k]);
    BestIsMaximum(scores, candidates);
    var b := BestOf(scores[..k], candidates[..k]).bestScore;
    if b != -1 {
      var j :| 0 <= j < k && scores[..k][j] == b;
      assert scores[j] == b;
    }
  }

  // ---------------------------------------------------------------------
  // Perturbing one cell.

  /** A draw sequence the do-while loop is sure to leave: cells of the grid,
      more distinct ones than there are characters. */
  predicate Fair(draws: seq<Coord>)
  {
    AllInBounds(draws) && |set c | c in draws| > CHARACTER_NUM
  }

  predicate HasFree(draws: seq<Coord>, used: seq<Coord>)
  {
    exists j :: 0 <= j < |draws| && draws[j] !in used
  }

  /** More distinct draws than used cells: some draw is free. */
  lemma FairDrawHitsFreeCell(draws: seq<Coord>, used: seq<Coord>)
    requires Fair(draws) && |used| <= CHARACTER_NUM
    ensures HasFree(draws, used)
  {
    var drawn := set c | c in draws;
    var taken := set c | c in used;
    SetOfSeqBound(used);
    if drawn <= taken {
      SubsetSize(drawn, taken);
      assert false;
    }
    var c :| c in drawn && c !in taken;
    var j :| 0 <= j < |draws| && draws[j] == c;
  }

  /** The first draw not already in use: where the do-while loop stops. */
  function FirstFree(draws: seq<Coord>, used: seq<Coord>): (c: Coord)
    requires HasFree(draws, used)
    ensures c in draws && c !in used
  {
    if draws[0] !in used then draws[0]
    else
      assert HasFree(draws[1..], used) by {
        var j :| 0 <= j < |draws| && draws[j] !in used;
        assert draws[1..][j - 1] == draws[j];
      }
      FirstFree(draws[1..], used)
  }

  /** createRandomCoord on values: cell k replaced by the first free draw. */
  function Perturb(coords: seq<Coord>, k: nat, draws: seq<Coord>): seq<Coord>
    requires k < |coords| <= CHARACTER_NUM && Fair(draws)
  {
    FairDrawHitsFreeCell(draws, coords);
    coords[k := FirstFree(draws, coords)]
  }

  /** Perturbing a placement yields a placement. */
  lemma PerturbKeepsPlacement(coords: seq<Coord>, k: nat, draws: seq<Coord>)
    requires Placement(coords) && k < CHARACTER_NUM && Fair(draws)
    ensures Placement(Perturb(coords, k, draws))
  {
    FairDrawHitsFreeCell(draws, coords);
    var c := FirstFree(draws, coords);
    var r := Perturb(coords, k, draws);
    forall i, j | 0 <= i < j < |r| ensures r[i] != r[j] {
      if i == k { assert r[j] == coords[j]; }
      else if j == k { assert r[i] == coords[i]; }
    }
  }

  /** createRandomCoord: a copy of the cells with the one at targetIndex
      replaced by a drawn cell that is not among them; the input is left
      as it is. */
  method CreateRandomCoord(coords: seq<Coord>, targetIndex: nat, draws: seq<Coord>) returns (nextCoord: seq<Coord>)
    requires targetIndex < |coords| && HasFree(draws, coords)
    ensures |nextCoord| == |coords|
    ensures forall j :: 0 <= j < |coords| && j != targetIndex ==> nextCoord[j] == coords[j]
    ensures nextCoord[targetIndex] in draws && nextCoord[targetIndex] !in coords
    ensures nextCoord[targetIndex] == FirstFree(draws, coords)
  {
    nextCoord := coords;
    var n := 0;
    var randomCoord := draws[0];
    while randomCoord in nextCoord
      invariant 0 <= n < |draws| && randomCoord == draws[n] && nextCoord == coords
      invariant HasFree(draws[n..], coords)
      invariant FirstFree(draws[n..], coords) == FirstFree(draws, coords)
      decreases |draws| - n
    {
      assert draws[n..][1..] == draws[n + 1..];
      n := n + 1;
      randomCoord := draws[n];
    }
    nextCoord := nextCoord[targetIndex := randomCoord];
  }

  /** createCharactersByCoords: one new character per cell, in order. */
  method CreateCharactersByCoords(coords: seq<Coord>) returns (characters: seq<Character>)
    ensures Views(characters) == PlacedAll(coords) && Distinct(characters)
    ensures forall c :: c in characters ==> fresh(c)
  {
    characters := [];
    for i := 0 to |coords|
      invariant |characters| == i && Distinct(characters)
      invariant forall j :: 0 <= j < i ==> characters[j].View() == Placed(coords[j])
      invariant forall c :: c in characters ==> fresh(c)
    {
      var character := new Character.At(coords[i]);
      characters := characters + [character];
    }
  }

  /** createRandomCharactersByCoords: perturb one cell, then place. */
  method CreateRandomCharactersByCoords(bestCoords: seq<Coord>, targetIndex: nat, draws: seq<Coord>)
    returns (characters: seq<Character>, ghost nextCoords: seq<Coord>)
    requires targetIndex < |bestCoords| <= CHARACTER_NUM && Fair(draws)
    ensures nextCoords == Perturb(bestCoords, targetIndex, draws)
    ensures Views(characters) == PlacedAll(nextCoords) && Distinct(characters)
    ensures forall c :: c in characters ==> fresh(c)
  {
    FairDrawHitsFreeCell(draws, bestCoords);
    var coords := CreateRandomCoord(bestCoords, targetIndex, draws);
    nextCoords := coords;
    characters := CreateCharactersByCoords(coords);
  }

  /** Drives a rollout until its map is done (annealingImpl.ts:76-78). */
  method RunToCompletion(sim: PositionSim.Rollout)
    requires sim.Valid() && Ready(Views(sim.characters), sim.mapState.View())
    modifies sim.mapState, set c | c in sim.characters
    ensures sim.Valid()
    ensures (Views(sim.characters), sim.mapState.View()) == Run(old(Views(sim.characters)), old(sim.mapState.View()))
  {
    while !sim.IsDone()
      invariant sim.Valid() && Ready(Views(sim.characters), sim.mapState.View())
      invariant Run(Views(sim.characters), sim.mapState.View()) == Run(old(Views(sim.characters)), old(sim.mapState.View()))
      decreases END_TURN - sim.mapState.turn
    {
      TickKeepsReady(Views(sim.characters), sim.mapState.View());
      MapService.SimulatePosition(sim);
    }
  }

  /** The cells iteration j built its successor from. */
  function BaseAt(scores: seq<int>, candidates: seq<seq<Coord>>, accepts: seq<bool>, j: nat): seq<Coord>
    requires j < |scores| && j < |candidates| && j < |accepts|
  {
    NextBase(BestOf(scores[..j], candidates[..j]), scores[j], candidates[j], accepts[j])
  }

  /** Iterations 0..n) each built candidate j + 1 from a placement by
      replacing cell j % CHARACTER_NUM with the first free draw. */
  predicate Chained(scores: seq<int>, candidates: seq<seq<Coord>>, accepts: seq<bool>, draws: seq<seq<Coord>>, n: nat)
  {
    n <= |scores| && n < |candidates| && n <= |accepts| && n <= |draws| &&
    forall j :: 0 <= j < n ==>
      Placement(BaseAt(scores, candidates, accepts, j)) && Fair(draws[j]) &&
      candidates[j + 1] == Perturb(BaseAt(scores, candidates, accepts, j), j % CHARACTER_NUM, draws[j])
  }

  /** Candidates 0..n) are placements scored by their rollouts on m. */
  predicate Scored(scores: seq<int>, candidates: seq<seq<Coord>>, m: MapView, n: nat)
  {
    ValidMap(m) && n <= |scores| && n <= |candidates| &&
    forall j :: 0 <= j < n ==> Placement(candidates[j]) && scores[j] == Score(candidates[j], m)
  }

  /** One more iteration extends the record of the search. */
  lemma RecordIteration(scores: seq<int>, candidates: seq<seq<Coord>>, accepts: seq<bool>, draws: seq<seq<Coord>>,
                        m: MapView, score: int, next: seq<Coord>)
    requires |scores| + 1 == |candidates| && |scores| < |accepts| && |scores| < |draws|
    requires Chained(scores, candidates, accepts, draws, |scores|) && Scored(scores, candidates, m, |scores|)
    requires Placement(candidates[|scores|]) && score == Score(candidates[|scores|], m)
    requires var base := NextBase(BestOf(scores, candidates[..|scores|]), score, candidates[|scores|], accepts[|scores|]);
      Placement(base) && Fair(draws[|scores|]) && next == Perturb(base, |scores| % CHARACTER_NUM, draws[|scores|])
    ensures Chained(scores + [score], candidates + [next], accepts, draws, |scores| + 1)
    ensures Scored(scores + [score], candidates + [next], m, |scores| + 1)
    ensures BestOf(scores + [score], (candidates + [next])[..|scores| + 1]) ==
            Record(BestOf(scores, candidates[..|scores|]), score, candidates[|scores|])
  {
    ChainExtends(scores, candidates, accepts, draws, score, next);
    ScoredExtends(scores, candidates, m, score, next);
    BestExtends(scores, candidates, score, next);
  }

  lemma ChainExtends(scores: seq<int>, candidates: seq<seq<Coord>>, accepts: seq<bool>, draws: seq<seq<Coord>>,
                     score: int, next: seq<Coord>)
    requires |scores| + 1 == |candidates| && |scores| < |accepts| && |scores| < |draws|
    requires Chained(scores, candidates, accepts, draws, |scores|)
    requires var base := NextBase(BestOf(scores, candidates[..|scores|]), score, candidates[|scores|], accepts[|scores|]);
      Placement(base) && Fair(draws[|scores|]) && next == Perturb(base, |scores| % CHARACTER_NUM, draws[|scores|])
    ensures Chained(scores + [score], candidates + [next], accepts, draws, |scores| + 1)
  {
    var i := |scores|;
    var s', c' := scores + [score], candidates + [next];
    assert s'[..i] == scores && c'[..i] == candidates[..i];
    assert BaseAt(s', c', accepts, i) == NextBase(BestOf(scores, candidates[..i]), score, candidates[i], accepts[i]);
    forall j | 0 <= j < i
      ensures BaseAt(s', c', accepts, j) == BaseAt(scores, candidates, accepts, j)
    {
      assert s'[..j] == scores[..j] && c'[..j] == candidates[..j];
    }
  }

  lemma ScoredExtends(scores: seq<int>, candidates: seq<seq<Coord>>, m: MapView, score: int, next: seq<Coord>)
    requires |scores| + 1 == |candidates| && Scored(scores, candidates, m, |scores|)
    requires Placement(candidates[|scores|]) && score == Score(candidates[|scores|], m)
    ensures Scored(scores + [score], candidates + [next], m, |scores| + 1)
  {
    var s', c' := scores + [score], candidates + [next];
    assert forall j :: 0 <= j < |scores| ==> s'[j] == scores[j] && c'[j] == candidates[j];
  }

  lemma BestExtends(scores: seq<int>, candidates: seq<seq<Coord>>, score: int, next: seq<Coord>)
    requires |scores| + 1 == |candidates|
    ensures BestOf(scores + [score], (candidates + [next])[..|scores| + 1]) ==
            Record(BestOf(scores, candidates[..|scores|]), score, candidates[|scores|])
  {
    var i := |scores|;
    var s', c' := scores + [score], (candidates + [next])[..i + 1];
    assert s'[..i] == scores && c'[..i] == candidates[..i] && c'[i] == candidates[i];
  }

  /** A rollout set up to score the candidate `coords` on a fresh copy of m. */
  ghost predicate Prepared(sim: PositionSim.Rollout, coords: seq<Coord>, m: MapView)
    reads sim, sim.mapState, set c | c in sim.characters
  {
    sim.Valid() && sim.start == m && sim.mapState.View() == m &&
    Views(sim.characters) == PlacedAll(coords) && sim.firstCoords == coords
  }

  /** annealingImpl.ts:76-79: run the candidate's rollout to the end and evaluate it. */
  method EvaluateCandidate(sim: PositionSim.Rollout, ghost coords: seq<Coord>, ghost m: MapView) returns (score: int)
    requires Prepared(sim, coords, m) && Placement(coords) && ValidMap(m)
    modifies sim, sim.mapState, set c | c in sim.characters
    ensures sim.Valid() && sim.start == m && sim.firstCoords == coords && sim.characters == old(sim.characters)
    ensures score == Score(coords, m)
  {
    RunToCompletion(sim);
    sim.Evaluate();
    score := sim.evaluatedScore;
  }

  /** annealingImpl.ts:94-96: build the next candidate's characters and reset the
      rollout to them on a fresh copy of the starting map. */
  method NextCandidate(sim: PositionSim.Rollout, coords: seq<Coord>, targetIndex: nat, draws: seq<Coord>)
    returns (ghost nextCoords: seq<Coord>)
    requires targetIndex < |coords| <= CHARACTER_NUM && Fair(draws) && ValidMap(sim.start)
    modifies sim
    ensures nextCoords == Perturb(coords, targetIndex, draws)
    ensures Prepared(sim, nextCoords, old(sim.start)) && fresh(sim.mapState)
    ensures forall c :: c in sim.characters ==> fresh(c)
  {
    var characters;
    characters, nextCoords := CreateRandomCharactersByCoords(coords, targetIndex, draws);
    sim.DeleteAllCharacters();
    sim.Init(characters);
  }

  /** getCharacters with getAnnealingCharacters: REPEAT iterations, each
      scoring its candidate by a full rollout, recording the best and
      building the next candidate from the chosen cells by replacing cell
      number i % CHARACTER_NUM; finally one character per best cell. */
  method GetCharacters(origin: MapState, initial: seq<Coord>, accepts: seq<bool>, draws: seq<seq<Coord>>)
    returns (best: seq<Character>, bestScore: int, bestCoords: seq<Coord>,
             ghost candidates: seq<seq<Coord>>, ghost scores: seq<int>)
    requires ValidMap(origin.View()) && Placement(initial)
    requires |accepts| == REPEAT && |draws| == REPEAT
    requires forall i :: 0 <= i < REPEAT ==> Fair(draws[i])
    ensures |scores| == REPEAT && |candidates| == REPEAT + 1 && candidates[0] == initial
    ensures Scored(scores, candidates, origin.View(), REPEAT)
    ensures Chained(scores, candidates, accepts, draws, REPEAT)
    ensures Search(bestScore, bestCoords) == BestOf(scores, candidates[..REPEAT])
    ensures bestScore >= 0 && Placement(bestCoords)
    ensures forall i :: 0 <= i < REPEAT ==> scores[i] <= bestScore
    ensures exists k :: 0 <= k < REPEAT && candidates[k] == bestCoords && scores[k] == bestScore &&
                        forall j :: 0 <= j < k ==> scores[j] < bestScore
    ensures Views(best) == PlacedAll(bestCoords) && Distinct(best)
  {
    var characters := CreateCharactersByCoords(initial);
    var nowBeam := new PositionSim.Rollout(characters, origin);
    bestScore, bestCoords := -1, [];
    candidates, scores := [initial], [];
    ghost var m := origin.View();

    for i := 0 to REPEAT
      invariant |scores| == i && |candidates| == i + 1 && candidates[0] == initial
      invariant Placement(candidates[i])
      invariant Scored(scores, candidates, m, i)
      invariant Chained(scores, candidates, accepts, draws, i)
      invariant Search(bestScore, bestCoords) == BestOf(scores, candidates[..i])
      invariant i > 0 ==> bestScore >= 0 && Placement(bestCoords)
      invariant fresh(nowBeam) && fresh(nowBeam.mapState) && forall c :: c in nowBeam.characters ==> fresh(c)
      invariant Prepared(nowBeam, candidates[i], m)
    {
      var score := EvaluateCandidate(nowBeam, candidates[i], m);

      var coords: seq<Coord>;
      if score > bestScore {
        bestScore := score;
        bestCoords := nowBeam.firstCoords;
        coords := bestCoords;
      } else {
        coords := if accepts[i] then nowBeam.firstCoords else bestCoords;
      }

      PerturbKeepsPlacement(coords, i % CHARACTER_NUM, draws[i]);
      ghost var nextCoords := NextCandidate(nowBeam, coords, i % CHARACTER_NUM, draws[i]);

      RecordIteration(scores, candidates, accepts, draws, m, score, nextCoords);
      scores := scores + [score];
      candidates := candidates + [nextCoords];
    }
    nowBeam.DeleteAllCharacters();
    BestIsMaximum(scores, candidates[..REPEAT]);
    BestIsFirstMaximum(scores, candidates[..REPEAT]);
    best := CreateCharactersByCoords(bestCoords);
  }
}
