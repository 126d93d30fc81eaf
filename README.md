# Grid collection game: decision and simulation engine in Dafny

This project models the core of a turn-based grid game. Agents move on a
5×5 grid and collect the point values on the cells before the turn budget
runs out. The model covers four parts:

- the grid move engine (`MapService`): the live move guard, the synchronous
  one-agent move, the multi-agent tick, the legal-direction query and the
  point "peek";
- the two-agent rollout record (`AlternateImpl`);
- the manual direction priority (`ManualImpl`);
- the discrete skeleton of the simulated-annealing placement search
  (`AnnelingImpl`). This includes the rollout loop that scores each
  candidate, the best-score bookkeeping, the choice of the cells the next
  candidate is built from, the round-robin replacement of one cell, and
  building the characters.

It also covers the configuration constants (`Params`).

Modules, one per source file or collaborator:

| file | module | role |
|---|---|---|
| params.dfy | `Params` | the constants of `src/params.ts` |
| options.dfy | `Options` | `Option`, standing for the swallowed out-of-bounds exception |
| grid.dfy | `Grid` | stand-in for `Coord` and `DirectionType`; the off-grid move is `None` |
| world.dfy | `World` | stand-ins for `Character` and `MapState`, as classes with value views |
| greedy.dfy | `Greedy` | stand-in for `GreedyImpl` |
| position_sim.dfy | `PositionSim` | stand-in for `SimulatePositionImpl` |
| map_service.dfy | `MapService` | `mapService.ts`: tick function on values, methods over the objects |
| alternate.dfy | `Alternate` | `alternateImpl.ts` |
| manual.dfy | `Manual` | `manualImpl.ts` |
| annealing.dfy | `Annealing` | `annealingImpl.ts` |

The operations that change state in place are methods over the objects. These
are `simulate`, `simulatePosition`, `advance`, `evaluate`, the rollout
constructors and the placement loop. Each method is proved against a
function on values. For example, `MapService.SimulatePosition` ends in
exactly the state `MapService.Tick` gives for the old state, and
`Annealing.RunToCompletion` ends in the state `Annealing.Run` gives. The
lemmas state what these functions promise.

Stand-ins, shaped only by how the modelled code uses them:

- `Coord` is (column, row). `MoveTo` gives `None` off the grid.
- The four moves carry the numbers 0..3 in the order UP, DOWN, LEFT,
  RIGHT. NONE comes after them and its offset is (0, 0).
- `MapState.advance(c, t)` puts the character on `t`, adds the cell's point
  to its score, empties the cell and adds one to the turn counter.
  `isDone` holds once the turn counter reaches `END_TURN` or every cell is
  empty.
- `Character.startWalk` records the target and the direction and sets the
  walking flag.
- Greedy picks the legal move with the largest peeked point. On a tie it
  takes the earliest of UP, DOWN, LEFT, RIGHT.
- The position rollout keeps its characters and clones the map. `init`
  resets it to new characters on a fresh copy of the starting map. Its
  `evaluate` sums the characters' scores.

The cooling horizon (10000, `annealingImpl.ts:31`) is ten times the
iteration count (1000, `annealingImpl.ts:26`), so the temperature stays
above 450 for the whole search (`Annealing.TemperatureStaysHigh`).

## Model

| member | source | states |
|---|---|---|
| `Params.ConfigurationLeavesFreeCell` | src/params.ts:4-21 | there are fewer characters (3) than cells (25), and the grid is at least 2×2 |
| `Grid.FreeCellExists` | src/service/operate/position/impl/annealingImpl.ts:138-140 | any list of fewer than 25 used cells leaves a free cell on the grid, so a fair draw can always end the do-while |
| `MapService.Advance` | src/service/map/mapService.ts:21-29 | an off-grid direction is a silent no-op: no startWalk and nothing pending. Otherwise the character starts walking to the target, and that same target is the one left for the commit |
| `MapService.Simulate` | src/service/map/mapService.ts:36-44 | an off-grid target leaves the character and the map exactly as they were. Otherwise the new state is startWalk then advance to that same target |
| `MapService.SimulateOneCommitsTarget` | src/service/map/mapService.ts:38-40 | an in-bounds move puts the character on the target, walking in that direction, with its score raised by the target's point. The target cell becomes empty, one turn passes and every other cell is unchanged. It is `None` exactly when the target is off the grid |
| `MapService.SimulatePosition` | src/service/map/mapService.ts:51-67 | a tick is all-or-nothing. If the tick function aborts, no character and no cell changes; otherwise the new state is exactly the committed tick |
| `MapService.PlanTick` | src/service/map/mapService.ts:55-59 | the map phase gives `None` exactly when some greedy target is off the grid; otherwise it gives every character's direction and target, all computed from the pre-tick state |
| `MapService.CommitTick` | src/service/map/mapService.ts:60-63 | the forEach phase leaves the characters and the map in exactly the state of committing the planned steps in array order |
| `MapService.CommitAll` | src/service/map/mapService.ts:60-63 | after the commits, every character stands on its planned target and is walking in its planned direction. The turn counter has grown by the number of characters. Scores never drop and the map stays well-formed |
| `MapService.CommitAt` | src/service/map/mapService.ts:60-63 | character j is committed on the map left by the commits of characters 0..j-1 |
| `MapService.LaterCollectsNothing` | src/service/map/mapService.ts:60-63 | when two characters target the same cell in one tick, the later one in array order finds it emptied and gains nothing |
| `MapService.TickUsesPreTickPlan` | src/service/map/mapService.ts:55-63 | every character's direction and final cell in a tick are what greedy gives on the pre-tick map, whatever earlier commits did |
| `MapService.TickAbortsIffOffGrid` | src/service/map/mapService.ts:54-66 | a tick aborts exactly when some character's greedy target is off the grid; from on-grid positions it never aborts |
| `MapService.LegalDirections` | src/service/map/mapService.ts:74-86 | the result holds exactly the moves 0..3 whose target is on the grid. It is strictly increasing, so it has no duplicates and at most 4 entries |
| `MapService.GetPointByDirection` | src/service/map/mapService.ts:95-102 | the result is 0 for an off-grid target and the target's point otherwise; nothing is modified |
| `Alternate.Rollout.constructor` | src/service/simulate/direction/impl/alternateImpl.ts:29-34 | the rollout stores fresh clones of both characters and of the map, equal in value and never the objects passed in. The score defaults to 0 and firstDirection is NONE |
| `Alternate.Rollout.Clone` | src/service/simulate/direction/impl/alternateImpl.ts:40-42 | a new rollout with the same score, whose participants and map are fresh and equal in value |
| `Alternate.Rollout.Evaluate` | src/service/simulate/direction/impl/alternateImpl.ts:47-49 | evaluatedScore becomes own score minus opponent score, and no other field changes |
| `Alternate.EvaluateExample` | src/service/simulate/direction/impl/alternateImpl.ts:47-49 | scores 5 and 3 evaluate to 2 |
| `Alternate.Rollout.IsDone` | src/service/simulate/direction/impl/alternateImpl.ts:55-57 | done exactly when the rollout's own map has reached END_TURN or has no points left |
| `Manual.GetManualDirection` | src/service/operate/direction/impl/manualImpl.ts:34-47 | the priority is RIGHT > LEFT > DOWN > UP. UP comes only when up is the sole key down, and NONE exactly when no key is down |
| `Manual.ChosenKeyIsDown` | src/service/operate/direction/impl/manualImpl.ts:36-43 | every direction returned is one whose key is down |
| `Manual.GetDirection` | src/service/operate/direction/impl/manualImpl.ts:26-28 | the strategy entry point answers with the key priority |
| `Manual.DirectionIgnoresState` | src/service/operate/direction/impl/manualImpl.ts:26-28 | the answer does not depend on the character or the map |
| `Annealing.TemperatureStaysHigh` | src/service/operate/position/impl/annealingImpl.ts:81 | for every iteration of the search the temperature is between 450 and 500 |
| `Annealing.TickKeepsReady` | src/service/operate/position/impl/annealingImpl.ts:76-78 | from on-grid characters a tick always commits and keeps them on the grid. It adds one turn per character, so the rollout loop ends |
| `Annealing.Run` | src/service/operate/position/impl/annealingImpl.ts:76-78 | the rollout loop ends on a done map, with every character on the grid and no score negative |
| `Annealing.RunToCompletion` | src/service/operate/position/impl/annealingImpl.ts:76-78 | driving the live rollout with simulatePosition ends in the state `Run` gives |
| `Annealing.EvaluateCandidate` | src/service/operate/position/impl/annealingImpl.ts:75-79 | a candidate's score is its rollout's total once the map is done; it is evaluated only after isDone |
| `Annealing.RecordOnlyOnImprovement` | src/service/operate/position/impl/annealingImpl.ts:85-92 | the best never decreases and changes only on a strict improvement. After an improvement the next candidate comes from the new best; otherwise from the candidate if accepted, else from the best |
| `Annealing.BestIsMaximum` | src/service/operate/position/impl/annealingImpl.ts:72-88 | the best score equals the maximum of -1 and every score so far |
| `Annealing.BestIsFirstMaximum` | src/service/operate/position/impl/annealingImpl.ts:86-89 | the best cells are those of the first candidate that reached the best score, and empty while the best is -1 |
| `Annealing.BestNeverDecreases` | src/service/operate/position/impl/annealingImpl.ts:86-88 | the best score after any prefix of the iterations is at most the final one |
| `Annealing.FairDrawHitsFreeCell` | src/service/operate/position/impl/annealingImpl.ts:138-140 | a draw sequence with more distinct cells than there are characters contains a cell not in use |
| `Annealing.CreateRandomCoord` | src/service/operate/position/impl/annealingImpl.ts:134-144 | the result has the same length and is unchanged except at targetIndex. There it holds the first drawn cell not among the input cells, and the input is not modified |
| `Annealing.PerturbKeepsPlacement` | src/service/operate/position/impl/annealingImpl.ts:134-144 | replacing one cell of 3 distinct on-grid cells with a free drawn cell gives 3 distinct on-grid cells |
| `Annealing.CreateCharactersByCoords` | src/service/operate/position/impl/annealingImpl.ts:152-158 | one new character per cell, in the same order, each standing on its cell with score 0 |
| `Annealing.CreateRandomCharactersByCoords` | src/service/operate/position/impl/annealingImpl.ts:123-126 | the characters stand on the given cells with cell targetIndex replaced by the first free draw |
| `Annealing.NextCandidate` | src/service/operate/position/impl/annealingImpl.ts:94-96 | the rollout is reset to new characters on the perturbed cells, on a fresh copy of the starting map |
| `Annealing.RecordIteration` | src/service/operate/position/impl/annealingImpl.ts:85-94 | one iteration extends the record: the new score, the next candidate built from the chosen base, and the best updated by `Record` |
| `Annealing.GetCharacters` | src/service/operate/position/impl/annealingImpl.ts:58-104 | the loop runs exactly 1000 iterations, and each candidate is a valid placement scored by its full rollout. Candidate i+1 is candidate i's chosen base with cell i % 3 replaced by a free draw. The best score is the maximum of all scores, and the best cells are those of the first candidate reaching it. The result is 3 characters on 3 distinct on-grid cells, the best ones, in order |

## Left out

- MapService.Advance: the Phaser tween (`mapService.ts:121-142`) and its completion callback, which calls stopWalk and commits with `tilemap.advance`, are presentation and timing. The model returns the target the callback would commit and does not model the commit itself.
- The floating-point temperature, `Math.exp` and the `Math.random` acceptance draw (`annealingImpl.ts:81-83`) are not modelled. Each iteration's acceptance is a boolean input (`accepts[i]`), so "equal scores are always accepted" (probability exp(0) = 1) is not modelled.
- Random cell generation (`CoordFactory.randomCoord`) is an input: `draws[i]` lists the cells iteration i draws, in order. The unbounded do-while becomes the precondition `Fair`: all drawn cells are on the grid and more than 3 are distinct. Termination of the real loop rests on the random source.
- Annealing.CreateRandomCoord: `includes` compares coordinates structurally here. The source's JavaScript `includes` compares object references. If `CoordFactory` returns fresh objects, the source check never matches, and two characters could share a cell. `CoordFactory` is not part of this model, so the intended structural comparison is assumed.
- Annealing.GetCharacters: the first candidate's cells are an input (`initial`), assumed to be 3 distinct on-grid cells. In the source they come from `createRandomCharacters`, which calls `RandomImpl.create` (`annealingImpl.ts:59,112-114`); `RandomImpl` is not part of this model. If `RandomImpl` de-duplicates with `includes`, the distinctness needs the same structural-equality assumption as `Annealing.CreateRandomCoord`.
- Annealing.GetCharacters: `bestScore[1] = nowBeam.firstCoords` shares an array in the source. The model treats coordinate lists as values. This matches the source only if `init` replaces `firstCoords` instead of mutating it in place (`init` is not part of this model).
- Annealing.GetCharacters: the termination of `while (!isDone())` is proved only for the stand-ins: greedy never leaves the grid, and each tick adds one turn per character. In the source it depends on the unseen MapState and GreedyImpl, and the loop would never end if every tick aborted.
- The Phaser keyboard and scene of `ManualImpl` (`manualImpl.ts:17-20`) are device input. The constructor throws when no keyboard exists; that configuration error is not modelled.
- Sprite creation in `CharacterFactory.createForTargetPos` and `initializations` (`annealingImpl.ts:101,155`) are engine-bound. Characters are modelled by cell, score, walking flag, direction and target only.
- `src/type/operateDirectionType.ts` is a behaviour-free enum of selector kinds and is not declared.
- The internals of MapState, Coord, Character, GreedyImpl and SimulatePositionImpl are stand-ins. The model claims nothing about them beyond what the engine's contracts use.
- Two characters targeting the same cell in one tick is left as the source does it: commits in array order, so the later one collects nothing.
