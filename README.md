# Gaia's Revenge — a Dafny model of the board rules, the turn machine and the CPU opponent

Gaia's Revenge is a tile-placement game on an isometric grid, played by
Nature against the Humans. The player is Nature: they drop pieces handed out
by the dispenser onto the board (Dispenser.cs:46, Placeable.cs:68). The CPU
plays the Humans. Each of its turns has as many moves as the board's human
move budget (EnemyAI.cs:33), and each move places a Farm, a Mine or a City
from the CPU's candidate lists (EnemyAI.cs:38). At the end the Nature score
is compared with the Human score (EndMessage.cs:21-24).

This project models three parts of the game.

- **The board** (`GameBoard`). It has two tile layers. The logic layer holds
  a claim marker per cell (Empty, Unclaimed, Available, Occupied). The
  graphics layer holds a terrain per cell. The board also holds the human
  move budget. `Validate` decides whether a terrain may go on a cell.
  `Submit` writes the cell and then runs the terrain's side effect:
  - a Mountain turns the human tiles next to it back into Plains;
  - a City converts into a City each tracked Forest neighbour with at least
    two City neighbours, the new City included, and each converted cell
    cascades in turn;
  - a Mine or a Farm raises the budget by one.
- **The turn machine** (`GameManager`). It has four states, Init,
  TurnPlayer, TurnCPU and GameEnded, and three transitions.
- **The CPU opponent** (`EnemyAI`). It keeps a frontier of City tiles and
  three candidate lists, one each for City, Mine and Farm. It refreshes them
  by exploring around the frontier, updates them when it is told that a
  resource was placed, and on its turn places up to "budget" tiles. Farm
  goes before Mine, and Mine before City.

### Layout

| module | holds |
|---|---|
| `Tiles` (tiles.dfy) | the terrain and claim enums, coordinates, the offset tables |
| `Lists` (lists.dfy) | `List.Remove` and the guarded `if (!Contains) Add` |
| `Rules` (rules.dfy) | the board as a value: `Validate`, and `Submitted` with both cascades, as functions |
| `RuleFacts` (rule_facts.dfy) | what the rules guarantee |
| `GameBoards` (board.dfy) | the `GameBoard` class. Its recursive `Submit` overwrites the fields in place and is proved to produce `Rules.Submitted` |
| `Turns` (turns.dfy) | `GameState` and the `GameManager` class |
| `Cache` (cache.dfy) | the opponent's lists as a value, and specification functions for each operation on them |
| `CacheFacts` (cache_facts.dfy) | what those operations guarantee |
| `Opponent` (opponent.dfy) | the `EnemyAI` class. Its methods update the four list fields in place and are proved against `Cache` |

### Where the code departs from its evident intent

In each case the model follows the code.

- GameBoard.cs:236 computes `Mathf.Max(2, HumanMovesPerTurn - 1)`, so
  overwriting a Mine or a Farm with Plains was evidently meant to cost the
  Humans a move. The test at line 232 reads the cell's terrain after line
  188 has already written Plains into it, so the branch never fires and the
  budget is never decremented (`RuleFacts.PlainsOverMineKeepsBudget`).
- The Mountain cascade submits Plains at GameBoard.cs:204 without passing
  the claim bypass flag. Plains needs no claim, so the call is accepted
  anyway (`RuleFacts.MountainCascadeEffect`).
- Mine and Farm validity (GameBoard.cs:146-156) only asks for a Mountain,
  or a Water tile, among the board's twelve range-2 offsets.
- `AdvanceTurn` maps every state other than TurnPlayer to TurnPlayer, Init
  and GameEnded included.
- EnemyAI.cs:73 subscribes `OnResourceAdded` to an event of the board, but
  GameBoard.cs neither declares nor raises it. In this model
  nothing calls `OnResourceAdded` after a CPU placement, so a tile the CPU
  places stays in its lists. A later pick of it is a rejected `Submit` that
  still counts as a move (`CacheFacts.StaleCandidateIgnored`).
- The turn loop counts a move whenever a list is non-empty (EnemyAI.cs:38-39),
  even when the `Submit` it triggers is refused.

## Model

| member | source | states |
|---|---|---|
| Tiles.AdjacenciesAreUnitSteps | Assets/_Scripts/GameBoard.cs:61-63 | the orthogonal table holds exactly the displacements of Manhattan length 1 |
| Tiles.AdjacenciesSymmetric | Assets/_Scripts/GameBoard.cs:61-63 | every orthogonal direction has its opposite in the table |
| Tiles.AIRange2Shape | Assets/_Scripts/EnemyAI.cs:59-63 | the opponent's range-2 table has eight distinct offsets, each of Manhattan length 2 |
| Tiles.BoardRange2Split | Assets/_Scripts/GameBoard.cs:65-70 | the board's twelve-offset table is the orthogonal table followed by the opponent's eight offsets |
| Tiles.BoardRange2IsBall | Assets/_Scripts/GameBoard.cs:65-70 | the twelve offsets are exactly the non-zero displacements of Manhattan length at most 2 |
| Lists.RemoveFirst | Assets/_Scripts/EnemyAI.cs:145-147 | `List.Remove` leaves a list without x unchanged, and otherwise shortens it by one |
| Lists.RemoveFirstMultiset | Assets/_Scripts/EnemyAI.cs:145-147 | removal takes away one copy of x, if there is one, and nothing else |
| Lists.RemoveFirstSubset | Assets/_Scripts/EnemyAI.cs:145-147 | removal never introduces an element |
| Lists.RemoveFirstAt | Assets/_Scripts/EnemyAI.cs:225 | when the first copy of x is at index i, removal cuts out exactly index i |
| Lists.RemoveFirstDistinct | Assets/_Scripts/EnemyAI.cs:145-147 | on a duplicate-free list, removal keeps it duplicate-free and drops every copy of x |
| Lists.AddNew | Assets/_Scripts/EnemyAI.cs:182 | the guarded add keeps the old list as a prefix, adds at most one element, and afterwards x is present |
| Lists.AddNewDistinct | Assets/_Scripts/EnemyAI.cs:182 | the guarded add never creates a duplicate |
| Rules.ClaimOk | Assets/_Scripts/GameBoard.cs:103-104 | the claim test: an Unclaimed cell always passes, a null cell never does, and without bypass only an Unclaimed cell passes |
| Rules.AnyAt | Assets/_Scripts/GameBoard.cs:139-143 | `offs.Any(...)` over a terrain set: false over an empty table (exactly "some offset lands on a kind" by `RuleFacts.AnyAtIff`) |
| Rules.CountAt | Assets/_Scripts/GameBoard.cs:216-218 | `offs.Count(...)` over a terrain set: never more than the number of offsets |
| Rules.Place | Assets/_Scripts/GameBoard.cs:183-188 | writing one cell puts the terrain and its claim marker (Occupied, or Unclaimed for Plains) there and leaves the budget alone |
| Rules.Validate | Assets/_Scripts/GameBoard.cs:97-160 | a null tile is refused, Plains is always accepted, and any other accepted tile passed the claim test |
| Rules.Submitted | Assets/_Scripts/GameBoard.cs:174-241 | a refused tile changes nothing. An accepted tile writes its claim marker and terrain at the cell. The budget rises by one exactly for an accepted Mine or Farm. Every cell but c only grows Forest into City under a City placement. Claim and terrain keep agreeing |
| Rules.MountainCascade | Assets/_Scripts/GameBoard.cs:196-207 | the Mountain's own cell and the budget are untouched, no Forest appears, and claim and terrain keep agreeing |
| Rules.CityCascade | Assets/_Scripts/GameBoard.cs:209-224 | the budget is untouched, and every cell either stays as it was or goes from Forest to an occupied City |
| Rules.ForestCountPlace | Assets/_Scripts/GameBoard.cs:183-188 | writing a non-Forest terrain removes at most the cell's own Forest, which bounds the cascade's recursion |
| RuleFacts.AnyAtIff | Assets/_Scripts/GameBoard.cs:139-143 | the `Any` over an offset table holds exactly when some offset of it lands on one of the kinds |
| RuleFacts.AnyAtCount | Assets/_Scripts/GameBoard.cs:139-143 | the `Any` test over a table holds exactly when the `Count` over the same table is positive |
| RuleFacts.ValidateNatureIff | Assets/_Scripts/GameBoard.cs:109-121 | Forest, Mountain and Water are valid exactly on an Unclaimed cell, or on any tracked cell with bypass |
| RuleFacts.ValidateCityIff | Assets/_Scripts/GameBoard.cs:138-144 | a City is valid exactly when the claim test passes and a human terrain lies at Manhattan distance 1 |
| RuleFacts.BallAnyIff | Assets/_Scripts/GameBoard.cs:147-156 | over any table of all displacements of length 1 or 2, the `Any` test means "the kind lies within distance 2" |
| RuleFacts.Range2AnyIff | Assets/_Scripts/GameBoard.cs:147-156 | over the board's twelve offsets, the `Any` test means "the kind lies within distance 2" |
| RuleFacts.ValidateMineIff | Assets/_Scripts/GameBoard.cs:146-150 | a Mine is valid exactly when the claim test passes and a Mountain lies within Manhattan distance 2 |
| RuleFacts.ValidateFarmIff | Assets/_Scripts/GameBoard.cs:152-156 | a Farm is valid exactly when the claim test passes and a Water tile lies within Manhattan distance 2 |
| RuleFacts.ValidateNeedsUnclaimed | Assets/_Scripts/GameBoard.cs:103-104 | without bypass, no terrain but Plains can go on a cell that is not Unclaimed |
| RuleFacts.SubmitLocal | Assets/_Scripts/GameBoard.cs:226-239 | Forest, Water, Mine, Farm and Plains change no cell but their own |
| RuleFacts.PlainsOverMineKeepsBudget | Assets/_Scripts/GameBoard.cs:231-236 | as written, Plains over a Mine with a budget of 3 leaves the budget at 3 |
| RuleFacts.BudgetFloor | Assets/_Scripts/GameBoard.cs:226-237 | no placement ever lowers the budget, so a budget of at least 2 stays at least 2 |
| RuleFacts.MountainCascadeEffect | Assets/_Scripts/GameBoard.cs:196-207 | after the cascade, each neighbour is Plains/Unclaimed if it held a human terrain and is unchanged otherwise, and every other cell is untouched |
| RuleFacts.SubmitMountainEffect | Assets/_Scripts/GameBoard.cs:183-207 | an accepted Mountain occupies its cell, reclaims each human neighbour, keeps the budget and changes nothing further away |
| RuleFacts.CountGrows | Assets/_Scripts/GameBoard.cs:216-218 | more Cities on the board never lower a neighbour's City count |
| RuleFacts.ConvertsQualifying | Assets/_Scripts/GameBoard.cs:214-221 | a tracked Forest with two City neighbours becomes a City when submitted with bypass |
| RuleFacts.QualifiesPersists | Assets/_Scripts/GameBoard.cs:209-224 | a qualifying Forest that has not been converted yet still qualifies later in the walk |
| RuleFacts.CityCascadeGrows | Assets/_Scripts/GameBoard.cs:209-224 | the City cascade converts every neighbour that qualifies when the walk starts |
| RuleFacts.SubmitCityGrows | Assets/_Scripts/GameBoard.cs:183-224 | an accepted City occupies its cell, converts each qualifying Forest neighbour, and elsewhere only grows Forest into City |
| GameBoards.GameBoard.constructor | Assets/_Scripts/GameBoard.cs:72 | the board starts with the scene's layers and a budget of 2 |
| GameBoards.GameBoard.Submit | Assets/_Scripts/GameBoard.cs:174-241 | the in-place recursive placement leaves exactly the board `Rules.Submitted` describes |
| GameBoards.GameBoard.ClearAround | Assets/_Scripts/GameBoard.cs:196-207 | the in-place Mountain loop leaves exactly the board `Rules.MountainCascade` describes |
| GameBoards.GameBoard.GrowAround | Assets/_Scripts/GameBoard.cs:209-224 | the in-place City loop leaves exactly the board `Rules.CityCascade` describes |
| Turns.NextTurn | Assets/_Scripts/GameManager.cs:33-36 | the CPU's turn comes exactly after the player's, and the player's turn comes after every other state |
| Turns.AdvanceTwice | Assets/_Scripts/GameManager.cs:33-36 | two turn changes from either turn come back to it |
| Turns.AdvanceSettles | Assets/_Scripts/GameManager.cs:33-36 | two turn changes from Init or GameEnded land on the CPU's turn |
| Turns.OnlyEndStops | Assets/_Scripts/EnemyAI.cs:24 | the outer loop test `state < GameEnded` fails only in GameEnded |
| Turns.WaitEnds | Assets/_Scripts/EnemyAI.cs:26-29 | the wait loop ends exactly in TurnCPU or GameEnded |
| Turns.BeforeTotal | Assets/_Scripts/GameManager.cs:5-7 | the enum order is a strict total order |
| Turns.GameManager.constructor | Assets/_Scripts/GameManager.cs:11 | the game starts in Init |
| Turns.GameManager.StartGame | Assets/_Scripts/GameManager.cs:26-31 | starting opens the player's turn |
| Turns.GameManager.AdvanceTurn | Assets/_Scripts/GameManager.cs:33-36 | TurnPlayer becomes TurnCPU and every other state becomes TurnPlayer |
| Turns.GameManager.EndGame | Assets/_Scripts/GameManager.cs:38-43 | ending sets GameEnded from any state |
| Cache.Kept | Assets/_Scripts/EnemyAI.cs:219-228 | the culled frontier is never longer than the frontier |
| Cache.Probes | Assets/_Scripts/EnemyAI.cs:231-267 | the cells probed around each kept tile in turn: one per tile and offset |
| Cache.AddValid | Assets/_Scripts/EnemyAI.cs:234-250 | the guarded additions over a probe sequence: the list grows by at most one entry per probe |
| Cache.Explored | Assets/_Scripts/EnemyAI.cs:215-268 | the whole frontier walk as a value: the frontier never grows, the candidate lists never shrink, and the City list gains at most one entry per kept tile and orthogonal offset |
| Cache.ExploredAt | Assets/_Scripts/EnemyAI.cs:230-267 | exploring around one tile leaves the frontier alone, and adds at most one City candidate per orthogonal offset and one Mine or Farm candidate per offset of either table |
| Cache.Noted | Assets/_Scripts/EnemyAI.cs:143-208 | noting a placed tile changes the frontier only for a human terrain, and then by at most the tile itself |
| Cache.Priority | Assets/_Scripts/EnemyAI.cs:38 | the chosen kind has a non-empty list, every kind preferred over it has an empty one, and nothing is chosen only when all three lists are empty |
| Cache.Replay | Assets/_Scripts/EnemyAI.cs:36-44 | the CPU's successive placements never lower the budget, raise it by at most one per move, and City moves leave it unchanged |
| CacheFacts.KeptMembers | Assets/_Scripts/EnemyAI.cs:219-228 | the culled frontier holds exactly the frontier's unsurrounded tiles |
| CacheFacts.KeptAppend | Assets/_Scripts/EnemyAI.cs:219-228 | the cull is an order-keeping filter: culling a concatenation culls each part |
| CacheFacts.KeptNothingToCull | Assets/_Scripts/EnemyAI.cs:219-228 | a frontier without surrounded tiles is kept whole |
| CacheFacts.KeptDistinct | Assets/_Scripts/EnemyAI.cs:219-228 | culling a duplicate-free frontier leaves it duplicate-free |
| CacheFacts.KeptStep | Assets/_Scripts/EnemyAI.cs:221-228 | one more frontier tile is either culled or appended to the kept tiles |
| CacheFacts.CullRemoves | Assets/_Scripts/EnemyAI.cs:225-226 | `Remove` of a surrounded tile just after the kept prefix cuts out exactly that tile, so no skipped or repeated visits |
| CacheFacts.AddValidMembers | Assets/_Scripts/EnemyAI.cs:234-250 | after the guarded additions, a list holds its old entries and exactly the probes that validate for its kind |
| CacheFacts.AddValidPrefix | Assets/_Scripts/EnemyAI.cs:234-250 | guarded additions only append |
| CacheFacts.AddValidDistinct | Assets/_Scripts/EnemyAI.cs:234-250 | guarded additions never create a duplicate |
| CacheFacts.AddValidAppend | Assets/_Scripts/EnemyAI.cs:231-267 | probing p and then q is the same as probing p + q |
| CacheFacts.AddValidOne | Assets/_Scripts/EnemyAI.cs:197-206 | re-validating one cell appends it exactly when it validates and is absent |
| CacheFacts.AddValidSaturated | Assets/_Scripts/EnemyAI.cs:234-266 | probes whose valid cells are all listed already change nothing |
| CacheFacts.ProbesMembers | Assets/_Scripts/EnemyAI.cs:231-267 | the probed cells are exactly the tiles plus the offsets |
| CacheFacts.ProbesBand | Assets/_Scripts/EnemyAI.cs:231-267 | for a table covering a distance band, the probes are exactly the cells in that band around some tile |
| CacheFacts.ProbesAdjacent | Assets/_Scripts/EnemyAI.cs:231-233 | through the orthogonal table, the probes are exactly the neighbours of the tiles |
| CacheFacts.ProbesRange2 | Assets/_Scripts/EnemyAI.cs:231-255 | through both tables, the probes are exactly the cells at distance 1 or 2 from the tiles |
| CacheFacts.ShiftedAdjacent | Assets/_Scripts/EnemyAI.cs:158-160 | the cells probed around one tile through the orthogonal table are its four neighbours |
| CacheFacts.ProbeStep | Assets/_Scripts/EnemyAI.cs:231-267 | exploring one more kept tile extends the probe sequence by that tile's probes |
| CacheFacts.ProgressStart | Assets/_Scripts/EnemyAI.cs:219 | the walk starts with nothing explored |
| CacheFacts.ProgressKeep | Assets/_Scripts/EnemyAI.cs:230-267 | exploring the next tile moves it from the unvisited rest to the kept tiles |
| CacheFacts.ProgressCull | Assets/_Scripts/EnemyAI.cs:222-227 | removing the next, surrounded tile drops it from the rest and leaves the candidate lists alone |
| CacheFacts.ProgressEnd | Assets/_Scripts/EnemyAI.cs:219-268 | the finished walk is the explored cache |
| CacheFacts.ExploredFrontier | Assets/_Scripts/EnemyAI.cs:219-228 | after exploring, the frontier holds exactly the old frontier's unsurrounded tiles |
| CacheFacts.ExploredOnlyAdds | Assets/_Scripts/EnemyAI.cs:231-267 | exploring only appends to the candidate lists |
| CacheFacts.ExploredCity | Assets/_Scripts/EnemyAI.cs:231-238 | a cell is a City candidate after exploring exactly when it was one, or validates for City and neighbours a kept frontier tile |
| CacheFacts.ExploredMine | Assets/_Scripts/EnemyAI.cs:240-260 | a cell is a Mine candidate after exploring exactly when it was one, or validates for Mine and lies within distance 2 of a kept frontier tile |
| CacheFacts.ExploredFarm | Assets/_Scripts/EnemyAI.cs:246-266 | the same for Farm |
| CacheFacts.ExploredWellformed | Assets/_Scripts/EnemyAI.cs:219-267 | exploring keeps all four lists duplicate-free |
| CacheFacts.ExploredIdempotent | Assets/_Scripts/EnemyAI.cs:215-268 | on an unchanged board, a second exploration changes nothing |
| CacheFacts.NotedMountain | Assets/_Scripts/EnemyAI.cs:145-166 | after a Mountain, the cell leaves all lists, and the only additions are its neighbours that validate for Mine |
| CacheFacts.NotedWater | Assets/_Scripts/EnemyAI.cs:145-177 | after a Water tile, the only additions are its neighbours that validate for Farm |
| CacheFacts.NotedHuman | Assets/_Scripts/EnemyAI.cs:179-192 | after a human tile, the cell joins the frontier, and the only additions are its neighbours that validate for City |
| CacheFacts.NotedOther | Assets/_Scripts/EnemyAI.cs:194-207 | after Plains or Forest, only the cell itself is re-validated, for each of the three kinds |
| CacheFacts.NotedWellformed | Assets/_Scripts/EnemyAI.cs:143-207 | noting a resource keeps all four lists duplicate-free |
| CacheFacts.AddValidHas | Assets/_Scripts/EnemyAI.cs:234-250 | one cell is in the list after guarded additions exactly when it was, or is a probe that validates |
| CacheFacts.AddValidSkipsClaimed | Assets/_Scripts/EnemyAI.cs:234-250 | a claimed cell is never added by a guarded addition |
| CacheFacts.NotedDropsClaimed | Assets/_Scripts/EnemyAI.cs:143-207 | after noting, a claimed cell is in none of the candidate lists |
| CacheFacts.ResourceAddedDropsClaimed | Assets/_Scripts/EnemyAI.cs:143-211 | after a full OnResourceAdded, a claimed cell is in none of the candidate lists |
| CacheFacts.ExploredSound | Assets/_Scripts/EnemyAI.cs:231-267 | exploring adds only candidates that validate on the current board |
| CacheFacts.AddValidSound | Assets/_Scripts/EnemyAI.cs:234-250 | guarded additions keep "every entry validates" |
| CacheFacts.NotedSound | Assets/_Scripts/EnemyAI.cs:143-207 | noting adds only candidates that validate on the current board |
| CacheFacts.StaleCandidateIgnored | Assets/_Scripts/EnemyAI.cs:93-141 | submitting a kind a second time on a cell that was just placed changes nothing |
| Opponent.EnemyAI.constructor | Assets/_Scripts/EnemyAI.cs:54-63 | the opponent's copies of the two offset tables are the orthogonal steps and the eight range-2 offsets |
| Opponent.EnemyAI.AddValidAround | Assets/_Scripts/EnemyAI.cs:158-165 | the probe loop around one cell appends exactly the guarded additions of its probes |
| Opponent.EnemyAI.AddIfValid | Assets/_Scripts/EnemyAI.cs:197-206 | re-validating the cell itself is one guarded addition |
| Opponent.EnemyAI.ProbeNear | Assets/_Scripts/EnemyAI.cs:231-251 | the orthogonal probe loop appends to each of the three lists exactly the guarded additions of the four neighbours |
| Opponent.EnemyAI.ProbeFar | Assets/_Scripts/EnemyAI.cs:253-267 | the range-2 probe loop appends to the Mine and Farm lists exactly the guarded additions of the eight range-2 cells |
| Opponent.EnemyAI.ExploreAround | Assets/_Scripts/EnemyAI.cs:230-267 | the two probe loops for one tile leave the lists as `Cache.ExploredAt` says |
| Opponent.EnemyAI.ExploreAndCullFrontier | Assets/_Scripts/EnemyAI.cs:215-268 | the in-place walk with its removals and index stepping leaves the lists as `Cache.Explored` says, and keeps them duplicate-free |
| Opponent.EnemyAI.Initialise | Assets/_Scripts/EnemyAI.cs:77-89 | the frontier becomes the unsurrounded City tiles, every candidate validates, and a duplicate-free tile list gives duplicate-free lists |
| Opponent.EnemyAI.Note | Assets/_Scripts/EnemyAI.cs:143-208 | the removals and the terrain switch leave the lists as `Cache.Noted` says |
| Opponent.EnemyAI.OnResourceAdded | Assets/_Scripts/EnemyAI.cs:143-211 | the lists become the noted and then explored cache, and the method keeps them duplicate-free and sound |
| Opponent.EnemyAI.TryPlaceTile | Assets/_Scripts/EnemyAI.cs:93-141 | a tile is submitted exactly when the kind's list is non-empty, at one of its entries, by an ordinary `Submit`. Otherwise the board is unchanged. The lists never change |
| Opponent.EnemyAI.TryPlaceBest | Assets/_Scripts/EnemyAI.cs:38 | the short-circuit chain submits a tile exactly when some list is non-empty, and the tile is of the preferred kind |
| Opponent.EnemyAI.TakeTurn | Assets/_Scripts/EnemyAI.cs:31-50 | after the game has ended nothing changes. On the CPU's turn the lists are explored and the turn passes back to the player. If some list is non-empty, exactly max(budget, 0) tiles of the preferred kind are submitted, each at a listed candidate, and the board is the result of submitting them in turn. Otherwise nothing is submitted |

## Left out

- Coordinates: `WorldToCell` and `CellToWorld` are the identity here, which erases a difference between the two sides. Only the two cascades round-trip: they pass the board's own `_logic.CellToWorld(cell)` (GameBoard.cs:204 and 221), which `Validate` and `Submit` turn back into the same cell with `_logic.WorldToCell` (GameBoard.cs:101 and 178). A player's piece passes the world position of a cell of its own child tilemap (Placeable.cs:39-43 and 63-68, with `_tilemap` taken at Placeable.cs:91), so each of its tiles lands on the board cell beneath it; the model equates that board cell with the piece's own cell index. The opponent instead passes raw cell coordinates where a world position is expected (EnemyAI.cs:100-130, 161, 172, 186, 195-197 and 234-262). On the isometric grid it therefore validates and places at `WorldToCell(cell)`, which is in general a different cell. `Opponent.EnemyAI.TryPlaceTile`, `ExploreAndCullFrontier`, `ProbeNear`, `ProbeFar`, `Note`, `OnResourceAdded` and `TakeTurn` all validate and place at the listed cell itself.
- The `_temp` preview layer: `Validate` writes to it, but nothing reads it back, so those writes are left out.
- Scene plumbing: resource loading in `Awake`, the panels, `EnableHelperGrid`, `ClearTemp`, `Reset` and `Quit` are left out.
- Scores: the `UnclaimedTiles` property (GameBoard.cs:31-33) is read nowhere in the source, so it is left out; as written its lambda assigns where it would compare, so it is not a count of unclaimed tiles either. The score counters and their change events, read at NatureScore.cs:14, HumanScore.cs:14 and EndMessage.cs:21, are not declared in GameBoard.cs and are not part of this model.
- Null tiles: reading the terrain of a missing graphics tile throws in the code. Here a missing tile simply does not match.
- `GameBoard.GetCityTiles` (called at EnemyAI.cs:83) is not declared in GameBoard.cs and is not part of this model. `Initialise` takes the board's City tiles as a parameter.
- `GameBoard.TileIsSurrounded` (called at EnemyAI.cs:222) is not declared in GameBoard.cs and is not part of this model. The opponent receives it as an arbitrary predicate of the board and the cell.
- `Random.Range` is modelled as an arbitrary valid index, since the distribution is not modelled.
- The resource-added event: GameBoard.cs neither declares nor raises it, so `OnResourceAdded` is a standalone method that nothing in the model calls after a placement.
- Opponent.EnemyAI.constructor: in the code the four lists are null until `Initialise` creates them (EnemyAI.cs:11-14 and 79-83), so an `OnResourceAdded` before the game starts throws a null reference. The model starts with four empty lists and does not model that failure.
- The game-start event that calls `Initialise` is not modelled. Nothing connects `StartGame` to it.
- Coroutines: the yields, `StartCoroutine`, `StopCoroutine` and the frame-by-frame waiting are left out. `TakeTurn` is one pass of the loop body, entered once the wait is over. Another component changing the game state in the middle of a turn is not modelled.
- Logging: the `print` calls write only to the log and are left out.
