# ZK Battleship rules engine and turn proofs, in Dafny

This project models the deterministic core of ZK-battleship, a two-player
Battleship game in which each player's board stays hidden. Each turn's hit or
miss answer comes with a RISC Zero proof that it was computed by the rules
engine from a committed board. The model covers:

- **The rules engine** (`core/src/lib.rs`):
  - positions, stepping and bounds;
  - ship sizes and type indices;
  - the per-ship `u8` hit bitmask, the sunk test and `check_hit`;
  - ship placement (`can_place_ship`, `place_ship`, `place_ships`, `place_ships_randomly`);
  - the board consistency check `check`;
  - `apply_shot`.

  A `GameState` is a Dafny class. Its ship list is a `seq<Ship>` field that
  the methods reassign, and its 10×10 grid is an `array2<CellState>`. Every
  method is proved against a function on the state's value, a `Board`.
  This datatype is the value of a `GameState`. It is not the separate
  `Board` type that `core/src/lib.rs:451-453` says was removed. The
  rules are stated and proved on `Board`: placement keeps the fleet well
  formed, a rejected shot changes nothing, one shot changes one cell and at
  most one ship, and hit bits stay in step with the grid's Hit marks.
- **The proving guest** (`methods/guest/src/main.rs`):
  - it validates the initial state and aborts if it is inconsistent;
  - it publishes the initial commitment;
  - for every shot it applies the shot and publishes a `RoundCommit` holding the old and new commitments, the shot and the outcome;
  - it records a rejected shot as a Miss and leaves the state unchanged.

  The commitment (SHA-256 over the bincode encoding) is a function
  parameter `commit`, so the proofs hold for any deterministic commitment.
  Lemmas prove the hash-chain shape of the journal and the round-by-round
  outcomes.
- **The host's validation of a round proof** (`host/src/proofs.rs`,
  `verify_remote_round_proof`):
  - the receipt has already been verified and its journal already decoded into a list of rounds;
  - it is a pure validator with one error per guard, in the source's order;
  - lemmas show that only the last round is examined;
  - an honest guest's round is accepted exactly when the shot is valid;
  - with a collision-free commitment, an accepted round is the engine's own transition.
- **The scripted game-master demo** (`host/src/game_master.rs`,
  `run_game_master_demo`):
  - a `while` loop over two `GameState` objects is proved equal to a recursive specification `Run`;
  - the turn rules are stated as lemmas;
  - the demo itself is proved to end after all four script lines with no winner and the turn with the first player.

  The script's comments expect the second player to keep hitting. In the
  code, the shot at (0,1) is a Miss on the first player's empty row 1, so
  the turn passes. The last line is tagged for the second player, but the
  loop never reads the tag, so the first player fires it and hits the second
  player's Carrier at (0,2). `GameMasterDemo.DemoRun` proves this sequence.

The code promises more than it implements in two places, and the model follows the code:

- The doc comment on `Envelope` (`host/src/network_protocol.rs:53-65`) says its `seq` number is there to prevent replay and enforce ordering, and gives it an optional authentication token. `Envelope::new` always sets that token to None (`host/src/network_protocol.rs:69-70`), and no code assigns or checks either field. So there is no authenticated or sequenced channel to model.
- The round-proof check examines only the last round. It does not compare that round's recorded `hit` with the engine's outcome.

Files:

| file | contents |
|---|---|
| `wrappers.dfy` | `Option` and `Result` |
| `geometry.dfy` | directions, positions, ship types and their constants |
| `ships.dfy` | `Ship`, the hit bitmask, coordinates, `check_hit` |
| `boards.dfy` | cells, outcomes, rounds, the `Board` value, placement and shot functions |
| `placement.dfy` | placement and consistency lemmas |
| `shots.dfy` | shot lemmas |
| `game_state.dfy` | the `GameState` class |
| `guest.dfy` | the proving guest |
| `round_proofs.dfy` | the host's round-proof validation |
| `game_master.dfy` | the scripted demo loop and the demo run |

The rules are stated on these reference definitions, each the counterpart of one source function; the lemmas in the table below state their properties:

| definition | source |
|---|---|
| `Geometry.Step`, `Geometry.InBounds` | `core/src/lib.rs:57-66` |
| `Ships.IsSunk` | `core/src/lib.rs:128-132` |
| `Boards.Place` | `core/src/lib.rs:275-283` |
| `Boards.PlaceAll` | `core/src/lib.rs:288-297` |
| `GameMaster.Shoot` | `host/src/game_master.rs:170-181` |
| `GameMaster.Run` | `host/src/game_master.rs:168-187` |
| `Guest.GuestShot` | `methods/guest/src/main.rs:43-58` |
| `Guest.Replay` | `methods/guest/src/main.rs:40-61` |

## Model

| member | source | states |
|---|---|---|
| Geometry.StepAlongOneAxis | core/src/lib.rs:57-62 | Stepping across changes only x, by the distance; stepping down changes only y |
| Geometry.StepInjective | core/src/lib.rs:57-62 | Different distances from one start in one direction give different cells |
| Geometry.InBoundsIffListed | core/src/lib.rs:64-66 | A position is in bounds iff it is one of the 100 cells with x < 10 and y < 10 |
| Geometry.Size | core/src/lib.rs:91-99 | A type's size is its entry in the size table (5, 4, 3, 3, 2) and lies between 2 and 5 |
| Geometry.Index | core/src/lib.rs:101-109 | A type's index is below 5, and the canonical type list has that type at that index |
| Ships.NewShip | core/src/lib.rs:124-126 | A new ship keeps its type, start and direction, has no hit bit set and is not sunk |
| Ships.IsSunkIffAllSegmentsHit | core/src/lib.rs:128-132 | A ship is sunk iff each of the lowest `size` bits of its hit mask is set |
| Ships.GetCoordinates | core/src/lib.rs:174-182 | Returns exactly `size` positions; the i-th is the start stepped i cells in the ship's direction |
| Ships.CoordinatesIff | core/src/lib.rs:174-182 | A cell is one of a ship's coordinates iff it lies on the ship's line within `size` cells of the start, and then it sits at its offset in the list |
| Ships.CheckHit | core/src/lib.rs:142-171 | Reports a hit iff the shot is one of the ship's coordinates; a hit sets the bit at the shot's offset; a miss leaves the ship unchanged |
| Ships.CheckHitSetsOneBit | core/src/lib.rs:152-155 | On a hit, exactly the bit at the offset becomes set; every other bit is as before |
| Ships.ShotBeforeStartMisses | core/src/lib.rs:148-151 | A shot before the ship's start on its line is not a hit and leaves the mask alone |
| Boards.SetCell | core/src/lib.rs:387 | Writing one cell sets that cell and leaves every other cell as it was |
| Boards.NewBoard | core/src/lib.rs:216-222 | A new board has no ships, the given pepper and every cell Empty |
| Boards.HitIndex | core/src/lib.rs:393-401 | Finds the first ship covering the shot, or reports that none does |
| Boards.Fire | core/src/lib.rs:381-405 | None iff the shot is out of bounds or the cell is not Empty, and then nothing changes. Otherwise the pepper and ship count are kept, only the shot cell changes, a Miss marks it Miss and leaves the ships alone, and Hit or Sunk marks it Hit |
| PlacementFacts.ShipInBoundsByEnds | core/src/lib.rs:240-249 | All of a ship's cells are in bounds iff its start and its end are |
| PlacementFacts.DisjointSymmetric | core/src/lib.rs:260-268 | Overlap is symmetric |
| PlacementFacts.CoordinatesIgnoreHits | core/src/lib.rs:174-182 | A ship's coordinates do not depend on its hit mask |
| PlacementFacts.PlacePreservesFleet | core/src/lib.rs:275-283 | Placing succeeds iff the placement is allowed: start and end in bounds, the type not yet placed, no shared cell. Success appends one unhit ship, failure leaves the fleet unchanged, and the fleet stays well formed |
| PlacementFacts.PlaceAllPreservesFleet | core/src/lib.rs:285-297 | Placing in order keeps the fleet well formed and keeps every earlier ship. It adds only unhit ships and reports success iff every single placement succeeded |
| PlacementFacts.PlaceAllKeepsEarlierPlacements | core/src/lib.rs:285-297 | Placement is not atomic: the fleet after any prefix of the requests is a prefix of the fleet after all of them, so the ships placed before a failure stay |
| PlacementFacts.PlacementsFromNewAreWellFormed | core/src/lib.rs:236-283 | Any sequence of placements on a new state leaves every ship in bounds, the ships pairwise disjoint, their types distinct and no ship hit |
| PlacementFacts.DistinctTypesCount | core/src/lib.rs:353-358 | In a fleet of pairwise distinct types there are as many types as ships |
| PlacementFacts.ConsistentHasFiveShips | core/src/lib.rs:343-372 | A board that passes the consistency check has exactly five ships |
| PlacementFacts.WellFormedFleetAtMostFive | core/src/lib.rs:251-254 | A fleet of distinct types has at most five ships |
| PlacementFacts.BoundaryPlacement | core/src/lib.rs:501-507 | On a new board a horizontal Carrier fits at (5,9) and not at (6,9) |
| PlacementFacts.OverlapDetection | core/src/lib.rs:510-517 | After a Carrier across at (0,0), a Battleship down at (0,0) is refused and one down at (0,1) is accepted |
| ShotFacts.RepeatedShotRejected | core/src/lib.rs:545-555 | A second shot at the same cell returns None and changes nothing |
| ShotFacts.FireChangesAtMostOneShip | core/src/lib.rs:381-405 | A shot changes at most one ship, the first one covering the cell, and only that ship's hit mask. It is a Miss iff it is accepted and no ship covers the cell |
| ShotFacts.SunkOnlyWhenSunk | core/src/lib.rs:393-399 | Sunk(t) is returned only when the first ship covering the shot has type t and is now sunk; Hit only when that ship covers the shot and is not sunk |
| ShotFacts.FirePreservesConsistency | core/src/lib.rs:381-405 | Shots keep the fleet well formed, its types the same and a consistent board consistent |
| ShotFacts.FreshBoardMatchesGrid | core/src/lib.rs:216-222 | After any placements on a new board, each ship's hit bits agree with the grid's Hit marks |
| ShotFacts.FirePreservesHitsMatchGrid | core/src/lib.rs:387-403 | In a well-formed fleet, a shot keeps each hit bit set iff the grid marks that segment's cell Hit |
| ShotFacts.SunkIffAllCellsMarked | core/src/lib.rs:128-132 | When hit bits match the grid, a ship is sunk iff all its cells are marked Hit |
| ShotFacts.ShotBeforeStartIsMiss | core/src/lib.rs:485-498 | With a Cruiser across at (5,5), a shot at (4,5) is a Miss; the mask stays 0 and the cell becomes Miss |
| GameStates.GameState.constructor | core/src/lib.rs:216-222 | A new state's value is the new board with the given pepper |
| GameStates.GameState.FromBoard | methods/guest/src/main.rs:22-27 | A state built from a decoded value has exactly that value |
| GameStates.GameState.CanPlaceShip | core/src/lib.rs:236-271 | The answer is exactly the placement rule on the current ships |
| GameStates.GameState.PlaceShip | core/src/lib.rs:275-283 | Succeeds iff the placement rule holds; success appends exactly the new unhit ship; failure changes nothing; grid and pepper are untouched |
| GameStates.GameState.PlaceShips | core/src/lib.rs:288-297 | The result and the new ships are those of placing each request in order, non-atomically |
| GameStates.GameState.PlaceAtFirstFit | core/src/lib.rs:318-333 | Places the type at its first fit in the list, across before down; it fails, changing nothing, iff no listed position fits in either direction |
| GameStates.GameState.PlaceShipsRandomly | core/src/lib.rs:303-337 | Succeeds iff first-fit placement of the five types in canonical order succeeds, and then the ships are exactly that first-fit fleet and the board passes the consistency check. On failure the ship list is empty; the grid and pepper never change |
| Boards.FirstFit | core/src/lib.rs:319-329 | Finds nothing iff no listed position fits the type in either direction; a found placement has that type, is allowed and starts at a listed position |
| PlacementFacts.FirstFitIsFirst | core/src/lib.rs:319-329 | The found position is the first listed one that fits in some direction, and down is chosen only where across does not fit |
| PlacementFacts.FirstFitFleetFailure | core/src/lib.rs:310-334 | Placing the five types fails iff some type fits at no listed position beside the types placed before it |
| PlacementFacts.FirstFitFleetFailsOnlyWhenStuck | core/src/lib.rs:330-334 | A failed placement names a type that fits nowhere beside the ships placed before it |
| PlacementFacts.FirstFitFleetStuck | core/src/lib.rs:330-334 | Once a type fits nowhere, placing it and every later type fails |
| PlacementFacts.FirstFitFleetStep | core/src/lib.rs:310-329 | Placing the next type at its first fit extends the fleet by exactly that unhit ship |
| PlacementFacts.FirstFitFleetWellFormed | core/src/lib.rs:310-336 | A successful first-fit fleet of n types has n ships, well formed, the types in canonical order, at listed positions and unhit |
| PlacementFacts.FirstFitFleetConsistent | core/src/lib.rs:303-337 | A board holding a complete first-fit fleet passes the consistency check |
| PlacementFacts.BasicFleetWellFormed | core/src/lib.rs:461-471 | The hand-placed fleet of the basic-board unit test is in bounds and overlap-free |
| PlacementFacts.BasicBoardConsistent | core/src/lib.rs:459-473 | The basic-board unit test's state passes the consistency check |
| GameStates.GameState.Check | core/src/lib.rs:343-372 | The answer is true iff every ship is in bounds, ships are pairwise of different types and disjoint, and all five types are present |
| GameStates.GameState.ApplyShot | core/src/lib.rs:381-405 | The outcome and the new state are those of `Boards.Fire` on the old state |
| Guest.Rounds | methods/guest/src/main.rs:40-62 | The guest publishes exactly one round per shot |
| Guest.GuestMain | methods/guest/src/main.rs:19-63 | No journal iff the initial state fails the consistency check; otherwise the journal is the initial commitment followed by the rounds for the shots |
| Guest.RoundAt | methods/guest/src/main.rs:40-62 | Round i records the commitment before and after shot i, shot i itself and its outcome |
| Guest.RoundsFormChain | methods/guest/src/main.rs:35-61 | One round per shot, in input order, each with its input shot. The first round starts at the initial commitment, each round starts where the previous one ended, and the last ends at the commitment of the final state |
| Guest.RoundOutcome | methods/guest/src/main.rs:49-58 | A rejected shot is recorded as Miss with new commitment equal to old; an accepted one records the engine's outcome |
| Guest.ReplayPreservesInvariants | methods/guest/src/main.rs:27-58 | Processing shots keeps a consistent board consistent and its hit bits in step with the grid |
| RoundProofs.VerifyRoundProof | host/src/proofs.rs:43-84 | Fails with no rounds, on a shot mismatch, on an old-commitment mismatch, or on a shot the state rejects, each in that order and exactly then. Succeeds, returning the rounds unchanged, iff the last round's shot and old commitment match, the state accepts the shot and the new commitment is that of the state after the shot |
| RoundProofs.OnlyLastRoundExamined | host/src/proofs.rs:55-57 | The verdict depends only on the last round's shot and commitments; earlier rounds and the recorded outcome never matter |
| RoundProofs.HonestRoundAcceptedIffShotValid | host/src/proofs.rs:70-81 | An honest guest's rounds are accepted against the pre-shot state iff that state accepts the shot, so a recorded invalid shot is never accepted |
| RoundProofs.AcceptedRoundIsHonest | host/src/proofs.rs:64-81 | With a collision-free commitment, acceptance pins the guest's pre-shot state to the verifier's. The recorded outcome is then the engine's, and the guest's final state is the one after the shot |
| GameMaster.ShootRules | host/src/game_master.rs:170-181 | Only the opponent's board is shot; Hit keeps the turn, Miss and Sunk pass it, and a rejected shot changes nothing |
| GameMaster.RunKeepsTurnBinary | host/src/game_master.rs:158-181 | The turn stays 0 or 1 throughout play |
| GameMaster.RunStopsAtSinking | host/src/game_master.rs:183-186 | Play stops right after a line exactly when that line's shot leaves the board just shot with every ship sunk, and the shooter is then the winner |
| GameMaster.RunEnds | host/src/game_master.rs:167-187 | Each iteration uses one script line, so play uses at most the script. Without a winner it uses all of it; a winner's opponent has every ship sunk |
| GameMaster.PlayScript | host/src/game_master.rs:158-187 | The loop over the two states ends with the boards, turn, line count and winner of the recursive play specification |
| GameMasterDemo.ParallelFleetPlaceable | host/src/game_master.rs:144-155 | In a fleet of parallel ships on separate lines with distinct types, each ship fits beside the ones before it |
| GameMasterDemo.DemoFleetsParallel | host/src/game_master.rs:144-155 | The first demo fleet lies across on rows 0, 2, 4, 6 and 8, the second down on those columns, every ship fitting the board |
| GameMasterDemo.DemoFleetPlaceable | host/src/game_master.rs:144-155 | Each demo placement is allowed given the ones before it |
| GameMasterDemo.DemoRun | host/src/game_master.rs:160-187 | The scripted play uses all four lines, has no winner and ends with the first player to move |
| GameMasterDemo.DemoRunLastThree | host/src/game_master.rs:160-187 | From the state after the first line, the remaining three lines are all used, with no winner and the turn ending with the first player |
| GameMasterDemo.DemoRunLastTwo | host/src/game_master.rs:160-187 | From the state after two lines, the last two lines are both used, with no winner and the turn ending with the first player |
| GameMasterDemo.RunGameMasterDemo | host/src/game_master.rs:138-188 | The demo ends with the turn at 0, four lines used and no winner |

## Left out

- The commitment itself, SHA-256 over the bincode encoding (`core/src/lib.rs:407-410`), is a parameter `commit`. Commitment sensitivity (a changed pepper changes the digest, `core/src/lib.rs:558-574`) rests on collision resistance. It is not proved. It is assumed only as an explicit hypothesis of `RoundProofs.AcceptedRoundIsHonest`.
- The RISC Zero prover and receipt verification (`host/src/proofs.rs:16-24`, `45`) are foreign cryptographic calls. The guest's `env::read` and `env::commit` are modelled as the method's inputs and its returned journal.
- `extract_round_commits`, `proofdata_from_receipt` and `receipt_from_proofdata` (`host/src/proofs.rs:29-38`, `86-97`) decode opaque bytes. They are out of scope. `RoundProofs.VerifyRoundProof` takes the already-decoded round list. The guest writes a bare initial digest before its rounds, while the extractor decodes every entry as a round. That layout round trip is not modelled.
- The authenticated, sequenced message channel is left out because the code does not implement it. Networking, standard input, interactive game flows, UI and printing are left out too. The demo's printed messages have no counterpart; the loop's results are returned instead.
- The random shuffle in `place_ships_randomly` is replaced by a parameter, the position list in whatever order the shuffle produced. `Distribution<GameState>::sample` (`core/src/lib.rs:413-449`) is not modelled: it needs the random number generator and panics on failure.
- Positions are unbounded naturals. The `u32` overflow that `Position::step` can hit on very large coordinates is not modelled.
- Ships.CheckHit: modelled on values, returning the flag and the updated ship rather than writing through `&mut self`. `GameStates.GameState.ApplyShot` stores the updated ship back into the ship list.
- The unit test `test_random_boards` (`core/src/lib.rs:475-482`) draws boards through `sample`, which is not modelled, so it has no counterpart. The unit test `test_sink_ship` (`core/src/lib.rs:522-542`) has no concrete counterpart; `ShotFacts.SunkOnlyWhenSunk` states the general rule it exercises.
- GameStates.GameState.PlaceShipsRandomly: requires the position list to hold each of the 100 cells once, as the shuffle of the cell list does, but does not prove that placement then always succeeds; it proves success exactly when first-fit placement succeeds. `GameStates.GameState.PlaceAtFirstFit` is the search for one type, split out of the nested loops of `place_ships_randomly`.
