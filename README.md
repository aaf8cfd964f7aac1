# oxyb dungeon generation, modelled in Dafny

This project models the procedural level generation of the oxyb game, and proves properties of the model.

**The room grower** (`src/map.rs`, module `RoomGrowth`) is the main part. It works on two 10×10×10 grids:
- `cube` records which cells hold a room.
- `possible_places` holds each cell's growth state: `None`, `Connection` (frontier) or `Filled`.

It runs in three stages:
1. It seeds a Cube room at (5,5,5).
2. It grows. Each round draws a room type and a frontier anchor, validates every footprint cell against both grids, and commits only a valid proposal.
3. It appends a Cube end room at a frontier cell.

The grids are `array3`s updated in place by methods, as in the source:
- `calculate_connections` becomes `CalculateConnections`.
- `get_possible_connections` becomes `GetPossibleConnections`.
- One round of the `while` loop becomes `Propose` (with `CheckCells` and `CommitRoom`).
- `populate_rooms` becomes `PopulateRooms`, with its `while` loop in `GrowRooms`.

The growth invariant `GrowthInv` holds after the seed and after every round. It says:
- the seed comes first;
- every committed footprint is off the 0-face and held in `cube`;
- committed rooms are pairwise disjoint;
- every room after the seed is anchored on a probe cell of an earlier room;
- every frontier cell is a probe cell of a committed room;
- cells on the 0-face (a coordinate of 0) are never marked in `possible_places`;
- `Empty` is never written.

Three smaller parts sit beside it:
- **`FirstFit`** (`src/dump.rs`): weighted room-type choice, the box-validity test, and first-fit placement in lexicographic anchor order.
- **`FloorGraph`** (`src/floor.rs`): the seven-node linear dungeon graph. `DungeonGraph` is a class whose `nodes` and `edges` are reassigned.
- **`Console`** (`src/console.rs`): the terminal's key handler on the `Terminal` and `CurrentCommand` objects, and the 15-line screen list.

Randomness is a parameter everywhere:
- **The grower:** each round takes one `Draw(kind, anchor)`. It stands for the two `gen_range` calls as `kind % 5` and `anchor % |frontier|`. The end room takes its own draw.
- **The weighted choice:** each room takes one `d % total`.
- **The shuffle:** it is rand's Fisher–Yates pass. Draw `k` chooses the swap partner `d % (i + 1)`.

These panics of the source become error values:
- `gen_range` on an empty frontier becomes `EmptyFrontier`.
- A footprint cell outside the grid at validation becomes `IndexOutOfRange`.
- `gen_range(0..0)` in the weighted choice becomes `EmptyRange`.

Two other panics, both `usize` underflows, are ruled out by preconditions that every caller meets:
- `place_room` computes `cube.len() - dim + 1`, which underflows for a dimension over 10. `PlaceRoom` requires every dimension to be at most 10 (`Fits`). Every room `GenerateRooms` builds meets this (`GeneratedRoomsFit`).
- The probe tables of `calculate_connections` subtract 1 or 2 from coordinates. `CalculateConnections` requires that no probe coordinate is negative (`NoUnderflow`). `ProbesNonNegative` proves this for every footprint off the 0-face, and that is how every call site meets it.

The `while rooms_to_go > 1` loop has no bound of its own. Here it stops with `DrawsExhausted` when the supplied draws run out.

Behaviours of the code that the model keeps:
- **The probe filter does not test `Filled`.** A committed cell can be marked `Connection` again: after the seed, a Cube at (6,5,5) re-marks the seed cell (`SeedCellReopens`).
  - Interior rooms are still disjoint, because validation also tests `cube`.
  - The end room is not validated, so it may be drawn onto an earlier room. Only the committed rooms are proved disjoint.
- **A footprint cell at index 10 panics.** Validation indexes past the array there, so the round does not go on; the model returns `IndexOutOfRange`.
- **`cube` does not record the owner.** Every committed cell receives a fixed placeholder room. Only the seed cell is then overwritten with the seed itself.
- **The R2 and R4 probe tables repeat one entry.** They list (x∓1, y, z+1) twice and never probe (x∓1, y, z−1) (`ExtendedXTablesRepeatAProbe`). The model keeps the tables entry for entry.

## Model

Some functions compute without a contract of their own. The rows below state their behaviour:
- `RoomGrowth.GetOccupiedCells` is covered by `FootprintShape`.
- `RoomGrowth.ProbeTable` is covered by `ProbesBorderFootprint`, `ExtendedXTablesRepeatAProbe` and `ProbesNonNegative`.
- `RoomGrowth.TypeOf`, `InteriorColour` and `Proposal` are covered by `Propose`, `RoomsExtend` and `PopulateRooms`.
- `Console.KeyStep` and `Replay` are covered by `UseConsole` and the key lemmas from `CharKeyAppends` to `ClearThenType`.
- `FirstFit.Prefix` and `DimsOf` are covered by `SelectType`, `GenerateRooms` and the weight lemmas from `PrefixMonotone` on.

| member | source | states |
|---|---|---|
| RoomGrowth.FootprintShape | src/map.rs:376-411 | the footprint starts with the anchor; Cube has one cell; R1/R2/R3/R4 have two, the second at z+1 / x-1 / z-1 / x+1, a face neighbour of the anchor |
| RoomGrowth.ProbesBorderFootprint | src/map.rs:140-250 | every probe of every table is a face neighbour of a footprint cell and never a footprint cell |
| RoomGrowth.ExtendedXTablesRepeatAProbe | src/map.rs:188-250 | in the R2 and R4 tables entries 6 and 7 coincide, and the face neighbour below the second cell is never probed |
| RoomGrowth.CalculateConnections | src/map.rs:121-267 | after the call, each grid cell is given by PlaceAfter/CubeAfter: footprint cells Filled and held once a probe passed, passing probes Connection, all other cells unchanged, so cells held by committed rooms stay held |
| RoomGrowth.MarkProbes | src/map.rs:150-161 | the probe loop: after probes[..i] the grids are PlaceAfter/CubeAfter of those probes |
| RoomGrowth.FillOccupied | src/map.rs:156-159 | the inner loop writes Filled and the placeholder room to exactly the footprint cells |
| RoomGrowth.ProbeSurvives | src/map.rs:150-159 | a footprint off the 0-face always has a probe that passes the filter, so its cells are written |
| RoomGrowth.InnerRoomFills | src/map.rs:156-159 | for such a footprint every cell ends Filled in possible_places and held in cube |
| RoomGrowth.ProbesNonNegative | src/map.rs:140-250 | for a footprint off the 0-face no probe coordinate is negative, so no usize subtraction underflows |
| RoomGrowth.SeedCellReopens | src/map.rs:150-155 | the filter lets a passing probe overwrite Filled: a Cube at (6,5,5) re-marks the seed cell Connection |
| RoomGrowth.Frontier | src/map.rs:96-119 | the frontier holds exactly the in-grid Connection cells, in strictly increasing (i,j,k) order |
| RoomGrowth.FrontierZSpec | src/map.rs:102-114 | the k scan yields exactly the Connection cells of its row from k on, increasing |
| RoomGrowth.FrontierYSpec | src/map.rs:101-115 | the j scan yields exactly the Connection cells of its plane from j on, increasing |
| RoomGrowth.FrontierXSpec | src/map.rs:100-116 | the i scan yields exactly the Connection cells from plane i on, increasing |
| RoomGrowth.GetPossibleConnections | src/map.rs:96-119 | the triple loop returns the frontier: c is in the result iff c is in the grid and Connection, in increasing order, and no cell twice |
| RoomGrowth.IncreasingDistinct | src/map.rs:100-116 | a list in strictly increasing scan order holds no cell twice |
| RoomGrowth.ScanRow | src/map.rs:102-114 | the innermost loop appends the row's Connection cells in order |
| RoomGrowth.ScanPlane | src/map.rs:101-115 | the middle loop appends the plane's Connection cells, row by row in order |
| RoomGrowth.CheckCells | src/map.rs:332-347 | OutOfRange iff some cell is outside the grid; otherwise valid iff every cell is empty in cube and holds Connection or Empty in possible_places |
| RoomGrowth.Propose | src/map.rs:294-354 | one round: EmptyFrontier iff the frontier is empty; the proposal is the drawn type at the drawn frontier cell; accepted iff all its cells pass validation; rejected or failed changes neither grid, nor rooms, nor the counter; accepted pushes exactly that room, decrements the counter and applies CalculateConnections; a round never reports DrawsExhausted, so an in-grid invalid proposal is only rejected and the loop goes on; the growth invariant is kept |
| RoomGrowth.CommitRoom | src/map.rs:349-353 | committing a validated room applies CalculateConnections with its footprint and keeps the grid parts of the invariant (committed cells held, frontier cells probed by a committed room, only inner cells marked, Empty never written) |
| RoomGrowth.AcceptRoom | src/map.rs:336-353 | a validated proposal anchored on the frontier is pushed, the grids become CalculateConnections of its footprint, and the whole growth invariant is kept |
| RoomGrowth.FreeCellsApart | src/map.rs:336 | a room on cells empty in cube shares no cell with any committed room |
| RoomGrowth.CommittedAppend | src/map.rs:349-353 | a room whose cells are inner and held in cube joins the committed rooms without breaking what they promise |
| RoomGrowth.FrontierAnchor | src/map.rs:295-297 | proof helper that unfolds FrontierTouches: every frontier cell is a probe cell of some committed room |
| RoomGrowth.RoomsExtend | src/map.rs:349-353 | appending a validated room keeps the seed first, interior colours, disjointness and connectedness |
| RoomGrowth.DisjointExtend | src/map.rs:336-353 | a room apart from all committed rooms keeps them pairwise disjoint |
| RoomGrowth.ConnectedExtend | src/map.rs:295-353 | a room anchored on a probe cell of a committed room keeps every room connected to an earlier one |
| RoomGrowth.PlantSeed | src/map.rs:270-288 | after the seed step, only (5,5,5) is held (by the seed) and Filled, its six neighbours are Connection, and the growth invariant holds |
| RoomGrowth.PopulateRooms | src/map.rs:269-371 | on success: max(n,1)+1 rooms, the seed first, committed rooms disjoint, connected, on inner cells and coloured by type, and a yellow Cube end room at an inner cell probed by a committed room, namely the frontier cell of the final grid picked by the end draw (so a Connection cell at that moment); n <= 1 always succeeds; success needs at least n-1 rounds; each error names its cause: EmptyFrontier only when the final frontier is empty, IndexOutOfRange only when the last round's proposal has a cell off the grid, DrawsExhausted only when every draw was used with n >= 2 |
| RoomGrowth.GrowRooms | src/map.rs:294-354 | the growth loop keeps the growth invariant; without a failure it commits max(n,1) rooms in at least n-1 rounds; for n <= 1 it succeeds at once and (6,5,5) is still a Connection cell; each failure is tied to its cause as in PopulateRooms, and DrawsExhausted leaves fewer than n rooms |
| RoomGrowth.GrowthFacts | src/map.rs:356-357 | under the growth invariant committed rooms lie on inner cells, and a frontier cell is inner and probed by one of them |
| RoomGrowth.CommittedInner | src/map.rs:336-347 | proof helper that unfolds Committed: cells held by committed rooms are off the 0-face |
| RoomGrowth.EndRoomCompletes | src/map.rs:356-367 | a yellow Cube at such a cell, appended to a quota-complete room list, gives the output shape of populate_rooms |
| FirstFit.SelectType | src/dump.rs:41-58 | the weight loop returns a type iff v is below the total, and then the type of the first entry whose cumulative weight exceeds v |
| FirstFit.GenerateRooms | src/dump.rs:33-62 | error iff the total weight is 0 and a room is asked for; otherwise one room per draw, each unplaced, with dimensions (1,1,1)/(1,1,2) by type, of the type selected by the draw modulo the total |
| FirstFit.PrefixMonotone | src/dump.rs:41-45 | cumulative weights never decrease along the table |
| FirstFit.FirstAboveUnique | src/dump.rs:44-56 | at most one entry is the first to exceed a value |
| FirstFit.BelowTotalSelects | src/dump.rs:40-57 | every value below the total selects some entry |
| FirstFit.PositiveWeightSelectable | src/dump.rs:40-57 | the values from Prefix(i) to below Prefix(i+1) all select entry i, so each positive-weight type can occur |
| FirstFit.GeneratedRoomsFit | src/dump.rs:47-50 | the dimensions given to each generated room type are at most 10 on every axis, so place_room's range bounds never underflow |
| FirstFit.CheckValidPlacement | src/dump.rs:90-105 | true iff every cell of the box [x,x+dx)×[y,y+dy)×[z,z+dz) lies inside the cube and is None |
| FirstFit.CheckLine | src/dump.rs:96-100 | the innermost loop is true iff every cell of its line lies inside the cube and is None |
| FirstFit.FirstFreeUnique | src/dump.rs:69-72 | at most one anchor is first in scan order with a free box |
| FirstFit.FindAnchor | src/dump.rs:69-85 | the scan finds no anchor iff no scanned anchor has a free box; else it finds the lexicographically first one that has |
| FirstFit.ScanLine | src/dump.rs:71-83 | the z loop finds the first z on its line with a free box, or reports that none has |
| FirstFit.FillBox | src/dump.rs:74-80 | every cell of the box holds the room; every other cell is unchanged |
| FirstFit.FillPlane | src/dump.rs:75-79 | one plane of the box holds the room; every other cell is unchanged |
| FirstFit.PlaceRoom | src/dump.rs:66-88 | true iff some scanned anchor has a free box; then the first such anchor's box holds the room and nothing else changes; false leaves the cube unchanged |
| FloorGraph.Swapped | src/floor.rs:67 | a swap exchanges the two positions, keeps the others and the multiset |
| FloorGraph.MoveEndFromOne | src/floor.rs:63-71 | the edge loop exchanges positions 1 and 2 exactly when End is at 1, else leaves the shuffled order; the multiset is kept; End stays at 1 only when End was also at 2 |
| FloorGraph.Chain | src/floor.rs:63-73 | the edges are exactly (i, i+1) for i < n |
| FloorGraph.ChainGrows | src/floor.rs:63-73 | each pass of the edge loop extends the chain by exactly (i, i+1) |
| FloorGraph.DungeonGraph.constructor | src/floor.rs:50 | a new graph has no nodes and no edges |
| FloorGraph.DungeonGraph.Shuffle | src/floor.rs:61 | the shuffle only permutes the nodes and leaves the edges alone |
| FloorGraph.GenerateSimpleDungeon | src/floor.rs:49-76 | the shuffled order is a permutation of Start, End and five Normal; the final nodes are MoveEndFromOne of it; the edges are the chain over the nodes |
| FloorGraph.NodeCounts | src/floor.rs:53-59 | any order of the built nodes has 7 nodes: one Start, one End, five Normal, nothing else |
| FloorGraph.InitialCounts | src/floor.rs:53-59 | the pushed node list has 7 nodes: one Start, one End, five Normal, nothing else |
| FloorGraph.UniformCount | src/floor.rs:56-58 | the Normal loop pushes exactly n Normal rooms and nothing else |
| FloorGraph.ExitsFollowTemplate | src/floor.rs:53-58 | every node's exits follow its template: Start [(N,true)], End [(S,true)], Normal [(N,true),(S,true)] |
| FloorGraph.EndAwayFromOne | src/floor.rs:63-71 | after the edge loop End is never at index 1, for every shuffle |
| FloorGraph.DungeonShape | src/floor.rs:49-76 | the built graph has 7 nodes with the template counts above, End off index 1, and 6 edges |
| Console.Terminal.constructor | src/console.rs:17-20 | a terminal holds the given history |
| Console.CurrentCommand.constructor | src/console.rs:22-25 | a command buffer holds the given text |
| Console.UseConsole | src/console.rs:95-198 | outside the console state nothing changes; in it, history and command become the key-by-key replay of the pressed keys |
| Console.UpdateTerminal | src/console.rs:69-86 | 15 lines: lines 0..12 are the last min(13,h) history lines then "." padding, line 13 is "> " and the command, line 14 is "."; the padding count 14-len is never negative |
| Console.CharKeyAppends | src/console.rs:110-146 | a letter, digit or Space key appends exactly its character and leaves the history alone |
| Console.BackspaceDrops | src/console.rs:147 | Backspace removes the last character of the command, and does nothing to an empty command |
| Console.EnterSubmits | src/console.rs:164-173 | Enter resets the command and appends it to the history; a submitted "clear" empties the history |
| Console.HistoryKeys | src/console.rs:148-179 | ShiftRight appends "HELLO WORLD"; ControlRight removes the last line or does nothing on an empty history; other keys change nothing |
| Console.TypingAppends | src/console.rs:107-146 | a run of character keys appends their characters in order and leaves the history alone |
| Console.HistoryNeedsHistoryKey | src/console.rs:107-180 | keys other than Enter, ShiftRight and ControlRight never change the history |
| Console.ReplayConcat | src/console.rs:107-180 | keys are handled one after another: replaying a+b is replaying b after a |
| Console.ClearThenType | src/console.rs:164-173 | after submitting "clear", typing leaves an empty history and exactly the typed text |

## Left out

- PopulateRooms: does not promise that the end room is apart from the other rooms. The source places it without validation, and `SeedCellReopens` shows a frontier containing the seed cell.
- PopulateRooms: does not promise termination. The source loop has no bound, so the model stops with `DrawsExhausted` when the draws run out.
- PopulateRooms: room `dimensions` and `color` are floating-point presentation data. The model drops `dimensions`, keeps `color` as an opaque tag, and drops `rotation`, which is always `None`.
- PopulateRooms: `Room.position` is an `Option` in the source but always `Some` in `src/map.rs`, so the model uses a plain `Cell`.
- The `println!` calls of `src/map.rs:126-127` and `src/map.rs:409` are left out (console output only).
- `generate_map` (src/map.rs:65-69) returns `populate_rooms(n)` unchanged, so `PopulateRooms` stands for both.
- `thread_rng` and `shuffle` randomness are replaced by caller-supplied draws.
- DungeonGraph.Shuffle: the contract states that the nodes are permuted, not which permutation a given draw sequence yields.
- GenerateRooms: `usize` overflow of the weight sum is not modelled, since weights are unbounded naturals. The `HashMap`'s iteration order is the order of the given table.
- GenerateRooms: `num_rooms` is the number of supplied draws, one per room.
- FirstFit: the cube type of `src/dump.rs` is not in that file. It is taken to be the same 10×10×10 grid of optional rooms as in `src/map.rs`.
- The stub definitions and `main` of `src/dump.rs:1-22` are not modelled, nor its Bevy UI setup at lines 117-154.
- PlaceRoom: requires each dimension to be at most 10, because `cube.len() - dim_x + 1` underflows otherwise.
- UseConsole: the keys of a frame are taken in the given order. Bevy's `get_just_pressed` set has no defined order.
- UseConsole: the `println!` calls are left out (console output only), as are `print_room`, `print_matrix` and `print_graph`.
- UpdateTerminal: the mesh loop (src/console.rs:88-90) and `get_text_mesh` are left out.
  - The mesh loop calls `get_text_mesh`, a foreign call into the font library.
  - The model returns the line list that loop consumes.
- Bevy ECS plumbing, spawning, camera, the physics and networking code of the other files are left out. They hold no algorithmic content.
