# Battlesheep engine core in Dafny

A model of the board engine of the Battlesheep game (`battlesheep/engine`).

**The grid.** `HexagonalGrid` is a `size` x `size` storage array. Each cell holds an occupant code and a unit count. The code is 0 for empty, -1 for a hole, and N > 0 for player N.

- Cells are addressed in two ways:
  - offset coordinates (row, column) index the storage;
  - cube coordinates (q, r, s) are used for direction arithmetic.
- The six directions UL, UR, L, R, DL and DR are cube unit vectors.
- A stack slides in a straight line over empty cells until the next cell is off the board or not empty.
- A player may move some of a stack's units onto the cell where such a slide ends.

**The board.** `Board` enumerates the actions a player can take and has its own `move_player`.

**Tiling.** `tiling.py` builds tiles as lists of hexagons in cube coordinates:

- joining places one tile next to another and refuses overlaps;
- a tile projects onto a square 0/-1 array.

Module layout:

| file | module | contents |
|---|---|---|
| `results.dfy` | `Results` | `Result` and `Option`, the error paths of the model |
| `coords.dfy` | `Coords` | directions, cube and offset coordinates, the centred conversions, one-step geometry |
| `grid.dfy` | `HexGrid` | the storage (`Grid`, `Cell`), queries, the slide, moveable positions, `initialize_player`, `move_player` |
| `grid_facts.dfy` | `GridFacts` | the slide as the longest open run, sums over the storage (scores, units), construction, effects of initialise and move |
| `board.dfy` | `Board` | actions, the board's `get_score` and `move_player` (as written and corrected) |
| `tiling.dfy` | `Tiling` | hexagon lists, `_join_two_tiles`, `_try_join_tiles`, `join`, `SingleHexagon`, `BasicTile`, `to_square_grid` |
| `grid_examples.dfy`, `board_examples.dfy`, `tiling_examples.dfy` | `GridExamples`, `BoardExamples`, `TilingExamples` | the scenarios of `test_grid.py`, `test_board.py` and `test_tiling.py` as lemmas |

Conventions of the model:

- A Python assertion in an operation that changes the board or builds a tile is modelled as an error result, `Err(PreconditionViolated)` or a `TileError`. Those assertions are:
  - `initialize_player` (grid.py:175-176): the cell must be empty and the player id positive;
  - `move_player` (grid.py:185-189, board.py:43-47): the player id must be positive, the player must own the stack, the unit count must be in range and the slide must move;
  - `_join_two_tiles` and `join` (tiling.py): the tiles must not overlap, and `join` raises 'Tiles do not match.' exactly when `_join_two_tiles` raises 'Tiles overlap.' (tiling.py:67-70), so both are the overlap test.
- `to_square_grid` of a tile without hexagons, where numpy's minimum of an empty array raises, is the error `EmptyTile`.
- Assertions and indexing that guard the caller's input are preconditions. Those are:
  - the zero-sum check on cube coordinates (grid.py:54, tiling.py:15);
  - a hexagon or offset on the board wherever the source indexes the array with it directly:
    - the queries `__getitem__`, `is_empty`, `is_hole`, `is_occupied`, `is_occupied_by_player`, `player_at` and `units_at` (grid.py:81-116);
    - `initialize_player`'s target (grid.py:175-179);
    - `move_player`'s source (grid.py:184-192, board.py:44-49);
    - the constructor's holes (grid.py:36-37, board.py:23-24);
  - the occupied-cell assertions of `player_at` and `units_at` (grid.py:109, grid.py:115);
  - `player_id >= 1` in `get_player_moveable_positions` (grid.py:147) and `get_actions` (board.py:56, board.py:66), which are queries rather than moves.
- A `HexCoord` is a `Cube` whose components sum to zero (`Cube.ZeroSum`, `Tiling.Hexes`).
- Grid operations are pure functions that return the new grid.

## Model

| member | source | states |
|---|---|---|
| `Coords.IndexOf` | battlesheep/engine/grid.py:11-16 | every direction has a position below 6 in the direction table, and the table at that position gives the direction back |
| `Coords.IndexOfDirectionAt` | battlesheep/engine/grid.py:11-16 | reading the table at a position and looking the direction up again gives the same position |
| `Coords.DirectionTableDistinct` | battlesheep/engine/grid.py:11-16 | the six table entries are pairwise different directions |
| `Coords.Delta` | battlesheep/engine/grid.py:11-16 | each direction vector's s component is minus the sum of its q and r components |
| `Coords.DeltaIsUnit` | battlesheep/engine/grid.py:11-16 | every direction vector is a zero-sum vector whose absolute components sum to 2, so it reaches a neighbouring hexagon |
| `Coords.Cube.Plus` | battlesheep/engine/tiling.py:20-21 | the sum of two hexagons is again a hexagon, so the assertion in the `HexCoord` constructor holds |
| `Coords.Cube.Minus` | battlesheep/engine/tiling.py:23-24 | the difference of two hexagons is again a hexagon |
| `Coords.PlusMinusCancel` | battlesheep/engine/tiling.py:20-24 | adding and then subtracting the same vector, in either order, gives back the original coordinate |
| `Coords.LowBit` | battlesheep/engine/grid.py:56 | `r & 1` is 0 or 1 and has the parity of r, negative r included |
| `Coords.HalfDown` | battlesheep/engine/grid.py:56 | the floor division by two: 2h <= r <= 2h + 1 |
| `Coords.HalfDownMatchesSource` | battlesheep/engine/grid.py:56 | the floor half equals the source's `(r - (r & 1)) // 2` |
| `Coords.CubeToOffset` | battlesheep/engine/grid.py:52-57 | the offset row of a hexagon is its r component |
| `Coords.OffsetToCube` | battlesheep/engine/grid.py:59-65 | every offset converts to a zero-sum cube whose r component is the row |
| `Coords.ToCube` | battlesheep/engine/grid.py:67-72 | the centred conversion of any offset yields a hexagon |
| `Coords.ToOffset` | battlesheep/engine/grid.py:74-79 | the centred offset's row is the hexagon's r component moved by half the size; with `Coords.CentredCubeRoundTrip`, it is the offset whose hexagon c is |
| `Coords.OffsetOfCube` | battlesheep/engine/grid.py:67-79 | an offset converts to the hexagon c exactly when it is `to_offset(c)`, so each hexagon addresses one storage cell |
| `Coords.OffsetRoundTrip` | battlesheep/engine/grid.py:52-65 | `cube_to_offset(offset_to_cube(o)) == o` for every offset |
| `Coords.CubeRoundTrip` | battlesheep/engine/grid.py:52-65 | `offset_to_cube(cube_to_offset(c)) == c` for every hexagon |
| `Coords.CentredOffsetRoundTrip` | battlesheep/engine/grid.py:67-79 | `to_offset(to_cube(x, y)) == (x, y)` for every offset, on or off the board |
| `Coords.CentredCubeRoundTrip` | battlesheep/engine/grid.py:67-79 | `to_cube(to_offset(c)) == c` for every hexagon |
| `Coords.ToCubeInjective` | battlesheep/engine/grid.py:67-72 | two offsets have the same hexagon exactly when they are equal |
| `Coords.CentredCubesOnBoard` | battlesheep/engine/test_grid.py:24-32 | a hexagon whose three components lie in [-size/2, size/2) lands on the board |
| `Coords.StepNearsEdge` | battlesheep/engine/grid.py:131-136 | a step that stays on the board brings the edge one step closer, so the slide loop terminates |
| `Coords.StepOffset` | battlesheep/engine/grid.py:130-136 | a step changes the row by the direction's r component; a step along a row changes the column by its q component |
| `Coords.OffsetStepAgrees` | battlesheep/engine/grid.py:52-79 | a cube step, converted to offsets, is the neighbour step of the storage layout, whose odd rows are shifted half a cell |
| `HexGrid.Walk` | battlesheep/engine/grid.py:134-136 | walking from a hexagon stays on hexagons |
| `HexGrid.WalkProgress` | battlesheep/engine/grid.py:131-136 | each step raises the direction's heading component by one, so a walk of k > 0 steps never returns to its start |
| `HexGrid.WalkSnoc` | battlesheep/engine/grid.py:134-136 | a walk of k + 1 steps is the walk of k steps plus one direction vector |
| `HexGrid.Grid.With` | battlesheep/engine/grid.py:178-179 | writing a cell changes that cell to the new value and no other |
| `HexGrid.Grid.OutOfBounds` | battlesheep/engine/grid.py:85-88 | a hexagon off the board is never one a stack may slide onto |
| `HexGrid.Grid.CellAt` | battlesheep/engine/grid.py:81-83 | the cell read for an on-board hexagon is well formed when the storage is consistent |
| `HexGrid.Grid.IsEmpty` | battlesheep/engine/grid.py:90-92 | an on-board hexagon is empty exactly when a stack may slide onto it |
| `HexGrid.Grid.IsHole` | battlesheep/engine/grid.py:94-96 | a hole is not empty and stops every slide |
| `HexGrid.Grid.IsOccupied` | battlesheep/engine/grid.py:98-100 | an occupied hexagon is neither empty nor a hole; on consistent storage each on-board hexagon is exactly one of the three |
| `HexGrid.Grid.IsOccupiedByPlayer` | battlesheep/engine/grid.py:102-104 | a hexagon held by a player id is occupied, and asking with the empty code is `is_empty` |
| `HexGrid.Grid.PlayerAt` | battlesheep/engine/grid.py:106-110 | on an occupied cell, the returned player id is at least 1 and occupies the cell |
| `HexGrid.Grid.OpenIsInBoundsAndEmpty` | battlesheep/engine/grid.py:131-132 | a hexagon a stack may enter is exactly one that is not out of bounds and is empty |
| `HexGrid.Grid.Slide` | battlesheep/engine/grid.py:124-137 | the slide ends on a hexagon |
| `HexGrid.Grid.SlideSteps` | battlesheep/engine/grid.py:131-137 | the slide is a walk of k steps, the k hexagons it crosses are open, and the hexagon after them is not |
| `HexGrid.Score` | battlesheep/engine/grid.py:47-49 | a score counts cells, so it lies between 0 and size x size |
| `HexGrid.RowCountBound` | battlesheep/engine/grid.py:47-49 | a row holds between 0 and its length cells of a player |
| `HexGrid.RowsCountBound` | battlesheep/engine/grid.py:47-49 | an n-column array holds between 0 and rows x n cells of a player |
| `HexGrid.OnBoardIffCell` | battlesheep/engine/grid.py:85-88 | `_out_of_bounds` is false exactly when the hexagon is that of some storage cell, and that cell is the only one |
| `HexGrid.CellAddressing` | battlesheep/engine/grid.py:81-116 | reading through a cell's hexagon, `__getitem__` gives the stored cell, and on an occupied cell `player_at` and `units_at` give the stored occupant and units |
| `HexGrid.EmptyGrid` | battlesheep/engine/grid.py:34 | a zero array of the given size: every cell is empty with no units |
| `HexGrid.New` | battlesheep/engine/grid.py:32-37 | the listed holes hold code -1, every other cell is empty, and the storage is consistent |
| `HexGrid.SlideSpec` | battlesheep/engine/grid.py:124-137 | the slide ends at the start or on an open hexagon; the hexagon beyond the end is not open; it leaves the start exactly when the first neighbour is open; it never moves backwards |
| `HexGrid.HasMoveIffOpenNeighbour` | battlesheep/engine/grid.py:154-170 | some direction's slide leaves the cell exactly when some neighbour is open, which is why the neighbour check comes first |
| `HexGrid.AvailableMoves` | battlesheep/engine/grid.py:154-170 | the two-loop scan answers true exactly when some direction's slide leaves the cell |
| `HexGrid.OpenNeighbourGivesMove` | battlesheep/engine/grid.py:157-162 | an open neighbour is enough for the first loop to answer true |
| `HexGrid.NoOpenNeighbourNoMove` | battlesheep/engine/grid.py:164-170 | with no open neighbour, no slide leaves the cell and the second loop finds nothing |
| `HexGrid.IsMoveable` | battlesheep/engine/grid.py:148-152 | a cell is kept exactly when the player owns it, it holds more than one unit, and it has a move |
| `HexGrid.ScanRow` | battlesheep/engine/grid.py:144-152 | one row scan adds exactly that row's moveable cells of the player, each once |
| `HexGrid.MoveablePositions` | battlesheep/engine/grid.py:144-152 | the list holds exactly the player's moveable cells, each once |
| `HexGrid.InitializePlayer` | battlesheep/engine/grid.py:172-179 | succeeds exactly when the cell is empty and the id is at least 1; the cell then holds the player and the units, and no other cell changes |
| `HexGrid.NextEmptyCell` | battlesheep/engine/grid.py:124-137 | the slide in offset terms ends on its start or on an in-bounds empty cell |
| `HexGrid.NextEmptyCellLeaves` | battlesheep/engine/grid.py:131-133 | the slide leaves its start exactly when the neighbour in that direction is open |
| `HexGrid.MovePlayer` | battlesheep/engine/grid.py:181-194 | succeeds exactly when the id is at least 1, the player owns the source, 1 < n < its units, and the slide leaves the source |
| `HexGrid.MoveEffect` | battlesheep/engine/grid.py:188-194 | after a move, the destination is a formerly empty cell other than the source; the source keeps units - n and the destination holds n for the player; no other cell changes |
| `HexGrid.MovePlayerSplit` | battlesheep/engine/grid.py:181-194 | corrected unit rule: succeeds exactly when the id is positive, the player owns the source, 0 < n < its units and the slide leaves; writes like `move_player`; equals it for every n other than 1 |
| `GridFacts.WalkLine` | battlesheep/engine/grid.py:134-136 | k steps move by k times the direction vector |
| `GridFacts.OpenRunStep` | battlesheep/engine/grid.py:131-136 | every hexagon of an open run is open |
| `GridFacts.StepsFormOpenRun` | battlesheep/engine/grid.py:131-136 | k open steps form an open run |
| `GridFacts.OpenRunAll` | battlesheep/engine/grid.py:131-136 | an open run of k is exactly k open steps |
| `GridFacts.MaximalRunUnique` | battlesheep/engine/grid.py:131-137 | two maximal open runs from the same start in the same direction have equal length |
| `GridFacts.SlideIsLongestOpenRun` | battlesheep/engine/grid.py:124-137 | the slide ends after k steps if and only if steps 1..k are open and step k + 1 is not |
| `GridFacts.RowWalkOffset` | battlesheep/engine/grid.py:52-79 | a walk along a row stays in the row and moves one column per step |
| `GridFacts.RowOpen` | battlesheep/engine/grid.py:131-132 | a hexagon along a row is open exactly when its cell is on the board and empty |
| `GridFacts.RowSlide` | battlesheep/engine/grid.py:124-137 | along a row, the slide crosses the k empty cells that follow the start and stops before the first blocked cell |
| `GridFacts.RowTotalUpdate` | battlesheep/engine/grid.py:47-49 | replacing one entry changes a row sum by the difference of the two weights |
| `GridFacts.RowsTotalUpdate` | battlesheep/engine/grid.py:47-49 | replacing one row changes the array sum by the difference of the two row sums |
| `GridFacts.WithTotal` | battlesheep/engine/grid.py:47-49 | writing one cell changes a score or unit sum by the difference of the old and new cell's weights |
| `GridFacts.RowTotalZero` | battlesheep/engine/grid.py:47-49 | a row of weightless cells sums to zero |
| `GridFacts.RowsTotalZero` | battlesheep/engine/grid.py:47-49 | an array of weightless cells sums to zero |
| `GridFacts.GridTotalZero` | battlesheep/engine/grid.py:47-49 | a grid of weightless cells sums to zero |
| `GridFacts.NewTotals` | battlesheep/engine/grid.py:32-37 | a new board scores 0 for every player, holds no units, and its storage sums to minus the number of distinct holes |
| `GridFacts.NewStateSum` | battlesheep/engine/grid.py:35-37 | each distinct hole lowers the storage sum by one |
| `GridFacts.NewStateSumStep` | battlesheep/engine/grid.py:36-37 | writing one more hole lowers the storage sum by one, unless that cell is already a hole |
| `GridFacts.HoleSetStep` | battlesheep/engine/grid.py:36-37 | one more listed hole adds one distinct hole, unless it is already listed |
| `GridFacts.InitializeEffect` | battlesheep/engine/grid.py:172-179 | a placement raises that player's score by one and leaves every other score alone; on a consistent grid it keeps consistency and adds n units |
| `GridFacts.InitializeAt` | battlesheep/engine/grid.py:172-179 | addressed through an offset on the board, initialisation succeeds exactly when the cell is empty and the id is positive, and it writes exactly that cell |
| `GridFacts.MoveResult` | battlesheep/engine/grid.py:191-194 | a successful move writes units - n at the source and then (player, n) at the slide's end |
| `GridFacts.MoveValue` | battlesheep/engine/grid.py:184-194 | a successful move starts from the mover's own cell, takes n units off it, and gives the slide's end to the mover with n units |
| `GridFacts.MoveKeeps` | battlesheep/engine/grid.py:181-194 | a move keeps the storage consistent, conserves units, keeps holes as they are, raises the mover's score by one, and leaves other scores alone |
| `GridExamples.InitExample` | battlesheep/engine/test_grid.py:8-22 | on every board of size at least 3, as on the test's 8 x 8 one, an empty board sums to 0 and scores 0; with holes at (0,0), (1,1) and (2,2) it sums to -3 and scores 0 |
| `GridExamples.ThreeHoles` | battlesheep/engine/test_grid.py:16-22 | on every board of size at least 3, the three distinct holes make the new board sum to -3, and player 1 scores 0 |
| `GridExamples.HolesExample` | battlesheep/engine/test_grid.py:48-53 | the three holes read back as holes through `to_cube` |
| `GridExamples.TwoStacks` | battlesheep/engine/test_grid.py:48-58 | the board of the grid-values test with both stacks placed is a valid board of the given size |
| `GridExamples.TwoStacksPlaced` | battlesheep/engine/test_grid.py:55-58 | both `initialize_player` calls of the test succeed and produce that board |
| `GridExamples.GridValuesExample` | battlesheep/engine/test_grid.py:59-70 | both stacks are occupied, neither empty nor a hole, each by its own player only, with 16 units each |
| `GridExamples.TwoStacksScores` | battlesheep/engine/test_grid.py:71-72 | each player scores 1 |
| `GridExamples.SlideExample1` | battlesheep/engine/test_grid.py:75-87 | from (0, 0) on an empty board, the slide right ends at the last column on an empty cell, and the slide left stays put on (0, 0), which is empty |
| `GridExamples.SlideExample2` | battlesheep/engine/test_grid.py:89-95 | with a hole at (0, 4), the slide right from (0, 0) ends at (0, 3) |
| `GridExamples.MovementExample` | battlesheep/engine/test_grid.py:97-109 | 16 units at (0, 0), 6 moved right: 10 stay and 6 arrive for player 1 at the formerly empty end of the row |
| `Board.IsActionIffOpenNeighbour` | battlesheep/engine/board.py:53-61 | an action exists exactly when the origin is the player's stack of two or more units and the neighbour in that direction is on the board and empty |
| `Board.ActionsFrom` | battlesheep/engine/board.py:58-61 | the inner loop adds exactly the directions whose slide leaves the cell, each once |
| `Board.GetActions` | battlesheep/engine/board.py:53-67 | the list holds exactly the player's actions, each once |
| `Board.GetScoreAsWritten` | battlesheep/engine/board.py:37-39 | as written, for a positive id the score is the number of rows, whatever the cells hold |
| `Board.GetScore` | battlesheep/engine/board.py:37-39 | corrected: for a positive id, the count of the player's cells, between 0 and size x size; an error otherwise |
| `Board.GetScoreAsWrittenCountsRows` | battlesheep/engine/board.py:39 | on an empty board the written score is the size, while the corrected one is 0 |
| `Board.GetScoreCountsPlacements` | battlesheep/engine/board.py:37-39 | the corrected score grows by exactly one when the player takes an empty cell |
| `Board.MovePlayerAsWritten` | battlesheep/engine/board.py:41-51 | as written, a successful move always changes the row |
| `Board.MovePlayer` | battlesheep/engine/board.py:41-51 | corrected: succeeds exactly when the grid's move rules hold; on success the destination is a different, on-board cell; the source keeps units - n and the destination holds n; nothing else changes |
| `Board.MovePlayerAgreesWithGrid` | battlesheep/engine/board.py:41-51 | the corrected board move and the grid's `move_player` give the same result on every input |
| `Board.RowSlideKeepsRow` | battlesheep/engine/board.py:46-47 | a slide along a row (L or R) never changes the row |
| `Board.OtherSlideChangesRow` | battlesheep/engine/board.py:46-47 | a slide in any other direction changes the row exactly when it moves |
| `Board.AsWrittenRejectsRowMoves` | battlesheep/engine/board.py:47 | as written, every move along a row is rejected |
| `Board.AsWrittenAgreesOffRow` | battlesheep/engine/board.py:47 | in the four other directions, the written check and the corrected one agree |
| `Board.PairStackCannotMove` | battlesheep/engine/board.py:45 | as written, an action of a stack of two units, though listed, is refused by both `move_player`s for every unit count |
| `Board.EveryActionCanBeTaken` | battlesheep/engine/grid.py:187 | with the corrected unit rule, a listed action succeeds for exactly the counts 0 < n < units, so always for one unit |
| `BoardExamples.StartPlaced` | battlesheep/engine/test_board.py:24-31 | the test's holes plus the two 16-unit stacks give the starting layout, and both cells were empty before their stacks were placed |
| `BoardExamples.StartNeighbours1` | battlesheep/engine/test_board.py:32-35 | at the start, player 1's stack has open neighbours only to the right and down-right |
| `BoardExamples.StartNeighbours2` | battlesheep/engine/test_board.py:36-39 | at the start, player 2's stack has open neighbours only up-left and left |
| `BoardExamples.StartActions1` | battlesheep/engine/test_board.py:32-35 | player 1's actions are exactly ((0,0), R) and ((0,0), DR) |
| `BoardExamples.StartActions2` | battlesheep/engine/test_board.py:36-39 | player 2's actions are exactly ((7,7), UL) and ((7,7), L) |
| `BoardExamples.FirstSlide` | battlesheep/engine/test_board.py:41 | from (0, 0) the slide right stops at (0, 6), before the hole at (0, 7) |
| `BoardExamples.FirstMove` | battlesheep/engine/test_board.py:41 | player 1's move of 2 units right succeeds and leaves 14 at (0, 0) and 2 at (0, 6) |
| `BoardExamples.SecondSlide` | battlesheep/engine/test_board.py:42 | from (7, 7) the slide left crosses the row to (7, 0) |
| `BoardExamples.SecondMove` | battlesheep/engine/test_board.py:42 | player 2's move of 2 units left succeeds and leaves 14 at (7, 7) and 2 at (7, 0) |
| `BoardExamples.MovedNeighbours1` | battlesheep/engine/test_board.py:43-49 | after both moves, player 1's stacks with an open neighbour give the five expected pairs |
| `BoardExamples.MovedNeighbours2` | battlesheep/engine/test_board.py:50-56 | after both moves, player 2's stacks with an open neighbour give the five expected pairs |
| `BoardExamples.MovedActionsOf1` | battlesheep/engine/test_board.py:43-49 | player 1's actions are exactly R and DR from (0,0), and L, DL and DR from (0,6) |
| `BoardExamples.MovedActionsOf2` | battlesheep/engine/test_board.py:50-56 | player 2's actions are exactly UL and L from (7,7), and R, UR and UL from (7,0) |
| `BoardExamples.AsWrittenRefusesFirstMove` | battlesheep/engine/board.py:47 | the test's first move succeeds with the corrected check and is refused by the written one |
| `BoardExamples.MovedPairStack` | battlesheep/engine/test_board.py:46 | the test's listed action ((0,6), L) comes from a stack of two, which `move_player` as written refuses for every count, while one unit moves under the corrected rule |
| `TilingExamples.SingleHexagonShape` | battlesheep/engine/tiling.py:89-95 | `SingleHexagon` is the origin alone, a hexagon |
| `TilingExamples.BasicTileShape` | battlesheep/engine/tiling.py:98-107 | `BasicTile` is the origin followed by its up-left, up-right and right neighbours, all hexagons |
| `Tiling.ElemsCount` | battlesheep/engine/tiling.py:46 | `len(set(l)) <= len(l)`, with equality exactly when no hexagon repeats |
| `Tiling.PlaceZeroSum` | battlesheep/engine/tiling.py:43-45 | a placed hexagon is a hexagon |
| `Tiling.PlaceMatchesSource` | battlesheep/engine/tiling.py:45 | the placement equals the source's `c1 + (c - c2) + dir_vector` |
| `Tiling.AnchorIsNeighbour` | battlesheep/engine/tiling.py:43-45 | the other tile's anchor c2 lands on the neighbour of c1 in the given direction |
| `Tiling.PlaceIsTranslation` | battlesheep/engine/tiling.py:44-45 | placement keeps the difference between any two hexagons, so the tile is translated and not distorted |
| `Tiling.PlaceInjective` | battlesheep/engine/tiling.py:44-45 | two hexagons land on the same place exactly when they are equal |
| `Tiling.Placed` | battlesheep/engine/tiling.py:44-45 | the placed list is as long as the other tile, and its i-th hexagon is the placement of the other tile's i-th |
| `Tiling.PlacedDistinct` | battlesheep/engine/tiling.py:44-46 | the placed list repeats a hexagon exactly when the other tile does |
| `Tiling.ConcatDistinct` | battlesheep/engine/tiling.py:42-47 | a concatenation repeats nothing exactly when neither part does and no hexagon of the second is in the first |
| `Tiling.JoinTwoTiles` | battlesheep/engine/tiling.py:39-49 | on success, the first tile unchanged followed by each of the other's hexagons placed; the only failure is 'Tiles overlap.' |
| `Tiling.JoinOverlapRule` | battlesheep/engine/tiling.py:39-49 | the join succeeds exactly when neither tile repeats a hexagon and no placed hexagon lands on the first tile; its result repeats nothing |
| `Tiling.TryJoinTiles` | battlesheep/engine/tiling.py:51-56 | None exactly when the join raises, and the joined list otherwise |
| `Tiling.Join` | battlesheep/engine/tiling.py:63-73 | succeeds exactly when the two-tile join does; keeps the tile's hexagons as a prefix; covers the union of its own hexagons and the placed ones; fails with 'Tiles do not match.' |
| `Tiling.JoinIsConcatenation` | battlesheep/engine/tiling.py:63-73 | a join succeeds exactly when the tile followed by the placed other tile repeats nothing, and it is then that list |
| `Tiling.JoinRefused` | battlesheep/engine/tiling.py:63-73 | a join in which some placed hexagon lands on the tile is refused with 'Tiles do not match.' |
| `Tiling.JoinKeepsHexes` | battlesheep/engine/tiling.py:39-73 | joining tiles of hexagons at hexagon anchors gives a tile of hexagons |
| `Tiling.Offsets` | battlesheep/engine/tiling.py:77-80 | one offset per hexagon, in order, each by `cube_to_offset` |
| `Tiling.MinOf` | battlesheep/engine/tiling.py:82 | `min` of a non-empty list is one of its entries and no entry is smaller |
| `Tiling.MaxOf` | battlesheep/engine/tiling.py:84 | `max` of a non-empty list is one of its entries and no entry is larger |
| `Tiling.Rows` | battlesheep/engine/tiling.py:78-81 | the i-th entry of the row list is the row of the i-th offset |
| `Tiling.Cols` | battlesheep/engine/tiling.py:78-81 | the i-th entry of the column list is the column of the i-th offset |
| `Tiling.ExtentOf` | battlesheep/engine/tiling.py:82-84 | the extent's bounds contain every offset, and each bound is some offset's row or column |
| `Tiling.Mask` | battlesheep/engine/tiling.py:84-85 | a rectangle of the extent's shape, with every entry 0 or -1, and 0 exactly at the listed offsets |
| `Tiling.ToSquareGrid` | battlesheep/engine/tiling.py:75-86 | fails exactly on a tile without hexagons; otherwise a 0/-1 rectangle whose shape is the tile's offset extent |
| `Tiling.MaskMarksOffsets` | battlesheep/engine/tiling.py:82-85 | within the extent, the mask marks each listed offset and only those |
| `Tiling.MaskMarksEach` | battlesheep/engine/tiling.py:82-85 | every listed offset, shifted by the minima, indexes a cell marked 0 |
| `Tiling.MaskAt` | battlesheep/engine/tiling.py:85 | a listed offset inside the extent is marked 0 at its shifted cell |
| `Tiling.MaskMarksOnly` | battlesheep/engine/tiling.py:84-85 | every cell marked 0 is a listed offset, shifted by the minima |
| `Tiling.SquareGridCoversTile` | battlesheep/engine/tiling.py:75-86 | every hexagon of a tile marks its shifted cell 0, and every cell marked 0 is the shifted offset of one of its hexagons |
| `TilingExamples.JoinsSingle` | battlesheep/engine/tiling.py:63-73 | joining a single hexagon that lands on a new hexagon appends that hexagon |
| `TilingExamples.JoinsFour` | battlesheep/engine/tiling.py:63-73 | joining a four-hexagon tile whose placed hexagons are all new appends them in order |
| `TilingExamples.RefusedAt` | battlesheep/engine/tiling.py:63-73 | a join whose i-th placed hexagon is the tile's k-th hexagon is refused |
| `TilingExamples.HexagonJoinExample` | battlesheep/engine/test_tiling.py:7-15 | two single hexagons joined to the right give [(0,0,0), (1,0,-1)] |
| `TilingExamples.HexagonsToTileExample` | battlesheep/engine/test_tiling.py:17-28 | joining single hexagons to the right, up-left and up-right covers the same hexagons as `BasicTile` |
| `TilingExamples.TileJoinExample` | battlesheep/engine/test_tiling.py:30-45 | two basic tiles joined up-right at (1,-1,0) and the origin cover the eight hexagons the test lists |
| `TilingExamples.OverlapExample` | battlesheep/engine/tiling.py:63-73 | a basic tile joined to the right of its own origin overlaps and is refused |
| `TilingExamples.ExtentIs` | battlesheep/engine/tiling.py:82-84 | an extent that bounds every offset and attains each of its bounds is the extent of the list |
| `TilingExamples.BasicTileSquareGrid` | battlesheep/engine/tiling.py:75-86 | the basic tile projects to [[0, 0, -1], [-1, 0, 0]] |
| `TilingExamples.EmptyTileSquareGrid` | battlesheep/engine/tiling.py:75-86 | a tile without hexagons has no projection |

## Left out

- Game orchestration, players, policies and the GUI are not modelled (`game_environment.py`, `player.py`, `src/graphics`). Neither is the older draft engine under `src/engine`. They are not part of the engine core.
- `generate_random_tiling` is not modelled. It draws random anchors and directions. Its deterministic part is `join`, which is modelled.
- Storage uses `np.int8`. Unit counts above 127 would wrap around or raise `OverflowError` in the source, depending on the NumPy version (grid.py:178-179, grid.py:192-194). The model uses unbounded integers, and every scenario stays far below the limit.
- `get_state` is not modelled. It hands out the live storage array, and the model exposes `Grid.cells` directly instead. The tests' `shape` and `dtype` checks have no counterpart; `Grid.Valid` states the shape.
- `to_square_grid` multiplies an `int8` array of ones by the float `-1.`, so the array it returns holds floats, -1.0 and 0.0, and is never cast back. The model returns the same values as integers.
- Negative offsets index numpy arrays from the end, and offsets past the end raise `IndexError`. The model requires a hexagon or offset on the board wherever the source indexes storage with a caller's value without a bounds check. The full list of such preconditions is in the conventions above.
- Three helpers would fail if called, and are not modelled. `HexagonalGrid.get_moveable_positions` (grid.py:142) reads `.T` on the tuple that `np.where` returns, which has no such attribute. `Board.get_size` and `Board.get_state` (board.py:31, board.py:35) call `get_size` and `get_state` on a numpy array, which has neither.
- HexGrid.MoveablePositions: models what `get_player_moveable_positions` evidently intends, not its literal text. At grid.py:148-151, `np.vstack(np.where(...)).T` yields (row, column) pairs, which the comprehension unpacks into three names `q, r, s`. So as written it raises `ValueError` once the player has a stack of more than one unit. Even unpacked correctly, it would hand storage indices to `_available_moves`, which expects cube coordinates. The model returns offsets and converts each one with `to_cube` before the move check (`HexGrid.IsMoveable`).
- board.py defines no `initialize_player`, `player_at`, `units_at`, `is_empty`, `next_empty_cell` or `get_player_moveable_positions`. It also uses `DIRECTIONS` at board.py:58 without importing it. The model gives the board the grid's versions of these, over the same storage, and the grid's direction table.
- The board's constructor (board.py:19-24) is line for line the grid's (grid.py:32-37), so `HexGrid.New` models both.
- An unknown direction string fails in two ways in the source. `get_next_moveable_cell` raises `ValueError` (grid.py:127-128). `_join_two_tiles` and `join` fail `assert rel_direction in DIRECTIONS` (tiling.py:41, tiling.py:66), an `AssertionError` that `_try_join_tiles` does not catch, since it catches only `ValueError` (tiling.py:55). The model's `Direction` type has only the six table entries, so neither path arises.
- The zero-sum assertion of `cube_to_offset` and of the `HexCoord` constructor is a precondition (`Cube.ZeroSum`), not an error result.
- `HexGrid.Grid.Slide` is written recursively, with the distance to the board's edge as its measure. The source's `while` loop is equivalent.
- `Tiling.Place` sums `c1 + dir_vector + (c - c2)`; the source sums `c1 + (c - c2) + dir_vector`. `Tiling.PlaceMatchesSource` proves the two equal.
- The scenario lemmas of `test_grid.py` hold for every board size large enough for the cells they name, not only for 8. The `test_board.py` lemmas describe any 8 x 8 board that shows the scenario's layout.

## Findings

| source | as written | input that shows it | evidently intended | confidence | as-written member | corrected member |
|---|---|---|---|---|---|---|
| battlesheep/engine/board.py:47 | the move check is `nx != x or ny != ny`; `ny != ny` is always false, so only a change of row counts as moving | the `test_board.py` move `move_player(1, 0, 0, 2, 'R')`: the slide ends at (0, 6) in the same row, so the assertion fails | `nx != x or ny != y`: the destination differs from the source | not executed | `Board.AsWrittenRejectsRowMoves` | `Board.MovePlayerAgreesWithGrid` |
| battlesheep/engine/board.py:39 | `len(self._grid[..., 0] == player_id)` is the length of a 2-D boolean array, which is its number of rows | a new 8 x 8 board with player 1: the score is 8 instead of 0 | `(self._grid[..., 0] == player_id).sum()`, as in grid.py:49 | not executed | `Board.GetScoreAsWrittenCountsRows` | `Board.GetScoreCountsPlacements` |
| battlesheep/engine/grid.py:187 | `assert n_units > 1 and n_units < self.units_at(q, r, s)`, repeated at board.py:45; a stack of two, which `get_player_moveable_positions` keeps (`> 1`, grid.py:150), admits no count | the `test_board.py` board after its two moves: `get_actions(1)` lists ((0, 6), 'L') (test_board.py:46), but (0, 6) holds 2 units, so no n has 1 < n < 2 | `n_units >= 1 and n_units < units`: at least one unit moves and one stays | not executed | `BoardExamples.MovedPairStack` | `Board.EveryActionCanBeTaken` |
