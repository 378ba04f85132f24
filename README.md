# Tile-matching rules engine: a verified model

This project models the rules engine of a tile-matching ("link the pairs")
puzzle in Dafny, and proves properties of that model. The engine is the set of
functions in `tm/src/utils/gameLogic.ts`:

- **Board generation** (`generateBoard`). The board is `rows x cols`. Its
  real tiles number `rows * cols`, or one fewer when that is odd. Values come in equal pairs drawn from
  `1..D`, where the budget `D` lies in `[ceil(pairs / 2), floor(3 * pairs / 4) + 1]`.
  A caller-supplied override of exactly the right length replaces the drawn values.
  The values are then shuffled with Fisher-Yates and laid out row-major. Any
  left-over cell gets a placeholder.
- **Connectivity test** (`isCellFree`, `findPath`). This is a breadth-first
  search over the board padded with a free outer ring. A state is a cell, the
  direction of travel of the last step into it (`-1` at the start) and the turns so far. At most two changes of
  direction are allowed. A `visited[row][col][dir]` table keeps the fewest
  turns seen per state.
- **Reshuffle after a match** (`rearrangeBoard`), in one of seven modes:
  - `normal`, or an unknown mode, returns the board unchanged.
  - `left` and `right` pack each row's visible tiles against one edge.
  - `up` and `down` pack each column's visible tiles.
  - `inside` and `outside` take the visible tiles in row-major order and deal
    them along a coordinate order. That order is sorted by distance from the
    centre (`generateSpiralFromCenter`) or runs as a clockwise spiral from the
    outer ring inward (`generateSpiralFromOutside`).

## Modules

| file | module | models |
|---|---|---|
| `grid.dfy` | `Grid` | tiles, points, boards as `seq<seq<Tile>>`, visible-tile scans |
| `generation.dfy` | `BoardGeneration` | `generateBoard`; `Math.random` becomes a `Draws` value |
| `pathfinding.dfy` | `PathFinding` | `isCellFree`, `findPath` (the queue is a `seq`, `visited` an `array3`) |
| `spirals.dfy` | `Spirals` | the two coordinate orders |
| `readings.dfy` | `Readings` | reading a board along an order of cells; every complete order reads the same multiset of tiles |
| `reflow.dfy` | `Reflow` | `rearrangeBoard` and its per-mode loops |

Some source functions work by loops and in-place updates. Each becomes a
`method` with loop invariants (`FindPath`, `Shuffle`, `LayOut`, `ShiftRows`,
`ShiftColumns`, `Spread`, `SpiralFromOutside`, …). Each such method is proved
against a specification function: `Shuffled`, `CellFor`, `PackRows`,
`PackColumns`, `SpreadAlong`, `OutsideSpiral`, `IsRoute` and so on. Lemmas then prove the
promised properties of those functions.

A "route" (`PathFinding.IsRoute`) is a sequence of points that:

- starts at the first tile's cell, in augmented coordinates (each tile
  coordinate plus one);
- moves between 4-neighbours inside `[0, rows + 1] x [0, cols + 1]`;
- enters only free cells;
- ends at the second tile's cell;
- changes direction at most twice.

## Model

| member | source | states |
|---|---|---|
| BoardGeneration.TotalCells | tm/src/utils/gameLogic.ts:12-14 | The cell count used is even, and is `rows * cols` or one less. |
| BoardGeneration.BudgetRangeNonEmpty | tm/src/utils/gameLogic.ts:19-21 | The budget range `[ceil(pairs/2), floor(3*pairs/4)+1]` is never empty, and its lower end is at least 1 once there is a pair. |
| BoardGeneration.PairsShape | tm/src/utils/gameLogic.ts:22-25 | The drawn sequence has two entries per pair: entries `2k` and `2k+1` are both the k-th roll plus one. |
| BoardGeneration.PairsInRange | tm/src/utils/gameLogic.ts:22-25 | Every drawn value lies in `[1, D]` when every roll is below `D`. |
| BoardGeneration.PairsCount | tm/src/utils/gameLogic.ts:22-25 | Each value occurs in the pairs exactly twice as often as it was drawn. |
| BoardGeneration.PairsEvenCounts | tm/src/utils/gameLogic.ts:22-25 | Every value occurs an even number of times among the drawn pairs. |
| BoardGeneration.DrawPairs | tm/src/utils/gameLogic.ts:22-25 | The push loop yields exactly the pair sequence of the rolls. |
| BoardGeneration.InitialValues | tm/src/utils/gameLogic.ts:14-26 | An override is used only when its length equals the cell count; otherwise the values are the drawn pairs, each in `[1, D]` and occurring an even number of times. |
| BoardGeneration.FisherYatesPermutes | tm/src/utils/gameLogic.ts:28-31 | The Fisher-Yates swaps keep the length and the multiset of values. |
| BoardGeneration.Shuffle | tm/src/utils/gameLogic.ts:28-31 | The in-place loop on the array performs exactly the Fisher-Yates swaps, so the result is a permutation of the input. |
| BoardGeneration.ShuffleCopy | tm/src/utils/gameLogic.ts:28-31 | Shuffling a copy yields the Fisher-Yates result, a permutation of the values. |
| BoardGeneration.LaidOutShape | tm/src/utils/gameLogic.ts:32-58 | In a row-major layout, each tile records its own cell. A cell is visible iff its row-major index is below the value count; then its id is that index and its value the indexed value. Every other cell is a placeholder. |
| BoardGeneration.LayRow | tm/src/utils/gameLogic.ts:35-57 | One row gets `cols` tiles, each the cell the layout prescribes, and the index advances by the number of visible tiles written. |
| BoardGeneration.LayOut | tm/src/utils/gameLogic.ts:32-59 | The board is `rows x cols` with the prescribed cell at each position, and its visible values read row-major are the value sequence itself. |
| BoardGeneration.GenerateBoard | tm/src/utils/gameLogic.ts:11-60 | The generated board is `rows x cols`, each cell is the row-major layout of the shuffled values, and its visible values read back to that sequence. |
| BoardGeneration.ShuffledValues | tm/src/utils/gameLogic.ts:11-31 | The final values number `total` (even, at most one short of the cell count). They are a permutation of the override when that is used. Otherwise `D` is in its range, every value lies in `[1, D]` and every value occurs an even number of times. |
| PathFinding.IsCellFree | tm/src/utils/gameLogic.ts:79-93 | The outer ring, the start and the target are free. Every other cell is free exactly when its tile is hidden. |
| PathFinding.StepDir | tm/src/utils/gameLogic.ts:106-111 | Each of the four direction vectors leads to a 4-neighbour, and the direction of that step is recovered. |
| PathFinding.TurnsSnoc | tm/src/utils/gameLogic.ts:134-135 | Appending a point adds a turn exactly when the step changes direction; the first step adds none. |
| PathFinding.ExtendState | tm/src/utils/gameLogic.ts:131-148 | A move that passes all checks turns a consistent queue entry into a consistent one: a walk of free cells with the recorded direction and turn count. |
| PathFinding.ReachAlong | tm/src/utils/gameLogic.ts:126-150 | Once the search has closed over its states, every point of a walk within the budget is held by an enqueued state with the same last direction and no more turns. |
| PathFinding.NoRoute | tm/src/utils/gameLogic.ts:126-151 | A closed set of states, none of them on the target, means no route exists at all. |
| PathFinding.Begin | tm/src/utils/gameLogic.ts:113-124 | The set-up allocates a fresh `(rows+2) x (cols+2) x 4` array. The map of recorded counts is empty, so every entry is `Unseen` (the source's `Infinity`). The queue is exactly `[(start, -1, 0, [start])]`. The search invariant holds from there. |
| PathFinding.PotentialDrops | tm/src/utils/gameLogic.ts:140-141 | Lowering a `visited` entry lowers the bounded termination measure by at least one, so the search terminates. |
| PathFinding.Mark | tm/src/utils/gameLogic.ts:141 | Writing `visited[r][c][d] = t` keeps the array in step with the map of recorded counts, now holding `t` at `(r, c, d)`. |
| PathFinding.Relax | tm/src/utils/gameLogic.ts:131-149 | A move that is admissible and improves on the recorded count appends exactly the state `(q, d, t, path + [q])` to the queue and records `t` for `(q, d)`. Any other move (over the turn budget, off the augmented grid, into an occupied cell, no improvement) leaves queue and records unchanged. Either way the search invariant holds, and the measure drops by the number of states enqueued. |
| PathFinding.Expand | tm/src/utils/gameLogic.ts:131-149 | The four directions append to the queue exactly `Enqueued(cur, 4)`, the improving moves in direction order up, right, down, left, behind the entries already queued. The recorded counts become exactly `Recorded(cur, 4)`. The dequeued state then counts as expanded, the invariant holds, and the queue grows only as the measure drops. |
| PathFinding.EnqueuedSound | tm/src/utils/gameLogic.ts:131-148 | Every pushed entry is the successor of a move that passes every test: within the turn budget, inside the augmented grid, onto a free cell or the target, and better than the recorded count. |
| PathFinding.EnqueuedOrdered | tm/src/utils/gameLogic.ts:131 | The pushed entries come in strictly increasing direction order (up, right, down, left), so each move is pushed at most once. |
| PathFinding.EnqueuedComplete | tm/src/utils/gameLogic.ts:131-148 | Every move that passes every test is pushed. |
| PathFinding.RecordedKeys | tm/src/utils/gameLogic.ts:140-141 | After the loop the table holds exactly the old keys plus the keys of the improving moves. |
| PathFinding.RecordedCounts | tm/src/utils/gameLogic.ts:140-141 | The key of each improving move holds its new turn count, and every other key keeps its old count. |
| PathFinding.RecordedElsewhere | tm/src/utils/gameLogic.ts:131-141 | A move is tested against the same counts whether or not the earlier directions have already written theirs, because their keys differ in the direction. |
| PathFinding.EnqueuedStep | tm/src/utils/gameLogic.ts:131-148 | One pass of the inner loop extends the pushed entries and the recorded counts by exactly that direction's move, when it improves. |
| PathFinding.Reached | tm/src/utils/gameLogic.ts:127-130 | A dequeued state on the target carries a route with its true turn count; when start and target coincide it is the initial state. |
| PathFinding.Exhausted | tm/src/utils/gameLogic.ts:126-151 | A drained queue means no route exists, and start differs from target. |
| PathFinding.FindPath | tm/src/utils/gameLogic.ts:95-152 | A valid result is a route with its turn count. An invalid result is exactly `{false, [], -1}`, and then no route exists. Equal start and target give `{true, [start], 0}`. |
| Spirals.SqIsProduct | tm/src/utils/gameLogic.ts:289-290 | The integer square used for distances equals `x * x`. |
| Spirals.CentreKeyIsScaledDistance | tm/src/utils/gameLogic.ts:286-290 | The integer key is four times the squared Euclidean distance to the centre `((rows-1)/2, (cols-1)/2)`. |
| Spirals.CentreBeforeOrder | tm/src/utils/gameLogic.ts:288-293 | The comparator (distance, then row, then column) is irreflexive, total on distinct points and transitive. |
| Spirals.Insert | tm/src/utils/gameLogic.ts:288-293 | Inserting one point adds exactly that point to the multiset. |
| Spirals.InsertSorted | tm/src/utils/gameLogic.ts:288-293 | Inserting a new point into a sorted list keeps it sorted. |
| Spirals.SortByCentre | tm/src/utils/gameLogic.ts:288-293 | Sorting keeps the multiset of points. |
| Spirals.SortByCentreSorted | tm/src/utils/gameLogic.ts:288-293 | Sorting a list without repeats yields a list strictly ordered by the comparator. |
| Spirals.SortedEnumeration | tm/src/utils/gameLogic.ts:281-293 | Sorting a repeat-free list that holds every cell gives a list of every cell exactly once, strictly in centre order. |
| Spirals.SortedUnique | tm/src/utils/gameLogic.ts:288-293 | Two strictly sorted permutations of each other are equal, so any correct sort yields the same order. |
| Spirals.SortedDistinct | tm/src/utils/gameLogic.ts:288-293 | A strictly sorted list has no repeats. |
| Spirals.PushRowCells | tm/src/utils/gameLogic.ts:282-284 | One pass of the inner loop appends exactly the cells of row `r`, left to right (`RowCellList`), without repeats. |
| Spirals.SpiralFromCenter | tm/src/utils/gameLogic.ts:279-295 | The cells are collected in row-major order (`RowMajorCells`). The result lists every cell exactly once, sorted by distance from the centre, then row, then column. |
| Spirals.PushTopRow | tm/src/utils/gameLogic.ts:308-310 | The top-row loop appends exactly the cells `(top, left), (top, left+1), ..., (top, right)`, in that order. |
| Spirals.PushRightColumn | tm/src/utils/gameLogic.ts:312-314 | The right-column loop appends exactly `(top, right), ..., (bottom, right)`, top to bottom. |
| Spirals.PushBottomRow | tm/src/utils/gameLogic.ts:317-319 | The bottom-row loop appends exactly `(bottom, right), ..., (bottom, left)`, right to left. |
| Spirals.PushLeftColumn | tm/src/utils/gameLogic.ts:323-325 | The left-column loop appends exactly `(bottom, left), ..., (top, left)`, bottom to top. |
| Spirals.RowRunCells | tm/src/utils/gameLogic.ts:308-310 | A left-to-right run holds exactly the cells of its row between its ends, without repeats. |
| Spirals.ColumnRunCells | tm/src/utils/gameLogic.ts:312-314 | A top-to-bottom run holds exactly the cells of its column between its ends, without repeats. |
| Spirals.RowRunBackCells | tm/src/utils/gameLogic.ts:317-319 | A right-to-left run holds exactly the cells of its row between its ends, without repeats. |
| Spirals.ColumnRunBackCells | tm/src/utils/gameLogic.ts:323-325 | A bottom-to-top run holds exactly the cells of its column between its ends, without repeats. |
| Spirals.PushRun | tm/src/utils/gameLogic.ts:307-328 | Appending a repeat-free run of new cells of ring `k` after cells of rings at most `k` keeps the list repeat-free and moving inward. |
| Spirals.TopRowPeeled | tm/src/utils/gameLogic.ts:308-311 | After the top row, the listed cells are exactly those outside the rectangle shrunk from the top. |
| Spirals.RightColumnPeeled | tm/src/utils/gameLogic.ts:312-315 | After the right column, the listed cells are exactly those outside the rectangle shrunk from the right. |
| Spirals.BottomRowPeeled | tm/src/utils/gameLogic.ts:316-321 | After the bottom row, the listed cells are exactly those outside the rectangle shrunk from the bottom. |
| Spirals.LeftColumnPeeled | tm/src/utils/gameLogic.ts:322-327 | After the left column, the listed cells are exactly those outside the rectangle shrunk from the left. |
| Spirals.LapPeeled | tm/src/utils/gameLogic.ts:307-328 | One pass of the outer loop lists exactly the cells of the current outer ring, so the listed cells stay repeat-free and outside in, and are exactly those outside the shrunken rectangle. |
| Spirals.LapDone | tm/src/utils/gameLogic.ts:307-328 | One pass of the outer loop appends exactly one clockwise lap of the current rectangle, and the rest of the spiral is the spiral of the shrunken rectangle. |
| Spirals.PeeledAll | tm/src/utils/gameLogic.ts:307-329 | When the rectangle is empty, every cell has been listed once, from the outside in. |
| Spirals.SpiralRingsPeel | tm/src/utils/gameLogic.ts:307-329 | Appending the clockwise spiral of the remaining rectangle to the cells peeled so far lists every cell exactly once, from the outside in. |
| Spirals.OutsideSpiralOrder | tm/src/utils/gameLogic.ts:301-330 | The clockwise outside-in spiral lists every cell exactly once and never moves from an inner ring back to an outer one. |
| Spirals.SpiralFromOutside | tm/src/utils/gameLogic.ts:301-330 | The result is exactly the clockwise spiral: each ring walked from its top-left corner along the top row, down the right column, back along the bottom row and up the left column, ring after ring inward. So it lists every cell exactly once, outside in. |
| Grid.VisibleOf | tm/src/utils/gameLogic.ts:177 | `filter(t => t.isVisible)` keeps the visible tiles in order, so it is never longer than the row it filters. |
| Grid.VisibleOfIsVisible | tm/src/utils/gameLogic.ts:177 | Every tile the filter keeps comes from the row and is visible. |
| Grid.VisibleOfAllVisible | tm/src/utils/gameLogic.ts:189 | A row whose tiles are all visible is kept whole. |
| Grid.VisibleOfNoneVisible | tm/src/utils/gameLogic.ts:189 | A row without visible tiles filters to nothing. |
| Grid.VisibleOfAppend | tm/src/utils/gameLogic.ts:177 | Filtering a concatenation is concatenating the filtered parts, so the filter keeps the order of the tiles. |
| Readings.EnumerationsPermute | tm/src/utils/gameLogic.ts:238-239 | Two orders that each list every cell once are permutations of each other. |
| Readings.EnumerationLength | tm/src/utils/gameLogic.ts:239 | An order listing every cell once has `rows * cols` entries, so the deal loop visits every cell. |
| Readings.ReadingOrderIrrelevant | tm/src/utils/gameLogic.ts:201-213 | Visiting the same cells in another order reads the same multiset of visible (id, value) pairs. |
| Readings.RowMajorReading | tm/src/utils/gameLogic.ts:233-237 | Reading cells row by row gives exactly the row-major visible tiles, as `forEach` over rows then tiles collects them. |
| Readings.ColumnMajorReading | tm/src/utils/gameLogic.ts:201-205 | Reading column by column gives the visible tiles of each column in turn. |
| Readings.RowMajorIsEnumeration | tm/src/utils/gameLogic.ts:281-285 | Row-major order lists every cell exactly once. |
| Readings.ColumnMajorIsEnumeration | tm/src/utils/gameLogic.ts:201-203 | Column-major order lists every cell exactly once. |
| Readings.EnumerationReading | tm/src/utils/gameLogic.ts:231-265 | Any order listing every cell once reads the same multiset of visible tiles as the row-major scan. |
| Reflow.Blank | tm/src/utils/gameLogic.ts:161-169 | The starting board is `rows x cols`. |
| Reflow.LineReadBack | tm/src/utils/gameLogic.ts:176-198 | A line packed from tiles `v` shows exactly the packed block, whose ids and values are those of `v` in order. |
| Reflow.LinePacked | tm/src/utils/gameLogic.ts:176-198 | In a packed line the visible cells form one block at the packing edge. |
| Reflow.RowPacked | tm/src/utils/gameLogic.ts:175-199 | Each packed row shows its original visible tiles' ids and values in order, as one block at the chosen edge. |
| Reflow.PackRowsMeaning | tm/src/utils/gameLogic.ts:175-199 | `left`/`right` keep every tile on its own cell, and every cell without a visible tile is the placeholder `(-1, 0, hidden)` of that cell. Each row keeps its visible tiles' ids, values and order, packed against the edge. The row-major sequence of visible ids and values is unchanged. |
| Reflow.PackRowsIdempotent | tm/src/utils/gameLogic.ts:175-199 | Packing the rows of a packed board changes nothing. |
| Reflow.ColumnPacked | tm/src/utils/gameLogic.ts:200-229 | Each packed column shows its original visible tiles' ids and values top to bottom, as one block at the chosen edge. |
| Reflow.PackColumnsMeaning | tm/src/utils/gameLogic.ts:200-229 | `up`/`down` keep every tile on its own cell, and every cell without a visible tile is the placeholder of that cell. Each column keeps its visible tiles' ids, values and order, packed against the edge. The multiset of visible ids and values is unchanged. |
| Reflow.PackColumnsIdempotent | tm/src/utils/gameLogic.ts:200-229 | Packing the columns of a packed board changes nothing. |
| Reflow.SpreadMeaning | tm/src/utils/gameLogic.ts:231-265 | Dealing the row-major visible tiles along an order that lists every cell once keeps every tile on its own cell, leaves placeholders in the cells without a tile, reads those tiles back along the order, and keeps the multiset of visible ids and values. |
| Reflow.ShiftRows | tm/src/utils/gameLogic.ts:175-199 | The row loops of `left`/`right` compute exactly the row packing. |
| Reflow.ColumnVisible | tm/src/utils/gameLogic.ts:201-205 | The collection loop yields the visible tiles of column `j`, top to bottom. |
| Reflow.ShiftColumns | tm/src/utils/gameLogic.ts:200-229 | The column loops of `up`/`down` compute exactly the column packing. |
| Reflow.CollectVisible | tm/src/utils/gameLogic.ts:232-237 | The `forEach` scan yields the row-major visible tiles. |
| Reflow.Spread | tm/src/utils/gameLogic.ts:239-246 | The deal loop puts the k-th tile at the k-th cell of the order, and a placeholder once the tiles run out. |
| Reflow.RearrangeBoard | tm/src/utils/gameLogic.ts:158-271 | `normal` and unknown modes return the board itself. `left`/`right` give the row packing and `up`/`down` the column packing. `inside` deals the row-major visible tiles along a centre-sorted enumeration, and `outside` along exactly the clockwise outside-in spiral. Every mode keeps the board `rows x cols` and keeps the multiset of visible (id, value) pairs. |

## Left out

- Randomness: each `Math.random()` call becomes a number supplied in `Draws`,
  already scaled to the range of its call site. `DrawsInRange` states those
  ranges. Nothing is said about the distribution.
- Override aliasing: the source shuffles the caller's override array in
  place, so the caller's array changes too. The model shuffles a copy
  (`ShuffleCopy`), so the caller-side mutation is not captured.
- An override of the wrong length is silently ignored, and fresh values are
  drawn. The code does this; the model follows the code rather than failing fast.
- Spirals.SpiralFromCenter: `Math.sqrt` and floating-point comparison are
  replaced by the exact integer key `4 * distance²`. This preserves the order
  of distances, and so the comparator, but not the floating-point rounding.
- Spirals.SortByCentre: the built-in `Array.prototype.sort` is modelled as an
  insertion sort. `Spirals.SortedUnique` shows that any sort consistent with
  the comparator returns the same list, because the comparator is a strict
  total order on distinct cells.
- PathFinding.FindPath: no claim that the route found has the fewest turns
  or the fewest steps; the search does not promise either.
- PathFinding.FindPath, Reflow.RearrangeBoard: they require at least one row,
  because the source reads `board[0].length`.
- PathFinding.FindPath, PathFinding.IsCellFree, Reflow.RearrangeBoard: they also require a rectangular
  board (every row `board[0].length` long). Ragged boards are not modelled.
  The boards the game builds itself (`generateBoard`, `rearrangeBoard`) are
  always rectangular.
- The turn budget is the enforced `newTurns > 2` check (at most two changes
  of direction). The comment at line 63 says three; the model follows the code.
- Reflow.RearrangeBoard: for `up`/`down` the model proves that the multiset
  of visible tiles is kept, not the row-major sequence (column packing
  reorders it).
- In-place writes `newBoard[i][j] = …` are modelled as updates of a value of
  type `seq<seq<Tile>>`; no aliasing between rows is modelled.
- The `Tile` type (`tm/src/models/Tile.tsx`) is not part of this model beyond
  its five fields. The user interface, hooks, timers and scoring around these
  functions are not modelled.
