# mini2048 in Dafny

A model of the game logic of `mini2048.c`, a terminal version of 2048 on a
4x4 board. The board `m` holds 0 for an empty cell or a tile value. A move
runs `shift(dim, lr)`, and `shift` runs `pair_iterator` four times:

- the first two passes call `tile_swap`;
- the third pass calls `tile_sum`;
- the fourth pass calls `tile_swap` again.

Each callback acts on two neighbouring cells, `a` (nearer the edge the tiles
move towards) and `b`. Along the way the callbacks update the globals:

- `nmoves` counts the swaps and merges;
- `score` grows by every merged tile;
- `won` is set when a merge makes 2048.

Before each key the main loop does four things, in this order:

- it stops when the game is won;
- it spawns a 2 in a uniformly drawn empty cell (`add_tiles`) when the previous move changed something;
- it clears `nmoves`;
- it stops when `move_possible` finds neither an empty cell nor two equal neighbours.

The project has six modules.

- `Grid` (grid.dfy): the board as a value, `seq<seq<int>>`. It defines the row-major scan of the empty cells, neighbour pairs, the total of the board and the shape of a tile.
- `Lines` (lines.dfy): one line of the board, read from the edge the tiles move towards, and the callbacks on it. It also holds the reference meaning of a move (compact, merge each pair once from the leading edge, compact, pad) and the proof that the four passes compute it.
- `Traversal` (traversal.dfy):
  - the cells `pair_iterator` visits;
  - the whole game state as a value (`State`);
  - the passes and `shift` as functions on that value;
  - the proof that a pass acts on each line of the board separately, as `Lines` says.
- `Moves` (moves.dfy): what a shift means for the whole board.
  - Each line of the move becomes its reference line.
  - The score, `won` and `nmoves` change exactly as the merges and moves say.
  - The total and the tile shape are kept.
  - A shift on a lost board changes nothing.
  - `sum_possible` finds exactly the equal neighbours.
- `Draws` (draws.dfy): `uniform_random`, with `rand()` replaced by a sequence of draws, and the fact that its rejection loop gives every result the same number of accepted draws.
- `Mini2048` (mini2048.dfy): the imperative model. Class `Game` has the board as an `array2<int>` field `m` and the globals as fields. It has one method per modelled C function that reads or changes the board and the globals; `uniform_random` is a method of module `Draws`. Every method is proved against the value model. `Model()` reads the object as a `State`, through a ghost copy `board` of `m` that `Valid()` ties to the array.

Directions: `dim` picks the first subscript of `m`.

- `shift(0, 0)` moves tiles towards row 0 (Up, key `w`).
- `shift(1, 0)` moves them towards column 0 (Left, `a`).
- `shift(0, 1)` moves them towards row 3 (Down, `s`).
- `shift(1, 1)` moves them towards column 3 (Right, `d`).

The comment at `mini2048.c:99` calls `dim == 0` the x-direction. The code moves along columns for `dim == 0`. The model follows the code.

## Model

| member | source | states |
|---|---|---|
| Traversal.PairStep | mini2048.c:47-69 | one call of tile_swap, tile_sum or sum_possible_impl on cells a and b, with the writes in the source's order: it counts at most one move, only ever raises won and is_sum_possible, tile_swap and tile_sum leave is_sum_possible alone, and sum_possible_impl changes nothing else |
| Traversal.PairStepEffect | mini2048.c:47-69 | a callback on two distinct cells writes the lead and next values of its effect and adds its moves, gain, win and found flag to nmoves, score, won and is_sum_possible |
| Mini2048.Game.TileSwap | mini2048.c:47-55 | the new state is PairStep(Swap) of the old one: when a is empty and b is not, b's tile moves into a, b is cleared and nmoves grows by one; otherwise nothing changes |
| Mini2048.Game.TileSum | mini2048.c:57-69 | the new state is PairStep(Sum) of the old one: equal non-empty a and b merge into a, b is cleared, won is set if a is now 2048, nmoves grows by one and score grows by the new a |
| Mini2048.Game.SumPossibleImpl | mini2048.c:125-129 | the new state is PairStep(Probe): only is_sum_possible changes, and it is raised iff a is non-empty and equal to b |
| Mini2048.Game.Apply | mini2048.c:93 | calling fn through the function pointer is the callback named by op |
| Moves.PairStepConserves | mini2048.c:47-69 | a callback on two distinct cells keeps the total of the board, and a board of tiles (0 or a power of two from 2) stays one |
| Traversal.IteratorCells | mini2048.c:77-92 | the left and right pointers for i[dim] = k and i[odim] = t are the cells at positions k and k + 1 of line t |
| Traversal.PairCells | mini2048.c:77-92 | every visited pair lies on the board; right is the neighbour of left along axis dim, one step away from the target edge; left is k steps from that edge |
| Traversal.LineCellInjective | mini2048.c:84-92 | distinct (line, position) pairs of a pass are distinct cells |
| Traversal.LinesDetermineBoard | mini2048.c:84-92 | the four lines of a pass cover the board, so boards with the same lines are equal |
| Traversal.PassPrefix | mini2048.c:84-95 | the state after the iterations (i[dim], i[odim]) below (k, t) of the loop nest: at most 4k + t moves were counted, won and is_sum_possible were only raised, a tile_swap or tile_sum pass leaves is_sum_possible alone and a sum_possible_impl pass changes nothing else |
| Traversal.Pass | mini2048.c:74-96 | pair_iterator as a function of the state: its 12 callbacks count at most 12 moves, with the same facts about the flags as PassPrefix |
| Mini2048.Game.PairIterator | mini2048.c:74-96 | after the two loops the state is Pass(op) of the old state: the callback on positions 0-1, then 1-2, then 2-3 of every line |
| Traversal.PassLines | mini2048.c:74-96 | a pass acts on each line separately: each line becomes the line pass of its own cells, and nmoves, score, won and is_sum_possible grow by the sums over the lines |
| Traversal.ShiftLines | mini2048.c:101-110 | shift acts on each line separately: each line becomes ShiftLine of its old cells, and the counters grow by the sums over the lines |
| Lines.LineStep | mini2048.c:47-69 | one callback on positions k and k + 1 of a line: the two cells keep their sum, every other cell is unchanged, at most one move is counted, and only sum_possible_impl sets found |
| Lines.LinePass | mini2048.c:84-95 | the three callbacks of one pass on the cells of one line count at most three moves, and only a sum_possible_impl pass finds anything |
| Lines.ShiftLine | mini2048.c:101-110 | shift on one line: the passes swap, swap, sum, swap of mini2048.c:106-109 in that order; together they count at most 12 moves and never raise the probe flag |
| Lines.ShiftLineIsReference | mini2048.c:101-110 | on one line the four passes give the reference move (drop empty cells, merge equal neighbours once from the leading edge, drop empty cells, pad); the score gain is the sum of the merged tiles and the win flag says whether one of them is 2048 |
| Lines.FourEqual | mini2048.c:101-110 | four equal tiles v v v v become 2v 2v 0 0, and the score grows by 4v |
| Lines.MergedOnce | mini2048.c:101-110 | 0 2v v v becomes 2v 2v 0 0: a merged tile does not merge again in the same move |
| Lines.ShiftLineMoves | mini2048.c:47-69 | on one line the move counter is zero iff the line is unchanged, and a changed line has an empty cell |
| Lines.StuckLine | mini2048.c:101-110 | a full line without equal neighbours is left unchanged, with no moves, gain or win |
| Moves.ShiftIsReference | mini2048.c:101-110 | after shift every line in the move direction equals its reference line; score grows by exactly the merged values; won is set iff it was set or a merge made 2048 |
| Moves.ShiftCounter | mini2048.c:47-69 | shift never lowers nmoves; nmoves is unchanged iff the board is unchanged; if nmoves grew the board has an empty cell, so the next add_tiles has a positive bound |
| Moves.ShiftConserves | mini2048.c:101-110 | shift keeps the total of the board, and a board of tiles stays a board of tiles |
| Traversal.ShiftState | mini2048.c:101-110 | shift as a function of the state: nmoves grows by at most 48, won is only raised and is_sum_possible is untouched |
| Mini2048.Game.Shift | mini2048.c:101-110 | the new state is ShiftState of the old one, with the consequences of ShiftIsReference, ShiftConserves and ShiftCounter stated on the object |
| Mini2048.Game.Move | mini2048.c:224-238 | a move in a direction is shift with the (dim, lr) pair main passes for that key |
| Grid.EmptyBefore | mini2048.c:116-119 | the empty cells the row-major scan has met before position p: positions below p, each of an empty cell, in increasing order |
| Grid.EmptyCells | mini2048.c:164-166 | all empty cells in the order the nested loops meet them: positions on the board, each of an empty cell, increasing |
| Grid.EmptyCellsExact | mini2048.c:116-118 | a position is listed iff it is on the board and its cell is empty |
| Grid.EmptyCount | mini2048.c:113-121 | the number of empty cells lies in [0, 16] |
| Mini2048.Game.NEmptyTiles | mini2048.c:113-121 | n_empty_tiles returns EmptyCount of the board, the number of empty cells |
| Grid.EmptyCellCounted | mini2048.c:113-121 | a board with an empty cell has a positive empty count |
| Grid.FullBoard | mini2048.c:113-121 | a board with empty count 0 holds a tile in every cell |
| Lines.ProbePass | mini2048.c:125-129 | a pass of sum_possible_impl over a line changes no cell and no counter, and finds a pair iff two neighbours are equal and non-empty |
| Moves.ProbePassState | mini2048.c:125-137 | a pass of sum_possible_impl over the board changes only is_sum_possible, which it raises iff some line has equal neighbours |
| Moves.ColumnsProbe | mini2048.c:136 | the pass with dim 0 finds exactly the vertically adjacent equal tiles |
| Moves.RowsProbe | mini2048.c:137 | the pass with dim 1 finds exactly the horizontally adjacent equal tiles |
| Moves.SumPossibleMeaning | mini2048.c:131-139 | sum_possible leaves board and counters alone and sets is_sum_possible iff two horizontally or vertically adjacent cells hold equal tiles |
| Moves.SumPossibleScan | mini2048.c:131-139 | sum_possible as a function of the state: it changes only is_sum_possible; SumPossibleMeaning gives the flag's value |
| Mini2048.Game.SumPossible | mini2048.c:131-139 | the new state is the old one with is_sum_possible set to MergePossible(board), and the result is that flag |
| Mini2048.Game.MovePossible | mini2048.c:141-144 | the result is true iff the board has an empty cell or two equal neighbours; board, nmoves, won and score stay unchanged; is_sum_possible keeps its value when a cell is empty, since the short-circuit or then skips sum_possible, and otherwise becomes whether two neighbours are equal |
| Moves.StuckShift | mini2048.c:141-144 | when move_possible is false, each of the four shifts leaves the whole state (board, nmoves, score, won) unchanged |
| Draws.Limit | mini2048.c:149 | lim is a positive multiple of ub within ub of RAND_MAX |
| Draws.UniformRandom | mini2048.c:147-156 | the loop takes draws until the first one below lim; the result is that draw modulo ub, in [0, ub), and every earlier draw was at least lim |
| Draws.HitsBlocks | mini2048.c:149-155 | q whole blocks of ub values and j more hold q values of each residue below j, and q of each other residue |
| Draws.Uniform | mini2048.c:147-156 | each result in [0, ub) comes from exactly lim / ub accepted draws |
| Grid.SpawnCell | mini2048.c:164-167 | the r-th empty cell in row-major order is empty and has exactly r empty cells before it |
| Grid.NthEmpty | mini2048.c:164-167 | a cell is the r-th empty cell iff it is empty and r empty cells precede it in row-major order |
| Grid.SpawnStep | mini2048.c:166 | at an empty cell the countdown r is 0 iff this cell is the r-th empty one, and r drops by one per empty cell |
| Grid.FillEmpty | mini2048.c:166-167 | filling an empty cell with a tile lowers the empty count by one |
| Grid.EmptyBoardCount | mini2048.c:9 | the starting board has 16 empty cells, so the first spawns of main have a positive bound |
| Mini2048.Game.AddTiles | mini2048.c:159-168 | with n empty cells, d is the first draw below Limit(n) (every earlier draw is rejected), and exactly SpawnCell(board, d % n) becomes 2 and nothing else changes; the empty count drops by one, the total grows by 2, and tiles stay tiles |
| Mini2048.Game.Turn | mini2048.c:204-218 | the turn step of main. A won game stops with Win and nothing changed. Otherwise a tile is spawned, in the cell the first accepted draw picks, iff nmoves was non-zero; nmoves is cleared, score is kept, is_sum_possible is as move_possible leaves it and the turn ends with Lose iff no move is possible. In a lost state every direction's shift leaves the state unchanged |
| Mini2048.Game.constructor | mini2048.c:43-45 | the game starts as the statics of the program do: an empty board (mini2048.c:9), nmoves 0, score 0, won clear (mini2048.c:43-45) and is_sum_possible clear (mini2048.c:123) |

## Left out

- Drawing the board: `display` and the colour tables (mini2048.c:11-41). They only print ANSI escape sequences.
- Terminal and signal handling: `tcgetattr`/`tcsetattr`, `reset_termios`, `shandler` (mini2048.c:171-195, 245-246).
- Reading keys: `getchar` and the `switch` in `main` (mini2048.c:219-243). `Game.Move` models what a recognised key does, and `Direction` names the four (dim, lr) pairs. The keys themselves are not modelled, and neither is quitting with `q`.
- The two spawns before the main loop (mini2048.c:200-201) are not a method of their own. `Grid.EmptyBoardCount` shows the first `add_tiles` has a positive bound. `Game.AddTiles` gives the second one 15 empty cells.
- Seeding the generator: `srand(time(NULL))` (mini2048.c:197). `rand()` is a parameter `draws` holding the values it returns, each in [0, RAND_MAX]. RAND_MAX is the GNU C library's 2^31 - 1.
- Draws.UniformRandom: requires that `draws` holds a draw below lim. The C loop does not terminate otherwise, and no sequence of `rand()` values is promised.
- `int` overflow: cells, `score` and `nmoves` are unbounded integers. In a real game they stay far below 2^31.
- `won` and `is_sum_possible` are `bool` fields; the C uses `int` flags that are only ever set to 0 or 1.
- Mini2048.Game.PairIterator: requires `dim` to be 0 or 1. Another value would index `i[2]` out of bounds in the C. No caller passes one.
- Mini2048.Game.AddTiles: requires at least one empty cell. With none, the C divides by zero in `uniform_random(0)`. The main loop only calls it after a move changed the board, and `Moves.ShiftCounter` shows such a board has an empty cell.
- Mini2048.Game.Turn: requires that a non-zero `nmoves` comes with an empty cell. Game.Shift establishes this from `nmoves == 0`.
