/** Board generation: an even number of cells, values drawn in pairs (or
    supplied), a Fisher-Yates shuffle, and a row-major layout. */
module BoardGeneration {
  import opened Grid

  /** The random draws `generateBoard` makes, each being `floor(random() * n)`
      for the `n` of its call site, so a number in `[0, n)`:
      `dRoll` picks the distinct-value budget D, `pairRolls[k]` the k-th pair's
      value minus one, `swapRolls[i]` the partner of index i in the shuffle. */
  datatype Draws = Draws(dRoll: nat, pairRolls: seq<nat>, swapRolls: seq<nat>)

  /** Number of real tiles: `rows * cols`, minus one when that is odd. */
  function TotalCells(rows: nat, cols: nat): (total: nat)
    ensures total % 2 == 0
    ensures total <= rows * cols < total + 2
  {
    var n := rows * cols;
    if n % 2 != 0 then n - 1 else n
  }

  /** Least distinct-value budget: `ceil(pairs / 2)`. */
  function MinD(pairs: nat): nat { (pairs + 1) / 2 }

  /** Greatest distinct-value budget: `floor(3 * pairs / 4) + 1`. */
  function MaxD(pairs: nat): nat { (3 * pairs) / 4 + 1 }

  /** The budget the draws choose. */
  function ChosenD(pairs: nat, draws: Draws): nat { MinD(pairs) + draws.dRoll }

  /** Whether the override array is used: it is given and has exactly `total` entries. */
  predicate UsesOverride(override: Option<seq<int>>, total: nat)
  {
    override.Some? && |override.value| == total
  }

  /** The draws fit the ranges the source's `Math.random` expressions produce. */
  predicate DrawsInRange(rows: nat, cols: nat, override: Option<seq<int>>, draws: Draws)
  {
    var total := TotalCells(rows, cols);
    var pairs := total / 2;
    (!UsesOverride(override, total) ==>
       draws.dRoll <= MaxD(pairs) - MinD(pairs)
       && |draws.pairRolls| == pairs
       && forall k :: 0 <= k < pairs ==> draws.pairRolls[k] < ChosenD(pairs, draws))
    && |draws.swapRolls| == total
    && forall i :: 0 <= i < total ==> draws.swapRolls[i] <= i
  }

  /** Each roll, plus one, emitted twice in a row (`values.push(num, num)`). */
  function Pairs(rolls: seq<nat>): seq<int>
  {
    if rolls == [] then []
    else var x := rolls[|rolls| - 1] + 1; Pairs(rolls[..|rolls| - 1]) + [x, x]
  }

  /** The value sequence before shuffling. */
  function PreShuffle(rows: nat, cols: nat, override: Option<seq<int>>, draws: Draws): seq<int>
  {
    if UsesOverride(override, TotalCells(rows, cols)) then override.value else Pairs(draws.pairRolls)
  }

  function SwapAt(s: seq<int>, i: nat, j: nat): seq<int>
    requires i < |s| && j < |s|
  {
    s[i := s[j]][j := s[i]]
  }

  /** The swaps of the shuffle still to do, from index `i` down to 1. */
  function FisherYates(s: seq<int>, rolls: seq<nat>, i: int): seq<int>
    requires i < |s| && i < |rolls|
    requires forall k :: 0 <= k <= i ==> rolls[k] <= k
    decreases i
  {
    if i <= 0 then s else FisherYates(SwapAt(s, i, rolls[i]), rolls, i - 1)
  }

  /** The shuffled value sequence. */
  function Shuffled(rows: nat, cols: nat, override: Option<seq<int>>, draws: Draws): seq<int>
    requires DrawsInRange(rows, cols, override, draws)
  {
    var s := PreShuffle(rows, cols, override, draws);
    PreShuffleLength(rows, cols, override, draws);
    FisherYates(s, draws.swapRolls, |s| - 1)
  }

  /** What cell `(r, c)` receives from the row-major layout of `values`. */
  function CellFor(values: seq<int>, cols: nat, r: nat, c: nat): Tile
  {
    var k := r * cols + c;
    if k < |values| then Tile(k, values[k], true, r, c) else Placeholder(r, c)
  }

  /** A row-major layout of `values`: cell (r, c) is visible exactly when its
      row-major index is below `|values|`, then with that index as id; every
      other cell is a placeholder; every tile records its own cell. */
  lemma LaidOutShape(board: seq<seq<Tile>>, values: seq<int>, rows: nat, cols: nat)
    requires IsGrid(board, rows, cols)
    requires forall r, c :: 0 <= r < rows && 0 <= c < cols ==> board[r][c] == CellFor(values, cols, r, c)
    ensures Positioned(board)
    ensures forall r, c :: 0 <= r < rows && 0 <= c < cols ==>
              (r * cols + c < |values| <==> board[r][c].isVisible)
    ensures forall r, c :: 0 <= r < rows && 0 <= c < cols && board[r][c].isVisible ==>
              board[r][c].id == r * cols + c && board[r][c].value == values[r * cols + c]
    ensures forall r, c :: 0 <= r < rows && 0 <= c < cols && !board[r][c].isVisible ==>
              board[r][c] == Placeholder(r, c)
  {
  }

  lemma MulSucc(r: nat, cols: nat)
    ensures (r + 1) * cols == r * cols + cols
  {
  }

  lemma {:induction false} PairsShape(rolls: seq<nat>)
    ensures |Pairs(rolls)| == 2 * |rolls|
    ensures forall k :: 0 <= k < |rolls| ==> Pairs(rolls)[2 * k] == Pairs(rolls)[2 * k + 1] == rolls[k] + 1
  {
    if rolls != [] {
      PairsShape(rolls[..|rolls| - 1]);
    }
  }

  lemma PreShuffleLength(rows: nat, cols: nat, override: Option<seq<int>>, draws: Draws)
    requires DrawsInRange(rows, cols, override, draws)
    ensures |PreShuffle(rows, cols, override, draws)| == TotalCells(rows, cols)
  {
    if !UsesOverride(override, TotalCells(rows, cols)) {
      PairsShape(draws.pairRolls);
    }
  }

  /** Drawn values are in `[1, D]` when every roll is below D. */
  lemma {:induction false} PairsInRange(rolls: seq<nat>, d: nat)
    requires forall k :: 0 <= k < |rolls| ==> rolls[k] < d
    ensures forall v :: v in Pairs(rolls) ==> 1 <= v <= d
  {
    if rolls != [] {
      PairsInRange(rolls[..|rolls| - 1], d);
    }
  }

  /** How many rolls draw the value `v` (a roll `k` draws `k + 1`). */
  function DrawnCount(rolls: seq<nat>, v: int): nat
  {
    if rolls == [] then 0
    else DrawnCount(rolls[..|rolls| - 1], v) + (if rolls[|rolls| - 1] + 1 == v then 1 else 0)
  }

  lemma AppendPairCount(a: seq<int>, x: int, v: int)
    ensures multiset(a + [x, x])[v] == multiset(a)[v] + (if x == v then 2 else 0)
  {
    assert multiset(a + [x, x]) == multiset(a) + multiset([x, x]);
  }

  /** Each value occurs exactly twice per roll that draws it. */
  lemma {:induction false} PairsCount(rolls: seq<nat>, v: int)
    ensures multiset(Pairs(rolls))[v] == 2 * DrawnCount(rolls, v)
  {
    if rolls != [] {
      var init := rolls[..|rolls| - 1];
      PairsCount(init, v);
      AppendPairCount(Pairs(init), rolls[|rolls| - 1] + 1, v);
    }
  }

  lemma TwiceIsEven(n: int)
    ensures (2 * n) % 2 == 0
  {
  }

  /** Every drawn value occurs an even number of times. */
  lemma PairsEvenCounts(rolls: seq<nat>)
    ensures forall v :: multiset(Pairs(rolls))[v] % 2 == 0
  {
    forall v
      ensures multiset(Pairs(rolls))[v] % 2 == 0
    {
      PairsCount(rolls, v);
      TwiceIsEven(DrawnCount(rolls, v));
    }
  }

  /** The budget range is never empty, so a budget can always be drawn. */
  lemma BudgetRangeNonEmpty(pairs: nat)
    ensures MinD(pairs) <= MaxD(pairs)
    ensures pairs > 0 ==> 1 <= MinD(pairs)
  {
  }

  /** A rearrangement keeps the value range and the even occurrence counts. */
  lemma PermutationKeepsValueFacts(pre: seq<int>, post: seq<int>, d: int)
    requires multiset(post) == multiset(pre)
    requires forall v :: v in pre ==> 1 <= v <= d
    requires forall v :: multiset(pre)[v] % 2 == 0
    ensures forall v :: v in post ==> 1 <= v <= d
    ensures forall v :: multiset(post)[v] % 2 == 0
  {
    forall v | v in post
      ensures 1 <= v <= d
    {
      assert v in multiset(post);
      assert v in pre;
    }
  }

  /** The shuffle only swaps: it is a permutation of its input. */
  lemma {:induction false} FisherYatesPermutes(s: seq<int>, rolls: seq<nat>, i: int)
    requires i < |s| && i < |rolls|
    requires forall k :: 0 <= k <= i ==> rolls[k] <= k
    ensures |FisherYates(s, rolls, i)| == |s|
    ensures multiset(FisherYates(s, rolls, i)) == multiset(s)
    decreases i
  {
    if i > 0 {
      var t := SwapAt(s, i, rolls[i]);
      assert multiset(t) == multiset(s);
      FisherYatesPermutes(t, rolls, i - 1);
    }
  }

  /** Values of the drawn pairs: `values.push(num, num)` for every roll. */
  method DrawPairs(rolls: seq<nat>) returns (values: seq<int>)
    ensures values == Pairs(rolls)
  {
    values := [];
    var i := 0;
    while i < |rolls|
      invariant 0 <= i <= |rolls|
      invariant values == Pairs(rolls[..i])
    {
      var num := rolls[i] + 1;
      values := values + [num, num];
      assert rolls[..i + 1][..i] == rolls[..i];
      i := i + 1;
    }
    assert rolls[..i] == rolls;
  }

  /** The in-place Fisher-Yates shuffle of lines 28-31. */
  method Shuffle(a: array<int>, rolls: seq<nat>)
    requires |rolls| == a.Length
    requires forall k :: 0 <= k < a.Length ==> rolls[k] <= k
    modifies a
    ensures a[..] == FisherYates(old(a[..]), rolls, a.Length - 1)
    ensures multiset(a[..]) == multiset(old(a[..]))
  {
    var i := a.Length - 1;
    while i > 0
      invariant -1 <= i < a.Length
      invariant a.Length == 0 ==> i == -1
      invariant FisherYates(a[..], rolls, i) == FisherYates(old(a[..]), rolls, a.Length - 1)
    {
      var j := rolls[i];
      assert a[..][i := a[j]][j := a[i]] == SwapAt(a[..], i, j);
      a[i], a[j] := a[j], a[i];
      i := i - 1;
    }
    FisherYatesPermutes(old(a[..]), rolls, a.Length - 1);
  }

  /** The cell the inner loop lays at column `c` when `index` values are used up. */
  lemma CellAt(values: seq<int>, r: nat, cols: nat, c: nat, base: nat, index: nat)
    requires base == r * cols && index == Min(base + c, |values|)
    ensures CellFor(values, cols, r, c)
            == if index < |values| then Tile(r * cols + c, values[index], true, r, c) else Placeholder(r, c)
  {
  }

  /** Appending tile `t` to a partial row extends its visible values by `t`'s
      value exactly when `t` is visible and takes the next value. */
  lemma LaidCell(values: seq<int>, rowArr: seq<Tile>, t: Tile, index0: nat, index: nat)
    requires index0 <= index <= |values|
    requires ValuesOf(VisibleOf(rowArr)) == values[index0..index]
    requires t.isVisible ==> index < |values| && t.value == values[index]
    ensures t.isVisible ==> ValuesOf(VisibleOf(rowArr + [t])) == values[index0..index + 1]
    ensures !t.isVisible ==> ValuesOf(VisibleOf(rowArr + [t])) == values[index0..index]
  {
    assert (rowArr + [t])[..|rowArr|] == rowArr;
    if t.isVisible {
      assert values[index0..index + 1] == values[index0..index] + [values[index]];
      ValuesOfAppend(VisibleOf(rowArr), [t]);
    }
  }

  /** One pass of the inner loop of lines 36-56: row `r`, continuing at `index`. */
  method LayRow(values: seq<int>, r: nat, cols: nat, ghost base: nat, index0: nat)
    returns (rowArr: seq<Tile>, index: nat)
    requires base == r * cols && index0 == Min(base, |values|)
    ensures |rowArr| == cols
    ensures forall k :: 0 <= k < cols ==> rowArr[k] == CellFor(values, cols, r, k)
    ensures index == Min(base + cols, |values|)
    ensures ValuesOf(VisibleOf(rowArr)) == values[index0..index]
  {
    rowArr := [];
    index := index0;
    var c := 0;
    while c < cols
      invariant 0 <= c <= cols && |rowArr| == c
      invariant forall k :: 0 <= k < c ==> rowArr[k] == CellFor(values, cols, r, k)
      invariant index == Min(base + c, |values|)
      invariant index0 <= index
      invariant ValuesOf(VisibleOf(rowArr)) == values[index0..index]
    {
      CellAt(values, r, cols, c, base, index);
      var t;
      if index < |values| {
        t := Tile(r * cols + c, values[index], true, r, c);
        LaidCell(values, rowArr, t, index0, index);
        index := index + 1;
      } else {
        t := Placeholder(r, c);
        LaidCell(values, rowArr, t, index0, index);
      }
      rowArr := rowArr + [t];
      c := c + 1;
    }
  }

  /** `values` as the array the source shuffles, shuffled in place. */
  method ShuffleCopy(values: seq<int>, rolls: seq<nat>) returns (shuffled: seq<int>)
    requires |rolls| == |values|
    requires forall k :: 0 <= k < |values| ==> rolls[k] <= k
    ensures shuffled == FisherYates(values, rolls, |values| - 1)
    ensures |shuffled| == |values| && multiset(shuffled) == multiset(values)
  {
    var a := new int[|values|](k requires 0 <= k < |values| => values[k]);
    assert a[..] == values;
    Shuffle(a, rolls);
    shuffled := a[..];
  }

  lemma ValuesOfAppend(a: seq<Tile>, b: seq<Tile>)
    ensures ValuesOf(a + b) == ValuesOf(a) + ValuesOf(b)
  {
    assert forall k :: 0 <= k < |a + b| ==> ValuesOf(a + b)[k] == (ValuesOf(a) + ValuesOf(b))[k];
  }

  /** Appending the row laid by `LayRow` extends the layout by one row. */
  lemma LaidRow(values: seq<int>, board: seq<seq<Tile>>, rowArr: seq<Tile>, r: nat, cols: nat, index: nat, next: nat)
    requires IsGrid(board, r, cols) && |rowArr| == cols
    requires forall i, c :: 0 <= i < r && 0 <= c < cols ==> board[i][c] == CellFor(values, cols, i, c)
    requires forall c :: 0 <= c < cols ==> rowArr[c] == CellFor(values, cols, r, c)
    requires index <= next <= |values|
    requires ValuesOf(VisibleRowMajor(board)) == values[..index]
    requires ValuesOf(VisibleOf(rowArr)) == values[index..next]
    ensures IsGrid(board + [rowArr], r + 1, cols)
    ensures forall i, c :: 0 <= i < r + 1 && 0 <= c < cols ==> (board + [rowArr])[i][c] == CellFor(values, cols, i, c)
    ensures ValuesOf(VisibleRowMajor(board + [rowArr])) == values[..next]
  {
    var board' := board + [rowArr];
    forall i, c | 0 <= i < r + 1 && 0 <= c < cols
      ensures board'[i][c] == CellFor(values, cols, i, c)
    {
      if i < r {
        assert board'[i] == board[i];
      }
    }
    assert board'[..|board|] == board;
    assert VisibleRowMajor(board') == VisibleRowMajor(board) + VisibleOf(rowArr);
    ValuesOfAppend(VisibleRowMajor(board), VisibleOf(rowArr));
    assert values[..next] == values[..index] + values[index..next];
  }

  /** Lines 32-58: `values` laid row-major; cells past its end get placeholders. */
  method LayOut(values: seq<int>, rows: nat, cols: nat) returns (board: seq<seq<Tile>>)
    requires |values| <= rows * cols
    ensures IsGrid(board, rows, cols)
    ensures forall r, c :: 0 <= r < rows && 0 <= c < cols ==> board[r][c] == CellFor(values, cols, r, c)
    ensures ValuesOf(VisibleRowMajor(board)) == values
  {
    board := [];
    var index := 0;
    var r := 0;
    ghost var base := 0;
    while r < rows
      invariant 0 <= r <= rows && base == r * cols
      invariant IsGrid(board, r, cols)
      invariant forall i, c :: 0 <= i < r && 0 <= c < cols ==> board[i][c] == CellFor(values, cols, i, c)
      invariant index == Min(base, |values|)
      invariant ValuesOf(VisibleRowMajor(board)) == values[..index]
    {
      var rowArr, next := LayRow(values, r, cols, base, index);
      LaidRow(values, board, rowArr, r, cols, index, next);
      board := board + [rowArr];
      index := next;
      r := r + 1;
      MulSucc(r - 1, cols);
      base := base + cols;
    }
    assert rows * cols == base;
    assert values[..index] == values;
  }

  /** Lines 14-26: the override when it fits, otherwise `totalPairs` drawn pairs. */
  method InitialValues(total: nat, valuesOverride: Option<seq<int>>, draws: Draws) returns (values: seq<int>)
    requires total % 2 == 0
    requires !UsesOverride(valuesOverride, total) ==>
               |draws.pairRolls| == total / 2
               && forall k :: 0 <= k < total / 2 ==> draws.pairRolls[k] < ChosenD(total / 2, draws)
    ensures |values| == total
    ensures UsesOverride(valuesOverride, total) ==> values == valuesOverride.value
    ensures !UsesOverride(valuesOverride, total) ==>
              values == Pairs(draws.pairRolls)
              && (forall v :: v in values ==> 1 <= v <= ChosenD(total / 2, draws))
              && (forall v :: multiset(values)[v] % 2 == 0)
  {
    var totalPairs := total / 2;
    if valuesOverride.Some? && |valuesOverride.value| == total {
      values := valuesOverride.value;
    } else {
      var minD := (totalPairs + 1) / 2;
      var d := draws.dRoll + minD;
      values := DrawPairs(draws.pairRolls);
      PairsShape(draws.pairRolls);
      PairsInRange(draws.pairRolls, d);
      PairsEvenCounts(draws.pairRolls);
    }
  }

  /** In-range draws meet what each stage of `generateBoard` needs, and the
      stages compose to `Shuffled`. */
  lemma DrawsFit(rows: nat, cols: nat, valuesOverride: Option<seq<int>>, draws: Draws)
    requires DrawsInRange(rows, cols, valuesOverride, draws)
    ensures var total := TotalCells(rows, cols);
            var pre := PreShuffle(rows, cols, valuesOverride, draws);
            (!UsesOverride(valuesOverride, total) ==>
               |draws.pairRolls| == total / 2
               && forall k :: 0 <= k < total / 2 ==> draws.pairRolls[k] < ChosenD(total / 2, draws))
            && (UsesOverride(valuesOverride, total) ==> pre == valuesOverride.value)
            && (!UsesOverride(valuesOverride, total) ==> pre == Pairs(draws.pairRolls))
            && |pre| == total && |draws.swapRolls| == total
            && (forall k :: 0 <= k < total ==> draws.swapRolls[k] <= k)
            && FisherYates(pre, draws.swapRolls, total - 1) == Shuffled(rows, cols, valuesOverride, draws)
            && total <= rows * cols
  {
    PreShuffleLength(rows, cols, valuesOverride, draws);
  }

  /** `generateBoard(rows, cols, valuesOverride)` with its random draws given:
      the shuffled value sequence laid out row-major over a `rows x cols` grid. */
  method GenerateBoard(rows: nat, cols: nat, valuesOverride: Option<seq<int>>, draws: Draws)
    returns (board: seq<seq<Tile>>)
    requires DrawsInRange(rows, cols, valuesOverride, draws)
    ensures IsGrid(board, rows, cols)
    ensures forall r, c :: 0 <= r < rows && 0 <= c < cols ==>
              board[r][c] == CellFor(Shuffled(rows, cols, valuesOverride, draws), cols, r, c)
    ensures ValuesOf(VisibleRowMajor(board)) == Shuffled(rows, cols, valuesOverride, draws)
  {
    var total := rows * cols;
    if total % 2 != 0 {
      total := total - 1;
    }
    assert total == TotalCells(rows, cols);
    DrawsFit(rows, cols, valuesOverride, draws);
    var values := InitialValues(total, valuesOverride, draws);
    assert values == PreShuffle(rows, cols, valuesOverride, draws);
    var shuffled := ShuffleCopy(values, draws.swapRolls);
    assert shuffled == Shuffled(rows, cols, valuesOverride, draws);
    board := LayOut(shuffled, rows, cols);
  }

  /** What the generated values satisfy: there are `total` of them (an even
      number, at most one short of the cell count); an override of that length
      is used up to order; otherwise the budget D lies in its range, every value
      lies in `[1, D]` and every value occurs an even number of times. */
  lemma {:induction false} ShuffledValues(rows: nat, cols: nat, valuesOverride: Option<seq<int>>, draws: Draws)
    requires DrawsInRange(rows, cols, valuesOverride, draws)
    ensures var total := TotalCells(rows, cols);
            var values := Shuffled(rows, cols, valuesOverride, draws);
            |values| == total && total % 2 == 0 && total <= rows * cols < total + 2
            && multiset(values) == multiset(PreShuffle(rows, cols, valuesOverride, draws))
            && (UsesOverride(valuesOverride, total) ==> multiset(values) == multiset(valuesOverride.value))
            && (!UsesOverride(valuesOverride, total) ==>
                  MinD(total / 2) <= ChosenD(total / 2, draws) <= MaxD(total / 2)
                  && (forall v :: v in values ==> 1 <= v <= ChosenD(total / 2, draws))
                  && (forall v :: multiset(values)[v] % 2 == 0))
  {
    var total := TotalCells(rows, cols);
    var pre := PreShuffle(rows, cols, valuesOverride, draws);
    PreShuffleLength(rows, cols, valuesOverride, draws);
    FisherYatesPermutes(pre, draws.swapRolls, |pre| - 1);
    var post := Shuffled(rows, cols, valuesOverride, draws);
    assert post == FisherYates(pre, draws.swapRolls, |pre| - 1);
    if !UsesOverride(valuesOverride, total) {
      var pairs := total / 2;
      var d := ChosenD(pairs, draws);
      assert |draws.pairRolls| == pairs;
      assert forall k :: 0 <= k < |draws.pairRolls| ==> draws.pairRolls[k] < d;
      BudgetRangeNonEmpty(pairs);
      PairsInRange(draws.pairRolls, d);
      PairsEvenCounts(draws.pairRolls);
      PermutationKeepsValueFacts(pre, post, d);
    }
  }
}
