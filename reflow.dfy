/** `rearrangeBoard`: the board reshuffle applied after a match. Each mode moves
    the visible tiles, keeping their id, value and visibility, and fills every
    other cell with a placeholder; the result is always `rows x cols`. */
module Reflow {
  import opened Grid
  import opened Spirals
  import opened Readings

  /** The mode names the reshuffle recognises; any other string leaves the board alone. */
  const Modes: set<string> := {"normal", "left", "right", "up", "down", "inside", "outside"}

  /* ---------------- Packing one line ---------------- */

  /** Index of the first filled cell when `count` tiles are packed into a line of
      `n` cells, against its start or, when `toEnd`, against its end. */
  function Start(n: int, count: int, toEnd: bool): int
  {
    if toEnd then n - count else 0
  }

  /** What cell `k` of a line of `n` cells receives when the tiles `v` are packed:
      one of them, or nothing. */
  function Slot(v: seq<Tile>, n: int, k: int, toEnd: bool): Option<Tile>
  {
    var e := Start(n, |v|, toEnd);
    if e <= k < e + |v| then Some(v[k - e]) else None
  }

  /** The tile written at `(r, c)`: the received tile moved there, or a placeholder. */
  function Place(o: Option<Tile>, r: int, c: int): Tile
  {
    match o
    case Some(t) => Moved(t, r, c)
    case None => Placeholder(r, c)
  }

  /** The board every mode starts from: placeholders everywhere. */
  function Blank(rows: nat, cols: nat): (b: seq<seq<Tile>>)
    ensures IsGrid(b, rows, cols)
  {
    seq(rows, i requires 0 <= i < rows => seq(cols, j requires 0 <= j < cols => Placeholder(i, j)))
  }

  /** A cell agrees with the slot it was filled from: same id, value and a
      visible tile, or an invisible filler. */
  predicate Fits(t: Tile, o: Option<Tile>)
  {
    match o
    case Some(x) => t.id == x.id && t.value == x.value && t.isVisible
    case None => !t.isVisible
  }

  /** The visible cells of `line` form one block of `count` cells at its start
      or, when `toEnd`, at its end. */
  predicate PackedLine(line: seq<Tile>, count: int, toEnd: bool)
  {
    forall j :: 0 <= j < |line| ==> (line[j].isVisible <==> if toEnd then |line| - count <= j else j < count)
  }

  function Clamp(x: int, lo: int, hi: int): int
  {
    if x < lo then lo else if x > hi then hi else x
  }

  /** Scanning the first `m` cells of a packed line meets exactly the filled
      cells so far. */
  lemma {:induction false} LinePrefix(line: seq<Tile>, v: seq<Tile>, toEnd: bool, m: int)
    requires |v| <= |line| && 0 <= m <= |line|
    requires forall k :: 0 <= k < |line| ==> Fits(line[k], Slot(v, |line|, k, toEnd))
    ensures VisibleOf(line[..m]) == line[Start(|line|, |v|, toEnd)..Start(|line|, |v|, toEnd) + Clamp(m - Start(|line|, |v|, toEnd), 0, |v|)]
  {
    if m > 0 {
      LinePrefix(line, v, toEnd, m - 1);
      LineStep(line, v, toEnd, m - 1);
    }
  }

  /** One step of `LinePrefix`: cell `k` is scanned. */
  lemma LineStep(line: seq<Tile>, v: seq<Tile>, toEnd: bool, k: int)
    requires |v| <= |line| && 0 <= k < |line|
    requires Fits(line[k], Slot(v, |line|, k, toEnd))
    requires VisibleOf(line[..k]) == line[Start(|line|, |v|, toEnd)..Start(|line|, |v|, toEnd) + Clamp(k - Start(|line|, |v|, toEnd), 0, |v|)]
    ensures VisibleOf(line[..k + 1]) == line[Start(|line|, |v|, toEnd)..Start(|line|, |v|, toEnd) + Clamp(k + 1 - Start(|line|, |v|, toEnd), 0, |v|)]
  {
    var e := Start(|line|, |v|, toEnd);
    var f0 := Clamp(k - e, 0, |v|);
    assert line[..k + 1][..k] == line[..k];
    assert VisibleOf(line[..k + 1]) == VisibleOf(line[..k]) + (if line[k].isVisible then [line[k]] else []);
    if e <= k < e + |v| {
      assert line[e..e + f0 + 1] == line[e..e + f0] + [line[k]];
    }
  }

  /** The filled block of a packed line carries the packed tiles' ids and values, in order. */
  lemma LineIdentities(line: seq<Tile>, v: seq<Tile>, toEnd: bool)
    requires |v| <= |line|
    requires forall k :: 0 <= k < |line| ==> Fits(line[k], Slot(v, |line|, k, toEnd))
    ensures Identities(line[Start(|line|, |v|, toEnd)..Start(|line|, |v|, toEnd) + |v|]) == Identities(v)
  {
    var e := Start(|line|, |v|, toEnd);
    var block := line[e..e + |v|];
    forall i | 0 <= i < |v|
      ensures block[i].id == v[i].id && block[i].value == v[i].value
    {
      assert block[i] == line[e + i];
      assert Fits(line[e + i], Slot(v, |line|, e + i, toEnd));
    }
  }

  /** Reading a packed line gives back the packed tiles' ids and values, in
      order, and meets exactly the block of filled cells. */
  lemma LineReadBack(line: seq<Tile>, v: seq<Tile>, toEnd: bool)
    requires |v| <= |line|
    requires forall k :: 0 <= k < |line| ==> Fits(line[k], Slot(v, |line|, k, toEnd))
    ensures VisibleOf(line) == line[Start(|line|, |v|, toEnd)..Start(|line|, |v|, toEnd) + |v|]
    ensures Identities(VisibleOf(line)) == Identities(v)
  {
    LineVisible(line, v, toEnd);
    LineIdentities(line, v, toEnd);
  }

  /** Scanning the whole of a packed line meets exactly its filled block. */
  lemma LineVisible(line: seq<Tile>, v: seq<Tile>, toEnd: bool)
    requires |v| <= |line|
    requires forall k :: 0 <= k < |line| ==> Fits(line[k], Slot(v, |line|, k, toEnd))
    ensures VisibleOf(line) == line[Start(|line|, |v|, toEnd)..Start(|line|, |v|, toEnd) + |v|]
  {
    var e := Start(|line|, |v|, toEnd);
    assert Clamp(|line| - e, 0, |v|) == |v|;
    LinePrefix(line, v, toEnd, |line|);
    assert line[..|line|] == line;
    assert VisibleOf(line[..|line|]) == VisibleOf(line);
  }

  /** In a line filled from the slots, the visible cells are exactly the filled block. */
  lemma LinePacked(line: seq<Tile>, v: seq<Tile>, toEnd: bool)
    requires |v| <= |line|
    requires forall k :: 0 <= k < |line| ==> Fits(line[k], Slot(v, |line|, k, toEnd))
    ensures PackedLine(line, |v|, toEnd)
  {
    forall j | 0 <= j < |line|
      ensures line[j].isVisible <==> if toEnd then |line| - |v| <= j else j < |v|
    {
      assert Fits(line[j], Slot(v, |line|, j, toEnd));
    }
  }

  /** Moving a visible tile to its slot yields a cell that fits the slot. */
  lemma PlaceFits(v: seq<Tile>, n: int, k: int, toEnd: bool, r: int, c: int)
    requires forall t :: t in v ==> t.isVisible
    ensures Fits(Place(Slot(v, n, k, toEnd), r, c), Slot(v, n, k, toEnd))
  {
  }

  /** Packing a packed line again, from its visible tiles `w`, puts every cell back where it was. */
  lemma Repack(line: seq<Tile>, v: seq<Tile>, w: seq<Tile>, toEnd: bool, k: int, r: int, c: int)
    requires |v| <= |line|
    requires w == line[Start(|line|, |v|, toEnd)..Start(|line|, |v|, toEnd) + |v|]
    requires 0 <= k < |line| && line[k] == Place(Slot(v, |line|, k, toEnd), r, c)
    ensures Place(Slot(w, |line|, k, toEnd), r, c) == line[k]
  {
    var e := Start(|line|, |v|, toEnd);
    assert Start(|line|, |w|, toEnd) == e;
    if e <= k < e + |v| {
      assert w[k - e] == line[k];
    }
  }

  /* ---------------- Modes "left" and "right" ---------------- */

  /** Every row packed: its visible tiles, in order, against the left edge (or
      the right edge when `toEnd`), each moved to its new cell. */
  function PackRows(board: seq<seq<Tile>>, cols: nat, toEnd: bool): (nb: seq<seq<Tile>>)
    requires IsGrid(board, |board|, cols)
    ensures IsGrid(nb, |board|, cols)
  {
    seq(|board|, i requires 0 <= i < |board| =>
      seq(cols, j requires 0 <= j < cols => Place(Slot(VisibleOf(board[i]), cols, j, toEnd), i, j)))
  }

  /** One row of `PackRows` is a packed line holding the row's visible tiles. */
  lemma RowPacked(board: seq<seq<Tile>>, cols: nat, toEnd: bool, i: int)
    requires IsGrid(board, |board|, cols) && 0 <= i < |board|
    ensures Identities(VisibleOf(PackRows(board, cols, toEnd)[i])) == Identities(VisibleOf(board[i]))
    ensures PackedLine(PackRows(board, cols, toEnd)[i], |VisibleOf(board[i])|, toEnd)
    ensures VisibleOf(PackRows(board, cols, toEnd)[i])
            == PackRows(board, cols, toEnd)[i][Start(cols, |VisibleOf(board[i])|, toEnd)
                                              ..Start(cols, |VisibleOf(board[i])|, toEnd) + |VisibleOf(board[i])|]
  {
    var line := PackRows(board, cols, toEnd)[i];
    var v := VisibleOf(board[i]);
    VisibleOfIsVisible(board[i]);
    forall k | 0 <= k < |line|
      ensures Fits(line[k], Slot(v, |line|, k, toEnd))
    {
      PlaceFits(v, cols, k, toEnd, i, k);
    }
    LineReadBack(line, v, toEnd);
    LinePacked(line, v, toEnd);
  }

  /** Packing a row changes neither which tiles it shows nor their order; the
      shown tiles end up in one block at the packing edge. */
  lemma PackRowsMeaning(board: seq<seq<Tile>>, cols: nat, toEnd: bool)
    requires IsGrid(board, |board|, cols)
    ensures Positioned(PackRows(board, cols, toEnd)) && HiddenArePlaceholders(PackRows(board, cols, toEnd))
    ensures forall i :: 0 <= i < |board| ==>
              Identities(VisibleOf(PackRows(board, cols, toEnd)[i])) == Identities(VisibleOf(board[i]))
              && PackedLine(PackRows(board, cols, toEnd)[i], |VisibleOf(board[i])|, toEnd)
    ensures Identities(VisibleRowMajor(PackRows(board, cols, toEnd))) == Identities(VisibleRowMajor(board))
  {
    PackRowsPositioned(board, cols, toEnd);
    PackRowsLines(board, cols, toEnd);
    var nb := PackRows(board, cols, toEnd);
    RowsReadAlike(nb, board, |board|);
    assert nb[..|board|] == nb && board[..|board|] == board;
  }

  lemma PackRowsPositioned(board: seq<seq<Tile>>, cols: nat, toEnd: bool)
    requires IsGrid(board, |board|, cols)
    ensures Positioned(PackRows(board, cols, toEnd)) && HiddenArePlaceholders(PackRows(board, cols, toEnd))
  {
    var nb: seq<seq<Tile>> := PackRows(board, cols, toEnd);
    forall i: int, j: int | 0 <= i < |nb| && 0 <= j < |nb[i]|
      ensures nb[i][j].row == i && nb[i][j].col == j
      ensures !nb[i][j].isVisible ==> nb[i][j] == Placeholder(i, j)
    {
      assert nb[i][j] == Place(Slot(VisibleOf(board[i]), cols, j, toEnd), i, j);
      VisibleOfIsVisible(board[i]);
    }
  }

  lemma PackRowsLines(board: seq<seq<Tile>>, cols: nat, toEnd: bool)
    requires IsGrid(board, |board|, cols)
    ensures forall i :: 0 <= i < |board| ==>
              Identities(VisibleOf(PackRows(board, cols, toEnd)[i])) == Identities(VisibleOf(board[i]))
              && PackedLine(PackRows(board, cols, toEnd)[i], |VisibleOf(board[i])|, toEnd)
  {
    forall i | 0 <= i < |board|
      ensures Identities(VisibleOf(PackRows(board, cols, toEnd)[i])) == Identities(VisibleOf(board[i]))
      ensures PackedLine(PackRows(board, cols, toEnd)[i], |VisibleOf(board[i])|, toEnd)
    {
      RowPacked(board, cols, toEnd, i);
    }
  }

  /** Boards whose rows show the same ids and values show the same row-major sequence. */
  lemma {:induction false} RowsReadAlike(a: seq<seq<Tile>>, b: seq<seq<Tile>>, n: nat)
    requires n <= |a| && n <= |b|
    requires forall i :: 0 <= i < n ==> Identities(VisibleOf(a[i])) == Identities(VisibleOf(b[i]))
    ensures Identities(VisibleRowMajor(a[..n])) == Identities(VisibleRowMajor(b[..n]))
  {
    if n > 0 {
      RowsReadAlike(a, b, n - 1);
      assert a[..n][..n - 1] == a[..n - 1] && b[..n][..n - 1] == b[..n - 1];
      IdentitiesAppend(VisibleRowMajor(a[..n - 1]), VisibleOf(a[n - 1]));
      IdentitiesAppend(VisibleRowMajor(b[..n - 1]), VisibleOf(b[n - 1]));
    }
  }

  /** Packing the rows of an already packed board changes nothing. */
  lemma PackRowsIdempotent(board: seq<seq<Tile>>, cols: nat, toEnd: bool)
    requires IsGrid(board, |board|, cols)
    ensures PackRows(PackRows(board, cols, toEnd), cols, toEnd) == PackRows(board, cols, toEnd)
  {
    var nb := PackRows(board, cols, toEnd);
    forall i, j | 0 <= i < |board| && 0 <= j < cols
      ensures PackRows(nb, cols, toEnd)[i][j] == nb[i][j]
    {
      RowPacked(board, cols, toEnd, i);
      Repack(nb[i], VisibleOf(board[i]), VisibleOf(nb[i]), toEnd, j, i, j);
    }
    forall i | 0 <= i < |board|
      ensures PackRows(nb, cols, toEnd)[i] == nb[i]
    {
    }
  }

  /* ---------------- Modes "up" and "down" ---------------- */

  /** Every column packed: its visible tiles, in order, against the top edge (or
      the bottom edge when `toEnd`), each moved to its new cell. */
  function PackColumns(board: seq<seq<Tile>>, cols: nat, toEnd: bool): (nb: seq<seq<Tile>>)
    requires IsGrid(board, |board|, cols)
    ensures IsGrid(nb, |board|, cols)
  {
    seq(|board|, i requires 0 <= i < |board| =>
      seq(cols, j requires 0 <= j < cols => Place(Slot(VisibleOf(Column(board, j)), |board|, i, toEnd), i, j)))
  }

  /** Packing a column changes neither which tiles it shows nor their order;
      the shown tiles end up in one block at the packing edge, and the board as
      a whole shows the same multiset of ids and values. */
  lemma PackColumnsMeaning(board: seq<seq<Tile>>, cols: nat, toEnd: bool)
    requires IsGrid(board, |board|, cols)
    ensures Positioned(PackColumns(board, cols, toEnd)) && HiddenArePlaceholders(PackColumns(board, cols, toEnd))
    ensures forall j :: 0 <= j < cols ==>
              Identities(VisibleOf(Column(PackColumns(board, cols, toEnd), j))) == Identities(VisibleOf(Column(board, j)))
              && PackedLine(Column(PackColumns(board, cols, toEnd), j), |VisibleOf(Column(board, j))|, toEnd)
    ensures multiset(Identities(VisibleRowMajor(PackColumns(board, cols, toEnd))))
            == multiset(Identities(VisibleRowMajor(board)))
  {
    PackColumnsPositioned(board, cols, toEnd);
    PackColumnsLines(board, cols, toEnd);
    PackColumnsKeepsIds(board, cols, toEnd);
  }

  lemma PackColumnsPositioned(board: seq<seq<Tile>>, cols: nat, toEnd: bool)
    requires IsGrid(board, |board|, cols)
    ensures Positioned(PackColumns(board, cols, toEnd)) && HiddenArePlaceholders(PackColumns(board, cols, toEnd))
  {
    var nb: seq<seq<Tile>> := PackColumns(board, cols, toEnd);
    forall i: int, j: int | 0 <= i < |nb| && 0 <= j < |nb[i]|
      ensures nb[i][j].row == i && nb[i][j].col == j
      ensures !nb[i][j].isVisible ==> nb[i][j] == Placeholder(i, j)
    {
      assert nb[i][j] == Place(Slot(VisibleOf(Column(board, j)), |board|, i, toEnd), i, j);
      VisibleOfIsVisible(Column(board, j));
    }
  }

  lemma PackColumnsLines(board: seq<seq<Tile>>, cols: nat, toEnd: bool)
    requires IsGrid(board, |board|, cols)
    ensures forall j :: 0 <= j < cols ==>
              Identities(VisibleOf(Column(PackColumns(board, cols, toEnd), j))) == Identities(VisibleOf(Column(board, j)))
              && PackedLine(Column(PackColumns(board, cols, toEnd), j), |VisibleOf(Column(board, j))|, toEnd)
  {
    forall j | 0 <= j < cols
      ensures Identities(VisibleOf(Column(PackColumns(board, cols, toEnd), j))) == Identities(VisibleOf(Column(board, j)))
      ensures PackedLine(Column(PackColumns(board, cols, toEnd), j), |VisibleOf(Column(board, j))|, toEnd)
    {
      ColumnPacked(board, cols, toEnd, j);
    }
  }

  lemma PackColumnsKeepsIds(board: seq<seq<Tile>>, cols: nat, toEnd: bool)
    requires IsGrid(board, |board|, cols)
    ensures multiset(Identities(VisibleRowMajor(PackColumns(board, cols, toEnd))))
            == multiset(Identities(VisibleRowMajor(board)))
  {
    var nb := PackColumns(board, cols, toEnd);
    var rows := |board|;
    PackColumnsLines(board, cols, toEnd);
    ColumnsReadAlike(nb, board, rows, cols, cols);
    ColumnMajorIsEnumeration(rows, cols);
    var order := ColumnMajorCells(rows, cols);
    EnumerationReading(nb, order, rows, cols);
    EnumerationReading(board, order, rows, cols);
  }

  /** One column of `PackColumns`, read top to bottom, is a packed line. */
  lemma ColumnPacked(board: seq<seq<Tile>>, cols: nat, toEnd: bool, j: int)
    requires IsGrid(board, |board|, cols) && 0 <= j < cols
    ensures Identities(VisibleOf(Column(PackColumns(board, cols, toEnd), j))) == Identities(VisibleOf(Column(board, j)))
    ensures PackedLine(Column(PackColumns(board, cols, toEnd), j), |VisibleOf(Column(board, j))|, toEnd)
    ensures VisibleOf(Column(PackColumns(board, cols, toEnd), j))
            == Column(PackColumns(board, cols, toEnd), j)[Start(|board|, |VisibleOf(Column(board, j))|, toEnd)
                                                      ..Start(|board|, |VisibleOf(Column(board, j))|, toEnd) + |VisibleOf(Column(board, j))|]
  {
    var nb := PackColumns(board, cols, toEnd);
    var line := Column(nb, j);
    var v := VisibleOf(Column(board, j));
    VisibleOfIsVisible(Column(board, j));
    forall k | 0 <= k < |line|
      ensures Fits(line[k], Slot(v, |line|, k, toEnd))
    {
      PlaceFits(v, |board|, k, toEnd, k, j);
    }
    LineReadBack(line, v, toEnd);
    LinePacked(line, v, toEnd);
  }

  /** Boards whose columns show the same ids and values read the same multiset column by column. */
  lemma {:induction false} ColumnsReadAlike(a: seq<seq<Tile>>, b: seq<seq<Tile>>, rows: nat, cols: nat, c: nat)
    requires IsGrid(a, rows, cols) && IsGrid(b, rows, cols) && c <= cols
    requires forall j :: 0 <= j < cols ==> Identities(VisibleOf(Column(a, j))) == Identities(VisibleOf(Column(b, j)))
    ensures OnGrid(ColumnMajorCells(rows, c), rows, cols)
    ensures VisibleIds(TilesAlong(a, ColumnMajorCells(rows, c), rows, cols))
            == VisibleIds(TilesAlong(b, ColumnMajorCells(rows, c), rows, cols))
  {
    ColumnMajorReading(a, c, rows, cols);
    ColumnMajorReading(b, c, rows, cols);
    if c > 0 {
      ColumnsReadAlike(a, b, rows, cols, c - 1);
    }
  }

  /** Packing the columns of an already packed board changes nothing. */
  lemma PackColumnsIdempotent(board: seq<seq<Tile>>, cols: nat, toEnd: bool)
    requires IsGrid(board, |board|, cols)
    ensures PackColumns(PackColumns(board, cols, toEnd), cols, toEnd) == PackColumns(board, cols, toEnd)
  {
    var nb := PackColumns(board, cols, toEnd);
    forall i, j | 0 <= i < |board| && 0 <= j < cols
      ensures PackColumns(nb, cols, toEnd)[i][j] == nb[i][j]
    {
      ColumnPacked(board, cols, toEnd, j);
      assert Column(nb, j)[i] == nb[i][j];
      Repack(Column(nb, j), VisibleOf(Column(board, j)), VisibleOf(Column(nb, j)), toEnd, i, i, j);
    }
    forall i | 0 <= i < |board|
      ensures PackColumns(nb, cols, toEnd)[i] == nb[i]
    {
    }
  }

  /* ---------------- Modes "inside" and "outside" ---------------- */

  /** The `k`-th cell of `order` receives the `k`-th of the tiles `v` (moved
      there), and a placeholder once `v` runs out. */
  predicate SpreadAlong(nb: seq<seq<Tile>>, order: seq<Point>, v: seq<Tile>, rows: nat, cols: nat)
  {
    IsGrid(nb, rows, cols) && OnGrid(order, rows, cols)
    && forall k :: 0 <= k < |order| ==>
         nb[order[k].row][order[k].col] == Place(Slot(v, |order|, k, false), order[k].row, order[k].col)
  }

  /** Every row-major visible tile of a `rows x cols` board is visible, and
      there are at most `rows * cols` of them. */
  lemma {:induction false} VisibleRowMajorBound(b: seq<seq<Tile>>, rows: nat, cols: nat)
    requires IsGrid(b, rows, cols)
    ensures |VisibleRowMajor(b)| <= rows * cols
    ensures forall k :: 0 <= k < |VisibleRowMajor(b)| ==> VisibleRowMajor(b)[k].isVisible
  {
    if rows > 0 {
      var front := b[..rows - 1];
      assert IsGrid(front, rows - 1, cols);
      VisibleRowMajorBound(front, rows - 1, cols);
      VisibleOfIsVisible(b[rows - 1]);
      assert (rows - 1) * cols + cols == rows * cols;
      var v := VisibleRowMajor(b);
      assert v == VisibleRowMajor(front) + VisibleOf(b[rows - 1]);
      forall k | 0 <= k < |v|
        ensures v[k].isVisible
      {
        if k >= |VisibleRowMajor(front)| {
          assert v[k] in VisibleOf(b[rows - 1]);
        }
      }
    }
  }

  /** Spreading the row-major visible tiles along an enumeration of the grid:
      every cell records its own position, reading the new board along the same
      order gives back the old row-major sequence of ids and values, and the
      board shows the same multiset of ids and values as before. */
  lemma SpreadMeaning(board: seq<seq<Tile>>, nb: seq<seq<Tile>>, order: seq<Point>, rows: nat, cols: nat)
    requires IsGrid(board, rows, cols) && IsEnumeration(order, rows, cols)
    requires SpreadAlong(nb, order, VisibleRowMajor(board), rows, cols)
    ensures Positioned(nb) && HiddenArePlaceholders(nb)
    ensures Identities(VisibleOf(TilesAlong(nb, order, rows, cols))) == Identities(VisibleRowMajor(board))
    ensures multiset(Identities(VisibleRowMajor(nb))) == multiset(Identities(VisibleRowMajor(board)))
  {
    var v := VisibleRowMajor(board);
    VisibleRowMajorBound(board, rows, cols);
    EnumerationLength(order, rows, cols);
    var line := TilesAlong(nb, order, rows, cols);
    forall k | 0 <= k < |line|
      ensures Fits(line[k], Slot(v, |line|, k, false))
    {
      PlaceFits(v, |order|, k, false, order[k].row, order[k].col);
    }
    LineReadBack(line, v, false);
    EnumerationReading(nb, order, rows, cols);
    forall r, c | 0 <= r < |nb| && 0 <= c < |nb[r]|
      ensures nb[r][c].row == r && nb[r][c].col == c
      ensures !nb[r][c].isVisible ==> nb[r][c] == Placeholder(r, c)
    {
      assert Point(r, c) in order;
      var k :| 0 <= k < |order| && order[k] == Point(r, c);
    }
  }

  /* ---------------- The operation ---------------- */

  /** Modes "left" (`toEnd` false) and "right" (`toEnd` true): each row's
      visible tiles, filtered in order, written from the packing edge. */
  method ShiftRows(board: seq<seq<Tile>>, rows: nat, cols: nat, toEnd: bool) returns (newBoard: seq<seq<Tile>>)
    requires IsGrid(board, rows, cols)
    ensures newBoard == PackRows(board, cols, toEnd)
  {
    newBoard := Blank(rows, cols);
    ghost var target := PackRows(board, cols, toEnd);
    var i := 0;
    while i < rows
      invariant 0 <= i <= rows && IsGrid(newBoard, rows, cols)
      invariant forall r :: 0 <= r < i ==> newBoard[r] == target[r]
    {
      var visible := VisibleOf(board[i]);
      var emptyCount := cols - |visible|;
      var j := 0;
      while j < cols
        invariant 0 <= j <= cols && IsGrid(newBoard, rows, cols)
        invariant forall r :: 0 <= r < i ==> newBoard[r] == target[r]
        invariant forall c :: 0 <= c < j ==> newBoard[i][c] == target[i][c]
      {
        var t: Tile;
        if !toEnd {
          t := if j < |visible| then Moved(visible[j], i, j) else Placeholder(i, j);
        } else {
          t := if j < emptyCount then Placeholder(i, j) else Moved(visible[j - emptyCount], i, j);
        }
        newBoard := newBoard[i := newBoard[i][j := t]];
        j := j + 1;
      }
      i := i + 1;
    }
  }

  /** The first inner loop of modes "up" and "down": the visible tiles of column `j`, top to bottom. */
  method ColumnVisible(board: seq<seq<Tile>>, rows: nat, cols: nat, j: nat) returns (visible: seq<Tile>)
    requires IsGrid(board, rows, cols) && j < cols
    ensures visible == VisibleOf(Column(board, j))
  {
    visible := [];
    var i := 0;
    while i < rows
      invariant 0 <= i <= rows
      invariant visible == VisibleOf(Column(board, j)[..i])
    {
      assert Column(board, j)[..i + 1][..i] == Column(board, j)[..i];
      if board[i][j].isVisible {
        visible := visible + [board[i][j]];
      }
      i := i + 1;
    }
    assert Column(board, j)[..rows] == Column(board, j);
  }

  /** Modes "up" (`toEnd` false) and "down" (`toEnd` true): each column's
      visible tiles, collected top to bottom, written from the packing edge. */
  method ShiftColumns(board: seq<seq<Tile>>, rows: nat, cols: nat, toEnd: bool) returns (newBoard: seq<seq<Tile>>)
    requires IsGrid(board, rows, cols)
    ensures newBoard == PackColumns(board, cols, toEnd)
  {
    newBoard := Blank(rows, cols);
    ghost var target := PackColumns(board, cols, toEnd);
    var j := 0;
    while j < cols
      invariant 0 <= j <= cols && IsGrid(newBoard, rows, cols)
      invariant forall r, c :: 0 <= r < rows && 0 <= c < j ==> newBoard[r][c] == target[r][c]
    {
      var visible := ColumnVisible(board, rows, cols, j);
      var emptyCount := rows - |visible|;
      var i := 0;
      while i < rows
        invariant 0 <= i <= rows && IsGrid(newBoard, rows, cols)
        invariant forall r, c :: 0 <= r < rows && 0 <= c < j ==> newBoard[r][c] == target[r][c]
        invariant forall r :: 0 <= r < i ==> newBoard[r][j] == target[r][j]
      {
        var t: Tile;
        if !toEnd {
          t := if i < |visible| then Moved(visible[i], i, j) else Placeholder(i, j);
        } else {
          t := if i < emptyCount then Placeholder(i, j) else Moved(visible[i - emptyCount], i, j);
        }
        newBoard := newBoard[i := newBoard[i][j := t]];
        i := i + 1;
      }
      j := j + 1;
    }
    forall r | 0 <= r < rows
      ensures newBoard[r] == target[r]
    {
    }
  }

  /** The `forEach` scan of modes "inside" and "outside": all visible tiles, row by row. */
  method CollectVisible(board: seq<seq<Tile>>, rows: nat, cols: nat) returns (visible: seq<Tile>)
    requires IsGrid(board, rows, cols)
    ensures visible == VisibleRowMajor(board)
  {
    visible := [];
    var r := 0;
    while r < rows
      invariant 0 <= r <= rows
      invariant visible == VisibleRowMajor(board[..r])
    {
      var c := 0;
      while c < cols
        invariant 0 <= c <= cols
        invariant visible == VisibleRowMajor(board[..r]) + VisibleOf(board[r][..c])
      {
        assert board[r][..c + 1][..c] == board[r][..c];
        if board[r][c].isVisible {
          visible := visible + [board[r][c]];
        }
        c := c + 1;
      }
      assert board[r][..cols] == board[r];
      assert board[..r + 1][..r] == board[..r];
      r := r + 1;
    }
    assert board[..rows] == board;
  }

  /** The last loop of modes "inside" and "outside": the `index`-th cell of
      the spiral receives the `index`-th visible tile or a placeholder. */
  method Spread(order: seq<Point>, visible: seq<Tile>, rows: nat, cols: nat) returns (newBoard: seq<seq<Tile>>)
    requires DistinctCells(order, rows, cols)
    ensures SpreadAlong(newBoard, order, visible, rows, cols)
  {
    newBoard := Blank(rows, cols);
    var index := 0;
    while index < |order|
      invariant 0 <= index <= |order| && IsGrid(newBoard, rows, cols)
      invariant forall k :: 0 <= k < index ==>
                  newBoard[order[k].row][order[k].col] == Place(Slot(visible, |order|, k, false), order[k].row, order[k].col)
    {
      var row, col := order[index].row, order[index].col;
      assert InGrid(order[index], rows, cols);
      var t := if index < |visible| then Moved(visible[index], row, col) else Placeholder(row, col);
      newBoard := newBoard[row := newBoard[row][col := t]];
      index := index + 1;
    }
  }

  /** `rearrangeBoard(mode, board)`. */
  method RearrangeBoard(mode: string, board: seq<seq<Tile>>) returns (newBoard: seq<seq<Tile>>)
    requires |board| >= 1 && IsGrid(board, |board|, |board[0]|)
    ensures mode == "normal" || mode !in Modes ==> newBoard == board
    ensures mode == "left" ==> newBoard == PackRows(board, |board[0]|, false)
    ensures mode == "right" ==> newBoard == PackRows(board, |board[0]|, true)
    ensures mode == "up" ==> newBoard == PackColumns(board, |board[0]|, false)
    ensures mode == "down" ==> newBoard == PackColumns(board, |board[0]|, true)
    ensures mode == "inside" ==>
              exists order :: IsEnumeration(order, |board|, |board[0]|) && CentreSorted(order, |board|, |board[0]|)
                              && SpreadAlong(newBoard, order, VisibleRowMajor(board), |board|, |board[0]|)
    ensures mode == "outside" ==>
              SpreadAlong(newBoard, OutsideSpiral(|board|, |board[0]|), VisibleRowMajor(board), |board|, |board[0]|)
    ensures IsGrid(newBoard, |board|, |board[0]|)
    ensures multiset(Identities(VisibleRowMajor(newBoard))) == multiset(Identities(VisibleRowMajor(board)))
  {
    var rows, cols := |board|, |board[0]|;
    newBoard := Blank(rows, cols);
    if mode == "normal" {
      return board;
    } else if mode == "left" || mode == "right" {
      newBoard := ShiftRows(board, rows, cols, mode == "right");
      PackRowsMeaning(board, cols, mode == "right");
    } else if mode == "up" || mode == "down" {
      newBoard := ShiftColumns(board, rows, cols, mode == "down");
      PackColumnsMeaning(board, cols, mode == "down");
    } else if mode == "inside" {
      var visible := CollectVisible(board, rows, cols);
      var spiral := SpiralFromCenter(rows, cols);
      newBoard := Spread(spiral, visible, rows, cols);
      SpreadMeaning(board, newBoard, spiral, rows, cols);
    } else if mode == "outside" {
      var visible := CollectVisible(board, rows, cols);
      var spiral := SpiralFromOutside(rows, cols);
      newBoard := Spread(spiral, visible, rows, cols);
      SpreadMeaning(board, newBoard, spiral, rows, cols);
    } else {
      return board;
    }
  }
}
