/** Reading a board cell by cell along a list of coordinates, and the fact that
    the multiset of visible (id, value) pairs read does not depend on the order
    in which the cells are visited. This module has no counterpart in the
    game's code: it is the proof library behind the reshuffle modes of `Reflow`. */
module Readings {
  import opened Grid
  import opened Spirals

  /** The tiles of `b` met when visiting the cells of `order` in turn. */
  function TilesAlong(b: seq<seq<Tile>>, order: seq<Point>, rows: nat, cols: nat): (ts: seq<Tile>)
    requires IsGrid(b, rows, cols) && OnGrid(order, rows, cols)
    ensures |ts| == |order|
  {
    seq(|order|, k requires 0 <= k < |order| => b[order[k].row][order[k].col])
  }

  /** The multiset of (id, value) pairs of the visible tiles of `ts`. */
  function VisibleIds(ts: seq<Tile>): multiset<(int, int)>
  {
    multiset(Identities(VisibleOf(ts)))
  }

  /** The cells of column `c`, top to bottom. */
  function ColumnCellList(c: int, rows: nat): (s: seq<Point>)
    ensures |s| == rows
  {
    seq(rows, r requires 0 <= r < rows => Point(r, c))
  }

  /** The cells of columns `0..c-1` in column-major order. */
  function ColumnMajorCells(rows: nat, c: nat): (s: seq<Point>)
    ensures |s| == rows * c && OnGrid(s, rows, c)
  {
    if c == 0 then [] else ColumnMajorCells(rows, c - 1) + ColumnCellList(c - 1, rows)
  }

  lemma IdentitiesAppend(a: seq<Tile>, b: seq<Tile>)
    ensures Identities(a + b) == Identities(a) + Identities(b)
  {
  }

  lemma VisibleIdsAppend(a: seq<Tile>, b: seq<Tile>)
    ensures VisibleIds(a + b) == VisibleIds(a) + VisibleIds(b)
  {
    VisibleOfAppend(a, b);
    IdentitiesAppend(VisibleOf(a), VisibleOf(b));
  }

  lemma TilesAlongAppend(b: seq<seq<Tile>>, o1: seq<Point>, o2: seq<Point>, rows: nat, cols: nat)
    requires IsGrid(b, rows, cols) && OnGrid(o1, rows, cols) && OnGrid(o2, rows, cols)
    ensures OnGrid(o1 + o2, rows, cols)
    ensures TilesAlong(b, o1 + o2, rows, cols) == TilesAlong(b, o1, rows, cols) + TilesAlong(b, o2, rows, cols)
  {
  }

  /** A list without repeats holds each of its entries exactly once. */
  lemma {:induction false} DistinctMultiplicity(s: seq<Point>, p: Point)
    requires Distinct(s)
    ensures multiset(s)[p] == if p in s then 1 else 0
  {
    if s != [] {
      var t := s[..|s| - 1];
      assert s == t + [s[|s| - 1]];
      assert Distinct(t);
      DistinctMultiplicity(t, p);
    }
  }

  /** Two enumerations of the same grid are permutations of each other. */
  lemma EnumerationsPermute(o1: seq<Point>, o2: seq<Point>, rows: nat, cols: nat)
    requires IsEnumeration(o1, rows, cols) && IsEnumeration(o2, rows, cols)
    ensures multiset(o1) == multiset(o2)
  {
    forall p
      ensures multiset(o1)[p] == multiset(o2)[p]
    {
      DistinctMultiplicity(o1, p);
      DistinctMultiplicity(o2, p);
      if p in o1 {
        var i :| 0 <= i < |o1| && o1[i] == p;
        assert InGrid(o1[i], rows, cols);
      }
      if p in o2 {
        var i :| 0 <= i < |o2| && o2[i] == p;
        assert InGrid(o2[i], rows, cols);
      }
    }
  }

  /** An enumeration of the grid has exactly `rows * cols` entries. */
  lemma EnumerationLength(s: seq<Point>, rows: nat, cols: nat)
    requires IsEnumeration(s, rows, cols)
    ensures |s| == rows * cols
  {
    RowMajorIsEnumeration(rows, cols);
    EnumerationsPermute(s, RowMajorCells(rows, cols), rows, cols);
    assert |s| == |multiset(s)| == |multiset(RowMajorCells(rows, cols))|;
  }

  /** Taking one cell out of the middle of a visit and reading it last changes nothing. */
  lemma ReadingSplit(b: seq<seq<Tile>>, front: seq<Point>, x: Point, back: seq<Point>, rows: nat, cols: nat)
    requires IsGrid(b, rows, cols) && OnGrid(front, rows, cols) && OnGrid(back, rows, cols) && InGrid(x, rows, cols)
    ensures OnGrid(front + [x] + back, rows, cols) && OnGrid(front + back, rows, cols) && OnGrid([x], rows, cols)
    ensures VisibleIds(TilesAlong(b, front + [x] + back, rows, cols))
            == VisibleIds(TilesAlong(b, front + back, rows, cols)) + VisibleIds(TilesAlong(b, [x], rows, cols))
  {
    assert OnGrid([x], rows, cols);
    TilesAlongAppend(b, front, [x], rows, cols);
    TilesAlongAppend(b, front + [x], back, rows, cols);
    TilesAlongAppend(b, front, back, rows, cols);
    var tx := TilesAlong(b, [x], rows, cols);
    var tf, tb := TilesAlong(b, front, rows, cols), TilesAlong(b, back, rows, cols);
    VisibleIdsAppend(tf, tx);
    VisibleIdsAppend(tf + tx, tb);
    VisibleIdsAppend(tf, tb);
  }

  /** Visiting the same cells in another order reads the same visible pairs. */
  lemma {:induction false} ReadingOrderIrrelevant(b: seq<seq<Tile>>, o1: seq<Point>, o2: seq<Point>, rows: nat, cols: nat)
    requires IsGrid(b, rows, cols) && OnGrid(o1, rows, cols) && OnGrid(o2, rows, cols)
    requires multiset(o1) == multiset(o2)
    ensures VisibleIds(TilesAlong(b, o1, rows, cols)) == VisibleIds(TilesAlong(b, o2, rows, cols))
  {
    assert |o1| == |multiset(o1)| == |multiset(o2)| == |o2|;
    if o1 != [] {
      var n := |o1| - 1;
      var x := o1[n];
      var i := MatchLast(o1, o2);
      var front, back := o2[..i], o2[i + 1..];
      assert o2 == front + [x] + back;
      assert o1 == o1[..n] + [x] + [];
      assert o1[..n] + [] == o1[..n];
      ReadingOrderIrrelevant(b, o1[..n], front + back, rows, cols);
      ReadingSplit(b, o1[..n], x, [], rows, cols);
      ReadingSplit(b, front, x, back, rows, cols);
    }
  }

  /** The last entry of `o1` sits somewhere in its permutation `o2`; the rests
      are permutations of each other. */
  lemma MatchLast(o1: seq<Point>, o2: seq<Point>) returns (i: int)
    requires o1 != [] && multiset(o1) == multiset(o2)
    ensures 0 <= i < |o2| && o2[i] == o1[|o1| - 1]
    ensures multiset(o1[..|o1| - 1]) == multiset(o2[..i] + o2[i + 1..])
  {
    var n := |o1| - 1;
    assert o1 == o1[..n] + [o1[n]];
    assert o1[n] in multiset(o2);
    i :| 0 <= i < |o2| && o2[i] == o1[n];
    assert o2 == o2[..i] + [o1[n]] + o2[i + 1..];
    assert multiset(o1[..n]) == multiset(o1) - multiset{o1[n]};
    assert multiset(o2[..i] + o2[i + 1..]) == multiset(o2) - multiset{o1[n]};
  }

  /** Reading row by row gives the row-major visible tiles. */
  lemma {:induction false} RowMajorReading(b: seq<seq<Tile>>, r: nat, rows: nat, cols: nat)
    requires IsGrid(b, rows, cols) && r <= rows
    ensures OnGrid(RowMajorCells(r, cols), rows, cols)
    ensures VisibleOf(TilesAlong(b, RowMajorCells(r, cols), rows, cols)) == VisibleRowMajor(b[..r])
  {
    OnGridWider(RowMajorCells(r, cols), r, cols, rows, cols);
    if r > 0 {
      RowMajorReading(b, r - 1, rows, cols);
      var front, row := RowMajorCells(r - 1, cols), RowCellList(r - 1, cols);
      assert RowMajorCells(r, cols) == front + row;
      assert OnGrid(row, rows, cols);
      TilesAlongAppend(b, front, row, rows, cols);
      assert TilesAlong(b, row, rows, cols) == b[r - 1];
      VisibleOfAppend(TilesAlong(b, front, rows, cols), b[r - 1]);
      VisibleRowMajorPrefix(b, r);
    }
  }

  lemma OnGridWider(s: seq<Point>, r: nat, c: nat, rows: nat, cols: nat)
    requires OnGrid(s, r, c) && r <= rows && c <= cols
    ensures OnGrid(s, rows, cols)
  {
    forall k | 0 <= k < |s|
      ensures InGrid(s[k], rows, cols)
    {
      assert InGrid(s[k], r, c);
    }
  }

  /** Reading column by column gives the visible tiles of each column in turn. */
  lemma {:induction false} ColumnMajorReading(b: seq<seq<Tile>>, c: nat, rows: nat, cols: nat)
    requires IsGrid(b, rows, cols) && c <= cols
    ensures OnGrid(ColumnMajorCells(rows, c), rows, cols)
    ensures c > 0 ==> VisibleIds(TilesAlong(b, ColumnMajorCells(rows, c), rows, cols))
                      == VisibleIds(TilesAlong(b, ColumnMajorCells(rows, c - 1), rows, cols)) + VisibleIds(Column(b, c - 1))
  {
    OnGridWider(ColumnMajorCells(rows, c), rows, c, rows, cols);
    if c > 0 {
      var front, col := ColumnMajorCells(rows, c - 1), ColumnCellList(c - 1, rows);
      OnGridWider(front, rows, c - 1, rows, cols);
      assert ColumnMajorCells(rows, c) == front + col;
      assert OnGrid(col, rows, cols);
      TilesAlongAppend(b, front, col, rows, cols);
      assert TilesAlong(b, col, rows, cols) == Column(b, c - 1);
      VisibleIdsAppend(TilesAlong(b, front, rows, cols), Column(b, c - 1));
    }
  }

  /** Row-major order lists every cell once. */
  lemma {:induction false} RowMajorIsEnumeration(r: nat, cols: nat)
    ensures IsEnumeration(RowMajorCells(r, cols), r, cols)
  {
    if r > 0 {
      RowMajorIsEnumeration(r - 1, cols);
      var s, row := RowMajorCells(r - 1, cols), RowCellList(r - 1, cols);
      assert forall k :: 0 <= k < |s| ==> s[k].row < r - 1 by {
        forall k | 0 <= k < |s| ensures s[k].row < r - 1 {
          assert InGrid(s[k], r - 1, cols);
        }
      }
      forall i, j | 0 <= i < j < |s + row|
        ensures (s + row)[i] != (s + row)[j]
      {
        if j < |s| {
        } else if i >= |s| {
          assert (s + row)[i].col == i - |s|;
        } else {
          assert (s + row)[i].row < r - 1;
        }
      }
      forall rr, cc | 0 <= rr < r && 0 <= cc < cols
        ensures Point(rr, cc) in s + row
      {
        if rr < r - 1 {
          assert Point(rr, cc) in s;
        } else {
          assert (s + row)[|s| + cc] == Point(rr, cc);
        }
      }
    }
  }

  /** Column-major order lists every cell once. */
  lemma {:induction false} ColumnMajorIsEnumeration(rows: nat, c: nat)
    ensures IsEnumeration(ColumnMajorCells(rows, c), rows, c)
  {
    if c > 0 {
      ColumnMajorIsEnumeration(rows, c - 1);
      var s, col := ColumnMajorCells(rows, c - 1), ColumnCellList(c - 1, rows);
      assert forall k :: 0 <= k < |s| ==> s[k].col < c - 1 by {
        forall k | 0 <= k < |s| ensures s[k].col < c - 1 {
          assert InGrid(s[k], rows, c - 1);
        }
      }
      forall i, j | 0 <= i < j < |s + col|
        ensures (s + col)[i] != (s + col)[j]
      {
        if j < |s| {
        } else if i >= |s| {
          assert (s + col)[i].row == i - |s|;
        } else {
          assert (s + col)[i].col < c - 1;
        }
      }
      forall rr, cc | 0 <= rr < rows && 0 <= cc < c
        ensures Point(rr, cc) in s + col
      {
        if cc < c - 1 {
          assert Point(rr, cc) in s;
        } else {
          assert (s + col)[|s| + rr] == Point(rr, cc);
        }
      }
    }
  }

  /** Visiting the cells in any complete order reads the same visible pairs as
      the row-major scan of the board. */
  lemma EnumerationReading(b: seq<seq<Tile>>, order: seq<Point>, rows: nat, cols: nat)
    requires IsGrid(b, rows, cols) && IsEnumeration(order, rows, cols)
    ensures OnGrid(order, rows, cols)
    ensures VisibleIds(TilesAlong(b, order, rows, cols)) == multiset(Identities(VisibleRowMajor(b)))
  {
    RowMajorIsEnumeration(rows, cols);
    RowMajorReading(b, rows, rows, cols);
    assert b[..rows] == b;
    EnumerationsPermute(order, RowMajorCells(rows, cols), rows, cols);
    ReadingOrderIrrelevant(b, order, RowMajorCells(rows, cols), rows, cols);
  }
}
