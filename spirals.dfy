/** The two coordinate orders used by the "inside" and "outside" reflow modes:
    every cell of a rows x cols grid sorted by distance from the centre, and the
    clockwise spiral that peels the grid from its outer ring inward. */
module Spirals {
  import opened Grid

  /** `p` is a cell of a `rows x cols` grid. */
  predicate InGrid(p: Point, rows: int, cols: int)
  {
    0 <= p.row < rows && 0 <= p.col < cols
  }

  /** Every entry of `s` is a cell of the grid. */
  predicate OnGrid(s: seq<Point>, rows: int, cols: int)
  {
    forall k :: 0 <= k < |s| ==> InGrid(s[k], rows, cols)
  }

  /** No coordinate occurs twice. */
  predicate Distinct(s: seq<Point>)
  {
    forall i, j :: 0 <= i < j < |s| ==> s[i] != s[j]
  }

  /** `s` lists every cell of the grid exactly once. */
  predicate IsEnumeration(s: seq<Point>, rows: int, cols: int)
  {
    Distinct(s)
    && OnGrid(s, rows, cols)
    && (forall r, c :: 0 <= r < rows && 0 <= c < cols ==> Point(r, c) in s)
  }

  lemma DistinctSnoc(s: seq<Point>, p: Point)
    requires Distinct(s) && p !in s
    ensures Distinct(s + [p])
  {
  }

  /* ---------------- Centre-out order ---------------- */

  /** `x * x`, written as a sum of odd numbers so that the ordering proofs
      stay within linear arithmetic; `SqIsProduct` connects the two. */
  function Sq(x: int): nat
    decreases if x < 0 then 1 - x else x
  {
    if x < 0 then Sq(-x) else if x == 0 then 0 else Sq(x - 1) + 2 * x - 1
  }

  lemma {:induction false} SqIsProduct(x: int)
    ensures Sq(x) == x * x
    decreases if x < 0 then 1 - x else x
  {
    if x < 0 {
      SqIsProduct(-x);
      assert (-x) * (-x) == x * x;
    } else if x > 0 {
      SqIsProduct(x - 1);
      assert (x - 1) * (x - 1) == x * x - 2 * x + 1;
    }
  }

  /** Four times the squared Euclidean distance from `p` to the grid's centre
      `((rows - 1) / 2, (cols - 1) / 2)`: an integer that orders cells exactly
      as their distances from the centre do. */
  function CentreKey(p: Point, rows: int, cols: int): int
  {
    Sq(2 * p.row - (rows - 1)) + Sq(2 * p.col - (cols - 1))
  }

  function RealSq(x: real): real { x * x }

  /** The key equals four times the squared distance to the centre, computed
      over the reals. */
  lemma CentreKeyIsScaledDistance(p: Point, rows: int, cols: int)
    ensures CentreKey(p, rows, cols) as real
            == 4.0 * (RealSq(p.row as real - (rows - 1) as real / 2.0) + RealSq(p.col as real - (cols - 1) as real / 2.0))
  {
    ScaledSquare(p.row, rows - 1);
    ScaledSquare(p.col, cols - 1);
  }

  lemma ScaledSquare(x: int, n: int)
    ensures Sq(2 * x - n) as real == 4.0 * RealSq(x as real - n as real / 2.0)
  {
    var d := x as real - n as real / 2.0;
    var m := 2 * x - n;
    SqIsProduct(m);
    CastSquare(m);
    assert m as real == 2.0 * d;
    RealSqDouble(d);
  }

  lemma CastSquare(m: int)
    ensures (m * m) as real == RealSq(m as real)
  {
  }

  lemma RealSqDouble(d: real)
    ensures RealSq(2.0 * d) == 4.0 * RealSq(d)
  {
  }

  /** The comparator of the centre-out sort: nearer the centre first, then the
      smaller row, then the smaller column. */
  predicate CentreBefore(a: Point, b: Point, rows: int, cols: int)
  {
    var ka, kb := CentreKey(a, rows, cols), CentreKey(b, rows, cols);
    ka < kb || (ka == kb && (a.row < b.row || (a.row == b.row && a.col < b.col)))
  }

  /** `CentreBefore` is a strict total order on points. */
  lemma CentreBeforeOrder(a: Point, b: Point, c: Point, rows: int, cols: int)
    ensures !CentreBefore(a, a, rows, cols)
    ensures a != b ==> (CentreBefore(a, b, rows, cols) <==> !CentreBefore(b, a, rows, cols))
    ensures CentreBefore(a, b, rows, cols) && CentreBefore(b, c, rows, cols) ==> CentreBefore(a, c, rows, cols)
  {
  }

  /** Every entry comes strictly before every later one. */
  predicate CentreSorted(s: seq<Point>, rows: int, cols: int)
  {
    forall i, j :: 0 <= i < j < |s| ==> CentreBefore(s[i], s[j], rows, cols)
  }

  /** `p` placed into the list `s` just before the first entry that does not
      come before it. */
  function Insert(p: Point, s: seq<Point>, rows: int, cols: int): (r: seq<Point>)
    ensures multiset(r) == multiset(s) + multiset{p}
  {
    if s == [] then [p]
    else if !CentreBefore(s[0], p, rows, cols) then [p] + s
    else
      assert s == [s[0]] + s[1..];
      [s[0]] + Insert(p, s[1..], rows, cols)
  }

  /** Inserting a new cell into a sorted list keeps it sorted. */
  lemma {:induction false} InsertSorted(p: Point, s: seq<Point>, rows: int, cols: int)
    requires CentreSorted(s, rows, cols) && p !in s
    ensures CentreSorted(Insert(p, s, rows, cols), rows, cols)
  {
    if s == [] {
    } else if !CentreBefore(s[0], p, rows, cols) {
      CentreBeforeOrder(p, s[0], p, rows, cols);
      assert p != s[0];
      forall j | 0 <= j < |s|
        ensures CentreBefore(p, s[j], rows, cols)
      {
        if j > 0 {
          CentreBeforeOrder(p, s[0], s[j], rows, cols);
        }
      }
      InsertFront(p, s, rows, cols);
    } else {
      assert s == [s[0]] + s[1..];
      SortedTail(s, rows, cols);
      InsertSorted(p, s[1..], rows, cols);
      InsertBounded(s[0], p, s[1..], rows, cols);
      InsertFront(s[0], Insert(p, s[1..], rows, cols), rows, cols);
    }
  }

  /** A cell that comes before `p` and every entry of `s` comes before every
      entry of `Insert(p, s)`. */
  lemma {:induction false} InsertBounded(q: Point, p: Point, s: seq<Point>, rows: int, cols: int)
    requires CentreBefore(q, p, rows, cols)
    requires forall j :: 0 <= j < |s| ==> CentreBefore(q, s[j], rows, cols)
    ensures forall j :: 0 <= j < |Insert(p, s, rows, cols)| ==> CentreBefore(q, Insert(p, s, rows, cols)[j], rows, cols)
  {
    if s != [] && CentreBefore(s[0], p, rows, cols) {
      InsertBounded(q, p, s[1..], rows, cols);
      var t := Insert(p, s[1..], rows, cols);
      assert Insert(p, s, rows, cols) == [s[0]] + t;
    }
  }

  /** A cell that comes before every entry of a sorted list can head it. */
  lemma InsertFront(p: Point, s: seq<Point>, rows: int, cols: int)
    requires CentreSorted(s, rows, cols)
    requires forall j :: 0 <= j < |s| ==> CentreBefore(p, s[j], rows, cols)
    ensures CentreSorted([p] + s, rows, cols)
  {
    forall i, j | 0 <= i < j < |[p] + s|
      ensures CentreBefore(([p] + s)[i], ([p] + s)[j], rows, cols)
    {
      if i > 0 {
        assert ([p] + s)[i] == s[i - 1] && ([p] + s)[j] == s[j - 1];
      }
    }
  }

  /** The centre-out order of `s`: what sorting with the comparator produces. */
  function SortByCentre(s: seq<Point>, rows: int, cols: int): (r: seq<Point>)
    ensures multiset(r) == multiset(s)
  {
    if s == [] then []
    else
      assert s == [s[0]] + s[1..];
      Insert(s[0], SortByCentre(s[1..], rows, cols), rows, cols)
  }

  /** Sorting a list without repeats yields a strictly sorted list. */
  lemma {:induction false} SortByCentreSorted(s: seq<Point>, rows: int, cols: int)
    requires Distinct(s)
    ensures CentreSorted(SortByCentre(s, rows, cols), rows, cols)
  {
    if s != [] {
      assert s == [s[0]] + s[1..];
      var t := SortByCentre(s[1..], rows, cols);
      assert Distinct(s[1..]);
      SortByCentreSorted(s[1..], rows, cols);
      assert forall k :: 0 <= k < |s[1..]| ==> s[1..][k] == s[k + 1] != s[0];
      assert s[0] !in s[1..];
      assert s[0] !in multiset(s[1..]);
      assert s[0] !in t;
      InsertSorted(s[0], t, rows, cols);
    }
  }

  /** A list sorted strictly by the comparator is determined by its contents:
      any correct sort of the same cells yields the same list. */
  lemma {:induction false} SortedUnique(a: seq<Point>, b: seq<Point>, rows: int, cols: int)
    requires CentreSorted(a, rows, cols) && CentreSorted(b, rows, cols)
    requires multiset(a) == multiset(b)
    ensures a == b
  {
    assert |a| == |multiset(a)| == |multiset(b)| == |b|;
    if a != [] {
      SortedHeads(a, b, rows, cols);
      SortedTail(a, rows, cols);
      SortedTail(b, rows, cols);
      SortedUnique(a[1..], b[1..], rows, cols);
    }
  }

  lemma SortedTail(a: seq<Point>, rows: int, cols: int)
    requires CentreSorted(a, rows, cols) && a != []
    ensures CentreSorted(a[1..], rows, cols)
    ensures multiset(a[1..]) == multiset(a) - multiset{a[0]}
  {
    assert a == [a[0]] + a[1..];
  }

  /** Two sorted permutations of each other start with the same entry. */
  lemma SortedHeads(a: seq<Point>, b: seq<Point>, rows: int, cols: int)
    requires CentreSorted(a, rows, cols) && CentreSorted(b, rows, cols)
    requires multiset(a) == multiset(b) && a != [] && b != []
    ensures a[0] == b[0]
  {
    assert a[0] in multiset(b) && b[0] in multiset(a);
    var i :| 0 <= i < |a| && a[i] == b[0];
    var j :| 0 <= j < |b| && b[j] == a[0];
    if i != 0 && j != 0 {
      CentreBeforeOrder(a[0], b[0], a[0], rows, cols);
      assert false;
    }
  }

  /** Sorted lists hold no repeats. */
  lemma SortedDistinct(s: seq<Point>, rows: int, cols: int)
    requires CentreSorted(s, rows, cols)
    ensures Distinct(s)
  {
    forall i, j | 0 <= i < j < |s|
      ensures s[i] != s[j]
    {
      CentreBeforeOrder(s[i], s[j], s[j], rows, cols);
    }
  }

  /** The cells of row `r`, left to right. */
  function RowCellList(r: int, cols: nat): (s: seq<Point>)
    ensures |s| == cols
  {
    seq(cols, c requires 0 <= c < cols => Point(r, c))
  }

  /** The cells of rows `0..r-1` in row-major order (the order of `forEach` over rows, then tiles). */
  function RowMajorCells(r: nat, cols: nat): (s: seq<Point>)
    ensures |s| == r * cols && OnGrid(s, r, cols)
  {
    if r == 0 then [] else RowMajorCells(r - 1, cols) + RowCellList(r - 1, cols)
  }

  /** The row-major loop of `generateSpiralFromCenter`: one row of cells, left to right. */
  method PushRowCells(coords: seq<Point>, rows: nat, cols: nat, r: nat) returns (coords': seq<Point>)
    requires r < rows
    requires DistinctCells(coords, rows, cols)
    requires forall p :: InGrid(p, rows, cols) ==> (p in coords <==> p.row < r)
    ensures coords' == coords + RowCellList(r, cols)
    ensures DistinctCells(coords', rows, cols)
    ensures forall p :: InGrid(p, rows, cols) ==> (p in coords' <==> p.row < r + 1)
  {
    coords' := coords;
    var c := 0;
    while c < cols
      invariant 0 <= c <= cols
      invariant coords' == coords + RowCellList(r, cols)[..c]
      invariant DistinctCells(coords', rows, cols)
      invariant forall p :: InGrid(p, rows, cols) ==> (p in coords' <==> p.row < r || (p.row == r && p.col < c))
    {
      DistinctSnoc(coords', Point(r, c));
      coords' := coords' + [Point(r, c)];
      c := c + 1;
    }
  }

  /** `generateSpiralFromCenter(rows, cols)`: every cell, nearest the centre
      first, ties broken by row and then by column. */
  method SpiralFromCenter(rows: nat, cols: nat) returns (coords: seq<Point>)
    ensures IsEnumeration(coords, rows, cols)
    ensures CentreSorted(coords, rows, cols)
  {
    var rowMajor: seq<Point> := [];
    var r := 0;
    while r < rows
      invariant 0 <= r <= rows
      invariant rowMajor == RowMajorCells(r, cols)
      invariant DistinctCells(rowMajor, rows, cols)
      invariant forall p :: InGrid(p, rows, cols) ==> (p in rowMajor <==> p.row < r)
    {
      rowMajor := PushRowCells(rowMajor, rows, cols, r);
      r := r + 1;
    }
    assert forall p :: InGrid(p, rows, cols) ==> p in rowMajor;
    coords := SortByCentre(rowMajor, rows, cols);
    SortedEnumeration(rowMajor, rows, cols);
  }

  /** Sorting a repeat-free list that holds every cell gives an enumeration
      in centre order. */
  lemma SortedEnumeration(s: seq<Point>, rows: nat, cols: nat)
    requires DistinctCells(s, rows, cols)
    requires forall p :: InGrid(p, rows, cols) ==> p in s
    ensures IsEnumeration(SortByCentre(s, rows, cols), rows, cols)
    ensures CentreSorted(SortByCentre(s, rows, cols), rows, cols)
  {
    var t := SortByCentre(s, rows, cols);
    SortByCentreSorted(s, rows, cols);
    SortedDistinct(t, rows, cols);
    forall k | 0 <= k < |t|
      ensures InGrid(t[k], rows, cols)
    {
      assert t[k] in multiset(s);
    }
    forall r, c | 0 <= r < rows && 0 <= c < cols
      ensures Point(r, c) in t
    {
      assert InGrid(Point(r, c), rows, cols);
      assert Point(r, c) in multiset(s);
    }
  }

  /* ---------------- Outside-in spiral ---------------- */

  /** The ring of the grid a cell lies on: 0 for the outer ring, 1 for the next, ... */
  function Depth(p: Point, rows: int, cols: int): int
  {
    Min(Min(p.row, p.col), Min(rows - 1 - p.row, cols - 1 - p.col))
  }

  /** `p` lies in the rectangle of rows `top..bottom` and columns `left..right`. */
  predicate Inside(p: Point, top: int, left: int, bottom: int, right: int)
  {
    top <= p.row <= bottom && left <= p.col <= right
  }

  /** Successive entries never move to an outer ring. */
  predicate OutsideIn(s: seq<Point>, rows: int, cols: int)
  {
    forall i :: 0 < i < |s| ==> Depth(s[i - 1], rows, cols) <= Depth(s[i], rows, cols)
  }

  /** The entries of `s` are distinct cells of the grid. */
  predicate DistinctCells(s: seq<Point>, rows: int, cols: int)
  {
    Distinct(s) && OnGrid(s, rows, cols)
  }

  /** `coords` holds, without repetition and from the outside in, exactly the
      cells outside the rectangle `top..bottom` x `left..right`, and it has not
      gone past ring `k`. */
  ghost predicate Peeled(coords: seq<Point>, rows: int, cols: int, k: int,
                         top: int, left: int, bottom: int, right: int)
  {
    DistinctCells(coords, rows, cols) && OutsideIn(coords, rows, cols)
    && (coords != [] ==> Depth(coords[|coords| - 1], rows, cols) <= k)
    && forall p :: InGrid(p, rows, cols) ==> (p in coords <==> !Inside(p, top, left, bottom, right))
  }

  /** The rectangle lies within ring `k` and deeper. */
  predicate WithinRing(rows: int, cols: int, k: int, top: int, left: int, bottom: int, right: int)
  {
    0 <= k <= top && k <= left && bottom <= rows - 1 - k && right <= cols - 1 - k
  }

  /** Cells `(r, from)`, `(r, from + 1)`, ..., `(r, upTo)`; empty when `upTo < from`. */
  function RowRun(r: int, from: int, upTo: int): seq<Point>
    decreases upTo - from
  {
    if upTo < from then [] else RowRun(r, from, upTo - 1) + [Point(r, upTo)]
  }

  /** Cells `(r, from)`, `(r, from - 1)`, ..., `(r, downTo)`; empty when `from < downTo`. */
  function RowRunBack(r: int, from: int, downTo: int): seq<Point>
    decreases from - downTo
  {
    if from < downTo then [] else RowRunBack(r, from, downTo + 1) + [Point(r, downTo)]
  }

  /** Cells `(from, c)`, `(from + 1, c)`, ..., `(upTo, c)`; empty when `upTo < from`. */
  function ColumnRun(c: int, from: int, upTo: int): seq<Point>
    decreases upTo - from
  {
    if upTo < from then [] else ColumnRun(c, from, upTo - 1) + [Point(upTo, c)]
  }

  /** Cells `(from, c)`, `(from - 1, c)`, ..., `(downTo, c)`; empty when `from < downTo`. */
  function ColumnRunBack(c: int, from: int, downTo: int): seq<Point>
    decreases from - downTo
  {
    if from < downTo then [] else ColumnRunBack(c, from, downTo + 1) + [Point(downTo, c)]
  }

  /** One clockwise lap of the rectangle `top..bottom` x `left..right`: the top
      row left to right, the right column below it top to bottom, then, while
      rows remain, the bottom row right to left and, while columns remain, the
      left column bottom to top. */
  function Lap(top: int, left: int, bottom: int, right: int): seq<Point>
  {
    var top', right' := top + 1, right - 1;
    var bottom' := if top' <= bottom then bottom - 1 else bottom;
    RowRun(top, left, right) + ColumnRun(right, top', bottom)
    + (if top' <= bottom then RowRunBack(bottom, right', left) else [])
    + (if left <= right' then ColumnRunBack(left, bottom', top') else [])
  }

  /** The cells the spiral lists from the rectangle `top..bottom` x `left..right`
      on: one lap, then the spiral of the rectangle that is left. */
  function SpiralRings(top: int, left: int, bottom: int, right: int): seq<Point>
    decreases if top <= bottom && left <= right then bottom - top + right - left + 2 else 0
  {
    if !(top <= bottom && left <= right) then []
    else
      var top', right' := top + 1, right - 1;
      var bottom' := if top' <= bottom then bottom - 1 else bottom;
      var left' := if left <= right' then left + 1 else left;
      Lap(top, left, bottom, right) + SpiralRings(top', left', bottom', right')
  }

  /** The outside-in clockwise spiral of a `rows x cols` grid. */
  function OutsideSpiral(rows: int, cols: int): seq<Point>
  {
    SpiralRings(0, 0, rows - 1, cols - 1)
  }

  /** The four sides of `Lap`, each empty when the source skips it. */
  function LapSides(top: int, left: int, bottom: int, right: int): (seq<Point>, seq<Point>, seq<Point>, seq<Point>)
  {
    var top', right' := top + 1, right - 1;
    var bottom' := if top' <= bottom then bottom - 1 else bottom;
    (RowRun(top, left, right), ColumnRun(right, top', bottom),
     if top' <= bottom then RowRunBack(bottom, right', left) else [],
     if left <= right' then ColumnRunBack(left, bottom', top') else [])
  }

  /** After one lap the spiral goes on from the shrunken rectangle. */
  lemma LapDone(before: seq<Point>, coords: seq<Point>, top: int, left: int, bottom: int, right: int, spiral: seq<Point>)
    requires top <= bottom && left <= right
    requires before + SpiralRings(top, left, bottom, right) == spiral
    requires var (s1, s2, s3, s4) := LapSides(top, left, bottom, right); coords == before + (s1 + s2 + s3 + s4)
    ensures var bottom' := if top + 1 <= bottom then bottom - 1 else bottom;
            var left' := if left <= right - 1 then left + 1 else left;
            coords + SpiralRings(top + 1, left', bottom', right - 1) == spiral
  {
    var bottom' := if top + 1 <= bottom then bottom - 1 else bottom;
    var left' := if left <= right - 1 then left + 1 else left;
    var lap := Lap(top, left, bottom, right);
    AppendAssoc(before, lap, SpiralRings(top + 1, left', bottom', right - 1));
  }

  lemma AppendAssoc(a: seq<Point>, b: seq<Point>, c: seq<Point>)
    ensures (a + b) + c == a + (b + c)
  {
  }

  lemma AppendEmpty(a: seq<Point>)
    ensures a + [] == a
  {
  }

  /** The cells of a forward or backward run along a row or a column, each
      listed once. */
  lemma {:induction false} RowRunCells(r: int, from: int, upTo: int)
    ensures forall p :: p in RowRun(r, from, upTo) <==> p.row == r && from <= p.col <= upTo
    ensures Distinct(RowRun(r, from, upTo))
    decreases upTo - from
  {
    if from <= upTo {
      RowRunCells(r, from, upTo - 1);
      DistinctSnoc(RowRun(r, from, upTo - 1), Point(r, upTo));
    }
  }

  lemma {:induction false} RowRunBackCells(r: int, from: int, downTo: int)
    ensures forall p :: p in RowRunBack(r, from, downTo) <==> p.row == r && downTo <= p.col <= from
    ensures Distinct(RowRunBack(r, from, downTo))
    decreases from - downTo
  {
    if downTo <= from {
      RowRunBackCells(r, from, downTo + 1);
      DistinctSnoc(RowRunBack(r, from, downTo + 1), Point(r, downTo));
    }
  }

  lemma {:induction false} ColumnRunCells(c: int, from: int, upTo: int)
    ensures forall p :: p in ColumnRun(c, from, upTo) <==> p.col == c && from <= p.row <= upTo
    ensures Distinct(ColumnRun(c, from, upTo))
    decreases upTo - from
  {
    if from <= upTo {
      ColumnRunCells(c, from, upTo - 1);
      DistinctSnoc(ColumnRun(c, from, upTo - 1), Point(upTo, c));
    }
  }

  lemma {:induction false} ColumnRunBackCells(c: int, from: int, downTo: int)
    ensures forall p :: p in ColumnRunBack(c, from, downTo) <==> p.col == c && downTo <= p.row <= from
    ensures Distinct(ColumnRunBack(c, from, downTo))
    decreases from - downTo
  {
    if downTo <= from {
      ColumnRunBackCells(c, from, downTo + 1);
      DistinctSnoc(ColumnRunBack(c, from, downTo + 1), Point(downTo, c));
    }
  }

  /** Appending fresh cells of ring `k`, after entries on rings at most `k`,
      keeps the list distinct and outside-in. */
  lemma PushRun(s: seq<Point>, run: seq<Point>, rows: int, cols: int, k: int)
    requires DistinctCells(s, rows, cols) && OutsideIn(s, rows, cols)
    requires s != [] ==> Depth(s[|s| - 1], rows, cols) <= k
    requires Distinct(run)
    requires forall i :: 0 <= i < |run| ==> InGrid(run[i], rows, cols) && Depth(run[i], rows, cols) == k && run[i] !in s
    ensures DistinctCells(s + run, rows, cols) && OutsideIn(s + run, rows, cols)
    ensures s + run != [] ==> Depth((s + run)[|s + run| - 1], rows, cols) <= k
  {
    PushRunDistinct(s, run, rows, cols);
    PushRunInward(s, run, rows, cols, k);
  }

  lemma PushRunDistinct(s: seq<Point>, run: seq<Point>, rows: int, cols: int)
    requires DistinctCells(s, rows, cols) && Distinct(run)
    requires forall i :: 0 <= i < |run| ==> InGrid(run[i], rows, cols) && run[i] !in s
    ensures DistinctCells(s + run, rows, cols)
  {
    var t := s + run;
    forall i, j | 0 <= i < j < |t|
      ensures t[i] != t[j]
    {
      if |s| <= i {
        assert t[i] == run[i - |s|] && t[j] == run[j - |s|];
      } else if |s| <= j {
        assert t[i] in s && t[j] == run[j - |s|];
      }
    }
  }

  lemma PushRunInward(s: seq<Point>, run: seq<Point>, rows: int, cols: int, k: int)
    requires OutsideIn(s, rows, cols)
    requires s != [] ==> Depth(s[|s| - 1], rows, cols) <= k
    requires forall i :: 0 <= i < |run| ==> Depth(run[i], rows, cols) == k
    ensures OutsideIn(s + run, rows, cols)
    ensures s + run != [] ==> Depth((s + run)[|s + run| - 1], rows, cols) <= k
  {
    var t := s + run;
    forall i | 0 < i < |t|
      ensures Depth(t[i - 1], rows, cols) <= Depth(t[i], rows, cols)
    {
      if |s| < i {
        assert t[i - 1] == run[i - 1 - |s|] && t[i] == run[i - |s|];
      } else if |s| == i {
        assert t[i - 1] == s[|s| - 1] && t[i] == run[0];
      }
    }
    if run != [] {
      assert t[|t| - 1] == run[|run| - 1];
    }
  }

  /** Listing the top row of the remaining rectangle peels it from the top. */
  lemma TopRowPeeled(coords: seq<Point>, rows: int, cols: int, k: int,
                     top: int, left: int, bottom: int, right: int)
    requires Peeled(coords, rows, cols, k, top, left, bottom, right)
    requires WithinRing(rows, cols, k, top, left, bottom, right) && top == k && top <= bottom && left <= right
    ensures Peeled(coords + RowRun(top, left, right), rows, cols, k, top + 1, left, bottom, right)
  {
    var run := RowRun(top, left, right);
    RowRunCells(top, left, right);
    forall i | 0 <= i < |run|
      ensures InGrid(run[i], rows, cols) && Depth(run[i], rows, cols) == k && run[i] !in coords
    {
      assert run[i] in run;
    }
    PushRun(coords, run, rows, cols, k);
  }

  /** Listing the right column of the remaining rectangle peels it from the right. */
  lemma RightColumnPeeled(coords: seq<Point>, rows: int, cols: int, k: int,
                          top: int, left: int, bottom: int, right: int)
    requires Peeled(coords, rows, cols, k, top, left, bottom, right)
    requires WithinRing(rows, cols, k, top - 1, left, bottom, right) && right == cols - 1 - k && left <= right
    ensures Peeled(coords + ColumnRun(right, top, bottom), rows, cols, k, top, left, bottom, right - 1)
  {
    var run := ColumnRun(right, top, bottom);
    ColumnRunCells(right, top, bottom);
    forall i | 0 <= i < |run|
      ensures InGrid(run[i], rows, cols) && Depth(run[i], rows, cols) == k && run[i] !in coords
    {
      assert run[i] in run;
    }
    PushRun(coords, run, rows, cols, k);
  }

  /** Listing the bottom row of the remaining rectangle peels it from the bottom. */
  lemma BottomRowPeeled(coords: seq<Point>, rows: int, cols: int, k: int,
                        top: int, left: int, bottom: int, right: int)
    requires Peeled(coords, rows, cols, k, top, left, bottom, right)
    requires WithinRing(rows, cols, k, top - 1, left, bottom, right + 1) && bottom == rows - 1 - k && top <= bottom
    ensures Peeled(coords + RowRunBack(bottom, right, left), rows, cols, k, top, left, bottom - 1, right)
  {
    var run := RowRunBack(bottom, right, left);
    RowRunBackCells(bottom, right, left);
    forall i | 0 <= i < |run|
      ensures InGrid(run[i], rows, cols) && Depth(run[i], rows, cols) == k && run[i] !in coords
    {
      assert run[i] in run;
    }
    PushRun(coords, run, rows, cols, k);
  }

  /** Listing the left column of the remaining rectangle peels it from the left. */
  lemma LeftColumnPeeled(coords: seq<Point>, rows: int, cols: int, k: int,
                         top: int, left: int, bottom: int, right: int)
    requires Peeled(coords, rows, cols, k, top, left, bottom, right)
    requires WithinRing(rows, cols, k, top - 1, left, bottom, right) && left == k && left <= right
    ensures Peeled(coords + ColumnRunBack(left, bottom, top), rows, cols, k, top, left + 1, bottom, right)
  {
    var run := ColumnRunBack(left, bottom, top);
    ColumnRunBackCells(left, bottom, top);
    forall i | 0 <= i < |run|
      ensures InGrid(run[i], rows, cols) && Depth(run[i], rows, cols) == k && run[i] !in coords
    {
      assert run[i] in run;
    }
    PushRun(coords, run, rows, cols, k);
  }

  /** The first loop of a ring: the top row, left to right. */
  method PushTopRow(coords: seq<Point>, top: int, left: int, right: int) returns (coords': seq<Point>)
    ensures coords' == coords + RowRun(top, left, right)
  {
    coords' := coords;
    var j := left;
    while j <= right
      invariant (if left <= right then left <= j <= right + 1 else j == left)
      invariant coords' == coords + RowRun(top, left, j - 1)
    {
      coords' := coords' + [Point(top, j)];
      j := j + 1;
    }
  }

  /** The second loop of a ring: the right column, top to bottom. */
  method PushRightColumn(coords: seq<Point>, top: int, bottom: int, right: int) returns (coords': seq<Point>)
    ensures coords' == coords + ColumnRun(right, top, bottom)
  {
    coords' := coords;
    var i := top;
    while i <= bottom
      invariant (if top <= bottom then top <= i <= bottom + 1 else i == top)
      invariant coords' == coords + ColumnRun(right, top, i - 1)
    {
      coords' := coords' + [Point(i, right)];
      i := i + 1;
    }
  }

  /** The third loop of a ring: the bottom row, right to left. */
  method PushBottomRow(coords: seq<Point>, bottom: int, right: int, left: int) returns (coords': seq<Point>)
    ensures coords' == coords + RowRunBack(bottom, right, left)
  {
    coords' := coords;
    var j := right;
    while j >= left
      invariant (if left <= right then left - 1 <= j <= right else j == right)
      invariant coords' == coords + RowRunBack(bottom, right, j + 1)
    {
      coords' := coords' + [Point(bottom, j)];
      j := j - 1;
    }
  }

  /** The last loop of a ring: the left column, bottom to top. */
  method PushLeftColumn(coords: seq<Point>, bottom: int, top: int, left: int) returns (coords': seq<Point>)
    ensures coords' == coords + ColumnRunBack(left, bottom, top)
  {
    coords' := coords;
    var i := bottom;
    while i >= top
      invariant (if top <= bottom then top - 1 <= i <= bottom else i == bottom)
      invariant coords' == coords + ColumnRunBack(left, bottom, i + 1)
    {
      coords' := coords' + [Point(i, left)];
      i := i - 1;
    }
  }

  /** `generateSpiralFromOutside(rows, cols)`: all cells, ring by ring from the
      outside in, each ring walked clockwise from its top-left corner. */
  method SpiralFromOutside(rows: nat, cols: nat) returns (coords: seq<Point>)
    ensures coords == OutsideSpiral(rows, cols)
    ensures IsEnumeration(coords, rows, cols)
    ensures OutsideIn(coords, rows, cols)
  {
    coords := [];
    var top, left, bottom, right := 0, 0, rows - 1, cols - 1;
    while top <= bottom && left <= right
      invariant coords + SpiralRings(top, left, bottom, right) == OutsideSpiral(rows, cols)
      decreases bottom - top + 1
    {
      ghost var before, t0, l0, b0, r0 := coords, top, left, bottom, right;
      ghost var (s1, s2, s3, s4) := LapSides(top, left, bottom, right);
      coords := PushTopRow(coords, top, left, right);
      top := top + 1;
      coords := PushRightColumn(coords, top, bottom, right);
      right := right - 1;
      AppendAssoc(before, s1, s2);
      if top <= bottom {
        coords := PushBottomRow(coords, bottom, right, left);
        bottom := bottom - 1;
      } else {
        AppendEmpty(coords);
      }
      AppendAssoc(before, s1 + s2, s3);
      if left <= right {
        coords := PushLeftColumn(coords, bottom, top, left);
        left := left + 1;
      } else {
        AppendEmpty(coords);
      }
      AppendAssoc(before, s1 + s2 + s3, s4);
      LapDone(before, coords, t0, l0, b0, r0, OutsideSpiral(rows, cols));
    }
    AppendEmpty(coords);
    OutsideSpiralOrder(rows, cols);
  }

  /** The outside-in spiral lists every cell once and never moves outward. */
  lemma OutsideSpiralOrder(rows: nat, cols: nat)
    ensures IsEnumeration(OutsideSpiral(rows, cols), rows, cols)
    ensures OutsideIn(OutsideSpiral(rows, cols), rows, cols)
  {
    var none: seq<Point> := [];
    var spiral := SpiralRings(0, 0, rows - 1, cols - 1);
    assert Peeled(none, rows, cols, 0, 0, 0, rows - 1, cols - 1);
    SpiralRingsPeel(none, rows, cols, 0, 0, rows - 1, cols - 1);
    assert none + spiral == spiral;
    SameOrder(none + spiral, OutsideSpiral(rows, cols), rows, cols);
  }

  /** Appending the spiral of the remaining rectangle to the cells peeled so
      far completes an outside-in enumeration of the grid. */
  lemma {:induction false} SpiralRingsPeel(coords: seq<Point>, rows: int, cols: int,
                                           top: int, left: int, bottom: int, right: int)
    requires 0 <= top
    requires top <= bottom && left <= right ==> left == top && bottom == rows - 1 - top && right == cols - 1 - top
    requires Peeled(coords, rows, cols, top, top, left, bottom, right)
    ensures IsEnumeration(coords + SpiralRings(top, left, bottom, right), rows, cols)
    ensures OutsideIn(coords + SpiralRings(top, left, bottom, right), rows, cols)
    decreases if top <= bottom && left <= right then bottom - top + right - left + 2 else 0
  {
    if !(top <= bottom && left <= right) {
      SpiralRingsDone(coords, rows, cols, top, left, bottom, right);
    } else {
      var top', right' := top + 1, right - 1;
      var bottom' := if top' <= bottom then bottom - 1 else bottom;
      var left' := if left <= right' then left + 1 else left;
      var lap := Lap(top, left, bottom, right);
      var rest := SpiralRings(top', left', bottom', right');
      var peeled := coords + lap;
      LapPeeled(coords, rows, cols, top, left, bottom, right);
      SpiralRingsPeel(peeled, rows, cols, top', left', bottom', right');
      AppendAssoc(coords, lap, rest);
      SameOrder(peeled + rest, coords + SpiralRings(top, left, bottom, right), rows, cols);
    }
  }

  /** With the rectangle empty, the peeled cells are the whole spiral. */
  lemma SpiralRingsDone(coords: seq<Point>, rows: int, cols: int,
                        top: int, left: int, bottom: int, right: int)
    requires !(top <= bottom && left <= right)
    requires Peeled(coords, rows, cols, top, top, left, bottom, right)
    ensures IsEnumeration(coords + SpiralRings(top, left, bottom, right), rows, cols)
    ensures OutsideIn(coords + SpiralRings(top, left, bottom, right), rows, cols)
  {
    AppendEmpty(coords);
    PeeledAll(coords, rows, cols, top, top, left, bottom, right);
  }

  lemma SameOrder(a: seq<Point>, b: seq<Point>, rows: int, cols: int)
    requires a == b && IsEnumeration(a, rows, cols) && OutsideIn(a, rows, cols)
    ensures IsEnumeration(b, rows, cols) && OutsideIn(b, rows, cols)
  {
  }

  /** One clockwise lap of ring `top` peels that ring off the rectangle. */
  lemma LapPeeled(coords: seq<Point>, rows: int, cols: int, top: int, left: int, bottom: int, right: int)
    requires 0 <= top <= bottom && left <= right
    requires left == top && bottom == rows - 1 - top && right == cols - 1 - top
    requires Peeled(coords, rows, cols, top, top, left, bottom, right)
    ensures var bottom' := if top + 1 <= bottom then bottom - 1 else bottom;
            var left' := if left <= right - 1 then left + 1 else left;
            Peeled(coords + Lap(top, left, bottom, right), rows, cols, top + 1, top + 1, left', bottom', right - 1)
  {
    var k := top;
    var top', right' := top + 1, right - 1;
    var bottom' := if top' <= bottom then bottom - 1 else bottom;
    var left' := if left <= right' then left + 1 else left;
    var s1, s2 := RowRun(top, left, right), ColumnRun(right, top', bottom);
    var s3 := if top' <= bottom then RowRunBack(bottom, right', left) else [];
    var s4 := if left <= right' then ColumnRunBack(left, bottom', top') else [];
    TopRowPeeled(coords, rows, cols, k, top, left, bottom, right);
    RightColumnPeeled(coords + s1, rows, cols, k, top', left, bottom, right);
    var c2 := coords + s1 + s2;
    if top' <= bottom {
      BottomRowPeeled(c2, rows, cols, k, top', left, bottom, right');
    } else {
      AppendEmpty(c2);
    }
    var c3 := c2 + s3;
    if left <= right' {
      LeftColumnPeeled(c3, rows, cols, k, top', left, bottom', right');
    } else {
      AppendEmpty(c3);
    }
    PeeledDeeper(c3 + s4, rows, cols, k, top', left', bottom', right');
    AppendAssoc(coords, s1, s2);
    AppendAssoc(coords, s1 + s2, s3);
    AppendAssoc(coords, s1 + s2 + s3, s4);
  }

  /** Being within ring `k` implies being within any deeper ring. */
  lemma PeeledDeeper(coords: seq<Point>, rows: int, cols: int, k: int,
                     top: int, left: int, bottom: int, right: int)
    requires Peeled(coords, rows, cols, k, top, left, bottom, right) && k <= top
    ensures Peeled(coords, rows, cols, top, top, left, bottom, right)
  {
  }

  /** Once the rectangle is empty every cell has been listed. */
  lemma PeeledAll(coords: seq<Point>, rows: int, cols: int, k: int,
                  top: int, left: int, bottom: int, right: int)
    requires Peeled(coords, rows, cols, k, top, left, bottom, right)
    requires !(top <= bottom && left <= right)
    ensures IsEnumeration(coords, rows, cols) && OutsideIn(coords, rows, cols)
  {
    forall r, c | 0 <= r < rows && 0 <= c < cols
      ensures Point(r, c) in coords
    {
      assert InGrid(Point(r, c), rows, cols);
    }
  }
}
