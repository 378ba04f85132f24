/** Shared data model of the tile-matching rules engine: tiles, grid points and
    the shape of a board (a rows x cols grid of tiles stored row by row). */
module Grid {

  /** One cell's game piece. `value` 0 with `id` -1 marks a placeholder. */
  datatype Tile = Tile(id: int, value: int, isVisible: bool, row: int, col: int)

  /** A grid coordinate (in the augmented space during path finding). */
  datatype Point = Point(row: int, col: int)

  datatype Option<T> = None | Some(value: T)

  function Min(a: int, b: int): int { if a <= b then a else b }

  /** `p` and `q` are 4-neighbours. */
  predicate Adjacent(p: Point, q: Point)
  {
    (p.row == q.row && (q.col == p.col + 1 || q.col == p.col - 1))
    || (p.col == q.col && (q.row == p.row + 1 || q.row == p.row - 1))
  }

  /** The filler that occupies a cell holding no tile. */
  function Placeholder(r: int, c: int): Tile
  {
    Tile(-1, 0, false, r, c)
  }

  /** `t` with its position replaced by `(r, c)`; everything else is kept. */
  function Moved(t: Tile, r: int, c: int): Tile
  {
    t.(row := r, col := c)
  }

  /** `b` has exactly `rows` rows of `cols` tiles each. */
  predicate IsGrid(b: seq<seq<Tile>>, rows: nat, cols: nat)
  {
    |b| == rows && forall r :: 0 <= r < rows ==> |b[r]| == cols
  }

  /** Every tile of `b` records its own cell. */
  predicate Positioned(b: seq<seq<Tile>>)
  {
    forall r, c :: 0 <= r < |b| && 0 <= c < |b[r]| ==> b[r][c].row == r && b[r][c].col == c
  }

  /** Every cell of `b` that shows no tile holds the placeholder for that cell. */
  predicate HiddenArePlaceholders(b: seq<seq<Tile>>)
  {
    forall r, c :: 0 <= r < |b| && 0 <= c < |b[r]| && !b[r][c].isVisible ==> b[r][c] == Placeholder(r, c)
  }

  /** The visible tiles of `ts`, in order (what `filter(t => t.isVisible)` keeps). */
  function VisibleOf(ts: seq<Tile>): (r: seq<Tile>)
    ensures |r| <= |ts|
  {
    if ts == [] then []
    else VisibleOf(ts[..|ts| - 1]) + (if ts[|ts| - 1].isVisible then [ts[|ts| - 1]] else [])
  }

  /** The visible tiles of a whole board, scanned row-major. */
  function VisibleRowMajor(b: seq<seq<Tile>>): seq<Tile>
  {
    if b == [] then [] else VisibleRowMajor(b[..|b| - 1]) + VisibleOf(b[|b| - 1])
  }

  /** Column `j` of `b`, top to bottom. */
  function Column(b: seq<seq<Tile>>, j: nat): seq<Tile>
    requires forall i :: 0 <= i < |b| ==> j < |b[i]|
  {
    seq(|b|, i requires 0 <= i < |b| => b[i][j])
  }

  /** The values of `ts`, in order. */
  function ValuesOf(ts: seq<Tile>): seq<int>
  {
    seq(|ts|, k requires 0 <= k < |ts| => ts[k].value)
  }

  /** The (id, value) identity of each tile of `ts`, in order; position is forgotten. */
  function Identities(ts: seq<Tile>): seq<(int, int)>
  {
    seq(|ts|, k requires 0 <= k < |ts| => (ts[k].id, ts[k].value))
  }

  /** Scanning the first `r` rows is scanning the first `r - 1`, then row `r - 1`. */
  lemma VisibleRowMajorPrefix(b: seq<seq<Tile>>, r: nat)
    requires 0 < r <= |b|
    ensures VisibleRowMajor(b[..r]) == VisibleRowMajor(b[..r - 1]) + VisibleOf(b[r - 1])
  {
    assert b[..r][..r - 1] == b[..r - 1];
  }

  lemma {:induction false} VisibleOfIsVisible(ts: seq<Tile>)
    ensures forall t :: t in VisibleOf(ts) ==> t in ts && t.isVisible
  {
    if ts != [] {
      VisibleOfIsVisible(ts[..|ts| - 1]);
    }
  }

  lemma {:induction false} VisibleOfAllVisible(ts: seq<Tile>)
    requires forall k :: 0 <= k < |ts| ==> ts[k].isVisible
    ensures VisibleOf(ts) == ts
  {
    if ts != [] {
      VisibleOfAllVisible(ts[..|ts| - 1]);
    }
  }

  lemma {:induction false} VisibleOfNoneVisible(ts: seq<Tile>)
    requires forall k :: 0 <= k < |ts| ==> !ts[k].isVisible
    ensures VisibleOf(ts) == []
  {
    if ts != [] {
      VisibleOfNoneVisible(ts[..|ts| - 1]);
    }
  }

  lemma {:induction false} VisibleOfAppend(a: seq<Tile>, b: seq<Tile>)
    ensures VisibleOf(a + b) == VisibleOf(a) + VisibleOf(b)
    decreases |b|
  {
    if b == [] {
      assert a + b == a;
    } else {
      assert (a + b)[..|a + b| - 1] == a + b[..|b| - 1];
      VisibleOfAppend(a, b[..|b| - 1]);
    }
  }
}
