/** The connectivity test: a breadth-first search over the board padded with a
    free ring, whose states are (cell, incoming direction, turns so far) and
    which admits at most two changes of direction. */
module PathFinding {
  import opened Grid

  /** What `findPath` returns. */
  datatype PathResult = PathResult(valid: bool, path: seq<Point>, turns: int)

  /** A queue entry: the cell reached, the direction of the last step (-1 for
      the start, which has none), the turns taken and the points walked. */
  datatype SearchState = SearchState(row: int, col: int, dir: int, turns: int, path: seq<Point>)

  /** A `visited` entry: no state seen yet (the source's `Infinity`), or the
      fewest turns recorded so far. */
  datatype Best = Unseen | Seen(turns: int)

  /** The enforced turn budget (the check `newTurns > 2` skips a move). */
  const MaxTurns: int := 2

  /** Directions are 0 up, 1 right, 2 down, 3 left. */
  function DeltaRow(d: int): int { if d == 0 then -1 else if d == 2 then 1 else 0 }

  function DeltaCol(d: int): int { if d == 1 then 1 else if d == 3 then -1 else 0 }

  function Step(p: Point, d: int): Point
  {
    Point(p.row + DeltaRow(d), p.col + DeltaCol(d))
  }

  /** The direction of the step from `p` to a neighbour `q`. */
  function DirOf(p: Point, q: Point): int
  {
    if q.row < p.row then 0 else if q.col > p.col then 1 else if q.row > p.row then 2 else 3
  }

  /** The number of direction changes along `path`; the first step costs none. */
  function TurnsOf(path: seq<Point>): nat
  {
    if |path| <= 2 then 0
    else
      var n := |path|;
      TurnsOf(path[..n - 1]) + (if DirOf(path[n - 3], path[n - 2]) != DirOf(path[n - 2], path[n - 1]) then 1 else 0)
  }

  /** The direction of the last step of `path`, or -1 when it has none. */
  function LastDir(path: seq<Point>): int
  {
    if |path| < 2 then -1 else DirOf(path[|path| - 2], path[|path| - 1])
  }

  /** A non-empty rectangular board (`board[0].length` is read). */
  predicate WellFormed(board: seq<seq<Tile>>)
  {
    |board| >= 1 && IsGrid(board, |board|, |board[0]|)
  }

  /** `(r, c)` lies in the augmented grid `[0, rows + 1] x [0, cols + 1]`. */
  predicate InAugmented(board: seq<seq<Tile>>, r: int, c: int)
    requires |board| >= 1
  {
    0 <= r <= |board| + 1 && 0 <= c <= |board[0]| + 1
  }

  /** `isCellFree`: the outer ring, the start and the target are free; any
      other cell is free exactly when its tile is hidden. */
  function IsCellFree(r: int, c: int, board: seq<seq<Tile>>, start: Point, target: Point): (free: bool)
    requires WellFormed(board) && InAugmented(board, r, c)
    ensures (r == 0 || r == |board| + 1 || c == 0 || c == |board[0]| + 1) ==> free
    ensures (Point(r, c) == start || Point(r, c) == target) ==> free
    ensures 1 <= r <= |board| && 1 <= c <= |board[0]| && Point(r, c) != start && Point(r, c) != target ==>
              (free <==> !board[r - 1][c - 1].isVisible)
  {
    var rows := |board|;
    var cols := |board[0]|;
    if r == 0 || r == rows + 1 || c == 0 || c == cols + 1 then true
    else if (r == start.row && c == start.col) || (r == target.row && c == target.col) then true
    else !board[r - 1][c - 1].isVisible
  }

  /** A walk from `start` through the augmented grid: each point after the
      first is a 4-neighbour of its predecessor, inside the grid, and free. */
  ghost predicate IsWalk(board: seq<seq<Tile>>, start: Point, target: Point, path: seq<Point>)
    requires WellFormed(board)
  {
    |path| >= 1 && path[0] == start
    && forall i :: 1 <= i < |path| ==>
         Adjacent(path[i - 1], path[i])
         && InAugmented(board, path[i].row, path[i].col)
         && IsCellFree(path[i].row, path[i].col, board, start, target)
  }

  /** A legal connector: a walk from `start` that ends on `target` and turns
      at most `MaxTurns` times. */
  ghost predicate IsRoute(board: seq<seq<Tile>>, start: Point, target: Point, path: seq<Point>)
    requires WellFormed(board)
  {
    IsWalk(board, start, target, path) && path[|path| - 1] == target && TurnsOf(path) <= MaxTurns
  }

  /** A queue entry is consistent with the walk it carries. */
  ghost predicate StateOk(board: seq<seq<Tile>>, start: Point, target: Point, s: SearchState)
    requires WellFormed(board)
  {
    IsWalk(board, start, target, s.path)
    && s.path[|s.path| - 1] == Point(s.row, s.col)
    && s.dir == LastDir(s.path)
    && s.turns == TurnsOf(s.path)
    && s.turns <= MaxTurns
  }

  /** The turn count of the move from `s` in direction `d`. */
  function NextTurns(s: SearchState, d: int): int
  {
    if s.dir != -1 && s.dir != d then s.turns + 1 else s.turns
  }

  /** The move from `s` in direction `d` passes the budget, bounds and free-cell tests. */
  ghost predicate Admissible(board: seq<seq<Tile>>, start: Point, target: Point, s: SearchState, d: int)
    requires WellFormed(board)
  {
    var q := Step(Point(s.row, s.col), d);
    NextTurns(s, d) <= MaxTurns
    && InAugmented(board, q.row, q.col)
    && IsCellFree(q.row, q.col, board, start, target)
  }

  /** Every admissible move from an enqueued state leads to a (cell,
      direction) some enqueued state holds with no more turns. */
  ghost predicate Closed(board: seq<seq<Tile>>, start: Point, target: Point, all: seq<SearchState>)
    requires WellFormed(board)
  {
    forall i, d :: 0 <= i < |all| && 0 <= d < 4 && Admissible(board, start, target, all[i], d) ==>
      exists j :: 0 <= j < |all| && Holds(all[j], Step(Point(all[i].row, all[i].col), d), d, NextTurns(all[i], d))
  }

  /** `s` sits on `p`, arrived in direction `d`, with at most `t` turns. */
  ghost predicate Holds(s: SearchState, p: Point, d: int, t: int)
  {
    s.row == p.row && s.col == p.col && s.dir == d && s.turns <= t
  }

  /** A step in direction `d` reaches a neighbour, and `DirOf` recovers `d`. */
  lemma StepDir(p: Point, d: int)
    requires 0 <= d < 4
    ensures Adjacent(p, Step(p, d)) && DirOf(p, Step(p, d)) == d
  {
  }

  /** Stepping toward a neighbour lands on it. */
  lemma DirStep(p: Point, q: Point)
    requires Adjacent(p, q)
    ensures 0 <= DirOf(p, q) < 4 && Step(p, DirOf(p, q)) == q
  {
  }

  /** Appending a point adds one turn exactly when it changes direction. */
  lemma TurnsSnoc(path: seq<Point>, q: Point)
    requires |path| >= 1
    ensures TurnsOf(path + [q]) ==
              TurnsOf(path) + (if |path| >= 2 && LastDir(path) != DirOf(path[|path| - 1], q) then 1 else 0)
  {
    var p := path + [q];
    assert p[..|path|] == path;
    if |path| >= 2 {
      assert p[|p| - 3] == path[|path| - 2] && p[|p| - 2] == path[|path| - 1] && p[|p| - 1] == q;
    }
  }

  /** A prefix of a path never has more turns than the path. */
  lemma {:induction false} TurnsPrefix(path: seq<Point>, k: nat)
    requires 1 <= k <= |path|
    ensures TurnsOf(path[..k]) <= TurnsOf(path)
    decreases |path| - k
  {
    if k < |path| {
      TurnsPrefix(path, k + 1);
      assert path[..k + 1][..k] == path[..k];
      TurnsSnoc(path[..k], path[k]);
      assert path[..k] + [path[k]] == path[..k + 1];
    } else {
      assert path[..k] == path;
    }
  }

  /** An admissible move from a consistent state gives a consistent state. */
  lemma ExtendState(board: seq<seq<Tile>>, start: Point, target: Point, s: SearchState, d: int)
    requires WellFormed(board) && 0 <= d < 4
    requires StateOk(board, start, target, s) && Admissible(board, start, target, s, d)
    ensures var q := Step(Point(s.row, s.col), d);
            StateOk(board, start, target, SearchState(q.row, q.col, d, NextTurns(s, d), s.path + [q]))
  {
    var q := Step(Point(s.row, s.col), d);
    var p := s.path + [q];
    StepDir(Point(s.row, s.col), d);
    TurnsSnoc(s.path, q);
    assert p[..|s.path|] == s.path;
    forall i | 1 <= i < |p|
      ensures Adjacent(p[i - 1], p[i]) && InAugmented(board, p[i].row, p[i].col)
              && IsCellFree(p[i].row, p[i].col, board, start, target)
    {
      if i < |s.path| {
        assert p[i - 1] == s.path[i - 1] && p[i] == s.path[i];
      }
    }
  }

  /** The turns of a path's prefix grow by one exactly at a change of direction. */
  lemma TurnsOfPrefixStep(path: seq<Point>, k: nat)
    requires 1 <= k < |path|
    ensures TurnsOf(path[..k + 1]) ==
              TurnsOf(path[..k]) + (if k >= 2 && DirOf(path[k - 2], path[k - 1]) != DirOf(path[k - 1], path[k]) then 1 else 0)
  {
    assert path[..k + 1][..k] == path[..k];
    TurnsSnoc(path[..k], path[k]);
    assert path[..k] + [path[k]] == path[..k + 1];
  }

  /** The k-th step of a walk, taken from a state on the (k-1)-th point, is
      admissible whenever it stays within the turn budget. */
  lemma WalkStepAdmissible(board: seq<seq<Tile>>, start: Point, target: Point,
                           path: seq<Point>, k: nat, s: SearchState)
    requires WellFormed(board) && IsWalk(board, start, target, path)
    requires 1 <= k < |path| && Point(s.row, s.col) == path[k - 1]
    requires NextTurns(s, DirOf(path[k - 1], path[k])) <= MaxTurns
    ensures Step(path[k - 1], DirOf(path[k - 1], path[k])) == path[k]
    ensures Admissible(board, start, target, s, DirOf(path[k - 1], path[k]))
  {
    DirStep(path[k - 1], path[k]);
  }

  /** Along any walk within the budget, each point is held by an enqueued
      state, arrived the same way, with no more turns than the walk so far. */
  lemma {:induction false} ReachAlong(board: seq<seq<Tile>>, start: Point, target: Point,
                                      all: seq<SearchState>, path: seq<Point>, k: nat)
    requires WellFormed(board)
    requires |all| >= 1 && all[0] == SearchState(start.row, start.col, -1, 0, [start])
    requires Closed(board, start, target, all)
    requires IsWalk(board, start, target, path) && TurnsOf(path) <= MaxTurns
    requires 1 <= k < |path|
    ensures exists j :: 0 <= j < |all| && Holds(all[j], path[k], DirOf(path[k - 1], path[k]), TurnsOf(path[..k + 1]))
  {
    var e := DirOf(path[k - 1], path[k]);
    TurnsPrefix(path, k + 1);
    TurnsOfPrefixStep(path, k);
    var i: nat;
    if k == 1 {
      i := 0;
    } else {
      ReachAlong(board, start, target, all, path, k - 1);
      i :| 0 <= i < |all| && Holds(all[i], path[k - 1], DirOf(path[k - 2], path[k - 1]), TurnsOf(path[..k]));
      DirStep(path[k - 2], path[k - 1]);
    }
    WalkStepAdmissible(board, start, target, path, k, all[i]);
  }

  /** When every enqueued state has been expanded without meeting the target,
      no legal connector exists. */
  lemma NoRoute(board: seq<seq<Tile>>, start: Point, target: Point, all: seq<SearchState>)
    requires WellFormed(board)
    requires |all| >= 1 && all[0] == SearchState(start.row, start.col, -1, 0, [start])
    requires Closed(board, start, target, all)
    requires forall i :: 0 <= i < |all| ==> Point(all[i].row, all[i].col) != target
    ensures forall p :: !IsRoute(board, start, target, p)
  {
    forall p | IsRoute(board, start, target, p)
      ensures false
    {
      if |p| > 1 {
        ReachAlong(board, start, target, all, p, |p| - 1);
      }
    }
  }

  /** `visited` agrees with the map `seen` of (row, col, dir) to the fewest turns recorded. */
  ghost predicate Tracks(visited: array3<Best>, seen: map<(int, int, int), int>)
    reads visited
  {
    forall r, c, d :: 0 <= r < visited.Length0 && 0 <= c < visited.Length1 && 0 <= d < visited.Length2 ==>
      visited[r, c, d] == (if (r, c, d) in seen then Seen(seen[(r, c, d)]) else Unseen)
  }

  /** Cell `p`, entered in direction `d`, has been recorded with at most `t` turns. */
  ghost predicate RecordedIn(seen: map<(int, int, int), int>, p: Point, d: int, t: int)
  {
    (p.row, p.col, d) in seen && seen[(p.row, p.col, d)] <= t
  }

  /** Every admissible move out of the states `all[..n]` has been recorded. */
  ghost predicate Expanded(board: seq<seq<Tile>>, start: Point, target: Point,
                           seen: map<(int, int, int), int>, all: seq<SearchState>, n: nat)
    requires WellFormed(board) && n <= |all|
  {
    forall i, d :: 0 <= i < n && 0 <= d < 4 && Admissible(board, start, target, all[i], d) ==>
      RecordedIn(seen, Step(Point(all[i].row, all[i].col), d), d, NextTurns(all[i], d))
  }

  /** Every recorded count belongs to an enqueued state, found through `who`. */
  ghost predicate Witnessed(seen: map<(int, int, int), int>, who: map<(int, int, int), nat>, all: seq<SearchState>)
  {
    forall k :: k in seen ==> k in who && who[k] < |all| && Holds(all[who[k]], Point(k.0, k.1), k.2, seen[k])
  }

  /** How far key `k` can still improve: one more than the budget when it is
      unrecorded, else its recorded count. */
  function Slack(seen: map<(int, int, int), int>, k: (int, int, int)): nat
  {
    if k !in seen then MaxTurns + 1 else if seen[k] < 0 then 0 else seen[k]
  }

  /** The slack of the four keys of cell `(r, c)`. */
  function CellSlack(seen: map<(int, int, int), int>, r: int, c: int): nat
  {
    Slack(seen, (r, c, 0)) + Slack(seen, (r, c, 1)) + Slack(seen, (r, c, 2)) + Slack(seen, (r, c, 3))
  }

  /** The slack of cells `(r, 0)` to `(r, m - 1)`. */
  function RowSlack(seen: map<(int, int, int), int>, r: int, m: nat): nat
  {
    if m == 0 then 0 else RowSlack(seen, r, m - 1) + CellSlack(seen, r, m - 1)
  }

  /** The slack of rows `0` to `n - 1`, each `width` cells wide. */
  function GridSlack(seen: map<(int, int, int), int>, n: nat, width: nat): nat
  {
    if n == 0 then 0 else GridSlack(seen, n - 1, width) + RowSlack(seen, n - 1, width)
  }

  /** The search's termination measure: the slack left in the whole augmented grid. */
  function Potential(rows: nat, cols: nat, seen: map<(int, int, int), int>): nat
  {
    GridSlack(seen, rows + 2, cols + 2)
  }

  /** Lowering the slack of key `k` alone lowers a row's slack when the row holds `k`. */
  lemma {:induction false} RowSlackDrops(seen: map<(int, int, int), int>, seen': map<(int, int, int), int>,
                                         r: int, m: nat, k: (int, int, int))
    requires forall x :: x != k ==> Slack(seen', x) == Slack(seen, x)
    requires Slack(seen', k) < Slack(seen, k)
    ensures RowSlack(seen', r, m) <= RowSlack(seen, r, m)
    ensures k.0 == r && 0 <= k.1 < m && 0 <= k.2 < 4 ==> RowSlack(seen', r, m) < RowSlack(seen, r, m)
  {
    if m > 0 {
      RowSlackDrops(seen, seen', r, m - 1, k);
      CellSlackDrops(seen, seen', r, m - 1, k);
    }
  }

  /** Lowering the slack of key `k` alone lowers a cell's slack when the cell holds `k`. */
  lemma CellSlackDrops(seen: map<(int, int, int), int>, seen': map<(int, int, int), int>,
                       r: int, c: int, k: (int, int, int))
    requires forall x :: x != k ==> Slack(seen', x) == Slack(seen, x)
    requires Slack(seen', k) < Slack(seen, k)
    ensures CellSlack(seen', r, c) <= CellSlack(seen, r, c)
    ensures k.0 == r && k.1 == c && 0 <= k.2 < 4 ==> CellSlack(seen', r, c) < CellSlack(seen, r, c)
  {
    var s0, s1, s2, s3 := Slack(seen, (r, c, 0)), Slack(seen, (r, c, 1)), Slack(seen, (r, c, 2)), Slack(seen, (r, c, 3));
    assert Slack(seen', (r, c, 0)) <= s0 && Slack(seen', (r, c, 1)) <= s1;
    assert Slack(seen', (r, c, 2)) <= s2 && Slack(seen', (r, c, 3)) <= s3;
  }

  /** Lowering the slack of key `k` alone lowers the grid's slack when the grid holds `k`. */
  lemma {:induction false} GridSlackDrops(seen: map<(int, int, int), int>, seen': map<(int, int, int), int>,
                                          n: nat, width: nat, k: (int, int, int))
    requires forall x :: x != k ==> Slack(seen', x) == Slack(seen, x)
    requires Slack(seen', k) < Slack(seen, k)
    ensures GridSlack(seen', n, width) <= GridSlack(seen, n, width)
    ensures 0 <= k.0 < n && 0 <= k.1 < width && 0 <= k.2 < 4 ==> GridSlack(seen', n, width) < GridSlack(seen, n, width)
  {
    if n > 0 {
      GridSlackDrops(seen, seen', n - 1, width, k);
      RowSlackDrops(seen, seen', n - 1, width, k);
    }
  }

  /** Recording a count below the current one, for a cell of the augmented
      grid and within budget, lowers the potential. */
  lemma PotentialDrops(rows: nat, cols: nat, seen: map<(int, int, int), int>, p: Point, d: int, t: int)
    requires !RecordedIn(seen, p, d, t)
    requires 0 <= p.row < rows + 2 && 0 <= p.col < cols + 2 && 0 <= d < 4 && 0 <= t <= MaxTurns
    ensures Potential(rows, cols, seen[(p.row, p.col, d) := t]) < Potential(rows, cols, seen)
  {
    var k := (p.row, p.col, d);
    GridSlackDrops(seen, seen[k := t], rows + 2, cols + 2, k);
  }

  /** Every state of `all` is consistent with its walk (stated recursively,
      so that the solver unfolds it only on demand). */
  ghost predicate AllOk(board: seq<seq<Tile>>, start: Point, target: Point, all: seq<SearchState>)
    requires WellFormed(board)
  {
    all == [] || (AllOk(board, start, target, all[..|all| - 1]) && StateOk(board, start, target, all[|all| - 1]))
  }

  lemma {:induction false} AllOkAt(board: seq<seq<Tile>>, start: Point, target: Point, all: seq<SearchState>, i: nat)
    requires WellFormed(board) && AllOk(board, start, target, all) && i < |all|
    ensures StateOk(board, start, target, all[i])
  {
    if i < |all| - 1 {
      AllOkAt(board, start, target, all[..|all| - 1], i);
    }
  }

  /** The search invariant once the states `all[..done]` have been expanded. */
  ghost predicate Searching(board: seq<seq<Tile>>, start: Point, target: Point, all: seq<SearchState>, done: nat,
                            seen: map<(int, int, int), int>, who: map<(int, int, int), nat>)
    requires WellFormed(board)
  {
    1 <= |all| && done <= |all|
    && all[0] == SearchState(start.row, start.col, -1, 0, [start])
    && AllOk(board, start, target, all)
    && (forall i :: 0 <= i < done ==> Point(all[i].row, all[i].col) != target)
    && Expanded(board, start, target, seen, all, done)
    && Witnessed(seen, who, all)
  }

  /** Enqueuing an admissible move that improves on what was recorded keeps the
      invariant, records the move, forgets nothing and claims one new key. */
  lemma Enqueue(board: seq<seq<Tile>>, start: Point, target: Point, all: seq<SearchState>, done: nat,
                seen: map<(int, int, int), int>, who: map<(int, int, int), nat>, s: SearchState, d: int, q: Point, t: int)
    requires WellFormed(board) && Searching(board, start, target, all, done, seen, who)
    requires done < |all| && s == all[done] && 0 <= d < 4 && Admissible(board, start, target, s, d)
    requires q == Step(Point(s.row, s.col), d) && t == NextTurns(s, d) && !RecordedIn(seen, q, d, t)
    ensures var all' := all + [SearchState(q.row, q.col, d, t, s.path + [q])];
            var seen' := seen[(q.row, q.col, d) := t];
            Searching(board, start, target, all', done, seen', who[(q.row, q.col, d) := |all|])
            && Potential(|board|, |board[0]|, seen') < Potential(|board|, |board[0]|, seen)
  {
    var next := SearchState(q.row, q.col, d, t, s.path + [q]);
    var all' := all + [next];
    var seen' := seen[(q.row, q.col, d) := t];
    var who' := who[(q.row, q.col, d) := |all|];
    AllOkAt(board, start, target, all, done);
    ExtendState(board, start, target, s, d);
    assert all'[..|all|] == all;
    PotentialDrops(|board|, |board[0]|, seen, q, d, t);
    WitnessedSnoc(seen, who, all, next);
  }

  /** Recording the count of a newly enqueued state, and pointing its key at
      it, keeps every recorded count witnessed. */
  lemma WitnessedSnoc(seen: map<(int, int, int), int>, who: map<(int, int, int), nat>, all: seq<SearchState>,
                      next: SearchState)
    requires Witnessed(seen, who, all)
    ensures Witnessed(seen[(next.row, next.col, next.dir) := next.turns],
                      who[(next.row, next.col, next.dir) := |all|], all + [next])
  {
    var key := (next.row, next.col, next.dir);
    var seen', who', all' := seen[key := next.turns], who[key := |all|], all + [next];
    forall k | k in seen'
      ensures k in who' && who'[k] < |all'| && Holds(all'[who'[k]], Point(k.0, k.1), k.2, seen'[k])
    {
      if k != key {
        assert all'[who[k]] == all[who[k]];
      }
    }
  }

  /** The admissible moves of `s` in the directions below `d` are recorded. */
  ghost predicate ExpandedTo(board: seq<seq<Tile>>, start: Point, target: Point,
                             seen: map<(int, int, int), int>, s: SearchState, d: int)
    requires WellFormed(board)
  {
    forall e :: 0 <= e < d && Admissible(board, start, target, s, e) ==>
      RecordedIn(seen, Step(Point(s.row, s.col), e), e, NextTurns(s, e))
  }

  /** A direction whose move is inadmissible, or already recorded, needs nothing more. */
  lemma Skip(board: seq<seq<Tile>>, start: Point, target: Point,
             seen: map<(int, int, int), int>, s: SearchState, d: int)
    requires WellFormed(board) && ExpandedTo(board, start, target, seen, s, d)
    requires !Admissible(board, start, target, s, d)
             || RecordedIn(seen, Step(Point(s.row, s.col), d), d, NextTurns(s, d))
    ensures ExpandedTo(board, start, target, seen, s, d + 1)
  {
  }

  /** Recording a better count for the move in direction `d` covers that
      direction and forgets none of the earlier ones. */
  lemma Improve(board: seq<seq<Tile>>, start: Point, target: Point,
                seen: map<(int, int, int), int>, s: SearchState, d: int, q: Point, t: int)
    requires WellFormed(board) && ExpandedTo(board, start, target, seen, s, d)
    requires q == Step(Point(s.row, s.col), d) && t == NextTurns(s, d) && !RecordedIn(seen, q, d, t)
    ensures ExpandedTo(board, start, target, seen[(q.row, q.col, d) := t], s, d + 1)
  {
  }

  lemma SnocSuffix(all: seq<SearchState>, n: nat, x: SearchState)
    requires n <= |all|
    ensures (all + [x])[n..] == all[n..] + [x]
  {
  }

  /** Once every admissible move of `all[done]` is recorded, and it is not on
      the target, the expanded prefix grows by one. */
  lemma FinishExpansion(board: seq<seq<Tile>>, start: Point, target: Point, all: seq<SearchState>, done: nat,
                        seen: map<(int, int, int), int>, who: map<(int, int, int), nat>)
    requires WellFormed(board) && Searching(board, start, target, all, done, seen, who)
    requires done < |all| && Point(all[done].row, all[done].col) != target
    requires ExpandedTo(board, start, target, seen, all[done], 4)
    ensures Searching(board, start, target, all, done + 1, seen, who)
  {
  }

  /** A drained search has a closed set of states. */
  lemma DrainedIsClosed(board: seq<seq<Tile>>, start: Point, target: Point, all: seq<SearchState>,
                        seen: map<(int, int, int), int>, who: map<(int, int, int), nat>)
    requires WellFormed(board) && Searching(board, start, target, all, |all|, seen, who)
    ensures Closed(board, start, target, all)
  {
    forall i, d | 0 <= i < |all| && 0 <= d < 4 && Admissible(board, start, target, all[i], d)
      ensures exists j :: 0 <= j < |all| && Holds(all[j], Step(Point(all[i].row, all[i].col), d), d, NextTurns(all[i], d))
    {
      var q := Step(Point(all[i].row, all[i].col), d);
      var j := who[(q.row, q.col, d)];
      assert Holds(all[j], q, d, NextTurns(all[i], d));
    }
  }

  /** A dequeued state on the target carries a route, and it is the first
      state when the two tiles share a cell. */
  lemma Reached(board: seq<seq<Tile>>, start: Point, target: Point, all: seq<SearchState>, done: nat,
                seen: map<(int, int, int), int>, who: map<(int, int, int), nat>)
    requires WellFormed(board) && Searching(board, start, target, all, done, seen, who)
    requires done < |all| && Point(all[done].row, all[done].col) == target
    ensures IsRoute(board, start, target, all[done].path) && all[done].turns == TurnsOf(all[done].path)
    ensures start == target ==> all[done] == SearchState(start.row, start.col, -1, 0, [start])
  {
    AllOkAt(board, start, target, all, done);
  }

  /** A search that drains its queue without reaching the target proves
      that no route exists. */
  lemma Exhausted(board: seq<seq<Tile>>, start: Point, target: Point, all: seq<SearchState>,
                  seen: map<(int, int, int), int>, who: map<(int, int, int), nat>)
    requires WellFormed(board) && Searching(board, start, target, all, |all|, seen, who)
    ensures forall p :: !IsRoute(board, start, target, p)
    ensures start != target
  {
    DrainedIsClosed(board, start, target, all, seen, who);
    NoRoute(board, start, target, all);
    assert Point(all[0].row, all[0].col) != target;
  }

  /** The move from `s` in direction `d` passes every test of the inner loop:
      it is admissible and beats the count recorded in `seen`. */
  ghost predicate Improves(board: seq<seq<Tile>>, start: Point, target: Point,
                           seen: map<(int, int, int), int>, s: SearchState, d: int)
    requires WellFormed(board)
  {
    Admissible(board, start, target, s, d) && !RecordedIn(seen, Step(Point(s.row, s.col), d), d, NextTurns(s, d))
  }

  /** The queue entry for the move from `s` in direction `d`. */
  function Successor(s: SearchState, d: int): SearchState
  {
    var q := Step(Point(s.row, s.col), d);
    SearchState(q.row, q.col, d, NextTurns(s, d), s.path + [q])
  }

  /** The `visited` key of the move from `s` in direction `d`. */
  function MoveKey(s: SearchState, d: int): (int, int, int)
  {
    var q := Step(Point(s.row, s.col), d);
    (q.row, q.col, d)
  }

  /** The entries the inner loop pushes for directions `0 .. n - 1` (up,
      right, down, left), in that order. */
  ghost function Enqueued(board: seq<seq<Tile>>, start: Point, target: Point,
                          seen: map<(int, int, int), int>, s: SearchState, n: int): seq<SearchState>
    requires WellFormed(board)
    decreases n
  {
    if n <= 0 then []
    else Enqueued(board, start, target, seen, s, n - 1)
         + (if Improves(board, start, target, seen, s, n - 1) then [Successor(s, n - 1)] else [])
  }

  /** The recorded counts once directions `0 .. n - 1` have been tried. */
  ghost function Recorded(board: seq<seq<Tile>>, start: Point, target: Point,
                          seen: map<(int, int, int), int>, s: SearchState, n: int): map<(int, int, int), int>
    requires WellFormed(board)
    decreases n
  {
    if n <= 0 then seen
    else
      var m := Recorded(board, start, target, seen, s, n - 1);
      if Improves(board, start, target, seen, s, n - 1) then m[MoveKey(s, n - 1) := NextTurns(s, n - 1)] else m
  }

  /** Trying directions below `n` touches only keys of those directions, so a
      later direction is tested against the counts recorded before the loop. */
  lemma {:induction false} RecordedElsewhere(board: seq<seq<Tile>>, start: Point, target: Point,
                                             seen: map<(int, int, int), int>, s: SearchState, n: int, d: int)
    requires WellFormed(board) && n <= d
    ensures Improves(board, start, target, Recorded(board, start, target, seen, s, n), s, d)
            == Improves(board, start, target, seen, s, d)
    decreases n
  {
    if n > 0 {
      RecordedElsewhere(board, start, target, seen, s, n - 1, d);
    }
  }

  /** Key `k` belongs to an improving move in one of the directions below `n`. */
  ghost predicate Improved(board: seq<seq<Tile>>, start: Point, target: Point,
                           seen: map<(int, int, int), int>, s: SearchState, n: int, k: (int, int, int))
    requires WellFormed(board)
  {
    0 <= k.2 < n && k == MoveKey(s, k.2) && Improves(board, start, target, seen, s, k.2)
  }

  /** `x` is the successor of an improving move in one of the directions
      below `n`. */
  ghost predicate Pushed(board: seq<seq<Tile>>, start: Point, target: Point,
                         seen: map<(int, int, int), int>, s: SearchState, n: int, x: SearchState)
    requires WellFormed(board)
  {
    0 <= x.dir < n && x == Successor(s, x.dir) && Improves(board, start, target, seen, s, x.dir)
  }

  /** Every entry pushed while trying directions below `n` is the successor
      of an improving move among them. */
  lemma {:induction false} EnqueuedSound(board: seq<seq<Tile>>, start: Point, target: Point,
                                         seen: map<(int, int, int), int>, s: SearchState, n: int)
    requires WellFormed(board)
    ensures forall i :: 0 <= i < |Enqueued(board, start, target, seen, s, n)| ==>
              Pushed(board, start, target, seen, s, n, Enqueued(board, start, target, seen, s, n)[i])
    decreases n
  {
    if n > 0 {
      var m := n - 1;
      var front := Enqueued(board, start, target, seen, s, m);
      var e := Enqueued(board, start, target, seen, s, n);
      EnqueuedSound(board, start, target, seen, s, m);
      forall i | 0 <= i < |e|
        ensures Pushed(board, start, target, seen, s, n, e[i])
      {
        if i < |front| {
          assert e[i] == front[i];
          assert Pushed(board, start, target, seen, s, m, front[i]);
        } else {
          assert Improves(board, start, target, seen, s, m) && e[i] == Successor(s, m);
        }
      }
    }
  }

  /** The pushed entries come in strictly increasing direction order: up,
      right, down, left. */
  lemma {:induction false} EnqueuedOrdered(board: seq<seq<Tile>>, start: Point, target: Point,
                                           seen: map<(int, int, int), int>, s: SearchState, n: int)
    requires WellFormed(board)
    ensures forall i, j :: 0 <= i < j < |Enqueued(board, start, target, seen, s, n)| ==>
              Enqueued(board, start, target, seen, s, n)[i].dir < Enqueued(board, start, target, seen, s, n)[j].dir
    decreases n
  {
    if n > 0 {
      var m := n - 1;
      var front := Enqueued(board, start, target, seen, s, m);
      var e := Enqueued(board, start, target, seen, s, n);
      EnqueuedOrdered(board, start, target, seen, s, m);
      EnqueuedSound(board, start, target, seen, s, m);
      forall i, j | 0 <= i < j < |e|
        ensures e[i].dir < e[j].dir
      {
        assert e[i] == front[i];
        assert Pushed(board, start, target, seen, s, m, front[i]);
        if j < |front| {
          assert e[j] == front[j];
        } else {
          assert e[j] == Successor(s, m);
        }
      }
    }
  }

  /** Every improving move among the directions below `n` is pushed. */
  lemma {:induction false} EnqueuedComplete(board: seq<seq<Tile>>, start: Point, target: Point,
                                            seen: map<(int, int, int), int>, s: SearchState, n: int)
    requires WellFormed(board)
    ensures forall d :: 0 <= d < n && Improves(board, start, target, seen, s, d) ==>
              Successor(s, d) in Enqueued(board, start, target, seen, s, n)
    decreases n
  {
    if n > 0 {
      var m := n - 1;
      var front := Enqueued(board, start, target, seen, s, m);
      var e := Enqueued(board, start, target, seen, s, n);
      EnqueuedComplete(board, start, target, seen, s, m);
      assert forall x :: x in front ==> x in e;
    }
  }

  /** The keys recorded after trying directions below `n` are the old keys and
      those of the improving moves. */
  lemma {:induction false} RecordedKeys(board: seq<seq<Tile>>, start: Point, target: Point,
                                        seen: map<(int, int, int), int>, s: SearchState, n: int)
    requires WellFormed(board)
    ensures var m := Recorded(board, start, target, seen, s, n);
            forall k :: k in m <==> k in seen || Improved(board, start, target, seen, s, n, k)
    decreases n
  {
    if n > 0 {
      RecordedKeys(board, start, target, seen, s, n - 1);
    }
  }

  /** Each improving move's key holds its new turn count; every other key
      keeps its old count. */
  lemma {:induction false} RecordedCounts(board: seq<seq<Tile>>, start: Point, target: Point,
                                          seen: map<(int, int, int), int>, s: SearchState, n: int)
    requires WellFormed(board)
    ensures var m := Recorded(board, start, target, seen, s, n);
            forall k :: k in m ==>
              if Improved(board, start, target, seen, s, n, k) then m[k] == NextTurns(s, k.2)
              else k in seen && m[k] == seen[k]
    decreases n
  {
    if n > 0 {
      RecordedKeys(board, start, target, seen, s, n - 1);
      RecordedCounts(board, start, target, seen, s, n - 1);
    }
  }

  /** One pass of the inner loop extends the entries pushed and the counts
      recorded by exactly that direction's move, if it improves. */
  lemma EnqueuedStep(board: seq<seq<Tile>>, start: Point, target: Point, seen: map<(int, int, int), int>,
                     s: SearchState, d: int, queue: seq<SearchState>, queue0: seq<SearchState>, queue1: seq<SearchState>,
                     seen0: map<(int, int, int), int>, seen1: map<(int, int, int), int>)
    requires WellFormed(board) && 0 <= d
    requires queue0 == queue + Enqueued(board, start, target, seen, s, d)
    requires seen0 == Recorded(board, start, target, seen, s, d)
    requires if Improves(board, start, target, seen0, s, d)
             then queue1 == queue0 + [Successor(s, d)] && seen1 == seen0[MoveKey(s, d) := NextTurns(s, d)]
             else queue1 == queue0 && seen1 == seen0
    ensures queue1 == queue + Enqueued(board, start, target, seen, s, d + 1)
    ensures seen1 == Recorded(board, start, target, seen, s, d + 1)
  {
    RecordedElsewhere(board, start, target, seen, s, d, d);
    AppendStates(queue, Enqueued(board, start, target, seen, s, d), [Successor(s, d)]);
    if !Improves(board, start, target, seen, s, d) {
      assert queue + Enqueued(board, start, target, seen, s, d) + [] == queue0;
    }
  }

  lemma AppendStates(a: seq<SearchState>, b: seq<SearchState>, c: seq<SearchState>)
    ensures (a + b) + c == a + (b + c)
  {
  }

  /** Records `t` turns for cell `(r, c)` entered in direction `d`. */
  method Mark(visited: array3<Best>, ghost seen: map<(int, int, int), int>, r: int, c: int, d: int, t: int)
    requires Tracks(visited, seen)
    requires 0 <= r < visited.Length0 && 0 <= c < visited.Length1 && 0 <= d < visited.Length2
    modifies visited
    ensures Tracks(visited, seen[(r, c, d) := t])
  {
    visited[r, c, d] := Seen(t);
  }

  /** One pass of the inner loop of `findPath`: the move from `cur` in
      direction `d` is skipped when it exceeds the turn budget, leaves the
      augmented grid, enters an occupied cell or brings no improvement on the
      recorded count; otherwise it is recorded and enqueued. */
  method Relax(board: seq<seq<Tile>>, start: Point, target: Point, visited: array3<Best>,
               cur: SearchState, d: int, queue: seq<SearchState>, ghost all: seq<SearchState>, ghost done: nat,
               ghost seen: map<(int, int, int), int>, ghost who: map<(int, int, int), nat>)
    returns (queue': seq<SearchState>, ghost all': seq<SearchState>,
             ghost seen': map<(int, int, int), int>, ghost who': map<(int, int, int), nat>)
    requires WellFormed(board) && 0 <= d < 4
    requires visited.Length0 == |board| + 2 && visited.Length1 == |board[0]| + 2 && visited.Length2 == 4
    requires Tracks(visited, seen) && Searching(board, start, target, all, done, seen, who)
    requires done < |all| && all[done] == cur && queue == all[done + 1..]
    requires ExpandedTo(board, start, target, seen, cur, d)
    modifies visited
    ensures Tracks(visited, seen') && Searching(board, start, target, all', done, seen', who')
    ensures done < |all'| && all'[done] == cur && queue' == all'[done + 1..]
    ensures ExpandedTo(board, start, target, seen', cur, d + 1)
    ensures if Improves(board, start, target, seen, cur, d)
            then queue' == queue + [Successor(cur, d)] && seen' == seen[MoveKey(cur, d) := NextTurns(cur, d)]
            else queue' == queue && seen' == seen
    ensures |queue'| >= |queue|
    ensures Potential(|board|, |board[0]|, seen') + (|queue'| - |queue|) <= Potential(|board|, |board[0]|, seen)
  {
    queue', all', seen', who' := queue, all, seen, who;
    var rows := |board|;
    var cols := |board[0]|;
    var p := Step(Point(cur.row, cur.col), d);
    var newRow, newCol := p.row, p.col;
    var newTurns := NextTurns(cur, d);
    if newTurns > MaxTurns {
      Skip(board, start, target, seen, cur, d);
      return;
    }
    if newRow < 0 || newRow > rows + 1 || newCol < 0 || newCol > cols + 1 {
      Skip(board, start, target, seen, cur, d);
      return;
    }
    if !IsCellFree(newRow, newCol, board, start, target) {
      Skip(board, start, target, seen, cur, d);
      return;
    }
    if visited[newRow, newCol, d].Seen? && visited[newRow, newCol, d].turns <= newTurns {
      Skip(board, start, target, seen, cur, d);
      return;
    }
    var next := SearchState(newRow, newCol, d, newTurns, cur.path + [p]);
    assert Admissible(board, start, target, cur, d) && !RecordedIn(seen, p, d, newTurns);
    SnocSuffix(all, done + 1, next);
    Improve(board, start, target, seen, cur, d, p, newTurns);
    Enqueue(board, start, target, all, done, seen, who, cur, d, p, newTurns);
    Mark(visited, seen, newRow, newCol, d, newTurns);
    queue' := queue + [next];
    seen' := seen[(newRow, newCol, d) := newTurns];
    who' := who[(newRow, newCol, d) := |all|];
    all' := all + [next];
  }

  /** The inner `for` loop of `findPath`: every move out of `cur`, which is
      not on the target, is relaxed in turn, after which `cur` counts as
      expanded. */
  method Expand(board: seq<seq<Tile>>, start: Point, target: Point, visited: array3<Best>,
                cur: SearchState, queue: seq<SearchState>, ghost all: seq<SearchState>, ghost done: nat,
                ghost seen: map<(int, int, int), int>, ghost who: map<(int, int, int), nat>)
    returns (queue': seq<SearchState>, ghost all': seq<SearchState>,
             ghost seen': map<(int, int, int), int>, ghost who': map<(int, int, int), nat>)
    requires WellFormed(board)
    requires visited.Length0 == |board| + 2 && visited.Length1 == |board[0]| + 2 && visited.Length2 == 4
    requires Tracks(visited, seen) && Searching(board, start, target, all, done, seen, who)
    requires done < |all| && all[done] == cur && queue == all[done + 1..]
    requires Point(cur.row, cur.col) != target
    modifies visited
    ensures Tracks(visited, seen') && Searching(board, start, target, all', done + 1, seen', who')
    ensures queue' == all'[done + 1..]
    ensures queue' == queue + Enqueued(board, start, target, seen, cur, 4)
    ensures seen' == Recorded(board, start, target, seen, cur, 4)
    ensures |queue'| >= |queue|
    ensures Potential(|board|, |board[0]|, seen') + (|queue'| - |queue|) <= Potential(|board|, |board[0]|, seen)
  {
    queue', all', seen', who' := queue, all, seen, who;
    for d := 0 to 4
      invariant Tracks(visited, seen') && Searching(board, start, target, all', done, seen', who')
      invariant done < |all'| && all'[done] == cur && queue' == all'[done + 1..]
      invariant ExpandedTo(board, start, target, seen', cur, d)
      invariant queue' == queue + Enqueued(board, start, target, seen, cur, d)
      invariant seen' == Recorded(board, start, target, seen, cur, d)
      invariant |queue'| >= |queue|
      invariant Potential(|board|, |board[0]|, seen') + (|queue'| - |queue|) <= Potential(|board|, |board[0]|, seen)
    {
      ghost var queue0, seen0 := queue', seen';
      queue', all', seen', who' := Relax(board, start, target, visited, cur, d, queue', all', done, seen', who');
      EnqueuedStep(board, start, target, seen, cur, d, queue, queue0, queue', seen0, seen');
    }
    FinishExpansion(board, start, target, all', done, seen', who');
  }

  /** The set-up of `findPath`: an all-`Infinity` `visited` array over the
      augmented grid, and a queue holding the start state alone. */
  method Begin(board: seq<seq<Tile>>, start: Point, target: Point)
    returns (visited: array3<Best>, queue: seq<SearchState>, ghost all: seq<SearchState>,
             ghost seen: map<(int, int, int), int>, ghost who: map<(int, int, int), nat>)
    requires WellFormed(board)
    ensures fresh(visited)
    ensures visited.Length0 == |board| + 2 && visited.Length1 == |board[0]| + 2 && visited.Length2 == 4
    ensures Tracks(visited, seen) && Searching(board, start, target, all, 0, seen, who) && queue == all[0..]
    ensures queue == [SearchState(start.row, start.col, -1, 0, [start])] && seen == map[]
  {
    var rows := |board|;
    var cols := |board[0]|;
    queue := [];
    visited := new Best[rows + 2, cols + 2, 4]((r, c, d) => Unseen);
    queue := queue + [SearchState(start.row, start.col, -1, 0, [start])];
    all := queue;
    assert all[..0] == [] && StateOk(board, start, target, all[0]);
    seen := map[];
    who := map[];
  }

  /** `findPath(tile1, tile2, board)`: the result is valid exactly when a legal
      connector exists between the tiles' cells in the augmented grid, and then
      it is such a connector together with its turn count. */
  method FindPath(tile1: Tile, tile2: Tile, board: seq<seq<Tile>>) returns (result: PathResult)
    requires WellFormed(board)
    ensures var start := Point(tile1.row + 1, tile1.col + 1);
            var target := Point(tile2.row + 1, tile2.col + 1);
            (result.valid ==> IsRoute(board, start, target, result.path) && result.turns == TurnsOf(result.path))
            && (!result.valid ==> result == PathResult(false, [], -1) && forall p :: !IsRoute(board, start, target, p))
            && (start == target ==> result == PathResult(true, [start], 0))
  {
    var rows := |board|;
    var cols := |board[0]|;
    var start := Point(tile1.row + 1, tile1.col + 1);
    var target := Point(tile2.row + 1, tile2.col + 1);
    // Ghost bookkeeping: every state ever enqueued (the queue is `all[head..]`),
    // a copy of `visited` as a map, and the state behind each recorded count.
    var visited, queue, all, seen, who := Begin(board, start, target);
    ghost var head := 0;
    while |queue| > 0
      invariant visited.Length0 == rows + 2 && visited.Length1 == cols + 2 && visited.Length2 == 4
      invariant Tracks(visited, seen)
      invariant Searching(board, start, target, all, head, seen, who)
      invariant queue == all[head..]
      decreases Potential(rows, cols, seen), |queue|
    {
      var cur := queue[0];
      queue := queue[1..];
      if cur.row == target.row && cur.col == target.col {
        Reached(board, start, target, all, head, seen, who);
        return PathResult(true, cur.path, cur.turns);
      }
      queue, all, seen, who := Expand(board, start, target, visited, cur, queue, all, head, seen, who);
      head := head + 1;
    }
    Exhausted(board, start, target, all, seen, who);
    return PathResult(false, [], -1);
  }
}
