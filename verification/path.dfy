/** The path test `blocked` of chess.c, as written: it walks the board as a
    flat array of 64 cells, takes max(|dr|, |df|) - 2 steps, and on a straight
    path always steps toward higher files (same rank) or higher ranks (same
    file), whichever way the move goes. */
module Path {
  import opened Pieces
  import opened Geometry

  /** The walk's verdict. OffBoard(k) means the walk reached flat index k
      outside the 64 cells, where the C code reads memory past the board. */
  datatype Walked = Clear | Obstructed | OffBoard(index: int)

  /** The rank increment: 0 on a same-rank path, +1 on a same-file path,
      the sign of the rank delta otherwise. */
  function RankStep(r0: int, r1: int, f0: int, f1: int): int {
    if r0 == r1 then 0 else if f0 == f1 then 1 else if r1 - r0 > 0 then 1 else -1
  }

  /** The file increment: +1 on a same-rank path, 0 on a same-file path,
      the sign of the file delta otherwise. */
  function FileStep(r0: int, r1: int, f0: int, f1: int): int {
    if r0 == r1 then 1 else if f0 == f1 then 0 else if f1 - f0 > 0 then 1 else -1
  }

  /** The loop runs while either step counter is below its distance minus two. */
  function StepCount(r0: int, r1: int, f0: int, f1: int): nat {
    var a := Abs(r1 - r0) - 2;
    var b := Abs(f1 - f0) - 2;
    if a <= 0 && b <= 0 then 0 else if a >= b then a else b
  }

  /** The loop body: look one step ahead; stop on a non-empty cell. */
  function Walk(b: Board, r: int, f: int, dr: int, df: int, left: nat): Walked
    decreases left
  {
    if left == 0 then Clear
    else
      var k := (r + dr) * 8 + (f + df);
      if !(0 <= k < 64) then OffBoard(k)
      else if b[k] != Empty then Obstructed
      else Walk(b, r + dr, f + df, dr, df, left - 1)
  }

  /** blocked(i0, i1, j0, j1) with i the rank and j the file. */
  function Blocked(b: Board, r0: int, r1: int, f0: int, f1: int): (w: Walked)
    ensures Abs(r1 - r0) <= 2 && Abs(f1 - f0) <= 2 ==> w == Clear
  {
    Walk(b, r0, f0, RankStep(r0, r1, f0, f1), FileStep(r0, r1, f0, f1), StepCount(r0, r1, f0, f1))
  }

  /** The flat indices the walk reads, in order, when it is not cut short. */
  function Probes(r: int, f: int, dr: int, df: int, n: nat): (s: seq<int>)
    ensures |s| == n
    decreases n
  {
    if n == 0 then [] else [(r + dr) * 8 + (f + df)] + Probes(r + dr, f + df, dr, df, n - 1)
  }

  /** The walk finds the path clear exactly when every cell it probes is
      inside the array and empty. */
  lemma {:induction false} WalkClear(b: Board, r: int, f: int, dr: int, df: int, n: nat)
    ensures Walk(b, r, f, dr, df, n) == Clear <==>
            forall k :: k in Probes(r, f, dr, df, n) ==> 0 <= k < 64 && b[k] == Empty
    decreases n
  {
    if n > 0 {
      var k0 := (r + dr) * 8 + (f + df);
      var rest := Probes(r + dr, f + df, dr, df, n - 1);
      var s := Probes(r, f, dr, df, n);
      assert s == [k0] + rest;
      assert k0 in s;
      WalkClear(b, r + dr, f + df, dr, df, n - 1);
      if 0 <= k0 < 64 && b[k0] == Empty {
        assert Walk(b, r, f, dr, df, n) == Walk(b, r + dr, f + df, dr, df, n - 1);
        assert forall k :: k in s <==> k == k0 || k in rest;
        if forall k :: k in s ==> 0 <= k < 64 && b[k] == Empty {
          assert forall k :: k in rest ==> 0 <= k < 64 && b[k] == Empty;
        } else {
          var k :| k in s && !(0 <= k < 64 && b[k] == Empty);
          assert k in rest;
        }
      } else {
        assert Walk(b, r, f, dr, df, n) != Clear;
      }
    }
  }

  /** The walk reports an obstruction only when some cell it probes, inside
      the array, holds a piece. */
  lemma {:induction false} WalkObstructed(b: Board, r: int, f: int, dr: int, df: int, n: nat)
    ensures Walk(b, r, f, dr, df, n) == Obstructed ==>
            exists k :: k in Probes(r, f, dr, df, n) && 0 <= k < 64 && b[k] != Empty
    decreases n
  {
    if n > 0 {
      var k := (r + dr) * 8 + (f + df);
      WalkObstructed(b, r + dr, f + df, dr, df, n - 1);
      if 0 <= k < 64 && b[k] != Empty {
        assert k in Probes(r, f, dr, df, n);
      }
    }
  }

  /** The walk leaves the array only at an index it probes. */
  lemma {:induction false} WalkOffBoard(b: Board, r: int, f: int, dr: int, df: int, n: nat)
    ensures var w := Walk(b, r, f, dr, df, n);
            w.OffBoard? ==> w.index in Probes(r, f, dr, df, n) && !(0 <= w.index < 64)
    decreases n
  {
    if n > 0 {
      WalkOffBoard(b, r + dr, f + df, dr, df, n - 1);
    }
  }

  /** Writing a cell the walk never probes does not change its answer. */
  lemma {:induction false} WalkFrame(b: Board, r: int, f: int, dr: int, df: int, n: nat, k: int, x: Square)
    requires 0 <= k < 64 && k !in Probes(r, f, dr, df, n)
    ensures Walk(b[k := x], r, f, dr, df, n) == Walk(b, r, f, dr, df, n)
    decreases n
  {
    if n > 0 {
      WalkFrame(b, r + dr, f + df, dr, df, n - 1, k, x);
    }
  }

  /** t times a unit increment d, without a product. */
  function Times(t: int, d: int): int {
    if d == 0 then 0 else if d > 0 then t else -t
  }

  /** The flat index the walk reads at its t-th step, in closed form. */
  function ProbeAt(r: int, f: int, dr: int, df: int, t: int): int {
    (r + Times(t, dr)) * 8 + (f + Times(t, df))
  }

  predicate Unit(d: int) {
    d == -1 || d == 0 || d == 1
  }

  /** The t-th probe is t unit steps from the start. */
  lemma {:induction false} ProbesInClosedForm(r: int, f: int, dr: int, df: int, n: nat)
    requires Unit(dr) && Unit(df)
    ensures forall i :: 0 <= i < n ==> Probes(r, f, dr, df, n)[i] == ProbeAt(r, f, dr, df, i + 1)
    decreases n
  {
    if n > 0 {
      var r', f' := r + dr, f + df;
      ProbesInClosedForm(r', f', dr, df, n - 1);
      var s := Probes(r, f, dr, df, n);
      forall i | 0 <= i < n
        ensures s[i] == ProbeAt(r, f, dr, df, i + 1)
      {
        if i > 0 {
          assert s[i] == Probes(r', f', dr, df, n - 1)[i - 1];
          assert ProbeAt(r', f', dr, df, i) == ProbeAt(r, f, dr, df, i + 1);
        }
      }
    }
  }

  /** A cell that is no t-th probe for t in 1..n is never read. */
  lemma NotProbed(r: int, f: int, dr: int, df: int, n: nat, k: int)
    requires Unit(dr) && Unit(df)
    requires forall t :: 1 <= t <= n ==> ProbeAt(r, f, dr, df, t) != k
    ensures k !in Probes(r, f, dr, df, n)
  {
    ProbesInClosedForm(r, f, dr, df, n);
  }

  lemma StepsAreUnits(r0: int, r1: int, f0: int, f1: int)
    ensures Unit(RankStep(r0, r1, f0, f1)) && Unit(FileStep(r0, r1, f0, f1))
  {
  }

  /** No probe of a walk between two cells of the board lands on either cell. */
  lemma ProbeMissesEnds(r0: int, r1: int, f0: int, f1: int, t: int)
    requires OnBoard(r0, f0) && OnBoard(r1, f1)
    requires 1 <= t <= StepCount(r0, r1, f0, f1)
    ensures ProbeAt(r0, f0, RankStep(r0, r1, f0, f1), FileStep(r0, r1, f0, f1), t) != Index(r0, f0)
    ensures ProbeAt(r0, f0, RankStep(r0, r1, f0, f1), FileStep(r0, r1, f0, f1), t) != Index(r1, f1)
  {
    var dr := RankStep(r0, r1, f0, f1);
    var df := FileStep(r0, r1, f0, f1);
    var p := ProbeAt(r0, f0, dr, df, t);
    assert t <= 5;
    if r0 == r1 {
      assert p == 8 * r0 + f0 + t;
      assert t < Abs(f1 - f0);
    } else if f0 == f1 {
      assert p == 8 * (r0 + t) + f0;
      assert t < Abs(r1 - r0);
    } else {
      assert t < Abs(r1 - r0) || t < Abs(f1 - f0);
      assert p - Index(r1, f1) == 8 * (r0 + Times(t, dr) - r1) + (f0 + Times(t, df) - f1);
    }
  }

  /** blocked never reads the source or the destination cell. */
  lemma BlockedIgnoresEnds(b: Board, r0: int, r1: int, f0: int, f1: int, x: Square, y: Square)
    requires OnBoard(r0, f0) && OnBoard(r1, f1)
    ensures Blocked(b[Index(r0, f0) := x][Index(r1, f1) := y], r0, r1, f0, f1) == Blocked(b, r0, r1, f0, f1)
  {
    var dr := RankStep(r0, r1, f0, f1);
    var df := FileStep(r0, r1, f0, f1);
    var n := StepCount(r0, r1, f0, f1);
    forall t | 1 <= t <= n
      ensures ProbeAt(r0, f0, dr, df, t) != Index(r0, f0) && ProbeAt(r0, f0, dr, df, t) != Index(r1, f1)
    {
      ProbeMissesEnds(r0, r1, f0, f1, t);
    }
    StepsAreUnits(r0, r1, f0, f1);
    NotProbed(r0, f0, dr, df, n, Index(r0, f0));
    NotProbed(r0, f0, dr, df, n, Index(r1, f1));
    var b1 := b[Index(r0, f0) := x];
    WalkFrame(b, r0, f0, dr, df, n, Index(r0, f0), x);
    WalkFrame(b1, r0, f0, dr, df, n, Index(r1, f1), y);
  }

  /** blocked reports a clear path exactly when every cell it walks is inside
      the array and empty, and an obstruction only when a cell it walks,
      inside the array, is not "**". */
  lemma BlockedMeaning(b: Board, r0: int, r1: int, f0: int, f1: int)
    ensures var dr := RankStep(r0, r1, f0, f1); var df := FileStep(r0, r1, f0, f1);
            var n := StepCount(r0, r1, f0, f1);
            && (Blocked(b, r0, r1, f0, f1) == Clear <==>
                forall t :: 1 <= t <= n ==> 0 <= ProbeAt(r0, f0, dr, df, t) < 64 && b[ProbeAt(r0, f0, dr, df, t)] == Empty)
            && (Blocked(b, r0, r1, f0, f1) == Obstructed ==>
                exists t :: 1 <= t <= n && 0 <= ProbeAt(r0, f0, dr, df, t) < 64 && b[ProbeAt(r0, f0, dr, df, t)] != Empty)
  {
    var dr := RankStep(r0, r1, f0, f1);
    var df := FileStep(r0, r1, f0, f1);
    var n := StepCount(r0, r1, f0, f1);
    var s := Probes(r0, f0, dr, df, n);
    StepsAreUnits(r0, r1, f0, f1);
    ProbesInClosedForm(r0, f0, dr, df, n);
    WalkClear(b, r0, f0, dr, df, n);
    WalkObstructed(b, r0, f0, dr, df, n);
    if Blocked(b, r0, r1, f0, f1) == Clear {
      forall t | 1 <= t <= n
        ensures 0 <= ProbeAt(r0, f0, dr, df, t) < 64 && b[ProbeAt(r0, f0, dr, df, t)] == Empty
      {
        assert s[t - 1] in s;
      }
    }
    if forall t :: 1 <= t <= n ==> 0 <= ProbeAt(r0, f0, dr, df, t) < 64 && b[ProbeAt(r0, f0, dr, df, t)] == Empty {
      forall k | k in s
        ensures 0 <= k < 64 && b[k] == Empty
      {
        var i :| 0 <= i < n && s[i] == k;
        assert ProbeAt(r0, f0, dr, df, i + 1) == k;
      }
    }
    if Blocked(b, r0, r1, f0, f1) == Obstructed {
      var k :| k in s && 0 <= k < 64 && b[k] != Empty;
      var i :| 0 <= i < n && s[i] == k;
      assert ProbeAt(r0, f0, dr, df, i + 1) == k;
    }
  }

  /** On an upward same-file path the walk takes d - 2 steps for a distance d,
      so the cell just below the destination is never read: a piece there does
      not block the move. */
  lemma BlockedSkipsLastCellUp(b: Board, r0: int, r1: int, f: int, x: Square)
    requires OnBoard(r0, f) && OnBoard(r1, f) && r1 - r0 >= 2
    ensures Blocked(b[Index(r1 - 1, f) := x], r0, r1, f, f) == Blocked(b, r0, r1, f, f)
  {
    var n := StepCount(r0, r1, f, f);
    assert n == r1 - r0 - 2;
    forall t | 1 <= t <= n
      ensures ProbeAt(r0, f, 1, 0, t) != Index(r1 - 1, f)
    {
    }
    NotProbed(r0, f, 1, 0, n, Index(r1 - 1, f));
    WalkFrame(b, r0, f, 1, 0, n, Index(r1 - 1, f), x);
  }

  /** On a same-rank path toward file a, the walk still steps toward file h:
      it reads the cells to the right of the source, never the cells the
      piece crosses. */
  lemma BlockedLeftwardReadsRightward(b: Board, r: int, f0: int, f1: int, g: int, x: Square)
    requires OnBoard(r, f0) && OnBoard(r, f1) && OnBoard(r, g) && f1 < g < f0
    ensures Blocked(b[Index(r, g) := x], r, r, f0, f1) == Blocked(b, r, r, f0, f1)
  {
    var n := StepCount(r, r, f0, f1);
    forall t | 1 <= t <= n
      ensures ProbeAt(r, f0, 0, 1, t) != Index(r, g)
    {
    }
    NotProbed(r, f0, 0, 1, n, Index(r, g));
    WalkFrame(b, r, f0, 0, 1, n, Index(r, g), x);
  }

  /** A same-file move from rank 8 to rank 1 probes flat index 64 first, past
      the end of the board. */
  lemma BlockedRunsOffTheBoard(b: Board, f: int)
    requires 0 <= f < 8
    ensures Blocked(b, 7, 0, f, f) == OffBoard(64 + f)
  {
  }
}
