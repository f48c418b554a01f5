/** The loops of `check` in chess.c, statement by statement: the knight scan
    with its carried-over colour and type variables, then the ray walk with
    its 3x3 table of finished directions, distance in the outer loop. The
    method computes the same answer as the recursive definition in Attack. */
module CheckLoop {
  import opened Pieces
  import opened Attack

  /** A direction's state between distances: once marked finished its ray has
      no threat; otherwise its ray from distance 1 agrees with its ray from
      the current distance. */
  ghost predicate Pending(b: Board, i: int, j: int, k: int, l: int, inc: int, player: char, done: bool) {
    (done ==> !Ray(b, i, j, k, l, 1, player)) && (!done ==> (Ray(b, i, j, k, l, 1, player) <==> Ray(b, i, j, k, l, inc, player)))
  }

  predicate Table(dir: seq<seq<bool>>) {
    |dir| == 3 && forall r :: 0 <= r < 3 ==> |dir[r]| == 3
  }

  /** The body of the knight loops for one (m, n): each probe inside the
      inner 6x6 square reloads its colour and type, a probe outside leaves the
      previous ones, which never matched. */
  method KnightProbe(b: Board, i: int, j: int, m: int, n: int, player: char,
                     color1: char, type1: char, color2: char, type2: char)
    returns (c1: char, t1: char, c2: char, t2: char)
    requires !(color1 != player && type1 == Knight) && !(color2 != player && type2 == Knight)
    ensures ((c1 != player && t1 == Knight) || (c2 != player && t2 == Knight)) <==>
            (KnightAt(b, i + m, j + n, player) || KnightAt(b, i + n, j + m, player))
  {
    c1, t1, c2, t2 := color1, type1, color2, type2;
    if i + m < 7 && i + m > 0 && j + n < 7 && j + n > 0 {
      var piece1 := b[Index(i + m, j + n)];
      c1, t1 := piece1.color, piece1.kind;
    }
    if i + n < 7 && i + n > 0 && j + m < 7 && j + m > 0 {
      var piece2 := b[Index(i + n, j + m)];
      c2, t2 := piece2.color, piece2.kind;
    }
  }

  /** The scan of the eight knight cells, two probes per pass. */
  method KnightScan(b: Board, i: int, j: int, player: char) returns (found: bool)
    ensures found == KnightThreat(b, i, j, player)
  {
    var dx := [1, -1];
    var dy := [2, -2];
    var color1, type1, color2, type2 := 0 as char, 0 as char, 0 as char, 0 as char;
    var k := 0;
    while k < 2
      invariant 0 <= k <= 2
      invariant !(color1 != player && type1 == Knight) && !(color2 != player && type2 == Knight)
      invariant forall u :: 0 <= u < 2 * k ==> !KnightPair(b, i, j, u, player)
    {
      var m := dx[k];
      var l := 0;
      while l < 2
        invariant 0 <= l <= 2
        invariant !(color1 != player && type1 == Knight) && !(color2 != player && type2 == Knight)
        invariant forall u :: 0 <= u < 2 * k + l ==> !KnightPair(b, i, j, u, player)
      {
        var n := dy[l];
        assert (2 * k + l) / 2 == k && (2 * k + l) % 2 == l;
        assert KnightPair(b, i, j, 2 * k + l, player) <==>
               (KnightAt(b, i + m, j + n, player) || KnightAt(b, i + n, j + m, player));
        color1, type1, color2, type2 := KnightProbe(b, i, j, m, n, player, color1, type1, color2, type2);
        if (color1 != player && type1 == Knight) || (color2 != player && type2 == Knight) {
          KnightsFromMeaning(b, i, j, player, 0);
          return true;
        }
        l := l + 1;
      }
      k := k + 1;
    }
    KnightsFromMeaning(b, i, j, player, 0);
    return false;
  }

  /** The body of the ray loop at the on-board cell at distance inc in
      direction (k, l): a threat, or whether the direction is now finished. */
  method VisitCell(b: Board, i: int, j: int, k: int, l: int, inc: int, player: char) returns (threat: bool, finished: bool)
    requires 1 <= inc < 8 && Direction(k, l) && OnBoard(Coord(i, k, inc), Coord(j, l, inc))
    ensures threat ==> Ray(b, i, j, k, l, inc, player)
    ensures !threat && finished ==> !Ray(b, i, j, k, l, inc, player)
    ensures !threat && !finished ==> (Ray(b, i, j, k, l, inc, player) <==> Ray(b, i, j, k, l, inc + 1, player))
  {
    var opponent := Other(player);
    var m := Coord(i, k, inc);
    var n := Coord(j, l, inc);
    var piece := b[Index(m, n)];
    var color := piece.color;
    var kind := piece.kind;
    assert (m == i || n == j) == (k == 2 || l == 2);
    threat, finished := false, false;
    if color == player {
      finished := true;
      return;
    }
    if inc == 1 && kind == King {
      threat := true;
    } else if kind == Queen {
      threat := true;
    } else if m == i || n == j {
      if kind == Rook {
        threat := true;
      }
    } else if kind == Bishop {
      threat := true;
    } else if inc == 1 && kind == Pawn {
      if player == White && m > i {
        threat := true;
      } else if player == Black && m < i {
        threat := true;
      }
    }
    if !threat && color == opponent {
      finished := true;
    }
  }

  /** The walk's state inside distance inc, before cell (k, l) of the table:
      the directions already visited at this distance are pending at inc + 1,
      the others at inc. */
  ghost predicate Staged(b: Board, i: int, j: int, player: char, inc: int, k: int, l: int, dir: seq<seq<bool>>) {
    Table(dir) &&
    forall k', l' :: Direction(k', l') ==>
      Pending(b, i, j, k', l', if k' < k || (k' == k && l' < l) then inc + 1 else inc, player, dir[k'][l'])
  }

  /** Visiting cell (k, l) with the outcome v moves that cell to inc + 1. */
  lemma StageCell(b: Board, i: int, j: int, player: char, inc: int, k: int, l: int, dir: seq<seq<bool>>, v: bool)
    requires 0 <= k < 3 && 0 <= l < 3 && Staged(b, i, j, player, inc, k, l, dir)
    requires Direction(k, l) ==> Pending(b, i, j, k, l, inc + 1, player, v)
    ensures Staged(b, i, j, player, inc, k, l + 1, dir[k := dir[k][l := v]])
  {
    var dir' := dir[k := dir[k][l := v]];
    forall k', l' | Direction(k', l')
      ensures Pending(b, i, j, k', l', if k' < k || (k' == k && l' < l + 1) then inc + 1 else inc, player, dir'[k'][l'])
    {
      if k' != k || l' != l {
        assert dir'[k'][l'] == dir[k'][l'];
      }
    }
  }

  /** A cell skipped as finished, as the centre, or as off the board moves to
      inc + 1 unchanged. */
  lemma StageSkip(b: Board, i: int, j: int, player: char, inc: int, k: int, l: int, dir: seq<seq<bool>>)
    requires 0 <= k < 3 && 0 <= l < 3 && 1 <= inc < 8 && Staged(b, i, j, player, inc, k, l, dir)
    requires dir[k][l] || (k == 2 && l == 2) || !OnBoard(Coord(i, k, inc), Coord(j, l, inc))
    ensures Staged(b, i, j, player, inc, k, l + 1, dir)
  {
    StageKeep(b, i, j, player, inc, k, l, dir);
  }

  /** A cell whose entry stays as it is moves to inc + 1 once it is pending there. */
  lemma StageKeep(b: Board, i: int, j: int, player: char, inc: int, k: int, l: int, dir: seq<seq<bool>>)
    requires 0 <= k < 3 && 0 <= l < 3 && Staged(b, i, j, player, inc, k, l, dir)
    requires Direction(k, l) ==> Pending(b, i, j, k, l, inc + 1, player, dir[k][l])
    ensures Staged(b, i, j, player, inc, k, l + 1, dir)
  {
    assert dir[k][l := dir[k][l]] == dir[k];
    assert dir[k := dir[k][l := dir[k][l]]] == dir;
    StageCell(b, i, j, player, inc, k, l, dir, dir[k][l]);
  }

  /** A rank off the board skips its whole row. */
  lemma StageRow(b: Board, i: int, j: int, player: char, inc: int, k: int, dir: seq<seq<bool>>)
    requires 0 <= k < 3 && 1 <= inc < 8 && Staged(b, i, j, player, inc, k, 0, dir)
    requires !(0 <= Coord(i, k, inc) <= 7)
    ensures Staged(b, i, j, player, inc, k + 1, 0, dir)
  {
    StageSkip(b, i, j, player, inc, k, 0, dir);
    StageSkip(b, i, j, player, inc, k, 1, dir);
    StageSkip(b, i, j, player, inc, k, 2, dir);
  }

  /** The ray walk: distance in the outer loop, then the three rank choices
      (a rank off the board skips its row), then the three file choices. */
  method RayScan(b: Board, i: int, j: int, player: char) returns (found: bool)
    ensures found == RayThreat(b, i, j, player)
  {
    var dir: seq<seq<bool>> := [[false, false, false], [false, false, false], [false, false, false]];
    var inc := 1;
    while inc < 8
      invariant 1 <= inc <= 8 && Staged(b, i, j, player, inc, 0, 0, dir)
      decreases 8 - inc
    {
      var iindexes := [i + inc, i - inc, i];
      var jindexes := [j + inc, j - inc, j];
      var k := 0;
      while k < 3
        invariant 0 <= k <= 3 && Staged(b, i, j, player, inc, k, 0, dir)
      {
        var m := iindexes[k];
        assert m == Coord(i, k, inc);
        if m > 7 || m < 0 {
          StageRow(b, i, j, player, inc, k, dir);
          k := k + 1;
          continue;
        }
        var l := 0;
        while l < 3
          invariant 0 <= l <= 3 && Staged(b, i, j, player, inc, k, l, dir)
        {
          var n := jindexes[l];
          assert n == Coord(j, l, inc);
          if dir[k][l] || (m == i && n == j) {
            StageSkip(b, i, j, player, inc, k, l, dir);
            l := l + 1;
            continue;
          }
          if n > 7 || n < 0 {
            StageSkip(b, i, j, player, inc, k, l, dir);
            l := l + 1;
            continue;
          }
          var threat, finished := VisitCell(b, i, j, k, l, inc, player);
          if threat {
            assert Pending(b, i, j, k, l, inc, player, dir[k][l]);
            RayGivesThreat(b, i, j, k, l, player);
            return true;
          }
          if finished {
            StageCell(b, i, j, player, inc, k, l, dir, true);
            dir := dir[k := dir[k][l := true]];
          } else {
            StageKeep(b, i, j, player, inc, k, l, dir);
          }
          l := l + 1;
        }
        assert Staged(b, i, j, player, inc, k + 1, 0, dir);
        k := k + 1;
      }
      assert Staged(b, i, j, player, inc + 1, 0, 0, dir);
      inc := inc + 1;
    }
    NoRayNoThreat(b, i, j, player);
    return false;
  }

  lemma RayGivesThreat(b: Board, i: int, j: int, k: int, l: int, player: char)
    requires Direction(k, l) && Ray(b, i, j, k, l, 1, player)
    ensures RayThreat(b, i, j, player)
  {
    RayThreatMeaning(b, i, j, player);
  }

  lemma NoRayNoThreat(b: Board, i: int, j: int, player: char)
    requires forall k, l :: Direction(k, l) ==> !Ray(b, i, j, k, l, 1, player)
    ensures !RayThreat(b, i, j, player)
  {
    RayThreatMeaning(b, i, j, player);
  }

  /** check(i, j, player): the knight scan, then the ray walk. */
  method CheckScan(b: Board, i: int, j: int, player: char) returns (attacked: bool)
    ensures attacked == Check(b, i, j, player)
  {
    attacked := KnightScan(b, i, j, player);
    if !attacked {
      attacked := RayScan(b, i, j, player);
    }
  }
}
