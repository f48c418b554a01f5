/** The attack test `check` of chess.c: is the king of `player` standing on
    (i, j) attacked? It scans the eight knight offsets, then walks the eight
    rays out of (i, j) one distance at a time. */
module Attack {
  import opened Pieces

  function Other(p: char): char {
    if p == White then Black else White
  }

  /** The three coordinate choices at distance inc: up, down or unchanged. */
  function Coord(x: int, k: int, inc: int): int {
    if k == 0 then x + inc else if k == 1 then x - inc else x
  }

  predicate Direction(k: int, l: int) {
    0 <= k < 3 && 0 <= l < 3 && !(k == 2 && l == 2)
  }

  // ---------------- knights ----------------

  /** A knight that is not the player's, on a cell strictly inside the board:
      the scan skips ranks and files 0 and 7. */
  predicate KnightAt(b: Board, r: int, f: int, player: char) {
    0 < r < 7 && 0 < f < 7 && b[Index(r, f)].color != player && b[Index(r, f)].kind == Knight
  }

  /** The eight L-shaped offsets: (±1 rank, ±2 files) and (±2 ranks, ±1 file). */
  predicate KnightOffsets(b: Board, i: int, j: int, player: char) {
    || KnightAt(b, i + 1, j + 2, player) || KnightAt(b, i + 2, j + 1, player)
    || KnightAt(b, i + 1, j - 2, player) || KnightAt(b, i - 2, j + 1, player)
    || KnightAt(b, i - 1, j + 2, player) || KnightAt(b, i + 2, j - 1, player)
    || KnightAt(b, i - 1, j - 2, player) || KnightAt(b, i - 2, j - 1, player)
  }

  /** The two probes of pass t of the knight loops: m is 1 or -1 as t / 2 is
      0 or 1, n is 2 or -2 as t % 2 is 0 or 1, and the probes are (i + m, j + n)
      and (i + n, j + m). */
  predicate KnightPair(b: Board, i: int, j: int, t: int, player: char) {
    var m := if t / 2 == 0 then 1 else -1;
    var n := if t % 2 == 0 then 2 else -2;
    KnightAt(b, i + m, j + n, player) || KnightAt(b, i + n, j + m, player)
  }

  /** Some pass from t on of the four passes of the knight loops sees a knight. */
  predicate KnightsFrom(b: Board, i: int, j: int, player: char, t: nat)
    decreases 4 - t
  {
    if t >= 4 then false
    else KnightPair(b, i, j, t, player) || KnightsFrom(b, i, j, player, t + 1)
  }

  predicate KnightThreat(b: Board, i: int, j: int, player: char) {
    KnightsFrom(b, i, j, player, 0)
  }

  lemma {:induction false} KnightsFromMeaning(b: Board, i: int, j: int, player: char, t: nat)
    requires t <= 4
    ensures KnightsFrom(b, i, j, player, t) <==> exists u :: t <= u < 4 && KnightPair(b, i, j, u, player)
    decreases 4 - t
  {
    if t < 4 {
      KnightsFromMeaning(b, i, j, player, t + 1);
      if exists u :: t <= u < 4 && KnightPair(b, i, j, u, player) {
        var u :| t <= u < 4 && KnightPair(b, i, j, u, player);
        assert u == t || (t + 1 <= u < 4 && KnightPair(b, i, j, u, player));
      }
    }
  }

  /** The four passes of the knight loops probe exactly the eight offsets. */
  lemma KnightThreatMeaning(b: Board, i: int, j: int, player: char)
    ensures KnightThreat(b, i, j, player) <==> KnightOffsets(b, i, j, player)
  {
    assert !KnightsFrom(b, i, j, player, 4);
    assert KnightsFrom(b, i, j, player, 3) == KnightPair(b, i, j, 3, player);
    assert KnightsFrom(b, i, j, player, 2) == (KnightPair(b, i, j, 2, player) || KnightsFrom(b, i, j, player, 3));
    assert KnightsFrom(b, i, j, player, 1) == (KnightPair(b, i, j, 1, player) || KnightsFrom(b, i, j, player, 2));
    assert KnightsFrom(b, i, j, player, 0) == (KnightPair(b, i, j, 0, player) || KnightsFrom(b, i, j, player, 1));
  }

  // ---------------- rays ----------------

  /** What the ray loop does at one cell. */
  datatype Seen = Threat | Stop | Pass

  /** The pawn test: a pawn threatens a white king from a higher rank and a
      black king from a lower one. */
  predicate PawnSide(player: char, m: int, i: int) {
    (player == White && m > i) || (player == Black && m < i)
  }

  /** The classification of a cell met at distance inc on a ray. A cell of the
      player's colour ends the ray; otherwise the piece tests run in order; a
      straight ray that meets no rook stops testing there; and a cell of the
      opponent's colour that is no threat ends the ray. */
  function Classify(sq: Square, inc: int, straight: bool, pawnSide: bool, player: char): Seen {
    if sq.color == player then Stop
    else if inc == 1 && sq.kind == King then Threat
    else if sq.kind == Queen then Threat
    else if straight && sq.kind == Rook then Threat
    else if !straight && sq.kind == Bishop then Threat
    else if !straight && inc == 1 && sq.kind == Pawn && pawnSide then Threat
    else if sq.color == Other(player) then Stop
    else Pass
  }

  /** The ray in direction (k, l) from distance inc to distance 7: cells off
      the board are skipped. */
  function Ray(b: Board, i: int, j: int, k: int, l: int, inc: int, player: char): bool
    decreases 8 - inc
  {
    if inc >= 8 then false
    else
      var m := Coord(i, k, inc);
      var n := Coord(j, l, inc);
      if !OnBoard(m, n) then Ray(b, i, j, k, l, inc + 1, player)
      else
        match Classify(b[Index(m, n)], inc, k == 2 || l == 2, PawnSide(player, m, i), player)
        case Threat => true
        case Stop => false
        case Pass => Ray(b, i, j, k, l, inc + 1, player)
  }

  /** The ray at position t of the 3x3 direction table, row t / 3 and
      column t % 3, walked from distance 1. */
  predicate RayAt(b: Board, i: int, j: int, t: int, player: char) {
    Ray(b, i, j, t / 3, t % 3, 1, player)
  }

  /** Some ray at table position t or later finds a threat; position 8 is the
      centre (2, 2), which is no direction. */
  predicate RaysFrom(b: Board, i: int, j: int, player: char, t: nat)
    decreases 8 - t
  {
    if t >= 8 then false
    else RayAt(b, i, j, t, player) || RaysFrom(b, i, j, player, t + 1)
  }

  /** Some of the eight rays, walked from distance 1, finds a threat. */
  predicate RayThreat(b: Board, i: int, j: int, player: char) {
    RaysFrom(b, i, j, player, 0)
  }

  /** check(i, j, player). */
  predicate Check(b: Board, i: int, j: int, player: char) {
    KnightThreat(b, i, j, player) || RayThreat(b, i, j, player)
  }

  lemma {:induction false} RaysFromMeaning(b: Board, i: int, j: int, player: char, t: nat)
    requires t <= 8
    ensures RaysFrom(b, i, j, player, t) <==> exists u :: t <= u < 8 && RayAt(b, i, j, u, player)
    decreases 8 - t
  {
    if t < 8 {
      RaysFromMeaning(b, i, j, player, t + 1);
      if exists u :: t <= u < 8 && RayAt(b, i, j, u, player) {
        var u :| t <= u < 8 && RayAt(b, i, j, u, player);
        assert u == t || (t + 1 <= u < 8 && RayAt(b, i, j, u, player));
      }
    }
  }

  /** The table walk finds a threat exactly when one of the eight directions does. */
  lemma RayThreatMeaning(b: Board, i: int, j: int, player: char)
    ensures RayThreat(b, i, j, player) <==> exists k, l :: Direction(k, l) && Ray(b, i, j, k, l, 1, player)
  {
    RaysFromMeaning(b, i, j, player, 0);
    if exists k, l :: Direction(k, l) && Ray(b, i, j, k, l, 1, player) {
      var k, l :| Direction(k, l) && Ray(b, i, j, k, l, 1, player);
      var u := 3 * k + l;
      assert u / 3 == k && u % 3 == l;
      assert RayAt(b, i, j, u, player);
    }
    if exists u :: 0 <= u < 8 && RayAt(b, i, j, u, player) {
      var u :| 0 <= u < 8 && RayAt(b, i, j, u, player);
      assert Direction(u / 3, u % 3);
    }
  }

  // ---------------- the reference meaning ----------------

  /** The cell at distance d in direction (k, l), or "**" off the board. */
  function CellAt(b: Board, i: int, j: int, k: int, l: int, d: int): Square {
    var m := Coord(i, k, d);
    var n := Coord(j, l, d);
    if OnBoard(m, n) then b[Index(m, n)] else Empty
  }

  /** An opponent piece that attacks along a ray from distance d: a queen at
      any distance, a king next door, a rook on a straight ray, a bishop on a
      diagonal, and a pawn one diagonal step away on its capturing side. */
  predicate Attacker(sq: Square, d: int, straight: bool, pawnSide: bool, player: char) {
    sq.color == Other(player) &&
    (|| sq.kind == Queen
     || (d == 1 && sq.kind == King)
     || (straight && sq.kind == Rook)
     || (!straight && sq.kind == Bishop)
     || (!straight && d == 1 && sq.kind == Pawn && pawnSide))
  }

  /** Every cell from distance `from` up to, not including, d is empty. */
  ghost predicate ClearFrom(b: Board, i: int, j: int, k: int, l: int, from: int, d: int) {
    forall e :: from <= e < d ==> CellAt(b, i, j, k, l, e) == Empty
  }

  /** The cell at distance d is on the board, holds an attacker, and every
      cell before it from distance `from` on is empty. */
  ghost predicate AttackAt(b: Board, i: int, j: int, k: int, l: int, from: int, d: int, player: char) {
    && from <= d <= 7 && OnBoard(Coord(i, k, d), Coord(j, l, d))
    && ClearFrom(b, i, j, k, l, from, d)
    && Attacker(CellAt(b, i, j, k, l, d), d, k == 2 || l == 2, PawnSide(player, Coord(i, k, d), i), player)
  }

  /** The first piece at distance from..7 on the ray is on the board and
      attacks the player's king. */
  ghost predicate FirstPieceAttacks(b: Board, i: int, j: int, k: int, l: int, from: int, player: char) {
    exists d :: AttackAt(b, i, j, k, l, from, d, player)
  }

  predicate Side(p: char) {
    p == White || p == Black
  }

  /** On a ray that has left the board at distance d, every later cell is off
      the board too. */
  lemma OffStaysOff(i: int, j: int, k: int, l: int, d: int, e: int)
    requires OnBoard(i, j) && Direction(k, l) && 1 <= d <= e
    requires !OnBoard(Coord(i, k, d), Coord(j, l, d))
    ensures !OnBoard(Coord(i, k, e), Coord(j, l, e))
  {
  }

  /** On a well-formed board the loop's tests agree with the attacker
      definition: an empty cell is passed over, and a piece is a threat if it
      attacks and ends the ray otherwise. */
  lemma ClassifyMeaning(sq: Square, inc: int, straight: bool, pawnSide: bool, player: char)
    requires WellFormedSquare(sq) && Side(player)
    ensures sq == Empty ==> Classify(sq, inc, straight, pawnSide, player) == Pass
    ensures sq != Empty ==>
              (Classify(sq, inc, straight, pawnSide, player) == Threat <==> Attacker(sq, inc, straight, pawnSide, player))
    ensures sq != Empty ==> Classify(sq, inc, straight, pawnSide, player) != Pass
  {
  }

  lemma RayOffBoard(b: Board, i: int, j: int, k: int, l: int, inc: int, player: char)
    requires OnBoard(i, j) && Direction(k, l) && 1 <= inc
    requires !OnBoard(Coord(i, k, inc), Coord(j, l, inc))
    ensures !FirstPieceAttacks(b, i, j, k, l, inc, player)
    ensures !FirstPieceAttacks(b, i, j, k, l, inc + 1, player)
  {
    forall d | inc <= d
      ensures !AttackAt(b, i, j, k, l, inc, d, player) && !AttackAt(b, i, j, k, l, inc + 1, d, player)
    {
      OffStaysOff(i, j, k, l, inc, d);
    }
  }

  lemma RayPassesEmpty(b: Board, i: int, j: int, k: int, l: int, inc: int, player: char)
    requires 1 <= inc < 8 && CellAt(b, i, j, k, l, inc) == Empty
    ensures FirstPieceAttacks(b, i, j, k, l, inc, player) <==> FirstPieceAttacks(b, i, j, k, l, inc + 1, player)
  {
    if FirstPieceAttacks(b, i, j, k, l, inc, player) {
      var d :| AttackAt(b, i, j, k, l, inc, d, player);
      assert d != inc;
      assert AttackAt(b, i, j, k, l, inc + 1, d, player);
    }
    if FirstPieceAttacks(b, i, j, k, l, inc + 1, player) {
      var d :| AttackAt(b, i, j, k, l, inc + 1, d, player);
      assert AttackAt(b, i, j, k, l, inc, d, player);
    }
  }

  lemma RayMeetsPiece(b: Board, i: int, j: int, k: int, l: int, inc: int, player: char)
    requires 1 <= inc < 8 && OnBoard(Coord(i, k, inc), Coord(j, l, inc))
    requires CellAt(b, i, j, k, l, inc) != Empty
    ensures FirstPieceAttacks(b, i, j, k, l, inc, player) <==>
            Attacker(CellAt(b, i, j, k, l, inc), inc, k == 2 || l == 2, PawnSide(player, Coord(i, k, inc), i), player)
  {
    if FirstPieceAttacks(b, i, j, k, l, inc, player) {
      var d :| AttackAt(b, i, j, k, l, inc, d, player);
      assert d == inc;
    }
    if Attacker(CellAt(b, i, j, k, l, inc), inc, k == 2 || l == 2, PawnSide(player, Coord(i, k, inc), i), player) {
      assert AttackAt(b, i, j, k, l, inc, inc, player);
    }
  }

  /** The ray loop finds a threat exactly when the first piece on the ray, from
      distance inc on, is an opponent piece attacking along that ray. */
  lemma {:induction false} RayMeaning(b: Board, i: int, j: int, k: int, l: int, inc: int, player: char)
    requires OnBoard(i, j) && Direction(k, l) && 1 <= inc <= 8
    requires WellFormedBoard(b) && Side(player)
    ensures Ray(b, i, j, k, l, inc, player) <==> FirstPieceAttacks(b, i, j, k, l, inc, player)
    decreases 8 - inc
  {
    if inc < 8 {
      var m := Coord(i, k, inc);
      var n := Coord(j, l, inc);
      RayMeaning(b, i, j, k, l, inc + 1, player);
      if !OnBoard(m, n) {
        RayOffBoard(b, i, j, k, l, inc, player);
      } else {
        var sq := b[Index(m, n)];
        assert CellAt(b, i, j, k, l, inc) == sq;
        IndexInRange(m, n);
        ClassifyMeaning(sq, inc, k == 2 || l == 2, PawnSide(player, m, i), player);
        if sq == Empty {
          RayPassesEmpty(b, i, j, k, l, inc, player);
        } else {
          RayMeetsPiece(b, i, j, k, l, inc, player);
        }
      }
    } else {
      assert forall d :: !AttackAt(b, i, j, k, l, inc, d, player);
    }
  }

  /** check in reference terms: an opponent knight on one of the L-shaped
      cells the scan looks at, or an attacker first in line on one of the
      eight rays. */
  lemma CheckMeaning(b: Board, i: int, j: int, player: char)
    requires OnBoard(i, j) && WellFormedBoard(b) && Side(player)
    ensures Check(b, i, j, player) <==>
            KnightOffsets(b, i, j, player)
            || exists k, l :: Direction(k, l) && FirstPieceAttacks(b, i, j, k, l, 1, player)
  {
    KnightThreatMeaning(b, i, j, player);
    RayThreatMeaning(b, i, j, player);
    forall k, l | Direction(k, l)
      ensures Ray(b, i, j, k, l, 1, player) <==> FirstPieceAttacks(b, i, j, k, l, 1, player)
    {
      RayMeaning(b, i, j, k, l, 1, player);
    }
    if exists k, l :: Direction(k, l) && FirstPieceAttacks(b, i, j, k, l, 1, player) {
      var k, l :| Direction(k, l) && FirstPieceAttacks(b, i, j, k, l, 1, player);
      assert Ray(b, i, j, k, l, 1, player);
    }
  }

  /** The knight scan never reads the outer ranks and files: a knight there
      gives no check, whatever it is. */
  lemma KnightScanSkipsEdges(b: Board, i: int, j: int, player: char, r: int, f: int, x: Square)
    requires OnBoard(r, f) && (r == 0 || r == 7 || f == 0 || f == 7)
    ensures KnightThreat(b[Index(r, f) := x], i, j, player) == KnightThreat(b, i, j, player)
  {
    var b' := b[Index(r, f) := x];
    forall r', f' | 0 < r' < 7 && 0 < f' < 7
      ensures b'[Index(r', f')] == b[Index(r', f')]
    {
      IndexInjective(r, f, r', f');
    }
    KnightsFromAgree(b, b', i, j, player, 0);
  }

  /** A knight the scan does see, placed an L away from the king, gives check. */
  lemma InnerKnightChecks(b: Board, i: int, j: int, player: char)
    requires OnBoard(i, j) && 0 < i + 2 < 7 && 0 < j + 1 < 7
    ensures Check(b[Index(i + 2, j + 1) := Square(Other(player), Knight)], i, j, player)
  {
    var b' := b[Index(i + 2, j + 1) := Square(Other(player), Knight)];
    assert KnightAt(b', i + 2, j + 1, player);
    KnightThreatMeaning(b', i, j, player);
  }
  /** Writing a cell the ray never reaches from distance inc on does not
      change the ray's answer. */
  lemma {:induction false} RayFrame(b: Board, i: int, j: int, k: int, l: int, inc: int, player: char, idx: int, x: Square)
    requires 0 <= idx < 64
    requires forall d :: inc <= d < 8 && OnBoard(Coord(i, k, d), Coord(j, l, d)) ==> Index(Coord(i, k, d), Coord(j, l, d)) != idx
    ensures Ray(b[idx := x], i, j, k, l, inc, player) == Ray(b, i, j, k, l, inc, player)
    decreases 8 - inc
  {
    if inc < 8 {
      RayFrame(b, i, j, k, l, inc + 1, player, idx, x);
    }
  }

  /** Two boards whose knight passes from t on agree see the same knights. */
  lemma {:induction false} KnightsFromAgree(b: Board, b': Board, i: int, j: int, player: char, t: nat)
    requires forall u :: t <= u < 4 ==> KnightPair(b, i, j, u, player) == KnightPair(b', i, j, u, player)
    ensures KnightsFrom(b, i, j, player, t) == KnightsFrom(b', i, j, player, t)
    decreases 4 - t
  {
    if t < 4 {
      KnightsFromAgree(b, b', i, j, player, t + 1);
    }
  }

  /** Two boards whose rays from table position t on agree see the same threats. */
  lemma {:induction false} RaysFromAgree(b: Board, b': Board, i: int, j: int, player: char, t: nat)
    requires forall u :: t <= u < 8 ==> RayAt(b, i, j, u, player) == RayAt(b', i, j, u, player)
    ensures RaysFrom(b, i, j, player, t) == RaysFrom(b', i, j, player, t)
    decreases 8 - t
  {
    if t < 8 {
      RaysFromAgree(b, b', i, j, player, t + 1);
    }
  }

  /** check never reads the king's own square, so what stands there does not
      matter. */
  lemma CheckIgnoresOwnSquare(b: Board, i: int, j: int, player: char, x: Square)
    requires OnBoard(i, j)
    ensures Check(b[Index(i, j) := x], i, j, player) == Check(b, i, j, player)
  {
    KnightsIgnoreOwnSquare(b, i, j, player, x);
    forall u | 0 <= u < 8
      ensures RayAt(b, i, j, u, player) == RayAt(b[Index(i, j) := x], i, j, u, player)
    {
      RayIgnoresOwnSquare(b, i, j, u, player, x);
    }
    RaysFromAgree(b, b[Index(i, j) := x], i, j, player, 0);
  }

  lemma KnightsIgnoreOwnSquare(b: Board, i: int, j: int, player: char, x: Square)
    requires OnBoard(i, j)
    ensures KnightThreat(b[Index(i, j) := x], i, j, player) == KnightThreat(b, i, j, player)
  {
    var b' := b[Index(i, j) := x];
    forall r, f | OnBoard(r, f) && (r != i || f != j)
      ensures b'[Index(r, f)] == b[Index(r, f)]
    {
      IndexInjective(r, f, i, j);
    }
    KnightsFromAgree(b, b', i, j, player, 0);
  }

  lemma RayIgnoresOwnSquare(b: Board, i: int, j: int, u: int, player: char, x: Square)
    requires OnBoard(i, j) && 0 <= u < 8
    ensures RayAt(b[Index(i, j) := x], i, j, u, player) == RayAt(b, i, j, u, player)
  {
    var k, l := u / 3, u % 3;
    forall d | 1 <= d < 8 && OnBoard(Coord(i, k, d), Coord(j, l, d))
      ensures Index(Coord(i, k, d), Coord(j, l, d)) != Index(i, j)
    {
      IndexInjective(Coord(i, k, d), Coord(j, l, d), i, j);
    }
    RayFrame(b, i, j, k, l, 1, player, Index(i, j), x);
  }
}
