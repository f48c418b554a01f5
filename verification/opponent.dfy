/** The computer player `computer_move` of chess.c: a centre-pawn push on
    its first turn, then a king-only player that takes the first safe
    neighbouring square in scan order, or declares a tie. */
module Opponent {
  import opened Pieces
  import opened Command
  import opened Attack
  import opened State

  /** The squares of the opening push: e2-e4 for White, e7-e5 otherwise. */
  function PushFrom(comp: char): int {
    if comp == White then Index(1, 4) else Index(6, 4)
  }

  function PushTo(comp: char): int {
    if comp == White then Index(3, 4) else Index(4, 4)
  }

  /** computer_move(). */
  function ComputerMove(g: Game): (h: Game)
    requires OnBoardPos(KingCache(g, g.comp))
    ensures h.human == g.human && h.comp == g.comp && h.games == g.games && h.mated == g.mated
    ensures CachesOnBoard(g) ==> CachesOnBoard(h)
  {
    if g.turn != g.comp then g.(reply := OutOfTurn)
    else if g.moves <= 1 then
      var from, to := PushFrom(g.comp), PushTo(g.comp);
      g.(board := g.board[to := g.board[from]][from := Empty],
         moves := g.moves + 1, turn := g.human, reply := Ok)
    else
      var c := KingCache(g, g.comp);
      var king := g.board[Index(c.rank, c.file)];
      var lifted := Lift(g.board, c);
      match FirstSafe(Safety(lifted, c.rank, c.file, g.comp), 0)
      case Some(t) =>
        ScanFound(lifted, c.rank, c.file, g.comp);
        var q := Neighbour(c.rank, c.file, t);
        SetKingCache(g, g.comp, q).(board := lifted[Index(q.rank, q.file) := king],
                                    turn := g.human, reply := Ok, moves := g.moves + 1)
      case None =>
        g.(turn := g.human, initialized := false, reply := Tie)
  }

  /** Out of turn: only the reply changes. */
  lemma ComputerOutOfTurn(g: Game)
    requires OnBoardPos(KingCache(g, g.comp)) && g.turn != g.comp
    ensures ComputerMove(g) == g.(reply := OutOfTurn)
  {
  }

  /** The first computer turn moves whatever stands on the push square two
      ranks forward, whatever stands on the target, and nothing else. */
  lemma OpeningPushIgnoresContents(g: Game)
    requires OnBoardPos(KingCache(g, g.comp)) && g.turn == g.comp && g.moves <= 1
    ensures var h := ComputerMove(g);
            var from, to := PushFrom(g.comp), PushTo(g.comp);
            && h.board[to] == g.board[from] && h.board[from] == Empty
            && (forall k :: 0 <= k < 64 && k != from && k != to ==> h.board[k] == g.board[k])
            && h.moves == g.moves + 1 && h.turn == g.human && h.reply == Ok
            && h.wking == g.wking && h.bking == g.bking && h.initialized == g.initialized
  {
  }

  /** The scan's verdicts on the lifted board of the computer's king. */
  function ComputerSafety(g: Game): (s: seq<bool>)
    requires OnBoardPos(KingCache(g, g.comp))
    ensures |s| == 8
  {
    var c := KingCache(g, g.comp);
    Safety(Lift(g.board, c), c.rank, c.file, g.comp)
  }

  /** A computer move whose scan stops at position t steps the king there and
      moves nothing else. */
  lemma KingStepMoves(g: Game, t: nat)
    requires OnBoardPos(KingCache(g, g.comp)) && g.turn == g.comp && g.moves > 1
    requires FirstSafe(ComputerSafety(g), 0) == Some(t)
    ensures var h := ComputerMove(g);
            var c := KingCache(g, g.comp);
            var q := Neighbour(c.rank, c.file, t);
            && OnBoardPos(q) && Escape(Lift(g.board, c), q, g.comp)
            && KingCache(h, g.comp) == q
            && (g.comp == White ==> h.bking == g.bking) && (g.comp != White ==> h.wking == g.wking)
            && h.board == Lift(g.board, c)[Index(q.rank, q.file) := g.board[Index(c.rank, c.file)]]
            && h.turn == g.human && h.reply == Ok && h.moves == g.moves + 1 && h.initialized == g.initialized
  {
    var c := KingCache(g, g.comp);
    ScanFound(Lift(g.board, c), c.rank, c.file, g.comp);
  }

  /** The board after such a step, cell by cell: the king on its new square,
      its old square empty, every other cell as before. */
  lemma KingStepBoard(g: Game, t: nat)
    requires OnBoardPos(KingCache(g, g.comp)) && g.turn == g.comp && g.moves > 1
    requires FirstSafe(ComputerSafety(g), 0) == Some(t)
    ensures var h := ComputerMove(g);
            var c := KingCache(g, g.comp);
            var q := Neighbour(c.rank, c.file, t);
            && Adjacent(q, c.rank, c.file) && OnBoardPos(q)
            && h.board[Index(q.rank, q.file)] == g.board[Index(c.rank, c.file)]
            && h.board[Index(c.rank, c.file)] == Empty
            && (forall k :: 0 <= k < 64 && k != Index(q.rank, q.file) && k != Index(c.rank, c.file) ==> h.board[k] == g.board[k])
  {
    KingStepMoves(g, t);
    var c := KingCache(g, g.comp);
    NeighboursAreAdjacent(c.rank, c.file);
    var q := Neighbour(c.rank, c.file, t);
    IndexInjective(q.rank, q.file, c.rank, c.file);
  }

  /** The king lands on a square where it is not in check: lifting it off
      its old square and putting it on the new one changes no attack on it. */
  lemma KingStepLandsSafe(g: Game, t: nat)
    requires OnBoardPos(KingCache(g, g.comp)) && g.turn == g.comp && g.moves > 1
    requires FirstSafe(ComputerSafety(g), 0) == Some(t)
    ensures var q := KingCache(ComputerMove(g), g.comp);
            OnBoardPos(q) && !Check(ComputerMove(g).board, q.rank, q.file, g.comp)
  {
    KingStepMoves(g, t);
    var c := KingCache(g, g.comp);
    var q := Neighbour(c.rank, c.file, t);
    CheckIgnoresOwnSquare(Lift(g.board, c), q.rank, q.file, g.comp, g.board[Index(c.rank, c.file)]);
  }

  /** Every scan position before the one the computer took is unsafe. */
  lemma KingStepIsFirst(g: Game, t: nat)
    requires OnBoardPos(KingCache(g, g.comp))
    requires FirstSafe(ComputerSafety(g), 0) == Some(t)
    ensures var c := KingCache(g, g.comp);
            forall t' :: 0 <= t' < 8 && Neighbour(c.rank, c.file, t') == Neighbour(c.rank, c.file, t) ==>
              forall u :: 0 <= u < t' ==> !Escape(Lift(g.board, c), Neighbour(c.rank, c.file, u), g.comp)
  {
    var c := KingCache(g, g.comp);
    ScanFound(Lift(g.board, c), c.rank, c.file, g.comp);
    forall t' | 0 <= t' < 8 && Neighbour(c.rank, c.file, t') == Neighbour(c.rank, c.file, t)
      ensures t' == t
    {
      NeighbourDistinct(c.rank, c.file, t, t');
    }
  }

  /** After the opening, a computer move that finds a safe square moves the
      king one step to the first such square of the scan: the square it
      leaves is emptied, the cache follows, nothing else on the board moves,
      and the king is not in check where it lands. */
  lemma KingStepsToFirstSafeSquare(g: Game)
    requires OnBoardPos(KingCache(g, g.comp)) && g.turn == g.comp && g.moves > 1
    requires var c := KingCache(g, g.comp);
             exists q :: Adjacent(q, c.rank, c.file) && Escape(Lift(g.board, c), q, g.comp)
    ensures var h := ComputerMove(g);
            var c := KingCache(g, g.comp);
            var q := KingCache(h, g.comp);
            && Adjacent(q, c.rank, c.file) && OnBoardPos(q)
            && Escape(Lift(g.board, c), q, g.comp)
            && h.board[Index(q.rank, q.file)] == g.board[Index(c.rank, c.file)]
            && h.board[Index(c.rank, c.file)] == Empty
            && (forall k :: 0 <= k < 64 && k != Index(q.rank, q.file) && k != Index(c.rank, c.file) ==> h.board[k] == g.board[k])
            && !Check(h.board, q.rank, q.file, g.comp)
            && (g.comp == White ==> h.bking == g.bking) && (g.comp != White ==> h.wking == g.wking)
            && (forall t :: 0 <= t < 8 && Neighbour(c.rank, c.file, t) == q ==>
                  forall u :: 0 <= u < t ==> !Escape(Lift(g.board, c), Neighbour(c.rank, c.file, u), g.comp))
            && h.turn == g.human && h.reply == Ok && h.moves == g.moves + 1 && h.initialized == g.initialized
  {
    var c := KingCache(g, g.comp);
    NeighboursAreAdjacent(c.rank, c.file);
    var q0 :| Adjacent(q0, c.rank, c.file) && Escape(Lift(g.board, c), q0, g.comp);
    var t0 :| 0 <= t0 < 8 && Neighbour(c.rank, c.file, t0) == q0;
    ScanNone(Lift(g.board, c), c.rank, c.file, g.comp);
    var t := FirstSafe(ComputerSafety(g), 0).value;
    KingStepMoves(g, t);
    KingStepBoard(g, t);
    KingStepLandsSafe(g, t);
    KingStepIsFirst(g, t);
  }

  /** Distinct scan positions are distinct squares. */
  lemma NeighbourDistinct(i: int, j: int, t: int, u: int)
    requires 0 <= t < 8 && 0 <= u < 8 && Neighbour(i, j, t) == Neighbour(i, j, u)
    ensures t == u
  {
  }

  /** With no safe square the game ends in a tie: the board, caches and move
      count stay as they were. */
  lemma NoSafeSquareIsTie(g: Game)
    requires OnBoardPos(KingCache(g, g.comp)) && g.turn == g.comp && g.moves > 1
    requires var c := KingCache(g, g.comp);
             forall q :: Adjacent(q, c.rank, c.file) ==> !Escape(Lift(g.board, c), q, g.comp)
    ensures ComputerMove(g) == g.(turn := g.human, initialized := false, reply := Tie)
  {
    var c := KingCache(g, g.comp);
    NeighboursAreAdjacent(c.rank, c.file);
    ScanNone(Lift(g.board, c), c.rank, c.file, g.comp);
  }
}
