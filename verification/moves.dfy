/** The move validator `validateMove` of chess.c: ownership and source checks,
    the capture and promotion checks, the per-piece movement rules, a
    tentative commit, and the rollback when the mover's cached king square is
    then attacked. */
module Moves {
  import opened Pieces
  import opened Command
  import opened Geometry
  import opened Path
  import opened Attack
  import opened State

  /** The state after the move command, or the flat index at which `blocked`
      read past the end of the board (undefined behaviour in C). */
  datatype MoveOutcome = Completed(game: Game) | ReadPastBoard(index: int)

  /** The verdict of the movement rules. */
  datatype Legality = Legal | Illegal | OffTheBoard(index: int)

  predicate Captures(t: Tail) {
    t.Capture? || t.CaptureAndPromote?
  }

  predicate Promotes(t: Tail) {
    t.Promote? || t.CaptureAndPromote?
  }

  function SourceIndex(mv: MoveCmd): int
    requires WellFormedMove(mv)
  {
    Index(mv.from.rank, mv.from.file)
  }

  function DestIndex(mv: MoveCmd): int
    requires WellFormedMove(mv)
  {
    Index(mv.to.rank, mv.to.file)
  }

  /** The checks before the movement rules: the piece is the human's and
      stands on the source; a plain move needs an empty-coloured destination;
      a capture needs the named victim there (of either colour); a promotion
      needs a pawn and a promoted piece of the human's colour, and without a
      capture an empty-coloured destination. */
  predicate Admissible(g: Game, mv: MoveCmd)
    requires WellFormedMove(mv)
  {
    var dest := g.board[DestIndex(mv)];
    && mv.piece.color == g.human
    && g.board[SourceIndex(mv)] == mv.piece
    && match mv.tail
       case Plain => dest.color == '*'
       case Capture(v) => dest == v
       case Promote(p) => mv.piece.kind == Pawn && dest.color == '*' && p.color == g.human
       case CaptureAndPromote(v, p) => dest == v && mv.piece.kind == Pawn && p.color == g.human
  }

  /** The pawn rules, on ranks r0 -> r1 and files f0 -> f1. */
  predicate PawnRule(color: char, r0: int, r1: int, f0: int, f1: int, captured: bool, promoted: bool) {
    && (captured ==>
          if color == White then r1 - r0 == 1 && (f1 - f0 == 1 || f1 - f0 == -1)
          else if color == Black then r0 - r1 == 1 && (f1 - f0 == 1 || f1 - f0 == -1)
          else true)
    && (promoted ==>
          if color == White then r1 == 7
          else if color == Black then r1 == 0
          else true)
    && (!promoted && !captured ==>
          if color == White then f1 == f0 && (if r0 == 1 then r1 - r0 == 2 || r1 - r0 == 1 else r1 - r0 == 1)
          else if color == Black then f1 == f0 && (if r0 == 6 then r0 - r1 == 2 || r0 - r1 == 1 else r0 - r1 == 1)
          else true)
  }

  /** The verdict of `blocked` as the movement rules use it. */
  function PathVerdict(b: Board, r0: int, r1: int, f0: int, f1: int): Legality {
    match Blocked(b, r0, r1, f0, f1)
    case Clear => Legal
    case Obstructed => Illegal
    case OffBoard(k) => OffTheBoard(k)
  }

  /** The movement rules by piece type; df is the file delta, dr the rank delta. */
  function PieceRule(b: Board, mv: MoveCmd): Legality
    requires WellFormedMove(mv)
  {
    var r0, f0, r1, f1 := mv.from.rank, mv.from.file, mv.to.rank, mv.to.file;
    var df, dr := f1 - f0, r1 - r0;
    var kind := mv.piece.kind;
    if kind == Pawn then
      if PawnRule(mv.piece.color, r0, r1, f0, f1, Captures(mv.tail), Promotes(mv.tail)) then Legal else Illegal
    else if kind == Rook then
      if !RookShape(df, dr) then Illegal else PathVerdict(b, r0, r1, f0, f1)
    else if kind == Knight then
      if KnightShape(df, dr) then Legal else Illegal
    else if kind == Bishop then
      if !BishopShape(df, dr) then Illegal else PathVerdict(b, r0, r1, f0, f1)
    else if kind == Queen then
      if !QueenShape(df, dr) then Illegal else PathVerdict(b, r0, r1, f0, f1)
    else if kind == King then
      if KingShape(df, dr) then Legal else Illegal
    else Illegal
  }

  /** What lands on the destination: the piece itself, or the promoted piece
      in the mover's colour. */
  function Placed(mv: MoveCmd): Square {
    match mv.tail
    case Promote(p) => Square(mv.piece.color, p.kind)
    case CaptureAndPromote(_, p) => Square(mv.piece.color, p.kind)
    case _ => mv.piece
  }

  /** The tentative board: destination first, then the source emptied. */
  function Tentative(b: Board, mv: MoveCmd): Board
    requires WellFormedMove(mv)
  {
    b[DestIndex(mv) := Placed(mv)][SourceIndex(mv) := Empty]
  }

  /** The commit of a move that passed the rules. The mover's king square is
      read from the cache before the move; the move counter goes up even when
      the move is then taken back. */
  function Commit(g: Game, mv: MoveCmd): Game
    requires WellFormedMove(mv)
  {
    var color := mv.piece.color;
    var c := KingCache(g, color);
    var dest := g.board[DestIndex(mv)];
    var b1 := Tentative(g.board, mv);
    if Check(b1, c.rank, c.file, color) then
      g.(board := b1[DestIndex(mv) := dest][SourceIndex(mv) := Placed(mv)],
         moves := g.moves + 1, reply := IllegalMove)
    else
      var g1 := if mv.piece.kind == King then SetKingCache(g, color, mv.to) else g;
      g1.(board := b1, moves := g.moves + 1, turn := g.comp, reply := Ok)
  }

  /** validateMove(cmd, len) on the decoded command. */
  function ValidateMove(g: Game, mv: MoveCmd): (r: MoveOutcome)
    requires WellFormedMove(mv)
    ensures r.Completed? ==> r.game.human == g.human && r.game.comp == g.comp && r.game.games == g.games
    ensures r.Completed? ==> r.game.initialized == g.initialized && r.game.mated == g.mated
    ensures r.Completed? && CachesOnBoard(g) ==> CachesOnBoard(r.game)
  {
    if !Admissible(g, mv) then Completed(g.(reply := IllegalMove))
    else match PieceRule(g.board, mv)
      case Illegal => Completed(g.(reply := IllegalMove))
      case OffTheBoard(k) => ReadPastBoard(k)
      case Legal => Completed(Commit(g, mv))
  }

  // ---------------- properties ----------------

  /** A move refused by the checks or the rules changes nothing but the reply. */
  lemma RefusedMoveChangesOnlyReply(g: Game, mv: MoveCmd)
    requires WellFormedMove(mv)
    requires !Admissible(g, mv) || PieceRule(g.board, mv) == Illegal
    ensures ValidateMove(g, mv) == Completed(g.(reply := IllegalMove))
  {
  }

  /** An accepted move is exactly the tentative move: the destination holds
      the (possibly promoted) piece, the source is empty, nothing else moved;
      the mover's cached king square is not attacked afterwards; the turn
      passes to the computer; only a king move updates a cache. */
  lemma AcceptedMoveIsCommitted(g: Game, mv: MoveCmd)
    requires WellFormedMove(mv)
    requires ValidateMove(g, mv).Completed? && ValidateMove(g, mv).game.reply == Ok
    ensures var h := ValidateMove(g, mv).game;
            var c := KingCache(g, mv.piece.color);
            && Admissible(g, mv) && PieceRule(g.board, mv) == Legal
            && h.board[SourceIndex(mv)] == Empty
            && (SourceIndex(mv) != DestIndex(mv) ==> h.board[DestIndex(mv)] == Placed(mv))
            && (forall k :: 0 <= k < 64 && k != SourceIndex(mv) && k != DestIndex(mv) ==> h.board[k] == g.board[k])
            && !Check(h.board, c.rank, c.file, mv.piece.color)
            && h.turn == g.comp && h.moves == g.moves + 1
            && (mv.piece.kind == King ==> KingCache(h, mv.piece.color) == mv.to)
            && (mv.piece.kind == King && mv.piece.color == White ==> h.bking == g.bking)
            && (mv.piece.kind == King && mv.piece.color != White ==> h.wking == g.wking)
            && (mv.piece.kind != King ==> h.wking == g.wking && h.bking == g.bking)
  {
  }

  /** The self-check rollback: when the tentative move leaves the cached king
      square attacked, the answer is ILLMOVE, the turn stays, the move counter
      still goes up, and the board is restored, except that a promoting pawn
      comes back to its source square as the promoted piece. */
  lemma SelfCheckRollsBack(g: Game, mv: MoveCmd)
    requires WellFormedMove(mv) && Admissible(g, mv) && PieceRule(g.board, mv) == Legal
    requires var c := KingCache(g, mv.piece.color);
             Check(Tentative(g.board, mv), c.rank, c.file, mv.piece.color)
    ensures var h := ValidateMove(g, mv).game;
            && h.reply == IllegalMove && h.turn == g.turn && h.moves == g.moves + 1
            && h.wking == g.wking && h.bking == g.bking
            && (!Promotes(mv.tail) ==> h.board == g.board)
            && (Promotes(mv.tail) ==> h.board == g.board[SourceIndex(mv) := Placed(mv)])
  {
    var s, d := SourceIndex(mv), DestIndex(mv);
    var h := ValidateMove(g, mv).game;
    if !Promotes(mv.tail) {
      assert Placed(mv) == g.board[s];
      forall k | 0 <= k < 64
        ensures h.board[k] == g.board[k]
      {
      }
    }
  }

  /** A move answered OK passed the checks and the movement rules. */
  lemma AcceptedMeansLegal(g: Game, mv: MoveCmd)
    requires WellFormedMove(mv)
    requires ValidateMove(g, mv).Completed? && ValidateMove(g, mv).game.reply == Ok
    ensures Admissible(g, mv) && PieceRule(g.board, mv) == Legal
  {
  }

  // ---------------- the movement rules in geometric terms ----------------

  /** The knight rule accepts exactly the L-shaped moves. */
  lemma KnightRuleIsLShape(b: Board, mv: MoveCmd)
    requires WellFormedMove(mv) && mv.piece.kind == Knight
    ensures var df, dr := mv.to.file - mv.from.file, mv.to.rank - mv.from.rank;
            PieceRule(b, mv) == Legal <==> (Abs(df) == 1 && Abs(dr) == 2) || (Abs(df) == 2 && Abs(dr) == 1)
  {
    KnightShapeIsLShape(mv.to.file - mv.from.file, mv.to.rank - mv.from.rank);
  }

  /** The king rule accepts exactly the steps to one of the eight neighbours. */
  lemma KingRuleIsStep(b: Board, mv: MoveCmd)
    requires WellFormedMove(mv) && mv.piece.kind == King
    ensures PieceRule(b, mv) == Legal <==> Adjacent(mv.to, mv.from.rank, mv.from.file)
  {
    KingShapeIsStep(mv.to.file - mv.from.file, mv.to.rank - mv.from.rank);
  }

  /** The rook rule accepts exactly the moves that keep the rank or the file
      and whose walk `blocked` finds clear. */
  lemma RookRuleIsStraight(b: Board, mv: MoveCmd)
    requires WellFormedMove(mv) && mv.piece.kind == Rook
    ensures PieceRule(b, mv) == Legal <==>
            (mv.to.rank == mv.from.rank || mv.to.file == mv.from.file)
            && Blocked(b, mv.from.rank, mv.to.rank, mv.from.file, mv.to.file) == Clear
  {
  }

  /** The bishop rule accepts exactly the moves that change rank, whose file
      delta is at least the rank delta and below twice it (so a (3, 2) move
      passes too), and whose walk is clear. */
  lemma BishopRuleByTruncation(b: Board, mv: MoveCmd)
    requires WellFormedMove(mv) && mv.piece.kind == Bishop
    ensures var df, dr := mv.to.file - mv.from.file, mv.to.rank - mv.from.rank;
            PieceRule(b, mv) == Legal <==>
            dr != 0 && Abs(dr) <= Abs(df) < 2 * Abs(dr)
            && Blocked(b, mv.from.rank, mv.to.rank, mv.from.file, mv.to.file) == Clear
  {
    BishopShapeByTruncation(mv.to.file - mv.from.file, mv.to.rank - mv.from.rank);
  }

  /** The queen rule accepts exactly the moves the rook or the bishop shape
      test accepts and whose walk is clear. */
  lemma QueenRuleIsRookOrBishop(b: Board, mv: MoveCmd)
    requires WellFormedMove(mv) && mv.piece.kind == Queen
    ensures var df, dr := mv.to.file - mv.from.file, mv.to.rank - mv.from.rank;
            PieceRule(b, mv) == Legal <==>
            (RookShape(df, dr) || BishopShape(df, dr))
            && Blocked(b, mv.from.rank, mv.to.rank, mv.from.file, mv.to.file) == Clear
  {
    QueenShapeIsRookOrBishop(mv.to.file - mv.from.file, mv.to.rank - mv.from.rank);
  }

  /** An accepted knight move is an L-shape. */
  lemma AcceptedKnightIsLShape(g: Game, mv: MoveCmd)
    requires WellFormedMove(mv) && mv.piece.kind == Knight
    requires ValidateMove(g, mv).Completed? && ValidateMove(g, mv).game.reply == Ok
    ensures var df, dr := mv.to.file - mv.from.file, mv.to.rank - mv.from.rank;
            (Abs(df) == 1 && Abs(dr) == 2) || (Abs(df) == 2 && Abs(dr) == 1)
  {
    AcceptedMeansLegal(g, mv);
    KnightRuleIsLShape(g.board, mv);
  }

  /** An accepted king move goes to one of the eight neighbours. */
  lemma AcceptedKingIsStep(g: Game, mv: MoveCmd)
    requires WellFormedMove(mv) && mv.piece.kind == King
    requires ValidateMove(g, mv).Completed? && ValidateMove(g, mv).game.reply == Ok
    ensures Adjacent(mv.to, mv.from.rank, mv.from.file)
  {
    AcceptedMeansLegal(g, mv);
    KingRuleIsStep(g.board, mv);
  }

  /** An accepted rook move keeps its rank or its file, and `blocked` found
      the cells it walks empty. */
  lemma AcceptedRookIsStraight(g: Game, mv: MoveCmd)
    requires WellFormedMove(mv) && mv.piece.kind == Rook
    requires ValidateMove(g, mv).Completed? && ValidateMove(g, mv).game.reply == Ok
    ensures mv.to.rank == mv.from.rank || mv.to.file == mv.from.file
    ensures Blocked(g.board, mv.from.rank, mv.to.rank, mv.from.file, mv.to.file) == Clear
  {
    AcceptedMeansLegal(g, mv);
    RookRuleIsStraight(g.board, mv);
  }

  /** An accepted bishop move changes rank, and its file delta is at least
      its rank delta and below twice it, so a (3, 2) move passes too. */
  lemma AcceptedBishopByTruncation(g: Game, mv: MoveCmd)
    requires WellFormedMove(mv) && mv.piece.kind == Bishop
    requires ValidateMove(g, mv).Completed? && ValidateMove(g, mv).game.reply == Ok
    ensures var df, dr := mv.to.file - mv.from.file, mv.to.rank - mv.from.rank;
            dr != 0 && Abs(dr) <= Abs(df) < 2 * Abs(dr)
    ensures Blocked(g.board, mv.from.rank, mv.to.rank, mv.from.file, mv.to.file) == Clear
  {
    AcceptedMeansLegal(g, mv);
    BishopRuleByTruncation(g.board, mv);
  }

  /** An accepted queen move passes the rook test or the bishop test. */
  lemma AcceptedQueenIsRookOrBishop(g: Game, mv: MoveCmd)
    requires WellFormedMove(mv) && mv.piece.kind == Queen
    requires ValidateMove(g, mv).Completed? && ValidateMove(g, mv).game.reply == Ok
    ensures var df, dr := mv.to.file - mv.from.file, mv.to.rank - mv.from.rank;
            RookShape(df, dr) || BishopShape(df, dr)
    ensures Blocked(g.board, mv.from.rank, mv.to.rank, mv.from.file, mv.to.file) == Clear
  {
    AcceptedMeansLegal(g, mv);
    QueenRuleIsRookOrBishop(g.board, mv);
  }

  /** An accepted pawn move without capture or promotion stays on its file and
      goes one rank forward, or two from its home rank. */
  lemma AcceptedPawnPush(g: Game, mv: MoveCmd)
    requires WellFormedMove(mv) && mv.piece.kind == Pawn && mv.tail == Plain
    requires ValidateMove(g, mv).Completed? && ValidateMove(g, mv).game.reply == Ok
    ensures mv.to.file == mv.from.file
    ensures mv.piece.color == White ==> mv.to.rank - mv.from.rank == 1 || (mv.from.rank == 1 && mv.to.rank == 3)
    ensures mv.piece.color == Black ==> mv.from.rank - mv.to.rank == 1 || (mv.from.rank == 6 && mv.to.rank == 4)
  {
    AcceptedMeansLegal(g, mv);
  }

  /** An accepted pawn capture goes one rank forward and one file aside. */
  lemma AcceptedPawnCapture(g: Game, mv: MoveCmd)
    requires WellFormedMove(mv) && mv.piece.kind == Pawn && Captures(mv.tail)
    requires ValidateMove(g, mv).Completed? && ValidateMove(g, mv).game.reply == Ok
    ensures Abs(mv.to.file - mv.from.file) == 1
    ensures mv.piece.color == White ==> mv.to.rank == mv.from.rank + 1
    ensures mv.piece.color == Black ==> mv.to.rank == mv.from.rank - 1
  {
    AcceptedMeansLegal(g, mv);
  }

  /** A promotion without capture checks only the landing rank: a white pawn
      on any square may promote on rank 8, whatever the distance or file. */
  lemma PromotionChecksOnlyLandingRank(b: Board, mv: MoveCmd)
    requires WellFormedMove(mv) && mv.piece == Square(White, Pawn) && mv.tail.Promote? && mv.to.rank == 7
    ensures PieceRule(b, mv) == Legal
  {
  }

  /** The double step of either colour is legal whatever stands on the square
      it passes over. */
  lemma DoubleStepIgnoresPassedSquare(b: Board, f: int, x: Square)
    requires 0 <= f < 8
    ensures PieceRule(b[Index(2, f) := x], MoveCmd(Square(White, Pawn), Pos(1, f), Pos(3, f), Plain)) == Legal
    ensures PieceRule(b[Index(5, f) := x], MoveCmd(Square(Black, Pawn), Pos(6, f), Pos(4, f), Plain)) == Legal
  {
  }

  /** The self-check tests the king's square from before the move: a king that
      steps onto an attacked square is accepted as long as the square it left
      is not attacked once it has gone. */
  lemma KingMayStepIntoCheck(g: Game, mv: MoveCmd)
    requires WellFormedMove(mv) && mv.piece.kind == King && Admissible(g, mv)
    requires KingShape(mv.to.file - mv.from.file, mv.to.rank - mv.from.rank)
    requires var c := KingCache(g, mv.piece.color);
             !Check(Tentative(g.board, mv), c.rank, c.file, mv.piece.color)
    requires Check(Tentative(g.board, mv), mv.to.rank, mv.to.file, mv.piece.color)
    ensures ValidateMove(g, mv).Completed? && ValidateMove(g, mv).game.reply == Ok
    ensures KingCache(ValidateMove(g, mv).game, mv.piece.color) == mv.to
  {
    assert PieceRule(g.board, mv) == Legal;
    assert ValidateMove(g, mv) == Completed(Commit(g, mv));
  }

  /** A rook (or queen) may "capture" itself: source and destination are the
      same square, the path test walks nothing, and the piece disappears. */
  lemma SelfCaptureRemovesPiece(g: Game, mv: MoveCmd)
    requires WellFormedMove(mv) && (mv.piece.kind == Rook || mv.piece.kind == Queen)
    requires mv.from == mv.to && mv.tail == Capture(mv.piece)
    requires mv.piece.color == g.human && g.board[SourceIndex(mv)] == mv.piece
    requires var c := KingCache(g, mv.piece.color);
             !Check(g.board[SourceIndex(mv) := Empty], c.rank, c.file, mv.piece.color)
    ensures ValidateMove(g, mv).Completed?
    ensures var h := ValidateMove(g, mv).game;
            h.reply == Ok && h.board == g.board[SourceIndex(mv) := Empty]
  {
    assert Tentative(g.board, mv) == g.board[SourceIndex(mv) := Empty];
  }
}
