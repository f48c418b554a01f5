/** The state of the chess device between commands, the new-game reset, and
    the mate test `mate` with its wrapper `check_or_mate`. */
module State {
  import opened Pieces
  import opened Command
  import opened Attack

  datatype Option<+T> = None | Some(value: T)

  /** Everything a command can read or change. The king positions are caches:
      only a king move or a computer move updates them. */
  datatype Game = Game(
    board: Board,
    wking: Pos,
    bking: Pos,
    turn: char,
    human: char,
    comp: char,
    initialized: bool,
    mated: bool,
    moves: nat,
    games: nat,
    reply: Reply)

  /** The state at module load: an all-empty board, no game, reply NOGAME. */
  function Init(): (g: Game)
    ensures !g.initialized && !g.mated && g.games == 0 && g.reply == NoGame
    ensures forall k :: 0 <= k < 64 ==> g.board[k] == Empty
  {
    Game(EmptyBoard(), Pos(0, 4), Pos(7, 4), 0 as char, 0 as char, 0 as char, false, false, 0, 0, NoGame)
  }

  /** The cached king position of a side; any colour but White reads the black cache. */
  function KingCache(g: Game, p: char): Pos {
    if p == White then g.wking else g.bking
  }

  /** The cache of `p` moved to q; any colour but White writes the black cache. */
  function SetKingCache(g: Game, p: char, q: Pos): (h: Game)
    ensures KingCache(h, p) == q
    ensures p == White ==> h.bking == g.bking
    ensures p != White ==> h.wking == g.wking
    ensures h.(wking := g.wking, bking := g.bking) == g
  {
    if p == White then g.(wking := q) else g.(bking := q)
  }

  predicate CachesOnBoard(g: Game) {
    OnBoardPos(g.wking) && OnBoardPos(g.bking)
  }

  /** reset(piece): the start position, both caches on the e-file home
      squares, and the side to move. The reply is set by the caller. */
  function Reset(g: Game, piece: char): Game {
    var comp := if piece == White then Black else White;
    var turn := if piece == White then piece else comp;
    g.(board := StartBoard(), wking := Pos(0, 4), bking := Pos(7, 4),
       turn := turn, human := piece, comp := comp,
       initialized := true, mated := false, moves := 0, games := g.games + 1)
  }

  /** After a reset the board holds the start position, both caches point at
      their kings, no move has been made, the two sides differ, White moves,
      and the game counter went up by one. */
  lemma ResetStartsGame(g: Game, piece: char)
    ensures var h := Reset(g, piece);
            && (forall f :: 0 <= f < 8 ==> h.board[Index(0, f)] == Square(White, BackRank[f]))
            && (forall f :: 0 <= f < 8 ==> h.board[Index(1, f)] == Square(White, Pawn))
            && (forall r, f :: 2 <= r < 6 && 0 <= f < 8 ==> h.board[Index(r, f)] == Empty)
            && (forall f :: 0 <= f < 8 ==> h.board[Index(6, f)] == Square(Black, Pawn))
            && (forall f :: 0 <= f < 8 ==> h.board[Index(7, f)] == Square(Black, BackRank[f]))
            && h.board[Index(h.wking.rank, h.wking.file)] == Square(White, King)
            && h.board[Index(h.bking.rank, h.bking.file)] == Square(Black, King)
            && h.moves == 0 && !h.mated && h.initialized && h.games == g.games + 1
            && h.wking == Pos(0, 4) && h.bking == Pos(7, 4)
            && h.human == piece && h.comp == (if piece == White then Black else White)
            && h.comp != h.human && h.turn == White
            && (h.turn == h.human <==> piece == White)
  {
    var b := Reset(g, piece).board;
    forall r, f | OnBoard(r, f)
      ensures b[Index(r, f)] == StartSquare(r, f)
    {
      var k := Index(r, f);
      assert k / 8 == r && k % 8 == f;
    }
  }

  /** The start position contains only empty cells and valid pieces. */
  lemma StartBoardWellFormed()
    ensures WellFormedBoard(StartBoard())
  {
    forall k | 0 <= k < 64
      ensures WellFormedSquare(StartBoard()[k])
    {
      var r, f := k / 8, k % 8;
      assert OnBoard(r, f);
      assert StartBoard()[k] == StartSquare(r, f);
    }
  }

  // ---------------- the neighbour scan of mate and computer_move ----------------

  /** The t-th neighbour, in the loops' order: ranks i+1, i-1, i outside,
      files j+1, j-1, j inside; t = 8 would be the square itself. */
  function Neighbour(i: int, j: int, t: int): Pos {
    Pos(Coord(i, t / 3, 1), Coord(j, t % 3, 1))
  }

  /** A square the king of `player` may step to: on the board, not attacked,
      and empty or not the player's colour. */
  predicate Escape(b: Board, q: Pos, player: char) {
    OnBoardPos(q) && !Check(b, q.rank, q.file, player)
    && (b[Index(q.rank, q.file)] == Empty || b[Index(q.rank, q.file)].color != player)
  }

  /** The verdict of the neighbour scan at each of its eight positions. check
      only reads the board, so testing every position up front answers as the
      loops, which stop at the first escape. */
  function Safety(b: Board, i: int, j: int, player: char): (s: seq<bool>)
    ensures |s| == 8
  {
    seq(8, t => Escape(b, Neighbour(i, j, t), player))
  }

  /** The first position from t on whose verdict is an escape. */
  function FirstSafe(s: seq<bool>, t: nat): (r: Option<nat>)
    requires t <= |s|
    ensures r.Some? ==> t <= r.value < |s| && s[r.value] && forall u :: t <= u < r.value ==> !s[u]
    ensures r.None? ==> forall u :: t <= u < |s| ==> !s[u]
    decreases |s| - t
  {
    if t == |s| then None
    else if s[t] then Some(t)
    else FirstSafe(s, t + 1)
  }

  /** A position the scan stops at is an escape. */
  lemma ScanFound(b: Board, i: int, j: int, player: char)
    requires FirstSafe(Safety(b, i, j, player), 0).Some?
    ensures var t := FirstSafe(Safety(b, i, j, player), 0).value;
            && t < 8 && Escape(b, Neighbour(i, j, t), player)
            && forall u :: 0 <= u < t ==> !Escape(b, Neighbour(i, j, u), player)
  {
    var s := Safety(b, i, j, player);
    var t := FirstSafe(s, 0).value;
    assert s[t];
    forall u | 0 <= u < t
      ensures !Escape(b, Neighbour(i, j, u), player)
    {
      assert !s[u];
    }
  }

  /** A scan that runs out found no escape at any of the eight positions, and
      one that has an escape somewhere does not run out. */
  lemma ScanNone(b: Board, i: int, j: int, player: char)
    ensures FirstSafe(Safety(b, i, j, player), 0).None? <==>
            forall t :: 0 <= t < 8 ==> !Escape(b, Neighbour(i, j, t), player)
  {
    var s := Safety(b, i, j, player);
    if FirstSafe(s, 0).None? {
      forall t | 0 <= t < 8
        ensures !Escape(b, Neighbour(i, j, t), player)
      {
        assert !s[t];
      }
    } else {
      ScanFound(b, i, j, player);
    }
  }

  predicate Adjacent(q: Pos, i: int, j: int) {
    -1 <= q.rank - i <= 1 && -1 <= q.file - j <= 1 && !(q.rank == i && q.file == j)
  }

  /** The scan visits exactly the eight adjacent squares. */
  lemma NeighboursAreAdjacent(i: int, j: int)
    ensures forall t :: 0 <= t < 8 ==> Adjacent(Neighbour(i, j, t), i, j)
    ensures forall q :: Adjacent(q, i, j) ==> exists t :: 0 <= t < 8 && Neighbour(i, j, t) == q
  {
    forall q | Adjacent(q, i, j)
      ensures exists t :: 0 <= t < 8 && Neighbour(i, j, t) == q
    {
      var k := if q.rank == i + 1 then 0 else if q.rank == i - 1 then 1 else 2;
      var l := if q.file == j + 1 then 0 else if q.file == j - 1 then 1 else 2;
      assert Neighbour(i, j, 3 * k + l) == q;
    }
  }

  /** The board with the cell at c emptied. */
  function Lift(b: Board, c: Pos): (b': Board)
    requires OnBoardPos(c)
    ensures b'[Index(c.rank, c.file)] == Empty
    ensures b'[Index(c.rank, c.file) := b[Index(c.rank, c.file)]] == b
  {
    b[Index(c.rank, c.file) := Empty]
  }

  /** mate(i, j, player): the arguments are ignored and the cached square used.
      The king is lifted while the neighbours are examined and then put back. */
  function MateTest(g: Game, player: char): (r: (bool, Game))
    requires OnBoardPos(KingCache(g, player))
    ensures var c := KingCache(g, player);
            r.0 <==> forall t :: 0 <= t < 8 ==> !Escape(Lift(g.board, c), Neighbour(c.rank, c.file, t), player)
    ensures !r.0 ==> r.1 == g
    ensures r.0 ==> r.1 == g.(mated := true, initialized := false)
  {
    var c := KingCache(g, player);
    var lifted := Lift(g.board, c);
    var safety := Safety(lifted, c.rank, c.file, player);
    ScanNone(lifted, c.rank, c.file, player);
    if FirstSafe(safety, 0).Some? then
      assert lifted[Index(c.rank, c.file) := g.board[Index(c.rank, c.file)]] == g.board;
      (false, g)
    else
      (true, g.(mated := true, initialized := false))
  }

  /** mate in the terms of the rules: no adjacent square is safe for the king
      once it is lifted off its cached square. */
  lemma MateMeansNoSafeSquare(g: Game, player: char)
    requires OnBoardPos(KingCache(g, player))
    ensures var c := KingCache(g, player);
            MateTest(g, player).0 <==> forall q :: Adjacent(q, c.rank, c.file) ==> !Escape(Lift(g.board, c), q, player)
  {
    var c := KingCache(g, player);
    NeighboursAreAdjacent(c.rank, c.file);
  }

  /** check_or_mate(i, j, player): CHECK when (i, j) is attacked, upgraded to
      MATE when mate then finds no escape for the player's cached king. */
  function CheckOrMate(g: Game, i: int, j: int, player: char): (h: Game)
    requires OnBoardPos(KingCache(g, player))
    ensures !Check(g.board, i, j, player) ==> h == g
    ensures Check(g.board, i, j, player) ==> h.board == g.board
    ensures Check(g.board, i, j, player) ==>
              (h.reply == Mate <==> MateTest(g, player).0) && (h.reply == InCheck <==> !MateTest(g, player).0)
    ensures Check(g.board, i, j, player) ==>
              h == if MateTest(g, player).0 then g.(mated := true, initialized := false, reply := Mate)
                   else g.(reply := InCheck)
  {
    if Check(g.board, i, j, player) then
      var m := MateTest(g.(reply := InCheck), player);
      if m.0 then m.1.(reply := Mate) else m.1
    else g
  }
}
