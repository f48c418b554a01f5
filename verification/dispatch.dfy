/** The command dispatch of `game_write` in chess.c: the length gate, the
    validator, then one branch per command code with its NOGAME, OOT and MATE
    gates. Each write is one atomic step from state to state. */
module Dispatch {
  import opened Pieces
  import opened Command
  import opened Attack
  import opened State
  import opened Opponent
  import opened Moves

  /** The state after a write, or the flat index of an out-of-board read. */
  datatype Outcome = Next(game: Game) | Undefined(index: int)

  /** One decoded command, as the branches of game_write run it. */
  function Exec(g: Game, c: Cmd): (o: Outcome)
    requires WellFormedCmd(c) && CachesOnBoard(g)
  {
    match c
    case NewGame(side) => Next(Reset(g, side).(reply := Ok))
    case Query =>
      if g.games == 0 then Next(g.(reply := NoGame))
      else Next(g.(reply := BoardDump(Dump(g.board))))
    case Move(mv) =>
      if !g.initialized then Next(g.(reply := NoGame))
      else if g.turn != g.human then Next(g.(reply := OutOfTurn))
      else
        var k := if g.human == White then g.bking else g.wking;
        (match ValidateMove(g, mv)
         case ReadPastBoard(x) => Undefined(x)
         case Completed(g1) => Next(CheckOrMate(g1, k.rank, k.file, g1.comp)))
    case ComputerTurn =>
      if !g.initialized then Next(g.(reply := NoGame))
      else if g.turn != g.comp then Next(g.(reply := OutOfTurn))
      else
        var k := if g.comp == White then g.bking else g.wking;
        var g1 := ComputerMove(g);
        Next(CheckOrMate(g1, k.rank, k.file, g1.human))
    case Resign =>
      if g.mated then Next(g.(reply := Mate))
      else if !g.initialized then Next(g.(reply := NoGame))
      else if g.turn != g.human then Next(g.(reply := OutOfTurn))
      else Next(g.(initialized := false, reply := Ok))
  }

  /** game_write(cmd): writes of at most two bytes are unknown commands; a
      line the validator rejects leaves its reply; otherwise the command runs. */
  function Step(g: Game, cmd: seq<char>): Outcome
    requires CachesOnBoard(g)
  {
    if |cmd| <= 2 then Next(g.(reply := UnknownCommand))
    else match Validate(cmd)
      case Reject(r) => Next(g.(reply := r))
      case Accept => Exec(g, Decode(cmd))
  }

  // ---------------- the gates ----------------

  /** The canonical line of a command runs that command. */
  lemma StepRunsEncoded(g: Game, c: Cmd)
    requires WellFormedCmd(c) && CachesOnBoard(g)
    ensures Step(g, Encode(c)) == Exec(g, c)
  {
    DecodeEncode(c);
  }

  lemma ShortWriteIsUnknown(g: Game, cmd: seq<char>)
    requires CachesOnBoard(g) && |cmd| <= 2
    ensures Step(g, cmd) == Next(g.(reply := UnknownCommand))
  {
  }

  /** A move, computer move or resign with no game running is refused with
      NOGAME (a resign after a mate answers MATE first). */
  lemma NoGameGate(g: Game, c: Cmd)
    requires WellFormedCmd(c) && CachesOnBoard(g) && !g.initialized
    requires c.Move? || c.ComputerTurn? || (c.Resign? && !g.mated)
    ensures Exec(g, c) == Next(g.(reply := NoGame))
  {
  }

  /** A move or resign on the computer's turn, or a computer move on the
      human's turn, is refused with OOT. */
  lemma OutOfTurnGate(g: Game, c: Cmd)
    requires WellFormedCmd(c) && CachesOnBoard(g) && g.initialized
    requires (c.Move? && g.turn != g.human) || (c.Resign? && !g.mated && g.turn != g.human)
             || (c.ComputerTurn? && g.turn != g.comp)
    ensures Exec(g, c) == Next(g.(reply := OutOfTurn))
  {
  }

  lemma ResignAfterMate(g: Game)
    requires CachesOnBoard(g) && g.mated
    ensures Exec(g, Resign) == Next(g.(reply := Mate))
  {
  }

  /** A resign in turn ends the game and changes nothing else. */
  lemma ResignEndsGame(g: Game)
    requires CachesOnBoard(g) && !g.mated && g.initialized && g.turn == g.human
    ensures Exec(g, Resign) == Next(g.(initialized := false, reply := Ok))
  {
  }

  /** A query answers NOGAME exactly while no game was ever started, and the
      board dump otherwise, which reads back as the board. The query works
      after a mate or a resign too. */
  lemma QueryGate(g: Game)
    requires CachesOnBoard(g)
    ensures var h := Exec(g, Query).game;
            && Exec(g, Query).Next? && h.board == g.board
            && (h.reply == NoGame <==> g.games == 0)
            && (g.games > 0 ==> h.reply.BoardDump? && Undump(h.reply.text) == g.board)
  {
    UndumpDump(g.board);
  }

  /** On the device as loaded, every accepted line other than a new game is
      answered NOGAME and changes nothing else. */
  lemma FreshDeviceAnswersNoGame(cmd: seq<char>)
    requires |cmd| > 2 && Validate(cmd) == Accept && !Decode(cmd).NewGame?
    ensures Step(Init(), cmd) == Next(Init().(reply := NoGame))
  {
  }

  /** check_or_mate runs after a refused move too: when the computer's cached
      king square is attacked, the ILLMOVE answer is overwritten with CHECK or
      MATE. */
  lemma CheckOverwritesIllegalMove(g: Game, mv: MoveCmd)
    requires WellFormedMove(mv) && CachesOnBoard(g) && g.initialized && g.turn == g.human
    requires !Admissible(g, mv)
    requires var k := if g.human == White then g.bking else g.wking;
             Check(g.board, k.rank, k.file, g.comp)
    ensures Exec(g, Move(mv)).Next?
    ensures var h := Exec(g, Move(mv)).game;
            h.reply != IllegalMove && (h.reply == InCheck || h.reply == Mate) && h.board == g.board
  {
  }

  /** Likewise a tie declared by the computer is overwritten with CHECK or MATE
      when the human's cached king square is attacked. */
  lemma CheckOverwritesTie(g: Game)
    requires CachesOnBoard(g) && g.initialized && g.turn == g.comp && g.moves > 1
    requires var c := KingCache(g, g.comp);
             forall q :: Adjacent(q, c.rank, c.file) ==> !Escape(Lift(g.board, c), q, g.comp)
    requires var k := if g.comp == White then g.bking else g.wking;
             Check(g.board, k.rank, k.file, g.human)
    ensures Exec(g, ComputerTurn).Next?
    ensures var h := Exec(g, ComputerTurn).game;
            h.reply != Tie && (h.reply == InCheck || h.reply == Mate) && h.board == g.board
  {
    NoSafeSquareIsTie(g);
  }

  // ---------------- the state invariant ----------------

  /** What every reachable state satisfies: the caches are on the board, every
      cell is empty or a valid piece, once a game was started the two sides
      are the two colours, and a running game has one of them to move. */
  predicate Sound(g: Game) {
    && CachesOnBoard(g) && WellFormedBoard(g.board)
    && (g.games > 0 ==> Side(g.human) && Side(g.comp) && g.human != g.comp)
    && (g.initialized ==> g.games > 0 && (g.turn == g.human || g.turn == g.comp))
    && (g.games == 0 ==> !g.initialized && !g.mated)
  }

  lemma InitSound()
    ensures Sound(Init())
  {
  }

  lemma CommitKeepsWellFormed(g: Game, mv: MoveCmd)
    requires WellFormedMove(mv) && WellFormedBoard(g.board)
    ensures WellFormedBoard(Commit(g, mv).board)
  {
    assert WellFormedSquare(Placed(mv));
    var b1 := Tentative(g.board, mv);
    assert WellFormedBoard(b1);
    var dest := g.board[DestIndex(mv)];
    assert WellFormedBoard(b1[DestIndex(mv) := dest][SourceIndex(mv) := Placed(mv)]);
  }

  lemma ComputerMoveKeepsWellFormed(g: Game)
    requires OnBoardPos(KingCache(g, g.comp)) && WellFormedBoard(g.board)
    ensures WellFormedBoard(ComputerMove(g).board)
  {
    if g.turn == g.comp && g.moves > 1 {
      var c := KingCache(g, g.comp);
      assert WellFormedSquare(g.board[Index(c.rank, c.file)]) by {
        IndexInRange(c.rank, c.file);
      }
      assert WellFormedBoard(Lift(g.board, c));
    }
  }

  lemma NewGameKeepsSound(g: Game, side: char)
    requires Sound(g) && Side(side)
    ensures Sound(Exec(g, NewGame(side)).game)
  {
    StartBoardWellFormed();
  }

  lemma MoveKeepsSound(g: Game, mv: MoveCmd)
    requires Sound(g) && WellFormedMove(mv)
    requires Exec(g, Move(mv)).Next?
    ensures Sound(Exec(g, Move(mv)).game)
  {
    if g.initialized && g.turn == g.human {
      var k := if g.human == White then g.bking else g.wking;
      var r := ValidateMove(g, mv);
      var g1 := r.game;
      if Admissible(g, mv) && PieceRule(g.board, mv) == Legal {
        CommitKeepsWellFormed(g, mv);
      }
      assert Sound(g1);
      CheckOrMateKeepsSound(g1, k.rank, k.file, g1.comp);
    }
  }

  /** check_or_mate, which runs only once a game was started, keeps the
      invariant: a mate only ends the game. */
  lemma CheckOrMateKeepsSound(g: Game, i: int, j: int, player: char)
    requires Sound(g) && g.games > 0 && OnBoardPos(KingCache(g, player))
    ensures Sound(CheckOrMate(g, i, j, player))
  {
  }

  lemma ComputerKeepsSound(g: Game)
    requires Sound(g)
    ensures Sound(Exec(g, ComputerTurn).game)
  {
    if g.initialized && g.turn == g.comp {
      ComputerMoveKeepsWellFormed(g);
      var g1 := ComputerMove(g);
      assert Sound(g1);
    }
  }

  /** Every write from a sound state that stays within the board leads to a
      sound state. */
  lemma StepKeepsSound(g: Game, cmd: seq<char>)
    requires Sound(g)
    requires Step(g, cmd).Next?
    ensures Sound(Step(g, cmd).game)
  {
    if |cmd| > 2 && Validate(cmd) == Accept {
      var c := Decode(cmd);
      match c
      case NewGame(side) => NewGameKeepsSound(g, side);
      case Query =>
      case Move(mv) => MoveKeepsSound(g, mv);
      case ComputerTurn => ComputerKeepsSound(g);
      case Resign =>
    }
  }
}
