/** The wire protocol of the chess device: the replies, the byte-level command
    validator of chess.c, and the typed commands a valid line stands for. */
module Command {
  import opened Pieces

  /** The fixed replies, plus the 129-character board dump of a query. */
  datatype Reply =
    | Ok | UnknownCommand | InvalidFormat | InCheck | Mate
    | IllegalMove | OutOfTurn | NoGame | Tie
    | BoardDump(text: seq<char>)

  /** The validator's verdict: accepted, or rejected with the reply it leaves. */
  datatype Verdict = Accept | Reject(reply: Reply)

  /** What a move command adds after the destination square. */
  datatype Tail =
    | Plain
    | Capture(victim: Square)
    | Promote(into: Square)
    | CaptureAndPromote(victim: Square, into: Square)

  /** "02 <piece><from>-<to>[x<piece>][y<piece>]" in typed form. */
  datatype MoveCmd = MoveCmd(piece: Square, from: Pos, to: Pos, tail: Tail)

  datatype Cmd = NewGame(side: char) | Query | Move(mv: MoveCmd) | ComputerTurn | Resign

  /** Two file letters in 'a'..'h' and two rank digits in '1'..'8'. */
  predicate ValidIndex(fileA: char, fileB: char, rankA: char, rankB: char) {
    'a' <= fileA <= 'h' && 'a' <= fileB <= 'h' && '1' <= rankA <= '8' && '1' <= rankB <= '8'
  }

  predicate ValidSquare(sq: Square) {
    ValidPiece(sq.color, sq.kind)
  }

  /** A '00' line whose arguments are wrong. A line that is not five bytes long
      is rejected before its third and fourth bytes matter. */
  predicate NewGameArgsBad(cmd: seq<char>)
    requires |cmd| >= 3
  {
    |cmd| != 5 || cmd[2] != ' ' || (cmd[3] != White && cmd[3] != Black) || cmd[4] != '\n'
  }

  /** A '02' line whose arguments are wrong. A line of any other length than
      11, 14 or 17 is rejected before its other bytes matter. */
  predicate MoveArgsBad(cmd: seq<char>)
    requires |cmd| >= 3
  {
    var n := |cmd|;
    (n != 11 && n != 14 && n != 17) || cmd[2] != ' ' || cmd[7] != '-' || cmd[n - 1] != '\n'
    || !ValidPiece(cmd[3], cmd[4]) || !ValidIndex(cmd[5], cmd[8], cmd[6], cmd[9])
    || (n >= 14 && ((cmd[10] != 'x' && cmd[10] != 'y') || !ValidPiece(cmd[11], cmd[12])))
    || (n == 17 && (cmd[10] != 'x' || cmd[13] != 'y' || !ValidPiece(cmd[14], cmd[15])))
  }

  predicate KnownCode(c: char) {
    c == '0' || c == '1' || c == '2' || c == '3' || c == '4'
  }

  /** The validator. Each failed test overwrites the pending reply, so a format
      error (INVFMT) wins over an unknown command code (UNKCMD). The caller has
      already answered lines of at most two bytes. */
  function Validate(cmd: seq<char>): (v: Verdict)
    requires |cmd| >= 3
    ensures v.Accept? ==> cmd[0] == '0' && KnownCode(cmd[1]) && cmd[|cmd| - 1] == '\n'
    ensures v.Reject? ==> v.reply == UnknownCommand || v.reply == InvalidFormat
    ensures v == Reject(UnknownCommand) <==>
              (cmd[0] != '0' || !KnownCode(cmd[1])) && cmd[|cmd| - 1] == '\n'
              && !(cmd[1] == '0' && NewGameArgsBad(cmd)) && !(cmd[1] == '2' && MoveArgsBad(cmd))
  {
    var unknown := cmd[0] != '0' || !KnownCode(cmd[1]);
    var malformed := cmd[|cmd| - 1] != '\n'
      || (cmd[1] == '0' && NewGameArgsBad(cmd))
      || (cmd[1] == '2' && MoveArgsBad(cmd));
    if malformed then Reject(InvalidFormat)
    else if unknown then Reject(UnknownCommand)
    else Accept
  }

  function FileOf(c: char): int { c as int - 'a' as int }
  function RankOf(c: char): int { c as int - '1' as int }
  function FileChar(f: int): char requires 0 <= f < 8 { (f + 'a' as int) as char }
  function RankChar(r: int): char requires 0 <= r < 8 { (r + '1' as int) as char }

  predicate WellFormedTail(t: Tail) {
    match t
    case Plain => true
    case Capture(v) => ValidSquare(v)
    case Promote(p) => ValidSquare(p)
    case CaptureAndPromote(v, p) => ValidSquare(v) && ValidSquare(p)
  }

  predicate WellFormedMove(mv: MoveCmd) {
    ValidSquare(mv.piece) && OnBoardPos(mv.from) && OnBoardPos(mv.to) && WellFormedTail(mv.tail)
  }

  predicate WellFormedCmd(c: Cmd) {
    match c
    case NewGame(s) => s == White || s == Black
    case Move(mv) => WellFormedMove(mv)
    case _ => true
  }

  /** The typed move a valid '02' line stands for. A 14-byte line is a capture
      when byte 10 is 'x' and a promotion otherwise. */
  function DecodeMove(cmd: seq<char>): (mv: MoveCmd)
    requires |cmd| >= 3 && !MoveArgsBad(cmd)
    ensures WellFormedMove(mv)
  {
    var piece := Square(cmd[3], cmd[4]);
    var from := Pos(RankOf(cmd[6]), FileOf(cmd[5]));
    var to := Pos(RankOf(cmd[9]), FileOf(cmd[8]));
    var tail :=
      if |cmd| == 11 then Plain
      else if |cmd| == 14 then
        (if cmd[10] == 'x' then Capture(Square(cmd[11], cmd[12])) else Promote(Square(cmd[11], cmd[12])))
      else CaptureAndPromote(Square(cmd[11], cmd[12]), Square(cmd[14], cmd[15]));
    MoveCmd(piece, from, to, tail)
  }

  /** The typed command a valid line stands for. Byte 1 alone picks the
      command, so a '01', '03' or '04' line stands for the command whose
      canonical line is its first two bytes and a newline, whatever it holds
      in between; every other valid line is canonical. */
  function Decode(cmd: seq<char>): (c: Cmd)
    requires |cmd| >= 3 && Validate(cmd) == Accept
    ensures WellFormedCmd(c)
    ensures cmd[1] in {'1', '3', '4'} ==> Encode(c) == cmd[..2] + "\n"
    ensures cmd[1] !in {'1', '3', '4'} ==> Encode(c) == cmd
  {
    match cmd[1]
    case '0' => ValidateMatchesGrammar(cmd); NewGame(cmd[3])
    case '1' => Query
    case '2' => DecodeMoveEncodes(cmd); Move(DecodeMove(cmd))
    case '3' => ComputerTurn
    case '4' => Resign
  }

  function EncodeTail(t: Tail): seq<char> {
    match t
    case Plain => ""
    case Capture(v) => ['x', v.color, v.kind]
    case Promote(p) => ['y', p.color, p.kind]
    case CaptureAndPromote(v, p) => ['x', v.color, v.kind, 'y', p.color, p.kind]
  }

  function EncodeMove(mv: MoveCmd): seq<char>
    requires OnBoardPos(mv.from) && OnBoardPos(mv.to)
  {
    "02 " + [mv.piece.color, mv.piece.kind,
             FileChar(mv.from.file), RankChar(mv.from.rank), '-',
             FileChar(mv.to.file), RankChar(mv.to.rank)]
    + EncodeTail(mv.tail) + "\n"
  }

  /** The canonical line of a command. */
  function Encode(c: Cmd): seq<char>
    requires WellFormedCmd(c)
  {
    match c
    case NewGame(s) => ['0', '0', ' ', s, '\n']
    case Query => "01\n"
    case Move(mv) => EncodeMove(mv)
    case ComputerTurn => "03\n"
    case Resign => "04\n"
  }

  lemma EncodeMoveValid(mv: MoveCmd)
    requires WellFormedMove(mv)
    ensures |EncodeMove(mv)| >= 3 && !MoveArgsBad(EncodeMove(mv))
    ensures DecodeMove(EncodeMove(mv)) == mv
  {
    var s := EncodeMove(mv);
    assert s[3] == mv.piece.color && s[4] == mv.piece.kind;
    assert s[5] == FileChar(mv.from.file) && s[6] == RankChar(mv.from.rank);
    assert s[8] == FileChar(mv.to.file) && s[9] == RankChar(mv.to.rank);
    match mv.tail
    case Plain =>
    case Capture(v) =>
      assert s[10] == 'x' && s[11] == v.color && s[12] == v.kind;
    case Promote(p) =>
      assert s[10] == 'y' && s[11] == p.color && s[12] == p.kind;
    case CaptureAndPromote(v, p) =>
      assert s[10] == 'x' && s[11] == v.color && s[12] == v.kind;
      assert s[13] == 'y' && s[14] == p.color && s[15] == p.kind;
  }

  lemma DecodeMoveEncodes(cmd: seq<char>)
    requires |cmd| >= 3 && !MoveArgsBad(cmd) && cmd[0] == '0' && cmd[1] == '2'
    ensures EncodeMove(DecodeMove(cmd)) == cmd
  {
    var mv := DecodeMove(cmd);
    var s := EncodeMove(mv);
    assert |s| == |cmd| by {
      match mv.tail
      case Plain =>
      case Capture(_) =>
      case Promote(_) =>
      case CaptureAndPromote(_, _) =>
    }
    forall k | 0 <= k < |cmd|
      ensures s[k] == cmd[k]
    {
      if k == 5 || k == 8 {
        assert FileChar(FileOf(cmd[k])) == cmd[k];
      } else if k == 6 || k == 9 {
        assert RankChar(RankOf(cmd[k])) == cmd[k];
      }
    }
  }

  /** Round trip: the canonical line of a well-formed command is accepted and
      decodes back to that command. */
  lemma {:induction false} DecodeEncode(c: Cmd)
    requires WellFormedCmd(c)
    ensures |Encode(c)| >= 3 && Validate(Encode(c)) == Accept
    ensures Decode(Encode(c)) == c
  {
    match c
    case NewGame(s) =>
    case Query =>
    case Move(mv) =>
      EncodeMoveValid(mv);
      var e := EncodeMove(mv);
      assert e[0] == '0' && e[1] == '2' && e[|e| - 1] == '\n';
    case ComputerTurn =>
    case Resign =>
  }

  /** The grammar the validator accepts, stated without its byte tests: a line
      is accepted exactly when it starts "0", ends with a newline, and is a
      query, computer move or resign line with anything in between, one of the
      two new-game lines, or the canonical line of a well-formed move. */
  ghost predicate InGrammar(cmd: seq<char>)
    requires |cmd| >= 3
  {
    && cmd[0] == '0' && cmd[|cmd| - 1] == '\n'
    && (|| cmd[1] == '1' || cmd[1] == '3' || cmd[1] == '4'
        || cmd == "00 W\n" || cmd == "00 B\n"
        || (cmd[1] == '2' && exists mv :: WellFormedMove(mv) && cmd == EncodeMove(mv)))
  }

  lemma ValidateMatchesGrammar(cmd: seq<char>)
    requires |cmd| >= 3
    ensures Validate(cmd) == Accept <==> InGrammar(cmd)
  {
    if Validate(cmd) == Accept {
      if cmd[1] == '0' {
        assert cmd == [cmd[0], cmd[1], cmd[2], cmd[3], cmd[4]];
      } else if cmd[1] == '2' {
        DecodeMoveEncodes(cmd);
        var mv := DecodeMove(cmd);
        assert WellFormedMove(mv) && cmd == EncodeMove(mv);
      }
    }
    if InGrammar(cmd) {
      if cmd[1] == '2' {
        var mv :| WellFormedMove(mv) && cmd == EncodeMove(mv);
        EncodeMoveValid(mv);
      } else if cmd[1] == '0' {
        assert cmd == "00 W\n" || cmd == "00 B\n";
      }
    }
  }
}
