/** The board of the chess device: 64 two-character cells in rank-major order,
    the piece alphabet, the starting arrangement and the 129-byte board dump. */
module Pieces {

  /** One cell of the board: a colour character and a piece character.
      An empty cell is "**". */
  datatype Square = Square(color: char, kind: char)

  const White: char := 'W'
  const Black: char := 'B'
  const King: char := 'K'
  const Queen: char := 'Q'
  /** The bishop shares its character with Black. */
  const Bishop: char := 'B'
  const Knight: char := 'N'
  const Rook: char := 'R'
  const Pawn: char := 'P'

  const Empty: Square := Square('*', '*')

  /** The 8x8 board stored row-major: cell (rank, file) lives at 8 * rank + file. */
  type Board = b: seq<Square> | |b| == 64 witness seq(64, _ => Square('*', '*'))

  /** A (rank, file) pair; rank 0 is row "1", file 0 is column "a". */
  datatype Pos = Pos(rank: int, file: int)

  predicate OnBoard(r: int, f: int) {
    0 <= r < 8 && 0 <= f < 8
  }

  predicate OnBoardPos(p: Pos) {
    OnBoard(p.rank, p.file)
  }

  function Index(r: int, f: int): int
    requires OnBoard(r, f)
  {
    8 * r + f
  }

  lemma IndexInRange(r: int, f: int)
    requires OnBoard(r, f)
    ensures 0 <= Index(r, f) < 64
  {
  }

  lemma IndexInjective(r: int, f: int, r': int, f': int)
    requires OnBoard(r, f) && OnBoard(r', f')
    ensures Index(r, f) == Index(r', f') <==> r == r' && f == f'
  {
  }

  /** The colour and piece alphabet accepted on the wire. */
  predicate ValidPiece(color: char, piece: char) {
    (color == White || color == Black) &&
    (piece == King || piece == Queen || piece == Knight || piece == Bishop || piece == Rook || piece == Pawn)
  }

  /** Every cell is either empty or a piece drawn from the alphabet. */
  predicate WellFormedSquare(sq: Square) {
    sq == Empty || ValidPiece(sq.color, sq.kind)
  }

  predicate WellFormedBoard(b: Board) {
    forall k :: 0 <= k < 64 ==> WellFormedSquare(b[k])
  }

  /** The back rank from file a to file h. */
  const BackRank: seq<char> := "RNBQKBNR"

  function StartSquare(r: int, f: int): Square
    requires OnBoard(r, f)
  {
    if r == 0 then Square(White, BackRank[f])
    else if r == 1 then Square(White, Pawn)
    else if r == 6 then Square(Black, Pawn)
    else if r == 7 then Square(Black, BackRank[f])
    else Empty
  }

  /** The arrangement a new game copies into the board. */
  function StartBoard(): Board {
    seq(64, k requires 0 <= k < 64 => StartSquare(k / 8, k % 8))
  }

  /** The board the module holds before the first game: all cells empty. */
  function EmptyBoard(): (b: Board)
    ensures forall k :: 0 <= k < 64 ==> b[k] == Empty
  {
    seq(64, _ => Empty)
  }

  /** The cells from index k on, two characters each. */
  function Cells(b: Board, k: nat): (s: seq<char>)
    requires k <= 64
    ensures |s| == 2 * (64 - k)
    ensures forall m :: k <= m < 64 ==> s[2 * (m - k)] == b[m].color && s[2 * (m - k) + 1] == b[m].kind
    decreases 64 - k
  {
    if k == 64 then [] else [b[k].color, b[k].kind] + Cells(b, k + 1)
  }

  /** The board dump of the query command: 64 two-character cells then a newline. */
  function Dump(b: Board): (s: seq<char>)
    ensures |s| == 129 && s[128] == '\n'
    ensures forall k :: 0 <= k < 64 ==> s[2 * k] == b[k].color && s[2 * k + 1] == b[k].kind
  {
    var c := Cells(b, 0);
    var s := c + "\n";
    forall k | 0 <= k < 64
      ensures s[2 * k] == b[k].color && s[2 * k + 1] == b[k].kind
    {
      assert s[2 * k] == c[2 * (k - 0)];
      assert s[2 * k + 1] == c[2 * (k - 0) + 1];
    }
    s
  }

  /** Cell (r, f) sits at offsets 16r+2f and 16r+2f+1 of the dump. */
  lemma DumpLayout(b: Board, r: int, f: int)
    requires OnBoard(r, f)
    ensures Dump(b)[16 * r + 2 * f] == b[Index(r, f)].color
    ensures Dump(b)[16 * r + 2 * f + 1] == b[Index(r, f)].kind
  {
    var k := Index(r, f);
    assert 16 * r + 2 * f == 2 * k;
  }

  /** Reads a board back out of a 129-character dump. */
  function Undump(s: seq<char>): Board
    requires |s| == 129
  {
    seq(64, k requires 0 <= k < 64 => Square(s[2 * k], s[2 * k + 1]))
  }

  lemma UndumpDump(b: Board)
    ensures Undump(Dump(b)) == b
  {
    var s := Dump(b);
    var u := Undump(s);
    forall k | 0 <= k < 64
      ensures u[k] == b[k]
    {
      assert u[k] == Square(s[2 * k], s[2 * k + 1]);
    }
  }
}
