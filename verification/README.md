# Chess device rule engine, modelled in Dafny

This project models the rule engine of the Chess-LKM kernel module. The module is a character device. A user plays chess against it by writing command lines such as `00 W\n` (new game as White), `01\n` (query the board), `02 WPe2-e4\n` (human move), `03\n` (computer move) and `04\n` (resign), and then reading back a reply: `OK`, `UNKCMD`, `INVFMT`, `CHECK`, `MATE`, `ILLMOVE`, `OOT`, `NOGAME`, `TIE`, or the 129-byte board dump.

The model follows `chess.c` as written, quirks included.

- **The state** is one immutable `State.Game` record. It holds:
  - the 8x8 board, stored as a flat 64-cell row-major sequence of (colour, piece) character pairs;
  - the two cached king squares;
  - `turn`, `human` and `comp`;
  - the `game_initialized` and `mated` flags;
  - the `moves` and `games` counters;
  - the last reply.
- **Each write** is one atomic step, `Dispatch.Step`, from state to state.

## Modules

- **`Pieces`:** squares, the piece alphabet (`'B'` is both Black and Bishop), the start position, and the board dump.
- **`Command`:** the byte-level validator `validate`, and the typed commands a valid line stands for. It also holds their canonical encoding, with a round trip and an exact characterisation of the accepted lines.
- **`Geometry`:** C's truncating division, and the per-piece shape tests of `validateMove`.
- **`Path`:** the path walk `blocked`. It takes d-2 steps, always steps +1 on a straight path, and runs over the flat board. A read outside the 64 cells is flagged, not hidden.
- **`Attack`:** `check` as a recursive definition. It is related to a reference meaning: an inner-square opponent knight, or the first piece met on one of eight rays.
- **`CheckLoop`:** the loops of `check`, statement by statement, including the stale knight variables and the 3x3 table of finished directions. They are proved to compute `Attack.Check`.
- **`State`:** the game record, `reset`, the neighbour scan, `mate` and `check_or_mate`.
- **`Opponent`:** `computer_move`.
- **`Moves`:** `validateMove`: its checks, its movement rules, the tentative commit and the self-check rollback.
- **`Dispatch`:** `game_write`: the length gate, the validator, the per-command gates, and the state invariant every write preserves.

## Model

| member | source | states |
|---|---|---|
| Pieces.IndexInjective | chess.c:53 | distinct (rank, file) cells of the 8x8 array occupy distinct flat indices |
| Pieces.Dump | chess.c:922-943 | the dump is 129 characters, cell k's colour and piece at offsets 2k and 2k+1, and a newline at offset 128 |
| Pieces.DumpLayout | chess.c:926-941 | cell (r, f) sits at offsets 16r+2f and 16r+2f+1 of the dump |
| Pieces.UndumpDump | chess.c:922-943 | the dump reads back as exactly the board it was printed from |
| Command.Validate | chess.c:211-305 | an accepted line starts "0", has a known code and ends in a newline; a rejection answers UNKCMD or INVFMT, and UNKCMD exactly when the code is bad and no format test failed, since the later INVFMT overwrites it |
| Command.ValidateMatchesGrammar | chess.c:220-287 | a line is accepted exactly when it is "00 W\n" or "00 B\n", a '01', '03' or '04' line ending in a newline, or the canonical line of a well-formed move (valid piece, squares in a1..h8, optional 'x' capture and 'y' promotion of valid pieces) |
| Command.DecodeEncode | chess.c:1388-1392 | the canonical line of every well-formed command is accepted and decodes back to that command |
| Command.DecodeMoveEncodes | chess.c:984-999 | a line that passes the move format tests is the canonical line of the move it is decoded to |
| Command.DecodeMove | chess.c:957-999 | the piece, source and destination read from bytes 3-9 always form a well-formed move |
| Command.Decode | chess.c:1388-1549 | every accepted line stands for a well-formed command picked by byte 1 alone: a '01', '03' or '04' line stands for the command whose canonical line is its first two bytes and a newline, and every other accepted line is the canonical line of the command it stands for |
| Geometry.CDiv | chess.c:1153 | C division: the remainder is below the divisor in size and has the dividend's sign |
| Geometry.CDivOne | chess.c:1153-1155 | the truncated quotient is 1 (or -1) exactly when the operands have equal (or opposite) signs and the dividend's size is at least the divisor's and below twice it |
| Geometry.KnightShapeIsLShape | chess.c:1133-1140 | the product test accepts exactly the L-shaped moves |
| Geometry.KingShapeIsStep | chess.c:1198-1218 | the king test accepts exactly the moves to one of the eight neighbours |
| Geometry.BishopShapeByTruncation | chess.c:1144-1158 | the bishop test accepts exactly the moves with a rank change and a file change at least the rank change and below twice it, so (3, 2) passes |
| Geometry.QueenShapeIsRookOrBishop | chess.c:1171-1185 | the queen test accepts exactly the moves the rook test or the bishop test accepts |
| Path.Blocked | chess.c:132-207 | when both distances are at most 2 the walk reads nothing and reports a clear path |
| Path.WalkClear | chess.c:186-202 | the walk reports clear exactly when every cell it probes is inside the board and empty |
| Path.WalkObstructed | chess.c:188-193 | the walk reports blocked only when a cell it probes is inside the board and not "**" |
| Path.WalkOffBoard | chess.c:188 | the walk reads outside the board only at an index it probes |
| Path.WalkFrame | chess.c:186-202 | writing a cell the walk never probes leaves its answer unchanged |
| Path.ProbesInClosedForm | chess.c:197-200 | the t-th probe is t increments from the start cell |
| Path.BlockedIgnoresEnds | chess.c:132-207 | the walk never reads the source or the destination cell |
| Path.BlockedMeaning | chess.c:132-207 | the path is clear exactly when each of the d-2 cells stepped to is on the board and empty, and it is blocked only when one of them is occupied |
| Path.BlockedSkipsLastCellUp | chess.c:186 | on an upward same-file path the cell just before the destination is never read |
| Path.BlockedLeftwardReadsRightward | chess.c:145-147 | on a same-rank path toward file a, the cells between the two squares are never read |
| Path.BlockedRunsOffTheBoard | chess.c:149-150 | a same-file path from rank 8 to rank 1 reads flat index 64 + file first, past the end of the board |
| Attack.ClassifyMeaning | chess.c:492-555 | on a well-formed board an empty cell lets the ray pass, and an occupied cell is a threat exactly when it is an opponent attacker for its distance and direction, and a stop otherwise |
| Attack.RayMeaning | chess.c:449-581 | the ray walk finds a threat exactly when the first piece on the ray is on the board and an opponent queen, a rook on a straight ray, a bishop on a diagonal, a king at distance 1 or a pawn at diagonal distance 1 on its capturing side; the player's own piece ends the ray |
| Attack.CheckMeaning | chess.c:363-582 | check holds exactly when an inner-square opponent knight is an L away or some ray's first piece attacks |
| Attack.KnightsFromMeaning | chess.c:414-444 | the knight passes from t on see a knight exactly when one of those passes probes an opponent knight |
| Attack.KnightThreatMeaning | chess.c:414-444 | the four knight passes, two probes each, see exactly the eight L-shaped offsets |
| Attack.RaysFromMeaning | chess.c:449-576 | the directions of the table from position t on find a threat exactly when one of them does |
| Attack.RayThreatMeaning | chess.c:449-576 | the ray walk finds a threat exactly when one of the eight directions does, the centre of the 3x3 table excluded |
| Attack.KnightsFromAgree | chess.c:414-444 | two boards whose knight probes agree give the same knight answer |
| Attack.RaysFromAgree | chess.c:449-576 | two boards whose rays agree give the same ray answer |
| Attack.KnightScanSkipsEdges | chess.c:427-437 | a knight on rank 1 or 8 or file a or h is never seen by the knight scan |
| Attack.InnerKnightChecks | chess.c:427-444 | an opponent knight two ranks up and one file over, strictly inside the board, gives check |
| Attack.RayFrame | chess.c:456-556 | writing a cell the ray never reaches leaves the ray's answer unchanged |
| Attack.CheckIgnoresOwnSquare | chess.c:478-490 | check never reads the king's own square |
| Attack.KnightsIgnoreOwnSquare | chess.c:414-444 | the knight probes never read the king's own square |
| Attack.RayIgnoresOwnSquare | chess.c:478-490 | no ray, from distance 1 on, reads the king's own square |
| CheckLoop.KnightProbe | chess.c:427-437 | one pass of the knight loops matches exactly when one of its two probes is an opponent knight inside the inner 6x6 square, though a probe outside keeps the previous colour and type |
| CheckLoop.KnightScan | chess.c:414-444 | the knight loops, with their stale colour and type variables, find a threat exactly when a knight threat exists |
| CheckLoop.VisitCell | chess.c:492-555 | one cell of the ray loop: a threat implies the ray threatens; a finished direction has no threat; otherwise the ray's answer carries to the next distance |
| CheckLoop.RayScan | chess.c:449-576 | the distance-outer ray loops with the table of finished directions compute exactly the eight-ray threat |
| CheckLoop.CheckScan | chess.c:363-582 | the loops of check compute exactly the check predicate |
| State.SetKingCache | chess.c:1284-1293 | the cache of the given side moves to the new square, the other cache is untouched, and nothing else in the state changes |
| State.ResetStartsGame | chess.c:309-361 | after reset: the standard start position, the caches at e1 (0, 4) and e8 (7, 4) on their kings, the computer playing the colour the human did not pick, no moves, not mated, a running game, one more game, the other colour for the computer and White to move |
| State.StartBoardWellFormed | chess.c:82-86 | the start position holds only "**" and valid pieces |
| State.NeighboursAreAdjacent | chess.c:629-658 | the neighbour scan visits exactly the eight adjacent squares |
| State.FirstSafe | chess.c:638-676 | the scan stops at the first position whose verdict is an escape, having passed only non-escapes, and runs out only when no position from where it started is an escape |
| State.ScanFound | chess.c:638-676 | the position the neighbour scan stops at is an escape and every earlier position is not |
| State.ScanNone | chess.c:638-692 | the neighbour scan runs out exactly when none of the eight positions is an escape |
| State.Lift | chess.c:619-684 | the king's cell becomes "**", and putting the king back on it restores the board exactly, as mate does before it returns |
| State.MateTest | chess.c:590-692 | mate uses the cached square, answers true exactly when no neighbour is safe with the king lifted, restores the board, and on true sets mated and ends the game |
| State.MateMeansNoSafeSquare | chess.c:590-692 | mate holds exactly when no adjacent square is safe for the lifted king |
| State.CheckOrMate | chess.c:695-726 | no check changes nothing; under check the answer is MATE exactly when mate holds, and then the game ends (mated set, no game running), and otherwise CHECK with nothing else changed |
| Opponent.ComputerMove | chess.c:737-916 | the sides, the game count and the mate flag are unchanged, and the caches stay on the board |
| Opponent.ComputerOutOfTurn | chess.c:769-906 | on the human's turn only the reply changes, to OOT |
| Opponent.OpeningPushIgnoresContents | chess.c:775-804 | within the first two moves the e-pawn square's content moves two ranks forward whatever stands on either square, nothing else moves, and the turn passes |
| Opponent.KingStepMoves | chess.c:843-876 | a scan stopping at position t puts the king on that neighbour, which is an escape, moves the computer's cache there and leaves the human's, and passes the turn with OK |
| Opponent.KingStepBoard | chess.c:843-876 | after that step the new square holds the king, the old one is empty and every other cell is as before |
| Opponent.KingStepLandsSafe | chess.c:843-858 | the king is not in check on the square it steps to |
| Opponent.KingStepIsFirst | chess.c:820-858 | every scan position before the square the king takes is unsafe |
| Opponent.KingStepsToFirstSafeSquare | chess.c:809-876 | when a safe neighbour exists the king steps to the first one in scan order, its old cell empties, the computer's cache follows while the human's stays, nothing else moves, and it is not in check where it lands |
| Opponent.NeighbourDistinct | chess.c:820-832 | distinct scan positions are distinct squares |
| Opponent.NoSafeSquareIsTie | chess.c:886-899 | with no safe neighbour the board and caches are restored, the game ends and the answer is TIE |
| Moves.ValidateMove | chess.c:949-1309 | a completed move keeps the sides, the game count and the game and mate flags, and keeps the caches on the board |
| Moves.RefusedMoveChangesOnlyReply | chess.c:971-1222 | a move failing the checks or the rules changes only the reply, to ILLMOVE |
| Moves.AcceptedMoveIsCommitted | chess.c:1232-1309 | an accepted move passed every check; the source is empty, the destination holds the piece or its promotion, nothing else moved, the mover's cached square is not attacked, the turn passes, moves goes up, a king move updates only the mover's cache, and any other move updates none |
| Moves.SelfCheckRollsBack | chess.c:1232-1277 | a move that leaves the cached king square attacked answers ILLMOVE, keeps the turn and the caches, still counts the move, and restores the board, except that a promoting pawn comes back as the promoted piece |
| Moves.AcceptedMeansLegal | chess.c:1222-1232 | an OK answer means the move passed the checks and its piece rule |
| Moves.KnightRuleIsLShape | chess.c:1133-1140 | the knight rule accepts exactly the L-shaped moves |
| Moves.KingRuleIsStep | chess.c:1198-1218 | the king rule accepts exactly the moves to an adjacent square |
| Moves.RookRuleIsStraight | chess.c:1116-1130 | the rook rule accepts exactly the moves along a rank or file whose walk is clear |
| Moves.BishopRuleByTruncation | chess.c:1144-1167 | the bishop rule accepts exactly the moves with a rank change, a file change at least the rank change and below twice it, and a clear walk |
| Moves.QueenRuleIsRookOrBishop | chess.c:1171-1194 | the queen rule accepts exactly the moves of rook or bishop shape with a clear walk |
| Moves.AcceptedKnightIsLShape | chess.c:1133-1140 | an accepted knight move is an L-shape |
| Moves.AcceptedKingIsStep | chess.c:1198-1218 | an accepted king move goes to an adjacent square |
| Moves.AcceptedRookIsStraight | chess.c:1116-1130 | an accepted rook move keeps its rank or file, and its walk was clear |
| Moves.AcceptedBishopByTruncation | chess.c:1144-1167 | an accepted bishop move changes rank and its file change is at least the rank change and below twice it, and its walk was clear |
| Moves.AcceptedQueenIsRookOrBishop | chess.c:1171-1194 | an accepted queen move passes the rook or the bishop shape test, and its walk was clear |
| Moves.AcceptedPawnPush | chess.c:1100-1109 | an accepted plain pawn move stays on its file and goes one rank forward, or two from its home rank |
| Moves.AcceptedPawnCapture | chess.c:1071-1081 | an accepted pawn capture goes one rank forward and one file aside |
| Moves.PromotionChecksOnlyLandingRank | chess.c:1085-1094 | a white pawn promoting without a capture passes the pawn rule from any square when it lands on rank 8 |
| Moves.DoubleStepIgnoresPassedSquare | chess.c:1100-1107 | the double step of a white pawn from rank 2 and of a black pawn from rank 7 passes whatever stands on the square it crosses |
| Moves.KingMayStepIntoCheck | chess.c:1236-1293 | a king may step onto an attacked square when the square it left is not attacked; the cache then moves to the attacked square |
| Moves.SelfCaptureRemovesPiece | chess.c:1022-1031 | a rook or queen "capturing" itself on its own square is accepted and disappears from the board |
| Dispatch.StepRunsEncoded | chess.c:1382-1392 | a write of a command's canonical line runs that command |
| Dispatch.ShortWriteIsUnknown | chess.c:1353-1361 | a write of at most two bytes answers UNKCMD and changes nothing else |
| Dispatch.NoGameGate | chess.c:1441-1453 | a move, computer move or resign without a running game answers NOGAME and changes nothing else (after a mate, resign answers MATE first) |
| Dispatch.OutOfTurnGate | chess.c:1456-1468 | a move on the computer's turn, a resign on the computer's turn with no mate pending, or a computer move on the human's turn answers OOT and changes nothing else |
| Dispatch.ResignAfterMate | chess.c:1560-1570 | a resign after a mate answers MATE and changes nothing else |
| Dispatch.ResignEndsGame | chess.c:1603-1608 | a resign in turn ends the game, answers OK and changes nothing else |
| Dispatch.FreshDeviceAnswersNoGame | chess.c:1417-1608 | on the device as loaded, every accepted line but a new game answers NOGAME and changes nothing else |
| Dispatch.QueryGate | chess.c:1417-1426 | a query leaves the board, answers NOGAME exactly while no game was ever started, and otherwise returns a dump that reads back as the board |
| Dispatch.CheckOverwritesIllegalMove | chess.c:1488-1489 | a refused move is still followed by check_or_mate, whose CHECK or MATE overwrites ILLMOVE |
| Dispatch.CheckOverwritesTie | chess.c:1542-1543 | a TIE from the computer is overwritten by CHECK or MATE when the human's cached king square is attacked |
| Dispatch.InitSound | chess.c:35-50 | the load-time state satisfies the state invariant |
| Dispatch.CommitKeepsWellFormed | chess.c:1232-1277 | committing or rolling back a move keeps every cell empty or a valid piece |
| Dispatch.ComputerMoveKeepsWellFormed | chess.c:737-916 | a computer move keeps every cell empty or a valid piece |
| Dispatch.NewGameKeepsSound | chess.c:1392-1403 | a new game leads to a state satisfying the invariant |
| Dispatch.CheckOrMateKeepsSound | chess.c:695-726 | once a game was started, check_or_mate leads from a sound state to a sound state, since a mate only sets mated and ends the game |
| Dispatch.MoveKeepsSound | chess.c:1435-1491 | a human move that stays on the board keeps the invariant |
| Dispatch.ComputerKeepsSound | chess.c:1495-1545 | a computer move keeps the invariant |
| Dispatch.StepKeepsSound | chess.c:1341-1618 | every write from a sound state that does not read past the board leads to a sound state: caches on the board, cells well formed, two distinct sides once a game was started, and a running game with one of them to move |

## Left out

- Locking: `board_lock`, `resp_lock` and the rwsem calls. They exist for concurrency, and each write is modelled as atomic. This includes the unlocked reads in `validateMove` and the write of `game_initialized` under a read lock at the end of a resign.
- Kernel I/O: `game_read`, `access_ok`, `copy_from_user`, `copy_to_user`, `kmalloc` and `kfree`. A write is a character sequence and the reply is a value. The `-EFAULT` and `-ENOMEM` returns are not modelled.
- Module lifecycle: `game_init`, `game_exit`, the misc-device registration and `printk`. They carry no rule logic; only the empty board `game_init` sets up is kept, in `State.Init`.
- The `promoted_pieces` registry and its `index`: heap ownership of the kmalloc-ed strings. A promoted piece is a plain square value. In the source `index` is never bounded, so more than sixteen promotions in one game (rolled-back ones count too) write past the array, and `kmalloc`'s result is never checked.
- `strcmp` on promoted pieces: the source compares them without a terminating NUL. Every comparison is modelled as equality of the two characters.
- `resplen`: only the length of the chosen reply string.
- Integer widths: `moves` and `games` are unbounded naturals, so the model never wraps a C `int`.
- Reads past the board: when `blocked` reaches a flat index outside the 64 cells, the C behaviour is undefined. The model stops there with `Moves.ReadPastBoard` and `Dispatch.Undefined`, which carry the index, and proves nothing about what follows.
- Reads past the line: for '00' and '02' lines shorter than their fixed length, `validate` reads bytes beyond the written length. Those lines are rejected with INVFMT whatever those bytes hold, so the model decides them from the length alone.
- Characters: bytes are Dafny `char`s, compared by code.
- Command.Validate: the lines of at most two bytes are answered before the validator runs, so it requires at least three characters.
- Opponent.ComputerMove: its own contract states only the frame. Its behaviour is stated by the `Opponent` lemmas, one per branch.
- Moves.ValidateMove: its own contract states only the frame. Its behaviour is stated by the `Moves` lemmas.

## Behaviours of chess.c worth noting

- A query after a mate or a resign still returns the board dump, because the gate tests only `games == 0`.
- The self-check rollback writes the promoted piece back onto the source square, not the pawn.
