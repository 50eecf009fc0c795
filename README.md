# Simply-Chess match orchestrator in Dafny

This project models `Match`, the aggregate at the centre of the Simply-Chess
back end. A match owns:

- its status (`New`, `InProgress`, `Finished`, `Tied`);
- the turn flag;
- the two players and the winner;
- two mutable lists of piece objects, one per colour.

The model covers what the match does with them:

- it lays out the opening position (`createPieces`);
- it guards a move by status and turn, and hands the piece its allies and enemies;
- it flips the turn after an accepted move;
- it then adjudicates: first checkmate, then stalemate or dead position (`verifyCheckmate`, `verifyDraw`, `isDeadPosition`);
- it promotes a pawn.

Layout:

- `pieces.dfy`: module `Pieces`. It holds colours, kinds and squares, and `Piece`, a class whose colour, square and alive flag change in place. It also holds the piece factory, the snapshot `PieceView`, and the stream helpers `Match` uses (`Without` for `filter(p -> !p.equals(x))`, `IndexOfFirst` for `filter(..).findFirst()`).
- `match.dfy`: module `Domain`. It holds:
  - `isDeadPosition` as a pure function, with lemmas about its branches;
  - the initial layout as a value, with lemmas about it;
  - the construction methods that build the lists factory call by factory call;
  - the adjudication of a position as pure functions (`CheckmateCheck`, `DrawCheck`, `Adjudication`), with lemmas;
  - the class `Match`, whose methods mutate the status, turn, winner and pieces. Each method is proved against those functions.

The piece classes are not part of this model. That covers how each kind moves, and `King.isCheckmate`, `King.isStaleMate` and `Pawn.isPromoted`. They enter as the function-valued fields of `Pieces.Rules`, and each is asked about snapshots of the pieces.

`Piece.Move` states what the match relies on from an accepted `Piece.move`:

- the piece now stands on the target;
- a live enemy standing on the target is marked dead;
- a rejected move changes nothing.

`Match.Move` is then stated entry by entry against `Domain.AfterMove`, through `Domain.AfterMoveAll`, which applies it to every entry of a list.

Where the code departs from standard chess rules, or from what a reader of its comments would expect, the model follows the code:

- A draw found right after a checkmate overwrites `Finished` with `Tied`, and the winner stays recorded.
- King and bishop against king and bishop is never a dead position, because its branch asks the black list to be all Kings and to hold a bishop at once.
- The player setters put any match, a finished one included, back in progress once both slots are filled.
- A missing King is reported only after the piece has moved and the turn has flipped.
- A promoted piece takes the pawn's colour and square but is added to neither list.

## Model

| member | source | states |
|---|---|---|
| Pieces.SymbolRoundTrip | BackEnd/src/main/java/com/fs/backend/domain/Match.java:88-108 | every kind's factory symbol is read back by the factory as that kind |
| Pieces.KindOfSymbol | BackEnd/src/main/java/com/fs/backend/domain/Match.java:88-108 | the factory accepts exactly the six symbols R N B Q K P, and the kind built carries the symbol asked for |
| Pieces.Create | BackEnd/src/main/java/com/fs/backend/domain/Match.java:88-108 | the factory returns a fresh, live piece of the named kind, colour and square |
| Pieces.Piece.Move | BackEnd/src/main/java/com/fs/backend/domain/Match.java:136 | the move is accepted exactly when the piece's rule accepts the target given the allies' and enemies' snapshots; on acceptance the piece stands on the target and exactly the enemies on the target die; on rejection nothing changes |
| Pieces.Without | BackEnd/src/main/java/com/fs/backend/domain/Match.java:131-133 | filtering out one value never lengthens a list, and leaves a list without that value as it is |
| Pieces.WithoutMembers | BackEnd/src/main/java/com/fs/backend/domain/Match.java:131-133 | the filtered list holds only entries of the list other than the value, and every such entry |
| Pieces.IndexOfFirst | BackEnd/src/main/java/com/fs/backend/domain/Match.java:143-146 | the index found is the first entry that matches; nothing is found exactly when no entry matches |
| Domain.Shade | BackEnd/src/main/java/com/fs/backend/domain/Match.java:211-212 | a square's shade is 0 exactly when its coordinate sum is even; Java's truncating `%` gives -1 for odd negative sums |
| Domain.BishopsOnSameShade | BackEnd/src/main/java/com/fs/backend/domain/Match.java:206-214 | the bishops can only be on the same shade when each list holds a bishop |
| Domain.FirstBishopsShade | BackEnd/src/main/java/com/fs/backend/domain/Match.java:206-214 | the verdict compares the squares of each list's first bishop, and on the board that means their coordinate sums have the same parity |
| Domain.DeadPosition | BackEnd/src/main/java/com/fs/backend/domain/Match.java:182-218 | with one piece a side, dead exactly when both are Kings; dead only when both sides have one piece or one side has two |
| Domain.DeadPositionCases | BackEnd/src/main/java/com/fs/backend/domain/Match.java:182-198 | dead exactly for King against King, or for a King and a Bishop or Knight (two pieces) against a side of Kings only |
| Domain.KingAndBishopPairsNeverDead | BackEnd/src/main/java/com/fs/backend/domain/Match.java:200-215 | King and Bishop against King and Bishop is never dead, whatever the bishops' squares |
| Domain.KingAndMinorAgainstKings | BackEnd/src/main/java/com/fs/backend/domain/Match.java:188-198 | a King with a minor piece against Kings only is dead, whichever colour holds the minor piece |
| Domain.DeadPositionSymmetric | BackEnd/src/main/java/com/fs/backend/domain/Match.java:182-218 | swapping the two lists never changes the verdict |
| Domain.PawnsStep | BackEnd/src/main/java/com/fs/backend/domain/Match.java:106-109 | one loop turn appends exactly the pawn of the next column |
| Domain.InitialRosterAt | BackEnd/src/main/java/com/fs/backend/domain/Match.java:88-109 | each side has 16 entries: column i+1 of the back rank for the first eight, then the pawns column by column |
| Domain.InitialRosterLayout | BackEnd/src/main/java/com/fs/backend/domain/Match.java:84-110 | each side has 16 live pieces of its colour on its two home rows inside the board, on distinct squares; exactly one is a King, on column 5 of the home row |
| Domain.InitialRostersApart | BackEnd/src/main/java/com/fs/backend/domain/Match.java:84-110 | no white piece shares a square with a black piece at the start |
| Domain.InitialPositionNotDead | BackEnd/src/main/java/com/fs/backend/domain/Match.java:84-110 | the opening position is not a dead position |
| Domain.AfterMove | BackEnd/src/main/java/com/fs/backend/domain/Match.java:136 | after a move, the mover stands on the target; a piece of the other colour on the target is dead; kind and colour never change, and nothing else changes |
| Domain.AlliesAndEnemies | BackEnd/src/main/java/com/fs/backend/domain/Match.java:131-134 | the allies are exactly the own colour's entries other than the piece, and the enemies are the other colour's list; while every piece sits in its colour's list, the allies share the piece's colour, the enemies do not, and the piece is never its own enemy |
| Domain.MoveAmong | BackEnd/src/main/java/com/fs/backend/domain/Match.java:131-136 | the piece is asked with its own list minus itself as allies and the other list as enemies; an accepted move changes both lists exactly as AfterMoveAll says and keeps every piece in its colour's list; a rejected one changes nothing |
| Domain.CheckmateCheck | BackEnd/src/main/java/com/fs/backend/domain/Match.java:142-162 | the error is reported exactly when a King is missing, and then nothing else changes; otherwise a mated Black King gives White's player the win, else a mated White King gives Black's player the win, and either mate finishes the match |
| Domain.DrawCheck | BackEnd/src/main/java/com/fs/backend/domain/Match.java:164-180 | the error is reported exactly when a King is missing; the winner is never touched; the match is tied exactly when both Kings are present and a King is stalemated or the position is dead |
| Domain.Adjudication | BackEnd/src/main/java/com/fs/backend/domain/Match.java:137-139 | the error is reported exactly when a King is missing, and the winner is the one the checkmate check decides (the draw check never changes it); the full outcome is in AdjudicationOutcome and AdjudicationWithoutKings |
| Domain.AdjudicationWithoutKings | BackEnd/src/main/java/com/fs/backend/domain/Match.java:143-146 | when a King is missing, nothing is decided and the error names White exactly when White's list has no King |
| Domain.AdjudicationOutcome | BackEnd/src/main/java/com/fs/backend/domain/Match.java:137-179 | with both Kings there is no error; the match is tied exactly when drawn, else finished exactly when a King is mated; White's player wins when Black is mated, else Black's player when White is mated; otherwise, and in a draw, the winner is kept |
| Domain.DrawOverridesCheckmate | BackEnd/src/main/java/com/fs/backend/domain/Match.java:138-139 | a draw found after a checkmate ties the match while the checkmate's winner stays recorded |
| Domain.BothMatedWhiteWins | BackEnd/src/main/java/com/fs/backend/domain/Match.java:148-161 | when both Kings are mated and nothing is drawn, White's player wins, because Black's verdict is applied second |
| Domain.AdjudicationIdempotent | BackEnd/src/main/java/com/fs/backend/domain/Match.java:142-179 | adjudicating the same position a second time decides nothing new |
| Domain.WithoutDistinct | BackEnd/src/main/java/com/fs/backend/domain/Match.java:148-150 | in a list without duplicates, filtering out an entry removes exactly that one position |
| Domain.KingAllies | BackEnd/src/main/java/com/fs/backend/domain/Match.java:170-175 | a King's allies, filtered by reference, are its list's snapshots without the King's entry |
| Domain.KingIndexOfViews | BackEnd/src/main/java/com/fs/backend/domain/Match.java:143-146 | the first King among the pieces is the first King among their snapshots |
| Domain.AddCreated | BackEnd/src/main/java/com/fs/backend/domain/Match.java:88 | adding a factory piece appends one fresh piece with the requested kind, colour and square, and keeps the list free of duplicates |
| Domain.AddPawn | BackEnd/src/main/java/com/fs/backend/domain/Match.java:107-108 | one pawn per call extends a side's list by the pawn of that column |
| Domain.AddPawns | BackEnd/src/main/java/com/fs/backend/domain/Match.java:106-109 | the loop over columns 1 to 8 turns two back ranks into the two full initial lists |
| Domain.BackRankPieces | BackEnd/src/main/java/com/fs/backend/domain/Match.java:88-104 | the eight factory calls give a side's back rank, rook to rook, in fresh distinct pieces |
| Domain.InitialPieces | BackEnd/src/main/java/com/fs/backend/domain/Match.java:84-110 | both lists are exactly the initial layout, of fresh distinct pieces, each in its colour's list |
| Domain.InitialColours | BackEnd/src/main/java/com/fs/backend/domain/Match.java:84-110 | lists laid out as at the start hold only pieces of their own colour |
| Domain.Match.Named | BackEnd/src/main/java/com/fs/backend/domain/Match.java:47-54 | both players are set, White is to move, the match is in progress with no winner, and the pieces are laid out |
| Domain.Match.Hosted | BackEnd/src/main/java/com/fs/backend/domain/Match.java:56-68 | the host takes exactly the colour the coin flip gives and the other slot is empty; White is to move, the match is new, and the pieces are laid out |
| Domain.Match.SetWhitePlayer | BackEnd/src/main/java/com/fs/backend/domain/Match.java:70-75 | the white slot is set; the match becomes in progress exactly when both slots are filled, and otherwise keeps its status |
| Domain.Match.SetBlackPlayer | BackEnd/src/main/java/com/fs/backend/domain/Match.java:77-82 | the black slot is set; the match becomes in progress exactly when both slots are filled, and otherwise keeps its status |
| Domain.Match.CreatePieces | BackEnd/src/main/java/com/fs/backend/domain/Match.java:84-110 | both lists are replaced by fresh pieces in the initial layout, each piece in its colour's list |
| Domain.Match.Move | BackEnd/src/main/java/com/fs/backend/domain/Match.java:112-140 | a finished or tied match, a new match, a piece of the wrong colour and a target the piece's rule rejects are each refused with their own error and change nothing; otherwise both lists change as AfterMoveAll says, the turn flips once, and status, winner and error are those of Adjudication on the new position |
| Domain.Match.Play | BackEnd/src/main/java/com/fs/backend/domain/Match.java:131-139 | a rejected target changes nothing; an accepted one moves the pieces, flips the turn and adjudicates the new position |
| Domain.Match.MovePiece | BackEnd/src/main/java/com/fs/backend/domain/Match.java:131-136 | the move is accepted exactly when the piece's rule accepts it with the allies and enemies the match passes; the lists then change as AfterMoveAll says |
| Domain.Match.EndTurn | BackEnd/src/main/java/com/fs/backend/domain/Match.java:137-139 | the turn flips, the pieces are untouched, and status, winner and error are those of Adjudication |
| Domain.Match.KingVerdicts | BackEnd/src/main/java/com/fs/backend/domain/Match.java:143-150 | the verdicts exist exactly when both Kings are present, and are each King's verdict about its own list without itself against the other list |
| Domain.Match.VerifyCheckmate | BackEnd/src/main/java/com/fs/backend/domain/Match.java:142-162 | status, winner and error are those of CheckmateCheck; the pieces are untouched |
| Domain.Match.DeclareMates | BackEnd/src/main/java/com/fs/backend/domain/Match.java:148-161 | a mated White King makes Black's player the winner, then a mated Black King makes White's player the winner; either finishes the match |
| Domain.Match.VerifyDraw | BackEnd/src/main/java/com/fs/backend/domain/Match.java:164-180 | the winner is kept, and status and error are those of DrawCheck; the pieces are untouched |
| Domain.Match.DeclareDraw | BackEnd/src/main/java/com/fs/backend/domain/Match.java:176-179 | a draw ties the match whatever its status was; otherwise the status is kept |
| Domain.Match.PromoteAPawn | BackEnd/src/main/java/com/fs/backend/domain/Match.java:220-229 | succeeds exactly when the pawn reports itself promoted and the new piece is a Queen, Rook, Bishop or Knight; then the pawn dies and the new piece takes its colour and square; otherwise an illegal-movement error and nothing changes; the match itself never changes; the class invariant survives unless the new piece was taken from the opponent's list |

## Left out

- The piece classes are not part of this model (`Piece.move`'s movement rules, `King.isCheckmate`, `King.isStaleMate`, `Pawn.isPromoted`, `PieceFactory`). Each rule is an uninterpreted function of piece snapshots in `Pieces.Rules`.
- Pieces.Piece.Move: the effect of an accepted move (the piece goes to the target, and the enemies on the target are captured) is what a capture is expected to do in those classes, taken as their contract rather than derived here. Whatever else they may do to the lists they are handed is not modelled.
- The rules are asked about snapshots, so a rule that mutated pieces while deciding (for example, a simulated move it forgot to undo) is not modelled.
- `p.equals(x)` in the list filters is taken to be reference equality, because the piece classes are not part of this model.
- Domain.Match.Move: requires `Valid()`. This is the class invariant: each piece sits in its colour's list, and neither list repeats a piece. Every constructor establishes it and every method keeps it, with one exception. `PromoteAPawn` accepts any piece as the new piece, so promoting with a piece taken from the opponent's list recolours it inside that list and breaks the invariant, after which `Move` cannot be called. Lists replaced through the generated setters could also break it; that is not covered.
- The exceptions `GameException`, `IllegalMovementException` and `GameInconsistencyException` are returned as `MatchError` values instead of thrown.
- `new Random().nextBoolean()` in the host constructor is the `hostIsWhite` parameter of `Domain.Match.Hosted`.
- Left out as carrying no logic:
  - `createdAt` (`LocalDateTime.now()`) and `id`;
  - the Lombok-generated getters, setters, builder and no-argument/all-argument constructors;
  - the controller, service, persistence entity and front end.
- Captures only mark a piece dead and never remove it from its list, and promotion adds nothing. So a match built by either constructor keeps 16 entries per side for good, and the dead-position draw, which reads only list sizes and kinds, can never fire in it. Whether the running system can reach such a position depends on the piece classes and on how matches are reloaded from storage, neither of which is part of this model.
- Domain.Shade: the bishop square sum is not wrapped at 32 bits. Coordinates on an 8×8 board never come near the limit.
- Domain.BishopsOnSameShade: answers false when a list holds no bishop, where the source's `orElseThrow` would throw. Its branch is only reached with a bishop on each side, and it can never be reached at all.
- Domain.Match.CreatePieces: the eight back-rank factory calls per side are written as one loop over `BackRankKinds`. The calls happen in the same order, with the same symbols and squares.
- The piece step and the adjudication of `move` are split into the helper methods `Play`, `MovePiece`, `EndTurn`, `DeclareMates` and `DeclareDraw`. This is a proof convenience; the order of effects is the source's.
