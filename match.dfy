/** The match orchestrator: one mutable match that owns the two piece lists,
    the turn flag, the status and the winner; it guards and applies moves,
    adjudicates checkmate and draws after each move, promotes pawns, and lays
    out the initial position. */
module Domain {
  import opened Wrappers
  import opened Pieces

  /** `BOARD_LENGHT`: the side of the square board. */
  const BoardLength: int := 8

  /** `MatchStatus`. */
  datatype MatchStatus = New | InProgress | Finished | Tied

  /** A player, known by name. */
  datatype Player = Player(name: string)

  /** The three exception families `Match` raises. */
  datatype MatchError =
    | MatchOver            // GameException: a move in a finished or tied match
    | AwaitingOpponent     // GameException: a move before the second player is connected
    | IllegalMovement      // IllegalMovementException: wrong side, unreachable target, bad promotion
    | KingMissing(side: Color)  // GameInconsistencyException: a list has no King

  // ---------------------------------------------------------------------------
  // Dead positions (`isDeadPosition`)
  // ---------------------------------------------------------------------------

  /** `allMatch(p -> p instanceof King)`; true of an empty list. */
  predicate AllKings(s: seq<PieceView>)
  {
    forall i :: 0 <= i < |s| ==> s[i].kind == King
  }

  /** `anyMatch(p -> p's class is one of kinds)`. */
  predicate HasAny(s: seq<PieceView>, kinds: set<Kind>)
  {
    exists i :: 0 <= i < |s| && s[i].kind in kinds
  }

  /** Java's `%`, which truncates toward zero. */
  function JavaRem(a: int, b: int): int
    requires b > 0
  {
    if a >= 0 then a % b else -((-a) % b)
  }

  /** `(x + y) % 2`: the shade of a square. */
  function Shade(c: Coord): (r: int)
    ensures r == 0 <==> (c.x + c.y) % 2 == 0
    ensures c.x + c.y >= 0 ==> r == (c.x + c.y) % 2
    ensures c.x + c.y < 0 ==> r == -((c.x + c.y) % 2)
  {
    JavaRem(c.x + c.y, 2)
  }

  predicate IsBishop(p: PieceView)
  {
    p.kind == Bishop
  }

  /** The first white bishop and the first black bishop stand on squares of
      the same shade (false when either list has no bishop, where the source's
      `orElseThrow` would throw). */
  predicate BishopsOnSameShade(white: seq<PieceView>, black: seq<PieceView>)
    ensures BishopsOnSameShade(white, black) ==> HasAny(white, {Bishop}) && HasAny(black, {Bishop})
  {
    match (IndexOfFirst(white, IsBishop), IndexOfFirst(black, IsBishop))
    case (Some(i), Some(j)) => Shade(white[i].pos) == Shade(black[j].pos)
    case _ => false
  }

  /** Given the first bishop of each list, the verdict compares exactly those
      two squares; on squares with non-negative coordinate sums (every square
      of the board) that is whether the sums have the same parity. */
  lemma FirstBishopsShade(white: seq<PieceView>, black: seq<PieceView>, i: nat, j: nat)
    requires i < |white| && white[i].kind == Bishop && forall k :: 0 <= k < i ==> white[k].kind != Bishop
    requires j < |black| && black[j].kind == Bishop && forall k :: 0 <= k < j ==> black[k].kind != Bishop
    ensures BishopsOnSameShade(white, black) <==> Shade(white[i].pos) == Shade(black[j].pos)
    ensures white[i].pos.x + white[i].pos.y >= 0 && black[j].pos.x + black[j].pos.y >= 0 ==>
              (BishopsOnSameShade(white, black) <==>
                 (white[i].pos.x + white[i].pos.y) % 2 == (black[j].pos.x + black[j].pos.y) % 2)
  {
    var a, b := IndexOfFirst(white, IsBishop), IndexOfFirst(black, IsBishop);
    assert a == Some(i) by {
      assert IsBishop(white[i]);
    }
    assert b == Some(j) by {
      assert IsBishop(black[j]);
    }
  }

  /** `isDeadPosition()` over the white and the black list, branch by branch.
      Neither liveness nor the board is consulted: only list sizes, kinds and,
      in the last branch, bishop squares. */
  function DeadPosition(white: seq<PieceView>, black: seq<PieceView>): (r: bool)
    ensures |white| == 1 && |black| == 1 ==> (r <==> white[0].kind == King && black[0].kind == King)
    ensures r ==> (|white| == 1 && |black| == 1) || |white| == 2 || |black| == 2
  {
    if |black| == 1 && |white| == 1 then
      AllKings(black) && AllKings(white)
    else if |black| == 2 && HasAny(black, {King}) && HasAny(black, {Bishop, Knight}) && AllKings(white) then
      true
    else if |white| == 2 && HasAny(white, {King}) && HasAny(white, {Bishop, Knight}) && AllKings(black) then
      true
    else if |black| == 2 && |white| == 2 && HasAny(white, {King}) && HasAny(white, {Bishop})
            && AllKings(black) && HasAny(black, {Bishop}) then
      BishopsOnSameShade(white, black)
    else
      false
  }

  /** A list of exactly two pieces holding a King and a Bishop or Knight. */
  predicate KingAndMinor(s: seq<PieceView>)
  {
    |s| == 2 && HasAny(s, {King}) && HasAny(s, {Bishop, Knight})
  }

  /** What `isDeadPosition` decides, without its dead fourth branch: king
      against king, or a king and a minor piece against a side made only of
      kings (an empty side included). */
  lemma DeadPositionCases(white: seq<PieceView>, black: seq<PieceView>)
    ensures DeadPosition(white, black) <==>
              if |white| == 1 && |black| == 1 then white[0].kind == King && black[0].kind == King
              else (KingAndMinor(black) && AllKings(white)) || (KingAndMinor(white) && AllKings(black))
  {
  }

  /** King and bishop against king and bishop is never a dead position, whatever
      the bishops' squares: the branch meant for it asks the black list to be
      all kings and to hold a bishop at once. */
  lemma KingAndBishopPairsNeverDead(white: seq<PieceView>, black: seq<PieceView>)
    requires |white| == 2 && HasAny(white, {King}) && HasAny(white, {Bishop})
    requires |black| == 2 && HasAny(black, {King}) && HasAny(black, {Bishop})
    ensures !DeadPosition(white, black)
  {
    var i :| 0 <= i < |white| && white[i].kind in {Bishop};
    var j :| 0 <= j < |black| && black[j].kind in {Bishop};
    assert white[i].kind != King && black[j].kind != King;
  }

  /** A lone side of kings against a king and a minor piece is dead, whichever
      colour holds the minor piece. */
  lemma KingAndMinorAgainstKings(s: seq<PieceView>, t: seq<PieceView>)
    requires KingAndMinor(s) && AllKings(t)
    ensures DeadPosition(s, t) && DeadPosition(t, s)
  {
    DeadPositionCases(s, t);
    DeadPositionCases(t, s);
  }

  /** Swapping the colours never changes the verdict. */
  lemma DeadPositionSymmetric(white: seq<PieceView>, black: seq<PieceView>)
    ensures DeadPosition(white, black) == DeadPosition(black, white)
  {
    DeadPositionCases(white, black);
    DeadPositionCases(black, white);
  }

  // ---------------------------------------------------------------------------
  // Initial position (`createPieces`)
  // ---------------------------------------------------------------------------

  /** The row of a side's back rank and of its pawns. */
  function HomeRow(c: Color): int { if c == White then 1 else 8 }
  function PawnRow(c: Color): int { if c == White then 2 else 7 }

  /** Back rank kinds by column 1..8. */
  const BackRankKinds: seq<Kind> := [Rook, Knight, Bishop, Queen, King, Bishop, Knight, Rook]

  function BackRank(c: Color): seq<PieceView>
  {
    seq(8, i requires 0 <= i < 8 => PieceView(BackRankKinds[i], c, Coord(i + 1, HomeRow(c)), true))
  }

  /** The pawns of the first n columns. */
  function Pawns(c: Color, n: nat): seq<PieceView>
  {
    seq(n, i => PieceView(Pawn, c, Coord(i + 1, PawnRow(c)), true))
  }

  /** One more column of pawns, as appended by `createPieces`. */
  lemma PawnsStep(c: Color, n: nat)
    requires n > 0
    ensures BackRank(c) + Pawns(c, n) ==
            BackRank(c) + Pawns(c, n - 1) + [PieceView(Pawn, c, Coord(n, PawnRow(c)), true)]
  {
    assert Pawns(c, n) == Pawns(c, n - 1) + [PieceView(Pawn, c, Coord(n, PawnRow(c)), true)];
  }

  /** A side's list as `createPieces` leaves it: back rank left to right, then
      the pawns left to right. */
  function InitialRoster(c: Color): seq<PieceView>
  {
    BackRank(c) + Pawns(c, 8)
  }

  predicate OnBoard(p: Coord)
  {
    1 <= p.x <= BoardLength && 1 <= p.y <= BoardLength
  }

  /** Entry i of a side's initial list: column i + 1 of the back rank for the
      first eight, then the pawn of column i - 7. */
  lemma InitialRosterAt(c: Color, i: nat)
    requires i < 16
    ensures |InitialRoster(c)| == 16
    ensures InitialRoster(c)[i] ==
              if i < 8 then PieceView(BackRankKinds[i], c, Coord(i + 1, HomeRow(c)), true)
              else PieceView(Pawn, c, Coord(i - 7, PawnRow(c)), true)
  {
    if i < 8 {
      assert InitialRoster(c)[i] == BackRank(c)[i];
    } else {
      assert InitialRoster(c)[i] == Pawns(c, 8)[i - 8];
    }
  }

  /** Sixteen live pieces of the side's colour on its two home rows, all on
      distinct squares of the board, exactly one of them a King, on column 5. */
  lemma InitialRosterLayout(c: Color)
    ensures var r := InitialRoster(c);
      |r| == 16 &&
      (forall i :: 0 <= i < 16 ==>
         r[i].color == c && r[i].alive && OnBoard(r[i].pos) &&
         (r[i].pos.y == HomeRow(c) || r[i].pos.y == PawnRow(c))) &&
      (forall i :: 0 <= i < 16 ==> (r[i].kind == King <==> i == 4)) &&
      r[4].pos == Coord(5, HomeRow(c)) &&
      (forall i, j :: 0 <= i < j < 16 ==> r[i].pos != r[j].pos)
  {
    var r := InitialRoster(c);
    forall i | 0 <= i < 16
      ensures r[i].color == c && r[i].alive && OnBoard(r[i].pos)
      ensures r[i].pos.y == HomeRow(c) || r[i].pos.y == PawnRow(c)
      ensures r[i].kind == King <==> i == 4
    {
      InitialRosterAt(c, i);
    }
    InitialRosterAt(c, 4);
    forall i, j | 0 <= i < j < 16
      ensures r[i].pos != r[j].pos
    {
      InitialRosterAt(c, i);
      InitialRosterAt(c, j);
    }
  }

  /** White starts on rows 1-2 and Black on rows 7-8, so no square is shared. */
  lemma InitialRostersApart()
    ensures forall i, j :: 0 <= i < 16 && 0 <= j < 16 ==>
              InitialRoster(White)[i].pos != InitialRoster(Black)[j].pos
  {
    InitialRosterLayout(White);
    InitialRosterLayout(Black);
  }

  /** The opening position is not a dead position. */
  lemma InitialPositionNotDead()
    ensures !DeadPosition(InitialRoster(White), InitialRoster(Black))
  {
    InitialRosterLayout(White);
    InitialRosterLayout(Black);
  }

  /** No two entries of a list are the same object. */
  ghost predicate Distinct<T>(s: seq<T>)
  {
    forall i, j :: 0 <= i < j < |s| ==> s[i] != s[j]
  }

  // ---------------------------------------------------------------------------
  // The match
  // ---------------------------------------------------------------------------

  /** The list of a colour, given the white and the black list. */
  function Side<T>(white: seq<T>, black: seq<T>, c: Color): seq<T>
  {
    if c == White then white else black
  }

  /** The colour whose turn it is. */
  function SideToMove(isWhiteTurn: bool): Color
  {
    if isWhiteTurn then White else Black
  }

  /** Every piece sits in the list of its own colour. */
  ghost predicate ColoursSorted(white: seq<Piece>, black: seq<Piece>)
    reads white, black
  {
    (forall i :: 0 <= i < |white| ==> white[i].color == White) &&
    (forall i :: 0 <= i < |black| ==> black[i].color == Black)
  }

  /** The list `move` hands a piece as its allies: its own colour's list
      without the piece itself. */
  function Allies(white: seq<Piece>, black: seq<Piece>, piece: Piece): seq<Piece>
    reads piece
  {
    Without(Side(white, black, piece.color), piece)
  }

  /** The list `move` hands a piece as its enemies: the whole other list. */
  function Enemies(white: seq<Piece>, black: seq<Piece>, piece: Piece): seq<Piece>
    reads piece
  {
    Side(white, black, Opponent(piece.color))
  }

  /** Whether the piece's own rule accepts the target, given what `move`
      passes it. */
  predicate Reaches(white: seq<Piece>, black: seq<Piece>, piece: Piece, target: Coord, rules: Rules)
    reads white, black, piece
  {
    WithoutMembers(Side(white, black, piece.color), piece);
    rules.canMove(piece.View(), target, BoardLength,
                  Views(Allies(white, black, piece)), Views(Enemies(white, black, piece)))
  }

  /** What `move` hands the piece: as allies, every entry of its own
      colour's list except the piece itself, in order, and nothing else; as
      enemies, the other colour's list. While every piece sits in its own
      colour's list, the allies share the piece's colour, the enemies do not,
      and the piece is never among its enemies. */
  lemma AlliesAndEnemies(white: seq<Piece>, black: seq<Piece>, piece: Piece)
    ensures var own, allies := Side(white, black, piece.color), Allies(white, black, piece);
      (forall i :: 0 <= i < |allies| ==> allies[i] in own && allies[i] != piece) &&
      (forall i :: 0 <= i < |own| && own[i] != piece ==> own[i] in allies)
    ensures Enemies(white, black, piece) == (if piece.color == White then black else white)
    ensures ColoursSorted(white, black) ==>
              (forall i :: 0 <= i < |Allies(white, black, piece)| ==> Allies(white, black, piece)[i].color == piece.color) &&
              (forall i :: 0 <= i < |Enemies(white, black, piece)| ==> Enemies(white, black, piece)[i].color != piece.color) &&
              piece !in Enemies(white, black, piece)
  {
    var own, allies := Side(white, black, piece.color), Allies(white, black, piece);
    WithoutMembers(own, piece);
    if ColoursSorted(white, black) {
      forall i | 0 <= i < |allies|
        ensures allies[i].color == piece.color
      {
        var j :| 0 <= j < |own| && own[j] == allies[i];
      }
    }
  }

  /** A snapshot after a piece of colour `mover` has gone to `target`: the
      moving piece now stands on the target, a piece of the other colour
      standing there is captured, and every other piece is as it was. */
  function AfterMove(v: PieceView, isMover: bool, mover: Color, target: Coord): (r: PieceView)
    ensures r.kind == v.kind && r.color == v.color
    ensures r.pos == (if isMover then target else v.pos)
    ensures r.alive == (v.alive && (isMover || v.color == mover || v.pos != target))
  {
    if isMover then v.(pos := target)
    else if v.color != mover && v.pos == target then v.(alive := false)
    else v
  }

  /** Which entries of a list are the given piece object. */
  function MoverFlags(s: seq<Piece>, piece: Piece): seq<bool>
  {
    seq(|s|, i requires 0 <= i < |s| => s[i] == piece)
  }

  /** A list's snapshots after the move, entry by entry. */
  function AfterMoveAll(vs: seq<PieceView>, flags: seq<bool>, mover: Color, target: Coord): seq<PieceView>
    requires |flags| == |vs|
  {
    seq(|vs|, i requires 0 <= i < |vs| => AfterMove(vs[i], flags[i], mover, target))
  }

  /** `piece.move(target, boardLength, allies, enemies)` as `Match.move` calls
      it: the allies are the piece's own list without the piece, the enemies
      the whole other list. */
  method MoveAmong(piece: Piece, target: Coord, white: seq<Piece>, black: seq<Piece>, rules: Rules)
    returns (moved: bool)
    requires ColoursSorted(white, black)
    modifies piece, white, black
    ensures ColoursSorted(white, black)
    ensures moved == old(Reaches(white, black, piece, target, rules))
    ensures !moved ==> unchanged(piece) && unchanged(white) && unchanged(black)
    ensures moved ==>
              piece.View() == old(piece.View()).(pos := target) &&
              Views(white) == AfterMoveAll(old(Views(white)), MoverFlags(white, piece), old(piece.color), target) &&
              Views(black) == AfterMoveAll(old(Views(black)), MoverFlags(black, piece), old(piece.color), target)
  {
    var allies := Allies(white, black, piece);
    var enemies := Enemies(white, black, piece);
    ghost var own := Side(white, black, piece.color);
    forall i | 0 <= i < |own|
      ensures own[i] !in enemies
    {
    }
    moved := piece.Move(target, BoardLength, allies, enemies, rules.canMove);
  }

  predicate IsKingView(p: PieceView)
  {
    p.kind == King
  }

  /** Index of the first King in a list (snapshot). */
  function KingIndex(s: seq<PieceView>): Option<nat>
  {
    IndexOfFirst(s, IsKingView)
  }

  predicate KingsPresent(white: seq<PieceView>, black: seq<PieceView>)
  {
    KingIndex(white).Some? && KingIndex(black).Some?
  }

  /** The side reported missing its King: White's list is searched first. */
  function MissingKing(white: seq<PieceView>): Color
  {
    if KingIndex(white).None? then White else Black
  }

  /** The list without its k-th entry. */
  function RemoveAt<T>(s: seq<T>, k: nat): (r: seq<T>)
    requires k < |s|
    ensures |r| == |s| - 1
    ensures forall i :: 0 <= i < k ==> r[i] == s[i]
    ensures forall i :: k <= i < |r| ==> r[i] == s[i + 1]
  {
    s[..k] + s[k + 1..]
  }

  /** What a side's first King reports about itself when asked with its
      allies (its own list without the King) and the whole other list as its
      enemies. */
  predicate KingReports(own: seq<PieceView>, other: seq<PieceView>,
                        verdict: (PieceView, int, seq<PieceView>, seq<PieceView>) -> bool)
    requires KingIndex(own).Some?
  {
    var k := KingIndex(own).value;
    verdict(own[k], BoardLength, RemoveAt(own, k), other)
  }

  /** `King.isCheckmate`, asked that way. */
  predicate Checkmated(own: seq<PieceView>, other: seq<PieceView>, rules: Rules)
    requires KingIndex(own).Some?
  {
    KingReports(own, other, rules.isCheckmate)
  }

  /** `King.isStaleMate`, asked that way. */
  predicate Stalemated(own: seq<PieceView>, other: seq<PieceView>, rules: Rules)
    requires KingIndex(own).Some?
  {
    KingReports(own, other, rules.isStaleMate)
  }

  /** `verifyDraw`'s condition: either King stalemated, or a dead position. */
  predicate Drawn(white: seq<PieceView>, black: seq<PieceView>, rules: Rules)
    requires KingsPresent(white, black)
  {
    Stalemated(white, black, rules) || Stalemated(black, white, rules) || DeadPosition(white, black)
  }

  /** The part of a match that adjudication decides. */
  datatype Standing = Standing(status: MatchStatus, winner: Option<Player>)

  /** A standing together with the error the step reported, if any. */
  datatype Verdict = Verdict(standing: Standing, err: Option<MatchError>)

  /** `verifyCheckmate` on given snapshots: without both Kings nothing is
      decided; otherwise a mated White King gives Black the match, and then a
      mated Black King gives White the match. */
  function CheckmateCheck(white: seq<PieceView>, black: seq<PieceView>, st: Standing,
                          whitePlayer: Option<Player>, blackPlayer: Option<Player>, rules: Rules): (r: Verdict)
    ensures r.err.Some? <==> !KingsPresent(white, black)
    ensures r.err.Some? ==> r == Verdict(st, Some(KingMissing(MissingKing(white))))
    ensures r.err.None? ==>
              r.standing.winner ==
                (if Checkmated(black, white, rules) then whitePlayer
                 else if Checkmated(white, black, rules) then blackPlayer
                 else st.winner) &&
              r.standing.status ==
                (if Checkmated(white, black, rules) || Checkmated(black, white, rules) then Finished
                 else st.status)
  {
    if !KingsPresent(white, black) then Verdict(st, Some(KingMissing(MissingKing(white))))
    else
      var afterWhite := if Checkmated(white, black, rules) then Standing(Finished, blackPlayer) else st;
      var afterBlack := if Checkmated(black, white, rules) then Standing(Finished, whitePlayer) else afterWhite;
      Verdict(afterBlack, None)
  }

  /** `verifyDraw` on given snapshots: a draw ties the match, whatever its
      status was, and leaves the winner alone. */
  function DrawCheck(white: seq<PieceView>, black: seq<PieceView>, st: Standing, rules: Rules): (r: Verdict)
    ensures r.err.Some? <==> !KingsPresent(white, black)
    ensures r.err.Some? ==> r.err == Some(KingMissing(MissingKing(white)))
    ensures r.standing.winner == st.winner
    ensures r.standing.status == if r.err.None? && Drawn(white, black, rules) then Tied else st.status
  {
    if !KingsPresent(white, black) then Verdict(st, Some(KingMissing(MissingKing(white))))
    else Verdict(if Drawn(white, black, rules) then st.(status := Tied) else st, None)
  }

  /** The adjudication that ends an accepted move: the checkmate check, then,
      unless it reported an error, the draw check. */
  function Adjudication(white: seq<PieceView>, black: seq<PieceView>, st: Standing,
                        whitePlayer: Option<Player>, blackPlayer: Option<Player>, rules: Rules): (r: Verdict)
    ensures r.err.Some? <==> !KingsPresent(white, black)
    ensures r.standing.winner == CheckmateCheck(white, black, st, whitePlayer, blackPlayer, rules).standing.winner
  {
    var mate := CheckmateCheck(white, black, st, whitePlayer, blackPlayer, rules);
    if mate.err.Some? then mate else DrawCheck(white, black, mate.standing, rules)
  }

  /** A missing King decides nothing: the standing is kept, and the side
      reported is White exactly when White's list holds no King. */
  lemma AdjudicationWithoutKings(white: seq<PieceView>, black: seq<PieceView>, st: Standing,
                                 whitePlayer: Option<Player>, blackPlayer: Option<Player>, rules: Rules)
    requires !KingsPresent(white, black)
    ensures Adjudication(white, black, st, whitePlayer, blackPlayer, rules) ==
            Verdict(st, Some(KingMissing(MissingKing(white))))
    ensures MissingKing(white) == White <==> forall i :: 0 <= i < |white| ==> white[i].kind != King
  {
  }

  /** With both Kings present there is no error. The match is tied exactly
      when the position is drawn, and otherwise finished exactly when a King
      is mated. The winner is White's player when Black's King is mated, else
      Black's player when White's King is mated, else unchanged; a draw does
      not clear it. */
  lemma AdjudicationOutcome(white: seq<PieceView>, black: seq<PieceView>, st: Standing,
                            whitePlayer: Option<Player>, blackPlayer: Option<Player>, rules: Rules)
    requires KingsPresent(white, black)
    ensures var v := Adjudication(white, black, st, whitePlayer, blackPlayer, rules);
      v.err == None &&
      v.standing.winner ==
        (if Checkmated(black, white, rules) then whitePlayer
         else if Checkmated(white, black, rules) then blackPlayer
         else st.winner) &&
      v.standing.status ==
        (if Drawn(white, black, rules) then Tied
         else if Checkmated(white, black, rules) || Checkmated(black, white, rules) then Finished
         else st.status)
  {
  }

  /** A draw found after a checkmate overrides it: the match ends tied while
      the winner the checkmate recorded stays in place. */
  lemma DrawOverridesCheckmate(white: seq<PieceView>, black: seq<PieceView>, st: Standing,
                               whitePlayer: Option<Player>, blackPlayer: Option<Player>, rules: Rules)
    requires KingsPresent(white, black) && Checkmated(white, black, rules) && Drawn(white, black, rules)
    ensures Adjudication(white, black, st, whitePlayer, blackPlayer, rules).standing ==
            Standing(Tied, if Checkmated(black, white, rules) then whitePlayer else blackPlayer)
  {
    AdjudicationOutcome(white, black, st, whitePlayer, blackPlayer, rules);
  }

  /** When both Kings report checkmate and nothing is drawn, White's player
      wins: the Black King's verdict is applied second. */
  lemma BothMatedWhiteWins(white: seq<PieceView>, black: seq<PieceView>, st: Standing,
                           whitePlayer: Option<Player>, blackPlayer: Option<Player>, rules: Rules)
    requires KingsPresent(white, black) && Checkmated(white, black, rules) && Checkmated(black, white, rules)
    requires !Drawn(white, black, rules)
    ensures Adjudication(white, black, st, whitePlayer, blackPlayer, rules) ==
            Verdict(Standing(Finished, whitePlayer), None)
  {
    AdjudicationOutcome(white, black, st, whitePlayer, blackPlayer, rules);
  }

  /** Adjudicating the same position again decides nothing new. */
  lemma AdjudicationIdempotent(white: seq<PieceView>, black: seq<PieceView>, st: Standing,
                               whitePlayer: Option<Player>, blackPlayer: Option<Player>, rules: Rules)
    ensures var v := Adjudication(white, black, st, whitePlayer, blackPlayer, rules);
            Adjudication(white, black, v.standing, whitePlayer, blackPlayer, rules) == v
  {
    if KingsPresent(white, black) {
      var v := Adjudication(white, black, st, whitePlayer, blackPlayer, rules);
      AdjudicationOutcome(white, black, st, whitePlayer, blackPlayer, rules);
      AdjudicationOutcome(white, black, v.standing, whitePlayer, blackPlayer, rules);
    }
  }

  /** Filtering a list without duplicates by reference drops exactly the one
      entry holding that piece. */
  lemma {:induction false} WithoutDistinct<T>(s: seq<T>, k: nat)
    requires Distinct(s) && k < |s|
    ensures Without(s, s[k]) == RemoveAt(s, k)
  {
    if k == 0 {
      assert s[0] !in s[1..];
      assert RemoveAt(s, 0) == s[1..];
    } else {
      assert s[0] != s[k];
      WithoutDistinct(s[1..], k - 1);
      assert RemoveAt(s, k) == [s[0]] + RemoveAt(s[1..], k - 1);
    }
  }

  /** So a King's allies, as `verifyCheckmate` and `verifyDraw` filter them,
      are the snapshot of its list without the King's entry. */
  lemma KingAllies(s: seq<Piece>, k: nat)
    requires Distinct(s) && k < |s|
    ensures Views(Without(s, s[k])) == RemoveAt(Views(s), k)
  {
    WithoutDistinct(s, k);
    var r := RemoveAt(s, k);
    forall i | 0 <= i < |r|
      ensures Views(r)[i] == RemoveAt(Views(s), k)[i]
    {
    }
  }

  /** The first King among the pieces is the first King among their snapshots. */
  lemma KingIndexOfViews(s: seq<Piece>)
    ensures KingIndex(Views(s)) == IndexOfFirst(s, IsKing)
  {
    var a, b := KingIndex(Views(s)), IndexOfFirst(s, IsKing);
    if a.Some? && b.Some? {
      assert !(a.value < b.value) && !(b.value < a.value);
    }
  }

  /** `list.add(PieceFactory.create(symbol, color, pos))`: a fresh piece
      appended to the list, which keeps it free of duplicates. */
  method AddCreated(s: seq<Piece>, symbol: char, color: Color, pos: Coord) returns (t: seq<Piece>)
    requires KindOfSymbol(symbol).Some?
    ensures |t| == |s| + 1 && fresh(t[|s|]) && t == s + [t[|s|]]
    ensures Views(t) == old(Views(s)) + [PieceView(KindOfSymbol(symbol).value, color, pos, true)]
    ensures Distinct(s) ==> Distinct(t)
  {
    var p := Create(symbol, color, pos);
    t := s + [p];
  }

  /** The pawn of column `col` appended to a side's list that already holds
      its back rank and the pawns of the columns before. */
  method AddPawn(s: seq<Piece>, c: Color, col: nat) returns (t: seq<Piece>)
    requires 0 < col && Views(s) == BackRank(c) + Pawns(c, col - 1) && Distinct(s)
    ensures Views(t) == BackRank(c) + Pawns(c, col) && Distinct(t)
    ensures |t| == |s| + 1 && fresh(t[|s|]) && t == s + [t[|s|]]
  {
    t := AddCreated(s, 'P', c, Coord(col, PawnRow(c)));
    PawnsStep(c, col);
  }

  /** `createPieces`' loop: for each column from 1 to 8, a White pawn on row
      2 and then a Black pawn on row 7. */
  method AddPawns(white0: seq<Piece>, black0: seq<Piece>) returns (white: seq<Piece>, black: seq<Piece>)
    requires Views(white0) == BackRank(White) && Views(black0) == BackRank(Black)
    requires Distinct(white0) && Distinct(black0)
    ensures Views(white) == InitialRoster(White) && Views(black) == InitialRoster(Black)
    ensures Distinct(white) && Distinct(black)
    ensures forall p :: p in white ==> p in white0 || fresh(p)
    ensures forall p :: p in black ==> p in black0 || fresh(p)
  {
    white, black := white0, black0;
    for col := 1 to 9
      invariant Views(white) == BackRank(White) + Pawns(White, col - 1)
      invariant Views(black) == BackRank(Black) + Pawns(Black, col - 1)
      invariant forall p :: p in white ==> p in white0 || fresh(p)
      invariant forall p :: p in black ==> p in black0 || fresh(p)
      invariant Distinct(white) && Distinct(black)
    {
      white := AddPawn(white, White, col);
      ghost var whiteViews := Views(white);
      black := AddPawn(black, Black, col);
      assert Views(white) == whiteViews;
    }
  }

  /** One side's back rank, made by the piece factory column by column in
      the order rook, knight, bishop, queen, king, bishop, knight, rook. */
  method BackRankPieces(c: Color) returns (s: seq<Piece>)
    ensures Views(s) == BackRank(c)
    ensures forall p :: p in s ==> fresh(p)
    ensures Distinct(s)
  {
    s := [];
    for col := 1 to 9
      invariant Views(s) == BackRank(c)[..col - 1]
      invariant forall p :: p in s ==> fresh(p)
      invariant Distinct(s)
    {
      SymbolRoundTrip(BackRankKinds[col - 1]);
      s := AddCreated(s, Symbol(BackRankKinds[col - 1]), c, Coord(col, HomeRow(c)));
      assert BackRank(c)[..col] == BackRank(c)[..col - 1] + [BackRank(c)[col - 1]];
    }
  }

  /** Both sides' lists in the order `createPieces` fills them: White's
      back rank, Black's back rank, then the pawns column by column. */
  method InitialPieces() returns (white: seq<Piece>, black: seq<Piece>)
    ensures Views(white) == InitialRoster(White) && Views(black) == InitialRoster(Black)
    ensures forall p :: p in white ==> fresh(p)
    ensures forall p :: p in black ==> fresh(p)
    ensures ColoursSorted(white, black) && Distinct(white) && Distinct(black)
  {
    white := BackRankPieces(White);
    ghost var whiteViews := Views(white);
    black := BackRankPieces(Black);
    assert Views(white) == whiteViews;
    white, black := AddPawns(white, black);
    InitialColours(white, black);
  }

  /** Lists whose snapshots are the initial ones hold only pieces of their
      own colour. */
  lemma InitialColours(white: seq<Piece>, black: seq<Piece>)
    requires Views(white) == InitialRoster(White) && Views(black) == InitialRoster(Black)
    ensures ColoursSorted(white, black)
  {
    assert forall i :: 0 <= i < |white| ==> Views(white)[i].color == White;
    assert forall i :: 0 <= i < |black| ==> Views(black)[i].color == Black;
  }

  class Match {
    var status: MatchStatus
    var isWhiteTurn: bool
    var whitePlayer: Option<Player>
    var blackPlayer: Option<Player>
    var winner: Option<Player>
    var whitePieces: seq<Piece>
    var blackPieces: seq<Piece>

    /** Every piece is a distinct object sitting in the list of its colour. */
    ghost predicate Valid()
      reads this, whitePieces, blackPieces
    {
      ColoursSorted(whitePieces, blackPieces) && Distinct(whitePieces) && Distinct(blackPieces)
    }

    /** `Match(whitePlayerName, blackPlayerName)`: both players set, White to
        move, the game already in progress. */
    constructor Named(whitePlayerName: string, blackPlayerName: string)
      ensures whitePlayer == Some(Player(whitePlayerName)) && blackPlayer == Some(Player(blackPlayerName))
      ensures isWhiteTurn && status == InProgress && winner == None
      ensures Views(whitePieces) == InitialRoster(White) && Views(blackPieces) == InitialRoster(Black)
      ensures forall p :: p in whitePieces + blackPieces ==> fresh(p)
      ensures Valid()
    {
      whitePlayer := Some(Player(whitePlayerName));
      blackPlayer := Some(Player(blackPlayerName));
      isWhiteTurn := true;
      status := InProgress;
      winner := None;
      whitePieces, blackPieces := [], [];
      new;
      CreatePieces();
    }

    /** `Match(hostPlayer)`: the host takes the colour the coin flip
        `hostIsWhite` gives it and the other slot stays empty; White to move,
        the match waiting for its second player. */
    constructor Hosted(host: Player, hostIsWhite: bool)
      ensures whitePlayer == (if hostIsWhite then Some(host) else None)
      ensures blackPlayer == (if hostIsWhite then None else Some(host))
      ensures isWhiteTurn && status == New && winner == None
      ensures Views(whitePieces) == InitialRoster(White) && Views(blackPieces) == InitialRoster(Black)
      ensures forall p :: p in whitePieces + blackPieces ==> fresh(p)
      ensures Valid()
    {
      if hostIsWhite {
        whitePlayer := Some(host);
        blackPlayer := None;
      } else {
        whitePlayer := None;
        blackPlayer := Some(host);
      }
      isWhiteTurn := true;
      status := New;
      winner := None;
      whitePieces, blackPieces := [], [];
      new;
      CreatePieces();
    }

    /** `setWhitePlayer`: fills (or clears) the white slot; when both slots end
        up filled the match is in progress, whatever its status was. */
    method SetWhitePlayer(player: Option<Player>)
      modifies this`whitePlayer, this`status
      ensures whitePlayer == player
      ensures status == if player.Some? && blackPlayer.Some? then InProgress else old(status)
    {
      whitePlayer := player;
      if blackPlayer.Some? && player.Some? {
        status := InProgress;
      }
    }

    /** `setBlackPlayer`, the mirror image of `SetWhitePlayer`. */
    method SetBlackPlayer(player: Option<Player>)
      modifies this`blackPlayer, this`status
      ensures blackPlayer == player
      ensures status == if player.Some? && whitePlayer.Some? then InProgress else old(status)
    {
      blackPlayer := player;
      if whitePlayer.Some? && player.Some? {
        status := InProgress;
      }
    }

    /** `createPieces`: both lists built afresh, White's back rank, Black's
        back rank, then one pawn of each colour per column. */
    method CreatePieces()
      modifies this`whitePieces, this`blackPieces
      ensures Views(whitePieces) == InitialRoster(White) && Views(blackPieces) == InitialRoster(Black)
      ensures forall p :: p in whitePieces + blackPieces ==> fresh(p)
      ensures Valid()
    {
      var white, black := InitialPieces();
      whitePieces, blackPieces := white, black;
    }

    /** `move(pieceToMove, target)`. Status and turn are checked before
        anything is touched; the piece's own rule then decides the target, the
        turn flips, and the match is adjudicated for checkmate and then for a
        draw. A missing King is only noticed after the move and the flip. */
    method Move(piece: Piece, target: Coord, rules: Rules) returns (err: Option<MatchError>)
      requires Valid()
      modifies this`status, this`isWhiteTurn, this`winner, piece, whitePieces, blackPieces
      ensures Valid()
      // rejected: nothing changes
      ensures old(status) == Finished || old(status) == Tied ==> err == Some(MatchOver)
      ensures old(status) == New ==> err == Some(AwaitingOpponent)
      ensures old(status) == InProgress && old(piece.color) != SideToMove(old(isWhiteTurn))
              ==> err == Some(IllegalMovement)
      ensures old(status) == InProgress && old(piece.color) == SideToMove(old(isWhiteTurn)) &&
              !old(Reaches(whitePieces, blackPieces, piece, target, rules))
              ==> err == Some(IllegalMovement)
      ensures old(status) != InProgress || old(piece.color) != SideToMove(old(isWhiteTurn)) ||
              !old(Reaches(whitePieces, blackPieces, piece, target, rules))
              ==> unchanged(this, piece) && unchanged(whitePieces) && unchanged(blackPieces)
      // accepted: the piece moves, captures, the turn flips once, the match is adjudicated
      ensures old(status) == InProgress && old(piece.color) == SideToMove(old(isWhiteTurn)) &&
              old(Reaches(whitePieces, blackPieces, piece, target, rules)) ==>
                isWhiteTurn == !old(isWhiteTurn) &&
                piece.View() == old(piece.View()).(pos := target) &&
                Views(whitePieces) == AfterMoveAll(old(Views(whitePieces)), MoverFlags(whitePieces, piece), old(piece.color), target) &&
                Views(blackPieces) == AfterMoveAll(old(Views(blackPieces)), MoverFlags(blackPieces, piece), old(piece.color), target) &&
                Verdict(Standing(status, winner), err) ==
                  Adjudication(Views(whitePieces), Views(blackPieces), Standing(old(status), old(winner)),
                               whitePlayer, blackPlayer, rules)
    {
      if status == Finished || status == Tied {
        return Some(MatchOver);
      }
      if status == New {
        return Some(AwaitingOpponent);
      }
      if isWhiteTurn && piece.color == Black {
        return Some(IllegalMovement);
      }
      if !isWhiteTurn && piece.color == White {
        return Some(IllegalMovement);
      }
      err := Play(piece, target, rules);
    }

    /** `move` past its status and turn checks: the piece's own rule decides
        the target, then the turn flips and the match is adjudicated. */
    method Play(piece: Piece, target: Coord, rules: Rules) returns (err: Option<MatchError>)
      requires Valid()
      modifies this`status, this`isWhiteTurn, this`winner, piece, whitePieces, blackPieces
      ensures Valid()
      ensures !old(Reaches(whitePieces, blackPieces, piece, target, rules)) ==>
                err == Some(IllegalMovement) &&
                unchanged(this, piece) && unchanged(whitePieces) && unchanged(blackPieces)
      ensures old(Reaches(whitePieces, blackPieces, piece, target, rules)) ==>
                isWhiteTurn == !old(isWhiteTurn) &&
                piece.View() == old(piece.View()).(pos := target) &&
                Views(whitePieces) == AfterMoveAll(old(Views(whitePieces)), MoverFlags(whitePieces, piece), old(piece.color), target) &&
                Views(blackPieces) == AfterMoveAll(old(Views(blackPieces)), MoverFlags(blackPieces, piece), old(piece.color), target) &&
                Verdict(Standing(status, winner), err) ==
                  Adjudication(Views(whitePieces), Views(blackPieces), Standing(old(status), old(winner)),
                               whitePlayer, blackPlayer, rules)
    {
      var moved := MovePiece(piece, target, rules);
      if !moved {
        return Some(IllegalMovement);
      }
      err := EndTurn(rules);
    }

    /** The end of an accepted `move`: the turn flips, then the match is
        adjudicated for checkmate and, when both Kings were found, for a
        draw. */
    method EndTurn(rules: Rules) returns (err: Option<MatchError>)
      requires Valid()
      modifies this`status, this`isWhiteTurn, this`winner
      ensures Valid()
      ensures isWhiteTurn == !old(isWhiteTurn)
      ensures Views(whitePieces) == old(Views(whitePieces)) && Views(blackPieces) == old(Views(blackPieces))
      ensures Verdict(Standing(status, winner), err) ==
              Adjudication(old(Views(whitePieces)), old(Views(blackPieces)), Standing(old(status), old(winner)),
                           whitePlayer, blackPlayer, rules)
    {
      isWhiteTurn := !isWhiteTurn;
      err := VerifyCheckmate(rules);
      if err.Some? {
        return;
      }
      err := VerifyDraw(rules);
    }

    /** The piece step of `move`: the piece is handed its own colour's list
        without itself as allies and the whole other list as enemies. */
    method MovePiece(piece: Piece, target: Coord, rules: Rules) returns (moved: bool)
      requires Valid()
      modifies piece, whitePieces, blackPieces
      ensures Valid()
      ensures moved == old(Reaches(whitePieces, blackPieces, piece, target, rules))
      ensures !moved ==> unchanged(piece) && unchanged(whitePieces) && unchanged(blackPieces)
      ensures moved ==>
                piece.View() == old(piece.View()).(pos := target) &&
                Views(whitePieces) == AfterMoveAll(old(Views(whitePieces)), MoverFlags(whitePieces, piece), old(piece.color), target) &&
                Views(blackPieces) == AfterMoveAll(old(Views(blackPieces)), MoverFlags(blackPieces, piece), old(piece.color), target)
    {
      moved := MoveAmong(piece, target, whitePieces, blackPieces, rules);
    }

    /** The King lookups and verdicts shared by `verifyCheckmate` and
        `verifyDraw`: each King is asked about its side with the side's list,
        filtered by reference, as its allies and the whole other list as its
        enemies. */
    method KingVerdicts(verdict: (PieceView, int, seq<PieceView>, seq<PieceView>) -> bool)
      returns (kings: Option<(bool, bool)>)
      requires Valid()
      ensures var white, black := old(Views(whitePieces)), old(Views(blackPieces));
              kings.Some? <==> KingsPresent(white, black)
      ensures var white, black := old(Views(whitePieces)), old(Views(blackPieces));
              kings.Some? ==>
                kings.value == (KingReports(white, black, verdict), KingReports(black, white, verdict))
    {
      KingIndexOfViews(whitePieces);
      KingIndexOfViews(blackPieces);
      var whiteKingAt := IndexOfFirst(whitePieces, IsKing);
      var blackKingAt := IndexOfFirst(blackPieces, IsKing);
      if whiteKingAt.None? || blackKingAt.None? {
        return None;
      }
      var whiteKing, blackKing := whitePieces[whiteKingAt.value], blackPieces[blackKingAt.value];
      KingAllies(whitePieces, whiteKingAt.value);
      KingAllies(blackPieces, blackKingAt.value);
      var white, black := Views(whitePieces), Views(blackPieces);
      kings := Some((verdict(whiteKing.View(), BoardLength, Views(Without(whitePieces, whiteKing)), black),
                     verdict(blackKing.View(), BoardLength, Views(Without(blackPieces, blackKing)), white)));
    }

    /** `verifyCheckmate`: both Kings are looked up first (White's, then
        Black's); a mated White King makes Black the winner, then a mated Black
        King makes White the winner, so the second verdict wins when both hold. */
    method VerifyCheckmate(rules: Rules) returns (err: Option<MatchError>)
      requires Valid()
      modifies this`status, this`winner
      ensures Valid()
      ensures Views(whitePieces) == old(Views(whitePieces)) && Views(blackPieces) == old(Views(blackPieces))
      ensures Verdict(Standing(status, winner), err) ==
              CheckmateCheck(old(Views(whitePieces)), old(Views(blackPieces)), Standing(old(status), old(winner)),
                             whitePlayer, blackPlayer, rules)
    {
      var white, black := Views(whitePieces), Views(blackPieces);
      var mates := KingVerdicts(rules.isCheckmate);
      if mates.None? {
        return Some(KingMissing(MissingKing(white)));
      }
      var (whiteMated, blackMated) := mates.value;
      DeclareMates(whiteMated, blackMated);
      err := None;
    }

    /** The outcome part of `verifyCheckmate`: a mated White King makes Black
        the winner, then a mated Black King makes White the winner; either
        finishes the match. */
    method DeclareMates(whiteMated: bool, blackMated: bool)
      requires Valid()
      modifies this`status, this`winner
      ensures Valid()
      ensures Views(whitePieces) == old(Views(whitePieces)) && Views(blackPieces) == old(Views(blackPieces))
      ensures winner == if blackMated then whitePlayer else if whiteMated then blackPlayer else old(winner)
      ensures status == if whiteMated || blackMated then Finished else old(status)
    {
      if whiteMated {
        winner := blackPlayer;
        status := Finished;
      }
      if blackMated {
        winner := whitePlayer;
        status := Finished;
      }
    }

    /** `verifyDraw`: after the same King lookups, a stalemated King on either
        side or a dead position ties the match. The winner is left as it is,
        and a status of Finished is overwritten too. */
    method VerifyDraw(rules: Rules) returns (err: Option<MatchError>)
      requires Valid()
      modifies this`status
      ensures Valid()
      ensures Views(whitePieces) == old(Views(whitePieces)) && Views(blackPieces) == old(Views(blackPieces))
      ensures winner == old(winner)
      ensures Verdict(Standing(status, winner), err) ==
              DrawCheck(old(Views(whitePieces)), old(Views(blackPieces)), Standing(old(status), old(winner)), rules)
    {
      var white, black := Views(whitePieces), Views(blackPieces);
      var stalemates := KingVerdicts(rules.isStaleMate);
      if stalemates.None? {
        return Some(KingMissing(MissingKing(white)));
      }
      var (whiteStalemated, blackStalemated) := stalemates.value;
      assert whiteStalemated || blackStalemated || DeadPosition(white, black) <==> Drawn(white, black, rules);
      DeclareDraw(whiteStalemated || blackStalemated || DeadPosition(white, black));
      err := None;
    }

    /** The outcome part of `verifyDraw`: a draw ties the match, whatever its
        status was. */
    method DeclareDraw(drawn: bool)
      requires Valid()
      modifies this`status
      ensures Valid()
      ensures Views(whitePieces) == old(Views(whitePieces)) && Views(blackPieces) == old(Views(blackPieces))
      ensures status == if drawn then Tied else old(status)
    {
      if drawn {
        status := Tied;
      }
    }

    /** `promoteAPawn(promotedPawn, newPiece)`: allowed exactly when the pawn
        reports itself promoted and the new piece is a Queen, Rook, Bishop or
        Knight. The pawn then dies and the new piece takes its colour and
        square; neither list, nor the turn, nor the status changes, so the new
        piece joins no list. */
    method PromoteAPawn(pawn: Piece, newPiece: Piece, rules: Rules) returns (err: Option<MatchError>)
      requires pawn.kind == Pawn
      modifies pawn, newPiece
      ensures err.None? <==> rules.isPromoted(old(pawn.View()), BoardLength) &&
                             newPiece.kind in {Queen, Rook, Bishop, Knight}
      ensures err.Some? ==> err == Some(IllegalMovement) && unchanged(pawn, newPiece)
      ensures err.None? ==>
                !pawn.alive && pawn.color == old(pawn.color) && pawn.pos == old(pawn.pos) &&
                newPiece.color == old(pawn.color) && newPiece.pos == old(pawn.pos) &&
                newPiece.alive == old(newPiece.alive)
      ensures unchanged(this)
      ensures old(Valid()) && (err.Some? || newPiece !in old(Side(whitePieces, blackPieces, Opponent(pawn.color))))
              ==> Valid()
    {
      if rules.isPromoted(pawn.View(), BoardLength) &&
         (newPiece.kind == Queen || newPiece.kind == Rook || newPiece.kind == Bishop || newPiece.kind == Knight) {
        pawn.alive := false;
        newPiece.color := pawn.color;
        newPiece.pos := pawn.pos;
        err := None;
      } else {
        err := Some(IllegalMovement);
      }
    }
  }
}
