/** Optional values: the model's stand-in for a Java reference that may be null
    and for the empty result of `findFirst`. */
module Wrappers {
  datatype Option<+T> = None | Some(value: T)
}

/** The piece side of the chess engine as the match orchestrator sees it: a piece
    has a kind (its Java class), a colour, a square and an alive flag. How each
    kind moves, and when a king is mated or stalemated, lives in piece classes
    that are not part of this model; they enter as the oracles of `Rules`. */
module Pieces {
  import opened Wrappers

  /** `PieceColor`. */
  datatype Color = White | Black

  function Opponent(c: Color): (r: Color)
    ensures r != c
  {
    if c == White then Black else White
  }

  /** The six piece classes. */
  datatype Kind = Rook | Knight | Bishop | Queen | King | Pawn

  /** The one-character symbol that names a kind to the piece factory and in a
      stored piece row. */
  function Symbol(k: Kind): char
  {
    match k
    case Rook => 'R'
    case Knight => 'N'
    case Bishop => 'B'
    case Queen => 'Q'
    case King => 'K'
    case Pawn => 'P'
  }

  /** The kind the factory builds for a symbol; `None` for any other character. */
  function KindOfSymbol(ch: char): (r: Option<Kind>)
    ensures r.Some? <==> ch in "RNBQKP"
    ensures r.Some? ==> Symbol(r.value) == ch
  {
    match ch
    case 'R' => Some(Rook)
    case 'N' => Some(Knight)
    case 'B' => Some(Bishop)
    case 'Q' => Some(Queen)
    case 'K' => Some(King)
    case 'P' => Some(Pawn)
    case _ => None
  }

  lemma SymbolRoundTrip(k: Kind)
    ensures KindOfSymbol(Symbol(k)) == Some(k)
  {
  }

  /** `Pair`: a (column, row) square. */
  datatype Coord = Coord(x: int, y: int)

  /** A snapshot of a piece's state, which is what the rule oracles look at. */
  datatype PieceView = PieceView(kind: Kind, color: Color, pos: Coord, alive: bool)

  /** A piece object; Match and the piece rules update its fields in place. */
  class Piece {
    const kind: Kind
    var color: Color
    var pos: Coord
    var alive: bool

    constructor (kind: Kind, color: Color, pos: Coord)
      ensures this.kind == kind && this.color == color && this.pos == pos && alive
    {
      this.kind := kind;
      this.color := color;
      this.pos := pos;
      alive := true;
    }

    function View(): PieceView
      reads this
    {
      PieceView(kind, color, pos, alive)
    }

    /** `Piece.move(target, boardLength, allies, enemies)`: the piece's own rule
        decides whether the target is reachable; when it is, the piece stands on
        the target and every live enemy on that square is captured (marked
        dead). A rejected move changes nothing. */
    method Move(target: Coord, boardLength: int, allies: seq<Piece>, enemies: seq<Piece>,
                canMove: (PieceView, Coord, int, seq<PieceView>, seq<PieceView>) -> bool)
      returns (moved: bool)
      requires this !in enemies
      modifies this, enemies
      ensures moved == canMove(old(View()), target, boardLength, old(Views(allies)), old(Views(enemies)))
      ensures color == old(color) && alive == old(alive)
      ensures pos == if moved then target else old(pos)
      ensures !moved ==> unchanged(this) && unchanged(enemies)
      ensures forall e :: e in enemies ==>
                e.color == old(e.color) && e.pos == old(e.pos) &&
                e.alive == (old(e.alive) && !(moved && old(e.pos) == target))
    {
      moved := canMove(View(), target, boardLength, Views(allies), Views(enemies));
      if moved {
        forall e | e in enemies && e.pos == target {
          e.alive := false;
        }
        pos := target;
      }
    }
  }

  /** The piece factory: a fresh, live piece of the kind the symbol names. */
  method Create(symbol: char, color: Color, pos: Coord) returns (p: Piece)
    requires KindOfSymbol(symbol).Some?
    ensures fresh(p)
    ensures p.View() == PieceView(KindOfSymbol(symbol).value, color, pos, true)
  {
    p := new Piece(KindOfSymbol(symbol).value, color, pos);
  }

  /** The piece behaviour Match consults, as total functions of piece
      snapshots and the board length:
      - canMove(piece, target, boardLength, allies, enemies): whether `Piece.move`
        accepts the target (otherwise it throws an illegal-movement error);
      - isCheckmate / isStaleMate(king, boardLength, allies, enemies): `King`'s
        verdicts on its own side;
      - isPromoted(pawn, boardLength): `Pawn.isPromoted`. */
  datatype Rules = Rules(
    canMove: (PieceView, Coord, int, seq<PieceView>, seq<PieceView>) -> bool,
    isCheckmate: (PieceView, int, seq<PieceView>, seq<PieceView>) -> bool,
    isStaleMate: (PieceView, int, seq<PieceView>, seq<PieceView>) -> bool,
    isPromoted: (PieceView, int) -> bool)

  /** Snapshots of a list of pieces, in list order. */
  function Views(s: seq<Piece>): (r: seq<PieceView>)
    reads s
    ensures |r| == |s|
    ensures forall i :: 0 <= i < |s| ==> r[i] == s[i].View()
  {
    seq(|s|, i requires 0 <= i < |s| reads s => s[i].View())
  }

  /** `stream().filter(p -> !p.equals(x)).toList()`: the list without `x`,
      order kept. */
  function Without<T(==)>(s: seq<T>, x: T): (r: seq<T>)
    ensures |r| <= |s|
    ensures x !in s ==> r == s
  {
    if s == [] then []
    else
      assert s == [s[0]] + s[1..];
      if s[0] == x then Without(s[1..], x)
      else [s[0]] + Without(s[1..], x)
  }

  /** What `Without` keeps: exactly the entries other than `x`. */
  lemma {:induction false} WithoutMembers<T>(s: seq<T>, x: T)
    ensures forall i :: 0 <= i < |Without(s, x)| ==> Without(s, x)[i] in s && Without(s, x)[i] != x
    ensures forall i :: 0 <= i < |s| && s[i] != x ==> s[i] in Without(s, x)
  {
    if s != [] {
      WithoutMembers(s[1..], x);
      assert s == [s[0]] + s[1..];
      forall i | 1 <= i < |s|
        ensures s[i] == s[1..][i - 1]
      {
      }
    }
  }

  /** `stream().filter(matches).findFirst()`, as the index of the first match. */
  function IndexOfFirst<T>(s: seq<T>, matches: T -> bool): (r: Option<nat>)
    ensures r.Some? ==> r.value < |s| && matches(s[r.value]) &&
                        forall j :: 0 <= j < r.value ==> !matches(s[j])
    ensures r.None? <==> forall j :: 0 <= j < |s| ==> !matches(s[j])
  {
    if s == [] then None
    else if matches(s[0]) then Some(0)
    else match IndexOfFirst(s[1..], matches)
      case None => None
      case Some(i) => Some(i + 1)
  }

  /** `p instanceof King`. */
  predicate IsKing(p: Piece)
  {
    p.kind == King
  }
}
