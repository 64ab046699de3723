/** The parts of a position the evaluator reads: the piece bitboards, the king
    squares, the incrementally kept material score and game phase, the side to
    move, and the two hash keys it probes its tables with. */
module Positions {
  import opened Bitboard
  import opened Scores

  datatype Kind = King | Queen | Rook | Bishop | Knight | Pawn {
    /** The offset of the kind within one colour's block of bitboardIndex
        (whiteKing = 1 ... whitePawns = 6). */
    function Offset(): (i: nat)
      ensures 1 <= i <= 6
    {
      match this
      case King => 1
      case Queen => 2
      case Rook => 3
      case Bishop => 4
      case Knight => 5
      case Pawn => 6
    }
  }

  /** separationBitmap: black pieces are numbered from here on. */
  const Separation: nat := 8

  /** The number of bitboard indices, the length of attackedSquares. */
  const LastBitboard: nat := 16

  /** bitboardIndex of a piece: whiteKing .. whitePawns are 1 .. 6,
      blackKing .. blackPawns are 9 .. 14. */
  function BoardIndex(c: Color, k: Kind): (i: nat)
    ensures 0 < i < LastBitboard
    ensures c.White? <==> i < Separation
  {
    var o := k.Offset();
    if c == White then o else Separation + o
  }

  /** Different pieces have different indices. */
  lemma BoardIndexInjective(c: Color, k: Kind, d: Color, j: Kind)
    requires BoardIndex(c, k) == BoardIndex(d, j)
    ensures c == d && k == j
  {
    assert c == d;
    assert k.Offset() == j.Offset();
  }

  /** The pieces of one colour. */
  datatype Army = Army(king: Square, queens: bv64, rooks: bv64, bishops: bv64, knights: bv64, pawns: bv64) {
    function Board(k: Kind): bv64 {
      match k
      case King => Bit(king)
      case Queen => queens
      case Rook => rooks
      case Bishop => bishops
      case Knight => knights
      case Pawn => pawns
    }

    function Occupied(): bv64 {
      Bit(king) | queens | rooks | bishops | knights | pawns
    }
  }

  datatype Position = Position(
    white: Army,
    black: Army,
    /** st.nextMove: the side to move. */
    nextMove: Color,
    /** st.material: material plus piece-square values, kept by the move code. */
    material: SimdScore,
    /** getGamePhase(): 0 in the opening up to 65536 in a bare endgame. */
    gamePhase: int)
  {
    function Side(c: Color): Army {
      if c == White then white else black
    }

    function Board(c: Color, k: Kind): bv64 {
      Side(c).Board(k)
    }

    /** bitBoard[occupiedSquares] */
    function Occupied(): bv64 {
      white.Occupied() | black.Occupied()
    }

    /** pieceList[piece]: the squares of the pieces of that kind. */
    function PieceList(c: Color, k: Kind): seq<Square> {
      Squares(Board(c, k))
    }

    /** pieceCount[piece]: the length of the piece list. */
    function PieceCount(c: Color, k: Kind): nat {
      |PieceList(c, k)|
    }
  }

  /** Pawns stand on the second to seventh ranks only. */
  predicate PawnsOnPawnRanks(p: Position) {
    SubsetOf(p.white.pawns, !(Rank1 | Rank8)) && SubsetOf(p.black.pawns, !(Rank1 | Rank8))
  }

  /** A pawn of the board stands on a pawn square. */
  lemma PawnOnPawnSquare(pawns: bv64, s: Square)
    requires SubsetOf(pawns, !(Rank1 | Rank8)) && IsSet(pawns, s)
    ensures PawnSquare(s)
  {
  }

  /** The number of pieces of each kind of one colour. */
  datatype Counts = Counts(queens: nat, rooks: nat, bishops: nat, knights: nat, pawns: nat)

  /** materialKey: the position's material signature. The engine hashes it into
      a 64-bit key; here the key is the signature itself. */
  datatype MaterialKey = MaterialKey(white: Counts, black: Counts) {
    /** The same material with the colours exchanged. */
    function Swap(): (k: MaterialKey)
      ensures k.white == black && k.black == white
    {
      MaterialKey(black, white)
    }
  }

  function CountsOf(p: Position, c: Color): Counts {
    Counts(p.PieceCount(c, Queen), p.PieceCount(c, Rook), p.PieceCount(c, Bishop),
           p.PieceCount(c, Knight), p.PieceCount(c, Pawn))
  }

  function MaterialKeyOf(p: Position): MaterialKey {
    MaterialKey(CountsOf(p, White), CountsOf(p, Black))
  }

  /** pawnKey: the pawn structure the pawn table is indexed by. The engine
      hashes it; here the key is the pair of pawn bitboards. */
  datatype PawnKey = PawnKey(white: bv64, black: bv64)

  function PawnKeyOf(p: Position): PawnKey {
    PawnKey(p.white.pawns, p.black.pawns)
  }

  /** Movegen::attackFrom and Movegen::attackFromKing, whose code is not part of
      this model: the squares a piece of a kind and colour on a square attacks
      given the occupancy, and the squares next to a square. */
  datatype Movegen = Movegen(attackFrom: (Color, Kind, Square, bv64) -> bv64, kingAttacks: Square -> bv64)
}
