/** Bitboards: one bit per square, square = rank * 8 + file (A1 = 0, H8 = 63).
    The lookup tables the evaluator indexes by square (FILES, RANKS, BITSET,
    FILEMASK, RANKMASK, ISOLATED_PAWN, SQUARES_IN_FRONT_OF, PASSED_PAWN,
    SQUARE_COLOR, BOARDINDEX) are defined here as functions with their
    evident meaning, each with a per-square statement of that meaning. */
module Bitboard {

  /** A square index 0..63. */
  type Square = s: bv8 | s < 64

  datatype Color = White | Black {
    function Opponent(): (o: Color)
      ensures o != this
    {
      if White? then Black else White
    }

    /** Index of the colour in the two-entry arrays (white = 0, black = 1). */
    function Index(): (i: nat)
      ensures i < 2 && (i == 0 <==> White?)
    {
      if White? then 0 else 1
    }
  }

  /** BITSET[s] */
  function Bit(s: Square): bv64 {
    (1 as bv64) << s
  }

  predicate IsSet(x: bv64, s: Square) {
    (x >> s) & 1 == 1
  }

  /** FILES[s]: 0 for the a-file up to 7 for the h-file. */
  function FileOf(s: Square): (f: bv8)
    ensures f < 8
  {
    s & 7
  }

  /** RANKS[s]: 0 for the first rank up to 7 for the eighth. */
  function RankOf(s: Square): (r: bv8)
    ensures r < 8
  {
    s >> 3
  }

  /** A square is rank * 8 + file. */
  lemma SquareDecomposition(s: Square)
    ensures s == RankOf(s) * 8 + FileOf(s)
  {
  }

  /** The rank of a square as seen by the player of colour c (0 = own back rank). */
  function RelativeRank(c: Color, s: Square): (r: bv8)
    ensures r < 8
  {
    if c == White then RankOf(s) else 7 - RankOf(s)
  }

  /** Two files (or two ranks) that are equal or adjacent: abs(f - g) <= 1. */
  predicate Near(f: bv8, g: bv8) {
    f == g || f + 1 == g || g + 1 == f
  }

  /** BOARDINDEX[file][rank] */
  function SquareAt(file: bv8, rank: bv8): (s: Square)
    requires file < 8 && rank < 8
    ensures FileOf(s) == file && RankOf(s) == rank
  {
    (rank << 3) | file
  }

  /** SQUARE_COLOR[s]: the two square colours are the two parities of file + rank. */
  function SquareColor(s: Square): (k: bv8)
    ensures k == 0 || k == 1
  {
    (FileOf(s) + RankOf(s)) & 1
  }

  /** The square reflected across the middle of the board (a1 <-> a8). */
  function Mirror(s: Square): (m: Square)
    ensures FileOf(m) == FileOf(s) && RankOf(m) == 7 - RankOf(s)
  {
    s ^ 56
  }

  const FileA: bv64 := 0x0101_0101_0101_0101
  const FileH: bv64 := 0x8080_8080_8080_8080
  const Rank1: bv64 := 0x0000_0000_0000_00FF
  const Rank8: bv64 := 0xFF00_0000_0000_0000

  /** FILEMASK[s]: the file of s. */
  function FileMaskOf(s: Square): bv64 {
    FileA << (s & 7)
  }

  /** RANKMASK[s]: the rank of s. */
  function RankMaskOf(s: Square): bv64 {
    (0xFF as bv64) << (s & 56)
  }

  /** ISOLATED_PAWN[s]: the files next to the file of s. */
  function IsolatedPawnMask(s: Square): bv64 {
    ((FileMaskOf(s) & !FileA) >> 1) | ((FileMaskOf(s) & !FileH) << 1)
  }

  /** The ranks strictly ahead of the rank of s, as seen by colour c. */
  function AheadOf(c: Color, s: Square): bv64 {
    if c == White then 0xFFFF_FFFF_FFFF_FF00 << (s & 56) else !((!(0 as bv64)) << (s & 56))
  }

  /** SQUARES_IN_FRONT_OF[c][s]: the squares of the file of s strictly ahead of s. */
  function SquaresInFrontOf(c: Color, s: Square): bv64 {
    FileMaskOf(s) & AheadOf(c, s)
  }

  /** PASSED_PAWN[c][s]: the squares on the file of s and the files next to it,
      strictly ahead of s; a pawn of colour c on s is passed when no enemy pawn stands there. */
  function PassedPawnMask(c: Color, s: Square): bv64 {
    (FileMaskOf(s) | IsolatedPawnMask(s)) & AheadOf(c, s)
  }

  /** Square t lies strictly ahead of square s for the player of colour c. */
  predicate Ahead(c: Color, s: Square, t: Square) {
    RelativeRank(c, t) > RelativeRank(c, s)
  }

  // The per-square meaning of the masks above.

  lemma FileMaskMeaning(s: Square, t: Square)
    ensures IsSet(FileMaskOf(s), t) <==> FileOf(t) == FileOf(s)
  {
  }

  lemma RankMaskMeaning(s: Square, t: Square)
    ensures IsSet(RankMaskOf(s), t) <==> RankOf(t) == RankOf(s)
  {
  }

  lemma IsolatedPawnMaskMeaning(s: Square, t: Square)
    ensures IsSet(IsolatedPawnMask(s), t) <==> FileOf(t) != FileOf(s) && Near(FileOf(t), FileOf(s))
  {
  }

  lemma SquaresInFrontOfWhiteBits(s: Square, t: Square)
    ensures IsSet(SquaresInFrontOf(White, s), t) <==> FileOf(t) == FileOf(s) && RankOf(t) > RankOf(s)
  {
  }

  lemma SquaresInFrontOfWhite(s: Square, t: Square)
    ensures InFront(White, s, t) <==> FileOf(t) == FileOf(s) && Ahead(White, s, t)
  {
    SquaresInFrontOfWhiteBits(s, t);
  }

  lemma SquaresInFrontOfBlackBits(s: Square, t: Square)
    ensures IsSet(SquaresInFrontOf(Black, s), t) <==> FileOf(t) == FileOf(s) && RankOf(t) < RankOf(s)
  {
  }

  lemma SquaresInFrontOfBlack(s: Square, t: Square)
    ensures InFront(Black, s, t) <==> FileOf(t) == FileOf(s) && Ahead(Black, s, t)
  {
    SquaresInFrontOfBlackBits(s, t);
  }

  predicate InFront(c: Color, s: Square, t: Square) {
    IsSet(SquaresInFrontOf(c, s), t)
  }

  lemma SquaresInFrontOfMeaning(c: Color, s: Square, t: Square)
    ensures InFront(c, s, t) <==> FileOf(t) == FileOf(s) && Ahead(c, s, t)
  {
    if c == White {
      SquaresInFrontOfWhite(s, t);
    } else {
      SquaresInFrontOfBlack(s, t);
    }
  }

  lemma PassedPawnMaskWhiteBits(s: Square, t: Square)
    ensures IsSet(PassedPawnMask(White, s), t) <==> Near(FileOf(t), FileOf(s)) && RankOf(t) > RankOf(s)
  {
  }

  lemma PassedPawnMaskWhite(s: Square, t: Square)
    ensures InPassedZone(White, s, t) <==> Near(FileOf(t), FileOf(s)) && Ahead(White, s, t)
  {
    PassedPawnMaskWhiteBits(s, t);
  }

  lemma PassedPawnMaskBlackBits(s: Square, t: Square)
    ensures IsSet(PassedPawnMask(Black, s), t) <==> Near(FileOf(t), FileOf(s)) && RankOf(t) < RankOf(s)
  {
  }

  lemma PassedPawnMaskBlack(s: Square, t: Square)
    ensures InPassedZone(Black, s, t) <==> Near(FileOf(t), FileOf(s)) && Ahead(Black, s, t)
  {
    PassedPawnMaskBlackBits(s, t);
  }

  predicate InPassedZone(c: Color, s: Square, t: Square) {
    IsSet(PassedPawnMask(c, s), t)
  }

  lemma PassedPawnMaskMeaning(c: Color, s: Square, t: Square)
    ensures InPassedZone(c, s, t) <==> Near(FileOf(t), FileOf(s)) && Ahead(c, s, t)
  {
    if c == White {
      PassedPawnMaskWhite(s, t);
    } else {
      PassedPawnMaskBlack(s, t);
    }
  }

  /** A square on which a pawn can stand: ranks 2 to 7. */
  predicate PawnSquare(s: Square) {
    8 <= s < 56
  }

  /** A bitboard with nothing on the first and last ranks holds pawn squares only. */
  lemma PawnSquareOf(x: bv64, s: Square)
    requires x & (Rank1 | Rank8) == 0 && IsSet(x, s)
    ensures PawnSquare(s)
  {
  }

  /** s + pawnPush(c): one square ahead of a pawn square. */
  function PawnForward(c: Color, s: Square): (f: Square)
    requires PawnSquare(s)
    ensures FileOf(f) == FileOf(s) && RelativeRank(c, f) == RelativeRank(c, s) + 1
  {
    if c == White then s + 8 else s - 8
  }

  /** s - pawnPush(c): one square behind a pawn square. */
  function PawnBehind(c: Color, s: Square): (b: Square)
    requires PawnSquare(s)
    ensures FileOf(b) == FileOf(s) && RelativeRank(c, b) == RelativeRank(c, s) - 1
  {
    if c == White then s - 8 else s + 8
  }

  // ---------------------------------------------------------------------
  // Enumerating the squares of a bitboard (firstOne / x & (x - 1) / bitCnt)
  // ---------------------------------------------------------------------

  /** No square below s is set in x. */
  predicate NoneBelow(x: bv64, s: Square) {
    x & (Bit(s) - 1) == 0
  }

  /** f is the lowest set square of x. */
  predicate IsLowest(x: bv64, f: Square) {
    IsSet(x, f) && NoneBelow(x, f)
  }

  lemma NoneBelowStep(x: bv64, s: Square)
    requires NoneBelow(x, s) && !IsSet(x, s)
    ensures s < 63 ==> NoneBelow(x, s + 1)
    ensures s == 63 ==> x == 0
  {
  }

  /** The lowest set square of x at or above s, when none is set below s. */
  function LowestFrom(x: bv64, s: Square): (f: Square)
    requires x != 0 && NoneBelow(x, s)
    ensures IsLowest(x, f)
    decreases 64 - s as int
  {
    if IsSet(x, s) then s
    else
      NoneBelowStep(x, s);
      LowestFrom(x, s + 1)
  }

  /** firstOne: the lowest set square. */
  function FirstOne(x: bv64): (s: Square)
    requires x != 0
    ensures IsLowest(x, s)
  {
    LowestFrom(x, 0)
  }

  /** Below the lowest set square nothing is set. */
  lemma NothingBelow(x: bv64, f: Square, t: Square)
    requires NoneBelow(x, f) && IsSet(x, t)
    ensures f <= t
  {
  }

  /** The bit trick of the popping loops: x & (x - 1) clears the lowest set square of x. */
  lemma ClearLowest(x: bv64, f: Square)
    requires IsLowest(x, f)
    ensures x & (x - 1) == x & !Bit(f)
  {
  }

  lemma ClearSquareMeaning(x: bv64, y: bv64, f: Square, t: Square)
    requires y == x & !Bit(f)
    ensures IsSet(y, t) <==> IsSet(x, t) && t != f
  {
  }

  /** Popping the lowest set square f of x leaves the other set squares, all above f. */
  lemma PopStep(x: bv64, f: Square, t: Square)
    requires IsLowest(x, f)
    ensures IsSet(x & (x - 1), t) <==> IsSet(x, t) && t != f
    ensures IsSet(x, t) ==> f <= t
  {
    ClearLowest(x, f);
    ClearSquareMeaning(x, x & (x - 1), f, t);
    if IsSet(x, t) {
      NothingBelow(x, f, t);
    }
  }

  lemma AndMeaning(x: bv64, m: bv64, t: Square)
    ensures IsSet(x & m, t) <==> IsSet(x, t) && IsSet(m, t)
  {
  }

  lemma AndNotMeaning(x: bv64, m: bv64, t: Square)
    ensures IsSet(x & !m, t) <==> IsSet(x, t) && !IsSet(m, t)
  {
  }

  lemma OrMeaning(x: bv64, m: bv64, t: Square)
    ensures IsSet(x | m, t) <==> IsSet(x, t) || IsSet(m, t)
  {
  }

  lemma BitMeaning(f: Square, t: Square)
    ensures IsSet(Bit(f), t) <==> f == t
  {
  }

  /** m meets neither a nor b exactly when it does not meet a | b. */
  lemma AndOrZero(m: bv64, a: bv64, b: bv64)
    ensures m & (a | b) == 0 <==> m & a == 0 && m & b == 0
  {
    assert m & (a | b) == (m & a) | (m & b);
  }

  /** x with the square sq added when b holds. */
  function AddIf(x: bv64, b: bool, sq: Square): bv64 {
    if b then x | Bit(sq) else x
  }

  lemma AddIfMeaning(x: bv64, b: bool, sq: Square, t: Square)
    ensures IsSet(AddIf(x, b, sq), t) <==> IsSet(x, t) || (b && t == sq)
  {
    if b {
      OrSquareMeaning(x, sq, t);
    }
  }

  lemma OrSquareMeaning(x: bv64, sq: Square, t: Square)
    ensures IsSet(x | Bit(sq), t) <==> IsSet(x, t) || t == sq
  {
    OrMeaning(x, Bit(sq), t);
    BitMeaning(sq, t);
  }

  /** The squares of x in the order the popping loops visit them:
      firstOne, then the squares of x & (x - 1). */
  function Squares(x: bv64): seq<Square>
    decreases x
  {
    if x == 0 then [] else [FirstOne(x)] + Squares(x & (x - 1))
  }

  /** The number of set squares of x below n. */
  function CountBelow(x: bv64, n: bv8): nat
    requires n <= 64
  {
    if n == 0 then 0 else CountBelow(x, n - 1) + (if IsSet(x, n - 1) then 1 else 0)
  }

  /** bitCnt */
  function PopCount(x: bv64): nat {
    CountBelow(x, 64)
  }

  /** A bitboard has at most 64 squares. */
  lemma {:induction false} CountBelowAtMost(x: bv64, n: bv8)
    requires n <= 64
    ensures CountBelow(x, n) <= n as int
  {
    if n > 0 {
      CountBelowAtMost(x, n - 1);
    }
  }

  lemma {:induction false} CountBelowZero(x: bv64, n: bv8)
    requires n <= 64
    ensures CountBelow(x, n) == 0 <==> forall t: Square :: t < n ==> !IsSet(x, t)
  {
    if n > 0 {
      CountBelowZero(x, n - 1);
    }
  }

  /** An empty bitboard, and only it, counts zero squares. */
  lemma PopCountZero(x: bv64)
    ensures PopCount(x) == 0 <==> x == 0
  {
    CountBelowZero(x, 64);
    if x != 0 {
      var f := FirstOne(x);
    }
  }

  /** The square popped first is set in x, the others are the set squares of x
      without it, and none of them lies below it. */
  lemma PopLowestMeaning(x: bv64, t: Square)
    requires x != 0
    ensures IsSet(x & (x - 1), t) <==> IsSet(x, t) && t != FirstOne(x)
    ensures IsSet(x, t) ==> FirstOne(x) <= t
  {
    PopStep(x, FirstOne(x), t);
  }

  /** Squares(x) lists exactly the set squares of x. */
  lemma {:induction false} SquaresMembers(x: bv64, t: Square)
    ensures t in Squares(x) <==> IsSet(x, t)
    decreases x
  {
    if x != 0 {
      PopLowestMeaning(x, t);
      SquaresMembers(x & (x - 1), t);
    }
  }

  /** Popping the lowest square makes the bitboard smaller ... */
  lemma PopDecreases(x: bv64)
    requires x != 0
    ensures x & (x - 1) < x
  {
  }

  /** Every square of a is a square of b. */
  predicate SubsetOf(a: bv64, b: bv64) {
    a & !b == 0
  }

  lemma SubsetMeaning(a: bv64, b: bv64, t: Square)
    requires SubsetOf(a, b) && IsSet(a, t)
    ensures IsSet(b, t)
  {
  }

  /** ... and keeps it within the original. */
  lemma PopSubset(x: bv64)
    ensures SubsetOf(x & (x - 1), x)
  {
  }

  lemma {:induction false} CountBelowMono(a: bv64, b: bv64, n: bv8)
    requires n <= 64 && SubsetOf(a, b)
    ensures CountBelow(a, n) <= CountBelow(b, n)
  {
    if n > 0 {
      CountBelowMono(a, b, n - 1);
      if IsSet(a, n - 1) {
        SubsetMeaning(a, b, n - 1);
      }
    }
  }

  /** A bitboard within another never has more squares. */
  lemma PopCountMono(a: bv64, b: bv64)
    requires SubsetOf(a, b)
    ensures PopCount(a) <= PopCount(b)
  {
    CountBelowMono(a, b, 64);
  }

  /** Two bitboards are disjoint exactly when no square is set in both. */
  lemma DisjointMeaning(x: bv64, m: bv64)
    ensures x & m == 0 <==> forall t: Square :: !(IsSet(x, t) && IsSet(m, t))
  {
    if x & m != 0 {
      var t := FirstOne(x & m);
      AndMeaning(x, m, t);
    } else {
      forall t: Square
        ensures !(IsSet(x, t) && IsSet(m, t))
      {
        AndMeaning(x, m, t);
      }
    }
  }
}
