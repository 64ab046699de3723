/** The backward-pawn walk of evalPawn: the rows of the files next to a
    pawn's file, walked forward rank by rank until one holds a pawn. */
module PawnWalk {
  import opened Bitboard

  /** Square t is on a file next to the file of sq. */
  predicate Adjacent(sq: Square, t: Square) {
    FileOf(t) != FileOf(sq) && Near(FileOf(t), FileOf(sq))
  }

  /** The ranks as seen by the two players add up to 7. */
  lemma RelativeRankOpponent(c: Color, t: Square)
    ensures RelativeRank(c.Opponent(), t) == 7 - RelativeRank(c, t)
  {
  }

  /** The ranks 2 to 7 are the pawn squares, for either player. */
  lemma RelativeRankPawnSquare(c: Color, s: Square)
    ensures 1 <= RelativeRank(c, s) <= 6 <==> PawnSquare(s)
  {
  }

  /** The squares of the neighbouring files of sq on the rank of cur. */
  function Row(cur: Square, sq: Square): bv64 {
    RankMaskOf(cur) & IsolatedPawnMask(sq)
  }

  /** One rank forward for colour c: b << 8 for white, b >> 8 for black. */
  function Push(c: Color, b: bv64): bv64 {
    if c == White then b << 8 else b >> 8
  }

  lemma RowUp(cur: Square, sq: Square)
    requires RankOf(cur) < 7
    ensures Row(cur, sq) << 8 == Row(cur + 8, sq)
  {
  }

  lemma RowDown(cur: Square, sq: Square)
    requires RankOf(cur) > 0
    ensures Row(cur, sq) >> 8 == Row(cur - 8, sq)
  {
  }

  /** Pushing a row moves it one rank forward. */
  lemma PushRow(c: Color, cur: Square, sq: Square)
    requires PawnSquare(cur)
    ensures Push(c, Row(cur, sq)) == Row(PawnForward(c, cur), sq)
  {
    if c == White {
      RowUp(cur, sq);
    } else {
      RowDown(cur, sq);
    }
  }

  lemma RowMeaning(cur: Square, sq: Square, t: Square)
    ensures IsSet(Row(cur, sq), t) <==> RankOf(t) == RankOf(cur) && Adjacent(sq, t)
  {
    AndMeaning(RankMaskOf(cur), IsolatedPawnMask(sq), t);
    RankMaskMeaning(cur, t);
    IsolatedPawnMaskMeaning(sq, t);
  }

  /** The walk of the backward test: starting from the rank of cur, the first
      rank (for colour c) whose squares on the files next to sq hold a pawn,
      or the last rank when there is none. */
  function Blocker(c: Color, sq: Square, cur: Square, pawns: bv64): Square
    requires RelativeRank(c, cur) >= 1
    decreases 7 - RelativeRank(c, cur)
  {
    if Row(cur, sq) & pawns != 0 || RelativeRank(c, cur) == 7 then cur
    else
      RelativeRankPawnSquare(c, cur);
      Blocker(c, sq, PawnForward(c, cur), pawns)
  }

  /** A pawn next to sq's file is not on the rank of a row that holds no pawn. */
  lemma RowEmpty(c: Color, cur: Square, sq: Square, pawns: bv64, t: Square)
    requires Row(cur, sq) & pawns == 0 && IsSet(pawns, t) && Adjacent(sq, t)
    ensures RelativeRank(c, t) != RelativeRank(c, cur)
  {
    RowMeaning(cur, sq, t);
    AndMeaning(Row(cur, sq), pawns, t);
  }

  /** Square t is level with or ahead of s for colour c. */
  predicate NotBehind(c: Color, s: Square, t: Square) {
    RelativeRank(c, s) <= RelativeRank(c, t)
  }

  /** The walk does not go back ... */
  lemma {:induction false} BlockerAhead(c: Color, sq: Square, cur: Square, pawns: bv64)
    requires RelativeRank(c, cur) >= 1
    ensures NotBehind(c, cur, Blocker(c, sq, cur, pawns))
    decreases 7 - RelativeRank(c, cur)
  {
    if Row(cur, sq) & pawns != 0 || RelativeRank(c, cur) == 7 {
      assert Blocker(c, sq, cur, pawns) == cur;
    } else {
      RelativeRankPawnSquare(c, cur);
      var next := PawnForward(c, cur);
      assert Blocker(c, sq, cur, pawns) == Blocker(c, sq, next, pawns);
      BlockerAhead(c, sq, next, pawns);
    }
  }

  /** ... the walk stops on a rank whose squares next to sq's file hold a pawn,
      unless it reaches the last rank ... */
  lemma {:induction false} BlockerHits(c: Color, sq: Square, cur: Square, pawns: bv64)
    requires RelativeRank(c, cur) >= 1
    ensures RelativeRank(c, Blocker(c, sq, cur, pawns)) == 7 || Row(Blocker(c, sq, cur, pawns), sq) & pawns != 0
    decreases 7 - RelativeRank(c, cur)
  {
    if !(Row(cur, sq) & pawns != 0 || RelativeRank(c, cur) == 7) {
      RelativeRankPawnSquare(c, cur);
      BlockerHits(c, sq, PawnForward(c, cur), pawns);
    }
  }

  /** ... and no pawn next to sq's file stands on a rank it passes over. */
  lemma {:induction false} BlockerFirst(c: Color, sq: Square, cur: Square, pawns: bv64, t: Square)
    requires RelativeRank(c, cur) >= 1
    requires IsSet(pawns, t) && Adjacent(sq, t) && RelativeRank(c, cur) <= RelativeRank(c, t)
    ensures RelativeRank(c, Blocker(c, sq, cur, pawns)) <= RelativeRank(c, t)
    decreases 7 - RelativeRank(c, cur)
  {
    if !(Row(cur, sq) & pawns != 0 || RelativeRank(c, cur) == 7) {
      RelativeRankPawnSquare(c, cur);
      RowEmpty(c, cur, sq, pawns, t);
      BlockerFirst(c, sq, PawnForward(c, cur), pawns, t);
    }
  }

  /** The state of the walk at the rank of cur, started at the rank of start:
      b is the row of cur, the witness pawn w lies ahead, and the walk from cur
      ends where the walk from start ends. */
  predicate Walking(c: Color, sq: Square, pawns: bv64, start: Square, cur: Square, b: bv64, w: Square) {
    1 <= RelativeRank(c, start) <= RelativeRank(c, cur) <= RelativeRank(c, w)
    && IsSet(pawns, w) && Adjacent(sq, w)
    && b == Row(cur, sq)
    && Blocker(c, sq, cur, pawns) == Blocker(c, sq, start, pawns)
  }

  lemma WalkStart(c: Color, sq: Square, ours: bv64, theirs: bv64, w: Square)
    requires PawnSquare(sq)
    requires IsSet(ours, w) && Adjacent(sq, w) && RelativeRank(c, w) > RelativeRank(c, sq)
    ensures Walking(c, sq, ours | theirs, PawnForward(c, sq), PawnForward(c, sq), Row(PawnForward(c, sq), sq), w)
  {
    OrMeaning(ours, theirs, w);
  }

  /** An empty row is not the last: the witness lies further ahead. */
  lemma WalkStep(c: Color, sq: Square, pawns: bv64, start: Square, cur: Square, b: bv64, w: Square)
    requires Walking(c, sq, pawns, start, cur, b, w) && b & pawns == 0
    ensures PawnSquare(cur) && RelativeRank(c, cur) < 7
    ensures Walking(c, sq, pawns, start, PawnForward(c, cur), Push(c, b), w)
  {
    RowEmpty(c, cur, sq, pawns, w);
    RelativeRankPawnSquare(c, cur);
    PushRow(c, cur, sq);
  }

  lemma WalkEnd(c: Color, sq: Square, pawns: bv64, start: Square, cur: Square, b: bv64, w: Square)
    requires Walking(c, sq, pawns, start, cur, b, w) && b & pawns != 0
    ensures b == Row(Blocker(c, sq, start, pawns), sq)
  {
  }

  /** The test of the rows where the walk from the square ahead of sq stops:
      an enemy pawn next to sq's file on that rank or the rank after it. */
  predicate RowsTest(c: Color, sq: Square, ours: bv64, theirs: bv64)
    requires PawnSquare(sq)
  {
    EnemyInRows(c, Row(Blocker(c, sq, PawnForward(c, sq), ours | theirs), sq), theirs)
  }

  /** An enemy pawn on the row b or the row ahead of it. */
  predicate EnemyInRows(c: Color, b: bv64, theirs: bv64) {
    (b | Push(c, b)) & theirs != 0
  }

  lemma RowsTestOf(c: Color, sq: Square, ours: bv64, theirs: bv64, b: bv64)
    requires PawnSquare(sq)
    requires b == Row(Blocker(c, sq, PawnForward(c, sq), ours | theirs), sq)
    ensures RowsTest(c, sq, ours, theirs) == EnemyInRows(c, b, theirs)
  {
  }
}
