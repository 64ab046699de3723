/** The evaluation of a single pawn (evalPawn): its structural flags, the
    backward-pawn walk, and the score terms they select. */
module Pawns {
  import opened Bitboard
  import opened Scores
  import opened Positions
  import opened PawnWalk

  const IsolatedPawnPenalty := SimdScore(1000, 1100)
  const DoubledPawnPenalty := SimdScore(500, 500)
  const BackwardPawnPenalty := SimdScore(600, 600)
  const ChainedPawnBonus := SimdScore(1200, 1100)
  const PassedPawnFileAHPenalty := SimdScore(0, 2000)
  const PassedPawnSupportedBonus := SimdScore(0, 1000)
  const CandidateBonus := SimdScore(1000, 100)

  // ---------------------------------------------------------------------
  // The flags
  // ---------------------------------------------------------------------

  datatype PawnFlags = PawnFlags(passed: bool, isolated: bool, doubled: bool, opposed: bool, chain: bool)

  /** The flags of a pawn of colour c on sq, with ours and theirs the pawns of
      its side and of the other side. */
  function Flags(c: Color, sq: Square, ours: bv64, theirs: bv64): PawnFlags
    requires PawnSquare(sq)
  {
    var b := RankMaskOf(sq) | RankMaskOf(PawnBehind(c, sq));
    PawnFlags(
      passed := theirs & PassedPawnMask(c, sq) == 0,
      isolated := ours & IsolatedPawnMask(sq) == 0,
      doubled := ours & SquaresInFrontOf(c, sq) != 0,
      opposed := theirs & SquaresInFrontOf(c, sq) != 0,
      chain := ours & IsolatedPawnMask(sq) & b != 0)
  }

  /** Isolated: no pawn of its own on a neighbouring file. */
  lemma IsolatedMeaning(c: Color, sq: Square, ours: bv64, theirs: bv64)
    requires PawnSquare(sq)
    ensures Flags(c, sq, ours, theirs).isolated <==> !exists t :: IsSet(ours, t) && Adjacent(sq, t)
  {
    DisjointMeaning(ours, IsolatedPawnMask(sq));
    forall t: Square
      ensures IsSet(IsolatedPawnMask(sq), t) <==> Adjacent(sq, t)
    {
      IsolatedPawnMaskMeaning(sq, t);
    }
  }

  /** Passed: no enemy pawn ahead of it on its own file or a neighbouring one. */
  lemma PassedMeaning(c: Color, sq: Square, ours: bv64, theirs: bv64)
    requires PawnSquare(sq)
    ensures Flags(c, sq, ours, theirs).passed <==>
      !exists t :: IsSet(theirs, t) && Near(FileOf(t), FileOf(sq)) && Ahead(c, sq, t)
  {
    DisjointMeaning(theirs, PassedPawnMask(c, sq));
    forall t: Square
      ensures InPassedZone(c, sq, t) <==> Near(FileOf(t), FileOf(sq)) && Ahead(c, sq, t)
    {
      PassedPawnMaskMeaning(c, sq, t);
    }
  }

  /** Doubled: a pawn of its own ahead of it on its file. */
  lemma DoubledMeaning(c: Color, sq: Square, ours: bv64, theirs: bv64)
    requires PawnSquare(sq)
    ensures Flags(c, sq, ours, theirs).doubled <==>
      exists t :: IsSet(ours, t) && FileOf(t) == FileOf(sq) && Ahead(c, sq, t)
  {
    DisjointMeaning(ours, SquaresInFrontOf(c, sq));
    forall t: Square
      ensures InFront(c, sq, t) <==> FileOf(t) == FileOf(sq) && Ahead(c, sq, t)
    {
      SquaresInFrontOfMeaning(c, sq, t);
    }
  }

  /** Opposed: an enemy pawn ahead of it on its file. */
  lemma OpposedMeaning(c: Color, sq: Square, ours: bv64, theirs: bv64)
    requires PawnSquare(sq)
    ensures Flags(c, sq, ours, theirs).opposed <==>
      exists t :: IsSet(theirs, t) && FileOf(t) == FileOf(sq) && Ahead(c, sq, t)
  {
    DisjointMeaning(theirs, SquaresInFrontOf(c, sq));
    forall t: Square
      ensures InFront(c, sq, t) <==> FileOf(t) == FileOf(sq) && Ahead(c, sq, t)
    {
      SquaresInFrontOfMeaning(c, sq, t);
    }
  }

  lemma ChainRanksWhite(sq: Square, t: Square)
    requires PawnSquare(sq)
    ensures IsSet(RankMaskOf(sq) | RankMaskOf(sq - 8), t) <==> RankOf(t) == RankOf(sq) || RankOf(t) + 1 == RankOf(sq)
  {
    OrMeaning(RankMaskOf(sq), RankMaskOf(sq - 8), t);
    RankMaskMeaning(sq, t);
    RankMaskMeaning(sq - 8, t);
  }

  lemma ChainRanksBlack(sq: Square, t: Square)
    requires PawnSquare(sq)
    ensures IsSet(RankMaskOf(sq) | RankMaskOf(sq + 8), t) <==> RankOf(t) == RankOf(sq) || RankOf(t) == RankOf(sq) + 1
  {
    OrMeaning(RankMaskOf(sq), RankMaskOf(sq + 8), t);
    RankMaskMeaning(sq, t);
    RankMaskMeaning(sq + 8, t);
  }

  /** The two ranks of the chain test, as seen by colour c: the rank of sq and
      the rank behind it. */
  lemma ChainRanks(c: Color, sq: Square, t: Square)
    requires PawnSquare(sq)
    ensures IsSet(RankMaskOf(sq) | RankMaskOf(PawnBehind(c, sq)), t) <==>
      RelativeRank(c, t) == RelativeRank(c, sq) || RelativeRank(c, t) + 1 == RelativeRank(c, sq)
  {
    if c == White {
      ChainRanksWhite(sq, t);
    } else {
      ChainRanksBlack(sq, t);
    }
  }

  lemma NeighbourPawn(ours: bv64, sq: Square, t: Square)
    ensures IsSet(ours & IsolatedPawnMask(sq), t) <==> IsSet(ours, t) && Adjacent(sq, t)
  {
    AndMeaning(ours, IsolatedPawnMask(sq), t);
    IsolatedPawnMaskMeaning(sq, t);
  }

  /** The chain test on the two ranks b of sq and the rank behind it. */
  lemma ChainTest(c: Color, sq: Square, ours: bv64, b: bv64)
    requires PawnSquare(sq) && b == RankMaskOf(sq) | RankMaskOf(PawnBehind(c, sq))
    ensures ours & IsolatedPawnMask(sq) & b != 0 <==>
      exists t :: IsSet(ours, t) && Adjacent(sq, t) &&
        (RelativeRank(c, t) == RelativeRank(c, sq) || RelativeRank(c, t) + 1 == RelativeRank(c, sq))
  {
    DisjointMeaning(ours & IsolatedPawnMask(sq), b);
    forall t: Square
      ensures IsSet(ours & IsolatedPawnMask(sq), t) <==> IsSet(ours, t) && Adjacent(sq, t)
      ensures IsSet(b, t) <==> RelativeRank(c, t) == RelativeRank(c, sq) || RelativeRank(c, t) + 1 == RelativeRank(c, sq)
    {
      NeighbourPawn(ours, sq, t);
      ChainRanks(c, sq, t);
    }
  }

  /** Chain: a pawn of its own on a neighbouring file, level with it or one
      rank behind it. */
  lemma ChainMeaning(c: Color, sq: Square, ours: bv64, theirs: bv64)
    requires PawnSquare(sq)
    ensures Flags(c, sq, ours, theirs).chain <==>
      exists t :: IsSet(ours, t) && Adjacent(sq, t) &&
        (RelativeRank(c, t) == RelativeRank(c, sq) || RelativeRank(c, t) + 1 == RelativeRank(c, sq))
  {
    ChainTest(c, sq, ours, RankMaskOf(sq) | RankMaskOf(PawnBehind(c, sq)));
  }

  // ---------------------------------------------------------------------
  // The backward-pawn walk
  // ---------------------------------------------------------------------

  /** The precondition of the walk: the pawn is neither passed, isolated nor in
      a chain, and no pawn of its own stands on a neighbouring file level
      with or behind it. */
  predicate WalkGuard(c: Color, sq: Square, ours: bv64, theirs: bv64)
    requires PawnSquare(sq)
  {
    var f := Flags(c, sq, ours, theirs);
    !(f.passed || f.isolated || f.chain)
    && ours & PassedPawnMask(c.Opponent(), PawnForward(c, sq)) & IsolatedPawnMask(sq) == 0
  }

  /** A square not ahead of s for the opponent is level with or ahead of s for c. */
  lemma NotAheadForOpponent(c: Color, s: Square, t: Square)
    requires !Ahead(c.Opponent(), s, t)
    ensures RelativeRank(c, t) >= RelativeRank(c, s)
  {
    RelativeRankOpponent(c, s);
    RelativeRankOpponent(c, t);
  }

  lemma GuardSquare(c: Color, sq: Square, ours: bv64, w: Square)
    requires PawnSquare(sq)
    requires ours & PassedPawnMask(c.Opponent(), PawnForward(c, sq)) & IsolatedPawnMask(sq) == 0
    requires IsSet(ours, w) && IsSet(IsolatedPawnMask(sq), w)
    ensures !InPassedZone(c.Opponent(), PawnForward(c, sq), w)
  {
    var m := PassedPawnMask(c.Opponent(), PawnForward(c, sq));
    AndMeaning(ours, m, w);
    AndMeaning(ours & m, IsolatedPawnMask(sq), w);
  }

  /** Under the guard a pawn of its own stands on a neighbouring file strictly
      ahead, so the walk meets a pawn before it runs off the board. */
  lemma WalkWitness(c: Color, sq: Square, ours: bv64, theirs: bv64) returns (w: Square)
    requires PawnSquare(sq) && WalkGuard(c, sq, ours, theirs)
    ensures IsSet(ours, w) && Adjacent(sq, w)
    ensures RelativeRank(c, w) > RelativeRank(c, sq)
  {
    var fwd := PawnForward(c, sq);
    var m := ours & IsolatedPawnMask(sq);
    w := FirstOne(m);
    NeighbourPawn(ours, sq, w);
    AndMeaning(ours, IsolatedPawnMask(sq), w);
    GuardSquare(c, sq, ours, w);
    PassedPawnMaskMeaning(c.Opponent(), fwd, w);
    NotAheadForOpponent(c, fwd, w);
  }

  /** The loop of the backward test: walk the rows next to sq's file forward
      from the square ahead of sq until one holds a pawn, then test that row
      and the next for enemy pawns. The loop ends because a pawn of its own,
      w, stands next to sq's file ahead of it. */
  method BackwardWalk(c: Color, sq: Square, ourPawns: bv64, theirPawns: bv64, ghost w: Square) returns (backward: bool)
    requires PawnSquare(sq)
    requires IsSet(ourPawns, w) && Adjacent(sq, w) && RelativeRank(c, w) > RelativeRank(c, sq)
    ensures backward == RowsTest(c, sq, ourPawns, theirPawns)
  {
    var start := PawnForward(c, sq);
    var pawns := ourPawns | theirPawns;
    var b := Row(start, sq);
    ghost var cur := start;
    WalkStart(c, sq, ourPawns, theirPawns, w);
    while b & pawns == 0
      invariant Walking(c, sq, pawns, start, cur, b, w)
      decreases 7 - RelativeRank(c, cur)
    {
      WalkStep(c, sq, pawns, start, cur, b, w);
      b := Push(c, b);
      cur := PawnForward(c, cur);
    }
    WalkEnd(c, sq, pawns, start, cur, b, w);
    RowsTestOf(c, sq, ourPawns, theirPawns, b);
    backward := EnemyInRows(c, b, theirPawns);
  }

  /** backward: the guard holds, and an enemy pawn stands next to sq's file on
      the rank where the walk stops or the rank after it. */
  predicate Backward(c: Color, sq: Square, ours: bv64, theirs: bv64)
    requires PawnSquare(sq)
  {
    WalkGuard(c, sq, ours, theirs) && RowsTest(c, sq, ours, theirs)
  }

  /** A backward pawn is neither passed, isolated nor in a chain, and every
      pawn of its own on a neighbouring file stands strictly ahead of it. */
  lemma BackwardGuarded(c: Color, sq: Square, ours: bv64, theirs: bv64)
    requires PawnSquare(sq) && Backward(c, sq, ours, theirs)
    ensures var f := Flags(c, sq, ours, theirs); !f.passed && !f.isolated && !f.chain
    ensures forall t: Square :: IsSet(ours, t) && Adjacent(sq, t) ==> RelativeRank(c, t) > RelativeRank(c, sq)
  {
    forall t: Square | IsSet(ours, t) && Adjacent(sq, t)
      ensures RelativeRank(c, t) > RelativeRank(c, sq)
    {
      var fwd := PawnForward(c, sq);
      NeighbourPawn(ours, sq, t);
      AndMeaning(ours, IsolatedPawnMask(sq), t);
      GuardSquare(c, sq, ours, t);
      PassedPawnMaskMeaning(c.Opponent(), fwd, t);
      NotAheadForOpponent(c, fwd, t);
    }
  }

  // ---------------------------------------------------------------------
  // The score
  // ---------------------------------------------------------------------

  /** The passed pawn bonus for a pawn on relative rank relativeRank:
      with r = relativeRank - 1, (600 * r * (r - 1), 1100 * (r * (r - 1) + r + 1)). */
  function PassedBonus(relativeRank: int): SimdScore {
    var r := relativeRank - 1;
    var rr := r * (r - 1);
    SimdScore(600 * rr, 1100 * (rr + r + 1))
  }

  /** One rank further the passed bonus is no smaller in the middlegame lane
      and strictly larger in the endgame lane. */
  lemma PassedBonusStep(rank: int)
    requires rank >= 1
    ensures PassedBonus(rank).mg <= PassedBonus(rank + 1).mg
    ensures PassedBonus(rank).eg < PassedBonus(rank + 1).eg
  {
    var r := rank - 1;
    assert (r + 1) * r - r * (r - 1) == 2 * r;
  }

  /** The passed bonus grows with the rank: from the second rank on, the
      middlegame lane never decreases and the endgame lane strictly increases. */
  lemma {:induction false} PassedBonusGrows(a: int, b: int)
    requires 1 <= a <= b
    ensures PassedBonus(a).mg <= PassedBonus(b).mg
    ensures a < b ==> PassedBonus(a).eg < PassedBonus(b).eg
    decreases b - a
  {
    if a < b {
      PassedBonusGrows(a, b - 1);
      PassedBonusStep(b - 1);
    }
  }

  /** On the second rank the passed bonus is (0, 1100), so from there on it is
      never negative. */
  lemma PassedBonusPositive(rank: int)
    requires rank >= 1
    ensures PassedBonus(rank).mg >= 0 && PassedBonus(rank).eg >= 1100
  {
    assert PassedBonus(1) == SimdScore(0, 1100);
    PassedBonusGrows(1, rank);
  }

  /** The score of a pawn with flags f, given whether it is backward and a
      candidate, on relative rank rank and the given file. */
  function Terms(f: PawnFlags, backward: bool, candidate: bool, rank: int, file: bv8): SimdScore {
    var s0 := Zero;
    var s1 := if f.isolated then s0.Minus(IsolatedPawnPenalty) else s0;
    var s2 := if f.doubled then s1.Minus(DoubledPawnPenalty) else s1;
    var s3 := if backward then s2.Minus(BackwardPawnPenalty) else s2;
    var s4 := if f.chain then s3.Plus(ChainedPawnBonus) else s3;
    var s5 := if f.passed && !f.doubled then PassedTerms(s4, f, rank, file) else s4;
    if candidate then s5.Plus(CandidateBonus.Times(rank - 1)) else s5
  }

  /** The passed pawn terms added to s: the bonus, less the rook-file penalty,
      plus the supported bonus for a pawn in a chain. */
  function PassedTerms(s: SimdScore, f: PawnFlags, rank: int, file: bv8): SimdScore {
    var t0 := s.Plus(PassedBonus(rank));
    var t1 := if file == 0 || file == 7 then t0.Minus(PassedPawnFileAHPenalty) else t0;
    if f.chain then t1.Plus(PassedPawnSupportedBonus.Times(rank - 1)) else t1
  }

  /** What the passed flag adds: for a pawn that is not doubled, the passed
      bonus, less the rook-file penalty on the a- and h-files, plus the
      supported bonus times r when the pawn is in a chain; for a doubled pawn
      nothing. */
  lemma PassedContribution(f: PawnFlags, backward: bool, candidate: bool, rank: int, file: bv8)
    ensures var without := Terms(f.(passed := false), backward, candidate, rank, file);
      var with := Terms(f.(passed := true), backward, candidate, rank, file);
      if f.doubled then with == without
      else with == without.Plus(PassedBonus(rank))
                          .Minus(if file == 0 || file == 7 then PassedPawnFileAHPenalty else Zero)
                          .Plus(if f.chain then PassedPawnSupportedBonus.Times(rank - 1) else Zero)
  {
    var g := f.(passed := true);
    assert g.doubled == f.doubled && g.chain == f.chain && g.isolated == f.isolated;
  }

  /** What the candidate flag adds: the candidate bonus times r. */
  lemma CandidateContribution(f: PawnFlags, backward: bool, rank: int, file: bv8)
    ensures Terms(f, backward, true, rank, file) == Terms(f, backward, false, rank, file).Plus(CandidateBonus.Times(rank - 1))
  {
  }

  /** A candidate passed pawn: not passed, isolated, doubled or opposed, and the
      enemy pawns in its passed zone are fewer than its own pawns in the passed
      zone of the square behind it. */
  predicate Candidate(c: Color, sq: Square, ours: bv64, theirs: bv64)
    requires PawnSquare(sq)
  {
    var f := Flags(c, sq, ours, theirs);
    !f.passed && !f.isolated && !f.doubled && !f.opposed
    && PopCount(PassedPawnMask(c, sq) & theirs) < PopCount(PassedPawnMask(c, PawnBehind(c, sq)) & ours)
  }

  /** The score evalPawn returns for a pawn of colour c on sq. */
  function PawnScore(c: Color, sq: Square, ours: bv64, theirs: bv64): SimdScore
    requires PawnSquare(sq)
  {
    Terms(Flags(c, sq, ours, theirs), Backward(c, sq, ours, theirs), Candidate(c, sq, ours, theirs),
          RelativeRank(c, sq) as int, FileOf(sq))
  }

  /** The pawn is weak when it is isolated or backward. */
  predicate Weak(c: Color, sq: Square, ours: bv64, theirs: bv64)
    requires PawnSquare(sq)
  {
    Flags(c, sq, ours, theirs).isolated || Backward(c, sq, ours, theirs)
  }

  /** The pawn is counted as passed when it is passed and not doubled. */
  predicate CountsAsPassed(c: Color, sq: Square, ours: bv64, theirs: bv64)
    requires PawnSquare(sq)
  {
    var f := Flags(c, sq, ours, theirs);
    f.passed && !f.doubled
  }

  /** The scoring steps of evalPawn once the flags are known: the score of a
      pawn with flags f on relative rank relativeRank and the given file. */
  method ScorePawn(f: PawnFlags, backward: bool, candidate: bool, relativeRank: int, file: bv8)
    returns (res: SimdScore)
    ensures res == Terms(f, backward, candidate, relativeRank, file)
  {
    res := Zero;
    if f.isolated {
      res := res.Minus(IsolatedPawnPenalty);
    }
    if f.doubled {
      res := res.Minus(DoubledPawnPenalty);
    }
    if backward {
      res := res.Minus(BackwardPawnPenalty);
    }
    if f.chain {
      res := res.Plus(ChainedPawnBonus);
    }
    if f.passed && !f.doubled {
      res := res.Plus(PassedBonus(relativeRank));
      if file == 0 || file == 7 {
        res := res.Minus(PassedPawnFileAHPenalty);
      }
      if f.chain {
        res := res.Plus(PassedPawnSupportedBonus.Times(relativeRank - 1));
      }
    }
    if candidate {
      res := res.Plus(CandidateBonus.Times(relativeRank - 1));
    }
  }

  /** The first half of evalPawn: the flags of the pawn of colour c on sq,
      whether it is backward (walking the rows only under the guard), and
      whether it is a candidate passed pawn. */
  method ClassifyPawn(c: Color, sq: Square, ourPawns: bv64, theirPawns: bv64)
    returns (f: PawnFlags, backward: bool, candidate: bool)
    requires PawnSquare(sq)
    ensures f == Flags(c, sq, ourPawns, theirPawns)
    ensures backward == Backward(c, sq, ourPawns, theirPawns)
    ensures candidate == Candidate(c, sq, ourPawns, theirPawns)
  {
    f := Flags(c, sq, ourPawns, theirPawns);
    backward := false;
    if WalkGuard(c, sq, ourPawns, theirPawns) {
      ghost var w := WalkWitness(c, sq, ourPawns, theirPawns);
      backward := BackwardWalk(c, sq, ourPawns, theirPawns, w);
    }
    candidate := Candidate(c, sq, ourPawns, theirPawns);
  }

  /** evalPawn<c>: the score of the pawn of colour c on sq; the pawn is added
      to weakPawns when weak and to passedPawns when counted as passed. */
  method EvalPawn(p: Position, c: Color, sq: Square, weakPawns: bv64, passedPawns: bv64)
    returns (res: SimdScore, weak: bv64, passed: bv64)
    requires PawnSquare(sq)
    ensures res == PawnScore(c, sq, p.Board(c, Pawn), p.Board(c.Opponent(), Pawn))
    ensures weak == AddIf(weakPawns, Weak(c, sq, p.Board(c, Pawn), p.Board(c.Opponent(), Pawn)), sq)
    ensures passed == AddIf(passedPawns, CountsAsPassed(c, sq, p.Board(c, Pawn), p.Board(c.Opponent(), Pawn)), sq)
  {
    var f, backward, candidate := ClassifyPawn(c, sq, p.Board(c, Pawn), p.Board(c.Opponent(), Pawn));
    res := ScorePawn(f, backward, candidate, RelativeRank(c, sq) as int, FileOf(sq));
    weak := AddIf(weakPawns, f.isolated || backward, sq);
    passed := AddIf(passedPawns, f.passed && !f.doubled, sq);
  }
}
