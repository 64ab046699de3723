/** The evaluation of the queens, rooks, bishops and knights of one colour
    (evalPieces): mobility, the bonuses of each kind, the squares the pieces
    attack and the counters of the attack on the enemy king. */
module Pieces {
  import opened Bitboard
  import opened Scores
  import opened Positions
  import opened PawnStructure

  // ---------------------------------------------------------------------
  // Tables and constants
  // ---------------------------------------------------------------------

  /** The kinds evalPieces is instantiated for. */
  predicate Mobile(k: Kind) {
    k == Queen || k == Rook || k == Bishop || k == Knight
  }

  /** mobilityBonus[piece % separationBitmap]: the bonus for each number of
      reachable squares. The rows are 32 entries wide; the entries not
      listed are zero. */
  const QueenMobility: seq<SimdScore> := QueenRising + QueenPlateau

  /** The first 16 queen entries. */
  const QueenRising: seq<SimdScore> := [
    SimdScore(-1352, -2686), SimdScore(-901, -1747), SimdScore(-563, -939), SimdScore(-225, -134),
    SimdScore(112, 670), SimdScore(450, 1475), SimdScore(788, 2284), SimdScore(1127, 3089),
    SimdScore(1468, 3894), SimdScore(1806, 4568), SimdScore(2031, 5104), SimdScore(2257, 5373),
    SimdScore(2482, 5507), SimdScore(2595, 5507), SimdScore(2707, 5507), SimdScore(2820, 5507)]

  /** The last 16 queen entries are all (2820, 5507). */
  const QueenPlateau: seq<SimdScore> := [
    SimdScore(2820, 5507), SimdScore(2820, 5507), SimdScore(2820, 5507), SimdScore(2820, 5507),
    SimdScore(2820, 5507), SimdScore(2820, 5507), SimdScore(2820, 5507), SimdScore(2820, 5507),
    SimdScore(2820, 5507), SimdScore(2820, 5507), SimdScore(2820, 5507), SimdScore(2820, 5507),
    SimdScore(2820, 5507), SimdScore(2820, 5507), SimdScore(2820, 5507), SimdScore(2820, 5507)]

  const RookMobility: seq<SimdScore> := [
    SimdScore(-1918, -2217), SimdScore(-1239, -1075), SimdScore(-563, 0), SimdScore(112, 1075),
    SimdScore(788, 2150), SimdScore(1465, 3225), SimdScore(2031, 4300), SimdScore(2482, 5375),
    SimdScore(2933, 6450), SimdScore(3271, 7322), SimdScore(3496, 7726), SimdScore(3725, 7994),
    SimdScore(3835, 8195), SimdScore(4063, 8329), SimdScore(4176, 8329), SimdScore(4288, 8329)]

  const BishopMobility: seq<SimdScore> := [
    SimdScore(-2483, -3628), SimdScore(-903, -1746), SimdScore(677, 134), SimdScore(2257, 2015),
    SimdScore(3838, 3896), SimdScore(5418, 5778), SimdScore(6773, 7390), SimdScore(7676, 8465),
    SimdScore(8353, 9137), SimdScore(8692, 9675), SimdScore(9031, 10078), SimdScore(9257, 10346),
    SimdScore(9482, 10615), SimdScore(9708, 10884), SimdScore(9821, 11018), SimdScore(9821, 11018)]

  const KnightMobility: seq<SimdScore> := [
    SimdScore(-3951, -300), SimdScore(-2843, -200), SimdScore(-1016, -100), SimdScore(338, 0),
    SimdScore(1693, 100), SimdScore(3048, 200), SimdScore(4176, 280), SimdScore(4741, 310),
    SimdScore(4967, 330)]

  /** The listed entries of the mobility row of a kind. */
  function MobilityRow(k: Kind): seq<SimdScore>
    requires Mobile(k)
  {
    match k
    case Queen => QueenMobility
    case Rook => RookMobility
    case Bishop => BishopMobility
    case Knight => KnightMobility
  }

  /** The width of the mobilityBonus rows. */
  const MobilityWidth: nat := 32

  /** mobilityBonus[k][n]: an entry past the listed ones (and inside the
      32-entry row) is zero. */
  function MobilityBonus(k: Kind, n: nat): SimdScore
    requires Mobile(k)
  {
    if n < |MobilityRow(k)| then MobilityRow(k)[n] else Zero
  }

  /** The most squares a piece of each kind can reach on an 8x8 board. */
  function MaxMobility(k: Kind): nat
    requires Mobile(k)
  {
    match k
    case Queen => 27
    case Rook => 14
    case Bishop => 13
    case Knight => 8
  }

  /** KingAttackWeights[piece % separationBitmap]. */
  function KingAttackWeight(k: Kind): nat
    requires Mobile(k)
  {
    match k
    case Queen => 5
    case Rook => 3
    case Bishop => 2
    case Knight => 2
  }

  const RookOn7Bonus := SimdScore(5700, 3600)
  const RookOnPawns := SimdScore(1000, 3000)
  const QueenOn7Bonus := SimdScore(200, 1600)
  const QueenOnPawns := SimdScore(500, 1000)
  const RookOnOpen := SimdScore(2000, 500)
  const RookOnSemi := SimdScore(1000, 500)
  const KnightOnOutpost := SimdScore(100, 120)
  const KnightOnOutpostSupported := SimdScore(210, 190)
  const KnightOnHole := SimdScore(310, 390)
  const BishopOnOutpost := SimdScore(80, 110)
  const BishopOnOutpostSupported := SimdScore(1900, 170)
  const BishopOnHole := SimdScore(290, 370)

  // ---------------------------------------------------------------------
  // The mobility table
  // ---------------------------------------------------------------------

  /** Every row of the table fits in the 32-entry rows of mobilityBonus. */
  lemma RowsFitTable(k: Kind)
    requires Mobile(k)
    ensures MaxMobility(k) < |MobilityRow(k)| <= MobilityWidth
  {
  }

  /** Each entry of row is at least the one before it, in both lanes. */
  predicate NonDecreasing(row: seq<SimdScore>) {
    MgNonDecreasing(row) && EgNonDecreasing(row)
  }

  predicate MgNonDecreasing(row: seq<SimdScore>) {
    forall i :: 0 < i < |row| ==> row[i - 1].mg <= row[i].mg
  }

  predicate EgNonDecreasing(row: seq<SimdScore>) {
    forall i :: 0 < i < |row| ==> row[i - 1].eg <= row[i].eg
  }

  /** Each row of the table never decreases from one entry to the next. A
      separate lemma for each row and lane keeps each check small. */
  lemma RowsNonDecreasing(k: Kind)
    requires Mobile(k)
    ensures NonDecreasing(MobilityRow(k))
  {
    match k
    case Queen => QueenRowMg(); QueenRowEg();
    case Rook => RookRowMg(); RookRowEg();
    case Bishop => BishopRowMg(); BishopRowEg();
    case Knight => KnightRowMg(); KnightRowEg();
  }

  lemma QueenRowMg() ensures MgNonDecreasing(QueenMobility) {
    assert MgNonDecreasing(QueenRising);
    assert MgNonDecreasing(QueenPlateau);
    MgJoin(QueenRising, QueenPlateau);
  }
  lemma QueenRowEg() ensures EgNonDecreasing(QueenMobility) {
    assert EgNonDecreasing(QueenRising);
    assert EgNonDecreasing(QueenPlateau);
    EgJoin(QueenRising, QueenPlateau);
  }

  /** Two rows that never decrease, the second starting no lower than the
      first ends, never decrease when joined. */
  lemma MgJoin(a: seq<SimdScore>, b: seq<SimdScore>)
    requires MgNonDecreasing(a) && MgNonDecreasing(b) && |a| > 0 && |b| > 0 && a[|a| - 1].mg <= b[0].mg
    ensures MgNonDecreasing(a + b)
  {
    var r := a + b;
    forall i | 0 < i < |r| ensures r[i - 1].mg <= r[i].mg {
      if i == |a| {
      } else if i < |a| {
        assert r[i - 1] == a[i - 1] && r[i] == a[i];
      } else {
        assert r[i - 1] == b[i - 1 - |a|] && r[i] == b[i - |a|];
      }
    }
  }

  lemma EgJoin(a: seq<SimdScore>, b: seq<SimdScore>)
    requires EgNonDecreasing(a) && EgNonDecreasing(b) && |a| > 0 && |b| > 0 && a[|a| - 1].eg <= b[0].eg
    ensures EgNonDecreasing(a + b)
  {
    var r := a + b;
    forall i | 0 < i < |r| ensures r[i - 1].eg <= r[i].eg {
      if i == |a| {
      } else if i < |a| {
        assert r[i - 1] == a[i - 1] && r[i] == a[i];
      } else {
        assert r[i - 1] == b[i - 1 - |a|] && r[i] == b[i - |a|];
      }
    }
  }
  lemma RookRowMg() ensures MgNonDecreasing(RookMobility) {}
  lemma RookRowEg() ensures EgNonDecreasing(RookMobility) {}
  lemma BishopRowMg() ensures MgNonDecreasing(BishopMobility) {}
  lemma BishopRowEg() ensures EgNonDecreasing(BishopMobility) {}
  lemma KnightRowMg() ensures MgNonDecreasing(KnightMobility) {}
  lemma KnightRowEg() ensures EgNonDecreasing(KnightMobility) {}

  /** In a row that never decreases step by step, a later entry is at least
      an earlier one. */
  lemma {:induction false} NonDecreasingRange(row: seq<SimdScore>, i: nat, j: nat)
    requires NonDecreasing(row) && i <= j < |row|
    ensures row[i].mg <= row[j].mg && row[i].eg <= row[j].eg
    decreases j - i
  {
    if i < j {
      NonDecreasingRange(row, i + 1, j);
      assert row[i + 1 - 1] == row[i];
    }
  }

  /** A piece that reaches more squares never gets a smaller mobility bonus,
      in either lane, as long as the count stays inside the listed row. */
  lemma MobilityMonotone(k: Kind, i: nat, j: nat)
    requires Mobile(k) && i <= j < |MobilityRow(k)|
    ensures MobilityBonus(k, i).mg <= MobilityBonus(k, j).mg
    ensures MobilityBonus(k, i).eg <= MobilityBonus(k, j).eg
  {
    RowsNonDecreasing(k);
    NonDecreasingRange(MobilityRow(k), i, j);
  }

  // ---------------------------------------------------------------------
  // One piece
  // ---------------------------------------------------------------------

  /** The occupancy a piece's attacks are generated with: rooks see through
      their own rooks and queens, bishops through their own queens. */
  function Occupancy(p: Position, c: Color, k: Kind): bv64 {
    match k
    case Rook => p.Occupied() ^ p.Board(c, Rook) ^ p.Board(c, Queen)
    case Bishop => p.Occupied() ^ p.Board(c, Queen)
    case _ => p.Occupied()
  }

  /** The squares attacked by the piece of kind k and colour c on sq. */
  function PieceAttack(p: Position, mg: Movegen, c: Color, k: Kind, sq: Square): bv64 {
    mg.attackFrom(c, k, sq, Occupancy(p, c, k))
  }

  /** The attack generator never gives a piece more squares than a piece of
      its kind can reach. */
  ghost predicate MobilityBounded(mg: Movegen) {
    forall c, k, sq, occ :: Mobile(k) ==> PopCount(mg.attackFrom(c, k, sq, occ)) <= MaxMobility(k)
  }

  /** What evalPieces reads besides the position: the enemy king's ring and
      square, the squares the enemy pawns attack (threatenSquares), the
      squares our pawns attack (supportedSquares), and the enemy's weak
      squares and holes. */
  datatype PieceEnv = PieceEnv(
    ring: bv64, kingSq: Square, threatened: bv64, supported: bv64, weak: bv64, holes: bv64)

  /** The mobility of a piece: the squares it attacks that no enemy pawn
      attacks. */
  function Mobility(attack: bv64, env: PieceEnv): nat {
    PopCount(attack & !env.threatened)
  }

  /** The enemy's back rank: the eighth rank for white pieces, the first for
      black ones. */
  function EnemyBackRank(c: Color): bv64 {
    if c == White then Rank8 else Rank1
  }

  /** The placement of a piece, as the bonus conditions of evalPieces see
      it. */
  datatype Placement = Placement(
    /** on the seventh rank with the enemy king on its back rank */
    onSeventh: bool,
    /** beyond the fifth rank, on a rank holding enemy pawns */
    onPawns: bool,
    /** our pawns on its file */
    ownPawnOnFile: bool,
    /** enemy pawns on its file */
    enemyPawnOnFile: bool,
    /** on the enemy's half of the board and on a square weak for the enemy */
    outpost: bool,
    /** on a square our pawns attack */
    supported: bool,
    /** on one of the enemy's holes */
    hole: bool)

  /** The conditions of the bonuses for the piece of colour c on sq. */
  function PlacementOf(p: Position, c: Color, sq: Square, env: PieceEnv): Placement {
    var rr := RelativeRank(c, sq);
    var enemyPawns := p.Board(c.Opponent(), Pawn);
    Placement(
      rr == 6 && p.Board(c.Opponent(), King) & EnemyBackRank(c) != 0,
      rr > 4 && RankMaskOf(sq) & enemyPawns != 0,
      FileMaskOf(sq) & p.Board(c, Pawn) != 0,
      FileMaskOf(sq) & enemyPawns != 0,
      rr >= 4 && IsSet(env.weak, sq),
      IsSet(env.supported, sq),
      IsSet(env.holes, sq))
  }

  /** The rook's file bonus: open when no pawn is on its file, half-open
      when only enemy pawns are. */
  function RookFileBonus(pl: Placement): SimdScore {
    if pl.ownPawnOnFile then Zero
    else if !pl.enemyPawnOnFile then RookOnOpen
    else RookOnSemi
  }

  /** A bonus that applies when b holds. */
  function Optional(b: bool, bonus: SimdScore): SimdScore {
    if b then bonus else Zero
  }

  /** The bonuses of a piece beyond mobility, by kind. */
  function KindBonus(k: Kind, pl: Placement): SimdScore
    requires Mobile(k)
  {
    match k
    case Queen =>
      Optional(pl.onSeventh, QueenOn7Bonus).Plus(Optional(pl.onPawns, QueenOnPawns))
    case Rook =>
      Optional(pl.onSeventh, RookOn7Bonus).Plus(Optional(pl.onPawns, RookOnPawns)).Plus(RookFileBonus(pl))
    case Bishop =>
      if pl.outpost then
        BishopOnOutpost.Plus(Optional(pl.supported, BishopOnOutpostSupported)).Plus(Optional(pl.hole, BishopOnHole))
      else Zero
    case Knight =>
      if pl.outpost then
        KnightOnOutpost.Plus(Optional(pl.supported, KnightOnOutpostSupported)).Plus(Optional(pl.hole, KnightOnHole))
      else Zero
  }

  /** What the evaluation of one piece contributes: its score, its attacks,
      whether it attacks the enemy king's ring, and its attacks on the
      squares next to the enemy king. */
  datatype PieceEval = PieceEval(score: SimdScore, attack: bv64, ringHit: bool, adjacent: bv64)

  /** The evaluation of the piece of kind k and colour c on sq. */
  function PieceEvalOf(p: Position, mg: Movegen, c: Color, k: Kind, env: PieceEnv, sq: Square): PieceEval
    requires Mobile(k)
  {
    var attack := PieceAttack(p, mg, c, k, sq);
    PieceEval(
      MobilityBonus(k, Mobility(attack, env)).Plus(KindBonus(k, PlacementOf(p, c, sq, env))),
      attack,
      attack & env.ring != 0,
      attack & mg.kingAttacks(env.kingSq))
  }

  /** The evaluation of every piece of kind k and colour c. */
  function Evaluator(p: Position, mg: Movegen, c: Color, k: Kind, env: PieceEnv): Square -> PieceEval
    requires Mobile(k)
  {
    (sq: Square) => PieceEvalOf(p, mg, c, k, env, sq)
  }

  /** The mobility of a piece indexes the listed part of its row. */
  lemma MobilityInRow(p: Position, mg: Movegen, c: Color, k: Kind, env: PieceEnv, sq: Square)
    requires Mobile(k) && MobilityBounded(mg)
    ensures Mobility(PieceAttack(p, mg, c, k, sq), env) < |MobilityRow(k)|
  {
    var attack := PieceAttack(p, mg, c, k, sq);
    PopCountMono(attack & !env.threatened, attack);
  }

  /** The largest bonus beyond mobility a piece of each kind can get. */
  function MaxKindBonus(k: Kind): SimdScore
    requires Mobile(k)
  {
    match k
    case Queen => QueenOn7Bonus.Plus(QueenOnPawns)
    case Rook => RookOn7Bonus.Plus(RookOnPawns).Plus(RookOnOpen)
    case Bishop => BishopOnOutpost.Plus(BishopOnOutpostSupported).Plus(BishopOnHole)
    case Knight => KnightOnOutpost.Plus(KnightOnOutpostSupported).Plus(KnightOnHole)
  }

  /** Every bonus is a reward: the bonuses of a piece never go below zero
      and never above the sum of the bonuses of its kind. */
  lemma KindBonusBounds(k: Kind, pl: Placement)
    requires Mobile(k)
    ensures 0 <= KindBonus(k, pl).mg <= MaxKindBonus(k).mg
    ensures 0 <= KindBonus(k, pl).eg <= MaxKindBonus(k).eg
  {
    KindBonusMiddlegame(k, pl);
    KindBonusEndgame(k, pl);
  }

  // The two lanes are bounded one at a time: together they make the solver
  // explore every combination of the placement's conditions at once.

  lemma KindBonusMiddlegame(k: Kind, pl: Placement)
    requires Mobile(k)
    ensures 0 <= KindBonus(k, pl).mg <= MaxKindBonus(k).mg
  {
  }

  lemma KindBonusEndgame(k: Kind, pl: Placement)
    requires Mobile(k)
    ensures 0 <= KindBonus(k, pl).eg <= MaxKindBonus(k).eg
  {
  }

  /** A knight or bishop gets a bonus exactly when it stands on an outpost:
      on the enemy's half of the board (relative rank 4 or more) and on a
      square weak for the enemy; being supported or on a hole adds nothing
      otherwise. */
  lemma OutpostNeedsWeakSquare(p: Position, c: Color, k: Kind, sq: Square, env: PieceEnv)
    requires k == Bishop || k == Knight
    ensures KindBonus(k, PlacementOf(p, c, sq, env)) != Zero <==> RelativeRank(c, sq) >= 4 && IsSet(env.weak, sq)
  {
  }

  /** A rook gets the open-file bonus exactly when no pawn of either colour
      is on its file, and the half-open-file bonus exactly when only enemy
      pawns are. */
  lemma RookFileMeaning(p: Position, c: Color, sq: Square, env: PieceEnv)
    ensures var b := RookFileBonus(PlacementOf(p, c, sq, env));
      && (b == RookOnOpen <==> FileMaskOf(sq) & (p.Board(c, Pawn) | p.Board(c.Opponent(), Pawn)) == 0)
      && (b == RookOnSemi <==> FileMaskOf(sq) & p.Board(c, Pawn) == 0 && FileMaskOf(sq) & p.Board(c.Opponent(), Pawn) != 0)
  {
    var pl := PlacementOf(p, c, sq, env);
    RookFileCases(pl);
    assert pl.ownPawnOnFile == (FileMaskOf(sq) & p.Board(c, Pawn) != 0);
    assert pl.enemyPawnOnFile == (FileMaskOf(sq) & p.Board(c.Opponent(), Pawn) != 0);
    AndOrZero(FileMaskOf(sq), p.Board(c, Pawn), p.Board(c.Opponent(), Pawn));
  }

  /** The file bonus by the pawns on the rook's file. */
  lemma RookFileCases(pl: Placement)
    ensures RookFileBonus(pl) == RookOnOpen <==> !pl.ownPawnOnFile && !pl.enemyPawnOnFile
    ensures RookFileBonus(pl) == RookOnSemi <==> !pl.ownPawnOnFile && pl.enemyPawnOnFile
  {
  }

  // ---------------------------------------------------------------------
  // The loop over the pieces
  // ---------------------------------------------------------------------

  /** What the loop accumulates: the score, attackedSquares[piece], and the
      colour's kingAttackersCount, kingAttackersWeight and
      kingAdjacentZoneAttacksCount. */
  datatype PieceAcc = PieceAcc(score: SimdScore, attacked: bv64, count: int, weight: int, adjacent: int)

  /** One iteration: a piece attacking the enemy king's ring counts as an
      attacker with the weight of its kind and adds its attacks next to the
      king; its attacks join attackedSquares[piece]; its score is added. */
  function PieceStep(k: Kind, e: PieceEval, acc: PieceAcc): PieceAcc
    requires Mobile(k)
  {
    PieceAcc(
      acc.score.Plus(e.score),
      acc.attacked | e.attack,
      if e.ringHit then acc.count + 1 else acc.count,
      if e.ringHit then acc.weight + KingAttackWeight(k) else acc.weight,
      if e.ringHit && e.adjacent != 0 then acc.adjacent + PopCount(e.adjacent) else acc.adjacent)
  }

  /** The loop over the squares sqs, in that order. */
  function PieceFold(k: Kind, sqs: seq<Square>, ev: Square -> PieceEval, acc: PieceAcc): PieceAcc
    requires Mobile(k)
    decreases |sqs|
  {
    if sqs == [] then acc
    else PieceFold(k, sqs[1..], ev, PieceStep(k, ev(sqs[0]), acc))
  }

  /** The sum of the scores of the pieces. */
  function ScoreSum(sqs: seq<Square>, ev: Square -> PieceEval): SimdScore
    decreases |sqs|
  {
    if sqs == [] then Zero else ev(sqs[0]).score.Plus(ScoreSum(sqs[1..], ev))
  }

  /** The union of the attacks of the pieces. */
  function AttackUnion(sqs: seq<Square>, ev: Square -> PieceEval): bv64
    decreases |sqs|
  {
    if sqs == [] then 0 else ev(sqs[0]).attack | AttackUnion(sqs[1..], ev)
  }

  /** The number of pieces that attack the enemy king's ring. */
  function RingAttackers(sqs: seq<Square>, ev: Square -> PieceEval): nat
    decreases |sqs|
  {
    if sqs == [] then 0 else (if ev(sqs[0]).ringHit then 1 else 0) + RingAttackers(sqs[1..], ev)
  }

  /** The attacks of the ring attackers on the squares next to the king. */
  function AdjacentSum(sqs: seq<Square>, ev: Square -> PieceEval): nat
    decreases |sqs|
  {
    if sqs == [] then 0
    else (if ev(sqs[0]).ringHit then PopCount(ev(sqs[0]).adjacent) else 0) + AdjacentSum(sqs[1..], ev)
  }

  /** The loop adds the scores of all pieces. */
  lemma {:induction false} PieceFoldScore(k: Kind, sqs: seq<Square>, ev: Square -> PieceEval, acc: PieceAcc)
    requires Mobile(k)
    ensures PieceFold(k, sqs, ev, acc).score == acc.score.Plus(ScoreSum(sqs, ev))
    decreases |sqs|
  {
    if sqs != [] {
      PieceFoldScore(k, sqs[1..], ev, PieceStep(k, ev(sqs[0]), acc));
    }
  }

  /** The loop ORs the attacks of all pieces into attackedSquares[piece]. */
  lemma {:induction false} PieceFoldAttacks(k: Kind, sqs: seq<Square>, ev: Square -> PieceEval, acc: PieceAcc)
    requires Mobile(k)
    ensures PieceFold(k, sqs, ev, acc).attacked == acc.attacked | AttackUnion(sqs, ev)
    decreases |sqs|
  {
    if sqs != [] {
      PieceFoldAttacks(k, sqs[1..], ev, PieceStep(k, ev(sqs[0]), acc));
    }
  }

  /** The loop counts every ring attacker once, adds the weight of the kind
      for each of them, and adds their attacks next to the king: the weight
      gained is always the count gained times the kind's weight. */
  lemma {:induction false} PieceFoldKingAttack(k: Kind, sqs: seq<Square>, ev: Square -> PieceEval, acc: PieceAcc)
    requires Mobile(k)
    ensures PieceFold(k, sqs, ev, acc).count == acc.count + RingAttackers(sqs, ev)
    ensures PieceFold(k, sqs, ev, acc).weight == acc.weight + KingAttackWeight(k) * RingAttackers(sqs, ev)
    ensures PieceFold(k, sqs, ev, acc).adjacent == acc.adjacent + AdjacentSum(sqs, ev)
    decreases |sqs|
  {
    if sqs != [] {
      var e := ev(sqs[0]);
      PieceFoldKingAttack(k, sqs[1..], ev, PieceStep(k, e, acc));
      if e.ringHit && e.adjacent == 0 {
        PopCountZero(e.adjacent);
      }
    }
  }

  /** No more attackers are counted than there are pieces. */
  lemma {:induction false} RingAttackersAtMost(sqs: seq<Square>, ev: Square -> PieceEval)
    ensures RingAttackers(sqs, ev) <= |sqs|
    decreases |sqs|
  {
    if sqs != [] {
      RingAttackersAtMost(sqs[1..], ev);
    }
  }

  /** The evaluator's local arrays: attackedSquares with one entry per
      bitboard index, and the three two-entry counter arrays, all distinct. */
  predicate ArraysOk(attacked: array<bv64>, count: array<int>, weight: array<int>, adjacent: array<int>) {
    attacked.Length == LastBitboard && count.Length == 2 && weight.Length == 2 && adjacent.Length == 2
    && count != weight && count != adjacent && weight != adjacent
    && attacked as object != count && attacked as object != weight && attacked as object != adjacent
  }

  /** The contents of the evaluator's local arrays: attackedSquares, and
      kingAttackersCount, kingAttackersWeight and kingAdjacentZoneAttacksCount
      indexed by colour. */
  datatype Locals = Locals(attacked: seq<bv64>, count: seq<int>, weight: seq<int>, adjacent: seq<int>)
  {
    predicate Sized() {
      |attacked| == LastBitboard && |count| == 2 && |weight| == 2 && |adjacent| == 2
    }

    /** The accumulator of an evalPieces call writing attackedSquares[idx]
        and the counters of colour index i, with the score so far. */
    function AccAt(idx: nat, i: nat, score: SimdScore): PieceAcc
      requires Sized() && idx < LastBitboard && i < 2
    {
      PieceAcc(score, attacked[idx], count[i], weight[i], adjacent[i])
    }

    /** The arrays once that accumulator holds r: only attackedSquares[idx]
        and the counters of colour index i change. */
    function WithAcc(idx: nat, i: nat, r: PieceAcc): (l: Locals)
      requires Sized() && idx < LastBitboard && i < 2
      ensures l.Sized()
      ensures l.AccAt(idx, i, r.score) == r
    {
      Locals(attacked[idx := r.attacked], count[i := r.count], weight[i := r.weight], adjacent[i := r.adjacent])
    }
  }

  function LocalsOf(attackedSquares: array<bv64>, kingAttackersCount: array<int>, kingAttackersWeight: array<int>,
                    kingAdjacentZoneAttacksCount: array<int>): (l: Locals)
    requires ArraysOk(attackedSquares, kingAttackersCount, kingAttackersWeight, kingAdjacentZoneAttacksCount)
    reads attackedSquares, kingAttackersCount, kingAttackersWeight, kingAdjacentZoneAttacksCount
    ensures l.Sized()
  {
    Locals(attackedSquares[..], kingAttackersCount[..], kingAttackersWeight[..], kingAdjacentZoneAttacksCount[..])
  }

  /** Writing the accumulator a position already holds changes nothing. */
  lemma WithOwnAcc(l: Locals, idx: nat, i: nat, score: SimdScore)
    requires l.Sized() && idx < LastBitboard && i < 2
    ensures l.WithAcc(idx, i, l.AccAt(idx, i, score)) == l
  {
    assert l.attacked[idx := l.attacked[idx]] == l.attacked;
    assert l.count[i := l.count[i]] == l.count;
    assert l.weight[i := l.weight[i]] == l.weight;
    assert l.adjacent[i := l.adjacent[i]] == l.adjacent;
  }

  /** A second write of the same accumulator overrides the first. */
  lemma WithAccTwice(l: Locals, idx: nat, i: nat, r: PieceAcc, r': PieceAcc)
    requires l.Sized() && idx < LastBitboard && i < 2
    ensures l.WithAcc(idx, i, r).WithAcc(idx, i, r') == l.WithAcc(idx, i, r')
  {
  }

  /** The environment evalPieces builds for the pieces of colour c from the
      evaluator's local arrays. */
  function EnvOf(p: Position, c: Color, kingRing: ByColor, weakSquares: ByColor, holes: ByColor, attackedSquares: seq<bv64>): PieceEnv
    requires |attackedSquares| == LastBitboard
  {
    var o := c.Opponent();
    PieceEnv(kingRing.Of(o), p.Side(o).king, attackedSquares[BoardIndex(o, Pawn)],
      attackedSquares[BoardIndex(c, Pawn)], weakSquares.Of(o), holes.Of(o))
  }

  /** The accumulator an evalPieces<piece> call ends with when it starts on
      the arrays l: the pieces are folded lowest square first, from a zero
      score, the attack map attackedSquares[piece] and the counters of
      colour c. */
  function PiecesRun(p: Position, mg: Movegen, c: Color, k: Kind,
                     weakSquares: ByColor, holes: ByColor, kingRing: ByColor, l: Locals): PieceAcc
    requires Mobile(k) && l.Sized()
  {
    PieceFold(k, Squares(p.Board(c, k)),
      Evaluator(p, mg, c, k, EnvOf(p, c, kingRing, weakSquares, holes, l.attacked)),
      l.AccAt(BoardIndex(c, k), c.Index(), Zero))
  }

  /** evalPieces<piece>: the pieces of kind k and colour c are popped lowest
      square first; each one ORs its attacks into attackedSquares[piece],
      updates the colour's king-attack counters when it attacks the enemy
      king's ring, and adds its mobility and bonuses to the result. */
  method EvalPieces(p: Position, mg: Movegen, c: Color, k: Kind,
                    weakSquares: ByColor, holes: ByColor, kingRing: ByColor,
                    attackedSquares: array<bv64>,
                    kingAttackersCount: array<int>, kingAttackersWeight: array<int>,
                    kingAdjacentZoneAttacksCount: array<int>)
    returns (res: SimdScore)
    requires Mobile(k)
    requires ArraysOk(attackedSquares, kingAttackersCount, kingAttackersWeight, kingAdjacentZoneAttacksCount)
    modifies attackedSquares, kingAttackersCount, kingAttackersWeight, kingAdjacentZoneAttacksCount
    ensures var l := old(LocalsOf(attackedSquares, kingAttackersCount, kingAttackersWeight, kingAdjacentZoneAttacksCount));
      var r := PiecesRun(p, mg, c, k, weakSquares, holes, kingRing, l);
      && res == r.score
      && LocalsOf(attackedSquares, kingAttackersCount, kingAttackersWeight, kingAdjacentZoneAttacksCount)
         == l.WithAcc(BoardIndex(c, k), c.Index(), r)
  {
    var i := c.Index();
    var idx := BoardIndex(c, k);
    ghost var l0 := LocalsOf(attackedSquares, kingAttackersCount, kingAttackersWeight, kingAdjacentZoneAttacksCount);
    var env := EnvOf(p, c, kingRing, weakSquares, holes, attackedSquares[..]);
    ghost var ev := Evaluator(p, mg, c, k, env);
    ghost var acc := l0.AccAt(idx, i, Zero);
    WithOwnAcc(l0, idx, i, Zero);
    var tempPieces := p.Board(c, k);
    res := Zero;
    while tempPieces != 0
      invariant acc.score == res
      invariant LocalsOf(attackedSquares, kingAttackersCount, kingAttackersWeight, kingAdjacentZoneAttacksCount)
             == l0.WithAcc(idx, i, acc)
      invariant PieceFold(k, Squares(tempPieces), ev, acc) == PieceFold(k, Squares(p.Board(c, k)), ev, l0.AccAt(idx, i, Zero))
      decreases tempPieces
    {
      tempPieces, res, acc := EvalFirstPiece(p, mg, c, k, env, tempPieces, res, idx, i, l0, acc,
        attackedSquares, kingAttackersCount, kingAttackersWeight, kingAdjacentZoneAttacksCount);
    }
  }

  /** One iteration of evalPieces: the lowest piece of pieces is evaluated,
      recorded and popped; acc is the accumulator the arrays hold. */
  method EvalFirstPiece(p: Position, mg: Movegen, c: Color, k: Kind, env: PieceEnv, pieces: bv64, res: SimdScore,
                        idx: nat, i: nat, ghost l0: Locals, ghost acc: PieceAcc, attackedSquares: array<bv64>,
                        kingAttackersCount: array<int>, kingAttackersWeight: array<int>,
                        kingAdjacentZoneAttacksCount: array<int>)
    returns (rest: bv64, res': SimdScore, ghost acc': PieceAcc)
    requires Mobile(k) && pieces != 0 && i < 2 && idx < LastBitboard && l0.Sized()
    requires ArraysOk(attackedSquares, kingAttackersCount, kingAttackersWeight, kingAdjacentZoneAttacksCount)
    requires acc.score == res
    requires LocalsOf(attackedSquares, kingAttackersCount, kingAttackersWeight, kingAdjacentZoneAttacksCount) == l0.WithAcc(idx, i, acc)
    modifies attackedSquares, kingAttackersCount, kingAttackersWeight, kingAdjacentZoneAttacksCount
    ensures rest < pieces && acc'.score == res'
    ensures LocalsOf(attackedSquares, kingAttackersCount, kingAttackersWeight, kingAdjacentZoneAttacksCount) == l0.WithAcc(idx, i, acc')
    ensures PieceFold(k, Squares(rest), Evaluator(p, mg, c, k, env), acc')
         == PieceFold(k, Squares(pieces), Evaluator(p, mg, c, k, env), acc)
  {
    ghost var ev := Evaluator(p, mg, c, k, env);
    var sq := FirstOne(pieces);
    var e := PieceEvalOf(p, mg, c, k, env, sq);
    assert e == ev(sq);
    PopPiece(k, pieces, ev, acc);
    PopDecreases(pieces);
    rest := pieces & (pieces - 1);
    acc' := PieceStep(k, e, acc);
    WithAccTwice(l0, idx, i, acc, acc');
    res' := RecordPiece(k, e, i, idx, res,
      attackedSquares, kingAttackersCount, kingAttackersWeight, kingAdjacentZoneAttacksCount);
  }

  /** The updates of one iteration of evalPieces for the piece evaluated as
      e: its score is added, its attacks are ORed into attackedSquares[idx],
      and its king attack is recorded in the counters of colour index i. */
  method RecordPiece(k: Kind, e: PieceEval, i: nat, idx: nat, res: SimdScore,
                     attackedSquares: array<bv64>,
                     kingAttackersCount: array<int>, kingAttackersWeight: array<int>,
                     kingAdjacentZoneAttacksCount: array<int>)
    returns (res': SimdScore)
    requires Mobile(k) && i < 2 && idx < LastBitboard
    requires ArraysOk(attackedSquares, kingAttackersCount, kingAttackersWeight, kingAdjacentZoneAttacksCount)
    modifies attackedSquares, kingAttackersCount, kingAttackersWeight, kingAdjacentZoneAttacksCount
    ensures var l := old(LocalsOf(attackedSquares, kingAttackersCount, kingAttackersWeight, kingAdjacentZoneAttacksCount));
      var r := PieceStep(k, e, l.AccAt(idx, i, res));
      && res' == r.score
      && LocalsOf(attackedSquares, kingAttackersCount, kingAttackersWeight, kingAdjacentZoneAttacksCount)
         == l.WithAcc(idx, i, r)
  {
    ghost var l := LocalsOf(attackedSquares, kingAttackersCount, kingAttackersWeight, kingAdjacentZoneAttacksCount);
    StepLocals(k, e, l, idx, i, res);
    OrInto(attackedSquares, idx, e.attack, l.attacked);
    RecordKingAttack(k, e, i, kingAttackersCount, kingAttackersWeight, kingAdjacentZoneAttacksCount);
    res' := res.Plus(e.score);
  }

  /** The arrays after one iteration, field by field. */
  lemma StepLocals(k: Kind, e: PieceEval, l: Locals, idx: nat, i: nat, res: SimdScore)
    requires Mobile(k) && l.Sized() && idx < LastBitboard && i < 2
    ensures var r := PieceStep(k, e, l.AccAt(idx, i, res));
      l.WithAcc(idx, i, r) == Locals(
        l.attacked[idx := l.attacked[idx] | e.attack],
        l.count[i := if e.ringHit then l.count[i] + 1 else l.count[i]],
        l.weight[i := if e.ringHit then l.weight[i] + KingAttackWeight(k) else l.weight[i]],
        l.adjacent[i := if e.ringHit && e.adjacent != 0 then l.adjacent[i] + PopCount(e.adjacent) else l.adjacent[i]])
      && r.score == res.Plus(e.score)
  {
  }

  /** attackedSquares[idx] |= attack, on an array holding before. */
  method OrInto(attackedSquares: array<bv64>, idx: nat, attack: bv64, ghost before: seq<bv64>)
    requires idx < attackedSquares.Length && attackedSquares[..] == before
    modifies attackedSquares
    ensures attackedSquares[..] == before[idx := before[idx] | attack]
  {
    attackedSquares[idx] := attackedSquares[idx] | attack;
  }

  /** The counter updates of one iteration for the piece evaluated as e:
      when it attacks the enemy king's ring, it counts as one more attacker
      of colour index i, adds the weight of its kind, and adds its attacks on
      the squares next to the king. */
  method RecordKingAttack(k: Kind, e: PieceEval, i: nat,
                          kingAttackersCount: array<int>, kingAttackersWeight: array<int>,
                          kingAdjacentZoneAttacksCount: array<int>)
    requires Mobile(k) && i < 2
    requires kingAttackersCount.Length == 2 && kingAttackersWeight.Length == 2 && kingAdjacentZoneAttacksCount.Length == 2
    requires kingAttackersCount != kingAttackersWeight && kingAttackersCount != kingAdjacentZoneAttacksCount
    requires kingAttackersWeight != kingAdjacentZoneAttacksCount
    modifies kingAttackersCount, kingAttackersWeight, kingAdjacentZoneAttacksCount
    ensures kingAttackersCount[..] ==
      old(kingAttackersCount[..])[i := if e.ringHit then old(kingAttackersCount[i]) + 1 else old(kingAttackersCount[i])]
    ensures kingAttackersWeight[..] ==
      old(kingAttackersWeight[..])[i := if e.ringHit then old(kingAttackersWeight[i]) + KingAttackWeight(k) else old(kingAttackersWeight[i])]
    ensures kingAdjacentZoneAttacksCount[..] ==
      old(kingAdjacentZoneAttacksCount[..])[i :=
        if e.ringHit && e.adjacent != 0 then old(kingAdjacentZoneAttacksCount[i]) + PopCount(e.adjacent)
        else old(kingAdjacentZoneAttacksCount[i])]
  {
    if e.ringHit {
      kingAttackersCount[i] := kingAttackersCount[i] + 1;
      kingAttackersWeight[i] := kingAttackersWeight[i] + KingAttackWeight(k);
      if e.adjacent != 0 {
        kingAdjacentZoneAttacksCount[i] := kingAdjacentZoneAttacksCount[i] + PopCount(e.adjacent);
      }
    }
  }

  /** The first step of the loop over the squares of a non-empty bitboard. */
  lemma PopPiece(k: Kind, x: bv64, ev: Square -> PieceEval, acc: PieceAcc)
    requires Mobile(k) && x != 0
    ensures PieceFold(k, Squares(x), ev, acc)
         == PieceFold(k, Squares(x & (x - 1)), ev, PieceStep(k, ev(FirstOne(x)), acc))
  {
    var sqs := Squares(x);
    assert sqs[0] == FirstOne(x) && sqs[1..] == Squares(x & (x - 1));
  }
}
