/** Position::eval: the static evaluation of a position. The material table
    may decide the score outright; otherwise the evaluator sums material,
    tempo, the bishop pair, the pawn structure (through the pawn table), the
    pieces, space, the pawn shield and king safety in two lanes, blends the
    lanes by the game phase, and returns the score from the point of view of
    the side to move. */
module Evaluation {
  import opened Bitboard
  import opened Scores
  import opened Positions
  import opened Wrappers
  import opened Material
  import opened PawnStructure
  import opened Pieces
  import opened KingSafety

  const Tempo := SimdScore(1540, 421)
  const BishopPairBonus := SimdScore(5000, 5000)
  const SpaceBonus := SimdScore(100, 0)

  // ---------------------------------------------------------------------
  // The material short cut
  // ---------------------------------------------------------------------

  /** The score the material entry decides, if any: an exact entry decides
      its value, an exact function its score when it accepts the position;
      an additive function, a rejecting exact function and a missing entry
      leave the evaluation to go on. */
  function MaterialShortcut(p: Position, table: map<MaterialKey, MaterialEntry>): Option<Score>
    requires Sound(table)
  {
    var key := MaterialKeyOf(p);
    if key !in table then None
    else
      match table[key]
      case Exact(v) => Some(v)
      case AdditiveFunction(_) => None
      case ExactFunction(_) => KBPKeyReadable(p); EvalKBPvsK(p)
  }

  // ---------------------------------------------------------------------
  // The stages of the evaluation
  // ---------------------------------------------------------------------

  /** The bishop pair counts with two bishops or more, unless there are
      exactly two and they stand on squares of the same colour. */
  predicate HasBishopPair(p: Position, c: Color) {
    var bishops := p.PieceList(c, Bishop);
    |bishops| >= 2 && !(|bishops| == 2 && SquareColor(bishops[0]) == SquareColor(bishops[1]))
  }

  /** Material and piece-square values, the tempo of the side to move and
      the bishop pairs. */
  function Opening(p: Position): SimdScore {
    var res := if p.nextMove == Black then p.material.Minus(Tempo) else p.material.Plus(Tempo);
    var res := if HasBishopPair(p, White) then res.Plus(BishopPairBonus) else res;
    if HasBishopPair(p, Black) then res.Minus(BishopPairBonus) else res
  }

  /** The king zones of both kings. */
  datatype Zone = Zone(ring: ByColor, shield: ByColor, farShield: ByColor)

  function ZoneOf(p: Position, mg: Movegen): Zone {
    var wk, bk := p.white.king, p.black.king;
    Zone(ByColor(KingRing(mg, White, wk), KingRing(mg, Black, bk)),
         ByColor(KingShield(mg, wk), KingShield(mg, bk)),
         ByColor(KingFarShield(mg, White, wk), KingFarShield(mg, Black, bk)))
  }

  /** The evaluator's local arrays when the pieces start: every attack map
      empty but the pawn attacks of the pawn entry, every counter 0. */
  function InitialLocals(e: PawnEntry): (l: Locals)
    ensures l.Sized()
  {
    Locals(seq(LastBitboard, j => 0)[BoardIndex(White, Pawn) := e.pawnAttacks.white][BoardIndex(Black, Pawn) := e.pawnAttacks.black],
      [0, 0], [0, 0], [0, 0])
  }

  /** The evalPieces<piece> call for kind k and colour c on the arrays l. */
  function KindRun(p: Position, mg: Movegen, c: Color, k: Kind, zone: Zone, e: PawnEntry, l: Locals): PieceAcc
    requires Mobile(k) && l.Sized()
  {
    PiecesRun(p, mg, c, k, e.weakSquares, e.holes, zone.ring, l)
  }

  /** The arrays after that call. */
  function KindStep(p: Position, mg: Movegen, c: Color, k: Kind, zone: Zone, e: PawnEntry, l: Locals): (l': Locals)
    requires Mobile(k) && l.Sized()
    ensures l'.Sized()
  {
    l.WithAcc(BoardIndex(c, k), c.Index(), KindRun(p, mg, c, k, zone, e, l))
  }

  /** The four evalPieces calls of one colour: the arrays they leave and
      the score of each call. */
  datatype SideRun = SideRun(locals: Locals, queens: SimdScore, rooks: SimdScore, bishops: SimdScore, knights: SimdScore)

  /** Queens, rooks, bishops and knights of colour c, in that order, each
      call on the arrays the previous one left. */
  function SideRunOf(p: Position, mg: Movegen, c: Color, zone: Zone, e: PawnEntry, l: Locals): (s: SideRun)
    requires l.Sized()
    ensures s.locals.Sized()
  {
    var l1 := KindStep(p, mg, c, Queen, zone, e, l);
    var l2 := KindStep(p, mg, c, Rook, zone, e, l1);
    var l3 := KindStep(p, mg, c, Bishop, zone, e, l2);
    SideRun(KindStep(p, mg, c, Knight, zone, e, l3),
      KindRun(p, mg, c, Queen, zone, e, l).score, KindRun(p, mg, c, Rook, zone, e, l1).score,
      KindRun(p, mg, c, Bishop, zone, e, l2).score, KindRun(p, mg, c, Knight, zone, e, l3).score)
  }

  /** White's piece scores are added, black's subtracted. */
  function AddSide(c: Color, res: SimdScore, s: SideRun): SimdScore {
    if c == White then res.Plus(s.queens).Plus(s.rooks).Plus(s.bishops).Plus(s.knights)
    else res.Minus(s.queens).Minus(s.rooks).Minus(s.bishops).Minus(s.knights)
  }

  /** White's pieces, then black's, then the kings' attacks. */
  datatype PieceStage = PieceStage(white: SideRun, black: SideRun, final: Locals)

  function PieceStageOf(p: Position, mg: Movegen, zone: Zone, e: PawnEntry): (st: PieceStage)
    ensures st.final.Sized()
  {
    var white := SideRunOf(p, mg, White, zone, e, InitialLocals(e));
    var black := SideRunOf(p, mg, Black, zone, e, white.locals);
    PieceStage(white, black, WithKings(black.locals, mg.kingAttacks(p.white.king), mg.kingAttacks(p.black.king)))
  }

  /** The arrays once the kings' attacks are set. */
  function WithKings(l: Locals, white: bv64, black: bv64): (l': Locals)
    requires l.Sized()
    ensures l'.Sized()
  {
    l.(attacked := l.attacked[BoardIndex(White, King) := white][BoardIndex(Black, King) := black])
  }

  /** The attack maps of colour c in the arrays l. */
  function AttacksIn(l: Locals, c: Color): Attacks
    requires l.Sized()
  {
    Attacks(l.attacked[BoardIndex(c, Pawn)], l.attacked[BoardIndex(c, Knight)],
      l.attacked[BoardIndex(c, Bishop)], l.attacked[BoardIndex(c, Rook)],
      l.attacked[BoardIndex(c, Queen)], l.attacked[BoardIndex(c, King)])
  }

  /** The squares behind the pawns of colour c, towards its own first rank,
      pawns included. */
  function FillBehind(c: Color, pawns: bv64): bv64 {
    FillForward(c.Opponent(), pawns)
  }

  /** The space of colour c: the squares on or behind its pawns that no
      enemy pawn, knight, bishop, rook or queen attacks. */
  function Space(c: Color, pawns: bv64, enemy: Attacks): bv64 {
    Unguarded(FillBehind(c, pawns), enemy)
  }

  /** The squares of x no enemy pawn, knight, bishop, rook or queen attacks. */
  function Unguarded(x: bv64, enemy: Attacks): bv64 {
    x & !enemy.pawns & !enemy.knights & !enemy.bishops & !enemy.rooks & !enemy.queens
  }

  /** 100 middlegame units per square of space white has more than black. */
  function SpaceTerm(p: Position, white: Attacks, black: Attacks): SimdScore {
    SpaceBonus.Times(PopCount(Space(White, p.white.pawns, black)) - PopCount(Space(Black, p.black.pawns, white)))
  }

  /** A square is space exactly when it is on or behind a pawn of c on its
      file and no enemy pawn or piece other than the king attacks it. */
  lemma SpaceMeaning(c: Color, pawns: bv64, enemy: Attacks, t: Square)
    ensures IsSet(Space(c, pawns, enemy), t) <==> IsSet(FillBehind(c, pawns), t) && !Guards(enemy, t)
  {
    UnguardedMeaning(FillBehind(c, pawns), enemy, t);
  }

  lemma UnguardedMeaning(x: bv64, enemy: Attacks, t: Square)
    ensures IsSet(Unguarded(x, enemy), t) <==> IsSet(x, t) && !Guards(enemy, t)
  {
    var p, n, b, r, q := enemy.pawns, enemy.knights, enemy.bishops, enemy.rooks, enemy.queens;
    var d := p | n | b | r | q;
    AndNotAll(x, p, n, b, r, q);
    AndNotMeaning(x, d, t);
    Or5Meaning(p, n, b, r, q, t);
  }

  lemma AndNotAll(f: bv64, a: bv64, b: bv64, c: bv64, d: bv64, e: bv64)
    ensures f & !a & !b & !c & !d & !e == f & !(a | b | c | d | e)
  {
  }

  /** The space term only counts in the middlegame, at most 100 units per
      square of the board either way. */
  lemma SpaceTermBounds(p: Position, white: Attacks, black: Attacks)
    ensures SpaceTerm(p, white, black).eg == 0
    ensures -6400 <= SpaceTerm(p, white, black).mg <= 6400
  {
    CountBelowAtMost(Space(White, p.white.pawns, black), 64);
    CountBelowAtMost(Space(Black, p.black.pawns, white), 64);
  }

  /** The pawn-shield terms of colour c, added for white and subtracted for
      black: the shield term first, then the far-shield term. */
  function AddShield(c: Color, res: SimdScore, p: Position, zone: Zone): SimdScore {
    var pawns := p.Board(c, Pawn);
    var near := ShieldTerm(zone.shield.Of(c) & pawns, KingShieldBonus);
    var far := ShieldTerm(zone.farShield.Of(c) & pawns, KingFarShieldBonus);
    if c == White then res.Plus(near).Plus(far) else res.Minus(near).Minus(far)
  }

  /** kingAttackersCount, kingAttackersWeight and
      kingAdjacentZoneAttacksCount of one colour. */
  datatype Counters = Counters(count: int, weight: int, adjacent: int)

  /** The counters of colour c in the arrays l. */
  function CountersIn(l: Locals, c: Color): Counters
    requires l.Sized()
  {
    var i := c.Index();
    Counters(l.count[i], l.weight[i], l.adjacent[i])
  }

  /** The king-safety term of the attacks of colour c on the enemy king,
      from the counters its pieces left, the undefended squares next to the
      enemy king and the enemy king's exposure. */
  function SideAttack(k: Counters, attacker: Attacks, defender: Attacks, exposure: int): SimdScore {
    KingAttackTerm(k.count, k.weight, k.adjacent, Undefended(attacker, defender), exposure)
  }

  /** White's king-safety term against the black king, for a given exposure
      of the black king. */
  function WhiteAttack(p: Position, mg: Movegen, zone: Zone, e: PawnEntry, exposure: int): SimdScore {
    var st := PieceStageOf(p, mg, zone, e);
    SideAttack(CountersIn(st.final, White), AttacksIn(st.final, White), AttacksIn(st.final, Black), exposure)
  }

  /** White's attack units against the black king before squaring. */
  function WhiteAttackUnits(p: Position, mg: Movegen, zone: Zone, e: PawnEntry, exposure: int): int {
    var st := PieceStageOf(p, mg, zone, e);
    var k := CountersIn(st.final, White);
    AttackUnits(k.count, k.weight, k.adjacent, Undefended(AttacksIn(st.final, White), AttacksIn(st.final, Black)), exposure)
  }

  /** White's king-attack term applies: two attackers or more and at least
      one attack next to the black king. */
  predicate WhiteAttackFires(p: Position, mg: Movegen, zone: Zone, e: PawnEntry) {
    var k := CountersIn(PieceStageOf(p, mg, zone, e).final, White);
    k.count >= 2 && k.adjacent != 0
  }

  /** Everything after the pawn score: pieces, space, pawn shield and king
      safety, added to res, with the black king's exposure given. */
  function PositionalWith(p: Position, mg: Movegen, zone: Zone, e: PawnEntry, res: SimdScore, blackExposure: int): SimdScore {
    var st := PieceStageOf(p, mg, zone, e);
    var wa, ba := AttacksIn(st.final, White), AttacksIn(st.final, Black);
    var res := AddSide(Black, AddSide(White, res, st.white), st.black);
    var res := res.Plus(SpaceTerm(p, wa, ba));
    var res := AddShield(Black, AddShield(White, res, p, zone), p, zone);
    res.Plus(WhiteAttack(p, mg, zone, e, blackExposure))
       .Minus(SideAttack(CountersIn(st.final, Black), ba, wa, Exposed(White, p.white.king)))
  }

  /** The positional part with the black king's exposure read at its
      mirrored square, the corrected lookup. */
  function Positional(p: Position, mg: Movegen, zone: Zone, e: PawnEntry, res: SimdScore): SimdScore {
    PositionalWith(p, mg, zone, e, res, Exposed(Black, p.black.king))
  }

  /** The two lanes before the phase blend. */
  function Lanes(p: Position, mg: Movegen): SimdScore {
    var e := EntryOf(PawnKeyOf(p));
    Positional(p, mg, ZoneOf(p, mg), e, Opening(p).Plus(e.res))
  }

  /** The phase blend of the lanes, from the point of view of the side to
      move. */
  function Blend(p: Position, lanes: SimdScore): Score {
    var s := Interpolate(lanes, p.gamePhase);
    if p.nextMove == Black then -s else s
  }

  /** The evaluation: the material short cut, else the blend of the lanes. */
  function EvalOf(p: Position, mg: Movegen, table: map<MaterialKey, MaterialEntry>): Score
    requires Sound(table)
  {
    match MaterialShortcut(p, table)
    case Some(v) => v
    case None => Blend(p, Lanes(p, mg))
  }

  // ---------------------------------------------------------------------
  // What the evaluation promises
  // ---------------------------------------------------------------------

  /** An exact entry for the position's material is the evaluation. */
  lemma ExactEntryDecides(p: Position, mg: Movegen, table: map<MaterialKey, MaterialEntry>)
    requires Sound(table) && MaterialKeyOf(p) in table && table[MaterialKeyOf(p)].Exact?
    ensures EvalOf(p, mg, table) == table[MaterialKeyOf(p)].val
  {
  }

  /** An entry pointing to evalKBPvsK decides the evaluation (a draw) only when
      the function accepts the position; otherwise the full evaluation runs. */
  lemma ExactFunctionEntry(p: Position, mg: Movegen, table: map<MaterialKey, MaterialEntry>)
    requires Sound(table) && MaterialKeyOf(p) in table && table[MaterialKeyOf(p)].ExactFunction?
    ensures KBPReadable(p)
    ensures EvalKBPvsK(p).Some? ==> EvalOf(p, mg, table) == 0
    ensures EvalKBPvsK(p).None? ==> EvalOf(p, mg, table) == Blend(p, Lanes(p, mg))
  {
    KBPKeyReadable(p);
    assert MaterialShortcut(p, table) == EvalKBPvsK(p);
    EvalKBPvsKMeaning(p);
  }

  /** An additive entry or a missing key leaves the full evaluation to run. */
  lemma NoShortcut(p: Position, mg: Movegen, table: map<MaterialKey, MaterialEntry>)
    requires Sound(table)
    requires MaterialKeyOf(p) !in table || table[MaterialKeyOf(p)].AdditiveFunction?
    ensures EvalOf(p, mg, table) == Blend(p, Lanes(p, mg))
  {
    assert MaterialShortcut(p, table).None?;
  }

  /** With the table initMaterialKeys builds, every recognised balance is a
      draw, except a king, bishop and pawn against king that evalKBPvsK
      rejects, which is evaluated in full. */
  lemma InitialTableEval(p: Position, mg: Movegen)
    requires MaterialKeyOf(p) in InitialTable()
    ensures Sound(InitialTable())
    ensures EvalOf(p, mg, InitialTable()) == 0
         || ((MaterialKeyOf(p) == KBPvK || MaterialKeyOf(p) == KvKBP)
             && EvalOf(p, mg, InitialTable()) == Blend(p, Lanes(p, mg)))
  {
    InitialTableEntries();
    var key := MaterialKeyOf(p);
    if key == KBPvK || key == KvKBP {
      ExactFunctionEntry(p, mg, InitialTable());
    } else {
      ExactEntryDecides(p, mg, InitialTable());
    }
  }

  /** In the opening (phase 0) the score is the middlegame lane ... */
  lemma BlendOpening(p: Position, lanes: SimdScore)
    requires p.gamePhase == 0
    ensures Blend(p, lanes) == if p.nextMove == White then lanes.mg else -lanes.mg
  {
    InterpolateOpening(lanes);
  }

  /** ... and in a bare endgame (the full phase) the endgame lane, both from
      the point of view of the side to move. */
  lemma BlendEndgame(p: Position, lanes: SimdScore)
    requires p.gamePhase == PhaseRange
    ensures Blend(p, lanes) == if p.nextMove == White then lanes.eg else -lanes.eg
  {
    InterpolateEndgame(lanes);
  }

  /** The side to move changes only the sign of the blended score, and the
      score white sees lies between the two lanes. */
  lemma BlendSideToMove(p: Position, lanes: SimdScore)
    requires 0 <= p.gamePhase <= PhaseRange
    ensures Blend(p.(nextMove := Black), lanes) == -Blend(p.(nextMove := White), lanes)
    ensures var w := Blend(p.(nextMove := White), lanes);
      (lanes.mg <= lanes.eg ==> lanes.mg <= w <= lanes.eg)
      && (lanes.eg <= lanes.mg ==> lanes.eg <= w <= lanes.mg)
  {
    InterpolateBetween(lanes, p.gamePhase);
  }

  /** The tempo goes to the side to move: the two opening lanes differ by
      twice the tempo bonus between white and black to move. */
  lemma OpeningTempo(p: Position)
    ensures Opening(p.(nextMove := White)).mg - Opening(p.(nextMove := Black)).mg == 2 * Tempo.mg
    ensures Opening(p.(nextMove := White)).eg - Opening(p.(nextMove := Black)).eg == 2 * Tempo.eg
  {
    var w, b := p.(nextMove := White), p.(nextMove := Black);
    BishopPairOfArmies(w, b, White);
    BishopPairOfArmies(w, b, Black);
  }

  /** The bishop pair depends on the armies only. */
  lemma BishopPairOfArmies(p: Position, q: Position, c: Color)
    requires p.white == q.white && p.black == q.black
    ensures HasBishopPair(p, c) == HasBishopPair(q, c)
  {
    assert p.Side(c) == q.Side(c);
  }

  /** 1 when colour c has the bishop pair in p but not in q, -1 for the
      reverse, 0 when both or neither have it. */
  function PairGain(p: Position, q: Position, c: Color): int {
    (if HasBishopPair(p, c) then 1 else 0) - (if HasBishopPair(q, c) then 1 else 0)
  }

  /** The bishop pair is worth its bonus to its owner: between two positions
      with the same material and side to move, the opening lanes differ by
      the bonus once for every pair white gains and every pair black loses. */
  lemma OpeningBishopPair(p: Position, q: Position)
    requires p.material == q.material && p.nextMove == q.nextMove
    ensures Opening(p).mg - Opening(q).mg == (PairGain(p, q, White) - PairGain(p, q, Black)) * BishopPairBonus.mg
    ensures Opening(p).eg - Opening(q).eg == (PairGain(p, q, White) - PairGain(p, q, Black)) * BishopPairBonus.eg
    ensures HasBishopPair(p, White) && !HasBishopPair(q, White) && HasBishopPair(p, Black) == HasBishopPair(q, Black)
            ==> Opening(p) == Opening(q).Plus(BishopPairBonus)
    ensures HasBishopPair(p, Black) && !HasBishopPair(q, Black) && HasBishopPair(p, White) == HasBishopPair(q, White)
            ==> Opening(p) == Opening(q).Minus(BishopPairBonus)
  {
  }

  // ---------------------------------------------------------------------
  // The black king's exposure as the source reads it
  // ---------------------------------------------------------------------

  /** The lanes with white's attack reading the black king's exposure at
      KingExposed[64 - sq], as the source does; None when white's attack
      term applies and that index is past the table (a black king on a1). */
  function LanesAsWritten(p: Position, mg: Movegen): Option<SimdScore> {
    var e := EntryOf(PawnKeyOf(p));
    var zone := ZoneOf(p, mg);
    var x := ExposedAsWritten(Black, p.black.king);
    if x.None? && WhiteAttackFires(p, mg, zone, e) then None
    else Some(PositionalWith(p, mg, zone, e, Opening(p).Plus(e.res), if x.Some? then x.value else 0))
  }

  /** The evaluation as written; None where it reads past KingExposed. */
  function EvalAsWritten(p: Position, mg: Movegen, table: map<MaterialKey, MaterialEntry>): Option<Score>
    requires Sound(table)
  {
    match MaterialShortcut(p, table)
    case Some(v) => Some(v)
    case None =>
      var lanes := LanesAsWritten(p, mg);
      if lanes.Some? then Some(Blend(p, lanes.value)) else None
  }

  /** The black king's exposure enters the lanes only through white's
      attack term, and not at all when that term does not apply. */
  lemma ExposureDelta(p: Position, mg: Movegen, zone: Zone, e: PawnEntry, res: SimdScore, x: int, y: int)
    ensures PositionalWith(p, mg, zone, e, res, x).mg - PositionalWith(p, mg, zone, e, res, y).mg
         == WhiteAttack(p, mg, zone, e, x).mg - WhiteAttack(p, mg, zone, e, y).mg
    ensures PositionalWith(p, mg, zone, e, res, x).eg - PositionalWith(p, mg, zone, e, res, y).eg
         == WhiteAttack(p, mg, zone, e, x).eg - WhiteAttack(p, mg, zone, e, y).eg
    ensures !WhiteAttackFires(p, mg, zone, e) ==> PositionalWith(p, mg, zone, e, res, x) == PositionalWith(p, mg, zone, e, res, y)
  {
  }

  /** Where the two lookups agree, or white's attack term does not apply,
      the evaluation as written is the corrected evaluation. */
  lemma EvalAsWrittenAgrees(p: Position, mg: Movegen, table: map<MaterialKey, MaterialEntry>)
    requires Sound(table)
    requires ExposedAsWritten(Black, p.black.king) == Some(Exposed(Black, p.black.king))
             || !WhiteAttackFires(p, mg, ZoneOf(p, mg), EntryOf(PawnKeyOf(p)))
    ensures EvalAsWritten(p, mg, table) == Some(EvalOf(p, mg, table))
  {
    var e := EntryOf(PawnKeyOf(p));
    var x := ExposedAsWritten(Black, p.black.king);
    ExposureDelta(p, mg, ZoneOf(p, mg), e, Opening(p).Plus(e.res), if x.Some? then x.value else 0, Exposed(Black, p.black.king));
  }

  /** With a black king on a1 under white's attack, and no material short
      cut, the source reads KingExposed[64], past the table. */
  lemma EvalAsWrittenOverruns(p: Position, mg: Movegen, table: map<MaterialKey, MaterialEntry>)
    requires Sound(table) && MaterialShortcut(p, table).None?
    requires p.black.king == 0 && WhiteAttackFires(p, mg, ZoneOf(p, mg), EntryOf(PawnKeyOf(p)))
    ensures EvalAsWritten(p, mg, table) == None
  {
    ExposedAsWrittenOverruns();
  }

  /** Two more units of exposure, below the cap, give a larger penalty. */
  lemma ExposureRaisesAttack(p: Position, mg: Movegen, zone: Zone, e: PawnEntry, res: SimdScore)
    requires WhiteAttackFires(p, mg, zone, e)
    requires 0 <= WhiteAttackUnits(p, mg, zone, e, 0) <= 97
    ensures PositionalWith(p, mg, zone, e, res, 2).mg > PositionalWith(p, mg, zone, e, res, 0).mg
  {
    var st := PieceStageOf(p, mg, zone, e);
    var k := CountersIn(st.final, White);
    var und := Undefended(AttacksIn(st.final, White), AttacksIn(st.final, Black));
    KingAttackTermShift(k.count, k.weight, k.adjacent, und);
    ExposureDelta(p, mg, zone, e, res, 2, 0);
  }

  lemma KingAttackTermShift(count: int, weight: int, adjacent: int, und: bv64)
    requires count >= 2 && adjacent != 0
    requires 0 <= AttackUnits(count, weight, adjacent, und, 0) <= 97
    ensures KingAttackTerm(count, weight, adjacent, und, 2).mg > KingAttackTerm(count, weight, adjacent, und, 0).mg
  {
    var u := AttackUnits(count, weight, adjacent, und, 0);
    assert AttackUnits(count, weight, adjacent, und, 2) == u + 2;
    assert (u + 2) * (u + 2) == u * u + 4 * u + 4;
  }

  /** With a black king on g8 under white's attack, the source counts two
      attack units more than the corrected lookup, so its middlegame lane is
      larger unless the units are already capped. */
  lemma AsWrittenG8Differs(p: Position, mg: Movegen)
    requires p.black.king == 62
    requires WhiteAttackFires(p, mg, ZoneOf(p, mg), EntryOf(PawnKeyOf(p)))
    requires 0 <= WhiteAttackUnits(p, mg, ZoneOf(p, mg), EntryOf(PawnKeyOf(p)), 0) <= 97
    ensures LanesAsWritten(p, mg).Some?
    ensures LanesAsWritten(p, mg).value.mg > Lanes(p, mg).mg
  {
    var e := EntryOf(PawnKeyOf(p));
    ExposedAsWrittenAsymmetric();
    assert Exposed(Black, 62) == 0;
    ExposureRaisesAttack(p, mg, ZoneOf(p, mg), e, Opening(p).Plus(e.res));
  }

  // ---------------------------------------------------------------------
  // The evaluator
  // ---------------------------------------------------------------------

  /** The four evalPieces calls of colour c: the score of each call is
      added for white and subtracted for black. */
  method EvalSide(p: Position, mg: Movegen, c: Color, zone: Zone, e: PawnEntry, res: SimdScore,
                  attackedSquares: array<bv64>,
                  kingAttackersCount: array<int>, kingAttackersWeight: array<int>,
                  kingAdjacentZoneAttacksCount: array<int>)
    returns (res': SimdScore)
    requires ArraysOk(attackedSquares, kingAttackersCount, kingAttackersWeight, kingAdjacentZoneAttacksCount)
    modifies attackedSquares, kingAttackersCount, kingAttackersWeight, kingAdjacentZoneAttacksCount
    ensures var s := SideRunOf(p, mg, c, zone, e,
                       old(LocalsOf(attackedSquares, kingAttackersCount, kingAttackersWeight, kingAdjacentZoneAttacksCount)));
      && res' == AddSide(c, res, s)
      && LocalsOf(attackedSquares, kingAttackersCount, kingAttackersWeight, kingAdjacentZoneAttacksCount) == s.locals
  {
    var queens := EvalPieces(p, mg, c, Queen, e.weakSquares, e.holes, zone.ring,
      attackedSquares, kingAttackersCount, kingAttackersWeight, kingAdjacentZoneAttacksCount);
    var rooks := EvalPieces(p, mg, c, Rook, e.weakSquares, e.holes, zone.ring,
      attackedSquares, kingAttackersCount, kingAttackersWeight, kingAdjacentZoneAttacksCount);
    var bishops := EvalPieces(p, mg, c, Bishop, e.weakSquares, e.holes, zone.ring,
      attackedSquares, kingAttackersCount, kingAttackersWeight, kingAdjacentZoneAttacksCount);
    var knights := EvalPieces(p, mg, c, Knight, e.weakSquares, e.holes, zone.ring,
      attackedSquares, kingAttackersCount, kingAttackersWeight, kingAdjacentZoneAttacksCount);
    if c == White {
      res' := res.Plus(queens).Plus(rooks).Plus(bishops).Plus(knights);
    } else {
      res' := res.Minus(queens).Minus(rooks).Minus(bishops).Minus(knights);
    }
  }

  /** The evalPieces calls of both colours on the evaluator's local
      attackedSquares array and king-attack counters, then the kings'
      attacks: the attack maps and counters the later terms read. */
  method EvalPieceSides(p: Position, mg: Movegen, zone: Zone, e: PawnEntry, res: SimdScore)
    returns (res': SimdScore, wa: Attacks, ba: Attacks, wc: Counters, bc: Counters)
    ensures var st := PieceStageOf(p, mg, zone, e);
      && res' == AddSide(Black, AddSide(White, res, st.white), st.black)
      && wa == AttacksIn(st.final, White) && ba == AttacksIn(st.final, Black)
      && wc == CountersIn(st.final, White) && bc == CountersIn(st.final, Black)
  {
    var attackedSquares, kingAttackersCount, kingAttackersWeight, kingAdjacentZoneAttacksCount := NewLocals(e);
    res' := EvalSide(p, mg, White, zone, e, res,
      attackedSquares, kingAttackersCount, kingAttackersWeight, kingAdjacentZoneAttacksCount);
    res' := EvalSide(p, mg, Black, zone, e, res',
      attackedSquares, kingAttackersCount, kingAttackersWeight, kingAdjacentZoneAttacksCount);

    SetKings(attackedSquares, mg.kingAttacks(p.white.king), mg.kingAttacks(p.black.king));
    var l := LocalsOf(attackedSquares, kingAttackersCount, kingAttackersWeight, kingAdjacentZoneAttacksCount);
    wa, ba := AttacksIn(l, White), AttacksIn(l, Black);
    wc, bc := CountersIn(l, White), CountersIn(l, Black);
  }

  /** The evaluator's local arrays, zeroed, with the pawn attacks of the
      pawn entry in attackedSquares. */
  method NewLocals(e: PawnEntry)
    returns (attackedSquares: array<bv64>, kingAttackersCount: array<int>, kingAttackersWeight: array<int>,
             kingAdjacentZoneAttacksCount: array<int>)
    ensures fresh(attackedSquares) && fresh(kingAttackersCount) && fresh(kingAttackersWeight)
    ensures fresh(kingAdjacentZoneAttacksCount)
    ensures ArraysOk(attackedSquares, kingAttackersCount, kingAttackersWeight, kingAdjacentZoneAttacksCount)
    ensures LocalsOf(attackedSquares, kingAttackersCount, kingAttackersWeight, kingAdjacentZoneAttacksCount) == InitialLocals(e)
  {
    attackedSquares := new bv64[LastBitboard](_ => 0);
    kingAttackersCount := new int[2](_ => 0);
    kingAttackersWeight := new int[2](_ => 0);
    kingAdjacentZoneAttacksCount := new int[2](_ => 0);
    attackedSquares[BoardIndex(White, Pawn)] := e.pawnAttacks.white;
    attackedSquares[BoardIndex(Black, Pawn)] := e.pawnAttacks.black;
  }

  /** attackedSquares[whiteKing] and attackedSquares[blackKing] are set. */
  method SetKings(attackedSquares: array<bv64>, white: bv64, black: bv64)
    requires attackedSquares.Length == LastBitboard
    modifies attackedSquares
    ensures attackedSquares[..] == old(attackedSquares[..])[BoardIndex(White, King) := white][BoardIndex(Black, King) := black]
  {
    attackedSquares[BoardIndex(White, King)] := white;
    attackedSquares[BoardIndex(Black, King)] := black;
  }

  /** The pieces, space, pawn-shield and king-safety part of the evaluator. */
  method EvalPositional(p: Position, mg: Movegen, zone: Zone, e: PawnEntry, res: SimdScore) returns (res': SimdScore)
    ensures res' == Positional(p, mg, zone, e, res)
  {
    var wa, ba, wc, bc;
    res', wa, ba, wc, bc := EvalPieceSides(p, mg, zone, e, res);

    // space, then the pawn shields of both kings
    res' := res'.Plus(SpaceTerm(p, wa, ba));
    res' := AddShield(White, res', p, zone);
    res' := AddShield(Black, res', p, zone);

    // king safety
    res' := res'.Plus(SideAttack(wc, wa, ba, Exposed(Black, p.black.king)));
    res' := res'.Minus(SideAttack(bc, ba, wa, Exposed(White, p.white.king)));
  }

  /** Material, tempo and the bishop pairs. */
  method EvalOpening(p: Position) returns (res: SimdScore)
    ensures res == Opening(p)
  {
    res := p.material;
    if p.nextMove == Black {
      res := res.Minus(Tempo);
    } else {
      res := res.Plus(Tempo);
    }
    if HasBishopPair(p, White) {
      res := res.Plus(BishopPairBonus);
    }
    if HasBishopPair(p, Black) {
      res := res.Minus(BishopPairBonus);
    }
  }

  /** The pawn stage: a hit in a valid pawn table returns the entry a miss
      computes, and a miss computes it and stores it, keeping the table
      valid. */
  method ProbePawns(p: Position, pawnTable: PawnTable) returns (entry: PawnEntry)
    requires PawnsOnPawnRanks(p) && pawnTable.Valid()
    modifies pawnTable
    ensures pawnTable.Valid()
    ensures entry == EntryOf(PawnKeyOf(p))
    ensures pawnTable.entries ==
      if PawnKeyOf(p) in old(pawnTable.entries) then old(pawnTable.entries)
      else old(pawnTable.entries)[PawnKeyOf(p) := EntryOf(PawnKeyOf(p))]
  {
    var key := PawnKeyOf(p);
    var probe := pawnTable.Probe(key);
    if probe.Some? {
      ProbeHit(pawnTable, key);
      entry := probe.value;
    } else {
      entry := ComputePawnEntry(p);
      InsertKeepsValid(pawnTable.entries, key);
      pawnTable.Insert(key, entry);
    }
  }

  /** The material stage: the entry of the material key decides the score,
      or lets the evaluation go on. */
  method ProbeMaterial(p: Position, materialTable: MaterialTable) returns (r: Option<Score>)
    requires Sound(materialTable.entries)
    ensures r == MaterialShortcut(p, materialTable.entries)
  {
    var materialData := materialTable.GetMaterialData(MaterialKeyOf(p));
    r := None;
    if materialData.Some? {
      match materialData.value
      case Exact(v) =>
        r := Some(v);
      case AdditiveFunction(_) =>
      case ExactFunction(_) =>
        KBPKeyReadable(p);
        r := EvalKBPvsK(p);
    }
  }

  /** Position::eval. A hit in the pawn table gives the same score as a miss,
      and a miss stores the entry of the pawn structure. */
  method Eval(p: Position, mg: Movegen, materialTable: MaterialTable, pawnTable: PawnTable) returns (score: Score)
    requires Sound(materialTable.entries) && PawnsOnPawnRanks(p) && pawnTable.Valid()
    modifies pawnTable
    ensures pawnTable.Valid()
    ensures score == EvalOf(p, mg, materialTable.entries)
    ensures pawnTable.entries ==
      if MaterialShortcut(p, materialTable.entries).Some? || PawnKeyOf(p) in old(pawnTable.entries) then old(pawnTable.entries)
      else old(pawnTable.entries)[PawnKeyOf(p) := EntryOf(PawnKeyOf(p))]
  {
    var shortcut := ProbeMaterial(p, materialTable);
    if shortcut.Some? {
      return shortcut.value;
    }
    var res := EvalLanes(p, mg, pawnTable);
    score := Finalize(p, res);
  }

  /** The phase blend of the lanes, negated when black is to move. */
  method Finalize(p: Position, res: SimdScore) returns (score: Score)
    ensures score == Blend(p, res)
  {
    var s := Interpolate(res, p.gamePhase);
    if p.nextMove == Black {
      score := -s;
    } else {
      score := s;
    }
  }

  /** The evaluation after the material stage: the lanes of the opening
      terms, the pawn entry and the positional terms. */
  method EvalLanes(p: Position, mg: Movegen, pawnTable: PawnTable) returns (res: SimdScore)
    requires PawnsOnPawnRanks(p) && pawnTable.Valid()
    modifies pawnTable
    ensures pawnTable.Valid()
    ensures res == Lanes(p, mg)
    ensures pawnTable.entries ==
      if PawnKeyOf(p) in old(pawnTable.entries) then old(pawnTable.entries)
      else old(pawnTable.entries)[PawnKeyOf(p) := EntryOf(PawnKeyOf(p))]
  {
    var zone := ZoneOf(p, mg);
    res := EvalOpening(p);
    var entry := ProbePawns(p, pawnTable);
    res := res.Plus(entry.res);
    res := EvalPositional(p, mg, zone, entry, res);
  }
}
