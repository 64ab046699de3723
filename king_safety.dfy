/** King safety: the king zone (ring, shield and far shield) the evaluator
    builds around each king, the pawn-shield bonus, and the attack-unit
    penalty for a king whose zone is under attack. */
module KingSafety {
  import opened Bitboard
  import opened Scores
  import opened Positions
  import opened Wrappers

  // ---------------------------------------------------------------------
  // Constants
  // ---------------------------------------------------------------------

  const KingShieldBonus := SimdScore(1600, 800)
  const KingFarShieldBonus := SimdScore(1000, 400)

  /** KingExposed[square]: how open a white king stands on each square, rank
      by rank from a1; a black king reads it on the mirrored square. */
  const KingExposed: seq<int> :=
    [ 2,  0,  2,  5,  5,  2,  0,  2] +
    [ 2,  2,  4,  8,  8,  4,  2,  2] +
    [ 7, 10, 12, 12, 12, 12, 10,  7] +
    [15, 15, 15, 15, 15, 15, 15, 15] +
    [15, 15, 15, 15, 15, 15, 15, 15] +
    [15, 15, 15, 15, 15, 15, 15, 15] +
    [15, 15, 15, 15, 15, 15, 15, 15] +
    [15, 15, 15, 15, 15, 15, 15, 15]

  /** No entry is negative and none exceeds 15. */
  lemma KingExposedBounds(i: int)
    requires 0 <= i < |KingExposed|
    ensures 0 <= KingExposed[i] <= 15
  {
  }

  // ---------------------------------------------------------------------
  // The king zone
  // ---------------------------------------------------------------------

  /** A king of colour c has a square in front of it unless it stands on
      the last rank for its colour. */
  predicate HasFront(c: Color, k: Square) {
    if c == White then RankOf(k) < 7 else RankOf(k) > 0
  }

  /** k + 8 for white, k - 8 for black. */
  function Front(c: Color, k: Square): Square
    requires HasFront(c, k)
  {
    if c == White then k + 8 else k - 8
  }

  /** kingShield[c]: the squares next to the king. */
  function KingShield(mg: Movegen, k: Square): bv64 {
    mg.kingAttacks(k)
  }

  /** kingRing[c]: the shield, widened by the squares next to the square in
      front of the king when there is one. */
  function KingRing(mg: Movegen, c: Color, k: Square): bv64 {
    if HasFront(c, k) then KingShield(mg, k) | mg.kingAttacks(Front(c, k)) else KingShield(mg, k)
  }

  /** kingFarShield[c]: the ring less the shield and the king's own square. */
  function KingFarShield(mg: Movegen, c: Color, k: Square): bv64 {
    KingRing(mg, c, k) & !(KingShield(mg, k) | Bit(k))
  }

  /** The shield lies within the ring. */
  lemma ShieldInRing(mg: Movegen, c: Color, k: Square)
    ensures SubsetOf(KingShield(mg, k), KingRing(mg, c, k))
  {
  }

  /** The far shield is made of the squares next to the square in front of
      the king that are neither next to the king nor the king's own square:
      a king on its last rank has none. */
  lemma FarShieldMeaning(mg: Movegen, c: Color, k: Square, t: Square)
    ensures IsSet(KingFarShield(mg, c, k), t) <==>
      HasFront(c, k) && IsSet(mg.kingAttacks(Front(c, k)), t) && !IsSet(KingShield(mg, k), t) && t != k
  {
    if HasFront(c, k) {
      FarShieldWithFront(mg, c, k, t);
    } else {
      FarShieldOnLastRank(mg, c, k, t);
    }
  }

  lemma FarShieldWithFront(mg: Movegen, c: Color, k: Square, t: Square)
    requires HasFront(c, k)
    ensures IsSet(KingFarShield(mg, c, k), t) <==>
      IsSet(mg.kingAttacks(Front(c, k)), t) && !IsSet(KingShield(mg, k), t) && t != k
  {
    var shield, front := mg.kingAttacks(k), mg.kingAttacks(Front(c, k));
    assert KingFarShield(mg, c, k) == (shield | front) & !(shield | Bit(k));
    WidenedBits(KingFarShield(mg, c, k), shield, front, k, t);
  }

  lemma FarShieldOnLastRank(mg: Movegen, c: Color, k: Square, t: Square)
    requires !HasFront(c, k)
    ensures !IsSet(KingFarShield(mg, c, k), t)
  {
    var shield := mg.kingAttacks(k);
    assert KingFarShield(mg, c, k) == (shield | 0) & !(shield | Bit(k));
    WidenedBits(KingFarShield(mg, c, k), shield, 0, k, t);
  }

  lemma WidenedBits(far: bv64, s: bv64, f: bv64, k: Square, t: Square)
    requires far == (s | f) & !(s | Bit(k))
    ensures IsSet(far, t) <==> IsSet(f, t) && !IsSet(s, t) && t != k
  {
    BitMeaning(k, t);
  }

  // ---------------------------------------------------------------------
  // The pawn shield
  // ---------------------------------------------------------------------

  /** One pawn-shield term: bonus for each pawn of the set, added only when
      the set is not empty. */
  function ShieldTerm(pawns: bv64, bonus: SimdScore): SimdScore {
    if pawns != 0 then bonus.Times(PopCount(pawns)) else Zero
  }

  /** The emptiness test changes nothing: the term is the bonus times the
      number of pawns ... */
  lemma ShieldTermCounts(pawns: bv64, bonus: SimdScore)
    ensures ShieldTerm(pawns, bonus) == bonus.Times(PopCount(pawns))
  {
    PopCountZero(pawns);
  }

  /** ... so more shield pawns never earn less. */
  lemma ShieldTermMonotone(a: bv64, b: bv64, bonus: SimdScore)
    requires SubsetOf(a, b) && bonus.mg >= 0 && bonus.eg >= 0
    ensures ShieldTerm(a, bonus).mg <= ShieldTerm(b, bonus).mg
    ensures ShieldTerm(a, bonus).eg <= ShieldTerm(b, bonus).eg
  {
    ShieldTermCounts(a, bonus);
    ShieldTermCounts(b, bonus);
    PopCountMono(a, b);
    MulMono(PopCount(a), PopCount(b), bonus.mg);
    MulMono(PopCount(a), PopCount(b), bonus.eg);
  }

  lemma MulMono(x: int, y: int, k: int)
    requires x <= y && k >= 0
    ensures x * k <= y * k
  {
  }

  // ---------------------------------------------------------------------
  // Undefended squares next to the king
  // ---------------------------------------------------------------------

  /** attackedSquares[piece] of one colour, for its pawns, knights, bishops,
      rooks, queens and king. */
  datatype Attacks = Attacks(pawns: bv64, knights: bv64, bishops: bv64, rooks: bv64, queens: bv64, king: bv64)

  /** The squares the pawns and pieces of a colour attack, its king aside. */
  function Defence(a: Attacks): bv64 {
    a.pawns | a.knights | a.bishops | a.rooks | a.queens
  }

  /** A pawn or piece of the colour, its king aside, attacks t. */
  predicate Guards(a: Attacks, t: Square) {
    IsSet(a.pawns, t) || IsSet(a.knights, t) || IsSet(a.bishops, t) || IsSet(a.rooks, t) || IsSet(a.queens, t)
  }

  lemma DefenceMeaning(a: Attacks, t: Square)
    ensures IsSet(Defence(a), t) <==> Guards(a, t)
  {
    var p, n, b, r, q := a.pawns, a.knights, a.bishops, a.rooks, a.queens;
    Or5Meaning(p, n, b, r, q, t);
  }

  lemma Or5Meaning(x1: bv64, x2: bv64, x3: bv64, x4: bv64, x5: bv64, t: Square)
    ensures IsSet(x1 | x2 | x3 | x4 | x5, t) <==>
      IsSet(x1, t) || IsSet(x2, t) || IsSet(x3, t) || IsSet(x4, t) || IsSet(x5, t)
  {
  }

  /** undefendedSquares: the squares next to the defending king that the
      attacker (king included) attacks and no pawn or piece of the defender
      other than its king protects. */
  function Undefended(attacker: Attacks, defender: Attacks): bv64 {
    ((Defence(attacker) | attacker.king) & defender.king) & !Defence(defender)
  }

  lemma UndefendedMeaning(attacker: Attacks, defender: Attacks, t: Square)
    ensures IsSet(Undefended(attacker, defender), t) <==>
      (Guards(attacker, t) || IsSet(attacker.king, t)) && IsSet(defender.king, t) && !Guards(defender, t)
  {
    var x, y, m, d := Defence(attacker), attacker.king, defender.king, Defence(defender);
    ReachMeaning(Undefended(attacker, defender), x, y, m, d, t);
    DefenceMeaning(attacker, t);
    DefenceMeaning(defender, t);
  }

  lemma ReachMeaning(u: bv64, x: bv64, y: bv64, m: bv64, d: bv64, t: Square)
    requires u == ((x | y) & m) & !d
    ensures IsSet(u, t) <==> (IsSet(x, t) || IsSet(y, t)) && IsSet(m, t) && !IsSet(d, t)
  {
  }

  // ---------------------------------------------------------------------
  // Attack units
  // ---------------------------------------------------------------------

  function Min(a: int, b: int): int {
    if a <= b then a else b
  }

  /** attackUnits: min(25, attackers * weight / 2) + 3 * (adjacent attacks +
      undefended squares) + the exposure of the defending king, capped at 99.
      The source's max(0, .) is a no-op on its unsigned value. */
  function AttackUnits(count: int, weight: int, adjacent: int, undefended: bv64, exposed: int): int {
    Min(99, Min(25, (count * weight) / 2) + 3 * (adjacent + PopCount(undefended)) + exposed)
  }

  /** The penalty for a number of attack units: units squared in the
      middlegame, half that in the endgame. */
  function KingDanger(units: int): SimdScore {
    SimdScore(units * units, (units * units) / 2)
  }

  /** With non-negative inputs the units lie between 3 * (adjacent attacks +
      undefended squares), capped at 99, and 99. */
  lemma AttackUnitsBounds(count: int, weight: int, adjacent: int, undefended: bv64, exposed: int)
    requires count >= 0 && weight >= 0 && adjacent >= 0 && exposed >= 0
    ensures Min(99, 3 * (adjacent + PopCount(undefended))) <= AttackUnits(count, weight, adjacent, undefended, exposed) <= 99
  {
    MulNonNeg(count, weight);
  }

  lemma MulNonNeg(x: int, y: int)
    requires x >= 0 && y >= 0
    ensures x * y >= 0
  {
  }

  /** More attackers, more weight, more adjacent attacks, more undefended
      squares or a more exposed king never give fewer units. */
  lemma AttackUnitsMonotone(count: int, weight: int, adjacent: int, undefended: bv64, exposed: int,
                            count': int, weight': int, adjacent': int, undefended': bv64, exposed': int)
    requires 0 <= count <= count' && 0 <= weight <= weight'
    requires adjacent <= adjacent' && exposed <= exposed' && SubsetOf(undefended, undefended')
    ensures AttackUnits(count, weight, adjacent, undefended, exposed)
         <= AttackUnits(count', weight', adjacent', undefended', exposed')
  {
    MulMono(count, count', weight);
    assert count' * weight <= count' * weight' by { MulMono(weight, weight', count'); }
    PopCountMono(undefended, undefended');
  }

  /** Within 0 .. 99 units the penalty grows with the units and stays
      within 9801 in the middlegame and 4900 in the endgame. */
  lemma KingDangerMonotone(u: int, v: int)
    requires 0 <= u <= v <= 99
    ensures 0 <= KingDanger(u).mg <= KingDanger(v).mg <= 9801
    ensures 0 <= KingDanger(u).eg <= KingDanger(v).eg <= 4900
  {
    MulMono(u, v, u);
    MulMono(u, v, v);
    MulMono(v, 99, v);
    MulMono(v, 99, 99);
  }

  /** The king-safety term of an attacking colour: the danger of its units
      when at least two of its pieces attack the enemy king's ring and they
      attack the squares next to the king at least once. */
  function KingAttackTerm(count: int, weight: int, adjacent: int, undefended: bv64, exposed: int): SimdScore {
    if count >= 2 && adjacent != 0 then KingDanger(AttackUnits(count, weight, adjacent, undefended, exposed)) else Zero
  }

  /** With non-negative counters the term is non-zero exactly when the
      source applies it, and it never exceeds (9801, 4900). */
  lemma KingAttackTermMeaning(count: int, weight: int, adjacent: int, undefended: bv64, exposed: int)
    requires count >= 0 && weight >= 0 && adjacent >= 0 && exposed >= 0
    ensures KingAttackTerm(count, weight, adjacent, undefended, exposed) != Zero <==> count >= 2 && adjacent != 0
    ensures 0 <= KingAttackTerm(count, weight, adjacent, undefended, exposed).mg <= 9801
    ensures 0 <= KingAttackTerm(count, weight, adjacent, undefended, exposed).eg <= 4900
  {
    var u := AttackUnits(count, weight, adjacent, undefended, exposed);
    AttackUnitsBounds(count, weight, adjacent, undefended, exposed);
    KingDangerMonotone(0, u);
    if count >= 2 && adjacent != 0 {
      KingDangerMonotone(3, u);
    }
  }

  // ---------------------------------------------------------------------
  // King exposure
  // ---------------------------------------------------------------------

  /** The index the source reads KingExposed at for the defending king: the
      white king's own square, and 64 minus the black king's square. */
  function ExposedIndexAsWritten(defender: Color, k: Square): int {
    if defender == White then k as int else 64 - k as int
  }

  /** The entry read as written; None when the index is past the table. */
  function ExposedAsWritten(defender: Color, k: Square): (r: Option<int>)
    ensures r.None? <==> !(ExposedIndexAsWritten(defender, k) < |KingExposed|)
  {
    var i := ExposedIndexAsWritten(defender, k);
    if i < |KingExposed| then Some(KingExposed[i]) else None
  }

  /** A black king on a1 makes the source read KingExposed[64], one entry
      past the table. */
  lemma ExposedAsWrittenOverruns()
    ensures ExposedAsWritten(Black, 0) == None
  {
  }

  /** On the mirror squares g1 and g8 a white king counts as sheltered (0)
      while a black king counts as exposed (2): the black index is off by
      one from the mirrored square. */
  lemma ExposedAsWrittenAsymmetric()
    ensures Mirror(6) == 62
    ensures ExposedAsWritten(White, 6) == Some(0)
    ensures ExposedAsWritten(Black, Mirror(6)) == Some(2)
  {
  }

  /** The square of the defending king seen from its own side of the board. */
  function RelativeSquare(c: Color, k: Square): Square {
    if c == White then k else Mirror(k)
  }

  /** The exposure of the defending king read at its relative square, as the
      table is laid out for white. */
  function Exposed(defender: Color, k: Square): int {
    KingExposed[RelativeSquare(defender, k)]
  }

  /** Every square has an entry between 0 and 15, and a black king is as
      exposed as a white king on the mirrored square. */
  lemma ExposedMeaning(k: Square)
    ensures 0 <= Exposed(White, k) <= 15 && 0 <= Exposed(Black, k) <= 15
    ensures Exposed(Black, Mirror(k)) == Exposed(White, k)
  {
    KingExposedBounds(k as int);
    KingExposedBounds(Mirror(k) as int);
    assert Mirror(Mirror(k)) == k;
  }
}
