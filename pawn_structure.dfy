/** The pawn structure of a position: the pawn loops of the evaluator's
    pawn-table miss branch, the pawn attack maps, the weak squares and holes
    derived from them, and the pawn hash table that caches all of it. */
module PawnStructure {
  import opened Bitboard
  import opened Scores
  import opened Positions
  import opened PawnWalk
  import opened Pawns
  import opened Wrappers

  // ---------------------------------------------------------------------
  // The pawn loops
  // ---------------------------------------------------------------------

  /** What the pawn loops accumulate: pawnResult, weakPawns and passedPawns. */
  datatype PawnAcc = PawnAcc(score: SimdScore, weak: bv64, passed: bv64)

  /** What the evaluation of one pawn contributes: its score, whether it is
      weak and whether it counts as passed. */
  datatype PawnEval = PawnEval(score: SimdScore, weak: bool, passed: bool)

  /** The pawns of p lie on the second to seventh ranks. */
  predicate OnPawnRanks(x: bv64) {
    SubsetOf(x, !(Rank1 | Rank8))
  }

  /** Every square of a list is a pawn square. */
  predicate AllPawnSquares(sqs: seq<Square>) {
    forall i :: 0 <= i < |sqs| ==> PawnSquare(sqs[i])
  }

  /** The evaluation of a pawn of colour c on any square, against the pawns
      ours and theirs. A square off the pawn ranks never holds a pawn and
      contributes nothing. */
  function Evaluator(c: Color, ours: bv64, theirs: bv64): Square -> PawnEval {
    (sq: Square) =>
      if PawnSquare(sq) then
        PawnEval(PawnScore(c, sq, ours, theirs), Weak(c, sq, ours, theirs), CountsAsPassed(c, sq, ours, theirs))
      else PawnEval(Zero, false, false)
  }

  /** One iteration of a pawn loop with the evaluation e of the pawn on sq:
      white adds its score to pawnResult, black subtracts it, and the square
      joins weakPawns (passedPawns) when the pawn is weak (counts as passed). */
  function PawnStep(c: Color, sq: Square, e: PawnEval, acc: PawnAcc): PawnAcc {
    PawnAcc(
      if c == White then acc.score.Plus(e.score) else acc.score.Minus(e.score),
      AddIf(acc.weak, e.weak, sq),
      AddIf(acc.passed, e.passed, sq))
  }

  /** The pawn loop over the squares sqs, in that order, from acc. */
  function PawnFold(c: Color, sqs: seq<Square>, ev: Square -> PawnEval, acc: PawnAcc): PawnAcc
    decreases |sqs|
  {
    if sqs == [] then acc
    else PawnFold(c, sqs[1..], ev, PawnStep(c, sqs[0], ev(sqs[0]), acc))
  }

  /** The pawns of colour c are evaluated one by one, lowest square first,
      each evaluation updating pawnResult, weakPawns and passedPawns. */
  method EvalPawnsOf(p: Position, c: Color, acc: PawnAcc) returns (r: PawnAcc)
    requires PawnsOnPawnRanks(p)
    ensures r == PawnFold(c, Squares(p.Board(c, Pawn)), Evaluator(c, p.Board(c, Pawn), p.Board(c.Opponent(), Pawn)), acc)
  {
    var all := p.Board(c, Pawn);
    ghost var ev := Evaluator(c, all, p.Board(c.Opponent(), Pawn));
    ListedOnPawnRanks(p, c, all);
    var pawns := all;
    r := acc;
    while pawns != 0
      invariant AllPawnSquares(Squares(pawns))
      invariant PawnFold(c, Squares(pawns), ev, r) == PawnFold(c, Squares(all), ev, acc)
      decreases pawns
    {
      pawns, r := EvalFirstPawn(p, c, pawns, r);
    }
  }

  /** One iteration of the loop: the lowest pawn of pawns is evaluated and
      popped. */
  method EvalFirstPawn(p: Position, c: Color, pawns: bv64, r: PawnAcc) returns (rest: bv64, next: PawnAcc)
    requires PawnsOnPawnRanks(p) && pawns != 0 && AllPawnSquares(Squares(pawns))
    ensures rest == pawns & (pawns - 1) && rest < pawns && AllPawnSquares(Squares(rest))
    ensures PawnFold(c, Squares(rest), Evaluator(c, p.Board(c, Pawn), p.Board(c.Opponent(), Pawn)), next)
         == PawnFold(c, Squares(pawns), Evaluator(c, p.Board(c, Pawn), p.Board(c.Opponent(), Pawn)), r)
  {
    ghost var ev := Evaluator(c, p.Board(c, Pawn), p.Board(c.Opponent(), Pawn));
    var sq := FirstOne(pawns);
    rest := pawns & (pawns - 1);
    PopDecreases(pawns);
    PopFold(c, pawns, ev, r);
    var score, weak, passed := EvalPawn(p, c, sq, r.weak, r.passed);
    next := PawnAcc(if c == White then r.score.Plus(score) else r.score.Minus(score), weak, passed);
    EvaluatorAt(c, p.Board(c, Pawn), p.Board(c.Opponent(), Pawn), sq);
  }

  /** The evaluator on a pawn square. */
  lemma EvaluatorAt(c: Color, ours: bv64, theirs: bv64, sq: Square)
    requires PawnSquare(sq)
    ensures Evaluator(c, ours, theirs)(sq)
         == PawnEval(PawnScore(c, sq, ours, theirs), Weak(c, sq, ours, theirs), CountsAsPassed(c, sq, ours, theirs))
  {
  }

  /** The first step of the loop over the squares of a non-empty bitboard. */
  lemma PopFold(c: Color, x: bv64, ev: Square -> PawnEval, acc: PawnAcc)
    requires x != 0 && AllPawnSquares(Squares(x))
    ensures PawnSquare(FirstOne(x)) && AllPawnSquares(Squares(x & (x - 1)))
    ensures PawnFold(c, Squares(x), ev, acc)
         == PawnFold(c, Squares(x & (x - 1)), ev, PawnStep(c, FirstOne(x), ev(FirstOne(x)), acc))
  {
    var sqs := Squares(x);
    assert sqs[0] == FirstOne(x) && sqs[1..] == Squares(x & (x - 1));
  }

  lemma SubsetTrans(a: bv64, b: bv64, c: bv64)
    requires SubsetOf(a, b) && SubsetOf(b, c)
    ensures SubsetOf(a, c)
  {
  }

  /** The squares of a set of pawns of a position are pawn squares. */
  lemma ListedOnPawnRanks(p: Position, c: Color, x: bv64)
    requires PawnsOnPawnRanks(p) && x == p.Board(c, Pawn)
    ensures AllPawnSquares(Squares(x))
  {
    forall i | 0 <= i < |Squares(x)|
      ensures PawnSquare(Squares(x)[i])
    {
      var t := Squares(x)[i];
      SquaresMembers(x, t);
      PawnOnPawnSquare(x, t);
    }
  }

  /** One step sets the square of its pawn when that pawn is weak and leaves
      every other square of weakPawns as it was. */
  lemma StepWeak(c: Color, sq: Square, e: PawnEval, acc: PawnAcc, t: Square)
    ensures IsSet(PawnStep(c, sq, e, acc).weak, t) <==> IsSet(acc.weak, t) || (t == sq && e.weak)
  {
    AddIfMeaning(acc.weak, e.weak, sq, t);
  }

  /** One step sets the square of its pawn when that pawn counts as passed
      and leaves every other square of passedPawns as it was. */
  lemma StepPassed(c: Color, sq: Square, e: PawnEval, acc: PawnAcc, t: Square)
    ensures IsSet(PawnStep(c, sq, e, acc).passed, t) <==> IsSet(acc.passed, t) || (t == sq && e.passed)
  {
    AddIfMeaning(acc.passed, e.passed, sq, t);
  }

  /** After the loop, weakPawns holds what it held before plus exactly the
      weak pawns of the list: no other square is set or cleared. */
  lemma {:induction false} PawnFoldWeak(c: Color, sqs: seq<Square>, ev: Square -> PawnEval, acc: PawnAcc, t: Square)
    ensures IsSet(PawnFold(c, sqs, ev, acc).weak, t) <==> IsSet(acc.weak, t) || (t in sqs && ev(t).weak)
    decreases |sqs|
  {
    if sqs != [] {
      var sq := sqs[0];
      assert t in sqs <==> t == sq || t in sqs[1..];
      PawnFoldWeak(c, sqs[1..], ev, PawnStep(c, sq, ev(sq), acc), t);
      StepWeak(c, sq, ev(sq), acc, t);
    }
  }

  /** After the loop, passedPawns holds what it held before plus exactly the
      pawns of the list that count as passed. */
  lemma {:induction false} PawnFoldPassed(c: Color, sqs: seq<Square>, ev: Square -> PawnEval, acc: PawnAcc, t: Square)
    ensures IsSet(PawnFold(c, sqs, ev, acc).passed, t) <==> IsSet(acc.passed, t) || (t in sqs && ev(t).passed)
    decreases |sqs|
  {
    if sqs != [] {
      var sq := sqs[0];
      assert t in sqs <==> t == sq || t in sqs[1..];
      PawnFoldPassed(c, sqs[1..], ev, PawnStep(c, sq, ev(sq), acc), t);
      StepPassed(c, sq, ev(sq), acc, t);
    }
  }

  /** The sum of the scores of the pawns of a list. */
  function ScoreSum(sqs: seq<Square>, ev: Square -> PawnEval): SimdScore
    decreases |sqs|
  {
    if sqs == [] then Zero
    else ev(sqs[0]).score.Plus(ScoreSum(sqs[1..], ev))
  }

  /** After the loop, pawnResult is its old value plus (white) or minus
      (black) the sum of the scores of the pawns. */
  lemma {:induction false} PawnFoldScore(c: Color, sqs: seq<Square>, ev: Square -> PawnEval, acc: PawnAcc)
    ensures PawnFold(c, sqs, ev, acc).score ==
      if c == White then acc.score.Plus(ScoreSum(sqs, ev)) else acc.score.Minus(ScoreSum(sqs, ev))
    decreases |sqs|
  {
    if sqs != [] {
      PawnFoldScore(c, sqs[1..], ev, PawnStep(c, sqs[0], ev(sqs[0]), acc));
    }
  }

  // ---------------------------------------------------------------------
  // Pawn attacks, weak squares and holes
  // ---------------------------------------------------------------------

  /** The squares attacked by pawns: white pawns capture towards the eighth
      rank, ((P & ~FILEMASK[H1]) << 9) | ((P & ~FILEMASK[A1]) << 7), black ones
      towards the first, ((P & ~FILEMASK[H1]) >> 7) | ((P & ~FILEMASK[A1]) >> 9). */
  function PawnAttacks(c: Color, pawns: bv64): bv64 {
    if c == White then ((pawns & !FileH) << 9) | ((pawns & !FileA) << 7)
    else ((pawns & !FileH) >> 7) | ((pawns & !FileA) >> 9)
  }

  /** A pawn of colour c on s attacks t: t is on a neighbouring file, one
      rank ahead of s. */
  predicate PawnAttacksSquare(c: Color, s: Square, t: Square) {
    Adjacent(s, t) && RelativeRank(c, s) < 7 && RelativeRank(c, t) == RelativeRank(c, s) + 1
  }

  lemma Shl9(x: bv64, t: Square)
    ensures IsSet(x << 9, t) <==> t >= 9 && IsSet(x, t - 9)
  {
  }

  lemma Shl7(x: bv64, t: Square)
    ensures IsSet(x << 7, t) <==> t >= 7 && IsSet(x, t - 7)
  {
  }

  lemma Shr7(x: bv64, t: Square)
    ensures IsSet(x >> 7, t) <==> t < 57 && IsSet(x, t + 7)
  {
  }

  lemma Shr9(x: bv64, t: Square)
    ensures IsSet(x >> 9, t) <==> t < 55 && IsSet(x, t + 9)
  {
  }

  lemma FileAMeaning(s: Square)
    ensures IsSet(FileA, s) <==> FileOf(s) == 0
  {
  }

  lemma FileHMeaning(s: Square)
    ensures IsSet(FileH, s) <==> FileOf(s) == 7
  {
  }

  /** The pawn on the square behind a square t on the neighbouring file. */
  lemma WrapFiles(t: Square)
    ensures t >= 9 ==> (FileOf(t - 9) == 7 <==> FileOf(t) == 0)
    ensures t >= 7 ==> (FileOf(t - 7) == 0 <==> FileOf(t) == 7)
    ensures t < 57 ==> (FileOf(t + 7) == 7 <==> FileOf(t) == 0)
    ensures t < 55 ==> (FileOf(t + 9) == 0 <==> FileOf(t) == 7)
  {
  }

  lemma WhiteAttackBits(pawns: bv64, t: Square)
    ensures IsSet(PawnAttacks(White, pawns), t) <==>
      (t >= 9 && FileOf(t) != 0 && IsSet(pawns, t - 9)) || (t >= 7 && FileOf(t) != 7 && IsSet(pawns, t - 7))
  {
    OrMeaning((pawns & !FileH) << 9, (pawns & !FileA) << 7, t);
    Shl9(pawns & !FileH, t);
    Shl7(pawns & !FileA, t);
    WrapFiles(t);
    if t >= 9 {
      AndNotMeaning(pawns, FileH, t - 9);
      FileHMeaning(t - 9);
    }
    if t >= 7 {
      AndNotMeaning(pawns, FileA, t - 7);
      FileAMeaning(t - 7);
    }
  }

  lemma BlackAttackBits(pawns: bv64, t: Square)
    ensures IsSet(PawnAttacks(Black, pawns), t) <==>
      (t < 57 && FileOf(t) != 0 && IsSet(pawns, t + 7)) || (t < 55 && FileOf(t) != 7 && IsSet(pawns, t + 9))
  {
    OrMeaning((pawns & !FileH) >> 7, (pawns & !FileA) >> 9, t);
    Shr7(pawns & !FileH, t);
    Shr9(pawns & !FileA, t);
    WrapFiles(t);
    if t < 57 {
      AndNotMeaning(pawns, FileH, t + 7);
      FileHMeaning(t + 7);
    }
    if t < 55 {
      AndNotMeaning(pawns, FileA, t + 9);
      FileAMeaning(t + 9);
    }
  }

  /** The squares a pawn attacks, as square arithmetic. */
  lemma WhiteAttackSquares(s: Square, t: Square)
    ensures PawnAttacksSquare(White, s, t) <==>
      (t >= 9 && FileOf(t) != 0 && s == t - 9) || (t >= 7 && FileOf(t) != 7 && s == t - 7)
  {
  }

  lemma BlackAttackSquares(s: Square, t: Square)
    ensures PawnAttacksSquare(Black, s, t) <==>
      (t < 57 && FileOf(t) != 0 && s == t + 7) || (t < 55 && FileOf(t) != 7 && s == t + 9)
  {
  }

  /** The attack map holds exactly the squares some pawn attacks: in
      particular no attack wraps around from one edge of the board to the
      other. */
  lemma PawnAttacksMeaning(c: Color, pawns: bv64, t: Square)
    ensures IsSet(PawnAttacks(c, pawns), t) <==> exists s :: IsSet(pawns, s) && PawnAttacksSquare(c, s, t)
  {
    if c == White {
      WhiteAttackBits(pawns, t);
      if IsSet(PawnAttacks(c, pawns), t) {
        var s: Square := if t >= 9 && FileOf(t) != 0 && IsSet(pawns, t - 9) then t - 9 else t - 7;
        WhiteAttackSquares(s, t);
      }
      forall s | IsSet(pawns, s) && PawnAttacksSquare(c, s, t)
        ensures IsSet(PawnAttacks(c, pawns), t)
      {
        WhiteAttackSquares(s, t);
      }
    } else {
      BlackAttackBits(pawns, t);
      if IsSet(PawnAttacks(c, pawns), t) {
        var s: Square := if t < 57 && FileOf(t) != 0 && IsSet(pawns, t + 7) then t + 7 else t + 9;
        BlackAttackSquares(s, t);
      }
      forall s | IsSet(pawns, s) && PawnAttacksSquare(c, s, t)
        ensures IsSet(PawnAttacks(c, pawns), t)
      {
        BlackAttackSquares(s, t);
      }
    }
  }

  /** x filled towards the eighth rank: x | x << 8 | x << 16 | ... */
  function FillUp(x: bv64): bv64 {
    var a := x | (x << 8);
    var b := a | (a << 16);
    b | (b << 32)
  }

  /** x filled towards the first rank. */
  function FillDown(x: bv64): bv64 {
    var a := x | (x >> 8);
    var b := a | (a >> 16);
    b | (b >> 32)
  }

  /** The fill forward for colour c. */
  function FillForward(c: Color, x: bv64): bv64 {
    if c == White then FillUp(x) else FillDown(x)
  }

  /** weakSquares[c]: the squares no pawn of colour c attacks now or after
      advancing, the complement of the forward fill of its attacks. */
  function WeakSquares(c: Color, pawns: bv64): bv64 {
    !FillForward(c, PawnAttacks(c, pawns))
  }

  /** holes[c]: the weak squares of c on the files of its pawns, in front of
      them. */
  function Holes(c: Color, pawns: bv64): bv64 {
    WeakSquares(c, pawns) & FillForward(c, Push(c, pawns))
  }

  lemma FillCovers(c: Color, x: bv64)
    ensures SubsetOf(x, FillForward(c, x))
  {
  }

  /** No square a pawn attacks is weak. */
  lemma WeakSquaresNotAttacked(c: Color, pawns: bv64)
    ensures PawnAttacks(c, pawns) & WeakSquares(c, pawns) == 0
  {
    FillCovers(c, PawnAttacks(c, pawns));
  }

  /** Every hole is a weak square. */
  lemma HolesAreWeak(c: Color, pawns: bv64)
    ensures SubsetOf(Holes(c, pawns), WeakSquares(c, pawns))
  {
  }

  // ---------------------------------------------------------------------
  // The pawn table entry
  // ---------------------------------------------------------------------

  /** A pair of bitboards, one per colour (the two-entry arrays). */
  datatype ByColor = ByColor(white: bv64, black: bv64) {
    function Of(c: Color): bv64 {
      if c == White then white else black
    }
  }

  /** pawnEntry: everything the evaluator derives from the pawns alone. */
  datatype PawnEntry = PawnEntry(
    res: SimdScore,
    weakPawns: bv64,
    passedPawns: bv64,
    pawnAttacks: ByColor,
    weakSquares: ByColor,
    holes: ByColor)

  /** A pawn key whose pawns are on the pawn ranks. */
  predicate ValidKey(k: PawnKey) {
    OnPawnRanks(k.white) && OnPawnRanks(k.black)
  }

  /** The entry of a pawn structure: the white pawn loop, then the black one,
      then the maps. */
  function EntryOf(k: PawnKey): PawnEntry {
    var w := PawnFold(White, Squares(k.white), Evaluator(White, k.white, k.black), PawnAcc(Zero, 0, 0));
    var b := PawnFold(Black, Squares(k.black), Evaluator(Black, k.black, k.white), w);
    PawnEntry(b.score, b.weak, b.passed,
      ByColor(PawnAttacks(White, k.white), PawnAttacks(Black, k.black)),
      ByColor(WeakSquares(White, k.white), WeakSquares(Black, k.black)),
      ByColor(Holes(White, k.white), Holes(Black, k.black)))
  }

  /** The pawn-table miss branch of the evaluation: the two pawn loops and the
      attack, weak-square and hole maps of both colours. */
  method ComputePawnEntry(p: Position) returns (e: PawnEntry)
    requires PawnsOnPawnRanks(p)
    ensures ValidKey(PawnKeyOf(p)) && e == EntryOf(PawnKeyOf(p))
  {
    var w := EvalPawnsOf(p, White, PawnAcc(Zero, 0, 0));
    var b := EvalPawnsOf(p, Black, w);
    var whitePawns := p.Board(White, Pawn);
    var blackPawns := p.Board(Black, Pawn);
    e := PawnEntry(b.score, b.weak, b.passed,
      ByColor(PawnAttacks(White, whitePawns), PawnAttacks(Black, blackPawns)),
      ByColor(WeakSquares(White, whitePawns), WeakSquares(Black, blackPawns)),
      ByColor(Holes(White, whitePawns), Holes(Black, blackPawns)));
  }

  /** The loop of colour c marks the square t weak exactly when a pawn of
      colour c stands on t and is weak. */
  lemma ListedWeak(c: Color, ours: bv64, theirs: bv64, t: Square)
    requires OnPawnRanks(ours)
    ensures (t in Squares(ours) && Evaluator(c, ours, theirs)(t).weak) <==>
      (IsSet(ours, t) && PawnSquare(t) && Weak(c, t, ours, theirs))
  {
    SquaresMembers(ours, t);
    if IsSet(ours, t) {
      PawnOnPawnSquare(ours, t);
    }
  }

  /** The loop of colour c marks the square t passed exactly when a pawn of
      colour c stands on t and counts as passed. */
  lemma ListedPassed(c: Color, ours: bv64, theirs: bv64, t: Square)
    requires OnPawnRanks(ours)
    ensures (t in Squares(ours) && Evaluator(c, ours, theirs)(t).passed) <==>
      (IsSet(ours, t) && PawnSquare(t) && CountsAsPassed(c, t, ours, theirs))
  {
    SquaresMembers(ours, t);
    if IsSet(ours, t) {
      PawnOnPawnSquare(ours, t);
    }
  }

  /** The pawn score of an entry is the sum of the white pawns' scores less
      the sum of the black pawns' scores. */
  lemma EntryScore(k: PawnKey)
    ensures EntryOf(k).res ==
      ScoreSum(Squares(k.white), Evaluator(White, k.white, k.black))
        .Minus(ScoreSum(Squares(k.black), Evaluator(Black, k.black, k.white)))
  {
    var start := PawnAcc(Zero, 0, 0);
    var w := PawnFold(White, Squares(k.white), Evaluator(White, k.white, k.black), start);
    PawnFoldScore(White, Squares(k.white), Evaluator(White, k.white, k.black), start);
    PawnFoldScore(Black, Squares(k.black), Evaluator(Black, k.black, k.white), w);
  }

  /** The weak pawns of an entry are exactly the weak pawns of either
      colour. */
  lemma EntryWeakPawns(k: PawnKey, t: Square)
    requires ValidKey(k)
    ensures IsSet(EntryOf(k).weakPawns, t) <==>
      PawnSquare(t) && ((IsSet(k.white, t) && Weak(White, t, k.white, k.black))
                        || (IsSet(k.black, t) && Weak(Black, t, k.black, k.white)))
  {
    var start := PawnAcc(Zero, 0, 0);
    var w := PawnFold(White, Squares(k.white), Evaluator(White, k.white, k.black), start);
    PawnFoldWeak(White, Squares(k.white), Evaluator(White, k.white, k.black), start, t);
    PawnFoldWeak(Black, Squares(k.black), Evaluator(Black, k.black, k.white), w, t);
    ListedWeak(White, k.white, k.black, t);
    ListedWeak(Black, k.black, k.white, t);
  }

  /** The passed pawns of an entry are exactly the pawns of either colour
      that count as passed. */
  lemma EntryPassedPawns(k: PawnKey, t: Square)
    requires ValidKey(k)
    ensures IsSet(EntryOf(k).passedPawns, t) <==>
      PawnSquare(t) && ((IsSet(k.white, t) && CountsAsPassed(White, t, k.white, k.black))
                        || (IsSet(k.black, t) && CountsAsPassed(Black, t, k.black, k.white)))
  {
    var start := PawnAcc(Zero, 0, 0);
    var w := PawnFold(White, Squares(k.white), Evaluator(White, k.white, k.black), start);
    PawnFoldPassed(White, Squares(k.white), Evaluator(White, k.white, k.black), start, t);
    PawnFoldPassed(Black, Squares(k.black), Evaluator(Black, k.black, k.white), w, t);
    ListedPassed(White, k.white, k.black, t);
    ListedPassed(Black, k.black, k.white, t);
  }

  // ---------------------------------------------------------------------
  // The pawn hash table
  // ---------------------------------------------------------------------

  /** pawnTable: entries stored by pawn key. Every stored entry is the entry
      of its key, so a hit returns what the miss branch would compute. */
  class PawnTable {
    var entries: map<PawnKey, PawnEntry>

    ghost predicate Valid()
      reads this
    {
      forall k :: k in entries ==> ValidKey(k) && entries[k] == EntryOf(k)
    }

    constructor ()
      ensures entries == map[] && Valid()
    {
      entries := map[];
    }

    /** probe: the entry stored for the key, if any. */
    function Probe(key: PawnKey): (r: Option<PawnEntry>)
      reads this
      ensures r.None? <==> key !in entries
      ensures r.Some? ==> r.value == entries[key]
    {
      if key in entries then Some(entries[key]) else None
    }

    /** insert: store the entry of a key. */
    method Insert(key: PawnKey, e: PawnEntry)
      modifies this
      ensures entries == old(entries)[key := e]
    {
      entries := entries[key := e];
    }
  }

  /** A hit in a valid table returns the entry the miss branch computes. */
  lemma ProbeHit(t: PawnTable, key: PawnKey)
    requires t.Valid() && t.Probe(key).Some?
    ensures ValidKey(key) && t.Probe(key).value == EntryOf(key)
  {
  }

  /** Storing the entry of its key keeps the table valid. */
  lemma InsertKeepsValid(stored: map<PawnKey, PawnEntry>, key: PawnKey)
    requires forall k :: k in stored ==> ValidKey(k) && stored[k] == EntryOf(k)
    requires ValidKey(key)
    ensures forall k :: k in stored[key := EntryOf(key)] ==>
      ValidKey(k) && stored[key := EntryOf(key)][k] == EntryOf(k)
  {
  }
}
