/** The material-signature table: material balances the evaluator recognises
    before doing any positional work, and the one endgame function it knows,
    the wrong-coloured-bishop rook-pawn draw of king, bishop and pawn against king. */
module Material {
  import opened Bitboard
  import opened Scores
  import opened Positions
  import opened Wrappers

  /** The endgame functions an entry may point to. */
  datatype EndgameFunction = KBPvsK

  /** materialStruct: what the table says about a material balance. An exact
      entry is the final score; an exact function decides the score when it
      accepts the position; an additive function contributes nothing here. */
  datatype MaterialEntry =
    | Exact(val: Score)
    | AdditiveFunction(fn: EndgameFunction)
    | ExactFunction(fn: EndgameFunction)

  // ---------------------------------------------------------------------
  // evalKBPvsK
  // ---------------------------------------------------------------------

  /** The square a pawn of colour c on the given file promotes on. */
  function PromotionSquare(c: Color, file: bv8): Square
    requires file < 8
  {
    if c == White then SquareAt(file, 7) else SquareAt(file, 0)
  }

  /** The defending king stands on the last two ranks before the promotion
      square of a pawn of colour c. */
  predicate KingInCorner(c: Color, king: Square) {
    if c == White then RankOf(king) >= 6 else RankOf(king) <= 1
  }

  /** The drawn configuration: a rook pawn, a bishop that does not cover the
      promotion square, and the defending king in front of the pawn. */
  predicate KBPDrawn(c: Color, pawn: Square, bishop: Square, defendingKing: Square) {
    (FileOf(pawn) == 0 || FileOf(pawn) == 7)
    && SquareColor(PromotionSquare(c, FileOf(pawn))) != SquareColor(bishop)
    && KingInCorner(c, defendingKing)
    && Near(FileOf(pawn), FileOf(defendingKing))
  }

  /** The pieces evalKBPvsK reads are on the board: the pawn and bishop of the
      side with the pawn. The material key of the table entries that point to
      it guarantees this. */
  predicate KBPReadable(p: Position) {
    if p.white.pawns != 0 then p.white.bishops != 0
    else p.black.pawns != 0 && p.black.bishops != 0
  }

  /** evalKBPvsK: the side with the pawn is white when white has a pawn; it
      accepts (with score 0) only in the drawn configuration, reading
      the first pawn and bishop of that side and the other side's king. */
  function EvalKBPvsK(p: Position): (r: Option<Score>)
    requires KBPReadable(p)
  {
    var pc := if p.white.pawns != 0 then White else Black;
    var pawnSquare := p.PieceList(pc, Pawn)[0];
    var pawnFile := FileOf(pawnSquare);
    if pawnFile == 0 || pawnFile == 7 then
      var bishopSquare := p.PieceList(pc, Bishop)[0];
      if SquareColor(PromotionSquare(pc, pawnFile)) != SquareColor(bishopSquare) then
        var kingSquare := p.Side(pc.Opponent()).king;
        if KingInCorner(pc, kingSquare) && Near(pawnFile, FileOf(kingSquare)) then
          Some(0)
        else
          None
      else
        None
    else
      None
  }

  /** The side evalKBPvsK treats as the attacker. */
  function PawnSide(p: Position): Color {
    if p.white.pawns != 0 then White else Black
  }

  /** evalKBPvsK accepts, with a draw score, exactly in the drawn configuration
      of the pawn side's first pawn and bishop and the defending king. */
  lemma EvalKBPvsKMeaning(p: Position)
    requires KBPReadable(p)
    ensures EvalKBPvsK(p).Some? ==> EvalKBPvsK(p) == Some(0)
    ensures EvalKBPvsK(p).Some? <==>
      (var c := PawnSide(p);
       KBPDrawn(c, p.PieceList(c, Pawn)[0], p.PieceList(c, Bishop)[0], p.Side(c.Opponent()).king))
  {
  }

  /** Mirroring the board (a1 <-> a8) exchanges the colours of all squares. */
  lemma MirrorSquareColor(s: Square)
    ensures SquareColor(Mirror(s)) != SquareColor(s)
  {
  }

  /** The draw rule is the same for both colours: a black configuration is drawn
      exactly when its mirror image with colours exchanged is. */
  lemma KBPDrawnMirror(pawn: Square, bishop: Square, king: Square)
    ensures KBPDrawn(Black, pawn, bishop, king) <==> KBPDrawn(White, Mirror(pawn), Mirror(bishop), Mirror(king))
  {
    MirrorSquareColor(bishop);
    MirrorSquareColor(PromotionSquare(White, FileOf(pawn)));
    assert Mirror(PromotionSquare(White, FileOf(pawn))) == PromotionSquare(Black, FileOf(pawn));
  }

  /** evalKBPvsK rejects a pawn off the rook files, and a bishop on the
      colour of the promotion square, wherever the defending king stands. */
  lemma KBPNeedsWrongBishop(p: Position)
    requires KBPReadable(p)
    ensures var c := PawnSide(p);
      var pawn := p.PieceList(c, Pawn)[0];
      FileOf(pawn) != 0 && FileOf(pawn) != 7 ==> EvalKBPvsK(p) == None
    ensures var c := PawnSide(p);
      var pawn, bishop := p.PieceList(c, Pawn)[0], p.PieceList(c, Bishop)[0];
      SquareColor(bishop) == SquareColor(PromotionSquare(c, FileOf(pawn))) ==> EvalKBPvsK(p) == None
  {
    EvalKBPvsKMeaning(p);
  }

  // ---------------------------------------------------------------------
  // The table
  // ---------------------------------------------------------------------

  const Bare := Counts(0, 0, 0, 0, 0)
  const B := Counts(0, 0, 1, 0, 0)
  const N := Counts(0, 0, 0, 1, 0)
  const BB := Counts(0, 0, 2, 0, 0)
  const BN := Counts(0, 0, 1, 1, 0)
  const NN := Counts(0, 0, 0, 2, 0)
  const BP := Counts(0, 0, 1, 0, 1)

  /** The keys the table is filled with: white's material, then black's. */
  const KvK := MaterialKey(Bare, Bare)
  const KvKB := MaterialKey(Bare, B)
  const KvKN := MaterialKey(Bare, N)
  const KBvK := MaterialKey(B, Bare)
  const KNvK := MaterialKey(N, Bare)
  const KBvKN := MaterialKey(B, N)
  const KNvKN := MaterialKey(N, N)
  const KBvKB := MaterialKey(B, B)
  const KNvKB := MaterialKey(N, B)
  const KNvKBB := MaterialKey(N, BB)
  const KBvKBB := MaterialKey(B, BB)
  const KNvKBN := MaterialKey(N, BN)
  const KBvKBN := MaterialKey(B, BN)
  const KNvKNN := MaterialKey(N, NN)
  const KBvKNN := MaterialKey(B, NN)
  const KBBvKB := MaterialKey(BB, B)
  const KBBvKN := MaterialKey(BB, N)
  const KBNvKB := MaterialKey(BN, B)
  const KBNvKN := MaterialKey(BN, N)
  const KNNvKB := MaterialKey(NN, B)
  const KNNvKN := MaterialKey(NN, N)
  const KBPvK := MaterialKey(BP, Bare)
  const KvKBP := MaterialKey(Bare, BP)

  const Draw := Exact(0)

  /** The contents of the table after initMaterialKeys. */
  function InitialTable(): map<MaterialKey, MaterialEntry> {
    map[KvK := Draw, KvKB := Draw, KvKN := Draw, KBvK := Draw, KNvK := Draw,
        KBvKN := Draw, KNvKN := Draw, KBvKB := Draw, KNvKB := Draw,
        KNvKBB := Draw, KBvKBB := Draw, KNvKBN := Draw, KBvKBN := Draw, KNvKNN := Draw, KBvKNN := Draw,
        KBBvKB := Draw, KBBvKN := Draw, KBNvKB := Draw, KBNvKN := Draw, KNNvKB := Draw, KNNvKN := Draw,
        KBPvK := ExactFunction(KBPvsK), KvKBP := ExactFunction(KBPvsK)]
  }

  /** materialKeyMap */
  class MaterialTable {
    var entries: map<MaterialKey, MaterialEntry>

    constructor ()
      ensures entries == map[]
    {
      entries := map[];
    }

    /** initMaterialKeys: the bare-king and minor-piece draws, then the two
        king, bishop and pawn against king keys. Each insert keeps an entry
        already present for its key, so old entries win over the new ones. */
    method InitMaterialKeys()
      modifies this
      ensures entries == InitialTable() + old(entries)
    {
      entries := InitialTable() + entries;
    }

    /** getMaterialData: the entry of the position's key, none when absent. */
    function GetMaterialData(key: MaterialKey): (r: Option<MaterialEntry>)
      reads this
      ensures r.None? <==> key !in entries
      ensures r.Some? ==> key in entries && r.value == entries[key]
    {
      if key in entries then Some(entries[key]) else None
    }
  }

  /** The table only points to evalKBPvsK from the two king, bishop and pawn
      against king keys. */
  predicate Sound(t: map<MaterialKey, MaterialEntry>) {
    forall k :: k in t && t[k].ExactFunction? ==> k == KBPvK || k == KvKBP
  }

  /** Every entry of the initial table is an exact draw score except the two
      king, bishop and pawn against king keys, which point to evalKBPvsK. */
  lemma InitialTableEntries()
    ensures Sound(InitialTable())
    ensures forall k :: k in InitialTable() && k != KBPvK && k != KvKBP ==> InitialTable()[k] == Exact(0)
    ensures InitialTable()[KBPvK] == ExactFunction(KBPvsK) && InitialTable()[KvKBP] == ExactFunction(KBPvsK)
  {
  }

  /** The table treats both colours alike: the colour-exchanged balance of every
      key is a key too, with the same entry. */
  lemma InitialTableSymmetric()
    ensures forall k :: k in InitialTable() ==> k.Swap() in InitialTable() && InitialTable()[k.Swap()] == InitialTable()[k]
  {
  }

  /** No key has a queen or a rook: the table recognises minor-piece endings only ... */
  lemma InitialTableMinorsOnly()
    ensures forall k :: k in InitialTable() ==>
      k.white.queens == 0 && k.black.queens == 0 && k.white.rooks == 0 && k.black.rooks == 0
  {
  }

  /** ... and only the king, bishop and pawn keys have pawns. */
  lemma InitialTablePawns()
    ensures forall k :: k in InitialTable() && (k.white.pawns > 0 || k.black.pawns > 0) ==> k == KBPvK || k == KvKBP
  {
  }

  /** A position whose key points to evalKBPvsK has the pieces it reads. */
  lemma KBPKeyReadable(p: Position)
    requires MaterialKeyOf(p) == KBPvK || MaterialKeyOf(p) == KvKBP
    ensures KBPReadable(p)
  {
  }
}
