# Static evaluation of the vajolet chess engine

This project models `Position::eval`, the static evaluation of the vajolet
chess engine, together with the parts it is built from. All of them are in
`eval.cpp`.

- **The material-signature table.** `materialKeyMap` is filled by
  `initMaterialKeys` and read by `getMaterialData`. Its one endgame function
  is `evalKBPvsK`, which detects the wrong-coloured-bishop rook-pawn draw.
  When the table knows the position's material balance, it can decide the
  score outright.
- **The per-pawn evaluation `evalPawn<c>`.** It computes the
  isolated / doubled / opposed / passed / chain flags by mask intersection.
  It decides "backward" with a forward rank walk, scores the pawn in two
  lanes, and ORs the pawn's square into `weakPawns` and `passedPawns`.
- **The pawn-structure maps of the pawn-table miss branch.** These are the
  pawn attacks, the weak squares and the holes. The result is stored in
  the pawn hash table.
- **The per-piece evaluation `evalPieces<piece>`.** It pops the pieces of
  one kind, looks up mobility in `mobilityBonus` and adds the kind's
  bonuses (seventh rank, ranks with pawns, open and half-open files,
  outposts and holes). In place, it ORs the piece's attacks into the
  evaluator's `attackedSquares` array and updates the king-attack counters.
- **The aggregation in `Position::eval`.** In order: the material short
  cut, tempo, the bishop pair, the pawn probe or insert, the pieces, space,
  the pawn shield, the king-attack units (clamped to 99, then squared, with
  the `KingExposed` table), the phase blend and the sign of the side to
  move. The evaluator of the model reads the black king's exposure at its
  mirrored square, the corrected lookup of the finding below. The
  source's own read, `KingExposed[64 - sq]`, is modelled beside it
  (`Evaluation.EvalAsWritten`) and related to it by lemmas.

A score is the pair of the two used `simdScore` lanes (middlegame,
endgame). Bitboards are `bv64`, with square = rank * 8 + file (a1 = 0).

The helper tables of the engine are defined as small functions with a
per-square statement of their meaning:

- `FILES`, `RANKS`, `BITSET`, `FILEMASK` and `RANKMASK`;
- `ISOLATED_PAWN`, `SQUARES_IN_FRONT_OF` and `PASSED_PAWN`;
- `SQUARE_COLOR`, `BOARDINDEX`, `firstOne` and `bitCnt`.

The modules follow the program:

- `Scores` holds the lanes, C++ truncating division and the phase blend.
- `Bitboard` holds the squares, masks and the popping loop.
- `Positions` holds what the evaluator reads of a position.
- `Material` holds the material table and `evalKBPvsK`.
- `PawnWalk` and `Pawns` hold `evalPawn`.
- `PawnStructure` holds the pawn loops, the maps and the pawn table.
- `Pieces` holds `evalPieces`.
- `KingSafety` holds the king zone, the shield, the attack units and
  `KingExposed`.
- `Evaluation` holds `Position::eval`.

The code that changes state is imperative:

- `initMaterialKeys` inserts into a table object.
- `evalPawn` runs its walk as a `while` loop.
- The pawn loops pop a bitboard.
- `evalPieces` runs a popping loop over `array`s that stand for the
  evaluator's local arrays. A `Locals` value gives the specification
  functions a view of those arrays.
- `Position::eval` probes and inserts into a pawn-table object.

Each method is proved against a function of its inputs. The lemmas state
what those functions mean.

## Model

| member | source | states |
|---|---|---|
| Scores.TruncDiv | eval.cpp:1006-1007 | the quotient is truncated toward zero: for a non-negative dividend q*b <= a < q*b+b, for a negative one q*b-b < a <= q*b |
| Scores.TruncDivNeg | eval.cpp:1007 | truncating division commutes with negation (Euclidean division does not) |
| Scores.TruncDivBounds | eval.cpp:1007 | a dividend between lo*b and hi*b gives a quotient between lo and hi |
| Scores.InterpolateOpening | eval.cpp:1004-1007 | at game phase 0 the blend is exactly the middlegame lane |
| Scores.InterpolateEndgame | eval.cpp:1004-1007 | at game phase 65536 the blend is exactly the endgame lane |
| Scores.InterpolateBetween | eval.cpp:1004-1007 | for a phase in 0..65536 the blend lies between the two lanes |
| Scores.InterpolateNeg | eval.cpp:1004-1007 | negating both lanes negates the blended score |
| Bitboard.SquareAt | eval.cpp:60 | BOARDINDEX[file][rank] is the square with that file and rank |
| Bitboard.FileMaskMeaning | eval.cpp:612 | FILEMASK[s] holds exactly the squares on the file of s |
| Bitboard.RankMaskMeaning | eval.cpp:586 | RANKMASK[s] holds exactly the squares on the rank of s |
| Bitboard.IsolatedPawnMaskMeaning | eval.cpp:429 | ISOLATED_PAWN[s] holds exactly the squares on the files next to the file of s |
| Bitboard.SquaresInFrontOfMeaning | eval.cpp:430-431 | SQUARES_IN_FRONT_OF[c][s] holds exactly the squares of the file of s strictly ahead of s for c |
| Bitboard.PassedPawnMaskMeaning | eval.cpp:432 | PASSED_PAWN[c][s] holds exactly the squares on the file of s or a neighbouring file strictly ahead of s for c |
| Bitboard.FirstOne | eval.cpp:515 | firstOne returns the lowest set square |
| Bitboard.PopLowestMeaning | eval.cpp:516 | x & (x-1) keeps every set square of x except the lowest one, and nothing lies below that one |
| Bitboard.SquaresMembers | eval.cpp:514-516 | the popping loop visits exactly the set squares of the bitboard |
| Bitboard.PopDecreases | eval.cpp:514-516 | each pop makes the bitboard smaller, so the popping loops end |
| Bitboard.PopCountZero | eval.cpp:928 | bitCnt is zero exactly for the empty bitboard |
| Bitboard.PopCountMono | eval.cpp:566 | a bitboard inside another never counts more squares |
| Bitboard.AddIfMeaning | eval.cpp:457 | OR-ing the pawn's BITSET into a map when a condition holds adds that square and changes no other square |
| Positions.BoardIndex | eval.cpp:563 | bitboardIndex of a piece lies in 1..15 and is below separationBitmap exactly for white pieces |
| Positions.BoardIndexInjective | eval.cpp:563 | different pieces use different attackedSquares entries |
| Material.EvalKBPvsKMeaning | eval.cpp:51-87 | evalKBPvsK accepts, always with score 0, exactly when the attacking side's first pawn is on file 0 or 7, its first bishop is not on the colour of the promotion square, and the defending king is within one file of the pawn on rank 6 or more (white pawn) or rank 1 or less (black pawn) |
| Material.KBPDrawnMirror | eval.cpp:55-84 | the black branch is the mirror image of the white branch with the square colours exchanged |
| Material.KBPNeedsWrongBishop | eval.cpp:55-84 | evalKBPvsK rejects a first pawn off the a and h files, and a first bishop on the colour of the promotion square, wherever the defending king stands |
| Material.MaterialTable.InitMaterialKeys | eval.cpp:91-327 | after initMaterialKeys the table is the initial table, with entries already present kept (insert does not overwrite) |
| Material.MaterialTable.GetMaterialData | eval.cpp:331-344 | the result is none exactly when the key is absent, and is otherwise the stored entry |
| Material.InitialTableEntries | eval.cpp:109-323 | every inserted entry is exact with value 0, except the KBP-vs-K and K-vs-KBP keys, which point to evalKBPvsK |
| Material.InitialTableSymmetric | eval.cpp:109-323 | exchanging the colours of a key in the table gives a key in the table with the same entry |
| Material.InitialTableMinorsOnly | eval.cpp:109-323 | no key in the table has a queen or a rook |
| Material.InitialTablePawns | eval.cpp:109-323 | only the two KBP keys have pawns |
| Material.KBPKeyReadable | eval.cpp:309-323 | a position with a KBP key has the pawn and bishop evalKBPvsK reads |
| Pawns.IsolatedMeaning | eval.cpp:429 | isolated holds exactly when no own pawn stands on a neighbouring file |
| Pawns.DoubledMeaning | eval.cpp:430 | doubled holds exactly when an own pawn stands ahead on the same file |
| Pawns.OpposedMeaning | eval.cpp:431 | opposed holds exactly when an enemy pawn stands ahead on the same file |
| Pawns.PassedMeaning | eval.cpp:432 | passed holds exactly when no enemy pawn stands ahead on the same or a neighbouring file |
| Pawns.ChainMeaning | eval.cpp:425-428 | chain holds exactly when an own pawn on a neighbouring file is level with the pawn or one rank behind it |
| Pawns.WalkWitness | eval.cpp:434-437 | under the walk's guard an own pawn stands on a neighbouring file strictly ahead of the pawn |
| Pawns.BackwardGuarded | eval.cpp:434-437 | a backward pawn is neither passed, isolated nor chained, and every own pawn on a neighbouring file is strictly ahead of it |
| Pawns.BackwardWalk | eval.cpp:438-449 | the shifting loop ends before it runs off the board and computes the row test of the first neighbouring row holding a pawn |
| PawnWalk.BlockerHits | eval.cpp:440-448 | the walk stops on a row holding a pawn, or on the last rank |
| PawnWalk.BlockerFirst | eval.cpp:440-448 | the walk never passes over a row holding a pawn |
| Pawns.ClassifyPawn | eval.cpp:417-453 | the flags, backward and candidate computed are those of the pawn's structure |
| Pawns.ScorePawn | eval.cpp:455-496 | the score is the sum of the penalties and bonuses the flags select |
| Pawns.PassedContribution | eval.cpp:477-491 | a passed, undoubled pawn gets exactly the passed bonus, less the a/h-file penalty, plus the supported bonus times r when chained; a doubled pawn gets nothing for being passed |
| Pawns.CandidateContribution | eval.cpp:493-496 | the candidate flag adds exactly candidateBonus times (relativeRank - 1) |
| Pawns.PassedBonusGrows | eval.cpp:477-481 | from the second rank on, the passed bonus never decreases in the middlegame and strictly increases in the endgame |
| Pawns.PassedBonusPositive | eval.cpp:477-481 | the passed bonus is never negative, and its endgame lane is at least 1100 |
| Pawns.EvalPawn | eval.cpp:413-498 | evalPawn returns the pawn's score, adds the pawn's square to weakPawns exactly when it is isolated or backward, and to passedPawns exactly when it is passed and not doubled |
| PawnStructure.EvalPawnsOf | eval.cpp:783-797 | the pawn loop of a colour folds evalPawn over the pawns, lowest square first |
| PawnStructure.PawnFoldWeak | eval.cpp:455-469 | after a pawn loop, weakPawns is what it was plus exactly the weak pawns of the loop |
| PawnStructure.PawnFoldPassed | eval.cpp:477-483 | after a pawn loop, passedPawns is what it was plus exactly the passed, undoubled pawns of the loop |
| PawnStructure.PawnFoldScore | eval.cpp:785-797 | a pawn loop adds (white) or subtracts (black) the sum of its pawns' scores |
| PawnStructure.PawnAttacksMeaning | eval.cpp:800-816 | the attack map holds exactly the squares a pawn attacks diagonally forward, with no wrap across the a/h edge |
| PawnStructure.WeakSquaresNotAttacked | eval.cpp:800-822 | weakSquares[c] is disjoint from the squares c's pawns attack |
| PawnStructure.HolesAreWeak | eval.cpp:824-837 | holes[c] is a subset of weakSquares[c] |
| PawnStructure.ComputePawnEntry | eval.cpp:782-837 | the miss branch computes the entry of the position's pawn structure |
| PawnStructure.EntryScore | eval.cpp:782-797 | the entry's score is the white pawns' scores minus the black pawns' scores |
| PawnStructure.EntryWeakPawns | eval.cpp:782-797 | the entry's weakPawns are exactly the isolated or backward pawns of either colour |
| PawnStructure.EntryPassedPawns | eval.cpp:782-797 | the entry's passedPawns are exactly the passed, undoubled pawns of either colour |
| PawnStructure.PawnTable.Probe | eval.cpp:767-768 | probe returns none exactly when the key is absent, and otherwise the stored entry |
| PawnStructure.PawnTable.Insert | eval.cpp:842 | insert stores the entry under its key and changes no other key |
| PawnStructure.ProbeHit | eval.cpp:767-780 | a hit in a valid table returns the entry the miss branch would compute |
| PawnStructure.InsertKeepsValid | eval.cpp:842 | storing the computed entry keeps every stored entry equal to the entry of its key |
| Pieces.RowsFitTable | eval.cpp:346-361 | every listed row is longer than the most squares a piece of its kind can reach and fits the 32-entry rows |
| Pieces.RowsNonDecreasing | eval.cpp:346-361 | each mobilityBonus row is non-decreasing in both lanes |
| Pieces.MobilityMonotone | eval.cpp:346-361 | more mobility never gives a smaller bonus in either lane |
| Pieces.MobilityInRow | eval.cpp:566-567 | when the attack generator respects the board's reach, the mobility index stays inside the listed row |
| Pieces.KindBonusBounds | eval.cpp:571-655 | the bonuses beyond mobility are never negative and never exceed the sum of the kind's bonuses |
| Pieces.OutpostNeedsWeakSquare | eval.cpp:624-652 | a bishop or knight gets a bonus exactly when it stands on relative rank 4 or more on a square weak for the enemy |
| Pieces.RookFileMeaning | eval.cpp:609-621 | a rook gets the open-file bonus exactly when no pawn is on its file, and the half-open bonus exactly when only enemy pawns are |
| Pieces.PieceFoldScore | eval.cpp:514-567 | the loop adds the scores of all pieces of the kind |
| Pieces.PieceFoldAttacks | eval.cpp:563 | the loop ORs every piece's attacks into attackedSquares[piece] |
| Pieces.PieceFoldKingAttack | eval.cpp:554-562 | the loop counts each ring attacker once, adds the kind's weight per attacker, and adds the attackers' attacks next to the king |
| Pieces.RingAttackersAtMost | eval.cpp:554-555 | no more attackers are counted than there are pieces |
| Pieces.EvalPieces | eval.cpp:500-658 | evalPieces returns the fold of its pieces, and changes only attackedSquares[piece] and the counters of its colour, to the fold's values |
| Pieces.RecordPiece | eval.cpp:554-567 | one iteration adds the piece's score, ORs its attacks into attackedSquares[piece] and updates the king-attack counters |
| Pieces.OrInto | eval.cpp:563 | attackedSquares[piece] gains the attacks and no other entry changes |
| Pieces.RecordKingAttack | eval.cpp:554-562 | a ring attacker adds one to the count, its kind's weight to the weight, and its adjacent attacks to the adjacent count; nothing else changes |
| KingSafety.KingExposedBounds | eval.cpp:364-373 | every KingExposed entry lies in 0..15 |
| KingSafety.ShieldInRing | eval.cpp:678-689 | the king shield lies inside the king ring |
| KingSafety.FarShieldMeaning | eval.cpp:678-689 | the far shield holds exactly the squares next to the square in front of the king that are neither next to the king nor its own square; a king on its last rank has none |
| KingSafety.ShieldTermCounts | eval.cpp:926-941 | the emptiness test does not change the shield term: it is the bonus times the number of shield pawns |
| KingSafety.ShieldTermMonotone | eval.cpp:926-941 | more shield pawns never earn less |
| KingSafety.DefenceMeaning | eval.cpp:948-959 | the union of the attack maps holds exactly the squares some pawn or piece attacks |
| KingSafety.UndefendedMeaning | eval.cpp:947-959 | undefendedSquares holds exactly the squares next to the defending king that the attacker hits (with a pawn, a piece or its king) and no pawn or piece of the defender protects |
| KingSafety.AttackUnitsBounds | eval.cpp:961-965 | with non-negative counters the units lie between min(99, 3 * (adjacent + undefended)) and 99 |
| KingSafety.AttackUnitsMonotone | eval.cpp:961-965 | more attackers, weight, adjacent attacks, undefended squares or exposure never give fewer units |
| KingSafety.KingDangerMonotone | eval.cpp:965-967 | within 0..99 units the squared penalty grows with the units and stays within (9801, 4900) |
| KingSafety.KingAttackTermMeaning | eval.cpp:944-998 | the king-attack term is non-zero exactly when there are at least two attackers and at least one adjacent attack, and its lanes are bounded by (9801, 4900) |
| KingSafety.ExposedAsWritten | eval.cpp:963 | the entry is missing exactly when the index as written is past the table |
| KingSafety.ExposedAsWrittenOverruns | eval.cpp:963 | a black king on a1 makes the index 64, one past the table |
| KingSafety.ExposedAsWrittenAsymmetric | eval.cpp:963 | a white king on g1 reads 0 while a black king on the mirror square g8 reads 2 |
| KingSafety.ExposedMeaning | eval.cpp:991 | the corrected lookup lies in 0..15 for every square and gives a black king the entry of a white king on the mirrored square |
| Evaluation.ExactEntryDecides | eval.cpp:701-707 | an exact entry for the material key is the evaluation |
| Evaluation.ExactFunctionEntry | eval.cpp:710-716 | an evalKBPvsK entry decides the evaluation (0) only when the function accepts; otherwise the full evaluation runs |
| Evaluation.NoShortcut | eval.cpp:701-718 | an additive entry or a missing key leaves the full evaluation to run |
| Evaluation.InitialTableEval | eval.cpp:701-718 | with the initial table every recognised balance evaluates to 0, or is a KBP balance that is evaluated in full |
| Evaluation.OpeningTempo | eval.cpp:723-729 | the tempo goes to the side to move: the lanes differ by twice the tempo between white and black to move |
| Evaluation.OpeningBishopPair | eval.cpp:736-750 | between two positions with the same material and side to move, the opening lanes differ by the bonus once per pair white gains and once per pair black loses; gaining only white's pair adds exactly the bonus, gaining only black's subtracts it |
| Evaluation.SpaceMeaning | eval.cpp:881-903 | a square is space exactly when it is on or behind an own pawn and no enemy pawn, knight, bishop, rook or queen attacks it |
| Evaluation.SpaceTermBounds | eval.cpp:905 | the space term is middlegame only and within 6400 either way |
| Evaluation.BlendOpening | eval.cpp:1004-1016 | at phase 0 the result is the middlegame lane, negated when black is to move |
| Evaluation.BlendEndgame | eval.cpp:1004-1016 | at phase 65536 the result is the endgame lane, negated when black is to move |
| Evaluation.BlendSideToMove | eval.cpp:1010-1016 | the side to move only flips the sign, and the score seen by white lies between the lanes |
| Evaluation.EvalOpening | eval.cpp:696-750 | material, tempo and bishop pairs give the opening lanes |
| Evaluation.ProbePawns | eval.cpp:767-846 | the pawn stage yields the entry of the pawn structure, keeps the table valid, and inserts the entry only on a miss |
| Evaluation.ProbeMaterial | eval.cpp:701-718 | the material stage returns the score the material entry decides, if any |
| Evaluation.EvalSide | eval.cpp:859-867 | the four evalPieces calls of a colour are added (white) or subtracted (black), each on the arrays the previous call left |
| Evaluation.EvalPieceSides | eval.cpp:859-872 | white's pieces, then black's, then the kings' attacks leave the attack maps and counters the later terms read |
| Evaluation.SetKings | eval.cpp:871-872 | attackedSquares[whiteKing] and attackedSquares[blackKing] are the kings' attacks, nothing else changes |
| Evaluation.EvalPositional | eval.cpp:859-998 | pieces, space, pawn shield and king safety are added in the source's order, with the black king's exposure read at its mirrored square |
| Evaluation.Finalize | eval.cpp:1004-1016 | the result is the phase blend of the lanes, negated when black is to move |
| Evaluation.EvalLanes | eval.cpp:720-998 | the lanes after the material stage, with the corrected exposure lookup, and the pawn table updated only on a miss |
| Evaluation.Eval | eval.cpp:666-1018 | Position::eval returns the evaluation of the position with the corrected exposure lookup, and keeps the pawn table valid, inserting only when neither the material table decides nor the pawn key is present |
| Evaluation.ExposureDelta | eval.cpp:944-970 | the black king's exposure changes the lanes only by the change in white's king-attack term, and not at all when that term does not apply |
| Evaluation.EvalAsWrittenAgrees | eval.cpp:944-970 | where the `64 - sq` read and the mirrored read agree, or white's attack term does not apply, the evaluation as written equals the corrected evaluation |
| Evaluation.EvalAsWrittenOverruns | eval.cpp:963 | with a black king on a1 under white's attack and no material short cut, the evaluation as written reads past KingExposed |
| Evaluation.KingAttackTermShift | eval.cpp:961-967 | two more units of exposure below the cap make the applied king-attack penalty strictly larger |
| Evaluation.ExposureRaisesAttack | eval.cpp:944-970 | two more units of black-king exposure below the cap raise the middlegame lane |
| Evaluation.AsWrittenG8Differs | eval.cpp:963 | with a black king on g8 under white's attack, below the cap, the source's middlegame lane is larger than the corrected one |

## Left out

- Evaluation.Eval: reads the black king's exposure at its mirrored square, not at `KingExposed[64 - sq]` as eval.cpp:963 does. The two reads differ for a black king on a6, b6, c6, g6, h6, a7, c7, d7, f7, g7, b8, c8, d8, f8, g8 or h8, so under white's attack the score can differ from the source's, and on a1 the source reads past the table. `Evaluation.EvalAsWritten` models the source's read.
- Evaluation.EvalLanes: the lanes use the same corrected exposure lookup, not the source's `64 - sq` read.
- Evaluation.EvalPositional: white's king-attack term uses the same corrected exposure lookup, not the source's `64 - sq` read.
- tuner.cpp, command.cpp and vajolet.cpp are not part of this model. They hold the parameter tuner (file I/O and floating point), the UCI loop and start-up.
- `Movegen::attackFrom` and `Movegen::attackFromKing`: their code is not part of this model. They are parameters of the evaluation (the `Movegen` datatype). `MobilityBounded` is the bound on their attack sets that keeps the mobility index in the row.
- Pieces.MobilityBonus: an index past the listed entries of a row gives zero. This matches the zero-filled rest of the 32-entry row. The C++ index past 32 is not modelled; `MobilityInRow` shows it cannot occur when the generator is bounded.
- `Position::setupFromFen` and material-key and pawn-key hashing: the keys are the material counts and the pawn bitboards themselves, so keys never collide.
- PawnStructure.PawnTable.Probe: the table is a map from exact keys, so a hit returns the entry stored for that key. The engine's fixed-size hashed table, its replacement policy and its collisions are not modelled.
- The `additiveFunction` entry kind is modelled. `initMaterialKeys` never stores one, and the evaluator ignores it.
- Lanes 2 and 3 of `simdScore` are always zero and are left out.
- Integer widths are not modelled (unbounded integers). The king-attack counters are `unsigned int` in the source. They are modelled as integers that only grow from 0, so no wrap-around occurs. The evaluation's `Score` and `signed long long` blend are modelled without overflow.
- The source computes the king zones before the material probe. The model computes them after it. The zones are pure, so the results agree.
- Evaluation.Eval: the local arrays `weakSquares`, `holes`, `kingRing`, `kingShield` and `kingFarShield` are modelled as values, because the evaluator only writes them once. `attackedSquares` and the three counter arrays are real arrays.
- The `PASSED_PAWN`, `FILEMASK` and similar tables are defined in files that are not part of this model. Each is a function with its evident meaning, and the lemmas listed above state that meaning per square.

## Findings

| source | as written | input that shows it | evidently intended | confidence | as-written member | corrected member |
|---|---|---|---|---|---|---|
| eval.cpp:963 | the exposure of the black king is read at `KingExposed[64 - sq]` | black king on a1 (sq = 0) reads `KingExposed[64]`, past the 64-entry table; a black king on g8 reads 2 where a white king on g1 reads 0 | the black king's square seen from black's side (the mirrored square, `sq ^ 56`), as the table is laid out for white | not executed | KingSafety.ExposedAsWrittenOverruns | KingSafety.ExposedMeaning |
