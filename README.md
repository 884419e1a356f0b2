# Bulu-chess rules engine, modelled in Dafny

This project models the shared game core of Bulu-chess (`amplify/shared/game/`). Bulu-chess is a chess variant played on 10x10, 11x11 and 13x13 boards. It adds two kinds of piece:

- a **guard**;
- a **cannon**, which can stand alone or be carried by another piece. A piece carrying a cannon has a two-letter code, such as `"kc"` or `"KC"`.

A cannon-carrying piece that stands on a **battery square** can **bombard** enemy pieces, from fixed target cells or along fixed rays.

The model covers these parts of the source:

- **Types** (`types.dfy`): the piece families and `PieceList`, the square-type table, the board sizes, the file letters, and the move-record datatypes (`MoveUnit`, `MoveSequence`, `CannonSequence`, `AvailableMoves`).
- **Utils** (`utils.dfy`): coordinate notation (`coordToStringCode` and `stringCodeToCoord`) and the piece-code lookups (name, colour, colour label).
- **Pieces** (`piece.dfy`): `Piece` as a value, with its predicates and the equip/dump code changes.
- **Grids** (`grid.dfy`): the seven board operations (move, capture, capture-equip, move-equip, transfer-equip, dump, bombard), written as functions on a grid value. Each has an effect lemma (when it applies, what changes, how the piece count moves) and an invariant lemma (it keeps every piece a `PieceList` piece facing its side's way).
- **Board** (`board.dfy`): `GameData` as a class over three `array2` fields: pieces, formation and stored notation codes.
  - The constructor flips the arrays in place for the `WHITE_TOP` orientation.
  - The queries read only the arrays.
  - The seven operations are methods. Each is proved to leave the board equal to the matching Grids function of the old board, and to keep the class invariant `Valid()`.
- **RuleUtils** (`rule_utils.dfy`): `generateMoveOrCapture`, `generateCannonMoves`, `getSlidingMoves`, `_generateBombardFromDir` and `generateBombardMoves`.
  - The loops are methods proved against recursive specification functions (`StepEntry`, `Steps`, `Ray`, `Sliding`, `CannonEntries` and the bombard functions).
  - Lemmas state what those functions mean: which targets appear, which action each carries, and the bounds on how many there are.
- **Per-piece generators**: the Knight, King, Guard, Bishop, Rook, Queen, Pawn and Cannon modules. Each generator is a method proved equal to a specification function. A `...MovesMeaning` lemma then states the categories and entries it reports.
- **Rules** (`rules.dfy`): `GameRules.getAvailableMoves`, the dispatcher by piece family, with lemmas proving that the order of its tests routes every code to its own family's generator.

Shared conventions:

- The source's helpers push into a caller-owned `AvailableMoves` object. Here they are methods that take the record and return the updated one. The object is never shared, so passing it by value loses nothing.
- A JavaScript `TypeError` (indexing a row that does not exist) is the `Thrown` result of an operation.
- An `undefined` cell, in a column that does not exist, reads as empty.

Behaviour of the code that the model reproduces as written:

- On a flipped board `coordToStringCode` always produces rank `size + 1`: the flipped branch never reads `coord.y`. As a result, every code a generator emits on a flipped board decodes to row `boardSize`, which is off the board. The codes stored in `boardCoordinates` are built unflipped and then rotated, so they do decode correctly. `Utils.FlippedEncodeLosesRow` and `Board.GameData.FlippedNotationMismatch` state both facts.
- `isCaptureEquipTarget` accepts an advanced cannon (`"cc"`/`"CC"`), which `captureEquip` then refuses (`Board.GameData.AdvancedCannonTargetRefused`).
- `bombard` does not check the target's colour, so it also clears friendly pieces (`Grids.BombardIgnoresColour`).
- **Piece counts:** `moveEquip` removes the bare cannon from its cell, so the board holds one piece fewer afterwards. `dump` adds one piece: a new bare cannon. This follows the code.
- The pawn's forward mover (the capture followed by a diagonal step on, `rules/pawn.ts:76-92`) pushes its `BATTERY` action with the *captured* cell's code, not the code of the cell it lands on. `Pawn.DiagonalMeaning` states this.
- The bombard tables' single targets are absolute cells, not offsets from the cannon. They are tried as given.
- `isSquareEmpty` is true off the board. The pawn's double step tests only emptiness, not bounds, just as the code does.
- For the Cannon family, `getCannonMoves` returns only the `cannon` category: a `MOVE_EQUIP` entry for each in-bound neighbour holding a friendly bare piece, and none at all for an advanced cannon.

## Model

| member | source | states |
|---|---|---|
| Types.SquareTypes | amplify/shared/game/game-types.ts:58-67 | each square code's kind and colour: 0/1 squares, 10/11 shelters, 66/99 batteries with face L/R |
| Types.BatteryFaceAgrees | amplify/shared/game/game-types.ts:63-69 | getBatteryFace agrees with the face recorded in SquareTypes, and is L or R |
| Types.FamilyShape | amplify/shared/game/game-types.ts:26-33 | each family holds the bare and the equipped code of both colours, with its name in PieceNamesLookup |
| Types.FamiliesDisjoint | amplify/shared/game/game-types.ts:26-38 | no code is in two families, and PieceList is exactly the union of the eight |
| Types.PieceListIsUnion | amplify/shared/game/game-types.ts:35-38 | a code is in PieceList iff it is in one of the families |
| Types.FilesCoverBoards | amplify/shared/game/game-types.ts:70-73 | thirteen distinct file letters, enough for every board size |
| Utils.IndexOf | amplify/shared/game/game-utils.ts:34-39 | indexOf gives the first position of the character, or -1 exactly when it is absent |
| Utils.DecodeEncodeUnflipped | amplify/shared/game/game-utils.ts:14-42 | unflipped decoding inverts unflipped encoding for every cell with a valid file |
| Utils.EncodeDecodeUnflipped | amplify/shared/game/game-utils.ts:14-42 | unflipped encoding inverts unflipped decoding for every code with a valid file letter |
| Utils.FlippedDecodeIsRotation | amplify/shared/game/game-utils.ts:27-42 | flipped decoding is the 180-degree rotation of unflipped decoding |
| Utils.FlippedEncodeLosesRow | amplify/shared/game/game-utils.ts:19-23 | flipped encoding always gives rank size + 1, so decoding it lands on row size and never on the cell |
| Utils.ColorOfLetterCode | amplify/shared/game/game-utils.ts:55-65 | on a single-case letter code exactly one of black and white holds, and the label matches the colour |
| Utils.PieceTypeLetters | amplify/shared/game/game-types.ts:13-38 | every PieceList code has one or two letters of one case, and its first letter names a family |
| Utils.PieceColorExclusive | amplify/shared/game/game-utils.ts:59-65 | for a PieceList code, getPieceColor is black exactly when isWhite is false |
| Utils.PieceNameByFamily | amplify/shared/game/game-utils.ts:44-53 | the name is the code's family name, with "%" appended exactly for the two-letter codes |
| Pieces.NewPiece | amplify/shared/game/game-piece.ts:16-22 | the new piece keeps code and direction, and takes its colour and label from the case of its code |
| Pieces.BareOrEquipped | amplify/shared/game/game-piece.ts:28-34 | every well-formed piece is bare or equipped, never both |
| Pieces.EquipIdempotent | amplify/shared/game/game-piece.ts:52-57 | equipping appends the cannon letter of the piece's colour, and equipping twice is equipping once |
| Pieces.CodeShape | amplify/shared/game/game-types.ts:13-20 | a code is a letter, or a letter plus the cannon letter of its case, and equip and dump stay in PieceList |
| Pieces.EquipDumpRoundTrip | amplify/shared/game/game-piece.ts:52-64 | dump undoes equip on a bare piece, equip undoes dump on an equipped one, and dump leaves a bare code alone |
| Pieces.EquipDumpKeepColor | amplify/shared/game/game-piece.ts:16-64 | equip and dump stay in PieceList, keep the colour, and give an equipped and a bare piece |
| Pieces.CannonCodes | amplify/shared/game/game-piece.ts:36-42 | which codes isBareCannon and isAdvancedCannon accept, in any case mix and within PieceList |
| Pieces.EquipBareCannon | amplify/shared/game/game-piece.ts:36-57 | equipping a bare cannon gives an advanced cannon of the same colour |
| Grids.Cell | amplify/shared/game/game-data.ts:127-128 | a cell read yields a piece only on an existing cell |
| Grids.PutCell | amplify/shared/game/game-data.ts:301-302 | a write changes the written cell and no other |
| Grids.PutCount | amplify/shared/game/game-data.ts:301-302 | a write changes the piece count by what it puts in minus what it overwrites |
| Grids.HomeRowsFaceAttack | amplify/shared/game/game-data.ts:252-266 | the second home row is one step forward of the first, the first is on the home edge, and a side attacks upwards iff it is drawn at the bottom |
| Grids.OperationsRejectCleanly | amplify/shared/game/game-data.ts:114-129 | every operation throws on a missing row, and whenever it returns null it changes nothing |
| Grids.MoveEffect | amplify/shared/game/game-data.ts:298-315 | move applies iff the source is occupied and the target empty; the piece moves, nothing else changes, the count is kept |
| Grids.CaptureEffect | amplify/shared/game/game-data.ts:317-334 | capture applies iff the two pieces are of opposite colours; the defender is reported and replaced, one piece fewer |
| Grids.CaptureEquipEffect | amplify/shared/game/game-data.ts:336-357 | capture-equip applies iff the colours are opposite and the defender is a bare cannon or a non-advanced equipped piece; the attacker lands equipped |
| Grids.MoveEquipEffect | amplify/shared/game/game-data.ts:359-377 | move-equip applies iff a bare cannon joins a friendly bare piece; that piece is equipped, the cannon's cell is empty, one piece fewer |
| Grids.TransferEquipEffect | amplify/shared/game/game-data.ts:379-398 | transfer-equip applies iff an equipped piece hands its cannon to a friendly bare piece; both are rebuilt and the count is kept |
| Grids.DumpEffect | amplify/shared/game/game-data.ts:400-420 | dump applies iff an equipped piece aims at an empty cell; it becomes bare and a new bare cannon of its colour appears, one piece more |
| Grids.BombardEffect | amplify/shared/game/game-data.ts:422-438 | bombard applies iff an equipped piece on a battery aims at an occupied cell; only the target is cleared, one piece fewer |
| Grids.BombardIgnoresColour | amplify/shared/game/game-data.ts:424-425 | bombard also clears a piece of the bombarding side |
| Grids.MoveKeepsGood | amplify/shared/game/game-data.ts:298-315 | move keeps every piece a PieceList piece facing its side's direction |
| Grids.CaptureKeepsGood | amplify/shared/game/game-data.ts:317-334 | capture keeps the piece invariant |
| Grids.CaptureEquipKeepsGood | amplify/shared/game/game-data.ts:336-357 | capture-equip keeps the piece invariant |
| Grids.MoveEquipKeepsGood | amplify/shared/game/game-data.ts:359-377 | move-equip keeps the piece invariant |
| Grids.TransferEquipKeepsGood | amplify/shared/game/game-data.ts:379-398 | transfer-equip keeps the piece invariant |
| Grids.DumpKeepsGood | amplify/shared/game/game-data.ts:400-420 | dump keeps the piece invariant |
| Grids.BombardKeepsGood | amplify/shared/game/game-data.ts:422-438 | bombard keeps the piece invariant |
| Board.Rotated | amplify/shared/game/game-data.ts:82-83 | the rotation of a square grid is a square grid of the same size |
| Board.RotatedTwice | amplify/shared/game/game-data.ts:82-83 | rotating twice gives the grid back |
| Board.InitialGridGood | amplify/shared/game/game-data.ts:62-68 | the constructor's pieces are PieceList pieces of a size-by-size grid, each facing its side's way |
| Board.StoredCodesDecode | amplify/shared/game/game-data.ts:70-84 | the stored codes decode to their own cells, on flipped and unflipped boards alike |
| Board.NewCellArray | amplify/shared/game/game-data.ts:62-84 | the built array holds the given rows, rotated when the board is flipped |
| Board.ReverseRowOrder | amplify/shared/game/game-data.ts:82 | boardData.reverse() reverses the row order in place |
| Board.ReverseEachRow | amplify/shared/game/game-data.ts:82 | row.reverse() on every row, in place |
| Board.ReverseRowsAndEachRow | amplify/shared/game/game-data.ts:82-83 | the two reversals together rotate the array by 180 degrees in place |
| Board.GameData.constructor | amplify/shared/game/game-data.ts:56-89 | the board is valid; pieces and codes are as laid out, rotated for WHITE_TOP; the formation is copied unflipped |
| Board.GameData.UnflippedNotationRoundTrip | amplify/shared/game/game-data.ts:133-149 | on an unflipped board coordStrToXy(coordXyToStr(c)) is c |
| Board.GameData.FlippedNotationMismatch | amplify/shared/game/game-data.ts:133-149 | on a flipped board an encoded cell decodes off the board, while its stored code decodes to the cell |
| Board.GameData.ReadCell | amplify/shared/game/game-data.ts:127-128 | reads the grid cell, and a missing column reads as absent |
| Board.GameData.DecodeFromAndTo | amplify/shared/game/game-data.ts:114-129 | defined iff both decoded rows exist, giving the decoded cells and what they hold |
| Board.GameData.GetPiece | amplify/shared/game/game-data.ts:170-179 | undefined exactly off the board |
| Board.GameData.GetPieceReadsGrid | amplify/shared/game/game-data.ts:177-178 | on the board getPiece is the grid's content of that cell |
| Board.GameData.CellClassification | amplify/shared/game/game-data.ts:181-229 | off the board a cell reads empty and is neither opponent nor friend; on it exactly one of empty, opponent, friend |
| Board.GameData.AdvancedCannonTargetRefused | amplify/shared/game/game-data.ts:231-242 | isCaptureEquipTarget accepts an advanced cannon that captureEquip refuses, while a plain capture applies |
| Board.GameData.WriteCell | amplify/shared/game/game-data.ts:301-302 | the array write is the grid write Put |
| Board.GameData.Move | amplify/shared/game/game-data.ts:298-315 | result and new board are Grids.Move of the old board, and the board stays valid |
| Board.GameData.Capture | amplify/shared/game/game-data.ts:317-334 | result and new board are Grids.Capture of the old board, and the board stays valid |
| Board.GameData.CaptureEquip | amplify/shared/game/game-data.ts:336-357 | result and new board are Grids.CaptureEquip of the old board, and the board stays valid |
| Board.GameData.MoveEquip | amplify/shared/game/game-data.ts:359-377 | result and new board are Grids.MoveEquip of the old board, and the board stays valid |
| Board.GameData.TransferEquip | amplify/shared/game/game-data.ts:379-398 | result and new board are Grids.TransferEquip of the old board, and the board stays valid |
| Board.GameData.Dump | amplify/shared/game/game-data.ts:400-420 | result and new board are Grids.Dump of the old board, and the board stays valid |
| Board.GameData.Bombard | amplify/shared/game/game-data.ts:422-438 | result and new board are Grids.Bombard of the old board and formation, and the board stays valid |
| RuleUtils.StepEntryMeaning | amplify/shared/game/rules/utils.ts:35-78 | an entry exists iff the target is in bound and not friendly: MOVE on empty, CAPTURE_EQUIP or CAPTURE on an opponent, BATTERY iff a cannon lands on a battery |
| RuleUtils.GenerateMoveOrCapture | amplify/shared/game/rules/utils.ts:35-78 | appends the target's entry to a present default list, and continues iff the target is in bound and empty |
| RuleUtils.StepsMeaning | amplify/shared/game/rules/utils.ts:35-78 | a fixed mask gives at most one entry per offset, each some offset's entry, and every offset with an entry gives it |
| RuleUtils.RunLengthBound | amplify/shared/game/rules/utils.ts:140-145 | a ray's run of empty cells is no longer than the room left on the board |
| RuleUtils.RunLengthMeaning | amplify/shared/game/rules/utils.ts:140-145 | the run is a contiguous block of in-bound empty cells ending at a cell off the board or occupied |
| RuleUtils.RayMeaning | amplify/shared/game/rules/utils.ts:137-146 | a ray is one MOVE entry per empty cell of the run, then at most the entry of the cell that stopped it; at most boardSize entries |
| RuleUtils.SlidingBound | amplify/shared/game/rules/utils.ts:125-149 | a slide over dirs gives at most boardSize entries per direction |
| RuleUtils.GetSlidingMoves | amplify/shared/game/rules/utils.ts:125-149 | the result is default-only, holding the rays of the directions in order |
| RuleUtils.SlideAlong | amplify/shared/game/rules/utils.ts:140-145 | one direction's while loop appends exactly that direction's ray |
| RuleUtils.CannonEntryMeaning | amplify/shared/game/rules/utils.ts:101-112 | a neighbour gives DUMP iff in bound and empty, TRANSFER_EQUIP iff in bound and friendly bare, on that cell |
| RuleUtils.CannonEntriesMeaning | amplify/shared/game/rules/utils.ts:97-114 | at most one entry per offset, each some offset's entry, and every offset with an entry gives it |
| RuleUtils.GenerateCannonMoves | amplify/shared/game/rules/utils.ts:88-115 | replaces the cannon category with the neighbours' entries and leaves the rest alone |
| RuleUtils.CannonMovesMeaning | amplify/shared/game/rules/utils.ts:88-115 | at most eight cannon entries, each DUMP or TRANSFER_EQUIP on an in-bound king-adjacent cell it names |
| RuleUtils.BombardRayMeaning | amplify/shared/game/rules/utils.ts:151-168 | a bombard ray yields exactly the opponent, if any, at the end of its run of empty cells |
| RuleUtils.BombardSinglesMeaning | amplify/shared/game/rules/utils.ts:191-198 | a single target is recorded iff it is an in-bound opponent cell, in table order |
| RuleUtils.BombardRaysOpponents | amplify/shared/game/rules/utils.ts:199-209 | at most one target per ray, each an in-bound opponent's cell |
| RuleUtils.BombardTargetsAreOpponents | amplify/shared/game/rules/utils.ts:180-210 | every bombard target is an in-bound opponent cell, at most one per single and one per ray |
| RuleUtils.GenerateBombardFromDir | amplify/shared/game/rules/utils.ts:151-168 | continues exactly past an in-bound empty cell and records an opponent's cell; with no list it does nothing |
| RuleUtils.GenerateBombardMoves | amplify/shared/game/rules/utils.ts:180-210 | replaces the bombard category with the singles' targets followed by each ray's |
| RuleUtils.BombardAlong | amplify/shared/game/rules/utils.ts:204-207 | one ray's while loop appends exactly that ray's target |
| RuleUtils.BatteryFaceIsSide | amplify/shared/game/rules/bishop.ts:44-45 | a battery square's face is L or R |
| RuleUtils.WithCannon | amplify/shared/game/rules/bishop.ts:35-66 | the cannon layer never changes the default category and leaves a bare piece's result alone |
| RuleUtils.WithCannonCategories | amplify/shared/game/rules/bishop.ts:35-66 | cannon category iff the piece carries a cannon, bombard iff it also stands on a battery, from the face's table |
| RuleUtils.EmptyTableBombard | amplify/shared/game/rules/bishop.ts:53-55 | an empty table gives a present but empty bombard list |
| RuleUtils.WithCannonKeepsDefault | amplify/shared/game/rules/knight.ts:42-98 | the cannon layer commutes with setting the default list, so it may come first, as in the knight |
| RuleUtils.CannonLayerMeaning | amplify/shared/game/rules/bishop.ts:35-66 | the categories the layer adds, at most eight cannon entries, and bombard targets that are all in-bound opponent cells |
| RuleUtils.AddCannonMoves | amplify/shared/game/rules/bishop.ts:35-66 | the generators' cannon block computes exactly the cannon layer |
| RuleUtils.GenerateSteps | amplify/shared/game/rules/king.ts:21-30 | a forEach over a mask appends exactly the mask's entries |
| Knight.GetKnightMoves | amplify/shared/game/rules/knight.ts:36-99 | the generator's result is the knight's specification |
| Knight.KnightMaskShape | amplify/shared/game/rules/knight.ts:11-30 | every mask holds the eight knight jumps, then four orthogonal jumps of reach 1, 2 or 3 |
| Knight.KnightMovesMeaning | amplify/shared/game/rules/knight.ts:36-99 | independent tries of the twelve jumps, at most twelve entries; cannon and bombard categories as the layer gives; singles only, none on 13x |
| King.GetKingMoves | amplify/shared/game/rules/king.ts:16-64 | the generator's result is the king's specification |
| King.KingTables | amplify/shared/game/rules/king.ts:11-14 | five singles per face on 10x and 11x, no rays, nothing on 13x |
| King.KingMovesMeaning | amplify/shared/game/rules/king.ts:16-64 | at most eight entries, one per neighbour; cannon and bombard as the layer gives, at most five targets |
| Guard.GetGuardMoves | amplify/shared/game/rules/guard.ts:14-64 | the generator's result is the guard's specification |
| Guard.GuardMovesMeaning | amplify/shared/game/rules/guard.ts:14-64 | at most eight entries, one per neighbour; bombard singles only on 11x, an empty list otherwise |
| Bishop.GetBishopMoves | amplify/shared/game/rules/bishop.ts:18-69 | the generator's result is the bishop's specification |
| Bishop.BishopTables | amplify/shared/game/rules/bishop.ts:10-16 | the rays point left for L and right for R, with three singles on 11x only and nothing on 13x |
| Bishop.BishopMovesMeaning | amplify/shared/game/rules/bishop.ts:18-69 | the diagonal slides, at most four times boardSize entries; cannon and bombard as the layer gives |
| Rook.GetRookMoves | amplify/shared/game/rules/rook.ts:18-65 | the generator's result is the rook's specification |
| Rook.RookTables | amplify/shared/game/rules/rook.ts:10-16 | orthogonal rays only: two per face and no singles on 10x, three rays plus two singles on 11x |
| Rook.RookMovesMeaning | amplify/shared/game/rules/rook.ts:18-65 | the orthogonal slides, at most four times boardSize entries; cannon and bombard as the layer gives |
| Queen.GetQueenMoves | amplify/shared/game/rules/queen.ts:15-66 | the generator's result is the queen's specification |
| Queen.QueenTables | amplify/shared/game/rules/queen.ts:10-13 | rays only: four per face on 10x, five on 11x, nothing on 13x |
| Queen.QueenMovesMeaning | amplify/shared/game/rules/queen.ts:15-66 | the eight-direction slides, at most eight times boardSize entries; bombard only from rays |
| Pawn.GetPawnMoves | amplify/shared/game/rules/pawn.ts:19-129 | the generator's result is the pawn's specification |
| Pawn.PushForward | amplify/shared/game/rules/pawn.ts:34-55 | the single and double steps append exactly the forward entries |
| Pawn.PushDiagonal | amplify/shared/game/rules/pawn.ts:58-93 | one side appends exactly that side's capture and forward-mover entries |
| Pawn.PushDiagonals | amplify/shared/game/rules/pawn.ts:58-94 | the forEach over [-1, 1] appends the two sides' entries in order |
| Pawn.BothSides | amplify/shared/game/rules/pawn.ts:58 | the diagonal list is the left side's entries followed by the right side's |
| Pawn.ForwardMeaning | amplify/shared/game/rules/pawn.ts:34-55 | single step iff the cell ahead is in bound and empty, with BATTERY iff cannon on battery; double step iff also on the second home row with the next cell empty |
| Pawn.DiagonalMeaning | amplify/shared/game/rules/pawn.ts:58-93 | capture iff the diagonal cell holds an opponent, with its BATTERY action on that cell exactly when a cannon-carrying pawn lands on a battery; forward mover iff the next diagonal cell is in bound and empty, with a BATTERY naming the captured cell |
| Pawn.DiagonalCapturesOnly | amplify/shared/game/rules/pawn.ts:61-66 | every capture action of a side hits the opponent diagonally ahead on that side |
| Pawn.ForwardNeverCaptures | amplify/shared/game/rules/pawn.ts:34-55 | the forward steps carry only MOVE and BATTERY |
| Pawn.PawnCapturesDiagonally | amplify/shared/game/rules/pawn.ts:34-94 | a pawn never captures straight ahead: every capture hits an opponent diagonally ahead |
| Pawn.PawnMovesMeaning | amplify/shared/game/rules/pawn.ts:19-129 | at most six default entries; cannon and bombard as the layer gives, singles only, none on 13x |
| Cannon.GetCannonMoves | amplify/shared/game/rules/cannon.ts:4-42 | the generator's result is the cannon's specification |
| Cannon.MoveEquipEntriesMeaning | amplify/shared/game/rules/cannon.ts:21-31 | one MOVE_EQUIP entry per offset at most, each on an in-bound friendly bare cell it names, and every such offset gives its entry |
| Cannon.CannonPieceMovesMeaning | amplify/shared/game/rules/cannon.ts:4-42 | only the cannon category; none for an advanced cannon; otherwise at most eight MOVE_EQUIP entries, exactly one per friendly bare neighbour |
| Rules.GetAvailableMoves | amplify/shared/game/game-rules.ts:19-49 | the dispatcher's result is AvailableMovesFor |
| Rules.Routing | amplify/shared/game/game-rules.ts:24-48 | every code reaches its own family's generator whatever the test order, and a code outside PieceList gets the empty result |
| Rules.KnownCodesGetMoves | amplify/shared/game/game-rules.ts:19-49 | the result is empty exactly for a code outside PieceList |

## Left out

- `logOperation`, `printCurrentBoard` and `Piece.getFullName`: console output only.
- `dataFromString` and `dataToString`: stubs in the source, with no behaviour.
- `GameData.sessionData`, the timers, the player fields and `Piece.userdata`: session bookkeeping, not read by the rules.
- `BoardDefaults` (`game-board`) is not part of this model. The constructor instead takes the layout, formation and size as parameters, with the precondition that they form a size-by-size board.
- The rank's decimal rendering and parsing (`Number(sc.slice(1))`): a code is a (file letter, integer rank) pair.
- `coordToStringCode` on a column outside the 13 file letters: the source produces an "undefined…" string. The model requires an in-range column. Every code the core keeps comes from an on-board column; off-board codes are computed in the source and then thrown away, and the model skips computing them.
- A write to a missing column of an existing row (for example `move("a1", "k1")` on a 10x board): JavaScript stores the piece as a stray property of that row. The bound-checked queries never read it, but `decodeFromAndTo` (`game-data.ts:127-128`) reads cells without a bound check, so a later operation from that column (`move("k1", "a1")`) finds the piece and moves it back. The model drops the write: the piece is lost, and that later operation sees an empty cell and returns null. The -1 piece count that `Grids.MoveEffect` gives for an off-grid destination is this loss.
- Case conversion (`toLowerCase`, `toUpperCase`) is modelled on ASCII letters only, where JavaScript maps all of Unicode. The two agree on every `PieceList` code, which is all that the lemmas about colour (`Utils.PieceColorExclusive` requires a `PieceList` code) rely on.
- The overloads of the queries that take a code or separate numbers: only the coordinate-pair forms are modelled. `_convertToPos`' `{-99, -99}` fallback is unreachable from the core.
- A generator for a cannon-carrying piece reads the formation at its own square, which throws off the board. The model's generators require such a piece to stand on the board (`CannonSquareOnBoard`); the bare pieces' generators have no such requirement.
- The 13x bombard tables are TODO in the source. They are modelled as the empty table the code uses.
- `Pawn.PushForward`, `Pawn.PushDiagonal`, `RuleUtils.SlideAlong`, `RuleUtils.BombardAlong`, `RuleUtils.GenerateSteps` and `RuleUtils.AddCannonMoves` are inner loops or blocks of the source's functions, extracted as methods so that each proof stays small. They do the same steps in the same order.
- `PROMOTE` is in `MoveTypes` but no generator emits it; it is modelled only as a move kind.
