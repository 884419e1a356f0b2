/**
 * The move-generation helpers shared by every piece
 * (amplify/shared/game/rules/utils.ts).
 *
 * In the source the helpers push into a caller-owned `refMoves` record; here
 * the record is a value that each helper method takes and hands back.  Each
 * helper method is proved equal to a specification function, and the lemmas
 * below say what those functions mean.
 */
module RuleUtils {
  import opened Types
  import opened Utils
  import opened Pieces
  import opened Board

  /** KING_MOVE_MASK: the eight neighbours, in the source's order. */
  const KingMoveMask: MoveMasks :=
    [(1, 0), (-1, 0), (0, 1), (0, -1), (1, 1), (1, -1), (-1, 1), (-1, -1)]

  function Offset(c: BoardCoordData, d: (int, int)): BoardCoordData {
    XY(c.x + d.0, c.y + d.1)
  }

  /** The cell k steps from c along d. */
  function Step(c: BoardCoordData, d: (int, int), k: nat): BoardCoordData {
    XY(c.x + k * d.0, c.y + k * d.1)
  }

  lemma StepShift(c: BoardCoordData, d: (int, int), k: nat)
    ensures Step(Offset(c, d), d, k) == Step(c, d, k + 1)
    ensures Step(c, d, 0) == c
  {
    assert (k + 1) * d.0 == k * d.0 + d.0;
    assert (k + 1) * d.1 == k * d.1 + d.1;
  }

  /** A ray direction: each component -1, 0 or 1, and not both 0 (from an
      empty start cell a zero direction could make the source's ray loops run
      forever). */
  predicate IsDirection(d: (int, int)) {
    -1 <= d.0 <= 1 && -1 <= d.1 <= 1 && d != (0, 0)
  }

  predicate AreDirections(dirs: MoveMasks) {
    forall i :: 0 <= i < |dirs| ==> IsDirection(dirs[i])
  }

  /** A list of ray directions, checked once where it is declared. */
  type DirectionList = dirs: MoveMasks | AreDirections(dirs)

  /** How many cells of a size-by-size board a ray from c along d can still
      visit, c included; the termination measure of every ray. */
  function Room(size: int, c: BoardCoordData, d: (int, int)): nat {
    var n :=
      if d.0 > 0 then size - c.x else if d.0 < 0 then c.x + 1
      else if d.1 > 0 then size - c.y else c.y + 1;
    if n > 0 then n else 0
  }

  lemma RoomShrinks(size: int, c: BoardCoordData, d: (int, int))
    requires IsDirection(d) && 0 <= c.x < size && 0 <= c.y < size
    ensures 1 <= Room(size, c, d) <= size
    ensures Room(size, Offset(c, d), d) == Room(size, c, d) - 1
  {
  }

  function OptionList<T>(o: Option<T>): (r: seq<T>)
    ensures |r| <= 1 && (r == [] <==> o.None?)
    ensures o.Some? ==> r == [o.value]
  {
    if o.Some? then [o.value] else []
  }

  // ---------------------------------------------------------------------------
  // generateMoveOrCapture (rules/utils.ts:35-78)
  // ---------------------------------------------------------------------------

  /** A strip with BATTERY pushed onto it when the mover carries a cannon and
      the cell c is a battery square; the BATTERY action names `at`. */
  function WithBattery(data: GameData, piece: Piece, c: BoardCoordData, actions: seq<MoveUnit>, at: BoardCoord): seq<MoveUnit>
    requires data.Shaped() && data.InBound(c)
    reads data, data.boardFormation
  {
    if piece.HasCannon() && data.IsBatterySquare(c.x, c.y) then actions + [MoveUnit(Battery, at)] else actions
  }

  /** The entry generateMoveOrCapture appends for the target cell c, if any. */
  function StepEntry(data: GameData, piece: Piece, c: BoardCoordData): Option<MoveSequence>
    requires data.Shaped()
    reads data, data.boardData, data.boardFormation
  {
    if !data.InBound(c) then None
    else
      var board := data.CoordXyToStr(c);
      if data.IsSquareEmpty(c) then
        Some(MoveSequence(board, WithBattery(data, piece, c, [MoveUnit(Move, board)], board)))
      else if data.IsOpponentPiece(piece.color, c) then
        var kind := if data.IsCaptureEquipTarget(piece, c) then CaptureEquip else Capture;
        Some(MoveSequence(board, WithBattery(data, piece, c, [MoveUnit(kind, board)], board)))
      else None
  }

  /** What the entry for a target means: there is one exactly on an in-bound
      cell that is not friendly; its first action is MOVE on an empty cell and
      CAPTURE_EQUIP or CAPTURE on an opponent's; every action names the cell;
      a second action, BATTERY, comes exactly with a cannon on a battery. */
  lemma StepEntryMeaning(data: GameData, piece: Piece, c: BoardCoordData)
    requires data.Shaped()
    ensures StepEntry(data, piece, c).Some? <==> data.InBound(c) && !data.IsFriendlyPiece(piece.color, c)
    ensures StepEntry(data, piece, c).Some? ==>
      var e := StepEntry(data, piece, c).value;
      && e.holder == data.CoordXyToStr(c)
      && (|e.actions| == 1 || |e.actions| == 2)
      && (forall i :: 0 <= i < |e.actions| ==> e.actions[i].at == e.holder)
      && (e.actions[0].kind == Move <==> data.IsSquareEmpty(c))
      && (e.actions[0].kind == CaptureEquip <==>
            data.IsOpponentPiece(piece.color, c) && data.IsCaptureEquipTarget(piece, c))
      && (e.actions[0].kind == Capture <==>
            data.IsOpponentPiece(piece.color, c) && !data.IsCaptureEquipTarget(piece, c))
      && (|e.actions| == 2 <==> piece.HasCannon() && data.IsBatterySquare(c.x, c.y))
      && (|e.actions| == 2 ==> e.actions[1].kind == Battery)
  {
    data.CellClassification(piece.color, c);
  }

  method GenerateMoveOrCapture(refMoves: AvailableMoves, thisPiece: Piece, data: GameData, c: BoardCoordData)
    returns (moves: AvailableMoves, cont: bool)
    requires data.Shaped()
    ensures refMoves.default.None? ==> moves == refMoves && !cont
    ensures refMoves.default.Some? ==>
      && cont == (data.InBound(c) && data.IsSquareEmpty(c))
      && moves == refMoves.(default := Some(refMoves.default.value + OptionList(StepEntry(data, thisPiece, c))))
  {
    moves, cont := refMoves, false;
    if refMoves.default.Some? {
      assert refMoves.default.value + [] == refMoves.default.value;
      var hasCannon := thisPiece.HasCannon();
      if data.InBound(c) {
        var board := data.CoordXyToStr(c);
        if data.IsSquareEmpty(c) {
          var actions := [MoveUnit(Move, board)];
          if hasCannon && data.IsBatterySquare(c.x, c.y) {
            actions := actions + [MoveUnit(Battery, board)];
          }
          moves := moves.(default := Some(refMoves.default.value + [MoveSequence(board, actions)]));
          cont := true;
        } else if data.IsOpponentPiece(thisPiece.color, c) {
          var actions := [MoveUnit(if data.IsCaptureEquipTarget(thisPiece, c) then CaptureEquip else Capture, board)];
          if hasCannon && data.IsBatterySquare(c.x, c.y) {
            actions := actions + [MoveUnit(Battery, board)];
          }
          moves := moves.(default := Some(refMoves.default.value + [MoveSequence(board, actions)]));
        }
      }
    }
  }

  /** The entries of a fixed list of offsets, each tried once (the forEach
      loops of the knight, king and guard generators). */
  function Steps(data: GameData, piece: Piece, from: BoardCoordData, mask: MoveMasks): seq<MoveSequence>
    requires data.Shaped()
    reads data, data.boardData, data.boardFormation
    decreases |mask|
  {
    if mask == [] then []
    else
      Steps(data, piece, from, mask[..|mask| - 1])
      + OptionList(StepEntry(data, piece, Offset(from, mask[|mask| - 1])))
  }

  /** At most one entry per offset, each the entry of one of the offsets, and
      every offset that has an entry contributes it. */
  lemma {:induction false} StepsMeaning(data: GameData, piece: Piece, from: BoardCoordData, mask: MoveMasks)
    requires data.Shaped()
    ensures |Steps(data, piece, from, mask)| <= |mask|
    ensures forall e :: e in Steps(data, piece, from, mask) ==>
      exists k :: 0 <= k < |mask| && StepEntry(data, piece, Offset(from, mask[k])) == Some(e)
    ensures forall k :: 0 <= k < |mask| && StepEntry(data, piece, Offset(from, mask[k])).Some? ==>
      StepEntry(data, piece, Offset(from, mask[k])).value in Steps(data, piece, from, mask)
    decreases |mask|
  {
    if mask != [] {
      var init := mask[..|mask| - 1];
      StepsMeaning(data, piece, from, init);
      forall e | e in Steps(data, piece, from, mask)
        ensures exists k :: 0 <= k < |mask| && StepEntry(data, piece, Offset(from, mask[k])) == Some(e)
      {
        if e in Steps(data, piece, from, init) {
          var k :| 0 <= k < |init| && StepEntry(data, piece, Offset(from, init[k])) == Some(e);
          assert init[k] == mask[k];
        } else {
          assert StepEntry(data, piece, Offset(from, mask[|mask| - 1])) == Some(e);
        }
      }
      forall k | 0 <= k < |mask| && StepEntry(data, piece, Offset(from, mask[k])).Some?
        ensures StepEntry(data, piece, Offset(from, mask[k])).value in Steps(data, piece, from, mask)
      {
        if k < |init| {
          assert init[k] == mask[k];
        }
      }
    }
  }

  // ---------------------------------------------------------------------------
  // getSlidingMoves (rules/utils.ts:125-149)
  // ---------------------------------------------------------------------------

  /** The number of in-bound empty cells met from c along d before the first
      cell that is off the board or occupied. */
  function RunLength(data: GameData, c: BoardCoordData, d: (int, int)): nat
    requires data.Shaped() && IsDirection(d)
    reads data, data.boardData
    decreases Room(data.boardSize, c, d)
  {
    if data.InBound(c) && data.IsSquareEmpty(c) then
      RoomShrinks(data.boardSize, c, d);
      1 + RunLength(data, Offset(c, d), d)
    else 0
  }

  /** The run never leaves the board: it is no longer than the room left
      along d, nor than the board. */
  lemma {:induction false} RunLengthBound(data: GameData, c: BoardCoordData, d: (int, int))
    requires data.Shaped() && IsDirection(d)
    ensures RunLength(data, c, d) <= Room(data.boardSize, c, d)
    ensures RunLength(data, c, d) <= data.boardSize
    decreases Room(data.boardSize, c, d)
  {
    if data.InBound(c) && data.IsSquareEmpty(c) {
      RoomShrinks(data.boardSize, c, d);
      RunLengthBound(data, Offset(c, d), d);
    }
  }

  /** The run is a contiguous block of in-bound empty cells that ends at a
      cell off the board or occupied. */
  lemma {:induction false} RunLengthMeaning(data: GameData, c: BoardCoordData, d: (int, int))
    requires data.Shaped() && IsDirection(d)
    ensures forall k :: 0 <= k < RunLength(data, c, d) ==>
      data.InBound(Step(c, d, k)) && data.IsSquareEmpty(Step(c, d, k))
    ensures !(data.InBound(Step(c, d, RunLength(data, c, d))) && data.IsSquareEmpty(Step(c, d, RunLength(data, c, d))))
    decreases Room(data.boardSize, c, d)
  {
    StepShift(c, d, 0);
    if data.InBound(c) && data.IsSquareEmpty(c) {
      var n := Offset(c, d);
      RoomShrinks(data.boardSize, c, d);
      RunLengthMeaning(data, n, d);
      var m := RunLength(data, n, d);
      assert RunLength(data, c, d) == m + 1;
      StepShift(c, d, m);
      forall k | 0 <= k < m + 1
        ensures data.InBound(Step(c, d, k)) && data.IsSquareEmpty(Step(c, d, k))
      {
        RunCell(data, c, d, k);
      }
    }
  }

  /** The k-th cell of a run that starts on a clear cell c is c itself or
      the (k-1)-th cell of the run from c's neighbour. */
  lemma RunCell(data: GameData, c: BoardCoordData, d: (int, int), k: nat)
    requires data.Shaped() && IsDirection(d)
    requires data.InBound(c) && data.IsSquareEmpty(c)
    requires forall j :: 0 <= j < RunLength(data, Offset(c, d), d) ==>
      data.InBound(Step(Offset(c, d), d, j)) && data.IsSquareEmpty(Step(Offset(c, d), d, j))
    requires k < RunLength(data, Offset(c, d), d) + 1
    ensures data.InBound(Step(c, d, k)) && data.IsSquareEmpty(Step(c, d, k))
  {
    if k == 0 {
      StepShift(c, d, 0);
    } else {
      StepShift(c, d, k - 1);
    }
  }

  /** The entries of one sliding ray starting at c: one per cell while the
      cells are empty, then the entry of the cell that stopped it, if any. */
  function Ray(data: GameData, piece: Piece, c: BoardCoordData, d: (int, int)): seq<MoveSequence>
    requires data.Shaped() && IsDirection(d)
    reads data, data.boardData, data.boardFormation
    decreases Room(data.boardSize, c, d)
  {
    if data.InBound(c) && data.IsSquareEmpty(c) then
      RoomShrinks(data.boardSize, c, d);
      [StepEntry(data, piece, c).value] + Ray(data, piece, Offset(c, d), d)
    else OptionList(StepEntry(data, piece, c))
  }

  /** A ray is its run of empty cells, each with its MOVE entry, followed by
      at most one more entry: the one of the cell that stopped the run (an
      opponent's, by StepEntryMeaning).  It holds at most boardSize entries. */
  lemma {:induction false} RayMeaning(data: GameData, piece: Piece, c: BoardCoordData, d: (int, int))
    requires data.Shaped() && IsDirection(d)
    ensures var r, n := Ray(data, piece, c, d), RunLength(data, c, d);
      && |r| == n + |OptionList(StepEntry(data, piece, Step(c, d, n)))|
      && (forall k :: 0 <= k < n ==> StepEntry(data, piece, Step(c, d, k)).Some? && r[k] == StepEntry(data, piece, Step(c, d, k)).value)
      && r[n..] == OptionList(StepEntry(data, piece, Step(c, d, n)))
    ensures |Ray(data, piece, c, d)| <= Room(data.boardSize, c, d)
    ensures |Ray(data, piece, c, d)| <= data.boardSize
    decreases Room(data.boardSize, c, d)
  {
    StepShift(c, d, 0);
    if data.InBound(c) && data.IsSquareEmpty(c) {
      var nx := Offset(c, d);
      RoomShrinks(data.boardSize, c, d);
      RayMeaning(data, piece, nx, d);
      var n := RunLength(data, nx, d);
      StepShift(c, d, n);
      var r := Ray(data, piece, c, d);
      assert r == [StepEntry(data, piece, c).value] + Ray(data, piece, nx, d);
      forall k | 0 <= k < n + 1
        ensures StepEntry(data, piece, Step(c, d, k)).Some? && r[k] == StepEntry(data, piece, Step(c, d, k)).value
      {
        if k > 0 {
          StepShift(c, d, k - 1);
        }
      }
      assert r[n + 1..] == Ray(data, piece, nx, d)[n..];
    } else if data.InBound(c) {
      RoomShrinks(data.boardSize, c, d);
    }
  }

  /** getSlidingMoves' default list: the rays along dirs, in order. */
  function Sliding(data: GameData, piece: Piece, from: BoardCoordData, dirs: MoveMasks): seq<MoveSequence>
    requires data.Shaped() && AreDirections(dirs)
    reads data, data.boardData, data.boardFormation
    decreases |dirs|
  {
    if dirs == [] then []
    else
      var d := dirs[|dirs| - 1];
      Sliding(data, piece, from, dirs[..|dirs| - 1]) + Ray(data, piece, Offset(from, d), d)
  }

  /** Each ray stops within boardSize cells, so no direction adds more than
      boardSize entries. */
  lemma {:induction false} SlidingBound(data: GameData, piece: Piece, from: BoardCoordData, dirs: MoveMasks)
    requires data.Shaped() && AreDirections(dirs)
    ensures |Sliding(data, piece, from, dirs)| <= |dirs| * data.boardSize
    decreases |dirs|
  {
    if dirs != [] {
      var d := dirs[|dirs| - 1];
      SlidingBound(data, piece, from, dirs[..|dirs| - 1]);
      RayMeaning(data, piece, Offset(from, d), d);
      assert |dirs| * data.boardSize == (|dirs| - 1) * data.boardSize + data.boardSize;
    }
  }

  method GetSlidingMoves(thisPiece: Piece, data: GameData, from: BoardCoordData, dirs: MoveMasks)
    returns (moves: AvailableMoves)
    requires data.Shaped() && AreDirections(dirs)
    ensures moves == AvailableMoves(Some(Sliding(data, thisPiece, from, dirs)), None, None)
  {
    moves := AvailableMoves(Some([]), None, None);
    for i := 0 to |dirs|
      invariant moves == AvailableMoves(Some(Sliding(data, thisPiece, from, dirs[..i])), None, None)
    {
      var d := dirs[i];
      moves := SlideAlong(moves, thisPiece, data, Offset(from, d), d);
      assert dirs[..i + 1][..i] == dirs[..i];
    }
    assert dirs[..|dirs|] == dirs;
  }

  /** The `while (generateMoveOrCapture(...))` loop of one direction. */
  method SlideAlong(refMoves: AvailableMoves, thisPiece: Piece, data: GameData, start: BoardCoordData, d: (int, int))
    returns (moves: AvailableMoves)
    requires data.Shaped() && IsDirection(d) && refMoves.default.Some?
    ensures moves == refMoves.(default := Some(refMoves.default.value + Ray(data, thisPiece, start, d)))
  {
    ghost var base := refMoves.default.value;
    ghost var whole := Ray(data, thisPiece, start, d);
    var c := start;
    var cont;
    moves, cont := GenerateMoveOrCapture(refMoves, thisPiece, data, c);
    RayUnfold(data, thisPiece, c, d);
    while cont
      invariant moves == refMoves.(default := moves.default) && moves.default.Some?
      invariant cont ==> data.InBound(c) && data.IsSquareEmpty(c)
      invariant cont ==> moves.default.value + Ray(data, thisPiece, Offset(c, d), d) == base + whole
      invariant !cont ==> moves.default.value == base + whole
      decreases Room(data.boardSize, c, d)
    {
      RoomShrinks(data.boardSize, c, d);
      ghost var before := moves.default.value;
      c := Offset(c, d);
      moves, cont := GenerateMoveOrCapture(moves, thisPiece, data, c);
      RayUnfold(data, thisPiece, c, d);
      Append3(before, OptionList(StepEntry(data, thisPiece, c)), if cont then Ray(data, thisPiece, Offset(c, d), d) else []);
    }
  }

  lemma Append3<T>(a: seq<T>, b: seq<T>, c: seq<T>)
    ensures (a + b) + c == a + (b + c)
    ensures b + [] == b
  {
  }

  /** One step of Ray: the entry of c, followed by the rest of the ray when c is empty. */
  lemma RayUnfold(data: GameData, piece: Piece, c: BoardCoordData, d: (int, int))
    requires data.Shaped() && IsDirection(d)
    ensures data.InBound(c) && data.IsSquareEmpty(c) ==>
      Ray(data, piece, c, d) == OptionList(StepEntry(data, piece, c)) + Ray(data, piece, Offset(c, d), d)
    ensures !(data.InBound(c) && data.IsSquareEmpty(c)) ==>
      Ray(data, piece, c, d) == OptionList(StepEntry(data, piece, c))
  {
  }

  // ---------------------------------------------------------------------------
  // generateCannonMoves (rules/utils.ts:88-115)
  // ---------------------------------------------------------------------------

  /** The cannon entry for a neighbour c: DUMP onto an empty cell,
      TRANSFER_EQUIP onto a friendly bare piece. */
  function CannonEntry(data: GameData, color: PieceColor, c: BoardCoordData): Option<CannonSequence>
    requires data.Shaped()
    reads data, data.boardData
  {
    if !data.InBound(c) then None
    else
      var board := data.CoordXyToStr(c);
      if data.IsSquareEmpty(c) then Some(CannonSequence(board, MoveUnit(Dump, board)))
      else if data.IsFriendlyBarePiece(color, c) then Some(CannonSequence(board, MoveUnit(TransferEquip, board)))
      else None
  }

  lemma CannonEntryMeaning(data: GameData, color: PieceColor, c: BoardCoordData)
    requires data.Shaped()
    ensures CannonEntry(data, color, c).Some? <==>
      data.InBound(c) && (data.IsSquareEmpty(c) || data.IsFriendlyBarePiece(color, c))
    ensures CannonEntry(data, color, c).Some? ==>
      var e := CannonEntry(data, color, c).value;
      && e.holder == data.CoordXyToStr(c) && e.action.at == e.holder
      && (e.action.kind == Dump <==> data.IsSquareEmpty(c))
      && (e.action.kind == TransferEquip <==> data.IsFriendlyBarePiece(color, c))
  {
    data.CellClassification(color, c);
  }

  function CannonEntries(data: GameData, color: PieceColor, from: BoardCoordData, mask: MoveMasks): seq<CannonSequence>
    requires data.Shaped()
    reads data, data.boardData
    decreases |mask|
  {
    if mask == [] then []
    else
      CannonEntries(data, color, from, mask[..|mask| - 1])
      + OptionList(CannonEntry(data, color, Offset(from, mask[|mask| - 1])))
  }

  /** At most one entry per offset, each the entry of one of the offsets, and
      every offset that has an entry contributes it. */
  lemma {:induction false} CannonEntriesMeaning(data: GameData, color: PieceColor, from: BoardCoordData, mask: MoveMasks)
    requires data.Shaped()
    ensures |CannonEntries(data, color, from, mask)| <= |mask|
    ensures forall e :: e in CannonEntries(data, color, from, mask) ==>
      exists k :: 0 <= k < |mask| && CannonEntry(data, color, Offset(from, mask[k])) == Some(e)
    ensures forall k :: 0 <= k < |mask| && CannonEntry(data, color, Offset(from, mask[k])).Some? ==>
      CannonEntry(data, color, Offset(from, mask[k])).value in CannonEntries(data, color, from, mask)
    decreases |mask|
  {
    if mask != [] {
      var init := mask[..|mask| - 1];
      CannonEntriesMeaning(data, color, from, init);
      forall e | e in CannonEntries(data, color, from, mask)
        ensures exists k :: 0 <= k < |mask| && CannonEntry(data, color, Offset(from, mask[k])) == Some(e)
      {
        if e in CannonEntries(data, color, from, init) {
          var k :| 0 <= k < |init| && CannonEntry(data, color, Offset(from, init[k])) == Some(e);
          assert init[k] == mask[k];
        } else {
          assert CannonEntry(data, color, Offset(from, mask[|mask| - 1])) == Some(e);
        }
      }
      forall k | 0 <= k < |mask| && CannonEntry(data, color, Offset(from, mask[k])).Some?
        ensures CannonEntry(data, color, Offset(from, mask[k])).value in CannonEntries(data, color, from, mask)
      {
        if k < |init| {
          assert init[k] == mask[k];
        }
      }
    }
  }

  /** Replaces the cannon category with the entries of the eight neighbours. */
  method GenerateCannonMoves(refMoves: AvailableMoves, thisPiece: Piece, data: GameData, from: BoardCoordData)
    returns (moves: AvailableMoves)
    requires data.Shaped()
    ensures moves == refMoves.(cannon := Some(CannonEntries(data, thisPiece.color, from, KingMoveMask)))
  {
    moves := refMoves.(cannon := Some([]));
    for i := 0 to |KingMoveMask|
      invariant moves == refMoves.(cannon := Some(CannonEntries(data, thisPiece.color, from, KingMoveMask[..i])))
    {
      var c := Offset(from, KingMoveMask[i]);
      assert KingMoveMask[..i + 1][..i] == KingMoveMask[..i];
      assert moves.cannon.value + [] == moves.cannon.value;
      if data.InBound(c) {
        var board := data.CoordXyToStr(c);
        if data.IsSquareEmpty(c) {
          moves := moves.(cannon := Some(moves.cannon.value + [CannonSequence(board, MoveUnit(Dump, board))]));
        } else if data.IsFriendlyBarePiece(thisPiece.color, c) {
          moves := moves.(cannon := Some(moves.cannon.value + [CannonSequence(board, MoveUnit(TransferEquip, board))]));
        }
      }
    }
    assert KingMoveMask[..|KingMoveMask|] == KingMoveMask;
  }

  // ---------------------------------------------------------------------------
  // _generateBombardFromDir and generateBombardMoves (rules/utils.ts:151-210)
  // ---------------------------------------------------------------------------

  /** An in-bound cell holding a piece of the other colour. */
  predicate IsOpponentCell(data: GameData, color: PieceColor, c: BoardCoordData)
    requires data.Shaped()
    reads data, data.boardData
  {
    data.InBound(c) && data.IsOpponentPiece(color, c)
  }

  /** The code of c when it is an in-bound cell holding an opponent. */
  function BombardSingle(data: GameData, color: PieceColor, c: BoardCoordData): seq<BoardCoord>
    requires data.Shaped()
    reads data, data.boardData
  {
    if IsOpponentCell(data, color, c) then [data.CoordXyToStr(c)] else []
  }

  /** A table entry read as an absolute cell. */
  function TableCell(s: (int, int)): BoardCoordData {
    XY(s.0, s.1)
  }

  /** The singles of a bombard table: absolute cells, not offsets. */
  function BombardSingles(data: GameData, color: PieceColor, singles: MoveMasks): seq<BoardCoord>
    requires data.Shaped()
    reads data, data.boardData
    decreases |singles|
  {
    if singles == [] then []
    else
      var s := singles[|singles| - 1];
      BombardSingles(data, color, singles[..|singles| - 1]) + BombardSingle(data, color, TableCell(s))
  }

  /** A bombard ray: it passes over empty cells and yields the first cell
      that stops it, when that cell holds an opponent. */
  function BombardRay(data: GameData, color: PieceColor, c: BoardCoordData, d: (int, int)): seq<BoardCoord>
    requires data.Shaped() && IsDirection(d)
    reads data, data.boardData
    decreases Room(data.boardSize, c, d)
  {
    if data.InBound(c) && data.IsSquareEmpty(c) then
      RoomShrinks(data.boardSize, c, d);
      BombardRay(data, color, Offset(c, d), d)
    else BombardSingle(data, color, c)
  }

  function BombardRays(data: GameData, color: PieceColor, from: BoardCoordData, dirs: MoveMasks): seq<BoardCoord>
    requires data.Shaped() && AreDirections(dirs)
    reads data, data.boardData
    decreases |dirs|
  {
    if dirs == [] then []
    else
      var d := dirs[|dirs| - 1];
      BombardRays(data, color, from, dirs[..|dirs| - 1]) + BombardRay(data, color, Offset(from, d), d)
  }

  /** The bombard list of generateBombardMoves: the singles, then the rays. */
  function BombardEntries(data: GameData, color: PieceColor, from: BoardCoordData, singles: MoveMasks, dirs: MoveMasks): seq<BoardCoord>
    requires data.Shaped() && AreDirections(dirs)
    reads data, data.boardData
  {
    BombardSingles(data, color, singles) + BombardRays(data, color, from, dirs)
  }

  /** A code that names an in-bound cell holding an opponent of `color`. */
  ghost predicate OpponentCode(data: GameData, color: PieceColor, b: BoardCoord)
    requires data.Shaped()
    reads data, data.boardData
  {
    exists c: BoardCoordData :: data.InBound(c) && data.IsOpponentPiece(color, c) && b == data.CoordXyToStr(c)
  }

  /** A bombard ray yields exactly the opponent, if any, at the end of the
      run of empty cells. */
  lemma {:induction false} BombardRayMeaning(data: GameData, color: PieceColor, c: BoardCoordData, d: (int, int))
    requires data.Shaped() && IsDirection(d)
    ensures BombardRay(data, color, c, d) == BombardSingle(data, color, Step(c, d, RunLength(data, c, d)))
    ensures |BombardRay(data, color, c, d)| <= 1
    decreases Room(data.boardSize, c, d)
  {
    StepShift(c, d, 0);
    if data.InBound(c) && data.IsSquareEmpty(c) {
      var n := Offset(c, d);
      RoomShrinks(data.boardSize, c, d);
      BombardRayMeaning(data, color, n, d);
      StepShift(c, d, RunLength(data, n, d));
    }
  }

  /** A single is recorded exactly when it is an in-bound opponent cell. */
  lemma {:induction false} BombardSinglesMeaning(data: GameData, color: PieceColor, singles: MoveMasks)
    requires data.Shaped()
    ensures |BombardSingles(data, color, singles)| <= |singles|
    ensures forall b :: b in BombardSingles(data, color, singles) ==>
      exists k :: 0 <= k < |singles| && IsOpponentCell(data, color, TableCell(singles[k])) && b == data.CoordXyToStr(TableCell(singles[k]))
    ensures forall k :: 0 <= k < |singles| && IsOpponentCell(data, color, TableCell(singles[k])) ==>
      data.CoordXyToStr(TableCell(singles[k])) in BombardSingles(data, color, singles)
    decreases |singles|
  {
    if singles != [] {
      var init := singles[..|singles| - 1];
      BombardSinglesMeaning(data, color, init);
      forall b | b in BombardSingles(data, color, singles)
        ensures exists k :: 0 <= k < |singles| && IsOpponentCell(data, color, TableCell(singles[k])) && b == data.CoordXyToStr(TableCell(singles[k]))
      {
        if b in BombardSingles(data, color, init) {
          var k :| 0 <= k < |init| && IsOpponentCell(data, color, TableCell(init[k])) && b == data.CoordXyToStr(TableCell(init[k]));
          assert init[k] == singles[k];
        } else {
          assert b in BombardSingle(data, color, TableCell(singles[|singles| - 1]));
        }
      }
      forall k | 0 <= k < |singles| && IsOpponentCell(data, color, TableCell(singles[k]))
        ensures data.CoordXyToStr(TableCell(singles[k])) in BombardSingles(data, color, singles)
      {
        if k < |init| {
          assert init[k] == singles[k];
        }
      }
    }
  }

  lemma {:induction false} BombardRaysOpponents(data: GameData, color: PieceColor, from: BoardCoordData, dirs: MoveMasks)
    requires data.Shaped() && AreDirections(dirs)
    ensures |BombardRays(data, color, from, dirs)| <= |dirs|
    ensures forall b :: b in BombardRays(data, color, from, dirs) ==> OpponentCode(data, color, b)
    decreases |dirs|
  {
    if dirs != [] {
      var d := dirs[|dirs| - 1];
      BombardRaysOpponents(data, color, from, dirs[..|dirs| - 1]);
      BombardRayMeaning(data, color, Offset(from, d), d);
      var s := Step(Offset(from, d), d, RunLength(data, Offset(from, d), d));
      if IsOpponentCell(data, color, s) {
        assert OpponentCode(data, color, data.CoordXyToStr(s));
      }
    }
  }

  /** Every bombard target is the code of an in-bound cell holding an
      opponent, and there is at most one per single and one per ray. */
  lemma BombardTargetsAreOpponents(data: GameData, color: PieceColor, from: BoardCoordData, singles: MoveMasks, dirs: MoveMasks)
    requires data.Shaped() && AreDirections(dirs)
    ensures |BombardEntries(data, color, from, singles, dirs)| <= |singles| + |dirs|
    ensures forall b :: b in BombardEntries(data, color, from, singles, dirs) ==> OpponentCode(data, color, b)
  {
    BombardSinglesMeaning(data, color, singles);
    BombardRaysOpponents(data, color, from, dirs);
    forall b | b in BombardSingles(data, color, singles) ensures OpponentCode(data, color, b) {
      var k :| 0 <= k < |singles| && IsOpponentCell(data, color, TableCell(singles[k])) && b == data.CoordXyToStr(TableCell(singles[k]));
      var c := TableCell(singles[k]);
      assert data.InBound(c) && data.IsOpponentPiece(color, c) && b == data.CoordXyToStr(c);
    }
  }

  /** One step of a bombard ray: true to go on past an empty cell; an
      opponent's cell is recorded.  With no bombard list it does nothing and
      the source's `undefined` reads as false. */
  method GenerateBombardFromDir(refMoves: AvailableMoves, thisPiece: Piece, data: GameData, c: BoardCoordData)
    returns (moves: AvailableMoves, cont: bool)
    requires data.Shaped()
    ensures refMoves.bombard.None? ==> moves == refMoves && !cont
    ensures cont ==> moves == refMoves
    ensures refMoves.bombard.Some? ==>
      && cont == (data.InBound(c) && data.IsSquareEmpty(c))
      && moves == refMoves.(bombard := Some(refMoves.bombard.value + (if cont then [] else BombardSingle(data, thisPiece.color, c))))
  {
    moves, cont := refMoves, false;
    if refMoves.bombard.Some? {
      assert refMoves.bombard.value + [] == refMoves.bombard.value;
      if data.InBound(c) {
        if data.IsSquareEmpty(c) {
          cont := true;
        } else if data.IsOpponentPiece(thisPiece.color, c) {
          moves := moves.(bombard := Some(refMoves.bombard.value + [data.CoordXyToStr(c)]));
        }
      }
    }
  }

  /** Sets the bombard category: the singles first, then each ray. */
  method GenerateBombardMoves(refMoves: AvailableMoves, thisPiece: Piece, data: GameData, from: BoardCoordData,
                              singles: MoveMasks, dirs: MoveMasks)
    returns (moves: AvailableMoves)
    requires data.Shaped() && AreDirections(dirs)
    ensures moves == refMoves.(bombard := Some(BombardEntries(data, thisPiece.color, from, singles, dirs)))
  {
    var color := thisPiece.color;
    moves := refMoves.(bombard := Some([]));
    for i := 0 to |singles|
      invariant moves == refMoves.(bombard := moves.bombard)
      invariant moves.bombard == Some(BombardSingles(data, color, singles[..i]))
    {
      var c := TableCell(singles[i]);
      assert singles[..i + 1][..i] == singles[..i];
      assert moves.bombard.value + [] == moves.bombard.value;
      if data.InBound(c) && data.IsOpponentPiece(color, c) {
        moves := moves.(bombard := Some(moves.bombard.value + [data.CoordXyToStr(c)]));
      }
    }
    assert singles[..|singles|] == singles;
    ghost var base := moves.bombard.value;
    assert base + [] == base;
    for i := 0 to |dirs|
      invariant moves == refMoves.(bombard := moves.bombard)
      invariant moves.bombard == Some(base + BombardRays(data, color, from, dirs[..i]))
    {
      var d := dirs[i];
      var c := Offset(from, d);
      ghost var sofar := moves.bombard.value;
      moves := BombardAlong(moves, thisPiece, data, c, d);
      assert dirs[..i + 1][..i] == dirs[..i];
      Append3(base, BombardRays(data, color, from, dirs[..i]), BombardRay(data, color, c, d));
      assert BombardRays(data, color, from, dirs[..i + 1])
        == BombardRays(data, color, from, dirs[..i]) + BombardRay(data, color, Offset(from, d), d);
    }
    assert dirs[..|dirs|] == dirs;
  }

  /** The `while (_generateBombardFromDir(...))` loop of one ray. */
  method BombardAlong(refMoves: AvailableMoves, thisPiece: Piece, data: GameData, start: BoardCoordData, d: (int, int))
    returns (moves: AvailableMoves)
    requires data.Shaped() && IsDirection(d) && refMoves.bombard.Some?
    ensures moves == refMoves.(bombard := Some(refMoves.bombard.value + BombardRay(data, thisPiece.color, start, d)))
  {
    var color := thisPiece.color;
    var c := start;
    var cont;
    moves, cont := GenerateBombardFromDir(refMoves, thisPiece, data, c);
    while cont
      invariant cont ==> data.InBound(c) && data.IsSquareEmpty(c) && moves == refMoves
      invariant cont ==> BombardRay(data, color, c, d) == BombardRay(data, color, start, d)
      invariant !cont ==> moves == refMoves.(bombard := Some(refMoves.bombard.value + BombardRay(data, color, start, d)))
      decreases Room(data.boardSize, c, d)
    {
      RoomShrinks(data.boardSize, c, d);
      ghost var prev := c;
      c := Offset(c, d);
      assert BombardRay(data, color, prev, d) == BombardRay(data, color, c, d);
      moves, cont := GenerateBombardFromDir(moves, thisPiece, data, c);
    }
  }

  // ---------------------------------------------------------------------------
  // The cannon layer every generator but the cannon's adds
  // ---------------------------------------------------------------------------

  /** The bombard singles and ray directions a generator picks for one board
      size and battery face. */
  datatype BombardTables = BombardTables(singles: MoveMasks, dirs: MoveMasks)

  const NoBombard: BombardTables := BombardTables([], [])

  /** A generator whose piece carries a cannon reads the formation at its own
      square, which the source can only do on the board. */
  predicate CannonSquareOnBoard(data: GameData, piece: Piece, coord: BoardCoord) {
    piece.HasCannon() ==> data.InBound(data.CoordStrToXy(coord))
  }

  /** The face of the battery square `from`, which picks the bombard table. */
  function BatteryFace(data: GameData, from: BoardCoordData): SquareColor
    requires data.Shaped() && data.InBound(from)
    reads data, data.boardFormation
  {
    data.GetSquareType(from.x, from.y).1
  }

  /** A battery square has face L or R. */
  lemma BatteryFaceIsSide(data: GameData, from: BoardCoordData)
    requires data.Shaped() && data.InBound(from) && data.IsBatterySquare(from.x, from.y)
    ensures BatteryFace(data, from) == L || BatteryFace(data, from) == R
  {
  }

  /** With a cannon: the cannon category, and on a battery square the bombard
      category from the table for the square's face (L, or R for any other). */
  function WithCannon(data: GameData, piece: Piece, from: BoardCoordData, m: AvailableMoves,
                      left: BombardTables, right: BombardTables): (r: AvailableMoves)
    requires data.Shaped() && (piece.HasCannon() ==> data.InBound(from))
    requires AreDirections(left.dirs) && AreDirections(right.dirs)
    reads data, data.boardData, data.boardFormation
    ensures r.default == m.default
    ensures !piece.HasCannon() ==> r == m
  {
    if !piece.HasCannon() then m
    else
      var withCannon := m.(cannon := Some(CannonEntries(data, piece.color, from, KingMoveMask)));
      if !data.IsBatterySquare(from.x, from.y) then withCannon
      else
        var t := if BatteryFace(data, from) == L then left else right;
        withCannon.(bombard := Some(BombardEntries(data, piece.color, from, t.singles, t.dirs)))
  }

  /** The categories a generator built on WithCannon reports: the cannon
      category exactly with a cannon, and the bombard category exactly with a
      cannon on a battery square, holding the entries of the face's table. */
  lemma WithCannonCategories(data: GameData, piece: Piece, from: BoardCoordData, m: AvailableMoves,
                             left: BombardTables, right: BombardTables)
    requires data.Shaped() && (piece.HasCannon() ==> data.InBound(from))
    requires AreDirections(left.dirs) && AreDirections(right.dirs)
    requires m.cannon.None? && m.bombard.None?
    ensures var r := WithCannon(data, piece, from, m, left, right);
      && (r.cannon.Some? <==> piece.HasCannon())
      && (r.cannon.Some? ==> r.cannon.value == CannonEntries(data, piece.color, from, KingMoveMask))
      && (r.bombard.Some? <==> piece.HasCannon() && data.IsBatterySquare(from.x, from.y))
      && (r.bombard.Some? && BatteryFace(data, from) == L ==>
            r.bombard.value == BombardEntries(data, piece.color, from, left.singles, left.dirs))
      && (r.bombard.Some? && BatteryFace(data, from) != L ==>
            r.bombard.value == BombardEntries(data, piece.color, from, right.singles, right.dirs))
  {
  }

  /** An empty table gives an empty but present bombard list. */
  lemma EmptyTableBombard(data: GameData, color: PieceColor, from: BoardCoordData)
    requires data.Shaped()
    ensures BombardEntries(data, color, from, NoBombard.singles, NoBombard.dirs) == []
  {
  }

  /** Entry e is the cannon entry for the k-th neighbour of from. */
  predicate IsNeighbourEntry(data: GameData, color: PieceColor, from: BoardCoordData, k: int, e: CannonSequence)
    requires data.Shaped() && 0 <= k < |KingMoveMask|
    reads data, data.boardData
  {
    var c := Offset(from, KingMoveMask[k]);
    && data.InBound(c)
    && e.holder == data.CoordXyToStr(c) && e.action.at == e.holder
    && (e.action.kind == Dump <==> data.IsSquareEmpty(c))
    && (e.action.kind == TransferEquip <==> data.IsFriendlyBarePiece(color, c))
  }

  /** The neighbour entries: at most eight, each on an in-bound king-adjacent
      cell, naming that cell both as holder and in its action, DUMP on an
      empty cell and TRANSFER_EQUIP on a friendly bare piece. */
  lemma CannonMovesMeaning(data: GameData, color: PieceColor, from: BoardCoordData)
    requires data.Shaped()
    ensures |CannonEntries(data, color, from, KingMoveMask)| <= 8
    ensures forall e :: e in CannonEntries(data, color, from, KingMoveMask) ==>
      exists k :: 0 <= k < 8 && IsNeighbourEntry(data, color, from, k, e)
  {
    CannonEntriesMeaning(data, color, from, KingMoveMask);
    forall e | e in CannonEntries(data, color, from, KingMoveMask)
      ensures exists k :: 0 <= k < 8 && IsNeighbourEntry(data, color, from, k, e)
    {
      var k :| 0 <= k < |KingMoveMask| && CannonEntry(data, color, Offset(from, KingMoveMask[k])) == Some(e);
      CannonEntryMeaning(data, color, Offset(from, KingMoveMask[k]));
      assert IsNeighbourEntry(data, color, from, k, e);
    }
  }

  /** A record with only the default category. */
  function DefaultOnly(entries: seq<MoveSequence>): AvailableMoves {
    AvailableMoves(Some(entries), None, None)
  }

  /** The cannon layer leaves the default category alone, so it can be added
      before or after the default entries. */
  lemma WithCannonKeepsDefault(data: GameData, piece: Piece, from: BoardCoordData, m: AvailableMoves,
                               v: Option<seq<MoveSequence>>, left: BombardTables, right: BombardTables)
    requires data.Shaped() && (piece.HasCannon() ==> data.InBound(from))
    requires AreDirections(left.dirs) && AreDirections(right.dirs)
    ensures WithCannon(data, piece, from, m.(default := v), left, right)
      == WithCannon(data, piece, from, m, left, right).(default := v)
  {
  }

  /** What the cannon layer adds: the cannon category iff the piece carries a
      cannon, at most eight neighbour entries; the bombard category iff it
      also stands on a battery, every target an in-bound opponent's cell and
      no more of them than the face's table has singles and rays. */
  lemma CannonLayerMeaning(data: GameData, piece: Piece, from: BoardCoordData, entries: seq<MoveSequence>,
                           left: BombardTables, right: BombardTables)
    requires data.Shaped() && (piece.HasCannon() ==> data.InBound(from))
    requires AreDirections(left.dirs) && AreDirections(right.dirs)
    ensures var r := WithCannon(data, piece, from, DefaultOnly(entries), left, right);
      && r.default == Some(entries)
      && (r.cannon.Some? <==> piece.HasCannon())
      && (r.bombard.Some? <==> piece.HasCannon() && data.IsBatterySquare(from.x, from.y))
      && (r.cannon.Some? ==> |r.cannon.value| <= 8)
      && (r.cannon.Some? ==> forall e :: e in r.cannon.value ==>
            exists k :: 0 <= k < 8 && IsNeighbourEntry(data, piece.color, from, k, e))
      && (r.bombard.Some? ==>
            var t := if BatteryFace(data, from) == L then left else right;
            && r.bombard.value == BombardEntries(data, piece.color, from, t.singles, t.dirs)
            && |r.bombard.value| <= |t.singles| + |t.dirs|
            && forall b :: b in r.bombard.value ==> OpponentCode(data, piece.color, b))
  {
    WithCannonCategories(data, piece, from, DefaultOnly(entries), left, right);
    if piece.HasCannon() {
      CannonMovesMeaning(data, piece.color, from);
      if data.IsBatterySquare(from.x, from.y) {
        var t := if BatteryFace(data, from) == L then left else right;
        BombardTargetsAreOpponents(data, piece.color, from, t.singles, t.dirs);
      }
    }
  }

  /** The cannon block every generator but the cannon's runs: with a cannon,
      the neighbour entries, and on a battery the bombard list of the table for
      the square's face. */
  method AddCannonMoves(refMoves: AvailableMoves, thisPiece: Piece, data: GameData, from: BoardCoordData,
                        left: BombardTables, right: BombardTables)
    returns (moves: AvailableMoves)
    requires data.Shaped() && (thisPiece.HasCannon() ==> data.InBound(from))
    requires AreDirections(left.dirs) && AreDirections(right.dirs)
    ensures moves == WithCannon(data, thisPiece, from, refMoves, left, right)
  {
    moves := refMoves;
    if thisPiece.HasCannon() {
      moves := GenerateCannonMoves(moves, thisPiece, data, from);
      if data.IsBatterySquare(from.x, from.y) {
        var batteryDir := data.GetSquareType(from.x, from.y).1;
        var t := if batteryDir == L then left else right;
        moves := GenerateBombardMoves(moves, thisPiece, data, from, t.singles, t.dirs);
      }
    }
  }

  /** The forEach over a fixed mask of offsets, each handed to
      generateMoveOrCapture with its result ignored. */
  method GenerateSteps(refMoves: AvailableMoves, thisPiece: Piece, data: GameData, from: BoardCoordData, mask: MoveMasks)
    returns (moves: AvailableMoves)
    requires data.Shaped() && refMoves.default.Some?
    ensures moves == refMoves.(default := Some(refMoves.default.value + Steps(data, thisPiece, from, mask)))
  {
    moves := refMoves;
    assert refMoves.default.value + [] == refMoves.default.value;
    for i := 0 to |mask|
      invariant moves == refMoves.(default := Some(refMoves.default.value + Steps(data, thisPiece, from, mask[..i])))
    {
      var c := Offset(from, mask[i]);
      var onward;
      moves, onward := GenerateMoveOrCapture(moves, thisPiece, data, c);
      assert mask[..i + 1][..i] == mask[..i];
      Append3(refMoves.default.value, Steps(data, thisPiece, from, mask[..i]), OptionList(StepEntry(data, thisPiece, c)));
    }
    assert mask[..|mask|] == mask;
  }
}
