/**
 * getCannonMoves (amplify/shared/game/rules/cannon.ts): a cannon standing
 * on its own only mounts a neighbour.  The result has the cannon category
 * alone: a MOVE_EQUIP entry for each in-bound king-adjacent friendly bare
 * piece, none for an advanced cannon.
 */
module Cannon {
  import opened Types
  import opened Pieces
  import opened Board
  import opened RuleUtils

  /** The MOVE_EQUIP entry onto a neighbour c, when c holds a friendly bare piece. */
  function MoveEquipEntry(data: GameData, color: PieceColor, c: BoardCoordData): Option<CannonSequence>
    requires data.Shaped()
    reads data, data.boardData
  {
    if data.InBound(c) && data.IsFriendlyBarePiece(color, c) then
      var board := data.CoordXyToStr(c);
      Some(CannonSequence(board, MoveUnit(MoveEquip, board)))
    else None
  }

  /** The MOVE_EQUIP entries of the offsets of mask, in order. */
  function MoveEquipEntries(data: GameData, color: PieceColor, from: BoardCoordData, mask: MoveMasks): seq<CannonSequence>
    requires data.Shaped()
    reads data, data.boardData
    decreases |mask|
  {
    if mask == [] then []
    else
      MoveEquipEntries(data, color, from, mask[..|mask| - 1])
      + OptionList(MoveEquipEntry(data, color, Offset(from, mask[|mask| - 1])))
  }

  /** The cannon's result for a piece standing at coord. */
  function CannonPieceMoves(data: GameData, piece: Piece, coord: BoardCoord): AvailableMoves
    requires data.Shaped()
    reads data, data.boardData
  {
    var from := data.CoordStrToXy(coord);
    AvailableMoves(None, Some(if piece.IsAdvancedCannon() then [] else MoveEquipEntries(data, piece.color, from, KingMoveMask)), None)
  }

  method GetCannonMoves(piece: Piece, coord: BoardCoord, data: GameData) returns (moves: AvailableMoves)
    requires data.Shaped()
    ensures moves == CannonPieceMoves(data, piece, coord)
  {
    var from := data.CoordStrToXy(coord);
    var color := piece.color;
    var entries: seq<CannonSequence> := [];
    if !piece.IsAdvancedCannon() {
      for i := 0 to |KingMoveMask|
        invariant entries == MoveEquipEntries(data, color, from, KingMoveMask[..i])
      {
        var c := Offset(from, KingMoveMask[i]);
        MoveEquipEntriesStep(data, color, from, KingMoveMask, i);
        if data.InBound(c) && data.IsFriendlyBarePiece(color, c) {
          var board := data.CoordXyToStr(c);
          entries := entries + [CannonSequence(board, MoveUnit(MoveEquip, board))];
        }
      }
      assert KingMoveMask[..|KingMoveMask|] == KingMoveMask;
    }
    moves := AvailableMoves(None, Some(entries), None);
  }

  /** One more offset of the mask adds that offset's entry, if any. */
  lemma MoveEquipEntriesStep(data: GameData, color: PieceColor, from: BoardCoordData, mask: MoveMasks, i: nat)
    requires data.Shaped() && i < |mask|
    ensures MoveEquipEntries(data, color, from, mask[..i + 1])
         == MoveEquipEntries(data, color, from, mask[..i]) + OptionList(MoveEquipEntry(data, color, Offset(from, mask[i])))
  {
    assert mask[..i + 1][..i] == mask[..i];
  }

  /** Entry e is the MOVE_EQUIP entry onto the k-th offset of mask. */
  predicate IsMoveEquipAt(data: GameData, color: PieceColor, from: BoardCoordData, mask: MoveMasks, k: int, e: CannonSequence)
    requires data.Shaped() && 0 <= k < |mask|
    reads data, data.boardData
  {
    var c := Offset(from, mask[k]);
    && data.InBound(c) && data.IsFriendlyBarePiece(color, c)
    && e == CannonSequence(data.CoordXyToStr(c), MoveUnit(MoveEquip, data.CoordXyToStr(c)))
  }

  /** At most one entry per offset; each entry is MOVE_EQUIP onto an
      in-bound friendly bare piece at one of the offsets, naming that cell
      as holder and in its action; every such offset contributes its entry. */
  lemma {:induction false} MoveEquipEntriesMeaning(data: GameData, color: PieceColor, from: BoardCoordData, mask: MoveMasks)
    requires data.Shaped()
    ensures |MoveEquipEntries(data, color, from, mask)| <= |mask|
    ensures forall e :: e in MoveEquipEntries(data, color, from, mask) ==>
      e.holder == e.action.at && exists k :: 0 <= k < |mask| && IsMoveEquipAt(data, color, from, mask, k, e)
    ensures forall k :: 0 <= k < |mask| && data.InBound(Offset(from, mask[k])) && data.IsFriendlyBarePiece(color, Offset(from, mask[k])) ==>
      MoveEquipEntry(data, color, Offset(from, mask[k])).value in MoveEquipEntries(data, color, from, mask)
    decreases |mask|
  {
    if mask != [] {
      var init := mask[..|mask| - 1];
      MoveEquipEntriesMeaning(data, color, from, init);
      forall e | e in MoveEquipEntries(data, color, from, mask)
        ensures e.holder == e.action.at && exists k :: 0 <= k < |mask| && IsMoveEquipAt(data, color, from, mask, k, e)
      {
        if e in MoveEquipEntries(data, color, from, init) {
          var k :| 0 <= k < |init| && IsMoveEquipAt(data, color, from, init, k, e);
          assert init[k] == mask[k];
          assert IsMoveEquipAt(data, color, from, mask, k, e);
        } else {
          assert IsMoveEquipAt(data, color, from, mask, |mask| - 1, e);
        }
      }
      forall k | 0 <= k < |mask| && data.InBound(Offset(from, mask[k])) && data.IsFriendlyBarePiece(color, Offset(from, mask[k]))
        ensures MoveEquipEntry(data, color, Offset(from, mask[k])).value in MoveEquipEntries(data, color, from, mask)
      {
        if k < |init| {
          assert init[k] == mask[k];
        }
      }
    }
  }

  /** Only the cannon category is present; an advanced cannon gets an empty
      list, a bare cannon at most eight MOVE_EQUIP entries, one onto each
      in-bound friendly bare neighbour and each held on the cell it names. */
  lemma CannonPieceMovesMeaning(data: GameData, piece: Piece, coord: BoardCoord)
    requires data.Shaped()
    ensures var r, from := CannonPieceMoves(data, piece, coord), data.CoordStrToXy(coord);
      && r.default.None? && r.bombard.None? && r.cannon.Some?
      && (piece.IsAdvancedCannon() ==> r.cannon.value == [])
      && |r.cannon.value| <= 8
      && (forall e :: e in r.cannon.value ==>
            e.holder == e.action.at && exists k :: 0 <= k < 8 && IsMoveEquipAt(data, piece.color, from, KingMoveMask, k, e))
      && (!piece.IsAdvancedCannon() ==> forall k :: 0 <= k < 8 && IsFriendlyBareNeighbour(data, piece.color, from, k) ==>
            MoveEquipEntry(data, piece.color, Offset(from, KingMoveMask[k])).value in r.cannon.value)
  {
    MoveEquipEntriesMeaning(data, piece.color, data.CoordStrToXy(coord), KingMoveMask);
  }

  /** The k-th king-adjacent cell of from is in bound and holds a friendly bare piece. */
  predicate IsFriendlyBareNeighbour(data: GameData, color: PieceColor, from: BoardCoordData, k: int)
    requires data.Shaped() && 0 <= k < |KingMoveMask|
    reads data, data.boardData
  {
    data.InBound(Offset(from, KingMoveMask[k])) && data.IsFriendlyBarePiece(color, Offset(from, KingMoveMask[k]))
  }
}
