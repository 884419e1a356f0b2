/**
 * getGuardMoves (amplify/shared/game/rules/guard.ts): the king's eight
 * steps, then the cannon layer, whose bombard singles exist on 11x only.
 */
module Guard {
  import opened Types
  import opened Pieces
  import opened Board
  import opened RuleUtils

  const Bomb11L: MoveMasks := [(4, 4), (3, 4), (3, 5), (3, 6), (4, 6)]
  const Bomb11R: MoveMasks := [(6, 4), (7, 4), (7, 5), (7, 6), (6, 6)]

  /** The bombard table of the L face: five singles on 11x, none otherwise. */
  function GuardLeft(size: BoardSize): BombardTables {
    if size == 11 then BombardTables(Bomb11L, []) else NoBombard
  }

  /** The bombard table of the R face. */
  function GuardRight(size: BoardSize): BombardTables {
    if size == 11 then BombardTables(Bomb11R, []) else NoBombard
  }

  /** The guard's result for a piece standing at coord. */
  function GuardMoves(data: GameData, piece: Piece, coord: BoardCoord): AvailableMoves
    requires data.Shaped() && CannonSquareOnBoard(data, piece, coord)
    reads data, data.boardData, data.boardFormation
  {
    var from := data.CoordStrToXy(coord);
    WithCannon(data, piece, from, DefaultOnly(Steps(data, piece, from, KingMoveMask)),
               GuardLeft(data.boardSize), GuardRight(data.boardSize))
  }

  method GetGuardMoves(piece: Piece, coord: BoardCoord, data: GameData) returns (moves: AvailableMoves)
    requires data.Shaped() && CannonSquareOnBoard(data, piece, coord)
    ensures moves == GuardMoves(data, piece, coord)
  {
    var from := data.CoordStrToXy(coord);
    moves := AvailableMoves(Some([]), None, None);
    moves := GenerateSteps(moves, piece, data, from, KingMoveMask);
    ghost var steps := Steps(data, piece, from, KingMoveMask);
    assert [] + steps == steps;
    moves := AddCannonMoves(moves, piece, data, from, GuardLeft(data.boardSize), GuardRight(data.boardSize));
  }

  /** At most eight default entries, one per neighbour; the cannon category
      comes exactly with a cannon and bombard exactly with a cannon on a
      battery; its targets are singles that exist on 11x only, so on 10x and
      13x the list is present but empty; a bare guard has only the default
      category. */
  lemma GuardMovesMeaning(data: GameData, piece: Piece, coord: BoardCoord)
    requires data.Shaped() && CannonSquareOnBoard(data, piece, coord)
    ensures var r, from := GuardMoves(data, piece, coord), data.CoordStrToXy(coord);
      && r.default == Some(Steps(data, piece, from, KingMoveMask))
      && |r.default.value| <= 8
      && (forall e :: e in r.default.value ==>
            exists k :: 0 <= k < 8 && StepEntry(data, piece, Offset(from, KingMoveMask[k])) == Some(e))
      && (r.cannon.Some? <==> piece.HasCannon())
      && (r.bombard.Some? <==> piece.HasCannon() && data.IsBatterySquare(from.x, from.y))
      && (r.bombard.Some? && data.boardSize == 11 ==>
            var t := if BatteryFace(data, from) == L then Bomb11L else Bomb11R;
            r.bombard.value == BombardSingles(data, piece.color, t))
      && (r.bombard.Some? && data.boardSize != 11 ==> r.bombard.value == [])
      && (!piece.HasCannon() ==> r.cannon.None? && r.bombard.None?)
  {
    var from := data.CoordStrToXy(coord);
    StepsMeaning(data, piece, from, KingMoveMask);
    CannonLayerMeaning(data, piece, from, Steps(data, piece, from, KingMoveMask),
                       GuardLeft(data.boardSize), GuardRight(data.boardSize));
  }
}
