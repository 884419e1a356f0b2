/**
 * getKingMoves (amplify/shared/game/rules/king.ts): one step to each of the
 * eight neighbours, then the cannon layer with single bombard targets.
 */
module King {
  import opened Types
  import opened Pieces
  import opened Board
  import opened RuleUtils

  const Bomb10L: MoveMasks := [(3, 3), (3, 4), (3, 5), (3, 6), (4, 6)]
  const Bomb10R: MoveMasks := [(5, 3), (6, 3), (6, 4), (6, 5), (6, 6)]
  const Bomb11L: MoveMasks := [(4, 4), (3, 4), (3, 5), (3, 6), (4, 6)]
  const Bomb11R: MoveMasks := [(6, 4), (7, 4), (7, 5), (7, 6), (6, 6)]

  /** The bombard table of the L face: five singles on 10x and 11x, none on 13x. */
  function KingLeft(size: BoardSize): BombardTables {
    if size == 10 then BombardTables(Bomb10L, [])
    else if size == 11 then BombardTables(Bomb11L, [])
    else NoBombard
  }

  /** The bombard table of the R face. */
  function KingRight(size: BoardSize): BombardTables {
    if size == 10 then BombardTables(Bomb10R, [])
    else if size == 11 then BombardTables(Bomb11R, [])
    else NoBombard
  }

  /** The king's result for a piece standing at coord. */
  function KingMoves(data: GameData, piece: Piece, coord: BoardCoord): AvailableMoves
    requires data.Shaped() && CannonSquareOnBoard(data, piece, coord)
    reads data, data.boardData, data.boardFormation
  {
    var from := data.CoordStrToXy(coord);
    WithCannon(data, piece, from, DefaultOnly(Steps(data, piece, from, KingMoveMask)),
               KingLeft(data.boardSize), KingRight(data.boardSize))
  }

  method GetKingMoves(piece: Piece, coord: BoardCoord, data: GameData) returns (moves: AvailableMoves)
    requires data.Shaped() && CannonSquareOnBoard(data, piece, coord)
    ensures moves == KingMoves(data, piece, coord)
  {
    var from := data.CoordStrToXy(coord);
    moves := AvailableMoves(Some([]), None, None);
    moves := GenerateSteps(moves, piece, data, from, KingMoveMask);
    ghost var steps := Steps(data, piece, from, KingMoveMask);
    assert [] + steps == steps;
    moves := AddCannonMoves(moves, piece, data, from, KingLeft(data.boardSize), KingRight(data.boardSize));
  }

  /** Five singles per face on 10x and 11x, no rays, and nothing on 13x. */
  lemma KingTables(size: BoardSize)
    ensures KingLeft(size).dirs == [] && KingRight(size).dirs == []
    ensures size != 13 ==> |KingLeft(size).singles| == 5 && |KingRight(size).singles| == 5
    ensures size == 13 ==> KingLeft(size) == NoBombard && KingRight(size) == NoBombard
  {
  }

  /** At most eight default entries, one per neighbour; the cannon category
      comes exactly with a cannon and bombard exactly with a cannon on a
      battery, from single targets only (none at all on 13x); a bare king has
      only the default category. */
  lemma KingMovesMeaning(data: GameData, piece: Piece, coord: BoardCoord)
    requires data.Shaped() && CannonSquareOnBoard(data, piece, coord)
    ensures var r, from := KingMoves(data, piece, coord), data.CoordStrToXy(coord);
      && r.default == Some(Steps(data, piece, from, KingMoveMask))
      && |r.default.value| <= 8
      && (forall e :: e in r.default.value ==>
            exists k :: 0 <= k < 8 && StepEntry(data, piece, Offset(from, KingMoveMask[k])) == Some(e))
      && (r.cannon.Some? <==> piece.HasCannon())
      && (r.bombard.Some? <==> piece.HasCannon() && data.IsBatterySquare(from.x, from.y))
      && (r.bombard.Some? ==>
            var t := if BatteryFace(data, from) == L then KingLeft(data.boardSize) else KingRight(data.boardSize);
            r.bombard.value == BombardSingles(data, piece.color, t.singles) && |r.bombard.value| <= 5)
      && (r.bombard.Some? && data.boardSize == 13 ==> r.bombard.value == [])
      && (!piece.HasCannon() ==> r.cannon.None? && r.bombard.None?)
  {
    var from := data.CoordStrToXy(coord);
    StepsMeaning(data, piece, from, KingMoveMask);
    KingTables(data.boardSize);
    CannonLayerMeaning(data, piece, from, Steps(data, piece, from, KingMoveMask),
                       KingLeft(data.boardSize), KingRight(data.boardSize));
  }
}
