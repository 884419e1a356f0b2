/**
 * getQueenMoves (amplify/shared/game/rules/queen.ts): sliding along all
 * eight directions, then the cannon layer, whose bombard uses rays only.
 */
module Queen {
  import opened Types
  import opened Pieces
  import opened Board
  import opened RuleUtils

  const QueenDirs: DirectionList := [(1, 0), (-1, 0), (0, 1), (0, -1), (1, 1), (1, -1), (-1, 1), (-1, -1)]

  const Bomb10LDirs: MoveMasks := [(-1, -1), (-1, 1), (-1, 0), (0, 1)]
  const Bomb10RDirs: MoveMasks := [(1, -1), (1, 1), (0, -1), (1, 0)]
  const Bomb11LDirs: MoveMasks := [(-1, -1), (-1, 1), (-1, 0), (0, 1), (0, -1)]
  const Bomb11RDirs: MoveMasks := [(1, -1), (1, 1), (0, -1), (1, 0), (0, 1)]

  /** The bombard table of the L face: rays only. */
  function QueenLeft(size: BoardSize): (t: BombardTables)
    ensures AreDirections(t.dirs)
  {
    if size == 10 then BombardTables([], Bomb10LDirs)
    else if size == 11 then BombardTables([], Bomb11LDirs)
    else NoBombard
  }

  /** The bombard table of the R face: rays only. */
  function QueenRight(size: BoardSize): (t: BombardTables)
    ensures AreDirections(t.dirs)
  {
    if size == 10 then BombardTables([], Bomb10RDirs)
    else if size == 11 then BombardTables([], Bomb11RDirs)
    else NoBombard
  }

  /** The queen's result for a piece standing at coord. */
  function QueenMoves(data: GameData, piece: Piece, coord: BoardCoord): AvailableMoves
    requires data.Shaped() && CannonSquareOnBoard(data, piece, coord)
    reads data, data.boardData, data.boardFormation
  {
    var from := data.CoordStrToXy(coord);
    WithCannon(data, piece, from, DefaultOnly(Sliding(data, piece, from, QueenDirs)),
               QueenLeft(data.boardSize), QueenRight(data.boardSize))
  }

  method GetQueenMoves(piece: Piece, coord: BoardCoord, data: GameData) returns (moves: AvailableMoves)
    requires data.Shaped() && CannonSquareOnBoard(data, piece, coord)
    ensures moves == QueenMoves(data, piece, coord)
  {
    var from := data.CoordStrToXy(coord);
    moves := GetSlidingMoves(piece, data, from, QueenDirs);
    moves := AddCannonMoves(moves, piece, data, from, QueenLeft(data.boardSize), QueenRight(data.boardSize));
  }

  /** No singles anywhere; four rays per face on 10x, five on 11x, none on 13x. */
  lemma QueenTables(size: BoardSize)
    ensures QueenLeft(size).singles == [] && QueenRight(size).singles == []
    ensures size == 10 ==> |QueenLeft(size).dirs| == 4 && |QueenRight(size).dirs| == 4
    ensures size == 11 ==> |QueenLeft(size).dirs| == 5 && |QueenRight(size).dirs| == 5
    ensures size == 13 ==> QueenLeft(size) == NoBombard && QueenRight(size) == NoBombard
  {
  }

  /** The default category is the sliding result over the eight directions,
      at most eight rays of boardSize; the cannon category comes exactly with
      a cannon and bombard exactly with a cannon on a battery, made of the
      face's rays only (empty on 13x); a bare queen has only the default
      category. */
  lemma QueenMovesMeaning(data: GameData, piece: Piece, coord: BoardCoord)
    requires data.Shaped() && CannonSquareOnBoard(data, piece, coord)
    ensures var r, from := QueenMoves(data, piece, coord), data.CoordStrToXy(coord);
      && r.default == Some(Sliding(data, piece, from, QueenDirs))
      && |r.default.value| <= 8 * data.boardSize
      && (r.cannon.Some? <==> piece.HasCannon())
      && (r.bombard.Some? <==> piece.HasCannon() && data.IsBatterySquare(from.x, from.y))
      && (r.bombard.Some? ==>
            var t := if BatteryFace(data, from) == L then QueenLeft(data.boardSize) else QueenRight(data.boardSize);
            r.bombard.value == BombardRays(data, piece.color, from, t.dirs))
      && (r.bombard.Some? && data.boardSize == 13 ==> r.bombard.value == [])
      && (!piece.HasCannon() ==> r.cannon.None? && r.bombard.None?)
  {
    var from := data.CoordStrToXy(coord);
    SlidingBound(data, piece, from, QueenDirs);
    CannonLayerMeaning(data, piece, from, Sliding(data, piece, from, QueenDirs),
                       QueenLeft(data.boardSize), QueenRight(data.boardSize));
  }
}
