/**
 * getBishopMoves (amplify/shared/game/rules/bishop.ts): sliding along the
 * four diagonals, then the cannon layer, whose bombard rays run along the
 * diagonals of the battery's side.
 */
module Bishop {
  import opened Types
  import opened Pieces
  import opened Board
  import opened RuleUtils

  const BishopDirs: DirectionList := [(1, 1), (1, -1), (-1, 1), (-1, -1)]

  const Bomb10LDirs: MoveMasks := [(-1, -1), (-1, 1)]
  const Bomb10RDirs: MoveMasks := [(1, -1), (1, 1)]
  const Bomb11LDirs: MoveMasks := [(-1, -1), (-1, 1)]
  const Bomb11RDirs: MoveMasks := [(1, -1), (1, 1)]
  const Bomb11L: MoveMasks := [(4, 4), (3, 5), (4, 6)]
  const Bomb11R: MoveMasks := [(6, 4), (7, 5), (6, 6)]

  /** The bombard table of the L face. */
  function BishopLeft(size: BoardSize): (t: BombardTables)
    ensures AreDirections(t.dirs)
  {
    if size == 10 then BombardTables([], Bomb10LDirs)
    else if size == 11 then BombardTables(Bomb11L, Bomb11LDirs)
    else NoBombard
  }

  /** The bombard table of the R face. */
  function BishopRight(size: BoardSize): (t: BombardTables)
    ensures AreDirections(t.dirs)
  {
    if size == 10 then BombardTables([], Bomb10RDirs)
    else if size == 11 then BombardTables(Bomb11R, Bomb11RDirs)
    else NoBombard
  }

  /** The bishop's result for a piece standing at coord. */
  function BishopMoves(data: GameData, piece: Piece, coord: BoardCoord): AvailableMoves
    requires data.Shaped() && CannonSquareOnBoard(data, piece, coord)
    reads data, data.boardData, data.boardFormation
  {
    var from := data.CoordStrToXy(coord);
    WithCannon(data, piece, from, DefaultOnly(Sliding(data, piece, from, BishopDirs)),
               BishopLeft(data.boardSize), BishopRight(data.boardSize))
  }

  method GetBishopMoves(piece: Piece, coord: BoardCoord, data: GameData) returns (moves: AvailableMoves)
    requires data.Shaped() && CannonSquareOnBoard(data, piece, coord)
    ensures moves == BishopMoves(data, piece, coord)
  {
    var from := data.CoordStrToXy(coord);
    moves := GetSlidingMoves(piece, data, from, BishopDirs);
    moves := AddCannonMoves(moves, piece, data, from, BishopLeft(data.boardSize), BishopRight(data.boardSize));
  }

  /** On 10x each face has two diagonal rays and no singles, every L ray
      going towards lower x and every R ray towards higher x; 11x adds three
      singles per face to the same rays; 13x has nothing. */
  lemma BishopTables(size: BoardSize)
    ensures size == 10 ==>
      && BishopLeft(size).singles == [] && BishopRight(size).singles == []
      && |BishopLeft(size).dirs| == 2 && |BishopRight(size).dirs| == 2
      && (forall k :: 0 <= k < 2 ==> BishopLeft(size).dirs[k].0 == -1 && BishopLeft(size).dirs[k].1 != 0)
      && (forall k :: 0 <= k < 2 ==> BishopRight(size).dirs[k].0 == 1 && BishopRight(size).dirs[k].1 != 0)
    ensures size == 11 ==>
      && BishopLeft(size).dirs == BishopLeft(10).dirs && BishopRight(size).dirs == BishopRight(10).dirs
      && |BishopLeft(size).singles| == 3 && |BishopRight(size).singles| == 3
    ensures size == 13 ==> BishopLeft(size) == NoBombard && BishopRight(size) == NoBombard
  {
  }

  /** The default category is the sliding result over the four diagonals,
      at most four rays of boardSize; the cannon category comes exactly with
      a cannon and bombard exactly with a cannon on a battery, from the face's
      table (empty on 13x); a bare bishop has only the default category. */
  lemma BishopMovesMeaning(data: GameData, piece: Piece, coord: BoardCoord)
    requires data.Shaped() && CannonSquareOnBoard(data, piece, coord)
    ensures var r, from := BishopMoves(data, piece, coord), data.CoordStrToXy(coord);
      && r.default == Some(Sliding(data, piece, from, BishopDirs))
      && |r.default.value| <= 4 * data.boardSize
      && (r.cannon.Some? <==> piece.HasCannon())
      && (r.bombard.Some? <==> piece.HasCannon() && data.IsBatterySquare(from.x, from.y))
      && (r.bombard.Some? ==>
            var t := if BatteryFace(data, from) == L then BishopLeft(data.boardSize) else BishopRight(data.boardSize);
            r.bombard.value == BombardEntries(data, piece.color, from, t.singles, t.dirs))
      && (r.bombard.Some? && data.boardSize == 13 ==> r.bombard.value == [])
      && (!piece.HasCannon() ==> r.cannon.None? && r.bombard.None?)
  {
    var from := data.CoordStrToXy(coord);
    SlidingBound(data, piece, from, BishopDirs);
    CannonLayerMeaning(data, piece, from, Sliding(data, piece, from, BishopDirs),
                       BishopLeft(data.boardSize), BishopRight(data.boardSize));
  }
}
