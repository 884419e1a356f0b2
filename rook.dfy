/**
 * getRookMoves (amplify/shared/game/rules/rook.ts): sliding along the four
 * orthogonals, then the cannon layer, whose bombard rays are orthogonal too.
 */
module Rook {
  import opened Types
  import opened Pieces
  import opened Board
  import opened RuleUtils

  const RookDirs: DirectionList := [(1, 0), (-1, 0), (0, 1), (0, -1)]

  const Bomb10LDirs: MoveMasks := [(-1, 0), (0, 1)]
  const Bomb10RDirs: MoveMasks := [(0, -1), (1, 0)]
  const Bomb11LDirs: MoveMasks := [(-1, 0), (0, 1), (0, -1)]
  const Bomb11RDirs: MoveMasks := [(0, -1), (1, 0), (0, 1)]
  const Bomb11L: MoveMasks := [(3, 4), (3, 6)]
  const Bomb11R: MoveMasks := [(7, 4), (7, 6)]

  /** The bombard table of the L face. */
  function RookLeft(size: BoardSize): (t: BombardTables)
    ensures AreDirections(t.dirs)
  {
    if size == 10 then BombardTables([], Bomb10LDirs)
    else if size == 11 then BombardTables(Bomb11L, Bomb11LDirs)
    else NoBombard
  }

  /** The bombard table of the R face. */
  function RookRight(size: BoardSize): (t: BombardTables)
    ensures AreDirections(t.dirs)
  {
    if size == 10 then BombardTables([], Bomb10RDirs)
    else if size == 11 then BombardTables(Bomb11R, Bomb11RDirs)
    else NoBombard
  }

  /** The rook's result for a piece standing at coord. */
  function RookMoves(data: GameData, piece: Piece, coord: BoardCoord): AvailableMoves
    requires data.Shaped() && CannonSquareOnBoard(data, piece, coord)
    reads data, data.boardData, data.boardFormation
  {
    var from := data.CoordStrToXy(coord);
    WithCannon(data, piece, from, DefaultOnly(Sliding(data, piece, from, RookDirs)),
               RookLeft(data.boardSize), RookRight(data.boardSize))
  }

  method GetRookMoves(piece: Piece, coord: BoardCoord, data: GameData) returns (moves: AvailableMoves)
    requires data.Shaped() && CannonSquareOnBoard(data, piece, coord)
    ensures moves == RookMoves(data, piece, coord)
  {
    var from := data.CoordStrToXy(coord);
    moves := GetSlidingMoves(piece, data, from, RookDirs);
    moves := AddCannonMoves(moves, piece, data, from, RookLeft(data.boardSize), RookRight(data.boardSize));
  }

  /** On 10x two orthogonal rays per face and no singles; on 11x three rays
      and two singles per face; on 13x nothing. */
  lemma RookTables(size: BoardSize)
    ensures size == 10 ==>
      && RookLeft(size).singles == [] && RookRight(size).singles == []
      && |RookLeft(size).dirs| == 2 && |RookRight(size).dirs| == 2
    ensures size == 11 ==>
      && |RookLeft(size).dirs| == 3 && |RookRight(size).dirs| == 3
      && |RookLeft(size).singles| == 2 && |RookRight(size).singles| == 2
    ensures forall k :: 0 <= k < |RookLeft(size).dirs| ==> RookLeft(size).dirs[k].0 * RookLeft(size).dirs[k].1 == 0
    ensures forall k :: 0 <= k < |RookRight(size).dirs| ==> RookRight(size).dirs[k].0 * RookRight(size).dirs[k].1 == 0
    ensures size == 13 ==> RookLeft(size) == NoBombard && RookRight(size) == NoBombard
  {
  }

  /** The default category is the sliding result over the four orthogonals,
      at most four rays of boardSize; the cannon category comes exactly with
      a cannon and bombard exactly with a cannon on a battery, from the face's
      table (empty on 13x); a bare rook has only the default category. */
  lemma RookMovesMeaning(data: GameData, piece: Piece, coord: BoardCoord)
    requires data.Shaped() && CannonSquareOnBoard(data, piece, coord)
    ensures var r, from := RookMoves(data, piece, coord), data.CoordStrToXy(coord);
      && r.default == Some(Sliding(data, piece, from, RookDirs))
      && |r.default.value| <= 4 * data.boardSize
      && (r.cannon.Some? <==> piece.HasCannon())
      && (r.bombard.Some? <==> piece.HasCannon() && data.IsBatterySquare(from.x, from.y))
      && (r.bombard.Some? ==>
            var t := if BatteryFace(data, from) == L then RookLeft(data.boardSize) else RookRight(data.boardSize);
            r.bombard.value == BombardEntries(data, piece.color, from, t.singles, t.dirs))
      && (r.bombard.Some? && data.boardSize == 13 ==> r.bombard.value == [])
      && (!piece.HasCannon() ==> r.cannon.None? && r.bombard.None?)
  {
    var from := data.CoordStrToXy(coord);
    SlidingBound(data, piece, from, RookDirs);
    CannonLayerMeaning(data, piece, from, Sliding(data, piece, from, RookDirs),
                       RookLeft(data.boardSize), RookRight(data.boardSize));
  }
}
