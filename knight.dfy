/**
 * getKnightMoves (amplify/shared/game/rules/knight.ts): a fixed jump mask
 * picked by board size, each jump tried once with no blocking, and the
 * cannon layer with single bombard targets.
 */
module Knight {
  import opened Types
  import opened Pieces
  import opened Board
  import opened RuleUtils

  const Mask10: MoveMasks := [
    (2, 1), (2, -1), (-2, 1), (-2, -1),
    (1, 2), (1, -2), (-1, 2), (-1, -2),
    (0, 1), (0, -1), (1, 0), (-1, 0)]

  const Mask11: MoveMasks := [
    (2, 1), (2, -1), (-2, 1), (-2, -1),
    (1, 2), (1, -2), (-1, 2), (-1, -2),
    (0, 2), (0, -2), (2, 0), (-2, 0)]

  const Mask13: MoveMasks := [
    (2, 1), (2, -1), (-2, 1), (-2, -1),
    (1, 2), (1, -2), (-1, 2), (-1, -2),
    (0, 3), (0, -3), (3, 0), (-3, 0)]

  const Bomb10L: MoveMasks := [(3, 3), (2, 4), (3, 5), (2, 6), (3, 7), (4, 6), (5, 7)]
  const Bomb10R: MoveMasks := [(4, 2), (5, 3), (6, 4), (7, 5), (6, 6), (6, 2), (7, 3)]
  const Bomb11L: MoveMasks := [(2, 3), (2, 4), (2, 5), (2, 6), (2, 7), (3, 3), (4, 3), (3, 7), (4, 7)]
  const Bomb11R: MoveMasks := [(8, 3), (8, 4), (8, 5), (8, 6), (8, 7), (6, 3), (7, 3), (6, 7), (7, 7)]

  function KnightMask(size: BoardSize): MoveMasks {
    if size == 10 then Mask10 else if size == 11 then Mask11 else Mask13
  }

  /** The bombard table of the L face: singles only, none on 13x. */
  function KnightLeft(size: BoardSize): BombardTables {
    if size == 10 then BombardTables(Bomb10L, [])
    else if size == 11 then BombardTables(Bomb11L, [])
    else NoBombard
  }

  /** The bombard table of the R face. */
  function KnightRight(size: BoardSize): BombardTables {
    if size == 10 then BombardTables(Bomb10R, [])
    else if size == 11 then BombardTables(Bomb11R, [])
    else NoBombard
  }

  /** How far the four orthogonal jumps reach on each board size. */
  function OrthogonalReach(size: BoardSize): int {
    if size == 10 then 1 else if size == 11 then 2 else 3
  }

  /** The knight's result for a piece standing at coord. */
  function KnightMoves(data: GameData, piece: Piece, coord: BoardCoord): AvailableMoves
    requires data.Shaped() && CannonSquareOnBoard(data, piece, coord)
    reads data, data.boardData, data.boardFormation
  {
    var from := data.CoordStrToXy(coord);
    WithCannon(data, piece, from, DefaultOnly(Steps(data, piece, from, KnightMask(data.boardSize))),
               KnightLeft(data.boardSize), KnightRight(data.boardSize))
  }

  method GetKnightMoves(piece: Piece, coord: BoardCoord, data: GameData) returns (moves: AvailableMoves)
    requires data.Shaped() && CannonSquareOnBoard(data, piece, coord)
    ensures moves == KnightMoves(data, piece, coord)
  {
    var from := data.CoordStrToXy(coord);
    var left, right := KnightLeft(data.boardSize), KnightRight(data.boardSize);
    var start := AvailableMoves(Some([]), None, None);
    moves := AddCannonMoves(start, piece, data, from, left, right);
    moves := GenerateSteps(moves, piece, data, from, KnightMask(data.boardSize));
    ghost var steps := Steps(data, piece, from, KnightMask(data.boardSize));
    assert [] + steps == steps;
    WithCannonKeepsDefault(data, piece, from, start, Some(steps), left, right);
  }

  /** Every mask holds the eight chess knight jumps, the same on every board,
      followed by the four orthogonal jumps of the board's reach. */
  lemma KnightMaskShape(size: BoardSize)
    ensures var m, j := KnightMask(size), OrthogonalReach(size);
      && |m| == 12
      && m[..8] == Mask10[..8]
      && (forall k :: 0 <= k < 8 ==> m[k].0 * m[k].1 == 2 || m[k].0 * m[k].1 == -2)
      && m[8..] == [(0, j), (0, -j), (j, 0), (-j, 0)]
  {
  }

  /** The default entries are the independent tries of the twelve jumps, at
      most twelve of them; the cannon category comes exactly with a cannon and
      bombard exactly with a cannon on a battery, from single targets only
      (none at all on 13x); a bare knight has only the default category. */
  lemma KnightMovesMeaning(data: GameData, piece: Piece, coord: BoardCoord)
    requires data.Shaped() && CannonSquareOnBoard(data, piece, coord)
    ensures var r, from := KnightMoves(data, piece, coord), data.CoordStrToXy(coord);
      var mask := KnightMask(data.boardSize);
      && r.default == Some(Steps(data, piece, from, mask))
      && |r.default.value| <= 12
      && (forall e :: e in r.default.value ==>
            exists k :: 0 <= k < |mask| && StepEntry(data, piece, Offset(from, mask[k])) == Some(e))
      && (r.cannon.Some? <==> piece.HasCannon())
      && (r.bombard.Some? <==> piece.HasCannon() && data.IsBatterySquare(from.x, from.y))
      && (r.bombard.Some? ==>
            var t := if BatteryFace(data, from) == L then KnightLeft(data.boardSize) else KnightRight(data.boardSize);
            t.dirs == [] && r.bombard.value == BombardSingles(data, piece.color, t.singles))
      && (r.bombard.Some? && data.boardSize == 13 ==> r.bombard.value == [])
      && (!piece.HasCannon() ==> r.cannon.None? && r.bombard.None?)
  {
    var from := data.CoordStrToXy(coord);
    var mask := KnightMask(data.boardSize);
    StepsMeaning(data, piece, from, mask);
    CannonLayerMeaning(data, piece, from, Steps(data, piece, from, mask),
                       KnightLeft(data.boardSize), KnightRight(data.boardSize));
  }
}
