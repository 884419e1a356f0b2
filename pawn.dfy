/**
 * getPawnMoves (amplify/shared/game/rules/pawn.ts): a single step forward
 * and a double step from the second home row, diagonal captures, each with
 * a "forward mover" strip that goes on diagonally past the captured piece,
 * and the cannon layer with single bombard targets.
 */
module Pawn {
  import opened Types
  import opened Pieces
  import opened Board
  import opened RuleUtils

  const Bomb10L: MoveMasks := [(3, 4), (2, 5), (3, 6), (4, 7)]
  const Bomb10R: MoveMasks := [(5, 2), (6, 3), (7, 4), (6, 5)]
  const Bomb11L: MoveMasks := [(4, 3), (3, 4), (2, 5), (3, 6), (4, 7)]
  const Bomb11R: MoveMasks := [(6, 3), (7, 4), (8, 5), (7, 6), (6, 7)]

  /** The two sides a pawn captures on, in the order they are tried. */
  const Sides: seq<int> := [-1, 1]

  /** The bombard table of the L face: singles only, none on 13x. */
  function PawnLeft(size: BoardSize): BombardTables {
    if size == 10 then BombardTables(Bomb10L, [])
    else if size == 11 then BombardTables(Bomb11L, [])
    else NoBombard
  }

  /** The bombard table of the R face. */
  function PawnRight(size: BoardSize): BombardTables {
    if size == 10 then BombardTables(Bomb10R, [])
    else if size == 11 then BombardTables(Bomb11R, [])
    else NoBombard
  }

  /** The cell k steps forward of from, in the pawn's attack direction. */
  function Ahead(piece: Piece, from: BoardCoordData, k: int): BoardCoordData {
    XY(from.x, from.y + k * piece.dir)
  }

  /** The cell one step forward and lr sideways of c. */
  function Diagonal(piece: Piece, c: BoardCoordData, lr: int): BoardCoordData {
    XY(c.x + lr, c.y + piece.dir)
  }

  /** The single step, and the double step behind it. */
  function ForwardEntries(data: GameData, piece: Piece, from: BoardCoordData): seq<MoveSequence>
    requires data.Shaped()
    reads data, data.boardData, data.boardFormation
  {
    var one := Ahead(piece, from, 1);
    if data.InBound(one) && data.IsSquareEmpty(one) then
      var board := data.CoordXyToStr(one);
      var two := Ahead(piece, from, 2);
      [MoveSequence(board, WithBattery(data, piece, one, [MoveUnit(Move, board)], board))]
      + (if from.y == data.GetHomeSecondRow(piece.kind) && data.IsSquareEmpty(two) then
           var board2 := data.CoordXyToStr(two);
           [MoveSequence(board2, [MoveUnit(Move, board2)])]
         else [])
    else []
  }

  /** CAPTURE_EQUIP or CAPTURE, as isCaptureEquipTarget decides. */
  function CaptureKind(data: GameData, piece: Piece, c: BoardCoordData): MoveType
    requires data.Shaped()
    reads data, data.boardData
  {
    if data.IsCaptureEquipTarget(piece, c) then CaptureEquip else Capture
  }

  /** The capture on side lr and the forward-mover strip behind it.  The
      forward mover's BATTERY is decided by the landing cell but names the
      captured cell. */
  function DiagonalEntries(data: GameData, piece: Piece, from: BoardCoordData, lr: int): seq<MoveSequence>
    requires data.Shaped()
    reads data, data.boardData, data.boardFormation
  {
    var n := Diagonal(piece, from, lr);
    if data.InBound(n) && data.IsOpponentPiece(piece.color, n) then
      var board := data.CoordXyToStr(n);
      var kind := CaptureKind(data, piece, n);
      var n2 := Diagonal(piece, n, lr);
      [MoveSequence(board, WithBattery(data, piece, n, [MoveUnit(kind, board)], board))]
      + (if data.InBound(n2) && data.IsSquareEmpty(n2) then
           var board2 := data.CoordXyToStr(n2);
           [MoveSequence(board2, WithBattery(data, piece, n2, [MoveUnit(kind, board), MoveUnit(Move, board2)], board))]
         else [])
    else []
  }

  /** The diagonal entries of the given sides, in order. */
  function DiagonalsOf(data: GameData, piece: Piece, from: BoardCoordData, sides: seq<int>): seq<MoveSequence>
    requires data.Shaped()
    reads data, data.boardData, data.boardFormation
    decreases |sides|
  {
    if sides == [] then []
    else DiagonalsOf(data, piece, from, sides[..|sides| - 1]) + DiagonalEntries(data, piece, from, sides[|sides| - 1])
  }

  /** The default list: the steps forward, then both sides' diagonals. */
  function PawnDefault(data: GameData, piece: Piece, from: BoardCoordData): seq<MoveSequence>
    requires data.Shaped()
    reads data, data.boardData, data.boardFormation
  {
    ForwardEntries(data, piece, from) + DiagonalsOf(data, piece, from, Sides)
  }

  /** The pawn's result for a piece standing at coord. */
  function PawnMoves(data: GameData, piece: Piece, coord: BoardCoord): AvailableMoves
    requires data.Shaped() && CannonSquareOnBoard(data, piece, coord)
    reads data, data.boardData, data.boardFormation
  {
    var from := data.CoordStrToXy(coord);
    WithCannon(data, piece, from, DefaultOnly(PawnDefault(data, piece, from)), PawnLeft(data.boardSize), PawnRight(data.boardSize))
  }

  method GetPawnMoves(piece: Piece, coord: BoardCoord, data: GameData) returns (moves: AvailableMoves)
    requires data.Shaped() && CannonSquareOnBoard(data, piece, coord)
    ensures moves == PawnMoves(data, piece, coord)
  {
    var from := data.CoordStrToXy(coord);
    ghost var forward := ForwardEntries(data, piece, from);
    var entries := PushForward([], piece, data, from);
    assert entries == forward by { assert [] + forward == forward; }
    entries := PushDiagonals(entries, piece, data, from);
    assert entries == PawnDefault(data, piece, from);
    moves := DefaultOnly(entries);
    moves := AddCannonMoves(moves, piece, data, from, PawnLeft(data.boardSize), PawnRight(data.boardSize));
  }

  /** The forEach over both sides: each capture and the forward mover behind it. */
  method PushDiagonals(entries: seq<MoveSequence>, piece: Piece, data: GameData, from: BoardCoordData)
    returns (result: seq<MoveSequence>)
    requires data.Shaped()
    ensures result == entries + DiagonalsOf(data, piece, from, Sides)
  {
    result := entries;
    assert entries + [] == entries;
    for i := 0 to |Sides|
      invariant result == entries + DiagonalsOf(data, piece, from, Sides[..i])
    {
      result := PushDiagonal(result, piece, data, from, Sides[i]);
      assert Sides[..i + 1][..i] == Sides[..i];
      Append3(entries, DiagonalsOf(data, piece, from, Sides[..i]), DiagonalEntries(data, piece, from, Sides[i]));
    }
    assert Sides[..|Sides|] == Sides;
  }

  /** The single step forward, then the double step (never a battery). */
  method PushForward(entries: seq<MoveSequence>, piece: Piece, data: GameData, from: BoardCoordData)
    returns (result: seq<MoveSequence>)
    requires data.Shaped()
    ensures result == entries + ForwardEntries(data, piece, from)
  {
    result := entries;
    var x, y := from.x, from.y;
    var hasCannon := piece.HasCannon();
    var dir := piece.dir;
    var str := data.GetHomeSecondRow(piece.kind);
    var ny := y + dir;
    if data.InBound(XY(x, ny)) && data.IsSquareEmpty(XY(x, ny)) {
      var board := data.CoordXyToStr(XY(x, ny));
      var actions := [MoveUnit(Move, board)];
      if hasCannon && data.IsBatterySquare(x, ny) {
        actions := actions + [MoveUnit(Battery, board)];
      }
      result := result + [MoveSequence(board, actions)];
      ny := y + 2 * dir;
      if y == str && data.IsSquareEmpty(XY(x, ny)) {
        var board2 := data.CoordXyToStr(XY(x, ny));
        result := result + [MoveSequence(board2, [MoveUnit(Move, board2)])];
      } else {
        assert result + [] == result;
      }
    } else {
      assert entries + [] == entries;
    }
  }

  /** One pass of the forEach over the two sides. */
  method PushDiagonal(entries: seq<MoveSequence>, piece: Piece, data: GameData, from: BoardCoordData, lr: int)
    returns (result: seq<MoveSequence>)
    requires data.Shaped()
    ensures result == entries + DiagonalEntries(data, piece, from, lr)
  {
    result := entries;
    var hasCannon := piece.HasCannon();
    var nx, ny := from.x + lr, from.y + piece.dir;
    if data.InBound(XY(nx, ny)) && data.IsOpponentPiece(piece.color, XY(nx, ny)) {
      var board := data.CoordXyToStr(XY(nx, ny));
      var captureType := if data.IsCaptureEquipTarget(piece, XY(nx, ny)) then CaptureEquip else Capture;
      var actions := [MoveUnit(captureType, board)];
      if hasCannon && data.IsBatterySquare(nx, ny) {
        actions := actions + [MoveUnit(Battery, board)];
      }
      result := result + [MoveSequence(board, actions)];

      // Forward mover: on past the captured piece
      var nx2, ny2 := nx + lr, ny + piece.dir;
      if data.InBound(XY(nx2, ny2)) && data.IsSquareEmpty(XY(nx2, ny2)) {
        var board2 := data.CoordXyToStr(XY(nx2, ny2));
        actions := [MoveUnit(captureType, board), MoveUnit(Move, board2)];
        if hasCannon && data.IsBatterySquare(nx2, ny2) {
          actions := actions + [MoveUnit(Battery, board)];
        }
        result := result + [MoveSequence(board2, actions)];
      }
    } else {
      assert entries + [] == entries;
    }
  }

  /** The diagonal entries of both sides: left, then right. */
  lemma BothSides(data: GameData, piece: Piece, from: BoardCoordData)
    requires data.Shaped()
    ensures DiagonalsOf(data, piece, from, Sides)
      == DiagonalEntries(data, piece, from, -1) + DiagonalEntries(data, piece, from, 1)
  {
    assert Sides[..1] == [-1];
    assert Sides[..1][..0] == [];
    assert DiagonalsOf(data, piece, from, Sides[..1]) == [] + DiagonalEntries(data, piece, from, -1);
    assert [] + DiagonalEntries(data, piece, from, -1) == DiagonalEntries(data, piece, from, -1);
  }

  /** The single step is offered exactly on an in-bound empty cell ahead,
      as MOVE plus BATTERY when a cannon-carrying pawn lands on a battery;
      the double step only behind it, from the second home row onto an empty
      cell, and always as the lone MOVE. */
  lemma ForwardMeaning(data: GameData, piece: Piece, from: BoardCoordData)
    requires data.Shaped()
    ensures var f, one, two := ForwardEntries(data, piece, from), Ahead(piece, from, 1), Ahead(piece, from, 2);
      && |f| <= 2
      && (|f| >= 1 <==> data.InBound(one) && data.IsSquareEmpty(one))
      && (|f| >= 1 ==>
            var board := data.CoordXyToStr(one);
            && f[0].holder == board
            && f[0].actions[0] == MoveUnit(Move, board)
            && (|f[0].actions| == 2 <==> piece.HasCannon() && data.IsBatterySquare(one.x, one.y))
            && (|f[0].actions| == 2 ==> f[0].actions[1] == MoveUnit(Battery, board))
            && |f[0].actions| <= 2)
      && (|f| == 2 <==>
            && data.InBound(one) && data.IsSquareEmpty(one)
            && from.y == data.GetHomeSecondRow(piece.kind) && data.IsSquareEmpty(two))
      && (|f| == 2 ==> f[1] == MoveSequence(data.CoordXyToStr(two), [MoveUnit(Move, data.CoordXyToStr(two))]))
  {
  }

  /** A capture is offered on side lr exactly when the diagonal cell ahead is
      in bound and an opponent's, as CAPTURE_EQUIP when isCaptureEquipTarget
      holds and CAPTURE otherwise, followed by a BATTERY on that cell when a
      cannon-carrying pawn captures onto a battery; the forward mover behind it exactly when
      the next diagonal cell is in bound and empty, held on that cell, with
      the strip [capture, MOVE] and a BATTERY that names the captured cell. */
  lemma DiagonalMeaning(data: GameData, piece: Piece, from: BoardCoordData, lr: int)
    requires data.Shaped()
    ensures var g, n := DiagonalEntries(data, piece, from, lr), Diagonal(piece, from, lr);
      var n2 := Diagonal(piece, n, lr);
      && |g| <= 2
      && (|g| >= 1 <==> data.InBound(n) && data.IsOpponentPiece(piece.color, n))
      && (|g| >= 1 ==>
            var board := data.CoordXyToStr(n);
            && g[0].holder == board
            && g[0].actions[0] == MoveUnit(CaptureKind(data, piece, n), board)
            && (CaptureKind(data, piece, n) == CaptureEquip <==> data.IsCaptureEquipTarget(piece, n))
            && (|g[0].actions| == 2 <==> piece.HasCannon() && data.IsBatterySquare(n.x, n.y))
            && (|g[0].actions| == 2 ==> g[0].actions[1] == MoveUnit(Battery, board))
            && |g[0].actions| <= 2)
      && (|g| == 2 <==>
            data.InBound(n) && data.IsOpponentPiece(piece.color, n) && data.InBound(n2) && data.IsSquareEmpty(n2))
      && (|g| == 2 ==>
            var board, board2 := data.CoordXyToStr(n), data.CoordXyToStr(n2);
            && g[1].holder == board2
            && g[1].actions[..2] == [MoveUnit(CaptureKind(data, piece, n), board), MoveUnit(Move, board2)]
            && (|g[1].actions| == 3 <==> piece.HasCannon() && data.IsBatterySquare(n2.x, n2.y))
            && (|g[1].actions| == 3 ==> g[1].actions[2] == MoveUnit(Battery, board))
            && |g[1].actions| <= 3)
  {
  }

  predicate IsCapture(a: MoveUnit) {
    a.kind == Capture || a.kind == CaptureEquip
  }

  /** a is aimed at the in-bound opponent's cell diagonally ahead on side lr. */
  predicate HitsDiagonal(data: GameData, piece: Piece, from: BoardCoordData, lr: int, a: MoveUnit)
    requires data.Shaped()
    reads data, data.boardData
  {
    var n := Diagonal(piece, from, lr);
    data.InBound(n) && data.IsOpponentPiece(piece.color, n) && a.at == data.CoordXyToStr(n)
  }

  /** Every capture action of a diagonal entry hits the in-bound opponent's
      cell diagonally ahead on that side. */
  lemma DiagonalCapturesOnly(data: GameData, piece: Piece, from: BoardCoordData, lr: int)
    requires data.Shaped()
    ensures forall e, a :: e in DiagonalEntries(data, piece, from, lr) && a in e.actions && IsCapture(a) ==>
      HitsDiagonal(data, piece, from, lr, a)
  {
  }

  /** The steps forward carry only MOVE and BATTERY actions. */
  lemma ForwardNeverCaptures(data: GameData, piece: Piece, from: BoardCoordData)
    requires data.Shaped()
    ensures forall e, a :: e in ForwardEntries(data, piece, from) && a in e.actions ==> !IsCapture(a)
  {
  }

  /** A pawn never captures straight ahead: every capture action in its
      default list is on a diagonal cell ahead that holds an opponent. */
  lemma PawnCapturesDiagonally(data: GameData, piece: Piece, from: BoardCoordData)
    requires data.Shaped()
    ensures forall e, a :: e in PawnDefault(data, piece, from) && a in e.actions && IsCapture(a) ==>
      HitsDiagonal(data, piece, from, -1, a) || HitsDiagonal(data, piece, from, 1, a)
  {
    BothSides(data, piece, from);
    ForwardNeverCaptures(data, piece, from);
    DiagonalCapturesOnly(data, piece, from, -1);
    DiagonalCapturesOnly(data, piece, from, 1);
  }

  /** The cannon category comes exactly with a cannon and bombard exactly with
      a cannon on a battery, from single targets only (none at all on 13x);
      a bare pawn has only the default category. */
  lemma PawnMovesMeaning(data: GameData, piece: Piece, coord: BoardCoord)
    requires data.Shaped() && CannonSquareOnBoard(data, piece, coord)
    ensures var r, from := PawnMoves(data, piece, coord), data.CoordStrToXy(coord);
      && r.default == Some(PawnDefault(data, piece, from))
      && |r.default.value| <= 6
      && (r.cannon.Some? <==> piece.HasCannon())
      && (r.bombard.Some? <==> piece.HasCannon() && data.IsBatterySquare(from.x, from.y))
      && (r.bombard.Some? ==>
            var t := if BatteryFace(data, from) == L then PawnLeft(data.boardSize) else PawnRight(data.boardSize);
            t.dirs == [] && r.bombard.value == BombardSingles(data, piece.color, t.singles))
      && (r.bombard.Some? && data.boardSize == 13 ==> r.bombard.value == [])
      && (!piece.HasCannon() ==> r.cannon.None? && r.bombard.None?)
  {
    var from := data.CoordStrToXy(coord);
    ForwardMeaning(data, piece, from);
    DiagonalMeaning(data, piece, from, -1);
    DiagonalMeaning(data, piece, from, 1);
    BothSides(data, piece, from);
    CannonLayerMeaning(data, piece, from, PawnDefault(data, piece, from),
                       PawnLeft(data.boardSize), PawnRight(data.boardSize));
  }
}
