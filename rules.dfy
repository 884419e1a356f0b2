/**
 * GameRules.getAvailableMoves (amplify/shared/game/game-rules.ts): the
 * family of the piece's code picks the generator, tested in the order
 * Bishops, Cannons, Guards, Kings, Knights, Pawns, Queens, Rooks; a code of
 * no family gets the empty result.
 */
module Rules {
  import opened Types
  import opened Pieces
  import opened Board
  import opened RuleUtils
  import Bishop
  import Cannon
  import Guard
  import King
  import Knight
  import Pawn
  import Queen
  import Rook

  /** What the generators other than the cannon's demand: a piece carrying a
      cannon stands on the board. */
  predicate CanDispatch(data: GameData, piece: Piece, coord: BoardCoord)
    reads data, data.boardData
  {
    data.Shaped() && (piece.kind !in Cannons ==> CannonSquareOnBoard(data, piece, coord))
  }

  /** The result of getAvailableMoves, family by family in the source's order. */
  function AvailableMovesFor(data: GameData, piece: Piece, coord: BoardCoord): AvailableMoves
    requires CanDispatch(data, piece, coord)
    reads data, data.boardData, data.boardFormation
  {
    if piece.kind in Bishops then Bishop.BishopMoves(data, piece, coord)
    else if piece.kind in Cannons then Cannon.CannonPieceMoves(data, piece, coord)
    else if piece.kind in Guards then Guard.GuardMoves(data, piece, coord)
    else if piece.kind in Kings then King.KingMoves(data, piece, coord)
    else if piece.kind in Knights then Knight.KnightMoves(data, piece, coord)
    else if piece.kind in Pawns then Pawn.PawnMoves(data, piece, coord)
    else if piece.kind in Queens then Queen.QueenMoves(data, piece, coord)
    else if piece.kind in Rooks then Rook.RookMoves(data, piece, coord)
    else NoMoves
  }

  method GetAvailableMoves(piece: Piece, coord: BoardCoord, data: GameData) returns (moves: AvailableMoves)
    requires CanDispatch(data, piece, coord)
    ensures moves == AvailableMovesFor(data, piece, coord)
  {
    if piece.kind in Bishops {
      moves := Bishop.GetBishopMoves(piece, coord, data);
    } else if piece.kind in Cannons {
      moves := Cannon.GetCannonMoves(piece, coord, data);
    } else if piece.kind in Guards {
      moves := Guard.GetGuardMoves(piece, coord, data);
    } else if piece.kind in Kings {
      moves := King.GetKingMoves(piece, coord, data);
    } else if piece.kind in Knights {
      moves := Knight.GetKnightMoves(piece, coord, data);
    } else if piece.kind in Pawns {
      moves := Pawn.GetPawnMoves(piece, coord, data);
    } else if piece.kind in Queens {
      moves := Queen.GetQueenMoves(piece, coord, data);
    } else if piece.kind in Rooks {
      moves := Rook.GetRookMoves(piece, coord, data);
    } else {
      moves := NoMoves;
    }
  }

  /** A code belongs to at most one family, and to one exactly when it is in PieceList. */
  lemma CodesApart(t: string)
    ensures t in Kings ==> t !in Bishops && t !in Cannons && t !in Guards
    ensures t in Knights ==> t !in Bishops && t !in Cannons && t !in Guards && t !in Kings
    ensures t in Pawns ==> t !in Bishops && t !in Cannons && t !in Guards && t !in Kings && t !in Knights
    ensures t in Queens ==> t !in Bishops && t !in Cannons && t !in Guards && t !in Kings && t !in Knights && t !in Pawns
    ensures t in Rooks ==> t !in Bishops && t !in Cannons && t !in Guards && t !in Kings && t !in Knights && t !in Pawns && t !in Queens
    ensures t in Cannons ==> t !in Bishops
    ensures t in Guards ==> t !in Bishops && t !in Cannons
    ensures IsPieceType(t) <==> t in Bishops || t in Cannons || t in Guards || t in Kings || t in Knights || t in Pawns || t in Queens || t in Rooks
  {
  }

  /** The order of the tests does not matter: every piece code reaches the
      generator of its own family, whichever family that is, and only a code
      outside PieceList gets the empty result. */
  lemma Routing(data: GameData, piece: Piece, coord: BoardCoord)
    requires CanDispatch(data, piece, coord)
    ensures var r := AvailableMovesFor(data, piece, coord);
      && (piece.kind in Kings ==> r == King.KingMoves(data, piece, coord))
      && (piece.kind in Queens ==> r == Queen.QueenMoves(data, piece, coord))
      && (piece.kind in Rooks ==> r == Rook.RookMoves(data, piece, coord))
      && (piece.kind in Bishops ==> r == Bishop.BishopMoves(data, piece, coord))
      && (piece.kind in Knights ==> r == Knight.KnightMoves(data, piece, coord))
      && (piece.kind in Pawns ==> r == Pawn.PawnMoves(data, piece, coord))
      && (piece.kind in Cannons ==> r == Cannon.CannonPieceMoves(data, piece, coord))
      && (piece.kind in Guards ==> r == Guard.GuardMoves(data, piece, coord))
      && (!IsPieceType(piece.kind) ==> r == NoMoves)
  {
    CodesApart(piece.kind);
  }

  /** Every piece code gets a non-empty result: a generator always fills at
      least one category, so the empty result means exactly an unknown code. */
  lemma KnownCodesGetMoves(data: GameData, piece: Piece, coord: BoardCoord)
    requires CanDispatch(data, piece, coord)
    ensures AvailableMovesFor(data, piece, coord) == NoMoves <==> !IsPieceType(piece.kind)
  {
    Routing(data, piece, coord);
    PieceListIsUnion(piece.kind);
    var from := data.CoordStrToXy(coord);
    if IsPieceType(piece.kind) {
      var i :| 0 <= i < |Families| && piece.kind in Families[i];
      if piece.kind in Cannons {
        Cannon.CannonPieceMovesMeaning(data, piece, coord);
      } else {
        assert CannonSquareOnBoard(data, piece, coord);
        if i == 0 { King.KingMovesMeaning(data, piece, coord); }
        else if i == 1 { Queen.QueenMovesMeaning(data, piece, coord); }
        else if i == 2 { Rook.RookMovesMeaning(data, piece, coord); }
        else if i == 3 { Bishop.BishopMovesMeaning(data, piece, coord); }
        else if i == 4 { Knight.KnightMovesMeaning(data, piece, coord); }
        else if i == 5 { Pawn.PawnMovesMeaning(data, piece, coord); }
        else { Guard.GuardMovesMeaning(data, piece, coord); }
      }
    }
  }
}
