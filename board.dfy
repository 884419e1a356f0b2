/**
 * The board state (class GameData, amplify/shared/game/game-data.ts):
 * the piece grid, the square-type formation and the notation code of every
 * cell, the queries the move generators ask, and the seven operations that
 * rewrite cells in place.
 *
 * The initial layout is a constructor input: the default layouts of each
 * game mode are not part of this model.
 */
module Board {
  import opened Types
  import opened Utils
  import opened Pieces
  import opened Grids

  datatype Orientation = WhiteBottom | WhiteTop

  /** getPiece: `undefined` off the board, `null` on an empty cell. */
  datatype Lookup = Undefined | Empty | Holds(piece: Piece)

  /** decodeFromAndTo's result: the two decoded positions and what stands there. */
  datatype Decoded = Decoded(b0: BoardCoordData, b1: BoardCoordData, p0: Option<Piece>, p1: Option<Piece>)

  /** A size-by-size layout: an absent code is an empty cell. */
  predicate IsLayout(size: int, board: seq<seq<Option<PieceType>>>, formation: Formation) {
    && |board| == size && |formation| == size
    && (forall r :: 0 <= r < size ==> |board[r]| == size && |formation[r]| == size)
    && (forall r, c :: 0 <= r < size && 0 <= c < |board[r]| && board[r][c].Some? ==> IsPieceType(board[r][c].value))
  }

  /** The pieces the constructor places, each facing the way the board gives its code. */
  function InitialGrid(board: seq<seq<Option<PieceType>>>, flipped: bool): Grid {
    seq(|board|, r requires 0 <= r < |board| =>
      seq(|board[r]|, c requires 0 <= c < |board[r]| =>
        if board[r][c].Some? then Some(NewPiece(board[r][c].value, AttackDirectionFor(board[r][c].value, flipped)))
        else None))
  }

  /** Reversing the rows and then each row: the 180-degree rotation. */
  function Rotated<T>(g: seq<seq<T>>): (h: seq<seq<T>>)
    requires forall r :: 0 <= r < |g| ==> |g[r]| == |g|
    ensures |h| == |g| && forall r :: 0 <= r < |h| ==> |h[r]| == |g|
  {
    seq(|g|, y requires 0 <= y < |g| => seq(|g|, x requires 0 <= x < |g| => g[|g| - 1 - y][|g| - 1 - x]))
  }

  /** The initial pieces are good pieces of a size-by-size grid. */
  lemma InitialGridGood(size: BoardSize, board: seq<seq<Option<PieceType>>>, formation: Formation, flipped: bool)
    requires IsLayout(size, board, formation)
    ensures |InitialGrid(board, flipped)| == size
    ensures forall r :: 0 <= r < size ==> |InitialGrid(board, flipped)[r]| == size
    ensures GoodGrid(InitialGrid(board, flipped), flipped)
  {
    var g: seq<seq<Option<Piece>>> := InitialGrid(board, flipped);
    forall r, c | 0 <= r < |g| && 0 <= c < |g[r]| && g[r][c].Some?
      ensures GoodPiece(g[r][c].value, flipped)
    {
      var t := board[r][c].value;
      PieceTypeLetters(t);
    }
  }

  lemma RotatedGood(g: Grid, flipped: bool)
    requires IsSquare(g) && GoodGrid(g, flipped)
    ensures GoodGrid(Rotated(g), flipped)
  {
  }

  /** Rotating twice gives the grid back. */
  lemma RotatedTwice<T>(g: seq<seq<T>>)
    requires forall r :: 0 <= r < |g| ==> |g[r]| == |g|
    ensures Rotated(Rotated(g)) == g
  {
    var h := Rotated(Rotated(g));
    forall y | 0 <= y < |g| ensures h[y] == g[y] {
      assert |h[y]| == |g[y]|;
    }
  }

  /** A code built unflipped for cell (n-1-x, n-1-y), which the rotation moves
      to cell (x, y), decodes flipped to (x, y). */
  lemma FlippedCoordinateDecodes(n: BoardSize, x: int, y: int)
    requires 0 <= x < n && 0 <= y < n
    ensures StringCodeToCoord(CoordToStringCode(XY(n - 1 - x, n - 1 - y), n, false), n, true) == XY(x, y)
  {
    FilesCoverBoards(n);
    FileIndex(n - 1 - x);
  }

  /** The elements of a two-dimensional array, row by row. */
  ghost function Contents<T>(a: array2<T>): (s: seq<seq<T>>)
    reads a
    ensures |s| == a.Length0 && forall r :: 0 <= r < |s| ==> |s[r]| == a.Length1
  {
    seq(a.Length0, y requires 0 <= y < a.Length0 reads a =>
      seq(a.Length1, x requires 0 <= x < a.Length1 reads a => a[y, x]))
  }

  lemma RotatedContents<T>(a: array2<T>, s: seq<seq<T>>)
    requires a.Length0 == a.Length1 == |s| && forall r :: 0 <= r < |s| ==> |s[r]| == |s|
    requires forall y, x :: 0 <= y < a.Length0 && 0 <= x < a.Length1 ==> a[y, x] == s[|s| - 1 - y][|s| - 1 - x]
    ensures Contents(a) == Rotated(s)
  {
    ContentsAre(a, Rotated(s));
  }

  lemma ContentsAre<T>(a: array2<T>, s: seq<seq<T>>)
    requires |s| == a.Length0 && forall r :: 0 <= r < |s| ==> |s[r]| == a.Length1
    requires forall y, x :: 0 <= y < a.Length0 && 0 <= x < a.Length1 ==> a[y, x] == s[y][x]
    ensures Contents(a) == s
  {
    forall y | 0 <= y < a.Length0 ensures Contents(a)[y] == s[y] {
    }
  }

  /** boardCoordinates as first built: the unflipped code of every cell. */
  function UnflippedCodes(size: BoardSize): (s: seq<seq<BoardCoord>>)
    ensures |s| == size && forall r :: 0 <= r < size ==> |s[r]| == size
  {
    FilesCoverBoards(size);
    seq(size, y requires 0 <= y < size => seq(size, x requires 0 <= x < size => CoordToStringCode(XY(x, y), size, false)))
  }

  /** The codes the constructor stores decode to their own cells: the
      unflipped codes on a board that is not flipped, and the rotated codes
      on a flipped board. */
  lemma StoredCodesDecode(size: BoardSize, flipped: bool)
    ensures var s := if flipped then Rotated(UnflippedCodes(size)) else UnflippedCodes(size);
      forall y, x :: 0 <= y < size && 0 <= x < size ==> StringCodeToCoord(s[y][x], size, flipped) == XY(x, y)
  {
    if flipped {
      RotatedCodesDecode(size);
    } else {
      UnflippedCodesDecode(size);
    }
  }

  lemma UnflippedCodesDecode(size: BoardSize)
    ensures forall y, x :: 0 <= y < size && 0 <= x < size ==> StringCodeToCoord(UnflippedCodes(size)[y][x], size, false) == XY(x, y)
  {
    forall y, x | 0 <= y < size && 0 <= x < size
      ensures StringCodeToCoord(UnflippedCodes(size)[y][x], size, false) == XY(x, y)
    {
      FilesCoverBoards(size);
      DecodeEncodeUnflipped(XY(x, y), size);
    }
  }

  lemma RotatedCodesDecode(size: BoardSize)
    ensures forall y, x :: 0 <= y < size && 0 <= x < size ==> StringCodeToCoord(Rotated(UnflippedCodes(size))[y][x], size, true) == XY(x, y)
  {
    forall y, x | 0 <= y < size && 0 <= x < size
      ensures StringCodeToCoord(Rotated(UnflippedCodes(size))[y][x], size, true) == XY(x, y)
    {
      assert Rotated(UnflippedCodes(size))[y][x] == UnflippedCodes(size)[size - 1 - y][size - 1 - x];
      FlippedCoordinateDecodes(size, x, y);
    }
  }

  /** Builds a size-by-size array from rows of cells and, when asked,
      reverses it in place the way the constructor flips a board. */
  method NewCellArray<T>(s: seq<seq<T>>, size: nat, flip: bool) returns (a: array2<T>)
    requires |s| == size && forall r :: 0 <= r < size ==> |s[r]| == size
    ensures fresh(a) && a.Length0 == size && a.Length1 == size
    ensures Contents(a) == if flip then Rotated(s) else s
  {
    a := new T[size, size]((y, x) requires 0 <= y < size && 0 <= x < size => s[y][x]);
    if flip {
      label Built:
      ReverseRowsAndEachRow(a);
      assert forall y, x :: 0 <= y < size && 0 <= x < size ==> old@Built(a[y, x]) == s[y][x];
      RotatedContents(a, s);
    } else {
      ContentsAre(a, s);
    }
  }

  /** boardData.reverse(): the row order is reversed in place. */
  method ReverseRowOrder<T>(a: array2<T>)
    modifies a
    ensures forall y, x :: 0 <= y < a.Length0 && 0 <= x < a.Length1 ==> a[y, x] == old(a[a.Length0 - 1 - y, x])
  {
    var n := a.Length0;
    var i := 0;
    while i < n / 2
      invariant 0 <= i <= n / 2
      invariant forall y, x :: 0 <= y < n && 0 <= x < a.Length1 ==>
        a[y, x] == (if y < i || n - 1 - i < y then old(a[n - 1 - y, x]) else old(a[y, x]))
    {
      var j := 0;
      while j < a.Length1
        invariant 0 <= j <= a.Length1
        invariant forall y, x :: 0 <= y < n && 0 <= x < a.Length1 ==>
          a[y, x] == (if y < i || n - 1 - i < y || ((y == i || y == n - 1 - i) && x < j) then old(a[n - 1 - y, x]) else old(a[y, x]))
      {
        a[i, j], a[n - 1 - i, j] := a[n - 1 - i, j], a[i, j];
        j := j + 1;
      }
      i := i + 1;
    }
  }

  /** row.reverse() on every row, in place. */
  method ReverseEachRow<T>(a: array2<T>)
    modifies a
    ensures forall y, x :: 0 <= y < a.Length0 && 0 <= x < a.Length1 ==> a[y, x] == old(a[y, a.Length1 - 1 - x])
  {
    var m := a.Length1;
    var i := 0;
    while i < a.Length0
      invariant 0 <= i <= a.Length0
      invariant forall y, x :: 0 <= y < a.Length0 && 0 <= x < m ==>
        a[y, x] == (if y < i then old(a[y, m - 1 - x]) else old(a[y, x]))
    {
      var j := 0;
      while j < m / 2
        invariant 0 <= j <= m / 2
        invariant forall y, x :: 0 <= y < a.Length0 && 0 <= x < m ==>
          a[y, x] == (if y < i || (y == i && (x < j || m - 1 - j < x)) then old(a[y, m - 1 - x]) else old(a[y, x]))
      {
        a[i, j], a[i, m - 1 - j] := a[i, m - 1 - j], a[i, j];
        j := j + 1;
      }
      i := i + 1;
    }
  }

  /** `a.reverse().forEach((row) => row.reverse())` on a square array: the
      180-degree rotation, in place. */
  method ReverseRowsAndEachRow<T>(a: array2<T>)
    requires a.Length0 == a.Length1
    modifies a
    ensures forall y, x :: 0 <= y < a.Length0 && 0 <= x < a.Length1 ==>
      a[y, x] == old(a[a.Length0 - 1 - y, a.Length1 - 1 - x])
  {
    ReverseRowOrder(a);
    ReverseEachRow(a);
  }

  class GameData {
    const boardSize: BoardSize
    const isBoardFlipped: bool
    const boardData: array2<Option<Piece>>
    const boardFormation: array2<SquareType>
    const boardCoordinates: array2<BoardCoord>

    /** All three grids are boardSize by boardSize, and they are three different arrays. */
    predicate Shaped() {
      && boardCoordinates as object != boardData as object
      && boardData.Length0 == boardSize && boardData.Length1 == boardSize
      && boardFormation.Length0 == boardSize && boardFormation.Length1 == boardSize
      && boardCoordinates.Length0 == boardSize && boardCoordinates.Length1 == boardSize
    }

    ghost function BoardGrid(): (g: Grid)
      reads this, boardData
      ensures |g| == boardData.Length0 && forall r :: 0 <= r < |g| ==> |g[r]| == boardData.Length1
    {
      Contents(boardData)
    }

    ghost function BoardForm(): (f: Formation)
      reads this, boardFormation
      ensures |f| == boardFormation.Length0 && forall r :: 0 <= r < |f| ==> |f[r]| == boardFormation.Length1
    {
      Contents(boardFormation)
    }

    /** The board invariant: the grids have the board's size, every piece is a
        piece of PieceList facing the way the board gives its code, and the
        notation code stored for each cell decodes back to that cell. */
    ghost predicate Valid()
      reads this, boardData, boardCoordinates
    {
      Shaped() && GoodGrid(BoardGrid(), isBoardFlipped) && CoordinatesDecode()
    }

    /** The stored code of every cell decodes to that cell. */
    ghost predicate CoordinatesDecode()
      reads this, boardCoordinates
      requires Shaped()
    {
      forall y, x :: 0 <= y < boardSize && 0 <= x < boardSize ==>
        StringCodeToCoord(boardCoordinates[y, x], boardSize, isBoardFlipped) == XY(x, y)
    }

    // -------------------------------------------------------------------------
    // Construction (game-data.ts:56-89)
    // -------------------------------------------------------------------------

    constructor (size: BoardSize, orientation: Orientation, board: seq<seq<Option<PieceType>>>, formation: Formation)
      requires IsLayout(size, board, formation)
      ensures Valid()
      ensures boardSize == size && isBoardFlipped == (orientation == WhiteTop)
      ensures BoardForm() == formation
      ensures orientation == WhiteBottom ==> BoardGrid() == InitialGrid(board, false)
      ensures orientation == WhiteTop ==> BoardGrid() == Rotated(InitialGrid(board, true))
      ensures Contents(boardCoordinates) ==
        if orientation == WhiteTop then Rotated(UnflippedCodes(size)) else UnflippedCodes(size)
      ensures fresh(boardData) && fresh(boardFormation) && fresh(boardCoordinates)
    {
      var flipped := orientation == WhiteTop;
      boardSize := size;
      isBoardFlipped := flipped;
      var initial := InitialGrid(board, flipped);
      InitialGridGood(size, board, formation, flipped);
      // The formation is copied and never flipped.
      var pieces := NewCellArray(initial, size, flipped);
      var squares := NewCellArray(formation, size, false);
      var codes := NewCellArray(UnflippedCodes(size), size, flipped);
      boardData, boardFormation, boardCoordinates := pieces, squares, codes;
      new;
      if flipped {
        RotatedGood(initial, flipped);
      }
      StoredCodesDecode(size, flipped);
      assert forall y, x :: 0 <= y < size && 0 <= x < size ==> boardCoordinates[y, x] == Contents(boardCoordinates)[y][x];
    }

    // -------------------------------------------------------------------------
    // Notation (game-data.ts:114-149)
    // -------------------------------------------------------------------------

    function CoordXyToStr(c: BoardCoordData): BoardCoord
      requires 0 <= c.x < boardSize
    {
      CoordToStringCode(c, boardSize, isBoardFlipped)
    }

    function CoordStrToXy(code: BoardCoord): BoardCoordData {
      StringCodeToCoord(code, boardSize, isBoardFlipped)
    }

    /** On an unflipped board a cell's code decodes back to the cell. */
    lemma UnflippedNotationRoundTrip(c: BoardCoordData)
      requires !isBoardFlipped && 0 <= c.x < boardSize
      ensures CoordStrToXy(CoordXyToStr(c)) == c
    {
      FilesCoverBoards(boardSize);
      DecodeEncodeUnflipped(c, boardSize);
    }

    /** On a flipped board a cell's encoded code decodes to row boardSize, off
        the board, while the stored code of the same cell decodes to the cell. */
    lemma FlippedNotationMismatch(c: BoardCoordData)
      requires Valid() && isBoardFlipped && InBound(c)
      ensures CoordStrToXy(CoordXyToStr(c)) == XY(c.x, boardSize)
      ensures !InBound(CoordStrToXy(CoordXyToStr(c)))
      ensures CoordStrToXy(boardCoordinates[c.y, c.x]) == c
    {
      FilesCoverBoards(boardSize);
      FlippedEncodeLosesRow(c, boardSize);
    }

    /** `boardData[c.y][c.x]` once row c.y exists; a missing column reads as undefined. */
    function ReadCell(c: BoardCoordData): (r: Option<Piece>)
      requires Shaped() && 0 <= c.y < boardSize
      reads this, boardData
      ensures r == Cell(BoardGrid(), c)
    {
      if 0 <= c.x < boardSize then boardData[c.y, c.x] else None
    }

    /** decodeFromAndTo: None when a decoded row does not exist, where the
        source's indexing throws a TypeError. */
    function DecodeFromAndTo(fromCode: BoardCoord, toCode: BoardCoord): (r: Option<Decoded>)
      requires Shaped()
      reads this, boardData
      ensures r.Some? <==> RowsExist(BoardGrid(), CoordStrToXy(fromCode), CoordStrToXy(toCode))
      ensures r.Some? ==> r.value.b0 == CoordStrToXy(fromCode) && r.value.b1 == CoordStrToXy(toCode)
      ensures r.Some? ==> r.value.p0 == Cell(BoardGrid(), r.value.b0) && r.value.p1 == Cell(BoardGrid(), r.value.b1)
    {
      var f, t := CoordStrToXy(fromCode), CoordStrToXy(toCode);
      if 0 <= f.y < boardSize && 0 <= t.y < boardSize then Some(Decoded(f, t, ReadCell(f), ReadCell(t)))
      else None
    }

    // -------------------------------------------------------------------------
    // Queries (game-data.ts:170-266)
    // -------------------------------------------------------------------------

    predicate InBound(c: BoardCoordData) {
      0 <= c.x < boardSize && 0 <= c.y < boardSize
    }

    function GetPiece(c: BoardCoordData): (r: Lookup)
      requires Shaped()
      reads this, boardData
      ensures r == Undefined <==> !InBound(c)
    {
      if InBound(c) then (if boardData[c.y, c.x].Some? then Holds(boardData[c.y, c.x].value) else Empty)
      else Undefined
    }

    /** On the board, getPiece reads the grid: a piece where the grid holds
        one, and empty where it holds none. */
    lemma GetPieceReadsGrid(c: BoardCoordData)
      requires Shaped() && InBound(c)
      ensures GetPiece(c).Holds? <==> BoardGrid()[c.y][c.x].Some?
      ensures GetPiece(c).Holds? ==> BoardGrid()[c.y][c.x] == Some(GetPiece(c).piece)
    {
    }

    predicate IsSquareEmpty(c: BoardCoordData)
      requires Shaped()
      reads this, boardData
    {
      !GetPiece(c).Holds?
    }

    predicate IsOpponentPiece(currentColor: PieceColor, c: BoardCoordData)
      requires Shaped()
      reads this, boardData
    {
      GetPiece(c).Holds? && GetPiece(c).piece.color != currentColor
    }

    predicate IsFriendlyPiece(currentColor: PieceColor, c: BoardCoordData)
      requires Shaped()
      reads this, boardData
    {
      GetPiece(c).Holds? && GetPiece(c).piece.color == currentColor
    }

    predicate IsFriendlyBarePiece(currentColor: PieceColor, c: BoardCoordData)
      requires Shaped()
      reads this, boardData
    {
      GetPiece(c).Holds? && GetPiece(c).piece.color == currentColor && GetPiece(c).piece.IsBare()
    }

    /** A cannon-carrying or bare-cannon piece at c, while the mover is bare;
        the colour of the piece at c is not looked at. */
    predicate IsCaptureEquipTarget(currentPiece: Piece, c: BoardCoordData)
      requires Shaped()
      reads this, boardData
    {
      GetPiece(c).Holds? && (GetPiece(c).piece.HasCannon() || GetPiece(c).piece.IsBareCannon()) && currentPiece.IsBare()
    }

    function GetSquareType(x: int, y: int): (SquareTrueType, SquareColor)
      requires Shaped() && 0 <= x < boardSize && 0 <= y < boardSize
      reads this, boardFormation
    {
      SquareTypes(boardFormation[y, x])
    }

    predicate IsBatterySquare(x: int, y: int)
      requires Shaped() && 0 <= x < boardSize && 0 <= y < boardSize
      reads this, boardFormation
    {
      GetSquareType(x, y).0 == TrueBattery
    }

    function GetAttackDirection(t: PieceType): AttackDirection {
      AttackDirectionFor(t, isBoardFlipped)
    }

    function GetHomeFirstRow(t: PieceType): int {
      HomeFirstRowFor(t, isBoardFlipped, boardSize)
    }

    function GetHomeSecondRow(t: PieceType): int {
      HomeSecondRowFor(t, isBoardFlipped, boardSize)
    }

    /** Off the board there is nothing: the cell reads as empty and holds
        neither an opponent nor a friend.  On the board a cell is empty, holds
        an opponent or holds a friend, exactly one of the three. */
    lemma CellClassification(color: PieceColor, c: BoardCoordData)
      requires Shaped()
      ensures !InBound(c) ==>
        && GetPiece(c) == Undefined && IsSquareEmpty(c)
        && !IsOpponentPiece(color, c) && !IsFriendlyPiece(color, c)
        && !IsFriendlyBarePiece(color, c)
      ensures !(IsOpponentPiece(color, c) && IsFriendlyPiece(color, c))
      ensures IsSquareEmpty(c) <==> !IsOpponentPiece(color, c) && !IsFriendlyPiece(color, c)
      ensures IsFriendlyBarePiece(color, c) ==> IsFriendlyPiece(color, c)
    {
    }

    /** isCaptureEquipTarget accepts an advanced cannon, which captureEquip
        then refuses; a plain capture of it still applies. */
    lemma AdvancedCannonTargetRefused(mover: Piece, b0: BoardCoordData, b1: BoardCoordData)
      requires Shaped() && InBound(b0) && InBound(b1)
      requires BoardGrid()[b0.y][b0.x] == Some(mover) && mover.IsBare()
      requires BoardGrid()[b1.y][b1.x].Some? && BoardGrid()[b1.y][b1.x].value.IsAdvancedCannon()
      requires mover.color != BoardGrid()[b1.y][b1.x].value.color
      ensures IsCaptureEquipTarget(mover, b1)
      ensures Grids.CaptureEquip(BoardGrid(), b0, b1).0 == Null
      ensures Grids.Capture(BoardGrid(), b0, b1).0 != Null
    {
      var g: seq<seq<Option<Piece>>> := BoardGrid();
      var p1 := g[b1.y][b1.x].value;
      CannonCodes(p1);
      assert Cell(g, b0) == Some(mover) && Cell(g, b1) == Some(p1);
      assert !CaptureEquipDefender(p1);
    }

    // -------------------------------------------------------------------------
    // Operations (game-data.ts:298-438)
    // -------------------------------------------------------------------------

    /** `boardData[c.y][c.x] = v` once row c.y exists. */
    method WriteCell(c: BoardCoordData, v: Option<Piece>)
      requires Shaped() && 0 <= c.y < boardSize
      modifies boardData
      ensures BoardGrid() == Put(old(BoardGrid()), c, v)
    {
      ghost var before := BoardGrid();
      if 0 <= c.x < boardSize {
        boardData[c.y, c.x] := v;
        ContentsAre(boardData, Put(before, c, v));
      }
    }

    method Move(fromCode: BoardCoord, toCode: BoardCoord) returns (r: OpResult)
      requires Valid()
      modifies boardData
      ensures Valid()
      ensures (r, BoardGrid()) == Grids.Move(old(BoardGrid()), CoordStrToXy(fromCode), CoordStrToXy(toCode))
    {
      MoveKeepsGood(BoardGrid(), isBoardFlipped, CoordStrToXy(fromCode), CoordStrToXy(toCode));
      var d := DecodeFromAndTo(fromCode, toCode);
      if d.None? {
        return Thrown;
      }
      var Decoded(b0, b1, p0, p1) := d.value;
      if p0.Some? && p1.None? {
        WriteCell(b1, p0);
        WriteCell(b0, None);
        r := Pair(None, None);
      } else {
        r := Null;
      }
    }

    method Capture(fromCode: BoardCoord, toCode: BoardCoord) returns (r: OpResult)
      requires Valid()
      modifies boardData
      ensures Valid()
      ensures (r, BoardGrid()) == Grids.Capture(old(BoardGrid()), CoordStrToXy(fromCode), CoordStrToXy(toCode))
    {
      CaptureKeepsGood(BoardGrid(), isBoardFlipped, CoordStrToXy(fromCode), CoordStrToXy(toCode));
      var d := DecodeFromAndTo(fromCode, toCode);
      if d.None? {
        return Thrown;
      }
      var Decoded(b0, b1, p0, p1) := d.value;
      if p0.Some? && p1.Some? && p0.value.color != p1.value.color {
        WriteCell(b1, p0);
        WriteCell(b0, None);
        r := Pair(None, p1);
      } else {
        r := Null;
      }
    }

    method CaptureEquip(fromCode: BoardCoord, toCode: BoardCoord) returns (r: OpResult)
      requires Valid()
      modifies boardData
      ensures Valid()
      ensures (r, BoardGrid()) == Grids.CaptureEquip(old(BoardGrid()), CoordStrToXy(fromCode), CoordStrToXy(toCode))
    {
      CaptureEquipKeepsGood(BoardGrid(), isBoardFlipped, CoordStrToXy(fromCode), CoordStrToXy(toCode));
      var d := DecodeFromAndTo(fromCode, toCode);
      if d.None? {
        return Thrown;
      }
      var Decoded(b0, b1, p0, p1) := d.value;
      r := Null;
      if p0.Some? && p1.Some? && p0.value.color != p1.value.color {
        if p1.value.IsBareCannon() || (p1.value.HasCannon() && !p1.value.IsAdvancedCannon()) {
          var p1c := NewPiece(p0.value.GetEquipCannonType(), p0.value.dir);
          WriteCell(b1, Some(p1c));
          WriteCell(b0, None);
          r := Pair(None, Some(p1c));
        }
      }
    }

    method MoveEquip(fromCode: BoardCoord, toCode: BoardCoord) returns (r: OpResult)
      requires Valid()
      modifies boardData
      ensures Valid()
      ensures (r, BoardGrid()) == Grids.MoveEquip(old(BoardGrid()), CoordStrToXy(fromCode), CoordStrToXy(toCode))
    {
      MoveEquipKeepsGood(BoardGrid(), isBoardFlipped, CoordStrToXy(fromCode), CoordStrToXy(toCode));
      var d := DecodeFromAndTo(fromCode, toCode);
      if d.None? {
        return Thrown;
      }
      var Decoded(b0, b1, p0, p1) := d.value;
      if p0.Some? && p1.Some? && p0.value.color == p1.value.color && p0.value.IsBareCannon() && p1.value.IsBare() {
        var p1c := NewPiece(p1.value.GetEquipCannonType(), p1.value.dir);
        WriteCell(b1, Some(p1c));
        WriteCell(b0, None);
        r := Pair(None, Some(p1c));
      } else {
        r := Null;
      }
    }

    method TransferEquip(fromCode: BoardCoord, toCode: BoardCoord) returns (r: OpResult)
      requires Valid()
      modifies boardData
      ensures Valid()
      ensures (r, BoardGrid()) == Grids.TransferEquip(old(BoardGrid()), CoordStrToXy(fromCode), CoordStrToXy(toCode))
    {
      ghost var g0 := BoardGrid();
      TransferEquipKeepsGood(g0, isBoardFlipped, CoordStrToXy(fromCode), CoordStrToXy(toCode));
      var d := DecodeFromAndTo(fromCode, toCode);
      if d.None? {
        return Thrown;
      }
      var Decoded(b0, b1, p0, p1) := d.value;
      if p0.Some? && p1.Some? && p0.value.color == p1.value.color && p0.value.HasCannon() && p1.value.IsBare() {
        var p0n := NewPiece(p0.value.GetDumpCannonType(), p0.value.dir);
        var p1c := NewPiece(p1.value.GetEquipCannonType(), p1.value.dir);
        WriteCell(b1, Some(p1c));
        WriteCell(b0, Some(p0n));
        r := Pair(Some(p0n), Some(p1c));
      } else {
        r := Null;
      }
    }

    method Dump(fromCode: BoardCoord, toCode: BoardCoord) returns (r: OpResult)
      requires Valid()
      modifies boardData
      ensures Valid()
      ensures (r, BoardGrid()) == Grids.Dump(old(BoardGrid()), CoordStrToXy(fromCode), CoordStrToXy(toCode))
    {
      DumpKeepsGood(BoardGrid(), isBoardFlipped, CoordStrToXy(fromCode), CoordStrToXy(toCode));
      var d := DecodeFromAndTo(fromCode, toCode);
      if d.None? {
        return Thrown;
      }
      var Decoded(b0, b1, p0, p1) := d.value;
      if p0.Some? && p1.None? && p0.value.HasCannon() {
        var p0n := NewPiece(p0.value.GetDumpCannonType(), p0.value.dir);
        var p1c := NewPiece(if p0.value.IsBlackPiece() then "c" else "C", p0.value.dir);
        WriteCell(b1, Some(p1c));
        WriteCell(b0, Some(p0n));
        r := Pair(Some(p0n), Some(p1c));
      } else {
        r := Null;
      }
    }

    method Bombard(fromCode: BoardCoord, toCode: BoardCoord) returns (r: OpResult)
      requires Valid()
      modifies boardData
      ensures Valid()
      ensures (r, BoardGrid()) == Grids.Bombard(old(BoardGrid()), BoardForm(), CoordStrToXy(fromCode), CoordStrToXy(toCode))
    {
      BombardKeepsGood(BoardGrid(), BoardForm(), isBoardFlipped, CoordStrToXy(fromCode), CoordStrToXy(toCode));
      var d := DecodeFromAndTo(fromCode, toCode);
      if d.None? {
        return Thrown;
      }
      var Decoded(b0, b1, p0, p1) := d.value;
      if p0.Some? && p1.Some? && p0.value.HasCannon() && IsBatterySquare(b0.x, b0.y) {
        WriteCell(b1, None);
        r := Pair(p0, None);
      } else {
        r := Null;
      }
    }
  }
}
