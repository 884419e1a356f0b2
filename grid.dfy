/**
 * The piece grid as a value, and the seven board operations of
 * amplify/shared/game/game-data.ts as functions from the old grid to the
 * operation's result and the new grid.  The GameData class (board.dfy)
 * performs them in place and is proved against these functions.
 */
module Grids {
  import opened Types
  import opened Utils
  import opened Pieces

  /** boardData: rows of optional pieces, indexed [y][x]. */
  type Grid = seq<seq<Option<Piece>>>

  /** The square-type formation, indexed [y][x]. */
  type Formation = seq<seq<SquareType>>

  predicate IsSquare(g: Grid) {
    forall r :: 0 <= r < |g| ==> |g[r]| == |g|
  }

  predicate OnGrid(g: Grid, c: BoardCoordData) {
    0 <= c.y < |g| && 0 <= c.x < |g[c.y]|
  }

  /** `boardData[c.y][c.x]` once row c.y exists.  A missing column reads as
      `undefined`, which every operation treats like an empty cell. */
  function Cell(g: Grid, c: BoardCoordData): (r: Option<Piece>)
    requires 0 <= c.y < |g|
    ensures r.Some? ==> OnGrid(g, c)
  {
    if 0 <= c.x < |g[c.y]| then g[c.y][c.x] else None
  }

  /** `boardData[c.y][c.x] = v` once row c.y exists.  A write to a missing
      column lands outside the grid (a stray property of the JavaScript row
      array) and leaves the grid's cells as they were. */
  function Put(g: Grid, c: BoardCoordData, v: Option<Piece>): (h: Grid)
    requires 0 <= c.y < |g|
    ensures |h| == |g| && forall r :: 0 <= r < |g| ==> |h[r]| == |g[r]|
  {
    if 0 <= c.x < |g[c.y]| then g[c.y := g[c.y][c.x := v]] else g
  }

  /** A write changes the written cell and nothing else. */
  lemma PutCell(g: Grid, c: BoardCoordData, v: Option<Piece>, d: BoardCoordData)
    requires 0 <= c.y < |g| && 0 <= d.y < |g|
    ensures Cell(Put(g, c, v), d) == (if d == c && OnGrid(g, c) then v else Cell(g, d))
  {
  }

  // ---------------------------------------------------------------------------
  // Counting pieces
  // ---------------------------------------------------------------------------

  function Occupied(v: Option<Piece>): nat {
    if v.Some? then 1 else 0
  }

  function RowCount(row: seq<Option<Piece>>): nat {
    if row == [] then 0 else Occupied(row[0]) + RowCount(row[1..])
  }

  /** The number of occupied cells. */
  function Count(g: Grid): nat {
    if g == [] then 0 else RowCount(g[0]) + Count(g[1..])
  }

  lemma {:induction false} RowCountUpdate(row: seq<Option<Piece>>, i: int, v: Option<Piece>)
    requires 0 <= i < |row|
    ensures RowCount(row[i := v]) == RowCount(row) - Occupied(row[i]) + Occupied(v)
  {
    if i > 0 {
      assert row[i := v][1..] == row[1..][i - 1 := v];
      RowCountUpdate(row[1..], i - 1, v);
    }
  }

  lemma {:induction false} CountUpdate(g: Grid, r: int, row: seq<Option<Piece>>)
    requires 0 <= r < |g|
    ensures Count(g[r := row]) == Count(g) - RowCount(g[r]) + RowCount(row)
  {
    if r > 0 {
      assert g[r := row][1..] == g[1..][r - 1 := row];
      CountUpdate(g[1..], r - 1, row);
    }
  }

  /** A write changes the count by what it puts in minus what it overwrites. */
  lemma PutCount(g: Grid, c: BoardCoordData, v: Option<Piece>)
    requires 0 <= c.y < |g|
    ensures Count(Put(g, c, v)) == Count(g) - Occupied(Cell(g, c)) + (if OnGrid(g, c) then Occupied(v) else 0)
  {
    if OnGrid(g, c) {
      RowCountUpdate(g[c.y], c.x, v);
      CountUpdate(g, c.y, g[c.y][c.x := v]);
    }
  }

  // ---------------------------------------------------------------------------
  // Attack direction and home rows (game-data.ts:252-266)
  // ---------------------------------------------------------------------------

  /** getAttackDirection: -1 (towards row 0) for the side drawn at the bottom. */
  function AttackDirectionFor(t: PieceType, flipped: bool): AttackDirection {
    if IsWhite(t) == !flipped then -1 else 1
  }

  function HomeFirstRowFor(t: PieceType, flipped: bool, size: BoardSize): int {
    if IsWhite(t) == !flipped then size - 1 else 0
  }

  function HomeSecondRowFor(t: PieceType, flipped: bool, size: BoardSize): int {
    if IsWhite(t) == !flipped then size - 2 else 1
  }

  /** The home rows sit on the edge a side starts from: the second home row is
      one step forward of the first, and the first is one step back off the
      board from row 0 or row size - 1 in the attack direction. */
  lemma HomeRowsFaceAttack(t: PieceType, flipped: bool, size: BoardSize)
    requires IsPieceType(t)
    ensures HomeSecondRowFor(t, flipped, size) == HomeFirstRowFor(t, flipped, size) + AttackDirectionFor(t, flipped)
    ensures !(0 <= HomeFirstRowFor(t, flipped, size) - AttackDirectionFor(t, flipped) < size)
    ensures 0 <= HomeFirstRowFor(t, flipped, size) < size && 0 <= HomeSecondRowFor(t, flipped, size) < size
    ensures (AttackDirectionFor(t, flipped) == -1) <==> ((GetPieceColor(t) == White) != flipped)
  {
    PieceColorExclusive(t);
  }

  /** A piece of PieceList whose direction is the one the board gives its code. */
  predicate GoodPiece(p: Piece, flipped: bool) {
    WellFormed(p) && p.dir == AttackDirectionFor(p.kind, flipped)
  }

  predicate GoodGrid(g: Grid, flipped: bool) {
    forall r, c :: 0 <= r < |g| && 0 <= c < |g[r]| && g[r][c].Some? ==> GoodPiece(g[r][c].value, flipped)
  }

  lemma PutGood(g: Grid, c: BoardCoordData, v: Option<Piece>, flipped: bool)
    requires 0 <= c.y < |g| && GoodGrid(g, flipped)
    requires v.Some? ==> GoodPiece(v.value, flipped)
    ensures GoodGrid(Put(g, c, v), flipped)
  {
  }

  /** A new piece of the same colour as a good piece, in the same direction, is good. */
  lemma SameSideGood(p: Piece, t: PieceType, flipped: bool)
    requires GoodPiece(p, flipped) && IsPieceType(t) && GetPieceColor(t) == p.color
    ensures GoodPiece(NewPiece(t, p.dir), flipped)
  {
    PieceColorExclusive(t);
    PieceColorExclusive(p.kind);
  }

  lemma EquipGood(p: Piece, flipped: bool)
    requires GoodPiece(p, flipped)
    ensures GoodPiece(NewPiece(p.GetEquipCannonType(), p.dir), flipped)
    ensures GoodPiece(NewPiece(p.GetDumpCannonType(), p.dir), flipped)
    ensures GoodPiece(NewPiece(if p.IsBlackPiece() then "c" else "C", p.dir), flipped)
  {
    EquipDumpKeepColor(p);
    SameSideGood(p, p.GetEquipCannonType(), flipped);
    SameSideGood(p, p.GetDumpCannonType(), flipped);
    var cannon := if p.IsBlackPiece() then "c" else "C";
    assert IsPieceType(cannon) && SingleCaseLetters(cannon);
    ColorOfLetterCode(cannon);
    SameSideGood(p, cannon, flipped);
  }

  // ---------------------------------------------------------------------------
  // The seven operations (game-data.ts:298-438)
  // ---------------------------------------------------------------------------

  /** OpRes: `null` when the operation does not apply, the pair of pieces it
      reports after applying, or a TypeError thrown by decodeFromAndTo when
      a decoded row does not exist. */
  datatype OpResult = Null | Pair(first: Option<Piece>, second: Option<Piece>) | Thrown

  /** Both rows exist, so `boardData[f.y][f.x]` and `boardData[t.y][t.x]` can be read. */
  predicate RowsExist(g: Grid, b0: BoardCoordData, b1: BoardCoordData) {
    0 <= b0.y < |g| && 0 <= b1.y < |g|
  }

  /** Both cells exist. */
  predicate BothOnGrid(g: Grid, b0: BoardCoordData, b1: BoardCoordData) {
    OnGrid(g, b0) && OnGrid(g, b1)
  }

  /** Everything outside b0 and b1 is as it was. */
  ghost predicate Elsewhere(g: Grid, h: Grid, b0: BoardCoordData, b1: BoardCoordData)
    requires |h| == |g|
  {
    forall c: BoardCoordData :: 0 <= c.y < |g| && c != b0 && c != b1 ==> Cell(h, c) == Cell(g, c)
  }

  function Move(g: Grid, b0: BoardCoordData, b1: BoardCoordData): (OpResult, Grid) {
    if !RowsExist(g, b0, b1) then (Thrown, g)
    else
      var p0, p1 := Cell(g, b0), Cell(g, b1);
      if p0.Some? && p1.None? then (Pair(None, None), Put(Put(g, b1, p0), b0, None))
      else (Null, g)
  }

  function Capture(g: Grid, b0: BoardCoordData, b1: BoardCoordData): (OpResult, Grid) {
    if !RowsExist(g, b0, b1) then (Thrown, g)
    else
      var p0, p1 := Cell(g, b0), Cell(g, b1);
      if p0.Some? && p1.Some? && p0.value.color != p1.value.color then
        (Pair(None, p1), Put(Put(g, b1, p0), b0, None))
      else (Null, g)
  }

  /** The defenders a capture-equip may take: a bare cannon, or an equipped
      piece other than an advanced cannon. */
  predicate CaptureEquipDefender(p: Piece) {
    p.IsBareCannon() || (p.HasCannon() && !p.IsAdvancedCannon())
  }

  function CaptureEquip(g: Grid, b0: BoardCoordData, b1: BoardCoordData): (OpResult, Grid) {
    if !RowsExist(g, b0, b1) then (Thrown, g)
    else
      var p0, p1 := Cell(g, b0), Cell(g, b1);
      if p0.Some? && p1.Some? && p0.value.color != p1.value.color && CaptureEquipDefender(p1.value) then
        var p1c := NewPiece(p0.value.GetEquipCannonType(), p0.value.dir);
        (Pair(None, Some(p1c)), Put(Put(g, b1, Some(p1c)), b0, None))
      else (Null, g)
  }

  function MoveEquip(g: Grid, b0: BoardCoordData, b1: BoardCoordData): (OpResult, Grid) {
    if !RowsExist(g, b0, b1) then (Thrown, g)
    else
      var p0, p1 := Cell(g, b0), Cell(g, b1);
      if p0.Some? && p1.Some? && p0.value.color == p1.value.color
         && p0.value.IsBareCannon() && p1.value.IsBare() then
        var p1c := NewPiece(p1.value.GetEquipCannonType(), p1.value.dir);
        (Pair(None, Some(p1c)), Put(Put(g, b1, Some(p1c)), b0, None))
      else (Null, g)
  }

  function TransferEquip(g: Grid, b0: BoardCoordData, b1: BoardCoordData): (OpResult, Grid) {
    if !RowsExist(g, b0, b1) then (Thrown, g)
    else
      var p0, p1 := Cell(g, b0), Cell(g, b1);
      if p0.Some? && p1.Some? && p0.value.color == p1.value.color
         && p0.value.HasCannon() && p1.value.IsBare() then
        var p0n := NewPiece(p0.value.GetDumpCannonType(), p0.value.dir);
        var p1c := NewPiece(p1.value.GetEquipCannonType(), p1.value.dir);
        (Pair(Some(p0n), Some(p1c)), Put(Put(g, b1, Some(p1c)), b0, Some(p0n)))
      else (Null, g)
  }

  function Dump(g: Grid, b0: BoardCoordData, b1: BoardCoordData): (OpResult, Grid) {
    if !RowsExist(g, b0, b1) then (Thrown, g)
    else
      var p0, p1 := Cell(g, b0), Cell(g, b1);
      if p0.Some? && p1.None? && p0.value.HasCannon() then
        var p0n := NewPiece(p0.value.GetDumpCannonType(), p0.value.dir);
        var p1c := NewPiece(if p0.value.IsBlackPiece() then "c" else "C", p0.value.dir);
        (Pair(Some(p0n), Some(p1c)), Put(Put(g, b1, Some(p1c)), b0, Some(p0n)))
      else (Null, g)
  }

  /** isBatterySquare on the formation, read at a cell that exists. */
  predicate FormationBattery(form: Formation, c: BoardCoordData)
    requires 0 <= c.y < |form| && 0 <= c.x < |form[c.y]|
  {
    GetSquareTrueType(form[c.y][c.x]) == TrueBattery
  }

  predicate Fits(g: Grid, form: Formation) {
    |form| == |g| && forall r :: 0 <= r < |g| ==> |form[r]| == |g[r]|
  }

  function Bombard(g: Grid, form: Formation, b0: BoardCoordData, b1: BoardCoordData): (OpResult, Grid)
    requires Fits(g, form)
  {
    if !RowsExist(g, b0, b1) then (Thrown, g)
    else
      var p0, p1 := Cell(g, b0), Cell(g, b1);
      if p0.Some? && p1.Some? && p0.value.HasCannon() && FormationBattery(form, b0) then
        (Pair(p0, None), Put(g, b1, None))
      else (Null, g)
  }

  // ---------------------------------------------------------------------------
  // What each operation does
  // ---------------------------------------------------------------------------

  /** Every operation throws, and changes nothing, when a decoded row is
      missing; when it does not apply it returns null and changes nothing. */
  lemma OperationsRejectCleanly(g: Grid, form: Formation, b0: BoardCoordData, b1: BoardCoordData)
    requires Fits(g, form)
    ensures !RowsExist(g, b0, b1) ==>
      Move(g, b0, b1) == (Thrown, g) && Capture(g, b0, b1) == (Thrown, g)
      && CaptureEquip(g, b0, b1) == (Thrown, g) && MoveEquip(g, b0, b1) == (Thrown, g)
      && TransferEquip(g, b0, b1) == (Thrown, g) && Dump(g, b0, b1) == (Thrown, g)
      && Bombard(g, form, b0, b1) == (Thrown, g)
    ensures Move(g, b0, b1).0 == Null ==> Move(g, b0, b1).1 == g
    ensures Capture(g, b0, b1).0 == Null ==> Capture(g, b0, b1).1 == g
    ensures CaptureEquip(g, b0, b1).0 == Null ==> CaptureEquip(g, b0, b1).1 == g
    ensures MoveEquip(g, b0, b1).0 == Null ==> MoveEquip(g, b0, b1).1 == g
    ensures TransferEquip(g, b0, b1).0 == Null ==> TransferEquip(g, b0, b1).1 == g
    ensures Dump(g, b0, b1).0 == Null ==> Dump(g, b0, b1).1 == g
    ensures Bombard(g, form, b0, b1).0 == Null ==> Bombard(g, form, b0, b1).1 == g
  {
  }

  /** move: applies iff the source is occupied and the destination is empty;
      the piece then stands on the destination, the source is empty, nothing
      else changes, and the count is kept (when the destination exists). */
  lemma MoveEffect(g: Grid, b0: BoardCoordData, b1: BoardCoordData)
    requires RowsExist(g, b0, b1)
    ensures var (r, h) := Move(g, b0, b1);
      && (r != Null <==> Cell(g, b0).Some? && Cell(g, b1).None?)
      && (r != Null ==>
            && r == Pair(None, None) && |h| == |g|
            && Cell(h, b0) == None
            && (OnGrid(g, b1) ==> Cell(h, b1) == Cell(g, b0))
            && Elsewhere(g, h, b0, b1)
            && Count(h) == Count(g) - (if OnGrid(g, b1) then 0 else 1))
  {
    var (r, h) := Move(g, b0, b1);
    if r != Null {
      var h1 := Put(g, b1, Cell(g, b0));
      forall c: BoardCoordData | 0 <= c.y < |g| ensures Cell(h, c) == (if c == b0 then None else Cell(h1, c)) {
        PutCell(h1, b0, None, c);
      }
      forall c: BoardCoordData | 0 <= c.y < |g| ensures Cell(h1, c) == (if c == b1 && OnGrid(g, b1) then Cell(g, b0) else Cell(g, c)) {
        PutCell(g, b1, Cell(g, b0), c);
      }
      PutCount(g, b1, Cell(g, b0));
      PutCount(h1, b0, None);
    }
  }

  /** capture: applies iff both cells are occupied by opposite colours; the
      attacker replaces the defender, which is reported, and one piece fewer
      is on the board. */
  lemma CaptureEffect(g: Grid, b0: BoardCoordData, b1: BoardCoordData)
    requires RowsExist(g, b0, b1)
    ensures var (r, h) := Capture(g, b0, b1);
      && (r != Null <==> Cell(g, b0).Some? && Cell(g, b1).Some? && Cell(g, b0).value.color != Cell(g, b1).value.color)
      && (r != Null ==>
            && r == Pair(None, Cell(g, b1)) && |h| == |g| && b0 != b1
            && Cell(h, b0) == None && Cell(h, b1) == Cell(g, b0)
            && Elsewhere(g, h, b0, b1)
            && Count(h) == Count(g) - 1)
  {
    var (r, h) := Capture(g, b0, b1);
    if r != Null {
      TwoWrites(g, b0, b1, Cell(g, b0), None);
    }
  }

  /** Two writes, b1 first and then b0, when both cells exist and differ. */
  lemma TwoWrites(g: Grid, b0: BoardCoordData, b1: BoardCoordData, v1: Option<Piece>, v0: Option<Piece>)
    requires BothOnGrid(g, b0, b1) && b0 != b1
    ensures var h := Put(Put(g, b1, v1), b0, v0);
      && |h| == |g|
      && Cell(h, b0) == v0 && Cell(h, b1) == v1
      && Elsewhere(g, h, b0, b1)
      && Count(h) == Count(g) - Occupied(Cell(g, b0)) - Occupied(Cell(g, b1)) + Occupied(v0) + Occupied(v1)
  {
    var h1 := Put(g, b1, v1);
    var h := Put(h1, b0, v0);
    forall c: BoardCoordData | 0 <= c.y < |g| ensures Cell(h, c) == (if c == b0 then v0 else Cell(h1, c)) {
      PutCell(h1, b0, v0, c);
    }
    forall c: BoardCoordData | 0 <= c.y < |g| ensures Cell(h1, c) == (if c == b1 then v1 else Cell(g, c)) {
      PutCell(g, b1, v1, c);
    }
    PutCount(g, b1, v1);
    PutCount(h1, b0, v0);
  }

  /** captureEquip: applies iff both cells hold opposite colours and the
      defender is a bare cannon or an equipped piece other than an advanced
      cannon; the attacker, equipped, replaces the defender and one piece fewer
      is on the board. */
  lemma CaptureEquipEffect(g: Grid, b0: BoardCoordData, b1: BoardCoordData)
    requires RowsExist(g, b0, b1)
    ensures var (r, h) := CaptureEquip(g, b0, b1);
      && (r != Null <==>
            Cell(g, b0).Some? && Cell(g, b1).Some? && Cell(g, b0).value.color != Cell(g, b1).value.color
            && CaptureEquipDefender(Cell(g, b1).value))
      && (r != Null ==>
            && var p1c := NewPiece(Cell(g, b0).value.GetEquipCannonType(), Cell(g, b0).value.dir);
            && r == Pair(None, Some(p1c)) && |h| == |g| && b0 != b1
            && Cell(h, b0) == None && Cell(h, b1) == Some(p1c)
            && Elsewhere(g, h, b0, b1)
            && Count(h) == Count(g) - 1)
  {
    var (r, h) := CaptureEquip(g, b0, b1);
    if r != Null {
      var p0 := Cell(g, b0).value;
      TwoWrites(g, b0, b1, Some(NewPiece(p0.GetEquipCannonType(), p0.dir)), None);
    }
  }

  /** moveEquip: applies iff a bare cannon joins a bare piece of its own
      colour; the piece is equipped where it stands, the cannon's cell is
      emptied and one piece fewer is on the board.  When both codes name the
      same cell holding a bare cannon, the cell ends up empty. */
  lemma MoveEquipEffect(g: Grid, b0: BoardCoordData, b1: BoardCoordData)
    requires RowsExist(g, b0, b1)
    ensures var (r, h) := MoveEquip(g, b0, b1);
      && (r != Null <==>
            Cell(g, b0).Some? && Cell(g, b1).Some? && Cell(g, b0).value.color == Cell(g, b1).value.color
            && Cell(g, b0).value.IsBareCannon() && Cell(g, b1).value.IsBare())
      && (r != Null ==>
            && var p1c := NewPiece(Cell(g, b1).value.GetEquipCannonType(), Cell(g, b1).value.dir);
            && r == Pair(None, Some(p1c)) && |h| == |g|
            && Cell(h, b0) == None && (b0 != b1 ==> Cell(h, b1) == Some(p1c))
            && Elsewhere(g, h, b0, b1)
            && Count(h) == Count(g) - 1)
  {
    var (r, h) := MoveEquip(g, b0, b1);
    if r != Null {
      var p1 := Cell(g, b1).value;
      var v1 := Some(NewPiece(p1.GetEquipCannonType(), p1.dir));
      if b0 != b1 {
        TwoWrites(g, b0, b1, v1, None);
      } else {
        var h1 := Put(g, b1, v1);
        forall c: BoardCoordData | 0 <= c.y < |g| ensures Cell(h, c) == (if c == b0 then None else Cell(g, c)) {
          PutCell(h1, b0, None, c);
          PutCell(g, b1, v1, c);
        }
        PutCount(g, b1, v1);
        PutCount(h1, b0, None);
      }
    }
  }

  /** transferEquip: applies iff an equipped piece hands its cannon to a bare
      piece of its own colour; both are rebuilt and the count is kept. */
  lemma TransferEquipEffect(g: Grid, b0: BoardCoordData, b1: BoardCoordData)
    requires RowsExist(g, b0, b1)
    ensures var (r, h) := TransferEquip(g, b0, b1);
      && (r != Null <==>
            Cell(g, b0).Some? && Cell(g, b1).Some? && Cell(g, b0).value.color == Cell(g, b1).value.color
            && Cell(g, b0).value.HasCannon() && Cell(g, b1).value.IsBare())
      && (r != Null ==>
            && var p0n := NewPiece(Cell(g, b0).value.GetDumpCannonType(), Cell(g, b0).value.dir);
            && var p1c := NewPiece(Cell(g, b1).value.GetEquipCannonType(), Cell(g, b1).value.dir);
            && r == Pair(Some(p0n), Some(p1c)) && |h| == |g| && b0 != b1
            && Cell(h, b0) == Some(p0n) && Cell(h, b1) == Some(p1c)
            && Elsewhere(g, h, b0, b1)
            && Count(h) == Count(g))
  {
    var (r, h) := TransferEquip(g, b0, b1);
    if r != Null {
      var p0, p1 := Cell(g, b0).value, Cell(g, b1).value;
      TwoWrites(g, b0, b1, Some(NewPiece(p1.GetEquipCannonType(), p1.dir)), Some(NewPiece(p0.GetDumpCannonType(), p0.dir)));
    }
  }

  /** dump: applies iff an equipped piece aims at an empty destination; the
      piece is left bare where it stands and a new bare cannon of its colour
      stands on the destination, one piece more on the board. */
  lemma DumpEffect(g: Grid, b0: BoardCoordData, b1: BoardCoordData)
    requires RowsExist(g, b0, b1)
    ensures var (r, h) := Dump(g, b0, b1);
      && (r != Null <==> Cell(g, b0).Some? && Cell(g, b1).None? && Cell(g, b0).value.HasCannon())
      && (r != Null ==>
            && var p0n := NewPiece(Cell(g, b0).value.GetDumpCannonType(), Cell(g, b0).value.dir);
            && var p1c := NewPiece(if Cell(g, b0).value.IsBlackPiece() then "c" else "C", Cell(g, b0).value.dir);
            && r == Pair(Some(p0n), Some(p1c)) && |h| == |g| && b0 != b1
            && Cell(h, b0) == Some(p0n)
            && (OnGrid(g, b1) ==> Cell(h, b1) == Some(p1c) && Count(h) == Count(g) + 1)
            && Elsewhere(g, h, b0, b1))
  {
    var (r, h) := Dump(g, b0, b1);
    if r != Null {
      var p0 := Cell(g, b0).value;
      var v1 := Some(NewPiece(if p0.IsBlackPiece() then "c" else "C", p0.dir));
      var v0 := Some(NewPiece(p0.GetDumpCannonType(), p0.dir));
      if OnGrid(g, b1) {
        TwoWrites(g, b0, b1, v1, v0);
      } else {
        var h1 := Put(g, b1, v1);
        assert h1 == g;
        forall c: BoardCoordData | 0 <= c.y < |g| ensures Cell(h, c) == (if c == b0 then v0 else Cell(g, c)) {
          PutCell(g, b0, v0, c);
        }
      }
    }
  }

  /** bombard: applies iff an equipped piece on a battery square aims at an
      occupied cell, whatever that piece's colour; only the target is
      cleared and one piece fewer is on the board. */
  lemma BombardEffect(g: Grid, form: Formation, b0: BoardCoordData, b1: BoardCoordData)
    requires Fits(g, form) && RowsExist(g, b0, b1)
    ensures var (r, h) := Bombard(g, form, b0, b1);
      && (r != Null <==>
            Cell(g, b0).Some? && Cell(g, b1).Some? && Cell(g, b0).value.HasCannon() && FormationBattery(form, b0))
      && (r != Null ==>
            && r == Pair(Cell(g, b0), None) && |h| == |g|
            && Cell(h, b1) == None
            && (forall c: BoardCoordData :: 0 <= c.y < |g| && c != b1 ==> Cell(h, c) == Cell(g, c))
            && Count(h) == Count(g) - 1)
  {
    var (r, h) := Bombard(g, form, b0, b1);
    if r != Null {
      forall c: BoardCoordData | 0 <= c.y < |g| ensures Cell(h, c) == (if c == b1 then None else Cell(g, c)) {
        PutCell(g, b1, None, c);
      }
      PutCount(g, b1, None);
    }
  }

  /** Friendly fire: bombard clears a piece of the bombarding side too. */
  lemma BombardIgnoresColour(g: Grid, form: Formation, b0: BoardCoordData, b1: BoardCoordData)
    requires Fits(g, form) && BothOnGrid(g, b0, b1) && b0 != b1
    requires Cell(g, b0).Some? && Cell(g, b1).Some? && Cell(g, b0).value.color == Cell(g, b1).value.color
    requires Cell(g, b0).value.HasCannon() && FormationBattery(form, b0)
    ensures Bombard(g, form, b0, b1).0 != Null
    ensures Cell(Bombard(g, form, b0, b1).1, b1) == None
  {
    PutCell(g, b1, None, b1);
  }

  lemma TwoWritesGood(g: Grid, b0: BoardCoordData, b1: BoardCoordData, v1: Option<Piece>, v0: Option<Piece>, flipped: bool)
    requires RowsExist(g, b0, b1) && GoodGrid(g, flipped)
    requires v1.Some? ==> GoodPiece(v1.value, flipped)
    requires v0.Some? ==> GoodPiece(v0.value, flipped)
    ensures GoodGrid(Put(Put(g, b1, v1), b0, v0), flipped)
  {
    PutGood(g, b1, v1, flipped);
    PutGood(Put(g, b1, v1), b0, v0, flipped);
  }

  // Every operation keeps every piece of the grid a good piece.

  lemma MoveKeepsGood(g: Grid, flipped: bool, b0: BoardCoordData, b1: BoardCoordData)
    requires GoodGrid(g, flipped)
    ensures GoodGrid(Move(g, b0, b1).1, flipped)
  {
    if RowsExist(g, b0, b1) {
      TwoWritesGood(g, b0, b1, Cell(g, b0), None, flipped);
    }
  }

  lemma CaptureKeepsGood(g: Grid, flipped: bool, b0: BoardCoordData, b1: BoardCoordData)
    requires GoodGrid(g, flipped)
    ensures GoodGrid(Capture(g, b0, b1).1, flipped)
  {
    if RowsExist(g, b0, b1) {
      TwoWritesGood(g, b0, b1, Cell(g, b0), None, flipped);
    }
  }

  lemma CaptureEquipKeepsGood(g: Grid, flipped: bool, b0: BoardCoordData, b1: BoardCoordData)
    requires GoodGrid(g, flipped)
    ensures GoodGrid(CaptureEquip(g, b0, b1).1, flipped)
  {
    if RowsExist(g, b0, b1) && Cell(g, b0).Some? {
      var p0 := Cell(g, b0).value;
      EquipGood(p0, flipped);
      TwoWritesGood(g, b0, b1, Some(NewPiece(p0.GetEquipCannonType(), p0.dir)), None, flipped);
    }
  }

  lemma MoveEquipKeepsGood(g: Grid, flipped: bool, b0: BoardCoordData, b1: BoardCoordData)
    requires GoodGrid(g, flipped)
    ensures GoodGrid(MoveEquip(g, b0, b1).1, flipped)
  {
    if RowsExist(g, b0, b1) && Cell(g, b1).Some? {
      var p1 := Cell(g, b1).value;
      EquipGood(p1, flipped);
      TwoWritesGood(g, b0, b1, Some(NewPiece(p1.GetEquipCannonType(), p1.dir)), None, flipped);
    }
  }

  lemma TransferEquipKeepsGood(g: Grid, flipped: bool, b0: BoardCoordData, b1: BoardCoordData)
    requires GoodGrid(g, flipped)
    ensures GoodGrid(TransferEquip(g, b0, b1).1, flipped)
  {
    if RowsExist(g, b0, b1) && Cell(g, b0).Some? && Cell(g, b1).Some? {
      var p0, p1 := Cell(g, b0).value, Cell(g, b1).value;
      EquipGood(p0, flipped);
      EquipGood(p1, flipped);
      TwoWritesGood(g, b0, b1, Some(NewPiece(p1.GetEquipCannonType(), p1.dir)),
        Some(NewPiece(p0.GetDumpCannonType(), p0.dir)), flipped);
    }
  }

  lemma DumpKeepsGood(g: Grid, flipped: bool, b0: BoardCoordData, b1: BoardCoordData)
    requires GoodGrid(g, flipped)
    ensures GoodGrid(Dump(g, b0, b1).1, flipped)
  {
    if RowsExist(g, b0, b1) && Cell(g, b0).Some? {
      var p0 := Cell(g, b0).value;
      EquipGood(p0, flipped);
      TwoWritesGood(g, b0, b1, Some(NewPiece(if p0.IsBlackPiece() then "c" else "C", p0.dir)),
        Some(NewPiece(p0.GetDumpCannonType(), p0.dir)), flipped);
    }
  }

  lemma BombardKeepsGood(g: Grid, form: Formation, flipped: bool, b0: BoardCoordData, b1: BoardCoordData)
    requires Fits(g, form) && GoodGrid(g, flipped)
    ensures GoodGrid(Bombard(g, form, b0, b1).1, flipped)
  {
    if RowsExist(g, b0, b1) {
      PutGood(g, b1, None, flipped);
    }
  }
}
