/**
 * Piece codes, square types, board notation and the shape of the move
 * generator's result (amplify/shared/game/game-types.ts).
 */
module Types {

  datatype Option<+T> = None | Some(value: T)

  // ---------------------------------------------------------------------------
  // Pieces
  // ---------------------------------------------------------------------------

  /** A piece type code: one letter (bare) or two letters (carrying a cannon);
      lower case is black, upper case is white. */
  type PieceType = string

  const Kings: seq<PieceType> := ["k", "kc", "K", "KC"]
  const Queens: seq<PieceType> := ["q", "qc", "Q", "QC"]
  const Rooks: seq<PieceType> := ["r", "rc", "R", "RC"]
  const Bishops: seq<PieceType> := ["b", "bc", "B", "BC"]
  const Knights: seq<PieceType> := ["n", "nc", "N", "NC"]
  const Pawns: seq<PieceType> := ["p", "pc", "P", "PC"]
  const Cannons: seq<PieceType> := ["c", "cc", "C", "CC"]
  const Guards: seq<PieceType> := ["g", "gc", "G", "GC"]

  /** The eight families, in the order of the source's PieceList. */
  const Families: seq<seq<PieceType>> :=
    [Kings, Queens, Rooks, Bishops, Knights, Pawns, Cannons, Guards]

  const PieceList: seq<PieceType> :=
    Kings + Queens + Rooks + Bishops + Knights + Pawns + Cannons + Guards

  predicate IsPieceType(t: string) {
    t in PieceList
  }

  /** Full names by lower-case primary letter. */
  const PieceNamesLookup: map<char, string> :=
    map['k' := "King", 'q' := "Queen", 'r' := "Rook", 'b' := "Bishop",
        'n' := "Knight", 'p' := "Pawn", 'c' := "Cannon", 'g' := "Guard"]

  /** The family name of each entry of Families, in the same order. */
  const FamilyNames: seq<string> :=
    ["King", "Queen", "Rook", "Bishop", "Knight", "Pawn", "Cannon", "Guard"]

  datatype PieceColor = Black | White

  /** -1 moves towards rank index 0 ("up"), +1 away from it ("down"). */
  type AttackDirection = d: int | d == -1 || d == 1 witness 1

  // ---------------------------------------------------------------------------
  // Board
  // ---------------------------------------------------------------------------

  type SquareType = t: int | t == 0 || t == 1 || t == 10 || t == 11 || t == 66 || t == 99
    witness 0

  datatype SquareTrueType = TrueSquare | TrueShelter | TrueBattery

  /** B and W colour plain and shelter squares; L and R are the two battery faces. */
  datatype SquareColor = B | W | L | R

  /** The SquareTypes table. */
  function SquareTypes(t: SquareType): (r: (SquareTrueType, SquareColor))
    ensures r.0 == TrueSquare <==> t == 0 || t == 1
    ensures r.0 == TrueShelter <==> t == 10 || t == 11
    ensures r.0 == TrueBattery <==> t == 66 || t == 99
    ensures r.0 == TrueBattery ==> (r.1 == L <==> t == 66) && (r.1 == R <==> t == 99)
    ensures r.0 != TrueBattery ==> (r.1 == B <==> t == 0 || t == 10) && (r.1 == W <==> t == 1 || t == 11)
  {
    match t
    case 0 => (TrueSquare, B)
    case 1 => (TrueSquare, W)
    case 10 => (TrueShelter, B)
    case 11 => (TrueShelter, W)
    case 66 => (TrueBattery, L)
    case 99 => (TrueBattery, R)
  }

  function GetSquareTrueType(t: SquareType): SquareTrueType {
    SquareTypes(t).0
  }

  function GetBatteryFace(g: SquareType): SquareColor
    requires g == 66 || g == 99
  {
    if g == 66 then L else R
  }

  /** getBatteryFace agrees with the side recorded in the SquareTypes table. */
  lemma BatteryFaceAgrees(g: SquareType)
    requires g == 66 || g == 99
    ensures GetSquareTrueType(g) == TrueBattery
    ensures GetBatteryFace(g) == SquareTypes(g).1
    ensures GetBatteryFace(g) == L || GetBatteryFace(g) == R
  {
  }

  type BoardSize = n: int | n == 10 || n == 11 || n == 13 witness 10

  const BoardFileStringCode: string := "abcdefghijklm"

  /** A board notation code `<file-letter><rank>`: the letter and the number
      that make up the string. */
  datatype BoardCoord = BoardCoord(file: char, rank: int)

  datatype BoardCoordData = XY(x: int, y: int)

  // ---------------------------------------------------------------------------
  // Moves
  // ---------------------------------------------------------------------------

  datatype MoveType =
    | Battery | Bombard | Capture | CaptureEquip | Dump
    | Move | MoveEquip | Promote | TransferEquip

  datatype MoveUnit = MoveUnit(kind: MoveType, at: BoardCoord)

  /** One selectable move: the cell it is offered on and the actions it runs. */
  datatype MoveSequence = MoveSequence(holder: BoardCoord, actions: seq<MoveUnit>)

  datatype CannonSequence = CannonSequence(holder: BoardCoord, action: MoveUnit)

  /** Each category is optional: None means "not applicable here", which is
      different from Some([]), "applicable, but no target". */
  datatype AvailableMoves = AvailableMoves(
    default: Option<seq<MoveSequence>>,
    cannon: Option<seq<CannonSequence>>,
    bombard: Option<seq<BoardCoord>>)

  /** The empty object `{}`. */
  const NoMoves: AvailableMoves := AvailableMoves(None, None, None)

  /** A list of (x, y) offsets, directions or absolute cells. */
  type MoveMasks = seq<(int, int)>

  // ---------------------------------------------------------------------------
  // Facts about the tables
  // ---------------------------------------------------------------------------

  /** Each family holds the bare and equipped code of both colours. */
  lemma FamilyShape(i: nat)
    requires i < |Families|
    ensures |Families[i]| == 4
    ensures |Families[i][0]| == 1 && Families[i][1] == Families[i][0] + "c"
    ensures |Families[i][2]| == 1 && Families[i][3] == Families[i][2] + "C"
    ensures 'a' <= Families[i][0][0] <= 'z'
    ensures Families[i][2][0] as int == Families[i][0][0] as int - 32
    ensures Families[i][0][0] in PieceNamesLookup
    ensures PieceNamesLookup[Families[i][0][0]] == FamilyNames[i]
    ensures forall t :: t in Families[i] ==> t != "" && (t[0] == Families[i][0][0] || t[0] == Families[i][2][0])
  {
  }

  /** The families have distinct primary letters. */
  lemma FamilyLettersDistinct()
    ensures forall i, j :: 0 <= i < j < |Families| ==> Families[i][0][0] != Families[j][0][0]
  {
  }

  /** No code belongs to two families. */
  lemma FamiliesApart(t: string)
    ensures forall i, j :: 0 <= i < j < |Families| && t in Families[i] ==> t !in Families[j]
  {
    forall i, j | 0 <= i < j < |Families| && t in Families[i] ensures t !in Families[j] {
      FamilyShape(i);
      FamilyShape(j);
      FamilyLettersDistinct();
    }
  }

  /** PieceList is exactly the union of the families. */
  lemma PieceListIsUnion(t: string)
    ensures t in PieceList <==> exists i :: 0 <= i < |Families| && t in Families[i]
  {
    if t in PieceList {
      var i :| 0 <= i < 8 && t in Families[i] by {
        if t in Kings { assert t in Families[0]; }
        else if t in Queens { assert t in Families[1]; }
        else if t in Rooks { assert t in Families[2]; }
        else if t in Bishops { assert t in Families[3]; }
        else if t in Knights { assert t in Families[4]; }
        else if t in Pawns { assert t in Families[5]; }
        else if t in Cannons { assert t in Families[6]; }
        else { assert t in Families[7]; }
      }
    }
  }

  /** No code belongs to two families, and PieceList is exactly their union. */
  lemma FamiliesDisjoint(t: string)
    ensures forall i, j :: 0 <= i < j < |Families| && t in Families[i] ==> t !in Families[j]
    ensures t in PieceList <==> exists i :: 0 <= i < |Families| && t in Families[i]
  {
    FamiliesApart(t);
    PieceListIsUnion(t);
  }

  /** Thirteen distinct file letters: enough for every board size. */
  lemma FilesCoverBoards(n: BoardSize)
    ensures n <= |BoardFileStringCode| == 13
    ensures forall i, j :: 0 <= i < j < 13 ==> BoardFileStringCode[i] != BoardFileStringCode[j]
  {
  }
}
