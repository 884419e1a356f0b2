/**
 * Coordinate notation and piece-code lookups
 * (amplify/shared/game/game-utils.ts).
 *
 * Case conversion is ASCII only: every piece code is made of ASCII letters.
 */
module Utils {
  import opened Types

  function LowerChar(c: char): char {
    if 'A' <= c <= 'Z' then (c as int + 32) as char else c
  }

  function UpperChar(c: char): char {
    if 'a' <= c <= 'z' then (c as int - 32) as char else c
  }

  function ToLowerCase(s: string): string {
    seq(|s|, i requires 0 <= i < |s| => LowerChar(s[i]))
  }

  function ToUpperCase(s: string): string {
    seq(|s|, i requires 0 <= i < |s| => UpperChar(s[i]))
  }

  /** String.prototype.indexOf for one character: -1 when absent. */
  function IndexOf(s: string, c: char): (i: int)
    ensures -1 <= i < |s|
    ensures 0 <= i ==> s[i] == c && c !in s[..i]
    ensures i == -1 <==> c !in s
  {
    if |s| == 0 then -1
    else if s[0] == c then 0
    else
      var k := IndexOf(s[1..], c);
      assert s == [s[0]] + s[1..];
      if k == -1 then -1 else k + 1
  }

  // ---------------------------------------------------------------------------
  // Notation
  // ---------------------------------------------------------------------------

  /** coordToStringCode. Under `flipped` the rank is always size + 1, whatever
      the row: the flipped branch never looks at coord.y. */
  function CoordToStringCode(coord: BoardCoordData, size: int, flipped: bool): BoardCoord
    requires flipped ==> 0 <= size - coord.x - 1 < |BoardFileStringCode|
    requires !flipped ==> 0 <= coord.x < |BoardFileStringCode|
  {
    if flipped then BoardCoord(BoardFileStringCode[size - coord.x - 1], size + 1)
    else BoardCoord(BoardFileStringCode[coord.x], size - coord.y)
  }

  /** stringCodeToCoord. A file letter outside the alphabet gives index -1. */
  function StringCodeToCoord(sc: BoardCoord, size: int, flipped: bool): BoardCoordData {
    if flipped then XY(size - IndexOf(BoardFileStringCode, sc.file) - 1, sc.rank - 1)
    else XY(IndexOf(BoardFileStringCode, sc.file), size - sc.rank)
  }

  /** Looking up the k-th file letter gives back k. */
  lemma FileIndex(k: int)
    requires 0 <= k < |BoardFileStringCode|
    ensures IndexOf(BoardFileStringCode, BoardFileStringCode[k]) == k
  {
    FilesCoverBoards(10);
  }

  /** Unflipped decoding inverts unflipped encoding, for every row. */
  lemma DecodeEncodeUnflipped(coord: BoardCoordData, size: int)
    requires 0 <= coord.x < |BoardFileStringCode|
    ensures CoordToStringCode(coord, size, false) == BoardCoord(BoardFileStringCode[coord.x], size - coord.y)
    ensures StringCodeToCoord(CoordToStringCode(coord, size, false), size, false) == coord
  {
    FileIndex(coord.x);
  }

  /** Unflipped encoding inverts unflipped decoding on codes with a valid file letter. */
  lemma EncodeDecodeUnflipped(sc: BoardCoord, size: int)
    requires sc.file in BoardFileStringCode
    ensures 0 <= StringCodeToCoord(sc, size, false).x < |BoardFileStringCode|
    ensures CoordToStringCode(StringCodeToCoord(sc, size, false), size, false) == sc
  {
  }

  /** Flipped decoding is the 180-degree rotation of unflipped decoding. */
  lemma FlippedDecodeIsRotation(sc: BoardCoord, size: int)
    ensures StringCodeToCoord(sc, size, true).x == size - 1 - StringCodeToCoord(sc, size, false).x
    ensures StringCodeToCoord(sc, size, true).y == size - 1 - StringCodeToCoord(sc, size, false).y
    ensures sc.file in BoardFileStringCode ==>
      StringCodeToCoord(sc, size, true) == XY(size - 1 - IndexOf(BoardFileStringCode, sc.file), sc.rank - 1)
  {
  }

  /** Flipped encoding forgets the row: decoding it back always lands on row
      `size`, one past the board, so it is not an inverse of flipped decoding
      for any on-board cell. */
  lemma FlippedEncodeLosesRow(coord: BoardCoordData, size: int)
    requires 0 <= size - coord.x - 1 < |BoardFileStringCode|
    ensures CoordToStringCode(coord, size, true).rank == size + 1
    ensures StringCodeToCoord(CoordToStringCode(coord, size, true), size, true) == XY(coord.x, size)
    ensures 0 <= coord.y < size ==>
      StringCodeToCoord(CoordToStringCode(coord, size, true), size, true) != coord
  {
    FileIndex(size - coord.x - 1);
  }

  // ---------------------------------------------------------------------------
  // Piece names and colours
  // ---------------------------------------------------------------------------

  function GetPiecePrimName(piece: PieceType): string
    requires |piece| > 0 && LowerChar(piece[0]) in PieceNamesLookup
  {
    PieceNamesLookup[LowerChar(piece[0])]
  }

  function GetPieceName(piece: PieceType): string
    requires |piece| > 0 && LowerChar(piece[0]) in PieceNamesLookup
  {
    GetPiecePrimName(piece) + (if |piece| > 1 then "%" else "")
  }

  function GetPieceColorLabel(piece: PieceType): string {
    if piece == ToLowerCase(piece) then "Black" else "White"
  }

  function GetPieceColor(piece: PieceType): PieceColor {
    if piece == ToLowerCase(piece) then Black else White
  }

  predicate IsWhite(piece: PieceType) {
    piece == ToUpperCase(piece)
  }

  /** A code whose characters are all lower-case letters, or all upper-case letters. */
  predicate SingleCaseLetters(t: string) {
    || (forall i :: 0 <= i < |t| ==> 'a' <= t[i] <= 'z')
    || (forall i :: 0 <= i < |t| ==> 'A' <= t[i] <= 'Z')
  }

  /** On a non-empty single-case letter code exactly one of "black" and
      "white" holds, and the colour label agrees with the colour. */
  lemma ColorOfLetterCode(t: string)
    requires |t| > 0 && SingleCaseLetters(t)
    ensures (GetPieceColor(t) == Black) != IsWhite(t)
    ensures GetPieceColor(t) == Black <==> forall i :: 0 <= i < |t| ==> 'a' <= t[i] <= 'z'
    ensures GetPieceColorLabel(t) == (if GetPieceColor(t) == Black then "Black" else "White")
  {
    if forall i :: 0 <= i < |t| ==> 'a' <= t[i] <= 'z' {
      assert ToLowerCase(t) == t;
      assert ToUpperCase(t)[0] != t[0];
    } else {
      assert ToUpperCase(t) == t;
      assert ToLowerCase(t)[0] != t[0];
    }
  }

  /** The letters of one member of a family laid out as Families lays them out. */
  lemma MemberLetters(f: seq<PieceType>, t: PieceType)
    requires |f| == 4 && t in f
    requires |f[0]| == 1 && f[1] == f[0] + "c" && |f[2]| == 1 && f[3] == f[2] + "C"
    requires 'a' <= f[0][0] <= 'z' && f[2][0] as int == f[0][0] as int - 32
    ensures |t| == 1 || |t| == 2
    ensures SingleCaseLetters(t)
    ensures LowerChar(t[0]) == f[0][0]
  {
    if t == f[0] || t == f[1] {
      assert forall k :: 0 <= k < |t| ==> 'a' <= t[k] <= 'z';
    } else {
      assert t == f[2] || t == f[3];
      assert forall k :: 0 <= k < |t| ==> 'A' <= t[k] <= 'Z';
    }
  }

  /** Every code of PieceList is a one- or two-letter single-case code. */
  lemma PieceTypeLetters(t: string)
    requires IsPieceType(t)
    ensures |t| == 1 || |t| == 2
    ensures SingleCaseLetters(t)
    ensures LowerChar(t[0]) in PieceNamesLookup
  {
    PieceListIsUnion(t);
    var i :| 0 <= i < |Families| && t in Families[i];
    FamilyShape(i);
    MemberLetters(Families[i], t);
  }

  /** Exactly one colour holds for each piece code. */
  lemma PieceColorExclusive(t: string)
    requires IsPieceType(t)
    ensures (GetPieceColor(t) == Black) != IsWhite(t)
  {
    PieceTypeLetters(t);
    ColorOfLetterCode(t);
  }

  /** The name looked up from the first letter is the name of the code's
      family, and "%" is appended exactly to equipped (two-letter) codes. */
  lemma PieceNameByFamily(t: PieceType, i: nat)
    requires i < |Families| && t in Families[i]
    ensures IsPieceType(t) && LowerChar(t[0]) in PieceNamesLookup
    ensures GetPiecePrimName(t) == FamilyNames[i]
    ensures GetPieceName(t) == FamilyNames[i] + (if |t| == 2 then "%" else "")
    ensures (GetPieceName(t)[|GetPieceName(t)| - 1] == '%') <==> |t| == 2
  {
    PieceListIsUnion(t);
    FamilyShape(i);
    MemberLetters(Families[i], t);
    assert GetPiecePrimName(t) == FamilyNames[i];
  }
}
