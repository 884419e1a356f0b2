/**
 * A piece on the board (amplify/shared/game/game-piece.ts).
 *
 * The source's Piece is a class whose fields are fixed when it is built;
 * every equip, dump or transfer builds a replacement piece, so it is a value
 * here.  Its free-form `userdata` bag carries no rules and is left out.
 */
module Pieces {
  import opened Types
  import opened Utils

  datatype Piece = Piece(kind: PieceType, color: PieceColor, dir: AttackDirection) {

    /** The colour label the source stores beside the colour. */
    function ColorName(): string {
      if color == Black then "Black" else "White"
    }

    predicate HasCannon() {
      |kind| == 2
    }

    predicate IsBare() {
      |kind| == 1
    }

    predicate IsBareCannon() {
      ToLowerCase(kind) == "c"
    }

    predicate IsAdvancedCannon() {
      ToLowerCase(kind) == "cc"
    }

    predicate IsWhitePiece() {
      color == White
    }

    predicate IsBlackPiece() {
      color == Black
    }

    /** The code of this piece once it carries a cannon. */
    function GetEquipCannonType(): PieceType {
      if IsBare() then kind + (if color == Black then "c" else "C") else kind
    }

    /** The code of this piece once its cannon is taken off. */
    function GetDumpCannonType(): PieceType {
      if HasCannon() then [kind[0]] else kind
    }
  }

  /** `new Piece(pieceType, attackDir)`: the colour is read off the case of the code. */
  function NewPiece(pieceType: PieceType, attackDir: AttackDirection): (p: Piece)
    ensures p.kind == pieceType && p.dir == attackDir
    ensures p.color == GetPieceColor(pieceType)
    ensures p.ColorName() == GetPieceColorLabel(pieceType)
  {
    Piece(pieceType, GetPieceColor(pieceType), attackDir)
  }

  /** A piece built from a code of PieceList, so that its stored colour is the
      colour of its code. */
  predicate WellFormed(p: Piece) {
    IsPieceType(p.kind) && p.color == GetPieceColor(p.kind)
  }

  /** Every piece code is either bare or equipped, never both. */
  lemma BareOrEquipped(p: Piece)
    requires IsPieceType(p.kind)
    ensures p.HasCannon() != p.IsBare()
  {
    PieceTypeLetters(p.kind);
  }

  /** Equipping twice is equipping once. */
  lemma EquipIdempotent(p: Piece)
    ensures p.IsBare() ==> p.GetEquipCannonType() == p.kind + (if p.color == Black then "c" else "C")
    ensures NewPiece(p.GetEquipCannonType(), p.dir).GetEquipCannonType() == p.GetEquipCannonType()
  {
  }

  /** The shape facts of CodeShape for one member of a family laid out as
      Families lays them out. */
  lemma MemberShape(f: seq<PieceType>, t: PieceType)
    requires |f| == 4 && t in f
    requires |f[0]| == 1 && f[1] == f[0] + "c" && |f[2]| == 1 && f[3] == f[2] + "C"
    requires 'a' <= f[0][0] <= 'z' && f[2][0] as int == f[0][0] as int - 32
    ensures |t| == 1 || |t| == 2
    ensures |t| == 2 ==> ('a' <= t[0] <= 'z' && t[1] == 'c') || ('A' <= t[0] <= 'Z' && t[1] == 'C')
    ensures |t| == 1 ==> t + (if 'a' <= t[0] <= 'z' then "c" else "C") in f
    ensures |t| == 2 ==> [t[0]] in f
  {
    assert f[0] in f && f[1] in f && f[2] in f && f[3] in f;
    if t == f[0] {
      assert t + "c" == f[1];
    } else if t == f[1] {
      assert [t[0]] == f[0];
    } else if t == f[2] {
      assert t + "C" == f[3];
    } else {
      assert t == f[3];
      assert [t[0]] == f[2];
    }
  }

  /** The shape of every code of PieceList: a bare letter, or a letter followed
      by the cannon letter of its own case; equipping and dumping stay in the list. */
  lemma CodeShape(t: PieceType)
    requires IsPieceType(t)
    ensures |t| == 1 || |t| == 2
    ensures |t| == 2 ==> ('a' <= t[0] <= 'z' && t[1] == 'c') || ('A' <= t[0] <= 'Z' && t[1] == 'C')
    ensures |t| == 1 ==> IsPieceType(t + (if 'a' <= t[0] <= 'z' then "c" else "C"))
    ensures |t| == 2 ==> IsPieceType([t[0]])
  {
    PieceListIsUnion(t);
    var i :| 0 <= i < |Families| && t in Families[i];
    FamilyShape(i);
    MemberShape(Families[i], t);
    if |t| == 1 {
      PieceListIsUnion(t + (if 'a' <= t[0] <= 'z' then "c" else "C"));
    } else {
      PieceListIsUnion([t[0]]);
    }
  }

  /** Dumping undoes equipping on a bare piece, and equipping undoes dumping
      on an equipped piece of PieceList. */
  lemma EquipDumpRoundTrip(p: Piece)
    requires WellFormed(p)
    ensures p.IsBare() ==> NewPiece(p.GetEquipCannonType(), p.dir).GetDumpCannonType() == p.kind
    ensures p.HasCannon() ==> NewPiece(p.GetDumpCannonType(), p.dir).GetEquipCannonType() == p.kind
    ensures !p.HasCannon() ==> p.GetDumpCannonType() == p.kind
  {
    CodeShape(p.kind);
    if p.IsBare() {
      assert [p.GetEquipCannonType()[0]] == p.kind;
    }
    if p.HasCannon() {
      var d := [p.kind[0]];
      assert SingleCaseLetters(d);
      ColorOfLetterCode(d);
      assert p.kind == d + [p.kind[1]];
    }
  }

  /** Equip and dump stay inside PieceList and keep the colour. */
  lemma EquipDumpKeepColor(p: Piece)
    requires WellFormed(p)
    ensures WellFormed(NewPiece(p.GetEquipCannonType(), p.dir))
    ensures WellFormed(NewPiece(p.GetDumpCannonType(), p.dir))
    ensures NewPiece(p.GetEquipCannonType(), p.dir).color == p.color
    ensures NewPiece(p.GetDumpCannonType(), p.dir).color == p.color
    ensures NewPiece(p.GetEquipCannonType(), p.dir).HasCannon()
    ensures NewPiece(p.GetDumpCannonType(), p.dir).IsBare()
  {
    CodeShape(p.kind);
    PieceTypeLetters(p.kind);
    ColorOfLetterCode(p.kind);
    var e := p.GetEquipCannonType();
    var d := p.GetDumpCannonType();
    if p.IsBare() {
      assert e == p.kind + (if 'a' <= p.kind[0] <= 'z' then "c" else "C");
    }
    assert SingleCaseLetters(e);
    ColorOfLetterCode(e);
    assert SingleCaseLetters(d);
    ColorOfLetterCode(d);
  }

  /** Which codes count as a bare cannon and as an advanced cannon. */
  lemma CannonCodes(p: Piece)
    ensures p.IsBareCannon() <==> p.kind == "c" || p.kind == "C"
    ensures p.IsAdvancedCannon() <==> p.kind in ["cc", "cC", "Cc", "CC"]
    ensures IsPieceType(p.kind) ==> (p.IsAdvancedCannon() <==> p.kind == "cc" || p.kind == "CC")
  {
    var lo := ToLowerCase(p.kind);
    if p.IsBareCannon() {
      assert |p.kind| == 1 && lo[0] == LowerChar(p.kind[0]) == 'c';
      assert p.kind == [p.kind[0]];
    }
    if p.IsAdvancedCannon() {
      assert |p.kind| == 2 && lo[0] == LowerChar(p.kind[0]) == 'c' && lo[1] == LowerChar(p.kind[1]) == 'c';
      assert p.kind == [p.kind[0], p.kind[1]];
    }
    if p.kind in ["cc", "cC", "Cc", "CC"] {
      assert lo == [LowerChar(p.kind[0]), LowerChar(p.kind[1])] == "cc";
    }
    if p.kind == "c" || p.kind == "C" {
      assert lo == [LowerChar(p.kind[0])] == "c";
    }
  }

  /** Equipping a bare cannon gives an advanced cannon of the same colour. */
  lemma EquipBareCannon(p: Piece)
    requires WellFormed(p) && p.IsBareCannon()
    ensures NewPiece(p.GetEquipCannonType(), p.dir).IsAdvancedCannon()
    ensures NewPiece(p.GetEquipCannonType(), p.dir).color == p.color
  {
    CannonCodes(p);
    EquipDumpKeepColor(p);
    CannonCodes(NewPiece(p.GetEquipCannonType(), p.dir));
    if p.kind == "c" {
      assert ToLowerCase(p.kind) == p.kind;
    } else {
      assert ToLowerCase(p.kind)[0] != p.kind[0];
    }
  }
}
