/**
 * The executable contract of the four decoders: every byte vector of the
 * test functions, with the value and length it must decode to, or the
 * failure it must produce, proved of the decoding rule by evaluation.
 * Through the ensures of Leb128Decoder.DecodeI32Leb and its siblings the
 * same outcomes hold for the C-shaped entry points.
 */
module Leb128Vectors {
  import opened Leb128
  import opened Leb128Properties

  /**
   * OK_poly: the decode succeeds with value v. The length is the one each
   * vector documents (OK_poly itself only rejects a negative length).
   */
  predicate Accepts(w: Width, signed: bool, bytes: seq<Byte>, len: nat, v: int) {
    Decode(w, signed, bytes) == Ok(v, len)
  }

  /** ERR_poly: the decode fails; e names the rule the vector breaks. */
  predicate Rejects(w: Width, signed: bool, bytes: seq<Byte>, e: Error) {
    Decode(w, signed, bytes) == Err(e)
  }

  /** The powers of 128 that the ten-group encodings reach, as literals. */
  lemma PowersOf128()
    ensures Pow128(4) == 0x1000_0000
    ensures Pow128(5) == 0x8_0000_0000
    ensures Pow128(9) == 0x8000_0000_0000_0000
    ensures Pow128(10) == 0x40_0000_0000_0000_0000
  {
  }

  // test_i32 (test.c:62-110)

  lemma I32Line63()
    ensures Accepts(W32, true, [0x00], 1, 0)
  {
    SingleByte(W32, true, 0x00, []);
  }

  lemma I32Line64()
    ensures Accepts(W32, true, [0x01], 1, 1)
  {
    SingleByte(W32, true, 0x01, []);
  }

  lemma I32Line65()
    ensures Accepts(W32, true, [0x0D], 1, 13)
  {
    SingleByte(W32, true, 0x0D, []);
  }

  lemma I32Line66()
    ensures Accepts(W32, true, [0x70], 1, -16)
  {
    SingleByte(W32, true, 0x70, []);
  }

  lemma I32Line67()
    ensures Accepts(W32, true, [0x0F, 0x00], 1, 15)
  {
    SingleByte(W32, true, 0x0F, [0x00]);
  }

  lemma I32Line68()
    ensures Accepts(W32, true, [0x1F, 0x06], 1, 31)
  {
    SingleByte(W32, true, 0x1F, [0x06]);
  }

  lemma I32Line70()
    ensures Accepts(W32, true, [0x74], 1, -12)
  {
    SingleByte(W32, true, 0x74, []);
  }

  lemma I32Line71()
    ensures Accepts(W32, true, [0xF3, 0x7F], 2, -13)
  {
    var s: seq<Byte> := [0xF3, 0x7F];
    ContinuedAt(s, 1);
    ShortInRange(W32, true, s, 2);
    assert Raw(s, 2) == 16371;
  }

  lemma I32Line72()
    ensures Accepts(W32, true, [0xF1, 0xFF, 0x7F], 3, -15)
  {
    var s: seq<Byte> := [0xF1, 0xFF, 0x7F];
    ContinuedAt(s, 2);
    ShortInRange(W32, true, s, 3);
    assert Raw(s, 3) == 2097137;
  }

  lemma I32Line74()
    ensures Accepts(W32, true, [0xA7, 0x7F], 2, -89)
  {
    var s: seq<Byte> := [0xA7, 0x7F];
    ContinuedAt(s, 1);
    ShortInRange(W32, true, s, 2);
    assert Raw(s, 2) == 16295;
  }

  lemma I32Line75()
    ensures Accepts(W32, true, [0xA7, 0xFF, 0x7F], 3, -89)
  {
    var s: seq<Byte> := [0xA7, 0xFF, 0x7F];
    ContinuedAt(s, 2);
    ShortInRange(W32, true, s, 3);
    assert Raw(s, 3) == 2097063;
  }

  lemma I32Line76()
    ensures Accepts(W32, true, [0xA7, 0xFF, 0xFF, 0x7F], 4, -89)
  {
    var s: seq<Byte> := [0xA7, 0xFF, 0xFF, 0x7F];
    ContinuedAt(s, 3);
    ShortInRange(W32, true, s, 4);
    assert Raw(s, 4) == 268435367;
  }

  lemma I32Line77()
    ensures Accepts(W32, true, [0xA7, 0xFF, 0xFF, 0x7F], 4, -89)
  {
    var s: seq<Byte> := [0xA7, 0xFF, 0xFF, 0x7F];
    ContinuedAt(s, 3);
    ShortInRange(W32, true, s, 4);
    assert Raw(s, 4) == 268435367;
  }

  lemma I32Line79()
    ensures Accepts(W32, true, [0x80, 0x01], 2, 128)
  {
    var s: seq<Byte> := [0x80, 0x01];
    ContinuedAt(s, 1);
    ShortInRange(W32, true, s, 2);
    assert Raw(s, 2) == 128;
  }

  lemma I32Line80()
    ensures Accepts(W32, true, [0x83, 0x80, 0x03], 3, 49155)
  {
    var s: seq<Byte> := [0x83, 0x80, 0x03];
    ContinuedAt(s, 2);
    ShortInRange(W32, true, s, 3);
    assert Raw(s, 3) == 49155;
  }

  lemma I32Line81()
    ensures Accepts(W32, true, [0x83, 0x80, 0x83, 0x00], 4, 49155)
  {
    var s: seq<Byte> := [0x83, 0x80, 0x83, 0x00];
    ContinuedAt(s, 3);
    ShortInRange(W32, true, s, 4);
    assert Raw(s, 4) == 49155;
  }

  lemma I32Line82()
    ensures Accepts(W32, true, [0x83, 0x80, 0x83, 0x80, 0x00], 5, 49155)
  {
    var s: seq<Byte> := [0x83, 0x80, 0x83, 0x80, 0x00];
    LastGroup(W32, true, s);
    PowersOf128();
    assert Raw(s, 4) == 49155;
  }

  lemma I32Line84()
    ensures Rejects(W32, true, [0x80], Truncated)
  {
    var s: seq<Byte> := [0x80];
    ContinuedAtLeast(s, 1);
  }

  lemma I32Line85()
    ensures Rejects(W32, true, [0x8E, 0x8E], Truncated)
  {
    var s: seq<Byte> := [0x8E, 0x8E];
    ContinuedAtLeast(s, 2);
  }

  lemma I32Line86()
    ensures Rejects(W32, true, [0x9E, 0x9F, 0x99], Truncated)
  {
    var s: seq<Byte> := [0x9E, 0x9F, 0x99];
    ContinuedAtLeast(s, 3);
  }

  lemma I32Line87()
    ensures Rejects(W32, true, [0xFF, 0xFF, 0xFF, 0xFF], Truncated)
  {
    var s: seq<Byte> := [0xFF, 0xFF, 0xFF, 0xFF];
    ContinuedAtLeast(s, 4);
  }

  lemma I32Line89()
    ensures Accepts(W32, true, [0x21], 1, 33)
  {
    SingleByte(W32, true, 0x21, []);
  }

  lemma I32Line90()
    ensures Accepts(W32, true, [0xE7, 0x01], 2, 231)
  {
    var s: seq<Byte> := [0xE7, 0x01];
    ContinuedAt(s, 1);
    ShortInRange(W32, true, s, 2);
    assert Raw(s, 2) == 231;
  }

  lemma I32Line91()
    ensures Accepts(W32, true, [0xD1, 0x0C], 2, 1617)
  {
    var s: seq<Byte> := [0xD1, 0x0C];
    ContinuedAt(s, 1);
    ShortInRange(W32, true, s, 2);
    assert Raw(s, 2) == 1617;
  }

  lemma I32Line92()
    ensures Accepts(W32, true, [0xB7, 0xD8, 0x00], 3, 11319)
  {
    var s: seq<Byte> := [0xB7, 0xD8, 0x00];
    ContinuedAt(s, 2);
    ShortInRange(W32, true, s, 3);
    assert Raw(s, 3) == 11319;
  }

  lemma I32Line93()
    ensures Accepts(W32, true, [0x81, 0xEB, 0x04], 3, 79233)
  {
    var s: seq<Byte> := [0x81, 0xEB, 0x04];
    ContinuedAt(s, 2);
    ShortInRange(W32, true, s, 3);
    assert Raw(s, 3) == 79233;
  }

  lemma I32Line94()
    ensures Accepts(W32, true, [0x87, 0xED, 0x21], 3, 554631)
  {
    var s: seq<Byte> := [0x87, 0xED, 0x21];
    ContinuedAt(s, 2);
    ShortInRange(W32, true, s, 3);
    assert Raw(s, 3) == 554631;
  }

  lemma I32Line95()
    ensures Accepts(W32, true, [0xB1, 0xFB, 0xEC, 0x01], 4, 3882417)
  {
    var s: seq<Byte> := [0xB1, 0xFB, 0xEC, 0x01];
    ContinuedAt(s, 3);
    ShortInRange(W32, true, s, 4);
    assert Raw(s, 4) == 3882417;
  }

  lemma I32Line96()
    ensures Accepts(W32, true, [0xD7, 0xDF, 0xFA, 0x0C], 4, 27176919)
  {
    var s: seq<Byte> := [0xD7, 0xDF, 0xFA, 0x0C];
    ContinuedAt(s, 3);
    ShortInRange(W32, true, s, 4);
    assert Raw(s, 4) == 27176919;
  }

  lemma I32Line97()
    ensures Accepts(W32, true, [0xE1, 0x9D, 0xDB, 0xDA, 0x00], 5, 190238433)
  {
    var s: seq<Byte> := [0xE1, 0x9D, 0xDB, 0xDA, 0x00];
    LastGroup(W32, true, s);
    PowersOf128();
    assert Raw(s, 4) == 190238433;
  }

  lemma I32Line99()
    ensures Accepts(W32, true, [0x61], 1, -31)
  {
    SingleByte(W32, true, 0x61, []);
  }

  lemma I32Line100()
    ensures Accepts(W32, true, [0xA7, 0x7E], 2, -217)
  {
    var s: seq<Byte> := [0xA7, 0x7E];
    ContinuedAt(s, 1);
    ShortInRange(W32, true, s, 2);
    assert Raw(s, 2) == 16167;
  }

  lemma I32Line101()
    ensures Accepts(W32, true, [0x91, 0x74], 2, -1519)
  {
    var s: seq<Byte> := [0x91, 0x74];
    ContinuedAt(s, 1);
    ShortInRange(W32, true, s, 2);
    assert Raw(s, 2) == 14865;
  }

  lemma I32Line102()
    ensures Accepts(W32, true, [0xF7, 0xAC, 0x7F], 3, -10633)
  {
    var s: seq<Byte> := [0xF7, 0xAC, 0x7F];
    ContinuedAt(s, 2);
    ShortInRange(W32, true, s, 3);
    assert Raw(s, 3) == 2086519;
  }

  lemma I32Line103()
    ensures Accepts(W32, true, [0xC1, 0xBA, 0x7B], 3, -74431)
  {
    var s: seq<Byte> := [0xC1, 0xBA, 0x7B];
    ContinuedAt(s, 2);
    ShortInRange(W32, true, s, 3);
    assert Raw(s, 3) == 2022721;
  }

  lemma I32Line104()
    ensures Accepts(W32, true, [0xC7, 0x99, 0x60], 3, -521017)
  {
    var s: seq<Byte> := [0xC7, 0x99, 0x60];
    ContinuedAt(s, 2);
    ShortInRange(W32, true, s, 3);
    assert Raw(s, 3) == 1576135;
  }

  lemma I32Line105()
    ensures Accepts(W32, true, [0xF1, 0xB2, 0xA1, 0x7E], 4, -3647119)
  {
    var s: seq<Byte> := [0xF1, 0xB2, 0xA1, 0x7E];
    ContinuedAt(s, 3);
    ShortInRange(W32, true, s, 4);
    assert Raw(s, 4) == 264788337;
  }

  lemma I32Line106()
    ensures Accepts(W32, true, [0x97, 0xE4, 0xE9, 0x73], 4, -25529833)
  {
    var s: seq<Byte> := [0x97, 0xE4, 0xE9, 0x73];
    ContinuedAt(s, 3);
    ShortInRange(W32, true, s, 4);
    assert Raw(s, 4) == 242905623;
  }

  lemma I32Line107()
    ensures Accepts(W32, true, [0xA1, 0xBD, 0xE4, 0xAA, 0x7F], 5, -178708831)
  {
    var s: seq<Byte> := [0xA1, 0xBD, 0xE4, 0xAA, 0x7F];
    LastGroup(W32, true, s);
    PowersOf128();
    assert Raw(s, 4) == 89726625;
  }

  // test_i32ext (test.c:112-130)

  lemma I32ExtLine114()
    ensures Accepts(W32, true, [0x80, 0x80, 0x80, 0x80, 0x7F], 5, -268435456)
  {
    var s: seq<Byte> := [0x80, 0x80, 0x80, 0x80, 0x7F];
    LastGroup(W32, true, s);
    PowersOf128();
    assert Raw(s, 4) == 0;
  }

  lemma I32ExtLine116()
    ensures Rejects(W32, true, [0x81, 0x84, 0x87, 0x8A, 0x08], Overflow)
  {
    var s: seq<Byte> := [0x81, 0x84, 0x87, 0x8A, 0x08];
    LastGroup(W32, true, s);
  }

  lemma I32ExtLine117()
    ensures Rejects(W32, true, [0x82, 0x85, 0x88, 0x8B, 0x09], Overflow)
  {
    var s: seq<Byte> := [0x82, 0x85, 0x88, 0x8B, 0x09];
    LastGroup(W32, true, s);
  }

  lemma I32ExtLine118()
    ensures Rejects(W32, true, [0x83, 0x86, 0x89, 0x8C, 0x10], Overflow)
  {
    var s: seq<Byte> := [0x83, 0x86, 0x89, 0x8C, 0x10];
    LastGroup(W32, true, s);
  }

  lemma I32ExtLine119()
    ensures Rejects(W32, true, [0x8A, 0x8D, 0x89, 0x86, 0x20], Overflow)
  {
    var s: seq<Byte> := [0x8A, 0x8D, 0x89, 0x86, 0x20];
    LastGroup(W32, true, s);
  }

  lemma I32ExtLine120()
    ensures Rejects(W32, true, [0x8B, 0x8E, 0x88, 0x85, 0x40], Overflow)
  {
    var s: seq<Byte> := [0x8B, 0x8E, 0x88, 0x85, 0x40];
    LastGroup(W32, true, s);
  }

  lemma I32ExtLine121()
    ensures Rejects(W32, true, [0x8B, 0x8E, 0x88, 0x85, 0x70], Overflow)
  {
    var s: seq<Byte> := [0x8B, 0x8E, 0x88, 0x85, 0x70];
    LastGroup(W32, true, s);
  }

  lemma I32ExtLine122()
    ensures Rejects(W32, true, [0x8B, 0x8E, 0x88, 0x85, 0x71], Overflow)
  {
    var s: seq<Byte> := [0x8B, 0x8E, 0x88, 0x85, 0x71];
    LastGroup(W32, true, s);
  }

  lemma I32ExtLine123()
    ensures Rejects(W32, true, [0x8C, 0x8F, 0x87, 0x84, 0x6E], Overflow)
  {
    var s: seq<Byte> := [0x8C, 0x8F, 0x87, 0x84, 0x6E];
    LastGroup(W32, true, s);
  }

  lemma I32ExtLine125()
    ensures Rejects(W32, true, [0x83, 0x80, 0x83, 0x80, 0x80, 0x00], TooLong)
  {
    var s: seq<Byte> := [0x83, 0x80, 0x83, 0x80, 0x80, 0x00];
    ContinuedAtLeast(s, 5);
  }

  lemma I32ExtLine126()
    ensures Rejects(W32, true, [0xA7, 0xFF, 0xFF, 0xFF, 0xFF, 0x7F], TooLong)
  {
    var s: seq<Byte> := [0xA7, 0xFF, 0xFF, 0xFF, 0xFF, 0x7F];
    ContinuedAtLeast(s, 5);
  }

  lemma I32ExtLine127()
    ensures Rejects(W32, true, [0x83, 0x80, 0x83, 0x80, 0x80, 0x01], TooLong)
  {
    var s: seq<Byte> := [0x83, 0x80, 0x83, 0x80, 0x80, 0x01];
    ContinuedAtLeast(s, 5);
  }

  lemma I32ExtLine128()
    ensures Rejects(W32, true, [0xA7, 0xFF, 0xFF, 0xFF, 0xFF, 0x7E], TooLong)
  {
    var s: seq<Byte> := [0xA7, 0xFF, 0xFF, 0xFF, 0xFF, 0x7E];
    ContinuedAtLeast(s, 5);
  }

  // test_u32 (test.c:132-159)

  lemma U32Line133()
    ensures Accepts(W32, false, [0x70], 1, 112)
  {
    SingleByte(W32, false, 0x70, []);
  }

  lemma U32Line134()
    ensures Accepts(W32, false, [0xA7, 0x7F], 2, 16295)
  {
    var s: seq<Byte> := [0xA7, 0x7F];
    ContinuedAt(s, 1);
    ShortInRange(W32, false, s, 2);
    assert Raw(s, 2) == 16295;
  }

  lemma U32Line135()
    ensures Accepts(W32, false, [0xA7, 0xFE, 0x7F], 3, 2096935)
  {
    var s: seq<Byte> := [0xA7, 0xFE, 0x7F];
    ContinuedAt(s, 2);
    ShortInRange(W32, false, s, 3);
    assert Raw(s, 3) == 2096935;
  }

  lemma U32Line136()
    ensures Accepts(W32, false, [0xA7, 0xFE, 0xFD, 0x7F], 4, 268402471)
  {
    var s: seq<Byte> := [0xA7, 0xFE, 0xFD, 0x7F];
    ContinuedAt(s, 3);
    ShortInRange(W32, false, s, 4);
    assert Raw(s, 4) == 268402471;
  }

  lemma U32Line137()
    ensures Accepts(W32, false, [0xA7, 0xF0, 0xF1, 0xF2, 0x0E], 5, 3999037479)
  {
    var s: seq<Byte> := [0xA7, 0xF0, 0xF1, 0xF2, 0x0E];
    LastGroup(W32, false, s);
    PowersOf128();
    assert Raw(s, 4) == 240941095;
  }

  lemma U32Line139()
    ensures Accepts(W32, false, [0x1D], 1, 29)
  {
    SingleByte(W32, false, 0x1D, []);
  }

  lemma U32Line140()
    ensures Accepts(W32, false, [0xCB, 0x01], 2, 203)
  {
    var s: seq<Byte> := [0xCB, 0x01];
    ContinuedAt(s, 1);
    ShortInRange(W32, false, s, 2);
    assert Raw(s, 2) == 203;
  }

  lemma U32Line141()
    ensures Accepts(W32, false, [0x8D, 0x0B], 2, 1421)
  {
    var s: seq<Byte> := [0x8D, 0x0B];
    ContinuedAt(s, 1);
    ShortInRange(W32, false, s, 2);
    assert Raw(s, 2) == 1421;
  }

  lemma U32Line142()
    ensures Accepts(W32, false, [0xDB, 0x4D], 2, 9947)
  {
    var s: seq<Byte> := [0xDB, 0x4D];
    ContinuedAt(s, 1);
    ShortInRange(W32, false, s, 2);
    assert Raw(s, 2) == 9947;
  }

  lemma U32Line143()
    ensures Accepts(W32, false, [0xFD, 0x9F, 0x04], 3, 69629)
  {
    var s: seq<Byte> := [0xFD, 0x9F, 0x04];
    ContinuedAt(s, 2);
    ShortInRange(W32, false, s, 3);
    assert Raw(s, 3) == 69629;
  }

  lemma U32Line144()
    ensures Accepts(W32, false, [0xEB, 0xDF, 0x1D], 3, 487403)
  {
    var s: seq<Byte> := [0xEB, 0xDF, 0x1D];
    ContinuedAt(s, 2);
    ShortInRange(W32, false, s, 3);
    assert Raw(s, 3) == 487403;
  }

  lemma U32Line145()
    ensures Accepts(W32, false, [0xED, 0x9E, 0xD0, 0x01], 4, 3411821)
  {
    var s: seq<Byte> := [0xED, 0x9E, 0xD0, 0x01];
    ContinuedAt(s, 3);
    ShortInRange(W32, false, s, 4);
    assert Raw(s, 4) == 3411821;
  }

  lemma U32Line146()
    ensures Accepts(W32, false, [0xFB, 0xD7, 0xB1, 0x0B], 4, 23882747)
  {
    var s: seq<Byte> := [0xFB, 0xD7, 0xB1, 0x0B];
    ContinuedAt(s, 3);
    ShortInRange(W32, false, s, 4);
    assert Raw(s, 4) == 23882747;
  }

  lemma U32Line147()
    ensures Accepts(W32, false, [0xDD, 0xE7, 0xDB, 0x4F], 4, 167179229)
  {
    var s: seq<Byte> := [0xDD, 0xE7, 0xDB, 0x4F];
    ContinuedAt(s, 3);
    ShortInRange(W32, false, s, 4);
    assert Raw(s, 4) == 167179229;
  }

  lemma U32Line148()
    ensures Accepts(W32, false, [0x8B, 0xD6, 0x82, 0xAE, 0x04], 5, 1170254603)
  {
    var s: seq<Byte> := [0x8B, 0xD6, 0x82, 0xAE, 0x04];
    LastGroup(W32, false, s);
    PowersOf128();
    assert Raw(s, 4) == 96512779;
  }

  lemma U32Line149()
    ensures Accepts(W32, false, [0xCD, 0xDA, 0x92, 0xC2, 0x0E], 5, 3896814925)
  {
    var s: seq<Byte> := [0xCD, 0xDA, 0x92, 0xC2, 0x0E];
    LastGroup(W32, false, s);
    PowersOf128();
    assert Raw(s, 4) == 138718541;
  }

  lemma U32Line150()
    ensures Accepts(W32, false, [0x9B, 0xFA, 0x82, 0xCF, 0x05], 5, 1507900699)
  {
    var s: seq<Byte> := [0x9B, 0xFA, 0x82, 0xCF, 0x05];
    LastGroup(W32, false, s);
    PowersOf128();
    assert Raw(s, 4) == 165723419;
  }

  lemma U32Line151()
    ensures Accepts(W32, false, [0xBD, 0xD7, 0x94, 0xA9, 0x07], 5, 1965370301)
  {
    var s: seq<Byte> := [0xBD, 0xD7, 0x94, 0xA9, 0x07];
    LastGroup(W32, false, s);
    PowersOf128();
    assert Raw(s, 4) == 86322109;
  }

  lemma U32Line152()
    ensures Accepts(W32, false, [0xAB, 0xE4, 0x90, 0xA0, 0x03], 5, 872690219)
  {
    var s: seq<Byte> := [0xAB, 0xE4, 0x90, 0xA0, 0x03];
    LastGroup(W32, false, s);
    PowersOf128();
    assert Raw(s, 4) == 67383851;
  }

  lemma U32Line153()
    ensures Accepts(W32, false, [0xAD, 0xBE, 0xF5, 0xE0, 0x06], 5, 1813864237)
  {
    var s: seq<Byte> := [0xAD, 0xBE, 0xF5, 0xE0, 0x06];
    LastGroup(W32, false, s);
    PowersOf128();
    assert Raw(s, 4) == 203251501;
  }

  lemma U32Line155()
    ensures Rejects(W32, false, [0xA7, 0xF0, 0xF1, 0xF2, 0x1E], Overflow)
  {
    var s: seq<Byte> := [0xA7, 0xF0, 0xF1, 0xF2, 0x1E];
    LastGroup(W32, false, s);
  }

  lemma U32Line156()
    ensures Rejects(W32, false, [0xA7, 0xF0, 0xF1, 0xF2, 0xFE], Truncated)
  {
    var s: seq<Byte> := [0xA7, 0xF0, 0xF1, 0xF2, 0xFE];
    ContinuedAtLeast(s, 5);
  }

  // test_u32ext (test.c:161-178)

  lemma U32ExtLine162()
    ensures Accepts(W32, false, [0x80, 0x80, 0x80, 0x80, 0x00], 5, 0)
  {
    var s: seq<Byte> := [0x80, 0x80, 0x80, 0x80, 0x00];
    LastGroup(W32, false, s);
    PowersOf128();
    assert Raw(s, 4) == 0;
  }

  lemma U32ExtLine163()
    ensures Accepts(W32, false, [0x80, 0x80, 0x80, 0x80, 0x01], 5, 0x1000_0000)
  {
    var s: seq<Byte> := [0x80, 0x80, 0x80, 0x80, 0x01];
    LastGroup(W32, false, s);
    PowersOf128();
    assert Raw(s, 4) == 0;
  }

  lemma U32ExtLine164()
    ensures Accepts(W32, false, [0x80, 0x80, 0x80, 0x80, 0x07], 5, 0x7000_0000)
  {
    var s: seq<Byte> := [0x80, 0x80, 0x80, 0x80, 0x07];
    LastGroup(W32, false, s);
    PowersOf128();
    assert Raw(s, 4) == 0;
  }

  lemma U32ExtLine165()
    ensures Accepts(W32, false, [0x80, 0x80, 0x80, 0x80, 0x0D], 5, 0xD000_0000)
  {
    var s: seq<Byte> := [0x80, 0x80, 0x80, 0x80, 0x0D];
    LastGroup(W32, false, s);
    PowersOf128();
    assert Raw(s, 4) == 0;
  }

  lemma U32ExtLine166()
    ensures Accepts(W32, false, [0x80, 0x80, 0x80, 0x80, 0x0F], 5, 0xF000_0000)
  {
    var s: seq<Byte> := [0x80, 0x80, 0x80, 0x80, 0x0F];
    LastGroup(W32, false, s);
    PowersOf128();
    assert Raw(s, 4) == 0;
  }

  lemma U32ExtLine168()
    ensures Rejects(W32, false, [0x83, 0x86, 0x89, 0x8C, 0x10], Overflow)
  {
    var s: seq<Byte> := [0x83, 0x86, 0x89, 0x8C, 0x10];
    LastGroup(W32, false, s);
  }

  lemma U32ExtLine169()
    ensures Rejects(W32, false, [0x8A, 0x8D, 0x89, 0x86, 0x20], Overflow)
  {
    var s: seq<Byte> := [0x8A, 0x8D, 0x89, 0x86, 0x20];
    LastGroup(W32, false, s);
  }

  lemma U32ExtLine170()
    ensures Rejects(W32, false, [0x8B, 0x8E, 0x88, 0x85, 0x40], Overflow)
  {
    var s: seq<Byte> := [0x8B, 0x8E, 0x88, 0x85, 0x40];
    LastGroup(W32, false, s);
  }

  lemma U32ExtLine171()
    ensures Rejects(W32, false, [0x8B, 0x8E, 0x88, 0x85, 0x70], Overflow)
  {
    var s: seq<Byte> := [0x8B, 0x8E, 0x88, 0x85, 0x70];
    LastGroup(W32, false, s);
  }

  lemma U32ExtLine172()
    ensures Rejects(W32, false, [0x8C, 0x8F, 0x87, 0x84, 0x7E], Overflow)
  {
    var s: seq<Byte> := [0x8C, 0x8F, 0x87, 0x84, 0x7E];
    LastGroup(W32, false, s);
  }

  lemma U32ExtLine174()
    ensures Rejects(W32, false, [0xA7, 0xF0, 0xF1, 0xF2, 0x8E, 0x00], TooLong)
  {
    var s: seq<Byte> := [0xA7, 0xF0, 0xF1, 0xF2, 0x8E, 0x00];
    ContinuedAtLeast(s, 5);
  }

  lemma U32ExtLine175()
    ensures Rejects(W32, false, [0xA7, 0xF0, 0xF1, 0xF2, 0x80, 0x00], TooLong)
  {
    var s: seq<Byte> := [0xA7, 0xF0, 0xF1, 0xF2, 0x80, 0x00];
    ContinuedAtLeast(s, 5);
  }

  lemma U32ExtLine176()
    ensures Rejects(W32, false, [0xA7, 0xF0, 0xF1, 0xF2, 0x80, 0x01], TooLong)
  {
    var s: seq<Byte> := [0xA7, 0xF0, 0xF1, 0xF2, 0x80, 0x01];
    ContinuedAtLeast(s, 5);
  }

  // test_i64 (test.c:180-229)

  lemma I64Line181()
    ensures Accepts(W64, true, [0x00], 1, 0)
  {
    SingleByte(W64, true, 0x00, []);
  }

  lemma I64Line182()
    ensures Accepts(W64, true, [0x01], 1, 1)
  {
    SingleByte(W64, true, 0x01, []);
  }

  lemma I64Line183()
    ensures Accepts(W64, true, [0x0D], 1, 13)
  {
    SingleByte(W64, true, 0x0D, []);
  }

  lemma I64Line184()
    ensures Accepts(W64, true, [0x70], 1, -16)
  {
    SingleByte(W64, true, 0x70, []);
  }

  lemma I64Line186()
    ensures Accepts(W64, true, [0xA7, 0x7F], 2, -89)
  {
    var s: seq<Byte> := [0xA7, 0x7F];
    ContinuedAt(s, 1);
    ShortInRange(W64, true, s, 2);
    assert Raw(s, 2) == 16295;
  }

  lemma I64Line187()
    ensures Accepts(W64, true, [0xA6, 0xFF, 0x7F], 3, -90)
  {
    var s: seq<Byte> := [0xA6, 0xFF, 0x7F];
    ContinuedAt(s, 2);
    ShortInRange(W64, true, s, 3);
    assert Raw(s, 3) == 2097062;
  }

  lemma I64Line188()
    ensures Accepts(W64, true, [0xA5, 0xFF, 0xFF, 0x7F], 4, -91)
  {
    var s: seq<Byte> := [0xA5, 0xFF, 0xFF, 0x7F];
    ContinuedAt(s, 3);
    ShortInRange(W64, true, s, 4);
    assert Raw(s, 4) == 268435365;
  }

  lemma I64Line189()
    ensures Accepts(W64, true, [0xA4, 0xFF, 0xFF, 0x7F], 4, -92)
  {
    var s: seq<Byte> := [0xA4, 0xFF, 0xFF, 0x7F];
    ContinuedAt(s, 3);
    ShortInRange(W64, true, s, 4);
    assert Raw(s, 4) == 268435364;
  }

  lemma I64Line190()
    ensures Accepts(W64, true, [0xA3, 0xFF, 0xFF, 0xFF, 0xFF, 0x7F], 6, -93)
  {
    var s: seq<Byte> := [0xA3, 0xFF, 0xFF, 0xFF, 0xFF, 0x7F];
    ContinuedAt(s, 5);
    ShortInRange(W64, true, s, 6);
    PowersOf128();
    assert Raw(s, 6) == 4398046511011;
  }

  lemma I64Line191()
    ensures Accepts(W64, true, [0xA3, 0xFF, 0xFF, 0xFF, 0xFF, 0xFF, 0x7F], 7, -93)
  {
    var s: seq<Byte> := [0xA3, 0xFF, 0xFF, 0xFF, 0xFF, 0xFF, 0x7F];
    ContinuedAt(s, 6);
    ShortInRange(W64, true, s, 7);
    PowersOf128();
    assert Raw(s, 7) == 562949953421219;
  }

  lemma I64Line192()
    ensures Accepts(W64, true, [0xA3, 0xFF, 0xFF, 0xFF, 0xFF, 0xFF, 0xFF, 0x7F], 8, -93)
  {
    var s: seq<Byte> := [0xA3, 0xFF, 0xFF, 0xFF, 0xFF, 0xFF, 0xFF, 0x7F];
    ContinuedAt(s, 7);
    ShortInRange(W64, true, s, 8);
    PowersOf128();
    assert Raw(s, 8) == 72057594037927843;
  }

  lemma I64Line193()
    ensures Accepts(W64, true, [0xA3, 0xFF, 0xFF, 0xFF, 0xFF, 0xFF, 0xFF, 0xFF, 0x7F], 9, -93)
  {
    var s: seq<Byte> := [0xA3, 0xFF, 0xFF, 0xFF, 0xFF, 0xFF, 0xFF, 0xFF, 0x7F];
    ContinuedAt(s, 8);
    ShortInRange(W64, true, s, 9);
    PowersOf128();
    assert Raw(s, 9) == 9223372036854775715;
  }

  lemma I64Line194()
    ensures Accepts(W64, true, [0xA3, 0xFF, 0xFF, 0xFF, 0xFF, 0xFF, 0xFF, 0xFF, 0xFF, 0x7F], 10, -93)
  {
    var s: seq<Byte> := [0xA3, 0xFF, 0xFF, 0xFF, 0xFF, 0xFF, 0xFF, 0xFF, 0xFF, 0x7F];
    LastGroup(W64, true, s);
    PowersOf128();
    assert Raw(s, 9) == 9223372036854775715;
  }

  lemma I64Line196()
    ensures Accepts(W64, true, [0xF4, 0xD2, 0xA6, 0x87, 0x01], 5, 283748724)
  {
    var s: seq<Byte> := [0xF4, 0xD2, 0xA6, 0x87, 0x01];
    ContinuedAt(s, 4);
    ShortInRange(W64, true, s, 5);
    PowersOf128();
    assert Raw(s, 5) == 283748724;
  }

  lemma I64Line198()
    ensures Accepts(W64, true, [0x81, 0x81, 0x81, 0x81, 0x01], 5, 270549121)
  {
    var s: seq<Byte> := [0x81, 0x81, 0x81, 0x81, 0x01];
    ContinuedAt(s, 4);
    ShortInRange(W64, true, s, 5);
    PowersOf128();
    assert Raw(s, 5) == 270549121;
  }

  lemma I64Line199()
    ensures Accepts(W64, true, [0x81, 0x82, 0x83, 0x84, 0x05], 5, 1350615297)
  {
    var s: seq<Byte> := [0x81, 0x82, 0x83, 0x84, 0x05];
    ContinuedAt(s, 4);
    ShortInRange(W64, true, s, 5);
    PowersOf128();
    assert Raw(s, 5) == 1350615297;
  }

  lemma I64Line200()
    ensures Accepts(W64, true, [0x81, 0x82, 0x83, 0x84, 0x85, 0x06], 6, 207509045505)
  {
    var s: seq<Byte> := [0x81, 0x82, 0x83, 0x84, 0x85, 0x06];
    ContinuedAt(s, 5);
    ShortInRange(W64, true, s, 6);
    PowersOf128();
    assert Raw(s, 6) == 207509045505;
  }

  lemma I64Line201()
    ensures Accepts(W64, true, [0x81, 0x82, 0x83, 0x84, 0x85, 0x86, 0x07], 7, 30993834623233)
  {
    var s: seq<Byte> := [0x81, 0x82, 0x83, 0x84, 0x85, 0x86, 0x07];
    ContinuedAt(s, 6);
    ShortInRange(W64, true, s, 7);
    PowersOf128();
    assert Raw(s, 7) == 30993834623233;
  }

  lemma I64Line202()
    ensures Accepts(W64, true, [0x81, 0x82, 0x83, 0x84, 0x85, 0x86, 0x87, 0x08], 8, 4534593461993729)
  {
    var s: seq<Byte> := [0x81, 0x82, 0x83, 0x84, 0x85, 0x86, 0x87, 0x08];
    ContinuedAt(s, 7);
    ShortInRange(W64, true, s, 8);
    PowersOf128();
    assert Raw(s, 8) == 4534593461993729;
  }

  lemma I64Line203()
    ensures Accepts(W64, true, [0x81, 0x82, 0x83, 0x84, 0x85, 0x86, 0x87, 0x88, 0x09], 9, 653052939803345153)
  {
    var s: seq<Byte> := [0x81, 0x82, 0x83, 0x84, 0x85, 0x86, 0x87, 0x88, 0x09];
    ContinuedAt(s, 8);
    ShortInRange(W64, true, s, 9);
    PowersOf128();
    assert Raw(s, 9) == 653052939803345153;
  }

  lemma I64Line205()
    ensures Accepts(W64, true, [0x63], 1, -29)
  {
    SingleByte(W64, true, 0x63, []);
  }

  lemma I64Line206()
    ensures Accepts(W64, true, [0xB5, 0x7E], 2, -203)
  {
    var s: seq<Byte> := [0xB5, 0x7E];
    ContinuedAt(s, 1);
    ShortInRange(W64, true, s, 2);
    assert Raw(s, 2) == 16181;
  }

  lemma I64Line207()
    ensures Accepts(W64, true, [0xF3, 0x74], 2, -1421)
  {
    var s: seq<Byte> := [0xF3, 0x74];
    ContinuedAt(s, 1);
    ShortInRange(W64, true, s, 2);
    assert Raw(s, 2) == 14963;
  }

  lemma I64Line208()
    ensures Accepts(W64, true, [0xA5, 0xB2, 0x7F], 3, -9947)
  {
    var s: seq<Byte> := [0xA5, 0xB2, 0x7F];
    ContinuedAt(s, 2);
    ShortInRange(W64, true, s, 3);
    assert Raw(s, 3) == 2087205;
  }

  lemma I64Line209()
    ensures Accepts(W64, true, [0x83, 0xE0, 0x7B], 3, -69629)
  {
    var s: seq<Byte> := [0x83, 0xE0, 0x7B];
    ContinuedAt(s, 2);
    ShortInRange(W64, true, s, 3);
    assert Raw(s, 3) == 2027523;
  }

  lemma I64Line210()
    ensures Accepts(W64, true, [0x95, 0xA0, 0x62], 3, -487403)
  {
    var s: seq<Byte> := [0x95, 0xA0, 0x62];
    ContinuedAt(s, 2);
    ShortInRange(W64, true, s, 3);
    assert Raw(s, 3) == 1609749;
  }

  lemma I64Line211()
    ensures Accepts(W64, true, [0x93, 0xE1, 0xAF, 0x7E], 4, -3411821)
  {
    var s: seq<Byte> := [0x93, 0xE1, 0xAF, 0x7E];
    ContinuedAt(s, 3);
    ShortInRange(W64, true, s, 4);
    assert Raw(s, 4) == 265023635;
  }

  lemma I64Line212()
    ensures Accepts(W64, true, [0x85, 0xA8, 0xCE, 0x74], 4, -23882747)
  {
    var s: seq<Byte> := [0x85, 0xA8, 0xCE, 0x74];
    ContinuedAt(s, 3);
    ShortInRange(W64, true, s, 4);
    assert Raw(s, 4) == 244552709;
  }

  lemma I64Line213()
    ensures Accepts(W64, true, [0xA3, 0x98, 0xA4, 0xB0, 0x7F], 5, -167179229)
  {
    var s: seq<Byte> := [0xA3, 0x98, 0xA4, 0xB0, 0x7F];
    ContinuedAt(s, 4);
    ShortInRange(W64, true, s, 5);
    PowersOf128();
    assert Raw(s, 5) == 34192559139;
  }

  lemma I64Line214()
    ensures Accepts(W64, true, [0xF5, 0xA9, 0xFD, 0xD1, 0x7B], 5, -1170254603)
  {
    var s: seq<Byte> := [0xF5, 0xA9, 0xFD, 0xD1, 0x7B];
    ContinuedAt(s, 4);
    ShortInRange(W64, true, s, 5);
    PowersOf128();
    assert Raw(s, 5) == 33189483765;
  }

  lemma I64Line215()
    ensures Accepts(W64, true, [0xB3, 0xA5, 0xED, 0xBD, 0x61], 5, -8191782221)
  {
    var s: seq<Byte> := [0xB3, 0xA5, 0xED, 0xBD, 0x61];
    ContinuedAt(s, 4);
    ShortInRange(W64, true, s, 5);
    PowersOf128();
    assert Raw(s, 5) == 26167956147;
  }

  lemma I64Line216()
    ensures Accepts(W64, true, [0xE5, 0x85, 0xFD, 0xB0, 0xAA, 0x7E], 6, -57342475547)
  {
    var s: seq<Byte> := [0xE5, 0x85, 0xFD, 0xB0, 0xAA, 0x7E];
    ContinuedAt(s, 5);
    ShortInRange(W64, true, s, 6);
    PowersOf128();
    assert Raw(s, 6) == 4340704035557;
  }

  lemma I64Line217()
    ensures Accepts(W64, true, [0xC3, 0xA8, 0xEB, 0xD6, 0xA8, 0x74], 6, -401397328829)
  {
    var s: seq<Byte> := [0xC3, 0xA8, 0xEB, 0xD6, 0xA8, 0x74];
    ContinuedAt(s, 5);
    ShortInRange(W64, true, s, 6);
    PowersOf128();
    assert Raw(s, 6) == 3996649182275;
  }

  lemma I64Line218()
    ensures Accepts(W64, true, [0xD5, 0x9B, 0xEF, 0xDF, 0x9C, 0xAE, 0x7F], 7, -2809781301803)
  {
    var s: seq<Byte> := [0xD5, 0x9B, 0xEF, 0xDF, 0x9C, 0xAE, 0x7F];
    ContinuedAt(s, 6);
    ShortInRange(W64, true, s, 7);
    PowersOf128();
    assert Raw(s, 7) == 560140172119509;
  }

  lemma I64Line219()
    ensures Accepts(W64, true, [0xD3, 0xC1, 0x8A, 0x9F, 0xC9, 0xC3, 0x7B], 7, -19668469112621)
  {
    var s: seq<Byte> := [0xD3, 0xC1, 0x8A, 0x9F, 0xC9, 0xC3, 0x7B];
    ContinuedAt(s, 6);
    ShortInRange(W64, true, s, 7);
    PowersOf128();
    assert Raw(s, 7) == 543281484308691;
  }

  lemma I64Line220()
    ensures Accepts(W64, true, [0xC5, 0xCB, 0xC9, 0xD9, 0x80, 0xD9, 0x60], 7, -137679283788347)
  {
    var s: seq<Byte> := [0xC5, 0xCB, 0xC9, 0xD9, 0x80, 0xD9, 0x60];
    ContinuedAt(s, 6);
    ShortInRange(W64, true, s, 7);
    PowersOf128();
    assert Raw(s, 7) == 425270669632965;
  }

  lemma I64Line221()
    ensures Accepts(W64, true, [0xE3, 0x90, 0x83, 0xF3, 0x84, 0xEF, 0xA4, 0x7E], 8, -963754986518429)
  {
    var s: seq<Byte> := [0xE3, 0x90, 0x83, 0xF3, 0x84, 0xEF, 0xA4, 0x7E];
    ContinuedAt(s, 7);
    ShortInRange(W64, true, s, 8);
    PowersOf128();
    assert Raw(s, 8) == 71093839051409507;
  }

  lemma I64Line222()
    ensures Accepts(W64, true, [0xB5, 0xF5, 0x95, 0xA5, 0xA2, 0x89, 0x82, 0x74], 8, -6746284905629003)
  {
    var s: seq<Byte> := [0xB5, 0xF5, 0x95, 0xA5, 0xA2, 0x89, 0x82, 0x74];
    ContinuedAt(s, 7);
    ShortInRange(W64, true, s, 8);
    PowersOf128();
    assert Raw(s, 8) == 65311309132298933;
  }

  lemma I64Line225()
    ensures Rejects(W64, true, [0x81, 0x82, 0x83, 0x84, 0x85, 0x86, 0x87, 0x88, 0x89, 0x08], Overflow)
  {
    var s: seq<Byte> := [0x81, 0x82, 0x83, 0x84, 0x85, 0x86, 0x87, 0x88, 0x89, 0x08];
    LastGroup(W64, true, s);
  }

  lemma I64Line226()
    ensures Rejects(W64, true, [0xA3, 0xFF, 0xFF, 0xFF, 0xFF, 0xFF, 0xFF, 0xFF, 0xFF, 0x6F], Overflow)
  {
    var s: seq<Byte> := [0xA3, 0xFF, 0xFF, 0xFF, 0xFF, 0xFF, 0xFF, 0xFF, 0xFF, 0x6F];
    LastGroup(W64, true, s);
  }

  // test_i64ext (test.c:231-253)

  lemma I64ExtLine232()
    ensures Accepts(W64, true, [0x80, 0x80, 0x80, 0x80, 0x80, 0x80, 0x80, 0x80, 0x80, 0x7F], 10, -0x8000_0000_0000_0000)
  {
    var s: seq<Byte> := [0x80, 0x80, 0x80, 0x80, 0x80, 0x80, 0x80, 0x80, 0x80, 0x7F];
    LastGroup(W64, true, s);
    PowersOf128();
    assert Raw(s, 9) == 0;
  }

  lemma I64ExtLine233()
    ensures Accepts(W64, true, [0x80, 0x80, 0x80, 0x80, 0x80, 0x80, 0x80, 0x80, 0x80, 0x00], 10, 0)
  {
    var s: seq<Byte> := [0x80, 0x80, 0x80, 0x80, 0x80, 0x80, 0x80, 0x80, 0x80, 0x00];
    LastGroup(W64, true, s);
    PowersOf128();
    assert Raw(s, 9) == 0;
  }

  lemma I64ExtLine235()
    ensures Rejects(W64, true, [0x80, 0x80, 0x80, 0x80, 0x80, 0x80, 0x80, 0x80, 0x80, 0x01], Overflow)
  {
    var s: seq<Byte> := [0x80, 0x80, 0x80, 0x80, 0x80, 0x80, 0x80, 0x80, 0x80, 0x01];
    LastGroup(W64, true, s);
  }

  lemma I64ExtLine236()
    ensures Rejects(W64, true, [0x80, 0x80, 0x80, 0x80, 0x80, 0x80, 0x80, 0x80, 0x80, 0x02], Overflow)
  {
    var s: seq<Byte> := [0x80, 0x80, 0x80, 0x80, 0x80, 0x80, 0x80, 0x80, 0x80, 0x02];
    LastGroup(W64, true, s);
  }

  lemma I64ExtLine237()
    ensures Rejects(W64, true, [0x80, 0x80, 0x80, 0x80, 0x80, 0x80, 0x80, 0x80, 0x80, 0x04], Overflow)
  {
    var s: seq<Byte> := [0x80, 0x80, 0x80, 0x80, 0x80, 0x80, 0x80, 0x80, 0x80, 0x04];
    LastGroup(W64, true, s);
  }

  lemma I64ExtLine238()
    ensures Rejects(W64, true, [0x80, 0x80, 0x80, 0x80, 0x80, 0x80, 0x80, 0x80, 0x80, 0x08], Overflow)
  {
    var s: seq<Byte> := [0x80, 0x80, 0x80, 0x80, 0x80, 0x80, 0x80, 0x80, 0x80, 0x08];
    LastGroup(W64, true, s);
  }

  lemma I64ExtLine239()
    ensures Rejects(W64, true, [0x80, 0x80, 0x80, 0x80, 0x80, 0x80, 0x80, 0x80, 0x80, 0x10], Overflow)
  {
    var s: seq<Byte> := [0x80, 0x80, 0x80, 0x80, 0x80, 0x80, 0x80, 0x80, 0x80, 0x10];
    LastGroup(W64, true, s);
  }

  lemma I64ExtLine240()
    ensures Rejects(W64, true, [0x80, 0x80, 0x80, 0x80, 0x80, 0x80, 0x80, 0x80, 0x80, 0x20], Overflow)
  {
    var s: seq<Byte> := [0x80, 0x80, 0x80, 0x80, 0x80, 0x80, 0x80, 0x80, 0x80, 0x20];
    LastGroup(W64, true, s);
  }

  lemma I64ExtLine241()
    ensures Rejects(W64, true, [0x80, 0x80, 0x80, 0x80, 0x80, 0x80, 0x80, 0x80, 0x80, 0x40], Overflow)
  {
    var s: seq<Byte> := [0x80, 0x80, 0x80, 0x80, 0x80, 0x80, 0x80, 0x80, 0x80, 0x40];
    LastGroup(W64, true, s);
  }

  lemma I64ExtLine243()
    ensures Rejects(W64, true, [0x80, 0x80, 0x80, 0x80, 0x80, 0x80, 0x80, 0x80, 0x80, 0x80], Truncated)
  {
    var s: seq<Byte> := [0x80, 0x80, 0x80, 0x80, 0x80, 0x80, 0x80, 0x80, 0x80, 0x80];
    ContinuedAtLeast(s, 10);
  }

  lemma I64ExtLine244()
    ensures Rejects(W64, true, [0x80, 0x80, 0x80, 0x80, 0x80, 0x80, 0x80, 0x80, 0x80, 0x50], Overflow)
  {
    var s: seq<Byte> := [0x80, 0x80, 0x80, 0x80, 0x80, 0x80, 0x80, 0x80, 0x80, 0x50];
    LastGroup(W64, true, s);
  }

  lemma I64ExtLine245()
    ensures Rejects(W64, true, [0x80, 0x80, 0x80, 0x80, 0x80, 0x80, 0x80, 0x80, 0x80, 0x20], Overflow)
  {
    var s: seq<Byte> := [0x80, 0x80, 0x80, 0x80, 0x80, 0x80, 0x80, 0x80, 0x80, 0x20];
    LastGroup(W64, true, s);
  }

  lemma I64ExtLine246()
    ensures Rejects(W64, true, [0x80, 0x80, 0x80, 0x80, 0x80, 0x80, 0x80, 0x80, 0x80, 0x30], Overflow)
  {
    var s: seq<Byte> := [0x80, 0x80, 0x80, 0x80, 0x80, 0x80, 0x80, 0x80, 0x80, 0x30];
    LastGroup(W64, true, s);
  }

  lemma I64ExtLine248()
    ensures Rejects(W64, true, [0xA3, 0xFF, 0xFF, 0xFF, 0xFF, 0xFF, 0xFF, 0xFF, 0xFF, 0xFF, 0x7F], TooLong)
  {
    var s: seq<Byte> := [0xA3, 0xFF, 0xFF, 0xFF, 0xFF, 0xFF, 0xFF, 0xFF, 0xFF, 0xFF, 0x7F];
    ContinuedAtLeast(s, 10);
  }

  lemma I64ExtLine249()
    ensures Rejects(W64, true, [0x81, 0x82, 0x83, 0x84, 0x85, 0x86, 0x87, 0x88, 0x89, 0x80, 0x01], TooLong)
  {
    var s: seq<Byte> := [0x81, 0x82, 0x83, 0x84, 0x85, 0x86, 0x87, 0x88, 0x89, 0x80, 0x01];
    ContinuedAtLeast(s, 10);
  }

  lemma I64ExtLine250()
    ensures Rejects(W64, true, [0xA3, 0xFF, 0xFF, 0xFF, 0xFF, 0xFF, 0xFF, 0xFF, 0xFF, 0xFF, 0x7E], TooLong)
  {
    var s: seq<Byte> := [0xA3, 0xFF, 0xFF, 0xFF, 0xFF, 0xFF, 0xFF, 0xFF, 0xFF, 0xFF, 0x7E];
    ContinuedAtLeast(s, 10);
  }

  // test_u64 (test.c:255-286)

  lemma U64Line256()
    ensures Accepts(W64, false, [0x00], 1, 0)
  {
    SingleByte(W64, false, 0x00, []);
  }

  lemma U64Line257()
    ensures Accepts(W64, false, [0x01], 1, 1)
  {
    SingleByte(W64, false, 0x01, []);
  }

  lemma U64Line258()
    ensures Accepts(W64, false, [0x0D], 1, 13)
  {
    SingleByte(W64, false, 0x0D, []);
  }

  lemma U64Line259()
    ensures Accepts(W64, false, [0x70], 1, 112)
  {
    SingleByte(W64, false, 0x70, []);
  }

  lemma U64Line261()
    ensures Accepts(W64, false, [0x81, 0x82, 0x83, 0x84, 0x85, 0x86, 0x87, 0x88, 0x09], 9, 653052939803345153)
  {
    var s: seq<Byte> := [0x81, 0x82, 0x83, 0x84, 0x85, 0x86, 0x87, 0x88, 0x09];
    ContinuedAt(s, 8);
    ShortInRange(W64, false, s, 9);
    PowersOf128();
    assert Raw(s, 9) == 653052939803345153;
  }

  lemma U64Line262()
    ensures Accepts(W64, false, [0x81, 0x82, 0x83, 0x84, 0x85, 0x86, 0x87, 0x88, 0x89, 0x00], 10, 653052939803345153)
  {
    var s: seq<Byte> := [0x81, 0x82, 0x83, 0x84, 0x85, 0x86, 0x87, 0x88, 0x89, 0x00];
    LastGroup(W64, false, s);
    PowersOf128();
    assert Raw(s, 9) == 653052939803345153;
  }

  lemma U64Line264()
    ensures Accepts(W64, false, [0x1A], 1, 26)
  {
    SingleByte(W64, false, 0x1A, []);
  }

  lemma U64Line265()
    ensures Accepts(W64, false, [0xB6, 0x01], 2, 182)
  {
    var s: seq<Byte> := [0xB6, 0x01];
    ContinuedAt(s, 1);
    ShortInRange(W64, false, s, 2);
    assert Raw(s, 2) == 182;
  }

  lemma U64Line266()
    ensures Accepts(W64, false, [0xFA, 0x09], 2, 1274)
  {
    var s: seq<Byte> := [0xFA, 0x09];
    ContinuedAt(s, 1);
    ShortInRange(W64, false, s, 2);
    assert Raw(s, 2) == 1274;
  }

  lemma U64Line267()
    ensures Accepts(W64, false, [0xD6, 0x45], 2, 8918)
  {
    var s: seq<Byte> := [0xD6, 0x45];
    ContinuedAt(s, 1);
    ShortInRange(W64, false, s, 2);
    assert Raw(s, 2) == 8918;
  }

  lemma U64Line268()
    ensures Accepts(W64, false, [0xDA, 0xE7, 0x03], 3, 62426)
  {
    var s: seq<Byte> := [0xDA, 0xE7, 0x03];
    ContinuedAt(s, 2);
    ShortInRange(W64, false, s, 3);
    assert Raw(s, 3) == 62426;
  }

  lemma U64Line269()
    ensures Accepts(W64, false, [0xF6, 0xD5, 0x1A], 3, 436982)
  {
    var s: seq<Byte> := [0xF6, 0xD5, 0x1A];
    ContinuedAt(s, 2);
    ShortInRange(W64, false, s, 3);
    assert Raw(s, 3) == 436982;
  }

  lemma U64Line270()
    ensures Accepts(W64, false, [0xBA, 0xD9, 0xBA, 0x01], 4, 3058874)
  {
    var s: seq<Byte> := [0xBA, 0xD9, 0xBA, 0x01];
    ContinuedAt(s, 3);
    ShortInRange(W64, false, s, 4);
    assert Raw(s, 4) == 3058874;
  }

  lemma U64Line271()
    ensures Accepts(W64, false, [0x96, 0xF2, 0x9A, 0x0A], 4, 21412118)
  {
    var s: seq<Byte> := [0x96, 0xF2, 0x9A, 0x0A];
    ContinuedAt(s, 3);
    ShortInRange(W64, false, s, 4);
    assert Raw(s, 4) == 21412118;
  }

  lemma U64Line272()
    ensures Accepts(W64, false, [0x9A, 0x9F, 0xBC, 0x47], 4, 149884826)
  {
    var s: seq<Byte> := [0x9A, 0x9F, 0xBC, 0x47];
    ContinuedAt(s, 3);
    ShortInRange(W64, false, s, 4);
    assert Raw(s, 4) == 149884826;
  }

  lemma U64Line273()
    ensures Accepts(W64, false, [0xB6, 0xDA, 0xA5, 0xF4, 0x03], 5, 1049193782)
  {
    var s: seq<Byte> := [0xB6, 0xDA, 0xA5, 0xF4, 0x03];
    ContinuedAt(s, 4);
    ShortInRange(W64, false, s, 5);
    PowersOf128();
    assert Raw(s, 5) == 1049193782;
  }

  lemma U64Line274()
    ensures Accepts(W64, false, [0xFA, 0xF8, 0x87, 0xAE, 0x1B], 5, 7344356474)
  {
    var s: seq<Byte> := [0xFA, 0xF8, 0x87, 0xAE, 0x1B];
    ContinuedAt(s, 4);
    ShortInRange(W64, false, s, 5);
    PowersOf128();
    assert Raw(s, 5) == 7344356474;
  }

  lemma U64Line275()
    ensures Accepts(W64, false, [0xD6, 0xCE, 0xB7, 0xC2, 0xBF, 0x01], 6, 51410495318)
  {
    var s: seq<Byte> := [0xD6, 0xCE, 0xB7, 0xC2, 0xBF, 0x01];
    ContinuedAt(s, 5);
    ShortInRange(W64, false, s, 6);
    PowersOf128();
    assert Raw(s, 6) == 51410495318;
  }

  lemma U64Line276()
    ensures Accepts(W64, false, [0xDA, 0xA6, 0x85, 0xD1, 0xBC, 0x0A], 6, 359873467226)
  {
    var s: seq<Byte> := [0xDA, 0xA6, 0x85, 0xD1, 0xBC, 0x0A];
    ContinuedAt(s, 5);
    ShortInRange(W64, false, s, 6);
    PowersOf128();
    assert Raw(s, 6) == 359873467226;
  }

  lemma U64Line277()
    ensures Accepts(W64, false, [0xF6, 0x8E, 0xA5, 0xB7, 0xA8, 0x49], 6, 2519114270582)
  {
    var s: seq<Byte> := [0xF6, 0x8E, 0xA5, 0xB7, 0xA8, 0x49];
    ContinuedAt(s, 5);
    ShortInRange(W64, false, s, 6);
    PowersOf128();
    assert Raw(s, 6) == 2519114270582;
  }

  lemma U64Line278()
    ensures Accepts(W64, false, [0xBA, 0xE8, 0x83, 0x83, 0x9B, 0x81, 0x04], 7, 17633799894074)
  {
    var s: seq<Byte> := [0xBA, 0xE8, 0x83, 0x83, 0x9B, 0x81, 0x04];
    ContinuedAt(s, 6);
    ShortInRange(W64, false, s, 7);
    PowersOf128();
    assert Raw(s, 7) == 17633799894074;
  }

  lemma U64Line279()
    ensures Accepts(W64, false, [0x96, 0xDB, 0x9A, 0x95, 0xBD, 0x88, 0x1C], 7, 123436599258518)
  {
    var s: seq<Byte> := [0x96, 0xDB, 0x9A, 0x95, 0xBD, 0x88, 0x1C];
    ContinuedAt(s, 6);
    ShortInRange(W64, false, s, 7);
    PowersOf128();
    assert Raw(s, 7) == 123436599258518;
  }

  lemma U64Line280()
    ensures Accepts(W64, false, [0x9A, 0xFE, 0xBA, 0x94, 0xAC, 0xBB, 0xC4, 0x01], 8, 864056194809626)
  {
    var s: seq<Byte> := [0x9A, 0xFE, 0xBA, 0x94, 0xAC, 0xBB, 0xC4, 0x01];
    ContinuedAt(s, 7);
    ShortInRange(W64, false, s, 8);
    PowersOf128();
    assert Raw(s, 8) == 864056194809626;
  }

  lemma U64Line281()
    ensures Accepts(W64, false, [0xB6, 0xF3, 0x9C, 0x8F, 0xB5, 0x9F, 0xDF, 0x0A], 8, 6048393363667382)
  {
    var s: seq<Byte> := [0xB6, 0xF3, 0x9C, 0x8F, 0xB5, 0x9F, 0xDF, 0x0A];
    ContinuedAt(s, 7);
    ShortInRange(W64, false, s, 8);
    PowersOf128();
    assert Raw(s, 8) == 6048393363667382;
  }

  lemma U64Line283()
    ensures Rejects(W64, false, [0x81, 0x82, 0x83, 0x84, 0x85, 0x86, 0x87, 0x88, 0x89, 0x02], Overflow)
  {
    var s: seq<Byte> := [0x81, 0x82, 0x83, 0x84, 0x85, 0x86, 0x87, 0x88, 0x89, 0x02];
    LastGroup(W64, false, s);
  }

  lemma U64Line284()
    ensures Rejects(W64, false, [0x81, 0x82, 0x83, 0x84, 0x85, 0x86, 0x87, 0x88, 0x89, 0x80, 0x01], TooLong)
  {
    var s: seq<Byte> := [0x81, 0x82, 0x83, 0x84, 0x85, 0x86, 0x87, 0x88, 0x89, 0x80, 0x01];
    ContinuedAtLeast(s, 10);
  }

  // test_u64ext (test.c:288-307)

  lemma U64ExtLine289()
    ensures Accepts(W64, false, [0x80, 0x80, 0x80, 0x80, 0x80, 0x80, 0x80, 0x80, 0x80, 0x01], 10, 0x8000_0000_0000_0000)
  {
    var s: seq<Byte> := [0x80, 0x80, 0x80, 0x80, 0x80, 0x80, 0x80, 0x80, 0x80, 0x01];
    LastGroup(W64, false, s);
    PowersOf128();
    assert Raw(s, 9) == 0;
  }

  lemma U64ExtLine290()
    ensures Accepts(W64, false, [0x80, 0x80, 0x80, 0x80, 0x80, 0x80, 0x80, 0x80, 0x80, 0x00], 10, 0)
  {
    var s: seq<Byte> := [0x80, 0x80, 0x80, 0x80, 0x80, 0x80, 0x80, 0x80, 0x80, 0x00];
    LastGroup(W64, false, s);
    PowersOf128();
    assert Raw(s, 9) == 0;
  }

  lemma U64ExtLine292()
    ensures Rejects(W64, false, [0x80, 0x80, 0x80, 0x80, 0x80, 0x80, 0x80, 0x80, 0x80, 0x02], Overflow)
  {
    var s: seq<Byte> := [0x80, 0x80, 0x80, 0x80, 0x80, 0x80, 0x80, 0x80, 0x80, 0x02];
    LastGroup(W64, false, s);
  }

  lemma U64ExtLine293()
    ensures Rejects(W64, false, [0x80, 0x80, 0x80, 0x80, 0x80, 0x80, 0x80, 0x80, 0x80, 0x04], Overflow)
  {
    var s: seq<Byte> := [0x80, 0x80, 0x80, 0x80, 0x80, 0x80, 0x80, 0x80, 0x80, 0x04];
    LastGroup(W64, false, s);
  }

  lemma U64ExtLine294()
    ensures Rejects(W64, false, [0x80, 0x80, 0x80, 0x80, 0x80, 0x80, 0x80, 0x80, 0x80, 0x08], Overflow)
  {
    var s: seq<Byte> := [0x80, 0x80, 0x80, 0x80, 0x80, 0x80, 0x80, 0x80, 0x80, 0x08];
    LastGroup(W64, false, s);
  }

  lemma U64ExtLine295()
    ensures Rejects(W64, false, [0x80, 0x80, 0x80, 0x80, 0x80, 0x80, 0x80, 0x80, 0x80, 0x10], Overflow)
  {
    var s: seq<Byte> := [0x80, 0x80, 0x80, 0x80, 0x80, 0x80, 0x80, 0x80, 0x80, 0x10];
    LastGroup(W64, false, s);
  }

  lemma U64ExtLine296()
    ensures Rejects(W64, false, [0x80, 0x80, 0x80, 0x80, 0x80, 0x80, 0x80, 0x80, 0x80, 0x20], Overflow)
  {
    var s: seq<Byte> := [0x80, 0x80, 0x80, 0x80, 0x80, 0x80, 0x80, 0x80, 0x80, 0x20];
    LastGroup(W64, false, s);
  }

  lemma U64ExtLine297()
    ensures Rejects(W64, false, [0x80, 0x80, 0x80, 0x80, 0x80, 0x80, 0x80, 0x80, 0x80, 0x40], Overflow)
  {
    var s: seq<Byte> := [0x80, 0x80, 0x80, 0x80, 0x80, 0x80, 0x80, 0x80, 0x80, 0x40];
    LastGroup(W64, false, s);
  }

  lemma U64ExtLine299()
    ensures Rejects(W64, false, [0x80, 0x80, 0x80, 0x80, 0x80, 0x80, 0x80, 0x80, 0x80, 0x80], Truncated)
  {
    var s: seq<Byte> := [0x80, 0x80, 0x80, 0x80, 0x80, 0x80, 0x80, 0x80, 0x80, 0x80];
    ContinuedAtLeast(s, 10);
  }

  lemma U64ExtLine300()
    ensures Rejects(W64, false, [0x80, 0x80, 0x80, 0x80, 0x80, 0x80, 0x80, 0x80, 0x80, 0x50], Overflow)
  {
    var s: seq<Byte> := [0x80, 0x80, 0x80, 0x80, 0x80, 0x80, 0x80, 0x80, 0x80, 0x50];
    LastGroup(W64, false, s);
  }

  lemma U64ExtLine301()
    ensures Rejects(W64, false, [0x80, 0x80, 0x80, 0x80, 0x80, 0x80, 0x80, 0x80, 0x80, 0x20], Overflow)
  {
    var s: seq<Byte> := [0x80, 0x80, 0x80, 0x80, 0x80, 0x80, 0x80, 0x80, 0x80, 0x20];
    LastGroup(W64, false, s);
  }

  lemma U64ExtLine302()
    ensures Rejects(W64, false, [0x80, 0x80, 0x80, 0x80, 0x80, 0x80, 0x80, 0x80, 0x80, 0x30], Overflow)
  {
    var s: seq<Byte> := [0x80, 0x80, 0x80, 0x80, 0x80, 0x80, 0x80, 0x80, 0x80, 0x30];
    LastGroup(W64, false, s);
  }

  lemma U64ExtLine304()
    ensures Rejects(W64, false, [0x81, 0x82, 0x83, 0x84, 0x85, 0x86, 0x87, 0x88, 0x89, 0x80, 0x00], TooLong)
  {
    var s: seq<Byte> := [0x81, 0x82, 0x83, 0x84, 0x85, 0x86, 0x87, 0x88, 0x89, 0x80, 0x00];
    ContinuedAtLeast(s, 10);
  }

  lemma U64ExtLine305()
    ensures Rejects(W64, false, [0x81, 0x82, 0x83, 0x84, 0x85, 0x86, 0x87, 0x88, 0x89, 0x80, 0x01], TooLong)
  {
    var s: seq<Byte> := [0x81, 0x82, 0x83, 0x84, 0x85, 0x86, 0x87, 0x88, 0x89, 0x80, 0x01];
    ContinuedAtLeast(s, 10);
  }
}
