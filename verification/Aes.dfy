/** The Advanced Encryption Standard on bytes, as FIPS-197 describes it: the cipher, the equivalent
    inverse cipher of its section 5.3.5, and the proof that the one undoes the other.
 */
module Aes {

  // ---------------------------------------------------------------------------------------
  // The substitution box (section 5.1.1 of FIPS-197) and its inverse
  // ---------------------------------------------------------------------------------------

  /** Choose by a number below 16. */
  function Pick(i: bv8, a0: bv8, a1: bv8, a2: bv8, a3: bv8, a4: bv8, a5: bv8, a6: bv8, a7: bv8, a8: bv8, a9: bv8, a10: bv8, a11: bv8, a12: bv8, a13: bv8, a14: bv8, a15: bv8): bv8 {
    (if i < 8 then (if i < 4 then (if i < 2 then (if i < 1 then a0 else a1) else (if i < 3 then a2 else a3)) else (if i < 6 then (if i < 5 then a4 else a5) else (if i < 7 then a6 else a7))) else (if i < 12 then (if i < 10 then (if i < 9 then a8 else a9) else (if i < 11 then a10 else a11)) else (if i < 14 then (if i < 13 then a12 else a13) else (if i < 15 then a14 else a15))))
  }
  function SBox(x: bv8): bv8 {
    var lo := x & 0x0f;
    Pick(x >> 4,
      Pick(lo, 0x63, 0x7c, 0x77, 0x7b, 0xf2, 0x6b, 0x6f, 0xc5, 0x30, 0x01, 0x67, 0x2b, 0xfe, 0xd7, 0xab, 0x76),
      Pick(lo, 0xca, 0x82, 0xc9, 0x7d, 0xfa, 0x59, 0x47, 0xf0, 0xad, 0xd4, 0xa2, 0xaf, 0x9c, 0xa4, 0x72, 0xc0),
      Pick(lo, 0xb7, 0xfd, 0x93, 0x26, 0x36, 0x3f, 0xf7, 0xcc, 0x34, 0xa5, 0xe5, 0xf1, 0x71, 0xd8, 0x31, 0x15),
      Pick(lo, 0x04, 0xc7, 0x23, 0xc3, 0x18, 0x96, 0x05, 0x9a, 0x07, 0x12, 0x80, 0xe2, 0xeb, 0x27, 0xb2, 0x75),
      Pick(lo, 0x09, 0x83, 0x2c, 0x1a, 0x1b, 0x6e, 0x5a, 0xa0, 0x52, 0x3b, 0xd6, 0xb3, 0x29, 0xe3, 0x2f, 0x84),
      Pick(lo, 0x53, 0xd1, 0x00, 0xed, 0x20, 0xfc, 0xb1, 0x5b, 0x6a, 0xcb, 0xbe, 0x39, 0x4a, 0x4c, 0x58, 0xcf),
      Pick(lo, 0xd0, 0xef, 0xaa, 0xfb, 0x43, 0x4d, 0x33, 0x85, 0x45, 0xf9, 0x02, 0x7f, 0x50, 0x3c, 0x9f, 0xa8),
      Pick(lo, 0x51, 0xa3, 0x40, 0x8f, 0x92, 0x9d, 0x38, 0xf5, 0xbc, 0xb6, 0xda, 0x21, 0x10, 0xff, 0xf3, 0xd2),
      Pick(lo, 0xcd, 0x0c, 0x13, 0xec, 0x5f, 0x97, 0x44, 0x17, 0xc4, 0xa7, 0x7e, 0x3d, 0x64, 0x5d, 0x19, 0x73),
      Pick(lo, 0x60, 0x81, 0x4f, 0xdc, 0x22, 0x2a, 0x90, 0x88, 0x46, 0xee, 0xb8, 0x14, 0xde, 0x5e, 0x0b, 0xdb),
      Pick(lo, 0xe0, 0x32, 0x3a, 0x0a, 0x49, 0x06, 0x24, 0x5c, 0xc2, 0xd3, 0xac, 0x62, 0x91, 0x95, 0xe4, 0x79),
      Pick(lo, 0xe7, 0xc8, 0x37, 0x6d, 0x8d, 0xd5, 0x4e, 0xa9, 0x6c, 0x56, 0xf4, 0xea, 0x65, 0x7a, 0xae, 0x08),
      Pick(lo, 0xba, 0x78, 0x25, 0x2e, 0x1c, 0xa6, 0xb4, 0xc6, 0xe8, 0xdd, 0x74, 0x1f, 0x4b, 0xbd, 0x8b, 0x8a),
      Pick(lo, 0x70, 0x3e, 0xb5, 0x66, 0x48, 0x03, 0xf6, 0x0e, 0x61, 0x35, 0x57, 0xb9, 0x86, 0xc1, 0x1d, 0x9e),
      Pick(lo, 0xe1, 0xf8, 0x98, 0x11, 0x69, 0xd9, 0x8e, 0x94, 0x9b, 0x1e, 0x87, 0xe9, 0xce, 0x55, 0x28, 0xdf),
      Pick(lo, 0x8c, 0xa1, 0x89, 0x0d, 0xbf, 0xe6, 0x42, 0x68, 0x41, 0x99, 0x2d, 0x0f, 0xb0, 0x54, 0xbb, 0x16))
  }

  function InvSBox(x: bv8): bv8 {
    var lo := x & 0x0f;
    Pick(x >> 4,
      Pick(lo, 0x52, 0x09, 0x6a, 0xd5, 0x30, 0x36, 0xa5, 0x38, 0xbf, 0x40, 0xa3, 0x9e, 0x81, 0xf3, 0xd7, 0xfb),
      Pick(lo, 0x7c, 0xe3, 0x39, 0x82, 0x9b, 0x2f, 0xff, 0x87, 0x34, 0x8e, 0x43, 0x44, 0xc4, 0xde, 0xe9, 0xcb),
      Pick(lo, 0x54, 0x7b, 0x94, 0x32, 0xa6, 0xc2, 0x23, 0x3d, 0xee, 0x4c, 0x95, 0x0b, 0x42, 0xfa, 0xc3, 0x4e),
      Pick(lo, 0x08, 0x2e, 0xa1, 0x66, 0x28, 0xd9, 0x24, 0xb2, 0x76, 0x5b, 0xa2, 0x49, 0x6d, 0x8b, 0xd1, 0x25),
      Pick(lo, 0x72, 0xf8, 0xf6, 0x64, 0x86, 0x68, 0x98, 0x16, 0xd4, 0xa4, 0x5c, 0xcc, 0x5d, 0x65, 0xb6, 0x92),
      Pick(lo, 0x6c, 0x70, 0x48, 0x50, 0xfd, 0xed, 0xb9, 0xda, 0x5e, 0x15, 0x46, 0x57, 0xa7, 0x8d, 0x9d, 0x84),
      Pick(lo, 0x90, 0xd8, 0xab, 0x00, 0x8c, 0xbc, 0xd3, 0x0a, 0xf7, 0xe4, 0x58, 0x05, 0xb8, 0xb3, 0x45, 0x06),
      Pick(lo, 0xd0, 0x2c, 0x1e, 0x8f, 0xca, 0x3f, 0x0f, 0x02, 0xc1, 0xaf, 0xbd, 0x03, 0x01, 0x13, 0x8a, 0x6b),
      Pick(lo, 0x3a, 0x91, 0x11, 0x41, 0x4f, 0x67, 0xdc, 0xea, 0x97, 0xf2, 0xcf, 0xce, 0xf0, 0xb4, 0xe6, 0x73),
      Pick(lo, 0x96, 0xac, 0x74, 0x22, 0xe7, 0xad, 0x35, 0x85, 0xe2, 0xf9, 0x37, 0xe8, 0x1c, 0x75, 0xdf, 0x6e),
      Pick(lo, 0x47, 0xf1, 0x1a, 0x71, 0x1d, 0x29, 0xc5, 0x89, 0x6f, 0xb7, 0x62, 0x0e, 0xaa, 0x18, 0xbe, 0x1b),
      Pick(lo, 0xfc, 0x56, 0x3e, 0x4b, 0xc6, 0xd2, 0x79, 0x20, 0x9a, 0xdb, 0xc0, 0xfe, 0x78, 0xcd, 0x5a, 0xf4),
      Pick(lo, 0x1f, 0xdd, 0xa8, 0x33, 0x88, 0x07, 0xc7, 0x31, 0xb1, 0x12, 0x10, 0x59, 0x27, 0x80, 0xec, 0x5f),
      Pick(lo, 0x60, 0x51, 0x7f, 0xa9, 0x19, 0xb5, 0x4a, 0x0d, 0x2d, 0xe5, 0x7a, 0x9f, 0x93, 0xc9, 0x9c, 0xef),
      Pick(lo, 0xa0, 0xe0, 0x3b, 0x4d, 0xae, 0x2a, 0xf5, 0xb0, 0xc8, 0xeb, 0xbb, 0x3c, 0x83, 0x53, 0x99, 0x61),
      Pick(lo, 0x17, 0x2b, 0x04, 0x7e, 0xba, 0x77, 0xd6, 0x26, 0xe1, 0x69, 0x14, 0x63, 0x55, 0x21, 0x0c, 0x7d))
  }

  lemma InvSBoxLow(x: bv8)
    requires x < 0x80
    ensures InvSBox(SBox(x)) == x
  {
  }

  lemma InvSBoxHigh(x: bv8)
    requires x >= 0x80
    ensures InvSBox(SBox(x)) == x
  {
  }

  lemma SBoxLow(x: bv8)
    requires x < 0x80
    ensures SBox(InvSBox(x)) == x
  {
  }

  lemma SBoxHigh(x: bv8)
    requires x >= 0x80
    ensures SBox(InvSBox(x)) == x
  {
  }

  /** The two boxes are inverse to each other. */
  lemma SBoxInverse(x: bv8)
    ensures InvSBox(SBox(x)) == x && SBox(InvSBox(x)) == x
  {
    hide *;
    if x < 0x80 {
      InvSBoxLow(x);
      SBoxLow(x);
    } else {
      InvSBoxHigh(x);
      SBoxHigh(x);
    }
  }

  // ---------------------------------------------------------------------------------------
  // GF(2^8) (section 4 of FIPS-197)
  // ---------------------------------------------------------------------------------------

  function Add(a: bv8, b: bv8): bv8 {
    a ^ b
  }

  function Sum(a: bv8, b: bv8, c: bv8, d: bv8): bv8 {
    Add(Add(Add(a, b), c), d)
  }

  /** Multiplication by x. */
  function XTime(a: bv8): bv8 {
    (a << 1) ^ ((a >> 7) * 0x1b)
  }

  function Mul3(a: bv8): bv8 { Add(XTime(a), a) }
  function Mul9(a: bv8): bv8 { Add(XTime(XTime(XTime(a))), a) }
  function Mul11(a: bv8): bv8 { Add(Add(XTime(XTime(XTime(a))), XTime(a)), a) }
  function Mul13(a: bv8): bv8 { Add(Add(XTime(XTime(XTime(a))), XTime(XTime(a))), a) }
  function Mul14(a: bv8): bv8 { Add(Add(XTime(XTime(XTime(a))), XTime(XTime(a))), XTime(a)) }

  lemma AddCommutes(a: bv8, b: bv8)
    ensures Add(a, b) == Add(b, a)
  {
  }

  lemma AddAssociates(a: bv8, b: bv8, c: bv8)
    ensures Add(Add(a, b), c) == Add(a, Add(b, c))
  {
  }

  lemma AddPairs(a: bv8, b: bv8, c: bv8, d: bv8)
    ensures Add(Add(a, b), Add(c, d)) == Add(Add(a, c), Add(b, d))
  {
    hide Add;
    AddAssociates(Add(a, b), c, d);
    AddAssociates(a, b, c);
    AddCommutes(b, c);
    AddAssociates(a, c, b);
    AddAssociates(Add(a, c), b, d);
  }

  lemma AddZeros(a: bv8)
    ensures Sum(a, 0, 0, 0) == a
  {
  }

  lemma SumRotates(a: bv8, b: bv8, c: bv8, d: bv8)
    ensures Sum(a, b, c, d) == Sum(b, c, d, a)
  {
    hide Add;
    AddAssociates(a, b, c);
    AddAssociates(a, Add(b, c), d);
    AddCommutes(a, Add(Add(b, c), d));
  }

  lemma AddTwice(a: bv8, b: bv8)
    ensures Add(Add(a, b), b) == a
  {
  }

  lemma XTimeLinear(a: bv8, b: bv8)
    ensures XTime(Add(a, b)) == Add(XTime(a), XTime(b))
  {
  }

  lemma MulsLinear(a: bv8, b: bv8)
    ensures Mul3(Add(a, b)) == Add(Mul3(a), Mul3(b))
    ensures Mul9(Add(a, b)) == Add(Mul9(a), Mul9(b))
    ensures Mul11(Add(a, b)) == Add(Mul11(a), Mul11(b))
    ensures Mul13(Add(a, b)) == Add(Mul13(a), Mul13(b))
    ensures Mul14(Add(a, b)) == Add(Mul14(a), Mul14(b))
  {
    hide XTime, Add;
    var a2, b2 := XTime(a), XTime(b);
    var a4, b4 := XTime(a2), XTime(b2);
    var a8, b8 := XTime(a4), XTime(b4);
    XTimeLinear(a, b);
    XTimeLinear(a2, b2);
    XTimeLinear(a4, b4);
    AddPairs(a2, b2, a, b);
    AddPairs(a8, b8, a, b);
    AddPairs(a8, b8, a2, b2);
    AddPairs(Add(a8, a2), Add(b8, b2), a, b);
    AddPairs(a8, b8, a4, b4);
    AddPairs(Add(a8, a4), Add(b8, b4), a, b);
    AddPairs(Add(a8, a4), Add(b8, b4), a2, b2);
  }

  lemma MulsOfSum(a: bv8, b: bv8, c: bv8, d: bv8)
    ensures XTime(Sum(a, b, c, d)) == Sum(XTime(a), XTime(b), XTime(c), XTime(d))
    ensures Mul3(Sum(a, b, c, d)) == Sum(Mul3(a), Mul3(b), Mul3(c), Mul3(d))
    ensures Mul9(Sum(a, b, c, d)) == Sum(Mul9(a), Mul9(b), Mul9(c), Mul9(d))
    ensures Mul11(Sum(a, b, c, d)) == Sum(Mul11(a), Mul11(b), Mul11(c), Mul11(d))
    ensures Mul13(Sum(a, b, c, d)) == Sum(Mul13(a), Mul13(b), Mul13(c), Mul13(d))
    ensures Mul14(Sum(a, b, c, d)) == Sum(Mul14(a), Mul14(b), Mul14(c), Mul14(d))
  {
    hide XTime, Add, Mul3, Mul9, Mul11, Mul13, Mul14;
    MulsLinear(Add(Add(a, b), c), d);
    MulsLinear(Add(a, b), c);
    MulsLinear(a, b);
    XTimeLinear(Add(Add(a, b), c), d);
    XTimeLinear(Add(a, b), c);
    XTimeLinear(a, b);
  }

  lemma SumPairs(a: bv8, b: bv8, c: bv8, d: bv8, e: bv8, f: bv8, g: bv8, h: bv8)
    ensures Add(Sum(a, b, c, d), Sum(e, f, g, h)) == Sum(Add(a, e), Add(b, f), Add(c, g), Add(d, h))
  {
    hide Add;
    AddPairs(Add(Add(a, b), c), d, Add(Add(e, f), g), h);
    AddPairs(Add(a, b), c, Add(e, f), g);
    AddPairs(a, b, e, f);
  }

  /** A sum of four sums of four, summed the other way round. */
  lemma Transpose(p0: bv8, p1: bv8, p2: bv8, p3: bv8, q0: bv8, q1: bv8, q2: bv8, q3: bv8,
                  r0: bv8, r1: bv8, r2: bv8, r3: bv8, s0: bv8, s1: bv8, s2: bv8, s3: bv8)
    ensures Sum(Sum(p0, q0, r0, s0), Sum(p1, q1, r1, s1), Sum(p2, q2, r2, s2), Sum(p3, q3, r3, s3))
         == Sum(Sum(p0, p1, p2, p3), Sum(q0, q1, q2, q3), Sum(r0, r1, r2, r3), Sum(s0, s1, s2, s3))
  {
    hide Add;
    SumPairs(p0, q0, r0, s0, p1, q1, r1, s1);
    SumPairs(Add(p0, p1), Add(q0, q1), Add(r0, r1), Add(s0, s1), p2, q2, r2, s2);
    SumPairs(Add(Add(p0, p1), p2), Add(Add(q0, q1), q2), Add(Add(r0, r1), r2), Add(Add(s0, s1), s2), p3, q3, r3, s3);
  }

  /** The products of the inverse matrix with the columns of the matrix, one byte at a time. */
  lemma Products(a: bv8)
    ensures Sum(Mul14(XTime(a)), Mul11(a), Mul13(a), Mul9(Mul3(a))) == a
    ensures Sum(Mul14(Mul3(a)), Mul11(XTime(a)), Mul13(a), Mul9(a)) == 0
  {
  }

  lemma ProductsBelow(a: bv8)
    ensures Sum(Mul14(a), Mul11(Mul3(a)), Mul13(XTime(a)), Mul9(a)) == 0
    ensures Sum(Mul14(a), Mul11(a), Mul13(Mul3(a)), Mul9(XTime(a))) == 0
  {
  }

  lemma ProductsBack(a: bv8)
    ensures Sum(XTime(Mul14(a)), Mul3(Mul9(a)), Mul13(a), Mul11(a)) == a
    ensures Sum(XTime(Mul11(a)), Mul3(Mul14(a)), Mul9(a), Mul13(a)) == 0
  {
  }

  lemma ProductsBackBelow(a: bv8)
    ensures Sum(XTime(Mul13(a)), Mul3(Mul11(a)), Mul14(a), Mul9(a)) == 0
    ensures Sum(XTime(Mul9(a)), Mul3(Mul13(a)), Mul11(a), Mul14(a)) == 0
  {
  }

  // The substitution box is the affine map of section 5.1.1 of FIPS-197 after the inverse in GF(2^8).

  /** All ones if the lowest bit is set. */
  function Mask(b: bv8): bv8 {
    0 - (b & 1)
  }

  /** Multiplication in GF(2^8). */
  function Times(a: bv8, b: bv8): bv8 {
    var a1 := XTime(a);
    var a2 := XTime(a1);
    var a3 := XTime(a2);
    var a4 := XTime(a3);
    var a5 := XTime(a4);
    var a6 := XTime(a5);
    var a7 := XTime(a6);
    (a & Mask(b)) ^ (a1 & Mask(b >> 1)) ^ (a2 & Mask(b >> 2)) ^ (a3 & Mask(b >> 3))
    ^ (a4 & Mask(b >> 4)) ^ (a5 & Mask(b >> 5)) ^ (a6 & Mask(b >> 6)) ^ (a7 & Mask(b >> 7))
  }

  lemma SmallProducts(a: bv8)
    ensures XTime(a) == Times(a, 2) && Mul3(a) == Times(a, 3) && Mul9(a) == Times(a, 9)
  {
  }

  lemma LargeProducts(a: bv8)
    ensures Mul11(a) == Times(a, 11) && Mul13(a) == Times(a, 13) && Mul14(a) == Times(a, 14)
  {
  }

  /** The products that the round tables and the key schedule use. */
  lemma MulsAreTimes(a: bv8)
    ensures XTime(a) == Times(a, 2) && Mul3(a) == Times(a, 3) && Mul9(a) == Times(a, 9)
    ensures Mul11(a) == Times(a, 11) && Mul13(a) == Times(a, 13) && Mul14(a) == Times(a, 14)
  {
    hide *;
    SmallProducts(a);
    LargeProducts(a);
  }

  function Affine(x: bv8): bv8 {
    x ^ x.RotateLeft(1) ^ x.RotateLeft(2) ^ x.RotateLeft(3) ^ x.RotateLeft(4) ^ 0x63
  }

  function Unaffine(s: bv8): bv8 {
    s.RotateLeft(1) ^ s.RotateLeft(3) ^ s.RotateLeft(6) ^ 0x05
  }

  /** Before the affine step the box has the inverse of the byte. */
  predicate Inverted(b: bv8) {
    Times(b, Unaffine(SBox(b))) == 1
  }

  lemma Row0()
    ensures Inverted(0x01) && Inverted(0x02) && Inverted(0x03) && Inverted(0x04) && Inverted(0x05) && Inverted(0x06) && Inverted(0x07) && Inverted(0x08)
    ensures Inverted(0x09) && Inverted(0x0a) && Inverted(0x0b) && Inverted(0x0c) && Inverted(0x0d) && Inverted(0x0e) && Inverted(0x0f)
  {
  }

  lemma Row1()
    ensures Inverted(0x10) && Inverted(0x11) && Inverted(0x12) && Inverted(0x13) && Inverted(0x14) && Inverted(0x15) && Inverted(0x16) && Inverted(0x17)
    ensures Inverted(0x18) && Inverted(0x19) && Inverted(0x1a) && Inverted(0x1b) && Inverted(0x1c) && Inverted(0x1d) && Inverted(0x1e) && Inverted(0x1f)
  {
  }

  lemma Row2()
    ensures Inverted(0x20) && Inverted(0x21) && Inverted(0x22) && Inverted(0x23) && Inverted(0x24) && Inverted(0x25) && Inverted(0x26) && Inverted(0x27)
    ensures Inverted(0x28) && Inverted(0x29) && Inverted(0x2a) && Inverted(0x2b) && Inverted(0x2c) && Inverted(0x2d) && Inverted(0x2e) && Inverted(0x2f)
  {
  }

  lemma Row3()
    ensures Inverted(0x30) && Inverted(0x31) && Inverted(0x32) && Inverted(0x33) && Inverted(0x34) && Inverted(0x35) && Inverted(0x36) && Inverted(0x37)
    ensures Inverted(0x38) && Inverted(0x39) && Inverted(0x3a) && Inverted(0x3b) && Inverted(0x3c) && Inverted(0x3d) && Inverted(0x3e) && Inverted(0x3f)
  {
  }

  lemma Row4()
    ensures Inverted(0x40) && Inverted(0x41) && Inverted(0x42) && Inverted(0x43) && Inverted(0x44) && Inverted(0x45) && Inverted(0x46) && Inverted(0x47)
    ensures Inverted(0x48) && Inverted(0x49) && Inverted(0x4a) && Inverted(0x4b) && Inverted(0x4c) && Inverted(0x4d) && Inverted(0x4e) && Inverted(0x4f)
  {
  }

  lemma Row5()
    ensures Inverted(0x50) && Inverted(0x51) && Inverted(0x52) && Inverted(0x53) && Inverted(0x54) && Inverted(0x55) && Inverted(0x56) && Inverted(0x57)
    ensures Inverted(0x58) && Inverted(0x59) && Inverted(0x5a) && Inverted(0x5b) && Inverted(0x5c) && Inverted(0x5d) && Inverted(0x5e) && Inverted(0x5f)
  {
  }

  lemma Row6()
    ensures Inverted(0x60) && Inverted(0x61) && Inverted(0x62) && Inverted(0x63) && Inverted(0x64) && Inverted(0x65) && Inverted(0x66) && Inverted(0x67)
    ensures Inverted(0x68) && Inverted(0x69) && Inverted(0x6a) && Inverted(0x6b) && Inverted(0x6c) && Inverted(0x6d) && Inverted(0x6e) && Inverted(0x6f)
  {
  }

  lemma Row7()
    ensures Inverted(0x70) && Inverted(0x71) && Inverted(0x72) && Inverted(0x73) && Inverted(0x74) && Inverted(0x75) && Inverted(0x76) && Inverted(0x77)
    ensures Inverted(0x78) && Inverted(0x79) && Inverted(0x7a) && Inverted(0x7b) && Inverted(0x7c) && Inverted(0x7d) && Inverted(0x7e) && Inverted(0x7f)
  {
  }

  lemma Row8()
    ensures Inverted(0x80) && Inverted(0x81) && Inverted(0x82) && Inverted(0x83) && Inverted(0x84) && Inverted(0x85) && Inverted(0x86) && Inverted(0x87)
    ensures Inverted(0x88) && Inverted(0x89) && Inverted(0x8a) && Inverted(0x8b) && Inverted(0x8c) && Inverted(0x8d) && Inverted(0x8e) && Inverted(0x8f)
  {
  }

  lemma Row9()
    ensures Inverted(0x90) && Inverted(0x91) && Inverted(0x92) && Inverted(0x93) && Inverted(0x94) && Inverted(0x95) && Inverted(0x96) && Inverted(0x97)
    ensures Inverted(0x98) && Inverted(0x99) && Inverted(0x9a) && Inverted(0x9b) && Inverted(0x9c) && Inverted(0x9d) && Inverted(0x9e) && Inverted(0x9f)
  {
  }

  lemma RowA()
    ensures Inverted(0xa0) && Inverted(0xa1) && Inverted(0xa2) && Inverted(0xa3) && Inverted(0xa4) && Inverted(0xa5) && Inverted(0xa6) && Inverted(0xa7)
    ensures Inverted(0xa8) && Inverted(0xa9) && Inverted(0xaa) && Inverted(0xab) && Inverted(0xac) && Inverted(0xad) && Inverted(0xae) && Inverted(0xaf)
  {
  }

  lemma RowB()
    ensures Inverted(0xb0) && Inverted(0xb1) && Inverted(0xb2) && Inverted(0xb3) && Inverted(0xb4) && Inverted(0xb5) && Inverted(0xb6) && Inverted(0xb7)
    ensures Inverted(0xb8) && Inverted(0xb9) && Inverted(0xba) && Inverted(0xbb) && Inverted(0xbc) && Inverted(0xbd) && Inverted(0xbe) && Inverted(0xbf)
  {
  }

  lemma RowC()
    ensures Inverted(0xc0) && Inverted(0xc1) && Inverted(0xc2) && Inverted(0xc3) && Inverted(0xc4) && Inverted(0xc5) && Inverted(0xc6) && Inverted(0xc7)
    ensures Inverted(0xc8) && Inverted(0xc9) && Inverted(0xca) && Inverted(0xcb) && Inverted(0xcc) && Inverted(0xcd) && Inverted(0xce) && Inverted(0xcf)
  {
  }

  lemma RowD()
    ensures Inverted(0xd0) && Inverted(0xd1) && Inverted(0xd2) && Inverted(0xd3) && Inverted(0xd4) && Inverted(0xd5) && Inverted(0xd6) && Inverted(0xd7)
    ensures Inverted(0xd8) && Inverted(0xd9) && Inverted(0xda) && Inverted(0xdb) && Inverted(0xdc) && Inverted(0xdd) && Inverted(0xde) && Inverted(0xdf)
  {
  }

  lemma RowE()
    ensures Inverted(0xe0) && Inverted(0xe1) && Inverted(0xe2) && Inverted(0xe3) && Inverted(0xe4) && Inverted(0xe5) && Inverted(0xe6) && Inverted(0xe7)
    ensures Inverted(0xe8) && Inverted(0xe9) && Inverted(0xea) && Inverted(0xeb) && Inverted(0xec) && Inverted(0xed) && Inverted(0xee) && Inverted(0xef)
  {
  }

  lemma RowF()
    ensures Inverted(0xf0) && Inverted(0xf1) && Inverted(0xf2) && Inverted(0xf3) && Inverted(0xf4) && Inverted(0xf5) && Inverted(0xf6) && Inverted(0xf7)
    ensures Inverted(0xf8) && Inverted(0xf9) && Inverted(0xfa) && Inverted(0xfb) && Inverted(0xfc) && Inverted(0xfd) && Inverted(0xfe) && Inverted(0xff)
  {
  }

  lemma LowInverted(b: bv8)
    requires 0 < b < 0x80
    ensures Inverted(b)
  {
    hide *;
    if b < 0x20 {
      Row0();
      Row1();
    } else if b < 0x40 {
      Row2();
      Row3();
    } else if b < 0x60 {
      Row4();
      Row5();
    } else {
      Row6();
      Row7();
    }
  }

  lemma HighInverted(b: bv8)
    requires 0x80 <= b
    ensures Inverted(b)
  {
    hide *;
    if b < 0xa0 {
      Row8();
      Row9();
    } else if b < 0xc0 {
      RowA();
      RowB();
    } else if b < 0xe0 {
      RowC();
      RowD();
    } else {
      RowE();
      RowF();
    }
  }

  lemma NoDivisorsFirst(a: bv8, b: bv8)
    requires a < 0x40 && Times(a, b) == 0
    ensures a == 0 || b == 0
  {
  }

  lemma NoDivisorsSecond(a: bv8, b: bv8)
    requires 0x40 <= a < 0x80 && Times(a, b) == 0
    ensures a == 0 || b == 0
  {
  }

  lemma NoDivisorsThird(a: bv8, b: bv8)
    requires 0x80 <= a < 0xc0 && Times(a, b) == 0
    ensures a == 0 || b == 0
  {
  }

  lemma NoDivisorsFourth(a: bv8, b: bv8)
    requires 0xc0 <= a && Times(a, b) == 0
    ensures a == 0 || b == 0
  {
  }

  lemma NoZeroDivisors(a: bv8, b: bv8)
    requires Times(a, b) == 0
    ensures a == 0 || b == 0
  {
    hide *;
    if a < 0x40 {
      NoDivisorsFirst(a, b);
    } else if a < 0x80 {
      NoDivisorsSecond(a, b);
    } else if a < 0xc0 {
      NoDivisorsThird(a, b);
    } else {
      NoDivisorsFourth(a, b);
    }
  }

  /** `a` if the lowest bit of `b` is set, and zero otherwise. */
  function Term(a: bv8, b: bv8): bv8 {
    a & Mask(b)
  }

  lemma TermLinear(a: bv8, x: bv8, y: bv8)
    ensures Term(a, Add(x, y)) == Add(Term(a, x), Term(a, y))
  {
  }

  lemma ShiftsLinear(x: bv8, y: bv8)
    ensures Add(x, y) >> 1 == Add(x >> 1, y >> 1) && Add(x, y) >> 2 == Add(x >> 2, y >> 2)
    ensures Add(x, y) >> 3 == Add(x >> 3, y >> 3) && Add(x, y) >> 4 == Add(x >> 4, y >> 4)
    ensures Add(x, y) >> 5 == Add(x >> 5, y >> 5) && Add(x, y) >> 6 == Add(x >> 6, y >> 6)
    ensures Add(x, y) >> 7 == Add(x >> 7, y >> 7)
  {
  }

  lemma TermsLinear(a: bv8, b: bv8, c: bv8, d: bv8, x0: bv8, x1: bv8, x2: bv8, x3: bv8, y0: bv8, y1: bv8, y2: bv8, y3: bv8)
    ensures Sum(Term(a, Add(x0, y0)), Term(b, Add(x1, y1)), Term(c, Add(x2, y2)), Term(d, Add(x3, y3)))
         == Add(Sum(Term(a, x0), Term(b, x1), Term(c, x2), Term(d, x3)), Sum(Term(a, y0), Term(b, y1), Term(c, y2), Term(d, y3)))
  {
    hide *;
    TermLinear(a, x0, y0);
    TermLinear(b, x1, y1);
    TermLinear(c, x2, y2);
    TermLinear(d, x3, y3);
    SumPairs(Term(a, x0), Term(b, x1), Term(c, x2), Term(d, x3), Term(a, y0), Term(b, y1), Term(c, y2), Term(d, y3));
  }

  function Half(a: bv8, b: bv8): bv8 {
    Sum(Term(a, b), Term(XTime(a), b >> 1), Term(XTime(XTime(a)), b >> 2), Term(XTime(XTime(XTime(a))), b >> 3))
  }

  lemma TimesHalves(a: bv8, b: bv8)
    ensures Times(a, b) == Add(Half(a, b), Half(XTime(XTime(XTime(XTime(a)))), b >> 4))
  {
    hide XTime, Mask;
  }

  lemma HalfLinear(a: bv8, x: bv8, y: bv8)
    ensures Half(a, Add(x, y)) == Add(Half(a, x), Half(a, y))
  {
    hide Add, Sum, Term, XTime;
    ShiftsLinear(x, y);
    TermsLinear(a, XTime(a), XTime(XTime(a)), XTime(XTime(XTime(a))), x, x >> 1, x >> 2, x >> 3, y, y >> 1, y >> 2, y >> 3);
  }

  lemma TimesLinear(a: bv8, x: bv8, y: bv8)
    ensures Times(a, Add(x, y)) == Add(Times(a, x), Times(a, y))
  {
    hide *;
    var c := XTime(XTime(XTime(XTime(a))));
    TimesHalves(a, x);
    TimesHalves(a, y);
    TimesHalves(a, Add(x, y));
    ShiftsLinear(x, y);
    HalfLinear(a, x, y);
    HalfLinear(c, x >> 4, y >> 4);
    AddPairs(Half(a, x), Half(a, y), Half(c, x >> 4), Half(c, y >> 4));
  }

  lemma AddIsZero(a: bv8, b: bv8)
    ensures Add(a, b) == 0 <==> a == b
  {
  }

  lemma TimesZero(x: bv8)
    ensures Times(0, x) == 0
  {
  }

  /** A byte has at most one inverse. */
  lemma InverseUnique(b: bv8, x: bv8, y: bv8)
    requires Times(b, x) == 1 && Times(b, y) == 1
    ensures x == y
  {
    hide *;
    TimesLinear(b, x, y);
    AddIsZero(1, 1);
    NoZeroDivisors(b, Add(x, y));
    AddIsZero(x, y);
    TimesZero(x);
  }

  lemma AffineUnaffine(s: bv8)
    ensures Affine(Unaffine(s)) == s
  {
  }

  /** Every byte but zero has an inverse, and the box maps it to the affine image of that inverse; zero it maps to the image of zero. */
  lemma SBoxIsStandard(b: bv8)
    ensures b == 0 ==> SBox(b) == Affine(0)
    ensures b != 0 ==> exists x :: Times(b, x) == 1
    ensures forall x :: Times(b, x) == 1 ==> SBox(b) == Affine(x)
  {
    hide Times, Affine, Unaffine, SBox;
    SBoxOfZero();
    if b != 0 {
      if b < 0x80 {
        LowInverted(b);
      } else {
        HighInverted(b);
      }
    }
    forall x | Times(b, x) == 1
      ensures SBox(b) == Affine(x)
    {
      TimesZero(x);
      InverseUnique(b, x, Unaffine(SBox(b)));
      AffineUnaffine(SBox(b));
    }
  }

  lemma SBoxOfZero()
    ensures SBox(0) == Affine(0)
  {
  }

  // ---------------------------------------------------------------------------------------
  // Columns and states
  // ---------------------------------------------------------------------------------------

  datatype Column = Column(a: bv8, b: bv8, c: bv8, d: bv8)

  datatype State = State(c0: Column, c1: Column, c2: Column, c3: Column)

  function AddColumn(x: Column, y: Column): Column {
    Column(Add(x.a, y.a), Add(x.b, y.b), Add(x.c, y.c), Add(x.d, y.d))
  }

  function AddRoundKey(s: State, k: State): State {
    State(AddColumn(s.c0, k.c0), AddColumn(s.c1, k.c1), AddColumn(s.c2, k.c2), AddColumn(s.c3, k.c3))
  }

  function SubColumn(x: Column): Column {
    Column(SBox(x.a), SBox(x.b), SBox(x.c), SBox(x.d))
  }

  function InvSubColumn(x: Column): Column {
    Column(InvSBox(x.a), InvSBox(x.b), InvSBox(x.c), InvSBox(x.d))
  }

  function SubBytes(s: State): State {
    State(SubColumn(s.c0), SubColumn(s.c1), SubColumn(s.c2), SubColumn(s.c3))
  }

  function InvSubBytes(s: State): State {
    State(InvSubColumn(s.c0), InvSubColumn(s.c1), InvSubColumn(s.c2), InvSubColumn(s.c3))
  }

  function ShiftRows(s: State): State {
    State(Column(s.c0.a, s.c1.b, s.c2.c, s.c3.d),
          Column(s.c1.a, s.c2.b, s.c3.c, s.c0.d),
          Column(s.c2.a, s.c3.b, s.c0.c, s.c1.d),
          Column(s.c3.a, s.c0.b, s.c1.c, s.c2.d))
  }

  function InvShiftRows(s: State): State {
    State(Column(s.c0.a, s.c3.b, s.c2.c, s.c1.d),
          Column(s.c1.a, s.c0.b, s.c3.c, s.c2.d),
          Column(s.c2.a, s.c1.b, s.c0.c, s.c3.d),
          Column(s.c3.a, s.c2.b, s.c1.c, s.c0.d))
  }

  function MixColumn(x: Column): Column {
    Column(Sum(XTime(x.a), Mul3(x.b), x.c, x.d),
           Sum(x.a, XTime(x.b), Mul3(x.c), x.d),
           Sum(x.a, x.b, XTime(x.c), Mul3(x.d)),
           Sum(Mul3(x.a), x.b, x.c, XTime(x.d)))
  }

  function InvMixColumn(x: Column): Column {
    Column(Sum(Mul14(x.a), Mul11(x.b), Mul13(x.c), Mul9(x.d)),
           Sum(Mul9(x.a), Mul14(x.b), Mul11(x.c), Mul13(x.d)),
           Sum(Mul13(x.a), Mul9(x.b), Mul14(x.c), Mul11(x.d)),
           Sum(Mul11(x.a), Mul13(x.b), Mul9(x.c), Mul14(x.d)))
  }

  function MixColumns(s: State): State {
    State(MixColumn(s.c0), MixColumn(s.c1), MixColumn(s.c2), MixColumn(s.c3))
  }

  function InvMixColumns(s: State): State {
    State(InvMixColumn(s.c0), InvMixColumn(s.c1), InvMixColumn(s.c2), InvMixColumn(s.c3))
  }

  // ---------------------------------------------------------------------------------------
  // Each layer has its inverse
  // ---------------------------------------------------------------------------------------

  /** One row of the inverse matrix applied to a mixed column. */
  lemma UnmixRow(a: bv8, b: bv8, c: bv8, d: bv8)
    ensures Sum(Mul14(Sum(XTime(a), Mul3(b), c, d)), Mul11(Sum(a, XTime(b), Mul3(c), d)),
                Mul13(Sum(a, b, XTime(c), Mul3(d))), Mul9(Sum(Mul3(a), b, c, XTime(d)))) == a
  {
    hide *;
    MulsOfSum(XTime(a), Mul3(b), c, d);
    MulsOfSum(a, XTime(b), Mul3(c), d);
    MulsOfSum(a, b, XTime(c), Mul3(d));
    MulsOfSum(Mul3(a), b, c, XTime(d));
    Transpose(Mul14(XTime(a)), Mul11(a), Mul13(a), Mul9(Mul3(a)),
              Mul14(Mul3(b)), Mul11(XTime(b)), Mul13(b), Mul9(b),
              Mul14(c), Mul11(Mul3(c)), Mul13(XTime(c)), Mul9(c),
              Mul14(d), Mul11(d), Mul13(Mul3(d)), Mul9(XTime(d)));
    Products(a);
    Products(b);
    ProductsBelow(c);
    ProductsBelow(d);
    AddZeros(a);
  }

  /** One row of the matrix applied to an unmixed column. */
  lemma RemixRow(a: bv8, b: bv8, c: bv8, d: bv8)
    ensures Sum(XTime(Sum(Mul14(a), Mul11(b), Mul13(c), Mul9(d))), Mul3(Sum(Mul9(a), Mul14(b), Mul11(c), Mul13(d))),
                Sum(Mul13(a), Mul9(b), Mul14(c), Mul11(d)), Sum(Mul11(a), Mul13(b), Mul9(c), Mul14(d))) == a
  {
    hide *;
    MulsOfSum(Mul14(a), Mul11(b), Mul13(c), Mul9(d));
    MulsOfSum(Mul9(a), Mul14(b), Mul11(c), Mul13(d));
    Transpose(XTime(Mul14(a)), Mul3(Mul9(a)), Mul13(a), Mul11(a),
              XTime(Mul11(b)), Mul3(Mul14(b)), Mul9(b), Mul13(b),
              XTime(Mul13(c)), Mul3(Mul11(c)), Mul14(c), Mul9(c),
              XTime(Mul9(d)), Mul3(Mul13(d)), Mul11(d), Mul14(d));
    ProductsBack(a);
    ProductsBack(b);
    ProductsBackBelow(c);
    ProductsBackBelow(d);
    AddZeros(a);
  }

  function Rotate(x: Column): Column {
    Column(x.b, x.c, x.d, x.a)
  }

  lemma MixRotates(x: Column)
    ensures MixColumn(Rotate(x)) == Rotate(MixColumn(x))
    ensures InvMixColumn(Rotate(x)) == Rotate(InvMixColumn(x))
  {
    hide Sum, XTime, Mul3, Mul9, Mul11, Mul13, Mul14;
    SumRotates(x.a, XTime(x.b), Mul3(x.c), x.d);
    SumRotates(x.a, x.b, XTime(x.c), Mul3(x.d));
    SumRotates(Mul3(x.a), x.b, x.c, XTime(x.d));
    SumRotates(XTime(x.a), Mul3(x.b), x.c, x.d);
    SumRotates(Mul9(x.a), Mul14(x.b), Mul11(x.c), Mul13(x.d));
    SumRotates(Mul13(x.a), Mul9(x.b), Mul14(x.c), Mul11(x.d));
    SumRotates(Mul11(x.a), Mul13(x.b), Mul9(x.c), Mul14(x.d));
    SumRotates(Mul14(x.a), Mul11(x.b), Mul13(x.c), Mul9(x.d));
  }

  lemma MixTop(x: Column)
    ensures InvMixColumn(MixColumn(x)).a == x.a
    ensures MixColumn(InvMixColumn(x)).a == x.a
  {
    hide Sum, XTime, Mul3, Mul9, Mul11, Mul13, Mul14;
    UnmixRow(x.a, x.b, x.c, x.d);
    RemixRow(x.a, x.b, x.c, x.d);
  }

  /** The two matrices of sections 5.1.3 and 5.3.3 of FIPS-197 are inverse to each other. */
  lemma MixInverse(x: Column)
    ensures InvMixColumn(MixColumn(x)) == x
    ensures MixColumn(InvMixColumn(x)) == x
  {
    hide MixColumn, InvMixColumn;
    var y := Rotate(x);
    var z := Rotate(y);
    var w := Rotate(z);
    MixTop(x);
    MixTop(y);
    MixTop(z);
    MixTop(w);
    MixRotates(x);
    MixRotates(y);
    MixRotates(z);
    MixRotates(MixColumn(x));
    MixRotates(MixColumn(y));
    MixRotates(MixColumn(z));
    MixRotates(InvMixColumn(x));
    MixRotates(InvMixColumn(y));
    MixRotates(InvMixColumn(z));
  }

  lemma InvMixLinear(x: Column, y: Column)
    ensures InvMixColumn(AddColumn(x, y)) == AddColumn(InvMixColumn(x), InvMixColumn(y))
  {
    hide Sum, Add, XTime, Mul3, Mul9, Mul11, Mul13, Mul14;
    MulsLinear(x.a, y.a);
    MulsLinear(x.b, y.b);
    MulsLinear(x.c, y.c);
    MulsLinear(x.d, y.d);
    SumPairs(Mul14(x.a), Mul11(x.b), Mul13(x.c), Mul9(x.d), Mul14(y.a), Mul11(y.b), Mul13(y.c), Mul9(y.d));
    SumPairs(Mul9(x.a), Mul14(x.b), Mul11(x.c), Mul13(x.d), Mul9(y.a), Mul14(y.b), Mul11(y.c), Mul13(y.d));
    SumPairs(Mul13(x.a), Mul9(x.b), Mul14(x.c), Mul11(x.d), Mul13(y.a), Mul9(y.b), Mul14(y.c), Mul11(y.d));
    SumPairs(Mul11(x.a), Mul13(x.b), Mul9(x.c), Mul14(x.d), Mul11(y.a), Mul13(y.b), Mul9(y.c), Mul14(y.d));
  }

  lemma SubInverse(x: Column)
    ensures InvSubColumn(SubColumn(x)) == x
    ensures SubColumn(InvSubColumn(x)) == x
  {
    hide SBox, InvSBox;
    SBoxInverse(x.a);
    SBoxInverse(x.b);
    SBoxInverse(x.c);
    SBoxInverse(x.d);
  }

  lemma AddColumnTwice(x: Column, k: Column)
    ensures AddColumn(AddColumn(x, k), k) == x
  {
    hide Add;
    AddTwice(x.a, k.a);
    AddTwice(x.b, k.b);
    AddTwice(x.c, k.c);
    AddTwice(x.d, k.d);
  }

  /** Every layer of a round undoes, and is undone by, its counterpart. */
  lemma LayersInverse(s: State, k: State)
    ensures InvSubBytes(SubBytes(s)) == s && SubBytes(InvSubBytes(s)) == s
    ensures InvMixColumns(MixColumns(s)) == s && MixColumns(InvMixColumns(s)) == s
    ensures AddRoundKey(AddRoundKey(s, k), k) == s
  {
    hide AddColumn, SubColumn, InvSubColumn, MixColumn, InvMixColumn;
    SubInverse(s.c0);
    SubInverse(s.c1);
    SubInverse(s.c2);
    SubInverse(s.c3);
    MixInverse(s.c0);
    MixInverse(s.c1);
    MixInverse(s.c2);
    MixInverse(s.c3);
    AddColumnTwice(s.c0, k.c0);
    AddColumnTwice(s.c1, k.c1);
    AddColumnTwice(s.c2, k.c2);
    AddColumnTwice(s.c3, k.c3);
  }

  /** Moving bytes between columns commutes with substituting them. */
  lemma ShiftSub(s: State)
    ensures InvShiftRows(ShiftRows(s)) == s && ShiftRows(InvShiftRows(s)) == s
    ensures InvShiftRows(InvSubBytes(s)) == InvSubBytes(InvShiftRows(s))
    ensures ShiftRows(SubBytes(s)) == SubBytes(ShiftRows(s))
  {
    hide SBox, InvSBox;
  }

  lemma InvMixAddRoundKey(s: State, k: State)
    ensures InvMixColumns(AddRoundKey(s, k)) == AddRoundKey(InvMixColumns(s), InvMixColumns(k))
  {
    hide AddColumn, InvMixColumn;
    InvMixLinear(s.c0, k.c0);
    InvMixLinear(s.c1, k.c1);
    InvMixLinear(s.c2, k.c2);
    InvMixLinear(s.c3, k.c3);
  }

  // ---------------------------------------------------------------------------------------
  // The cipher and the equivalent inverse cipher
  // ---------------------------------------------------------------------------------------

  /** The state after round r of the cipher (section 5.1 of FIPS-197), round 0 being the first key addition. */
  function Rounds(keys: seq<State>, s: State, r: nat): State
    requires r < |keys|
  {
    if r == 0 then AddRoundKey(s, keys[0])
    else AddRoundKey(MixColumns(ShiftRows(SubBytes(Rounds(keys, s, r - 1)))), keys[r])
  }

  function Cipher(keys: seq<State>, s: State): State
    requires |keys| >= 2
  {
    AddRoundKey(ShiftRows(SubBytes(Rounds(keys, s, |keys| - 2))), keys[|keys| - 1])
  }

  /** The state after round r of the equivalent inverse cipher (section 5.3.5 of FIPS-197). */
  function InvRounds(keys: seq<State>, s: State, r: nat): State
    requires r < |keys|
  {
    if r == 0 then AddRoundKey(s, keys[0])
    else AddRoundKey(InvMixColumns(InvShiftRows(InvSubBytes(InvRounds(keys, s, r - 1)))), keys[r])
  }

  function EqInvCipher(keys: seq<State>, s: State): State
    requires |keys| >= 2
  {
    AddRoundKey(InvShiftRows(InvSubBytes(InvRounds(keys, s, |keys| - 2))), keys[|keys| - 1])
  }

  /** The decryption schedule: reversed, with all but its two ends through InvMixColumns. */
  ghost predicate Reversed(keys: seq<State>, dec: seq<State>) {
    && |dec| == |keys| >= 2
    && dec[0] == keys[|keys| - 1]
    && dec[|keys| - 1] == keys[0]
    && forall r :: 0 < r < |keys| - 1 ==> dec[r] == InvMixColumns(keys[|keys| - 1 - r])
  }

  /** Round r of decryption holds what encryption had before mixing, r rounds from its end. */
  lemma {:induction false} Unwinds(keys: seq<State>, dec: seq<State>, s: State, r: nat)
    requires Reversed(keys, dec) && r <= |keys| - 2
    ensures InvRounds(dec, Cipher(keys, s), r) == ShiftRows(SubBytes(Rounds(keys, s, |keys| - 2 - r)))
  {
    hide SubBytes, InvSubBytes, ShiftRows, InvShiftRows, MixColumns, InvMixColumns, AddRoundKey;
    var n := |keys| - 2;
    if r == 0 {
      LayersInverse(ShiftRows(SubBytes(Rounds(keys, s, n))), keys[n + 1]);
    } else {
      Unwinds(keys, dec, s, r - 1);
      var e := Rounds(keys, s, n - r + 1);
      var m := ShiftRows(SubBytes(Rounds(keys, s, n - r)));
      var k := keys[n + 1 - r];
      assert e == AddRoundKey(MixColumns(m), k);
      ShiftSub(SubBytes(e));
      LayersInverse(e, k);
      ShiftSub(ShiftRows(SubBytes(e)));
      InvMixAddRoundKey(MixColumns(m), k);
      LayersInverse(m, InvMixColumns(k));
    }
  }

  /** Round r of encryption holds what decryption had after its byte substitution, r rounds from its end. */
  lemma {:induction false} Winds(keys: seq<State>, dec: seq<State>, c: State, r: nat)
    requires Reversed(keys, dec) && r <= |keys| - 2
    ensures Rounds(keys, EqInvCipher(dec, c), r) == InvShiftRows(InvSubBytes(InvRounds(dec, c, |keys| - 2 - r)))
  {
    hide SubBytes, InvSubBytes, ShiftRows, InvShiftRows, MixColumns, InvMixColumns, AddRoundKey;
    var n := |keys| - 2;
    if r == 0 {
      LayersInverse(InvShiftRows(InvSubBytes(InvRounds(dec, c, n))), keys[0]);
    } else {
      Winds(keys, dec, c, r - 1);
      var d := InvRounds(dec, c, n - r + 1);
      var t := InvShiftRows(InvSubBytes(InvRounds(dec, c, n - r)));
      var k := keys[r];
      assert d == AddRoundKey(InvMixColumns(t), dec[n + 1 - r]);
      ShiftSub(InvSubBytes(d));
      ShiftSub(d);
      ShiftSub(InvShiftRows(InvSubBytes(d)));
      LayersInverse(d, k);
      InvMixAddRoundKey(t, k);
      LayersInverse(AddRoundKey(t, k), k);
      LayersInverse(t, k);
    }
  }

  /** Decryption under the reversed schedule inverts encryption, and encryption inverts decryption. */
  lemma CipherInverse(keys: seq<State>, dec: seq<State>, s: State)
    requires Reversed(keys, dec)
    ensures EqInvCipher(dec, Cipher(keys, s)) == s
    ensures Cipher(keys, EqInvCipher(dec, s)) == s
  {
    hide SubBytes, InvSubBytes, ShiftRows, InvShiftRows, MixColumns, InvMixColumns, AddRoundKey;
    var n := |keys| - 2;
    Unwinds(keys, dec, s, n);
    var e := Rounds(keys, s, 0);
    ShiftSub(SubBytes(e));
    LayersInverse(e, keys[0]);
    ShiftSub(ShiftRows(SubBytes(e)));
    LayersInverse(s, keys[0]);
    Winds(keys, dec, s, n);
    var d := InvRounds(dec, s, 0);
    ShiftSub(InvSubBytes(d));
    ShiftSub(d);
    ShiftSub(InvShiftRows(InvSubBytes(d)));
    LayersInverse(d, dec[0]);
    LayersInverse(s, dec[0]);
  }
}
