/**
 * The word arithmetic of aes_generic.c: bytes packed into 32-bit words, the round tables, and the
 * packed InvMixColumns of the key schedule, each against its byte-level counterpart in FIPS-197.
 */
module AesWords {
  import opened Aes

  // ---------------------------------------------------------------------------------------
  // Words and their bytes
  // ---------------------------------------------------------------------------------------

  /** The four bytes of a word, the least significant first: byte(x, 0) to byte(x, 3). */
  function Bytes(x: bv32): Column {
    Column((x & 0xff) as bv8, ((x >> 8) & 0xff) as bv8, ((x >> 16) & 0xff) as bv8, ((x >> 24) & 0xff) as bv8)
  }

  /** The word with the given bytes: a little-endian load. */
  function Word(c: Column): bv32 {
    (c.a as bv32) | ((c.b as bv32) << 8) | ((c.c as bv32) << 16) | ((c.d as bv32) << 24)
  }

  function Xor(x: bv32, y: bv32): bv32 {
    x ^ y
  }

  // Rotation by one, two and three bytes: ror32 with 8, 16 and 24.
  function Ror8(x: bv32): bv32 { (x >> 8) | (x << 24) }
  function Ror16(x: bv32): bv32 { (x >> 16) | (x << 16) }
  function Ror24(x: bv32): bv32 { (x >> 24) | (x << 8) }

  lemma BytesOfWord(c: Column)
    ensures Bytes(Word(c)) == c
  {
  }

  lemma BytesOfXor(x: bv32, y: bv32)
    ensures Bytes(Xor(x, y)) == AddColumn(Bytes(x), Bytes(y))
  {
  }

  lemma BytesOfRor(x: bv32)
    ensures Bytes(Ror8(x)) == Rotate(Bytes(x))
    ensures Bytes(Ror16(x)) == Rotate(Rotate(Bytes(x)))
    ensures Bytes(Ror24(x)) == Rotate(Rotate(Rotate(Bytes(x))))
  {
  }

  /** The macro star_x: four multiplications by x at once. */
  function StarX(x: bv32): bv32 {
    ((x & 0x7f7f7f7f) << 1) ^ (((x & 0x80808080) >> 7) * 0x1b)
  }

  lemma BytesOfStarX(x: bv32)
    ensures Bytes(StarX(x)) == Column(XTime(Bytes(x).a), XTime(Bytes(x).b), XTime(Bytes(x).c), XTime(Bytes(x).d))
  {
  }

  // ---------------------------------------------------------------------------------------
  // The round tables
  // ---------------------------------------------------------------------------------------

  // Row n of each table is row 0 rotated left by n bytes.

  function Ft(n: nat, b: bv8): bv32
    requires n < 4
  {
    var s := SBox(b);
    Word(Turn(Column(XTime(s), s, s, Mul3(s)), n))
  }

  function Fl(n: nat, b: bv8): bv32
    requires n < 4
  {
    Word(Turn(Column(SBox(b), 0, 0, 0), n))
  }

  function It(n: nat, b: bv8): bv32
    requires n < 4
  {
    var s := InvSBox(b);
    Word(Turn(Column(Mul14(s), Mul9(s), Mul13(s), Mul11(s)), n))
  }

  function Il(n: nat, b: bv8): bv32
    requires n < 4
  {
    Word(Turn(Column(InvSBox(b), 0, 0, 0), n))
  }

  function Turn(c: Column, n: nat): Column {
    if n == 0 then c
    else if n == 1 then Column(c.d, c.a, c.b, c.c)
    else if n == 2 then Column(c.c, c.d, c.a, c.b)
    else Column(c.b, c.c, c.d, c.a)
  }

  /** Five words added together, byte by byte. */
  lemma BytesOfSum(p: Column, q: Column, r: Column, s: Column, k: bv32)
    ensures Bytes(Xor(Xor(Xor(Xor(Word(p), Word(q)), Word(r)), Word(s)), k))
         == AddColumn(Column(Sum(p.a, q.a, r.a, s.a), Sum(p.b, q.b, r.b, s.b), Sum(p.c, q.c, r.c, s.c), Sum(p.d, q.d, r.d, s.d)), Bytes(k))
  {
    hide Bytes, Word, Xor, Add;
    BytesOfWord(p);
    BytesOfWord(q);
    BytesOfWord(r);
    BytesOfWord(s);
    BytesOfXor(Word(p), Word(q));
    BytesOfXor(Xor(Word(p), Word(q)), Word(r));
    BytesOfXor(Xor(Xor(Word(p), Word(q)), Word(r)), Word(s));
    BytesOfXor(Xor(Xor(Xor(Word(p), Word(q)), Word(r)), Word(s)), k);
  }

  /** One output word of f_rn: substitution, mixing and key addition in four look-ups. */
  lemma FtColumn(x: Column, k: bv32)
    ensures Bytes(Xor(Xor(Xor(Xor(Ft(0, x.a), Ft(1, x.b)), Ft(2, x.c)), Ft(3, x.d)), k))
         == AddColumn(MixColumn(SubColumn(x)), Bytes(k))
  {
    hide Bytes, Word, Xor, Sum, SBox, XTime, Mul3;
    var s := SubColumn(x);
    BytesOfSum(Column(XTime(s.a), s.a, s.a, Mul3(s.a)), Column(Mul3(s.b), XTime(s.b), s.b, s.b),
               Column(s.c, Mul3(s.c), XTime(s.c), s.c), Column(s.d, s.d, Mul3(s.d), XTime(s.d)), k);
  }

  /** One output word of f_rl. */
  lemma FlColumn(x: Column, k: bv32)
    ensures Bytes(Xor(Xor(Xor(Xor(Fl(0, x.a), Fl(1, x.b)), Fl(2, x.c)), Fl(3, x.d)), k))
         == AddColumn(SubColumn(x), Bytes(k))
  {
    hide Bytes, Word, Xor, Sum, SBox;
    Diagonal(SubColumn(x), k);
  }

  /** One output word of i_rn. */
  lemma ItColumn(x: Column, k: bv32)
    ensures Bytes(Xor(Xor(Xor(Xor(It(0, x.a), It(1, x.b)), It(2, x.c)), It(3, x.d)), k))
         == AddColumn(InvMixColumn(InvSubColumn(x)), Bytes(k))
  {
    hide Bytes, Word, Xor, Sum, InvSBox, Mul9, Mul11, Mul13, Mul14;
    var s := InvSubColumn(x);
    BytesOfSum(Column(Mul14(s.a), Mul9(s.a), Mul13(s.a), Mul11(s.a)), Column(Mul11(s.b), Mul14(s.b), Mul9(s.b), Mul13(s.b)),
               Column(Mul13(s.c), Mul11(s.c), Mul14(s.c), Mul9(s.c)), Column(Mul9(s.d), Mul13(s.d), Mul11(s.d), Mul14(s.d)), k);
  }

  /** One output word of i_rl. */
  lemma IlColumn(x: Column, k: bv32)
    ensures Bytes(Xor(Xor(Xor(Xor(Il(0, x.a), Il(1, x.b)), Il(2, x.c)), Il(3, x.d)), k))
         == AddColumn(InvSubColumn(x), Bytes(k))
  {
    hide Bytes, Word, Xor, Sum, InvSBox;
    Diagonal(InvSubColumn(x), k);
  }

  lemma Diagonal(x: Column, k: bv32)
    ensures Bytes(Xor(Xor(Xor(Xor(Word(Column(x.a, 0, 0, 0)), Word(Column(0, x.b, 0, 0))), Word(Column(0, 0, x.c, 0))), Word(Column(0, 0, 0, x.d))), k))
         == AddColumn(x, Bytes(k))
  {
    hide Bytes, Word, Xor, Sum;
    BytesOfSum(Column(x.a, 0, 0, 0), Column(0, x.b, 0, 0), Column(0, 0, x.c, 0), Column(0, 0, 0, x.d), k);
    SumOfOne(x.a);
    SumOfOne(x.b);
    SumOfOne(x.c);
    SumOfOne(x.d);
  }

  lemma SumOfOne(a: bv8)
    ensures Sum(a, 0, 0, 0) == a && Sum(0, a, 0, 0) == a && Sum(0, 0, a, 0) == a && Sum(0, 0, 0, a) == a
  {
  }

  // ---------------------------------------------------------------------------------------
  // Words of the key schedule
  // ---------------------------------------------------------------------------------------

  /** The macro ls_box: SubWord of section 5.2 of FIPS-197. */
  function LsBox(x: bv32): bv32 {
    var b := Bytes(x);
    Xor(Xor(Xor(Fl(0, b.a), Fl(1, b.b)), Fl(2, b.c)), Fl(3, b.d))
  }

  lemma BytesOfLsBox(x: bv32)
    ensures Bytes(LsBox(x)) == SubColumn(Bytes(x))
  {
    hide Bytes, Word, Fl, Xor, SubColumn;
    var b := Bytes(x);
    FlColumn(b, 0);
    XorZero(LsBox(x));
    AddZeroColumn(SubColumn(b));
  }

  lemma XorZero(x: bv32)
    ensures Xor(x, 0) == x
    ensures Bytes(0) == Column(0, 0, 0, 0)
  {
  }

  lemma AddZeroColumn(x: Column)
    ensures AddColumn(x, Column(0, 0, 0, 0)) == x
  {
  }

  /** The macro imix_col. */
  function ImixCol(x: bv32): bv32 {
    var u := StarX(x);
    var v := StarX(u);
    var w := StarX(v);
    var t := Xor(w, x);
    Xor(Xor(Xor(u, v), w), Xor(Xor(Ror8(Xor(u, t)), Ror16(Xor(v, t))), Ror24(t)))
  }

  /** A row of imix_col, from the doublings of the four bytes it reads. */
  lemma ImixRow(a: bv8, b: bv8, c: bv8, d: bv8)
    ensures var a2, b2, c2, d2 := XTime(a), XTime(b), XTime(c), XTime(d);
            var a4, b4, c4, d4 := XTime(a2), XTime(b2), XTime(c2), XTime(d2);
            var a8, b8, c8, d8 := XTime(a4), XTime(b4), XTime(c4), XTime(d4);
            Add(Add(Add(a2, a4), a8), Add(Add(Add(b2, Add(b8, b)), Add(c4, Add(c8, c))), Add(d8, d)))
            == Sum(Mul14(a), Mul11(b), Mul13(c), Mul9(d))
  {
    hide Add, XTime;
    var a2, b2, c2, d2 := XTime(a), XTime(b), XTime(c), XTime(d);
    var a4, b4, c4, d4 := XTime(a2), XTime(b2), XTime(c2), XTime(d2);
    var a8, b8, c8, d8 := XTime(a4), XTime(b4), XTime(c4), XTime(d4);
    AddCommutes(Add(a2, a4), a8);
    AddCommutes(a2, a4);
    AddAssociates(a8, a4, a2);
    assert Add(Add(a2, a4), a8) == Mul14(a);
    AddAssociates(b2, b8, b);
    AddCommutes(b2, b8);
    assert Add(b2, Add(b8, b)) == Mul11(b);
    AddAssociates(c4, c8, c);
    AddCommutes(c4, c8);
    assert Add(c4, Add(c8, c)) == Mul13(c);
    AddAssociates(Mul14(a), Add(Mul11(b), Mul13(c)), Mul9(d));
    AddAssociates(Mul14(a), Mul11(b), Mul13(c));
  }

  /** imix_col is InvMixColumns on the bytes of a word. */
  lemma BytesOfImixCol(x: bv32)
    ensures Bytes(ImixCol(x)) == InvMixColumn(Bytes(x))
  {
    hide Bytes, Xor, StarX, Ror8, Ror16, Ror24, Add, Sum, XTime, Mul9, Mul11, Mul13, Mul14;
    var u := StarX(x);
    var v := StarX(u);
    var w := StarX(v);
    var t := Xor(w, x);
    BytesOfStarX(x);
    BytesOfStarX(u);
    BytesOfStarX(v);
    BytesOfXor(w, x);
    BytesOfXor(u, v);
    BytesOfXor(Xor(u, v), w);
    BytesOfXor(u, t);
    BytesOfXor(v, t);
    BytesOfRor(Xor(u, t));
    BytesOfRor(Xor(v, t));
    BytesOfRor(t);
    BytesOfXor(Ror8(Xor(u, t)), Ror16(Xor(v, t)));
    BytesOfXor(Xor(Ror8(Xor(u, t)), Ror16(Xor(v, t))), Ror24(t));
    BytesOfXor(Xor(Xor(u, v), w), Xor(Xor(Ror8(Xor(u, t)), Ror16(Xor(v, t))), Ror24(t)));
    var b := Bytes(x);
    ImixRow(b.a, b.b, b.c, b.d);
    ImixRow(b.b, b.c, b.d, b.a);
    ImixRow(b.c, b.d, b.a, b.b);
    ImixRow(b.d, b.a, b.b, b.c);
    SumRotates(Mul9(b.a), Mul14(b.b), Mul11(b.c), Mul13(b.d));
    SumRotates(Mul13(b.a), Mul9(b.b), Mul14(b.c), Mul11(b.d));
    SumRotates(Mul9(b.b), Mul14(b.c), Mul11(b.d), Mul13(b.a));
    SumRotates(Mul11(b.a), Mul13(b.b), Mul9(b.c), Mul14(b.d));
    SumRotates(Mul13(b.b), Mul9(b.c), Mul14(b.d), Mul11(b.a));
    SumRotates(Mul9(b.c), Mul14(b.d), Mul11(b.a), Mul13(b.b));
  }
}
