/**
 * Key expansion, encryption and decryption of aes_generic.c, updating the context and the two
 * state buffers in place.
 */
module AesGeneric {
  import opened Aes
  import opened AesWords

  // ---------------------------------------------------------------------------------------
  // The key expansion of section 5.2 of FIPS-197
  // ---------------------------------------------------------------------------------------

  predicate KeySize(n: nat) {
    n == 16 || n == 24 || n == 32
  }

  function RconByte(i: nat): bv8
    requires i >= 1
  {
    if i == 1 then 1 else XTime(RconByte(i - 1))
  }

  function Temp(nk: nat, i: nat, prev: Column): Column
    requires nk in {4, 6, 8} && i >= nk
  {
    if i % nk == 0 then AddColumn(SubColumn(Rotate(prev)), Column(RconByte(i / nk), 0, 0, 0))
    else if nk > 6 && i % nk == 4 then SubColumn(prev)
    else prev
  }

  /** Word i of the expanded key. */
  function Schedule(key: seq<Column>, i: nat): Column
    requires |key| in {4, 6, 8}
  {
    if i < |key| then key[i]
    else AddColumn(Schedule(key, i - |key|), Temp(|key|, i, Schedule(key, i - 1)))
  }

  function KeyColumns(key: seq<bv8>): (c: seq<Column>)
    requires KeySize(|key|)
    ensures |c| in {4, 6, 8} && 4 * |c| == |key|
  {
    seq(|key| / 4, i requires 0 <= i < |key| / 4 => Column(key[4 * i], key[4 * i + 1], key[4 * i + 2], key[4 * i + 3]))
  }

  /** The round keys: Nr + 1 of them, Nr being 6 more than the number of key words. */
  function RoundKeys(key: seq<bv8>): (k: seq<State>)
    requires KeySize(|key|)
    ensures |k| == |key| / 4 + 7
  {
    var c := KeyColumns(key);
    seq(|key| / 4 + 7, r requires 0 <= r < |key| / 4 + 7 =>
      State(Schedule(c, 4 * r), Schedule(c, 4 * r + 1), Schedule(c, 4 * r + 2), Schedule(c, 4 * r + 3)))
  }

  function RcoTab(i: nat): bv32
    requires i < 10
  {
    [1, 2, 4, 8, 16, 32, 64, 128, 27, 54][i]
  }

  /** The table holds the powers of x that section 5.2 of FIPS-197 asks for. */
  lemma RcoTabIsRcon(i: nat)
    requires i < 10
    ensures Bytes(RcoTab(i)) == Column(RconByte(i + 1), 0, 0, 0)
  {
    hide XTime, Bytes;
    RconUnrolled();
    RcoBytes();
  }

  lemma RconUnrolled()
    ensures RconByte(1) == 1 && RconByte(2) == 2 && RconByte(3) == 4 && RconByte(4) == 8 && RconByte(5) == 16
    ensures RconByte(6) == 32 && RconByte(7) == 64 && RconByte(8) == 128 && RconByte(9) == 27 && RconByte(10) == 54
  {
    assert RconByte(2) == XTime(RconByte(1));
    assert RconByte(3) == XTime(RconByte(2));
    assert RconByte(4) == XTime(RconByte(3));
    assert RconByte(5) == XTime(RconByte(4));
    assert RconByte(6) == XTime(RconByte(5));
    assert RconByte(7) == XTime(RconByte(6));
    assert RconByte(8) == XTime(RconByte(7));
    assert RconByte(9) == XTime(RconByte(8));
  }

  lemma RcoBytes()
    ensures Bytes(1) == Column(1, 0, 0, 0) && Bytes(2) == Column(2, 0, 0, 0) && Bytes(4) == Column(4, 0, 0, 0)
    ensures Bytes(8) == Column(8, 0, 0, 0) && Bytes(16) == Column(16, 0, 0, 0) && Bytes(32) == Column(32, 0, 0, 0)
    ensures Bytes(64) == Column(64, 0, 0, 0) && Bytes(128) == Column(128, 0, 0, 0)
    ensures Bytes(27) == Column(27, 0, 0, 0) && Bytes(54) == Column(54, 0, 0, 0)
  {
  }

  // ---------------------------------------------------------------------------------------
  // Blocks
  // ---------------------------------------------------------------------------------------

  function Load(b: seq<bv8>, i: nat): bv32
    requires i + 4 <= |b|
  {
    Word(Column(b[i], b[i + 1], b[i + 2], b[i + 3]))
  }

  function Store(x: bv32): (b: seq<bv8>)
    ensures |b| == 4
  {
    var c := Bytes(x);
    [c.a, c.b, c.c, c.d]
  }

  function Block(b: seq<bv8>): State
    requires |b| == 16
  {
    State(Column(b[0], b[1], b[2], b[3]), Column(b[4], b[5], b[6], b[7]),
          Column(b[8], b[9], b[10], b[11]), Column(b[12], b[13], b[14], b[15]))
  }

  ghost function StateAt(a: array<bv32>, i: nat): State
    requires i + 4 <= a.Length
    reads a
  {
    State(Bytes(a[i]), Bytes(a[i + 1]), Bytes(a[i + 2]), Bytes(a[i + 3]))
  }

  // ---------------------------------------------------------------------------------------
  // Rounds on the buffers
  // ---------------------------------------------------------------------------------------

  method FRn(bo: array<bv32>, bi: array<bv32>, n: nat, k: bv32)
    requires bo != bi && bo.Length == bi.Length == 4 && n < 4
    modifies bo
    ensures forall m :: 0 <= m < 4 && m != n ==> bo[m] == old(bo[m])
    ensures Bytes(bo[n]) == AddColumn(MixColumn(SubColumn(Shifted(bi, n))), Bytes(k))
  {
    hide Bytes, Ft, Xor, AddColumn, MixColumn, SubColumn;
    var x := Column(Bytes(bi[n]).a, Bytes(bi[(n + 1) % 4]).b, Bytes(bi[(n + 2) % 4]).c, Bytes(bi[(n + 3) % 4]).d);
    bo[n] := Xor(Xor(Xor(Xor(Ft(0, x.a), Ft(1, x.b)), Ft(2, x.c)), Ft(3, x.d)), k);
    FtColumn(x, k);
  }

  ghost function Shifted(a: array<bv32>, n: nat): Column
    requires a.Length == 4 && n < 4
    reads a
  {
    Column(Bytes(a[n]).a, Bytes(a[(n + 1) % 4]).b, Bytes(a[(n + 2) % 4]).c, Bytes(a[(n + 3) % 4]).d)
  }

  ghost function InvShifted(a: array<bv32>, n: nat): Column
    requires a.Length == 4 && n < 4
    reads a
  {
    Column(Bytes(a[n]).a, Bytes(a[(n + 3) % 4]).b, Bytes(a[(n + 2) % 4]).c, Bytes(a[(n + 1) % 4]).d)
  }

  method FNround(bo: array<bv32>, bi: array<bv32>, k: array<bv32>, kp: nat) returns (next: nat)
    requires bo != bi && bo != k && bo.Length == bi.Length == 4 && kp + 4 <= k.Length
    modifies bo
    ensures next == kp + 4
    ensures StateAt(bo, 0) == AddRoundKey(MixColumns(ShiftRows(SubBytes(StateAt(bi, 0)))), StateAt(k, kp))
  {
    hide Bytes, AddColumn, MixColumn, SubColumn, AddRoundKey, MixColumns, SubBytes;
    RoundColumns(StateAt(bi, 0), StateAt(k, kp));
    FRn(bo, bi, 0, k[kp]);
    FRn(bo, bi, 1, k[kp + 1]);
    FRn(bo, bi, 2, k[kp + 2]);
    FRn(bo, bi, 3, k[kp + 3]);
    next := kp + 4;
  }

  /** The rounds of encryption, one output column at a time. */
  lemma RoundColumns(s: State, k: State)
    ensures AddRoundKey(MixColumns(ShiftRows(SubBytes(s))), k)
         == State(AddColumn(MixColumn(SubColumn(ShiftRows(s).c0)), k.c0), AddColumn(MixColumn(SubColumn(ShiftRows(s).c1)), k.c1),
                  AddColumn(MixColumn(SubColumn(ShiftRows(s).c2)), k.c2), AddColumn(MixColumn(SubColumn(ShiftRows(s).c3)), k.c3))
    ensures AddRoundKey(ShiftRows(SubBytes(s)), k)
         == State(AddColumn(SubColumn(ShiftRows(s).c0), k.c0), AddColumn(SubColumn(ShiftRows(s).c1), k.c1),
                  AddColumn(SubColumn(ShiftRows(s).c2), k.c2), AddColumn(SubColumn(ShiftRows(s).c3), k.c3))
  {
    hide ShiftRows, AddColumn, MixColumn, SubColumn;
    ShiftSub(s);
  }

  /** The rounds of decryption, one output column at a time. */
  lemma InvRoundColumns(s: State, k: State)
    ensures AddRoundKey(InvMixColumns(InvShiftRows(InvSubBytes(s))), k)
         == State(AddColumn(InvMixColumn(InvSubColumn(InvShiftRows(s).c0)), k.c0), AddColumn(InvMixColumn(InvSubColumn(InvShiftRows(s).c1)), k.c1),
                  AddColumn(InvMixColumn(InvSubColumn(InvShiftRows(s).c2)), k.c2), AddColumn(InvMixColumn(InvSubColumn(InvShiftRows(s).c3)), k.c3))
    ensures AddRoundKey(InvShiftRows(InvSubBytes(s)), k)
         == State(AddColumn(InvSubColumn(InvShiftRows(s).c0), k.c0), AddColumn(InvSubColumn(InvShiftRows(s).c1), k.c1),
                  AddColumn(InvSubColumn(InvShiftRows(s).c2), k.c2), AddColumn(InvSubColumn(InvShiftRows(s).c3), k.c3))
  {
    hide InvShiftRows, AddColumn, InvMixColumn, InvSubColumn;
    ShiftSub(s);
  }

  method FRl(bo: array<bv32>, bi: array<bv32>, n: nat, k: bv32)
    requires bo != bi && bo.Length == bi.Length == 4 && n < 4
    modifies bo
    ensures forall m :: 0 <= m < 4 && m != n ==> bo[m] == old(bo[m])
    ensures Bytes(bo[n]) == AddColumn(SubColumn(Shifted(bi, n)), Bytes(k))
  {
    hide Bytes, Fl, Xor, AddColumn, SubColumn;
    var x := Column(Bytes(bi[n]).a, Bytes(bi[(n + 1) % 4]).b, Bytes(bi[(n + 2) % 4]).c, Bytes(bi[(n + 3) % 4]).d);
    bo[n] := Xor(Xor(Xor(Xor(Fl(0, x.a), Fl(1, x.b)), Fl(2, x.c)), Fl(3, x.d)), k);
    FlColumn(x, k);
  }

  method FLround(bo: array<bv32>, bi: array<bv32>, k: array<bv32>, kp: nat)
    requires bo != bi && bo != k && bo.Length == bi.Length == 4 && kp + 4 <= k.Length
    modifies bo
    ensures StateAt(bo, 0) == AddRoundKey(ShiftRows(SubBytes(StateAt(bi, 0))), StateAt(k, kp))
  {
    hide Bytes, AddColumn, SubColumn, AddRoundKey, SubBytes;
    RoundColumns(StateAt(bi, 0), StateAt(k, kp));
    FRl(bo, bi, 0, k[kp]);
    FRl(bo, bi, 1, k[kp + 1]);
    FRl(bo, bi, 2, k[kp + 2]);
    FRl(bo, bi, 3, k[kp + 3]);
  }

  method IRn(bo: array<bv32>, bi: array<bv32>, n: nat, k: bv32)
    requires bo != bi && bo.Length == bi.Length == 4 && n < 4
    modifies bo
    ensures forall m :: 0 <= m < 4 && m != n ==> bo[m] == old(bo[m])
    ensures Bytes(bo[n]) == AddColumn(InvMixColumn(InvSubColumn(InvShifted(bi, n))), Bytes(k))
  {
    hide Bytes, It, Xor, AddColumn, InvMixColumn, InvSubColumn;
    var x := Column(Bytes(bi[n]).a, Bytes(bi[(n + 3) % 4]).b, Bytes(bi[(n + 2) % 4]).c, Bytes(bi[(n + 1) % 4]).d);
    bo[n] := Xor(Xor(Xor(Xor(It(0, x.a), It(1, x.b)), It(2, x.c)), It(3, x.d)), k);
    ItColumn(x, k);
  }

  method INround(bo: array<bv32>, bi: array<bv32>, k: array<bv32>, kp: nat) returns (next: nat)
    requires bo != bi && bo != k && bo.Length == bi.Length == 4 && kp + 4 <= k.Length
    modifies bo
    ensures next == kp + 4
    ensures StateAt(bo, 0) == AddRoundKey(InvMixColumns(InvShiftRows(InvSubBytes(StateAt(bi, 0)))), StateAt(k, kp))
  {
    hide Bytes, AddColumn, InvMixColumn, InvSubColumn, AddRoundKey, InvMixColumns, InvSubBytes;
    InvRoundColumns(StateAt(bi, 0), StateAt(k, kp));
    IRn(bo, bi, 0, k[kp]);
    IRn(bo, bi, 1, k[kp + 1]);
    IRn(bo, bi, 2, k[kp + 2]);
    IRn(bo, bi, 3, k[kp + 3]);
    next := kp + 4;
  }

  method IRl(bo: array<bv32>, bi: array<bv32>, n: nat, k: bv32)
    requires bo != bi && bo.Length == bi.Length == 4 && n < 4
    modifies bo
    ensures forall m :: 0 <= m < 4 && m != n ==> bo[m] == old(bo[m])
    ensures Bytes(bo[n]) == AddColumn(InvSubColumn(InvShifted(bi, n)), Bytes(k))
  {
    hide Bytes, Il, Xor, AddColumn, InvSubColumn;
    var x := Column(Bytes(bi[n]).a, Bytes(bi[(n + 3) % 4]).b, Bytes(bi[(n + 2) % 4]).c, Bytes(bi[(n + 1) % 4]).d);
    bo[n] := Xor(Xor(Xor(Xor(Il(0, x.a), Il(1, x.b)), Il(2, x.c)), Il(3, x.d)), k);
    IlColumn(x, k);
  }

  method ILround(bo: array<bv32>, bi: array<bv32>, k: array<bv32>, kp: nat)
    requires bo != bi && bo != k && bo.Length == bi.Length == 4 && kp + 4 <= k.Length
    modifies bo
    ensures StateAt(bo, 0) == AddRoundKey(InvShiftRows(InvSubBytes(StateAt(bi, 0))), StateAt(k, kp))
  {
    hide Bytes, AddColumn, InvSubColumn, AddRoundKey, InvSubBytes;
    InvRoundColumns(StateAt(bi, 0), StateAt(k, kp));
    IRl(bo, bi, 0, k[kp]);
    IRl(bo, bi, 1, k[kp + 1]);
    IRl(bo, bi, 2, k[kp + 2]);
    IRl(bo, bi, 3, k[kp + 3]);
  }

  // ---------------------------------------------------------------------------------------
  // The context
  // ---------------------------------------------------------------------------------------

  /** Where word i of the encryption schedule goes in the decryption schedule. */
  function Slot(keyLen: nat, i: nat): (j: nat)
    requires KeySize(keyLen) && i < keyLen + 28
    ensures j < keyLen + 28 && j % 4 == i % 4
    ensures 4 <= i < keyLen + 24 <==> 4 <= j < keyLen + 24
  {
    keyLen + 24 - (i - i % 4) + i % 4
  }

  lemma SlotReverses(keyLen: nat, r: nat, m: nat)
    requires KeySize(keyLen) && 4 * r < keyLen + 28 && m < 4
    ensures Slot(keyLen, 4 * r + m) == 4 * (keyLen / 4 + 6 - r) + m
  {
  }

  lemma SlotInjective(keyLen: nat, i: nat, j: nat)
    requires KeySize(keyLen) && i < keyLen + 28 && j < keyLen + 28
    requires Slot(keyLen, i) == Slot(keyLen, j)
    ensures i == j
  {
  }

  lemma RoundKeyAt(key: seq<bv8>, r: nat)
    requires KeySize(|key|) && r < |key| / 4 + 7
    ensures RoundKeys(key)[r] == State(Schedule(KeyColumns(key), 4 * r), Schedule(KeyColumns(key), 4 * r + 1),
                                       Schedule(KeyColumns(key), 4 * r + 2), Schedule(KeyColumns(key), 4 * r + 3))
  {
    hide Schedule, KeyColumns;
  }

  lemma ScheduleStep(c: seq<Column>, n: nat)
    requires |c| in {4, 6, 8} && n >= |c|
    ensures Schedule(c, n) == AddColumn(Schedule(c, n - |c|), Temp(|c|, n, Schedule(c, n - 1)))
  {
    hide AddColumn, Temp;
  }

  lemma AddColumnCommutes(x: Column, y: Column)
    ensures AddColumn(x, y) == AddColumn(y, x)
  {
    hide Add;
    AddCommutes(x.a, y.a);
    AddCommutes(x.b, y.b);
    AddCommutes(x.c, y.c);
    AddCommutes(x.d, y.d);
  }

  class Context {
    const keyEnc: array<bv32>
    const keyDec: array<bv32>
    var keyLength: nat

    constructor ()
      ensures keyEnc.Length == 60 && keyDec.Length == 60 && keyEnc != keyDec && fresh(keyEnc) && fresh(keyDec)
    {
      keyEnc := new bv32[60];
      keyDec := new bv32[60];
      keyLength := 0;
    }

    ghost predicate Shaped()
    {
      keyEnc.Length == 60 && keyDec.Length == 60 && keyEnc != keyDec
    }

    /** The first n words of key_enc are those of the key expansion. */
    ghost predicate Expanded(c: seq<Column>, n: nat)
      requires Shaped() && |c| in {4, 6, 8} && n <= 60
      reads keyEnc
    {
      forall j :: 0 <= j < n ==> Bytes(keyEnc[j]) == Schedule(c, j)
    }

    /** Both schedules of the given key are in place. */
    ghost predicate Ready(key: seq<bv8>)
      requires Shaped()
      reads this, keyEnc, keyDec
    {
      && KeySize(|key|)
      && keyLength == |key|
      && Keys(keyEnc, |key| / 4 + 7) == RoundKeys(key)
      && Reversed(RoundKeys(key), Keys(keyDec, |key| / 4 + 7))
    }

    /** The word that starts a period of the expansion: ror32, ls_box and a round constant. */
    method Head(nk: nat, n: nat, i: nat, t: bv32, ghost c: seq<Column>) returns (u: bv32)
      requires Shaped() && nk == |c| && |c| in {4, 6, 8} && nk <= n < 60 && i < 10
      requires n % nk == 0 && n / nk == i + 1
      requires Expanded(c, n) && t == keyEnc[n - 1]
      modifies keyEnc
      ensures Expanded(c, n + 1) && u == keyEnc[n]
    {
      hide Bytes, Schedule, LsBox, Ror8, Xor, RcoTab, RconByte, AddColumn, SubColumn;
      u := Ror8(t);
      u := Xor(LsBox(u), RcoTab(i));
      u := Xor(u, keyEnc[n - nk]);
      keyEnc[n] := u;
      ScheduleStep(c, n);
      RcoTabIsRcon(i);
      BytesOfRor(t);
      BytesOfLsBox(Ror8(t));
      BytesOfXor(LsBox(Ror8(t)), RcoTab(i));
      BytesOfXor(Xor(LsBox(Ror8(t)), RcoTab(i)), keyEnc[n - nk]);
      AddColumnCommutes(Bytes(keyEnc[n - nk]), Temp(nk, n, Bytes(t)));
    }

    /** A word inside a period: the previous word added to the one a period back. */
    method Next(nk: nat, n: nat, t: bv32, ghost c: seq<Column>) returns (u: bv32)
      requires Shaped() && nk == |c| && |c| in {4, 6, 8} && nk <= n < 60
      requires n % nk != 0 && (nk == 8 ==> n % nk != 4)
      requires Expanded(c, n) && t == keyEnc[n - 1]
      modifies keyEnc
      ensures Expanded(c, n + 1) && u == keyEnc[n]
    {
      hide Bytes, Schedule, Xor, AddColumn;
      u := Xor(t, keyEnc[n - nk]);
      keyEnc[n] := u;
      ScheduleStep(c, n);
      BytesOfXor(t, keyEnc[n - nk]);
      AddColumnCommutes(Bytes(keyEnc[n - nk]), Bytes(t));
    }

    /** The middle word of a period of a 256-bit key, which goes through ls_box again. */
    method Middle(n: nat, t: bv32, ghost c: seq<Column>) returns (u: bv32)
      requires Shaped() && |c| == 8 && 8 <= n < 60 && n % 8 == 4
      requires Expanded(c, n) && t == keyEnc[n - 1]
      modifies keyEnc
      ensures Expanded(c, n + 1) && u == keyEnc[n]
    {
      hide Bytes, Schedule, LsBox, Xor, AddColumn, SubColumn;
      u := Xor(keyEnc[n - 8], LsBox(t));
      keyEnc[n] := u;
      ScheduleStep(c, n);
      BytesOfLsBox(t);
      BytesOfXor(keyEnc[n - 8], LsBox(t));
    }

    method Loop4(i: nat, t: bv32, ghost c: seq<Column>) returns (u: bv32)
      requires Shaped() && |c| == 4 && i < 10
      requires Expanded(c, 4 * i + 4) && t == keyEnc[4 * i + 3]
      modifies keyEnc
      ensures Expanded(c, 4 * i + 8) && u == keyEnc[4 * i + 7]
    {
      hide Expanded;
      u := Head(4, 4 * i + 4, i, t, c);
      u := Next(4, 4 * i + 5, u, c);
      u := Next(4, 4 * i + 6, u, c);
      u := Next(4, 4 * i + 7, u, c);
    }

    method Loop6(i: nat, t: bv32, ghost c: seq<Column>) returns (u: bv32)
      requires Shaped() && |c| == 6 && i < 8
      requires Expanded(c, 6 * i + 6) && t == keyEnc[6 * i + 5]
      modifies keyEnc
      ensures Expanded(c, 6 * i + 12) && u == keyEnc[6 * i + 11]
    {
      hide Expanded;
      u := Head(6, 6 * i + 6, i, t, c);
      u := Next(6, 6 * i + 7, u, c);
      u := Next(6, 6 * i + 8, u, c);
      u := Next(6, 6 * i + 9, u, c);
      u := Next(6, 6 * i + 10, u, c);
      u := Next(6, 6 * i + 11, u, c);
    }

    method Loop8TopHalf(i: nat, t: bv32, ghost c: seq<Column>) returns (u: bv32)
      requires Shaped() && |c| == 8 && i < 7
      requires Expanded(c, 8 * i + 8) && t == keyEnc[8 * i + 7]
      modifies keyEnc
      ensures Expanded(c, 8 * i + 12) && u == keyEnc[8 * i + 11]
    {
      hide Expanded;
      u := Head(8, 8 * i + 8, i, t, c);
      u := Next(8, 8 * i + 9, u, c);
      u := Next(8, 8 * i + 10, u, c);
      u := Next(8, 8 * i + 11, u, c);
    }

    method Loop8(i: nat, t: bv32, ghost c: seq<Column>) returns (u: bv32)
      requires Shaped() && |c| == 8 && i < 6
      requires Expanded(c, 8 * i + 8) && t == keyEnc[8 * i + 7]
      modifies keyEnc
      ensures Expanded(c, 8 * i + 16) && u == keyEnc[8 * i + 15]
    {
      hide Expanded;
      u := Loop8TopHalf(i, t, c);
      u := Middle(8 * i + 12, u, c);
      u := Next(8, 8 * i + 13, u, c);
      u := Next(8, 8 * i + 14, u, c);
      u := Next(8, 8 * i + 15, u, c);
    }

    method LoadKey(inKey: seq<bv8>, i: nat)
      requires Shaped() && KeySize(|inKey|) && 4 * i < |inKey|
      requires Expanded(KeyColumns(inKey), i)
      modifies keyEnc
      ensures Expanded(KeyColumns(inKey), i + 1)
    {
      hide Bytes, Word;
      keyEnc[i] := Load(inKey, 4 * i);
      BytesOfWord(KeyColumns(inKey)[i]);
    }

    /** The first four words, which also end the decryption schedule. */
    method LoadFirst(inKey: seq<bv8>)
      requires Shaped() && KeySize(|inKey|)
      modifies keyEnc, keyDec
      ensures Expanded(KeyColumns(inKey), 4)
      ensures forall m :: 0 <= m < 4 ==> Bytes(keyDec[|inKey| + 24 + m]) == Schedule(KeyColumns(inKey), m)
    {
      hide Bytes, Schedule, KeyColumns;
      LoadKey(inKey, 0);
      LoadKey(inKey, 1);
      LoadKey(inKey, 2);
      LoadKey(inKey, 3);
      keyDec[|inKey| + 24] := keyEnc[0];
      keyDec[|inKey| + 25] := keyEnc[1];
      keyDec[|inKey| + 26] := keyEnc[2];
      keyDec[|inKey| + 27] := keyEnc[3];
    }

    /** The encryption schedule, in the period of each key size. */
    method ExpandEnc(inKey: seq<bv8>)
      requires Shaped() && KeySize(|inKey|) && Expanded(KeyColumns(inKey), 4)
      modifies keyEnc
      ensures Expanded(KeyColumns(inKey), |inKey| + 28)
    {
      hide Expanded, KeyColumns;
      ghost var c := KeyColumns(inKey);
      if |inKey| == 16 {
        var t := keyEnc[3];
        for i := 0 to 10
          invariant Expanded(c, 4 * i + 4) && t == keyEnc[4 * i + 3]
        {
          t := Loop4(i, t, c);
        }
      } else if |inKey| == 24 {
        LoadKey(inKey, 4);
        LoadKey(inKey, 5);
        var t := keyEnc[5];
        for i := 0 to 8
          invariant Expanded(c, 6 * i + 6) && t == keyEnc[6 * i + 5]
        {
          t := Loop6(i, t, c);
        }
        Shorter(c, 54, 52);
      } else {
        LoadKey(inKey, 4);
        LoadKey(inKey, 5);
        LoadKey(inKey, 6);
        LoadKey(inKey, 7);
        var t := keyEnc[7];
        for i := 0 to 6
          invariant Expanded(c, 8 * i + 8) && t == keyEnc[8 * i + 7]
        {
          t := Loop8(i, t, c);
        }
        t := Loop8TopHalf(6, t, c);
      }
    }

    /** The decryption schedule holds the right word in every slot that belongs to one of its first n sources. */
    ghost predicate Mixed(c: seq<Column>, keyLen: nat, n: nat)
      requires Shaped() && |c| in {4, 6, 8} && KeySize(keyLen) && n <= keyLen + 24
      reads keyDec
    {
      && (forall m :: 0 <= m < 4 ==> Bytes(keyDec[m]) == Schedule(c, keyLen + 24 + m))
      && (forall m :: 0 <= m < 4 ==> Bytes(keyDec[keyLen + 24 + m]) == Schedule(c, m))
      && (forall i :: 4 <= i < n ==> Bytes(keyDec[Slot(keyLen, i)]) == InvMixColumn(Schedule(c, i)))
    }

    method MixOne(i: nat, ghost c: seq<Column>)
      requires Shaped() && |c| in {4, 6, 8} && KeySize(keyLength) && 4 <= i < keyLength + 24
      requires Expanded(c, keyLength + 28) && Mixed(c, keyLength, i)
      modifies keyDec
      ensures Mixed(c, keyLength, i + 1)
    {
      hide Bytes, ImixCol, Schedule, InvMixColumn, Slot;
      var j := Slot(keyLength, i);
      assert keyDec[keyLength + 24 + 0] == keyDec[keyLength + 24];
      keyDec[j] := ImixCol(keyEnc[i]);
      BytesOfImixCol(keyEnc[i]);
      forall m | 4 <= m < i
        ensures Slot(keyLength, m) != j
      {
        if Slot(keyLength, m) == j {
          SlotInjective(keyLength, m, i);
        }
      }
    }

    method CopyLast(ghost c: seq<Column>)
      requires Shaped() && |c| in {4, 6, 8} && KeySize(keyLength) && Expanded(c, keyLength + 28)
      modifies keyDec
      ensures forall m :: 4 <= m < 60 ==> keyDec[m] == old(keyDec[m])
      ensures forall m :: 0 <= m < 4 ==> Bytes(keyDec[m]) == Schedule(c, keyLength + 24 + m)
    {
      hide Bytes, Schedule;
      keyDec[0] := keyEnc[keyLength + 24];
      keyDec[1] := keyEnc[keyLength + 25];
      keyDec[2] := keyEnc[keyLength + 26];
      keyDec[3] := keyEnc[keyLength + 27];
    }

    /** The decryption schedule: the two ends swapped, the rest through imix_col. */
    method ExpandDec(ghost c: seq<Column>)
      requires Shaped() && |c| in {4, 6, 8} && KeySize(keyLength) && Expanded(c, keyLength + 28)
      requires forall m :: 0 <= m < 4 ==> Bytes(keyDec[keyLength + 24 + m]) == Schedule(c, m)
      modifies keyDec
      ensures Mixed(c, keyLength, keyLength + 24)
    {
      hide Bytes, Schedule, InvMixColumn, Slot;
      CopyLast(c);
      hide Mixed, Expanded;
      for i := 4 to keyLength + 24
        invariant Mixed(c, keyLength, i)
      {
        MixOne(i, c);
      }
    }

    /**
     * crypto_aes_expand_key: refuses every other key length and changes nothing then, and
     * otherwise leaves the schedule of FIPS-197 and its reversal.
     */
    method ExpandKey(inKey: seq<bv8>) returns (err: bool)
      requires Shaped()
      modifies this, keyEnc, keyDec
      ensures err <==> !KeySize(|inKey|)
      ensures err ==> unchanged(this) && unchanged(keyEnc) && unchanged(keyDec)
      ensures !err ==> Ready(inKey)
    {
      hide Bytes, Schedule, KeyColumns, Expanded, Mixed, Reversed, Keys, RoundKeys;
      if !(|inKey| == 16 || |inKey| == 24 || |inKey| == 32) {
        return true;
      }
      keyLength := |inKey|;
      ghost var c := KeyColumns(inKey);
      LoadFirst(inKey);
      ExpandEnc(inKey);
      ExpandDec(c);
      EncReady(inKey, |inKey| / 4 + 7);
      DecReady(inKey);
      err := false;
    }

    lemma {:induction false} EncReady(key: seq<bv8>, n: nat)
      requires Shaped() && KeySize(|key|) && n <= |key| / 4 + 7
      requires Expanded(KeyColumns(key), |key| + 28)
      ensures Keys(keyEnc, n) == RoundKeys(key)[..n]
      ensures n == |key| / 4 + 7 ==> Keys(keyEnc, n) == RoundKeys(key)
    {
      hide Bytes, Schedule, KeyColumns, RoundKeys;
      if n > 0 {
        EncReady(key, n - 1);
        RoundKeyAt(key, n - 1);
        assert StateAt(keyEnc, 4 * (n - 1)) == RoundKeys(key)[n - 1];
      }
    }

    /** The schedule that the loop over imix_col leaves is the reversal that decryption needs. */
    lemma DecReady(key: seq<bv8>)
      requires Shaped() && KeySize(|key|)
      requires Mixed(KeyColumns(key), |key|, |key| + 24)
      ensures Reversed(RoundKeys(key), Keys(keyDec, |key| / 4 + 7))
    {
      hide Bytes, Schedule, KeyColumns, RoundKeys, InvMixColumn, InvMixColumns, Keys;
      var n := |key| / 4 + 7;
      RoundKeyAt(key, 0);
      RoundKeyAt(key, n - 1);
      KeyAt(keyDec, n, 0);
      KeyAt(keyDec, n, n - 1);
      assert 4 * (n - 1) == |key| + 24;
      forall r | 0 < r < n - 1
        ensures Keys(keyDec, n)[r] == InvMixColumns(RoundKeys(key)[n - 1 - r])
      {
        DecKeyAt(key, r);
      }
    }

    lemma MixedWord(key: seq<bv8>, r: nat, m: nat)
      requires Shaped() && KeySize(|key|) && 0 < r < |key| / 4 + 6 && m < 4
      requires Mixed(KeyColumns(key), |key|, |key| + 24)
      ensures Bytes(keyDec[4 * r + m]) == InvMixColumn(Schedule(KeyColumns(key), 4 * (|key| / 4 + 6 - r) + m))
    {
      hide Bytes, Schedule, KeyColumns, InvMixColumn, Slot;
      SlotReverses(|key|, |key| / 4 + 6 - r, m);
      assert 4 <= 4 * (|key| / 4 + 6 - r) + m < |key| + 24;
    }

    lemma DecKeyAt(key: seq<bv8>, r: nat)
      requires Shaped() && KeySize(|key|) && 0 < r < |key| / 4 + 6
      requires Mixed(KeyColumns(key), |key|, |key| + 24)
      ensures Keys(keyDec, |key| / 4 + 7)[r] == InvMixColumns(RoundKeys(key)[|key| / 4 + 6 - r])
    {
      hide Bytes, Schedule, KeyColumns, RoundKeys, InvMixColumn, Keys, Mixed;
      KeyAt(keyDec, |key| / 4 + 7, r);
      MixedWord(key, r, 0);
      MixedWord(key, r, 1);
      MixedWord(key, r, 2);
      MixedWord(key, r, 3);
      RoundKeyAt(key, |key| / 4 + 6 - r);
    }

    lemma Shorter(c: seq<Column>, n: nat, m: nat)
      requires Shaped() && |c| in {4, 6, 8} && m <= n <= 60 && Expanded(c, n)
      ensures Expanded(c, m)
    {
      hide Bytes, Schedule;
    }

    /** Under the two schedules of one key, decryption finds the only block that encrypts to its input. */
    lemma Inverts(key: seq<bv8>, s: State)
      requires Shaped() && Ready(key)
      ensures Cipher(RoundKeys(key), EqInvCipher(Keys(keyDec, |key| / 4 + 7), s)) == s
      ensures forall p :: Cipher(RoundKeys(key), p) == s ==> EqInvCipher(Keys(keyDec, |key| / 4 + 7), s) == p
    {
      hide Reversed, Keys, RoundKeys, Cipher, EqInvCipher;
      var dec := Keys(keyDec, |key| / 4 + 7);
      CipherInverse(RoundKeys(key), dec, s);
      forall p | Cipher(RoundKeys(key), p) == s
        ensures EqInvCipher(dec, s) == p
      {
        CipherInverse(RoundKeys(key), dec, p);
      }
    }

    lemma Opens(key: seq<bv8>)
      requires Shaped() && Ready(key)
      ensures KeySize(|key|) && |key| == keyLength && (keyLength == 16 || keyLength == 24 || keyLength == 32)
      ensures keyEnc.Length == 60 && keyDec.Length == 60
      ensures Keys(keyEnc, |key| / 4 + 7) == RoundKeys(key)
    {
      hide Reversed, Keys, RoundKeys;
    }

    method Encrypt(src: seq<bv8>, ghost key: seq<bv8>) returns (dst: seq<bv8>)
      requires Shaped() && Ready(key) && |src| == 16
      ensures |dst| == 16
      ensures Block(dst) == Cipher(RoundKeys(key), Block(src))
    {
      hide *;
      Opens(key);
      var b0, b1 := new bv32[4], new bv32[4];
      ghost var keys, s := Keys(keyEnc, |key| / 4 + 7), Block(src);
      FirstKeys(keyEnc, |keys|, s);
      Whiten(b0, src, keyEnc);
      var kp := 4;
      ghost var r := 1;
      if keyLength > 24 {
        kp := FPair(b0, b1, keyEnc, kp, |keys|, r, s);
        r := r + 2;
      }
      if keyLength > 16 {
        kp := FPair(b0, b1, keyEnc, kp, |keys|, r, s);
        r := r + 2;
      }
      kp := FPair(b0, b1, keyEnc, kp, |keys|, r, s);
      r := r + 2;
      kp := FPair(b0, b1, keyEnc, kp, |keys|, r, s);
      r := r + 2;
      kp := FPair(b0, b1, keyEnc, kp, |keys|, r, s);
      r := r + 2;
      kp := FPair(b0, b1, keyEnc, kp, |keys|, r, s);
      r := r + 2;
      FLast(b0, b1, keyEnc, kp, |keys|, s);
      dst := StoreBlock(b0);
    }

    method Decrypt(src: seq<bv8>, ghost key: seq<bv8>) returns (dst: seq<bv8>)
      requires Shaped() && Ready(key) && |src| == 16
      ensures |dst| == 16
      ensures Block(dst) == EqInvCipher(Keys(keyDec, |key| / 4 + 7), Block(src))
      ensures Cipher(RoundKeys(key), Block(dst)) == Block(src)
      ensures forall p :: Cipher(RoundKeys(key), p) == Block(src) ==> Block(dst) == p
    {
      hide *;
      Opens(key);
      Inverts(key, Block(src));
      var b0, b1 := new bv32[4], new bv32[4];
      ghost var keys, s := Keys(keyDec, |key| / 4 + 7), Block(src);
      FirstKeys(keyDec, |keys|, s);
      Whiten(b0, src, keyDec);
      var kp := 4;
      ghost var r := 1;
      if keyLength > 24 {
        kp := IPair(b0, b1, keyDec, kp, |keys|, r, s);
        r := r + 2;
      }
      if keyLength > 16 {
        kp := IPair(b0, b1, keyDec, kp, |keys|, r, s);
        r := r + 2;
      }
      kp := IPair(b0, b1, keyDec, kp, |keys|, r, s);
      r := r + 2;
      kp := IPair(b0, b1, keyDec, kp, |keys|, r, s);
      r := r + 2;
      kp := IPair(b0, b1, keyDec, kp, |keys|, r, s);
      r := r + 2;
      kp := IPair(b0, b1, keyDec, kp, |keys|, r, s);
      r := r + 2;
      ILast(b0, b1, keyDec, kp, |keys|, s);
      dst := StoreBlock(b0);
    }
  }

  /** The round keys held in the first 4 * n words of a schedule. */
  ghost function Keys(a: array<bv32>, n: nat): (k: seq<State>)
    requires 4 * n <= a.Length
    reads a
    ensures |k| == n
  {
    if n == 0 then [] else Keys(a, n - 1) + [StateAt(a, 4 * (n - 1))]
  }

  lemma {:induction false} KeyAt(a: array<bv32>, n: nat, r: nat)
    requires 4 * n <= a.Length && r < n
    ensures Keys(a, n)[r] == StateAt(a, 4 * r)
  {
    hide StateAt;
    if r < n - 1 {
      KeyAt(a, n - 1, r);
    }
  }

  lemma FirstKeys(a: array<bv32>, n: nat, s: State)
    requires 4 * n <= a.Length && n >= 1
    ensures Rounds(Keys(a, n), s, 0) == AddRoundKey(s, StateAt(a, 0))
    ensures InvRounds(Keys(a, n), s, 0) == AddRoundKey(s, StateAt(a, 0))
  {
    hide StateAt, AddRoundKey;
    KeyAt(a, n, 0);
  }

  lemma RoundsStep(keys: seq<State>, s: State, r: nat)
    requires 0 < r < |keys|
    ensures Rounds(keys, s, r) == AddRoundKey(MixColumns(ShiftRows(SubBytes(Rounds(keys, s, r - 1)))), keys[r])
    ensures InvRounds(keys, s, r) == AddRoundKey(InvMixColumns(InvShiftRows(InvSubBytes(InvRounds(keys, s, r - 1)))), keys[r])
  {
    hide AddRoundKey, MixColumns, ShiftRows, SubBytes, InvMixColumns, InvShiftRows, InvSubBytes;
  }

  lemma CipherEnds(keys: seq<State>, s: State)
    requires |keys| >= 2
    ensures Cipher(keys, s) == AddRoundKey(ShiftRows(SubBytes(Rounds(keys, s, |keys| - 2))), keys[|keys| - 1])
    ensures EqInvCipher(keys, s) == AddRoundKey(InvShiftRows(InvSubBytes(InvRounds(keys, s, |keys| - 2))), keys[|keys| - 1])
  {
    hide AddRoundKey, ShiftRows, SubBytes, Rounds, InvShiftRows, InvSubBytes, InvRounds;
  }

  /** Two rounds of encryption, through the second buffer and back. */
  method FPair(b0: array<bv32>, b1: array<bv32>, k: array<bv32>, kp: nat, ghost n: nat, ghost r: nat, ghost s: State) returns (next: nat)
    requires b0 != b1 && b0 != k && b1 != k && b0.Length == b1.Length == 4
    requires 4 * n <= k.Length && kp == 4 * r && 0 < r <= n - 2
    requires StateAt(b0, 0) == Rounds(Keys(k, n), s, r - 1)
    modifies b0, b1
    ensures next == kp + 8
    ensures StateAt(b0, 0) == Rounds(Keys(k, n), s, r + 1)
  {
    hide *;
    KeyAt(k, n, r);
    KeyAt(k, n, r + 1);
    RoundsStep(Keys(k, n), s, r);
    RoundsStep(Keys(k, n), s, r + 1);
    next := FNround(b1, b0, k, kp);
    next := FNround(b0, b1, k, next);
  }

  /** Two rounds of decryption, through the second buffer and back. */
  method IPair(b0: array<bv32>, b1: array<bv32>, k: array<bv32>, kp: nat, ghost n: nat, ghost r: nat, ghost s: State) returns (next: nat)
    requires b0 != b1 && b0 != k && b1 != k && b0.Length == b1.Length == 4
    requires 4 * n <= k.Length && kp == 4 * r && 0 < r <= n - 2
    requires StateAt(b0, 0) == InvRounds(Keys(k, n), s, r - 1)
    modifies b0, b1
    ensures next == kp + 8
    ensures StateAt(b0, 0) == InvRounds(Keys(k, n), s, r + 1)
  {
    hide *;
    KeyAt(k, n, r);
    KeyAt(k, n, r + 1);
    RoundsStep(Keys(k, n), s, r);
    RoundsStep(Keys(k, n), s, r + 1);
    next := INround(b1, b0, k, kp);
    next := INround(b0, b1, k, next);
  }

  /** The last full round and the final one. */
  method FLast(b0: array<bv32>, b1: array<bv32>, k: array<bv32>, kp: nat, ghost n: nat, ghost s: State)
    requires b0 != b1 && b0 != k && b1 != k && b0.Length == b1.Length == 4
    requires 4 * n <= k.Length && kp == 4 * (n - 2) && 3 <= n
    requires StateAt(b0, 0) == Rounds(Keys(k, n), s, n - 3)
    modifies b0, b1
    ensures StateAt(b0, 0) == Cipher(Keys(k, n), s)
  {
    hide *;
    KeyAt(k, n, n - 2);
    KeyAt(k, n, n - 1);
    RoundsStep(Keys(k, n), s, n - 2);
    CipherEnds(Keys(k, n), s);
    var next := FNround(b1, b0, k, kp);
    FLround(b0, b1, k, next);
  }

  /** The last full round of decryption and the final one. */
  method ILast(b0: array<bv32>, b1: array<bv32>, k: array<bv32>, kp: nat, ghost n: nat, ghost s: State)
    requires b0 != b1 && b0 != k && b1 != k && b0.Length == b1.Length == 4
    requires 4 * n <= k.Length && kp == 4 * (n - 2) && 3 <= n
    requires StateAt(b0, 0) == InvRounds(Keys(k, n), s, n - 3)
    modifies b0, b1
    ensures StateAt(b0, 0) == EqInvCipher(Keys(k, n), s)
  {
    hide *;
    KeyAt(k, n, n - 2);
    KeyAt(k, n, n - 1);
    RoundsStep(Keys(k, n), s, n - 2);
    CipherEnds(Keys(k, n), s);
    var next := INround(b1, b0, k, kp);
    ILround(b0, b1, k, next);
  }

  method StoreBlock(b: array<bv32>) returns (dst: seq<bv8>)
    requires b.Length == 4
    ensures |dst| == 16
    ensures Block(dst) == StateAt(b, 0)
  {
    hide Bytes;
    dst := Store(b[0]) + Store(b[1]) + Store(b[2]) + Store(b[3]);
  }

  /** The first key addition, on the words loaded from the input. */
  method Whiten(b: array<bv32>, src: seq<bv8>, k: array<bv32>)
    requires b != k && b.Length == 4 && k.Length >= 4 && |src| == 16
    modifies b
    ensures StateAt(b, 0) == AddRoundKey(Block(src), StateAt(k, 0))
  {
    hide Bytes, Word, Xor, AddColumn;
    b[0] := Xor(Load(src, 0), k[0]);
    b[1] := Xor(Load(src, 4), k[1]);
    b[2] := Xor(Load(src, 8), k[2]);
    b[3] := Xor(Load(src, 12), k[3]);
    BytesOfXor(Load(src, 0), k[0]);
    BytesOfXor(Load(src, 4), k[1]);
    BytesOfXor(Load(src, 8), k[2]);
    BytesOfXor(Load(src, 12), k[3]);
    BytesOfWord(Column(src[0], src[1], src[2], src[3]));
    BytesOfWord(Column(src[4], src[5], src[6], src[7]));
    BytesOfWord(Column(src[8], src[9], src[10], src[11]));
    BytesOfWord(Column(src[12], src[13], src[14], src[15]));
  }
}
