/** Partial completion of a request (blk_update_request and req_bio_endio in
    borph/block/blk-core.c): completing `n` bytes is exactly dropping the first `n` bytes.
 */
module Completion {
  import opened BlockIo
  import opened Segments

  /** A byte of memory: page frame and offset. */
  type Cell = (nat, nat)

  ghost function VecCells(v: Vec): seq<Cell> {
    seq(v.len, i requires 0 <= i => (v.page, v.offset + i))
  }

  /** What a list of vectors denotes: the bytes it transfers, in order. */
  ghost function Cells(vs: seq<Vec>): seq<Cell> {
    if vs == [] then [] else Cells(vs[..|vs| - 1]) + VecCells(Last(vs))
  }

  lemma {:induction false} CellsConcat(a: seq<Vec>, b: seq<Vec>)
    ensures Cells(a + b) == Cells(a) + Cells(b)
    decreases |b|
  {
    if b == [] {
      assert a + b == a;
    } else {
      assert (a + b)[..|a + b| - 1] == a + b[..|b| - 1];
      CellsConcat(a, b[..|b| - 1]);
    }
  }

  lemma {:induction false} CellsLength(vs: seq<Vec>)
    ensures |Cells(vs)| == Bytes(vs)
    decreases |vs|
  {
    if vs != [] {
      CellsLength(vs[..|vs| - 1]);
    }
  }

  lemma Uncons(vs: seq<Vec>)
    requires vs != []
    ensures Bytes(vs) == vs[0].len + Bytes(vs[1..])
    ensures Cells(vs) == VecCells(vs[0]) + Cells(vs[1..])
  {
    assert vs == [vs[0]] + vs[1..];
    BytesConcat([vs[0]], vs[1..]);
    CellsConcat([vs[0]], vs[1..]);
    assert [vs[0]][..0] == [];
  }

  // ---------------------------------------------------------------------------------------
  // One bio
  // ---------------------------------------------------------------------------------------

  /** Step over `n` bytes: whole vectors first, then into the one that is left in part. */
  function Advance(vecs: seq<Vec>, idx: nat, n: nat): (seq<Vec>, nat)
    decreases |vecs| - idx
  {
    if idx >= |vecs| then (vecs, idx)
    else if n < vecs[idx].len then (vecs[idx := vecs[idx].(offset := vecs[idx].offset + n, len := vecs[idx].len - n)], idx)
    else Advance(vecs, idx + 1, n - vecs[idx].len)
  }

  /** The bio after `n` of its bytes were completed. */
  function Shrink(b: Bio, n: nat): Bio
    requires n <= b.size
  {
    var a := Advance(b.vecs, b.idx, n);
    b.(vecs := a.0, idx := a.1, size := b.size - n, sector := b.sector + n / 512)
  }

  lemma VecCellsDrop(v: Vec, n: nat)
    requires n <= v.len
    ensures |VecCells(v)| == v.len
    ensures VecCells(v.(offset := v.offset + n, len := v.len - n)) == VecCells(v)[n..]
  {
  }

  lemma BytesEmpty()
    ensures Bytes([]) == 0
  {
  }

  lemma {:induction false} AdvanceDrops(vecs: seq<Vec>, idx: nat, n: nat)
    requires idx < |vecs| && n < Bytes(vecs[idx..])
    requires forall i | 0 <= i < |vecs| :: vecs[i].len > 0
    ensures var a := Advance(vecs, idx, n);
            && |a.0| == |vecs| && idx <= a.1 < |vecs|
            && (forall i | 0 <= i < |vecs| :: a.0[i].len > 0)
            && Bytes(a.0[a.1..]) == Bytes(vecs[idx..]) - n
            && |Cells(vecs[idx..])| == Bytes(vecs[idx..])
            && Cells(a.0[a.1..]) == Cells(vecs[idx..])[n..]
    decreases |vecs| - idx
  {
    hide Bytes, Cells, VecCells;
    var live := vecs[idx..];
    var v := vecs[idx];
    Uncons(live);
    CellsLength(live);
    assert live[1..] == vecs[idx + 1..];
    if n < v.len {
      var w := v.(offset := v.offset + n, len := v.len - n);
      var rest := vecs[idx := w][idx..];
      Uncons(rest);
      assert rest[1..] == live[1..];
      VecCellsDrop(v, n);
      assert Cells(live)[n..] == VecCells(v)[n..] + Cells(live[1..]);
    } else {
      VecCellsDrop(v, 0);
      if vecs[idx + 1..] == [] {
        BytesEmpty();
        assert false;
      }
      AdvanceDrops(vecs, idx + 1, n - v.len);
      assert Cells(live)[n..] == Cells(live[1..])[n - v.len..];
    }
  }

  lemma ShrinkDrops(b: Bio, n: nat)
    requires b.Ok() && n < b.size
    ensures var c := Shrink(b, n);
            && c.Ok() && c.size == b.size - n && c.id == b.id
            && |Cells(b.Live())| == b.size
            && Cells(c.Live()) == Cells(b.Live())[n..]
  {
    AdvanceDrops(b.vecs, b.idx, n);
  }

  lemma LiveNonempty(b: Bio)
    requires b.Ok()
    ensures b.size > 0 && |Cells(b.Live())| == b.size
  {
    Uncons(b.Live());
    CellsLength(b.Live());
  }

  // ---------------------------------------------------------------------------------------
  // A chain of bios
  // ---------------------------------------------------------------------------------------

  ghost function SizeOf(bios: seq<Bio>): nat {
    if bios == [] then 0 else bios[0].size + SizeOf(bios[1..])
  }

  ghost function Data(bios: seq<Bio>): seq<Cell>
    requires BiosOk(bios)
  {
    if bios == [] then [] else Cells(bios[0].Live()) + Data(bios[1..])
  }

  ghost function Ids(bios: seq<Bio>): seq<nat> {
    seq(|bios|, i requires 0 <= i < |bios| => bios[i].id)
  }

  /** How many bios are completed by `n` bytes. */
  function Done(bios: seq<Bio>, n: nat): (k: nat)
    ensures k <= |bios|
  {
    if bios == [] || n < bios[0].size then 0 else 1 + Done(bios[1..], n - bios[0].size)
  }

  /** What is left of a chain after `n` bytes. */
  function Rest(bios: seq<Bio>, n: nat): seq<Bio>
    decreases |bios|
  {
    if bios == [] then []
    else if n >= bios[0].size then Rest(bios[1..], n - bios[0].size)
    else if n == 0 then bios
    else [Shrink(bios[0], n)] + bios[1..]
  }

  lemma {:induction false} DataLength(bios: seq<Bio>)
    requires BiosOk(bios)
    ensures |Data(bios)| == SizeOf(bios)
    ensures bios != [] ==> SizeOf(bios) > 0
  {
    if bios != [] {
      LiveNonempty(bios[0]);
      DataLength(bios[1..]);
    }
  }

  lemma VecsOfSingle(b: Bio)
    requires b.Ok()
    ensures VecsOf([b]) == b.Live()
  {
    assert [b][..0] == [];
  }

  lemma {:induction false} DataIsVecs(bios: seq<Bio>)
    requires BiosOk(bios)
    ensures Data(bios) == Cells(VecsOf(bios))
  {
    hide Bio.Ok, Bio.Live, Bytes;
    if bios != [] {
      DataIsVecs(bios[1..]);
      hide Cells;
      assert bios == [bios[0]] + bios[1..];
      VecsOfConcat([bios[0]], bios[1..]);
      VecsOfSingle(bios[0]);
      CellsConcat(bios[0].Live(), VecsOf(bios[1..]));
    }
  }

  function Min(a: nat, b: nat): nat {
    if a < b then a else b
  }

  lemma {:induction false} RestData(bios: seq<Bio>, n: nat)
    requires BiosOk(bios)
    ensures var r := Rest(bios, n);
            && BiosOk(r)
            && |Data(bios)| == SizeOf(bios)
            && Data(r) == Data(bios)[Min(n, SizeOf(bios))..]
            && (r == [] <==> n >= SizeOf(bios))
    decreases |bios|
  {
    hide Cells, Bytes, Shrink;
    DataLength(bios);
    if bios != [] {
      var b := bios[0];
      LiveNonempty(b);
      if n >= b.size {
        RestData(bios[1..], n - b.size);
        DropPast(Cells(b.Live()), Data(bios[1..]), Min(n, SizeOf(bios)));
      } else if n > 0 {
        ShrinkDrops(b, n);
        assert Rest(bios, n)[1..] == bios[1..];
        DropInto(Cells(b.Live()), Data(bios[1..]), n);
      }
    }
  }

  lemma {:induction false} RestIds(bios: seq<Bio>, n: nat)
    ensures Ids(Rest(bios, n)) == Ids(bios)[Done(bios, n)..]
    decreases |bios|
  {
    if bios != [] {
      if n >= bios[0].size {
        RestIds(bios[1..], n - bios[0].size);
        DropIds(bios, Done(bios[1..], n - bios[0].size));
      }
    }
  }

  /** Completing `n` bytes of a chain drops exactly the first `n` bytes of what it denotes; the
      bios that end are a prefix of the chain, and the rest stays well formed. */
  lemma RestDrops(bios: seq<Bio>, n: nat)
    requires BiosOk(bios)
    ensures var r := Rest(bios, n);
            var m := Min(n, SizeOf(bios));
            && BiosOk(r)
            && |Data(bios)| == SizeOf(bios)
            && Data(r) == Data(bios)[m..]
            && SizeOf(r) == SizeOf(bios) - m
            && (r == [] <==> n >= SizeOf(bios))
            && Ids(r) == Ids(bios)[Done(bios, n)..]
  {
    hide Data, SizeOf, Rest, Done, Ids;
    RestData(bios, n);
    RestIds(bios, n);
    DataLength(Rest(bios, n));
  }

  lemma DropIds(bios: seq<Bio>, k: nat)
    requires bios != [] && k < |bios|
    ensures Ids(bios)[1 + k..] == Ids(bios[1..])[k..]
  {
  }

  lemma DropPast(a: seq<Cell>, b: seq<Cell>, m: nat)
    requires |a| <= m <= |a| + |b|
    ensures (a + b)[m..] == b[m - |a|..]
  {
  }

  lemma DropInto(a: seq<Cell>, b: seq<Cell>, m: nat)
    requires m <= |a|
    ensures (a + b)[m..] == a[m..] + b
  {
  }

  // ---------------------------------------------------------------------------------------
  // A request
  // ---------------------------------------------------------------------------------------

  /** blk_update_request: `fs` says that the request has a meaningful sector. */
  function Update(q: Limits, r: Request, fs: bool, n: nat): Request
    requires BiosOk(r.bios) && r.dataLen == SizeOf(r.bios)
  {
    var left := Rest(r.bios, n);
    RestDrops(r.bios, n);
    if left == [] then r.(bios := [], dataLen := 0)
    else
      var c := Recalc(q, left);
      r.(bios := c.0, nrPhys := c.1, dataLen := r.dataLen - n,
         sector := if fs then r.sector + n / 512 else r.sector)
  }

  ghost predicate Sized(r: Request) {
    BiosOk(r.bios) && r.dataLen == SizeOf(r.bios)
  }

  lemma {:induction false} SameTransfersSameData(a: seq<Bio>, b: seq<Bio>)
    requires BiosOk(a) && SameTransfers(a, b)
    ensures BiosOk(b) && Data(a) == Data(b) && SizeOf(a) == SizeOf(b)
  {
    SameTransfersSameVecs(a, b);
    DataIsVecs(a);
    DataIsVecs(b);
    DataLength(a);
    DataLength(b);
  }

  lemma SameTransfersSameIds(a: seq<Bio>, b: seq<Bio>)
    requires SameTransfers(a, b)
    ensures Ids(a) == Ids(b)
  {
  }

  /** Updating a request by `n` bytes leaves exactly the suffix of its data, with a matching
      length and a sound segment count, and leaves nothing iff `n` covers the whole request. */
  lemma UpdateDrops(q: Limits, r: Request, fs: bool, n: nat)
    requires Sized(r)
    ensures var r' := Update(q, r, fs, n);
            && Sized(r')
            && (r'.bios == [] <==> n >= r.dataLen)
            && |Data(r.bios)| == r.dataLen
            && Data(r'.bios) == Data(r.bios)[Min(n, r.dataLen)..]
            && Ids(r'.bios) == Ids(r.bios)[Done(r.bios, n)..]
            && (r'.bios != [] ==> Counted(q, r'.bios, r'.nrPhys))
  {
    hide Rest, Data, Cells, Bytes, Recalc, Counted, SizeOf, Done;
    var left := Rest(r.bios, n);
    RestDrops(r.bios, n);
    if left != [] {
      RecalcCounts(q, left);
      var c := Recalc(q, left).0;
      SameTransfersSameData(left, c);
      SameTransfersSameIds(left, c);
    }
  }

  // ---------------------------------------------------------------------------------------
  // Runs of completions
  // ---------------------------------------------------------------------------------------

  ghost function UpdateAll(q: Limits, r: Request, fs: bool, ns: seq<nat>): Request
    requires Sized(r)
    decreases |ns|
  {
    if ns == [] then r
    else
      UpdateDrops(q, r, fs, ns[0]);
      UpdateAll(q, Update(q, r, fs, ns[0]), fs, ns[1..])
  }

  ghost function Total(ns: seq<nat>): nat {
    if ns == [] then 0 else ns[0] + Total(ns[1..])
  }

  /** The bios ended by each completion in turn. */
  ghost function EndedIds(q: Limits, r: Request, fs: bool, ns: seq<nat>): seq<nat>
    requires Sized(r)
    decreases |ns|
  {
    if ns == [] then []
    else
      UpdateDrops(q, r, fs, ns[0]);
      Ids(r.bios)[..Done(r.bios, ns[0])] + EndedIds(q, Update(q, r, fs, ns[0]), fs, ns[1..])
  }

  lemma SplitIds(ids: seq<nat>, k: nat, a: seq<nat>, b: seq<nat>)
    requires k <= |ids| && a + b == ids[k..]
    ensures ids[..k] + a + b == ids
  {
    assert ids[..k] + a + b == ids[..k] + (a + b);
  }

  lemma DropTwice<T>(d: seq<T>, m: nat, n: nat)
    ensures var rest := d[Min(m, |d|)..];
            rest[Min(n, |rest|)..] == d[Min(m + n, |d|)..]
  {
  }

  lemma {:induction false} DataRun(q: Limits, r: Request, fs: bool, ns: seq<nat>)
    requires Sized(r)
    ensures var r' := UpdateAll(q, r, fs, ns);
            && Sized(r')
            && |Data(r.bios)| == r.dataLen
            && Data(r'.bios) == Data(r.bios)[Min(Total(ns), r.dataLen)..]
    decreases |ns|
  {
    hide Update, Data, SizeOf, Done, Counted, Ids;
    DataLength(r.bios);
    if ns != [] {
      var r1 := Update(q, r, fs, ns[0]);
      UpdateDrops(q, r, fs, ns[0]);
      DataRun(q, r1, fs, ns[1..]);
      DropTwice(Data(r.bios), ns[0], Total(ns[1..]));
    }
  }

  lemma {:induction false} IdsRun(q: Limits, r: Request, fs: bool, ns: seq<nat>)
    requires Sized(r)
    ensures EndedIds(q, r, fs, ns) + Ids(UpdateAll(q, r, fs, ns).bios) == Ids(r.bios)
    decreases |ns|
  {
    if ns != [] {
      hide Update, Data, SizeOf, Done, Counted, Sized;
      var r1 := Update(q, r, fs, ns[0]);
      UpdateDrops(q, r, fs, ns[0]);
      IdsRun(q, r1, fs, ns[1..]);
      SplitIds(Ids(r.bios), Done(r.bios, ns[0]), EndedIds(q, r1, fs, ns[1..]), Ids(UpdateAll(q, r1, fs, ns[1..]).bios));
    }
  }

  /** Any sequence of completions drops its total: what remains is the uncompleted suffix, and the
      bios that ended, in order, followed by those that remain are the bios of the request -- so
      each bio ends at most once, and exactly once when nothing remains. */
  lemma CompletionRun(q: Limits, r: Request, fs: bool, ns: seq<nat>)
    requires Sized(r)
    ensures var r' := UpdateAll(q, r, fs, ns);
            var m := Min(Total(ns), r.dataLen);
            && Sized(r') && r'.dataLen == r.dataLen - m
            && |Data(r.bios)| == r.dataLen
            && Data(r'.bios) == Data(r.bios)[m..]
            && EndedIds(q, r, fs, ns) + Ids(r'.bios) == Ids(r.bios)
  {
    hide Data, SizeOf, Ids, UpdateAll, EndedIds;
    DataRun(q, r, fs, ns);
    IdsRun(q, r, fs, ns);
    DataLength(UpdateAll(q, r, fs, ns).bios);
  }

  lemma UpdateSector(q: Limits, r: Request, n: nat)
    requires Sized(r) && n < r.dataLen
    ensures var r' := Update(q, r, true, n);
            Sized(r') && r'.dataLen == r.dataLen - n && r'.sector == r.sector + n / 512
  {
    hide Rest, Recalc, Data, SizeOf;
    UpdateDrops(q, r, true, n);
  }

  lemma SectorsAdd(a: nat, b: nat)
    requires a % 512 == 0
    ensures (a + b) / 512 == a / 512 + b / 512
  {
  }

  /** For file system requests completed in whole sectors, the start sector moves with the data
      for as long as any of it remains. */
  lemma {:induction false} SectorRun(q: Limits, r: Request, ns: seq<nat>)
    requires Sized(r) && (forall i | 0 <= i < |ns| :: ns[i] % 512 == 0)
    requires Total(ns) < r.dataLen
    ensures UpdateAll(q, r, true, ns).sector == r.sector + Total(ns) / 512
    decreases |ns|
  {
    if ns != [] {
      hide Update, Sized, Data;
      var r1 := Update(q, r, true, ns[0]);
      UpdateSector(q, r, ns[0]);
      SectorRun(q, r1, ns[1..]);
      SectorsAdd(ns[0], Total(ns[1..]));
    }
  }
}
