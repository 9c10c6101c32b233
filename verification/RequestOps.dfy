/** Requests as the source keeps them: fields updated in place by the loops of
    borph/block/blk-merge.c and borph/block/blk-core.c.  The chain of bios is the field `bios`.
 */
module RequestOps {
  import opened BlockIo
  import opened Segments
  import opened Completion
  import opened Merging
  import opened Options

  /** A scatterlist entry. */
  datatype Entry = Entry(page: nat, offset: nat, length: nat)

  ghost function EntryOf(seg: seq<Vec>): Entry
    requires seg != []
  {
    Entry(seg[0].page, seg[0].offset, Bytes(seg))
  }

  lemma PackStep(q: Limits, strict: bool, vs: seq<Vec>, v: Vec)
    ensures var p := Pack(q, strict, vs);
            Pack(q, strict, vs + [v]) ==
              if p != [] && Last(p) != [] && CanJoin(q, strict, Last(p), v) then p[|p| - 1 := Last(p) + [v]]
              else p + [[v]]
  {
    assert (vs + [v])[..|vs|] == vs;
  }

  lemma BytesStep(vs: seq<Vec>, v: Vec)
    ensures Bytes(vs + [v]) == Bytes(vs) + v.len
  {
    assert (vs + [v])[..|vs|] == vs;
  }

  /** The last vector of the last segment is the last vector. */
  lemma PackEnds(q: Limits, strict: bool, vs: seq<Vec>)
    requires vs != []
    ensures var p := Pack(q, strict, vs);
            p != [] && Last(p) != [] && Last(Last(p)) == Last(vs)
  {
  }

  lemma VecsOfStep(bios: seq<Bio>, i: nat)
    requires AllUsable(bios) && i < |bios|
    ensures VecsOf(bios[..i + 1]) == VecsOf(bios[..i]) + bios[i].vecs[bios[i].idx..]
  {
    assert bios[..i + 1][..i] == bios[..i];
  }

  /** The counters of the recount loop after the vectors `vs`. */
  ghost predicate Recounting(q: Limits, vs: seq<Vec>, front0: nat, c: Counters) {
    var p := Pack(q, true, vs);
    && c.nr == |p|
    && (c.nr == 0 ==> vs == [] && c.highprv && c.segSize == 0)
    && (c.nr > 0 ==> vs != [] && c.segSize == Bytes(Last(p)) && c.prev == Last(vs) && c.highprv == High(q, c.prev))
    && c.front == if c.nr >= 2 then Max(front0, Bytes(p[0])) else front0
  }

  lemma RecountingStep(q: Limits, vs: seq<Vec>, front0: nat, c: Counters, v: Vec)
    requires Recounting(q, vs, front0, c)
    ensures var join := !High(q, v) && !c.highprv && q.cluster && c.segSize + v.len <= q.maxSegmentSize && q.joins(c.prev, v);
            Recounting(q, vs + [v], front0,
                       if join then c.(segSize := c.segSize + v.len, prev := v)
                       else Counters(c.nr + 1, v.len, v, High(q, v), if c.nr == 1 && c.segSize > c.front then c.segSize else c.front))
  {
    hide Bytes, Pack;
    PackStep(q, true, vs, v);
    BytesStep([], v);
    assert [] + [v] == [v];
    BytesNone();
    if vs != [] {
      PackEnds(q, true, vs);
      var p := Pack(q, true, vs);
      BytesStep(Last(p), v);
    }
  }

  lemma BytesNone()
    ensures Bytes([]) == 0
  {
  }

  /** The counters of the recount. */
  datatype Counters = Counters(nr: nat, segSize: nat, prev: Vec, highprv: bool, front: nat)

  /** The inner loop of __blk_recalc_rq_segments: the vectors of one bio. */
  method RecountVecs(q: Limits, b: Bio, c: Counters, ghost done: seq<Vec>, ghost front0: nat) returns (d: Counters)
    requires Usable(b) && Recounting(q, done, front0, c)
    ensures Recounting(q, done + b.Live(), front0, d)
  {
    hide Bytes, Pack, Recounting;
    d := c;
    var j := b.idx;
    assert done + b.vecs[b.idx..j] == done;
    while j < |b.vecs|
      invariant b.idx <= j <= |b.vecs|
      invariant Recounting(q, done + b.vecs[b.idx..j], front0, d)
    {
      var v := b.vecs[j];
      var high := v.page > q.bouncePfn;
      RecountingStep(q, done + b.vecs[b.idx..j], front0, d, v);
      assert done + b.vecs[b.idx..j + 1] == done + b.vecs[b.idx..j] + [v];
      if !high && !d.highprv && q.cluster
         && d.segSize + v.len <= q.maxSegmentSize && q.joins(d.prev, v)
      {
        d := d.(segSize := d.segSize + v.len, prev := v);
      } else {
        if d.nr == 1 && d.segSize > d.front {
          d := d.(front := d.segSize);
        }
        d := Counters(d.nr + 1, v.len, v, high, d.front);
      }
      j := j + 1;
    }
    assert b.vecs[b.idx..j] == b.Live();
  }

  /** __blk_recalc_rq_segments: walk all vectors of all bios, counting greedily. */
  method RecalcSegments(q: Limits, bios: seq<Bio>) returns (out: seq<Bio>, nr: nat)
    requires AllUsable(bios)
    ensures (out, nr) == Recalc(q, bios)
  {
    hide Bytes, Pack, Recounting, RaiseFront, RaiseBack, VecsOf;
    ghost var front0 := bios[0].segFront;
    var c := Counters(0, 0, bios[0].vecs[0], true, bios[0].segFront);
    RecountingStart(q, front0, c.prev);
    VecsOfNone();
    assert bios[..0] == [];
    for i := 0 to |bios|
      invariant Recounting(q, VecsOf(bios[..i]), front0, c)
    {
      c := RecountVecs(q, bios[i], c, VecsOf(bios[..i]), front0);
      VecsOfStep(bios, i);
    }
    assert bios[..|bios|] == bios;
    VecsNonempty(bios);
    RecountingEnd(q, VecsOf(bios), front0, c);
    nr := c.nr;
    var front := if nr == 1 && c.segSize > c.front then c.segSize else c.front;
    out := StoreCaches(bios, front, c.segSize);
    assert front == Max(front0, Bytes(Pack(q, true, VecsOf(bios))[0]));
  }

  lemma VecsOfNone()
    ensures VecsOf([]) == []
  {
  }

  /** The assignments at the end of the recount. */
  method StoreCaches(bios: seq<Bio>, front: nat, back: nat) returns (out: seq<Bio>)
    requires bios != []
    ensures forall n | front == Max(bios[0].segFront, n) :: out == RaiseBack(RaiseFront(bios, n), back)
  {
    out := bios[0 := bios[0].(segFront := front)];
    var bbio := out[|out| - 1];
    if back > bbio.segBack {
      out := out[|out| - 1 := bbio.(segBack := back)];
    } else {
      assert out == out[|out| - 1 := bbio];
    }
  }

  lemma RecountingStart(q: Limits, front0: nat, prev: Vec)
    ensures Recounting(q, [], front0, Counters(0, 0, prev, true, front0))
  {
  }

  lemma RecountingEnd(q: Limits, vs: seq<Vec>, front0: nat, c: Counters)
    requires vs != [] && Recounting(q, vs, front0, c)
    ensures var p := Pack(q, true, vs);
            && c.nr == |p| > 0
            && c.segSize == Bytes(Last(p))
            && (if c.nr == 1 && c.segSize > c.front then c.segSize else c.front) == Max(front0, Bytes(p[0]))
  {
    hide Bytes, Pack;
  }

  /** blk_recount_segments: the bio on its own. */
  method RecountSegments(q: Limits, b: Bio) returns (c: Bio)
    requires Usable(b)
    ensures c == RecountBio(q, b)
  {
    var out, nr := RecalcSegments(q, [b]);
    c := out[0].(physSegs := nr, segValid := true);
  }

  /** The entries of the mapping loop after the vectors `vs`. */
  ghost predicate Mapping(q: Limits, vs: seq<Vec>, sg: seq<Entry>, prev: Vec) {
    var p := Pack(q, false, vs);
    && |sg| == |p|
    && (forall i | 0 <= i < |sg| :: p[i] != [] && sg[i] == EntryOf(p[i]))
    && (vs == [] <==> sg == [])
    && (vs != [] ==> prev == Last(vs))
  }

  lemma MappingStart(q: Limits, prev: Vec)
    ensures Mapping(q, [], [], prev)
  {
  }

  lemma MappingStep(q: Limits, vs: seq<Vec>, sg: seq<Entry>, prev: Vec, v: Vec)
    requires Mapping(q, vs, sg, prev)
    ensures var join := |sg| > 0 && q.cluster && sg[|sg| - 1].length + v.len <= q.maxSegmentSize && q.joins(prev, v);
            if join then Mapping(q, vs + [v], sg[|sg| - 1 := Last(sg).(length := Last(sg).length + v.len)], v)
            else Mapping(q, vs + [v], sg + [Entry(v.page, v.offset, v.len)], v)
  {
    hide Bytes, Pack;
    PackStep(q, false, vs, v);
    BytesStep([], v);
    assert [] + [v] == [v];
    BytesNone();
    if vs != [] {
      PackEnds(q, false, vs);
      BytesStep(Last(Pack(q, false, vs)), v);
    }
  }

  /** The vectors of one bio: the inner loop of blk_rq_map_sg. */
  method MapBio(q: Limits, b: Bio, sg0: seq<Entry>, prev0: Vec, ghost done: seq<Vec>) returns (sg: seq<Entry>, prev: Vec)
    requires Usable(b) && Mapping(q, done, sg0, prev0)
    ensures Mapping(q, done + b.vecs[b.idx..], sg, prev)
  {
    hide Pack, Mapping;
    sg, prev := sg0, prev0;
    var j := b.idx;
    assert done + b.vecs[b.idx..j] == done;
    while j < |b.vecs|
      invariant b.idx <= j <= |b.vecs|
      invariant Mapping(q, done + b.vecs[b.idx..j], sg, prev)
    {
      var v := b.vecs[j];
      MappingStep(q, done + b.vecs[b.idx..j], sg, prev, v);
      assert done + b.vecs[b.idx..j + 1] == done + b.vecs[b.idx..j] + [v];
      if |sg| > 0 && q.cluster
         && sg[|sg| - 1].length + v.len <= q.maxSegmentSize && q.joins(prev, v)
      {
        var last := sg[|sg| - 1];
        sg := sg[|sg| - 1 := last.(length := last.length + v.len)];
      } else {
        sg := sg + [Entry(v.page, v.offset, v.len)];
      }
      prev := v;
      j := j + 1;
    }
    assert b.vecs[b.idx..j] == b.vecs[b.idx..];
  }

  function Padded(e: Entry, n: nat): Entry {
    e.(length := e.length + n)
  }

  /** What brings the bytes of a request that was copied from user space up to the alignment. */
  function PadLen(copyUser: bool, bytes: nat, align: nat): (n: nat)
    requires align > 0
    ensures n < align && (copyUser ==> (bytes + n) % align == 0)
  {
    if copyUser && bytes % align != 0 then
      PadFits(bytes, align);
      align - bytes % align
    else 0
  }

  lemma PadFits(bytes: nat, align: nat)
    requires align > 0
    ensures (bytes + (align - bytes % align)) % align == 0
  {
    RemainderUnique(bytes + (align - bytes % align), bytes / align + 1, align);
  }

  lemma RemainderUnique(x: nat, k: nat, n: nat)
    requires n > 0 && x == k * n
    ensures x % n == 0
  {
    SameMultiple(k, x / n, x % n, n);
  }

  lemma SameMultiple(k: nat, d: nat, r: nat, n: nat)
    requires r < n && k * n == d * n + r
    ensures r == 0
  {
    if k > d {
      MulMono(n, d + 1, k);
    } else {
      MulMono(n, k, d);
    }
  }

  lemma MulMono(a: nat, x: nat, y: nat)
    requires x <= y
    ensures x * a <= y * a
  {
  }

  lemma VecsOfSome(bios: seq<Bio>)
    requires AllUsable(bios)
    ensures VecsOf(bios) != []
  {
  }

  lemma MappingEnd(q: Limits, vs: seq<Vec>, sg: seq<Entry>, prev: Vec)
    requires Mapping(q, vs, sg, prev)
    ensures var p := Pack(q, false, vs);
            |sg| == |p| && forall i | 0 <= i < |sg| :: p[i] != [] && sg[i] == EntryOf(p[i])
  {
    hide Bytes, Pack;
  }

  // ---------------------------------------------------------------------------------------
  // The completion loop
  // ---------------------------------------------------------------------------------------

  /** `k` whole vectors of the bio, `d` bytes, have been walked; `nr` bytes are still to go, and
      they end within the bio. */
  ghost predicate InBio(b: Bio, nr: nat, k: nat, d: nat) {
    && b.idx + k < |b.vecs| && nr + d < b.size
    && d == Bytes(b.vecs[b.idx..b.idx + k])
    && Advance(b.vecs, b.idx, nr + d) == Advance(b.vecs, b.idx + k, nr)
  }

  /** The state of the loop: what is left of `all` after `n` bytes is what will be left of `bios`
      once the bytes walked in its first bio and those still to go are taken off. */
  ghost predicate Walk(all: seq<Bio>, n: nat, bios: seq<Bio>, ended: seq<nat>, nr: nat, k: nat, d: nat) {
    && |bios| <= |all| && BiosOk(all)
    && var i := |all| - |bios|;
    && bios == all[i..] && ended == Ids(all)[..i]
    && Rest(all, n) == Rest(bios, nr + d) && Done(all, n) == i + Done(bios, nr + d)
    && (k == 0 ==> d == 0)
    && (k > 0 ==> bios != [] && InBio(bios[0], nr, k, d))
  }

  lemma WalkStart(all: seq<Bio>, n: nat)
    requires BiosOk(all)
    ensures Walk(all, n, all, [], n, 0, 0)
  {
  }

  lemma WalkBio(all: seq<Bio>, n: nat, bios: seq<Bio>, ended: seq<nat>, nr: nat, k: nat, d: nat)
    requires Walk(all, n, bios, ended, nr, k, d) && bios != [] && nr >= bios[0].size
    ensures k == 0 && Walk(all, n, bios[1..], ended + [bios[0].id], nr - bios[0].size, 0, 0)
  {
    hide Bytes, Shrink;
    var i := |all| - |bios|;
    assert all[i..][1..] == all[i + 1..];
    assert Ids(all)[..i + 1] == Ids(all)[..i] + [bios[0].id];
  }

  lemma WalkVec(all: seq<Bio>, n: nat, bios: seq<Bio>, ended: seq<nat>, nr: nat, k: nat, d: nat)
    requires Walk(all, n, bios, ended, nr, k, d) && bios != [] && nr < bios[0].size
    ensures InBio(bios[0], nr, k, d)
    ensures var len := bios[0].vecs[bios[0].idx + k].len;
            len > 0 && (nr >= len ==> Walk(all, n, bios, ended, nr - len, k + 1, d + len))
  {
    hide Rest, Done, Ids;
    var b := bios[0];
    assert b == all[|all| - |bios|];
    if k == 0 {
      assert b.vecs[b.idx..b.idx] == [];
    }
    var v := b.vecs[b.idx + k];
    if nr >= v.len {
      InBioStep(b, nr, k, d);
    }
  }

  lemma WholeLive(b: Bio)
    requires b.Ok()
    ensures Bytes(b.vecs[b.idx..|b.vecs|]) == b.size
  {
    assert b.vecs[b.idx..|b.vecs|] == b.Live();
  }

  lemma AdvanceStep(vecs: seq<Vec>, idx: nat, n: nat)
    requires idx < |vecs| && n >= vecs[idx].len
    ensures Advance(vecs, idx, n) == Advance(vecs, idx + 1, n - vecs[idx].len)
  {
  }

  lemma InBioStep(b: Bio, nr: nat, k: nat, d: nat)
    requires b.Ok() && InBio(b, nr, k, d) && nr >= b.vecs[b.idx + k].len
    ensures InBio(b, nr - b.vecs[b.idx + k].len, k + 1, d + b.vecs[b.idx + k].len)
  {
    hide Advance, Bytes;
    var v := b.vecs[b.idx + k];
    AdvanceStep(b.vecs, b.idx + k, nr);
    assert b.vecs[b.idx..b.idx + k + 1] == b.vecs[b.idx..b.idx + k] + [v];
    BytesStep(b.vecs[b.idx..b.idx + k], v);
    WholeLive(b);
  }

  lemma InBioBounds(b: Bio, nr: nat, k: nat, d: nat)
    requires InBio(b, nr, k, d)
    ensures b.idx + k < |b.vecs| && nr + d < b.size
  {
  }

  lemma WalkSize(all: seq<Bio>, n: nat, bios: seq<Bio>, ended: seq<nat>, nr: nat, k: nat, d: nat)
    requires Walk(all, n, bios, ended, nr, k, d) && bios != []
    ensures bios[0].size > 0
  {
    assert bios[0] == all[|all| - |bios|];
    LiveNonempty(bios[0]);
  }

  lemma CurrentVector(bios: seq<Bio>)
    requires BiosOk(bios) && bios != []
    ensures AllUsable(bios)
  {
  }

  lemma RecalcNonempty(q: Limits, bios: seq<Bio>)
    requires AllUsable(bios)
    ensures Recalc(q, bios).0 != []
  {
    hide Pack, Bytes;
  }

  /** What the code does to the bio in which the completion stopped. */
  function StopIn(b: Bio, k: nat, nr: nat, d: nat): Bio
    requires b.idx + k < |b.vecs| && nr <= b.vecs[b.idx + k].len && d <= b.size
  {
    var j := b.idx + k;
    b.(size := b.size - d, sector := b.sector + d / 512, idx := j,
       vecs := b.vecs[j := b.vecs[j].(offset := b.vecs[j].offset + nr, len := b.vecs[j].len - nr)])
  }

  lemma ShrinkStops(b: Bio, nr: nat, k: nat, d: nat)
    requires InBio(b, nr, k, d) && nr < b.vecs[b.idx + k].len
    ensures nr + d < b.size
    ensures Shrink(b, nr + d) == StopIn(b, k, nr, nr + d)
  {
    hide Bytes;
  }

  lemma RestHere(bios: seq<Bio>, n: nat)
    requires bios != [] && n < bios[0].size
    ensures Rest(bios, n) == if n == 0 then bios else bios[0 := Shrink(bios[0], n)]
    ensures Done(bios, n) == 0
  {
    hide Shrink;
  }

  /** Leaving the loop inside a bio, `nr` bytes into its next vector. */
  lemma WalkStop(all: seq<Bio>, n: nat, bios: seq<Bio>, ended: seq<nat>, nr: nat, k: nat, d: nat)
    requires Walk(all, n, bios, ended, nr, k, d) && bios != []
    requires InBio(bios[0], nr, k, d) && nr < bios[0].vecs[bios[0].idx + k].len
    ensures nr + d < bios[0].size
    ensures Rest(all, n) == if nr + d == 0 then bios else bios[0 := StopIn(bios[0], k, nr, nr + d)]
    ensures ended == Ids(all)[..Done(all, n)]
  {
    hide *;
    ShrinkStops(bios[0], nr, k, d);
    RestHere(bios, nr + d);
    WalkLeft(all, n, bios, ended, nr, k, d);
  }

  lemma WalkLeft(all: seq<Bio>, n: nat, bios: seq<Bio>, ended: seq<nat>, nr: nat, k: nat, d: nat)
    requires Walk(all, n, bios, ended, nr, k, d)
    ensures Rest(all, n) == Rest(bios, nr + d)
    ensures Done(bios, nr + d) == 0 ==> ended == Ids(all)[..Done(all, n)]
  {
    hide Rest, Done, Ids, BiosOk, InBio;
  }

  /** Leaving the loop because no bio is left. */
  lemma WalkOut(all: seq<Bio>, n: nat, bios: seq<Bio>, ended: seq<nat>, nr: nat, k: nat, d: nat)
    requires Walk(all, n, bios, ended, nr, k, d) && bios == []
    ensures Rest(all, n) == [] && ended == Ids(all)[..Done(all, n)]
  {
  }

  /** The current vector is never longer than what remains of the request. */
  lemma NotBotched(bios: seq<Bio>)
    requires BiosOk(bios) && bios != []
    ensures bios[0].vecs[bios[0].idx].len <= SizeOf(bios)
  {
    Uncons(bios[0].Live());
  }

  class Rq {
    var bios: seq<Bio>
    var write: bool
    var kind: nat
    var sector: nat
    var dataLen: nat
    var nrPhys: nat
    var noMerge: bool

    ghost function View(): Request
      reads this
    {
      Request(bios, write, kind, sector, dataLen, nrPhys, noMerge)
    }

    constructor (q: Limits, b: Bio)
      requires Usable(b)
      ensures View() == FromBio(q, b)
    {
      var c := b;
      if !c.segValid {
        c := RecountSegments(q, c);
      }
      bios, write, kind, sector, dataLen, nrPhys, noMerge := [c], b.write, b.kind, b.sector, b.size, c.physSegs, false;
    }

    /** ll_back_merge_fn and ll_front_merge_fn, `at` being the bio next to the seam. */
    method LlMergeFn(q: Limits, at: nat, b: Bio) returns (ok: bool, c: Bio)
      requires AllUsable(bios) && Usable(b) && at < |bios|
      modifies this`bios, this`nrPhys, this`noMerge
      ensures Outcome(ok, View(), c) == LlMerge(q, old(View()), at, b)
    {
      hide EnsureCounted;
      c := b;
      if dataLen / 512 + b.size / 512 > q.maxSectors {
        noMerge := true;
        return false, c;
      }
      var seam := CountIfNeeded(q, bios[at]);
      bios := bios[at := seam];
      c := CountIfNeeded(q, b);
      if nrPhys + c.physSegs > q.maxSegments {
        noMerge := true;
        return false, c;
      }
      nrPhys := nrPhys + c.physSegs;
      ok := true;
    }

    static method CountIfNeeded(q: Limits, b: Bio) returns (c: Bio)
      requires Usable(b)
      ensures c == EnsureCounted(q, b)
    {
      c := b;
      if !b.segValid {
        c := RecountSegments(q, b);
      }
    }

    /** The back merge branch of __make_request. */
    method MergeBack(q: Limits, b: Bio) returns (ok: bool)
      requires AllUsable(bios) && Usable(b)
      modifies this
      ensures (ok, View()) == AddBack(q, old(View()), b)
    {
      hide LlMerge;
      var c: Bio;
      ok, c := LlMergeFn(q, |bios| - 1, b);
      if ok {
        bios := bios + [c];
        dataLen := dataLen + b.size;
      }
    }

    /** The front merge branch of __make_request. */
    method MergeFront(q: Limits, b: Bio) returns (ok: bool)
      requires AllUsable(bios) && Usable(b)
      modifies this
      ensures (ok, View()) == AddFront(q, old(View()), b)
    {
      hide LlMerge;
      var c: Bio;
      ok, c := LlMergeFn(q, 0, b);
      if ok {
        bios := [c] + bios;
        sector := b.sector;
        dataLen := dataLen + b.size;
      }
    }

    /** attempt_merge of this request with the one after it; the other's bios are handed over. */
    method AttemptMerge(q: Limits, next: Rq) returns (ok: bool)
      requires next != this && AllUsable(bios) && AllUsable(next.bios) && nrPhys >= 1
      modifies this, next
      ensures var m := Attempt(q, old(View()), old(next.View()));
              && ok == m.0 && View() == m.1
              && next.View() == if ok then m.2.(bios := []) else m.2
    {
      hide PhysContig;
      if noMerge || next.noMerge || kind != next.kind || write != next.write {
        return false;
      }
      if sector + dataLen / 512 != next.sector {
        return false;
      }
      if dataLen / 512 + next.dataLen / 512 > q.maxSectors {
        return false;
      }
      var tail, head := bios[|bios| - 1], next.bios[0];
      var segSize := tail.segBack + head.segFront;
      var total := nrPhys + next.nrPhys;
      if PhysContig(q, tail, head) {
        if nrPhys == 1 {
          bios := bios[0 := bios[0].(segFront := segSize)];
        }
        if next.nrPhys == 1 {
          var last := next.bios[|next.bios| - 1];
          next.bios := next.bios[|next.bios| - 1 := last.(segBack := segSize)];
        }
        total := total - 1;
      }
      if total > q.maxSegments {
        return false;
      }
      nrPhys := total;
      bios := bios + next.bios;
      dataLen := dataLen + next.dataLen;
      next.bios := [];
      ok := true;
    }

    /** blk_rq_map_sg: all vectors of all bios, one after the other; then the last entry is padded,
        and the drain buffer, if the request needs one, becomes an entry of its own.  `align` is
        dma_pad_mask + 1, and `extra` what is added to extra_len. */
    method MapSg(q: Limits, copyUser: bool, align: nat, drain: Option<Entry>) returns (sg: seq<Entry>, extra: nat)
      requires AllUsable(bios) && align > 0
      ensures var p := Pack(q, false, VecsOf(bios));
              var pad := PadLen(copyUser, dataLen, align);
              && |sg| == |p| + (if drain.Some? then 1 else 0)
              && (forall i | 0 <= i < |p| :: p[i] != [] && sg[i] == Padded(EntryOf(p[i]), if i == |p| - 1 then pad else 0))
              && (drain.Some? ==> sg[|p|] == drain.value)
              && extra == pad + (if drain.Some? then drain.value.length else 0)
    {
      hide Bytes, Pack, Mapping, EntryOf, Bio.Ok, Bio.Live;
      sg := [];
      var prev := bios[0].vecs[0];
      MappingStart(q, prev);
      for i := 0 to |bios|
        invariant Mapping(q, VecsOf(bios[..i]), sg, prev)
      {
        sg, prev := MapBio(q, bios[i], sg, prev, VecsOf(bios[..i]));
        VecsOfStep(bios, i);
      }
      assert bios[..|bios|] == bios;
      MappingEnd(q, VecsOf(bios), sg, prev);
      VecsOfSome(bios);
      assert |sg| > 0;
      extra := 0;
      if copyUser && dataLen % align != 0 {
        var pad := align - dataLen % align;
        sg := sg[|sg| - 1 := Padded(sg[|sg| - 1], pad)];
        extra := pad;
      }
      if drain.Some? {
        sg := sg + [drain.value];
        extra := extra + drain.value.length;
      }
    }

    /** The loop of blk_update_request, and what follows it for the bio it stopped in; `ended` lists
        the bios handed back by req_bio_endio. */
    method CompleteBios(nrBytes: nat) returns (ended: seq<nat>, total: nat)
      requires BiosOk(bios)
      modifies this`bios
      ensures bios == Rest(old(bios), nrBytes)
      ensures ended == Ids(old(bios))[..Done(old(bios), nrBytes)]
      ensures bios != [] ==> total == nrBytes
    {
      hide Walk, InBio, Rest, Done, Ids, StopIn, BiosOk;
      ended, total := [], 0;
      ghost var all := bios;
      var nr: nat, nextIdx: nat, bioNbytes: nat := nrBytes, 0, 0;
      WalkStart(all, nrBytes);
      while bios != []
        invariant Walk(all, nrBytes, bios, ended, nr, nextIdx, bioNbytes)
        invariant total + nr == nrBytes
        decreases |bios|, nr
      {
        var b := bios[0];
        var nbytes: nat;
        if nr >= b.size {
          WalkBio(all, nrBytes, bios, ended, nr, nextIdx, bioNbytes);
          bios := bios[1..];
          nbytes := b.size;
          ended := ended + [b.id];
          nextIdx := 0;
          bioNbytes := 0;
        } else {
          WalkVec(all, nrBytes, bios, ended, nr, nextIdx, bioNbytes);
          InBioBounds(b, nr, nextIdx, bioNbytes);
          nbytes := b.vecs[b.idx + nextIdx].len;
          if nbytes > nr {
            break;
          }
          nextIdx := nextIdx + 1;
          bioNbytes := bioNbytes + nbytes;
        }
        total := total + nbytes;
        nr := nr - nbytes;
        if bios != [] && nr == 0 {
          WalkVec(all, nrBytes, bios, ended, nr, nextIdx, bioNbytes) by { WalkSize(all, nrBytes, bios, ended, nr, nextIdx, bioNbytes); }
          InBioBounds(bios[0], nr, nextIdx, bioNbytes);
          break;
        }
      }
      if bios == [] {
        WalkOut(all, nrBytes, bios, ended, nr, nextIdx, bioNbytes);
        return;
      }
      // `nr` bytes into the next vector
      WalkStop(all, nrBytes, bios, ended, nr, nextIdx, bioNbytes);
      bioNbytes := bioNbytes + nr;
      total := total + nr;
      if bioNbytes > 0 {
        bios := bios[0 := StopIn(bios[0], nextIdx, nr, bioNbytes)];
      }
    }

    /** blk_update_request.  Neither its error exit for an index past the last vector nor its repair
        of a botched length is ever taken. */
    method UpdateRequest(q: Limits, fs: bool, nrBytes: nat) returns (more: bool, ended: seq<nat>)
      requires Sized(View())
      modifies this
      ensures View() == Update(q, old(View()), fs, nrBytes)
      ensures more <==> bios != []
      ensures ended == Ids(old(bios))[..Done(old(bios), nrBytes)]
    {
      hide SizeOf, Recalc, Rest, Done, Data, Ids, BiosOk;
      RestDrops(bios, nrBytes);
      var total: nat;
      ended, total := CompleteBios(nrBytes);
      if bios == [] {
        dataLen := 0;
        return false, ended;
      }
      ghost var left := bios;
      NotBotched(bios);
      dataLen := dataLen - total;
      if fs {
        sector := sector + total / 512;
      }
      CurrentVector(bios);
      // "request botched": cannot be
      assert dataLen >= bios[0].vecs[bios[0].idx].len;
      var out, nr := RecalcSegments(q, bios);
      bios, nrPhys := out, nr;
      RecalcNonempty(q, left);
      more := true;
    }
  }
}
