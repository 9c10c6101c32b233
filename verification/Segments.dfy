/** Counting, merging and mapping physical segments (borph/block/blk-merge.c).

    A request carries a count of physical segments that is only ever updated incrementally, while
    bios and requests are merged.  When the request is finally handed to a driver, a separate loop
    maps it to scatterlist entries.  The result of this module is that the count is always enough.
 */
module Segments {
  import opened BlockIo

  function Last<T>(s: seq<T>): T
    requires s != []
  {
    s[|s| - 1]
  }

  function Max(a: nat, b: nat): nat {
    if a >= b then a else b
  }

  predicate High(q: Limits, v: Vec) {
    v.page > q.bouncePfn
  }

  /** May `v` extend `seg`?  The recount (`strict`) keeps pages that may be bounced apart; the
      mapping loop does not look at them. */
  predicate CanJoin(q: Limits, strict: bool, seg: seq<Vec>, v: Vec)
    requires seg != []
  {
    && (strict ==> !High(q, v) && !High(q, Last(seg)))
    && q.cluster
    && Bytes(seg) + v.len <= q.maxSegmentSize
    && q.joins(Last(seg), v)
  }

  /** Both loops pack vectors greedily from the left. */
  function Pack(q: Limits, strict: bool, vs: seq<Vec>): (p: seq<seq<Vec>>)
    ensures vs != [] ==> p != [] && Last(p) != []
    decreases |vs|
  {
    if vs == [] then []
    else
      var p := Pack(q, strict, vs[..|vs| - 1]);
      if p != [] && Last(p) != [] && CanJoin(q, strict, Last(p), Last(vs)) then p[|p| - 1 := Last(p) + [Last(vs)]]
      else p + [[Last(vs)]]
  }

  // ---------------------------------------------------------------------------------------
  // Partitions into valid segments
  // ---------------------------------------------------------------------------------------

  ghost predicate ValidSegment(q: Limits, seg: seq<Vec>) {
    && seg != []
    && (|seg| > 1 ==> q.cluster && Bytes(seg) <= q.maxSegmentSize)
    && forall i | 0 <= i < |seg| - 1 :: q.joins(seg[i], seg[i + 1])
  }

  ghost function Flat(p: seq<seq<Vec>>): seq<Vec> {
    if p == [] then [] else Flat(p[..|p| - 1]) + Last(p)
  }

  ghost predicate Partition(q: Limits, p: seq<seq<Vec>>, vs: seq<Vec>) {
    && Flat(p) == vs
    && forall i | 0 <= i < |p| :: ValidSegment(q, p[i])
  }

  lemma {:induction false} FlatConcat(a: seq<seq<Vec>>, b: seq<seq<Vec>>)
    ensures Flat(a + b) == Flat(a) + Flat(b)
    decreases |b|
  {
    if b == [] {
      assert a + b == a;
    } else {
      assert (a + b)[..|a + b| - 1] == a + b[..|b| - 1];
      FlatConcat(a, b[..|b| - 1]);
    }
  }

  lemma FlatSingle(seg: seq<Vec>)
    ensures Flat([seg]) == seg
  {
    assert [seg][..0] == [];
  }

  /** Dropping vectors at the front keeps a segment valid, and so does dropping the last one. */
  lemma SuffixValid(q: Limits, seg: seq<Vec>, k: nat)
    requires ValidSegment(q, seg) && k < |seg|
    ensures ValidSegment(q, seg[k..])
  {
    assert seg == seg[..k] + seg[k..];
    BytesConcat(seg[..k], seg[k..]);
  }

  lemma InitValid(q: Limits, seg: seq<Vec>)
    requires ValidSegment(q, seg) && |seg| > 1
    ensures ValidSegment(q, seg[..|seg| - 1])
  {
  }

  lemma ExtendLast(q: Limits, p: seq<seq<Vec>>, vs: seq<Vec>, v: Vec, strict: bool)
    requires Partition(q, p, vs) && p != [] && Last(p) != [] && CanJoin(q, strict, Last(p), v)
    ensures Partition(q, p[|p| - 1 := Last(p) + [v]], vs + [v])
  {
    var init, seg := p[..|p| - 1], Last(p);
    var r := p[|p| - 1 := seg + [v]];
    assert r[..|r| - 1] == init;
    assert Flat(init) + (seg + [v]) == (Flat(init) + seg) + [v];
    LongerValid(q, seg, v);
  }

  lemma LongerValid(q: Limits, seg: seq<Vec>, v: Vec)
    requires ValidSegment(q, seg) && CanJoin(q, false, seg, v)
    ensures ValidSegment(q, seg + [v])
  {
    assert (seg + [v])[..|seg|] == seg;
  }

  lemma AddSegment(q: Limits, p: seq<seq<Vec>>, vs: seq<Vec>, v: Vec)
    requires Partition(q, p, vs)
    ensures Partition(q, p + [[v]], vs + [v])
  {
    FlatConcat(p, [[v]]);
    FlatSingle([v]);
  }

  /** Whatever the greedy loops build is a partition into valid segments. */
  lemma {:induction false} PackIsPartition(q: Limits, strict: bool, vs: seq<Vec>)
    ensures Partition(q, Pack(q, strict, vs), vs)
    decreases |vs|
  {
    if vs == [] {
    } else {
      hide Partition, CanJoin;
      var init, v := vs[..|vs| - 1], Last(vs);
      var p := Pack(q, strict, init);
      PackIsPartition(q, strict, init);
      assert vs == init + [v];
      if p != [] && Last(p) != [] && CanJoin(q, strict, Last(p), v) {
        ExtendLast(q, p, init, v, strict);
      } else {
        AddSegment(q, p, init, v);
      }
    }
  }

  /** Compared with any partition, the greedy one is no larger, and if it is as large then its
      last segment reaches back no further. */
  lemma {:induction false} PackStaysAhead(q: Limits, vs: seq<Vec>, p: seq<seq<Vec>>)
    requires Partition(q, p, vs)
    ensures var g := Pack(q, false, vs);
            && |g| <= |p|
            && (|g| == |p| && vs != [] ==> |Last(g)| <= |Last(p)|)
    decreases |vs|
  {
    if p == [] {
      assert vs == [];
    } else {
      assert vs != [] && Last(vs) == Last(Last(p));
      var v, init := Last(vs), vs[..|vs| - 1];
      var p' := DropLast(q, vs, p);
      PackStaysAhead(q, init, p');
      PackIsPartition(q, false, init);
      var g := Pack(q, false, init);
      hide Bytes, Partition, Flat, ValidSegment, CanJoin;
      if |Last(p)| > 1 && |g| == |p| {
        GreedyTakes(q, vs, p, p', g);
      }
    }
  }

  lemma LastOfFlat(p: seq<seq<Vec>>)
    requires p != [] && Last(p) != []
    ensures Flat(p) != [] && Last(Flat(p)) == Last(Last(p))
  {
  }

  /** Where any partition has the last vector share a segment, a partition of the rest whose last
      segment reaches back no further can take that vector as well. */
  lemma GreedyTakes(q: Limits, vs: seq<Vec>, p: seq<seq<Vec>>, p': seq<seq<Vec>>, g: seq<seq<Vec>>)
    requires Partition(q, p, vs) && p != [] && vs != [] && |Last(p)| > 1
    requires Partition(q, p', vs[..|vs| - 1]) && p' != [] && Last(p') == Last(p)[..|Last(p)| - 1]
    requires Partition(q, g, vs[..|vs| - 1]) && g != [] && |Last(g)| <= |Last(p')|
    ensures Last(g) != [] && CanJoin(q, false, Last(g), Last(vs))
  {
    hide Flat;
    var v := Last(vs);
    LastOfFlat(p);
    var k := |Last(p')| - |Last(g)|;
    SuffixesAgree(vs[..|vs| - 1], Last(p'), Last(g), p', g);
    assert Last(p) == Last(p') + [v];
    SuffixValid(q, Last(p), k);
    var both := Last(p)[k..];
    assert both == Last(g) + [v];
    assert both[..|both| - 1] == Last(g);
    assert q.joins(both[|both| - 2], both[|both| - 1]);
  }

  /** Take the last vector out of a partition. */
  lemma DropLast(q: Limits, vs: seq<Vec>, p: seq<seq<Vec>>) returns (r: seq<seq<Vec>>)
    requires Partition(q, p, vs) && p != []
    ensures vs != [] && Partition(q, r, vs[..|vs| - 1])
    ensures if |Last(p)| > 1 then |r| == |p| && Last(r) == Last(p)[..|Last(p)| - 1] else r == p[..|p| - 1]
  {
    var l := Last(p);
    if |l| > 1 {
      r := p[|p| - 1 := l[..|l| - 1]];
      InitValid(q, l);
      assert r[..|r| - 1] == p[..|p| - 1];
      assert vs[..|vs| - 1] == Flat(p[..|p| - 1]) + l[..|l| - 1];
    } else {
      r := p[..|p| - 1];
      assert vs[..|vs| - 1] == Flat(r);
    }
  }

  lemma SuffixesAgree(vs: seq<Vec>, long: seq<Vec>, short: seq<Vec>, p: seq<seq<Vec>>, g: seq<seq<Vec>>)
    requires p != [] && g != [] && Flat(p) == vs && Flat(g) == vs
    requires Last(p) == long && Last(g) == short && |short| <= |long|
    ensures long[|long| - |short|..] == short
  {
    assert vs[|vs| - |long|..] == long;
    assert vs[|vs| - |short|..] == short;
  }

  // ---------------------------------------------------------------------------------------
  // The recount
  // ---------------------------------------------------------------------------------------

  predicate Usable(b: Bio) {
    b.idx < |b.vecs|
  }

  predicate AllUsable(bios: seq<Bio>) {
    bios != [] && forall i | 0 <= i < |bios| :: Usable(bios[i])
  }

  /** Replace the cache of the first bio. */
  function SetFront(bios: seq<Bio>, n: nat): (r: seq<Bio>)
    requires bios != []
    ensures SameTransfers(bios, r) && r[0].segFront == n && r[0].segBack == bios[0].segBack
    ensures Last(r).segBack == Last(bios).segBack
  {
    bios[0 := bios[0].(segFront := n)]
  }

  /** Replace the cache of the last bio. */
  function SetBack(bios: seq<Bio>, n: nat): (r: seq<Bio>)
    requires bios != []
    ensures SameTransfers(bios, r) && Last(r).segBack == n && Last(r).segFront == Last(bios).segFront
    ensures r[0].segFront == bios[0].segFront
  {
    bios[|bios| - 1 := Last(bios).(segBack := n)]
  }

  /** Raise the cache of the first bio. */
  function RaiseFront(bios: seq<Bio>, n: nat): (r: seq<Bio>)
    requires bios != []
    ensures SameTransfers(bios, r) && r[0].segFront >= n
    ensures r[0].segFront >= bios[0].segFront && r[0].segBack == bios[0].segBack
    ensures Last(r).segBack == Last(bios).segBack
  {
    SetFront(bios, Max(bios[0].segFront, n))
  }

  /** Raise the cache of the last bio. */
  function RaiseBack(bios: seq<Bio>, n: nat): (r: seq<Bio>)
    requires bios != []
    ensures SameTransfers(bios, r) && Last(r).segBack >= n
    ensures Last(r).segBack >= Last(bios).segBack && Last(r).segFront == Last(bios).segFront
    ensures r[0].segFront == bios[0].segFront
  {
    SetBack(bios, Max(Last(bios).segBack, n))
  }

  /** __blk_recalc_rq_segments on a chain: the count, and the chain with the caches of its first
      and last bio raised to what was found. */
  function Recalc(q: Limits, bios: seq<Bio>): (seq<Bio>, nat)
    requires AllUsable(bios)
  {
    assert Last(bios).Live() != [];
    var p := Pack(q, true, VecsOf(bios));
    (RaiseBack(RaiseFront(bios, Bytes(p[0])), Bytes(Last(p))), |p|)
  }

  /** blk_recount_segments */
  function RecountBio(q: Limits, b: Bio): Bio
    requires Usable(b)
  {
    var r := Recalc(q, [b]);
    r.0[0].(physSegs := r.1, segValid := true)
  }

  function EnsureCounted(q: Limits, b: Bio): Bio
    requires Usable(b)
  {
    if b.segValid then b else RecountBio(q, b)
  }

  // ---------------------------------------------------------------------------------------
  // The invariant
  // ---------------------------------------------------------------------------------------

  /** `p` partitions the chain's memory into `n` valid segments, and the caches of the chain's
      first and last bio bound the first and last of them. */
  ghost predicate Witness(q: Limits, bios: seq<Bio>, n: nat, p: seq<seq<Vec>>) {
    && bios != [] && p != [] && |p| == n
    && Partition(q, p, VecsOf(bios))
    && Bytes(p[0]) <= bios[0].segFront
    && Bytes(Last(p)) <= Last(bios).segBack
  }

  ghost predicate Counted(q: Limits, bios: seq<Bio>, n: nat) {
    BiosOk(bios) && exists p :: Witness(q, bios, n, p)
  }

  /** A bio is fit to be merged when its memory is well formed and its count, if cached, is right. */
  ghost predicate BioFit(q: Limits, b: Bio) {
    b.Ok() && (b.segValid ==> Counted(q, [b], b.physSegs))
  }

  lemma RecalcCounts(q: Limits, bios: seq<Bio>)
    requires BiosOk(bios) && bios != []
    ensures var r := Recalc(q, bios);
            SameTransfers(bios, r.0) && Counted(q, r.0, r.1)
  {
    hide Bytes, Partition, VecsOf, Pack, Bio.Ok, Recalc;
    BiosUsable(bios);
    var r := Recalc(q, bios);
    RecalcShape(q, bios);
    SameTransfersSameVecs(bios, r.0);
    var p := Pack(q, true, VecsOf(bios));
    PackIsPartition(q, true, VecsOf(bios));
    assert Witness(q, r.0, r.1, p);
  }

  lemma BiosUsable(bios: seq<Bio>)
    requires BiosOk(bios) && bios != []
    ensures AllUsable(bios)
  {
    hide Bytes;
  }

  /** What the recount changes: only caches, and those only upwards, to cover what it found. */
  lemma RecalcShape(q: Limits, bios: seq<Bio>)
    requires AllUsable(bios)
    ensures var r := Recalc(q, bios);
            var p := Pack(q, true, VecsOf(bios));
            && p != [] && r.1 == |p| && SameTransfers(bios, r.0)
            && r.0[0].segFront >= bios[0].segFront && r.0[0].segFront >= Bytes(p[0])
            && Last(r.0).segBack >= Last(bios).segBack && Last(r.0).segBack >= Bytes(Last(p))
  {
    VecsNonempty(bios);
    hide Bytes, VecsOf, Pack, RaiseFront, RaiseBack;
  }

  lemma VecsNonempty(bios: seq<Bio>)
    requires AllUsable(bios)
    ensures VecsOf(bios) != []
  {
    assert Last(bios).Live() != [];
  }

  lemma RecountBioCounts(q: Limits, b: Bio)
    requires b.Ok()
    ensures var r := RecountBio(q, b);
            && SameTransfer(b, r) && r.segValid && BioFit(q, r)
            && r.segFront >= b.segFront && r.segBack >= b.segBack
  {
    hide Bytes, Partition, Pack, VecsOf;
    var bios := [b];
    RecalcCounts(q, bios);
    var c := Recalc(q, bios);
    var r := RecountBio(q, b);
    SameTransfersSameVecs(bios, [r]);
    var p :| Witness(q, c.0, c.1, p);
    SameTransfersSameVecs(c.0, [r]);
    assert Witness(q, [r], r.physSegs, p);
  }

  /** Raising caches does no harm. */
  lemma CountedRaised(q: Limits, a: seq<Bio>, b: seq<Bio>, n: nat)
    requires Counted(q, a, n) && SameTransfers(a, b)
    requires a[0].segFront <= b[0].segFront && Last(a).segBack <= Last(b).segBack
    ensures Counted(q, b, n)
  {
    SameTransfersSameVecs(a, b);
    var p :| Witness(q, a, n, p);
    assert Witness(q, b, n, p);
  }

  /** Chaining two counted lists of bios adds their counts. */
  lemma CountedConcat(q: Limits, a: seq<Bio>, m: nat, b: seq<Bio>, n: nat)
    requires Counted(q, a, m) && Counted(q, b, n)
    ensures Counted(q, a + b, m + n)
  {
    hide Bytes, VecsOf, Flat, ValidSegment, Bio.Ok;
    var p :| Witness(q, a, m, p);
    var r :| Witness(q, b, n, r);
    VecsOfConcat(a, b);
    FlatConcat(p, r);
    assert Witness(q, a + b, m + n, p + r);
  }

  /** The test by which ll_merge_requests_fn decides that the seam needs no segment of its own. */
  predicate PhysContig(q: Limits, b: Bio, nxt: Bio)
    requires b.idx < |b.vecs| && nxt.idx < |nxt.vecs|
  {
    && q.cluster
    && b.segBack + nxt.segFront <= q.maxSegmentSize
    && q.joins(Last(b.vecs), nxt.vecs[nxt.idx])
  }

  /** If the seam is contiguous, the two segments that meet there become one: the count is one
      less, provided the caches that now describe the joined segment are raised to its size. */
  lemma CountedJoin(q: Limits, a: seq<Bio>, m: nat, b: seq<Bio>, n: nat, c: seq<Bio>)
    requires Counted(q, a, m) && Counted(q, b, n) && PhysContig(q, Last(a), b[0])
    requires SameTransfers(a + b, c)
    requires c[0].segFront == if m == 1 then Last(a).segBack + b[0].segFront else a[0].segFront
    requires Last(c).segBack == if n == 1 then Last(a).segBack + b[0].segFront else Last(b).segBack
    ensures Counted(q, c, m + n - 1)
  {
    hide Bytes, VecsOf, Flat, ValidSegment, Bio.Ok;
    var p :| Witness(q, a, m, p);
    var r :| Witness(q, b, n, r);
    VecsOfConcat(a, b);
    SameTransfersSameVecs(a + b, c);
    var mid := Last(p) + r[0];
    SeamVecs(q, a, p, b, r);
    JoinedValid(q, Last(p), r[0]);
    var j := p[..|p| - 1] + [mid] + r[1..];
    JoinedFlat(p[..|p| - 1], Last(p), r[0], r[1..]);
    assert p == p[..|p| - 1] + [Last(p)] && r == [r[0]] + r[1..];
    assert forall i | 0 <= i < |j| :: ValidSegment(q, j[i]);
    BytesConcat(Last(p), r[0]);
    assert m == 1 ==> j[0] == mid;
    assert n == 1 ==> Last(j) == mid;
    assert Witness(q, c, m + n - 1, j);
  }

  /** The last vector of a partition is that of the last bio, and the first that of the first. */
  lemma SeamVecs(q: Limits, a: seq<Bio>, p: seq<seq<Vec>>, b: seq<Bio>, r: seq<seq<Vec>>)
    requires BiosOk(a) && BiosOk(b) && a != [] && b != [] && p != [] && r != []
    requires Partition(q, p, VecsOf(a)) && Partition(q, r, VecsOf(b))
    ensures Last(Last(p)) == Last(Last(a).vecs) && r[0][0] == b[0].vecs[b[0].idx]
  {
    hide VecsOf, Flat, Bytes;
    LastOfVecs(a);
    LastOfFlat(p);
    FirstOfVecs(b);
    FirstOfFlat(r);
  }

  lemma LastOfVecs(bios: seq<Bio>)
    requires bios != [] && Usable(Last(bios))
    ensures VecsOf(bios) != [] && Last(VecsOf(bios)) == Last(Last(bios).vecs)
  {
  }

  lemma {:induction false} FirstOfVecs(bios: seq<Bio>)
    requires bios != [] && Usable(bios[0])
    ensures VecsOf(bios) != [] && VecsOf(bios)[0] == bios[0].vecs[bios[0].idx]
    decreases |bios|
  {
    if |bios| > 1 {
      FirstOfVecs(bios[..|bios| - 1]);
    } else {
      assert bios[..0] == [];
    }
  }

  lemma {:induction false} FirstOfFlat(p: seq<seq<Vec>>)
    requires p != [] && p[0] != []
    ensures Flat(p) != [] && Flat(p)[0] == p[0][0]
    decreases |p|
  {
    if |p| > 1 {
      FirstOfFlat(p[..|p| - 1]);
    } else {
      assert p[..0] == [];
    }
  }

  lemma JoinedValid(q: Limits, s: seq<Vec>, t: seq<Vec>)
    requires ValidSegment(q, s) && ValidSegment(q, t) && q.cluster
    requires Bytes(s) + Bytes(t) <= q.maxSegmentSize && q.joins(Last(s), t[0])
    ensures ValidSegment(q, s + t)
  {
    BytesConcat(s, t);
    forall i | 0 <= i < |s + t| - 1
      ensures q.joins((s + t)[i], (s + t)[i + 1])
    {
      if i >= |s| {
        assert q.joins(t[i - |s|], t[i - |s| + 1]);
      }
    }
  }

  lemma JoinedFlat(init: seq<seq<Vec>>, l: seq<Vec>, f: seq<Vec>, tail: seq<seq<Vec>>)
    ensures Flat(init + [l + f] + tail) == Flat(init + [l]) + Flat([f] + tail)
  {
    hide Flat;
    FlatConcat(init + [l + f], tail);
    FlatConcat(init, [l + f]);
    FlatConcat(init, [l]);
    FlatConcat([f], tail);
    FlatSingle(l + f);
    FlatSingle(l);
    FlatSingle(f);
    Associate(Flat(init), l, f, Flat(tail));
  }

  lemma Associate(a: seq<Vec>, b: seq<Vec>, c: seq<Vec>, d: seq<Vec>)
    ensures a + (b + c) + d == (a + b) + (c + d)
  {
  }

  /** The heart of the matter: a counted chain never maps to more entries than its count. */
  lemma CountSuffices(q: Limits, bios: seq<Bio>, n: nat)
    requires Counted(q, bios, n)
    ensures |Pack(q, false, VecsOf(bios))| <= n
  {
    var p :| Witness(q, bios, n, p);
    PackStaysAhead(q, VecsOf(bios), p);
  }
}
