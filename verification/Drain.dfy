/** The scatterlist entry for the drain buffer: when the segment count of a request covers it. */
module Drain {
  import opened BlockIo
  import opened Segments
  import opened Completion
  import opened Merging

  /** blk_peek_request makes room for the drain buffer of a request with data, unless the request
      has been prepared before (REQ_DONTPREP). */
  function Peek(r: Request, dontPrep: bool): Request {
    if !dontPrep && r.dataLen > 0 then r.(nrPhys := r.nrPhys + 1) else r
  }

  /** What blk_rq_map_sg returns for a request that needs the drain buffer: the packed memory and
      the buffer. */
  ghost function Entries(q: Limits, r: Request): nat {
    |Pack(q, false, VecsOf(r.bios))| + 1
  }

  ghost predicate Covered(q: Limits, r: Request) {
    Entries(q, r) <= r.nrPhys
  }

  // ---------------------------------------------------------------------------------------
  // A peek covers the entry
  // ---------------------------------------------------------------------------------------

  lemma PeekCovers(q: Limits, r: Request)
    requires Sound(q, r) && Sized(r)
    ensures Covered(q, Peek(r, false))
  {
    hide Counted, Pack;
    DataLength(r.bios);
    CountSuffices(q, r.bios, r.nrPhys);
  }

  /** A bio for one sector of low memory. */
  const SECTOR := Bio(0, true, 0, 0, 512, 0, [Vec(0, 0, 512)], false, 0, 512, 512)

  /** A request of one such bio, counted as one segment, and one of two, counted as two. */
  const ONE := Request([SECTOR], true, 0, 0, 512, 1, false)
  const TWO := Request([SECTOR, SECTOR], true, 0, 0, 1024, 2, false)

  lemma SectorOk()
    ensures SECTOR.Ok() && SECTOR.Live() == [Vec(0, 0, 512)]
    ensures VecsOf([SECTOR]) == [Vec(0, 0, 512)]
    ensures SizeOf([SECTOR]) == 512
  {
    var v := Vec(0, 0, 512);
    assert SECTOR.Live() == [v];
    BytesOne(v);
    assert [SECTOR][..0] == [] && [SECTOR][1..] == [];
  }

  lemma OneIsSound(q: Limits)
    ensures Sound(q, ONE) && Sized(ONE)
  {
    hide Bytes, Flat, VecsOf, SizeOf, Bio.Ok, Bio.Live;
    SectorOk();
    var v := Vec(0, 0, 512);
    FlatSingle([v]);
    BytesOne(v);
    assert Witness(q, ONE.bios, 1, [[v]]);
  }

  lemma TwoIsSound(q: Limits)
    ensures Sound(q, TWO) && Sized(TWO)
  {
    hide Bytes, Flat, VecsOf, Bio.Ok, Bio.Live;
    SectorOk();
    var v := Vec(0, 0, 512);
    assert TWO.bios == [SECTOR] + [SECTOR] && TWO.bios[1..] == [SECTOR];
    VecsOfConcat([SECTOR], [SECTOR]);
    FlatSingle([v]);
    FlatConcat([[v]], [[v]]);
    assert [[v], [v]] == [[v]] + [[v]];
    BytesOne(v);
    assert Witness(q, TWO.bios, 2, [[v], [v]]);
  }

  /** Whatever the queue allows, a peek covers the drain entry of every sound request exactly if the
      request has not been prepared before. */
  lemma PeekCoversDrain(q: Limits, dontPrep: bool)
    ensures (forall r :: Sound(q, r) && Sized(r) ==> Covered(q, Peek(r, dontPrep))) <==> !dontPrep
  {
    hide Sound, Sized, Covered;
    if dontPrep {
      OneIsSound(q);
      OneIsShort(q);
      assert Sound(q, ONE) && Sized(ONE) && !Covered(q, Peek(ONE, true));
    } else {
      forall r | Sound(q, r) && Sized(r)
        ensures Covered(q, Peek(r, false))
      {
        PeekCovers(q, r);
      }
    }
  }

  lemma OneIsShort(q: Limits)
    ensures !Covered(q, Peek(ONE, true))
  {
    hide Sound, Sized, VecsOf, Pack;
    SectorOk();
    PackOne(q, false, Vec(0, 0, 512));
  }

  lemma PackOne(q: Limits, strict: bool, v: Vec)
    ensures Pack(q, strict, [v]) == [[v]]
  {
    assert [v][..0] == [];
  }

  // ---------------------------------------------------------------------------------------
  // What bounce pages change
  // ---------------------------------------------------------------------------------------

  /** Two neighbours that the mapping may join but the recount keeps apart. */
  predicate Split(q: Limits, u: Vec, v: Vec) {
    q.cluster && q.joins(u, v) && (High(q, u) || High(q, v))
  }

  predicate SomeSplit(q: Limits, vs: seq<Vec>) {
    exists i | 0 < i < |vs| :: Split(q, vs[i - 1], vs[i])
  }

  lemma PackEnd(q: Limits, strict: bool, vs: seq<Vec>)
    requires vs != []
    ensures var p := Pack(q, strict, vs);
            p != [] && Last(p) != [] && Last(Last(p)) == Last(vs)
  {
  }

  lemma InitSplits(q: Limits, vs: seq<Vec>)
    requires |vs| > 1
    ensures SomeSplit(q, vs) <==> SomeSplit(q, vs[..|vs| - 1]) || Split(q, vs[|vs| - 2], vs[|vs| - 1])
  {
    hide Split;
    var init := vs[..|vs| - 1];
    forall i | 0 < i < |init|
      ensures Split(q, vs[i - 1], vs[i]) == Split(q, init[i - 1], init[i])
    {
    }
  }

  /** Where no neighbours are kept apart for bouncing, recount and mapping pack alike. */
  lemma {:induction false} SamePacking(q: Limits, vs: seq<Vec>)
    requires !SomeSplit(q, vs)
    ensures Pack(q, true, vs) == Pack(q, false, vs)
    decreases |vs|
  {
    hide Bytes, SomeSplit;
    if |vs| > 1 {
      var init := vs[..|vs| - 1];
      InitSplits(q, vs);
      SamePacking(q, init);
      PackEnd(q, true, init);
      assert Last(init) == vs[|vs| - 2];
    } else if |vs| == 1 {
      assert vs == [vs[0]];
      PackOne(q, true, vs[0]);
      PackOne(q, false, vs[0]);
    }
  }

  /** How often a new segment begins after the first, if size is no obstacle. */
  function Cuts(q: Limits, strict: bool, vs: seq<Vec>): nat {
    if |vs| <= 1 then 0
    else Cuts(q, strict, vs[..|vs| - 1]) + if Fuses(q, strict, vs[|vs| - 2], vs[|vs| - 1]) then 0 else 1
  }

  predicate Fuses(q: Limits, strict: bool, u: Vec, v: Vec) {
    q.cluster && q.joins(u, v) && (strict ==> !High(q, u) && !High(q, v))
  }

  /** Memory that fits one segment is cut only where neighbours do not fuse. */
  lemma {:induction false} PackCuts(q: Limits, strict: bool, vs: seq<Vec>)
    requires vs != [] && Bytes(vs) <= q.maxSegmentSize
    ensures var p := Pack(q, strict, vs);
            && p != [] && |p| == 1 + Cuts(q, strict, vs) && Bytes(Last(p)) <= Bytes(vs)
    decreases |vs|
  {
    if |vs| == 1 {
      assert vs == [vs[0]];
      PackOne(q, strict, vs[0]);
    } else {
      PackCutsStep(q, strict, vs);
    }
  }

  lemma {:induction false} PackCutsStep(q: Limits, strict: bool, vs: seq<Vec>)
    requires |vs| > 1 && Bytes(vs) <= q.maxSegmentSize
    ensures var p := Pack(q, strict, vs);
            && p != [] && |p| == 1 + Cuts(q, strict, vs) && Bytes(Last(p)) <= Bytes(vs)
    decreases |vs|, 0
  {
    var init, v := vs[..|vs| - 1], Last(vs);
    assert Bytes(vs) == Bytes(init) + v.len;
    PackCuts(q, strict, init);
    PackEnd(q, strict, init);
    hide Bytes;
    var p := Pack(q, strict, init);
    BytesOne(v);
    BytesConcat(Last(p), [v]);
    assert Last(init) == vs[|vs| - 2];
    assert CanJoin(q, strict, Last(p), v) <==> Fuses(q, strict, vs[|vs| - 2], v);
  }

  lemma BytesOne(v: Vec)
    ensures Bytes([v]) == v.len
  {
    assert [v][..0] == [];
  }

  lemma {:induction false} CutsCompare(q: Limits, vs: seq<Vec>)
    ensures Cuts(q, false, vs) <= Cuts(q, true, vs)
    ensures Cuts(q, false, vs) < Cuts(q, true, vs) <==> SomeSplit(q, vs)
  {
    hide SomeSplit;
    if |vs| > 1 {
      CutsCompare(q, vs[..|vs| - 1]);
      InitSplits(q, vs);
    } else {
      NoNeighbours(q, vs);
    }
  }

  lemma NoNeighbours(q: Limits, vs: seq<Vec>)
    requires |vs| <= 1
    ensures !SomeSplit(q, vs)
  {
  }

  // ---------------------------------------------------------------------------------------
  // A partial completion forgets the slot
  // ---------------------------------------------------------------------------------------

  /** What is left after a partial completion and, if the driver looks again, another peek. */
  function Again(q: Limits, r: Request, fs: bool, n: nat, dontPrep: bool): Request
    requires Sized(r)
  {
    Peek(Update(q, Peek(r, false), fs, n), dontPrep)
  }

  lemma Recounted(q: Limits, r: Request, fs: bool, n: nat)
    requires Sized(r) && n < r.dataLen
    ensures var u := Update(q, Peek(r, false), fs, n);
            && u == Update(q, r, fs, n) && Sound(q, u) && Sized(u)
            && u.nrPhys == |Pack(q, true, VecsOf(u.bios))|
  {
    hide Pack, Counted, SizeOf, Data, VecsOf, Bytes;
    UpdateDrops(q, r, fs, n);
    var left := Rest(r.bios, n);
    RestDrops(r.bios, n);
    RecalcCounts(q, left);
    SameTransfersSameVecs(left, Recalc(q, left).0);
  }

  lemma VecsLength(r: Request)
    requires Sized(r)
    ensures Bytes(VecsOf(r.bios)) == r.dataLen
  {
    hide Bytes, Data, Cells, VecsOf;
    DataIsVecs(r.bios);
    DataLength(r.bios);
    CellsLength(VecsOf(r.bios));
  }

  /** After a partial completion the request is covered again by a peek unless it has been prepared
      before.  If it has, nothing covers the drain entry where no neighbouring pieces of the
      remaining memory are kept apart for bouncing; and where the remaining data fits one segment,
      that is the only case. */
  lemma UpdateForgetsDrainSlot(q: Limits, r: Request, fs: bool, n: nat, dontPrep: bool)
    requires Sized(r) && n < r.dataLen
    ensures var u := Again(q, r, fs, n, dontPrep); var split := SomeSplit(q, VecsOf(u.bios));
            && (!dontPrep ==> Covered(q, u))
            && (dontPrep && !split ==> Entries(q, u) == u.nrPhys + 1)
            && (r.dataLen - n <= q.maxSegmentSize ==> (Covered(q, u) <==> !dontPrep || split))
  {
    hide Pack, Sound, SizeOf, Data, VecsOf, Bytes, SomeSplit, Update;
    Recounted(q, r, fs, n);
    var u := Update(q, r, fs, n);
    var vs := VecsOf(u.bios);
    UpdateLength(q, r, fs, n);
    if !dontPrep {
      PeekCovers(q, u);
    } else {
      if !SomeSplit(q, vs) {
        SamePacking(q, vs);
      }
      if r.dataLen - n <= q.maxSegmentSize {
        VecsLength(u);
        PackCuts(q, false, vs);
        PackCuts(q, true, vs);
        CutsCompare(q, vs);
      }
    }
  }

  lemma UpdateLength(q: Limits, r: Request, fs: bool, n: nat)
    requires Sized(r) && n < r.dataLen
    ensures Update(q, r, fs, n).dataLen == r.dataLen - n && VecsOf(Update(q, r, fs, n).bios) != []
  {
    hide Pack, Counted, SizeOf, Data, Bytes;
    UpdateDrops(q, r, fs, n);
    var u := Update(q, r, fs, n);
    BiosUsable(u.bios);
    VecsNonempty(u.bios);
  }

  /** On every queue: a request that was covered when the driver first saw it is not any more after
      the first of its two sectors has been completed, if it is marked as prepared. */
  lemma DrainSlotLost(q: Limits)
    ensures Sound(q, TWO) && Sized(TWO) && Covered(q, Peek(TWO, false))
    ensures !Covered(q, Again(q, TWO, true, 512, true))
  {
    hide Sound, Sized, VecsOf, Pack, Update, SomeSplit;
    TwoIsSound(q);
    PeekCovers(q, TWO);
    SecondSectorLeft(q);
    NoNeighbours(q, VecsOf(Again(q, TWO, true, 512, true).bios));
    UpdateForgetsDrainSlot(q, TWO, true, 512, true);
  }

  /** On every queue: all partially completed requests are covered when the driver looks again
      exactly if they are not marked as prepared. */
  lemma CoveredAgain(q: Limits, dontPrep: bool)
    ensures (forall r, fs, n: nat :: Sized(r) && n < r.dataLen ==> Covered(q, Again(q, r, fs, n, dontPrep))) <==> !dontPrep
  {
    hide Sized, Covered, Again;
    if dontPrep {
      DrainSlotLost(q);
      assert Sized(TWO) && 512 < TWO.dataLen && !Covered(q, Again(q, TWO, true, 512, true));
    } else {
      forall r, fs, n: nat | Sized(r) && n < r.dataLen
        ensures Covered(q, Again(q, r, fs, n, false))
      {
        UpdateForgetsDrainSlot(q, r, fs, n, false);
      }
    }
  }

  lemma SecondSectorLeft(q: Limits)
    requires Sized(TWO)
    ensures |VecsOf(Update(q, Peek(TWO, false), true, 512).bios)| == 1
  {
    hide Pack, VecsOf, Bytes, SizeOf, Bio.Ok, Recalc;
    SectorOk();
    assert TWO.bios[1..] == [SECTOR];
    assert Rest(TWO.bios, 512) == [SECTOR];
    Recounted(q, TWO, true, 512);
    assert BiosOk([SECTOR]);
    RecalcCounts(q, [SECTOR]);
    SameTransfersSameVecs([SECTOR], Recalc(q, [SECTOR]).0);
  }

  /** Three sectors of memory, the first of which may be bounced, on a queue with segments of two. */
  const HIGH := Vec(1, 0, 512)
  const LOW := Vec(0, 0, 512)

  function TwoSectors(): Limits {
    Limits(true, 1024, 128, 1024, 0, (u, v) => true)
  }

  /** If the remaining data does not fit one segment, keeping neighbours apart need not cost a
      segment, so the drain entry may stay uncovered. */
  lemma SplitNeedNotHelp()
    ensures var vs := [HIGH, LOW, LOW]; var q := TwoSectors();
            SomeSplit(q, vs) && Pack(q, true, vs) == [[HIGH], [LOW, LOW]] && Pack(q, false, vs) == [[HIGH, LOW], [LOW]]
  {
    var q := TwoSectors();
    var vs := [HIGH, LOW, LOW];
    assert vs[..2] == [HIGH, LOW] && [HIGH, LOW][..1] == [HIGH];
    PackOne(q, true, HIGH);
    PackOne(q, false, HIGH);
    BytesOne(HIGH);
    BytesOne(LOW);
    BytesConcat([HIGH], [LOW]);
    assert [HIGH] + [LOW] == [HIGH, LOW];
    assert Pack(q, true, [HIGH, LOW]) == [[HIGH], [LOW]];
    assert Pack(q, false, [HIGH, LOW]) == [[HIGH, LOW]];
    assert [LOW] + [LOW] == [LOW, LOW];
    assert CanJoin(q, true, [LOW], LOW);
    assert Pack(q, true, vs) == [[HIGH], [LOW] + [LOW]];
    assert Split(q, vs[0], vs[1]);
  }
}
