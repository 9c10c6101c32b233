/** Merging bios into requests and requests into each other (the ll_*_merge_fn family and
    attempt_merge in borph/block/blk-merge.c, the merge branches of __make_request in
    borph/block/blk-core.c, elv_try_merge in borph/block/elevator.c).
 */
module Merging {
  import opened BlockIo
  import opened Segments
  import opened Completion

  // ---------------------------------------------------------------------------------------
  // What the code does
  // ---------------------------------------------------------------------------------------

  datatype MergeKind = NoMerge | BackMerge | FrontMerge

  function Sectors(bytes: nat): nat {
    bytes / 512
  }

  /** elv_rq_merge_ok, `allow` being the I/O scheduler's say, and elv_try_merge. */
  function TryMerge(r: Request, b: Bio, allow: bool): MergeKind {
    if r.noMerge || b.kind != r.kind || b.write != r.write || !allow then NoMerge
    else if r.sector + Sectors(r.dataLen) == b.sector then BackMerge
    else if r.sector - Sectors(b.size) == b.sector then FrontMerge
    else NoMerge
  }

  datatype Outcome = Outcome(ok: bool, r: Request, b: Bio)

  /** ll_new_hw_segment, once the bios involved are counted. */
  function NewHwSegment(q: Limits, r: Request, b: Bio): Outcome {
    if r.nrPhys + b.physSegs > q.maxSegments then Outcome(false, r.(noMerge := true), b)
    else Outcome(true, r.(nrPhys := r.nrPhys + b.physSegs), b)
  }

  function CountBioAt(q: Limits, r: Request, i: nat): Request
    requires i < |r.bios| && Usable(r.bios[i])
  {
    r.(bios := r.bios[i := EnsureCounted(q, r.bios[i])])
  }

  /** ll_back_merge_fn and ll_front_merge_fn: `at` is the bio of the request next to the seam. */
  function LlMerge(q: Limits, r: Request, at: nat, b: Bio): Outcome
    requires AllUsable(r.bios) && Usable(b) && at < |r.bios|
  {
    if Sectors(r.dataLen) + Sectors(b.size) > q.maxSectors then Outcome(false, r.(noMerge := true), b)
    else NewHwSegment(q, CountBioAt(q, r, at), EnsureCounted(q, b))
  }

  /** A request made from a single bio (init_request_from_bio and blk_rq_bio_prep). */
  function FromBio(q: Limits, b: Bio): Request
    requires Usable(b)
  {
    var c := EnsureCounted(q, b);
    Request([c], b.write, b.kind, b.sector, b.size, c.physSegs, false)
  }

  /** The back merge branch of __make_request. */
  function AddBack(q: Limits, r: Request, b: Bio): (m: (bool, Request))
    requires AllUsable(r.bios) && Usable(b)
    ensures AllUsable(m.1.bios)
  {
    var o := LlMerge(q, r, |r.bios| - 1, b);
    if !o.ok then (false, o.r)
    else (true, o.r.(bios := o.r.bios + [o.b], dataLen := o.r.dataLen + b.size))
  }

  /** The front merge branch of __make_request. */
  function AddFront(q: Limits, r: Request, b: Bio): (m: (bool, Request))
    requires AllUsable(r.bios) && Usable(b)
    ensures AllUsable(m.1.bios)
  {
    var o := LlMerge(q, r, 0, b);
    if !o.ok then (false, o.r)
    else (true, o.r.(bios := [o.b] + o.r.bios, sector := b.sector, dataLen := o.r.dataLen + b.size))
  }

  predicate MayJoin(q: Limits, r: Request, n: Request) {
    && !r.noMerge && !n.noMerge && r.kind == n.kind && r.write == n.write
    && r.sector + Sectors(r.dataLen) == n.sector
    && Sectors(r.dataLen) + Sectors(n.dataLen) <= q.maxSectors
  }

  /** ll_merge_requests_fn: the caches it raises (even when it then refuses) and its verdict. */
  function LlMergeRequests(q: Limits, r: Request, n: Request): (bool, Request, Request)
    requires AllUsable(r.bios) && AllUsable(n.bios)
  {
    var tail, head := Last(r.bios), n.bios[0];
    var contig := PhysContig(q, tail, head);
    var size := tail.segBack + head.segFront;
    var r1 := if contig && r.nrPhys == 1 then r.(bios := SetFront(r.bios, size)) else r;
    var n1 := if contig && n.nrPhys == 1 then n.(bios := SetBack(n.bios, size)) else n;
    var total := r.nrPhys + n.nrPhys - if contig then 1 else 0;
    if total > q.maxSegments || total < 0 then (false, r1, n1) else (true, r1.(nrPhys := total), n1)
  }

  /** attempt_merge: on success the first request is the merged one and the second is gone. */
  function Attempt(q: Limits, r: Request, n: Request): (bool, Request, Request)
    requires AllUsable(r.bios) && AllUsable(n.bios)
  {
    if !MayJoin(q, r, n) then (false, r, n)
    else
      var m := LlMergeRequests(q, r, n);
      if !m.0 then m
      else (true, m.1.(bios := m.1.bios + m.2.bios, dataLen := m.1.dataLen + m.2.dataLen), m.2)
  }

  // ---------------------------------------------------------------------------------------
  // The segment count stays sound
  // ---------------------------------------------------------------------------------------

  ghost predicate Sound(q: Limits, r: Request) {
    r.bios != [] && Counted(q, r.bios, r.nrPhys)
  }

  lemma EnsureCountedFit(q: Limits, b: Bio)
    requires BioFit(q, b)
    ensures var c := EnsureCounted(q, b);
            SameTransfer(b, c) && c.Ok() && Counted(q, [c], c.physSegs)
  {
    hide Counted, RecountBio;
    if !b.segValid {
      RecountBioCounts(q, b);
    }
  }

  /** Counting one bio of a sound request again does no harm, whatever it had cached. */
  lemma CountBioAtSound(q: Limits, r: Request, i: nat)
    requires Sound(q, r) && i < |r.bios|
    ensures Sound(q, CountBioAt(q, r, i)) && SameTransfers(r.bios, CountBioAt(q, r, i).bios)
  {
    hide Counted, EnsureCounted, RecountBio, Bio.Ok;
    var b := r.bios[i];
    BioOkOf(q, r, i);
    EnsureCountedRaises(q, b);
    CountedRaised(q, r.bios, CountBioAt(q, r, i).bios, r.nrPhys);
  }

  lemma BioOkOf(q: Limits, r: Request, i: nat)
    requires Sound(q, r) && i < |r.bios|
    ensures r.bios[i].Ok() && BiosOk(r.bios) && AllUsable(r.bios)
  {
  }

  lemma EnsureCountedRaises(q: Limits, b: Bio)
    requires b.Ok()
    ensures var c := EnsureCounted(q, b);
            && SameTransfer(b, c) && c.Ok()
            && c.segFront >= b.segFront && c.segBack >= b.segBack
  {
    hide Counted, RecountBio;
    if !b.segValid {
      RecountBioCounts(q, b);
    }
  }

  lemma FromBioSound(q: Limits, b: Bio)
    requires BioFit(q, b)
    ensures Sound(q, FromBio(q, b))
  {
    hide Counted, EnsureCounted;
    EnsureCountedFit(q, b);
  }

  lemma AddBackSound(q: Limits, r: Request, b: Bio)
    requires Sound(q, r) && BioFit(q, b)
    ensures Sound(q, AddBack(q, r, b).1)
  {
    hide Counted, EnsureCounted, Bytes;
    var i := |r.bios| - 1;
    BioOkOf(q, r, i);
    CountBioAtSound(q, r, i);
    EnsureCountedFit(q, b);
    var c := EnsureCounted(q, b);
    var r1 := CountBioAt(q, r, i);
    CountedConcat(q, r1.bios, r.nrPhys, [c], c.physSegs);
  }

  lemma AddFrontSound(q: Limits, r: Request, b: Bio)
    requires Sound(q, r) && BioFit(q, b)
    ensures Sound(q, AddFront(q, r, b).1)
  {
    hide Counted, EnsureCounted, Bytes;
    BioOkOf(q, r, 0);
    CountBioAtSound(q, r, 0);
    EnsureCountedFit(q, b);
    var c := EnsureCounted(q, b);
    var r1 := CountBioAt(q, r, 0);
    CountedConcat(q, [c], c.physSegs, r1.bios, r.nrPhys);
  }

  /** A request of a single segment may have its front or back cache replaced by anything that
      bounds that segment. */
  lemma SingleSegment(q: Limits, a: seq<Bio>, c: seq<Bio>)
    requires Counted(q, a, 1) && SameTransfers(a, c)
    requires c[0].segFront >= a[0].segFront || c[0].segFront >= Last(a).segBack
    requires Last(c).segBack >= a[0].segFront || Last(c).segBack >= Last(a).segBack
    ensures Counted(q, c, 1)
  {
    hide Bytes, VecsOf, Partition;
    SameTransfersSameVecs(a, c);
    var p :| Witness(q, a, 1, p);
    assert p[0] == Last(p);
    assert Witness(q, c, 1, p);
  }

  /** Merging two sound requests, or trying to and being refused, leaves sound requests. */
  lemma AttemptSound(q: Limits, r: Request, n: Request)
    requires Sound(q, r) && Sound(q, n)
    ensures var m := Attempt(q, r, n);
            && Sound(q, m.1)
            && (!m.0 ==> Sound(q, m.2))
  {
    hide Counted;
    BioOkOf(q, r, 0);
    BioOkOf(q, n, 0);
    if MayJoin(q, r, n) {
      LlMergeSound(q, r, n);
    }
  }

  lemma LlMergeSound(q: Limits, r: Request, n: Request)
    requires Sound(q, r) && Sound(q, n)
    ensures var m := LlMergeRequests(q, r, n);
            && (m.0 ==> Counted(q, m.1.bios + m.2.bios, m.1.nrPhys))
            && (!m.0 ==> Sound(q, m.1) && Sound(q, m.2))
  {
    hide Counted, PhysContig, Bytes, SetFront, SetBack, Bio.Ok;
    BioOkOf(q, r, 0);
    BioOkOf(q, n, 0);
    var m := LlMergeRequests(q, r, n);
    LlMergeTransfers(q, r, n);
    if !PhysContig(q, Last(r.bios), n.bios[0]) {
      CountedConcat(q, r.bios, r.nrPhys, n.bios, n.nrPhys);
    } else {
      SegmentsExist(q, r.bios, r.nrPhys);
      if m.0 {
        CountedJoin(q, r.bios, r.nrPhys, n.bios, n.nrPhys, m.1.bios + m.2.bios);
      } else {
        RefusedJoinSound(q, r, n);
      }
    }
  }

  lemma RefusedJoinSound(q: Limits, r: Request, n: Request)
    requires Sound(q, r) && Sound(q, n)
    ensures var m := LlMergeRequests(q, r, n);
            !m.0 ==> Sound(q, m.1) && Sound(q, m.2)
  {
    hide Counted, PhysContig, Bytes, SetFront, SetBack, Bio.Ok;
    BioOkOf(q, r, 0);
    BioOkOf(q, n, 0);
    LlMergeTransfers(q, r, n);
    var m := LlMergeRequests(q, r, n);
    if !m.0 && r.nrPhys == 1 {
      SingleSegment(q, r.bios, m.1.bios);
    }
    if !m.0 && n.nrPhys == 1 {
      SingleSegment(q, n.bios, m.2.bios);
    }
  }

  lemma LlMergeTransfers(q: Limits, r: Request, n: Request)
    requires AllUsable(r.bios) && AllUsable(n.bios)
    ensures var m := LlMergeRequests(q, r, n);
            && SameTransfers(r.bios, m.1.bios) && SameTransfers(n.bios, m.2.bios)
            && SameTransfers(r.bios + n.bios, m.1.bios + m.2.bios)
            && m.1 == r.(bios := m.1.bios, nrPhys := m.1.nrPhys) && m.2 == n.(bios := m.2.bios)
  {
    hide PhysContig, SetFront, SetBack;
    var m := LlMergeRequests(q, r, n);
    SameTransfersConcat(r.bios, m.1.bios, n.bios, m.2.bios);
  }

  lemma SameTransfersConcat(a: seq<Bio>, a': seq<Bio>, b: seq<Bio>, b': seq<Bio>)
    requires SameTransfers(a, a') && SameTransfers(b, b')
    ensures SameTransfers(a + b, a' + b')
  {
  }

  lemma SegmentsExist(q: Limits, bios: seq<Bio>, n: nat)
    requires Counted(q, bios, n)
    ensures n >= 1
  {
  }

  // ---------------------------------------------------------------------------------------
  // The length stays right
  // ---------------------------------------------------------------------------------------

  lemma {:induction false} SizeOfConcat(a: seq<Bio>, b: seq<Bio>)
    ensures SizeOf(a + b) == SizeOf(a) + SizeOf(b)
  {
    if a == [] {
      assert a + b == b;
    } else {
      assert (a + b)[1..] == a[1..] + b;
      SizeOfConcat(a[1..], b);
    }
  }

  lemma {:induction false} DataConcat(a: seq<Bio>, b: seq<Bio>)
    requires BiosOk(a) && BiosOk(b)
    ensures BiosOk(a + b) && Data(a + b) == Data(a) + Data(b)
  {
    hide Cells, Bio.Ok;
    if a == [] {
      assert a + b == b;
    } else {
      assert (a + b)[1..] == a[1..] + b;
      DataConcat(a[1..], b);
    }
  }

  lemma Single(b: Bio)
    requires b.Ok()
    ensures BiosOk([b]) && SizeOf([b]) == b.size && Data([b]) == Cells(b.Live())
  {
    assert [b][1..] == [];
  }

  lemma FromBioSized(q: Limits, b: Bio)
    requires b.Ok()
    ensures Sized(FromBio(q, b)) && Data(FromBio(q, b).bios) == Cells(b.Live())
  {
    hide Counted, EnsureCounted, Cells;
    EnsureCountedRaises(q, b);
    Single(EnsureCounted(q, b));
  }

  lemma AddBackSized(q: Limits, r: Request, b: Bio)
    requires Sized(r) && r.bios != [] && b.Ok()
    ensures var m := AddBack(q, r, b);
            && Sized(m.1)
            && Data(m.1.bios) == if m.0 then Data(r.bios) + Cells(b.Live()) else Data(r.bios)
  {
    hide EnsureCounted, Cells, Data, SizeOf;
    var i := |r.bios| - 1;
    EnsureCountedRaises(q, r.bios[i]);
    EnsureCountedRaises(q, b);
    var r1 := CountBioAt(q, r, i);
    SameTransfersSameData(r.bios, r1.bios);
    var c := EnsureCounted(q, b);
    Single(c);
    DataConcat(r1.bios, [c]);
    SizeOfConcat(r1.bios, [c]);
  }

  lemma AddFrontSized(q: Limits, r: Request, b: Bio)
    requires Sized(r) && r.bios != [] && b.Ok()
    ensures var m := AddFront(q, r, b);
            && Sized(m.1)
            && Data(m.1.bios) == if m.0 then Cells(b.Live()) + Data(r.bios) else Data(r.bios)
  {
    hide EnsureCounted, Cells, Data, SizeOf;
    EnsureCountedRaises(q, r.bios[0]);
    EnsureCountedRaises(q, b);
    var r1 := CountBioAt(q, r, 0);
    SameTransfersSameData(r.bios, r1.bios);
    var c := EnsureCounted(q, b);
    Single(c);
    DataConcat([c], r1.bios);
    SizeOfConcat([c], r1.bios);
  }

  lemma AttemptSized(q: Limits, r: Request, n: Request)
    requires Sized(r) && r.bios != [] && Sized(n) && n.bios != []
    ensures var m := Attempt(q, r, n);
            && Sized(m.1) && Sized(m.2)
            && Data(m.2.bios) == Data(n.bios)
            && Data(m.1.bios) == if m.0 then Data(r.bios) + Data(n.bios) else Data(r.bios)
  {
    hide Data, SizeOf, LlMergeRequests;
    if MayJoin(q, r, n) {
      var m := LlMergeRequests(q, r, n);
      LlMergeTransfers(q, r, n);
      SameTransfersSameData(r.bios, m.1.bios);
      SameTransfersSameData(n.bios, m.2.bios);
      DataConcat(m.1.bios, m.2.bios);
      SizeOfConcat(m.1.bios, m.2.bios);
    }
  }

  // ---------------------------------------------------------------------------------------
  // Histories
  // ---------------------------------------------------------------------------------------

  /** How a request came to be: from a bio, by merging further bios and whole requests that have
      histories of their own, by recounts, and by partial completions, in any order. */
  datatype History =
    | Fresh(bio: Bio)
    | Back(h: History, bio: Bio)
    | Front(h: History, bio: Bio)
    | Joined(h: History, other: History)
    | Recounted(h: History)
    | Completed(h: History, fs: bool, n: nat)

  ghost predicate Fit(q: Limits, h: History) {
    match h
    case Fresh(b) => BioFit(q, b)
    case Back(g, b) => Fit(q, g) && BioFit(q, b)
    case Front(g, b) => Fit(q, g) && BioFit(q, b)
    case Joined(g, o) => Fit(q, g) && Fit(q, o)
    case Recounted(g) => Fit(q, g)
    case Completed(g, _, _) => Fit(q, g)
  }

  function Recount(q: Limits, r: Request): Request
    requires AllUsable(r.bios)
  {
    var c := Recalc(q, r.bios);
    r.(bios := c.0, nrPhys := c.1)
  }

  /** The request a history leads to.  A request that is completed for good stays as it is; a
      merge that is refused leaves the request without the bio or request offered. */
  ghost function Build(q: Limits, h: History): (r: Request)
    requires Fit(q, h)
    ensures Sized(r) && (r.bios != [] ==> Sound(q, r))
  {
    match h
    case Fresh(b) =>
      FromBioSound(q, b); FromBioSized(q, b);
      FromBio(q, b)
    case Back(g, b) =>
      var r := Build(q, g);
      if r.bios == [] || !TryMerge(r, b, true).BackMerge? then r else
      AddBackSound(q, r, b); AddBackSized(q, r, b);
      AddBack(q, r, b).1
    case Front(g, b) =>
      var r := Build(q, g);
      if r.bios == [] || !TryMerge(r, b, true).FrontMerge? then r else
      AddFrontSound(q, r, b); AddFrontSized(q, r, b);
      AddFront(q, r, b).1
    case Joined(g, o) =>
      var r, n := Build(q, g), Build(q, o);
      if r.bios == [] || n.bios == [] then r else
      AttemptSound(q, r, n); AttemptSized(q, r, n);
      Attempt(q, r, n).1
    case Recounted(g) =>
      var r := Build(q, g);
      if r.bios == [] then r else
      RecountSound(q, r);
      Recount(q, r)
    case Completed(g, fs, n) =>
      var r := Build(q, g);
      UpdateDrops(q, r, fs, n);
      Update(q, r, fs, n)
  }

  lemma RecountSound(q: Limits, r: Request)
    requires Sized(r) && r.bios != []
    ensures Sound(q, Recount(q, r)) && Sized(Recount(q, r))
  {
    hide Counted, Data, SizeOf;
    RecalcCounts(q, r.bios);
    SameTransfersSameData(r.bios, Recalc(q, r.bios).0);
  }

  /** Whatever merges, recounts and partial completions a request has been through, mapping it
      takes no more scatterlist entries than its segment count promises -- although the count was
      kept incrementally, keeps bounceable pages apart and never saw the request as a whole. */
  lemma MapNeverExceedsCount(q: Limits, h: History)
    requires Fit(q, h) && Build(q, h).bios != []
    ensures var r := Build(q, h);
            |Pack(q, false, VecsOf(r.bios))| <= r.nrPhys
  {
    hide Build;
    var r := Build(q, h);
    CountSuffices(q, r.bios, r.nrPhys);
  }

  // ---------------------------------------------------------------------------------------
  // What a queue of requests means
  // ---------------------------------------------------------------------------------------

  /** One sector's worth of transfer. */
  datatype Block = Block(write: bool, kind: nat, sector: nat, data: seq<Cell>)

  /** The transfers of contiguous data placed at `sector`. */
  ghost function Blocks(write: bool, kind: nat, sector: nat, data: seq<Cell>): seq<Block>
    decreases |data|
  {
    if |data| < 512 then []
    else [Block(write, kind, sector, data[..512])] + Blocks(write, kind, sector + 1, data[512..])
  }

  ghost function BioMeaning(b: Bio): seq<Block>
    requires b.Ok()
  {
    Blocks(b.write, b.kind, b.sector, Cells(b.Live()))
  }

  /** What the device is told to do: the request's sector, and the data of its bios in a row. */
  ghost function Meaning(r: Request): seq<Block>
    requires Sized(r)
  {
    Blocks(r.write, r.kind, r.sector, Data(r.bios))
  }

  lemma {:induction false} BlocksConcat(write: bool, kind: nat, sector: nat, a: seq<Cell>, b: seq<Cell>)
    requires |a| % 512 == 0
    ensures Blocks(write, kind, sector, a + b) == Blocks(write, kind, sector, a) + Blocks(write, kind, sector + |a| / 512, b)
    decreases |a|
  {
    if a == [] {
      assert a + b == b;
    } else {
      assert (a + b)[..512] == a[..512] && (a + b)[512..] == a[512..] + b;
      BlocksConcat(write, kind, sector + 1, a[512..], b);
      assert sector + 1 + |a[512..]| / 512 == sector + |a| / 512;
    }
  }

  /** Every bio of the chain lies, on its own account, where the request puts it. */
  ghost predicate Placed(write: bool, kind: nat, sector: nat, bios: seq<Bio>)
    decreases |bios|
  {
    bios == [] ||
    (&& bios[0].write == write && bios[0].kind == kind && bios[0].sector == sector && bios[0].size % 512 == 0
     && Placed(write, kind, sector + bios[0].size / 512, bios[1..]))
  }

  ghost predicate Good(q: Limits, r: Request) {
    Sized(r) && Sound(q, r) && Placed(r.write, r.kind, r.sector, r.bios)
  }

  ghost function BiosMeaning(bios: seq<Bio>): seq<Block>
    requires BiosOk(bios)
  {
    if bios == [] then [] else BioMeaning(bios[0]) + BiosMeaning(bios[1..])
  }

  /** A placed request tells the device exactly what its bios ask for. */
  lemma {:induction false} PlacedMeaning(write: bool, kind: nat, sector: nat, bios: seq<Bio>)
    requires BiosOk(bios) && Placed(write, kind, sector, bios)
    ensures Blocks(write, kind, sector, Data(bios)) == BiosMeaning(bios)
    decreases |bios|
  {
    if bios != [] {
      hide Cells;
      var b := bios[0];
      LiveNonempty(b);
      BlocksConcat(write, kind, sector, Cells(b.Live()), Data(bios[1..]));
      PlacedMeaning(write, kind, sector + b.size / 512, bios[1..]);
    }
  }

  lemma {:induction false} PlacedConcat(write: bool, kind: nat, sector: nat, a: seq<Bio>, b: seq<Bio>)
    requires Placed(write, kind, sector, a) && Placed(write, kind, sector + SizeOf(a) / 512, b)
    ensures SizeOf(a) % 512 == 0
    ensures Placed(write, kind, sector, a + b)
    decreases |a|
  {
    if a == [] {
      assert a + b == b;
    } else {
      assert (a + b)[1..] == a[1..] + b;
      assert a[0].size / 512 + SizeOf(a[1..]) / 512 == SizeOf(a) / 512 by { PlacedSize(write, kind, sector + a[0].size / 512, a[1..]); }
      PlacedConcat(write, kind, sector + a[0].size / 512, a[1..], b);
    }
  }

  lemma {:induction false} PlacedSize(write: bool, kind: nat, sector: nat, bios: seq<Bio>)
    requires Placed(write, kind, sector, bios)
    ensures SizeOf(bios) % 512 == 0
    decreases |bios|
  {
    if bios != [] {
      PlacedSize(write, kind, sector + bios[0].size / 512, bios[1..]);
    }
  }

  lemma {:induction false} PlacedSame(write: bool, kind: nat, sector: nat, a: seq<Bio>, b: seq<Bio>)
    requires Placed(write, kind, sector, a) && SameTransfers(a, b)
    ensures Placed(write, kind, sector, b) && SizeOf(a) == SizeOf(b)
    decreases |a|
  {
    if a != [] {
      assert SameTransfer(a[0], b[0]);
      PlacedSame(write, kind, sector + a[0].size / 512, a[1..], b[1..]);
    }
  }

  lemma PlacedSingle(b: Bio)
    requires b.size % 512 == 0
    ensures Placed(b.write, b.kind, b.sector, [b]) && SizeOf([b]) == b.size
  {
    assert [b][1..] == [];
  }

  /** Whole sectors of well-formed memory. */
  ghost predicate BioGood(q: Limits, b: Bio) {
    BioFit(q, b) && b.size % 512 == 0
  }

  lemma FromBioGood(q: Limits, b: Bio)
    requires BioGood(q, b)
    ensures Good(q, FromBio(q, b)) && Meaning(FromBio(q, b)) == BioMeaning(b)
  {
    hide Counted, EnsureCounted, Blocks, Cells;
    FromBioSound(q, b);
    FromBioSized(q, b);
    EnsureCountedRaises(q, b);
    PlacedSingle(b);
    PlacedSame(b.write, b.kind, b.sector, [b], [EnsureCounted(q, b)]);
  }

  lemma AddBackPlaced(q: Limits, r: Request, b: Bio, allow: bool)
    requires Sized(r) && r.bios != [] && Placed(r.write, r.kind, r.sector, r.bios)
    requires b.Ok() && b.size % 512 == 0 && TryMerge(r, b, allow).BackMerge?
    ensures var m := AddBack(q, r, b).1;
            && m.write == r.write && m.kind == r.kind && m.sector == r.sector
            && Placed(r.write, r.kind, r.sector, m.bios)
  {
    hide EnsureCounted, Placed, SizeOf, Bytes;
    var i := |r.bios| - 1;
    var r1, c := CountBioAt(q, r, i), EnsureCounted(q, b);
    EnsureCountedRaises(q, r.bios[i]);
    EnsureCountedRaises(q, b);
    assert SameTransfers(r.bios, r1.bios);
    PlacedSame(r.write, r.kind, r.sector, r.bios, r1.bios);
    PlacedSingle(c);
    PlacedConcat(r.write, r.kind, r.sector, r1.bios, [c]);
  }

  lemma AddFrontPlaced(q: Limits, r: Request, b: Bio, allow: bool)
    requires Sized(r) && r.bios != [] && Placed(r.write, r.kind, r.sector, r.bios)
    requires b.Ok() && b.size % 512 == 0 && TryMerge(r, b, allow).FrontMerge?
    ensures var m := AddFront(q, r, b);
            && m.1.write == r.write && m.1.kind == r.kind && m.1.sector == (if m.0 then b.sector else r.sector)
            && Placed(r.write, r.kind, m.1.sector, m.1.bios)
  {
    hide EnsureCounted, Placed, SizeOf, Bytes;
    var r1, c := CountBioAt(q, r, 0), EnsureCounted(q, b);
    EnsureCountedRaises(q, r.bios[0]);
    EnsureCountedRaises(q, b);
    assert SameTransfers(r.bios, r1.bios);
    PlacedSame(r.write, r.kind, r.sector, r.bios, r1.bios);
    PlacedSingle(c);
    PlacedConcat(b.write, b.kind, b.sector, [c], r1.bios);
  }

  /** A back merge appends the bio's transfers to those of the request. */
  lemma AddBackGood(q: Limits, r: Request, b: Bio, allow: bool)
    requires Good(q, r) && BioGood(q, b) && TryMerge(r, b, allow).BackMerge?
    ensures var m := AddBack(q, r, b);
            && Good(q, m.1)
            && Meaning(m.1) == if m.0 then Meaning(r) + BioMeaning(b) else Meaning(r)
  {
    hide Counted, AddBack, Blocks, Cells, Data, Placed, SizeOf, Bytes;
    AddBackSound(q, r, b);
    AddBackSized(q, r, b);
    AddBackPlaced(q, r, b, allow);
    PlacedSize(r.write, r.kind, r.sector, r.bios);
    DataLength(r.bios);
    BlocksConcat(r.write, r.kind, r.sector, Data(r.bios), Cells(b.Live()));
  }

  /** A front merge puts the bio's transfers before those of the request. */
  lemma AddFrontGood(q: Limits, r: Request, b: Bio, allow: bool)
    requires Good(q, r) && BioGood(q, b) && TryMerge(r, b, allow).FrontMerge?
    ensures var m := AddFront(q, r, b);
            && Good(q, m.1)
            && Meaning(m.1) == if m.0 then BioMeaning(b) + Meaning(r) else Meaning(r)
  {
    hide Counted, AddFront, Blocks, Cells, Data, Placed, SizeOf, Bytes;
    AddFrontSound(q, r, b);
    AddFrontSized(q, r, b);
    AddFrontPlaced(q, r, b, allow);
    LiveNonempty(b);
    BlocksConcat(r.write, r.kind, b.sector, Cells(b.Live()), Data(r.bios));
  }

  /** Merging two requests appends the transfers of the second to those of the first; a refused
      merge changes the meaning of neither. */
  lemma AttemptGood(q: Limits, r: Request, n: Request)
    requires Good(q, r) && Good(q, n)
    ensures var m := Attempt(q, r, n);
            && Good(q, m.1)
            && Meaning(m.1) == (if m.0 then Meaning(r) + Meaning(n) else Meaning(r))
            && (!m.0 ==> Good(q, m.2) && Meaning(m.2) == Meaning(n))
  {
    hide Counted, Blocks, Data, Placed, SizeOf, LlMergeRequests;
    var m := Attempt(q, r, n);
    AttemptSound(q, r, n);
    AttemptSized(q, r, n);
    if MayJoin(q, r, n) {
      LlMergeTransfers(q, r, n);
      var l := LlMergeRequests(q, r, n);
      PlacedSame(r.write, r.kind, r.sector, r.bios, l.1.bios);
      PlacedSame(n.write, n.kind, n.sector, n.bios, l.2.bios);
      PlacedSize(r.write, r.kind, r.sector, r.bios);
      if m.0 {
        PlacedConcat(r.write, r.kind, r.sector, l.1.bios, l.2.bios);
        DataLength(r.bios);
        BlocksConcat(r.write, r.kind, r.sector, Data(r.bios), Data(n.bios));
      }
    }
  }

  // ---------------------------------------------------------------------------------------
  // Submitting bios to a queue
  // ---------------------------------------------------------------------------------------

  /** After a bio was merged into request `i`, try to merge that request with its neighbour `j`:
      the later one after a back merge, the earlier one after a front merge. */
  function MergeNeighbour(q: Limits, rs: seq<Request>, first: nat, second: nat): seq<Request>
    requires first < |rs| && second < |rs| && first != second
    requires AllUsable(rs[first].bios) && AllUsable(rs[second].bios)
  {
    var m := Attempt(q, rs[first], rs[second]);
    if m.0 then Remove(rs[first := m.1], second) else rs[first := m.1][second := m.2]
  }

  function Remove<T>(s: seq<T>, i: nat): seq<T>
    requires i < |s|
  {
    s[..i] + s[i + 1..]
  }

  ghost predicate AllGood(q: Limits, rs: seq<Request>) {
    forall i | 0 <= i < |rs| :: Good(q, rs[i])
  }

  /** __make_request: `i` is the candidate the elevator came up with (none if out of range) and `j`
      the neighbour of `i` in sort order (none if out of range). */
  function Submit(q: Limits, rs: seq<Request>, b: Bio, i: nat, j: nat, allow: bool): seq<Request>
    requires Usable(b) && (forall k | 0 <= k < |rs| :: AllUsable(rs[k].bios))
  {
    if i >= |rs| then rs + [FromBio(q, b)]
    else
      match TryMerge(rs[i], b, allow)
      case NoMerge => rs + [FromBio(q, b)]
      case BackMerge =>
        var m := AddBack(q, rs[i], b);
        if !m.0 then rs[i := m.1] + [FromBio(q, b)]
        else if j >= |rs| || j == i then rs[i := m.1]
        else MergeNeighbour(q, rs[i := m.1], i, j)
      case FrontMerge =>
        var m := AddFront(q, rs[i], b);
        if !m.0 then rs[i := m.1] + [FromBio(q, b)]
        else if j >= |rs| || j == i then rs[i := m.1]
        else MergeNeighbour(q, rs[i := m.1], j, i)
  }

  ghost function QueueMeaning(q: Limits, rs: seq<Request>): multiset<Block>
    requires AllGood(q, rs)
  {
    if rs == [] then multiset{} else QueueMeaning(q, rs[..|rs| - 1]) + multiset(Meaning(Last(rs)))
  }

  lemma {:induction false} MeaningAt(q: Limits, rs: seq<Request>, i: nat)
    requires AllGood(q, rs) && i < |rs|
    ensures AllGood(q, Remove(rs, i))
    ensures QueueMeaning(q, rs) == QueueMeaning(q, Remove(rs, i)) + multiset(Meaning(rs[i]))
    decreases |rs|
  {
    hide Good, Meaning;
    var t := Remove(rs, i);
    if i == |rs| - 1 {
      assert t == rs[..|rs| - 1];
    } else {
      MeaningAt(q, rs[..|rs| - 1], i);
      assert t[..|t| - 1] == Remove(rs[..|rs| - 1], i);
    }
  }

  /** Replacing a request changes the meaning of the queue by the difference of the two. */
  lemma MeaningUpdate(q: Limits, rs: seq<Request>, i: nat, r: Request, more: multiset<Block>)
    requires AllGood(q, rs) && i < |rs| && Good(q, r)
    requires multiset(Meaning(r)) == multiset(Meaning(rs[i])) + more
    ensures AllGood(q, rs[i := r])
    ensures QueueMeaning(q, rs[i := r]) == QueueMeaning(q, rs) + more
  {
    hide Good, Meaning, QueueMeaning;
    MeaningAt(q, rs, i);
    MeaningAt(q, rs[i := r], i);
    assert Remove(rs[i := r], i) == Remove(rs, i);
  }

  lemma MeaningAppend(q: Limits, rs: seq<Request>, r: Request)
    requires AllGood(q, rs) && Good(q, r)
    ensures AllGood(q, rs + [r])
    ensures QueueMeaning(q, rs + [r]) == QueueMeaning(q, rs) + multiset(Meaning(r))
  {
    hide Good, Meaning;
    assert (rs + [r])[..|rs|] == rs;
  }

  lemma Cancel(a: multiset<Block>, b: multiset<Block>, c: multiset<Block>)
    requires a + c == b + c
    ensures a == b
  {
    assert a == a + c - c && b == b + c - c;
  }

  /** Merging neighbours never changes what the queue means. */
  lemma MergeNeighbourKeeps(q: Limits, rs: seq<Request>, first: nat, second: nat)
    requires AllGood(q, rs) && first < |rs| && second < |rs| && first != second
    ensures var t := MergeNeighbour(q, rs, first, second);
            AllGood(q, t) && QueueMeaning(q, t) == QueueMeaning(q, rs)
  {
    hide Good, Meaning, QueueMeaning, Attempt;
    GoodUsable(q, rs[first]);
    GoodUsable(q, rs[second]);
    var m := Attempt(q, rs[first], rs[second]);
    AttemptGood(q, rs[first], rs[second]);
    if m.0 {
      var more := multiset(Meaning(rs[second]));
      MeaningUpdate(q, rs, first, m.1, more);
      MeaningAt(q, rs[first := m.1], second);
      assert rs[first := m.1][second] == rs[second];
      Cancel(QueueMeaning(q, Remove(rs[first := m.1], second)), QueueMeaning(q, rs), more);
    } else {
      MeaningUpdate(q, rs, first, m.1, multiset{});
      MeaningUpdate(q, rs[first := m.1], second, m.2, multiset{});
    }
  }

  lemma GoodUsable(q: Limits, r: Request)
    requires Good(q, r)
    ensures AllUsable(r.bios) && Sized(r)
  {
  }

  /** Submitting a bio adds exactly the bio's transfers to what the queue means, whichever request
      it is merged into, or none, and whatever is merged in turn; every request stays placed,
      correctly sized and soundly counted. */
  lemma SubmitAddsExactly(q: Limits, rs: seq<Request>, b: Bio, i: nat, j: nat, allow: bool)
    requires AllGood(q, rs) && BioGood(q, b)
    ensures Usable(b) && forall k | 0 <= k < |rs| :: AllUsable(rs[k].bios)
    ensures var t := Submit(q, rs, b, i, j, allow);
            AllGood(q, t) && QueueMeaning(q, t) == QueueMeaning(q, rs) + multiset(BioMeaning(b))
  {
    hide Good, Meaning, QueueMeaning, AddBack, AddFront, FromBio, MergeNeighbour, BioMeaning;
    forall k | 0 <= k < |rs|
      ensures AllUsable(rs[k].bios)
    {
      GoodUsable(q, rs[k]);
    }
    FromBioGood(q, b);
    var more := multiset(BioMeaning(b));
    if i >= |rs| || TryMerge(rs[i], b, allow).NoMerge? {
      MeaningAppend(q, rs, FromBio(q, b));
    } else {
      var back := TryMerge(rs[i], b, allow).BackMerge?;
      GoodUsable(q, rs[i]);
      var m := if back then AddBack(q, rs[i], b) else AddFront(q, rs[i], b);
      if back {
        AddBackGood(q, rs[i], b, allow);
      } else {
        AddFrontGood(q, rs[i], b, allow);
      }
      if !m.0 {
        MeaningUpdate(q, rs, i, m.1, multiset{});
        MeaningAppend(q, rs[i := m.1], FromBio(q, b));
      } else {
        MeaningUpdate(q, rs, i, m.1, more);
        if j < |rs| && j != i {
          MergeNeighbourKeeps(q, rs[i := m.1], if back then i else j, if back then j else i);
        }
      }
    }
  }

  /** A bio on its way in, with the elevator's choice of candidate and neighbour. */
  datatype Submission = Submission(bio: Bio, i: nat, j: nat, allow: bool)

  ghost function SubmitAll(q: Limits, rs: seq<Request>, ss: seq<Submission>): (t: seq<Request>)
    requires AllGood(q, rs) && (forall k | 0 <= k < |ss| :: BioGood(q, ss[k].bio))
    ensures AllGood(q, t)
  {
    if ss == [] then rs
    else
      var t := SubmitAll(q, rs, ss[..|ss| - 1]);
      var s := Last(ss);
      SubmitAddsExactly(q, t, s.bio, s.i, s.j, s.allow);
      Submit(q, t, s.bio, s.i, s.j, s.allow)
  }

  ghost function SubmittedMeaning(q: Limits, ss: seq<Submission>): multiset<Block>
    requires forall k | 0 <= k < |ss| :: BioGood(q, ss[k].bio)
  {
    if ss == [] then multiset{}
    else
      assert BioGood(q, ss[|ss| - 1].bio);
      SubmittedMeaning(q, ss[..|ss| - 1]) + multiset(BioMeaning(ss[|ss| - 1].bio))
  }

  /** Over any run of submissions the queue means exactly what was submitted: no transfer is lost,
      duplicated, moved or redirected by merging. */
  lemma {:induction false} QueueMeansWhatWasSubmitted(q: Limits, ss: seq<Submission>)
    requires forall k | 0 <= k < |ss| :: BioGood(q, ss[k].bio)
    ensures QueueMeaning(q, SubmitAll(q, [], ss)) == SubmittedMeaning(q, ss)
    decreases |ss|
  {
    if ss != [] {
      hide Good, Meaning, QueueMeaning, Submit, BioMeaning, BioGood;
      var s := Last(ss);
      QueueMeansWhatWasSubmitted(q, ss[..|ss| - 1]);
      SubmitAddsExactly(q, SubmitAll(q, [], ss[..|ss| - 1]), s.bio, s.i, s.j, s.allow);
    }
  }
}
