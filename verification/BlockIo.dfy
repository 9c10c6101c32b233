/** The data the block layer moves around: bios, the memory they point at, and the requests they
    are collected in (struct bio_vec and struct bio in borph/include/linux/blk_types.h, struct
    request in borph/include/linux/blkdev.h).
 */
module BlockIo {

  /** A piece of memory: `len` bytes from `offset` on, in the page with frame number `page`. */
  datatype Vec = Vec(page: nat, offset: nat, len: nat)

  /** `kind` stands for what must agree before transfers can be merged: the disk and the discard
      flags.  `size` is the number of bytes still to be transferred, held by `vecs[idx..]`; `segFront` and
      `segBack` cache bounds on the first and last physical segment, and `physSegs` the number of
      segments while `segValid`. */
  datatype Bio = Bio(id: nat, write: bool, kind: nat, sector: nat, size: nat, idx: nat, vecs: seq<Vec>,
                     segValid: bool, physSegs: nat, segFront: nat, segBack: nat)
  {
    ghost predicate Ok() {
      && idx < |vecs|
      && (forall i | 0 <= i < |vecs| :: vecs[i].len > 0)
      && size == Bytes(Live())
    }

    function Live(): seq<Vec> {
      if idx <= |vecs| then vecs[idx..] else []
    }
  }

  /** `sector`, `dataLen` and `nrPhys` are __sector, __data_len and nr_phys_segments; `noMerge` says
      that one of RQ_NOMERGE_FLAGS is set. */
  datatype Request = Request(bios: seq<Bio>, write: bool, kind: nat, sector: nat, dataLen: nat, nrPhys: nat,
                             noMerge: bool)

  /** What the queue allows.  `joins` stands for BIOVEC_PHYS_MERGEABLE together with
      BIOVEC_SEG_BOUNDARY, which architectures may define as they like. */
  datatype Limits = Limits(cluster: bool, maxSegmentSize: nat, maxSegments: nat, maxSectors: nat,
                           bouncePfn: nat, joins: (Vec, Vec) -> bool)

  function Bytes(vs: seq<Vec>): nat {
    if vs == [] then 0 else Bytes(vs[..|vs| - 1]) + vs[|vs| - 1].len
  }

  lemma {:induction false} BytesConcat(a: seq<Vec>, b: seq<Vec>)
    ensures Bytes(a + b) == Bytes(a) + Bytes(b)
    decreases |b|
  {
    if b == [] {
      assert a + b == a;
    } else {
      assert (a + b)[..|a + b| - 1] == a + b[..|b| - 1];
      BytesConcat(a, b[..|b| - 1]);
    }
  }

  ghost predicate BiosOk(bios: seq<Bio>) {
    forall i | 0 <= i < |bios| :: bios[i].Ok()
  }

  /** All the memory of a chain of bios, in transfer order. */
  function VecsOf(bios: seq<Bio>): seq<Vec> {
    if bios == [] then [] else VecsOf(bios[..|bios| - 1]) + bios[|bios| - 1].Live()
  }

  lemma {:induction false} VecsOfConcat(a: seq<Bio>, b: seq<Bio>)
    ensures VecsOf(a + b) == VecsOf(a) + VecsOf(b)
    decreases |b|
  {
    hide Bio.Live;
    if b == [] {
      assert a + b == a;
    } else {
      assert (a + b)[..|a + b| - 1] == a + b[..|b| - 1];
      VecsOfConcat(a, b[..|b| - 1]);
    }
  }

  /** Bios that differ at most in what they have cached about segments. */
  ghost predicate SameTransfers(a: seq<Bio>, b: seq<Bio>) {
    && |a| == |b|
    && forall i | 0 <= i < |a| :: SameTransfer(a[i], b[i])
  }

  ghost predicate SameTransfer(a: Bio, b: Bio) {
    b == a.(segValid := b.segValid, physSegs := b.physSegs, segFront := b.segFront, segBack := b.segBack)
  }

  lemma {:induction false} SameTransfersSameVecs(a: seq<Bio>, b: seq<Bio>)
    requires SameTransfers(a, b)
    ensures VecsOf(a) == VecsOf(b)
    ensures BiosOk(a) ==> BiosOk(b)
    decreases |a|
  {
    assert forall i | 0 <= i < |b| :: b[i].Live() == a[i].Live();
    if a != [] {
      SameTransfersSameVecs(a[..|a| - 1], b[..|b| - 1]);
    }
  }
}
