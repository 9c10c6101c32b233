/**
 * The tag map of one queue as the code updates it: a bitmap and an index of the same size. Under the
 * queue lock each operation is a fixed sequence of the steps that queues may otherwise interleave.
 */
module TagOps {
  import opened Options
  import opened Tags

  /** Overrun: the copy into the new arrays runs over their end, and what follows is undefined. */
  datatype Status = Ok | InUse | NoMemory | Overrun

  ghost function BusyTags(bits: seq<bool>): set<nat> {
    set t | 0 <= t < |bits| && bits[t]
  }

  ghost function Indexed(index: seq<Option<nat>>): map<nat, nat> {
    map t: nat | t < |index| && index[t].Some? :: index[t].value
  }

  /** memcpy of the whole source, which has to fit. */
  function Memcpy<T>(src: seq<T>, dst: seq<T>): Option<seq<T>> {
    if |src| <= |dst| then Some(src + dst[|src|..]) else None
  }

  function Zeroed<T>(n: nat, zero: T): seq<T> {
    seq(n, _ => zero)
  }

  method Copy<T>(src: array<T>, dst: array<T>)
    requires src != dst && src.Length <= dst.Length
    modifies dst
    ensures Memcpy(src[..], old(dst[..])) == Some(dst[..])
  {
    var i := 0;
    while i < src.Length
      invariant i <= src.Length
      invariant forall j :: 0 <= j < dst.Length ==> dst[j] == if j < i then src[j] else old(dst[j])
    {
      dst[i] := src[i];
      i := i + 1;
    }
    assert dst[..] == src[..] + old(dst[..])[src.Length..];
  }

  /**
   * The copy into the arrays of a map that grows stays inside them exactly when twice the number of
   * requests of the queue is at least the old depth; and then no bit and no assignment is lost, and
   * none appears.
   */
  lemma GrowKeepsTags(bits: seq<bool>, index: seq<Option<nat>>, depth: nat, nr: nat)
    requires |bits| == |index| < depth
    ensures var size := NewDepth(depth, nr);
            var bits', index' := Memcpy(bits, Zeroed(size, false)), Memcpy(index, Zeroed<Option<nat>>(size, None));
            && (bits'.Some? && index'.Some? <==> nr * 2 >= |index|)
            && (bits'.Some? ==> |bits'.value| == size && BusyTags(bits'.value) == BusyTags(bits))
            && (index'.Some? ==> |index'.value| == size && Indexed(index'.value) == Indexed(index))
  {
    var size := NewDepth(depth, nr);
    if size >= |bits| {
      var b, x := bits + Zeroed(size, false)[|bits|..], index + Zeroed<Option<nat>>(size, None)[|index|..];
      assert forall t :: 0 <= t < size ==> b[t] == (t < |bits| && bits[t]) && x[t] == if t < |index| then index[t] else None;
      assert BusyTags(b) == BusyTags(bits);
      assert Indexed(x) == Indexed(index);
    }
  }

  lemma SetBit(bits: seq<bool>, index: seq<Option<nat>>, t: nat, v: nat)
    requires t < |bits| == |index|
    ensures BusyTags(bits[t := true]) == BusyTags(bits) + {t}
    ensures BusyTags(bits[t := false]) == BusyTags(bits) - {t}
    ensures Indexed(index[t := Some(v)]) == Indexed(index)[t := v]
    ensures Indexed(index[t := None]) == Indexed(index) - {t}
  {
  }

  /** The steps of a request that meets no other queue. */
  function Started(m: Map, rq: nat, sync: bool): Map
    requires rq !in m.reqs && !Refuses(m, Limit(m.maxDepth, sync))
  {
    hide FirstZero, Limit;
    Step(Step(Step(Step(m, Begin(rq, sync)), Find(rq)), TestAndSet(rq)), Publish(rq))
  }

  /** Starting a tag is a search, a test-and-set that succeeds, and the entry in the index. */
  lemma StartSteps(m: Map, rq: nat, sync: bool)
    requires rq !in m.reqs && !Refuses(m, Limit(m.maxDepth, sync))
    ensures var tag := FirstZero(m.busy, 0, Limit(m.maxDepth, sync));
            Started(m, rq, sync)
            == m.(busy := m.busy + {tag}, index := m.index[tag := rq],
                  reqs := m.reqs[rq := Request(sync, InFlight(tag))], owner := m.owner[tag := rq])
  {
    hide FirstZero, Limit;
    var limit := Limit(m.maxDepth, sync);
    var tag := FirstZero(m.busy, 0, limit);
    var a := Step(m, Begin(rq, sync));
    var b := Step(a, Find(rq));
    assert b.reqs == m.reqs[rq := Request(sync, Trying(tag, limit))];
    var c := Step(b, TestAndSet(rq));
    assert c.reqs == m.reqs[rq := Request(sync, Taken(tag))];
    var d := Step(c, Publish(rq));
    assert d.reqs == m.reqs[rq := Request(sync, InFlight(tag))];
  }

  /** Ending a tag clears its entry in the index and then its bit, both of which were there. */
  lemma EndSteps(m: Map, rq: nat, tag: nat)
    requires Owned(m) && rq in m.reqs && m.reqs[rq].stage == InFlight(tag)
    ensures Enabled(m, ClearIndex(rq)) && Enabled(Step(m, ClearIndex(rq)), ClearBit(rq))
    ensures tag < m.realDepth && tag in m.index && tag in m.busy
    ensures Step(Step(m, ClearIndex(rq)), ClearBit(rq))
         == m.(index := m.index - {tag}, busy := m.busy - {tag}, reqs := m.reqs - {rq}, owner := m.owner - {tag})
  {
    assert m.reqs[rq := m.reqs[rq].(stage := Releasing(tag))] - {rq} == m.reqs - {rq};
  }

  lemma ResizeStep(m: Map, depth: nat)
    requires depth <= m.realDepth
    ensures Step(m, Resize(depth)) == m.(maxDepth := depth)
  {
  }

  lemma IndexedAt(bits: seq<bool>, index: seq<Option<nat>>, t: nat)
    requires t < |bits| == |index|
    ensures t in BusyTags(bits) <==> bits[t]
    ensures t in Indexed(index) <==> index[t].Some?
  {
  }

  class TagMap {
    var bits: array<bool>
    var index: array<Option<nat>>
    var maxDepth: nat
    // The requests that have tags, and which one has which.
    ghost var reqs: map<nat, Request>
    ghost var owner: map<nat, nat>

    constructor (depth: nat)
      ensures Valid() && fresh(bits) && fresh(index)
      ensures View() == New(depth)
    {
      bits := new bool[depth](_ => false);
      index := new Option<nat>[depth](_ => None);
      maxDepth := depth;
      reqs, owner := map[], map[];
      new;
      assert BusyTags(bits[..]) == {};
      assert Indexed(index[..]) == map[];
    }

    ghost predicate Valid()
      reads this
    {
      bits.Length == index.Length && maxDepth <= bits.Length
    }

    ghost function View(): Map
      reads this, bits, index
    {
      Map(BusyTags(bits[..]), Indexed(index[..]), maxDepth, bits.Length, reqs, owner)
    }

    method FindFirstZeroBit(limit: nat) returns (tag: nat)
      requires limit <= bits.Length
      ensures tag == FirstZero(BusyTags(bits[..]), 0, limit)
    {
      tag := 0;
      while tag < limit && bits[tag]
        invariant tag <= limit
        invariant FirstZero(BusyTags(bits[..]), 0, limit) == FirstZero(BusyTags(bits[..]), tag, limit)
      {
        assert tag in BusyTags(bits[..]);
        tag := tag + 1;
      }
      assert tag < limit ==> tag !in BusyTags(bits[..]);
    }

    /**
     * blk_queue_start_tag: the lowest free tag open to the request, or a refusal. With the map to
     * itself the queue never loses the race for the bit. Tagging a request twice is a BUG.
     */
    method StartTag(rq: nat, sync: bool, asyncInFlight: nat) returns (got: Option<nat>)
      requires Valid() && rq !in reqs
      modifies this, bits, index
      ensures Valid() && bits == old(bits) && index == old(index) && maxDepth == old(maxDepth)
      ensures got.None? <==>
                (!sync && maxDepth > 1 && asyncInFlight > Limit(maxDepth, sync)) || Refuses(old(View()), Limit(maxDepth, sync))
      ensures got.None? ==> View() == old(View())
      ensures got.Some? ==> View() == Started(old(View()), rq, sync)
      ensures got.Some? ==> got.value == FirstZero(old(View()).busy, 0, Limit(maxDepth, sync)) && View().index == old(View()).index[got.value := rq]
    {
      hide FirstZero, Step, Enabled, BusyTags, Indexed;
      var limit := maxDepth;
      if !sync && limit > 1 {
        limit := limit - 2;
        if limit == 0 {
          limit := 1;
        }
        if asyncInFlight > limit {
          return None;
        }
      }
      var tag := FindFirstZeroBit(limit);
      if tag >= limit {
        return None;
      }
      SetBit(bits[..], index[..], tag, rq);
      StartSteps(View(), rq, sync);
      bits[tag] := true;
      index[tag] := Some(rq);
      assert bits[..] == old(bits[..])[tag := true] && index[..] == old(index[..])[tag := Some(rq)];
      reqs := reqs[rq := Request(sync, InFlight(tag))];
      owner := owner[tag := rq];
      got := Some(tag);
    }

    /**
     * blk_queue_end_tag; `warned` says that one of its messages was printed. For a request in flight
     * none is, and the tag is released.
     */
    method EndTag(rq: nat, tag: nat) returns (warned: bool)
      requires Valid()
      modifies this, bits, index
      ensures Valid() && bits == old(bits) && index == old(index) && maxDepth == old(maxDepth)
      ensures tag >= bits.Length ==> !warned && View() == old(View())
      ensures tag < bits.Length ==>
                && bits[..] == old(bits[..])[tag := false] && index[..] == old(index[..])[tag := None]
                && (warned <==> old(index[tag]) == None || !old(bits[tag]))
      ensures old(Owned(View()) && rq in reqs && reqs[rq].stage == InFlight(tag)) ==>
                !warned && View() == Step(Step(old(View()), ClearIndex(rq)), ClearBit(rq))
    {
      hide Step, Enabled, Owned, BusyTags, Indexed;
      ghost var held := Owned(View()) && rq in reqs && reqs[rq].stage == InFlight(tag);
      if held {
        EndSteps(View(), rq, tag);
      }
      if tag >= bits.Length {
        return false;
      }
      IndexedAt(bits[..], index[..], tag);
      SetBit(bits[..], index[..], tag, rq);
      warned := index[tag] == None || !bits[tag];
      index[tag] := None;
      bits[tag] := false;
      assert bits[..] == old(bits[..])[tag := false] && index[..] == old(index[..])[tag := None];
      if held {
        reqs := reqs - {rq};
        owner := owner - {tag};
      }
    }

    /**
     * blk_queue_resize_tags. Beyond the arrays, new ones are made, of a size that init_tag_map
     * bounds, and what the old ones held is copied; `memory` says that there was memory for them.
     * Nothing is promised of the map after an overrun.
     */
    method Resize(depth: nat, refcnt: nat, nrRequests: nat, memory: bool) returns (status: Status)
      requires Valid() && forall r <- reqs :: reqs[r].stage.InFlight?
      modifies this
      ensures status == InUse <==> depth > old(bits.Length) && refcnt != 1
      ensures status == NoMemory <==> depth > old(bits.Length) && refcnt == 1 && !memory
      ensures status == Overrun <==> depth > old(bits.Length) && refcnt == 1 && memory && nrRequests * 2 < old(bits.Length)
      ensures status != Overrun ==> Valid()
      ensures status == InUse || status == NoMemory ==> View() == old(View())
      ensures status == Ok ==>
                var e := if depth <= old(bits.Length) then Tags.Resize(depth) else Grow(depth, nrRequests);
                Enabled(old(View()), e) && View() == Step(old(View()), e)
    {
      hide BusyTags, Indexed;
      if depth <= bits.Length {
        ResizeStep(View(), depth);
        maxDepth := depth;
        return Ok;
      }
      if refcnt != 1 {
        return InUse;
      }
      if !memory {
        return NoMemory;
      }
      var size := if depth > nrRequests * 2 then nrRequests * 2 else depth;
      var newBits, newIndex := new bool[size](_ => false), new Option<nat>[size](_ => None);
      GrowKeepsTags(bits[..], index[..], depth, nrRequests);
      assert newBits[..] == Zeroed(size, false) && newIndex[..] == Zeroed<Option<nat>>(size, None);
      if index.Length > size {
        return Overrun;
      }
      Copy(bits, newBits);
      assert newIndex[..] == Zeroed<Option<nat>>(size, None);
      Copy(index, newIndex);
      assert BusyTags(newBits[..]) == old(View()).busy && Indexed(newIndex[..]) == old(View()).index;
      bits, index, maxDepth := newBits, newIndex, size;
      status := Ok;
    }
  }
}
