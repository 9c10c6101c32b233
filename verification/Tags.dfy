/**
 * The tag allocator: a bitmap of busy tags and an index from tag to request, which queues may share.
 * Each step of starting and ending a tag is a step of its own, so that queues can interleave.
 */
module Tags {
  /**
   * How far a request has come: it searches below a limit, which it read once; it has a candidate
   * tag, has set the bit, is in the index, or has been taken out of the index again.
   */
  datatype Stage =
    | Searching(limit: nat)
    | Trying(tag: nat, limit: nat)
    | Taken(tag: nat)
    | InFlight(tag: nat)
    | Releasing(tag: nat)

  datatype Request = Request(sync: bool, stage: Stage)

  /** The shared map; `owner` remembers which request set each bit. */
  datatype Map = Map(busy: set<nat>, index: map<nat, nat>, maxDepth: nat, realDepth: nat, reqs: map<nat, Request>, owner: map<nat, nat>)

  /** The tags open to a request: a few are reserved for sync ones. */
  function Limit(maxDepth: nat, sync: bool): nat {
    if !sync && maxDepth > 1 then (if maxDepth - 2 == 0 then 1 else maxDepth - 2) else maxDepth
  }

  /** find_first_zero_bit. */
  function FirstZero(busy: set<nat>, from: nat, limit: nat): (tag: nat)
    requires from <= limit
    ensures from <= tag <= limit
    ensures tag < limit ==> tag !in busy
    ensures forall i :: from <= i < tag ==> i in busy
    decreases limit - from
  {
    if from == limit || from !in busy then from else FirstZero(busy, from + 1, limit)
  }

  predicate Holds(r: Request) {
    !r.stage.Searching? && !r.stage.Trying?
  }

  // ---------------------------------------------------------------------------------------
  // Steps
  // ---------------------------------------------------------------------------------------

  datatype Event =
    | Begin(r: nat, sync: bool)
    | Find(r: nat)
    | TestAndSet(r: nat)              // a lost race leads back to the search
    | Publish(r: nat)
    | ClearIndex(r: nat)
    | ClearBit(r: nat)
    | Resize(depth: nat)
    | Grow(depth: nat, nrRequests: nat)

  predicate Enabled(m: Map, e: Event) {
    match e
    case Begin(r, _) => r !in m.reqs
    case Find(r) => r in m.reqs && m.reqs[r].stage.Searching?
    case TestAndSet(r) => r in m.reqs && m.reqs[r].stage.Trying?
    case Publish(r) => r in m.reqs && m.reqs[r].stage.Taken?
    case ClearIndex(r) => r in m.reqs && m.reqs[r].stage.InFlight?
    case ClearBit(r) => r in m.reqs && m.reqs[r].stage.Releasing?
    // blk_queue_resize_tags within the arrays.
    case Resize(depth) => depth <= m.realDepth
    // New arrays are made only for a map that is not shared: its one queue is locked, so no request is
    // half way.  A copy that runs over their end has no outcome.
    case Grow(depth, nr) =>
      depth > m.realDepth && m.realDepth <= NewDepth(depth, nr) && forall r <- m.reqs :: m.reqs[r].stage.InFlight?
  }

  /** No tag below the limit is free. */
  predicate Refuses(m: Map, limit: nat) {
    FirstZero(m.busy, 0, limit) == limit
  }

  /** init_tag_map bounds the new depth by twice the requests of the queue. */
  function NewDepth(depth: nat, nrRequests: nat): nat {
    if depth > nrRequests * 2 then nrRequests * 2 else depth
  }

  function SetStage(m: Map, r: nat, s: Stage): map<nat, Request>
    requires r in m.reqs
  {
    m.reqs[r := m.reqs[r].(stage := s)]
  }

  function Step(m: Map, e: Event): Map
    requires Enabled(m, e)
  {
    match e
    case Begin(r, sync) =>
      m.(reqs := m.reqs[r := Request(sync, Searching(Limit(m.maxDepth, sync)))])
    case Find(r) =>
      var limit := m.reqs[r].stage.limit;
      if Refuses(m, limit) then m.(reqs := m.reqs - {r})
      else m.(reqs := SetStage(m, r, Trying(FirstZero(m.busy, 0, limit), limit)))
    case TestAndSet(r) =>
      var tag := m.reqs[r].stage.tag;
      if tag in m.busy then m.(reqs := SetStage(m, r, Searching(m.reqs[r].stage.limit)))
      else m.(busy := m.busy + {tag}, reqs := SetStage(m, r, Taken(tag)), owner := m.owner[tag := r])
    case Publish(r) =>
      var tag := m.reqs[r].stage.tag;
      m.(index := m.index[tag := r], reqs := SetStage(m, r, InFlight(tag)))
    case ClearIndex(r) =>
      var tag := m.reqs[r].stage.tag;
      // A tag beyond the arrays is not released.
      if tag >= m.realDepth then m
      else m.(index := m.index - {tag}, reqs := SetStage(m, r, Releasing(tag)))
    case ClearBit(r) =>
      var tag := m.reqs[r].stage.tag;
      m.(busy := m.busy - {tag}, reqs := m.reqs - {r}, owner := m.owner - {tag})
    case Resize(depth) => m.(maxDepth := depth)
    case Grow(depth, nr) =>
      m.(maxDepth := NewDepth(depth, nr), realDepth := NewDepth(depth, nr))
  }

  // ---------------------------------------------------------------------------------------
  // Ownership
  // ---------------------------------------------------------------------------------------

  predicate InRange(realDepth: nat, r: Request) {
    match r.stage
    case Searching(limit) => limit <= realDepth
    case Trying(tag, limit) => tag < limit <= realDepth
    case _ => r.stage.tag < realDepth
  }

  /** A bit is set exactly if a request holds the tag, and the index has the tags in flight. */
  ghost predicate Owned(m: Map) {
    && (forall r <- m.reqs :: InRange(m.realDepth, m.reqs[r]))
    && (forall r <- m.reqs :: Holds(m.reqs[r]) ==> m.reqs[r].stage.tag in m.owner && m.owner[m.reqs[r].stage.tag] == r)
    && (forall t <- m.owner :: m.owner[t] in m.reqs && Holds(m.reqs[m.owner[t]]) && m.reqs[m.owner[t]].stage.tag == t)
    && (forall t :: t in m.busy <==> t in m.owner)
    && (forall r <- m.reqs :: m.reqs[r].stage.InFlight? ==> m.reqs[r].stage.tag in m.index && m.index[m.reqs[r].stage.tag] == r)
    && (forall t <- m.index :: m.index[t] in m.reqs && m.reqs[m.index[t]].stage == InFlight(t))
    && m.maxDepth <= m.realDepth
  }

  lemma BeginOwned(m: Map, r: nat, sync: bool)
    requires Owned(m) && Enabled(m, Begin(r, sync))
    ensures Owned(Step(m, Begin(r, sync)))
  {
  }

  lemma FindOwned(m: Map, r: nat)
    requires Owned(m) && Enabled(m, Find(r))
    ensures Owned(Step(m, Find(r)))
  {
    hide FirstZero;
  }

  lemma TestAndSetOwned(m: Map, r: nat)
    requires Owned(m) && Enabled(m, TestAndSet(r))
    ensures Owned(Step(m, TestAndSet(r)))
  {
    var t := m.reqs[r].stage.tag;
    assert InRange(m.realDepth, m.reqs[r]);
    if t in m.busy {
      LostOwned(m, r);
    }
  }

  /** A request that holds nothing may go back to its search. */
  lemma LostOwned(m: Map, r: nat)
    requires Owned(m) && r in m.reqs && m.reqs[r].stage.Trying?
    ensures Owned(m.(reqs := SetStage(m, r, Searching(m.reqs[r].stage.limit))))
  {
    assert InRange(m.realDepth, m.reqs[r]);
  }

  lemma PublishOwned(m: Map, r: nat)
    requires Owned(m) && Enabled(m, Publish(r))
    ensures Owned(Step(m, Publish(r)))
  {
    var t := m.reqs[r].stage.tag;
    assert m.owner[t] == r;
  }

  lemma ClearIndexOwned(m: Map, r: nat)
    requires Owned(m) && Enabled(m, ClearIndex(r))
    ensures Owned(Step(m, ClearIndex(r)))
  {
    var t := m.reqs[r].stage.tag;
    assert m.index[t] == r;
  }

  lemma ClearBitOwned(m: Map, r: nat)
    requires Owned(m) && Enabled(m, ClearBit(r))
    ensures Owned(Step(m, ClearBit(r)))
  {
    var t := m.reqs[r].stage.tag;
    assert m.owner[t] == r;
  }

  lemma GrowOwned(m: Map, depth: nat, nr: nat)
    requires Owned(m) && Enabled(m, Grow(depth, nr))
    ensures Owned(Step(m, Grow(depth, nr)))
  {
  }

  lemma StepOwned(m: Map, e: Event)
    requires Owned(m) && Enabled(m, e)
    ensures Owned(Step(m, e))
  {
    hide Owned, FirstZero;
    match e
    case Begin(r, sync) => BeginOwned(m, r, sync);
    case Find(r) => FindOwned(m, r);
    case TestAndSet(r) => TestAndSetOwned(m, r);
    case Publish(r) => PublishOwned(m, r);
    case ClearIndex(r) => ClearIndexOwned(m, r);
    case ClearBit(r) => ClearBitOwned(m, r);
    case Resize(depth) => ResizeOwned(m, depth);
    case Grow(depth, nr) => GrowOwned(m, depth, nr);
  }

  lemma ResizeOwned(m: Map, depth: nat)
    requires Owned(m) && depth <= m.realDepth
    ensures Owned(m.(maxDepth := depth))
  {
  }

  // ---------------------------------------------------------------------------------------
  // Runs
  // ---------------------------------------------------------------------------------------

  predicate Possible(m: Map, es: seq<Event>)
    decreases |es|
  {
    es == [] || (Enabled(m, es[0]) && Possible(Step(m, es[0]), es[1..]))
  }

  function Runs(m: Map, es: seq<Event>): Map
    requires Possible(m, es)
    decreases |es|
  {
    if es == [] then m else Runs(Step(m, es[0]), es[1..])
  }

  lemma {:induction false} RunsOwned(m: Map, es: seq<Event>)
    requires Owned(m) && Possible(m, es)
    ensures Owned(Runs(m, es))
    decreases |es|
  {
    hide Owned, Step, Enabled;
    if es != [] {
      StepOwned(m, es[0]);
      RunsOwned(Step(m, es[0]), es[1..]);
    }
  }

  function New(depth: nat): Map {
    Map({}, map[], depth, depth, map[], map[])
  }

  /**
   * Over every interleaving: no two requests hold the same tag, a look-up returns the request in
   * flight with that tag, every held tag can be released however the depth was changed, and neither
   * warning of blk_queue_end_tag is reached.
   */
  lemma TagsHaveOneOwner(depth: nat, es: seq<Event>, r: nat, s: nat)
    requires Possible(New(depth), es)
    requires r in Runs(New(depth), es).reqs && s in Runs(New(depth), es).reqs
    ensures var m := Runs(New(depth), es);
            && (Holds(m.reqs[r]) && Holds(m.reqs[s]) && m.reqs[r].stage.tag == m.reqs[s].stage.tag ==> r == s)
            && (forall t :: m.reqs[r].stage == InFlight(t) <==> t in m.index && m.index[t] == r)
            && (Holds(m.reqs[r]) ==> m.reqs[r].stage.tag < m.realDepth && m.reqs[r].stage.tag in m.busy)
  {
    hide Possible, Runs;
    NewOwned(depth);
    RunsOwned(New(depth), es);
  }

  lemma NewOwned(depth: nat)
    ensures Owned(New(depth))
  {
  }

  // ---------------------------------------------------------------------------------------
  // Tags reserved for sync requests
  // ---------------------------------------------------------------------------------------

  predicate FixedDepth(e: Event) {
    !e.Resize? && !e.Grow?
  }

  /** Async requests stay below the two highest tags. */
  predicate Below(maxDepth: nat, r: Request) {
    match r.stage
    case Searching(limit) => limit == Limit(maxDepth, r.sync)
    case Trying(tag, limit) => limit == Limit(maxDepth, r.sync) && tag < limit
    case _ => !r.sync ==> r.stage.tag < maxDepth - 2
  }

  ghost predicate Reserved(m: Map) {
    m.maxDepth >= 3 && forall r <- m.reqs :: Below(m.maxDepth, m.reqs[r])
  }

  lemma StepReserved(m: Map, e: Event)
    requires Reserved(m) && Enabled(m, e) && FixedDepth(e)
    ensures Reserved(Step(m, e)) && Step(m, e).maxDepth == m.maxDepth
  {
    hide FirstZero;
  }

  lemma {:induction false} RunsReserved(m: Map, es: seq<Event>)
    requires Reserved(m) && Possible(m, es) && forall e <- es :: FixedDepth(e)
    ensures Reserved(Runs(m, es)) && Runs(m, es).maxDepth == m.maxDepth
    decreases |es|
  {
    hide Reserved, Step, Enabled, FixedDepth;
    if es != [] {
      StepReserved(m, es[0]);
      RunsReserved(Step(m, es[0]), es[1..]);
    }
  }

  /**
   * At a fixed depth of at least three no async request ever holds one of the two highest tags, so
   * that when a sync request is refused, sync requests hold both.
   */
  lemma SyncReserve(depth: nat, es: seq<Event>)
    requires depth >= 3 && Possible(New(depth), es) && forall e <- es :: FixedDepth(e)
    ensures var m := Runs(New(depth), es);
            && (forall r <- m.reqs :: Holds(m.reqs[r]) && m.reqs[r].stage.tag >= depth - 2 ==> m.reqs[r].sync)
            && (forall r <- m.reqs :: m.reqs[r].sync && m.reqs[r].stage.Searching? && Refuses(m, m.reqs[r].stage.limit) ==>
                  forall t :: depth - 2 <= t < depth ==> t in m.owner && m.owner[t] in m.reqs && m.reqs[m.owner[t]].sync && Holds(m.reqs[m.owner[t]]) && m.reqs[m.owner[t]].stage.tag == t)
  {
    hide Possible, Runs, FirstZero;
    NewOwned(depth);
    RunsOwned(New(depth), es);
    RunsReserved(New(depth), es);
    var m := Runs(New(depth), es);
    forall r <- m.reqs | m.reqs[r].sync && m.reqs[r].stage.Searching? && Refuses(m, m.reqs[r].stage.limit)
      ensures forall t :: 0 <= t < depth ==> t in m.busy
    {
      assert Below(depth, m.reqs[r]);
    }
  }
}
