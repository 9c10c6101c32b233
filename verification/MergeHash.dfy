/**
 * The merge hash of the elevator core: requests in the scheduler are hashed by the sector behind
 * their last one, and a look-up by that sector finds a candidate for a back merge. Nothing here
 * depends on the hash function.
 */
module MergeHash {
  import opened Options

  /** The sectors of a request, and whether rq_mergeable still holds of it. */
  datatype Req = Req(pos: int, len: nat, mergeable: bool) {
    /** rq_hash_key: the sector behind the last one. */
    function End(): int {
      pos + len
    }

    function GrownBack(n: nat): Req {
      this.(len := len + n)
    }

    function GrownFront(n: nat): Req {
      this.(pos := pos - n, len := len + n)
    }
  }

  /** The requests in the scheduler, the buckets, and the request merged last. */
  datatype Hash = Hash(reqs: map<nat, Req>, table: map<int, seq<nat>>, last: Option<nat>)

  function Bucket(t: map<int, seq<nat>>, b: int): seq<nat> {
    if b in t then t[b] else []
  }

  function Without(s: seq<nat>, x: nat): seq<nat> {
    if s == [] then [] else if s[0] == x then Without(s[1..], x) else [s[0]] + Without(s[1..], x)
  }

  lemma {:induction false} WithoutMembers(s: seq<nat>, x: nat)
    ensures forall y :: y in Without(s, x) <==> y in s && y != x
  {
    if s != [] {
      WithoutMembers(s[1..], x);
      assert forall y :: y in s <==> y == s[0] || y in s[1..];
    }
  }

  // ---------------------------------------------------------------------------------------
  // Operations
  // ---------------------------------------------------------------------------------------

  /** __elv_rqhash_del: wherever the request is, it is unlinked. */
  function Unhash(t: map<int, seq<nat>>, x: nat): map<int, seq<nat>> {
    map b | b in t :: Without(t[b], x)
  }

  /** elv_rqhash_add: to the front of the bucket of its key. */
  function Rehash(t: map<int, seq<nat>>, h: int -> int, x: nat, end: int): map<int, seq<nat>> {
    t[h(end) := [x] + Bucket(t, h(end))]
  }

  /** elv_insert into the scheduler. */
  function Insert(s: Hash, h: int -> int, x: nat, r: Req): Hash {
    s.(reqs := s.reqs[x := r],
       table := if r.mergeable then Rehash(s.table, h, x, r.End()) else s.table,
       last := if r.mergeable && s.last == None then Some(x) else s.last)
  }

  /** elv_dispatch_sort and elv_dispatch_add_tail: the request leaves the scheduler. */
  function Dispatch(s: Hash, x: nat): Hash {
    Hash(s.reqs - {x}, Unhash(s.table, x), if s.last == Some(x) then None else s.last)
  }

  /** elv_merged_request: only after a back merge is the request hashed again. */
  function BackMerged(s: Hash, h: int -> int, x: nat, n: nat): Hash
    requires x in s.reqs
  {
    var r := s.reqs[x].GrownBack(n);
    Hash(s.reqs[x := r], Rehash(Unhash(s.table, x), h, x, r.End()), Some(x))
  }

  function FrontMerged(s: Hash, x: nat, n: nat): Hash
    requires x in s.reqs
  {
    s.(reqs := s.reqs[x := s.reqs[x].GrownFront(n)], last := Some(x))
  }

  /** elv_merge_requests: x takes over the sectors of y, and y is gone. */
  function Joined(s: Hash, h: int -> int, x: nat, y: nat): Hash
    requires x in s.reqs && y in s.reqs
  {
    var r := s.reqs[x].GrownBack(s.reqs[y].len);
    Hash(s.reqs[x := r] - {y}, Unhash(Rehash(Unhash(s.table, x), h, x, r.End()), y), Some(x))
  }

  /** A merge was refused: the request takes no further ones. */
  function Refused(s: Hash, x: nat): Hash
    requires x in s.reqs
  {
    s.(reqs := s.reqs[x := s.reqs[x].(mergeable := false)], last := if s.last == Some(x) then None else s.last)
  }

  predicate Matches(reqs: map<nat, Req>, x: nat, sector: int) {
    x in reqs && reqs[x].mergeable && reqs[x].End() == sector
  }

  /** The scan of elv_rqhash_find: unlinks what can no longer merge, up to the first match. */
  function Scan(reqs: map<nat, Req>, list: seq<nat>, sector: int): (r: (seq<nat>, Option<nat>)) {
    if list == [] then ([], None)
    else if list[0] in reqs && reqs[list[0]].mergeable then
      if reqs[list[0]].End() == sector then (list, Some(list[0]))
      else
        var (rest, found) := Scan(reqs, list[1..], sector);
        ([list[0]] + rest, found)
    else Scan(reqs, list[1..], sector)
  }

  function Find(s: Hash, h: int -> int, sector: int): (Hash, Option<nat>) {
    var (list, found) := Scan(s.reqs, Bucket(s.table, h(sector)), sector);
    (s.(table := s.table[h(sector) := list]), found)
  }

  // ---------------------------------------------------------------------------------------
  // What every operation keeps
  // ---------------------------------------------------------------------------------------

  /** Every hashed request is in the scheduler and in the bucket of its current end; every mergeable one is hashed. */
  ghost predicate Inv(s: Hash, h: int -> int) {
    && (forall b, x :: x in Bucket(s.table, b) ==> x in s.reqs && h(s.reqs[x].End()) == b)
    && (forall x <- s.reqs :: s.reqs[x].mergeable ==> x in Bucket(s.table, h(s.reqs[x].End())))
    && (s.last.Some? ==> s.last.value in s.reqs)
  }

  lemma UnhashBuckets(t: map<int, seq<nat>>, x: nat)
    ensures forall b, y :: y in Bucket(Unhash(t, x), b) <==> y in Bucket(t, b) && y != x
  {
    forall b, y
      ensures y in Bucket(Unhash(t, x), b) <==> y in Bucket(t, b) && y != x
    {
      WithoutMembers(Bucket(t, b), x);
    }
  }

  lemma RehashBuckets(t: map<int, seq<nat>>, h: int -> int, x: nat, end: int)
    ensures forall b, y :: y in Bucket(Rehash(t, h, x, end), b) <==> y in Bucket(t, b) || (y == x && b == h(end))
  {
  }

  lemma InsertInv(s: Hash, h: int -> int, x: nat, r: Req)
    requires Inv(s, h) && x !in s.reqs
    ensures Inv(Insert(s, h, x, r), h)
  {
    hide Bucket, Rehash;
    RehashBuckets(s.table, h, x, r.End());
  }

  lemma DispatchInv(s: Hash, h: int -> int, x: nat)
    requires Inv(s, h)
    ensures Inv(Dispatch(s, x), h)
  {
    hide Bucket, Unhash;
    UnhashBuckets(s.table, x);
  }

  lemma BackMergedInv(s: Hash, h: int -> int, x: nat, n: nat)
    requires Inv(s, h) && x in s.reqs
    ensures Inv(BackMerged(s, h, x, n), h)
  {
    hide Bucket, Unhash, Rehash;
    UnhashBuckets(s.table, x);
    RehashBuckets(Unhash(s.table, x), h, x, s.reqs[x].GrownBack(n).End());
  }

  /** A front merge needs no new place in the hash: the request starts earlier by as much as it is
      longer. */
  lemma FrontMergedInv(s: Hash, h: int -> int, x: nat, n: nat)
    requires Inv(s, h) && x in s.reqs
    ensures Inv(FrontMerged(s, x, n), h)
    ensures FrontMerged(s, x, n).reqs[x].End() == s.reqs[x].End()
  {
    hide Bucket;
    var r := FrontMerged(s, x, n);
    assert r.reqs[x].End() == s.reqs[x].End();
    assert forall y <- s.reqs :: y in r.reqs && r.reqs[y].End() == s.reqs[y].End();
  }

  lemma JoinedInv(s: Hash, h: int -> int, x: nat, y: nat)
    requires Inv(s, h) && x in s.reqs && y in s.reqs && x != y
    ensures Inv(Joined(s, h, x, y), h)
  {
    hide Bucket, Unhash, Rehash;
    var end := s.reqs[x].GrownBack(s.reqs[y].len).End();
    UnhashBuckets(s.table, x);
    RehashBuckets(Unhash(s.table, x), h, x, end);
    UnhashBuckets(Rehash(Unhash(s.table, x), h, x, end), y);
  }

  lemma RefusedInv(s: Hash, h: int -> int, x: nat)
    requires Inv(s, h) && x in s.reqs
    ensures Inv(Refused(s, x), h)
  {
    hide Bucket;
  }

  lemma {:induction false} ScanFinds(reqs: map<nat, Req>, list: seq<nat>, sector: int)
    ensures var (rest, found) := Scan(reqs, list, sector);
            && (forall y <- rest :: y in list)
            && (forall y <- list :: y in reqs && reqs[y].mergeable ==> y in rest)
            && (found.Some? ==> found.value in list && Matches(reqs, found.value, sector))
            && (found.None? ==> forall y <- list :: !Matches(reqs, y, sector))
  {
    if list != [] {
      ScanFinds(reqs, list[1..], sector);
      assert forall y :: y in list <==> y == list[0] || y in list[1..];
    }
  }

  /** The look-up finds a mergeable request ending at the sector exactly when the scheduler holds one. */
  lemma FindIsLinearScan(s: Hash, h: int -> int, sector: int)
    requires Inv(s, h)
    ensures var (r, found) := Find(s, h, sector);
            && Inv(r, h) && r.reqs == s.reqs && r.last == s.last
            && (found.Some? ==> Matches(s.reqs, found.value, sector))
            && (found.Some? <==> exists x :: Matches(s.reqs, x, sector))
  {
    hide Scan;
    var list := Bucket(s.table, h(sector));
    ScanFinds(s.reqs, list, sector);
    var (rest, found) := Scan(s.reqs, list, sector);
    var r := Find(s, h, sector).0;
    assert forall b :: Bucket(r.table, b) == if b == h(sector) then rest else Bucket(s.table, b);
    assert forall x :: Matches(s.reqs, x, sector) ==> x in list;
  }

  // ---------------------------------------------------------------------------------------
  // Runs
  // ---------------------------------------------------------------------------------------

  datatype Event =
    | NewRequest(x: nat, r: Req)
    | Leave(x: nat)
    | MergeBack(x: nat, n: nat)
    | MergeFront(x: nat, n: nat)
    | Join(x: nat, y: nat)
    | Refuse(x: nat)
    | LookUp(sector: int)

  predicate Enabled(s: Hash, e: Event) {
    match e
    case NewRequest(x, _) => x !in s.reqs
    case Leave(x) => x in s.reqs
    case MergeBack(x, _) => x in s.reqs
    case MergeFront(x, _) => x in s.reqs
    case Join(x, y) => x in s.reqs && y in s.reqs && x != y
    case Refuse(x) => x in s.reqs
    case LookUp(_) => true
  }

  function Step(s: Hash, h: int -> int, e: Event): Hash
    requires Enabled(s, e)
  {
    match e
    case NewRequest(x, r) => Insert(s, h, x, r)
    case Leave(x) => Dispatch(s, x)
    case MergeBack(x, n) => BackMerged(s, h, x, n)
    case MergeFront(x, n) => FrontMerged(s, x, n)
    case Join(x, y) => Joined(s, h, x, y)
    case Refuse(x) => Refused(s, x)
    case LookUp(sector) => Find(s, h, sector).0
  }

  lemma StepInv(s: Hash, h: int -> int, e: Event)
    requires Inv(s, h) && Enabled(s, e)
    ensures Inv(Step(s, h, e), h)
  {
    hide Bucket, Insert, Dispatch, BackMerged, FrontMerged, Joined, Refused, Find;
    match e
    case NewRequest(x, r) => InsertInv(s, h, x, r);
    case Leave(x) => DispatchInv(s, h, x);
    case MergeBack(x, n) => BackMergedInv(s, h, x, n);
    case MergeFront(x, n) => FrontMergedInv(s, h, x, n);
    case Join(x, y) => JoinedInv(s, h, x, y);
    case Refuse(x) => RefusedInv(s, h, x);
    case LookUp(sector) => FindIsLinearScan(s, h, sector);
  }

  predicate Possible(s: Hash, h: int -> int, es: seq<Event>)
    decreases |es|
  {
    es == [] || (Enabled(s, es[0]) && Possible(Step(s, h, es[0]), h, es[1..]))
  }

  function Runs(s: Hash, h: int -> int, es: seq<Event>): Hash
    requires Possible(s, h, es)
    decreases |es|
  {
    if es == [] then s else Runs(Step(s, h, es[0]), h, es[1..])
  }

  lemma {:induction false} RunsInv(s: Hash, h: int -> int, es: seq<Event>)
    requires Inv(s, h) && Possible(s, h, es)
    ensures Inv(Runs(s, h, es), h)
    decreases |es|
  {
    hide Inv, Step, Enabled;
    if es != [] {
      StepInv(s, h, es[0]);
      RunsInv(Step(s, h, es[0]), h, es[1..]);
    }
  }

  /**
   * In every reachable state the hash look-up agrees with a scan of all the requests in the
   * scheduler, and the request merged last is one of them.
   */
  lemma HashRefinesScan(h: int -> int, es: seq<Event>, sector: int)
    requires Possible(Hash(map[], map[], None), h, es)
    ensures var s := Runs(Hash(map[], map[], None), h, es);
            && (s.last.Some? ==> s.last.value in s.reqs)
            && (forall b, x :: x in Bucket(s.table, b) ==> x in s.reqs && h(s.reqs[x].End()) == b)
            && (Find(s, h, sector).1.Some? <==> exists x :: Matches(s.reqs, x, sector))
            && (Find(s, h, sector).1.Some? ==> Matches(s.reqs, Find(s, h, sector).1.value, sector))
  {
    hide Possible, Runs, Find, Bucket;
    EmptyInv(h);
    RunsInv(Hash(map[], map[], None), h, es);
    FindIsLinearScan(Runs(Hash(map[], map[], None), h, es), h, sector);
  }

  lemma EmptyInv(h: int -> int)
    ensures Inv(Hash(map[], map[], None), h)
  {
  }

  // ---------------------------------------------------------------------------------------
  // The hash as the code updates it
  // ---------------------------------------------------------------------------------------

  class Elevator {
    const h: int -> int
    var reqs: map<nat, Req>
    var table: map<int, seq<nat>>
    var last: Option<nat>

    constructor (h: int -> int)
      ensures this.h == h && View() == Hash(map[], map[], None)
    {
      this.h := h;
      reqs, table, last := map[], map[], None;
    }

    ghost function View(): Hash
      reads this
    {
      Hash(reqs, table, last)
    }

    ghost predicate OnHash(x: nat)
      reads this
    {
      exists b :: x in Bucket(table, b)
    }

    method RqhashDel(x: nat)
      modifies `table
      ensures table == Unhash(old(table), x) && !OnHash(x)
    {
      table := Unhash(table, x);
      UnhashBuckets(old(table), x);
    }

    /** elv_rqhash_add; a request that is hashed already is a BUG. */
    method RqhashAdd(x: nat)
      requires x in reqs && !OnHash(x)
      modifies `table
      ensures table == Rehash(old(table), h, x, reqs[x].End())
    {
      var b := h(reqs[x].End());
      table := table[b := [x] + Bucket(table, b)];
    }

    method RqhashReposition(x: nat)
      requires x in reqs
      modifies `table
      ensures table == Rehash(Unhash(old(table), x), h, x, reqs[x].End())
    {
      RqhashDel(x);
      RqhashAdd(x);
    }

    /** elv_rqhash_find. */
    method RqhashFind(sector: int) returns (found: Option<nat>)
      requires Inv(View(), h)
      modifies `table
      ensures Inv(View(), h) && (View(), found) == Find(old(View()), h, sector)
      ensures found.Some? ==> Matches(reqs, found.value, sector)
      ensures found.Some? <==> exists x :: Matches(reqs, x, sector)
    {
      hide Inv;
      FindIsLinearScan(View(), h, sector);
      var list := Bucket(table, h(sector));
      var kept, i := [], 0;
      found := None;
      assert list[0..] == list;
      while i < |list|
        invariant i <= |list| && found.None?
        invariant Scan(reqs, list, sector).0 == kept + Scan(reqs, list[i..], sector).0
        invariant Scan(reqs, list, sector).1 == Scan(reqs, list[i..], sector).1
      {
        var x := list[i];
        assert list[i..][1..] == list[i + 1..];
        if x !in reqs || !reqs[x].mergeable {
          i := i + 1;
          continue;
        }
        if reqs[x].End() == sector {
          found := Some(x);
          break;
        }
        assert kept + ([x] + Scan(reqs, list[i + 1..], sector).0) == (kept + [x]) + Scan(reqs, list[i + 1..], sector).0;
        kept := kept + [x];
        i := i + 1;
      }
      table := table[h(sector) := kept + list[i..]];
    }

    /** The part of elv_insert that adds to the scheduler. */
    method InsertSort(x: nat, r: Req)
      requires Inv(View(), h) && x !in reqs
      modifies this
      ensures View() == Insert(old(View()), h, x, r)
    {
      hide Rehash;
      assert !OnHash(x);
      reqs := reqs[x := r];
      if r.mergeable {
        RqhashAdd(x);
        if last == None {
          last := Some(x);
        }
      }
    }

    /** The bookkeeping of elv_dispatch_sort and elv_dispatch_add_tail. */
    method LeaveScheduler(x: nat)
      modifies this
      ensures View() == Dispatch(old(View()), x)
    {
      hide Unhash;
      if last == Some(x) {
        last := None;
      }
      RqhashDel(x);
      reqs := reqs - {x};
    }

    /** A bio of `n` sectors was merged, and elv_merged_request. */
    method MergedRequest(x: nat, back: bool, n: nat)
      requires x in reqs
      modifies this
      ensures View() == if back then BackMerged(old(View()), h, x, n) else FrontMerged(old(View()), x, n)
    {
      hide Unhash, Rehash;
      if back {
        reqs := reqs[x := reqs[x].(len := reqs[x].len + n)];
        RqhashReposition(x);
      } else {
        reqs := reqs[x := reqs[x].(pos := reqs[x].pos - n, len := reqs[x].len + n)];
      }
      last := Some(x);
    }

    /** The request y was appended to x, and elv_merge_requests. */
    method MergeRequests(x: nat, y: nat)
      requires x in reqs && y in reqs && x != y
      modifies this
      ensures View() == Joined(old(View()), h, x, y)
    {
      hide Unhash, Rehash;
      reqs := reqs[x := reqs[x].(len := reqs[x].len + reqs[y].len)];
      RqhashReposition(x);
      RqhashDel(y);
      reqs := reqs - {y};
      last := Some(x);
    }
  }
}
