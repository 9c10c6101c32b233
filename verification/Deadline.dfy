/**
 * The deadline scheduler: each direction keeps its requests in a tree by sector and in a fifo by
 * deadline, and serves them in batches by sector.
 */
module Deadline {
  import opened Options

  datatype Req = Req(write: bool, pos: int, end: int, due: int)

  /** One direction: the ids in sector order, the ids in fifo order, and where its batch goes on. */
  datatype Side = Side(tree: seq<nat>, fifo: seq<nat>, next: Option<nat>)

  datatype Tunables = Tunables(readExpire: nat, writeExpire: nat, fifoBatch: nat, writesStarved: nat)

  datatype Sched = Sched(reqs: map<nat, Req>, reading: Side, writing: Side, batching: nat, starved: nat, last: int, dispatched: seq<nat>)

  // ---------------------------------------------------------------------------------------
  // Lists of requests
  // ---------------------------------------------------------------------------------------

  function IndexOf(s: seq<nat>, x: nat): (k: nat)
    ensures k <= |s|
    ensures k < |s| ==> s[k] == x
    ensures forall i :: 0 <= i < k ==> s[i] != x
    ensures k == |s| <==> x !in s
  {
    if s == [] || s[0] == x then 0 else 1 + IndexOf(s[1..], x)
  }

  function Without(s: seq<nat>, x: nat): seq<nat> {
    var k := IndexOf(s, x);
    if k == |s| then s else s[..k] + s[k + 1..]
  }

  /** The request after x in the order of the list. */
  function Latter(s: seq<nat>, x: nat): Option<nat> {
    var k := IndexOf(s, x);
    if k + 1 < |s| then Some(s[k + 1]) else None
  }

  function Pos(reqs: map<nat, Req>, x: nat): int {
    if x in reqs then reqs[x].pos else 0
  }

  function Due(reqs: map<nat, Req>, x: nat): int {
    if x in reqs then reqs[x].due else 0
  }

  /** The place for a sector in the tree. */
  function Place(reqs: map<nat, Req>, tree: seq<nat>, pos: int): (k: nat)
    ensures k <= |tree|
  {
    if tree == [] || pos <= Pos(reqs, tree[0]) then 0 else 1 + Place(reqs, tree[1..], pos)
  }

  /** The request that already has this sector. */
  function Alias(reqs: map<nat, Req>, tree: seq<nat>, pos: int): Option<nat> {
    var k := Place(reqs, tree, pos);
    if k < |tree| && Pos(reqs, tree[k]) == pos then Some(tree[k]) else None
  }

  ghost predicate Rising(reqs: map<nat, Req>, tree: seq<nat>) {
    forall i, j :: 0 <= i < j < |tree| ==> Pos(reqs, tree[i]) < Pos(reqs, tree[j])
  }

  ghost predicate Distinct(s: seq<nat>) {
    forall i, j :: 0 <= i < j < |s| ==> s[i] != s[j]
  }

  ghost predicate ByDeadline(reqs: map<nat, Req>, fifo: seq<nat>) {
    forall i, j :: 0 <= i < j < |fifo| ==> Due(reqs, fifo[i]) <= Due(reqs, fifo[j])
  }

  ghost predicate AreOf(reqs: map<nat, Req>, s: seq<nat>, write: bool) {
    forall x <- s :: x in reqs && reqs[x].write == write
  }

  lemma {:induction false} PlaceSplits(reqs: map<nat, Req>, tree: seq<nat>, pos: int)
    requires Rising(reqs, tree)
    ensures forall i :: 0 <= i < Place(reqs, tree, pos) ==> Pos(reqs, tree[i]) < pos
    ensures forall i :: Place(reqs, tree, pos) <= i < |tree| ==> pos <= Pos(reqs, tree[i])
  {
    hide Pos;
    if tree != [] && Pos(reqs, tree[0]) < pos {
      PlaceSplits(reqs, tree[1..], pos);
    }
  }

  lemma WithoutMembers(s: seq<nat>, x: nat)
    requires Distinct(s)
    ensures Distinct(Without(s, x))
    ensures forall y :: y in Without(s, x) <==> y in s && y != x
  {
    hide IndexOf;
    var k := IndexOf(s, x);
    if k < |s| {
      var r := s[..k] + s[k + 1..];
      assert forall i :: 0 <= i < |r| ==> r[i] == if i < k then s[i] else s[i + 1];
      forall y | y in s && y != x
        ensures y in r
      {
        var i :| 0 <= i < |s| && s[i] == y;
        assert r[if i < k then i else i - 1] == y;
      }
    }
  }

  lemma WithoutRising(reqs: map<nat, Req>, s: seq<nat>, x: nat)
    requires Rising(reqs, s)
    ensures Rising(reqs, Without(s, x))
  {
    hide IndexOf, Pos;
    var k := IndexOf(s, x);
    if k < |s| {
      var r := s[..k] + s[k + 1..];
      assert forall i :: 0 <= i < |r| ==> r[i] == if i < k then s[i] else s[i + 1];
    }
  }

  lemma WithoutByDeadline(reqs: map<nat, Req>, s: seq<nat>, x: nat)
    requires ByDeadline(reqs, s)
    ensures ByDeadline(reqs, Without(s, x))
  {
    hide IndexOf, Due;
    var k := IndexOf(s, x);
    if k < |s| {
      var r := s[..k] + s[k + 1..];
      assert forall i :: 0 <= i < |r| ==> r[i] == if i < k then s[i] else s[i + 1];
    }
  }

  lemma RisingDistinct(reqs: map<nat, Req>, tree: seq<nat>)
    requires Rising(reqs, tree)
    ensures Distinct(tree)
  {
    hide Pos;
  }

  // ---------------------------------------------------------------------------------------
  // Operations
  // ---------------------------------------------------------------------------------------

  function SideOf(d: Sched, write: bool): Side {
    if write then d.writing else d.reading
  }

  function WithSide(d: Sched, write: bool, s: Side): Sched {
    if write then d.(writing := s) else d.(reading := s)
  }

  /** deadline_remove_request: off the fifo, and off the tree with the batch going on behind it. */
  function RemoveFrom(s: Side, x: nat): Side {
    Side(Without(s.tree, x), Without(s.fifo, x), if s.next == Some(x) then Latter(s.tree, x) else s.next)
  }

  /** deadline_move_request: the batch goes on behind x in x's direction, and x is dispatched. */
  function Move(d: Sched, x: nat): Sched
    requires x in d.reqs
  {
    var w := d.reqs[x].write;
    var s := SideOf(d, w);
    var cleared := d.(reading := d.reading.(next := None), writing := d.writing.(next := None));
    var s' := RemoveFrom(s.(next := Latter(s.tree, x)), x);
    WithSide(cleared, w, s').(last := d.reqs[x].end, dispatched := d.dispatched + [x])
  }

  /** deadline_add_rq_rb: a request with the same sector is dispatched first. */
  function AddToTree(d: Sched, x: nat): Sched
    requires x in d.reqs
  {
    var w := d.reqs[x].write;
    var alias := Alias(d.reqs, SideOf(d, w).tree, d.reqs[x].pos);
    var d' := if alias.Some? && alias.value in d.reqs then Move(d, alias.value) else d;
    var s := SideOf(d', w);
    var k := Place(d.reqs, s.tree, d.reqs[x].pos);
    WithSide(d', w, s.(tree := s.tree[..k] + [x] + s.tree[k..]))
  }

  function Expire(t: Tunables, write: bool): nat {
    if write then t.writeExpire else t.readExpire
  }

  /** deadline_add_request. */
  function Add(d: Sched, t: Tunables, x: nat, write: bool, pos: int, end: int, now: int): Sched {
    var d' := AddToTree(d.(reqs := d.reqs[x := Req(write, pos, end, now + Expire(t, write))]), x);
    var s := SideOf(d', write);
    WithSide(d', write, s.(fifo := s.fifo + [x]))
  }

  /** deadline_merged_request after a front merge: the request moves in the tree and nowhere else. */
  function FrontMerged(d: Sched, x: nat, pos: int): Sched
    requires x in d.reqs
  {
    var w := d.reqs[x].write;
    var s := SideOf(d, w);
    AddToTree(WithSide(d.(reqs := d.reqs[x := d.reqs[x].(pos := pos)]), w, s.(tree := Without(s.tree, x))), x)
  }

  /** The fifo once x has taken the place of y in it. */
  function TakePlace(fifo: seq<nat>, x: nat, y: nat): seq<nat> {
    var f := Without(fifo, x);
    var k := IndexOf(f, y);
    if k == |f| then f else f[..k] + [x] + f[k + 1..]
  }

  /** deadline_merged_requests: x has swallowed y, and inherits its deadline if that is earlier. */
  function Merged(d: Sched, x: nat, y: nat): Sched
    requires x in d.reqs && y in d.reqs
  {
    var w := d.reqs[x].write;
    var s := SideOf(d, w);
    if d.reqs[y].due < d.reqs[x].due then
      var s' := RemoveFrom(s, y);
      WithSide(d.(reqs := d.reqs[x := d.reqs[x].(due := d.reqs[y].due, end := d.reqs[y].end)]), w, s'.(fifo := TakePlace(s.fifo, x, y)))
    else
      WithSide(d.(reqs := d.reqs[x := d.reqs[x].(end := d.reqs[y].end)]), w, RemoveFrom(s, y))
  }

  /** deadline_check_fifo. */
  predicate Expired(d: Sched, s: Side, now: int) {
    s.fifo != [] && now > Due(d.reqs, s.fifo[0])
  }

  /** The best request of the selected direction. */
  function Best(d: Sched, s: Side, now: int): Option<nat> {
    if s.fifo == [] then None
    else if Expired(d, s, now) || s.next.None? then Some(s.fifo[0])
    else s.next
  }

  /** The request that would go on with the batch. */
  function Batch(d: Sched): Option<nat> {
    if d.writing.next.Some? then d.writing.next else d.reading.next
  }

  datatype Choice = Nothing | Go(x: nat, batching: nat, starved: nat)

  /** Which request deadline_dispatch_requests selects, and what becomes of its two counters. */
  function Choose(d: Sched, t: Tunables, now: int): Choice {
    var haveReads, haveWrites := d.reading.fifo != [], d.writing.fifo != [];
    if Batch(d).Some? && d.batching < t.fifoBatch then Go(Batch(d).value, d.batching + 1, d.starved)
    else if haveReads && !(haveWrites && d.starved >= t.writesStarved) then
      Pick(Best(d, d.reading, now), if haveWrites then d.starved + 1 else d.starved)
    else if haveWrites then Pick(Best(d, d.writing, now), 0)
    else Nothing
  }

  function Pick(best: Option<nat>, starved: nat): Choice {
    if best.Some? then Go(best.value, 1, starved) else Nothing
  }

  /** deadline_dispatch_requests. */
  function Dispatch(d: Sched, t: Tunables, now: int): Sched {
    match Choose(d, t, now)
    case Go(x, batching, starved) => if x in d.reqs then Move(d.(batching := batching, starved := starved), x) else d
    case Nothing => d
  }

  // ---------------------------------------------------------------------------------------
  // The two indexes
  // ---------------------------------------------------------------------------------------

  ghost predicate SameMembers(a: seq<nat>, b: seq<nat>) {
    forall x :: x in a <==> x in b
  }

  /** Tree and fifo of a direction hold the same requests, each in its order, and the batch goes on inside. */
  ghost predicate SideOk(reqs: map<nat, Req>, s: Side, write: bool) {
    && AreOf(reqs, s.tree, write)
    && Rising(reqs, s.tree)
    && Distinct(s.fifo)
    && ByDeadline(reqs, s.fifo)
    && SameMembers(s.tree, s.fifo)
    && (s.next.Some? ==> s.next.value in s.tree)
  }

  ghost predicate Inv(d: Sched) {
    && SideOk(d.reqs, d.reading, false)
    && SideOk(d.reqs, d.writing, true)
    && (d.reading.next.None? || d.writing.next.None?)
  }

  lemma LatterInTree(reqs: map<nat, Req>, tree: seq<nat>, x: nat)
    requires Rising(reqs, tree)
    ensures Latter(tree, x).Some? ==> Latter(tree, x).value in tree && Latter(tree, x).value != x
  {
    hide Pos;
    RisingDistinct(reqs, tree);
  }

  lemma RemoveFromOk(reqs: map<nat, Req>, s: Side, write: bool, x: nat)
    requires SideOk(reqs, s, write)
    ensures SideOk(reqs, RemoveFrom(s, x), write)
  {
    hide Without, Latter, Rising, Distinct, ByDeadline;
    RisingDistinct(reqs, s.tree);
    WithoutMembers(s.tree, x);
    WithoutMembers(s.fifo, x);
    WithoutRising(reqs, s.tree, x);
    WithoutByDeadline(reqs, s.fifo, x);
    LatterInTree(reqs, s.tree, x);
  }

  lemma MoveOk(d: Sched, x: nat)
    requires Inv(d) && x in d.reqs && x in SideOf(d, d.reqs[x].write).tree
    ensures Inv(Move(d, x))
  {
    hide RemoveFrom, Latter, Rising, Distinct, ByDeadline, SameMembers;
    var w := d.reqs[x].write;
    var s := SideOf(d, w);
    LatterInTree(d.reqs, s.tree, x);
    RemoveFromOk(d.reqs, s.(next := Latter(s.tree, x)), w, x);
  }

  /** An insertion at the place of its sector, when no request has that sector. */
  function Inserted(reqs: map<nat, Req>, tree: seq<nat>, x: nat): seq<nat> {
    var k := Place(reqs, tree, Pos(reqs, x));
    tree[..k] + [x] + tree[k..]
  }

  lemma InsertedOk(reqs: map<nat, Req>, tree: seq<nat>, x: nat)
    requires Rising(reqs, tree) && Alias(reqs, tree, Pos(reqs, x)).None?
    ensures Rising(reqs, Inserted(reqs, tree, x))
    ensures forall y :: y in Inserted(reqs, tree, x) <==> y in tree || y == x
  {
    hide Pos;
    PlaceSplits(reqs, tree, Pos(reqs, x));
    var k := Place(reqs, tree, Pos(reqs, x));
    var r := Inserted(reqs, tree, x);
    assert forall i :: 0 <= i < |r| ==> r[i] == if i < k then tree[i] else if i == k then x else tree[i - 1];
    InsertedMembers(tree, k, x);
  }

  lemma InsertedMembers(tree: seq<nat>, k: nat, x: nat)
    requires k <= |tree|
    ensures forall y :: y in tree[..k] + [x] + tree[k..] <==> y in tree || y == x
  {
    assert tree == tree[..k] + tree[k..];
  }

  /** Once the request with a sector is gone, none has it. */
  lemma AliasGone(reqs: map<nat, Req>, tree: seq<nat>, pos: int)
    requires Rising(reqs, tree) && Alias(reqs, tree, pos).Some?
    ensures Alias(reqs, tree, pos).value in tree
    ensures Alias(reqs, Without(tree, Alias(reqs, tree, pos).value), pos).None?
  {
    hide Pos, Without, Place;
    var a := Alias(reqs, tree, pos).value;
    RisingDistinct(reqs, tree);
    WithoutMembers(tree, a);
    var r := Without(tree, a);
    var k := Place(reqs, r, pos);
    if k < |r| && Pos(reqs, r[k]) == pos {
      assert r[k] in r;
      assert r[k] in tree && r[k] != a;
      SamePos(reqs, tree, r[k], a);
    }
  }

  lemma SamePos(reqs: map<nat, Req>, tree: seq<nat>, x: nat, y: nat)
    requires Rising(reqs, tree) && x in tree && y in tree && Pos(reqs, x) == Pos(reqs, y)
    ensures x == y
  {
    hide Pos;
    var i :| 0 <= i < |tree| && tree[i] == x;
    var j :| 0 <= j < |tree| && tree[j] == y;
    assert !(i < j) && !(j < i);
  }

  /** The state in which deadline_add_rq_rb is called: x may be on the fifo already, but not in the tree. */
  ghost predicate Hole(reqs: map<nat, Req>, s: Side, write: bool, x: nat) {
    && x in reqs && reqs[x].write == write && x !in s.tree
    && AreOf(reqs, s.tree, write)
    && Rising(reqs, s.tree)
    && Distinct(s.fifo)
    && ByDeadline(reqs, s.fifo)
    && (forall y :: y in s.fifo <==> y in s.tree || (y == x && x in s.fifo))
    && (s.next.Some? ==> s.next.value in s.tree || (s.next.value == x && x in s.fifo))
  }

  ghost predicate OthersOk(d: Sched, write: bool) {
    SideOk(d.reqs, SideOf(d, !write), !write) && (d.reading.next.None? || d.writing.next.None?)
  }

  /** The hole is filled: x is in the tree, and only the fifo may still lack it. */
  ghost predicate Filled(reqs: map<nat, Req>, s: Side, write: bool, x: nat) {
    && AreOf(reqs, s.tree, write)
    && Rising(reqs, s.tree)
    && x in s.tree
    && Distinct(s.fifo)
    && ByDeadline(reqs, s.fifo)
    && (forall y :: y in s.fifo <==> y in s.tree && (y == x ==> x in s.fifo))
    && (s.next.Some? ==> s.next.value in s.tree)
  }

  lemma DropAlias(d: Sched, x: nat, a: nat)
    requires x in d.reqs && a in d.reqs && d.reqs[a].write == d.reqs[x].write && a != x
    requires Hole(d.reqs, SideOf(d, d.reqs[x].write), d.reqs[x].write, x) && OthersOk(d, d.reqs[x].write)
    requires a in SideOf(d, d.reqs[x].write).tree
    ensures var w := d.reqs[x].write; var r := Move(d, a);
            && Hole(r.reqs, SideOf(r, w), w, x) && OthersOk(r, w)
            && r.reqs == d.reqs
            && SideOf(r, w).tree == Without(SideOf(d, w).tree, a)
            && SideOf(r, w).fifo == Without(SideOf(d, w).fifo, a)
  {
    hide Without, Latter, Rising, Distinct, ByDeadline, SameMembers, AreOf;
    var w := d.reqs[x].write;
    var s := SideOf(d, w);
    LatterInTree(d.reqs, s.tree, a);
    RisingDistinct(d.reqs, s.tree);
    WithoutMembers(s.tree, a);
    WithoutMembers(s.fifo, a);
    WithoutRising(d.reqs, s.tree, a);
    WithoutByDeadline(d.reqs, s.fifo, a);
    SubsetAreOf(d.reqs, s.tree, Without(s.tree, a), w);
  }

  lemma SubsetAreOf(reqs: map<nat, Req>, a: seq<nat>, b: seq<nat>, write: bool)
    requires AreOf(reqs, a, write) && forall x <- b :: x in a
    ensures AreOf(reqs, b, write)
  {
  }

  lemma FillHole(reqs: map<nat, Req>, s: Side, write: bool, x: nat)
    requires Hole(reqs, s, write, x) && Alias(reqs, s.tree, reqs[x].pos).None?
    ensures Filled(reqs, s.(tree := Inserted(reqs, s.tree, x)), write, x)
  {
    hide Inserted, Rising, Distinct, ByDeadline, Alias;
    InsertedOk(reqs, s.tree, x);
  }

  /** After the repositioning, or the first placing, of a request. */
  lemma AddToTreeOk(d: Sched, x: nat)
    requires x in d.reqs
    requires Hole(d.reqs, SideOf(d, d.reqs[x].write), d.reqs[x].write, x) && OthersOk(d, d.reqs[x].write)
    ensures var w := d.reqs[x].write; var r := AddToTree(d, x);
            && r.reqs == d.reqs && Filled(r.reqs, SideOf(r, w), w, x) && OthersOk(r, w)
            && (x in SideOf(r, w).fifo <==> x in SideOf(d, w).fifo)
            && (forall y <- SideOf(r, w).fifo :: y in SideOf(d, w).fifo)
            && SideOf(r, !w).fifo == SideOf(d, !w).fifo
  {
    hide Without, Inserted, Rising, Distinct, ByDeadline, SameMembers, AreOf, Alias, Place, Hole, Filled, Move;
    var w := d.reqs[x].write;
    var s := SideOf(d, w);
    var pos := d.reqs[x].pos;
    var alias := Alias(d.reqs, s.tree, pos);
    HoleFacts(d.reqs, s, w, x);
    InsertedDef(d.reqs, s.tree, x);
    if alias.Some? {
      AliasGone(d.reqs, s.tree, pos);
      var a := alias.value;
      MemberOf(d.reqs, s.tree, w, a);
      DropAlias(d, x, a);
      MoveOther(d, a);
      WithoutMembers(s.fifo, a);
      FillHole(d.reqs, SideOf(Move(d, a), w), w, x);
      InsertedDef(d.reqs, SideOf(Move(d, a), w).tree, x);
    } else {
      FillHole(d.reqs, s, w, x);
    }
  }

  lemma HoleFacts(reqs: map<nat, Req>, s: Side, write: bool, x: nat)
    requires Hole(reqs, s, write, x)
    ensures Rising(reqs, s.tree) && Distinct(s.fifo) && AreOf(reqs, s.tree, write) && x !in s.tree
  {
  }

  lemma MemberOf(reqs: map<nat, Req>, s: seq<nat>, write: bool, a: nat)
    requires AreOf(reqs, s, write) && a in s
    ensures a in reqs && reqs[a].write == write
  {
  }

  lemma MoveOther(d: Sched, a: nat)
    requires a in d.reqs
    ensures SideOf(Move(d, a), !d.reqs[a].write).fifo == SideOf(d, !d.reqs[a].write).fifo
  {
  }

  lemma InsertedDef(reqs: map<nat, Req>, tree: seq<nat>, x: nat)
    requires x in reqs
    ensures var k := Place(reqs, tree, reqs[x].pos);
            Inserted(reqs, tree, x) == tree[..k] + [x] + tree[k..]
  {
  }
}
