/**
 * The sorted dispatch list of the elevator core: requests are placed from the back, in one sweep
 * upwards from the boundary and then from the lowest sector, never past a request that stops them.
 */
module DispatchSort {
  /** `stop` says that the request is a barrier or has been started. */
  datatype Entry = Entry(id: nat, pos: int, write: bool, discard: bool, stop: bool)

  /** In the one-way order from the boundary, a comes strictly before b. */
  predicate Before(boundary: int, a: Entry, b: Entry) {
    if (a.pos < boundary) == (b.pos < boundary) then a.pos < b.pos else a.pos >= boundary
  }

  /** The request at the end of the list may not be passed. */
  predicate Stops(rq: Entry, e: Entry) {
    rq.discard != e.discard || rq.write != e.write || e.stop
  }

  /** Where the scan from the back of elv_dispatch_sort ends. */
  function Place(list: seq<Entry>, rq: Entry, boundary: int): (k: nat)
    ensures k <= |list|
  {
    if list == [] then 0
    else
      var e := list[|list| - 1];
      if Stops(rq, e) || !Before(boundary, rq, e) then |list| else Place(list[..|list| - 1], rq, boundary)
  }

  function Sort(list: seq<Entry>, rq: Entry, boundary: int): seq<Entry> {
    var k := Place(list, rq, boundary);
    list[..k] + [rq] + list[k..]
  }

  /** What the new request passes comes after it in the order, and what it stays behind stops it or does not. */
  lemma {:induction false} PlaceIs(list: seq<Entry>, rq: Entry, boundary: int)
    ensures var k := Place(list, rq, boundary);
            && (forall i :: k <= i < |list| ==> !Stops(rq, list[i]) && Before(boundary, rq, list[i]))
            && (k > 0 ==> Stops(rq, list[k - 1]) || !Before(boundary, rq, list[k - 1]))
  {
    hide Before, Stops;
    if list != [] {
      var n := |list| - 1;
      if !Stops(rq, list[n]) && Before(boundary, rq, list[n]) {
        PlaceIs(list[..n], rq, boundary);
      }
    }
  }

  /** Neighbours between which nothing stops are in order. */
  ghost predicate InOrder(list: seq<Entry>, boundary: int) {
    forall i :: 0 <= i < |list| - 1 && !Stops(list[i + 1], list[i]) && !list[i + 1].stop ==> !Before(boundary, list[i + 1], list[i])
  }

  /** A run: requests of one direction and kind, none of which stops another. */
  ghost predicate IsRun(list: seq<Entry>, from: int, to: int)
    requires 0 <= from <= to <= |list|
  {
    forall i, j :: from <= i < to && from <= j < to ==> !Stops(list[i], list[j])
  }

  lemma SortInOrder(list: seq<Entry>, rq: Entry, boundary: int)
    requires InOrder(list, boundary)
    ensures InOrder(Sort(list, rq, boundary), boundary)
  {
    hide Place;
    PlaceIs(list, rq, boundary);
    var k := Place(list, rq, boundary);
    var r := Sort(list, rq, boundary);
    assert forall i :: 0 <= i < |r| ==> r[i] == if i < k then list[i] else if i == k then rq else list[i - 1];
    assert k < |list| ==> !Before(boundary, list[k], rq);
  }

  /** Within a run the whole order holds, not only between neighbours. */
  lemma {:induction false} RunSorted(list: seq<Entry>, boundary: int, i: nat, j: nat)
    requires InOrder(list, boundary) && i <= j < |list| && IsRun(list, i, j + 1)
    ensures !Before(boundary, list[j], list[i])
    decreases j - i
  {
    if i < j {
      assert !Stops(list[j], list[j - 1]);
      RunSorted(list, boundary, i, j - 1);
    }
  }

  function SortAll(list: seq<Entry>, rqs: seq<Entry>, boundary: int): seq<Entry>
    decreases |rqs|
  {
    if rqs == [] then list else SortAll(Sort(list, rqs[0], boundary), rqs[1..], boundary)
  }

  lemma {:induction false} SortAllInOrder(list: seq<Entry>, rqs: seq<Entry>, boundary: int)
    requires InOrder(list, boundary)
    ensures InOrder(SortAll(list, rqs, boundary), boundary)
    decreases |rqs|
  {
    hide InOrder, Sort;
    if rqs != [] {
      SortInOrder(list, rqs[0], boundary);
      SortAllInOrder(Sort(list, rqs[0], boundary), rqs[1..], boundary);
    }
  }

  /** After any series of insertions every run of the list is sorted in the one-way order. */
  lemma TailStaysSorted(list: seq<Entry>, rqs: seq<Entry>, boundary: int, i: nat, j: nat)
    requires InOrder(list, boundary)
    requires i <= j < |SortAll(list, rqs, boundary)| && IsRun(SortAll(list, rqs, boundary), i, j + 1)
    ensures !Before(boundary, SortAll(list, rqs, boundary)[j], SortAll(list, rqs, boundary)[i])
  {
    hide InOrder, SortAll, IsRun;
    SortAllInOrder(list, rqs, boundary);
    RunSorted(SortAll(list, rqs, boundary), boundary, i, j);
  }

  // ---------------------------------------------------------------------------------------
  // A sweep of requests of one kind
  // ---------------------------------------------------------------------------------------

  ghost predicate OneKind(rqs: seq<Entry>, write: bool, discard: bool) {
    forall r <- rqs :: r.write == write && r.discard == discard && !r.stop
  }

  /** The list ends where no request of this kind may pass. */
  ghost predicate Closed(list: seq<Entry>, write: bool, discard: bool) {
    list == [] ||
      var e := list[|list| - 1];
      e.write != write || e.discard != discard || e.stop
  }

  /** The insertion happens behind the part that may not be passed. */
  lemma {:induction false} PlaceBehind(list: seq<Entry>, tail: seq<Entry>, rq: Entry, boundary: int)
    requires Closed(list, rq.write, rq.discard)
    ensures Place(list + tail, rq, boundary) == |list| + Place(tail, rq, boundary)
    decreases |tail|
  {
    hide Before;
    if tail == [] {
      assert list + tail == list;
    } else {
      var n := |tail| - 1;
      assert (list + tail)[|list + tail| - 1] == tail[n];
      assert (list + tail)[..|list + tail| - 1] == list + tail[..n];
      PlaceBehind(list, tail[..n], rq, boundary);
    }
  }

  lemma SortBehind(list: seq<Entry>, tail: seq<Entry>, rq: Entry, boundary: int)
    requires Closed(list, rq.write, rq.discard)
    ensures Sort(list + tail, rq, boundary) == list + Sort(tail, rq, boundary)
  {
    hide Place, Closed;
    PlaceBehind(list, tail, rq, boundary);
    var k := Place(tail, rq, boundary);
    assert (list + tail)[..|list| + k] == list + tail[..k];
    assert (list + tail)[|list| + k..] == tail[k..];
  }

  lemma {:induction false} SortAllBehind(list: seq<Entry>, tail: seq<Entry>, rqs: seq<Entry>, boundary: int, write: bool, discard: bool)
    requires Closed(list, write, discard) && OneKind(rqs, write, discard) && OneKind(tail, write, discard)
    ensures SortAll(list + tail, rqs, boundary) == list + SortAll(tail, rqs, boundary)
    ensures OneKind(SortAll(tail, rqs, boundary), write, discard)
    ensures multiset(SortAll(tail, rqs, boundary)) == multiset(tail) + multiset(rqs)
    decreases |rqs|
  {
    hide Place, Closed;
    if rqs != [] {
      SortBehind(list, tail, rqs[0], boundary);
      var t := Sort(tail, rqs[0], boundary);
      SortCounts(tail, rqs[0], boundary);
      KindOfMembers(tail, rqs[0], t, write, discard);
      SortAllBehind(list, t, rqs[1..], boundary, write, discard);
      assert rqs == [rqs[0]] + rqs[1..];
    } else {
      assert multiset(rqs) == multiset{};
    }
  }

  lemma SortCounts(list: seq<Entry>, rq: Entry, boundary: int)
    ensures multiset(Sort(list, rq, boundary)) == multiset(list) + multiset{rq}
  {
    hide Place;
    var k := Place(list, rq, boundary);
    assert list == list[..k] + list[k..];
  }

  lemma KindOfMembers(tail: seq<Entry>, rq: Entry, t: seq<Entry>, write: bool, discard: bool)
    requires multiset(t) == multiset(tail) + multiset{rq} && OneKind(tail, write, discard) && OneKind([rq], write, discard)
    ensures OneKind(t, write, discard)
  {
    forall r <- t
      ensures r.write == write && r.discard == discard && !r.stop
    {
      assert r in multiset(t);
      assert r in tail || r == rq;
      assert r == rq ==> r in [rq];
    }
  }

  /**
   * Requests of one kind inserted behind a barrier, in any order, come out as a permutation of
   * themselves that is one sweep: everything from the boundary up, then everything below it, each
   * part in rising order; and what was on the list before is not disturbed.
   */
  lemma OneSweep(list: seq<Entry>, rqs: seq<Entry>, boundary: int, write: bool, discard: bool)
    requires Closed(list, write, discard) && OneKind(rqs, write, discard)
    ensures var r := SortAll(list, rqs, boundary); var tail := SortAll([], rqs, boundary);
            && r == list + tail
            && multiset(tail) == multiset(rqs)
            && forall i, j :: 0 <= i < j < |tail| ==> !Before(boundary, tail[j], tail[i])
  {
    hide SortAll, Closed, InOrder, Before, OneKind;
    assert list + [] == list;
    NoneOfKind(write, discard);
    SortAllBehind(list, [], rqs, boundary, write, discard);
    var tail := SortAll([], rqs, boundary);
    EmptyInOrder(boundary);
    SortAllInOrder([], rqs, boundary);
    forall i, j | 0 <= i < j < |tail|
      ensures !Before(boundary, tail[j], tail[i])
    {
      KindIsRun(tail, write, discard, i, j);
      RunSorted(tail, boundary, i, j);
    }
    assert multiset(tail) == multiset(rqs);
  }

  lemma NoneOfKind(write: bool, discard: bool)
    ensures OneKind([], write, discard)
  {
  }

  lemma KindIsRun(list: seq<Entry>, write: bool, discard: bool, i: nat, j: nat)
    requires OneKind(list, write, discard) && i <= j < |list|
    ensures IsRun(list, i, j + 1)
  {
  }

  lemma EmptyInOrder(boundary: int)
    ensures InOrder([], boundary)
  {
  }

  /** When a request came, among all that did. */
  function Arrival(rqs: seq<Entry>, e: Entry): (k: nat)
    ensures k <= |rqs|
    ensures k < |rqs| ==> rqs[k] == e
    ensures k == |rqs| <==> e !in rqs
    ensures forall i :: 0 <= i < k ==> rqs[i] != e
  {
    if rqs == [] || rqs[0] == e then 0 else 1 + Arrival(rqs[1..], e)
  }

  /** Requests at the same position are in the order in which they came. */
  ghost predicate Stable(list: seq<Entry>, rqs: seq<Entry>) {
    forall i, j :: 0 <= i < j < |list| && list[i].pos == list[j].pos ==> Arrival(rqs, list[i]) < Arrival(rqs, list[j])
  }

  ghost predicate Distinct(rqs: seq<Entry>) {
    forall i, j :: 0 <= i < j < |rqs| ==> rqs[i] != rqs[j]
  }

  lemma SortStable(list: seq<Entry>, rqs: seq<Entry>, n: nat, boundary: int)
    requires n < |rqs| && Distinct(rqs) && Stable(list, rqs) && forall e <- list :: e in rqs[..n]
    ensures Stable(Sort(list, rqs[n], boundary), rqs)
  {
    hide Place, Arrival, Before, Stops, Distinct;
    var rq := rqs[n];
    PlaceIs(list, rq, boundary);
    var k := Place(list, rq, boundary);
    var r := Sort(list, rq, boundary);
    assert forall i :: 0 <= i < |r| ==> r[i] == if i < k then list[i] else if i == k then rq else list[i - 1];
    ArrivedAt(rqs, n);
    forall i, j | 0 <= i < j < |r| && r[i].pos == r[j].pos
      ensures Arrival(rqs, r[i]) < Arrival(rqs, r[j])
    {
      if i == k {
        Passed(rq, list[j - 1], boundary);
      } else if j == k {
        CameBefore(rqs, n, list[i]);
      }
    }
  }

  lemma SortMembers(list: seq<Entry>, rqs: seq<Entry>, n: nat, boundary: int)
    requires n < |rqs| && forall e <- list :: e in rqs[..n]
    ensures forall e <- Sort(list, rqs[n], boundary) :: e in rqs[..n + 1]
  {
    hide Place;
    assert rqs[..n + 1] == rqs[..n] + [rqs[n]];
    assert forall e <- Sort(list, rqs[n], boundary) :: e in list || e == rqs[n];
  }

  lemma ArrivedAt(rqs: seq<Entry>, n: nat)
    requires n < |rqs| && Distinct(rqs)
    ensures Arrival(rqs, rqs[n]) == n
  {
    hide Arrival;
  }

  /** A request that is passed is at another position. */
  lemma Passed(rq: Entry, e: Entry, boundary: int)
    requires Before(boundary, rq, e)
    ensures rq.pos != e.pos
  {
  }

  lemma CameBefore(rqs: seq<Entry>, n: nat, e: Entry)
    requires n < |rqs| && e in rqs[..n]
    ensures Arrival(rqs, e) < n
  {
    hide Arrival;
    var i :| 0 <= i < n && rqs[i] == e;
  }

  lemma {:induction false} SortAllStable(list: seq<Entry>, rqs: seq<Entry>, n: nat, boundary: int)
    requires n <= |rqs| && Distinct(rqs) && Stable(list, rqs) && forall e <- list :: e in rqs[..n]
    ensures Stable(SortAll(list, rqs[n..], boundary), rqs)
    decreases |rqs| - n
  {
    hide Stable, Sort, Distinct;
    if n < |rqs| {
      SortStable(list, rqs, n, boundary);
      SortMembers(list, rqs, n, boundary);
      assert rqs[n..][0] == rqs[n] && rqs[n..][1..] == rqs[n + 1..];
      SortAllStable(Sort(list, rqs[n], boundary), rqs, n + 1, boundary);
    }
  }

  /** Insertion is stable: of two requests at the same position, the one that came first is served first. */
  lemma SweepIsStable(rqs: seq<Entry>, boundary: int)
    requires Distinct(rqs)
    ensures Stable(SortAll([], rqs, boundary), rqs)
  {
    hide SortAll;
    assert rqs[0..] == rqs;
    SortAllStable([], rqs, 0, boundary);
  }

  // ---------------------------------------------------------------------------------------
  // The scan
  // ---------------------------------------------------------------------------------------

  /** The loop of elv_dispatch_sort, from the back of the list. */
  method Scan(queue: seq<Entry>, rq: Entry, boundary: int) returns (k: nat)
    ensures k == Place(queue, rq, boundary)
  {
    k := |queue|;
    assert queue[..k] == queue;
    while k > 0
      invariant k <= |queue|
      invariant Place(queue, rq, boundary) == Place(queue[..k], rq, boundary)
    {
      var pos := queue[k - 1];
      assert queue[..k][..k - 1] == queue[..k - 1];
      if rq.discard != pos.discard {
        break;
      }
      if rq.write != pos.write {
        break;
      }
      if pos.stop {
        break;
      }
      if rq.pos >= boundary {
        if pos.pos < boundary {
          k := k - 1;
          continue;
        }
      } else if pos.pos >= boundary {
        break;
      }
      if rq.pos >= pos.pos {
        break;
      }
      k := k - 1;
    }
  }

  class DispatchList {
    var queue: seq<Entry>
    var endSector: int

    constructor ()
      ensures queue == [] && endSector == 0
    {
      queue, endSector := [], 0;
    }

    /** elv_dispatch_sort: requests that compare equal keep the order in which they came. */
    method InsertSorted(rq: Entry)
      modifies this
      ensures queue == Sort(old(queue), rq, endSector) && endSector == old(endSector)
      ensures exists k :: 0 <= k <= |old(queue)|
                && queue == old(queue)[..k] + [rq] + old(queue)[k..]
                && (forall i :: k <= i < |old(queue)| ==> !Stops(rq, old(queue)[i]) && Before(endSector, rq, old(queue)[i]))
                && (k > 0 ==> Stops(rq, old(queue)[k - 1]) || !Before(endSector, rq, old(queue)[k - 1]))
      ensures InOrder(old(queue), endSector) ==> InOrder(queue, endSector)
    {
      hide InOrder, Place, Before, Stops;
      var k := Scan(queue, rq, endSector);
      PlaceIs(queue, rq, endSector);
      if InOrder(queue, endSector) {
        SortInOrder(queue, rq, endSector);
      }
      queue := queue[..k] + [rq] + queue[k..];
    }

    /** elv_dispatch_add_tail: the request becomes the new boundary. */
    method AddTail(rq: Entry, end: int)
      modifies this
      ensures queue == old(queue) + [rq] && endSector == end
    {
      endSector := end;
      queue := queue + [rq];
    }
  }
}
