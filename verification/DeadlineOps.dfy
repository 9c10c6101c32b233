/** The deadline scheduler as the code runs it, updating its lists and counters in place. */
module DeadlineOps {
  import opened Options
  import opened Deadline
  import opened DeadlineRuns

  class DeadlineData {
    const t: Tunables
    var reqs: map<nat, Req>
    var reading: Side
    var writing: Side
    var batching: nat
    var starved: nat
    var last: int
    var dispatched: seq<nat>

    constructor (t: Tunables)
      ensures this.t == t
      ensures View() == Sched(map[], Side([], [], None), Side([], [], None), 0, 0, 0, [])
    {
      this.t := t;
      reqs, reading, writing := map[], Side([], [], None), Side([], [], None);
      batching, starved, last, dispatched := 0, 0, 0, [];
    }

    ghost function View(): Sched
      reads this
    {
      Sched(reqs, reading, writing, batching, starved, last, dispatched)
    }

    function Dir(write: bool): (s: Side)
      reads this
      ensures s == SideOf(View(), write)
    {
      if write then writing else reading
    }

    method SetDir(write: bool, s: Side)
      modifies this
      ensures View() == WithSide(old(View()), write, s)
    {
      if write {
        writing := s;
      } else {
        reading := s;
      }
    }

    /** deadline_remove_request. */
    method RemoveRequest(x: nat)
      requires x in reqs
      modifies this
      ensures View() == WithSide(old(View()), old(reqs[x].write), RemoveFrom(SideOf(old(View()), old(reqs[x].write)), x))
    {
      hide Without, Latter;
      var w := reqs[x].write;
      var s := Dir(w);
      s := s.(fifo := Without(s.fifo, x));
      if s.next == Some(x) {
        s := s.(next := Latter(s.tree, x));
      }
      s := s.(tree := Without(s.tree, x));
      SetDir(w, s);
    }

    /** deadline_move_request. */
    method MoveRequest(x: nat)
      requires x in reqs
      modifies this
      ensures View() == Move(old(View()), x)
    {
      hide RemoveFrom, Latter;
      var w := reqs[x].write;
      reading := reading.(next := None);
      writing := writing.(next := None);
      var s := Dir(w);
      SetDir(w, s.(next := Latter(s.tree, x)));
      last := reqs[x].end;
      RemoveRequest(x);
      dispatched := dispatched + [x];
    }

    /** deadline_add_rq_rb: as long as another request has the sector, that one is dispatched. */
    method AddRqRb(x: nat)
      requires x in reqs
      requires Hole(reqs, SideOf(View(), reqs[x].write), reqs[x].write, x) && OthersOk(View(), reqs[x].write)
      modifies this
      ensures View() == AddToTree(old(View()), x)
    {
      hide Move, Hole, OthersOk, Place, Rising, Without;
      var w, pos := reqs[x].write, reqs[x].pos;
      var alias := Alias(reqs, Dir(w).tree, pos);
      HoleFacts(reqs, Dir(w), w, x);
      while alias.Some?
        invariant reqs == old(reqs) && Rising(reqs, Dir(w).tree) && alias == Alias(reqs, Dir(w).tree, pos)
        invariant alias.Some? ==> View() == old(View())
        invariant alias.None? ==> View() == old(View()) || (Alias(reqs, old(Dir(w)).tree, pos).Some? && View() == Move(old(View()), Alias(reqs, old(Dir(w)).tree, pos).value))
        decreases alias.Some?
      {
        AliasGone(reqs, Dir(w).tree, pos);
        MemberOf(reqs, Dir(w).tree, w, alias.value);
        DropAlias(View(), x, alias.value);
        HoleFacts(reqs, SideOf(Move(View(), alias.value), w), w, x);
        MoveRequest(alias.value);
        alias := Alias(reqs, Dir(w).tree, pos);
      }
      var s := Dir(w);
      var k := Place(reqs, s.tree, pos);
      SetDir(w, s.(tree := s.tree[..k] + [x] + s.tree[k..]));
    }

    /** deadline_add_request. */
    method AddRequest(x: nat, write: bool, pos: int, end: int, now: int)
      requires Inv(View()) && x !in reading.fifo && x !in writing.fifo
      modifies this
      ensures View() == Add(old(View()), t, x, write, pos, end, now)
    {
      hide SideOk, Hole, AddToTree, Inv;
      ghost var r := Req(write, pos, end, now + Expire(t, write));
      SideRule(View(), write);
      Elsewhere(reqs, SideOf(View(), write), write, x, r);
      Elsewhere(reqs, SideOf(View(), !write), !write, x, r);
      reqs := reqs[x := Req(write, pos, end, now + Expire(t, write))];
      HoleForNew(reqs, SideOf(View(), write), write, x);
      AddRqRb(x);
      var s := Dir(write);
      SetDir(write, s.(fifo := s.fifo + [x]));
    }

    /** deadline_merged_request, for a bio that went to the front of the request. */
    method MergedRequest(x: nat, pos: int)
      requires Inv(View()) && x in reqs && x in SideOf(View(), reqs[x].write).tree
      modifies this
      ensures View() == FrontMerged(old(View()), x, pos)
    {
      hide SideOk, Hole, AddToTree, Inv, Without;
      var w := reqs[x].write;
      var s := Dir(w);
      SideRule(View(), w);
      NotAcross(View(), x);
      HoleForMoved(reqs, s, w, x, pos);
      Elsewhere(reqs, SideOf(View(), !w), !w, x, reqs[x].(pos := pos));
      reqs := reqs[x := reqs[x].(pos := pos)];
      SetDir(w, s.(tree := Without(s.tree, x)));
      AddRqRb(x);
    }

    /** deadline_merged_requests. */
    method MergedRequests(x: nat, y: nat)
      requires x in reqs && y in reqs && reqs[x].write == reqs[y].write && x != y
      modifies this
      ensures View() == Merged(old(View()), x, y)
    {
      hide Without, Latter, IndexOf;
      var w := reqs[x].write;
      var s := Dir(w);
      var earlier := reqs[y].due < reqs[x].due;
      var f := s.fifo;
      if earlier {
        reqs := reqs[x := reqs[x].(due := reqs[y].due)];
        f := TakePlace(s.fifo, x, y);
      }
      reqs := reqs[x := reqs[x].(end := reqs[y].end)];
      RemoveRequest(y);
      if earlier {
        SetDir(w, Dir(w).(fifo := f));
      }
    }

    /**
     * deadline_dispatch_requests: goes on with the batch, or selects a direction and its best
     * request; reports whether one was dispatched.
     */
    method DispatchRequests(now: int) returns (done: bool)
      requires Inv(View())
      modifies this
      ensures View() == Dispatch(old(View()), t, now)
      ensures done == Choose(old(View()), t, now).Go?
      ensures done <==> old(reading.fifo) != [] || old(writing.fifo) != []
      ensures done ==> dispatched == old(dispatched) + [Choose(old(View()), t, now).x]
    {
      hide Move, Inv;
      var someReads, someWrites := reading.fifo != [], writing.fifo != [];
      var rq := if writing.next.Some? then writing.next else reading.next;
      ChoiceExists(View(), t, now);
      if !(rq.Some? && batching < t.fifoBatch) {
        var write := false;
        if someReads {
          if someWrites {
            write := starved >= t.writesStarved;
            starved := starved + 1;
          }
        } else if someWrites {
          write := true;
        } else {
          return false;
        }
        if write {
          starved := 0;
        }
        var s := Dir(write);
        rq := if now > Due(reqs, s.fifo[0]) || s.next.None? then Some(s.fifo[0]) else s.next;
        batching := 0;
      }
      batching := batching + 1;
      MoveDispatches(View(), rq.value);
      MoveRequest(rq.value);
      done := true;
    }
  }

  lemma MoveDispatches(d: Sched, x: nat)
    requires x in d.reqs
    ensures Move(d, x).dispatched == d.dispatched + [x]
  {
  }

  /** There is a request to dispatch exactly when one of the fifos holds one. */
  lemma ChoiceExists(d: Sched, t: Tunables, now: int)
    requires Inv(d)
    ensures Choose(d, t, now).Go? <==> d.reading.fifo != [] || d.writing.fifo != []
    ensures Choose(d, t, now).Go? ==> Choose(d, t, now).x in d.reqs
  {
    if Choose(d, t, now).Go? {
      ChosenIsKnown(d, t, now);
    }
    NextHasFifo(d);
  }

  lemma NextHasFifo(d: Sched)
    requires Inv(d)
    ensures d.reading.next.Some? ==> d.reading.fifo != []
    ensures d.writing.next.Some? ==> d.writing.fifo != []
  {
    if d.reading.next.Some? {
      assert d.reading.next.value in d.reading.fifo;
    }
    if d.writing.next.Some? {
      assert d.writing.next.value in d.writing.fifo;
    }
  }
}
