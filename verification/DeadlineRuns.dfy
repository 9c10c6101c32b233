/** What the deadline scheduler keeps over every run: its two indexes agree, and writes do not starve. */
module DeadlineRuns {
  import opened Options
  import opened Deadline

  /** Every deadline lies at most one expiry ahead. */
  ghost predicate Timely(d: Sched, t: Tunables, now: int) {
    && (forall x <- d.reading.fifo :: Due(d.reqs, x) <= now + t.readExpire)
    && (forall x <- d.writing.fifo :: Due(d.reqs, x) <= now + t.writeExpire)
  }

  predicate Known(d: Sched, x: nat) {
    x in d.reading.fifo || x in d.writing.fifo
  }

  /** Requests that a direction does not hold may change. */
  lemma Elsewhere(reqs: map<nat, Req>, s: Side, write: bool, x: nat, r: Req)
    requires SideOk(reqs, s, write) && x !in s.fifo
    ensures SideOk(reqs[x := r], s, write)
  {
    assert forall y <- s.tree :: Pos(reqs[x := r], y) == Pos(reqs, y);
    assert forall y <- s.fifo :: Due(reqs[x := r], y) == Due(reqs, y);
  }

  lemma SideRule(d: Sched, write: bool)
    requires Inv(d)
    ensures SideOk(d.reqs, SideOf(d, write), write) && OthersOk(d, write)
  {
    hide SideOk;
  }

  lemma InvRule(d: Sched, write: bool)
    requires SideOk(d.reqs, SideOf(d, write), write) && OthersOk(d, write)
    ensures Inv(d)
  {
    hide SideOk;
  }

  /** A new request goes to the end of its fifo, where no deadline is later. */
  lemma AppendFills(reqs: map<nat, Req>, s: Side, write: bool, x: nat)
    requires Filled(reqs, s, write, x) && x !in s.fifo
    requires forall y <- s.fifo :: Due(reqs, y) <= Due(reqs, x)
    ensures SideOk(reqs, s.(fifo := s.fifo + [x]), write)
  {
    hide AreOf, Rising, Due;
  }

  lemma FilledIsOk(reqs: map<nat, Req>, s: Side, write: bool, x: nat)
    requires Filled(reqs, s, write, x) && x in s.fifo
    ensures SideOk(reqs, s, write)
  {
    hide AreOf, Rising, ByDeadline, Distinct;
  }

  lemma HoleForNew(reqs: map<nat, Req>, s: Side, write: bool, x: nat)
    requires SideOk(reqs, s, write) && x !in s.fifo && x in reqs && reqs[x].write == write
    ensures Hole(reqs, s, write, x)
  {
    hide AreOf, Rising, ByDeadline, Distinct;
  }

  lemma AddOk(d: Sched, t: Tunables, x: nat, write: bool, pos: int, end: int, now: int)
    requires Inv(d) && Timely(d, t, now) && !Known(d, x)
    ensures Inv(Add(d, t, x, write, pos, end, now)) && Timely(Add(d, t, x, write, pos, end, now), t, now)
  {
    hide SideOk, Hole, Filled, AddToTree, Inv;
    var r := Req(write, pos, end, now + Expire(t, write));
    var d' := d.(reqs := d.reqs[x := r]);
    SideRule(d, write);
    Elsewhere(d.reqs, SideOf(d, write), write, x, r);
    Elsewhere(d.reqs, SideOf(d, !write), !write, x, r);
    HoleForNew(d'.reqs, SideOf(d', write), write, x);
    AddToTreeOk(d', x);
    var e := AddToTree(d', x);
    assert forall y <- SideOf(d, write).fifo :: y != x && Due(d'.reqs, y) == Due(d.reqs, y);
    assert forall y <- SideOf(d, !write).fifo :: y != x && Due(d'.reqs, y) == Due(d.reqs, y);
    AppendFills(e.reqs, SideOf(e, write), write, x);
    InvRule(Add(d, t, x, write, pos, end, now), write);
  }

  lemma HoleForMoved(reqs: map<nat, Req>, s: Side, write: bool, x: nat, pos: int)
    requires SideOk(reqs, s, write) && x in s.tree
    ensures x in reqs
    ensures Hole(reqs[x := reqs[x].(pos := pos)], s.(tree := Without(s.tree, x)), write, x)
  {
    hide Without;
    RisingDistinct(reqs, s.tree);
    WithoutMembers(s.tree, x);
    WithoutRising(reqs, s.tree, x);
    var reqs' := reqs[x := reqs[x].(pos := pos)];
    assert forall y <- Without(s.tree, x) :: Pos(reqs', y) == Pos(reqs, y);
    assert forall y <- s.fifo :: Due(reqs', y) == Due(reqs, y);
  }

  lemma FrontMergedOk(d: Sched, t: Tunables, x: nat, pos: int, now: int)
    requires Inv(d) && Timely(d, t, now) && x in d.reqs && x in SideOf(d, d.reqs[x].write).tree
    ensures Inv(FrontMerged(d, x, pos)) && Timely(FrontMerged(d, x, pos), t, now)
  {
    hide SideOk, Hole, Filled, AddToTree, Inv, Without;
    var w := d.reqs[x].write;
    SideRule(d, w);
    var reqs' := d.reqs[x := d.reqs[x].(pos := pos)];
    var s := SideOf(d, w);
    NotAcross(d, x);
    OnFifo(d.reqs, s, w, x);
    HoleForMoved(d.reqs, s, w, x, pos);
    Elsewhere(d.reqs, SideOf(d, !w), !w, x, reqs'[x]);
    var d' := WithSide(d.(reqs := reqs'), w, s.(tree := Without(s.tree, x)));
    assert OthersOk(d', w);
    AddToTreeOk(d', x);
    var e := AddToTree(d', x);
    FilledIsOk(e.reqs, SideOf(e, w), w, x);
    InvRule(e, w);
    assert forall y :: Due(reqs', y) == Due(d.reqs, y);
  }

  /** A request is on the lists of its own direction only. */
  lemma NotAcross(d: Sched, x: nat)
    requires Inv(d) && x in d.reqs
    ensures x !in SideOf(d, !d.reqs[x].write).fifo
  {
  }

  lemma OnFifo(reqs: map<nat, Req>, s: Side, write: bool, x: nat)
    requires SideOk(reqs, s, write)
    ensures x in s.tree <==> x in s.fifo
  {
  }

  // A merge of two requests.

  lemma TakePlaceOk(reqs: map<nat, Req>, fifo: seq<nat>, x: nat, y: nat)
    requires Distinct(fifo) && ByDeadline(reqs, fifo) && x in fifo && y in fifo && x != y && x in reqs && y in reqs
    ensures Distinct(TakePlace(fifo, x, y))
    ensures forall z :: z in TakePlace(fifo, x, y) <==> z in fifo && z != y
    ensures ByDeadline(reqs[x := reqs[x].(due := reqs[y].due, end := reqs[y].end)], TakePlace(fifo, x, y))
  {
    hide Without, IndexOf;
    WithoutMembers(fifo, x);
    WithoutByDeadline(reqs, fifo, x);
    var f := Without(fifo, x);
    var k := IndexOf(f, y);
    var g := f[..k] + [x] + f[k + 1..];
    var reqs' := reqs[x := reqs[x].(due := reqs[y].due, end := reqs[y].end)];
    assert g == f[k := x];
    assert forall i :: 0 <= i < |f| && i != k ==> g[i] == f[i] && Due(reqs', g[i]) == Due(reqs, f[i]);
    assert Due(reqs', g[k]) == Due(reqs, f[k]);
    PlaceTaken(f, k, x);
  }

  lemma PlaceTaken(f: seq<nat>, k: nat, x: nat)
    requires Distinct(f) && k < |f| && x !in f
    ensures Distinct(f[k := x])
    ensures forall z :: z in f[k := x] <==> z == x || (z in f && z != f[k])
  {
    var g := f[k := x];
    forall z | z == x || (z in f && z != f[k])
      ensures z in g
    {
      if z == x {
        assert g[k] == x;
      } else {
        var i :| 0 <= i < |f| && f[i] == z;
        assert g[i] == z;
      }
    }
  }

  lemma SwallowOk(reqs: map<nat, Req>, s: Side, write: bool, x: nat, y: nat)
    requires SideOk(reqs, s, write) && x in s.tree && y in s.tree && x != y && x in reqs && y in reqs
    ensures var s' := RemoveFrom(s, y);
            && SideOk(reqs[x := reqs[x].(end := reqs[y].end)], s', write)
            && SideOk(reqs[x := reqs[x].(due := reqs[y].due, end := reqs[y].end)], s'.(fifo := TakePlace(s.fifo, x, y)), write)
  {
    hide RemoveFrom, TakePlace;
    RemoveFromOk(reqs, s, write, y);
    var s' := RemoveFrom(s, y);
    var reqs1 := reqs[x := reqs[x].(end := reqs[y].end)];
    var reqs2 := reqs[x := reqs[x].(due := reqs[y].due, end := reqs[y].end)];
    assert forall z :: Pos(reqs1, z) == Pos(reqs, z) && Due(reqs1, z) == Due(reqs, z) && Pos(reqs2, z) == Pos(reqs, z);
    assert SideOk(reqs1, s', write);
    TakePlaceOk(reqs, s.fifo, x, y);
    RemovedMembers(reqs, s, write, y);
  }

  lemma RemovedMembers(reqs: map<nat, Req>, s: Side, write: bool, y: nat)
    requires SideOk(reqs, s, write)
    ensures forall z :: z in RemoveFrom(s, y).tree <==> z in s.fifo && z != y
    ensures forall z :: z in RemoveFrom(s, y).fifo <==> z in s.fifo && z != y
  {
    hide Without, Rising, ByDeadline;
    RisingDistinct(reqs, s.tree);
    WithoutMembers(s.tree, y);
    WithoutMembers(s.fifo, y);
  }

  lemma MergedOk(d: Sched, t: Tunables, x: nat, y: nat, now: int)
    requires Inv(d) && Timely(d, t, now) && x in d.reqs && y in d.reqs && x != y
    requires x in SideOf(d, d.reqs[x].write).tree && y in SideOf(d, d.reqs[x].write).tree
    ensures Inv(Merged(d, x, y)) && Timely(Merged(d, x, y), t, now)
  {
    hide SideOk, Inv, RemoveFrom, TakePlace;
    var w := d.reqs[x].write;
    var s := SideOf(d, w);
    SideRule(d, w);
    NotAcross(d, x);
    OnFifo(d.reqs, s, w, x);
    OnFifo(d.reqs, s, w, y);
    SwallowOk(d.reqs, s, w, x, y);
    var m := Merged(d, x, y);
    Elsewhere(d.reqs, SideOf(d, !w), !w, x, m.reqs[x]);
    NextNotBoth(d, w, y);
    InvRule(m, w);
    FifoParts(d.reqs, s, w);
    TakePlaceOk(d.reqs, s.fifo, x, y);
    RemovedMembers(d.reqs, s, w, y);
    assert forall z :: Due(m.reqs, z) <= Due(d.reqs, z);
  }

  lemma FifoParts(reqs: map<nat, Req>, s: Side, write: bool)
    requires SideOk(reqs, s, write)
    ensures Distinct(s.fifo) && ByDeadline(reqs, s.fifo)
  {
  }

  lemma NextNotBoth(d: Sched, w: bool, y: nat)
    requires Inv(d)
    ensures SideOf(d, !w).next.None? || RemoveFrom(SideOf(d, w), y).next.None?
  {
    hide SideOk, Without;
    var s := SideOf(d, w);
    if SideOf(d, !w).next.Some? {
      assert s.next.None?;
    }
  }

  /** The selected request is one of the scheduler's, so a dispatch always moves what it selected. */
  lemma ChosenIsKnown(d: Sched, t: Tunables, now: int)
    requires Inv(d) && Choose(d, t, now).Go?
    ensures var x := Choose(d, t, now).x; x in d.reqs && x in SideOf(d, d.reqs[x].write).tree
  {
    hide Rising, ByDeadline, Distinct;
    var x := Choose(d, t, now).x;
    if d.writing.fifo != [] {
      assert d.writing.fifo[0] in d.writing.fifo;
    }
    if d.reading.fifo != [] {
      assert d.reading.fifo[0] in d.reading.fifo;
    }
    assert x in d.writing.tree || x in d.reading.tree;
  }

  lemma DispatchOk(d: Sched, t: Tunables, now: int)
    requires Inv(d) && Timely(d, t, now)
    ensures Inv(Dispatch(d, t, now)) && Timely(Dispatch(d, t, now), t, now)
  {
    hide Inv, Choose, Move;
    match Choose(d, t, now)
    case Nothing =>
    case Go(x, batching, starved) =>
      ChosenIsKnown(d, t, now);
      var d' := d.(batching := batching, starved := starved);
      CountersOnly(d, d');
      MoveOk(d', x);
      MoveTimely(d', t, now, x);
  }

  lemma CountersOnly(d: Sched, r: Sched)
    requires r == d.(batching := r.batching, starved := r.starved)
    ensures Inv(d) <==> Inv(r)
  {
    hide SideOk;
  }

  lemma MoveTimely(d: Sched, t: Tunables, now: int, x: nat)
    requires Inv(d) && Timely(d, t, now) && x in d.reqs
    ensures Timely(Move(d, x), t, now)
  {
    hide Without, Latter, Rising, ByDeadline;
    WithoutMembers(SideOf(d, d.reqs[x].write).fifo, x);
  }

  // ---------------------------------------------------------------------------------------
  // Runs
  // ---------------------------------------------------------------------------------------

  datatype State = State(sched: Sched, now: int)

  datatype Event =
    | NewRequest(x: nat, write: bool, pos: int, end: int)
    | FrontMerge(x: nat, pos: int)
    | MergeRequests(x: nat, y: nat)
    | DispatchCall
    | Tick(dt: nat)

  /** New requests are new; merges concern requests that are in the scheduler, of one direction. */
  predicate Enabled(s: State, e: Event) {
    match e
    case NewRequest(x, _, _, _) => !Known(s.sched, x)
    case FrontMerge(x, _) => x in s.sched.reqs && x in SideOf(s.sched, s.sched.reqs[x].write).tree
    case MergeRequests(x, y) =>
      && x in s.sched.reqs && y in s.sched.reqs && x != y
      && x in SideOf(s.sched, s.sched.reqs[x].write).tree
      && y in SideOf(s.sched, s.sched.reqs[x].write).tree
    case _ => true
  }

  function Step(s: State, t: Tunables, e: Event): State
    requires Enabled(s, e)
  {
    match e
    case NewRequest(x, write, pos, end) => s.(sched := Add(s.sched, t, x, write, pos, end, s.now))
    case FrontMerge(x, pos) => s.(sched := FrontMerged(s.sched, x, pos))
    case MergeRequests(x, y) => s.(sched := Merged(s.sched, x, y))
    case DispatchCall => s.(sched := Dispatch(s.sched, t, s.now))
    case Tick(dt) => s.(now := s.now + dt)
  }

  ghost predicate Good(s: State, t: Tunables) {
    Inv(s.sched) && Timely(s.sched, t, s.now)
  }

  lemma StepGood(s: State, t: Tunables, e: Event)
    requires Good(s, t) && Enabled(s, e)
    ensures Good(Step(s, t, e), t)
  {
    hide Inv, Timely, Add, FrontMerged, Merged, Dispatch;
    match e
    case NewRequest(x, write, pos, end) => AddOk(s.sched, t, x, write, pos, end, s.now);
    case FrontMerge(x, pos) => FrontMergedOk(s.sched, t, x, pos, s.now);
    case MergeRequests(x, y) => MergedOk(s.sched, t, x, y, s.now);
    case DispatchCall => DispatchOk(s.sched, t, s.now);
    case Tick(dt) => LaterTimely(s.sched, t, s.now, dt);
  }

  lemma LaterTimely(d: Sched, t: Tunables, now: int, dt: nat)
    requires Timely(d, t, now)
    ensures Timely(d, t, now + dt)
  {
  }

  predicate Possible(s: State, t: Tunables, es: seq<Event>)
    decreases |es|
  {
    es == [] || (Enabled(s, es[0]) && Possible(Step(s, t, es[0]), t, es[1..]))
  }

  function Runs(s: State, t: Tunables, es: seq<Event>): State
    requires Possible(s, t, es)
    decreases |es|
  {
    if es == [] then s else Runs(Step(s, t, es[0]), t, es[1..])
  }

  lemma {:induction false} RunsGood(s: State, t: Tunables, es: seq<Event>)
    requires Good(s, t) && Possible(s, t, es)
    ensures Good(Runs(s, t, es), t)
    decreases |es|
  {
    hide Good, Step, Enabled;
    if es != [] {
      StepGood(s, t, es[0]);
      RunsGood(Step(s, t, es[0]), t, es[1..]);
    }
  }

  function Empty(): Sched {
    Sched(map[], Side([], [], None), Side([], [], None), 0, 0, 0, [])
  }

  /**
   * In every reachable state, in each direction, tree and fifo hold the same requests, no two have
   * the same sector, the request the batch goes on with is in the tree, at most one direction has
   * one, and the head of the fifo is the request that expires first.
   */
  lemma IndexesAgree(t: Tunables, now: int, es: seq<Event>, write: bool)
    requires Possible(State(Empty(), now), t, es)
    ensures var d := Runs(State(Empty(), now), t, es).sched; var s := SideOf(d, write);
            && (forall x :: x in s.tree <==> x in s.fifo)
            && (forall x, y :: x in s.tree && y in s.tree && Pos(d.reqs, x) == Pos(d.reqs, y) ==> x == y)
            && (s.next.Some? ==> s.next.value in s.tree && SideOf(d, !write).next.None?)
            && (s.fifo != [] ==> forall x <- s.fifo :: Due(d.reqs, s.fifo[0]) <= Due(d.reqs, x))
  {
    hide Possible, Runs, Pos, Due;
    EmptyGood(t, now);
    RunsGood(State(Empty(), now), t, es);
    var d := Runs(State(Empty(), now), t, es).sched;
    var s := SideOf(d, write);
    forall x, y | x in s.tree && y in s.tree && Pos(d.reqs, x) == Pos(d.reqs, y)
      ensures x == y
    {
      SamePos(d.reqs, s.tree, x, y);
    }
  }

  lemma EmptyGood(t: Tunables, now: int)
    ensures Good(State(Empty(), now), t)
  {
  }

  // ---------------------------------------------------------------------------------------
  // Write starvation
  // ---------------------------------------------------------------------------------------

  function BatchSize(t: Tunables): nat {
    if t.fifoBatch == 0 then 1 else t.fifoBatch
  }

  /** How many more reads can be dispatched before a write. */
  function Credit(d: Sched, t: Tunables): int {
    (t.writesStarved - d.starved) * BatchSize(t) + if d.batching < t.fifoBatch then t.fifoBatch - d.batching else 0
  }

  /** A dispatch call that finds writes waiting and yet dispatches a read. */
  predicate PassesOver(s: State, t: Tunables) {
    && s.sched.writing.fifo != []
    && Choose(s.sched, t, s.now).Go?
    && var x := Choose(s.sched, t, s.now).x;
       x in s.sched.reqs && !s.sched.reqs[x].write
  }

  lemma PassOverSpends(s: State, t: Tunables)
    requires Good(s, t) && PassesOver(s, t) && s.sched.starved <= t.writesStarved
    ensures var r := Step(s, t, DispatchCall).sched;
            r.starved <= t.writesStarved && Credit(r, t) < Credit(s.sched, t)
  {
    hide SideOk, Move, Timely;
    ReadChosen(s.sched, t, s.now);
    var d := s.sched;
    var c := Choose(d, t, s.now);
    MoveCounters(d.(batching := c.batching, starved := c.starved), c.x);
    CreditSteps(t.writesStarved, d.starved, BatchSize(t));
  }

  lemma CreditSteps(limit: nat, starved: nat, b: nat)
    ensures (limit - (starved + 1)) * b == (limit - starved) * b - b
  {
  }

  lemma MoveCounters(d: Sched, x: nat)
    requires x in d.reqs
    ensures Move(d, x).batching == d.batching && Move(d, x).starved == d.starved
  {
  }

  /** A read that is dispatched while writes wait goes on with a batch or starts one within the limit. */
  lemma ReadChosen(d: Sched, t: Tunables, now: int)
    requires Inv(d) && d.writing.fifo != [] && Choose(d, t, now).Go?
    requires var x := Choose(d, t, now).x; x in d.reqs && !d.reqs[x].write
    ensures var c := Choose(d, t, now);
            || (d.batching < t.fifoBatch && c.batching == d.batching + 1 && c.starved == d.starved)
            || (d.starved < t.writesStarved && c.batching == 1 && c.starved == d.starved + 1)
  {
    hide Rising, ByDeadline, Distinct;
    assert d.writing.fifo[0] in d.writing.fifo;
  }

  /** Every dispatch call of the run passes over a waiting write. */
  predicate OnlyReads(s: State, t: Tunables, es: seq<Event>)
    requires Possible(s, t, es)
    decreases |es|
  {
    es == [] || ((es[0].DispatchCall? ==> PassesOver(s, t)) && OnlyReads(Step(s, t, es[0]), t, es[1..]))
  }

  function Calls(es: seq<Event>): nat {
    if es == [] then 0 else (if es[0].DispatchCall? then 1 else 0) + Calls(es[1..])
  }

  /** Only dispatch calls touch the two counters. */
  lemma CountersKept(s: State, t: Tunables, e: Event)
    requires Enabled(s, e) && !e.DispatchCall?
    ensures Step(s, t, e).sched.starved == s.sched.starved && Step(s, t, e).sched.batching == s.sched.batching
  {
    hide Without, Latter, IndexOf, Place, Alias;
  }

  lemma {:induction false} ReadsSpendCredit(s: State, t: Tunables, es: seq<Event>)
    requires Good(s, t) && Possible(s, t, es) && OnlyReads(s, t, es) && s.sched.starved <= t.writesStarved
    ensures Calls(es) <= Credit(s.sched, t)
    decreases |es|
  {
    hide Good, Step, Enabled, PassesOver, Credit;
    if es == [] {
      CreditPositive(s.sched, t);
    } else {
      StepGood(s, t, es[0]);
      var s' := Step(s, t, es[0]);
      if es[0].DispatchCall? {
        PassOverSpends(s, t);
      } else {
        CountersKept(s, t, es[0]);
        SameCredit(s.sched, s'.sched, t);
      }
      ReadsSpendCredit(s', t, es[1..]);
    }
  }

  lemma SameCredit(d: Sched, r: Sched, t: Tunables)
    requires r.starved == d.starved && r.batching == d.batching
    ensures Credit(r, t) == Credit(d, t)
  {
  }

  lemma CreditPositive(d: Sched, t: Tunables)
    requires d.starved <= t.writesStarved
    ensures 0 <= Credit(d, t) <= (t.writesStarved + 1) * BatchSize(t)
  {
    Product(t.writesStarved - d.starved, t.writesStarved, BatchSize(t));
  }

  lemma Product(a: nat, limit: nat, b: nat)
    requires a <= limit
    ensures 0 <= a * b <= limit * b && (limit + 1) * b == limit * b + b
  {
    assert (limit - a) * b == limit * b - a * b;
  }

  /**
   * Writes do not starve: in a run in which every dispatch call finds a write waiting and still
   * dispatches a read, there are at most (writes_starved + 1) * max(fifo_batch, 1) calls, whatever
   * is added and merged in between.
   */
  lemma WritesDoNotStarve(s: State, t: Tunables, es: seq<Event>)
    requires Good(s, t) && s.sched.starved <= t.writesStarved && Possible(s, t, es) && OnlyReads(s, t, es)
    ensures Calls(es) <= (t.writesStarved + 1) * BatchSize(t)
  {
    hide Good, Possible, OnlyReads, Credit;
    ReadsSpendCredit(s, t, es);
    CreditPositive(s.sched, t);
  }

  /** The starvation counter stays within its limit in every reachable state. */
  lemma {:induction false} StarvedBounded(s: State, t: Tunables, es: seq<Event>)
    requires s.sched.starved <= t.writesStarved && Possible(s, t, es)
    ensures Runs(s, t, es).sched.starved <= t.writesStarved
    decreases |es|
  {
    hide Step, Enabled;
    if es != [] {
      if es[0].DispatchCall? {
        DispatchStarved(s.sched, t, s.now);
        DispatchDef(s, t);
      } else {
        CountersKept(s, t, es[0]);
      }
      StarvedBounded(Step(s, t, es[0]), t, es[1..]);
    }
  }

  lemma DispatchDef(s: State, t: Tunables)
    ensures Step(s, t, DispatchCall).sched == Dispatch(s.sched, t, s.now)
  {
    hide Dispatch;
  }

  lemma DispatchStarved(d: Sched, t: Tunables, now: int)
    requires d.starved <= t.writesStarved
    ensures Dispatch(d, t, now).starved <= t.writesStarved
  {
    hide Without, Latter, IndexOf;
  }

  // ---------------------------------------------------------------------------------------
  // No request is lost
  // ---------------------------------------------------------------------------------------

  /** The requests waiting in either direction, and those dispatched. */
  function Held(d: Sched): multiset<nat> {
    multiset(d.reading.fifo) + multiset(d.writing.fifo) + multiset(d.dispatched)
  }

  lemma WithoutCounts(s: seq<nat>, x: nat)
    requires x in s
    ensures multiset(s) == multiset(Without(s, x)) + multiset{x}
  {
    var k := IndexOf(s, x);
    assert s == s[..k] + [x] + s[k + 1..];
  }

  lemma TakePlaceCounts(fifo: seq<nat>, x: nat, y: nat)
    requires x in fifo && y in fifo && x != y
    ensures multiset(fifo) == multiset(TakePlace(fifo, x, y)) + multiset{y}
  {
    hide IndexOf;
    WithoutCounts(fifo, x);
    var f := Without(fifo, x);
    assert y in multiset(f);
    var k := IndexOf(f, y);
    assert f == f[..k] + [y] + f[k + 1..];
  }

  lemma MoveHolds(d: Sched, x: nat)
    requires x in d.reqs && x in SideOf(d, d.reqs[x].write).fifo
    ensures Held(Move(d, x)) == Held(d)
  {
    hide Without, Latter;
    WithoutCounts(SideOf(d, d.reqs[x].write).fifo, x);
  }

  lemma AddToTreeHolds(d: Sched, x: nat)
    requires x in d.reqs
    requires Hole(d.reqs, SideOf(d, d.reqs[x].write), d.reqs[x].write, x)
    ensures Held(AddToTree(d, x)) == Held(d)
  {
    hide Move, Place, Rising, ByDeadline, Distinct;
    var w := d.reqs[x].write;
    var s := SideOf(d, w);
    var alias := Alias(d.reqs, s.tree, d.reqs[x].pos);
    if alias.Some? {
      AliasGone(d.reqs, s.tree, d.reqs[x].pos);
      MoveHolds(d, alias.value);
    }
  }

  /** What an event adds to the requests held, and what it takes away. */
  function Gained(e: Event): multiset<nat> {
    if e.NewRequest? then multiset{e.x} else multiset{}
  }

  function Absorbed(e: Event): multiset<nat> {
    if e.MergeRequests? then multiset{e.y} else multiset{}
  }

  lemma AddHolds(d: Sched, t: Tunables, x: nat, write: bool, pos: int, end: int, now: int)
    requires Inv(d) && !Known(d, x)
    ensures Held(Add(d, t, x, write, pos, end, now)) == Held(d) + multiset{x}
  {
    hide SideOk, Hole, AddToTree, Inv;
    var r := Req(write, pos, end, now + Expire(t, write));
    var d' := d.(reqs := d.reqs[x := r]);
    SideRule(d, write);
    Elsewhere(d.reqs, SideOf(d, write), write, x, r);
    HoleForNew(d'.reqs, SideOf(d', write), write, x);
    AddToTreeHolds(d', x);
    assert Held(d') == Held(d);
  }

  lemma FrontMergedHolds(d: Sched, x: nat, pos: int)
    requires Inv(d) && x in d.reqs && x in SideOf(d, d.reqs[x].write).tree
    ensures Held(FrontMerged(d, x, pos)) == Held(d)
  {
    hide SideOk, Hole, AddToTree, Inv, Without;
    var w := d.reqs[x].write;
    SideRule(d, w);
    var s := SideOf(d, w);
    HoleForMoved(d.reqs, s, w, x, pos);
    var d' := WithSide(d.(reqs := d.reqs[x := d.reqs[x].(pos := pos)]), w, s.(tree := Without(s.tree, x)));
    AddToTreeHolds(d', x);
    assert Held(d') == Held(d);
  }

  lemma MergedHolds(d: Sched, x: nat, y: nat)
    requires Inv(d) && x in d.reqs && y in d.reqs && x != y
    requires x in SideOf(d, d.reqs[x].write).tree && y in SideOf(d, d.reqs[x].write).tree
    ensures Held(Merged(d, x, y)) + multiset{y} == Held(d)
  {
    hide Inv, Without, TakePlace, Latter, Rising, ByDeadline, Distinct, AreOf;
    var w := d.reqs[x].write;
    SideRule(d, w);
    var s := SideOf(d, w);
    OnFifo(d.reqs, s, w, x);
    OnFifo(d.reqs, s, w, y);
    WithoutCounts(s.fifo, y);
    TakePlaceCounts(s.fifo, x, y);
  }

  lemma DispatchHolds(d: Sched, t: Tunables, now: int)
    requires Inv(d)
    ensures Held(Dispatch(d, t, now)) == Held(d)
  {
    hide Inv, Choose, Move;
    match Choose(d, t, now)
    case Nothing =>
    case Go(x, batching, starved) =>
      ChosenIsKnown(d, t, now);
      SideRule(d, d.reqs[x].write);
      OnFifo(d.reqs, SideOf(d, d.reqs[x].write), d.reqs[x].write, x);
      var d' := d.(batching := batching, starved := starved);
      MoveHolds(d', x);
      assert Held(d') == Held(d);
  }

  lemma StepHolds(s: State, t: Tunables, e: Event)
    requires Good(s, t) && Enabled(s, e)
    ensures Held(Step(s, t, e).sched) + Absorbed(e) == Held(s.sched) + Gained(e)
  {
    hide Inv, Timely, Held, Add, FrontMerged, Merged, Dispatch;
    match e
    case NewRequest(x, write, pos, end) => AddHolds(s.sched, t, x, write, pos, end, s.now);
    case FrontMerge(x, pos) => FrontMergedHolds(s.sched, x, pos);
    case MergeRequests(x, y) => MergedHolds(s.sched, x, y);
    case DispatchCall => DispatchHolds(s.sched, t, s.now);
    case Tick(dt) =>
  }

  function AllGained(es: seq<Event>): multiset<nat> {
    if es == [] then multiset{} else Gained(es[0]) + AllGained(es[1..])
  }

  function AllAbsorbed(es: seq<Event>): multiset<nat> {
    if es == [] then multiset{} else Absorbed(es[0]) + AllAbsorbed(es[1..])
  }

  /** Over every run, each request added is still waiting, has been dispatched, or was merged into another: one of these, once. */
  lemma {:induction false} NoRequestLost(s: State, t: Tunables, es: seq<Event>)
    requires Good(s, t) && Possible(s, t, es)
    ensures Held(Runs(s, t, es).sched) + AllAbsorbed(es) == Held(s.sched) + AllGained(es)
    decreases |es|
  {
    hide Good, Step, Enabled, Held, Absorbed, Gained;
    if es != [] {
      StepGood(s, t, es[0]);
      StepHolds(s, t, es[0]);
      NoRequestLost(Step(s, t, es[0]), t, es[1..]);
      Balance(Held(s.sched), Held(Step(s, t, es[0]).sched), Held(Runs(s, t, es).sched),
              Absorbed(es[0]), Gained(es[0]), AllAbsorbed(es[1..]), AllGained(es[1..]));
    }
  }

  lemma Balance(h0: multiset<nat>, h1: multiset<nat>, h2: multiset<nat>,
                a: multiset<nat>, g: multiset<nat>, aa: multiset<nat>, gg: multiset<nat>)
    requires h1 + a == h0 + g && h2 + aa == h1 + gg
    ensures h2 + (a + aa) == h0 + (g + gg)
  {
    assert h2 + (a + aa) == (h2 + aa) + a;
    assert (h1 + gg) + a == (h1 + a) + gg;
  }
}
