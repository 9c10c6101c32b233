/** Fairness of CFQ's group scheduling over whole runs, with fixed weights. */
module CfqFairness {
  import opened Options
  import opened CfqGroups

  /** The group being served, with what it has been charged since it was picked. */
  datatype Serving = Nobody | Serving(id: nat, spent: nat)

  datatype State = State(tree: Tree, serving: Serving)

  /**
   * A queue joins or leaves a group; a group is picked; a slice of the group being served ends.
   * Several slices may end between two picks, when one queue hands over to a close one.
   */
  datatype Event = Join(id: nat, weight: nat) | Leave(id: nat) | Select | Slice(charge: nat)

  /** A queue leaves only a group that has one: cfq_group_service_tree_del has a BUG_ON. */
  predicate Enabled(s: State, e: Event) {
    match e
    case Join(_, weight) => weight > 0
    case Leave(id) => Find(s.tree.groups, id).Some?
    case _ => true
  }

  predicate OnTree(s: State, id: nat) {
    Find(s.tree.groups, id).Some?
  }

  function Vtime(s: State, id: nat): int
    requires OnTree(s, id)
  {
    Find(s.tree.groups, id).value.vtime
  }

  function Weight(s: State, id: nat): nat
    requires OnTree(s, id)
  {
    Find(s.tree.groups, id).value.weight
  }

  /** The group being served has not been charged more than `spent` beyond any other. */
  ghost predicate Inv(s: State) {
    && TreeOk(s.tree)
    && (s.serving.Serving? ==>
          && OnTree(s, s.serving.id)
          && forall id :: OnTree(s, id) ==> Vtime(s, s.serving.id) - s.serving.spent <= Vtime(s, id))
  }

  /** What the slice adds to the virtual time of the group being served. */
  ghost function Cost(s: State, e: Event): nat
    requires Inv(s)
  {
    if e.Slice? && s.serving.Serving? then Scaled(e.charge, Weight(s, s.serving.id)) else 0
  }

  ghost function Step(s: State, e: Event, delay: nat): State
    requires Inv(s) && Enabled(s, e)
  {
    match e
    case Join(id, weight) => s.(tree := Add(s.tree, id, weight, delay))
    case Leave(id) =>
      var tree := Del(s.tree, id);
      State(tree, if s.serving.Serving? && Find(tree.groups, s.serving.id).None? then Nobody else s.serving)
    case Select =>
      if s.tree.groups == [] then s.(serving := Nobody)
      else State(Pick(s.tree), Serving(s.tree.groups[0].id, 0))
    case Slice(charge) =>
      if s.serving.Nobody? then s
      else State(Expire(Charge(s.tree, s.serving.id, charge), s.serving.id), Serving(s.serving.id, s.serving.spent + Cost(s, e)))
  }

  lemma ExpireOk(t: Tree, id: nat)
    requires TreeOk(t)
    ensures TreeOk(Expire(t, id)) && Expire(t, id).groups == t.groups && Expire(t, id).minTime == t.minTime
  {
    hide Find, Sorted, Distinct;
  }

  lemma JoinInv(s: State, id: nat, weight: nat, delay: nat)
    requires Inv(s) && weight > 0
    ensures Inv(Step(s, Join(id, weight), delay))
    ensures s.tree.minTime == Step(s, Join(id, weight), delay).tree.minTime
  {
    hide TreeOk, Find, Add;
    AddOk(s.tree, id, weight, delay);
    var r := Step(s, Join(id, weight), delay);
    if s.serving.Serving? {
      assert Vtime(s, s.serving.id) == Vtime(r, s.serving.id);
      forall other | OnTree(r, other)
        ensures Vtime(r, s.serving.id) - s.serving.spent <= Vtime(r, other)
      {
        if OnTree(s, other) {
          assert Vtime(s, other) == Vtime(r, other);
        } else {
          assert other == id;
          assert Find(s.tree.groups, s.serving.id).Some?;
        }
      }
    }
  }

  lemma LeaveInv(s: State, id: nat, delay: nat)
    requires Inv(s) && OnTree(s, id)
    ensures Inv(Step(s, Leave(id), delay))
    ensures s.tree.minTime == Step(s, Leave(id), delay).tree.minTime
  {
    hide TreeOk, Find, Del;
    DelOk(s.tree, id);
    var r := Step(s, Leave(id), delay);
    if r.serving.Serving? {
      assert Vtime(s, s.serving.id) == Vtime(r, s.serving.id);
      forall other | OnTree(r, other)
        ensures Vtime(r, s.serving.id) - s.serving.spent <= Vtime(r, other)
      {
        assert OnTree(s, other) && Vtime(s, other) == Vtime(r, other);
      }
    }
  }

  lemma SliceInv(s: State, charge: nat, delay: nat)
    requires Inv(s) && s.serving.Serving?
    ensures Inv(Step(s, Slice(charge), delay))
    ensures s.tree.minTime == Step(s, Slice(charge), delay).tree.minTime
  {
    hide TreeOk, Find, Charge, Expire, Scaled;
    var g := s.serving.id;
    ChargeOk(s.tree, g, charge);
    ExpireOk(Charge(s.tree, g, charge), g);
    var r := Step(s, Slice(charge), delay);
    assert Vtime(r, g) == Vtime(s, g) + Cost(s, Slice(charge));
    forall other | OnTree(r, other)
      ensures Vtime(r, g) - r.serving.spent <= Vtime(r, other)
    {
      assert OnTree(s, other) && (other != g ==> Vtime(s, other) == Vtime(r, other));
    }
  }

  lemma StepInv(s: State, e: Event, delay: nat)
    requires Inv(s) && Enabled(s, e)
    ensures Inv(Step(s, e, delay))
    ensures s.tree.minTime <= Step(s, e, delay).tree.minTime
  {
    hide TreeOk, Find, Add, Del, Pick, Charge, Expire, Scaled;
    var r := Step(s, e, delay);
    match e
    case Join(id, weight) => JoinInv(s, id, weight, delay);
    case Leave(id) => LeaveInv(s, id, delay);
    case Select =>
      if s.tree.groups != [] {
        PickOk(s.tree);
      }
    case Slice(charge) =>
      if s.serving.Serving? {
        SliceInv(s, charge, delay);
      }
  }

  /** One step moves a group that stays on the tree by exactly what it is charged. */
  lemma StepMoves(s: State, e: Event, delay: nat, id: nat)
    requires Inv(s) && Enabled(s, e) && OnTree(s, id) && OnTree(Step(s, e, delay), id)
    ensures Vtime(Step(s, e, delay), id) == Vtime(s, id) + if s.serving.Serving? && s.serving.id == id then Cost(s, e) else 0
    ensures Weight(Step(s, e, delay), id) == Weight(s, id)
  {
    hide TreeOk, Find, Add, Pick, Charge, Expire, Scaled;
    match e
    case Join(other, weight) => AddOk(s.tree, other, weight, delay);
    case Leave(other) =>
      DelOk(s.tree, other);
      if other == id {
        DelWeight(s.tree, id);
      }
    case Select =>
      if s.tree.groups != [] {
        PickOk(s.tree);
      }
    case Slice(charge) =>
      if s.serving.Serving? {
        ChargeOk(s.tree, s.serving.id, charge);
        ExpireOk(Charge(s.tree, s.serving.id, charge), s.serving.id);
      }
  }

  lemma DelWeight(t: Tree, id: nat)
    requires TreeOk(t) && Find(Del(t, id).groups, id).Some? && Find(t.groups, id).Some?
    ensures Find(Del(t, id).groups, id).value.weight == Find(t.groups, id).value.weight
  {
    hide Find, Replace, Sorted, Distinct, Erase;
    var g := Find(t.groups, id).value;
    if g.queues <= 1 {
      EraseFind(t.groups, id, id);
    } else {
      ReplaceFind(t.groups, g.(queues := g.queues - 1), id);
    }
  }

  // ---------------------------------------------------------------------------------------
  // Runs
  // ---------------------------------------------------------------------------------------

  ghost predicate Possible(s: State, es: seq<Event>, delay: nat)
    requires Inv(s)
    decreases |es|
  {
    es == [] || (Enabled(s, es[0]) && (StepInv(s, es[0], delay); Possible(Step(s, es[0], delay), es[1..], delay)))
  }

  ghost function Runs(s: State, es: seq<Event>, delay: nat): (r: State)
    requires Inv(s) && Possible(s, es, delay)
    ensures Inv(r) && s.tree.minTime <= r.tree.minTime
    decreases |es|
  {
    if es == [] then s
    else
      StepInv(s, es[0], delay);
      Runs(Step(s, es[0], delay), es[1..], delay)
  }

  /** The group is on the tree all along. */
  ghost predicate Stays(s: State, es: seq<Event>, delay: nat, id: nat)
    requires Inv(s) && Possible(s, es, delay)
    decreases |es|
  {
    OnTree(s, id) && (es == [] || (StepInv(s, es[0], delay); Stays(Step(s, es[0], delay), es[1..], delay, id)))
  }

  /** No group is charged more than m between two picks. */
  ghost predicate Within(s: State, es: seq<Event>, delay: nat, m: nat)
    requires Inv(s) && Possible(s, es, delay)
    decreases |es|
  {
    && (s.serving.Serving? ==> s.serving.spent <= m)
    && (es == [] || (StepInv(s, es[0], delay); Within(Step(s, es[0], delay), es[1..], delay, m)))
  }

  function Max(a: int, b: int): int {
    if a < b then b else a
  }

  lemma StepGap(s: State, e: Event, delay: nat, m: nat, i: nat, j: nat)
    requires Inv(s) && Enabled(s, e) && OnTree(s, i) && OnTree(s, j)
    requires OnTree(Step(s, e, delay), i) && OnTree(Step(s, e, delay), j)
    requires Step(s, e, delay).serving.Serving? ==> Step(s, e, delay).serving.spent <= m
    ensures Vtime(Step(s, e, delay), i) - Vtime(Step(s, e, delay), j) <= Max(Vtime(s, i) - Vtime(s, j), m)
  {
    hide TreeOk, Find, Add, Del, Pick, Charge, Expire, Scaled, Vtime;
    StepMoves(s, e, delay, i);
    StepMoves(s, e, delay, j);
  }

  /**
   * Two groups that stay on the tree never drift further apart in virtual time than they were or
   * than the largest charge between two picks, whatever other groups join or leave.
   */
  lemma {:induction false} GapBounded(s: State, es: seq<Event>, delay: nat, m: nat, i: nat, j: nat)
    requires Inv(s) && Possible(s, es, delay) && Stays(s, es, delay, i) && Stays(s, es, delay, j) && Within(s, es, delay, m)
    ensures OnTree(Runs(s, es, delay), i) && OnTree(Runs(s, es, delay), j)
    ensures Vtime(Runs(s, es, delay), i) - Vtime(Runs(s, es, delay), j) <= Max(Vtime(s, i) - Vtime(s, j), m)
    decreases |es|
  {
    hide Inv, Step, Enabled, OnTree, Vtime;
    if es != [] {
      StepInv(s, es[0], delay);
      var s' := Step(s, es[0], delay);
      StaysNow(s', es[1..], delay, i);
      StaysNow(s', es[1..], delay, j);
      WithinNow(s', es[1..], delay, m);
      StepGap(s, es[0], delay, m, i, j);
      GapBounded(s', es[1..], delay, m, i, j);
    }
  }

  lemma StaysNow(s: State, es: seq<Event>, delay: nat, id: nat)
    requires Inv(s) && Possible(s, es, delay) && Stays(s, es, delay, id)
    ensures OnTree(s, id)
  {
  }

  lemma WithinNow(s: State, es: seq<Event>, delay: nat, m: nat)
    requires Inv(s) && Possible(s, es, delay) && Within(s, es, delay, m)
    ensures s.serving.Serving? ==> s.serving.spent <= m
  {
  }

  /** The minimum never decreases and never exceeds the virtual time of a group on the tree. */
  lemma MinTimeMonotone(s: State, es: seq<Event>, delay: nat, id: nat)
    requires Inv(s) && Possible(s, es, delay) && OnTree(Runs(s, es, delay), id)
    ensures s.tree.minTime <= Runs(s, es, delay).tree.minTime <= Vtime(Runs(s, es, delay), id)
  {
    hide Possible, Find, Sorted, Distinct;
  }

  // ---------------------------------------------------------------------------------------
  // Shares of disk time
  // ---------------------------------------------------------------------------------------

  predicate Serves(s: State, e: Event, id: nat) {
    e.Slice? && s.serving.Serving? && s.serving.id == id
  }

  /** The virtual time charged to a group. */
  ghost function Received(s: State, es: seq<Event>, delay: nat, id: nat): nat
    requires Inv(s) && Possible(s, es, delay)
    decreases |es|
  {
    if es == [] then 0
    else
      StepInv(s, es[0], delay);
      (if Serves(s, es[0], id) then Cost(s, es[0]) else 0) + Received(Step(s, es[0], delay), es[1..], delay, id)
  }

  /** The disk time (or, in iops mode, the requests) that a group was charged for. */
  ghost function Used(s: State, es: seq<Event>, delay: nat, id: nat): nat
    requires Inv(s) && Possible(s, es, delay)
    decreases |es|
  {
    if es == [] then 0
    else
      StepInv(s, es[0], delay);
      (if Serves(s, es[0], id) then es[0].charge else 0) + Used(Step(s, es[0], delay), es[1..], delay, id)
  }

  /** The number of slices that a group had. */
  ghost function Slices(s: State, es: seq<Event>, delay: nat, id: nat): nat
    requires Inv(s) && Possible(s, es, delay)
    decreases |es|
  {
    if es == [] then 0
    else
      StepInv(s, es[0], delay);
      (if Serves(s, es[0], id) then 1 else 0) + Slices(Step(s, es[0], delay), es[1..], delay, id)
  }

  /** A group that stays on the tree moves by exactly what it was charged, and its weight does not change. */
  lemma {:induction false} ReceivedMoves(s: State, es: seq<Event>, delay: nat, id: nat)
    requires Inv(s) && Possible(s, es, delay) && Stays(s, es, delay, id)
    ensures OnTree(Runs(s, es, delay), id)
    ensures Vtime(Runs(s, es, delay), id) == Vtime(s, id) + Received(s, es, delay, id)
    ensures Weight(Runs(s, es, delay), id) == Weight(s, id)
    decreases |es|
  {
    hide Inv, Step, Enabled, OnTree, Vtime, Weight, Cost;
    if es != [] {
      StepInv(s, es[0], delay);
      var s' := Step(s, es[0], delay);
      StaysNow(s', es[1..], delay, id);
      StepMoves(s, es[0], delay, id);
      NoCost(s, es[0]);
      ReceivedMoves(s', es[1..], delay, id);
    }
  }

  lemma NoCost(s: State, e: Event)
    requires Inv(s)
    ensures !e.Slice? ==> Cost(s, e) == 0
  {
  }

  /** The virtual time of a group is its disk time divided by its weight, each slice rounded down. */
  lemma {:induction false} ReceivedScales(s: State, es: seq<Event>, delay: nat, id: nat)
    requires Inv(s) && Possible(s, es, delay) && Stays(s, es, delay, id)
    ensures OnTree(s, id) && Weight(s, id) > 0
    ensures Received(s, es, delay, id) * Weight(s, id) <= Used(s, es, delay, id) * SCALE
    ensures Used(s, es, delay, id) * SCALE <= (Received(s, es, delay, id) + Slices(s, es, delay, id)) * Weight(s, id)
    decreases |es|
  {
    hide Inv, Step, Enabled, OnTree, Vtime, Weight, Cost;
    StaysNow(s, es, delay, id);
    WeightPositive(s, id);
    if es != [] {
      StepInv(s, es[0], delay);
      var s' := Step(s, es[0], delay);
      StaysNow(s', es[1..], delay, id);
      StepMoves(s, es[0], delay, id);
      ReceivedScales(s', es[1..], delay, id);
      var w := Weight(s, id);
      var r, u, n := Received(s', es[1..], delay, id), Used(s', es[1..], delay, id), Slices(s', es[1..], delay, id);
      if Serves(s, es[0], id) {
        CostScales(s, es[0]);
        Distribute(Cost(s, es[0]), r, w);
        Distribute(es[0].charge, u, SCALE);
        Distribute(Cost(s, es[0]) + 1, r + n, w);
      }
    }
  }

  lemma WeightPositive(s: State, id: nat)
    requires Inv(s) && OnTree(s, id)
    ensures Weight(s, id) > 0
  {
    hide Find, Sorted, Distinct;
  }

  lemma CostScales(s: State, e: Event)
    requires Inv(s) && e.Slice? && s.serving.Serving?
    ensures OnTree(s, s.serving.id)
    ensures Cost(s, e) * Weight(s, s.serving.id) <= e.charge * SCALE <= (Cost(s, e) + 1) * Weight(s, s.serving.id)
  {
    hide Find, Sorted, Distinct;
    WeightPositive(s, s.serving.id);
    var w := Weight(s, s.serving.id);
    Distribute(Cost(s, e), 1, w);
  }

  lemma Distribute(a: int, b: int, w: int)
    ensures (a + b) * w == a * w + b * w
  {
  }

  lemma Absolute(s: State, es: seq<Event>, delay: nat, m: nat, i: nat, j: nat)
    requires Inv(s) && Possible(s, es, delay) && Stays(s, es, delay, i) && Stays(s, es, delay, j) && Within(s, es, delay, m)
    ensures OnTree(s, i) && OnTree(s, j)
    ensures var b := Max(Max(Vtime(s, i) - Vtime(s, j), Vtime(s, j) - Vtime(s, i)), m);
            -2 * b <= Received(s, es, delay, i) - Received(s, es, delay, j) <= 2 * b
  {
    hide Inv, OnTree, Vtime, Possible, Stays, Within, Runs;
    StaysNow(s, es, delay, i);
    StaysNow(s, es, delay, j);
    GapBounded(s, es, delay, m, i, j);
    GapBounded(s, es, delay, m, j, i);
    ReceivedMoves(s, es, delay, i);
    ReceivedMoves(s, es, delay, j);
  }

  /**
   * Groups that stay on the tree get disk time in proportion to their weights: what each used,
   * divided by its weight, differs by a bounded amount plus the rounding of each slice.
   */
  lemma FairShares(s: State, es: seq<Event>, delay: nat, m: nat, i: nat, j: nat)
    requires Inv(s) && Possible(s, es, delay) && Stays(s, es, delay, i) && Stays(s, es, delay, j) && Within(s, es, delay, m)
    ensures OnTree(s, i) && OnTree(s, j)
    ensures var b := Max(Max(Vtime(s, i) - Vtime(s, j), Vtime(s, j) - Vtime(s, i)), m);
            SCALE * (Used(s, es, delay, i) * Weight(s, j) - Used(s, es, delay, j) * Weight(s, i))
            <= (2 * b + Slices(s, es, delay, i)) * (Weight(s, i) * Weight(s, j))
  {
    hide Inv, OnTree, Vtime, Weight, Possible, Stays, Within, Received, Used, Slices;
    StaysNow(s, es, delay, i);
    StaysNow(s, es, delay, j);
    Absolute(s, es, delay, m, i, j);
    ReceivedScales(s, es, delay, i);
    ReceivedScales(s, es, delay, j);
    var b := Max(Max(Vtime(s, i) - Vtime(s, j), Vtime(s, j) - Vtime(s, i)), m);
    CrossWeights(Used(s, es, delay, i), Used(s, es, delay, j), Received(s, es, delay, i), Received(s, es, delay, j),
                 Slices(s, es, delay, i), Weight(s, i), Weight(s, j), b);
  }

  lemma CrossWeights(ui: nat, uj: nat, ri: nat, rj: nat, n: nat, wi: nat, wj: nat, b: int)
    requires ui * SCALE <= (ri + n) * wi && rj * wj <= uj * SCALE && ri - rj <= 2 * b
    ensures SCALE * (ui * wj - uj * wi) <= (2 * b + n) * (wi * wj)
  {
    Times(ui * SCALE, (ri + n) * wi, wj);
    Times(rj * wj, uj * SCALE, wi);
    Times(ri + n - rj, 2 * b + n, wi * wj);
    calc {
      SCALE * (ui * wj - uj * wi);
    ==
      (ui * SCALE) * wj - (uj * SCALE) * wi;
    <=
      ((ri + n) * wi) * wj - (rj * wj) * wi;
    ==
      (ri + n - rj) * (wi * wj);
    <=
      (2 * b + n) * (wi * wj);
    }
  }

  lemma Times(a: int, b: int, w: nat)
    requires a <= b
    ensures a * w <= b * w
  {
  }
}
