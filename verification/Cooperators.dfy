/**
 * CFQ's chains of cooperating queues: new_cfqq says which queue another is to be merged into.
 * The chains stay free of cycles, so the two loops over them end.
 */
module Cooperators {
  /** The new_cfqq links, the process references, and a rank that falls along every link. */
  datatype Graph = Graph(next: map<nat, nat>, refs: map<nat, nat>, rank: map<nat, nat>)

  function Rank(g: Graph, q: nat): nat {
    if q in g.rank then g.rank[q] else 0
  }

  function Refs(g: Graph, q: nat): nat {
    if q in g.refs then g.refs[q] else 0
  }

  ghost predicate Ranked(g: Graph) {
    forall q <- g.next :: Rank(g, g.next[q]) < Rank(g, q)
  }

  /** The chain behind a queue, in order. */
  function Successors(g: Graph, q: nat): seq<nat>
    requires Ranked(g)
    decreases Rank(g, q)
  {
    if q in g.next then [g.next[q]] + Successors(g, g.next[q]) else []
  }

  /** The chain walk of cfq_setup_merge: the last queue behind q, unless the chain leads to `self`. */
  function Walk(g: Graph, self: nat, q: nat): (end: seq<nat>)
    requires Ranked(g) && q != self
    ensures |end| <= 1
    ensures end != [] ==> end[0] !in g.next && end[0] != self
    decreases Rank(g, q)
  {
    if q !in g.next then [q]
    else if g.next[q] == self then []
    else Walk(g, self, g.next[q])
  }

  /** q's chain ends at a. */
  ghost predicate Leads(g: Graph, q: nat, a: nat)
    requires Ranked(g)
    decreases Rank(g, q)
  {
    q == a || (q in g.next && Leads(g, g.next[q], a))
  }

  /** Ranks after a link from a to b: everything whose chain ends at a is lifted above b. */
  ghost function Lifted(g: Graph, a: nat, b: nat): map<nat, nat>
    requires Ranked(g)
  {
    map q | q in g.rank.Keys + g.next.Keys + {a} :: Rank(g, q) + if Leads(g, q, a) then Rank(g, b) + 1 else 0
  }

  ghost function Link(g: Graph, a: nat, b: nat, more: nat): Graph
    requires Ranked(g)
  {
    Graph(g.next[a := b], g.refs[b := Refs(g, b) + more], Lifted(g, a, b))
  }

  /** cfq_setup_merge. */
  ghost function Setup(g: Graph, cfqq: nat, other: nat): Graph
    requires Ranked(g) && cfqq != other
  {
    if Refs(g, other) == 0 then g
    else
      var end := Walk(g, cfqq, other);
      if end == [] then g
      else if Refs(g, cfqq) == 0 || Refs(g, end[0]) == 0 then g
      else if Refs(g, end[0]) >= Refs(g, cfqq) then Link(g, cfqq, end[0], Refs(g, cfqq))
      else Link(g, end[0], cfqq, Refs(g, end[0]))
  }

  /** Linking two different queues that have no successor yet leaves no cycle. */
  lemma LinkRanked(g: Graph, a: nat, b: nat, more: nat)
    requires Ranked(g) && a !in g.next && b !in g.next && a != b
    ensures Ranked(Link(g, a, b, more))
  {
    var r := Link(g, a, b, more);
    forall q <- r.next
      ensures Rank(r, r.next[q]) < Rank(r, q)
    {
      LiftedRank(g, a, b, more, q);
      LiftedRank(g, a, b, more, r.next[q]);
      if q != a {
        assert Leads(g, q, a) <==> Leads(g, g.next[q], a);
      }
    }
  }

  lemma LiftedRank(g: Graph, a: nat, b: nat, more: nat, q: nat)
    requires Ranked(g)
    ensures Rank(Link(g, a, b, more), q) == Rank(g, q) + if Leads(g, q, a) then Rank(g, b) + 1 else 0
  {
    if q !in g.next && q != a {
      assert !Leads(g, q, a);
    }
  }

  /** No queue is met twice on its chain, and none is its own successor. */
  lemma {:induction false} ChainFalls(g: Graph, q: nat)
    requires Ranked(g)
    ensures forall i :: 0 <= i < |Successors(g, q)| ==> Rank(g, Successors(g, q)[i]) < Rank(g, q)
    ensures forall i, j :: 0 <= i < j < |Successors(g, q)| ==> Rank(g, Successors(g, q)[j]) < Rank(g, Successors(g, q)[i])
    decreases Rank(g, q)
  {
    if q in g.next {
      ChainFalls(g, g.next[q]);
    }
  }

  lemma NoLoop(g: Graph, q: nat)
    requires Ranked(g)
    ensures q !in Successors(g, q)
    ensures forall i, j :: 0 <= i < j < |Successors(g, q)| ==> Successors(g, q)[i] != Successors(g, q)[j]
  {
    hide Successors;
    ChainFalls(g, q);
  }

  // ---------------------------------------------------------------------------------------
  // Runs
  // ---------------------------------------------------------------------------------------

  /** A merge is set up; a queue is freed with its link; a queue gains or loses process references. */
  datatype Event = Merge(cfqq: nat, other: nat) | Free(q: nat) | SetRefs(q: nat, refs: nat)

  /** cfq_select_queue sets up a merge only for a queue that has none yet, and with another queue. */
  predicate Enabled(g: Graph, e: Event) {
    e.Merge? ==> e.cfqq != e.other && e.cfqq !in g.next
  }

  ghost function Step(g: Graph, e: Event): Graph
    requires Ranked(g) && Enabled(g, e)
  {
    match e
    case Merge(cfqq, other) => Setup(g, cfqq, other)
    case Free(q) => g.(next := g.next - {q})
    case SetRefs(q, refs) => g.(refs := g.refs[q := refs])
  }

  lemma StepRanked(g: Graph, e: Event)
    requires Ranked(g) && Enabled(g, e)
    ensures Ranked(Step(g, e))
  {
    hide Link;
    match e
    case Merge(cfqq, other) =>
      var end := Walk(g, cfqq, other);
      if end != [] {
        LinkRanked(g, cfqq, end[0], Refs(g, cfqq));
        LinkRanked(g, end[0], cfqq, Refs(g, end[0]));
      }
    case Free(q) =>
    case SetRefs(q, refs) =>
  }

  ghost predicate Possible(g: Graph, es: seq<Event>)
    requires Ranked(g)
    decreases |es|
  {
    es == [] || (Enabled(g, es[0]) && (StepRanked(g, es[0]); Possible(Step(g, es[0]), es[1..])))
  }

  ghost function Runs(g: Graph, es: seq<Event>): (r: Graph)
    requires Ranked(g) && Possible(g, es)
    ensures Ranked(r)
    decreases |es|
  {
    if es == [] then g
    else
      StepRanked(g, es[0]);
      Runs(Step(g, es[0]), es[1..])
  }

  /** Whatever has happened, no chain leads back to where it starts. */
  lemma NeverALoop(es: seq<Event>, q: nat)
    requires Possible(Graph(map[], map[], map[]), es)
    ensures q !in Successors(Runs(Graph(map[], map[], map[]), es), q)
  {
    hide Possible, Runs;
    NoLoop(Runs(Graph(map[], map[], map[]), es), q);
  }

  // ---------------------------------------------------------------------------------------
  // The loops
  // ---------------------------------------------------------------------------------------

  class Queues {
    var next: map<nat, nat>
    var refs: map<nat, nat>
    ghost var rank: map<nat, nat>

    constructor ()
      ensures View() == Graph(map[], map[], map[])
    {
      next, refs, rank := map[], map[], map[];
    }

    ghost function View(): Graph
      reads this
    {
      Graph(next, refs, rank)
    }

    function ProcessRefs(q: nat): (n: nat)
      reads this
      ensures n == Refs(View(), q)
    {
      if q in refs then refs[q] else 0
    }

    /** cfq_setup_merge, called for distinct queues of which the first has no successor. */
    method SetupMerge(cfqq: nat, other: nat)
      requires Ranked(View()) && cfqq != other && cfqq !in next
      modifies this
      ensures Ranked(View()) && View() == Setup(old(View()), cfqq, other)
    {
      hide Link, Lifted, Leads;
      if ProcessRefs(other) == 0 {
        return;
      }
      var end := other;
      while end in next
        invariant end != cfqq && Walk(View(), cfqq, end) == Walk(View(), cfqq, other)
        decreases Rank(View(), end)
      {
        if next[end] == cfqq {
          return;
        }
        end := next[end];
      }
      var mine, theirs := ProcessRefs(cfqq), ProcessRefs(end);
      if mine == 0 || theirs == 0 {
        return;
      }
      LinkRanked(View(), cfqq, end, mine);
      LinkRanked(View(), end, cfqq, theirs);
      if theirs >= mine {
        Join(cfqq, end, mine);
      } else {
        Join(end, cfqq, theirs);
      }
    }

    method Join(a: nat, b: nat, more: nat)
      requires Ranked(View())
      modifies this
      ensures View() == Link(old(View()), a, b, more)
    {
      hide Lifted, Leads;
      rank := Lifted(View(), a, b);
      refs := refs[b := ProcessRefs(b) + more];
      next := next[a := b];
    }

    /** The walk of cfq_put_cooperator: every queue of the chain is put once, and the warning never fires. */
    method PutCooperator(cfqq: nat) returns (put: seq<nat>, warned: bool)
      requires Ranked(View())
      ensures !warned && put == Successors(View(), cfqq)
    {
      put, warned := [], false;
      var q := cfqq;
      while q in next
        invariant Successors(View(), cfqq) == put + Successors(View(), q)
        invariant !warned
        decreases Rank(View(), q)
      {
        NoLoop(View(), cfqq);
        assert next[q] in Successors(View(), q);
        if next[q] == cfqq {
          warned := true;
          break;
        }
        put := put + [next[q]];
        q := next[q];
      }
    }
  }
}
