/**
 * CFQ's group service tree: groups are kept in the order of their virtual disk time, the leftmost
 * one is served, and what it used is charged to it in inverse proportion to its weight.
 */
module CfqGroups {
  import opened Options

  const SERVICE_SHIFT := 4096
  const WEIGHT_DEFAULT := 500
  const SCALE := SERVICE_SHIFT * WEIGHT_DEFAULT

  /** A group on the tree; `queues` is nr_cfqq. */
  datatype Group = Group(id: nat, weight: nat, vtime: int, queues: nat)

  /** The tree, in order, with its leftmost cache and the group picked last. */
  datatype Tree = Tree(groups: seq<Group>, minTime: int, left: Option<nat>, active: Option<nat>)

  // ---------------------------------------------------------------------------------------
  // The ordered tree
  // ---------------------------------------------------------------------------------------

  ghost predicate Sorted(gs: seq<Group>) {
    forall i, j :: 0 <= i < j < |gs| ==> gs[i].vtime <= gs[j].vtime
  }

  ghost predicate Distinct(gs: seq<Group>) {
    forall i, j :: 0 <= i < j < |gs| ==> gs[i].id != gs[j].id
  }

  function Find(gs: seq<Group>, id: nat): Option<Group> {
    if gs == [] then None else if gs[0].id == id then Some(gs[0]) else Find(gs[1..], id)
  }

  /** The place of a new node: behind every group that is not later. */
  function Place(gs: seq<Group>, vtime: int): nat
    ensures Place(gs, vtime) <= |gs|
  {
    if gs == [] || vtime < gs[0].vtime then 0 else 1 + Place(gs[1..], vtime)
  }

  function Insert(gs: seq<Group>, g: Group): seq<Group> {
    gs[..Place(gs, g.vtime)] + [g] + gs[Place(gs, g.vtime)..]
  }

  /** Where a group is, or the length of the tree. */
  function Index(gs: seq<Group>, id: nat): nat
    ensures Index(gs, id) <= |gs|
  {
    if gs == [] || gs[0].id == id then 0 else 1 + Index(gs[1..], id)
  }

  function Erase(gs: seq<Group>, id: nat): seq<Group> {
    var k := Index(gs, id);
    if k == |gs| then gs else gs[..k] + gs[k + 1..]
  }

  lemma {:induction false} FindMember(gs: seq<Group>, id: nat)
    ensures match Find(gs, id)
            case Some(g) => g in gs && g.id == id
            case None => forall g <- gs :: g.id != id
  {
    if gs != [] && gs[0].id != id {
      FindMember(gs[1..], id);
      assert forall g <- gs :: g == gs[0] || g in gs[1..];
    }
  }

  lemma {:induction false} FindUnique(gs: seq<Group>, g: Group)
    requires Distinct(gs) && g in gs
    ensures Find(gs, g.id) == Some(g)
  {
    if gs[0] != g {
      assert g in gs[1..];
      FindUnique(gs[1..], g);
    }
  }

  lemma {:induction false} FindConcat(a: seq<Group>, b: seq<Group>, id: nat)
    ensures Find(a + b, id) == if Find(a, id).Some? then Find(a, id) else Find(b, id)
  {
    if a == [] {
      assert a + b == b;
    } else {
      FindConcat(a[1..], b, id);
      assert (a + b)[1..] == a[1..] + b;
    }
  }

  lemma {:induction false} PlaceSplits(gs: seq<Group>, vtime: int)
    requires Sorted(gs)
    ensures forall i :: 0 <= i < Place(gs, vtime) ==> gs[i].vtime <= vtime
    ensures forall i :: Place(gs, vtime) <= i < |gs| ==> vtime < gs[i].vtime
  {
    if gs != [] && gs[0].vtime <= vtime {
      PlaceSplits(gs[1..], vtime);
      assert forall i :: 0 < i < |gs| ==> gs[i] == gs[1..][i - 1];
    }
  }

  lemma InsertSorted(gs: seq<Group>, g: Group)
    requires Sorted(gs)
    ensures Sorted(Insert(gs, g))
  {
    PlaceSplits(gs, g.vtime);
  }

  /** A group inserted under a new name is found, and every other one as before. */
  lemma InsertFind(gs: seq<Group>, g: Group, id: nat)
    requires Find(gs, g.id).None?
    ensures Find(Insert(gs, g), id) == if id == g.id then Some(g) else Find(gs, id)
  {
    var p := Place(gs, g.vtime);
    assert gs == gs[..p] + gs[p..];
    FindConcat(gs[..p], gs[p..], id);
    FindConcat(gs[..p] + [g], gs[p..], id);
    FindConcat(gs[..p], [g], id);
    FindConcat(gs[..p], gs[p..], g.id);
    assert [g][1..] == [];
  }

  lemma InsertDistinct(gs: seq<Group>, g: Group)
    requires Distinct(gs) && Find(gs, g.id).None?
    ensures Distinct(Insert(gs, g))
  {
    FindMember(gs, g.id);
    var p := Place(gs, g.vtime);
    var r := Insert(gs, g);
    assert forall i :: 0 <= i < |r| ==> r[i] == if i < p then gs[i] else if i == p then g else gs[i - 1];
  }

  lemma {:induction false} IndexFinds(gs: seq<Group>, id: nat)
    ensures var k := Index(gs, id);
            && (forall i :: 0 <= i < k ==> gs[i].id != id)
            && (k < |gs| ==> gs[k].id == id && Find(gs, id) == Some(gs[k]))
            && (k == |gs| ==> Find(gs, id) == None)
  {
    if gs != [] && gs[0].id != id {
      IndexFinds(gs[1..], id);
    }
  }

  lemma EraseOrdered(gs: seq<Group>, id: nat)
    requires Sorted(gs) && Distinct(gs)
    ensures Sorted(Erase(gs, id)) && Distinct(Erase(gs, id))
  {
    var k := Index(gs, id);
    var r := Erase(gs, id);
    assert k < |gs| ==> forall i :: 0 <= i < |r| ==> r[i] == if i < k then gs[i] else gs[i + 1];
  }

  /** A group erased is not found any more, and every other one as before. */
  lemma EraseFind(gs: seq<Group>, id: nat, other: nat)
    requires Distinct(gs)
    ensures Find(Erase(gs, id), other) == if other == id then None else Find(gs, other)
  {
    var k := Index(gs, id);
    IndexFinds(gs, id);
    if k < |gs| {
      assert gs == gs[..k] + ([gs[k]] + gs[k + 1..]);
      FindConcat(gs[..k], [gs[k]] + gs[k + 1..], other);
      FindConcat([gs[k]], gs[k + 1..], other);
      FindConcat(gs[..k], gs[k + 1..], other);
      FindMember(gs[..k], id);
      FindMember(gs[k + 1..], id);
      assert [gs[k]][1..] == [];
    }
  }

  // ---------------------------------------------------------------------------------------
  // Operations
  // ---------------------------------------------------------------------------------------

  /** cfq_scale_slice. */
  function Scaled(charge: nat, weight: nat): (d: nat)
    requires weight > 0
    ensures d * weight <= charge * SCALE < d * weight + weight
  {
    charge * SCALE / weight
  }

  /** __cfq_group_service_tree_add: a node that has nothing to its left becomes the leftmost. */
  function AddNode(t: Tree, g: Group): Tree {
    t.(groups := Insert(t.groups, g), left := if Place(t.groups, g.vtime) == 0 then Some(g.id) else t.left)
  }

  /** cfq_rb_erase. */
  function EraseNode(t: Tree, id: nat): Tree {
    t.(groups := Erase(t.groups, id), left := if t.left == Some(id) then None else t.left)
  }

  function Replace(gs: seq<Group>, g: Group): seq<Group> {
    var k := Index(gs, g.id);
    if k == |gs| then gs else gs[k := g]
  }

  /** cfq_group_service_tree_add: a group that is not on the tree yet is put at its end. */
  function Add(t: Tree, id: nat, weight: nat, delay: nat): Tree {
    match Find(t.groups, id)
    case Some(g) => t.(groups := Replace(t.groups, g.(queues := g.queues + 1)))
    case None =>
      var vtime := if t.groups == [] then t.minTime else t.groups[|t.groups| - 1].vtime + delay;
      AddNode(t, Group(id, weight, vtime, 1))
  }

  /** cfq_group_service_tree_del: the group leaves with the last of its queues. */
  function Del(t: Tree, id: nat): Tree {
    var t' := t.(active := if t.active == Some(id) then None else t.active);
    match Find(t.groups, id)
    case Some(g) => if g.queues <= 1 then EraseNode(t', id) else t'.(groups := Replace(t.groups, g.(queues := g.queues - 1)))
    case None => t'
  }

  /** cfq_rb_first_group fills the leftmost cache. */
  function FirstGroup(t: Tree): Tree {
    if t.left.Some? || t.groups == [] then t else t.(left := Some(t.groups[0].id))
  }

  function TimeOf(t: Tree, who: Option<nat>, default: int): int {
    if who.Some? && Find(t.groups, who.value).Some? then Find(t.groups, who.value).value.vtime else default
  }

  /** update_min_vdisktime. */
  function UpdateMin(t: Tree): Tree {
    var v := TimeOf(t, t.active, t.minTime);
    var l := TimeOf(t, t.left, v);
    var v' := if l < v then l else v;
    t.(minTime := if v' > t.minTime then v' else t.minTime)
  }

  /** cfq_get_next_cfqg. */
  function Pick(t: Tree): Tree {
    if t.groups == [] then t
    else
      var t' := FirstGroup(t);
      UpdateMin(t'.(active := t'.left))
  }

  /** The charge of cfq_group_served, and the end of the slice. */
  function Charge(t: Tree, id: nat, charge: nat): Tree
    requires Find(t.groups, id).Some? && Find(t.groups, id).value.weight > 0
  {
    var g := Find(t.groups, id).value;
    AddNode(EraseNode(t, id), g.(vtime := g.vtime + Scaled(charge, g.weight)))
  }

  function Expire(t: Tree, id: nat): Tree {
    t.(active := if t.active == Some(id) then None else t.active)
  }

  // ---------------------------------------------------------------------------------------
  // What every operation keeps
  // ---------------------------------------------------------------------------------------

  ghost predicate GroupsOk(t: Tree) {
    forall id :: Find(t.groups, id).Some? ==>
      var g := Find(t.groups, id).value;
      g.id == id && g.weight > 0 && g.queues >= 1 && t.minTime <= g.vtime
  }

  ghost predicate TreeOk(t: Tree) {
    && Sorted(t.groups) && Distinct(t.groups) && GroupsOk(t)
    && (t.left.Some? ==> t.groups != [] && t.left.value == t.groups[0].id)
    && (t.active.Some? ==> Find(t.groups, t.active.value).Some?)
  }

  /** The leftmost group has the least virtual time. */
  lemma LeftIsLeast(gs: seq<Group>, id: nat)
    requires Sorted(gs) && Find(gs, id).Some?
    ensures gs != [] && gs[0].vtime <= Find(gs, id).value.vtime
  {
    FindMember(gs, id);
  }

  lemma ReplaceOrdered(gs: seq<Group>, g: Group)
    requires Sorted(gs) && Distinct(gs) && Find(gs, g.id).Some? && Find(gs, g.id).value.vtime == g.vtime
    ensures Sorted(Replace(gs, g)) && Distinct(Replace(gs, g))
    ensures |Replace(gs, g)| == |gs| && forall i :: 0 <= i < |gs| ==> Replace(gs, g)[i].id == gs[i].id
  {
    IndexFinds(gs, g.id);
  }

  lemma ReplaceFind(gs: seq<Group>, g: Group, id: nat)
    requires Find(gs, g.id).Some?
    ensures Find(Replace(gs, g), id) == if id == g.id then Some(g) else Find(gs, id)
  {
    hide Find, Index;
    var k := Index(gs, g.id);
    IndexFinds(gs, g.id);
    var a, b := gs[..k], gs[k + 1..];
    assert gs == a + ([gs[k]] + b);
    assert gs[k := g] == a + ([g] + b);
    FindConcat(a, [gs[k]] + b, id);
    FindConcat(a, [g] + b, id);
    FindConcat([gs[k]], b, id);
    FindConcat([g], b, id);
    FindOne(gs[k], id);
    FindOne(g, id);
    FindMember(a, g.id);
    FindMember(a, id);
  }

  lemma FindOne(g: Group, id: nat)
    ensures Find([g], id) == if g.id == id then Some(g) else None
  {
    assert [g][1..] == [];
  }

  lemma AddNodeOk(t: Tree, g: Group)
    requires TreeOk(t) && Find(t.groups, g.id).None? && g.weight > 0 && g.queues >= 1 && t.minTime <= g.vtime
    ensures TreeOk(AddNode(t, g))
    ensures forall id :: Find(AddNode(t, g).groups, id) == if id == g.id then Some(g) else Find(t.groups, id)
  {
    hide Insert, Find, Sorted, Distinct;
    InsertSorted(t.groups, g);
    InsertDistinct(t.groups, g);
    forall id
      ensures Find(AddNode(t, g).groups, id) == if id == g.id then Some(g) else Find(t.groups, id)
    {
      InsertFind(t.groups, g, id);
    }
    InsertFirst(t.groups, g);
  }

  lemma InsertFirst(gs: seq<Group>, g: Group)
    ensures Insert(gs, g) != []
    ensures Insert(gs, g)[0] == if Place(gs, g.vtime) == 0 then g else gs[0]
  {
  }

  lemma EraseNodeOk(t: Tree, id: nat)
    requires TreeOk(t) && t.active != Some(id)
    ensures TreeOk(EraseNode(t, id))
    ensures forall other :: Find(EraseNode(t, id).groups, other) == if other == id then None else Find(t.groups, other)
  {
    hide Erase, Find, Sorted, Distinct;
    EraseOrdered(t.groups, id);
    forall other
      ensures Find(EraseNode(t, id).groups, other) == if other == id then None else Find(t.groups, other)
    {
      EraseFind(t.groups, id, other);
    }
    EraseFirst(t.groups, id);
  }

  lemma EraseFirst(gs: seq<Group>, id: nat)
    ensures gs != [] && gs[0].id != id ==> Erase(gs, id) != [] && Erase(gs, id)[0] == gs[0]
  {
  }

  lemma ChargeOk(t: Tree, id: nat, charge: nat)
    requires TreeOk(t) && Find(t.groups, id).Some?
    ensures Find(t.groups, id).value.weight > 0
    ensures TreeOk(Charge(t, id, charge)) && Charge(t, id, charge).minTime == t.minTime
    ensures var g := Find(t.groups, id).value; var r := Charge(t, id, charge);
            forall other :: Find(r.groups, other) == if other == id then Some(g.(vtime := g.vtime + Scaled(charge, g.weight))) else Find(t.groups, other)
  {
    hide Insert, Erase, Find, Sorted, Distinct, Scaled;
    var idle := t.(active := None);
    var g := Find(t.groups, id).value;
    EraseNodeOk(idle, id);
    AddNodeOk(EraseNode(idle, id), g.(vtime := g.vtime + Scaled(charge, g.weight)));
    assert Charge(t, id, charge) == Charge(idle, id, charge).(active := t.active);
  }

  lemma AddOk(t: Tree, id: nat, weight: nat, delay: nat)
    requires TreeOk(t) && weight > 0
    ensures TreeOk(Add(t, id, weight, delay)) && Add(t, id, weight, delay).minTime == t.minTime
    ensures forall other :: other != id ==> Find(Add(t, id, weight, delay).groups, other) == Find(t.groups, other)
    ensures var r := Find(Add(t, id, weight, delay).groups, id); var old' := Find(t.groups, id);
            && r.Some?
            && (old'.Some? ==> r.value.vtime == old'.value.vtime && r.value.weight == old'.value.weight)
            && (old'.None? ==> forall other :: Find(t.groups, other).Some? ==> Find(t.groups, other).value.vtime <= r.value.vtime)
  {
    hide Insert, Find, Replace, Sorted, Distinct;
    match Find(t.groups, id)
    case Some(g) =>
      var g' := g.(queues := g.queues + 1);
      ReplaceOrdered(t.groups, g');
      forall other
        ensures Find(Replace(t.groups, g'), other) == if other == id then Some(g') else Find(t.groups, other)
      {
        ReplaceFind(t.groups, g', other);
      }
    case None =>
      if t.groups != [] {
        LastIsGreatest(t.groups, 0);
        forall other | Find(t.groups, other).Some?
          ensures t.minTime <= Find(t.groups, other).value.vtime <= t.groups[|t.groups| - 1].vtime
        {
          LastIsGreatest(t.groups, other);
        }
        LastFound(t.groups);
      } else {
        NothingFound();
      }
      var vtime := if t.groups == [] then t.minTime else t.groups[|t.groups| - 1].vtime + delay;
      AddNodeOk(t, Group(id, weight, vtime, 1));
  }

  lemma LastIsGreatest(gs: seq<Group>, id: nat)
    requires Sorted(gs) && gs != []
    ensures Find(gs, id).Some? ==> Find(gs, id).value.vtime <= gs[|gs| - 1].vtime
  {
    FindMember(gs, id);
  }

  lemma LastFound(gs: seq<Group>)
    requires Distinct(gs) && gs != []
    ensures Find(gs, gs[|gs| - 1].id) == Some(gs[|gs| - 1])
  {
    FindUnique(gs, gs[|gs| - 1]);
  }

  lemma NothingFound()
    ensures forall id :: Find([], id) == None
  {
  }

  lemma DelOk(t: Tree, id: nat)
    requires TreeOk(t)
    ensures TreeOk(Del(t, id)) && Del(t, id).minTime == t.minTime
    ensures forall other :: other != id ==> Find(Del(t, id).groups, other) == Find(t.groups, other)
    ensures Find(Del(t, id).groups, id).Some? ==>
              Find(t.groups, id).Some? && Find(Del(t, id).groups, id).value.vtime == Find(t.groups, id).value.vtime
  {
    hide Erase, Find, Replace, Sorted, Distinct;
    var t' := t.(active := if t.active == Some(id) then None else t.active);
    match Find(t.groups, id)
    case None =>
    case Some(g) =>
      if g.queues <= 1 {
        EraseNodeOk(t', id);
      } else {
        var g' := g.(queues := g.queues - 1);
        ReplaceOrdered(t.groups, g');
        forall other
          ensures Find(Replace(t.groups, g'), other) == if other == id then Some(g') else Find(t.groups, other)
        {
          ReplaceFind(t.groups, g', other);
        }
      }
  }

  /** The pick is the group with the least virtual time, and the minimum advances to it. */
  lemma PickOk(t: Tree)
    requires TreeOk(t) && t.groups != []
    ensures TreeOk(Pick(t)) && Pick(t).groups == t.groups
    ensures Pick(t).active == Some(t.groups[0].id) && Find(t.groups, t.groups[0].id) == Some(t.groups[0])
    ensures forall id :: Find(t.groups, id).Some? ==> t.groups[0].vtime <= Find(t.groups, id).value.vtime
    ensures t.minTime <= Pick(t).minTime == t.groups[0].vtime
  {
    hide Find, Sorted, Distinct;
    FindUnique(t.groups, t.groups[0]);
    forall id | Find(t.groups, id).Some?
      ensures t.groups[0].vtime <= Find(t.groups, id).value.vtime
    {
      LeftIsLeast(t.groups, id);
    }
  }
}
