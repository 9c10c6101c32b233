/** The group service tree as the code updates it. */
module CfqOps {
  import opened Options
  import opened CfqGroups

  class GroupTree {
    var groups: seq<Group>
    var minTime: int
    var left: Option<nat>
    var active: Option<nat>

    constructor ()
      ensures View() == Tree([], 0, None, None)
    {
      groups, minTime, left, active := [], 0, None, None;
    }

    ghost function View(): Tree
      reads this
    {
      Tree(groups, minTime, left, active)
    }

    /** __cfq_group_service_tree_add: down the tree, to the right of every key that is not greater. */
    method AddToTree(g: Group)
      modifies this
      ensures View() == AddNode(old(View()), g)
    {
      hide AddNode;
      var at, leftmost := 0, true;
      while at < |groups| && !(g.vtime - minTime < groups[at].vtime - minTime)
        invariant at <= |groups|
        invariant leftmost <==> at == 0
        invariant Place(groups, g.vtime) == at + Place(groups[at..], g.vtime)
      {
        leftmost := false;
        at := at + 1;
      }
      AddNodeDef(View(), g);
      if leftmost {
        left := Some(g.id);
      }
      groups := groups[..at] + [g] + groups[at..];
    }

    method EraseFromTree(id: nat)
      modifies this
      ensures View() == EraseNode(old(View()), id)
    {
      if left == Some(id) {
        left := None;
      }
      groups := Erase(groups, id);
    }

    method AddGroup(id: nat, weight: nat, delay: nat)
      modifies this
      ensures View() == Add(old(View()), id, weight, delay)
    {
      hide AddNode, Replace, Find;
      match Find(groups, id)
      case Some(g) => groups := Replace(groups, g.(queues := g.queues + 1));
      case None =>
        var vtime := minTime;
        if groups != [] {
          vtime := groups[|groups| - 1].vtime + delay;
        }
        AddToTree(Group(id, weight, vtime, 1));
    }

    method DelGroup(id: nat)
      requires Find(groups, id).Some? && Find(groups, id).value.queues >= 1
      modifies this
      ensures View() == Del(old(View()), id)
    {
      hide EraseNode, Replace, Find;
      if active == Some(id) {
        active := None;
      }
      var g := Find(groups, id).value;
      if g.queues - 1 != 0 {
        groups := Replace(groups, g.(queues := g.queues - 1));
        return;
      }
      EraseFromTree(id);
    }

    /** cfq_get_next_cfqg: the group with the least virtual time, if there is one. */
    method NextGroup() returns (next: Option<nat>)
      requires TreeOk(View())
      modifies this
      ensures View() == Pick(old(View())) && TreeOk(View())
      ensures next.None? <==> groups == []
      ensures next.Some? ==>
                && Find(groups, next.value).Some?
                && forall id :: Find(groups, id).Some? ==> Find(groups, next.value).value.vtime <= Find(groups, id).value.vtime
    {
      hide TreeOk, Find, UpdateMin;
      if groups == [] {
        return None;
      }
      PickOk(View());
      if left == None {
        left := Some(groups[0].id);
      }
      active := left;
      UpdateMinTime();
      next := active;
    }

    method UpdateMinTime()
      modifies this
      ensures View() == UpdateMin(old(View()))
    {
      hide Find;
      var v := minTime;
      if active.Some? && Find(groups, active.value).Some? {
        v := Find(groups, active.value).value.vtime;
      }
      if left.Some? && Find(groups, left.value).Some? {
        var l := Find(groups, left.value).value.vtime;
        v := if l < v then l else v;
      }
      minTime := if v > minTime then v else minTime;
    }

    /** cfq_group_served: the group is taken off the tree, charged, and put back. */
    method GroupServed(id: nat, charge: nat)
      requires Find(groups, id).Some? && Find(groups, id).value.weight > 0
      modifies this
      ensures View() == Charge(old(View()), id, charge)
    {
      hide EraseNode, AddNode, Find, Scaled;
      var g := Find(groups, id).value;
      EraseFromTree(id);
      AddToTree(g.(vtime := g.vtime + Scaled(charge, g.weight)));
    }
  }

  lemma AddNodeDef(t: Tree, g: Group)
    ensures AddNode(t, g) == t.(groups := t.groups[..Place(t.groups, g.vtime)] + [g] + t.groups[Place(t.groups, g.vtime)..],
                                left := if Place(t.groups, g.vtime) == 0 then Some(g.id) else t.left)
  {
  }
}
