/**
 * The scene graph: entities with a name, a unique ID, a transform and an
 * ordered list of children, and the propagation of model matrices from each
 * parent to its children.
 */
module Entities {
  import opened Geometry
  import opened Wrappers
  import opened Transforms

  /** IDs are `unsigned int`: the counter wraps around after 2^32 entities. */
  const IdRange: nat := 0x1_0000_0000

  /** The ID the counter hands out `k` constructions after it stood at `start`. */
  function IdAfter(start: nat, k: nat): (id: nat)
    requires start < IdRange
    ensures id < IdRange
    ensures id == start + k || id + IdRange <= start + k
  {
    (start + k) % IdRange
  }

  /** Fewer than 2^32 constructions in a row never hand out the same ID twice. */
  lemma IdsDistinct(start: nat, k1: nat, k2: nat)
    requires start < IdRange && k1 < k2 < IdRange
    ensures IdAfter(start, k1) != IdAfter(start, k2)
  {
    var a, b := start + k1, start + k2;
    assert b - a < IdRange;
    if a < IdRange {
      if b >= IdRange {
        assert IdAfter(start, k2) == b - IdRange;
      }
    } else {
      assert IdAfter(start, k1) == a - IdRange;
      assert b < 2 * IdRange;
      assert IdAfter(start, k2) == b - IdRange;
    }
  }

  /** The static m_IDCounter shared by every entity. */
  class IdCounter {
    var next: nat

    ghost predicate Valid()
      reads this
    {
      next < IdRange
    }

    constructor ()
      ensures Valid() && next == 0
    {
      next := 0;
    }

    /** Hands out the current value and moves the counter on (m_IDCounter++). */
    method Take() returns (id: nat)
      requires Valid()
      modifies this
      ensures Valid()
      ensures id == old(next) && next == IdAfter(old(next), 1)
    {
      id := next;
      next := (next + 1) % IdRange;
    }
  }

  /** A model composed under an optional parent model: the root uses its local model alone. */
  function Under(parentModel: Option<Mat4>, local: Mat4): Mat4
  {
    match parentModel
    case None => local
    case Some(p) => Mul(p, local)
  }

  class Entity {
    var children: seq<Entity>
    var parent: Entity?
    const name: string
    const id: nat
    const transform: Transform
    var isRefract: bool
    /** The entities of this subtree, this one included. */
    ghost var Nodes: set<Entity>

    /**
     * A tree: every child's subtree lies inside this one, does not contain this
     * entity and points back to it as parent; sibling subtrees are disjoint;
     * and no two entities of the subtree share a transform.
     */
    ghost predicate Valid()
      reads this, Nodes
      decreases Nodes
    {
      && this in Nodes
      && (forall c :: c in children ==>
            && c in Nodes && c.Nodes <= Nodes && this !in c.Nodes
            && c.parent == this && c.Valid())
      && (forall i, j :: 0 <= i < j < |children| ==> children[i].Nodes !! children[j].Nodes)
      && (forall e1, e2 :: e1 in Nodes && e2 in Nodes && e1.transform == e2.transform ==> e1 == e2)
    }

    /** The transforms of this subtree: the only objects the model update writes. */
    ghost function Transforms(): set<Transform>
      reads this
    {
      set e | e in Nodes :: e.transform
    }

    /** This entity or some entity below it carries the name. */
    ghost predicate Contains(target: string)
      requires Valid()
      reads this, Nodes
      decreases Nodes
    {
      name == target || exists c :: c in children && c.Contains(target)
    }

    /** The model a forced update gives this entity: under the parent's model, if any. */
    function ParentModel(): Option<Mat4>
      reads this, if parent == null then {} else {parent.transform}
    {
      if parent == null then None else Some(parent.transform.model)
    }

    /**
     * Every entity of the subtree holds the model it would get from its parent:
     * this one under `parentModel`, each child under this one's model.
     */
    ghost predicate Propagated(parentModel: Option<Mat4>)
      requires Valid()
      reads this, Nodes, Transforms()
      decreases Nodes
    {
      && transform.model == Under(parentModel, transform.GetLocalModel())
      && forall c :: c in children ==> c.Propagated(Some(transform.model))
    }

    /** A named entity with identity transform and no children; takes the next ID. */
    constructor (name: string, counter: IdCounter)
      requires counter.Valid()
      modifies counter
      ensures counter.Valid()
      ensures id == old(counter.next) && counter.next == IdAfter(old(counter.next), 1)
      ensures this.name == name && children == [] && parent == null && !isRefract
      ensures Valid() && Nodes == {this} && fresh(transform)
      ensures transform.Valid() && transform.position == Zero3 && transform.rotation == Zero3
      ensures transform.scale == Vec3(1.0, 1.0, 1.0)
    {
      var newId := counter.Take();
      this.name := name;
      id := newId;
      children := [];
      parent := null;
      isRefract := false;
      transform := new Transform(Zero3, Zero3, Vec3(1.0, 1.0, 1.0));
      Nodes := {this};
    }

    /** Appends a fresh child with the next ID and makes this entity its parent. */
    method AddChild(name: string, counter: IdCounter) returns (child: Entity)
      requires Valid() && counter.Valid()
      modifies this, counter
      ensures Valid() && counter.Valid()
      ensures fresh(child) && fresh(child.transform)
      ensures children == old(children) + [child] && Nodes == old(Nodes) + {child}
      ensures child.name == name && child.parent == this && child.children == []
      ensures child.id == old(counter.next) && counter.next == IdAfter(old(counter.next), 1)
      ensures parent == old(parent)
    {
      ghost var before, oldNodes := children, Nodes;
      child := new Entity(name, counter);
      assert forall e :: e in oldNodes ==> e != child && e.transform != child.transform;
      child.parent := this;
      children := children + [child];
      Nodes := Nodes + {child};
      AppendedChildValid(before, oldNodes, child);
    }

    /** Adding a one-entity subtree as the last child keeps the tree well formed. */
    lemma AppendedChildValid(before: seq<Entity>, oldNodes: set<Entity>, child: Entity)
      requires children == before + [child] && Nodes == oldNodes + {child} && this in oldNodes
      requires forall c :: c in before ==>
        && c in oldNodes && c.Nodes <= oldNodes && this !in c.Nodes && c.parent == this && c.Valid()
      requires forall i, j :: 0 <= i < j < |before| ==> before[i].Nodes !! before[j].Nodes
      requires forall e1, e2 :: e1 in oldNodes && e2 in oldNodes && e1.transform == e2.transform ==> e1 == e2
      requires child !in oldNodes && child.Nodes == {child} && child.parent == this && child.Valid()
      requires forall e :: e in oldNodes ==> e.transform != child.transform
      ensures Valid()
    {
      forall i, j | 0 <= i < j < |children|
        ensures children[i].Nodes !! children[j].Nodes
      {
        if j == |children| - 1 {
          assert children[i] in before;
        }
      }
    }

    /** Recomputes every model of the subtree when this entity's transform is dirty. */
    method UpdateSelfAndChildren()
      requires Valid()
      requires parent != null ==> parent.transform !in Transforms()
      modifies Transforms()`model
      ensures Valid()
      ensures old(transform.dirty) ==> Propagated(ParentModel())
      ensures !old(transform.dirty) ==> forall t :: t in Transforms() ==> t.model == old(t.model)
    {
      if !transform.dirty {
        return;
      }
      ForceUpdateSelfAndChildren();
    }

    /**
     * Sets this entity's model under its parent's (or to its local model at the
     * root), then recurses into each child in list order.
     */
    method ForceUpdateSelfAndChildren()
      requires Valid()
      requires parent != null ==> parent.transform !in Transforms()
      modifies Transforms()`model
      decreases Nodes, 1
      ensures Valid()
      ensures Propagated(ParentModel())
    {
      if parent != null {
        transform.CalculateModelUnder(parent.transform.GetModel());
      } else {
        transform.CalculateModel();
      }
      UpdateChildren();
    }

    /** The loop over the children of ForceUpdateSelfAndChildren, in list order. */
    method UpdateChildren()
      requires Valid()
      modifies (Transforms() - {transform})`model
      decreases Nodes, 0
      ensures Valid()
      ensures forall c :: c in children ==> c.Propagated(Some(transform.model))
    {
      ghost var m := transform.model;
      ghost var kids := children;
      var i := 0;
      while i < |children|
        invariant 0 <= i <= |children| && children == kids && transform.model == m
        invariant Valid()
        invariant forall j :: 0 <= j < i ==> kids[j].Propagated(Some(m))
      {
        var c := children[i];
        ChildTransformsInside(c);
        ChildrenTransformsApart(i);
        c.ForceUpdateSelfAndChildren();
        i := i + 1;
      }
    }

    lemma ChildTransformsInside(c: Entity)
      requires Valid() && c in children
      ensures c.Transforms() <= Transforms()
      ensures transform !in c.Transforms()
    {
    }

    lemma ChildrenTransformsApart(i: nat)
      requires Valid() && i < |children|
      ensures forall j :: 0 <= j < |children| && j != i ==> children[i].Transforms() !! children[j].Transforms()
    {
    }

    /**
     * This entity when its own name matches; otherwise the first child, in list
     * order, whose subtree contains the name (the child, not the matching
     * descendant); null when nothing in the subtree matches.
     */
    function FindByName(target: string): (r: Entity?)
      requires Valid()
      reads this, Nodes
      decreases Nodes, 1
      ensures r == this <==> name == target
      ensures r != null && r != this ==> r in children && r.Contains(target)
      ensures r != null && r != this ==>
        exists k :: 0 <= k < |children| && r == children[k] && forall j :: 0 <= j < k ==> !children[j].Contains(target)
      ensures r == null <==> !Contains(target)
    {
      if name == target then this else FindInChildren(target, 0)
    }

    /** The first of children[from..] whose subtree contains the name. */
    function FindInChildren(target: string, from: nat): (r: Entity?)
      requires Valid() && from <= |children|
      reads this, Nodes
      decreases Nodes, 0, |children| - from
      ensures r != null ==> r in children[from..] && r.Contains(target)
      ensures r != null ==>
        exists k :: from <= k < |children| && r == children[k] && forall j :: from <= j < k ==> !children[j].Contains(target)
      ensures r == null <==> forall c :: c in children[from..] ==> !c.Contains(target)
    {
      if from == |children| then null
      else if children[from].FindByName(target) != null then children[from]
      else FindInChildren(target, from + 1)
    }

    function GetID(): nat { id }

    /** operator==: entities are equal exactly when their IDs are. */
    function Equals(other: Entity): (r: bool)
      ensures r <==> id == other.id
    {
      other.GetID() == GetID()
    }
  }
}
