/**
 * Playback: advancing and wrapping the clip time, and the recursive pass that
 * composes parent and local transforms from the root down and writes one
 * matrix per bone into a fixed 512-slot output array.
 */
module Animators {
  import opened Geometry
  import opened Wrappers
  import opened BoneTable
  import opened Bones
  import opened Animations

  const MaxBones := 512

  lemma ScaleOrder(a: real, b: real, y: real)
    requires y > 0.0
    ensures a <= b ==> a * y <= b * y
    ensures a < b ==> a * y < b * y
  {
  }

  /**
   * C's fmod: x minus the quotient truncated toward zero times y. The result
   * differs from x by a whole multiple of y, keeps the sign of x, and is
   * smaller than y in magnitude; these three facts fix it.
   */
  function Fmod(x: real, y: real): (r: real)
    requires y != 0.0
    ensures ((x - r) / y).Floor as real == (x - r) / y
    ensures 0.0 < y && 0.0 <= x ==> 0.0 <= r < y
    ensures 0.0 < y && x < 0.0 ==> -y < r <= 0.0
    ensures y < 0.0 && 0.0 <= x ==> 0.0 <= r < -y
    ensures y < 0.0 && x < 0.0 ==> y < r <= 0.0
  {
    var t := Trunc(x / y);
    FmodFacts(x, y, t);
    x - t as real * y
  }

  /** The remainder's bounds, from where x / y lies between its truncation and the next integer. */
  lemma FmodFacts(x: real, y: real, t: int)
    requires y != 0.0 && t == Trunc(x / y)
    ensures var r := x - t as real * y;
      && ((x - r) / y).Floor as real == (x - r) / y
      && (0.0 < y && 0.0 <= x ==> 0.0 <= r < y)
      && (0.0 < y && x < 0.0 ==> -y < r <= 0.0)
      && (y < 0.0 && 0.0 <= x ==> 0.0 <= r < -y)
      && (y < 0.0 && x < 0.0 ==> y < r <= 0.0)
  {
    WholeMultiple(x, y, t as real);
    if 0.0 < y {
      if 0.0 <= x {
        ScaleOrder(x / y, 0.0, y);
        RemainderBelow(x, y, t as real);
      } else {
        ScaleOrder(0.0, x / y, y);
        RemainderAbove(x, y, t as real);
      }
    } else {
      NegativeDivisor(x, y, t);
    }
  }

  lemma WholeMultiple(x: real, y: real, t: real)
    requires y != 0.0
    ensures (x - (x - t * y)) / y == t
  {
    assert x - (x - t * y) == t * y;
  }

  /** A negative divisor: the same bounds, read through -x / -y, which is x / y. */
  lemma NegativeDivisor(x: real, y: real, t: int)
    requires y < 0.0 && t == Trunc(x / y)
    ensures 0.0 <= x ==> 0.0 <= x - t as real * y < -y
    ensures x < 0.0 ==> y < x - t as real * y <= 0.0
  {
    var x', y' := -x, -y;
    assert x' / y' == x / y;
    assert x - t as real * y == -(x' - t as real * y');
    if 0.0 < x {
      ScaleOrder(x' / y', 0.0, y');
      RemainderAbove(x', y', t as real);
    } else if x < 0.0 {
      ScaleOrder(0.0, x' / y', y');
      RemainderBelow(x', y', t as real);
    }
  }

  lemma RemainderBelow(x: real, y: real, t: real)
    requires y > 0.0 && t <= x / y < t + 1.0
    ensures 0.0 <= x - t * y < y
  {
    var q := x / y;
    var d := q - t;
    assert q * y == x;
    assert x - t * y == d * y;
    ScaleOrder(0.0, d, y);
    ScaleOrder(d, 1.0, y);
  }

  lemma RemainderAbove(x: real, y: real, t: real)
    requires y > 0.0 && t - 1.0 < x / y <= t
    ensures -y < x - t * y <= 0.0
  {
    var q := x / y;
    var d := t - q;
    assert q * y == x;
    assert 0.0 <= d < 1.0;
    assert x - t * y == (q - t) * y;
    assert (q - t) * y == -(d * y);
    ScaleOrder(0.0, d, y);
    ScaleOrder(d, 1.0, y);
    assert 0.0 <= d * y < y;
  }

  /**
   * The clip time after a step of dt seconds: advanced by ticks * dt at `tps`
   * ticks per second, then wrapped by the duration.
   */
  function NextTime(time: real, tps: real, dt: real, duration: real): (r: real)
    requires duration > 0.0
    ensures 0.0 <= time + tps * dt ==> 0.0 <= r < duration
    ensures -duration < r < duration
  {
    Fmod(time + tps * dt, duration)
  }

  /** The bones as a frame. */
  function BoneSet(anim: Animation?): set<Bone>
  {
    if anim == null then {} else set i | 0 <= i < |anim.bones| :: anim.bones[i]
  }

  /** The bone FindBone gives for the name, if any, can be sampled at `time`. */
  predicate NodePlayable(anim: Animation, time: real, name: string)
  {
    var b := anim.FindBone(name);
    b != null ==> b.CoversTime(time)
  }

  /**
   * The pass over the subtree at n can sample every bone it reaches: those
   * FindBone gives for the subtree's node names. Other bones of the clip, which
   * the pass never samples, are not constrained.
   */
  predicate PlayableIn(anim: Animation, time: real, n: NodeData)
  {
    forall name :: name in SubtreeNames(n) ==> NodePlayable(anim, time, name)
  }

  /** What PlayableIn at a node gives for the node itself and for each child's subtree. */
  lemma PlayableParts(anim: Animation, time: real, n: NodeData)
    requires PlayableIn(anim, time, n)
    ensures NodePlayable(anim, time, n.name)
    ensures forall i :: 0 <= i < |n.children| ==> PlayableIn(anim, time, n.children[i])
  {
    forall i | 0 <= i < |n.children|
      ensures SubtreeNames(n.children[i]) <= SubtreeNames(n)
    {
      PrefixWithin(n, i + 1);
    }
  }

  lemma {:induction false} PrefixWithin(n: NodeData, k: nat)
    requires k <= |n.children|
    ensures NamesPrefix(n, k) <= SubtreeNames(n)
    decreases |n.children| - k
  {
    if k < |n.children| {
      PrefixWithin(n, k + 1);
    }
  }

  /** Every ID in the table addresses a slot of an n-slot output. */
  predicate IdsBelow(m: BoneMap, n: int)
  {
    forall k :: k in m ==> 0 <= m[k].id < n
  }

  /** Every bone the pass over n reaches has tracks that reach `until`. */
  predicate ReadyIn(anim: Animation, until: real, n: NodeData)
  {
    forall name :: name in SubtreeNames(n) ==>
      var b := anim.FindBone(name); b != null ==> b.ReadyUntil(until)
  }

  /**
   * What UpdateAnimation needs of a clip: a positive duration, tracks that reach
   * it for every bone the hierarchy reaches (so the bracket search never falls
   * through), and IDs within the output.
   */
  predicate Ready(anim: Animation)
  {
    && anim.duration > 0.0
    && ReadyIn(anim, anim.duration, anim.rootNode)
    && IdsBelow(anim.boneInfoMap, MaxBones)
  }

  /** A ready clip can be sampled at any time below its duration. */
  lemma ReadyPlayable(anim: Animation, time: real)
    requires Ready(anim) && time < anim.duration
    ensures PlayableIn(anim, time, anim.rootNode)
  {
    forall name | name in SubtreeNames(anim.rootNode)
      ensures NodePlayable(anim, time, name)
    {
      var b := anim.FindBone(name);
      if b != null {
        b.ReadyCovers(anim.duration, time);
      }
    }
  }

  /** A node's local transform: its bone track's, if the clip has one, else the rest pose. */
  function NodeLocal(anim: Animation, time: real, n: NodeData): Mat4
    requires NodePlayable(anim, time, n.name)
  {
    var b := anim.FindBone(n.name);
    if b != null then b.LocalAt(time) else Mul(Translate(n.position), RotMat(n.rotation))
  }

  /** A node's global transform: its local transform under the parent's. */
  function NodeGlobal(anim: Animation, time: real, n: NodeData, parent: Mat4): Mat4
    requires PlayableIn(anim, time, n)
  {
    PlayableParts(anim, time, n);
    Mul(parent, NodeLocal(anim, time, n))
  }

  /** The bone-space offset stored in the table, as translate(position) * toMat4(rotation). */
  function Offset(info: BoneInfo): Mat4
  {
    Mul(Translate(info.position), RotMat(info.rotation))
  }

  /** A single write into the output array. */
  datatype Write = Write(slot: int, value: Mat4)

  /** The write a node with global transform g makes: one, at its ID, only if its name is in the table. */
  function NodeWrite(anim: Animation, g: Mat4, n: NodeData): seq<Write>
  {
    if n.name in anim.boneInfoMap then [Write(anim.boneInfoMap[n.name].id, Mul(g, Offset(anim.boneInfoMap[n.name])))]
    else []
  }

  /** The output after the pass over the subtree at n, entered with the parent's global transform. */
  function Pass(anim: Animation, time: real, n: NodeData, parent: Mat4, out: seq<Mat4>): (r: seq<Mat4>)
    requires PlayableIn(anim, time, n) && IdsBelow(anim.boneInfoMap, |out|)
    ensures |r| == |out|
    decreases n, |n.children| + 1
  {
    PassPrefix(anim, time, n, parent, out, |n.children|)
  }

  /** The pass over n itself and its first k children, in order. */
  function PassPrefix(anim: Animation, time: real, n: NodeData, parent: Mat4, out: seq<Mat4>, k: nat): (r: seq<Mat4>)
    requires PlayableIn(anim, time, n) && IdsBelow(anim.boneInfoMap, |out|)
    requires k <= |n.children|
    ensures |r| == |out|
    decreases n, k
  {
    PlayableParts(anim, time, n);
    var g := NodeGlobal(anim, time, n, parent);
    if k == 0 then Apply(out, NodeWrite(anim, g, n))
    else Pass(anim, time, n.children[k - 1], g, PassPrefix(anim, time, n, parent, out, k - 1))
  }

  /** Every write the pass makes, in the order it makes them: the node first, then each child's subtree. */
  function Writes(anim: Animation, time: real, n: NodeData, parent: Mat4): seq<Write>
    requires PlayableIn(anim, time, n)
    decreases n, |n.children| + 1
  {
    WritesPrefix(anim, time, n, parent, |n.children|)
  }

  function WritesPrefix(anim: Animation, time: real, n: NodeData, parent: Mat4, k: nat): seq<Write>
    requires PlayableIn(anim, time, n)
    requires k <= |n.children|
    decreases n, k
  {
    PlayableParts(anim, time, n);
    var g := NodeGlobal(anim, time, n, parent);
    if k == 0 then NodeWrite(anim, g, n)
    else WritesPrefix(anim, time, n, parent, k - 1) + Writes(anim, time, n.children[k - 1], g)
  }

  predicate SlotsBelow(ws: seq<Write>, size: int)
  {
    forall i :: 0 <= i < |ws| ==> 0 <= ws[i].slot < size
  }

  /** Performing the writes in order. */
  function Apply(out: seq<Mat4>, ws: seq<Write>): (r: seq<Mat4>)
    requires SlotsBelow(ws, |out|)
    ensures |r| == |out|
  {
    if ws == [] then out
    else Apply(out, ws[..|ws| - 1])[ws[|ws| - 1].slot := ws[|ws| - 1].value]
  }

  lemma {:induction false} ApplyAppend(out: seq<Mat4>, a: seq<Write>, b: seq<Write>)
    requires SlotsBelow(a, |out|) && SlotsBelow(b, |out|)
    ensures SlotsBelow(a + b, |out|)
    ensures Apply(out, a + b) == Apply(Apply(out, a), b)
    decreases |b|
  {
    if b != [] {
      assert (a + b)[..|a + b| - 1] == a + b[..|b| - 1];
      ApplyAppend(out, a, b[..|b| - 1]);
    } else {
      assert a + b == a;
    }
  }

  /** A slot no write addresses keeps its value. */
  lemma {:induction false} ApplyUntouched(out: seq<Mat4>, ws: seq<Write>, k: int)
    requires SlotsBelow(ws, |out|) && 0 <= k < |out|
    requires forall i :: 0 <= i < |ws| ==> ws[i].slot != k
    ensures Apply(out, ws)[k] == out[k]
    decreases |ws|
  {
    if ws != [] {
      ApplyUntouched(out, ws[..|ws| - 1], k);
    }
  }

  /** A slot ends with the value of the last write that addresses it. */
  lemma {:induction false} ApplyLastWrite(out: seq<Mat4>, ws: seq<Write>, j: nat)
    requires SlotsBelow(ws, |out|) && j < |ws|
    requires forall i :: j < i < |ws| ==> ws[i].slot != ws[j].slot
    ensures Apply(out, ws)[ws[j].slot] == ws[j].value
    decreases |ws|
  {
    if j < |ws| - 1 {
      ApplyLastWrite(out, ws[..|ws| - 1], j);
    }
  }

  /** Every write goes to the ID of some name in the table. */
  lemma {:induction false} WritesSlots(anim: Animation, time: real, n: NodeData, parent: Mat4)
    requires PlayableIn(anim, time, n)
    ensures forall i :: 0 <= i < |Writes(anim, time, n, parent)| ==>
      Writes(anim, time, n, parent)[i].slot in IdSet(anim.boneInfoMap)
    decreases n, |n.children| + 1
  {
    WritesPrefixSlots(anim, time, n, parent, |n.children|);
  }

  lemma {:induction false} WritesPrefixSlots(anim: Animation, time: real, n: NodeData, parent: Mat4, k: nat)
    requires PlayableIn(anim, time, n) && k <= |n.children|
    ensures forall i :: 0 <= i < |WritesPrefix(anim, time, n, parent, k)| ==>
      WritesPrefix(anim, time, n, parent, k)[i].slot in IdSet(anim.boneInfoMap)
    decreases n, k
  {
    if k > 0 {
      PlayableParts(anim, time, n);
      var g := NodeGlobal(anim, time, n, parent);
      WritesPrefixSlots(anim, time, n, parent, k - 1);
      WritesSlots(anim, time, n.children[k - 1], g);
    }
  }

  /** The recursive pass is the same as performing its pre-order list of writes. */
  lemma {:induction false} PassIsWrites(anim: Animation, time: real, n: NodeData, parent: Mat4, out: seq<Mat4>)
    requires PlayableIn(anim, time, n) && IdsBelow(anim.boneInfoMap, |out|)
    ensures SlotsBelow(Writes(anim, time, n, parent), |out|)
    ensures Pass(anim, time, n, parent, out) == Apply(out, Writes(anim, time, n, parent))
    decreases n, |n.children| + 1
  {
    PassPrefixIsWrites(anim, time, n, parent, out, |n.children|);
  }

  lemma {:induction false} PassPrefixIsWrites(anim: Animation, time: real, n: NodeData, parent: Mat4, out: seq<Mat4>, k: nat)
    requires PlayableIn(anim, time, n) && IdsBelow(anim.boneInfoMap, |out|) && k <= |n.children|
    ensures SlotsBelow(WritesPrefix(anim, time, n, parent, k), |out|)
    ensures PassPrefix(anim, time, n, parent, out, k) == Apply(out, WritesPrefix(anim, time, n, parent, k))
    decreases n, k
  {
    PlayableParts(anim, time, n);
    var g := NodeGlobal(anim, time, n, parent);
    if k > 0 {
      PassPrefixIsWrites(anim, time, n, parent, out, k - 1);
      var mid := PassPrefix(anim, time, n, parent, out, k - 1);
      PassIsWrites(anim, time, n.children[k - 1], g, mid);
      ApplyAppend(out, WritesPrefix(anim, time, n, parent, k - 1), Writes(anim, time, n.children[k - 1], g));
    }
  }

  /** A slot whose number is no bone's ID keeps its previous matrix through the whole pass. */
  lemma PassKeepsUnusedSlots(anim: Animation, time: real, n: NodeData, parent: Mat4, out: seq<Mat4>, k: int)
    requires PlayableIn(anim, time, n) && IdsBelow(anim.boneInfoMap, |out|)
    requires 0 <= k < |out| && k !in IdSet(anim.boneInfoMap)
    ensures Pass(anim, time, n, parent, out)[k] == out[k]
  {
    PassIsWrites(anim, time, n, parent, out);
    WritesSlots(anim, time, n, parent);
    ApplyUntouched(out, Writes(anim, time, n, parent), k);
  }

  /** A node whose name is in the table makes the first write of its own subtree's pass. */
  lemma NodeWritesFirst(anim: Animation, time: real, n: NodeData, parent: Mat4)
    requires PlayableIn(anim, time, n)
    requires n.name in anim.boneInfoMap
    ensures var ws := Writes(anim, time, n, parent);
      |ws| > 0 && ws[0] == Write(anim.boneInfoMap[n.name].id,
                                 Mul(NodeGlobal(anim, time, n, parent), Offset(anim.boneInfoMap[n.name])))
  {
    WritesPrefixStartsWithNode(anim, time, n, parent, |n.children|);
  }

  lemma {:induction false} WritesPrefixStartsWithNode(anim: Animation, time: real, n: NodeData, parent: Mat4, k: nat)
    requires PlayableIn(anim, time, n) && k <= |n.children|
    ensures var g := NodeGlobal(anim, time, n, parent);
      var ws := WritesPrefix(anim, time, n, parent, k);
      |NodeWrite(anim, g, n)| <= |ws| && ws[..|NodeWrite(anim, g, n)|] == NodeWrite(anim, g, n)
    decreases k
  {
    if k > 0 {
      PlayableParts(anim, time, n);
      var g := NodeGlobal(anim, time, n, parent);
      var a := WritesPrefix(anim, time, n, parent, k - 1);
      var b := Writes(anim, time, n.children[k - 1], g);
      WritesPrefixStartsWithNode(anim, time, n, parent, k - 1);
      assert (a + b)[..|NodeWrite(anim, g, n)|] == a[..|NodeWrite(anim, g, n)|];
    }
  }

  /** The names of a subtree's nodes. */
  function SubtreeNames(n: NodeData): (names: set<string>)
    ensures n.name in names
    decreases n, |n.children| + 1
  {
    NamesPrefix(n, |n.children|)
  }

  function NamesPrefix(n: NodeData, k: nat): (names: set<string>)
    requires k <= |n.children|
    ensures n.name in names
    decreases n, k
  {
    if k == 0 then {n.name} else NamesPrefix(n, k - 1) + SubtreeNames(n.children[k - 1])
  }

  /** The pass over n updates bone b: b is what FindBone gives for some node name of the subtree. */
  predicate Updates(anim: Animation, names: set<string>, b: Bone)
  {
    b.name in names && anim.FindBone(b.name) == b
  }

  class Animator {
    const finalBoneMatrices: array<Mat4>
    var currentAnimation: Animation?
    var currentTime: real
    var deltaTime: real

    predicate Valid()
    {
      finalBoneMatrices.Length == MaxBones
    }

    /** Time 0, the given clip, and 512 identity matrices. */
    constructor (animation: Animation?)
      ensures Valid() && fresh(finalBoneMatrices)
      ensures currentTime == 0.0 && currentAnimation == animation
      ensures forall i :: 0 <= i < MaxBones ==> finalBoneMatrices[i] == Identity
    {
      currentTime := 0.0;
      currentAnimation := animation;
      var matrices := new Mat4[MaxBones];
      for i := 0 to MaxBones
        invariant forall k :: 0 <= k < i ==> matrices[k] == Identity
      {
        matrices[i] := Identity;
      }
      finalBoneMatrices := matrices;
    }

    /**
     * Advances the clock by ticks-per-second * dt, wraps it by the duration and
     * recomputes the bone matrices; with no clip, only dt is recorded.
     */
    method UpdateAnimation(dt: real)
      requires Valid()
      requires currentAnimation != null ==> Ready(currentAnimation)
      modifies this, finalBoneMatrices, BoneSet(currentAnimation)
      ensures Valid() && deltaTime == dt && currentAnimation == old(currentAnimation)
      ensures currentAnimation == null ==>
        currentTime == old(currentTime) && finalBoneMatrices[..] == old(finalBoneMatrices[..])
      ensures currentAnimation != null ==>
        && currentTime == NextTime(old(currentTime), currentAnimation.GetTicksPerSecond(), dt, currentAnimation.duration)
        && PlayableIn(currentAnimation, currentTime, currentAnimation.rootNode)
        && finalBoneMatrices[..]
          == Pass(currentAnimation, currentTime, currentAnimation.rootNode, Identity, old(finalBoneMatrices[..]))
        && forall b :: b in currentAnimation.bones ==>
          b.localTransform == if Updates(currentAnimation, SubtreeNames(currentAnimation.rootNode), b)
                              then b.LocalAt(currentTime) else old(b.localTransform)
    {
      deltaTime := dt;
      if currentAnimation != null {
        var anim := currentAnimation;
        var advanced := currentTime + anim.GetTicksPerSecond() * dt;
        var wrapped := Fmod(advanced, anim.duration);
        assert wrapped == NextTime(currentTime, anim.GetTicksPerSecond(), dt, anim.duration);
        currentTime := wrapped;
        ReadyPlayable(anim, currentTime);
        CalculateBoneTransform(anim.rootNode, Identity);
      }
    }

    /** Switches the clip and restarts its clock; the output matrices are left as they are. */
    method PlayAnimation(animation: Animation?)
      modifies this
      ensures currentAnimation == animation && currentTime == 0.0 && deltaTime == old(deltaTime)
      ensures finalBoneMatrices[..] == old(finalBoneMatrices[..])
    {
      currentAnimation := animation;
      currentTime := 0.0;
    }

    /**
     * Composes parent * local at this node, writes global * offset into the
     * node's slot when its name is in the table, then recurses into the children
     * in order with this node's global transform.
     */
    method CalculateBoneTransform(node: NodeData, parent: Mat4)
      requires Valid() && currentAnimation != null
      requires PlayableIn(currentAnimation, currentTime, node) && IdsBelow(currentAnimation.boneInfoMap, MaxBones)
      modifies finalBoneMatrices, BoneSet(currentAnimation)
      ensures finalBoneMatrices[..] == Pass(currentAnimation, currentTime, node, parent, old(finalBoneMatrices[..]))
      ensures forall b :: b in currentAnimation.bones ==>
        b.localTransform == if Updates(currentAnimation, SubtreeNames(node), b)
                            then b.LocalAt(currentTime) else old(b.localTransform)
      decreases node
    {
      var anim := currentAnimation;
      var time := currentTime;
      PlayableParts(anim, time, node);
      forall k | 0 <= k <= |node.children|
        ensures NamesPrefix(node, k) <= SubtreeNames(node)
      {
        PrefixWithin(node, k);
      }
      var global := VisitNode(node, parent);
      var i := 0;
      while i < |node.children|
        invariant 0 <= i <= |node.children|
        invariant finalBoneMatrices[..] == PassPrefix(anim, time, node, parent, old(finalBoneMatrices[..]), i)
        invariant forall b :: b in anim.bones ==>
          b.localTransform == if Updates(anim, NamesPrefix(node, i), b) then b.LocalAt(time) else old(b.localTransform)
      {
        CalculateBoneTransform(node.children[i], global);
        assert NamesPrefix(node, i + 1) == NamesPrefix(node, i) + SubtreeNames(node.children[i]);
        i := i + 1;
      }
    }

    /**
     * The node's own share of the pass: it updates the node's bone, if the clip
     * has one, and writes global * offset into the node's slot when the name is
     * in the table; the node's global transform is returned for its children.
     */
    method VisitNode(node: NodeData, parent: Mat4) returns (global: Mat4)
      requires Valid() && currentAnimation != null
      requires PlayableIn(currentAnimation, currentTime, node) && IdsBelow(currentAnimation.boneInfoMap, MaxBones)
      requires NodePlayable(currentAnimation, currentTime, node.name) // the node's own share of the line above
      modifies finalBoneMatrices, BoneSet(currentAnimation)
      ensures global == NodeGlobal(currentAnimation, currentTime, node, parent)
      ensures finalBoneMatrices[..]
        == PassPrefix(currentAnimation, currentTime, node, parent, old(finalBoneMatrices[..]), 0)
      ensures forall b :: b in currentAnimation.bones ==>
        b.localTransform == if Updates(currentAnimation, {node.name}, b)
                            then b.LocalAt(currentTime) else old(b.localTransform)
    {
      var anim := currentAnimation;
      var time := currentTime;
      PlayableParts(anim, time, node);
      var nodeTransform := Mul(Translate(node.position), RotMat(node.rotation));
      var bone := anim.FindBone(node.name);
      if bone != null {
        assert bone in BoneSet(anim);
        bone.Update(time);
        nodeTransform := bone.GetLocalTransform();
      }
      global := Mul(parent, nodeTransform);
      assert global == NodeGlobal(anim, time, node, parent);
      ghost var before := finalBoneMatrices[..];
      assert before == old(finalBoneMatrices[..]);
      if node.name in anim.boneInfoMap {
        var info := anim.boneInfoMap[node.name];
        finalBoneMatrices[info.id] := Mul(global, Mul(Translate(info.position), RotMat(info.rotation)));
        assert finalBoneMatrices[..] == before[info.id := Mul(global, Offset(info))];
        assert NodeWrite(anim, global, node) == [Write(info.id, Mul(global, Offset(info)))];
        assert Apply(before, [Write(info.id, Mul(global, Offset(info)))]) == before[info.id := Mul(global, Offset(info))];
      }
    }

    /** A copy of all 512 output matrices. */
    method GetFinalBoneMatrices() returns (r: seq<Mat4>)
      requires Valid()
      ensures |r| == MaxBones && forall i :: 0 <= i < MaxBones ==> r[i] == finalBoneMatrices[i]
    {
      r := finalBoneMatrices[..];
    }
  }
}
