/**
 * An animation clip: its duration and tick rate, a copy of the node hierarchy,
 * one Bone per channel, and a snapshot of the bone table after the clip's
 * channels were registered in the skinned model's table.
 */
module Animations {
  import opened Geometry
  import opened Wrappers
  import opened SceneData
  import opened BoneTable
  import opened Bones
  import opened SkinnedModels

  /** AssimpNodeData, with the rest translation and rotation the animator reads. */
  datatype NodeData = NodeData(
    name: string,
    transformation: Mat4,
    position: Vec3,
    rotation: Quat,
    childrenCount: int,
    children: seq<NodeData>)

  /** dest is a faithful copy of src: same fields, same children in the same order, at every level. */
  predicate Mirrors(dest: NodeData, src: SceneNode)
    decreases src
  {
    && dest.name == src.name
    && dest.transformation == src.transformation
    && dest.position == src.restPosition
    && dest.rotation == src.restRotation
    && dest.childrenCount == |src.children|
    && |dest.children| == |src.children|
    && forall i :: 0 <= i < |src.children| ==> Mirrors(dest.children[i], src.children[i])
  }

  /** childrenCount agrees with the number of children at every node. */
  predicate CountsConsistent(n: NodeData)
  {
    n.childrenCount == |n.children| && forall c :: c in n.children ==> CountsConsistent(c)
  }

  lemma {:induction false} MirrorsConsistent(dest: NodeData, src: SceneNode)
    requires Mirrors(dest, src)
    ensures CountsConsistent(dest)
    decreases src
  {
    forall c | c in dest.children ensures CountsConsistent(c) {
      var i :| 0 <= i < |dest.children| && dest.children[i] == c;
      MirrorsConsistent(c, src.children[i]);
    }
  }

  /** There is only one copy of a given source tree. */
  lemma {:induction false} MirrorsUnique(a: NodeData, b: NodeData, src: SceneNode)
    requires Mirrors(a, src) && Mirrors(b, src)
    ensures a == b
    decreases src
  {
    forall i | 0 <= i < |src.children| ensures a.children[i] == b.children[i] {
      MirrorsUnique(a.children[i], b.children[i], src.children[i]);
    }
  }

  /** Conversion of a double to an int field: truncation toward zero. */
  function Trunc(x: real): (r: int)
    ensures 0.0 <= x ==> r as real <= x < r as real + 1.0
    ensures x < 0.0 ==> r as real - 1.0 < x <= r as real
  {
    if x >= 0.0 then x.Floor else -((-x).Floor)
  }

  /** The table request a clip makes for each channel: the channel's name, zero offset. */
  function ClipEntries(channels: seq<NodeAnim>): (es: seq<Entry>)
    ensures |es| == |channels|
    ensures forall i :: 0 <= i < |channels| ==> es[i] == Entry(channels[i].nodeName, Zero3, ZeroQuat)
  {
    if channels == [] then []
    else ClipEntries(channels[..|channels| - 1]) + [Entry(channels[|channels| - 1].nodeName, Zero3, ZeroQuat)]
  }

  /** The offset a value-initialised BoneInfo carries. */
  const ZeroQuat := QuatValue(0.0, 0.0, 0.0, 0.0)

  /** Index of the first bone with the given name. */
  function FirstBoneIndex(bones: seq<Bone>, name: string): (r: Option<nat>)
    ensures r.Some? ==> r.value < |bones| && bones[r.value].name == name
    ensures r.Some? ==> forall j :: 0 <= j < r.value ==> bones[j].name != name
    ensures r.None? <==> forall j :: 0 <= j < |bones| ==> bones[j].name != name
  {
    if bones == [] then None
    else if bones[0].name == name then Some(0)
    else match FirstBoneIndex(bones[1..], name)
      case None => None
      case Some(i) => Some(i + 1)
  }

  /** Bone k carries channel k's name and keys, and the ID the table gives that name. */
  predicate BonesMatch(bones: seq<Bone>, channels: seq<NodeAnim>, m: BoneMap)
  {
    && |bones| <= |channels|
    && forall k :: 0 <= k < |bones| ==>
         && channels[k].nodeName in m
         && bones[k].name == channels[k].nodeName
         && bones[k].FromChannel(channels[k], m[channels[k].nodeName].id)
  }

  /** The match survives a registration that keeps present names, and grows by a matching bone. */
  lemma BonesMatchGrows(bones: seq<Bone>, channels: seq<NodeAnim>, m: BoneMap, m2: BoneMap, b: Bone)
    requires BonesMatch(bones, channels, m) && |bones| < |channels|
    requires forall key :: key in m ==> key in m2 && m2[key] == m[key]
    requires channels[|bones|].nodeName in m2 && b.name == channels[|bones|].nodeName
    requires b.FromChannel(channels[|bones|], m2[channels[|bones|].nodeName].id)
    ensures BonesMatch(bones + [b], channels, m2)
  {
    forall k | 0 <= k < |bones| ensures (bones + [b])[k] == bones[k] && channels[k].nodeName in m {
    }
  }

  class Animation {
    const duration: real
    const ticksPerSecond: int
    const bones: seq<Bone>
    const rootNode: NodeData
    const boneInfoMap: BoneMap

    /**
     * Reads the clip and the hierarchy; registers the clip's channels in the
     * model's table (the model's counter itself is left as it was).
     */
    constructor (clip: AnimationData, root: SceneNode, model: SkinnedModel)
      modifies model
      ensures duration == clip.duration
      ensures ticksPerSecond == Trunc(clip.ticksPerSecond)
      ensures Mirrors(rootNode, root)
      ensures model.boneInfoMap
        == RegisterAll(Table(old(model.boneInfoMap), old(model.boneCounter)), ClipEntries(clip.channels)).bones
      ensures model.boneCounter == old(model.boneCounter)
      ensures boneInfoMap == model.boneInfoMap
      ensures |bones| == |clip.channels|
      ensures forall i :: 0 <= i < |bones| ==>
        && clip.channels[i].nodeName in boneInfoMap
        && bones[i].name == clip.channels[i].nodeName
        && bones[i].FromChannel(clip.channels[i], boneInfoMap[clip.channels[i].nodeName].id)
    {
      duration := clip.duration;
      ticksPerSecond := Trunc(clip.ticksPerSecond);
      var r := ReadHierarchyData(root);
      rootNode := r;
      var bs, snapshot := ReadMissingBones(clip, model);
      bones := bs;
      boneInfoMap := snapshot;
    }

    /**
     * Registers each channel's name in the model's table (absent names get the
     * next number from a local copy of the model's counter) and creates one Bone
     * per channel, in channel order, carrying its name's ID.
     */
    static method ReadMissingBones(clip: AnimationData, model: SkinnedModel)
      returns (bones: seq<Bone>, snapshot: BoneMap)
      modifies model
      ensures model.boneInfoMap
        == RegisterAll(Table(old(model.boneInfoMap), old(model.boneCounter)), ClipEntries(clip.channels)).bones
      ensures model.boneCounter == old(model.boneCounter)
      ensures snapshot == model.boneInfoMap
      ensures |bones| == |clip.channels|
      ensures forall i :: 0 <= i < |bones| ==>
        && clip.channels[i].nodeName in snapshot
        && bones[i].name == clip.channels[i].nodeName
        && bones[i].FromChannel(clip.channels[i], snapshot[clip.channels[i].nodeName].id)
    {
      var channels := clip.channels;
      var boneCount := model.boneCounter;
      ghost var es := ClipEntries(channels);
      ghost var start := Table(model.boneInfoMap, boneCount);
      bones := [];
      var i := 0;
      while i < |channels|
        invariant 0 <= i <= |channels| && |bones| == i
        invariant Table(model.boneInfoMap, boneCount) == RegisterAll(start, es[..i])
        invariant model.boneCounter == old(model.boneCounter)
        invariant BonesMatch(bones, channels, model.boneInfoMap)
      {
        var name := channels[i].nodeName;
        ghost var before := Table(model.boneInfoMap, boneCount);
        if name !in model.boneInfoMap {
          model.boneInfoMap := model.boneInfoMap[name := BoneInfo(boneCount, Zero3, ZeroQuat)];
          boneCount := boneCount + 1;
        }
        RegisterAllStep(start, es, i);
        assert es[i] == Entry(name, Zero3, ZeroQuat);
        var bone := new Bone(name, model.boneInfoMap[name].id, channels[i]);
        BonesMatchGrows(bones, channels, before.bones, model.boneInfoMap, bone);
        bones := bones + [bone];
        i := i + 1;
      }
      assert es[..i] == es;
      snapshot := model.boneInfoMap;
    }

    /** Copies the node tree: name, transform, rest pose, child count and children in order. */
    static method ReadHierarchyData(src: SceneNode) returns (dest: NodeData)
      ensures Mirrors(dest, src)
      decreases src
    {
      var children: seq<NodeData> := [];
      var i := 0;
      while i < |src.children|
        invariant 0 <= i <= |src.children| && |children| == i
        invariant forall k :: 0 <= k < i ==> Mirrors(children[k], src.children[k])
      {
        var child := ReadHierarchyData(src.children[i]);
        children := children + [child];
        i := i + 1;
      }
      dest := NodeData(src.name, src.transformation, src.restPosition, src.restRotation, |src.children|, children);
    }

    /** FindBone: the first bone with the name, or null. */
    function FindBone(name: string): (b: Bone?)
      ensures b == null <==> forall j :: 0 <= j < |bones| ==> bones[j].name != name
      ensures b != null ==> b.name == name && b in bones
      ensures b != null ==>
        exists i :: 0 <= i < |bones| && b == bones[i] && forall j :: 0 <= j < i ==> bones[j].name != name
    {
      match FirstBoneIndex(bones, name)
      case None => null
      case Some(i) => bones[i]
    }

    function GetTicksPerSecond(): real { ticksPerSecond as real }
    function GetDuration(): real { duration }
  }

  /**
   * The model's counter is only read, so two clips that each bring a name the
   * model lacks give their two different names the same ID.
   */
  lemma SharedCounterCollision(t: Table, a: NodeAnim, b: NodeAnim)
    requires a.nodeName != b.nodeName && a.nodeName !in t.bones && b.nodeName !in t.bones
    ensures var first := RegisterAll(t, ClipEntries([a])).bones;
      var second := RegisterAll(Table(first, t.counter), ClipEntries([b])).bones;
      a.nodeName in second && b.nodeName in second && second[a.nodeName].id == second[b.nodeName].id
  {
    assert [a][..0] == [] && [b][..0] == [];
  }
}
