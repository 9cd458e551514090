/**
 * The bone slots of a skinned vertex: MaxBoneInfluence (bone ID, weight)
 * pairs. A slot is free while its ID is negative; a new influence goes to the
 * first free slot, and is dropped when there is none.
 */
module SkinnedVertices {
  import opened Geometry
  import opened Wrappers
  import opened SceneData
  import opened BoneTable
  import opened MeshLoading

  /** MAX_BONE_INFLUENCE. */
  const MaxBoneInfluence: nat := 4

  datatype SkinnedVertex = SkinnedVertex(
    position: Vec3,
    normal: Option<Vec3>,
    texCoords: Vec2,
    boneIds: seq<int>,
    weights: seq<real>)

  /** One bone's pull on a vertex. */
  datatype Influence = Influence(boneId: int, weight: real)

  /** The two slot arrays have their fixed size. */
  predicate HasSlots(v: SkinnedVertex)
  {
    |v.boneIds| == MaxBoneInfluence && |v.weights| == MaxBoneInfluence
  }

  /** Every slot free: ID -1 and weight 0. */
  predicate Cleared(v: SkinnedVertex)
  {
    && HasSlots(v)
    && forall i :: 0 <= i < MaxBoneInfluence ==> v.boneIds[i] == -1 && v.weights[i] == 0.0
  }

  /** Position, normal and texture coordinates agree; the bone slots may differ. */
  predicate SameAttributes(a: SkinnedVertex, b: SkinnedVertex)
  {
    a.position == b.position && a.normal == b.normal && a.texCoords == b.texCoords
  }

  /** Frees every slot and leaves the rest of the vertex alone. */
  method SetVertexBoneDataToDefault(v: SkinnedVertex) returns (r: SkinnedVertex)
    requires HasSlots(v)
    ensures Cleared(r) && SameAttributes(r, v)
  {
    r := v;
    for i := 0 to MaxBoneInfluence
      invariant HasSlots(r) && SameAttributes(r, v)
      invariant forall k :: 0 <= k < i ==> r.boneIds[k] == -1 && r.weights[k] == 0.0
    {
      r := r.(boneIds := r.boneIds[i := -1], weights := r.weights[i := 0.0]);
    }
  }

  /** The first slot whose ID is negative, if any. */
  function FirstFree(ids: seq<int>): (r: Option<nat>)
    ensures r.Some? ==> r.value < |ids| && ids[r.value] < 0
    ensures r.Some? ==> forall j :: 0 <= j < r.value ==> ids[j] >= 0
    ensures r.None? <==> forall j :: 0 <= j < |ids| ==> ids[j] >= 0
  {
    if ids == [] then None
    else if ids[0] < 0 then Some(0)
    else match FirstFree(ids[1..])
      case None => None
      case Some(k) => Some(k + 1)
  }

  /**
   * The vertex after one more influence: the first free slot takes it; with
   * every slot taken the vertex is unchanged.
   */
  function WithInfluence(v: SkinnedVertex, x: Influence): (r: SkinnedVertex)
    requires HasSlots(v)
    ensures HasSlots(r) && SameAttributes(r, v)
    ensures (forall j :: 0 <= j < MaxBoneInfluence ==> v.boneIds[j] >= 0) ==> r == v
  {
    match FirstFree(v.boneIds)
    case None => v
    case Some(k) => v.(boneIds := v.boneIds[k := x.boneId], weights := v.weights[k := x.weight])
  }

  /** When slot k is the first free one, the influence lands there and nowhere else. */
  lemma FirstFreeTaken(v: SkinnedVertex, x: Influence, k: nat)
    requires HasSlots(v) && k < MaxBoneInfluence && v.boneIds[k] < 0
    requires forall j :: 0 <= j < k ==> v.boneIds[j] >= 0
    ensures WithInfluence(v, x) == v.(boneIds := v.boneIds[k := x.boneId], weights := v.weights[k := x.weight])
  {
    var f := FirstFree(v.boneIds);
    assert f.Some? && f.value == k;
  }

  /** Scans the slots and fills the first free one. */
  method SetVertexBoneData(v: SkinnedVertex, boneId: int, weight: real) returns (r: SkinnedVertex)
    requires HasSlots(v)
    ensures r == WithInfluence(v, Influence(boneId, weight))
  {
    r := v;
    var i := 0;
    while i < MaxBoneInfluence
      invariant 0 <= i <= MaxBoneInfluence && r == v
      invariant forall j :: 0 <= j < i ==> v.boneIds[j] >= 0
    {
      if r.boneIds[i] < 0 {
        r := r.(weights := r.weights[i := weight], boneIds := r.boneIds[i := boneId]);
        break;
      }
      i := i + 1;
    }
  }

  /** A vertex after a sequence of influences, applied in order. */
  function Influences(v: SkinnedVertex, xs: seq<Influence>): (r: SkinnedVertex)
    requires HasSlots(v)
    ensures HasSlots(r) && SameAttributes(r, v)
    decreases |xs|
  {
    if xs == [] then v else WithInfluence(Influences(v, xs[..|xs| - 1]), xs[|xs| - 1])
  }

  lemma {:induction false} InfluencesAppend(v: SkinnedVertex, a: seq<Influence>, b: seq<Influence>)
    requires HasSlots(v)
    ensures Influences(v, a + b) == Influences(Influences(v, a), b)
    decreases |b|
  {
    if b == [] {
      assert a + b == a;
    } else {
      assert (a + b)[..|a + b| - 1] == a + b[..|b| - 1];
      InfluencesAppend(v, a, b[..|b| - 1]);
    }
  }

  predicate NonNegativeIds(xs: seq<Influence>)
  {
    forall i :: 0 <= i < |xs| ==> xs[i].boneId >= 0
  }

  /**
   * From a cleared vertex, up to MaxBoneInfluence influences with real bone IDs
   * fill slots 0, 1, ... in order, and the remaining slots stay free.
   */
  lemma {:induction false} FillsInOrder(v: SkinnedVertex, xs: seq<Influence>)
    requires Cleared(v) && |xs| <= MaxBoneInfluence && NonNegativeIds(xs)
    ensures var r := Influences(v, xs);
      && SameAttributes(r, v)
      && (forall i :: 0 <= i < |xs| ==> r.boneIds[i] == xs[i].boneId && r.weights[i] == xs[i].weight)
      && (forall i :: |xs| <= i < MaxBoneInfluence ==> r.boneIds[i] == -1 && r.weights[i] == 0.0)
    decreases |xs|
  {
    if xs != [] {
      var n := |xs| - 1;
      FillsInOrder(v, xs[..n]);
      var p := Influences(v, xs[..n]);
      FirstFreeTaken(p, xs[n], n);
    }
  }

  /** A vertex whose slots are all taken ignores further influences. */
  lemma {:induction false} FullStays(v: SkinnedVertex, xs: seq<Influence>)
    requires HasSlots(v) && forall j :: 0 <= j < MaxBoneInfluence ==> v.boneIds[j] >= 0
    ensures Influences(v, xs) == v
    decreases |xs|
  {
    if xs != [] {
      FullStays(v, xs[..|xs| - 1]);
    }
  }

  /** Once MaxBoneInfluence influences are placed, every further one is dropped. */
  lemma ExtraInfluencesDropped(v: SkinnedVertex, xs: seq<Influence>)
    requires Cleared(v) && MaxBoneInfluence <= |xs| && NonNegativeIds(xs)
    ensures Influences(v, xs) == Influences(v, xs[..MaxBoneInfluence])
  {
    var first := xs[..MaxBoneInfluence];
    assert xs == first + xs[MaxBoneInfluence..];
    InfluencesAppend(v, first, xs[MaxBoneInfluence..]);
    FillsInOrder(v, first);
    FullStays(Influences(v, first), xs[MaxBoneInfluence..]);
  }

  /** Every weight names a vertex below n. */
  predicate WeightsBelow(ws: seq<VertexWeight>, n: nat)
  {
    forall j :: 0 <= j < |ws| ==> ws[j].vertexId < n
  }

  predicate BonesBelow(bones: seq<MeshBone>, n: nat)
  {
    forall b :: 0 <= b < |bones| ==> WeightsBelow(bones[b].weights, n)
  }

  predicate AllSlotted(vs: seq<SkinnedVertex>)
  {
    forall i :: 0 <= i < |vs| ==> HasSlots(vs[i])
  }

  /** The weight loop for one bone: each weight goes, under the bone's ID, to the vertex it names. */
  function ApplyWeights(vs: seq<SkinnedVertex>, id: int, ws: seq<VertexWeight>): (r: seq<SkinnedVertex>)
    requires AllSlotted(vs) && WeightsBelow(ws, |vs|)
    ensures |r| == |vs| && AllSlotted(r)
    decreases |ws|
  {
    if ws == [] then vs
    else
      var p := ApplyWeights(vs, id, ws[..|ws| - 1]);
      var w := ws[|ws| - 1];
      p[w.vertexId := WithInfluence(p[w.vertexId], Influence(id, w.weight))]
  }

  /** The influences a bone's weight list gives vertex k, in list order. */
  function Hits(k: nat, id: int, ws: seq<VertexWeight>): seq<Influence>
    decreases |ws|
  {
    if ws == [] then []
    else
      var w := ws[|ws| - 1];
      Hits(k, id, ws[..|ws| - 1]) + if w.vertexId == k then [Influence(id, w.weight)] else []
  }

  /** Vertex k ends up with exactly the influences addressed to it, in order. */
  lemma {:induction false} ApplyWeightsAt(vs: seq<SkinnedVertex>, id: int, ws: seq<VertexWeight>, k: nat)
    requires AllSlotted(vs) && WeightsBelow(ws, |vs|) && k < |vs|
    ensures ApplyWeights(vs, id, ws)[k] == Influences(vs[k], Hits(k, id, ws))
    decreases |ws|
  {
    if ws != [] {
      var n := |ws| - 1;
      ApplyWeightsAt(vs, id, ws[..n], k);
      var h := Hits(k, id, ws[..n]);
      if ws[n].vertexId == k {
        var x := Influence(id, ws[n].weight);
        assert (h + [x])[..|h + [x]| - 1] == h;
      } else {
        assert h + [] == h;
      }
    }
  }

  /** The registration request for a mesh bone: its name and decomposed offset. */
  function BoneEntry(b: MeshBone): Entry
  {
    Entry(b.name, b.offsetPosition, b.offsetRotation)
  }

  function BoneEntries(bones: seq<MeshBone>): (r: seq<Entry>)
    ensures |r| == |bones|
    decreases |bones|
  {
    if bones == [] then [] else BoneEntries(bones[..|bones| - 1]) + [BoneEntry(bones[|bones| - 1])]
  }

  /** The ID a bone has once registered in t: its existing ID, or the counter when it is new. */
  function BoneId(t: Table, b: MeshBone): (id: int)
    ensures b.name in t.bones ==> id == t.bones[b.name].id
    ensures b.name !in t.bones ==> id == t.counter
  {
    Register(t, BoneEntry(b)).bones[b.name].id
  }

  /** The table before bone n of the list is registered. */
  function TableBefore(t: Table, bones: seq<MeshBone>, n: nat): Table
    requires n <= |bones|
  {
    RegisterAll(t, BoneEntries(bones[..n]))
  }

  /**
   * ExtractBoneWeightForVertices on values: bone by bone, register the bone in
   * the table, then hand its weights to the vertices under its ID.
   */
  function Skin(vs: seq<SkinnedVertex>, t: Table, bones: seq<MeshBone>): (r: seq<SkinnedVertex>)
    requires AllSlotted(vs) && BonesBelow(bones, |vs|)
    ensures |r| == |vs| && AllSlotted(r)
    decreases |bones|
  {
    if bones == [] then vs
    else
      var n := |bones| - 1;
      ApplyWeights(Skin(vs, t, bones[..n]), BoneId(TableBefore(t, bones, n), bones[n]), bones[n].weights)
  }

  /** One more bone: register it, then apply its weights under the ID it got. */
  lemma SkinStep(vs: seq<SkinnedVertex>, t: Table, bones: seq<MeshBone>, b: nat)
    requires AllSlotted(vs) && BonesBelow(bones, |vs|) && b < |bones|
    ensures BonesBelow(bones[..b], |vs|) && BonesBelow(bones[..b + 1], |vs|)
    ensures Skin(vs, t, bones[..b + 1])
      == ApplyWeights(Skin(vs, t, bones[..b]), BoneId(TableBefore(t, bones, b), bones[b]), bones[b].weights)
    ensures TableBefore(t, bones, b + 1) == Register(TableBefore(t, bones, b), BoneEntry(bones[b]))
  {
    assert bones[..b + 1][..b] == bones[..b];
    var es := BoneEntries(bones[..b + 1]);
    assert es[..|es| - 1] == BoneEntries(bones[..b]);
  }

  /** The influences vertex k receives from a bone list, bone by bone and weight by weight. */
  function VertexInfluences(k: nat, t: Table, bones: seq<MeshBone>): seq<Influence>
    decreases |bones|
  {
    if bones == [] then []
    else
      var n := |bones| - 1;
      VertexInfluences(k, t, bones[..n]) + Hits(k, BoneId(TableBefore(t, bones, n), bones[n]), bones[n].weights)
  }

  /** Skinning vertex k applies VertexInfluences to it, in order. */
  lemma {:induction false} SkinAt(vs: seq<SkinnedVertex>, t: Table, bones: seq<MeshBone>, k: nat)
    requires AllSlotted(vs) && BonesBelow(bones, |vs|) && k < |vs|
    ensures Skin(vs, t, bones)[k] == Influences(vs[k], VertexInfluences(k, t, bones))
    decreases |bones|
  {
    if bones != [] {
      var n := |bones| - 1;
      assert BonesBelow(bones[..n], |vs|);
      SkinAt(vs, t, bones[..n], k);
      var id := BoneId(TableBefore(t, bones, n), bones[n]);
      ApplyWeightsAt(Skin(vs, t, bones[..n]), id, bones[n].weights, k);
      InfluencesAppend(vs[k], VertexInfluences(k, t, bones[..n]), Hits(k, id, bones[n].weights));
    }
  }

  /** Bone IDs of a table: the counter and every stored ID are non-negative. */
  predicate IdsNonNegative(t: Table)
  {
    0 <= t.counter && forall name :: name in t.bones ==> t.bones[name].id >= 0
  }

  lemma {:induction false} RegisterAllNonNegative(t: Table, es: seq<Entry>)
    requires IdsNonNegative(t)
    ensures IdsNonNegative(RegisterAll(t, es))
    decreases |es|
  {
    if es != [] {
      RegisterAllNonNegative(t, es[..|es| - 1]);
    }
  }

  lemma {:induction false} HitsNonNegative(k: nat, id: int, ws: seq<VertexWeight>)
    requires id >= 0
    ensures NonNegativeIds(Hits(k, id, ws))
    decreases |ws|
  {
    if ws != [] {
      HitsNonNegative(k, id, ws[..|ws| - 1]);
    }
  }

  /**
   * Starting from a table without negative IDs, every bone ID handed to a vertex
   * is a real one: the `boneID != -1` assertion of the weight loop holds.
   */
  lemma {:induction false} InfluencesNonNegative(k: nat, t: Table, bones: seq<MeshBone>)
    requires IdsNonNegative(t)
    ensures NonNegativeIds(VertexInfluences(k, t, bones))
    decreases |bones|
  {
    if bones != [] {
      var n := |bones| - 1;
      InfluencesNonNegative(k, t, bones[..n]);
      RegisterAllNonNegative(t, BoneEntries(bones[..n]));
      HitsNonNegative(k, BoneId(TableBefore(t, bones, n), bones[n]), bones[n].weights);
    }
  }

  function Min(a: nat, b: nat): nat
  {
    if a <= b then a else b
  }

  /**
   * A skinned vertex that started cleared holds its first MaxBoneInfluence
   * influences in arrival order, and free slots after them.
   */
  lemma {:induction false} SkinnedSlots(vs: seq<SkinnedVertex>, t: Table, bones: seq<MeshBone>, k: nat)
    requires AllSlotted(vs) && BonesBelow(bones, |vs|) && k < |vs| && Cleared(vs[k])
    requires IdsNonNegative(t)
    ensures var r := Skin(vs, t, bones)[k];
      var xs := VertexInfluences(k, t, bones);
      var n := Min(|xs|, MaxBoneInfluence);
      && SameAttributes(r, vs[k])
      && (forall i :: 0 <= i < n ==> r.boneIds[i] == xs[i].boneId && r.weights[i] == xs[i].weight)
      && (forall i :: n <= i < MaxBoneInfluence ==> r.boneIds[i] == -1 && r.weights[i] == 0.0)
  {
    var xs := VertexInfluences(k, t, bones);
    SkinAt(vs, t, bones, k);
    InfluencesNonNegative(k, t, bones);
    if |xs| <= MaxBoneInfluence {
      FillsInOrder(vs[k], xs);
    } else {
      ExtraInfluencesDropped(vs[k], xs);
      FillsInOrder(vs[k], xs[..MaxBoneInfluence]);
    }
  }
}
