/**
 * SkinnedModel: loads a skinned scene. Like Model it builds one mesh per mesh
 * reference, depth first, parents before children; on top of that every
 * mesh's bones are registered in the model's bone table, and each bone's
 * weights are written into the bone slots of the vertices they name.
 */
module SkinnedModels {
  import opened Geometry
  import opened Wrappers
  import opened SceneData
  import opened Textures
  import opened MeshLoading
  import opened BoneTable
  import opened SkinnedVertices

  /** The data a SkinnedMesh is built from. */
  datatype SkinnedMeshContents = SkinnedMeshContents(vertices: seq<SkinnedVertex>, indices: seq<nat>, textures: seq<Texture>)

  const FreeIds: seq<int> := [-1, -1, -1, -1]
  const FreeWeights: seq<real> := [0.0, 0.0, 0.0, 0.0]

  /** The vertex the vertex loop builds from slot i: attributes as for a static mesh, every bone slot free. */
  function UnweightedVertex(m: MeshData, i: nat): (v: SkinnedVertex)
    requires MeshStreamsAgree(m) && i < |m.positions|
    ensures Cleared(v)
  {
    var b := VertexAt(m, i);
    SkinnedVertex(b.position, b.normal, b.texCoords, FreeIds, FreeWeights)
  }

  function UnweightedVertices(m: MeshData): (vs: seq<SkinnedVertex>)
    requires MeshStreamsAgree(m)
    ensures |vs| == |m.positions| && AllSlotted(vs)
    ensures forall i :: 0 <= i < |vs| ==> vs[i] == UnweightedVertex(m, i)
  {
    seq(|m.positions|, i requires 0 <= i < |m.positions| => UnweightedVertex(m, i))
  }

  /** Every bone weight of every mesh names a vertex of that mesh. */
  predicate SkinnedSceneOk(s: Scene)
  {
    && SceneWellFormed(s)
    && forall i :: 0 <= i < |s.meshes| ==> BonesBelow(s.meshes[i].bones, |s.meshes[i].positions|)
  }

  predicate SkinnedMeshOk(m: MeshData)
  {
    MeshStreamsAgree(m) && BonesBelow(m.bones, |m.positions|)
  }

  /** What ProcessMesh makes of a mesh when the bone table stands at t. */
  function SkinnedMeshFor(m: MeshData, textures: seq<Texture>, t: Table): SkinnedMeshContents
    requires SkinnedMeshOk(m)
  {
    SkinnedMeshContents(Skin(UnweightedVertices(m), t, m.bones), FlattenFaces(m.faces), textures)
  }


  /** One step of the load: the mesh ProcessMesh builds and the bone table it leaves. */
  datatype Built = Built(mesh: SkinnedMeshContents, table: Table)

  /** What ProcessMesh does with mesh k when the bone table stands at t. */
  type Step = (nat, Table) -> Built

  /**
   * ProcessMesh on values: the mesh skinned with the current table, and the
   * table with the mesh's bones registered. SkinnedModel never asks for sRGB
   * albedo.
   */
  function MeshStep(s: Scene, directory: string, loaded: seq<Texture>): (r: Step)
    requires SkinnedSceneOk(s)
    ensures Steps(r, s, directory, loaded)
  {
    (k: nat, t: Table) =>
      if k < |s.meshes| then
        Built(SkinnedMeshFor(s.meshes[k], MaterialTextures(s.materials[s.meshes[k].materialIndex], directory, loaded, false), t),
              RegisterAll(t, BoneEntries(s.meshes[k].bones)))
      else
        Built(SkinnedMeshContents([], [], []), t)
  }

  function StepAt(step: Step, k: nat, t: Table): Built
  {
    step(k, t)
  }

  /** step does, for every mesh of the scene and every table, what ProcessMesh does. */
  ghost predicate Steps(step: Step, s: Scene, directory: string, loaded: seq<Texture>)
    requires SkinnedSceneOk(s)
  {
    forall k: nat, t: Table {:trigger StepAt(step, k, t)} :: k < |s.meshes| ==>
      StepAt(step, k, t)
      == Built(SkinnedMeshFor(s.meshes[k], MaterialTextures(s.materials[s.meshes[k].materialIndex], directory, loaded, false), t),
               RegisterAll(t, BoneEntries(s.meshes[k].bones)))
  }

  /** Meshes built so far and the bone table after them. */
  datatype Loaded = Loaded(meshes: seq<SkinnedMeshContents>, table: Table)

  /** Loading a list of mesh indices in order, each step starting from the table the previous one left. */
  function LoadMeshes(step: Step, idxs: seq<nat>, t: Table): (r: Loaded)
    ensures |r.meshes| == |idxs|
    decreases |idxs|
  {
    if idxs == [] then Loaded([], t)
    else
      var p := LoadMeshes(step, idxs[..|idxs| - 1], t);
      var b := step(idxs[|idxs| - 1], p.table);
      Loaded(p.meshes + [b.mesh], b.table)
  }

  lemma {:induction false} LoadMeshesAppend(step: Step, a: seq<nat>, b: seq<nat>, t: Table)
    ensures var p := LoadMeshes(step, a, t);
      var q := LoadMeshes(step, b, p.table);
      LoadMeshes(step, a + b, t) == Loaded(p.meshes + q.meshes, q.table)
    decreases |b|
  {
    if b == [] {
      assert a + b == a;
    } else {
      var n := |b| - 1;
      assert (a + b)[..|a + b| - 1] == a + b[..n];
      LoadMeshesAppend(step, a, b[..n], t);
    }
  }

  /** Loading the first i + 1 indices is loading the first i, then index i. */
  lemma LoadMeshesStep(step: Step, idxs: seq<nat>, t: Table, i: nat)
    requires i < |idxs|
    ensures var p := LoadMeshes(step, idxs[..i], t);
      var b := step(idxs[i], p.table);
      LoadMeshes(step, idxs[..i + 1], t) == Loaded(p.meshes + [b.mesh], b.table)
  {
    assert idxs[..i + 1][..i] == idxs[..i];
  }

  lemma {:induction false} LoadMeshesAt(step: Step, idxs: seq<nat>, t: Table, k: nat)
    requires k < |idxs|
    ensures LoadMeshes(step, idxs, t).meshes[k] == step(idxs[k], LoadMeshes(step, idxs[..k], t).table).mesh
    decreases |idxs|
  {
    var n := |idxs| - 1;
    if k < n {
      LoadMeshesAt(step, idxs[..n], t, k);
      assert idxs[..n][..k] == idxs[..k];
    } else {
      assert idxs[..k] == idxs[..n];
    }
  }

  /**
   * Mesh k of a load is built from the k-th listed mesh, skinned with the
   * table as the meshes before it left it.
   */
  lemma LoadedMeshAt(s: Scene, directory: string, loaded: seq<Texture>, step: Step, idxs: seq<nat>, t: Table, k: nat)
    requires SkinnedSceneOk(s) && Steps(step, s, directory, loaded)
    requires IndicesBelow(idxs, |s.meshes|) && k < |idxs|
    ensures var m := s.meshes[idxs[k]];
      LoadMeshes(step, idxs, t).meshes[k]
      == SkinnedMeshFor(m, MaterialTextures(s.materials[m.materialIndex], directory, loaded, false),
                        LoadMeshes(step, idxs[..k], t).table)
  {
    LoadMeshesAt(step, idxs, t, k);
    var before := LoadMeshes(step, idxs[..k], t).table;
    assert StepAt(step, idxs[k], before) == step(idxs[k], before);
  }

  /** The bone entries of a list of meshes, mesh by mesh, bone by bone. */
  function SceneBoneEntries(s: Scene, idxs: seq<nat>): seq<Entry>
    requires IndicesBelow(idxs, |s.meshes|)
    decreases |idxs|
  {
    if idxs == [] then []
    else
      var n := |idxs| - 1;
      SceneBoneEntries(s, idxs[..n]) + BoneEntries(s.meshes[idxs[n]].bones)
  }

  /** After a load the table has every bone of the loaded meshes registered, in load order. */
  lemma {:induction false} LoadMeshesTable(s: Scene, directory: string, loaded: seq<Texture>, step: Step, idxs: seq<nat>, t: Table)
    requires SkinnedSceneOk(s) && Steps(step, s, directory, loaded) && IndicesBelow(idxs, |s.meshes|)
    ensures LoadMeshes(step, idxs, t).table == RegisterAll(t, SceneBoneEntries(s, idxs))
    decreases |idxs|
  {
    if idxs != [] {
      var n := |idxs| - 1;
      LoadMeshesTable(s, directory, loaded, step, idxs[..n], t);
      var before := LoadMeshes(step, idxs[..n], t).table;
      assert StepAt(step, idxs[n], before) == step(idxs[n], before);
      RegisterAllSplit(t, SceneBoneEntries(s, idxs[..n]), BoneEntries(s.meshes[idxs[n]].bones));
    }
  }

  /**
   * Loading from an empty table names exactly the bones of the loaded meshes
   * and numbers them 0 .. counter - 1 without gaps or repeats.
   */
  lemma LoadedBonesDense(s: Scene, directory: string, loaded: seq<Texture>, step: Step, idxs: seq<nat>)
    requires SkinnedSceneOk(s) && Steps(step, s, directory, loaded) && IndicesBelow(idxs, |s.meshes|)
    ensures var r := LoadMeshes(step, idxs, Table(map[], 0)).table;
      Dense(r.bones, r.counter) && r.bones.Keys == NamesOf(SceneBoneEntries(s, idxs))
  {
    LoadMeshesTable(s, directory, loaded, step, idxs, Table(map[], 0));
    EmptyTableDense(SceneBoneEntries(s, idxs));
    RegisterAllKeeps(Table(map[], 0), SceneBoneEntries(s, idxs));
  }

  class SkinnedModel {
    var meshes: seq<SkinnedMeshContents>
    var boneInfoMap: BoneMap
    var boneCounter: int
    const texturesLoaded: seq<Texture>
    var directory: string

    /** Loads the scene read from `path`; `scene` is what the importer returned (None for a null scene). */
    constructor (path: string, scene: Option<Scene>)
      requires scene.Some? ==> SkinnedSceneOk(scene.value)
      ensures texturesLoaded == []
      ensures !Loadable(scene) ==> meshes == [] && directory == "" && boneInfoMap == map[] && boneCounter == 0
      ensures Loadable(scene) ==>
        && directory == DirectoryOf(path)
        && IndicesBelow(MeshOrder(scene.value.root.value), |scene.value.meshes|)
        && var r := LoadMeshes(MeshStep(scene.value, directory, []),
                               MeshOrder(scene.value.root.value), Table(map[], 0));
           meshes == r.meshes && Table(boneInfoMap, boneCounter) == r.table
    {
      meshes := [];
      boneInfoMap := map[];
      boneCounter := 0;
      texturesLoaded := [];
      directory := "";
      new;
      LoadModel(path, scene);
    }

    /** Gives up on a null, incomplete or rootless scene; otherwise records the directory and walks the tree. */
    method LoadModel(path: string, scene: Option<Scene>)
      requires scene.Some? ==> SkinnedSceneOk(scene.value)
      modifies this
      ensures !Loadable(scene) ==>
        meshes == old(meshes) && directory == old(directory)
        && boneInfoMap == old(boneInfoMap) && boneCounter == old(boneCounter)
      ensures Loadable(scene) ==>
        && directory == DirectoryOf(path)
        && IndicesBelow(MeshOrder(scene.value.root.value), |scene.value.meshes|)
        && var r := LoadMeshes(MeshStep(scene.value, directory, texturesLoaded),
                               MeshOrder(scene.value.root.value), old(Table(boneInfoMap, boneCounter)));
           meshes == old(meshes) + r.meshes && Table(boneInfoMap, boneCounter) == r.table
    {
      if scene.None? || scene.value.incomplete || scene.value.root.None? {
        return;
      }
      directory := DirectoryOf(path);
      ProcessNode(scene.value.root.value, scene.value, MeshStep(scene.value, directory, texturesLoaded));
    }

    /**
     * Builds the node's own meshes, then recurses into each child in order.
     * `step` stands for what ProcessMesh does with each mesh of the scene.
     */
    method ProcessNode(node: SceneNode, scene: Scene, ghost step: Step)
      requires SkinnedSceneOk(scene) && NodeMeshesInRange(node, |scene.meshes|)
      requires Steps(step, scene, directory, texturesLoaded)
      modifies this
      ensures directory == old(directory)
      ensures IndicesBelow(MeshOrder(node), |scene.meshes|)
      ensures var r := LoadMeshes(step, MeshOrder(node), old(Table(boneInfoMap, boneCounter)));
        meshes == old(meshes) + r.meshes && Table(boneInfoMap, boneCounter) == r.table
      decreases node, 1
    {
      ghost var start := meshes;
      ghost var t0 := Table(boneInfoMap, boneCounter);
      ProcessOwnMeshes(node, scene, step);
      ProcessChildren(node, scene, step, start, t0);
      MeshOrderInRange(node, |scene.meshes|);
    }

    /** The second loop of ProcessNode: each child's subtree in order, after the node's own meshes. */
    method ProcessChildren(node: SceneNode, scene: Scene, ghost step: Step, ghost start: seq<SkinnedMeshContents>, ghost t0: Table)
      requires SkinnedSceneOk(scene) && NodeMeshesInRange(node, |scene.meshes|)
      requires Steps(step, scene, directory, texturesLoaded)
      requires var r := LoadMeshes(step, node.meshes, t0);
        meshes == start + r.meshes && Table(boneInfoMap, boneCounter) == r.table
      modifies this
      ensures directory == old(directory)
      ensures var r := LoadMeshes(step, MeshOrder(node), t0);
        meshes == start + r.meshes && Table(boneInfoMap, boneCounter) == r.table
      decreases node, 0
    {
      assert node.meshes == MeshOrderPrefix(node, 0);
      var c := 0;
      while c < |node.children|
        invariant 0 <= c <= |node.children| && directory == old(directory)
        invariant var r := LoadMeshes(step, MeshOrderPrefix(node, c), t0);
          meshes == start + r.meshes && Table(boneInfoMap, boneCounter) == r.table
      {
        var child := node.children[c];
        assert child in node.children;
        ghost var p := LoadMeshes(step, MeshOrderPrefix(node, c), t0);
        ProcessNode(child, scene, step);
        ghost var q := LoadMeshes(step, MeshOrder(child), p.table);
        LoadMeshesAppend(step, MeshOrderPrefix(node, c), MeshOrder(child), t0);
        assert MeshOrderPrefix(node, c + 1) == MeshOrderPrefix(node, c) + MeshOrder(child);
        assert meshes == start + (p.meshes + q.meshes);
        c := c + 1;
      }
    }

    /** The first loop of ProcessNode: one mesh per index the node lists, in order. */
    method ProcessOwnMeshes(node: SceneNode, scene: Scene, ghost step: Step)
      requires SkinnedSceneOk(scene) && IndicesBelow(node.meshes, |scene.meshes|)
      requires Steps(step, scene, directory, texturesLoaded)
      modifies this
      ensures directory == old(directory)
      ensures var r := LoadMeshes(step, node.meshes, old(Table(boneInfoMap, boneCounter)));
        meshes == old(meshes) + r.meshes && Table(boneInfoMap, boneCounter) == r.table
    {
      ghost var t0 := Table(boneInfoMap, boneCounter);
      var i := 0;
      while i < |node.meshes|
        invariant 0 <= i <= |node.meshes| && directory == old(directory)
        invariant var r := LoadMeshes(step, node.meshes[..i], t0);
          meshes == old(meshes) + r.meshes && Table(boneInfoMap, boneCounter) == r.table
      {
        ghost var p := LoadMeshes(step, node.meshes[..i], t0);
        var mesh := ProcessMesh(scene, node.meshes[i], step);
        LoadMeshesStep(step, node.meshes, t0, i);
        assert StepAt(step, node.meshes[i], p.table) == step(node.meshes[i], p.table);
        meshes := meshes + [mesh];
        i := i + 1;
      }
      assert node.meshes[..i] == node.meshes;
    }

    /** Builds one mesh: cleared vertices, flattened face indices, the material's textures, then the bone weights. */
    method ProcessMesh(scene: Scene, k: nat, ghost step: Step) returns (r: SkinnedMeshContents)
      requires SkinnedSceneOk(scene) && k < |scene.meshes|
      requires Steps(step, scene, directory, texturesLoaded)
      modifies this
      ensures meshes == old(meshes) && directory == old(directory)
      ensures Built(r, Table(boneInfoMap, boneCounter)) == StepAt(step, k, old(Table(boneInfoMap, boneCounter)))
    {
      var m := scene.meshes[k];
      ghost var t0 := Table(boneInfoMap, boneCounter);
      assert StepAt(step, k, t0)
        == Built(SkinnedMeshFor(m, MaterialTextures(scene.materials[m.materialIndex], directory, texturesLoaded, false), t0),
                 RegisterAll(t0, BoneEntries(m.bones)));
      var vertices := ReadVertices(m);
      var indices := ReadIndices(m.faces);
      var materialTextures := ReadMaterial(scene.materials[m.materialIndex], directory, texturesLoaded, false);
      ExtractBoneWeightForVertices(vertices, m.bones);
      r := SkinnedMeshContents(vertices[..], indices, materialTextures);
    }

    /** The vertex loop of ProcessMesh: every vertex with its attributes and all four bone slots free. */
    static method ReadVertices(m: MeshData) returns (vertices: array<SkinnedVertex>)
      requires MeshStreamsAgree(m)
      ensures fresh(vertices) && vertices[..] == UnweightedVertices(m)
    {
      vertices := new SkinnedVertex[|m.positions|];
      var i := 0;
      while i < |m.positions|
        invariant 0 <= i <= |m.positions|
        invariant forall j :: 0 <= j < i ==> vertices[j] == UnweightedVertex(m, j)
      {
        var vertex := SkinnedVertex(Zero3, None, ZeroUV, [0, 0, 0, 0], [0.0, 0.0, 0.0, 0.0]);
        vertex := SetVertexBoneDataToDefault(vertex);
        assert vertex.boneIds == FreeIds && vertex.weights == FreeWeights;
        vertex := vertex.(position := m.positions[i]);
        if m.normals.Some? {
          vertex := vertex.(normal := Some(m.normals.value[i]));
        }
        if m.uvs.Some? {
          vertex := vertex.(texCoords := m.uvs.value[i]);
        } else {
          vertex := vertex.(texCoords := ZeroUV);
        }
        vertices[i] := vertex;
        i := i + 1;
      }
      assert vertices[..] == UnweightedVertices(m);
    }

    /**
     * Registers each of the mesh's bones (a new name gets the counter as its ID
     * and the counter advances) and hands the bone's weights to the vertices
     * they name.
     */
    method ExtractBoneWeightForVertices(vertices: array<SkinnedVertex>, bones: seq<MeshBone>)
      requires AllSlotted(vertices[..]) && BonesBelow(bones, vertices.Length)
      modifies this, vertices
      ensures meshes == old(meshes) && directory == old(directory)
      ensures Table(boneInfoMap, boneCounter) == RegisterAll(old(Table(boneInfoMap, boneCounter)), BoneEntries(bones))
      ensures vertices[..] == Skin(old(vertices[..]), old(Table(boneInfoMap, boneCounter)), bones)
    {
      ghost var t0 := Table(boneInfoMap, boneCounter);
      ghost var vs0 := vertices[..];
      var b := 0;
      while b < |bones|
        invariant 0 <= b <= |bones|
        invariant meshes == old(meshes) && directory == old(directory)
        invariant Table(boneInfoMap, boneCounter) == TableBefore(t0, bones, b)
        invariant vertices[..] == Skin(vs0, t0, bones[..b])
      {
        SkinStep(vs0, t0, bones, b);
        var boneId := RegisterBone(bones[b]);
        WriteWeights(vertices, boneId, bones[b].weights);
        b := b + 1;
      }
      assert bones[..b] == bones;
    }

    /** The registration part of ExtractBoneWeightForVertices: a new name gets the counter as its ID. */
    method RegisterBone(bone: MeshBone) returns (boneId: int)
      modifies this
      ensures meshes == old(meshes) && directory == old(directory)
      ensures boneId == BoneId(old(Table(boneInfoMap, boneCounter)), bone)
      ensures Table(boneInfoMap, boneCounter) == Register(old(Table(boneInfoMap, boneCounter)), BoneEntry(bone))
    {
      boneId := -1;
      var name := bone.name;
      if name !in boneInfoMap {
        boneInfoMap := boneInfoMap[name := BoneInfo(boneCounter, bone.offsetPosition, bone.offsetRotation)];
        boneId := boneCounter;
        boneCounter := boneCounter + 1;
      } else {
        boneId := boneInfoMap[name].id;
      }
    }

    /** The weight loop of ExtractBoneWeightForVertices: each weight goes to the vertex it names. */
    static method WriteWeights(vertices: array<SkinnedVertex>, boneId: int, weights: seq<VertexWeight>)
      requires AllSlotted(vertices[..]) && WeightsBelow(weights, vertices.Length)
      modifies vertices
      ensures vertices[..] == ApplyWeights(old(vertices[..]), boneId, weights)
    {
      var w := 0;
      while w < |weights|
        invariant 0 <= w <= |weights|
        invariant vertices[..] == ApplyWeights(old(vertices[..]), boneId, weights[..w])
      {
        var vertexId := weights[w].vertexId;
        var updated := SetVertexBoneData(vertices[vertexId], boneId, weights[w].weight);
        assert weights[..w + 1][..w] == weights[..w];
        vertices[vertexId] := updated;
        w := w + 1;
      }
      assert weights[..w] == weights;
    }

    /**
     * GetMesh: an index past the end gives the last mesh. The guard is `>`, so
     * an index equal to the count is not caught and reads past the end; the
     * precondition excludes it, and an empty list.
     */
    function GetMesh(index: nat): (r: SkinnedMeshContents)
      reads this
      requires index < |meshes| || (index > |meshes| && |meshes| > 0)
      ensures index < |meshes| ==> r == meshes[index]
      ensures index > |meshes| ==> r == meshes[|meshes| - 1]
    {
      if index > |meshes| then meshes[|meshes| - 1] else meshes[index]
    }

    function GetMeshCount(): nat
      reads this
    {
      |meshes|
    }
  }
}
