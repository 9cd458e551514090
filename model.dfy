/**
 * Model: loads a static scene into a list of meshes, one per mesh reference,
 * collected depth first, parents before children.
 */
module Models {
  import opened Geometry
  import opened Wrappers
  import opened SceneData
  import opened Textures
  import opened MeshLoading

  /** The data a Mesh is built from: vertices, indices and textures. */
  datatype MeshContents = MeshContents(vertices: seq<Vertex>, indices: seq<nat>, textures: seq<Texture>)

  /** What ProcessMesh makes of a mesh; albedo textures are loaded as sRGB. */
  function MeshFor(m: MeshData, materials: seq<Material>, directory: string, loaded: seq<Texture>): MeshContents
    requires MeshWellFormed(m, |materials|)
  {
    MeshContents(VerticesOf(m), FlattenFaces(m.faces), MaterialTextures(materials[m.materialIndex], directory, loaded, true))
  }

  /**
   * A built mesh has one vertex per position, at that position, with texture
   * coordinates (0, 0) when the mesh has no UV set, and its textures in group
   * order with the sRGB flag exactly on the albedo ones.
   */
  lemma MeshForContents(m: MeshData, materials: seq<Material>, directory: string)
    requires MeshWellFormed(m, |materials|)
    ensures var r := MeshFor(m, materials, directory, []);
      && |r.vertices| == |m.positions|
      && (forall i :: 0 <= i < |r.vertices| ==> r.vertices[i].position == m.positions[i])
      && (m.uvs.None? ==> forall i :: 0 <= i < |r.vertices| ==> r.vertices[i].texCoords == ZeroUV)
      && RanksSorted(r.textures)
      && forall t :: t in r.textures ==> (t.srgb <==> t.kind == Albedo)
  {
    WellFormedStreamsAgree(m, |materials|);
    MaterialTexturesOrdered(materials[m.materialIndex], directory, true);
    MaterialTexturesSrgb(materials[m.materialIndex], directory, true);
  }

  /** The scene's meshes, each as ProcessMesh builds it. */
  function MeshTable(s: Scene, directory: string, loaded: seq<Texture>): (r: seq<MeshContents>)
    requires SceneWellFormed(s)
    ensures BuiltTable(r, s, directory, loaded)
  {
    seq(|s.meshes|, i requires 0 <= i < |s.meshes| => MeshFor(s.meshes[i], s.materials, directory, loaded))
  }

  function Entry<T>(table: seq<T>, i: nat): T
    requires i < |table|
  {
    table[i]
  }

  /** table holds, for every mesh of the scene, what ProcessMesh builds from it. */
  predicate BuiltTable(table: seq<MeshContents>, s: Scene, directory: string, loaded: seq<Texture>)
    requires SceneWellFormed(s)
  {
    && |table| == |s.meshes|
    && forall i {:trigger Entry(table, i)} :: 0 <= i < |s.meshes| ==>
      Entry(table, i) == MeshFor(s.meshes[i], s.materials, directory, loaded)
  }

  /** The meshes built for a list of mesh indices, in list order. */
  function MeshesFor(s: Scene, idxs: seq<nat>, directory: string, loaded: seq<Texture>): (r: seq<MeshContents>)
    requires SceneWellFormed(s) && IndicesBelow(idxs, |s.meshes|)
  {
    Select(MeshTable(s, directory, loaded), idxs)
  }

  class Model {
    var meshes: seq<MeshContents>
    const texturesLoaded: seq<Texture>
    var directory: string

    /** Loads the scene read from `path`; `scene` is what the importer returned (None for a null scene). */
    constructor (path: string, scene: Option<Scene>)
      requires scene.Some? ==> SceneWellFormed(scene.value)
      ensures texturesLoaded == []
      ensures !Loadable(scene) ==> meshes == [] && directory == ""
      ensures Loadable(scene) ==>
        && directory == DirectoryOf(path)
        && IndicesBelow(MeshOrder(scene.value.root.value), |scene.value.meshes|)
        && meshes == MeshesFor(scene.value, MeshOrder(scene.value.root.value), directory, [])
    {
      meshes := [];
      texturesLoaded := [];
      directory := "";
      new;
      LoadModel(path, scene);
    }

    /** Gives up on a null, incomplete or rootless scene; otherwise records the directory and walks the tree. */
    method LoadModel(path: string, scene: Option<Scene>)
      requires scene.Some? ==> SceneWellFormed(scene.value)
      modifies this
      ensures !Loadable(scene) ==> meshes == old(meshes) && directory == old(directory)
      ensures Loadable(scene) ==>
        && directory == DirectoryOf(path)
        && IndicesBelow(MeshOrder(scene.value.root.value), |scene.value.meshes|)
        && meshes == old(meshes) + MeshesFor(scene.value, MeshOrder(scene.value.root.value), directory, texturesLoaded)
    {
      if scene.None? || scene.value.incomplete || scene.value.root.None? {
        return;
      }
      directory := DirectoryOf(path);
      MeshOrderInRange(scene.value.root.value, |scene.value.meshes|);
      ProcessNode(scene.value.root.value, scene.value, MeshTable(scene.value, directory, texturesLoaded));
    }

    /**
     * Appends the node's own meshes, then recurses into each child in order.
     * `table` stands for what ProcessMesh builds from each mesh of the scene.
     */
    method ProcessNode(node: SceneNode, scene: Scene, ghost table: seq<MeshContents>)
      requires SceneWellFormed(scene) && NodeMeshesInRange(node, |scene.meshes|)
      requires BuiltTable(table, scene, directory, texturesLoaded)
      modifies this
      ensures directory == old(directory)
      ensures IndicesBelow(MeshOrder(node), |table|)
      ensures meshes == old(meshes) + Select(table, MeshOrder(node))
      decreases node
    {
      ghost var start := meshes;
      ProcessOwnMeshes(node, scene, table);
      assert node.meshes == MeshOrderPrefix(node, 0);
      var c := 0;
      while c < |node.children|
        invariant 0 <= c <= |node.children| && directory == old(directory)
        invariant IndicesBelow(MeshOrderPrefix(node, c), |table|)
        invariant meshes == start + Select(table, MeshOrderPrefix(node, c))
      {
        var child := node.children[c];
        assert child in node.children;
        ProcessNode(child, scene, table);
        SelectAppend(table, MeshOrderPrefix(node, c), MeshOrder(child));
        c := c + 1;
      }
    }

    /** The first loop of ProcessNode: one mesh per index the node lists, in order. */
    method ProcessOwnMeshes(node: SceneNode, scene: Scene, ghost table: seq<MeshContents>)
      requires SceneWellFormed(scene) && IndicesBelow(node.meshes, |scene.meshes|)
      requires BuiltTable(table, scene, directory, texturesLoaded)
      modifies this
      ensures directory == old(directory)
      ensures meshes == old(meshes) + Select(table, node.meshes)
    {
      var i := 0;
      while i < |node.meshes|
        invariant 0 <= i <= |node.meshes| && directory == old(directory)
        invariant meshes == old(meshes) + Select(table, node.meshes[..i])
      {
        SelectSnoc(table, node.meshes, i);
        var mesh := ProcessMesh(scene, node.meshes[i], table);
        meshes := meshes + [mesh];
        i := i + 1;
      }
      assert node.meshes[..i] == node.meshes;
    }

    /** Builds one mesh: vertices, flattened face indices, the material's textures. */
    method ProcessMesh(scene: Scene, k: nat, ghost table: seq<MeshContents>) returns (r: MeshContents)
      requires SceneWellFormed(scene) && k < |scene.meshes|
      requires BuiltTable(table, scene, directory, texturesLoaded)
      ensures r == table[k]
    {
      var m := scene.meshes[k];
      assert Entry(table, k) == MeshFor(m, scene.materials, directory, texturesLoaded);
      var vertices := ReadVertices(m);
      var indices := ReadIndices(m.faces);
      var textures := ReadMaterial(scene.materials[m.materialIndex], directory, texturesLoaded, true);
      r := MeshContents(vertices, indices, textures);
    }

    /**
     * GetMesh: an index past the end gives the last mesh. The guard is `>`, so
     * an index equal to the count is not caught and reads past the end; the
     * precondition excludes it, and an empty list.
     */
    function GetMesh(index: nat): (r: MeshContents)
      reads this
      requires index < |meshes| || (index > |meshes| && |meshes| > 0)
      ensures index < |meshes| ==> r == meshes[index]
      ensures index > |meshes| ==> r == meshes[|meshes| - 1]
    {
      if index > |meshes| then meshes[|meshes| - 1] else meshes[index]
    }

    function GetMeshCount(): nat
      reads this
    {
      |meshes|
    }
  }

  /**
   * Loading a scene yields one mesh per mesh reference in pre-order: the k-th
   * mesh is built from the k-th index of the pre-order listing of node meshes.
   */
  lemma LoadedMeshOrder(s: Scene, directory: string, k: nat)
    requires SceneWellFormed(s) && s.root.Some?
    requires k < |MeshesOfNodes(PreOrderNodes(s.root.value))|
    ensures var order := MeshesOfNodes(PreOrderNodes(s.root.value));
      && order[k] < |s.meshes|
      && IndicesBelow(MeshOrder(s.root.value), |s.meshes|)
      && |MeshesFor(s, MeshOrder(s.root.value), directory, [])| == |order|
      && MeshesFor(s, MeshOrder(s.root.value), directory, [])[k] == MeshFor(s.meshes[order[k]], s.materials, directory, [])
  {
    var order := MeshesOfNodes(PreOrderNodes(s.root.value));
    MeshOrderIsPreOrder(s.root.value);
    MeshOrderInRange(s.root.value, |s.meshes|);
    SelectAt(MeshTable(s, directory, []), MeshOrder(s.root.value), k);
    assert s.meshes[order[k]] == s.meshes[order[k]];
  }
}
