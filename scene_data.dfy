/**
 * The already-imported scene the loaders walk: Assimp's aiScene, aiNode, aiMesh,
 * aiMaterial, aiAnimation and aiNodeAnim as plain values. Reading and parsing a
 * file is Assimp's work and is not part of this model; these are its results.
 */
module SceneData {
  import opened Geometry
  import opened Wrappers

  /** aiVectorKey / aiQuatKey: a timestamp (in ticks) and a value. */
  datatype VectorKey = VectorKey(time: real, value: Vec3)
  datatype QuatKey = QuatKey(time: real, value: Quat)

  /** aiNodeAnim: the key tracks of one animated node. */
  datatype NodeAnim = NodeAnim(nodeName: string, positionKeys: seq<VectorKey>, rotationKeys: seq<QuatKey>)

  /** aiAnimation: a clip. */
  datatype AnimationData = AnimationData(duration: real, ticksPerSecond: real, channels: seq<NodeAnim>)

  /** aiVertexWeight. */
  datatype VertexWeight = VertexWeight(vertexId: nat, weight: real)

  /** aiBone, with its offset matrix already decomposed into a translation and a rotation. */
  datatype MeshBone = MeshBone(name: string, offsetPosition: Vec3, offsetRotation: Quat, weights: seq<VertexWeight>)

  /** The aiTextureType values the loaders ask for. */
  datatype TextureSource =
    | Diffuse | BaseColor | Normals | Height | NormalCamera | Emissive | EmissionColor
    | Specular | Shininess | Lightmap | Ambient | AmbientOcclusion

  /** aiMaterial: the texture file names stored under each texture type. */
  datatype Material = Material(slots: map<TextureSource, seq<string>>)

  /** aiMaterial::GetTextureCount. */
  function TextureCount(m: Material, t: TextureSource): nat
  {
    if t in m.slots then |m.slots[t]| else 0
  }

  /** aiMaterial::GetTexture: the file name in slot i of type t. */
  function TextureName(m: Material, t: TextureSource, i: nat): string
    requires i < TextureCount(m, t)
  {
    m.slots[t][i]
  }

  /** aiMesh: vertex streams (normals and the first UV set may be absent), faces, material, bones. */
  datatype MeshData = MeshData(
    positions: seq<Vec3>,
    normals: Option<seq<Vec3>>,
    uvs: Option<seq<Vec2>>,
    faces: seq<seq<nat>>,
    materialIndex: nat,
    bones: seq<MeshBone>)

  /** aiNode. The rest translation and rotation are what the animator reads for unanimated nodes. */
  datatype SceneNode = SceneNode(
    name: string,
    transformation: Mat4,
    restPosition: Vec3,
    restRotation: Quat,
    meshes: seq<nat>,
    children: seq<SceneNode>)

  /** aiScene; a null scene is a scene with no root. */
  datatype Scene = Scene(incomplete: bool, root: Option<SceneNode>, meshes: seq<MeshData>, materials: seq<Material>)

  predicate MeshWellFormed(m: MeshData, materialCount: nat)
  {
    && (m.normals.Some? ==> |m.normals.value| == |m.positions|)
    && (m.uvs.Some? ==> |m.uvs.value| == |m.positions|)
    && m.materialIndex < materialCount
  }

  /** Every mesh index a node (or a descendant) names refers to a mesh of the scene. */
  predicate NodeMeshesInRange(n: SceneNode, count: nat)
  {
    && (forall i :: 0 <= i < |n.meshes| ==> n.meshes[i] < count)
    && (forall c :: c in n.children ==> NodeMeshesInRange(c, count))
  }

  predicate SceneWellFormed(s: Scene)
  {
    && (forall i :: 0 <= i < |s.meshes| ==> MeshWellFormed(s.meshes[i], |s.materials|))
    && (s.root.Some? ==> NodeMeshesInRange(s.root.value, |s.meshes|))
  }

  /** The scene loaders give up on a null scene, an incomplete one or one without a root. */
  predicate Loadable(s: Option<Scene>)
  {
    s.Some? && !s.value.incomplete && s.value.root.Some?
  }

  /** Mesh indices in depth-first pre-order: a node's own meshes, then each child's, in order. */
  function MeshOrder(n: SceneNode): seq<nat>
    decreases n, |n.children| + 1
  {
    MeshOrderPrefix(n, |n.children|)
  }

  /** n's own meshes followed by those of its first k children's subtrees. */
  function MeshOrderPrefix(n: SceneNode, k: nat): seq<nat>
    requires k <= |n.children|
    decreases n, k
  {
    if k == 0 then n.meshes else MeshOrderPrefix(n, k - 1) + MeshOrder(n.children[k - 1])
  }

  /** Every node of the subtree, parents before children, siblings in order. */
  function PreOrderNodes(n: SceneNode): seq<SceneNode>
    decreases n, |n.children| + 1
  {
    [n] + PreOrderChildren(n, |n.children|)
  }

  function PreOrderChildren(n: SceneNode, k: nat): seq<SceneNode>
    requires k <= |n.children|
    decreases n, k
  {
    if k == 0 then [] else PreOrderChildren(n, k - 1) + PreOrderNodes(n.children[k - 1])
  }

  /** The meshes of a list of nodes, concatenated in list order. */
  function MeshesOfNodes(ns: seq<SceneNode>): seq<nat>
  {
    if ns == [] then [] else MeshesOfNodes(ns[..|ns| - 1]) + ns[|ns| - 1].meshes
  }

  lemma {:induction false} MeshesOfNodesAppend(a: seq<SceneNode>, b: seq<SceneNode>)
    ensures MeshesOfNodes(a + b) == MeshesOfNodes(a) + MeshesOfNodes(b)
    decreases |b|
  {
    if b == [] {
      assert a + b == a;
    } else {
      assert (a + b)[..|a + b| - 1] == a + b[..|b| - 1];
      assert b[..|b| - 1] + [b[|b| - 1]] == b;
      MeshesOfNodesAppend(a, b[..|b| - 1]);
    }
  }

  /**
   * The recursive collection order is the same as listing the nodes in
   * pre-order and concatenating their mesh lists.
   */
  lemma {:induction false} MeshOrderIsPreOrder(n: SceneNode)
    ensures MeshOrder(n) == MeshesOfNodes(PreOrderNodes(n))
    decreases n, |n.children| + 1
  {
    MeshOrderPrefixIsPreOrder(n, |n.children|);
  }

  lemma {:induction false} MeshOrderPrefixIsPreOrder(n: SceneNode, k: nat)
    requires k <= |n.children|
    ensures MeshOrderPrefix(n, k) == MeshesOfNodes([n] + PreOrderChildren(n, k))
    decreases n, k
  {
    if k == 0 {
      assert [n] + PreOrderChildren(n, 0) == [n];
      assert [n][..0] == [];
    } else {
      MeshOrderPrefixIsPreOrder(n, k - 1);
      MeshOrderIsPreOrder(n.children[k - 1]);
      assert [n] + PreOrderChildren(n, k)
        == ([n] + PreOrderChildren(n, k - 1)) + PreOrderNodes(n.children[k - 1]);
      MeshesOfNodesAppend([n] + PreOrderChildren(n, k - 1), PreOrderNodes(n.children[k - 1]));
    }
  }

  /** Face index lists concatenated in face order. */
  function FlattenFaces(faces: seq<seq<nat>>): seq<nat>
  {
    if faces == [] then [] else FlattenFaces(faces[..|faces| - 1]) + faces[|faces| - 1]
  }

  /** Flattening distributes over splitting the face list, so each face's indices stay contiguous. */
  lemma {:induction false} FlattenFacesAppend(a: seq<seq<nat>>, b: seq<seq<nat>>)
    ensures FlattenFaces(a + b) == FlattenFaces(a) + FlattenFaces(b)
    decreases |b|
  {
    if b == [] {
      assert a + b == a;
    } else {
      var n := |b| - 1;
      assert (a + b)[..|a + b| - 1] == a + b[..n];
      FlattenFacesAppend(a, b[..n]);
      assert FlattenFaces(a + b) == FlattenFaces(a + b[..n]) + b[n];
      assert FlattenFaces(b) == FlattenFaces(b[..n]) + b[n];
    }
  }
}
