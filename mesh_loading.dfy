/**
 * The mesh-reading steps Model and SkinnedModel share: vertex streams with a
 * default texture coordinate, face indices flattened in order, the texture
 * groups chosen by source priority, and the per-slot texture lookup.
 */
module MeshLoading {
  import opened Geometry
  import opened Wrappers
  import opened SceneData
  import opened Textures

  /** Vertex. An absent normal stream leaves the normal unset, shown as None. */
  datatype Vertex = Vertex(position: Vec3, normal: Option<Vec3>, texCoords: Vec2)

  const ZeroUV := Vec2(0.0, 0.0)

  /** Position of the last '/' in a path, if there is one. */
  function LastSlash(path: string): (r: Option<nat>)
    ensures r.Some? ==> r.value < |path| && path[r.value] == '/'
    ensures r.Some? ==> forall j :: r.value < j < |path| ==> path[j] != '/'
    ensures r.None? <==> forall j :: 0 <= j < |path| ==> path[j] != '/'
  {
    if path == [] then Option.None
    else if path[|path| - 1] == '/' then Some(|path| - 1)
    else LastSlash(path[..|path| - 1])
  }

  /**
   * The model's directory: the path up to (not including) its last '/'; a
   * path without one is kept whole, as substr with npos does.
   */
  function DirectoryOf(path: string): (r: string)
    ensures LastSlash(path).None? ==> r == path
    ensures LastSlash(path).Some? ==> |r| < |path| && r == path[..|r|] && path[|r|] == '/'
    ensures forall j :: |r| < j < |path| ==> path[j] != '/'
  {
    match LastSlash(path)
    case None => path
    case Some(k) => path[..k]
  }

  /** The vertex ProcessMesh builds from slot i of the mesh's streams. */
  function VertexAt(m: MeshData, i: nat): (v: Vertex)
    requires MeshStreamsAgree(m) && i < |m.positions|
    ensures v.position == m.positions[i]
    ensures m.normals.Some? <==> v.normal.Some?
    ensures m.uvs.None? ==> v.texCoords == ZeroUV
  {
    Vertex(
      m.positions[i],
      if m.normals.Some? then Some(m.normals.value[i]) else None,
      if m.uvs.Some? then m.uvs.value[i] else ZeroUV)
  }

  predicate MeshStreamsAgree(m: MeshData)
  {
    && (m.normals.Some? ==> |m.normals.value| == |m.positions|)
    && (m.uvs.Some? ==> |m.uvs.value| == |m.positions|)
  }

  lemma WellFormedStreamsAgree(m: MeshData, materialCount: nat)
    requires MeshWellFormed(m, materialCount)
    ensures MeshStreamsAgree(m)
  {
  }

  /** The vertex list of a mesh: one vertex per position, in order. */
  function VerticesOf(m: MeshData): (vs: seq<Vertex>)
    requires MeshStreamsAgree(m)
    ensures |vs| == |m.positions|
    ensures forall i :: 0 <= i < |vs| ==> vs[i] == VertexAt(m, i)
  {
    seq(|m.positions|, i requires 0 <= i < |m.positions| => VertexAt(m, i))
  }

  /** The vertex loop of ProcessMesh. */
  method ReadVertices(m: MeshData) returns (vs: seq<Vertex>)
    requires MeshStreamsAgree(m)
    ensures vs == VerticesOf(m)
  {
    vs := [];
    var i := 0;
    while i < |m.positions|
      invariant 0 <= i <= |m.positions| && |vs| == i
      invariant forall k :: 0 <= k < i ==> vs[k] == VertexAt(m, k)
    {
      var normal: Option<Vec3> := None;
      if m.normals.Some? {
        normal := Some(m.normals.value[i]);
      }
      var uv: Vec2;
      if m.uvs.Some? {
        uv := m.uvs.value[i];
      } else {
        uv := ZeroUV;
      }
      vs := vs + [Vertex(m.positions[i], normal, uv)];
      i := i + 1;
    }
  }

  /** The index list: every face's indices, face after face. */
  method ReadIndices(faces: seq<seq<nat>>) returns (indices: seq<nat>)
    ensures indices == FlattenFaces(faces)
  {
    indices := [];
    var i := 0;
    while i < |faces|
      invariant 0 <= i <= |faces|
      invariant indices == FlattenFaces(faces[..i])
    {
      var j := 0;
      ghost var before := indices;
      while j < |faces[i]|
        invariant 0 <= j <= |faces[i]|
        invariant indices == before + faces[i][..j]
      {
        indices := indices + [faces[i][j]];
        j := j + 1;
      }
      assert faces[i][..j] == faces[i];
      assert faces[..i + 1][..i] == faces[..i];
      i := i + 1;
    }
    assert faces[..i] == faces;
  }

  /** Every face index occurs in the flattened list, at its face's offset. */
  lemma {:induction false} FlattenFacesPosition(faces: seq<seq<nat>>, f: nat, j: nat)
    requires f < |faces| && j < |faces[f]|
    ensures |FlattenFaces(faces[..f])| + j < |FlattenFaces(faces)|
    ensures FlattenFaces(faces)[|FlattenFaces(faces[..f])| + j] == faces[f][j]
  {
    assert faces == faces[..f] + [faces[f]] + faces[f + 1..];
    FlattenFacesAppend(faces[..f] + [faces[f]], faces[f + 1..]);
    FlattenFacesAppend(faces[..f], [faces[f]]);
    assert [faces[f]][..0] == faces[..0];
    assert FlattenFaces([faces[f]]) == faces[f];
  }

  predicate IndicesBelow(idxs: seq<nat>, count: nat)
  {
    forall i :: 0 <= i < |idxs| ==> idxs[i] < count
  }

  /** The table entries for a list of mesh indices, in list order. */
  function Select<T>(table: seq<T>, idxs: seq<nat>): (r: seq<T>)
    requires IndicesBelow(idxs, |table|)
    ensures |r| == |idxs|
  {
    if idxs == [] then [] else Select(table, idxs[..|idxs| - 1]) + [table[idxs[|idxs| - 1]]]
  }

  lemma {:induction false} SelectAppend<T>(table: seq<T>, a: seq<nat>, b: seq<nat>)
    requires IndicesBelow(a, |table|) && IndicesBelow(b, |table|)
    ensures IndicesBelow(a + b, |table|)
    ensures Select(table, a + b) == Select(table, a) + Select(table, b)
    decreases |b|
  {
    if b == [] {
      assert a + b == a;
    } else {
      assert (a + b)[..|a + b| - 1] == a + b[..|b| - 1];
      SelectAppend(table, a, b[..|b| - 1]);
    }
  }

  lemma SelectSnoc<T>(table: seq<T>, idxs: seq<nat>, i: nat)
    requires IndicesBelow(idxs, |table|) && i < |idxs|
    ensures Select(table, idxs[..i + 1]) == Select(table, idxs[..i]) + [table[idxs[i]]]
  {
    assert idxs[..i + 1][..i] == idxs[..i];
  }

  /** Slot i of the selection is the table entry for the i-th index. */
  lemma {:induction false} SelectAt<T>(table: seq<T>, idxs: seq<nat>, i: nat)
    requires IndicesBelow(idxs, |table|) && i < |idxs|
    ensures Select(table, idxs)[i] == table[idxs[i]]
    decreases |idxs|
  {
    if i < |idxs| - 1 {
      SelectAt(table, idxs[..|idxs| - 1], i);
    }
  }

  /** Every index MeshOrder lists names a mesh of the scene. */
  lemma {:induction false} MeshOrderInRange(n: SceneNode, count: nat)
    requires NodeMeshesInRange(n, count)
    ensures IndicesBelow(MeshOrder(n), count)
    decreases n, |n.children| + 1
  {
    MeshOrderPrefixInRange(n, |n.children|, count);
  }

  lemma {:induction false} MeshOrderPrefixInRange(n: SceneNode, k: nat, count: nat)
    requires k <= |n.children| && NodeMeshesInRange(n, count)
    ensures IndicesBelow(MeshOrderPrefix(n, k), count)
    decreases n, k
  {
    if k > 0 {
      MeshOrderPrefixInRange(n, k - 1, count);
      assert n.children[k - 1] in n.children;
      MeshOrderInRange(n.children[k - 1], count);
    }
  }

  /** A texture group: the type it loads as and its source types, most preferred first. */
  datatype Group = Group(kind: TextureType, sources: seq<TextureSource>)

  /** The six groups; their textures are appended in this order. */
  const AlbedoGroup := Group(Albedo, [Diffuse, BaseColor])
  const NormalGroup := Group(Normal, [Normals, Height, NormalCamera])
  const EmissionGroup := Group(Emission, [Emissive, EmissionColor])
  const MetalnessGroup := Group(Metalness, [Specular])
  const RoughnessGroup := Group(Roughness, [Shininess])
  const OcclusionGroup := Group(TextureType.AmbientOcclusion, [Lightmap, Ambient, TextureSource.AmbientOcclusion])

  /** The first source type the material has any texture of. */
  function ChosenSource(m: Material, sources: seq<TextureSource>): (r: Option<nat>)
    ensures r.Some? ==> r.value < |sources| && TextureCount(m, sources[r.value]) > 0
    ensures r.Some? ==> forall j :: 0 <= j < r.value ==> TextureCount(m, sources[j]) == 0
    ensures r.None? <==> forall j :: 0 <= j < |sources| ==> TextureCount(m, sources[j]) == 0
  {
    if sources == [] then None
    else if TextureCount(m, sources[0]) > 0 then Some(0)
    else match ChosenSource(m, sources[1..])
      case None => None
      case Some(i) => Some(i + 1)
  }

  /** Index of the first already-loaded texture with the given path. */
  function FirstWithPath(loaded: seq<Texture>, path: string): (r: Option<nat>)
    ensures r.Some? ==> r.value < |loaded| && loaded[r.value].path == path
    ensures r.Some? ==> forall j :: 0 <= j < r.value ==> loaded[j].path != path
    ensures r.None? <==> forall j :: 0 <= j < |loaded| ==> loaded[j].path != path
  {
    if loaded == [] then None
    else if loaded[0].path == path then Some(0)
    else match FirstWithPath(loaded[1..], path)
      case None => None
      case Some(i) => Some(i + 1)
  }

  /**
   * The texture for one material slot: an already-loaded texture whose path is
   * the directory and name run together, else a new one under directory + "/".
   */
  function SlotTexture(loaded: seq<Texture>, directory: string, name: string, kind: TextureType, albedoSrgb: bool): Texture
  {
    match FirstWithPath(loaded, directory + name)
    case Some(j) => loaded[j]
    case None => Texture(kind, directory + "/" + name, albedoSrgb && kind == Albedo)
  }

  /** The textures of every slot of one source type, in slot order. */
  function SlotTextures(m: Material, source: TextureSource, kind: TextureType, directory: string,
                        loaded: seq<Texture>, albedoSrgb: bool): (r: seq<Texture>)
    ensures |r| == TextureCount(m, source)
  {
    SlotTexturesPrefix(m, source, kind, directory, loaded, albedoSrgb, TextureCount(m, source))
  }

  function SlotTexturesPrefix(m: Material, source: TextureSource, kind: TextureType, directory: string,
                              loaded: seq<Texture>, albedoSrgb: bool, n: nat): (r: seq<Texture>)
    requires n <= TextureCount(m, source)
    ensures |r| == n
  {
    if n == 0 then []
    else
      SlotTexturesPrefix(m, source, kind, directory, loaded, albedoSrgb, n - 1)
      + [SlotTexture(loaded, directory, TextureName(m, source, n - 1), kind, albedoSrgb)]
  }

  /** The search for an already-loaded texture with the given path: a loop that stops at the first match. */
  method FindLoaded(loaded: seq<Texture>, path: string) returns (r: Option<nat>)
    ensures r == FirstWithPath(loaded, path)
  {
    r := Option.None;
    var j := 0;
    while j < |loaded|
      invariant 0 <= j <= |loaded|
      invariant forall k :: 0 <= k < j ==> loaded[k].path != path
    {
      if loaded[j].path == path {
        r := Some(j);
        break;
      }
      j := j + 1;
    }
  }

  /**
   * LoadMaterialTextures: for each slot of the source type, reuse the first
   * loaded texture whose path matches, else create one. The sRGB flag is set
   * for albedo textures only when the loader asks for it.
   */
  method LoadMaterialTextures(m: Material, source: TextureSource, kind: TextureType, directory: string,
                              loaded: seq<Texture>, albedoSrgb: bool) returns (textures: seq<Texture>)
    ensures textures == SlotTextures(m, source, kind, directory, loaded, albedoSrgb)
  {
    textures := [];
    var i := 0;
    while i < TextureCount(m, source)
      invariant 0 <= i <= TextureCount(m, source)
      invariant textures == SlotTexturesPrefix(m, source, kind, directory, loaded, albedoSrgb, i)
    {
      var name := TextureName(m, source, i);
      ghost var expected := SlotTexture(loaded, directory, name, kind, albedoSrgb);
      assert SlotTexturesPrefix(m, source, kind, directory, loaded, albedoSrgb, i + 1)
        == textures + [expected];
      var found := FindLoaded(loaded, directory + name);
      var texture: Texture;
      if found.Some? {
        texture := loaded[found.value];
      } else if kind == Albedo {
        texture := Texture(kind, directory + "/" + name, albedoSrgb);
      } else {
        texture := Texture(kind, directory + "/" + name, false);
      }
      assert texture == expected;
      textures := textures + [texture];
      i := i + 1;
    }
  }

  /** Slot i of the list is the texture for the material's slot i of that type. */
  lemma {:induction false} SlotTexturesPrefixAt(m: Material, source: TextureSource, kind: TextureType, directory: string,
                                                loaded: seq<Texture>, albedoSrgb: bool, n: nat, i: nat)
    requires i < n <= TextureCount(m, source)
    ensures SlotTexturesPrefix(m, source, kind, directory, loaded, albedoSrgb, n)[i]
      == SlotTexture(loaded, directory, TextureName(m, source, i), kind, albedoSrgb)
    decreases n
  {
    if i < n - 1 {
      SlotTexturesPrefixAt(m, source, kind, directory, loaded, albedoSrgb, n - 1, i);
    }
  }

  /** With nothing loaded before, every slot yields a new texture under directory + "/". */
  lemma FreshWhenNothingLoaded(m: Material, source: TextureSource, kind: TextureType, directory: string,
                               albedoSrgb: bool, i: nat)
    requires i < TextureCount(m, source)
    ensures SlotTextures(m, source, kind, directory, [], albedoSrgb)[i]
      == Texture(kind, directory + "/" + TextureName(m, source, i), albedoSrgb && kind == Albedo)
  {
    SlotTexturesPrefixAt(m, source, kind, directory, [], albedoSrgb, TextureCount(m, source), i);
  }

  /** The textures of one group: those of its first source type that has any, else none. */
  function GroupTextures(m: Material, g: Group, directory: string, loaded: seq<Texture>, albedoSrgb: bool): seq<Texture>
  {
    match ChosenSource(m, g.sources)
    case None => []
    case Some(j) => SlotTextures(m, g.sources[j], g.kind, directory, loaded, albedoSrgb)
  }

  /** The material's textures: each group's, in group order. */
  function MaterialTextures(m: Material, directory: string, loaded: seq<Texture>, albedoSrgb: bool): seq<Texture>
  {
    GroupTextures(m, AlbedoGroup, directory, loaded, albedoSrgb)
    + GroupTextures(m, NormalGroup, directory, loaded, albedoSrgb)
    + GroupTextures(m, EmissionGroup, directory, loaded, albedoSrgb)
    + GroupTextures(m, MetalnessGroup, directory, loaded, albedoSrgb)
    + GroupTextures(m, RoughnessGroup, directory, loaded, albedoSrgb)
    + GroupTextures(m, OcclusionGroup, directory, loaded, albedoSrgb)
  }

  /**
   * One group's if / else-if chain: load the textures of the first source
   * type, in priority order, that the material has any of.
   */
  method LoadGroup(m: Material, g: Group, directory: string, loaded: seq<Texture>, albedoSrgb: bool)
    returns (textures: seq<Texture>)
    requires 1 <= |g.sources| <= 3
    ensures textures == GroupTextures(m, g, directory, loaded, albedoSrgb)
  {
    textures := [];
    if TextureCount(m, g.sources[0]) > 0 {
      textures := LoadMaterialTextures(m, g.sources[0], g.kind, directory, loaded, albedoSrgb);
    } else if |g.sources| >= 2 && TextureCount(m, g.sources[1]) > 0 {
      textures := LoadMaterialTextures(m, g.sources[1], g.kind, directory, loaded, albedoSrgb);
    } else if |g.sources| >= 3 && TextureCount(m, g.sources[2]) > 0 {
      textures := LoadMaterialTextures(m, g.sources[2], g.kind, directory, loaded, albedoSrgb);
    }
    GroupChoice(m, g, directory, loaded, albedoSrgb);
  }

  /** The texture part of ProcessMesh: the six groups' textures appended in group order. */
  method ReadMaterial(m: Material, directory: string, loaded: seq<Texture>, albedoSrgb: bool)
    returns (textures: seq<Texture>)
    ensures textures == MaterialTextures(m, directory, loaded, albedoSrgb)
  {
    var albedo := LoadGroup(m, AlbedoGroup, directory, loaded, albedoSrgb);
    var normal := LoadGroup(m, NormalGroup, directory, loaded, albedoSrgb);
    var emission := LoadGroup(m, EmissionGroup, directory, loaded, albedoSrgb);
    var metalness := LoadGroup(m, MetalnessGroup, directory, loaded, albedoSrgb);
    var roughness := LoadGroup(m, RoughnessGroup, directory, loaded, albedoSrgb);
    var occlusion := LoadGroup(m, OcclusionGroup, directory, loaded, albedoSrgb);
    textures := albedo + normal + emission + metalness + roughness + occlusion;
  }

  /** A group's textures, spelled out as the if / else-if chain over its (at most three) source types. */
  lemma GroupChoice(m: Material, g: Group, directory: string, loaded: seq<Texture>, albedoSrgb: bool)
    requires 1 <= |g.sources| <= 3
    ensures var n := |g.sources|;
      GroupTextures(m, g, directory, loaded, albedoSrgb)
      == if TextureCount(m, g.sources[0]) > 0 then SlotTextures(m, g.sources[0], g.kind, directory, loaded, albedoSrgb)
         else if n >= 2 && TextureCount(m, g.sources[1]) > 0 then SlotTextures(m, g.sources[1], g.kind, directory, loaded, albedoSrgb)
         else if n >= 3 && TextureCount(m, g.sources[2]) > 0 then SlotTextures(m, g.sources[2], g.kind, directory, loaded, albedoSrgb)
         else []
  {
    var r := ChosenSource(m, g.sources);
    if TextureCount(m, g.sources[0]) > 0 {
      assert r == Some(0);
    } else if |g.sources| >= 2 && TextureCount(m, g.sources[1]) > 0 {
      assert r == Some(1);
    } else if |g.sources| >= 3 && TextureCount(m, g.sources[2]) > 0 {
      assert r == Some(2);
    } else {
      assert r == Option.None;
    }
  }

  /** With nothing loaded before, a group's textures all carry its type, and sRGB only for albedo when asked. */
  lemma GroupTexturesFresh(m: Material, g: Group, directory: string, albedoSrgb: bool)
    ensures forall t :: t in GroupTextures(m, g, directory, [], albedoSrgb) ==>
      t.kind == g.kind && t.srgb == (albedoSrgb && g.kind == Albedo)
  {
    match ChosenSource(m, g.sources)
    case None =>
    case Some(j) =>
      var src := g.sources[j];
      forall t | t in SlotTextures(m, src, g.kind, directory, [], albedoSrgb)
        ensures t.kind == g.kind && t.srgb == (albedoSrgb && g.kind == Albedo)
      {
        var i :| 0 <= i < TextureCount(m, src) && SlotTextures(m, src, g.kind, directory, [], albedoSrgb)[i] == t;
        FreshWhenNothingLoaded(m, src, g.kind, directory, albedoSrgb, i);
      }
  }

  /** Position of a texture type in the group order. */
  function Rank(k: TextureType): nat
  {
    match k
    case NoType => 0
    case Albedo => 1
    case Normal => 2
    case Emission => 3
    case Metalness => 4
    case Roughness => 5
    case AmbientOcclusion => 6
  }

  predicate RanksSorted(ts: seq<Texture>)
  {
    forall i, j :: 0 <= i < j < |ts| ==> Rank(ts[i].kind) <= Rank(ts[j].kind)
  }

  predicate RanksAtMost(ts: seq<Texture>, k: nat)
  {
    forall i :: 0 <= i < |ts| ==> Rank(ts[i].kind) <= k
  }

  predicate RanksAre(ts: seq<Texture>, k: nat)
  {
    forall i :: 0 <= i < |ts| ==> Rank(ts[i].kind) == k
  }

  lemma AppendSorted(a: seq<Texture>, b: seq<Texture>, k: nat)
    requires RanksSorted(a) && RanksAtMost(a, k) && RanksAre(b, k)
    ensures RanksSorted(a + b) && RanksAtMost(a + b, k)
  {
  }

  /**
   * With nothing loaded before, a material's textures come grouped in the order
   * albedo, normal, emission, metalness, roughness, ambient occlusion.
   */
  lemma MaterialTexturesOrdered(m: Material, directory: string, albedoSrgb: bool)
    ensures RanksSorted(MaterialTextures(m, directory, [], albedoSrgb))
  {
    var a := GroupTextures(m, AlbedoGroup, directory, [], albedoSrgb);
    var n := GroupTextures(m, NormalGroup, directory, [], albedoSrgb);
    var e := GroupTextures(m, EmissionGroup, directory, [], albedoSrgb);
    var me := GroupTextures(m, MetalnessGroup, directory, [], albedoSrgb);
    var r := GroupTextures(m, RoughnessGroup, directory, [], albedoSrgb);
    var o := GroupTextures(m, OcclusionGroup, directory, [], albedoSrgb);
    GroupRanks(m, AlbedoGroup, directory, albedoSrgb);
    GroupRanks(m, NormalGroup, directory, albedoSrgb);
    GroupRanks(m, EmissionGroup, directory, albedoSrgb);
    GroupRanks(m, MetalnessGroup, directory, albedoSrgb);
    GroupRanks(m, RoughnessGroup, directory, albedoSrgb);
    GroupRanks(m, OcclusionGroup, directory, albedoSrgb);
    GroupsSorted(a, n, e, me, r, o);
  }

  /** Six lists whose ranks are 1 to 6, in that order, concatenate to a sorted list. */
  lemma GroupsSorted(a: seq<Texture>, n: seq<Texture>, e: seq<Texture>, me: seq<Texture>, r: seq<Texture>, o: seq<Texture>)
    requires RanksAre(a, 1) && RanksAre(n, 2) && RanksAre(e, 3)
    requires RanksAre(me, 4) && RanksAre(r, 5) && RanksAre(o, 6)
    ensures RanksSorted(a + n + e + me + r + o)
  {
    AppendSorted(a, n, 2);
    AppendSorted(a + n, e, 3);
    AppendSorted(a + n + e, me, 4);
    AppendSorted(a + n + e + me, r, 5);
    AppendSorted(a + n + e + me + r, o, 6);
  }

  lemma GroupRanks(m: Material, g: Group, directory: string, albedoSrgb: bool)
    ensures var ts := GroupTextures(m, g, directory, [], albedoSrgb);
      RanksSorted(ts) && RanksAre(ts, Rank(g.kind))
  {
    var ts := GroupTextures(m, g, directory, [], albedoSrgb);
    GroupTexturesFresh(m, g, directory, albedoSrgb);
    forall i | 0 <= i < |ts| ensures Rank(ts[i].kind) == Rank(g.kind) {
      assert ts[i] in ts;
    }
  }

  /**
   * With nothing loaded before, every texture has a real type, and only albedo
   * textures carry the sRGB flag, and only when the loader asks for it.
   */
  lemma MaterialTexturesSrgb(m: Material, directory: string, albedoSrgb: bool)
    ensures forall t :: t in MaterialTextures(m, directory, [], albedoSrgb) ==>
      t.kind != NoType && (t.srgb <==> albedoSrgb && t.kind == Albedo)
  {
    GroupTexturesFresh(m, AlbedoGroup, directory, albedoSrgb);
    GroupTexturesFresh(m, NormalGroup, directory, albedoSrgb);
    GroupTexturesFresh(m, EmissionGroup, directory, albedoSrgb);
    GroupTexturesFresh(m, MetalnessGroup, directory, albedoSrgb);
    GroupTexturesFresh(m, RoughnessGroup, directory, albedoSrgb);
    GroupTexturesFresh(m, OcclusionGroup, directory, albedoSrgb);
  }
}
