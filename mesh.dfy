/**
 * Meshes as the renderer draws them: the naming of the texture sampler
 * uniforms, the default textures on the top texture units, and the ownership
 * of the three GL handles when a mesh is copied, moved or assigned. The static
 * and the skinned mesh share all of this code and differ only in their vertex
 * type, so both are Mesh<V> here.
 */
module Meshes {
  import opened Textures
  import opened Text

  /** The number of texture types, TYPESCOUNT: the size of the per-type counter array. */
  const TypesCount: nat := 7

  /** A type's position in the enum, which indexes the counters. */
  function TypeIndex(t: TextureType): (k: nat)
    ensures k < TypesCount
  {
    match t
    case NoType => 0
    case Albedo => 1
    case Normal => 2
    case Emission => 3
    case Metalness => 4
    case Roughness => 5
    case AmbientOcclusion => 6
  }

  lemma TypeIndexInjective(t1: TextureType, t2: TextureType)
    ensures TypeIndex(t1) == TypeIndex(t2) ==> t1 == t2
  {
  }

  /** The sampler array a named texture type writes; NONE has no name of its own. */
  function TypeName(t: TextureType): (name: string)
    requires t != NoType
  {
    match t
    case Albedo => "albedo"
    case Normal => "normal"
    case Emission => "emission"
    case Metalness => "metalness"
    case Roughness => "roughness"
    case AmbientOcclusion => "ambientocclusion"
  }

  /** Different named types write different sampler arrays. */
  lemma TypeNameInjective(t1: TextureType, t2: TextureType)
    requires t1 != NoType && t2 != NoType
    ensures TypeName(t1) == TypeName(t2) ==> t1 == t2
  {
  }

  /**
   * The name in force after the textures of `kinds` have been named: that of
   * the last texture with a named type, "" before any. A NONE texture leaves
   * the name as it was.
   */
  function LastName(kinds: seq<TextureType>): string
  {
    if |kinds| == 0 then ""
    else if kinds[|kinds| - 1] == NoType then LastName(kinds[..|kinds| - 1])
    else TypeName(kinds[|kinds| - 1])
  }

  /** How many of `kinds` are `t`. */
  function CountOf(kinds: seq<TextureType>, t: TextureType): nat
  {
    multiset(kinds)[t]
  }

  /**
   * The sampler uniform texture `i` is assigned to: "material.<name>[k]", with
   * the name in force after it and k the number of earlier textures of its type.
   */
  function SamplerUniform(kinds: seq<TextureType>, i: nat): string
    requires i < |kinds|
  {
    Indexed("material." + LastName(kinds[..i + 1]), CountOf(kinds[..i], kinds[i]))
  }

  function Kinds(textures: seq<Texture>): (kinds: seq<TextureType>)
    ensures |kinds| == |textures|
    ensures forall i :: 0 <= i < |textures| ==> kinds[i] == textures[i].kind
  {
    seq(|textures|, i requires 0 <= i < |textures| => textures[i].kind)
  }

  /** One Shader.setInt call. */
  datatype SamplerSetting = SamplerSetting(uniform: string, unit: int)

  /** The settings of a draw's texture loop: texture i's sampler uniform gets unit i. */
  function Samplers(kinds: seq<TextureType>): (ws: seq<SamplerSetting>)
    ensures |ws| == |kinds|
    ensures forall i :: 0 <= i < |kinds| ==> ws[i] == SamplerSetting(SamplerUniform(kinds, i), i)
  {
    seq(|kinds|, i requires 0 <= i < |kinds| => SamplerSetting(SamplerUniform(kinds, i), i))
  }

  /** The integer uniforms after the settings, in order: a later setting of the same uniform wins. */
  function WriteInts(m: map<string, int>, ws: seq<SamplerSetting>): map<string, int>
  {
    if |ws| == 0 then m
    else WriteInts(m, ws[..|ws| - 1])[ws[|ws| - 1].uniform := ws[|ws| - 1].unit]
  }

  /** A uniform that no setting names keeps its value. */
  lemma {:induction false} WriteIntsUntouched(m: map<string, int>, ws: seq<SamplerSetting>, u: string)
    requires forall k :: 0 <= k < |ws| ==> ws[k].uniform != u
    ensures u in m ==> u in WriteInts(m, ws) && WriteInts(m, ws)[u] == m[u]
    ensures u !in m ==> u !in WriteInts(m, ws)
  {
    if |ws| > 0 {
      WriteIntsUntouched(m, ws[..|ws| - 1], u);
    }
  }

  /** When the settings name distinct uniforms, each uniform ends with its own setting's unit. */
  lemma {:induction false} WriteIntsDistinct(m: map<string, int>, ws: seq<SamplerSetting>, i: nat)
    requires forall a, b :: 0 <= a < b < |ws| ==> ws[a].uniform != ws[b].uniform
    requires i < |ws|
    ensures ws[i].uniform in WriteInts(m, ws) && WriteInts(m, ws)[ws[i].uniform] == ws[i].unit
  {
    var n := |ws| - 1;
    if i < n {
      WriteIntsDistinct(m, ws[..n], i);
    }
  }

  /** The units after binding default i to unit 31 - i, in order. */
  function BoundDefaults(units: map<int, Texture>, defaults: seq<Texture>): map<int, Texture>
  {
    if |defaults| == 0 then units
    else BoundDefaults(units, defaults[..|defaults| - 1])[32 - |defaults| := defaults[|defaults| - 1]]
  }

  /** Units 31 down to 32 - |defaults| hold the defaults in order; every other unit keeps its texture. */
  lemma {:induction false} BoundDefaultsAt(units: map<int, Texture>, defaults: seq<Texture>, k: int)
    ensures 31 - |defaults| < k <= 31 ==>
      k in BoundDefaults(units, defaults) && BoundDefaults(units, defaults)[k] == defaults[31 - k]
    ensures !(31 - |defaults| < k <= 31) ==>
      && (k in BoundDefaults(units, defaults) <==> k in units)
      && (k in units ==> BoundDefaults(units, defaults)[k] == units[k])
  {
    if |defaults| > 0 {
      var n := |defaults| - 1;
      BoundDefaultsAt(units, defaults[..n], k);
      if 31 - n < k <= 31 {
        assert defaults[..n][31 - k] == defaults[31 - k];
      }
    }
  }

  /** The units after a draw binds texture i to unit i. */
  function BoundTextures(units: map<int, Texture>, textures: seq<Texture>): map<int, Texture>
  {
    units + map u | 0 <= u < |textures| :: textures[u]
  }

  /** Binding the same defaults again changes nothing. */
  lemma BoundDefaultsIdempotent(units: map<int, Texture>, defaults: seq<Texture>)
    ensures BoundDefaults(BoundDefaults(units, defaults), defaults) == BoundDefaults(units, defaults)
  {
    var once := BoundDefaults(units, defaults);
    var twice := BoundDefaults(once, defaults);
    forall k | k in twice || k in once
      ensures k in twice && k in once && twice[k] == once[k]
    {
      BoundDefaultsAt(units, defaults, k);
      BoundDefaultsAt(once, defaults, k);
    }
    assert twice.Keys == once.Keys;
  }

  /** "material.<type>[0]": the sampler uniform of the first texture of a named type. */
  function FirstSampler(t: TextureType): string
    requires t != NoType
  {
    Indexed("material." + TypeName(t), 0)
  }

  lemma FirstSamplerNames()
    ensures FirstSampler(Albedo) == "material.albedo[0]"
    ensures FirstSampler(Normal) == "material.normal[0]"
    ensures FirstSampler(Emission) == "material.emission[0]"
    ensures FirstSampler(Metalness) == "material.metalness[0]"
    ensures FirstSampler(Roughness) == "material.roughness[0]"
    ensures FirstSampler(AmbientOcclusion) == "material.ambientocclusion[0]"
  {
    assert NatToString(0) == "0";
  }

  /** ResetTextures' fixed sampler assignments: units 31 down to 26, in the order of the types. */
  function ResetSamplers(ints: map<string, int>): map<string, int>
  {
    ints[FirstSampler(Albedo) := 31][FirstSampler(Normal) := 30][FirstSampler(Emission) := 29]
      [FirstSampler(Metalness) := 28][FirstSampler(Roughness) := 27][FirstSampler(AmbientOcclusion) := 26]
  }

  lemma ResetSamplersIdempotent(ints: map<string, int>)
    ensures ResetSamplers(ResetSamplers(ints)) == ResetSamplers(ints)
  {
  }

  const DefaultsDirectory: string := "res/textures/DefaultTextures/"

  /** The defaults in load order; only the base colour is loaded as sRGB. */
  function StandardDefaults(): (d: seq<Texture>)
    ensures |d| == 6
  {
    [ Texture(NoType, DefaultsDirectory + "BaseColor.png", true),
      Texture(NoType, DefaultsDirectory + "Normal.png", false),
      Texture(NoType, DefaultsDirectory + "Emissive.png", false),
      Texture(NoType, DefaultsDirectory + "Roughness.png", false),
      Texture(NoType, DefaultsDirectory + "Metalness.png", false),
      Texture(NoType, DefaultsDirectory + "AO.png", false) ]
  }

  /**
   * Which default each reset sampler reads: albedo, normal, emission and ambient
   * occlusion read the file of their own name, but the load order puts
   * Roughness.png on unit 28 and Metalness.png on unit 27, so the metalness
   * sampler reads the roughness default and the roughness sampler the metalness one.
   */
  lemma DefaultSamplerFiles(units: map<int, Texture>, ints: map<string, int>)
    ensures var u, s := BoundDefaults(units, StandardDefaults()), ResetSamplers(ints);
      && s[FirstSampler(Albedo)] in u && u[s[FirstSampler(Albedo)]].path == DefaultsDirectory + "BaseColor.png"
      && s[FirstSampler(Normal)] in u && u[s[FirstSampler(Normal)]].path == DefaultsDirectory + "Normal.png"
      && s[FirstSampler(Emission)] in u && u[s[FirstSampler(Emission)]].path == DefaultsDirectory + "Emissive.png"
      && s[FirstSampler(Metalness)] in u && u[s[FirstSampler(Metalness)]].path == DefaultsDirectory + "Roughness.png"
      && s[FirstSampler(Roughness)] in u && u[s[FirstSampler(Roughness)]].path == DefaultsDirectory + "Metalness.png"
      && s[FirstSampler(AmbientOcclusion)] in u
      && u[s[FirstSampler(AmbientOcclusion)]].path == DefaultsDirectory + "AO.png"
  {
    FirstSamplerNames();
    var d := StandardDefaults();
    BoundDefaultsAt(units, d, 31);
    BoundDefaultsAt(units, d, 30);
    BoundDefaultsAt(units, d, 29);
    BoundDefaultsAt(units, d, 28);
    BoundDefaultsAt(units, d, 27);
    BoundDefaultsAt(units, d, 26);
  }

  datatype DrawCall = DrawElements(count: nat) | DrawElementsInstanced(count: nat, instances: nat)

  /** One instance is drawn plainly; any other count, zero included, goes through the instanced call. */
  function DrawCallFor(indexCount: nat, amount: nat): (c: DrawCall)
    ensures c.count == indexCount
    ensures c.DrawElements? <==> amount == 1
    ensures c.DrawElementsInstanced? ==> c.instances == amount
  {
    if amount == 1 then DrawElements(indexCount) else DrawElementsInstanced(indexCount, amount)
  }

  /** The GL state a draw touches: the texture on each unit, the bound shader's integer uniforms, the draw calls issued. */
  class RenderState {
    var units: map<int, Texture>
    var ints: map<string, int>
    var draws: seq<DrawCall>

    constructor ()
      ensures units == map[] && ints == map[] && draws == []
    {
      units := map[];
      ints := map[];
      draws := [];
    }
  }

  /** The static DefaultTextures list of a mesh class, shared by all its meshes. */
  class DefaultTextureList {
    var textures: seq<Texture>

    constructor ()
      ensures textures == []
    {
      textures := [];
    }
  }

  /** Binds default i to unit 31 - i. */
  method BindDefaults(defaults: seq<Texture>, gl: RenderState)
    modifies gl`units
    ensures gl.units == BoundDefaults(old(gl.units), defaults)
  {
    var i := 0;
    while i < |defaults|
      invariant 0 <= i <= |defaults|
      invariant gl.units == BoundDefaults(old(gl.units), defaults[..i])
    {
      assert defaults[..i + 1][..i] == defaults[..i];
      gl.units := gl.units[31 - i := defaults[i]];
      i := i + 1;
    }
    assert defaults[..i] == defaults;
  }

  /** Rebinds the defaults and points the first sampler of each named type at its default's unit. */
  method ResetTextures(defaults: seq<Texture>, gl: RenderState)
    modifies gl`units, gl`ints
    ensures gl.units == BoundDefaults(old(gl.units), defaults)
    ensures gl.ints == ResetSamplers(old(gl.ints))
  {
    BindDefaults(defaults, gl);
    FirstSamplerNames();
    gl.ints := gl.ints["material.albedo[0]" := 31];
    gl.ints := gl.ints["material.normal[0]" := 30];
    gl.ints := gl.ints["material.emission[0]" := 29];
    gl.ints := gl.ints["material.metalness[0]" := 28];
    gl.ints := gl.ints["material.roughness[0]" := 27];
    gl.ints := gl.ints["material.ambientocclusion[0]" := 26];
  }

  class Mesh<V> {
    var vertices: seq<V>
    var indices: seq<nat>
    var textures: seq<Texture>
    var vbo: nat
    var vao: nat
    var ebo: nat

    /**
     * Stores the mesh data. The first mesh of its class loads the six defaults
     * and binds them to units 31 down to 26; later meshes find the list filled
     * and leave it. `vao`, `vbo` and `ebo` are the names SetupMesh gets from GL.
     */
    constructor (vertices: seq<V>, indices: seq<nat>, textures: seq<Texture>,
                 defaults: DefaultTextureList, gl: RenderState, vao: nat, vbo: nat, ebo: nat)
      modifies defaults, gl`units
      ensures this.vertices == vertices && this.indices == indices && this.textures == textures
      ensures this.vao == vao && this.vbo == vbo && this.ebo == ebo
      ensures old(defaults.textures) == [] ==>
        defaults.textures == StandardDefaults() && gl.units == BoundDefaults(old(gl.units), StandardDefaults())
      ensures old(defaults.textures) != [] ==>
        defaults.textures == old(defaults.textures) && gl.units == old(gl.units)
    {
      this.vertices := vertices;
      this.indices := indices;
      this.textures := textures;
      this.vao := vao;
      this.vbo := vbo;
      this.ebo := ebo;
      new;
      if defaults.textures == [] {
        defaults.textures := StandardDefaults();
        BindDefaults(defaults.textures, gl);
      }
    }

    /**
     * The copy and the move constructor alike: the new mesh takes the data and
     * the three handles, and the source is left holding handle 0, so the GL
     * objects have one owner.
     */
    constructor Transfer(other: Mesh<V>)
      modifies other
      ensures vertices == old(other.vertices) && indices == old(other.indices) && textures == old(other.textures)
      ensures vao == old(other.vao) && vbo == old(other.vbo) && ebo == old(other.ebo)
      ensures other.vao == 0 && other.vbo == 0 && other.ebo == 0
      ensures other.vertices == old(other.vertices) && other.indices == old(other.indices)
      ensures other.textures == old(other.textures)
    {
      vertices := other.vertices;
      indices := other.indices;
      textures := other.textures;
      vao := other.vao;
      vbo := other.vbo;
      ebo := other.ebo;
      new;
      other.vbo := 0;
      other.vao := 0;
      other.ebo := 0;
    }

    /** The destructor: handle 0 and empty data. */
    method Destroy()
      modifies this
      ensures vao == 0 && vbo == 0 && ebo == 0
      ensures vertices == [] && indices == [] && textures == []
    {
      vbo := 0;
      ebo := 0;
      vao := 0;
      vertices := [];
      indices := [];
      textures := [];
    }

    /**
     * The copy and the move assignment alike. Assigning a mesh to itself does
     * nothing. Otherwise this mesh is destroyed, takes the source's handles by
     * swap, so the source is left holding handle 0, and copies its data.
     */
    method Assign(other: Mesh<V>)
      modifies this, other
      ensures other == this ==> unchanged(this)
      ensures other != this ==>
        && vertices == old(other.vertices) && indices == old(other.indices) && textures == old(other.textures)
        && vao == old(other.vao) && vbo == old(other.vbo) && ebo == old(other.ebo)
        && other.vao == 0 && other.vbo == 0 && other.ebo == 0
        && other.vertices == old(other.vertices) && other.indices == old(other.indices)
        && other.textures == old(other.textures)
    {
      if this != other {
        Destroy();
        vbo, other.vbo := other.vbo, vbo;
        vao, other.vao := other.vao, vao;
        ebo, other.ebo := other.ebo, ebo;
        vertices := other.vertices;
        indices := other.indices;
        textures := other.textures;
      }
    }

    /**
     * Resets the default samplers (twice, as the source does), binds texture i
     * to unit i, points its sampler uniform at unit i, and issues the draw.
     */
    method Draw(amount: nat, defaults: DefaultTextureList, gl: RenderState)
      modifies gl
      ensures gl.units == BoundTextures(BoundDefaults(old(gl.units), defaults.textures), textures)
      ensures gl.ints == WriteInts(ResetSamplers(old(gl.ints)), Samplers(Kinds(textures)))
      ensures gl.draws == old(gl.draws) + [DrawCallFor(|indices|, amount)]
    {
      ResetTextures(defaults.textures, gl);
      ResetTextures(defaults.textures, gl);
      BoundDefaultsIdempotent(old(gl.units), defaults.textures);
      ResetSamplersIdempotent(old(gl.ints));
      BindAndName(gl);
      if amount == 1 {
        gl.draws := gl.draws + [DrawElements(|indices|)];
      } else {
        gl.draws := gl.draws + [DrawElementsInstanced(|indices|, amount)];
      }
    }

    /** The texture loop of Draw, with the per-type counters and the name carried between textures. */
    method BindAndName(gl: RenderState)
      modifies gl`units, gl`ints
      ensures gl.units == BoundTextures(old(gl.units), textures)
      ensures gl.ints == WriteInts(old(gl.ints), Samplers(Kinds(textures)))
    {
      var kinds := Kinds(textures);
      var counts := new nat[TypesCount](_ => 0);
      var name := "";
      var i := 0;
      while i < |textures|
        invariant 0 <= i <= |textures|
        invariant forall t :: counts[TypeIndex(t)] == CountOf(kinds[..i], t)
        invariant name == LastName(kinds[..i])
        invariant gl.units == BoundTextures(old(gl.units), textures[..i])
        invariant gl.ints == WriteInts(old(gl.ints), Samplers(kinds)[..i])
      {
        name := BindAndNameOne(textures, kinds, i, counts, name, gl, old(gl.units), old(gl.ints));
        i := i + 1;
      }
      assert textures[..i] == textures;
      assert Samplers(kinds)[..i] == Samplers(kinds);
    }
  }

  /**
   * One pass of the texture loop: bind texture i to unit i, take its type's
   * counter, move the name on, and point the sampler uniform at unit i.
   */
  method BindAndNameOne(textures: seq<Texture>, kinds: seq<TextureType>, i: nat, counts: array<nat>, name: string,
                        gl: RenderState, ghost units0: map<int, Texture>, ghost ints0: map<string, int>)
    returns (next: string)
    requires kinds == Kinds(textures) && i < |textures| && counts.Length == TypesCount
    requires forall t :: counts[TypeIndex(t)] == CountOf(kinds[..i], t)
    requires name == LastName(kinds[..i])
    requires gl.units == BoundTextures(units0, textures[..i])
    requires gl.ints == WriteInts(ints0, Samplers(kinds)[..i])
    modifies counts, gl`units, gl`ints
    ensures forall t :: counts[TypeIndex(t)] == CountOf(kinds[..i + 1], t)
    ensures next == LastName(kinds[..i + 1])
    ensures gl.units == BoundTextures(units0, textures[..i + 1])
    ensures gl.ints == WriteInts(ints0, Samplers(kinds)[..i + 1])
  {
    BindStep(units0, textures, i);
    NameStepInts(ints0, kinds, i);
    gl.units := gl.units[i := textures[i]];
    var number;
    number, next := CountAndName(kinds, i, counts, name);
    assert SamplerUniform(kinds, i) == "material." + next + "[" + number + "]";
    gl.ints := gl.ints["material." + next + "[" + number + "]" := i];
  }

  /**
   * The counting and naming of one pass of the texture loop: the number is the
   * count of earlier textures of this type, and the name moves on.
   */
  method CountAndName(kinds: seq<TextureType>, i: nat, counts: array<nat>, name: string)
    returns (number: string, next: string)
    requires i < |kinds| && counts.Length == TypesCount
    requires forall t :: counts[TypeIndex(t)] == CountOf(kinds[..i], t)
    requires name == LastName(kinds[..i])
    modifies counts
    ensures forall t :: counts[TypeIndex(t)] == CountOf(kinds[..i + 1], t)
    ensures number == NatToString(CountOf(kinds[..i], kinds[i]))
    ensures next == LastName(kinds[..i + 1])
  {
    var kind := kinds[i];
    number := NatToString(counts[TypeIndex(kind)]);
    NameStep(kinds, i, name);
    CountStep(kinds, i);
    counts[TypeIndex(kind)] := counts[TypeIndex(kind)] + 1;
    forall t
      ensures counts[TypeIndex(t)] == CountOf(kinds[..i + 1], t)
    {
      TypeIndexInjective(t, kind);
    }
    next := NameAfter(kind, name);
  }

  /** What one pass of the texture loop adds to the bound units. */
  lemma BindStep(units0: map<int, Texture>, textures: seq<Texture>, i: nat)
    requires i < |textures|
    ensures BoundTextures(units0, textures[..i + 1]) == BoundTextures(units0, textures[..i])[i := textures[i]]
  {
  }

  /** What one pass of the texture loop adds to the uniforms. */
  lemma NameStepInts(ints0: map<string, int>, kinds: seq<TextureType>, i: nat)
    requires i < |kinds|
    ensures WriteInts(ints0, Samplers(kinds)[..i + 1])
      == WriteInts(ints0, Samplers(kinds)[..i])[SamplerUniform(kinds, i) := i]
  {
    var ws := Samplers(kinds)[..i + 1];
    assert ws[..i] == Samplers(kinds)[..i];
    assert ws[i] == SamplerSetting(SamplerUniform(kinds, i), i);
  }

  /** The switch of the texture loop: a named type sets the name, NONE leaves it. */
  method NameAfter(kind: TextureType, name: string) returns (next: string)
    ensures next == if kind == NoType then name else TypeName(kind)
  {
    next := name;
    match kind {
      case NoType =>
      case Albedo => next := "albedo";
      case Normal => next := "normal";
      case Emission => next := "emission";
      case Metalness => next := "metalness";
      case Roughness => next := "roughness";
      case AmbientOcclusion => next := "ambientocclusion";
    }
  }

  lemma NameStep(kinds: seq<TextureType>, i: nat, name: string)
    requires i < |kinds| && name == LastName(kinds[..i])
    ensures LastName(kinds[..i + 1]) == if kinds[i] == NoType then name else TypeName(kinds[i])
  {
    assert kinds[..i + 1][..i] == kinds[..i];
  }

  lemma CountStep(kinds: seq<TextureType>, i: nat)
    requires i < |kinds|
    ensures forall t :: CountOf(kinds[..i + 1], t) == CountOf(kinds[..i], t) + if t == kinds[i] then 1 else 0
  {
    assert kinds[..i + 1] == kinds[..i] + [kinds[i]];
  }

  lemma SamplersStep(kinds: seq<TextureType>, i: nat)
    requires i < |kinds|
    ensures Samplers(kinds)[..i + 1] == Samplers(kinds)[..i] + [SamplerSetting(SamplerUniform(kinds, i), i)]
  {
  }

  /**
   * Textures of named types get pairwise distinct sampler uniforms: two of the
   * same type differ in their counter, two of different types in their name.
   */
  lemma SamplerUniformsDistinct(kinds: seq<TextureType>, i: nat, j: nat)
    requires forall k :: 0 <= k < |kinds| ==> kinds[k] != NoType
    requires i < j < |kinds|
    ensures SamplerUniform(kinds, i) != SamplerUniform(kinds, j)
  {
    NamedLastName(kinds, i);
    NamedLastName(kinds, j);
    if SamplerUniform(kinds, i) == SamplerUniform(kinds, j) {
      NamedUniformsDiffer(kinds[i], CountOf(kinds[..i], kinds[i]), kinds[j], CountOf(kinds[..j], kinds[j]));
      CountGrows(kinds, i, j);
      assert false;
    }
  }

  lemma NamedLastName(kinds: seq<TextureType>, i: nat)
    requires i < |kinds| && kinds[i] != NoType
    ensures LastName(kinds[..i + 1]) == TypeName(kinds[i])
  {
    assert kinds[..i + 1][|kinds[..i + 1]| - 1] == kinds[i];
  }

  /** A later texture of the same type has seen strictly more of that type before it. */
  lemma CountGrows(kinds: seq<TextureType>, i: nat, j: nat)
    requires i < j < |kinds|
    ensures CountOf(kinds[..j], kinds[i]) > CountOf(kinds[..i], kinds[i])
  {
    assert kinds[..j] == kinds[..i] + [kinds[i]] + kinds[i + 1..j];
  }

  /**
   * After a draw of textures of named types, texture i's sampler uniform holds
   * unit i, and unit i holds texture i: every texture is read by its own sampler.
   */
  lemma EachTextureSampled(textures: seq<Texture>, units: map<int, Texture>, ints: map<string, int>, i: nat)
    requires forall k :: 0 <= k < |textures| ==> textures[k].kind != NoType
    requires i < |textures|
    ensures var u := SamplerUniform(Kinds(textures), i);
      var s := WriteInts(ints, Samplers(Kinds(textures)));
      u in s && s[u] == i && BoundTextures(units, textures)[i] == textures[i]
  {
    var kinds := Kinds(textures);
    var ws := Samplers(kinds);
    forall a, b | 0 <= a < b < |ws|
      ensures ws[a].uniform != ws[b].uniform
    {
      SamplerUniformsDistinct(kinds, a, b);
    }
    WriteIntsDistinct(ints, ws, i);
  }

  /**
   * A named type none of the textures has keeps the sampler the reset gave it:
   * "material.<type>[0]" is written by textures of that type only.
   */
  lemma UntexturedTypeKeepsReset(textures: seq<Texture>, ints: map<string, int>, t: TextureType)
    requires t != NoType
    requires forall k :: 0 <= k < |textures| ==> textures[k].kind != NoType && textures[k].kind != t
    ensures var u, r := FirstSampler(t), ResetSamplers(ints);
      var w := WriteInts(r, Samplers(Kinds(textures)));
      u in r && u in w && w[u] == r[u]
  {
    var kinds := Kinds(textures);
    var u := FirstSampler(t);
    var ws := Samplers(kinds);
    forall k | 0 <= k < |ws|
      ensures ws[k].uniform != u
    {
      NamedLastName(kinds, k);
      if ws[k].uniform == u {
        NamedUniformsDiffer(kinds[k], CountOf(kinds[..k], kinds[k]), t, 0);
      }
    }
    WriteIntsUntouched(ResetSamplers(ints), ws, u);
  }

  /** Sampler uniforms of named types are equal only for the same type and the same counter. */
  lemma NamedUniformsDiffer(t1: TextureType, n1: nat, t2: TextureType, n2: nat)
    requires t1 != NoType && t2 != NoType
    requires Indexed("material." + TypeName(t1), n1) == Indexed("material." + TypeName(t2), n2)
    ensures t1 == t2 && n1 == n2
  {
    IndexedInjective("material." + TypeName(t1), n1, "material." + TypeName(t2), n2);
    assert TypeName(t1) == ("material." + TypeName(t1))[9..];
    assert TypeName(t2) == ("material." + TypeName(t2))[9..];
    TypeNameInjective(t1, t2);
  }

  /**
   * A NONE texture takes the stale name and its own type's counter, so after an
   * albedo texture it is also named "material.albedo[0]" and takes that sampler
   * over from the albedo texture.
   */
  lemma NoTypeReusesStaleName()
    ensures SamplerUniform([Albedo, NoType], 0) == "material.albedo[0]"
    ensures SamplerUniform([Albedo, NoType], 1) == "material.albedo[0]"
  {
    var kinds := [Albedo, NoType];
    assert kinds[..1] == [Albedo] && kinds[..2] == kinds && kinds[..0] == [];
    assert LastName(kinds[..2]) == LastName([Albedo]) == "albedo";
    assert CountOf(kinds[..1], NoType) == 0;
    assert NatToString(0) == "0";
  }
}
