/**
 * The array-based pose layer: a 32-bit name hash, transforms made of a
 * position and a quaternion, the local-to-model pass over a pose, and the
 * sampling of a compressed clip into a pose.
 */
module Structures {

  // ---------------------------------------------------------------------
  // Name hash
  // ---------------------------------------------------------------------

  /** The 32-bit offset basis and prime of FNV, section 2 of draft-eastlake-fnv. */
  const InitialFnv: bv32 := 2166136261
  const FnvMultiple: bv32 := 16777619

  /** The hash the name's bytes produce. */
  datatype HashedName = HashedName(value: bv32)

  /** xor a 32-bit value in, then multiply by the prime modulo 2^32. */
  function Mix(h: bv32, x: bv32): bv32
  {
    (h ^ x) * FnvMultiple
  }

  /** One step of 32-bit FNV-1a: the octet, zero-extended, is mixed in. */
  function FnvStep(h: bv32, b: bv8): bv32
  {
    Mix(h, b as bv32)
  }

  /** The reference 32-bit FNV-1a hash of a sequence of octets, as a left fold. */
  function Fnv1a(bytes: seq<bv8>): bv32
  {
    if bytes == [] then InitialFnv else FnvStep(Fnv1a(bytes[..|bytes| - 1]), bytes[|bytes| - 1])
  }

  /**
   * A plain `char` is signed: before the xor it is widened to an int, so an
   * octet of 0x80 or more arrives with its upper 24 bits set.
   */
  function CharToUnsigned(b: bv8): (r: bv32)
    ensures b < 0x80 ==> r == b as bv32
    ensures b >= 0x80 ==> r == (b as bv32) | 0xFFFF_FF00
  {
    if b < 0x80 then b as bv32 else (b as bv32) | 0xFFFF_FF00
  }

  /** The step the constructor's loop performs on one char. */
  function CharStep(h: bv32, b: bv8): bv32
  {
    Mix(h, CharToUnsigned(b))
  }

  /** The constructor's loop as a left fold over the chars it reads. */
  function CharHash(chars: seq<bv8>): bv32
  {
    if chars == [] then InitialFnv else CharStep(CharHash(chars[..|chars| - 1]), chars[|chars| - 1])
  }

  /** strlen: the number of chars before the first NUL, or all of them. */
  function CStrLen(name: seq<bv8>): (n: nat)
    ensures n <= |name|
    ensures forall i :: 0 <= i < n ==> name[i] != 0
    ensures n < |name| ==> name[n] == 0
  {
    if name == [] || name[0] == 0 then 0 else 1 + CStrLen(name[1..])
  }

  /** The HashedName constructor: FNV over the chars up to the first NUL. */
  method HashName(name: seq<bv8>) returns (h: HashedName)
    ensures h.value == CharHash(name[..CStrLen(name)])
  {
    var value := InitialFnv;
    var len := CStrLen(name);
    var i := 0;
    while i < len
      invariant 0 <= i <= len
      invariant value == CharHash(name[..i])
    {
      value := Mix(value, CharToUnsigned(name[i]));
      assert name[..i + 1][..i] == name[..i];
      i := i + 1;
    }
    h := HashedName(value);
  }

  /** The empty name hashes to the offset basis. */
  lemma EmptyNameHash()
    ensures CharHash([][..CStrLen([])]) == InitialFnv
    ensures Fnv1a([]) == InitialFnv
  {
  }

  /** Appending a char advances the hash by one step: the hash is a left fold. */
  lemma CharHashAppend(s: seq<bv8>, c: bv8)
    ensures CharHash(s + [c]) == CharStep(CharHash(s), c)
  {
    assert (s + [c])[..|s|] == s;
  }

  predicate Ascii(bytes: seq<bv8>)
  {
    forall i :: 0 <= i < |bytes| ==> bytes[i] < 0x80
  }

  /** On 7-bit characters the loop computes exactly 32-bit FNV-1a. */
  lemma {:induction false} AsciiHashIsFnv1a(bytes: seq<bv8>)
    requires Ascii(bytes)
    ensures CharHash(bytes) == Fnv1a(bytes)
  {
    if bytes != [] {
      var n := |bytes| - 1;
      AsciiHashIsFnv1a(bytes[..n]);
      assert CharToUnsigned(bytes[n]) == bytes[n] as bv32;
    }
  }

  /** The NUL ends the name: nothing after it changes the hash. */
  lemma HashStopsAtNul(a: seq<bv8>, b: seq<bv8>)
    requires forall i :: 0 <= i < |a| ==> a[i] != 0
    ensures CStrLen(a + [0] + b) == |a|
  {
    var s := a + [0] + b;
    assert forall i :: 0 <= i < |a| ==> s[i] == a[i];
    assert s[|a|] == 0;
  }

  /**
   * A single octet of 0xC3 (the lead byte of a two-byte UTF-8 sequence)
   * hashes differently from FNV-1a, because the char is sign-extended.
   */
  lemma NonAsciiDiffers()
    ensures CharHash([0xC3]) != Fnv1a([0xC3])
  {
    assert [0xC3 as bv8][..0] == [];
    assert CharHash([0xC3]) == (InitialFnv ^ 0xFFFF_FFC3) * FnvMultiple;
    assert Fnv1a([0xC3]) == (InitialFnv ^ 0xC3) * FnvMultiple;
  }

  // ---------------------------------------------------------------------
  // Transforms
  // ---------------------------------------------------------------------

  datatype Vec4 = Vec4(x: real, y: real, z: real, w: real)

  /** A quaternion w + xi + yj + zk. */
  datatype Quat = Quat(w: real, x: real, y: real, z: real)

  /** Xform: a position (w carried along) and a rotation. */
  datatype Xform = Xform(position: Vec4, rotation: Quat)

  const IdentityQuat := Quat(1.0, 0.0, 0.0, 0.0)

  function Add4(a: Vec4, b: Vec4): Vec4
  {
    Vec4(a.x + b.x, a.y + b.y, a.z + b.z, a.w + b.w)
  }

  function Scale4(a: Vec4, k: real): Vec4
  {
    Vec4(a.x * k, a.y * k, a.z * k, a.w * k)
  }

  /** The Hamilton product p * q. */
  function QuatMul(p: Quat, q: Quat): Quat
  {
    Quat(p.w * q.w - p.x * q.x - p.y * q.y - p.z * q.z,
         p.w * q.x + p.x * q.w + p.y * q.z - p.z * q.y,
         p.w * q.y - p.x * q.z + p.y * q.w + p.z * q.x,
         p.w * q.z + p.x * q.y - p.y * q.x + p.z * q.w)
  }

  /** fm_quat_rotate: v + 2w(q x v) + 2(q x (q x v)) on the xyz part; w is kept. */
  function QuatRotate(q: Quat, v: Vec4): (r: Vec4)
    ensures r.w == v.w
  {
    // uv = qvec x v
    var ux := q.y * v.z - q.z * v.y;
    var uy := q.z * v.x - q.x * v.z;
    var uz := q.x * v.y - q.y * v.x;
    // uuv = qvec x uv
    var uux := q.y * uz - q.z * uy;
    var uuy := q.z * ux - q.x * uz;
    var uuz := q.x * uy - q.y * ux;
    Vec4(v.x + ux * (2.0 * q.w) + uux * 2.0,
         v.y + uy * (2.0 * q.w) + uuy * 2.0,
         v.z + uz * (2.0 * q.w) + uuz * 2.0,
         v.w)
  }

  /** A quaternion with no vector part leaves every vector as it is, the identity among them. */
  lemma RotateByScalarQuat(q: Quat, v: Vec4)
    requires q.x == 0.0 && q.y == 0.0 && q.z == 0.0
    ensures QuatRotate(q, v) == v
  {
  }

  /** A vector along the quaternion's axis is left where it is. */
  lemma RotateKeepsAxis(q: Quat, k: real, w: real)
    ensures var v := Vec4(k * q.x, k * q.y, k * q.z, w); QuatRotate(q, v) == v
  {
    var v := Vec4(k * q.x, k * q.y, k * q.z, w);
    assert q.y * v.z - q.z * v.y == 0.0;
    assert q.z * v.x - q.x * v.z == 0.0;
    assert q.x * v.y - q.y * v.x == 0.0;
  }

  /**
   * fm_xform_mul(a, b): rotation b.rotation * a.rotation; position
   * a.position + rotate(b.rotation, a.position). b.position is not read.
   */
  function XformMul(a: Xform, b: Xform): Xform
  {
    Xform(Add4(a.position, QuatRotate(b.rotation, a.position)), QuatMul(b.rotation, a.rotation))
  }

  /** The product does not depend on the second operand's position. */
  lemma XformMulIgnoresPosition(a: Xform, b: Xform, p: Vec4)
    ensures XformMul(a, b) == XformMul(a, b.(position := p))
  {
  }

  /**
   * With an identity rotation in b the product keeps a's rotation and doubles
   * a's position, w included, instead of adding b's translation.
   */
  lemma XformMulIdentityRotationDoubles(a: Xform, p: Vec4)
    ensures XformMul(a, Xform(p, IdentityQuat)) == Xform(Scale4(a.position, 2.0), a.rotation)
  {
    RotateByScalarQuat(IdentityQuat, a.position);
  }

  // ---------------------------------------------------------------------
  // Local to model
  // ---------------------------------------------------------------------

  /** Pose: a transform array and a float-track array with their counts. */
  class Pose {
    const xforms: array<Xform>
    const tracks: array<real>
    const numXforms: nat
    const numTracks: nat

    predicate Valid()
    {
      numXforms <= xforms.Length && numTracks <= tracks.Length
    }

    constructor (xforms: array<Xform>, tracks: array<real>, numXforms: nat, numTracks: nat)
      requires numXforms <= xforms.Length && numTracks <= tracks.Length
      ensures Valid()
      ensures this.xforms == xforms && this.tracks == tracks
      ensures this.numXforms == numXforms && this.numTracks == numTracks
    {
      this.xforms := xforms;
      this.tracks := tracks;
      this.numXforms := numXforms;
      this.numTracks := numTracks;
    }
  }

  function Min(a: nat, b: nat): nat
  {
    if a <= b then a else b
  }

  /**
   * How the pass combines a parent's model transform with a child's local
   * one. The pass itself does not depend on it; the source uses XformMul.
   */
  type Compose = (Xform, Xform) -> Xform

  /** What the pass writes at bone i, given the model array as the pass has left it so far. */
  function BoneModel(mul: Compose, current: seq<Xform>, local: seq<Xform>, parents: seq<int>, i: nat): Xform
    requires i < |local| && i < |parents| && parents[i] < |current|
  {
    if parents[i] >= 0 then mul(current[parents[i]], local[i]) else local[i]
  }

  predicate ParentsIn(parents: seq<int>, n: nat, size: nat)
  {
    n <= |parents| && forall i :: 0 <= i < n ==> parents[i] < size
  }

  /** The model array after the pass over bones 0 .. n - 1, in index order. */
  function LocalToModel(mul: Compose, model: seq<Xform>, local: seq<Xform>, parents: seq<int>, n: nat): (r: seq<Xform>)
    requires n <= |model| && n <= |local| && ParentsIn(parents, n, |model|)
    ensures |r| == |model|
  {
    if n == 0 then model
    else
      var p := LocalToModel(mul, model, local, parents, n - 1);
      p[n - 1 := BoneModel(mul, p, local, parents, n - 1)]
  }

  /** Entries from index n on are the ones the pass found. */
  lemma {:induction false} LocalToModelKeepsRest(mul: Compose, model: seq<Xform>, local: seq<Xform>, parents: seq<int>, n: nat, k: nat)
    requires n <= |model| && n <= |local| && ParentsIn(parents, n, |model|)
    requires n <= k < |model|
    ensures LocalToModel(mul, model, local, parents, n)[k] == model[k]
  {
    if n > 0 {
      LocalToModelKeepsRest(mul, model, local, parents, n - 1, k);
    }
  }

  /** Bone i < n is fixed once it is written: later steps write other slots. */
  lemma {:induction false} LocalToModelKeepsDone(mul: Compose, model: seq<Xform>, local: seq<Xform>, parents: seq<int>, n: nat, m: nat, i: nat)
    requires n <= m <= |model| && m <= |local| && ParentsIn(parents, m, |model|)
    requires i < n
    ensures LocalToModel(mul, model, local, parents, m)[i] == LocalToModel(mul, model, local, parents, n)[i]
    decreases m
  {
    if m > n {
      LocalToModelKeepsDone(mul, model, local, parents, n, m - 1, i);
    }
  }

  /** Bone i ends up with what step i wrote, computed from the array as the first i steps left it. */
  lemma LocalToModelAt(mul: Compose, model: seq<Xform>, local: seq<Xform>, parents: seq<int>, n: nat, i: nat)
    requires n <= |model| && n <= |local| && ParentsIn(parents, n, |model|)
    requires i < n
    ensures LocalToModel(mul, model, local, parents, n)[i]
         == BoneModel(mul, LocalToModel(mul, model, local, parents, i), local, parents, i)
  {
    var p := LocalToModel(mul, model, local, parents, i);
    assert LocalToModel(mul, model, local, parents, i + 1) == p[i := BoneModel(mul, p, local, parents, i)];
    LocalToModelKeepsDone(mul, model, local, parents, i + 1, n, i);
  }

  /**
   * A root copies its local transform; a bone whose parent comes earlier
   * composes the parent's result of this same pass with its local transform.
   */
  lemma ParentBeforeChild(mul: Compose, model: seq<Xform>, local: seq<Xform>, parents: seq<int>, n: nat, i: nat)
    requires n <= |model| && n <= |local| && ParentsIn(parents, n, |model|)
    requires i < n
    ensures var r := LocalToModel(mul, model, local, parents, n);
      && (parents[i] < 0 ==> r[i] == local[i])
      && (0 <= parents[i] < i ==> r[i] == mul(r[parents[i]], local[i]))
  {
    LocalToModelAt(mul, model, local, parents, n, i);
    if 0 <= parents[i] < i {
      LocalToModelKeepsDone(mul, model, local, parents, i, n, parents[i]);
    }
  }

  /** A bone whose parent index is not smaller composes the parent's value from before the pass. */
  lemma ParentNotBeforeChild(mul: Compose, model: seq<Xform>, local: seq<Xform>, parents: seq<int>, n: nat, i: nat)
    requires n <= |model| && n <= |local| && ParentsIn(parents, n, |model|)
    requires i < n && parents[i] >= i
    ensures LocalToModel(mul, model, local, parents, n)[i] == mul(model[parents[i]], local[i])
  {
    LocalToModelAt(mul, model, local, parents, n, i);
    LocalToModelKeepsRest(mul, model, local, parents, i, parents[i]);
  }

  /**
   * With the source's composition, a child whose local rotation is the
   * identity ends up with its parent's rotation and twice its parent's
   * position, whatever its own local position.
   */
  lemma IdentityChildDoublesParent(model: seq<Xform>, local: seq<Xform>, parents: seq<int>, n: nat, i: nat)
    requires n <= |model| && n <= |local| && ParentsIn(parents, n, |model|)
    requires i < n && 0 <= parents[i] < i && local[i].rotation == IdentityQuat
    ensures var r := LocalToModel(XformMul, model, local, parents, n);
      r[i] == Xform(Scale4(r[parents[i]].position, 2.0), r[parents[i]].rotation)
  {
    var r := LocalToModel(XformMul, model, local, parents, n);
    ParentBeforeChild(XformMul, model, local, parents, n, i);
    assert local[i] == Xform(local[i].position, IdentityQuat);
    XformMulIdentityRotationDoubles(r[parents[i]], local[i].position);
  }

  /**
   * PoseLocalToModel: bones 0 .. min(counts) - 1 in index order, then the
   * first min(track counts) tracks copied from local to model.
   */
  method PoseLocalToModel(modelPose: Pose, localPose: Pose, parents: seq<int>)
    requires modelPose.Valid() && localPose.Valid()
    requires Min(modelPose.numXforms, localPose.numXforms) <= 0xFFFF
    requires ParentsIn(parents, Min(modelPose.numXforms, localPose.numXforms), modelPose.xforms.Length)
    modifies modelPose.xforms, modelPose.tracks
    ensures modelPose.xforms[..]
      == LocalToModel(XformMul, old(modelPose.xforms[..]), old(localPose.xforms[..]), parents,
                      Min(modelPose.numXforms, localPose.numXforms))
    ensures var t := Min(modelPose.numTracks, localPose.numTracks);
      modelPose.tracks[..] == old(localPose.tracks[..t]) + old(modelPose.tracks[t..])
  {
    ghost var model0 := modelPose.xforms[..];
    ghost var local0 := localPose.xforms[..];
    ghost var tracks0 := modelPose.tracks[..];
    ghost var localTracks0 := localPose.tracks[..];
    var localXforms := localPose.xforms;
    var modelXforms := modelPose.xforms;
    var numBones := Min(modelPose.numXforms, localPose.numXforms);
    var i := 0;
    while i < numBones
      invariant 0 <= i <= numBones
      invariant modelXforms[..] == LocalToModel(XformMul, model0, local0, parents, i)
      invariant forall k :: i <= k < localXforms.Length ==> localXforms[k] == local0[k]
      invariant modelPose.tracks[..] == tracks0 && localPose.tracks[..] == localTracks0
    {
      var idxParent := parents[i];
      if idxParent >= 0 {
        modelXforms[i] := XformMul(modelXforms[idxParent], localXforms[i]);
      } else {
        modelXforms[i] := localXforms[i];
      }
      forall k | i + 1 <= k < localXforms.Length ensures localXforms[k] == local0[k] {
        if localXforms == modelXforms {
          LocalToModelKeepsRest(XformMul, model0, local0, parents, i + 1, k);
        }
      }
      i := i + 1;
    }
    var numTracks := Min(modelPose.numTracks, localPose.numTracks);
    if numTracks > 0 {
      forall k | 0 <= k < numTracks {
        modelPose.tracks[k] := localPose.tracks[k];
      }
    }
    assert modelPose.tracks[..] == localTracks0[..numTracks] + tracks0[numTracks..];
  }

  // ---------------------------------------------------------------------
  // Clip sampling
  // ---------------------------------------------------------------------

  /** AnimCurveKey: a 16-bit key time and three 16-bit words of compressed data. */
  datatype AnimCurveKey = AnimCurveKey(keyTime: int, keyData: seq<int>)

  /** AnimCurve: the pose slot it drives, and its rotation and position keys with their counts. */
  datatype AnimCurve = AnimCurve(index: int, numKeys: int, numPosKeys: int,
                                 keys: seq<AnimCurveKey>, posKeys: seq<AnimCurveKey>)

  /** AnimClip: the name hash, the duration, and the curves with their count. */
  datatype AnimClip = AnimClip(name: HashedName, duration: real, numCurves: int, curves: seq<AnimCurve>)

  /** DecompressKeyTime: key times are stored in 24ths of a second. */
  function DecompressKeyTime(time: int): (r: real)
    ensures r * 24.0 == time as real
  {
    time as real / 24.0
  }

  /** Decompression keeps the order of key times. */
  lemma KeyTimeOrder(a: int, b: int)
    ensures a < b <==> DecompressKeyTime(a) < DecompressKeyTime(b)
  {
  }

  function KeyTime(k: AnimCurveKey): real
  {
    DecompressKeyTime(k.keyTime)
  }

  /** The first n keys exist, there is at least one, and their times strictly increase. */
  predicate KeysOk(keys: seq<AnimCurveKey>, n: int)
  {
    && 1 <= n <= |keys|
    && forall i, j :: 0 <= i < j < n ==> KeyTime(keys[i]) < KeyTime(keys[j])
  }

  /** The scan from idx on: stop at the last key or at the first key not earlier than time. */
  function UpperFrom(keys: seq<AnimCurveKey>, n: int, time: real, idx: nat): (r: nat)
    requires 1 <= n <= |keys| && idx < n
    ensures idx <= r < n
    ensures forall j :: idx <= j < r ==> KeyTime(keys[j]) < time
    ensures r < n - 1 ==> time <= KeyTime(keys[r])
    decreases n - idx
  {
    if idx < n - 1 && KeyTime(keys[idx]) < time then UpperFrom(keys, n, time, idx + 1) else idx
  }

  /**
   * The upper index of the key search: the first index below n - 1 whose key
   * time is not earlier than time, and n - 1 when there is none.
   */
  function UpperIndex(keys: seq<AnimCurveKey>, n: int, time: real): (r: nat)
    requires 1 <= n <= |keys|
    ensures r < n
    ensures forall j :: 0 <= j < r ==> KeyTime(keys[j]) < time
    ensures r < n - 1 ==> time <= KeyTime(keys[r])
  {
    UpperFrom(keys, n, time, 0)
  }

  /** The search's while loop. */
  method FindUpper(keys: seq<AnimCurveKey>, n: int, time: real) returns (idx: nat)
    requires 1 <= n <= |keys| && n <= 0xFFFF
    ensures idx == UpperIndex(keys, n, time)
  {
    idx := 0;
    while idx < n - 1 && DecompressKeyTime(keys[idx].keyTime) < time
      invariant 0 <= idx < n
      invariant UpperFrom(keys, n, time, idx) == UpperIndex(keys, n, time)
      decreases n - idx
    {
      idx := idx + 1;
    }
  }

  /** The search result is determined by where time falls among the key times. */
  lemma UpperIndexUnique(keys: seq<AnimCurveKey>, n: int, time: real, u: nat)
    requires 1 <= n <= |keys| && u < n
    requires forall j :: 0 <= j < u ==> KeyTime(keys[j]) < time
    requires u < n - 1 ==> time <= KeyTime(keys[u])
    ensures UpperIndex(keys, n, time) == u
  {
  }

  /** The search stops at index 0, the constant-key branch, exactly for one key or a time not past the first key. */
  lemma ConstantKeyBranch(keys: seq<AnimCurveKey>, n: int, time: real)
    requires 1 <= n <= |keys|
    ensures UpperIndex(keys, n, time) == 0 <==> (n == 1 || time <= KeyTime(keys[0]))
  {
    if n == 1 || time <= KeyTime(keys[0]) {
      UpperIndexUnique(keys, n, time, 0);
    }
  }

  /** Sampling exactly at key k's time stops the search at k. */
  lemma UpperAtKeyTime(keys: seq<AnimCurveKey>, n: int, k: nat)
    requires KeysOk(keys, n) && k < n
    ensures UpperIndex(keys, n, KeyTime(keys[k])) == k
  {
    UpperIndexUnique(keys, n, KeyTime(keys[k]), k);
  }

  function QuatLerp(x: Quat, y: Quat, a: real): Quat
  {
    Quat(x.w * (1.0 - a) + y.w * a, x.x * (1.0 - a) + y.x * a,
         x.y * (1.0 - a) + y.y * a, x.z * (1.0 - a) + y.z * a)
  }

  function Lerp4(x: Vec4, y: Vec4, a: real): Vec4
  {
    Vec4(x.x * (1.0 - a) + y.x * a, x.y * (1.0 - a) + y.y * a,
         x.z * (1.0 - a) + y.z * a, x.w * (1.0 - a) + y.w * a)
  }

  /** Lerp gives its first end at 0 and its second at 1. */
  lemma LerpEnds(x: Vec4, y: Vec4, p: Quat, q: Quat)
    ensures Lerp4(x, y, 0.0) == x && Lerp4(x, y, 1.0) == y
    ensures QuatLerp(p, q, 0.0) == p && QuatLerp(p, q, 1.0) == q
  {
  }

  /** The decompressors and glm::normalize, which are outside this model. */
  datatype Codecs = Codecs(rotation: AnimCurveKey -> Quat, position: AnimCurveKey -> Vec4, normalize: Quat -> Quat)

  /** The fraction of the way from the lower to the upper key time. */
  function Alpha(keys: seq<AnimCurveKey>, lower: nat, upper: nat, time: real): real
    requires lower < upper < |keys| && KeyTime(keys[lower]) < KeyTime(keys[upper])
  {
    (time - KeyTime(keys[lower])) / (KeyTime(keys[upper]) - KeyTime(keys[lower]))
  }

  /** At the upper key's own time the blend is complete. */
  lemma AlphaAtUpper(keys: seq<AnimCurveKey>, lower: nat, upper: nat)
    requires lower < upper < |keys| && KeyTime(keys[lower]) < KeyTime(keys[upper])
    ensures Alpha(keys, lower, upper, KeyTime(keys[upper])) == 1.0
  {
    var d := KeyTime(keys[upper]) - KeyTime(keys[lower]);
    assert (d / d) * d == d;
  }

  /** The rotation block: the constant key, or the normalised lerp from the lower to the upper key. */
  function SampleRotation(c: AnimCurve, time: real, codecs: Codecs): Quat
    requires KeysOk(c.keys, c.numKeys)
  {
    var upper := UpperIndex(c.keys, c.numKeys, time);
    var lower := if upper == 0 then upper else upper - 1;
    if lower == upper then codecs.rotation(c.keys[upper])
    else
      var alpha := Alpha(c.keys, lower, upper, time);
      codecs.normalize(QuatLerp(codecs.rotation(c.keys[lower]), codecs.rotation(c.keys[upper]), alpha))
  }

  /** The position block: the constant key, or lerp(upper key, lower key, alpha). */
  function SamplePosition(c: AnimCurve, time: real, codecs: Codecs): Vec4
    requires KeysOk(c.posKeys, c.numPosKeys)
  {
    var upper := UpperIndex(c.posKeys, c.numPosKeys, time);
    var lower := if upper == 0 then upper else upper - 1;
    if lower == upper then codecs.position(c.posKeys[upper])
    else
      var alpha := Alpha(c.posKeys, lower, upper, time);
      Lerp4(codecs.position(c.posKeys[upper]), codecs.position(c.posKeys[lower]), alpha)
  }

  /** Up to the first key's time, or with a single key, both blocks give the first key. */
  lemma SampleBeforeFirstKey(c: AnimCurve, time: real, codecs: Codecs)
    requires KeysOk(c.keys, c.numKeys) && KeysOk(c.posKeys, c.numPosKeys)
    ensures (c.numKeys == 1 || time <= KeyTime(c.keys[0]))
      ==> SampleRotation(c, time, codecs) == codecs.rotation(c.keys[0])
    ensures (c.numPosKeys == 1 || time <= KeyTime(c.posKeys[0]))
      ==> SamplePosition(c, time, codecs) == codecs.position(c.posKeys[0])
  {
    ConstantKeyBranch(c.keys, c.numKeys, time);
    ConstantKeyBranch(c.posKeys, c.numPosKeys, time);
  }

  /**
   * At the time of rotation key k > 0 the rotation is key k's, normalised:
   * alpha is 1 and the lerp runs from the lower to the upper key.
   */
  lemma RotationAtKeyTime(c: AnimCurve, k: nat, codecs: Codecs)
    requires KeysOk(c.keys, c.numKeys) && 0 < k < c.numKeys
    ensures SampleRotation(c, KeyTime(c.keys[k]), codecs) == codecs.normalize(codecs.rotation(c.keys[k]))
  {
    var t := KeyTime(c.keys[k]);
    UpperAtKeyTime(c.keys, c.numKeys, k);
    AlphaAtUpper(c.keys, k - 1, k);
    var lo, hi := codecs.rotation(c.keys[k - 1]), codecs.rotation(c.keys[k]);
    assert SampleRotation(c, t, codecs) == codecs.normalize(QuatLerp(lo, hi, Alpha(c.keys, k - 1, k, t)));
    LerpEnds(Vec4(0.0, 0.0, 0.0, 0.0), Vec4(0.0, 0.0, 0.0, 0.0), lo, hi);
  }

  /**
   * At the time of position key k > 0 the position is key k - 1's: the lerp
   * runs from the upper to the lower key, so alpha = 1 lands on the lower one.
   */
  lemma PositionAtKeyTime(c: AnimCurve, k: nat, codecs: Codecs)
    requires KeysOk(c.posKeys, c.numPosKeys) && 0 < k < c.numPosKeys
    ensures SamplePosition(c, KeyTime(c.posKeys[k]), codecs) == codecs.position(c.posKeys[k - 1])
  {
    var t := KeyTime(c.posKeys[k]);
    UpperAtKeyTime(c.posKeys, c.numPosKeys, k);
    AlphaAtUpper(c.posKeys, k - 1, k);
    var hi, lo := codecs.position(c.posKeys[k]), codecs.position(c.posKeys[k - 1]);
    assert SamplePosition(c, t, codecs) == Lerp4(hi, lo, Alpha(c.posKeys, k - 1, k, t));
    LerpEnds(hi, lo, IdentityQuat, IdentityQuat);
  }

  /** Every curve has usable keys and drives a slot of the pose. */
  predicate CurvesOk(curves: seq<AnimCurve>, size: int)
  {
    forall i :: 0 <= i < |curves| ==>
      && KeysOk(curves[i].keys, curves[i].numKeys) && curves[i].numKeys <= 0xFFFF
      && KeysOk(curves[i].posKeys, curves[i].numPosKeys) && curves[i].numPosKeys <= 0xFFFF
      && 0 <= curves[i].index < size
  }

  /** The pose after sampling the curves in order: each writes its own slot, a later one over an earlier. */
  function SampleCurves(pose: seq<Xform>, curves: seq<AnimCurve>, time: real, codecs: Codecs): (r: seq<Xform>)
    requires CurvesOk(curves, |pose|)
    ensures |r| == |pose|
  {
    if curves == [] then pose
    else
      var n := |curves| - 1;
      var c := curves[n];
      SampleCurves(pose, curves[..n], time, codecs)[c.index := Xform(SamplePosition(c, time, codecs), SampleRotation(c, time, codecs))]
  }

  /** A slot no curve drives keeps its transform. */
  lemma {:induction false} SampleKeepsUndriven(pose: seq<Xform>, curves: seq<AnimCurve>, time: real, codecs: Codecs, k: nat)
    requires CurvesOk(curves, |pose|) && k < |pose|
    requires forall i :: 0 <= i < |curves| ==> curves[i].index != k
    ensures SampleCurves(pose, curves, time, codecs)[k] == pose[k]
  {
    if curves != [] {
      var n := |curves| - 1;
      SampleKeepsUndriven(pose, curves[..n], time, codecs, k);
    }
  }

  /** A slot ends up with the sample of the last curve that drives it. */
  lemma {:induction false} SampleLastCurveWins(pose: seq<Xform>, curves: seq<AnimCurve>, time: real, codecs: Codecs, j: nat)
    requires CurvesOk(curves, |pose|) && j < |curves|
    requires forall i :: j < i < |curves| ==> curves[i].index != curves[j].index
    ensures SampleCurves(pose, curves, time, codecs)[curves[j].index]
         == Xform(SamplePosition(curves[j], time, codecs), SampleRotation(curves[j], time, codecs))
  {
    var n := |curves| - 1;
    if j < n {
      SampleLastCurveWins(pose, curves[..n], time, codecs, j);
    }
  }

  /** The rotation block of AnimClipSample. */
  method InterpolateRotation(curve: AnimCurve, time: real, codecs: Codecs) returns (rot: Quat)
    requires KeysOk(curve.keys, curve.numKeys) && curve.numKeys <= 0xFFFF
    ensures rot == SampleRotation(curve, time, codecs)
  {
    var idx := FindUpper(curve.keys, curve.numKeys, time);
    var upperIdx := idx;
    var lowerIdx := if idx == 0 then idx else idx - 1;
    if lowerIdx == upperIdx {
      rot := codecs.rotation(curve.keys[idx]);
    } else {
      var rot1 := codecs.rotation(curve.keys[lowerIdx]);
      var rot2 := codecs.rotation(curve.keys[upperIdx]);
      var time1 := DecompressKeyTime(curve.keys[lowerIdx].keyTime);
      var time2 := DecompressKeyTime(curve.keys[upperIdx].keyTime);
      var alpha := (time - time1) / (time2 - time1);
      rot := QuatLerp(rot1, rot2, alpha);
      rot := codecs.normalize(rot);
    }
  }

  /** The position block of AnimClipSample. */
  method InterpolatePosition(curve: AnimCurve, time: real, codecs: Codecs) returns (pos: Vec4)
    requires KeysOk(curve.posKeys, curve.numPosKeys) && curve.numPosKeys <= 0xFFFF
    ensures pos == SamplePosition(curve, time, codecs)
  {
    var idx := FindUpper(curve.posKeys, curve.numPosKeys, time);
    var upperIdx := idx;
    var lowerIdx := if idx == 0 then idx else idx - 1;
    if lowerIdx == upperIdx {
      pos := codecs.position(curve.posKeys[idx]);
    } else {
      var pos1 := codecs.position(curve.posKeys[lowerIdx]);
      var pos2 := codecs.position(curve.posKeys[upperIdx]);
      var time1 := DecompressKeyTime(curve.posKeys[lowerIdx].keyTime);
      var time2 := DecompressKeyTime(curve.posKeys[upperIdx].keyTime);
      var alpha := (time - time1) / (time2 - time1);
      pos := Lerp4(pos2, pos1, alpha);
    }
  }

  /** AnimClipSample: every curve, in order, writes its rotation and then its position into its slot. */
  method AnimClipSample(clip: AnimClip, time: real, pose: Pose, codecs: Codecs)
    requires 0 <= clip.numCurves <= |clip.curves|
    requires CurvesOk(clip.curves[..clip.numCurves], pose.xforms.Length)
    modifies pose.xforms
    ensures pose.xforms[..] == SampleCurves(old(pose.xforms[..]), clip.curves[..clip.numCurves], time, codecs)
  {
    var numCurves := clip.numCurves;
    ghost var curves := clip.curves[..numCurves];
    ghost var start := pose.xforms[..];
    var i := 0;
    while i < numCurves
      invariant 0 <= i <= numCurves
      invariant pose.xforms[..] == SampleCurves(start, curves[..i], time, codecs)
    {
      var curve := clip.curves[i];
      assert curve == curves[i];
      var idxXform := curve.index;
      var rot := InterpolateRotation(curve, time, codecs);
      pose.xforms[idxXform] := pose.xforms[idxXform].(rotation := rot);
      var pos := InterpolatePosition(curve, time, codecs);
      pose.xforms[idxXform] := pose.xforms[idxXform].(position := pos);
      assert curves[..i + 1][..i] == curves[..i];
      i := i + 1;
    }
    assert curves[..i] == curves;
  }
}
