/**
 * One animated bone: its position and rotation key tracks, the bracket search
 * over them, and the local transform the latest Update left behind.
 */
module Bones {
  import opened Geometry
  import opened Wrappers
  import opened SceneData

  datatype KeyPosition = KeyPosition(position: Vec3, timeStamp: real)
  datatype KeyRotation = KeyRotation(orientation: Quat, timeStamp: real)

  function PositionTimes(ks: seq<KeyPosition>): (ts: seq<real>)
    ensures |ts| == |ks| && forall i :: 0 <= i < |ks| ==> ts[i] == ks[i].timeStamp
  {
    if ks == [] then [] else PositionTimes(ks[..|ks| - 1]) + [ks[|ks| - 1].timeStamp]
  }

  function RotationTimes(ks: seq<KeyRotation>): (ts: seq<real>)
    ensures |ts| == |ks| && forall i :: 0 <= i < |ks| ==> ts[i] == ks[i].timeStamp
  {
    if ks == [] then [] else RotationTimes(ks[..|ks| - 1]) + [ks[|ks| - 1].timeStamp]
  }

  predicate StrictlyIncreasing(ts: seq<real>)
  {
    forall i, j :: 0 <= i < j < |ts| ==> ts[i] < ts[j]
  }

  /**
   * The scan of GetPositionIndex / GetRotationIndex from index `from`: the
   * smallest i with from <= i < |ts| - 1 and time < ts[i + 1]; None when the
   * scan runs off the end (the source's assert(0)).
   */
  function FirstBracket(ts: seq<real>, time: real, from: nat): (r: Option<nat>)
    ensures r.Some? ==> from <= r.value && r.value + 1 < |ts| && time < ts[r.value + 1]
    ensures r.Some? ==> forall j :: from < j <= r.value ==> ts[j] <= time
    ensures r.None? <==> forall j :: from < j < |ts| ==> ts[j] <= time
    decreases |ts| - from
  {
    if from + 1 >= |ts| then None
    else if time < ts[from + 1] then Some(from)
    else FirstBracket(ts, time, from + 1)
  }

  /** When the scan stops past index 0, the key before the bracket is not later than time. */
  lemma BracketLowerBound(ts: seq<real>, time: real)
    requires FirstBracket(ts, time, 0).Some? && FirstBracket(ts, time, 0).value > 0
    ensures var i := FirstBracket(ts, time, 0).value; ts[i] <= time < ts[i + 1]
  {
  }

  /** A track the search can serve at `time`: one key, or a later last key. */
  predicate Covers(ts: seq<real>, time: real)
  {
    |ts| == 1 || (|ts| >= 2 && time < ts[|ts| - 1])
  }

  /** A track usable at every time below `until`: keys in increasing time order, covering it. */
  predicate TrackReadyUntil(ts: seq<real>, until: real)
  {
    StrictlyIncreasing(ts) && (|ts| == 1 || (|ts| >= 2 && until <= ts[|ts| - 1]))
  }

  lemma CoversFinds(ts: seq<real>, time: real)
    requires |ts| >= 2 && Covers(ts, time)
    ensures FirstBracket(ts, time, 0).Some?
  {
  }

  /**
   * GetScaleFactor: how far `time` lies between two key times, as the fraction
   * that linear interpolation of the key times would need to reach it.
   */
  function ScaleFactor(last: real, next: real, time: real): (r: real)
    requires last != next
    ensures last + r * (next - last) == time
  {
    (time - last) / (next - last)
  }

  /** The factor is 0 on the earlier key and lies in [0, 1) strictly inside the bracket. */
  lemma ScaleFactorBounds(last: real, next: real, time: real)
    requires last < next
    ensures ScaleFactor(last, next, last) == 0.0
    ensures last <= time < next ==> 0.0 <= ScaleFactor(last, next, time) < 1.0
  {
    if last <= time < next {
      QuotientInUnit(time - last, next - last);
    }
  }

  lemma QuotientInUnit(x: real, d: real)
    requires d > 0.0 && 0.0 <= x < d
    ensures 0.0 <= x / d < 1.0
  {
    var q := x / d;
    assert q * d == x;
    if q < 0.0 {
      MulNonNegative(-q, d);
    }
    if q >= 1.0 {
      MulNonNegative(q - 1.0, d);
    }
  }

  lemma MulNonNegative(a: real, b: real)
    requires a >= 0.0 && b >= 0.0
    ensures a * b >= 0.0
  {
  }

  /** The channel's position keys as the bone stores them. */
  function PositionKeys(ks: seq<VectorKey>): (r: seq<KeyPosition>)
    ensures |r| == |ks| && forall i :: 0 <= i < |ks| ==> r[i] == KeyPosition(ks[i].value, ks[i].time)
  {
    if ks == [] then [] else PositionKeys(ks[..|ks| - 1]) + [KeyPosition(ks[|ks| - 1].value, ks[|ks| - 1].time)]
  }

  /** The channel's rotation keys as the bone stores them. */
  function RotationKeys(ks: seq<QuatKey>): (r: seq<KeyRotation>)
    ensures |r| == |ks| && forall i :: 0 <= i < |ks| ==> r[i] == KeyRotation(ks[i].value, ks[i].time)
  {
    if ks == [] then [] else RotationKeys(ks[..|ks| - 1]) + [KeyRotation(ks[|ks| - 1].value, ks[|ks| - 1].time)]
  }

  class Bone {
    const name: string
    const id: int
    const positions: seq<KeyPosition>
    const rotations: seq<KeyRotation>
    var localTransform: Mat4

    /** Copies the channel's keys, in order, and starts from the identity transform. */
    constructor (name: string, id: int, channel: NodeAnim)
      ensures this.name == name && FromChannel(channel, id)
      ensures localTransform == Identity
    {
      this.name := name;
      this.id := id;
      localTransform := Identity;
      var ps: seq<KeyPosition> := [];
      var i := 0;
      while i < |channel.positionKeys|
        invariant 0 <= i <= |channel.positionKeys| && |ps| == i
        invariant forall k :: 0 <= k < i ==>
          ps[k] == KeyPosition(channel.positionKeys[k].value, channel.positionKeys[k].time)
      {
        ps := ps + [KeyPosition(channel.positionKeys[i].value, channel.positionKeys[i].time)];
        i := i + 1;
      }
      positions := ps;
      var rs: seq<KeyRotation> := [];
      i := 0;
      while i < |channel.rotationKeys|
        invariant 0 <= i <= |channel.rotationKeys| && |rs| == i
        invariant forall k :: 0 <= k < i ==>
          rs[k] == KeyRotation(channel.rotationKeys[k].value, channel.rotationKeys[k].time)
      {
        rs := rs + [KeyRotation(channel.rotationKeys[i].value, channel.rotationKeys[i].time)];
        i := i + 1;
      }
      rotations := rs;
    }

    /** The bone was built from this channel with this ID: keys copied in order. */
    predicate FromChannel(channel: NodeAnim, id: int)
    {
      && this.id == id
      && positions == PositionKeys(channel.positionKeys)
      && rotations == RotationKeys(channel.rotationKeys)
    }

    /** Both tracks are ordered and reach at least `until`. */
    predicate ReadyUntil(until: real)
    {
      TrackReadyUntil(PositionTimes(positions), until) && TrackReadyUntil(RotationTimes(rotations), until)
    }

    predicate CoversTime(time: real)
    {
      && StrictlyIncreasing(PositionTimes(positions)) && Covers(PositionTimes(positions), time)
      && StrictlyIncreasing(RotationTimes(rotations)) && Covers(RotationTimes(rotations), time)
    }

    method GetPositionIndex(time: real) returns (r: Option<nat>)
      ensures r == FirstBracket(PositionTimes(positions), time, 0)
    {
      var ts := PositionTimes(positions);
      var index := 0;
      while index < |positions| - 1
        invariant 0 <= index
        invariant FirstBracket(ts, time, 0) == FirstBracket(ts, time, index)
      {
        if time < positions[index + 1].timeStamp {
          return Some(index);
        }
        index := index + 1;
      }
      return None;
    }

    method GetRotationIndex(time: real) returns (r: Option<nat>)
      ensures r == FirstBracket(RotationTimes(rotations), time, 0)
    {
      var ts := RotationTimes(rotations);
      var index := 0;
      while index < |rotations| - 1
        invariant 0 <= index
        invariant FirstBracket(ts, time, 0) == FirstBracket(ts, time, index)
      {
        if time < rotations[index + 1].timeStamp {
          return Some(index);
        }
        index := index + 1;
      }
      return None;
    }

    /** The translation at `time`: the only key, or the mix across the bracket. */
    function PositionAt(time: real): Mat4
      requires StrictlyIncreasing(PositionTimes(positions)) && Covers(PositionTimes(positions), time)
    {
      if |positions| == 1 then Translate(positions[0].position)
      else
        CoversFinds(PositionTimes(positions), time);
        var i := FirstBracket(PositionTimes(positions), time, 0).value;
        var f := ScaleFactor(positions[i].timeStamp, positions[i + 1].timeStamp, time);
        Translate(Mix3(positions[i].position, positions[i + 1].position, f))
    }

    /** The rotation at `time`: the only key normalized, or the normalized slerp across the bracket. */
    function RotationAt(time: real): Mat4
      requires StrictlyIncreasing(RotationTimes(rotations)) && Covers(RotationTimes(rotations), time)
    {
      if |rotations| == 1 then RotMat(Normalized(rotations[0].orientation))
      else
        CoversFinds(RotationTimes(rotations), time);
        var i := FirstBracket(RotationTimes(rotations), time, 0).value;
        var f := ScaleFactor(rotations[i].timeStamp, rotations[i + 1].timeStamp, time);
        RotMat(Normalized(Slerp(rotations[i].orientation, rotations[i + 1].orientation, f)))
    }

    method InterpolatePosition(time: real) returns (m: Mat4)
      requires StrictlyIncreasing(PositionTimes(positions)) && Covers(PositionTimes(positions), time)
      ensures m == PositionAt(time)
    {
      if |positions| == 1 {
        return Translate(positions[0].position);
      }
      CoversFinds(PositionTimes(positions), time);
      var r := GetPositionIndex(time);
      var p0 := r.value;
      var p1 := p0 + 1;
      var f := ScaleFactor(positions[p0].timeStamp, positions[p1].timeStamp, time);
      m := Translate(Mix3(positions[p0].position, positions[p1].position, f));
    }

    method InterpolateRotation(time: real) returns (m: Mat4)
      requires StrictlyIncreasing(RotationTimes(rotations)) && Covers(RotationTimes(rotations), time)
      ensures m == RotationAt(time)
    {
      if |rotations| == 1 {
        return RotMat(Normalized(rotations[0].orientation));
      }
      CoversFinds(RotationTimes(rotations), time);
      var r := GetRotationIndex(time);
      var p0 := r.value;
      var p1 := p0 + 1;
      var f := ScaleFactor(rotations[p0].timeStamp, rotations[p1].timeStamp, time);
      m := RotMat(Normalized(Slerp(rotations[p0].orientation, rotations[p1].orientation, f)));
    }

    /** The bone's transform at `time`: translation, then rotation. */
    function LocalAt(time: real): Mat4
      requires CoversTime(time)
    {
      Mul(PositionAt(time), RotationAt(time))
    }

    method Update(time: real)
      requires CoversTime(time)
      modifies this
      ensures localTransform == LocalAt(time)
    {
      var translation := InterpolatePosition(time);
      var rotation := InterpolateRotation(time);
      localTransform := Mul(translation, rotation);
    }

    function GetLocalTransform(): Mat4
      reads this
    {
      localTransform
    }

    /** A track ready until `until` serves every earlier time. */
    lemma ReadyCovers(until: real, time: real)
      requires ReadyUntil(until) && time < until
      ensures CoversTime(time)
    {
    }

    /** A single-key track gives the same transform at every time. */
    lemma SingleKeyConstant(t1: real, t2: real)
      requires CoversTime(t1) && CoversTime(t2)
      requires |positions| == 1 && |rotations| == 1
      ensures LocalAt(t1) == LocalAt(t2)
    {
    }

    /** Sampling exactly on a position key (other than the last) gives that key's translation. */
    lemma PositionAtKey(k: nat)
      requires StrictlyIncreasing(PositionTimes(positions))
      requires k + 1 < |positions|
      ensures Covers(PositionTimes(positions), positions[k].timeStamp)
      ensures PositionAt(positions[k].timeStamp) == Translate(positions[k].position)
    {
      var ts := PositionTimes(positions);
      var time := ts[k];
      assert ts[k] < ts[|ts| - 1];
      CoversFinds(ts, time);
      var i := FirstBracket(ts, time, 0).value;
      assert ts[k] < ts[k + 1] && time < ts[i + 1];
      assert i == k;
      MixEnds(positions[k].position, positions[k + 1].position);
    }

    /** Sampling exactly on a rotation key (other than the last) slerps from that key by 0. */
    lemma RotationAtKey(k: nat)
      requires StrictlyIncreasing(RotationTimes(rotations))
      requires k + 1 < |rotations|
      ensures Covers(RotationTimes(rotations), rotations[k].timeStamp)
      ensures RotationAt(rotations[k].timeStamp)
        == RotMat(Normalized(Slerp(rotations[k].orientation, rotations[k + 1].orientation, 0.0)))
    {
      var ts := RotationTimes(rotations);
      var time := ts[k];
      assert ts[k] < ts[|ts| - 1];
      CoversFinds(ts, time);
      var i := FirstBracket(ts, time, 0).value;
      assert ts[k] < ts[k + 1] && time < ts[i + 1];
      assert i == k;
    }
  }
}
