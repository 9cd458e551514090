/**
 * An entity's spatial state: local position, Euler rotation in degrees and
 * scale, the cached model matrix, and the dirty flag.
 */
module Transforms {
  import opened Geometry

  /**
   * The local model matrix for the given fields: translation, then the Euler
   * rotation composed as Y * X * Z, then scale, so that scale applies first.
   */
  function LocalModelOf(position: Vec3, rotation: Vec3, scale: Vec3): (m: Mat4)
  {
    var x := AxisRotation(rotation.x, Vec3(1.0, 0.0, 0.0));
    var y := AxisRotation(rotation.y, Vec3(0.0, 1.0, 0.0));
    var z := AxisRotation(rotation.z, Vec3(0.0, 0.0, 1.0));
    Mul(Mul(Translate(position), Mul(Mul(y, x), z)), ScaleMat(scale))
  }

  /**
   * Each field has its own factor in the local model, so two local models agree
   * exactly when position, rotation and scale all agree.
   */
  lemma LocalModelInjective(p1: Vec3, r1: Vec3, s1: Vec3, p2: Vec3, r2: Vec3, s2: Vec3)
    ensures LocalModelOf(p1, r1, s1) == LocalModelOf(p2, r2, s2) <==> p1 == p2 && r1 == r2 && s1 == s2
  {
  }

  class Transform {
    var position: Vec3
    var rotation: Vec3
    var scale: Vec3
    var model: Mat4
    var dirty: bool

    /** Stores the three local fields, marks the transform dirty and computes the local model. */
    constructor (position: Vec3, rotation: Vec3, scale: Vec3)
      ensures this.position == position && this.rotation == rotation && this.scale == scale
      ensures Valid()
      ensures model == LocalModelOf(position, rotation, scale)
    {
      this.position := position;
      this.rotation := rotation;
      this.scale := scale;
      dirty := true;
      model := LocalModelOf(position, rotation, scale);
    }

    /** The dirty flag is set on construction and by every setter, and nothing clears it. */
    ghost predicate Valid()
      reads this
    {
      dirty
    }

    function GetLocalModel(): Mat4
      reads this
    {
      LocalModelOf(position, rotation, scale)
    }

    /** At the root of the scene graph: the model is the local model alone. */
    method CalculateModel()
      modifies this`model
      ensures model == GetLocalModel()
    {
      model := GetLocalModel();
    }

    /** Under a parent: the parent's global model, then this transform's local model. */
    method CalculateModelUnder(parentGlobalModel: Mat4)
      modifies this`model
      ensures model == Mul(parentGlobalModel, GetLocalModel())
    {
      model := Mul(parentGlobalModel, GetLocalModel());
    }

    method SetLocalPosition(position: Vec3)
      modifies this`position, this`dirty
      ensures this.position == position && Valid()
    {
      this.position := position;
      dirty := true;
    }

    method SetLocalRotation(rotation: Vec3)
      modifies this`rotation, this`dirty
      ensures this.rotation == rotation && Valid()
    {
      this.rotation := rotation;
      dirty := true;
    }

    method SetLocalScale(scale: Vec3)
      modifies this`scale, this`dirty
      ensures this.scale == scale && Valid()
    {
      this.scale := scale;
      dirty := true;
    }

    function GetLocalPosition(): Vec3 reads this { position }
    function GetLocalRotation(): Vec3 reads this { rotation }
    function GetLocalScale(): Vec3 reads this { scale }
    function GetModel(): Mat4 reads this { model }

    function IsDirty(): (d: bool)
      requires Valid()
      reads this
      ensures d
    {
      dirty
    }
  }
}
