/**
 * Scene lights: the shared light state (colour, intensity, on/off, ID and
 * shader prefix), point lights with the attenuation preset table, spot lights
 * built on the point-light state, and directional lights. Each light class
 * hands out IDs from its own counter, up to its own bound.
 */
module Lights {
  import opened Geometry
  import opened Wrappers
  import opened Text

  /** The three counter bounds: MAX_LIGHT_NUMBER of each class. */
  const PointMax: nat := 3
  const SpotMax: nat := 2
  const DirectionalMax: nat := 1

  /**
   * One construction against a counter standing at `next`: within the bound it
   * hands out `next` and moves on; past the bound it hands out nothing and the
   * counter stays where it is.
   */
  function Allocation(next: nat, max: nat): (Option<nat>, nat)
  {
    if next > max then (None, next) else (Some(next), next + 1)
  }

  /** Where a counter starting at 0 stands after `k` constructions. */
  function CounterAfter(k: nat, max: nat): (n: nat)
    ensures n <= max + 1
  {
    if k == 0 then 0 else Allocation(CounterAfter(k - 1, max), max).1
  }

  /**
   * From a fresh counter, the construction number k (counting from 0) gets ID k
   * exactly when k <= max, so IDs 0..max are handed out, max + 1 lights in all,
   * and every later construction gets none.
   */
  lemma {:induction false} AllocationsFromZero(k: nat, max: nat)
    ensures CounterAfter(k, max) == if k <= max then k else max + 1
    ensures Allocation(CounterAfter(k, max), max).0 == if k <= max then Some(k) else None
  {
    if k > 0 {
      AllocationsFromZero(k - 1, max);
    }
  }

  /** The static m_IDCounter of one light class. */
  class LightCounter {
    var next: nat

    constructor ()
      ensures next == 0
    {
      next := 0;
    }

    /** The bound check and increment at the head of a light constructor. */
    method Take(max: nat) returns (id: Option<nat>)
      modifies this
      ensures (id, next) == Allocation(old(next), max)
    {
      if next > max {
        return None;
      }
      id := Some(next);
      next := next + 1;
    }
  }

  /** The shader array element a light writes: "pointLights[2]" and the like. */
  function PointPrefix(id: nat): string { Indexed("pointLights", id) }
  function SpotPrefix(id: nat): string { Indexed("spotLights", id) }
  function DirectionalPrefix(id: nat): string { Indexed("dirLights", id) }

  /**
   * No two lights that received IDs write the same shader array element: the
   * prefixes differ across classes, and within a class for different IDs.
   */
  lemma PrefixesDistinct(i: nat, j: nat)
    ensures PointPrefix(i) != SpotPrefix(j)
    ensures PointPrefix(i) != DirectionalPrefix(j)
    ensures SpotPrefix(i) != DirectionalPrefix(j)
    ensures PointPrefix(i) == PointPrefix(j) ==> i == j
    ensures SpotPrefix(i) == SpotPrefix(j) ==> i == j
    ensures DirectionalPrefix(i) == DirectionalPrefix(j) ==> i == j
  {
    if PointPrefix(i) == SpotPrefix(j) {
      IndexedInjective("pointLights", i, "spotLights", j);
    }
    if PointPrefix(i) == DirectionalPrefix(j) {
      IndexedInjective("pointLights", i, "dirLights", j);
    }
    if SpotPrefix(i) == DirectionalPrefix(j) {
      IndexedInjective("spotLights", i, "dirLights", j);
    }
    if PointPrefix(i) == PointPrefix(j) {
      IndexedInjective("pointLights", i, "pointLights", j);
    }
    if SpotPrefix(i) == SpotPrefix(j) {
      IndexedInjective("spotLights", i, "spotLights", j);
    }
    if DirectionalPrefix(i) == DirectionalPrefix(j) {
      IndexedInjective("dirLights", i, "dirLights", j);
    }
  }

  /** The state every light shares. */
  class Light {
    var color: Vec3
    var intensity: real
    var isOn: bool
    /** Left unassigned when the class's counter is past its bound. */
    var id: nat
    var prefix: string

    /** A light of the given colour, at full intensity and switched on, with an empty prefix. */
    constructor (color: Vec3)
      ensures this.color == color && intensity == 1.0 && isOn && prefix == ""
    {
      this.color := color;
      intensity := 1.0;
      isOn := true;
      prefix := "";
    }

    method SetColor(color: Vec3)
      modifies this`color
      ensures this.color == color
    {
      this.color := color;
    }

    function GetColor(): Vec3 reads this { color }

    method SetIntensity(intensity: real)
      modifies this`intensity
      ensures this.intensity == intensity
    {
      this.intensity := intensity;
    }

    function GetIntensity(): real reads this { intensity }

    method SetIsOn(isOn: bool)
      modifies this`isOn
      ensures this.isOn == isOn
    {
      this.isOn := isOn;
    }

    function GetID(): nat reads this { id }

    /** Records an ID handed out by a counter, and the prefix built from it. */
    method Register(id: nat, prefix: string)
      modifies this`id, this`prefix
      ensures this.id == id && this.prefix == prefix
    {
      this.id := id;
      this.prefix := prefix;
    }
  }

  /** The nominal ranges of the attenuation presets, in scene units. */
  datatype AttenuationDist = D7 | D13 | D20 | D32 | D50 | D65 | D100 | D160 | D200 | D325 | D600 | D3250

  const DefaultDist: AttenuationDist := D50

  function Range(d: AttenuationDist): nat
  {
    match d
    case D7 => 7
    case D13 => 13
    case D20 => 20
    case D32 => 32
    case D50 => 50
    case D65 => 65
    case D100 => 100
    case D160 => 160
    case D200 => 200
    case D325 => 325
    case D600 => 600
    case D3250 => 3250
  }

  /** The coefficients of the attenuation 1 / (constant + linear d + quadratic d^2). */
  datatype Attenuation = Attenuation(constant: real, linear: real, quadratic: real)

  /** The preset table: the constant term is always 1. */
  function Preset(d: AttenuationDist): (a: Attenuation)
    ensures a.constant == 1.0 && a.linear > 0.0 && a.quadratic > 0.0
  {
    match d
    case D7 => Attenuation(1.0, 0.7, 1.8)
    case D13 => Attenuation(1.0, 0.35, 0.44)
    case D20 => Attenuation(1.0, 0.22, 0.20)
    case D32 => Attenuation(1.0, 0.14, 0.07)
    case D65 => Attenuation(1.0, 0.07, 0.017)
    case D100 => Attenuation(1.0, 0.045, 0.0075)
    case D160 => Attenuation(1.0, 0.027, 0.0028)
    case D200 => Attenuation(1.0, 0.022, 0.0019)
    case D325 => Attenuation(1.0, 0.014, 0.0007)
    case D600 => Attenuation(1.0, 0.007, 0.0002)
    case D3250 => Attenuation(1.0, 0.0014, 0.000007)
    case D50 => Attenuation(1.0, 0.09, 0.032)
  }

  /**
   * A preset for a longer range falls off more slowly: both its linear and its
   * quadratic coefficient are strictly smaller. So distinct presets never share
   * coefficients.
   */
  lemma PresetsWeakenWithRange(d1: AttenuationDist, d2: AttenuationDist)
    requires Range(d1) < Range(d2)
    ensures Preset(d2).linear < Preset(d1).linear
    ensures Preset(d2).quadratic < Preset(d1).quadratic
  {
  }

  lemma PresetInjective(d1: AttenuationDist, d2: AttenuationDist)
    ensures Preset(d1) == Preset(d2) <==> d1 == d2
  {
    if Range(d1) < Range(d2) {
      PresetsWeakenWithRange(d1, d2);
    } else if Range(d2) < Range(d1) {
      PresetsWeakenWithRange(d2, d1);
    }
  }

  /**
   * The gizmo radius of the preset setter: (-linear + sqrt(delta)) / (2 quadratic)
   * with delta = linear^2 + 316 quadratic. The square root is passed in as `root`.
   */
  function AttenuationRadius(a: Attenuation, root: real): real
    requires a.quadratic != 0.0
  {
    (-a.linear + root) / (2.0 * a.quadratic)
  }

  /** The root the radius formulas take: the non-negative square root of linear^2 + 316 quadratic. */
  predicate IsDeltaRoot(a: Attenuation, root: real)
  {
    root >= 0.0 && root * root == a.linear * a.linear + 316.0 * a.quadratic
  }

  /**
   * For positive coefficients the preset radius is the positive solution r of
   * quadratic r^2 + linear r = 79 (316 = 4 * 79), the distance the gizmo circle marks.
   */
  lemma AttenuationRadiusSolves(a: Attenuation, root: real)
    requires a.linear > 0.0 && a.quadratic > 0.0 && IsDeltaRoot(a, root)
    ensures var r := AttenuationRadius(a, root);
      r > 0.0 && a.quadratic * r * r + a.linear * r == 79.0
  {
    var l, q := a.linear, a.quadratic;
    var r := AttenuationRadius(a, root);
    assert root > l by {
      assert root * root > l * l;
    }
    assert 2.0 * q * r == root - l;
    calc {
      4.0 * q * (q * r * r + l * r);
      == (2.0 * q * r) * (2.0 * q * r) + 2.0 * l * (2.0 * q * r);
      == (root - l) * (root - l) + 2.0 * l * (root - l);
      == root * root - l * l;
      == 4.0 * q * 79.0;
    }
  }

  /** The radius of the three-coefficient setter as written: -(linear + sqrt(delta)) / (2 quadratic). */
  function AttenuationRadiusAsWritten(a: Attenuation, root: real): real
    requires a.quadratic != 0.0
  {
    -(a.linear + root) / (2.0 * a.quadratic)
  }

  /**
   * As written, the three-coefficient setter gives a negative radius for every
   * positive pair of coefficients, where the preset setter gives a positive one:
   * Attenuation(1, 0.09, 0.032) is such an input.
   */
  lemma AttenuationRadiusAsWrittenNegative(a: Attenuation, root: real)
    requires a.linear > 0.0 && a.quadratic > 0.0 && IsDeltaRoot(a, root)
    ensures AttenuationRadiusAsWritten(a, root) < 0.0 < AttenuationRadius(a, root)
  {
    AttenuationRadiusSolves(a, root);
    assert a.linear + root > 0.0;
    assert 2.0 * a.quadratic > 0.0;
  }

  class PointLight {
    const base: Light
    var position: Vec3
    /** Left unassigned when the counter is past its bound. */
    var attenuation: Attenuation

    /**
     * The public constructor: stores the position, then, within the bound, sets
     * the preset attenuation and takes the next point-light ID and its prefix.
     * Past the bound it stops there: no ID, an empty prefix, no attenuation.
     */
    constructor (position: Vec3, color: Vec3, distance: AttenuationDist, counter: LightCounter)
      modifies counter
      ensures fresh(base) && this.position == position
      ensures base.color == color && base.intensity == 1.0 && base.isOn
      ensures counter.next == Allocation(old(counter.next), PointMax).1
      ensures old(counter.next) <= PointMax ==>
        && base.id == old(counter.next) && base.prefix == PointPrefix(base.id)
        && attenuation == Preset(distance)
      ensures old(counter.next) > PointMax ==> base.prefix == ""
    {
      base := new Light(color);
      this.position := position;
      new;
      var id := counter.Take(PointMax);
      if id.None? {
        return;
      }
      SetAttenuationParams(distance);
      base.Register(id.value, PointPrefix(id.value));
    }

    /** The protected constructor SpotLight builds on: colour only, no counter, no ID. */
    constructor Bare(color: Vec3)
      ensures fresh(base) && base.color == color && base.intensity == 1.0 && base.isOn
      ensures base.prefix == ""
    {
      base := new Light(color);
    }

    method SetPosition(position: Vec3)
      modifies this`position
      ensures this.position == position
    {
      this.position := position;
    }

    function GetPosition(): Vec3 reads this { position }

    /** Stores the three coefficients exactly as given. */
    method SetAttenuationCoefficients(constant: real, linear: real, quadratic: real)
      modifies this`attenuation
      ensures attenuation == Attenuation(constant, linear, quadratic)
    {
      attenuation := Attenuation(constant, linear, quadratic);
    }

    /** Constant 1 and the table's linear and quadratic terms for the range. */
    method SetAttenuationParams(distance: AttenuationDist)
      modifies this`attenuation
      ensures attenuation == Preset(distance)
      ensures attenuation.constant == 1.0
    {
      var linear, quadratic;
      match distance {
        case D7 => linear, quadratic := 0.7, 1.8;
        case D13 => linear, quadratic := 0.35, 0.44;
        case D20 => linear, quadratic := 0.22, 0.20;
        case D32 => linear, quadratic := 0.14, 0.07;
        case D65 => linear, quadratic := 0.07, 0.017;
        case D100 => linear, quadratic := 0.045, 0.0075;
        case D160 => linear, quadratic := 0.027, 0.0028;
        case D200 => linear, quadratic := 0.022, 0.0019;
        case D325 => linear, quadratic := 0.014, 0.0007;
        case D600 => linear, quadratic := 0.007, 0.0002;
        case D3250 => linear, quadratic := 0.0014, 0.000007;
        case D50 => linear, quadratic := 0.09, 0.032;
      }
      attenuation := Attenuation(1.0, linear, quadratic);
    }
  }

  /** glm::normalize, kept symbolic: the direction a spot light stores. */
  datatype UnitDirection = Normalize(raw: Vec3)

  class SpotLight {
    const point: PointLight
    var direction: UnitDirection
    /** The inner cone angle and the extra outer angle, in degrees. */
    var cutOff: real
    var outer: real

    /**
     * Stores the normalised direction, then, within the spot-light bound, the
     * position, the default attenuation, a 12.5 degree cone with 5 degrees of
     * outer falloff, and the next spot-light ID and its prefix. The point-light
     * counter is not involved.
     */
    constructor (position: Vec3, direction: Vec3, color: Vec3, counter: LightCounter)
      modifies counter
      ensures fresh(point) && fresh(point.base) && this.direction == Normalize(direction)
      ensures point.base.color == color && point.base.intensity == 1.0 && point.base.isOn
      ensures counter.next == Allocation(old(counter.next), SpotMax).1
      ensures old(counter.next) <= SpotMax ==>
        && point.position == position && point.attenuation == Preset(DefaultDist)
        && cutOff == 12.5 && outer == 5.0
        && point.base.id == old(counter.next) && point.base.prefix == SpotPrefix(point.base.id)
      ensures old(counter.next) > SpotMax ==> point.base.prefix == ""
    {
      point := new PointLight.Bare(color);
      this.direction := Normalize(direction);
      new;
      var id := counter.Take(SpotMax);
      if id.None? {
        return;
      }
      point.SetPosition(position);
      point.SetAttenuationParams(DefaultDist);
      cutOff := 12.5;
      outer := 5.0;
      point.base.Register(id.value, SpotPrefix(id.value));
    }

    method SetDirection(direction: Vec3)
      modifies this`direction
      ensures this.direction == Normalize(direction)
    {
      this.direction := Normalize(direction);
    }

    method SetCutOff(cutOff: real)
      modifies this`cutOff
      ensures this.cutOff == cutOff
    {
      this.cutOff := cutOff;
    }

    method SetOuter(outer: real)
      modifies this`outer
      ensures this.outer == outer
    {
      this.outer := outer;
    }

    function GetDirection(): UnitDirection reads this { direction }
    function GetCutOff(): real reads this { cutOff }
    function GetOuter(): real reads this { outer }
  }

  class DirectionalLight {
    const base: Light
    var direction: Vec3

    /** Stores the direction as given, then, within the bound, takes the next ID and its prefix. */
    constructor (direction: Vec3, color: Vec3, counter: LightCounter)
      modifies counter
      ensures fresh(base) && this.direction == direction
      ensures base.color == color && base.intensity == 1.0 && base.isOn
      ensures counter.next == Allocation(old(counter.next), DirectionalMax).1
      ensures old(counter.next) <= DirectionalMax ==>
        base.id == old(counter.next) && base.prefix == DirectionalPrefix(base.id)
      ensures old(counter.next) > DirectionalMax ==> base.prefix == ""
    {
      base := new Light(color);
      this.direction := direction;
      new;
      var id := counter.Take(DirectionalMax);
      if id.None? {
        return;
      }
      base.Register(id.value, DirectionalPrefix(id.value));
    }

    /** Stores the vector as given, without normalising it. */
    method SetDirection(direction: Vec3)
      modifies this`direction
      ensures this.direction == direction
    {
      this.direction := direction;
    }

    function GetDirection(): Vec3 reads this { direction }
  }
}
