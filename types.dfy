/**
 * Value types shared by the gameplay components: the enumerations of the
 * entity system, weapon definitions, the records passed through the entity
 * model's attempts and events, and the few Unity maths helpers the
 * components call.
 */
module Types {
  datatype Option<T> = None | Some(value: T)

  /** Fire modes of a weapon; `Null` is what the entity reports without a weapon. */
  datatype FireMode = Null | SemiAuto | FullAuto

  /** Stance of an entity: crouch and prone are both stances, so at most one is active. */
  datatype StanceState = Stand | Crouch | Prone

  /** Leaning of an entity: at most one direction at a time. */
  datatype LeaningState = NotLeaning | Left | Right

  /** The foot of a footstep; the enum values are Left = 0 and Right = 1. */
  datatype Foot = LeftFoot | RightFoot

  function FootIndex(f: Foot): (i: nat)
    ensures i < 2
  {
    if f == LeftFoot then 0 else 1
  }

  function FootOf(i: nat): Foot
    requires i < 2
  {
    if i == 0 then LeftFoot else RightFoot
  }

  /** The foot after `f`: its enum value plus one, modulo 2. */
  function NextFoot(f: Foot): (r: Foot)
    ensures r != f
  {
    FootOf((FootIndex(f) + 1) % 2)
  }

  /** Two steps bring back the same foot. */
  lemma NextFootTwice(f: Foot)
    ensures NextFoot(NextFoot(f)) == f
  {
  }

  datatype Vec2 = Vec2(x: real, y: real)
  datatype Vec3 = Vec3(x: real, y: real, z: real)

  function Scale(v: Vec3, k: real): Vec3
  {
    Vec3(v.x * k, v.y * k, v.z * k)
  }

  /**
   * The serialized fields of a weapon prefab: clip size, the rounds loaded
   * when it is spawned and the preselected fire mode.
   */
  datatype WeaponPrefab = WeaponPrefab(clipSize: int, ammoInClip: int, fireMode: FireMode)

  /**
   * A weapon definition asset. `id` stands for the asset's identity (the
   * inventory is keyed by the asset object). The shooting cooldown is taken
   * as given; the asset derives it from its fire rate.
   */
  datatype WeaponDefinition = WeaponDefinition(
    id: nat,
    fireModes: seq<FireMode>,
    shootingCooldown: real,
    mobility: real,
    accuracy: real,
    prefab: WeaponPrefab)
  {
    /** The base spread of the weapon's shooter. */
    function Spread(): real
    {
      1.0 - accuracy
    }
  }

  /** A weapon definition with an amount of reserve ammo, as picked up. */
  datatype WeaponAmmoTuple = WeaponAmmoTuple(weapon: WeaponDefinition, ammo: int)

  /** Unity's integer minimum. */
  function Min(a: int, b: int): (r: int)
    ensures r <= a && r <= b
    ensures r == a || r == b
  {
    if a < b then a else b
  }

  /** Unity's float clamp: the lower bound is tested first. */
  function Clamp(value: real, min: real, max: real): (r: real)
    ensures min <= max ==> min <= r <= max
    ensures min <= value <= max ==> r == value
    ensures r == value || r == min || r == max
  {
    if value < min then min else if value > max then max else value
  }

  function Clamp01(t: real): (r: real)
    ensures 0.0 <= r <= 1.0
  {
    Clamp(t, 0.0, 1.0)
  }

  /** Unity's linear interpolation, with the factor clamped to [0, 1]. */
  function Lerp(a: real, b: real, t: real): (r: real)
    ensures a <= b ==> a <= r <= b
    ensures b <= a ==> b <= r <= a
    ensures t >= 1.0 ==> r == b
    ensures t <= 0.0 ==> r == a
  {
    var c := Clamp01(t);
    var d := b - a;
    StepBetween(a, d, c);
    a + d * c
  }

  /** A step of `d` scaled by a factor in [0, 1] from `a` ends between `a` and `a + d`. */
  lemma StepBetween(a: real, d: real, c: real)
    requires 0.0 <= c <= 1.0
    ensures d >= 0.0 ==> a <= a + d * c <= a + d
    ensures d <= 0.0 ==> a + d <= a + d * c <= a
    ensures c == 1.0 ==> a + d * c == a + d
    ensures c == 0.0 ==> a + d * c == a
  {
    ScaleBetween(d, c);
  }

  /** A factor in [0, 1] scales `d` to a value between 0 and `d`. */
  lemma ScaleBetween(d: real, c: real)
    requires 0.0 <= c <= 1.0
    ensures d >= 0.0 ==> 0.0 <= d * c <= d
    ensures d <= 0.0 ==> d <= d * c <= 0.0
  {
    var e := if d >= 0.0 then d else -d;
    ProductNonNegative(e, c);
    ProductNonNegative(e, 1.0 - c);
    assert e * (1.0 - c) == e - e * c;
  }

  lemma ProductNonNegative(x: real, y: real)
    requires x >= 0.0 && y >= 0.0
    ensures x * y >= 0.0
  {
  }
}
