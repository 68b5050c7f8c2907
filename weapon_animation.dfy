/**
 * The first-person weapon animation (FirstPersonWeaponAnimation.cs): the
 * colliders the weapon touches, which forbid firing, and the choices of
 * origin pose, spring settings, idle swing, sway and footstep force. The
 * spring physics and quaternion maths themselves are not modelled.
 */
module WeaponAnimation {
  import opened Types

  type ColliderId = nat

  /** The list with the first occurrence of `c` removed (the list's Remove). */
  function RemoveFirst(s: seq<ColliderId>, c: ColliderId): (r: seq<ColliderId>)
    ensures c in s ==> |r| == |s| - 1
    ensures c !in s ==> r == s
    ensures multiset(r) == multiset(s) - multiset{c}
    decreases |s|
  {
    if s == [] then []
    else
      assert s == [s[0]] + s[1..];
      if s[0] == c then s[1..]
      else [s[0]] + RemoveFirst(s[1..], c)
  }

  /**
   * The weapon collides when it has a handler, the entity is not prone and
   * at least one collider is touching; prone disables collisions.
   */
  predicate IsColliding(hasHandler: bool, prone: bool, collidingWith: seq<ColliderId>)
  {
    hasHandler && !prone && |collidingWith| > 0
  }

  /** The pose the weapon's springs return to. */
  datatype Origin = CollidingOrigin | RunningOrigin | ZoomedOrigin | ProneOrigin | HipsOrigin

  /** The origin by priority: colliding, then running, then zoomed, then prone, then hips. */
  function SelectOrigin(colliding: bool, running: bool, zoomed: bool, prone: bool): (r: Origin)
    ensures r == CollidingOrigin <==> colliding
    ensures r == RunningOrigin <==> !colliding && running
    ensures r == ZoomedOrigin <==> !colliding && !running && zoomed
    ensures r == ProneOrigin <==> !colliding && !running && !zoomed && prone
    ensures r == HipsOrigin <==> !colliding && !running && !zoomed && !prone
  {
    if colliding then CollidingOrigin
    else if running then RunningOrigin
    else if zoomed then ZoomedOrigin
    else if prone then ProneOrigin
    else HipsOrigin
  }

  /**
   * The origin for the weapon's state. Without a handler zoom, running and
   * prone all read as off, so the hips origin is used.
   */
  function GetOrigin(hasHandler: bool, zoomed: bool, running: bool, prone: bool, collidingWith: seq<ColliderId>): (r: Origin)
    ensures !hasHandler ==> r == HipsOrigin
    ensures hasHandler && prone ==> r != CollidingOrigin
  {
    SelectOrigin(IsColliding(hasHandler, prone, collidingWith), hasHandler && running, hasHandler && zoomed, hasHandler && prone)
  }

  /** The configured footstep forces. */
  datatype FootstepForces = FootstepForces(zoomed: Vec3, hips: Vec3, running: Vec3, prone: Vec3)

  /**
   * The footstep force by priority zoomed, running, prone, hips, with the
   * x part mirrored for the left foot.
   */
  function FootstepForce(forces: FootstepForces, zoomed: bool, running: bool, prone: bool, foot: Foot): (r: Vec3)
    ensures var v := if zoomed then forces.zoomed else if running then forces.running
                     else if prone then forces.prone else forces.hips;
      r.y == v.y && r.z == v.z && r.x == (if foot == LeftFoot then -v.x else v.x)
  {
    var v := if zoomed then forces.zoomed
             else if running then forces.running
             else if prone then forces.prone
             else forces.hips;
    Vec3(v.x * (if foot == LeftFoot then -1.0 else 1.0), v.y, v.z)
  }

  /** The two feet push the weapon sideways in opposite directions with the same force otherwise. */
  lemma FootstepForceMirrors(forces: FootstepForces, zoomed: bool, running: bool, prone: bool)
    ensures var l := FootstepForce(forces, zoomed, running, prone, LeftFoot);
      var r := FootstepForce(forces, zoomed, running, prone, RightFoot);
      l.x == -r.x && l.y == r.y && l.z == r.z
  {
  }

  /** The configured spring values, normal and zoomed. */
  datatype SpringConfig = SpringConfig(
    positionalStiffness: Vec3, rotationalStiffness: Vec3,
    positionalDamping: Vec3, rotationalDamping: Vec3,
    zoomedPositionalStiffness: Vec3, zoomedRotationalStiffness: Vec3,
    zoomedPositionalDamping: Vec3, zoomedRotationalDamping: Vec3)

  /** The values given to the two springs for a physics step. */
  datatype SpringSettings = SpringSettings(
    positionalDamping: Vec3, positionalStiffness: Vec3, rotationalDamping: Vec3, rotationalStiffness: Vec3)

  /** The spring values as written: the positional stiffness is the zoomed one in both cases. */
  function SpringSettingsAsWritten(cfg: SpringConfig, zoomed: bool): SpringSettings
  {
    SpringSettings(
      if zoomed then cfg.zoomedPositionalDamping else cfg.positionalDamping,
      if zoomed then cfg.zoomedPositionalStiffness else cfg.zoomedPositionalStiffness,
      if zoomed then cfg.zoomedRotationalDamping else cfg.rotationalDamping,
      if zoomed then cfg.zoomedRotationalStiffness else cfg.rotationalStiffness)
  }

  /** Unzoomed, the spring values as written ignore the configured positional stiffness. */
  lemma PositionalStiffnessIgnored(cfg: SpringConfig)
    requires cfg.positionalStiffness != cfg.zoomedPositionalStiffness
    ensures SpringSettingsAsWritten(cfg, false).positionalStiffness != cfg.positionalStiffness
    ensures SpringSettingsAsWritten(cfg, false).positionalDamping == cfg.positionalDamping
  {
  }

  /** The spring values as intended: every value is the zoomed one exactly when zoomed. */
  function SpringSettingsFor(cfg: SpringConfig, zoomed: bool): (r: SpringSettings)
    ensures zoomed ==> r == SpringSettings(cfg.zoomedPositionalDamping, cfg.zoomedPositionalStiffness,
                                           cfg.zoomedRotationalDamping, cfg.zoomedRotationalStiffness)
    ensures !zoomed ==> r == SpringSettings(cfg.positionalDamping, cfg.positionalStiffness,
                                            cfg.rotationalDamping, cfg.rotationalStiffness)
  {
    if zoomed then
      SpringSettings(cfg.zoomedPositionalDamping, cfg.zoomedPositionalStiffness,
                     cfg.zoomedRotationalDamping, cfg.zoomedRotationalStiffness)
    else
      SpringSettings(cfg.positionalDamping, cfg.positionalStiffness, cfg.rotationalDamping, cfg.rotationalStiffness)
  }

  /** The intended spring values agree with the written ones except for the unzoomed positional stiffness. */
  lemma SpringSettingsDiffer(cfg: SpringConfig, zoomed: bool)
    ensures var w := SpringSettingsAsWritten(cfg, zoomed);
      var f := SpringSettingsFor(cfg, zoomed);
      w.positionalDamping == f.positionalDamping && w.rotationalDamping == f.rotationalDamping
      && w.rotationalStiffness == f.rotationalStiffness
      && (w.positionalStiffness == f.positionalStiffness <==> zoomed || cfg.positionalStiffness == cfg.zoomedPositionalStiffness)
  {
  }

  /** The idle swing: none while moving, otherwise the zoomed or normal intensity and frequency. */
  datatype IdleSwing = IdleSwing(intensity: Vec3, frequency: real)

  function IdleSwingFor(moving: bool, zoomed: bool, intensity: Vec3, frequency: real,
                        zoomedIntensity: Vec3, zoomedFrequency: real): (r: Option<IdleSwing>)
    ensures r.None? <==> moving
    ensures r.Some? && zoomed ==> r.value == IdleSwing(zoomedIntensity, zoomedFrequency)
    ensures r.Some? && !zoomed ==> r.value == IdleSwing(intensity, frequency)
  {
    if moving then None
    else if zoomed then Some(IdleSwing(zoomedIntensity, zoomedFrequency))
    else Some(IdleSwing(intensity, frequency))
  }

  /** The colliders touching one weapon. */
  class FirstPersonWeaponAnimation {
    var collidingWith: seq<ColliderId>

    constructor ()
      ensures collidingWith == []
    {
      collidingWith := [];
    }

    method OnTriggerEnter(c: ColliderId)
      modifies this
      ensures collidingWith == old(collidingWith) + [c]
      ensures !FireAllowed(true, false)
    {
      collidingWith := collidingWith + [c];
    }

    /** Leaving removes one occurrence of the collider. */
    method OnTriggerExit(c: ColliderId)
      modifies this
      ensures collidingWith == RemoveFirst(old(collidingWith), c)
      ensures old(collidingWith) == [c] ==> FireAllowed(true, false)
    {
      collidingWith := RemoveFirst(collidingWith, c);
    }

    /**
     * The start condition this component registers on the weapon's fire
     * activity; the sway offset is applied under the same condition.
     */
    predicate FireAllowed(hasHandler: bool, prone: bool)
      reads this
    {
      !IsColliding(hasHandler, prone, collidingWith)
    }
  }

  /** A collider that entered and left again leaves the colliding set as it was. */
  lemma EnterThenExit(s: seq<ColliderId>, c: ColliderId)
    ensures multiset(RemoveFirst(s + [c], c)) == multiset(s)
  {
  }
}
