/**
 * Footsteps (EntityFootsteps.cs): horizontal travel on the ground is summed
 * up and every time it reaches the step distance a footstep is fired with
 * alternating feet, starting with the left. Sneaking silences footsteps.
 */
module Footsteps {
  import opened Types
  import Activities

  /** The foot of the `i`-th footstep ever fired. */
  function FootAt(i: nat): (f: Foot)
    ensures f == LeftFoot <==> i % 2 == 0
  {
    if i % 2 == 0 then LeftFoot else RightFoot
  }

  /** The foot after the `i`-th footstep's foot is the `i+1`-th footstep's foot. */
  lemma NextFootAt(i: nat)
    ensures NextFoot(FootAt(i)) == FootAt(i + 1)
  {
  }

  /** In a run of footsteps fired from the start, consecutive footsteps use different feet. */
  lemma AlternatingFeet(fired: seq<Foot>)
    requires forall i :: 0 <= i < |fired| ==> fired[i] == FootAt(i)
    ensures forall i :: 0 <= i < |fired| - 1 ==> fired[i] != fired[i + 1]
  {
    forall i | 0 <= i < |fired| - 1
      ensures fired[i] != fired[i + 1]
    {
      NextFootAt(i);
    }
  }

  /** The squared length of the horizontal part (x and z) of `a - b`. */
  function HorizontalDistanceSquared(a: Vec3, b: Vec3): real
  {
    (a.x - b.x) * (a.x - b.x) + (a.z - b.z) * (a.z - b.z)
  }

  class EntityFootsteps {
    var footstepDistance: real
    var proneFootstepDistance: real
    var lastFramePos: Vec3
    var footstepTravel: real
    var nextFoot: Foot
    var isSneaking: bool
    /** The footstep events fired so far, in order. */
    var fired: seq<Foot>

    /** The component as created and started at `position`. */
    constructor (position: Vec3)
      ensures footstepDistance == 3.0 && proneFootstepDistance == 3.0
      ensures lastFramePos == position && footstepTravel == 0.0
      ensures nextFoot == LeftFoot && !isSneaking && fired == []
      ensures Valid()
    {
      footstepDistance := 3.0;
      proneFootstepDistance := 3.0;
      nextFoot := LeftFoot;
      isSneaking := false;
      fired := [];
      lastFramePos := position;
      footstepTravel := 0.0;
    }

    /** The travel is never negative and the feet alternate from the left. */
    ghost predicate Valid()
      reads this
    {
      footstepTravel >= 0.0
      && nextFoot == FootAt(|fired|)
      && forall i :: 0 <= i < |fired| ==> fired[i] == FootAt(i)
    }

    /**
     * The per-frame update at `position`. `distance` is the length of the
     * horizontal movement since the last frame, which the engine computes
     * with a square root. At most one footstep is fired per frame and the
     * travel restarts from zero after it.
     */
    method Update(position: Vec3, grounded: bool, prone: bool, distance: real) returns (step: Option<Foot>)
      requires Valid()
      requires distance >= 0.0 && distance * distance == HorizontalDistanceSquared(position, lastFramePos)
      modifies this`lastFramePos, this`footstepTravel, this`nextFoot, this`fired
      ensures Valid()
      ensures old(isSneaking) ==> step == None && unchanged(this)
      ensures !old(isSneaking) ==>
        var travel := old(footstepTravel) + (if grounded then distance else 0.0);
        var threshold := if prone then proneFootstepDistance else footstepDistance;
        && (step.Some? <==> travel >= threshold)
        && (step.Some? ==> step.value == old(nextFoot) && fired == old(fired) + [step.value] && footstepTravel == 0.0)
        && (step.None? ==> fired == old(fired) && footstepTravel == travel)
        && lastFramePos == position
    {
      step := None;
      if isSneaking {
        return;
      }
      if grounded {
        footstepTravel := footstepTravel + distance;
      }
      var dist := if prone then proneFootstepDistance else footstepDistance;
      if footstepTravel >= dist {
        step := Some(nextFoot);
        fired := fired + [nextFoot];
        NextFootAt(|fired| - 1);
        nextFoot := NextFoot(nextFoot);
        footstepTravel := 0.0;
      }
      lastFramePos := position;
    }

    method TryStartSneak() returns (started: bool)
      modifies this`isSneaking
      ensures started == !old(isSneaking) && isSneaking
    {
      started := Activities.TryStartSucceeds(isSneaking, !isSneaking);
      if started {
        isSneaking := true;
      }
    }

    method TryStopSneak() returns (stopped: bool)
      modifies this`isSneaking
      ensures stopped == old(isSneaking) && !isSneaking
    {
      stopped := Activities.TryStopSucceeds(isSneaking);
      if stopped {
        isSneaking := false;
      }
    }
  }
}
