/**
 * The entity motor (EntityMotor.cs) and its rigidbody implementation
 * (RigidbodyMotor.cs), one object at run time and one class here: the run,
 * jump, lean, crouch and prone activities, and the per-physics-step choice
 * of speed, velocity change and jump.
 */
module Motors {
  import opened Types
  import Activities

  /** The movement values of the entity model, read every physics step. */
  datatype MotorSpeeds = MotorSpeeds(
    speed: real,
    runningSpeed: real,
    crouchedSpeed: real,
    proneSpeed: real,
    sneakSpeedFactor: real,
    inAirControl: real)

  /**
   * The speed for the active activities: the base speed, replaced by the
   * running speed while running, by the crouched speed while crouching and by
   * the prone speed while prone, the later test winning.
   */
  function SelectSpeed(s: MotorSpeeds, running: bool, stance: StanceState): (r: real)
    ensures stance == Prone ==> r == s.proneSpeed
    ensures stance == Crouch ==> r == s.crouchedSpeed
    ensures stance == Stand && running ==> r == s.runningSpeed
    ensures stance == Stand && !running ==> r == s.speed
  {
    var v := s.speed;
    var v := if running then s.runningSpeed else v;
    var v := if stance == Crouch then s.crouchedSpeed else v;
    if stance == Prone then s.proneSpeed else v
  }

  /** The selected speed, scaled by the sneak factor while sneaking and by the weapon's mobility when a weapon is held. */
  function MovementSpeed(s: MotorSpeeds, running: bool, stance: StanceState, sneaking: bool, mobility: Option<real>): (r: real)
    ensures r == SelectSpeed(s, running, stance)
                 * (if sneaking then s.sneakSpeedFactor else 1.0)
                 * (if mobility.Some? then mobility.value else 1.0)
  {
    var v := SelectSpeed(s, running, stance);
    var v := if sneaking then v * s.sneakSpeedFactor else v;
    if mobility.Some? then v * mobility.value else v
  }

  /**
   * The velocity change towards the target: the difference with the current
   * velocity, each horizontal axis clamped to the maximum change, no vertical part.
   */
  function VelocityChange(target: Vec3, velocity: Vec3, maxVelocityChange: real): (r: Vec3)
    ensures r.y == 0.0
    ensures maxVelocityChange >= 0.0 ==>
      -maxVelocityChange <= r.x <= maxVelocityChange && -maxVelocityChange <= r.z <= maxVelocityChange
    ensures -maxVelocityChange <= target.x - velocity.x <= maxVelocityChange ==> r.x == target.x - velocity.x
    ensures -maxVelocityChange <= target.z - velocity.z <= maxVelocityChange ==> r.z == target.z - velocity.z
  {
    Vec3(Clamp(target.x - velocity.x, -maxVelocityChange, maxVelocityChange),
         0.0,
         Clamp(target.z - velocity.z, -maxVelocityChange, maxVelocityChange))
  }

  /** Full control on the ground, the in-air control factor otherwise. */
  function AirControlFactor(grounded: bool, inAirControl: real): real
  {
    if grounded then 1.0 else inAirControl
  }

  class RigidbodyMotor {
    var wantsToJump: bool
    var isRunning: bool
    var stanceState: StanceState
    var leaningState: LeaningState
    /** The result of the last grounding raycast. */
    var grounded: bool
    var maxVelocityChange: real
    var canJump: bool

    constructor ()
      ensures !wantsToJump && !isRunning && stanceState == Stand && leaningState == NotLeaning && !grounded
      ensures maxVelocityChange == 10.0 && canJump
    {
      wantsToJump := false;
      isRunning := false;
      stanceState := Stand;
      leaningState := NotLeaning;
      grounded := false;
      maxVelocityChange := 10.0;
      canJump := true;
    }

    predicate IsRunning() reads this { isRunning }

    /** Running can start when not running and the movement input is longer than 0.01. */
    predicate CanRun(movementMagnitude: real) reads this { !isRunning && movementMagnitude > 0.01 }

    /** The entity jumps while it is in the air or a jump is pending. */
    predicate IsJumping() reads this { !grounded || wantsToJump }

    predicate CanJump() reads this { grounded && !wantsToJump }

    predicate IsLeaningLeft() reads this { leaningState == Left }
    predicate IsLeaningRight() reads this { leaningState == Right }

    /** Both lean directions share this condition: no lean at all. */
    predicate CanLean() reads this { leaningState == NotLeaning }

    predicate IsCrouching() reads this { stanceState == Crouch }

    /** Crouching is allowed from any stance but crouch, prone included. */
    predicate CanCrouch() reads this { stanceState != Crouch }

    predicate IsProne() reads this { stanceState == Prone }
    predicate CanProne() reads this { stanceState != Prone }

    /** Crouch and prone are stances, so they are never active together; the same holds for the lean directions. */
    lemma ActivitiesExclusive()
      ensures !(IsCrouching() && IsProne())
      ensures !(IsLeaningLeft() && IsLeaningRight())
    {
    }

    method TryStartRun(movementMagnitude: real) returns (started: bool)
      modifies this`isRunning
      ensures started == (!old(isRunning) && movementMagnitude > 0.01)
      ensures isRunning == (old(isRunning) || started)
    {
      started := Activities.TryStartSucceeds(IsRunning(), CanRun(movementMagnitude));
      if started {
        isRunning := true;
      }
    }

    method TryStopRun() returns (stopped: bool)
      modifies this`isRunning
      ensures stopped == old(isRunning) && !isRunning
    {
      stopped := Activities.TryStopSucceeds(IsRunning());
      if stopped {
        isRunning := false;
      }
    }

    /** A jump can be requested only on the ground and with no jump pending. */
    method TryStartJump() returns (started: bool)
      modifies this`wantsToJump
      ensures started == (old(grounded) && !old(wantsToJump))
      ensures wantsToJump == (old(wantsToJump) || started)
    {
      started := Activities.TryStartSucceeds(IsJumping(), CanJump());
      if started {
        wantsToJump := true;
      }
    }

    method TryStartLeanLeft() returns (started: bool)
      modifies this`leaningState
      ensures started == (old(leaningState) == NotLeaning)
      ensures leaningState == (if started then Left else old(leaningState))
    {
      started := Activities.TryStartSucceeds(IsLeaningLeft(), CanLean());
      if started {
        leaningState := Left;
      }
    }

    method TryStopLeanLeft() returns (stopped: bool)
      modifies this`leaningState
      ensures stopped == (old(leaningState) == Left)
      ensures leaningState == (if stopped then NotLeaning else old(leaningState))
    {
      stopped := Activities.TryStopSucceeds(IsLeaningLeft());
      if stopped {
        leaningState := NotLeaning;
      }
    }

    method TryStartLeanRight() returns (started: bool)
      modifies this`leaningState
      ensures started == (old(leaningState) == NotLeaning)
      ensures leaningState == (if started then Right else old(leaningState))
    {
      started := Activities.TryStartSucceeds(IsLeaningRight(), CanLean());
      if started {
        leaningState := Right;
      }
    }

    method TryStopLeanRight() returns (stopped: bool)
      modifies this`leaningState
      ensures stopped == (old(leaningState) == Right)
      ensures leaningState == (if stopped then NotLeaning else old(leaningState))
    {
      stopped := Activities.TryStopSucceeds(IsLeaningRight());
      if stopped {
        leaningState := NotLeaning;
      }
    }

    method TryStartCrouch() returns (started: bool)
      modifies this`stanceState
      ensures started == (old(stanceState) != Crouch)
      ensures stanceState == Crouch
    {
      started := Activities.TryStartSucceeds(IsCrouching(), CanCrouch());
      if started {
        stanceState := Crouch;
      }
    }

    /** Stopping crouch stands up. */
    method TryStopCrouch() returns (stopped: bool)
      modifies this`stanceState
      ensures stopped == (old(stanceState) == Crouch)
      ensures stanceState == (if stopped then Stand else old(stanceState))
    {
      stopped := Activities.TryStopSucceeds(IsCrouching());
      if stopped {
        stanceState := Stand;
      }
    }

    method TryStartProne() returns (started: bool)
      modifies this`stanceState
      ensures started == (old(stanceState) != Prone)
      ensures stanceState == Prone
    {
      started := Activities.TryStartSucceeds(IsProne(), CanProne());
      if started {
        stanceState := Prone;
      }
    }

    /** Stopping prone stands up. */
    method TryStopProne() returns (stopped: bool)
      modifies this`stanceState
      ensures stopped == (old(stanceState) == Prone)
      ensures stanceState == (if stopped then Stand else old(stanceState))
    {
      stopped := Activities.TryStopSucceeds(IsProne());
      if stopped {
        stanceState := Stand;
      }
    }

    /**
     * One physics step. `moveDirection` is the normalised world-space
     * movement direction, `jumpSpeed` the vertical jump speed the motor
     * derives from the jump height, and `groundHit` the result of the
     * grounding raycast. The velocity change is applied in full on the
     * ground and scaled by the in-air control otherwise; a pending jump sets
     * the velocity, scaled the same way, when jumping is enabled; the pending
     * jump is always cleared.
     */
    method FixedUpdate(speeds: MotorSpeeds, sneaking: bool, mobility: Option<real>, moveDirection: Vec3,
                       velocity: Vec3, jumpSpeed: real, groundHit: bool)
      returns (velocityChange: Vec3, jumpVelocity: Option<Vec3>)
      modifies this`wantsToJump, this`grounded
      ensures var f := AirControlFactor(old(grounded), speeds.inAirControl);
        var target := Scale(moveDirection, MovementSpeed(speeds, isRunning, stanceState, sneaking, mobility));
        velocityChange == Scale(VelocityChange(target, velocity, maxVelocityChange), f)
      ensures jumpVelocity.Some? == (canJump && old(wantsToJump))
      ensures jumpVelocity.Some? ==>
        jumpVelocity.value == Scale(Vec3(velocity.x, jumpSpeed, velocity.z), AirControlFactor(old(grounded), speeds.inAirControl))
      ensures !wantsToJump && grounded == groundHit
    {
      var speed := MovementSpeed(speeds, isRunning, stanceState, sneaking, mobility);
      var targetVelocity := Scale(moveDirection, speed);
      var change := VelocityChange(targetVelocity, velocity, maxVelocityChange);
      var factor := AirControlFactor(grounded, speeds.inAirControl);
      velocityChange := Scale(change, factor);
      jumpVelocity := None;
      if canJump && wantsToJump {
        jumpVelocity := Some(Scale(Vec3(velocity.x, jumpSpeed, velocity.z), factor));
      }
      wantsToJump := false;
      grounded := groundHit;
    }
  }

  /** On the ground the applied change stays within the maximum change on each horizontal axis. */
  lemma GroundedChangeBounded(target: Vec3, velocity: Vec3, maxVelocityChange: real, inAirControl: real)
    requires maxVelocityChange >= 0.0
    ensures var c := Scale(VelocityChange(target, velocity, maxVelocityChange), AirControlFactor(true, inAirControl));
      -maxVelocityChange <= c.x <= maxVelocityChange && -maxVelocityChange <= c.z <= maxVelocityChange && c.y == 0.0
  {
  }

  /** Prone dominates running, and sneaking and mobility only scale the chosen speed. */
  lemma ProneDominates(s: MotorSpeeds, sneaking: bool)
    ensures MovementSpeed(s, true, Prone, sneaking, None) == MovementSpeed(s, false, Prone, sneaking, None)
    ensures MovementSpeed(s, true, Prone, false, None) == s.proneSpeed
  {
  }
}
