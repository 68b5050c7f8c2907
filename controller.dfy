/**
 * The first-person controller (FirstPersonController.cs): each frame it
 * turns the player's buttons into attempts on the entity's activities.
 * Button states are parameters (`held` for a button that is down, `pressed`
 * for one that went down this frame, `released` for one that went up); the
 * interaction raycast is a parameter too. The reticle and HUD are not part
 * of this model.
 */
module Controller {
  import opened Types
  import Motors
  import Weapons
  import WeaponHandling
  import Footsteps
  import Interaction

  /** `i` is the position of the first occurrence of `fm` in `fms`. */
  predicate FirstAt(fms: seq<FireMode>, fm: FireMode, i: int)
  {
    0 <= i < |fms| && fms[i] == fm && forall k :: 0 <= k < i ==> fms[k] != fm
  }

  /** The position of the first occurrence of `fm` in `fms`, or -1. */
  function IndexOfMode(fms: seq<FireMode>, fm: FireMode): (r: int)
    ensures -1 <= r < |fms|
    ensures r == -1 <==> fm !in fms
    ensures r >= 0 ==> FirstAt(fms, fm, r)
  {
    if fms == [] then -1
    else if fms[0] == fm then 0
    else
      var r := IndexOfMode(fms[1..], fm);
      if r == -1 then -1 else r + 1
  }

  /** Reading a position of the mode list: the mode there, or the exception of an index past the end. */
  datatype ModeRead = Mode(mode: FireMode) | IndexOutOfRange

  /**
   * The fire-mode cycle as written: the position after the current mode,
   * back to 0 past the end, is read without checking that the list has
   * any element.
   */
  function NextFireModeAsWritten(fms: seq<FireMode>, fm: FireMode): (r: ModeRead)
    ensures r.IndexOutOfRange? <==> fms == []
  {
    var index := IndexOfMode(fms, fm) + 1;
    var index := if index >= |fms| then 0 else index;
    if index < |fms| then Mode(fms[index]) else IndexOutOfRange
  }

  /**
   * Without a weapon the entity offers no fire modes and reports `Null`, so
   * the button throws.
   */
  lemma NoWeaponCycleThrows()
    ensures NextFireModeAsWritten([], Null) == IndexOutOfRange
  {
  }

  /**
   * The fire-mode cycle: the mode after the current one in the list,
   * wrapping to the first after the last; the first when the current mode
   * is not listed; no mode at all for an empty list.
   */
  function NextFireMode(fms: seq<FireMode>, fm: FireMode): (r: Option<FireMode>)
    ensures r.None? <==> fms == []
    ensures r.Some? ==> r.value in fms
    ensures fm !in fms && fms != [] ==> r == Some(fms[0])
    ensures forall i :: FirstAt(fms, fm, i) && i + 1 < |fms| ==> r == Some(fms[i + 1])
    ensures FirstAt(fms, fm, |fms| - 1) ==> r == Some(fms[0])
  {
    if fms == [] then None
    else
      var i := IndexOfMode(fms, fm);
      assert forall j :: FirstAt(fms, fm, j) ==> j == i;
      Some(fms[if i + 1 >= |fms| then 0 else i + 1])
  }

  /** On a non-empty list the corrected cycle picks the mode the code as written picks. */
  lemma NextFireModeAgrees(fms: seq<FireMode>, fm: FireMode)
    requires fms != []
    ensures NextFireModeAsWritten(fms, fm) == Mode(NextFireMode(fms, fm).value)
  {
  }

  /** No mode appears twice. */
  predicate DistinctModes(fms: seq<FireMode>)
  {
    forall i, j :: 0 <= i < j < |fms| ==> fms[i] != fms[j]
  }

  /** The mode reached from `fm` after `k` presses of the button. */
  function Presses(fms: seq<FireMode>, fm: FireMode, k: nat): FireMode
    requires fms != []
    decreases k
  {
    if k == 0 then fm else Presses(fms, NextFireMode(fms, fm).value, k - 1)
  }

  /** Pressing `a` times and then `b` times is pressing `a + b` times. */
  lemma {:induction false} PressesAdd(fms: seq<FireMode>, fm: FireMode, a: nat, b: nat)
    requires fms != []
    ensures Presses(fms, fm, a + b) == Presses(fms, Presses(fms, fm, a), b)
    decreases a
  {
    if a > 0 {
      PressesAdd(fms, NextFireMode(fms, fm).value, a - 1, b);
    }
  }

  /** With distinct modes, the button moves from position `i` to the next position, or from the last to the first. */
  lemma NextAt(fms: seq<FireMode>, i: nat)
    requires DistinctModes(fms) && i < |fms|
    ensures NextFireMode(fms, fms[i]) == Some(if i + 1 < |fms| then fms[i + 1] else fms[0])
  {
    assert FirstAt(fms, fms[i], i);
  }

  /** Without reaching the end of the list, pressing `k` times from position `i` reaches position `i + k`. */
  lemma {:induction false} PressesWalk(fms: seq<FireMode>, i: nat, k: nat)
    requires DistinctModes(fms) && i + k < |fms|
    ensures Presses(fms, fms[i], k) == fms[i + k]
    decreases k
  {
    if k > 0 {
      NextAt(fms, i);
      PressesWalk(fms, i + 1, k - 1);
    }
  }

  /** From position `i`, pressing until past the end of the list reaches the first mode. */
  lemma PressesWrap(fms: seq<FireMode>, i: nat)
    requires DistinctModes(fms) && i < |fms|
    ensures Presses(fms, fms[i], |fms| - i) == fms[0]
  {
    var n := |fms|;
    PressesWalk(fms, i, n - 1 - i);
    NextAt(fms, n - 1);
    assert Presses(fms, fms[n - 1], 1) == Presses(fms, fms[0], 0);
    PressesAdd(fms, fms[i], n - 1 - i, 1);
    assert n - 1 - i + 1 == n - i;
  }

  /**
   * With distinct modes, pressing the button once per mode comes back to
   * the current mode, having passed through the end of the list and the
   * first mode on the way.
   */
  lemma CycleReturns(fms: seq<FireMode>, i: nat)
    requires DistinctModes(fms) && i < |fms|
    ensures Presses(fms, fms[i], |fms|) == fms[i]
  {
    var n := |fms|;
    PressesWrap(fms, i);
    PressesWalk(fms, 0, i);
    PressesAdd(fms, fms[i], n - i, i);
    assert n - i + i == n;
  }

  /**
   * The lean after one frame. Both buttons are judged against the lean at
   * the start of the frame: a lean starts only from no lean, left before
   * right, and a lean stops when its button is up.
   */
  function LeanAfterInput(s: LeaningState, wantsLeft: bool, wantsRight: bool): (r: LeaningState)
  {
    var notLeaning := s == NotLeaning;
    var s1 := if wantsLeft then (if notLeaning then Left else s) else if s == Left then NotLeaning else s;
    if wantsRight then (if notLeaning && s1 == NotLeaning then Right else s1)
    else if s == Right && s1 == Right then NotLeaning else s1
  }

  /** The lean rules: a held lean is kept, a released one ends, and a new lean needs its button and no lean before. */
  lemma LeanRules(s: LeaningState, wantsLeft: bool, wantsRight: bool)
    ensures var r := LeanAfterInput(s, wantsLeft, wantsRight);
      && (r == Left <==> wantsLeft && (s == Left || s == NotLeaning))
      && (r == Right <==> wantsRight && (s == Right || (s == NotLeaning && !wantsLeft)))
      && (!wantsLeft && !wantsRight ==> r == NotLeaning)
  {
  }

  /** Switching sides takes two frames: a lean never turns into the other lean in one frame. */
  lemma NoDirectSwitch(s: LeaningState, wantsLeft: bool, wantsRight: bool)
    ensures s == Left ==> LeanAfterInput(s, wantsLeft, wantsRight) != Right
    ensures s == Right ==> LeanAfterInput(s, wantsLeft, wantsRight) != Left
  {
  }

  /** The lean part of a frame. */
  method UpdateLean(motor: Motors.RigidbodyMotor, wantsLeft: bool, wantsRight: bool)
    modifies motor`leaningState
    ensures motor.leaningState == LeanAfterInput(old(motor.leaningState), wantsLeft, wantsRight)
  {
    var isLeaningLeft := motor.IsLeaningLeft();
    var isLeaningRight := motor.IsLeaningRight();
    var isNotLeaning := !(isLeaningLeft || isLeaningRight);
    var _ := 0;
    if wantsLeft {
      if isNotLeaning {
        var _ := motor.TryStartLeanLeft();
      }
    } else if isLeaningLeft {
      var _ := motor.TryStopLeanLeft();
    }
    if wantsRight {
      if isNotLeaning {
        var _ := motor.TryStartLeanRight();
      }
    } else if isLeaningRight {
      var _ := motor.TryStopLeanRight();
    }
  }

  /** The run part of a frame: held, running starts if the movement input allows; released, it stops. */
  method UpdateRun(motor: Motors.RigidbodyMotor, held: bool, movementMagnitude: real)
    modifies motor`isRunning
    ensures motor.isRunning == (held && (old(motor.isRunning) || movementMagnitude > 0.01))
  {
    if held {
      if !motor.IsRunning() {
        var _ := motor.TryStartRun(movementMagnitude);
      }
    } else {
      if motor.IsRunning() {
        var _ := motor.TryStopRun();
      }
    }
  }

  /** The stance after the crouch and prone buttons, in that order, each one toggling its stance. */
  function StanceAfterToggles(s: StanceState, crouchPressed: bool, pronePressed: bool): (r: StanceState)
  {
    var s1 := if !crouchPressed then s else if s == Crouch then Stand else Crouch;
    if !pronePressed then s1 else if s1 == Prone then Stand else Prone
  }

  /** A pressed button leaves its own stance for standing and enters it from any other; both pressed together end prone. */
  lemma StanceToggleRules(s: StanceState)
    ensures StanceAfterToggles(s, true, false) == (if s == Crouch then Stand else Crouch)
    ensures StanceAfterToggles(s, false, true) == (if s == Prone then Stand else Prone)
    ensures StanceAfterToggles(s, true, true) == Prone
    ensures StanceAfterToggles(StanceAfterToggles(s, true, false), true, false) == (if s == Prone then Stand else s)
  {
  }

  method ToggleCrouch(motor: Motors.RigidbodyMotor)
    modifies motor`stanceState
    ensures motor.stanceState == StanceAfterToggles(old(motor.stanceState), true, false)
  {
    if motor.IsCrouching() {
      var _ := motor.TryStopCrouch();
    } else {
      var _ := motor.TryStartCrouch();
    }
  }

  method ToggleProne(motor: Motors.RigidbodyMotor)
    modifies motor`stanceState
    ensures motor.stanceState == StanceAfterToggles(old(motor.stanceState), false, true)
  {
    if motor.IsProne() {
      var _ := motor.TryStopProne();
    } else {
      var _ := motor.TryStartProne();
    }
  }

  method ToggleSneak(footsteps: Footsteps.EntityFootsteps)
    modifies footsteps`isSneaking
    ensures footsteps.isSneaking == !old(footsteps.isSneaking)
  {
    if footsteps.isSneaking {
      var _ := footsteps.TryStopSneak();
    } else {
      var _ := footsteps.TryStartSneak();
    }
  }

  /** The zoom button: stops zooming, or starts it when a weapon is held. */
  method ToggleZoom(handler: WeaponHandling.WeaponHandler)
    modifies handler`isZoomed
    ensures handler.isZoomed == (!old(handler.isZoomed) && WeaponHandling.Present(handler.currentWeapon))
  {
    if handler.isZoomed {
      var _ := handler.TryStopZoom();
    } else {
      var _ := handler.TryStartZoom();
    }
  }

  /**
   * The fire-mode button, with the corrected cycle: the current weapon
   * moves on to the next of its modes; without a listed mode nothing is
   * attempted.
   */
  method ChangeFireMode(handler: WeaponHandling.WeaponHandler)
    modifies handler.CurrentWeaponSet()`currentFireMode
    ensures WeaponHandling.Present(handler.currentWeapon) && handler.currentWeapon.definition.fireModes != [] ==>
      handler.currentWeapon.currentFireMode ==
        NextFireMode(handler.currentWeapon.definition.fireModes, old(handler.currentWeapon.currentFireMode)).value
    ensures handler.currentWeapon != null && !WeaponHandling.Present(handler.currentWeapon) ==>
      handler.currentWeapon.currentFireMode == old(handler.currentWeapon.currentFireMode)
  {
    var next := NextFireMode(handler.GetFireModes(), handler.GetFireMode());
    if next.Some? && handler.CanSetFireMode(next.value) {
      handler.SetFireMode(next.value);
    }
  }

  /** A weapon key: the slot is selected when it holds a weapon. */
  method SelectWeaponKey(handler: WeaponHandling.WeaponHandler, index: int) returns (selected: bool)
    modifies handler`currentWeapon, set w | w in handler.weapons :: w`goActive
    ensures selected == old(handler.CanSelectWeaponByIndex(index))
    ensures selected ==> handler.currentWeapon == handler.weapons[index]
    ensures !selected ==> handler.currentWeapon == old(handler.currentWeapon)
  {
    selected := handler.CanSelectWeaponByIndex(index);
    if selected {
      handler.OnSelectWeaponByIndex(index);
    }
  }

  /**
   * The slot the weapon keys select in the end: each pressed key whose slot
   * holds a weapon selects it in turn, so the last such key wins; none when
   * no pressed key has a weapon in its slot.
   */
  function LastSelectableSlot(keys: seq<bool>, ws: seq<Weapons.Weapon>): (r: Option<nat>)
    reads set i | 0 <= i < |ws| :: ws[i]`destroyed
    ensures r.Some? ==> r.value < |keys| && r.value < |ws| && keys[r.value] && WeaponHandling.Present(ws[r.value])
    ensures r.Some? ==> forall j :: r.value < j < |keys| && j < |ws| && keys[j] ==> !WeaponHandling.Present(ws[j])
    ensures r.None? ==> forall j :: 0 <= j < |keys| && j < |ws| && keys[j] ==> !WeaponHandling.Present(ws[j])
    decreases |keys|
  {
    if keys == [] then None
    else
      var k := |keys| - 1;
      if keys[k] && k < |ws| && WeaponHandling.Present(ws[k]) then Some(k)
      else LastSelectableSlot(keys[..k], ws)
  }

  /** The weapon keys, slot 0 first: each pressed key attempts to select its slot. */
  method SelectWeaponKeys(handler: WeaponHandling.WeaponHandler, keys: seq<bool>)
    modifies handler`currentWeapon, set w | w in handler.weapons :: w`goActive
    ensures handler.weapons == old(handler.weapons)
    ensures var s := LastSelectableSlot(keys, handler.weapons);
      && (s.Some? ==> handler.currentWeapon == handler.weapons[s.value])
      && (s.None? ==> handler.currentWeapon == old(handler.currentWeapon))
  {
    var i := 0;
    while i < |keys|
      invariant 0 <= i <= |keys|
      invariant handler.weapons == old(handler.weapons)
      invariant var s := LastSelectableSlot(keys[..i], handler.weapons);
        && (s.Some? ==> handler.currentWeapon == handler.weapons[s.value])
        && (s.None? ==> handler.currentWeapon == old(handler.currentWeapon))
    {
      assert keys[..i + 1][..i] == keys[..i];
      if keys[i] {
        var _ := SelectWeaponKey(handler, i);
      }
      i := i + 1;
    }
    assert keys[..i] == keys;
  }

  /** The buttons of one frame. `weaponKeys[i]` is the key that selects slot `i`. */
  datatype Buttons = Buttons(
    interactPressed: bool,
    leanLeftHeld: bool, leanRightHeld: bool, runHeld: bool,
    jumpPressed: bool, firePressed: bool, fireReleased: bool,
    changeFireModePressed: bool, zoomPressed: bool, crouchPressed: bool,
    pronePressed: bool, sneakPressed: bool, holsterPressed: bool,
    reloadPressed: bool, weaponKeys: seq<bool>)

  /** The interact button: an attempt to interact with the interactable in view, if any. */
  method InteractInput(interaction: Interaction.EntityInteractionHandler, b: Buttons, now: real,
                       aimed: Option<Interaction.Interactable>, inRange: bool)
    requires interaction.Valid()
    modifies interaction
    ensures interaction.Valid()
    ensures !(aimed.Some? && b.interactPressed) ==> unchanged(interaction)
    ensures aimed.Some? && b.interactPressed && old(interaction.current).None? && inRange ==>
      interaction.IsInteracting() == (aimed.value.duration != 0.0)
  {
    if aimed.Some? && b.interactPressed {
      var _ := interaction.TryStartInteract(aimed.value, now, inRange);
    }
  }

  /** The movement buttons: lean, run and jump. */
  method MovementInput(motor: Motors.RigidbodyMotor, b: Buttons, movementMagnitude: real)
    modifies motor`leaningState, motor`isRunning, motor`wantsToJump
    ensures motor.leaningState == LeanAfterInput(old(motor.leaningState), b.leanLeftHeld, b.leanRightHeld)
    ensures motor.isRunning == (b.runHeld && (old(motor.isRunning) || movementMagnitude > 0.01))
    ensures motor.wantsToJump == (old(motor.wantsToJump) || (b.jumpPressed && motor.grounded))
  {
    UpdateLean(motor, b.leanLeftHeld, b.leanRightHeld);
    UpdateRun(motor, b.runHeld, movementMagnitude);
    if b.jumpPressed {
      var _ := motor.TryStartJump();
    }
  }

  /** The fire, fire-mode and zoom buttons. */
  method FireInput(handler: WeaponHandling.WeaponHandler, b: Buttons, now: real, fireConditions: bool)
    modifies handler`isFiring, handler`isZoomed, handler.currentWeapon
    ensures !b.zoomPressed ==> handler.isZoomed == old(handler.isZoomed)
    ensures b.fireReleased && !WeaponHandling.Present(handler.currentWeapon) ==> !handler.isFiring
  {
    if b.firePressed {
      var _, _ := handler.TryStartFire(now, fireConditions);
    }
    if b.fireReleased {
      var _ := handler.TryStopFire();
    }
    if b.changeFireModePressed {
      ChangeFireMode(handler);
    }
    if b.zoomPressed {
      ToggleZoom(handler);
    }
  }

  /** The stance and sneak buttons. */
  method StanceInput(motor: Motors.RigidbodyMotor, footsteps: Footsteps.EntityFootsteps, b: Buttons)
    modifies motor`stanceState, footsteps`isSneaking
    ensures motor.stanceState == StanceAfterToggles(old(motor.stanceState), b.crouchPressed, b.pronePressed)
    ensures footsteps.isSneaking == (old(footsteps.isSneaking) != b.sneakPressed)
  {
    if b.crouchPressed {
      ToggleCrouch(motor);
    }
    if b.pronePressed {
      ToggleProne(motor);
    }
    if b.sneakPressed {
      ToggleSneak(footsteps);
    }
  }

  /** The holster, reload and weapon buttons. */
  method WeaponInput(handler: WeaponHandling.WeaponHandler, b: Buttons)
    modifies handler`currentWeapon, handler.weapons, handler.currentWeapon
    ensures b.holsterPressed && (forall i :: 0 <= i < |b.weaponKeys| ==> !b.weaponKeys[i]) ==> handler.currentWeapon == null
    ensures !b.holsterPressed && (forall i :: 0 <= i < |b.weaponKeys| ==> !b.weaponKeys[i]) ==>
      handler.currentWeapon == old(handler.currentWeapon)
    ensures var s := LastSelectableSlot(b.weaponKeys, handler.weapons);
      s.Some? ==> handler.currentWeapon == handler.weapons[s.value]
  {
    if b.holsterPressed {
      handler.HolsterWeapon();
    }
    if b.reloadPressed {
      var _ := handler.TryStartReload();
    }
    SelectWeaponKeys(handler, b.weaponKeys);
  }

  /** The buttons after the movement buttons: fire, fire mode, zoom, stance, sneak, holster, reload and weapons. */
  method ActionInput(motor: Motors.RigidbodyMotor, handler: WeaponHandling.WeaponHandler,
                     footsteps: Footsteps.EntityFootsteps, b: Buttons, now: real, fireConditions: bool)
    modifies motor`stanceState, footsteps`isSneaking
    modifies handler`isFiring, handler`isZoomed, handler`currentWeapon, handler.weapons, handler.currentWeapon
    ensures motor.stanceState == StanceAfterToggles(old(motor.stanceState), b.crouchPressed, b.pronePressed)
    ensures footsteps.isSneaking == (old(footsteps.isSneaking) != b.sneakPressed)
    ensures !b.zoomPressed ==> handler.isZoomed == old(handler.isZoomed)
  {
    FireInput(handler, b, now, fireConditions);
    StanceInput(motor, footsteps, b);
    WeaponInput(handler, b);
  }

  /**
   * One frame of the controller, its button groups in source order. `aimed`
   * is the interactable the view ray hits, if any, and `inRange` its
   * distance condition; `fireConditions` stands for the start conditions
   * other components put on weapon fire.
   */
  method Update(motor: Motors.RigidbodyMotor, handler: WeaponHandling.WeaponHandler,
                footsteps: Footsteps.EntityFootsteps, interaction: Interaction.EntityInteractionHandler,
                b: Buttons, now: real, movementMagnitude: real, fireConditions: bool,
                aimed: Option<Interaction.Interactable>, inRange: bool)
    requires interaction.Valid()
    modifies motor, footsteps, interaction, handler, handler.weapons, handler.currentWeapon
    ensures interaction.Valid()
    ensures motor.leaningState == LeanAfterInput(old(motor.leaningState), b.leanLeftHeld, b.leanRightHeld)
    ensures motor.isRunning == (b.runHeld && (old(motor.isRunning) || movementMagnitude > 0.01))
    ensures motor.wantsToJump == (old(motor.wantsToJump) || (b.jumpPressed && old(motor.grounded)))
    ensures motor.stanceState == StanceAfterToggles(old(motor.stanceState), b.crouchPressed, b.pronePressed)
    ensures footsteps.isSneaking == (old(footsteps.isSneaking) != b.sneakPressed)
    ensures !b.zoomPressed ==> handler.isZoomed == old(handler.isZoomed)
  {
    InteractInput(interaction, b, now, aimed, inRange);
    MovementInput(motor, b, movementMagnitude);
    ActionInput(motor, handler, footsteps, b, now, fireConditions);
  }
}
