/**
 * The entity's weapon handler (EntityWeaponHandler.cs) together with its
 * first-person specialisation (FirstPersonWeaponHandler.cs), which adds
 * zooming, footstep and force forwarding and the creation of weapon
 * instances. The two are one object at run time, so they are one class here.
 *
 * Unity compares a destroyed object equal to null with `==`, while a
 * reference-equality test sees the object; `Present` is the former, `!= null`
 * on the field is the latter, and the model keeps each test as the source
 * writes it.
 */
module WeaponHandling {
  import opened Types
  import Activities
  import Inventory
  import Weapons

  /** Position of the first weapon built from `def` (a filter followed by first-or-default). */
  function FirstWithDefinition(ws: seq<Weapons.Weapon>, def: WeaponDefinition): (r: Option<nat>)
    ensures r.Some? ==> r.value < |ws| && ws[r.value].definition == def
    ensures r.Some? ==> forall j :: 0 <= j < r.value ==> ws[j].definition != def
    ensures r.None? ==> forall j :: 0 <= j < |ws| ==> ws[j].definition != def
    decreases |ws|
  {
    if ws == [] then None
    else if ws[0].definition == def then Some(0)
    else match FirstWithDefinition(ws[1..], def)
      case None => None
      case Some(i) => Some(i + 1)
  }

  /** Position of the first occurrence of the object `w`, or -1 (the list's IndexOf). */
  function IndexOf(ws: seq<Weapons.Weapon>, w: Weapons.Weapon): (r: int)
    ensures -1 <= r < |ws|
    ensures r >= 0 ==> ws[r] == w && forall j :: 0 <= j < r ==> ws[j] != w
    ensures r == -1 ==> w !in ws
    decreases |ws|
  {
    if ws == [] then -1
    else if ws[0] == w then 0
    else
      var i := IndexOf(ws[1..], w);
      if i == -1 then -1 else i + 1
  }

  /** The list without position `i`: removing the first occurrence of the object there. */
  function RemoveAt(ws: seq<Weapons.Weapon>, i: nat): (r: seq<Weapons.Weapon>)
    requires i < |ws|
    ensures |r| == |ws| - 1
    ensures forall j :: 0 <= j < i ==> r[j] == ws[j]
    ensures forall j :: i <= j < |r| ==> r[j] == ws[j + 1]
  {
    ws[..i] + ws[i + 1..]
  }

  /**
   * The weapon found for a definition sits at its own first occurrence, so
   * selecting a weapon by definition selects the position it was found at.
   */
  lemma FoundWeaponIndex(ws: seq<Weapons.Weapon>, def: WeaponDefinition)
    requires FirstWithDefinition(ws, def).Some?
    ensures IndexOf(ws, ws[FirstWithDefinition(ws, def).value]) == FirstWithDefinition(ws, def).value
  {
  }

  /** Unity's `!= null` on a weapon: a reference to an object that was not destroyed. */
  predicate Present(w: Weapons.Weapon?)
    reads (if w == null then {} else {w})`destroyed
  {
    w != null && !w.destroyed
  }

  class WeaponHandler {
    /** The entity's inventory, handed to every weapon this handler creates. */
    const inventory: Inventory.SimpleInventory
    var weapons: seq<Weapons.Weapon>
    var currentWeapon: Weapons.Weapon?
    /** Set while a full-auto trigger is held. */
    var isFiring: bool
    var isZoomed: bool

    constructor (inventory: Inventory.SimpleInventory)
      ensures this.inventory == inventory
      ensures weapons == [] && currentWeapon == null && !isFiring && !isZoomed
    {
      this.inventory := inventory;
      weapons := [];
      currentWeapon := null;
      isFiring := false;
      isZoomed := false;
    }

    /** The weapon held for a definition, or null. */
    function GetWeaponInstance(def: WeaponDefinition): (w: Weapons.Weapon?)
      reads this
      ensures w != null ==> w in weapons && w.definition == def
      ensures w == null ==> forall x :: x in weapons ==> x.definition != def
    {
      match FirstWithDefinition(weapons, def)
      case Some(i) => weapons[i]
      case None => null
    }

    /** The current weapon reference as a frame: empty when there is none. */
    function CurrentWeaponSet(): set<Weapons.Weapon>
      reads this
    {
      if currentWeapon == null then {} else {currentWeapon}
    }

    function GetCurrentWeaponDefinition(): Option<WeaponDefinition>
      reads this, currentWeapon
    {
      if !Present(currentWeapon) then None else Some(currentWeapon.definition)
    }

    /** The weapon creation of the first-person handler: an inactive instance of the definition's prefab. */
    method CreateWeapon(def: WeaponDefinition) returns (ok: bool, w: Weapons.Weapon)
      ensures ok && fresh(w)
      ensures w.definition == def && w.inventory == inventory && !w.goActive && !w.destroyed
      ensures w.ammoInClip == def.prefab.ammoInClip && !w.isFiring && !w.isReloading
      ensures w.footstepsReceived == [] && w.forcesReceived == []
    {
      w := new Weapons.Weapon(def, inventory);
      w.goActive := false;
      ok := true;
    }

    /** The handler of the picked-up event: a new inactive weapon is appended. */
    method OnPickupWeapon(def: WeaponDefinition) returns (w: Weapons.Weapon)
      modifies this`weapons
      ensures fresh(w) && weapons == old(weapons) + [w]
      ensures w.definition == def && w.inventory == inventory && !w.goActive && !w.destroyed
      ensures w.footstepsReceived == [] && w.forcesReceived == []
    {
      var ok;
      ok, w := CreateWeapon(def);
      if ok {
        weapons := weapons + [w];
      }
    }

    /**
     * The handler of the dropped event: the first weapon held for the
     * definition leaves the list and is destroyed. The current-weapon field is
     * left as it is, even when it pointed at that weapon.
     */
    method OnDropWeapon(def: WeaponDefinition)
      modifies this`weapons, set w | w in weapons :: w`destroyed
      ensures var i := FirstWithDefinition(old(weapons), def);
        if i.Some? && !old(weapons[i.value].destroyed) then
          weapons == RemoveAt(old(weapons), i.value) && old(weapons[i.value]).destroyed
        else
          weapons == old(weapons)
      ensures forall w :: w in old(weapons) && w.destroyed != old(w.destroyed) ==> w.definition == def
      ensures currentWeapon == old(currentWeapon)
    {
      var w := GetWeaponInstance(def);
      if !Present(w) {
        return;
      }
      var i := FirstWithDefinition(weapons, def).value;
      FoundWeaponIndex(weapons, def);
      weapons := RemoveAt(weapons, i);
      w.destroyed := true;
    }

    /** Holstering: every weapon's game object is deactivated and no weapon is current. */
    method HolsterWeapon()
      modifies this`currentWeapon, set w | w in weapons :: w`goActive
      ensures currentWeapon == null
      ensures forall w :: w in weapons ==> !w.goActive
      ensures forall w :: w in weapons ==> w.ammoInClip == old(w.ammoInClip) && w.destroyed == old(w.destroyed)
    {
      var i := 0;
      while i < |weapons|
        invariant 0 <= i <= |weapons|
        invariant forall j :: 0 <= j < i ==> !weapons[j].goActive
        invariant forall w :: w in weapons ==> w.ammoInClip == old(w.ammoInClip) && w.destroyed == old(w.destroyed)
      {
        assert weapons[i] in weapons;
        weapons[i].goActive := false;
        i := i + 1;
      }
      currentWeapon := null;
    }

    /** A slot can be selected when it exists and holds a weapon. */
    predicate CanSelectWeaponByIndex(index: int)
      reads this, weapons
    {
      if index < 0 || index >= |weapons| || !Present(weapons[index]) then false else true
    }

    /**
     * Selecting a slot: nothing happens when that weapon is already current;
     * otherwise everything is holstered and only the selected weapon is active.
     */
    method OnSelectWeaponByIndex(index: int)
      requires 0 <= index < |weapons|
      modifies this`currentWeapon, set w | w in weapons :: w`goActive
      ensures old(currentWeapon) == weapons[index] ==>
        currentWeapon == old(currentWeapon) && forall w :: w in weapons ==> w.goActive == old(w.goActive)
      ensures old(currentWeapon) != weapons[index] ==>
        currentWeapon == weapons[index] && forall w :: w in weapons ==> (w.goActive <==> w == weapons[index])
      ensures forall w :: w in weapons ==> w.ammoInClip == old(w.ammoInClip) && w.destroyed == old(w.destroyed)
    {
      if currentWeapon == weapons[index] {
        return;
      }
      HolsterWeapon();
      currentWeapon := weapons[index];
      assert currentWeapon in weapons;
      currentWeapon.goActive := true;
    }

    predicate CanSelectWeapon(def: WeaponDefinition)
      reads this, weapons
    {
      Present(GetWeaponInstance(def))
    }

    /** Selecting by definition: an error is logged when no weapon is held for it. */
    method OnSelectWeapon(def: WeaponDefinition) returns (loggedError: bool)
      modifies this`currentWeapon, set w | w in weapons :: w`goActive
      ensures loggedError == !old(CanSelectWeapon(def))
      ensures loggedError ==> currentWeapon == old(currentWeapon) && forall w :: w in weapons ==> w.goActive == old(w.goActive)
      ensures !loggedError ==> currentWeapon == GetWeaponInstance(def)
      ensures !loggedError && currentWeapon != old(currentWeapon) ==> forall w :: w in weapons ==> (w.goActive <==> w == currentWeapon)
      ensures forall w :: w in weapons ==> w.ammoInClip == old(w.ammoInClip) && w.destroyed == old(w.destroyed)
    {
      var w := GetWeaponInstance(def);
      if !Present(w) {
        loggedError := true;
      } else {
        loggedError := false;
        FoundWeaponIndex(weapons, def);
        OnSelectWeaponByIndex(IndexOf(weapons, w));
      }
    }

    /** The fire modes offered: none without a weapon. */
    function GetFireModes(): (r: seq<FireMode>)
      reads this, currentWeapon
      ensures !Present(currentWeapon) ==> r == []
      ensures Present(currentWeapon) ==> r == currentWeapon.definition.fireModes
    {
      if !Present(currentWeapon) then [] else currentWeapon.definition.fireModes
    }

    /** The fire mode: `Null` only when there is no weapon reference at all. */
    function GetFireMode(): (r: FireMode)
      reads this, currentWeapon
      ensures currentWeapon == null ==> r == Null
      ensures currentWeapon != null ==> r == currentWeapon.currentFireMode
    {
      if currentWeapon == null then Null else currentWeapon.currentFireMode
    }

    predicate CanSetFireMode(mode: FireMode)
      reads this, currentWeapon
    {
      if currentWeapon == null then false else currentWeapon.CanSetFireMode(mode)
    }

    method SetFireMode(mode: FireMode)
      requires currentWeapon != null
      modifies currentWeapon`currentFireMode
      ensures currentWeapon.currentFireMode ==
        (if mode in currentWeapon.definition.fireModes then mode else old(currentWeapon.currentFireMode))
    {
      currentWeapon.SetFireMode(mode);
    }

    /**
     * After the current weapon is dropped the reference still points at the
     * destroyed weapon: the mode list is empty, but the mode is the weapon's
     * own and a mode can still be set.
     */
    lemma DroppedCurrentWeaponViews()
      requires currentWeapon != null && currentWeapon.destroyed
      requires currentWeapon.currentFireMode == SemiAuto && SemiAuto in currentWeapon.definition.fireModes
      ensures GetFireModes() == [] && GetFireMode() == SemiAuto && CanSetFireMode(SemiAuto)
      ensures !CanFire() && !CanReload() && !CanZoom()
    {
    }

    predicate IsFiring()
      reads this, currentWeapon
    {
      isFiring || (Present(currentWeapon) && currentWeapon.isFiring)
    }

    predicate CanFire()
      reads this, currentWeapon
    {
      Present(currentWeapon) && currentWeapon.CanFire()
    }

    /**
     * The start handler of the entity's fire activity: a semi-auto weapon
     * fires once, a full-auto weapon only raises the handler's flag, which
     * the late update turns into shots.
     */
    method OnFire(now: real, otherConditions: bool) returns (shot: bool)
      modifies this`isFiring, CurrentWeaponSet()`ammoInClip, CurrentWeaponSet()`isFiring, CurrentWeaponSet()`fireCooldownOver
      ensures shot == (old(Present(currentWeapon)) && old(currentWeapon.currentFireMode) == SemiAuto)
      ensures isFiring == (old(isFiring) || (old(Present(currentWeapon)) && old(currentWeapon.currentFireMode) == FullAuto))
      ensures shot ==> currentWeapon.isFiring && currentWeapon.fireCooldownOver == now + currentWeapon.definition.shootingCooldown
      ensures shot ==> (currentWeapon.ammoInClip ==
        if old(currentWeapon.CanFireStart()) && otherConditions then old(currentWeapon.ammoInClip) - 1 else old(currentWeapon.ammoInClip))
      ensures !shot && currentWeapon != null ==> unchanged(currentWeapon)
    {
      shot := false;
      if !Present(currentWeapon) {
        return;
      }
      if currentWeapon.currentFireMode == SemiAuto {
        var _ := currentWeapon.Fire(now, otherConditions);
        shot := true;
      } else if currentWeapon.currentFireMode == FullAuto {
        isFiring := true;
      }
    }

    method OnFireStop()
      modifies this`isFiring
      ensures !isFiring
    {
      isFiring := false;
    }

    /** The attempt to start the entity's fire activity. */
    method TryStartFire(now: real, otherConditions: bool) returns (started: bool, shot: bool)
      modifies this`isFiring, CurrentWeaponSet()`ammoInClip, CurrentWeaponSet()`isFiring, CurrentWeaponSet()`fireCooldownOver
      ensures started == Activities.TryStartSucceeds(old(IsFiring()), old(CanFire()))
      ensures !started ==> !shot && isFiring == old(isFiring) && (currentWeapon != null ==> unchanged(currentWeapon))
      ensures started ==> shot == (old(currentWeapon.currentFireMode) == SemiAuto)
      ensures started ==> isFiring == (old(currentWeapon.currentFireMode) == FullAuto)
      ensures shot ==> currentWeapon.isFiring && currentWeapon.fireCooldownOver == now + currentWeapon.definition.shootingCooldown
      ensures shot ==> (currentWeapon.ammoInClip ==
        if old(currentWeapon.CanFireStart()) && otherConditions then old(currentWeapon.ammoInClip) - 1 else old(currentWeapon.ammoInClip))
      ensures !shot && currentWeapon != null ==> unchanged(currentWeapon)
    {
      started := Activities.TryStartSucceeds(IsFiring(), CanFire());
      shot := false;
      if started {
        shot := OnFire(now, otherConditions);
      }
    }

    /** The attempt to stop the entity's fire activity. */
    method TryStopFire() returns (stopped: bool)
      modifies this`isFiring
      ensures stopped == old(IsFiring())
      ensures stopped ==> !isFiring
      ensures !stopped ==> isFiring == old(isFiring)
    {
      stopped := Activities.TryStopSucceeds(IsFiring());
      if stopped {
        OnFireStop();
      }
    }

    /**
     * The late update: while the full-auto flag is up, the weapon fires
     * whenever it is not busy, and the flag drops once the clip is empty.
     */
    method LateUpdate(now: real, otherConditions: bool) returns (shot: bool)
      modifies this`isFiring, CurrentWeaponSet()`ammoInClip, CurrentWeaponSet()`isFiring, CurrentWeaponSet()`fireCooldownOver
      ensures shot == (old(isFiring) && old(Present(currentWeapon)) && old(currentWeapon.CanFire()))
      ensures shot ==> currentWeapon.isFiring && currentWeapon.fireCooldownOver == now + currentWeapon.definition.shootingCooldown
      ensures shot ==> (currentWeapon.ammoInClip ==
        if old(currentWeapon.CanFireStart()) && otherConditions then old(currentWeapon.ammoInClip) - 1 else old(currentWeapon.ammoInClip))
      ensures !shot && currentWeapon != null ==> unchanged(currentWeapon)
      ensures isFiring == (old(isFiring) && !(old(Present(currentWeapon)) && currentWeapon.ammoInClip <= 0))
    {
      shot := false;
      if isFiring && Present(currentWeapon) {
        if currentWeapon.CanFire() {
          var _ := currentWeapon.Fire(now, otherConditions);
          shot := true;
        }
        if currentWeapon.ammoInClip <= 0 {
          isFiring := false;
        }
      }
    }

    predicate IsReloading()
      reads this, currentWeapon
    {
      Present(currentWeapon) && currentWeapon.isReloading
    }

    predicate CanReload()
      reads this, currentWeapon, if currentWeapon != null then {currentWeapon.inventory} else {}
    {
      Present(currentWeapon) && currentWeapon.CanReload()
    }

    method OnReload()
      requires currentWeapon != null
      modifies currentWeapon`isReloading
      ensures currentWeapon.isReloading
    {
      currentWeapon.Reload();
    }

    /** The attempt to start the entity's reload activity. */
    method TryStartReload() returns (started: bool)
      modifies CurrentWeaponSet()`isReloading
      ensures started == Activities.TryStartSucceeds(old(IsReloading()), old(CanReload()))
      ensures started ==> currentWeapon.isReloading
      ensures !started && currentWeapon != null ==> unchanged(currentWeapon)
    {
      started := Activities.TryStartSucceeds(IsReloading(), CanReload());
      if started {
        OnReload();
      }
    }

    /** Zooming needs a weapon and is not already on. */
    predicate CanZoom()
      reads this, currentWeapon
    {
      Present(currentWeapon) && !isZoomed
    }

    /** The attempt to start zooming. */
    method TryStartZoom() returns (started: bool)
      modifies this`isZoomed
      ensures started == old(CanZoom())
      ensures isZoomed == (old(isZoomed) || started)
    {
      started := Activities.TryStartSucceeds(isZoomed, CanZoom());
      if started {
        isZoomed := true;
      }
    }

    /** The attempt to stop zooming. */
    method TryStopZoom() returns (stopped: bool)
      modifies this`isZoomed
      ensures stopped == old(isZoomed)
      ensures !isZoomed
    {
      stopped := Activities.TryStopSucceeds(isZoomed);
      if stopped {
        isZoomed := false;
      }
    }

    /** The first-person update: without a weapon, zooming is forced to stop. */
    method Update()
      modifies this`isZoomed
      ensures isZoomed == (old(isZoomed) && Present(currentWeapon))
    {
      if !Present(currentWeapon) {
        if isZoomed {
          isZoomed := false;
        }
      }
    }

    /**
     * The footstep handler: the step is handed to the current weapon's
     * animation when the weapon is present by Unity's null test.
     */
    method OnFootstep(foot: Foot)
      modifies CurrentWeaponSet()`footstepsReceived
      ensures old(Present(currentWeapon)) ==> currentWeapon.footstepsReceived == old(currentWeapon.footstepsReceived) + [foot]
      ensures currentWeapon != null && !old(Present(currentWeapon)) ==> unchanged(currentWeapon)
    {
      if Present(currentWeapon) {
        currentWeapon.footstepsReceived := currentWeapon.footstepsReceived + [foot];
      }
    }

    /**
     * The external-force handler. Its guard is a reference test, which a
     * destroyed weapon passes; the weapon's animation component is then
     * looked up on the destroyed game object, which raises Unity's
     * MissingReferenceException (`threw`), so no force is applied. A present
     * weapon receives the force.
     */
    method OnExternalForce(force: Vec3) returns (threw: bool)
      modifies CurrentWeaponSet()`forcesReceived
      ensures threw == (currentWeapon != null && currentWeapon.destroyed)
      ensures Present(currentWeapon) ==> currentWeapon.forcesReceived == old(currentWeapon.forcesReceived) + [force]
      ensures threw ==> unchanged(currentWeapon)
    {
      threw := false;
      if currentWeapon != null {
        if currentWeapon.destroyed {
          threw := true;
        } else {
          currentWeapon.forcesReceived := currentWeapon.forcesReceived + [force];
        }
      }
    }
  }

  /**
   * After the current weapon is dropped, neither a footstep nor an external
   * force reaches it: the footstep handler's Unity null test skips the
   * destroyed weapon quietly, while the force handler's reference test lets
   * it through and then throws.
   */
  method DroppedWeaponForwarding(def: WeaponDefinition, foot: Foot, force: Vec3)
    returns (footsteps: seq<Foot>, forces: seq<Vec3>, threw: bool)
    ensures footsteps == [] && forces == [] && threw
  {
    var inventory := new Inventory.SimpleInventory(4);
    var handler := new WeaponHandler(inventory);
    var w := handler.OnPickupWeapon(def);
    assert handler.weapons == [w] && handler.currentWeapon == null;
    handler.OnSelectWeaponByIndex(0);
    assert handler.currentWeapon == w && !w.destroyed;
    assert FirstWithDefinition([w], def) == Some(0);
    handler.OnDropWeapon(def);
    assert handler.currentWeapon == w && w.destroyed;
    handler.OnFootstep(foot);
    threw := handler.OnExternalForce(force);
    footsteps, forces := w.footstepsReceived, w.forcesReceived;
  }
}
