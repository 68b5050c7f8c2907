/**
 * A first-person weapon (Weapon.cs) and its projectile shooter
 * (WeaponProjectileShooter.cs). The weapon reads and writes its reserve
 * ammo through the entity's inventory; firing and reloading go through the
 * weapon's own fire and reload activities.
 */
module Weapons {
  import opened Types
  import Activities
  import Inventory

  /** Inventory map and clip after a reload completes. */
  datatype ReloadResult = ReloadResult(inv: Inventory.Contents, clip: int)

  /**
   * Reload completion, step by step through the ammo getter and setter: the
   * clip goes back to the reserve, the clip is refilled with at most its
   * size, and that amount is taken from the reserve. Without an inventory
   * entry the setter does nothing and the getter reads 0, so the rounds that
   * were in the clip are lost.
   */
  function ReloadOutcome(inv: Inventory.Contents, def: WeaponDefinition, clip: int, clipSize: int): (r: ReloadResult)
    ensures def in inv ==> Inventory.AmmoIn(r.inv, def) + r.clip == Inventory.AmmoIn(inv, def) + clip
    ensures def in inv ==> r.clip == Min(clipSize, Inventory.AmmoIn(inv, def) + clip)
    ensures r.clip <= clipSize && Inventory.AmmoIn(r.inv, def) >= 0
    ensures r.inv.Keys == inv.Keys
    ensures forall w :: w != def ==> Inventory.AmmoIn(r.inv, w) == Inventory.AmmoIn(inv, w)
    ensures def !in inv ==> r.inv == inv && r.clip == Min(clipSize, 0)
  {
    var inv1 := Inventory.AfterSetAmmo(inv, def, Inventory.AmmoIn(inv, def) + clip);
    var loaded := Min(clipSize, Inventory.AmmoIn(inv1, def));
    var inv2 := Inventory.AfterSetAmmo(inv1, def, Inventory.AmmoIn(inv1, def) - loaded);
    ReloadResult(inv2, loaded)
  }

  /** A reload that starts with a reserve and a non-full clip leaves a clip that is full or holds every round. */
  lemma ReloadFillsClip(inv: Inventory.Contents, def: WeaponDefinition, clip: int, clipSize: int)
    requires def in inv && inv[def] > 0 && clip < clipSize
    ensures var r := ReloadOutcome(inv, def, clip, clipSize);
      r.clip > clip && (r.clip == clipSize || Inventory.AmmoIn(r.inv, def) == 0)
  {
  }

  class Weapon {
    const definition: WeaponDefinition
    const clipSize: int
    /** The entity's inventory, which the ammo getter and setter of the entity model reach. */
    const inventory: Inventory.SimpleInventory
    var currentFireMode: FireMode
    var ammoInClip: int
    var isReloading: bool
    var isFiring: bool
    /** Time at which the fire cooldown ends; -1 when no cooldown is pending. */
    var fireCooldownOver: real
    /** Whether the weapon's game object is active. */
    var goActive: bool
    /** Whether the weapon's game object was destroyed (Unity then compares it equal to null). */
    var destroyed: bool
    /** The footsteps the weapon's first-person animation was handed, oldest first. */
    var footstepsReceived: seq<Foot>
    /** The external forces applied to the weapon's animation springs, oldest first. */
    var forcesReceived: seq<Vec3>

    /** Instantiating the definition's prefab. */
    constructor (definition: WeaponDefinition, inventory: Inventory.SimpleInventory)
      ensures this.definition == definition && this.inventory == inventory
      ensures clipSize == definition.prefab.clipSize && ammoInClip == definition.prefab.ammoInClip
      ensures currentFireMode == definition.prefab.fireMode
      ensures !isReloading && !isFiring && fireCooldownOver == 0.0
      ensures goActive && !destroyed
      ensures footstepsReceived == [] && forcesReceived == []
    {
      this.definition := definition;
      this.inventory := inventory;
      clipSize := definition.prefab.clipSize;
      ammoInClip := definition.prefab.ammoInClip;
      currentFireMode := definition.prefab.fireMode;
      isReloading := false;
      isFiring := false;
      fireCooldownOver := 0.0;
      goActive := true;
      destroyed := false;
      footstepsReceived := [];
      forcesReceived := [];
    }

    /** Reserve ammo, read through the entity model's ammo getter. */
    function Ammo(): int
      reads this, inventory
    {
      inventory.GetAmmo(definition)
    }

    predicate IsBusy()
      reads this
    {
      isReloading || isFiring
    }

    /** The start condition of the fire activity. */
    predicate CanFireStart()
      reads this
    {
      ammoInClip > 0 && !IsBusy()
    }

    /** What the weapon handler asks before firing: only that the weapon is not busy. */
    predicate CanFire()
      reads this
    {
      !IsBusy()
    }

    /** The start condition of the reload activity, and so whether it can start. */
    predicate CanReload()
      reads this, inventory
    {
      Ammo() > 0 && ammoInClip < clipSize && !IsBusy()
    }

    predicate CanSetFireMode(mode: FireMode)
      reads this
    {
      mode in definition.fireModes
    }

    /** Firing with an empty clip passes the handler's check but not the fire activity's start condition. */
    lemma EmptyClipPassesOnlyTheHandlerCheck()
      requires ammoInClip <= 0 && !IsBusy()
      ensures CanFire() && !CanFireStart()
    {
    }

    /** A busy weapon (reloading or firing) can neither fire nor start a reload. */
    lemma BusyBlocksBoth()
      requires IsBusy()
      ensures !CanFire() && !CanFireStart() && !CanReload()
    {
    }

    method SetFireMode(mode: FireMode)
      modifies this`currentFireMode
      ensures currentFireMode == (if mode in definition.fireModes then mode else old(currentFireMode))
    {
      if !CanSetFireMode(mode) {
        return;
      }
      currentFireMode := mode;
    }

    /**
     * Starting a reload: the weapon marks itself reloading and forces the
     * reload activity to start. Completion is `ReloadDone`, which the source
     * schedules after the reload cooldown.
     */
    method Reload()
      modifies this`isReloading
      ensures isReloading
    {
      isReloading := true;
    }

    /** Reload completion: forces the reload activity to stop and moves ammo from the reserve to the clip. */
    method ReloadDone()
      modifies this`ammoInClip, this`isReloading, inventory
      ensures var r := ReloadOutcome(old(inventory.contents), definition, old(ammoInClip), clipSize);
        inventory.contents == r.inv && ammoInClip == r.clip
      ensures !isReloading
    {
      var ammo := inventory.GetAmmo(definition);
      inventory.SetAmmo(definition, ammo + ammoInClip);
      ammo := inventory.GetAmmo(definition);
      ammoInClip := Min(clipSize, ammo);
      ammo := inventory.GetAmmo(definition);
      inventory.SetAmmo(definition, ammo - ammoInClip);
      isReloading := false;
    }

    /** The projectile shooter's start handler of the fire activity: one round leaves the clip. */
    method ShooterOnFire()
      modifies this`ammoInClip
      ensures ammoInClip == old(ammoInClip) - 1
    {
      ammoInClip := ammoInClip - 1;
    }

    /**
     * Firing: an attempt to start the fire activity, whose start handler
     * takes a round; then the weapon is firing and the cooldown is set,
     * whether or not the attempt succeeded. `otherConditions` is the
     * conjunction of the start conditions other components register on the
     * fire activity (the first-person animation forbids firing while the
     * weapon collides with the world).
     */
    method Fire(now: real, otherConditions: bool) returns (started: bool)
      modifies this`ammoInClip, this`isFiring, this`fireCooldownOver
      ensures started == (old(CanFireStart()) && otherConditions)
      ensures ammoInClip == (if started then old(ammoInClip) - 1 else old(ammoInClip))
      ensures isFiring && fireCooldownOver == now + definition.shootingCooldown
    {
      started := Activities.TryStartSucceeds(isFiring, CanFireStart() && otherConditions);
      if started {
        ShooterOnFire();
      }
      isFiring := true;
      fireCooldownOver := now + definition.shootingCooldown;
    }

    /** The per-frame update: once the cooldown has passed, the fire activity is forced to stop. */
    method Update(now: real, deltaTime: real) returns (fireDone: bool)
      modifies this`isFiring, this`fireCooldownOver
      ensures fireDone == (old(fireCooldownOver) != -1.0 && now + deltaTime >= old(fireCooldownOver))
      ensures fireDone ==> !isFiring && fireCooldownOver == -1.0
      ensures !fireDone ==> isFiring == old(isFiring) && fireCooldownOver == old(fireCooldownOver)
    {
      fireDone := false;
      if fireCooldownOver == -1.0 {
        return;
      }
      if now + deltaTime >= fireCooldownOver {
        isFiring := false;
        fireCooldownOver := -1.0;
        fireDone := true;
      }
    }
  }

  /**
   * The spread the shooter steers towards: the base spread, scaled down
   * while crouching and up while moving faster than 0.01.
   */
  function SpreadTarget(baseSpread: real, crouchedModifier: real, movingModifier: real,
                        crouching: bool, movementMagnitude: real): (r: real)
    ensures r == baseSpread * (if crouching then crouchedModifier else 1.0)
                            * (if movementMagnitude > 0.01 then movingModifier else 1.0)
  {
    var target := baseSpread;
    var target := if crouching then target * crouchedModifier else target;
    if movementMagnitude > 0.01 then target * movingModifier else target
  }

  /** With the default modifiers a crouching, still entity aims tighter and a moving one wider. */
  lemma DefaultModifiersOrder(baseSpread: real, movementMagnitude: real)
    requires baseSpread > 0.0
    ensures SpreadTarget(baseSpread, 0.4, 4.0, true, 0.0) < baseSpread
    ensures movementMagnitude > 0.01 ==> SpreadTarget(baseSpread, 0.4, 4.0, false, movementMagnitude) > baseSpread
  {
  }

  /** The projectile shooter's spread state. */
  class ProjectileShooter {
    const weapon: Weapon
    var movingSpreadModifier: real
    var crouchedSpreadModifier: real
    var spreadLerpIntensity: real
    var spread: real

    /** Awake: the spread starts at the weapon's base spread. */
    constructor (weapon: Weapon)
      ensures this.weapon == weapon
      ensures movingSpreadModifier == 4.0 && crouchedSpreadModifier == 0.4 && spreadLerpIntensity == 10.0
      ensures spread == weapon.definition.Spread()
    {
      this.weapon := weapon;
      movingSpreadModifier := 4.0;
      crouchedSpreadModifier := 0.4;
      spreadLerpIntensity := 10.0;
      spread := weapon.definition.Spread();
    }

    /** The per-frame update: the spread moves towards the target, never past it. */
    method Update(crouching: bool, movementMagnitude: real, deltaTime: real)
      modifies this`spread
      ensures var target := SpreadTarget(weapon.definition.Spread(), crouchedSpreadModifier,
                                         movingSpreadModifier, crouching, movementMagnitude);
        spread == Lerp(old(spread), target, deltaTime * spreadLerpIntensity)
        && (old(spread) <= target ==> old(spread) <= spread <= target)
        && (target <= old(spread) ==> target <= spread <= old(spread))
    {
      var spreadTarget := SpreadTarget(weapon.definition.Spread(), crouchedSpreadModifier,
                                       movingSpreadModifier, crouching, movementMagnitude);
      spread := Lerp(spread, spreadTarget, deltaTime * spreadLerpIntensity);
    }
  }
}
