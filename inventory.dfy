/**
 * The simple inventory: a map from weapon definitions to reserve ammo with
 * a capacity on the number of weapons (SimpleInventory.cs). Pure functions
 * on the map specify the handlers; the class holds the map and updates it.
 */
module Inventory {
  import opened Types

  type Contents = map<WeaponDefinition, int>

  /** Reserve ammo for `weapon`: the stored amount, or 0 without an entry. */
  function AmmoIn(inv: Contents, weapon: WeaponDefinition): int
  {
    if weapon in inv then inv[weapon] else 0
  }

  /** The map after the ammo setter: an existing entry is overwritten, nothing is ever added. */
  function AfterSetAmmo(inv: Contents, weapon: WeaponDefinition, ammo: int): (r: Contents)
    ensures r.Keys == inv.Keys
    ensures AmmoIn(r, weapon) == (if weapon in inv then ammo else 0)
    ensures forall w :: w != weapon ==> AmmoIn(r, w) == AmmoIn(inv, w)
  {
    if weapon in inv then inv[weapon := ammo] else inv
  }

  /** The pickup condition: room for another weapon and no entry for this one yet. */
  predicate CanPickup(inv: Contents, maxAmountWeapons: int, t: WeaponAmmoTuple)
  {
    if |inv| >= maxAmountWeapons then false else t.weapon !in inv
  }

  /** The map after the pickup handler: the picked-up ammo is added to the reserve (0 without an entry). */
  function AfterPickup(inv: Contents, t: WeaponAmmoTuple): (r: Contents)
    ensures r.Keys == inv.Keys + {t.weapon}
    ensures AmmoIn(r, t.weapon) == AmmoIn(inv, t.weapon) + t.ammo
    ensures forall w :: w != t.weapon ==> AmmoIn(r, w) == AmmoIn(inv, w)
  {
    if t.weapon in inv then inv[t.weapon := inv[t.weapon] + t.ammo] else inv[t.weapon := t.ammo]
  }

  /** The map after the drop handler: the entry, if any, is gone. */
  function AfterDrop(inv: Contents, weapon: WeaponDefinition): (r: Contents)
    ensures r.Keys == inv.Keys - {weapon}
    ensures AmmoIn(r, weapon) == 0
    ensures forall w :: w != weapon ==> AmmoIn(r, w) == AmmoIn(inv, w)
  {
    map w | w in inv && w != weapon :: inv[w]
  }

  /** A gated pickup never takes the inventory past its capacity. */
  lemma PickupRespectsCapacity(inv: Contents, maxAmountWeapons: int, t: WeaponAmmoTuple)
    requires CanPickup(inv, maxAmountWeapons, t)
    ensures |AfterPickup(inv, t)| == |inv| + 1 <= maxAmountWeapons
  {
    var r := AfterPickup(inv, t);
    assert r.Keys == inv.Keys + {t.weapon};
    assert |r.Keys| == |inv.Keys| + 1;
  }

  /** The operations that reach the inventory from outside: the two gated attempts and the ammo setter. */
  datatype Operation =
    | TryPickup(t: WeaponAmmoTuple)
    | TryDrop(weapon: WeaponDefinition)
    | SetAmmo(weapon: WeaponDefinition, ammo: int)

  /** One operation; an attempt whose condition fails leaves the map as it is. */
  function Apply(inv: Contents, maxAmountWeapons: int, op: Operation): Contents
  {
    match op
    case TryPickup(t) => if CanPickup(inv, maxAmountWeapons, t) then AfterPickup(inv, t) else inv
    case TryDrop(w) => if w in inv then AfterDrop(inv, w) else inv
    case SetAmmo(w, a) => AfterSetAmmo(inv, w, a)
  }

  function ApplyAll(inv: Contents, maxAmountWeapons: int, ops: seq<Operation>): Contents
    decreases |ops|
  {
    if ops == [] then inv else ApplyAll(Apply(inv, maxAmountWeapons, ops[0]), maxAmountWeapons, ops[1..])
  }

  /**
   * When entries are added only through the gated pickup, the number of
   * weapons never exceeds the capacity.
   */
  lemma {:induction false} CapacityInvariant(inv: Contents, maxAmountWeapons: int, ops: seq<Operation>)
    requires |inv| <= maxAmountWeapons
    ensures |ApplyAll(inv, maxAmountWeapons, ops)| <= maxAmountWeapons
    decreases |ops|
  {
    if ops != [] {
      var next := Apply(inv, maxAmountWeapons, ops[0]);
      match ops[0] {
        case TryPickup(t) =>
          if CanPickup(inv, maxAmountWeapons, t) {
            PickupRespectsCapacity(inv, maxAmountWeapons, t);
          }
        case TryDrop(w) =>
          if w in inv {
            assert next.Keys == inv.Keys - {w};
            assert |next.Keys| <= |inv.Keys|;
          }
        case SetAmmo(w, a) =>
          assert next.Keys == inv.Keys;
      }
      CapacityInvariant(next, maxAmountWeapons, ops[1..]);
    }
  }

  /** Dropping after a pickup of a new weapon gives back the map as it was. */
  lemma PickupThenDrop(inv: Contents, t: WeaponAmmoTuple)
    requires t.weapon !in inv
    ensures AfterDrop(AfterPickup(inv, t), t.weapon) == inv
  {
    var r := AfterDrop(AfterPickup(inv, t), t.weapon);
    assert r.Keys == inv.Keys;
    forall w | w in inv
      ensures r[w] == inv[w]
    {
      assert AmmoIn(r, w) == AmmoIn(inv, w);
    }
  }

  class SimpleInventory {
    var contents: Contents
    const maxAmountWeapons: int

    constructor (maxAmountWeapons: int)
      ensures this.maxAmountWeapons == maxAmountWeapons
      ensures contents == map[]
    {
      this.maxAmountWeapons := maxAmountWeapons;
      contents := map[];
    }

    /** The ammo getter bound on the entity model. */
    function GetAmmo(weapon: WeaponDefinition): int
      reads this
    {
      AmmoIn(contents, weapon)
    }

    /** The ammo setter handler: only an existing entry is overwritten. */
    method SetAmmo(weapon: WeaponDefinition, ammo: int)
      modifies this
      ensures contents == AfterSetAmmo(old(contents), weapon, ammo)
    {
      if weapon in contents {
        contents := contents[weapon := ammo];
      }
    }

    predicate CanDropWeapon(weapon: WeaponDefinition)
      reads this
    {
      weapon in contents
    }

    /** The drop handler; `dropped` tells whether the dropped-weapon event fired. */
    method OnDropWeapon(weapon: WeaponDefinition) returns (dropped: bool)
      modifies this
      ensures dropped == (weapon in old(contents))
      ensures contents == AfterDrop(old(contents), weapon)
    {
      dropped := weapon in contents;
      if dropped {
        contents := map w | w in contents && w != weapon :: contents[w];
      } else {
        assert contents == AfterDrop(contents, weapon);
      }
    }

    predicate CanPickupWeapon(t: WeaponAmmoTuple)
      reads this
    {
      CanPickup(contents, maxAmountWeapons, t)
    }

    /**
     * The pickup handler. A weapon already held only gains ammo; a new one
     * fires the picked-up event (`pickedUp`) and is added.
     */
    method OnPickupWeapon(t: WeaponAmmoTuple) returns (pickedUp: bool)
      modifies this
      ensures pickedUp == (t.weapon !in old(contents))
      ensures contents == AfterPickup(old(contents), t)
    {
      if t.weapon in contents {
        contents := contents[t.weapon := contents[t.weapon] + t.ammo];
        pickedUp := false;
      } else {
        pickedUp := true;
        contents := contents[t.weapon := t.ammo];
      }
    }

    /** The pickup attempt: the handler runs only when the condition holds. */
    method TryPickupWeapon(t: WeaponAmmoTuple) returns (ok: bool, pickedUp: bool)
      modifies this
      ensures ok == CanPickup(old(contents), maxAmountWeapons, t)
      ensures ok ==> pickedUp && contents == AfterPickup(old(contents), t)
      ensures !ok ==> !pickedUp && contents == old(contents)
      ensures |old(contents)| <= maxAmountWeapons ==> |contents| <= maxAmountWeapons
    {
      ok := CanPickupWeapon(t);
      pickedUp := false;
      if ok {
        PickupRespectsCapacity(contents, maxAmountWeapons, t);
        pickedUp := OnPickupWeapon(t);
      }
    }

    /** The drop attempt. */
    method TryDropWeapon(weapon: WeaponDefinition) returns (ok: bool)
      modifies this
      ensures ok == (weapon in old(contents))
      ensures contents == AfterDrop(old(contents), weapon)
    {
      ok := CanDropWeapon(weapon);
      if ok {
        var _ := OnDropWeapon(weapon);
      } else {
        assert contents == AfterDrop(contents, weapon);
      }
    }
  }
}
