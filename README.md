# OsFPS gameplay rules in Dafny

This project models the gameplay-rule layer of the OsFPS first-person
shooter and two lookups from its UnityTK toolkit. Each entity has a model of
activities (fire, reload, run, jump, lean, crouch, prone, sneak, zoom,
interact, death), attempts and events. Capability components attach start
conditions, activity getters and handlers to those activities. The model
gives each component its state and its handlers, and states what one handler
call, one attempt or one frame tick does.

Modules, one per source component:

- `Types`: the enumerations (fire mode, stance, lean, foot), weapon definitions and Unity's `Min`, `Clamp` and `Lerp`.
- `Activities`: the assumed behaviour of the activity primitives. Their code (UnityTK.BehaviourModel) is not part of this model. An attempt to start succeeds exactly when the activity is inactive and its conditions hold. An attempt to stop succeeds exactly when it is active. Forced starts and stops run their handlers without a check.
- `Inventory`: the simple inventory, a capacity-bounded map from weapon definition to reserve ammo.
- `Weapons`: the weapon's fire, cooldown, reload and fire-mode machine. It also holds the projectile shooter's clip decrement and spread.
- `WeaponHandling`: the entity weapon handler (weapon list, current weapon, selection, holster, drop, fire and reload delegation, full-auto loop). Its first-person specialisation (zoom, weapon creation, footstep and force forwarding) is merged into the same class, since the two are one object at run time.
- `Motors`: the entity motor's run, jump, lean and stance activities, plus the rigidbody motor's physics step.
- `Damage`: health, damage intake and the death activity.
- `Footsteps`: the travel accumulator, alternating feet and sneak.
- `Interaction`: timed interactions and the callbacks the interactable receives.
- `Controller`: the first-person controller's per-frame button logic.
- `Look`: pitch clamp, yaw wrap, field-of-view target and footstep bobbing.
- `WeaponAnimation`: the weapon's collider list, origin priority, footstep force and spring settings.
- `WeaponVisualization`: the choice of reload and fire animations.
- `Debris`: the tag-to-configuration map and the prefab choice for a hit.
- `Entities`: the entity model's starting values and the entity's component registration.
- `Prototypes`: the lazy type, serializer and type-cache lookups, and prototype reference resolution.

How engine concerns are represented:

- Time (`Time.time`, `Time.deltaTime`) and button states are parameters.
- The grounding raycast, the interaction distance test and the horizontal distance travelled are parameters.
- Random choices are nondeterministic picks.
- Unity's `== null` on a destroyed weapon is modelled with a `destroyed` flag. `Present(w)` is Unity's null test. Reference tests are kept apart, as the source writes them.
- Floats are `real`.

Where the code and its documentation disagree, the model follows the code:

- Crouch can start from prone. The crouch condition only excludes crouching.
- The interaction stop handler tells the interactable it was canceled but does not release it.
- The weapon reports firing even when the start of the fire activity fails.
- A reload completed without an inventory entry for the weapon loses the rounds that were in the clip.
- The handler keeps its reference to a dropped current weapon.

## Model

| member | source | states |
|---|---|---|
| Types.NextFoot | Assets/OsFPS/Code/Entity/EntityFootsteps.cs:62 | the next foot is always the other foot |
| Types.NextFootTwice | Assets/OsFPS/Code/Entity/EntityFootsteps.cs:62 | two foot changes return to the same foot |
| Inventory.AfterSetAmmo | Assets/OsFPS/Code/Entity/Inventory/SimpleInventory.cs:42-46 | the setter never adds a key; an existing weapon's reserve becomes the new value; every other weapon's reserve is unchanged |
| Inventory.AfterPickup | Assets/OsFPS/Code/Entity/Inventory/SimpleInventory.cs:88-99 | the picked-up weapon becomes a key; its reserve grows by the picked-up ammo, from 0 when it is new; other weapons are unchanged |
| Inventory.AfterDrop | Assets/OsFPS/Code/Entity/Inventory/SimpleInventory.cs:62-69 | the dropped weapon's key is removed; other weapons are unchanged |
| Inventory.PickupRespectsCapacity | Assets/OsFPS/Code/Entity/Inventory/SimpleInventory.cs:76-82 | a pickup the condition allows adds exactly one weapon and stays within `maxAmountWeapons` |
| Inventory.CapacityInvariant | Assets/OsFPS/Code/Entity/Inventory/SimpleInventory.cs:42-99 | any sequence of gated pickups, gated drops and ammo sets keeps the weapon count within the capacity |
| Inventory.PickupThenDrop | Assets/OsFPS/Code/Entity/Inventory/SimpleInventory.cs:62-99 | dropping a newly picked-up weapon restores the inventory |
| Inventory.SimpleInventory.constructor | Assets/OsFPS/Code/Entity/Inventory/SimpleInventory.cs:19-24 | the inventory starts empty with the given capacity |
| Inventory.SimpleInventory.SetAmmo | Assets/OsFPS/Code/Entity/Inventory/SimpleInventory.cs:42-46 | the map becomes `AfterSetAmmo` of the old map |
| Inventory.SimpleInventory.OnDropWeapon | Assets/OsFPS/Code/Entity/Inventory/SimpleInventory.cs:62-69 | the dropped event fires iff the weapon was held; the map becomes `AfterDrop` |
| Inventory.SimpleInventory.OnPickupWeapon | Assets/OsFPS/Code/Entity/Inventory/SimpleInventory.cs:88-99 | the picked-up event fires iff the weapon is new; the map becomes `AfterPickup` |
| Inventory.SimpleInventory.TryPickupWeapon | Assets/OsFPS/Code/Entity/Inventory/SimpleInventory.cs:76-99 | succeeds iff below capacity and the weapon is not held; otherwise nothing changes; the capacity bound is kept |
| Inventory.SimpleInventory.TryDropWeapon | Assets/OsFPS/Code/Entity/Inventory/SimpleInventory.cs:53-69 | succeeds iff the weapon is held; the key is then removed |
| Weapons.ReloadOutcome | Assets/OsFPS/Code/Weapons/Weapon.cs:180-188 | with an inventory entry, reserve plus clip is conserved and the clip becomes `min(clipSize, reserve + clip)`; without one, the inventory is untouched and the clip rounds are lost; other weapons are unchanged |
| Weapons.ReloadFillsClip | Assets/OsFPS/Code/Weapons/Weapon.cs:144-188 | a reload that was allowed to start ends with more rounds in the clip, and the clip is full or the reserve is empty |
| Weapons.Weapon.constructor | Assets/OsFPS/Code/Weapons/Weapon.cs:36-107 | a new weapon takes its clip size, clip and fire mode from the prefab and is neither firing nor reloading |
| Weapons.Weapon.EmptyClipPassesOnlyTheHandlerCheck | Assets/OsFPS/Code/Weapons/Weapon.cs:215-223 | with an empty clip and not busy, `CanFire` holds but the fire activity's start condition does not |
| Weapons.Weapon.BusyBlocksBoth | Assets/OsFPS/Code/Weapons/Weapon.cs:144-223 | while reloading or firing, neither firing nor reloading can start |
| Weapons.Weapon.SetFireMode | Assets/OsFPS/Code/Weapons/Weapon.cs:118-130 | the mode changes iff it is one of the weapon's modes |
| Weapons.Weapon.Reload | Assets/OsFPS/Code/Weapons/Weapon.cs:158-175 | starting a reload marks the weapon reloading |
| Weapons.Weapon.ReloadDone | Assets/OsFPS/Code/Weapons/Weapon.cs:180-188 | reload completion leaves inventory and clip as `ReloadOutcome` says and clears reloading |
| Weapons.Weapon.ShooterOnFire | Assets/OsFPS/Code/Weapons/WeaponProjectileShooter.cs:67-73 | a started shot takes exactly one round from the clip |
| Weapons.Weapon.Fire | Assets/OsFPS/Code/Weapons/Weapon.cs:229-249 | the fire activity starts iff the clip is non-empty, the weapon is not busy and the other conditions hold; only then does a round leave the clip; the weapon is firing and the cooldown ends at `now + shootingCooldown` either way |
| Weapons.Weapon.Update | Assets/OsFPS/Code/Weapons/Weapon.cs:198-211 | with no cooldown pending nothing happens; once `now + deltaTime` reaches the deadline, firing stops and the deadline resets to -1 |
| Weapons.SpreadTarget | Assets/OsFPS/Code/Weapons/WeaponProjectileShooter.cs:46-55 | the target spread is the base spread times the crouch factor when crouching and times the moving factor when moving faster than 0.01 |
| Weapons.DefaultModifiersOrder | Assets/OsFPS/Code/Weapons/WeaponProjectileShooter.cs:26-55 | with the default factors, a still crouching entity aims tighter than the base spread and a moving one wider |
| Weapons.ProjectileShooter.constructor | Assets/OsFPS/Code/Weapons/WeaponProjectileShooter.cs:26-65 | the spread starts at the base spread, with the default factors |
| Weapons.ProjectileShooter.Update | Assets/OsFPS/Code/Weapons/WeaponProjectileShooter.cs:46-59 | the spread moves towards the target without passing it |
| WeaponHandling.FirstWithDefinition | Assets/OsFPS/Code/Entity/EntityWeaponHandler.cs:106-109 | the first weapon built from the definition, or none when no weapon is |
| WeaponHandling.IndexOf | Assets/OsFPS/Code/Entity/EntityWeaponHandler.cs:241 | the first position of the weapon, or -1 when it is not listed |
| WeaponHandling.RemoveAt | Assets/OsFPS/Code/Entity/EntityWeaponHandler.cs:168 | removal keeps the order of the other weapons and shortens the list by one |
| WeaponHandling.FoundWeaponIndex | Assets/OsFPS/Code/Entity/EntityWeaponHandler.cs:233-241 | the weapon found for a definition is selected at the position it was found at |
| WeaponHandling.WeaponHandler.constructor | Assets/OsFPS/Code/Entity/EntityWeaponHandler.cs:21-22 | no weapons and no current weapon |
| WeaponHandling.WeaponHandler.GetWeaponInstance | Assets/OsFPS/Code/Entity/EntityWeaponHandler.cs:106-109 | a listed weapon of that definition, or null iff none is listed |
| WeaponHandling.WeaponHandler.CreateWeapon | Assets/OsFPS/Code/Entity/FirstPerson/FirstPersonWeaponHandler.cs:75-90 | creation always succeeds and gives a new, inactive weapon of the definition with nothing forwarded to it yet |
| WeaponHandling.WeaponHandler.OnPickupWeapon | Assets/OsFPS/Code/Entity/EntityWeaponHandler.cs:176-183 | a new inactive weapon, with nothing forwarded to it yet, is appended to the list |
| WeaponHandling.WeaponHandler.OnDropWeapon | Assets/OsFPS/Code/Entity/EntityWeaponHandler.cs:162-170 | only the first weapon of the definition is removed and destroyed; no match means no change; the current weapon reference is kept |
| WeaponHandling.WeaponHandler.HolsterWeapon | Assets/OsFPS/Code/Entity/EntityWeaponHandler.cs:190-196 | every weapon is deactivated and no weapon is current; only the weapons' active flags and the current reference may change |
| WeaponHandling.WeaponHandler.OnSelectWeaponByIndex | Assets/OsFPS/Code/Entity/EntityWeaponHandler.cs:213-223 | reselecting the current weapon changes nothing; otherwise the chosen weapon is current and the only active one; only the weapons' active flags and the current reference may change |
| WeaponHandling.WeaponHandler.OnSelectWeapon | Assets/OsFPS/Code/Entity/EntityWeaponHandler.cs:225-242 | an error is logged iff no weapon of the definition is held, and then nothing changes; otherwise that weapon becomes current as by index; only the weapons' active flags and the current reference may change |
| WeaponHandling.WeaponHandler.GetFireModes | Assets/OsFPS/Code/Entity/EntityWeaponHandler.cs:251-256 | no modes without a weapon, the weapon's modes otherwise |
| WeaponHandling.WeaponHandler.GetFireMode | Assets/OsFPS/Code/Entity/EntityWeaponHandler.cs:261-264 | `Null` without a weapon reference, the weapon's mode otherwise |
| WeaponHandling.WeaponHandler.SetFireMode | Assets/OsFPS/Code/Entity/EntityWeaponHandler.cs:278-281 | the current weapon's mode changes iff the mode is one of its modes |
| WeaponHandling.WeaponHandler.DroppedCurrentWeaponViews | Assets/OsFPS/Code/Entity/EntityWeaponHandler.cs:251-272 | after the current weapon is destroyed, the mode list is empty, yet the mode is still the weapon's and can still be set; firing, reloading and zooming cannot start |
| WeaponHandling.WeaponHandler.OnFire | Assets/OsFPS/Code/Entity/EntityWeaponHandler.cs:299-310 | a semi-auto weapon fires once; a full-auto weapon only raises the flag; without a weapon nothing happens |
| WeaponHandling.WeaponHandler.OnFireStop | Assets/OsFPS/Code/Entity/EntityWeaponHandler.cs:312-315 | stopping fire clears the full-auto flag |
| WeaponHandling.WeaponHandler.TryStartFire | Assets/OsFPS/Code/Entity/EntityWeaponHandler.cs:287-310 | fire starts iff neither the handler nor the weapon is firing and a present current weapon is not busy; then a semi-auto weapon fires (a round leaves the clip iff the weapon's own start condition holds, and the cooldown ends at `now + shootingCooldown`) and a full-auto one only raises the flag, leaving the weapon untouched; a refused attempt changes nothing; no weapon field other than clip, firing flag and cooldown may change |
| WeaponHandling.WeaponHandler.TryStopFire | Assets/OsFPS/Code/Entity/EntityWeaponHandler.cs:287-315 | fire stops iff firing, and then the flag is down |
| WeaponHandling.WeaponHandler.LateUpdate | Assets/OsFPS/Code/Entity/EntityWeaponHandler.cs:29-39 | with the flag up, the weapon fires whenever it is not busy, taking a round iff its start condition holds and setting its cooldown to `now + shootingCooldown`; the flag drops once the clip is empty |
| WeaponHandling.WeaponHandler.OnReload | Assets/OsFPS/Code/Entity/EntityWeaponHandler.cs:331-334 | the current weapon starts reloading |
| WeaponHandling.WeaponHandler.TryStartReload | Assets/OsFPS/Code/Entity/EntityWeaponHandler.cs:321-334 | a reload starts iff a present current weapon is not reloading, not busy, has reserve ammo and a clip that is not full; then the weapon is reloading and nothing else about it changes; otherwise the weapon is untouched |
| WeaponHandling.WeaponHandler.TryStartZoom | Assets/OsFPS/Code/Entity/FirstPerson/FirstPersonWeaponHandler.cs:102-115 | zoom starts iff a weapon is held and zoom is off |
| WeaponHandling.WeaponHandler.TryStopZoom | Assets/OsFPS/Code/Entity/FirstPerson/FirstPersonWeaponHandler.cs:107-120 | zoom stops iff it is on, and it is off afterwards |
| WeaponHandling.WeaponHandler.Update | Assets/OsFPS/Code/Entity/FirstPerson/FirstPersonWeaponHandler.cs:55-62 | zoom stays on only while a weapon is held |
| WeaponHandling.WeaponHandler.OnFootstep | Assets/OsFPS/Code/Entity/FirstPerson/FirstPersonWeaponHandler.cs:67-73 | the footstep is handed to the current weapon iff it passes Unity's null test; a destroyed current weapon receives nothing |
| WeaponHandling.WeaponHandler.OnExternalForce | Assets/OsFPS/Code/Entity/FirstPerson/FirstPersonWeaponHandler.cs:92-98 | a present current weapon receives the force; a destroyed one passes the reference test and then throws Unity's missing-reference exception, receiving nothing; with no reference nothing happens |
| WeaponHandling.DroppedWeaponForwarding | Assets/OsFPS/Code/Entity/FirstPerson/FirstPersonWeaponHandler.cs:67-98 | once the current weapon is dropped, neither a footstep nor a force reaches it; the footstep is skipped quietly while the force handler throws |
| Motors.SelectSpeed | Assets/OsFPS/Code/Entity/Motors/RigidbodyMotor.cs:84-90 | prone speed wins over crouch speed, which wins over running speed, which wins over the base speed |
| Motors.MovementSpeed | Assets/OsFPS/Code/Entity/Motors/RigidbodyMotor.cs:84-97 | the selected speed is scaled by the sneak factor when sneaking and by the weapon mobility when a weapon is held |
| Motors.VelocityChange | Assets/OsFPS/Code/Entity/Motors/RigidbodyMotor.cs:106-110 | the change has no vertical part, and each horizontal axis is within the maximum change and exact when the difference is already within it |
| Motors.RigidbodyMotor.constructor | Assets/OsFPS/Code/Entity/Motors/RigidbodyMotor.cs:29-31 | standing, not leaning, not running, no jump pending, maximum change 10, jumping enabled |
| Motors.RigidbodyMotor.ActivitiesExclusive | Assets/OsFPS/Code/Entity/Motors/EntityMotor.cs:191-258 | crouch and prone are never both active, nor are the two leans |
| Motors.RigidbodyMotor.TryStartRun | Assets/OsFPS/Code/Entity/Motors/EntityMotor.cs:123-136 | running starts iff not running and the movement input is longer than 0.01 |
| Motors.RigidbodyMotor.TryStopRun | Assets/OsFPS/Code/Entity/Motors/EntityMotor.cs:123-141 | running stops iff running |
| Motors.RigidbodyMotor.TryStartJump | Assets/OsFPS/Code/Entity/Motors/EntityMotor.cs:147-160 | a jump is requested iff grounded with no jump pending |
| Motors.RigidbodyMotor.TryStartLeanLeft | Assets/OsFPS/Code/Entity/Motors/EntityMotor.cs:191-216 | leaning left starts iff not leaning |
| Motors.RigidbodyMotor.TryStopLeanLeft | Assets/OsFPS/Code/Entity/Motors/EntityMotor.cs:191-221 | leaning left stops iff leaning left, back to no lean |
| Motors.RigidbodyMotor.TryStartLeanRight | Assets/OsFPS/Code/Entity/Motors/EntityMotor.cs:202-216 | leaning right starts iff not leaning |
| Motors.RigidbodyMotor.TryStopLeanRight | Assets/OsFPS/Code/Entity/Motors/EntityMotor.cs:202-221 | leaning right stops iff leaning right, back to no lean |
| Motors.RigidbodyMotor.TryStartCrouch | Assets/OsFPS/Code/Entity/Motors/EntityMotor.cs:227-240 | crouch starts from any other stance, prone included; the stance is crouch afterwards |
| Motors.RigidbodyMotor.TryStopCrouch | Assets/OsFPS/Code/Entity/Motors/EntityMotor.cs:227-245 | crouch stops iff crouching, to standing |
| Motors.RigidbodyMotor.TryStartProne | Assets/OsFPS/Code/Entity/Motors/EntityMotor.cs:251-264 | prone starts from any other stance; the stance is prone afterwards |
| Motors.RigidbodyMotor.TryStopProne | Assets/OsFPS/Code/Entity/Motors/EntityMotor.cs:251-269 | prone stops iff prone, to standing |
| Motors.RigidbodyMotor.FixedUpdate | Assets/OsFPS/Code/Entity/Motors/RigidbodyMotor.cs:78-128 | the clamped change towards the target velocity is applied, in full on the ground and scaled by air control otherwise; a pending jump is applied iff jumping is enabled; the pending jump is always cleared; grounding takes the raycast result |
| Motors.GroundedChangeBounded | Assets/OsFPS/Code/Entity/Motors/RigidbodyMotor.cs:106-111 | on the ground the applied change stays within the maximum change on each horizontal axis |
| Motors.ProneDominates | Assets/OsFPS/Code/Entity/Motors/RigidbodyMotor.cs:84-97 | running does not change the prone speed |
| Damage.CanDieAsWrittenNeverAnswers | Assets/OsFPS/Code/Entity/Damage/EntityDamageHandler.cs:47-50 | the death condition as written never produces an answer, however many calls are followed |
| Damage.EntityDamageHandler.constructor | Assets/OsFPS/Code/Entity/Damage/EntityDamageHandler.cs:17 | the handler starts at the given health, with death never started |
| Damage.EntityDamageHandler.SetHealth | Assets/OsFPS/Code/Entity/Damage/EntityDamageHandler.cs:37-42 | health becomes exactly the value; death is force-started iff the value is not positive |
| Damage.EntityDamageHandler.OnHandleDamage | Assets/OsFPS/Code/Entity/Damage/EntityDamageHandler.cs:64-69 | health falls by exactly damage times the multiplier, with no floor; death is force-started iff the result is not positive |
| Damage.EntityDamageHandler.TakeDamage | Assets/OsFPS/Code/Entity/Damage/EntityDamageHandler.cs:74-77 | taking damage has the damage handler's effect |
| Damage.EntityDamageHandler.TryStartDeath | Assets/OsFPS/Code/Entity/Damage/EntityDamageHandler.cs:30-58 | with the intended condition, death starts iff the entity is alive |
| Damage.LethalHitsRestartDeath | Assets/OsFPS/Code/Entity/Damage/EntityDamageHandler.cs:64-69 | two lethal hits start death twice, since the forced start ignores being dead already |
| Footsteps.FootAt | Assets/OsFPS/Code/Entity/EntityFootsteps.cs:39 | even-numbered footsteps are left, odd-numbered ones right |
| Footsteps.NextFootAt | Assets/OsFPS/Code/Entity/EntityFootsteps.cs:62 | the foot switch takes footstep `i` to footstep `i+1` |
| Footsteps.AlternatingFeet | Assets/OsFPS/Code/Entity/EntityFootsteps.cs:59-63 | consecutive footsteps use different feet |
| Footsteps.EntityFootsteps.constructor | Assets/OsFPS/Code/Entity/EntityFootsteps.cs:19-45 | distances 3, no travel, left foot next, not sneaking |
| Footsteps.EntityFootsteps.Update | Assets/OsFPS/Code/Entity/EntityFootsteps.cs:47-67 | sneaking changes nothing; otherwise grounded travel accumulates, a footstep with the next foot fires iff travel reaches the prone or normal distance, then travel resets; feet alternate from the left and travel stays non-negative |
| Footsteps.EntityFootsteps.TryStartSneak | Assets/OsFPS/Code/Entity/EntityFootsteps.cs:82-96 | sneak starts iff not sneaking |
| Footsteps.EntityFootsteps.TryStopSneak | Assets/OsFPS/Code/Entity/EntityFootsteps.cs:82-101 | sneak stops iff sneaking |
| Interaction.EntityInteractionHandler.constructor | Assets/OsFPS/Code/Entity/Interaction/EntityInteractionHandler.cs:43-48 | nothing current and both times at -1 |
| Interaction.EntityInteractionHandler.GetInteractionProgress | Assets/OsFPS/Code/Entity/Interaction/EntityInteractionHandler.cs:83-88 | 0 without an interaction; within the interaction's span a share between 0 and 1, reaching 1 at the deadline |
| Interaction.EntityInteractionHandler.OnStartInteract | Assets/OsFPS/Code/Entity/Interaction/EntityInteractionHandler.cs:111-127 | an instant interactable gets the started, canceled and finished notices in that order and is not kept; otherwise it gets the started notice and becomes current, started now and due `duration` later |
| Interaction.EntityInteractionHandler.OnStopInteract | Assets/OsFPS/Code/Entity/Interaction/EntityInteractionHandler.cs:132-137 | the current interactable is told it was canceled and stays current |
| Interaction.EntityInteractionHandler.TryStartInteract | Assets/OsFPS/Code/Entity/Interaction/EntityInteractionHandler.cs:93-127 | interacting starts iff nothing is current and the target is in range, with the start handler's effect |
| Interaction.EntityInteractionHandler.Update | Assets/OsFPS/Code/Entity/Interaction/EntityInteractionHandler.cs:50-70 | nothing current means no change; out of range the interaction is canceled but kept; in range and due, it finishes and is released with both times at -1 |
| Interaction.CanceledInteractionStillFinishes | Assets/OsFPS/Code/Entity/Interaction/EntityInteractionHandler.cs:50-137 | an interaction canceled by leaving range is still finished once back in range at the deadline |
| Controller.IndexOfMode | Assets/OsFPS/Code/Entity/FirstPerson/FirstPersonController.cs:117 | the first position of the mode, or -1 iff it is not listed |
| Controller.NextFireModeAsWritten | Assets/OsFPS/Code/Entity/FirstPerson/FirstPersonController.cs:113-123 | the cycle as written reads past the end iff the mode list is empty |
| Controller.NoWeaponCycleThrows | Assets/OsFPS/Code/Entity/FirstPerson/FirstPersonController.cs:113-123 | without a weapon, pressing the fire-mode button reads past the end of the empty list |
| Controller.NextFireMode | Assets/OsFPS/Code/Entity/FirstPerson/FirstPersonController.cs:113-123 | the next listed mode after the current one, the first after the last or for an unlisted mode, none for an empty list |
| Controller.NextFireModeAgrees | Assets/OsFPS/Code/Entity/FirstPerson/FirstPersonController.cs:117-122 | on a non-empty list the corrected cycle picks what the code as written picks |
| Controller.NextAt | Assets/OsFPS/Code/Entity/FirstPerson/FirstPersonController.cs:117-122 | with distinct modes, one press moves to the next position, or from the last to the first |
| Controller.PressesAdd | Assets/OsFPS/Code/Entity/FirstPerson/FirstPersonController.cs:113-123 | `a` presses followed by `b` presses equal `a + b` presses |
| Controller.PressesWalk | Assets/OsFPS/Code/Entity/FirstPerson/FirstPersonController.cs:117-122 | before the end of the list, `k` presses from position `i` reach position `i + k` |
| Controller.PressesWrap | Assets/OsFPS/Code/Entity/FirstPerson/FirstPersonController.cs:117-122 | pressing until past the end reaches the first mode |
| Controller.CycleReturns | Assets/OsFPS/Code/Entity/FirstPerson/FirstPersonController.cs:113-123 | with distinct modes, one press per mode returns to the current mode |
| Controller.LeanRules | Assets/OsFPS/Code/Entity/FirstPerson/FirstPersonController.cs:77-91 | a lean is kept while held, ends when released, and starts only from no lean with left taking precedence; no button means no lean |
| Controller.NoDirectSwitch | Assets/OsFPS/Code/Entity/FirstPerson/FirstPersonController.cs:77-91 | one frame never turns one lean into the other |
| Controller.UpdateLean | Assets/OsFPS/Code/Entity/FirstPerson/FirstPersonController.cs:44-91 | the lean after the frame follows the lean rules on the lean at the frame's start |
| Controller.UpdateRun | Assets/OsFPS/Code/Entity/FirstPerson/FirstPersonController.cs:94-103 | running after the frame iff the button is held and the entity was running or is moving |
| Controller.StanceToggleRules | Assets/OsFPS/Code/Entity/FirstPerson/FirstPersonController.cs:133-147 | each stance button leaves its own stance for standing and enters it from any other; both in one frame end in prone; crouch pressed twice brings prone to standing |
| Controller.ToggleCrouch | Assets/OsFPS/Code/Entity/FirstPerson/FirstPersonController.cs:133-139 | the crouch button toggles crouching |
| Controller.ToggleProne | Assets/OsFPS/Code/Entity/FirstPerson/FirstPersonController.cs:141-147 | the prone button toggles prone |
| Controller.ToggleSneak | Assets/OsFPS/Code/Entity/FirstPerson/FirstPersonController.cs:149-155 | the sneak button flips sneaking |
| Controller.ToggleZoom | Assets/OsFPS/Code/Entity/FirstPerson/FirstPersonController.cs:125-131 | the zoom button turns zoom off, or on when a weapon is held |
| Controller.ChangeFireMode | Assets/OsFPS/Code/Entity/FirstPerson/FirstPersonController.cs:113-123 | a present weapon with modes moves on to the next of its modes; a destroyed current weapon keeps its mode; only the current weapon's mode may change |
| Controller.SelectWeaponKey | Assets/OsFPS/Code/Entity/FirstPerson/FirstPersonController.cs:165-172 | a weapon key selects its slot iff the slot holds a weapon |
| Controller.SelectWeaponKeys | Assets/OsFPS/Code/Entity/FirstPerson/FirstPersonController.cs:165-172 | the last pressed key whose slot holds a present weapon decides the current weapon; with no such key the current weapon is unchanged; the list is unchanged |
| Controller.LastSelectableSlot | Assets/OsFPS/Code/Entity/FirstPerson/FirstPersonController.cs:165-172 | the slot of the last pressed key that holds a present weapon, every later pressed key's slot being empty or destroyed; none iff no pressed key has one |
| Controller.InteractInput | Assets/OsFPS/Code/Entity/FirstPerson/FirstPersonController.cs:58-69 | without the interact button on an interactable in view nothing changes; with it, from no interaction and in range, an interaction is kept iff the interactable takes time |
| Controller.MovementInput | Assets/OsFPS/Code/Entity/FirstPerson/FirstPersonController.cs:77-106 | lean and run follow their rules; a jump is requested iff pressed on the ground |
| Controller.FireInput | Assets/OsFPS/Code/Entity/FirstPerson/FirstPersonController.cs:108-131 | zoom changes only with its button; releasing fire without a weapon leaves the flag down |
| Controller.StanceInput | Assets/OsFPS/Code/Entity/FirstPerson/FirstPersonController.cs:133-155 | stance follows the toggle rules; sneaking flips iff its button is pressed |
| Controller.WeaponInput | Assets/OsFPS/Code/Entity/FirstPerson/FirstPersonController.cs:157-172 | holster without a weapon key leaves no weapon current; neither keeps the current weapon; a pressed key with a present weapon in its slot selects the last such slot |
| Controller.ActionInput | Assets/OsFPS/Code/Entity/FirstPerson/FirstPersonController.cs:108-172 | stance, sneak and zoom change only as their buttons say |
| Controller.Update | Assets/OsFPS/Code/Entity/FirstPerson/FirstPersonController.cs:42-173 | one frame: lean, run, jump, stance, sneak and zoom each end as their buttons say |
| Look.WrapYaw | Assets/OsFPS/Code/Entity/FirstPerson/FirstPersonLook.cs:114-116 | one wrap step of at most one turn; yaw within one turn is kept; yaw within two turns ends within one |
| Look.FootstepForce | Assets/OsFPS/Code/Entity/FirstPerson/FirstPersonLook.cs:127-131 | the bobbing force negates x, points y by the foot and has no z |
| Look.FootstepsMirror | Assets/OsFPS/Code/Entity/FirstPerson/FirstPersonLook.cs:127-131 | the two feet bob the camera symmetrically |
| Look.FirstPersonLook.constructor | Assets/OsFPS/Code/Entity/FirstPerson/FirstPersonLook.cs:34-55 | limits ±45, field of view 75, zoom 45, lerp factor 25, pitch 0 |
| Look.FirstPersonLook.Update | Assets/OsFPS/Code/Entity/FirstPerson/FirstPersonLook.cs:105-122 | the pitch drops by the look input and stays within the limits; the yaw turns and wraps; the field of view moves towards the zoom or normal value |
| Look.FirstPersonLook.OnRecoil | Assets/OsFPS/Code/Entity/FirstPerson/FirstPersonLook.cs:153-162 | recoil raises the pitch within the limits and turns the yaw, wrapped |
| WeaponAnimation.RemoveFirst | Assets/OsFPS/Code/Weapons/FirstPerson/FirstPersonWeaponAnimation.cs:270-273 | one occurrence is removed, and only when present |
| WeaponAnimation.SelectOrigin | Assets/OsFPS/Code/Weapons/FirstPerson/FirstPersonWeaponAnimation.cs:302-326 | the origin by priority: colliding, running, zoomed, prone, hips |
| WeaponAnimation.GetOrigin | Assets/OsFPS/Code/Weapons/FirstPerson/FirstPersonWeaponAnimation.cs:295-327 | without a handler the hips origin; prone never gives the colliding origin |
| WeaponAnimation.FootstepForce | Assets/OsFPS/Code/Weapons/FirstPerson/FirstPersonWeaponAnimation.cs:331-357 | the force by priority zoomed, running, prone, hips, with x mirrored for the left foot |
| WeaponAnimation.FootstepForceMirrors | Assets/OsFPS/Code/Weapons/FirstPerson/FirstPersonWeaponAnimation.cs:355 | the two feet push sideways in opposite directions and alike otherwise |
| WeaponAnimation.PositionalStiffnessIgnored | Assets/OsFPS/Code/Weapons/FirstPerson/FirstPersonWeaponAnimation.cs:210-213 | unzoomed, the written settings never use the configured positional stiffness |
| WeaponAnimation.SpringSettingsFor | Assets/OsFPS/Code/Weapons/FirstPerson/FirstPersonWeaponAnimation.cs:210-213 | every spring value is the zoomed one iff zoomed |
| WeaponAnimation.SpringSettingsDiffer | Assets/OsFPS/Code/Weapons/FirstPerson/FirstPersonWeaponAnimation.cs:210-213 | the written and intended settings differ only in the unzoomed positional stiffness |
| WeaponAnimation.IdleSwingFor | Assets/OsFPS/Code/Weapons/FirstPerson/FirstPersonWeaponAnimation.cs:225-233 | no idle swing while moving; otherwise the zoomed or normal swing |
| WeaponAnimation.FirstPersonWeaponAnimation.constructor | Assets/OsFPS/Code/Weapons/FirstPerson/FirstPersonWeaponAnimation.cs:165 | nothing is touching the weapon |
| WeaponAnimation.FirstPersonWeaponAnimation.OnTriggerEnter | Assets/OsFPS/Code/Weapons/FirstPerson/FirstPersonWeaponAnimation.cs:262-265 | an entering collider is appended, so a weapon with a handler and a standing entity may not fire |
| WeaponAnimation.FirstPersonWeaponAnimation.OnTriggerExit | Assets/OsFPS/Code/Weapons/FirstPerson/FirstPersonWeaponAnimation.cs:270-273 | a leaving collider loses one occurrence; when it was the only one, firing is allowed again |
| WeaponAnimation.EnterThenExit | Assets/OsFPS/Code/Weapons/FirstPerson/FirstPersonWeaponAnimation.cs:262-273 | entering and leaving restores the colliders touching the weapon |
| WeaponVisualization.ReloadAnimation | Assets/OsFPS/Code/Weapons/FirstPerson/FirstPersonWeaponVisualization.cs:51-65 | nothing without an animation component; the empty-clip reload iff the clip is empty and it is set; always at the reload speed |
| WeaponVisualization.FireAnimation | Assets/OsFPS/Code/Weapons/FirstPerson/FirstPersonWeaponVisualization.cs:67-81 | nothing without an animation component; the empty state iff at most one round is left and it is set; always at the fire speed |
| WeaponVisualization.OptionalAnimationsUnset | Assets/OsFPS/Code/Weapons/FirstPerson/FirstPersonWeaponVisualization.cs:51-81 | without the optional animations the normal ones always play |
| Debris.AddAll | Assets/OsFPS/Code/Damage/DebrisManager.cs:45-48 | the tags after adding the entries are the old ones plus the entries' tags |
| Debris.AddAllFinds | Assets/OsFPS/Code/Damage/DebrisManager.cs:45-48 | with distinct tags each entry is found under its own tag |
| Debris.ClashWitness | Assets/OsFPS/Code/Damage/DebrisManager.cs:47 | a tag is configured iff it was before or some entry has it |
| Debris.DebrisManager.constructor | Assets/OsFPS/Code/Damage/DebrisManager.cs:41 | no configurations and not registered |
| Debris.DebrisManager.Awake | Assets/OsFPS/Code/Damage/DebrisManager.cs:43-51 | with distinct tags every entry is added and the manager is registered; otherwise it stops at the first repeated tag, keeps the entries before it, and its registration is unchanged |
| Debris.DebrisManager.TrySpawnDebris | Assets/OsFPS/Code/Damage/DebrisManager.cs:62-101 | false and nothing spawned iff the tag is not configured; otherwise one of the tag's debris prefabs iff particles are requested and the tag has some, followed by one of its decals iff a decal is requested and the tag has some |
| Entities.EntityModel.constructor | Assets/OsFPS/Code/Entity/EntityModel.cs:65-70 | maximum health 100 and damage multiplier 1 |
| Entities.DefaultEntityTakesHit | Assets/OsFPS/Code/Entity/EntityModel.cs:65-70 | with the default values a hit costs exactly its damage, and death starts once iff the damage is at least 100 |
| Entities.Entity.constructor | Assets/OsFPS/Code/Entity/Entity.cs:32-44 | the given controller and model, no components |
| Entities.Entity.Start | Assets/OsFPS/Code/Entity/Entity.cs:46-52 | the component list becomes exactly the components found, and each one's hook runs once, in list order |
| Entities.StartFreshEntity | Assets/OsFPS/Code/Entity/Entity.cs:46-52 | a new entity runs exactly its components' hooks, in order |
| Prototypes.Flatten | Assets/UnityTK/Code/Prototypes/PrototypeCaches.cs:67-82 | the type list holds every type of every assembly and nothing else |
| Prototypes.SerializerTypes | Assets/UnityTK/Code/Prototypes/PrototypeCaches.cs:35-41 | exactly the concrete serializer classes among the types |
| Prototypes.BestSerializer | Assets/UnityTK/Code/Prototypes/PrototypeCaches.cs:44-49 | none iff no serializer accepts the type; otherwise a listed serializer that accepts it |
| Prototypes.BestSerializerIsFirst | Assets/UnityTK/Code/Prototypes/PrototypeCaches.cs:44-49 | the chosen serializer is the first that accepts the type |
| Prototypes.TypeMatch | Assets/UnityTK/Code/Prototypes/PrototypeCaches.cs:87-94 | a type matches iff its name is equal and its namespace is equal or the check is skipped; the test throws iff the name is equal, the check is on and the namespace is null |
| Prototypes.FindTypeFrom | Assets/UnityTK/Code/Prototypes/PrototypeCaches.cs:90-99 | the first matching type, or the first throwing one, with every earlier type not matching; none iff no type matches |
| Prototypes.SkippedNamespaceFindsFirstName | Assets/UnityTK/Code/Prototypes/PrototypeCaches.cs:87-99 | with a null or empty namespace the lookup never throws and finds the first type of that name |
| Prototypes.PrototypeCaches.constructor | Assets/UnityTK/Code/Prototypes/PrototypeCaches.cs:18-20 | no serializers, no type list, empty type cache |
| Prototypes.PrototypeCaches.LazyAllTypesInit | Assets/UnityTK/Code/Prototypes/PrototypeCaches.cs:67-82 | the type list is the assemblies' types, scanned once only |
| Prototypes.PrototypeCaches.LazySerializersInit | Assets/UnityTK/Code/Prototypes/PrototypeCaches.cs:30-42 | the serializer list is made once, from the type list |
| Prototypes.PrototypeCaches.CollectSerializers | Assets/UnityTK/Code/Prototypes/PrototypeCaches.cs:35-41 | the scan yields the serializer types in order |
| Prototypes.PrototypeCaches.FirstAccepting | Assets/UnityTK/Code/Prototypes/PrototypeCaches.cs:44-49 | the scan yields the first serializer that accepts the type |
| Prototypes.PrototypeCaches.GetBestSerializerFor | Assets/UnityTK/Code/Prototypes/PrototypeCaches.cs:28-50 | the first serializer in discovery order that accepts the type, or none; the lists are made once |
| Prototypes.PrototypeCaches.GetSerializableTypeCacheFor | Assets/UnityTK/Code/Prototypes/PrototypeCaches.cs:56-65 | the cache is what building yields; it is built and stored on the first request only, even when none |
| Prototypes.PrototypeCaches.GetSerializableTypeCacheForName | Assets/UnityTK/Code/Prototypes/PrototypeCaches.cs:84-105 | the cache of the first matching type, none when nothing matches; the lookup throws where it compares a null namespace |
| Prototypes.PrototypeCaches.FindType | Assets/UnityTK/Code/Prototypes/PrototypeCaches.cs:90-99 | the scan stops at the first type that matches or throws |
| Prototypes.RepeatedRequestBuildsOnce | Assets/UnityTK/Code/Prototypes/PrototypeCaches.cs:56-65 | two requests for one type give the same cache, built once |
| Prototypes.Resolve | Assets/UnityTK/Code/Prototypes/Serialization/SerializedPrototypeRef.cs:16-25 | none iff no identifier matches; otherwise a listed prototype with that identifier |
| Prototypes.ResolveIsFirst | Assets/UnityTK/Code/Prototypes/Serialization/SerializedPrototypeRef.cs:18-22 | the resolved prototype is the first with that identifier |
| Prototypes.ResolveAppend | Assets/UnityTK/Code/Prototypes/Serialization/SerializedPrototypeRef.cs:18-24 | a later list part is searched only when the earlier part has no match |

## Left out

- The activity, attempt, event and property primitives (UnityTK.BehaviourModel) are not part of this model. Their assumed behaviour is stated at the top of `Activities`. Handler order, modifier stacking and double-binding checks are not modelled.
- The spring physics, quaternion and Euler maths are not modelled: weapon sway, recoil forces, the draw force, hip leaning and the camera spring.
- The stance collider lerp in `RigidbodyMotor.UpdateStance` is not modelled.
- The jump speed derives from `Sqrt`. It is a parameter of `Motors.RigidbodyMotor.FixedUpdate`.
- Gravity and the force of a collision are not modelled.
- The raycasts are parameters: grounding, the interaction ray and the interaction distance test.
- The horizontal distance a footstep update travels needs a square root, so `Footsteps.EntityFootsteps.Update` takes it as a parameter tied to the squared distance.
- Floating-point rounding is not modelled. Floats are reals.
- The reload cooldown is a delayed coroutine. Reload completion is the separate step `Weapons.Weapon.ReloadDone`, not a timer.
- Weapons.Weapon.ReloadDone: may be taken at any later time. The model does not capture that the completion runs as a coroutine on the weapon (Assets/OsFPS/Code/Weapons/Weapon.cs:163-165). Unity stops that coroutine when holstering or switching deactivates the weapon's game object (Assets/OsFPS/Code/Entity/EntityWeaponHandler.cs:192-193). A weapon put away in mid-reload then never completes and stays reloading, so neither reloading nor firing can start on it again.
- The shooting cooldown is derived from the fire rate. It is taken as a given value of the definition.
- Projectile spawning, spread randomisation, muzzle flash, shell ejection, debris placement and scaling, and audio are not modelled.
- Random picks are modelled as arbitrary choices.
- Weapons.ProjectileShooter.Update: states the lerp towards the target and that it never overshoots. It does not state the float lerp factor's numerics.
- The HUD and reticle updates of the controller are not modelled.
- The projectile origin and direction getters are not modelled (vector engine reads). With no weapon the direction getter returns the position rather than a direction.
- The available-weapons getters (the inventory's keys and the handler's definitions) are not modelled, since no modelled rule reads them.
- The weapon list holds objects with `destroyed` flags. Unity's destruction happens at the end of the frame; the model marks the weapon destroyed at once.
- Reflection is an abstract type universe in `Prototypes`. `canBeUsedFor` and `tryBuild` are fixed functions. A null `writtenName` is not modelled; the name is a string.
- The source has exactly four weapon keys; the key sequence of `Controller.SelectWeaponKeys` may have any length, with key `i` selecting slot `i`.
- Controller.FireInput: states only the zoom and released-fire effects. The fire start and fire-mode effects are stated by `WeaponHandling.WeaponHandler.TryStartFire` and `Controller.ChangeFireMode`, which it calls.
- Controller.WeaponInput: does not restate the reload attempt, which `WeaponHandling.WeaponHandler.TryStartReload` states.
- Controller.ActionInput: states stance, sneak and zoom only. The weapon effects are stated by the members it calls.
- Controller.Update: states the lean, run, jump, stance, sneak and zoom outcomes of the frame. The fire, fire-mode, weapon-key and interaction effects are stated by the members it calls, not restated at the frame level.
- Controller.InteractInput: states the outcome only when nothing is current and the target is in range; the other cases are those of `Interaction.EntityInteractionHandler.TryStartInteract`.
- The entity model's other fields (modifiable speeds and other properties) are inputs to the members that read them, for example `Motors.MotorSpeeds`.

## Findings

| source | as written | input that shows it | evidently intended | confidence | as-written member | corrected member |
|---|---|---|---|---|---|---|
| Assets/OsFPS/Code/Entity/Damage/EntityDamageHandler.cs:47-50 | the death start condition calls itself and never returns | any attempt to start death without forcing it | the condition holds, as the comments at both forced starts say | high, not executed | Damage.CanDieAsWrittenNeverAnswers | Damage.EntityDamageHandler.TryStartDeath |
| Assets/OsFPS/Code/Entity/FirstPerson/FirstPersonController.cs:116-122 | the fire-mode cycle reads position 0 of the mode list without checking that the list is non-empty | no current weapon (no modes, mode `Null`) and the fire-mode button pressed | no mode change when there are no modes | high, not executed | Controller.NoWeaponCycleThrows | Controller.ChangeFireMode |
| Assets/OsFPS/Code/Weapons/FirstPerson/FirstPersonWeaponAnimation.cs:210-213 | the positional stiffness is the zoomed value in both branches | not zoomed, with different normal and zoomed positional stiffness | the normal positional stiffness when not zoomed, like the other three settings | medium, not executed | WeaponAnimation.PositionalStiffnessIgnored | WeaponAnimation.SpringSettingsDiffer |
