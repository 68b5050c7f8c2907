/**
 * The first-person weapon visualization (FirstPersonWeaponVisualization.cs):
 * which animation is played, and how fast, when a reload starts and when a
 * shot starts. Muzzle flash and shell ejection are not modelled.
 */
module WeaponVisualization {
  import opened Types

  datatype AnimationChoice = AnimationChoice(name: string, speed: real)

  /** The configured animation names and speeds; an empty name means "not set". */
  datatype VisualizationConfig = VisualizationConfig(
    reloadAnimation: string, fireAnimation: string,
    reloadAnimationSpeed: real, fireAnimationSpeed: real,
    emptyState: string, emptyReloadAnimation: string)

  /**
   * The reload animation: nothing without an animation component; the
   * empty-clip reload when the clip is empty and that animation is set;
   * the normal reload otherwise. Always at the reload speed.
   */
  function ReloadAnimation(hasAnimation: bool, cfg: VisualizationConfig, ammoInClip: int): (r: Option<AnimationChoice>)
    ensures r.None? <==> !hasAnimation
    ensures r.Some? ==> r.value.speed == cfg.reloadAnimationSpeed
    ensures r.Some? && ammoInClip <= 0 && |cfg.emptyReloadAnimation| > 0 ==> r.value.name == cfg.emptyReloadAnimation
    ensures r.Some? && (ammoInClip > 0 || |cfg.emptyReloadAnimation| == 0) ==> r.value.name == cfg.reloadAnimation
  {
    if !hasAnimation then None
    else
      var name := if ammoInClip <= 0 && |cfg.emptyReloadAnimation| > 0 then cfg.emptyReloadAnimation else cfg.reloadAnimation;
      Some(AnimationChoice(name, cfg.reloadAnimationSpeed))
  }

  /**
   * The fire animation: nothing without an animation component; the empty
   * state when at most one round is in the clip and that state is set; the
   * normal fire animation otherwise. Always at the fire speed.
   */
  function FireAnimation(hasAnimation: bool, cfg: VisualizationConfig, ammoInClip: int): (r: Option<AnimationChoice>)
    ensures r.None? <==> !hasAnimation
    ensures r.Some? ==> r.value.speed == cfg.fireAnimationSpeed
    ensures r.Some? && ammoInClip <= 1 && |cfg.emptyState| > 0 ==> r.value.name == cfg.emptyState
    ensures r.Some? && (ammoInClip > 1 || |cfg.emptyState| == 0) ==> r.value.name == cfg.fireAnimation
  {
    if !hasAnimation then None
    else
      var name := if ammoInClip <= 1 && |cfg.emptyState| > 0 then cfg.emptyState else cfg.fireAnimation;
      Some(AnimationChoice(name, cfg.fireAnimationSpeed))
  }

  /** Without the optional animations configured, the normal ones are always played. */
  lemma OptionalAnimationsUnset(cfg: VisualizationConfig, ammoInClip: int)
    requires cfg.emptyState == [] && cfg.emptyReloadAnimation == []
    ensures ReloadAnimation(true, cfg, ammoInClip) == Some(AnimationChoice(cfg.reloadAnimation, cfg.reloadAnimationSpeed))
    ensures FireAnimation(true, cfg, ammoInClip) == Some(AnimationChoice(cfg.fireAnimation, cfg.fireAnimationSpeed))
  {
  }
}
