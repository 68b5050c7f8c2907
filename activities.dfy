/**
 * The behaviour-model primitives every component goes through. Their code
 * (UnityTK.BehaviourModel) is not part of this model; the components rely on
 * the following behaviour, which the model assumes:
 *  - an attempt to start an activity succeeds, and runs the activity's start
 *    handlers, exactly when the activity is not active and every start
 *    condition registered on it holds;
 *  - an attempt to stop succeeds, and runs the stop handlers, exactly when
 *    the activity is active;
 *  - a forced start or stop runs the handlers without any check (the weapon
 *    marks itself reloading before it forces the reload activity to start,
 *    so a guarded forced start would never run the reload handlers);
 *  - an attempt with a parameter runs its handlers when its condition holds.
 */
module Activities {
  predicate TryStartSucceeds(active: bool, condition: bool)
  {
    !active && condition
  }

  predicate TryStopSucceeds(active: bool)
  {
    active
  }
}
