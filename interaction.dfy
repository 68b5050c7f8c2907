/**
 * The entity's interaction handler (EntityInteractionHandler.cs): timed
 * interactions with interactables, which are told when an interaction
 * starts, is canceled and finishes. Those callbacks are recorded in order in
 * `notices`.
 */
module Interaction {
  import opened Types
  import Activities

  /** An interactable, identified by `id`, with its interaction duration. */
  datatype Interactable = Interactable(id: nat, duration: real)

  /** A callback made on an interactable. */
  datatype Notice = Started(id: nat) | Canceled(id: nat) | Finished(id: nat)

  /** A part of a positive whole is a share between 0 and 1, and the whole is 1. */
  lemma ShareBounds(part: real, whole: real)
    requires 0.0 <= part <= whole && whole != 0.0
    ensures 0.0 <= part / whole <= 1.0
    ensures part == whole ==> part / whole == 1.0
  {
    assert whole > 0.0;
    assert part / whole * whole == part;
  }

  /** The share `part / whole`, with the bounds of `ShareBounds`. */
  function Share(part: real, whole: real): (r: real)
    requires whole != 0.0
    ensures 0.0 <= part <= whole ==> 0.0 <= r <= 1.0
    ensures part == whole ==> r == 1.0
  {
    if 0.0 <= part <= whole then ShareBounds(part, whole); part / whole
    else part / whole
  }

  class EntityInteractionHandler {
    var current: Option<Interactable>
    var interactionDone: real
    var interactionStartTime: real
    var notices: seq<Notice>

    /** Awake: nothing going on, both times at -1. */
    constructor ()
      ensures current == None && interactionDone == -1.0 && interactionStartTime == -1.0 && notices == []
      ensures Valid()
    {
      current := None;
      interactionDone := -1.0;
      interactionStartTime := -1.0;
      notices := [];
    }

    /** An interaction in progress spans exactly its non-zero duration. */
    ghost predicate Valid()
      reads this
    {
      current.Some? ==>
        current.value.duration != 0.0 && interactionDone - interactionStartTime == current.value.duration
    }

    /** The activity getter: an interactable is held. */
    predicate IsInteracting()
      reads this
    {
      current.Some?
    }

    /** The progress of the interaction: 0 without one, otherwise the elapsed share of its duration. */
    function GetInteractionProgress(now: real): (r: real)
      requires Valid()
      reads this
      ensures current.None? ==> r == 0.0
      ensures current.Some? && interactionStartTime <= now <= interactionDone ==> 0.0 <= r <= 1.0
      ensures current.Some? && now == interactionDone ==> r == 1.0
    {
      if current.None? then 0.0
      else Share(now - interactionStartTime, interactionDone - interactionStartTime)
    }

    /**
     * The start handler. An interactable without duration is started,
     * canceled and finished at once and not kept; otherwise it becomes
     * current and is due `duration` after `now`.
     */
    method OnStartInteract(x: Interactable, now: real)
      requires Valid()
      modifies this
      ensures Valid()
      ensures x.duration == 0.0 ==>
        notices == old(notices) + [Started(x.id), Canceled(x.id), Finished(x.id)]
        && current == old(current) && interactionDone == old(interactionDone)
        && interactionStartTime == old(interactionStartTime)
      ensures x.duration != 0.0 ==>
        notices == old(notices) + [Started(x.id)] && current == Some(x)
        && interactionDone == now + x.duration && interactionStartTime == now
    {
      if x.duration == 0.0 {
        notices := notices + [Started(x.id), Canceled(x.id), Finished(x.id)];
        return;
      }
      current := Some(x);
      notices := notices + [Started(x.id)];
      interactionDone := now + x.duration;
      interactionStartTime := now;
    }

    /** The stop handler: the interactable is told it was canceled, but stays current. */
    method OnStopInteract()
      modifies this`notices
      ensures current.Some? ==> notices == old(notices) + [Canceled(current.value.id)]
      ensures current.None? ==> notices == old(notices)
    {
      if current.Some? {
        notices := notices + [Canceled(current.value.id)];
      }
    }

    /** The attempt to start interacting with `x`; `inRange` is the distance condition. */
    method TryStartInteract(x: Interactable, now: real, inRange: bool) returns (started: bool)
      requires Valid()
      modifies this
      ensures Valid()
      ensures started == (old(current).None? && inRange)
      ensures !started ==> unchanged(this)
      ensures started && x.duration != 0.0 ==>
        current == Some(x) && notices == old(notices) + [Started(x.id)]
        && interactionDone == now + x.duration && interactionStartTime == now
      ensures started && x.duration == 0.0 ==>
        current == None && notices == old(notices) + [Started(x.id), Canceled(x.id), Finished(x.id)]
    {
      started := Activities.TryStartSucceeds(IsInteracting(), inRange);
      if started {
        OnStartInteract(x, now);
      }
    }

    /**
     * The per-frame update. Out of range, the interaction is forced to stop
     * (and stays current); in range and due, the interactable is told it
     * finished and is released.
     */
    method Update(now: real, inRange: bool)
      requires Valid()
      modifies this
      ensures Valid()
      ensures old(current).None? ==> unchanged(this)
      ensures old(current).Some? && !inRange ==>
        notices == old(notices) + [Canceled(old(current).value.id)] && current == old(current)
        && interactionDone == old(interactionDone) && interactionStartTime == old(interactionStartTime)
      ensures old(current).Some? && inRange && old(interactionDone) <= now ==>
        notices == old(notices) + [Finished(old(current).value.id)] && current == None
        && interactionDone == -1.0 && interactionStartTime == -1.0
      ensures old(current).Some? && inRange && now < old(interactionDone) ==> unchanged(this)
    {
      if current.None? {
        return;
      }
      if !inRange {
        OnStopInteract();
        return;
      }
      if interactionDone <= now {
        interactionDone := -1.0;
        interactionStartTime := -1.0;
        notices := notices + [Finished(current.value.id)];
        current := None;
      }
    }
  }

  /**
   * An interaction that leaves range is canceled, yet it stays current: when
   * the entity is back in range at the due time it also finishes, and while
   * out of range every frame cancels it again.
   */
  method CanceledInteractionStillFinishes(x: Interactable, now: real) returns (log: seq<Notice>, stillInteracting: bool)
    requires x.duration > 0.0
    ensures stillInteracting
    ensures log == [Started(x.id), Canceled(x.id), Canceled(x.id), Finished(x.id)]
  {
    var handler := new EntityInteractionHandler();
    var started := handler.TryStartInteract(x, now, true);
    assert handler.notices == [Started(x.id)];
    handler.Update(now, false);
    assert handler.notices == [Started(x.id), Canceled(x.id)];
    handler.Update(now, false);
    assert handler.notices == [Started(x.id), Canceled(x.id), Canceled(x.id)];
    stillInteracting := handler.IsInteracting();
    assert handler.current == Some(x) && handler.interactionDone == now + x.duration;
    handler.Update(now + x.duration, true);
    log := handler.notices;
  }
}
