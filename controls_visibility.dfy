/**
 * `ControlsVisibilityManager`: whether the player's overlay controls are
 * shown, and the one delayed hide that may be pending.
 */
module ControlsVisibility {
  import opened Wrappers

  /** The delay `scheduleHide` uses when none is given, in seconds. */
  const DefaultHideDelay: real := 3.0

  class ControlsVisibilityManager {
    var isVisible: bool
    /** The delay of the scheduled, not cancelled hide; one slot, so at most one hide is pending. */
    var pendingHide: Option<real>

    /** Controls start visible with nothing scheduled. */
    constructor ()
      ensures isVisible && pendingHide == None
    {
      isVisible := true;
      pendingHide := None;
    }

    /** `toggle`: becoming visible schedules a hide, becoming hidden cancels the pending one. */
    method Toggle()
      modifies this
      ensures isVisible == !old(isVisible)
      ensures isVisible ==> pendingHide == Some(DefaultHideDelay)
      ensures !isVisible ==> pendingHide == None
    {
      isVisible := !isVisible;
      if isVisible {
        ScheduleHide(DefaultHideDelay);
      } else {
        pendingHide := None;
      }
    }

    /** `scheduleHide(after:)`: the previous hide is cancelled and replaced. */
    method ScheduleHide(delay: real)
      modifies this`pendingHide
      ensures pendingHide == Some(delay)
    {
      pendingHide := Some(delay);
    }

    /** `keepVisible`. */
    method KeepVisible()
      modifies this
      ensures isVisible && pendingHide == None
    {
      pendingHide := None;
      isVisible := true;
    }

    /** `cancel`: visibility is left as it is. */
    method Cancel()
      modifies this`pendingHide
      ensures pendingHide == None
    {
      pendingHide := None;
    }

    /** The scheduled work item runs: a pending hide hides the controls; a cancelled one does nothing. */
    method FireHide()
      modifies this
      ensures old(pendingHide).Some? ==> !isVisible && pendingHide == None
      ensures old(pendingHide).None? ==> isVisible == old(isVisible) && pendingHide == None
    {
      if pendingHide.Some? {
        isVisible := false;
        pendingHide := None;
      }
    }
  }
}
