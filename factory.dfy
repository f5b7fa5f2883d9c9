/**
 * create_controller (src/logic.py:448-455): a fixed-time or an adaptive
 * controller for the mode name, compared case-insensitively; any other name
 * is refused, which the source signals with ValueError and the model with
 * None.
 */
module Factory {
  import opened Wrappers
  import opened Decisions
  import FixedTime
  import AdaptiveSpec
  import Adaptive

  datatype AnyController =
    | FixedTimeController(fixed: FixedTime.FixedTimeController)
    | PressureBasedController(adaptive: Adaptive.PressureBasedController)

  method CreateController(mode: string) returns (r: Option<AnyController>)
    ensures r.None? <==> ParseMode(mode).None?
    ensures ParseMode(mode) == Some(FixedTimeMode) ==>
      && r.Some? && r.value.FixedTimeController?
      && fresh(r.value.fixed) && r.value.fixed.Valid() && r.value.fixed.View() == FixedTime.FixedInitial
    ensures ParseMode(mode) == Some(AdaptiveMode) ==>
      && r.Some? && r.value.PressureBasedController?
      && fresh(r.value.adaptive) && r.value.adaptive.View() == AdaptiveSpec.Initial
  {
    var m := Lower(mode);
    if m == "fixed" {
      var c := new FixedTime.FixedTimeController();
      return Some(FixedTimeController(c));
    } else if m == "adaptive" {
      var c := new Adaptive.PressureBasedController();
      return Some(PressureBasedController(c));
    } else {
      return None;
    }
  }
}
