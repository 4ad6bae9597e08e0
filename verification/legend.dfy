/**
 * The legend click handler of the chart pad (`toggleDataSeries` in app.js):
 * clicking a legend entry hides its series when it is shown and shows it when
 * it is hidden. A series whose visibility was never set counts as shown.
 */
module Legend {
  import opened Wrappers

  /** Whether a series is drawn: unset (`None`) and `true` both mean shown. */
  predicate IsShown(visible: Option<bool>) {
    visible != Some(false)
  }

  /**
   * The visibility after one click: always set, and shown exactly when it was
   * hidden before.
   */
  function Toggled(visible: Option<bool>): (r: Option<bool>)
    ensures r.Some?
    ensures IsShown(r) <==> !IsShown(visible)
    ensures r.value == !IsShown(visible)
  {
    if visible.None? || visible.value then Some(false) else Some(true)
  }

  /** Two clicks restore whether a series is drawn, and restore the flag itself once it has been set. */
  lemma ToggleTwice(visible: Option<bool>)
    ensures IsShown(Toggled(Toggled(visible))) == IsShown(visible)
    ensures visible.Some? ==> Toggled(Toggled(visible)) == visible
    ensures Toggled(Toggled(Toggled(visible))) == Toggled(visible)
  {
  }

  /** A series as the chart library holds it: only its visibility flag is modelled. */
  class DataSeriesState {
    var visible: Option<bool>

    /** A freshly rendered series has no visibility flag, so it is shown. */
    constructor ()
      ensures visible == None && IsShown(visible)
    {
      visible := None;
    }

    /**
     * `toggleDataSeries`: flips whether the series is drawn and leaves the flag
     * set; the chart is then redrawn.
     */
    method ToggleDataSeries()
      modifies this
      ensures visible == Toggled(old(visible))
      ensures visible.Some? && (IsShown(visible) <==> !IsShown(old(visible)))
    {
      if visible == None || visible.value {
        visible := Some(false);
      } else {
        visible := Some(true);
      }
    }
  }

  /** Clicking the legend entry of a new series twice hides it, then shows it again. */
  method ClickTwice() returns (first: bool, second: bool)
    ensures !first && second
  {
    var s := new DataSeriesState();
    s.ToggleDataSeries();
    first := IsShown(s.visible);
    s.ToggleDataSeries();
    second := IsShown(s.visible);
  }
}
