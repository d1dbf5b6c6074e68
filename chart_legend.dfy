/**
 * The legend click behaviour of the chart hook. Legend item i stands for dataset i;
 * each item carries a `hidden` flag and the chart keeps its own visibility per dataset.
 */
module ChartLegend {
  import opened ChartHook

  /** The legend items' hidden flags next to the chart's dataset visibility. */
  datatype LegendView = LegendView(hidden: seq<bool>, visible: seq<bool>)

  /** One legend item per dataset. */
  predicate WellFormed(s: LegendView)
  {
    |s.hidden| == |s.visible|
  }

  /** The invariant chart.js keeps between the two: an item is hidden iff its dataset is not visible. */
  predicate Mirrored(s: LegendView)
  {
    WellFormed(s) && forall i :: 0 <= i < |s.hidden| ==> s.hidden[i] == !s.visible[i]
  }

  predicate AllHidden(hidden: seq<bool>)
  {
    forall i :: 0 <= i < |hidden| ==> hidden[i]
  }

  /** toggleLegendItem on item k: show its dataset if the item was hidden, else hide it; flip the item. */
  function Toggled(s: LegendView, k: nat): LegendView
    requires WellFormed(s) && k < |s.hidden|
  {
    LegendView(s.hidden[k := !s.hidden[k]], s.visible[k := s.hidden[k]])
  }

  /** toggleLegendItem on every item, in order. */
  function ToggledAll(s: LegendView): LegendView
    requires WellFormed(s)
  {
    LegendView(seq(|s.hidden|, i requires 0 <= i < |s.hidden| => !s.hidden[i]), s.hidden)
  }

  /** toggleOtherLegendItems: toggleLegendItem on every item but k. */
  function ToggledOthers(s: LegendView, k: nat): LegendView
    requires WellFormed(s) && k < |s.hidden|
  {
    LegendView(
      seq(|s.hidden|, i requires 0 <= i < |s.hidden| => if i == k then s.hidden[i] else !s.hidden[i]),
      seq(|s.visible|, i requires 0 <= i < |s.visible| => if i == k then s.visible[i] else s.hidden[i]))
  }

  /** highlightLegendItem: show k's dataset and hide every other one. */
  function Highlighted(s: LegendView, k: nat): LegendView
    requires WellFormed(s) && k < |s.hidden|
  {
    LegendView(
      seq(|s.hidden|, i requires 0 <= i < |s.hidden| => i != k),
      seq(|s.visible|, i requires 0 <= i < |s.visible| => i == k))
  }

  /** The four ways a legend click can go, tried in this order. */
  datatype Branch = CtrlToggle | RevealAll | ToggleOthers | Highlight

  function ClickBranch(s: LegendView, k: nat, ctrl: bool): Branch
    requires WellFormed(s) && k < |s.hidden|
  {
    if ctrl then CtrlToggle
    else if AllHidden(s.hidden) then RevealAll
    else if s.visible[k] then ToggleOthers
    else Highlight
  }

  /** legendClickHandler on item k, with Ctrl held or not. */
  function Click(s: LegendView, k: nat, ctrl: bool): LegendView
    requires WellFormed(s) && k < |s.hidden|
  {
    match ClickBranch(s, k, ctrl)
    case CtrlToggle => Toggled(s, k)
    case RevealAll => ToggledAll(s)
    case ToggleOthers => ToggledOthers(s, k)
    case Highlight => Highlighted(s, k)
  }

  /** toggleLegendItem flips exactly the clicked item: its dataset is shown if it was hidden and
      hidden otherwise, and every other item and dataset is unchanged. */
  lemma ToggleFlipsOnlyClicked(s: LegendView, k: nat)
    requires WellFormed(s) && k < |s.hidden|
    ensures WellFormed(Toggled(s, k))
    ensures Toggled(s, k).hidden[k] == !s.hidden[k]
    ensures Toggled(s, k).visible[k] == s.hidden[k]
    ensures forall i :: 0 <= i < |s.hidden| && i != k ==>
              Toggled(s, k).hidden[i] == s.hidden[i] && Toggled(s, k).visible[i] == s.visible[i]
  {
  }

  /** With Ctrl held a click takes the toggle branch and nothing else. */
  lemma CtrlClickTogglesOnly(s: LegendView, k: nat)
    requires WellFormed(s) && k < |s.hidden|
    ensures ClickBranch(s, k, true) == CtrlToggle
    ensures Click(s, k, true) == Toggled(s, k)
  {
  }

  /** When every item is hidden, a click without Ctrl on any item makes every item visible. */
  lemma RevealAllWhenAllHidden(s: LegendView, k: nat)
    requires WellFormed(s) && k < |s.hidden|
    requires AllHidden(s.hidden)
    ensures WellFormed(Click(s, k, false))
    ensures forall i :: 0 <= i < |s.hidden| ==>
              !Click(s, k, false).hidden[i] && Click(s, k, false).visible[i]
  {
  }

  /** A click without Ctrl on a visible item, when not every item is hidden, flips every other
      item and leaves the clicked one as it was. */
  lemma VisibleClickTogglesOthers(s: LegendView, k: nat)
    requires Mirrored(s) && k < |s.hidden|
    requires !AllHidden(s.hidden) && s.visible[k]
    ensures Mirrored(Click(s, k, false))
    ensures Click(s, k, false).hidden[k] == s.hidden[k]
    ensures Click(s, k, false).visible[k] == s.visible[k]
    ensures forall i :: 0 <= i < |s.hidden| && i != k ==>
              Click(s, k, false).hidden[i] == !s.hidden[i] && Click(s, k, false).visible[i] == !s.visible[i]
  {
  }

  /** In the remaining case (clicked item hidden, some item visible) exactly the clicked item is
      visible afterwards. */
  lemma HiddenClickHighlights(s: LegendView, k: nat)
    requires WellFormed(s) && k < |s.hidden|
    requires !AllHidden(s.hidden) && !s.visible[k]
    ensures WellFormed(Click(s, k, false))
    ensures forall i :: 0 <= i < |s.hidden| ==>
              (Click(s, k, false).visible[i] <==> i == k) && (Click(s, k, false).hidden[i] <==> i != k)
  {
  }

  /** Every click branch keeps each item's hidden flag the negation of its dataset's visibility. */
  lemma ClickPreservesMirror(s: LegendView, k: nat, ctrl: bool)
    requires Mirrored(s) && k < |s.hidden|
    ensures Mirrored(Click(s, k, ctrl))
  {
  }

  /** Clicking a hidden item isolates it; clicking it again brings every dataset back. */
  lemma IsolateThenRestore(s: LegendView, k: nat)
    requires Mirrored(s) && k < |s.hidden|
    requires !AllHidden(s.hidden) && !s.visible[k]
    ensures WellFormed(Click(s, k, false)) && k < |Click(s, k, false).hidden|
    ensures var t := Click(Click(s, k, false), k, false);
            forall i :: 0 <= i < |s.hidden| ==> t.visible[i] && !t.hidden[i]
  {
    var h := Click(s, k, false);
    assert h == Highlighted(s, k);
    assert !h.hidden[k];
    assert !AllHidden(h.hidden);
    assert Click(h, k, false) == ToggledOthers(h, k);
  }

  /** Two Ctrl clicks on the same item undo each other. */
  lemma CtrlClickTwiceRestores(s: LegendView, k: nat)
    requires Mirrored(s) && k < |s.hidden|
    ensures WellFormed(Click(s, k, true)) && k < |Click(s, k, true).hidden|
    ensures Click(Click(s, k, true), k, true) == s
  {
    var t := Click(Click(s, k, true), k, true);
    assert t.hidden == s.hidden;
    assert t.visible[k] == !s.hidden[k] == s.visible[k];
    assert t.visible == s.visible;
  }

  /** The chart.js legend: its items' hidden flags, attached to one chart. */
  class Legend {
    var hidden: seq<bool>
    const chart: Chart

    /** The legend chart.js generates: one item per dataset, hidden iff the dataset is not visible. */
    constructor (chart: Chart)
      ensures this.chart == chart
      ensures Mirrored(View())
    {
      this.chart := chart;
      var visible := chart.visible;
      hidden := seq(|visible|, i requires 0 <= i < |visible| => !visible[i]);
    }

    predicate Valid()
      reads this, chart
    {
      |hidden| == |chart.visible|
    }

    function View(): LegendView
      reads this, chart
    {
      LegendView(hidden, chart.visible)
    }
  }

  method ToggleLegendItem(legend: Legend, k: nat)
    requires legend.Valid() && k < |legend.hidden|
    modifies legend`hidden, legend.chart`visible
    ensures legend.Valid()
    ensures legend.View() == Toggled(old(legend.View()), k)
  {
    if legend.hidden[k] {
      legend.chart.Show(k);
    } else {
      legend.chart.Hide(k);
    }
    legend.hidden := legend.hidden[k := !legend.hidden[k]];
  }

  /** The forEach of the all-hidden branch: toggleLegendItem on every item. */
  method ToggleAllLegendItems(legend: Legend)
    requires legend.Valid()
    modifies legend`hidden, legend.chart`visible
    ensures legend.Valid()
    ensures legend.View() == ToggledAll(old(legend.View()))
  {
    ghost var s := legend.View();
    var n := |legend.hidden|;
    var i := 0;
    while i < n
      invariant 0 <= i <= n
      invariant legend.Valid() && |legend.hidden| == n
      invariant forall j :: 0 <= j < n ==> legend.hidden[j] == (if j < i then !s.hidden[j] else s.hidden[j])
      invariant forall j :: 0 <= j < n ==> legend.chart.visible[j] == (if j < i then s.hidden[j] else s.visible[j])
    {
      ToggleLegendItem(legend, i);
      i := i + 1;
    }
  }

  method ToggleOtherLegendItems(legend: Legend, k: nat)
    requires legend.Valid() && k < |legend.hidden|
    modifies legend`hidden, legend.chart`visible
    ensures legend.Valid()
    ensures legend.View() == ToggledOthers(old(legend.View()), k)
  {
    ghost var s := legend.View();
    var n := |legend.hidden|;
    var i := 0;
    while i < n
      invariant 0 <= i <= n
      invariant legend.Valid() && |legend.hidden| == n
      invariant forall j :: 0 <= j < n ==>
                  legend.hidden[j] == (if j < i && j != k then !s.hidden[j] else s.hidden[j])
      invariant forall j :: 0 <= j < n ==>
                  legend.chart.visible[j] == (if j < i && j != k then s.hidden[j] else s.visible[j])
    {
      if i != k {
        ToggleLegendItem(legend, i);
      }
      i := i + 1;
    }
  }

  method HighlightLegendItem(legend: Legend, k: nat)
    requires legend.Valid() && k < |legend.hidden|
    modifies legend`hidden, legend.chart`visible
    ensures legend.Valid()
    ensures legend.View() == Highlighted(old(legend.View()), k)
  {
    ghost var s := legend.View();
    var n := |legend.hidden|;
    var i := 0;
    while i < n
      invariant 0 <= i <= n
      invariant legend.Valid() && |legend.hidden| == n
      invariant forall j :: 0 <= j < n ==> legend.hidden[j] == (if j < i then j != k else s.hidden[j])
      invariant forall j :: 0 <= j < n ==> legend.chart.visible[j] == (if j < i then j == k else s.visible[j])
    {
      if i == k {
        legend.chart.Show(i);
        legend.hidden := legend.hidden[i := false];
      } else {
        legend.chart.Hide(i);
        legend.hidden := legend.hidden[i := true];
      }
      i := i + 1;
    }
  }

  /** allLegendItemsHidden: scan the items, stopping at the first one not hidden. */
  method AllLegendItemsHidden(legend: Legend) returns (result: bool)
    ensures result == AllHidden(legend.hidden)
  {
    result := true;
    var i := 0;
    while i < |legend.hidden|
      invariant 0 <= i <= |legend.hidden|
      invariant forall j :: 0 <= j < i ==> legend.hidden[j]
    {
      if !legend.hidden[i] {
        result := false;
        break;
      }
      i := i + 1;
    }
  }

  /** legendClickHandler on item k; the Ctrl state is the chart's isCtrlPressed flag. */
  method LegendClickHandler(legend: Legend, k: nat)
    requires legend.Valid() && k < |legend.hidden|
    modifies legend`hidden, legend.chart`visible
    ensures legend.Valid()
    ensures legend.View() == Click(old(legend.View()), k, legend.chart.isCtrlPressed)
    ensures Mirrored(old(legend.View())) ==> Mirrored(legend.View())
  {
    ghost var s := legend.View();
    if Mirrored(s) {
      ClickPreservesMirror(s, k, legend.chart.isCtrlPressed);
    }
    if legend.chart.isCtrlPressed {
      ToggleLegendItem(legend, k);
      return;
    }
    var allHidden := AllLegendItemsHidden(legend);
    if allHidden {
      ToggleAllLegendItems(legend);
      return;
    }
    if legend.chart.IsDatasetVisible(k) {
      ToggleOtherLegendItems(legend, k);
      return;
    }
    HighlightLegendItem(legend, k);
  }
}
