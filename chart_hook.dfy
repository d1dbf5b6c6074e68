/**
 * The chart hook: the chart object it owns, the mapping from a server payload
 * to chart datasets and options, and the zoom callback with its re-entrancy guard.
 */
module ChartHook {
  import opened JsText

  /** The palette dataset colours are drawn from, by dataset position. */
  const Colors: seq<string> :=
    ["#fd7f6f", "#7eb0d5", "#b2e061", "#bd7ebe", "#ffb55a", "#ffee65", "#beb9db", "#fdcce5", "#8bd3c7"]

  /** An hour in milliseconds, the step luxon's plus({ hours: 1 }) takes. */
  const OneHour: int := 3_600_000

  /** A data point: a timestamp in milliseconds and its value as join renders it. */
  datatype Point = Point(x: int, y: string)

  /** The per-dataset attributes of a payload; `kind` is the dataset's `type`. */
  datatype Attrs = Attrs(unit: string, fill: bool, kind: string)

  /** A payload dataset; `name` is its `label`. */
  datatype PayloadDataset = PayloadDataset(name: string, attrs: Attrs, rows: seq<Point>)

  /** The body of a "<id>::refresh-data" push. */
  datatype Payload = Payload(
    datasets: seq<PayloadDataset>,
    timeZone: string,
    ylabel: string,
    yMinValue: real,
    yMaxValue: real,
    stackedX: bool,
    stackedY: bool)

  /** A dataset's fill: 'origin', or false. */
  datatype Fill = Origin | NoFill

  /** A chart.js dataset as the hook builds it; `name` is its `label`. */
  datatype ChartDataset = ChartDataset(
    name: string,
    unit: string,
    borderColor: string,
    backgroundColor: string,
    borderWidth: nat,
    pointRadius: nat,
    fill: Fill,
    kind: string,
    data: seq<Point>)

  /** The chart options the refresh handler writes; None is an option never set. */
  datatype Options = Options(
    xOffset: bool,
    xDisplay: bool,
    xStacked: Option<bool>,
    zone: Option<string>,
    yDisplay: bool,
    yGridDisplay: bool,
    yTitleDisplay: bool,
    yTitleText: Option<string>,
    ySuggestedMin: Option<real>,
    ySuggestedMax: Option<real>,
    yStacked: Option<bool>)

  /** The options as configured at mount: the y grid is on, axes show by default, no offset. */
  const InitialOptions: Options :=
    Options(xOffset := false, xDisplay := true, xStacked := None, zone := None,
            yDisplay := true, yGridDisplay := true, yTitleDisplay := false, yTitleText := None,
            ySuggestedMin := None, ySuggestedMax := None, yStacked := None)

  /** The chart object: dataset visibility, the two flags the hook hangs on it, data and options. */
  class Chart {
    var visible: seq<bool>
    var isCtrlPressed: bool
    var triggerZoomCallbacks: bool
    var datasets: seq<ChartDataset>
    var options: Options

    /** The chart as mounted: empty, and with zoom callbacks enabled. */
    constructor ()
      ensures visible == [] && datasets == [] && options == InitialOptions
      ensures !isCtrlPressed && triggerZoomCallbacks
    {
      visible := [];
      isCtrlPressed := false;
      datasets := [];
      options := InitialOptions;
      triggerZoomCallbacks := true;
    }

    predicate IsDatasetVisible(i: nat)
      reads this
      requires i < |visible|
    {
      visible[i]
    }

    method Show(i: nat)
      requires i < |visible|
      modifies this`visible
      ensures visible == old(visible)[i := true]
    {
      visible := visible[i := true];
    }

    method Hide(i: nat)
      requires i < |visible|
      modifies this`visible
      ensures visible == old(visible)[i := false]
    {
      visible := visible[i := false];
    }
  }

  function ColorAt(idx: nat): string
  {
    Colors[idx % |Colors|]
  }

  /** The dataset built from payload dataset `d` at position `idx`. */
  function ToChartDataset(d: PayloadDataset, idx: nat): ChartDataset
  {
    ChartDataset(
      d.name, d.attrs.unit,
      ColorAt(idx) + "FF", ColorAt(idx) + "40",
      1, 1,
      if d.attrs.fill then Origin else NoFill,
      d.attrs.kind, d.rows)
  }

  function ToChartDatasets(ps: seq<PayloadDataset>): seq<ChartDataset>
  {
    seq(|ps|, i requires 0 <= i < |ps| => ToChartDataset(ps[i], i))
  }

  predicate FirstIsBar(datasets: seq<ChartDataset>)
  {
    |datasets| > 0 && datasets[0].kind == "bar"
  }

  /** The options after one refresh with payload `p`. */
  function ApplyPayload(o: Options, p: Payload): Options
  {
    var n := |p.datasets|;
    o.(xOffset := o.xOffset || FirstIsBar(ToChartDatasets(p.datasets)),
       zone := Some(p.timeZone),
       yTitleDisplay := true,
       yTitleText := Some(p.ylabel),
       ySuggestedMin := Some(p.yMinValue),
       ySuggestedMax := Some(p.yMaxValue),
       yStacked := Some(p.stackedX),
       xStacked := Some(p.stackedY),
       yGridDisplay := n > 0,
       yDisplay := n > 0,
       xDisplay := n > 0)
  }

  /** The options after a sequence of refreshes, in order. */
  function ApplyPayloads(o: Options, ps: seq<Payload>): Options
  {
    if ps == [] then o else ApplyPayload(ApplyPayloads(o, ps[..|ps| - 1]), ps[|ps| - 1])
  }

  /** Every built dataset keeps its payload's label, unit, type and rows, takes its colours
      from the palette by position, and fills to the origin exactly when asked to. */
  lemma DatasetMapping(ps: seq<PayloadDataset>, i: nat)
    requires i < |ps|
    ensures |ToChartDatasets(ps)| == |ps|
    ensures ToChartDatasets(ps)[i].name == ps[i].name
    ensures ToChartDatasets(ps)[i].unit == ps[i].attrs.unit
    ensures ToChartDatasets(ps)[i].kind == ps[i].attrs.kind
    ensures ToChartDatasets(ps)[i].data == ps[i].rows
    ensures ToChartDatasets(ps)[i].borderColor == Colors[i % 9] + "FF"
    ensures ToChartDatasets(ps)[i].backgroundColor == Colors[i % 9] + "40"
    ensures ToChartDatasets(ps)[i].fill == Origin <==> ps[i].attrs.fill
  {
  }

  /** Colours repeat with period nine. */
  lemma PaletteCycles(ps: seq<PayloadDataset>, i: nat)
    requires i + 9 < |ps|
    ensures ToChartDatasets(ps)[i].borderColor == ToChartDatasets(ps)[i + 9].borderColor
    ensures ToChartDatasets(ps)[i].backgroundColor == ToChartDatasets(ps)[i + 9].backgroundColor
  {
    assert (i + 9) % 9 == i % 9;
  }

  /** The palette's nine colours are pairwise different, and all seven characters long. */
  lemma PaletteDistinct(a: nat, b: nat)
    requires a < 9 && b < 9 && a != b
    ensures |Colors[a]| == |Colors[b]| == 7 && Colors[a] != Colors[b]
  {
  }

  lemma SuffixCancels(c: string, d: string, suffix: string)
    requires |c| == |d| && c != d
    ensures c + suffix != d + suffix
  {
    assert (c + suffix)[..|c|] == c;
    assert (d + suffix)[..|d|] == d;
  }

  lemma ResiduesDiffer(i: nat, j: nat)
    requires i < j < i + 9
    ensures i % 9 != j % 9
  {
    var q, r := i / 9, i % 9;
    assert i == 9 * q + r;
    if r + (j - i) < 9 {
      assert j == 9 * q + (r + (j - i));
    } else {
      assert j == 9 * (q + 1) + (r + (j - i) - 9);
    }
  }

  /** Any nine consecutive datasets have pairwise different colours. */
  lemma NineConsecutiveDistinct(ps: seq<PayloadDataset>, i: nat, j: nat)
    requires i < j < i + 9 && j < |ps|
    ensures ToChartDatasets(ps)[i].borderColor != ToChartDatasets(ps)[j].borderColor
    ensures ToChartDatasets(ps)[i].backgroundColor != ToChartDatasets(ps)[j].backgroundColor
  {
    var ds := ToChartDatasets(ps);
    assert ds[i] == ToChartDataset(ps[i], i) && ds[j] == ToChartDataset(ps[j], j);
    ResiduesDiffer(i, j);
    var ci, cj := ColorAt(i), ColorAt(j);
    PaletteDistinct(i % 9, j % 9);
    SuffixCancels(ci, cj, "FF");
    SuffixCancels(ci, cj, "40");
  }

  /** The axes and the y grid are shown exactly when the payload carries a dataset; the
      remaining fields come straight from the payload. */
  lemma RefreshDisplays(o: Options, p: Payload)
    ensures ApplyPayload(o, p).xDisplay <==> |p.datasets| > 0
    ensures ApplyPayload(o, p).yDisplay <==> |p.datasets| > 0
    ensures ApplyPayload(o, p).yGridDisplay <==> |p.datasets| > 0
    ensures ApplyPayload(o, p).yTitleDisplay
    ensures ApplyPayload(o, p).yTitleText == Some(p.ylabel)
    ensures ApplyPayload(o, p).zone == Some(p.timeZone)
  {
  }

  /** x.offset, once set, stays set: after any sequence of refreshes it is on exactly when it
      was on at the start or some refresh's first dataset was a bar. */
  lemma {:induction false} OffsetNeverReset(o: Options, ps: seq<Payload>)
    ensures ApplyPayloads(o, ps).xOffset <==>
              o.xOffset || exists k :: 0 <= k < |ps| && FirstIsBar(ToChartDatasets(ps[k].datasets))
  {
    if ps != [] {
      var init := ps[..|ps| - 1];
      OffsetNeverReset(o, init);
      assert forall k :: 0 <= k < |init| ==> init[k] == ps[k];
    }
  }

  /** The refresh handler: rebuild the datasets, then write the options one by one. The new
      dataset objects get fresh metadata in chart.update(), so every one of them is visible,
      whatever was hidden before. */
  method Refresh(chart: Chart, payload: Payload)
    modifies chart`datasets, chart`options, chart`visible
    ensures chart.datasets == ToChartDatasets(payload.datasets)
    ensures chart.visible == seq(|payload.datasets|, _ => true)
    ensures |chart.visible| == |chart.datasets|
    ensures chart.options == ApplyPayload(old(chart.options), payload)
  {
    var n := |payload.datasets|;
    var datasets := ToChartDatasets(payload.datasets);
    chart.datasets := datasets;
    var o := chart.options;
    if |datasets| > 0 && datasets[0].kind == "bar" {
      o := o.(xOffset := true);
    }
    o := o.(zone := Some(payload.timeZone));
    o := o.(yTitleDisplay := true, yTitleText := Some(payload.ylabel));
    o := o.(ySuggestedMin := Some(payload.yMinValue), ySuggestedMax := Some(payload.yMaxValue));
    o := o.(yStacked := Some(payload.stackedX), xStacked := Some(payload.stackedY));
    o := o.(yGridDisplay := n > 0, yDisplay := n > 0, xDisplay := n > 0);
    chart.options := o;
    chart.visible := seq(n, _ => true);
  }

  /** The `zoomCompleted` event's range, in milliseconds before formatting. */
  datatype ZoomRange = ZoomRange(from: int, to: int)

  /** onZoomComplete: `ticks` are the x ticks inside the selection, `ticksAfterReset` those the
      reset scale has when resetZoom calls back in. Returns the events it dispatched. */
  method OnZoomComplete(chart: Chart, ticks: seq<int>, ticksAfterReset: seq<int>)
    returns (dispatched: seq<ZoomRange>)
    modifies chart`triggerZoomCallbacks
    decreases if chart.triggerZoomCallbacks then 1 else 0, 1
    ensures chart.triggerZoomCallbacks == old(chart.triggerZoomCallbacks)
    ensures dispatched ==
              if old(chart.triggerZoomCallbacks) && |ticks| > 0
              then [ZoomRange(ticks[0], ticks[|ticks| - 1] + OneHour)]
              else []
  {
    dispatched := [];
    if chart.triggerZoomCallbacks {
      if |ticks| > 0 {
        dispatched := [ZoomRange(ticks[0], ticks[|ticks| - 1] + OneHour)];
      }
      chart.triggerZoomCallbacks := false;
      var nested := ResetZoom(chart, ticksAfterReset);
      dispatched := dispatched + nested;
      chart.triggerZoomCallbacks := true;
    }
  }

  /** resetZoom: the zoom plugin calls onZoomComplete again once the scale is reset. */
  method ResetZoom(chart: Chart, ticks: seq<int>) returns (dispatched: seq<ZoomRange>)
    modifies chart`triggerZoomCallbacks
    decreases if chart.triggerZoomCallbacks then 1 else 0, 2
    ensures chart.triggerZoomCallbacks == old(chart.triggerZoomCallbacks)
    ensures !old(chart.triggerZoomCallbacks) ==> dispatched == []
  {
    dispatched := OnZoomComplete(chart, ticks, ticks);
  }
}
