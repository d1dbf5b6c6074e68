/**
 * The chart hook's CSV export. The datasets are scanned in index order, point by point, into
 * a JavaScript Map from timestamp to a value vector with one slot per dataset; the Map is
 * modelled as a sequence of entries in insertion order. Timestamp formatting is a parameter.
 */
module ChartCsv {
  import opened JsText
  import opened ChartHook

  /** One entry of the rows Map: a timestamp and its value vector. */
  datatype Entry = Entry(time: int, values: seq<string>)

  /** One step of the scan: dataset `idx` contributes the point (x, y). */
  datatype Obs = Obs(idx: nat, x: int, y: string)

  function Keys(rows: seq<Entry>): seq<int>
  {
    seq(|rows|, r requires 0 <= r < |rows| => rows[r].time)
  }

  /** Array(n).fill('') */
  function Blank(n: nat): seq<string>
  {
    seq(n, _ => "")
  }

  predicate Shaped(rows: seq<Entry>, n: nat)
  {
    forall r :: 0 <= r < |rows| ==> |rows[r].values| == n
  }

  predicate Bounded(obs: seq<Obs>, n: nat)
  {
    forall i :: 0 <= i < |obs| ==> obs[i].idx < n
  }

  /** One step of the scan: take the vector stored for x (or a blank one), set slot idx to y,
      and store it back under x; a new key goes to the end of the Map's order. */
  function Put(rows: seq<Entry>, n: nat, o: Obs): seq<Entry>
    requires Shaped(rows, n) && o.idx < n
  {
    var r := IndexOf(Keys(rows), o.x);
    if r >= 0 then rows[r := Entry(o.x, rows[r].values[o.idx := o.y])]
    else rows + [Entry(o.x, Blank(n)[o.idx := o.y])]
  }

  /** The Map after scanning `obs` from an empty one. */
  function Fold(n: nat, obs: seq<Obs>): (rows: seq<Entry>)
    requires Bounded(obs, n)
    ensures Shaped(rows, n)
  {
    if obs == [] then [] else Put(Fold(n, obs[..|obs| - 1]), n, obs[|obs| - 1])
  }

  function PointsOf(idx: nat, pts: seq<Point>): seq<Obs>
  {
    seq(|pts|, j requires 0 <= j < |pts| => Obs(idx, pts[j].x, pts[j].y))
  }

  /** The scan order: dataset 0's points, then dataset 1's, and so on. */
  function Observations(ds: seq<ChartDataset>): (obs: seq<Obs>)
    ensures Bounded(obs, |ds|)
  {
    if ds == [] then [] else Observations(ds[..|ds| - 1]) + PointsOf(|ds| - 1, ds[|ds| - 1].data)
  }

  function Xs(obs: seq<Obs>): seq<int>
  {
    seq(|obs|, i requires 0 <= i < |obs| => obs[i].x)
  }

  /** Every timestamp in scan order, repeats included. */
  function ScanTimes(ds: seq<ChartDataset>): seq<int>
  {
    Xs(Observations(ds))
  }

  /** The rows Map the export builds. */
  function Merge(ds: seq<ChartDataset>): seq<Entry>
  {
    Fold(|ds|, Observations(ds))
  }

  /** Reference definitions in the datasets' own terms. */
  ghost predicate AppearsIn(ds: seq<ChartDataset>, x: int)
  {
    exists i, j :: 0 <= i < |ds| && 0 <= j < |ds[i].data| && ds[i].data[j].x == x
  }

  ghost predicate HasX(pts: seq<Point>, x: int)
  {
    exists j :: 0 <= j < |pts| && pts[j].x == x
  }

  /** The y of the last point at x, or '' when there is none. */
  function LastValue(pts: seq<Point>, x: int): string
  {
    if pts == [] then ""
    else if pts[|pts| - 1].x == x then pts[|pts| - 1].y
    else LastValue(pts[..|pts| - 1], x)
  }

  /** The value vector a timestamp should get: slot idx holds dataset idx's last y at x. */
  function Slots(ds: seq<ChartDataset>, x: int): seq<string>
  {
    seq(|ds|, idx requires 0 <= idx < |ds| => LastValue(ds[idx].data, x))
  }

  /** The y of the last observation of dataset idx at x, or ''. */
  function LastY(obs: seq<Obs>, idx: nat, x: int): string
  {
    if obs == [] then ""
    else if obs[|obs| - 1].idx == idx && obs[|obs| - 1].x == x then obs[|obs| - 1].y
    else LastY(obs[..|obs| - 1], idx, x)
  }

  /** What the Map holds after scanning `obs`: distinct keys, exactly the scanned timestamps,
      in order of first appearance, each slot the last value seen for it. */
  ghost predicate Describes(rows: seq<Entry>, n: nat, obs: seq<Obs>)
  {
    && Shaped(rows, n)
    && (forall a, b :: 0 <= a < b < |rows| ==> rows[a].time != rows[b].time)
    && (forall r :: 0 <= r < |rows| ==> rows[r].time in Xs(obs))
    && (forall i :: 0 <= i < |obs| ==> obs[i].x in Keys(rows))
    && (forall a, b :: 0 <= a < b < |rows| ==>
          IndexOf(Xs(obs), rows[a].time) < IndexOf(Xs(obs), rows[b].time))
    && (forall r, idx :: 0 <= r < |rows| && 0 <= idx < n ==>
          rows[r].values[idx] == LastY(obs, idx, rows[r].time))
  }

  lemma {:induction false} LastYAbsent(obs: seq<Obs>, idx: nat, x: int)
    requires x !in Xs(obs)
    ensures LastY(obs, idx, x) == ""
  {
    if obs != [] {
      var init := obs[..|obs| - 1];
      assert Xs(obs) == Xs(init) + [obs[|obs| - 1].x];
      LastYAbsent(init, idx, x);
    }
  }

  /** The last observation at (idx, x) after one more scan step. */
  lemma LastYSnoc(obs: seq<Obs>, o: Obs, idx: nat, x: int)
    ensures LastY(obs + [o], idx, x) == if o.idx == idx && o.x == x then o.y else LastY(obs, idx, x)
  {
    assert (obs + [o])[..|obs|] == obs;
  }

  /** Updating an existing entry keeps every entry's first-appearance position. */
  lemma PutExistingOrder(rows: seq<Entry>, n: nat, obs: seq<Obs>, o: Obs, r: nat)
    requires Describes(rows, n, obs) && o.idx < n
    requires r < |rows| && rows[r].time == o.x
    ensures var rows', xs' := rows[r := Entry(o.x, rows[r].values[o.idx := o.y])], Xs(obs + [o]);
            forall a, b :: 0 <= a < b < |rows'| ==> IndexOf(xs', rows'[a].time) < IndexOf(xs', rows'[b].time)
  {
    var xs, xs' := Xs(obs), Xs(obs + [o]);
    assert xs' == xs + [o.x];
    var rows' := rows[r := Entry(o.x, rows[r].values[o.idx := o.y])];
    forall q | 0 <= q < |rows'|
      ensures IndexOf(xs', rows'[q].time) == IndexOf(xs, rows[q].time)
    {
      IndexOfSnoc(xs, o.x, rows[q].time);
    }
  }

  /** Updating an existing entry leaves every slot holding the last value seen for it. */
  lemma PutExistingValues(rows: seq<Entry>, n: nat, obs: seq<Obs>, o: Obs, r: nat)
    requires Describes(rows, n, obs) && o.idx < n
    requires r < |rows| && rows[r].time == o.x
    ensures var rows' := rows[r := Entry(o.x, rows[r].values[o.idx := o.y])];
            forall q, idx :: 0 <= q < |rows'| && 0 <= idx < n ==>
              rows'[q].values[idx] == LastY(obs + [o], idx, rows'[q].time)
  {
    var rows' := rows[r := Entry(o.x, rows[r].values[o.idx := o.y])];
    forall q, idx | 0 <= q < |rows'| && 0 <= idx < n
      ensures rows'[q].values[idx] == LastY(obs + [o], idx, rows'[q].time)
    {
      LastYSnoc(obs, o, idx, rows'[q].time);
    }
  }

  /** A scan step at a timestamp already in the Map updates that entry in place. */
  lemma PutExisting(rows: seq<Entry>, n: nat, obs: seq<Obs>, o: Obs, r: nat)
    requires Describes(rows, n, obs) && o.idx < n
    requires r < |rows| && rows[r].time == o.x
    ensures Describes(rows[r := Entry(o.x, rows[r].values[o.idx := o.y])], n, obs + [o])
  {
    var xs, xs' := Xs(obs), Xs(obs + [o]);
    assert xs' == xs + [o.x];
    var rows' := rows[r := Entry(o.x, rows[r].values[o.idx := o.y])];
    assert Keys(rows') == Keys(rows);
    PutExistingOrder(rows, n, obs, o, r);
    PutExistingValues(rows, n, obs, o, r);
  }

  /** A timestamp that is not a key has not been scanned yet. */
  lemma NotKeyNotScanned(rows: seq<Entry>, n: nat, obs: seq<Obs>, x: int)
    requires Describes(rows, n, obs) && x !in Keys(rows)
    ensures x !in Xs(obs)
  {
  }

  /** A new timestamp's entry comes after every other in first-appearance order. */
  lemma PutNewOrder(rows: seq<Entry>, n: nat, obs: seq<Obs>, o: Obs)
    requires Describes(rows, n, obs) && o.idx < n && o.x !in Xs(obs)
    ensures var rows', xs' := rows + [Entry(o.x, Blank(n)[o.idx := o.y])], Xs(obs + [o]);
            forall a, b :: 0 <= a < b < |rows'| ==> IndexOf(xs', rows'[a].time) < IndexOf(xs', rows'[b].time)
  {
    var xs := Xs(obs);
    var rows', xs' := rows + [Entry(o.x, Blank(n)[o.idx := o.y])], Xs(obs + [o]);
    assert xs' == xs + [o.x];
    IndexOfSnocNew(xs, o.x);
    forall q | 0 <= q < |rows|
      ensures IndexOf(xs', rows'[q].time) == IndexOf(xs, rows[q].time) < |xs|
    {
      IndexOfSnoc(xs, o.x, rows[q].time);
    }
  }

  /** A new timestamp's entry holds y in its own slot and '' in every other. */
  lemma PutNewValues(rows: seq<Entry>, n: nat, obs: seq<Obs>, o: Obs)
    requires Describes(rows, n, obs) && o.idx < n && o.x !in Xs(obs)
    ensures var rows' := rows + [Entry(o.x, Blank(n)[o.idx := o.y])];
            forall q, idx :: 0 <= q < |rows'| && 0 <= idx < n ==>
              rows'[q].values[idx] == LastY(obs + [o], idx, rows'[q].time)
  {
    var rows' := rows + [Entry(o.x, Blank(n)[o.idx := o.y])];
    forall q, idx | 0 <= q < |rows'| && 0 <= idx < n
      ensures rows'[q].values[idx] == LastY(obs + [o], idx, rows'[q].time)
    {
      LastYSnoc(obs, o, idx, rows'[q].time);
      if q == |rows| && idx != o.idx {
        LastYAbsent(obs, idx, o.x);
      }
    }
  }

  /** A scan step at a new timestamp appends an entry whose other slots are blank. */
  lemma PutNew(rows: seq<Entry>, n: nat, obs: seq<Obs>, o: Obs)
    requires Describes(rows, n, obs) && o.idx < n
    requires o.x !in Keys(rows)
    ensures Describes(rows + [Entry(o.x, Blank(n)[o.idx := o.y])], n, obs + [o])
  {
    var obs' := obs + [o];
    var xs, xs' := Xs(obs), Xs(obs');
    assert xs' == xs + [o.x];
    var rows' := rows + [Entry(o.x, Blank(n)[o.idx := o.y])];
    assert Keys(rows') == Keys(rows) + [o.x];
    NotKeyNotScanned(rows, n, obs, o.x);
    PutNewOrder(rows, n, obs, o);
    PutNewValues(rows, n, obs, o);
  }

  lemma PutDescribes(rows: seq<Entry>, n: nat, obs: seq<Obs>, o: Obs)
    requires Describes(rows, n, obs) && o.idx < n
    ensures Describes(Put(rows, n, o), n, obs + [o])
  {
    var r := IndexOf(Keys(rows), o.x);
    if r >= 0 {
      PutExisting(rows, n, obs, o, r);
    } else {
      PutNew(rows, n, obs, o);
    }
  }

  lemma {:induction false} FoldDescribes(n: nat, obs: seq<Obs>)
    requires Bounded(obs, n)
    ensures Describes(Fold(n, obs), n, obs)
  {
    if obs != [] {
      var init := obs[..|obs| - 1];
      FoldDescribes(n, init);
      assert init + [obs[|obs| - 1]] == obs;
      PutDescribes(Fold(n, init), n, init, obs[|obs| - 1]);
    }
  }

  lemma {:induction false} LastYBelow(obs: seq<Obs>, m: nat, x: int)
    requires Bounded(obs, m)
    ensures LastY(obs, m, x) == ""
  {
    if obs != [] {
      LastYBelow(obs[..|obs| - 1], m, x);
    }
  }

  lemma {:induction false} LastValueAbsent(pts: seq<Point>, x: int)
    requires !HasX(pts, x)
    ensures LastValue(pts, x) == ""
  {
    if pts != [] {
      LastValueAbsent(pts[..|pts| - 1], x);
    }
  }

  /** Scanning one more dataset's points: its own slot gets its last value, the others keep theirs. */
  lemma {:induction false} LastYAppendPoints(a: seq<Obs>, m: nat, pts: seq<Point>, idx: nat, x: int)
    ensures LastY(a + PointsOf(m, pts), idx, x) ==
              if idx == m && HasX(pts, x) then LastValue(pts, x) else LastY(a, idx, x)
  {
    if pts == [] {
      assert a + PointsOf(m, pts) == a;
    } else {
      var init, p := pts[..|pts| - 1], pts[|pts| - 1];
      LastYAppendPoints(a, m, init, idx, x);
      var all := a + PointsOf(m, pts);
      assert all[..|all| - 1] == a + PointsOf(m, init);
      assert all[|all| - 1] == Obs(m, p.x, p.y);
      assert HasX(pts, x) <==> HasX(init, x) || p.x == x by {
        if HasX(pts, x) && p.x != x {
          var j :| 0 <= j < |pts| && pts[j].x == x;
          assert init[j].x == x;
        }
        if HasX(init, x) {
          var j :| 0 <= j < |init| && init[j].x == x;
          assert pts[j].x == x;
        }
      }
      if idx == m && !HasX(pts, x) {
        LastValueAbsent(pts, x);
      }
    }
  }

  lemma {:induction false} ObservationsLastY(ds: seq<ChartDataset>, idx: nat, x: int)
    requires idx < |ds|
    ensures LastY(Observations(ds), idx, x) == LastValue(ds[idx].data, x)
  {
    var m := |ds| - 1;
    var init := ds[..m];
    LastYAppendPoints(Observations(init), m, ds[m].data, idx, x);
    if idx < m {
      ObservationsLastY(init, idx, x);
    } else if !HasX(ds[m].data, x) {
      LastYBelow(Observations(init), m, x);
      LastValueAbsent(ds[m].data, x);
    }
  }

  /** A dataset's block of the scan holds exactly its timestamps. */
  lemma PointTimes(m: nat, pts: seq<Point>, x: int)
    ensures x in Xs(PointsOf(m, pts)) <==> HasX(pts, x)
  {
    var xs := Xs(PointsOf(m, pts));
    if HasX(pts, x) {
      var j :| 0 <= j < |pts| && pts[j].x == x;
      assert xs[j] == x;
    }
    if x in xs {
      var j :| 0 <= j < |xs| && xs[j] == x;
      assert pts[j].x == x;
    }
  }

  /** A timestamp appears in the datasets iff it appears in all but the last, or in the last. */
  lemma AppearsInSnoc(ds: seq<ChartDataset>, x: int)
    requires ds != []
    ensures AppearsIn(ds, x) <==> AppearsIn(ds[..|ds| - 1], x) || HasX(ds[|ds| - 1].data, x)
  {
    var m := |ds| - 1;
    var init := ds[..m];
    if AppearsIn(init, x) {
      var i, j :| 0 <= i < |init| && 0 <= j < |init[i].data| && init[i].data[j].x == x;
      assert ds[i].data[j].x == x;
    }
    if HasX(ds[m].data, x) {
      var j :| 0 <= j < |ds[m].data| && ds[m].data[j].x == x;
      assert ds[m].data[j].x == x;
    }
    if AppearsIn(ds, x) {
      var i, j :| 0 <= i < |ds| && 0 <= j < |ds[i].data| && ds[i].data[j].x == x;
      if i < m {
        assert init[i].data[j].x == x;
      }
    }
  }

  lemma {:induction false} ObservationsTimes(ds: seq<ChartDataset>, x: int)
    ensures x in ScanTimes(ds) <==> AppearsIn(ds, x)
  {
    if ds != [] {
      var m := |ds| - 1;
      var init, pts := ds[..m], ds[m].data;
      ObservationsTimes(init, x);
      assert ScanTimes(ds) == ScanTimes(init) + Xs(PointsOf(m, pts));
      PointTimes(m, pts, x);
      AppearsInSnoc(ds, x);
    }
  }

  /** The rows of the export, in dataset terms: one per distinct timestamp of any dataset,
      ordered by first appearance in the scan, each holding every dataset's last value there. */
  lemma MergeRows(ds: seq<ChartDataset>)
    ensures var rows := Merge(ds);
            && (forall a, b :: 0 <= a < b < |rows| ==> rows[a].time != rows[b].time)
            && (forall x :: x in Keys(rows) <==> AppearsIn(ds, x))
            && (forall a, b :: 0 <= a < b < |rows| ==>
                  IndexOf(ScanTimes(ds), rows[a].time) < IndexOf(ScanTimes(ds), rows[b].time))
            && (forall r :: 0 <= r < |rows| ==> rows[r].values == Slots(ds, rows[r].time))
  {
    var obs := Observations(ds);
    var rows := Merge(ds);
    FoldDescribes(|ds|, obs);
    forall x
      ensures x in Keys(rows) <==> AppearsIn(ds, x)
    {
      ObservationsTimes(ds, x);
      if x in Xs(obs) {
        var i :| 0 <= i < |obs| && Xs(obs)[i] == x;
        assert obs[i].x in Keys(rows);
      }
      if x in Keys(rows) {
        var r :| 0 <= r < |rows| && Keys(rows)[r] == x;
        assert rows[r].time in Xs(obs);
      }
    }
    forall r | 0 <= r < |rows|
      ensures rows[r].values == Slots(ds, rows[r].time)
    {
      forall idx | 0 <= idx < |ds|
        ensures rows[r].values[idx] == LastValue(ds[idx].data, rows[r].time)
      {
        ObservationsLastY(ds, idx, rows[r].time);
      }
    }
  }

  /** The distinct timestamps of all datasets. */
  ghost function TimeSet(ds: seq<ChartDataset>): set<int>
  {
    set i, j | 0 <= i < |ds| && 0 <= j < |ds[i].data| :: ds[i].data[j].x
  }

  /** A repeat-free sequence has as many elements as its set of elements. */
  lemma {:induction false} DistinctCard(s: seq<int>)
    requires forall a, b :: 0 <= a < b < |s| ==> s[a] != s[b]
    ensures |set x | x in s| == |s|
  {
    if s != [] {
      var init, last := s[..|s| - 1], s[|s| - 1];
      DistinctCard(init);
      assert (set x | x in s) == (set x | x in init) + {last};
      assert last !in (set x | x in init);
    }
  }

  /** The export has one row per distinct timestamp. */
  lemma MergeRowCount(ds: seq<ChartDataset>)
    ensures |Merge(ds)| == |TimeSet(ds)|
  {
    var times := Keys(Merge(ds));
    MergeRows(ds);
    DistinctCard(times);
    assert (set x | x in times) == TimeSet(ds) by {
      forall x
        ensures x in times <==> x in TimeSet(ds)
      {
        if x in TimeSet(ds) {
          var i, j :| 0 <= i < |ds| && 0 <= j < |ds[i].data| && ds[i].data[j].x == x;
          assert AppearsIn(ds, x);
        }
      }
    }
  }

  function Labels(ds: seq<ChartDataset>): seq<string>
  {
    seq(|ds|, i requires 0 <= i < |ds| => Quote(ds[i].name))
  }

  function DataLine(format: int -> string, e: Entry): string
  {
    format(e.time) + "," + Join(e.values, ",")
  }

  /** The lines of the export: the separator hint, the header, then one line per Map entry. */
  function CsvLines(ds: seq<ChartDataset>, format: int -> string): seq<string>
  {
    var rows := Merge(ds);
    ["sep=,", "\"time\"," + Join(Labels(ds), ",")]
      + seq(|rows|, r requires 0 <= r < |rows| => DataLine(format, rows[r]))
  }

  /** The export in dataset terms: after `sep=,` and the header comes exactly one line per
      distinct timestamp, in order of first appearance, carrying the formatted timestamp and
      every dataset's last value there ('' where it has none). */
  lemma ChartCsvLayout(ds: seq<ChartDataset>, format: int -> string)
    ensures var lines, times := CsvLines(ds, format), Keys(Merge(ds));
            && |lines| == 2 + |times|
            && |times| == |TimeSet(ds)|
            && lines[0] == "sep=,"
            && lines[1] == "\"time\"," + Join(Labels(ds), ",")
            && (forall a, b :: 0 <= a < b < |times| ==> times[a] != times[b])
            && (forall x :: x in times <==> AppearsIn(ds, x))
            && (forall a, b :: 0 <= a < b < |times| ==>
                  IndexOf(ScanTimes(ds), times[a]) < IndexOf(ScanTimes(ds), times[b]))
            && (forall r :: 0 <= r < |times| ==>
                  lines[2 + r] == format(times[r]) + "," + Join(Slots(ds, times[r]), ","))
  {
    MergeRows(ds);
    MergeRowCount(ds);
  }

  /** One more point of dataset idx is one more step of the fold. */
  lemma ScanStep(n: nat, done: seq<Obs>, idx: nat, pts: seq<Point>, j: nat)
    requires idx < n && Bounded(done, n) && j < |pts|
    ensures Bounded(done + PointsOf(idx, pts[..j]), n)
    ensures Bounded(done + PointsOf(idx, pts[..j + 1]), n)
    ensures Fold(n, done + PointsOf(idx, pts[..j + 1]))
              == Put(Fold(n, done + PointsOf(idx, pts[..j])), n, Obs(idx, pts[j].x, pts[j].y))
  {
    var before := done + PointsOf(idx, pts[..j]);
    var after := done + PointsOf(idx, pts[..j + 1]);
    assert after == before + [Obs(idx, pts[j].x, pts[j].y)];
    assert after[..|after| - 1] == before;
  }

  /** A finished dataset is one more block of the scan. */
  lemma DatasetStep(ds: seq<ChartDataset>, idx: nat)
    requires idx < |ds|
    ensures Observations(ds[..idx + 1]) == Observations(ds[..idx]) + PointsOf(idx, ds[idx].data)
  {
    assert ds[..idx + 1][..idx] == ds[..idx];
  }

  /** The scan of the first datasets only names datasets below any bound past them. */
  lemma ObservationsBounded(ds: seq<ChartDataset>, n: nat)
    requires |ds| <= n
    ensures Bounded(Observations(ds), n)
  {
    var obs := Observations(ds);
    assert Bounded(obs, |ds|);
  }

  /** One point of the scan: the vector stored for the point's timestamp, or a blank one,
      gets the point's value in slot idx and is stored back under that timestamp. */
  method SetPoint(rows: seq<Entry>, n: nat, idx: nat, p: Point) returns (rows': seq<Entry>)
    requires Shaped(rows, n) && idx < n
    ensures rows' == Put(rows, n, Obs(idx, p.x, p.y))
  {
    var r := IndexOf(Keys(rows), p.x);
    var values := if r >= 0 then rows[r].values else Blank(n);
    values := values[idx := p.y];
    if r >= 0 {
      rows' := rows[r := Entry(p.x, values)];
    } else {
      rows' := rows + [Entry(p.x, values)];
    }
  }

  /** The inner forEach: every point of dataset idx, in order, after the scan `done` so far. */
  method ScanDataset(rows: seq<Entry>, n: nat, idx: nat, pts: seq<Point>, ghost done: seq<Obs>)
    returns (rows': seq<Entry>)
    requires idx < n && Bounded(done, n) && rows == Fold(n, done)
    ensures Bounded(done + PointsOf(idx, pts), n)
    ensures rows' == Fold(n, done + PointsOf(idx, pts))
  {
    rows' := rows;
    assert done + PointsOf(idx, pts[..0]) == done;
    for j := 0 to |pts|
      invariant Bounded(done + PointsOf(idx, pts[..j]), n)
      invariant rows' == Fold(n, done + PointsOf(idx, pts[..j]))
    {
      ScanStep(n, done, idx, pts, j);
      rows' := SetPoint(rows', n, idx, pts[j]);
    }
    assert pts[..|pts|] == pts;
  }

  /** The scan of downloadCSV: the rows Map, built in place. */
  method BuildRows(datasets: seq<ChartDataset>) returns (rows: seq<Entry>)
    ensures rows == Merge(datasets)
  {
    var n := |datasets|;
    rows := [];
    ObservationsBounded(datasets[..0], n);
    for idx := 0 to n
      invariant Bounded(Observations(datasets[..idx]), n)
      invariant rows == Fold(n, Observations(datasets[..idx]))
    {
      ghost var done := Observations(datasets[..idx]);
      rows := ScanDataset(rows, n, idx, datasets[idx].data, done);
      DatasetStep(datasets, idx);
      ObservationsBounded(datasets[..idx + 1], n);
    }
    assert datasets[..n] == datasets;
  }

  /** downloadCSV up to the file hand-off: the CSV text, lines joined by CRLF. */
  method DownloadCsv(datasets: seq<ChartDataset>, format: int -> string) returns (csv: string)
    ensures csv == Join(CsvLines(datasets, format), "\r\n")
  {
    var labels := seq(|datasets|, i requires 0 <= i < |datasets| => Quote(datasets[i].name));
    var rows := BuildRows(datasets);
    var csvRows := ["sep=,", "\"time\"," + Join(labels, ",")];
    var i := 0;
    while i < |rows|
      invariant 0 <= i <= |rows|
      invariant csvRows == CsvLines(datasets, format)[..2 + i]
    {
      csvRows := csvRows + [format(rows[i].time) + "," + Join(rows[i].values, ",")];
      i := i + 1;
    }
    assert csvRows == CsvLines(datasets, format);
    csv := Join(csvRows, "\r\n");
  }
}
