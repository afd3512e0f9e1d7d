/**
 * The live gram map: each frame runs the shared per-channel transform with
 * the gram policy, adds every displayed channel's sum and peak to its
 * region label, orients the channel for the hand picture, and lists the
 * region loads in a fixed preferred order.
 */
module GramMap {

  import opened Wrappers
  import opened Text
  import opened Statistics
  import opened Matrices
  import opened FrameTransform
  import opened GramRegions

  /** Grams per raw count: the calibrated 0.02106959 g/count, times four. */
  const ScaleGPerCount: real := 0.02106959 * 4.0
  const SmoothingFactor: real := 0.0

  /**
   * No upper clip, scaling to grams, a smoothed state seeded with zeros, and
   * a moving average only when the smoothing factor is positive.
   */
  const GramPolicy: Policy := Policy(None, ScaleGPerCount, SeedZeros, EmaIfPositive(SmoothingFactor))

  /**
   * With a smoothing factor of zero the moving average never applies: a
   * processed channel's stored value is its clipped difference from the
   * baseline in grams, whatever was stored before, and the first usable
   * reading is the baseline that later frames keep.
   */
  lemma GramStoredValue(sheet: seq<Channel>, overlays: set<string>, s: State, ch: Channel, frame: Frame)
    requires SheetConsistent(sheet) && ch in sheet && Coherent(sheet, s)
    requires Processes(overlays, frame, ch)
    ensures var raw := Reading(frame, ch);
      var base := if ch.id in s.baselines then s.baselines[ch.id] else raw;
      var r := Update(GramPolicy, overlays, sheet, s, ch, frame);
      && r.baselines[ch.id] == base
      && SameShape(r.smoothed[ch.id], raw)
      && forall i, j :: 0 <= i < |raw| && 0 <= j < |raw[i]| ==>
           r.smoothed[ch.id][i][j] == ScaleGPerCount * Clip(raw[i][j] - base[i][j], None)
  {
    UpdatedValue(GramPolicy, overlays, sheet, s, ch, frame);
  }

  /** The channels that get an overlay (`sensor_images`): those the map places on the hand. */
  function GramOverlays(sheet: seq<Channel>): (r: set<string>)
    ensures forall v :: v in r ==> GramPlacement(v).Some?
  {
    if |sheet| == 0 then {}
    else
      var c := sheet[|sheet| - 1];
      GramOverlays(sheet[..|sheet| - 1]) + (if GramPlacement(c.id).Some? then {c.id} else {})
  }

  /** A channel gets an overlay exactly when it is on the data sheet and the map places it. */
  lemma {:induction false} GramOverlaysPlaced(sheet: seq<Channel>, v: string)
    ensures v in GramOverlays(sheet) <==> (exists i :: 0 <= i < |sheet| && sheet[i].id == v) && GramPlacement(v).Some?
  {
    if |sheet| > 0 {
      var n := |sheet| - 1;
      GramOverlaysPlaced(sheet[..n], v);
      if exists i :: 0 <= i < |sheet| && sheet[i].id == v {
        var i :| 0 <= i < |sheet| && sheet[i].id == v;
        if i < n {
          assert sheet[..n][i].id == v;
        }
      }
      if exists i :: 0 <= i < n && sheet[..n][i].id == v {
        var i :| 0 <= i < n && sheet[..n][i].id == v;
        assert sheet[i].id == v;
      }
    }
  }

  /**
   * The set-up before the display loop: an overlay for every data-sheet
   * channel the map places, and empty baselines and smoothed state.
   */
  method GramSetup(sheet: seq<Channel>) returns (t: Transformer)
    requires SheetConsistent(sheet)
    ensures fresh(t) && t.Valid()
    ensures t.policy == GramPolicy && t.sheet == sheet && t.overlays == GramOverlays(sheet)
    ensures t.baselines == map[] && t.smoothed == map[]
  {
    var overlays: set<string> := {};
    for k := 0 to |sheet|
      invariant overlays == GramOverlays(sheet[..k])
    {
      assert sheet[..k + 1][..k] == sheet[..k];
      if GramPlacement(sheet[k].id).Some? {
        overlays := overlays + {sheet[k].id};
      }
    }
    assert sheet[..|sheet|] == sheet;
    t := new Transformer(GramPolicy, sheet, overlays);
  }

  // ---------------------------------------------------------------------------
  // Orientation for display

  /**
   * `orient_sensor`: finger and thumb readings upside down, the palm sensor
   * itself a quarter turn counter-clockwise, anything else as it is. The
   * reorientation only moves values around.
   */
  function GramOrient(v: string, m: Matrix): (r: Matrix)
    requires Rectangular(m)
    ensures multiset(Flatten(r)) == multiset(Flatten(m))
    ensures v == "palm_touch" ==> Shaped(r, |m[0]|, |m|)
    ensures v != "palm_touch" ==> Shaped(r, |m|, |m[0]|)
  {
    PalmSensorNamesNoFinger();
    if Contains(v, "finger") && !Contains(v, "fingerfive") then
      FlipRowsValues(m);
      FlipRows(m)
    else if Contains(v, "fingerfive") then
      FlipRowsValues(m);
      FlipRows(m)
    else if v == "palm_touch" then
      RotateCcwValues(m, |m[0]|);
      RotateCcw(m, |m[0]|)
    else m
  }

  /** The finger, thumb and palm readings are the ones the map turns. */
  lemma GramOrientMoves(v: string, m: Matrix)
    requires Rectangular(m)
    ensures Contains(v, "finger") ==> GramOrient(v, m) == FlipRows(m)
    ensures v == "palm_touch" ==> GramOrient(v, m) == RotateCcw(m, |m[0]|)
    ensures !Contains(v, "finger") && v != "palm_touch" ==> GramOrient(v, m) == m
  {
    if Contains(v, "fingerfive") {
      ContainsPrefix(v, "fingerfive", "finger");
    }
    PalmSensorNamesNoFinger();
    assert !Contains("palm_touch", "finger");
  }

  /** The displayed image: oriented, and upsampled for the thumb's middle segment. */
  function GramDisplay(v: string, m: Matrix, upsample: Matrix -> Matrix): (r: Matrix)
    requires Rectangular(m)
    ensures !(Contains(v, "fingerfive") && HasMid(v)) ==> multiset(Flatten(r)) == multiset(Flatten(m))
    ensures !(Contains(v, "fingerfive") && HasMid(v)) && v != "palm_touch" ==> Shaped(r, |m|, |m[0]|)
    ensures Contains(v, "fingerfive") && HasMid(v) ==> r == upsample(GramOrient(v, m))
  {
    var d := GramOrient(v, m);
    if Contains(v, "fingerfive") && HasMid(v) then upsample(d) else d
  }

  /** The displayed image of every processed channel, in order. */
  function Shown(entries: seq<(string, Matrix)>, upsample: Matrix -> Matrix): seq<(string, Matrix)>
    requires forall e :: e in entries ==> Rectangular(e.1)
  {
    if |entries| == 0 then []
    else
      var last := entries[|entries| - 1];
      Shown(entries[..|entries| - 1], upsample) + [(last.0, GramDisplay(last.0, last.1, upsample))]
  }

  lemma ShownStep(init: seq<(string, Matrix)>, e: (string, Matrix), upsample: Matrix -> Matrix)
    requires forall x :: x in init ==> Rectangular(x.1)
    requires Rectangular(e.1)
    ensures Shown(init + [e], upsample) == Shown(init, upsample) + [(e.0, GramDisplay(e.0, e.1, upsample))]
  {
    var all := init + [e];
    assert all[..|all| - 1] == init;
  }

  // ---------------------------------------------------------------------------
  // Region loads

  /** Python's `max(a, b)`. */
  function Larger(a: real, b: real): real {
    if b > a then b else a
  }

  /** `d.get(k, 0.0)`. */
  function Get(d: map<string, real>, k: string): real {
    if k in d then d[k] else 0.0
  }

  /** The two per-region dictionaries, with their labels in insertion order. */
  datatype Loads = Loads(labels: seq<string>, total: map<string, real>, peak: map<string, real>)

  /** One processed channel's contribution to its region. */
  function AddLoad(l: Loads, region: string, m: Matrix): (r: Loads)
    requires |Flatten(m)| > 0
    ensures l.labels <= r.labels
    ensures region in r.labels[|l.labels|..] <==> region !in l.total
    ensures r.total.Keys == l.total.Keys + {region} && r.peak.Keys == l.peak.Keys + {region}
    ensures r.total[region] == Get(l.total, region) + Total(m)
    ensures r.peak[region] >= Get(l.peak, region) && r.peak[region] >= Peak(m)
    ensures r.peak[region] == Get(l.peak, region) || r.peak[region] == Peak(m)
    ensures forall k :: k in l.total && k != region ==> r.total[k] == l.total[k]
    ensures forall k :: k in l.peak && k != region ==> r.peak[k] == l.peak[k]
  {
    Loads(
      if region in l.total then l.labels else l.labels + [region],
      l.total[region := Get(l.total, region) + Total(m)],
      l.peak[region := Larger(Get(l.peak, region), Peak(m))])
  }

  /** Each processed channel's value under its region label. */
  function Labelled(entries: seq<(string, Matrix)>): (r: seq<(string, Matrix)>)
    ensures |r| == |entries|
    ensures forall i :: 0 <= i < |entries| ==> r[i] == (PrettyRegionName(entries[i].0), entries[i].1)
    ensures forall e :: e in r ==> exists x :: x in entries && e == (PrettyRegionName(x.0), x.1)
  {
    seq(|entries|, i requires 0 <= i < |entries| => (PrettyRegionName(entries[i].0), entries[i].1))
  }

  lemma LabelledStep(init: seq<(string, Matrix)>, e: (string, Matrix))
    ensures Labelled(init + [e]) == Labelled(init) + [(PrettyRegionName(e.0), e.1)]
  {
  }

  lemma LabelledLoaded(entries: seq<(string, Matrix)>)
    requires forall e :: e in entries ==> |Flatten(e.1)| > 0
    ensures forall e :: e in Labelled(entries) ==> |Flatten(e.1)| > 0
  {
  }

  /** The loads after the given (label, value) pairs, in order. */
  function Tally(entries: seq<(string, Matrix)>): Loads
    requires forall e :: e in entries ==> |Flatten(e.1)| > 0
  {
    if |entries| == 0 then Loads([], map[], map[])
    else
      var last := entries[|entries| - 1];
      AddLoad(Tally(entries[..|entries| - 1]), last.0, last.1)
  }

  /** The sums of the entries labelled `region`, in order. */
  function LabelTotals(entries: seq<(string, Matrix)>, region: string): seq<real> {
    if |entries| == 0 then []
    else if entries[0].0 == region then [Total(entries[0].1)] + LabelTotals(entries[1..], region)
    else LabelTotals(entries[1..], region)
  }

  function LabelsOf(entries: seq<(string, Matrix)>): set<string> {
    set e | e in entries :: e.0
  }

  lemma {:induction false} SumAppend(s: seq<real>, x: real)
    ensures Sum(s + [x]) == Sum(s) + x
  {
    if |s| > 0 {
      assert (s + [x])[1..] == s[1..] + [x];
      SumAppend(s[1..], x);
    }
  }

  lemma {:induction false} LabelTotalsAppend(entries: seq<(string, Matrix)>, e: (string, Matrix), region: string)
    ensures LabelTotals(entries + [e], region) ==
      LabelTotals(entries, region) + (if e.0 == region then [Total(e.1)] else [])
  {
    if |entries| > 0 {
      assert (entries + [e])[1..] == entries[1..] + [e];
      LabelTotalsAppend(entries[1..], e, region);
    }
  }

  /**
   * The region table's dictionaries have one key per label that occurs, and
   * their labels are listed once each, in the order they first occurred.
   */
  lemma {:induction false} TallyKeys(entries: seq<(string, Matrix)>)
    requires forall e :: e in entries ==> |Flatten(e.1)| > 0
    ensures var l := Tally(entries);
      && l.total.Keys == l.peak.Keys == Elems(l.labels) == LabelsOf(entries)
      && NoDuplicates(l.labels)
  {
    if |entries| > 0 {
      var n := |entries| - 1;
      var init := entries[..n];
      var last := entries[n];
      var name := last.0;
      assert entries == init + [last];
      TallyKeys(init);
      assert LabelsOf(entries) == LabelsOf(init) + {name} by {
        forall x | x in LabelsOf(entries) ensures x in LabelsOf(init) + {name} {
          var e :| e in entries && e.0 == x;
          if e != last {
            assert e in init;
          }
        }
      }
    }
  }

  /** Adding a processed channel adds its load to the loads so far. */
  lemma TallyStep(init: seq<(string, Matrix)>, e: (string, Matrix))
    requires forall x :: x in init ==> |Flatten(x.1)| > 0
    requires |Flatten(e.1)| > 0
    ensures Tally(init + [e]) == AddLoad(Tally(init), e.0, e.1)
  {
    var all := init + [e];
    assert all[..|all| - 1] == init;
  }

  /**
   * Each label's total (0.0 for a label that does not occur, as `get` gives)
   * is the sum of `np.sum` over the channels carrying it.
   */
  lemma {:induction false} TallyTotals(entries: seq<(string, Matrix)>)
    requires forall e :: e in entries ==> |Flatten(e.1)| > 0
    ensures forall region :: Get(Tally(entries).total, region) == Sum(LabelTotals(entries, region))
  {
    if |entries| > 0 {
      var n := |entries| - 1;
      var init := entries[..n];
      var last := entries[n];
      assert entries == init + [last];
      TallyTotals(init);
      TallyStep(init, last);
      forall region
        ensures Get(Tally(entries).total, region) == Sum(LabelTotals(entries, region))
      {
        var before := Tally(init).total;
        LabelTotalsAppend(init, last, region);
        if region == last.0 {
          SumAppend(LabelTotals(init, region), Total(last.1));
          assert Get(Tally(entries).total, region) == Get(before, region) + Total(last.1);
        } else {
          assert LabelTotals(entries, region) == LabelTotals(init, region);
          assert Get(Tally(entries).total, region) == Get(before, region);
        }
      }
    }
  }

  /**
   * Each region's max starts at 0.0 and grows with the channels carrying it:
   * never negative, at least every such channel's peak, and either 0.0 or
   * one of those peaks.
   */
  lemma {:induction false} TallyPeaks(entries: seq<(string, Matrix)>)
    requires forall e :: e in entries ==> |Flatten(e.1)| > 0
    ensures var l := Tally(entries);
      && (forall region :: region in l.peak ==> l.peak[region] >= 0.0)
      && (forall e :: e in entries ==> e.0 in l.peak && l.peak[e.0] >= Peak(e.1))
      && (forall region :: region in l.peak ==>
            l.peak[region] == 0.0 || exists e :: e in entries && e.0 == region && Peak(e.1) == l.peak[region])
  {
    if |entries| > 0 {
      var n := |entries| - 1;
      var init := entries[..n];
      var last := entries[n];
      assert entries == init + [last];
      TallyPeaks(init);
      var l := Tally(entries);
      forall e | e in entries
        ensures e.0 in l.peak && l.peak[e.0] >= Peak(e.1)
      {
        if e != last {
          assert e in init;
        }
      }
      forall region | region in l.peak
        ensures l.peak[region] == 0.0 || exists e :: e in entries && e.0 == region && Peak(e.1) == l.peak[region]
      {
        var li := Tally(init);
        if l.peak[region] != 0.0 {
          if region == last.0 && l.peak[region] == Peak(last.1) {
            assert last in entries;
          } else {
            assert region in li.peak && l.peak[region] == li.peak[region];
            var e :| e in init && e.0 == region && Peak(e.1) == l.peak[region];
            assert e in entries;
          }
        }
      }
    }
  }

  /** With non-negative readings, every region's total is non-negative. */
  lemma TallyTotalsNonNegative(entries: seq<(string, Matrix)>)
    requires forall e :: e in entries ==> |Flatten(e.1)| > 0 && AllEntries(e.1, 0.0, None)
    ensures forall region :: region in Tally(entries).total ==> Tally(entries).total[region] >= 0.0
  {
    TallyTotals(entries);
    forall region | region in Tally(entries).total
      ensures Sum(LabelTotals(entries, region)) >= 0.0
    {
      assert Get(Tally(entries).total, region) == Tally(entries).total[region];
      LabelTotalsNonNegative(entries, region);
      SumNonNegative(LabelTotals(entries, region));
    }
  }

  lemma {:induction false} LabelTotalsNonNegative(entries: seq<(string, Matrix)>, region: string)
    requires forall e :: e in entries ==> AllEntries(e.1, 0.0, None)
    ensures forall k :: 0 <= k < |LabelTotals(entries, region)| ==> LabelTotals(entries, region)[k] >= 0.0
  {
    if |entries| > 0 {
      assert entries[0] in entries;
      assert forall e :: e in entries[1..] ==> e in entries;
      LabelTotalsNonNegative(entries[1..], region);
      FlattenWithin(entries[0].1, 0.0, None);
      SumNonNegative(Flatten(entries[0].1));
    }
  }

  // ---------------------------------------------------------------------------
  // Table order

  /** `[x for x in pref if x in present]`. */
  function KeepPresent(pref: seq<string>, present: seq<string>): (r: seq<string>)
    ensures forall x :: x in r <==> x in pref && x in present
  {
    if |pref| == 0 then []
    else (if pref[0] in present then [pref[0]] else []) + KeepPresent(pref[1..], present)
  }

  /** The entries of `present` that `pref` does not list, in order. */
  function NotIn(present: seq<string>, pref: seq<string>): (r: seq<string>)
    ensures forall x :: x in r <==> x in present && x !in pref
  {
    if |present| == 0 then []
    else
      var last := present[|present| - 1];
      NotIn(present[..|present| - 1], pref) + (if last in pref then [] else [last])
  }

  /** The table's order: the preferred labels that occur, then the others in first-seen order. */
  function OrderedLabels(present: seq<string>): (order: seq<string>)
    ensures forall x :: x in order <==> x in present
  {
    KeepPresent(Preferred, present) + NotIn(present, Preferred)
  }

  /**
   * Builds the region order as the script does, appending every present
   * region the preferred list did not already place.
   */
  method LabelOrder(present: seq<string>) returns (order: seq<string>)
    requires NoDuplicates(present)
    ensures order == OrderedLabels(present)
  {
    order := KeepPresent(Preferred, present);
    for k := 0 to |present|
      invariant order == KeepPresent(Preferred, present) + NotIn(present[..k], Preferred)
    {
      var x := present[k];
      assert present[..k + 1][..k] == present[..k];
      assert x !in present[..k] by {
        assert forall j :: 0 <= j < k ==> present[..k][j] != x;
      }
      if x !in order {
        order := order + [x];
      }
    }
    assert present[..|present|] == present;
  }

  lemma {:induction false} KeepPresentDistinct(pref: seq<string>, present: seq<string>)
    requires NoDuplicates(pref)
    ensures NoDuplicates(KeepPresent(pref, present))
  {
    if |pref| > 0 {
      KeepPresentDistinct(pref[1..], present);
      assert pref[0] !in pref[1..] by {
        assert forall j :: 0 <= j < |pref| - 1 ==> pref[1..][j] == pref[j + 1] != pref[0];
      }
    }
  }

  lemma {:induction false} NotInDistinct(present: seq<string>, pref: seq<string>)
    requires NoDuplicates(present)
    ensures NoDuplicates(NotIn(present, pref))
  {
    if |present| > 0 {
      var n := |present| - 1;
      NotInDistinct(present[..n], pref);
      assert present[n] !in present[..n] by {
        assert forall j :: 0 <= j < n ==> present[..n][j] != present[n];
      }
    }
  }

  /** A sequence without repeats has as many elements as distinct values. */
  lemma {:induction false} DistinctCount(s: seq<string>)
    requires NoDuplicates(s)
    ensures |Elems(s)| == |s|
  {
    if |s| > 0 {
      var n := |s| - 1;
      DistinctCount(s[..n]);
      assert Elems(s) == Elems(s[..n]) + {s[n]} by {
        assert s == s[..n] + [s[n]];
      }
      assert s[n] !in Elems(s[..n]) by {
        assert forall j :: 0 <= j < n ==> s[..n][j] != s[n];
      }
    }
  }

  /**
   * The table lists every present region exactly once: the order is a
   * rearrangement of the labels present.
   */
  lemma OrderedLabelsPermutation(present: seq<string>)
    requires NoDuplicates(present)
    ensures var order := OrderedLabels(present);
      NoDuplicates(order) && Elems(order) == Elems(present) && |order| == |present|
  {
    var keep := KeepPresent(Preferred, present);
    var rest := NotIn(present, Preferred);
    var order := keep + rest;
    PreferredDistinct();
    KeepPresentDistinct(Preferred, present);
    NotInDistinct(present, Preferred);
    forall i, j | 0 <= i < j < |order| ensures order[i] != order[j] {
      if i < |keep| && |keep| <= j {
        assert order[i] == keep[i] && order[j] == rest[j - |keep|];
        assert keep[i] in Preferred && rest[j - |keep|] !in Preferred;
      }
    }
    assert Elems(order) == Elems(present);
    DistinctCount(order);
    DistinctCount(present);
  }

  /** Palm, whenever it is present, heads the table. */
  lemma PalmHeadsTable(present: seq<string>)
    requires "Palm" in present
    ensures |OrderedLabels(present)| > 0 && OrderedLabels(present)[0] == "Palm"
  {
    assert Preferred[0] == "Palm";
  }

  /** When every present region is a preferred one, the append loop adds nothing. */
  lemma OnlyPreferredLabels(present: seq<string>)
    requires forall x :: x in present ==> x in Preferred
    ensures OrderedLabels(present) == KeepPresent(Preferred, present)
  {
    NothingLeftOver(present, Preferred);
  }

  lemma {:induction false} NothingLeftOver(present: seq<string>, pref: seq<string>)
    requires forall x :: x in present ==> x in pref
    ensures NotIn(present, pref) == []
  {
    if |present| > 0 {
      var n := |present| - 1;
      assert present[n] in present;
      assert forall x :: x in present[..n] ==> x in present;
      NothingLeftOver(present[..n], pref);
    }
  }

  /** One line of the region table: the region, its summed load and its largest value. */
  datatype TableRow = TableRow(region: string, total: real, peak: real)

  function Row(region: string, total: map<string, real>, peak: map<string, real>): TableRow {
    TableRow(region, Get(total, region), Get(peak, region))
  }

  function Table(order: seq<string>, total: map<string, real>, peak: map<string, real>): seq<TableRow> {
    seq(|order|, i requires 0 <= i < |order| => Row(order[i], total, peak))
  }

  /** The table lines, one per label in the given order. */
  method TableRows(order: seq<string>, total: map<string, real>, peak: map<string, real>) returns (rows: seq<TableRow>)
    ensures rows == Table(order, total, peak)
  {
    rows := [];
    for i := 0 to |order|
      invariant rows == Table(order[..i], total, peak)
    {
      rows := rows + [Row(order[i], total, peak)];
    }
    assert order[..|order|] == order;
  }

  // ---------------------------------------------------------------------------
  // Properties of a gram frame

  /**
   * Every region the gram map shows is a preferred one, because it only
   * processes channels it places; so the table is exactly the preferred
   * labels that occur, in the preferred order.
   */
  lemma GramLabelsPreferred(sheet: seq<Channel>, s: State, frame: Frame)
    requires SheetConsistent(sheet) && Coherent(sheet, s)
    ensures var l := Tally(Labelled(Processed(GramPolicy, GramOverlays(sheet), sheet, s, |sheet|, frame)));
      OrderedLabels(l.labels) == KeepPresent(Preferred, l.labels)
  {
    var entries := Processed(GramPolicy, GramOverlays(sheet), sheet, s, |sheet|, frame);
    var named := Labelled(entries);
    TallyKeys(named);
    forall x | x in Tally(named).labels ensures x in Preferred {
      assert x in Elems(Tally(named).labels);
      var e :| e in named && e.0 == x;
      var y :| y in entries && e == (PrettyRegionName(y.0), y.1);
      assert y.0 in GramOverlays(sheet);
      GramOverlaysPlaced(sheet, y.0);
      PlacedLabelIsPreferred(y.0);
    }
    OnlyPreferredLabels(Tally(named).labels);
  }

  /** Starting from in-range state, every region total the gram map shows is non-negative. */
  lemma GramTotalsNonNegative(sheet: seq<Channel>, s: State, frame: Frame)
    requires SheetConsistent(sheet) && Coherent(sheet, s) && InRange(GramPolicy, s)
    ensures var l := Tally(Labelled(Processed(GramPolicy, GramOverlays(sheet), sheet, s, |sheet|, frame)));
      forall region :: region in l.total ==> l.total[region] >= 0.0
  {
    var entries := Processed(GramPolicy, GramOverlays(sheet), sheet, s, |sheet|, frame);
    ProcessedInRange(GramPolicy, GramOverlays(sheet), sheet, s, |sheet|, frame);
    TallyTotalsNonNegative(Labelled(entries));
  }

  // ---------------------------------------------------------------------------
  // One frame of the gram map

  /** `region_sums[label] = region_sums.get(label, 0.0) + np.sum(current)` and the matching maximum. */
  method AddChannelLoad(labels: seq<string>, total: map<string, real>, peak: map<string, real>, region: string, m: Matrix)
    returns (labels': seq<string>, total': map<string, real>, peak': map<string, real>)
    requires |Flatten(m)| > 0
    ensures Loads(labels', total', peak') == AddLoad(Loads(labels, total, peak), region, m)
  {
    labels' := labels;
    if region !in total {
      labels' := labels + [region];
    }
    total' := total[region := Get(total, region) + Total(m)];
    peak' := peak[region := Larger(Get(peak, region), Peak(m))];
  }

  /**
   * The tallies of the per-channel loop over the processed channels: each
   * region label's sum and maximum, its first appearance, and the displayed
   * value of every channel.
   */
  method GramLoads(entries: seq<(string, Matrix)>, upsample: Matrix -> Matrix)
    returns (labels: seq<string>, total: map<string, real>, peak: map<string, real>, shown: seq<(string, Matrix)>)
    requires forall e :: e in entries ==> |Flatten(e.1)| > 0 && Rectangular(e.1)
    ensures Loads(labels, total, peak) == Tally(Labelled(entries))
    ensures shown == Shown(entries, upsample)
  {
    labels, total, peak := [], map[], map[];
    shown := [];
    for k := 0 to |entries|
      invariant forall x :: x in Labelled(entries[..k]) ==> |Flatten(x.1)| > 0
      invariant Loads(labels, total, peak) == Tally(Labelled(entries[..k]))
      invariant shown == Shown(entries[..k], upsample)
    {
      var e := entries[k];
      GramLoadsStep(entries, k, upsample);
      labels, total, peak := AddChannelLoad(labels, total, peak, PrettyRegionName(e.0), e.1);
      shown := shown + [(e.0, GramDisplay(e.0, e.1, upsample))];
    }
    assert entries[..|entries|] == entries;
  }

  /** One more channel of the loop in `GramLoads`: one tally step and one more displayed image. */
  lemma GramLoadsStep(entries: seq<(string, Matrix)>, k: nat, upsample: Matrix -> Matrix)
    requires forall e :: e in entries ==> |Flatten(e.1)| > 0 && Rectangular(e.1)
    requires k < |entries|
    ensures forall x :: x in Labelled(entries[..k]) ==> |Flatten(x.1)| > 0
    ensures forall x :: x in Labelled(entries[..k + 1]) ==> |Flatten(x.1)| > 0
    ensures Tally(Labelled(entries[..k + 1])) ==
      AddLoad(Tally(Labelled(entries[..k])), PrettyRegionName(entries[k].0), entries[k].1)
    ensures Shown(entries[..k + 1], upsample) ==
      Shown(entries[..k], upsample) + [(entries[k].0, GramDisplay(entries[k].0, entries[k].1, upsample))]
  {
    var e := entries[k];
    assert entries[..k + 1] == entries[..k] + [e];
    LabelledStep(entries[..k], e);
    LabelledLoaded(entries[..k]);
    LabelledLoaded(entries[..k + 1]);
    TallyStep(Labelled(entries[..k]), (PrettyRegionName(e.0), e.1));
    ShownStep(entries[..k], e, upsample);
  }

  /** One frame of the gram map: every channel updated in sheet order, then the region table in table order. */
  method GramFrame(t: Transformer, frame: Frame, upsample: Matrix -> Matrix) returns (rows: seq<TableRow>, shown: seq<(string, Matrix)>)
    requires t.Valid() && t.policy == GramPolicy
    modifies t
    ensures t.Valid()
    ensures t.Snapshot() == FrameUpdate(GramPolicy, t.overlays, t.sheet, old(t.Snapshot()), |t.sheet|, frame)
    ensures var entries := Processed(GramPolicy, t.overlays, t.sheet, old(t.Snapshot()), |t.sheet|, frame);
      var l := Tally(Labelled(entries));
      rows == Table(OrderedLabels(l.labels), l.total, l.peak) && shown == Shown(entries, upsample)
  {
    var entries := t.ProcessFrame(frame);
    var labels, total, peak;
    labels, total, peak, shown := GramLoads(entries, upsample);
    TallyKeys(Labelled(entries));
    var order := LabelOrder(labels);
    rows := TableRows(order, total, peak);
  }
}
