/**
 * The sensor-map logger: each frame runs the shared per-channel transform
 * with raw counts clipped to [0, 4095] and no smoothing, orients each
 * processed channel for the hand picture, and appends its row-major values
 * to that channel's CSV file, whose first row records the declared shape.
 * Every forty display iterations the stored values are dumped.
 */
module SensorLogging {

  import opened Wrappers
  import opened Text
  import opened Matrices
  import opened FrameTransform
  import opened GramRegions
  import opened GramMap

  /** `max_raw_data`: the top of the clip range and of the colour scale. */
  const MaxRawData: real := 4095.0

  /** Clip to [0, 4095], no scaling, state seeded with the raw reading, no smoothing. */
  const LoggingPolicy: Policy := Policy(Some(MaxRawData), 1.0, SeedRaw, NoSmoothing)

  /**
   * The display set-up: every data-sheet channel gets a region entry and so
   * an overlay; baselines and stored values start empty.
   */
  method LoggingSetup(sheet: seq<Channel>) returns (t: Transformer)
    requires SheetConsistent(sheet)
    ensures fresh(t) && t.Valid()
    ensures t.policy == LoggingPolicy && t.sheet == sheet && t.overlays == SheetIds(sheet)
    ensures t.baselines == map[] && t.smoothed == map[]
  {
    t := new Transformer(LoggingPolicy, sheet, SheetIds(sheet));
  }

  // ---------------------------------------------------------------------------
  // Orientation

  /** Every thumb id is also a finger id, as the substring test sees it. */
  lemma ThumbIsFinger(v: string)
    ensures Contains(v, "fingerfive") ==> Contains(v, "finger")
  {
    if Contains(v, "fingerfive") {
      ContainsPrefix(v, "fingerfive", "finger");
    }
  }

  /**
   * `orient_sensor` of the logger: finger and thumb readings upside down, any
   * id containing "palm_touch" (and no "finger") a quarter turn
   * counter-clockwise, anything else as it is.
   */
  function LoggingOrient(v: string, m: Matrix): (r: Matrix)
    requires Rectangular(m)
    ensures multiset(Flatten(r)) == multiset(Flatten(m))
    ensures Contains(v, "finger") ==> r == FlipRows(m)
    ensures !Contains(v, "finger") && Contains(v, "palm_touch") ==> r == RotateCcw(m, |m[0]|)
    ensures !Contains(v, "finger") && !Contains(v, "palm_touch") ==> r == m
  {
    ThumbIsFinger(v);
    if Contains(v, "finger") && !Contains(v, "fingerfive") then
      FlipRowsValues(m);
      FlipRows(m)
    else if Contains(v, "fingerfive") then
      FlipRowsValues(m);
      FlipRows(m)
    else if Contains(v, "palm_touch") then
      RotateCcwValues(m, |m[0]|);
      RotateCcw(m, |m[0]|)
    else m
  }

  /**
   * The logger and the gram map orient every channel alike except an id that
   * contains "palm_touch" without being it: the logger turns it, the gram
   * map leaves it as it is.
   */
  lemma OrientationsAgree(v: string, m: Matrix)
    requires Rectangular(m)
    ensures Contains(v, "finger") || !Contains(v, "palm_touch") || v == "palm_touch" ==>
      LoggingOrient(v, m) == GramOrient(v, m)
    ensures !Contains(v, "finger") && Contains(v, "palm_touch") && v != "palm_touch" ==>
      LoggingOrient(v, m) == RotateCcw(m, |m[0]|) && GramOrient(v, m) == m
  {
    GramOrientMoves(v, m);
    if v == "palm_touch" {
      PalmSensorNamesNoFinger();
      assert Contains(v, "palm_touch") by {
        assert OccursAt(v, "palm_touch", 0);
        ContainsIsOccurrence(v, "palm_touch");
      }
    }
  }

  /** The displayed image: oriented, and upsampled for the thumb's middle segment. */
  function LoggingDisplay(v: string, m: Matrix, upsample: Matrix -> Matrix): (r: Matrix)
    requires Rectangular(m)
    ensures !(Contains(v, "fingerfive") && HasMid(v)) ==> multiset(Flatten(r)) == multiset(Flatten(m))
    ensures Contains(v, "fingerfive") && HasMid(v) ==> r == upsample(LoggingOrient(v, m))
  {
    var d := LoggingOrient(v, m);
    if Contains(v, "fingerfive") && HasMid(v) then upsample(d) else d
  }

  // ---------------------------------------------------------------------------
  // CSV rows

  /** A CSV cell: the word "shape", a dimension, or a logged value. */
  datatype Cell = Word(text: string) | Whole(n: int) | Number(x: real)

  type Row = seq<Cell>

  /** `["shape"] + list(size)`: the metadata row written before any data. */
  function ShapeRow(ch: Channel): (row: Row)
    ensures ReadShape(row) == Some((ch.rows, ch.cols))
  {
    [Word("shape"), Whole(ch.rows), Whole(ch.cols)]
  }

  /** `display_data.flatten().tolist()`: the displayed image in row-major order. */
  function LogValues(v: string, m: Matrix, upsample: Matrix -> Matrix): (values: seq<real>)
    requires Rectangular(m)
    ensures !(Contains(v, "fingerfive") && HasMid(v)) ==>
      multiset(values) == multiset(Flatten(m)) && |values| == |Flatten(m)|
  {
    var values := Flatten(LoggingDisplay(v, m, upsample));
    assert !(Contains(v, "fingerfive") && HasMid(v)) ==>
      |values| == |multiset(values)| == |multiset(Flatten(m))| == |Flatten(m)|;
    values
  }

  /** One logged value per cell; such a row never reads as a shape row. */
  function DataRow(values: seq<real>): (row: Row)
    ensures |row| == |values| && forall k :: 0 <= k < |row| ==> row[k].Number?
    ensures ReadShape(row).None?
  {
    seq(|values|, i requires 0 <= i < |values| => Number(values[i]))
  }

  /** Reading a shape row back: the declared dimensions, or None for any other row. */
  function ReadShape(row: Row): Option<(nat, nat)> {
    if |row| == 3 && row[0] == Word("shape") && row[1].Whole? && row[2].Whole? && row[1].n >= 0 && row[2].n >= 0
    then Some((row[1].n as nat, row[2].n as nat))
    else None
  }

  /** Reading a data row back: its values, or None when a cell is not a number. */
  function ReadValues(row: Row): Option<seq<real>> {
    if |row| == 0 then Some([])
    else if !row[0].Number? then None
    else match ReadValues(row[1..])
      case None => None
      case Some(rest) => Some([row[0].x] + rest)
  }

  /** The shape row reads back as the declared shape, and no data row is taken for it. */
  lemma ShapeRowReadBack(ch: Channel, values: seq<real>)
    ensures ReadShape(ShapeRow(ch)) == Some((ch.rows, ch.cols))
    ensures ReadShape(DataRow(values)) == None
  {
    if |values| == 3 {
      assert DataRow(values)[0] == Number(values[0]);
    }
  }

  /** A data row reads back as the values written. */
  lemma {:induction false} DataRowReadBack(values: seq<real>)
    ensures ReadValues(DataRow(values)) == Some(values)
  {
    if |values| > 0 {
      DataRowReadBack(values[1..]);
      assert DataRow(values)[1..] == DataRow(values[1..]);
      assert values == [values[0]] + values[1..];
    }
  }

  /**
   * For a channel that is not upsampled, the data row holds exactly the
   * stored values, rearranged, and as many as the shape row declares.
   */
  lemma LoggedRowMatchesShape(ch: Channel, m: Matrix, upsample: Matrix -> Matrix)
    requires Shaped(m, ch.rows, ch.cols) && ch.rows > 0
    requires !(Contains(ch.id, "fingerfive") && HasMid(ch.id))
    ensures var values := LogValues(ch.id, m, upsample);
      && ReadShape(ShapeRow(ch)) == Some((ch.rows, ch.cols))
      && ReadValues(DataRow(values)) == Some(values)
      && |values| == ch.rows * ch.cols
      && multiset(values) == multiset(Flatten(m))
  {
    var values := LogValues(ch.id, m, upsample);
    ShapeRowReadBack(ch, values);
    DataRowReadBack(values);
    FlattenLength(m, ch.rows, ch.cols);
  }

  /** Every logged value of a channel that is not upsampled lies in [0, 4095] when its stored value does. */
  lemma LoggedRowInRange(v: string, m: Matrix, upsample: Matrix -> Matrix)
    requires Rectangular(m) && AllEntries(m, 0.0, Some(MaxRawData))
    requires !(Contains(v, "fingerfive") && HasMid(v))
    ensures var values := LogValues(v, m, upsample);
      forall k :: 0 <= k < |values| ==> 0.0 <= values[k] <= MaxRawData
  {
    var values := LogValues(v, m, upsample);
    FlattenWithin(m, 0.0, Some(MaxRawData));
    forall k | 0 <= k < |values|
      ensures 0.0 <= values[k] <= MaxRawData
    {
      assert values[k] in multiset(Flatten(m));
    }
  }

  // ---------------------------------------------------------------------------
  // The CSV files

  /** The rows written so far, per channel id. */
  type Logs = map<string, seq<Row>>

  /** `setup_csv_logging`: one file per region entry, holding only its shape row. */
  method SetupLogs(sheet: seq<Channel>) returns (logs: Logs)
    requires SheetConsistent(sheet)
    ensures logs.Keys == SheetIds(sheet)
    ensures forall c :: c in sheet ==> logs[c.id] == [ShapeRow(c)]
  {
    logs := map[];
    for k := 0 to |sheet|
      invariant logs.Keys == SheetIds(sheet[..k])
      invariant forall i :: 0 <= i < k ==> logs[sheet[i].id] == [ShapeRow(sheet[i])]
    {
      var c := sheet[k];
      var row := ShapeRow(c);
      ghost var prev := logs;
      logs := logs[c.id := [row]];
      forall i | 0 <= i < k
        ensures logs[sheet[i].id] == [ShapeRow(sheet[i])]
      {
        if sheet[i].id == c.id {
          assert sheet[i] == c;
        } else {
          assert logs[sheet[i].id] == prev[sheet[i].id];
        }
      }
      assert sheet[..k + 1] == sheet[..k] + [c];
    }
    assert sheet[..|sheet|] == sheet;
  }

  /** The files after appending one data row per processed channel, in order. */
  function Appended(logs: Logs, entries: seq<(string, Matrix)>, upsample: Matrix -> Matrix): (r: Logs)
    requires forall e :: e in entries ==> e.0 in logs && Rectangular(e.1)
    ensures r.Keys == logs.Keys
  {
    if |entries| == 0 then logs
    else
      var e := entries[|entries| - 1];
      var before := Appended(logs, entries[..|entries| - 1], upsample);
      before[e.0 := before[e.0] + [DataRow(LogValues(e.0, e.1, upsample))]]
  }

  lemma AppendedStep(logs: Logs, init: seq<(string, Matrix)>, e: (string, Matrix), upsample: Matrix -> Matrix)
    requires forall x :: x in init ==> x.0 in logs && Rectangular(x.1)
    requires e.0 in logs && Rectangular(e.1)
    ensures var before := Appended(logs, init, upsample);
      e.0 in before &&
      Appended(logs, init + [e], upsample) == before[e.0 := before[e.0] + [DataRow(LogValues(e.0, e.1, upsample))]]
  {
    var all := init + [e];
    assert all[..|all| - 1] == init;
  }

  /** Logging only appends: each file keeps its earlier rows as a prefix. */
  lemma {:induction false} AppendedGrows(logs: Logs, entries: seq<(string, Matrix)>, upsample: Matrix -> Matrix, v: string)
    requires forall e :: e in entries ==> e.0 in logs && Rectangular(e.1)
    requires v in logs
    ensures var r := Appended(logs, entries, upsample);
      |logs[v]| <= |r[v]| && r[v][..|logs[v]|] == logs[v]
  {
    if |entries| > 0 {
      var init := entries[..|entries| - 1];
      assert forall x :: x in init ==> x in entries;
      AppendedGrows(logs, init, upsample, v);
      var before := Appended(logs, init, upsample);
      var e := entries[|entries| - 1];
      if v == e.0 {
        var grown := before[v] + [DataRow(LogValues(e.0, e.1, upsample))];
        assert grown[..|logs[v]|] == before[v][..|logs[v]|];
      }
    }
  }

  /** A file that held only its shape row still starts with it after any number of frames. */
  lemma ShapeRowStaysFirst(logs: Logs, entries: seq<(string, Matrix)>, upsample: Matrix -> Matrix, ch: Channel)
    requires forall e :: e in entries ==> e.0 in logs && Rectangular(e.1)
    requires ch.id in logs && logs[ch.id] == [ShapeRow(ch)]
    ensures var r := Appended(logs, entries, upsample);
      |r[ch.id]| >= 1 && r[ch.id][0] == ShapeRow(ch) && ReadShape(r[ch.id][0]) == Some((ch.rows, ch.cols))
  {
    AppendedGrows(logs, entries, upsample, ch.id);
    var r := Appended(logs, entries, upsample);
    assert r[ch.id][..1] == [ShapeRow(ch)];
    ShapeRowReadBack(ch, []);
  }

  /** The `writerow` calls of one frame: a data row for every processed channel, in order. */
  method AppendRows(logs: Logs, entries: seq<(string, Matrix)>, upsample: Matrix -> Matrix) returns (logs': Logs)
    requires forall e :: e in entries ==> e.0 in logs && Rectangular(e.1)
    ensures logs' == Appended(logs, entries, upsample)
  {
    logs' := logs;
    for k := 0 to |entries|
      invariant logs' == Appended(logs, entries[..k], upsample)
    {
      var e := entries[k];
      assert entries[..k + 1] == entries[..k] + [e];
      AppendedStep(logs, entries[..k], e, upsample);
      logs' := logs'[e.0 := logs'[e.0] + [DataRow(LogValues(e.0, e.1, upsample))]];
    }
    assert entries[..|entries|] == entries;
  }

  /**
   * One display iteration: the shared transform over the data sheet, then a
   * data row for every processed channel, in sheet order.
   */
  method LogFrame(t: Transformer, frame: Frame, upsample: Matrix -> Matrix, logs: Logs) returns (logs': Logs)
    requires t.Valid() && t.policy == LoggingPolicy && t.overlays <= logs.Keys
    modifies t
    ensures t.Valid()
    ensures t.Snapshot() == FrameUpdate(LoggingPolicy, t.overlays, t.sheet, old(t.Snapshot()), |t.sheet|, frame)
    ensures var entries := Processed(LoggingPolicy, t.overlays, t.sheet, old(t.Snapshot()), |t.sheet|, frame);
      logs' == Appended(logs, entries, upsample)
  {
    var entries := t.ProcessFrame(frame);
    logs' := AppendRows(logs, entries, upsample);
  }

  // ---------------------------------------------------------------------------
  // The stored values

  /**
   * A processed channel's stored value is its clipped difference from the
   * baseline, whatever was stored before: the first usable reading is the
   * baseline and later frames keep it.
   */
  lemma LoggingStoredValue(sheet: seq<Channel>, overlays: set<string>, s: State, ch: Channel, frame: Frame)
    requires SheetConsistent(sheet) && ch in sheet && Coherent(sheet, s)
    requires Processes(overlays, frame, ch)
    ensures var raw := Reading(frame, ch);
      var base := if ch.id in s.baselines then s.baselines[ch.id] else raw;
      var r := Update(LoggingPolicy, overlays, sheet, s, ch, frame);
      && r.baselines[ch.id] == base
      && SameShape(r.smoothed[ch.id], raw)
      && forall i, j :: 0 <= i < |raw| && 0 <= j < |raw[i]| ==>
           r.smoothed[ch.id][i][j] == Clip(raw[i][j] - base[i][j], Some(MaxRawData))
  {
    UpdatedValue(LoggingPolicy, overlays, sheet, s, ch, frame);
  }

  /** Every stored value stays within [0, 4095], frame after frame. */
  lemma LoggingInRange(sheet: seq<Channel>, overlays: set<string>, s: State, frame: Frame)
    requires SheetConsistent(sheet) && Coherent(sheet, s) && InRange(LoggingPolicy, s)
    ensures var r := FrameUpdate(LoggingPolicy, overlays, sheet, s, |sheet|, frame);
      forall v :: v in r.smoothed ==> AllEntries(r.smoothed[v], 0.0, Some(MaxRawData))
  {
    RangeKept(LoggingPolicy, overlays, sheet, s, |sheet|, frame);
  }

  // ---------------------------------------------------------------------------
  // The dump schedule

  /** Whether display iteration i (counting from 0) dumps the stored values. */
  predicate DumpsAt(i: nat) {
    i > 0 && i % 40 == 0
  }

  /** The iterations among the first n that dump, in order. */
  function Dumps(n: nat): seq<nat> {
    if n == 0 then [] else Dumps(n - 1) + (if DumpsAt(n - 1) then [n - 1] else [])
  }

  lemma {:induction false} DumpsMembers(n: nat)
    ensures forall i: nat :: i in Dumps(n) <==> i < n && DumpsAt(i)
  {
    if n > 0 {
      DumpsMembers(n - 1);
    }
  }

  /**
   * `print_counter` over n display iterations: it starts at 0, the dump
   * happens when it equals 40 and resets it to 0, and every iteration adds
   * one. Returns the iterations that dumped.
   */
  method DumpSchedule(n: nat) returns (dumped: seq<nat>)
    ensures dumped == Dumps(n)
    ensures forall i :: i in dumped <==> i < n && i > 0 && i % 40 == 0
  {
    var printCounter := 0;
    dumped := [];
    for i := 0 to n
      invariant printCounter == if i == 0 then 0 else (i - 1) % 40 + 1
      invariant dumped == Dumps(i)
    {
      if printCounter == 40 {
        dumped := dumped + [i];
        printCounter := 0;
      }
      printCounter := printCounter + 1;
    }
    DumpsMembers(n);
  }
}
