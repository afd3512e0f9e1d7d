/**
 * The per-frame transform that every live script runs on each touch frame:
 * skip a channel that is absent, None, empty or not reshapeable to its
 * declared size; take the first valid reading as the channel's baseline;
 * clip `raw - baseline`, scale it, optionally smooth it with an exponential
 * moving average, and store it.
 *
 * The four scripts repeat this loop with small differences, which a `Policy`
 * value records: the clip ceiling, the scale factor, how the smoothed state is
 * first seeded, and when the moving average applies. `Update` is the
 * specification of one channel; `Transformer` is the object that holds the
 * `baselines` and `smoothed` dictionaries and updates them in place.
 */
module FrameTransform {

  import opened Wrappers
  import opened Matrices

  /** One row of the hand's data sheet: the channel id (`var`) and its declared size. */
  datatype Channel = Channel(id: string, rows: nat, cols: nat)

  /**
   * The 'touch' part of one frame: a channel id is missing, maps to None, or
   * maps to the reading's elements in row-major order.
   */
  type Frame = map<string, Option<seq<real>>>

  /** The data sheet gives one size per channel id. */
  ghost predicate SheetConsistent(sheet: seq<Channel>) {
    forall i, j :: 0 <= i < |sheet| && 0 <= j < |sheet| && sheet[i].id == sheet[j].id ==> sheet[i] == sheet[j]
  }

  /** The channel ids on the data sheet. */
  function SheetIds(sheet: seq<Channel>): (ids: set<string>)
    ensures forall c :: c in sheet ==> c.id in ids
    ensures forall v :: v in ids ==> exists i :: 0 <= i < |sheet| && sheet[i].id == v
  {
    set i | 0 <= i < |sheet| :: sheet[i].id
  }

  /**
   * The script gets past its skip tests for `ch`: the id is present, the
   * reading is not None, it has elements, and reshaping it to the declared
   * size succeeds, which needs exactly rows * cols of them.
   */
  predicate Usable(frame: Frame, ch: Channel) {
    ch.id in frame && frame[ch.id].Some?
    && |frame[ch.id].value| != 0 && |frame[ch.id].value| == ch.rows * ch.cols
  }

  /** The reading of `ch` reshaped to its declared size. */
  function Reading(frame: Frame, ch: Channel): (m: Matrix)
    requires Usable(frame, ch)
    ensures Shaped(m, ch.rows, ch.cols) && ch.rows > 0 && ch.cols > 0
    ensures Flatten(m) == frame[ch.id].value
  {
    var values := frame[ch.id].value;
    FlattenFromFlat(values, ch.rows, ch.cols);
    FromFlat(values, ch.rows, ch.cols)
  }

  // ---------------------------------------------------------------------------
  // Policies

  /** What the smoothed state holds before a channel's first update. */
  datatype Seed =
    | SeedZeros   // np.zeros_like(raw)
    | SeedRaw     // raw.copy()

  /** When the exponential moving average applies. */
  datatype Smoothing =
    | NoSmoothing              // the clipped delta replaces the state outright
    | EmaIfPositive(alpha: real)  // moving average when alpha > 0, replacement otherwise
    | EmaIfSeeded(alpha: real)    // moving average when the state holds the channel, copy otherwise

  /** `np.clip(raw - baseline, 0, upper) * scale`, then seeding and smoothing as given. */
  datatype Policy = Policy(upper: Option<real>, scale: real, seed: Seed, smoothing: Smoothing)

  function Alpha(s: Smoothing): real {
    match s
    case NoSmoothing => 1.0
    case EmaIfPositive(a) => a
    case EmaIfSeeded(a) => a
  }

  ghost predicate ValidPolicy(p: Policy) {
    (p.upper.Some? ==> p.upper.value >= 0.0) && p.scale >= 0.0 && 0.0 <= Alpha(p.smoothing) <= 1.0
  }

  /** The largest value the scaled delta can take (None: unbounded). */
  function Ceiling(p: Policy): Option<real> {
    match p.upper
    case None => None
    case Some(u) => Some(p.scale * u)
  }

  function SeedFor(seed: Seed, raw: Matrix): (m: Matrix)
    ensures SameShape(m, raw)
  {
    match seed
    case SeedZeros => ZerosLike(raw)
    case SeedRaw => raw
  }

  // ---------------------------------------------------------------------------
  // State and its specification

  /** The `baselines` and smoothed-state dictionaries, keyed by channel id. */
  datatype State = State(baselines: map<string, Matrix>, smoothed: map<string, Matrix>)

  /** Baselines and smoothed state are seeded together and have the channel's declared size. */
  ghost predicate Coherent(sheet: seq<Channel>, s: State) {
    && s.baselines.Keys == s.smoothed.Keys
    && forall c :: c in sheet && c.id in s.baselines ==>
         Shaped(s.baselines[c.id], c.rows, c.cols) && Shaped(s.smoothed[c.id], c.rows, c.cols)
  }

  /** The script gets as far as the arithmetic for `ch`: it has an overlay and a usable reading. */
  predicate Processes(overlays: set<string>, frame: Frame, ch: Channel) {
    ch.id in overlays && Usable(frame, ch)
  }

  /** The scaled, clipped delta of the reading against the channel's baseline. */
  function Delta(p: Policy, raw: Matrix, base: Matrix): (d: Matrix)
    requires ValidPolicy(p) && SameShape(raw, base)
    ensures SameShape(d, raw) && AllEntries(d, 0.0, Ceiling(p))
  {
    var c := ClippedDelta(raw, base, p.upper);
    ScaledRange(c, p.scale, p.upper);
    Scaled(c, p.scale)
  }

  lemma ScaledRange(m: Matrix, k: real, upper: Option<real>)
    requires k >= 0.0 && AllEntries(m, 0.0, upper)
    ensures AllEntries(Scaled(m, k), 0.0, match upper case None => None case Some(u) => Some(k * u))
  {
    forall i, j | 0 <= i < |m| && 0 <= j < |m[i]|
      ensures 0.0 <= k * m[i][j] && (upper.Some? ==> k * m[i][j] <= k * upper.value)
    {
      ProductNonNegative(k, m[i][j]);
      if upper.Some? {
        ProductNonNegative(k, upper.value - m[i][j]);
      }
    }
  }

  /**
   * One channel of one frame. A channel that is not processed leaves the state
   * as it was; the first usable reading becomes the baseline, which no later
   * frame replaces; only the channel's own entries change.
   */
  function Update(p: Policy, overlays: set<string>, sheet: seq<Channel>, s: State, ch: Channel, frame: Frame): (r: State)
    requires ValidPolicy(p) && SheetConsistent(sheet) && ch in sheet && Coherent(sheet, s)
    ensures Coherent(sheet, r)
    ensures !Processes(overlays, frame, ch) ==> r == s
    ensures Processes(overlays, frame, ch) ==> r.baselines.Keys == s.baselines.Keys + {ch.id}
    ensures ch.id in s.baselines ==> r.baselines == s.baselines
    ensures ch.id !in s.baselines && Processes(overlays, frame, ch) ==>
      r.baselines == s.baselines[ch.id := Reading(frame, ch)]
    ensures forall v :: v != ch.id && v in s.smoothed ==> r.smoothed[v] == s.smoothed[v]
  {
    if !Processes(overlays, frame, ch) then s
    else
      var raw := Reading(frame, ch);
      var seeded := SeedChannel(p.seed, s, ch.id, raw);
      var delta := Delta(p, raw, seeded.baselines[ch.id]);
      State(seeded.baselines, seeded.smoothed[ch.id := Smooth(p.smoothing, ch.id, delta, seeded.smoothed)])
  }

  /** The state once `id` holds a baseline: the reading itself when it had none. */
  function SeedChannel(seed: Seed, s: State, id: string, raw: Matrix): (r: State)
    requires s.baselines.Keys == s.smoothed.Keys
    ensures id in r.baselines && id in r.smoothed
    ensures id in s.baselines ==> r == s
    ensures id !in s.baselines ==> r == State(s.baselines[id := raw], s.smoothed[id := SeedFor(seed, raw)])
  {
    if id in s.baselines then s
    else State(s.baselines[id := raw], s.smoothed[id := SeedFor(seed, raw)])
  }

  /**
   * The new stored value for `id`. The seeded moving average tests whether
   * the state holds the channel, exactly as the older scripts do.
   */
  function Smooth(sm: Smoothing, id: string, delta: Matrix, smoothed: map<string, Matrix>): (r: Matrix)
    requires sm.EmaIfPositive? && sm.alpha > 0.0 ==> id in smoothed
    requires id in smoothed ==> SameShape(delta, smoothed[id])
    ensures SameShape(r, delta)
  {
    match sm
    case NoSmoothing => delta
    case EmaIfPositive(a) => if a > 0.0 then Blend(a, delta, smoothed[id]) else delta
    case EmaIfSeeded(a) => if id in smoothed then Blend(a, delta, smoothed[id]) else delta
  }

  /** The value the script displays for `ch` after its update, or None when it skipped it. */
  function Current(p: Policy, overlays: set<string>, sheet: seq<Channel>, s: State, ch: Channel, frame: Frame): (r: Option<Matrix>)
    requires ValidPolicy(p) && SheetConsistent(sheet) && ch in sheet && Coherent(sheet, s)
    ensures r.Some? <==> Processes(overlays, frame, ch)
    ensures r.Some? ==> Shaped(r.value, ch.rows, ch.cols) && |Flatten(r.value)| > 0
  {
    if Processes(overlays, frame, ch) then
      var m := Update(p, overlays, sheet, s, ch, frame).smoothed[ch.id];
      FlattenLength(m, ch.rows, ch.cols);
      Some(m)
    else None
  }

  /** The state after the first k channels of the data sheet, in sheet order. */
  function FrameUpdate(p: Policy, overlays: set<string>, sheet: seq<Channel>, s: State, k: nat, frame: Frame): (r: State)
    requires ValidPolicy(p) && SheetConsistent(sheet) && Coherent(sheet, s) && k <= |sheet|
    ensures Coherent(sheet, r)
  {
    if k == 0 then s
    else Update(p, overlays, sheet, FrameUpdate(p, overlays, sheet, s, k - 1, frame), sheet[k - 1], frame)
  }

  /** The (channel id, displayed value) pairs of the first k channels that were processed, in order. */
  function Processed(p: Policy, overlays: set<string>, sheet: seq<Channel>, s: State, k: nat, frame: Frame): (r: seq<(string, Matrix)>)
    requires ValidPolicy(p) && SheetConsistent(sheet) && Coherent(sheet, s) && k <= |sheet|
    ensures forall e :: e in r ==> e.0 in overlays && |Flatten(e.1)| > 0 && Rectangular(e.1)
  {
    if k == 0 then []
    else
      var before := Processed(p, overlays, sheet, s, k - 1, frame);
      match Current(p, overlays, sheet, FrameUpdate(p, overlays, sheet, s, k - 1, frame), sheet[k - 1], frame)
      case None => before
      case Some(m) => before + [(sheet[k - 1].id, m)]
  }

  /** One more channel of the sheet: its update follows, and its displayed value, if any, is appended. */
  lemma ProcessedStep(p: Policy, overlays: set<string>, sheet: seq<Channel>, s: State, k: nat, frame: Frame)
    requires ValidPolicy(p) && SheetConsistent(sheet) && Coherent(sheet, s) && k < |sheet|
    ensures var before := FrameUpdate(p, overlays, sheet, s, k, frame);
      && FrameUpdate(p, overlays, sheet, s, k + 1, frame) == Update(p, overlays, sheet, before, sheet[k], frame)
      && Processed(p, overlays, sheet, s, k + 1, frame) ==
           Processed(p, overlays, sheet, s, k, frame) +
           match Current(p, overlays, sheet, before, sheet[k], frame)
           case None => []
           case Some(m) => [(sheet[k].id, m)]
  {
  }

  // ---------------------------------------------------------------------------
  // Properties of the transform

  /** The ids among the first k channels of the sheet that a frame processes. */
  function Seen(overlays: set<string>, frame: Frame, sheet: seq<Channel>, k: nat): set<string>
    requires k <= |sheet|
  {
    if k == 0 then {}
    else Seen(overlays, frame, sheet, k - 1) + (if Processes(overlays, frame, sheet[k - 1]) then {sheet[k - 1].id} else {})
  }

  /**
   * Over a whole frame, every baseline that existed before is kept as it was,
   * and new baselines appear exactly for the channels the frame processed.
   */
  lemma {:induction false} BaselinesPersist(p: Policy, overlays: set<string>, sheet: seq<Channel>, s: State, k: nat, frame: Frame)
    requires ValidPolicy(p) && SheetConsistent(sheet) && Coherent(sheet, s) && k <= |sheet|
    ensures var r := FrameUpdate(p, overlays, sheet, s, k, frame);
      && r.baselines.Keys == s.baselines.Keys + Seen(overlays, frame, sheet, k)
      && (forall v :: v in s.baselines ==> r.baselines[v] == s.baselines[v])
  {
    if k > 0 {
      BaselinesPersist(p, overlays, sheet, s, k - 1, frame);
    }
  }

  /**
   * A channel that no entry of the frame processed (absent, None, empty, not
   * reshapeable, or without an overlay) keeps its baseline and its smoothed
   * value: there is no decay.
   */
  lemma {:induction false} UntouchedChannelKept(p: Policy, overlays: set<string>, sheet: seq<Channel>, s: State, k: nat, frame: Frame, v: string)
    requires ValidPolicy(p) && SheetConsistent(sheet) && Coherent(sheet, s) && k <= |sheet|
    requires forall i :: 0 <= i < k && sheet[i].id == v ==> !Processes(overlays, frame, sheet[i])
    ensures var r := FrameUpdate(p, overlays, sheet, s, k, frame);
      && (v in r.baselines <==> v in s.baselines)
      && (v in s.baselines ==> r.baselines[v] == s.baselines[v] && r.smoothed[v] == s.smoothed[v])
  {
    if k > 0 {
      UntouchedChannelKept(p, overlays, sheet, s, k - 1, frame, v);
    }
  }

  /** Every stored value lies in [0, Ceiling(p)]. */
  ghost predicate InRange(p: Policy, s: State) {
    forall v :: v in s.smoothed ==> AllEntries(s.smoothed[v], 0.0, Ceiling(p))
  }

  /**
   * When the state is seeded with zeros, or never smoothed, every stored value
   * stays within [0, Ceiling(p)] frame after frame.
   */
  lemma {:induction false} RangeKept(p: Policy, overlays: set<string>, sheet: seq<Channel>, s: State, k: nat, frame: Frame)
    requires ValidPolicy(p) && SheetConsistent(sheet) && Coherent(sheet, s) && k <= |sheet|
    requires p.seed == SeedZeros || p.smoothing == NoSmoothing
    requires InRange(p, s)
    ensures InRange(p, FrameUpdate(p, overlays, sheet, s, k, frame))
  {
    if k > 0 {
      var before := FrameUpdate(p, overlays, sheet, s, k - 1, frame);
      RangeKept(p, overlays, sheet, s, k - 1, frame);
      UpdateInRange(p, overlays, sheet, before, sheet[k - 1], frame);
    }
  }

  /** Under the same conditions every displayed value lies in [0, Ceiling(p)]. */
  lemma {:induction false} ProcessedInRange(p: Policy, overlays: set<string>, sheet: seq<Channel>, s: State, k: nat, frame: Frame)
    requires ValidPolicy(p) && SheetConsistent(sheet) && Coherent(sheet, s) && k <= |sheet|
    requires p.seed == SeedZeros || p.smoothing == NoSmoothing
    requires InRange(p, s)
    ensures forall e :: e in Processed(p, overlays, sheet, s, k, frame) ==> AllEntries(e.1, 0.0, Ceiling(p))
  {
    if k > 0 {
      var before := FrameUpdate(p, overlays, sheet, s, k - 1, frame);
      ProcessedInRange(p, overlays, sheet, s, k - 1, frame);
      RangeKept(p, overlays, sheet, s, k - 1, frame);
      UpdateInRange(p, overlays, sheet, before, sheet[k - 1], frame);
    }
  }

  lemma UpdateInRange(p: Policy, overlays: set<string>, sheet: seq<Channel>, s: State, ch: Channel, frame: Frame)
    requires ValidPolicy(p) && SheetConsistent(sheet) && ch in sheet && Coherent(sheet, s)
    requires p.seed == SeedZeros || p.smoothing == NoSmoothing
    requires InRange(p, s)
    ensures InRange(p, Update(p, overlays, sheet, s, ch, frame))
  {
    if Processes(overlays, frame, ch) {
      var raw := Reading(frame, ch);
      var prev := if ch.id in s.baselines then s.smoothed[ch.id] else SeedFor(p.seed, raw);
      var base := if ch.id in s.baselines then s.baselines[ch.id] else raw;
      var delta := Delta(p, raw, base);
      if p.smoothing != NoSmoothing {
        assert AllEntries(prev, 0.0, Ceiling(p));
        BlendRange(Alpha(p.smoothing), delta, prev, Ceiling(p));
      }
    }
  }

  /**
   * With zero seeding, the first usable reading of a channel is its own
   * baseline, so its delta and stored value are all zeros.
   */
  lemma FirstReadingZero(p: Policy, overlays: set<string>, sheet: seq<Channel>, s: State, ch: Channel, frame: Frame)
    requires ValidPolicy(p) && SheetConsistent(sheet) && ch in sheet && Coherent(sheet, s)
    requires p.seed == SeedZeros
    requires ch.id !in s.baselines && Processes(overlays, frame, ch)
    ensures AllEntries(Update(p, overlays, sheet, s, ch, frame).smoothed[ch.id], 0.0, Some(0.0))
  {
    var raw := Reading(frame, ch);
    var delta := Delta(p, raw, raw);
    ClippedDeltaSelf(raw, p.upper, p.scale);
    if p.smoothing != NoSmoothing {
      BlendRange(Alpha(p.smoothing), delta, ZerosLike(raw), Some(0.0));
    }
  }

  /** The stored value of a processed channel, spelled out: seed, delta, smoothing rule. */
  lemma UpdatedValue(p: Policy, overlays: set<string>, sheet: seq<Channel>, s: State, ch: Channel, frame: Frame)
    requires ValidPolicy(p) && SheetConsistent(sheet) && ch in sheet && Coherent(sheet, s)
    requires Processes(overlays, frame, ch)
    ensures var raw := Reading(frame, ch);
      var seeded := SeedChannel(p.seed, s, ch.id, raw);
      var r := Update(p, overlays, sheet, s, ch, frame);
      && SameShape(raw, seeded.baselines[ch.id]) && SameShape(raw, seeded.smoothed[ch.id])
      && r == State(seeded.baselines, seeded.smoothed[ch.id := r.smoothed[ch.id]])
      && r.smoothed[ch.id] == Smooth(p.smoothing, ch.id, Delta(p, raw, seeded.baselines[ch.id]), seeded.smoothed)
  {
  }

  /**
   * With raw seeding and a moving average, the first usable reading gives
   * (1 - alpha) * raw: the delta is zero and the seed is the raw reading itself.
   */
  lemma FirstReadingDamped(p: Policy, overlays: set<string>, sheet: seq<Channel>, s: State, ch: Channel, frame: Frame)
    requires ValidPolicy(p) && SheetConsistent(sheet) && ch in sheet && Coherent(sheet, s)
    requires p.seed == SeedRaw && p.smoothing.EmaIfSeeded?
    requires ch.id !in s.baselines && Processes(overlays, frame, ch)
    ensures var raw := Reading(frame, ch);
      var r := Update(p, overlays, sheet, s, ch, frame).smoothed[ch.id];
      SameShape(r, raw) &&
      forall i, j :: 0 <= i < |raw| && 0 <= j < |raw[i]| ==> r[i][j] == (1.0 - p.smoothing.alpha) * raw[i][j]
  {
    var raw := Reading(frame, ch);
    UpdatedValue(p, overlays, sheet, s, ch, frame);
    var delta := Delta(p, raw, raw);
    ClippedDeltaSelf(raw, p.upper, p.scale);
    assert Update(p, overlays, sheet, s, ch, frame).smoothed[ch.id] == Blend(p.smoothing.alpha, delta, raw);
    BlendFromZero(p.smoothing.alpha, delta, raw);
  }

  /**
   * Once a channel has a baseline, its new stored value lies between its
   * previous stored value and the new scaled delta, entry by entry.
   */
  lemma SmoothedBetween(p: Policy, overlays: set<string>, sheet: seq<Channel>, s: State, ch: Channel, frame: Frame)
    requires ValidPolicy(p) && SheetConsistent(sheet) && ch in sheet && Coherent(sheet, s)
    requires ch.id in s.baselines && Processes(overlays, frame, ch)
    ensures var raw := Reading(frame, ch);
      var d := Delta(p, raw, s.baselines[ch.id]);
      var prev := s.smoothed[ch.id];
      var r := Update(p, overlays, sheet, s, ch, frame).smoothed[ch.id];
      SameShape(r, prev) && SameShape(d, prev) &&
      forall i, j :: 0 <= i < |r| && 0 <= j < |r[i]| ==>
        (d[i][j] <= r[i][j] <= prev[i][j]) || (prev[i][j] <= r[i][j] <= d[i][j])
  {
    var raw := Reading(frame, ch);
    UpdatedValue(p, overlays, sheet, s, ch, frame);
    var d := Delta(p, raw, s.baselines[ch.id]);
    var prev := s.smoothed[ch.id];
    if p.smoothing != NoSmoothing {
      BlendBetween(Alpha(p.smoothing), d, prev);
    }
  }

  /** The smoothing keeps no memory: the stored value is the fresh delta. */
  predicate Memoryless(p: Policy) {
    match p.smoothing
    case NoSmoothing => true
    case EmaIfPositive(a) => a <= 0.0 || a == 1.0
    case EmaIfSeeded(a) => a == 1.0
  }

  /**
   * Without memory, feeding the same frame twice gives the same state as
   * feeding it once: nothing accumulates.
   */
  lemma MemorylessIdempotent(p: Policy, overlays: set<string>, sheet: seq<Channel>, s: State, ch: Channel, frame: Frame)
    requires ValidPolicy(p) && SheetConsistent(sheet) && ch in sheet && Coherent(sheet, s)
    requires Memoryless(p)
    ensures var once := Update(p, overlays, sheet, s, ch, frame);
      Update(p, overlays, sheet, once, ch, frame) == once
  {
    if Processes(overlays, frame, ch) {
      var once := Update(p, overlays, sheet, s, ch, frame);
      var raw := Reading(frame, ch);
      UpdatedValue(p, overlays, sheet, s, ch, frame);
      UpdatedValue(p, overlays, sheet, once, ch, frame);
      var delta := Delta(p, raw, once.baselines[ch.id]);
      var seeded := SeedChannel(p.seed, s, ch.id, raw);
      BlendEnds(delta, seeded.smoothed[ch.id]);
      assert once.smoothed[ch.id] == delta;
      BlendEnds(delta, once.smoothed[ch.id]);
      assert once.smoothed[ch.id := delta] == once.smoothed;
    }
  }

  /**
   * A seeded moving average with alpha = 0 never moves: once the channel has
   * a baseline, its stored value stays as it was, whatever arrives.
   */
  lemma FrozenAtZeroAlpha(p: Policy, overlays: set<string>, sheet: seq<Channel>, s: State, ch: Channel, frame: Frame)
    requires ValidPolicy(p) && SheetConsistent(sheet) && ch in sheet && Coherent(sheet, s)
    requires p.smoothing == EmaIfSeeded(0.0) && ch.id in s.baselines
    ensures Update(p, overlays, sheet, s, ch, frame) == s
  {
    if Processes(overlays, frame, ch) {
      var raw := Reading(frame, ch);
      UpdatedValue(p, overlays, sheet, s, ch, frame);
      var delta := Delta(p, raw, s.baselines[ch.id]);
      BlendEnds(delta, s.smoothed[ch.id]);
      assert s.smoothed[ch.id := s.smoothed[ch.id]] == s.smoothed;
    }
  }

  // ---------------------------------------------------------------------------
  // The dictionaries, updated in place

  class Transformer {
    const policy: Policy
    const sheet: seq<Channel>
    /** The ids that have an overlay (`sensor_images`); the others are never processed. */
    const overlays: set<string>
    var baselines: map<string, Matrix>
    var smoothed: map<string, Matrix>

    function Snapshot(): State
      reads this
    {
      State(baselines, smoothed)
    }

    ghost predicate Valid()
      reads this
    {
      ValidPolicy(policy) && SheetConsistent(sheet) && Coherent(sheet, Snapshot())
    }

    constructor (policy: Policy, sheet: seq<Channel>, overlays: set<string>)
      requires ValidPolicy(policy) && SheetConsistent(sheet)
      ensures Valid()
      ensures this.policy == policy && this.sheet == sheet && this.overlays == overlays
      ensures baselines == map[] && smoothed == map[]
    {
      this.policy := policy;
      this.sheet := sheet;
      this.overlays := overlays;
      baselines := map[];
      smoothed := map[];
    }

    /** The body of the per-channel loop; returns the value to display, or None when skipped. */
    method ProcessChannel(ch: Channel, frame: Frame) returns (current: Option<Matrix>)
      requires Valid() && ch in sheet
      modifies this
      ensures Valid()
      ensures Snapshot() == Update(policy, overlays, sheet, old(Snapshot()), ch, frame)
      ensures current == Current(policy, overlays, sheet, old(Snapshot()), ch, frame)
    {
      if ch.id !in frame || ch.id !in overlays {
        return None;
      }
      var reading := frame[ch.id];
      if reading.None? || |reading.value| == 0 {
        return None;
      }
      if |reading.value| != ch.rows * ch.cols {
        // reshape to the declared size fails
        return None;
      }
      var raw := FromFlat(reading.value, ch.rows, ch.cols);
      assert raw == Reading(frame, ch);
      if ch.id !in baselines {
        baselines := baselines[ch.id := raw];
        smoothed := smoothed[ch.id := SeedFor(policy.seed, raw)];
      }
      assert Snapshot() == SeedChannel(policy.seed, old(Snapshot()), ch.id, raw);
      var delta := Delta(policy, raw, baselines[ch.id]);
      var next: Matrix;
      match policy.smoothing {
        case NoSmoothing =>
          next := delta;
        case EmaIfPositive(a) =>
          if a > 0.0 {
            next := Blend(a, delta, smoothed[ch.id]);
          } else {
            next := delta;
          }
        case EmaIfSeeded(a) =>
          if ch.id in smoothed {
            next := Blend(a, delta, smoothed[ch.id]);
          } else {
            next := delta;
          }
      }
      assert next == Smooth(policy.smoothing, ch.id, delta, smoothed);
      smoothed := smoothed[ch.id := next];
      current := Some(smoothed[ch.id]);
    }

    /** One frame: every data-sheet channel in order; returns the processed channels' displayed values. */
    method ProcessFrame(frame: Frame) returns (entries: seq<(string, Matrix)>)
      requires Valid()
      modifies this
      ensures Valid()
      ensures Snapshot() == FrameUpdate(policy, overlays, sheet, old(Snapshot()), |sheet|, frame)
      ensures entries == Processed(policy, overlays, sheet, old(Snapshot()), |sheet|, frame)
    {
      entries := [];
      for k := 0 to |sheet|
        invariant Valid()
        invariant Snapshot() == FrameUpdate(policy, overlays, sheet, old(Snapshot()), k, frame)
        invariant entries == Processed(policy, overlays, sheet, old(Snapshot()), k, frame)
      {
        ProcessedStep(policy, overlays, sheet, old(Snapshot()), k, frame);
        var current := ProcessChannel(sheet[k], frame);
        if current.Some? {
          entries := entries + [(sheet[k].id, current.value)];
        }
      }
    }
  }
}
