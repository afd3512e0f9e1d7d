/**
 * The older live force map: every data-sheet channel gets an overlay, and
 * each frame runs the shared per-channel transform with the reading's
 * difference from its baseline clipped to [0, 100] and a moving average
 * with alpha 0.3 over a state seeded with the raw reading.
 */
module ForceMapOld {

  import opened Wrappers
  import opened Matrices
  import opened FrameTransform

  /** `smoothing_factor`. */
  const OldAlpha: real := 0.3

  /** Clip to [0, 100], no scaling, state seeded with the raw reading, average while the state holds the channel. */
  const OldPolicy: Policy := Policy(Some(100.0), 1.0, SeedRaw, EmaIfSeeded(OldAlpha))

  /** The display set-up: an overlay for every data-sheet channel, empty baselines and state. */
  method OldSetup(sheet: seq<Channel>) returns (t: Transformer)
    requires SheetConsistent(sheet)
    ensures fresh(t) && t.Valid()
    ensures t.policy == OldPolicy && t.sheet == sheet && t.overlays == SheetIds(sheet)
    ensures t.baselines == map[] && t.smoothed == map[]
  {
    t := new Transformer(OldPolicy, sheet, SheetIds(sheet));
  }

  /** One display iteration: the transform over the data sheet; returns what each processed overlay shows. */
  method OldFrame(t: Transformer, frame: Frame) returns (shown: seq<(string, Matrix)>)
    requires t.Valid() && t.policy == OldPolicy
    modifies t
    ensures t.Valid()
    ensures t.Snapshot() == FrameUpdate(OldPolicy, t.overlays, t.sheet, old(t.Snapshot()), |t.sheet|, frame)
    ensures shown == Processed(OldPolicy, t.overlays, t.sheet, old(t.Snapshot()), |t.sheet|, frame)
  {
    shown := t.ProcessFrame(frame);
  }

  /**
   * The `else` branch of the smoothing test is dead: by the time it runs, the
   * state always holds the channel, so every processed channel gets the
   * moving average of its clipped delta and its previous (or seed) value.
   */
  lemma OldElseBranchDead(sheet: seq<Channel>, overlays: set<string>, s: State, ch: Channel, frame: Frame)
    requires SheetConsistent(sheet) && ch in sheet && Coherent(sheet, s)
    requires Processes(overlays, frame, ch)
    ensures var raw := Reading(frame, ch);
      var seeded := SeedChannel(SeedRaw, s, ch.id, raw);
      && ch.id in seeded.smoothed
      && SameShape(raw, seeded.baselines[ch.id]) && SameShape(raw, seeded.smoothed[ch.id])
      && Update(OldPolicy, overlays, sheet, s, ch, frame).smoothed[ch.id] ==
           Blend(OldAlpha, ClippedDelta(raw, seeded.baselines[ch.id], Some(100.0)), seeded.smoothed[ch.id])
  {
    var raw := Reading(frame, ch);
    var seeded := SeedChannel(SeedRaw, s, ch.id, raw);
    UpdatedValue(OldPolicy, overlays, sheet, s, ch, frame);
    var c := ClippedDelta(raw, seeded.baselines[ch.id], Some(100.0));
    ScaledByOne(c);
  }

  /** The first usable reading of a channel is shown as 0.7 times itself. */
  lemma OldFirstFrame(sheet: seq<Channel>, overlays: set<string>, s: State, ch: Channel, frame: Frame)
    requires SheetConsistent(sheet) && ch in sheet && Coherent(sheet, s)
    requires ch.id !in s.baselines && Processes(overlays, frame, ch)
    ensures var raw := Reading(frame, ch);
      var r := Update(OldPolicy, overlays, sheet, s, ch, frame).smoothed[ch.id];
      SameShape(r, raw) &&
      forall i, j :: 0 <= i < |raw| && 0 <= j < |raw[i]| ==> r[i][j] == 0.7 * raw[i][j]
  {
    FirstReadingDamped(OldPolicy, overlays, sheet, s, ch, frame);
  }

  /**
   * Later frames move each stored entry towards the clipped difference, which
   * lies in [0, 100]: the new entry lies between the two.
   */
  lemma OldStoredBetween(sheet: seq<Channel>, overlays: set<string>, s: State, ch: Channel, frame: Frame)
    requires SheetConsistent(sheet) && ch in sheet && Coherent(sheet, s)
    requires ch.id in s.baselines && Processes(overlays, frame, ch)
    ensures var raw := Reading(frame, ch);
      var d := Delta(OldPolicy, raw, s.baselines[ch.id]);
      var prev := s.smoothed[ch.id];
      var r := Update(OldPolicy, overlays, sheet, s, ch, frame).smoothed[ch.id];
      && AllEntries(d, 0.0, Some(100.0))
      && SameShape(r, prev) && SameShape(d, prev)
      && forall i, j :: 0 <= i < |r| && 0 <= j < |r[i]| ==>
           (d[i][j] <= r[i][j] <= prev[i][j]) || (prev[i][j] <= r[i][j] <= d[i][j])
  {
    SmoothedBetween(OldPolicy, overlays, sheet, s, ch, frame);
    var raw := Reading(frame, ch);
    assert Ceiling(OldPolicy) == Some(100.0);
  }

  // ---------------------------------------------------------------------------
  // The raw seed

  /** A one-cell palm sensor, read as 200 counts on its first frame. */
  const ProbeSheet: seq<Channel> := [Channel("palm_touch", 1, 1)]
  const ProbeFrame: Frame := map["palm_touch" := Some([200.0])]

  /**
   * As written, seeding the state with the raw reading stores 0.7 times that
   * reading on the first frame: a first reading of 200 counts is stored as
   * 140, above the [0, 100] range the difference is clipped to.
   */
  lemma OldRawSeedLeavesRange()
    ensures var s := State(map[], map[]);
      var r := Update(OldPolicy, {"palm_touch"}, ProbeSheet, s, ProbeSheet[0], ProbeFrame);
      r.smoothed["palm_touch"] == [[140.0]] && !InRange(OldPolicy, r)
  {
    var s := State(map[], map[]);
    var ch := ProbeSheet[0];
    assert Usable(ProbeFrame, ch);
    assert Reading(ProbeFrame, ch) == [[200.0]] by {
      assert [200.0][..1] == [200.0] && [200.0][1..] == [];
      assert FromFlat([200.0], 1, 1) == [[200.0]] + FromFlat([], 0, 1);
    }
    OldFirstFrame(ProbeSheet, {"palm_touch"}, s, ch, ProbeFrame);
    var r := Update(OldPolicy, {"palm_touch"}, ProbeSheet, s, ch, ProbeFrame);
    assert r.smoothed["palm_touch"][0][0] == 140.0;
    assert r.smoothed["palm_touch"][0] == [140.0];
  }

  /** The same transform with the state seeded with zeros, as the gram map seeds it. */
  const ZeroSeededOldPolicy: Policy := Policy(Some(100.0), 1.0, SeedZeros, EmaIfSeeded(OldAlpha))

  /**
   * Seeded with zeros, a channel's first frame is shown as all zeros, and
   * every stored value stays in [0, 100] frame after frame.
   */
  lemma ZeroSeededOldInRange(sheet: seq<Channel>, overlays: set<string>, s: State, ch: Channel, frame: Frame)
    requires SheetConsistent(sheet) && ch in sheet && Coherent(sheet, s) && InRange(ZeroSeededOldPolicy, s)
    ensures ch.id !in s.baselines && Processes(overlays, frame, ch) ==>
      AllEntries(Update(ZeroSeededOldPolicy, overlays, sheet, s, ch, frame).smoothed[ch.id], 0.0, Some(0.0))
    ensures var r := FrameUpdate(ZeroSeededOldPolicy, overlays, sheet, s, |sheet|, frame);
      forall v :: v in r.smoothed ==> AllEntries(r.smoothed[v], 0.0, Some(100.0))
  {
    if ch.id !in s.baselines && Processes(overlays, frame, ch) {
      FirstReadingZero(ZeroSeededOldPolicy, overlays, sheet, s, ch, frame);
    }
    RangeKept(ZeroSeededOldPolicy, overlays, sheet, s, |sheet|, frame);
  }
}
