/**
 * The SDK's live force map. Its region dispatch tests the finger keys by
 * dictionary membership, so only an id that IS a finger key takes the
 * finger branch; the zone within a finger or the thumb is the first zone
 * name the id contains, in the dictionaries' order. Every data-sheet id gets
 * a region entry and so an overlay, and each frame runs the shared
 * per-channel transform with the difference clipped to [0, 100] and a moving
 * average with alpha 0.9 over a state seeded with the raw reading.
 */
module ForceMapSdk {

  import opened Wrappers
  import opened Text
  import opened Matrices
  import opened FrameTransform

  // ---------------------------------------------------------------------------
  // Region dispatch

  /** `finger_idx_by_var`: pinky, ring, middle and index, numbered from the index finger. */
  const FingerIndexByVar: map<string, nat> := map["fingerone" := 3, "fingertwo" := 2, "fingerthree" := 1, "fingerfour" := 0]

  /** The keys of `finger_zone` and `thumb_zone`, in their dictionaries' order. */
  const FingerZones: seq<string> := ["tip", "top", "palm"]
  const ThumbZones: seq<string> := ["tip", "top", "middle", "palm"]

  /**
   * The branch `get_sensor_regions_on_hand` takes for an id, and the zone its
   * zone loop stops at (None when no zone name matches and the loop runs out).
   */
  datatype Branch =
    | FingerBranch(index: nat, zone: Option<string>)
    | ThumbBranch(zone: Option<string>)
    | PalmBranch
    | NoBranch

  /** The first of `zones` that v contains: where the zone loop breaks. */
  function ZoneMatch(zones: seq<string>, v: string): (z: Option<string>)
    ensures z.Some? <==> exists i :: 0 <= i < |zones| && Contains(v, zones[i])
    ensures z.Some? ==> exists i ::
      0 <= i < |zones| && zones[i] == z.value && Contains(v, z.value) && forall j :: 0 <= j < i ==> !Contains(v, zones[j])
  {
    match FirstContained(zones, v)
    case None => None
    case Some(i) => Some(zones[i])
  }

  /**
   * `if var in finger_idx_by_var`, then `elif 'fingerfive' in var`, then
   * `elif 'palm_touch' in var`: an id that is not a bare finger key but
   * contains "palm_touch" takes the palm branch.
   */
  function SdkBranch(v: string): (b: Branch)
    ensures b.FingerBranch? <==> v in FingerIndexByVar
    ensures b.FingerBranch? ==> b.index == FingerIndexByVar[v] && b.zone == ZoneMatch(FingerZones, v)
    ensures b.ThumbBranch? <==> v !in FingerIndexByVar && Contains(v, "fingerfive")
    ensures b.ThumbBranch? ==> b.zone == ZoneMatch(ThumbZones, v)
    ensures b == PalmBranch <==> v !in FingerIndexByVar && !Contains(v, "fingerfive") && Contains(v, "palm_touch")
    ensures b == NoBranch <==> v !in FingerIndexByVar && !Contains(v, "fingerfive") && !Contains(v, "palm_touch")
  {
    if v in FingerIndexByVar then FingerBranch(FingerIndexByVar[v], ZoneMatch(FingerZones, v))
    else if Contains(v, "fingerfive") then ThumbBranch(ZoneMatch(ThumbZones, v))
    else if Contains(v, "palm_touch") then PalmBranch
    else NoBranch
  }

  /** The zone loop: `for zone in zones: if zone in var: ...; break`. */
  method FirstZone(zones: seq<string>, v: string) returns (zone: Option<string>)
    ensures zone == ZoneMatch(zones, v)
  {
    zone := None;
    var i := 0;
    while i < |zones|
      invariant 0 <= i <= |zones|
      invariant forall j :: 0 <= j < i ==> !Contains(v, zones[j])
    {
      if Contains(v, zones[i]) {
        zone := Some(zones[i]);
        break;
      }
      i := i + 1;
    }
  }

  /** The region entry of one id: the dispatch of the loop body. */
  method RegionOf(v: string) returns (b: Branch)
    ensures b == SdkBranch(v)
  {
    if v in FingerIndexByVar {
      var zone := FirstZone(FingerZones, v);
      b := FingerBranch(FingerIndexByVar[v], zone);
    } else if Contains(v, "fingerfive") {
      var zone := FirstZone(ThumbZones, v);
      b := ThumbBranch(zone);
    } else if Contains(v, "palm_touch") {
      b := PalmBranch;
    } else {
      b := NoBranch;
    }
  }

  /**
   * The branch assigns the box coordinates `x, y`: a finger or thumb zone
   * matched, or the id is the palm's.
   */
  predicate Places(b: Branch) {
    match b
    case FingerBranch(_, zone) => zone.Some?
    case ThumbBranch(zone) => zone.Some?
    case PalmBranch => true
    case NoBranch => false
  }

  /** `regions[var] = {'bbox': (x, y, w, h), ...}` read `x` before any id had assigned it. */
  datatype RegionError = UnboundCoordinates(id: string)

  /**
   * `get_sensor_regions_on_hand`: an entry for every data-sheet id, whichever
   * branch it takes. The coordinates are locals of the whole loop, so an id
   * that assigns none reuses the previous id's box; when the first id
   * assigns none there is no previous box, and the function raises.
   */
  method SdkRegions(sheet: seq<Channel>) returns (r: Result<map<string, Branch>, RegionError>)
    ensures r.Err? <==> |sheet| > 0 && !Places(SdkBranch(sheet[0].id))
    ensures r.Err? ==> r.error == UnboundCoordinates(sheet[0].id)
    ensures r.Ok? ==> r.value.Keys == SheetIds(sheet) && forall v :: v in r.value ==> r.value[v] == SdkBranch(v)
  {
    var regions := map[];
    for k := 0 to |sheet|
      invariant regions.Keys == SheetIds(sheet[..k])
      invariant forall v :: v in regions ==> regions[v] == SdkBranch(v)
      invariant k > 0 ==> Places(SdkBranch(sheet[0].id))
    {
      var b := RegionOf(sheet[k].id);
      if k == 0 && !Places(b) {
        // no earlier id has assigned the coordinates
        r := Err(UnboundCoordinates(sheet[k].id));
        return;
      }
      regions := regions[sheet[k].id := b];
      assert sheet[..k + 1] == sheet[..k] + [sheet[k]];
    }
    assert sheet[..|sheet|] == sheet;
    r := Ok(regions);
  }

  /**
   * As written, a data sheet whose first id is the pinky tip's stops the
   * script at start-up: that id takes no branch, so nothing has assigned
   * the box coordinates. The substring dispatch places it on the pinky tip.
   */
  lemma PinkyTipFirstUnplaced(sheet: seq<Channel>)
    requires |sheet| > 0 && sheet[0].id == "fingerone_tip_touch"
    ensures SdkBranch(sheet[0].id) == NoBranch && !Places(SdkBranch(sheet[0].id))
    ensures IntendedBranch(sheet[0].id) == FingerBranch(3, Some("tip")) && Places(IntendedBranch(sheet[0].id))
  {
    var v := sheet[0].id;
    MissingChar(v, "fingerfive", 8);
    MissingChar(v, "palm_touch", 1);
    assert OccursAt(v, "fingerone", 0);
    assert v[10] == 't' && v[11] == 'i' && v[12] == 'p';
    assert OccursAt(v, "tip", 10);
    ContainsIsOccurrence(v, "fingerone");
    ContainsIsOccurrence(v, "tip");
    IntendedBranchPlacesFingers(v);
  }

  /**
   * Only the four bare finger keys take the finger branch; an id that merely
   * contains one ("fingerone_tip_touch") does not.
   */
  lemma FingerBranchExactOnly(v: string)
    ensures SdkBranch(v).FingerBranch? <==> v in {"fingerone", "fingertwo", "fingerthree", "fingerfour"}
    ensures SdkBranch(v).FingerBranch? ==> SdkBranch(v).index < 4
  {
  }

  /** A string that lacks some character of p does not contain p. */
  lemma MissingChar(s: string, p: string, k: nat)
    requires k < |p| && forall i :: 0 <= i < |s| ==> s[i] != p[k]
    ensures !Contains(s, p)
  {
    ContainsIsOccurrence(s, p);
    forall j | 0 <= j
      ensures !OccursAt(s, p, j)
    {
      if j + |p| <= |s| {
        assert s[j..j + |p|][k] == s[j + k];
      }
    }
  }

  /** Every zone name has a "p"; no finger key has one. */
  lemma NoZoneInFingerKeys()
    ensures forall key, z :: key in FingerIndexByVar && z in FingerZones ==> !Contains(key, z)
  {
    forall key, z | key in FingerIndexByVar && z in FingerZones
      ensures !Contains(key, z)
    {
      var k := if z == "tip" then 2 else if z == "top" then 2 else 0;
      MissingChar(key, z, k);
    }
  }

  /**
   * As written, the finger zone loop never matches: the only ids that reach
   * it are the bare finger keys, and none of them contains "tip", "top" or
   * "palm", so no finger sensor gets a zone (and the loop leaves the
   * coordinates of the previous id in place).
   */
  lemma FingerZoneNeverMatches(v: string)
    ensures SdkBranch(v).FingerBranch? ==> SdkBranch(v).zone == None
  {
    if v in FingerIndexByVar {
      NoZoneInFingerKeys();
      assert forall i :: 0 <= i < |FingerZones| ==> FingerZones[i] in FingerZones;
    }
  }

  const FingerKeyOrder: seq<string> := ["fingerone", "fingertwo", "fingerthree", "fingerfour"]

  /**
   * The dispatch with the finger keys matched as substrings, in the order the
   * older map tests them (pinky 3, ring 2, middle 1, index 0): each finger
   * sensor gets its finger and its zone.
   */
  function IntendedBranch(v: string): (b: Branch)
    ensures b.FingerBranch? <==> exists i :: 0 <= i < |FingerKeyOrder| && Contains(v, FingerKeyOrder[i])
    ensures b.FingerBranch? ==> b.index < 4 && (b.zone.Some? <==> exists i :: 0 <= i < |FingerZones| && Contains(v, FingerZones[i]))
  {
    match FirstContained(FingerKeyOrder, v)
    case Some(i) => FingerBranch(3 - i, ZoneMatch(FingerZones, v))
    case None =>
      if Contains(v, "fingerfive") then ThumbBranch(ZoneMatch(ThumbZones, v))
      else if Contains(v, "palm_touch") then PalmBranch
      else NoBranch
  }

  /**
   * With the substring test, a pinky id with "tip" in it is placed on the
   * pinky's tip, where as written it takes no branch at all.
   */
  lemma IntendedBranchPlacesFingers(v: string)
    requires Contains(v, "fingerone") && Contains(v, "tip")
    requires !Contains(v, "fingerfive") && !Contains(v, "palm_touch") && v !in FingerIndexByVar
    ensures IntendedBranch(v) == FingerBranch(3, Some("tip"))
    ensures SdkBranch(v) == NoBranch
  {
    assert FirstContained(FingerKeyOrder, v) == Some(0);
    assert FirstContained(FingerZones, v) == Some(0);
  }

  // ---------------------------------------------------------------------------
  // The per-frame transform

  /** `smoothing_factor`. */
  const SdkAlpha: real := 0.9

  /** Clip to [0, 100], no scaling, state seeded with the raw reading, average while the state holds the channel. */
  const SdkPolicy: Policy := Policy(Some(100.0), 1.0, SeedRaw, EmaIfSeeded(SdkAlpha))

  /**
   * The display set-up: the region entries, an overlay for every one of
   * them, and empty baselines and state; the script stops when the region
   * dispatch raises.
   */
  method SdkSetup(sheet: seq<Channel>) returns (regions: Result<map<string, Branch>, RegionError>, t: Transformer?)
    requires SheetConsistent(sheet)
    ensures regions.Err? <==> |sheet| > 0 && !Places(SdkBranch(sheet[0].id))
    ensures regions.Err? ==> t == null
    ensures regions.Ok? ==>
      && regions.value.Keys == SheetIds(sheet) && (forall v :: v in regions.value ==> regions.value[v] == SdkBranch(v))
      && t != null && fresh(t) && t.Valid()
      && t.policy == SdkPolicy && t.sheet == sheet && t.overlays == SheetIds(sheet)
      && t.baselines == map[] && t.smoothed == map[]
  {
    regions := SdkRegions(sheet);
    if regions.Err? {
      return regions, null;
    }
    t := new Transformer(SdkPolicy, sheet, regions.value.Keys);
  }

  /** One display iteration: the transform over the data sheet; returns what each processed overlay shows. */
  method SdkFrame(t: Transformer, frame: Frame) returns (shown: seq<(string, Matrix)>)
    requires t.Valid() && t.policy == SdkPolicy
    modifies t
    ensures t.Valid()
    ensures t.Snapshot() == FrameUpdate(SdkPolicy, t.overlays, t.sheet, old(t.Snapshot()), |t.sheet|, frame)
    ensures shown == Processed(SdkPolicy, t.overlays, t.sheet, old(t.Snapshot()), |t.sheet|, frame)
  {
    shown := t.ProcessFrame(frame);
  }

  /**
   * Every processed channel's new stored value is the moving average of its
   * clipped difference (in [0, 100]) and its previous or seed value, and lies
   * between the two, entry by entry.
   */
  lemma SdkStoredValue(sheet: seq<Channel>, overlays: set<string>, s: State, ch: Channel, frame: Frame)
    requires SheetConsistent(sheet) && ch in sheet && Coherent(sheet, s)
    requires Processes(overlays, frame, ch)
    ensures var raw := Reading(frame, ch);
      var seeded := SeedChannel(SeedRaw, s, ch.id, raw);
      var d := ClippedDelta(raw, seeded.baselines[ch.id], Some(100.0));
      var prev := seeded.smoothed[ch.id];
      var r := Update(SdkPolicy, overlays, sheet, s, ch, frame).smoothed[ch.id];
      && SameShape(raw, seeded.baselines[ch.id]) && SameShape(prev, raw)
      && r == Blend(SdkAlpha, d, prev)
      && forall i, j :: 0 <= i < |r| && 0 <= j < |r[i]| ==>
           (d[i][j] <= r[i][j] <= prev[i][j]) || (prev[i][j] <= r[i][j] <= d[i][j])
  {
    var raw := Reading(frame, ch);
    var seeded := SeedChannel(SeedRaw, s, ch.id, raw);
    UpdatedValue(SdkPolicy, overlays, sheet, s, ch, frame);
    var d := ClippedDelta(raw, seeded.baselines[ch.id], Some(100.0));
    ScaledByOne(d);
    BlendBetween(SdkAlpha, d, seeded.smoothed[ch.id]);
  }

  /** The first usable reading of a channel is shown as 0.1 times itself. */
  lemma SdkFirstFrame(sheet: seq<Channel>, overlays: set<string>, s: State, ch: Channel, frame: Frame)
    requires SheetConsistent(sheet) && ch in sheet && Coherent(sheet, s)
    requires ch.id !in s.baselines && Processes(overlays, frame, ch)
    ensures var raw := Reading(frame, ch);
      var r := Update(SdkPolicy, overlays, sheet, s, ch, frame).smoothed[ch.id];
      SameShape(r, raw) &&
      forall i, j :: 0 <= i < |raw| && 0 <= j < |raw[i]| ==> r[i][j] == 0.1 * raw[i][j]
  {
    FirstReadingDamped(SdkPolicy, overlays, sheet, s, ch, frame);
  }

  /** A one-cell palm sensor, read as 4095 counts on its first frame. */
  const SdkProbeSheet: seq<Channel> := [Channel("palm_touch", 1, 1)]
  const SdkProbeFrame: Frame := map["palm_touch" := Some([4095.0])]

  /**
   * As written, a first reading of 4095 counts is stored as 409.5, above the
   * [0, 100] range the difference is clipped to.
   */
  lemma SdkRawSeedLeavesRange()
    ensures var s := State(map[], map[]);
      var r := Update(SdkPolicy, {"palm_touch"}, SdkProbeSheet, s, SdkProbeSheet[0], SdkProbeFrame);
      r.smoothed["palm_touch"] == [[409.5]] && !InRange(SdkPolicy, r)
  {
    var s := State(map[], map[]);
    var ch := SdkProbeSheet[0];
    assert Usable(SdkProbeFrame, ch);
    assert Reading(SdkProbeFrame, ch) == [[4095.0]] by {
      assert [4095.0][..1] == [4095.0] && [4095.0][1..] == [];
      assert FromFlat([4095.0], 1, 1) == [[4095.0]] + FromFlat([], 0, 1);
    }
    SdkFirstFrame(SdkProbeSheet, {"palm_touch"}, s, ch, SdkProbeFrame);
    var r := Update(SdkPolicy, {"palm_touch"}, SdkProbeSheet, s, ch, SdkProbeFrame);
    assert r.smoothed["palm_touch"][0][0] == 409.5;
    assert r.smoothed["palm_touch"][0] == [409.5];
  }

  /** The same transform with the state seeded with zeros, as the gram map seeds it. */
  const ZeroSeededSdkPolicy: Policy := Policy(Some(100.0), 1.0, SeedZeros, EmaIfSeeded(SdkAlpha))

  /**
   * Seeded with zeros, a channel's first frame is shown as all zeros, and
   * every stored value stays in [0, 100] frame after frame.
   */
  lemma ZeroSeededSdkInRange(sheet: seq<Channel>, overlays: set<string>, s: State, ch: Channel, frame: Frame)
    requires SheetConsistent(sheet) && ch in sheet && Coherent(sheet, s) && InRange(ZeroSeededSdkPolicy, s)
    ensures ch.id !in s.baselines && Processes(overlays, frame, ch) ==>
      AllEntries(Update(ZeroSeededSdkPolicy, overlays, sheet, s, ch, frame).smoothed[ch.id], 0.0, Some(0.0))
    ensures var r := FrameUpdate(ZeroSeededSdkPolicy, overlays, sheet, s, |sheet|, frame);
      forall v :: v in r.smoothed ==> AllEntries(r.smoothed[v], 0.0, Some(100.0))
  {
    if ch.id !in s.baselines && Processes(overlays, frame, ch) {
      FirstReadingZero(ZeroSeededSdkPolicy, overlays, sheet, s, ch, frame);
    }
    RangeKept(ZeroSeededSdkPolicy, overlays, sheet, s, |sheet|, frame);
  }
}
