/**
 * The gram map's names for the tactile regions: the label each channel id is
 * shown under in the region table, and whether the map recognises the
 * channel and gives it an overlay at all.
 *
 * Both decisions test substrings of the id. The label is "Palm" only for the
 * palm sensor itself; a finger's palm-side pad ("fingerthree_palm_touch") is
 * named after its finger.
 */
module GramRegions {

  import opened Wrappers
  import opened Text

  /** The four non-thumb fingers, in the order both decisions test them. */
  const FingerKeys: seq<string> := ["fingerone", "fingertwo", "fingerthree", "fingerfour"]
  const FingerNames: seq<string> := ["Pinky", "Ring", "Middle", "Index"]

  /** The segment of a finger or the thumb a channel sits on. */
  datatype Zone = Tip | Pad | Mid | Prox

  /** The `'mid' in var or 'middle' in var` test. */
  predicate HasMid(v: string) {
    Contains(v, "mid") || Contains(v, "middle")
  }

  /** Any id with "middle" in it also has "mid" in it, so the second half of `HasMid` never decides. */
  lemma HasMidIsMid(v: string)
    ensures HasMid(v) <==> Contains(v, "mid")
  {
    if Contains(v, "middle") {
      ContainsPrefix(v, "middle", "mid");
    }
  }

  /** The zone tests, in the order the scripts make them: tip, top, mid/middle, palm. */
  function ZoneOf(v: string): (z: Option<Zone>)
    ensures z == Some(Tip) <==> Contains(v, "tip")
    ensures z == Some(Pad) <==> !Contains(v, "tip") && Contains(v, "top")
    ensures z == Some(Mid) <==> !Contains(v, "tip") && !Contains(v, "top") && HasMid(v)
    ensures z == Some(Prox) <==> !Contains(v, "tip") && !Contains(v, "top") && !HasMid(v) && Contains(v, "palm")
    ensures z.None? <==> !Contains(v, "tip") && !Contains(v, "top") && !HasMid(v) && !Contains(v, "palm")
  {
    if Contains(v, "tip") then Some(Tip)
    else if Contains(v, "top") then Some(Pad)
    else if HasMid(v) then Some(Mid)
    else if Contains(v, "palm") then Some(Prox)
    else None
  }

  function ThumbLabel(z: Option<Zone>): string {
    match z
    case None => "Thumb"
    case Some(Tip) => "Thumb Tip"
    case Some(Pad) => "Thumb Pad"
    case Some(Mid) => "Thumb Middle"
    case Some(Prox) => "Thumb Base"
  }

  function FingerLabel(name: string, z: Option<Zone>): string {
    match z
    case None => name
    case Some(Tip) => name + " Tip"
    case Some(Pad) => name + " Pad"
    case Some(Mid) => name + " Mid"
    case Some(Prox) => name + " Prox"
  }

  /**
   * `pretty_region_name`: exactly "palm_touch" is the Palm; then any id with
   * "fingerfive" is a thumb region; then the first finger key the id
   * contains names the finger; any other id is its own label.
   */
  function PrettyRegionName(v: string): (shown: string)
    ensures v == "palm_touch" ==> shown == "Palm"
    ensures v != "palm_touch" && Contains(v, "fingerfive") ==> shown == ThumbLabel(ZoneOf(v))
    ensures v != "palm_touch" && !Contains(v, "fingerfive") && FirstContained(FingerKeys, v).Some? ==>
      shown == FingerLabel(FingerNames[FirstContained(FingerKeys, v).value], ZoneOf(v))
    ensures v != "palm_touch" && !Contains(v, "fingerfive") && FirstContained(FingerKeys, v).None? ==> shown == v
  {
    if v == "palm_touch" then "Palm"
    else if Contains(v, "fingerfive") then
      if Contains(v, "tip") then "Thumb Tip"
      else if Contains(v, "top") then "Thumb Pad"
      else if HasMid(v) then "Thumb Middle"
      else if Contains(v, "palm") then "Thumb Base"
      else "Thumb"
    else
      match FirstContained(FingerKeys, v)
      case None => v
      case Some(i) =>
        var name := FingerNames[i];
        if Contains(v, "tip") then name + " Tip"
        else if Contains(v, "top") then name + " Pad"
        else if HasMid(v) then name + " Mid"
        else if Contains(v, "palm") then name + " Prox"
        else name
  }

  lemma ThumbLabelNotPalm(z: Option<Zone>)
    ensures ThumbLabel(z) != "Palm"
  {
    assert ThumbLabel(z)[1] == 'h';
  }

  lemma FingerLabelNotPalm(i: nat, z: Option<Zone>)
    requires i < |FingerNames|
    ensures FingerLabel(FingerNames[i], z) != "Palm"
  {
    var shown := FingerLabel(FingerNames[i], z);
    assert shown[..|FingerNames[i]|] == FingerNames[i];
    assert FingerNames[i][0] != 'P' || FingerNames[i][1] != 'a';
  }

  /**
   * Only the palm sensor itself is labelled Palm (and an id that is already
   * "Palm", which no rule matches and so passes through unchanged); no finger
   * or thumb pad is, whatever "palm" appears in its id.
   */
  lemma PalmOnlyForPalmSensor(v: string)
    ensures PrettyRegionName(v) == "Palm" <==> v == "palm_touch" || v == "Palm"
  {
    if v == "Palm" {
      assert !Contains(v, "fingerfive");
      assert forall j :: 0 <= j < |FingerKeys| ==> |FingerKeys[j]| > |v|;
    } else if v != "palm_touch" {
      if Contains(v, "fingerfive") {
        ThumbLabelNotPalm(ZoneOf(v));
      } else if FirstContained(FingerKeys, v).Some? {
        FingerLabelNotPalm(FirstContained(FingerKeys, v).value, ZoneOf(v));
      }
    }
  }

  /** The palm sensor's id names no finger. */
  lemma PalmSensorNamesNoFinger()
    ensures !AnyFingerKey("palm_touch") && !Contains("palm_touch", "fingerfive")
  {
  }

  // ---------------------------------------------------------------------------
  // Where the gram map places a channel

  datatype Placement =
    | FingerAt(finger: nat, zone: Zone)   // 0 = pinky ... 3 = index, left to right
    | ThumbAt(zone: Zone)
    | PalmCenter

  predicate AnyFingerKey(v: string) {
    Contains(v, "fingerone") || Contains(v, "fingertwo") || Contains(v, "fingerthree") || Contains(v, "fingerfour")
  }

  /**
   * The branch of the gram map's `get_sensor_regions_on_hand` that gives the
   * channel a box: a non-thumb finger key and a zone, "fingerfive" and a
   * zone, or exactly "palm_touch". Any other id gets no box, hence no overlay.
   */
  function GramPlacement(v: string): (p: Option<Placement>)
    ensures p.Some? <==> ((AnyFingerKey(v) || Contains(v, "fingerfive")) && ZoneOf(v).Some?) || v == "palm_touch"
    ensures p == Some(PalmCenter) <==> v == "palm_touch"
    ensures p.Some? && p.value.FingerAt? <==> AnyFingerKey(v) && ZoneOf(v).Some?
    ensures p.Some? && p.value.FingerAt? ==> p.value.finger < 4 && ZoneOf(v) == Some(p.value.zone)
    ensures p.Some? && p.value.ThumbAt? <==> !AnyFingerKey(v) && Contains(v, "fingerfive") && ZoneOf(v).Some?
    ensures p.Some? && p.value.ThumbAt? ==> ZoneOf(v) == Some(p.value.zone)
  {
    PalmSensorNamesNoFinger();
    if AnyFingerKey(v) then
      var idx :=
        if Contains(v, "fingerone") then 0
        else if Contains(v, "fingertwo") then 1
        else if Contains(v, "fingerthree") then 2
        else 3;
      match ZoneOf(v)
      case None => None
      case Some(z) => Some(FingerAt(idx, z))
    else if Contains(v, "fingerfive") then
      match ZoneOf(v)
      case None => None
      case Some(z) => Some(ThumbAt(z))
    else if v == "palm_touch" then Some(PalmCenter)
    else None
  }

  /** The labels the region table lists first, in this order. */
  const Preferred: seq<string> := [
    "Palm",
    "Index Tip", "Index Pad", "Index Mid", "Index Prox",
    "Middle Tip", "Middle Pad", "Middle Mid", "Middle Prox",
    "Ring Tip", "Ring Pad", "Ring Mid", "Ring Prox",
    "Pinky Tip", "Pinky Pad", "Pinky Mid", "Pinky Prox",
    "Thumb Tip", "Thumb Pad", "Thumb Middle", "Thumb Base"]

  function Elems(s: seq<string>): set<string> {
    set x | x in s
  }

  ghost predicate NoDuplicates(s: seq<string>) {
    forall i, j :: 0 <= i < j < |s| ==> s[i] != s[j]
  }

  // The preferred labels are distinct: the first two and last two characters
  // of each label already tell it apart from every other one.

  /** The first two and last two characters of a label. */
  function Key(s: string): (char, char, char, char)
    requires |s| >= 2
  {
    (s[0], s[1], s[|s| - 2], s[|s| - 1])
  }

  /** The position in Preferred of the label with this key. */
  function KeyRank(k: (char, char, char, char)): nat {
    match k
    case ('P', 'a', 'l', 'm') => 0
    case ('I', 'n', 'i', 'p') => 1
    case ('I', 'n', 'a', 'd') => 2
    case ('I', 'n', 'i', 'd') => 3
    case ('I', 'n', 'o', 'x') => 4
    case ('M', 'i', 'i', 'p') => 5
    case ('M', 'i', 'a', 'd') => 6
    case ('M', 'i', 'i', 'd') => 7
    case ('M', 'i', 'o', 'x') => 8
    case ('R', 'i', 'i', 'p') => 9
    case ('R', 'i', 'a', 'd') => 10
    case ('R', 'i', 'i', 'd') => 11
    case ('R', 'i', 'o', 'x') => 12
    case ('P', 'i', 'i', 'p') => 13
    case ('P', 'i', 'a', 'd') => 14
    case ('P', 'i', 'i', 'd') => 15
    case ('P', 'i', 'o', 'x') => 16
    case ('T', 'h', 'i', 'p') => 17
    case ('T', 'h', 'a', 'd') => 18
    case ('T', 'h', 'l', 'e') => 19
    case ('T', 'h', 's', 'e') => 20
    case _ => |Preferred|
  }

  lemma RankOfPreferred()
    ensures forall i :: 0 <= i < |Preferred| ==> |Preferred[i]| >= 2 && KeyRank(Key(Preferred[i])) == i
  {
  }

  /** No preferred label is listed twice. */
  lemma PreferredDistinct()
    ensures NoDuplicates(Preferred)
  {
    RankOfPreferred();
  }

  /** The finger index of the placement is the first finger key in the id, the one that names it. */
  lemma PlacementFingerIsFirstKey(v: string)
    requires GramPlacement(v).Some? && GramPlacement(v).value.FingerAt?
    ensures FirstContained(FingerKeys, v) == Some(GramPlacement(v).value.finger)
  {
    var r := FirstContained(FingerKeys, v);
    if Contains(v, "fingerone") {
      assert Contains(v, FingerKeys[0]);
    } else if Contains(v, "fingertwo") {
      assert Contains(v, FingerKeys[1]) && !Contains(v, FingerKeys[0]);
    } else if Contains(v, "fingerthree") {
      assert Contains(v, FingerKeys[2]) && !Contains(v, FingerKeys[0]) && !Contains(v, FingerKeys[1]);
    } else {
      assert Contains(v, FingerKeys[3]) && !Contains(v, FingerKeys[0]) && !Contains(v, FingerKeys[1]) && !Contains(v, FingerKeys[2]);
    }
  }

  /**
   * The box and the label agree: a channel placed on finger i's zone z is
   * labelled with finger i's name and z's suffix (unless its id also
   * contains "fingerfive", which the label tests first), a thumb channel
   * with the thumb label for z, and the palm sensor as Palm.
   */
  lemma PlacementMatchesLabel(v: string)
    requires GramPlacement(v).Some?
    ensures match GramPlacement(v).value
      case FingerAt(i, z) =>
        !Contains(v, "fingerfive") ==> PrettyRegionName(v) == FingerLabel(FingerNames[i], Some(z))
      case ThumbAt(z) => PrettyRegionName(v) == ThumbLabel(Some(z))
      case PalmCenter => PrettyRegionName(v) == "Palm"
  {
    PalmSensorNamesNoFinger();
    if GramPlacement(v).value.FingerAt? {
      PlacementFingerIsFirstKey(v);
    }
  }

  lemma FingerLabelPreferred(i: nat, z: Zone)
    requires i < 4
    ensures FingerLabel(FingerNames[i], Some(z)) in Preferred
  {
    var offset := match z case Tip => 0 case Pad => 1 case Mid => 2 case Prox => 3;
    var k := 1 + 4 * (3 - i) + offset;
    if i == 0 {
      assert Preferred[k] == FingerLabel("Pinky", Some(z));
    } else if i == 1 {
      assert Preferred[k] == FingerLabel("Ring", Some(z));
    } else if i == 2 {
      assert Preferred[k] == FingerLabel("Middle", Some(z));
    } else {
      assert Preferred[k] == FingerLabel("Index", Some(z));
    }
  }

  /** Every channel the gram map places is listed under one of the preferred labels. */
  lemma PlacedLabelIsPreferred(v: string)
    requires GramPlacement(v).Some?
    ensures PrettyRegionName(v) in Preferred
  {
    PlacementMatchesLabel(v);
    PalmSensorNamesNoFinger();
    match GramPlacement(v).value
    case FingerAt(i, z) =>
      if Contains(v, "fingerfive") {
        assert AnyFingerKey(v) && ZoneOf(v) == Some(z);
        assert PrettyRegionName(v) == ThumbLabel(Some(z));
      } else {
        FingerLabelPreferred(i, z);
      }
    case ThumbAt(z) =>
    case PalmCenter =>
  }
}
