/**
 * The two animation tables of main.py and the lookups the window makes in
 * them. `ANIMATION_LIST` is an ordered dictionary from display name to the
 * name the device uses; `ANIMATION_CONF_INDEXES` gives each device name the
 * index of its configuration page.
 */
module Animations {
  import opened Wrappers

  /** ANIMATION_LIST, in insertion order: (display name, device name). */
  const AnimationList: seq<(string, string)> := [
    ("Single Color", "SingleColor"),
    ("Rainbow", "Rainbow"),
    ("Glitter Rainbow", "GlitterRainbow"),
    ("Colorloop", "Colorloop"),
    ("Magic", "Magic"),
    ("Fire", "Fire"),
    ("Colored Lights", "ColoredLights"),
    ("Fade", "Fade"),
    ("Flash", "Flash"),
    ("Wipe", "Wipe"),
    ("Firework", "Firework"),
    ("Random", "Random"),
    ("Random Color", "RandomColor")
  ]

  /** The page shown for a device name that has no page of its own. */
  const UnknownPage: nat := 0

  /** ANIMATION_CONF_INDEXES. */
  const ConfIndexes: map<string, nat> := map[
    "SingleColor" := 1,
    "Rainbow" := 2,
    "GlitterRainbow" := 3,
    "Colorloop" := 4,
    "Magic" := 5,
    "Fire" := 6,
    "ColoredLights" := 7,
    "Fade" := 8,
    "Flash" := 9,
    "Wipe" := 10,
    "Firework" := 11,
    "Random" := 12,
    "RandomColor" := 13
  ]

  /** `list(ANIMATION_LIST.keys())` */
  function Keys(): seq<string> {
    seq(|AnimationList|, i requires 0 <= i < |AnimationList| => AnimationList[i].0)
  }

  /** `list(ANIMATION_LIST.values())` */
  function Values(): seq<string> {
    seq(|AnimationList|, i requires 0 <= i < |AnimationList| => AnimationList[i].1)
  }

  predicate Distinct(s: seq<string>) {
    forall i, j :: 0 <= i < j < |s| ==> s[i] != s[j]
  }

  /** `s.index(x)`: the first position holding x; None where Python raises ValueError. */
  function IndexOf(s: seq<string>, x: string): (r: Option<nat>)
    ensures r.Some? <==> x in s
    ensures r.Some? ==> r.value < |s| && s[r.value] == x
                        && forall k :: 0 <= k < r.value ==> s[k] != x
  {
    if s == [] then None
    else if s[0] == x then Some(0)
    else match IndexOf(s[1..], x)
      case Some(i) => Some(i + 1)
      case None => None
  }

  /** `ANIMATION_LIST[name]`; None where Python raises KeyError. */
  function DeviceName(displayName: string): (r: Option<string>)
    ensures r.Some? <==> displayName in Keys()
  {
    match IndexOf(Keys(), displayName)
    case Some(i) => Some(Values()[i])
    case None => None
  }

  /**
   * The name shown for a device name the controller reports: the display
   * name stored at the same position, or "Unknown".
   */
  function DisplayName(deviceName: string): (name: string)
    ensures deviceName in Values() ==> name in Keys()
    ensures deviceName !in Values() ==> name == "Unknown"
  {
    match IndexOf(Values(), deviceName)
    case Some(i) => Keys()[i]
    case None => "Unknown"
  }

  /** `update_animation_page`: the configuration page for a device name. */
  function ConfPage(deviceName: string): (page: nat)
    ensures page <= 13
  {
    if deviceName in ConfIndexes then ConfIndexes[deviceName] else UnknownPage
  }

  /** Neither display names nor device names repeat, so both lookups are well defined. */
  lemma TablesDistinct()
    ensures |Keys()| == |Values()| == 13
    ensures Distinct(Keys()) && Distinct(Values())
  {
  }

  /** The reverse lookup of the i-th device name finds the i-th display name. */
  lemma DisplayNameAt(i: nat)
    requires i < |AnimationList|
    ensures DisplayName(AnimationList[i].1) == AnimationList[i].0
  {
    TablesDistinct();
    var v := Values();
    assert v[i] == AnimationList[i].1;
    var j := IndexOf(v, v[i]).value;
    assert j == i;
  }

  /** A device name outside the table is shown as "Unknown". */
  lemma DisplayNameUnknown(deviceName: string)
    requires deviceName !in Values()
    ensures DisplayName(deviceName) == "Unknown"
  {
  }

  /** Selecting a display name and reading the echo back shows the same name. */
  lemma DisplayNameOfDeviceName(displayName: string)
    requires displayName in Keys()
    ensures DeviceName(displayName).Some?
    ensures DisplayName(DeviceName(displayName).value) == displayName
  {
    var i := IndexOf(Keys(), displayName).value;
    DisplayNameAt(i);
  }

  /**
   * The page table covers exactly the device names of ANIMATION_LIST and
   * gives the i-th one page i + 1, so distinct animations get distinct pages
   * and only names outside the table fall back to the unknown page.
   */
  lemma ConfPagesMatchList()
    ensures forall name :: name in ConfIndexes <==> name in Values()
    ensures forall i :: 0 <= i < |AnimationList| ==> ConfPage(AnimationList[i].1) == i + 1
  {
    assert Values() == ["SingleColor", "Rainbow", "GlitterRainbow", "Colorloop", "Magic", "Fire",
                        "ColoredLights", "Fade", "Flash", "Wipe", "Firework", "Random", "RandomColor"];
  }

  /** A device name outside ANIMATION_LIST selects the unknown page. */
  lemma ConfPageUnknown(deviceName: string)
    requires deviceName !in Values()
    ensures ConfPage(deviceName) == UnknownPage
  {
    ConfPagesMatchList();
  }
}
