/** The sound catalog and the built-in presets shipped with it. */
module Catalog {
  import opened Levels

  /** A preset: a display name and the volume of each channel it plays.
      Built-in and custom presets share this shape. */
  datatype Preset = Preset(name: string, sounds: map<string, Level>)

  /** The channel ids, in catalog order. */
  const SoundIds: seq<string> :=
    ["rain", "ocean", "forest", "fireplace", "thunder", "wind", "cafe", "night"]

  /** The channel ids as a set. */
  const ChannelIds: set<string> :=
    {"rain", "ocean", "forest", "fireplace", "thunder", "wind", "cafe", "night"}

  /** The built-in presets, keyed by the `data-preset` value of their buttons. */
  const DefaultPresets: map<string, Preset> := map[
    "focus" := Preset("Focus", map["rain" := 30, "cafe" := 20, "wind" := 10]),
    "relax" := Preset("Relax", map["ocean" := 40, "forest" := 30, "wind" := 20]),
    "sleep" := Preset("Sleep", map["rain" := 40, "night" := 30, "wind" := 15])
  ]

  /** Eight channels, no id listed twice. */
  lemma CatalogIdsDistinct()
    ensures |SoundIds| == 8
    ensures forall i, j :: 0 <= i < j < |SoundIds| ==> SoundIds[i] != SoundIds[j]
    ensures |ChannelIds| == 8
    ensures forall id :: id in ChannelIds <==> id in SoundIds
  {
  }

  /** A built-in preset's shape: three catalog channels at volumes 1..100. */
  predicate BuiltinShape(p: Preset)
  {
    && p.sounds.Keys <= ChannelIds
    && |p.sounds| == 3
    && forall id :: id in p.sounds ==> 1 <= p.sounds[id] <= 100
  }

  /** Three distinct catalog channels at audible volumes make a built-in
      shape. */
  lemma ThreeChannels(name: string, a: string, b: string, c: string, va: Level, vb: Level, vc: Level)
    requires a in ChannelIds && b in ChannelIds && c in ChannelIds
    requires a != b && b != c && a != c
    requires va > 0 && vb > 0 && vc > 0
    ensures BuiltinShape(Preset(name, map[a := va, b := vb, c := vc]))
  {
    var sounds := map[a := va, b := vb, c := vc];
    assert sounds.Keys == {a, b} + {c};
    assert |{a, b}| == 2;
  }

  /** Exactly the presets focus, relax and sleep; each names three catalog
      channels at volumes 1..100. */
  lemma DefaultPresetsWellFormed()
    ensures DefaultPresets.Keys == {"focus", "relax", "sleep"}
    ensures forall key :: key in DefaultPresets ==> BuiltinShape(DefaultPresets[key])
  {
    ThreeChannels("Focus", "rain", "cafe", "wind", 30, 20, 10);
    ThreeChannels("Relax", "ocean", "forest", "wind", 40, 30, 20);
    ThreeChannels("Sleep", "rain", "night", "wind", 40, 30, 15);
  }
}
