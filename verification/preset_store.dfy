/** The custom-preset store: a map from preset id to preset, written whole to
    persistent storage every time it changes. */
module PresetStore {
  import opened Wrappers
  import opened Levels
  import opened Catalog
  import Decimal

  type Presets = map<string, Preset>

  /** The single storage slot the presets are persisted under, and the number
      of writes made to it. */
  datatype Storage = Storage(stored: Option<Presets>, writes: nat)

  datatype Manager = Manager(customPresets: Presets, storage: Storage)

  /** The presets found in storage: none when nothing has been stored. */
  function LoadCustomPresets(storage: Storage): (p: Presets)
    ensures storage.stored == None ==> p == map[]
    ensures storage.stored != None ==> p == storage.stored.value
  {
    storage.stored.GetOr(map[])
  }

  /** The store as constructed over `storage`. */
  function Create(storage: Storage): (m: Manager)
    ensures m.storage == storage
    ensures storage.stored == None ==> m.customPresets == map[]
    ensures storage.stored != None ==> m.customPresets == storage.stored.value
  {
    Manager(LoadCustomPresets(storage), storage)
  }

  /** The preset under `id`, if there is one. */
  function LoadPreset(m: Manager, id: string): (r: Option<Preset>)
    ensures r != None <==> id in m.customPresets
    ensures r != None ==> r.value == m.customPresets[id]
  {
    if id in m.customPresets then Some(m.customPresets[id]) else None
  }

  /** Writes the whole in-memory map to storage. */
  function SaveCustomPresets(m: Manager): (r: Manager)
    ensures r.customPresets == m.customPresets
    ensures r.storage == Storage(Some(m.customPresets), m.storage.writes + 1)
  {
    m.(storage := Storage(Some(m.customPresets), m.storage.writes + 1))
  }

  /** The id a save at clock reading `now` (milliseconds) receives. */
  function PresetId(now: nat): (id: string)
    ensures |id| > 7 && id[..7] == "custom-"
    ensures forall i :: 7 <= i < |id| ==> Decimal.IsDigit(id[i])
  {
    "custom-" + Decimal.NatToString(now)
  }

  /** The entries of a mix that are audible: exactly those above 0, with
      their volumes unchanged. */
  function ActiveSounds(states: map<string, Level>): (a: map<string, Level>)
    ensures a.Keys <= states.Keys
    ensures forall id :: id in states && states[id] > 0 ==> id in a
    ensures forall id :: id in a ==> a[id] == states[id] && a[id] > 0
  {
    map id | id in states && states[id] > 0 :: states[id]
  }

  /** Stores `name` with the audible part of `states` under the id drawn from
      `now`, persists the map and returns the id. Every other id keeps its
      preset, whether or not the new id was already taken. */
  function SavePreset(m: Manager, name: string, states: map<string, Level>, now: nat): (r: (Manager, string))
    ensures r.1 == PresetId(now)
    ensures LoadPreset(r.0, r.1) == Some(Preset(name, ActiveSounds(states)))
    ensures r.0.customPresets.Keys == m.customPresets.Keys + {r.1}
    ensures forall id :: id in m.customPresets && id != r.1 ==> r.0.customPresets[id] == m.customPresets[id]
    ensures r.0.storage == Storage(Some(r.0.customPresets), m.storage.writes + 1)
  {
    var id := PresetId(now);
    var preset := Preset(name, ActiveSounds(states));
    var m' := SaveCustomPresets(m.(customPresets := m.customPresets[id := preset]));
    (m', id)
  }

  /** Whether some stored preset has exactly this name. */
  function PresetNameExists(m: Manager, name: string): (b: bool)
    ensures b <==> exists id :: id in m.customPresets && m.customPresets[id].name == name
  {
    exists p :: p in m.customPresets.Values && p.name == name
  }

  /** Removes `id` and persists when it is present (returning true); does
      nothing at all, not even a write, when it is absent (returning false). */
  function DeletePreset(m: Manager, id: string): (r: (Manager, bool))
    ensures r.1 <==> id in m.customPresets
    ensures r.1 ==> r.0.customPresets == m.customPresets - {id}
    ensures r.1 ==> r.0.storage == Storage(Some(r.0.customPresets), m.storage.writes + 1)
    ensures !r.1 ==> r.0 == m
  {
    if id in m.customPresets then
      (SaveCustomPresets(m.(customPresets := m.customPresets - {id})), true)
    else
      (m, false)
  }

  /** The digits after `custom-` read back as the clock reading. */
  lemma PresetIdReadsBack(now: nat)
    ensures Decimal.ParseDigits(PresetId(now)[7..]) == now
  {
    assert PresetId(now)[7..] == Decimal.NatToString(now);
    Decimal.ParseNatToString(now);
  }

  /** Saves at different clock readings get different ids. */
  lemma DistinctClocksDistinctIds(t1: nat, t2: nat)
    requires t1 != t2
    ensures PresetId(t1) != PresetId(t2)
  {
    assert PresetId(t1)[7..] == Decimal.NatToString(t1);
    assert PresetId(t2)[7..] == Decimal.NatToString(t2);
    Decimal.NatToStringInjective(t1, t2);
  }

  /** A save under a fresh id adds one preset and keeps all others. */
  lemma SaveFreshAddsOne(m: Manager, name: string, states: map<string, Level>, now: nat)
    requires PresetId(now) !in m.customPresets
    ensures var m' := SavePreset(m, name, states, now).0;
      |m'.customPresets| == |m.customPresets| + 1
      && forall id :: id in m.customPresets ==> id in m'.customPresets && m'.customPresets[id] == m.customPresets[id]
  {
    var m' := SavePreset(m, name, states, now).0;
    assert m'.customPresets.Keys == m.customPresets.Keys + {PresetId(now)};
  }

  /** Two saves at the same clock reading: the second overwrites the first,
      which is lost. */
  lemma SameClockOverwrites(m: Manager, n1: string, s1: map<string, Level>, n2: string, s2: map<string, Level>, now: nat)
    ensures SavePreset(SavePreset(m, n1, s1, now).0, n2, s2, now).0.customPresets
         == SavePreset(m, n2, s2, now).0.customPresets
  {
    var a := SavePreset(SavePreset(m, n1, s1, now).0, n2, s2, now).0.customPresets;
    var b := SavePreset(m, n2, s2, now).0.customPresets;
    assert a.Keys == b.Keys;
  }

  /** Deleting a freshly saved preset restores the map as it was. */
  lemma DeleteUndoesFreshSave(m: Manager, name: string, states: map<string, Level>, now: nat)
    requires PresetId(now) !in m.customPresets
    ensures var (m1, id) := SavePreset(m, name, states, now);
      DeletePreset(m1, id).1 && DeletePreset(m1, id).0.customPresets == m.customPresets
  {
    var (m1, id) := SavePreset(m, name, states, now);
    assert m1.customPresets - {id} == m.customPresets;
  }

  /** After a save, the saved name is taken. */
  lemma SavedNameExists(m: Manager, name: string, states: map<string, Level>, now: nat)
    ensures PresetNameExists(SavePreset(m, name, states, now).0, name)
  {
    var (m1, id) := SavePreset(m, name, states, now);
    assert id in m1.customPresets && m1.customPresets[id].name == name;
  }

  /** What a save or a successful delete writes is what a new store built
      over the same storage reads back. */
  lemma PersistenceRoundTrip(m: Manager, name: string, states: map<string, Level>, now: nat, id: string)
    ensures var m1 := SavePreset(m, name, states, now).0;
      Create(m1.storage).customPresets == m1.customPresets
    ensures var (m2, ok) := DeletePreset(m, id);
      ok ==> Create(m2.storage).customPresets == m2.customPresets
  {
  }
}
