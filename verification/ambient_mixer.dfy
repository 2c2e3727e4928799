/** The mixer session (`AmbientMixer`): per-channel stored volumes, the
    master volume, the audio elements, the aggregate playing flag, the page
    state it reads and writes, the sleep timer and the custom-preset store.
    Every handler is a function from the session before to the session after. */
module AmbientMixer {
  import opened Wrappers
  import opened Levels
  import opened Catalog
  import PresetStore
  import CountdownTimer
  import Ui
  import Text

  /** An audio element: paused or not, and its volume in 0..1. */
  datatype Audio = Audio(paused: bool, volume: real)

  /** `soundState` is `currentSoundState`; `audio` is the sound manager's
      element map and `isPlaying` its aggregate flag. */
  datatype Mixer = Mixer(
    soundState: map<string, Level>,
    masterVolume: Level,
    audio: map<string, Audio>,
    isPlaying: bool,
    view: Ui.View,
    timer: CountdownTimer.Timer,
    presets: PresetStore.Manager)

  /** The shape every session keeps: audio only for catalog channels, one
      slider per catalog channel, a stored volume for every catalog channel,
      and a timer in one of its reachable states. */
  predicate Valid(m: Mixer)
  {
    && m.audio.Keys <= ChannelIds
    && m.view.sliders.Keys == ChannelIds
    && ChannelIds <= m.soundState.Keys
    && CountdownTimer.Valid(m.timer)
  }

  /** A playing channel's slider shows the volume stored for it. */
  predicate Coherent(m: Mixer)
  {
    forall id :: id in m.audio && !m.audio[id].paused && id in m.view.sliders && id in m.soundState ==>
      m.view.sliders[id] == m.soundState[id]
  }

  /** A playing channel's audio volume is its slider scaled by the master. */
  predicate LevelsApplied(m: Mixer)
  {
    forall id :: id in m.audio && !m.audio[id].paused && id in m.view.sliders ==>
      m.audio[id].volume == OutputLevel(m.view.sliders[id], m.masterVolume)
  }

  predicate AnyPlaying(audio: map<string, Audio>)
  {
    exists id :: id in audio && !audio[id].paused
  }

  predicate AllPaused(audio: map<string, Audio>)
  {
    forall id :: id in audio ==> audio[id].paused
  }

  /** Pausing every element (the sound manager's `pauseAll` and `stopAll`). */
  function PauseAll(audio: map<string, Audio>): (r: map<string, Audio>)
    ensures r.Keys == audio.Keys && AllPaused(r)
    ensures forall id :: id in r ==> r[id].volume == audio[id].volume
  {
    map id | id in audio :: audio[id].(paused := true)
  }

  /** The level a channel resumes at: its slider, or 50 when the slider is at 0. */
  function ResumeLevel(slider: Level): (v: Level)
    ensures v > 0
    ensures slider > 0 ==> v == slider
    ensures slider == 0 ==> v == 50
  {
    if slider == 0 then 50 else slider
  }

  /** Setting every catalog channel's stored volume to 0; other entries kept. */
  function ZeroChannels(state: map<string, Level>): (r: map<string, Level>)
    ensures r.Keys == state.Keys + ChannelIds
    ensures forall id :: id in ChannelIds ==> r[id] == 0
    ensures forall id :: id in state && id !in ChannelIds ==> r[id] == state[id]
  {
    state + map id | id in ChannelIds :: 0
  }

  /** The master, the timer, the store, the highlighted preset, the timer
      text and the dialog are as they were. */
  predicate KeepsRest(m: Mixer, r: Mixer)
  {
    && r.masterVolume == m.masterVolume
    && r.timer == m.timer
    && r.presets == m.presets
    && r.view.masterSlider == m.view.masterSlider
    && r.view.activePreset == m.view.activePreset
    && r.view.timerDisplay == m.view.timerDisplay
    && r.view.modalOpen == m.view.modalOpen
  }

  /** The session after `init()`: an element for each channel whose sound
      loaded (`loaded`), paused at full element volume; every catalog channel
      stored at 0; master 100; the timer idle; presets read from `storage`. */
  function Init(storage: PresetStore.Storage, loaded: set<string>): (m: Mixer)
    requires loaded <= ChannelIds
    ensures Valid(m) && Coherent(m) && LevelsApplied(m)
    ensures m.audio.Keys == loaded && AllPaused(m.audio) && !m.isPlaying
    ensures forall id :: id in ChannelIds ==> m.soundState[id] == 0 && m.view.sliders[id] == 0
    ensures m.masterVolume == 100 && !m.timer.isRunning
    ensures m.presets.customPresets == PresetStore.LoadCustomPresets(storage)
    ensures m.view == Ui.Rendered()
  {
    Mixer(
      map id | id in ChannelIds :: 0,
      100,
      map id | id in loaded :: Audio(true, 1.0),
      false,
      Ui.Rendered(),
      CountdownTimer.Idle,
      PresetStore.Create(storage))
  }

  /** `updateMainPlayButtonState()`: the aggregate flag becomes whether any
      element is unpaused. */
  function UpdateMainPlayButtonState(m: Mixer): (r: Mixer)
    ensures r.isPlaying <==> exists id :: id in m.audio && !m.audio[id].paused
    ensures r.(isPlaying := m.isPlaying) == m
  {
    m.(isPlaying := AnyPlaying(m.audio))
  }

  /** `toggleSound(id)`. Without an element for `id` nothing changes. A
      paused channel is turned on at its slider's level, or at 50 (also
      written to the slider) when the slider is at 0; that level is stored.
      `written` is the element volume the sound manager's `setVolume` stores,
      which is outside this model. A playing channel is paused and its stored
      volume zeroed; its slider keeps its position. */
  function ToggleSound(m: Mixer, id: string, written: real): (r: Mixer)
    requires Valid(m)
    ensures Valid(r) && KeepsRest(m, r)
    ensures id !in m.audio ==> r == m
    ensures id in m.audio && m.audio[id].paused ==>
              var v := if m.view.sliders[id] == 0 then 50 else m.view.sliders[id];
              && r.soundState == m.soundState[id := v]
              && r.view.sliders == m.view.sliders[id := v]
              && r.audio == m.audio[id := Audio(false, written)]
              && r.isPlaying
    ensures id in m.audio && !m.audio[id].paused ==>
              && r.soundState == m.soundState[id := 0]
              && r.view.sliders == m.view.sliders
              && r.audio == m.audio[id := m.audio[id].(paused := true)]
              && (r.isPlaying <==> exists other :: other in m.audio && other != id && !m.audio[other].paused)
  {
    if id !in m.audio then
      m
    else if m.audio[id].paused then
      var slider := m.view.sliders[id];
      var volume := ResumeLevel(slider);
      var view := if slider == 0 then Ui.UpdateVolumeDisplay(m.view, id, volume) else m.view;
      var audio := m.audio[id := Audio(false, written)];
      assert id in audio && !audio[id].paused;
      UpdateMainPlayButtonState(m.(view := view, soundState := m.soundState[id := volume], audio := audio))
    else
      var audio := m.audio[id := m.audio[id].(paused := true)];
      assert (exists other :: other in audio && !audio[other].paused)
         <==> (exists other :: other in m.audio && other != id && !m.audio[other].paused) by {
        forall other | other in m.audio && other != id && !m.audio[other].paused
          ensures other in audio && !audio[other].paused
        {
        }
      }
      UpdateMainPlayButtonState(m.(audio := audio, soundState := m.soundState[id := 0]))
  }

  /** The resume branch of `toggleAllSounds()`: every channel with an
      element and a slider resumes at its resume level (stored, shown on its
      slider, scaled by the master into its element) and every element
      plays. */
  function ResumeAll(m: Mixer): (r: Mixer)
    ensures m.audio.Keys == r.audio.Keys && KeepsRest(m, r)
    ensures r.view.sliders.Keys == m.view.sliders.Keys
    ensures r.soundState.Keys == m.soundState.Keys + (m.audio.Keys * m.view.sliders.Keys)
    ensures r.isPlaying && forall id :: id in r.audio ==> !r.audio[id].paused
    ensures forall id :: id in m.audio && id in m.view.sliders ==>
              var v := ResumeLevel(m.view.sliders[id]);
              && id in r.soundState && r.soundState[id] == v && r.view.sliders[id] == v
              && r.audio[id].volume == OutputLevel(v, m.masterVolume)
    ensures forall id :: id in m.soundState && id !in m.audio ==> r.soundState[id] == m.soundState[id]
    ensures forall id :: id in m.view.sliders && id !in m.audio ==> r.view.sliders[id] == m.view.sliders[id]
  {
    var resumed := map id | id in m.audio && id in m.view.sliders :: ResumeLevel(m.view.sliders[id]);
    assert resumed.Keys == m.audio.Keys * m.view.sliders.Keys;
    assert (m.soundState + resumed).Keys == m.soundState.Keys + resumed.Keys;
    var audio := map id | id in m.audio ::
      if id in resumed then Audio(false, OutputLevel(resumed[id], m.masterVolume))
      else m.audio[id].(paused := false);
    m.(soundState := m.soundState + resumed,
       view := Ui.UpdateVolumeDisplays(m.view, resumed),
       audio := audio,
       isPlaying := true)
  }

  /** `toggleAllSounds()`. When the aggregate flag is set, every element is
      paused; stored volumes and sliders keep their values. Otherwise every
      channel resumes as `ResumeAll` says. */
  function ToggleAllSounds(m: Mixer): (r: Mixer)
    ensures m.audio.Keys == r.audio.Keys && KeepsRest(m, r)
    ensures r.view.sliders.Keys == m.view.sliders.Keys
    ensures m.isPlaying ==> r.soundState.Keys == m.soundState.Keys
    ensures !m.isPlaying ==> r.soundState.Keys == m.soundState.Keys + (m.audio.Keys * m.view.sliders.Keys)
    ensures Valid(m) ==> r.soundState.Keys == m.soundState.Keys
    ensures Valid(m) ==> Valid(r)
    ensures m.isPlaying ==>
              && r.audio == PauseAll(m.audio) && !r.isPlaying
              && r.soundState == m.soundState && r.view == m.view
    ensures !m.isPlaying ==> r.isPlaying && forall id :: id in r.audio ==> !r.audio[id].paused
    ensures !m.isPlaying ==> forall id :: id in m.audio && id in m.view.sliders ==>
              var v := ResumeLevel(m.view.sliders[id]);
              && id in r.soundState && r.soundState[id] == v && r.view.sliders[id] == v
              && r.audio[id].volume == OutputLevel(v, m.masterVolume)
    ensures !m.isPlaying ==> forall id :: id in m.soundState && id !in m.audio ==> r.soundState[id] == m.soundState[id]
    ensures !m.isPlaying ==> forall id :: id in m.view.sliders && id !in m.audio ==> r.view.sliders[id] == m.view.sliders[id]
  {
    if m.isPlaying then
      m.(audio := PauseAll(m.audio), isPlaying := false)
    else
      ResumeAll(m)
  }

  /** `setSoundVolume(id, volume)`: stores the volume, sets the element's
      volume to `volume * master / 10000` (when there is an element), moves
      the slider, and refreshes the aggregate flag. No other channel changes. */
  function SetSoundVolume(m: Mixer, id: string, volume: Level): (r: Mixer)
    ensures KeepsRest(m, r)
    ensures Valid(m) ==> Valid(r)
    ensures r.soundState == m.soundState[id := volume]
    ensures id in m.audio ==>
              r.audio == m.audio[id := m.audio[id].(volume := OutputLevel(volume, m.masterVolume))]
    ensures id !in m.audio ==> r.audio == m.audio
    ensures r.view == Ui.UpdateVolumeDisplay(m.view, id, volume)
    ensures r.isPlaying <==> AnyPlaying(r.audio)
  {
    var audio := if id in m.audio then m.audio[id := m.audio[id].(volume := OutputLevel(volume, m.masterVolume))] else m.audio;
    UpdateMainPlayButtonState(m.(
      soundState := m.soundState[id := volume],
      audio := audio,
      view := Ui.UpdateVolumeDisplay(m.view, id, volume)))
  }

  /** `applyMasterVolumeToAll()`: every unpaused element with a slider gets
      `slider * master / 10000`; paused elements keep their volume. */
  function ApplyMasterVolumeToAll(m: Mixer): (r: Mixer)
    ensures r.audio.Keys == m.audio.Keys
    ensures forall id :: id in m.audio ==> r.audio[id].paused == m.audio[id].paused
    ensures forall id :: id in m.audio && m.audio[id].paused ==> r.audio[id] == m.audio[id]
    ensures LevelsApplied(r)
    ensures r.(audio := m.audio) == m
  {
    m.(audio := map id | id in m.audio ::
      if !m.audio[id].paused && id in m.view.sliders then
        m.audio[id].(volume := OutputLevel(m.view.sliders[id], m.masterVolume))
      else m.audio[id])
  }

  /** `setMasterVolume(volume)`: sets the master and re-applies it to every
      playing channel from its slider; paused channels are untouched. */
  function SetMasterVolume(m: Mixer, volume: Level): (r: Mixer)
    ensures r.masterVolume == volume
    ensures r.audio.Keys == m.audio.Keys
    ensures forall id :: id in m.audio && m.audio[id].paused ==> r.audio[id] == m.audio[id]
    ensures forall id :: id in m.audio && !m.audio[id].paused && id in m.view.sliders ==>
              !r.audio[id].paused && r.audio[id].volume == OutputLevel(m.view.sliders[id], volume)
    ensures r.(audio := m.audio, masterVolume := m.masterVolume) == m
  {
    ApplyMasterVolumeToAll(m.(masterVolume := volume))
  }

  /** The timer text after the callbacks `events`: each tick updates it and
      completion clears and hides it. */
  function TimerText(d: Ui.TimerDisplay, events: seq<CountdownTimer.TimerEvent>): (r: Ui.TimerDisplay)
    ensures |events| > 0 && events[|events| - 1] == CountdownTimer.Completed ==> r == Ui.TimerDisplay("", true)
    decreases |events|
  {
    if |events| == 0 then
      d
    else
      var rest := events[1..];
      assert |rest| > 0 ==> rest[|rest| - 1] == events[|events| - 1];
      TimerText(Shows(d, events[0]), rest)
  }

  lemma TimerTextOne(d: Ui.TimerDisplay, e: CountdownTimer.TimerEvent)
    ensures TimerText(d, [e]) == Shows(d, e)
  {
    assert [e][1..] == [];
  }

  /** The timer text after one callback. */
  function Shows(d: Ui.TimerDisplay, e: CountdownTimer.TimerEvent): Ui.TimerDisplay
  {
    match e
    case Display(minutes, seconds) => Ui.UpdateTimerDisplay(d, minutes, seconds)
    case Completed => Ui.TimerDisplay("", true)
  }

  /** The timer's callbacks as a batch: they change only the timer text
      and, when completion is among them, pause every element.
      `DispatchEmpty` and `DispatchFirst` show this is running them one at a
      time in order. */
  function Dispatch(m: Mixer, events: seq<CountdownTimer.TimerEvent>): (r: Mixer)
    ensures && r.soundState == m.soundState && r.masterVolume == m.masterVolume
            && r.timer == m.timer && r.presets == m.presets
            && r.view.sliders == m.view.sliders && r.view.masterSlider == m.view.masterSlider
            && r.view.activePreset == m.view.activePreset && r.view.modalOpen == m.view.modalOpen
  {
    var completed := CountdownTimer.Completed in events;
    m.(audio := if completed then PauseAll(m.audio) else m.audio,
       isPlaying := if completed then false else m.isPlaying,
       view := m.view.(timerDisplay := TimerText(m.view.timerDisplay, events)))
  }

  /** One callback: a tick updates the timer text; completion runs
      `onTimerComplete`. */
  function Handle(m: Mixer, e: CountdownTimer.TimerEvent): (r: Mixer)
    ensures r.view.timerDisplay == Shows(m.view.timerDisplay, e)
    ensures e.Display? ==>
              && r.view.timerDisplay == Ui.UpdateTimerDisplay(m.view.timerDisplay, e.minutes, e.seconds)
              && r.(view := r.view.(timerDisplay := m.view.timerDisplay)) == m
    ensures e.Completed? ==>
              && r.audio == PauseAll(m.audio) && !r.isPlaying
              && r.view.timerDisplay == Ui.TimerDisplay("", true)
              && r.(audio := m.audio, isPlaying := m.isPlaying, view := r.view.(timerDisplay := m.view.timerDisplay)) == m
  {
    match e
    case Display(minutes, seconds) =>
      m.(view := m.view.(timerDisplay := Ui.UpdateTimerDisplay(m.view.timerDisplay, minutes, seconds)))
    case Completed => OnTimerComplete(m)
  }

  /** What a batch of callbacks does to the elements, the flag and the text:
      nothing to the first two without a completion, and with one every
      element is paused and the flag cleared; a final completion leaves the
      text cleared and hidden. */
  lemma DispatchEffect(m: Mixer, events: seq<CountdownTimer.TimerEvent>)
    ensures var r := Dispatch(m, events);
      && (CountdownTimer.Completed !in events ==> r.audio == m.audio && r.isPlaying == m.isPlaying)
      && (CountdownTimer.Completed in events ==> r.audio == PauseAll(m.audio) && !r.isPlaying)
      && (|events| > 0 && events[|events| - 1] == CountdownTimer.Completed ==>
            r.view.timerDisplay == Ui.TimerDisplay("", true))
  {
  }

  /** No callbacks change nothing. */
  lemma DispatchEmpty(m: Mixer)
    ensures Dispatch(m, []) == m
  {
  }

  /** A batch is its first callback, then the rest of the batch. */
  lemma DispatchFirst(m: Mixer, e: CountdownTimer.TimerEvent, rest: seq<CountdownTimer.TimerEvent>)
    ensures Dispatch(m, [e] + rest) == Dispatch(Handle(m, e), rest)
  {
    var events := [e] + rest;
    assert events[0] == e && events[1..] == rest;
    assert CountdownTimer.Completed in events <==> e.Completed? || CountdownTimer.Completed in rest;
    PauseAllIdempotent(m.audio);
  }

  lemma {:induction false} TimerTextConcat(d: Ui.TimerDisplay, a: seq<CountdownTimer.TimerEvent>, b: seq<CountdownTimer.TimerEvent>)
    ensures TimerText(d, a + b) == TimerText(TimerText(d, a), b)
    decreases |a|
  {
    if |a| == 0 {
      assert a + b == b;
    } else {
      assert (a + b)[0] == a[0] && (a + b)[1..] == a[1..] + b;
      TimerTextConcat(Shows(d, a[0]), a[1..], b);
    }
  }

  /** Running two batches of callbacks one after the other is running them
      as one batch. */
  lemma DispatchConcat(m: Mixer, a: seq<CountdownTimer.TimerEvent>, b: seq<CountdownTimer.TimerEvent>)
    ensures Dispatch(m, a + b) == Dispatch(Dispatch(m, a), b)
  {
    TimerTextConcat(m.view.timerDisplay, a, b);
    PauseAllIdempotent(m.audio);
  }

  lemma PauseAllIdempotent(audio: map<string, Audio>)
    ensures PauseAll(PauseAll(audio)) == PauseAll(audio)
  {
  }

  /** `onTimerComplete()`: every element paused and the timer text cleared
      and hidden. Stored volumes and sliders keep their values, unlike a
      channel turned off with its own button. */
  function OnTimerComplete(m: Mixer): (r: Mixer)
    ensures r.audio == PauseAll(m.audio) && !r.isPlaying
    ensures r.view.timerDisplay == Ui.TimerDisplay("", true)
    ensures r.soundState == m.soundState && r.view.sliders == m.view.sliders
    ensures KeepsRest(m, r.(view := r.view.(timerDisplay := m.view.timerDisplay)))
  {
    m.(audio := PauseAll(m.audio), isPlaying := false,
       view := m.view.(timerDisplay := Ui.TimerDisplay("", true)))
  }

  /** The timer selector: a positive number of minutes starts the timer,
      anything else stops it; its callbacks are run. */
  function SelectTimer(m: Mixer, minutes: int): (r: Mixer)
    ensures CountdownTimer.Valid(r.timer)
    ensures minutes > 0 ==> r.timer.isRunning && r.timer.remaining == 60 * minutes
    ensures minutes > 0 ==> r.view.timerDisplay == Ui.UpdateTimerDisplay(m.view.timerDisplay, minutes, 0)
    ensures minutes <= 0 ==> !r.timer.isRunning && r.view.timerDisplay == m.view.timerDisplay.(hidden := true)
    ensures r.audio == m.audio && r.soundState == m.soundState && r.view.sliders == m.view.sliders
    ensures r.masterVolume == m.masterVolume
    ensures r.(timer := m.timer, view := r.view.(timerDisplay := m.view.timerDisplay)) == m
  {
    var step := if minutes > 0 then CountdownTimer.Start(m.timer, minutes) else CountdownTimer.Stop(m.timer);
    var shown := if minutes > 0 then minutes else 0;
    assert step.events == [CountdownTimer.Display(shown, 0)];
    assert CountdownTimer.Completed !in step.events;
    TimerTextOne(m.view.timerDisplay, CountdownTimer.Display(shown, 0));
    Dispatch(m.(timer := step.timer), step.events)
  }

  /** One firing of the timer's interval, with its callbacks run. */
  function TimerTick(m: Mixer): (r: Mixer)
    requires CountdownTimer.Valid(m.timer)
    ensures CountdownTimer.Valid(r.timer)
    ensures r.soundState == m.soundState && r.view.sliders == m.view.sliders
    ensures !m.timer.isRunning ==> r == m
    ensures m.timer.isRunning && m.timer.remaining > 1 ==>
              && r.audio == m.audio && r.isPlaying == m.isPlaying
              && r.timer == m.timer.(remaining := m.timer.remaining - 1)
              && r.view.timerDisplay
                   == Ui.UpdateTimerDisplay(m.view.timerDisplay, (m.timer.remaining - 1) / 60, (m.timer.remaining - 1) % 60)
    ensures r.(audio := m.audio, isPlaying := m.isPlaying, timer := m.timer,
               view := r.view.(timerDisplay := m.view.timerDisplay)) == m
    ensures m.timer.isRunning && m.timer.remaining == 1 ==>
              r.audio == PauseAll(m.audio) && !r.isPlaying && r.timer == CountdownTimer.Idle
              && r.view.timerDisplay == Ui.TimerDisplay("", true)
  {
    var step := CountdownTimer.Tick(m.timer);
    assert !m.timer.isRunning ==> step.events == [] && m.(timer := step.timer) == m;
    assert m.timer.isRunning && m.timer.remaining > 1 ==> CountdownTimer.Completed !in step.events;
    var shown := CountdownTimer.DisplayOf(if m.timer.remaining > 1 then m.timer.remaining - 1 else 0);
    TimerTextOne(m.view.timerDisplay, shown);
    assert m.timer.isRunning && m.timer.remaining == 1 ==> step.events[2] == CountdownTimer.Completed;
    Dispatch(m.(timer := step.timer), step.events)
  }

  /** `resetAll()`: every element stopped, master 100, timer stopped, no
      highlighted preset, every catalog channel stored at 0 (other entries
      kept), every slider at 0 and the master slider at 100. */
  function ResetAll(m: Mixer): (r: Mixer)
    ensures Valid(m) ==> Valid(r)
    ensures r.masterVolume == 100 && r.view.masterSlider == 100
    ensures r.audio == PauseAll(m.audio) && !r.isPlaying
    ensures r.timer == CountdownTimer.Idle && r.view.timerDisplay == m.view.timerDisplay.(hidden := true)
    ensures r.view.activePreset == None && r.view.modalOpen == m.view.modalOpen
    ensures r.soundState.Keys == m.soundState.Keys + ChannelIds
    ensures forall id :: id in ChannelIds ==> r.soundState[id] == 0
    ensures forall id :: id in m.soundState && id !in ChannelIds ==> r.soundState[id] == m.soundState[id]
    ensures r.view.sliders.Keys == m.view.sliders.Keys
    ensures forall id :: id in r.view.sliders ==> r.view.sliders[id] == 0
    ensures r.presets == m.presets
  {
    var stopped := m.(audio := PauseAll(m.audio), isPlaying := false, masterVolume := 100);
    var step := CountdownTimer.Stop(m.timer);
    assert step.events == [CountdownTimer.Display(0, 0)];
    TimerTextOne(m.view.timerDisplay, CountdownTimer.Display(0, 0));
    var timed := Dispatch(stopped.(timer := step.timer), step.events);
    var cleared := timed.(view := Ui.SetActivePreset(timed.view, None));
    cleared.(soundState := ZeroChannels(cleared.soundState), view := Ui.ResetUI(cleared.view))
  }

  /** The preset a preset button names: a custom one from the store, or a
      built-in one. */
  function FindPreset(m: Mixer, key: string, custom: bool): (r: Option<Preset>)
    ensures custom ==> r == PresetStore.LoadPreset(m.presets, key)
    ensures !custom ==> (r != None <==> key in DefaultPresets)
    ensures !custom && r != None ==> r.value == DefaultPresets[key]
  {
    if custom then PresetStore.LoadPreset(m.presets, key)
    else if key in DefaultPresets then Some(DefaultPresets[key])
    else None
  }

  /** The stored volumes after a preset is applied: the preset's channels at
      their volumes, the other catalog channels at 0, other entries kept. */
  function PresetState(state: map<string, Level>, p: Preset): (r: map<string, Level>)
    ensures r.Keys == state.Keys + ChannelIds + p.sounds.Keys
    ensures forall id :: id in p.sounds ==> r[id] == p.sounds[id]
    ensures forall id :: id in ChannelIds && id !in p.sounds ==> r[id] == 0
    ensures forall id :: id in state && id !in ChannelIds && id !in p.sounds ==> r[id] == state[id]
  {
    ZeroChannels(state) + p.sounds
  }

  /** The sliders after a preset is applied: the preset's channels at their
      volumes, the other catalog channels at 0. */
  function PresetView(v: Ui.View, p: Preset): (r: Ui.View)
    ensures r.sliders.Keys == v.sliders.Keys
    ensures forall id :: id in v.sliders ==>
              r.sliders[id] == (if id in p.sounds then p.sounds[id] else if id in ChannelIds then 0 else v.sliders[id])
    ensures r.(sliders := v.sliders) == v
  {
    Ui.UpdateVolumeDisplays(Ui.UpdateVolumeDisplays(v, map id | id in ChannelIds :: 0), p.sounds)
  }

  /** The elements after a preset is applied: the preset's channels scaled
      by the master and playing, all others stopped. */
  function PresetAudio(audio: map<string, Audio>, p: Preset, master: Level): (r: map<string, Audio>)
    ensures r.Keys == audio.Keys
    ensures forall id :: id in audio && id in p.sounds ==> r[id] == Audio(false, OutputLevel(p.sounds[id], master))
    ensures forall id :: id in audio && id !in p.sounds ==> r[id] == audio[id].(paused := true)
  {
    map id | id in audio ::
      if id in p.sounds then Audio(false, OutputLevel(p.sounds[id], master)) else audio[id].(paused := true)
  }

  /** `loadPreset(key, custom)`. An unknown key changes nothing. Otherwise
      every element is stopped and every catalog channel zeroed (stored and
      on its slider); then each of the preset's channels is stored at its
      volume, shown on its slider, and, when it has an element, scaled by
      the master and played. The aggregate flag is set and the preset is
      highlighted. */
  function LoadPreset(m: Mixer, key: string, custom: bool): (r: Mixer)
    ensures FindPreset(m, key, custom) == None ==> r == m
    ensures FindPreset(m, key, custom) != None ==>
              var p := FindPreset(m, key, custom).value;
              && r.isPlaying
              && r.masterVolume == m.masterVolume && r.timer == m.timer && r.presets == m.presets
              && (key != "" ==> r.view.activePreset == Some(key))
              && r.soundState == PresetState(m.soundState, p)
              && r.view.sliders == PresetView(m.view, p).sliders
              && r.audio == PresetAudio(m.audio, p, m.masterVolume)
              && r.view.(sliders := m.view.sliders, activePreset := m.view.activePreset) == m.view
              && (key == "" ==> r.view.activePreset == m.view.activePreset)
    ensures Valid(m) ==> Valid(r)
  {
    match FindPreset(m, key, custom)
    case None => m
    case Some(p) =>
      var view := PresetView(m.view, p);
      m.(soundState := PresetState(m.soundState, p),
         view := if key != "" then Ui.SetActivePreset(view, Some(key)) else view,
         audio := PresetAudio(m.audio, p, m.masterVolume),
         isPlaying := true)
  }

  /** `showSavePresetModal()`: the dialog opens only when some stored
      volume is above 0. */
  function ShowSavePresetModal(m: Mixer): (r: Mixer)
    ensures (exists id :: id in m.soundState && m.soundState[id] > 0) ==> r.view.modalOpen
    ensures !(exists id :: id in m.soundState && m.soundState[id] > 0) ==> r == m
    ensures r.(view := r.view.(modalOpen := m.view.modalOpen)) == m
  {
    assert (exists v :: v in m.soundState.Values && v > 0) <==> (exists id :: id in m.soundState && m.soundState[id] > 0) by {
      forall id | id in m.soundState && m.soundState[id] > 0
        ensures m.soundState[id] in m.soundState.Values
      {
      }
    }
    if exists v :: v in m.soundState.Values && v > 0 then
      m.(view := Ui.ShowModal(m.view))
    else
      m
  }

  /** `saveCurrentPreset()` with the dialog's text `input`, at clock reading
      `now`. Refused, with nothing changed, when the trimmed name is empty or
      already names a stored preset. Otherwise the trimmed name and the
      audible stored volumes are saved under the clock's id and the dialog
      closes. */
  function SaveCurrentPreset(m: Mixer, input: string, now: nat): (r: Mixer)
    ensures Text.AllWhitespace(input) ==> r == m
    ensures PresetStore.PresetNameExists(m.presets, Text.Trim(input)) ==> r == m
    ensures !Text.AllWhitespace(input) && !PresetStore.PresetNameExists(m.presets, Text.Trim(input)) ==>
              && PresetStore.LoadPreset(r.presets, PresetStore.PresetId(now))
                   == Some(Preset(Text.Trim(input), PresetStore.ActiveSounds(m.soundState)))
              && (forall id :: id in m.presets.customPresets && id != PresetStore.PresetId(now) ==>
                    id in r.presets.customPresets && r.presets.customPresets[id] == m.presets.customPresets[id])
              && r.presets.customPresets.Keys == m.presets.customPresets.Keys + {PresetStore.PresetId(now)}
              && r.presets.storage.stored == Some(r.presets.customPresets)
              && r.presets.storage.writes == m.presets.storage.writes + 1
              && !r.view.modalOpen
    ensures r.(presets := m.presets, view := r.view.(modalOpen := m.view.modalOpen)) == m
  {
    var name := Text.Trim(input);
    if name == "" then
      m
    else if PresetStore.PresetNameExists(m.presets, name) then
      m
    else
      m.(presets := PresetStore.SavePreset(m.presets, name, m.soundState, now).0,
         view := Ui.HideModal(m.view))
  }

  /** `deleteCustomPreset(id)`: the store's delete; nothing else changes. */
  function DeleteCustomPreset(m: Mixer, id: string): (r: Mixer)
    ensures id in m.presets.customPresets ==>
              r.presets.customPresets == m.presets.customPresets - {id}
              && r.presets.storage.stored == Some(r.presets.customPresets)
    ensures id !in m.presets.customPresets ==> r == m
    ensures r.(presets := m.presets) == m
  {
    m.(presets := PresetStore.DeletePreset(m.presets, id).0)
  }
}
