/** The page's event handlers as one transition relation over mixer sessions,
    and what holds in every session a user can reach. */
module MixerSession {
  import opened Wrappers
  import opened Levels
  import opened Catalog
  import opened AmbientMixer
  import CountdownTimer
  import PresetStore
  import Ui
  import Text

  /** One thing the user, or the clock, does. */
  datatype Intent =
    | PressPlay(id: string, written: real)   // a card's play button; `written` as in ToggleSound
    | PressPlayAll                           // the main play/pause button
    | MoveSlider(id: string, volume: Level)  // a card's volume slider
    | MoveMaster(volume: Level)              // the master slider
    | PressReset
    | PickPreset(key: string, custom: bool)
    | PressSave                              // opens the save dialog
    | ConfirmSave(name: string, now: nat)    // the dialog's save button
    | CancelSave                             // the dialog's cancel button or backdrop
    | PressDelete(id: string)
    | PickTimer(minutes: int)
    | Second                                 // the timer's interval fires

  /** The handler an intent runs. The dialog's buttons can only be pressed
      while the dialog is open. */
  function Step(m: Mixer, i: Intent): (r: Mixer)
    requires Valid(m)
    ensures Valid(r)
  {
    match i
    case PressPlay(id, written) => ToggleSound(m, id, written)
    case PressPlayAll => ToggleAllSounds(m)
    case MoveSlider(id, volume) => SetSoundVolume(m, id, volume)
    case MoveMaster(volume) => SetMasterVolume(m.(view := m.view.(masterSlider := volume)), volume)
    case PressReset => ResetAll(m)
    case PickPreset(key, custom) => LoadPreset(m, key, custom)
    case PressSave => ShowSavePresetModal(m)
    case ConfirmSave(name, now) => if m.view.modalOpen then SaveCurrentPreset(m, name, now) else m
    case CancelSave => m.(view := Ui.HideModal(m.view))
    case PressDelete(id) => DeleteCustomPreset(m, id)
    case PickTimer(minutes) => SelectTimer(m, minutes)
    case Second => TimerTick(m)
  }

  /** The intents, handled one after the other. */
  function Run(m: Mixer, intents: seq<Intent>): (r: Mixer)
    requires Valid(m)
    ensures Valid(r)
    decreases |intents|
  {
    if |intents| == 0 then m else Run(Step(m, intents[0]), intents[1..])
  }

  lemma CoherentToggleSound(m: Mixer, id: string, written: real)
    requires Valid(m) && Coherent(m)
    ensures Coherent(Step(m, PressPlay(id, written)))
  {
    var r := Step(m, PressPlay(id, written));
    assert r == ToggleSound(m, id, written);
    forall other | other in r.audio && !r.audio[other].paused && other in r.view.sliders && other in r.soundState
      ensures r.view.sliders[other] == r.soundState[other]
    {
      if other != id {
        assert !m.audio[other].paused;
      }
    }
  }

  lemma CoherentToggleAll(m: Mixer)
    requires Valid(m) && Coherent(m)
    ensures Coherent(Step(m, PressPlayAll))
  {
    if m.isPlaying {
      assert AllPaused(ToggleAllSounds(m).audio);
    }
  }

  lemma CoherentSetSoundVolume(m: Mixer, id: string, volume: Level)
    requires Valid(m) && Coherent(m)
    ensures Coherent(Step(m, MoveSlider(id, volume)))
  {
    var r := Step(m, MoveSlider(id, volume));
    assert r == SetSoundVolume(m, id, volume);
    forall other | other in r.audio && !r.audio[other].paused && other in r.view.sliders && other in r.soundState
      ensures r.view.sliders[other] == r.soundState[other]
    {
      if other != id {
        assert !m.audio[other].paused;
      }
    }
  }

  lemma CoherentTimerTick(m: Mixer)
    requires Valid(m) && Coherent(m)
    ensures Coherent(Step(m, Second))
  {
    var r := Step(m, Second);
    assert r == TimerTick(m);
    if m.timer.isRunning && m.timer.remaining == 1 {
      assert AllPaused(r.audio);
    }
  }

  lemma CoherentReset(m: Mixer)
    requires Valid(m) && Coherent(m)
    ensures Coherent(Step(m, PressReset))
  {
    var r := Step(m, PressReset);
    assert r == ResetAll(m);
    assert AllPaused(r.audio);
  }

  lemma CoherentMaster(m: Mixer, volume: Level)
    requires Valid(m) && Coherent(m)
    ensures Coherent(Step(m, MoveMaster(volume)))
  {
    var r := SetMasterVolume(m.(view := m.view.(masterSlider := volume)), volume);
    assert r.soundState == m.soundState && r.view.sliders == m.view.sliders && r.audio.Keys == m.audio.Keys;
    assert forall id :: id in r.audio ==> r.audio[id].paused == m.audio[id].paused;
  }

  lemma CoherentPreset(m: Mixer, key: string, custom: bool)
    requires Valid(m) && Coherent(m)
    ensures Coherent(Step(m, PickPreset(key, custom)))
  {
  }

  lemma CoherentDialog(m: Mixer, i: Intent)
    requires Valid(m) && Coherent(m)
    requires i.PressSave? || i.ConfirmSave? || i.CancelSave? || i.PressDelete?
    ensures Coherent(Step(m, i))
  {
  }

  lemma CoherentSelectTimer(m: Mixer, minutes: int)
    requires Valid(m) && Coherent(m)
    ensures Coherent(Step(m, PickTimer(minutes)))
  {
  }

  /** Every handler keeps playing channels' sliders equal to their stored
      volumes. */
  lemma StepKeepsCoherent(m: Mixer, i: Intent)
    requires Valid(m) && Coherent(m)
    ensures Coherent(Step(m, i))
  {
    match i {
      case PressPlay(id, written) => CoherentToggleSound(m, id, written);
      case PressPlayAll => CoherentToggleAll(m);
      case MoveSlider(id, volume) => CoherentSetSoundVolume(m, id, volume);
      case PressReset => CoherentReset(m);
      case Second => CoherentTimerTick(m);
      case MoveMaster(volume) => CoherentMaster(m, volume);
      case PickPreset(key, custom) => CoherentPreset(m, key, custom);
      case PickTimer(minutes) => CoherentSelectTimer(m, minutes);
      case _ => CoherentDialog(m, i);
    }
  }

  /** The play button's `written` is the level the mixer's own formula gives
      for the level the channel resumes at. */
  predicate Honest(m: Mixer, i: Intent)
    requires Valid(m)
  {
    i.PressPlay? && i.id in m.audio && m.audio[i.id].paused ==>
      i.written == OutputLevel(ResumeLevel(m.view.sliders[i.id]), m.masterVolume)
  }

  lemma LevelsToggleSound(m: Mixer, id: string, written: real)
    requires Valid(m) && LevelsApplied(m) && Honest(m, PressPlay(id, written))
    ensures LevelsApplied(Step(m, PressPlay(id, written)))
  {
    var r := Step(m, PressPlay(id, written));
    assert r == ToggleSound(m, id, written);
    forall other | other in r.audio && !r.audio[other].paused && other in r.view.sliders
      ensures r.audio[other].volume == OutputLevel(r.view.sliders[other], r.masterVolume)
    {
      if other != id {
        assert !m.audio[other].paused;
      }
    }
  }

  lemma LevelsToggleAll(m: Mixer)
    requires Valid(m) && LevelsApplied(m)
    ensures LevelsApplied(Step(m, PressPlayAll))
  {
    if m.isPlaying {
      assert AllPaused(ToggleAllSounds(m).audio);
    }
  }

  lemma LevelsSetSoundVolume(m: Mixer, id: string, volume: Level)
    requires Valid(m) && LevelsApplied(m)
    ensures LevelsApplied(Step(m, MoveSlider(id, volume)))
  {
    var r := Step(m, MoveSlider(id, volume));
    assert r == SetSoundVolume(m, id, volume);
    forall other | other in r.audio && !r.audio[other].paused && other in r.view.sliders
      ensures r.audio[other].volume == OutputLevel(r.view.sliders[other], r.masterVolume)
    {
      if other != id {
        assert !m.audio[other].paused;
      }
    }
  }

  lemma LevelsTimerTick(m: Mixer)
    requires Valid(m) && LevelsApplied(m)
    ensures LevelsApplied(Step(m, Second))
  {
    var r := Step(m, Second);
    assert r == TimerTick(m);
    if m.timer.isRunning && m.timer.remaining == 1 {
      assert AllPaused(r.audio);
    }
  }

  lemma LevelsReset(m: Mixer)
    requires Valid(m) && LevelsApplied(m)
    ensures LevelsApplied(Step(m, PressReset))
  {
    var r := Step(m, PressReset);
    assert r == ResetAll(m);
    assert AllPaused(r.audio);
  }

  lemma LevelsMaster(m: Mixer, volume: Level)
    requires Valid(m) && LevelsApplied(m)
    ensures LevelsApplied(Step(m, MoveMaster(volume)))
  {
  }

  lemma LevelsPreset(m: Mixer, key: string, custom: bool)
    requires Valid(m) && LevelsApplied(m)
    ensures LevelsApplied(Step(m, PickPreset(key, custom)))
  {
  }

  lemma LevelsDialog(m: Mixer, i: Intent)
    requires Valid(m) && LevelsApplied(m)
    requires i.PressSave? || i.ConfirmSave? || i.CancelSave? || i.PressDelete?
    ensures LevelsApplied(Step(m, i))
  {
  }

  lemma LevelsSelectTimer(m: Mixer, minutes: int)
    requires Valid(m) && LevelsApplied(m)
    ensures LevelsApplied(Step(m, PickTimer(minutes)))
  {
    var r := Step(m, PickTimer(minutes));
    assert r.audio == m.audio && r.view.sliders == m.view.sliders && r.masterVolume == m.masterVolume;
    LevelsAppliedFrame(m, r);
  }

  /** Levels stay applied when the elements, sliders and master stay. */
  lemma LevelsAppliedFrame(m: Mixer, r: Mixer)
    requires LevelsApplied(m)
    requires r.audio == m.audio && r.view.sliders == m.view.sliders && r.masterVolume == m.masterVolume
    ensures LevelsApplied(r)
  {
  }

  /** Every handler keeps each playing channel's element volume at its
      slider scaled by the master, provided a channel turned on with its own
      button is given that level too. */
  lemma StepKeepsLevelsApplied(m: Mixer, i: Intent)
    requires Valid(m) && LevelsApplied(m) && Honest(m, i)
    ensures LevelsApplied(Step(m, i))
  {
    match i {
      case PressPlay(id, written) => LevelsToggleSound(m, id, written);
      case PressPlayAll => LevelsToggleAll(m);
      case MoveSlider(id, volume) => LevelsSetSoundVolume(m, id, volume);
      case PressReset => LevelsReset(m);
      case Second => LevelsTimerTick(m);
      case MoveMaster(volume) => LevelsMaster(m, volume);
      case PickPreset(key, custom) => LevelsPreset(m, key, custom);
      case PickTimer(minutes) => LevelsSelectTimer(m, minutes);
      case _ => LevelsDialog(m, i);
    }
  }

  /** Every play-button press along the run is honest in the session it
      meets. */
  predicate HonestRun(m: Mixer, intents: seq<Intent>)
    requires Valid(m)
    decreases |intents|
  {
    |intents| > 0 ==> Honest(m, intents[0]) && HonestRun(Step(m, intents[0]), intents[1..])
  }

  /** In every session reachable from start-up the timer is idle with
      nothing left or running with its interval, every playing channel's
      slider shows its stored volume, and, when play buttons are honest,
      its element volume is that slider scaled by the master. */
  lemma {:induction false} ReachableInvariants(storage: PresetStore.Storage, loaded: set<string>, intents: seq<Intent>)
    requires loaded <= ChannelIds
    ensures var r := Run(Init(storage, loaded), intents);
      && Valid(r) && Coherent(r)
      && (!r.timer.isRunning ==> r.timer.remaining == 0 && !r.timer.interval)
      && (HonestRun(Init(storage, loaded), intents) ==> LevelsApplied(r))
  {
    RunKeepsInvariants(Init(storage, loaded), intents);
  }

  lemma {:induction false} RunKeepsInvariants(m: Mixer, intents: seq<Intent>)
    requires Valid(m) && Coherent(m)
    ensures Coherent(Run(m, intents))
    ensures LevelsApplied(m) && HonestRun(m, intents) ==> LevelsApplied(Run(m, intents))
    decreases |intents|
  {
    if |intents| > 0 {
      StepKeepsCoherent(m, intents[0]);
      if LevelsApplied(m) && HonestRun(m, intents) {
        StepKeepsLevelsApplied(m, intents[0]);
      }
      RunKeepsInvariants(Step(m, intents[0]), intents[1..]);
    }
  }

  /** Turning a playing channel off and on again brings back the volume it
      had: the off step zeroes the stored volume, but the on step reads the
      slider, which the off step left alone. */
  lemma OffThenOnRestoresVolume(m: Mixer, id: string, w1: real, w2: real)
    requires Valid(m) && Coherent(m)
    requires id in m.audio && !m.audio[id].paused && m.soundState[id] > 0
    ensures var off := ToggleSound(m, id, w1);
      && off.soundState[id] == 0 && off.view.sliders[id] == m.view.sliders[id]
      && var on := ToggleSound(off, id, w2);
      && on.soundState == m.soundState
      && on.view.sliders == m.view.sliders
      && !on.audio[id].paused
  {
    var off := ToggleSound(m, id, w1);
    assert m.view.sliders[id] == m.soundState[id];
    var on := ToggleSound(off, id, w2);
    assert on.soundState == off.soundState[id := m.view.sliders[id]];
  }

  /** `n` firings of the timer's interval: the timer runs its own `n` steps
      and the callbacks they make are run on the mixer in order. */
  function Seconds(m: Mixer, n: nat): (r: Mixer)
    requires CountdownTimer.Valid(m.timer)
    ensures CountdownTimer.Valid(r.timer)
  {
    var run := CountdownTimer.Ticks(m.timer, n);
    Dispatch(m.(timer := run.timer), run.events)
  }

  /** `n + 1` firings are one `TimerTick` followed by `n` firings. */
  lemma SecondsUnfold(m: Mixer, n: nat)
    requires CountdownTimer.Valid(m.timer)
    ensures Seconds(m, n + 1) == Seconds(TimerTick(m), n)
  {
    var first := CountdownTimer.Tick(m.timer);
    var rest := CountdownTimer.Ticks(first.timer, n);
    assert CountdownTimer.Ticks(m.timer, n + 1) == CountdownTimer.Step(rest.timer, first.events + rest.events);
    DispatchConcat(m.(timer := rest.timer), first.events, rest.events);
    assert Dispatch(m.(timer := rest.timer), first.events) == TimerTick(m).(timer := rest.timer);
  }

  /** Receiving `Second` is one firing of the timer's interval. */
  lemma StepSecond(m: Mixer)
    requires Valid(m)
    ensures Step(m, Second) == TimerTick(m)
  {
  }

  lemma RunSecond(m: Mixer, n: nat)
    requires Valid(m) && n > 0
    ensures Run(m, seq(n, _ => Second)) == Run(TimerTick(m), seq(n - 1, _ => Second))
  {
    var seconds: seq<Intent> := seq(n, _ => Second);
    assert seconds[1..] == seq(n - 1, _ => Second);
    assert Run(m, seconds) == Run(Step(m, seconds[0]), seconds[1..]);
    assert seconds[0] == Second;
    StepSecond(m);
  }

  /** `n` firings are the session that receives `Second` `n` times. */
  lemma {:induction false} SecondsIsRun(m: Mixer, n: nat)
    requires Valid(m)
    ensures Seconds(m, n) == Run(m, seq(n, _ => Second))
    decreases n
  {
    if n == 0 {
      assert CountdownTimer.Ticks(m.timer, 0).events == [];
      DispatchEmpty(m);
    } else {
      SecondsUnfold(m, n - 1);
      RunSecond(m, n);
      SecondsIsRun(TimerTick(m), n - 1);
    }
  }

  /** While a countdown runs, firings change no channel and take one second
      each off the timer. */
  lemma CountdownRunning(m: Mixer, k: nat)
    requires CountdownTimer.Valid(m.timer) && m.timer.isRunning && k < m.timer.remaining
    ensures var r := Seconds(m, k);
      && r.soundState == m.soundState && r.view.sliders == m.view.sliders && r.audio == m.audio
      && r.isPlaying == m.isPlaying
      && r.timer.isRunning && r.timer.remaining == m.timer.remaining - k
  {
    CountdownTimer.TicksBeforeCompletion(m.timer, k);
    var es := CountdownTimer.Countdown(m.timer.remaining, m.timer.remaining - k);
    assert CountdownTimer.Completed !in es;
    DispatchEffect(m.(timer := CountdownTimer.Ticks(m.timer, k).timer), es);
  }

  /** The firing that ends a countdown pauses every element and hides the
      timer text; stored volumes and sliders stay as they were. */
  lemma CountdownEnds(m: Mixer)
    requires CountdownTimer.Valid(m.timer) && m.timer.isRunning
    ensures var r := Seconds(m, m.timer.remaining);
      && r.soundState == m.soundState && r.view.sliders == m.view.sliders
      && r.audio == PauseAll(m.audio) && !r.isPlaying && r.timer == CountdownTimer.Idle
      && r.view.timerDisplay == Ui.TimerDisplay("", true)
  {
    CountdownTimer.TicksToCompletion(m.timer);
    var es := CountdownTimer.Countdown(m.timer.remaining, 0) + [CountdownTimer.Display(0, 0), CountdownTimer.Completed];
    assert es[|es| - 1] == CountdownTimer.Completed;
    DispatchEffect(m.(timer := CountdownTimer.Idle), es);
  }

  /** The sleep timer set to `minutes` stops every sound after exactly
      `60 * minutes` seconds and not earlier, without zeroing any stored
      volume or slider. */
  lemma SleepTimerPausesAfterExactly(m: Mixer, minutes: int, k: nat)
    requires minutes > 0
    ensures var s := SelectTimer(m, minutes);
      && (k < 60 * minutes ==> Seconds(s, k).audio == m.audio && Seconds(s, k).timer.isRunning)
      && (k == 60 * minutes ==>
            && Seconds(s, k).audio == PauseAll(m.audio)
            && Seconds(s, k).soundState == m.soundState
            && Seconds(s, k).view.sliders == m.view.sliders
            && Seconds(s, k).timer == CountdownTimer.Idle)
  {
    var s := SelectTimer(m, minutes);
    if k < 60 * minutes {
      CountdownRunning(s, k);
    } else if k == 60 * minutes {
      CountdownEnds(s);
    }
  }

  /** Why the save dialog can refuse: nothing audible to save, a blank name,
      or a name already taken. */
  predicate SaveRefused(m: Mixer, name: string)
  {
    || !(exists id :: id in m.soundState && m.soundState[id] > 0)
    || Text.AllWhitespace(name)
    || PresetStore.PresetNameExists(m.presets, Text.Trim(name))
  }

  /** Saving through the dialog: refused, with the store untouched, exactly
      when no stored volume is above 0, the trimmed name is empty, or the
      trimmed name is taken; otherwise the audible stored volumes are saved
      under the trimmed name. */
  lemma SaveGate(m: Mixer, name: string, now: nat)
    requires Valid(m) && !m.view.modalOpen
    ensures var r := Run(m, [PressSave, ConfirmSave(name, now)]);
      && (SaveRefused(m, name) ==> r.presets == m.presets)
      && (!SaveRefused(m, name) ==>
            && PresetStore.LoadPreset(r.presets, PresetStore.PresetId(now))
                 == Some(Preset(Text.Trim(name), PresetStore.ActiveSounds(m.soundState)))
            && !r.view.modalOpen)
  {
    RunTwo(m, PressSave, ConfirmSave(name, now));
    var m1 := ShowSavePresetModal(m);
    assert Step(m, PressSave) == m1;
    assert Step(m1, ConfirmSave(name, now)) == if m1.view.modalOpen then SaveCurrentPreset(m1, name, now) else m1;
    SaveDialog(m, name, now);
  }

  /** Two intents in a row. */
  lemma RunTwo(m: Mixer, a: Intent, b: Intent)
    requires Valid(m)
    ensures Run(m, [a, b]) == Step(Step(m, a), b)
  {
    assert [a, b][1..] == [b];
    assert Run(Step(m, a), [b]) == Run(Step(Step(m, a), b), []);
  }

  /** The dialog opened, then its save button: the same as `SaveGate` with
      the handlers named directly. */
  lemma SaveDialog(m: Mixer, name: string, now: nat)
    requires !m.view.modalOpen
    ensures var m1 := ShowSavePresetModal(m);
      var r := if m1.view.modalOpen then SaveCurrentPreset(m1, name, now) else m1;
      && (SaveRefused(m, name) ==> r.presets == m.presets)
      && (!SaveRefused(m, name) ==>
            && PresetStore.LoadPreset(r.presets, PresetStore.PresetId(now))
                 == Some(Preset(Text.Trim(name), PresetStore.ActiveSounds(m.soundState)))
            && !r.view.modalOpen)
  {
    var m1 := ShowSavePresetModal(m);
    if exists id :: id in m.soundState && m.soundState[id] > 0 {
      assert m1.view.modalOpen && m1.presets == m.presets && m1.soundState == m.soundState;
    } else {
      assert m1 == m;
    }
  }

  /** Start-up with every sound loaded, nothing stored. */
  function Fresh(): (m: Mixer)
    ensures Valid(m) && Coherent(m) && LevelsApplied(m)
  {
    Init(PresetStore.Storage(None, 0), ChannelIds)
  }

  /** Rain off at master 100, turned on: stored and shown at 50; its element
      at 0.5 when `setVolume` writes the mixer's own level. Then master 50:
      the element is at 0.25 without rain being touched. */
  lemma RainScenario()
    ensures var on := Step(Fresh(), PressPlay("rain", 0.5));
      && on.soundState["rain"] == 50 && on.view.sliders["rain"] == 50
      && !on.audio["rain"].paused && on.audio["rain"].volume == 0.5
      && var half := Step(on, MoveMaster(50));
      && !half.audio["rain"].paused && half.audio["rain"].volume == 0.25
  {
    var on := Step(Fresh(), PressPlay("rain", 0.5));
    assert "rain" in Fresh().audio;
    var half := Step(on, MoveMaster(50));
    assert half.audio["rain"].volume == OutputLevel(50, 50);
  }

  /** Rain moved to 50 and the cafe to 0 on a fresh start: only rain is
      audible in the stored volumes. */
  lemma EveningMix()
    ensures var mix := Run(Fresh(), [MoveSlider("rain", 50), MoveSlider("cafe", 0)]);
      && Valid(mix) && !mix.view.modalOpen && mix.presets.customPresets == map[]
      && PresetStore.ActiveSounds(mix.soundState) == map["rain" := 50]
  {
    var m0 := Fresh();
    var m1 := Step(m0, MoveSlider("rain", 50));
    var mix := Step(m1, MoveSlider("cafe", 0));
    assert Run(m0, [MoveSlider("rain", 50), MoveSlider("cafe", 0)]) == Run(m1, [MoveSlider("cafe", 0)]);
    assert Run(m1, [MoveSlider("cafe", 0)]) == mix;
    assert mix.soundState == m0.soundState["rain" := 50]["cafe" := 0];
    ActiveAfterMix(m0.soundState);
  }

  lemma ActiveAfterMix(state: map<string, Level>)
    requires state.Keys == ChannelIds && forall id :: id in state ==> state[id] == 0
    ensures PresetStore.ActiveSounds(state["rain" := 50]["cafe" := 0]) == map["rain" := 50]
  {
    var s := state["rain" := 50]["cafe" := 0];
    assert PresetStore.ActiveSounds(s).Keys == {"rain"};
  }

  /** "Evening" is its own trimmed form and is not blank. */
  lemma EveningName()
    ensures Text.Trim("Evening") == "Evening" && !Text.AllWhitespace("Evening")
  {
    Text.TrimPadded([], "Evening", []);
    assert [] + "Evening" + [] == "Evening";
    assert !Text.IsWhitespace("Evening"[0]);
  }

  /** An empty store accepts any name that is not blank while some channel
      is audible. */
  lemma EmptyStoreAccepts(m: Mixer, name: string, id: string)
    requires id in m.soundState && m.soundState[id] > 0
    requires m.presets.customPresets == map[] && !Text.AllWhitespace(name)
    ensures !SaveRefused(m, name)
  {
  }

  /** Saving "Evening" into an empty store from a mix with rain audible
      stores the audible volumes under it and closes the dialog. */
  lemma EveningSaved(mix: Mixer, t1: nat)
    requires Valid(mix) && !mix.view.modalOpen
    requires "rain" in mix.soundState && mix.soundState["rain"] > 0
    requires mix.presets.customPresets == map[]
    ensures var saved := Run(mix, [PressSave, ConfirmSave("Evening", t1)]);
      && PresetStore.LoadPreset(saved.presets, PresetStore.PresetId(t1))
           == Some(Preset("Evening", PresetStore.ActiveSounds(mix.soundState)))
      && !saved.view.modalOpen
  {
    EveningName();
    EmptyStoreAccepts(mix, "Evening", "rain");
    SaveGate(mix, "Evening", t1);
  }

  /** Once a preset is called "Evening", saving another "Evening" changes no
      preset. */
  lemma EveningRefused(saved: Mixer, t2: nat)
    requires Valid(saved) && !saved.view.modalOpen
    requires PresetStore.PresetNameExists(saved.presets, "Evening")
    ensures Run(saved, [PressSave, ConfirmSave("Evening", t2)]).presets == saved.presets
  {
    EveningName();
    assert SaveRefused(saved, "Evening");
    SaveGate(saved, "Evening", t2);
  }

  /** With rain at 50 and the cafe at 0, "Evening" saves rain only; a second
      "Evening" is refused. */
  lemma EveningScenario(t1: nat, t2: nat)
    ensures var mix := Run(Fresh(), [MoveSlider("rain", 50), MoveSlider("cafe", 0)]);
      var saved := Run(mix, [PressSave, ConfirmSave("Evening", t1)]);
      && PresetStore.LoadPreset(saved.presets, PresetStore.PresetId(t1)) == Some(Preset("Evening", map["rain" := 50]))
      && Run(saved, [PressSave, ConfirmSave("Evening", t2)]).presets == saved.presets
  {
    var mix := Run(Fresh(), [MoveSlider("rain", 50), MoveSlider("cafe", 0)]);
    EveningMix();
    assert "rain" in mix.soundState && mix.soundState["rain"] > 0 by {
      assert "rain" in PresetStore.ActiveSounds(mix.soundState);
    }
    EveningSaved(mix, t1);
    var saved := Run(mix, [PressSave, ConfirmSave("Evening", t1)]);
    var id := PresetStore.PresetId(t1);
    assert PresetStore.PresetNameExists(saved.presets, "Evening") by {
      assert id in saved.presets.customPresets && saved.presets.customPresets[id].name == "Evening";
    }
    EveningRefused(saved, t2);
  }
}
