# Ambient sound mixer: a Dafny model

This project models the session logic of a browser ambient-sound mixer.
The page plays eight looping channels (rain, ocean, forest, fireplace, thunder,
wind, cafe, night). Each channel has a volume slider, and a master slider
scales them all. Built-in presets and custom presets apply a mix, the save
dialog stores the current mix under a name, and a sleep timer counts down and
pauses everything.

All state is immutable and every handler is a pure function from the session
before to the session after. The modules follow the program's files:

- `Catalog` (`catalog.dfy`): the channel ids and the built-in presets of `js/soundData.js`.
- `PresetStore` (`preset_store.dfy`): the `PresetManager` of `js/presetManager.js`. A map from
  preset id to preset; every change also writes the whole map to one storage
  slot.
- `CountdownTimer` (`countdown_timer.dfy`): the `Timer` of `js/timer.js`. Each firing of
  its interval is an explicit `Tick`. The callbacks a call makes are returned
  as an ordered event list: tick reports `Display(minutes, seconds)` and the
  completion `Completed`.
- `Ui` (`ui.dfy`): the parts of `js/ui.js` the mixer reads or that matter to it. These are the
  channel sliders, the master slider, the highlighted preset, the save
  dialog, and the timer text with its `MM:SS` formatting.
- `AmbientMixer` (`ambient_mixer.dfy`): the `AmbientMixer` class of `js/app.js`. It holds the
  stored volumes (`currentSoundState`), the master volume, the audio elements
  (`{paused, volume}`), the aggregate playing flag, the view, the timer and
  the preset store. The timer's callbacks are run by `Dispatch`.
- `MixerSession` (`mixer_session.dfy`): every user action and every timer firing as one
  `Step`. It proves what holds in every session reachable from start-up, plus
  end-to-end scenarios.
- Helpers: `Levels` (`levels.dfy`) holds the 0..100 level type and the output-level
  formula. `Decimal` (`decimal.dfy`) writes and reads decimal numerals. `Text` (`text.dfy`) is
  `trim`. `Wrappers` (`wrappers.dfy`) is `Option`.

Inputs the code takes from outside are parameters:
- the clock reading `Date.now()`;
- the set of channels whose audio element was created;
- the storage slot's contents at start-up;
- the element volume that the sound manager's `setVolume` writes.

Three facts about the code that the model keeps exactly:
- The output level is `volume * master / 100 / 100` as an exact quotient.
  Nothing is floored, either in between or at the end (js/app.js:306-309).
- Pausing everything from the main button, or by the sleep timer, leaves the
  stored volumes and the sliders as they were (js/app.js:224-230, js/app.js:475-497).
  A channel's own button stores 0 but keeps its slider (js/app.js:208-216).
  Reset and loading a preset zero both (js/app.js:349-355, js/app.js:377-381).
  Moving a slider to 0 stores 0 (js/app.js:263).
- Resuming everything from the main button turns on every channel that has an
  element. A slider at 0 becomes 50 first, so no channel is left silent
  (js/app.js:231-258).

Two invariants hold in every reachable session (`ReachableInvariants`):
- Coherence: a playing channel's slider shows its stored volume.
- Levels applied: a playing channel's element volume is its slider scaled by
  the master. This holds for runs in which each single-channel play button
  writes the mixer's own level (`Honest`). That is the one place where the
  code hands the level to a sound-manager method that is not shown.

## Model

| member | source | states |
|---|---|---|
| `Catalog.CatalogIdsDistinct` | js/soundData.js:2-67 | There are eight channel ids, pairwise distinct, and the id set is exactly the listed ids. |
| `Catalog.DefaultPresetsWellFormed` | js/soundData.js:70-98 | The built-in presets are exactly focus, relax and sleep. Each names three catalog channels at volumes 1..100. |
| `Levels.OutputLevel` | js/app.js:267-273 | The element volume lies in [0,1], equals `volume*master/10000` exactly, and is 0 exactly when either level is 0. |
| `Levels.FullMasterIsIdentity` | js/app.js:267-273 | At master 100 the element volume is the channel volume divided by 100. |
| `Levels.OutputMonotonic` | js/app.js:305-310 | Raising a channel or the master never lowers the element volume. |
| `Decimal.NatToString` | js/ui.js:236-238 | `n.toString()` is a non-empty digit string with no leading zero. It has one character exactly for n < 10. |
| `Decimal.ParseNatToString` | js/ui.js:236-238 | Reading a numeral back gives the number it was written from. |
| `Decimal.NatToStringInjective` | js/presetManager.js:27 | Different numbers have different numerals. |
| `Text.Trim` | js/app.js:434 | The trimmed name has no white space at either end. It is empty exactly when the input is all white space. |
| `Text.TrimPadded` | js/app.js:434 | Trimming recovers a trimmed string from any white-space padding around it. |
| `Text.TrimIdempotent` | js/app.js:434 | Trimming twice is trimming once. |
| `PresetStore.LoadCustomPresets` | js/presetManager.js:7-10 | An empty storage slot reads as the empty map; a filled one reads as the stored map. |
| `PresetStore.Create` | js/presetManager.js:2-4 | A new store keeps the storage and holds what the slot holds, or nothing. |
| `PresetStore.LoadPreset` | js/presetManager.js:13-15 | The result is present exactly when the id is stored, and is then the stored preset. |
| `PresetStore.SaveCustomPresets` | js/presetManager.js:18-23 | After a write the slot holds the in-memory map. The map is unchanged and one more write is counted. |
| `PresetStore.ActiveSounds` | js/presetManager.js:35-39 | Exactly the entries above 0 are kept, with their volumes unchanged. |
| `PresetStore.PresetId` | js/presetManager.js:27 | The id is `custom-` followed by decimal digits only. |
| `PresetStore.PresetIdReadsBack` | js/presetManager.js:27 | The digits after `custom-` read back as the clock reading, so the id records when the preset was saved. |
| `PresetStore.SavePreset` | js/presetManager.js:26-45 | Returns `custom-<clock>`. Loading that id gives the name with the audible volumes. The key set grows by that id only, every other id keeps its preset, and the slot is written with the new map. |
| `PresetStore.PresetNameExists` | js/presetManager.js:48-52 | True exactly when some stored preset has exactly this name. |
| `PresetStore.DeletePreset` | js/presetManager.js:55-62 | Reports whether the id was present. If so, exactly that id is removed and the map is written. If not, nothing changes and nothing is written. |
| `PresetStore.DistinctClocksDistinctIds` | js/presetManager.js:27 | Saves at different clock readings get different ids. |
| `PresetStore.SaveFreshAddsOne` | js/presetManager.js:26-45 | A save under an unused id adds exactly one preset and keeps every other. |
| `PresetStore.SameClockOverwrites` | js/presetManager.js:27-41 | Two saves at the same clock reading leave only the second preset under that id. |
| `PresetStore.DeleteUndoesFreshSave` | js/presetManager.js:55-62 | Deleting a freshly saved id succeeds and restores the map as it was. |
| `PresetStore.SavedNameExists` | js/presetManager.js:41-52 | After a save, the saved name is taken. |
| `PresetStore.PersistenceRoundTrip` | js/presetManager.js:7-23 | After a save, or a successful delete, a store newly built over the same slot reads back the same map. |
| `CountdownTimer.DisplayOf` | js/timer.js:63-70 | The tick report for r seconds left has seconds below 60, and `60*minutes + seconds == r`. |
| `CountdownTimer.Stop` | js/timer.js:42-52 | Stop leaves the timer not running, with no interval and nothing left, and reports 00:00 once. |
| `CountdownTimer.Start` | js/timer.js:12-39 | A non-positive duration behaves exactly as a stop. Otherwise the timer runs with `60*minutes` seconds and reports `(minutes, 0)` at once. |
| `CountdownTimer.Complete` | js/timer.js:55-60 | Completion is a stop, so a 00:00 report, followed by exactly one completion callback. |
| `CountdownTimer.Tick` | js/timer.js:31-38 | Without an interval nothing fires. Above one second left, a tick takes one second off and reports the new remainder. At one second left it reports 00:00, the stop's 00:00 and the completion, and the timer is idle. |
| `CountdownTimer.Ticks` | js/timer.js:31-38 | Any number of firings keeps the timer in a reachable state. |
| `CountdownTimer.Countdown` | js/timer.js:31-33 | The reports as the remainder falls from `from` to `to` are one per second, each the report of its remainder. |
| `CountdownTimer.TicksBeforeCompletion` | js/timer.js:31-38 | Fewer firings than seconds left keep the timer running with that many seconds fewer. They give exactly one report per firing and no completion. |
| `CountdownTimer.TicksToCompletion` | js/timer.js:31-60 | As many firings as seconds left report every second, then the stop's 00:00, then one completion, and leave the timer idle. |
| `CountdownTimer.CompletesAfterExactly` | js/timer.js:12-39 | After `start(m)` the timer completes after exactly `60*m` firings and not earlier. |
| `CountdownTimer.IdleStaysSilent` | js/timer.js:42-52 | A stopped timer has no interval, so later firings report nothing and never complete again. |
| `CountdownTimer.RestartForgets` | js/timer.js:18-25 | A restart discards the old countdown; the result depends only on the new duration. |
| `Ui.Rendered` | js/ui.js:56 | Rendering gives one slider per catalog channel, each at 0. The timer text is hidden, the dialog closed, and nothing highlighted. |
| `Ui.UpdateVolumeDisplay` | js/ui.js:114-135 | Moves that channel's slider to the volume, when the channel has one. No other slider and nothing else on the page changes. |
| `Ui.UpdateVolumeDisplays` | js/ui.js:114-135 | Applying `updateVolumeDisplay` for each entry of a map moves exactly those sliders and leaves the rest. |
| `Ui.ResetUI` | js/ui.js:152-181 | Every channel slider goes to 0 and the master slider to 100. The rest of the page is unchanged. |
| `Ui.PadStart` | js/ui.js:236-238 | The original is a suffix, the added characters are all the fill, and the result is exactly the width unless the input is already that long. |
| `Ui.Pad2` | js/ui.js:236-238 | 0..9 get a leading "0", 10..99 are unchanged, and 100 and above are not truncated. |
| `Ui.Pad2ReadsBack` | js/ui.js:236-238 | A padded field reads back as its number. |
| `Ui.ClockShape` | js/ui.js:236-239 | The `MM:SS` text is at least five characters. For seconds below 60 its colon is third from the end and it reads back as the minutes and seconds. |
| `Ui.ClockText` | js/ui.js:236-238 | The `MM:SS` text is at least five characters long. For seconds below 100 its colon is third from the end. |
| `Ui.UpdateTimerDisplay` | js/ui.js:233-245 | The display is hidden exactly when minutes and seconds are both 0, and its text is then left alone. Otherwise it shows `pad2(minutes):pad2(seconds)`. |
| `Ui.ShownTimerReadsBack` | js/ui.js:235-240 | Whenever the text is shown for seconds below 60, it reads back as the minutes and seconds given. |
| `Ui.SetActivePreset` | js/ui.js:204-220 | Highlights the given preset; nothing else changes. |
| `Ui.ShowModal` | js/ui.js:184-188 | Opens the dialog; nothing else changes. |
| `Ui.HideModal` | js/ui.js:191-195 | Closes the dialog; nothing else changes. |
| `AmbientMixer.PauseAll` | js/app.js:226 | The assumed `pauseAll`/`stopAll`: the same elements, every one paused, each keeping its volume. |
| `AmbientMixer.ResumeLevel` | js/app.js:193-199 | A channel resumes at its slider level, or at 50 when the slider is at 0, so always above 0. |
| `AmbientMixer.ZeroChannels` | js/app.js:350-352 | Every catalog channel is stored at 0; other entries are kept. |
| `AmbientMixer.Init` | js/app.js:9-47 | At start-up, each created element is paused and every catalog channel is stored and shown at 0. Master is 100, the timer is idle, and the presets are read from storage. The view is as first rendered: no highlight, dialog closed, timer text hidden. The session invariants hold. |
| `AmbientMixer.UpdateMainPlayButtonState` | js/app.js:317-330 | The aggregate flag becomes whether some element is unpaused; nothing else changes. |
| `AmbientMixer.ToggleSound` | js/app.js:181-220 | A channel with no element is a no-op. A paused channel resumes at its resume level, which is stored and shown, and the aggregate flag is set. A playing channel is paused and its stored volume zeroed, its slider kept, and the flag is whether another channel plays. |
| `AmbientMixer.ResumeAll` | js/app.js:231-258 | Every channel with an element and a slider is stored, shown and played at its resume level scaled by the master. Every element plays and the flag is set. Stored volumes gain entries only for those channels. Channels without an element keep their stored volume and slider, and nothing outside channels changes. |
| `AmbientMixer.ToggleAllSounds` | js/app.js:223-259 | While playing: every element is paused and stored volumes and sliders keep their values. Otherwise every channel with an element resumes at its resume level (stored, shown, scaled by the master) and every element plays. Stored volumes gain entries only for channels that have an element and a slider, so in a valid session the stored key set is unchanged. |
| `AmbientMixer.SetSoundVolume` | js/app.js:262-281 | The volume is stored, the channel's element gets `volume*master/10000`, and its slider moves. No other channel changes, and the flag is whether some element plays. |
| `AmbientMixer.ApplyMasterVolumeToAll` | js/app.js:298-314 | Every unpaused element gets `slider*master/10000`. Paused elements and everything else are untouched. |
| `AmbientMixer.SetMasterVolume` | js/app.js:284-295 | The master is set and every playing channel's element is re-levelled from its slider. Paused channels keep their element volume. |
| `AmbientMixer.Dispatch` | js/app.js:13-16 | Running the timer's callbacks changes only the elements, the flag and the timer text. Stored volumes, master, timer, store, sliders, highlight and dialog are as they were. `DispatchFirst` shows this equals running the callbacks one at a time. |
| `AmbientMixer.DispatchEffect` | js/app.js:13-16 | With no completion among the callbacks, elements and flag are untouched. With one, every element is paused and the flag cleared. When the completion comes last, the text ends cleared and hidden. |
| `AmbientMixer.TimerText` | js/app.js:13-16 | Once the last callback run is the completion, the timer text is cleared and hidden. |
| `AmbientMixer.Handle` | js/app.js:13-16 | A tick callback updates the timer text as `updateTimerDisplay` does and changes nothing else. Completion pauses every element, clears the flag, and clears and hides the text; nothing else changes. |
| `AmbientMixer.DispatchEmpty` | js/app.js:13-16 | Running no callbacks changes nothing. |
| `AmbientMixer.DispatchFirst` | js/app.js:13-16 | Running a batch of callbacks is running its first callback, then the rest. |
| `AmbientMixer.DispatchConcat` | js/app.js:13-16 | Running two batches one after the other is running them as one batch. |
| `AmbientMixer.OnTimerComplete` | js/app.js:476-497 | Completion pauses every element, clears the flag, and clears and hides the timer text. Stored volumes and sliders keep their values. |
| `AmbientMixer.SelectTimer` | js/app.js:148-158 | A positive choice starts the timer with `60*minutes` seconds and shows `MM:00`. Anything else stops it and hides the text, keeping its contents. Only the timer and its text change. |
| `AmbientMixer.TimerTick` | js/timer.js:31-38 | With no countdown, a firing changes nothing. Before the last second one second goes and the text shows the minutes and seconds left; elements and the flag are untouched. On the last second every element pauses, the flag clears, the timer is idle and the text hidden. Only elements, flag, timer and text ever change. |
| `AmbientMixer.ResetAll` | js/app.js:333-356 | Every element is stopped and the master is 100. The timer is stopped and its text hidden with its contents kept. Nothing is highlighted and the dialog is as it was. Every catalog channel is stored at 0 with other entries kept, every slider is at 0, and the store is untouched. |
| `AmbientMixer.FindPreset` | js/app.js:359-371 | A custom key is looked up in the store; a built-in key is found exactly when it is focus, relax or sleep. |
| `AmbientMixer.PresetState` | js/app.js:377-387 | The preset's channels are stored at their volumes and other catalog channels at 0. Other entries are kept. |
| `AmbientMixer.PresetView` | js/app.js:377-390 | The preset's channels are shown at their volumes and other catalog sliders at 0. |
| `AmbientMixer.PresetAudio` | js/app.js:373-404 | The preset's channels play at `volume*master/10000` and every other element is stopped. |
| `AmbientMixer.LoadPreset` | js/app.js:359-414 | An unknown key changes nothing. Otherwise the stored volumes, sliders and elements are those of the preset, the flag is set, and a non-empty key is highlighted (an empty key leaves the highlight as it was). The timer, its text, the dialog, the master and the store are untouched. |
| `AmbientMixer.ShowSavePresetModal` | js/app.js:417-429 | The dialog opens exactly when some stored volume is above 0. Otherwise nothing changes. |
| `AmbientMixer.SaveCurrentPreset` | js/app.js:432-457 | A blank name, or a trimmed name already taken, changes nothing. Otherwise the trimmed name and the audible stored volumes are saved under the clock's id. The key set grows by that id only, other presets are kept, the slot is written once with the new map, and the dialog closes. |
| `AmbientMixer.DeleteCustomPreset` | js/app.js:468-473 | A stored id is removed and the map written. An unknown id changes nothing. |
| `MixerSession.Step` | js/app.js:50-159 | Every handler keeps the session's shape: elements only for catalog channels, a slider and a stored volume for each catalog channel, and a reachable timer. |
| `MixerSession.Run` | js/app.js:50-159 | Any sequence of handlers keeps that shape. |
| `MixerSession.StepKeepsCoherent` | js/app.js:181-414 | No handler breaks "a playing channel's slider shows its stored volume". |
| `MixerSession.StepKeepsLevelsApplied` | js/app.js:262-314 | No handler breaks "a playing channel's element is its slider scaled by the master", given honest play buttons. |
| `MixerSession.RunKeepsInvariants` | js/app.js:50-159 | Both invariants survive any run of handlers. |
| `MixerSession.ReachableInvariants` | js/app.js:9-47 | In every session reachable from start-up the shape and coherence hold, and an idle timer has nothing left. With honest play buttons the levels are applied too. |
| `MixerSession.OffThenOnRestoresVolume` | js/app.js:189-216 | Turning a playing channel off zeroes its stored volume but keeps its slider. Turning it on again restores the stored volumes and sliders exactly. |
| `MixerSession.SecondsIsRun` | js/timer.js:31-38 | `n` firings with their callbacks are the same as the session receiving `Second` `n` times. |
| `MixerSession.SecondsUnfold` | js/timer.js:31-38 | `n + 1` firings are one firing with its callbacks, then `n` more. |
| `MixerSession.CountdownRunning` | js/timer.js:31-38 | Before the countdown ends, firings change no channel, element or flag, and take one second each. |
| `MixerSession.CountdownEnds` | js/app.js:476-497 | The firing that ends a countdown pauses every element and hides the text. It leaves stored volumes and sliders as they were. |
| `MixerSession.SleepTimerPausesAfterExactly` | js/app.js:148-158 | A sleep timer of m minutes pauses everything after exactly `60*m` firings and not earlier, without zeroing any stored volume. |
| `MixerSession.SaveGate` | js/app.js:417-457 | Through the dialog, a save is refused, with the store untouched, exactly when nothing is audible, the name is blank, or the trimmed name is taken. Otherwise the audible volumes are saved under the trimmed name and the dialog closes. |
| `MixerSession.RainScenario` | js/app.js:189-295 | Rain turned on from a fresh start is stored and shown at 50 and plays. Its element is at 0.5 when `setVolume` writes the mixer's own level (the `written` argument). Moving the master to 50 then puts the element at 0.25 without rain being touched. |
| `MixerSession.EveningScenario` | js/app.js:417-457 | With rain at 50 and the cafe at 0, saving "Evening" stores rain only; a second "Evening" is refused. |

## Left out

- The DOM, event wiring, card and button HTML, CSS classes, icons, the theme
  toggle, `alert` and logging. Only the state they read or write is modelled:
  sliders, master slider, highlighted preset, timer text and dialog.
- The sound manager's methods (`setVolume`, `playSound`, `pauseSound`,
  `pauseAll`, `playAll`, `stopAll`) are not part of this model. The model assumes
  play and pause flip an element's `paused` flag and that the bulk methods do
  so for every element. The volume `setVolume` writes is the parameter
  `written`.
- `loadSound` can fail, so the set of channels that have an element is a
  parameter of `Init`.
- The promise `play()` returns is taken to succeed at once; autoplay
  rejection is not modelled.
- `setInterval`/`clearInterval` are replaced by explicit firings (`Tick`,
  `Second`). An interval is a flag, not a handle.
- `localStorage` and JSON are replaced by a slot holding the map itself and a
  write counter. Malformed JSON and hand-edited values outside 0..100 are not
  modelled.
- `Date.now()` is the parameter `now`.
- `Decimal.NatToString`: always writes plain digits. JavaScript switches to
  exponent form (`1e+21`) from 10^21 on, a value no clock reading reaches.
- Floating point: element volumes are exact reals, so rounding of doubles is
  not modelled.
- `Text.Trim`: the white-space set is written out as a list of characters:
  tab, vertical tab, form feed, space, no-break space, the byte-order mark,
  U+1680, U+2000 to U+200A, U+202F, U+205F, U+3000, line feed, carriage return,
  U+2028 and U+2029. It is not derived from the Unicode tables.
- Lookups are of own keys only. A preset id such as `toString` that JavaScript
  would find on the object prototype is not modelled.
- `isInitialized`, the master percentage label, the timer selector's value and
  the custom-preset buttons added and removed on the page.
- `AmbientMixer.SelectTimer`: the selector's value is taken as an integer.
  `parseInt` returning `NaN`, which the code treats as a stop, is not a
  separate case.
- `MixerSession.Step`: the dialog's save button acts only while the dialog is
  open, since it cannot be pressed otherwise. Other intents are always
  available.
- `MixerSession.StepKeepsLevelsApplied`: this is proved only for honest single-channel
  play presses, because the level that press writes comes from the sound
  manager, which is not part of this model. At js/app.js:205 the press hands
  `setVolume` the raw slider value (0..100), not a level scaled by the master.
  Whether `setVolume` then applies the master is decided inside the sound
  manager. If it writes only `volume / 100`, the invariant fails while the
  master is below 100, and `Honest` does not hold for such runs.
- `AmbientMixer.ToggleAllSounds`: the code never assigns `isPlaying` here. The
  model assumes the sound manager's `pauseAll` clears the flag and `playAll`
  sets it. `app.js` itself writes the flag only at js/app.js:328 and
  js/app.js:407.
- `AmbientMixer.OnTimerComplete`: the model clears `isPlaying`, on the same
  assumption that `pauseAll` clears it. `AmbientMixer.Handle`,
  `AmbientMixer.TimerTick` and `MixerSession.CountdownEnds` inherit this
  assumption.
- `AmbientMixer.ResetAll`: the model clears `isPlaying`, assuming the sound
  manager's `stopAll` clears it.
