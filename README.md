# FocusFlow ambient mixer: a Dafny model of its control logic

FocusFlow mixes eight ambient noise channels: white, pink and brown noise, plus
rain, wind, fire, stream and waves, each built from a noise buffer. Each
channel has a volume and an on/off flag. A play button fades the whole mix in
or out. A text prompt ("rainy night in a cabin") goes to a language-model
translator, which answers with a description, a mood colour and a partial map
from channel to volume.

This project models the two pieces of sequential control logic around the
audio graph and proves what they promise.

- **The channel state machine** (`App.tsx`, `constants.ts`, `types.ts`).
  - The record of eight channels, starting from the initial table.
  - The handlers for the volume slider, the channel toggle and the play button.
  - Applying the translator's answer. This happens in place, in two loops: a
    reset of every channel, then a write for each recognised key with a
    defined value.
  - A blank prompt, an answer without settings and a failed translator call
    each have their own outcome.
  - Module `Channels` holds the pure record updates. Class `App.AppState` holds
    the component's state and runs the handlers on it.
- **The engine control layer** (`hooks/useAudioMixer.ts`).
  - Class `Engine.AudioMixer`: a lazy, idempotent `initAudio` that builds one
    gain node per kind at gain 0, the per-kind signal graph (module
    `Topology`) and the analyser.
  - The volume/play effect. After initialisation it schedules, for every
    channel, a ramp to "the volume if playing, else 0" from the current audio
    time with time constant 0.1. The model records the scheduled ramp, not the
    exponential curve.
- **The card display logic** (`components/SoundCard.tsx`): the icon table, the
  lit test, the slider's shown and emitted values, and the three presets and
  their highlighting.

The invariant that ties the files together is `Channels.MutedWhenInactive`:
every volume is non-negative, and a channel that is off has volume 0. The
initial record meets it, even though every fresh channel is *on* at volume 0.
Each handler keeps it for non-negative inputs, and with it every inactive
channel is sent gain target 0 (`App.InactiveChannelsGetZeroTarget`). The
stronger reading, "on exactly when the volume is positive", holds for the
channel a handler touches (`Channels.Consistent`). It does not hold in the
initial state: a fresh channel is on at volume 0, so its first toggle turns it
*off*.

Where the program's own comments promise more than its code does, the model
follows the code:

- The channel type documents the volume as "0 to 1" (types.ts:7), but nothing
  checks or clamps a value, and neither does the model. A negative value from
  the translator therefore leaves its channel off while still reaching the
  engine as a nonzero gain target (`App.NegativeVolumeReachesEngine`).
- The fire channel's comments (hooks/useAudioMixer.ts:156-158) describe a
  slight flicker of its gain. The flicker oscillator is connected to the
  channel's own gain parameter, and Web Audio adds a connected signal to a
  parameter's value. So fire's gain keeps swinging by 0.1 even at a target of
  0, paused or muted (`Topology.SilentAtZeroTargetExceptFire`). The model keeps
  the wiring as written.

Modelling choices:

- Volumes are `real`; the code only assigns and compares them.
- The translator's answer is a parameter of type `App.Answer`: a
  configuration, an answer without `settings` (a `null` answer included), or a
  failed call. A configuration's `settings` are a sequence of key/value
  entries in enumeration order; a missing (`undefined`) value is `None`.
- An answer without `settings` gets through the reset loop (App.tsx:68-71),
  which switches every channel off at volume 0 in place, and then throws at
  `Object.entries` (App.tsx:74). The catch sets only the error message. Because
  the reset wrote into the channel objects the current state shares, the cards
  show every channel off; `ApplyResponse` models that outcome as
  `Configured(old channels, [])` together with the error.
- The audio clock is the parameter `now` of `AppState.SyncEngine`. That method
  stands for the React effect, which runs after every change of the channels
  or the play state.
- `isReady` and the audio context reference are one field,
  `AudioMixer.ready`. In the program `isReady` is React state, so right after
  `initAudio` it still reads false until the next render (App.tsx:23, 55). A
  second call in that window is harmless only because `initAudio` returns
  at once when the context reference is set (hooks/useAudioMixer.ts:65). The
  model's `EnsureEngine` tests that reference, which gives the same
  outcome.

## Model

| member | source | states |
|---|---|---|
| `Types.KindsListedOnce` | hooks/useAudioMixer.ts:240 | the list of kinds that `initAudio` walks has eight entries, contains every kind, and lists none twice |
| `Types.KindOfName` | App.tsx:75-76 | a key is recognised exactly when it is the name of a kind, and then it denotes that kind |
| `Types.NamesDistinct` | types.ts:1 | the eight kind names are pairwise different |
| `Constants.InitialChannels` | constants.ts:3-12 | the initial record has exactly the eight kinds; every entry's id is its key, its volume is 0 and it is on |
| `Channels.InitialChannelsMuted` | constants.ts:4-11 | the initial record is well keyed and meets the record invariant (off implies volume 0, volumes non-negative) |
| `Channels.WithVolume` | App.tsx:29-34 | the channel gets volume v and is on exactly when v > 0; its id, name and icon are kept; every other channel is unchanged; keys, well-keyedness and (for v >= 0) the invariant are preserved |
| `Channels.Toggled` | App.tsx:36-48 | the flag flips; turning on from volume 0 gives 0.5, turning on from any other volume keeps it, turning off gives volume 0; from a non-negative volume the channel then satisfies on iff volume > 0; other channels unchanged; invariant preserved |
| `Channels.FreshChannelToggles` | App.tsx:39-45 | a fresh channel (on at volume 0) turns off at volume 0 on its first toggle and back on at 0.5 on its second |
| `Channels.SettingComesFromEntry` | App.tsx:74-79 | a kind receives a value only from an entry that names it with exactly that value |
| `Channels.DefinedEntrySets` | App.tsx:76-78 | a kind named by an entry with a defined value always receives some value |
| `Channels.Applied` | App.tsx:68-79 | one channel after reset and apply keeps its card, takes the entry's value or 0 when there is none, and is on exactly when that volume is positive |
| `Channels.Configured` | App.tsx:65-80 | after applying settings, every channel is exactly the reset-then-apply of the last defined entry naming it: on iff its value is positive, off at 0 if none; cards and keys unchanged |
| `Channels.ConfiguredMuted` | App.tsx:68-78 | with non-negative values, applying settings yields a record meeting the invariant |
| `Channels.SettingForNonNegative` | App.tsx:76-77 | when every defined entry value is non-negative, so is the value any kind receives |
| `Channels.AbsentKindMuted` | App.tsx:68-71 | a kind that no entry defines ends at volume 0 and off, not unchanged |
| `Channels.AbsentKindUnset` | App.tsx:74-79 | a kind no entry defines receives no value |
| `Channels.OtherEntryIrrelevant` | App.tsx:74-79 | an entry naming another kind, or with an undefined value, has no effect on a kind |
| `Channels.IgnoredEntryIrrelevant` | App.tsx:75-76 | an entry with an unknown key or an undefined value can be dropped without changing the result |
| `Channels.DefinedEntryApplied` | App.tsx:76-78 | with distinct keys, a kind named by an entry with a defined value receives exactly that value |
| `Channels.StormScenario` | App.tsx:65-80 | for settings rain 0.8, wind 0.6, brown 0.3, those three end on at those volumes and the other five end off at 0 |
| `Topology.ChannelSpec` | hooks/useAudioMixer.ts:93-227 | every kind's graph is well formed: each oscillator drives an existing stage of that chain |
| `Topology.ChannelSpecShape` | hooks/useAudioMixer.ts:93-227 | white, pink and brown play their own buffer with no processing; every other kind is processed and reads the pink buffer, except fire, which reads the brown one; only white uses the white buffer |
| `Topology.FilterSettings` | hooks/useAudioMixer.ts:114-209 | every filter cutoff is between 20 Hz and 20 kHz; only the band-pass sets Q; a high-pass cutoff lies below any low-pass cutoff in the same chain |
| `Topology.ModulationStaysInRange` | hooks/useAudioMixer.ts:132-223 | every oscillator runs between 0 and 20 Hz with positive depth; a swept filter frequency stays above 0 Hz and the swept wave gain stays non-negative |
| `Topology.SilentAtZeroTargetExceptFire` | hooks/useAudioMixer.ts:160-168 | at gain target 0 every channel's gain peak is 0 except fire's, whose flicker oscillator on the channel gain leaves a swing of 0.1 |
| `Engine.EffectiveTarget` | hooks/useAudioMixer.ts:255 | the target is 0 exactly when the mix is paused or the volume is 0, and otherwise it is the volume |
| `Engine.Scheduled` | hooks/useAudioMixer.ts:250-257 | every existing node with a volume keeps its value and gets one ramp to the volume if playing (else 0), from `now` with time constant 0.1; other entries are untouched; the keys are unchanged |
| `Engine.PausedSchedulesSilence` | hooks/useAudioMixer.ts:255 | while paused every scheduled target is 0, whatever the volumes |
| `Engine.AudioMixer.constructor` | hooks/useAudioMixer.ts:56-61 | before initialisation every kind has no gain node, there is no graph and no analyser |
| `Engine.AudioMixer.InitAudio` | hooks/useAudioMixer.ts:64-244 | when already initialised nothing changes; otherwise every kind gets a gain node at gain 0 with no ramp, the graph of its kind, an analyser of FFT size 256, and the mixer becomes ready |
| `Engine.AudioMixer.UpdateVolumes` | hooks/useAudioMixer.ts:247-258 | before initialisation no state changes; after it the gain table becomes exactly `Scheduled` of the old table, and only the gain table changes |
| `App.TrimStartDropsBlankPrefix` | App.tsx:52 | removing leading white space leaves a suffix of the input after an all-white-space prefix, starting with a non-white-space character if not empty |
| `App.TrimEndDropsBlankSuffix` | App.tsx:52 | removing trailing white space leaves a prefix of the input before an all-white-space suffix, ending with a non-white-space character if not empty |
| `App.TrimIsSlice` | App.tsx:52 | the trimmed prompt is a contiguous part of the prompt starting after its leading white space |
| `App.TrimDropsWhitespace` | App.tsx:52 | everything trimming drops, before and after the kept part, is white space |
| `App.TrimEnds` | App.tsx:52 | a non-empty trimmed prompt neither starts nor ends with white space |
| `App.TrimEmptyIffBlank` | App.tsx:52 | a prompt trims to the empty string exactly when every character of it is JavaScript white space |
| `App.MoodColorOf` | App.tsx:84 | the colour is never empty: a non-empty hex is kept and an empty one falls back to the default |
| `App.InactiveChannelsGetZeroTarget` | hooks/useAudioMixer.ts:255 | under the record invariant, every inactive channel's engine target is 0, playing or not |
| `App.ScheduleIgnoresActiveFlags` | hooks/useAudioMixer.ts:251-256 | records that agree on every volume schedule identical ramps, whatever their on/off flags |
| `App.NegativeVolumeReachesEngine` | App.tsx:76-78 | without clamping, a translator value of -0.5 for rain leaves rain off while its engine target while playing is -0.5 |
| `App.AppState.constructor` | App.tsx:11-19 | the first state: the initial channels, paused, empty prompt, not generating, vibe "Custom Mix", colour "#6366f1", no error, a fresh uninitialised engine |
| `App.AppState.TogglePlay` | App.tsx:22-27 | initialises the engine only when it is not ready (then every gain node is at 0), always negates the play state, and changes nothing else |
| `App.AppState.HandleVolumeChange` | App.tsx:29-34 | replaces the channels by `WithVolume` of the old ones and keeps the invariant for non-negative volumes |
| `App.AppState.HandleToggleChannel` | App.tsx:36-48 | replaces the channels by `Toggled` of the old ones and keeps the invariant |
| `App.AppState.SetPrompt` | App.tsx:145 | the prompt becomes the typed text |
| `App.AppState.ResetChannels` | App.tsx:68-71 | every channel is switched off at volume 0 in place, keeping its card |
| `App.AppState.ApplyEntries` | App.tsx:74-80 | starting from the reset record, the in-place writes of each recognised entry with a defined value leave exactly `Configured` |
| `App.AppState.ApplySettings` | App.tsx:65-80 | the two loops together turn the record into `Configured` of the old one |
| `App.AppState.EnsureEngine` | App.tsx:55 | the engine is ready afterwards; it is untouched if it already was, and otherwise every gain node is at 0 |
| `App.AppState.ApplyResponse` | App.tsx:61-87 | a configuration sets the channels to `Configured`, the vibe to its description and the colour to its hex (or the default when empty); an answer without settings leaves every channel off at 0 and sets the error; a failure changes only the error message |
| `App.AppState.Submit` | App.tsx:54-89 | past the blank-prompt guard: the engine is ready (every gain node at 0 if it was not), play is on, generation has finished, and each kind of answer has the `ApplyResponse` outcome with the error cleared first |
| `App.AppState.HandleAISubmit` | App.tsx:50-90 | a prompt that trims to nothing changes nothing; otherwise the engine is ready (every gain node at 0 if it was not), play is on, generation has finished, and the outcome per kind of answer is that of `ApplyResponse` with the error cleared first |
| `App.AppState.SyncEngine` | hooks/useAudioMixer.ts:247-258 | the gain table becomes `Scheduled` for the record's volumes and play state (a no-op before initialisation); under the invariant every inactive channel's target is 0 |
| `SoundCard.IconFor` | components/SoundCard.tsx:14-23 | pink and brown share the Zap icon and are the only kinds that use it |
| `SoundCard.IconMatchesInitialChannel` | components/SoundCard.tsx:14-23 | the card's icon table is total and names, for each kind, the icon recorded in the initial channel table |
| `SoundCard.CardLit` | components/SoundCard.tsx:36-40 | a lit card belongs to an active channel whose slider shows a positive value |
| `SoundCard.LitIffActive` | components/SoundCard.tsx:36-40 | for a channel whose flag agrees with its volume, the card and toggle button are lit exactly when it is on |
| `SoundCard.SliderShowsVolume` | components/SoundCard.tsx:54 | under the record invariant the slider always shows the stored volume |
| `SoundCard.SliderOutput` | components/SoundCard.tsx:50-57 | the slider emits values in [0, 1] that are whole multiples of 0.01 |
| `SoundCard.SliderMoveSetsVolume` | components/SoundCard.tsx:55-57 | moving the slider to step n sets that channel to n/100, on exactly when n > 0 |
| `SoundCard.PresetHighlighted` | components/SoundCard.tsx:73 | a highlighted preset (within 0.05 of the volume of an active channel) implies a lit card |
| `SoundCard.AtMostOnePresetHighlighted` | components/SoundCard.tsx:28-32 | of the presets Low 0.2, Med 0.5 and High 0.8, two highlighted presets are the same preset: the presets are 0.3 apart and the window is 0.05 |
| `SoundCard.PresetClickHighlightsIt` | components/SoundCard.tsx:65-81 | clicking a preset turns the channel on at exactly that value, lights the card, highlights exactly that preset and changes no other channel |

## Left out

- Noise buffer generation (`createNoiseBuffer` and its pink and brown variants) is left out: it is `Math.random` plus floating-point filtering. The buffers are the three `NoiseColor` values.
- Web Audio behaviour is left out because it belongs to the platform: the exponential curve of `setTargetAtTime`, biquad and oscillator signal processing, the analyser's FFT data, and `resume` on a suspended context. Only the scheduled ramp parameters and the graph's wiring are recorded.
- The translator service (a network call to a language model and `JSON.parse`) is left out: its outcome is the `response` parameter of `HandleAISubmit`, and any partial settings map is allowed.
- The visualizer canvas is left out: it is drawing driven by animation frames. When idle it fills its 128 frequency bins with 2.
- React's machinery is left out: re-rendering, the asynchronous commit of `setState`, `useCallback` identity, JSX and styling. Each handler runs to completion on the current state. The effect runs only when `SyncEngine` is called.
- `HandleAISubmit` does not model interleaving at the `await`. The source applies the answer to the channel record captured when the submit began, so an edit made while the translator is working is overwritten when the answer arrives. The model applies it to the record current at completion, with no edit in between.
- `ApplySettings` does not model aliasing: the shallow copy shares its channel objects with the previous state, so the source's in-place writes also alter that state's objects. Only the new record is modelled.
- `ApplyResponse` models the visible record after an answer without settings, not the engine's view of it. `setChannels` never runs, so the record reference is unchanged and React does not re-run the volume effect; the engine keeps the previous volumes while the cards show every channel off.
- The settings model has only numeric or undefined values. `null` or non-number values from the parser, and prototype keys such as `__proto__`, are not modelled. A key that is not a kind's name is ignored.
- The unreachable fallback branch of `setupSource` is left out because the kind type is closed.
- The main output gain node, the connections to the destination, the node-creation order and the start of each source and oscillator are not modelled individually. The graph is recorded per kind as a `Topology` value.
- The unused `MixerState` and `AIPreset` types are not modelled.
- The submit button's disabled state is left out: it is UI rendering. The handler's own blank-prompt guard is modelled.
- `preventDefault` on the form event and `stopPropagation` on preset clicks are left out: they are browser event plumbing.
- `parseFloat` of the slider's text value is left out: `SliderOutput` gives the number directly.
