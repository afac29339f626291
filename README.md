# TuneBoard companion: cards, slots and the audio graph

This project models the control core of the TuneBoard companion app. A
board with six slots reports, over Bluetooth, the ids of the cards placed in
it. The app turns that string into a list of cards from a fixed catalog. The
mixer view model keeps the list, the slot status and the personal-recording
import gate. It hands the set of cards to the audio service, which starts and
stops one looping player per track and drives a time-pitch unit, a reverb and
a mixer.

The model has one module per source file:

- `Cards` (`card_info.dfy`) models `Model/CardInfo.swift`: the card kinds,
  their accessors and the ten-entry catalog. It also holds the by-id lookup
  the view model uses.
- `AudioTracks` and `EffectsDefaults` model `Model/AudioTrack.swift` and
  `Model/EffectsDefaultValue.swift`.
- `Bluetooth` (`bluetooth_service.dfy`) models
  `Services/BluetoothService.swift`: the slot decoder as pure functions, and
  the mockup-or-session selection as a class.
- `AudioGraph` (`audio_graph.dfy`) describes the graph as a `Nodes` record
  and every node call as a `NodeOp`. It also holds the pure rules that
  `Services/AudioService.swift` follows: the effect targets under mutual
  exclusion, the ordered list of time-pitch writes, and the buffer cache as
  a function.
- `Audio` (`audio_service.dfy`) models the `AudioService` class. Its
  methods update the fields in place. Every node write goes through
  `Issue`, which also appends it to the ghost log `ops`, so the contracts
  can state which writes happened and in what order.
- `Mixer` (`mixer_view_model.dfy`) models `ViewModels/MixerViewModel.swift`.
  The slot-to-card computation is written as functions with lemmas, and
  `MixerViewModel` is a class whose methods include the property
  observers' forwarding.

Three behaviours of the code are worth stating outright:

- A payload without a single digit decodes to the empty list, not to six
  zeros; only a missing payload gives six zeros.
- `updateSlotStatus` indexes the active cards for all six slots, so a
  payload of fewer than six digits traps there. The model makes at least
  six resolved cards a precondition (`UpdateActiveCards`,
  `SetActiveCards`), and `ShortPayloadCannotBeShown` shows that such a
  payload cannot meet it.
- The audio service is created once for the whole app, while a new mixer
  view model is built on it each time the mixer screen opens. A new view
  model therefore starts without an imported file even when the service
  still holds one. With a personal card on the board it then asks for the
  importer, and the service keeps playing its old file meanwhile. The model
  keeps the two files separate and states this case in
  `GatePersonalRecording` and `UpdateActiveCards`.

## Model

| member | source | states |
|---|---|---|
| AudioTracks.AllCases | EmbeddedSwiftCompanion/Model/AudioTrack.swift:8-13 | `allCases` lists the four tracks, each exactly once |
| AudioTracks.EveryCaseListed | EmbeddedSwiftCompanion/Model/AudioTrack.swift:8-13 | the list `[Melody, Harmony, Groove, Personal]` that `allCases` returns holds every track |
| EffectsDefaults.EffectsDefaultValue.RawValue | EmbeddedSwiftCompanion/Model/EffectsDefaultValue.swift:8-15 | the rate and pitch defaults lie in the range their guarded setters accept: slow in (0, 1], accelerate at least 1, pitch up at least 0, pitch down at most 0; the mix and volume setters are unguarded, and their defaults lie in the ranges of the mixer screen's sliders (Views/MixerView.swift), mix in 0..100 and volume in 0..1 |
| Cards.CardType.AudioFile | EmbeddedSwiftCompanion/Model/CardInfo.swift:29-34 | the asset name is present exactly for instrument cards and is the instrument's file |
| Cards.CardType.Track | EmbeddedSwiftCompanion/Model/CardInfo.swift:36-41 | the track is present exactly for instrument cards and equals t exactly when the card is an instrument on t |
| Cards.CardType.EffectType | EmbeddedSwiftCompanion/Model/CardInfo.swift:43-48 | the effect is present exactly for effect cards, and comparing it with e is comparing the kind with `.effect(e)` |
| Cards.AccessorsExclusive | EmbeddedSwiftCompanion/Model/CardInfo.swift:29-48 | track and audio file are present together; no kind has both a track and an effect; the empty kind has none of the three |
| Cards.CatalogCard | EmbeddedSwiftCompanion/Model/CardInfo.swift:58-122 | catalog entry `id` carries that id |
| Cards.RegisteredCards | EmbeddedSwiftCompanion/Model/CardInfo.swift:58-122 | ten entries; the entry at index i has id i, so ids are unique |
| Cards.CatalogCardsAtTheirIds | EmbeddedSwiftCompanion/Model/CardInfo.swift:58-122 | every catalog card has an id in 0..9 and sits at the index of its id |
| Cards.EmptyCardIsIdZero | EmbeddedSwiftCompanion/Model/CardInfo.swift:59-64 | the catalog entry is the empty card exactly when its id is 0 |
| Cards.CatalogKinds | EmbeddedSwiftCompanion/Model/CardInfo.swift:58-122 | the kind of each of the ten entries, by id |
| Cards.PersonalCardHasNoAsset | EmbeddedSwiftCompanion/Model/CardInfo.swift:102-107 | the personal-recording card is an instrument on the personal track with the empty file name |
| Cards.TrackCardsUnique | EmbeddedSwiftCompanion/Model/CardInfo.swift:77-107 | each track has exactly one instrument card: groove 3, melody 4, harmony 5, personal 7 |
| Cards.EffectCardsUnique | EmbeddedSwiftCompanion/Model/CardInfo.swift:65-121 | each effect has exactly one card: reverb 1, slow 2, accelerate 6, pitch up 8, pitch down 9 |
| Cards.FindById | EmbeddedSwiftCompanion/ViewModels/MixerViewModel.swift:124-126 | `first { $0.id == id }` returns a card of the list carrying the id, and nil exactly when no card carries it |
| Cards.FindByIdFirst | EmbeddedSwiftCompanion/ViewModels/MixerViewModel.swift:124-126 | the card found is the first one carrying the id |
| Cards.FindByIdIndexed | EmbeddedSwiftCompanion/ViewModels/MixerViewModel.swift:124-126 | in a list whose ids count up from `base`, lookup by id is indexing at `id - base`, and nil outside the range |
| Cards.CatalogLookupIsIndex | EmbeddedSwiftCompanion/ViewModels/MixerViewModel.swift:124-126 | looking an id up in the catalog gives the entry at that index for 0..9 and nil for any other id |
| Bluetooth.WholeNumberValue | EmbeddedSwiftCompanion/Services/BluetoothService.swift:99 | a character has a value exactly when it is a decimal digit, and the value is the digit's, 0..9 |
| Bluetooth.DigitValues | EmbeddedSwiftCompanion/Services/BluetoothService.swift:99 | decoding never lengthens the payload, every value is 0..9, and a payload without digits decodes to nothing |
| Bluetooth.DigitValuesAppend | EmbeddedSwiftCompanion/Services/BluetoothService.swift:99 | decoding a concatenation is concatenating the decodings, so order is kept |
| Bluetooth.DigitValuesOfChar | EmbeddedSwiftCompanion/Services/BluetoothService.swift:99 | one character decodes to its digit value, or to nothing when it is not a digit |
| Bluetooth.DigitValuesOfDigits | EmbeddedSwiftCompanion/Services/BluetoothService.swift:99 | a payload of digits only decodes position by position |
| Bluetooth.GetSlotsCard | EmbeddedSwiftCompanion/Services/BluetoothService.swift:95-100 | no payload gives six zeros; a payload gives at most its length in values and a digitless one gives the empty list; every value is a catalog id |
| Bluetooth.SixDigitPayload | EmbeddedSwiftCompanion/Services/BluetoothService.swift:99 | six digits decode to six slots holding the digits' values |
| Bluetooth.BluetoothService.constructor | EmbeddedSwiftCompanion/Services/BluetoothService.swift:47-60 | six slots, all 0 without mockup and each in 0..8 with it; not connected yet |
| Bluetooth.BluetoothService.MockupTimerFired | EmbeddedSwiftCompanion/Services/BluetoothService.swift:54-58 | the refresh leaves six slots, each in 0..5 |
| Bluetooth.BluetoothService.SimulatedPairingElapsed | EmbeddedSwiftCompanion/Services/BluetoothService.swift:88-92 | once the delay passes, the simulated board reports itself connected |
| Bluetooth.BluetoothService.IsPeripheralConnected | EmbeddedSwiftCompanion/Services/BluetoothService.swift:27-32 | the simulated flag in mockup mode, the session's flag otherwise |
| Bluetooth.BluetoothService.SlotCards | EmbeddedSwiftCompanion/Services/BluetoothService.swift:36-41 | the simulated slots (always six) in mockup mode, the decoded payload otherwise; every value is a catalog id |
| AudioGraph.TargetMix | EmbeddedSwiftCompanion/Services/AudioService.swift:252-253 | the custom mix when a reverb card is active, 0 otherwise |
| AudioGraph.TargetPitch | EmbeddedSwiftCompanion/Services/AudioService.swift:255-260 | the pitch-up value when only pitch up is active, the pitch-down value when only pitch down is, 0 when neither or both are |
| AudioGraph.TargetRate | EmbeddedSwiftCompanion/Services/AudioService.swift:268-273 | the slow value when only slow is active, the accelerate value when only accelerate is, 1 when neither or both are |
| AudioGraph.EffectWrites | EmbeddedSwiftCompanion/Services/AudioService.swift:251-283 | the mix is written first; a reset is issued exactly when the rate changes back to 1, and every reset is followed at once by the target pitch and then the rate; no player is touched; an unchanged pitch and rate give the mix write alone |
| AudioGraph.EffectWritesReachTargets | EmbeddedSwiftCompanion/Services/AudioService.swift:251-283 | after the writes the unit holds the three targets whatever it held before, so the pitch is never left stale by the reset; players, volume and preset are untouched |
| AudioGraph.EffectWritesSettle | EmbeddedSwiftCompanion/Services/AudioService.swift:262-282 | deriving the effects again from the same cards issues only the mix write: no pitch write, no rate write, no reset |
| AudioGraph.FetchBuffer | EmbeddedSwiftCompanion/Services/AudioService.swift:349-370 | a hit returns the stored buffer and changes nothing; a loadable miss loads once and inserts exactly that key; any other miss returns nil and changes nothing; no entry is removed or replaced |
| AudioGraph.FetchTwiceSameBuffer | EmbeddedSwiftCompanion/Services/AudioService.swift:349-353 | asking twice for an asset returns the same buffer without a second load |
| Audio.PlayingTargetedTrackUntouched | EmbeddedSwiftCompanion/Services/AudioService.swift:223-247 | no write allowed by `TrackWrite` stops, restarts or re-schedules a track that a card targets and that was already playing |
| Audio.AudioService.constructor | EmbeddedSwiftCompanion/Services/AudioService.swift:82-102 | one stopped player for every track, unit at pitch 0 and rate 1, custom values at their defaults, and only the groove probe in the cache |
| Audio.AudioService.GetCachedBuffer | EmbeddedSwiftCompanion/Services/AudioService.swift:349-370 | result, cache and load count are exactly those of `FetchBuffer` |
| Audio.AudioService.PlayPersonalAudio | EmbeddedSwiftCompanion/Services/AudioService.swift:154-220 | a file that opens and converts is scheduled and the personal player starts; any failure changes nothing |
| Audio.AudioService.HandleInstrumentToggle | EmbeddedSwiftCompanion/Services/AudioService.swift:285-302 | stopping stops the player; the personal track starts only with an imported, convertible file; another track starts exactly when its buffer is fetched, with the cache updated as `FetchBuffer` says |
| Audio.AudioService.ReconcileTrack | EmbeddedSwiftCompanion/Services/AudioService.swift:223-247 | one track is reconciled as `TrackReconciled` says and no other player changes; a track that already matches the cards issues nothing; the cache only grows; at most one write is issued, and only one `TrackWrite` allows for this track |
| Audio.AudioService.UpdateTracks | EmbeddedSwiftCompanion/Services/AudioService.swift:222-249 | every track is reconciled: untargeted tracks stop, playing targeted tracks are not restarted, idle ones start when their file or asset is available; when every track already matches nothing is issued; every write issued is one `TrackWrite` allows, so a targeted track that was playing is never stopped or restarted |
| Audio.AudioService.UpdateEffects | EmbeddedSwiftCompanion/Services/AudioService.swift:251-283 | the writes are exactly `EffectWrites`, appended in order; the unit ends on the three targets and nothing else changes; with pitch and rate already on target only the mix is written |
| Audio.AudioService.WritePitch | EmbeddedSwiftCompanion/Services/AudioService.swift:262-264 | the pitch is written only when it differs from the target |
| Audio.AudioService.WriteRate | EmbeddedSwiftCompanion/Services/AudioService.swift:275-282 | the rate is written only when it differs; when the target is 1 a reset and the pitch come first, so the pitch ends where it was |
| Audio.AudioService.UpdatePlayback | EmbeddedSwiftCompanion/Services/AudioService.swift:104-109 | `PlaybackUpdated` from the old state: mockup mode changes nothing; otherwise the set is recorded, tracks are reconciled, and the effect writes come last, are exactly `EffectWrites`, and reach their targets with volume and preset untouched; once every targeted track plays the service is settled, and a settled service handed the same set again issues only the mix write; the cache only grows and keeps its entries; the writes before the effect writes are all ones `TrackWrite` allows, so no playing targeted track is restarted |
| Audio.AudioService.ReconcileAll | EmbeddedSwiftCompanion/Services/AudioService.swift:107-108 | tracks then effects, with the same guarantees as `UpdatePlayback` outside mockup mode, the cache only growing and keeping its entries; the writes before the effect writes are all ones `TrackWrite` allows |
| Audio.AudioService.IsSlowAndAcceleratedActive | EmbeddedSwiftCompanion/Services/AudioService.swift:336-340 | holds exactly when slow and accelerate are both active among the played cards |
| Audio.AudioService.IsPitchUpAndDownActive | EmbeddedSwiftCompanion/Services/AudioService.swift:342-346 | holds exactly when pitch up and pitch down are both active among the played cards |
| Audio.AudioService.ChangeReverb | EmbeddedSwiftCompanion/Services/AudioService.swift:305-307 | the chosen preset is loaded into the reverb |
| Audio.AudioService.ChangeVolume | EmbeddedSwiftCompanion/Services/AudioService.swift:309-311 | the volume is written unconditionally |
| Audio.AudioService.ChangeReverbMix | EmbeddedSwiftCompanion/Services/AudioService.swift:313-315 | the mix is written unconditionally, whether or not a reverb card is active |
| Audio.AudioService.ChangePitchUp | EmbeddedSwiftCompanion/Services/AudioService.swift:317-320 | the pitch is written exactly when the value is at least 0 and the two pitch cards are not both active; otherwise nothing changes |
| Audio.AudioService.ChangePitchDown | EmbeddedSwiftCompanion/Services/AudioService.swift:322-325 | the pitch is written exactly when the value is at most 0 and the two pitch cards are not both active; otherwise nothing changes |
| Audio.AudioService.ChangeSlowRate | EmbeddedSwiftCompanion/Services/AudioService.swift:327-330 | the rate is written exactly when the value is at most 1 and slow and accelerate are not both active; otherwise nothing changes |
| Audio.AudioService.ChangeAccelerateRate | EmbeddedSwiftCompanion/Services/AudioService.swift:331-334 | the rate is written exactly when the value is at least 1 and slow and accelerate are not both active; otherwise nothing changes |
| Audio.AudioService.SetReverbPresetCustom | EmbeddedSwiftCompanion/Services/AudioService.swift:37-41 | storing the preset loads it |
| Audio.AudioService.SetReverbWetDryCustom | EmbeddedSwiftCompanion/Services/AudioService.swift:43-47 | storing the mix writes it |
| Audio.AudioService.SetAccelerateRateCustom | EmbeddedSwiftCompanion/Services/AudioService.swift:50-54 | storing the value runs the guarded accelerate write |
| Audio.AudioService.SetSlowRateCustom | EmbeddedSwiftCompanion/Services/AudioService.swift:56-60 | storing the value runs the guarded slow write |
| Audio.AudioService.SetPitchUpCustom | EmbeddedSwiftCompanion/Services/AudioService.swift:63-67 | storing the value runs the guarded pitch-up write |
| Audio.AudioService.SetPitchDownCustom | EmbeddedSwiftCompanion/Services/AudioService.swift:69-73 | storing the value runs the guarded pitch-down write |
| Audio.AudioService.SetCustomVolume | EmbeddedSwiftCompanion/Services/AudioService.swift:75-79 | storing the volume writes it |
| Mixer.ValidIds | EmbeddedSwiftCompanion/ViewModels/MixerViewModel.swift:123 | keeps only non-negative ids, each taken from the slots, never more than there are slots, and all of them when none is negative |
| Mixer.ValidIdsAppend | EmbeddedSwiftCompanion/ViewModels/MixerViewModel.swift:123 | filtering a concatenation is concatenating the filtered parts, so order is kept |
| Mixer.LookUpCards | EmbeddedSwiftCompanion/ViewModels/MixerViewModel.swift:124-126 | never yields more cards than ids |
| Mixer.LookUpCardsAppend | EmbeddedSwiftCompanion/ViewModels/MixerViewModel.swift:124-126 | looking up a concatenation is concatenating the lookups, so order is kept |
| Mixer.LookUpCardsFromAvailable | EmbeddedSwiftCompanion/ViewModels/MixerViewModel.swift:124-126 | every card looked up is one of the available cards |
| Mixer.LookUpCardsAllFound | EmbeddedSwiftCompanion/ViewModels/MixerViewModel.swift:124-126 | when every id is found, one card per id, in order, each the first carrying its id |
| Mixer.ResolveCards | EmbeddedSwiftCompanion/ViewModels/MixerViewModel.swift:123-126 | never more cards than slots |
| Mixer.ResolveCardsAppend | EmbeddedSwiftCompanion/ViewModels/MixerViewModel.swift:123-126 | slots are resolved one by one and their order is kept |
| Mixer.ResolveOneSlot | EmbeddedSwiftCompanion/ViewModels/MixerViewModel.swift:123-126 | one slot gives the catalog card with its id, or nothing when the id is negative or unknown |
| Mixer.ResolvedAreCatalogCards | EmbeddedSwiftCompanion/ViewModels/MixerViewModel.swift:123-126 | every active card is a catalog card found at its own id |
| Mixer.ResolveCatalogSlots | EmbeddedSwiftCompanion/ViewModels/MixerViewModel.swift:123-127 | when every slot holds 0..9 there are as many cards as slots and card k is the catalog card with the id of slot k |
| Mixer.CardSet | EmbeddedSwiftCompanion/ViewModels/MixerViewModel.swift:146 | the set handed to the service holds exactly the listed cards |
| Mixer.PersonalGateAgrees | EmbeddedSwiftCompanion/ViewModels/MixerViewModel.swift:129-131 | the gate's personal-card test agrees with the service's personal-track test on the same cards |
| Mixer.EffectQueryAgrees | EmbeddedSwiftCompanion/ViewModels/MixerViewModel.swift:178-180 | an effect is listed among the cards exactly when the service sees it active |
| Mixer.SlotNumbers | EmbeddedSwiftCompanion/ViewModels/MixerViewModel.swift:30-38 | the slot numbers are 1 to 6 |
| Mixer.SlotOnIffNonEmptyId | EmbeddedSwiftCompanion/ViewModels/MixerViewModel.swift:160-169 | with six catalog ids, slot s shows as on exactly when its id is not 0 |
| Mixer.IconOfSlot | EmbeddedSwiftCompanion/ViewModels/MixerViewModel.swift:149-152 | the icon of slot s is the icon of the catalog card of its id; numbers outside 1..10 give "minus" |
| Mixer.PresetFor | EmbeddedSwiftCompanion/ViewModels/MixerViewModel.swift:84-88 | a listed name selects its preset, any other name the cathedral |
| Mixer.PresetNamesCoverPresets | EmbeddedSwiftCompanion/ViewModels/MixerViewModel.swift:22-28 | each of the four offered presets has exactly one name, and unknown names fall back to the cathedral |
| Mixer.SixDigitPayloadResolves | EmbeddedSwiftCompanion/ViewModels/MixerViewModel.swift:122-127 | a six-digit payload gives six active cards, card k carrying the k-th digit as its id |
| Mixer.NoPayloadResolvesEmpty | EmbeddedSwiftCompanion/Services/BluetoothService.swift:96-98 | before any payload the six slots resolve to six empty cards |
| Mixer.ShortPayloadCannotBeShown | EmbeddedSwiftCompanion/ViewModels/MixerViewModel.swift:163 | a payload with fewer than six digits resolves to fewer than six cards, which the slot-status update cannot index |
| Mixer.MockupSlotsResolve | EmbeddedSwiftCompanion/Services/BluetoothService.swift:53 | the simulated slots always resolve to six cards |
| Mixer.EffectAbsent | EmbeddedSwiftCompanion/Services/AudioService.swift:252-269 | an effect none of whose cards is in the set is not active |
| Mixer.TrackAbsent | EmbeddedSwiftCompanion/Services/AudioService.swift:227-232 | a track that no card in the set plays on is not targeted |
| Mixer.GrooveOnlyCards | EmbeddedSwiftCompanion/ViewModels/MixerViewModel.swift:123-127 | slots 3,0,0,0,0,0 give the groove card followed by five empty cards |
| Mixer.GrooveCardsOnlyGroove | EmbeddedSwiftCompanion/Services/AudioService.swift:251-283 | a groove card and empty cards target only the groove track, with no effect, pitch 0 and rate 1 |
| Mixer.GrooveOnlyScenario | EmbeddedSwiftCompanion/ViewModels/MixerViewModel.swift:122-146 | slots 3,0,0,0,0,0 make the service target the groove track alone, with pitch 0, rate 1 and no reverb |
| Mixer.PitchCancelCards | EmbeddedSwiftCompanion/ViewModels/MixerViewModel.swift:123-127 | slots 8,9,0,0,0,0 give pitch up, pitch down and four empty cards |
| Mixer.PitchCardsCancel | EmbeddedSwiftCompanion/Services/AudioService.swift:255-260 | with both pitch cards active the pitch target is 0, the rate 1, and no track is targeted |
| Mixer.PitchCancelScenario | EmbeddedSwiftCompanion/ViewModels/MixerViewModel.swift:122-146 | slots 8,9,0,0,0,0 make pitch up and pitch down cancel, so the pitch is 0 and no track plays |
| Mixer.MixerViewModel.constructor | EmbeddedSwiftCompanion/ViewModels/MixerViewModel.swift:105-119 | the control values start at their defaults, the cathedral is selected, there are no active cards, all six slots are off, and the view model has no imported file while the service keeps whatever file it holds |
| Mixer.MixerViewModel.UpdateSlotStatus | EmbeddedSwiftCompanion/ViewModels/MixerViewModel.swift:160-169 | whatever order the slots are visited in, afterwards each slot is on exactly when its card is not empty, and the slot numbers are unchanged |
| Mixer.MixerViewModel.SetActiveCards | EmbeddedSwiftCompanion/ViewModels/MixerViewModel.swift:96-100 | storing the cards refreshes the status of the six slots |
| Mixer.MixerViewModel.SetPersonalAudioURL | EmbeddedSwiftCompanion/ViewModels/MixerViewModel.swift:90-94 | storing the file forwards it to the service |
| Mixer.MixerViewModel.GatePersonalRecording | EmbeddedSwiftCompanion/ViewModels/MixerViewModel.swift:129-144 | with a personal card, a missing file opens the importer and leaves the service's file as it was, and a present one is handed to the service with the importer untouched; without one both sides forget the file and the importer closes |
| Mixer.MixerViewModel.AssignActiveCards | EmbeddedSwiftCompanion/ViewModels/MixerViewModel.swift:122-144 | the active cards become the resolved slots with the slot status refreshed, and the personal gate's three cases hold; of the service only its file may change |
| Mixer.MixerViewModel.UpdateActiveCards | EmbeddedSwiftCompanion/ViewModels/MixerViewModel.swift:122-147 | the active cards become the resolved slots with the slot status refreshed, the personal gate runs (leaving the service's file in place while the importer is asked for), and the service ends in the state `PlaybackUpdated` describes for the set of active cards: nothing changed in mockup mode, otherwise tracks reconciled against the service's file, the effect writes exactly `EffectWrites` and on their targets, volume and preset untouched, the mix write alone from a settled state; the cache only grows; the track writes are all ones `TrackWrite` allows, so no playing targeted track is restarted |
| Mixer.MixerViewModel.GetIcon | EmbeddedSwiftCompanion/ViewModels/MixerViewModel.swift:149-152 | "minus" outside 1..10, otherwise the icon of that slot's card |
| Mixer.MixerViewModel.GetSlotBool | EmbeddedSwiftCompanion/ViewModels/MixerViewModel.swift:154-158 | off outside 1..6, including 7..10 which pass the range guard; otherwise on exactly when the slot's card is not empty |
| Mixer.MixerViewModel.IsEffectActive | EmbeddedSwiftCompanion/ViewModels/MixerViewModel.swift:178-180 | on exactly when the service, handed these cards, sees the effect active |
| Mixer.MixerViewModel.SetSelectedViewReverb | EmbeddedSwiftCompanion/ViewModels/MixerViewModel.swift:84-88 | the name's preset (the cathedral when unknown) is selected, forwarded and loaded before the name is stored; the preset load is the one write logged |
| Mixer.MixerViewModel.SetReverbIntensity | EmbeddedSwiftCompanion/ViewModels/MixerViewModel.swift:47-51 | the value is forwarded and the mix written; the mix write is the one write logged |
| Mixer.MixerViewModel.SetVolumeValue | EmbeddedSwiftCompanion/ViewModels/MixerViewModel.swift:53-58 | the value is forwarded and the volume written; the volume write is the one write logged |
| Mixer.MixerViewModel.SetPitchUpValue | EmbeddedSwiftCompanion/ViewModels/MixerViewModel.swift:60-64 | the value is forwarded, and the pitch written only under the pitch-up guard; the write log gains exactly that pitch write, and nothing when the guard fails |
| Mixer.MixerViewModel.SetPitchDownValue | EmbeddedSwiftCompanion/ViewModels/MixerViewModel.swift:66-70 | the value is forwarded, and the pitch written only under the pitch-down guard; the write log gains exactly that pitch write, and nothing when the guard fails |
| Mixer.MixerViewModel.SetSlowIntensity | EmbeddedSwiftCompanion/ViewModels/MixerViewModel.swift:72-76 | the value is forwarded, and the rate written only under the slow guard; the write log gains exactly that rate write, and nothing when the guard fails |
| Mixer.MixerViewModel.SetAccelerateIntensity | EmbeddedSwiftCompanion/ViewModels/MixerViewModel.swift:78-82 | the value is forwarded, and the rate written only under the accelerate guard; the write log gains exactly that rate write, and nothing when the guard fails |

## Left out

- Graph wiring, the audio session and engine start (`setupAudioEngine`) are not modelled. Only its format probe, which loads the groove asset into the cache, is kept. When that probe fails, `setupAudioEngine` returns before wiring the graph and starting the engine; the model does not capture that early return, so its players can still start afterwards.
- Reading bundled assets is not modelled. Whether an asset opens, gets a buffer and reads is the constant set `loadable`.
- Opening and converting an imported file in `playPersonalAudio` is not modelled. Whether it succeeds is the constant set `convertible`.
- `Float` values are `real`: rounding and NaN are not modelled, and comparisons are exact.
- A reset of the time-pitch unit is modelled as restoring its defaults, pitch 0 and rate 1. The code writes both again right after a reset, so nothing depends on this choice.
- `ReverbPreset` lists only the four presets the mixer offers by name. The service's `reverbPresetCustom` accepts any of the framework's factory presets, and the others are not modelled.
- `Set.first` in `updateTracks` picks an arbitrary matching card, modelled as "some matching card". With the catalog there is at most one card per track.
- Bluetooth.WholeNumberValue: only ASCII digits have a value. Other Unicode numeric characters are treated as non-digits.
- Bluetooth.DigitValues: the payload is walked one Unicode scalar at a time, while Swift's `compactMap` over a `String` walks grapheme clusters. A digit followed by a combining mark (such as "1" then U+20E3) is a single cluster with no whole-number value in Swift, so it decodes to nothing there but to its digit here. The two agree on payloads of ASCII characters only, which is what the board sends.
- The peripheral session manager is not modelled. What it last received is passed in as a `Session` value.
- Timers and delayed blocks are not modelled. The mockup timer and the pairing delay become methods (`MockupTimerFired`, `SimulatedPairingElapsed`), and the random draws are arbitrary choices within their bounds.
- `actualVolume` is not modelled, because its string-to-float scaling is float arithmetic. `mapValue` is left out for the same reason.
- The setter of the `isSlotActive` binding is not modelled. With it left out the slot numbers stay 1 to 6.
- Logging with `print` is not modelled.
- The pairing, connect, disconnect and remove calls only forward to the session manager and are not modelled.
