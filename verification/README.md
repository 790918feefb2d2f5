# Verified model of the webview-gui examples' real-time core

A Dafny model of the parts of the webview-gui repository where several threads or several copies of
the same fact have to agree: the PolySynth voice pipeline, the handoffs between audio thread and
editor, and the two byte codecs.

## What it models

**The voice pipeline.** A voice is known to four layers: the allocator owns its slot, the scheduler
keeps its deferred-release flag, the lifecycle its generation and stage, the engine its envelope
counters. `VoicePool` is the allocator as a queue, `VoiceAllocator` the array of serials that
implements it. `VoiceSlots` says what one pass does to one slot, `VoiceMachine` puts passes, events,
frames and blocks together as a state machine, and `VoiceEngine` is the engine over arrays, with every
method tied to that machine. About the machine: the layers agree in every reachable state
(`VoiceMachine`), each event of the input does to each voice what it should and to no other anything
(`NoteDispatch`), cutting the event stream into blocks changes nothing (`BlockPartition`), notes are
conserved (`NoteConservation`), releases take exactly their time (`ReleaseTiming`), counted from the
note-off in the input (`ReleaseFromInput`), every level is that of a closed form (`EnvelopeShape`), and
who is in a frame, and how loud, can be read off the records alone (`RenderedFrames`). The envelope is
what the host set in seconds (`AmpEnvelope`), so the tail told to the host covers every release
(`TailPublication`), and what the sustain pedal holds back it delivers (`SustainPedal`). `VoiceTicks`
unrolls runs into single steps. `UiVoiceCounter` adds the counter that the plug-in's proxy keeps from
outside.

Oscillator, filter and expression state is a term that records what it was made from: two equal terms
stand for the same signal under every interpretation of the signal path. `PolyphonicParameters` and
`VoicePitch` model the per-voice overrides and the pitch composed from them; over whole runs both are
functions of the events alone (`VoicePitches.Follow`, `VoicePitches.PlayedPitch`).

**Handoffs.** Each is a state machine whose steps are single atomic loads and stores, or sections under
one mutex, with a program counter for every thread; the results hold for all interleavings.
`CallbackRegistry` and `CallbackDrain` are the registry that waits for callbacks to leave; `SeqLock`
the counter-guarded snapshot, used by `GainMeter` and by `StateHandoff`, the loaded-state protocol, of
which `EffectiveState` says what parameter values are in effect;
`RealtimeHandoff` the single-producer ring, used by `GestureQueue` with its reservation for open
gestures (class `UiParameterQueue`) and by `ModulationTelemetry`, the drop-newest queue, whose records
end in the editor's `TelemetryView`.

**Codecs.** `Base64` (RFC 4648, sections 4 and 3.5) and `PresetBrowserProtocol` (WVP2 requests, WVB2
snapshots) with full inverses; `Bytes` holds what they share, `Wrappers` the option type of all modules.

Two promises turn out to need a condition. The editor's voice counter is exact after a run if and only
if no note came in as raw MIDI since the start, or since some block that ended in silence
(`CounterIsExactIff`, `RawMidiBreaksTheCount`). An invalidating telemetry message leaves only records
behind that are later than the drops it counts if and only if no push was accepted between the copy
and such a drop (`InvalidationIsSoundIff`); otherwise the view can take in a record older than the
drop (`DisturbedReadingIsUnsound`, `OlderRecordIsApplied`).

Check everything with `dafny verify dfyconfig.toml`.

## Model

| member | source | states |
|---|---|---|
| `VoicePool.Choose` | examples/polysynth/polysynth_voice_allocator.h:76-97 | the lowest free slot if there is one, otherwise the head of the allocation queue, and then no slot is free |
| `VoicePool.Remaining` | examples/polysynth/polysynth_voice_allocator.h:76-97 | reusing a slot removes it, and only it, from the queue |
| `VoicePool.StealsTheOldest` | examples/polysynth/polysynth_voice_allocator.h:76-97 | after any run of allocations and releases a full pool steals exactly the voice allocated longest ago |
| `VoicePool.KeepOwnedFacts` | examples/polysynth/polysynth_voice_allocator.h:103-111 | a release takes exactly the slots without owner off the queue and repeats none |
| `VoicePool.KeepOwnedOrder` | examples/polysynth/polysynth_voice_allocator.h:103-111 | those left stand in the order they stood in, wherever the queue is cut |
| `VoicePool.RunKeepsByAge` | examples/polysynth/polysynth_voice_allocator.h:118-136 | over every run the queue lists the owned slots from oldest to newest allocation |
| `VoiceAllocators.VoiceAllocator.Configure` | examples/polysynth/polysynth_voice_allocator.h:41-48 | accepts 1 to 64 voices and starts with an empty pool; otherwise changes nothing |
| `VoiceAllocators.VoiceAllocator.Reset` | examples/polysynth/polysynth_voice_allocator.h:50-54 | the pool is empty again, its size kept |
| `VoiceAllocators.VoiceAllocator.FindExact` | examples/polysynth/polysynth_voice_allocator.h:67-74 | the first slot owned under exactly that identity, or none is |
| `VoiceAllocators.VoiceAllocator.AllocateDetailed` | examples/polysynth/polysynth_voice_allocator.h:76-97 | the scan over slots and serials does what the queue does, and answers the same slot and replaced identity |
| `VoiceAllocators.VoiceAllocator.ReleaseAt` | examples/polysynth/polysynth_voice_allocator.h:103-111 | releases the slot only for its exact identity, as deletion from the queue |
| `VoiceAllocators.VoiceAllocator.ReleaseExact` | examples/polysynth/polysynth_voice_allocator.h:113-116 | releases the first slot with that identity if there is one |
| `VoiceAllocators.VoiceAllocator.NextAllocationSerial` | examples/polysynth/polysynth_voice_allocator.h:132-136 | a serial above every serial in use and within 64 bits; pool and queue unchanged |
| `VoiceAllocators.VoiceAllocator.RenormalizeAllocationSerials` | examples/polysynth/polysynth_voice_allocator.h:138-162 | at the counter maximum the active slots are re-ranked 1, 2, ... along the queue; nothing observable changes |
| `EnvelopeShape.NewVoiceIsShaped` | examples/polysynth/polysynth_voice_engine.h:822-867 | a started voice stands at frame 0 of its closed form: silent at the start of its attack, or at the peak at the start of its decay, or at its sustain level, whichever stage is the first with any time |
| `VoiceSlots.StepKeepsSlotOk` | examples/polysynth/polysynth_voice_engine.h:933-1047 | every pass keeps allocator slot, lifecycle slot and voice in agreement on liveness, identity, generation and releasing, and none of its checks fails |
| `VoiceSlots.StepAccount` | examples/polysynth/polysynth_voice_lifecycle.h:169-204 | a pass over an owned slot records nothing, the start of its release once, or its one end, as the slot changed |
| `VoiceSlots.ReleaseCountdown` | examples/polysynth/polysynth_voice_engine.h:1017-1046 | only rendering counts a release down, by one per frame; it ends with its last sample, or at offset 0 of the next block |
| `VoiceMachine.SweepKeepsEngineOk` | examples/polysynth/polysynth_voice_engine.h:958-1047 | a pass over all voices keeps the layers in agreement and reports no error |
| `VoiceMachine.NoteOnKeepsEngineOk` | examples/polysynth/polysynth_note_scheduler.h:629-653 | an accepted NOTE_ON keeps the layers in agreement, free slot or steal |
| `VoiceMachine.Process` | examples/polysynth/polysynth_voice_engine.h:502-558 | the layers agree after every block, successful or not |
| `VoiceMachine.RenderRange` | examples/polysynth/polysynth_voice_engine.h:1049-1089 | rendering never reports an error in a reachable state |
| `VoiceMachine.PedalUpLeavesNone` | examples/polysynth/polysynth_note_scheduler.h:666-696 | after a pedal-up no deferred release is left on the channel |
| `VoiceTicks.BlocksUnroll` | examples/polysynth/polysynth_voice_engine.h:502-558 | a run over blocks is a run over single completion passes, frames and events in absolute time |
| `VoiceTicks.BlockSucceedsIff` | examples/polysynth/polysynth_note_scheduler.h:119-185 | a block succeeds if and only if it has frames and its events are readable, sorted, inside the block and, where they ask the core-event sink or its NOTE_ON hook, answered with success, MIDI messages included |
| `BlockPartition.LastFrameThenComplete` | examples/polysynth/polysynth_voice_engine.h:1017-1040 | a frame that closes its block followed by the completion pass of the next one equals a frame inside a block |
| `BlockPartition.BlocksAreOneBlock` | examples/polysynth/polysynth_voice_engine.h:502-558 | any successive blocks do what one large block does: same frames, same records at the same absolute times and order, same state |
| `BlockPartition.CutCovers` | examples/polysynth/polysynth_voice_engine.h:502-558 | cutting a stream at any block sizes gives valid blocks that join back to the stream |
| `BlockPartition.CuttingChangesNothing` | examples/polysynth/polysynth_voice_engine.h:502-558 | cutting any time-sorted event stream into non-empty blocks changes no frame, NOTE_END or final voice state |
| `NoteConservation.NotesAreConserved` | examples/polysynth/polysynth_voice_lifecycle.h:122-141 | over every run, for each identity and in total: notes sounding before plus notes started equal notes sounding after plus notes ended |
| `NoteConservation.StartedAreTheNoteOns` | examples/polysynth/polysynth_note_scheduler.h:629-653 | the notes a successful run starts are exactly the valid NOTE_ONs of its input, in order |
| `NoteConservation.BlocksSucceedIff` | examples/polysynth/polysynth_note_scheduler.h:119-185 | a run over blocks succeeds if and only if every block is acceptable by itself, the answers of the sink included |
| `NoteConservation.BlockRecordsOrdered` | examples/polysynth/polysynth_voice_engine.h:1017-1040 | inside a block the NOTE_END offsets never decrease and stay below the frame count |
| `ReleaseTiming.RunsPassTheAudit` | examples/polysynth/polysynth_voice_lifecycle.h:122-204 | the records of every run pass an independent auditor, whose book then agrees with the engine |
| `ReleaseTiming.ReleaseTakesItsTime` | examples/polysynth/polysynth_voice_engine.h:869-876 | a voice let go at absolute sample t ends at exactly t + R unless stolen or choked before, or still sounds with t + R - now samples left; R is its NOTE_ON release |
| `ReleaseTiming.ReleasedWasLetGo` | examples/polysynth/polysynth_voice_engine.h:1017-1040 | every end by release is exactly its release time after the voice was let go |
| `ReleaseTiming.TailCoversEveryRelease` | examples/polysynth/polysynth_plugin.cpp:1524-1548 | the published tail covers what is left of every release and a NoteOff given now |
| `NoteDispatch.NoteOnStarts` | examples/polysynth/polysynth_note_scheduler.h:629-653 | a valid NOTE_ON starts exactly one voice, under its identity, velocity and the envelope in force, in the lowest free slot or that of the oldest voice, which ends as stolen; an invalid one changes nothing |
| `NoteDispatch.NoteOffLetsGo` | examples/polysynth/polysynth_note_scheduler.h:174-180 | a valid NOTE_OFF lets go of exactly the voices that agree with it in every field it names and are not in their release yet, once each; every other voice stays as it is |
| `NoteDispatch.NoteChokeEnds` | examples/polysynth/polysynth_note_scheduler.h:174-180 | a valid NOTE_CHOKE ends exactly the voices that agree with it in every field it names, at once; every other voice stays as it is |
| `NoteDispatch.MidiNoteOff` | examples/polysynth/polysynth_note_scheduler.h:336-354 | a MIDI note-off, or a note-on with velocity 0, reaches exactly the voices of its channel and key: let go while the pedal is up, only marked while it is down |
| `NoteDispatch.MidiNoteOn` | examples/polysynth/polysynth_note_scheduler.h:336-345 | a MIDI note-on replays its expressions to every sounding voice as far as the sink takes them, and if it takes them all starts the note at velocity over 127 |
| `NoteDispatch.CoreEvents` | examples/polysynth/polysynth_voice_engine.h:102-116 | an accepted core event reaches the signal of every sounding voice and the defaults of later ones, in order; an envelope becomes the one in force and no voice sounding changes its own |
| `NoteDispatch.PedalUpMessage` | examples/polysynth/polysynth_note_scheduler.h:463-541 | controller 64 below 64, and Reset All Controllers: the pedal of the channel is up, each voice held back there is let go exactly once, no other voice changes owner or stage, none stays held back |
| `NoteDispatch.PedalDownMessage` | examples/polysynth/polysynth_note_scheduler.h:463-473 | controller 64 from 64 on: the pedal of the channel is down and no voice changes |
| `NoteDispatch.AllSoundOff` | examples/polysynth/polysynth_note_scheduler.h:500-504 | controller 120 ends exactly the voices of the channel at once, pedal or not |
| `NoteDispatch.AllNotesOff` | examples/polysynth/polysynth_note_scheduler.h:543-554 | controllers 123 to 127: exactly the voices of the channel are let go, or only marked while its pedal is down |
| `NoteDispatch.OtherMessages` | examples/polysynth/polysynth_note_scheduler.h:328-402 | every other message starts, lets go of and ends no voice and moves no pedal |
| `ReleaseFromInput.EventInRun` | examples/polysynth/polysynth_note_scheduler.h:119-185 | each event of each block of a run is dispatched at its own absolute sample: the frames of the blocks before it plus its offset |
| `ReleaseFromInput.NoteOffTakesItsTime` | examples/polysynth/polysynth_note_scheduler.h:174-180 | in any successful run, a NOTE_OFF in the input lets each voice it addresses go at the absolute sample of the event, and the voice sounds for exactly the release time of its NOTE_ON after that, unless stolen or choked before |
| `ReleaseFromInput.MidiNoteOffTakesItsTime` | examples/polysynth/polysynth_note_scheduler.h:336-354 | the same for a MIDI note-off while the pedal is up |
| `ReleaseFromInput.PedalUpTakesItsTime` | examples/polysynth/polysynth_note_scheduler.h:463-541 | the same for the voices that a pedal-up or Reset All Controllers finds held back |
| `ReleaseFromInput.NoteChokeEndsAtOnce` | examples/polysynth/polysynth_note_scheduler.h:174-180 | in any successful run, a NOTE_CHOKE in the input ends each voice it addresses at the absolute sample of the event |
| `EnvelopeShape.PlainEnvelope` | examples/polysynth/polysynth_voice_engine.h:975-1015 | where no level is small enough to be flushed, the closed form is the textbook envelope: min(peak, k peak / attack), then max(target, peak - (k - attack)(peak - target) / decay), then the target, peak being the velocity and the target velocity times sustain |
| `EnvelopeShape.PlainRelease` | examples/polysynth/polysynth_voice_engine.h:869-876 | likewise for the release: max(0, level - j level / release) |
| `EnvelopeShape.StepKeepsShape` | examples/polysynth/polysynth_voice_engine.h:975-1047 | every pass keeps a voice on its lines: stage, level and countdown are those of the closed form for the frames rendered since its NOTE_ON and, if it was let go, since then, flushes included |
| `EnvelopeShape.TicksKeepShapes` | examples/polysynth/polysynth_voice_engine.h:502-558 | so they are in every state of every run, successful or not, and the envelope in force is the latest one accepted |
| `RenderedFrames.StagesByTheClock` | examples/polysynth/polysynth_voice_engine.h:975-1047 | after any successful run a voice not let go is in its attack for exactly the attack time since its NOTE_ON, in its decay for exactly the decay time after that, and then sustains; one let go is in its release |
| `RenderedFrames.FramesHoldSoundingVoices` | examples/polysynth/polysynth_voice_engine.h:1049-1089 | in any successful run, whatever is mixed into a frame is a voice started and not ended by then, at the level its closed form has for the samples since its NOTE_ON and its note-off |
| `RenderedFrames.SoundingVoicesAreInTheFrame` | examples/polysynth/polysynth_voice_engine.h:1049-1089 | and every voice started and not ended by then is mixed in, at that level |
| `RenderedFrames.EachVoiceOnce` | examples/polysynth/polysynth_voice_engine.h:1060-1085 | no voice is mixed into a frame twice |
| `AmpEnvelope.WholeSamples` | examples/polysynth/polysynth_parameter_voice_engine.h:395-417 | a time given in samples and kept in seconds comes back as the same number of samples |
| `AmpEnvelope.InRangeNeverFails` | examples/polysynth/polysynth_parameter_voice_engine.h:26-40 | at a sample rate the adapter is configured for, no envelope value in its published range is ever refused |
| `AmpEnvelope.EnvelopeCountsEachTime` | examples/polysynth/polysynth_parameter_voice_engine.h:395-464 | each time of the envelope is that of its own parameter to the nearest sample, the release at least one; there is an envelope exactly when all times can be counted and the sustain level is a level |
| `AmpEnvelope.ParametersFollowTheHost` | examples/polysynth/polysynth_parameter_voice_engine.h:424-464 | after any events each of the four parameters stands at the latest value in range that was set for it and for all voices |
| `AmpEnvelope.EventKeepsAgreement` | examples/polysynth/polysynth_parameter_voice_engine.h:1247-1257 | one event, taken or refused, leaves the engine's envelope equal to the four parameters in samples |
| `AmpEnvelope.SecondsAgree` | examples/polysynth/polysynth_parameter_voice_engine.h:424-464 | after any blocks, successful or not, values set between blocks and resets, the engine's envelope is what the four parameters in seconds say |
| `AmpEnvelope.AmpEnvelopeParameters.Configure` | examples/polysynth/polysynth_parameter_voice_engine.h:26-58 | accepts exactly the sample rates in which ten seconds can be counted, and starts with seconds and samples in agreement |
| `AmpEnvelope.AmpEnvelopeParameters.ApplyAmpEnvelopeValue` | examples/polysynth/polysynth_parameter_voice_engine.h:424-464 | all four seconds and the engine's envelope change together, or none does |
| `AmpEnvelope.AmpEnvelopeParameters.ParameterBaseValue` | examples/polysynth/polysynth_parameter_voice_engine.h:126-169 | the value a parameter stands at |
| `TailPublication.TailIsTheEngineRelease` | examples/polysynth/polysynth_plugin.cpp:177-202 | for every release up to ten seconds the conversion succeeds exactly for a positive sample rate that ten seconds can be counted in, and gives the engine's own number |
| `TailPublication.TailPublisher.SyncTailFromEngine` | examples/polysynth/polysynth_plugin.cpp:1524-1548 | reads the release parameter, publishes the longer of its tail and the longest owned release with the revision, tells the host of a change, and covers every voice; changes nothing when the conversion fails |
| `TailPublication.PublishedTailCovers` | examples/polysynth/polysynth_plugin.cpp:1535-1548 | with parameters and engine in agreement, what is published covers every release under way, every sounding voice let go now, and every note that starts from now on |
| `TailPublication.TailCoversAfterAnyTurns` | examples/polysynth/polysynth_plugin.cpp:1524-1548 | the same from configuration on, after any blocks, values and resets |
| `SustainPedal.DeferredMeansPedalDown` | examples/polysynth/polysynth_note_scheduler.h:655-664 | in every reachable state a deferred release belongs to a sounding voice whose channel holds the pedal down |
| `SustainPedal.PedalUpDelivers` | examples/polysynth/polysynth_note_scheduler.h:463-473 | a pedal-up releases each voice held back on the channel exactly once, no other voice, and leaves none held back |
| `SustainPedal.PedalHoldsNotes` | examples/polysynth/polysynth_note_scheduler.h:350-357 | with the pedal down a MIDI note-off only marks the matching voices |
| `VoiceEngines.VoiceEngine.Configure` | examples/polysynth/polysynth_voice_engine.h:22-62 | accepts 1 to 64 voices, a positive finite sample rate, a positive release and filter tables that could be prepared, and starts silent with no MIDI state; a bad rate or release changes nothing |
| `VoiceEngines.VoiceEngine.Reset` | examples/polysynth/polysynth_voice_engine.h:258-267 | every voice and all MIDI state is gone; envelope, defaults and generation counter stay |
| `VoiceEngines.VoiceEngine.CompleteRelease` | examples/polysynth/polysynth_voice_lifecycle.h:122-141 | retires the slot and emits NOTE_END exactly when it is releasing under the expected generation and still owned |
| `VoiceEngines.VoiceEngine.ApplyNoteOff` | examples/polysynth/polysynth_voice_lifecycle.h:188-193 | marks the lifecycle slot as releasing and starts the release of the voice of that generation |
| `VoiceEngines.VoiceEngine.ApplyNoteChoke` | examples/polysynth/polysynth_voice_lifecycle.h:195-203 | silences the voice, retires the slot and emits NOTE_END |
| `VoiceEngines.VoiceEngine.ApplyNoteOn` | examples/polysynth/polysynth_voice_lifecycle.h:178-186 | ends the stolen voice first, then opens a new generation and starts its voice |
| `VoiceEngines.VoiceEngine.AdvanceEnvelope` | examples/polysynth/polysynth_voice_engine.h:975-1047 | one frame of the envelope of one voice, with its completion or deferral |
| `VoiceEngines.VoiceEngine.DispatchMatching` | examples/polysynth/polysynth_note_scheduler.h:697-720 | a NOTE_OFF or NOTE_CHOKE reaches exactly the voices its pattern matches, in slot order |
| `VoiceEngines.VoiceEngine.DeferMatching` | examples/polysynth/polysynth_note_scheduler.h:655-664 | marks exactly the matching voices |
| `VoiceEngines.VoiceEngine.ReleaseSustained` | examples/polysynth/polysynth_note_scheduler.h:666-696 | lets go of exactly the marked voices of the channel, in slot order |
| `VoiceEngines.VoiceEngine.DispatchNoteOn` | examples/polysynth/polysynth_note_scheduler.h:628-653 | an invalid NOTE_ON changes nothing; a valid one goes through all three layers, and fails exactly if the hook told of it fails |
| `VoiceEngines.VoiceEngine.OfferToSink` | examples/polysynth/polysynth_note_scheduler.h:272-303 | a MIDI message reaches the sounding voices with as many of its events as the sink took, and fails unless that was all |
| `VoiceEngines.VoiceEngine.ProcessMidiController` | examples/polysynth/polysynth_note_scheduler.h:404-556 | does the machine's controller step on the engine; what that is for each controller is stated by `NoteDispatch.PedalUpMessage`, `PedalDownMessage`, `AllSoundOff`, `AllNotesOff` and `OtherMessages`; fails only if an event is refused |
| `VoiceEngines.VoiceEngine.ProcessMidiEvent` | examples/polysynth/polysynth_note_scheduler.h:328-402 | MIDI notes are translated, replayed and deferred as written; fails exactly if one of the events the message becomes is refused or the NOTE_ON hook fails |
| `VoiceEngines.VoiceEngine.DispatchEvent` | examples/polysynth/polysynth_note_scheduler.h:135-181 | does the machine's step for the event on the engine, with its failures; what each event does to each voice is stated by `NoteDispatch.NoteOnStarts`, `NoteOffLetsGo`, `NoteChokeEnds`, `MidiNoteOff`, `MidiNoteOn` and `CoreEvents` |
| `VoiceEngines.VoiceEngine.CompleteDeferredReleases` | examples/polysynth/polysynth_voice_engine.h:958-973 | completes every release that ended with the previous block, and never fails |
| `VoiceEngines.VoiceEngine.RenderFrame` | examples/polysynth/polysynth_voice_engine.h:1060-1085 | one frame mixes every sounding voice in slot order and advances its envelope |
| `VoiceEngines.VoiceEngine.RenderRange` | examples/polysynth/polysynth_voice_engine.h:1049-1089 | writes exactly the frames of the range and nothing else |
| `VoiceEngines.VoiceEngine.ProcessEvents` | examples/polysynth/polysynth_note_scheduler.h:99-185 | the event loop renders up to each new time stamp before it dispatches |
| `VoiceEngines.VoiceEngine.ProcessWithEvents` | examples/polysynth/polysynth_voice_engine.h:502-558 | the block method over arrays does what the state machine does: result, state, records and every output frame, silent where nothing was rendered |
| `VoiceEngines.VoiceEngine.MaximumActiveReleaseSamples` | examples/polysynth/polysynth_voice_engine.h:281-290 | the longest release any sounding voice still owns |
| `UiVoiceCounter.ProxyState.ObserveInput` | examples/polysynth/wclap/polysynth_wclap_proxy.h:502-530 | counts every valid NOTE_ON as a voice while there is room, else as a credit |
| `UiVoiceCounter.ProxyState.ObserveOutput` | examples/polysynth/wclap/polysynth_wclap_proxy.h:562-570 | a NOTE_END takes a credit first, then a voice |
| `UiVoiceCounter.ProxyState.ProxyProcess` | examples/polysynth/wclap/polysynth_wclap_proxy.h:755-780 | the block is counted before it runs and its NOTE_ENDs as they leave |
| `UiVoiceCounter.CounterIsExact` | examples/polysynth/wclap/polysynth_wclap_proxy.h:502-570 | after any successful blocks of CLAP notes no credit is left and the counter equals the number of sounding voices |
| `UiVoiceCounter.CounterMisses` | examples/polysynth/wclap/polysynth_wclap_proxy.h:502-570 | after any successful blocks the counter misses a known number of voices: each raw MIDI note adds one, and never more than still sound |
| `UiVoiceCounter.CounterIsExactIff` | examples/polysynth/wclap/polysynth_wclap_proxy.h:502-570 | after any successful blocks the counter is exact if and only if no note came in as raw MIDI since the start, or since some block that ended in silence |
| `UiVoiceCounter.BlockKeepsCountExactIff` | examples/polysynth/wclap/polysynth_wclap_proxy.h:502-570 | one block keeps the counter exact if and only if no note came in as raw MIDI or nothing sounds at its end |
| `UiVoiceCounter.RawMidiBreaksTheCount` | examples/polysynth/wclap/polysynth_wclap_proxy.h:502-530 | a single raw MIDI note leaves the counter at zero while a voice sounds |
| `PolyphonicParameters.TargetedIsTheLatest` | examples/polysynth/polysynth_polyphonic_parameter_state.h:84-165 | an override is in force exactly when a change reached this life of the voice, and it is the latest such change |
| `PolyphonicParameters.GlobalIsTheLatest` | examples/polysynth/polysynth_polyphonic_parameter_state.h:44-141 | the global value is that of the latest change for all voices; a reset takes back modulation, never a base value |
| `PolyphonicParameters.NothingLeaks` | examples/polysynth/polysynth_polyphonic_parameter_state.h:52-70 | nothing before its NOTE_ON reaches a voice in a reused slot except through the global values, even under the same identity |
| `PolyphonicParameters.UntargetedFollowsGlobal` | examples/polysynth/polysynth_polyphonic_parameter_state.h:143-165 | corollary of the above: a voice that nothing addressed hears the global value |
| `PolyphonicParameters.PolyphonicParameterState.Configure` | examples/polysynth/polysynth_polyphonic_parameter_state.h:28-39 | 1 to 64 voices, nothing set |
| `PolyphonicParameters.PolyphonicParameterState.Reset` | examples/polysynth/polysynth_polyphonic_parameter_state.h:44-50 | forgets voices and modulation, keeps base values |
| `PolyphonicParameters.PolyphonicParameterState.StartVoice` | examples/polysynth/polysynth_polyphonic_parameter_state.h:52-61 | starts a life without overrides for a valid identity |
| `PolyphonicParameters.PolyphonicParameterState.StopVoice` | examples/polysynth/polysynth_polyphonic_parameter_state.h:63-68 | ends a life |
| `PolyphonicParameters.PolyphonicParameterState.ApplyValue` | examples/polysynth/polysynth_polyphonic_parameter_state.h:84-110 | a valid value event is recorded and reaches exactly whom it addresses |
| `PolyphonicParameters.PolyphonicParameterState.ApplyModulation` | examples/polysynth/polysynth_polyphonic_parameter_state.h:112-141 | a valid modulation event is recorded and reaches exactly whom it addresses |
| `PolyphonicParameters.PolyphonicParameterState.BaseValue` | examples/polysynth/polysynth_polyphonic_parameter_state.h:143-153 | reads the latest targeted value of this life, else the latest global one |
| `PolyphonicParameters.PolyphonicParameterState.ModulationAmount` | examples/polysynth/polysynth_polyphonic_parameter_state.h:155-165 | the same for modulation |
| `VoicePitches.ParameterVoiceEngine.SetVoiceFineTuningCents` | examples/polysynth/polysynth_voice_engine.h:312-322 | rejects silent slots and offsets beyond 21700 cents |
| `VoicePitches.ParameterVoiceEngine.SyncVoices` | examples/polysynth/polysynth_parameter_voice_engine.h:954-988 | forgets ended voices; what sounding voices hear is what they heard before |
| `VoicePitches.ParameterVoiceEngine.ApplyFineTuningState` | examples/polysynth/polysynth_parameter_voice_engine.h:990-1021 | never rejected, and leaves every sounding voice at key, snapshot, fine tune and tuning expression; what voices hear does not change |
| `VoicePitches.ParameterVoiceEngine.StartVoice` | examples/polysynth/polysynth_parameter_voice_engine.h:895-918 | a NOTE_ON is recorded, takes the coarse snapshot and what waits for it, and is never rejected |
| `VoicePitches.ParameterVoiceEngine.ApplyTuningExpression` | examples/polysynth/polysynth_parameter_voice_engine.h:1023-1047 | fails exactly for an invalid address or, in range, a full table; otherwise recorded exactly when in range, and every voice is in tune with the record |
| `VoicePitches.ParameterVoiceEngine.StorePendingTuning` | examples/polysynth/polysynth_parameter_voice_engine.h:500-520 | overwrites the entry of the same address and time, else takes a free one, else fails |
| `VoicePitches.ParameterVoiceEngine.PendingTuningFor` | examples/polysynth/polysynth_parameter_voice_engine.h:632-645 | the last matching table entry |
| `VoicePitches.ParameterVoiceEngine.PrepareTransientExpressionTime` | examples/polysynth/polysynth_parameter_voice_engine.h:492-498 | entries of an older sample are forgotten |
| `VoicePitches.ParameterVoiceEngine.ApplyFineValue` | examples/polysynth/polysynth_parameter_voice_engine.h:1319-1330 | fails exactly when not finite, or in range with an invalid address; otherwise heard as one more change exactly when in range |
| `VoicePitches.ParameterVoiceEngine.ApplyFineModulation` | examples/polysynth/polysynth_parameter_voice_engine.h:1388-1399 | fails exactly when not finite or for an invalid address; otherwise heard as one more change |
| `VoicePitches.ParameterVoiceEngine.ApplyCoarseValue` | examples/polysynth/polysynth_parameter_voice_engine.h:1226-1241 | a global value in range is truncated, recorded and becomes the default, any other finite one is ignored; no sounding voice moves |
| `VoicePitches.Perform` | examples/polysynth/polysynth_parameter_voice_engine.h:240-275 | one event succeeds exactly when acceptable, and then adds its own events, changes and owner to the run and nothing else |
| `VoicePitches.Follow` | examples/polysynth/polysynth_parameter_voice_engine.h:240-275 | over every run: it succeeds exactly when each command is acceptable after those before it, and then owners, log and changes heard are functions of the commands and every sounding voice is at key, coarse tune at its NOTE_ON, clamped fine tune and tuning expression as they give it |
| `VoicePitches.PlayedCoarse` | examples/polysynth/polysynth_parameter_voice_engine.h:895-906 | whatever is played later, a voice keeps the coarse tune that the commands before its NOTE_ON had set |
| `VoicePitches.PlayedPitch` | examples/polysynth/polysynth_parameter_voice_engine.h:1003-1017 | whatever was played: the pitch of a voice is its key, the coarse tune set before its NOTE_ON, the latest fine tune and modulation for it, or else for all, limited to a semitone, and the latest tuning expression that reached it, or what waited for it |
| `VoicePitches.PlayedTuning` | examples/polysynth/polysynth_parameter_voice_engine.h:1023-1047 | a voice hears the latest tuning expression in range that reached it since its NOTE_ON, and until then what was waiting for it |
| `VoicePitches.SnapshotLasts` | examples/polysynth/polysynth_parameter_voice_engine.h:895-906 | the coarse tune at its NOTE_ON stays with a voice whatever follows |
| `VoicePitches.CoarseChangesKeepPitch` | examples/polysynth/polysynth_parameter_voice_engine.h:1226-1241 | a later coarse change moves no voice |
| `VoicePitches.Handoff` | examples/polysynth/polysynth_voice_engine.h:608-610 | the composed offset stays within 21700 cents and compensates the coarse default exactly |
| `VoicePitches.HandoffIsRight` | examples/polysynth/polysynth_parameter_voice_engine.h:1003-1017 | the cents handed to the engine are accepted and give the pitch the log asks for |
| `CallbackRegistry.Entry.Begin` | include/webview-gui/_impl/callback_registry.h:104-119 | listed first if the entry accepts, refused otherwise |
| `CallbackRegistry.Entry.End` | include/webview-gui/_impl/callback_registry.h:121-135 | unlinks exactly that visit; the list stays linked both ways |
| `CallbackRegistry.Entry.StopAccepting` | include/webview-gui/_impl/callback_registry.h:137-141 | the entry accepts no visit any more; those under way stay listed |
| `CallbackRegistry.Entry.VisitorsOn` | include/webview-gui/_impl/callback_registry.h:143-152 | counts the visits of a thread |
| `CallbackDrain.StepKeepsOk` | include/webview-gui/_impl/callback_registry.h:15-86 | what every step of every thread keeps: visits and list agree, waiting threads have shut their entry and counted all their own visits, the map holds only accepting entries |
| `CallbackDrain.ReturningMeansDrained` | include/webview-gui/_impl/callback_registry.h:143-155 | a thread returns from its wait only when no other thread is inside |
| `CallbackDrain.RunKeepsDrained` | include/webview-gui/_impl/callback_registry.h:104-141 | a drained entry stays drained under every continuation |
| `CallbackDrain.DrainGuarantee` | include/webview-gui/_impl/callback_registry.h:15-86 | once the wait of an erase or a replacing set returns, no other thread is or will ever be inside a callback of the entry, even when the caller is nested in visits of it; `TakingOutDrains` starts from the call |
| `CallbackDrain.TakingOutDrains` | include/webview-gui/_impl/callback_registry.h:15-86 | from the call on: a thread that sets a key in use, or erases it with the value registered, is back on its calling stack only when no other thread is inside the callback taken out, and none ever is again, however the threads interleave |
| `CallbackDrain.CallsRegister` | include/webview-gui/_impl/callback_registry.h:15-86 | a set registers its value over whatever the key held; an erase takes the key out exactly when the value is the one registered and otherwise changes nothing; no other key is touched |
| `CallbackDrain.VisitsFindTheLatest` | include/webview-gui/_impl/callback_registry.h:37-65 | until the key is set or erased again every visit of it enters the callback set last, and after an erase finds none |
| `CallbackDrain.ReturnsIffAlone` | include/webview-gui/_impl/callback_registry.h:143-155 | a waiting thread may go on exactly when no other thread is inside the entry |
| `CallbackDrain.UndisturbedCallReturns` | include/webview-gui/_impl/callback_registry.h:15-86 | a set or erase that finds no other thread inside comes back by its own steps |
| `CallbackDrain.LeavingEndsTheVisit` | include/webview-gui/_impl/callback_registry.h:121-135 | leaving a callback takes exactly that visit off the thread and off the entry |
| `CallbackDrain.NewestVisitIsUnlinked` | include/webview-gui/_impl/callback_registry.h:121-135 | leaving a callback unlinks the newest visit of the thread |
| `SeqLock.ReadIsWhole` | examples/polysynth/polysynth_plugin.cpp:1302-1326 | a successful read is one whole published snapshot, the newest when it completes |
| `SeqLock.UndisturbedReadSucceeds` | examples/polysynth/polysynth_plugin.cpp:1302-1326 | a read that no update meets succeeds with the newest snapshot |
| `SeqLock.UpdatePublishes` | examples/polysynth/polysynth_plugin.cpp:1364-1404 | an update that stores its words one by one leaves its snapshot as the newest |
| `SeqLock.WriterKeepsAttempt` | examples/polysynth/polysynth_plugin.cpp:1364-1404 | a read in progress survives every step of the writer |
| `SeqLock.StoreKeepsOk` | examples/polysynth/polysynth_plugin.cpp:1364-1404 | between the two counter steps the stored words are those of the snapshot being published |
| `GainMeter.StepKeepsOk` | examples/gain/gain_meter.h:29-64 | what every step of publisher and readers keeps |
| `GainMeter.MeterShowsPublishedPairs` | examples/gain/gain_meter.h:29-64 | every pair read was published together, after the first publication, and no reader goes back in time |
| `GainMeter.PublishedPeaksAreShown` | examples/gain/gain_meter.h:29-64 | a pair that is published is what the next undisturbed read shows |
| `StateHandoff.StepKeepsOk` | examples/polysynth/polysynth_plugin.cpp:713-757 | what every step of committer, audio thread, readers and main thread keeps: revisions and loads in order, and engine and every host snapshot the words of a load with the values accepted since |
| `StateHandoff.EventsReplay` | examples/polysynth/polysynth_plugin.cpp:501-550 | the events put in front of a block overwrite every word the engine held |
| `StateHandoff.EffectiveReadsAreFresh` | examples/polysynth/polysynth_plugin.cpp:1338-1362 | any read, first or later, that begins after load n was committed yields nothing older: a whole loaded snapshot, or a whole host snapshot that is such a load with the values accepted since the engine replayed it; which of the two it takes is stated by the next rows |
| `StateHandoff.SettledReadsTakeTheHost` | examples/polysynth/polysynth_plugin.cpp:1338-1362 | with every load applied, a read that no commit meets takes the host side: the newest snapshot when it began, or a later one |
| `StateHandoff.ReadsSeeTheBlock` | examples/polysynth/polysynth_plugin.cpp:1338-1362 | a read that begins after a block which no commit disturbed yields what that block published, the outstanding load with the last of the values accepted meanwhile, or a later snapshot |
| `StateHandoff.OutstandingReadsTakeTheLoad` | examples/polysynth/polysynth_plugin.cpp:1344-1353 | while a load stays outstanding every read takes the load, whole |
| `StateHandoff.CommittedLoadsStay` | examples/polysynth/polysynth_plugin.cpp:1199-1239 | load n stays load n under every continuation |
| `StateHandoff.UndisturbedBlockApplies` | examples/polysynth/polysynth_plugin.cpp:713-757 | a block that no commit disturbs applies every outstanding load and tells the readers |
| `StateHandoff.UndisturbedFlushApplies` | examples/polysynth/polysynth_plugin.cpp:1136-1147 | a flush that no commit disturbs looks at its events only once every load is applied |
| `StateHandoff.LoadedValuesArrive` | examples/polysynth/polysynth_plugin.cpp:713-757 | with a load outstanding and no commit in the way, once a block has run to its end engine and host snapshot are the words of that load with the last of the values accepted meanwhile |
| `StateHandoff.UntouchedLoadArrives` | examples/polysynth/polysynth_plugin.cpp:713-757 | with no other value accepted, what is published is exactly the outstanding load |
| `EffectiveState.AloneKeepsWhatIsInEffect` | examples/polysynth/polysynth_plugin.cpp:613-694 | activation hands the engine the values in effect, deactivation keeps them; while inactive a load replaces them all and a value exactly its own word |
| `EffectiveState.ReadsReturnWhatIsInEffect` | examples/polysynth/polysynth_plugin.cpp:1338-1362 | a read that nothing disturbs ends, with the values in effect, and changes nothing |
| `EffectiveState.CommitsTakeEffect` | examples/polysynth/polysynth_plugin.cpp:1199-1239 | a load committed while active is in effect as a whole |
| `EffectiveState.BlocksTakeEffect` | examples/polysynth/polysynth_plugin.cpp:713-757 | a block that nothing disturbs runs to its end, and then in effect are the engine's values, or the load that was outstanding, with the values of the block on top |
| `RealtimeHandoff.RealtimeToUiQueue.TryPush` | include/webview-gui/realtime-handoff.h:42-53 | appends unless the usable capacity is taken |
| `RealtimeHandoff.RealtimeToUiQueue.TryPop` | include/webview-gui/realtime-handoff.h:55-65 | takes the oldest |
| `RealtimeHandoff.StoringIsUnseen` | include/webview-gui/realtime-handoff.h:42-53 | the slot written is invisible until the write index moves |
| `RealtimeHandoff.PublishingAppends` | include/webview-gui/realtime-handoff.h:42-53 | moving the write index appends |
| `RealtimeHandoff.ReleasingDrops` | include/webview-gui/realtime-handoff.h:55-65 | moving the read index drops the oldest |
| `GestureQueue.StepKeepsOk` | examples/polysynth/wclap/polysynth_wclap_proxy.h:143-289 | what every step of producer and consumer keeps |
| `GestureQueue.OutputIsAWellBracketedPrefix` | examples/polysynth/wclap/polysynth_wclap_proxy.h:143-164 | emitted commands are a prefix of the accepted ones in order, BEGIN and END alternate per parameter, the engine is handed exactly the emitted values |
| `GestureQueue.PushSucceedsIff` | examples/polysynth/wclap/polysynth_wclap_proxy.h:227-250 | a push is accepted exactly when the alternation allows it and a slot is left beside one for every open gesture, however the consumer moves while it is made; a refused one changes nothing |
| `GestureQueue.DrainingEmptiesTheQueue` | examples/polysynth/wclap/polysynth_wclap_proxy.h:143-164 | a drain that is refused nothing hands out all that was accepted |
| `GestureQueue.ClosingNeverFails` | examples/gain/gain_webview_parameter_bridge.h:206-263 | an END for an open gesture is always accepted, however the consumer moves meanwhile |
| `GestureQueue.ClosingAllNeverFails` | examples/polysynth/wclap/polysynth_wclap_proxy.h:129-141 | the loop that closes all gestures gets every END accepted, in parameter order, and leaves none open, however the consumer moves in between |
| `GestureQueue.SynthAndGain` | examples/gain/gain_webview_parameter_bridge.h:206-273 | both queues as they are built, over every run: a well-bracketed prefix comes out, and all that is open can be closed |
| `UiParameterQueues.UiParameterQueue.PushPreservingGestureClosure` | examples/polysynth/wclap/polysynth_wclap_proxy.h:227-250 | accepts a command exactly when it keeps alternation and leaves a slot for every open gesture |
| `UiParameterQueues.UiParameterQueue.CloseOpenGestures` | examples/polysynth/wclap/polysynth_wclap_proxy.h:129-141 | queues an END for every open gesture, in order, and leaves none open |
| `UiParameterQueues.UiParameterQueue.Drain` | examples/polysynth/wclap/polysynth_wclap_proxy.h:143-164 | hands out a prefix of the queue, stops at the first refusal or the value limit, and keeps the rest |
| `UiParameterQueues.UiParameterQueue.FreeSlots` | examples/polysynth/wclap/polysynth_wclap_proxy.h:280-285 | the slots not yet used |
| `ModulationTelemetry.StepKeepsOk` | examples/polysynth/wclap/polysynth_modulation_telemetry.h:53-117 | what every step of producer and consumer keeps |
| `ModulationTelemetry.DeliveredThenQueued` | examples/polysynth/wclap/polysynth_modulation_telemetry.h:66-105 | delivered records followed by the ring are exactly the accepted pushes in order, failed sends included |
| `ModulationTelemetry.PushGoesIn` | examples/polysynth/wclap/polysynth_modulation_telemetry.h:66-78 | a record that finds room goes in |
| `ModulationTelemetry.PushIsCounted` | examples/polysynth/wclap/polysynth_modulation_telemetry.h:66-78 | one that finds the ring full is dropped and counted |
| `ModulationTelemetry.RoundDeliversAll` | examples/polysynth/wclap/polysynth_wclap_proxy.h:1080-1109 | a round that the audio thread does not meet delivers all that was accepted and leaves the ring empty |
| `ModulationTelemetry.AppliedRecordsFollowTheDrop` | examples/polysynth/wclap/polysynth_wclap_proxy.h:1080-1109 | if no drop is counted between a copy and its reading of the count, every record applied was pushed after all drops its message counts |
| `ModulationTelemetry.InvalidationIsSoundIff` | examples/polysynth/wclap/polysynth_wclap_proxy.h:1080-1109 | a message leaves only later records behind if and only if no push was accepted between the copy and a drop it counts |
| `ModulationTelemetry.DisturbedReadingIsUnsound` | examples/polysynth/wclap/polysynth_wclap_proxy.h:1080-1109 | a concrete run in which older records stay behind |
| `ModulationTelemetry.OlderRecordIsApplied` | examples/polysynth/wclap/polysynth_wclap_proxy.h:1080-1109 | a concrete run in which the view, once invalidated, takes in a record older than the drop |
| `ModulationTelemetry.ModulationTelemetryQueue.Push` | examples/polysynth/wclap/polysynth_modulation_telemetry.h:66-78 | drops and counts the newest record when full |
| `ModulationTelemetry.ModulationTelemetryQueue.ResetTelemetry` | examples/polysynth/wclap/polysynth_modulation_telemetry.h:53-60 | silent before the first publication; after it a Reset record if there is room, else a counted drop |
| `ModulationTelemetry.ModulationTelemetryQueue.CopyPending` | examples/polysynth/wclap/polysynth_modulation_telemetry.h:81-91 | copies all that is queued and consumes nothing |
| `ModulationTelemetry.ModulationTelemetryQueue.Consume` | examples/polysynth/wclap/polysynth_modulation_telemetry.h:93-101 | drops the given number of oldest records |
| `TelemetryView.ApplyModulationTelemetry` | examples/polysynth/ui/src/modulation_state.js:30-95 | the loop over a message, or the invalidation by a changed drop count |
| `TelemetryView.MessagesKeepGrounded` | examples/polysynth/ui/src/modulation_state.js:30-95 | every amount shown is global or belongs to a note that sounds, and is not zero |
| `TelemetryView.NotesAreCounted` | examples/polysynth/ui/src/modulation_state.js:30-95 | the view knows each note as often as its own starts and ends say, whatever else was received |
| `TelemetryView.ShowsExactly` | examples/polysynth/ui/src/modulation_state.js:30-95 | exactly the amounts that were received while they applied to something, and were not replaced, reset or orphaned by a note end since, are shown |
| `TelemetryView.CuttingMessagesChangesNothing` | examples/polysynth/ui/src/modulation_state.js:30-95 | without new drops the view does not depend on how records were batched |
| `Base64.DecodeInvertsEncode` | include/webview-gui/helpers.h:11-125 | decoding an encoding gives the bytes back, for all bytes |
| `Base64.EncodeInvertsDecode` | include/webview-gui/helpers.h:11-83 | every accepted string is the one encoding of what it decodes to |
| `Base64.AcceptedIffEncoding` | include/webview-gui/helpers.h:11-83 | the accepted strings are exactly the encodings |
| `Base64.EncodeBase64` | include/webview-gui/helpers.h:95-125 | appends the encoding |
| `Base64.DecodeBase64` | include/webview-gui/helpers.h:11-83 | appends the decoded bytes, or rejects and leaves the output alone |
| `PresetBrowserProtocol.RequestsRoundTripIff` | examples/common/preset_browser_protocol.h:178-256 | a request comes through unchanged if and only if its shape is valid |
| `PresetBrowserProtocol.AcceptedRequestsReencode` | examples/common/preset_browser_protocol.h:178-256 | every accepted request is the one encoding of what it decodes to |
| `PresetBrowserProtocol.SnapshotsRoundTrip` | examples/common/preset_browser_protocol.h:258-413 | whatever is encoded decodes to the same current state, flags, entries and tags |
| `PresetBrowserProtocol.AcceptedSnapshotsReencode` | examples/common/preset_browser_protocol.h:258-413 | every accepted byte string re-encodes to itself |
| `PresetBrowserProtocol.AppendEntry` | examples/common/preset_browser_protocol.h:139-161 | appends an entry exactly when it is within the limits |
| `PresetBrowserProtocol.EncodePresetBrowserSnapshot` | examples/common/preset_browser_protocol.h:258-309 | encodes within the limits, else reports that a limit is exceeded |
| `PresetBrowserProtocol.ReadEntry` | examples/common/preset_browser_protocol.h:359-401 | one entry, with its refusals in their order |
| `PresetBrowserProtocol.DecodePresetBrowserSnapshot` | examples/common/preset_browser_protocol.h:314-413 | the decoder loop, with its refusals in their order |

## Left out

- Floating-point DSP (oscillators, filter tables, master-gain ramp, pan and gain laws): kept as a term per voice, because rounding is not where the hard properties are. Levels, cents and semitones are reals.
- Wrap-around of sequence counters, load revisions, drop counts and voice generations: they are unbounded. The allocator serial is bounded to 64 bits.
- Weak-memory reordering: interleavings are sequentially consistent.
- Deadlock freedom and fairness of the callback registry: two threads that erase each other's entries can block each other for good; only the drain guarantee is claimed.
- The sink callbacks between scheduler, lifecycle and engine are direct calls; the answers of the core-event sink and of its NOTE_ON hook are part of the event, for MIDI messages too.
- MIDI channel expression (bend, pressure, volume, pan, brightness and RPN state): the message itself is what the core event carries.
- VoiceEngines.VoiceEngine.Configure: when the filter tables fail, the lifecycle has already been configured anew; that state is not described.
- Same-sample pending volume, pan, expression, pressure and brightness tables: they repeat the tuning table, which is modelled with its 64 entries. That the latest expression wins in it is not claimed, because the last matching table entry wins.
- VoicePitches.Follow: voices start and end by command; when they do is the voice pipeline's business.
- VoiceEngines.VoiceEngine.UpdateCore: every core event but an amp envelope acts on the signal term of all sounding voices and on later defaults; which voices it addresses is part of that term.
- UiVoiceCounter.CounterIsExact: NOTE_ONs that params.flush counts, and hosts that pass no output event list, are not part of the run.
- StateHandoff.StepKeepsOk: the tail words published beside the snapshots, host rescan calls and preset documents are not part of the state; a value is what the engine made of it, so clamping and truncation are in the value already, and loaded words are taken to be in range, as the state decoder leaves them.
- AmpEnvelope.WholeSamples: holds in the reals; the rounding of the quotient in doubles is not modelled.
- TailPublication.TailPublisher.SyncTailFromEngine: the wait between a committed load and its block, in which tailGet answers the longer of two tails, is not modelled.
- GestureQueue.StepKeepsOk: decoding of editor messages and host wake-up requests are not modelled.
- ModulationTelemetry.AppliedRecordsFollowTheDrop: a delivered message is applied by the editor before the next one is sent.
- PresetBrowserProtocol.EncodePresetBrowserSnapshot: running out of memory is not modelled.
- The parallel per-voice arrays of the pitch adapter and of the polyphonic state are arrays of records here.
- The native preset store, JSON presets, the preset browser model and controller, the HTML scanner, web views, host glue, React components and the device bridge: input and output, or thin wrappers.
