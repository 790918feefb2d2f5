/** One slot of the synth as its four layers see it, and what each pass over the voices does to it. */
module VoiceSlots {
  import opened Wrappers
  import opened VoicePool

  // ---- Layers ------------------------------------------------------------------------------

  datatype AmpStage = Attack | Decay | Sustain | Release

  datatype LifeStage = Inactive | Held | Releasing

  /** Default envelope copied by every NOTE_ON; times in samples. */
  datatype Envelope = Envelope(attack: nat, decay: nat, sustain: real, release: nat)

  /** Everything on the event stream that is neither a note nor a pedal. */
  datatype CoreEvent =
    | SetAmpEnvelope(envelope: Envelope)
    | HostEvent(tag: int)
    | MidiMessage(port: int, status: int, data1: int, data2: int, taken: nat)  // as far as the sink took it

  /** Oscillator, filter and expression state as a term: what the state was made from. Two equal
      terms denote the same state under every interpretation of the signal path. */
  datatype Dsp =
    | Idle
    | Started(defaults: seq<CoreEvent>, identity: Identity, velocity: real)
    | Rendered(previous: Dsp, level: real)
    | Updated(previous: Dsp, event: CoreEvent)

  /** For how many frames the signal was rendered since the voice started. */
  function FramesOf(dsp: Dsp): nat {
    match dsp
    case Rendered(previous, _) => FramesOf(previous) + 1
    case Updated(previous, _) => FramesOf(previous)
    case _ => 0
  }

  datatype Voice = Voice(
    active: bool,
    identity: Identity,
    generation: nat,
    stage: AmpStage,
    remaining: nat,
    decay: nat,
    release: nat,
    peak: real,
    sustainTarget: real,
    level: real,
    step: real,
    deferred: bool,
    dsp: Dsp)

  const SILENT := Voice(false, NOBODY, 0, Sustain, 0, 0, 0, 0.0, 0.0, 0.0, 0.0, false, Idle)

  datatype Life = Life(identity: Identity, generation: nat, stage: LifeStage)

  const NO_LIFE := Life(NOBODY, 0, Inactive)

  /** The allocator's owner, the scheduler's deferred-release flag, the lifecycle slot, the voice. */
  datatype Slot = Slot(owner: Option<Identity>, sustained: bool, life: Life, voice: Voice)

  const EMPTY := Slot(None, false, NO_LIFE, SILENT)

  datatype Cause = Released | Stolen | Choked

  /** What a run records about voices. The emitted NOTE_END events are the `End` records; the
      generation and the cause are annotations of the model. */
  datatype Happening =
    | On(generation: nat, identity: Identity, release: nat)
    | Off(generation: nat)
    | End(generation: nat, identity: Identity, cause: Cause)

  datatype Stepped = Stepped(slot: Slot, happened: seq<Happening>, ok: bool)

  // ---- Envelope ----------------------------------------------------------------------------

  const DENORMAL_FLOOR := 0.00000000000000000001

  function Flush(value: real): real {
    if -DENORMAL_FLOOR < value < DENORMAL_FLOOR then 0.0 else value
  }

  function Lesser(a: real, b: real): real { if b < a then b else a }

  function Greater(a: real, b: real): real { if a < b then b else a }

  /** Every timed stage lasts at least one sample, so the first case is never met. */
  function StepSize(height: real, samples: nat): (step: real)
    ensures 0.0 <= height ==> 0.0 <= step
  {
    if samples == 0 then 0.0 else Flush(height / samples as real)
  }

  predicate EnvelopeOk(e: Envelope) {
    0.0 <= e.sustain <= 1.0 && 0 < e.release
  }

  function EnterDecayOrSustain(v: Voice): Voice {
    if v.decay == 0 then
      v.(level := v.sustainTarget, step := 0.0, remaining := 0, stage := Sustain)
    else
      v.(stage := Decay, remaining := v.decay, step := StepSize(v.peak - v.sustainTarget, v.decay))
  }

  lemma ScaledDown(a: real, b: real)
    requires 0.0 <= a && 0.0 <= b <= 1.0
    ensures 0.0 <= a * b <= a
  {
    assert a * (1.0 - b) >= 0.0;
  }

  function SustainTarget(peak: real, sustain: real): (target: real)
    requires 0.0 <= peak && 0.0 <= sustain <= 1.0
    ensures 0.0 <= target <= peak
  {
    ScaledDown(peak, sustain);
    Flush(peak * sustain)
  }

  function StartVoice(e: Envelope, defaults: seq<CoreEvent>, id: Identity, generation: nat,
                      velocity: real): (v: Voice)
    requires EnvelopeOk(e) && 0.0 <= velocity
    ensures VoiceOk(v) && v.active && !v.deferred && v.stage != Release
    ensures v.identity == id && v.generation == generation && v.release == e.release
    ensures v.dsp == Started(defaults, id, velocity)
  {
    var peak := Flush(velocity);
    var v := Voice(true, id, generation, Sustain, 0, e.decay, e.release, peak,
                   SustainTarget(peak, e.sustain), 0.0, 0.0, false,
                   Started(defaults, id, velocity));
    if e.attack == 0 then EnterDecayOrSustain(v.(level := peak))
    else v.(stage := Attack, remaining := e.attack, step := StepSize(peak, e.attack))
  }

  function BeginRelease(v: Voice): Voice {
    if v.stage == Release then v
    else v.(stage := Release, remaining := v.release, step := StepSize(v.level, v.release))
  }

  /** A timed stage has samples left, unless it is a release waiting for the next block. */
  predicate VoiceOk(v: Voice) {
    && 0 < v.release
    && 0.0 <= v.sustainTarget <= v.peak
    && 0.0 <= v.level <= v.peak
    && 0.0 <= v.step
    && (v.stage in {Attack, Decay} ==> 0 < v.remaining)
    && (v.stage == Release ==> v.remaining <= v.release && (v.deferred <==> v.remaining == 0))
    && (v.deferred ==> v.stage == Release && v.level == 0.0)
  }

  // ---- Lifecycle -----------------------------------------------------------------------------

  predicate ValidIdentity(id: Identity) {
    && -1 <= id.noteId && id.port == 0
    && 0 <= id.channel <= 15 && 0 <= id.key <= 127
  }

  /** VoiceLifecycle::completeRelease. The deferred-release flag is dropped even when the allocator
      refuses. */
  function CompleteLife(s: Slot, expected: nat): Stepped {
    if s.life.stage != Releasing || expected == 0 || s.life.generation != expected
    then Stepped(s, [], false)
    else if s.owner != Some(s.life.identity) then Stepped(s.(sustained := false), [], false)
    else Stepped(s.(owner := None, sustained := false, life := NO_LIFE),
                 [End(s.life.generation, s.life.identity, Released)], true)
  }

  /** The completion of a release: the voice is cleared whatever the lifecycle answers. */
  function CompleteRelease(s: Slot): Stepped {
    var r := CompleteLife(s, s.voice.generation);
    Stepped(r.slot.(voice := SILENT), r.happened, r.ok)
  }

  /** A NoteOff delivered by the scheduler to lifecycle and voice. */
  function NoteOff(s: Slot, id: Identity): Stepped {
    if s.life.stage == Inactive || s.life.identity != id then Stepped(s, [], true)
    else
      var t := s.(life := s.life.(stage := Releasing));
      if !s.voice.active || s.voice.generation != s.life.generation || s.voice.stage == Release
      then Stepped(t, [], true)
      else Stepped(t.(voice := BeginRelease(s.voice)), [Off(s.life.generation)], true)
  }

  function NoteChoke(s: Slot, id: Identity): Stepped {
    if s.life.stage == Inactive || s.life.identity != id then Stepped(s, [], true)
    else
      var v := if s.voice.active && s.voice.generation == s.life.generation then SILENT else s.voice;
      if s.owner != Some(id) then Stepped(s.(voice := v, sustained := false), [], true)
      else Stepped(Slot(None, false, NO_LIFE, v), [End(s.life.generation, id, Choked)], true)
  }

  // ---- Passes over the voices -----------------------------------------------------------------

  datatype Action =
    | Render(last: bool)
    | CompleteDeferred
    | OffMatching(pattern: Identity)
    | ChokeMatching(pattern: Identity)
    | DeferMatching(pattern: Identity)
    | PedalUp(channel: int)
    | Update(event: CoreEvent)

  /** VoiceEngine::advanceEnvelope on a sounding voice; `last` tells that the frame closes its block. */
  function AdvanceEnvelope(s: Slot, last: bool): Stepped {
    var v := s.voice;
    match v.stage
    case Sustain => Stepped(s, [], true)
    case Attack =>
      if v.remaining == 0 then Stepped(s, [], false)
      else if v.remaining == 1
      then Stepped(s.(voice := EnterDecayOrSustain(v.(level := v.peak, remaining := 0))), [], true)
      else Stepped(s.(voice := v.(remaining := v.remaining - 1,
                                  level := Flush(Lesser(v.peak, v.level + v.step)))), [], true)
    case Decay =>
      if v.remaining == 0 then Stepped(s, [], false)
      else if v.remaining == 1
      then Stepped(s.(voice := v.(remaining := 0, level := v.sustainTarget, step := 0.0,
                                  stage := Sustain)), [], true)
      else Stepped(s.(voice := v.(remaining := v.remaining - 1,
                                  level := Flush(Greater(v.sustainTarget, v.level - v.step)))), [], true)
    case Release =>
      if v.remaining == 0 then Stepped(s.(voice := SILENT), [], false)
      else if v.remaining > 1
      then Stepped(s.(voice := v.(remaining := v.remaining - 1,
                                  level := Flush(Greater(0.0, v.level - v.step)))), [], true)
      else if last
      then Stepped(s.(voice := v.(remaining := 0, level := 0.0, step := 0.0, deferred := true)), [], true)
      else CompleteRelease(s.(voice := v.(remaining := 0)))
  }

  function RenderSlot(s: Slot, last: bool): Stepped {
    if !s.voice.active || s.voice.deferred then Stepped(s, [], true)
    else AdvanceEnvelope(s.(voice := s.voice.(dsp := Rendered(s.voice.dsp, s.voice.level))), last)
  }

  /** What one pass does to one slot. */
  function StepSlot(s: Slot, a: Action): Stepped {
    match a
    case Render(last) => RenderSlot(s, last)
    case CompleteDeferred =>
      if s.voice.active && s.voice.deferred then CompleteRelease(s) else Stepped(s, [], true)
    case OffMatching(pattern) =>
      if s.owner.Some? && Matches(pattern, s.owner.value)
      then NoteOff(s.(sustained := false), s.owner.value) else Stepped(s, [], true)
    case ChokeMatching(pattern) =>
      if s.owner.Some? && Matches(pattern, s.owner.value)
      then NoteChoke(s.(sustained := false), s.owner.value) else Stepped(s, [], true)
    case DeferMatching(pattern) =>
      if s.owner.Some? && Matches(pattern, s.owner.value)
      then Stepped(s.(sustained := true), [], true) else Stepped(s, [], true)
    case PedalUp(channel) =>
      if !s.sustained then Stepped(s, [], true)
      else if s.owner.None? then Stepped(s.(sustained := false), [], true)
      else if s.owner.value.port != 0 || s.owner.value.channel != channel then Stepped(s, [], true)
      else NoteOff(s.(sustained := false), s.owner.value)
    case Update(event) =>
      if s.voice.active
      then Stepped(s.(voice := s.voice.(dsp := Updated(s.voice.dsp, event))), [], true)
      else Stepped(s, [], true)
  }

  // ---- Agreement of the layers -----------------------------------------------------------------

  /** All four layers agree on liveness, identity, generation and releasing. `upTo` is the newest
      generation; `pedals` tells which channels hold the sustain pedal down. */
  predicate SlotOk(s: Slot, upTo: nat, pedals: seq<bool>) {
    if s.owner.None? then s == EMPTY
    else
      var id := s.owner.value;
      && ValidIdentity(id) && |pedals| == 16
      && s.life == Life(id, s.voice.generation, if s.voice.stage == Release then Releasing else Held)
      && s.voice.active && s.voice.identity == id
      && 1 <= s.voice.generation <= upTo
      && VoiceOk(s.voice)
      && (s.sustained ==> pedals[id.channel])
  }

  /** What a pass may ask: a deferral needs the pedal of the pattern's channel down. */
  predicate Permitted(a: Action, pedals: seq<bool>) {
    a.DeferMatching? ==>
      0 <= a.pattern.channel < |pedals| && pedals[a.pattern.channel]
  }

  lemma CompletionKeepsSlotOk(s: Slot, upTo: nat, pedals: seq<bool>)
    requires SlotOk(s, upTo, pedals) && s.owner.Some? && s.voice.stage == Release
    ensures CompleteRelease(s).ok && CompleteRelease(s).slot == EMPTY
  {
    hide VoiceOk;
  }

  lemma FrameKeepsSlotOk(s: Slot, last: bool, upTo: nat, pedals: seq<bool>)
    requires SlotOk(s, upTo, pedals)
    ensures RenderSlot(s, last).ok && SlotOk(RenderSlot(s, last).slot, upTo, pedals)
  {
    hide StepSize, ValidIdentity;
  }

  lemma NoteOffKeepsSlotOk(s: Slot, upTo: nat, pedals: seq<bool>)
    requires SlotOk(s, upTo, pedals) && s.owner.Some?
    ensures
      var r := NoteOff(s.(sustained := false), s.owner.value);
      r.ok && SlotOk(r.slot, upTo, pedals) && !r.slot.sustained
  {
    hide ValidIdentity;
  }

  /** Every pass keeps the layers in agreement and none of its checks fails; a pedal-up leaves no
      deferred release on its channel. */
  lemma StepKeepsSlotOk(s: Slot, a: Action, upTo: nat, pedals: seq<bool>)
    requires SlotOk(s, upTo, pedals) && Permitted(a, pedals)
    ensures StepSlot(s, a).ok
    ensures SlotOk(StepSlot(s, a).slot, upTo, pedals)
    ensures a.PedalUp? && StepSlot(s, a).slot.sustained ==>
              StepSlot(s, a).slot.owner.value.channel != a.channel
  {
    hide RenderSlot, NoteOff, CompleteRelease;
    match a
    case Render(last) => FrameKeepsSlotOk(s, last, upTo, pedals);
    case CompleteDeferred =>
      if s.owner.Some? && s.voice.deferred {
        CompletionKeepsSlotOk(s, upTo, pedals);
      }
    case OffMatching(_) =>
      if s.owner.Some? {
        NoteOffKeepsSlotOk(s, upTo, pedals);
      }
    case PedalUp(_) =>
      if s.owner.Some? {
        NoteOffKeepsSlotOk(s, upTo, pedals);
      }
    case _ =>
  }

  /** What a pass records about an owned slot: nothing, the start of its release, or its end. */
  predicate Accounted(s: Slot, t: Slot, happened: seq<Happening>)
    requires s.owner.Some?
  {
    if t.owner.None? then
      t == EMPTY && exists c: Cause :: happened == [End(s.voice.generation, s.owner.value, c)]
    else
      && t.owner == s.owner
      && t.voice.generation == s.voice.generation && t.voice.release == s.voice.release
      && (s.voice.stage == Release ==> t.voice.stage == Release)
      && happened == if s.voice.stage != Release && t.voice.stage == Release
                     then [Off(s.voice.generation)] else []
  }

  lemma StepAccount(s: Slot, a: Action, upTo: nat, pedals: seq<bool>)
    requires SlotOk(s, upTo, pedals) && Permitted(a, pedals)
    ensures
      var r := StepSlot(s, a);
      if s.owner.None? then r.slot == s && r.happened == [] else Accounted(s, r.slot, r.happened)
  {
    var r := StepSlot(s, a);
    if s.owner.Some? && r.slot.owner.None? {
      var c := if a.ChokeMatching? then Choked else Released;
      assert r.happened == [End(s.voice.generation, s.owner.value, c)];
    }
  }

  /** Only rendering counts as a frame, and only of a voice that does not wait for the next block. */
  lemma StepFrames(s: Slot, a: Action, upTo: nat, pedals: seq<bool>)
    requires SlotOk(s, upTo, pedals) && s.owner.Some? && StepSlot(s, a).slot.owner.Some?
    ensures FramesOf(StepSlot(s, a).slot.voice.dsp) ==
            FramesOf(s.voice.dsp) + if a.Render? && !s.voice.deferred then 1 else 0
  {
  }

  /** The release countdown: a pass other than rendering leaves it alone, a rendered frame takes one
      sample off, and the voice ends in the frame that takes the last one, or, when that frame closes
      a block, in the completion pass that opens the next block. */
  lemma ReleaseCountdown(s: Slot, a: Action, upTo: nat, pedals: seq<bool>)
    requires SlotOk(s, upTo, pedals) && Permitted(a, pedals) && s.owner.Some?
    ensures
      var r := StepSlot(s, a);
      var ended := r.happened == [End(s.voice.generation, s.owner.value, Released)];
      && (ended <==> match a
                     case Render(last) => s.voice.stage == Release && s.voice.remaining == 1 && !last
                     case CompleteDeferred => s.voice.deferred
                     case _ => false)
      && (r.slot.owner.Some? && r.slot.voice.stage == Release ==>
            r.slot.voice.remaining ==
              if s.voice.stage != Release then s.voice.release
              else if a.Render? && !s.voice.deferred then s.voice.remaining - 1
              else s.voice.remaining)
  {
  }
}
