/** The envelope of a voice in closed form: the stage and the level that a voice has after a number of
    rendered frames, from nothing but the envelope at its NOTE_ON, its velocity and the frame in which it
    was let go. The recurrences of the engine keep to it in every run. */
module EnvelopeShape {
  import opened Wrappers
  import opened Bytes
  import opened VoicePool
  import opened VoiceSlots
  import opened VoiceMachine
  import opened BlockPartition
  import opened VoiceTicks

  // ---- Closed form ----------------------------------------------------------------------------------------

  function Peak(velocity: real): real { Flush(velocity) }

  function Scaled(level: real, factor: real): real { Flush(level * factor) }

  function Target(e: Envelope, velocity: real): real { Scaled(Peak(velocity), e.sustain) }

  /** How far one frame moves the level on a straight line over `samples` frames. */
  function Slope(height: real, samples: nat): real
    requires 0 < samples
  {
    Flush(height / samples as real)
  }

  /** A line from zero upwards, `k` frames on. */
  function Rising(height: real, samples: nat, k: nat): real
    requires 0 < samples
  {
    k as real * Slope(height, samples)
  }

  /** A line from `top` towards `bottom`, `k` frames on. */
  function Falling(top: real, bottom: real, samples: nat, k: nat): real
    requires 0 < samples
  {
    top - k as real * Slope(top - bottom, samples)
  }

  /** The stage after `k` frames of a voice that was not let go. */
  function HeldStage(e: Envelope, k: nat): AmpStage {
    if k < e.attack then Attack else if k < e.attack + e.decay then Decay else Sustain
  }

  /** The level after `k` frames of a voice that was not let go: a line up to the peak, a line down to the
      sustain level, then that level. */
  function HeldLevel(e: Envelope, velocity: real, k: nat): real {
    if k < e.attack then Rising(Peak(velocity), e.attack, k)
    else if k < e.attack + e.decay then Falling(Peak(velocity), Target(e, velocity), e.decay, k - e.attack)
    else Target(e, velocity)
  }

  /** The level `j` frames after a voice was let go at level `from`: a line down to zero. */
  function ReleasedLevel(from: real, release: nat, j: nat): real
    requires j < release
  {
    Falling(from, 0.0, release, j)
  }

  // ---- Without denormals -----------------------------------------------------------------------------

  predicate Unflushed(height: real, samples: nat) {
    0 < samples ==> Flush(height / samples as real) == height / samples as real
  }

  /** The flush of denormals touches nothing that the envelope is made of. */
  predicate NoDenormals(e: Envelope, velocity: real) {
    && Flush(velocity) == velocity
    && Scaled(velocity, e.sustain) == velocity * e.sustain
    && Unflushed(velocity, e.attack)
    && Unflushed(velocity - velocity * e.sustain, e.decay)
  }

  /** The `k`-th of `samples` equal parts of a height. */
  function Part(height: real, samples: nat, k: nat): real
    requires 0 < samples
  {
    k as real * height / samples as real
  }

  lemma PartOfALine(height: real, samples: nat, k: nat)
    requires 0.0 <= height && 0 < samples && k <= samples
    ensures k as real * (height / samples as real) == Part(height, samples, k)
    ensures 0.0 <= Part(height, samples, k) <= height
  {
    var slope := height / samples as real;
    assert samples as real * slope == height;
    assert k as real * slope + (samples - k) as real * slope == height;
    assert (k as real * height) / samples as real == k as real * slope;
  }

  lemma PlainLine(height: real, bottom: real, top: real, samples: nat, k: nat)
    requires 0.0 <= height && height == top - bottom && 0 < samples && k <= samples
    requires Unflushed(height, samples)
    ensures bottom == 0.0 ==> Rising(height, samples, k) == Lesser(top, Part(height, samples, k))
    ensures Falling(top, bottom, samples, k) == Greater(bottom, top - Part(height, samples, k))
  {
    PartOfALine(height, samples, k);
  }

  /** The textbook envelope: attack, decay and sustain for a voice that was not let go. */
  lemma PlainEnvelope(e: Envelope, velocity: real, k: nat)
    requires EnvelopeOk(e) && 0.0 <= velocity && NoDenormals(e, velocity)
    ensures HeldLevel(e, velocity, k) ==
            var target := velocity * e.sustain;
            if k < e.attack then Lesser(velocity, Part(velocity, e.attack, k))
            else if k < e.attack + e.decay
            then Greater(target, velocity - Part(velocity - target, e.decay, k - e.attack))
            else target
  {
    hide Flush, Scaled, Unflushed, Lesser, Greater, Rising, Falling, Part;
    ScaledDown(velocity, e.sustain);
    var target := velocity * e.sustain;
    assert Peak(velocity) == velocity && Target(e, velocity) == target;
    if k < e.attack {
      PlainLine(velocity, 0.0, velocity, e.attack, k);
    } else if k < e.attack + e.decay {
      PlainLine(velocity - target, target, velocity, e.decay, k - e.attack);
    }
  }

  /** The textbook release. */
  lemma PlainRelease(from: real, release: nat, j: nat)
    requires 0.0 <= from && j < release && Unflushed(from, release)
    ensures ReleasedLevel(from, release, j) == Greater(0.0, from - Part(from, release, j))
  {
    PartOfALine(from, release, j);
  }

  // ---- The recurrences follow the lines --------------------------------------------------------------

  /** Zero, or too large to be flushed. */
  predicate Audible(level: real) {
    level == 0.0 || DENORMAL_FLOOR <= level
  }

  lemma Multiples(height: real, samples: nat, j: nat, slope: real)
    requires 0 < samples && j < samples && slope == height / samples as real && 0.0 <= slope
    ensures j as real * slope + slope == (j + 1) as real * slope
    ensures (j + 1) as real * slope <= height
    ensures j + 1 < samples ==> (j + 1) as real * slope + slope <= height
  {
    assert samples as real * slope == height;
    assert (samples - j - 1) as real * slope + (j + 1) as real * slope == height;
    if j + 1 < samples {
      assert (samples - j - 2) as real * slope + slope == (samples - j - 1) as real * slope;
      assert 0.0 <= (samples - j - 2) as real * slope;
    }
  }

  lemma StartsAtZero(height: real, samples: nat)
    requires 0 < samples
    ensures Rising(height, samples, 0) == 0.0
  {
  }

  lemma StartsAtTop(top: real, bottom: real, samples: nat)
    requires 0 < samples
    ensures Falling(top, bottom, samples, 0) == top
  {
  }

  lemma RampsUp(height: real, samples: nat, k: nat)
    requires 0.0 <= height && k + 1 < samples
    ensures
      var next := Rising(height, samples, k + 1);
      && Flush(Lesser(height, Rising(height, samples, k) + Slope(height, samples))) == next
      && 0.0 <= next && Audible(next)
  {
    var slope := Slope(height, samples);
    if slope != 0.0 {
      Multiples(height, samples, k, slope);
      assert 0.0 <= k as real * slope;
    }
  }

  lemma RampsDown(top: real, bottom: real, samples: nat, k: nat)
    requires 0.0 <= bottom <= top && Audible(bottom) && Audible(top) && k + 1 < samples
    ensures
      var next := Falling(top, bottom, samples, k + 1);
      && Flush(Greater(bottom, Falling(top, bottom, samples, k) - Slope(top - bottom, samples))) == next
      && bottom <= next && Audible(next)
  {
    var slope := Slope(top - bottom, samples);
    if slope != 0.0 {
      Multiples(top - bottom, samples, k, slope);
    }
  }

  lemma Flushed(value: real)
    requires 0.0 <= value
    ensures 0.0 <= Flush(value) && Audible(Flush(value))
  {
  }

  lemma ScaledIsBelow(level: real, factor: real)
    requires 0.0 <= level && 0.0 <= factor <= 1.0
    ensures 0.0 <= Scaled(level, factor) <= level && Audible(Scaled(level, factor))
  {
    ScaledDown(level, factor);
    Flushed(level * factor);
  }

  lemma TargetBelowPeak(e: Envelope, velocity: real)
    requires EnvelopeOk(e) && 0.0 <= velocity
    ensures 0.0 <= Target(e, velocity) <= Peak(velocity) && Audible(Target(e, velocity)) && Audible(Peak(velocity))
  {
    hide Scaled;
    Flushed(velocity);
    ScaledIsBelow(Peak(velocity), e.sustain);
  }

  lemma HeldLevelAudible(e: Envelope, velocity: real, k: nat)
    requires EnvelopeOk(e) && 0.0 <= velocity
    ensures 0.0 <= HeldLevel(e, velocity, k) && Audible(HeldLevel(e, velocity, k))
  {
    hide Peak, Target, Rising, Falling;
    TargetBelowPeak(e, velocity);
    var peak, target := Peak(velocity), Target(e, velocity);
    if k < e.attack {
      StartsAtZero(peak, e.attack);
      if 0 < k {
        RampsUp(peak, e.attack, k - 1);
      }
    } else if k < e.attack + e.decay {
      StartsAtTop(peak, target, e.decay);
      if e.attack < k {
        RampsDown(peak, target, e.decay, k - e.attack - 1);
      }
    }
  }

  lemma SameSlope(height: real, samples: nat)
    requires 0 < samples
    ensures StepSize(height, samples) == Slope(height, samples)
  {
  }

  // ---- Every voice keeps to its lines ----------------------------------------------------------------

  /** The term that a voice was started from. */
  function Origin(dsp: Dsp): Dsp {
    match dsp
    case Rendered(previous, _) => Origin(previous)
    case Updated(previous, _) => Origin(previous)
    case _ => dsp
  }

  /** The envelope in force once the core events were taken: the latest one among them. */
  function EnvelopeAfter(first: Envelope, events: seq<CoreEvent>): Envelope {
    if events == [] then first
    else if events[|events| - 1].SetAmpEnvelope? then events[|events| - 1].envelope
    else EnvelopeAfter(first, events[..|events| - 1])
  }

  /** Stage, level and countdown of a voice that was not let go, `k` frames after its start. */
  predicate Held(v: Voice, e: Envelope, velocity: real, k: nat) {
    && v.stage == HeldStage(e, k) && v.level == HeldLevel(e, velocity, k)
    && (v.stage == Attack ==> v.remaining == e.attack - k && v.step == Slope(Peak(velocity), e.attack))
    && (v.stage == Decay ==>
          && v.remaining == e.attack + e.decay - k
          && v.step == Slope(Peak(velocity) - Target(e, velocity), e.decay))
  }

  /** Level and countdown of a voice that was let go `n` frames after its start, `j` frames ago. */
  predicate Fading(v: Voice, e: Envelope, velocity: real, n: nat, j: nat) {
    && v.stage == Release && v.remaining + j == e.release && 0 < e.release
    && (v.deferred ==> v.remaining == 0)
    && (!v.deferred ==>
          && j < e.release
          && v.level == ReleasedLevel(HeldLevel(e, velocity, n), e.release, j)
          && v.step == Slope(HeldLevel(e, velocity, n), e.release))
  }

  predicate OnItsLines(v: Voice, e: Envelope, velocity: real, k: nat) {
    && EnvelopeOk(e) && 0.0 <= velocity
    && v.decay == e.decay && v.release == e.release
    && v.peak == Peak(velocity) && v.sustainTarget == Target(e, velocity)
    && if v.stage != Release then Held(v, e, velocity, k)
       else
         var j := e.release - v.remaining;
         0 <= j <= k && Fading(v, e, velocity, k - j, j)
  }

  /** The same with everything read off the signal term: `first` is the envelope that the engine was
      configured with. */
  predicate Shaped(v: Voice, first: Envelope) {
    var origin := Origin(v.dsp);
    && origin.Started? && origin.identity == v.identity
    && OnItsLines(v, EnvelopeAfter(first, origin.defaults), origin.velocity, FramesOf(v.dsp))
  }

  lemma SameTarget(level: real, factor: real)
    requires 0.0 <= level && 0.0 <= factor <= 1.0
    ensures SustainTarget(level, factor) == Scaled(level, factor)
  {
  }

  lemma NewVoiceIsShaped(e: Envelope, defaults: seq<CoreEvent>, id: Identity, g: nat, velocity: real)
    requires EnvelopeOk(e) && 0.0 <= velocity
    ensures OnItsLines(StartVoice(e, defaults, id, g, velocity), e, velocity, 0)
  {
    TargetBelowPeak(e, velocity);
    hide StepSize, Rising, Falling, Slope, Scaled, SustainTarget, Flush;
    var peak, target := Peak(velocity), Target(e, velocity);
    SameTarget(peak, e.sustain);
    if 0 < e.attack {
      StartsAtZero(peak, e.attack);
      SameSlope(peak, e.attack);
    } else if 0 < e.decay {
      StartsAtTop(peak, target, e.decay);
      SameSlope(peak - target, e.decay);
    }
  }

  lemma HeldFrame(s: Slot, e: Envelope, velocity: real, k: nat, last: bool)
    requires OnItsLines(s.voice, e, velocity, k) && s.voice.stage != Release
    ensures
      var r := AdvanceEnvelope(s, last);
      && r.slot == s.(voice := r.slot.voice) && r.slot.voice.dsp == s.voice.dsp
      && r.slot.voice.identity == s.voice.identity
      && OnItsLines(r.slot.voice, e, velocity, k + 1)
  {
    hide Peak, Target, StepSize, Rising, Falling, Slope, Flush, Lesser, Greater, EnvelopeOk;
    var peak, target := Peak(velocity), Target(e, velocity);
    TargetBelowPeak(e, velocity);
    if k + 1 < e.attack {
      RampsUp(peak, e.attack, k);
    } else if k + 1 == e.attack {
      if 0 < e.decay {
        StartsAtTop(peak, target, e.decay);
        SameSlope(peak - target, e.decay);
      }
    } else if e.attack <= k && k + 1 < e.attack + e.decay {
      RampsDown(peak, target, e.decay, k - e.attack);
    }
  }

  lemma FadingFrame(s: Slot, e: Envelope, velocity: real, k: nat, last: bool)
    requires OnItsLines(s.voice, e, velocity, k) && s.voice.stage == Release && !s.voice.deferred
    ensures
      var r := AdvanceEnvelope(s, last);
      r.slot.owner.Some? && r.slot.voice.active ==>
        && r.slot.voice.dsp == s.voice.dsp && r.slot.voice.identity == s.voice.identity
        && OnItsLines(r.slot.voice, e, velocity, k + 1)
  {
    hide Peak, Target, HeldLevel, Falling, Slope, Flush, Greater, EnvelopeOk;
    var j := e.release - s.voice.remaining;
    var from := HeldLevel(e, velocity, k - j);
    HeldLevelAudible(e, velocity, k - j);
    if j + 1 < e.release {
      RampsDown(from, 0.0, e.release, j);
      assert from - 0.0 == from;
    }
  }

  /** Being let go starts the line to zero at the level reached. */
  lemma ReleaseBegins(v: Voice, e: Envelope, velocity: real, k: nat)
    requires OnItsLines(v, e, velocity, k) && VoiceOk(v)
    ensures OnItsLines(BeginRelease(v), e, velocity, k)
  {
    hide Peak, Target, HeldLevel, Falling, StepSize, Slope, EnvelopeOk;
    if v.stage != Release {
      var from := HeldLevel(e, velocity, k);
      SameSlope(from, e.release);
      StartsAtTop(from, 0.0, e.release);
      assert from - 0.0 == from;
    }
  }

  lemma LetGoKeepsShape(s: Slot, id: Identity, upTo: nat, pedals: seq<bool>, first: Envelope)
    requires SlotOk(s, upTo, pedals) && s.owner == Some(id) && Shaped(s.voice, first)
    ensures Shaped(NoteOff(s.(sustained := false), id).slot.voice, first)
  {
    hide OnItsLines, EnvelopeAfter, Origin, FramesOf, StepSize;
    var origin := Origin(s.voice.dsp);
    ReleaseBegins(s.voice, EnvelopeAfter(first, origin.defaults), origin.velocity, FramesOf(s.voice.dsp));
  }

  lemma FrameKeepsShape(s: Slot, last: bool, upTo: nat, pedals: seq<bool>, first: Envelope)
    requires SlotOk(s, upTo, pedals) && s.owner.Some? && Shaped(s.voice, first)
    ensures
      var t := RenderSlot(s, last).slot;
      t.owner.Some? && t.voice.active ==> Shaped(t.voice, first)
  {
    hide OnItsLines, EnvelopeAfter, AdvanceEnvelope;
    if !s.voice.deferred {
      var dsp := Rendered(s.voice.dsp, s.voice.level);
      var origin, k := Origin(s.voice.dsp), FramesOf(s.voice.dsp);
      var e := EnvelopeAfter(first, origin.defaults);
      var v := s.voice.(dsp := dsp);
      SignalApart(s.voice, dsp, e, origin.velocity, k);
      if v.stage == Release {
        FadingFrame(s.(voice := v), e, origin.velocity, k, last);
      } else {
        HeldFrame(s.(voice := v), e, origin.velocity, k, last);
      }
    }
  }

  lemma SignalApart(v: Voice, dsp: Dsp, e: Envelope, velocity: real, k: nat)
    requires OnItsLines(v, e, velocity, k)
    ensures OnItsLines(v.(dsp := dsp), e, velocity, k)
  {
    hide Peak, Target, HeldLevel, ReleasedLevel, Slope, EnvelopeOk;
  }

  lemma StepKeepsShape(s: Slot, a: Action, upTo: nat, pedals: seq<bool>, first: Envelope)
    requires SlotOk(s, upTo, pedals) && Permitted(a, pedals) && s.owner.Some? && Shaped(s.voice, first)
    ensures StepSlot(s, a).slot.owner.Some? ==> Shaped(StepSlot(s, a).slot.voice, first)
  {
    StepKeepsSlotOk(s, a, upTo, pedals);
    hide OnItsLines, EnvelopeAfter, RenderSlot, NoteOff, VoiceOk;
    match a
    case Render(last) => FrameKeepsShape(s, last, upTo, pedals, first);
    case OffMatching(_) => LetGoKeepsShape(s, s.owner.value, upTo, pedals, first);
    case PedalUp(_) => LetGoKeepsShape(s, s.owner.value, upTo, pedals, first);
    case Update(event) =>
      var origin := Origin(s.voice.dsp);
      SignalApart(s.voice, Updated(s.voice.dsp, event), EnvelopeAfter(first, origin.defaults), origin.velocity,
                  FramesOf(s.voice.dsp));
    case _ =>
  }

  // ---- In every run ----------------------------------------------------------------------------------

  /** The engine's envelope is the latest one it took, and every voice keeps to its lines. */
  ghost predicate AllShaped(e: Engine, first: Envelope) {
    && e.envelope == EnvelopeAfter(first, e.defaults)
    && forall i :: 0 <= i < |e.slots| && e.slots[i].owner.Some? ==> Shaped(e.slots[i].voice, first)
  }

  lemma PassKeepsShapes(e: Engine, a: Action, first: Envelope)
    requires EngineOk(e) && Permitted(a, e.pedals) && AllShaped(e, first)
    ensures AllShaped(Sweep(e, a).engine, first)
  {
    hide SlotOk, StepSlot, Shaped, GenerationsDiffer, PoolOk, EnvelopeAfter;
    var r := Sweep(e, a).engine;
    forall i | 0 <= i < |r.slots| && r.slots[i].owner.Some? ensures Shaped(r.slots[i].voice, first) {
      StepAccount(e.slots[i], a, e.generation, e.pedals);
      StepKeepsShape(e.slots[i], a, e.generation, e.pedals, first);
    }
  }

  lemma NoteOnKeepsShapes(e: Engine, id: Identity, velocity: real, first: Envelope)
    requires EngineOk(e) && ValidIdentity(id) && 0.0 <= velocity <= 1.0 && AllShaped(e, first)
    ensures AllShaped(DispatchNoteOn(e, id, velocity).engine, first)
  {
    hide SlotsOk, GenerationsDiffer, PoolOk, EnvelopeAfter, OnItsLines, StartVoice, EnvelopeOk;
    NewVoiceIsShaped(e.envelope, e.defaults, id, e.generation + 1, velocity);
    var i := Allocate(PoolOf(e), id).1.index;
    var r := DispatchNoteOn(e, id, velocity).engine;
    forall k | 0 <= k < |r.slots| && r.slots[k].owner.Some? ensures Shaped(r.slots[k].voice, first) {
      if k == i {
        assert Origin(r.slots[k].voice.dsp) == Started(e.defaults, id, velocity);
      } else {
        assert r.slots[k] == e.slots[k];
      }
    }
  }

  lemma UpdateKeepsShapes(e: Engine, event: CoreEvent, first: Envelope)
    requires EngineOk(e) && AllShaped(e, first)
    ensures
      var r := UpdateCore(e, event).engine;
      AllShaped(if event.SetAmpEnvelope? then r.(envelope := event.envelope) else r, first)
  {
    hide EngineOk, Sweep, Shaped;
    PassKeepsShapes(e, Update(event), first);
    assert (e.defaults + [event])[..|e.defaults|] == e.defaults;
  }

  lemma LiftKeepsShapes(e: Engine, channel: nat, first: Envelope)
    requires EngineOk(e) && channel < 16 && AllShaped(e, first)
    ensures AllShaped(LiftPedal(e, channel).engine, first)
  {
    hide SlotsOk, GenerationsDiffer, PoolOk, EnvelopeOk, Sweep, Shaped, EnvelopeAfter;
    PassKeepsShapes(e, PedalUp(channel), first);
  }

  lemma ControllerKeepsShapes(e: Engine, channel: nat, message: CoreEvent, controller: int, value: int,
                              accepted: bool, first: Envelope)
    requires EngineOk(e) && channel < 16 && message.MidiMessage? && AllShaped(e, first)
    ensures AllShaped(DispatchController(e, channel, message, controller, value, accepted).engine, first)
  {
    hide SlotsOk, GenerationsDiffer, PoolOk, EnvelopeOk, Sweep, LiftPedal, UpdateCore, Shaped, EnvelopeAfter;
    UpdateKeepsShapes(e, message, first);
    PassKeepsShapes(e, ChokeMatching(NoteFor(channel, -1)), first);
    PassKeepsShapes(e, OffMatching(NoteFor(channel, -1)), first);
    if e.pedals[channel] {
      PassKeepsShapes(e, DeferMatching(NoteFor(channel, -1)), first);
      LiftKeepsShapes(e, channel, first);
      UpdateKeepsShapes(LiftPedal(e, channel).engine, message, first);
    }
  }

  lemma MidiKeepsShapes(e: Engine, port: int, status: Byte, data1: Byte, data2: Byte, answers: Answers, first: Envelope)
    requires EngineOk(e) && AllShaped(e, first)
    ensures AllShaped(DispatchMidi(e, port, status, data1, data2, answers).engine, first)
  {
    hide SlotsOk, GenerationsDiffer, PoolOk, EnvelopeOk, Sweep, DispatchNoteOn, DispatchController, UpdateCore,
      AllShaped;
    var channel := status % 16;
    var message := MessageOf(port, status, data1, data2, answers);
    var accepted := AllTaken(port, status, data1, data2, answers);
    UpdateKeepsShapes(e, message, first);
    PassKeepsShapes(e, OffMatching(NoteFor(channel, data1)), first);
    if e.pedals[channel] {
      PassKeepsShapes(e, DeferMatching(NoteFor(channel, data1)), first);
    }
    ControllerKeepsShapes(e, channel, message, data1, data2, accepted, first);
    if data1 <= 127 && data2 <= 127 {
      NoteOnKeepsShapes(UpdateCore(e, message).engine, NoteFor(channel, data1), data2 as real / 127.0, first);
    }
  }

  lemma DispatchKeepsShapes(e: Engine, body: Body, first: Envelope)
    requires EngineOk(e) && AllShaped(e, first)
    ensures AllShaped(Dispatch(e, body).engine, first)
  {
    hide EngineOk, Sweep, DispatchNoteOn, DispatchMidi, UpdateCore, AllShaped;
    match body
    case NoteOnEvent(address, velocity, told) =>
      if ValidNoteOn(address, velocity) {
        NoteOnKeepsShapes(e, address, velocity.value, first);
      }
    case NoteOffEvent(address) => PassKeepsShapes(e, OffMatching(address), first);
    case NoteChokeEvent(address) => PassKeepsShapes(e, ChokeMatching(address), first);
    case Midi(port, status, data1, data2, answers) => MidiKeepsShapes(e, port, status, data1, data2, answers, first);
    case Core(event, accepted) => UpdateKeepsShapes(e, event, first);
    case _ =>
  }

  lemma {:induction false} TicksKeepShapes(e: Engine, now: nat, ticks: seq<Tick>, first: Envelope)
    requires EngineOk(e) && AllShaped(e, first)
    ensures AllShaped(RunTicks(e, now, ticks).engine, first)
    decreases |ticks|
  {
    hide EngineOk, Sweep, Dispatch, AllShaped;
    if ticks != [] {
      match ticks[0] {
        case Open => PassKeepsShapes(e, CompleteDeferred, first);
        case Frame(last) => PassKeepsShapes(e, Render(last), first);
        case Input(body) => DispatchKeepsShapes(e, body, first);
        case Reject =>
      }
      var r := RunTick(e, now, ticks[0]);
      TicksKeepShapes(r.engine, now + Duration(ticks[0]), ticks[1..], first);
    }
  }
}
