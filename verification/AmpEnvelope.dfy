/** The amp envelope in seconds, as the host sets it, beside the envelope in samples that the engine
    runs on. The two agree after every event, block and reset, whether or not a block succeeds.
    Seconds and sample rates are reals. */
module AmpEnvelope {
  import opened Wrappers
  import opened Bytes
  import opened VoicePool
  import opened VoiceSlots
  import opened VoiceMachine
  import opened VoiceEngines

  const MAXIMUM_SAMPLES: int := 0xffff_ffff
  const MAXIMUM_ENVELOPE_SECONDS: real := 10.0

  // ---- Seconds to samples -----------------------------------------------------------------------------

  /** To the nearest sample, halves up. */
  function Rounded(scaled: real): (r: int)
    ensures scaled - 0.5 < r as real <= scaled + 0.5
  {
    if scaled - scaled.Floor as real >= 0.5 then scaled.Floor + 1 else scaled.Floor
  }

  function ScaledToSamples(scaled: real, allowZero: bool): Option<nat> {
    if scaled < 0.0 || scaled > MAXIMUM_SAMPLES as real then None
    else
      var rounded := Rounded(scaled);
      if rounded > MAXIMUM_SAMPLES then None
      else if !allowZero && rounded <= 0 then Some(1) else Some(rounded)
  }

  function SecondsToSamples(seconds: real, rate: real, allowZero: bool): Option<nat> {
    if seconds < 0.0 || rate <= 0.0 then None else ScaledToSamples(seconds * rate, allowZero)
  }

  lemma TenSecondsBound(seconds: real, rate: real)
    requires 0.0 <= seconds <= 10.0 && 0.0 <= rate
    ensures 0.0 <= seconds * rate <= 10.0 * rate
  {
    assert 0.0 <= (10.0 - seconds) * rate;
  }

  // ---- The four parameters ------------------------------------------------------------------------------

  datatype AmpSlot = AmpAttack | AmpDecay | AmpSustain | AmpRelease

  datatype Seconds = Seconds(attack: real, decay: real, sustain: real, release: real)

  function With(s: Seconds, slot: AmpSlot, value: real): Seconds {
    match slot
    case AmpAttack => s.(attack := value)
    case AmpDecay => s.(decay := value)
    case AmpSustain => s.(sustain := value)
    case AmpRelease => s.(release := value)
  }

  /** The range the parameter is published with. */
  predicate InRange(slot: AmpSlot, value: real) {
    match slot
    case AmpSustain => 0.0 <= value <= 1.0
    case AmpRelease => 0.001 <= value <= 10.0
    case _ => 0.0 <= value <= 10.0
  }

  /** None: a time cannot be counted in samples, or the sustain level is no level. */
  function EnvelopeOf(s: Seconds, rate: real): (r: Option<Envelope>)
    ensures r.Some? ==> EnvelopeOk(r.value)
  {
    var attack, decay := SecondsToSamples(s.attack, rate, true), SecondsToSamples(s.decay, rate, true);
    var release := SecondsToSamples(s.release, rate, false);
    if attack.None? || decay.None? || release.None? || s.sustain < 0.0 || s.sustain > 1.0 then None
    else Some(Envelope(attack.value, decay.value, s.sustain, release.value))
  }

  /** At a sample rate the adapter is configured for, no value in range can overflow a counter, so no
      such value ever fails a block. */
  lemma InRangeNeverFails(s: Seconds, rate: real, slot: AmpSlot, value: real)
    requires 0.0 < rate <= MAXIMUM_SAMPLES as real / MAXIMUM_ENVELOPE_SECONDS
    requires EnvelopeOf(s, rate).Some? && InRange(slot, value)
    ensures EnvelopeOf(With(s, slot, value), rate).Some?
  {
    if !slot.AmpSustain? {
      TenSecondsBound(value, rate);
      assert value * rate <= MAXIMUM_SAMPLES as real;
    }
  }

  /** What the adapter starts from: the release is given in samples and kept in seconds. */
  function Configured(rate: real, releaseSamples: nat): Seconds
    requires 0.0 < rate
  {
    Seconds(0.0, 0.0, 1.0, releaseSamples as real / rate)
  }

  lemma WholeScaled(samples: nat)
    requires samples <= MAXIMUM_SAMPLES
    ensures ScaledToSamples(samples as real, true) == Some(samples)
    ensures 0 < samples ==> ScaledToSamples(samples as real, false) == Some(samples)
  {
    assert Rounded(samples as real) == samples;
  }

  lemma SamplesOf(seconds: real, rate: real, scaled: real)
    requires 0.0 <= seconds && 0.0 < rate && scaled == seconds * rate
    ensures forall allowZero :: SecondsToSamples(seconds, rate, allowZero) == ScaledToSamples(scaled, allowZero)
  {
    hide ScaledToSamples;
  }

  lemma WholeSamples(samples: nat, seconds: real, rate: real)
    requires 0.0 < rate && samples <= MAXIMUM_SAMPLES && seconds == samples as real / rate
    ensures 0.0 <= seconds && SecondsToSamples(seconds, rate, true) == Some(samples)
    ensures 0 < samples ==> SecondsToSamples(seconds, rate, false) == Some(samples)
  {
    hide ScaledToSamples, SecondsToSamples;
    WholeScaled(samples);
    assert seconds * rate == samples as real;
    assert 0.0 <= seconds;
    SamplesOf(seconds, rate, samples as real);
  }

  lemma ConfiguredAgrees(rate: real, releaseSamples: nat)
    requires 0.0 < rate && 0 < releaseSamples <= MAXIMUM_SAMPLES
    ensures EnvelopeOf(Configured(rate, releaseSamples), rate) == Some(Envelope(0, 0, 1.0, releaseSamples))
  {
    WholeSamples(0, 0.0, rate);
    WholeSamples(releaseSamples, releaseSamples as real / rate, rate);
  }

  // ---- Events --------------------------------------------------------------------------------------------

  /** An event from the host: a value for one of the four parameters, absent when it is not a finite
      number, or anything else. */
  datatype HostEvent =
    | AmpValue(time: nat, slot: AmpSlot, address: Identity, value: Option<real>)
    | Other(event: Event)

  /** Only amp values change the envelope. */
  predicate Plain(h: HostEvent) {
    h.Other? && h.event.body.Core? ==> !h.event.body.event.SetAmpEnvelope?
  }

  /** Values out of range or not for all voices are ignored. */
  predicate Effective(h: HostEvent) {
    h.AmpValue? && h.value.Some? && InRange(h.slot, h.value.value) && h.address == NOBODY
  }

  function SecondsThen(s: Seconds, rate: real, h: HostEvent): Seconds {
    if Effective(h) && EnvelopeOf(With(s, h.slot, h.value.value), rate).Some?
    then With(s, h.slot, h.value.value) else s
  }

  const REFUSED := Core(HostEvent(0), false)

  /** What the event is to the engine when the parameters stand at `s`. */
  function BodyOf(s: Seconds, rate: real, h: HostEvent): Body {
    match h
    case Other(event) => event.body
    case AmpValue(_, slot, _, value) =>
      if value.None? then REFUSED
      else if !Effective(h) then Foreign
      else
        match EnvelopeOf(With(s, slot, value.value), rate)
        case Some(envelope) => Core(SetAmpEnvelope(envelope), true)
        case None => REFUSED
  }

  function TimeOf(h: HostEvent): nat {
    match h
    case Other(event) => event.time
    case AmpValue(time, _, _, _) => time
  }

  function AsEvents(s: Seconds, rate: real, hs: seq<HostEvent>): (r: seq<Event>)
    ensures |r| == |hs|
    decreases |hs|
  {
    if hs == [] then []
    else [Event(TimeOf(hs[0]), BodyOf(s, rate, hs[0]))] + AsEvents(SecondsThen(s, rate, hs[0]), rate, hs[1..])
  }

  function SecondsAfter(s: Seconds, rate: real, hs: seq<HostEvent>): Seconds
    decreases |hs|
  {
    if hs == [] then s else SecondsAfter(SecondsThen(s, rate, hs[0]), rate, hs[1..])
  }

  // ---- What the numbers mean -----------------------------------------------------------------------------

  /** To the nearest sample. */
  predicate Nearest(seconds: real, rate: real, samples: nat) {
    samples as real - 0.5 <= seconds * rate < samples as real + 0.5
  }

  predicate Countable(seconds: real, rate: real) {
    0.0 <= seconds && seconds * rate <= MAXIMUM_SAMPLES as real
  }

  lemma TimeIsCounted(seconds: real, rate: real, allowZero: bool)
    requires 0.0 < rate
    ensures
      var samples := SecondsToSamples(seconds, rate, allowZero);
      && (samples.Some? <==> Countable(seconds, rate))
      && (samples.Some? ==>
            || Nearest(seconds, rate, samples.value)
            || (!allowZero && samples.value == 1 && Nearest(seconds, rate, 0)))
      && (samples.Some? && !allowZero ==> 1 <= samples.value)
  {
    var scaled := seconds * rate;
    assert 0.0 <= seconds ==> 0.0 <= scaled;
    if Countable(seconds, rate) {
      RoundedBelow(scaled);
      assert SecondsToSamples(seconds, rate, allowZero) == ScaledToSamples(scaled, allowZero);
    }
  }

  lemma RoundedBelow(scaled: real)
    requires 0.0 <= scaled <= MAXIMUM_SAMPLES as real
    ensures 0 <= Rounded(scaled) <= MAXIMUM_SAMPLES
    ensures Rounded(scaled) as real - 0.5 <= scaled < Rounded(scaled) as real + 0.5
  {
  }

  /** Each time of the envelope is that of its own parameter, to the nearest sample and, for the release, at
      least one sample; there is an envelope exactly when every time can be counted and the sustain level is
      a level. */
  lemma EnvelopeCountsEachTime(s: Seconds, rate: real)
    requires 0.0 < rate
    ensures
      EnvelopeOf(s, rate).Some? <==>
        && Countable(s.attack, rate) && Countable(s.decay, rate) && Countable(s.release, rate)
        && 0.0 <= s.sustain <= 1.0
    ensures
      EnvelopeOf(s, rate).Some? ==>
        var e := EnvelopeOf(s, rate).value;
        && Nearest(s.attack, rate, e.attack) && Nearest(s.decay, rate, e.decay) && e.sustain == s.sustain
        && 1 <= e.release && (Nearest(s.release, rate, e.release) || (e.release == 1 && Nearest(s.release, rate, 0)))
  {
    hide SecondsToSamples, Countable, Nearest;
    TimeIsCounted(s.attack, rate, true);
    TimeIsCounted(s.decay, rate, true);
    TimeIsCounted(s.release, rate, false);
  }

  function ValueOf(s: Seconds, slot: AmpSlot): real {
    match slot
    case AmpAttack => s.attack
    case AmpDecay => s.decay
    case AmpSustain => s.sustain
    case AmpRelease => s.release
  }

  /** The event carries a value in range for the parameter, and for all voices. */
  predicate SetsParameter(h: HostEvent, slot: AmpSlot) {
    && h.AmpValue? && h.slot == slot && h.value.Some? && InRange(slot, h.value.value)
    && h.address.noteId == -1 && h.address.port == -1 && h.address.channel == -1 && h.address.key == -1
  }

  function LatestValue(hs: seq<HostEvent>, slot: AmpSlot, start: real): real {
    if hs == [] then start
    else if SetsParameter(hs[|hs| - 1], slot) then hs[|hs| - 1].value.value
    else LatestValue(hs[..|hs| - 1], slot, start)
  }

  lemma {:induction false} OneMoreEvent(s: Seconds, rate: real, hs: seq<HostEvent>, h: HostEvent)
    ensures SecondsAfter(s, rate, hs + [h]) == SecondsThen(SecondsAfter(s, rate, hs), rate, h)
    decreases |hs|
  {
    hide SecondsThen;
    if hs == [] {
      assert ([] + [h])[1..] == [];
    } else {
      assert (hs + [h])[1..] == hs[1..] + [h];
      OneMoreEvent(SecondsThen(s, rate, hs[0]), rate, hs[1..], h);
    }
  }

  /** Each parameter stands at the latest value in range that the host set it to, and at nothing else: at a
      configured rate no such value is refused. */
  lemma {:induction false} ParametersFollowTheHost(s: Seconds, rate: real, hs: seq<HostEvent>, slot: AmpSlot)
    requires 0.0 < rate <= MAXIMUM_SAMPLES as real / MAXIMUM_ENVELOPE_SECONDS && EnvelopeOf(s, rate).Some?
    ensures ValueOf(SecondsAfter(s, rate, hs), slot) == LatestValue(hs, slot, ValueOf(s, slot))
    ensures EnvelopeOf(SecondsAfter(s, rate, hs), rate).Some?
    decreases |hs|
  {
    hide EnvelopeOf, InRange;
    if hs != [] {
      var n := |hs| - 1;
      ParametersFollowTheHost(s, rate, hs[..n], slot);
      OneMoreEvent(s, rate, hs[..n], hs[n]);
      assert hs[..n] + [hs[n]] == hs;
      var before, h := SecondsAfter(s, rate, hs[..n]), hs[n];
      if Effective(h) {
        InRangeNeverFails(before, rate, h.slot, h.value.value);
      }
    }
  }

  // ---- The engine agrees -----------------------------------------------------------------------------

  ghost predicate Agree(s: Seconds, rate: real, e: Engine) {
    EnvelopeOf(s, rate) == Some(e.envelope)
  }

  lemma {:induction false} RenderingKeepsEnvelope(e: Engine, begin: nat, end: nat, block: nat)
    requires EngineOk(e)
    ensures VoiceMachine.RenderRange(e, begin, end, block).engine.envelope == e.envelope
    decreases end - begin
  {
    hide EngineOk, Sweep;
    if begin < end {
      RenderingKeepsEnvelope(VoiceMachine.RenderFrame(e, begin, block).engine, begin + 1, end, block);
    }
  }

  lemma MidiKeepsEnvelope(e: Engine, port: int, status: Byte, data1: Byte, data2: Byte, answers: Answers)
    requires EngineOk(e)
    ensures DispatchMidi(e, port, status, data1, data2, answers).engine.envelope == e.envelope
  {
    hide EngineOk, Sweep, StartVoice;
  }

  lemma DispatchSetsEnvelope(e: Engine, body: Body)
    requires EngineOk(e)
    ensures
      var r := Dispatch(e, body);
      if body.Core? && body.event.SetAmpEnvelope? && r.ok then r.engine.envelope == body.event.envelope
      else r.engine.envelope == e.envelope
  {
    hide EngineOk, Sweep, DispatchMidi, StartVoice;
    if body.Midi? {
      MidiKeepsEnvelope(e, body.port, body.status, body.data1, body.data2, body.answers);
    }
  }

  /** One event, accepted or refused. */
  lemma EventKeepsAgreement(e: Engine, s: Seconds, rate: real, h: HostEvent)
    requires EngineOk(e) && Agree(s, rate, e) && Plain(h)
    ensures
      var r := Dispatch(e, BodyOf(s, rate, h));
      if r.ok then Agree(SecondsThen(s, rate, h), rate, r.engine) else Agree(s, rate, r.engine)
  {
    DispatchSetsEnvelope(e, BodyOf(s, rate, h));
    hide EngineOk, DispatchMidi, Sweep, VoiceMachine.DispatchNoteOn, EnvelopeOf, InRange;
  }

  /** How many events of a block are dispatched with success. */
  ghost function Handled(e: Engine, cursor: nat, events: seq<Event>, block: nat): (n: nat)
    requires EngineOk(e) && cursor <= block
    ensures n <= |events|
    decreases |events|
  {
    if events == [] || events[0].body.NoHeader? || events[0].time >= block || events[0].time < cursor then 0
    else
      var segment := VoiceMachine.RenderRange(e, cursor, events[0].time, block);
      var dispatched := DispatchAt(segment.engine, events[0]);
      if !dispatched.ok then 0 else 1 + Handled(dispatched.engine, events[0].time, events[1..], block)
  }

  lemma {:induction false} LoopKeepsAgreement(e: Engine, s: Seconds, rate: real, cursor: nat, hs: seq<HostEvent>,
                                              block: nat)
    requires EngineOk(e) && cursor <= block && Agree(s, rate, e)
    requires forall i :: 0 <= i < |hs| ==> Plain(hs[i])
    ensures
      var events := AsEvents(s, rate, hs);
      var r := ProcessFrom(e, cursor, events, block);
      var n := Handled(e, cursor, events, block);
      && Agree(SecondsAfter(s, rate, hs[..n]), rate, r.engine)
      && (r.ok ==> n == |hs|)
    decreases |hs|
  {
    hide EngineOk, VoiceMachine.RenderRange, Dispatch, BodyOf, SecondsThen, EnvelopeOf, Plain;
    var events := AsEvents(s, rate, hs);
    if hs == [] {
      RenderingKeepsEnvelope(e, cursor, block, block);
    } else if events[0].body.NoHeader? || events[0].time >= block || events[0].time < cursor {
      assert hs[..0] == [];
    } else {
      var segment := VoiceMachine.RenderRange(e, cursor, events[0].time, block);
      RenderingKeepsEnvelope(e, cursor, events[0].time, block);
      EventKeepsAgreement(segment.engine, s, rate, hs[0]);
      var dispatched := DispatchAt(segment.engine, events[0]);
      if dispatched.ok {
        var next := SecondsThen(s, rate, hs[0]);
        assert events[1..] == AsEvents(next, rate, hs[1..]);
        LoopKeepsAgreement(dispatched.engine, next, rate, events[0].time, hs[1..], block);
        var m := Handled(dispatched.engine, events[0].time, events[1..], block);
        assert hs[..m + 1][0] == hs[0] && hs[..m + 1][1..] == hs[1..][..m];
      } else {
        assert hs[..0] == [];
      }
    }
  }

  // ---- Whole runs ------------------------------------------------------------------------------------

  /** What befalls the adapter: a block, a value set outside of blocks, a reset. */
  datatype Turn =
    | Play(frames: nat, events: seq<HostEvent>)
    | Apply(event: HostEvent)
    | ResetEngine

  predicate PlainTurn(t: Turn) {
    match t
    case Play(_, events) => forall i :: 0 <= i < |events| ==> Plain(events[i])
    case Apply(event) => event.AmpValue?
    case ResetEngine => true
  }

  /** The reset of the engine keeps its control values. */
  ghost function Cleared(e: Engine): (r: Engine)
    requires EngineOk(e)
    ensures EngineOk(r) && r.envelope == e.envelope && |r.slots| == |e.slots|
  {
    NewEngine(|e.slots|, e.envelope).(generation := e.generation, defaults := e.defaults)
  }

  ghost function PlayBlock(e: Engine, s: Seconds, rate: real, frames: nat, events: seq<HostEvent>):
    (r: (Engine, Seconds))
    requires EngineOk(e)
    ensures EngineOk(r.0)
  {
    if frames == 0 then (e, s)
    else
      var begun := VoiceMachine.CompleteDeferredReleases(e).engine;
      var handled := Handled(begun, 0, AsEvents(s, rate, events), frames);
      (Process(e, frames, AsEvents(s, rate, events)).engine, SecondsAfter(s, rate, events[..handled]))
  }

  /** Blocks that fail leave the adapter where they failed. */
  ghost function TakeTurn(e: Engine, s: Seconds, rate: real, t: Turn): (r: (Engine, Seconds))
    requires EngineOk(e)
    ensures EngineOk(r.0)
  {
    match t
    case Play(frames, events) => PlayBlock(e, s, rate, frames, events)
    case Apply(event) => (Dispatch(e, BodyOf(s, rate, event)).engine, SecondsThen(s, rate, event))
    case ResetEngine => (Cleared(e), s)
  }

  ghost function TakeTurns(e: Engine, s: Seconds, rate: real, turns: seq<Turn>): (r: (Engine, Seconds))
    requires EngineOk(e)
    ensures EngineOk(r.0)
    decreases |turns|
  {
    if turns == [] then (e, s)
    else
      var next := TakeTurn(e, s, rate, turns[0]);
      TakeTurns(next.0, next.1, rate, turns[1..])
  }

  lemma BlockKeepsAgreement(e: Engine, s: Seconds, rate: real, frames: nat, events: seq<HostEvent>)
    requires EngineOk(e) && Agree(s, rate, e) && forall i :: 0 <= i < |events| ==> Plain(events[i])
    ensures
      var r := PlayBlock(e, s, rate, frames, events);
      Agree(r.1, rate, r.0)
  {
    hide EngineOk, Sweep, ProcessFrom, EnvelopeOf, AsEvents, SecondsAfter, Handled;
    if frames != 0 {
      LoopKeepsAgreement(VoiceMachine.CompleteDeferredReleases(e).engine, s, rate, 0, events, frames);
    }
  }

  lemma TurnKeepsAgreement(e: Engine, s: Seconds, rate: real, t: Turn)
    requires EngineOk(e) && Agree(s, rate, e) && PlainTurn(t)
    ensures
      var r := TakeTurn(e, s, rate, t);
      Agree(r.1, rate, r.0)
  {
    hide EngineOk, PlayBlock, Dispatch, EnvelopeOf;
    match t
    case Play(frames, events) => BlockKeepsAgreement(e, s, rate, frames, events);
    case Apply(event) =>
      EventKeepsAgreement(e, s, rate, event);
      RefusedChangesNothing(e, s, rate, event);
    case ResetEngine =>
  }

  /** A value the engine does not take is not kept in seconds either. */
  lemma RefusedChangesNothing(e: Engine, s: Seconds, rate: real, h: HostEvent)
    requires EngineOk(e) && h.AmpValue?
    ensures !Dispatch(e, BodyOf(s, rate, h)).ok ==> SecondsThen(s, rate, h) == s
  {
    hide EngineOk, Sweep;
  }

  /** After any turns the engine's envelope is what the four parameters say, in samples. */
  lemma {:induction false} SecondsAgree(e: Engine, s: Seconds, rate: real, turns: seq<Turn>)
    requires EngineOk(e) && Agree(s, rate, e) && forall i :: 0 <= i < |turns| ==> PlainTurn(turns[i])
    ensures
      var r := TakeTurns(e, s, rate, turns);
      Agree(r.1, rate, r.0)
    decreases |turns|
  {
    hide EngineOk, TakeTurn, Agree, PlainTurn;
    if turns != [] {
      TurnKeepsAgreement(e, s, rate, turns[0]);
      var next := TakeTurn(e, s, rate, turns[0]);
      SecondsAgree(next.0, next.1, rate, turns[1..]);
    }
  }

  // ---- The adapter -----------------------------------------------------------------------------------

  class AmpEnvelopeParameters {
    const engine: VoiceEngine
    var sampleRate: real
    var seconds: Seconds

    ghost predicate Valid()
      reads this, engine, engine.allocator, engine.allocator.slots
      reads engine.sustainedReleases, engine.pedals, engine.lives, engine.voices
    {
      engine.Valid() && Agree(seconds, sampleRate, engine.State())
    }

    constructor ()
      ensures engine.Wired() && fresh(engine)
    {
      engine := new VoiceEngine();
      sampleRate, seconds := 1.0, Seconds(0.0, 0.0, 1.0, 0.0);
    }

    /** Sample rates for which ten seconds are too long to be counted are refused. */
    method Configure(requestedVoices: nat, rate: Option<real>, releaseSamples: nat, tablesReady: bool)
      returns (ok: bool)
      requires engine.Wired() && releaseSamples <= MAXIMUM_SAMPLES
      modifies this, engine, engine.allocator, engine.allocator.slots
      modifies engine.sustainedReleases, engine.pedals, engine.lives, engine.voices
      ensures ok <==> && rate.Some? && 0.0 < rate.value <= MAXIMUM_SAMPLES as real / MAXIMUM_ENVELOPE_SECONDS
                      && 1 <= requestedVoices <= MAX_VOICES && 0 < releaseSamples && tablesReady
      ensures ok ==> Valid() && sampleRate == rate.value && seconds == Configured(rate.value, releaseSamples)
    {
      hide EngineOk;
      if rate.None? || rate.value <= 0.0 || rate.value > MAXIMUM_SAMPLES as real / MAXIMUM_ENVELOPE_SECONDS {
        return false;
      }
      ok := engine.Configure(requestedVoices, rate, releaseSamples, tablesReady);
      if !ok {
        return false;
      }
      sampleRate := rate.value;
      seconds := Seconds(0.0, 0.0, 1.0, releaseSamples as real / rate.value);
      ConfiguredAgrees(rate.value, releaseSamples);
    }

    /** All four values together or none: the engine's envelope and the seconds behind it. */
    method ApplyAmpEnvelopeValue(slot: AmpSlot, value: real, time: nat) returns (ok: bool)
      requires Valid()
      modifies this`seconds, engine, engine.allocator, engine.allocator.slots
      modifies engine.sustainedReleases, engine.pedals, engine.lives, engine.voices
      ensures Valid()
      ensures ok == EnvelopeOf(With(old(seconds), slot, value), sampleRate).Some?
      ensures
        if ok then
          var envelope := EnvelopeOf(With(old(seconds), slot, value), sampleRate).value;
          && seconds == With(old(seconds), slot, value)
          && engine.State() == Dispatch(old(engine.State()), Core(SetAmpEnvelope(envelope), true)).engine
        else seconds == old(seconds) && engine.State() == old(engine.State())
    {
      hide EngineOk, Dispatch, SecondsToSamples, VoiceEngine.State;
      var attackSeconds, decaySeconds := seconds.attack, seconds.decay;
      var sustain, releaseSeconds := seconds.sustain, seconds.release;
      match slot {
        case AmpAttack => attackSeconds := value;
        case AmpDecay => decaySeconds := value;
        case AmpSustain => sustain := value;
        case AmpRelease => releaseSeconds := value;
      }
      var attackSamples := SecondsToSamples(attackSeconds, sampleRate, true);
      var decaySamples := SecondsToSamples(decaySeconds, sampleRate, true);
      var releaseSamples := SecondsToSamples(releaseSeconds, sampleRate, false);
      if attackSamples.None? || decaySamples.None? || releaseSamples.None? || sustain < 0.0 || sustain > 1.0 {
        return false;
      }
      var envelope := Envelope(attackSamples.value, decaySamples.value, sustain, releaseSamples.value);
      assert EnvelopeOf(With(seconds, slot, value), sampleRate) == Some(envelope);
      AcceptedEnvelope(engine.State(), envelope);
      ok := engine.DispatchEvent(Core(SetAmpEnvelope(envelope), true), time);
      seconds := Seconds(attackSeconds, decaySeconds, sustain, releaseSeconds);
    }

    method ParameterBaseValue(slot: AmpSlot) returns (value: real)
      ensures With(seconds, slot, value) == seconds
    {
      match slot {
        case AmpAttack => return seconds.attack;
        case AmpDecay => return seconds.decay;
        case AmpSustain => return seconds.sustain;
        case AmpRelease => return seconds.release;
      }
    }
  }

  lemma AcceptedEnvelope(e: Engine, envelope: Envelope)
    requires EngineOk(e) && EnvelopeOk(envelope)
    ensures
      var r := Dispatch(e, Core(SetAmpEnvelope(envelope), true));
      r.ok && r.engine.envelope == envelope
  {
    hide EngineOk, Sweep;
  }
}
