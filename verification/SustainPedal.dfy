/** The sustain pedal: what it holds back, it delivers. */
module SustainPedal {
  import opened Wrappers
  import opened VoicePool
  import opened VoiceSlots
  import opened VoiceMachine
  import opened Bytes

  /** How often a voice is let go in a list of records. */
  function OffCount(happened: seq<Happening>, g: nat): nat {
    if happened == [] then 0
    else OffCount(happened[..|happened| - 1], g) + if happened[|happened| - 1] == Off(g) then 1 else 0
  }

  lemma {:induction false} OffCountJoin(a: seq<Happening>, b: seq<Happening>, g: nat)
    ensures OffCount(a + b, g) == OffCount(a, g) + OffCount(b, g)
  {
    if b == [] {
      assert a + b == a;
    } else {
      OffCountJoin(a, b[..|b| - 1], g);
      assert (a + b)[..|a + b| - 1] == a + b[..|b| - 1];
    }
  }

  predicate HeldBack(s: Slot, channel: int) {
    s.sustained && s.owner.Some? && s.owner.value.channel == channel
  }

  lemma {:induction false} PassOffCount(slots: seq<Slot>, channel: int, n: nat, i: nat, upTo: nat,
                                        pedals: seq<bool>)
    requires SlotsOk(slots, upTo, pedals) && GenerationsDiffer(slots) && n <= |slots|
    requires i < |slots| && slots[i].owner.Some?
    ensures OffCount(Happened(slots, PedalUp(channel), n), slots[i].voice.generation)
            == if i < n && HeldBack(slots[i], channel) && slots[i].voice.stage != Release then 1 else 0
  {
    if n > 0 {
      var g := slots[i].voice.generation;
      PassOffCount(slots, channel, n - 1, i, upTo, pedals);
      var happened := StepSlot(slots[n - 1], PedalUp(channel)).happened;
      OffCountJoin(Happened(slots, PedalUp(channel), n - 1), happened, g);
      PedalStep(slots[n - 1], channel, upTo, pedals);
      OneOff(g, g);
      OneOff(slots[n - 1].voice.generation, g);
    }
  }

  lemma OneOff(h: nat, g: nat)
    ensures OffCount([Off(h)], g) == if h == g then 1 else 0
  {
    assert [Off(h)][..0] == [];
  }

  lemma PedalStep(s: Slot, channel: int, upTo: nat, pedals: seq<bool>)
    requires SlotOk(s, upTo, pedals)
    ensures
      var r := StepSlot(s, PedalUp(channel));
      if HeldBack(s, channel) then
        && r.slot == s.(sustained := false, life := s.life.(stage := Releasing), voice := BeginRelease(s.voice))
        && r.happened == if s.voice.stage == Release then [] else [Off(s.voice.generation)]
      else r.slot == s && r.happened == []
  {
  }

  /** A deferred release belongs to a sounding voice whose channel holds the pedal down, after any
      successful or failed run. */
  lemma DeferredMeansPedalDown(voices: nat, envelope: Envelope, blocks: seq<Block>, i: nat)
    requires 1 <= voices <= MAX_VOICES && EnvelopeOk(envelope)
    requires
      var e := RunBlocks(NewEngine(voices, envelope), blocks).engine;
      i < |e.slots| && e.slots[i].sustained
    ensures
      var e := RunBlocks(NewEngine(voices, envelope), blocks).engine;
      && e.slots[i].owner.Some? && e.slots[i].voice.active
      && 0 <= e.slots[i].owner.value.channel < |e.pedals|
      && e.pedals[e.slots[i].owner.value.channel]
  {
    hide RunBlocks, NewEngine;
    var e := RunBlocks(NewEngine(voices, envelope), blocks).engine;
    assert SlotOk(e.slots[i], e.generation, e.pedals);
  }

  /** Lifting the pedal, by controller 64 or by Reset All Controllers, lets go of every voice held
      back on the channel, each exactly once if it was still held, and touches no other voice. Nothing
      stays held back there. */
  lemma PedalUpDelivers(e: Engine, channel: nat, i: nat)
    requires EngineOk(e) && channel < 16 && i < |e.slots|
    ensures
      var r := LiftPedal(e, channel);
      var s := e.slots[i];
      && |r.engine.slots| == |e.slots| && !r.engine.pedals[channel]
      && !HeldBack(r.engine.slots[i], channel)
      && r.engine.slots[i] ==
           (if HeldBack(s, channel)
            then s.(sustained := false, life := s.life.(stage := Releasing), voice := BeginRelease(s.voice))
            else s)
      && (s.owner.Some? ==>
            OffCount(r.happened, s.voice.generation)
            == if HeldBack(s, channel) && s.voice.stage != Release then 1 else 0)
  {
    PedalStep(e.slots[i], channel, e.generation, e.pedals);
    if e.slots[i].owner.Some? {
      PassOffCount(e.slots, channel, |e.slots|, i, e.generation, e.pedals);
    }
  }

  /** With the pedal down a MIDI note-off changes no voice: it only marks the matching ones. */
  lemma PedalHoldsNotes(e: Engine, status: Byte, key: Byte, velocity: Byte, answers: Answers, i: nat)
    requires EngineOk(e) && i < |e.slots|
    requires 0x80 <= status < 0x90 && key <= 127 && velocity <= 127 && e.pedals[status % 16]
    ensures
      var r := DispatchMidi(e, 0, status, key, velocity, answers);
      && r.ok && |r.engine.slots| == |e.slots|
      && r.engine.slots[i] == e.slots[i].(sustained :=
           e.slots[i].sustained
           || (e.slots[i].owner.Some? && e.slots[i].owner.value.channel == status % 16
               && e.slots[i].owner.value.key == key))
  {
    assert SlotOk(e.slots[i], e.generation, e.pedals);
  }
}
