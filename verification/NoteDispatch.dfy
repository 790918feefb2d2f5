/** What an event of the input does to every voice, in the terms of the event: whom a note event or a
    MIDI message reaches, what becomes of those voices, what is recorded, and that no other voice is
    touched. */
module NoteDispatch {
  import opened Wrappers
  import opened Bytes
  import opened VoicePool
  import opened VoiceSlots
  import opened VoiceMachine

  // ---- Records about one voice --------------------------------------------------------------------------

  function RecordsOf(happened: seq<Happening>, g: nat): seq<Happening> {
    if happened == [] then []
    else
      var n := |happened| - 1;
      RecordsOf(happened[..n], g) + if happened[n].generation == g then [happened[n]] else []
  }

  lemma {:induction false} RecordsJoin(a: seq<Happening>, b: seq<Happening>, g: nat)
    ensures RecordsOf(a + b, g) == RecordsOf(a, g) + RecordsOf(b, g)
  {
    if b == [] {
      assert a + b == a;
    } else {
      var n := |b| - 1;
      RecordsJoin(a, b[..n], g);
      assert (a + b)[..|a + b| - 1] == a + b[..n];
    }
  }

  lemma OneRecord(h: Happening, g: nat)
    ensures RecordsOf([h], g) == if h.generation == g then [h] else []
  {
    assert [h][..0] == [];
  }

  /** What a pass records about a slot is about the voice that lives there. */
  lemma SlotRecords(s: Slot, a: Action, upTo: nat, pedals: seq<bool>, g: nat)
    requires SlotOk(s, upTo, pedals) && Permitted(a, pedals)
    ensures RecordsOf(StepSlot(s, a).happened, g) ==
            if s.owner.Some? && s.voice.generation == g then StepSlot(s, a).happened else []
  {
    StepAccount(s, a, upTo, pedals);
    var happened := StepSlot(s, a).happened;
    hide SlotOk, StepSlot;
    if happened != [] {
      assert happened == [happened[0]];
      OneRecord(happened[0], g);
    }
  }

  lemma {:induction false} PassRecords(slots: seq<Slot>, a: Action, n: nat, i: nat, upTo: nat, pedals: seq<bool>)
    requires SlotsOk(slots, upTo, pedals) && GenerationsDiffer(slots) && Permitted(a, pedals)
    requires n <= |slots| && i < |slots| && slots[i].owner.Some?
    ensures RecordsOf(Happened(slots, a, n), slots[i].voice.generation)
            == if i < n then StepSlot(slots[i], a).happened else []
  {
    hide StepSlot, SlotsOk, GenerationsDiffer, Permitted, RecordsOf;
    if n > 0 {
      var g := slots[i].voice.generation;
      PassRecords(slots, a, n - 1, i, upTo, pedals);
      RecordsJoin(Happened(slots, a, n - 1), StepSlot(slots[n - 1], a).happened, g);
      OneVoice(slots, n - 1, i, upTo, pedals);
      hide SlotOk;
      SlotRecords(slots[n - 1], a, upTo, pedals, g);
    } else {
      assert RecordsOf([], slots[i].voice.generation) == [] by {
        NoRecords(slots[i].voice.generation);
      }
    }
  }

  lemma NoRecords(g: nat)
    ensures RecordsOf([], g) == []
  {
  }

  lemma OneVoice(slots: seq<Slot>, j: nat, i: nat, upTo: nat, pedals: seq<bool>)
    requires SlotsOk(slots, upTo, pedals) && GenerationsDiffer(slots) && j < |slots| && i < |slots|
    ensures SlotOk(slots[j], upTo, pedals)
    ensures i != j && slots[i].owner.Some? && slots[j].owner.Some? ==>
              slots[i].voice.generation != slots[j].voice.generation
  {
    hide SlotOk;
  }

  lemma SlotIsOk(e: Engine, i: nat)
    requires EngineOk(e) && i < |e.slots|
    ensures SlotOk(e.slots[i], e.generation, e.pedals) && |e.pedals| == 16
    ensures e.slots[i].owner.Some? ==> ValidIdentity(e.slots[i].owner.value)
    ensures e.slots[i].sustained ==>
              var owner := e.slots[i].owner;
              owner.Some? && 0 <= owner.value.channel < 16 && e.pedals[owner.value.channel]
  {
  }

  /** A pass, slot by slot. */
  lemma PassSlot(e: Engine, a: Action, i: nat)
    requires EngineOk(e) && Permitted(a, e.pedals) && i < |e.slots|
    ensures
      var r := Sweep(e, a);
      && |r.engine.slots| == |e.slots| && r.engine.pedals == e.pedals
      && r.engine.slots[i] == StepSlot(e.slots[i], a).slot
      && (e.slots[i].owner.Some? ==>
            RecordsOf(r.happened, e.slots[i].voice.generation) == StepSlot(e.slots[i], a).happened)
  {
    hide StepSlot, SlotOk, PoolOk;
    if e.slots[i].owner.Some? {
      PassRecords(e.slots, a, |e.slots|, i, e.generation, e.pedals);
    }
  }

  // ---- What can become of a voice --------------------------------------------------------------------

  /** Field by field: -1 or the same. */
  predicate Addressed(address: Identity, id: Identity) {
    && (address.noteId == -1 || address.noteId == id.noteId)
    && (address.port == -1 || address.port == id.port)
    && (address.channel == -1 || address.channel == id.channel)
    && (address.key == -1 || address.key == id.key)
  }

  /** Only the signal may have changed. */
  predicate SameButSignal(s: Slot, t: Slot) {
    t == s.(voice := s.voice.(dsp := t.voice.dsp))
  }

  /** The voice is let go: it sounds on from its level, with the whole of its release time to go, unless
      it was in its release already. */
  predicate LetGo(s: Slot, t: Slot) {
    && s.owner.Some? && t.owner == s.owner && !t.sustained
    && t.life == s.life.(stage := Releasing)
    && t.voice == s.voice.(stage := Release,
                           remaining := if s.voice.stage == Release then s.voice.remaining else s.voice.release,
                           step := t.voice.step, dsp := t.voice.dsp)
  }

  function LetGoRecords(s: Slot): seq<Happening> {
    if s.voice.stage == Release then [] else [Off(s.voice.generation)]
  }

  predicate OnChannel(s: Slot, channel: int) {
    s.owner.Some? && s.owner.value.channel == channel
  }

  // ---- One slot --------------------------------------------------------------------------------------

  lemma OffSlot(s: Slot, pattern: Identity, upTo: nat, pedals: seq<bool>)
    requires SlotOk(s, upTo, pedals)
    ensures
      var r := StepSlot(s, OffMatching(pattern));
      if s.owner.Some? && Addressed(pattern, s.owner.value)
      then LetGo(s, r.slot) && r.happened == LetGoRecords(s)
      else r.slot == s && r.happened == []
  {
  }

  lemma ChokeSlot(s: Slot, pattern: Identity, upTo: nat, pedals: seq<bool>)
    requires SlotOk(s, upTo, pedals)
    ensures
      var r := StepSlot(s, ChokeMatching(pattern));
      if s.owner.Some? && Addressed(pattern, s.owner.value)
      then r.slot == EMPTY && r.happened == [End(s.voice.generation, s.owner.value, Choked)]
      else r.slot == s && r.happened == []
  {
  }

  lemma DeferSlot(s: Slot, pattern: Identity)
    ensures
      var r := StepSlot(s, DeferMatching(pattern));
      && r.happened == []
      && r.slot == s.(sustained := s.sustained || (s.owner.Some? && Addressed(pattern, s.owner.value)))
  {
  }

  lemma PedalUpSlot(s: Slot, channel: int, upTo: nat, pedals: seq<bool>)
    requires SlotOk(s, upTo, pedals)
    ensures
      var r := StepSlot(s, PedalUp(channel));
      if s.sustained && OnChannel(s, channel) then LetGo(s, r.slot) && r.happened == LetGoRecords(s)
      else r.slot == s && r.happened == []
  {
  }

  lemma UpdateSlot(s: Slot, event: CoreEvent)
    ensures
      var r := StepSlot(s, Update(event));
      SameButSignal(s, r.slot) && r.happened == []
  {
  }

  // ---- Note events -----------------------------------------------------------------------------------

  /** A NOTE_OFF whose fields are in range lets go of exactly the voices it addresses, and records the
      start of each release once; any other changes nothing. */
  lemma NoteOffLetsGo(e: Engine, address: Identity, i: nat)
    requires EngineOk(e) && i < |e.slots|
    ensures
      var r := Dispatch(e, NoteOffEvent(address));
      var valid := && -1 <= address.noteId && -1 <= address.port <= 0
                   && -1 <= address.channel <= 15 && -1 <= address.key <= 127;
      var s, t := e.slots[i], r.engine.slots[i];
      && r.ok && |r.engine.slots| == |e.slots| && r.engine.pedals == e.pedals
      && (if valid && s.owner.Some? && Addressed(address, s.owner.value)
          then LetGo(s, t) && RecordsOf(r.happened, s.voice.generation) == LetGoRecords(s)
          else t == s && (s.owner.Some? ==> RecordsOf(r.happened, s.voice.generation) == []))
  {
    PassSlot(e, OffMatching(address), i);
    OffSlot(e.slots[i], address, e.generation, e.pedals);
    hide Sweep, EngineOk, StepSlot;
  }

  /** A NOTE_CHOKE in range ends exactly the voices it addresses, at once and without a release. */
  lemma NoteChokeEnds(e: Engine, address: Identity, i: nat)
    requires EngineOk(e) && i < |e.slots|
    ensures
      var r := Dispatch(e, NoteChokeEvent(address));
      var valid := && -1 <= address.noteId && -1 <= address.port <= 0
                   && -1 <= address.channel <= 15 && -1 <= address.key <= 127;
      var s, t := e.slots[i], r.engine.slots[i];
      && r.ok && |r.engine.slots| == |e.slots| && r.engine.pedals == e.pedals
      && (if valid && s.owner.Some? && Addressed(address, s.owner.value)
          then t == EMPTY
            && RecordsOf(r.happened, s.voice.generation) == [End(s.voice.generation, s.owner.value, Choked)]
          else t == s && (s.owner.Some? ==> RecordsOf(r.happened, s.voice.generation) == []))
  {
    PassSlot(e, ChokeMatching(address), i);
    ChokeSlot(e.slots[i], address, e.generation, e.pedals);
    hide Sweep, EngineOk, StepSlot;
  }

  /** Slot `i` is the one a new note takes: the lowest free one, or, when none is free, that of the voice
      allocated longest ago. */
  ghost predicate TakenNext(e: Engine, i: nat) {
    && i < |e.slots|
    && if e.slots[i].owner.None? then forall j :: 0 <= j < i ==> e.slots[j].owner.Some?
       else e.order != [] && i == e.order[0] && forall j :: 0 <= j < |e.slots| ==> e.slots[j].owner.Some?
  }

  /** The note lives in the slot under a new generation, held, from the defaults and with the release time
      now in force. */
  ghost predicate NoteStarted(e: Engine, t: Slot, id: Identity, velocity: real) {
    var g, release := e.generation + 1, e.envelope.release;
    && t.owner == Some(id) && !t.sustained && t.life == Life(id, g, Held)
    && t.voice.active && !t.voice.deferred && t.voice.identity == id && t.voice.generation == g
    && t.voice.release == release && t.voice.stage != Release
    && t.voice.dsp == Started(e.defaults, id, velocity)
  }

  /** Whoever had the slot ends first. */
  function NoteRecords(e: Engine, before: Slot, id: Identity): seq<Happening> {
    (if before.owner.Some? then [End(before.voice.generation, before.owner.value, Stolen)] else [])
    + [On(e.generation + 1, id, e.envelope.release)]
  }

  lemma NewNote(e: Engine, id: Identity, velocity: real) returns (i: nat)
    requires EngineOk(e) && ValidIdentity(id) && 0.0 <= velocity <= 1.0
    ensures
      var r := DispatchNoteOn(e, id, velocity);
      && TakenNext(e, i) && |r.engine.slots| == |e.slots| && r.engine.pedals == e.pedals
      && r.engine.generation == e.generation + 1
      && NoteStarted(e, r.engine.slots[i], id, velocity) && r.happened == NoteRecords(e, e.slots[i], id)
      && forall j :: 0 <= j < |e.slots| && j != i ==> r.engine.slots[j] == e.slots[j]
  {
    i := Allocate(PoolOf(e), id).1.index;
    assert SlotOk(e.slots[i], e.generation, e.pedals);
    hide SlotsOk, GenerationsDiffer, StartVoice;
  }

  /** A valid NOTE_ON takes the next slot, ends the voice that had it, and touches no other; any other
      NOTE_ON changes nothing. */
  lemma NoteOnStarts(e: Engine, address: Identity, velocity: Option<real>, told: bool)
    requires EngineOk(e)
    ensures
      var r := Dispatch(e, NoteOnEvent(address, velocity, told));
      var valid := && -1 <= address.noteId && address.port == 0 && 0 <= address.channel <= 15
                   && 0 <= address.key <= 127 && velocity.Some? && 0.0 <= velocity.value <= 1.0;
      if valid then
        && r.ok == told && |r.engine.slots| == |e.slots| && r.engine.pedals == e.pedals
        && exists i: nat :: TakenNext(e, i)
             && NoteStarted(e, r.engine.slots[i], address, velocity.value)
             && r.happened == NoteRecords(e, e.slots[i], address)
             && forall j :: 0 <= j < |e.slots| && j != i ==> r.engine.slots[j] == e.slots[j]
      else r.ok && r.engine == e && r.happened == []
  {
    if ValidNoteOn(address, velocity) {
      var i := NewNote(e, address, velocity.value);
      hide EngineOk, DispatchNoteOn, TakenNext, NoteStarted;
    }
  }

  // ---- MIDI notes ------------------------------------------------------------------------------------

  /** A MIDI note-off, or a note-on with velocity 0, reaches the voices of its channel and key, whatever
      their note id: with the pedal up it lets go of them, with the pedal down it marks them. */
  lemma MidiNoteOff(e: Engine, status: Byte, key: Byte, velocity: Byte, answers: Answers, i: nat)
    requires EngineOk(e) && i < |e.slots| && key <= 127 && velocity <= 127
    requires 0x80 <= status < 0x90 || (0x90 <= status < 0xa0 && velocity == 0)
    ensures
      var channel := status % 16;
      var r := DispatchMidi(e, 0, status, key, velocity, answers);
      var s, t := e.slots[i], r.engine.slots[i];
      var reached := OnChannel(s, channel) && s.owner.value.key == key;
      && r.ok && |r.engine.slots| == |e.slots| && r.engine.pedals == e.pedals
      && (if e.pedals[channel] then
            && t == s.(sustained := s.sustained || reached)
            && (s.owner.Some? ==> RecordsOf(r.happened, s.voice.generation) == [])
          else if reached then LetGo(s, t) && RecordsOf(r.happened, s.voice.generation) == LetGoRecords(s)
          else t == s && (s.owner.Some? ==> RecordsOf(r.happened, s.voice.generation) == []))
  {
    hide EngineOk, Sweep, StepSlot, SlotOk, DispatchController, OfferToSink;
    var pattern := NoteFor(status % 16, key);
    SlotIsOk(e, i);
    OffSlot(e.slots[i], pattern, e.generation, e.pedals);
    DeferSlot(e.slots[i], pattern);
    PassSlot(e, OffMatching(pattern), i);
    if e.pedals[status % 16] {
      PassSlot(e, DeferMatching(pattern), i);
    }
  }

  /** A MIDI note-on replays the expressions of its channel to the sounding voices, as far as the sink
      takes them, and if it takes them all starts the note, without a note id and at velocity over 127. */
  lemma MidiNoteOn(e: Engine, status: Byte, key: Byte, velocity: Byte, answers: Answers)
    requires EngineOk(e) && 0x90 <= status < 0xa0 && key <= 127 && 0 < velocity <= 127
    ensures
      var message := MidiMessage(0, status, key, velocity, if 5 < answers.taken then 5 else answers.taken);
      var replayed := UpdateCore(e, message).engine;
      var r := DispatchMidi(e, 0, status, key, velocity, answers);
      && |replayed.slots| == |r.engine.slots| == |e.slots| && r.engine.pedals == e.pedals
      && replayed.generation == e.generation && replayed.order == e.order
      && replayed.defaults == e.defaults + [message] && replayed.envelope == e.envelope
      && (forall j :: 0 <= j < |e.slots| ==> SameButSignal(e.slots[j], replayed.slots[j]))
      && r.ok == (5 <= answers.taken && answers.told)
      && if answers.taken < 5 then r.engine == replayed
         else
           exists i: nat :: TakenNext(replayed, i)
             && NoteStarted(replayed, r.engine.slots[i], Identity(-1, 0, status % 16, key), velocity as real / 127.0)
             && r.happened == UpdateCore(e, message).happened
                              + NoteRecords(replayed, replayed.slots[i], Identity(-1, 0, status % 16, key))
             && forall j :: 0 <= j < |e.slots| && j != i ==> r.engine.slots[j] == replayed.slots[j]
  {
    hide EngineOk, StartVoice, StepSlot, SlotsOk, DispatchNoteOn, TakenNext, NoteStarted, DispatchController, KeepOwned;
    var message := MidiMessage(0, status, key, velocity, if 5 < answers.taken then 5 else answers.taken);
    assert message == MessageOf(0, status, key, velocity, answers);
    UpdatedOrder(e, message);
    forall j | 0 <= j < |e.slots| ensures SameButSignal(e.slots[j], UpdateCore(e, message).engine.slots[j]) {
      UpdatedRecords(e, message, j);
    }
    var replayed := UpdateCore(e, message).engine;
    assert 0.0 <= velocity as real / 127.0 <= 1.0;
    var i := NewNote(replayed, NoteFor(status % 16, key), velocity as real / 127.0);
  }

  lemma UpdatedOrder(e: Engine, message: CoreEvent)
    requires EngineOk(e)
    ensures
      var r := UpdateCore(e, message).engine;
      && r.order == e.order && r.generation == e.generation && r.envelope == e.envelope
      && r.defaults == e.defaults + [message] && r.pedals == e.pedals
  {
    var r := UpdateCore(e, message).engine;
    forall i | 0 <= i < |e.slots| ensures r.slots[i].owner == e.slots[i].owner {
      UpdatedRecords(e, message, i);
    }
    assert OwnersOf(r.slots) == OwnersOf(e.slots);
    KeepOwnedAll(e.order, OwnersOf(e.slots));
  }

  // ---- Other events ----------------------------------------------------------------------------------

  /** A core event that the sink accepts concerns the signal, and, if it is an amp envelope that is one,
      the envelope of notes to come; a refused one changes nothing. */
  lemma CoreEvents(e: Engine, event: CoreEvent, accepted: bool, i: nat)
    requires EngineOk(e) && i < |e.slots|
    ensures
      var r := Dispatch(e, Core(event, accepted));
      if accepted && (event.SetAmpEnvelope? ==> EnvelopeOk(event.envelope)) then
        && r.ok && |r.engine.slots| == |e.slots| && r.engine.pedals == e.pedals
        && r.engine.envelope == (if event.SetAmpEnvelope? then event.envelope else e.envelope)
        && r.engine.defaults == e.defaults + [event] && r.engine.generation == e.generation
        && SameButSignal(e.slots[i], r.engine.slots[i])
        && (e.slots[i].owner.Some? ==> RecordsOf(r.happened, e.slots[i].voice.generation) == [])
      else !r.ok && r.engine == e && r.happened == []
  {
    hide EngineOk, StepSlot, Sweep, OwnersOf;
    UpdatedRecords(e, event, i);
  }

  // ---- Controllers -----------------------------------------------------------------------------------

  /** What a controller message did to slot `i`, up to the signal. */
  predicate Reached(s: Slot, t: Slot, records: seq<Happening>, letGo: bool) {
    if letGo then LetGo(s, t) && records == LetGoRecords(s)
    else SameButSignal(s, t) && records == []
  }

  lemma UpdatedRecords(e: Engine, message: CoreEvent, i: nat)
    requires EngineOk(e) && i < |e.slots|
    ensures
      var r := UpdateCore(e, message);
      && |r.engine.slots| == |e.slots| && r.engine.pedals == e.pedals && r.ok
      && SameButSignal(e.slots[i], r.engine.slots[i])
      && (e.slots[i].owner.Some? ==> RecordsOf(r.happened, e.slots[i].voice.generation) == [])
  {
    PassSlot(e, Update(message), i);
    UpdateSlot(e.slots[i], message);
    hide EngineOk, Sweep, StepSlot;
  }

  lemma LiftedRecords(e: Engine, channel: nat, i: nat)
    requires EngineOk(e) && channel < 16 && i < |e.slots|
    ensures
      var r := LiftPedal(e, channel);
      var s := e.slots[i];
      && |r.engine.slots| == |e.slots| && r.engine.pedals == e.pedals[channel := false]
      && (if s.sustained && OnChannel(s, channel) then LetGo(s, r.engine.slots[i]) else r.engine.slots[i] == s)
      && (s.owner.Some? ==>
            RecordsOf(r.happened, s.voice.generation) ==
              if s.sustained && OnChannel(s, channel) then LetGoRecords(s) else [])
  {
    PassSlot(e, PedalUp(channel), i);
    assert SlotOk(e.slots[i], e.generation, e.pedals);
    PedalUpSlot(e.slots[i], channel, e.generation, e.pedals);
    hide EngineOk, Sweep, StepSlot;
  }

  /** Sustain below 64 and Reset All Controllers lift the pedal of the channel: every voice held back
      there is let go, once, no other voice is touched but in its signal, and none stays held back. */
  lemma PedalUpMessage(e: Engine, channel: nat, controller: Byte, value: Byte, answers: Answers, i: nat)
    requires EngineOk(e) && channel < 16 && i < |e.slots|
    requires (controller == 64 && value < 64) || (controller == 121 && value <= 127)
    ensures
      var r := DispatchMidi(e, 0, 0xb0 + channel, controller, value, answers);
      var s, t := e.slots[i], r.engine.slots[i];
      var heldBack := s.sustained && OnChannel(s, channel);
      && |r.engine.slots| == |e.slots| && r.engine.pedals == e.pedals[channel := false]
      && (heldBack ==> LetGo(s, t)) && (!heldBack ==> SameButSignal(s, t))
      && (s.owner.Some? ==>
            RecordsOf(r.happened, s.voice.generation) == if heldBack then LetGoRecords(s) else [])
      && !(t.sustained && OnChannel(t, channel))
  {
    hide EngineOk, LiftPedal, UpdateCore, SlotOk, RecordsOf, LetGoRecords;
    var message := MessageOf(0, 0xb0 + channel, controller, value, answers);
    var s := e.slots[i];
    SlotIsOk(e, i);
    LiftedRecords(e, channel, i);
    UpdatedRecords(e, message, i);
    var lifted := LiftPedal(e, channel);
    UpdatedRecords(lifted.engine, message, i);
    var updated := UpdateCore(lifted.engine, message);
    if s.owner.Some? {
      RecordsJoin(lifted.happened, updated.happened, s.voice.generation);
      NoRecords(s.voice.generation);
    }
  }

  /** Sustain from 64 on holds the pedal down and touches no voice. */
  lemma PedalDownMessage(e: Engine, channel: nat, value: Byte, answers: Answers)
    requires EngineOk(e) && channel < 16 && 64 <= value <= 127
    ensures
      var r := DispatchMidi(e, 0, 0xb0 + channel, 64, value, answers);
      r.ok && r.engine == e.(pedals := e.pedals[channel := true]) && r.happened == []
  {
    hide EngineOk, LiftPedal, UpdateCore;
  }

  /** All Sound Off ends every voice of the channel at once, pedal or not. */
  lemma AllSoundOff(e: Engine, channel: nat, value: Byte, answers: Answers, i: nat)
    requires EngineOk(e) && channel < 16 && i < |e.slots| && value <= 127
    ensures
      var r := DispatchMidi(e, 0, 0xb0 + channel, 120, value, answers);
      var s, t := e.slots[i], r.engine.slots[i];
      && r.ok && |r.engine.slots| == |e.slots| && r.engine.pedals == e.pedals
      && (if OnChannel(s, channel) then
            && t == EMPTY
            && RecordsOf(r.happened, s.voice.generation) == [End(s.voice.generation, s.owner.value, Choked)]
          else t == s && (s.owner.Some? ==> RecordsOf(r.happened, s.voice.generation) == []))
  {
    hide EngineOk, Sweep, StepSlot, SlotOk, LiftPedal, UpdateCore;
    var pattern := NoteFor(channel, -1);
    SlotIsOk(e, i);
    PassSlot(e, ChokeMatching(pattern), i);
    ChokeSlot(e.slots[i], pattern, e.generation, e.pedals);
  }

  /** All Notes Off, in its five forms, lets go of every voice of the channel, or marks it while the
      pedal is down. */
  lemma AllNotesOff(e: Engine, channel: nat, controller: Byte, value: Byte, answers: Answers, i: nat)
    requires EngineOk(e) && channel < 16 && i < |e.slots| && value <= 127 && 123 <= controller <= 127
    ensures
      var r := DispatchMidi(e, 0, 0xb0 + channel, controller, value, answers);
      var s, t := e.slots[i], r.engine.slots[i];
      && r.ok && |r.engine.slots| == |e.slots| && r.engine.pedals == e.pedals
      && (if e.pedals[channel] then
            && t == s.(sustained := s.sustained || OnChannel(s, channel))
            && (s.owner.Some? ==> RecordsOf(r.happened, s.voice.generation) == [])
          else if OnChannel(s, channel) then
            LetGo(s, t) && RecordsOf(r.happened, s.voice.generation) == LetGoRecords(s)
          else t == s && (s.owner.Some? ==> RecordsOf(r.happened, s.voice.generation) == []))
  {
    hide EngineOk, Sweep, StepSlot, SlotOk, LiftPedal, UpdateCore;
    var pattern := NoteFor(channel, -1);
    SlotIsOk(e, i);
    PassSlot(e, OffMatching(pattern), i);
    OffSlot(e.slots[i], pattern, e.generation, e.pedals);
    DeferSlot(e.slots[i], pattern);
    if e.pedals[channel] {
      PassSlot(e, DeferMatching(pattern), i);
    }
  }

  /** Every other message concerns the signal only: no voice starts, is let go or ends, and no pedal
      moves. */
  lemma OtherMessages(e: Engine, port: int, status: Byte, data1: Byte, data2: Byte, answers: Answers, i: nat)
    requires EngineOk(e) && i < |e.slots|
    requires
      var family := status - status % 16;
      || (0x80 <= family <= 0xe0 && port != 0) || data1 > 127 || data2 > 127
      || (family != 0x80 && family != 0x90 && family != 0xb0)
      || (family == 0xb0 && data1 != 64 && data1 != 120 && data1 != 121 && !(123 <= data1 <= 127))
    ensures
      var r := DispatchMidi(e, port, status, data1, data2, answers);
      && |r.engine.slots| == |e.slots| && r.engine.pedals == e.pedals
      && SameButSignal(e.slots[i], r.engine.slots[i])
      && (e.slots[i].owner.Some? ==> RecordsOf(r.happened, e.slots[i].voice.generation) == [])
  {
    UpdatedRecords(e, MessageOf(port, status, data1, data2, answers), i);
    hide EngineOk, Sweep, LiftPedal, UpdateCore, DispatchNoteOn;
  }
}
