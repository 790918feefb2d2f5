/** The voice engine as it is written: arrays updated in place by event and frame loops. Every method
    is tied to the state machine of module VoiceMachine. The sink callbacks between scheduler,
    lifecycle and engine are direct calls here. */
module VoiceEngines {
  import opened Wrappers
  import opened VoicePool
  import opened VoiceSlots
  import opened VoiceMachine
  import opened Bytes
  import opened VoiceAllocators
  import opened BlockPartition
  import opened ReleaseTiming

  function Bundle(slots: seq<AllocatorSlot>, sustained: seq<bool>, lives: seq<Life>, voices: seq<Voice>):
    (r: seq<Slot>)
    requires |slots| == |sustained| == |lives| == |voices|
    ensures |r| == |slots|
    ensures forall i :: 0 <= i < |r| ==>
              r[i] == Slot(OwnerOf(slots[i]), sustained[i], lives[i], voices[i])
    ensures VoiceMachine.OwnersOf(r) == VoiceAllocators.OwnersOf(slots)
  {
    seq(|slots|, i requires 0 <= i < |slots| =>
          Slot(OwnerOf(slots[i]), sustained[i], lives[i], voices[i]))
  }

  lemma FreshSlots(slots: seq<AllocatorSlot>, sustained: seq<bool>, lives: seq<Life>, voices: seq<Voice>)
    requires |slots| == |sustained| == |lives| == |voices|
    requires VoiceAllocators.OwnersOf(slots) == NewPool(|slots|).owners
    requires forall i :: 0 <= i < |slots| ==> !sustained[i] && lives[i] == NO_LIFE && voices[i] == SILENT
    ensures Bundle(slots, sustained, lives, voices) == seq(|slots|, i => EMPTY)
  {
    forall i | 0 <= i < |slots| ensures OwnerOf(slots[i]) == None {
      assert VoiceAllocators.OwnersOf(slots)[i] == NewPool(|slots|).owners[i];
    }
  }

  lemma FreshIsOk(voices: nat, e: Engine)
    requires 1 <= voices <= MAX_VOICES && EnvelopeOk(e.envelope)
    requires e.slots == seq(voices, i => EMPTY) && e.order == [] && e.pedals == seq(16, i => false)
    ensures EngineOk(e)
    ensures e == NewEngine(voices, e.envelope).(generation := e.generation, defaults := e.defaults)
  {
  }

  class VoiceEngine {
    const allocator: VoiceAllocator
    const sustainedReleases: array<bool>
    const pedals: array<bool>
    const lives: array<Life>
    const voices: array<Voice>
    var generationSerial: nat
    var envelope: Envelope
    var defaults: seq<CoreEvent>
    var log: seq<LogEntry>

    /** Sizes and the allocator's own invariant. */
    ghost predicate Wired()
      reads allocator, allocator.slots
    {
      && allocator.Valid()
      && sustainedReleases.Length == lives.Length == voices.Length == MAX_VOICES
      && pedals.Length == 16 && pedals != sustainedReleases
    }

    ghost predicate Shape()
      reads allocator, allocator.slots
    {
      Wired() && 1 <= allocator.capacity
    }

    ghost function SlotsNow(): seq<Slot>
      requires Shape()
      reads allocator, allocator.slots, sustainedReleases, lives, voices
    {
      var n := allocator.capacity;
      Bundle(allocator.slots[..n], sustainedReleases[..n], lives[..n], voices[..n])
    }

    ghost function State(): Engine
      requires Shape()
      reads `generationSerial, `envelope, `defaults
      reads allocator, allocator.slots, sustainedReleases, pedals, lives, voices
    {
      Engine(SlotsNow(), allocator.order, pedals[..], generationSerial, envelope, defaults)
    }

    ghost predicate Valid()
      reads `generationSerial, `envelope, `defaults
      reads allocator, allocator.slots, sustainedReleases, pedals, lives, voices
    {
      Shape() && EngineOk(State())
    }

    constructor ()
      ensures Wired() && allocator.capacity == 0 && log == []
      ensures fresh(allocator) && fresh(allocator.slots)
      ensures fresh(sustainedReleases) && fresh(pedals) && fresh(lives) && fresh(voices)
    {
      hide PoolOk, Stamped, NewPool;
      sustainedReleases := new bool[MAX_VOICES];
      pedals := new bool[16];
      lives := new Life[MAX_VOICES];
      voices := new Voice[MAX_VOICES];
      allocator := new VoiceAllocator();
      generationSerial, envelope, defaults, log := 0, Envelope(0, 0, 1.0, 1), [], [];
    }

    /** The sample rate is absent when it is not a finite number; `tablesReady`: the filter tables could
        be prepared for it. */
    method Configure(requestedVoices: nat, sampleRate: Option<real>, releaseSamples: nat, tablesReady: bool)
      returns (ok: bool)
      requires Wired()
      modifies this, allocator, allocator.slots, sustainedReleases, pedals, lives, voices
      ensures ok <==> && sampleRate.Some? && 0.0 < sampleRate.value && 0 < releaseSamples
                      && 1 <= requestedVoices <= MAX_VOICES && tablesReady
      ensures sampleRate.None? || sampleRate.value <= 0.0 || releaseSamples == 0 ==>
                unchanged(this, allocator, allocator.slots, sustainedReleases, pedals, lives, voices)
      ensures ok ==>
                && Valid() && log == old(log)
                && State() == NewEngine(requestedVoices, Envelope(0, 0, 1.0, releaseSamples))
                              .(generation := old(generationSerial), defaults := old(defaults))
    {
      if sampleRate.None? || sampleRate.value <= 0.0 || releaseSamples == 0 {
        return false;
      }
      ok := allocator.Configure(requestedVoices);
      if !ok {
        return false;
      }
      if !tablesReady {
        return false;
      }
      ClearMidiStagesAndVoices();
      envelope := Envelope(0, 0, 1.0, releaseSamples);
      FreshIsOk(requestedVoices, State());
    }

    /** Keeps the control values and the generation counter; every voice and all MIDI state goes. */
    method Reset()
      requires Valid()
      modifies this, allocator, allocator.slots, sustainedReleases, pedals, lives, voices
      ensures Valid() && log == old(log)
      ensures State() == NewEngine(|old(State()).slots|, old(envelope))
                         .(generation := old(generationSerial), defaults := old(defaults))
    {
      allocator.Reset();
      ClearMidiStagesAndVoices();
      FreshIsOk(allocator.capacity, State());
    }

    method ClearMidiStagesAndVoices()
      requires Shape() && allocator.Contents() == NewPool(allocator.capacity)
      modifies sustainedReleases, pedals, lives, voices
      ensures Shape()
      ensures SlotsNow() == seq(allocator.capacity, i => EMPTY)
      ensures pedals[..] == seq(16, i => false)
    {
      forall i | 0 <= i < 16 {
        pedals[i] := false;
      }
      forall i | 0 <= i < MAX_VOICES {
        sustainedReleases[i] := false;
      }
      forall i | 0 <= i < MAX_VOICES {
        lives[i] := NO_LIFE;
      }
      forall i | 0 <= i < MAX_VOICES {
        voices[i] := SILENT;
      }
      var n := allocator.capacity;
      FreshSlots(allocator.slots[..n], sustainedReleases[..n], lives[..n], voices[..n]);
    }

    // ---- One slot -------------------------------------------------------------------------------

    lemma SlotAt(i: nat)
      requires Shape() && i < allocator.capacity
      ensures allocator.Valid() && |SlotsNow()| == allocator.capacity <= MAX_VOICES
      ensures sustainedReleases.Length == lives.Length == voices.Length == MAX_VOICES
      ensures SlotsNow()[i] == Slot(OwnerOf(allocator.slots[i]), sustainedReleases[i], lives[i], voices[i])
    {
    }

    lemma OrderIsKept()
      requires Shape()
      ensures KeepOwned(allocator.order, VoiceMachine.OwnersOf(SlotsNow())) == allocator.order
    {
      KeepOwnedAll(allocator.order, allocator.Contents().owners);
    }

    method SetFlag(i: nat, flag: bool)
      requires Shape() && i < allocator.capacity
      modifies sustainedReleases
      ensures Shape() && SlotsNow() == old(SlotsNow())[i := old(SlotsNow())[i].(sustained := flag)]
    {
      sustainedReleases[i] := flag;
      assert SlotsNow() == old(SlotsNow())[i := old(SlotsNow())[i].(sustained := flag)];
    }

    method SetLife(i: nat, life: Life)
      requires Shape() && i < allocator.capacity
      modifies lives
      ensures Shape() && SlotsNow() == old(SlotsNow())[i := old(SlotsNow())[i].(life := life)]
    {
      lives[i] := life;
      assert SlotsNow() == old(SlotsNow())[i := old(SlotsNow())[i].(life := life)];
    }

    method SetVoice(i: nat, voice: Voice)
      requires Shape() && i < allocator.capacity
      modifies voices
      ensures Shape() && SlotsNow() == old(SlotsNow())[i := old(SlotsNow())[i].(voice := voice)]
    {
      voices[i] := voice;
      assert SlotsNow() == old(SlotsNow())[i := old(SlotsNow())[i].(voice := voice)];
    }

    method SetLifeAndVoice(i: nat, life: Life, voice: Voice)
      requires Shape() && i < allocator.capacity
      modifies lives, voices
      ensures Shape()
      ensures SlotsNow() == old(SlotsNow())[i := old(SlotsNow())[i].(life := life, voice := voice)]
    {
      lives[i] := life;
      voices[i] := voice;
      assert SlotsNow() == old(SlotsNow())[i := old(SlotsNow())[i].(life := life, voice := voice)];
    }

    method ReleaseAt(i: nat, identity: Identity) returns (ok: bool)
      requires Shape() && i < allocator.capacity
      modifies allocator, allocator.slots
      ensures Shape() && allocator.capacity == old(allocator.capacity)
      ensures ok == (old(SlotsNow())[i].owner == Some(identity))
      ensures SlotsNow() ==
              if ok then old(SlotsNow())[i := old(SlotsNow())[i].(owner := None)] else old(SlotsNow())
      ensures allocator.order == KeepOwned(old(allocator.order), VoiceMachine.OwnersOf(SlotsNow()))
    {
      ghost var before := SlotsNow();
      assert VoiceMachine.OwnersOf(before) == allocator.Contents().owners;
      ok := allocator.ReleaseAt(i, identity);
      assert VoiceMachine.OwnersOf(SlotsNow()) == allocator.Contents().owners;
      assert SlotsNow() == if ok then before[i := before[i].(owner := None)] else before;
      OrderIsKept();
    }

    method RetireVoice(i: nat, identity: Identity) returns (ok: bool)
      requires Shape() && i < allocator.capacity
      modifies allocator, allocator.slots, sustainedReleases
      ensures Shape() && allocator.capacity == old(allocator.capacity)
      ensures
        var s := old(SlotsNow())[i];
        && ok == (s.owner == Some(identity))
        && SlotsNow() == old(SlotsNow())[i := s.(sustained := false, owner := if ok then None else s.owner)]
      ensures allocator.order == KeepOwned(old(allocator.order), VoiceMachine.OwnersOf(SlotsNow()))
    {
      hide SlotsNow, Wired;
      SlotAt(i);
      SetFlag(i, false);
      ok := ReleaseAt(i, identity);
    }

    /** NOTE_END leaves through the sink; the generation and cause are only remembered. */
    method Emit(what: Happening, time: nat)
      modifies this`log
      ensures log == old(log) + Stamp([what], time)
    {
      log := log + [LogEntry(time, what)];
      assert Stamp([what], time) == [LogEntry(time, what)];
    }

    lemma NothingEmitted(time: nat)
      ensures log == log + Stamp([], time)
    {
      assert log + [] == log && Stamp([], time) == [];
    }

    method CompleteRelease(i: nat, expectedGeneration: nat, time: nat) returns (ok: bool)
      requires Shape() && i < allocator.capacity
      modifies this`log, allocator, allocator.slots, sustainedReleases, lives
      ensures Shape() && allocator.capacity == old(allocator.capacity)
      ensures
        var r := CompleteLife(old(SlotsNow())[i], expectedGeneration);
        && ok == r.ok
        && SlotsNow() == old(SlotsNow())[i := r.slot]
        && log == old(log) + Stamp(r.happened, time)
      ensures allocator.order == KeepOwned(old(allocator.order), VoiceMachine.OwnersOf(SlotsNow()))
    {
      hide SlotsNow, Wired;
      SlotAt(i);
      OrderIsKept();
      NothingEmitted(time);
      if lives[i].stage != Releasing || expectedGeneration == 0
         || lives[i].generation != expectedGeneration {
        return false;
      }
      var identity := lives[i].identity;
      var retired := RetireVoice(i, identity);
      if !retired {
        return false;
      }
      ghost var owners := VoiceMachine.OwnersOf(SlotsNow());
      SetLife(i, NO_LIFE);
      assert VoiceMachine.OwnersOf(SlotsNow()) == owners;
      Emit(End(expectedGeneration, identity, Released), time);
      return true;
    }

    /** The engine's answer to a NoteOff of the lifecycle. */
    method ApplyVoiceNoteOff(i: nat, generation: nat, time: nat)
      requires Shape() && i < allocator.capacity
      modifies this`log, voices
      ensures Shape()
      ensures
        var s := old(SlotsNow())[i];
        if !s.voice.active || s.voice.generation != generation || s.voice.stage == Release
        then SlotsNow() == old(SlotsNow()) && log == old(log)
        else
          && SlotsNow() == old(SlotsNow())[i := s.(voice := BeginRelease(s.voice))]
          && log == old(log) + Stamp([Off(generation)], time)
    {
      hide SlotsNow, Wired;
      SlotAt(i);
      if !voices[i].active || voices[i].generation != generation || voices[i].stage == Release {
        return;
      }
      SetVoice(i, BeginRelease(voices[i]));
      Emit(Off(generation), time);
    }

    method ApplyNoteOff(i: nat, identity: Identity, time: nat)
      requires Shape() && i < allocator.capacity
      modifies this`log, lives, voices
      ensures Shape()
      ensures
        var r := NoteOff(old(SlotsNow())[i], identity);
        && SlotsNow() == old(SlotsNow())[i := r.slot]
        && log == old(log) + Stamp(r.happened, time)
    {
      hide SlotsNow, Wired, BeginRelease;
      SlotAt(i);
      NothingEmitted(time);
      if lives[i].stage == Inactive || lives[i].identity != identity {
        return;
      }
      var generation := lives[i].generation;
      SetLife(i, lives[i].(stage := Releasing));
      ApplyVoiceNoteOff(i, generation, time);
    }

    method ApplyNoteChoke(i: nat, identity: Identity, time: nat)
      requires Shape() && i < allocator.capacity
      modifies this`log, allocator, allocator.slots, sustainedReleases, lives, voices
      ensures Shape() && allocator.capacity == old(allocator.capacity)
      ensures
        var r := NoteChoke(old(SlotsNow())[i], identity);
        && SlotsNow() == old(SlotsNow())[i := r.slot]
        && log == old(log) + Stamp(r.happened, time)
      ensures allocator.order == KeepOwned(old(allocator.order), VoiceMachine.OwnersOf(SlotsNow()))
    {
      hide SlotsNow, Wired;
      SlotAt(i);
      OrderIsKept();
      NothingEmitted(time);
      if lives[i].stage == Inactive || lives[i].identity != identity {
        return;
      }
      var generation := lives[i].generation;
      if voices[i].active && voices[i].generation == generation {
        SetVoice(i, SILENT);
      }
      var retired := RetireVoice(i, identity);
      if !retired {
        return;
      }
      ghost var owners := VoiceMachine.OwnersOf(SlotsNow());
      SetLife(i, NO_LIFE);
      assert VoiceMachine.OwnersOf(SlotsNow()) == owners;
      Emit(End(generation, identity, Choked), time);
    }

    /** A release that runs out with the block's last frame waits for the next block. */
    method AdvanceRelease(i: nat, frame: nat, blockFrames: nat) returns (ok: bool)
      requires Shape() && i < allocator.capacity && SlotsNow()[i].voice.stage == Release
      modifies this`log, allocator, allocator.slots, sustainedReleases, lives, voices
      ensures Shape() && allocator.capacity == old(allocator.capacity)
      ensures
        var r := VoiceSlots.AdvanceEnvelope(old(SlotsNow())[i], frame + 1 >= blockFrames);
        && ok == r.ok
        && SlotsNow() == old(SlotsNow())[i := r.slot]
        && log == old(log) + Stamp(r.happened, frame + 1)
      ensures allocator.order == KeepOwned(old(allocator.order), VoiceMachine.OwnersOf(SlotsNow()))
    {
      hide SlotsNow, Wired, Flush, CompleteLife, KeepOwned, EnterDecayOrSustain;
      ghost var owners := VoiceMachine.OwnersOf(SlotsNow());
      SlotAt(i);
      OrderIsKept();
      NothingEmitted(frame + 1);
      var v := voices[i];
      ok := true;
      if v.remaining == 0 {
        ok := false;
        SetVoice(i, SILENT);
      } else {
        v := v.(remaining := v.remaining - 1);
        if v.remaining == 0 {
          var completionTime := frame + 1;
          if completionTime < blockFrames {
            SetVoice(i, v);
            assert VoiceMachine.OwnersOf(SlotsNow()) == owners;
            ok := CompleteRelease(i, v.generation, completionTime);
            owners := VoiceMachine.OwnersOf(SlotsNow());
            SetVoice(i, SILENT);
          } else {
            SetVoice(i, v.(level := 0.0, step := 0.0, deferred := true));
          }
        } else {
          SetVoice(i, v.(level := Flush(Greater(0.0, v.level - v.step))));
        }
      }
      assert VoiceMachine.OwnersOf(SlotsNow()) == owners;
    }

    method AdvanceEnvelope(i: nat, frame: nat, blockFrames: nat) returns (ok: bool)
      requires Shape() && i < allocator.capacity
      modifies this`log, allocator, allocator.slots, sustainedReleases, lives, voices
      ensures Shape() && allocator.capacity == old(allocator.capacity)
      ensures
        var r := VoiceSlots.AdvanceEnvelope(old(SlotsNow())[i], frame + 1 >= blockFrames);
        && ok == r.ok
        && SlotsNow() == old(SlotsNow())[i := r.slot]
        && log == old(log) + Stamp(r.happened, frame + 1)
      ensures allocator.order == KeepOwned(old(allocator.order), VoiceMachine.OwnersOf(SlotsNow()))
    {
      hide SlotsNow, Wired, Flush, EnterDecayOrSustain, CompleteLife;
      ghost var before := SlotsNow();
      ghost var owners := VoiceMachine.OwnersOf(before);
      SlotAt(i);
      OrderIsKept();
      NothingEmitted(frame + 1);
      var v := voices[i];
      ok := true;
      match v.stage {
        case Attack =>
          if v.remaining == 0 {
            return false;
          }
          v := v.(remaining := v.remaining - 1);
          if v.remaining == 0 {
            v := EnterDecayOrSustain(v.(level := v.peak));
          } else {
            v := v.(level := Flush(Lesser(v.peak, v.level + v.step)));
          }
          SetVoice(i, v);
        case Decay =>
          if v.remaining == 0 {
            return false;
          }
          v := v.(remaining := v.remaining - 1);
          if v.remaining == 0 {
            v := v.(level := v.sustainTarget, step := 0.0, stage := Sustain);
          } else {
            v := v.(level := Flush(Greater(v.sustainTarget, v.level - v.step)));
          }
          SetVoice(i, v);
        case Sustain =>
        case Release =>
          ok := AdvanceRelease(i, frame, blockFrames);
          owners := VoiceMachine.OwnersOf(SlotsNow());
      }
      assert VoiceMachine.OwnersOf(SlotsNow()) == owners;
    }

    // ---- One pass over the voices ----------------------------------------------------------------

    /** The pass has reached slot `n`, starting from `before`. */
    ghost predicate Swept(before: seq<Slot>, order: seq<nat>, past: seq<LogEntry>, a: Action, n: nat, time: nat)
      reads `log, allocator, allocator.slots, sustainedReleases, lives, voices
    {
      && Shape() && n <= |before| == allocator.capacity
      && SlotsNow() == SweepSlots(before, a, n)
      && allocator.order == KeepOwned(order, VoiceMachine.OwnersOf(SlotsNow()))
      && log == past + Stamp(Happened(before, a, n), time)
    }

    lemma SweepBegins(a: Action, time: nat)
      requires Shape()
      ensures Swept(SlotsNow(), allocator.order, log, a, 0, time)
    {
      OrderIsKept();
      NothingEmitted(time);
    }

    lemma SweepReaches(before: seq<Slot>, order: seq<nat>, past: seq<LogEntry>, a: Action, n: nat, time: nat)
      requires Swept(before, order, past, a, n, time) && n < |before|
      ensures Shape() && allocator.capacity == |before|
      ensures SlotsNow() == SweepSlots(before, a, n) && SlotsNow()[n] == before[n]
      ensures SlotsNow()[n] ==
              Slot(OwnerOf(allocator.slots[n]), sustainedReleases[n], lives[n], voices[n])
      ensures allocator.order == KeepOwned(order, VoiceMachine.OwnersOf(SlotsNow()))
      ensures log == past + Stamp(Happened(before, a, n), time)
      ensures log == log + Stamp([], time)
    {
      NothingEmitted(time);
    }

    lemma SweepAdvances(before: seq<Slot>, order: seq<nat>, past: seq<LogEntry>, a: Action, n: nat, time: nat,
                        orderThen: seq<nat>, logThen: seq<LogEntry>)
      requires Shape() && n < |before| == allocator.capacity
      requires
        var reached := SweepSlots(before, a, n);
        && orderThen == KeepOwned(order, VoiceMachine.OwnersOf(reached))
        && logThen == past + Stamp(Happened(before, a, n), time)
        && SlotsNow() == reached[n := StepSlot(before[n], a).slot]
      requires allocator.order == KeepOwned(orderThen, VoiceMachine.OwnersOf(SlotsNow()))
      requires log == logThen + Stamp(StepSlot(before[n], a).happened, time)
      ensures Swept(before, order, past, a, n + 1, time)
    {
      hide StepSlot;
      assert SlotsNow() == SweepSlots(before, a, n + 1);
      NothingIsAllocated(before[n], a);
      KeepOwnedTwice(order, VoiceMachine.OwnersOf(SweepSlots(before, a, n)), VoiceMachine.OwnersOf(SlotsNow()));
      StampJoins(past, Happened(before, a, n), StepSlot(before[n], a).happened, time);
    }

    lemma SweepIsDone(e: Engine, past: seq<LogEntry>, a: Action, time: nat)
      requires EngineOk(e) && Permitted(a, e.pedals)
      requires Swept(e.slots, e.order, past, a, |e.slots|, time)
      ensures Shape() && SlotsNow() == Sweep(e, a).engine.slots && allocator.order == Sweep(e, a).engine.order
      ensures log == past + Stamp(Sweep(e, a).happened, time)
      ensures SweepSucceeds(e.slots, a, |e.slots|)
    {
      hide StepSlot, EngineOk, SweepSucceeds;
    }

    lemma SweepEnds(e: Engine, past: seq<LogEntry>, a: Action, time: nat)
      requires EngineOk(e) && Permitted(a, e.pedals)
      requires Swept(e.slots, e.order, past, a, |e.slots|, time)
      requires e == State().(slots := e.slots, order := e.order)
      ensures Valid() && State() == Sweep(e, a).engine
      ensures log == past + Stamp(Sweep(e, a).happened, time)
      ensures SweepSucceeds(e.slots, a, |e.slots|)
    {
      hide SlotsNow, EngineOk, Permitted, Swept, Sweep, SweepSucceeds;
      SweepIsDone(e, past, a, time);
    }

    method DispatchIfMatching(i: nat, pattern: Identity, choke: bool, time: nat)
      requires Shape() && i < allocator.capacity
      modifies this`log, allocator, allocator.slots, sustainedReleases, lives, voices
      ensures Shape() && allocator.capacity == old(allocator.capacity)
      ensures
        var r := StepSlot(old(SlotsNow())[i], if choke then ChokeMatching(pattern) else OffMatching(pattern));
        && SlotsNow() == old(SlotsNow())[i := r.slot]
        && log == old(log) + Stamp(r.happened, time)
      ensures allocator.order == KeepOwned(old(allocator.order), VoiceMachine.OwnersOf(SlotsNow()))
    {
      hide SlotsNow, Wired, NoteOff, NoteChoke, KeepOwned, RenderSlot, VoiceSlots.CompleteRelease;
      SlotAt(i);
      NothingEmitted(time);
      ghost var owners := VoiceMachine.OwnersOf(SlotsNow());
      OrderIsKept();
      var identity := allocator.VoiceIdentity(i);
      assert identity == SlotsNow()[i].owner;
      if identity.Some? && Matches(pattern, identity.value) {
        SetFlag(i, false);
        assert VoiceMachine.OwnersOf(SlotsNow()) == owners;
        if choke {
          ApplyNoteChoke(i, identity.value, time);
        } else {
          ApplyNoteOff(i, identity.value, time);
          OrderIsKept();
        }
      }
    }

    method DispatchMatching(pattern: Identity, choke: bool, time: nat)
      requires Valid()
      modifies this`log, allocator, allocator.slots, sustainedReleases, lives, voices
      ensures Valid()
      ensures
        var r := Sweep(old(State()), if choke then ChokeMatching(pattern) else OffMatching(pattern));
        State() == r.engine && log == old(log) + Stamp(r.happened, time)
    {
      hide SlotsNow, EngineOk, Swept, SweepSlots, StepSlot, Sweep, KeepOwned;
      ghost var e := State();
      ghost var a := if choke then ChokeMatching(pattern) else OffMatching(pattern);
      SweepBegins(a, time);
      var i := 0;
      while i < allocator.capacity
        invariant 0 <= i <= allocator.capacity == |e.slots|
        invariant Swept(e.slots, e.order, old(log), a, i, time)
      {
        ghost var orderThen, logThen := allocator.order, log;
        SweepReaches(e.slots, e.order, old(log), a, i, time);
        DispatchIfMatching(i, pattern, choke, time);
        SweepAdvances(e.slots, e.order, old(log), a, i, time, orderThen, logThen);
        i := i + 1;
      }
      SweepEnds(e, old(log), a, time);
    }

    method DeferIfMatching(i: nat, pattern: Identity, time: nat)
      requires Shape() && i < allocator.capacity
      modifies sustainedReleases
      ensures Shape()
      ensures
        var r := StepSlot(old(SlotsNow())[i], VoiceSlots.DeferMatching(pattern));
        SlotsNow() == old(SlotsNow())[i := r.slot] && log == log + Stamp(r.happened, time)
      ensures allocator.order == KeepOwned(allocator.order, VoiceMachine.OwnersOf(SlotsNow()))
    {
      hide SlotsNow, Wired;
      SlotAt(i);
      NothingEmitted(time);
      var identity := allocator.VoiceIdentity(i);
      assert identity == SlotsNow()[i].owner;
      if identity.Some? && Matches(pattern, identity.value) {
        SetFlag(i, true);
      }
      OrderIsKept();
    }

    method DeferMatching(pattern: Identity, time: nat)
      requires Valid() && Permitted(VoiceSlots.DeferMatching(pattern), State().pedals)
      modifies sustainedReleases
      ensures Valid()
      ensures
        var r := Sweep(old(State()), VoiceSlots.DeferMatching(pattern));
        State() == r.engine && log == old(log) + Stamp(r.happened, time)
    {
      hide SlotsNow, EngineOk, Swept, SweepSlots, Sweep, StepSlot;
      ghost var e := State();
      ghost var a := VoiceSlots.DeferMatching(pattern);
      SweepBegins(a, time);
      var i := 0;
      while i < allocator.capacity
        invariant 0 <= i <= allocator.capacity == |e.slots|
        invariant Swept(e.slots, e.order, old(log), a, i, time)
      {
        ghost var orderThen, logThen := allocator.order, log;
        SweepReaches(e.slots, e.order, old(log), a, i, time);
        DeferIfMatching(i, pattern, time);
        SweepAdvances(e.slots, e.order, old(log), a, i, time, orderThen, logThen);
        i := i + 1;
      }
      SweepEnds(e, old(log), a, time);
    }

    method ReleaseIfSustained(i: nat, channel: int, time: nat)
      requires Shape() && i < allocator.capacity
      modifies this`log, sustainedReleases, lives, voices
      ensures Shape()
      ensures
        var r := StepSlot(old(SlotsNow())[i], PedalUp(channel));
        SlotsNow() == old(SlotsNow())[i := r.slot] && log == old(log) + Stamp(r.happened, time)
      ensures allocator.order == KeepOwned(allocator.order, VoiceMachine.OwnersOf(SlotsNow()))
    {
      hide SlotsNow, Wired, NoteOff;
      SlotAt(i);
      NothingEmitted(time);
      if sustainedReleases[i] {
        var identity := allocator.VoiceIdentity(i);
        assert identity == SlotsNow()[i].owner;
        if identity.None? {
          SetFlag(i, false);
        } else if identity.value.port == 0 && identity.value.channel == channel {
          SetFlag(i, false);
          ApplyNoteOff(i, identity.value, time);
        }
      }
      OrderIsKept();
    }

    /** The caller has already taken the pedal up, so the layers need not agree on it here. */
    method ReleaseSustained(channel: int, time: nat)
      requires Shape()
      modifies this`log, sustainedReleases, lives, voices
      ensures Swept(old(SlotsNow()), old(allocator.order), old(log), PedalUp(channel), allocator.capacity, time)
    {
      hide SlotsNow, Swept, SweepSlots, StepSlot;
      ghost var before, order := SlotsNow(), allocator.order;
      ghost var a := PedalUp(channel);
      SweepBegins(a, time);
      var i := 0;
      while i < allocator.capacity
        invariant 0 <= i <= allocator.capacity == |before|
        invariant Swept(before, order, old(log), a, i, time)
      {
        ghost var logThen := log;
        SweepReaches(before, order, old(log), a, i, time);
        ReleaseIfSustained(i, channel, time);
        SweepAdvances(before, order, old(log), a, i, time, allocator.order, logThen);
        i := i + 1;
      }
    }

    method UpdateIfActive(i: nat, event: CoreEvent, time: nat)
      requires Shape() && i < allocator.capacity
      modifies voices
      ensures Shape()
      ensures
        var r := StepSlot(old(SlotsNow())[i], Update(event));
        SlotsNow() == old(SlotsNow())[i := r.slot] && log == log + Stamp(r.happened, time)
      ensures allocator.order == KeepOwned(allocator.order, VoiceMachine.OwnersOf(SlotsNow()))
    {
      hide SlotsNow, Wired, KeepOwned, RenderSlot, NoteOff, NoteChoke, VoiceSlots.CompleteRelease;
      SlotAt(i);
      NothingEmitted(time);
      if voices[i].active {
        SetVoice(i, voices[i].(dsp := Updated(voices[i].dsp, event)));
      }
      OrderIsKept();
    }

    /** A core event reaches every sounding voice and the defaults of later ones. */
    method UpdateCore(event: CoreEvent, time: nat)
      requires Valid()
      modifies this`defaults, voices
      ensures Valid()
      ensures
        var r := VoiceMachine.UpdateCore(old(State()), event);
        State() == r.engine && log == old(log) + Stamp(r.happened, time)
    {
      hide SlotsNow, EngineOk, Swept, SweepSlots, Sweep, StepSlot;
      ghost var e := State();
      ghost var a := Update(event);
      SweepBegins(a, time);
      var i := 0;
      while i < allocator.capacity
        invariant 0 <= i <= allocator.capacity == |e.slots|
        invariant Swept(e.slots, e.order, old(log), a, i, time)
        invariant defaults == e.defaults
      {
        ghost var logThen := log;
        SweepReaches(e.slots, e.order, old(log), a, i, time);
        UpdateIfActive(i, event, time);
        SweepAdvances(e.slots, e.order, old(log), a, i, time, allocator.order, logThen);
        i := i + 1;
      }
      SweepEnds(e, old(log), a, time);
      assert VoiceMachine.UpdateCore(e, event).engine == State().(defaults := defaults + [event]);
      defaults := defaults + [event];
    }

    method CompleteIfDeferred(i: nat) returns (ok: bool)
      requires Shape() && i < allocator.capacity
      modifies this`log, allocator, allocator.slots, sustainedReleases, lives, voices
      ensures Shape() && allocator.capacity == old(allocator.capacity)
      ensures
        var r := StepSlot(old(SlotsNow())[i], CompleteDeferred);
        && ok == r.ok && SlotsNow() == old(SlotsNow())[i := r.slot]
        && log == old(log) + Stamp(r.happened, 0)
      ensures allocator.order == KeepOwned(old(allocator.order), VoiceMachine.OwnersOf(SlotsNow()))
    {
      hide SlotsNow, Wired, CompleteLife;
      SlotAt(i);
      NothingEmitted(0);
      OrderIsKept();
      ok := true;
      if voices[i].active && voices[i].deferred {
        ok := CompleteRelease(i, voices[i].generation, 0);
        ghost var owners := VoiceMachine.OwnersOf(SlotsNow());
        SetVoice(i, SILENT);
        assert VoiceMachine.OwnersOf(SlotsNow()) == owners;
      }
    }

    /** Releases that ended with the previous block are completed at offset 0 of this one. */
    method CompleteDeferredReleases() returns (ok: bool)
      requires Valid()
      modifies this`log, allocator, allocator.slots, sustainedReleases, lives, voices
      ensures Valid()
      ensures
        var r := VoiceMachine.CompleteDeferredReleases(old(State()));
        ok == r.ok && State() == r.engine && log == old(log) + r.log
    {
      hide SlotsNow, EngineOk, Swept, SweepSlots, StepSlot, Sweep, KeepOwned;
      ghost var e := State();
      ghost var a := CompleteDeferred;
      SweepBegins(a, 0);
      ok := true;
      var i := 0;
      while i < allocator.capacity
        invariant 0 <= i <= allocator.capacity == |e.slots|
        invariant Swept(e.slots, e.order, old(log), a, i, 0)
        invariant ok == SweepSucceeds(e.slots, a, i)
      {
        ghost var orderThen, logThen := allocator.order, log;
        SweepReaches(e.slots, e.order, old(log), a, i, 0);
        var completed := CompleteIfDeferred(i);
        if !completed {
          ok := false;
        }
        SweepAdvances(e.slots, e.order, old(log), a, i, 0, orderThen, logThen);
        i := i + 1;
      }
      SweepEnds(e, old(log), a, 0);
    }

    // ---- Rendering ---------------------------------------------------------------------------------

    /** The voice's share of the mix, if it sounds. */
    method RenderVoice(i: nat, frame: nat, blockFrames: nat) returns (share: Frame, ok: bool)
      requires Shape() && i < allocator.capacity
      modifies this`log, allocator, allocator.slots, sustainedReleases, lives, voices
      ensures Shape() && allocator.capacity == old(allocator.capacity)
      ensures
        var r := StepSlot(old(SlotsNow())[i], Render(frame + 1 >= blockFrames));
        && ok == r.ok && SlotsNow() == old(SlotsNow())[i := r.slot]
        && log == old(log) + Stamp(r.happened, frame + 1)
      ensures allocator.order == KeepOwned(old(allocator.order), VoiceMachine.OwnersOf(SlotsNow()))
      ensures
        var v := old(SlotsNow())[i].voice;
        share == if v.active && !v.deferred then [Contribution(i, v.dsp, v.level)] else []
    {
      hide SlotsNow, Wired, VoiceSlots.AdvanceEnvelope;
      SlotAt(i);
      NothingEmitted(frame + 1);
      ghost var owners := VoiceMachine.OwnersOf(SlotsNow());
      OrderIsKept();
      share, ok := [], true;
      var v := voices[i];
      if v.active && !v.deferred {
        share := [Contribution(i, v.dsp, v.level)];
        SetVoice(i, v.(dsp := Rendered(v.dsp, v.level)));
        assert VoiceMachine.OwnersOf(SlotsNow()) == owners;
        ok := AdvanceEnvelope(i, frame, blockFrames);
      }
    }

    /** One frame: every sounding voice is mixed and its envelope moves on. */
    method RenderFrame(frame: nat, blockFrames: nat) returns (mix: Frame, ok: bool)
      requires Valid()
      modifies this`log, allocator, allocator.slots, sustainedReleases, lives, voices
      ensures Valid()
      ensures
        var r := VoiceMachine.RenderFrame(old(State()), frame, blockFrames);
        ok == r.ok && State() == r.engine && log == old(log) + r.log && [mix] == r.frames
    {
      hide SlotsNow, EngineOk, Swept, SweepSlots, StepSlot, Sweep, KeepOwned;
      ghost var e := State();
      ghost var a := Render(frame + 1 >= blockFrames);
      SweepBegins(a, frame + 1);
      mix, ok := [], true;
      var i := 0;
      while i < allocator.capacity
        invariant 0 <= i <= allocator.capacity == |e.slots|
        invariant Swept(e.slots, e.order, old(log), a, i, frame + 1)
        invariant ok == SweepSucceeds(e.slots, a, i)
        invariant mix == Mix(e.slots, i)
      {
        ghost var orderThen, logThen := allocator.order, log;
        SweepReaches(e.slots, e.order, old(log), a, i, frame + 1);
        var share, advanced := RenderVoice(i, frame, blockFrames);
        mix := mix + share;
        if !advanced {
          ok := false;
        }
        SweepAdvances(e.slots, e.order, old(log), a, i, frame + 1, orderThen, logThen);
        i := i + 1;
      }
      SweepEnds(e, old(log), a, frame + 1);
    }

    method RenderRange(begin: nat, end: nat, blockFrames: nat, output: array<Frame>) returns (ok: bool)
      requires Valid() && blockFrames <= output.Length
      modifies this`log, allocator, allocator.slots, sustainedReleases, lives, voices, output
      ensures Valid()
      ensures ok <==> begin <= end <= blockFrames
      ensures !ok ==> State() == old(State()) && log == old(log) && output[..] == old(output[..])
      ensures ok ==>
                var r := VoiceMachine.RenderRange(old(State()), begin, end, blockFrames);
                && State() == r.engine && log == old(log) + r.log
                && output[..] == old(output[..begin]) + r.frames + old(output[end..])
    {
      hide SlotsNow, EngineOk, State, VoiceMachine.RenderFrame, VoiceMachine.RenderRange;
      if end < begin || end > blockFrames {
        return false;
      }
      ghost var e := State();
      ghost var past := Run(e, [], [], true);
      NoFrames(e, begin, blockFrames);
      ok := true;
      var frame := begin;
      while frame < end
        invariant begin <= frame <= end && Valid() && ok
        invariant past == VoiceMachine.RenderRange(e, begin, frame, blockFrames)
        invariant State() == past.engine && log == old(log) + past.log && |past.frames| == frame - begin
        invariant forall k :: begin <= k < frame ==> output[k] == past.frames[k - begin]
        invariant forall k :: 0 <= k < begin || frame <= k < output.Length ==> output[k] == old(output[k])
      {
        RangeSplits(e, begin, frame, frame + 1, blockFrames);
        OneFrame(past.engine, frame, blockFrames);
        ghost var next := VoiceMachine.RenderFrame(past.engine, frame, blockFrames);
        var mix, rendered := RenderFrame(frame, blockFrames);
        if !rendered {
          ok := false;
        }
        output[frame] := mix;
        frame := frame + 1;
        past := Then(past, next);
      }
    }

    // ---- Events ------------------------------------------------------------------------------------

    method Allocate(identity: Identity) returns (result: Allocation)
      requires Shape()
      modifies allocator, allocator.slots
      ensures Shape() && allocator.capacity == old(allocator.capacity)
      ensures
        var (pool, allocation) :=
          VoicePool.Allocate(Pool(VoiceMachine.OwnersOf(old(SlotsNow())), old(allocator.order)), identity);
        && result == allocation && result.Allocated?
        && result.index < allocator.capacity == |SlotsNow()|
        && allocator.order == pool.order
        && SlotsNow() == old(SlotsNow())[result.index := old(SlotsNow())[result.index].(owner := Some(identity))]
    {
      ghost var before := SlotsNow();
      assert VoiceMachine.OwnersOf(before) == allocator.Contents().owners;
      result := allocator.AllocateDetailed(identity);
      assert VoiceMachine.OwnersOf(SlotsNow()) == allocator.Contents().owners;
      assert SlotsNow() == before[result.index := before[result.index].(owner := Some(identity))];
    }

    /** A slot changes hands; no release is held back there any more. */
    method TakeSlot(identity: Identity) returns (result: Allocation)
      requires Shape()
      modifies allocator, allocator.slots, sustainedReleases
      ensures Shape() && allocator.capacity == old(allocator.capacity)
      ensures
        var (pool, allocation) :=
          VoicePool.Allocate(Pool(VoiceMachine.OwnersOf(old(SlotsNow())), old(allocator.order)), identity);
        && result == allocation && result.Allocated?
        && result.index < allocator.capacity == |SlotsNow()|
        && allocator.order == pool.order
        && (var owned := old(SlotsNow())[result.index := old(SlotsNow())[result.index].(owner := Some(identity))];
            SlotsNow() == owned[result.index := owned[result.index].(sustained := false)])
    {
      hide SlotsNow, VoicePool.Allocate;
      result := Allocate(identity);
      SetFlag(result.index, false);
    }

    /** The lifecycle opens a new generation, after ending the voice that was stolen, and the engine
        starts its voice. */
    method ApplyNoteOn(i: nat, identity: Identity, velocity: real, replaced: Option<Identity>, time: nat)
      requires Shape() && i < allocator.capacity && EnvelopeOk(envelope) && 0.0 <= velocity
      modifies this`log, this`generationSerial, lives, voices
      ensures Shape() && generationSerial == old(generationSerial) + 1
      ensures
        var s := old(SlotsNow())[i];
        && SlotsNow() == old(SlotsNow())[i :=
             s.(life := Life(identity, generationSerial, Held),
                voice := StartVoice(envelope, defaults, identity, generationSerial, velocity))]
        && log == old(log) + Stamp(
             (if replaced.Some? then [End(s.life.generation, replaced.value, Stolen)] else [])
             + [On(generationSerial, identity, envelope.release)], time)
    {
      hide SlotsNow, StartVoice;
      SlotAt(i);
      NothingEmitted(time);
      ghost var ended: seq<Happening> := [];
      if replaced.Some? {
        ended := [End(lives[i].generation, replaced.value, Stolen)];
        Emit(End(lives[i].generation, replaced.value, Stolen), time);
      }
      generationSerial := generationSerial + 1;
      SetLifeAndVoice(i, Life(identity, generationSerial, Held),
                      StartVoice(envelope, defaults, identity, generationSerial, velocity));
      Emit(On(generationSerial, identity, envelope.release), time);
      StampJoins(old(log), ended, [On(generationSerial, identity, envelope.release)], time);
    }

    /** Scheduler, lifecycle and engine each take their part of the NOTE_ON. */
    method StartNote(identity: Identity, velocity: real, time: nat)
      requires Valid() && ValidIdentity(identity) && 0.0 <= velocity <= 1.0
      modifies this`log, this`generationSerial
      modifies allocator, allocator.slots, sustainedReleases, lives, voices
      ensures Valid()
      ensures
        var r := VoiceMachine.DispatchNoteOn(old(State()), identity, velocity);
        State() == r.engine && log == old(log) + Stamp(r.happened, time)
    {
      PoolIsOk(State());
      hide SlotsNow, EngineOk, PoolOk, StartVoice, VoicePool.Allocate, VoiceMachine.DispatchNoteOn, Stamp,
        ValidIdentity;
      ghost var e := State();
      var allocation := TakeSlot(identity);
      ApplyNoteOn(allocation.index, identity, velocity, allocation.replaced, time);
      NoteOnEffect(e, identity, velocity, State(), log, old(log), time);
    }

    method DispatchNoteOn(identity: Identity, velocity: Option<real>, told: bool, time: nat) returns (ok: bool)
      requires Valid()
      modifies this`log, this`generationSerial
      modifies allocator, allocator.slots, sustainedReleases, lives, voices
      ensures Valid()
      ensures
        var r := Dispatch(old(State()), NoteOnEvent(identity, velocity, told));
        ok == r.ok && State() == r.engine && log == old(log) + Stamp(r.happened, time)
    {
      hide SlotsNow, EngineOk, VoiceMachine.DispatchNoteOn;
      NothingEmitted(time);
      if !ValidNoteOn(identity, velocity) {
        return true;
      }
      StartNote(identity, velocity.value, time);
      return told;
    }

    method LiftPedal(channel: nat, time: nat)
      requires Valid() && channel < 16
      modifies this`log, sustainedReleases, pedals, lives, voices
      ensures Valid()
      ensures
        var r := VoiceMachine.LiftPedal(old(State()), channel);
        State() == r.engine && log == old(log) + Stamp(r.happened, time)
    {
      hide SlotsNow, EngineOk, Swept, Sweep;
      ghost var e := State();
      SlotAt(0);
      pedals[channel] := false;
      ReleaseSustained(channel, time);
      SweepIsDone(e, old(log), PedalUp(channel), time);
      assert State() == VoiceMachine.LiftPedal(e, channel).engine;
    }

    method OfferToSink(message: CoreEvent, accepted: bool, time: nat) returns (ok: bool)
      requires Valid()
      modifies this`defaults, voices
      ensures Valid()
      ensures
        var r := VoiceMachine.OfferToSink(old(State()), message, accepted);
        ok == r.ok && State() == r.engine && log == old(log) + Stamp(r.happened, time)
    {
      hide SlotsNow, EngineOk, VoiceMachine.UpdateCore;
      UpdateCore(message, time);
      return accepted;
    }

    method ProcessMidiController(channel: nat, message: CoreEvent, controller: int, value: int, accepted: bool,
                                 time: nat)
      returns (ok: bool)
      requires Valid() && channel < 16
      modifies this`log, this`defaults, allocator, allocator.slots
      modifies sustainedReleases, pedals, lives, voices
      ensures Valid()
      ensures
        var r := DispatchController(old(State()), channel, message, controller, value, accepted);
        ok == r.ok && State() == r.engine && log == old(log) + Stamp(r.happened, time)
    {
      hide SlotsNow, EngineOk, Sweep, VoiceMachine.LiftPedal, VoiceMachine.UpdateCore, VoiceMachine.OfferToSink;
      ghost var e := State();
      NothingEmitted(time);
      ok := true;
      if controller == 64 {
        var releasePending := pedals[channel] && value < 64;
        if releasePending {
          LiftPedal(channel, time);
        } else {
          pedals[channel] := 64 <= value;
          assert State() == SetPedal(e, channel, 64 <= value).engine;
        }
      } else if controller == 100 || controller == 101 {
        UpdateCore(message, time);
      } else if controller == 120 {
        DispatchMatching(NoteFor(channel, -1), true, time);
      } else if controller == 121 {
        if pedals[channel] {
          LiftPedal(channel, time);
          ghost var lifted := VoiceMachine.LiftPedal(e, channel);
          ok := OfferToSink(message, accepted, time);
          ghost var offered := VoiceMachine.OfferToSink(lifted.engine, message, accepted);
          StampJoins(old(log), lifted.happened, offered.happened, time);
        } else {
          ok := OfferToSink(message, accepted, time);
        }
      } else if 123 <= controller <= 127 {
        if pedals[channel] {
          DeferMatching(NoteFor(channel, -1), time);
        } else {
          DispatchMatching(NoteFor(channel, -1), false, time);
        }
      } else {
        ok := OfferToSink(message, accepted, time);
      }
    }

    method ProcessMidiEvent(port: int, status: Byte, data1: Byte, data2: Byte, answers: Answers, time: nat)
      returns (ok: bool)
      requires Valid()
      modifies this`log, this`defaults, this`generationSerial, allocator, allocator.slots
      modifies sustainedReleases, pedals, lives, voices
      ensures Valid()
      ensures
        var r := DispatchMidi(old(State()), port, status, data1, data2, answers);
        ok == r.ok && State() == r.engine && log == old(log) + Stamp(r.happened, time)
    {
      hide SlotsNow, EngineOk, Sweep, VoiceMachine.OfferToSink, DispatchController, VoiceMachine.DispatchNoteOn;
      ghost var e := State();
      ok := true;
      var channel := status % 16;
      var family := status - channel;
      var message := MessageOf(port, status, data1, data2, answers);
      var accepted := AllTaken(port, status, data1, data2, answers);
      if 0x80 <= family <= 0xe0 && port != 0 {
        ok := OfferToSink(message, accepted, time);
      } else if (family == 0x80 || family == 0x90) && data1 <= 127 && data2 <= 127 {
        if family == 0x90 && data2 != 0 {
          ok := OfferToSink(message, accepted, time);
          if !ok {
            return false;
          }
          ghost var replayed := VoiceMachine.OfferToSink(e, message, accepted);
          var velocity := data2 as real / 127.0;
          assert 0.0 <= velocity <= 1.0;
          ok := DispatchNoteOn(NoteFor(channel, data1), Some(velocity), answers.told, time);
          StampJoins(old(log), replayed.happened,
                     VoiceMachine.DispatchNoteOn(replayed.engine, NoteFor(channel, data1), velocity).happened, time);
        } else if pedals[channel] {
          DeferMatching(NoteFor(channel, data1), time);
        } else {
          DispatchMatching(NoteFor(channel, data1), false, time);
        }
      } else if family == 0xb0 && data1 <= 127 && data2 <= 127 {
        ok := ProcessMidiController(channel, message, data1, data2, accepted, time);
      } else {
        ok := OfferToSink(message, accepted, time);
      }
    }

    method DispatchEvent(body: Body, time: nat) returns (ok: bool)
      requires Valid()
      modifies this`log, this`defaults, this`generationSerial, this`envelope, allocator, allocator.slots
      modifies sustainedReleases, pedals, lives, voices
      ensures Valid()
      ensures
        var r := Dispatch(old(State()), body);
        ok == r.ok && State() == r.engine && log == old(log) + Stamp(r.happened, time)
    {
      hide SlotsNow, EngineOk, Sweep, VoiceMachine.UpdateCore, DispatchMidi, VoiceMachine.DispatchNoteOn;
      NothingEmitted(time);
      ok := true;
      match body {
        case NoHeader =>
          return false;
        case Malformed =>
          return false;
        case Foreign =>
        case NoteOnEvent(address, velocity, told) =>
          ok := DispatchNoteOn(address, velocity, told, time);
        case NoteOffEvent(address) =>
          if ValidWildcard(address) {
            DispatchMatching(address, false, time);
          }
        case NoteChokeEvent(address) =>
          if ValidWildcard(address) {
            DispatchMatching(address, true, time);
          }
        case Midi(port, status, data1, data2, answers) =>
          ok := ProcessMidiEvent(port, status, data1, data2, answers, time);
        case Core(event, accepted) =>
          if !accepted || (event.SetAmpEnvelope? && !EnvelopeOk(event.envelope)) {
            return false;
          }
          UpdateCore(event, time);
          if event.SetAmpEnvelope? {
            envelope := event.envelope;
            assert State() == Dispatch(old(State()), body).engine;
          }
      }
    }

    // ---- Blocks ------------------------------------------------------------------------------------

    /** `past` has been carried out since `before`, and its frames fill the output from the start. */
    ghost predicate Carried(past: Run, before: seq<LogEntry>, output: array<Frame>)
      reads `generationSerial, `envelope, `defaults, `log, output
      reads allocator, allocator.slots, sustainedReleases, pedals, lives, voices
    {
      && Valid() && State() == past.engine && log == before + past.log
      && |past.frames| <= output.Length && output[..|past.frames|] == past.frames
    }

    lemma StillCarried(past: Run, before: seq<LogEntry>, output: array<Frame>)
      requires Carried(past, before, output)
      ensures Carried(past.(ok := false), before, output)
    {
    }

    /** Renders up to an event: what the boundary callback of the event loop does. */
    method RenderUpTo(cursor: nat, time: nat, frames: nat, output: array<Frame>,
                      ghost past: Run, ghost before: seq<LogEntry>) returns (ok: bool)
      requires Carried(past, before, output) && |past.frames| == cursor <= time <= frames <= output.Length
      modifies this`log, allocator, allocator.slots, sustainedReleases, lives, voices, output
      ensures ok
      ensures Carried(Then(past, VoiceMachine.RenderRange(past.engine, cursor, time, frames)), before, output)
      ensures |VoiceMachine.RenderRange(past.engine, cursor, time, frames).frames| == time - cursor
      ensures forall k :: time <= k < output.Length ==> output[k] == old(output[k])
    {
      hide EngineOk, State, SlotsNow, VoiceMachine.RenderRange;
      ok := RenderRange(cursor, time, frames, output);
      ghost var r := VoiceMachine.RenderRange(past.engine, cursor, time, frames);
      OutputParts(old(output[..]), output[..], past.frames, r.frames, cursor, time);
      assert output[..][..time] == output[..time];
      forall k | time <= k < output.Length ensures output[k] == old(output[k]) {
        assert output[..][k] == old(output[..])[k];
      }
      assert (before + past.log) + r.log == before + (past.log + r.log);
    }

    method DispatchNow(event: Event, output: array<Frame>, ghost past: Run, ghost before: seq<LogEntry>)
      returns (ok: bool)
      requires Carried(past, before, output)
      modifies this`log, this`defaults, this`generationSerial, this`envelope, allocator, allocator.slots
      modifies sustainedReleases, pedals, lives, voices
      ensures Carried(Then(past, DispatchAt(past.engine, event)), before, output)
      ensures ok == DispatchAt(past.engine, event).ok
    {
      hide EngineOk, State, SlotsNow, Dispatch;
      ok := DispatchEvent(event.body, event.time);
      ghost var r := DispatchAt(past.engine, event);
      assert past.frames + r.frames == past.frames;
      assert (before + past.log) + r.log == before + (past.log + r.log);
    }

    /** The event loop, and the frames behind the last event. */
    method ProcessEvents(events: seq<Event>, frames: nat, output: array<Frame>,
                         ghost begun: Run, ghost before: seq<LogEntry>) returns (ok: bool)
      requires EngineOk(begun.engine) && begun.ok && begun.frames == []
      requires Carried(begun, before, output) && frames <= output.Length
      modifies this`log, this`defaults, this`generationSerial, this`envelope, allocator, allocator.slots
      modifies sustainedReleases, pedals, lives, voices, output
      ensures
        var r := Then(begun, ProcessFrom(begun.engine, 0, events, frames));
        && ok == r.ok && Carried(r, before, output)
        && |r.frames| <= frames
        && forall k :: |r.frames| <= k < output.Length ==> output[k] == old(output[k])
    {
      hide EngineOk, State, SlotsNow, Carried, ProcessFrom, VoiceMachine.RenderRange, DispatchAt;
      ghost var past := begun;
      ghost var whole := Then(begun, ProcessFrom(begun.engine, 0, events, frames));
      var cursor, renderOk := 0, true;
      var previousTime: Option<nat>, boundaryTime: Option<nat> := None, None;
      var index := 0;
      while index < |events|
        invariant 0 <= index <= |events| && renderOk
        invariant cursor == |past.frames| <= frames && past.ok
        invariant EngineOk(past.engine) && Carried(past, before, output)
        invariant previousTime == boundaryTime == if index == 0 then None else Some(cursor)
        invariant index == 0 ==> cursor == 0
        invariant whole == Then(past, ProcessFrom(past.engine, cursor, events[index..], frames))
        invariant forall k :: cursor <= k < output.Length ==> output[k] == old(output[k])
      {
        var event := events[index];
        NextEvent(past, cursor, events, index, frames);
        StillCarried(past, before, output);
        if event.body.NoHeader? {
          return false;
        }
        if event.time >= frames || (previousTime.Some? && event.time < previousTime.value) {
          return false;
        }
        previousTime := Some(event.time);
        ghost var segment := VoiceMachine.RenderRange(past.engine, cursor, event.time, frames);
        NoFrames(past.engine, cursor, frames);
        NothingLast(past);
        if boundaryTime != Some(event.time) {
          var rendered := RenderUpTo(cursor, event.time, frames, output, past, before);
          renderOk := renderOk && rendered;
          cursor := event.time;
          boundaryTime := Some(event.time);
        }
        past := Then(past, segment);
        ok := DispatchNow(event, output, past, before);
        past := Then(past, DispatchAt(past.engine, event));
        if !ok {
          return false;
        }
        index := index + 1;
      }
      if !renderOk {
        return false;
      }
      LastSegment(past, cursor, events[index..], frames);
      ok := RenderUpTo(cursor, frames, frames, output, past, before);
    }

    method ProcessWithEvents(events: seq<Event>, frames: nat, output: array<Frame>) returns (ok: bool)
      requires Valid() && frames <= output.Length
      modifies this`log, this`defaults, this`generationSerial, this`envelope, allocator, allocator.slots
      modifies sustainedReleases, pedals, lives, voices, output
      ensures Valid()
      ensures
        var r := Process(old(State()), frames, events);
        && ok == r.ok && State() == r.engine && log == old(log) + r.log
        && |r.frames| <= frames && output[..|r.frames|] == r.frames
        && forall k :: |r.frames| <= k < output.Length ==>
             output[k] == if k < frames then [] else old(output[k])
    {
      hide EngineOk, State, SlotsNow, ProcessFrom;
      if frames == 0 {
        return false;
      }
      forall k | 0 <= k < frames {
        output[k] := [];
      }
      ghost var blank := output[..];
      ghost var begun := VoiceMachine.CompleteDeferredReleases(State());
      var completed := CompleteDeferredReleases();
      if !completed {
        return false;
      }
      ok := ProcessEvents(events, frames, output, begun, old(log));
    }

    /** The longest release any sounding voice still owes. */
    method MaximumActiveReleaseSamples() returns (maximum: nat)
      requires Valid()
      ensures maximum == MaximumRelease(State().slots, |State().slots|)
    {
      maximum := 0;
      var i := 0;
      while i < allocator.capacity
        invariant 0 <= i <= allocator.capacity == |SlotsNow()|
        invariant maximum == MaximumRelease(SlotsNow(), i)
      {
        SlotAt(i);
        if voices[i].active && maximum < voices[i].release {
          maximum := voices[i].release;
        }
        i := i + 1;
      }
    }
  }

  lemma OutputParts(was: seq<Frame>, now: seq<Frame>, past: seq<Frame>, more: seq<Frame>, cursor: nat, time: nat)
    requires cursor <= time <= |was| && was[..cursor] == past && |more| == time - cursor
    requires now == was[..cursor] + more + was[time..]
    ensures |now| == |was| && now[..time] == past + more
    ensures forall k :: time <= k < |now| ==> now[k] == was[k]
  {
  }

  lemma NoFrames(e: Engine, begin: nat, block: nat)
    requires EngineOk(e)
    ensures VoiceMachine.RenderRange(e, begin, begin, block) == Run(e, [], [], true)
  {
  }

  lemma NothingLast(r: Run)
    ensures Then(r, Run(r.engine, [], [], true)) == r
  {
    assert r.frames + [] == r.frames && r.log + [] == r.log;
  }

  lemma LastSegment(past: Run, cursor: nat, none: seq<Event>, frames: nat)
    requires EngineOk(past.engine) && cursor <= frames && none == []
    ensures ProcessFrom(past.engine, cursor, none, frames)
         == VoiceMachine.RenderRange(past.engine, cursor, frames, frames)
  {
  }

  /** One turn of the event loop, seen from the runs. */
  lemma NextEvent(past: Run, cursor: nat, events: seq<Event>, index: nat, frames: nat)
    requires EngineOk(past.engine) && past.ok && cursor <= frames && index < |events|
    ensures
      var event := events[index];
      var whole := Then(past, ProcessFrom(past.engine, cursor, events[index..], frames));
      if event.body.NoHeader? || event.time >= frames || event.time < cursor
      then whole == past.(ok := false)
      else
        var rendered := Then(past, VoiceMachine.RenderRange(past.engine, cursor, event.time, frames));
        var dispatched := Then(rendered, DispatchAt(rendered.engine, event));
        && dispatched.ok == DispatchAt(rendered.engine, event).ok
        && dispatched.frames == rendered.frames
        && whole == if !dispatched.ok then dispatched
                    else Then(dispatched, ProcessFrom(dispatched.engine, event.time, events[index + 1..], frames))
  {
    hide EngineOk, VoiceMachine.RenderRange, Dispatch;
    var event := events[index];
    assert events[index..][0] == event && events[index..][1..] == events[index + 1..];
    if event.body.NoHeader? || event.time >= frames || event.time < cursor {
      assert past.frames + [] == past.frames && past.log + [] == past.log;
    } else {
      var segment := VoiceMachine.RenderRange(past.engine, cursor, event.time, frames);
      var dispatch := DispatchAt(segment.engine, event);
      ThenAssociates(past, segment, dispatch);
      if dispatch.ok {
        ThenAssociates(past, Then(segment, dispatch),
                       ProcessFrom(dispatch.engine, event.time, events[index + 1..], frames));
      }
    }
  }

  lemma PoolIsOk(e: Engine)
    requires EngineOk(e)
    ensures PoolOk(PoolOf(e)) && EnvelopeOk(e.envelope) && 0 < |e.slots|
  {
  }

  /** The three layers' parts of a NOTE_ON together are its step of the machine. */
  lemma NoteOnEffect(e: Engine, id: Identity, velocity: real, after: Engine, log: seq<LogEntry>,
                     past: seq<LogEntry>, time: nat)
    requires EngineOk(e) && ValidIdentity(id) && 0.0 <= velocity <= 1.0 && PoolOk(PoolOf(e))
    requires EnvelopeOk(e.envelope) && 0 < |e.slots|
    requires
      var (pool, allocation) := VoicePool.Allocate(PoolOf(e), id);
      var g := e.generation + 1;
      && allocation.Allocated? && allocation.index < |e.slots|
      && (var i := allocation.index;
          var owned := e.slots[i := e.slots[i].(owner := Some(id))];
          var flagged := owned[i := owned[i].(sustained := false)];
          && after == e.(order := pool.order, generation := g, slots := flagged[i := flagged[i].(
               life := Life(id, g, Held), voice := StartVoice(e.envelope, e.defaults, id, g, velocity))])
          && log == past + Stamp(
               (if allocation.replaced.Some?
                then [End(flagged[i].life.generation, allocation.replaced.value, Stolen)] else [])
               + [On(g, id, e.envelope.release)], time))
    ensures
      var r := VoiceMachine.DispatchNoteOn(e, id, velocity);
      after == r.engine && log == past + Stamp(r.happened, time)
  {
    hide EngineOk, StartVoice, VoicePool.Allocate;
    assert after.slots == VoiceMachine.DispatchNoteOn(e, id, velocity).engine.slots;
  }

  lemma NothingIsAllocated(s: Slot, a: Action)
    ensures s.owner.None? ==> StepSlot(s, a).slot.owner.None?
  {
  }

  lemma StampJoins(past: seq<LogEntry>, first: seq<Happening>, second: seq<Happening>, time: nat)
    ensures (past + Stamp(first, time)) + Stamp(second, time) == past + Stamp(first + second, time)
  {
  }
}
