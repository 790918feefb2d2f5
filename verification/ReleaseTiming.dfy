/** A released voice sounds for exactly the release time it copied at its NOTE_ON. The records of a
    run are checked by an auditor that knows nothing of envelopes, blocks or slots. */
module ReleaseTiming {
  import opened Wrappers
  import opened VoicePool
  import opened VoiceSlots
  import opened VoiceMachine
  import opened Bytes
  import opened BlockPartition
  import opened VoiceTicks

  // ---- The auditor -------------------------------------------------------------------------------

  datatype Start = Start(time: nat, identity: Identity, release: nat)
  datatype Finish = Finish(time: nat, cause: Cause)

  /** What has been recorded about each generation. */
  datatype Book = Book(on: map<nat, Start>, off: map<nat, nat>, end: map<nat, Finish>)

  const BLANK := Book(map[], map[], map[])

  /** Accepts a record only if every voice starts once, is let go at most once while it sounds, and
      ends once: after exactly its release time when the release ran out, and never later than that
      when it was stolen or choked. */
  function Audit(b: Book, entry: LogEntry): Option<Book> {
    match entry.what
    case On(g, id, release) =>
      if g in b.on then None else Some(b.(on := b.on[g := Start(entry.time, id, release)]))
    case Off(g) =>
      if g !in b.on || g in b.off || g in b.end then None
      else Some(b.(off := b.off[g := entry.time]))
    case End(g, id, cause) =>
      if g !in b.on || b.on[g].identity != id || g in b.end then None
      else if cause == Released && (g !in b.off || entry.time != b.off[g] + b.on[g].release) then None
      else if cause != Released && g in b.off && entry.time > b.off[g] + b.on[g].release then None
      else Some(b.(end := b.end[g := Finish(entry.time, cause)]))
  }

  function AuditAll(b: Book, log: seq<LogEntry>): Option<Book>
    decreases |log|
  {
    if log == [] then Some(b)
    else
      match Audit(b, log[0])
      case None => None
      case Some(next) => AuditAll(next, log[1..])
  }

  lemma {:induction false} AuditJoin(b: Book, first: seq<LogEntry>, second: seq<LogEntry>)
    ensures AuditAll(b, first + second) ==
            match AuditAll(b, first) case None => None case Some(middle) => AuditAll(middle, second)
    decreases |first|
  {
    if first == [] {
      assert first + second == second;
    } else {
      assert (first + second)[1..] == first[1..] + second;
      match Audit(b, first[0])
      case None =>
      case Some(next) => AuditJoin(next, first[1..], second);
    }
  }

  lemma AuditOne(b: Book, entry: LogEntry)
    ensures AuditAll(b, [entry]) == Audit(b, entry)
  {
    assert [entry][1..] == [];
  }

  // ---- The book agrees with the engine --------------------------------------------------------------

  ghost predicate BookOk(b: Book, upTo: nat) {
    && (forall g :: g in b.on <==> 1 <= g <= upTo)
    && (forall g :: g in b.off ==> g in b.on)
    && (forall g :: g in b.end ==> g in b.on)
  }

  /** The voice in a slot is on the books, was rendered for the samples since its start, has not ended,
      and if it was let go, the samples left are those still missing from its release time. */
  predicate SlotAgrees(b: Book, s: Slot, now: nat) {
    s.owner.Some? ==>
      var g := s.voice.generation;
      && g in b.on && b.on[g].identity == s.owner.value && b.on[g].release == s.voice.release
      && b.on[g].time + FramesOf(s.voice.dsp) == now
      && g !in b.end
      && (g in b.off <==> s.voice.stage == Release)
      && (s.voice.stage == Release ==> b.off[g] + s.voice.release == now + s.voice.remaining)
  }

  ghost predicate Lives(slots: seq<Slot>, g: nat) {
    exists i :: 0 <= i < |slots| && slots[i].owner.Some? && slots[i].voice.generation == g
  }

  ghost predicate Complete(b: Book, slots: seq<Slot>) {
    forall g :: g in b.on && g !in b.end ==> Lives(slots, g)
  }

  ghost predicate Agrees(b: Book, e: Engine, now: nat) {
    && BookOk(b, e.generation)
    && (forall i :: 0 <= i < |e.slots| ==> SlotAgrees(b, e.slots[i], now))
    && Complete(b, e.slots)
  }

  /** The two books differ at most about generation `g`. */
  ghost predicate OnlyAbout(b: Book, c: Book, g: nat) {
    && c.on == b.on
    && (forall h :: h != g ==> (h in c.off <==> h in b.off) && (h in c.end <==> h in b.end))
    && (forall h :: h != g && h in b.off ==> c.off[h] == b.off[h])
  }

  // ---- Passes ----------------------------------------------------------------------------------------

  /** The clock of a pass: rendering takes one sample, everything else takes none. */
  predicate Clocked(a: Action, now: nat, later: nat) {
    later == if a.Render? then now + 1 else now
  }

  lemma StepAudits(b: Book, s: Slot, a: Action, upTo: nat, pedals: seq<bool>, now: nat, later: nat)
    requires SlotOk(s, upTo, pedals) && Permitted(a, pedals) && s.owner.Some?
    requires Clocked(a, now, later) && (a.Render? ==> !s.voice.deferred)
    requires BookOk(b, upTo) && SlotAgrees(b, s, now)
    ensures
      var r := StepSlot(s, a);
      var audited := AuditAll(b, Stamp(r.happened, later));
      && audited.Some?
      && BookOk(audited.value, upTo)
      && SlotAgrees(audited.value, r.slot, later)
      && OnlyAbout(b, audited.value, s.voice.generation)
      && (s.voice.generation !in audited.value.end ==>
            r.slot.owner.Some? && r.slot.voice.generation == s.voice.generation)
  {
    hide StepSlot, SlotOk, FramesOf;
    var r := StepSlot(s, a);
    StepAccount(s, a, upTo, pedals);
    if r.slot.owner.Some? {
      StepFrames(s, a, upTo, pedals);
    }
    ReleaseCountdown(s, a, upTo, pedals);
    StepEndsBeforeDeadline(s, a, upTo, pedals);
    var log := Stamp(r.happened, later);
    if log != [] {
      assert log == [log[0]];
      AuditOne(b, log[0]);
    }
  }

  lemma StepEndsBeforeDeadline(s: Slot, a: Action, upTo: nat, pedals: seq<bool>)
    requires SlotOk(s, upTo, pedals) && Permitted(a, pedals) && s.owner.Some?
    ensures s.voice.deferred ==> s.voice.stage == Release && s.voice.remaining == 0
    ensures StepSlot(s, a).slot.owner.None? && !a.Render? && !a.CompleteDeferred? ==>
              StepSlot(s, a).happened == [End(s.voice.generation, s.owner.value, Choked)]
    ensures StepSlot(s, a).slot.owner.None? && (a.Render? || a.CompleteDeferred?) ==>
              StepSlot(s, a).happened == [End(s.voice.generation, s.owner.value, Released)]
    ensures s.voice.stage == Release && !s.voice.deferred ==> 0 < s.voice.remaining
  {
  }

  lemma OthersAgree(b: Book, c: Book, g: nat, s: Slot, now: nat)
    requires OnlyAbout(b, c, g) && SlotAgrees(b, s, now)
    requires s.owner.Some? ==> s.voice.generation != g
    ensures SlotAgrees(c, s, now)
  {
  }

  lemma {:induction false} SweepAudits(b: Book, slots: seq<Slot>, a: Action, n: nat, upTo: nat,
                                       pedals: seq<bool>, now: nat, later: nat)
    requires SlotsOk(slots, upTo, pedals) && Permitted(a, pedals) && n <= |slots|
    requires GenerationsDiffer(slots)
    requires Clocked(a, now, later) && (a.Render? ==> NoneDeferred(slots))
    requires BookOk(b, upTo) && Complete(b, slots)
    requires forall i :: 0 <= i < |slots| ==> SlotAgrees(b, slots[i], now)
    ensures
      var audited := AuditAll(b, Stamp(Happened(slots, a, n), later));
      var swept := SweepSlots(slots, a, n);
      && audited.Some?
      && BookOk(audited.value, upTo)
      && Complete(audited.value, swept)
      && (forall i :: 0 <= i < n ==> SlotAgrees(audited.value, swept[i], later))
      && (forall i :: n <= i < |slots| ==> SlotAgrees(audited.value, slots[i], now))
  {
    hide StepSlot, SlotOk, Audit, AuditAll, SlotAgrees, BookOk, Lives;
    var swept := SweepSlots(slots, a, n);
    if n == 0 {
      assert swept == slots;
      NothingToAudit(b);
      assert Stamp([], later) == [];
    } else {
      SweepAudits(b, slots, a, n - 1, upTo, pedals, now, later);
      var s := slots[n - 1];
      var before, happened := Happened(slots, a, n - 1), StepSlot(s, a).happened;
      var middle := AuditAll(b, Stamp(before, later)).value;
      assert Stamp(before + happened, later) == Stamp(before, later) + Stamp(happened, later);
      AuditJoin(b, Stamp(before, later), Stamp(happened, later));
      var partly := SweepSlots(slots, a, n - 1);
      assert swept == partly[n - 1 := StepSlot(s, a).slot];
      StepAccount(s, a, upTo, pedals);
      if s.owner.None? {
        NothingToAudit(middle);
        assert swept == partly;
        EmptySlotAgrees(middle, s, later);
      } else {
        StepAudits(middle, s, a, upTo, pedals, now, later);
        var final := AuditAll(middle, Stamp(happened, later)).value;
        StillComplete(middle, final, partly, n - 1, StepSlot(s, a).slot);
        forall i | 0 <= i < n - 1 ensures SlotAgrees(final, swept[i], later) {
          SweptGeneration(slots[i], a, upTo, pedals);
          OthersAgree(middle, final, s.voice.generation, swept[i], later);
        }
        forall i | n <= i < |slots| ensures SlotAgrees(final, slots[i], now) {
          OthersAgree(middle, final, s.voice.generation, slots[i], now);
        }
      }
    }
  }

  lemma NothingToAudit(b: Book)
    ensures AuditAll(b, []) == Some(b)
  {
  }

  lemma EmptySlotAgrees(b: Book, s: Slot, now: nat)
    requires s.owner.None?
    ensures SlotAgrees(b, s, now)
  {
  }

  lemma SweptGeneration(s: Slot, a: Action, upTo: nat, pedals: seq<bool>)
    requires SlotOk(s, upTo, pedals) && Permitted(a, pedals)
    ensures StepSlot(s, a).slot.owner.Some? ==>
              s.owner.Some? && StepSlot(s, a).slot.voice.generation == s.voice.generation
  {
    StepAccount(s, a, upTo, pedals);
  }

  lemma StillComplete(b: Book, c: Book, slots: seq<Slot>, i: nat, slot: Slot)
    requires i < |slots| && slots[i].owner.Some? && Complete(b, slots)
    requires OnlyAbout(b, c, slots[i].voice.generation)
    requires slots[i].voice.generation !in c.end ==>
               slot.owner.Some? && slot.voice.generation == slots[i].voice.generation
    ensures Complete(c, slots[i := slot])
  {
    var g := slots[i].voice.generation;
    forall h | h in c.on && h !in c.end ensures Lives(slots[i := slot], h) {
      if h == g {
        assert slots[i := slot][i].voice.generation == g;
      } else {
        assert Lives(slots, h);
        var k :| 0 <= k < |slots| && slots[k].owner.Some? && slots[k].voice.generation == h;
        assert slots[i := slot][k] == slots[k];
      }
    }
  }

  /** The book still agrees after `log`, `later` being the time reached. */
  ghost predicate Audited(b: Book, log: seq<LogEntry>, after: Engine, later: nat) {
    var r := AuditAll(b, log);
    r.Some? && Agrees(r.value, after, later)
  }

  lemma PassAudits(b: Book, e: Engine, a: Action, now: nat, later: nat)
    requires EngineOk(e) && Permitted(a, e.pedals) && Agrees(b, e, now)
    requires Clocked(a, now, later) && (a.Render? ==> NoneDeferred(e.slots))
    ensures Audited(b, Stamp(Sweep(e, a).happened, later), Sweep(e, a).engine, later)
  {
    hide SlotOk, AuditAll, SlotAgrees, BookOk, Complete;
    SweepAudits(b, e.slots, a, |e.slots|, e.generation, e.pedals, now, later);
  }

  // ---- Events ----------------------------------------------------------------------------------------

  lemma NoteOnAudits(b: Book, e: Engine, id: Identity, velocity: real, now: nat)
    requires EngineOk(e) && ValidIdentity(id) && 0.0 <= velocity <= 1.0 && Agrees(b, e, now)
    ensures
      var s := DispatchNoteOn(e, id, velocity);
      Audited(b, Stamp(s.happened, now), s.engine, now)
  {
    hide StartVoice, PoolOk;
    var s := DispatchNoteOn(e, id, velocity);
    var allocation := Allocate(PoolOf(e), id).1;
    var i := allocation.index;
    var log := Stamp(s.happened, now);
    var on := log[|log| - 1];
    var previous := e.slots[i];
    var g := e.generation + 1;
    AuditOne(b, on);
    if allocation.replaced.Some? {
      assert SlotOk(previous, e.generation, e.pedals) && SlotAgrees(b, previous, now);
      AuditOne(b, log[0]);
      assert log == [log[0]] + [on];
      AuditJoin(b, [log[0]], [on]);
      var stolen := Audit(b, log[0]).value;
      AuditOne(stolen, on);
      NewVoiceAgrees(b, stolen, e, i, s.engine, on, now);
    } else {
      assert log == [on];
      NewVoiceAgrees(b, b, e, i, s.engine, on, now);
    }
  }

  lemma NewVoiceAgrees(b: Book, c: Book, e: Engine, i: nat, after: Engine, on: LogEntry, now: nat)
    requires i < |e.slots| == |after.slots| && Agrees(b, e, now)
    requires GenerationsDiffer(e.slots)
    requires forall k :: 0 <= k < |e.slots| && e.slots[k].owner.Some? ==>
               1 <= e.slots[k].voice.generation <= e.generation
    requires after.generation == e.generation + 1
    requires after.slots == e.slots[i := after.slots[i]] && after.slots[i].owner.Some?
    requires after.slots[i].voice.generation == e.generation + 1 && after.slots[i].voice.stage != Release
    requires on == LogEntry(now, On(e.generation + 1, after.slots[i].owner.value, after.slots[i].voice.release))
    requires FramesOf(after.slots[i].voice.dsp) == 0
    requires c.on == b.on && c.off == b.off
    requires e.slots[i].owner.None? ==> c == b
    requires e.slots[i].owner.Some? ==>
               c.end.Keys == b.end.Keys + {e.slots[i].voice.generation}
    ensures Audit(c, on).Some? && Agrees(Audit(c, on).value, after, now)
  {
    var g := e.generation + 1;
    var d := Audit(c, on).value;
    forall h | h in d.on && h !in d.end ensures Lives(after.slots, h) {
      if h == g {
        assert after.slots[i].voice.generation == g;
      } else {
        assert Lives(e.slots, h);
        var k :| 0 <= k < |e.slots| && e.slots[k].owner.Some? && e.slots[k].voice.generation == h;
        assert after.slots[k] == e.slots[k];
      }
    }
    forall k | 0 <= k < |after.slots| ensures SlotAgrees(d, after.slots[k], now) {
      if k != i {
        assert SlotAgrees(b, e.slots[k], now);
      }
    }
  }

  lemma BothAudit(b: Book, first: Step, second: Step, now: nat)
    requires Audited(b, Stamp(first.happened, now), first.engine, now)
    requires Audited(AuditAll(b, Stamp(first.happened, now)).value, Stamp(second.happened, now),
                     second.engine, now)
    ensures Audited(b, Stamp(Both(first, second).happened, now), second.engine, now)
  {
    var x := Stamp(first.happened, now);
    var y := Stamp(second.happened, now);
    assert Stamp(first.happened + second.happened, now) == x + y;
    AuditJoin(b, x, y);
  }

  lemma NothingAudits(b: Book, e: Engine, after: Engine, now: nat)
    requires Agrees(b, e, now) && after.slots == e.slots && after.generation == e.generation
    ensures Audited(b, Stamp([], now), after, now)
  {
    assert Stamp([], now) == [];
  }

  lemma UpdateAudits(b: Book, e: Engine, event: CoreEvent, now: nat)
    requires EngineOk(e) && Agrees(b, e, now)
    ensures Audited(b, Stamp(UpdateCore(e, event).happened, now), UpdateCore(e, event).engine, now)
  {
    hide SlotsOk, GenerationsDiffer, PoolOk, Sweep;
    PassAudits(b, e, Update(event), now, now);
  }

  lemma LiftAudits(b: Book, e: Engine, channel: nat, now: nat)
    requires EngineOk(e) && channel < 16 && Agrees(b, e, now)
    ensures Audited(b, Stamp(LiftPedal(e, channel).happened, now), LiftPedal(e, channel).engine, now)
  {
    hide SlotsOk, GenerationsDiffer, PoolOk, Sweep;
    PassAudits(b, e, PedalUp(channel), now, now);
  }

  lemma ControllerAudits(b: Book, e: Engine, channel: nat, message: CoreEvent, controller: int,
                         value: int, accepted: bool, now: nat)
    requires EngineOk(e) && channel < 16 && Agrees(b, e, now)
    ensures
      var s := DispatchController(e, channel, message, controller, value, accepted);
      Audited(b, Stamp(s.happened, now), s.engine, now)
  {
    hide SlotsOk, GenerationsDiffer, PoolOk, Sweep, LiftPedal, UpdateCore, OfferToSink, Agrees, Audited;
    UpdateAudits(b, e, message, now);
    OfferAudits(b, e, message, accepted, now);
    PassAudits(b, e, ChokeMatching(NoteFor(channel, -1)), now, now);
    PassAudits(b, e, OffMatching(NoteFor(channel, -1)), now, now);
    NothingAudits(b, e, e.(pedals := e.pedals[channel := 64 <= value]), now);
    if e.pedals[channel] {
      PassAudits(b, e, DeferMatching(NoteFor(channel, -1)), now, now);
      LiftAudits(b, e, channel, now);
      LiftThenOfferAudits(b, e, channel, message, accepted, now);
    }
  }

  lemma OfferAudits(b: Book, e: Engine, message: CoreEvent, accepted: bool, now: nat)
    requires EngineOk(e) && Agrees(b, e, now)
    ensures
      var s := OfferToSink(e, message, accepted);
      Audited(b, Stamp(s.happened, now), s.engine, now)
  {
    hide EngineOk, UpdateCore, Agrees, Audited;
    UpdateAudits(b, e, message, now);
  }

  lemma LiftThenOfferAudits(b: Book, e: Engine, channel: nat, message: CoreEvent, accepted: bool, now: nat)
    requires EngineOk(e) && channel < 16 && Agrees(b, e, now)
    ensures
      var lifted := LiftPedal(e, channel);
      var s := Both(lifted, OfferToSink(lifted.engine, message, accepted));
      Audited(b, Stamp(s.happened, now), s.engine, now)
  {
    hide EngineOk, LiftPedal, OfferToSink, Agrees;
    var lifted := LiftPedal(e, channel);
    LiftAudits(b, e, channel, now);
    OfferAudits(AuditAll(b, Stamp(lifted.happened, now)).value, lifted.engine, message, accepted, now);
    BothAudit(b, lifted, OfferToSink(lifted.engine, message, accepted), now);
  }

  lemma UpdateThenNoteAudits(b: Book, e: Engine, message: CoreEvent, id: Identity, velocity: real, now: nat)
    requires EngineOk(e) && Agrees(b, e, now) && ValidIdentity(id) && 0.0 <= velocity <= 1.0
    ensures
      var replayed := UpdateCore(e, message);
      var s := Both(replayed, DispatchNoteOn(replayed.engine, id, velocity));
      Audited(b, Stamp(s.happened, now), s.engine, now)
  {
    hide EngineOk, DispatchNoteOn, UpdateCore, Agrees;
    var replayed := UpdateCore(e, message);
    UpdateAudits(b, e, message, now);
    NoteOnAudits(AuditAll(b, Stamp(replayed.happened, now)).value, replayed.engine, id, velocity, now);
    BothAudit(b, replayed, DispatchNoteOn(replayed.engine, id, velocity), now);
  }

  lemma MidiAudits(b: Book, e: Engine, port: int, status: Byte, data1: Byte, data2: Byte, answers: Answers,
                   now: nat)
    requires EngineOk(e) && Agrees(b, e, now)
    ensures
      var s := DispatchMidi(e, port, status, data1, data2, answers);
      Audited(b, Stamp(s.happened, now), s.engine, now)
  {
    hide SlotsOk, GenerationsDiffer, PoolOk, Sweep, DispatchNoteOn, DispatchController, UpdateCore,
      Agrees, Audited;
    var channel := status % 16;
    var message := MessageOf(port, status, data1, data2, answers);
    var accepted := AllTaken(port, status, data1, data2, answers);
    OfferAudits(b, e, message, accepted, now);
    PassAudits(b, e, OffMatching(NoteFor(channel, data1)), now, now);
    if e.pedals[channel] {
      PassAudits(b, e, DeferMatching(NoteFor(channel, data1)), now, now);
    }
    ControllerAudits(b, e, channel, message, data1, data2, accepted, now);
    if data1 <= 127 && data2 <= 127 {
      UpdateThenNoteAudits(b, e, message, NoteFor(channel, data1), data2 as real / 127.0, now);
    }
  }

  lemma DispatchAudits(b: Book, e: Engine, body: Body, now: nat)
    requires EngineOk(e) && Agrees(b, e, now)
    ensures Audited(b, Stamp(Dispatch(e, body).happened, now), Dispatch(e, body).engine, now)
  {
    hide EngineOk, Sweep, DispatchNoteOn, DispatchMidi, UpdateCore, Agrees, Audited;
    NothingAudits(b, e, e, now);
    match body
    case NoHeader =>
    case Malformed =>
    case Foreign =>
    case NoteOnEvent(address, velocity, told) =>
      if ValidNoteOn(address, velocity) {
        NoteOnAudits(b, e, address, velocity.value, now);
      }
    case NoteOffEvent(address) => PassAudits(b, e, OffMatching(address), now, now);
    case NoteChokeEvent(address) => PassAudits(b, e, ChokeMatching(address), now, now);
    case Midi(port, status, data1, data2, answers) =>
      MidiAudits(b, e, port, status, data1, data2, answers, now);
    case Core(event, accepted) =>
      UpdateAudits(b, e, event, now);
      if event.SetAmpEnvelope? {
        EnvelopeIsNotAudited(b, Stamp(UpdateCore(e, event).happened, now), UpdateCore(e, event).engine,
                             event.envelope, now);
      }
  }

  lemma EnvelopeIsNotAudited(b: Book, log: seq<LogEntry>, after: Engine, envelope: Envelope, now: nat)
    requires Audited(b, log, after, now)
    ensures Audited(b, log, after.(envelope := envelope), now)
  {
  }

  // ---- Runs --------------------------------------------------------------------------------------------

  /** After the last frame of a block nothing is rendered before the next completion pass. */
  predicate Legal(ticks: seq<Tick>, waiting: bool) {
    ticks == [] ||
    match ticks[0]
    case Open => Legal(ticks[1..], false)
    case Frame(last) => !waiting && Legal(ticks[1..], last)
    case Input(body) => Legal(ticks[1..], waiting)
    case Reject => true
  }

  lemma {:induction false} WaitingIsStricter(ticks: seq<Tick>)
    requires Legal(ticks, true)
    ensures Legal(ticks, false)
  {
    if ticks != [] && ticks[0].Input? {
      WaitingIsStricter(ticks[1..]);
    }
  }

  lemma {:induction false} FramesLegal(begin: nat, end: nat, block: nat, rest: seq<Tick>)
    requires begin <= end <= block && Legal(rest, begin < end == block)
    ensures Legal(FrameTicks(begin, end, block) + rest, false)
    decreases end - begin
  {
    var frames := FrameTicks(begin, end, block);
    if begin == end {
      assert frames + rest == rest;
    } else {
      var more := FrameTicks(begin + 1, end, block);
      assert (frames + rest)[1..] == more + rest;
      if begin + 1 == end {
        assert more + rest == rest;
      } else {
        FramesLegal(begin + 1, end, block, rest);
      }
    }
  }

  lemma {:induction false} LoopLegal(cursor: nat, events: seq<Event>, block: nat, rest: seq<Tick>)
    requires cursor <= block && Legal(rest, true)
    ensures Legal(LoopTicks(cursor, events, block) + rest, false)
    decreases |events|
  {
    hide FrameTicks;
    WaitingIsStricter(rest);
    if events == [] {
      FramesLegal(cursor, block, block, rest);
    } else if events[0].body.NoHeader? || events[0].time >= block || events[0].time < cursor {
    } else {
      var t := events[0].time;
      var input := [Input(events[0].body)];
      var later := LoopTicks(t, events[1..], block);
      LoopLegal(t, events[1..], block, rest);
      assert (input + (later + rest))[1..] == later + rest;
      FramesLegal(cursor, t, block, input + (later + rest));
      assert FrameTicks(cursor, t, block) + (input + (later + rest))
             == FrameTicks(cursor, t, block) + input + later + rest;
    }
  }

  lemma BlockLegal(b: Block, rest: seq<Tick>)
    requires Legal(rest, true)
    ensures Legal(BlockTicks(b) + rest, true)
  {
    hide LoopTicks;
    var all := BlockTicks(b) + rest;
    if b.frames > 0 {
      LoopLegal(0, b.events, b.frames, rest);
      assert all[0] == Open && all[1..] == LoopTicks(0, b.events, b.frames) + rest;
    } else {
      assert all[0] == Reject;
    }
  }

  lemma {:induction false} BlocksLegal(blocks: seq<Block>)
    ensures Legal(AllTicks(blocks), true)
  {
    hide BlockTicks, Legal;
    if blocks != [] {
      BlocksLegal(blocks[1..]);
      BlockLegal(blocks[0], AllTicks(blocks[1..]));
    } else {
      NothingIsLegal();
    }
  }

  lemma NothingIsLegal()
    ensures Legal([], true)
  {
  }

  lemma TickAudits(b: Book, e: Engine, now: nat, tick: Tick, waiting: bool)
    requires EngineOk(e) && Agrees(b, e, now)
    requires waiting || NoneDeferred(e.slots)
    requires tick.Frame? ==> !waiting
    ensures
      var r := RunTick(e, now, tick);
      && Audited(b, r.log, r.engine, now + Duration(tick))
      && (tick.Open? || (tick.Frame? && !tick.last) || (tick.Input? && !waiting) ==>
            NoneDeferred(r.engine.slots))
  {
    hide EngineOk, NoneDeferred, Sweep, Dispatch, Agrees, Audited;
    match tick
    case Open =>
      PassAudits(b, e, CompleteDeferred, now, now);
      SweepDefersNothing(e, CompleteDeferred);
    case Frame(last) =>
      PassAudits(b, e, Render(last), now, now + 1);
      if !last {
        SweepDefersNothing(e, Render(false));
      }
    case Input(body) =>
      DispatchAudits(b, e, body, now);
      if !waiting {
        DispatchDefersNothing(e, body);
      }
    case Reject =>
      NothingAudits(b, e, e, now);
      assert Stamp([], now) == [];
  }

  lemma {:induction false} TicksAudit(b: Book, e: Engine, now: nat, ticks: seq<Tick>, waiting: bool)
    requires EngineOk(e) && Agrees(b, e, now) && Legal(ticks, waiting)
    requires waiting || NoneDeferred(e.slots)
    ensures
      var r := RunTicks(e, now, ticks);
      && AuditAll(b, r.log).Some?
      && (r.ok ==> Agrees(AuditAll(b, r.log).value, r.engine, now + Elapsed(ticks)))
    decreases |ticks|
  {
    hide EngineOk, NoneDeferred, RunTick, Agrees, AuditAll;
    if ticks == [] {
      NothingToAudit(b);
    } else {
      var first := RunTick(e, now, ticks[0]);
      TickAudits(b, e, now, ticks[0], waiting);
      var later := now + Duration(ticks[0]);
      if first.ok {
        RejectFails(e, now, ticks[0]);
        var middle := AuditAll(b, first.log).value;
        TicksAudit(middle, first.engine, later, ticks[1..],
                   if ticks[0].Open? then false else if ticks[0].Frame? then ticks[0].last else waiting);
        AuditJoin(b, first.log, RunTicks(first.engine, later, ticks[1..]).log);
      }
    }
  }

  lemma RejectFails(e: Engine, now: nat, tick: Tick)
    requires EngineOk(e)
    ensures RunTick(e, now, tick).ok ==> !tick.Reject?
  {
  }

  /** The auditor accepts the records of every run, failed or not; after a successful one its book
      tells of every sounding voice how many samples of its release are left. */
  lemma RunsPassTheAudit(voices: nat, envelope: Envelope, blocks: seq<Block>)
    requires 1 <= voices <= MAX_VOICES && EnvelopeOk(envelope)
    ensures
      var r := RunBlocks(NewEngine(voices, envelope), blocks);
      && AuditAll(BLANK, r.log).Some?
      && (r.ok ==> Agrees(AuditAll(BLANK, r.log).value, r.engine, TotalFrames(blocks)))
  {
    hide EngineOk, RunTicks, RunBlocks, AllTicks, AuditAll;
    var e := NewEngine(voices, envelope);
    BlocksUnroll(e, blocks);
    BlocksLegal(blocks);
    TicksAudit(BLANK, e, 0, AllTicks(blocks), true);
  }

  // ---- What an accepted log says ----------------------------------------------------------------------

  /** Each kind of record about a generation stands in the log where the book says. */
  ghost predicate Reflects(b: Book, c: Book, log: seq<LogEntry>) {
    && (forall g :: g in b.on ==> g in c.on && c.on[g] == b.on[g])
    && (forall g :: g in b.off ==> g in c.off && c.off[g] == b.off[g])
    && (forall g :: g in b.end ==> g in c.end && c.end[g] == b.end[g])
    && (forall j :: 0 <= j < |log| ==> Reflected(b, c, log[j]))
    && (forall g :: g in c.end && g !in b.end ==> EndStands(c, log, g))
    && (forall g :: g in c.on && g !in b.on ==> OnStands(c, log, g))
  }

  ghost predicate Reflected(b: Book, c: Book, entry: LogEntry) {
    match entry.what
    case On(g, id, release) => g !in b.on && g in c.on && c.on[g] == Start(entry.time, id, release)
    case Off(g) => g !in b.off && g in c.off && c.off[g] == entry.time
    case End(g, id, cause) => g !in b.end && g in c.end && c.end[g] == Finish(entry.time, cause)
  }

  ghost predicate EndStands(c: Book, log: seq<LogEntry>, g: nat)
    requires g in c.end
  {
    exists k :: 0 <= k < |log| && g in c.on &&
      log[k] == LogEntry(c.end[g].time, End(g, c.on[g].identity, c.end[g].cause))
  }

  ghost predicate OnStands(c: Book, log: seq<LogEntry>, g: nat)
    requires g in c.on
  {
    exists k :: 0 <= k < |log| && log[k] == LogEntry(c.on[g].time, On(g, c.on[g].identity, c.on[g].release))
  }

  lemma {:induction false} AcceptedLogsReflect(b: Book, log: seq<LogEntry>)
    requires AuditAll(b, log).Some?
    ensures Reflects(b, AuditAll(b, log).value, log)
    decreases |log|
  {
    if log != [] {
      var next := Audit(b, log[0]).value;
      var c := AuditAll(b, log).value;
      AcceptedLogsReflect(next, log[1..]);
      EarlierReflected(b, next, c, log);
      EndsStand(b, next, c, log);
      OnsStand(b, next, c, log);
    }
  }

  lemma EarlierReflected(b: Book, next: Book, c: Book, log: seq<LogEntry>)
    requires log != [] && Audit(b, log[0]) == Some(next) && Reflects(next, c, log[1..])
    ensures forall j :: 0 <= j < |log| ==> Reflected(b, c, log[j])
  {
    forall j | 0 <= j < |log| ensures Reflected(b, c, log[j]) {
      if j > 0 {
        assert log[j] == log[1..][j - 1];
        assert Reflected(next, c, log[1..][j - 1]);
      }
    }
  }

  lemma EndsStand(b: Book, next: Book, c: Book, log: seq<LogEntry>)
    requires log != [] && Audit(b, log[0]) == Some(next) && Reflects(next, c, log[1..])
    ensures forall g :: g in c.end && g !in b.end ==> EndStands(c, log, g)
  {
    forall g | g in c.end && g !in b.end ensures EndStands(c, log, g) {
      if g in next.end {
        assert log[0] == LogEntry(c.end[g].time, End(g, c.on[g].identity, c.end[g].cause));
      } else {
        assert EndStands(c, log[1..], g);
        var k :| 0 <= k < |log[1..]| && g in c.on &&
          log[1..][k] == LogEntry(c.end[g].time, End(g, c.on[g].identity, c.end[g].cause));
        assert log[k + 1] == log[1..][k];
      }
    }
  }

  lemma OnsStand(b: Book, next: Book, c: Book, log: seq<LogEntry>)
    requires log != [] && Audit(b, log[0]) == Some(next) && Reflects(next, c, log[1..])
    ensures forall g :: g in c.on && g !in b.on ==> OnStands(c, log, g)
  {
    forall g | g in c.on && g !in b.on ensures OnStands(c, log, g) {
      if g in next.on {
        assert log[0] == LogEntry(c.on[g].time, On(g, c.on[g].identity, c.on[g].release));
      } else {
        assert OnStands(c, log[1..], g);
        var k :| 0 <= k < |log[1..]| &&
          log[1..][k] == LogEntry(c.on[g].time, On(g, c.on[g].identity, c.on[g].release));
        assert log[k + 1] == log[1..][k];
      }
    }
  }

  /** Every end by release is where the book of an accepted log says it must be. */
  ghost predicate EndsOnTime(b: Book) {
    forall g :: g in b.end ==>
      && g in b.on
      && (b.end[g].cause == Released ==> g in b.off && b.end[g].time == b.off[g] + b.on[g].release)
      && (g in b.off ==> b.end[g].time <= b.off[g] + b.on[g].release)
  }

  lemma {:induction false} AcceptedEndsOnTime(b: Book, log: seq<LogEntry>)
    requires EndsOnTime(b) && AuditAll(b, log).Some?
    ensures EndsOnTime(AuditAll(b, log).value)
    decreases |log|
  {
    if log != [] {
      var next := Audit(b, log[0]).value;
      assert EndsOnTime(next);
      AcceptedEndsOnTime(next, log[1..]);
    }
  }

  /** The book the auditor ends up with. */
  function BookOf(log: seq<LogEntry>): Book {
    match AuditAll(BLANK, log) case Some(b) => b case None => BLANK
  }

  /** Exact release time. In any successful run from a fresh engine, whatever the blocks and whatever
      happens to the envelope defaults meanwhile: a voice whose first effective NoteOff came at
      absolute sample t is either still sounding, with exactly t + R - now samples left, or has one
      NOTE_END, at t + R when its release ran out and no later than t + R when it was stolen or
      choked; R is the release recorded by its NOTE_ON. */
  lemma ReleaseTakesItsTime(voices: nat, envelope: Envelope, blocks: seq<Block>, j: nat)
    requires 1 <= voices <= MAX_VOICES && EnvelopeOk(envelope)
    requires
      var r := RunBlocks(NewEngine(voices, envelope), blocks);
      r.ok && j < |r.log| && r.log[j].what.Off?
    ensures
      var r := RunBlocks(NewEngine(voices, envelope), blocks);
      var g := r.log[j].what.generation;
      var t := r.log[j].time;
      var book := BookOf(r.log);
      && g in book.on && OnStands(book, r.log, g)
      && var R := book.on[g].release;
         || (exists i :: 0 <= i < |r.engine.slots| && StillReleasing(r.engine.slots[i], g, R)
               && TotalFrames(blocks) + r.engine.slots[i].voice.remaining == t + R)
         || (exists k :: 0 <= k < |r.log| && EndsBy(r.log[k], g, t + R))
  {
    hide EngineOk, RunBlocks, AuditAll, EnvelopeOk;
    RunsPassTheAudit(voices, envelope, blocks);
    var r := RunBlocks(NewEngine(voices, envelope), blocks);
    AcceptedLogsReflect(BLANK, r.log);
    AcceptedEndsOnTime(BLANK, r.log);
    var book := BookOf(r.log);
    var g := r.log[j].what.generation;
    assert Reflected(BLANK, book, r.log[j]);
    assert g in book.on;
    if g in book.end {
      assert EndStands(book, r.log, g);
      var k :| 0 <= k < |r.log| &&
        r.log[k] == LogEntry(book.end[g].time, End(g, book.on[g].identity, book.end[g].cause));
      assert EndsBy(r.log[k], g, r.log[j].time + book.on[g].release);
    } else {
      assert Lives(r.engine.slots, g);
      var i :| 0 <= i < |r.engine.slots| && r.engine.slots[i].owner.Some?
               && r.engine.slots[i].voice.generation == g;
      assert SlotAgrees(book, r.engine.slots[i], TotalFrames(blocks));
      assert StillReleasing(r.engine.slots[i], g, book.on[g].release);
    }
  }

  predicate StillReleasing(s: Slot, g: nat, release: nat) {
    s.owner.Some? && s.voice.generation == g && s.voice.stage == Release && s.voice.release == release
  }

  predicate EndsBy(entry: LogEntry, g: nat, deadline: nat) {
    && entry.what.End? && entry.what.generation == g
    && (if entry.what.cause == Released then entry.time == deadline else entry.time <= deadline)
  }

  /** A voice that ends by release was let go: no NOTE_END comes out of nowhere. */
  lemma ReleasedWasLetGo(voices: nat, envelope: Envelope, blocks: seq<Block>, k: nat)
    requires 1 <= voices <= MAX_VOICES && EnvelopeOk(envelope)
    requires
      var r := RunBlocks(NewEngine(voices, envelope), blocks);
      k < |r.log| && r.log[k].what.End? && r.log[k].what.cause == Released
    ensures
      var r := RunBlocks(NewEngine(voices, envelope), blocks);
      var g := r.log[k].what.generation;
      var book := BookOf(r.log);
      && g in book.on && g in book.off
      && r.log[k].time == book.off[g] + book.on[g].release
  {
    hide EngineOk, RunBlocks, AuditAll, EnvelopeOk;
    RunsPassTheAudit(voices, envelope, blocks);
    var r := RunBlocks(NewEngine(voices, envelope), blocks);
    AcceptedLogsReflect(BLANK, r.log);
    AcceptedEndsOnTime(BLANK, r.log);
    assert Reflected(BLANK, BookOf(r.log), r.log[k]);
  }

  // ---- The advertised tail ---------------------------------------------------------------------------

  /** VoiceEngine::maximumActiveReleaseSamples over the first `n` slots. */
  function MaximumRelease(slots: seq<Slot>, n: nat): nat
    requires n <= |slots|
  {
    if n == 0 then 0
    else
      var rest := MaximumRelease(slots, n - 1);
      var v := slots[n - 1].voice;
      if v.active && rest < v.release then v.release else rest
  }

  lemma {:induction false} MaximumBounds(slots: seq<Slot>, n: nat, i: nat)
    requires i < n <= |slots| && slots[i].voice.active
    ensures slots[i].voice.release <= MaximumRelease(slots, n)
  {
    if i < n - 1 {
      MaximumBounds(slots, n - 1, i);
    }
  }

  /** The published tail covers what is left of every release, and a NoteOff given now. */
  lemma TailCoversEveryRelease(e: Engine, i: nat)
    requires EngineOk(e) && i < |e.slots| && e.slots[i].owner.Some?
    ensures
      var tail := if MaximumRelease(e.slots, |e.slots|) < e.envelope.release
                  then e.envelope.release else MaximumRelease(e.slots, |e.slots|);
      && (e.slots[i].voice.stage == Release ==> e.slots[i].voice.remaining <= tail)
      && BeginRelease(e.slots[i].voice).remaining <= tail
  {
    assert SlotOk(e.slots[i], e.generation, e.pedals);
    MaximumBounds(e.slots, |e.slots|, i);
  }
}
