/** Cutting the event stream into blocks changes nothing: not a frame, not a record, not the state. */
module BlockPartition {
  import opened Wrappers
  import opened VoicePool
  import opened VoiceSlots
  import opened VoiceMachine
  import opened Bytes

  // ---- Algebra of runs -------------------------------------------------------------------------

  lemma ThenAssociates(a: Run, b: Run, c: Run)
    ensures Then(Then(a, b), c) == Then(a, Then(b, c))
  {
    assert (a.frames + b.frames) + c.frames == a.frames + (b.frames + c.frames);
    assert (a.log + b.log) + c.log == a.log + (b.log + c.log);
  }

  lemma NothingFirst(e: Engine, r: Run)
    ensures Then(Run(e, [], [], true), r) == r
  {
    assert [] + r.frames == r.frames && [] + r.log == r.log;
  }

  lemma ShiftThen(a: Run, b: Run, offset: nat)
    ensures Shift(Then(a, b), offset) == Then(Shift(a, offset), Shift(b, offset))
  {
    assert ShiftLog(a.log + b.log, offset) == ShiftLog(a.log, offset) + ShiftLog(b.log, offset);
  }

  lemma ShiftStamp(happened: seq<Happening>, time: nat, offset: nat)
    ensures ShiftLog(Stamp(happened, time), offset) == Stamp(happened, time + offset)
  {
  }

  // ---- No voice waits for the next block, except after a block's last frame ---------------------

  ghost predicate NoneDeferred(slots: seq<Slot>) {
    forall i :: 0 <= i < |slots| ==> !slots[i].voice.deferred
  }

  lemma SweepDefersNothing(e: Engine, a: Action)
    requires EngineOk(e) && Permitted(a, e.pedals)
    requires NoneDeferred(e.slots) || a.CompleteDeferred?
    requires a.Render? ==> !a.last
    ensures NoneDeferred(Sweep(e, a).engine.slots)
  {
    var slots := Sweep(e, a).engine.slots;
    forall i | 0 <= i < |slots| ensures !slots[i].voice.deferred {
      StepDefersNothing(e.slots[i], a, e.generation, e.pedals);
    }
  }

  lemma StepDefersNothing(s: Slot, a: Action, upTo: nat, pedals: seq<bool>)
    requires SlotOk(s, upTo, pedals) && Permitted(a, pedals)
    requires !s.voice.deferred || a.CompleteDeferred?
    requires a.Render? ==> !a.last
    ensures !StepSlot(s, a).slot.voice.deferred
  {
  }

  lemma ControllerDefersNothing(e: Engine, channel: nat, message: CoreEvent, controller: int, value: int,
                                accepted: bool)
    requires EngineOk(e) && NoneDeferred(e.slots) && channel < 16
    ensures NoneDeferred(DispatchController(e, channel, message, controller, value, accepted).engine.slots)
  {
    hide NoneDeferred, Sweep, SlotsOk, GenerationsDiffer, PoolOk;
    SweepDefersNothing(e, PedalUp(channel));
    SweepDefersNothing(e, ChokeMatching(NoteFor(channel, -1)));
    SweepDefersNothing(e, OffMatching(NoteFor(channel, -1)));
    SweepDefersNothing(e, Update(message));
    if e.pedals[channel] {
      SweepDefersNothing(e, DeferMatching(NoteFor(channel, -1)));
      SweepDefersNothing(LiftPedal(e, channel).engine, Update(message));
    }
  }

  lemma NoteOnDefersNothing(e: Engine, id: Identity, velocity: real)
    requires EngineOk(e) && NoneDeferred(e.slots) && ValidIdentity(id) && 0.0 <= velocity <= 1.0
    ensures NoneDeferred(DispatchNoteOn(e, id, velocity).engine.slots)
  {
    hide SlotsOk, GenerationsDiffer;
  }

  lemma MidiDefersNothing(e: Engine, port: int, status: Byte, data1: Byte, data2: Byte, answers: Answers)
    requires EngineOk(e) && NoneDeferred(e.slots)
    ensures NoneDeferred(DispatchMidi(e, port, status, data1, data2, answers).engine.slots)
  {
    hide NoneDeferred, Sweep, SlotsOk, GenerationsDiffer, PoolOk, DispatchController, DispatchNoteOn;
    var channel := status % 16;
    var message := MessageOf(port, status, data1, data2, answers);
    var accepted := AllTaken(port, status, data1, data2, answers);
    SweepDefersNothing(e, Update(message));
    SweepDefersNothing(e, OffMatching(NoteFor(channel, data1)));
    if data1 <= 127 && 0 < data2 <= 127 {
      assert 0.0 <= data2 as real / 127.0 <= 1.0;
      NoteOnDefersNothing(UpdateCore(e, message).engine, NoteFor(channel, data1), data2 as real / 127.0);
    }
    if e.pedals[channel] {
      SweepDefersNothing(e, DeferMatching(NoteFor(channel, data1)));
    }
    ControllerDefersNothing(e, channel, message, data1, data2, accepted);
  }

  lemma DispatchDefersNothing(e: Engine, body: Body)
    requires EngineOk(e) && NoneDeferred(e.slots)
    ensures NoneDeferred(Dispatch(e, body).engine.slots)
  {
    match body
    case NoHeader =>
    case Malformed =>
    case Foreign =>
    case NoteOnEvent(address, velocity, told) =>
    case NoteOffEvent(address) => SweepDefersNothing(e, OffMatching(address));
    case NoteChokeEvent(address) => SweepDefersNothing(e, ChokeMatching(address));
    case Midi(port, status, data1, data2, answers) =>
      MidiDefersNothing(e, port, status, data1, data2, answers);
    case Core(event, accepted) => SweepDefersNothing(e, Update(event));
  }

  lemma {:induction false} RangeDefersNothing(e: Engine, begin: nat, end: nat, block: nat)
    requires EngineOk(e) && NoneDeferred(e.slots) && end < block
    ensures NoneDeferred(RenderRange(e, begin, end, block).engine.slots)
    decreases end - begin
  {
    hide EngineOk, NoneDeferred, Sweep;
    if begin < end {
      SweepDefersNothing(e, Render(false));
      RangeDefersNothing(RenderFrame(e, begin, block).engine, begin + 1, end, block);
    }
  }

  // ---- Rendering ---------------------------------------------------------------------------------

  lemma {:induction false} RangeSplits(e: Engine, begin: nat, middle: nat, end: nat, block: nat)
    requires EngineOk(e) && begin <= middle <= end
    ensures
      var first := RenderRange(e, begin, middle, block);
      RenderRange(e, begin, end, block) == Then(first, RenderRange(first.engine, middle, end, block))
    decreases middle - begin
  {
    hide EngineOk, RenderFrame;
    var first := RenderRange(e, begin, middle, block);
    var rest := RenderRange(first.engine, middle, end, block);
    if begin == middle {
      NothingFirst(e, rest);
    } else {
      var frame := RenderFrame(e, begin, block);
      RangeSplits(frame.engine, begin + 1, middle, end, block);
      ThenAssociates(frame, RenderRange(frame.engine, begin + 1, middle, block), rest);
    }
  }

  /** Before a block's last frame its length does not matter. */
  lemma {:induction false} RangeIgnoresBlock(e: Engine, begin: nat, end: nat, block: nat, other: nat)
    requires EngineOk(e) && end < block && end < other
    ensures RenderRange(e, begin, end, block) == RenderRange(e, begin, end, other)
    decreases end - begin
  {
    hide EngineOk, Sweep;
    if begin < end {
      RangeIgnoresBlock(RenderFrame(e, begin, block).engine, begin + 1, end, block, other);
    }
  }

  lemma {:induction false} RangeShifts(e: Engine, begin: nat, end: nat, block: nat, offset: nat)
    requires EngineOk(e)
    ensures RenderRange(e, begin + offset, end + offset, block + offset)
            == Shift(RenderRange(e, begin, end, block), offset)
    decreases end - begin
  {
    hide EngineOk, Sweep;
    if begin < end {
      var frame := RenderFrame(e, begin, block);
      assert RenderFrame(e, begin + offset, block + offset) == Shift(frame, offset) by {
        ShiftStamp(Sweep(e, Render(begin + 1 >= block)).happened, begin + 1, offset);
      }
      RangeShifts(frame.engine, begin + 1, end, block, offset);
      ShiftThen(frame, RenderRange(frame.engine, begin + 1, end, block), offset);
    }
  }

  /** One slot: deferring the end of a release and completing it is ending it at once. */
  lemma DeferThenComplete(s: Slot, upTo: nat, pedals: seq<bool>)
    requires SlotOk(s, upTo, pedals) && !s.voice.deferred
    ensures
      var waiting := StepSlot(s, Render(true));
      var completed := StepSlot(waiting.slot, CompleteDeferred);
      var atOnce := StepSlot(s, Render(false));
      && SlotOk(waiting.slot, upTo, pedals)
      && waiting.happened == [] && waiting.slot.owner == s.owner
      && completed == atOnce
  {
    StepKeepsSlotOk(s, Render(true), upTo, pedals);
  }

  lemma {:induction false} DeferredHappenings(slots: seq<Slot>, waiting: seq<Slot>, n: nat, upTo: nat,
                                              pedals: seq<bool>)
    requires SlotsOk(slots, upTo, pedals) && NoneDeferred(slots)
    requires SlotsOk(waiting, upTo, pedals) && |waiting| == |slots| && n <= |slots|
    requires forall i :: 0 <= i < |slots| ==> waiting[i] == StepSlot(slots[i], Render(true)).slot
    ensures Happened(slots, Render(true), n) == []
    ensures Happened(waiting, CompleteDeferred, n)
            == Happened(slots, Render(false), n)
  {
    if n > 0 {
      DeferredHappenings(slots, waiting, n - 1, upTo, pedals);
      DeferThenComplete(slots[n - 1], upTo, pedals);
    }
  }

  /** A block's last frame followed by the completion pass of the next block is an ordinary frame. */
  lemma LastFrameThenComplete(e: Engine, frame: nat, block: nat)
    requires EngineOk(e) && NoneDeferred(e.slots) && frame + 1 < block
    ensures
      var last := RenderFrame(e, frame, frame + 1);
      Then(last, Shift(CompleteDeferredReleases(last.engine), frame + 1)) == RenderFrame(e, frame, block)
  {
    var last := RenderFrame(e, frame, frame + 1);
    var completed := CompleteDeferredReleases(last.engine);
    var ordinary := RenderFrame(e, frame, block);
    DeferredHappenings(e.slots, last.engine.slots, |e.slots|, e.generation, e.pedals);
    ShiftStamp(Sweep(last.engine, CompleteDeferred).happened, 0, frame + 1);
    forall i | 0 <= i < |e.slots|
      ensures completed.engine.slots[i] == ordinary.engine.slots[i]
      ensures last.engine.slots[i].owner == e.slots[i].owner
    {
      DeferThenComplete(e.slots[i], e.generation, e.pedals);
    }
    assert completed.engine.slots == ordinary.engine.slots;
    assert OwnersOf(last.engine.slots) == OwnersOf(e.slots);
    KeepOwnedAll(e.order, OwnersOf(e.slots));
    assert last.frames + completed.frames == ordinary.frames;
    assert last.log + Shift(completed, frame + 1).log == ordinary.log;
  }

  /** The same for the rest of a block. */
  lemma EndOfBlock(e: Engine, begin: nat, end: nat, block: nat)
    requires EngineOk(e) && NoneDeferred(e.slots) && begin < end < block
    ensures
      var rest := RenderRange(e, begin, end, end);
      Then(rest, Shift(CompleteDeferredReleases(rest.engine), end)) == RenderRange(e, begin, end, block)
  {
    hide EngineOk, NoneDeferred, Sweep, RenderFrame, CompleteDeferredReleases, RenderRange;
    var most := RenderRange(e, begin, end - 1, end);
    RangeSplits(e, begin, end - 1, end, end);
    RangeSplits(e, begin, end - 1, end, block);
    RangeIgnoresBlock(e, begin, end - 1, end, block);
    RangeDefersNothing(e, begin, end - 1, end);
    var last := RenderFrame(most.engine, end - 1, end);
    var completed := Shift(CompleteDeferredReleases(last.engine), end);
    OneFrame(most.engine, end - 1, end);
    OneFrame(most.engine, end - 1, block);
    LastFrameThenComplete(most.engine, end - 1, block);
    ThenAssociates(most, last, completed);
  }

  lemma OneFrame(e: Engine, frame: nat, block: nat)
    requires EngineOk(e)
    ensures RenderRange(e, frame, frame + 1, block) == RenderFrame(e, frame, block)
  {
    var r := RenderFrame(e, frame, block);
    assert RenderRange(r.engine, frame + 1, frame + 1, block) == Run(r.engine, [], [], true);
    assert r.frames + [] == r.frames && r.log + [] == r.log;
  }

  // ---- Event loop --------------------------------------------------------------------------------

  /** Time-sorted, inside the block, and with readable headers. */
  predicate Timed(events: seq<Event>, cursor: nat, block: nat) {
    events == [] || (cursor <= events[0].time < block && !events[0].body.NoHeader?
                     && Timed(events[1..], events[0].time, block))
  }

  function ShiftEvents(events: seq<Event>, offset: nat): (r: seq<Event>)
    ensures |r| == |events|
    ensures forall i :: 0 <= i < |events| ==> r[i] == Event(events[i].time + offset, events[i].body)
  {
    seq(|events|, i requires 0 <= i < |events| => Event(events[i].time + offset, events[i].body))
  }

  lemma ProcessReachesMiddle(e: Engine, cursor: nat, middle: nat, events: seq<Event>, block: nat)
    requires EngineOk(e) && cursor <= middle <= block && Timed(events, middle, block)
    ensures
      var first := RenderRange(e, cursor, middle, block);
      ProcessFrom(e, cursor, events, block) == Then(first, ProcessFrom(first.engine, middle, events, block))
  {
    var first := RenderRange(e, cursor, middle, block);
    if events == [] {
      RangeSplits(e, cursor, middle, block, block);
    } else {
      var t := events[0].time;
      RangeSplits(e, cursor, middle, t, block);
      var rest := RenderRange(first.engine, middle, t, block);
      var dispatched := DispatchAt(rest.engine, events[0]);
      ThenAssociates(first, rest, dispatched);
      if dispatched.ok {
        ThenAssociates(first, Then(rest, dispatched), ProcessFrom(dispatched.engine, t, events[1..], block));
      }
    }
  }

  lemma {:induction false} ProcessShifts(e: Engine, cursor: nat, events: seq<Event>, block: nat, offset: nat)
    requires EngineOk(e) && cursor <= block
    ensures ProcessFrom(e, cursor + offset, ShiftEvents(events, offset), block + offset)
            == Shift(ProcessFrom(e, cursor, events, block), offset)
    decreases |events|
  {
    hide EngineOk, RenderRange, Dispatch;
    var shifted := ShiftEvents(events, offset);
    if events == [] {
      RangeShifts(e, cursor, block, block, offset);
    } else if !events[0].body.NoHeader? && cursor <= events[0].time < block {
      var t := events[0].time;
      RangeShifts(e, cursor, t, block, offset);
      var segment := RenderRange(e, cursor, t, block);
      var dispatched := DispatchAt(segment.engine, events[0]);
      ShiftStamp(Dispatch(segment.engine, events[0].body).happened, t, offset);
      assert DispatchAt(segment.engine, shifted[0]) == Shift(dispatched, offset);
      ShiftThen(segment, dispatched, offset);
      assert shifted[1..] == ShiftEvents(events[1..], offset);
      if dispatched.ok {
        ProcessShifts(dispatched.engine, t, events[1..], block, offset);
        ShiftThen(Then(segment, dispatched), ProcessFrom(dispatched.engine, t, events[1..], block), offset);
      }
    }
  }

  /** Running on into a second block, or stopping with the first one. */
  ghost function Continue(first: Run, offset: nat, block: nat, events: seq<Event>): Run
    requires EngineOk(first.engine)
  {
    if !first.ok then first else Then(first, Shift(Process(first.engine, block, events), offset))
  }

  lemma ContinueThen(a: Run, b: Run, offset: nat, block: nat, events: seq<Event>)
    requires EngineOk(b.engine) && a.ok
    ensures Continue(Then(a, b), offset, block, events) == Then(a, Continue(b, offset, block, events))
  {
    if b.ok {
      ThenAssociates(a, b, Shift(Process(b.engine, block, events), offset));
    }
  }

  lemma NextBlockFrom(e: Engine, cursor: nat, block: nat, later: seq<Event>, next: nat)
    requires EngineOk(e) && NoneDeferred(e.slots) && cursor < block && 0 < next
    requires Timed(later, 0, next)
    ensures ProcessFrom(e, cursor, ShiftEvents(later, block), block + next)
            == Continue(ProcessFrom(e, cursor, [], block), block, next, later)
  {
    hide EngineOk, NoneDeferred, RenderRange, Dispatch, CompleteDeferredReleases;
    TimedShifts(later, 0, next, block);
    ProcessReachesMiddle(e, cursor, block, ShiftEvents(later, block), block + next);
    EndOfBlock(e, cursor, block, block + next);
    var rest := RenderRange(e, cursor, block, block);
    var completed := CompleteDeferredReleases(rest.engine);
    var second := ProcessFrom(completed.engine, 0, later, next);
    ProcessShifts(completed.engine, 0, later, next, block);
    ShiftThen(completed, second, block);
    ThenAssociates(rest, Shift(completed, block), Shift(second, block));
  }

  lemma DispatchAtDefersNothing(e: Engine, event: Event)
    requires EngineOk(e) && NoneDeferred(e.slots)
    ensures NoneDeferred(DispatchAt(e, event).engine.slots)
  {
    hide EngineOk, NoneDeferred, Dispatch;
    DispatchDefersNothing(e, event.body);
  }

  lemma {:induction false} TwoBlocksFrom(e: Engine, cursor: nat, events: seq<Event>, block: nat,
                                         later: seq<Event>, next: nat)
    requires EngineOk(e) && NoneDeferred(e.slots) && cursor < block && 0 < next
    requires Timed(events, cursor, block) && Timed(later, 0, next)
    ensures ProcessFrom(e, cursor, events + ShiftEvents(later, block), block + next)
            == Continue(ProcessFrom(e, cursor, events, block), block, next, later)
    decreases |events|
  {
    hide EngineOk, NoneDeferred, RenderRange, DispatchAt, CompleteDeferredReleases, ShiftEvents;
    var all := events + ShiftEvents(later, block);
    if events == [] {
      assert events + ShiftEvents(later, block) == ShiftEvents(later, block);
      NextBlockFrom(e, cursor, block, later, next);
    } else {
      var t := events[0].time;
      RangeIgnoresBlock(e, cursor, t, block, block + next);
      RangeDefersNothing(e, cursor, t, block);
      var segment := RenderRange(e, cursor, t, block);
      var dispatched := Then(segment, DispatchAt(segment.engine, events[0]));
      assert all[0] == events[0] && all[1..] == events[1..] + ShiftEvents(later, block);
      if dispatched.ok {
        DispatchAtDefersNothing(segment.engine, events[0]);
        TwoBlocksFrom(dispatched.engine, t, events[1..], block, later, next);
        ContinueThen(dispatched, ProcessFrom(dispatched.engine, t, events[1..], block), block, next, later);
      }
    }
  }

  lemma {:induction false} TimedShifts(events: seq<Event>, cursor: nat, block: nat, offset: nat)
    requires Timed(events, cursor, block)
    ensures Timed(ShiftEvents(events, offset), cursor + offset, block + offset)
  {
    if events != [] {
      TimedShifts(events[1..], events[0].time, block, offset);
      assert ShiftEvents(events, offset)[1..] == ShiftEvents(events[1..], offset);
    }
  }

  lemma {:induction false} TimedJoins(events: seq<Event>, cursor: nat, block: nat, later: seq<Event>, next: nat)
    requires Timed(events, cursor, block) && Timed(later, block, next) && block <= next && cursor <= block
    ensures Timed(events + later, cursor, next)
  {
    if events == [] {
      assert events + later == later;
    } else {
      TimedJoins(events[1..], events[0].time, block, later, next);
      assert (events + later)[1..] == events[1..] + later;
    }
  }

  /** Two adjacent blocks are one block. */
  lemma TwoBlocks(e: Engine, first: Block, second: Block)
    requires EngineOk(e) && 0 < first.frames && 0 < second.frames
    requires Timed(first.events, 0, first.frames) && Timed(second.events, 0, second.frames)
    ensures Process(e, first.frames + second.frames, first.events + ShiftEvents(second.events, first.frames))
            == Continue(Process(e, first.frames, first.events), first.frames, second.frames, second.events)
  {
    hide EngineOk, NoneDeferred, Sweep, ProcessFrom;
    var completed := CompleteDeferredReleases(e);
    SweepDefersNothing(e, CompleteDeferred);
    TwoBlocksFrom(completed.engine, 0, first.events, first.frames, second.events, second.frames);
    ContinueThen(completed, ProcessFrom(completed.engine, 0, first.events, first.frames),
                 first.frames, second.frames, second.events);
  }

  // ---- Any number of blocks ---------------------------------------------------------------------

  predicate ValidBlocks(blocks: seq<Block>) {
    forall b :: b in blocks ==> 0 < b.frames && Timed(b.events, 0, b.frames)
  }

  /** The single block that covers the same samples with the same events. */
  function Joined(blocks: seq<Block>): Block {
    if blocks == [] then Block(0, [])
    else
      var rest := Joined(blocks[1..]);
      Block(blocks[0].frames + rest.frames, blocks[0].events + ShiftEvents(rest.events, blocks[0].frames))
  }

  lemma {:induction false} JoinedIsValid(blocks: seq<Block>)
    requires ValidBlocks(blocks)
    ensures Timed(Joined(blocks).events, 0, Joined(blocks).frames)
    ensures blocks != [] ==> 0 < Joined(blocks).frames
  {
    if blocks != [] {
      var rest := Joined(blocks[1..]);
      assert forall b :: b in blocks[1..] ==> b in blocks;
      JoinedIsValid(blocks[1..]);
      TimedShifts(rest.events, 0, rest.frames, blocks[0].frames);
      TimedJoins(blocks[0].events, 0, blocks[0].frames, ShiftEvents(rest.events, blocks[0].frames),
                 Joined(blocks).frames);
    }
  }

  /** Any sequence of non-empty blocks does exactly what one large block does: the same frames, the
      same records at the same absolute times and in the same order, the same final state. */
  lemma {:induction false} BlocksAreOneBlock(e: Engine, blocks: seq<Block>)
    requires EngineOk(e) && ValidBlocks(blocks) && blocks != []
    ensures RunBlocks(e, blocks) == Process(e, Joined(blocks).frames, Joined(blocks).events)
    decreases |blocks|
  {
    hide EngineOk, Process;
    var first := Process(e, blocks[0].frames, blocks[0].events);
    var rest := blocks[1..];
    if rest == [] {
      assert ShiftEvents([], blocks[0].frames) == [];
      assert blocks[0].events + [] == blocks[0].events;
      if first.ok {
        assert RunBlocks(first.engine, rest) == Run(first.engine, [], [], true);
        assert first.frames + [] == first.frames && first.log + ShiftLog([], blocks[0].frames) == first.log;
      }
    } else {
      assert forall b :: b in rest ==> b in blocks;
      assert blocks[0] in blocks;
      JoinedIsValid(rest);
      TwoBlocks(e, blocks[0], Joined(rest));
      if first.ok {
        BlocksAreOneBlock(first.engine, rest);
      }
    }
  }

  // ---- Cutting a stream ------------------------------------------------------------------------------

  /** The events before sample `at`. */
  function Before(events: seq<Event>, at: nat): seq<Event> {
    if events == [] || events[0].time >= at then [] else [events[0]] + Before(events[1..], at)
  }

  /** The events from sample `at` on, counted from there. */
  function From(events: seq<Event>, at: nat): seq<Event> {
    if events == [] then []
    else if events[0].time < at then From(events[1..], at)
    else [Event(events[0].time - at, events[0].body)] + From(events[1..], at)
  }

  /** Cuts a block after sizes[0], sizes[1], ... samples; what is left over is the last piece. */
  function Cut(b: Block, sizes: seq<nat>): seq<Block>
    decreases |sizes|
  {
    if sizes == [] || sizes[0] >= b.frames then [b]
    else [Block(sizes[0], Before(b.events, sizes[0]))]
         + Cut(Block(b.frames - sizes[0], From(b.events, sizes[0])), sizes[1..])
  }

  lemma {:induction false} FromLate(events: seq<Event>, cursor: nat, block: nat, at: nat)
    requires Timed(events, cursor, block) && at <= cursor && at <= block
    ensures ShiftEvents(From(events, at), at) == events
    ensures Timed(From(events, at), cursor - at, block - at)
  {
    if events != [] {
      FromLate(events[1..], events[0].time, block, at);
      var rest := From(events[1..], at);
      var first := Event(events[0].time - at, events[0].body);
      assert ([first] + rest)[1..] == rest;
      assert ShiftEvents([first] + rest, at) == [events[0]] + ShiftEvents(rest, at);
    }
  }

  lemma {:induction false} CutOnce(events: seq<Event>, cursor: nat, block: nat, at: nat)
    requires Timed(events, cursor, block) && cursor < at < block
    ensures Before(events, at) + ShiftEvents(From(events, at), at) == events
    ensures Timed(Before(events, at), cursor, at) && Timed(From(events, at), 0, block - at)
  {
    if events == [] {
    } else if events[0].time < at {
      CutOnce(events[1..], events[0].time, block, at);
      assert ([events[0]] + Before(events[1..], at))[1..] == Before(events[1..], at);
    } else {
      FromLate(events, events[0].time, block, at);
    }
  }

  lemma {:induction false} CutCovers(b: Block, sizes: seq<nat>)
    requires 0 < b.frames && Timed(b.events, 0, b.frames)
    requires forall k :: 0 <= k < |sizes| ==> 0 < sizes[k]
    ensures ValidBlocks(Cut(b, sizes)) && Joined(Cut(b, sizes)) == b && Cut(b, sizes) != []
    decreases |sizes|
  {
    if sizes == [] || sizes[0] >= b.frames {
      assert ShiftEvents([], b.frames) == [];
      assert b.events + [] == b.events;
      assert [b][1..] == [];
    } else {
      var at := sizes[0];
      CutOnce(b.events, 0, b.frames, at);
      var rest := Block(b.frames - at, From(b.events, at));
      CutCovers(rest, sizes[1..]);
      assert Cut(b, sizes)[1..] == Cut(rest, sizes[1..]);
    }
  }

  /** Cutting any time-sorted stream into any non-empty blocks changes nothing. */
  lemma CuttingChangesNothing(e: Engine, b: Block, sizes: seq<nat>)
    requires EngineOk(e) && 0 < b.frames && Timed(b.events, 0, b.frames)
    requires forall k :: 0 <= k < |sizes| ==> 0 < sizes[k]
    ensures RunBlocks(e, Cut(b, sizes)) == Process(e, b.frames, b.events)
  {
    hide EngineOk, RunBlocks, Process, Cut;
    CutCovers(b, sizes);
    BlocksAreOneBlock(e, Cut(b, sizes));
  }
}
