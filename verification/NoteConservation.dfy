/** Every accepted NOTE_ON is either still sounding or has had exactly one NOTE_END. */
module NoteConservation {
  import opened Wrappers
  import opened VoicePool
  import opened VoiceSlots
  import opened VoiceMachine
  import opened Bytes
  import opened BlockPartition
  import opened VoiceTicks

  function Started(log: seq<LogEntry>): seq<Identity> {
    if log == [] then []
    else Started(log[..|log| - 1]) +
         (var last := log[|log| - 1].what; if last.On? then [last.identity] else [])
  }

  /** The identities of the emitted NOTE_END events, in order. */
  function Ended(log: seq<LogEntry>): seq<Identity> {
    if log == [] then []
    else Ended(log[..|log| - 1]) +
         (var last := log[|log| - 1].what; if last.End? then [last.identity] else [])
  }

  /** Which notes are counted: those of one identity, or all of them. */
  type Filter = Option<Identity>

  function Weight(f: Filter, id: Identity): nat {
    if f.None? || f.value == id then 1 else 0
  }

  function Count(f: Filter, ids: seq<Identity>): nat {
    if ids == [] then 0 else Count(f, ids[..|ids| - 1]) + Weight(f, ids[|ids| - 1])
  }

  function Share(f: Filter, s: Slot): nat {
    match s.owner case None => 0 case Some(id) => Weight(f, id)
  }

  /** Sounding voices among the first `n` slots. */
  function Tally(f: Filter, slots: seq<Slot>, n: nat): nat
    requires n <= |slots|
  {
    if n == 0 then 0
    else Tally(f, slots, n - 1) + Share(f, slots[n - 1])
  }

  function Sounding(f: Filter, e: Engine): nat {
    Tally(f, e.slots, |e.slots|)
  }

  lemma {:induction false} CountJoin(f: Filter, a: seq<Identity>, b: seq<Identity>)
    ensures Count(f, a + b) == Count(f, a) + Count(f, b)
  {
    if b == [] {
      assert a + b == a;
    } else {
      var n := |b| - 1;
      CountJoin(f, a, b[..n]);
      assert (a + b)[..|a + b| - 1] == a + b[..n];
    }
  }

  lemma {:induction false} LogsJoin(a: seq<LogEntry>, b: seq<LogEntry>)
    ensures Started(a + b) == Started(a) + Started(b)
    ensures Ended(a + b) == Ended(a) + Ended(b)
  {
    if b == [] {
      assert a + b == a;
    } else {
      var n := |b| - 1;
      LogsJoin(a, b[..n]);
      assert (a + b)[..|a + b| - 1] == a + b[..n];
    }
  }

  // ---- One pass -----------------------------------------------------------------------------------

  lemma {:induction false} SweepBalances(f: Filter, slots: seq<Slot>, after: seq<Slot>, a: Action,
                                         n: nat, upTo: nat, pedals: seq<bool>, time: nat)
    requires SlotsOk(slots, upTo, pedals) && Permitted(a, pedals) && n <= |slots| == |after|
    requires forall i :: 0 <= i < n ==> after[i] == StepSlot(slots[i], a).slot
    ensures
      var log := Stamp(Happened(slots, a, n), time);
      && Started(log) == []
      && Tally(f, slots, n) == Tally(f, after, n) + Count(f, Ended(log))
  {
    hide StepSlot, SlotOk, Share, Started, Ended, Count;
    if n == 0 {
      NothingRecorded(f, time);
    } else {
      SweepBalances(f, slots, after, a, n - 1, upTo, pedals, time);
      StepBalances(f, slots[n - 1], a, upTo, pedals, time);
      RecordsAdd(f, Happened(slots, a, n - 1), StepSlot(slots[n - 1], a).happened, time);
    }
  }

  lemma NothingRecorded(f: Filter, time: nat)
    ensures Started(Stamp([], time)) == [] && Ended(Stamp([], time)) == [] && Count(f, []) == 0
  {
    assert Stamp([], time) == [];
  }

  lemma RecordsAdd(f: Filter, before: seq<Happening>, now: seq<Happening>, time: nat)
    ensures
      var log, x, y := Stamp(before + now, time), Stamp(before, time), Stamp(now, time);
      && Started(log) == Started(x) + Started(y)
      && Count(f, Ended(log)) == Count(f, Ended(x)) + Count(f, Ended(y))
  {
    var x, y := Stamp(before, time), Stamp(now, time);
    assert Stamp(before + now, time) == x + y;
    LogsJoin(x, y);
    CountJoin(f, Ended(x), Ended(y));
  }

  lemma StepBalances(f: Filter, s: Slot, a: Action, upTo: nat, pedals: seq<bool>, time: nat)
    requires SlotOk(s, upTo, pedals) && Permitted(a, pedals)
    ensures
      var r := StepSlot(s, a);
      var log := Stamp(r.happened, time);
      && Started(log) == []
      && Share(f, s) == Share(f, r.slot) + Count(f, Ended(log))
  {
    hide StepSlot, SlotOk;
    StepAccount(s, a, upTo, pedals);
    var log := Stamp(StepSlot(s, a).happened, time);
    if log != [] {
      assert log == [log[0]];
      OneEntry(log[0]);
      if log[0].what.End? {
        OneCount(f, log[0].what.identity);
      }
    }
  }

  lemma OneEntry(entry: LogEntry)
    ensures Started([entry]) == if entry.what.On? then [entry.what.identity] else []
    ensures Ended([entry]) == if entry.what.End? then [entry.what.identity] else []
  {
    assert [entry][..0] == [];
  }

  lemma OneCount(f: Filter, id: Identity)
    ensures Count(f, [id]) == Weight(f, id)
  {
    assert [id][..0] == [];
  }

  ghost predicate Balanced(f: Filter, before: Engine, after: Engine, log: seq<LogEntry>) {
    Sounding(f, before) + Count(f, Started(log)) == Sounding(f, after) + Count(f, Ended(log))
  }

  lemma BalancedJoins(f: Filter, a: Engine, b: Engine, c: Engine, first: seq<LogEntry>, second: seq<LogEntry>)
    requires Balanced(f, a, b, first) && Balanced(f, b, c, second)
    ensures Balanced(f, a, c, first + second)
  {
    LogsJoin(first, second);
    CountJoin(f, Started(first), Started(second));
    CountJoin(f, Ended(first), Ended(second));
  }

  lemma PassBalances(f: Filter, e: Engine, a: Action, time: nat)
    requires EngineOk(e) && Permitted(a, e.pedals)
    ensures
      var s := Sweep(e, a);
      var log := Stamp(s.happened, time);
      Balanced(f, e, s.engine, log) && Started(log) == []
  {
    var s := Sweep(e, a);
    SweepBalances(f, e.slots, s.engine.slots, a, |e.slots|, e.generation, e.pedals, time);
  }

  // ---- Events ---------------------------------------------------------------------------------------

  lemma {:induction false} TallyReplaced(f: Filter, slots: seq<Slot>, i: nat, slot: Slot, n: nat)
    requires i < |slots| && n <= |slots|
    ensures Tally(f, slots[i := slot], n) + (if i < n then Share(f, slots[i]) else 0)
            == Tally(f, slots, n) + (if i < n then Share(f, slot) else 0)
  {
    if n > 0 {
      TallyReplaced(f, slots, i, slot, n - 1);
    }
  }

  /** The records of a NOTE_ON: the voice it steals, if any, and its own. */
  lemma NoteOnRecords(f: Filter, stolen: seq<Happening>, on: Happening, time: nat)
    requires on.On? && (stolen == [] || (|stolen| == 1 && stolen[0].End?))
    ensures
      var log := Stamp(stolen + [on], time);
      && Started(log) == [on.identity] && Count(f, Started(log)) == Weight(f, on.identity)
      && Count(f, Ended(log)) == if stolen == [] then 0 else Weight(f, stolen[0].identity)
  {
    var log, own := Stamp(stolen + [on], time), LogEntry(time, on);
    OneEntry(own);
    OneCount(f, on.identity);
    if stolen == [] {
      assert log == [own];
    } else {
      OneEntry(log[0]);
      OneCount(f, stolen[0].identity);
      assert log == [log[0]] + [own];
      LogsJoin([log[0]], [own]);
    }
  }

  lemma NoteOnBalances(f: Filter, e: Engine, id: Identity, velocity: real, time: nat)
    requires EngineOk(e) && ValidIdentity(id) && 0.0 <= velocity <= 1.0
    ensures
      var s := DispatchNoteOn(e, id, velocity);
      var log := Stamp(s.happened, time);
      Balanced(f, e, s.engine, log) && Started(log) == [id]
  {
    hide SlotsOk, GenerationsDiffer, PoolOk, StartVoice, Started, Ended, Count;
    var s := DispatchNoteOn(e, id, velocity);
    var allocation := Allocate(PoolOf(e), id).1;
    TallyReplaced(f, e.slots, allocation.index, s.engine.slots[allocation.index], |e.slots|);
    var n := |s.happened| - 1;
    assert s.happened == s.happened[..n] + [s.happened[n]];
    NoteOnRecords(f, s.happened[..n], s.happened[n], time);
  }

  /** The identities a body asks to start, by CLAP event or by MIDI message. */
  function NoteOns(body: Body): seq<Identity> {
    match body
    case NoteOnEvent(address, velocity, told) => if ValidNoteOn(address, velocity) then [address] else []
    case Midi(port, status, data1, data2, answers) =>
      if MidiStartsNote(port, status, data1, data2) then [NoteFor(status % 16, data1)] else []
    case _ => []
  }

  lemma MidiBalances(f: Filter, e: Engine, port: int, status: Byte, data1: Byte, data2: Byte, answers: Answers,
                     time: nat)
    requires EngineOk(e)
    ensures
      var s := DispatchMidi(e, port, status, data1, data2, answers);
      var log := Stamp(s.happened, time);
      && Balanced(f, e, s.engine, log)
      && (s.ok ==> Started(log) == NoteOns(Midi(port, status, data1, data2, answers)))
  {
    hide SlotsOk, GenerationsDiffer, PoolOk, Sweep, DispatchNoteOn, DispatchController, Balanced, Started;
    var channel := status % 16;
    var message := MessageOf(port, status, data1, data2, answers);
    var accepted := AllTaken(port, status, data1, data2, answers);
    UpdateBalances(f, e, message, time);
    PassBalances(f, e, OffMatching(NoteFor(channel, data1)), time);
    if Permitted(DeferMatching(NoteFor(channel, data1)), e.pedals) {
      PassBalances(f, e, DeferMatching(NoteFor(channel, data1)), time);
    }
    if status - channel == 0xb0 {
      ControllerBalances(f, e, channel, message, data1, data2, accepted, time);
    }
    if status - channel == 0x90 && data1 <= 127 && 0 < data2 <= 127 {
      var replayed := UpdateCore(e, message);
      var note := DispatchNoteOn(replayed.engine, NoteFor(channel, data1), data2 as real / 127.0);
      NoteOnBalances(f, replayed.engine, NoteFor(channel, data1), data2 as real / 127.0, time);
      BothBalance(f, e, replayed, note, time);
      assert [] + [NoteFor(channel, data1)] == [NoteFor(channel, data1)];
    }
  }

  lemma BothBalance(f: Filter, e: Engine, first: Step, second: Step, time: nat)
    requires Balanced(f, e, first.engine, Stamp(first.happened, time))
    requires Balanced(f, first.engine, second.engine, Stamp(second.happened, time))
    ensures
      var log := Stamp(Both(first, second).happened, time);
      && Balanced(f, e, second.engine, log)
      && Started(log) == Started(Stamp(first.happened, time)) + Started(Stamp(second.happened, time))
  {
    var a := Stamp(first.happened, time);
    var b := Stamp(second.happened, time);
    assert Stamp(first.happened + second.happened, time) == a + b;
    BalancedJoins(f, e, first.engine, second.engine, a, b);
    LogsJoin(a, b);
  }

  lemma UpdateBalances(f: Filter, e: Engine, event: CoreEvent, time: nat)
    requires EngineOk(e)
    ensures
      var s := UpdateCore(e, event);
      var log := Stamp(s.happened, time);
      Balanced(f, e, s.engine, log) && Started(log) == []
  {
    PassBalances(f, e, Update(event), time);
  }

  lemma LiftBalances(f: Filter, e: Engine, channel: nat, time: nat)
    requires EngineOk(e) && channel < 16
    ensures
      var s := LiftPedal(e, channel);
      var log := Stamp(s.happened, time);
      Balanced(f, e, s.engine, log) && Started(log) == []
  {
    PassBalances(f, e, PedalUp(channel), time);
  }

  lemma PedalChangeBalances(f: Filter, e: Engine, pedals: seq<bool>, time: nat)
    ensures Balanced(f, e, e.(pedals := pedals), Stamp([], time)) && Started(Stamp([], time)) == []
  {
    assert Stamp([], time) == [];
  }

  lemma ControllerBalances(f: Filter, e: Engine, channel: nat, message: CoreEvent, controller: int, value: int,
                           accepted: bool, time: nat)
    requires EngineOk(e) && channel < 16
    ensures
      var s := DispatchController(e, channel, message, controller, value, accepted);
      var log := Stamp(s.happened, time);
      Balanced(f, e, s.engine, log) && Started(log) == []
  {
    hide Sweep, SlotsOk, GenerationsDiffer, PoolOk, LiftPedal, UpdateCore, Balanced, Started;
    UpdateBalances(f, e, message, time);
    PassBalances(f, e, ChokeMatching(NoteFor(channel, -1)), time);
    PassBalances(f, e, OffMatching(NoteFor(channel, -1)), time);
    if e.pedals[channel] {
      PassBalances(f, e, DeferMatching(NoteFor(channel, -1)), time);
      LiftBalances(f, e, channel, time);
      var lifted := LiftPedal(e, channel);
      UpdateBalances(f, lifted.engine, message, time);
      BothBalance(f, e, lifted, OfferToSink(lifted.engine, message, accepted), time);
    }
    PedalChangeBalances(f, e, e.pedals[channel := 64 <= value], time);
  }

  lemma DispatchBalances(f: Filter, e: Engine, body: Body, time: nat)
    requires EngineOk(e)
    ensures
      var s := Dispatch(e, body);
      var log := Stamp(s.happened, time);
      Balanced(f, e, s.engine, log) && (s.ok ==> Started(log) == NoteOns(body))
  {
    hide EngineOk, Sweep, DispatchNoteOn, DispatchMidi, UpdateCore, Balanced, Started, MidiStartsNote;
    PedalChangeBalances(f, e, e.pedals, time);
    match body
    case NoHeader =>
    case Malformed =>
    case Foreign =>
    case NoteOnEvent(address, velocity, told) =>
      if ValidNoteOn(address, velocity) {
        NoteOnBalances(f, e, address, velocity.value, time);
      }
    case NoteOffEvent(address) => PassBalances(f, e, OffMatching(address), time);
    case NoteChokeEvent(address) => PassBalances(f, e, ChokeMatching(address), time);
    case Midi(port, status, data1, data2, answers) =>
      MidiBalances(f, e, port, status, data1, data2, answers, time);
    case Core(event, accepted) =>
      UpdateBalances(f, e, event, time);
      if event.SetAmpEnvelope? {
        EnvelopeIsNoNote(f, e, UpdateCore(e, event), event.envelope, time);
      }
  }

  lemma EnvelopeIsNoNote(f: Filter, e: Engine, s: Step, envelope: Envelope, time: nat)
    requires Balanced(f, e, s.engine, Stamp(s.happened, time))
    ensures Balanced(f, e, s.engine.(envelope := envelope), Stamp(s.happened, time))
  {
  }

  // ---- Runs -------------------------------------------------------------------------------------------

  function TickNoteOns(ticks: seq<Tick>): seq<Identity> {
    if ticks == [] then []
    else (if ticks[0].Input? then NoteOns(ticks[0].body) else []) + TickNoteOns(ticks[1..])
  }

  lemma TickBalances(f: Filter, e: Engine, now: nat, tick: Tick)
    requires EngineOk(e)
    ensures
      var r := RunTick(e, now, tick);
      && Balanced(f, e, r.engine, r.log)
      && (r.ok ==> Started(r.log) == if tick.Input? then NoteOns(tick.body) else [])
  {
    hide EngineOk, Sweep, Dispatch;
    match tick
    case Open => PassBalances(f, e, CompleteDeferred, now);
    case Frame(last) => PassBalances(f, e, Render(last), now + 1);
    case Input(body) => DispatchBalances(f, e, body, now);
    case Reject =>
  }

  lemma {:induction false} TicksBalance(f: Filter, e: Engine, now: nat, ticks: seq<Tick>)
    requires EngineOk(e)
    ensures
      var r := RunTicks(e, now, ticks);
      && Balanced(f, e, r.engine, r.log)
      && (r.ok ==> Started(r.log) == TickNoteOns(ticks))
    decreases |ticks|
  {
    hide EngineOk, RunTick, Balanced, Started;
    if ticks == [] {
      NothingBalances(f, e);
    } else {
      var first := RunTick(e, now, ticks[0]);
      TickBalances(f, e, now, ticks[0]);
      if first.ok {
        var later := now + Duration(ticks[0]);
        TicksBalance(f, first.engine, later, ticks[1..]);
        var rest := RunTicks(first.engine, later, ticks[1..]);
        BalancedJoins(f, e, first.engine, rest.engine, first.log, rest.log);
        LogsJoin(first.log, rest.log);
      }
    }
  }

  lemma NothingBalances(f: Filter, e: Engine)
    ensures Balanced(f, e, e, []) && Started([]) == []
  {
  }

  /** The NOTE_ONs of a list of events, in order. */
  function EventNoteOns(events: seq<Event>): seq<Identity> {
    if events == [] then [] else NoteOns(events[0].body) + EventNoteOns(events[1..])
  }

  function BlockNoteOns(blocks: seq<Block>): seq<Identity> {
    if blocks == [] then [] else EventNoteOns(blocks[0].events) + BlockNoteOns(blocks[1..])
  }

  lemma {:induction false} TickNoteOnsJoin(a: seq<Tick>, b: seq<Tick>)
    ensures TickNoteOns(a + b) == TickNoteOns(a) + TickNoteOns(b)
  {
    if a == [] {
      assert a + b == b;
    } else {
      assert (a + b)[1..] == a[1..] + b;
      TickNoteOnsJoin(a[1..], b);
    }
  }

  lemma {:induction false} FramesStartNothing(begin: nat, end: nat, block: nat)
    ensures TickNoteOns(FrameTicks(begin, end, block)) == []
    decreases end - begin
  {
    if begin < end {
      FramesStartNothing(begin + 1, end, block);
      assert FrameTicks(begin, end, block)[1..] == FrameTicks(begin + 1, end, block);
    }
  }

  lemma {:induction false} LoopNoteOns(cursor: nat, events: seq<Event>, block: nat)
    requires Timed(events, cursor, block)
    ensures TickNoteOns(LoopTicks(cursor, events, block)) == EventNoteOns(events)
    decreases |events|
  {
    hide TickNoteOns, NoteOns, FrameTicks;
    if events == [] {
      FramesStartNothing(cursor, block, block);
    } else {
      var t := events[0].time;
      var frames := FrameTicks(cursor, t, block);
      var input := [Input(events[0].body)];
      FramesStartNothing(cursor, t, block);
      LoopNoteOns(t, events[1..], block);
      TickNoteOnsJoin(frames + input, LoopTicks(t, events[1..], block));
      TickNoteOnsJoin(frames, input);
      OneTickNoteOns(input[0]);
    }
  }

  lemma OneTickNoteOns(tick: Tick)
    ensures TickNoteOns([tick]) == if tick.Input? then NoteOns(tick.body) else []
  {
    assert TickNoteOns([tick][1..]) == [];
  }

  lemma OneBlockNoteOns(b: Block)
    requires 0 < b.frames && Timed(b.events, 0, b.frames)
    ensures TickNoteOns(BlockTicks(b)) == EventNoteOns(b.events)
  {
    hide TickNoteOns, LoopTicks, EventNoteOns, Timed;
    LoopNoteOns(0, b.events, b.frames);
    TickNoteOnsJoin([Open], LoopTicks(0, b.events, b.frames));
    OneTickNoteOns(Open);
  }

  lemma {:induction false} BlocksNoteOns(blocks: seq<Block>)
    requires forall b :: b in blocks ==> 0 < b.frames && Timed(b.events, 0, b.frames)
    ensures TickNoteOns(AllTicks(blocks)) == BlockNoteOns(blocks)
  {
    hide NoteOns, BlockTicks, EventNoteOns, Timed;
    if blocks != [] {
      assert forall c :: c in blocks[1..] ==> c in blocks;
      BlocksNoteOns(blocks[1..]);
      OneBlockNoteOns(blocks[0]);
      TickNoteOnsJoin(BlockTicks(blocks[0]), AllTicks(blocks[1..]));
    }
  }

  lemma {:induction false} BlocksSucceedIff(e: Engine, blocks: seq<Block>)
    requires EngineOk(e)
    ensures RunBlocks(e, blocks).ok <==>
              forall b :: b in blocks ==> 0 < b.frames && StreamAccepted(b.events, 0, b.frames)
    decreases |blocks|
  {
    hide EngineOk, Process, StreamAccepted;
    if blocks != [] {
      BlockSucceedsIff(e, blocks[0]);
      assert forall b :: b in blocks <==> b == blocks[0] || b in blocks[1..];
      var first := Process(e, blocks[0].frames, blocks[0].events);
      if first.ok {
        BlocksSucceedIff(first.engine, blocks[1..]);
      }
    }
  }

  /** Conservation over any blocks, failed or not, for every identity and for all notes together:
      what sounded before and what was started is what sounds now and what has ended. */
  lemma NotesAreConserved(e: Engine, blocks: seq<Block>, f: Filter)
    requires EngineOk(e)
    ensures
      var r := RunBlocks(e, blocks);
      Sounding(f, e) + Count(f, Started(r.log)) == Sounding(f, r.engine) + Count(f, Ended(r.log))
  {
    hide EngineOk, RunTicks, RunBlocks, AllTicks;
    BlocksUnroll(e, blocks);
    TicksBalance(f, e, 0, AllTicks(blocks));
  }

  /** The notes started by a successful run are exactly the valid NOTE_ONs of its input, in order. */
  lemma StartedAreTheNoteOns(e: Engine, blocks: seq<Block>)
    requires EngineOk(e) && RunBlocks(e, blocks).ok
    ensures Started(RunBlocks(e, blocks).log) == BlockNoteOns(blocks)
  {
    hide EngineOk, RunTicks, RunBlocks, AllTicks;
    BlocksUnroll(e, blocks);
    TicksBalance(None, e, 0, AllTicks(blocks));
    BlocksSucceedIff(e, blocks);
    BlocksNoteOns(blocks);
  }

  // ---- Times of the records of one block -----------------------------------------------------------------

  /** Non-decreasing from `from` on, and below `below`. */
  ghost predicate Ordered(log: seq<LogEntry>, from: nat, below: nat) {
    && (forall i :: 0 <= i < |log| ==> from <= log[i].time < below)
    && (forall i, j :: 0 <= i < j < |log| ==> log[i].time <= log[j].time)
  }

  lemma {:induction false} RangeOrdered(e: Engine, begin: nat, end: nat, block: nat)
    requires EngineOk(e) && begin <= end <= block
    ensures Ordered(RenderRange(e, begin, end, block).log, begin, if end == 0 then 1 else end + 1)
    ensures end == block ==> Ordered(RenderRange(e, begin, end, block).log, begin, block)
    decreases end - begin
  {
    hide EngineOk, Sweep;
    if begin < end {
      var first := RenderFrame(e, begin, block);
      if begin + 1 >= block {
        LastFrameIsSilent(e);
      }
      RangeOrdered(first.engine, begin + 1, end, block);
    }
  }

  lemma LastFrameIsSilent(e: Engine)
    requires EngineOk(e)
    ensures Sweep(e, Render(true)).happened == []
  {
    RenderLastRecordsNothing(e.slots, |e.slots|, e.generation, e.pedals);
  }

  lemma {:induction false} RenderLastRecordsNothing(slots: seq<Slot>, n: nat, upTo: nat, pedals: seq<bool>)
    requires SlotsOk(slots, upTo, pedals) && n <= |slots|
    ensures Happened(slots, Render(true), n) == []
  {
    if n > 0 {
      RenderLastRecordsNothing(slots, n - 1, upTo, pedals);
      StepAccount(slots[n - 1], Render(true), upTo, pedals);
    }
  }

  lemma {:induction false} LoopOrdered(e: Engine, cursor: nat, events: seq<Event>, block: nat)
    requires EngineOk(e) && cursor <= block
    ensures Ordered(ProcessFrom(e, cursor, events, block).log, cursor, block)
    decreases |events|
  {
    hide EngineOk, RenderRange, Dispatch;
    if events == [] {
      RangeOrdered(e, cursor, block, block);
    } else if !events[0].body.NoHeader? && cursor <= events[0].time < block {
      var t := events[0].time;
      RangeOrdered(e, cursor, t, block);
      var segment := RenderRange(e, cursor, t, block);
      var dispatched := Then(segment, DispatchAt(segment.engine, events[0]));
      if dispatched.ok {
        LoopOrdered(dispatched.engine, t, events[1..], block);
      }
    }
  }

  /** Within a block the records, NOTE_ENDs among them, come in time order and strictly inside it. */
  lemma BlockRecordsOrdered(e: Engine, b: Block)
    requires EngineOk(e)
    ensures Ordered(Process(e, b.frames, b.events).log, 0, b.frames)
  {
    hide EngineOk, Sweep, ProcessFrom;
    if 0 < b.frames {
      LoopOrdered(CompleteDeferredReleases(e).engine, 0, b.events, b.frames);
    }
  }
}
