/** Runs over blocks, unrolled into single steps in absolute time, so that a property of all runs
    needs one induction. */
module VoiceTicks {
  import opened Wrappers
  import opened VoicePool
  import opened VoiceSlots
  import opened VoiceMachine
  import opened BlockPartition

  datatype Tick =
    | Open               // the completion pass that opens a block
    | Frame(last: bool)  // one rendered frame
    | Input(body: Body)
    | Reject             // an event the loop refuses, or an empty block

  function Duration(tick: Tick): nat { if tick.Frame? then 1 else 0 }

  function Elapsed(ticks: seq<Tick>): nat {
    if ticks == [] then 0 else Duration(ticks[0]) + Elapsed(ticks[1..])
  }

  ghost function RunTick(e: Engine, now: nat, tick: Tick): (r: Run)
    requires EngineOk(e)
    ensures EngineOk(r.engine)
  {
    match tick
    case Open =>
      var s := Sweep(e, CompleteDeferred);
      Run(s.engine, [], Stamp(s.happened, now), s.ok)
    case Frame(last) =>
      var s := Sweep(e, Render(last));
      Run(s.engine, [Mix(e.slots, |e.slots|)], Stamp(s.happened, now + 1), s.ok)
    case Input(body) =>
      var s := Dispatch(e, body);
      Run(s.engine, [], Stamp(s.happened, now), s.ok)
    case Reject => Run(e, [], [], false)
  }

  ghost function RunTicks(e: Engine, now: nat, ticks: seq<Tick>): (r: Run)
    requires EngineOk(e)
    ensures EngineOk(r.engine)
    decreases |ticks|
  {
    if ticks == [] then Run(e, [], [], true)
    else
      var first := RunTick(e, now, ticks[0]);
      if !first.ok then first
      else Then(first, RunTicks(first.engine, now + Duration(ticks[0]), ticks[1..]))
  }

  // ---- The steps of a block -----------------------------------------------------------------------

  function FrameTicks(begin: nat, end: nat, block: nat): seq<Tick>
    decreases end - begin
  {
    if begin >= end then [] else [Frame(begin + 1 >= block)] + FrameTicks(begin + 1, end, block)
  }

  function LoopTicks(cursor: nat, events: seq<Event>, block: nat): seq<Tick>
    decreases |events|
  {
    if events == [] then FrameTicks(cursor, block, block)
    else if events[0].body.NoHeader? || events[0].time >= block || events[0].time < cursor then [Reject]
    else
      FrameTicks(cursor, events[0].time, block) + [Input(events[0].body)]
      + LoopTicks(events[0].time, events[1..], block)
  }

  function BlockTicks(b: Block): seq<Tick> {
    if b.frames == 0 then [Reject] else [Open] + LoopTicks(0, b.events, b.frames)
  }

  function AllTicks(blocks: seq<Block>): seq<Tick> {
    if blocks == [] then [] else BlockTicks(blocks[0]) + AllTicks(blocks[1..])
  }

  // ---- Unrolling ------------------------------------------------------------------------------------

  ghost function AndThen(first: Run, now: nat, ticks: seq<Tick>): Run
    requires EngineOk(first.engine)
  {
    if first.ok then Then(first, RunTicks(first.engine, now, ticks)) else first
  }

  lemma {:induction false} TicksJoin(e: Engine, now: nat, a: seq<Tick>, b: seq<Tick>)
    requires EngineOk(e)
    ensures RunTicks(e, now, a + b) == AndThen(RunTicks(e, now, a), now + Elapsed(a), b)
    decreases |a|
  {
    hide EngineOk, RunTick;
    if a == [] {
      assert a + b == b;
      NothingFirst(e, RunTicks(e, now, b));
    } else {
      assert (a + b)[1..] == a[1..] + b;
      var first := RunTick(e, now, a[0]);
      if first.ok {
        var later := now + Duration(a[0]);
        TicksJoin(first.engine, later, a[1..], b);
        var rest := RunTicks(first.engine, later, a[1..]);
        if rest.ok {
          ThenAssociates(first, rest, RunTicks(rest.engine, now + Elapsed(a), b));
        }
      }
    }
  }

  lemma {:induction false} TicksShift(e: Engine, now: nat, ticks: seq<Tick>, offset: nat)
    requires EngineOk(e)
    ensures RunTicks(e, now + offset, ticks) == Shift(RunTicks(e, now, ticks), offset)
    decreases |ticks|
  {
    hide EngineOk, Sweep, Dispatch;
    if ticks != [] {
      var first := RunTick(e, now, ticks[0]);
      assert RunTick(e, now + offset, ticks[0]) == Shift(first, offset);
      if first.ok {
        TicksShift(first.engine, now + Duration(ticks[0]), ticks[1..], offset);
        ShiftThen(first, RunTicks(first.engine, now + Duration(ticks[0]), ticks[1..]), offset);
      }
    }
  }

  lemma {:induction false} ElapsedJoin(a: seq<Tick>, b: seq<Tick>)
    ensures Elapsed(a + b) == Elapsed(a) + Elapsed(b)
  {
    if a == [] {
      assert a + b == b;
    } else {
      assert (a + b)[1..] == a[1..] + b;
      ElapsedJoin(a[1..], b);
    }
  }

  lemma {:induction false} FramesUnroll(e: Engine, begin: nat, end: nat, block: nat)
    requires EngineOk(e)
    ensures RunTicks(e, begin, FrameTicks(begin, end, block)) == RenderRange(e, begin, end, block)
    ensures begin <= end ==> Elapsed(FrameTicks(begin, end, block)) == end - begin
    decreases end - begin
  {
    hide EngineOk, Sweep;
    if begin < end {
      var first := RenderFrame(e, begin, block);
      assert RunTick(e, begin, Frame(begin + 1 >= block)) == first;
      assert FrameTicks(begin, end, block)[1..] == FrameTicks(begin + 1, end, block);
      FramesUnroll(first.engine, begin + 1, end, block);
    }
  }

  lemma OneTick(e: Engine, now: nat, tick: Tick)
    requires EngineOk(e)
    ensures RunTicks(e, now, [tick]) == RunTick(e, now, tick)
  {
    hide EngineOk, RunTick;
    var first := RunTick(e, now, tick);
    if first.ok {
      assert RunTicks(first.engine, now + Duration(tick), []) == Run(first.engine, [], [], true);
      assert first.frames + [] == first.frames && first.log + [] == first.log;
      assert [tick][1..] == [];
    }
  }

  lemma {:induction false} FramesElapse(begin: nat, end: nat, block: nat)
    requires begin <= end
    ensures Elapsed(FrameTicks(begin, end, block)) == end - begin
    decreases end - begin
  {
    if begin < end {
      FramesElapse(begin + 1, end, block);
      assert FrameTicks(begin, end, block)[1..] == FrameTicks(begin + 1, end, block);
    }
  }

  lemma {:induction false} LoopElapses(cursor: nat, events: seq<Event>, block: nat)
    requires Timed(events, cursor, block) && cursor <= block
    ensures Elapsed(LoopTicks(cursor, events, block)) == block - cursor
    decreases |events|
  {
    if events == [] {
      FramesElapse(cursor, block, block);
    } else {
      var t := events[0].time;
      var input := [Input(events[0].body)];
      assert Elapsed(input) == Elapsed(input[1..]) == 0;
      FramesElapse(cursor, t, block);
      LoopElapses(t, events[1..], block);
      ElapsedJoin(FrameTicks(cursor, t, block), input);
      ElapsedJoin(FrameTicks(cursor, t, block) + input, LoopTicks(t, events[1..], block));
    }
  }

  lemma {:induction false} LoopUnrolls(e: Engine, cursor: nat, events: seq<Event>, block: nat)
    requires EngineOk(e) && cursor <= block
    ensures RunTicks(e, cursor, LoopTicks(cursor, events, block)) == ProcessFrom(e, cursor, events, block)
    decreases |events|
  {
    hide EngineOk, RenderRange, Dispatch, RunTicks, FrameTicks;
    if events == [] {
      FramesUnroll(e, cursor, block, block);
    } else if events[0].body.NoHeader? || events[0].time >= block || events[0].time < cursor {
      OneTick(e, cursor, Reject);
    } else {
      var t := events[0].time;
      var frames := FrameTicks(cursor, t, block);
      var input := [Input(events[0].body)];
      var rest := LoopTicks(t, events[1..], block);
      FramesUnroll(e, cursor, t, block);
      var segment := RenderRange(e, cursor, t, block);
      OneTick(segment.engine, t, input[0]);
      TicksJoin(e, cursor, frames, input);
      TicksJoin(e, cursor, frames + input, rest);
      ElapsedJoin(frames, input);
      assert Elapsed(input) == Elapsed(input[1..]) == 0;
      var dispatched := Then(segment, DispatchAt(segment.engine, events[0]));
      if dispatched.ok {
        LoopUnrolls(dispatched.engine, t, events[1..], block);
      }
    }
  }

  lemma BlockUnrolls(e: Engine, b: Block)
    requires EngineOk(e)
    ensures RunTicks(e, 0, BlockTicks(b)) == Process(e, b.frames, b.events)
    ensures Process(e, b.frames, b.events).ok ==> Elapsed(BlockTicks(b)) == b.frames
  {
    hide EngineOk, RunTicks, Sweep, LoopTicks, Elapsed, ProcessFrom, CompleteDeferredReleases, DispatchAt, RenderFrame;
    if b.frames == 0 {
      OneTick(e, 0, Reject);
    } else {
      OpenedUnrolls(e, b);
      SuccessElapses(CompleteDeferredReleases(e).engine, b);
      OpenTakesNoTime();
      ElapsedJoin([Open], LoopTicks(0, b.events, b.frames));
    }
  }

  lemma OpenIsCompletion(e: Engine)
    requires EngineOk(e)
    ensures RunTick(e, 0, Open) == CompleteDeferredReleases(e) && CompleteDeferredReleases(e).ok
  {
    hide EngineOk, Sweep;
  }

  lemma OpenedUnrolls(e: Engine, b: Block)
    requires EngineOk(e)
    ensures
      var completed := CompleteDeferredReleases(e);
      RunTicks(e, 0, [Open] + LoopTicks(0, b.events, b.frames))
        == Then(completed, ProcessFrom(completed.engine, 0, b.events, b.frames))
  {
    hide EngineOk, RunTick, RunTicks, LoopTicks, Elapsed, ProcessFrom, CompleteDeferredReleases;
    OneTick(e, 0, Open);
    OpenIsCompletion(e);
    OpenTakesNoTime();
    TicksJoin(e, 0, [Open], LoopTicks(0, b.events, b.frames));
    LoopUnrolls(CompleteDeferredReleases(e).engine, 0, b.events, b.frames);
  }

  lemma SuccessElapses(e: Engine, b: Block)
    requires EngineOk(e)
    ensures ProcessFrom(e, 0, b.events, b.frames).ok ==> Elapsed(LoopTicks(0, b.events, b.frames)) == b.frames
  {
    hide EngineOk, ProcessFrom, LoopTicks, Elapsed;
    SucceedsIff(e, 0, b.events, b.frames);
    if ProcessFrom(e, 0, b.events, b.frames).ok {
      LoopElapses(0, b.events, b.frames);
    }
  }

  lemma NoTicks(e: Engine)
    requires EngineOk(e)
    ensures RunTicks(e, 0, []) == Run(e, [], [], true) && Elapsed([]) == 0
  {
  }

  lemma OpenTakesNoTime()
    ensures Elapsed([Open]) == 0
  {
    assert Elapsed([Open][1..]) == 0;
  }

  lemma {:induction false} BlocksUnroll(e: Engine, blocks: seq<Block>)
    requires EngineOk(e)
    ensures RunBlocks(e, blocks) == RunTicks(e, 0, AllTicks(blocks))
    ensures RunBlocks(e, blocks).ok ==> Elapsed(AllTicks(blocks)) == TotalFrames(blocks)
    decreases |blocks|
  {
    hide EngineOk, Process, BlockTicks, RunTicks, Elapsed;
    if blocks == [] {
      NoTicks(e);
    } else {
      var first := Process(e, blocks[0].frames, blocks[0].events);
      BlockUnrolls(e, blocks[0]);
      TicksJoin(e, 0, BlockTicks(blocks[0]), AllTicks(blocks[1..]));
      ElapsedJoin(BlockTicks(blocks[0]), AllTicks(blocks[1..]));
      if first.ok {
        BlocksUnroll(first.engine, blocks[1..]);
        TicksShift(first.engine, 0, AllTicks(blocks[1..]), blocks[0].frames);
      }
    }
  }

  function TotalFrames(blocks: seq<Block>): nat {
    if blocks == [] then 0 else blocks[0].frames + TotalFrames(blocks[1..])
  }

  // ---- When a block succeeds ---------------------------------------------------------------------------

  /** What the event loop and the core-event sink accept. */
  predicate BodyAccepted(body: Body) {
    match body
    case NoHeader => false
    case Malformed => false
    case NoteOnEvent(address, velocity, told) => ValidNoteOn(address, velocity) ==> told
    case Midi(port, status, data1, data2, answers) =>
      && AllTaken(port, status, data1, data2, answers)
      && (MidiStartsNote(port, status, data1, data2) ==> answers.told)
    case Core(event, accepted) => accepted && (event.SetAmpEnvelope? ==> EnvelopeOk(event.envelope))
    case _ => true
  }

  predicate StreamAccepted(events: seq<Event>, cursor: nat, block: nat) {
    && Timed(events, cursor, block)
    && forall event :: event in events ==> BodyAccepted(event.body)
  }

  lemma {:induction false} SucceedsIff(e: Engine, cursor: nat, events: seq<Event>, block: nat)
    requires EngineOk(e) && cursor <= block
    ensures ProcessFrom(e, cursor, events, block).ok <==> StreamAccepted(events, cursor, block)
    decreases |events|
  {
    hide EngineOk, RenderRange, DispatchMidi, AllTaken, DispatchNoteOn, Sweep, UpdateCore;
    if events != [] && !events[0].body.NoHeader? && cursor <= events[0].time < block {
      var segment := RenderRange(e, cursor, events[0].time, block);
      var dispatched := Then(segment, DispatchAt(segment.engine, events[0]));
      assert dispatched.ok <==> BodyAccepted(events[0].body);
      assert forall event :: event in events <==> event == events[0] || event in events[1..];
      if dispatched.ok {
        SucceedsIff(dispatched.engine, events[0].time, events[1..], block);
      }
    }
  }

  /** A block fails only because of its input or because the core-event sink refuses something: no
      internal check of scheduler, lifecycle or engine ever fails. */
  lemma BlockSucceedsIff(e: Engine, b: Block)
    requires EngineOk(e)
    ensures Process(e, b.frames, b.events).ok <==> 0 < b.frames && StreamAccepted(b.events, 0, b.frames)
  {
    hide EngineOk, Sweep, ProcessFrom;
    if 0 < b.frames {
      SucceedsIff(CompleteDeferredReleases(e).engine, 0, b.events, b.frames);
    }
  }
}
