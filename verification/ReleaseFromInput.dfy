/** From an event of the input to the end of the voice: when a note-off or a choke in some block of a run
    takes effect, in absolute samples, and what follows from it. */
module ReleaseFromInput {
  import opened Wrappers
  import opened Bytes
  import opened VoicePool
  import opened VoiceSlots
  import opened VoiceMachine
  import opened BlockPartition
  import opened VoiceTicks
  import opened NoteConservation
  import opened ReleaseTiming
  import opened NoteDispatch

  // ---- Where an event is among the steps of the run -----------------------------------------------------

  function LoopIndex(cursor: nat, events: seq<Event>, block: nat, j: nat): nat
    requires j < |events|
    decreases j
  {
    |FrameTicks(cursor, events[0].time, block)|
    + if j == 0 then 0 else 1 + LoopIndex(events[0].time, events[1..], block, j - 1)
  }

  lemma {:induction false} EventInLoop(cursor: nat, events: seq<Event>, block: nat, j: nat)
    requires j < |events| && Timed(events, cursor, block)
    ensures
      var ticks := LoopTicks(cursor, events, block);
      var p := LoopIndex(cursor, events, block, j);
      && cursor <= events[j].time < block
      && p < |ticks| && ticks[p] == Input(events[j].body) && Elapsed(ticks[..p]) == events[j].time - cursor
    decreases j
  {
    hide FrameTicks;
    var t := events[0].time;
    var frames, input := FrameTicks(cursor, t, block), [Input(events[0].body)];
    var rest := LoopTicks(t, events[1..], block);
    var ticks := LoopTicks(cursor, events, block);
    assert ticks == frames + input + rest;
    FramesElapse(cursor, t, block);
    if j == 0 {
      assert ticks[..|frames|] == frames;
    } else {
      EventInLoop(t, events[1..], block, j - 1);
      var q := LoopIndex(t, events[1..], block, j - 1);
      assert ticks[..|frames| + 1 + q] == frames + input + rest[..q];
      assert Elapsed(input) == Elapsed(input[1..]) == 0;
      ElapsedJoin(frames, input);
      ElapsedJoin(frames + input, rest[..q]);
    }
  }

  function TickIndex(blocks: seq<Block>, n: nat, j: nat): nat
    requires n < |blocks| && j < |blocks[n].events|
    decreases n
  {
    if n == 0 then 1 + LoopIndex(0, blocks[0].events, blocks[0].frames, j)
    else |BlockTicks(blocks[0])| + TickIndex(blocks[1..], n - 1, j)
  }

  function EventTime(blocks: seq<Block>, n: nat, j: nat): nat
    requires n < |blocks| && j < |blocks[n].events|
  {
    TotalFrames(blocks[..n]) + blocks[n].events[j].time
  }

  lemma BlockElapses(b: Block)
    requires 0 < b.frames && Timed(b.events, 0, b.frames)
    ensures Elapsed(BlockTicks(b)) == b.frames
  {
    LoopElapses(0, b.events, b.frames);
    OpenTakesNoTime();
    ElapsedJoin([Open], LoopTicks(0, b.events, b.frames));
  }

  lemma {:induction false} EventInRun(blocks: seq<Block>, n: nat, j: nat)
    requires n < |blocks| && j < |blocks[n].events|
    requires forall k :: 0 <= k <= n ==> 0 < blocks[k].frames && Timed(blocks[k].events, 0, blocks[k].frames)
    ensures
      var ticks := AllTicks(blocks);
      var p := TickIndex(blocks, n, j);
      && p < |ticks| && ticks[p] == Input(blocks[n].events[j].body)
      && Elapsed(ticks[..p]) == EventTime(blocks, n, j)
    decreases n
  {
    hide LoopTicks, LoopIndex, Timed;
    var first, rest := BlockTicks(blocks[0]), AllTicks(blocks[1..]);
    var ticks := AllTicks(blocks);
    if n == 0 {
      var events, frames := blocks[0].events, blocks[0].frames;
      EventInLoop(0, events, frames, j);
      var loop, q := LoopTicks(0, events, frames), LoopIndex(0, events, frames, j);
      assert ticks[..1 + q] == [Open] + loop[..q];
      OpenTakesNoTime();
      ElapsedJoin([Open], loop[..q]);
      assert blocks[..0] == [];
    } else {
      EventInRun(blocks[1..], n - 1, j);
      var q := TickIndex(blocks[1..], n - 1, j);
      BlockElapses(blocks[0]);
      assert ticks[..|first| + q] == first + rest[..q];
      ElapsedJoin(first, rest[..q]);
      assert blocks[..n][1..] == blocks[1..][..n - 1] && blocks[..n][0] == blocks[0];
    }
  }

  // ---- The run up to a step --------------------------------------------------------------------------

  /** The steps from some point on: if they succeed, so does the first, and they begin with its records. */
  lemma FirstStep(e: Engine, now: nat, ticks: seq<Tick>)
    requires EngineOk(e) && ticks != [] && RunTicks(e, now, ticks).ok
    ensures
      var r, step := RunTicks(e, now, ticks), RunTick(e, now, ticks[0]);
      step.ok && step.log <= r.log && step.frames <= r.frames
  {
    hide EngineOk, RunTick;
  }

  lemma PrefixOfBoth<T>(before: seq<T>, step: seq<T>, rest: seq<T>)
    requires step <= rest
    ensures before + step <= before + rest
  {
  }

  lemma RunSplits(e: Engine, first: seq<Tick>, rest: seq<Tick>)
    requires EngineOk(e) && RunTicks(e, 0, first + rest).ok
    ensures
      var r, m := RunTicks(e, 0, first + rest), RunTicks(e, 0, first);
      var after := RunTicks(m.engine, Elapsed(first), rest);
      m.ok && after.ok && r.log == m.log + after.log && r.frames == m.frames + after.frames
  {
    hide EngineOk, RunTicks, Elapsed;
    TicksJoin(e, 0, first, rest);
  }

  /** A run that succeeded reached each of its steps, and its records begin with those up to there. */
  lemma StepReached(e: Engine, ticks: seq<Tick>, p: nat)
    requires EngineOk(e) && p < |ticks| && RunTicks(e, 0, ticks).ok
    ensures
      var r, m := RunTicks(e, 0, ticks), RunTicks(e, 0, ticks[..p]);
      var step := RunTick(m.engine, Elapsed(ticks[..p]), ticks[p]);
      m.ok && step.ok && m.log + step.log <= r.log && m.frames + step.frames <= r.frames
  {
    hide EngineOk, RunTick, RunTicks, Elapsed;
    var first, rest := ticks[..p], ticks[p..];
    assert ticks == first + rest && rest[0] == ticks[p];
    RunSplits(e, first, rest);
    var m, now := RunTicks(e, 0, first), Elapsed(first);
    FirstStep(m.engine, now, rest);
    var step, after := RunTick(m.engine, now, ticks[p]), RunTicks(m.engine, now, rest);
    PrefixOfBoth(m.log, step.log, after.log);
    PrefixOfBoth(m.frames, step.frames, after.frames);
  }

  lemma {:induction false} LegalPrefix(ticks: seq<Tick>, p: nat, waiting: bool)
    requires p <= |ticks| && Legal(ticks, waiting)
    ensures Legal(ticks[..p], waiting)
    decreases p
  {
    if 0 < p {
      assert ticks[..p][0] == ticks[0] && ticks[..p][1..] == ticks[1..][..p - 1];
      match ticks[0]
      case Open => LegalPrefix(ticks[1..], p - 1, false);
      case Frame(last) => LegalPrefix(ticks[1..], p - 1, last);
      case Input(_) => LegalPrefix(ticks[1..], p - 1, waiting);
      case Reject =>
    }
  }

  lemma BlankAgrees(voices: nat, envelope: Envelope)
    requires 1 <= voices <= MAX_VOICES && EnvelopeOk(envelope)
    ensures Agrees(BLANK, NewEngine(voices, envelope), 0)
  {
  }

  /** The book of the records up to a step agrees with the engine that the step finds. */
  lemma BookUpTo(voices: nat, envelope: Envelope, blocks: seq<Block>, p: nat)
    requires 1 <= voices <= MAX_VOICES && EnvelopeOk(envelope)
    requires p <= |AllTicks(blocks)| && RunTicks(NewEngine(voices, envelope), 0, AllTicks(blocks)[..p]).ok
    ensures
      var m := RunTicks(NewEngine(voices, envelope), 0, AllTicks(blocks)[..p]);
      AuditAll(BLANK, m.log).Some? && Agrees(AuditAll(BLANK, m.log).value, m.engine, Elapsed(AllTicks(blocks)[..p]))
  {
    hide EngineOk, RunTicks, AllTicks, AuditAll, Legal, Agrees, Elapsed, NewEngine;
    var e := NewEngine(voices, envelope);
    BlankAgrees(voices, envelope);
    BlocksLegal(blocks);
    LegalPrefix(AllTicks(blocks), p, true);
    TicksAudit(BLANK, e, 0, AllTicks(blocks)[..p], true);
  }

  // ---- Let go at a step ------------------------------------------------------------------------------

  lemma {:induction false} RecordIsThere(happened: seq<Happening>, g: nat, h: Happening)
    requires h in RecordsOf(happened, g)
    ensures h in happened
  {
    if happened != [] {
      var n := |happened| - 1;
      if h in RecordsOf(happened[..n], g) {
        RecordIsThere(happened[..n], g, h);
      }
    }
  }

  /** What a step records about a voice is in the records of the run, at the time of the step. */
  lemma RecordedInRun(e: Engine, ticks: seq<Tick>, p: nat, g: nat, h: Happening)
    requires EngineOk(e) && p < |ticks| && RunTicks(e, 0, ticks).ok && ticks[p].Input?
    requires h in RecordsOf(Dispatch(RunTicks(e, 0, ticks[..p]).engine, ticks[p].body).happened, g)
    ensures LogEntry(Elapsed(ticks[..p]), h) in RunTicks(e, 0, ticks).log
  {
    hide EngineOk, RunTick, RunTicks, Dispatch, RecordsOf, Elapsed;
    StepReached(e, ticks, p);
    var r, m := RunTicks(e, 0, ticks), RunTicks(e, 0, ticks[..p]);
    var now := Elapsed(ticks[..p]);
    RecordIsThere(Dispatch(m.engine, ticks[p].body).happened, g, h);
    InputRecords(m.engine, now, ticks[p].body, h);
    InTheRest(m.log, RunTick(m.engine, now, ticks[p]).log, r.log, LogEntry(now, h));
  }

  lemma InputRecords(e: Engine, now: nat, body: Body, h: Happening)
    requires EngineOk(e) && h in Dispatch(e, body).happened
    ensures LogEntry(now, h) in RunTick(e, now, Input(body)).log
  {
    hide EngineOk, Dispatch;
    var happened := Dispatch(e, body).happened;
    var k :| 0 <= k < |happened| && happened[k] == h;
    assert RunTick(e, now, Input(body)).log[k] == LogEntry(now, h);
  }

  lemma InTheRest<T>(before: seq<T>, step: seq<T>, all: seq<T>, x: T)
    requires before + step <= all && x in step
    ensures x in all
  {
    var k :| 0 <= k < |step| && step[k] == x;
    assert (before + step)[|before| + k] == all[|before| + k];
  }

  /** The voice sounds for exactly `release` samples after `t`, unless it is stolen or choked before. */
  ghost predicate SoundsUntil(r: Run, total: nat, g: nat, t: nat, release: nat) {
    || (exists k :: 0 <= k < |r.engine.slots| && StillReleasing(r.engine.slots[k], g, release)
          && total + r.engine.slots[k].voice.remaining == t + release)
    || (exists k :: 0 <= k < |r.log| && EndsBy(r.log[k], g, t + release))
  }

  /** If a step lets a voice go, its release takes exactly the time the voice had then. */
  lemma LetGoAtStep(voices: nat, envelope: Envelope, blocks: seq<Block>, p: nat, i: nat)
    requires 1 <= voices <= MAX_VOICES && EnvelopeOk(envelope) && RunBlocks(NewEngine(voices, envelope), blocks).ok
    requires p < |AllTicks(blocks)| && AllTicks(blocks)[p].Input?
    requires
      var m := RunTicks(NewEngine(voices, envelope), 0, AllTicks(blocks)[..p]).engine;
      && i < |m.slots| && m.slots[i].owner.Some?
      && RecordsOf(Dispatch(m, AllTicks(blocks)[p].body).happened, m.slots[i].voice.generation)
         == [Off(m.slots[i].voice.generation)]
    ensures
      var r := RunBlocks(NewEngine(voices, envelope), blocks);
      var v := RunTicks(NewEngine(voices, envelope), 0, AllTicks(blocks)[..p]).engine.slots[i].voice;
      var t := Elapsed(AllTicks(blocks)[..p]);
      && LogEntry(t, Off(v.generation)) in r.log
      && SoundsUntil(r, TotalFrames(blocks), v.generation, t, v.release)
  {
    hide EngineOk, RunBlocks, RunTicks, AllTicks, Dispatch, RecordsOf, Elapsed, AuditAll, EnvelopeOk, NewEngine;
    var e, ticks := NewEngine(voices, envelope), AllTicks(blocks);
    BlocksUnroll(e, blocks);
    var r, m := RunBlocks(e, blocks), RunTicks(e, 0, ticks[..p]);
    var v, t := m.engine.slots[i].voice, Elapsed(ticks[..p]);
    RecordedInRun(e, ticks, p, v.generation, Off(v.generation));
    var j :| 0 <= j < |r.log| && r.log[j] == LogEntry(t, Off(v.generation));
    ReleaseTakesItsTime(voices, envelope, blocks, j);
    StepReached(e, ticks, p);
    BookUpTo(voices, envelope, blocks, p);
    assert SlotAgrees(AuditAll(BLANK, m.log).value, m.engine.slots[i], t);
    SameStart(voices, envelope, blocks, m.log, v.generation);
  }

  /** What is on the books about the start of a voice stays there. */
  lemma SameStart(voices: nat, envelope: Envelope, blocks: seq<Block>, log: seq<LogEntry>, g: nat)
    requires 1 <= voices <= MAX_VOICES && EnvelopeOk(envelope)
    requires log <= RunBlocks(NewEngine(voices, envelope), blocks).log
    requires AuditAll(BLANK, log).Some? && g in AuditAll(BLANK, log).value.on
    ensures
      var book := BookOf(RunBlocks(NewEngine(voices, envelope), blocks).log);
      g in book.on && book.on[g] == AuditAll(BLANK, log).value.on[g]
  {
    hide EngineOk, RunBlocks, AuditAll, EnvelopeOk, NewEngine;
    RunsPassTheAudit(voices, envelope, blocks);
    var all := RunBlocks(NewEngine(voices, envelope), blocks).log;
    var rest := all[|log|..];
    assert all == log + rest;
    AuditJoin(BLANK, log, rest);
    AcceptedLogsReflect(AuditAll(BLANK, log).value, rest);
  }

  // ---- From the input event --------------------------------------------------------------------------

  /** The engine as the `j`-th event of block `n` finds it. */
  ghost function EngineAt(voices: nat, envelope: Envelope, blocks: seq<Block>, n: nat, j: nat): (e: Engine)
    requires 1 <= voices <= MAX_VOICES && EnvelopeOk(envelope)
    requires n < |blocks| && j < |blocks[n].events| && TickIndex(blocks, n, j) <= |AllTicks(blocks)|
    ensures EngineOk(e)
  {
    RunTicks(NewEngine(voices, envelope), 0, AllTicks(blocks)[..TickIndex(blocks, n, j)]).engine
  }

  lemma EventIsReached(voices: nat, envelope: Envelope, blocks: seq<Block>, n: nat, j: nat)
    requires 1 <= voices <= MAX_VOICES && EnvelopeOk(envelope) && RunBlocks(NewEngine(voices, envelope), blocks).ok
    requires n < |blocks| && j < |blocks[n].events|
    ensures
      var p := TickIndex(blocks, n, j);
      && p < |AllTicks(blocks)| && AllTicks(blocks)[p] == Input(blocks[n].events[j].body)
      && Elapsed(AllTicks(blocks)[..p]) == EventTime(blocks, n, j)
  {
    hide EngineOk, RunBlocks, AllTicks, Elapsed, TickIndex, NewEngine, Timed;
    BlocksSucceedIff(NewEngine(voices, envelope), blocks);
    forall k | 0 <= k <= n ensures 0 < blocks[k].frames && Timed(blocks[k].events, 0, blocks[k].frames) {
      assert blocks[k] in blocks;
    }
    EventInRun(blocks, n, j);
  }

  /** A valid NOTE_OFF in a successful run, wherever it stands: each voice it addresses that is not in its
      release yet is let go at the absolute sample of the event and sounds for exactly the release time it
      copied at its NOTE_ON, unless it is stolen or choked before. */
  lemma NoteOffTakesItsTime(voices: nat, envelope: Envelope, blocks: seq<Block>, n: nat, j: nat, i: nat)
    requires 1 <= voices <= MAX_VOICES && EnvelopeOk(envelope) && RunBlocks(NewEngine(voices, envelope), blocks).ok
    requires n < |blocks| && j < |blocks[n].events| && blocks[n].events[j].body.NoteOffEvent?
    requires TickIndex(blocks, n, j) <= |AllTicks(blocks)|
    requires
      var a := blocks[n].events[j].body.address;
      var s := EngineAt(voices, envelope, blocks, n, j).slots;
      && -1 <= a.noteId && -1 <= a.port <= 0 && -1 <= a.channel <= 15 && -1 <= a.key <= 127
      && i < |s| && s[i].owner.Some? && Addressed(a, s[i].owner.value) && s[i].voice.stage != Release
    ensures
      var r := RunBlocks(NewEngine(voices, envelope), blocks);
      var v := EngineAt(voices, envelope, blocks, n, j).slots[i].voice;
      var t := EventTime(blocks, n, j);
      && LogEntry(t, Off(v.generation)) in r.log
      && SoundsUntil(r, TotalFrames(blocks), v.generation, t, v.release)
  {
    hide EngineOk, RunBlocks, RunTicks, AllTicks, Dispatch, RecordsOf, Elapsed, EnvelopeOk, NewEngine, TickIndex;
    EventIsReached(voices, envelope, blocks, n, j);
    NoteOffLetsGo(EngineAt(voices, envelope, blocks, n, j), blocks[n].events[j].body.address, i);
    LetGoAtStep(voices, envelope, blocks, TickIndex(blocks, n, j), i);
  }

  /** The same for a MIDI note-off, or a note-on with velocity 0, while the pedal of its channel is up. */
  lemma MidiNoteOffTakesItsTime(voices: nat, envelope: Envelope, blocks: seq<Block>, n: nat, j: nat, i: nat)
    requires 1 <= voices <= MAX_VOICES && EnvelopeOk(envelope) && RunBlocks(NewEngine(voices, envelope), blocks).ok
    requires n < |blocks| && j < |blocks[n].events| && blocks[n].events[j].body.Midi?
    requires TickIndex(blocks, n, j) <= |AllTicks(blocks)|
    requires
      var m := blocks[n].events[j].body;
      var e := EngineAt(voices, envelope, blocks, n, j);
      && m.port == 0 && m.data1 <= 127 && m.data2 <= 127
      && (0x80 <= m.status < 0x90 || (0x90 <= m.status < 0xa0 && m.data2 == 0))
      && |e.pedals| == 16 && !e.pedals[m.status % 16]
      && i < |e.slots| && OnChannel(e.slots[i], m.status % 16) && e.slots[i].owner.value.key == m.data1
      && e.slots[i].voice.stage != Release
    ensures
      var r := RunBlocks(NewEngine(voices, envelope), blocks);
      var v := EngineAt(voices, envelope, blocks, n, j).slots[i].voice;
      var t := EventTime(blocks, n, j);
      && LogEntry(t, Off(v.generation)) in r.log
      && SoundsUntil(r, TotalFrames(blocks), v.generation, t, v.release)
  {
    hide EngineOk, RunBlocks, RunTicks, AllTicks, DispatchMidi, RecordsOf, Elapsed, EnvelopeOk, NewEngine, TickIndex;
    EventIsReached(voices, envelope, blocks, n, j);
    var m := blocks[n].events[j].body;
    MidiNoteOff(EngineAt(voices, envelope, blocks, n, j), m.status, m.data1, m.data2, m.answers, i);
    LetGoAtStep(voices, envelope, blocks, TickIndex(blocks, n, j), i);
  }

  /** The same for a voice that the sustain pedal holds back, when the pedal goes up or all controllers
      are reset. */
  lemma PedalUpTakesItsTime(voices: nat, envelope: Envelope, blocks: seq<Block>, n: nat, j: nat, i: nat)
    requires 1 <= voices <= MAX_VOICES && EnvelopeOk(envelope) && RunBlocks(NewEngine(voices, envelope), blocks).ok
    requires n < |blocks| && j < |blocks[n].events| && blocks[n].events[j].body.Midi?
    requires TickIndex(blocks, n, j) <= |AllTicks(blocks)|
    requires
      var m := blocks[n].events[j].body;
      var s := EngineAt(voices, envelope, blocks, n, j).slots;
      && m.port == 0 && 0xb0 <= m.status < 0xc0
      && ((m.data1 == 64 && m.data2 < 64) || (m.data1 == 121 && m.data2 <= 127))
      && i < |s| && s[i].sustained && OnChannel(s[i], m.status - 0xb0) && s[i].voice.stage != Release
    ensures
      var r := RunBlocks(NewEngine(voices, envelope), blocks);
      var v := EngineAt(voices, envelope, blocks, n, j).slots[i].voice;
      var t := EventTime(blocks, n, j);
      && LogEntry(t, Off(v.generation)) in r.log
      && SoundsUntil(r, TotalFrames(blocks), v.generation, t, v.release)
  {
    hide EngineOk, RunBlocks, RunTicks, AllTicks, DispatchMidi, RecordsOf, Elapsed, EnvelopeOk, NewEngine, TickIndex;
    EventIsReached(voices, envelope, blocks, n, j);
    var m := blocks[n].events[j].body;
    PedalUpMessage(EngineAt(voices, envelope, blocks, n, j), m.status - 0xb0, m.data1, m.data2, m.answers, i);
    LetGoAtStep(voices, envelope, blocks, TickIndex(blocks, n, j), i);
  }

  /** A valid NOTE_CHOKE ends each voice it addresses at the absolute sample of the event. */
  lemma NoteChokeEndsAtOnce(voices: nat, envelope: Envelope, blocks: seq<Block>, n: nat, j: nat, i: nat)
    requires 1 <= voices <= MAX_VOICES && EnvelopeOk(envelope) && RunBlocks(NewEngine(voices, envelope), blocks).ok
    requires n < |blocks| && j < |blocks[n].events| && blocks[n].events[j].body.NoteChokeEvent?
    requires TickIndex(blocks, n, j) <= |AllTicks(blocks)|
    requires
      var a := blocks[n].events[j].body.address;
      var s := EngineAt(voices, envelope, blocks, n, j).slots;
      && -1 <= a.noteId && -1 <= a.port <= 0 && -1 <= a.channel <= 15 && -1 <= a.key <= 127
      && i < |s| && s[i].owner.Some? && Addressed(a, s[i].owner.value)
    ensures
      var r := RunBlocks(NewEngine(voices, envelope), blocks);
      var s := EngineAt(voices, envelope, blocks, n, j).slots[i];
      LogEntry(EventTime(blocks, n, j), End(s.voice.generation, s.owner.value, Choked)) in r.log
  {
    hide EngineOk, RunBlocks, RunTicks, AllTicks, Dispatch, RecordsOf, Elapsed, EnvelopeOk, NewEngine, TickIndex;
    EventIsReached(voices, envelope, blocks, n, j);
    var e, p := NewEngine(voices, envelope), TickIndex(blocks, n, j);
    var m := EngineAt(voices, envelope, blocks, n, j);
    NoteChokeEnds(m, blocks[n].events[j].body.address, i);
    BlocksUnroll(e, blocks);
    var g := m.slots[i].voice.generation;
    RecordedInRun(e, AllTicks(blocks), p, g, End(g, m.slots[i].owner.value, Choked));
  }
}
