/** Who is heard in a frame, and how loud. The frames of a run are read against its records alone: a voice
    is in a frame exactly while its NOTE_ON is behind and its end ahead, at the level that the closed form
    of its envelope has for the samples since it was started and, if it was, let go. */
module RenderedFrames {
  import opened Wrappers
  import opened VoicePool
  import opened VoiceSlots
  import opened VoiceMachine
  import opened BlockPartition
  import opened VoiceTicks
  import opened ReleaseTiming
  import opened ReleaseFromInput
  import opened EnvelopeShape

  // ---- The step that renders a frame -----------------------------------------------------------------

  function FrameTick(ticks: seq<Tick>, f: nat): (p: nat)
    requires f < Elapsed(ticks)
    ensures p < |ticks|
  {
    if ticks[0].Frame? && f == 0 then 0 else 1 + FrameTick(ticks[1..], f - Duration(ticks[0]))
  }

  lemma {:induction false} FrameTickRenders(ticks: seq<Tick>, f: nat)
    requires f < Elapsed(ticks)
    ensures
      var p := FrameTick(ticks, f);
      ticks[p].Frame? && Elapsed(ticks[..p]) == f
  {
    if !ticks[0].Frame? || f != 0 {
      FrameTickRenders(ticks[1..], f - Duration(ticks[0]));
      var q := FrameTick(ticks[1..], f - Duration(ticks[0]));
      assert ticks[..q + 1][1..] == ticks[1..][..q];
    }
  }

  lemma {:induction false} FramesCounted(e: Engine, now: nat, ticks: seq<Tick>)
    requires EngineOk(e) && RunTicks(e, now, ticks).ok
    ensures |RunTicks(e, now, ticks).frames| == Elapsed(ticks)
    decreases |ticks|
  {
    hide EngineOk, Sweep, Dispatch;
    if ticks != [] {
      FramesCounted(RunTick(e, now, ticks[0]).engine, now + Duration(ticks[0]), ticks[1..]);
    }
  }

  lemma FrameStep(e: Engine, now: nat, last: bool)
    requires EngineOk(e)
    ensures RunTick(e, now, Frame(last)).frames == [Mix(e.slots, |e.slots|)]
  {
  }

  lemma NextInPrefix<T>(before: seq<T>, x: T, all: seq<T>)
    requires before + [x] <= all
    ensures |before| < |all| && all[|before|] == x
  {
    assert (before + [x])[|before|] == all[|before|];
  }

  lemma FrameIsMix(e: Engine, ticks: seq<Tick>, f: nat)
    requires EngineOk(e) && RunTicks(e, 0, ticks).ok && f < Elapsed(ticks)
    ensures
      var p := FrameTick(ticks, f);
      var slots := RunTicks(e, 0, ticks[..p]).engine.slots;
      f < |RunTicks(e, 0, ticks).frames| && RunTicks(e, 0, ticks).frames[f] == Mix(slots, |slots|)
  {
    hide EngineOk, RunTick, RunTicks, Elapsed, FrameTick, Mix;
    FrameTickRenders(ticks, f);
    var p := FrameTick(ticks, f);
    StepReached(e, ticks, p);
    var r, m := RunTicks(e, 0, ticks), RunTicks(e, 0, ticks[..p]);
    FramesCounted(e, 0, ticks[..p]);
    FrameStep(m.engine, f, ticks[p].last);
    NextInPrefix(m.frames, Mix(m.engine.slots, |m.engine.slots|), r.frames);
  }

  /** Nothing waits for the next block when a frame is rendered. */
  lemma {:induction false} NothingWaits(e: Engine, now: nat, ticks: seq<Tick>, p: nat, waiting: bool)
    requires EngineOk(e) && Legal(ticks, waiting) && (waiting || NoneDeferred(e.slots))
    requires p < |ticks| && ticks[p].Frame? && RunTicks(e, now, ticks[..p]).ok
    ensures NoneDeferred(RunTicks(e, now, ticks[..p]).engine.slots)
    decreases p
  {
    hide EngineOk, Sweep, Dispatch, NoneDeferred;
    if 0 < p {
      var first := RunTick(e, now, ticks[0]);
      assert ticks[..p][1..] == ticks[1..][..p - 1] && ticks[..p][0] == ticks[0];
      var later := now + Duration(ticks[0]);
      match ticks[0]
      case Open =>
        SweepDefersNothing(e, CompleteDeferred);
        NothingWaits(first.engine, later, ticks[1..], p - 1, false);
      case Frame(last) =>
        if !last {
          SweepDefersNothing(e, Render(false));
        }
        NothingWaits(first.engine, later, ticks[1..], p - 1, last);
      case Input(body) =>
        if !waiting {
          DispatchDefersNothing(e, body);
        }
        NothingWaits(first.engine, later, ticks[1..], p - 1, waiting);
    }
  }

  // ---- The times of the records ----------------------------------------------------------------------

  predicate Within(log: seq<LogEntry>, from: nat, to: nat) {
    forall j :: 0 <= j < |log| ==> from <= log[j].time <= to
  }

  lemma {:induction false} RecordsWithin(e: Engine, now: nat, ticks: seq<Tick>)
    requires EngineOk(e)
    ensures Within(RunTicks(e, now, ticks).log, now, now + Elapsed(ticks))
    ensures ticks != [] && ticks[0].Frame? ==> Within(RunTicks(e, now, ticks).log, now + 1, now + Elapsed(ticks))
    decreases |ticks|
  {
    hide EngineOk, Sweep, Dispatch;
    if ticks != [] {
      var first := RunTick(e, now, ticks[0]);
      RecordsWithin(first.engine, now + Duration(ticks[0]), ticks[1..]);
    }
  }

  /** `c` holds what `b` holds, and about everything else the times it holds are in the given range. */
  ghost predicate Extends(b: Book, c: Book, from: nat, to: nat) {
    && (forall g :: g in b.on ==> g in c.on && c.on[g] == b.on[g])
    && (forall g :: g in b.off ==> g in c.off && c.off[g] == b.off[g])
    && (forall g :: g in b.end ==> g in c.end && c.end[g] == b.end[g])
    && (forall g :: g in c.on && g !in b.on ==> from <= c.on[g].time <= to)
    && (forall g :: g in c.off && g !in b.off ==> from <= c.off[g] <= to)
    && (forall g :: g in c.end && g !in b.end ==> from <= c.end[g].time <= to)
  }

  lemma {:induction false} BookExtends(b: Book, log: seq<LogEntry>, from: nat, to: nat)
    requires Within(log, from, to) && AuditAll(b, log).Some?
    ensures Extends(b, AuditAll(b, log).value, from, to)
    decreases |log|
  {
    if log != [] {
      var next := Audit(b, log[0]).value;
      BookExtends(next, log[1..], from, to);
    }
  }

  // ---- The mix of the voices -------------------------------------------------------------------------

  predicate Audible(s: Slot) { s.voice.active && !s.voice.deferred }

  lemma {:induction false} MixTakesVoices(slots: seq<Slot>, n: nat, q: nat)
    requires n <= |slots| && q < |Mix(slots, n)|
    ensures
      var c := Mix(slots, n)[q];
      && c.index < n && c.dsp == slots[c.index].voice.dsp && c.level == slots[c.index].voice.level
      && Audible(slots[c.index])
  {
    if q < |Mix(slots, n - 1)| {
      MixTakesVoices(slots, n - 1, q);
    }
  }

  lemma {:induction false} MixTakesAll(slots: seq<Slot>, n: nat, i: nat) returns (q: nat)
    requires i < n <= |slots| && Audible(slots[i])
    ensures q < |Mix(slots, n)| && Mix(slots, n)[q].index == i
  {
    if i == n - 1 {
      q := |Mix(slots, n - 1)|;
    } else {
      q := MixTakesAll(slots, n - 1, i);
    }
  }

  /** The generations of the voices in the mix. */
  function Voices(slots: seq<Slot>, n: nat): set<nat>
    requires n <= |slots|
  {
    set i | 0 <= i < n && Audible(slots[i]) :: slots[i].voice.generation
  }

  lemma OneMoreVoice(slots: seq<Slot>, n: nat)
    requires n < |slots| && GenerationsDiffer(slots)
    requires forall i :: 0 <= i < |slots| && slots[i].voice.active ==> slots[i].owner.Some?
    ensures
      var g := slots[n].voice.generation;
      && (Audible(slots[n]) ==> g !in Voices(slots, n))
      && Voices(slots, n + 1) == Voices(slots, n) + if Audible(slots[n]) then {g} else {}
  {
    forall i | 0 <= i < n && Audible(slots[i]) && Audible(slots[n])
      ensures slots[i].voice.generation != slots[n].voice.generation
    {
    }
  }

  lemma {:induction false} MixTakesEachOnce(slots: seq<Slot>, n: nat)
    requires n <= |slots| && GenerationsDiffer(slots)
    requires forall i :: 0 <= i < |slots| && slots[i].voice.active ==> slots[i].owner.Some?
    ensures |Mix(slots, n)| == |Voices(slots, n)|
  {
    hide GenerationsDiffer;
    if n == 0 {
      assert Voices(slots, n) == {};
    } else {
      MixTakesEachOnce(slots, n - 1);
      var g := slots[n - 1].voice.generation;
      OneMoreVoice(slots, n - 1);
      assert Audible(slots[n - 1]) ==> |Voices(slots, n - 1) + {g}| == |Voices(slots, n - 1)| + 1;
    }
  }

  // ---- The moment of a frame -------------------------------------------------------------------------

  /** The book up to a frame agrees with the engine that the frame is mixed from, and later records are of
      later samples. */
  ghost predicate MomentOf(m: Engine, b: Book, c: Book, first: Envelope, f: nat, total: nat) {
    && EngineOk(m) && NoneDeferred(m.slots) && AllShaped(m, first)
    && Agrees(b, m, f)
    && Extends(BLANK, b, 0, f) && Extends(b, c, f + 1, total)
  }

  lemma Moment(voices: nat, envelope: Envelope, blocks: seq<Block>, f: nat) returns (m: Engine, b: Book)
    requires 1 <= voices <= MAX_VOICES && EnvelopeOk(envelope) && RunBlocks(NewEngine(voices, envelope), blocks).ok
    requires f < TotalFrames(blocks)
    ensures
      var r := RunBlocks(NewEngine(voices, envelope), blocks);
      && MomentOf(m, b, BookOf(r.log), envelope, f, TotalFrames(blocks))
      && f < |r.frames| && r.frames[f] == Mix(m.slots, |m.slots|)
  {
    hide EngineOk, RunBlocks, RunTicks, AllTicks, AuditAll, Elapsed, Agrees, NewEngine, Mix, NoneDeferred, AllShaped,
      Extends, FrameTick, Within, TotalFrames;
    var e, ticks := NewEngine(voices, envelope), AllTicks(blocks);
    BlocksUnroll(e, blocks);
    FrameTickRenders(ticks, f);
    FrameIsMix(e, ticks, f);
    var p := FrameTick(ticks, f);
    m := RunTicks(e, 0, ticks[..p]).engine;
    PrefixOfRun(e, ticks, p);
    BookUpTo(voices, envelope, blocks, p);
    b := AuditAll(BLANK, RunTicks(e, 0, ticks[..p]).log).value;
    FreshIsShaped(voices, envelope);
    TicksKeepShapes(e, 0, ticks[..p], envelope);
    BlocksLegal(blocks);
    NothingWaits(e, 0, ticks, p, true);
    RunsPassTheAudit(voices, envelope, blocks);
    BookSplits(e, ticks, p);
  }

  lemma FreshIsShaped(voices: nat, envelope: Envelope)
    requires 1 <= voices <= MAX_VOICES && EnvelopeOk(envelope)
    ensures AllShaped(NewEngine(voices, envelope), envelope)
  {
  }

  lemma PrefixOfRun(e: Engine, ticks: seq<Tick>, p: nat)
    requires EngineOk(e) && p <= |ticks| && RunTicks(e, 0, ticks).ok
    ensures RunTicks(e, 0, ticks[..p]).ok
  {
    hide EngineOk, RunTicks;
    assert ticks == ticks[..p] + ticks[p..];
    RunSplits(e, ticks[..p], ticks[p..]);
  }

  lemma BookSplits(e: Engine, ticks: seq<Tick>, p: nat)
    requires EngineOk(e) && p < |ticks| && ticks[p].Frame? && RunTicks(e, 0, ticks).ok
    requires AuditAll(BLANK, RunTicks(e, 0, ticks).log).Some?
    ensures
      var f := Elapsed(ticks[..p]);
      var book := AuditAll(BLANK, RunTicks(e, 0, ticks[..p]).log);
      && book.Some? && Extends(BLANK, book.value, 0, f)
      && Extends(book.value, BookOf(RunTicks(e, 0, ticks).log), f + 1, Elapsed(ticks))
  {
    hide EngineOk, RunTicks, AuditAll, Elapsed, Extends, Within;
    var first, rest := ticks[..p], ticks[p..];
    assert ticks == first + rest && rest[0] == ticks[p];
    RunSplits(e, first, rest);
    var m, f := RunTicks(e, 0, first), Elapsed(first);
    var after := RunTicks(m.engine, f, rest);
    AuditJoin(BLANK, m.log, after.log);
    ElapsedJoin(first, rest);
    RecordsWithin(e, 0, first);
    RecordsWithin(m.engine, f, rest);
    BookExtends(BLANK, m.log, 0, f);
    BookExtends(AuditAll(BLANK, m.log).value, after.log, f + 1, Elapsed(ticks));
  }

  // ---- Who is heard, and how loud --------------------------------------------------------------------

  /** The voice of generation `g` has been started when frame `f` is rendered, and not ended. */
  predicate SoundsAt(book: Book, g: nat, f: nat) {
    g in book.on && book.on[g].time <= f && (g in book.end ==> f < book.end[g].time)
  }

  /** `c` is what the voice of generation `g` contributes to frame `f`: its level is that of the envelope in
      force at its NOTE_ON after the samples since then, or since it was let go. */
  predicate HeardAs(book: Book, g: nat, f: nat, c: Contribution, first: Envelope)
    requires SoundsAt(book, g, f)
  {
    var origin, start := Origin(c.dsp), book.on[g].time;
    && origin.Started? && origin.identity == book.on[g].identity && FramesOf(c.dsp) == f - start
    && var envelope := EnvelopeAfter(first, origin.defaults);
       && book.on[g].release == envelope.release
       && if g in book.off && book.off[g] <= f then
            && start <= book.off[g] && f - book.off[g] < envelope.release
            && c.level == ReleasedLevel(HeldLevel(envelope, origin.velocity, book.off[g] - start),
                                        envelope.release, f - book.off[g])
          else c.level == HeldLevel(envelope, origin.velocity, f - start)
  }

  lemma HeardByTheBook(b: Book, s: Slot, first: Envelope, f: nat)
    requires s.owner == Some(s.voice.identity) && !s.voice.deferred
    requires SlotAgrees(b, s, f) && Shaped(s.voice, first) && Extends(BLANK, b, 0, f)
    ensures
      var v := s.voice;
      && SoundsAt(b, v.generation, f)
      && forall i: nat :: HeardAs(b, v.generation, f, Contribution(i, v.dsp, v.level), first)
  {
    hide EnvelopeOk, HeldLevel, ReleasedLevel, EnvelopeAfter, Slope;
  }

  /** What is recorded after a frame says nothing about it. */
  lemma HeardAnyway(b: Book, c: Book, g: nat, f: nat, x: Contribution, first: Envelope, total: nat)
    requires Extends(b, c, f + 1, total) && SoundsAt(b, g, f) && HeardAs(b, g, f, x, first)
    ensures SoundsAt(c, g, f) && HeardAs(c, g, f, x, first)
  {
    hide EnvelopeOk, HeldLevel, ReleasedLevel, EnvelopeAfter, Origin, FramesOf;
  }

  lemma VoiceIsHeard(m: Engine, b: Book, c: Book, first: Envelope, f: nat, total: nat, i: nat)
    requires MomentOf(m, b, c, first, f, total) && i < |m.slots| && m.slots[i].owner.Some?
    ensures
      var v := m.slots[i].voice;
      && SoundsAt(c, v.generation, f)
      && HeardAs(c, v.generation, f, Contribution(i, v.dsp, v.level), first)
  {
    hide GenerationsDiffer, PoolOk, EnvelopeOk, SoundsAt, HeardAs, Shaped, SlotAgrees, Extends;
    assert SlotOk(m.slots[i], m.generation, m.pedals);
    HeardByTheBook(b, m.slots[i], first, f);
    var v := m.slots[i].voice;
    HeardAnyway(b, c, v.generation, f, Contribution(i, v.dsp, v.level), first, total);
  }

  lemma SlotsHaveOwners(m: Engine)
    requires EngineOk(m)
    ensures forall i :: 0 <= i < |m.slots| ==> (m.slots[i].voice.active <==> m.slots[i].owner.Some?)
  {
    hide GenerationsDiffer, PoolOk;
    forall i | 0 <= i < |m.slots| ensures m.slots[i].voice.active <==> m.slots[i].owner.Some? {
      assert SlotOk(m.slots[i], m.generation, m.pedals);
    }
  }

  /** Everything in a frame is a voice that sounds, at the level that its envelope has by then. */
  lemma FramesHoldSoundingVoices(voices: nat, envelope: Envelope, blocks: seq<Block>, f: nat, q: nat)
    requires 1 <= voices <= MAX_VOICES && EnvelopeOk(envelope) && RunBlocks(NewEngine(voices, envelope), blocks).ok
    requires f < TotalFrames(blocks)
    ensures
      var r := RunBlocks(NewEngine(voices, envelope), blocks);
      && f < |r.frames|
      && (q < |r.frames[f]| ==>
            exists g :: SoundsAt(BookOf(r.log), g, f) && HeardAs(BookOf(r.log), g, f, r.frames[f][q], envelope))
  {
    hide EngineOk, RunBlocks, Mix, NoneDeferred, AllShaped, Agrees, Extends, SoundsAt, HeardAs, EnvelopeOk, NewEngine,
      BookOf;
    var m, b := Moment(voices, envelope, blocks, f);
    var r := RunBlocks(NewEngine(voices, envelope), blocks);
    if q < |r.frames[f]| {
      MixTakesVoices(m.slots, |m.slots|, q);
      SlotsHaveOwners(m);
      var c := r.frames[f][q];
      VoiceIsHeard(m, b, BookOf(r.log), envelope, f, TotalFrames(blocks), c.index);
      assert c == Contribution(c.index, m.slots[c.index].voice.dsp, m.slots[c.index].voice.level);
    }
  }

  /** Every voice that sounds is in the frame, at that level. */
  lemma SoundingVoicesAreInTheFrame(voices: nat, envelope: Envelope, blocks: seq<Block>, f: nat, g: nat)
    requires 1 <= voices <= MAX_VOICES && EnvelopeOk(envelope) && RunBlocks(NewEngine(voices, envelope), blocks).ok
    requires f < TotalFrames(blocks)
    requires SoundsAt(BookOf(RunBlocks(NewEngine(voices, envelope), blocks).log), g, f)
    ensures
      var r := RunBlocks(NewEngine(voices, envelope), blocks);
      && f < |r.frames|
      && exists q :: 0 <= q < |r.frames[f]| && HeardAs(BookOf(r.log), g, f, r.frames[f][q], envelope)
  {
    hide EngineOk, RunBlocks, Mix, AllShaped, HeardAs, EnvelopeOk, NewEngine, BookOf, TotalFrames, BookOk;
    var m, b := Moment(voices, envelope, blocks, f);
    var r := RunBlocks(NewEngine(voices, envelope), blocks);
    var c := BookOf(r.log);
    assert g in b.on && g !in b.end;
    assert Lives(m.slots, g);
    var i :| 0 <= i < |m.slots| && m.slots[i].owner.Some? && m.slots[i].voice.generation == g;
    SlotsHaveOwners(m);
    var q := MixTakesAll(m.slots, |m.slots|, i);
    MixTakesVoices(m.slots, |m.slots|, q);
    VoiceIsHeard(m, b, c, envelope, f, TotalFrames(blocks), i);
    assert r.frames[f][q] == Contribution(i, m.slots[i].voice.dsp, m.slots[i].voice.level);
  }

  /** The generations that sound when frame `f` is rendered. */
  function SoundingAt(book: Book, f: nat): set<nat> {
    set g | g in book.on && SoundsAt(book, g, f)
  }

  /** No voice is in a frame twice. */
  lemma EachVoiceOnce(voices: nat, envelope: Envelope, blocks: seq<Block>, f: nat)
    requires 1 <= voices <= MAX_VOICES && EnvelopeOk(envelope) && RunBlocks(NewEngine(voices, envelope), blocks).ok
    requires f < TotalFrames(blocks)
    ensures
      var r := RunBlocks(NewEngine(voices, envelope), blocks);
      f < |r.frames| && |r.frames[f]| == |SoundingAt(BookOf(r.log), f)|
  {
    hide RunBlocks, Mix, AllShaped, EnvelopeOk, NewEngine, BookOf, TotalFrames, BookOk, PoolOk, SlotsOk, HeardAs;
    var m, b := Moment(voices, envelope, blocks, f);
    var r := RunBlocks(NewEngine(voices, envelope), blocks);
    var c := BookOf(r.log);
    SlotsHaveOwners(m);
    MixTakesEachOnce(m.slots, |m.slots|);
    forall g ensures g in Voices(m.slots, |m.slots|) <==> g in SoundingAt(c, f) {
      if g in Voices(m.slots, |m.slots|) {
        var i :| 0 <= i < |m.slots| && Audible(m.slots[i]) && m.slots[i].voice.generation == g;
        VoiceIsHeard(m, b, c, envelope, f, TotalFrames(blocks), i);
      }
      if g in SoundingAt(c, f) {
        assert g in b.on && g !in b.end;
        assert Lives(m.slots, g);
        var i :| 0 <= i < |m.slots| && m.slots[i].owner.Some? && m.slots[i].voice.generation == g;
        assert Audible(m.slots[i]);
      }
    }
    assert Voices(m.slots, |m.slots|) == SoundingAt(c, f);
  }

  // ---- The stages ------------------------------------------------------------------------------------

  /** The voice was started and has the stage that its envelope has for the samples since then. */
  predicate StagedByTheClock(b: Book, v: Voice, first: Envelope, now: nat) {
    var g, origin := v.generation, Origin(v.dsp);
    && g in b.on && b.on[g].time <= now && origin.Started?
    && (g in b.off <==> v.stage == Release)
    && var k, e := now - b.on[g].time, EnvelopeAfter(first, origin.defaults);
       g !in b.off ==>
         && (v.stage == Attack <==> k < e.attack)
         && (v.stage == Decay <==> e.attack <= k < e.attack + e.decay)
         && (v.stage == Sustain <==> e.attack + e.decay <= k)
  }

  lemma StageOf(b: Book, s: Slot, first: Envelope, now: nat)
    requires s.owner.Some? && SlotAgrees(b, s, now) && Shaped(s.voice, first)
    ensures StagedByTheClock(b, s.voice, first, now)
  {
    hide EnvelopeOk, HeldLevel, ReleasedLevel, EnvelopeAfter, Slope;
  }

  /** After any successful run a sounding voice that was not let go is in its attack for exactly the attack
      time since its NOTE_ON, in its decay for exactly the decay time after that, and then sustains; one
      that was let go is in its release. */
  lemma StagesByTheClock(voices: nat, envelope: Envelope, blocks: seq<Block>, i: nat)
    requires 1 <= voices <= MAX_VOICES && EnvelopeOk(envelope)
    requires
      var r := RunBlocks(NewEngine(voices, envelope), blocks);
      r.ok && i < |r.engine.slots| && r.engine.slots[i].owner.Some?
    ensures
      var r := RunBlocks(NewEngine(voices, envelope), blocks);
      StagedByTheClock(BookOf(r.log), r.engine.slots[i].voice, envelope, TotalFrames(blocks))
  {
    hide EngineOk, RunBlocks, RunTicks, AllTicks, AuditAll, EnvelopeOk, NewEngine, TotalFrames, SlotAgrees, Shaped,
      BookOk, Complete, StagedByTheClock;
    var r := RunBlocks(NewEngine(voices, envelope), blocks);
    BlocksUnroll(NewEngine(voices, envelope), blocks);
    RunsPassTheAudit(voices, envelope, blocks);
    FreshIsShaped(voices, envelope);
    TicksKeepShapes(NewEngine(voices, envelope), 0, AllTicks(blocks), envelope);
    StageOf(BookOf(r.log), r.engine.slots[i], envelope, TotalFrames(blocks));
  }
}
