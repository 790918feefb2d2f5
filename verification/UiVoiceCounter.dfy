/** The voice counter that the plug-in's proxy keeps for the user interface, from nothing but the note
    events it sees go in and come out. All NOTE_ONs of a block are counted before any of its NOTE_ENDs,
    yet the counter agrees with the engine after every block. */
module UiVoiceCounter {
  import opened Wrappers
  import opened VoicePool
  import opened VoiceSlots
  import opened VoiceMachine
  import opened BlockPartition
  import opened VoiceTicks
  import opened NoteConservation
  import opened VoiceEngines

  const DEFAULT_VOICES: nat := 16

  datatype Counters = Counters(active: nat, credits: nat)

  // ---- What is counted -------------------------------------------------------------------------

  /** A host block as the proxy passes it on: pending UI values are put in front at sample 0. */
  datatype HostBlock = HostBlock(frames: nat, uiValues: seq<Body>, events: seq<Event>)

  predicate UiValuesOnly(values: seq<Body>) {
    forall i :: 0 <= i < |values| ==> values[i].Core?
  }

  function Merged(b: HostBlock): Block {
    Block(b.frames, seq(|b.uiValues|, i requires 0 <= i < |b.uiValues| => Event(0, b.uiValues[i])) + b.events)
  }

  predicate SeenAsNoteOn(body: Body) {
    body.NoteOnEvent? && ValidNoteOn(body.address, body.velocity)
  }

  /** The NOTE_ONs the proxy sees among the first `n` events: raw MIDI notes are not. */
  function SeenNoteOns(events: seq<Event>, n: nat): nat
    requires n <= |events|
  {
    if n == 0 then 0 else SeenNoteOns(events, n - 1) + if SeenAsNoteOn(events[n - 1].body) then 1 else 0
  }

  function CountNoteOns(c: Counters, n: nat): Counters {
    if n == 0 then c
    else
      var d := CountNoteOns(c, n - 1);
      if d.active < DEFAULT_VOICES then d.(active := d.active + 1) else d.(credits := d.credits + 1)
  }

  function CountNoteEnd(c: Counters): Counters {
    if c.credits != 0 then c.(credits := c.credits - 1)
    else if c.active != 0 then c.(active := c.active - 1)
    else c
  }

  function CountNoteEnds(c: Counters, n: nat): Counters {
    if n == 0 then c else CountNoteEnd(CountNoteEnds(c, n - 1))
  }

  /** The counters after a block whose engine run recorded `log`. */
  function CountBlock(c: Counters, events: seq<Event>, log: seq<LogEntry>): Counters {
    CountNoteEnds(CountNoteOns(c, SeenNoteOns(events, |events|)), |Ended(log)|)
  }

  // ---- The proxy ---------------------------------------------------------------------------------

  class ProxyState {
    var activeVoicesRt: nat
    var fullNoteOnCreditsRt: nat

    constructor ()
      ensures Counted() == Counters(0, 0)
    {
      activeVoicesRt, fullNoteOnCreditsRt := 0, 0;
    }

    ghost function Counted(): Counters
      reads this
    {
      Counters(activeVoicesRt, fullNoteOnCreditsRt)
    }

    method ObserveInput(events: seq<Event>)
      modifies this
      ensures Counted() == CountNoteOns(old(Counted()), SeenNoteOns(events, |events|))
    {
      var i := 0;
      while i < |events|
        invariant 0 <= i <= |events|
        invariant Counted() == CountNoteOns(old(Counted()), SeenNoteOns(events, i))
      {
        var body := events[i].body;
        if body.NoteOnEvent? && ValidNoteOn(body.address, body.velocity) {
          if activeVoicesRt < DEFAULT_VOICES {
            activeVoicesRt := activeVoicesRt + 1;
          } else {
            fullNoteOnCreditsRt := fullNoteOnCreditsRt + 1;
          }
        }
        i := i + 1;
      }
    }

    method ObserveOutput()
      modifies this
      ensures Counted() == CountNoteEnd(old(Counted()))
    {
      if fullNoteOnCreditsRt != 0 {
        fullNoteOnCreditsRt := fullNoteOnCreditsRt - 1;
      } else if activeVoicesRt != 0 {
        activeVoicesRt := activeVoicesRt - 1;
      }
    }

    /** The engine's NOTE_ENDs pass through the proxy on their way to the host. */
    method ProxyProcess(engine: VoiceEngine, b: HostBlock, output: array<Frame>) returns (ok: bool)
      requires engine.Valid() && b.frames <= output.Length
      modifies this, engine`log, engine`defaults, engine`generationSerial, engine`envelope
      modifies engine.allocator, engine.allocator.slots, engine.sustainedReleases, engine.pedals
      modifies engine.lives, engine.voices, output
      ensures engine.Valid()
      ensures
        var r := Process(old(engine.State()), b.frames, Merged(b).events);
        && ok == r.ok && engine.State() == r.engine
        && Counted() == CountBlock(old(Counted()), b.events, r.log)
    {
      hide EngineOk, Process, Merged, VoiceEngine.SlotsNow;
      ghost var e := engine.State();
      var before := engine.log;
      ghost var r := Process(e, b.frames, Merged(b).events);
      ObserveInput(b.events);
      ghost var begun := Counted();
      ok := engine.ProcessWithEvents(Merged(b).events, b.frames, output);
      var recorded := engine.log;
      var i := |before|;
      while i < |recorded|
        invariant |before| <= i <= |recorded| && recorded == before + r.log
        invariant Counted() == CountNoteEnds(begun, |Ended(r.log[..i - |before|])|)
        invariant engine.Valid() && engine.State() == r.engine
      {
        assert r.log[..i - |before| + 1][..i - |before|] == r.log[..i - |before|];
        if recorded[i].what.End? {
          ObserveOutput();
        }
        i := i + 1;
      }
      assert r.log[..|r.log|] == r.log;
    }
  }

  // ---- The counters in closed form -------------------------------------------------------------------

  function Total(c: Counters): nat { c.active + c.credits }

  /** A credit is only given while all voices are taken. */
  predicate CountersOk(c: Counters) {
    c.active <= DEFAULT_VOICES && (0 < c.credits ==> c.active == DEFAULT_VOICES)
  }

  lemma {:induction false} NoteOnsAddUp(c: Counters, n: nat)
    ensures Total(CountNoteOns(c, n)) == Total(c) + n
  {
    if n != 0 {
      NoteOnsAddUp(c, n - 1);
    }
  }

  lemma {:induction false} NoteOnsKeepCountersOk(c: Counters, n: nat)
    requires CountersOk(c)
    ensures CountersOk(CountNoteOns(c, n))
  {
    if n != 0 {
      NoteOnsKeepCountersOk(c, n - 1);
    }
  }

  lemma {:induction false} NoteEndsTakeAway(c: Counters, n: nat)
    ensures Total(CountNoteEnds(c, n)) == if n <= Total(c) then Total(c) - n else 0
  {
    if n != 0 {
      NoteEndsTakeAway(c, n - 1);
    }
  }

  lemma {:induction false} NoteEndsKeepCountersOk(c: Counters, n: nat)
    requires CountersOk(c)
    ensures CountersOk(CountNoteEnds(c, n))
  {
    if n != 0 {
      NoteEndsKeepCountersOk(c, n - 1);
    }
  }

  // ---- Agreement with the engine ----------------------------------------------------------------------

  lemma {:induction false} CountAll(ids: seq<Identity>)
    ensures Count(None, ids) == |ids|
  {
    if ids != [] {
      CountAll(ids[..|ids| - 1]);
    }
  }

  lemma {:induction false} SoundingFits(slots: seq<Slot>, n: nat)
    requires n <= |slots|
    ensures Tally(None, slots, n) <= n
  {
    if n != 0 {
      SoundingFits(slots, n - 1);
    }
  }

  lemma OneBlockRun(e: Engine, b: Block)
    requires EngineOk(e)
    ensures Process(e, b.frames, b.events).ok ==> RunBlocks(e, [b]) == Process(e, b.frames, b.events)
  {
    hide EngineOk, Process;
    var first := Process(e, b.frames, b.events);
    assert [b][1..] == [];
    assert RunBlocks(first.engine, []) == Run(first.engine, [], [], true);
    assert ShiftLog([], b.frames) == [];
    assert first.frames + [] == first.frames && first.log + [] == first.log;
  }

  lemma {:induction false} NoteOnsJoin(a: seq<Event>, b: seq<Event>)
    ensures EventNoteOns(a + b) == EventNoteOns(a) + EventNoteOns(b)
  {
    hide NoteOns;
    if a == [] {
      assert a + b == b;
    } else {
      NoteOnsJoin(a[1..], b);
      assert (a + b)[0] == a[0] && (a + b)[1..] == a[1..] + b;
      assert NoteOns(a[0].body) + (EventNoteOns(a[1..]) + EventNoteOns(b)) == EventNoteOns(a) + EventNoteOns(b);
    }
  }

  lemma {:induction false} ValuesStartNothing(events: seq<Event>)
    requires forall i :: 0 <= i < |events| ==> events[i].body.Core?
    ensures EventNoteOns(events) == []
  {
    if events != [] {
      ValuesStartNothing(events[1..]);
    }
  }

  /** NOTE_ONs that reach the engine as raw MIDI among the first `n` events. */
  function RawNoteOns(events: seq<Event>, n: nat): nat
    requires n <= |events|
  {
    if n == 0 then 0
    else RawNoteOns(events, n - 1) +
         (var body := events[n - 1].body; if body.Midi? && NoteOns(body) != [] then 1 else 0)
  }

  lemma {:induction false} SeenOrRaw(events: seq<Event>, n: nat)
    requires n <= |events|
    ensures |EventNoteOns(events[..n])| == SeenNoteOns(events, n) + RawNoteOns(events, n)
  {
    if n != 0 {
      SeenOrRaw(events, n - 1);
      assert events[..n] == events[..n - 1] + [events[n - 1]];
      NoteOnsJoin(events[..n - 1], [events[n - 1]]);
      assert [events[n - 1]][1..] == [];
      assert EventNoteOns([events[n - 1]]) == NoteOns(events[n - 1].body) + EventNoteOns([events[n - 1]][1..]);
    }
  }

  /** What a successful block does to the number of sounding voices. */
  lemma BlockAccount(e: Engine, b: HostBlock)
    requires EngineOk(e) && UiValuesOnly(b.uiValues)
    requires Process(e, b.frames, Merged(b).events).ok
    ensures
      var r := Process(e, b.frames, Merged(b).events);
      Sounding(None, e) + SeenNoteOns(b.events, |b.events|) + RawNoteOns(b.events, |b.events|)
        == Sounding(None, r.engine) + |Ended(r.log)|
  {
    hide EngineOk, Process, NoteOns, RunBlocks, Sounding, Count;
    var r := Process(e, b.frames, Merged(b).events);
    OneBlockRun(e, Merged(b));
    NotesAreConserved(e, [Merged(b)], None);
    StartedAreTheNoteOns(e, [Merged(b)]);
    CountAll(NoteConservation.Started(r.log));
    CountAll(Ended(r.log));
    var values := Merged(b).events[..|b.uiValues|];
    assert Merged(b).events == values + b.events;
    NoteOnsJoin(values, b.events);
    ValuesStartNothing(values);
    assert [Merged(b)][1..] == [];
    assert BlockNoteOns([Merged(b)][1..]) == [];
    assert BlockNoteOns([Merged(b)]) == EventNoteOns(Merged(b).events) + [];
    SeenOrRaw(b.events, |b.events|);
    assert b.events[..|b.events|] == b.events;
  }

  /** The counters say exactly how many voices sound. */
  ghost predicate Exact(c: Counters, e: Engine) {
    c == Counters(Sounding(None, e), 0)
  }

  /** The counters miss `hidden` of the voices that sound. */
  ghost predicate Misses(c: Counters, e: Engine, hidden: nat) {
    hidden <= Sounding(None, e) && c == Counters(Sounding(None, e) - hidden, 0)
  }

  function Least(a: nat, b: nat): nat {
    if a <= b then a else b
  }

  function RawIn(b: HostBlock): nat {
    RawNoteOns(b.events, |b.events|)
  }

  /** A raw MIDI note is missed, and the gap never exceeds what still sounds. */
  lemma BlockMisses(e: Engine, c: Counters, b: HostBlock, hidden: nat)
    requires EngineOk(e) && |e.slots| == DEFAULT_VOICES && UiValuesOnly(b.uiValues) && Misses(c, e, hidden)
    requires Process(e, b.frames, Merged(b).events).ok
    ensures
      var r := Process(e, b.frames, Merged(b).events);
      && |r.engine.slots| == DEFAULT_VOICES
      && Misses(CountBlock(c, b.events, r.log), r.engine, Least(hidden + RawIn(b), Sounding(None, r.engine)))
  {
    hide EngineOk, Process, Merged;
    var r := Process(e, b.frames, Merged(b).events);
    BlockAccount(e, b);
    SoundingFits(e.slots, |e.slots|);
    SoundingFits(r.engine.slots, |r.engine.slots|);
    var n := SeenNoteOns(b.events, |b.events|);
    NoteOnsAddUp(c, n);
    NoteOnsKeepCountersOk(c, n);
    NoteEndsTakeAway(CountNoteOns(c, n), |Ended(r.log)|);
    NoteEndsKeepCountersOk(CountNoteOns(c, n), |Ended(r.log)|);
  }

  /** One block keeps the counter exact if and only if no note came in as raw MIDI, or the block ends
      in silence. */
  lemma BlockKeepsCountExactIff(e: Engine, c: Counters, b: HostBlock)
    requires EngineOk(e) && |e.slots| == DEFAULT_VOICES && UiValuesOnly(b.uiValues) && Exact(c, e)
    requires Process(e, b.frames, Merged(b).events).ok
    ensures
      var r := Process(e, b.frames, Merged(b).events);
      && |r.engine.slots| == DEFAULT_VOICES
      && (Exact(CountBlock(c, b.events, r.log), r.engine)
          <==> RawNoteOns(b.events, |b.events|) == 0 || Sounding(None, r.engine) == 0)
  {
    hide EngineOk, Process, Merged, RawNoteOns, CountBlock, Sounding;
    BlockMisses(e, c, b, 0);
  }

  lemma {:induction false} TallySees(slots: seq<Slot>, n: nat, i: nat)
    requires i < n <= |slots| && slots[i].owner.Some?
    ensures 0 < Tally(None, slots, n)
  {
    if i < n - 1 {
      TallySees(slots, n - 1, i);
    }
  }

  /** A single note by raw MIDI: key 60 on the first channel, in a block of one frame. */
  const RAW_NOTE := HostBlock(1, [], [Event(0, Midi(0, 0x90, 60, 100, Answers(5, true)))])

  lemma RawNoteSounds(e: Engine)
    requires EngineOk(e)
    ensures Process(e, 1, RAW_NOTE.events).ok && 0 < Sounding(None, Process(e, 1, RAW_NOTE.events).engine)
  {
    var event := RAW_NOTE.events[0];
    var completed := CompleteDeferredReleases(e);
    var dispatched := DispatchAt(completed.engine, event);
    RawNoteStarts(completed.engine);
    hide EngineOk, Dispatch, DispatchAt, CompleteDeferredReleases, VoiceMachine.RenderFrame;
    assert RAW_NOTE.events[1..] == [];
    OneFrame(dispatched.engine, 0, 1);
    assert ProcessFrom(dispatched.engine, 0, RAW_NOTE.events[1..], 1)
        == VoiceMachine.RenderFrame(dispatched.engine, 0, 1);
    assert VoiceMachine.RenderRange(completed.engine, 0, 0, 1) == Run(completed.engine, [], [], true);
    LastFrameKeepsSounding(dispatched.engine);
  }

  lemma NoteOnSounds(e: Engine, id: Identity, velocity: real)
    requires EngineOk(e) && ValidIdentity(id) && 0.0 <= velocity <= 1.0
    ensures 0 < Sounding(None, VoiceMachine.DispatchNoteOn(e, id, velocity).engine)
  {
    hide SlotsOk, GenerationsDiffer, StartVoice, Tally;
    var after := VoiceMachine.DispatchNoteOn(e, id, velocity).engine;
    TallySees(after.slots, |after.slots|, Allocate(PoolOf(e), id).1.index);
  }

  lemma RawNoteStarts(e: Engine)
    requires EngineOk(e)
    ensures DispatchAt(e, RAW_NOTE.events[0]).ok && 0 < Sounding(None, DispatchAt(e, RAW_NOTE.events[0]).engine)
  {
    hide EngineOk, VoiceMachine.UpdateCore, VoiceMachine.DispatchNoteOn, DispatchController, Sounding;
    var replayed := VoiceMachine.UpdateCore(e, MidiMessage(0, 0x90, 60, 100, 5)).engine;
    NoteOnSounds(replayed, NoteFor(0, 60), 100 as real / 127.0);
  }

  lemma LastFrameKeepsSounding(e: Engine)
    requires EngineOk(e)
    ensures Sounding(None, VoiceMachine.RenderFrame(e, 0, 1).engine) == Sounding(None, e)
  {
    hide EngineOk, Sweep, Sounding;
    PassBalances(None, e, Render(true), 1);
    LastFrameIsSilent(e);
  }

  /** From the start, such a note leaves the counter at zero while a voice sounds. */
  lemma RawMidiBreaksTheCount(envelope: Envelope)
    requires EnvelopeOk(envelope)
    ensures
      var e := NewEngine(DEFAULT_VOICES, envelope);
      var r := Process(e, RAW_NOTE.frames, Merged(RAW_NOTE).events);
      r.ok && Exact(Counters(0, 0), e) && !Exact(CountBlock(Counters(0, 0), RAW_NOTE.events, r.log), r.engine)
  {
    var e := NewEngine(DEFAULT_VOICES, envelope);
    assert Merged(RAW_NOTE).events == RAW_NOTE.events;
    SilentTally(e.slots, |e.slots|);
    RawNoteSounds(e);
    assert RawNoteOns(RAW_NOTE.events, 0) == 0 && RawNoteOns(RAW_NOTE.events, 1) == 1;
    hide EngineOk, Process, Merged, CountBlock;
    BlockKeepsCountExactIff(e, Counters(0, 0), RAW_NOTE);
  }

  lemma {:induction false} SilentTally(slots: seq<Slot>, n: nat)
    requires n <= |slots| && forall i :: 0 <= i < n ==> slots[i].owner.None?
    ensures Tally(None, slots, n) == 0
  {
    if n != 0 {
      SilentTally(slots, n - 1);
    }
  }

  /** Counters and engine after successive host blocks. */
  ghost function CountBlocks(e: Engine, c: Counters, blocks: seq<HostBlock>): (r: (Engine, Counters, bool))
    requires EngineOk(e)
    ensures EngineOk(r.0)
    decreases |blocks|
  {
    if blocks == [] then (e, c, true)
    else
      var b := blocks[0];
      var run := Process(e, b.frames, Merged(b).events);
      if !run.ok then (run.engine, CountBlock(c, b.events, run.log), false)
      else CountBlocks(run.engine, CountBlock(c, b.events, run.log), blocks[1..])
  }

  /** How many sounding voices the counter misses after the blocks. */
  ghost function HiddenAfter(e: Engine, hidden: nat, blocks: seq<HostBlock>): nat
    requires EngineOk(e)
    decreases |blocks|
  {
    if blocks == [] then hidden
    else
      var run := Process(e, blocks[0].frames, Merged(blocks[0]).events);
      HiddenAfter(run.engine, Least(hidden + RawIn(blocks[0]), Sounding(None, run.engine)), blocks[1..])
  }

  /** From block `k` on no note came in as raw MIDI, and there was nothing to miss before. */
  ghost predicate CleanFrom(e: Engine, c: Counters, hidden: nat, blocks: seq<HostBlock>, k: nat)
    requires EngineOk(e)
  {
    && k <= |blocks|
    && (if k == 0 then hidden == 0 else Sounding(None, CountBlocks(e, c, blocks[..k]).0) == 0)
    && forall j :: k <= j < |blocks| ==> RawIn(blocks[j]) == 0
  }

  lemma CleanFromNext(e: Engine, c: Counters, hidden: nat, blocks: seq<HostBlock>, k: nat)
    requires EngineOk(e) && 0 < |blocks| && Process(e, blocks[0].frames, Merged(blocks[0]).events).ok
    ensures
      var b := blocks[0];
      var run := Process(e, b.frames, Merged(b).events);
      var left := Least(hidden + RawIn(b), Sounding(None, run.engine));
      && (0 < k ==> CleanFrom(run.engine, CountBlock(c, b.events, run.log), left, blocks[1..], k)
                    == CleanFrom(e, c, hidden, blocks, k + 1))
      && (CleanFrom(run.engine, CountBlock(c, b.events, run.log), left, blocks[1..], 0)
          <==> CleanFrom(e, c, hidden, blocks, 0) || CleanFrom(e, c, hidden, blocks, 1))
  {
    hide EngineOk, Process, Merged, RawIn, CountBlock, Sounding;
    var b := blocks[0];
    var run := Process(e, b.frames, Merged(b).events);
    var after := CountBlock(c, b.events, run.log);
    if k < |blocks| {
      assert blocks[..k + 1][1..] == blocks[1..][..k];
      assert CountBlocks(e, c, blocks[..k + 1]) == CountBlocks(run.engine, after, blocks[1..][..k]);
    }
    assert blocks[..1][1..] == [];
    assert CountBlocks(e, c, blocks[..1]) == CountBlocks(run.engine, after, []);
    assert forall j :: 1 <= j < |blocks| ==> blocks[j] == blocks[1..][j - 1];
    assert forall j :: 0 <= j < |blocks| - 1 ==> blocks[1..][j] == blocks[j + 1];
  }

  lemma {:induction false} NothingHiddenIff(e: Engine, c: Counters, hidden: nat, blocks: seq<HostBlock>)
    requires EngineOk(e) && CountBlocks(e, c, blocks).2
    ensures HiddenAfter(e, hidden, blocks) == 0 <==> exists k :: CleanFrom(e, c, hidden, blocks, k)
    decreases |blocks|
  {
    hide EngineOk, Process, Merged, RawIn, CountBlock, Sounding, CleanFrom, Least;
    if blocks == [] {
      NothingPlayed(e, c, hidden);
      assert CleanFrom(e, c, hidden, blocks, 0) <==> hidden == 0;
    } else {
      var b := blocks[0];
      var run := Process(e, b.frames, Merged(b).events);
      var after := CountBlock(c, b.events, run.log);
      var left := Least(hidden + RawIn(b), Sounding(None, run.engine));
      NothingHiddenIff(run.engine, after, left, blocks[1..]);
      CleanFromNext(e, c, hidden, blocks, 0);
      if k: nat :| CleanFrom(e, c, hidden, blocks, k) {
        CleanFromNext(e, c, hidden, blocks, if 1 < k then k - 1 else 0);
      }
      if k: nat :| CleanFrom(run.engine, after, left, blocks[1..], k) {
        CleanFromNext(e, c, hidden, blocks, k);
      }
    }
  }

  lemma NothingPlayed(e: Engine, c: Counters, hidden: nat)
    requires EngineOk(e)
    ensures forall k :: CleanFrom(e, c, hidden, [], k) <==> k == 0 && hidden == 0
  {
    hide EngineOk;
  }

  lemma {:induction false} CounterMisses(e: Engine, c: Counters, hidden: nat, blocks: seq<HostBlock>)
    requires EngineOk(e) && |e.slots| == DEFAULT_VOICES && Misses(c, e, hidden)
    requires forall b :: b in blocks ==> UiValuesOnly(b.uiValues)
    requires CountBlocks(e, c, blocks).2
    ensures Misses(CountBlocks(e, c, blocks).1, CountBlocks(e, c, blocks).0, HiddenAfter(e, hidden, blocks))
    decreases |blocks|
  {
    hide EngineOk, Process, Merged, RawIn, Misses, UiValuesOnly, CountBlock, Sounding;
    if blocks != [] {
      var b := blocks[0];
      BlockMisses(e, c, b, hidden);
      var run := Process(e, b.frames, Merged(b).events);
      CounterMisses(run.engine, CountBlock(c, b.events, run.log),
                    Least(hidden + RawIn(b), Sounding(None, run.engine)), blocks[1..]);
    }
  }

  /** After any successful blocks, whatever notes they brought: the counter is exact if and only if no
      note came in as raw MIDI since the start, or since some block that ended in silence. */
  lemma CounterIsExactIff(e: Engine, c: Counters, blocks: seq<HostBlock>)
    requires EngineOk(e) && |e.slots| == DEFAULT_VOICES && Exact(c, e)
    requires forall b :: b in blocks ==> UiValuesOnly(b.uiValues)
    requires CountBlocks(e, c, blocks).2
    ensures Exact(CountBlocks(e, c, blocks).1, CountBlocks(e, c, blocks).0)
            <==> exists k :: CleanFrom(e, c, 0, blocks, k)
  {
    hide EngineOk, CountBlocks, HiddenAfter, CleanFrom, Sounding, UiValuesOnly;
    CounterMisses(e, c, 0, blocks);
    NothingHiddenIff(e, c, 0, blocks);
  }

  /** After any successful blocks whose notes are CLAP notes, no credit is left over and the counter
      is the number of sounding voices. */
  lemma CounterIsExact(e: Engine, c: Counters, blocks: seq<HostBlock>)
    requires EngineOk(e) && |e.slots| == DEFAULT_VOICES && Exact(c, e)
    requires forall b :: b in blocks ==> UiValuesOnly(b.uiValues) && RawIn(b) == 0
    requires CountBlocks(e, c, blocks).2
    ensures Exact(CountBlocks(e, c, blocks).1, CountBlocks(e, c, blocks).0)
  {
    hide EngineOk, CountBlocks, RawIn, UiValuesOnly, Exact, Sounding;
    assert CleanFrom(e, c, 0, blocks, 0);
    CounterIsExactIff(e, c, blocks);
  }
}
