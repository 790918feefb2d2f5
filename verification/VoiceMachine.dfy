/** The whole voice pipeline as a state machine: events, rendered frames, blocks. */
module VoiceMachine {
  import opened Wrappers
  import opened VoicePool
  import opened VoiceSlots
  import opened Bytes

  datatype Engine = Engine(
    slots: seq<Slot>,
    order: seq<nat>,
    pedals: seq<bool>,
    generation: nat,
    envelope: Envelope,
    defaults: seq<CoreEvent>)

  datatype Step = Step(engine: Engine, happened: seq<Happening>, ok: bool)

  function OwnersOf(slots: seq<Slot>): (owners: Owners)
    ensures |owners| == |slots|
    ensures forall i :: 0 <= i < |slots| ==> owners[i] == slots[i].owner
  {
    seq(|slots|, i requires 0 <= i < |slots| => slots[i].owner)
  }

  function PoolOf(e: Engine): Pool {
    Pool(OwnersOf(e.slots), e.order)
  }

  // ---- Invariant ---------------------------------------------------------------------------

  ghost predicate SlotsOk(slots: seq<Slot>, upTo: nat, pedals: seq<bool>) {
    forall i :: 0 <= i < |slots| ==> SlotOk(slots[i], upTo, pedals)
  }

  ghost predicate GenerationsDiffer(slots: seq<Slot>) {
    forall i, j :: 0 <= i < j < |slots| && slots[i].owner.Some? && slots[j].owner.Some? ==>
      slots[i].voice.generation != slots[j].voice.generation
  }

  /** Layer agreement for the whole engine. */
  ghost predicate EngineOk(e: Engine) {
    && 1 <= |e.slots| <= MAX_VOICES
    && |e.pedals| == 16
    && SlotsOk(e.slots, e.generation, e.pedals)
    && GenerationsDiffer(e.slots)
    && PoolOk(PoolOf(e))
    && EnvelopeOk(e.envelope)
  }

  function NewEngine(voices: nat, envelope: Envelope): (e: Engine)
    requires 1 <= voices <= MAX_VOICES && EnvelopeOk(envelope)
    ensures EngineOk(e)
  {
    Engine(seq(voices, i => EMPTY), [], seq(16, i => false), 0, envelope, [])
  }

  // ---- One pass over the voices ---------------------------------------------------------------

  /** The slots once the pass has reached slot `n`. */
  function SweepSlots(slots: seq<Slot>, a: Action, n: nat): (r: seq<Slot>)
    requires n <= |slots|
    ensures |r| == |slots|
    ensures forall i :: 0 <= i < n ==> r[i] == StepSlot(slots[i], a).slot
    ensures forall i :: n <= i < |slots| ==> r[i] == slots[i]
  {
    seq(|slots|, i requires 0 <= i < |slots| =>
          if i < n then StepSlot(slots[i], a).slot else slots[i])
  }

  /** What the pass records up to slot `n`, in slot order. */
  function Happened(slots: seq<Slot>, a: Action, n: nat): seq<Happening>
    requires n <= |slots|
  {
    if n == 0 then [] else Happened(slots, a, n - 1) + StepSlot(slots[n - 1], a).happened
  }

  predicate SweepSucceeds(slots: seq<Slot>, a: Action, n: nat)
    requires n <= |slots|
  {
    forall i :: 0 <= i < n ==> StepSlot(slots[i], a).ok
  }

  ghost function Sweep(e: Engine, a: Action): (r: Step)
    requires EngineOk(e) && Permitted(a, e.pedals)
    ensures EngineOk(r.engine) && r.ok
    ensures |r.engine.slots| == |e.slots|
    ensures r.engine == e.(slots := r.engine.slots, order := r.engine.order)
  {
    var slots := SweepSlots(e.slots, a, |e.slots|);
    var engine := e.(slots := slots, order := KeepOwned(e.order, OwnersOf(slots)));
    SweepKeepsEngineOk(e, a, engine);
    Step(engine, Happened(e.slots, a, |e.slots|), SweepSucceeds(e.slots, a, |e.slots|))
  }

  lemma SweepKeepsEngineOk(e: Engine, a: Action, engine: Engine)
    requires EngineOk(e) && Permitted(a, e.pedals)
    requires
      var slots := SweepSlots(e.slots, a, |e.slots|);
      engine == e.(slots := slots, order := KeepOwned(e.order, OwnersOf(slots)))
    ensures EngineOk(engine)
    ensures SweepSucceeds(e.slots, a, |e.slots|)
  {
    hide StepSlot, SlotOk;
    forall i | 0 <= i < |e.slots|
      ensures StepSlot(e.slots[i], a).ok
      ensures SlotOk(engine.slots[i], e.generation, e.pedals)
      ensures e.slots[i].owner.None? ==> engine.slots[i].owner.None?
      ensures engine.slots[i].owner.Some? ==>
                engine.slots[i].voice.generation == e.slots[i].voice.generation
    {
      StepKeepsSlotOk(e.slots[i], a, e.generation, e.pedals);
      StepAccount(e.slots[i], a, e.generation, e.pedals);
    }
    KeepOwnedIsPoolOk(PoolOf(e), OwnersOf(engine.slots));
  }

  // ---- Events --------------------------------------------------------------------------------

  /** What the core-event sink answers to a message: how many of the events it becomes are taken, and
      whether the hook that is told of a note succeeds. */
  datatype Answers = Answers(taken: nat, told: bool)

  datatype Body =
    | NoHeader                                         // null, or shorter than an event header
    | Malformed                                        // too short for its type
    | Foreign                                          // not in the core event space
    // velocity None: not a finite number; `told`: the hook that is told of the note succeeds
    | NoteOnEvent(address: Identity, velocity: Option<real>, told: bool)
    | NoteOffEvent(address: Identity)
    | NoteChokeEvent(address: Identity)
    | Midi(port: int, status: Byte, data1: Byte, data2: Byte, answers: Answers)
    | Core(event: CoreEvent, accepted: bool)           // `accepted`: the core-event sink's answer

  datatype Event = Event(time: nat, body: Body)

  predicate ValidNoteOn(address: Identity, velocity: Option<real>) {
    ValidIdentity(address) && velocity.Some? && 0.0 <= velocity.value <= 1.0
  }

  predicate ValidWildcard(address: Identity) {
    && -1 <= address.noteId && (address.port == -1 || address.port == 0)
    && -1 <= address.channel <= 15 && -1 <= address.key <= 127
  }

  ghost function DispatchNoteOn(e: Engine, id: Identity, velocity: real): (r: Step)
    requires EngineOk(e) && ValidIdentity(id) && 0.0 <= velocity <= 1.0
    ensures EngineOk(r.engine) && r.ok
    ensures |r.engine.slots| == |e.slots| && r.engine.pedals == e.pedals
  {
    var (pool, allocation) := Allocate(PoolOf(e), id);
    var i := allocation.index;
    var previous := e.slots[i];
    var g := e.generation + 1;
    var slot := Slot(Some(id), false, Life(id, g, Held),
                     StartVoice(e.envelope, e.defaults, id, g, velocity));
    var engine := e.(slots := e.slots[i := slot], order := pool.order, generation := g);
    NoteOnKeepsEngineOk(e, id, velocity, slot, engine);
    Step(engine,
         (if allocation.replaced.Some?
          then [End(previous.life.generation, allocation.replaced.value, Stolen)] else [])
         + [On(g, id, e.envelope.release)],
         true)
  }

  lemma NoteOnKeepsEngineOk(e: Engine, id: Identity, velocity: real, slot: Slot, engine: Engine)
    requires EngineOk(e) && ValidIdentity(id) && 0.0 <= velocity <= 1.0
    requires slot == Slot(Some(id), false, Life(id, e.generation + 1, Held),
                          StartVoice(e.envelope, e.defaults, id, e.generation + 1, velocity))
    requires
      var (pool, allocation) := Allocate(PoolOf(e), id);
      engine == e.(slots := e.slots[allocation.index := slot], order := pool.order,
                   generation := e.generation + 1)
    ensures EngineOk(engine)
  {
    var (pool, allocation) := Allocate(PoolOf(e), id);
    assert OwnersOf(engine.slots) == pool.owners;
  }

  /** Pedal up on a channel: every deferred release there is delivered. */
  ghost function LiftPedal(e: Engine, channel: nat): (r: Step)
    requires EngineOk(e) && channel < 16
    ensures EngineOk(r.engine) && r.ok && |r.engine.slots| == |e.slots|
  {
    var r := Sweep(e, PedalUp(channel));
    var engine := r.engine.(pedals := r.engine.pedals[channel := false]);
    PedalUpLeavesNone(e, channel);
    assert OwnersOf(engine.slots) == OwnersOf(r.engine.slots);
    Step(engine, r.happened, r.ok)
  }

  lemma PedalUpLeavesNone(e: Engine, channel: nat)
    requires EngineOk(e) && channel < 16
    ensures
      var slots := Sweep(e, PedalUp(channel)).engine.slots;
      forall i :: 0 <= i < |slots| && slots[i].sustained ==>
        slots[i].owner.Some? && slots[i].owner.value.channel != channel
  {
    var slots := Sweep(e, PedalUp(channel)).engine.slots;
    forall i | 0 <= i < |slots| && slots[i].sustained
      ensures slots[i].owner.Some? && slots[i].owner.value.channel != channel
    {
      StepKeepsSlotOk(e.slots[i], PedalUp(channel), e.generation, e.pedals);
    }
  }

  ghost function UpdateCore(e: Engine, event: CoreEvent): (r: Step)
    requires EngineOk(e)
    ensures EngineOk(r.engine) && r.ok
    ensures |r.engine.slots| == |e.slots| && r.engine.pedals == e.pedals
  {
    var r := Sweep(e, Update(event));
    Step(r.engine.(defaults := e.defaults + [event]), r.happened, r.ok)
  }

  ghost function Both(first: Step, second: Step): Step {
    Step(second.engine, first.happened + second.happened, first.ok && second.ok)
  }

  function NoteFor(channel: int, key: int): Identity { Identity(-1, 0, channel, key) }

  /** A MIDI message counts, with as much of it as the sink took, whether or not that was all. */
  ghost function OfferToSink(e: Engine, message: CoreEvent, accepted: bool): (r: Step)
    requires EngineOk(e)
    ensures EngineOk(r.engine) && r.ok == accepted
    ensures |r.engine.slots| == |e.slots| && r.engine.pedals == e.pedals
  {
    UpdateCore(e, message).(ok := accepted)
  }

  /** The events a controller becomes: none for pedal, parameter numbers, All Sound Off and All Notes
      Off, which are handled here, three for Reset All Controllers. */
  function ControllerEmits(controller: int): nat {
    if controller == 64 || controller == 100 || controller == 101 || controller == 120 || 123 <= controller <= 127
    then 0 else if controller == 121 then 3 else 1
  }

  /** The events a message becomes: a note-on replays the five expressions of its channel. */
  function Emitted(port: int, status: Byte, data1: Byte, data2: Byte): nat {
    var family := status - status % 16;
    if 0x80 <= family <= 0xe0 && port != 0 then 1
    else if data1 > 127 || data2 > 127 then 1
    else if family == 0x80 then 0
    else if family == 0x90 then if data2 != 0 then 5 else 0
    else if family == 0xb0 then ControllerEmits(data1)
    else 1
  }

  predicate AllTaken(port: int, status: Byte, data1: Byte, data2: Byte, answers: Answers) {
    Emitted(port, status, data1, data2) <= answers.taken
  }

  function MessageOf(port: int, status: Byte, data1: Byte, data2: Byte, answers: Answers): CoreEvent {
    var emitted := Emitted(port, status, data1, data2);
    MidiMessage(port, status, data1, data2, if emitted < answers.taken then emitted else answers.taken)
  }

  predicate MidiStartsNote(port: int, status: Byte, data1: Byte, data2: Byte) {
    port == 0 && status - status % 16 == 0x90 && data1 <= 127 && 0 < data2 <= 127
  }

  ghost function DispatchController(e: Engine, channel: nat, message: CoreEvent, controller: int,
                                    value: int, accepted: bool): (r: Step)
    requires EngineOk(e) && channel < 16
    ensures EngineOk(r.engine) && |r.engine.slots| == |e.slots|
    ensures r.ok == (accepted || ControllerEmits(controller) == 0)
  {
    if controller == 64 then
      if e.pedals[channel] && value < 64 then LiftPedal(e, channel)
      else SetPedal(e, channel, 64 <= value)
    else if controller == 100 || controller == 101 then UpdateCore(e, message)
    else if controller == 120 then Sweep(e, ChokeMatching(NoteFor(channel, -1)))
    else if controller == 121 then
      if e.pedals[channel]
      then var lifted := LiftPedal(e, channel); Both(lifted, OfferToSink(lifted.engine, message, accepted))
      else OfferToSink(e, message, accepted)
    else if 123 <= controller <= 127 then
      if e.pedals[channel] then Sweep(e, DeferMatching(NoteFor(channel, -1)))
      else Sweep(e, OffMatching(NoteFor(channel, -1)))
    else OfferToSink(e, message, accepted)
  }

  ghost function SetPedal(e: Engine, channel: nat, down: bool): (r: Step)
    requires EngineOk(e) && channel < 16 && (e.pedals[channel] ==> down)
    ensures EngineOk(r.engine) && r.ok && |r.engine.slots| == |e.slots|
  {
    Step(e.(pedals := e.pedals[channel := down]), [], true)
  }

  ghost function DispatchMidi(e: Engine, port: int, status: Byte, data1: Byte, data2: Byte,
                              answers: Answers): (r: Step)
    requires EngineOk(e)
    ensures EngineOk(r.engine) && |r.engine.slots| == |e.slots|
    ensures r.ok == (&& AllTaken(port, status, data1, data2, answers)
                     && (MidiStartsNote(port, status, data1, data2) ==> answers.told))
  {
    var channel := status % 16;
    var family := status - channel;
    var message := MessageOf(port, status, data1, data2, answers);
    var accepted := AllTaken(port, status, data1, data2, answers);
    if 0x80 <= family <= 0xe0 && port != 0 then OfferToSink(e, message, accepted)
    else if (family == 0x80 || family == 0x90) && data1 <= 127 && data2 <= 127 then
      if family == 0x90 && data2 != 0 then
        var replayed := OfferToSink(e, message, accepted);
        assert 0.0 <= data2 as real / 127.0 <= 1.0;
        if !replayed.ok then replayed
        else
          var note := DispatchNoteOn(replayed.engine, NoteFor(channel, data1), data2 as real / 127.0);
          Both(replayed, note.(ok := answers.told))
      else if e.pedals[channel] then Sweep(e, DeferMatching(NoteFor(channel, data1)))
      else Sweep(e, OffMatching(NoteFor(channel, data1)))
    else if family == 0xb0 && data1 <= 127 && data2 <= 127 then
      DispatchController(e, channel, message, data1, data2, accepted)
    else OfferToSink(e, message, accepted)
  }

  ghost function Dispatch(e: Engine, body: Body): (r: Step)
    requires EngineOk(e)
    ensures EngineOk(r.engine) && |r.engine.slots| == |e.slots|
  {
    match body
    case NoHeader => Step(e, [], false)
    case Malformed => Step(e, [], false)
    case Foreign => Step(e, [], true)
    case NoteOnEvent(address, velocity, told) =>
      if ValidNoteOn(address, velocity) then DispatchNoteOn(e, address, velocity.value).(ok := told)
      else Step(e, [], true)
    case NoteOffEvent(address) =>
      if ValidWildcard(address) then Sweep(e, OffMatching(address)) else Step(e, [], true)
    case NoteChokeEvent(address) =>
      if ValidWildcard(address) then Sweep(e, ChokeMatching(address)) else Step(e, [], true)
    case Midi(port, status, data1, data2, answers) => DispatchMidi(e, port, status, data1, data2, answers)
    case Core(event, accepted) =>
      if !accepted then Step(e, [], false)
      else if event.SetAmpEnvelope? then
        if EnvelopeOk(event.envelope)
        then
          var r := UpdateCore(e, event);
          Step(r.engine.(envelope := event.envelope), r.happened, r.ok)
        else Step(e, [], false)
      else UpdateCore(e, event)
  }

  // ---- Frames ----------------------------------------------------------------------------------

  /** One voice's share of a frame: the state it is rendered from and its envelope level. */
  datatype Contribution = Contribution(index: nat, dsp: Dsp, level: real)

  type Frame = seq<Contribution>

  /** The contributions of the first `n` slots in mixing order. */
  function Mix(slots: seq<Slot>, n: nat): Frame
    requires n <= |slots|
  {
    if n == 0 then []
    else
      var v := slots[n - 1].voice;
      Mix(slots, n - 1) +
      if v.active && !v.deferred then [Contribution(n - 1, v.dsp, v.level)] else []
  }

  datatype LogEntry = LogEntry(time: nat, what: Happening)

  function Stamp(happened: seq<Happening>, time: nat): (log: seq<LogEntry>)
    ensures |log| == |happened|
    ensures forall i :: 0 <= i < |log| ==> log[i] == LogEntry(time, happened[i])
  {
    seq(|happened|, i requires 0 <= i < |happened| => LogEntry(time, happened[i]))
  }

  datatype Run = Run(engine: Engine, frames: seq<Frame>, log: seq<LogEntry>, ok: bool)

  function Then(first: Run, second: Run): Run {
    Run(second.engine, first.frames + second.frames, first.log + second.log, first.ok && second.ok)
  }

  /** Frame `frame` of a block: a release that ends with the block's last frame is deferred. */
  ghost function RenderFrame(e: Engine, frame: nat, block: nat): (r: Run)
    requires EngineOk(e)
    ensures EngineOk(r.engine) && r.ok && |r.engine.slots| == |e.slots|
  {
    var r := Sweep(e, Render(frame + 1 >= block));
    Run(r.engine, [Mix(e.slots, |e.slots|)], Stamp(r.happened, frame + 1), r.ok)
  }

  ghost function RenderRange(e: Engine, begin: nat, end: nat, block: nat): (r: Run)
    requires EngineOk(e)
    ensures EngineOk(r.engine) && r.ok && |r.engine.slots| == |e.slots|
    decreases end - begin
  {
    if begin >= end then Run(e, [], [], true)
    else
      var first := RenderFrame(e, begin, block);
      Then(first, RenderRange(first.engine, begin + 1, end, block))
  }

  ghost function CompleteDeferredReleases(e: Engine): (r: Run)
    requires EngineOk(e)
    ensures EngineOk(r.engine) && r.ok && |r.engine.slots| == |e.slots|
  {
    var r := Sweep(e, CompleteDeferred);
    Run(r.engine, [], Stamp(r.happened, 0), r.ok)
  }

  ghost function DispatchAt(e: Engine, event: Event): (r: Run)
    requires EngineOk(e)
    ensures EngineOk(r.engine) && |r.engine.slots| == |e.slots|
  {
    var r := Dispatch(e, event.body);
    Run(r.engine, [], Stamp(r.happened, event.time), r.ok)
  }

  /** The event loop from sample `cursor` on. */
  ghost function ProcessFrom(e: Engine, cursor: nat, events: seq<Event>, block: nat): (r: Run)
    requires EngineOk(e) && cursor <= block
    ensures EngineOk(r.engine) && |r.engine.slots| == |e.slots|
    decreases |events|
  {
    if events == [] then RenderRange(e, cursor, block, block)
    else if events[0].body.NoHeader? || events[0].time >= block || events[0].time < cursor
    then Run(e, [], [], false)
    else
      var segment := RenderRange(e, cursor, events[0].time, block);
      var dispatched := Then(segment, DispatchAt(segment.engine, events[0]));
      if !dispatched.ok then dispatched
      else Then(dispatched, ProcessFrom(dispatched.engine, events[0].time, events[1..], block))
  }

  /** VoiceEngine::processWithEvents. */
  ghost function Process(e: Engine, block: nat, events: seq<Event>): (r: Run)
    requires EngineOk(e)
    ensures EngineOk(r.engine) && |r.engine.slots| == |e.slots|
  {
    if block == 0 then Run(e, [], [], false)
    else
      var completed := CompleteDeferredReleases(e);
      Then(completed, ProcessFrom(completed.engine, 0, events, block))
  }

  // ---- Blocks ----------------------------------------------------------------------------------

  datatype Block = Block(frames: nat, events: seq<Event>)

  function ShiftLog(log: seq<LogEntry>, offset: nat): (r: seq<LogEntry>)
    ensures |r| == |log|
    ensures forall i :: 0 <= i < |log| ==> r[i] == LogEntry(log[i].time + offset, log[i].what)
  {
    seq(|log|, i requires 0 <= i < |log| => LogEntry(log[i].time + offset, log[i].what))
  }

  function Shift(r: Run, offset: nat): Run {
    r.(log := ShiftLog(r.log, offset))
  }

  /** Successive blocks in absolute time; a failed block ends the run. */
  ghost function RunBlocks(e: Engine, blocks: seq<Block>): (r: Run)
    requires EngineOk(e)
    ensures EngineOk(r.engine)
    decreases |blocks|
  {
    if blocks == [] then Run(e, [], [], true)
    else
      var first := Process(e, blocks[0].frames, blocks[0].events);
      if !first.ok then first
      else Then(first, Shift(RunBlocks(first.engine, blocks[1..]), blocks[0].frames))
  }
}
