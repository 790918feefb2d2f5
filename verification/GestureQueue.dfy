/** The command queue from the editor to the audio thread, in its two forms: thirteen parameters and 64
    slots for the synth, two and 32 for the gain example. One producer, one consumer, one atomic load or
    store to a step, sequentially consistent. */
module GestureQueue {
  import opened Wrappers
  import opened RealtimeHandoff

  datatype Kind = Begin | Value | End

  datatype Command = Command(kind: Kind, parameter: nat, value: real)

  /** `limit`: the most values one drain hands over, if there is one. */
  datatype Form = Form(capacity: nat, parameters: nat, limit: Option<nat>)

  const SYNTH := Form(64, 13, Some(64))
  const GAIN := Form(32, 2, None)

  // ---- Gestures ------------------------------------------------------------------------------------------

  function Flags(open: seq<bool>): (n: nat)
    ensures n <= |open|
    ensures n == 0 <==> forall i :: 0 <= i < |open| ==> !open[i]
  {
    if open == [] then 0 else Flags(open[..|open| - 1]) + if open[|open| - 1] then 1 else 0
  }

  predicate Accepts(open: seq<bool>, c: Command) {
    && c.parameter < |open|
    && (c.kind == Begin ==> !open[c.parameter])
    && (c.kind == End ==> open[c.parameter])
  }

  function After(open: seq<bool>, c: Command): seq<bool>
    requires c.parameter < |open|
  {
    match c.kind
    case Begin => open[c.parameter := true]
    case End => open[c.parameter := false]
    case Value => open
  }

  function ReservedAfter(open: seq<bool>, c: Command): nat
    requires Accepts(open, c)
  {
    FlagsSet(open, c.parameter, c.kind == Begin);
    match c.kind
    case Begin => Flags(open) + 1
    case End => Flags(open) - 1
    case Value => Flags(open)
  }

  lemma {:induction false} FlagsSet(open: seq<bool>, i: nat, flag: bool)
    requires i < |open|
    ensures Flags(open[i := flag]) == Flags(open) + (if flag then 1 else 0) - (if open[i] then 1 else 0)
  {
    var n := |open| - 1;
    if i < n {
      FlagsSet(open[..n], i, flag);
      assert open[i := flag][..n] == open[..n][i := flag];
    } else {
      assert open[i := flag][..n] == open[..n];
    }
  }

  /** Which gestures a stream of commands leaves open. */
  function OpenAfter(commands: seq<Command>, parameters: nat): (open: seq<bool>)
    ensures |open| == parameters
  {
    if commands == [] then seq(parameters, i => false)
    else
      var before := OpenAfter(commands[..|commands| - 1], parameters);
      var last := commands[|commands| - 1];
      if last.parameter < parameters then After(before, last) else before
  }

  /** BEGIN and END strictly alternate for every parameter, starting with BEGIN. */
  predicate Bracketed(commands: seq<Command>, parameters: nat) {
    commands == [] ||
    (Bracketed(commands[..|commands| - 1], parameters)
     && Accepts(OpenAfter(commands[..|commands| - 1], parameters), commands[|commands| - 1]))
  }

  lemma {:induction false} PrefixesAreBracketed(commands: seq<Command>, n: nat, parameters: nat)
    requires n <= |commands| && Bracketed(commands, parameters)
    ensures Bracketed(commands[..n], parameters)
    decreases |commands|
  {
    if n == |commands| {
      assert commands[..n] == commands;
    } else {
      var shorter := commands[..|commands| - 1];
      PrefixesAreBracketed(shorter, n, parameters);
      assert shorter[..n] == commands[..n];
    }
  }

  function Values(commands: seq<Command>): seq<Command> {
    if commands == [] then []
    else Values(commands[..|commands| - 1]) +
         if commands[|commands| - 1].kind == Value then [commands[|commands| - 1]] else []
  }

  // ---- Threads ---------------------------------------------------------------------------------------

  datatype Producer =
    | Resting
    | Checked(command: Command)          // enough slots were free
    | Stored(command: Command)           // written behind the last one, not yet published

  datatype Consumer =
    | Away
    | Draining(handed: nat)
    | Peeked(handed: nat)
    | Holding(handed: nat, command: Command)
    | Emitted(handed: nat)

  /** `accepted`, `emitted` and `handedOver` remember the whole run. */
  datatype State = State(
    ring: Ring<Command>,
    open: seq<bool>,
    producer: Producer,
    consumer: Consumer,
    accepted: seq<Command>,
    emitted: seq<Command>,
    handedOver: seq<Command>)

  datatype Action =
    | Check(command: Command)            // decides on the push, or refuses it
    | StoreSlot                          // looks at the read index again, then writes the slot
    | Publish                            // moves the write index and notes the gesture
    | DrainBegins | Peek | LoadSlot
    | TryEmit(accepted: bool)            // the host's answer
    | Pop

  ghost function Initial(f: Form): (s: State)
    requires 2 <= f.capacity
    ensures Ok(s, f)
  {
    State(Ring(seq(f.capacity, i => Command(Value, 0, 0.0)), 0, 0), seq(f.parameters, i => false),
          Resting, Away, [], [], [])
  }

  predicate Enough(s: State, c: Command)
    requires RingOk(s.ring)
  {
    Accepts(s.open, c) && ReservedAfter(s.open, c) + 1 <= (|s.ring.slots| - 1) - Used(s.ring)
  }

  function StepProducer(s: State, a: Action): State
    requires RingOk(s.ring)
  {
    match a
    case Check(c) => if s.producer.Resting? && Enough(s, c) then s.(producer := Checked(c)) else s
    case StoreSlot =>
      if !s.producer.Checked? then s
      else if Full(s.ring) then s.(producer := Resting)
      else s.(ring := s.ring.(slots := s.ring.slots[s.ring.write := s.producer.command]),
              producer := Stored(s.producer.command))
    case Publish =>
      if !s.producer.Stored? || s.producer.command.parameter >= |s.open| then s
      else s.(ring := s.ring.(write := Increment(s.ring.write, |s.ring.slots|)),
              open := After(s.open, s.producer.command), producer := Resting,
              accepted := s.accepted + [s.producer.command])
    case _ => s
  }

  function StepConsumer(s: State, f: Form, a: Action): State
    requires RingOk(s.ring)
  {
    var t := s.consumer;
    match a
    case DrainBegins => if t.Away? then s.(consumer := Draining(0)) else s
    case Peek =>
      if !t.Draining? then s
      else s.(consumer := if s.ring.read == s.ring.write then Away else Peeked(t.handed))
    case LoadSlot =>
      if !t.Peeked? then s
      else
        var c := s.ring.slots[s.ring.read];
        if c.kind == Value && f.limit.Some? && f.limit.value <= t.handed then s.(consumer := Away)
        else s.(consumer := Holding(t.handed, c))
    case TryEmit(accepted) =>
      if !t.Holding? then s
      else if !accepted then s.(consumer := Away)
      else if t.command.kind == Value then
        s.(consumer := Emitted(t.handed + 1), emitted := s.emitted + [t.command],
           handedOver := s.handedOver + [t.command])
      else s.(consumer := Emitted(t.handed), emitted := s.emitted + [t.command])
    case Pop =>
      if !t.Emitted? then s
      else s.(ring := s.ring.(read := Increment(s.ring.read, |s.ring.slots|)), consumer := Draining(t.handed))
    case _ => s
  }

  predicate ForProducer(a: Action) {
    a.Check? || a.StoreSlot? || a.Publish?
  }

  ghost function Step(s: State, f: Form, a: Action): State
    requires Ok(s, f)
  {
    if ForProducer(a) then StepProducer(s, a) else StepConsumer(s, f, a)
  }

  ghost function Run(s: State, f: Form, steps: seq<Action>): (r: State)
    requires Ok(s, f)
    ensures Ok(r, f)
    decreases |steps|
  {
    if steps == [] then s
    else
      StepKeepsOk(s, f, steps[0]);
      Run(Step(s, f, steps[0]), f, steps[1..])
  }

  // ---- Invariant -----------------------------------------------------------------------------------------

  /** Between emitting a command and popping it, the oldest queued command is already out. */
  function Out(s: State): nat {
    if s.consumer.Emitted? then 1 else 0
  }

  ghost predicate ProducerOk(s: State)
    requires RingOk(s.ring)
  {
    match s.producer
    case Resting => true
    case Checked(c) => Enough(s, c)
    case Stored(c) => Enough(s, c) && s.ring.slots[s.ring.write] == c
  }

  ghost predicate ConsumerOk(s: State, f: Form)
    requires RingOk(s.ring)
  {
    match s.consumer
    case Peeked(handed) => s.ring.read != s.ring.write && (f.limit.Some? ==> handed <= f.limit.value)
    case Holding(handed, c) =>
      && s.ring.read != s.ring.write && c == s.ring.slots[s.ring.read]
      && (f.limit.Some? ==> handed <= f.limit.value && (c.kind == Value ==> handed < f.limit.value))
    case Emitted(handed) => s.ring.read != s.ring.write && (f.limit.Some? ==> handed <= f.limit.value)
    case Draining(handed) => f.limit.Some? ==> handed <= f.limit.value
    case Away => true
  }

  /** What was accepted is what was emitted followed by what is still queued; it is well bracketed and
      leaves the noted gestures open; every open gesture has a slot kept for its END; and the values
      handed to the engine are those of the emitted VALUE commands. */
  ghost predicate Ok(s: State, f: Form) {
    && RingOk(s.ring) && |s.ring.slots| == f.capacity
    && Out(s) <= Used(s.ring)
    && s.accepted == s.emitted + Contents(s.ring)[Out(s)..]
    && Bracketed(s.accepted, f.parameters) && s.open == OpenAfter(s.accepted, f.parameters)
    && Flags(s.open) <= (f.capacity - 1) - Used(s.ring)
    && s.handedOver == Values(s.emitted)
    && ProducerOk(s) && ConsumerOk(s, f)
  }

  lemma CheckKeepsOk(s: State, f: Form, c: Command)
    requires Ok(s, f)
    ensures Ok(StepProducer(s, Check(c)), f)
  {
    hide Contents, Used, Bracketed, OpenAfter, Flags;
  }

  lemma StoreSlotKeepsOk(s: State, f: Form)
    requires Ok(s, f)
    ensures Ok(StepProducer(s, StoreSlot), f)
  {
    hide Bracketed, OpenAfter, Flags, Accepts, ReservedAfter;
    if s.producer.Checked? && !Full(s.ring) {
      var r := StepProducer(s, StoreSlot);
      StoringIsUnseen(s.ring, s.producer.command);
      assert Used(r.ring) == Used(s.ring);
      assert s.ring.read != s.ring.write ==> r.ring.slots[r.ring.read] == s.ring.slots[s.ring.read];
    }
  }

  lemma PublishKeepsOk(s: State, f: Form)
    requires Ok(s, f)
    ensures Ok(StepProducer(s, Publish), f)
  {
    if s.producer.Stored? {
      var r, c := StepProducer(s, Publish), s.producer.command;
      PublishedQueue(s, f);
      BracketedAppend(s.accepted, f.parameters, c);
      FlagsSet(s.open, c.parameter, c.kind == Begin);
      PublishKeepsConsumer(s, f);
      hide Contents, Values, ConsumerOk, Bracketed, OpenAfter, Flags;
    }
  }

  lemma PublishedQueue(s: State, f: Form)
    requires Ok(s, f) && s.producer.Stored?
    ensures
      var r := StepProducer(s, Publish);
      && RingOk(r.ring) && |r.ring.slots| == f.capacity && Used(r.ring) == Used(s.ring) + 1
      && r.accepted == r.emitted + Contents(r.ring)[Out(r)..]
  {
    hide Values, ConsumerOk, Bracketed, OpenAfter, Flags;
    FullMeansUsedUp(s.ring);
    PublishingAppends(s.ring);
    var r := StepProducer(s, Publish);
    FullMeansUsedUp(r.ring);
    assert Contents(r.ring)[Out(s)..] == Contents(s.ring)[Out(s)..] + [s.producer.command];
  }

  lemma BracketedAppend(commands: seq<Command>, parameters: nat, c: Command)
    requires Bracketed(commands, parameters) && Accepts(OpenAfter(commands, parameters), c)
    ensures Bracketed(commands + [c], parameters)
    ensures OpenAfter(commands + [c], parameters) == After(OpenAfter(commands, parameters), c)
  {
    assert (commands + [c])[..|commands + [c]| - 1] == commands;
  }

  lemma PublishKeepsConsumer(s: State, f: Form)
    requires Ok(s, f) && s.producer.Stored?
    ensures RingOk(StepProducer(s, Publish).ring) && ConsumerOk(StepProducer(s, Publish), f)
  {
    hide Contents, Bracketed, OpenAfter, Flags, ReservedAfter;
    FullMeansUsedUp(s.ring);
  }

  /** The producer does not see the consumer's place. */
  lemma ProducerStays(s: State, r: State)
    requires RingOk(s.ring) && ProducerOk(s) && r.ring == s.ring && r.producer == s.producer && r.open == s.open
    ensures ProducerOk(r)
  {
  }

  lemma HeadIsNext(s: State)
    requires RingOk(s.ring) && s.ring.read != s.ring.write
    ensures 0 < Used(s.ring) == |Contents(s.ring)| && Contents(s.ring)[0] == s.ring.slots[s.ring.read]
  {
  }

  lemma EmittingMovesOne(emitted: seq<Command>, queued: seq<Command>, c: Command)
    requires queued != [] && queued[0] == c
    ensures emitted + queued[0..] == (emitted + [c]) + queued[1..]
    ensures Values(emitted + [c]) == Values(emitted) + if c.kind == Value then [c] else []
  {
    assert (emitted + [c])[..|emitted + [c]| - 1] == emitted;
    assert emitted + queued[0..] == (emitted + [c]) + queued[1..];
  }

  lemma TryEmitKeepsOk(s: State, f: Form, accepted: bool)
    requires Ok(s, f)
    ensures Ok(StepConsumer(s, f, TryEmit(accepted)), f)
  {
    if s.consumer.Holding? && accepted {
      HeadIsNext(s);
      EmittingMovesOne(s.emitted, Contents(s.ring), s.consumer.command);
    }
    hide Bracketed, OpenAfter, Flags, ProducerOk, Contents, Values;
    ProducerStays(s, StepConsumer(s, f, TryEmit(accepted)));
  }

  lemma PopKeepsOk(s: State, f: Form)
    requires Ok(s, f)
    ensures Ok(StepConsumer(s, f, Pop), f)
  {
    hide Bracketed, OpenAfter, Flags, Values, Contents;
    if s.consumer.Emitted? {
      var r := StepConsumer(s, f, Pop);
      ReleasingDrops(s.ring);
      assert Contents(s.ring)[1..] == Contents(r.ring)[0..];
      FullMeansUsedUp(s.ring);
    }
  }

  lemma LookingKeepsOk(s: State, f: Form, a: Action)
    requires Ok(s, f) && (a.DrainBegins? || a.Peek? || a.LoadSlot?)
    ensures Ok(StepConsumer(s, f, a), f)
  {
    hide Bracketed, OpenAfter, Flags, Values, Contents;
  }

  lemma StepKeepsOk(s: State, f: Form, a: Action)
    requires Ok(s, f)
    ensures Ok(Step(s, f, a), f)
  {
    hide Ok;
    match a
    case Check(c) => CheckKeepsOk(s, f, c);
    case StoreSlot => StoreSlotKeepsOk(s, f);
    case Publish => PublishKeepsOk(s, f);
    case TryEmit(accepted) => TryEmitKeepsOk(s, f, accepted);
    case Pop => PopKeepsOk(s, f);
    case DrainBegins => LookingKeepsOk(s, f, a);
    case Peek => LookingKeepsOk(s, f, a);
    case LoadSlot => LookingKeepsOk(s, f, a);
  }

  // ---- Main results ----------------------------------------------------------------------------------

  /** However the threads interleave and whatever the host refuses: the emitted commands are a prefix of
      the accepted ones, in order, none lost and none twice; BEGIN and END alternate; and the engine was
      handed exactly the emitted values. */
  lemma OutputIsAWellBracketedPrefix(f: Form, steps: seq<Action>)
    requires 2 <= f.capacity
    ensures
      var s := Run(Initial(f), f, steps);
      && s.emitted <= s.accepted && Bracketed(s.emitted, f.parameters)
      && |s.accepted| - |s.emitted| + Out(s) == Used(s.ring)
      && s.handedOver == Values(s.emitted)
  {
    var s := Run(Initial(f), f, steps);
    PrefixesAreBracketed(s.accepted, |s.emitted|, f.parameters);
    assert s.accepted[..|s.emitted|] == s.emitted;
  }

  /** The three steps that push a command, with the consumer moving in between. */
  ghost function Push(s: State, f: Form, c: Command, between: seq<Action>, later: seq<Action>): (r: State)
    requires Ok(s, f)
    ensures Ok(r, f)
  {
    StepKeepsOk(s, f, Check(c));
    var ready := Run(Step(s, f, Check(c)), f, between);
    StepKeepsOk(ready, f, StoreSlot);
    var stored := Run(Step(ready, f, StoreSlot), f, later);
    StepKeepsOk(stored, f, Publish);
    Step(stored, f, Publish)
  }

  /** Whether the alternation allows the command, and a slot is left for it beside one for the END of every
      gesture that is open then. */
  predicate MayPush(open: seq<bool>, free: int, c: Command) {
    && c.parameter < |open|
    && match c.kind
       case Begin => !open[c.parameter] && Flags(open) + 2 <= free
       case Value => Flags(open) + 1 <= free
       case End => open[c.parameter]
  }

  /** A push is accepted exactly then, however the consumer moves while it is made; a refused one changes
      nothing for the producer. */
  lemma PushSucceedsIff(s: State, f: Form, c: Command, between: seq<Action>, later: seq<Action>)
    requires Ok(s, f) && s.producer.Resting?
    requires forall i :: 0 <= i < |between| ==> !ForProducer(between[i])
    requires forall i :: 0 <= i < |later| ==> !ForProducer(later[i])
    ensures
      var t := Push(s, f, c, between, later);
      && t.producer.Resting?
      && if MayPush(s.open, f.capacity - 1 - Used(s.ring), c)
         then t.accepted == s.accepted + [c] && t.open == After(s.open, c)
         else t.accepted == s.accepted && t.open == s.open
  {
    hide Run, Contents, OpenAfter, Bracketed, Values, Flags;
    assert Enough(s, c) == MayPush(s.open, f.capacity - 1 - Used(s.ring), c);
    StepKeepsOk(s, f, Check(c));
    var checked := Step(s, f, Check(c));
    ConsumerLeavesProducer(checked, f, between);
    var ready := Run(checked, f, between);
    FullMeansUsedUp(ready.ring);
    StepKeepsOk(ready, f, StoreSlot);
    ConsumerLeavesProducer(Step(ready, f, StoreSlot), f, later);
  }

  /** Closing an open gesture never fails: the slot is there when it is asked for, and stays there
      however the consumer moves in between. */
  lemma ClosingNeverFails(s: State, f: Form, parameter: nat, between: seq<Action>, later: seq<Action>)
    requires Ok(s, f) && s.producer.Resting? && parameter < |s.open| && s.open[parameter]
    requires forall i :: 0 <= i < |between| ==> !ForProducer(between[i])
    requires forall i :: 0 <= i < |later| ==> !ForProducer(later[i])
    ensures
      var t := Push(s, f, Command(End, parameter, 0.0), between, later);
      && t.accepted == s.accepted + [Command(End, parameter, 0.0)]
      && t.open == s.open[parameter := false] && t.producer.Resting?
  {
    hide Push, Ok;
    PushSucceedsIff(s, f, Command(End, parameter, 0.0), between, later);
  }

  lemma {:induction false} ConsumerLeavesProducer(s: State, f: Form, steps: seq<Action>)
    requires Ok(s, f) && forall i :: 0 <= i < |steps| ==> !ForProducer(steps[i])
    ensures
      var r := Run(s, f, steps);
      r.producer == s.producer && r.open == s.open && r.accepted == s.accepted
    decreases |steps|
  {
    hide Ok;
    if steps != [] {
      StepKeepsOk(s, f, steps[0]);
      ConsumerLeavesProducer(Step(s, f, steps[0]), f, steps[1..]);
    }
  }

  // ---- Closing every open gesture --------------------------------------------------------------------

  /** The ENDs for the gestures among the first `n` that are open, in parameter order. */
  function Ends(open: seq<bool>, n: nat): seq<Command>
    requires n <= |open|
  {
    if n == 0 then []
    else Ends(open, n - 1) + if open[n - 1] then [Command(End, n - 1, 0.0)] else []
  }

  /** What the consumer does before one END is asked for, and while it is being pushed. */
  datatype Moves = Moves(before: seq<Action>, between: seq<Action>, later: seq<Action>)

  predicate ConsumerOnly(steps: seq<Action>) {
    forall i :: 0 <= i < |steps| ==> !ForProducer(steps[i])
  }

  predicate Undisturbing(m: Moves) {
    ConsumerOnly(m.before) && ConsumerOnly(m.between) && ConsumerOnly(m.later)
  }

  /** The loop over the parameters, with the consumer moving as `moves` says. */
  ghost function CloseAll(s: State, f: Form, moves: seq<Moves>): (r: State)
    requires Ok(s, f)
    ensures Ok(r, f)
    decreases |moves|
  {
    if moves == [] then s
    else
      var p, m := |moves| - 1, moves[|moves| - 1];
      var idle := Run(CloseAll(s, f, moves[..p]), f, m.before);
      if p < |idle.open| && idle.open[p] then Push(idle, f, Command(End, p, 0.0), m.between, m.later)
      else idle
  }

  /** Every open gesture gets its END, in parameter order, and none stays open: no push is refused,
      whatever the consumer does meanwhile. */
  lemma {:induction false} ClosingAllNeverFails(s: State, f: Form, moves: seq<Moves>)
    requires Ok(s, f) && s.producer.Resting? && |moves| <= |s.open|
    requires forall i :: 0 <= i < |moves| ==> Undisturbing(moves[i])
    ensures
      var r := CloseAll(s, f, moves);
      && r.producer.Resting? && r.accepted == s.accepted + Ends(s.open, |moves|) && |r.open| == |s.open|
      && forall p :: 0 <= p < |s.open| ==> r.open[p] == (s.open[p] && |moves| <= p)
    decreases |moves|
  {
    hide Ok, Run, Push;
    if moves == [] {
      assert s.accepted + [] == s.accepted;
    } else {
      var p, m := |moves| - 1, moves[|moves| - 1];
      ClosingAllNeverFails(s, f, moves[..p]);
      var begun := CloseAll(s, f, moves[..p]);
      assert Undisturbing(m);
      ConsumerLeavesProducer(begun, f, m.before);
      var idle := Run(begun, f, m.before);
      if idle.open[p] {
        ClosingNeverFails(idle, f, p, m.between, m.later);
        assert s.accepted + Ends(s.open, p) + [Command(End, p, 0.0)] == s.accepted + Ends(s.open, p + 1);
      } else {
        assert Ends(s.open, p + 1) == Ends(s.open, p) + [];
      }
    }
  }

  /** Both queues as they are built: from the start, after any run, what came out is a well-bracketed
      prefix of what went in, and all that is open can be closed. */
  lemma SynthAndGain(f: Form, steps: seq<Action>, moves: seq<Moves>)
    requires f == SYNTH || f == GAIN
    requires |moves| == f.parameters && forall i :: 0 <= i < |moves| ==> Undisturbing(moves[i])
    ensures
      var s := Run(Initial(f), f, steps);
      && s.emitted <= s.accepted && Bracketed(s.emitted, f.parameters) && s.handedOver == Values(s.emitted)
      && |s.open| == f.parameters
      && (s.producer.Resting? ==>
            var r := CloseAll(s, f, moves);
            && r.accepted == s.accepted + Ends(s.open, f.parameters)
            && forall p :: 0 <= p < |r.open| ==> !r.open[p])
  {
    OutputIsAWellBracketedPrefix(f, steps);
    var s := Run(Initial(f), f, steps);
    OpenIsNoted(s, f);
    hide Ok, Run, Bracketed, Values;
    if s.producer.Resting? {
      ClosingAllNeverFails(s, f, moves);
    }
  }

  lemma OpenIsNoted(s: State, f: Form)
    requires Ok(s, f)
    ensures |s.open| == f.parameters
  {
  }

  // ---- Draining --------------------------------------------------------------------------------------------

  /** A drain that the host refuses nothing in, one command after the other. */
  ghost function DrainAll(s: State, f: Form, n: nat): (r: State)
    requires Ok(s, f)
    ensures Ok(r, f)
    decreases n
  {
    if n == 0 then Run(s, f, [Peek])
    else DrainAll(Run(s, f, [Peek] + ([LoadSlot] + ([TryEmit(true)] + [Pop]))), f, n - 1)
  }

  lemma {:induction false} RunJoins(s: State, f: Form, a: seq<Action>, b: seq<Action>)
    requires Ok(s, f)
    ensures Run(s, f, a + b) == Run(Run(s, f, a), f, b)
    decreases |a|
  {
    hide Ok, Step;
    if a == [] {
      assert a + b == b;
    } else {
      StepKeepsOk(s, f, a[0]);
      assert (a + b)[1..] == a[1..] + b;
      RunJoins(Step(s, f, a[0]), f, a[1..], b);
    }
  }

  lemma OneStep(s: State, f: Form, a: Action)
    requires Ok(s, f)
    ensures Ok(Step(s, f, a), f) && Run(s, f, [a]) == Step(s, f, a)
  {
    hide Ok, Step;
    StepKeepsOk(s, f, a);
    assert [a][1..] == [];
  }

  lemma OneCommand(s: State, f: Form)
    requires Ok(s, f) && s.consumer.Draining? && s.ring.read != s.ring.write
    requires f.limit.Some? ==> s.consumer.handed < f.limit.value
    ensures
      var r := Run(s, f, [Peek] + ([LoadSlot] + ([TryEmit(true)] + [Pop])));
      && r.consumer.Draining? && r.consumer.handed <= s.consumer.handed + 1
      && r.accepted == s.accepted && Used(r.ring) == Used(s.ring) - 1
  {
    hide Contents, Bracketed, OpenAfter, Flags, Values, ReservedAfter, Run, ProducerOk;
    RunJoins(s, f, [Peek], [LoadSlot] + ([TryEmit(true)] + [Pop]));
    OneStep(s, f, Peek);
    var peeked := Step(s, f, Peek);
    RunJoins(peeked, f, [LoadSlot], [TryEmit(true)] + [Pop]);
    OneStep(peeked, f, LoadSlot);
    var holding := Step(peeked, f, LoadSlot);
    RunJoins(holding, f, [TryEmit(true)], [Pop]);
    OneStep(holding, f, TryEmit(true));
    var emitted := Step(holding, f, TryEmit(true));
    OneStep(emitted, f, Pop);
    ReleasingDrops(emitted.ring);
  }

  /** Nothing accepted stays behind: a drain that is refused nothing and has room for the values hands out
      all that is queued. */
  lemma {:induction false} DrainingEmptiesTheQueue(s: State, f: Form, n: nat)
    requires Ok(s, f) && s.consumer.Draining? && n == Used(s.ring)
    requires f.limit.Some? ==> s.consumer.handed + n <= f.limit.value
    ensures
      var r := DrainAll(s, f, n);
      r.consumer.Away? && r.emitted == s.accepted && r.accepted == s.accepted
    decreases n
  {
    hide Ok, Run;
    if n == 0 {
      NothingQueued(s, f);
      OneStep(s, f, Peek);
    } else {
      SomethingQueued(s, f);
      OneCommand(s, f);
      DrainingEmptiesTheQueue(Run(s, f, [Peek] + ([LoadSlot] + ([TryEmit(true)] + [Pop]))), f, n - 1);
    }
  }

  lemma SomethingQueued(s: State, f: Form)
    requires Ok(s, f) && 0 < Used(s.ring)
    ensures s.ring.read != s.ring.write
  {
    hide Bracketed, OpenAfter, Flags, Values, ReservedAfter;
  }

  lemma NothingQueued(s: State, f: Form)
    requires Ok(s, f) && Used(s.ring) == 0
    ensures s.ring.read == s.ring.write && s.emitted == s.accepted
  {
    hide Bracketed, OpenAfter, Flags, Values, ReservedAfter;
  }
}
