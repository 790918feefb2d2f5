/** How a loaded state reaches the audio thread and comes back to those who read parameters. One
    committer, one audio thread, any readers; one atomic load or store to a step, sequentially
    consistent. Revisions are unbounded, and revision n is the n-th load. */
module StateHandoff {
  import opened Wrappers
  import opened SeqLock

  const WORDS: nat := 13

  type Snapshot = seq<real>

  // ---- Values -----------------------------------------------------------------------------------------

  /** One accepted global parameter value. */
  datatype Edit = Edit(word: nat, value: real)

  function Edited(base: Snapshot, edits: seq<Edit>): (r: Snapshot)
    ensures |r| == |base|
  {
    if edits == [] then base
    else
      var r, last := Edited(base, edits[..|edits| - 1]), edits[|edits| - 1];
      if last.word < |r| then r[last.word := last.value] else r
  }

  lemma {:induction false} EditedTwice(base: Snapshot, first: seq<Edit>, second: seq<Edit>)
    ensures Edited(base, first + second) == Edited(Edited(base, first), second)
    decreases |second|
  {
    if second == [] {
      assert first + second == first;
    } else {
      EditedTwice(base, first, second[..|second| - 1]);
      assert (first + second)[..|first + second| - 1] == first + second[..|second| - 1];
    }
  }

  lemma EditedOnce(base: Snapshot, edits: seq<Edit>, e: Edit)
    requires e.word < |base|
    ensures Edited(base, edits + [e]) == Edited(base, edits)[e.word := e.value]
  {
    assert (edits + [e])[..|edits + [e]| - 1] == edits;
  }

  /** A loaded snapshot as the events put in front of the block: one value for every word. */
  function EventsFor(value: Snapshot, n: nat): (r: seq<Edit>)
    requires n <= |value|
    ensures |r| == n
  {
    if n == 0 then [] else EventsFor(value, n - 1) + [Edit(n - 1, value[n - 1])]
  }

  lemma {:induction false} EventsWrite(base: Snapshot, value: Snapshot, n: nat)
    requires n <= |value| == |base|
    ensures Edited(base, EventsFor(value, n)) == value[..n] + base[n..]
  {
    if n != 0 {
      EventsWrite(base, value, n - 1);
      EditedOnce(base, EventsFor(value, n - 1), Edit(n - 1, value[n - 1]));
    }
  }

  /** Together the events overwrite whatever the engine held. */
  lemma EventsReplay(base: Snapshot, value: Snapshot, edits: seq<Edit>)
    requires |base| == |value|
    ensures Edited(base, EventsFor(value, |value|) + edits) == Edited(value, edits)
  {
    EventsWrite(base, value, |value|);
    EditedTwice(base, EventsFor(value, |value|), edits);
    assert value[..|value|] + base[|value|..] == value;
  }

  // ---- State ------------------------------------------------------------------------------------------

  /** A load read whole and still the newest: its revision, its number, its words. */
  datatype Replay = Replay(revision: nat, load: nat, value: Snapshot)

  datatype Committer = Resting | Publishing | Counting

  /** The audio thread between its steps. `flush` tells params.flush from a process block. */
  datatype Audio =
    | Idle
    | Loaded(flush: bool, revision: nat)                             // a load is outstanding
    | ReadingPending(flush: bool, revision: nat, attempt: Attempt<real>)
    | Checking(flush: bool, revision: nat, value: Snapshot, load: nat)
    | Ready(flush: bool, replay: Option<Replay>)
    | Syncing(flush: bool)                                           // engine done, about to publish
    | Writing(flush: bool)
    | Storing(flush: bool)
    | Flushing
    | WritingValue(edit: Edit)

  datatype Reader =
    | Away
    | Started(floor: nat)
    | Revised(floor: nat, revision: nat)
    | Chosen(floor: nat, revision: nat, pending: bool)
    | Reading(floor: nat, revision: nat, pending: bool, attempt: Attempt<real>)
    | Read(floor: nat, revision: nat, pending: bool, value: Snapshot, index: nat)
    | Done(floor: nat, revision: nat, pending: bool, value: Snapshot, index: nat)

  /** `pending.history[n]` is load n. `engineLoad` is the newest load the engine has replayed and
      `engineEdits` what it accepted since; `hostLoads[i]` and `hostEdits[i]` are those behind the i-th
      host snapshot. */
  datatype State = State(
    loadedRevision: nat,
    appliedPublished: nat,
    applied: nat,
    pending: Lock<real>,
    host: Lock<real>,
    engine: Snapshot,
    engineLoad: nat,
    engineEdits: seq<Edit>,
    hostLoads: seq<nat>,
    hostEdits: seq<seq<Edit>>,
    committer: Committer,
    audio: Audio,
    readers: seq<Reader>,
    active: bool,
    blocks: nat)

  ghost function Initial(defaults: Snapshot, readers: nat): (s: State)
    requires |defaults| == WORDS
    ensures Ok(s)
  {
    var l := Lock(0, defaults, [defaults], None);
    State(0, 0, 0, l, l, defaults, 0, [], [0], [[]], Resting, Idle, seq(readers, i => Away), false, 0)
  }

  // ---- Committer ----------------------------------------------------------------------------------------

  datatype Action =
    // commit while active
    | Commit(snapshot: Snapshot) | CommitWord | CommitPublished | CommitCounted
    // process and flush
    | BlockBegins | FlushBegins | PendingBefore | PendingWord | PendingAfter | Recheck
    | EngineRuns(edits: seq<Edit>) | EngineFails(edits: seq<Edit>, accepted: nat)
    | HostBegins | HostWord | HostEnds | AppliedStored
    | FlushValue(word: nat, value: real) | FlushEnds
    // effective reads
    | ReadBegins(r: nat) | ReadRevision(r: nat) | ReadApplied(r: nat) | ReadBefore(r: nat)
    | ReadWord(r: nat) | ReadAfter(r: nat) | ReadRecheck(r: nat)
    // main thread alone, while no audio runs
    | Activate | Deactivate | InactiveCommit(snapshot: Snapshot) | InactiveValue(word: nat, value: real)

  function StepCommitter(s: State, a: Action): State
    requires LockShape(s.pending)
  {
    match a
    case Commit(snapshot) =>
      if s.active && s.committer.Resting? && |snapshot| == WORDS
      then s.(pending := BeginWrite(s.pending, snapshot, InOrder(WORDS)), committer := Publishing) else s
    case CommitWord =>
      if s.committer.Publishing? && s.pending.writing.Some? then s.(pending := StoreWord(s.pending)) else s
    case CommitPublished =>
      if s.committer.Publishing? && s.pending.writing.Some? && s.pending.writing.value.left == []
      then s.(pending := EndWrite(s.pending), committer := Counting) else s
    case CommitCounted =>
      if s.committer.Counting? then s.(loadedRevision := s.loadedRevision + 1, committer := Resting) else s
    case _ => s
  }

  predicate LockShape(l: Lock<real>) {
    l.writing.Some? ==> |l.words| == |l.writing.value.next|
  }

  // ---- Audio thread --------------------------------------------------------------------------------------

  /** No replay this time: a block goes on with the engine as it is, a flush straight to its events. */
  function WithoutReplay(flush: bool): Audio {
    if flush then Flushing else Ready(false, None)
  }

  /** Up to the decision to replay, only the audio thread's own place changes. */
  function StepPreparing(s: State, a: Action): State {
    var t := s.audio;
    match a
    case BlockBegins =>
      if !s.active || !t.Idle? then s
      else if s.loadedRevision != s.applied then s.(audio := Loaded(false, s.loadedRevision))
      else s.(audio := Ready(false, None))
    case FlushBegins =>
      if !s.active || !t.Idle? then s
      else if s.loadedRevision != s.applied then s.(audio := Loaded(true, s.loadedRevision))
      else s.(audio := Flushing)
    case PendingBefore =>
      if !t.Loaded? then s
      else
        (match BeginRead(s.pending)
         case Some(attempt) => s.(audio := ReadingPending(t.flush, t.revision, attempt))
         case None => s.(audio := WithoutReplay(t.flush)))
    case PendingWord =>
      if t.ReadingPending? then s.(audio := t.(attempt := LoadWord(t.attempt, s.pending))) else s
    case PendingAfter =>
      if !t.ReadingPending? || |t.attempt.got| != |s.pending.words| then s
      else if ReadSucceeds(t.attempt, s.pending)
      then s.(audio := Checking(t.flush, t.revision, t.attempt.got, t.attempt.before / 2))
      else s.(audio := WithoutReplay(t.flush))
    case Recheck =>
      if !t.Checking? then s
      else if s.loadedRevision != t.revision then s.(audio := WithoutReplay(t.flush))
      else s.(audio := Ready(t.flush, Some(Replay(t.revision, t.load, t.value))))
    case _ => s
  }

  /** The values the engine is given: a load to replay comes before the block's own. */
  function Given(replay: Option<Replay>, edits: seq<Edit>): seq<Edit> {
    match replay
    case Some(x) => EventsFor(x.value, |x.value|) + edits
    case None => edits
  }

  /** A flush replays before it looks at its events. */
  predicate CanRun(s: State, edits: seq<Edit>) {
    s.audio.Ready? && (s.audio.flush ==> edits == [])
  }

  /** Replaying, and storing what was applied. A block that fails has accepted some of its values. */
  function StepApplying(s: State, a: Action): State {
    var t := s.audio;
    match a
    case EngineRuns(edits) =>
      if !CanRun(s, edits) then s
      else
        var ran := s.(engine := Edited(s.engine, Given(t.replay, edits)), audio := Syncing(t.flush));
        (match t.replay
         case Some(replay) => ran.(engineLoad := replay.load, engineEdits := edits, applied := replay.revision)
         case None => ran.(engineEdits := s.engineEdits + edits))
    case EngineFails(edits, accepted) =>
      if !CanRun(s, edits) || accepted > |Given(t.replay, edits)| then s
      else
        var taken := Given(t.replay, edits)[..accepted];
        s.(engine := Edited(s.engine, taken), engineEdits := s.engineEdits + taken, audio := Idle)
    case AppliedStored =>
      if !t.Storing? then s
      else if t.flush then s.(appliedPublished := s.applied, audio := Flushing)
      else s.(appliedPublished := s.applied, audio := Idle, blocks := s.blocks + 1)
    case FlushEnds => if t.Flushing? then s.(audio := Idle) else s
    case _ => s
  }

  /** Publishing on the host side: a whole snapshot, or a single flushed value. */
  function StepHost(s: State, a: Action): State
    requires LockShape(s.host)
  {
    var t := s.audio;
    match a
    case HostBegins =>
      if t.Syncing?
      then s.(host := BeginWrite(s.host, s.engine, InOrder(WORDS)), audio := Writing(t.flush)) else s
    case HostWord =>
      if (t.Writing? || t.WritingValue?) && s.host.writing.Some? then s.(host := StoreWord(s.host)) else s
    case HostEnds =>
      if !(t.Writing? || t.WritingValue?) || s.host.writing.None? || s.host.writing.value.left != [] then s
      else if t.Writing?
      then
        s.(host := EndWrite(s.host), hostLoads := s.hostLoads + [s.engineLoad],
           hostEdits := s.hostEdits + [s.engineEdits], audio := Storing(t.flush))
      else if s.hostLoads == [] || s.hostEdits == [] then s
      else
        s.(host := EndWrite(s.host), hostLoads := s.hostLoads + [s.hostLoads[|s.hostLoads| - 1]],
           hostEdits := s.hostEdits + [s.hostEdits[|s.hostEdits| - 1] + [t.edit]], audio := Flushing)
    case FlushValue(word, value) =>
      if !t.Flushing? || word >= WORDS || |s.engine| != WORDS || |s.host.words| != WORDS then s
      else s.(engine := s.engine[word := value], engineEdits := s.engineEdits + [Edit(word, value)],
              host := BeginWrite(s.host, s.host.words[word := value], [word]),
              audio := WritingValue(Edit(word, value)))
    case _ => s
  }

  // ---- Readers ---------------------------------------------------------------------------------------

  function Source(s: State, pending: bool): Lock<real> {
    if pending then s.pending else s.host
  }

  function StepReader(s: State, r: Reader, a: Action): Reader {
    match a
    case ReadBegins(_) => if r.Away? || r.Done? then Started(s.loadedRevision) else r
    case ReadRevision(_) => if r.Started? then Revised(r.floor, s.loadedRevision) else r
    case ReadApplied(_) =>
      if r.Revised? then Chosen(r.floor, r.revision, r.revision != s.appliedPublished) else r
    case ReadBefore(_) =>
      if !r.Chosen? then r
      else
        (match BeginRead(Source(s, r.pending))
         case Some(attempt) => Reading(r.floor, r.revision, r.pending, attempt)
         case None => r)
    case ReadWord(_) =>
      if r.Reading? then r.(attempt := LoadWord(r.attempt, Source(s, r.pending))) else r
    case ReadAfter(_) =>
      if !r.Reading? || |r.attempt.got| != |Source(s, r.pending).words| then r
      else if ReadSucceeds(r.attempt, Source(s, r.pending))
      then Read(r.floor, r.revision, r.pending, r.attempt.got, r.attempt.before / 2)
      else Chosen(r.floor, r.revision, r.pending)
    case ReadRecheck(_) =>
      if !r.Read? then r
      else if s.loadedRevision != r.revision then Started(r.floor)
      else Done(r.floor, r.revision, r.pending, r.value, r.index)
    case _ => r
  }

  function ReaderOf(a: Action): Option<nat> {
    match a
    case ReadBegins(r) => Some(r)
    case ReadRevision(r) => Some(r)
    case ReadApplied(r) => Some(r)
    case ReadBefore(r) => Some(r)
    case ReadWord(r) => Some(r)
    case ReadAfter(r) => Some(r)
    case ReadRecheck(r) => Some(r)
    case _ => None
  }

  // ---- Main thread alone -----------------------------------------------------------------------------

  /** No other thread is in the middle of anything. */
  predicate Quiet(s: State) {
    && s.committer.Resting? && s.audio.Idle? && s.pending.writing.None? && s.host.writing.None?
    && forall i :: 0 <= i < |s.readers| ==> s.readers[i].Away? || s.readers[i].Done?
  }

  function Published(l: Lock<real>, snapshot: Snapshot): Lock<real> {
    Lock(l.sequence + 2, snapshot, l.history + [snapshot], None)
  }

  /** Writes the effective snapshot, load `load` with `edits` since, to the host side. */
  function Materialized(s: State, snapshot: Snapshot, load: nat, edits: seq<Edit>): State {
    s.(host := Published(s.host, snapshot), hostLoads := s.hostLoads + [load], hostEdits := s.hostEdits + [edits],
       applied := s.loadedRevision, appliedPublished := s.loadedRevision)
  }

  function StepAlone(s: State, a: Action): State {
    if !Quiet(s) then s
    else
      match a
      case Activate =>
        if s.active || s.hostEdits == [] then s
        else
          var loaded := s.loadedRevision != s.appliedPublished;
          var retained := if loaded then s.pending.words else s.host.words;
          var edits := if loaded then [] else s.hostEdits[|s.hostEdits| - 1];
          Materialized(s, retained, s.loadedRevision, edits).(
            engine := retained, engineLoad := s.loadedRevision, engineEdits := edits, active := true)
      case Deactivate =>
        if !s.active then s
        else if s.loadedRevision == s.appliedPublished then s.(applied := s.loadedRevision, active := false)
        else Materialized(s, s.pending.words, s.loadedRevision, []).(active := false)
      case InactiveCommit(snapshot) =>
        if s.active || |snapshot| != WORDS then s
        else
          var counted := s.(pending := Published(s.pending, snapshot), loadedRevision := s.loadedRevision + 1);
          Materialized(counted, snapshot, counted.loadedRevision, [])
      case InactiveValue(word, value) =>
        if s.active || word >= |s.host.words| || s.hostLoads == [] || s.hostEdits == [] then s
        else
          s.(host := Published(s.host, s.host.words[word := value]),
             hostLoads := s.hostLoads + [s.hostLoads[|s.hostLoads| - 1]],
             hostEdits := s.hostEdits + [s.hostEdits[|s.hostEdits| - 1] + [Edit(word, value)]])
      case _ => s
  }

  predicate Commits(a: Action) {
    a.Commit? || a.CommitWord? || a.CommitPublished? || a.CommitCounted?
  }

  predicate PreparesReplay(a: Action) {
    a.BlockBegins? || a.FlushBegins? || a.PendingBefore? || a.PendingWord? || a.PendingAfter? || a.Recheck?
  }

  predicate WritesHost(a: Action) {
    a.HostBegins? || a.HostWord? || a.HostEnds? || a.FlushValue?
  }

  predicate RunsAlone(a: Action) {
    a.Activate? || a.Deactivate? || a.InactiveCommit? || a.InactiveValue?
  }

  ghost function Step(s: State, a: Action): State
    requires OrderOk(s)
  {
    if ReaderOf(a).Some? then
      var r := ReaderOf(a).value;
      if r < |s.readers| then s.(readers := s.readers[r := StepReader(s, s.readers[r], a)]) else s
    else if Commits(a) then StepCommitter(s, a)
    else if RunsAlone(a) then StepAlone(s, a)
    else if PreparesReplay(a) then StepPreparing(s, a)
    else if WritesHost(a) then StepHost(s, a)
    else StepApplying(s, a)
  }

  ghost function Run(s: State, steps: seq<Action>): (r: State)
    requires Ok(s)
    ensures Ok(r)
    decreases |steps|
  {
    if steps == [] then s
    else
      StepKeepsOk(s, steps[0]);
      Run(Step(s, steps[0]), steps[1..])
  }

  // ---- Invariant ------------------------------------------------------------------------------------------

  ghost predicate ReaderOk(r: Reader, s: State)
    requires LockOk(s.pending, WORDS) && LockOk(s.host, WORDS) && |s.hostLoads| == |s.host.history|
  {
    match r
    case Away => true
    case Started(floor) => floor <= s.loadedRevision
    case Revised(floor, revision) => floor <= revision <= s.loadedRevision
    case Chosen(floor, revision, pending) =>
      floor <= revision <= s.loadedRevision && (!pending ==> revision <= s.appliedPublished)
    case Reading(floor, revision, pending, attempt) =>
      && floor <= revision <= s.loadedRevision && (!pending ==> revision <= s.appliedPublished)
      && AttemptOk(attempt, Source(s, pending), WORDS)
      && Reflects(s, pending, attempt.before / 2, revision)
    case Read(floor, revision, pending, value, index) =>
      && floor <= revision <= s.loadedRevision
      && Reflects(s, pending, index, revision) && value == Source(s, pending).history[index]
    case Done(floor, revision, pending, value, index) =>
      && floor <= revision <= s.loadedRevision
      && Reflects(s, pending, index, revision) && value == Source(s, pending).history[index]
      && (pending ==> index <= revision + 1)
  }

  /** The snapshot is a load not older than the revision, or a host snapshot published after the engine
      replayed such a load. */
  predicate Reflects(s: State, pending: bool, index: nat, revision: nat)
    requires |s.hostLoads| == |s.host.history|
  {
    index < |Source(s, pending).history| && revision <= if pending then index else s.hostLoads[index]
  }

  /** A load the audio thread is about to replay. */
  predicate Replayable(s: State, revision: nat, load: nat) {
    s.applied <= revision <= s.loadedRevision && revision <= load < |s.pending.history| && s.engineLoad <= load
  }

  ghost predicate AudioOk(s: State)
    requires LockOk(s.pending, WORDS) && |s.hostLoads| == |s.host.history| && 0 < |s.hostLoads|
  {
    match s.audio
    case Loaded(_, revision) => s.applied <= revision <= s.loadedRevision
    case ReadingPending(_, revision, attempt) =>
      && s.applied <= revision <= s.loadedRevision && revision <= attempt.before / 2
      && AttemptOk(attempt, s.pending, WORDS)
    case Checking(_, revision, value, load) =>
      Replayable(s, revision, load) && value == s.pending.history[load]
    case Ready(_, replay) =>
      (match replay
       case Some(x) => Replayable(s, x.revision, x.load) && x.value == s.pending.history[x.load]
       case None => true)
    case Storing(_) => s.hostLoads[|s.hostLoads| - 1] == s.engineLoad
    case _ => true
  }

  ghost predicate CountersOk(s: State) {
    && |s.pending.history| == s.loadedRevision + 1 + (if s.committer.Counting? then 1 else 0)
    && (s.committer.Publishing? <==> s.pending.writing.Some?)
    && (s.audio.Writing? || s.audio.WritingValue? <==> s.host.writing.Some?)
    && s.appliedPublished <= s.applied <= s.loadedRevision && (s.active ==> s.applied <= s.engineLoad)
    && (!s.active ==> s.audio.Idle? && s.committer.Resting? && s.appliedPublished == s.loadedRevision)
    && |s.hostEdits| == |s.hostLoads| == |s.host.history| && 0 < |s.hostLoads|
    && (var newest := s.hostLoads[|s.hostLoads| - 1];
        s.appliedPublished <= newest < |s.pending.history| && (s.active ==> newest <= s.engineLoad))
    && s.engineLoad < |s.pending.history|
  }

  ghost predicate OrderOk(s: State) {
    && LockOk(s.pending, WORDS) && LockOk(s.host, WORDS) && |s.engine| == WORDS
    && CountersOk(s) && AudioOk(s)
    && forall i :: 0 <= i < |s.readers| ==> ReaderOk(s.readers[i], s)
  }

  /** A snapshot is the load behind it with the edits since. */
  ghost predicate IsLoadEdited(snapshot: Snapshot, loads: seq<Snapshot>, load: nat, edits: seq<Edit>) {
    load < |loads| && snapshot == Edited(loads[load], edits)
  }

  /** So is every host snapshot, and what the engine plays. */
  ghost predicate ValuesOk(s: State)
    requires OrderOk(s)
  {
    && IsLoadEdited(s.engine, s.pending.history, s.engineLoad, s.engineEdits)
    && (forall i :: 0 <= i < |s.host.history| ==>
          IsLoadEdited(s.host.history[i], s.pending.history, s.hostLoads[i], s.hostEdits[i]))
    && (s.audio.Writing? && s.host.writing.Some? ==> s.host.writing.value.next == s.engine)
    && (s.audio.WritingValue? && s.host.writing.Some? ==>
          && s.audio.edit.word < WORDS
          && s.host.writing.value.next == Edited(s.host.history[|s.host.history| - 1], [s.audio.edit]))
  }

  ghost predicate Ok(s: State) {
    OrderOk(s) && ValuesOk(s)
  }

  // ---- What the steps keep ---------------------------------------------------------------------------

  predicate LockGrows(l: Lock<real>, r: Lock<real>) {
    && l.sequence <= r.sequence && l.history <= r.history
    && (l.sequence == r.sequence && l.sequence % 2 == 0 ==> r == l)
  }

  predicate Grows(s: State, r: State) {
    && LockGrows(s.pending, r.pending) && LockGrows(s.host, r.host) && s.hostLoads <= r.hostLoads
    && s.loadedRevision <= r.loadedRevision && s.appliedPublished <= r.appliedPublished
    && r.readers == s.readers
  }

  lemma ReadersStay(s: State, r: State)
    requires OrderOk(s) && LockOk(r.pending, WORDS) && LockOk(r.host, WORDS) && |r.hostLoads| == |r.host.history|
    requires Grows(s, r)
    ensures forall i :: 0 <= i < |r.readers| ==> ReaderOk(r.readers[i], r)
  {
    forall i | 0 <= i < |r.readers| ensures ReaderOk(r.readers[i], r) {
      ReaderStays(r.readers[i], s, r);
    }
  }

  lemma ReaderStays(x: Reader, s: State, r: State)
    requires LockOk(s.pending, WORDS) && LockOk(s.host, WORDS) && |s.hostLoads| == |s.host.history|
    requires LockOk(r.pending, WORDS) && LockOk(r.host, WORDS) && |r.hostLoads| == |r.host.history|
    requires Grows(s, r) && ReaderOk(x, s)
    ensures ReaderOk(x, r)
  {
    if x.Reading? {
      WriterKeepsAttempt(x.attempt, Source(s, x.pending), Source(r, x.pending), WORDS);
    }
  }

  /** What the steps need to know of the two locks. */
  lemma WordsAreWhole(s: State)
    requires OrderOk(s)
    ensures |s.pending.words| == |s.host.words| == WORDS
    ensures LockShape(s.pending) && LockShape(s.host)
    ensures s.pending.sequence % 2 == 0 <==> s.pending.writing.None?
    ensures s.host.sequence % 2 == 0 <==> s.host.writing.None?
  {
  }

  lemma AudioStays(s: State, r: State)
    requires OrderOk(s) && LockOk(r.pending, WORDS) && Grows(s, r) && |r.hostLoads| == |r.host.history|
    requires r.audio == s.audio && r.applied == s.applied && r.engineLoad == s.engineLoad && r.hostLoads == s.hostLoads
    ensures AudioOk(r)
  {
    if s.audio.ReadingPending? {
      WriterKeepsAttempt(s.audio.attempt, s.pending, r.pending, WORDS);
    }
  }

  lemma CommitterKeepsOk(s: State, a: Action)
    requires OrderOk(s) && Commits(a)
    ensures OrderOk(StepCommitter(s, a))
  {
    WordsAreWhole(s);
    hide ReaderOk, LockOk, AttemptOk, AudioOk;
    var r := StepCommitter(s, a);
    if a.Commit? && |a.snapshot| == WORDS {
      BeginKeepsOk(s.pending, WORDS, a.snapshot, InOrder(WORDS));
    } else if s.committer.Publishing? {
      StoreKeepsOk(s.pending, WORDS);
      EndKeepsOk(s.pending, WORDS);
    }
    AudioStays(s, r);
    ReadersStay(s, r);
  }

  lemma SamePlace(s: State, r: State)
    requires OrderOk(s) && r == s.(audio := r.audio)
    ensures forall i :: 0 <= i < |r.readers| ==> ReaderOk(r.readers[i], r)
  {
    ReadersStay(s, r);
  }

  lemma PreparingKeepsOk(s: State, a: Action)
    requires OrderOk(s) && PreparesReplay(a)
    ensures OrderOk(StepPreparing(s, a))
  {
    hide ReaderOk;
    var r := StepPreparing(s, a);
    SamePlace(s, r);
    if s.audio.Loaded? {
      BeginReadIsOk(s.pending, WORDS);
    } else if s.audio.ReadingPending? {
      LoadKeepsOk(s.audio.attempt, s.pending, WORDS);
      if ReadSucceeds(s.audio.attempt, s.pending) {
        ReadIsWhole(s.audio.attempt, s.pending, WORDS);
      }
    }
  }

  lemma ApplyingKeepsOk(s: State, a: Action)
    requires OrderOk(s)
    ensures OrderOk(StepApplying(s, a))
  {
    hide ReaderOk, LockOk, AttemptOk;
    ReadersStay(s, StepApplying(s, a));
  }

  lemma HostBeginsKeepsOk(s: State)
    requires OrderOk(s)
    ensures LockShape(s.host) && OrderOk(StepHost(s, HostBegins))
  {
    hide ReaderOk, LockOk, AttemptOk;
    WordsAreWhole(s);
    if s.audio.Syncing? {
      BeginKeepsOk(s.host, WORDS, s.engine, InOrder(WORDS));
    }
    ReadersStay(s, StepHost(s, HostBegins));
  }

  lemma HostWordKeepsOk(s: State)
    requires OrderOk(s)
    ensures LockShape(s.host) && OrderOk(StepHost(s, HostWord))
  {
    WordsAreWhole(s);
    hide ReaderOk, LockOk, AttemptOk;
    if s.host.writing.Some? {
      StoreKeepsOk(s.host, WORDS);
    }
    ReadersStay(s, StepHost(s, HostWord));
  }

  lemma HostEndsKeepsOk(s: State)
    requires OrderOk(s)
    ensures LockShape(s.host) && OrderOk(StepHost(s, HostEnds))
  {
    WordsAreWhole(s);
    hide ReaderOk, LockOk, AttemptOk;
    EndKeepsOk(s.host, WORDS);
    ReadersStay(s, StepHost(s, HostEnds));
  }

  lemma FlushValueKeepsOk(s: State, word: nat, value: real)
    requires OrderOk(s)
    ensures LockShape(s.host) && OrderOk(StepHost(s, FlushValue(word, value)))
  {
    WordsAreWhole(s);
    hide ReaderOk, LockOk, AttemptOk;
    if s.audio.Flushing? && word < WORDS {
      BeginKeepsOk(s.host, WORDS, s.host.words[word := value], [word]);
    }
    ReadersStay(s, StepHost(s, FlushValue(word, value)));
  }

  lemma PublishedIsOk(l: Lock<real>, snapshot: Snapshot)
    requires LockOk(l, WORDS) && l.writing.None? && |snapshot| == WORDS
    ensures LockOk(Published(l, snapshot), WORDS) && LockGrows(l, Published(l, snapshot))
  {
  }

  lemma ActivateKeepsOk(s: State)
    requires OrderOk(s)
    ensures OrderOk(StepAlone(s, Activate))
  {
    WordsAreWhole(s);
    hide ReaderOk, LockOk, AttemptOk;
    if Quiet(s) {
      PublishedIsOk(s.host, s.pending.words);
      PublishedIsOk(s.host, s.host.words);
      ReadersStay(s, StepAlone(s, Activate));
    }
  }

  lemma DeactivateKeepsOk(s: State)
    requires OrderOk(s)
    ensures OrderOk(StepAlone(s, Deactivate))
  {
    WordsAreWhole(s);
    hide ReaderOk, LockOk, AttemptOk;
    if Quiet(s) {
      PublishedIsOk(s.host, s.pending.words);
      ReadersStay(s, StepAlone(s, Deactivate));
    }
  }

  lemma InactiveCommitKeepsOk(s: State, snapshot: Snapshot)
    requires OrderOk(s)
    ensures OrderOk(StepAlone(s, InactiveCommit(snapshot)))
  {
    WordsAreWhole(s);
    hide ReaderOk, LockOk, AttemptOk;
    if Quiet(s) && |snapshot| == WORDS {
      PublishedIsOk(s.pending, snapshot);
      PublishedIsOk(s.host, snapshot);
      ReadersStay(s, StepAlone(s, InactiveCommit(snapshot)));
    }
  }

  lemma InactiveValueKeepsOk(s: State, word: nat, value: real)
    requires OrderOk(s)
    ensures OrderOk(StepAlone(s, InactiveValue(word, value)))
  {
    WordsAreWhole(s);
    hide ReaderOk, LockOk, AttemptOk;
    if Quiet(s) && word < WORDS {
      PublishedIsOk(s.host, s.host.words[word := value]);
      ReadersStay(s, StepAlone(s, InactiveValue(word, value)));
    }
  }

  lemma ReaderStepKeepsOk(s: State, x: Reader, a: Action)
    requires OrderOk(s) && ReaderOk(x, s)
    ensures ReaderOk(StepReader(s, x, a), s)
  {
    if x.Chosen? {
      BeginReadIsOk(Source(s, x.pending), WORDS);
    } else if x.Reading? {
      LoadKeepsOk(x.attempt, Source(s, x.pending), WORDS);
      if ReadSucceeds(x.attempt, Source(s, x.pending)) {
        ReadIsWhole(x.attempt, Source(s, x.pending), WORDS);
      }
    }
  }

  lemma ReadingKeepsOk(s: State, a: Action)
    requires OrderOk(s) && ReaderOf(a).Some?
    ensures OrderOk(Step(s, a))
  {
    hide LockOk, ReaderOk, StepReader;
    var r := ReaderOf(a).value;
    if r < |s.readers| {
      ReaderStepKeepsOk(s, s.readers[r], a);
      var after := Step(s, a);
      forall i | 0 <= i < |after.readers| ensures ReaderOk(after.readers[i], after) {
        assert ReaderOk(after.readers[i], s);
        SameLocks(after.readers[i], s, after);
      }
    }
  }

  lemma SameLocks(x: Reader, s: State, r: State)
    requires LockOk(s.pending, WORDS) && LockOk(s.host, WORDS) && |s.hostLoads| == |s.host.history|
    requires r == s.(readers := r.readers) && ReaderOk(x, s)
    ensures ReaderOk(x, r)
  {
  }

  // ---- The values the steps keep -------------------------------------------------------------------------

  /** Nothing was loaded over, and the engine and the host snapshots are as they were. */
  predicate SameValues(s: State, r: State) {
    && s.pending.history <= r.pending.history && r.engine == s.engine && r.engineLoad == s.engineLoad
    && r.engineEdits == s.engineEdits && r.host.history == s.host.history
    && r.hostLoads == s.hostLoads && r.hostEdits == s.hostEdits
  }

  lemma SameValuesOk(s: State, r: State)
    requires Ok(s) && OrderOk(r) && SameValues(s, r) && r.host == s.host
    requires r.audio == s.audio || !(r.audio.Writing? || r.audio.WritingValue?)
    ensures ValuesOk(r)
  {
    hide Edited, ReaderOk, AudioOk, AttemptOk;
    forall i | 0 <= i < |r.host.history|
      ensures IsLoadEdited(r.host.history[i], r.pending.history, r.hostLoads[i], r.hostEdits[i])
    {
      assert IsLoadEdited(s.host.history[i], s.pending.history, s.hostLoads[i], s.hostEdits[i]);
    }
  }

  lemma CommitterKeepsValues(s: State, a: Action)
    requires Ok(s) && Commits(a)
    ensures OrderOk(StepCommitter(s, a)) && ValuesOk(StepCommitter(s, a))
  {
    CommitterKeepsOk(s, a);
    WordsAreWhole(s);
    var r := StepCommitter(s, a);
    assert SameValues(s, r) by {
      hide OrderOk, ValuesOk;
    }
    hide OrderOk, ValuesOk, StepCommitter, SameValues;
    SameValuesOk(s, r);
  }

  lemma PreparingKeepsValues(s: State, a: Action)
    requires Ok(s) && PreparesReplay(a)
    ensures OrderOk(StepPreparing(s, a)) && ValuesOk(StepPreparing(s, a))
  {
    PreparingKeepsOk(s, a);
    PreparingOnlyMoves(s, a);
    hide OrderOk, ValuesOk, StepPreparing;
    SameValuesOk(s, StepPreparing(s, a));
  }

  lemma PreparingOnlyMoves(s: State, a: Action)
    ensures
      var r := StepPreparing(s, a);
      r == s.(audio := r.audio) && (r.audio == s.audio || !(r.audio.Writing? || r.audio.WritingValue?))
  {
  }

  lemma ReadingKeepsValues(s: State, a: Action)
    requires Ok(s) && ReaderOf(a).Some?
    ensures OrderOk(Step(s, a)) && ValuesOk(Step(s, a))
  {
    ReadingKeepsOk(s, a);
    hide OrderOk, ValuesOk, StepReader;
    SameValuesOk(s, Step(s, a));
  }

  /** The engine is given the words of the load, or goes on from what it has. */
  lemma EngineKeepsValues(s: State, a: Action)
    requires Ok(s) && (a.EngineRuns? || a.EngineFails?)
    ensures OrderOk(StepApplying(s, a)) && ValuesOk(StepApplying(s, a))
  {
    ApplyingKeepsOk(s, a);
    var r := StepApplying(s, a);
    var load := s.pending.history[s.engineLoad];
    if CanRun(s, a.edits) {
      if a.EngineFails? {
        var given := Given(s.audio.replay, a.edits);
        if a.accepted <= |given| {
          EditedTwice(load, s.engineEdits, given[..a.accepted]);
        }
      } else {
        match s.audio.replay
        case Some(x) => EventsReplay(s.engine, x.value, a.edits);
        case None => EditedTwice(load, s.engineEdits, a.edits);
      }
      hide ReaderOk, AttemptOk, Edited, LockOk;
      EngineOnlyOk(s, r);
    }
  }

  lemma EngineOnlyOk(s: State, r: State)
    requires Ok(s) && OrderOk(r) && r.pending == s.pending && r.host == s.host
    requires r.hostLoads == s.hostLoads && r.hostEdits == s.hostEdits
    requires !r.audio.Writing? && !r.audio.WritingValue?
    requires IsLoadEdited(r.engine, r.pending.history, r.engineLoad, r.engineEdits)
    ensures ValuesOk(r)
  {
    hide IsLoadEdited, ReaderOk, AudioOk, AttemptOk;
  }

  lemma StoringKeepsValues(s: State, a: Action)
    requires Ok(s) && !a.EngineRuns? && !a.EngineFails?
    ensures OrderOk(StepApplying(s, a)) && ValuesOk(StepApplying(s, a))
  {
    ApplyingKeepsOk(s, a);
    hide OrderOk, ValuesOk;
    SameValuesOk(s, StepApplying(s, a));
  }

  lemma HostBeginsKeepsValues(s: State)
    requires Ok(s)
    ensures LockShape(s.host) && OrderOk(StepHost(s, HostBegins)) && ValuesOk(StepHost(s, HostBegins))
  {
    HostBeginsKeepsOk(s);
    hide IsLoadEdited, ReaderOk, AudioOk, AttemptOk;
  }

  lemma HostWordKeepsValues(s: State)
    requires Ok(s)
    ensures LockShape(s.host) && OrderOk(StepHost(s, HostWord)) && ValuesOk(StepHost(s, HostWord))
  {
    HostWordKeepsOk(s);
    hide IsLoadEdited, ReaderOk, AudioOk, AttemptOk;
    if s.host.writing.Some? {
      StoreKeepsOk(s.host, WORDS);
    }
  }

  lemma HostEndsKeepsValues(s: State)
    requires Ok(s)
    ensures LockShape(s.host) && OrderOk(StepHost(s, HostEnds)) && ValuesOk(StepHost(s, HostEnds))
  {
    HostEndsKeepsOk(s);
    EndKeepsOk(s.host, WORDS);
    var r := StepHost(s, HostEnds);
    var n := |s.host.history|;
    if r.host != s.host {
      if s.audio.WritingValue? {
        var newest := n - 1;
        assert IsLoadEdited(s.host.history[newest], s.pending.history, s.hostLoads[newest], s.hostEdits[newest]);
        EditedTwice(s.pending.history[s.hostLoads[newest]], s.hostEdits[newest], [s.audio.edit]);
      }
      assert IsLoadEdited(r.host.history[n], r.pending.history, r.hostLoads[n], r.hostEdits[n]);
      hide IsLoadEdited, ReaderOk, AudioOk, AttemptOk, Edited;
      OneMoreSnapshot(s, r);
    }
  }

  lemma OneMoreSnapshot(s: State, r: State)
    requires Ok(s) && OrderOk(r) && s.pending.history <= r.pending.history && r.host.writing.None?
    requires s.host.history < r.host.history && s.hostLoads < r.hostLoads && s.hostEdits < r.hostEdits
    requires |r.host.history| == |s.host.history| + 1
    requires
      var n := |s.host.history|;
      IsLoadEdited(r.host.history[n], r.pending.history, r.hostLoads[n], r.hostEdits[n])
    requires IsLoadEdited(r.engine, r.pending.history, r.engineLoad, r.engineEdits)
    ensures ValuesOk(r)
  {
    hide ReaderOk, AudioOk, AttemptOk, Edited;
    forall i | 0 <= i < |s.host.history|
      ensures IsLoadEdited(r.host.history[i], r.pending.history, r.hostLoads[i], r.hostEdits[i])
    {
      assert IsLoadEdited(s.host.history[i], s.pending.history, s.hostLoads[i], s.hostEdits[i]);
    }
  }

  /** While a flush looks at its events, the host words are the newest host snapshot. */
  lemma FlushingIsWhole(s: State)
    requires OrderOk(s) && s.audio.Flushing?
    ensures s.host.writing.None? && |s.engine| == |s.host.words| == WORDS && 0 < |s.host.history|
    ensures s.host.words == s.host.history[|s.host.history| - 1]
  {
  }

  lemma OneMoreEdit(snapshot: Snapshot, loads: seq<Snapshot>, load: nat, edits: seq<Edit>, e: Edit)
    requires IsLoadEdited(snapshot, loads, load, edits) && e.word < |snapshot|
    ensures IsLoadEdited(snapshot[e.word := e.value], loads, load, edits + [e])
  {
    EditedOnce(loads[load], edits, e);
  }

  lemma OneEdit(snapshot: Snapshot, e: Edit)
    requires e.word < |snapshot|
    ensures snapshot[e.word := e.value] == Edited(snapshot, [e])
  {
    EditedOnce(snapshot, [], e);
    assert [] + [e] == [e];
  }

  lemma FlushValueKeepsValues(s: State, word: nat, value: real)
    requires Ok(s)
    ensures LockShape(s.host)
    ensures OrderOk(StepHost(s, FlushValue(word, value))) && ValuesOk(StepHost(s, FlushValue(word, value)))
  {
    hide OrderOk, IsLoadEdited, Edited;
    FlushValueKeepsOk(s, word, value);
    if s.audio.Flushing? && word < WORDS {
      FlushingIsWhole(s);
      OneMoreEdit(s.engine, s.pending.history, s.engineLoad, s.engineEdits, Edit(word, value));
      OneEdit(s.host.words, Edit(word, value));
    }
  }

  lemma AloneKeepsOrder(s: State, a: Action)
    requires OrderOk(s) && RunsAlone(a)
    ensures OrderOk(StepAlone(s, a))
  {
    hide OrderOk;
    match a
    case Activate => ActivateKeepsOk(s);
    case Deactivate => DeactivateKeepsOk(s);
    case InactiveCommit(snapshot) => InactiveCommitKeepsOk(s, snapshot);
    case InactiveValue(word, value) => InactiveValueKeepsOk(s, word, value);
  }

  /** The newest load is what the pending words hold, and while nothing runs the newest host snapshot
      stands for it. */
  lemma NewestWhileQuiet(s: State)
    requires OrderOk(s) && Quiet(s)
    ensures |s.pending.history| == s.loadedRevision + 1 && s.pending.words == s.pending.history[s.loadedRevision]
    ensures s.host.words == s.host.history[|s.host.history| - 1]
    ensures !s.active ==> s.hostLoads[|s.hostLoads| - 1] == s.loadedRevision == s.appliedPublished
  {
  }

  lemma AloneKeepsValues(s: State, a: Action)
    requires Ok(s) && RunsAlone(a)
    ensures OrderOk(StepAlone(s, a)) && ValuesOk(StepAlone(s, a))
  {
    AloneKeepsOrder(s, a);
    var r := StepAlone(s, a);
    if Quiet(s) && r != s {
      NewestWhileQuiet(s);
      var n := |s.host.history|;
      assert IsLoadEdited(s.host.history[n - 1], s.pending.history, s.hostLoads[n - 1], s.hostEdits[n - 1]);
      if a.InactiveValue? && a.word < WORDS {
        EditedOnce(s.pending.history[s.hostLoads[n - 1]], s.hostEdits[n - 1], Edit(a.word, a.value));
      }
      if r.host == s.host {
        SameValuesOk(s, r);
      } else {
        hide ReaderOk, AudioOk, AttemptOk;
        OneMoreSnapshot(s, r);
      }
    }
  }

  lemma StepKeepsValues(s: State, a: Action)
    requires Ok(s)
    ensures OrderOk(Step(s, a)) && ValuesOk(Step(s, a))
  {
    hide OrderOk, ValuesOk;
    if ReaderOf(a).Some? {
      ReadingKeepsValues(s, a);
    } else if Commits(a) {
      CommitterKeepsValues(s, a);
    } else if RunsAlone(a) {
      AloneKeepsValues(s, a);
    } else if PreparesReplay(a) {
      PreparingKeepsValues(s, a);
    } else if a.HostBegins? {
      HostBeginsKeepsValues(s);
    } else if a.FlushValue? {
      FlushValueKeepsValues(s, a.word, a.value);
    } else if a.HostWord? {
      HostWordKeepsValues(s);
    } else if a.HostEnds? {
      HostEndsKeepsValues(s);
    } else if a.EngineRuns? || a.EngineFails? {
      EngineKeepsValues(s, a);
    } else {
      StoringKeepsValues(s, a);
    }
  }

  /** What every step of every thread keeps: revisions and loads in order, and every value accounted for. */
  lemma StepKeepsOk(s: State, a: Action)
    requires Ok(s)
    ensures Ok(Step(s, a))
  {
    hide OrderOk, ValuesOk;
    StepKeepsValues(s, a);
  }

  // ---- No read is older than a commit that has returned ------------------------------------------------

  /** The read, if one is under way, began when at least `n` loads had been committed. */
  predicate BeganAfter(x: Reader, n: nat) {
    x.Away? || n <= x.floor
  }

  /** The state went on without touching the readers, and nothing committed was taken back. */
  predicate WentOn(s: State, r: State) {
    r.readers == s.readers && s.loadedRevision <= r.loadedRevision && s.pending.history <= r.pending.history
  }

  lemma AudioGoesOn(s: State, a: Action)
    requires LockShape(s.host)
    ensures WentOn(s, StepPreparing(s, a)) && WentOn(s, StepApplying(s, a)) && WentOn(s, StepHost(s, a))
  {
  }

  lemma MainGoesOn(s: State, a: Action)
    requires LockShape(s.pending)
    ensures WentOn(s, StepCommitter(s, a)) && WentOn(s, StepAlone(s, a))
  {
  }

  lemma OthersLeaveReaders(s: State, a: Action)
    requires Ok(s) && ReaderOf(a).None?
    ensures WentOn(s, Step(s, a))
  {
    WordsAreWhole(s);
    AudioGoesOn(s, a);
    MainGoesOn(s, a);
    hide OrderOk, ValuesOk, WentOn, StepCommitter, StepAlone, StepPreparing, StepHost, StepApplying;
  }

  lemma StepKeepsBegan(s: State, a: Action, r: nat, n: nat)
    requires Ok(s) && r < |s.readers| && n <= s.loadedRevision && BeganAfter(s.readers[r], n)
    ensures |Step(s, a).readers| == |s.readers| && n <= Step(s, a).loadedRevision
    ensures BeganAfter(Step(s, a).readers[r], n)
  {
    hide OrderOk, ValuesOk, StepCommitter, StepAlone, StepPreparing, StepHost, StepApplying;
    if ReaderOf(a).None? {
      OthersLeaveReaders(s, a);
    }
  }

  lemma {:induction false} RunKeepsBegan(s: State, steps: seq<Action>, r: nat, n: nat)
    requires Ok(s) && r < |s.readers| && n <= s.loadedRevision && BeganAfter(s.readers[r], n)
    ensures |Run(s, steps).readers| == |s.readers| && BeganAfter(Run(s, steps).readers[r], n)
    decreases |steps|
  {
    hide OrderOk, ValuesOk, Step;
    if steps != [] {
      StepKeepsOk(s, steps[0]);
      StepKeepsBegan(s, steps[0], r, n);
      RunKeepsBegan(Step(s, steps[0]), steps[1..], r, n);
    }
  }

  lemma FinishedReadIsWhole(t: State, r: nat)
    requires Ok(t) && r < |t.readers| && t.readers[r].Done?
    ensures
      var x := t.readers[r];
      && x.floor <= x.revision && |t.hostLoads| == |t.hostEdits| == |t.host.history|
      && x.index < |Source(t, x.pending).history| && x.value == Source(t, x.pending).history[x.index]
      && if x.pending then x.revision <= x.index <= x.revision + 1
         else
           && x.revision <= t.hostLoads[x.index]
           && IsLoadEdited(x.value, t.pending.history, t.hostLoads[x.index], t.hostEdits[x.index])
  {
    hide LockOk, AttemptOk, IsLoadEdited, AudioOk;
    assert ReaderOk(t.readers[r], t);
  }

  lemma RunBegins(s: State, steps: seq<Action>, r: nat)
    requires Ok(s) && r < |s.readers|
    requires s.readers[r].Away? || (s.readers[r].Done? && steps != [] && steps[0] == ReadBegins(r))
    ensures |Run(s, steps).readers| == |s.readers| && BeganAfter(Run(s, steps).readers[r], s.loadedRevision)
  {
    hide OrderOk, ValuesOk;
    if s.readers[r].Away? {
      RunKeepsBegan(s, steps, r, s.loadedRevision);
    } else {
      StepKeepsOk(s, steps[0]);
      RunKeepsBegan(Step(s, steps[0]), steps[1..], r, s.loadedRevision);
    }
  }

  /** A read that begins after load n was committed never yields anything older: it is a whole loaded
      snapshot, of the revision it names or of the load just being committed on top, or a whole host
      snapshot published after the engine replayed such a load, and then the words of that load with
      the values accepted since. The reader may have read before. */
  lemma EffectiveReadsAreFresh(s: State, steps: seq<Action>, r: nat)
    requires Ok(s) && r < |s.readers|
    requires s.readers[r].Away? || (s.readers[r].Done? && steps != [] && steps[0] == ReadBegins(r))
    ensures
      var t := Run(s, steps);
      && |t.readers| == |s.readers|
      && (t.readers[r].Done? ==>
           var x := t.readers[r];
           && s.loadedRevision <= x.revision
           && x.index < |Source(t, x.pending).history| && |t.hostLoads| == |t.host.history|
           && x.value == Source(t, x.pending).history[x.index]
           && if x.pending then x.revision <= x.index <= x.revision + 1
              else
                && s.loadedRevision <= x.revision <= t.hostLoads[x.index]
                && |t.hostEdits| == |t.hostLoads|
                && IsLoadEdited(x.value, t.pending.history, t.hostLoads[x.index], t.hostEdits[x.index]))
  {
    hide OrderOk, ValuesOk, Run, IsLoadEdited;
    RunBegins(s, steps, r);
    var t := Run(s, steps);
    if t.readers[r].Done? {
      FinishedReadIsWhole(t, r);
    }
  }

  lemma StepKeepsLoads(s: State, a: Action)
    requires Ok(s)
    ensures s.pending.history <= Step(s, a).pending.history
  {
    hide OrderOk, ValuesOk, StepCommitter, StepAlone, StepPreparing, StepHost, StepApplying, StepReader;
    if ReaderOf(a).None? {
      OthersLeaveReaders(s, a);
    }
  }

  /** Load n, once committed, stays load n. */
  lemma {:induction false} CommittedLoadsStay(s: State, steps: seq<Action>, n: nat)
    requires Ok(s) && n < |s.pending.history|
    ensures n < |Run(s, steps).pending.history| && Run(s, steps).pending.history[n] == s.pending.history[n]
    decreases |steps|
  {
    hide OrderOk, ValuesOk, Step;
    if steps != [] {
      StepKeepsOk(s, steps[0]);
      StepKeepsLoads(s, steps[0]);
      CommittedLoadsStay(Step(s, steps[0]), steps[1..], n);
    }
  }

  // ---- A block that no commit disturbs -------------------------------------------------------------------

  predicate Undisturbed(a: Action) {
    !Commits(a) && !RunsAlone(a) && !a.EngineFails?
  }

  /** `n` loads are committed and none is under way; every block since the count stood at `blocks` has
      caught up with them, and the one in progress will. */
  ghost predicate CatchingUp(s: State, n: nat, blocks: nat) {
    && s.committer.Resting? && s.pending.writing.None? && s.loadedRevision == n
    && (blocks < s.blocks ==> s.applied == n && s.appliedPublished == n)
    && match s.audio
       case Loaded(_, revision) => revision == n
       case ReadingPending(_, revision, attempt) => revision == n && attempt.before == s.pending.sequence
       case Checking(_, revision, _, _) => revision == n
       case Ready(_, replay) => (match replay case Some(x) => x.revision == n case None => s.applied == n)
       case Syncing(_) => s.applied == n
       case Writing(_) => s.applied == n
       case Storing(_) => s.applied == n
       case Flushing => s.applied == n
       case WritingValue(_) => s.applied == n
       case Idle => true
  }

  lemma StepKeepsCatchingUp(s: State, a: Action, n: nat, blocks: nat)
    requires Ok(s) && CatchingUp(s, n, blocks) && Undisturbed(a) && blocks <= s.blocks
    ensures CatchingUp(Step(s, a), n, blocks) && s.blocks <= Step(s, a).blocks
  {
    hide OrderOk, ValuesOk, CatchingUp, StepPreparing, StepApplying, StepHost, StepReader;
    WordsAreWhole(s);
    if PreparesReplay(a) {
      PreparingKeepsCatchingUp(s, a, n, blocks);
    } else if WritesHost(a) {
      HostKeepsCatchingUp(s, a, n, blocks);
    } else if ReaderOf(a).Some? {
      ReadersKeepCatchingUp(s, Step(s, a), n, blocks);
    } else {
      ApplyingKeepsCatchingUp(s, a, n, blocks);
    }
  }

  lemma HostKeepsCatchingUp(s: State, a: Action, n: nat, blocks: nat)
    requires LockShape(s.host) && CatchingUp(s, n, blocks)
    ensures CatchingUp(StepHost(s, a), n, blocks) && s.blocks == StepHost(s, a).blocks
  {
  }

  lemma ReadersKeepCatchingUp(s: State, r: State, n: nat, blocks: nat)
    requires CatchingUp(s, n, blocks) && r == s.(readers := r.readers)
    ensures CatchingUp(r, n, blocks)
  {
  }

  lemma ApplyingKeepsCatchingUp(s: State, a: Action, n: nat, blocks: nat)
    requires CatchingUp(s, n, blocks) && !a.EngineFails? && blocks <= s.blocks
    ensures CatchingUp(StepApplying(s, a), n, blocks) && s.blocks <= StepApplying(s, a).blocks
  {
    hide Edited, EventsFor, Given;
  }

  lemma PreparingKeepsCatchingUp(s: State, a: Action, n: nat, blocks: nat)
    requires Ok(s) && CatchingUp(s, n, blocks) && PreparesReplay(a)
    ensures CatchingUp(StepPreparing(s, a), n, blocks) && s.blocks == StepPreparing(s, a).blocks
  {
    hide ReaderOk, AttemptOk, ValuesOk;
  }

  lemma {:induction false} RunKeepsCatchingUp(s: State, steps: seq<Action>, n: nat, blocks: nat)
    requires Ok(s) && CatchingUp(s, n, blocks) && blocks <= s.blocks
    requires forall i :: 0 <= i < |steps| ==> Undisturbed(steps[i])
    ensures CatchingUp(Run(s, steps), n, blocks)
    decreases |steps|
  {
    hide OrderOk, ValuesOk, Step, CatchingUp;
    if steps != [] {
      StepKeepsOk(s, steps[0]);
      StepKeepsCatchingUp(s, steps[0], n, blocks);
      RunKeepsCatchingUp(Step(s, steps[0]), steps[1..], n, blocks);
    }
  }

  /** Once a block has run to its end with no commit under way, every committed load is applied, and
      readers are told so. */
  lemma UndisturbedBlockApplies(s: State, steps: seq<Action>)
    requires Ok(s) && s.audio.Idle? && s.committer.Resting?
    requires forall i :: 0 <= i < |steps| ==> Undisturbed(steps[i])
    ensures
      var t := Run(s, steps);
      s.blocks < t.blocks ==>
        && t.applied == t.appliedPublished == t.loadedRevision == s.loadedRevision
        && t.hostLoads != [] && s.loadedRevision <= t.hostLoads[|t.hostLoads| - 1]
  {
    hide Run, LockOk;
    RunKeepsCatchingUp(s, steps, s.loadedRevision, s.blocks);
  }

  /** A flush looks at its events only once every committed load is applied, so what it sets is set on top
      of the load. */
  lemma UndisturbedFlushApplies(s: State, steps: seq<Action>)
    requires Ok(s) && s.audio.Idle? && s.committer.Resting?
    requires forall i :: 0 <= i < |steps| ==> Undisturbed(steps[i])
    ensures
      var t := Run(s, steps);
      t.audio.Flushing? || t.audio.WritingValue? ==>
        t.applied == t.loadedRevision == s.loadedRevision && s.loadedRevision <= t.engineLoad
  {
    hide Run, LockOk;
    RunKeepsCatchingUp(s, steps, s.loadedRevision, s.blocks);
    ActiveWhileFlushing(Run(s, steps));
  }

  lemma ActiveWhileFlushing(s: State)
    requires Ok(s)
    ensures s.audio.Flushing? || s.audio.WritingValue? ==> s.applied <= s.engineLoad
  {
  }

  // ---- ... and the values reach the engine and the host ---------------------------------------------------

  /** The values a step makes the engine accept, besides a load. */
  function Taken(s: State, a: Action): seq<Edit> {
    match a
    case EngineRuns(edits) => if CanRun(s, edits) then edits else []
    case FlushValue(word, value) =>
      if s.audio.Flushing? && word < WORDS && |s.engine| == |s.host.words| == WORDS then [Edit(word, value)] else []
    case _ => []
  }

  ghost function TakenIn(s: State, steps: seq<Action>): seq<Edit>
    requires Ok(s)
    decreases |steps|
  {
    if steps == [] then []
    else
      StepKeepsOk(s, steps[0]);
      Taken(s, steps[0]) + TakenIn(Step(s, steps[0]), steps[1..])
  }

  predicate EndsWith(all: seq<Edit>, part: seq<Edit>) {
    |part| <= |all| && all[|all| - |part|..] == part
  }

  /** Once load `n` is replayed, the engine has accepted nothing since but the last of `taken`, and the
      host side is either being told or knows. */
  predicate Current(s: State, n: nat, taken: seq<Edit>) {
    0 < |s.hostLoads| == |s.hostEdits| && s.applied == n ==>
      var last := |s.hostLoads| - 1;
      && s.engineLoad == n && EndsWith(taken, s.engineEdits)
      && match s.audio
         case Syncing(_) => true
         case Writing(_) => true
         case WritingValue(edit) => s.hostLoads[last] == n && s.hostEdits[last] + [edit] == s.engineEdits
         case _ => s.hostLoads[last] == n && s.hostEdits[last] == s.engineEdits
  }

  lemma EndsWithMore(all: seq<Edit>, part: seq<Edit>, more: seq<Edit>)
    requires EndsWith(all, part)
    ensures EndsWith(all + more, part + more) && EndsWith(all + more, more)
  {
    assert (all + more)[|all| - |part|..] == all[|all| - |part|..] + more;
    assert (all + more)[|all|..] == more;
  }

  lemma EngineKeepsCurrent(s: State, a: Action, n: nat, blocks: nat, taken: seq<Edit>)
    requires Ok(s) && CatchingUp(s, n, blocks) && Current(s, n, taken) && a.EngineRuns?
    ensures Current(StepApplying(s, a), n, taken + Taken(s, a))
  {
    hide ReaderOk, AttemptOk, LockOk, Edited;
    if CanRun(s, a.edits) {
      if s.applied == n {
        EndsWithMore(taken, s.engineEdits, a.edits);
      }
      EndsWithMore(taken, [], a.edits);
    } else {
      assert taken + [] == taken;
    }
  }

  /** What the audio thread's place says of the host side. */
  lemma Places(s: State)
    requires OrderOk(s)
    ensures LockShape(s.host) && |s.engine| == |s.host.words| == WORDS && 0 < |s.hostLoads| == |s.hostEdits|
  {
    WordsAreWhole(s);
  }

  lemma HostKeepsCurrent(s: State, a: Action, n: nat, taken: seq<Edit>)
    requires OrderOk(s) && Current(s, n, taken) && WritesHost(a)
    ensures LockShape(s.host) && Current(StepHost(s, a), n, taken + Taken(s, a))
  {
    Places(s);
    assert taken + [] == taken;
    hide OrderOk, EndsWith, Current, LockShape;
    match a
    case HostBegins => WritingKeepsCurrent(s, a, n, taken);
    case HostWord => WritingKeepsCurrent(s, a, n, taken);
    case HostEnds => WrittenKeepsCurrent(s, n, taken);
    case FlushValue(word, value) => ValueKeepsCurrent(s, word, value, n, taken);
  }

  lemma WritingKeepsCurrent(s: State, a: Action, n: nat, taken: seq<Edit>)
    requires LockShape(s.host) && Current(s, n, taken) && (a.HostBegins? || a.HostWord?)
    ensures Current(StepHost(s, a), n, taken)
  {
    hide EndsWith;
  }

  lemma WrittenKeepsCurrent(s: State, n: nat, taken: seq<Edit>)
    requires LockShape(s.host) && Current(s, n, taken) && 0 < |s.hostLoads| == |s.hostEdits|
    ensures Current(StepHost(s, HostEnds), n, taken)
  {
    hide EndsWith;
    var r := StepHost(s, HostEnds);
    if r != s {
      var last := |s.hostLoads|;
      assert r.hostLoads[last] == if s.audio.Writing? then s.engineLoad else s.hostLoads[last - 1];
      assert r.hostEdits[last] == if s.audio.Writing? then s.engineEdits else s.hostEdits[last - 1] + [s.audio.edit];
    }
  }

  lemma ValueKeepsCurrent(s: State, word: nat, value: real, n: nat, taken: seq<Edit>)
    requires LockShape(s.host) && Current(s, n, taken) && 0 < |s.hostLoads| == |s.hostEdits|
    ensures Current(StepHost(s, FlushValue(word, value)), n, taken + Taken(s, FlushValue(word, value)))
  {
    if s.applied == n {
      EndsWithMore(taken, s.engineEdits, Taken(s, FlushValue(word, value)));
    }
    assert taken + [] == taken;
    hide EndsWith;
  }

  lemma OthersKeepCurrent(s: State, a: Action, n: nat, taken: seq<Edit>)
    requires OrderOk(s) && Current(s, n, taken) && Undisturbed(a) && !a.EngineRuns? && !WritesHost(a)
    ensures Current(Step(s, a), n, taken + Taken(s, a))
  {
    Places(s);
    hide OrderOk, EndsWith, StepReader;
    assert taken + [] == taken;
  }

  lemma StepKeepsCurrent(s: State, a: Action, n: nat, blocks: nat, taken: seq<Edit>)
    requires Ok(s) && CatchingUp(s, n, blocks) && Current(s, n, taken) && Undisturbed(a)
    ensures Current(Step(s, a), n, taken + Taken(s, a))
  {
    hide OrderOk, ValuesOk, CatchingUp, Current, Taken, StepApplying, StepHost;
    if a.EngineRuns? {
      EngineKeepsCurrent(s, a, n, blocks, taken);
    } else if WritesHost(a) {
      HostKeepsCurrent(s, a, n, taken);
    } else {
      OthersKeepCurrent(s, a, n, taken);
    }
  }

  lemma {:induction false} RunKeepsCurrent(s: State, steps: seq<Action>, n: nat, blocks: nat, taken: seq<Edit>)
    requires Ok(s) && CatchingUp(s, n, blocks) && blocks <= s.blocks && Current(s, n, taken)
    requires forall i :: 0 <= i < |steps| ==> Undisturbed(steps[i])
    ensures Current(Run(s, steps), n, taken + TakenIn(s, steps))
    decreases |steps|
  {
    hide OrderOk, ValuesOk, Step, CatchingUp, Current, Taken;
    if steps == [] {
      assert taken + [] == taken;
    } else {
      StepKeepsOk(s, steps[0]);
      StepKeepsCatchingUp(s, steps[0], n, blocks);
      StepKeepsCurrent(s, steps[0], n, blocks, taken);
      RunKeepsCurrent(Step(s, steps[0]), steps[1..], n, blocks, taken + Taken(s, steps[0]));
      assert taken + Taken(s, steps[0]) + TakenIn(Step(s, steps[0]), steps[1..]) == taken + TakenIn(s, steps);
    }
  }

  lemma NothingTakenYet(s: State)
    requires Ok(s) && s.applied != s.loadedRevision
    ensures Current(s, s.loadedRevision, [])
  {
  }

  lemma IdleIsPublished(t: State, n: nat, taken: seq<Edit>)
    requires Ok(t) && t.audio.Idle? && t.applied == n && Current(t, n, taken)
    ensures n < |t.pending.history| && EndsWith(taken, t.engineEdits)
    ensures t.host.words == t.engine == Edited(t.pending.history[n], t.engineEdits)
  {
    hide Edited, ReaderOk, AttemptOk, EndsWith;
    var last := |t.host.history| - 1;
    assert IsLoadEdited(t.host.history[last], t.pending.history, t.hostLoads[last], t.hostEdits[last]);
  }

  /** A load is outstanding, and no commit disturbs: once a block has run to its end, engine and host
      snapshot are the words of that load with the last of the values accepted meanwhile. */
  lemma LoadedValuesArrive(s: State, steps: seq<Action>)
    requires Ok(s) && s.audio.Idle? && s.committer.Resting? && s.applied != s.loadedRevision
    requires forall i :: 0 <= i < |steps| ==> Undisturbed(steps[i])
    ensures
      var t := Run(s, steps);
      s.blocks < t.blocks && t.audio.Idle? ==>
        && EndsWith(TakenIn(s, steps), t.engineEdits)
        && t.host.words == t.engine == Edited(s.pending.words, t.engineEdits)
  {
    hide Run, TakenIn, Edited, ReaderOk, AttemptOk, AudioOk, EndsWith, ValuesOk, Current;
    RunKeepsCatchingUp(s, steps, s.loadedRevision, s.blocks);
    NothingTakenYet(s);
    RunKeepsCurrent(s, steps, s.loadedRevision, s.blocks, []);
    CommittedLoadsStay(s, steps, s.loadedRevision);
    var t := Run(s, steps);
    assert [] + TakenIn(s, steps) == TakenIn(s, steps);
    if s.blocks < t.blocks && t.audio.Idle? {
      IdleIsPublished(t, s.loadedRevision, TakenIn(s, steps));
    }
  }

  /** With no other value accepted, what is published is exactly the load. */
  lemma UntouchedLoadArrives(s: State, steps: seq<Action>)
    requires Ok(s) && s.audio.Idle? && s.committer.Resting? && s.applied != s.loadedRevision
    requires forall i :: 0 <= i < |steps| ==> Undisturbed(steps[i])
    requires TakenIn(s, steps) == []
    ensures
      var t := Run(s, steps);
      s.blocks < t.blocks && t.audio.Idle? ==> t.host.words == t.engine == s.pending.words
  {
    hide Ok, Run, TakenIn;
    LoadedValuesArrive(s, steps);
  }

  // ---- Which side a read takes --------------------------------------------------------------------------

  /** Neither a commit nor the main thread alone. */
  predicate AudioOrReader(a: Action) {
    !Commits(a) && !RunsAlone(a)
  }

  /** All loads are applied and readers know; `n` of them, and `newest` is a host snapshot of then. */
  ghost predicate Settled(s: State, n: nat, newest: nat) {
    s.loadedRevision == n && s.appliedPublished == n && newest < |s.host.history|
  }

  /** The read, as far as it got, is one of the host side, and not of an older snapshot. */
  predicate TakesHost(x: Reader, n: nat, newest: nat) {
    match x
    case Away => false
    case Started(_) => true
    case Revised(_, revision) => revision == n
    case Chosen(_, revision, pending) => revision == n && !pending
    case Reading(_, revision, pending, attempt) => revision == n && !pending && newest <= attempt.before / 2
    case Read(_, revision, pending, _, index) => revision == n && !pending && newest <= index
    case Done(_, revision, pending, _, index) => revision == n && !pending && newest <= index
  }

  lemma ReaderTakesHost(s: State, x: Reader, a: Action, n: nat, newest: nat)
    requires LockOk(s.host, WORDS) && Settled(s, n, newest) && TakesHost(x, n, newest)
    ensures TakesHost(StepReader(s, x, a), n, newest)
  {
  }

  lemma AudioKeepsSettled(s: State, a: Action, n: nat, newest: nat)
    requires OrderOk(s) && OrderOk(Step(s, a)) && Settled(s, n, newest)
    requires AudioOrReader(a) && ReaderOf(a).None?
    ensures Settled(Step(s, a), n, newest) && Step(s, a).readers == s.readers
    ensures s.host.history <= Step(s, a).host.history
  {
    WordsAreWhole(s);
    hide ReaderOk, LockOk, AudioOk, AttemptOk, StepReader, ValuesOk;
  }

  lemma StepTakesHost(s: State, a: Action, r: nat, n: nat, newest: nat)
    requires Ok(s) && r < |s.readers| && AudioOrReader(a)
    requires Settled(s, n, newest) && TakesHost(s.readers[r], n, newest)
    ensures
      var t := Step(s, a);
      && |t.readers| == |s.readers| && s.host.history <= t.host.history
      && Settled(t, n, newest) && TakesHost(t.readers[r], n, newest)
  {
    StepKeepsOk(s, a);
    if ReaderOf(a).None? {
      hide ValuesOk, OrderOk, TakesHost, Settled;
      AudioKeepsSettled(s, a, n, newest);
    } else {
      ReaderTakesHost(s, s.readers[r], a, n, newest);
      hide ValuesOk, OrderOk, TakesHost, StepReader;
    }
  }

  lemma {:induction false} RunTakesHost(s: State, steps: seq<Action>, r: nat, n: nat, newest: nat)
    requires Ok(s) && r < |s.readers| && forall i :: 0 <= i < |steps| ==> AudioOrReader(steps[i])
    requires Settled(s, n, newest) && TakesHost(s.readers[r], n, newest)
    ensures
      var t := Run(s, steps);
      && |t.readers| == |s.readers| && s.host.history <= t.host.history
      && TakesHost(t.readers[r], n, newest)
    decreases |steps|
  {
    hide OrderOk, ValuesOk, Step, TakesHost, Settled;
    if steps != [] {
      StepKeepsOk(s, steps[0]);
      StepTakesHost(s, steps[0], r, n, newest);
      RunTakesHost(Step(s, steps[0]), steps[1..], r, n, newest);
    }
  }

  /** With every load applied, a read that no commit meets takes the host side: it ends with the newest
      host snapshot there was when it began, or a later one. */
  lemma SettledReadsTakeTheHost(s: State, steps: seq<Action>, r: nat)
    requires Ok(s) && r < |s.readers| && (s.readers[r].Away? || s.readers[r].Done?)
    requires s.loadedRevision == s.appliedPublished
    requires forall i :: 0 <= i < |steps| ==> AudioOrReader(steps[i])
    ensures
      var t := Run(s, [ReadBegins(r)] + steps);
      && |t.readers| == |s.readers| && s.host.history <= t.host.history
      && (t.readers[r].Done? ==>
           var x := t.readers[r];
           && !x.pending && |s.host.history| - 1 <= x.index < |t.host.history|
           && x.value == t.host.history[x.index])
  {
    var all := [ReadBegins(r)] + steps;
    assert all[1..] == steps;
    StepKeepsOk(s, ReadBegins(r));
    hide ReaderOk, LockOk, AudioOk, AttemptOk, ValuesOk;
    var begun := Step(s, ReadBegins(r));
    assert begun.readers[r].Started? && begun.host == s.host;
    RunTakesHost(begun, steps, r, s.loadedRevision, |s.host.history| - 1);
    var t := Run(s, all);
    assert t == Run(begun, steps);
    if t.readers[r].Done? {
      hide OrderOk;
      FinishedReadIsWhole(t, r);
    }
  }

  lemma {:induction false} RunGoesOn(s: State, first: seq<Action>, second: seq<Action>)
    requires Ok(s)
    ensures Run(s, first + second) == Run(Run(s, first), second)
    decreases |first|
  {
    hide OrderOk, ValuesOk, Step;
    if first == [] {
      assert first + second == second;
    } else {
      StepKeepsOk(s, first[0]);
      RunGoesOn(Step(s, first[0]), first[1..], second);
      assert (first + second)[0] == first[0] && (first + second)[1..] == first[1..] + second;
    }
  }

  lemma {:induction false} RunKeepsReaders(s: State, steps: seq<Action>)
    requires Ok(s)
    ensures |Run(s, steps).readers| == |s.readers|
    decreases |steps|
  {
    hide OrderOk, ValuesOk;
    if steps != [] {
      StepKeepsOk(s, steps[0]);
      if ReaderOf(steps[0]).None? {
        OthersLeaveReaders(s, steps[0]);
      }
      RunKeepsReaders(Step(s, steps[0]), steps[1..]);
    }
  }

  /** A read that begins after a block which no commit disturbed yields what that block published, the
      outstanding load with the last of the values accepted meanwhile, or a later host snapshot. */
  lemma ReadsSeeTheBlock(s: State, block: seq<Action>, later: seq<Action>, r: nat)
    requires Ok(s) && s.audio.Idle? && s.committer.Resting? && s.applied != s.loadedRevision
    requires forall i :: 0 <= i < |block| ==> Undisturbed(block[i])
    requires forall i :: 0 <= i < |later| ==> AudioOrReader(later[i])
    requires r < |s.readers|
    requires
      var t := Run(s, block);
      && s.blocks < t.blocks && t.audio.Idle?
      && r < |t.readers| && (t.readers[r].Away? || t.readers[r].Done?)
    ensures
      var t := Run(s, block);
      var u := Run(s, block + [ReadBegins(r)] + later);
      && |u.readers| == |s.readers| && t.host.history <= u.host.history
      && t.host.history[|t.host.history| - 1] == Edited(s.pending.words, t.engineEdits)
      && (u.readers[r].Done? ==>
           var x := u.readers[r];
           && !x.pending && |t.host.history| - 1 <= x.index < |u.host.history|
           && x.value == u.host.history[x.index])
  {
    hide Run, Edited, ReaderOk, AudioOk, AttemptOk, TakenIn, EndsWith;
    LoadedValuesArrive(s, block);
    UndisturbedBlockApplies(s, block);
    RunKeepsReaders(s, block);
    var t := Run(s, block);
    SettledReadsTakeTheHost(t, later, r);
    assert block + [ReadBegins(r)] + later == block + ([ReadBegins(r)] + later);
    RunGoesOn(s, block, [ReadBegins(r)] + later);
  }

  /** The load is outstanding in every state on the way. */
  ghost predicate StaysOutstanding(s: State, steps: seq<Action>)
    requires Ok(s)
    decreases |steps|
  {
    && s.loadedRevision != s.appliedPublished
    && (steps != [] ==> Ok(Step(s, steps[0])) && StaysOutstanding(Step(s, steps[0]), steps[1..]))
  }

  /** A read of the host side under way will have to start over. */
  predicate TakesPending(x: Reader, loadedRevision: nat) {
    match x
    case Away => false
    case Started(_) => true
    case Revised(_, revision) => revision <= loadedRevision
    case Chosen(_, revision, pending) => pending || revision < loadedRevision
    case Reading(_, revision, pending, _) => pending || revision < loadedRevision
    case Read(_, revision, pending, _, _) => pending || revision < loadedRevision
    case Done(_, _, pending, _, _) => pending
  }

  lemma StepTakesPending(s: State, a: Action, r: nat)
    requires Ok(s) && r < |s.readers| && s.loadedRevision != s.appliedPublished
    requires TakesPending(s.readers[r], s.loadedRevision)
    ensures
      var t := Step(s, a);
      |t.readers| == |s.readers| && TakesPending(t.readers[r], t.loadedRevision)
  {
    if ReaderOf(a).None? {
      hide OrderOk, ValuesOk, Step;
      OthersLeaveReaders(s, a);
    } else {
      hide ReaderOk, LockOk, AudioOk, AttemptOk, ValuesOk;
    }
  }

  lemma {:induction false} RunTakesPending(s: State, steps: seq<Action>, r: nat)
    requires Ok(s) && r < |s.readers| && StaysOutstanding(s, steps)
    requires TakesPending(s.readers[r], s.loadedRevision)
    ensures
      var t := Run(s, steps);
      |t.readers| == |s.readers| && TakesPending(t.readers[r], t.loadedRevision)
    decreases |steps|
  {
    hide OrderOk, ValuesOk, Step, TakesPending;
    if steps != [] {
      StepKeepsOk(s, steps[0]);
      StepTakesPending(s, steps[0], r);
      RunTakesPending(Step(s, steps[0]), steps[1..], r);
    }
  }

  /** While a load stays outstanding, every read takes the pending side: a load, whole. */
  lemma OutstandingReadsTakeTheLoad(s: State, steps: seq<Action>, r: nat)
    requires Ok(s) && r < |s.readers| && (s.readers[r].Away? || s.readers[r].Done?)
    requires StaysOutstanding(s, [ReadBegins(r)] + steps)
    ensures
      var t := Run(s, [ReadBegins(r)] + steps);
      && |t.readers| == |s.readers|
      && (t.readers[r].Done? ==>
           var x := t.readers[r];
           && x.pending && x.revision <= x.index < |t.pending.history|
           && x.value == t.pending.history[x.index])
  {
    var all := [ReadBegins(r)] + steps;
    assert all[1..] == steps;
    StepKeepsOk(s, ReadBegins(r));
    hide OrderOk, ValuesOk;
    var begun := Step(s, ReadBegins(r));
    assert begun.readers[r].Started?;
    RunTakesPending(begun, steps, r);
    var t := Run(s, all);
    assert t == Run(begun, steps);
    if t.readers[r].Done? {
      FinishedReadIsWhole(t, r);
    }
  }
}
