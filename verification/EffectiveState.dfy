/** The parameter values in effect, seen from the outside: what a read gets while nothing else runs, and how
    activation, deactivation, loads, values and whole blocks change it. */
module EffectiveState {
  import opened Wrappers
  import opened SeqLock
  import opened StateHandoff

  /** The newest load while it is outstanding, and otherwise the newest host snapshot. */
  function InEffect(s: State): Snapshot
    requires s.pending.history != [] && s.host.history != []
  {
    if s.loadedRevision != s.appliedPublished then s.pending.history[|s.pending.history| - 1]
    else s.host.history[|s.host.history| - 1]
  }

  lemma OneStep(s: State, a: Action)
    requires Ok(s)
    ensures Ok(Step(s, a)) && Run(s, [a]) == Step(s, a)
  {
    StepKeepsOk(s, a);
    hide Ok, Step;
    assert [a][1..] == [];
  }

  lemma HistoriesBegin(s: State)
    requires Ok(s)
    ensures s.pending.history != [] && s.host.history != []
  {
    hide ValuesOk, ReaderOk, AudioOk;
  }

  // ---- The main thread alone -----------------------------------------------------------------------------

  /** Activation hands the engine the values in effect and deactivation keeps them; while inactive a load
      replaces them all and a value exactly its own word. */
  lemma AloneKeepsWhatIsInEffect(s: State, a: Action)
    requires Ok(s) && Quiet(s) && RunsAlone(a)
    ensures
      var r := Run(s, [a]);
      && s.pending.history != [] && s.host.history != [] && r.pending.history != [] && r.host.history != []
      && Quiet(r) && r.readers == s.readers
      && match a
         case Activate => InEffect(r) == InEffect(s) && r.active && (!s.active ==> r.engine == InEffect(s))
         case Deactivate => InEffect(r) == InEffect(s) && !r.active
         case InactiveCommit(snapshot) =>
           if s.active || |snapshot| != WORDS then r == s else InEffect(r) == snapshot && !r.active
         case InactiveValue(word, value) =>
           if s.active || word >= WORDS then r == s
           else |InEffect(s)| == WORDS && InEffect(r) == InEffect(s)[word := value] && !r.active
         case _ => true
  {
    OneStep(s, a);
    NewestWhileQuiet(s);
    hide ValuesOk, ReaderOk, AudioOk, AttemptOk, Run;
  }

  function Times(a: Action, n: nat): seq<Action> {
    if n == 0 then [] else Times(a, n - 1) + [a]
  }

  // ---- A read alone ----------------------------------------------------------------------------------------

  function After(s: State, x: Reader, steps: seq<Action>): Reader
    decreases |steps|
  {
    if steps == [] then x else After(s, StepReader(s, x, steps[0]), steps[1..])
  }

  lemma {:induction false} AfterJoins(s: State, x: Reader, a: seq<Action>, b: seq<Action>)
    ensures After(s, x, a + b) == After(s, After(s, x, a), b)
    decreases |a|
  {
    hide StepReader;
    if a == [] {
      assert a + b == b;
    } else {
      assert (a + b)[1..] == a[1..] + b;
      AfterJoins(s, StepReader(s, x, a[0]), a[1..], b);
    }
  }

  lemma {:induction false} AfterDependsOnLocks(s: State, t: State, x: Reader, steps: seq<Action>)
    requires t == s.(readers := t.readers)
    ensures After(t, x, steps) == After(s, x, steps)
    decreases |steps|
  {
    if steps != [] {
      AfterDependsOnLocks(s, t, StepReader(s, x, steps[0]), steps[1..]);
    }
  }

  lemma {:induction false} ReaderRuns(s: State, r: nat, steps: seq<Action>)
    requires Ok(s) && r < |s.readers| && forall i :: 0 <= i < |steps| ==> ReaderOf(steps[i]) == Some(r)
    ensures Run(s, steps) == s.(readers := s.readers[r := After(s, s.readers[r], steps)])
    decreases |steps|
  {
    hide OrderOk, ValuesOk, StepReader;
    if steps != [] {
      StepKeepsOk(s, steps[0]);
      var t := Step(s, steps[0]);
      ReaderRuns(t, r, steps[1..]);
      AfterDependsOnLocks(s, t, t.readers[r], steps[1..]);
    } else {
      assert s.readers[r := s.readers[r]] == s.readers;
    }
  }

  lemma {:induction false} WordsAreRead(s: State, x: Reader, r: nat, k: nat)
    requires x.Reading?
    ensures After(s, x, Times(ReadWord(r), k)) == x.(attempt := LoadWords(x.attempt, Source(s, x.pending), k))
  {
    if 0 < k {
      WordsAreRead(s, x, r, k - 1);
      AfterJoins(s, x, Times(ReadWord(r), k - 1), [ReadWord(r)]);
      LastIs(s, After(s, x, Times(ReadWord(r), k - 1)), ReadWord(r));
    }
  }

  lemma LastIs(s: State, x: Reader, a: Action)
    ensures After(s, x, [a]) == StepReader(s, x, a)
  {
    assert [a][1..] == [];
  }

  lemma OneMore(s: State, x: Reader, a: Action, rest: seq<Action>)
    ensures After(s, x, [a] + rest) == After(s, StepReader(s, x, a), rest)
  {
    hide StepReader;
    assert ([a] + rest)[1..] == rest;
  }

  function ReadSteps(r: nat): seq<Action> {
    [ReadBegins(r)] + ([ReadRevision(r)] + ([ReadApplied(r)] + ([ReadBefore(r)] + LoadSteps(r))))
  }

  function LoadSteps(r: nat): seq<Action> {
    Times(ReadWord(r), WORDS) + ([ReadAfter(r)] + [ReadRecheck(r)])
  }

  lemma {:induction false} TimesAll(a: Action, n: nat)
    ensures |Times(a, n)| == n && forall i :: 0 <= i < n ==> Times(a, n)[i] == a
  {
    if 0 < n {
      TimesAll(a, n - 1);
    }
  }

  lemma StepsOfOneReader(r: nat)
    ensures forall i :: 0 <= i < |ReadSteps(r)| ==> ReaderOf(ReadSteps(r)[i]) == Some(r)
  {
    TimesAll(ReadWord(r), WORDS);
  }

  lemma ReadStarts(s: State, x: Reader, r: nat)
    requires x.Away? || x.Done?
    requires BeginRead(Source(s, s.loadedRevision != s.appliedPublished)).Some?
    ensures
      var n, pending := s.loadedRevision, s.loadedRevision != s.appliedPublished;
      After(s, x, ReadSteps(r)) == After(s, Reading(n, n, pending, BeginRead(Source(s, pending)).value), LoadSteps(r))
  {
    hide After, LoadSteps, BeginRead;
    var n, rest := s.loadedRevision, LoadSteps(r);
    OneMore(s, x, ReadBegins(r), [ReadRevision(r)] + ([ReadApplied(r)] + ([ReadBefore(r)] + rest)));
    OneMore(s, Started(n), ReadRevision(r), [ReadApplied(r)] + ([ReadBefore(r)] + rest));
    OneMore(s, Revised(n, n), ReadApplied(r), [ReadBefore(r)] + rest);
    OneMore(s, Chosen(n, n, s.loadedRevision != s.appliedPublished), ReadBefore(r), rest);
  }

  lemma ReadEnds(s: State, x: Reader, r: nat)
    requires x.Reading? && x.revision == s.loadedRevision
    requires ReadSucceeds(LoadWords(x.attempt, Source(s, x.pending), WORDS), Source(s, x.pending))
    ensures
      var a := LoadWords(x.attempt, Source(s, x.pending), WORDS);
      After(s, x, LoadSteps(r)) == Done(x.floor, x.revision, x.pending, a.got, a.before / 2)
  {
    hide After, LoadWords, Times, Source;
    var y := x.(attempt := LoadWords(x.attempt, Source(s, x.pending), WORDS));
    AfterJoins(s, x, Times(ReadWord(r), WORDS), [ReadAfter(r)] + [ReadRecheck(r)]);
    WordsAreRead(s, x, r, WORDS);
    OneMore(s, y, ReadAfter(r), [ReadRecheck(r)]);
    LastIs(s, StepReader(s, y, ReadAfter(r)), ReadRecheck(r));
  }

  lemma NothingIsWritten(s: State, pending: bool)
    requires Ok(s) && Quiet(s)
    ensures LockOk(Source(s, pending), WORDS) && Source(s, pending).writing.None?
    ensures forall r :: 0 <= r < |s.readers| ==> s.readers[r].Away? || s.readers[r].Done?
  {
    hide LockOk, ReaderOk, AudioOk, ValuesOk;
  }

  /** A read that nothing disturbs ends, with the values in effect, and leaves everything as it was. */
  lemma ReadsReturnWhatIsInEffect(s: State, r: nat)
    requires Ok(s) && Quiet(s) && r < |s.readers|
    ensures s.pending.history != [] && s.host.history != []
    ensures
      var t := Run(s, ReadSteps(r));
      && t == s.(readers := t.readers) && |t.readers| == |s.readers|
      && t.readers[r].Done? && t.readers[r].value == InEffect(s)
  {
    hide Ok, Run, After, StepReader, LockOk, ReadSteps, LoadSteps, LoadWords, ReadSucceeds, Quiet;
    HistoriesBegin(s);
    StepsOfOneReader(r);
    ReaderRuns(s, r, ReadSteps(r));
    var pending := s.loadedRevision != s.appliedPublished;
    NothingIsWritten(s, pending);
    var lock := Source(s, pending);
    UndisturbedReadSucceeds(lock, WORDS);
    ReadStarts(s, s.readers[r], r);
    ReadEnds(s, Reading(s.loadedRevision, s.loadedRevision, pending, BeginRead(lock).value), r);
  }

  // ---- A commit alone --------------------------------------------------------------------------------------

  /** One step more at the end of a run. */
  lemma StepAtEnd(s: State, steps: seq<Action>, a: Action)
    requires Ok(s)
    ensures Run(s, steps + [a]) == Step(Run(s, steps), a)
  {
    hide Ok, Step, Run;
    RunGoesOn(s, steps, [a]);
    OneStep(Run(s, steps), a);
  }

  lemma CommitWordStores(s: State)
    requires Ok(s) && s.committer.Publishing?
    ensures
      && s.pending.writing.Some? && |s.pending.words| == |s.pending.writing.value.next|
      && Step(s, CommitWord) == s.(pending := StoreWord(s.pending))
  {
    hide ReaderOk, AudioOk, ValuesOk;
  }

  lemma {:induction false} CommitWords(s: State, k: nat)
    requires Ok(s) && s.committer.Publishing?
    ensures
      && s.pending.writing.Some? && |s.pending.words| == |s.pending.writing.value.next|
      && Run(s, Times(CommitWord, k)) == s.(pending := StoreWords(s.pending, k))
    decreases k
  {
    hide Ok, Step;
    CommitWordStores(s);
    if 0 < k {
      CommitWords(s, k - 1);
      StepAtEnd(s, Times(CommitWord, k - 1), CommitWord);
      CommitWordStores(Run(s, Times(CommitWord, k - 1)));
    }
  }

  function CommitSteps(snapshot: Snapshot): seq<Action> {
    [Commit(snapshot)] + Times(CommitWord, WORDS) + [CommitPublished] + [CommitCounted]
  }

  /** A load committed while active, with nothing disturbing, is in effect as a whole. */
  lemma CommitsTakeEffect(s: State, snapshot: Snapshot)
    requires Ok(s) && Quiet(s) && s.active && |snapshot| == WORDS
    ensures
      var t := Run(s, CommitSteps(snapshot));
      && Quiet(t) && t.active && t.readers == s.readers && t.loadedRevision == s.loadedRevision + 1
      && t.pending.history == s.pending.history + [snapshot] && t.host == s.host && InEffect(t) == snapshot
  {
    hide OrderOk, ValuesOk, Run, Step, LockOk, StoreWords, Times;
    var begun := Run(s, [Commit(snapshot)]);
    OneStep(s, Commit(snapshot));
    var stored := Run(begun, Times(CommitWord, WORDS));
    CommitBegins(s, snapshot);
    CommitWords(begun, WORDS);
    RunGoesOn(s, [Commit(snapshot)], Times(CommitWord, WORDS));
    StepAtEnd(s, [Commit(snapshot)] + Times(CommitWord, WORDS), CommitPublished);
    StepAtEnd(s, [Commit(snapshot)] + Times(CommitWord, WORDS) + [CommitPublished], CommitCounted);
    CommitEnds(s, stored, snapshot);
  }

  lemma CommitBegins(s: State, snapshot: Snapshot)
    requires Ok(s) && Quiet(s) && s.active && |snapshot| == WORDS
    ensures Step(s, Commit(snapshot)) ==
            s.(pending := BeginWrite(s.pending, snapshot, InOrder(WORDS)), committer := Publishing)
    ensures LockOk(s.pending, WORDS)
  {
    hide ReaderOk, AudioOk, ValuesOk, BeginWrite, InOrder;
  }

  lemma CommitPublishedStep(s: State)
    requires Ok(s) && s.committer.Publishing? && s.pending.writing.Some? && s.pending.writing.value.left == []
    ensures Step(s, CommitPublished) == s.(pending := EndWrite(s.pending), committer := Counting)
  {
    hide ReaderOk, AudioOk, ValuesOk, EndWrite;
  }

  lemma CommitCountedStep(s: State)
    requires Ok(s) && s.committer.Counting?
    ensures Step(s, CommitCounted) == s.(loadedRevision := s.loadedRevision + 1, committer := Resting)
  {
    hide ReaderOk, AudioOk, ValuesOk;
  }

  lemma CommitEnds(s: State, stored: State, snapshot: Snapshot)
    requires Ok(s) && Quiet(s) && s.active && |snapshot| == WORDS && Ok(stored)
    requires stored.pending.writing.Some? && |stored.pending.words| == |stored.pending.writing.value.next|
    requires
      var begun := BeginWrite(s.pending, snapshot, InOrder(WORDS));
      && begun.writing.Some? && |begun.words| == |begun.writing.value.next|
      && stored == s.(pending := StoreWords(begun, WORDS), committer := Publishing)
    ensures
      var published := Step(stored, CommitPublished);
      && Ok(published)
      && var t := Step(published, CommitCounted);
         && Quiet(t) && t.active && t.readers == s.readers && t.loadedRevision == s.loadedRevision + 1
         && t.pending.history == s.pending.history + [snapshot] && t.host == s.host && InEffect(t) == snapshot
  {
    Counters(s);
    hide OrderOk, ValuesOk, Step, StoreWords, LockOk, EndWrite, InOrder;
    CommitBegins(s, snapshot);
    UpdatePublishes(s.pending, WORDS, snapshot);
    BeginKeepsOk(s.pending, WORDS, snapshot, InOrder(WORDS));
    StoresSoFar(BeginWrite(s.pending, snapshot, InOrder(WORDS)), WORDS, WORDS);
    StepKeepsOk(stored, CommitPublished);
    CommitPublishedStep(stored);
    CommitCountedStep(Step(stored, CommitPublished));
  }

  lemma Counters(s: State)
    requires Ok(s)
    ensures s.appliedPublished <= s.loadedRevision && s.host.history != []
  {
    hide ReaderOk, AudioOk, ValuesOk;
  }

  // ---- A block alone ---------------------------------------------------------------------------------------

  lemma HostWordStores(s: State)
    requires Ok(s) && s.audio.Writing?
    ensures
      && s.host.writing.Some? && |s.host.words| == |s.host.writing.value.next|
      && Step(s, HostWord) == s.(host := StoreWord(s.host))
  {
    hide ReaderOk, ValuesOk;
  }

  lemma {:induction false} HostWords(s: State, k: nat)
    requires Ok(s) && s.audio.Writing?
    ensures
      && s.host.writing.Some? && |s.host.words| == |s.host.writing.value.next|
      && Run(s, Times(HostWord, k)) == s.(host := StoreWords(s.host, k))
    decreases k
  {
    hide Ok, Step;
    HostWordStores(s);
    if 0 < k {
      HostWords(s, k - 1);
      StepAtEnd(s, Times(HostWord, k - 1), HostWord);
      HostWordStores(Run(s, Times(HostWord, k - 1)));
    }
  }

  /** The engine's values have reached the host side, and the rest is as in `s`. */
  predicate HostTold(s: State, t: State) {
    && t.audio.Idle? && t.host.writing.None? && t.host.history == s.host.history + [s.engine]
    && t.blocks == s.blocks + 1 && t.applied == t.appliedPublished == s.applied
    && t.engine == s.engine && t.pending == s.pending && t.loadedRevision == s.loadedRevision
    && t.committer == s.committer && t.readers == s.readers && t.active == s.active
  }

  function HostSteps(): seq<Action> {
    [HostBegins] + Times(HostWord, WORDS) + [HostEnds] + [AppliedStored]
  }

  lemma HostIsTold(s: State)
    requires Ok(s) && s.audio == Syncing(false)
    ensures HostTold(s, Run(s, HostSteps()))
  {
    hide OrderOk, ValuesOk, Run, Step, LockOk, StoreWords, Times, HostTold;
    var begun := Run(s, [HostBegins]);
    OneStep(s, HostBegins);
    TellingBegins(s);
    var stored := Run(begun, Times(HostWord, WORDS));
    HostWords(begun, WORDS);
    RunGoesOn(s, [HostBegins], Times(HostWord, WORDS));
    StepAtEnd(s, [HostBegins] + Times(HostWord, WORDS), HostEnds);
    StepAtEnd(s, [HostBegins] + Times(HostWord, WORDS) + [HostEnds], AppliedStored);
    TellingEnds(s, stored);
  }

  lemma TellingBegins(s: State)
    requires Ok(s) && s.audio == Syncing(false)
    ensures Step(s, HostBegins) == s.(host := BeginWrite(s.host, s.engine, InOrder(WORDS)), audio := Writing(false))
    ensures LockOk(s.host, WORDS) && s.host.writing.None? && |s.engine| == WORDS
  {
    hide ReaderOk, ValuesOk, BeginWrite, InOrder;
  }

  lemma HostEndsStep(s: State)
    requires Ok(s) && s.audio == Writing(false) && s.host.writing.Some? && s.host.writing.value.left == []
    ensures
      var t := Step(s, HostEnds);
      t == s.(host := EndWrite(s.host), hostLoads := t.hostLoads, hostEdits := t.hostEdits, audio := Storing(false))
  {
    hide ReaderOk, ValuesOk, EndWrite;
  }

  lemma AppliedStoredStep(s: State)
    requires Ok(s) && s.audio == Storing(false)
    ensures Step(s, AppliedStored) == s.(appliedPublished := s.applied, audio := Idle, blocks := s.blocks + 1)
  {
    hide ReaderOk, ValuesOk;
  }

  lemma TellingEnds(s: State, stored: State)
    requires Ok(s) && s.audio == Syncing(false) && Ok(stored)
    requires
      var begun := BeginWrite(s.host, s.engine, InOrder(WORDS));
      && begun.writing.Some? && |begun.words| == |begun.writing.value.next|
      && stored == s.(host := StoreWords(begun, WORDS), audio := Writing(false))
    ensures
      var published := Step(stored, HostEnds);
      Ok(published) && HostTold(s, Step(published, AppliedStored))
  {
    hide OrderOk, ValuesOk, Step, StoreWords, LockOk, EndWrite, InOrder;
    TellingBegins(s);
    UpdatePublishes(s.host, WORDS, s.engine);
    BeginKeepsOk(s.host, WORDS, s.engine, InOrder(WORDS));
    StoresSoFar(BeginWrite(s.host, s.engine, InOrder(WORDS)), WORDS, WORDS);
    StepKeepsOk(stored, HostEnds);
    HostEndsStep(stored);
    AppliedStoredStep(Step(stored, HostEnds));
  }

  lemma PendingWordLoads(s: State)
    requires Ok(s) && s.audio.ReadingPending?
    ensures Step(s, PendingWord) == s.(audio := s.audio.(attempt := LoadWord(s.audio.attempt, s.pending)))
  {
    hide ReaderOk, ValuesOk;
  }

  lemma {:induction false} PendingWords(s: State, k: nat)
    requires Ok(s) && s.audio.ReadingPending?
    ensures Run(s, Times(PendingWord, k)) == s.(audio := s.audio.(attempt := LoadWords(s.audio.attempt, s.pending, k)))
    decreases k
  {
    hide Ok, Step;
    if 0 < k {
      PendingWords(s, k - 1);
      StepAtEnd(s, Times(PendingWord, k - 1), PendingWord);
      PendingWordLoads(Run(s, Times(PendingWord, k - 1)));
    }
  }

  function LoadingSteps(): seq<Action> {
    [BlockBegins] + [PendingBefore] + Times(PendingWord, WORDS) + [PendingAfter] + [Recheck]
  }

  lemma LoadingBegins(s: State)
    requires Ok(s) && Quiet(s) && s.active && s.applied != s.loadedRevision
    ensures
      var begun := Step(s, BlockBegins);
      && Ok(begun) && BeginRead(s.pending).Some?
      && Step(begun, PendingBefore)
         == s.(audio := ReadingPending(false, s.loadedRevision, BeginRead(s.pending).value))
  {
    StepKeepsOk(s, BlockBegins);
    hide ReaderOk, AudioOk, ValuesOk;
  }

  lemma LoadingEnds(s: State, loaded: State)
    requires Ok(s) && Quiet(s) && BeginRead(s.pending).Some? && Ok(loaded)
    requires
      var attempt := LoadWords(BeginRead(s.pending).value, s.pending, WORDS);
      && ReadSucceeds(attempt, s.pending) && attempt.got == s.pending.history[|s.pending.history| - 1]
      && loaded == s.(audio := ReadingPending(false, s.loadedRevision, attempt))
    ensures
      var checking := Step(loaded, PendingAfter);
      && Ok(checking)
      && var t := Step(checking, Recheck);
         && t == s.(audio := t.audio) && t.audio.Ready? && !t.audio.flush && t.audio.replay.Some?
         && t.audio.replay.value.revision == s.loadedRevision
         && t.audio.replay.value.value == s.pending.history[|s.pending.history| - 1]
  {
    StepKeepsOk(loaded, PendingAfter);
    WordsAreWhole(s);
    hide ReaderOk, AudioOk, ValuesOk, LockOk, LoadWords;
  }

  lemma LoadIsTaken(s: State)
    requires Ok(s) && Quiet(s) && s.active && s.applied != s.loadedRevision
    ensures s.pending.history != []
    ensures
      var t := Run(s, LoadingSteps());
      && t == s.(audio := t.audio) && t.audio.Ready? && !t.audio.flush && t.audio.replay.Some?
      && t.audio.replay.value.revision == s.loadedRevision
      && t.audio.replay.value.value == s.pending.history[|s.pending.history| - 1]
  {
    NothingIsWritten(s, true);
    UndisturbedReadSucceeds(s.pending, WORDS);
    hide OrderOk, ValuesOk, Run, Step, LockOk, LoadWords, Times, ReadSucceeds;
    LoadingBegins(s);
    OneStep(s, BlockBegins);
    StepAtEnd(s, [BlockBegins], PendingBefore);
    var reading := Run(s, [BlockBegins] + [PendingBefore]);
    PendingWords(reading, WORDS);
    RunGoesOn(s, [BlockBegins] + [PendingBefore], Times(PendingWord, WORDS));
    var words := [BlockBegins] + [PendingBefore] + Times(PendingWord, WORDS);
    StepAtEnd(s, words, PendingAfter);
    StepAtEnd(s, words + [PendingAfter], Recheck);
    LoadingEnds(s, Run(s, words));
  }

  /** The steps of a block that nothing disturbs. */
  function BlockSteps(outstanding: bool, edits: seq<Edit>): seq<Action> {
    (if outstanding then LoadingSteps() else [BlockBegins]) + [EngineRuns(edits)] + HostSteps()
  }

  lemma EngineTakes(s: State, edits: seq<Edit>)
    requires Ok(s) && s.audio.Ready? && !s.audio.flush
    ensures
      var t := Step(s, EngineRuns(edits));
      && t.audio == Syncing(false)
      && t == s.(audio := t.audio, engine := t.engine, engineLoad := t.engineLoad, engineEdits := t.engineEdits,
                 applied := t.applied)
      && match s.audio.replay
         case Some(x) => |x.value| == |s.engine| && t.applied == x.revision && t.engine == Edited(x.value, edits)
         case None => t.applied == s.applied && t.engine == Edited(s.engine, edits)
  {
    hide ReaderOk, ValuesOk, Edited, EventsFor;
    if s.audio.replay.Some? {
      EventsReplay(s.engine, s.audio.replay.value.value, edits);
    }
  }

  /** A block runs to its end and its values are in effect: those the engine played, or the load that was
      outstanding, with the values of the block on top. */
  lemma BlocksTakeEffect(s: State, edits: seq<Edit>)
    requires Ok(s) && Quiet(s) && s.active
    ensures s.pending.history != []
    ensures
      var outstanding := s.applied != s.loadedRevision;
      var base := if outstanding then s.pending.history[|s.pending.history| - 1] else s.engine;
      var t := Run(s, BlockSteps(outstanding, edits));
      && Quiet(t) && t.active && t.blocks == s.blocks + 1 && t.readers == s.readers
      && t.applied == t.appliedPublished == t.loadedRevision == s.loadedRevision
      && t.pending.history != [] && t.host.history != []
      && t.engine == Edited(base, edits) && InEffect(t) == t.engine
  {
    HistoriesBegin(s);
    var outstanding := s.applied != s.loadedRevision;
    var first := if outstanding then LoadingSteps() else [BlockBegins];
    hide OrderOk, ValuesOk, Run, Step, Edited, LoadingSteps, HostSteps;
    if outstanding {
      LoadIsTaken(s);
    } else {
      OneStep(s, BlockBegins);
      BlockBeginsReady(s);
    }
    var ready := Run(s, first);
    StepAtEnd(s, first, EngineRuns(edits));
    EngineTakes(ready, edits);
    var ran := Run(s, first + [EngineRuns(edits)]);
    HostIsTold(ran);
    RunGoesOn(s, first + [EngineRuns(edits)], HostSteps());
  }

  lemma BlockBeginsReady(s: State)
    requires Ok(s) && Quiet(s) && s.active && s.applied == s.loadedRevision
    ensures Step(s, BlockBegins) == s.(audio := Ready(false, None))
  {
    hide ReaderOk, AudioOk, ValuesOk, LockOk;
  }
}
