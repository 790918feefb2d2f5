/** The peak meter of the gain example: the audio thread publishes two peaks, the interface reads them
    with at most three attempts. All its atomics are sequentially consistent in the source too. */
module GainMeter {
  import opened Wrappers
  import opened SeqLock

  const PEAKS: nat := 2
  const MAXIMUM_ATTEMPTS: nat := 3

  datatype Snapshot = Snapshot(peaks: seq<real>, sequence: nat)

  /** `failed` attempts so far; `results` are the snapshots this reader has got, oldest first. */
  datatype Reader = Reader(trying: bool, failed: nat, attempt: Option<Attempt<real>>, results: seq<Snapshot>)

  datatype State = State(lock: Lock<real>, publishing: bool, readers: seq<Reader>)

  /** The counter starts odd, so nothing can be read before the first publication. */
  ghost function Initial(readers: nat): (s: State)
    ensures Ok(s)
  {
    var silence := [0.0, 0.0];
    State(Lock(1, silence, [silence], Some(Update(silence, [0, 1]))), false,
          seq(readers, i => Reader(false, 0, None, [])))
  }

  datatype Action =
    | Publish(left: real, right: real) | StorePeak | Finish
    | TryRead(reader: nat) | LoadBefore(reader: nat) | LoadPeak(reader: nat) | LoadAfter(reader: nat)

  /** One attempt more has failed; after the third the read gives up. */
  function FailAttempt(r: Reader): Reader {
    Reader(r.failed + 1 < MAXIMUM_ATTEMPTS, r.failed + 1, None, r.results)
  }

  function StepReader(r: Reader, l: Lock<real>, a: Action): Reader {
    if a.TryRead? then if r.trying then r else Reader(true, 0, None, r.results)
    else if !r.trying then r
    else if a.LoadBefore? then
      if r.attempt.Some? then r
      else
        var begun := BeginRead(l);
        if begun.Some? then r.(attempt := begun) else FailAttempt(r)
    else if r.attempt.None? then r
    else if a.LoadPeak? then r.(attempt := Some(LoadWord(r.attempt.value, l)))
    else if a.LoadAfter? && |r.attempt.value.got| == PEAKS then
      if ReadSucceeds(r.attempt.value, l)
      then Reader(false, r.failed, None, r.results + [Snapshot(r.attempt.value.got, l.sequence)])
      else FailAttempt(r)
    else r
  }

  ghost function Step(s: State, a: Action): State
    requires Ok(s)
  {
    match a
    case Publish(left, right) =>
      if s.publishing then s
      else s.(lock := BeginWrite(s.lock, [left, right], [0, 1]), publishing := true)
    case StorePeak => if s.publishing then s.(lock := StoreWord(s.lock)) else s
    case Finish =>
      if s.publishing && s.lock.writing.value.left == [] then s.(lock := EndWrite(s.lock), publishing := false) else s
    case _ =>
      if a.reader < |s.readers|
      then s.(readers := s.readers[a.reader := StepReader(s.readers[a.reader], s.lock, a)]) else s
  }

  ghost predicate ReaderOk(r: Reader, l: Lock<real>)
    requires LockOk(l, PEAKS)
  {
    && (r.attempt.Some? ==> AttemptOk(r.attempt.value, l, PEAKS))
    && r.failed <= MAXIMUM_ATTEMPTS && (r.trying ==> r.failed < MAXIMUM_ATTEMPTS)
    && (forall i :: 0 <= i < |r.results| ==>
         && r.results[i].sequence % 2 == 0 && 2 <= r.results[i].sequence <= l.sequence
         && r.results[i].peaks == l.history[r.results[i].sequence / 2])
    && (forall i, j :: 0 <= i < j < |r.results| ==> r.results[i].sequence <= r.results[j].sequence)
  }

  /** Every snapshot a reader has got is one whole published pair, under the publication's number; and
      no reader ever goes back in time. */
  ghost predicate Ok(s: State) {
    && LockOk(s.lock, PEAKS) && 1 <= s.lock.sequence
    && (s.publishing ==> s.lock.writing.Some?)
    && (s.lock.sequence % 2 == 1 && !s.publishing ==> s.lock.sequence == 1)
    && (forall i :: 0 <= i < |s.readers| ==> ReaderOk(s.readers[i], s.lock))
  }

  lemma ReaderKeepsOk(r: Reader, l: Lock<real>, a: Action)
    requires LockOk(l, PEAKS) && 1 <= l.sequence && ReaderOk(r, l)
    ensures ReaderOk(StepReader(r, l, a), l)
  {
    if r.trying && r.attempt.Some? {
      LoadKeepsOk(r.attempt.value, l, PEAKS);
      if ReadSucceeds(r.attempt.value, l) {
        ReadIsWhole(r.attempt.value, l, PEAKS);
      }
    }
    BeginReadIsOk(l, PEAKS);
  }

  lemma WriterKeepsReader(r: Reader, l: Lock<real>, after: Lock<real>)
    requires LockOk(l, PEAKS) && LockOk(after, PEAKS) && ReaderOk(r, l)
    requires l.sequence <= after.sequence && l.history <= after.history
    requires l.sequence == after.sequence && l.sequence % 2 == 0 ==> after == l
    ensures ReaderOk(r, after)
  {
    if r.attempt.Some? {
      WriterKeepsAttempt(r.attempt.value, l, after, PEAKS);
    }
  }

  lemma StepKeepsOk(s: State, a: Action)
    requires Ok(s)
    ensures Ok(Step(s, a))
  {
    hide ReaderOk;
    var r := Step(s, a);
    if a.Publish? || a.StorePeak? || a.Finish? {
      if a.Publish? {
        BeginKeepsOk(s.lock, PEAKS, [a.left, a.right], [0, 1]);
      } else if s.publishing {
        StoreKeepsOk(s.lock, PEAKS);
        EndKeepsOk(s.lock, PEAKS);
      }
      forall i | 0 <= i < |r.readers| ensures ReaderOk(r.readers[i], r.lock) {
        WriterKeepsReader(s.readers[i], s.lock, r.lock);
      }
    } else if a.reader < |s.readers| {
      ReaderKeepsOk(s.readers[a.reader], s.lock, a);
    }
  }

  ghost function Run(s: State, steps: seq<Action>): (r: State)
    requires Ok(s)
    ensures Ok(r)
    decreases |steps|
  {
    if steps == [] then s
    else
      StepKeepsOk(s, steps[0]);
      Run(Step(s, steps[0]), steps[1..])
  }

  /** The meter never shows peaks that were not published together, and never an older pair after a
      newer one, however the publisher and the readers interleave. */
  lemma MeterShowsPublishedPairs(readers: nat, steps: seq<Action>, i: nat, j: nat, k: nat)
    requires i < |Run(Initial(readers), steps).readers|
    requires j <= k < |Run(Initial(readers), steps).readers[i].results|
    ensures
      var s := Run(Initial(readers), steps);
      var early, late := s.readers[i].results[j], s.readers[i].results[k];
      && early.sequence <= late.sequence
      && 1 <= late.sequence / 2 < |s.lock.history| && late.peaks == s.lock.history[late.sequence / 2]
  {
    assert ReaderOk(Run(Initial(readers), steps).readers[i], Run(Initial(readers), steps).lock);
  }

  // ---- Progress ---------------------------------------------------------------------------------------------

  lemma {:induction false} RunJoins(s: State, a: seq<Action>, b: seq<Action>)
    requires Ok(s)
    ensures Run(s, a + b) == Run(Run(s, a), b)
    decreases |a|
  {
    hide Ok, Step;
    if a == [] {
      assert a + b == b;
    } else {
      StepKeepsOk(s, a[0]);
      assert (a + b)[1..] == a[1..] + b;
      RunJoins(Step(s, a[0]), a[1..], b);
    }
  }

  lemma TwoSteps(s: State, a: Action, b: Action) returns (middle: State)
    requires Ok(s)
    ensures middle == Step(s, a) && Ok(middle) && Run(s, [a, b]) == Step(middle, b)
  {
    hide Ok, Step;
    StepKeepsOk(s, a);
    middle := Step(s, a);
    assert [a, b][1..] == [b] && [b][1..] == [];
    StepKeepsOk(middle, b);
    assert Run(middle, [b]) == Run(Step(middle, b), []);
  }

  lemma Published(s: State, left: real, right: real)
    requires Ok(s) && !s.publishing
    ensures
      var r := Run(s, [Publish(left, right), StorePeak, StorePeak, Finish]);
      && r.lock.history == s.lock.history + [[left, right]] && r.lock.words == [left, right]
      && r.lock.writing.None? && r.readers == s.readers && !r.publishing
  {
    RunJoins(s, [Publish(left, right), StorePeak], [StorePeak, Finish]);
    assert [Publish(left, right), StorePeak] + [StorePeak, Finish]
           == [Publish(left, right), StorePeak, StorePeak, Finish];
    var begun := TwoSteps(s, Publish(left, right), StorePeak);
    var half := Run(s, [Publish(left, right), StorePeak]);
    var stored := TwoSteps(half, StorePeak, Finish);
    assert half.lock.words == [left, s.lock.words[1]] && half.lock.writing == Some(Update([left, right], [1]));
    assert stored.lock.words == [left, right] && stored.lock.writing == Some(Update([left, right], []));
  }

  lemma Shown(s: State, i: nat)
    requires Ok(s) && s.lock.writing.None? && i < |s.readers| && !s.readers[i].trying
    ensures
      var r := Run(s, [TryRead(i), LoadBefore(i)] + ([LoadPeak(i), LoadPeak(i)] + [LoadAfter(i)]));
      && |r.readers| == |s.readers| && !r.readers[i].trying && r.lock == s.lock
      && r.readers[i].results == s.readers[i].results + [Snapshot(s.lock.words, s.lock.sequence)]
  {
    hide ReaderOk;
    RunJoins(s, [TryRead(i), LoadBefore(i)], [LoadPeak(i), LoadPeak(i)] + [LoadAfter(i)]);
    var tried := TwoSteps(s, TryRead(i), LoadBefore(i));
    var reading := Run(s, [TryRead(i), LoadBefore(i)]);
    assert reading.readers[i] == Reader(true, 0, Some(Attempt(s.lock.sequence, [])), s.readers[i].results);
    RunJoins(reading, [LoadPeak(i), LoadPeak(i)], [LoadAfter(i)]);
    var once := TwoSteps(reading, LoadPeak(i), LoadPeak(i));
    var loaded := Run(reading, [LoadPeak(i), LoadPeak(i)]);
    assert once.readers[i].attempt.value.got == s.lock.words[..1];
    assert loaded.readers[i].attempt.value.got == s.lock.words;
    assert Run(loaded, [LoadAfter(i)]) == Step(loaded, LoadAfter(i)) by {
      StepKeepsOk(loaded, LoadAfter(i));
      assert [LoadAfter(i)][1..] == [];
      hide Ok, Step;
    }
  }

  /** What is published is what the next undisturbed read shows. */
  lemma PublishedPeaksAreShown(s: State, left: real, right: real, i: nat)
    requires Ok(s) && !s.publishing && i < |s.readers| && !s.readers[i].trying
    ensures
      var published := Run(s, [Publish(left, right), StorePeak, StorePeak, Finish]);
      var r := Run(published, [TryRead(i), LoadBefore(i)] + ([LoadPeak(i), LoadPeak(i)] + [LoadAfter(i)]));
      && published.readers == s.readers && |r.readers| == |s.readers| && !r.readers[i].trying
      && r.readers[i].results == s.readers[i].results + [Snapshot([left, right], r.lock.sequence)]
  {
    hide Ok, Run;
    Published(s, left, right);
    Shown(Run(s, [Publish(left, right), StorePeak, StorePeak, Finish]), i);
  }
}
