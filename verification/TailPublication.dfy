/** The tail the plug-in advertises to the host: the release that a note let go now would get, in
    samples, or a longer one that some sounding voice still owns. Seconds and rates are reals. */
module TailPublication {
  import opened Wrappers
  import opened VoicePool
  import opened VoiceSlots
  import opened VoiceMachine
  import opened VoiceEngines
  import opened ReleaseTiming
  import opened AmpEnvelope

  const MAXIMUM_FINITE_TAIL_SAMPLES: int := 0x7fff_fffe
  const MAXIMUM_PUBLISHED_RELEASE_SECONDS: real := 10.0

  /** What the plug-in makes of the release, on its own. */
  function ReleaseSecondsToTailSamples(seconds: real, rate: real): Option<nat> {
    if seconds < 0.0 || rate <= 0.0 || seconds * rate < 0.0 then None
    else if rate > MAXIMUM_FINITE_TAIL_SAMPLES as real / MAXIMUM_PUBLISHED_RELEASE_SECONDS then None
    else if seconds * rate > MAXIMUM_FINITE_TAIL_SAMPLES as real then None
    else
      var rounded := Rounded(seconds * rate);
      if rounded > MAXIMUM_FINITE_TAIL_SAMPLES then None
      else if rounded <= 0 then Some(1) else Some(rounded)
  }

  /** For every release a parameter can ask for, the tail exists exactly if the sample rate is positive
      and not beyond what ten seconds can be counted in; it is what the engine will use. */
  lemma TailIsTheEngineRelease(seconds: real, rate: real)
    requires 0.0 <= seconds <= MAXIMUM_PUBLISHED_RELEASE_SECONDS
    ensures ReleaseSecondsToTailSamples(seconds, rate).Some?
            <==> 0.0 < rate <= MAXIMUM_FINITE_TAIL_SAMPLES as real / MAXIMUM_PUBLISHED_RELEASE_SECONDS
    ensures ReleaseSecondsToTailSamples(seconds, rate).Some? ==>
              ReleaseSecondsToTailSamples(seconds, rate) == SecondsToSamples(seconds, rate, false)
  {
    if 0.0 < rate <= MAXIMUM_FINITE_TAIL_SAMPLES as real / MAXIMUM_PUBLISHED_RELEASE_SECONDS {
      TenSecondsBound(seconds, rate);
      assert seconds * rate <= MAXIMUM_FINITE_TAIL_SAMPLES as real;
    }
  }

  function Longer(a: nat, b: nat): nat {
    if a < b then b else a
  }

  function TailOf(e: Engine, defaultTail: nat): nat {
    Longer(defaultTail, MaximumRelease(e.slots, |e.slots|))
  }

  class TailPublisher {
    var currentTailSamples: nat
    var tailLoadedRevisionPublished: nat
    /** How often the host was told. */
    var announcements: nat

    constructor (samples: nat)
      ensures currentTailSamples == samples && tailLoadedRevisionPublished == 0 && announcements == 0
    {
      currentTailSamples, tailLoadedRevisionPublished, announcements := samples, 0, 0;
    }

    /** After a block: publishes the tail of the engine as it is now; the host is told of a change. */
    method SyncTailFromEngine(parameters: AmpEnvelopeParameters, appliedRevision: nat, notifyHost: bool)
      returns (ok: bool)
      requires parameters.Valid()
      modifies this
      ensures ok == DefaultTail(parameters.seconds, parameters.sampleRate).Some?
      ensures
        if ok then
          && currentTailSamples == TailOf(parameters.engine.State(),
                                          DefaultTail(parameters.seconds, parameters.sampleRate).value)
          && tailLoadedRevisionPublished == appliedRevision
          && announcements
               == old(announcements) + (if notifyHost && currentTailSamples != old(currentTailSamples) then 1 else 0)
        else
          && currentTailSamples == old(currentTailSamples) && announcements == old(announcements)
          && tailLoadedRevisionPublished == old(tailLoadedRevisionPublished)
      ensures ok ==> forall i :: 0 <= i < |parameters.engine.State().slots| ==>
                CoversVoice(parameters.engine.State(), i, currentTailSamples)
    {
      hide EngineOk, VoiceEngine.State, EnvelopeOf, CoversVoice;
      var releaseSeconds := parameters.ParameterBaseValue(AmpRelease);
      var defaultTail := ReleaseSecondsToTailSamples(releaseSeconds, parameters.sampleRate);
      if defaultTail.None? {
        return false;
      }
      ghost var e, seconds := parameters.engine.State(), parameters.seconds;
      var maximum := parameters.engine.MaximumActiveReleaseSamples();
      var tail := if defaultTail.value < maximum then maximum else defaultTail.value;
      var changed := tail != currentTailSamples;
      if changed {
        currentTailSamples := tail;
      }
      tailLoadedRevisionPublished := appliedRevision;
      if changed && notifyHost {
        announcements := announcements + 1;
      }
      forall i | 0 <= i < |e.slots| ensures CoversVoice(e, i, currentTailSamples) {
        PublishedTailCovers(e, seconds, parameters.sampleRate, i);
      }
      return true;
    }
  }

  /** Covered are what is left of a release, the release of a sounding voice, whatever the envelope was
      when it started, and the release of a note that starts from now on. */
  ghost predicate CoversVoice(e: Engine, i: nat, tail: nat)
    requires EngineOk(e) && i < |e.slots|
  {
    && e.envelope.release <= tail
    && (e.slots[i].owner.Some? ==>
          && (e.slots[i].voice.stage == Release ==> e.slots[i].voice.remaining <= tail)
          && BeginRelease(e.slots[i].voice).remaining <= tail)
  }

  function DefaultTail(s: Seconds, rate: real): Option<nat> {
    ReleaseSecondsToTailSamples(s.release, rate)
  }

  /** The plug-in's tail and the engine's release come from the same seconds. */
  lemma PublishedTailCovers(e: Engine, s: Seconds, rate: real, i: nat)
    requires EngineOk(e) && i < |e.slots| && Agree(s, rate, e) && DefaultTail(s, rate).Some?
    ensures CoversVoice(e, i, TailOf(e, DefaultTail(s, rate).value))
  {
    assert e.envelope.release == ReleaseSecondsToTailSamples(s.release, rate).value;
    if e.slots[i].owner.Some? {
      TailCoversEveryRelease(e, i);
    }
  }

  /** From configuration on, through blocks that succeed or fail, values and resets: the tail that is
      published covers every voice. */
  lemma TailCoversAfterAnyTurns(voices: nat, rate: real, releaseSamples: nat, turns: seq<Turn>, i: nat)
    requires 1 <= voices <= MAX_VOICES && 0.0 < rate && 0 < releaseSamples <= MAXIMUM_SAMPLES
    requires forall k :: 0 <= k < |turns| ==> PlainTurn(turns[k])
    ensures
      var e := NewEngine(voices, Envelope(0, 0, 1.0, releaseSamples));
      var r := TakeTurns(e, Configured(rate, releaseSamples), rate, turns);
      i < |r.0.slots| && DefaultTail(r.1, rate).Some? ==>
        CoversVoice(r.0, i, TailOf(r.0, DefaultTail(r.1, rate).value))
  {
    hide EngineOk, TakeTurns, EnvelopeOf, CoversVoice, TailOf, DefaultTail, PlainTurn;
    ConfiguredAgrees(rate, releaseSamples);
    var e := NewEngine(voices, Envelope(0, 0, 1.0, releaseSamples));
    SecondsAgree(e, Configured(rate, releaseSamples), rate, turns);
    var r := TakeTurns(e, Configured(rate, releaseSamples), rate, turns);
    if i < |r.0.slots| && DefaultTail(r.1, rate).Some? {
      PublishedTailCovers(r.0, r.1, rate, i);
    }
  }
}
