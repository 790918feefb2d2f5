/** The pitch of every sounding voice. Coarse tune is a snapshot taken at the NOTE_ON; fine tune, its
    modulation and tuning expressions move the voice live. Cents and semitones are reals here. */
module VoicePitches {
  import opened Wrappers
  import opened VoicePool
  import opened PolyphonicParameters

  const FINE: nat := 3
  const COARSE_LIMIT: int := 48
  const FINE_LIMIT: real := 100.0
  const TUNING_LIMIT: real := 120.0
  const MAXIMUM_VOICE_PITCH_OFFSET_CENTS: real := 21700.0

  function Clamp(x: real, low: real, high: real): (r: real)
    requires low <= high
    ensures low <= r <= high && (low <= x <= high ==> r == x)
  {
    if x < low then low else if high < x then high else x
  }

  // ---- Expressions waiting for a NOTE_ON at the same sample -----------------------------------------

  datatype Pending = Free | Waiting(address: Identity, time: nat, semitones: real)

  function SameEntry(table: seq<Pending>, address: Identity, time: nat, from: nat): (r: nat)
    requires from <= |table|
    ensures from <= r <= |table|
    ensures r < |table| ==> table[r].Waiting? && table[r].address == address && table[r].time == time
    ensures forall j :: from <= j < r ==>
              !(table[j].Waiting? && table[j].address == address && table[j].time == time)
    decreases |table| - from
  {
    if from == |table| || (table[from].Waiting? && table[from].address == address && table[from].time == time)
    then from else SameEntry(table, address, time, from + 1)
  }

  function FreeEntry(table: seq<Pending>, from: nat): (r: nat)
    requires from <= |table|
    ensures from <= r <= |table|
    ensures r < |table| ==> table[r].Free?
    ensures forall j :: from <= j < r ==> table[j].Waiting?
    decreases |table| - from
  {
    if from == |table| || table[from].Free? then from else FreeEntry(table, from + 1)
  }

  /** None: the table is full of other addresses. */
  function Store(table: seq<Pending>, entry: Pending): (r: Option<seq<Pending>>)
    requires entry.Waiting?
    ensures r.Some? ==> |r.value| == |table|
  {
    var same := SameEntry(table, entry.address, entry.time, 0);
    var free := FreeEntry(table, 0);
    if same < |table| then Some(table[same := entry])
    else if free < |table| then Some(table[free := entry])
    else None
  }

  predicate Concerns(entry: Pending, identity: Identity, time: nat) {
    entry.Waiting? && entry.time == time && Matches(entry.address, identity)
  }

  /** The last matching table entry wins, whichever expression came last. */
  function PendingFor(table: seq<Pending>, n: nat, identity: Identity, time: nat): Option<real>
    requires n <= |table|
  {
    if n == 0 then None
    else if Concerns(table[n - 1], identity, time) then Some(table[n - 1].semitones)
    else PendingFor(table, n - 1, identity, time)
  }

  // ---- Meaning of the log ------------------------------------------------------------------------------

  datatype PitchEvent =
    | NoteOn(index: nat, identity: Identity, time: nat)
    | CoarseTo(coarse: int)
    | TuneTo(address: Identity, time: nat, semitones: real)
    | Moment(time: nat)
    | Forget

  function NothingPending(): (r: seq<Pending>)
    ensures |r| == MAX_VOICES && forall i :: 0 <= i < |r| ==> r[i] == Free
  {
    seq(MAX_VOICES, i => Free)
  }

  function CoarseNow(log: seq<PitchEvent>): int {
    if log == [] then 0
    else
      var last := log[|log| - 1];
      if last.CoarseTo? then last.coarse else CoarseNow(log[..|log| - 1])
  }

  /** The coarse tune in force when the slot's latest NOTE_ON arrived. */
  function CoarseAtNoteOn(log: seq<PitchEvent>, index: nat): int {
    if log == [] then 0
    else
      var past, last := log[..|log| - 1], log[|log| - 1];
      if last.NoteOn? && last.index == index then CoarseNow(past) else CoarseAtNoteOn(past, index)
  }

  function NotedAt(log: seq<PitchEvent>, index: nat): Option<Identity> {
    if log == [] then None
    else
      var past, last := log[..|log| - 1], log[|log| - 1];
      if last.NoteOn? && last.index == index then Some(last.identity) else NotedAt(past, index)
  }

  datatype Waitlist = Waitlist(time: Option<nat>, table: seq<Pending>)

  function Await(w: Waitlist, e: PitchEvent): (r: Waitlist)
    ensures |w.table| == MAX_VOICES ==> |r.table| == MAX_VOICES
  {
    match e
    case Moment(time) => if w.time == Some(time) then w else Waitlist(Some(time), NothingPending())
    case Forget => Waitlist(None, NothingPending())
    case TuneTo(address, time, semitones) =>
      (match Store(w.table, Waiting(address, time, semitones))
       case Some(table) => Waitlist(w.time, table)
       case None => w)
    case NoteOn(_, _, _) => w
    case CoarseTo(_) => w
  }

  function WaitlistAt(log: seq<PitchEvent>): (w: Waitlist)
    ensures |w.table| == MAX_VOICES
  {
    if log == [] then Waitlist(None, NothingPending())
    else Await(WaitlistAt(log[..|log| - 1]), log[|log| - 1])
  }

  /** What a starting voice takes over from the expressions waiting for it. */
  function Inherited(w: Waitlist, identity: Identity, time: nat): real
    requires |w.table| == MAX_VOICES
  {
    match PendingFor(w.table, MAX_VOICES, identity, time) case Some(x) => x case None => 0.0
  }

  /** The tuning expression a voice hears: the latest one that reached it since its NOTE_ON, else what
      was waiting for it. */
  function TuningOf(log: seq<PitchEvent>, index: nat): real {
    if log == [] then 0.0
    else
      var past, last := log[..|log| - 1], log[|log| - 1];
      if last.NoteOn? && last.index == index then Inherited(WaitlistAt(past), last.identity, last.time)
      else if last.TuneTo? && NotedAt(past, index).Some? && Matches(last.address, NotedAt(past, index).value)
      then last.semitones
      else TuningOf(past, index)
  }

  function FineOf(h: seq<Change>, index: nat): real {
    Clamp(Reading(h, index, Base, FINE) + Reading(h, index, Modulation, FINE), -FINE_LIMIT, FINE_LIMIT)
  }

  /** Where a voice must sound, in semitones from the reference key. */
  function Semitones(log: seq<PitchEvent>, h: seq<Change>, index: nat, key: int): real {
    (key - 69) as real + CoarseAtNoteOn(log, index) as real + FineOf(h, index) / 100.0 + TuningOf(log, index)
  }

  /** A later coarse change moves no voice. */
  lemma CoarseChangesKeepPitch(log: seq<PitchEvent>, h: seq<Change>, semitones: int, index: nat, key: int)
    ensures Semitones(log + [CoarseTo(semitones)], h, index, key) == Semitones(log, h, index, key)
  {
    assert (log + [CoarseTo(semitones)])[..|log|] == log;
  }

  /** The snapshot lasts as long as the voice: whatever follows its NOTE_ON, short of the slot's next
      one, leaves the coarse tune that was in force then. */
  lemma {:induction false} SnapshotLasts(log: seq<PitchEvent>, i: nat, identity: Identity, time: nat,
                                         later: seq<PitchEvent>)
    requires forall e :: e in later && e.NoteOn? ==> e.index != i
    ensures CoarseAtNoteOn(log + [NoteOn(i, identity, time)] + later, i) == CoarseNow(log)
    decreases |later|
  {
    var all := log + [NoteOn(i, identity, time)] + later;
    if later == [] {
      assert all[..|all| - 1] == log;
    } else {
      var rest := later[..|later| - 1];
      SnapshotLasts(log, i, identity, time, rest);
      assert all[..|all| - 1] == log + [NoteOn(i, identity, time)] + rest;
      assert all[|all| - 1] in later;
    }
  }

  // ---- What an event asks for -----------------------------------------------------------------------------

  predicate TuneInRange(semitones: Option<real>) {
    semitones.Some? && -TUNING_LIMIT <= semitones.value <= TUNING_LIMIT
  }

  function TuneEvents(address: Identity, time: nat, semitones: Option<real>): seq<PitchEvent> {
    [Moment(time)] + if TuneInRange(semitones) then [TuneTo(address, time, semitones.value)] else []
  }

  /** A tuning expression fails only for its address, or for want of a table entry. */
  predicate TuneAccepted(log: seq<PitchEvent>, address: Identity, time: nat, semitones: Option<real>) {
    && ValidAddress(address)
    && (TuneInRange(semitones) ==>
          Store(WaitlistAt(log + [Moment(time)]).table, Waiting(address, time, semitones.value)).Some?)
  }

  predicate FineInRange(cents: Option<real>) {
    cents.Some? && -FINE_LIMIT <= cents.value <= FINE_LIMIT
  }

  function FineValueChanges(address: Identity, cents: Option<real>): seq<Change> {
    if FineInRange(cents) then [Set(Base, FINE, address, cents.value)] else []
  }

  function FineModulationChanges(address: Identity, cents: Option<real>): seq<Change> {
    if cents.Some? then [Set(Modulation, FINE, address, cents.value)] else []
  }

  function CoarseEvents(address: Identity, semitones: Option<real>): seq<PitchEvent> {
    if semitones.Some? && IsGlobal(address) && -48.0 <= semitones.value <= 48.0
    then [CoarseTo(Truncated(semitones.value))] else []
  }

  // ---- One voice ---------------------------------------------------------------------------------------

  /** A slot of the engine below: who sounds there and the offset behind the phase increment. */
  datatype Sounding = Sounding(owner: Option<Identity>, offset: real)

  /** What the adapter keeps for a slot; the source has one array for each. */
  datatype PitchEntry = PitchEntry(tracked: Option<Identity>, coarse: int, tuning: real)

  const UNTRACKED := PitchEntry(None, 0, 0.0)

  /** A sounding voice is tracked, and its numbers are those the log gives. */
  ghost predicate Agrees(owner: Option<Identity>, entry: PitchEntry, log: seq<PitchEvent>, h: seq<Change>, i: nat) {
    && entry.tracked == IdentityAt(h, i)
    && -COARSE_LIMIT <= entry.coarse <= COARSE_LIMIT && -TUNING_LIMIT <= entry.tuning <= TUNING_LIMIT
    && (owner.Some? ==>
         && entry.tracked == owner == NotedAt(log, i)
         && entry.coarse == CoarseAtNoteOn(log, i) && entry.tuning == TuningOf(log, i))
  }

  ghost predicate Tuned(sound: Sounding, log: seq<PitchEvent>, h: seq<Change>, i: nat) {
    sound.owner.Some? ==> sound.offset == Semitones(log, h, i, sound.owner.value.key)
  }

  ghost predicate WaitingOk(w: Waitlist) {
    && |w.table| == MAX_VOICES
    && forall i :: 0 <= i < |w.table| && w.table[i].Waiting? ==>
         -TUNING_LIMIT <= w.table[i].semitones <= TUNING_LIMIT
  }

  // ---- The adapter -----------------------------------------------------------------------------------

  class ParameterVoiceEngine {
    const polyphonicState: PolyphonicParameterState
    const sounding: array<Sounding>
    var engineCoarse: int
    var engineFine: real

    const entries: array<PitchEntry>
    const pending: array<Pending>
    var pendingTime: Option<nat>
    var coarseBase: int
    var fineBase: real
    var fineModulation: real
    ghost var log: seq<PitchEvent>

    ghost function Repr(): set<object> {
      {this, polyphonicState, polyphonicState.voices, polyphonicState.globalBase,
       polyphonicState.globalModulation, sounding, entries, pending}
    }

    ghost function Capacity(): nat
      reads polyphonicState
    {
      polyphonicState.capacity
    }

    ghost function Changes(): seq<Change>
      reads polyphonicState
    {
      polyphonicState.history
    }

    ghost predicate Shape()
      reads polyphonicState, polyphonicState.voices, polyphonicState.globalBase, polyphonicState.globalModulation
    {
      && polyphonicState.Valid() && polyphonicState.configured && polyphonicState.capacity <= MAX_VOICES
      && sounding.Length == entries.Length == pending.Length == MAX_VOICES
    }

    ghost predicate Tracking()
      requires Shape()
      reads this, polyphonicState, polyphonicState.voices, polyphonicState.globalBase
      reads polyphonicState.globalModulation, sounding, entries, pending
    {
      forall i :: 0 <= i < Capacity() ==> Agrees(sounding[i].owner, entries[i], log, Changes(), i)
    }

    ghost predicate Defaults()
      requires Shape()
      reads this, polyphonicState, polyphonicState.voices, polyphonicState.globalBase
      reads polyphonicState.globalModulation, sounding, entries, pending
    {
      && -COARSE_LIMIT <= coarseBase == engineCoarse == CoarseNow(log) <= COARSE_LIMIT
      && fineBase == Global(Changes(), Base, FINE)
      && fineModulation == Global(Changes(), Modulation, FINE)
      && WaitlistAt(log) == Waitlist(pendingTime, pending[..]) && WaitingOk(WaitlistAt(log))
    }

    ghost predicate InTune()
      requires Shape()
      reads this, polyphonicState, polyphonicState.voices, polyphonicState.globalBase
      reads polyphonicState.globalModulation, sounding, entries, pending
    {
      forall i :: 0 <= i < Capacity() ==> Tuned(sounding[i], log, Changes(), i)
    }

    /** Sounding voices hear what they would hear had the changes been those of `g`. */
    ghost predicate Hears(g: seq<Change>)
      requires Shape()
      reads this, polyphonicState, polyphonicState.voices, polyphonicState.globalBase
      reads polyphonicState.globalModulation, sounding
    {
      && SameValues(Changes(), g)
      && forall i :: 0 <= i < Capacity() && sounding[i].owner.Some? ==> VoiceAt(Changes(), i) == VoiceAt(g, i)
    }

    lemma HeardFine(g: seq<Change>)
      requires Shape() && Hears(g)
      ensures forall i :: 0 <= i < Capacity() && sounding[i].owner.Some? ==> FineOf(Changes(), i) == FineOf(g, i)
    {
      hide PolyphonicParameterState.Valid, VoiceAt, FineOf;
      forall i | 0 <= i < Capacity() && sounding[i].owner.Some? ensures FineOf(Changes(), i) == FineOf(g, i) {
        SameFine(Changes(), g, i);
      }
    }

    /** Holds between the events of a successful run. */
    ghost predicate Valid()
      reads this, polyphonicState, polyphonicState.voices, polyphonicState.globalBase
      reads polyphonicState.globalModulation, sounding, entries, pending
    {
      Shape() && Tracking() && Defaults() && InTune()
    }

    constructor (requestedVoices: nat)
      requires 1 <= requestedVoices <= MAX_VOICES
      ensures Valid() && Capacity() == requestedVoices && log == [] && Changes() == []
      ensures forall i :: 0 <= i < requestedVoices ==> sounding[i].owner.None?
    {
      hide Semitones, FineOf;
      sounding := new Sounding[MAX_VOICES](i => Sounding(None, 0.0));
      entries := new PitchEntry[MAX_VOICES](i => UNTRACKED);
      pending := new Pending[MAX_VOICES](i => Free);
      engineCoarse, engineFine, coarseBase, fineBase, fineModulation := 0, 0.0, 0, 0.0, 0.0;
      pendingTime, log := None, [];
      polyphonicState := new PolyphonicParameterState();
      new;
      var configured := polyphonicState.Configure(requestedVoices);
      assert pending[..] == NothingPending();
    }

    // ---- The engine below ---------------------------------------------------------------------------

    method SetVoiceFineTuningCents(i: nat, cents: real) returns (ok: bool)
      requires Shape()
      modifies sounding
      ensures ok == (i < Capacity() && sounding[i].owner.Some?
                     && -MAXIMUM_VOICE_PITCH_OFFSET_CENTS <= cents <= MAXIMUM_VOICE_PITCH_OFFSET_CENTS)
      ensures sounding[..] ==
              if ok then old(sounding[..])[i := old(sounding[i]).(offset :=
                (sounding[i].owner.value.key - 69) as real + engineCoarse as real + cents / 100.0)]
              else old(sounding[..])
    {
      if i >= polyphonicState.capacity || sounding[i].owner.None?
         || cents < -MAXIMUM_VOICE_PITCH_OFFSET_CENTS || cents > MAXIMUM_VOICE_PITCH_OFFSET_CENTS {
        return false;
      }
      sounding[i] := sounding[i].(offset :=
        (sounding[i].owner.value.key - 69) as real + engineCoarse as real + cents / 100.0);
      return true;
    }

    /** A voice falls silent: released, choked, or about to be stolen. */
    method VoiceEnds(i: nat)
      requires Valid() && i < Capacity()
      modifies sounding
      ensures Valid() && Hears(old(Changes()) + [Stopped(i)])
      ensures sounding[..] == old(sounding[..])[i := old(sounding[i]).(owner := None)]
    {
      sounding[i] := sounding[i].(owner := None);
      LivesChangeNoValues(Changes(), Stopped(i));
      forall j | 0 <= j < Capacity() && j != i ensures VoiceAt(Changes(), j) == VoiceAt(Changes() + [Stopped(i)], j) {
        OthersKeep(Changes(), Stopped(i), j);
      }
    }

    // ---- Keeping track --------------------------------------------------------------------------------

    /** Forgets the voices that have ended; what sounding voices hear does not change. */
    method SyncVoices() returns (ok: bool)
      requires Shape() && Tracking()
      modifies polyphonicState`history, polyphonicState.voices, entries
      ensures ok && Shape() && Tracking()
      ensures forall i :: 0 <= i < Capacity() ==> entries[i].tracked == sounding[i].owner
      ensures Hears(old(Changes()))
    {
      hide PolyphonicParameterState.Valid, Agrees, VoiceAt;
      var i := 0;
      while i < polyphonicState.capacity
        invariant 0 <= i <= Capacity() && Shape() && Tracking()
        invariant forall j :: 0 <= j < i ==> entries[j].tracked == sounding[j].owner
        invariant Hears(old(Changes()))
      {
        TrackedIf(i);
        if sounding[i].owner.None? && entries[i].tracked.Some? {
          ghost var h := Changes();
          var stopped := polyphonicState.StopVoice(i);
          if !stopped {
            return false;
          }
          entries[i] := UNTRACKED;
          StopForgets(h, i, sounding[i].owner, log);
          forall j | 0 <= j < Capacity() && j != i
            ensures Agrees(sounding[j].owner, entries[j], log, Changes(), j)
            ensures VoiceAt(Changes(), j) == VoiceAt(h, j)
          {
            StopSpares(h, i, j, sounding[j].owner, entries[j], log);
          }
        }
        i := i + 1;
      }
      return true;
    }

    lemma TrackedIf(i: nat)
      requires Shape() && Tracking() && i < Capacity()
      ensures entries[i].tracked == IdentityAt(Changes(), i)
      ensures sounding[i].owner.Some? ==> entries[i].tracked == sounding[i].owner
    {
      assert Agrees(sounding[i].owner, entries[i], log, Changes(), i);
    }

    method RetuneVoice(i: nat) returns (ok: bool)
      requires Shape() && Tracking() && Defaults() && i < Capacity() && entries[i].tracked == sounding[i].owner
      requires sounding[i].owner.Some?
      modifies sounding
      ensures ok && Tuned(sounding[i], log, Changes(), i)
      ensures sounding[..] == old(sounding[..])[i := old(sounding[i]).(offset := sounding[i].offset)]
    {
      hide PolyphonicParameterState.Valid, Agrees, Tuned, FineOf, WaitlistAt, WaitingOk, CoarseNow, Global, Reading;
      TrackedIf(i);
      var base := polyphonicState.BaseValue(i, FINE);
      var modulation := polyphonicState.ModulationAmount(i, FINE);
      if base.None? || modulation.None? {
        return false;
      }
      var parameterCents := Clamp(base.value + modulation.value, -FINE_LIMIT, FINE_LIMIT);
      var coarseCompensationCents := (entries[i].coarse - coarseBase) as real * 100.0;
      var effectiveCents := coarseCompensationCents + parameterCents + entries[i].tuning * 100.0;
      HandoffIsRight(sounding[i].owner, entries[i], log, Changes(), i, coarseBase);
      ok := SetVoiceFineTuningCents(i, effectiveCents);
    }

    /** Hands every tracked voice its cents. The engine adds today's coarse tune itself, so the
        difference to the voice's snapshot is compensated; the sum never leaves the accepted range. */
    method ApplyFineTuningState() returns (ok: bool)
      requires Shape() && Tracking() && Defaults()
      modifies polyphonicState`history, polyphonicState.voices, entries, this`engineFine, sounding
      ensures ok && Valid() && Hears(old(Changes()))
      ensures forall i :: 0 <= i < Capacity() ==> sounding[i].owner == old(sounding[i].owner)
    {
      hide PolyphonicParameterState.Valid, Agrees, Tuned, FineOf, VoiceAt, WaitlistAt, WaitingOk;
      ok := SyncVoices();
      if !ok {
        return false;
      }
      engineFine := Clamp(fineBase + fineModulation, -FINE_LIMIT, FINE_LIMIT);
      ghost var h := Changes();
      var i := 0;
      while i < polyphonicState.capacity
        modifies sounding
        invariant 0 <= i <= Capacity() && Shape() && Tracking() && Defaults() && Changes() == h
        invariant forall j :: 0 <= j < Capacity() ==> entries[j].tracked == sounding[j].owner
        invariant forall j :: 0 <= j < Capacity() ==> sounding[j].owner == old(sounding[j].owner)
        invariant forall j :: 0 <= j < i ==> Tuned(sounding[j], log, Changes(), j)
        invariant Hears(old(Changes()))
      {
        if entries[i].tracked.Some? {
          ok := RetuneVoice(i);
          if !ok {
            return false;
          }
        } else {
          SilentIsTuned(sounding[i], log, Changes(), i);
        }
        i := i + 1;
      }
      return true;
    }

    // ---- Events ----------------------------------------------------------------------------------------

    method ForgetPending()
      requires pending.Length == MAX_VOICES
      modifies pending
      ensures pending[..] == NothingPending()
    {
      forall i | 0 <= i < MAX_VOICES {
        pending[i] := Free;
      }
    }

    method PrepareTransientExpressionTime(time: nat)
      requires Valid()
      modifies this`pendingTime, this`log, pending
      ensures Valid() && pendingTime == Some(time) && log == old(log) + [Moment(time)]
    {
      hide PolyphonicParameterState.Valid, Agrees, Tuned, VoiceAt, CoarseNow, Global, FineOf;
      if pendingTime != Some(time) {
        ForgetPending();
        pendingTime := Some(time);
      }
      log := log + [Moment(time)];
      Appended(old(log), Moment(time));
      forall i | 0 <= i < Capacity()
        ensures Agrees(sounding[i].owner, entries[i], log, Changes(), i) && Tuned(sounding[i], log, Changes(), i)
      {
        QuietAppend(sounding[i], entries[i], old(log), Changes(), i, Moment(time));
      }
    }

    /** Between blocks nothing waits. */
    method ClearTransientExpressionState()
      requires Valid()
      modifies this`pendingTime, this`log, pending
      ensures Valid() && log == old(log) + [Forget]
    {
      hide PolyphonicParameterState.Valid, Agrees, Tuned, VoiceAt, CoarseNow, Global, FineOf;
      ForgetPending();
      pendingTime := None;
      log := log + [Forget];
      Appended(old(log), Forget);
      forall i | 0 <= i < Capacity()
        ensures Agrees(sounding[i].owner, entries[i], log, Changes(), i) && Tuned(sounding[i], log, Changes(), i)
      {
        QuietAppend(sounding[i], entries[i], old(log), Changes(), i, Forget);
      }
    }

    method StorePendingTuning(address: Identity, time: nat, semitones: real) returns (ok: bool)
      requires pending.Length == MAX_VOICES
      modifies pending
      ensures
        var stored := Store(old(pending[..]), Waiting(address, time, semitones));
        ok == stored.Some? && pending[..] == if ok then stored.value else old(pending[..])
    {
      var i := 0;
      while i < pending.Length
        invariant 0 <= i <= pending.Length && pending[..] == old(pending[..])
        invariant SameEntry(pending[..], address, time, 0) == SameEntry(pending[..], address, time, i)
      {
        if pending[i].Waiting? && pending[i].time == time && pending[i].address == address {
          pending[i] := Waiting(address, time, semitones);
          return true;
        }
        i := i + 1;
      }
      i := 0;
      while i < pending.Length
        invariant 0 <= i <= pending.Length && pending[..] == old(pending[..])
        invariant FreeEntry(pending[..], 0) == FreeEntry(pending[..], i)
      {
        if pending[i].Free? {
          pending[i] := Waiting(address, time, semitones);
          return true;
        }
        i := i + 1;
      }
      return false;
    }

    method PendingTuningFor(identity: Identity, time: nat) returns (semitones: Option<real>)
      requires pending.Length == MAX_VOICES
      ensures semitones == PendingFor(pending[..], MAX_VOICES, identity, time)
    {
      semitones := None;
      var i := 0;
      while i < pending.Length
        invariant 0 <= i <= pending.Length
        invariant semitones == PendingFor(pending[..], i, identity, time)
      {
        if pending[i].Waiting? && pending[i].time == time && Matches(pending[i].address, identity) {
          semitones := Some(pending[i].semitones);
        }
        i := i + 1;
      }
    }

    /** A NOTE_ON took slot `i`: the engine starts the voice, then the adapter is told. */
    method StartVoice(i: nat, identity: Identity, time: nat) returns (ok: bool)
      requires Valid() && i < Capacity() && ValidVoice(identity)
      modifies Repr()
      ensures ok && Valid() && Capacity() == old(Capacity())
      ensures log == old(log) + [Moment(time)] + [NoteOn(i, identity, time)]
      ensures Hears(old(Changes()) + [Started(i, identity)])
      ensures sounding[i].owner == Some(identity)
      ensures forall j :: 0 <= j < Capacity() && j != i ==> sounding[j].owner == old(sounding[j].owner)
    {
      hide PolyphonicParameterState.Valid, Agrees, Tuned, VoiceAt, FineOf;
      hide CoarseNow, Global, PendingFor, WaitlistAt, WaitingOk;
      PrepareTransientExpressionTime(time);
      sounding[i] := Sounding(Some(identity),
                              (identity.key - 69) as real + engineCoarse as real + engineFine / 100.0);
      ghost var h, before := Changes(), log;
      var started := polyphonicState.StartVoice(i, identity);
      if !started {
        return false;
      }
      var waiting := PendingTuningFor(identity, time);
      entries[i] := PitchEntry(Some(identity), coarseBase, if waiting.Some? then waiting.value else 0.0);
      log := log + [NoteOn(i, identity, time)];
      BoundsClear(h, Started(i, identity), i);
      NotedAgrees(before, h, i, identity, time, entries[i]);
      forall j | 0 <= j < Capacity() && j != i
        ensures Agrees(sounding[j].owner, entries[j], log, Changes(), j)
      {
        NotedSpares(before, h, i, identity, time, j, sounding[j].owner, entries[j]);
      }
      ok := ApplyFineTuningState();
    }

    /** The loop over the tracked voices: those addressed take the expression over. */
    method RetuneMatching(address: Identity, semitones: real, ghost e: PitchEvent) returns (matched: bool)
      requires Shape() && Tracking() && InTune() && -TUNING_LIMIT <= semitones <= TUNING_LIMIT
      requires e.TuneTo? && e.address == address && e.semitones == semitones
      requires forall j :: 0 <= j < Capacity() ==> entries[j].tracked == sounding[j].owner
      modifies entries
      ensures forall j :: 0 <= j < Capacity() ==> Agrees(sounding[j].owner, entries[j], log + [e], Changes(), j)
      ensures !matched ==> forall j :: 0 <= j < Capacity() ==> Tuned(sounding[j], log + [e], Changes(), j)
    {
      hide PolyphonicParameterState.Valid, Agrees, Tuned;
      matched := false;
      var i := 0;
      while i < polyphonicState.capacity
        invariant 0 <= i <= Capacity()
        invariant forall j :: 0 <= j < i ==> Agrees(sounding[j].owner, entries[j], log + [e], Changes(), j)
        invariant forall j :: i <= j < Capacity() ==> Agrees(sounding[j].owner, entries[j], log, Changes(), j)
        invariant forall j :: i <= j < Capacity() ==> entries[j].tracked == sounding[j].owner
        invariant !matched ==> forall j :: 0 <= j < i ==> Tuned(sounding[j], log + [e], Changes(), j)
      {
        TuneReaches(sounding[i], entries[i], log, Changes(), i, e);
        if entries[i].tracked.Some? && Matches(address, entries[i].tracked.value) {
          entries[i] := entries[i].(tuning := semitones);
          matched := true;
        }
        i := i + 1;
      }
    }

    /** The expression waits for NOTE_ONs at the same sample, and the voices have heard it. */
    method RememberTuning(address: Identity, time: nat, semitones: real, ghost e: PitchEvent) returns (ok: bool)
      requires Shape() && Defaults() && -TUNING_LIMIT <= semitones <= TUNING_LIMIT
      requires e == TuneTo(address, time, semitones)
      modifies this`log, pending
      ensures Shape() && ok == Store(old(pending[..]), Waiting(address, time, semitones)).Some?
      ensures ok ==> Defaults() && log == old(log) + [e]
    {
      hide PolyphonicParameterState.Valid, WaitingOk, CoarseNow, Global, Store;
      ghost var table, before := pending[..], log;
      ok := StorePendingTuning(address, time, semitones);
      if ok {
        StoredIsLimited(table, Waiting(address, time, semitones));
        log := log + [e];
        Appended(before, e);
      }
    }

    /** An expression out of range is ignored; a full table fails the block. */
    method ApplyTuningExpression(address: Identity, time: nat, semitones: Option<real>) returns (ok: bool)
      requires Valid()
      modifies Repr()
      ensures Shape() && Capacity() == old(Capacity())
      ensures ok == TuneAccepted(old(log), address, time, semitones)
      ensures ok ==> Valid() && log == old(log) + TuneEvents(address, time, semitones) && Hears(old(Changes()))
      ensures forall j :: 0 <= j < Capacity() ==> sounding[j].owner == old(sounding[j].owner)
    {
      hide PolyphonicParameterState.Valid, Agrees, Tuned, VoiceAt, FineOf, CoarseNow, Global, PendingFor, Store;
      PrepareTransientExpressionTime(time);
      if !ValidAddress(address) {
        return false;
      }
      if semitones.None? || semitones.value < -TUNING_LIMIT || semitones.value > TUNING_LIMIT {
        return true;
      }
      ghost var h := Changes();
      ok := SyncVoices();
      if !ok {
        return false;
      }
      ghost var before, e := log, TuneTo(address, time, semitones.value);
      HeardFine(h);
      forall j | 0 <= j < Capacity() ensures Tuned(sounding[j], before, Changes(), j) {
        SameFineSamePitch(sounding[j], before, h, Changes(), j);
      }
      var matched := RetuneMatching(address, semitones.value, e);
      var stored := RememberTuning(address, time, semitones.value, e);
      if !stored {
        return false;
      }
      if matched {
        ok := ApplyFineTuningState();
      }
    }

    /** The change was appended to what sounding voices already heard as `g`. */
    lemma SetIsHeard(g: seq<Change>, h: seq<Change>, c: Change)
      requires Shape() && c.Set? && c.slot < MAX_PARAMETERS && Changes() == h + [c] && SameValues(h, g)
      requires forall i :: 0 <= i < Capacity() && sounding[i].owner.Some? ==> VoiceAt(h, i) == VoiceAt(g, i)
      ensures Hears(g + [c])
    {
      hide PolyphonicParameterState.Valid, VoiceAt, SameValues;
      SameValuesAfter(h, g, c);
      forall i | 0 <= i < Capacity() && sounding[i].owner.Some? ensures VoiceAt(h + [c], i) == VoiceAt(g + [c], i) {
        SameVoiceAfter(h, g, c, i);
      }
    }

    /** PARAM_VALUE for fine tune, in cents. */
    method ApplyFineValue(address: Identity, cents: Option<real>) returns (ok: bool)
      requires Valid()
      modifies Repr()
      ensures Shape() && Capacity() == old(Capacity())
      ensures ok == (cents.Some? && (FineInRange(cents) ==> ValidAddress(address)))
      ensures ok ==> Valid() && log == old(log) && Hears(old(Changes()) + FineValueChanges(address, cents))
      ensures forall j :: 0 <= j < Capacity() ==> sounding[j].owner == old(sounding[j].owner)
    {
      hide PolyphonicParameterState.Valid, Agrees, Tuned, VoiceAt, FineOf, WaitlistAt, WaitingOk, CoarseNow, Global;
      if cents.None? {
        return false;
      }
      if cents.value < -FINE_LIMIT || cents.value > FINE_LIMIT {
        assert Changes() + [] == Changes();
        return true;
      }
      ok := SyncVoices();
      if !ok {
        return false;
      }
      ghost var h, change := Changes(), Set(Base, FINE, address, cents.value);
      ok := polyphonicState.ApplyValue(FINE, address, cents);
      if !ok {
        return false;
      }
      SetIsHeard(old(Changes()), h, change);
      SetGlobals(h, change);
      forall j | 0 <= j < Capacity() ensures Agrees(sounding[j].owner, entries[j], log, Changes(), j) {
        SetAgrees(sounding[j].owner, entries[j], log, h, j, change);
      }
      if IsGlobal(address) {
        fineBase := cents.value;
      }
      ok := ApplyFineTuningState();
    }

    /** PARAM_MOD for fine tune. */
    method ApplyFineModulation(address: Identity, cents: Option<real>) returns (ok: bool)
      requires Valid()
      modifies Repr()
      ensures Shape() && Capacity() == old(Capacity())
      ensures ok == (cents.Some? && ValidAddress(address))
      ensures ok ==> Valid() && log == old(log) && Hears(old(Changes()) + FineModulationChanges(address, cents))
      ensures forall j :: 0 <= j < Capacity() ==> sounding[j].owner == old(sounding[j].owner)
    {
      hide PolyphonicParameterState.Valid, Agrees, Tuned, VoiceAt, FineOf, WaitlistAt, WaitingOk, CoarseNow, Global;
      if cents.None? {
        return false;
      }
      ok := SyncVoices();
      if !ok {
        return false;
      }
      ghost var h, change := Changes(), Set(Modulation, FINE, address, cents.value);
      ok := polyphonicState.ApplyModulation(FINE, address, cents);
      if !ok {
        return false;
      }
      SetIsHeard(old(Changes()), h, change);
      SetGlobals(h, change);
      forall j | 0 <= j < Capacity() ensures Agrees(sounding[j].owner, entries[j], log, Changes(), j) {
        SetAgrees(sounding[j].owner, entries[j], log, h, j, change);
      }
      if IsGlobal(address) {
        fineModulation := cents.value;
      }
      ok := ApplyFineTuningState();
    }

    /** PARAM_VALUE for coarse tune: a default for later NOTE_ONs only. */
    method ApplyCoarseValue(address: Identity, value: Option<real>) returns (ok: bool)
      requires Valid()
      modifies this`engineCoarse, this`coarseBase, this`log
      ensures ok == value.Some? && Valid() && log == old(log) + CoarseEvents(address, value)
    {
      hide PolyphonicParameterState.Valid, Agrees, Tuned, VoiceAt, CoarseNow;
      if value.None? {
        return false;
      }
      if !IsGlobal(address) || value.value < -48.0 || value.value > 48.0 {
        return true;
      }
      var semitones := Truncated(value.value);
      engineCoarse := semitones;
      coarseBase := semitones;
      log := log + [CoarseTo(semitones)];
      Appended(old(log), CoarseTo(semitones));
      forall i | 0 <= i < Capacity()
        ensures Agrees(sounding[i].owner, entries[i], log, Changes(), i) && Tuned(sounding[i], log, Changes(), i)
      {
        QuietAppend(sounding[i], entries[i], old(log), Changes(), i, CoarseTo(semitones));
      }
      return true;
    }
  }

  // ---- Whole runs ---------------------------------------------------------------------------------------

  datatype Command =
    | Start(index: nat, identity: Identity, time: nat)
    | End(index: nat)
    | Tune(address: Identity, time: nat, semitones: Option<real>)
    | FineValue(address: Identity, cents: Option<real>)
    | FineModulation(address: Identity, cents: Option<real>)
    | CoarseValue(address: Identity, semitones: Option<real>)
    | BlockEdge

  predicate Sensible(c: Command, capacity: nat) {
    match c
    case Start(index, identity, _) => index < capacity && ValidVoice(identity)
    case End(index) => index < capacity
    case _ => true
  }

  // The run as a function of its commands alone.

  function EventsOf(c: Command): seq<PitchEvent> {
    match c
    case Start(index, identity, time) => [Moment(time), NoteOn(index, identity, time)]
    case Tune(address, time, semitones) => TuneEvents(address, time, semitones)
    case CoarseValue(address, semitones) => CoarseEvents(address, semitones)
    case BlockEdge => [Forget]
    case _ => []
  }

  function ChangesOf(c: Command): seq<Change> {
    match c
    case Start(index, identity, _) => [Started(index, identity)]
    case End(index) => [Stopped(index)]
    case FineValue(address, cents) => FineValueChanges(address, cents)
    case FineModulation(address, cents) => FineModulationChanges(address, cents)
    case _ => []
  }

  function LogOf(commands: seq<Command>): seq<PitchEvent> {
    if commands == [] then []
    else LogOf(commands[..|commands| - 1]) + EventsOf(commands[|commands| - 1])
  }

  function HistoryOf(commands: seq<Command>): seq<Change> {
    if commands == [] then []
    else HistoryOf(commands[..|commands| - 1]) + ChangesOf(commands[|commands| - 1])
  }

  function OwnerThen(owner: Option<Identity>, c: Command, i: nat): Option<Identity> {
    match c
    case Start(index, identity, _) => if index == i then Some(identity) else owner
    case End(index) => if index == i then None else owner
    case _ => owner
  }

  /** Who sounds in slot `i` in the end, if `owner` did in the beginning. */
  function OwnerAfter(owner: Option<Identity>, commands: seq<Command>, i: nat): Option<Identity> {
    if commands == [] then owner
    else OwnerThen(OwnerAfter(owner, commands[..|commands| - 1], i), commands[|commands| - 1], i)
  }

  predicate Accepted(log: seq<PitchEvent>, c: Command) {
    match c
    case Tune(address, time, semitones) => TuneAccepted(log, address, time, semitones)
    case FineValue(address, cents) => cents.Some? && (FineInRange(cents) ==> ValidAddress(address))
    case FineModulation(address, cents) => cents.Some? && ValidAddress(address)
    case CoarseValue(_, semitones) => semitones.Some?
    case _ => true
  }

  predicate AllAccepted(log: seq<PitchEvent>, commands: seq<Command>) {
    commands == [] ||
    (var past := commands[..|commands| - 1];
     AllAccepted(log, past) && Accepted(log + LogOf(past), commands[|commands| - 1]))
  }

  /** One command: what it does to voices that heard `g` is what its events and changes say. */
  method Perform(engine: ParameterVoiceEngine, c: Command, ghost g: seq<Change>) returns (ok: bool)
    requires engine.Valid() && Sensible(c, engine.Capacity()) && engine.Hears(g)
    modifies engine.Repr()
    ensures engine.Shape() && engine.Capacity() == old(engine.Capacity())
    ensures ok == Accepted(old(engine.log), c)
    ensures ok ==> engine.Valid() && engine.log == old(engine.log) + EventsOf(c)
    ensures ok ==> engine.Hears(g + ChangesOf(c))
    ensures ok ==> forall i :: 0 <= i < engine.Capacity() ==>
              engine.sounding[i].owner == OwnerThen(old(engine.sounding[i].owner), c, i)
  {
    hide PolyphonicParameterState.Valid, ParameterVoiceEngine.Tracking, ParameterVoiceEngine.Defaults;
    hide ParameterVoiceEngine.InTune, VoiceAt, SameValues, TuneAccepted, FineInRange, TuneEvents, CoarseEvents;
    ok := true;
    ghost var h, log := engine.Changes(), engine.log;
    assert h + [] == h && log + [] == log;
    HeardValues(h, g, c);
    HeardVoices(h, g, c);
    match c {
      case Start(index, identity, time) => ok := engine.StartVoice(index, identity, time);
      case End(index) => engine.VoiceEnds(index);
      case Tune(address, time, semitones) => ok := engine.ApplyTuningExpression(address, time, semitones);
      case FineValue(address, cents) => ok := engine.ApplyFineValue(address, cents);
      case FineModulation(address, cents) => ok := engine.ApplyFineModulation(address, cents);
      case CoarseValue(address, semitones) => ok := engine.ApplyCoarseValue(address, semitones);
      case BlockEdge => engine.ClearTransientExpressionState();
    }
    if ok {
      assert c.Start? ==> log + [Moment(c.time)] + [NoteOn(c.index, c.identity, c.time)] == log + EventsOf(c);
      SameValuesBoth(engine.Changes(), h + ChangesOf(c), g + ChangesOf(c));
    }
  }

  lemma SameValuesBoth(h: seq<Change>, middle: seq<Change>, g: seq<Change>)
    requires SameValues(h, middle) && SameValues(middle, g)
    ensures SameValues(h, g)
  {
  }

  lemma HeardValues(h: seq<Change>, g: seq<Change>, c: Command)
    requires SameValues(h, g)
    ensures SameValues(h + ChangesOf(c), g + ChangesOf(c))
  {
    if ChangesOf(c) == [] {
      assert h + [] == h && g + [] == g;
    } else {
      SameValuesAfter(h, g, ChangesOf(c)[0]);
    }
  }

  lemma HeardVoices(h: seq<Change>, g: seq<Change>, c: Command)
    ensures forall i :: VoiceAt(h, i) == VoiceAt(g, i) || (c.Start? && c.index == i) ==>
              VoiceAt(h + ChangesOf(c), i) == VoiceAt(g + ChangesOf(c), i)
  {
    hide VoiceAt;
    forall i | VoiceAt(h, i) == VoiceAt(g, i) || (c.Start? && c.index == i)
      ensures VoiceAt(h + ChangesOf(c), i) == VoiceAt(g + ChangesOf(c), i)
    {
      if ChangesOf(c) == [] {
        assert h + [] == h && g + [] == g;
      } else {
        SameVoiceAfter(h, g, ChangesOf(c)[0], i);
      }
    }
  }

  /** However the events come: the run succeeds exactly when every command is acceptable after those
      before it, and then the log, the changes heard, and who sounds are functions of the commands, and
      every sounding voice is at the pitch they give. */
  method Follow(engine: ParameterVoiceEngine, commands: seq<Command>) returns (ok: bool)
    requires engine.Valid()
    requires forall c :: c in commands ==> Sensible(c, engine.Capacity())
    modifies engine.Repr()
    ensures engine.Shape() && engine.Capacity() == old(engine.Capacity())
    ensures ok == AllAccepted(old(engine.log), commands)
    ensures ok ==> engine.Valid() && engine.log == old(engine.log) + LogOf(commands)
    ensures ok ==> engine.Hears(old(engine.Changes()) + HistoryOf(commands))
    ensures ok ==> forall i :: 0 <= i < engine.Capacity() ==>
              engine.sounding[i].owner == OwnerAfter(old(engine.sounding[i].owner), commands, i)
    ensures ok ==> forall i :: 0 <= i < engine.Capacity() && engine.sounding[i].owner.Some? ==>
              engine.sounding[i].offset == Semitones(old(engine.log) + LogOf(commands),
                                                     old(engine.Changes()) + HistoryOf(commands), i,
                                                     engine.sounding[i].owner.value.key)
  {
    hide PolyphonicParameterState.Valid, ParameterVoiceEngine.Tracking, ParameterVoiceEngine.Defaults;
    hide ParameterVoiceEngine.InTune, ParameterVoiceEngine.Hears;
    hide Semitones, HistoryOf, LogOf, OwnerAfter, AllAccepted, Accepted, ChangesOf, EventsOf, OwnerThen;
    ghost var log, h := engine.log, engine.Changes();
    NothingPlayed(log, h, commands);
    HearsItself(engine);
    var i := 0;
    while i < |commands|
      invariant 0 <= i <= |commands| && engine.Valid() && engine.Capacity() == old(engine.Capacity())
      invariant engine.log == log + LogOf(commands[..i]) && AllAccepted(log, commands[..i])
      invariant engine.Hears(h + HistoryOf(commands[..i]))
      invariant forall j :: 0 <= j < engine.Capacity() ==>
                  engine.sounding[j].owner == OwnerAfter(old(engine.sounding[j].owner), commands[..i], j)
    {
      assert Sensible(commands[i], engine.Capacity());
      Played(log, h, commands, i);
      ok := Perform(engine, commands[i], h + HistoryOf(commands[..i]));
      if !ok {
        RejectedStays(log, commands, i + 1);
        return false;
      }
      i := i + 1;
    }
    assert commands[..|commands|] == commands;
    InTuneWith(engine, h + HistoryOf(commands));
    return true;
  }

  lemma HearsItself(engine: ParameterVoiceEngine)
    requires engine.Shape()
    ensures engine.Hears(engine.Changes())
  {
  }

  lemma InTuneWith(engine: ParameterVoiceEngine, g: seq<Change>)
    requires engine.Valid() && engine.Hears(g)
    ensures forall i :: 0 <= i < engine.Capacity() && engine.sounding[i].owner.Some? ==>
              engine.sounding[i].offset == Semitones(engine.log, g, i, engine.sounding[i].owner.value.key)
  {
    hide PolyphonicParameterState.Valid, ParameterVoiceEngine.Tracking, ParameterVoiceEngine.Defaults;
    hide VoiceAt, FineOf, ParameterVoiceEngine.Hears;
    engine.HeardFine(g);
  }

  lemma NothingPlayed(log: seq<PitchEvent>, h: seq<Change>, commands: seq<Command>)
    ensures
      var none := commands[..0];
      && log + LogOf(none) == log && h + HistoryOf(none) == h && AllAccepted(log, none)
      && forall owner, i :: OwnerAfter(owner, none, i) == owner
  {
    assert commands[..0] == [];
  }

  /** One more command, seen from every function of the run. */
  lemma Played(log: seq<PitchEvent>, h: seq<Change>, commands: seq<Command>, n: nat)
    requires n < |commands|
    ensures
      var past, c, all := commands[..n], commands[n], commands[..n + 1];
      && log + LogOf(all) == log + LogOf(past) + EventsOf(c)
      && h + HistoryOf(all) == h + HistoryOf(past) + ChangesOf(c)
      && AllAccepted(log, all) == (AllAccepted(log, past) && Accepted(log + LogOf(past), c))
      && forall owner, i :: OwnerAfter(owner, all, i) == OwnerThen(OwnerAfter(owner, past, i), c, i)
  {
    hide EventsOf, ChangesOf, Accepted, OwnerThen;
    var all := commands[..n + 1];
    assert all[..|all| - 1] == commands[..n] && all[|all| - 1] == commands[n];
  }

  lemma {:induction false} RejectedStays(log: seq<PitchEvent>, commands: seq<Command>, n: nat)
    requires n <= |commands| && !AllAccepted(log, commands[..n])
    ensures !AllAccepted(log, commands)
    decreases |commands| - n
  {
    if n < |commands| {
      Played(log, [], commands, n);
      RejectedStays(log, commands, n + 1);
    } else {
      assert commands[..n] == commands;
    }
  }

  /** The coarse tune the commands so far have set, in their order. */
  function CoarseOf(commands: seq<Command>): int {
    if commands == [] then 0
    else
      var last := commands[|commands| - 1];
      if last.CoarseValue? && last.semitones.Some? && IsGlobal(last.address) && -48.0 <= last.semitones.value <= 48.0
      then Truncated(last.semitones.value) else CoarseOf(commands[..|commands| - 1])
  }

  lemma {:induction false} CoarseIsOfCommands(commands: seq<Command>)
    ensures CoarseNow(LogOf(commands)) == CoarseOf(commands)
  {
    if commands != [] {
      var past, c := commands[..|commands| - 1], commands[|commands| - 1];
      CoarseIsOfCommands(past);
      CoarseOnward(LogOf(past), c);
    }
  }

  /** One more command moves the coarse tune exactly when it is a coarse value that counts. */
  lemma CoarseOnward(log: seq<PitchEvent>, c: Command)
    ensures CoarseNow(log + EventsOf(c)) ==
            (match c
             case CoarseValue(address, semitones) =>
               var events := CoarseEvents(address, semitones);
               if events == [] then CoarseNow(log) else events[0].coarse
             case _ => CoarseNow(log))
  {
    hide CoarseNow, CoarseAtNoteOn, TuningOf, WaitlistAt, NotedAt, Await;
    CoarseNowThen(log, EventsOf(c));
  }

  lemma CoarseNowThen(log: seq<PitchEvent>, more: seq<PitchEvent>)
    requires |more| <= 2 && (|more| == 2 ==> !more[1].CoarseTo?)
    ensures CoarseNow(log + more) == if more != [] && more[0].CoarseTo? then more[0].coarse else CoarseNow(log)
  {
    hide CoarseNow, CoarseAtNoteOn, TuningOf, WaitlistAt, NotedAt, Await;
    if more == [] {
      assert log + more == log;
    } else {
      Appended(log, more[0]);
      if |more| == 1 {
        assert log + more == log + [more[0]];
      } else {
        Appended(log + [more[0]], more[1]);
        assert log + more == log + [more[0]] + [more[1]];
      }
    }
  }

  /** Whatever is played later, a voice keeps the coarse tune the commands before its NOTE_ON set. */
  lemma {:induction false} PlayedCoarse(before: seq<Command>, i: nat, identity: Identity, time: nat,
                                        later: seq<Command>)
    requires forall c :: c in later && c.Start? ==> c.index != i
    ensures CoarseAtNoteOn(LogOf(before + [Start(i, identity, time)] + later), i) == CoarseOf(before)
    decreases |later|
  {
    hide EventsOf, CoarseOf, CoarseAtNoteOn;
    var all := before + [Start(i, identity, time)] + later;
    if later == [] {
      assert all[..|all| - 1] == before && all[|all| - 1] == Start(i, identity, time);
      CoarseIsOfCommands(before);
      SnapshotTaken(LogOf(before), i, identity, time);
    } else {
      var rest, c := later[..|later| - 1], later[|later| - 1];
      PlayedCoarse(before, i, identity, time, rest);
      assert all[..|all| - 1] == before + [Start(i, identity, time)] + rest && all[|all| - 1] == c;
      assert c in later;
      SnapshotOnward(LogOf(before + [Start(i, identity, time)] + rest), c, i);
    }
  }

  lemma SnapshotTaken(log: seq<PitchEvent>, i: nat, identity: Identity, time: nat)
    ensures CoarseAtNoteOn(log + EventsOf(Start(i, identity, time)), i) == CoarseNow(log)
  {
    Appended(log, Moment(time));
    Appended(log + [Moment(time)], NoteOn(i, identity, time));
    assert log + EventsOf(Start(i, identity, time)) == log + [Moment(time)] + [NoteOn(i, identity, time)];
  }

  lemma SnapshotOnward(log: seq<PitchEvent>, c: Command, i: nat)
    requires c.Start? ==> c.index != i
    ensures CoarseAtNoteOn(log + EventsOf(c), i) == CoarseAtNoteOn(log, i)
  {
    hide CoarseNow, CoarseAtNoteOn, TuningOf, WaitlistAt, NotedAt, Await;
    SnapshotThen(log, EventsOf(c), i);
  }

  lemma SnapshotThen(log: seq<PitchEvent>, more: seq<PitchEvent>, i: nat)
    requires |more| <= 2 && forall k :: 0 <= k < |more| && more[k].NoteOn? ==> more[k].index != i
    ensures CoarseAtNoteOn(log + more, i) == CoarseAtNoteOn(log, i)
  {
    hide CoarseNow, CoarseAtNoteOn, TuningOf, WaitlistAt, NotedAt, Await;
    if more == [] {
      assert log + more == log;
    } else {
      Appended(log, more[0]);
      if |more| == 1 {
        assert log + more == log + [more[0]];
      } else {
        Appended(log + [more[0]], more[1]);
        assert log + more == log + [more[0]] + [more[1]];
      }
    }
  }

  // The pitch of a voice, read off the commands.

  /** The latest tuning expression in range that reached the voice, if any did. */
  function TuneOf(later: seq<Command>, identity: Identity, start: real): real {
    if later == [] then start
    else
      var last := later[|later| - 1];
      if last.Tune? && last.semitones.Some? && -120.0 <= last.semitones.value <= 120.0
         && Matches(last.address, identity)
      then last.semitones.value else TuneOf(later[..|later| - 1], identity, start)
  }

  /** The latest fine tune, or fine tune modulation, that was set for this voice and others but not for all. */
  function FineFor(later: seq<Command>, identity: Identity, kind: Kind): Option<real> {
    if later == [] then None
    else
      var last := later[|later| - 1];
      if SetsFine(last, kind) && !IsGlobal(last.address) && Matches(last.address, identity) then last.cents
      else FineFor(later[..|later| - 1], identity, kind)
  }

  /** The latest one that was set for all voices. */
  function FineForAll(commands: seq<Command>, kind: Kind): real {
    if commands == [] then 0.0
    else
      var last := commands[|commands| - 1];
      if SetsFine(last, kind) && IsGlobal(last.address) then last.cents.value
      else FineForAll(commands[..|commands| - 1], kind)
  }

  predicate SetsFine(c: Command, kind: Kind) {
    match kind
    case Base => c.FineValue? && c.cents.Some? && -100.0 <= c.cents.value <= 100.0
    case Modulation => c.FineModulation? && c.cents.Some?
  }

  function FineHeard(commands: seq<Command>, later: seq<Command>, identity: Identity, kind: Kind): real {
    match FineFor(later, identity, kind) case Some(cents) => cents case None => FineForAll(commands, kind)
  }

  /** A voice that is not started anew hears the last of its new events, if that is a tuning that reaches it. */
  lemma TuningThen(log: seq<PitchEvent>, more: seq<PitchEvent>, i: nat, identity: Identity)
    requires |more| <= 2 && (|more| == 2 ==> more[0].Moment?)
    requires forall k :: 0 <= k < |more| && more[k].NoteOn? ==> more[k].index != i
    requires NotedAt(log, i) == Some(identity)
    ensures NotedAt(log + more, i) == Some(identity)
    ensures TuningOf(log + more, i) ==
            if more != [] && more[|more| - 1].TuneTo? && Matches(more[|more| - 1].address, identity)
            then more[|more| - 1].semitones else TuningOf(log, i)
  {
    hide CoarseNow, CoarseAtNoteOn, TuningOf, WaitlistAt, NotedAt, Await, Matches;
    if more == [] {
      assert log + more == log;
    } else {
      Appended(log, more[0]);
      if |more| == 1 {
        assert log + more == log + [more[0]];
      } else {
        Appended(log + [more[0]], more[1]);
        assert log + more == log + [more[0]] + [more[1]];
      }
    }
  }

  lemma TuningOnward(log: seq<PitchEvent>, c: Command, i: nat, identity: Identity, start: real, later: seq<Command>)
    requires c.Start? ==> c.index != i
    requires NotedAt(log, i) == Some(identity) && TuningOf(log, i) == TuneOf(later, identity, start)
    ensures
      var after := log + EventsOf(c);
      NotedAt(after, i) == Some(identity) && TuningOf(after, i) == TuneOf(later + [c], identity, start)
  {
    hide NotedAt, TuningOf, Matches;
    assert (later + [c])[..|later + [c]| - 1] == later;
    TuningThen(log, EventsOf(c), i, identity);
  }

  lemma TuningTaken(log: seq<PitchEvent>, i: nat, identity: Identity, time: nat)
    ensures
      var after := log + EventsOf(Start(i, identity, time));
      && NotedAt(after, i) == Some(identity)
      && TuningOf(after, i) == Inherited(Await(WaitlistAt(log), Moment(time)), identity, time)
  {
    Appended(log, Moment(time));
    Appended(log + [Moment(time)], NoteOn(i, identity, time));
    assert log + EventsOf(Start(i, identity, time)) == log + [Moment(time)] + [NoteOn(i, identity, time)];
  }

  /** A voice hears the latest tuning expression that reached it since its NOTE_ON, and until then what was
      waiting for it. */
  lemma {:induction false} PlayedTuning(before: seq<Command>, i: nat, identity: Identity, time: nat,
                                        later: seq<Command>)
    requires forall c :: c in later && c.Start? ==> c.index != i
    ensures
      var log := LogOf(before + [Start(i, identity, time)] + later);
      var waiting := Await(WaitlistAt(LogOf(before)), Moment(time));
      && NotedAt(log, i) == Some(identity)
      && TuningOf(log, i) == TuneOf(later, identity, Inherited(waiting, identity, time))
    decreases |later|
  {
    hide EventsOf, TuningOf, NotedAt, Await, Inherited, WaitlistAt, TuneOf;
    var start, all := [Start(i, identity, time)], before + [Start(i, identity, time)] + later;
    if later == [] {
      assert all[..|all| - 1] == before && all[|all| - 1] == start[0];
      TuningTaken(LogOf(before), i, identity, time);
      NothingLater(identity, Inherited(Await(WaitlistAt(LogOf(before)), Moment(time)), identity, time));
    } else {
      var rest, c := later[..|later| - 1], later[|later| - 1];
      PlayedTuning(before, i, identity, time, rest);
      assert all[..|all| - 1] == before + start + rest && all[|all| - 1] == c && c in later;
      TuningOnward(LogOf(before + start + rest), c, i, identity,
                   Inherited(Await(WaitlistAt(LogOf(before)), Moment(time)), identity, time), rest);
      assert rest + [c] == later;
    }
  }

  lemma NothingLater(identity: Identity, start: real)
    ensures TuneOf([], identity, start) == start
  {
  }

  lemma FineOnward(h: seq<Change>, c: Command, i: nat, identity: Identity, kind: Kind, later: seq<Command>)
    requires (c.Start? || c.End?) ==> c.index != i
    requires IdentityAt(h, i) == Some(identity) && Targeted(h, i, kind, FINE) == FineFor(later, identity, kind)
    ensures
      var after := h + ChangesOf(c);
      && IdentityAt(after, i) == Some(identity)
      && Targeted(after, i, kind, FINE) == FineFor(later + [c], identity, kind)
  {
    assert (later + [c])[..|later + [c]| - 1] == later;
    var more := ChangesOf(c);
    if more == [] {
      assert h + more == h;
    } else {
      assert h + more == h + [more[0]] && (h + [more[0]])[..|h + [more[0]]| - 1] == h;
    }
  }

  lemma {:induction false} PlayedFine(before: seq<Command>, i: nat, identity: Identity, time: nat,
                                      later: seq<Command>, kind: Kind)
    requires forall c :: c in later && (c.Start? || c.End?) ==> c.index != i
    ensures
      var h := HistoryOf(before + [Start(i, identity, time)] + later);
      IdentityAt(h, i) == Some(identity) && Targeted(h, i, kind, FINE) == FineFor(later, identity, kind)
    decreases |later|
  {
    var start, all := [Start(i, identity, time)], before + [Start(i, identity, time)] + later;
    hide FineFor, Targeted, IdentityAt, ChangesOf;
    if later == [] {
      assert all[..|all| - 1] == before && all[|all| - 1] == start[0];
      NothingSetYet(HistoryOf(before), i, identity, time, kind);
    } else {
      var rest, c := later[..|later| - 1], later[|later| - 1];
      PlayedFine(before, i, identity, time, rest, kind);
      assert all[..|all| - 1] == before + start + rest && all[|all| - 1] == c && c in later;
      FineOnward(HistoryOf(before + start + rest), c, i, identity, kind, rest);
      assert rest + [c] == later;
    }
  }

  lemma NothingSetYet(h: seq<Change>, i: nat, identity: Identity, time: nat, kind: Kind)
    ensures
      var after := h + ChangesOf(Start(i, identity, time));
      IdentityAt(after, i) == Some(identity) && Targeted(after, i, kind, FINE) == FineFor([], identity, kind)
  {
    var after := h + ChangesOf(Start(i, identity, time));
    assert after[..|after| - 1] == h;
  }

  lemma {:induction false} PlayedForAll(commands: seq<Command>, kind: Kind)
    ensures Global(HistoryOf(commands), kind, FINE) == FineForAll(commands, kind)
  {
    if commands != [] {
      var past, c := commands[..|commands| - 1], commands[|commands| - 1];
      PlayedForAll(past, kind);
      var h, more := HistoryOf(past), ChangesOf(c);
      if more == [] {
        assert h + more == h;
      } else {
        assert (h + more)[..|h + more| - 1] == h;
      }
    }
  }

  /** The pitch of a voice in terms of what was played: its key, the coarse tune that the commands before its
      NOTE_ON had set, the latest fine tune and modulation for it, or else for all, limited to a semitone,
      and the latest tuning expression that reached it, or what waited for it. */
  lemma PlayedPitch(before: seq<Command>, i: nat, identity: Identity, time: nat, later: seq<Command>)
    requires forall c :: c in later && (c.Start? || c.End?) ==> c.index != i
    ensures
      var all := before + [Start(i, identity, time)] + later;
      var cents := FineHeard(all, later, identity, Base) + FineHeard(all, later, identity, Modulation);
      var waiting := Inherited(Await(WaitlistAt(LogOf(before)), Moment(time)), identity, time);
      Semitones(LogOf(all), HistoryOf(all), i, identity.key) ==
        (identity.key - 69) as real + CoarseOf(before) as real + Clamp(cents, -100.0, 100.0) / 100.0
        + TuneOf(later, identity, waiting)
  {
    hide LogOf, HistoryOf, TuneOf, CoarseOf, FineFor, FineForAll, Targeted, Global, IdentityAt, TuningOf, NotedAt,
      CoarseAtNoteOn, Await, WaitlistAt, Inherited, Clamp;
    var all := before + [Start(i, identity, time)] + later;
    PlayedCoarse(before, i, identity, time, later);
    PlayedTuning(before, i, identity, time, later);
    PlayedFine(before, i, identity, time, later, Base);
    PlayedFine(before, i, identity, time, later, Modulation);
    PlayedForAll(all, Base);
    PlayedForAll(all, Modulation);
  }

  // ---- Steps of one voice -------------------------------------------------------------------------------

  /** Neither a moment passing nor a coarse change touches a voice. */
  lemma QuietAppend(sound: Sounding, entry: PitchEntry, log: seq<PitchEvent>, h: seq<Change>, i: nat, e: PitchEvent)
    requires e.Moment? || e.Forget? || e.CoarseTo?
    ensures Agrees(sound.owner, entry, log + [e], h, i) == Agrees(sound.owner, entry, log, h, i)
    ensures Tuned(sound, log + [e], h, i) == Tuned(sound, log, h, i)
  {
    Appended(log, e);
  }

  lemma SilentIsTuned(sound: Sounding, log: seq<PitchEvent>, h: seq<Change>, i: nat)
    requires sound.owner.None?
    ensures Tuned(sound, log, h, i)
  {
  }

  lemma SameFineSamePitch(sound: Sounding, log: seq<PitchEvent>, h: seq<Change>, g: seq<Change>, i: nat)
    requires Tuned(sound, log, h, i) && (sound.owner.Some? ==> FineOf(h, i) == FineOf(g, i))
    ensures Tuned(sound, log, g, i)
  {
  }

  lemma StopForgets(h: seq<Change>, i: nat, owner: Option<Identity>, log: seq<PitchEvent>)
    requires owner.None?
    ensures Agrees(owner, UNTRACKED, log, h + [Stopped(i)], i) && SameValues(h + [Stopped(i)], h)
  {
    LivesChangeNoValues(h, Stopped(i));
    BoundsClear(h, Stopped(i), i);
  }

  lemma StopSpares(h: seq<Change>, i: nat, j: nat, owner: Option<Identity>, entry: PitchEntry, log: seq<PitchEvent>)
    requires j != i && Agrees(owner, entry, log, h, j)
    ensures Agrees(owner, entry, log, h + [Stopped(i)], j)
    ensures VoiceAt(h + [Stopped(i)], j) == VoiceAt(h, j)
  {
    OthersKeep(h, Stopped(i), j);
  }

  lemma SetAgrees(owner: Option<Identity>, entry: PitchEntry, log: seq<PitchEvent>, h: seq<Change>, i: nat, c: Change)
    requires c.Set?
    ensures Agrees(owner, entry, log, h + [c], i) == Agrees(owner, entry, log, h, i)
  {
    assert (h + [c])[..|h + [c]| - 1] == h;
  }

  lemma NotedAgrees(log: seq<PitchEvent>, h: seq<Change>, i: nat, identity: Identity, time: nat, entry: PitchEntry)
    requires WaitingOk(WaitlistAt(log)) && -COARSE_LIMIT <= CoarseNow(log) <= COARSE_LIMIT
    requires entry == PitchEntry(Some(identity), CoarseNow(log), Inherited(WaitlistAt(log), identity, time))
    ensures Agrees(Some(identity), entry, log + [NoteOn(i, identity, time)], h + [Started(i, identity)], i)
    ensures CoarseNow(log + [NoteOn(i, identity, time)]) == CoarseNow(log)
    ensures WaitlistAt(log + [NoteOn(i, identity, time)]) == WaitlistAt(log)
  {
    Appended(log, NoteOn(i, identity, time));
    BoundsClear(h, Started(i, identity), i);
    PendingIsLimited(WaitlistAt(log).table, MAX_VOICES, identity, time);
  }

  lemma NotedSpares(log: seq<PitchEvent>, h: seq<Change>, i: nat, identity: Identity, time: nat,
                    j: nat, owner: Option<Identity>, entry: PitchEntry)
    requires j != i && Agrees(owner, entry, log, h, j)
    ensures Agrees(owner, entry, log + [NoteOn(i, identity, time)], h + [Started(i, identity)], j)
  {
    Appended(log, NoteOn(i, identity, time));
    OthersKeep(h, Started(i, identity), j);
  }

  lemma TuneReaches(sound: Sounding, entry: PitchEntry, log: seq<PitchEvent>, h: seq<Change>, i: nat, e: PitchEvent)
    requires Agrees(sound.owner, entry, log, h, i) && entry.tracked == sound.owner
    requires e.TuneTo? && -TUNING_LIMIT <= e.semitones <= TUNING_LIMIT
    ensures
      if entry.tracked.Some? && Matches(e.address, entry.tracked.value)
      then Agrees(sound.owner, entry.(tuning := e.semitones), log + [e], h, i)
      else
        && Agrees(sound.owner, entry, log + [e], h, i)
        && (Tuned(sound, log, h, i) ==> Tuned(sound, log + [e], h, i))
  {
    Appended(log, e);
  }

  lemma StoredIsLimited(table: seq<Pending>, entry: Pending)
    requires exists time :: WaitingOk(Waitlist(time, table))
    requires entry.Waiting? && -TUNING_LIMIT <= entry.semitones <= TUNING_LIMIT
    ensures
      var stored := Store(table, entry);
      stored.Some? ==> forall time :: WaitingOk(Waitlist(time, stored.value))
  {
  }

  /** The cents handed over are accepted, and give the voice the pitch the log asks for. */
  lemma HandoffIsRight(owner: Option<Identity>, entry: PitchEntry, log: seq<PitchEvent>, h: seq<Change>, i: nat,
                       coarse: int)
    requires owner.Some? && Agrees(owner, entry, log, h, i) && -COARSE_LIMIT <= coarse <= COARSE_LIMIT
    ensures
      var parameter := Clamp(Reading(h, i, Base, FINE) + Reading(h, i, Modulation, FINE), -FINE_LIMIT, FINE_LIMIT);
      var effective := (entry.coarse - coarse) as real * 100.0 + parameter + entry.tuning * 100.0;
      && -MAXIMUM_VOICE_PITCH_OFFSET_CENTS <= effective <= MAXIMUM_VOICE_PITCH_OFFSET_CENTS
      && Tuned(Sounding(owner, (owner.value.key - 69) as real + coarse as real + effective / 100.0), log, h, i)
  {
    Handoff(owner.value.key, coarse, entry.coarse, FineOf(h, i), entry.tuning);
  }

  /** Conversion of a double to an integer, toward zero. */
  function Truncated(x: real): (r: int)
    ensures 0.0 <= x ==> 0.0 <= r as real <= x < r as real + 1.0
    ensures x <= 0.0 ==> r as real - 1.0 < x <= r as real <= 0.0
  {
    if 0.0 <= x then x.Floor else -((-x).Floor)
  }

  /** The composed handoff stays in range, and undoes the engine's own coarse tune. */
  lemma Handoff(key: int, coarse: int, snapshot: int, cents: real, tuning: real)
    requires -COARSE_LIMIT <= coarse <= COARSE_LIMIT && -COARSE_LIMIT <= snapshot <= COARSE_LIMIT
    requires -FINE_LIMIT <= cents <= FINE_LIMIT && -TUNING_LIMIT <= tuning <= TUNING_LIMIT
    ensures
      var effective := (snapshot - coarse) as real * 100.0 + cents + tuning * 100.0;
      && -MAXIMUM_VOICE_PITCH_OFFSET_CENTS <= effective <= MAXIMUM_VOICE_PITCH_OFFSET_CENTS
      && (key - 69) as real + coarse as real + effective / 100.0
           == (key - 69) as real + snapshot as real + cents / 100.0 + tuning
  {
  }

  lemma {:induction false} PendingIsLimited(table: seq<Pending>, n: nat, identity: Identity, time: nat)
    requires n <= |table|
    requires forall i :: 0 <= i < |table| && table[i].Waiting? ==> -TUNING_LIMIT <= table[i].semitones <= TUNING_LIMIT
    ensures
      var r := PendingFor(table, n, identity, time);
      r.Some? ==> -TUNING_LIMIT <= r.value <= TUNING_LIMIT
  {
    if n != 0 {
      PendingIsLimited(table, n - 1, identity, time);
    }
  }

  /** One more event, seen from every meaning of the log. */
  lemma Appended(log: seq<PitchEvent>, e: PitchEvent)
    ensures CoarseNow(log + [e]) == if e.CoarseTo? then e.coarse else CoarseNow(log)
    ensures forall i :: CoarseAtNoteOn(log + [e], i) ==
              if e.NoteOn? && e.index == i then CoarseNow(log) else CoarseAtNoteOn(log, i)
    ensures forall i :: NotedAt(log + [e], i) ==
              if e.NoteOn? && e.index == i then Some(e.identity) else NotedAt(log, i)
    ensures forall i :: TuningOf(log + [e], i) ==
              if e.NoteOn? && e.index == i then Inherited(WaitlistAt(log), e.identity, e.time)
              else if e.TuneTo? && NotedAt(log, i).Some? && Matches(e.address, NotedAt(log, i).value)
              then e.semitones
              else TuningOf(log, i)
    ensures WaitlistAt(log + [e]) == Await(WaitlistAt(log), e)
  {
    assert (log + [e])[..|log + [e]| - 1] == log;
  }

  lemma SameFine(h: seq<Change>, g: seq<Change>, voice: nat)
    requires VoiceAt(h, voice) == VoiceAt(g, voice)
    requires Global(h, Base, FINE) == Global(g, Base, FINE)
    requires Global(h, Modulation, FINE) == Global(g, Modulation, FINE)
    ensures FineOf(h, voice) == FineOf(g, voice)
  {
    assert VoiceAt(h, voice).base[FINE] == VoiceAt(g, voice).base[FINE];
    assert VoiceAt(h, voice).modulation[FINE] == VoiceAt(g, voice).modulation[FINE];
  }
}
