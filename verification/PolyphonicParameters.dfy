/** Per-voice parameter overrides. The meaning of a reading is given by the log of accepted events; the
    arrays of the class are shown to hold nothing else. */
module PolyphonicParameters {
  import opened Wrappers
  import opened VoicePool

  const MAX_PARAMETERS: nat := 16

  datatype Kind = Base | Modulation

  /** An accepted change. `Set` carries its address as it came, wildcards included. */
  datatype Change =
    | Started(voice: nat, identity: Identity)
    | Stopped(voice: nat)
    | Cleared
    | Set(kind: Kind, slot: nat, address: Identity, amount: real)

  predicate IsGlobal(address: Identity) {
    address == Identity(-1, -1, -1, -1)
  }

  predicate ValidAddress(a: Identity) {
    -1 <= a.noteId && -1 <= a.port && -1 <= a.channel <= 15 && -1 <= a.key <= 127
  }

  predicate ValidVoice(id: Identity) {
    -1 <= id.noteId && 0 <= id.port && 0 <= id.channel <= 15 && 0 <= id.key <= 127
  }

  // ---- Meaning of the log -------------------------------------------------------------------------

  /** The change begins or ends the life of the voice in that slot. */
  predicate Bounds(c: Change, voice: nat) {
    match c
    case Started(v, _) => v == voice
    case Stopped(v) => v == voice
    case Cleared => true
    case Set(_, _, _, _) => false
  }

  function IdentityAt(h: seq<Change>, voice: nat): Option<Identity> {
    if h == [] then None
    else
      var last := h[|h| - 1];
      if !Bounds(last, voice) then IdentityAt(h[..|h| - 1], voice)
      else if last.Started? then Some(last.identity) else None
  }

  /** The change is addressed to the voice that lives in the slot after `h`. */
  predicate Reaches(h: seq<Change>, c: Change, voice: nat, kind: Kind, slot: nat) {
    && c.Set? && c.kind == kind && c.slot == slot && !IsGlobal(c.address)
    && var id := IdentityAt(h, voice);
       id.Some? && Matches(c.address, id.value)
  }

  function Targeted(h: seq<Change>, voice: nat, kind: Kind, slot: nat): Option<real> {
    if h == [] then None
    else
      var past, last := h[..|h| - 1], h[|h| - 1];
      if Bounds(last, voice) then None
      else if Reaches(past, last, voice, kind, slot) then Some(last.amount)
      else Targeted(past, voice, kind, slot)
  }

  /** Base values survive a reset, modulation does not. */
  function Global(h: seq<Change>, kind: Kind, slot: nat): real {
    if h == [] then 0.0
    else
      var past, last := h[..|h| - 1], h[|h| - 1];
      if last.Cleared? && kind == Modulation then 0.0
      else if last.Set? && last.kind == kind && last.slot == slot && IsGlobal(last.address) then last.amount
      else Global(past, kind, slot)
  }

  function Reading(h: seq<Change>, voice: nat, kind: Kind, slot: nat): real {
    var targeted := Targeted(h, voice, kind, slot);
    if targeted.Some? then targeted.value else Global(h, kind, slot)
  }

  /** The values and amounts accepted so far, in order, whoever lived when. */
  function Sets(h: seq<Change>): seq<Change> {
    if h == [] then []
    else Sets(h[..|h| - 1]) + if h[|h| - 1].Set? then [h[|h| - 1]] else []
  }

  /** The same values were accepted, and what voices without overrides hear is the same. */
  ghost predicate SameValues(h: seq<Change>, g: seq<Change>) {
    Sets(h) == Sets(g) && forall k, s :: Global(h, k, s) == Global(g, k, s)
  }

  // ---- The class -------------------------------------------------------------------------------------

  datatype VoiceState = VoiceState(
    owner: Option<Identity>,
    base: seq<Option<real>>,
    modulation: seq<Option<real>>)

  const NO_OVERRIDES: seq<Option<real>> := seq(MAX_PARAMETERS, i => None)
  const NO_VOICE := VoiceState(None, NO_OVERRIDES, NO_OVERRIDES)

  function VoiceAt(h: seq<Change>, voice: nat): VoiceState {
    VoiceState(IdentityAt(h, voice),
               seq(MAX_PARAMETERS, s requires 0 <= s => Targeted(h, voice, Base, s)),
               seq(MAX_PARAMETERS, s requires 0 <= s => Targeted(h, voice, Modulation, s)))
  }

  class PolyphonicParameterState {
    const voices: array<VoiceState>
    const globalBase: array<real>
    const globalModulation: array<real>
    var capacity: nat
    var configured: bool
    ghost var history: seq<Change>

    ghost predicate Valid()
      reads this, voices, globalBase, globalModulation
    {
      && voices.Length == MAX_VOICES && capacity <= MAX_VOICES
      && globalBase.Length == globalModulation.Length == MAX_PARAMETERS && globalBase != globalModulation
      && (configured ==> 1 <= capacity)
      && (forall v :: 0 <= v < capacity ==> voices[v] == VoiceAt(history, v))
      && (forall s :: 0 <= s < MAX_PARAMETERS ==> globalBase[s] == Global(history, Base, s))
      && (forall s :: 0 <= s < MAX_PARAMETERS ==> globalModulation[s] == Global(history, Modulation, s))
    }

    constructor ()
      ensures Valid() && !configured && capacity == 0 && history == []
      ensures fresh(voices) && fresh(globalBase) && fresh(globalModulation)
    {
      voices := new VoiceState[MAX_VOICES](i => NO_VOICE);
      globalBase := new real[MAX_PARAMETERS](i => 0.0);
      globalModulation := new real[MAX_PARAMETERS](i => 0.0);
      capacity, configured, history := 0, false, [];
    }

    method Configure(requestedVoices: nat) returns (ok: bool)
      requires Valid()
      modifies this, voices, globalBase, globalModulation
      ensures Valid() && ok == (0 < requestedVoices <= MAX_VOICES)
      ensures if ok then configured && capacity == requestedVoices && history == []
              else configured == old(configured) && capacity == old(capacity) && history == old(history)
    {
      if requestedVoices == 0 || requestedVoices > MAX_VOICES {
        return false;
      }
      capacity := requestedVoices;
      forall s | 0 <= s < MAX_PARAMETERS {
        globalBase[s] := 0.0;
      }
      forall s | 0 <= s < MAX_PARAMETERS {
        globalModulation[s] := 0.0;
      }
      forall v | 0 <= v < MAX_VOICES {
        voices[v] := NO_VOICE;
      }
      configured := true;
      history := [];
      forall v | 0 <= v < capacity ensures VoiceAt(history, v) == NO_VOICE {
      }
      return true;
    }

    method Reset()
      requires Valid()
      modifies this`history, voices, globalModulation
      ensures Valid() && history == if configured then old(history) + [Cleared] else old(history)
    {
      if !configured {
        return;
      }
      forall s | 0 <= s < MAX_PARAMETERS {
        globalModulation[s] := 0.0;
      }
      forall v | 0 <= v < MAX_VOICES {
        voices[v] := NO_VOICE;
      }
      history := history + [Cleared];
      forall v | 0 <= v < capacity ensures VoiceAt(history, v) == NO_VOICE {
        BoundsClear(old(history), Cleared, v);
      }
    }

    method StartVoice(voice: nat, identity: Identity) returns (ok: bool)
      requires Valid()
      modifies this`history, voices
      ensures Valid() && ok == (configured && voice < capacity && ValidVoice(identity))
      ensures history == if ok then old(history) + [Started(voice, identity)] else old(history)
    {
      if !configured || voice >= capacity || !ValidVoice(identity) {
        return false;
      }
      voices[voice] := NO_VOICE.(owner := Some(identity));
      history := history + [Started(voice, identity)];
      BoundsClear(old(history), Started(voice, identity), voice);
      forall v | 0 <= v < capacity && v != voice ensures VoiceAt(history, v) == VoiceAt(old(history), v) {
        OthersKeep(old(history), Started(voice, identity), v);
      }
      return true;
    }

    method StopVoice(voice: nat) returns (ok: bool)
      requires Valid()
      modifies this`history, voices
      ensures Valid() && ok == (configured && voice < capacity && IdentityAt(old(history), voice).Some?)
      ensures history == if ok then old(history) + [Stopped(voice)] else old(history)
    {
      if !configured || voice >= capacity || voices[voice].owner.None? {
        return false;
      }
      voices[voice] := NO_VOICE;
      history := history + [Stopped(voice)];
      BoundsClear(old(history), Stopped(voice), voice);
      forall v | 0 <= v < capacity && v != voice ensures VoiceAt(history, v) == VoiceAt(old(history), v) {
        OthersKeep(old(history), Stopped(voice), v);
      }
      return true;
    }

    /** PARAM_VALUE; the amount is absent when it is not a finite number. */
    method ApplyValue(slot: nat, address: Identity, value: Option<real>) returns (ok: bool)
      requires Valid()
      modifies this`history, voices, globalBase
      ensures Valid()
      ensures ok == (configured && slot < MAX_PARAMETERS && value.Some? && ValidAddress(address))
      ensures history == if ok then old(history) + [Set(Base, slot, address, value.value)] else old(history)
    {
      if !configured || slot >= MAX_PARAMETERS || value.None? || !ValidAddress(address) {
        return false;
      }
      ghost var change := Set(Base, slot, address, value.value);
      if IsGlobal(address) {
        globalBase[slot] := value.value;
      } else {
        var v := 0;
        while v < capacity
          invariant 0 <= v <= capacity && history == old(history) && globalBase[..] == old(globalBase[..])
          invariant forall w :: 0 <= w < v ==> voices[w] == VoiceAt(history + [change], w)
          invariant forall w :: v <= w < capacity ==> voices[w] == VoiceAt(history, w)
        {
          SetReaches(history, change, v);
          var owner := voices[v].owner;
          if owner.Some? && Matches(address, owner.value) {
            voices[v] := voices[v].(base := voices[v].base[slot := Some(value.value)]);
          }
          v := v + 1;
        }
      }
      history := history + [change];
      SetGlobals(old(history), change);
      forall w | 0 <= w < capacity && IsGlobal(address) ensures VoiceAt(history, w) == VoiceAt(old(history), w) {
        SetReaches(old(history), change, w);
      }
      return true;
    }

    /** PARAM_MOD: a voice's amount replaces the global one, it is not added to it. */
    method ApplyModulation(slot: nat, address: Identity, amount: Option<real>) returns (ok: bool)
      requires Valid()
      modifies this`history, voices, globalModulation
      ensures Valid()
      ensures ok == (configured && slot < MAX_PARAMETERS && amount.Some? && ValidAddress(address))
      ensures history == if ok then old(history) + [Set(Modulation, slot, address, amount.value)] else old(history)
    {
      if !configured || slot >= MAX_PARAMETERS || amount.None? || !ValidAddress(address) {
        return false;
      }
      ghost var change := Set(Modulation, slot, address, amount.value);
      if IsGlobal(address) {
        globalModulation[slot] := amount.value;
      } else {
        var v := 0;
        while v < capacity
          invariant 0 <= v <= capacity && history == old(history)
          invariant globalModulation[..] == old(globalModulation[..])
          invariant forall w :: 0 <= w < v ==> voices[w] == VoiceAt(history + [change], w)
          invariant forall w :: v <= w < capacity ==> voices[w] == VoiceAt(history, w)
        {
          SetReaches(history, change, v);
          var owner := voices[v].owner;
          if owner.Some? && Matches(address, owner.value) {
            voices[v] := voices[v].(modulation := voices[v].modulation[slot := Some(amount.value)]);
          }
          v := v + 1;
        }
      }
      history := history + [change];
      SetGlobals(old(history), change);
      forall w | 0 <= w < capacity && IsGlobal(address) ensures VoiceAt(history, w) == VoiceAt(old(history), w) {
        SetReaches(old(history), change, w);
      }
      return true;
    }

    method BaseValue(voice: nat, slot: nat) returns (value: Option<real>)
      requires Valid()
      ensures value == if configured && slot < MAX_PARAMETERS && voice < capacity
                          && IdentityAt(history, voice).Some?
                       then Some(Reading(history, voice, Base, slot)) else None
    {
      if !configured || slot >= MAX_PARAMETERS || voice >= capacity || voices[voice].owner.None? {
        return None;
      }
      if voices[voice].base[slot].Some? {
        return voices[voice].base[slot];
      }
      return Some(globalBase[slot]);
    }

    method ModulationAmount(voice: nat, slot: nat) returns (amount: Option<real>)
      requires Valid()
      ensures amount == if configured && slot < MAX_PARAMETERS && voice < capacity
                           && IdentityAt(history, voice).Some?
                        then Some(Reading(history, voice, Modulation, slot)) else None
    {
      if !configured || slot >= MAX_PARAMETERS || voice >= capacity || voices[voice].owner.None? {
        return None;
      }
      if voices[voice].modulation[slot].Some? {
        return voices[voice].modulation[slot];
      }
      return Some(globalModulation[slot]);
    }
  }

  // ---- One more change ---------------------------------------------------------------------------------

  lemma BoundsClear(h: seq<Change>, c: Change, voice: nat)
    requires Bounds(c, voice)
    ensures VoiceAt(h + [c], voice) ==
            NO_VOICE.(owner := if c.Started? then Some(c.identity) else None)
    ensures !c.Cleared? ==> forall k, s :: Global(h + [c], k, s) == Global(h, k, s)
    ensures c.Cleared? ==> forall s :: Global(h + [c], Base, s) == Global(h, Base, s)
    ensures c.Cleared? ==> forall s :: Global(h + [c], Modulation, s) == 0.0
  {
    assert (h + [c])[..|h + [c]| - 1] == h;
  }

  lemma OthersKeep(h: seq<Change>, c: Change, voice: nat)
    requires !Bounds(c, voice) && !c.Set?
    ensures VoiceAt(h + [c], voice) == VoiceAt(h, voice)
  {
    assert (h + [c])[..|h + [c]| - 1] == h;
  }

  lemma SetGlobals(h: seq<Change>, c: Change)
    requires c.Set?
    ensures forall k, s :: Global(h + [c], k, s) ==
              if k == c.kind && s == c.slot && IsGlobal(c.address) then c.amount else Global(h, k, s)
  {
    assert (h + [c])[..|h + [c]| - 1] == h;
  }

  lemma SetReaches(h: seq<Change>, c: Change, voice: nat)
    requires c.Set? && c.slot < MAX_PARAMETERS
    ensures
      var v := VoiceAt(h, voice);
      VoiceAt(h + [c], voice) ==
        if IsGlobal(c.address) || v.owner.None? || !Matches(c.address, v.owner.value) then v
        else if c.kind == Base then v.(base := v.base[c.slot := Some(c.amount)])
        else v.(modulation := v.modulation[c.slot := Some(c.amount)])
  {
    assert (h + [c])[..|h + [c]| - 1] == h;
  }

  /** Two histories that agree on a voice still do after the same change. */
  lemma SameVoiceAfter(h: seq<Change>, g: seq<Change>, c: Change, voice: nat)
    requires VoiceAt(h, voice) == VoiceAt(g, voice) || Bounds(c, voice)
    requires c.Set? ==> c.slot < MAX_PARAMETERS
    ensures VoiceAt(h + [c], voice) == VoiceAt(g + [c], voice)
  {
    if Bounds(c, voice) {
      BoundsClear(h, c, voice);
      BoundsClear(g, c, voice);
    } else if c.Set? {
      SetReaches(h, c, voice);
      SetReaches(g, c, voice);
    } else {
      OthersKeep(h, c, voice);
      OthersKeep(g, c, voice);
    }
  }

  lemma SameValuesAfter(h: seq<Change>, g: seq<Change>, c: Change)
    requires SameValues(h, g)
    ensures SameValues(h + [c], g + [c])
  {
    assert (h + [c])[..|h + [c]| - 1] == h && (g + [c])[..|g + [c]| - 1] == g;
  }

  lemma LivesChangeNoValues(h: seq<Change>, c: Change)
    requires c.Started? || c.Stopped?
    ensures SameValues(h + [c], h)
  {
    assert (h + [c])[..|h + [c]| - 1] == h;
  }

  // ---- What a reading means ------------------------------------------------------------------------------

  predicate ReachesAt(h: seq<Change>, i: nat, voice: nat, kind: Kind, slot: nat)
    requires i < |h|
  {
    Reaches(h[..i], h[i], voice, kind, slot)
  }

  /** An override is in force exactly when a change reached this life of the voice, and then it is the
      latest one. */
  lemma {:induction false} TargetedIsTheLatest(h: seq<Change>, voice: nat, kind: Kind, slot: nat)
    ensures
      match Targeted(h, voice, kind, slot)
      case Some(x) =>
        exists i: nat :: i < |h| && ReachesAt(h, i, voice, kind, slot) && h[i].amount == x
          && forall j :: i < j < |h| ==> !ReachesAt(h, j, voice, kind, slot) && !Bounds(h[j], voice)
      case None =>
        forall i: nat :: i < |h| && ReachesAt(h, i, voice, kind, slot) ==>
          exists j :: i < j < |h| && Bounds(h[j], voice)
  {
    hide Reaches, Bounds, ReachesAt;
    if h != [] {
      var n := |h| - 1;
      var past := h[..n];
      TargetedIsTheLatest(past, voice, kind, slot);
      ReachesEarlier(h, voice, kind, slot);
      if !Bounds(h[n], voice) && !ReachesAt(h, n, voice, kind, slot) {
        if Targeted(past, voice, kind, slot).Some? {
          var i: nat :| i < n && ReachesAt(past, i, voice, kind, slot)
                        && past[i].amount == Targeted(past, voice, kind, slot).value
                        && forall j :: i < j < n ==> !ReachesAt(past, j, voice, kind, slot) && !Bounds(past[j], voice);
          assert ReachesAt(h, i, voice, kind, slot) && h[i].amount == past[i].amount;
        } else {
          forall i: nat | i < n && ReachesAt(h, i, voice, kind, slot)
            ensures exists j :: i < j < |h| && Bounds(h[j], voice)
          {
            assert ReachesAt(past, i, voice, kind, slot);
            var j :| i < j < n && Bounds(past[j], voice);
            assert Bounds(h[j], voice);
          }
        }
      }
    }
  }

  lemma ReachesEarlier(h: seq<Change>, voice: nat, kind: Kind, slot: nat)
    requires h != []
    ensures
      var n := |h| - 1;
      && ReachesAt(h, n, voice, kind, slot) == Reaches(h[..n], h[n], voice, kind, slot)
      && (forall i: nat :: i <= n && ReachesAt(h, i, voice, kind, slot) ==> h[i].Set? && !Bounds(h[i], voice))
      && forall i: nat :: i < n ==> ReachesAt(h[..n], i, voice, kind, slot) == ReachesAt(h, i, voice, kind, slot)
  {
    hide Reaches;
    var n := |h| - 1;
    forall i: nat | i < n ensures ReachesAt(h[..n], i, voice, kind, slot) == ReachesAt(h, i, voice, kind, slot) {
      assert h[..n][..i] == h[..i];
    }
    forall i: nat | i <= n && ReachesAt(h, i, voice, kind, slot) ensures h[i].Set? && !Bounds(h[i], voice) {
      ReachingIsSetting(h[..i], h[i], voice, kind, slot);
    }
  }

  lemma ReachingIsSetting(h: seq<Change>, c: Change, voice: nat, kind: Kind, slot: nat)
    ensures Reaches(h, c, voice, kind, slot) ==> c.Set? && !Bounds(c, voice)
  {
  }

  /** The change is addressed to every voice, sounding or not. */
  predicate SetsGlobal(h: seq<Change>, i: nat, kind: Kind, slot: nat)
    requires i < |h|
  {
    && h[i].Set? && h[i].kind == kind && h[i].slot == slot
    && h[i].address.noteId == -1 && h[i].address.port == -1 && h[i].address.channel == -1 && h[i].address.key == -1
  }

  /** The change at `i` is the latest one for all voices, and, for modulation, no reset came after it. */
  ghost predicate InForce(h: seq<Change>, i: nat, kind: Kind, slot: nat) {
    && i < |h| && SetsGlobal(h, i, kind, slot)
    && forall j :: i < j < |h| ==> !SetsGlobal(h, j, kind, slot) && (kind == Modulation ==> !h[j].Cleared?)
  }

  /** The global value is that of the latest change for all voices; a reset takes back modulation, never a
      base value. */
  lemma {:induction false} GlobalIsTheLatest(h: seq<Change>, kind: Kind, slot: nat)
    ensures forall i: nat :: InForce(h, i, kind, slot) ==> Global(h, kind, slot) == h[i].amount
    ensures (forall i: nat :: !InForce(h, i, kind, slot)) ==> Global(h, kind, slot) == 0.0
  {
    if h != [] {
      var n := |h| - 1;
      var past := h[..n];
      GlobalIsTheLatest(past, kind, slot);
      if SetsGlobal(h, n, kind, slot) {
        assert InForce(h, n, kind, slot);
      } else if kind == Base || !h[n].Cleared? {
        forall i: nat | i < n ensures InForce(h, i, kind, slot) == InForce(past, i, kind, slot) {
          assert forall j: nat :: j < n ==> SetsGlobal(past, j, kind, slot) == SetsGlobal(h, j, kind, slot);
        }
      }
    }
  }

  /** Nothing leaks into a reused slot: from its NOTE_ON on, a voice depends on what came before only
      through the global values, even if the slot held the same identity. */
  lemma {:induction false} NothingLeaks(h1: seq<Change>, h2: seq<Change>, voice: nat, identity: Identity,
                                        later: seq<Change>, kind: Kind, slot: nat)
    ensures
      var started := [Started(voice, identity)];
      && IdentityAt(h1 + started + later, voice) == IdentityAt(h2 + started + later, voice)
      && Targeted(h1 + started + later, voice, kind, slot) == Targeted(h2 + started + later, voice, kind, slot)
      && (Global(h1, kind, slot) == Global(h2, kind, slot) ==>
            && Global(h1 + started + later, kind, slot) == Global(h2 + started + later, kind, slot)
            && Reading(h1 + started + later, voice, kind, slot) == Reading(h2 + started + later, voice, kind, slot))
    decreases |later|
  {
    var started := [Started(voice, identity)];
    var a, b := h1 + started + later, h2 + started + later;
    if later == [] {
      assert a == h1 + started && b == h2 + started;
      assert a[..|a| - 1] == h1 && b[..|b| - 1] == h2;
    } else {
      var rest := later[..|later| - 1];
      NothingLeaks(h1, h2, voice, identity, rest, kind, slot);
      assert a[..|a| - 1] == h1 + started + rest && b[..|b| - 1] == h2 + started + rest;
    }
  }

  /** A voice that nothing addressed hears the global value, and follows it. */
  lemma {:induction false} UntargetedFollowsGlobal(h: seq<Change>, voice: nat, kind: Kind, slot: nat)
    requires forall i: nat :: i < |h| ==> !ReachesAt(h, i, voice, kind, slot)
    ensures Reading(h, voice, kind, slot) == Global(h, kind, slot)
  {
    TargetedIsTheLatest(h, voice, kind, slot);
  }
}
