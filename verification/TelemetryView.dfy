/** What the editor makes of the telemetry it receives: the notes it believes to sound and the
    modulation it shows. */
module TelemetryView {
  import opened Wrappers
  import opened VoicePool

  datatype Record =
    | Modulation(parameter: int, address: Identity, amount: real)
    | NoteOn(note: Identity)
    | NoteEnd(note: Identity)
    | Reset

  datatype Message = Message(dropped: nat, events: seq<Record>)

  type ModulationKey = (int, Identity)

  /** `notes` counts the generations of each sounding note; `current` holds the amounts in force. */
  datatype View = View(dropped: nat, notes: map<Identity, nat>, current: map<ModulationKey, real>,
                       last: Option<Record>)

  const EMPTY_VIEW := View(0, map[], map[], None)

  predicate IsGlobalModulation(a: Identity) {
    a.noteId < 0 && a.port < 0 && a.channel < 0 && a.key < 0
  }

  predicate MatchesNote(note: Identity, address: Identity) {
    && (address.noteId < 0 || address.noteId == note.noteId)
    && (address.port < 0 || address.port == note.port)
    && (address.channel < 0 || address.channel == note.channel)
    && (address.key < 0 || address.key == note.key)
  }

  predicate ValidNote(note: Identity) {
    -1 <= note.noteId && note.port == 0 && 0 <= note.channel <= 15 && 0 <= note.key <= 127
  }

  predicate Reached(notes: map<Identity, nat>, address: Identity) {
    exists n :: n in notes && MatchesNote(n, address)
  }

  /** Drops the targeted amounts that no sounding note explains any more. */
  function Prune(current: map<ModulationKey, real>, notes: map<Identity, nat>): map<ModulationKey, real> {
    map k | k in current && (IsGlobalModulation(k.1) || Reached(notes, k.1)) :: current[k]
  }

  function ApplyEvent(v: View, e: Record): View {
    match e
    case Reset => v.(notes := map[], current := map[], last := None)
    case NoteOn(note) =>
      if !ValidNote(note) then v
      else
        var before := if note in v.notes then v.notes[note] else 0;
        v.(notes := v.notes[note := if note.noteId < 0 then before + 1 else 1])
    case NoteEnd(note) =>
      if !ValidNote(note) then v
      else
        var notes := if note in v.notes && 1 < v.notes[note] then v.notes[note := v.notes[note] - 1]
                     else v.notes - {note};
        v.(notes := notes, current := Prune(v.current, notes))
    case Modulation(parameter, address, amount) =>
      var key := (parameter, address);
      if amount == 0.0 then v.(last := Some(e), current := v.current - {key})
      else if IsGlobalModulation(address) || Reached(v.notes, address)
      then v.(last := Some(e), current := v.current[key := amount])
      else v.(last := Some(e))
  }

  function ApplyEvents(v: View, events: seq<Record>): View {
    if events == [] then v else ApplyEvent(ApplyEvents(v, events[..|events| - 1]), events[|events| - 1])
  }

  /** A changed drop count throws the batch and everything known away. */
  function Apply(v: View, m: Message): View {
    if m.dropped != v.dropped then View(m.dropped, map[], map[], v.last)
    else ApplyEvents(v, m.events)
  }

  method ApplyModulationTelemetry(previous: View, m: Message) returns (v: View)
    ensures v == Apply(previous, m)
  {
    if m.dropped != previous.dropped {
      return View(m.dropped, map[], map[], previous.last);
    }
    var activeNotes, current, last := previous.notes, previous.current, previous.last;
    var i := 0;
    while i < |m.events|
      invariant 0 <= i <= |m.events|
      invariant View(m.dropped, activeNotes, current, last) == ApplyEvents(previous, m.events[..i])
    {
      assert m.events[..i + 1][..i] == m.events[..i];
      match m.events[i] {
        case Reset =>
          activeNotes, current, last := map[], map[], None;
        case NoteOn(note) =>
          if ValidNote(note) {
            var generationCount := 1;
            if note.noteId < 0 && note in activeNotes {
              generationCount := activeNotes[note] + 1;
            }
            activeNotes := activeNotes[note := generationCount];
          }
        case NoteEnd(note) =>
          if ValidNote(note) {
            if note in activeNotes && activeNotes[note] > 1 {
              activeNotes := activeNotes[note := activeNotes[note] - 1];
            } else {
              activeNotes := activeNotes - {note};
            }
            current := Prune(current, activeNotes);
          }
        case Modulation(parameter, address, amount) =>
          last := Some(m.events[i]);
          if amount == 0.0 {
            current := current - {(parameter, address)};
          } else if IsGlobalModulation(address) || Reached(activeNotes, address) {
            current := current[(parameter, address) := amount];
          }
      }
      i := i + 1;
    }
    assert m.events[..|m.events|] == m.events;
    return View(m.dropped, activeNotes, current, last);
  }

  // ---- What the view never shows -------------------------------------------------------------------------

  /** Every amount shown is in force for all voices or for a note that still sounds, and none is zero. */
  ghost predicate Grounded(v: View) {
    && (forall n :: n in v.notes ==> ValidNote(n) && 1 <= v.notes[n] && (0 <= n.noteId ==> v.notes[n] == 1))
    && (forall k :: k in v.current ==> v.current[k] != 0.0 && (IsGlobalModulation(k.1) || Reached(v.notes, k.1)))
  }

  lemma EventKeepsGrounded(v: View, e: Record)
    requires Grounded(v)
    ensures Grounded(ApplyEvent(v, e))
  {
    var r := ApplyEvent(v, e);
    if e.NoteOn? {
      forall k | k in r.current && !IsGlobalModulation(k.1) ensures Reached(r.notes, k.1) {
        var n :| n in v.notes && MatchesNote(n, k.1);
        assert n in r.notes;
      }
    }
  }

  lemma {:induction false} EventsKeepGrounded(v: View, events: seq<Record>)
    requires Grounded(v)
    ensures Grounded(ApplyEvents(v, events))
  {
    if events != [] {
      EventsKeepGrounded(v, events[..|events| - 1]);
      EventKeepsGrounded(ApplyEvents(v, events[..|events| - 1]), events[|events| - 1]);
    }
  }

  lemma MessagesKeepGrounded(v: View, m: Message)
    requires Grounded(v)
    ensures Grounded(Apply(v, m))
  {
    EventsKeepGrounded(v, m.events);
  }

  // ---- What the view shows -------------------------------------------------------------------------------

  /** How often a note sounds after the events: a note without an id once for every start that was not
      ended, one with an id at most once. */
  function SoundingCount(events: seq<Record>, note: Identity, start: nat): nat {
    if events == [] then start
    else
      var before := SoundingCount(events[..|events| - 1], note, start);
      match events[|events| - 1]
      case Reset => 0
      case NoteOn(n) => if n != note || !ValidNote(n) then before else if note.noteId < 0 then before + 1 else 1
      case NoteEnd(n) => if n != note || !ValidNote(n) || before == 0 then before else before - 1
      case Modulation(_, _, _) => before
  }

  /** The view knows each note as often as its own events say, whatever else was received. */
  lemma {:induction false} NotesAreCounted(v: View, events: seq<Record>, note: Identity)
    requires Grounded(v)
    ensures
      var r := ApplyEvents(v, events);
      var count := SoundingCount(events, note, if note in v.notes then v.notes[note] else 0);
      (note in r.notes <==> 0 < count) && (note in r.notes ==> r.notes[note] == count)
  {
    hide Grounded, Prune, ValidNote;
    if events != [] {
      var shorter := events[..|events| - 1];
      NotesAreCounted(v, shorter, note);
      EventsKeepGrounded(v, shorter);
      CountsArePositive(ApplyEvents(v, shorter));
    } else {
      CountsArePositive(v);
    }
  }

  lemma CountsArePositive(v: View)
    requires Grounded(v)
    ensures forall n :: n in v.notes ==> 1 <= v.notes[n]
  {
  }

  /** The event ends what is shown for the key: a reset, a later value, or a note end after which no
      sounding note is addressed. `notes` are those sounding after it. */
  predicate TakesAway(e: Record, notes: map<Identity, nat>, key: ModulationKey) {
    match e
    case Reset => true
    case Modulation(parameter, address, _) => (parameter, address) == key
    case NoteEnd(note) => ValidNote(note) && !IsGlobalModulation(key.1) && !Reached(notes, key.1)
    case NoteOn(_) => false
  }

  predicate Takes(v: View, events: seq<Record>, j: nat, key: ModulationKey)
    requires j < |events|
  {
    TakesAway(events[j], ApplyEvents(v, events[..j + 1]).notes, key)
  }

  /** The amount comes from event `i - 1`, which addressed all voices or a note sounding then, or for `i`
      zero from the view before, and no later event ended it. */
  ghost predicate ShownSince(v: View, events: seq<Record>, key: ModulationKey, amount: real, i: nat) {
    && i <= |events|
    && (if i == 0 then key in v.current && v.current[key] == amount
        else
          && events[i - 1] == Modulation(key.0, key.1, amount) && amount != 0.0
          && (IsGlobalModulation(key.1) || Reached(ApplyEvents(v, events[..i - 1]).notes, key.1)))
    && forall j :: i <= j < |events| ==> !Takes(v, events, j, key)
  }

  ghost predicate Shown(v: View, events: seq<Record>, key: ModulationKey, amount: real) {
    exists i: nat :: ShownSince(v, events, key, amount, i)
  }

  lemma OneMoreEvent(v: View, events: seq<Record>, key: ModulationKey, amount: real, i: nat)
    requires events != [] && i < |events|
    ensures
      var n := |events| - 1;
      ShownSince(v, events, key, amount, i)
      <==> ShownSince(v, events[..n], key, amount, i) && !Takes(v, events, n, key)
  {
    var n := |events| - 1;
    var shorter := events[..n];
    if 0 < i {
      assert shorter[..i - 1] == events[..i - 1];
    }
    forall j | i <= j < n ensures Takes(v, shorter, j, key) == Takes(v, events, j, key) {
      assert shorter[..j + 1] == events[..j + 1];
    }
  }

  /** Exactly the amounts that were received, applied to something, and were not ended since are shown. */
  lemma {:induction false} ShowsExactly(v: View, events: seq<Record>, key: ModulationKey, amount: real)
    requires Grounded(v)
    ensures
      var r := ApplyEvents(v, events);
      key in r.current && r.current[key] == amount <==> Shown(v, events, key, amount)
  {
    hide Grounded, ApplyEvents, Takes, ShownSince;
    var r := ApplyEvents(v, events);
    if events == [] {
      NothingReceived(v, key, amount);
    } else {
      var n := |events| - 1;
      var shorter := events[..n];
      ShowsExactly(v, shorter, key, amount);
      EventsKeepGrounded(v, shorter);
      LastEvent(v, events, key, amount);
      if Shown(v, events, key, amount) {
        var i: nat :| ShownSince(v, events, key, amount, i);
        NotLaterThan(v, events, key, amount, i);
        if i <= n {
          OneMoreEvent(v, events, key, amount, i);
        }
      }
      if Shown(v, shorter, key, amount) && !Takes(v, events, n, key) {
        var i: nat :| ShownSince(v, shorter, key, amount, i);
        NotLaterThan(v, shorter, key, amount, i);
        OneMoreEvent(v, events, key, amount, i);
      }
    }
  }

  lemma NotLaterThan(v: View, events: seq<Record>, key: ModulationKey, amount: real, i: nat)
    requires ShownSince(v, events, key, amount, i)
    ensures i <= |events|
  {
  }

  lemma NothingReceived(v: View, key: ModulationKey, amount: real)
    ensures ApplyEvents(v, []) == v
    ensures (key in v.current && v.current[key] == amount) <==> Shown(v, [], key, amount)
  {
    if key in v.current && v.current[key] == amount {
      assert ShownSince(v, [], key, amount, 0);
    }
  }

  lemma OneEventShows(v: View, e: Record, key: ModulationKey, amount: real)
    requires Grounded(v)
    ensures
      var r := ApplyEvent(v, e);
      key in r.current && r.current[key] == amount <==>
        || (&& e == Modulation(key.0, key.1, amount) && amount != 0.0
            && (IsGlobalModulation(key.1) || Reached(v.notes, key.1)))
        || (key in v.current && v.current[key] == amount && !TakesAway(e, r.notes, key))
  {
    hide Reached, ValidNote, IsGlobalModulation;
    match e
    case Reset =>
    case NoteOn(note) =>
    case NoteEnd(note) =>
    case Modulation(parameter, address, x) =>
      assert key == (key.0, key.1);
  }

  lemma LastEvent(v: View, events: seq<Record>, key: ModulationKey, amount: real)
    requires events != []
    requires Grounded(ApplyEvents(v, events[..|events| - 1]))
    ensures
      var n := |events| - 1;
      var before, r := ApplyEvents(v, events[..n]), ApplyEvents(v, events);
      key in r.current && r.current[key] == amount <==>
        || ShownSince(v, events, key, amount, n + 1)
        || (key in before.current && before.current[key] == amount && !Takes(v, events, n, key))
  {
    hide Grounded, ApplyEvent, TakesAway, Reached, IsGlobalModulation;
    var n := |events| - 1;
    assert events[..n + 1] == events;
    OneEventShows(ApplyEvents(v, events[..n]), events[n], key, amount);
  }

  // ---- A batch may be cut anywhere -------------------------------------------------------------------

  lemma {:induction false} EventsJoin(v: View, a: seq<Record>, b: seq<Record>)
    ensures ApplyEvents(v, a + b) == ApplyEvents(ApplyEvents(v, a), b)
    decreases |b|
  {
    if b == [] {
      assert a + b == a;
    } else {
      EventsJoin(v, a, b[..|b| - 1]);
      assert (a + b)[..|a + b| - 1] == a + b[..|b| - 1];
    }
  }

  lemma {:induction false} EventsKeepDropped(v: View, events: seq<Record>)
    ensures ApplyEvents(v, events).dropped == v.dropped
  {
    if events != [] {
      EventsKeepDropped(v, events[..|events| - 1]);
    }
  }

  /** Without new drops, what the view shows does not depend on how the stream was cut into messages. */
  lemma CuttingMessagesChangesNothing(v: View, a: seq<Record>, b: seq<Record>)
    ensures Apply(Apply(v, Message(v.dropped, a)), Message(v.dropped, b)) == Apply(v, Message(v.dropped, a + b))
  {
    EventsKeepDropped(v, a);
    EventsJoin(v, a, b);
  }
}
