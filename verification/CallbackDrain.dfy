/** Threads entering, leaving, replacing and erasing callbacks, in any interleaving. Sequential
    consistency; a step is what a thread does while it holds a mutex. */
module CallbackDrain {
  import opened CallbackRegistry

  // ---- State -----------------------------------------------------------------------------------------

  /** Where a thread stands. Calls made from inside a callback nest on top of that visit. */
  datatype Frame =
    | Found(entry: nat)                  // looked up, not yet begun
    | Visiting(entry: nat)               // inside the callback
    | Removed(entry: nat)                // taken out of the map, own visits not yet counted
    | Waiting(entry: nat, own: nat)      // blocked until only its own visits are left

  /** `visitors` are the threads of the visits in progress, newest first. */
  datatype EntryState = EntryState(value: nat, accepting: bool, visitors: seq<nat>)

  datatype State = State(registered: map<nat, nat>, entries: seq<EntryState>, stacks: seq<seq<Frame>>)

  predicate Idle(stack: seq<Frame>) {
    stack == [] || stack[|stack| - 1].Visiting?
  }

  function Top(stack: seq<Frame>): Frame
    requires stack != []
  {
    stack[|stack| - 1]
  }

  function Pop(stack: seq<Frame>): seq<Frame>
    requires stack != []
  {
    stack[..|stack| - 1]
  }

  ghost function Initial(threads: nat): (s: State)
    ensures Ok(s)
  {
    State(map[], [], seq(threads, i => []))
  }

  // ---- Steps ------------------------------------------------------------------------------------------

  datatype Action =
    | Set(key: nat, value: nat)
    | Visit(key: nat)
    | Erase(key: nat, expected: nat)
    | Begin
    | End
    | CountOwn
    | Return

  function RemoveFirst(threads: seq<nat>, thread: nat): seq<nat> {
    if threads == [] then []
    else if threads[0] == thread then threads[1..]
    else [threads[0]] + RemoveFirst(threads[1..], thread)
  }

  function Stop(entries: seq<EntryState>, e: nat): (r: seq<EntryState>)
    requires e < |entries|
  {
    entries[e := entries[e].(accepting := false)]
  }

  /** Null keys and values (0) are refused as in the source. A step that is not possible where the
      thread stands changes nothing. */
  function Step(s: State, t: nat, a: Action): State
    requires Known(s) && t < |s.stacks|
  {
    var stack := s.stacks[t];
    match a
    case Set(key, value) =>
      if !Idle(stack) || key == 0 || value == 0 then s
      else
        var newest := |s.entries|;
        if key in s.registered then
          var previous := s.registered[key];
          State(s.registered[key := newest], Stop(s.entries, previous) + [EntryState(value, true, [])],
                s.stacks[t := stack + [Removed(previous)]])
        else
          State(s.registered[key := newest], s.entries + [EntryState(value, true, [])], s.stacks)
    case Visit(key) =>
      if !Idle(stack) || key == 0 || key !in s.registered then s
      else s.(stacks := s.stacks[t := stack + [Found(s.registered[key])]])
    case Erase(key, expected) =>
      if !Idle(stack) || key == 0 || key !in s.registered || s.entries[s.registered[key]].value != expected then s
      else
        var removed := s.registered[key];
        State(map k | k in s.registered && k != key :: s.registered[k], Stop(s.entries, removed),
              s.stacks[t := stack + [Removed(removed)]])
    case Begin =>
      if stack == [] || !Top(stack).Found? then s
      else
        var e := Top(stack).entry;
        if !s.entries[e].accepting then s.(stacks := s.stacks[t := Pop(stack)])
        else
          var entered := s.entries[e].(visitors := [t] + s.entries[e].visitors);
          s.(entries := s.entries[e := entered], stacks := s.stacks[t := Pop(stack) + [Visiting(e)]])
    case End =>
      if stack == [] || !Top(stack).Visiting? then s
      else
        var e := Top(stack).entry;
        var left := s.entries[e].(visitors := RemoveFirst(s.entries[e].visitors, t));
        s.(entries := s.entries[e := left], stacks := s.stacks[t := Pop(stack)])
    case CountOwn =>
      if stack == [] || !Top(stack).Removed? then s
      else
        var e := Top(stack).entry;
        s.(stacks := s.stacks[t := Pop(stack) + [Waiting(e, Count(s.entries[e].visitors, t))]])
    case Return =>
      if MayReturn(s, t) then s.(stacks := s.stacks[t := Pop(stack)]) else s
  }

  /** The condition the waiting thread sleeps on. */
  predicate MayReturn(s: State, t: nat)
    requires Known(s) && t < |s.stacks|
  {
    var stack := s.stacks[t];
    && stack != [] && Top(stack).Waiting?
    && |s.entries[Top(stack).entry].visitors| <= Top(stack).own
  }

  /** Entries are never forgotten by those who hold them. */
  predicate Known(s: State) {
    && (forall k :: k in s.registered ==> s.registered[k] < |s.entries|)
    && (forall t, i :: 0 <= t < |s.stacks| && 0 <= i < |s.stacks[t]| ==> s.stacks[t][i].entry < |s.entries|)
  }

  ghost function Run(s: State, steps: seq<(nat, Action)>): State
    requires Ok(s) && forall i :: 0 <= i < |steps| ==> steps[i].0 < |s.stacks|
    ensures Ok(Run(s, steps)) && |Run(s, steps).stacks| == |s.stacks|
    decreases |steps|
  {
    if steps == [] then s
    else
      StepKeepsOk(s, steps[0].0, steps[0].1);
      Run(Step(s, steps[0].0, steps[0].1), steps[1..])
  }

  // ---- Invariant ----------------------------------------------------------------------------------------

  function Visits(stack: seq<Frame>, e: nat): (n: nat)
    ensures n <= |stack|
  {
    if stack == [] then 0
    else Visits(Pop(stack), e) + if Top(stack) == Visiting(e) then 1 else 0
  }

  ghost predicate StackOk(stack: seq<Frame>, t: nat, entries: seq<EntryState>) {
    && (forall i :: 0 <= i < |stack| ==> stack[i].entry < |entries|)
    && (forall i :: 0 <= i < |stack| - 1 ==> stack[i].Visiting?)
    && (forall i :: 0 <= i < |stack| && (stack[i].Removed? || stack[i].Waiting?) ==> !entries[stack[i].entry].accepting)
    && (forall i :: 0 <= i < |stack| && stack[i].Waiting? ==> stack[i].own == Visits(stack, stack[i].entry))
    && (forall e :: 0 <= e < |entries| ==> Count(entries[e].visitors, t) == Visits(stack, e))
  }

  /** Every visit in progress is listed under its thread, whoever waits for an entry has shut it, has
      counted all its own visits there and makes no more; what the map holds still accepts. */
  ghost predicate Ok(s: State) {
    && (forall t :: 0 <= t < |s.stacks| ==> StackOk(s.stacks[t], t, s.entries))
    && (forall e, i :: 0 <= e < |s.entries| && 0 <= i < |s.entries[e].visitors| ==>
         s.entries[e].visitors[i] < |s.stacks|)
    && (forall k :: k in s.registered ==> s.registered[k] < |s.entries| && s.entries[s.registered[k]].accepting)
    && (forall j, k :: j in s.registered && k in s.registered && j != k ==> s.registered[j] != s.registered[k])
  }

  lemma OkIsKnown(s: State)
    requires Ok(s)
    ensures Known(s)
  {
    forall t, i | 0 <= t < |s.stacks| && 0 <= i < |s.stacks[t]| ensures s.stacks[t][i].entry < |s.entries| {
      assert StackOk(s.stacks[t], t, s.entries);
    }
  }

  // ---- Counting ------------------------------------------------------------------------------------------

  lemma {:induction false} CountPrepend(threads: seq<nat>, t: nat, u: nat)
    ensures Count([t] + threads, u) == Count(threads, u) + if t == u then 1 else 0
  {
    var all := [t] + threads;
    if threads != [] {
      CountPrepend(threads[..|threads| - 1], t, u);
      assert all[..|all| - 1] == [t] + threads[..|threads| - 1];
    } else {
      assert all[..|all| - 1] == [];
    }
  }

  lemma {:induction false} CountWithoutFirst(threads: seq<nat>, t: nat, u: nat)
    ensures Count(RemoveFirst(threads, t), u) ==
            Count(threads, u) - if t == u && 0 < Count(threads, t) then 1 else 0
    ensures forall i :: 0 <= i < |RemoveFirst(threads, t)| ==> RemoveFirst(threads, t)[i] in threads
  {
    if threads != [] {
      var head, tail := threads[0], threads[1..];
      assert threads == [head] + tail;
      CountPrepend(tail, head, u);
      CountPrepend(tail, head, t);
      if head != t {
        CountWithoutFirst(tail, t, u);
        CountPrepend(RemoveFirst(tail, t), head, u);
      }
    }
  }

  /** Leaving a callback unlinks the thread's newest visit, which is the first of it in the list. */
  lemma {:induction false} NewestVisitIsUnlinked(threads: seq<nat>, t: nat, k: nat)
    requires k < |threads| && threads[k] == t && forall j :: 0 <= j < k ==> threads[j] != t
    ensures RemoveFirst(threads, t) == threads[..k] + threads[k + 1..]
  {
    if 0 < k {
      NewestVisitIsUnlinked(threads[1..], t, k - 1);
    }
  }

  /** If no more are listed than one thread has, the list is that thread's alone. */
  lemma {:induction false} OnlyMine(threads: seq<nat>, t: nat, u: nat)
    requires u != t
    ensures Count(threads, t) + Count(threads, u) <= |threads|
  {
    if threads != [] {
      OnlyMine(threads[..|threads| - 1], t, u);
    }
  }

  lemma VisitsPush(stack: seq<Frame>, frame: Frame, e: nat)
    ensures Visits(stack + [frame], e) == Visits(stack, e) + if frame == Visiting(e) then 1 else 0
  {
    assert Pop(stack + [frame]) == stack;
  }

  lemma {:induction false} VisitsNone(stack: seq<Frame>, e: nat)
    requires forall i :: 0 <= i < |stack| ==> stack[i].entry != e
    ensures Visits(stack, e) == 0
  {
    if stack != [] {
      VisitsNone(Pop(stack), e);
    }
  }

  /** The thread has a visit in progress in every entry it is inside of. */
  lemma {:induction false} VisitsSome(stack: seq<Frame>, e: nat, i: nat)
    requires i < |stack| && stack[i] == Visiting(e)
    ensures 0 < Visits(stack, e)
  {
    if i < |stack| - 1 {
      VisitsSome(Pop(stack), e, i);
    }
  }

  // ---- One stack ------------------------------------------------------------------------------------------

  /** The entries moved on without this thread: some shut, none reopened, new ones empty. */
  predicate MovedOn(before: seq<EntryState>, after: seq<EntryState>, u: nat) {
    && |before| <= |after|
    && (forall e :: 0 <= e < |before| ==>
         && Count(after[e].visitors, u) == Count(before[e].visitors, u)
         && (after[e].accepting ==> before[e].accepting))
    && (forall e :: |before| <= e < |after| ==> after[e].visitors == [])
  }

  lemma BystanderKeepsOk(stack: seq<Frame>, u: nat, before: seq<EntryState>, after: seq<EntryState>)
    requires StackOk(stack, u, before) && MovedOn(before, after, u)
    ensures StackOk(stack, u, after)
  {
    forall e | |before| <= e < |after| ensures Visits(stack, e) == 0 {
      VisitsNone(stack, e);
    }
  }

  lemma PushKeepsOk(stack: seq<Frame>, u: nat, entries: seq<EntryState>, frame: Frame)
    requires StackOk(stack, u, entries) && Idle(stack) && frame.entry < |entries|
    requires frame.Found? || (frame.Removed? && !entries[frame.entry].accepting)
    ensures StackOk(stack + [frame], u, entries)
  {
    forall e | 0 <= e < |entries| ensures Visits(stack + [frame], e) == Visits(stack, e) {
      VisitsPush(stack, frame, e);
    }
  }

  lemma PopKeepsOk(stack: seq<Frame>, u: nat, entries: seq<EntryState>)
    requires StackOk(stack, u, entries) && stack != [] && !Top(stack).Visiting?
    ensures StackOk(Pop(stack), u, entries)
  {
  }

  lemma BeginKeepsOk(stack: seq<Frame>, u: nat, entries: seq<EntryState>)
    requires StackOk(stack, u, entries) && stack != [] && Top(stack).Found?
    ensures
      var e := Top(stack).entry;
      StackOk(Pop(stack) + [Visiting(e)], u, entries[e := entries[e].(visitors := [u] + entries[e].visitors)])
  {
    var e := Top(stack).entry;
    CountPrepend(entries[e].visitors, u, u);
    forall f | 0 <= f < |entries|
      ensures Visits(Pop(stack) + [Visiting(e)], f) == Visits(stack, f) + if f == e then 1 else 0
    {
      VisitsPush(Pop(stack), Visiting(e), f);
    }
  }

  lemma EndKeepsOk(stack: seq<Frame>, u: nat, entries: seq<EntryState>)
    requires StackOk(stack, u, entries) && stack != [] && Top(stack).Visiting?
    ensures
      var e := Top(stack).entry;
      StackOk(Pop(stack), u, entries[e := entries[e].(visitors := RemoveFirst(entries[e].visitors, u))])
  {
    var e := Top(stack).entry;
    CountWithoutFirst(entries[e].visitors, u, u);
    assert Count(entries[e].visitors, u) == Visits(stack, e);
  }

  lemma CountKeepsOk(stack: seq<Frame>, u: nat, entries: seq<EntryState>)
    requires StackOk(stack, u, entries) && stack != [] && Top(stack).Removed?
    ensures
      var e := Top(stack).entry;
      StackOk(Pop(stack) + [Waiting(e, Count(entries[e].visitors, u))], u, entries)
  {
    var e := Top(stack).entry;
    var waiting := Waiting(e, Count(entries[e].visitors, u));
    assert Count(entries[e].visitors, u) == Visits(stack, e);
    forall f | 0 <= f < |entries| ensures Visits(Pop(stack) + [waiting], f) == Visits(stack, f) {
      VisitsPush(Pop(stack), waiting, f);
    }
  }

  // ---- Every step ------------------------------------------------------------------------------------

  /** The thread that steps has its stack in order again, and the others were only bystanders. */
  lemma Assemble(s: State, r: State, t: nat)
    requires Ok(s) && t < |s.stacks| == |r.stacks|
    requires StackOk(r.stacks[t], t, r.entries)
    requires forall u :: 0 <= u < |s.stacks| && u != t ==>
               r.stacks[u] == s.stacks[u] && MovedOn(s.entries, r.entries, u)
    requires forall e, i :: 0 <= e < |r.entries| && 0 <= i < |r.entries[e].visitors| ==>
               r.entries[e].visitors[i] < |s.stacks|
    requires forall k :: k in r.registered ==> r.registered[k] < |r.entries| && r.entries[r.registered[k]].accepting
    requires forall j, k :: j in r.registered && k in r.registered && j != k ==> r.registered[j] != r.registered[k]
    ensures Ok(r)
  {
    hide StackOk, MovedOn;
    forall u | 0 <= u < |r.stacks| ensures StackOk(r.stacks[u], u, r.entries) {
      if u != t {
        BystanderKeepsOk(s.stacks[u], u, s.entries, r.entries);
      }
    }
  }

  lemma SetKeepsOk(s: State, t: nat, key: nat, value: nat)
    requires Ok(s) && Known(s) && t < |s.stacks|
    ensures Ok(Step(s, t, Set(key, value)))
  {
    hide StackOk, Count;
    var r := Step(s, t, Set(key, value));
    assert StackOk(s.stacks[t], t, s.entries);
    BystanderKeepsOk(s.stacks[t], t, s.entries, r.entries);
    if Idle(s.stacks[t]) && key != 0 && value != 0 && key in s.registered {
      PushKeepsOk(s.stacks[t], t, r.entries, Removed(s.registered[key]));
    }
    Assemble(s, r, t);
  }

  lemma EraseKeepsOk(s: State, t: nat, key: nat, expected: nat)
    requires Ok(s) && Known(s) && t < |s.stacks|
    ensures Ok(Step(s, t, Erase(key, expected)))
  {
    var r := Step(s, t, Erase(key, expected));
    BystanderKeepsOk(s.stacks[t], t, s.entries, r.entries);
    if r != s {
      PushKeepsOk(s.stacks[t], t, r.entries, Removed(s.registered[key]));
    }
    Assemble(s, r, t);
  }

  lemma InsideKeepsOk(s: State, t: nat, a: Action)
    requires Ok(s) && Known(s) && t < |s.stacks| && (a.Begin? || a.End?)
    ensures Ok(Step(s, t, a))
  {
    var r := Step(s, t, a);
    var stack := s.stacks[t];
    if r != s {
      var e := Top(stack).entry;
      if a.End? {
        EndKeepsOk(stack, t, s.entries);
        CountWithoutFirst(s.entries[e].visitors, t, t);
      } else if s.entries[e].accepting {
        BeginKeepsOk(stack, t, s.entries);
      } else {
        PopKeepsOk(stack, t, s.entries);
      }
      forall u | 0 <= u < |s.stacks| && u != t ensures MovedOn(s.entries, r.entries, u) {
        CountPrepend(s.entries[e].visitors, t, u);
        CountWithoutFirst(s.entries[e].visitors, t, u);
      }
      Assemble(s, r, t);
    }
  }

  lemma VisitKeepsOk(s: State, t: nat, key: nat)
    requires Ok(s) && Known(s) && t < |s.stacks|
    ensures Ok(Step(s, t, Visit(key)))
  {
    var r := Step(s, t, Visit(key));
    if r != s {
      PushKeepsOk(s.stacks[t], t, s.entries, Found(s.registered[key]));
      Assemble(s, r, t);
    }
  }

  lemma CountOwnKeepsOk(s: State, t: nat)
    requires Ok(s) && Known(s) && t < |s.stacks|
    ensures Ok(Step(s, t, CountOwn))
  {
    var r := Step(s, t, CountOwn);
    if r != s {
      CountKeepsOk(s.stacks[t], t, s.entries);
      Assemble(s, r, t);
    }
  }

  lemma ReturnKeepsOk(s: State, t: nat)
    requires Ok(s) && Known(s) && t < |s.stacks|
    ensures Ok(Step(s, t, Return))
  {
    var r := Step(s, t, Return);
    if r != s {
      PopKeepsOk(s.stacks[t], t, s.entries);
      Assemble(s, r, t);
    }
  }

  /** What every step of every thread keeps. */
  lemma StepKeepsOk(s: State, t: nat, a: Action)
    requires Ok(s) && t < |s.stacks|
    ensures Known(s) && Ok(Step(s, t, a)) && |Step(s, t, a).stacks| == |s.stacks|
  {
    hide Ok;
    OkIsKnown(s);
    match a
    case Set(key, value) => SetKeepsOk(s, t, key, value);
    case Erase(key, expected) => EraseKeepsOk(s, t, key, expected);
    case Begin => InsideKeepsOk(s, t, a);
    case End => InsideKeepsOk(s, t, a);
    case Visit(key) => VisitKeepsOk(s, t, key);
    case CountOwn => CountOwnKeepsOk(s, t);
    case Return => ReturnKeepsOk(s, t);
  }

  // ---- The drain guarantee ---------------------------------------------------------------------------

  predicate Inside(s: State, t: nat, e: nat)
    requires t < |s.stacks|
  {
    exists i :: 0 <= i < |s.stacks[t]| && s.stacks[t][i] == Visiting(e)
  }

  /** Shut, and nobody but `t` in it. */
  ghost predicate Drained(s: State, t: nat, e: nat) {
    && e < |s.entries| && !s.entries[e].accepting
    && forall u :: 0 <= u < |s.stacks| && u != t ==> Visits(s.stacks[u], e) == 0
  }

  /** A thread may only return from its wait once the entry is drained. */
  lemma ReturningMeansDrained(s: State, t: nat)
    requires Ok(s) && Known(s) && t < |s.stacks| && MayReturn(s, t)
    ensures Drained(s, t, Top(s.stacks[t]).entry)
  {
    var stack := s.stacks[t];
    var e := Top(stack).entry;
    assert StackOk(stack, t, s.entries);
    assert Count(s.entries[e].visitors, t) == Visits(stack, e);
    forall u | 0 <= u < |s.stacks| && u != t ensures Visits(s.stacks[u], e) == 0 {
      assert StackOk(s.stacks[u], u, s.entries);
      OnlyMine(s.entries[e].visitors, t, u);
    }
  }

  lemma StaysShut(s: State, u: nat, a: Action, e: nat)
    requires Known(s) && u < |s.stacks| && e < |s.entries| && !s.entries[e].accepting
    ensures e < |Step(s, u, a).entries| && !Step(s, u, a).entries[e].accepting
  {
    hide Idle, RemoveFirst, MayReturn;
  }

  /** Nobody enters a shut entry, and no thread moves another. */
  lemma ShutIsOnlyLeft(s: State, u: nat, a: Action, e: nat)
    requires Known(s) && u < |s.stacks| && e < |s.entries| && !s.entries[e].accepting
    ensures
      var r := Step(s, u, a);
      && r.stacks == s.stacks[u := r.stacks[u]] && Visits(r.stacks[u], e) <= Visits(s.stacks[u], e)
  {
    hide Idle, RemoveFirst;
    var r, stack := Step(s, u, a), s.stacks[u];
    if r.stacks != s.stacks {
      match a
      case Begin =>
        if s.entries[Top(stack).entry].accepting {
          VisitsPush(Pop(stack), Visiting(Top(stack).entry), e);
        }
      case CountOwn => VisitsPush(Pop(stack), Top(r.stacks[u]), e);
      case End =>
      case Return =>
      case _ => VisitsPush(stack, Top(r.stacks[u]), e);
    }
  }

  /** A drained entry stays drained, whatever the threads do; even `t` only leaves it. */
  lemma StepKeepsDrained(s: State, t: nat, e: nat, u: nat, a: Action)
    requires Ok(s) && Known(s) && u < |s.stacks| && t < |s.stacks| && Drained(s, t, e)
    ensures Drained(Step(s, u, a), t, e)
    ensures Visits(Step(s, u, a).stacks[t], e) <= Visits(s.stacks[t], e)
  {
    hide Ok, Known, Step;
    StaysShut(s, u, a, e);
    ShutIsOnlyLeft(s, u, a, e);
  }

  lemma {:induction false} RunKeepsDrained(s: State, t: nat, e: nat, steps: seq<(nat, Action)>)
    requires Ok(s) && t < |s.stacks| && Drained(s, t, e)
    requires forall i :: 0 <= i < |steps| ==> steps[i].0 < |s.stacks|
    ensures Drained(Run(s, steps), t, e)
    ensures Visits(Run(s, steps).stacks[t], e) <= Visits(s.stacks[t], e)
    decreases |steps|
  {
    hide Ok, Drained, Step;
    if steps != [] {
      OkIsKnown(s);
      StepKeepsOk(s, steps[0].0, steps[0].1);
      StepKeepsDrained(s, t, e, steps[0].0, steps[0].1);
      RunKeepsDrained(Step(s, steps[0].0, steps[0].1), t, e, steps[1..]);
    }
  }

  /** The guarantee: from any start, however the threads interleave, once a thread returns from erasing
      or replacing an entry no other thread is inside a callback of it, now or ever after; and the thread
      itself is inside only as often as it was when it called. */
  lemma DrainGuarantee(threads: nat, before: seq<(nat, Action)>, t: nat, after: seq<(nat, Action)>)
    requires t < threads
    requires forall i :: 0 <= i < |before| ==> before[i].0 < threads
    requires forall i :: 0 <= i < |after| ==> after[i].0 < threads
    requires Known(Run(Initial(threads), before)) && MayReturn(Run(Initial(threads), before), t)
    ensures
      var s := Run(Initial(threads), before);
      var e := Top(s.stacks[t]).entry;
      var r := Run(s, [(t, Return)] + after);
      && (forall u :: 0 <= u < threads && u != t ==> !Inside(r, u, e))
      && Visits(r.stacks[t], e) <= Top(s.stacks[t]).own
  {
    var s := Run(Initial(threads), before);
    var e := Top(s.stacks[t]).entry;
    ReturningMeansDrained(s, t);
    RunKeepsDrained(s, t, e, [(t, Return)] + after);
    var r := Run(s, [(t, Return)] + after);
    forall u | 0 <= u < threads && u != t ensures !Inside(r, u, e) {
      if Inside(r, u, e) {
        var i :| 0 <= i < |r.stacks[u]| && r.stacks[u][i] == Visiting(e);
        VisitsSome(r.stacks[u], e, i);
      }
    }
    assert StackOk(s.stacks[t], t, s.entries);
  }

  lemma {:induction false} CountsSome(threads: seq<nat>, u: nat, i: nat)
    requires i < |threads| && threads[i] == u
    ensures 0 < Count(threads, u)
  {
    if i < |threads| - 1 {
      CountsSome(threads[..|threads| - 1], u, i);
    }
  }

  lemma {:induction false} AllMine(threads: seq<nat>, t: nat)
    requires forall i :: 0 <= i < |threads| ==> threads[i] == t
    ensures Count(threads, t) == |threads|
  {
    if threads != [] {
      AllMine(threads[..|threads| - 1], t);
    }
  }

  lemma {:induction false} VisitsMeanInside(stack: seq<Frame>, e: nat)
    requires 0 < Visits(stack, e)
    ensures exists i :: 0 <= i < |stack| && stack[i] == Visiting(e)
  {
    if Top(stack) != Visiting(e) {
      VisitsMeanInside(Pop(stack), e);
      var i :| 0 <= i < |Pop(stack)| && Pop(stack)[i] == Visiting(e);
      assert stack[i] == Visiting(e);
    } else {
      assert stack[|stack| - 1] == Visiting(e);
    }
  }

  /** A waiting thread may go on exactly when no other thread is inside: it does not sleep past that. */
  lemma ReturnsIffAlone(s: State, t: nat)
    requires Ok(s) && Known(s) && t < |s.stacks| && s.stacks[t] != [] && Top(s.stacks[t]).Waiting?
    ensures
      var e := Top(s.stacks[t]).entry;
      MayReturn(s, t) <==> forall u :: 0 <= u < |s.stacks| && u != t ==> !Inside(s, u, e)
  {
    var e := Top(s.stacks[t]).entry;
    var visitors := s.entries[e].visitors;
    assert StackOk(s.stacks[t], t, s.entries);
    if MayReturn(s, t) {
      ReturningMeansDrained(s, t);
      hide Ok;
      DrainedMeansAlone(s, t, e);
    } else if forall i :: 0 <= i < |visitors| ==> visitors[i] == t {
      AllMine(visitors, t);
    } else {
      var i :| 0 <= i < |visitors| && visitors[i] != t;
      var u := visitors[i];
      assert StackOk(s.stacks[u], u, s.entries);
      CountsSome(visitors, u, i);
      VisitsMeanInside(s.stacks[u], e);
      assert Inside(s, u, e);
    }
  }

  // ---- From the call to the return ------------------------------------------------------------------------

  /** Thread `t` took `e` out of the map from a callback stack `calling`, and has not come back yet. */
  predicate Leaving(s: State, t: nat, e: nat, calling: seq<Frame>) {
    && t < |s.stacks| && e < |s.entries| && !s.entries[e].accepting
    && |s.stacks[t]| == |calling| + 1 && Pop(s.stacks[t]) == calling
    && (Top(s.stacks[t]) == Removed(e) || (Top(s.stacks[t]).Waiting? && Top(s.stacks[t]).entry == e))
  }

  lemma StepWhileLeaving(s: State, t: nat, e: nat, calling: seq<Frame>, u: nat, a: Action)
    requires Ok(s) && Known(s) && u < |s.stacks| && Leaving(s, t, e, calling)
    ensures
      var r := Step(s, u, a);
      Leaving(r, t, e, calling) || (u == t && a.Return? && MayReturn(s, t) && Drained(r, t, e))
  {
    if u == t && a.Return? && MayReturn(s, t) {
      ReturningMeansDrained(s, t);
      StepKeepsDrained(s, t, e, u, a);
    } else {
      hide Ok, Count, StackOk;
    }
  }

  lemma {:induction false} RunUntilDrained(s: State, t: nat, e: nat, calling: seq<Frame>, steps: seq<(nat, Action)>)
    requires Ok(s) && t < |s.stacks| && forall i :: 0 <= i < |steps| ==> steps[i].0 < |s.stacks|
    requires Leaving(s, t, e, calling) || Drained(s, t, e)
    ensures Leaving(Run(s, steps), t, e, calling) || Drained(Run(s, steps), t, e)
    decreases |steps|
  {
    hide Ok, Drained, Step, Leaving, MayReturn;
    if steps != [] {
      OkIsKnown(s);
      StepKeepsOk(s, steps[0].0, steps[0].1);
      if Drained(s, t, e) {
        StepKeepsDrained(s, t, e, steps[0].0, steps[0].1);
      } else {
        StepWhileLeaving(s, t, e, calling, steps[0].0, steps[0].1);
      }
      RunUntilDrained(Step(s, steps[0].0, steps[0].1), t, e, calling, steps[1..]);
    }
  }

  lemma DrainedMeansAlone(s: State, t: nat, e: nat)
    requires Drained(s, t, e)
    ensures forall u :: 0 <= u < |s.stacks| && u != t ==> !Inside(s, u, e)
  {
    forall u | 0 <= u < |s.stacks| && u != t ensures !Inside(s, u, e) {
      if Inside(s, u, e) {
        var i :| 0 <= i < |s.stacks[u]| && s.stacks[u][i] == Visiting(e);
        VisitsSome(s.stacks[u], e, i);
      }
    }
  }

  lemma {:induction false} RunGoesOn(s: State, first: seq<(nat, Action)>, second: seq<(nat, Action)>)
    requires Ok(s)
    requires forall i :: 0 <= i < |first| ==> first[i].0 < |s.stacks|
    requires forall i :: 0 <= i < |second| ==> second[i].0 < |s.stacks|
    ensures Run(s, first + second) == Run(Run(s, first), second)
    decreases |first|
  {
    hide Ok, Step;
    if first == [] {
      assert first + second == second;
    } else {
      OkIsKnown(s);
      StepKeepsOk(s, first[0].0, first[0].1);
      RunGoesOn(Step(s, first[0].0, first[0].1), first[1..], second);
      assert (first + second)[0] == first[0] && (first + second)[1..] == first[1..] + second;
    }
  }

  /** The call takes out what the key was registered to: a set with a key in use, or an erase with the
      value that is registered. */
  predicate TakesOut(s: State, t: nat, call: Action, e: nat)
    requires t < |s.stacks|
  {
    && Idle(s.stacks[t]) && e < |s.entries|
    && match call
       case Set(key, value) => key != 0 && value != 0 && key in s.registered && s.registered[key] == e
       case Erase(key, expected) =>
         key != 0 && key in s.registered && s.registered[key] == e && s.entries[e].value == expected
       case _ => false
  }

  lemma CallLeaves(s: State, t: nat, call: Action, e: nat)
    requires Ok(s) && Known(s) && t < |s.stacks| && TakesOut(s, t, call, e)
    ensures Leaving(Step(s, t, call), t, e, s.stacks[t])
  {
    hide Ok;
    assert Pop(s.stacks[t] + [Removed(e)]) == s.stacks[t];
  }

  /** The whole of set and erase. A thread that takes an entry out is not back on its calling stack, nested
      in visits or not, before every other thread has left the callbacks of that entry; and from then on
      none is ever inside again. */
  lemma TakingOutDrains(s: State, t: nat, call: Action, e: nat, steps: seq<(nat, Action)>, later: seq<(nat, Action)>)
    requires Ok(s) && Known(s) && t < |s.stacks| && TakesOut(s, t, call, e)
    requires forall i :: 0 <= i < |steps| ==> steps[i].0 < |s.stacks|
    requires forall i :: 0 <= i < |later| ==> later[i].0 < |s.stacks|
    requires Run(s, [(t, call)] + steps).stacks[t] == s.stacks[t]
    ensures
      var r := Run(s, [(t, call)] + steps);
      var ever := Run(s, [(t, call)] + steps + later);
      && (forall u :: 0 <= u < |s.stacks| && u != t ==> !Inside(r, u, e) && !Inside(ever, u, e))
      && Visits(ever.stacks[t], e) <= Visits(s.stacks[t], e)
  {
    var all := [(t, call)] + steps;
    CallLeaves(s, t, call, e);
    StepKeepsOk(s, t, call);
    hide Ok, Step, Drained, TakesOut;
    var called := Step(s, t, call);
    assert all[0] == (t, call) && all[1..] == steps;
    RunUntilDrained(called, t, e, s.stacks[t], steps);
    var r := Run(s, all);
    assert r == Run(called, steps);
    assert !Leaving(r, t, e, s.stacks[t]);
    DrainedMeansAlone(r, t, e);
    RunGoesOn(s, all, later);
    RunKeepsDrained(r, t, e, later);
    DrainedMeansAlone(Run(r, later), t, e);
  }

  // ---- What is found afterwards ---------------------------------------------------------------------------

  /** The key leads to an open entry with that value. */
  predicate Registered(s: State, key: nat, value: nat) {
    && key in s.registered && s.registered[key] < |s.entries|
    && s.entries[s.registered[key]].value == value && s.entries[s.registered[key]].accepting
  }

  /** A set registers its value, whatever the key held; an erase takes the key out when the value is the
      one expected, and otherwise changes nothing. No other key is touched, and a first set, like a call
      that takes nothing out, returns at once. */
  lemma CallsRegister(s: State, t: nat, key: nat, value: nat)
    requires Ok(s) && Known(s) && t < |s.stacks| && Idle(s.stacks[t]) && key != 0
    ensures
      var r := Step(s, t, Set(key, value));
      && (value != 0 ==> Registered(r, key, value) && r.entries[r.registered[key]].visitors == [])
      && (value == 0 ==> r == s)
      && (key !in s.registered ==> r.stacks == s.stacks)
      && forall k :: k != key ==>
           ((k in r.registered <==> k in s.registered)
            && (k in s.registered ==> r.registered[k] == s.registered[k]))
    ensures
      var r := Step(s, t, Erase(key, value));
      && (Registered(s, key, value) ==> key !in r.registered)
      && (!Registered(s, key, value) ==> r == s)
      && forall k :: k != key ==>
           ((k in r.registered <==> k in s.registered)
            && (k in s.registered ==> r.registered[k] == s.registered[k]))
  {
    hide StackOk;
  }

  predicate Touches(a: Action, key: nat) {
    match a
    case Set(k, _) => k == key
    case Erase(k, _) => k == key
    case _ => false
  }

  lemma StepKeepsRegistered(s: State, u: nat, a: Action, key: nat, value: nat)
    requires Ok(s) && Known(s) && u < |s.stacks| && !Touches(a, key)
    ensures
      var r := Step(s, u, a);
      (key in r.registered <==> key in s.registered) && (Registered(s, key, value) ==> Registered(r, key, value))
  {
    hide StackOk, RemoveFirst;
  }

  lemma {:induction false} RunKeepsRegistered(s: State, steps: seq<(nat, Action)>, key: nat, value: nat)
    requires Ok(s) && forall i :: 0 <= i < |steps| ==> steps[i].0 < |s.stacks| && !Touches(steps[i].1, key)
    ensures key in Run(s, steps).registered <==> key in s.registered
    ensures Registered(s, key, value) ==> Registered(Run(s, steps), key, value)
    decreases |steps|
  {
    hide Ok, Step, Registered;
    if steps != [] {
      OkIsKnown(s);
      StepKeepsOk(s, steps[0].0, steps[0].1);
      StepKeepsRegistered(s, steps[0].0, steps[0].1, key, value);
      RunKeepsRegistered(Step(s, steps[0].0, steps[0].1), steps[1..], key, value);
    }
  }

  /** Until the key is set or erased again, every visit of it enters the entry that holds the value set
      last, and after an erase finds nothing. */
  lemma VisitsFindTheLatest(s: State, t: nat, call: Action, steps: seq<(nat, Action)>, u: nat, key: nat, value: nat)
    requires Ok(s) && Known(s) && t < |s.stacks| && u < |s.stacks| && Idle(s.stacks[t]) && key != 0 && value != 0
    requires call == Set(key, value) || (call == Erase(key, value) && Registered(s, key, value))
    requires forall i :: 0 <= i < |steps| ==> steps[i].0 < |s.stacks| && !Touches(steps[i].1, key)
    requires Idle(Run(s, [(t, call)] + steps).stacks[u])
    ensures
      var r := Run(s, [(t, call)] + steps);
      var inside := Run(r, [(u, Visit(key)), (u, Begin)]);
      if call.Set? then
        && Registered(r, key, value) && inside.registered == r.registered
        && inside.stacks[u] == r.stacks[u] + [Visiting(r.registered[key])]
      else key !in r.registered && Run(r, [(u, Visit(key))]) == r
  {
    var all := [(t, call)] + steps;
    CallsRegister(s, t, key, value);
    StepKeepsOk(s, t, call);
    hide Ok, Registered;
    var called := Step(s, t, call);
    assert all[0] == (t, call) && all[1..] == steps;
    RunKeepsRegistered(called, steps, key, value);
    var r := Run(s, all);
    assert r == Run(called, steps);
    OkIsKnown(r);
    VisitEnters(r, u, key, value);
  }

  lemma VisitFinds(r: State, u: nat, key: nat)
    requires Ok(r) && Known(r) && u < |r.stacks| && Idle(r.stacks[u]) && key != 0
    ensures
      Step(r, u, Visit(key)) ==
        if key in r.registered then r.(stacks := r.stacks[u := r.stacks[u] + [Found(r.registered[key])]]) else r
  {
    hide Ok;
  }

  lemma BeginEnters(f: State, u: nat, stack: seq<Frame>, e: nat)
    requires Known(f) && u < |f.stacks| && e < |f.entries| && f.entries[e].accepting
    requires f.stacks[u] == stack + [Found(e)]
    ensures
      var inside := Step(f, u, Begin);
      inside.registered == f.registered && inside.stacks[u] == stack + [Visiting(e)]
  {
    assert Pop(f.stacks[u]) == stack;
  }

  lemma OneStep(s: State, u: nat, a: Action)
    requires Ok(s) && Known(s) && u < |s.stacks|
    ensures Run(s, [(u, a)]) == Step(s, u, a)
  {
    hide Ok, Step, Known;
    StepKeepsOk(s, u, a);
    assert [(u, a)][1..] == [];
    assert Run(Step(s, u, a), []) == Step(s, u, a);
  }

  lemma VisitEnters(r: State, u: nat, key: nat, value: nat)
    requires Ok(r) && Known(r) && u < |r.stacks| && Idle(r.stacks[u]) && key != 0
    ensures
      var inside := Run(r, [(u, Visit(key)), (u, Begin)]);
      if key !in r.registered then Run(r, [(u, Visit(key))]) == r
      else
        Registered(r, key, value) ==>
          inside.registered == r.registered && inside.stacks[u] == r.stacks[u] + [Visiting(r.registered[key])]
  {
    StepKeepsOk(r, u, Visit(key));
    VisitFinds(r, u, key);
    hide Ok, Step, Known;
    var found := Step(r, u, Visit(key));
    OkIsKnown(found);
    StepKeepsOk(found, u, Begin);
    OneStep(r, u, Visit(key));
    OneStep(found, u, Begin);
    RunGoesOn(r, [(u, Visit(key))], [(u, Begin)]);
    assert [(u, Visit(key))] + [(u, Begin)] == [(u, Visit(key)), (u, Begin)];
    if Registered(r, key, value) {
      BeginEnters(found, u, r.stacks[u], r.registered[key]);
    }
  }

  // ---- Coming back ------------------------------------------------------------------------------------------

  lemma {:induction false} OneFewer(threads: seq<nat>, t: nat)
    requires 0 < Count(threads, t)
    ensures |RemoveFirst(threads, t)| == |threads| - 1
  {
    if threads[0] != t {
      assert threads == [threads[0]] + threads[1..];
      CountPrepend(threads[1..], threads[0], t);
      OneFewer(threads[1..], t);
    }
  }

  /** Leaving a callback takes exactly that visit off the thread's stack and off the entry's list. */
  lemma LeavingEndsTheVisit(s: State, t: nat)
    requires Ok(s) && Known(s) && t < |s.stacks| && s.stacks[t] != [] && Top(s.stacks[t]).Visiting?
    ensures
      var e, r := Top(s.stacks[t]).entry, Step(s, t, End);
      && r.stacks == s.stacks[t := Pop(s.stacks[t])] && |r.entries| == |s.entries|
      && |r.entries[e].visitors| + 1 == |s.entries[e].visitors|
      && Visits(r.stacks[t], e) + 1 == Visits(s.stacks[t], e)
  {
    assert StackOk(s.stacks[t], t, s.entries);
    OneFewer(s.entries[Top(s.stacks[t]).entry].visitors, t);
  }

  lemma CallTakesOut(s: State, t: nat, call: Action, e: nat)
    requires Ok(s) && Known(s) && t < |s.stacks| && TakesOut(s, t, call, e)
    ensures
      var r := Step(s, t, call);
      && r.stacks == s.stacks[t := s.stacks[t] + [Removed(e)]] && e < |r.entries|
      && r.entries[e].visitors == s.entries[e].visitors
  {
    hide Ok;
  }

  lemma CountingWaits(s: State, t: nat, e: nat, calling: seq<Frame>)
    requires Ok(s) && Known(s) && t < |s.stacks| && s.stacks[t] == calling + [Removed(e)]
    ensures
      var r := Step(s, t, CountOwn);
      && Known(r) && r.entries == s.entries && r.stacks == s.stacks[t := r.stacks[t]]
      && r.stacks[t] != [] && Top(r.stacks[t]).Waiting? && Top(r.stacks[t]).entry == e
      && Pop(r.stacks[t]) == calling
  {
    hide Ok, Count;
    assert Pop(s.stacks[t]) == calling;
  }

  lemma SameInside(s: State, r: State, t: nat, e: nat)
    requires t < |s.stacks| && |r.stacks| == |s.stacks| && r.stacks == s.stacks[t := r.stacks[t]]
    ensures forall u :: 0 <= u < |s.stacks| && u != t ==> Inside(r, u, e) == Inside(s, u, e)
  {
  }

  lemma ThreeSteps(s: State, t: nat, a: Action, b: Action, c: Action) returns (one: State, two: State)
    requires Ok(s) && Known(s) && t < |s.stacks|
    ensures one == Step(s, t, a) && Ok(one) && Known(one) && |one.stacks| == |s.stacks|
    ensures two == Step(one, t, b) && Ok(two) && Known(two) && |two.stacks| == |s.stacks|
    ensures Run(s, [(t, a)] + ([(t, b)] + [(t, c)])) == Step(two, t, c)
  {
    hide Ok, Step, Known;
    StepKeepsOk(s, t, a);
    one := Step(s, t, a);
    OkIsKnown(one);
    StepKeepsOk(one, t, b);
    two := Step(one, t, b);
    OkIsKnown(two);
    RunGoesOn(s, [(t, a)], [(t, b)] + [(t, c)]);
    RunGoesOn(one, [(t, b)], [(t, c)]);
    OneStep(s, t, a);
    OneStep(one, t, b);
    OneStep(two, t, c);
  }

  /** A call that takes an entry out while no other thread is inside comes back by itself. */
  lemma UndisturbedCallReturns(s: State, t: nat, call: Action, e: nat)
    requires Ok(s) && Known(s) && t < |s.stacks| && TakesOut(s, t, call, e)
    requires forall u :: 0 <= u < |s.stacks| && u != t ==> !Inside(s, u, e)
    ensures Run(s, [(t, call)] + ([(t, CountOwn)] + [(t, Return)])).stacks[t] == s.stacks[t]
  {
    hide Ok, Step, Known, TakesOut, Inside, MayReturn, Run;
    CallTakesOut(s, t, call, e);
    var called, waiting := ThreeSteps(s, t, call, CountOwn, Return);
    CountingWaits(called, t, e, s.stacks[t]);
    SameInside(s, waiting, t, e);
    ReturnsIffAlone(waiting, t);
    ReturningPops(waiting, t);
  }

  lemma ReturningPops(s: State, t: nat)
    requires Known(s) && t < |s.stacks| && MayReturn(s, t)
    ensures Step(s, t, Return).stacks[t] == Pop(s.stacks[t])
  {
  }
}
