/** The command queue as it is written, with its reservation for gestures that must still be closed. */
module UiParameterQueues {
  import opened Wrappers
  import opened RealtimeHandoff
  import opened GestureQueue

  const NOTHING := Command(Value, 0, 0.0)

  class UiParameterQueue {
    const commands: RealtimeToUiQueue<Command>
    const openGestures: array<bool>
    ghost var accepted: seq<Command>
    ghost var emitted: seq<Command>

    ghost function Queued(): seq<Command>
      requires commands.Valid()
      reads commands, commands.slots
    {
      Contents(commands.Now())
    }

    ghost predicate Valid()
      reads this, commands, commands.slots, openGestures
    {
      && commands.Valid() && accepted == emitted + Queued()
      && Bracketed(accepted, openGestures.Length)
      && openGestures[..] == OpenAfter(accepted, openGestures.Length)
      && Flags(openGestures[..]) + |Queued()| <= commands.slots.Length - 1
    }

    constructor (capacity: nat, parameters: nat)
      requires 2 <= capacity
      ensures Valid() && accepted == emitted == [] && openGestures.Length == parameters
      ensures commands.slots.Length == capacity
    {
      commands := new RealtimeToUiQueue<Command>(capacity, NOTHING);
      openGestures := new bool[parameters](i => false);
      accepted, emitted := [], [];
      new;
      assert openGestures[..] == OpenAfter([], parameters);
    }

    method OpenGestureCount() returns (count: nat)
      ensures count == Flags(openGestures[..])
    {
      count := 0;
      var i := 0;
      while i < openGestures.Length
        invariant 0 <= i <= openGestures.Length && count == Flags(openGestures[..i])
      {
        assert openGestures[..i + 1][..i] == openGestures[..i];
        if openGestures[i] {
          count := count + 1;
        }
        i := i + 1;
      }
      assert openGestures[..openGestures.Length] == openGestures[..];
    }

    method FreeSlots() returns (free: nat)
      requires commands.Valid()
      ensures free == commands.slots.Length - 1 - |Queued()|
    {
      var write, read := commands.writeIndex, commands.readIndex;
      var used := if write >= read then write - read else commands.slots.Length - (read - write);
      free := commands.slots.Length - 1 - used;
    }

    method Enqueue(c: Command)
      requires Valid() && Accepts(openGestures[..], c)
      requires ReservedAfter(openGestures[..], c) + 1 + |Queued()| <= commands.slots.Length - 1
      modifies this`accepted, commands, commands.slots, openGestures
      ensures Valid() && emitted == old(emitted) && accepted == old(accepted) + [c]
      ensures openGestures[..] == After(old(openGestures[..]), c)
    {
      hide Contents, Flags, OpenAfter, Bracketed, RealtimeToUiQueue.Now, RealtimeToUiQueue.Valid;
      FlagsSet(openGestures[..], c.parameter, c.kind == Begin);
      BracketedAppend(accepted, openGestures.Length, c);
      var ok := commands.TryPush(c);
      if c.kind == Begin {
        openGestures[c.parameter] := true;
      } else if c.kind == End {
        openGestures[c.parameter] := false;
      }
      accepted := accepted + [c];
      assert openGestures[..] == After(old(openGestures[..]), c);
    }

    /** A command is taken if it keeps BEGIN and END alternating and leaves a slot for every gesture
        that is then open. */
    method PushPreservingGestureClosure(c: Command) returns (ok: bool)
      requires Valid()
      modifies this`accepted, commands, commands.slots, openGestures
      ensures Valid() && emitted == old(emitted)
      ensures ok == (Accepts(old(openGestures[..]), c)
                     && ReservedAfter(old(openGestures[..]), c) + 1 + |old(Queued())| <= commands.slots.Length - 1)
      ensures accepted == if ok then old(accepted) + [c] else old(accepted)
      ensures openGestures[..] == if ok then After(old(openGestures[..]), c) else old(openGestures[..])
    {
      hide Contents, Flags, OpenAfter, Bracketed, RealtimeToUiQueue.Now, RealtimeToUiQueue.Valid;
      if c.parameter >= openGestures.Length {
        return false;
      }
      var open := openGestures[c.parameter];
      var reservedAfter := OpenGestureCount();
      if c.kind == Begin {
        if open {
          return false;
        }
        reservedAfter := reservedAfter + 1;
      } else if c.kind == End {
        if !open {
          return false;
        }
        FlagsSet(openGestures[..], c.parameter, false);
        reservedAfter := reservedAfter - 1;
      }
      var free := FreeSlots();
      if free < reservedAfter + 1 {
        return false;
      }
      Enqueue(c);
      return true;
    }

    /** The slot kept for the END of an open gesture is there. */
    method QueueGestureEnd(parameter: nat) returns (queued: bool)
      requires Valid() && parameter < openGestures.Length && openGestures[parameter]
      modifies this`accepted, commands, commands.slots, openGestures
      ensures queued && Valid() && emitted == old(emitted)
      ensures accepted == old(accepted) + [Command(End, parameter, 0.0)]
      ensures openGestures[..] == old(openGestures[..])[parameter := false]
    {
      hide Contents, Flags, OpenAfter, Bracketed, RealtimeToUiQueue.Now, RealtimeToUiQueue.Valid;
      FlagsSet(openGestures[..], parameter, false);
      queued := PushPreservingGestureClosure(Command(End, parameter, 0.0));
    }

    /** Every open gesture gets its END; none is refused. */
    method CloseOpenGestures() returns (queued: bool)
      requires Valid()
      modifies this`accepted, commands, commands.slots, openGestures
      ensures Valid() && emitted == old(emitted)
      ensures accepted == old(accepted) + Ends(old(openGestures[..]), openGestures.Length)
      ensures forall p :: 0 <= p < openGestures.Length ==> !openGestures[p]
      ensures queued == (Ends(old(openGestures[..]), openGestures.Length) != [])
    {
      hide Valid;
      queued := false;
      ghost var open := openGestures[..];
      var i := 0;
      while i < openGestures.Length
        invariant 0 <= i <= openGestures.Length && Valid() && emitted == old(emitted)
        invariant accepted == old(accepted) + Ends(open, i)
        invariant forall p :: 0 <= p < i ==> !openGestures[p]
        invariant forall p :: i <= p < openGestures.Length ==> openGestures[p] == open[p]
        invariant queued == (Ends(open, i) != [])
      {
        if openGestures[i] {
          ghost var now := openGestures[..];
          var pushed := QueueGestureEnd(i);
          assert forall p :: 0 <= p < openGestures.Length ==> openGestures[p] == now[i := false][p];
          queued := pushed || queued;
        }
        i := i + 1;
      }
    }

    /** The oldest command has gone out: it is popped. */
    method PopEmitted(ghost command: Command)
      requires Valid() && Queued() != [] && Queued()[0] == command
      modifies this`emitted, commands`readIndex
      ensures Valid() && commands.Valid()
      ensures accepted == old(accepted) && emitted == old(emitted) + [command] && Queued() == old(Queued())[1..]
    {
      hide Flags, OpenAfter, Bracketed, Contents;
      EmittingMovesOne(emitted, Queued(), command);
      emitted := emitted + [command];
      var popped := commands.TryPop();
    }

    lemma OldestIsNext()
      requires commands.Valid()
      ensures commands.readIndex == commands.writeIndex <==> Queued() == []
      ensures commands.readIndex < commands.slots.Length
      ensures Queued() != [] ==> Queued()[0] == commands.slots[commands.readIndex]
    {
      FullMeansUsedUp(commands.Now());
    }

    /** Hands the queue to the host; `answers` are its replies. Whatever is refused stays queued. */
    method Drain(answers: seq<bool>, limit: Option<nat>) returns (values: seq<Command>, ghost out: seq<Command>)
      requires Valid()
      modifies this`emitted, commands`readIndex
      ensures Valid() && accepted == old(accepted) && emitted == old(emitted) + out
      ensures |out| <= |old(Queued())| && out == old(Queued())[..|out|] && Queued() == old(Queued())[|out|..]
      ensures values == Values(out)
      ensures |out| <= |answers| && forall i :: 0 <= i < |out| ==> answers[i]
      ensures limit.Some? ==> |values| <= limit.value
      ensures
        || Queued() == [] || |out| == |answers| || !answers[|out|]
        || (limit.Some? && |values| == limit.value && Queued()[0].kind == Value)
    {
      hide Flags, OpenAfter, Bracketed, Contents, Values;
      ghost var before, was := emitted, Queued();
      values, out := [], [];
      NoValues();
      var sent := 0;
      OldestIsNext();
      while commands.readIndex != commands.writeIndex
        invariant Valid() && accepted == old(accepted)
        invariant 0 <= sent <= |answers| && sent <= |was|
        invariant Queued() == was[sent..] && out == was[..sent] && emitted == before + out
        invariant values == Values(out)
        invariant forall i :: 0 <= i < sent ==> answers[i]
        invariant limit.Some? ==> |values| <= limit.value
        decreases |was| - sent
      {
        OldestIsNext();
        var command := commands.slots[commands.readIndex];
        if command.kind == Value && limit.Some? && |values| >= limit.value {
          return;
        }
        if sent >= |answers| || !answers[sent] {
          return;
        }
        OneMoreSent(before, was, sent);
        if command.kind == Value {
          values := values + [command];
        }
        sent := sent + 1;
        out := was[..sent];
        PopEmitted(command);
      }
      OldestIsNext();
    }
  }

  lemma OneMoreSent(before: seq<Command>, was: seq<Command>, sent: nat)
    requires sent < |was|
    ensures was[sent..][0] == was[sent] && was[sent..][1..] == was[sent + 1..]
    ensures (before + was[..sent]) + [was[sent]] == before + was[..sent + 1]
    ensures Values(was[..sent + 1]) == Values(was[..sent]) + if was[sent].kind == Value then [was[sent]] else []
  {
    assert was[..sent + 1][..sent] == was[..sent];
  }

  lemma NoValues()
    ensures Values([]) == []
  {
  }
}
