/** The registry that lets one thread erase a callback object while others may be inside it. Each step
    below is one section protected by a mutex; steps of all threads interleave freely. */
module CallbackRegistry {

  // ---- One entry: an intrusive list of the visits in progress --------------------------------------

  class Visitor {
    var thread: nat
    var previous: Visitor?
    var next: Visitor?

    constructor ()
    {
      thread, previous, next := 0, null, null;
    }
  }

  function Count(threads: seq<nat>, thread: nat): (n: nat)
    ensures n <= |threads|
  {
    if threads == [] then 0
    else Count(threads[..|threads| - 1], thread) + if threads[|threads| - 1] == thread then 1 else 0
  }

  class Entry {
    const value: nat
    var visitors: Visitor?
    var activeVisitors: nat
    var accepting: bool
    ghost var chain: seq<Visitor>

    ghost predicate Valid()
      reads this, chain
    {
      && activeVisitors == |chain|
      && visitors == (if chain == [] then null else chain[0])
      && (forall i, j :: 0 <= i < j < |chain| ==> chain[i] != chain[j])
      && (forall i :: 0 <= i < |chain| ==> LinkedAt(chain, i))
    }

    ghost predicate LinkedAt(chain: seq<Visitor>, i: nat)
      requires i < |chain|
      reads chain[i]
    {
      && chain[i].next == (if i + 1 < |chain| then chain[i + 1] else null)
      && chain[i].previous == (if 0 < i then chain[i - 1] else null)
    }

    ghost function Threads(): (r: seq<nat>)
      reads this, chain
      ensures |r| == |chain| && forall i :: 0 <= i < |r| ==> r[i] == chain[i].thread
    {
      seq(|chain|, i requires 0 <= i < |chain| reads this, chain => chain[i].thread)
    }

    constructor (initialValue: nat)
      ensures Valid() && value == initialValue && accepting && Threads() == []
    {
      value, visitors, activeVisitors, accepting, chain := initialValue, null, 0, true, [];
    }

    /** Refused once the entry has stopped accepting; else the visit is listed first. */
    method Begin(visitor: Visitor, thread: nat) returns (ok: bool)
      requires Valid() && visitor !in chain && visitor.previous == null
      modifies this`visitors, this`activeVisitors, this`chain, visitor, visitors
      ensures Valid() && ok == accepting
      ensures chain == if ok then [visitor] + old(chain) else old(chain)
      ensures Threads() == if ok then [thread] + old(Threads()) else old(Threads())
    {
      if !accepting {
        return false;
      }
      ghost var before := chain;
      assert before != [] ==> LinkedAt(before, 0);
      visitor.thread := thread;
      visitor.next := visitors;
      if visitors != null {
        visitors.previous := visitor;
      }
      visitors := visitor;
      activeVisitors := activeVisitors + 1;
      chain := [visitor] + chain;
      forall i | 0 <= i < |chain| ensures LinkedAt(chain, i) {
        assert 0 < i ==> old(LinkedAt(before, i - 1));
      }
      return true;
    }

    /** Unlinks the visit; the others stay in their order. */
    method End(visitor: Visitor, ghost k: nat)
      requires Valid() && k < |chain| && chain[k] == visitor
      modifies this`visitors, this`activeVisitors, this`chain, chain
      ensures Valid() && chain == old(chain[..k] + chain[k + 1..])
      ensures Threads() == old(Threads()[..k] + Threads()[k + 1..])
    {
      ghost var before := chain;
      assert LinkedAt(before, k);
      assert 0 < k ==> LinkedAt(before, k - 1);
      assert k + 1 < |before| ==> LinkedAt(before, k + 1);
      if visitor.previous != null {
        visitor.previous.next := visitor.next;
      } else {
        visitors := visitor.next;
      }
      if visitor.next != null {
        visitor.next.previous := visitor.previous;
      }
      activeVisitors := activeVisitors - 1;
      chain := chain[..k] + chain[k + 1..];
      forall i | 0 <= i < |chain| ensures LinkedAt(chain, i) {
        assert old(LinkedAt(before, if i < k then i else i + 1));
      }
    }

    method StopAccepting()
      requires Valid()
      modifies this`accepting
      ensures Valid() && !accepting
    {
      accepting := false;
    }

    /** What waitForDrain counts before it blocks. */
    method VisitorsOn(thread: nat) returns (n: nat)
      requires Valid()
      ensures n == Count(Threads(), thread)
    {
      n := 0;
      var visitor := visitors;
      ghost var i := 0;
      while visitor != null
        invariant 0 <= i <= |chain| && visitor == if i < |chain| then chain[i] else null
        invariant n == Count(Threads()[..i], thread)
        decreases |chain| - i
      {
        assert LinkedAt(chain, i);
        assert Threads()[..i + 1][..i] == Threads()[..i];
        if visitor.thread == thread {
          n := n + 1;
        }
        visitor := visitor.next;
        i := i + 1;
      }
      assert Threads()[..|chain|] == Threads();
    }
  }
}
