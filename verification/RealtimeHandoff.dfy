/** The bounded queue between one producer and one consumer thread: two indices into a fixed array, of
    which one slot always stays free. */
module RealtimeHandoff {
  import opened Wrappers

  // ---- The ring as a value ----------------------------------------------------------------------------

  datatype Ring<T> = Ring(slots: seq<T>, write: nat, read: nat)

  predicate RingOk<T>(r: Ring<T>) {
    2 <= |r.slots| && r.write < |r.slots| && r.read < |r.slots|
  }

  function Increment(index: nat, capacity: nat): nat {
    if index + 1 == capacity then 0 else index + 1
  }

  function Used<T>(r: Ring<T>): (n: nat)
    requires RingOk(r)
    ensures n < |r.slots|
  {
    if r.write >= r.read then r.write - r.read else |r.slots| - (r.read - r.write)
  }

  function Wrapped(index: nat, capacity: nat): nat {
    if index < capacity then index else index - capacity
  }

  /** What is queued, oldest first. */
  function Contents<T>(r: Ring<T>): (c: seq<T>)
    requires RingOk(r)
    ensures |c| == Used(r)
    ensures forall i :: 0 <= i < |c| ==> c[i] == r.slots[Wrapped(r.read + i, |r.slots|)]
  {
    seq(Used(r), i requires 0 <= i < Used(r) => r.slots[Wrapped(r.read + i, |r.slots|)])
  }

  predicate Full<T>(r: Ring<T>) {
    Increment(r.write, |r.slots|) == r.read
  }

  /** The slot behind the last one is not seen by the consumer until the write index moves. */
  lemma StoringIsUnseen<T>(r: Ring<T>, value: T)
    requires RingOk(r)
    ensures Contents(r.(slots := r.slots[r.write := value])) == Contents(r)
  {
    var s := r.(slots := r.slots[r.write := value]);
    forall i | 0 <= i < Used(r) ensures Contents(s)[i] == Contents(r)[i] {
      assert Wrapped(r.read + i, |r.slots|) != r.write;
    }
  }

  /** Moving the write index makes the stored value the newest. */
  lemma PublishingAppends<T>(r: Ring<T>)
    requires RingOk(r) && !Full(r)
    ensures
      var s := r.(write := Increment(r.write, |r.slots|));
      RingOk(s) && Contents(s) == Contents(r) + [r.slots[r.write]]
  {
    var s := r.(write := Increment(r.write, |r.slots|));
    assert Used(s) == Used(r) + 1;
    forall i | 0 <= i < Used(s) ensures Contents(s)[i] == (Contents(r) + [r.slots[r.write]])[i] {
      if i == Used(r) {
        assert Wrapped(r.read + i, |r.slots|) == r.write;
      }
    }
  }

  /** Moving the read index drops the oldest. */
  lemma ReleasingDrops<T>(r: Ring<T>)
    requires RingOk(r) && r.read != r.write
    ensures
      var s := r.(read := Increment(r.read, |r.slots|));
      && RingOk(s) && Contents(r) == [r.slots[r.read]] + Contents(s)
  {
    var s := r.(read := Increment(r.read, |r.slots|));
    assert Used(r) == Used(s) + 1;
    forall i | 0 <= i < Used(r) ensures Contents(r)[i] == ([r.slots[r.read]] + Contents(s))[i] {
      if 0 < i {
        assert Wrapped(r.read + i, |r.slots|) == Wrapped(s.read + (i - 1), |r.slots|);
      }
    }
  }

  lemma FullMeansUsedUp<T>(r: Ring<T>)
    requires RingOk(r)
    ensures Full(r) <==> Used(r) == |r.slots| - 1
    ensures r.read == r.write <==> Used(r) == 0
  {
  }

  // ---- The queue as it is written ------------------------------------------------------------------------

  class RealtimeToUiQueue<T> {
    const slots: array<T>
    var writeIndex: nat
    var readIndex: nat

    ghost function Now(): Ring<T>
      reads this, slots
    {
      Ring(slots[..], writeIndex, readIndex)
    }

    ghost predicate Valid()
      reads this, slots
    {
      RingOk(Now())
    }

    constructor (capacity: nat, initial: T)
      requires 2 <= capacity
      ensures Valid() && slots.Length == capacity && Contents(Now()) == [] && fresh(slots)
    {
      slots := new T[capacity](i => initial);
      writeIndex, readIndex := 0, 0;
    }

    /** Drops the value when the queue is full. */
    method TryPush(value: T) returns (ok: bool)
      requires Valid()
      modifies this`writeIndex, slots
      ensures Valid() && ok == (|old(Contents(Now()))| < slots.Length - 1)
      ensures Contents(Now()) == if ok then old(Contents(Now())) + [value] else old(Contents(Now()))
    {
      ghost var before := Now();
      FullMeansUsedUp(before);
      var next := Increment(writeIndex, slots.Length);
      if next == readIndex {
        return false;
      }
      slots[writeIndex] := value;
      ghost var stored := Now();
      assert stored == before.(slots := before.slots[before.write := value]);
      StoringIsUnseen(before, value);
      PublishingAppends(stored);
      writeIndex := next;
      return true;
    }

    method TryPop() returns (value: Option<T>)
      requires Valid()
      modifies this`readIndex
      ensures Valid() && slots[..] == old(slots[..])
      ensures
        var was := old(Contents(Now()));
        && value == (if was == [] then None else Some(was[0]))
        && Contents(Now()) == if was == [] then [] else was[1..]
    {
      FullMeansUsedUp(Now());
      if readIndex == writeIndex {
        return None;
      }
      value := Some(slots[readIndex]);
      ReleasingDrops(Now());
      readIndex := Increment(readIndex, slots.Length);
    }
  }
}
