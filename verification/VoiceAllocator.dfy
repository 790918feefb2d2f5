/** The allocator as it is written: a fixed array of slots stamped with allocation serials.
    Every operation is tied to the queue of module VoicePool. */
module VoiceAllocators {
  import opened Wrappers
  import opened VoicePool

  datatype AllocatorSlot = AllocatorSlot(identity: Identity, serial: nat, active: bool)

  const MAX_SERIAL: nat := 0xFFFF_FFFF_FFFF_FFFF
  const EMPTY_SLOT := AllocatorSlot(NOBODY, 0, false)

  function OwnerOf(slot: AllocatorSlot): Option<Identity> {
    if slot.active then Some(slot.identity) else None
  }

  function OwnersOf(slots: seq<AllocatorSlot>): (owners: Owners)
    ensures |owners| == |slots|
    ensures forall i :: 0 <= i < |slots| ==> owners[i] == OwnerOf(slots[i])
  {
    seq(|slots|, i requires 0 <= i < |slots| => OwnerOf(slots[i]))
  }

  /** Serials grow along the queue and none of them exceeds `limit`. */
  ghost predicate Stamped(order: seq<nat>, slots: seq<AllocatorSlot>, limit: nat) {
    && (forall k :: 0 <= k < |order| ==>
         order[k] < |slots| && 1 <= slots[order[k]].serial <= limit)
    && (forall j, k :: 0 <= j < k < |order| ==>
         slots[order[j]].serial < slots[order[k]].serial)
  }

  lemma {:induction false} KeepOwnedStamped(order: seq<nat>, owners: Owners,
                                            slots: seq<AllocatorSlot>, limit: nat)
    requires Stamped(order, slots, limit)
    ensures Stamped(KeepOwned(order, owners), slots, limit)
  {
    var born := seq(|slots|, i requires 0 <= i < |slots| => slots[i].serial);
    assert Sorted(order, born, limit + 1);
    KeepOwnedSorted(order, owners, born, limit + 1);
    var kept := KeepOwned(order, owners);
    forall k | 0 <= k < |kept| ensures 1 <= slots[kept[k]].serial <= limit {
      assert kept[k] in kept;
      var m :| 0 <= m < |order| && order[m] == kept[k];
      assert born[kept[k]] == slots[order[m]].serial;
    }
    forall j, k | 0 <= j < k < |kept|
      ensures slots[kept[j]].serial < slots[kept[k]].serial
    {
      assert born[kept[j]] < born[kept[k]];
    }
  }

  lemma {:induction false} KeepOwnedDropsOne(order: seq<nat>, owners: Owners, i: nat)
    requires Distinct(order) && i < |owners| && owners[i].None?
    requires forall k :: 0 <= k < |order| && order[k] != i ==> Owned(owners, order[k])
    ensures |KeepOwned(order, owners)| == |order| - (if i in order then 1 else 0)
  {
    if order != [] {
      var tail := order[1..];
      forall k | 0 <= k < |tail| && tail[k] != i ensures Owned(owners, tail[k]) {
        assert tail[k] == order[k + 1];
      }
      KeepOwnedDropsOne(tail, owners, i);
      assert order == [order[0]] + tail;
      if order[0] == i {
        assert i !in tail;
      } else {
        assert Owned(owners, order[0]);
      }
    }
  }

  class VoiceAllocator {
    const slots: array<AllocatorSlot>
    var capacity: nat
    var activeCount: nat
    var allocationSerial: nat
    ghost var order: seq<nat>

    ghost predicate Valid()
      reads this, slots
    {
      && slots.Length == MAX_VOICES
      && capacity <= MAX_VOICES
      && activeCount == |order|
      && allocationSerial <= MAX_SERIAL
      && PoolOk(Contents())
      && Stamped(order, slots[..capacity], allocationSerial)
    }

    ghost function Contents(): Pool
      requires capacity <= slots.Length
      reads this, slots
    {
      Pool(OwnersOf(slots[..capacity]), order)
    }

    constructor ()
      ensures Valid() && fresh(slots)
      ensures capacity == 0 && Contents() == NewPool(0)
    {
      slots := new AllocatorSlot[MAX_VOICES](i => EMPTY_SLOT);
      capacity, activeCount, allocationSerial, order := 0, 0, 0, [];
      new;
      assert slots[..capacity] == [] && OwnersOf(slots[..capacity]) == [];
    }

    method Configure(requestedVoices: nat) returns (ok: bool)
      requires Valid()
      modifies this, slots
      ensures Valid()
      ensures ok <==> 0 < requestedVoices <= MAX_VOICES
      ensures ok ==> capacity == requestedVoices && Contents() == NewPool(requestedVoices)
      ensures !ok ==> capacity == old(capacity) && Contents() == old(Contents())
    {
      if requestedVoices == 0 || requestedVoices > MAX_VOICES {
        return false;
      }
      capacity := requestedVoices;
      Reset();
      return true;
    }

    method Reset()
      requires slots.Length == MAX_VOICES && capacity <= MAX_VOICES
      modifies this, slots
      ensures Valid()
      ensures capacity == old(capacity) && Contents() == NewPool(capacity)
    {
      var i := 0;
      while i < slots.Length
        invariant 0 <= i <= slots.Length
        invariant capacity == old(capacity)
        invariant forall j :: 0 <= j < i ==> slots[j] == EMPTY_SLOT
      {
        slots[i] := EMPTY_SLOT;
        i := i + 1;
      }
      activeCount, allocationSerial, order := 0, 0, [];
      assert OwnersOf(slots[..capacity]) == NewPool(capacity).owners;
    }

    method VoiceIdentity(index: nat) returns (identity: Option<Identity>)
      requires Valid()
      ensures identity == if index < capacity then Contents().owners[index] else None
    {
      if index >= capacity || !slots[index].active {
        return None;
      }
      return Some(slots[index].identity);
    }

    method FindExact(identity: Identity) returns (index: Option<nat>)
      requires Valid()
      ensures index.Some? ==>
                && index.value < capacity && Contents().owners[index.value] == Some(identity)
                && forall j :: 0 <= j < index.value ==> Contents().owners[j] != Some(identity)
      ensures index.None? ==> Some(identity) !in Contents().owners
    {
      var i := 0;
      while i < capacity
        invariant 0 <= i <= capacity
        invariant forall j :: 0 <= j < i ==> Contents().owners[j] != Some(identity)
      {
        if slots[i].active && slots[i].identity == identity {
          return Some(i);
        }
        i := i + 1;
      }
      return None;
    }

    method AllocateDetailed(identity: Identity) returns (result: Allocation)
      requires Valid()
      modifies this, slots
      ensures Valid() && capacity == old(capacity)
      ensures (Contents(), result) == Allocate(old(Contents()), identity)
    {
      if capacity == 0 {
        return NoVoice;
      }
      ghost var before := Contents();
      var index := 0;
      while index < capacity
        invariant 0 <= index <= capacity
        invariant forall j :: 0 <= j < index ==> before.owners[j].Some?
      {
        if !slots[index].active {
          assert Choose(before) == index;
          assert Remaining(before, index) == before.order;
          Activate(index, identity);
          activeCount := activeCount + 1;
          return Allocated(index, None);
        }
        index := index + 1;
      }

      var oldest := 0;
      assert Owned(before.owners, 0);
      index := 1;
      while index < capacity
        invariant 1 <= index <= capacity && 0 <= oldest < index
        invariant forall j :: 0 <= j < index ==> slots[oldest].serial <= slots[j].serial
      {
        if slots[index].serial < slots[oldest].serial {
          oldest := index;
        }
        index := index + 1;
      }
      OldestHeadsTheQueue(oldest);
      assert Choose(before) == oldest;
      assert Remaining(before, oldest) == before.order[1..];

      var replaced := slots[oldest].identity;
      Activate(oldest, identity);
      return Allocated(oldest, Some(replaced));
    }

    lemma OldestHeadsTheQueue(oldest: nat)
      requires Valid() && oldest < capacity
      requires forall j :: 0 <= j < capacity ==> slots[j].active
      requires forall j :: 0 <= j < capacity ==> slots[oldest].serial <= slots[j].serial
      ensures order != [] && order[0] == oldest
    {
      var p := Contents();
      assert Owned(p.owners, oldest);
      var k :| 0 <= k < |order| && order[k] == oldest;
      var used := slots[..capacity];
      assert used[order[0]].serial <= used[order[k]].serial;
    }

    method ReleaseAt(index: nat, expected: Identity) returns (ok: bool)
      requires Valid()
      modifies this, slots
      ensures Valid() && capacity == old(capacity)
      ensures (Contents(), ok) == Release(old(Contents()), index, expected)
    {
      if index >= capacity || !slots[index].active || slots[index].identity != expected {
        return false;
      }
      ghost var before := Contents();
      ghost var stamped := slots[..capacity];
      assert Owned(before.owners, index) && order != [];
      slots[index] := EMPTY_SLOT;
      activeCount := activeCount - 1;
      ghost var owners := OwnersOf(slots[..capacity]);
      assert owners == before.owners[index := None];
      ReleaseEffect(before, stamped, index, allocationSerial);
      assert slots[..capacity] == stamped[index := EMPTY_SLOT];
      hide PoolOk, Stamped;
      order := KeepOwned(order, owners);
      return true;
    }

    method ReleaseExact(identity: Identity) returns (ok: bool)
      requires Valid()
      modifies this, slots
      ensures Valid() && capacity == old(capacity)
      ensures ok <==> Some(identity) in old(Contents()).owners
      ensures !ok ==> Contents() == old(Contents())
      ensures ok ==> exists i: nat ::
                && i < capacity && old(Contents()).owners[i] == Some(identity)
                && (forall j :: 0 <= j < i ==> old(Contents()).owners[j] != Some(identity))
                && Contents() == Release(old(Contents()), i, identity).0
    {
      var index := FindExact(identity);
      if index.None? {
        return false;
      }
      ok := ReleaseAt(index.value, identity);
    }

    /** Hands the slot to `identity` as the newest allocation. `activeCount` is left to the caller,
        who counts a slot that was free. */
    method Activate(index: nat, identity: Identity)
      requires Valid() && index < capacity && index == Choose(Contents())
      modifies this, slots
      ensures capacity == old(capacity) && activeCount == old(activeCount)
      ensures slots.Length == MAX_VOICES && allocationSerial <= MAX_SERIAL
      ensures Contents() == Allocate(old(Contents()), identity).0
      ensures |order| == activeCount + (if old(slots[index].active) then 0 else 1)
      ensures Stamped(order, slots[..capacity], allocationSerial)
    {
      var serial := NextAllocationSerial();
      ghost var before := Contents();
      ghost var stamped := slots[..capacity];
      slots[index] := AllocatorSlot(identity, serial, true);
      order := Remaining(before, index) + [index];
      assert slots[..capacity] == stamped[index := AllocatorSlot(identity, serial, true)];
      ActivateEffect(before, stamped, index, identity, serial);
    }

    /** A serial above every serial in use; at the counter's maximum the slots are re-ranked first,
        which no caller can observe. */
    method NextAllocationSerial() returns (serial: nat)
      requires Valid()
      modifies this, slots
      ensures Valid() && capacity == old(capacity) && activeCount == old(activeCount)
      ensures Contents() == old(Contents())
      ensures serial == allocationSerial && 1 <= serial <= MAX_SERIAL
      ensures Stamped(order, slots[..capacity], serial - 1)
      ensures OnlySerialsDiffer(old(slots[..]), slots[..])
    {
      if allocationSerial == MAX_SERIAL {
        RenormalizeAllocationSerials();
      }
      allocationSerial := allocationSerial + 1;
      return allocationSerial;
    }

    /** Ranks the active slots from oldest to newest as 1, 2, ...: the queue is what it was. */
    method RenormalizeAllocationSerials()
      requires Valid()
      modifies this, slots
      ensures Valid() && capacity == old(capacity) && activeCount == old(activeCount)
      ensures Contents() == old(Contents())
      ensures allocationSerial == activeCount < MAX_SERIAL
      ensures OnlySerialsDiffer(old(slots[..]), slots[..])
      ensures forall k :: 0 <= k < |order| ==> slots[order[k]].serial == k + 1
    {
      ghost var before := slots[..];
      QueueFits(order, capacity);
      assert Stamped(order, before[..capacity], MAX_SERIAL);
      hide Stamped, PoolOk, Renumbered;
      var nextRank := RankAll();
      allocationSerial := nextRank - 1;
      AllRanked(before, slots[..], order, capacity);
    }

    method RankAll() returns (nextRank: nat)
      requires slots.Length == MAX_VOICES && capacity <= MAX_VOICES && activeCount == |order|
      requires PoolOk(Pool(OwnersOf(slots[..capacity]), order))
      requires Stamped(order, slots[..capacity], MAX_SERIAL)
      modifies slots
      ensures nextRank == |order| + 1 && Renumbered(old(slots[..]), slots[..], order, |order|)
    {
      ghost var before := slots[..];
      nextRank := 1;
      var ranked := new bool[MAX_VOICES](i => false);
      NoneRanked(before, ranked[..], order, capacity);
      hide Renumbered, Marked, Stamped, PoolOk, OnlySerialsDiffer, OwnersOf;
      var rank := 0;
      while rank < activeCount
        modifies slots, ranked
        invariant 0 <= rank <= activeCount && nextRank == rank + 1
        invariant Renumbered(before, slots[..], order, rank)
        invariant Marked(ranked[..], order, rank)
      {
        var found := GiveRank(ranked, nextRank, before, rank);
        if !found {
          break;
        }
        nextRank := nextRank + 1;
        rank := rank + 1;
      }
    }

    /** One turn of the ranking. */
    method GiveRank(ranked: array<bool>, nextRank: nat, ghost before: seq<AllocatorSlot>, ghost rank: nat)
      returns (found: bool)
      requires slots.Length == MAX_VOICES == ranked.Length && capacity <= MAX_VOICES
      requires rank < |order| && |before| == slots.Length && nextRank == rank + 1 && Distinct(order)
      requires PoolOk(Pool(OwnersOf(before[..capacity]), order))
      requires Stamped(order, before[..capacity], MAX_SERIAL)
      requires Renumbered(before, slots[..], order, rank)
      requires Marked(ranked[..], order, rank)
      modifies slots, ranked
      ensures found
      ensures Renumbered(before, slots[..], order, rank + 1)
      ensures Marked(ranked[..], order, rank + 1)
    {
      hide Renumbered, Marked, Stamped, PoolOk, Distinct, OnlySerialsDiffer, OwnersOf;
      var oldest := OldestUnranked(ranked, before, rank);
      if oldest.None? {
        return false;
      }
      ghost var now, marked := slots[..], ranked[..];
      RankNext(before, now, marked, order, rank);
      slots[oldest.value] := slots[oldest.value].(serial := nextRank);
      ranked[oldest.value] := true;
      assert slots[..] == now[order[rank] := now[order[rank]].(serial := rank + 1)];
      assert ranked[..] == marked[order[rank] := true];
      return true;
    }

    /** The inner scan of the ranking: the unranked active slot with the smallest serial is the next
        one in the queue. */
    method OldestUnranked(ranked: array<bool>, ghost before: seq<AllocatorSlot>, ghost rank: nat)
      returns (oldest: Option<nat>)
      requires slots.Length == MAX_VOICES == ranked.Length && capacity <= MAX_VOICES
      requires rank < |order| && |before| == slots.Length
      requires PoolOk(Pool(OwnersOf(before[..capacity]), order))
      requires Stamped(order, before[..capacity], MAX_SERIAL)
      requires Renumbered(before, slots[..], order, rank)
      requires Marked(ranked[..], order, rank)
      ensures order[rank] < slots.Length && oldest == Some(order[rank])
    {
      oldest := None;
      var index := 0;
      while index < capacity
        invariant 0 <= index <= capacity
        invariant oldest.None? ==> forall j :: 0 <= j < index ==> !slots[j].active || ranked[j]
        invariant oldest.Some? ==>
                    && oldest.value < capacity
                    && slots[oldest.value].active && !ranked[oldest.value]
                    && forall j :: 0 <= j < index && slots[j].active && !ranked[j] ==>
                         slots[oldest.value].serial <= slots[j].serial
      {
        if slots[index].active && !ranked[index] {
          if oldest.None? || slots[index].serial < slots[oldest.value].serial {
            oldest := Some(index);
          }
        }
        index := index + 1;
      }
      ghost var owners := OwnersOf(before[..capacity]);
      ghost var next := order[rank];
      assert Owned(owners, next);
      assert slots[next].active && !ranked[next];
      assert Owned(owners, oldest.value);
      ghost var m :| 0 <= m < |order| && order[m] == oldest.value;
      assert rank <= m;
      assert before[..capacity][order[m]].serial <= before[..capacity][next].serial;
    }
  }

  ghost predicate OnlySerialsDiffer(before: seq<AllocatorSlot>, now: seq<AllocatorSlot>) {
    && |now| == |before|
    && forall i :: 0 <= i < |now| ==> now[i] == before[i].(serial := now[i].serial)
  }

  /** The first `rank` slots of the queue carry their ranks; the others still carry their serials. */
  ghost predicate Renumbered(before: seq<AllocatorSlot>, now: seq<AllocatorSlot>,
                             order: seq<nat>, rank: nat)
  {
    && rank <= |order|
    && OnlySerialsDiffer(before, now)
    && (forall k :: 0 <= k < |order| ==> order[k] < |now|)
    && (forall k :: 0 <= k < rank ==> now[order[k]].serial == k + 1)
    && (forall k :: rank <= k < |order| ==> now[order[k]] == before[order[k]])
  }

  ghost predicate Marked(ranked: seq<bool>, order: seq<nat>, rank: nat) {
    && rank <= |order|
    && (forall k :: 0 <= k < |order| ==> order[k] < |ranked|)
    && (forall k :: 0 <= k < rank ==> ranked[order[k]])
    && (forall k :: rank <= k < |order| ==> !ranked[order[k]])
  }

  lemma RankNext(before: seq<AllocatorSlot>, now: seq<AllocatorSlot>, ranked: seq<bool>,
                 order: seq<nat>, rank: nat)
    requires Distinct(order) && rank < |order|
    requires Renumbered(before, now, order, rank) && Marked(ranked, order, rank)
    ensures Renumbered(before, now[order[rank] := now[order[rank]].(serial := rank + 1)], order, rank + 1)
    ensures Marked(ranked[order[rank] := true], order, rank + 1)
  {
  }

  lemma AllRanked(before: seq<AllocatorSlot>, now: seq<AllocatorSlot>, order: seq<nat>, capacity: nat)
    requires capacity <= |before| && Renumbered(before, now, order, |order|)
    requires forall k :: 0 <= k < |order| ==> order[k] < capacity
    ensures OwnersOf(now[..capacity]) == OwnersOf(before[..capacity])
    ensures Stamped(order, now[..capacity], |order|) && OnlySerialsDiffer(before, now)
    ensures forall k :: 0 <= k < |order| ==> order[k] < |now| && now[order[k]].serial == k + 1
  {
  }

  lemma NoneRanked(before: seq<AllocatorSlot>, ranked: seq<bool>, order: seq<nat>, capacity: nat)
    requires capacity <= |before| == |ranked| && forall i :: 0 <= i < |ranked| ==> !ranked[i]
    requires forall k :: 0 <= k < |order| ==> order[k] < capacity
    ensures Renumbered(before, before, order, 0) && Marked(ranked, order, 0)
  {
  }

  lemma RemainingStamped(p: Pool, index: nat, slots: seq<AllocatorSlot>, limit: nat)
    requires PoolOk(p) && index < |p.owners| && index == Choose(p)
    requires Stamped(p.order, slots, limit)
    ensures Stamped(Remaining(p, index), slots, limit)
  {
    var rest := Remaining(p, index);
    if p.owners[index].Some? {
      forall k | 0 <= k < |rest| ensures rest[k] == p.order[k + 1] {
      }
    }
  }

  /** A queue of distinct slot numbers is no longer than the number of slots. */
  lemma {:induction false} QueueFits(order: seq<nat>, capacity: nat)
    requires Distinct(order)
    requires forall k :: 0 <= k < |order| ==> order[k] < capacity
    ensures |order| <= capacity
    decreases capacity
  {
    if order != [] {
      assert order[0] < capacity;
      if k :| 0 <= k < |order| && order[k] == capacity - 1 {
        QueueFits(order[..k] + order[k + 1..], capacity - 1);
      } else {
        QueueFits(order, capacity - 1);
      }
    }
  }

  /** Emptying an owned slot deletes it from the queue in place. */
  lemma ReleaseEffect(before: Pool, slots: seq<AllocatorSlot>, index: nat, limit: nat)
    requires PoolOk(before) && OwnersOf(slots) == before.owners && Stamped(before.order, slots, limit)
    requires Owned(before.owners, index)
    ensures
      var owners := before.owners[index := None];
      var order := KeepOwned(before.order, owners);
      && PoolOk(Pool(owners, order)) && OwnersOf(slots[index := EMPTY_SLOT]) == owners
      && |order| == |before.order| - 1
      && Stamped(order, slots[index := EMPTY_SLOT], limit)
  {
    var owners := before.owners[index := None];
    KeepOwnedIsPoolOk(before, owners);
    KeepOwnedStamped(before.order, owners, slots, limit);
    KeepOwnedFacts(before.order, owners);
    KeepOwnedDropsOne(before.order, owners, index);
    var order := KeepOwned(before.order, owners);
    forall k | 0 <= k < |order| ensures order[k] != index {
      assert order[k] in order;
    }
  }

  lemma StampedAnew(rest: seq<nat>, index: nat, slots: seq<AllocatorSlot>, slot: AllocatorSlot)
    requires index < |slots| && index !in rest && 1 <= slot.serial
    requires Stamped(rest, slots, slot.serial - 1)
    ensures Stamped(rest + [index], slots[index := slot], slot.serial)
  {
    var order, after := rest + [index], slots[index := slot];
    forall k | 0 <= k < |rest| ensures order[k] == rest[k] && after[order[k]] == slots[rest[k]] {
      assert rest[k] in rest;
    }
  }

  /** Stamping a slot with a newer serial puts it at the end of the queue. */
  lemma ActivateEffect(before: Pool, slots: seq<AllocatorSlot>, index: nat, identity: Identity,
                       serial: nat)
    requires PoolOk(before) && |slots| == |before.owners|
    requires index < |slots| && index == Choose(before)
    requires 1 <= serial && Stamped(before.order, slots, serial - 1)
    requires forall i :: 0 <= i < |slots| && i != index ==> OwnerOf(slots[i]) == before.owners[i]
    ensures
      var after := slots[index := AllocatorSlot(identity, serial, true)];
      && OwnersOf(after) == before.owners[index := Some(identity)]
      && Stamped(Remaining(before, index) + [index], after, serial)
  {
    RemainingStamped(before, index, slots, serial - 1);
    StampedAnew(Remaining(before, index), index, slots, AllocatorSlot(identity, serial, true));
  }
}
