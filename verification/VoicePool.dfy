/** Vocabulary shared by the voice pipeline, and the pool of voices seen as a queue:
    who owns each slot, and in which order the owned slots were allocated. */
module VoicePool {
  import opened Wrappers

  /** A CLAP note address; -1 in a pattern matches anything. */
  datatype Identity = Identity(noteId: int, port: int, channel: int, key: int)

  const MAX_VOICES: nat := 64
  const NOBODY := Identity(-1, -1, -1, -1)

  predicate FieldMatches(pattern: int, value: int) {
    pattern == -1 || pattern == value
  }

  predicate Matches(pattern: Identity, id: Identity) {
    && FieldMatches(pattern.noteId, id.noteId)
    && FieldMatches(pattern.port, id.port)
    && FieldMatches(pattern.channel, id.channel)
    && FieldMatches(pattern.key, id.key)
  }

  type Owners = seq<Option<Identity>>

  /** `order` lists the owned slots from the longest allocated to the newest. */
  datatype Pool = Pool(owners: Owners, order: seq<nat>)

  datatype Allocation = NoVoice | Allocated(index: nat, replaced: Option<Identity>)

  predicate Owned(owners: Owners, i: nat) {
    i < |owners| && owners[i].Some?
  }

  ghost predicate Distinct(order: seq<nat>) {
    forall a, b :: 0 <= a < b < |order| ==> order[a] != order[b]
  }

  ghost predicate PoolOk(p: Pool) {
    && Distinct(p.order)
    && (forall k :: 0 <= k < |p.order| ==> Owned(p.owners, p.order[k]))
    && (forall i: nat :: Owned(p.owners, i) ==> i in p.order)
  }

  /** The order that is left once some owners have gone. */
  function KeepOwned(order: seq<nat>, owners: Owners): seq<nat> {
    if order == [] then []
    else (if Owned(owners, order[0]) then [order[0]] else []) + KeepOwned(order[1..], owners)
  }

  /** First unowned slot at or after `i`, or the number of slots. */
  function FirstFree(owners: Owners, i: nat): (r: nat)
    requires i <= |owners|
    ensures i <= r <= |owners|
    ensures r < |owners| ==> owners[r].None?
    ensures forall j :: i <= j < r ==> owners[j].Some?
    decreases |owners| - i
  {
    if i == |owners| || owners[i].None? then i else FirstFree(owners, i + 1)
  }

  /** The first free slot if there is one, else the slot at the head of the queue. */
  function Choose(p: Pool): (r: nat)
    requires PoolOk(p) && 0 < |p.owners|
    ensures r < |p.owners|
    ensures p.owners[r].None? ==> forall j :: 0 <= j < r ==> p.owners[j].Some?
    ensures p.owners[r].Some? ==>
              && p.order != [] && r == p.order[0]
              && forall j :: 0 <= j < |p.owners| ==> p.owners[j].Some?
  {
    var free := FirstFree(p.owners, 0);
    if free < |p.owners| then free
    else
      assert Owned(p.owners, 0);
      assert 0 in p.order;
      assert Owned(p.owners, p.order[0]);
      p.order[0]
  }

  /** The queue without the slot about to be reused. */
  function Remaining(p: Pool, i: nat): (rest: seq<nat>)
    requires PoolOk(p) && i < |p.owners|
    requires p.owners[i].Some? ==> p.order != [] && i == p.order[0]
    ensures i !in rest && Distinct(rest)
    ensures forall k :: 0 <= k < |rest| ==> Owned(p.owners, rest[k])
    ensures forall j: nat :: Owned(p.owners, j) && j != i ==> j in rest
  {
    if p.owners[i].Some? then
      assert p.order == [p.order[0]] + p.order[1..];
      p.order[1..]
    else
      p.order
  }

  function Allocate(p: Pool, id: Identity): (r: (Pool, Allocation))
    requires PoolOk(p)
    ensures PoolOk(r.0) && |r.0.owners| == |p.owners|
  {
    if |p.owners| == 0 then (p, NoVoice)
    else
      var i := Choose(p);
      var p' := Pool(p.owners[i := Some(id)], Remaining(p, i) + [i]);
      AllocateKeepsPoolOk(p, id, p');
      (p', Allocated(i, p.owners[i]))
  }

  function Release(p: Pool, i: nat, expected: Identity): (r: (Pool, bool))
    requires PoolOk(p)
    ensures PoolOk(r.0) && |r.0.owners| == |p.owners|
  {
    if Owned(p.owners, i) && p.owners[i].value == expected then
      var owners := p.owners[i := None];
      KeepOwnedIsPoolOk(p, owners);
      (Pool(owners, KeepOwned(p.order, owners)), true)
    else (p, false)
  }

  lemma AllocateKeepsPoolOk(p: Pool, id: Identity, p': Pool)
    requires PoolOk(p) && 0 < |p.owners|
    requires p' == Pool(p.owners[Choose(p) := Some(id)], Remaining(p, Choose(p)) + [Choose(p)])
    ensures PoolOk(p')
  {
    var i := Choose(p);
    var rest := Remaining(p, i);
    forall k | 0 <= k < |rest| ensures rest[k] != i {
      assert rest[k] in rest;
    }
    forall j: nat | Owned(p'.owners, j) ensures j in p'.order {
      if j == i {
        assert p'.order[|rest|] == i;
      } else {
        assert Owned(p.owners, j);
        var k :| 0 <= k < |rest| && rest[k] == j;
        assert p'.order[k] == j;
      }
    }
  }

  lemma {:induction false} KeepOwnedFacts(order: seq<nat>, owners: Owners)
    requires Distinct(order)
    ensures Distinct(KeepOwned(order, owners))
    ensures forall j :: j in KeepOwned(order, owners) <==> j in order && Owned(owners, j)
  {
    if order != [] {
      assert forall j :: j in order <==> j == order[0] || j in order[1..];
      KeepOwnedFacts(order[1..], owners);
      var rest := KeepOwned(order[1..], owners);
      assert order[0] !in rest;
      assert Distinct([order[0]] + rest);
      assert [] + rest == rest;
      assert Distinct([] + rest);
    }
  }

  /** Those left stand in the order they stood in: what is left of the front comes before what is left
      of the back, wherever the queue is cut. */
  lemma {:induction false} KeepOwnedOrder(front: seq<nat>, back: seq<nat>, owners: Owners)
    ensures KeepOwned(front + back, owners) == KeepOwned(front, owners) + KeepOwned(back, owners)
  {
    if front == [] {
      assert front + back == back;
    } else {
      KeepOwnedOrder(front[1..], back, owners);
      assert (front + back)[0] == front[0] && (front + back)[1..] == front[1..] + back;
    }
  }

  lemma KeepOwnedIsPoolOk(p: Pool, owners: Owners)
    requires PoolOk(p) && |owners| == |p.owners|
    requires forall i :: 0 <= i < |owners| && owners[i].Some? ==> p.owners[i].Some?
    ensures PoolOk(Pool(owners, KeepOwned(p.order, owners)))
  {
    KeepOwnedFacts(p.order, owners);
    var order := KeepOwned(p.order, owners);
    forall k | 0 <= k < |order| ensures Owned(owners, order[k]) {
      assert order[k] in order;
    }
    forall i: nat | Owned(owners, i) ensures i in order {
      assert Owned(p.owners, i);
    }
  }

  /** Nothing leaves the queue while every queued slot keeps an owner. */
  lemma {:induction false} KeepOwnedAll(order: seq<nat>, owners: Owners)
    requires forall k :: 0 <= k < |order| ==> Owned(owners, order[k])
    ensures KeepOwned(order, owners) == order
  {
    if order != [] {
      assert Owned(owners, order[0]);
      KeepOwnedAll(order[1..], owners);
    }
  }

  /** Releases may be carried out one after the other or all at once. */
  lemma {:induction false} KeepOwnedTwice(order: seq<nat>, before: Owners, after: Owners)
    requires |before| == |after|
    requires forall i :: 0 <= i < |after| && after[i].Some? ==> before[i].Some?
    ensures KeepOwned(KeepOwned(order, before), after) == KeepOwned(order, after)
  {
    if order != [] {
      KeepOwnedTwice(order[1..], before, after);
      var rest := KeepOwned(order[1..], before);
      assert ([order[0]] + rest)[1..] == rest;
      assert [] + rest == rest;
    }
  }

  // ---- Runs of the pool: the queue really is the age order --------------------------------

  datatype PoolOp = Take(id: Identity) | Give(index: nat, expected: Identity)

  /** A pool whose slots remember the number of the operation that allocated them. */
  datatype Aged = Aged(pool: Pool, born: seq<nat>, clock: nat)

  function StepAged(a: Aged, op: PoolOp): (r: Aged)
    requires PoolOk(a.pool) && |a.born| == |a.pool.owners|
    ensures PoolOk(r.pool) && |r.born| == |r.pool.owners| == |a.pool.owners|
  {
    match op
    case Take(id) =>
      var (p, allocation) := Allocate(a.pool, id);
      Aged(p,
           if allocation.Allocated? then a.born[allocation.index := a.clock] else a.born,
           a.clock + 1)
    case Give(i, expected) =>
      Aged(Release(a.pool, i, expected).0, a.born, a.clock + 1)
  }

  function RunAged(a: Aged, ops: seq<PoolOp>): (r: Aged)
    requires PoolOk(a.pool) && |a.born| == |a.pool.owners|
    ensures PoolOk(r.pool) && |r.born| == |r.pool.owners| == |a.pool.owners|
    decreases |ops|
  {
    if ops == [] then a else RunAged(StepAged(a, ops[0]), ops[1..])
  }

  function NewPool(capacity: nat): (p: Pool)
    ensures PoolOk(p)
  {
    Pool(seq(capacity, i => None), [])
  }

  /** The queue runs from the oldest birth to the newest, all of them in the past. */
  ghost predicate Sorted(order: seq<nat>, born: seq<nat>, clock: nat) {
    && (forall k :: 0 <= k < |order| ==> order[k] < |born| && born[order[k]] < clock)
    && (forall j, k :: 0 <= j < k < |order| ==> born[order[j]] < born[order[k]])
  }

  ghost predicate ByAge(a: Aged) {
    PoolOk(a.pool) && |a.born| == |a.pool.owners| && Sorted(a.pool.order, a.born, a.clock)
  }

  lemma PrependSorted(i: nat, rest: seq<nat>, born: seq<nat>, clock: nat)
    requires Sorted(rest, born, clock) && i < |born| && born[i] < clock
    requires forall j :: j in rest ==> j < |born| && born[i] < born[j]
    ensures Sorted([i] + rest, born, clock)
  {
    var order := [i] + rest;
    forall j, k | 0 <= j < k < |order| ensures born[order[j]] < born[order[k]] {
      assert order[k] == rest[k - 1] && rest[k - 1] in rest;
      if j > 0 {
        assert order[j] == rest[j - 1];
      }
    }
  }

  lemma {:induction false} KeepOwnedSorted(order: seq<nat>, owners: Owners, born: seq<nat>, clock: nat)
    requires Sorted(order, born, clock)
    ensures Sorted(KeepOwned(order, owners), born, clock)
    ensures forall j :: j in KeepOwned(order, owners) ==> j in order
  {
    if order != [] {
      var tail := order[1..];
      assert Sorted(tail, born, clock) by {
        assert forall k :: 0 <= k < |tail| ==> tail[k] == order[k + 1];
      }
      KeepOwnedSorted(tail, owners, born, clock);
      var rest := KeepOwned(tail, owners);
      assert [] + rest == rest;
      forall j | j in rest ensures j in order && j < |born| && born[order[0]] < born[j] {
        var m :| 0 <= m < |tail| && tail[m] == j;
        assert order[m + 1] == j;
      }
      PrependSorted(order[0], rest, born, clock);
    }
  }

  lemma AppendSorted(rest: seq<nat>, i: nat, born: seq<nat>, clock: nat)
    requires Sorted(rest, born, clock) && i !in rest && i < |born|
    ensures Sorted(rest + [i], born[i := clock], clock + 1)
  {
    forall k | 0 <= k < |rest| ensures born[i := clock][rest[k]] == born[rest[k]] {
      assert rest[k] in rest;
    }
  }

  lemma StepKeepsByAge(a: Aged, op: PoolOp)
    requires ByAge(a)
    ensures ByAge(StepAged(a, op))
  {
    match op
    case Take(id) =>
      if 0 < |a.pool.owners| {
        var i := Choose(a.pool);
        AppendSorted(Remaining(a.pool, i), i, a.born, a.clock);
      }
    case Give(i, expected) =>
      if Owned(a.pool.owners, i) {
        KeepOwnedSorted(a.pool.order, a.pool.owners[i := None], a.born, a.clock);
      }
  }

  lemma {:induction false} RunKeepsByAge(a: Aged, ops: seq<PoolOp>)
    requires ByAge(a)
    ensures ByAge(RunAged(a, ops))
    decreases |ops|
  {
    if ops != [] {
      StepKeepsByAge(a, ops[0]);
      RunKeepsByAge(StepAged(a, ops[0]), ops[1..]);
    }
  }

  /** After any run of allocations and releases, an allocation takes the lowest free slot when
      there is one, and otherwise steals exactly the voice that was allocated longest ago. */
  lemma StealsTheOldest(capacity: nat, ops: seq<PoolOp>, id: Identity)
    requires 0 < capacity
    ensures
      var a := RunAged(Aged(NewPool(capacity), seq(capacity, i => 0), 1), ops);
      var allocation := Allocate(a.pool, id).1;
      && allocation.Allocated? && allocation.index < capacity
      && (allocation.replaced.None? <==> exists j: nat :: j < capacity && a.pool.owners[j].None?)
      && (allocation.replaced.None? ==>
            && a.pool.owners[allocation.index].None?
            && forall j: nat :: j < allocation.index ==> a.pool.owners[j].Some?)
      && (allocation.replaced.Some? ==>
            && allocation.replaced == a.pool.owners[allocation.index]
            && forall j: nat :: j < capacity && j != allocation.index ==>
                 a.born[allocation.index] < a.born[j])
  {
    var start := Aged(NewPool(capacity), seq(capacity, i => 0), 1);
    RunKeepsByAge(start, ops);
    var a := RunAged(start, ops);
    var i := Choose(a.pool);
    if a.pool.owners[i].Some? {
      assert i == a.pool.order[0];
      forall j: nat | j < capacity && j != i ensures a.born[i] < a.born[j] {
        assert Owned(a.pool.owners, j);
        var k :| 0 <= k < |a.pool.order| && a.pool.order[k] == j;
      }
    }
  }
}
