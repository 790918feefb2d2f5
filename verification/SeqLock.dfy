/** A snapshot of several atomic words guarded by a sequence counter: one writer, any readers, one
    atomic load or store to a step. The counter is unbounded and memory is sequentially consistent. */
module SeqLock {
  import opened Wrappers

  /** `left` are the words still to be stored before the update is whole. */
  datatype Update<W> = Update(next: seq<W>, left: seq<nat>)

  /** `history` remembers every whole snapshot published so far. */
  datatype Lock<W> = Lock(sequence: nat, words: seq<W>, history: seq<seq<W>>, writing: Option<Update<W>>)

  /** A read in progress: the counter it started from and the words loaded so far. */
  datatype Attempt<W> = Attempt(before: nat, got: seq<W>)

  ghost predicate LockOk<W>(l: Lock<W>, n: nat) {
    && |l.words| == n && |l.history| == l.sequence / 2 + 1
    && (forall i :: 0 <= i < |l.history| ==> |l.history[i]| == n)
    && (l.sequence % 2 == 0 <==> l.writing.None?)
    && (l.writing.None? ==> l.words == l.history[|l.history| - 1])
    && (l.writing.Some? ==>
         && |l.writing.value.next| == n
         && forall i :: 0 <= i < n && i !in l.writing.value.left ==> l.words[i] == l.writing.value.next[i])
  }

  /** If the counter has not moved, what was read is the newest snapshot as far as it goes. */
  ghost predicate AttemptOk<W>(a: Attempt<W>, l: Lock<W>, n: nat)
    requires LockOk(l, n)
  {
    && a.before % 2 == 0 && a.before <= l.sequence && |a.got| <= n
    && (a.before == l.sequence ==> a.got == l.history[|l.history| - 1][..|a.got|])
  }

  // ---- Steps ----------------------------------------------------------------------------------------

  /** The counter becomes odd; an update that stores only some words names them in `order`. */
  function BeginWrite<W>(l: Lock<W>, next: seq<W>, order: seq<nat>): Lock<W> {
    l.(sequence := if l.sequence % 2 == 0 then l.sequence + 1 else l.sequence,
       writing := Some(Update(next, order)))
  }

  function StoreWord<W>(l: Lock<W>): Lock<W>
    requires l.writing.Some? && |l.words| == |l.writing.value.next|
  {
    var w := l.writing.value;
    if w.left == [] || w.left[0] >= |l.words| then l
    else l.(words := l.words[w.left[0] := w.next[w.left[0]]], writing := Some(w.(left := w.left[1..])))
  }

  function EndWrite<W>(l: Lock<W>): Lock<W> {
    if l.writing.Some? && l.writing.value.left == []
    then Lock(l.sequence + 1, l.words, l.history + [l.writing.value.next], None)
    else l
  }

  /** None: an update is in progress, try again. */
  function BeginRead<W>(l: Lock<W>): Option<Attempt<W>> {
    if l.sequence % 2 == 0 then Some(Attempt(l.sequence, [])) else None
  }

  function LoadWord<W>(a: Attempt<W>, l: Lock<W>): Attempt<W> {
    if |a.got| < |l.words| then a.(got := a.got + [l.words[|a.got|]]) else a
  }

  predicate ReadSucceeds<W>(a: Attempt<W>, l: Lock<W>) {
    |a.got| == |l.words| && l.sequence == a.before && l.sequence % 2 == 0
  }

  // ---- What the steps keep ------------------------------------------------------------------------------

  function InOrder(n: nat): (r: seq<nat>)
    ensures |r| == n && (forall i :: 0 <= i < n ==> r[i] == i)
    ensures forall i :: 0 <= i < n ==> i in r
  {
    if n == 0 then [] else InOrder(n - 1) + [n - 1]
  }

  /** An update may begin whenever the words it leaves out are as they were. */
  lemma BeginKeepsOk<W>(l: Lock<W>, n: nat, next: seq<W>, order: seq<nat>)
    requires LockOk(l, n) && |next| == n
    requires forall i :: 0 <= i < n && i !in order ==> l.words[i] == next[i]
    ensures LockOk(BeginWrite(l, next, order), n)
    ensures BeginWrite(l, next, order).history == l.history
  {
  }

  lemma StoreKeepsOk<W>(l: Lock<W>, n: nat)
    requires LockOk(l, n) && l.writing.Some?
    ensures LockOk(StoreWord(l), n)
    ensures StoreWord(l).history == l.history && StoreWord(l).sequence == l.sequence
    ensures StoreWord(l).writing.Some? && StoreWord(l).writing.value.next == l.writing.value.next
  {
    var left := l.writing.value.left;
    if left != [] && left[0] < n {
      var r := StoreWord(l);
      forall i | 0 <= i < n && i !in left[1..] ensures r.words[i] == l.writing.value.next[i] {
        assert i == left[0] || i !in left;
      }
    }
  }

  lemma EndKeepsOk<W>(l: Lock<W>, n: nat)
    requires LockOk(l, n)
    ensures LockOk(EndWrite(l), n)
    ensures l.writing.Some? && l.writing.value.left == [] ==>
              EndWrite(l).history == l.history + [l.writing.value.next] && EndWrite(l).writing.None?
  {
    if l.writing.Some? && l.writing.value.left == [] {
      assert l.words == l.writing.value.next;
    }
  }

  /** A read in progress survives every step of the writer: either the counter has moved for good, or
      nothing it saw has changed. */
  lemma WriterKeepsAttempt<W>(a: Attempt<W>, l: Lock<W>, r: Lock<W>, n: nat)
    requires LockOk(l, n) && LockOk(r, n) && AttemptOk(a, l, n)
    requires l.sequence <= r.sequence
    requires l.sequence == r.sequence && l.sequence % 2 == 0 ==> r == l
    ensures AttemptOk(a, r, n)
  {
  }

  lemma BeginReadIsOk<W>(l: Lock<W>, n: nat)
    requires LockOk(l, n)
    ensures BeginRead(l).Some? ==> AttemptOk(BeginRead(l).value, l, n)
  {
  }

  lemma LoadKeepsOk<W>(a: Attempt<W>, l: Lock<W>, n: nat)
    requires LockOk(l, n) && AttemptOk(a, l, n)
    ensures AttemptOk(LoadWord(a, l), l, n)
  {
    if |a.got| < n && a.before == l.sequence {
      var last := l.history[|l.history| - 1];
      assert last[..|a.got| + 1] == last[..|a.got|] + [last[|a.got|]];
    }
  }

  /** A successful read is one whole published snapshot, and the newest one when it completes. */
  lemma ReadIsWhole<W>(a: Attempt<W>, l: Lock<W>, n: nat)
    requires LockOk(l, n) && AttemptOk(a, l, n) && ReadSucceeds(a, l)
    ensures a.got == l.history[|l.history| - 1] == l.history[a.before / 2] && |l.history| == a.before / 2 + 1
  {
    assert a.got == a.got[..n];
  }

  // ---- Undisturbed ----------------------------------------------------------------------------------------

  function LoadWords<W>(a: Attempt<W>, l: Lock<W>, k: nat): Attempt<W> {
    if k == 0 then a else LoadWord(LoadWords(a, l, k - 1), l)
  }

  function StoreWords<W>(l: Lock<W>, k: nat): (r: Lock<W>)
    requires l.writing.Some? && |l.words| == |l.writing.value.next|
    ensures r.writing.Some? && |r.words| == |r.writing.value.next|
  {
    if k == 0 then l else StoreWord(StoreWords(l, k - 1))
  }

  lemma {:induction false} LoadsSoFar<W>(a: Attempt<W>, l: Lock<W>, k: nat)
    requires a.got == [] && k <= |l.words|
    ensures LoadWords(a, l, k) == a.(got := l.words[..k])
  {
    if 0 < k {
      LoadsSoFar(a, l, k - 1);
      assert l.words[..k] == l.words[..k - 1] + [l.words[k - 1]];
    }
  }

  /** A read that no update meets succeeds with the words of the newest snapshot. */
  lemma UndisturbedReadSucceeds<W>(l: Lock<W>, n: nat)
    requires LockOk(l, n) && l.writing.None?
    ensures BeginRead(l).Some?
    ensures
      var a := LoadWords(BeginRead(l).value, l, n);
      ReadSucceeds(a, l) && a.got == l.history[|l.history| - 1]
  {
    LoadsSoFar(BeginRead(l).value, l, n);
    assert l.words[..n] == l.words;
  }

  lemma {:induction false} StoresSoFar<W>(l: Lock<W>, n: nat, k: nat)
    requires LockOk(l, n) && l.writing.Some? && l.writing.value.left == InOrder(n) && k <= n
    ensures
      var r := StoreWords(l, k);
      && LockOk(r, n) && r.history == l.history && r.sequence == l.sequence
      && r.writing == Some(Update(l.writing.value.next, InOrder(n)[k..]))
  {
    if 0 < k {
      StoresSoFar(l, n, k - 1);
      StoreKeepsOk(StoreWords(l, k - 1), n);
    }
  }

  /** An update stores its words one by one and then is the newest snapshot. */
  lemma UpdatePublishes<W>(l: Lock<W>, n: nat, next: seq<W>)
    requires LockOk(l, n) && l.writing.None? && |next| == n
    ensures
      var begun := BeginWrite(l, next, InOrder(n));
      var r := EndWrite(StoreWords(begun, n));
      && LockOk(r, n) && r.writing.None? && r.words == next
      && r.history == l.history + [next] && r.sequence == l.sequence + 2
  {
    var begun := BeginWrite(l, next, InOrder(n));
    BeginKeepsOk(l, n, next, InOrder(n));
    StoresSoFar(begun, n, n);
    EndKeepsOk(StoreWords(begun, n), n);
  }
}
