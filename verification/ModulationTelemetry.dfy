/** The drop-newest telemetry queue from the audio thread to the editor: one producer, one consumer, one
    atomic load or store to a step, sequentially consistent, the drop counter unbounded. */
module ModulationTelemetry {
  import opened Wrappers
  import opened VoicePool
  import opened RealtimeHandoff
  import opened TelemetryView

  const CAPACITY: nat := 128

  /** Every push there was, in order. */
  datatype Outcome = Accepted(record: Record) | Dropped

  /** A record with the number of its push. */
  datatype Stamped = Stamped(record: Record, at: nat)

  const NOTHING := Stamped(Reset, 0)

  function Stamps(history: seq<Outcome>): seq<Stamped> {
    if history == [] then []
    else
      var n := |history| - 1;
      Stamps(history[..n]) + if history[n].Accepted? then [Stamped(history[n].record, n)] else []
  }

  function Drops(history: seq<Outcome>): (n: nat)
    ensures n <= |history|
  {
    if history == [] then 0
    else Drops(history[..|history| - 1]) + if history[|history| - 1].Dropped? then 1 else 0
  }

  function Records(stamped: seq<Stamped>): (r: seq<Record>)
    ensures |r| == |stamped| && forall i :: 0 <= i < |r| ==> r[i] == stamped[i].record
  {
    seq(|stamped|, i requires 0 <= i < |stamped| => stamped[i].record)
  }

  // ---- Threads -------------------------------------------------------------------------------------------

  datatype Producer =
    | Resting
    | Storing(record: Record)
    | Publishing(record: Record)
    | Counting

  /** `mark` and `seen` are the numbers of pushes there had been when the copy and the drop count were
      taken. */
  datatype Consumer =
    | Away
    | Copying(cursor: nat, end: nat, got: seq<Stamped>, mark: nat)
    | Sending(got: seq<Stamped>, dropped: nat, mark: nat, seen: nat)
    | Consuming(got: seq<Stamped>)

  /** `consumed` has left the ring, `delivered` has reached the view, and `applied` are the records the
      view took in, each with the drop count it was taken in under. */
  datatype State = State(
    ring: Ring<Stamped>,
    dropped: nat,
    published: bool,
    producer: Producer,
    consumer: Consumer,
    history: seq<Outcome>,
    consumed: seq<Stamped>,
    delivered: seq<Stamped>,
    view: View,
    applied: seq<(Stamped, nat)>)

  ghost function Initial(): (s: State)
    ensures Ok(s)
  {
    State(Ring(seq(CAPACITY, i => NOTHING), 0, 0), 0, false, Resting, Away, [], [], [], EMPTY_VIEW, [])
  }

  datatype Action =
    | Push(record: Record) | ResetTelemetry | StoreRecord | Publish | CountDrop
    | CopyBegins | CopyRecord | ReadDropped | Send(ok: bool) | Consume

  /** The look at the read index that decides whether the record goes in. */
  function Look(s: State, record: Record): State {
    if Full(s.ring) then s.(producer := Counting) else s.(producer := Storing(record))
  }

  function StepProducer(s: State, a: Action): State
    requires RingOk(s.ring)
  {
    var t := s.producer;
    match a
    case Push(record) => if t.Resting? then Look(s, record) else s
    case ResetTelemetry => if t.Resting? && s.published then Look(s, Reset) else s
    case StoreRecord =>
      if !t.Storing? then s
      else s.(ring := s.ring.(slots := s.ring.slots[s.ring.write := Stamped(t.record, |s.history|)]),
              producer := Publishing(t.record))
    case Publish =>
      if !t.Publishing? then s
      else s.(ring := s.ring.(write := Increment(s.ring.write, |s.ring.slots|)),
              history := s.history + [Accepted(t.record)], published := true, producer := Resting)
    case CountDrop =>
      if !t.Counting? then s
      else s.(dropped := s.dropped + 1, history := s.history + [Dropped], producer := Resting)
    case _ => s
  }

  function Taken(got: seq<Stamped>, dropped: nat): (r: seq<(Stamped, nat)>)
    ensures |r| == |got| && forall i :: 0 <= i < |r| ==> r[i] == (got[i], dropped)
  {
    seq(|got|, i requires 0 <= i < |got| => (got[i], dropped))
  }

  /** The message arrives and the view applies it. */
  function Deliver(s: State, got: seq<Stamped>, dropped: nat): State {
    s.(consumer := Consuming(got), delivered := s.delivered + got,
       view := Apply(s.view, Message(dropped, Records(got))),
       applied := if dropped == s.view.dropped then s.applied + Taken(got, dropped) else s.applied)
  }

  function StepConsumer(s: State, a: Action): State
    requires RingOk(s.ring)
  {
    var t := s.consumer;
    match a
    case CopyBegins => if t.Away? then s.(consumer := Copying(s.ring.read, s.ring.write, [], |s.history|)) else s
    case CopyRecord =>
      if !t.Copying? || t.cursor == t.end || t.cursor >= |s.ring.slots| then s
      else s.(consumer := t.(cursor := Increment(t.cursor, |s.ring.slots|), got := t.got + [s.ring.slots[t.cursor]]))
    case ReadDropped =>
      if !t.Copying? || t.cursor != t.end then s
      else s.(consumer := Sending(t.got, s.dropped, t.mark, |s.history|))
    case Send(ok) =>
      if !t.Sending? then s
      else if !ok then s.(consumer := Away)
      else Deliver(s, t.got, t.dropped)
    case Consume =>
      if !t.Consuming? then s
      else s.(ring := s.ring.(read := Wrapped(s.ring.read + |t.got|, |s.ring.slots|)),
              consumed := s.consumed + t.got, consumer := Away)
    case _ => s
  }

  predicate ForProducer(a: Action) {
    a.Push? || a.ResetTelemetry? || a.StoreRecord? || a.Publish? || a.CountDrop?
  }

  ghost function Step(s: State, a: Action): State
    requires Ok(s)
  {
    if ForProducer(a) then StepProducer(s, a) else StepConsumer(s, a)
  }

  ghost function Run(s: State, steps: seq<Action>): (r: State)
    requires Ok(s)
    ensures Ok(r)
    decreases |steps|
  {
    if steps == [] then s
    else
      StepKeepsOk(s, steps[0]);
      Run(Step(s, steps[0]), steps[1..])
  }

  // ---- Invariant -------------------------------------------------------------------------------------

  ghost predicate ProducerOk(s: State)
    requires RingOk(s.ring)
  {
    match s.producer
    case Storing(_) => !Full(s.ring)
    case Publishing(record) => !Full(s.ring) && s.ring.slots[s.ring.write] == Stamped(record, |s.history|)
    case _ => true
  }

  ghost predicate ConsumerOk(s: State)
    requires RingOk(s.ring)
  {
    var c := Contents(s.ring);
    match s.consumer
    case Away => s.delivered == s.consumed
    case Copying(cursor, end, got, mark) =>
      && s.delivered == s.consumed && mark <= |s.history|
      && got <= c && cursor < |s.ring.slots| && cursor == Wrapped(s.ring.read + |got|, |s.ring.slots|)
      && s.consumed <= Stamps(s.history[..mark])
      && (var n := |Stamps(s.history[..mark])| - |s.consumed|;
          |got| <= n <= |c| && end == Wrapped(s.ring.read + n, |s.ring.slots|))
    case Sending(got, dropped, mark, seen) =>
      && s.delivered == s.consumed && mark <= seen <= |s.history| && got <= c
      && s.consumed + got == Stamps(s.history[..mark]) && dropped == Drops(s.history[..seen])
      && s.view.dropped <= dropped
    case Consuming(got) => got <= c && s.delivered == s.consumed + got
  }

  /** Consumed batches followed by what is in the ring are exactly the accepted pushes, in order; the
      counter has counted the others; and the view has been delivered what was consumed. */
  ghost predicate Ok(s: State) {
    && RingOk(s.ring) && |s.ring.slots| == CAPACITY
    && Stamps(s.history) == s.consumed + Contents(s.ring)
    && s.dropped == Drops(s.history) && s.view.dropped <= s.dropped
    && ProducerOk(s) && ConsumerOk(s)
  }

  // ---- Histories -------------------------------------------------------------------------------------

  lemma OneMore(history: seq<Outcome>, o: Outcome)
    ensures Stamps(history + [o]) ==
            Stamps(history) + if o.Accepted? then [Stamped(o.record, |history|)] else []
    ensures Drops(history + [o]) == Drops(history) + if o.Dropped? then 1 else 0
  {
    assert (history + [o])[..|history + [o]| - 1] == history;
  }

  lemma EarlierStays(history: seq<Outcome>, o: Outcome)
    ensures forall m :: 0 <= m <= |history| ==> (history + [o])[..m] == history[..m]
  {
  }

  lemma {:induction false} EarlierIsPrefix(history: seq<Outcome>, m: nat)
    requires m <= |history|
    ensures Stamps(history[..m]) <= Stamps(history) && Drops(history[..m]) <= Drops(history)
    decreases |history|
  {
    if m == |history| {
      assert history[..m] == history;
    } else {
      var shorter := history[..|history| - 1];
      EarlierIsPrefix(shorter, m);
      assert shorter[..m] == history[..m];
    }
  }

  // ---- Every step ------------------------------------------------------------------------------------

  lemma LookKeepsOk(s: State, a: Action)
    requires Ok(s) && (a.Push? || a.ResetTelemetry?)
    ensures Ok(StepProducer(s, a))
  {
    hide Contents, Stamps, Drops;
  }

  lemma StoreKeepsOk(s: State)
    requires Ok(s)
    ensures Ok(StepProducer(s, StoreRecord))
  {
    hide Stamps, Drops;
    if s.producer.Storing? {
      StoringIsUnseen(s.ring, Stamped(s.producer.record, |s.history|));
    }
  }

  lemma HistoryGrowsForConsumer(s: State, r: State, o: Outcome)
    requires RingOk(s.ring) && RingOk(r.ring) && ConsumerOk(s)
    requires r.history == s.history + [o] && r.consumer == s.consumer && r.view == s.view
    requires r.consumed == s.consumed && r.delivered == s.delivered
    requires |r.ring.slots| == |s.ring.slots| && r.ring.read == s.ring.read && Contents(s.ring) <= Contents(r.ring)
    ensures ConsumerOk(r)
  {
    hide Contents, Stamps, Drops;
    OneMore(s.history, o);
    EarlierStays(s.history, o);
  }

  lemma PublishKeepsOk(s: State)
    requires Ok(s)
    ensures Ok(StepProducer(s, Publish))
  {
    hide Contents, Stamps, Drops, ConsumerOk;
    if s.producer.Publishing? {
      var r := StepProducer(s, Publish);
      PublishingAppends(s.ring);
      OneMore(s.history, Accepted(s.producer.record));
      EarlierStays(s.history, Accepted(s.producer.record));
      HistoryGrowsForConsumer(s, r, Accepted(s.producer.record));
    }
  }

  lemma CountDropKeepsOk(s: State)
    requires Ok(s)
    ensures Ok(StepProducer(s, CountDrop))
  {
    hide Contents, Stamps, Drops, ConsumerOk;
    if s.producer.Counting? {
      OneMore(s.history, Dropped);
      EarlierStays(s.history, Dropped);
      HistoryGrowsForConsumer(s, StepProducer(s, CountDrop), Dropped);
    }
  }

  lemma CopyKeepsOk(s: State, a: Action)
    requires Ok(s) && (a.CopyBegins? || a.CopyRecord? || a.ReadDropped?)
    ensures Ok(StepConsumer(s, a))
  {
    hide Stamps, Drops;
    var t := s.consumer;
    if a.CopyBegins? {
      assert s.history[..|s.history|] == s.history;
    } else if t.Copying? {
      EarlierIsPrefix(s.history, t.mark);
      var c := Contents(s.ring);
      if a.CopyRecord? && t.cursor != t.end {
        assert c[|t.got|] == s.ring.slots[t.cursor];
        assert t.got + [c[|t.got|]] <= c;
      } else if a.ReadDropped? && t.cursor == t.end {
        var whole := Stamps(s.history[..t.mark]);
        assert whole == Stamps(s.history)[..|whole|];
        assert s.consumed + t.got == whole;
        assert s.history[..|s.history|] == s.history;
      }
    }
  }

  lemma {:induction false} ViewCounts(v: View, m: Message)
    ensures Apply(v, m).dropped == m.dropped
  {
    EventsKeepDropped(v, m.events);
  }

  lemma SendKeepsOk(s: State, ok: bool)
    requires Ok(s)
    ensures Ok(StepConsumer(s, Send(ok)))
  {
    hide Stamps, Drops, Contents, Apply;
    var t := s.consumer;
    if t.Sending? {
      ViewCounts(s.view, Message(t.dropped, Records(t.got)));
      EarlierIsPrefix(s.history, t.seen);
    }
  }

  lemma ConsumeKeepsOk(s: State)
    requires Ok(s)
    ensures Ok(StepConsumer(s, Consume))
  {
    hide Stamps, Drops;
    var t := s.consumer;
    if t.Consuming? {
      var r := StepConsumer(s, Consume);
      assert Contents(s.ring)[..|t.got|] == t.got;
      assert Contents(r.ring) == Contents(s.ring)[|t.got|..];
    }
  }

  lemma StepKeepsOk(s: State, a: Action)
    requires Ok(s)
    ensures Ok(Step(s, a))
  {
    hide Ok;
    match a
    case Push(_) => LookKeepsOk(s, a);
    case ResetTelemetry => LookKeepsOk(s, a);
    case StoreRecord => StoreKeepsOk(s);
    case Publish => PublishKeepsOk(s);
    case CountDrop => CountDropKeepsOk(s);
    case CopyBegins => CopyKeepsOk(s, a);
    case CopyRecord => CopyKeepsOk(s, a);
    case ReadDropped => CopyKeepsOk(s, a);
    case Send(ok) => SendKeepsOk(s, ok);
    case Consume => ConsumeKeepsOk(s);
  }

  // ---- Nothing accepted is lost, doubled or reordered ------------------------------------------------

  /** Failed sends included: the view has been delivered a prefix of the accepted pushes, and all the
      rest is still in the ring. */
  lemma DeliveredThenQueued(steps: seq<Action>)
    ensures
      var s := Run(Initial(), steps);
      var sent := if s.consumer.Consuming? then |s.consumer.got| else 0;
      && sent <= |Contents(s.ring)|
      && Stamps(s.history) == s.delivered + Contents(s.ring)[sent..]
      && s.delivered == s.consumed + Contents(s.ring)[..sent]
  {
    var s := Run(Initial(), steps);
    if s.consumer.Consuming? {
      var got := s.consumer.got;
      assert Contents(s.ring) == got + Contents(s.ring)[|got|..];
    } else {
      assert Contents(s.ring)[0..] == Contents(s.ring);
    }
  }

  // ---- Overflow --------------------------------------------------------------------------------------

  lemma {:induction false} DropsGrow(history: seq<Outcome>, i: nat, j: nat)
    requires i <= j <= |history|
    ensures Drops(history[..i]) <= Drops(history[..j])
  {
    EarlierIsPrefix(history[..j], i);
    assert history[..j][..i] == history[..i];
  }

  lemma DropBetween(history: seq<Outcome>, i: nat, j: nat, seen: nat)
    requires i <= j < seen <= |history| && history[j].Dropped?
    ensures Drops(history[..i]) < Drops(history[..seen])
  {
    DropsGrow(history, i, j);
    DropsGrow(history, j + 1, seen);
    assert history[..j + 1][..j] == history[..j];
  }

  lemma {:induction false} NoDropBetween(history: seq<Outcome>, i: nat, seen: nat)
    requires i <= seen <= |history| && forall j :: i <= j < seen ==> !history[j].Dropped?
    ensures Drops(history[..i]) == Drops(history[..seen])
    decreases seen
  {
    if i < seen {
      NoDropBetween(history, i, seen - 1);
      assert history[..seen][..seen - 1] == history[..seen - 1];
    }
  }

  lemma WholeHistory(history: seq<Outcome>)
    ensures history[..|history|] == history
  {
  }

  /** Where a stamp stands among the stamps, and when its push was. */
  lemma {:induction false} StampsAreOrdered(history: seq<Outcome>, mark: nat, k: nat)
    requires mark <= |history| && |Stamps(history[..mark])| <= k < |Stamps(history)|
    ensures
      var x := Stamps(history)[k];
      mark <= x.at < |history| && history[x.at] == Accepted(x.record)
    decreases |history|
  {
    var n := |history| - 1;
    WholeHistory(history);
    if k < |Stamps(history[..n])| {
      assert history[..n][..mark] == history[..mark];
      StampsAreOrdered(history[..n], mark, k);
      EarlierIsPrefix(history, n);
    }
  }

  lemma {:induction false} AcceptedIsStamped(history: seq<Outcome>, mark: nat, i: nat)
    requires mark <= i < |history| && history[i].Accepted?
    ensures
      var k := |Stamps(history[..i])|;
      && |Stamps(history[..mark])| <= k < |Stamps(history)|
      && Stamps(history)[k] == Stamped(history[i].record, i)
  {
    EarlierIsPrefix(history[..i], mark);
    assert history[..i][..mark] == history[..mark];
    assert history[..i + 1][..i] == history[..i];
    EarlierIsPrefix(history, i + 1);
  }

  /** What the view has not been delivered yet. */
  function Undelivered(s: State): seq<Stamped> {
    if |s.delivered| <= |Stamps(s.history)| then Stamps(s.history)[|s.delivered|..] else []
  }

  /** The push came after the first `drops` drops. */
  predicate AfterDrops(x: Stamped, drops: nat, history: seq<Outcome>) {
    x.at <= |history| && drops <= Drops(history[..x.at])
  }

  ghost predicate Sound(s: State) {
    && (forall k :: 0 <= k < |Undelivered(s)| ==> AfterDrops(Undelivered(s)[k], s.view.dropped, s.history))
    && (forall k :: 0 <= k < |s.applied| ==> AfterDrops(s.applied[k].0, s.applied[k].1, s.history))
    && (s.consumer.Sending? ==>
         s.consumer.mark <= |s.history| && Drops(s.history[..s.consumer.mark]) == s.consumer.dropped)
  }

  /** No drop was counted between the copy and this reading of the drop count. */
  predicate QuietReading(s: State, a: Action) {
    a.ReadDropped? && s.consumer.Copying? && s.consumer.cursor == s.consumer.end ==>
      s.consumer.mark <= |s.history| && s.dropped == Drops(s.history[..s.consumer.mark])
  }

  ghost predicate QuietRun(s: State, steps: seq<Action>)
    requires Ok(s)
    decreases |steps|
  {
    steps == [] ||
    (QuietReading(s, steps[0]) && Ok(Step(s, steps[0])) && QuietRun(Step(s, steps[0]), steps[1..]))
  }

  lemma PushKeepsSound(s: State, o: Outcome, r: State)
    requires Ok(s) && Sound(s) && r == s.(history := s.history + [o], ring := r.ring, dropped := r.dropped,
                                          published := r.published, producer := r.producer)
    ensures Sound(r)
  {
    OneMore(s.history, o);
    EarlierStays(s.history, o);
    var before, after := Undelivered(s), Undelivered(r);
    assert |s.delivered| <= |Stamps(s.history)|;
    forall k | 0 <= k < |after| ensures AfterDrops(after[k], r.view.dropped, r.history) {
      if k < |before| {
        assert after[k] == before[k];
        assert AfterDrops(before[k], s.view.dropped, s.history);
      } else {
        assert after[k].at == |s.history|;
        assert r.history[..|s.history|] == s.history;
      }
    }
    forall k | 0 <= k < |r.applied| ensures AfterDrops(r.applied[k].0, r.applied[k].1, r.history) {
      assert AfterDrops(s.applied[k].0, s.applied[k].1, s.history);
    }
  }

  /** Nothing that soundness speaks of has changed. */
  lemma SameSound(s: State, r: State)
    requires Sound(s) && r.history == s.history && r.delivered == s.delivered && r.applied == s.applied
    requires r.view.dropped == s.view.dropped
    requires r.consumer.Sending? && r.consumer != s.consumer ==>
               r.consumer.mark <= |r.history| && Drops(r.history[..r.consumer.mark]) == r.consumer.dropped
    ensures Sound(r)
  {
    assert Undelivered(r) == Undelivered(s);
  }

  lemma DeliveryKeepsSound(s: State, ok: bool)
    requires Ok(s) && Sound(s)
    ensures Sound(StepConsumer(s, Send(ok)))
  {
    var t := s.consumer;
    if !t.Sending? || !ok {
      SameSound(s, StepConsumer(s, Send(ok)));
    } else {
      ViewCounts(s.view, Message(t.dropped, Records(t.got)));
      LeftIsAfterDrops(s);
      TakenIsAfterDrops(s);
      hide Ok, Apply, Undelivered, AfterDrops;
    }
  }

  /** A message whose drop count was read undisturbed leaves only later records behind. */
  lemma LeftIsAfterDrops(s: State)
    requires Ok(s) && Sound(s) && s.consumer.Sending?
    ensures
      var r := StepConsumer(s, Send(true));
      forall k :: 0 <= k < |Undelivered(r)| ==> AfterDrops(Undelivered(r)[k], s.consumer.dropped, s.history)
  {
    var r := StepConsumer(s, Send(true));
    forall k | 0 <= k < |Undelivered(r)| ensures AfterDrops(Undelivered(r)[k], s.consumer.dropped, s.history) {
      LeftBehind(s, k);
      DropsGrow(s.history, s.consumer.mark, Undelivered(r)[k].at);
    }
  }

  /** What a message with an unchanged drop count brings was not delivered before. */
  lemma TakenIsAfterDrops(s: State)
    requires Ok(s) && Sound(s) && s.consumer.Sending?
    ensures
      var r := StepConsumer(s, Send(true));
      forall k :: 0 <= k < |r.applied| ==> AfterDrops(r.applied[k].0, r.applied[k].1, s.history)
  {
    hide ProducerOk, Apply, Drops;
    var got, r := s.consumer.got, StepConsumer(s, Send(true));
    forall k | 0 <= k < |r.applied| ensures AfterDrops(r.applied[k].0, r.applied[k].1, s.history) {
      if |s.applied| <= k {
        var j := k - |s.applied|;
        assert got[j] == Contents(s.ring)[j] == Stamps(s.history)[|s.delivered| + j] == Undelivered(s)[j];
      }
    }
  }

  lemma StepKeepsSound(s: State, a: Action)
    requires Ok(s) && Sound(s) && QuietReading(s, a)
    ensures Sound(Step(s, a))
  {
    hide Contents, Stamps, Drops, ProducerOk, ConsumerOk, AfterDrops, Sound;
    if a.Publish? && s.producer.Publishing? {
      PushKeepsSound(s, Accepted(s.producer.record), Step(s, a));
    } else if a.CountDrop? && s.producer.Counting? {
      PushKeepsSound(s, Dropped, Step(s, a));
    } else if a.Send? {
      DeliveryKeepsSound(s, a.ok);
    } else {
      SameSound(s, Step(s, a));
    }
  }

  lemma {:induction false} RunKeepsSound(s: State, steps: seq<Action>)
    requires Ok(s) && Sound(s) && QuietRun(s, steps)
    ensures Sound(Run(s, steps))
    decreases |steps|
  {
    hide Ok, Sound, Step, QuietReading;
    if steps != [] {
      StepKeepsOk(s, steps[0]);
      StepKeepsSound(s, steps[0]);
      RunKeepsSound(Step(s, steps[0]), steps[1..]);
    }
  }

  /** As long as no drop is counted between a copy and its reading of the drop count, every record the
      view takes in was pushed after all the drops its message counted: after the drop that made the view
      forget everything before. */
  lemma AppliedRecordsFollowTheDrop(steps: seq<Action>, k: nat)
    requires QuietRun(Initial(), steps) && k < |Run(Initial(), steps).applied|
    ensures
      var s := Run(Initial(), steps);
      AfterDrops(s.applied[k].0, s.applied[k].1, s.history)
  {
    assert Sound(Initial());
    RunKeepsSound(Initial(), steps);
  }

  /** What a message leaves behind are the records accepted since its copy. */
  lemma SendingLeavesTheRest(s: State)
    requires Ok(s) && s.consumer.Sending?
    ensures
      var taken := |Stamps(s.history[..s.consumer.mark])|;
      && s.consumer.mark <= |s.history| && taken <= |Stamps(s.history)|
      && Undelivered(StepConsumer(s, Send(true))) == Stamps(s.history)[taken..]
  {
    hide ProducerOk, Apply, Contents, Drops, Stamps;
    EarlierIsPrefix(s.history, s.consumer.mark);
  }

  /** The pushes of the copy's window that the message leaves behind. */
  lemma LeftBehind(s: State, k: nat)
    requires Ok(s) && s.consumer.Sending? && k < |Undelivered(StepConsumer(s, Send(true)))|
    ensures
      var x := Undelivered(StepConsumer(s, Send(true)))[k];
      s.consumer.mark <= x.at < |s.history| && s.history[x.at].Accepted?
  {
    hide Ok, Undelivered, StepConsumer, Stamps;
    SendingLeavesTheRest(s);
    StampsAreOrdered(s.history, s.consumer.mark, |Stamps(s.history[..s.consumer.mark])| + k);
  }

  lemma AcceptedIsLeftBehind(s: State, i: nat)
    requires Ok(s) && s.consumer.Sending? && s.consumer.mark <= i < |s.history| && s.history[i].Accepted?
    ensures
      var left := Undelivered(StepConsumer(s, Send(true)));
      exists k :: 0 <= k < |left| && left[k] == Stamped(s.history[i].record, i)
  {
    hide ProducerOk, ConsumerOk, Contents, Undelivered, StepConsumer, Stamps;
    SendingLeavesTheRest(s);
    AcceptedIsStamped(s.history, s.consumer.mark, i);
    var left := Undelivered(StepConsumer(s, Send(true)));
    var k := |Stamps(s.history[..i])| - |Stamps(s.history[..s.consumer.mark])|;
    assert left[k] == Stamped(s.history[i].record, i);
  }

  /** Exactly when one invalidating message leaves only later records behind: no push was accepted
      between the copy and a drop that the message counts. */
  lemma InvalidationIsSoundIff(s: State)
    requires Ok(s) && s.consumer.Sending?
    ensures
      var t := s.consumer;
      var left := Undelivered(StepConsumer(s, Send(true)));
      && t.mark <= t.seen <= |s.history|
      && ((forall k :: 0 <= k < |left| ==> AfterDrops(left[k], t.dropped, s.history))
          <==> !exists i, j :: t.mark <= i < j < t.seen && s.history[i].Accepted? && s.history[j].Dropped?)
  {
    hide ProducerOk, Contents, Stamps, Undelivered, StepConsumer, Drops;
    var t := s.consumer;
    var left := Undelivered(StepConsumer(s, Send(true)));
    if i, j :| t.mark <= i < j < t.seen && s.history[i].Accepted? && s.history[j].Dropped? {
      AcceptedIsLeftBehind(s, i);
      DropBetween(s.history, i, j, t.seen);
    } else {
      forall k | 0 <= k < |left| ensures AfterDrops(left[k], t.dropped, s.history) {
        LeftBehind(s, k);
        if left[k].at < t.seen {
          NoDropBetween(s.history, left[k].at, t.seen);
        } else {
          DropsGrow(s.history, t.seen, left[k].at);
        }
      }
    }
  }

  // ---- The reading that goes wrong -------------------------------------------------------------------

  lemma {:induction false} RunJoins(s: State, a: seq<Action>, b: seq<Action>)
    requires Ok(s)
    ensures Run(s, a + b) == Run(Run(s, a), b)
    decreases |a|
  {
    hide Ok, Step;
    if a == [] {
      assert a + b == b;
    } else {
      StepKeepsOk(s, a[0]);
      RunJoins(Step(s, a[0]), a[1..], b);
      assert (a + b)[0] == a[0] && (a + b)[1..] == a[1..] + b;
    }
  }

  function Pushes(n: nat): seq<Action> {
    if n == 0 then [] else [Push(Reset), StoreRecord, Publish] + Pushes(n - 1)
  }

  /** A record that finds room goes in, whoever moves in what state. */
  lemma PushGoesIn(s: State, record: Record)
    requires Ok(s) && s.producer.Resting? && Used(s.ring) < CAPACITY - 1
    ensures
      var r := Run(s, [Push(record), StoreRecord, Publish]);
      && r.producer.Resting? && r.consumer == s.consumer && r.view == s.view && r.dropped == s.dropped
      && r.history == s.history + [Accepted(record)] && Used(r.ring) == Used(s.ring) + 1
  {
    hide Contents, Stamps, Drops, ProducerOk, ConsumerOk;
    FullMeansUsedUp(s.ring);
    StepKeepsOk(s, Push(record));
    var looked := Step(s, Push(record));
    StepKeepsOk(looked, StoreRecord);
    var stored := Step(looked, StoreRecord);
    StepKeepsOk(stored, Publish);
    var r := Step(stored, Publish);
    var steps := [Push(record), StoreRecord, Publish];
    assert steps[1..] == [StoreRecord, Publish] && steps[1..][1..] == [Publish] && steps[1..][1..][1..] == [];
    assert Run(r, []) == r;
    assert Run(stored, [Publish]) == r;
    assert Run(looked, [StoreRecord, Publish]) == r;
  }

  /** One that finds the ring full is dropped and counted. */
  lemma PushIsCounted(s: State, record: Record)
    requires Ok(s) && s.producer.Resting? && Used(s.ring) == CAPACITY - 1
    ensures
      var r := Run(s, [Push(record), CountDrop]);
      && r.producer.Resting? && r.ring == s.ring && r.dropped == s.dropped + 1
      && r.history == s.history + [Dropped]
  {
    hide Contents, Stamps, Drops, ProducerOk, ConsumerOk;
    FullMeansUsedUp(s.ring);
    StepKeepsOk(s, Push(record));
    var looked := Step(s, Push(record));
    StepKeepsOk(looked, CountDrop);
    var r := Step(looked, CountDrop);
    var steps := [Push(record), CountDrop];
    assert steps[1..] == [CountDrop] && steps[1..][1..] == [];
    assert Run(r, []) == r;
    assert Run(looked, [CountDrop]) == r;
  }

  lemma {:induction false} PushesFill(s: State, n: nat)
    requires Ok(s) && s.producer.Resting? && Used(s.ring) + n <= CAPACITY - 1
    ensures
      var r := Run(s, Pushes(n));
      && r.producer.Resting? && r.consumer == s.consumer && r.view == s.view && r.dropped == s.dropped
      && |r.history| == |s.history| + n && s.history <= r.history && Used(r.ring) == Used(s.ring) + n
      && forall i :: |s.history| <= i < |r.history| ==> r.history[i].Accepted?
    decreases n
  {
    hide Ok, Step, Used;
    if n != 0 {
      PushGoesIn(s, Reset);
      var one := Run(s, [Push(Reset), StoreRecord, Publish]);
      PushesFill(one, n - 1);
      RunJoins(s, [Push(Reset), StoreRecord, Publish], Pushes(n - 1));
    }
  }

  /** The editor copies an empty queue; the audio thread fills it and loses one record; the editor reads
      the drop count. */
  function DisturbedSteps(): seq<Action> {
    [CopyBegins] + Pushes(CAPACITY - 1) + [Push(Reset), CountDrop, ReadDropped]
  }

  lemma DisturbedState()
    ensures
      var s := Run(Initial(), DisturbedSteps());
      && s.consumer == Sending([], 1, 0, CAPACITY) && s.dropped == 1 && s.view.dropped == 0
      && |s.history| == CAPACITY && s.history[0].Accepted? && s.history[CAPACITY - 1].Dropped?
      && Used(s.ring) == CAPACITY - 1
  {
    hide Ok, Run, Contents, Used;
    var copying := Run(Initial(), [CopyBegins]);
    var filled := Run(copying, Pushes(CAPACITY - 1));
    CopyingEmpty();
    PushesFill(copying, CAPACITY - 1);
    RunJoins(Initial(), [CopyBegins], Pushes(CAPACITY - 1));
    RunJoins(Initial(), [CopyBegins] + Pushes(CAPACITY - 1), [Push(Reset), CountDrop, ReadDropped]);
    DropAndRead(filled);
  }

  /** Then the message invalidates the view but leaves records behind that are older than the drop. */
  lemma DisturbedReadingIsUnsound()
    ensures
      var s := Run(Initial(), DisturbedSteps());
      && s.consumer.Sending? && s.consumer.dropped == 1 && s.view.dropped == 0
      && var left := Undelivered(StepConsumer(s, Send(true)));
         exists k :: 0 <= k < |left| && !AfterDrops(left[k], s.consumer.dropped, s.history)
  {
    hide Ok, Run, Contents, Undelivered, AfterDrops, StepConsumer, Drops, Stamps, Used;
    DisturbedState();
    var s := Run(Initial(), DisturbedSteps());
    InvalidationIsSoundIff(s);
  }

  function Copies(n: nat): seq<Action> {
    if n == 0 then [] else [CopyRecord] + Copies(n - 1)
  }

  /** What a copy under way has still to fetch. */
  function Missing(s: State): int {
    if s.consumer.Copying? && s.consumer.mark <= |s.history|
    then |Stamps(s.history[..s.consumer.mark])| - |s.consumed| - |s.consumer.got| else 0
  }

  lemma OneCopy(s: State)
    requires Ok(s) && s.consumer.Copying? && 0 < Missing(s)
    ensures
      var r := Run(s, [CopyRecord]);
      && r == s.(consumer := r.consumer) && r.consumer.Copying? && r.consumer.mark == s.consumer.mark
      && Missing(r) == Missing(s) - 1
  {
    hide Contents, Stamps, Drops, ProducerOk;
    StepKeepsOk(s, CopyRecord);
    assert [CopyRecord][1..] == [];
    assert Run(Step(s, CopyRecord), []) == Step(s, CopyRecord);
  }

  lemma {:induction false} CopiesFetchAll(s: State, n: nat)
    requires Ok(s) && s.consumer.Copying? && Missing(s) == n
    ensures
      var r := Run(s, Copies(n));
      && r == s.(consumer := r.consumer) && r.consumer.Copying? && r.consumer.mark == s.consumer.mark
      && Missing(r) == 0
    decreases n
  {
    hide Ok, Step, Missing;
    if n != 0 {
      OneCopy(s);
      CopiesFetchAll(Run(s, [CopyRecord]), n - 1);
      RunJoins(s, [CopyRecord], Copies(n - 1));
    }
  }

  /** The message under way carried nothing; it arrives, and the consumer begins the next copy. */
  lemma EmptyMessageArrives(s: State)
    requires Ok(s) && s.consumer.Sending? && s.consumer.got == [] && s.consumer.dropped == s.dropped
    ensures
      var r := Run(s, [Send(true), Consume, CopyBegins]);
      && r.history == s.history && r.applied == s.applied && r.ring == s.ring && r.consumed == s.consumed
      && r.dropped == s.dropped && r.view.dropped == s.dropped
      && r.consumer == Copying(s.ring.read, s.ring.write, [], |s.history|)
  {
    hide Contents, Stamps, Drops, ProducerOk;
    StepKeepsOk(s, Send(true));
    var sent := Step(s, Send(true));
    ViewCounts(s.view, Message(s.dropped, Records([])));
    StepKeepsOk(sent, Consume);
    var consumed := Step(sent, Consume);
    StepKeepsOk(consumed, CopyBegins);
    var r := Step(consumed, CopyBegins);
    var steps := [Send(true), Consume, CopyBegins];
    assert steps[1..] == [Consume, CopyBegins] && steps[1..][1..] == [CopyBegins] && steps[1..][1..][1..] == [];
    assert Run(r, []) == r;
    assert Run(consumed, [CopyBegins]) == r;
    assert Run(sent, [Consume, CopyBegins]) == r;
  }

  /** A full copy is read undisturbed and arrives: the view takes it in. */
  lemma CopyArrives(s: State)
    requires Ok(s) && s.consumer.Copying? && Missing(s) == 0 && s.view.dropped == s.dropped
    requires s.consumer.mark == |s.history|
    ensures
      var r := Run(s, [ReadDropped, Send(true)]);
      r.history == s.history && r.applied == s.applied + Taken(Contents(s.ring), s.dropped)
  {
    hide Contents, Stamps, Drops, ProducerOk, Apply;
    assert s.history[..|s.history|] == s.history;
    assert s.consumer.got == Contents(s.ring);
    StepKeepsOk(s, ReadDropped);
    var read := Step(s, ReadDropped);
    StepKeepsOk(read, Send(true));
    var r := Step(read, Send(true));
    assert [ReadDropped, Send(true)][1..] == [Send(true)] && [Send(true)][1..] == [];
    assert Run(r, []) == r;
    assert Run(read, [Send(true)]) == r;
  }

  /** The message that was read too late arrives, and the next one after it. */
  function NextMessageSteps(): seq<Action> {
    [Send(true), Consume, CopyBegins] + Copies(CAPACITY - 1) + [ReadDropped, Send(true)]
  }

  /** So the view takes in a record, after it was invalidated, that is older than the drop. */
  lemma OlderRecordIsApplied()
    ensures
      var s := Run(Initial(), DisturbedSteps() + NextMessageSteps());
      exists k :: 0 <= k < |s.applied| && s.applied[k].1 == 1
                  && !AfterDrops(s.applied[k].0, s.applied[k].1, s.history)
  {
    hide Run, Contents, Undelivered, StepConsumer, ProducerOk, Used;
    DisturbedState();
    var late := Run(Initial(), DisturbedSteps());
    assert late.consumed == [] by {
      assert late.history[..0] == [];
    }
    EmptyMessageArrives(late);
    var copying := Run(late, [Send(true), Consume, CopyBegins]);
    assert copying.history[..|copying.history|] == copying.history;
    QueuedAreStamps(late);
    CopiesFetchAll(copying, CAPACITY - 1);
    var copied := Run(copying, Copies(CAPACITY - 1));
    CopyArrives(copied);
    RunJoins(late, [Send(true), Consume, CopyBegins], Copies(CAPACITY - 1));
    RunJoins(late, [Send(true), Consume, CopyBegins] + Copies(CAPACITY - 1), [ReadDropped, Send(true)]);
    RunJoins(Initial(), DisturbedSteps(), NextMessageSteps());
    var s := Run(copied, [ReadDropped, Send(true)]);
    AcceptedIsStamped(s.history, 0, 0);
    assert s.history[..0] == [];
    var k := |copied.applied|;
    assert s.applied[k] == (Contents(late.ring)[0], 1);
  }

  lemma QueuedAreStamps(s: State)
    requires Ok(s) && s.consumed == []
    ensures Stamps(s.history) == Contents(s.ring) && |Contents(s.ring)| == Used(s.ring)
  {
    assert [] + Contents(s.ring) == Contents(s.ring);
  }

  lemma CopyingEmpty()
    ensures
      var s := Run(Initial(), [CopyBegins]);
      && s.producer.Resting? && Used(s.ring) == 0 && s.history == [] && s.dropped == 0 && s.view == EMPTY_VIEW
      && s.consumer == Copying(0, 0, [], 0)
  {
    hide Ok;
    StepKeepsOk(Initial(), CopyBegins);
    var s := Step(Initial(), CopyBegins);
    assert [CopyBegins][1..] == [];
    assert Run(s, []) == s;
  }

  lemma DropAndRead(s: State)
    requires Ok(s) && s.producer.Resting? && Used(s.ring) == CAPACITY - 1 && s.consumer == Copying(0, 0, [], 0)
    ensures
      var r := Run(s, [Push(Reset), CountDrop, ReadDropped]);
      && r.history == s.history + [Dropped] && r.view == s.view && r.ring == s.ring && r.dropped == s.dropped + 1
      && r.consumer == Sending([], s.dropped + 1, 0, |s.history| + 1)
  {
    hide Contents, Stamps, Drops, ProducerOk, ConsumerOk;
    FullMeansUsedUp(s.ring);
    StepKeepsOk(s, Push(Reset));
    var looked := Step(s, Push(Reset));
    StepKeepsOk(looked, CountDrop);
    var counted := Step(looked, CountDrop);
    StepKeepsOk(counted, ReadDropped);
    var r := Step(counted, ReadDropped);
    var steps := [Push(Reset), CountDrop, ReadDropped];
    assert steps[1..] == [CountDrop, ReadDropped] && steps[1..][1..] == [ReadDropped] && steps[1..][1..][1..] == [];
    assert Run(r, []) == r;
    assert Run(counted, [ReadDropped]) == r;
    assert Run(looked, [CountDrop, ReadDropped]) == r;
  }

  // ---- The queue as it is written --------------------------------------------------------------------

  class ModulationTelemetryQueue {
    const records: array<Record>
    var readIndex: nat
    var writeIndex: nat
    var droppedCount: nat
    var hasPublishedState: bool

    ghost function Now(): Ring<Record>
      reads this, records
    {
      Ring(records[..], writeIndex, readIndex)
    }

    ghost predicate Valid()
      reads this, records
    {
      RingOk(Now()) && records.Length == CAPACITY
    }

    constructor ()
      ensures Valid() && Contents(Now()) == [] && droppedCount == 0 && !hasPublishedState
    {
      records := new Record[CAPACITY](i => Reset);
      readIndex, writeIndex, droppedCount, hasPublishedState := 0, 0, 0, false;
    }

    /** Overflow drops the newest record and counts it. */
    method Push(record: Record) returns (ok: bool)
      requires Valid()
      modifies this`writeIndex, this`droppedCount, this`hasPublishedState, records
      ensures Valid() && ok == (|old(Contents(Now()))| < CAPACITY - 1)
      ensures Contents(Now()) == if ok then old(Contents(Now())) + [record] else old(Contents(Now()))
      ensures droppedCount == old(droppedCount) + if ok then 0 else 1
      ensures hasPublishedState == (ok || old(hasPublishedState))
    {
      ghost var before := Now();
      FullMeansUsedUp(before);
      var next := Increment(writeIndex, CAPACITY);
      if next == readIndex {
        droppedCount := droppedCount + 1;
        return false;
      }
      records[writeIndex] := record;
      ghost var stored := Now();
      assert stored == before.(slots := before.slots[before.write := record]);
      StoringIsUnseen(before, record);
      PublishingAppends(stored);
      writeIndex := next;
      hasPublishedState := true;
      return true;
    }

    /** A reset before anything was published has nothing to invalidate. */
    method ResetTelemetry()
      requires Valid()
      modifies this`writeIndex, this`droppedCount, this`hasPublishedState, records
      ensures Valid() && hasPublishedState == old(hasPublishedState)
      ensures !hasPublishedState ==> Contents(Now()) == old(Contents(Now())) && droppedCount == old(droppedCount)
      ensures hasPublishedState ==>
                var room := |old(Contents(Now()))| < CAPACITY - 1;
                && Contents(Now()) == (if room then old(Contents(Now())) + [Reset] else old(Contents(Now())))
                && droppedCount == old(droppedCount) + if room then 0 else 1
    {
      if !hasPublishedState {
        return;
      }
      var ok := Push(Reset);
    }

    method CopyPending() returns (copied: seq<Record>)
      requires Valid()
      ensures copied == Contents(Now())
    {
      var read, write := readIndex, writeIndex;
      copied := [];
      while read != write && |copied| < CAPACITY - 1
        invariant |copied| <= Used(Now()) && copied == Contents(Now())[..|copied|]
        invariant read == Wrapped(readIndex + |copied|, CAPACITY)
        decreases CAPACITY - |copied|
      {
        assert Contents(Now())[|copied|] == records[read];
        copied := copied + [records[read]];
        read := Increment(read, CAPACITY);
      }
    }

    method Consume(count: nat)
      requires Valid()
      modifies this`readIndex
      ensures Valid()
      ensures
        var was := old(Contents(Now()));
        Contents(Now()) == was[if count < |was| then count else |was|..]
    {
      var read, write, left := readIndex, writeIndex, count;
      ghost var was := Contents(Now());
      while left != 0 && read != write
        invariant 0 <= left <= count && count - left <= |was|
        invariant read == Wrapped(readIndex + (count - left), CAPACITY)
        decreases left
      {
        read := Increment(read, CAPACITY);
        left := left - 1;
      }
      ghost var moved := count - left;
      assert left == 0 || moved == |was|;
      readIndex := read;
      assert Contents(Now()) == was[moved..];
    }
  }

  // ---- A whole round ------------------------------------------------------------------------------------------

  lemma CopyStarts(s: State)
    requires Ok(s) && s.consumer.Away?
    ensures
      var r := Run(s, [CopyBegins]);
      && r == s.(consumer := r.consumer) && r.consumer.Copying? && r.consumer.mark == |s.history|
      && Missing(r) == Used(s.ring)
  {
    hide Contents, Stamps, Drops, ProducerOk;
    StepKeepsOk(s, CopyBegins);
    assert s.history[..|s.history|] == s.history;
    assert [CopyBegins][1..] == [];
    assert Run(Step(s, CopyBegins), []) == Step(s, CopyBegins);
  }

  lemma MessageLands(s: State)
    requires Ok(s) && s.consumer.Copying? && Missing(s) == 0 && s.consumer.mark == |s.history|
    ensures
      var r := Run(s, [ReadDropped, Send(true), Consume]);
      && r.consumer.Away? && r.delivered == Stamps(s.history) && Used(r.ring) == 0
      && r.history == s.history && r.dropped == s.dropped
      && r.view == Apply(s.view, Message(s.dropped, Records(Contents(s.ring))))
  {
    hide Contents, Stamps, Drops, ProducerOk, Apply;
    assert s.history[..|s.history|] == s.history;
    assert s.consumer.got == Contents(s.ring);
    StepKeepsOk(s, ReadDropped);
    var read := Step(s, ReadDropped);
    StepKeepsOk(read, Send(true));
    var sent := Step(read, Send(true));
    StepKeepsOk(sent, Consume);
    var r := Step(sent, Consume);
    var steps := [ReadDropped, Send(true), Consume];
    assert steps[1..] == [Send(true), Consume] && steps[1..][1..] == [Consume] && steps[1..][1..][1..] == [];
    assert Run(r, []) == r;
    assert Run(sent, [Consume]) == r;
    assert Run(read, [Send(true), Consume]) == r;
  }

  /** A round that the audio thread does not meet and whose message arrives leaves nothing behind: all that
      was accepted has been delivered, and the view is what the message makes of it. */
  lemma RoundDeliversAll(s: State, n: nat)
    requires Ok(s) && s.consumer.Away? && n == Used(s.ring)
    ensures
      var r := Run(s, [CopyBegins] + (Copies(n) + [ReadDropped, Send(true), Consume]));
      && r.consumer.Away? && r.delivered == Stamps(s.history) && Used(r.ring) == 0
      && r.view == Apply(s.view, Message(s.dropped, Records(Contents(s.ring))))
  {
    hide Ok, Step, Missing, Used, Contents, Apply;
    RunJoins(s, [CopyBegins], Copies(n) + [ReadDropped, Send(true), Consume]);
    CopyStarts(s);
    var begun := Run(s, [CopyBegins]);
    RunJoins(begun, Copies(n), [ReadDropped, Send(true), Consume]);
    CopiesFetchAll(begun, n);
    MessageLands(Run(begun, Copies(n)));
  }
}
