/**
 The consumer acknowledgement pipeline of one receive channel: acknowledgements
 are collected in batches, filtered by channel lifetime, merged by the multiple
 ack handler and written; completed writes remove messages from the store.
 */
module AckPipeline {
  import opened Wrappers
  import opened AckTypes
  import opened MultipleAck
  import opened MultipleAckProofs
  import opened MessageGuard
  import MS = MessageStore

  // ---- The lifetime filter ----

  /** The acknowledgements of one channel lifetime, in order. */
  function Retain(acks: seq<ConsumerAck>, lifetimeId: nat): seq<ConsumerAck> {
    if acks == [] then []
    else
      var rest := Retain(acks[..|acks| - 1], lifetimeId);
      var a := acks[|acks| - 1];
      if a.lifetimeId == lifetimeId then rest + [a] else rest
  }

  /** Compacts the acknowledgements of the current lifetime to the front of the
      buffer; the caller erases everything from `valid` on. */
  method Compact(acks: array<ConsumerAck>, lifetimeId: nat) returns (valid: nat)
    modifies acks
    ensures valid <= acks.Length
    ensures acks[..valid] == Retain(old(acks[..]), lifetimeId)
  {
    valid := 0;
    var it := 0;
    while it < acks.Length
      invariant 0 <= valid <= it <= acks.Length
      invariant forall k | it <= k < acks.Length :: acks[k] == old(acks[k])
      invariant acks[..valid] == Retain(old(acks[..])[..it], lifetimeId)
    {
      ghost var prefix := old(acks[..])[..it + 1];
      assert prefix[..it] == old(acks[..])[..it];
      assert acks[it] == prefix[it];
      if acks[it].lifetimeId == lifetimeId {
        if it != valid {
          acks[valid] := acks[it];
        }
        valid := valid + 1;
      }
      it := it + 1;
    }
    assert old(acks[..])[..it] == old(acks[..]);
  }

  lemma {:induction false} RetainContents(acks: seq<ConsumerAck>, l: nat, a: ConsumerAck)
    ensures a in Retain(acks, l) <==> a in acks && a.lifetimeId == l
  {
    if acks != [] {
      var n := |acks| - 1;
      RetainContents(acks[..n], l, a);
      assert acks == acks[..n] + [acks[n]];
    }
  }

  lemma {:induction false} RetainCounts(acks: seq<ConsumerAck>, l: nat, a: ConsumerAck)
    ensures multiset(Retain(acks, l))[a] == if a.lifetimeId == l then multiset(acks)[a] else 0
  {
    if acks != [] {
      var n := |acks| - 1;
      RetainCounts(acks[..n], l, a);
      assert acks == acks[..n] + [acks[n]];
    }
  }

  /** The filter takes each acknowledgement on its own, so it keeps their order. */
  lemma {:induction false} RetainAppend(a: seq<ConsumerAck>, b: seq<ConsumerAck>, l: nat)
    ensures Retain(a + b, l) == Retain(a, l) + Retain(b, l)
    decreases |b|
  {
    if b == [] {
      assert a + b == a;
    } else {
      var n := |b| - 1;
      assert (a + b)[..|a| + n] == a + b[..n];
      RetainAppend(a, b[..n], l);
    }
  }

  ghost predicate DistinctDeliveries(acks: seq<ConsumerAck>) {
    forall i, j | 0 <= i < j < |acks| :: DeliveryOf(acks[i]) != DeliveryOf(acks[j])
  }

  lemma {:induction false} RetainDistinct(acks: seq<ConsumerAck>, l: nat)
    requires DistinctDeliveries(acks)
    ensures DistinctTags(Retain(acks, l))
  {
    if acks != [] {
      var n := |acks| - 1;
      RetainDistinct(acks[..n], l);
      var rest := Retain(acks[..n], l);
      forall i | 0 <= i < |rest| && acks[n].lifetimeId == l ensures rest[i].tag != acks[n].tag {
        RetainContents(acks[..n], l, rest[i]);
        assert rest[i] in rest;
      }
    }
  }

  /** A permutation of acknowledgements with distinct tags has distinct tags. */
  lemma PermutationDistinct(acks: seq<ConsumerAck>, sorted: seq<ConsumerAck>)
    requires multiset(acks) == multiset(sorted) && DistinctTags(acks)
    ensures DistinctTags(sorted)
  {
    forall i, j | 0 <= i < j < |sorted| ensures sorted[i].tag != sorted[j].tag {
      if sorted[i].tag == sorted[j].tag {
        assert sorted[i] in multiset(acks) && sorted[j] in multiset(acks);
        assert sorted[i] == sorted[j];
        OccursTwice(sorted, i, j);
        OccursAtMostOnce(acks, sorted[i]);
      }
    }
  }

  lemma OccursTwice(s: seq<ConsumerAck>, i: nat, j: nat)
    requires i < j < |s| && s[i] == s[j]
    ensures multiset(s)[s[i]] >= 2
  {
    assert s == s[..j] + s[j..];
    assert s[i] in s[..j] && s[j] in s[j..];
  }

  lemma {:induction false} OccursAtMostOnce(s: seq<ConsumerAck>, a: ConsumerAck)
    requires DistinctTags(s)
    ensures multiset(s)[a] <= 1
  {
    if s != [] {
      OccursAtMostOnce(s[1..], a);
      assert s == [s[0]] + s[1..];
      if a == s[0] {
        assert a !in s[1..];
      }
    }
  }

  // ---- Collecting acknowledgements in batches ----

  /** The batches in the queue, whether the newest still takes acknowledgements,
      and how many jobs are posted to consume one. */
  datatype Collected = Collected(queue: seq<seq<ConsumerAck>>, batchOpen: bool, jobs: nat)
  {
    function Add(a: ConsumerAck): Collected {
      if batchOpen && queue != [] then
        this.(queue := queue[|queue| - 1 := queue[|queue| - 1] + [a]])
      else
        Collected(queue + [[a]], true, jobs + 1)
    }

    function PopFront(): Collected
      requires queue != []
    {
      this.(queue := queue[1..], batchOpen := batchOpen && |queue| > 1)
    }
  }

  function AddAll(c: Collected, acks: seq<ConsumerAck>): Collected {
    if acks == [] then c else AddAll(c, acks[..|acks| - 1]).Add(acks[|acks| - 1])
  }

  /** However many acknowledgements come before a job runs, they make one batch, in their
      order, and one job. */
  lemma {:induction false} BurstIsOneBatch(acks: seq<ConsumerAck>, jobs: nat)
    requires acks != []
    ensures AddAll(Collected([], false, jobs), acks) == Collected([acks], true, jobs + 1)
    decreases |acks|
  {
    var n := |acks| - 1;
    if n == 0 {
      assert acks[..0] == [] && acks == [acks[0]];
      assert [] + [[acks[0]]] == [acks];
    } else {
      BurstIsOneBatch(acks[..n], jobs);
      assert acks[..n] + [acks[n]] == acks;
      assert [acks[..n]][0 := acks] == [acks];
    }
  }

  /** A batch takes acknowledgements until it is locked. */
  class ConsumerAckBatch {
    var acks: seq<ConsumerAck>
    var locked: bool

    constructor ()
      ensures acks == [] && !locked
    {
      acks, locked := [], false;
    }

    method AddAck(a: ConsumerAck) returns (ok: bool)
      modifies this`acks
      ensures ok == !locked && acks == if ok then old(acks) + [a] else old(acks)
    {
      ok := !locked;
      if ok {
        acks := acks + [a];
      }
    }
  }

  /** The batch being filled is shared with the queue; only the newest can be it. */
  class AckCollector {
    var queue: seq<ConsumerAckBatch>
    var batch: ConsumerAckBatch?
    var jobs: nat

    ghost predicate Valid()
      reads this, queue, if batch == null then {} else {batch}
    {
      (forall i, j | 0 <= i < j < |queue| :: queue[i] != queue[j])
      && (batch != null && !batch.locked <==> queue != [])
      && (queue != [] ==> batch == queue[|queue| - 1])
    }

    ghost function View(): Collected
      reads this, queue
    {
      Collected(seq(|queue|, i requires 0 <= i < |queue| reads this, queue => queue[i].acks), queue != [], jobs)
    }

    constructor ()
      ensures Valid() && View() == Collected([], false, 0)
    {
      queue, batch, jobs := [], null, 0;
    }

    method AckMessage(a: ConsumerAck)
      requires Valid()
      modifies this, queue, if batch == null then {} else {batch}
      ensures Valid() && View() == old(View()).Add(a)
    {
      var added := false;
      if batch != null {
        added := batch.AddAck(a);
      }
      if !added {
        batch := new ConsumerAckBatch();
        added := batch.AddAck(a);
        queue := queue + [batch];
        jobs := jobs + 1;
        assert batch.acks == [a] && old(queue) == [] && queue == [batch];
        assert View().queue == [[a]];
      }
    }

    /** A posted job takes the oldest batch and locks it. */
    method PopBatch() returns (acks: seq<ConsumerAck>)
      requires Valid() && queue != []
      modifies this`queue, queue[0]
      ensures Valid() && acks == old(View()).queue[0] && View() == old(View()).PopFront()
    {
      var oldest := queue[0];
      queue := queue[1..];
      oldest.locked := true;
      acks := oldest.acks;
    }
  }

  // ---- The whole pipeline ----

  type Message = nat

  /** Whether a job may write: the channel is open, has asked to be closed, or has been
      told that it is. */
  datatype Phase = OPEN | CLOSE_SENT | CLOSED

  datatype Pipeline = Pipeline(
    store: MS.Store<Message>,
    everDelivered: set<Delivery>,
    acked: set<Delivery>,
    queue: seq<seq<ConsumerAck>>,
    batchOpen: bool,
    jobs: nat,
    phase: Phase,
    totalAcked: nat,
    maxProcessedTag: nat,
    requested: map<nat, AckType>,
    dropped: set<nat>,              // tags in batches that jobs refused in this lifetime
    leftover: seq<Settlement>,      // writes of earlier lifetimes yet to complete
    writing: seq<Settlement>,       // writes of this lifetime yet to complete
    transit: seq<Settlement>,       // completed and not yet read by the broker
    limit: Option<nat>,             // how many more the broker reads before it closes the channel
    discarded: seq<Settlement>,     // read by a broker that had closed the channel
    strayed: bool,                  // something was written that the broker does not take
    broker: Broker)
  {
    function Delivered(): set<nat> {
      set d | d in everDelivered && d.lifetimeId == store.lifetimeId :: d.tag
    }

    /** Settlements written in this lifetime and not yet read, oldest first. */
    function Outbound(): seq<Settlement> {
      transit + writing
    }

    /** Settlements the broker has not acted upon. */
    function Unsettling(): seq<Settlement> {
      discarded + Outbound()
    }
  }

  const IDLE := Broker({}, map[], false)

  function Init(): Pipeline {
    Pipeline(MS.Empty(), {}, {}, [], false, 0, OPEN, 0, 0, map[], {}, [], [], [], None, [], false, IDLE)
  }

  datatype Event =
    | Deliver(tag: nat, entry: MS.Entry<Message>)
    | AppAck(delivery: Delivery, kind: AckType)
    | RunJob(sorted: seq<ConsumerAck>)
    | WriteDone
    | BrokerReads
    | AskClose
    | Revive
    | BrokerCloses
    | LearnClosed
    | ChannelReset
    | SocketLost

  /** What the environment may do: the broker delivers positive tags it has not used in
      this lifetime, on a channel that it opened after earlier writes had completed; a
      job sorts the batch it takes; a late reply revives a channel that has asked to be
      closed (`ReceiveChannel.ClosingChannelRevived` says which); and a channel is told
      that it is closed by a broker that has closed it. */
  predicate Enabled(p: Pipeline, e: Event) {
    match e
    case Deliver(tag, _) =>
      tag > 0 && Delivery(p.store.lifetimeId, tag) !in p.everDelivered && p.phase != CLOSED && p.leftover == []
    case AppAck(_, _) => true
    case RunJob(sorted) =>
      && p.jobs > 0
      && SortedByTag(sorted)
      && multiset(sorted) == multiset(if p.queue == [] then [] else Retain(p.queue[0], p.store.lifetimeId))
    case WriteDone => p.leftover != [] || p.writing != []
    case BrokerReads => p.transit != []
    case AskClose => p.phase != CLOSED
    case Revive => p.phase == CLOSE_SENT
    case BrokerCloses => true
    case LearnClosed => p.limit == Some(0)
    case ChannelReset => true
    case SocketLost => true
  }

  function KindOf(acks: seq<ConsumerAck>): map<nat, AckType> {
    if acks == [] then map[] else map[acks[0].tag := acks[0].kind] + KindOf(acks[1..])
  }

  function AddAck(p: Pipeline, a: ConsumerAck): Pipeline {
    var c := Collected(p.queue, p.batchOpen, p.jobs).Add(a);
    p.(queue := c.queue, batchOpen := c.batchOpen, jobs := c.jobs)
  }

  /** What a job writes is not read when a close goes before it. */
  function Written(p: Pipeline, sorted: seq<ConsumerAck>): Pipeline {
    var emitted := Emit(sorted, p.totalAcked, p.maxProcessedTag, NO_BATCH);
    p.(totalAcked := p.totalAcked + |sorted|,
       maxProcessedTag := MaxTag(sorted, p.maxProcessedTag),
       requested := p.requested + KindOf(sorted),
       writing := p.writing + emitted,
       strayed := p.strayed || (p.limit.Some? && emitted != []))
  }

  function TakeBatch(p: Pipeline, sorted: seq<ConsumerAck>): Pipeline
    requires p.jobs > 0
  {
    var q := p.(jobs := p.jobs - 1);
    if p.queue == [] then q
    else
      var c := Collected(p.queue, p.batchOpen, p.jobs).PopFront();
      var r := q.(queue := c.queue, batchOpen := c.batchOpen);
      if p.phase == OPEN then Written(r, sorted) else r.(dropped := p.dropped + KindOf(sorted).Keys)
  }

  function RemoveSettled(s: MS.Store<Message>, f: Settlement): MS.Store<Message> {
    if f.multiple then s.RemoveUntil(f.tag) else s.Remove(f.tag)
  }

  /** Completions come in the order of the writes, those of earlier lifetimes first. */
  function Complete(p: Pipeline): Pipeline
    requires p.leftover != [] || p.writing != []
  {
    if p.leftover != [] then p.(leftover := p.leftover[1..], store := RemoveSettled(p.store, p.leftover[0]))
    else
      p.(writing := p.writing[1..], transit := p.transit + [p.writing[0]],
         store := RemoveSettled(p.store, p.writing[0]))
  }

  /** A broker that has closed the channel discards what it reads. */
  function Read(p: Pipeline): Pipeline
    requires p.transit != []
  {
    var r := p.(transit := p.transit[1..]);
    if p.limit == Some(0) then r.(discarded := p.discarded + [p.transit[0]])
    else
      r.(broker := Settle(p.broker, p.transit[0]),
         limit := if p.limit.None? then None else Some(p.limit.value - 1))
  }

  /** A channel that has been reset; between this and its opening there is nothing of the
      new lifetime. */
  function NewLifetime(p: Pipeline): Pipeline {
    p.(store := p.store.SwapOut(), queue := [], batchOpen := false, phase := OPEN,
       totalAcked := 0, maxProcessedTag := 0, requested := map[], dropped := {},
       writing := [], transit := [], limit := None, discarded := [], strayed := false, broker := IDLE)
  }

  function Step(p: Pipeline, e: Event): Pipeline {
    if !Enabled(p, e) then p
    else match e
      case Deliver(tag, entry) =>
        p.(store := p.store.Insert(tag, entry),
           everDelivered := p.everDelivered + {Delivery(p.store.lifetimeId, tag)},
           broker := p.broker.(unsettled := p.broker.unsettled + {tag}))
      case AppAck(d, kind) => AddAck(p.(acked := p.acked + {d}), AckFor(d, kind))
      case RunJob(sorted) => TakeBatch(p, sorted)
      case WriteDone => Complete(p)
      case BrokerReads => Read(p)
      case AskClose => p.(phase := CLOSE_SENT, limit := if p.limit.None? then Some(|p.Outbound()|) else p.limit)
      case Revive => p.(phase := OPEN)
      case BrokerCloses => p.(limit := Some(0), strayed := p.strayed || p.Outbound() != [])
      case LearnClosed => p.(phase := CLOSED)
      case ChannelReset => NewLifetime(p).(leftover := p.leftover + p.writing)
      case SocketLost => NewLifetime(p).(leftover := [])
  }

  /** The event acknowledges a delivery, and for the first time. */
  predicate FirstAck(p: Pipeline, e: Event) {
    e.AppAck? ==> e.delivery in p.everDelivered && e.delivery !in p.acked
  }

  // ---- The invariant ----

  /** All queued acknowledgements, oldest first. */
  function Flat(q: seq<seq<ConsumerAck>>): seq<ConsumerAck> {
    if q == [] then [] else q[0] + Flat(q[1..])
  }

  lemma {:induction false} FlatPush(q: seq<seq<ConsumerAck>>, a: ConsumerAck)
    ensures Flat(q + [[a]]) == Flat(q) + [a]
    ensures q != [] ==> Flat(q[|q| - 1 := q[|q| - 1] + [a]]) == Flat(q) + [a]
  {
    if q == [] {
      assert q + [[a]] == [[a]];
      assert Flat([[a]]) == [a] + Flat([]);
    } else {
      FlatPush(q[1..], a);
      assert (q + [[a]])[1..] == q[1..] + [[a]];
      assert Flat(q + [[a]]) == q[0] + (Flat(q[1..]) + [a]);
      var n := |q| - 1;
      var q' := q[n := q[n] + [a]];
      if n == 0 {
        assert q'[1..] == q[1..] == [];
        assert Flat(q') == q[0] + [a] + Flat([]);
      } else {
        assert q'[1..] == q[1..][n - 1 := q[1..][n - 1] + [a]];
        assert Flat(q') == q[0] + (Flat(q[1..]) + [a]);
      }
    }
  }

  ghost predicate QueueOk(p: Pipeline) {
    && p.acked <= p.everDelivered
    && DistinctDeliveries(Flat(p.queue))
    && (forall a | a in Flat(p.queue) :: DeliveryOf(a) in p.acked)
    && (forall a | a in Flat(p.queue) && a.lifetimeId == p.store.lifetimeId ::
          a.tag !in p.requested && a.tag !in p.dropped)
    && (forall d | d in p.everDelivered :: 0 < d.tag && d.lifetimeId <= p.store.lifetimeId)
    && (forall t | t in p.requested :: Delivery(p.store.lifetimeId, t) in p.acked)
    && (forall t | t in p.dropped :: Delivery(p.store.lifetimeId, t) in p.acked && t !in p.requested)
    && (p.batchOpen <==> p.queue != [])
    && |p.queue| <= p.jobs
  }

  /** A settlement which covers only requested tags. */
  ghost predicate CoversOnly(f: Settlement, requested: set<nat>) {
    && f.tag in requested
    && (f.multiple ==> forall t | 0 < t <= f.tag :: t in requested)
  }

  /** Once the broker has read `out` it will have settled exactly what was requested. */
  ghost predicate BrokerSide(b: Broker, out: seq<Settlement>, requested: map<nat, AckType>, delivered: set<nat>,
                             total: nat, maxTag: nat) {
    && SettleAll(b, out) == Broker(delivered - requested.Keys, requested, false)
    && Counts(requested.Keys, total, maxTag)
    && (forall f | f in out :: CoversOnly(f, requested.Keys))
    && Parted(b.outcome.Keys, b.unsettled, delivered)
  }

  predicate Parted(settled: set<nat>, unsettled: set<nat>, delivered: set<nat>) {
    settled !! unsettled && settled + unsettled == delivered
  }

  lemma PartedGrows(settled: set<nat>, unsettled: set<nat>, delivered: set<nat>, tag: nat)
    requires Parted(settled, unsettled, delivered) && tag !in delivered
    ensures Parted(settled, unsettled + {tag}, delivered + {tag})
  {
  }

  ghost predicate BrokerOk(p: Pipeline) {
    BrokerSide(p.broker, p.Unsettling(), p.requested, p.Delivered(), p.totalAcked, p.maxProcessedTag)
  }

  /** The store holds exactly the deliveries whose settlement is not written, and while
      a write of an earlier lifetime has yet to complete there are none. */
  ghost predicate StoreOk(p: Pipeline) {
    && p.store.byTag.Keys == SettleAll(p.broker, p.discarded + p.transit).unsettled
    && (p.leftover != [] ==> p.Delivered() == {})
  }

  /** The broker discards only after it has closed the channel, and something has
      strayed exactly when it was discarded or is going to be. */
  predicate LimitOk(p: Pipeline) {
    && (p.limit.Some? ==> p.limit.value <= |p.Outbound()|)
    && (p.discarded != [] ==> p.limit == Some(0))
    && (p.strayed <==> p.discarded != [] || (p.limit.Some? && p.limit.value < |p.Outbound()|))
  }

  ghost predicate Queued(p: Pipeline, d: Delivery) {
    exists a :: a in Flat(p.queue) && DeliveryOf(a) == d
  }

  /** An acknowledgement of this lifetime is waiting in the queue, has been written or
      was refused because the channel was closing. */
  ghost predicate NothingLost(p: Pipeline) {
    forall d | d in p.acked && d.lifetimeId == p.store.lifetimeId ::
      d.tag in p.requested || d.tag in p.dropped || Queued(p, d)
  }

  ghost predicate Inv(p: Pipeline) {
    QueueOk(p) && BrokerOk(p) && StoreOk(p) && LimitOk(p)
  }

  // ---- What the broker makes of settlements ----

  lemma {:induction false} OutcomesStay(b: Broker, fs: seq<Settlement>)
    requires b.outcome.Keys !! b.unsettled
    ensures forall t | t in b.outcome :: t in SettleAll(b, fs).outcome && SettleAll(b, fs).outcome[t] == b.outcome[t]
    ensures SettleAll(b, fs).unsettled <= b.unsettled
    decreases |fs|
  {
    if fs != [] {
      OutcomesStay(Settle(b, fs[0]), fs[1..]);
    }
  }

  /** A new delivery is not touched by settlements already written. */
  lemma {:induction false} DeliveryCommutes(b: Broker, fs: seq<Settlement>, t: nat, requested: set<nat>)
    requires t > 0 && t !in requested
    requires forall f | f in fs :: CoversOnly(f, requested)
    ensures SettleAll(b.(unsettled := b.unsettled + {t}), fs)
         == SettleAll(b, fs).(unsettled := SettleAll(b, fs).unsettled + {t})
    decreases |fs|
  {
    if fs != [] {
      var f := fs[0];
      assert f in fs;
      var b' := b.(unsettled := b.unsettled + {t});
      assert CoveredBy(b', f) == CoveredBy(b, f);
      assert Settle(b', f) == Settle(b, f).(unsettled := Settle(b, f).unsettled + {t}) by {
        assert b'.unsettled - CoveredBy(b, f) == (b.unsettled - CoveredBy(b, f)) + {t};
      }
      DeliveryCommutes(Settle(b, f), fs[1..], t, requested);
    }
  }

  lemma {:induction false} KindOfKeys(acks: seq<ConsumerAck>)
    ensures KindOf(acks).Keys == Tags(acks)
  {
    if acks != [] {
      KindOfKeys(acks[1..]);
      forall t ensures t in Tags(acks) <==> t == acks[0].tag || t in Tags(acks[1..]) {
        if t in Tags(acks) && t != acks[0].tag {
          var i :| 0 <= i < |acks| && acks[i].tag == t;
          assert acks[1..][i - 1].tag == t;
        }
        if t in Tags(acks[1..]) {
          var i :| 0 <= i < |acks[1..]| && acks[1..][i].tag == t;
          assert acks[i + 1].tag == t;
        }
      }
    }
  }

  lemma TakeFirst(b: Broker, acks: seq<ConsumerAck>)
    requires acks != []
    ensures var b' := Take(b, {acks[0].tag}, acks[0].kind);
      && b.outcome + KindOf(acks) == b'.outcome + KindOf(acks[1..])
      && b.unsettled - KindOf(acks).Keys == b'.unsettled - KindOf(acks[1..]).Keys
      && b'.faulted == b.faulted
  {
    var b' := Take(b, {acks[0].tag}, acks[0].kind);
    var rest := KindOf(acks[1..]);
    assert b'.outcome == b.outcome[acks[0].tag := acks[0].kind];
    MergeAssociates(b.outcome, acks[0].tag, acks[0].kind, rest);
    SubtractTwice(b.unsettled, acks[0].tag, rest.Keys);
    assert KindOf(acks).Keys == {acks[0].tag} + rest.Keys;
  }

  lemma MergeAssociates(m: map<nat, AckType>, k: nat, v: AckType, n: map<nat, AckType>)
    ensures m + (map[k := v] + n) == m[k := v] + n
  {
  }

  lemma SubtractTwice(s: set<nat>, x: nat, t: set<nat>)
    ensures s - ({x} + t) == s - {x} - t
  {
  }

  /** One by one, each requested tag is settled with its requested type. */
  lemma {:induction false} IndividuallySettles(b: Broker, done: set<nat>, acks: seq<ConsumerAck>)
    requires Fresh(b, done, acks)
    ensures SettleAll(b, Individually(acks))
         == Broker(b.unsettled - KindOf(acks).Keys, b.outcome + KindOf(acks), b.faulted)
    decreases |acks|
  {
    if acks == [] {
      assert b.unsettled - {} == b.unsettled;
      assert b.outcome + map[] == b.outcome;
    } else {
      var a, rest := acks[0], acks[1..];
      var b' := Settle(b, Single(a));
      assert a in acks;
      SettleOne(b, Single(a));
      TakeFirst(b, acks);
      RestFresh(b, b', done, acks);
      IndividuallySettles(b', done + {a.tag}, rest);
      assert Individually(acks)[0] == Single(a) && Individually(acks)[1..] == Individually(rest);
    }
  }

  lemma KindOfFirst(done: set<nat>, acks: seq<ConsumerAck>)
    requires acks != []
    ensures done + KindOf(acks).Keys == done + {acks[0].tag} + KindOf(acks[1..]).Keys
  {
    assert KindOf(acks).Keys == {acks[0].tag} + KindOf(acks[1..]).Keys;
  }

  lemma {:induction false} CountsAll(done: set<nat>, total: nat, maxTag: nat, acks: seq<ConsumerAck>, b: Broker)
    requires Counts(done, total, maxTag) && Fresh(b, done, acks)
    ensures Counts(done + KindOf(acks).Keys, total + |acks|, MaxTag(acks, maxTag))
    decreases |acks|
  {
    if acks == [] {
      assert done + KindOf(acks).Keys == done;
    } else {
      CountsStep(done, total, maxTag, acks[0].tag);
      RestFresh(b, b, done, acks);
      CountsAll(done + {acks[0].tag}, total + 1, Max(maxTag, acks[0].tag), acks[1..], b);
      KindOfFirst(done, acks);
    }
  }

  /** Whatever the batching loop writes covers only requested tags. */
  lemma {:induction false} EmitCoversOnly(done: set<nat>, acks: seq<ConsumerAck>, total: nat, maxTag: nat,
                                          batch: Batch, b: Broker, f: Settlement)
    requires Counts(done, total, maxTag) && Fresh(b, done, acks)
    requires batch.length > 0 ==> total == maxTag == batch.maxTag > 0
    requires f in Emit(acks, total, maxTag, batch)
    ensures CoversOnly(f, done + KindOf(acks).Keys)
    decreases |acks|
  {
    if batch.length > 0 {
      CountingArgument(done, maxTag);
    }
    if f in Flush(batch) {
      assert CoversOnly(f, done);
    } else if f == Single(acks[0]) {
    } else {
      var a := acks[0];
      var (out, batch') := StepOut(a, total, maxTag, batch);
      CountsStep(done, total, maxTag, a.tag);
      RestFresh(b, b, done, acks);
      EmitCoversOnly(done + {a.tag}, acks[1..], total + 1, Max(maxTag, a.tag), batch', b, f);
      KindOfFirst(done, acks);
    }
  }

  // ---- Every step keeps the invariant ----

  /** The broker's side does not depend on the queue. */
  lemma SameBrokerSide(p: Pipeline, p': Pipeline)
    requires BrokerOk(p) && StoreOk(p)
    requires p'.broker == p.broker && p'.transit == p.transit && p'.writing == p.writing && p'.store == p.store
    requires p'.discarded == p.discarded && p'.leftover == p.leftover
    requires p'.requested == p.requested && p'.totalAcked == p.totalAcked && p'.maxProcessedTag == p.maxProcessedTag
    requires p'.everDelivered == p.everDelivered
    ensures BrokerOk(p') && StoreOk(p')
  {
    assert p'.Delivered() == p.Delivered() && p'.Unsettling() == p.Unsettling();
  }

  /** The queue does not depend on the broker's side. */
  lemma SameQueueSide(p: Pipeline, p': Pipeline)
    requires QueueOk(p)
    requires p'.acked == p.acked && p'.everDelivered == p.everDelivered && p'.requested == p.requested
    requires p'.queue == p.queue && p'.batchOpen == p.batchOpen && p'.jobs == p.jobs && p'.dropped == p.dropped
    requires p'.store.lifetimeId == p.store.lifetimeId
    ensures QueueOk(p')
  {
  }

  lemma DeliverKeepsQueue(p: Pipeline, tag: nat, entry: MS.Entry<Message>)
    requires QueueOk(p) && Enabled(p, Deliver(tag, entry))
    ensures QueueOk(Step(p, Deliver(tag, entry)))
  {
  }

  lemma DeliveryAddsOne(b: Broker, out: seq<Settlement>, requested: map<nat, AckType>, delivered: set<nat>,
                        total: nat, maxTag: nat, tag: nat)
    requires BrokerSide(b, out, requested, delivered, total, maxTag)
    requires tag > 0 && tag !in delivered && tag !in requested
    ensures BrokerSide(b.(unsettled := b.unsettled + {tag}), out, requested, delivered + {tag}, total, maxTag)
  {
    DeliverySettles(b, out, requested, delivered, tag);
    PartedGrows(b.outcome.Keys, b.unsettled, delivered, tag);
  }

  lemma DeliverySettles(b: Broker, out: seq<Settlement>, requested: map<nat, AckType>, delivered: set<nat>, tag: nat)
    requires SettleAll(b, out) == Broker(delivered - requested.Keys, requested, false)
    requires forall f | f in out :: CoversOnly(f, requested.Keys)
    requires tag > 0 && tag !in requested
    ensures SettleAll(b.(unsettled := b.unsettled + {tag}), out)
         == Broker(delivered + {tag} - requested.Keys, requested, false)
  {
    DeliveryCommutes(b, out, tag, requested.Keys);
    AddThenSubtract(delivered, tag, requested.Keys);
  }

  lemma AddThenSubtract(s: set<nat>, x: nat, t: set<nat>)
    requires x !in t
    ensures s + {x} - t == s - t + {x}
  {
  }

  lemma DeliveredTags(p: Pipeline, tag: nat, entry: MS.Entry<Message>)
    requires Enabled(p, Deliver(tag, entry))
    ensures tag !in p.Delivered()
    ensures Step(p, Deliver(tag, entry)).Delivered() == p.Delivered() + {tag}
  {
    var p' := Step(p, Deliver(tag, entry));
    assert p'.store.lifetimeId == p.store.lifetimeId;
  }

  lemma RequestedDelivered(p: Pipeline, t: nat)
    requires QueueOk(p) && t in p.requested
    ensures t in p.Delivered()
  {
    assert Delivery(p.store.lifetimeId, t) in p.everDelivered;
  }

  lemma DeliverKeepsBroker(p: Pipeline, tag: nat, entry: MS.Entry<Message>)
    requires Inv(p) && Enabled(p, Deliver(tag, entry))
    ensures BrokerOk(Step(p, Deliver(tag, entry)))
  {
    DeliveredTags(p, tag, entry);
    if tag in p.requested {
      RequestedDelivered(p, tag);
    }
    DeliveryAddsOne(p.broker, p.Unsettling(), p.requested, p.Delivered(), p.totalAcked, p.maxProcessedTag, tag);
  }

  /** A new delivery enters the store as it enters what the broker waits for. */
  lemma StoreGrows(store: MS.Store<Message>, b: Broker, out: seq<Settlement>, requested: set<nat>,
                   tag: nat, entry: MS.Entry<Message>)
    requires store.byTag.Keys == SettleAll(b, out).unsettled && b.outcome.Keys !! b.unsettled
    requires forall f | f in out :: CoversOnly(f, requested)
    requires tag > 0 && tag !in requested && tag !in b.unsettled
    ensures store.Insert(tag, entry).byTag.Keys == SettleAll(b.(unsettled := b.unsettled + {tag}), out).unsettled
  {
    DeliveryCommutes(b, out, tag, requested);
    OutcomesStay(b, out);
    assert tag !in store.byTag;
  }

  lemma DeliverKeepsStore(p: Pipeline, tag: nat, entry: MS.Entry<Message>)
    requires Inv(p) && Enabled(p, Deliver(tag, entry))
    ensures StoreOk(Step(p, Deliver(tag, entry)))
  {
    DeliveredTags(p, tag, entry);
    if tag in p.requested {
      RequestedDelivered(p, tag);
    }
    assert forall f | f in p.discarded + p.transit :: f in p.Unsettling();
    StoreGrows(p.store, p.broker, p.discarded + p.transit, p.requested.Keys, tag, entry);
  }

  lemma DeliverKeepsInv(p: Pipeline, tag: nat, entry: MS.Entry<Message>)
    requires Inv(p) && Enabled(p, Deliver(tag, entry))
    ensures Inv(Step(p, Deliver(tag, entry)))
  {
    DeliverKeepsQueue(p, tag, entry);
    DeliverKeepsBroker(p, tag, entry);
    DeliverKeepsStore(p, tag, entry);
  }

  lemma AddAckKeepsQueue(p: Pipeline, d: Delivery, kind: AckType)
    requires QueueOk(p) && FirstAck(p, AppAck(d, kind))
    ensures QueueOk(Step(p, AppAck(d, kind)))
  {
    FlatPush(p.queue, AckFor(d, kind));
  }

  lemma AppAckKeepsInv(p: Pipeline, d: Delivery, kind: AckType)
    requires Inv(p) && FirstAck(p, AppAck(d, kind))
    ensures Inv(Step(p, AppAck(d, kind)))
  {
    AddAckKeepsQueue(p, d, kind);
    SameBrokerSide(p, Step(p, AppAck(d, kind)));
  }

  /** A job takes the current lifetime's acknowledgements of the oldest batch. */
  lemma TakenFromBatch(p: Pipeline, sorted: seq<ConsumerAck>, a: ConsumerAck)
    requires Enabled(p, RunJob(sorted)) && p.queue != [] && a in sorted
    ensures a in p.queue[0] && a in Flat(p.queue) && a.lifetimeId == p.store.lifetimeId
  {
    var retained := Retain(p.queue[0], p.store.lifetimeId);
    assert a in multiset(retained);
    RetainContents(p.queue[0], p.store.lifetimeId, a);
    assert Flat(p.queue) == p.queue[0] + Flat(p.queue[1..]);
  }

  lemma TakenDistinct(p: Pipeline, sorted: seq<ConsumerAck>)
    requires DistinctDeliveries(Flat(p.queue)) && Enabled(p, RunJob(sorted)) && p.queue != []
    ensures DistinctTags(sorted)
  {
    assert p.queue[0] == Flat(p.queue)[..|p.queue[0]|];
    RetainDistinct(p.queue[0], p.store.lifetimeId);
    PermutationDistinct(Retain(p.queue[0], p.store.lifetimeId), sorted);
  }

  lemma TakenBatchFresh(p: Pipeline, sorted: seq<ConsumerAck>, end: Broker)
    requires QueueOk(p) && Enabled(p, RunJob(sorted)) && p.queue != []
    requires end.unsettled == p.Delivered() - p.requested.Keys
    ensures Fresh(end, p.requested.Keys, sorted)
  {
    TakenDistinct(p, sorted);
    forall a | a in sorted
      ensures a.tag > 0 && a.tag in end.unsettled && a.tag !in p.requested
    {
      TakenFromBatch(p, sorted, a);
      assert DeliveryOf(a) in p.everDelivered;
    }
  }

  lemma DropDistinct(all: seq<ConsumerAck>, n: nat)
    requires n <= |all| && DistinctDeliveries(all)
    ensures DistinctDeliveries(all[n..])
    ensures forall i, a | 0 <= i < n && a in all[n..] :: DeliveryOf(all[i]) != DeliveryOf(a)
  {
  }

  /** A tag the job requests was acknowledged and is queued nowhere else. */
  lemma TakenTag(p: Pipeline, sorted: seq<ConsumerAck>, t: nat)
    requires QueueOk(p) && Enabled(p, RunJob(sorted)) && p.queue != [] && t in KindOf(sorted)
    ensures Delivery(p.store.lifetimeId, t) in p.acked && t !in p.requested && t !in p.dropped
    ensures forall a | a in Flat(p.queue[1..]) :: DeliveryOf(a) != Delivery(p.store.lifetimeId, t)
  {
    KindOfKeys(sorted);
    var i :| 0 <= i < |sorted| && sorted[i].tag == t;
    TakenFromBatch(p, sorted, sorted[i]);
    var k :| 0 <= k < |p.queue[0]| && p.queue[0][k] == sorted[i];
    QueuedElsewhere(p.queue, k);
  }

  lemma QueuedElsewhere(q: seq<seq<ConsumerAck>>, k: nat)
    requires q != [] && k < |q[0]| && DistinctDeliveries(Flat(q))
    ensures forall a | a in Flat(q[1..]) :: DeliveryOf(a) != DeliveryOf(q[0][k])
  {
    var all, n := Flat(q), |q[0]|;
    assert all[k] == q[0][k] && all[n..] == Flat(q[1..]);
    DropDistinct(all, n);
  }

  /** The oldest batch leaves, and its tags are requested or refused. */
  lemma BatchLeaves(p: Pipeline, p': Pipeline, taken: set<nat>)
    requires QueueOk(p) && p.queue != [] && p.jobs > 0
    requires p'.queue == p.queue[1..] && p'.batchOpen == (p.batchOpen && |p.queue| > 1) && p'.jobs == p.jobs - 1
    requires p'.acked == p.acked && p'.everDelivered == p.everDelivered && p'.store == p.store
    requires forall t | t in taken :: Delivery(p.store.lifetimeId, t) in p.acked && t !in p.requested && t !in p.dropped
    requires forall a | a in Flat(p.queue[1..]) && a.lifetimeId == p.store.lifetimeId :: a.tag !in taken
    requires || (p'.requested.Keys == p.requested.Keys + taken && p'.dropped == p.dropped)
             || (p'.requested == p.requested && p'.dropped == p.dropped + taken)
    ensures QueueOk(p')
  {
    var all, n := Flat(p.queue), |p.queue[0]|;
    assert all == p.queue[0] + Flat(p.queue[1..]) && all[n..] == Flat(p.queue[1..]);
    DropDistinct(all, n);
    assert forall a | a in Flat(p'.queue) :: a in all;
  }

  lemma TakenTags(p: Pipeline, sorted: seq<ConsumerAck>)
    requires QueueOk(p) && Enabled(p, RunJob(sorted)) && p.queue != []
    ensures forall t | t in KindOf(sorted) ::
      Delivery(p.store.lifetimeId, t) in p.acked && t !in p.requested && t !in p.dropped
    ensures forall a | a in Flat(p.queue[1..]) && a.lifetimeId == p.store.lifetimeId :: a.tag !in KindOf(sorted)
  {
    forall t | t in KindOf(sorted)
      ensures Delivery(p.store.lifetimeId, t) in p.acked && t !in p.requested && t !in p.dropped
      ensures forall a | a in Flat(p.queue[1..]) :: DeliveryOf(a) != Delivery(p.store.lifetimeId, t)
    {
      TakenTag(p, sorted, t);
    }
    forall a | a in Flat(p.queue[1..]) && a.lifetimeId == p.store.lifetimeId
      ensures a.tag !in KindOf(sorted)
    {
      assert DeliveryOf(a) == Delivery(p.store.lifetimeId, a.tag);
    }
  }

  lemma RunJobKeepsQueue(p: Pipeline, sorted: seq<ConsumerAck>)
    requires QueueOk(p) && Enabled(p, RunJob(sorted))
    ensures QueueOk(Step(p, RunJob(sorted)))
  {
    if p.queue != [] {
      TakenTags(p, sorted);
      JobTakes(p, sorted);
      BatchLeaves(p, Step(p, RunJob(sorted)), KindOf(sorted).Keys);
    }
  }

  lemma JobTakes(p: Pipeline, sorted: seq<ConsumerAck>)
    requires Enabled(p, RunJob(sorted)) && p.queue != []
    ensures var p', taken := Step(p, RunJob(sorted)), KindOf(sorted).Keys;
      && p'.queue == p.queue[1..] && p'.batchOpen == (p.batchOpen && |p.queue| > 1) && p'.jobs == p.jobs - 1
      && p'.acked == p.acked && p'.everDelivered == p.everDelivered && p'.store == p.store
      && (p.phase == OPEN ==> p'.requested.Keys == p.requested.Keys + taken && p'.dropped == p.dropped)
      && (p.phase != OPEN ==> p'.requested == p.requested && p'.dropped == p.dropped + taken)
  {
    assert (p.requested + KindOf(sorted)).Keys == p.requested.Keys + KindOf(sorted).Keys;
  }

  /** One batch settles exactly the tags it requests, each with its type. */
  lemma BatchSettles(end: Broker, requested: map<nat, AckType>, delivered: set<nat>,
                     sorted: seq<ConsumerAck>, total: nat, maxTag: nat)
    requires !end.faulted && end.outcome == requested && end.unsettled == delivered - requested.Keys
    requires 0 !in delivered && Counts(requested.Keys, total, maxTag) && Fresh(end, requested.Keys, sorted)
    ensures SettleAll(end, Emit(sorted, total, maxTag, NO_BATCH))
         == Broker(delivered - (requested + KindOf(sorted)).Keys, requested + KindOf(sorted), false)
    ensures Counts((requested + KindOf(sorted)).Keys, total + |sorted|, MaxTag(sorted, maxTag))
  {
    EmitRefines(end, requested.Keys, sorted, total, maxTag, NO_BATCH);
    assert SettleAll(end, Flush(NO_BATCH)) == end;
    IndividuallySettles(end, requested.Keys, sorted);
    CountsAll(requested.Keys, total, maxTag, sorted, end);
    assert (requested + KindOf(sorted)).Keys == requested.Keys + KindOf(sorted).Keys;
    assert delivered - requested.Keys - KindOf(sorted).Keys == delivered - (requested.Keys + KindOf(sorted).Keys);
  }

  lemma BatchCovers(b: Broker, out: seq<Settlement>, requested: map<nat, AckType>,
                    sorted: seq<ConsumerAck>, total: nat, maxTag: nat, f: Settlement)
    requires Counts(requested.Keys, total, maxTag) && Fresh(b, requested.Keys, sorted)
    requires f in out ==> CoversOnly(f, requested.Keys)
    requires f in out + Emit(sorted, total, maxTag, NO_BATCH)
    ensures CoversOnly(f, (requested + KindOf(sorted)).Keys)
  {
    assert (requested + KindOf(sorted)).Keys == requested.Keys + KindOf(sorted).Keys;
    if f !in out {
      EmitCoversOnly(requested.Keys, sorted, total, maxTag, NO_BATCH, b, f);
    }
  }

  lemma BatchAdds(b: Broker, out: seq<Settlement>, requested: map<nat, AckType>, delivered: set<nat>,
                  total: nat, maxTag: nat, sorted: seq<ConsumerAck>)
    requires BrokerSide(b, out, requested, delivered, total, maxTag) && 0 !in delivered
    requires Fresh(SettleAll(b, out), requested.Keys, sorted)
    ensures BrokerSide(b, out + Emit(sorted, total, maxTag, NO_BATCH), requested + KindOf(sorted), delivered,
                       total + |sorted|, MaxTag(sorted, maxTag))
  {
    var end, emitted := SettleAll(b, out), Emit(sorted, total, maxTag, NO_BATCH);
    SettleAllAppend(b, out, emitted);
    BatchSettles(end, requested, delivered, sorted, total, maxTag);
    forall f | f in out + emitted ensures CoversOnly(f, (requested + KindOf(sorted)).Keys) {
      BatchCovers(end, out, requested, sorted, total, maxTag, f);
    }
  }

  lemma JobWrites(p: Pipeline, sorted: seq<ConsumerAck>)
    requires Enabled(p, RunJob(sorted)) && p.queue != [] && p.phase == OPEN
    ensures var p' := Step(p, RunJob(sorted));
      && p'.Outbound() == p.Outbound() + Emit(sorted, p.totalAcked, p.maxProcessedTag, NO_BATCH)
      && p'.Unsettling() == p.Unsettling() + Emit(sorted, p.totalAcked, p.maxProcessedTag, NO_BATCH)
      && p'.Delivered() == p.Delivered() && p'.leftover == p.leftover
      && p'.broker == p.broker && p'.transit == p.transit && p'.store == p.store && p'.discarded == p.discarded
  {
    var p', emitted := Step(p, RunJob(sorted)), Emit(sorted, p.totalAcked, p.maxProcessedTag, NO_BATCH);
    assert p' == TakeBatch(p, sorted) && p'.writing == p.writing + emitted;
    assert p.transit + (p.writing + emitted) == p.transit + p.writing + emitted;
    assert p.discarded + (p.Outbound() + emitted) == p.discarded + p.Outbound() + emitted;
  }

  lemma NoTagZero(p: Pipeline)
    requires QueueOk(p)
    ensures 0 !in p.Delivered()
  {
  }

  lemma RunJobKeepsBroker(p: Pipeline, sorted: seq<ConsumerAck>)
    requires QueueOk(p) && BrokerOk(p) && Enabled(p, RunJob(sorted)) && p.queue != [] && p.phase == OPEN
    ensures BrokerOk(Step(p, RunJob(sorted)))
  {
    JobWrites(p, sorted);
    BatchSide(p, sorted);
  }

  lemma BatchSide(p: Pipeline, sorted: seq<ConsumerAck>)
    requires QueueOk(p) && BrokerOk(p) && Enabled(p, RunJob(sorted)) && p.queue != []
    ensures BrokerSide(p.broker, p.Unsettling() + Emit(sorted, p.totalAcked, p.maxProcessedTag, NO_BATCH),
                       p.requested + KindOf(sorted), p.Delivered(), p.totalAcked + |sorted|,
                       MaxTag(sorted, p.maxProcessedTag))
  {
    TakenBatchFresh(p, sorted, SettleAll(p.broker, p.Unsettling()));
    NoTagZero(p);
    BatchAdds(p.broker, p.Unsettling(), p.requested, p.Delivered(), p.totalAcked, p.maxProcessedTag, sorted);
  }

  lemma RunJobKeepsInv(p: Pipeline, sorted: seq<ConsumerAck>)
    requires Inv(p) && Enabled(p, RunJob(sorted))
    ensures Inv(Step(p, RunJob(sorted)))
  {
    RunJobKeepsQueue(p, sorted);
    if p.queue != [] && p.phase == OPEN {
      assert BrokerOk(Step(p, RunJob(sorted))) by { RunJobKeepsBroker(p, sorted); }
      JobWrites(p, sorted);
    } else {
      SameBrokerSide(p, Step(p, RunJob(sorted)));
    }
  }

  /** A completed write of this lifetime finds its tag in the store. */
  lemma WriteFindsTag(p: Pipeline)
    requires BrokerOk(p) && StoreOk(p) && p.writing != []
    ensures p.writing[0].tag in p.store.byTag
  {
    var b := SettleAll(p.broker, p.discarded + p.transit);
    assert p.Unsettling() == p.discarded + p.transit + p.writing;
    SettleAllAppend(p.broker, p.discarded + p.transit, p.writing);
    if p.writing[0].tag !in b.unsettled {
      FaultsStay(Settle(b, p.writing[0]), p.writing[1..]);
    }
  }

  /** One of an earlier lifetime finds nothing, and removes nothing. */
  lemma LeftoverMisses(p: Pipeline)
    requires BrokerOk(p) && StoreOk(p) && p.leftover != []
    ensures p.store.byTag == map[] && Complete(p).store == p.store
  {
    OutcomesStay(p.broker, p.discarded + p.transit);
    assert p.broker.unsettled == {};
    assert p.store.byTag.Keys == {};
  }

  /** Removing what a settlement covers from the store follows the broker. */
  lemma RemovalFollows(store: MS.Store<Message>, b: Broker, f: Settlement)
    requires store.byTag.Keys == b.unsettled && f.tag in b.unsettled
    ensures RemoveSettled(store, f).byTag.Keys == Settle(b, f).unsettled
  {
    assert RemoveSettled(store, f).byTag.Keys == store.byTag.Keys - CoveredBy(b, f);
  }

  lemma WriteDoneKeepsStore(p: Pipeline)
    requires StoreOk(p) && p.leftover == [] && p.writing != [] && p.writing[0].tag in p.store.byTag
    ensures StoreOk(Step(p, WriteDone))
  {
    var f, b := p.writing[0], SettleAll(p.broker, p.discarded + p.transit);
    RemovalFollows(p.store, b, f);
    SettleAllAppend(p.broker, p.discarded + p.transit, [f]);
    assert SettleAll(b, [f]) == Settle(b, f);
    assert p.discarded + (p.transit + [f]) == p.discarded + p.transit + [f];
  }

  lemma OutboundStays(p: Pipeline)
    requires p.leftover == [] && p.writing != []
    ensures Step(p, WriteDone).Outbound() == p.Outbound()
    ensures Step(p, WriteDone).Delivered() == p.Delivered()
  {
  }

  lemma WriteDoneKeepsQueue(p: Pipeline)
    requires QueueOk(p) && p.leftover == [] && p.writing != []
    ensures QueueOk(Step(p, WriteDone))
  {
    SameQueueSide(p, Step(p, WriteDone));
  }

  lemma WriteDoneKeepsBroker(p: Pipeline)
    requires BrokerOk(p) && LimitOk(p) && p.leftover == [] && p.writing != []
    ensures BrokerOk(Step(p, WriteDone)) && LimitOk(Step(p, WriteDone))
  {
    OutboundStays(p);
    assert Step(p, WriteDone).Unsettling() == p.Unsettling();
  }

  lemma WriteDoneKeepsInv(p: Pipeline)
    requires Inv(p) && p.leftover == [] && p.writing != []
    ensures Inv(Step(p, WriteDone))
  {
    var p' := Step(p, WriteDone);
    assert QueueOk(p') by { WriteDoneKeepsQueue(p); }
    assert BrokerOk(p') && LimitOk(p') by { WriteDoneKeepsBroker(p); }
    assert StoreOk(p') by {
      WriteFindsTag(p);
      WriteDoneKeepsStore(p);
    }
  }

  lemma LeftoverKeepsInv(p: Pipeline)
    requires Inv(p) && p.leftover != []
    ensures Inv(Step(p, WriteDone))
  {
    var p' := Step(p, WriteDone);
    LeftoverMisses(p);
    SameQueueSide(p, p');
    assert p'.Delivered() == p.Delivered() && p'.Unsettling() == p.Unsettling();
  }

  lemma ReadingTakesOne(b: Broker, out: seq<Settlement>, requested: map<nat, AckType>, delivered: set<nat>,
                        total: nat, maxTag: nat)
    requires BrokerSide(b, out, requested, delivered, total, maxTag) && out != []
    ensures BrokerSide(Settle(b, out[0]), out[1..], requested, delivered, total, maxTag)
  {
    SettleSplits(b, out[0]);
  }

  lemma OutboundShrinks(p: Pipeline)
    requires p.transit != []
    ensures p.Outbound() != [] && p.Outbound()[0] == p.transit[0]
    ensures Step(p, BrokerReads).Outbound() == p.Outbound()[1..]
    ensures Step(p, BrokerReads).Delivered() == p.Delivered()
  {
  }

  lemma BrokerReadsKeepsQueue(p: Pipeline)
    requires QueueOk(p) && p.transit != []
    ensures QueueOk(Step(p, BrokerReads))
  {
    SameQueueSide(p, Step(p, BrokerReads));
  }

  lemma BrokerReadsKeepsLimit(p: Pipeline)
    requires LimitOk(p) && p.transit != []
    ensures LimitOk(Step(p, BrokerReads))
  {
    OutboundShrinks(p);
  }

  /** A broker that has the channel open settles what it reads. */
  lemma ReadSettles(p: Pipeline)
    requires BrokerOk(p) && StoreOk(p) && p.transit != [] && p.limit != Some(0) && p.discarded == []
    ensures BrokerOk(Step(p, BrokerReads)) && StoreOk(Step(p, BrokerReads))
  {
    var p' := Step(p, BrokerReads);
    OutboundShrinks(p);
    assert p.Unsettling() == p.Outbound() && p'.Unsettling() == p'.Outbound();
    assert p.discarded + p.transit == p.transit && p'.discarded + p'.transit == p'.transit;
    ReadingTakesOne(p.broker, p.Outbound(), p.requested, p.Delivered(), p.totalAcked, p.maxProcessedTag);
  }

  /** One that has closed it leaves what it reads unsettled. */
  lemma ReadDiscards(p: Pipeline)
    requires BrokerOk(p) && StoreOk(p) && p.transit != [] && p.limit == Some(0)
    ensures BrokerOk(Step(p, BrokerReads)) && StoreOk(Step(p, BrokerReads))
  {
    DiscardMoves(p);
  }

  lemma DiscardMoves(p: Pipeline)
    requires p.transit != [] && p.limit == Some(0)
    ensures var p' := Step(p, BrokerReads);
      && p'.discarded + p'.transit == p.discarded + p.transit
      && p'.Unsettling() == p.Unsettling()
      && p'.Delivered() == p.Delivered()
      && p'.broker == p.broker && p'.store == p.store && p'.leftover == p.leftover
  {
    var p' := Step(p, BrokerReads);
    FirstMoves(p.discarded, p.transit, p.writing);
  }

  lemma FirstMoves(a: seq<Settlement>, b: seq<Settlement>, c: seq<Settlement>)
    requires b != []
    ensures a + [b[0]] + b[1..] == a + b
    ensures a + [b[0]] + (b[1..] + c) == a + (b + c)
  {
    assert [b[0]] + b[1..] == b;
  }

  lemma BrokerReadsKeepsInv(p: Pipeline)
    requires Inv(p) && p.transit != []
    ensures Inv(Step(p, BrokerReads))
  {
    var p' := Step(p, BrokerReads);
    assert QueueOk(p') by { BrokerReadsKeepsQueue(p); }
    assert LimitOk(p') by { BrokerReadsKeepsLimit(p); }
    assert BrokerOk(p') && StoreOk(p') by {
      if p.limit == Some(0) {
        ReadDiscards(p);
      } else {
        ReadSettles(p);
      }
    }
  }

  lemma SettleSplits(b: Broker, f: Settlement)
    requires b.outcome.Keys !! b.unsettled
    ensures Settle(b, f).outcome.Keys !! Settle(b, f).unsettled
    ensures Settle(b, f).outcome.Keys + Settle(b, f).unsettled == b.outcome.Keys + b.unsettled
  {
    if f.tag in b.unsettled {
      assert Settle(b, f).outcome.Keys == b.outcome.Keys + CoveredBy(b, f);
    }
  }

  lemma ResetKeepsInv(p: Pipeline, leftover: seq<Settlement>)
    requires Inv(p)
    ensures Inv(NewLifetime(p).(leftover := leftover))
  {
    var p' := NewLifetime(p).(leftover := leftover);
    assert QueueOk(p') by { ResetKeepsQueue(p, leftover); }
    assert p'.Delivered() == {};
    assert p'.requested.Keys == {} && p'.Unsettling() == [] && p'.discarded + p'.transit == [];
  }

  lemma ResetKeepsQueue(p: Pipeline, leftover: seq<Settlement>)
    requires QueueOk(p)
    ensures QueueOk(NewLifetime(p).(leftover := leftover))
  {
  }

  /** Events of the close protocol move only the limit and the phase. */
  lemma CloseKeepsInv(p: Pipeline, e: Event)
    requires Inv(p) && Enabled(p, e) && (e.AskClose? || e.Revive? || e.BrokerCloses? || e.LearnClosed?)
    ensures Inv(Step(p, e))
  {
    SameBrokerSide(p, Step(p, e));
    SameQueueSide(p, Step(p, e));
  }

  lemma StepKeepsInv(p: Pipeline, e: Event)
    requires Inv(p) && FirstAck(p, e)
    ensures Inv(Step(p, e))
  {
    if Enabled(p, e) {
      match e
      case Deliver(tag, entry) => DeliverKeepsInv(p, tag, entry);
      case AppAck(d, kind) => AppAckKeepsInv(p, d, kind);
      case RunJob(sorted) => RunJobKeepsInv(p, sorted);
      case WriteDone =>
        if p.leftover != [] {
          LeftoverKeepsInv(p);
        } else {
          WriteDoneKeepsInv(p);
        }
      case BrokerReads => BrokerReadsKeepsInv(p);
      case ChannelReset => ResetKeepsInv(p, p.leftover + p.writing);
      case SocketLost => ResetKeepsInv(p, []);
      case _ => CloseKeepsInv(p, e);
    }
  }

  lemma QueueGrows(p: Pipeline, p': Pipeline, a: ConsumerAck)
    requires NothingLost(p) && Flat(p'.queue) == Flat(p.queue) + [a] && p'.acked == p.acked + {DeliveryOf(a)}
    requires p'.requested == p.requested && p'.dropped == p.dropped && p'.store == p.store
    ensures NothingLost(p')
  {
    assert a in Flat(p'.queue);
    forall d | d in p.acked && d.lifetimeId == p.store.lifetimeId && Queued(p, d) ensures Queued(p', d) {
      var x :| x in Flat(p.queue) && DeliveryOf(x) == d;
      assert x in Flat(p'.queue);
    }
  }

  lemma AddAckLosesNothing(p: Pipeline, d: Delivery, kind: AckType)
    requires NothingLost(p)
    ensures NothingLost(Step(p, AppAck(d, kind)))
  {
    var p' := Step(p, AppAck(d, kind));
    FlatPush(p.queue, AckFor(d, kind));
    assert Flat(p'.queue) == Flat(p.queue) + [AckFor(d, kind)];
    QueueGrows(p, p', AckFor(d, kind));
  }

  lemma RunJobLosesNothing(p: Pipeline, sorted: seq<ConsumerAck>)
    requires NothingLost(p) && Enabled(p, RunJob(sorted))
    ensures NothingLost(Step(p, RunJob(sorted)))
  {
    if p.queue != [] {
      var p' := Step(p, RunJob(sorted));
      KindOfKeys(sorted);
      forall d | Queued(p, d) && d.lifetimeId == p.store.lifetimeId
        ensures d.tag in KindOf(sorted) || Queued(p', d)
      {
        var a :| a in Flat(p.queue) && DeliveryOf(a) == d;
        if a in p.queue[0] {
          RetainContents(p.queue[0], p.store.lifetimeId, a);
          assert a in multiset(sorted);
          var i :| 0 <= i < |sorted| && sorted[i] == a;
          assert sorted[i].tag in Tags(sorted);
        } else {
          assert a in Flat(p'.queue);
        }
      }
    }
  }

  lemma SameQueueLosesNothing(p: Pipeline, p': Pipeline)
    requires NothingLost(p) && p'.queue == p.queue && p'.acked == p.acked
    requires p'.requested == p.requested && p'.dropped == p.dropped && p'.store.lifetimeId == p.store.lifetimeId
    ensures NothingLost(p')
  {
    assert forall d | Queued(p, d) :: Queued(p', d);
  }

  /** Nothing of a lifetime that has just begun can have been acknowledged. */
  lemma NoneInNewLifetime(p: Pipeline, leftover: seq<Settlement>)
    requires QueueOk(p)
    ensures NothingLost(NewLifetime(p).(leftover := leftover))
  {
  }

  lemma StepLosesNothing(p: Pipeline, e: Event)
    requires QueueOk(p) && NothingLost(p)
    ensures NothingLost(Step(p, e))
  {
    if Enabled(p, e) {
      match e
      case AppAck(d, kind) => AddAckLosesNothing(p, d, kind);
      case RunJob(sorted) => RunJobLosesNothing(p, sorted);
      case ChannelReset => NoneInNewLifetime(p, p.leftover + p.writing);
      case SocketLost => NoneInNewLifetime(p, []);
      case _ => SameQueueLosesNothing(p, Step(p, e));
    }
  }

  // ---- What the invariant says about the broker and the store ----

  /** The broker settles only what was requested and how; and once it has read all that
      was written it has settled all of it exactly when nothing strayed. */
  lemma BrokerFollowsRequests(p: Pipeline)
    requires BrokerOk(p) && LimitOk(p)
    ensures !p.broker.faulted
    ensures forall t | t in p.broker.outcome :: t in p.requested && p.broker.outcome[t] == p.requested[t]
    ensures p.Outbound() == [] ==> (p.broker.outcome == p.requested <==> !p.strayed)
  {
    if p.broker.faulted {
      FaultsStay(p.broker, p.Unsettling());
    }
    OutcomesStay(p.broker, p.Unsettling());
    if p.Outbound() == [] {
      assert p.Unsettling() == p.discarded;
      if p.discarded != [] {
        DiscardedUnsettled(p);
      }
    }
  }

  /** What is discarded first was requested and is not settled. */
  lemma DiscardedUnsettled(p: Pipeline)
    requires BrokerOk(p) && p.discarded != []
    ensures var t := p.discarded[0].tag; t in p.requested && t !in p.broker.outcome
  {
    var f, all := p.discarded[0], p.Unsettling();
    assert all[0] == f && f in all;
    if f.tag !in p.broker.unsettled {
      FaultsStay(Settle(p.broker, f), all[1..]);
    }
  }

  lemma StoreFollowsRequests(p: Pipeline)
    requires BrokerOk(p) && StoreOk(p) && p.writing == []
    ensures p.store.byTag.Keys == p.Delivered() - p.requested.Keys
  {
    assert p.Unsettling() == p.discarded + p.transit;
  }

  // ---- Tags acknowledged twice ----

  /** Distinctness is exactly what batching needs: among delivered tags that were not
      settled otherwise, the broker accepts all that is written if and only if no tag
      is acknowledged twice, in this call or before it. */
  lemma EmitFaultsExactly(b: Broker, done: set<nat>, acks: seq<ConsumerAck>, total: nat, maxTag: nat)
    requires !b.faulted && 0 !in b.unsettled && done !! b.unsettled
    requires Counts(done, total, maxTag) && Known(b, done, acks)
    ensures SettleAll(b, Emit(acks, total, maxTag, NO_BATCH)).faulted <==> !FirstTime(done, acks)
  {
    if FirstTime(done, acks) {
      EmitRefines(b, done, acks, total, maxTag, NO_BATCH);
      assert SettleAll(b, Flush(NO_BATCH)) == b;
      IndividuallySettles(b, done, acks);
    } else {
      RepeatFaults(b, done, acks, total, maxTag, NO_BATCH);
    }
  }
}
