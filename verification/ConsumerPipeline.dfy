/**
 Guards and acknowledgement pipeline as one machine: the application copies,
 resolves and destroys guards, and what they pass to the acknowledgement callback is
 all that enters the pipeline.
 */
module ConsumerPipeline {
  import opened Wrappers
  import opened AckTypes
  import opened MultipleAck
  import opened AckPipeline
  import G = MessageGuard
  import MS = MessageStore

  datatype Consumer = Consumer(heap: G.Heap, pipe: Pipeline)

  datatype Event =
    | Delivered(id: nat, tag: nat, entry: MS.Entry<Message>)
    | Application(action: G.Event)
    | Internal(event: AckPipeline.Event)

  /** The application cannot make deliveries, and only guards acknowledge. */
  predicate Enabled(c: Consumer, e: Event) {
    match e
    case Delivered(id, tag, entry) =>
      && id !in c.heap.guards
      && AckPipeline.Enabled(c.pipe, Deliver(tag, entry))
    case Application(ge) => !ge.Create?
    case Internal(pe) => !pe.Deliver? && !pe.AppAck?
  }

  function Callback(p: Pipeline, sent: Option<ConsumerAck>): Pipeline {
    if sent.None? then p else AckPipeline.Step(p, AppAck(G.DeliveryOf(sent.value), sent.value.kind))
  }

  function Step(c: Consumer, e: Event): Consumer {
    if !Enabled(c, e) then c
    else match e
      case Delivered(id, tag, entry) =>
        Consumer(G.Step(c.heap, G.Create(id, G.Delivery(c.pipe.store.lifetimeId, tag))),
                 AckPipeline.Step(c.pipe, Deliver(tag, entry)))
      case Application(ge) => Consumer(G.Step(c.heap, ge), Callback(c.pipe, G.Acknowledged(c.heap, ge)))
      case Internal(pe) => Consumer(c.heap, AckPipeline.Step(c.pipe, pe))
  }

  function Run(es: seq<Event>): Consumer {
    if es == [] then Consumer(G.Init(), AckPipeline.Init()) else Step(Run(es[..|es| - 1]), es[|es| - 1])
  }

  // ---- The invariant ----

  function AckedDeliveries(acks: seq<ConsumerAck>): set<G.Delivery> {
    set a | a in acks :: G.DeliveryOf(a)
  }

  /** Guards and pipeline agree on what was delivered and acknowledged. */
  ghost predicate Agree(c: Consumer) {
    c.heap.delivered == c.pipe.everDelivered && AckedDeliveries(c.heap.acks) == c.pipe.acked
  }

  /** What is queued and what is requested is what guards asked for, type included. */
  ghost predicate AsAsked(acks: seq<ConsumerAck>, p: Pipeline) {
    && (forall a | a in Flat(p.queue) :: a in acks)
    && (forall t | t in p.requested :: ConsumerAck(t, p.store.lifetimeId, p.requested[t]) in acks)
  }

  ghost predicate Inv(c: Consumer) {
    && G.Inv(c.heap)
    && AckPipeline.Inv(c.pipe)
    && NothingLost(c.pipe)
    && Agree(c)
    && AsAsked(c.heap.acks, c.pipe)
  }

  lemma {:induction false} KindOfIsAsked(acks: seq<ConsumerAck>, t: nat)
    requires t in KindOf(acks)
    ensures exists i :: 0 <= i < |acks| && acks[i].tag == t && acks[i].kind == KindOf(acks)[t]
  {
    if t in KindOf(acks[1..]) {
      KindOfIsAsked(acks[1..], t);
      var i :| 0 <= i < |acks[1..]| && acks[1..][i].tag == t && acks[1..][i].kind == KindOf(acks[1..])[t];
      assert acks[i + 1] == acks[1..][i];
    } else {
      assert acks[0].tag == t;
    }
  }

  lemma RunJobAsAsked(acks: seq<ConsumerAck>, p: Pipeline, sorted: seq<ConsumerAck>)
    requires AsAsked(acks, p) && AckPipeline.Enabled(p, RunJob(sorted))
    ensures AsAsked(acks, AckPipeline.Step(p, RunJob(sorted)))
  {
    if p.queue != [] {
      var p' := AckPipeline.Step(p, RunJob(sorted));
      assert Flat(p.queue) == p.queue[0] + Flat(p.queue[1..]);
      forall t | t in KindOf(sorted)
        ensures ConsumerAck(t, p.store.lifetimeId, KindOf(sorted)[t]) in acks
      {
        KindOfIsAsked(sorted, t);
        var i :| 0 <= i < |sorted| && sorted[i].tag == t && sorted[i].kind == KindOf(sorted)[t];
        TakenFromBatch(p, sorted, sorted[i]);
      }
    }
  }

  lemma InternalAsAsked(acks: seq<ConsumerAck>, p: Pipeline, pe: AckPipeline.Event)
    requires AsAsked(acks, p) && !pe.Deliver? && !pe.AppAck?
    ensures AsAsked(acks, AckPipeline.Step(p, pe))
  {
    if AckPipeline.Enabled(p, pe) {
      match pe
      case RunJob(sorted) => RunJobAsAsked(acks, p, sorted);
      case _ =>
    }
  }

  lemma InternalAgrees(p: Pipeline, pe: AckPipeline.Event)
    requires !pe.Deliver? && !pe.AppAck?
    ensures AckPipeline.Step(p, pe).everDelivered == p.everDelivered && AckPipeline.Step(p, pe).acked == p.acked
  {
    if AckPipeline.Enabled(p, pe) {
      match pe
      case RunJob(sorted) => assert AckPipeline.Step(p, pe) == TakeBatch(p, sorted);
      case WriteDone => assert AckPipeline.Step(p, pe) == Complete(p);
      case BrokerReads => assert AckPipeline.Step(p, pe) == Read(p);
      case _ =>
    }
  }

  /** The parts of the invariant, for guards and pipeline after a step. */
  lemma Compose(h: G.Heap, p: Pipeline)
    requires G.Inv(h) && AckPipeline.Inv(p) && NothingLost(p) && AsAsked(h.acks, p)
    requires h.delivered == p.everDelivered && AckedDeliveries(h.acks) == p.acked
    ensures Inv(Consumer(h, p))
  {
  }

  lemma InternalKeepsInv(c: Consumer, pe: AckPipeline.Event)
    requires Inv(c) && !pe.Deliver? && !pe.AppAck?
    ensures Inv(Step(c, Internal(pe)))
  {
    InternalComposes(c.heap, c.pipe, pe);
    assert Step(c, Internal(pe)) == Consumer(c.heap, AckPipeline.Step(c.pipe, pe));
  }

  lemma InternalComposes(h: G.Heap, p: Pipeline, pe: AckPipeline.Event)
    requires G.Inv(h) && AckPipeline.Inv(p) && NothingLost(p) && AsAsked(h.acks, p)
    requires h.delivered == p.everDelivered && AckedDeliveries(h.acks) == p.acked
    requires !pe.Deliver? && !pe.AppAck?
    ensures Inv(Consumer(h, AckPipeline.Step(p, pe)))
  {
    var p' := AckPipeline.Step(p, pe);
    assert AckPipeline.Inv(p') && NothingLost(p') by { PipeKeepsInv(p, pe); }
    assert AsAsked(h.acks, p') by { InternalAsAsked(h.acks, p, pe); }
    assert p'.everDelivered == p.everDelivered && p'.acked == p.acked by { InternalAgrees(p, pe); }
    Compose(h, p');
  }

  lemma PipeKeepsInv(p: Pipeline, pe: AckPipeline.Event)
    requires AckPipeline.Inv(p) && NothingLost(p) && !pe.AppAck?
    ensures AckPipeline.Inv(AckPipeline.Step(p, pe)) && NothingLost(AckPipeline.Step(p, pe))
  {
    AckPipeline.StepKeepsInv(p, pe);
    StepLosesNothing(p, pe);
  }

  lemma DeliverAgrees(acks: seq<ConsumerAck>, p: Pipeline, tag: nat, entry: MS.Entry<Message>)
    requires AsAsked(acks, p) && AckPipeline.Enabled(p, Deliver(tag, entry))
    ensures var p' := AckPipeline.Step(p, Deliver(tag, entry));
      && AsAsked(acks, p')
      && p'.everDelivered == p.everDelivered + {G.Delivery(p.store.lifetimeId, tag)}
      && p'.acked == p.acked
  {
  }

  lemma DeliveredKeepsInv(c: Consumer, id: nat, tag: nat, entry: MS.Entry<Message>)
    requires Inv(c) && Enabled(c, Delivered(id, tag, entry))
    ensures Inv(Step(c, Delivered(id, tag, entry)))
  {
    var create := G.Create(id, G.Delivery(c.pipe.store.lifetimeId, tag));
    G.StepKeepsInv(c.heap, create);
    G.CreateRecords(c.heap, create);
    PipeKeepsInv(c.pipe, Deliver(tag, entry));
    DeliverAgrees(c.heap.acks, c.pipe, tag, entry);
    Compose(G.Step(c.heap, create), AckPipeline.Step(c.pipe, Deliver(tag, entry)));
  }

  /** A guard acknowledges only what was delivered, and never again. */
  lemma GuardAcknowledgesFirst(c: Consumer, ge: G.Event)
    requires G.Inv(c.heap) && Agree(c) && G.Acknowledged(c.heap, ge).Some?
    ensures var a := G.Acknowledged(c.heap, ge).value;
      FirstAck(c.pipe, AppAck(G.DeliveryOf(a), a.kind))
  {
    var a := G.Acknowledged(c.heap, ge).value;
    assert !G.Acked(c.heap, G.DeliveryOf(a));
    forall x | x in c.heap.acks
      ensures G.DeliveryOf(x) != G.DeliveryOf(a)
    {
      var i :| 0 <= i < |c.heap.acks| && c.heap.acks[i] == x;
      assert G.DeliveryOf(c.heap.acks[i]) != G.DeliveryOf(a);
    }
  }

  lemma CallbackAsAsked(acks: seq<ConsumerAck>, p: Pipeline, a: ConsumerAck)
    requires AsAsked(acks, p)
    ensures AsAsked(acks + [a], Callback(p, Some(a)))
  {
    FlatPush(p.queue, a);
  }

  lemma CallbackAgrees(acks: seq<ConsumerAck>, p: Pipeline, a: ConsumerAck)
    requires AckedDeliveries(acks) == p.acked
    ensures AckedDeliveries(acks + [a]) == Callback(p, Some(a)).acked
    ensures Callback(p, Some(a)).everDelivered == p.everDelivered
  {
    assert AckedDeliveries(acks + [a]) == AckedDeliveries(acks) + {G.DeliveryOf(a)};
  }

  lemma CallbackKeepsPipe(p: Pipeline, a: ConsumerAck)
    requires AckPipeline.Inv(p) && NothingLost(p) && FirstAck(p, AppAck(G.DeliveryOf(a), a.kind))
    ensures AckPipeline.Inv(Callback(p, Some(a))) && NothingLost(Callback(p, Some(a)))
  {
    AckPipeline.StepKeepsInv(p, AppAck(G.DeliveryOf(a), a.kind));
    StepLosesNothing(p, AppAck(G.DeliveryOf(a), a.kind));
  }

  lemma CallbackKeepsInv(h: G.Heap, c: Consumer, a: ConsumerAck)
    requires Inv(c) && FirstAck(c.pipe, AppAck(G.DeliveryOf(a), a.kind))
    requires G.Inv(h) && h.delivered == c.heap.delivered && h.acks == c.heap.acks + [a]
    ensures Inv(Consumer(h, Callback(c.pipe, Some(a))))
  {
    CallbackKeepsPipe(c.pipe, a);
    CallbackAsAsked(c.heap.acks, c.pipe, a);
    CallbackAgrees(c.heap.acks, c.pipe, a);
    Compose(h, Callback(c.pipe, Some(a)));
  }

  lemma SilentKeepsInv(h: G.Heap, c: Consumer)
    requires Inv(c) && G.Inv(h) && h.delivered == c.heap.delivered && h.acks == c.heap.acks
    ensures Inv(Consumer(h, c.pipe))
  {
  }

  /** Guards after an event that passed `sent` to the callback, and what the callback
      makes of it. */
  lemma PassedOnKeepsInv(c: Consumer, h: G.Heap, sent: Option<ConsumerAck>)
    requires Inv(c) && G.Inv(h)
    requires h.delivered == c.heap.delivered && h.acks == G.Recorded(c.heap.acks, sent)
    requires sent.Some? ==> FirstAck(c.pipe, AppAck(G.DeliveryOf(sent.value), sent.value.kind))
    ensures Inv(Consumer(h, Callback(c.pipe, sent)))
  {
    match sent
    case Some(a) => CallbackKeepsInv(h, c, a);
    case None => SilentKeepsInv(h, c);
  }

  lemma ApplicationKeepsInv(c: Consumer, ge: G.Event)
    requires Inv(c) && !ge.Create?
    ensures Inv(Step(c, Application(ge)))
  {
    var sent, h := G.Acknowledged(c.heap, ge), G.Step(c.heap, ge);
    assert G.Inv(h) by { G.StepKeepsInv(c.heap, ge); }
    G.StepRecords(c.heap, ge);
    assert sent.Some? ==> FirstAck(c.pipe, AppAck(G.DeliveryOf(sent.value), sent.value.kind)) by {
      if sent.Some? {
        GuardAcknowledgesFirst(c, ge);
      }
    }
    PassedOnKeepsInv(c, h, sent);
  }

  lemma StepKeepsInv(c: Consumer, e: Event)
    requires Inv(c)
    ensures Inv(Step(c, e))
  {
    if Enabled(c, e) {
      match e
      case Delivered(id, tag, entry) => DeliveredKeepsInv(c, id, tag, entry);
      case Application(ge) => ApplicationKeepsInv(c, ge);
      case Internal(pe) => InternalKeepsInv(c, pe);
    }
  }

  lemma InitInv()
    ensures Inv(Consumer(G.Init(), AckPipeline.Init()))
  {
    var p := AckPipeline.Init();
    assert p.Delivered() == {} && p.requested.Keys == {} && p.Unsettling() == [] && p.discarded + p.transit == [];
  }

  lemma {:induction false} RunInv(es: seq<Event>)
    ensures Inv(Run(es))
  {
    if es == [] {
      InitInv();
    } else {
      RunInv(es[..|es| - 1]);
      StepKeepsInv(Run(es[..|es| - 1]), es[|es| - 1]);
    }
  }

  // ---- The main results ----

  /** In every run the broker settles each requested tag at most once, only with the
      requested type, and nothing else. Once it has read everything written, it has
      settled exactly the requested tags if and only if nothing strayed: no job wrote
      behind a close, and the broker closed the channel with nothing unread. */
  lemma BrokerSettlesExactlyRequests(es: seq<Event>)
    ensures var p := Run(es).pipe;
      && !p.broker.faulted
      && (forall t | t in p.broker.outcome :: t in p.requested && p.broker.outcome[t] == p.requested[t])
      && p.broker.outcome.Keys !! p.broker.unsettled
      && p.broker.outcome.Keys + p.broker.unsettled == p.Delivered()
      && (p.Outbound() == [] ==> (p.broker.outcome == p.requested <==> !p.strayed))
  {
    RunInv(es);
    BrokerFollowsRequests(Run(es).pipe);
  }

  /** In every run only what guards of this lifetime acknowledged is requested, with
      the type they asked for; each of them is requested, queued or was refused by a
      closing channel, and only one of these; and every queued batch still has a job to
      take it. */
  lemma AcknowledgementsReachTheWire(es: seq<Event>)
    ensures var c := Run(es);
      && (forall t | t in c.pipe.requested ::
            ConsumerAck(t, c.pipe.store.lifetimeId, c.pipe.requested[t]) in c.heap.acks)
      && (forall a | a in c.heap.acks && a.lifetimeId == c.pipe.store.lifetimeId ::
            a.tag in c.pipe.requested || a.tag in c.pipe.dropped || Queued(c.pipe, G.DeliveryOf(a)))
      && c.pipe.dropped !! c.pipe.requested.Keys
      && (forall a | a in Flat(c.pipe.queue) && a.lifetimeId == c.pipe.store.lifetimeId ::
            a.tag !in c.pipe.requested && a.tag !in c.pipe.dropped)
      && |c.pipe.queue| <= c.pipe.jobs
  {
    RunInv(es);
    var c := Run(es);
    forall a | a in c.heap.acks && a.lifetimeId == c.pipe.store.lifetimeId
      ensures a.tag in c.pipe.requested || a.tag in c.pipe.dropped || Queued(c.pipe, G.DeliveryOf(a))
    {
      assert G.DeliveryOf(a) in c.pipe.acked;
    }
  }

  /** In every run the next write to complete finds its tag in the store if and only if
      it was written since the last reset, and otherwise removes nothing; and with no
      write of this lifetime outstanding the store holds exactly the deliveries that
      were not requested. */
  lemma StoreHoldsUnsettled(es: seq<Event>)
    ensures var p := Run(es).pipe;
      && (p.leftover != [] ==> p.leftover[0].tag !in p.store.byTag && Complete(p).store == p.store)
      && (p.leftover == [] && p.writing != [] ==> p.writing[0].tag in p.store.byTag)
      && (p.writing == [] ==> p.store.byTag.Keys == p.Delivered() - p.requested.Keys)
  {
    RunInv(es);
    StoreFacts(Run(es).pipe);
  }

  lemma StoreFacts(p: Pipeline)
    requires AckPipeline.Inv(p)
    ensures p.leftover != [] ==> p.leftover[0].tag !in p.store.byTag && Complete(p).store == p.store
    ensures p.leftover == [] && p.writing != [] ==> p.writing[0].tag in p.store.byTag
    ensures p.writing == [] ==> p.store.byTag.Keys == p.Delivered() - p.requested.Keys
  {
    if p.leftover != [] {
      LeftoverMisses(p);
    }
    if p.writing != [] {
      WriteFindsTag(p);
    } else {
      StoreFollowsRequests(p);
    }
  }

  /** Every guard is gone, every job has run and all that was written has been read. */
  predicate Quiescent(c: Consumer) {
    c.heap.guards == map[] && c.pipe.jobs == 0 && c.pipe.Outbound() == []
  }

  /** The broker has settled every delivery of this lifetime, without an error and so
      exactly once, in the way its guard asked for; and the store is empty. */
  predicate AllSettled(c: Consumer) {
    && !c.pipe.broker.faulted
    && c.pipe.broker.unsettled == {}
    && c.pipe.broker.outcome.Keys == c.pipe.Delivered()
    && c.pipe.store.byTag == map[]
    && forall t | t in c.pipe.broker.outcome ::
         ConsumerAck(t, c.pipe.store.lifetimeId, c.pipe.broker.outcome[t]) in c.heap.acks
  }

  /** In every run that has come to rest every delivery is settled if and only if no job
      refused an acknowledgement of this lifetime, for the channel was closing, and
      nothing strayed; and what is settled is settled in the way the application's own
      event asked for. */
  lemma EveryDeliverySettledOnce(es: seq<Event>)
    requires Quiescent(Run(es))
    ensures AllSettled(Run(es)) <==> Run(es).pipe.dropped == {} && !Run(es).pipe.strayed
    ensures forall t, kind | SettledAs(Run(es).pipe.broker, t, kind) ::
      Asked(es, G.Delivery(Run(es).pipe.store.lifetimeId, t), kind)
  {
    forall t, kind | SettledAs(Run(es).pipe.broker, t, kind)
      ensures Asked(es, G.Delivery(Run(es).pipe.store.lifetimeId, t), kind)
    {
      OutcomesAsAsked(es, t, kind);
    }
    RunInv(es);
    if Run(es).pipe.dropped == {} && !Run(es).pipe.strayed {
      RestIsSettled(Run(es));
    } else {
      RestIsUnsettled(Run(es));
    }
  }

  lemma RestIsSettled(c: Consumer)
    requires Inv(c) && Quiescent(c) && c.pipe.dropped == {} && !c.pipe.strayed
    ensures AllSettled(c)
  {
    BrokerFollowsRequests(c.pipe);
    AtRest(c);
    StoreFollowsRequests(c.pipe);
    assert c.pipe.store.byTag.Keys == {};
  }

  lemma RestIsUnsettled(c: Consumer)
    requires Inv(c) && Quiescent(c) && (c.pipe.dropped != {} || c.pipe.strayed)
    ensures !AllSettled(c)
  {
    BrokerFollowsRequests(c.pipe);
    if c.pipe.dropped != {} {
      var t :| t in c.pipe.dropped;
      assert G.Delivery(c.pipe.store.lifetimeId, t) in c.pipe.everDelivered;
      assert t in c.pipe.Delivered() && t !in c.pipe.broker.outcome;
    } else {
      var t := SomeUnsettled(c.pipe);
    }
  }

  /** What strayed was delivered and is not settled. */
  lemma SomeUnsettled(p: Pipeline) returns (t: nat)
    requires AckPipeline.Inv(p) && p.Outbound() == [] && p.strayed
    ensures t in p.Delivered() && t !in p.broker.outcome
  {
    DiscardedUnsettled(p);
    t := p.discarded[0].tag;
    RequestedDelivered(p, t);
  }

  lemma AtRest(c: Consumer)
    requires Inv(c) && Quiescent(c) && c.pipe.dropped == {}
    ensures c.pipe.Delivered() <= c.pipe.requested.Keys
  {
    assert c.pipe.queue == [] && Flat(c.pipe.queue) == [];
    forall t | t in c.pipe.Delivered()
      ensures t in c.pipe.requested
    {
      var d := G.Delivery(c.pipe.store.lifetimeId, t);
      GuardsAllAcknowledged(c.heap, d);
      assert !Queued(c.pipe, d);
    }
  }

  lemma GuardsAllAcknowledged(h: G.Heap, d: G.Delivery)
    requires G.Inv(h) && h.guards == map[] && d in h.delivered
    ensures d in AckedDeliveries(h.acks)
  {
    assert G.Acked(h, d);
    var i :| 0 <= i < |h.acks| && G.DeliveryOf(h.acks[i]) == d;
    assert h.acks[i] in h.acks;
  }

  // ---- What the application asked for ----

  /** The k-th event of a run is the application resolving a guard READY for `d` in the
      way `kind`, or destroying it, which asks for a requeue. */
  predicate AskedAt(es: seq<Event>, k: nat, d: G.Delivery, kind: AckType) {
    k < |es| && es[k].Application? && G.Asks(Run(es[..k]).heap, es[k].action, d, kind)
  }

  ghost predicate Asked(es: seq<Event>, d: G.Delivery, kind: AckType) {
    exists k :: AskedAt(es, k, d, kind)
  }

  lemma AskedEarlier(es: seq<Event>, n: nat, d: G.Delivery, kind: AckType)
    requires n <= |es|
    ensures forall k | 0 <= k < n :: AskedAt(es[..n], k, d, kind) <==> AskedAt(es, k, d, kind)
  {
    forall k | 0 <= k < n
      ensures AskedAt(es[..n], k, d, kind) <==> AskedAt(es, k, d, kind)
    {
      assert es[..n][..k] == es[..k];
    }
  }

  lemma HeapStepAsAsked(c: Consumer, e: Event, d: G.Delivery, kind: AckType)
    ensures ConsumerAck(d.tag, d.lifetimeId, kind) in Step(c, e).heap.acks
       <==> ConsumerAck(d.tag, d.lifetimeId, kind) in c.heap.acks
            || (e.Application? && G.Asks(c.heap, e.action, d, kind))
  {
    if Enabled(c, e) {
      match e
      case Delivered(id, tag, entry) =>
        G.StepAsAsked(c.heap, G.Create(id, G.Delivery(c.pipe.store.lifetimeId, tag)), d, kind);
      case Application(ge) => G.StepAsAsked(c.heap, ge, d, kind);
      case Internal(_) =>
    }
  }

  lemma {:induction false} GuardsAckAsAsked(es: seq<Event>, d: G.Delivery, kind: AckType)
    ensures ConsumerAck(d.tag, d.lifetimeId, kind) in Run(es).heap.acks <==> Asked(es, d, kind)
  {
    if es != [] {
      var n := |es| - 1;
      GuardsAckAsAsked(es[..n], d, kind);
      AskedEarlier(es, n, d, kind);
      HeapStepAsAsked(Run(es[..n]), es[n], d, kind);
      assert AskedAt(es, n, d, kind) <==> es[n].Application? && G.Asks(Run(es[..n]).heap, es[n].action, d, kind);
      if Asked(es[..n], d, kind) {
        var k :| AskedAt(es[..n], k, d, kind);
        assert AskedAt(es, k, d, kind);
      }
    }
  }

  predicate SettledAs(b: Broker, t: nat, kind: AckType) {
    t in b.outcome && b.outcome[t] == kind
  }

  lemma SettledWasAcked(c: Consumer, t: nat, kind: AckType)
    requires Inv(c) && SettledAs(c.pipe.broker, t, kind)
    ensures ConsumerAck(t, c.pipe.store.lifetimeId, kind) in c.heap.acks
  {
    BrokerFollowsRequests(c.pipe);
    assert t in c.pipe.requested && c.pipe.requested[t] == kind;
  }

  /** In every run the broker settles a tag only in the way in which the application
      resolved or destroyed the guard of that delivery. */
  lemma OutcomesAsAsked(es: seq<Event>, t: nat, kind: AckType)
    requires SettledAs(Run(es).pipe.broker, t, kind)
    ensures Asked(es, G.Delivery(Run(es).pipe.store.lifetimeId, t), kind)
  {
    RunInv(es);
    SettledWasAcked(Run(es), t, kind);
    GuardsAckAsAsked(es, G.Delivery(Run(es).pipe.store.lifetimeId, t), kind);
  }

  /** In every run that has come to rest with nothing refused or strayed, the broker has
      settled a delivery of this lifetime in a way if the application asked for it. */
  lemma AskedIsOutcome(es: seq<Event>, t: nat, kind: AckType)
    requires Quiescent(Run(es)) && Run(es).pipe.dropped == {} && !Run(es).pipe.strayed
    requires Asked(es, G.Delivery(Run(es).pipe.store.lifetimeId, t), kind)
    ensures SettledAs(Run(es).pipe.broker, t, kind)
  {
    GuardsAckAsAsked(es, G.Delivery(Run(es).pipe.store.lifetimeId, t), kind);
    RunInv(es);
    RestIsSettled(Run(es));
    OnlyOutcome(Run(es), t, kind);
  }

  /** An acknowledged delivery has no other outcome. */
  lemma OnlyOutcome(c: Consumer, t: nat, kind: AckType)
    requires G.Inv(c.heap) && c.heap.delivered == c.pipe.everDelivered && AllSettled(c)
    requires ConsumerAck(t, c.pipe.store.lifetimeId, kind) in c.heap.acks
    ensures SettledAs(c.pipe.broker, t, kind)
  {
    var a := ConsumerAck(t, c.pipe.store.lifetimeId, kind);
    var i :| 0 <= i < |c.heap.acks| && c.heap.acks[i] == a;
    assert G.DeliveryOf(a) in c.heap.delivered;
    assert t in c.pipe.Delivered();
    var b := ConsumerAck(t, c.pipe.store.lifetimeId, c.pipe.broker.outcome[t]);
    var j :| 0 <= j < |c.heap.acks| && c.heap.acks[j] == b;
    assert G.DeliveryOf(c.heap.acks[i]) == G.DeliveryOf(c.heap.acks[j]);
  }

  /** Nobody asked for the channel to be closed since it was last reset. */
  predicate NeverClosed(es: seq<Event>) {
    es == [] || match es[|es| - 1]
      case Internal(AskClose) => false
      case Internal(BrokerCloses) => false
      case Internal(ChannelReset) => true
      case Internal(SocketLost) => true
      case _ => NeverClosed(es[..|es| - 1])
  }

  predicate Flowing(p: Pipeline) {
    p.phase == OPEN && p.limit.None? && p.dropped == {} && !p.strayed
  }

  lemma {:induction false} OpenFlows(es: seq<Event>)
    requires NeverClosed(es)
    ensures Flowing(Run(es).pipe)
  {
    if es != [] {
      var n := |es| - 1;
      if NeverClosed(es[..n]) {
        OpenFlows(es[..n]);
      }
      FlowsOn(Run(es[..n]), es[n], NeverClosed(es[..n]));
    }
  }

  lemma FlowsOn(c: Consumer, e: Event, before: bool)
    requires before ==> Flowing(c.pipe)
    requires before || e == Internal(ChannelReset) || e == Internal(SocketLost)
    requires e != Internal(AskClose) && e != Internal(BrokerCloses)
    ensures Flowing(Step(c, e).pipe)
  {
  }

  /** On a channel that nobody asked to close since it was reset, a run that has come to
      rest has settled every delivery, and each in a way if and only if the application
      asked for that. */
  lemma OpenChannelSettlesAll(es: seq<Event>, t: nat, kind: AckType)
    requires NeverClosed(es) && Quiescent(Run(es))
    ensures AllSettled(Run(es))
    ensures SettledAs(Run(es).pipe.broker, t, kind)
       <==> Asked(es, G.Delivery(Run(es).pipe.store.lifetimeId, t), kind)
  {
    OpenFlows(es);
    EveryDeliverySettledOnce(es);
    if SettledAs(Run(es).pipe.broker, t, kind) {
      OutcomesAsAsked(es, t, kind);
    } else if Asked(es, G.Delivery(Run(es).pipe.store.lifetimeId, t), kind) {
      AskedIsOutcome(es, t, kind);
    }
  }

  // ---- Where the unconditional promise fails ----

  lemma RunSnoc(es: seq<Event>, e: Event)
    ensures Run(es + [e]) == Step(Run(es), e)
  {
    assert (es + [e])[..|es|] == es;
  }

  const FIRST := G.Delivery(0, 1)
  const FIRST_ACK := ConsumerAck(1, 0, ACK)

  function Begin(): seq<Event> {
    [Delivered(0, 1, MS.Entry(0, 0, 0))]
  }

  lemma AfterDelivery()
    ensures var c := Run(Begin());
      && c.heap.guards == map[0 := G.GuardValue(G.READY, FIRST)]
      && c.pipe == AckPipeline.Step(AckPipeline.Init(), Deliver(1, MS.Entry(0, 0, 0)))
  {
    RunSnoc([], Begin()[0]);
    assert [] + [Begin()[0]] == Begin();
  }

  /** Acknowledging the first delivery and running the job, on an open channel with
      nothing queued or written. */
  function Acknowledge(): seq<Event> {
    [Application(G.ResolveAs(0, ACK)), Internal(RunJob([FIRST_ACK]))]
  }

  lemma OneEmitted()
    ensures Emit([FIRST_ACK], 0, 0, NO_BATCH) == [BasicAck(1, false)]
  {
    assert [FIRST_ACK][1..] == [];
  }

  lemma OneRetained()
    ensures Retain([FIRST_ACK], 0) == [FIRST_ACK] && SortedByTag([FIRST_ACK])
  {
    assert [FIRST_ACK][..0] == [];
    assert Retain([], 0) == [];
  }

  /** The first delivery's guard is at hand and the pipeline at the beginning of a lifetime. */
  predicate Untouched(c: Consumer) {
    && 0 in c.heap.guards && c.heap.guards[0] == G.GuardValue(G.READY, FIRST)
    && c.pipe.queue == [] && c.pipe.jobs == 0 && c.pipe.phase == OPEN && c.pipe.store.lifetimeId == 0
    && c.pipe.totalAcked == 0 && c.pipe.maxProcessedTag == 0
  }

  lemma AfterResolve(c: Consumer)
    requires Untouched(c)
    ensures Step(c, Acknowledge()[0]).pipe
         == c.pipe.(acked := c.pipe.acked + {FIRST}, queue := [[FIRST_ACK]], batchOpen := true, jobs := 1)
  {
    assert G.Acknowledged(c.heap, G.ResolveAs(0, ACK)) == Some(FIRST_ACK);
  }

  lemma AfterJob(c: Consumer)
    requires c.pipe.queue == [[FIRST_ACK]] && c.pipe.jobs == 1 && c.pipe.phase == OPEN
    requires c.pipe.store.lifetimeId == 0 && c.pipe.totalAcked == 0 && c.pipe.maxProcessedTag == 0
    ensures var p, p' := c.pipe, Step(c, Acknowledge()[1]).pipe;
      && p'.writing == p.writing + [BasicAck(1, false)]
      && p'.transit == p.transit && p'.limit == p.limit && p'.leftover == p.leftover
      && p'.strayed == (p.strayed || p.limit.Some?)
  {
    OneRetained();
    OneEmitted();
    assert AckPipeline.Step(c.pipe, RunJob([FIRST_ACK])) == TakeBatch(c.pipe, [FIRST_ACK]);
  }

  lemma AfterAcknowledge(es: seq<Event>)
    requires Untouched(Run(es))
    ensures var p, p' := Run(es).pipe, Run(es + Acknowledge()).pipe;
      && p'.writing == p.writing + [BasicAck(1, false)]
      && p'.transit == p.transit && p'.limit == p.limit && p'.leftover == p.leftover
      && p'.strayed == (p.strayed || p.limit.Some?)
  {
    var e1, e2 := Acknowledge()[0], Acknowledge()[1];
    assert es + Acknowledge() == es + [e1] + [e2];
    RunSnoc(es, e1);
    RunSnoc(es + [e1], e2);
    AfterResolve(Run(es));
    AfterJob(Run(es + [e1]));
  }

  /** A channel that asked to be closed and is revived by a late reply. */
  function RevivedRun(): seq<Event> {
    Begin() + [Internal(AskClose)] + [Internal(Revive)] + Acknowledge()
    + [Internal(WriteDone)] + [Internal(BrokerReads)]
  }

  /** Its acknowledgement is written behind the close, and the delivery stays unsettled
      although the broker has read everything. */
  lemma RevivedChannelStrays()
    ensures var p := Run(RevivedRun()).pipe;
      p.Outbound() == [] && p.strayed && p.broker.outcome != p.requested
  {
    var es1 := Begin() + [Internal(AskClose)];
    var es2 := es1 + [Internal(Revive)];
    var es3 := es2 + Acknowledge();
    var es4 := es3 + [Internal(WriteDone)];
    AfterDelivery();
    RunSnoc(Begin(), Internal(AskClose));
    RunSnoc(es1, Internal(Revive));
    assert Run(es2).pipe.limit == Some(0) && Run(es2).pipe.phase == OPEN;
    AfterAcknowledge(es2);
    RunSnoc(es3, Internal(WriteDone));
    assert Run(es4).pipe == Complete(Run(es3).pipe);
    RunSnoc(es4, Internal(BrokerReads));
    assert Run(RevivedRun()).pipe == Read(Run(es4).pipe);
    BrokerSettlesExactlyRequests(RevivedRun());
  }

  /** A write that is outstanding when the channel is reset with the socket up. */
  function ResetRun(): seq<Event> {
    Begin() + Acknowledge() + [Internal(ChannelReset)]
  }

  /** Its completion does not find its tag. */
  lemma ResetLeavesWrite()
    ensures var p := Run(ResetRun()).pipe;
      p.leftover == [BasicAck(1, false)] && 1 !in p.store.byTag && AckPipeline.Enabled(p, WriteDone)
  {
    var es := Begin() + Acknowledge();
    AfterDelivery();
    AfterAcknowledge(Begin());
    RunSnoc(es, Internal(ChannelReset));
    assert Run(es).pipe.leftover + Run(es).pipe.writing == [BasicAck(1, false)];
    StoreHoldsUnsettled(ResetRun());
  }
}
