/**
 The guard handed to the application with each delivery. Copying a guard transfers
 the right to acknowledge; destroying a guard which still holds that right requeues
 the message.
 */
module MessageGuard {
  import opened Wrappers
  import opened AckTypes

  datatype GuardState = READY | TRANSFERRED | RESOLVED

  /** A delivery: the channel lifetime it belongs to and its tag there. */
  datatype Delivery = Delivery(lifetimeId: nat, tag: nat)

  function DeliveryOf(a: ConsumerAck): Delivery {
    Delivery(a.lifetimeId, a.tag)
  }

  function AckFor(d: Delivery, kind: AckType): ConsumerAck {
    ConsumerAck(d.tag, d.lifetimeId, kind)
  }

  datatype GuardValue = GuardValue(state: GuardState, delivery: Delivery)
  {
    /** What the guard is left with when another takes over from it. */
    function Transferred(): GuardValue {
      this.(state := TRANSFERRED)
    }

    function Resolved(): GuardValue {
      if state == READY then this.(state := RESOLVED) else this
    }

    /** What reaches the acknowledgement callback when the guard is resolved or, for
        a requeue, destroyed. */
    function Acknowledges(kind: AckType): Option<ConsumerAck> {
      if state == READY then Some(AckFor(delivery, kind)) else None
    }
  }

  class Guard {
    var state: GuardState
    var delivery: Delivery

    function View(): GuardValue
      reads this
    {
      GuardValue(state, delivery)
    }

    constructor (delivery: Delivery)
      ensures View() == GuardValue(READY, delivery)
    {
      this.state, this.delivery := READY, delivery;
    }

    constructor CopyOf(obj: Guard)
      modifies obj
      ensures View() == old(obj.View()) && obj.View() == old(obj.View()).Transferred()
    {
      state, delivery := obj.state, obj.delivery;
      new;
      obj.state := TRANSFERRED;
    }

    method TransferOwnership() returns (owner: Guard)
      modifies this
      ensures fresh(owner) && owner.View() == old(View()) && View() == old(View()).Transferred()
    {
      owner := new Guard.CopyOf(this);
    }

    /** Private to the guard, where nothing calls it: an application cannot assign. */
    method Assign(other: Guard)
      modifies this, other
      ensures other == this ==> View() == old(View())
      ensures other != this ==> View() == old(other.View()) && other.View() == old(other.View()).Transferred()
    {
      if other == this {
        return;
      }
      delivery, state := other.delivery, other.state;
      other.state := TRANSFERRED;
    }

    method Resolve(kind: AckType) returns (sent: Option<ConsumerAck>)
      modifies this
      ensures View() == old(View()).Resolved() && sent == old(View()).Acknowledges(kind)
    {
      if state == TRANSFERRED || state == RESOLVED {
        return None;
      }
      state := RESOLVED;
      return Some(ConsumerAck(delivery.tag, delivery.lifetimeId, kind));
    }

    method Ack() returns (sent: Option<ConsumerAck>)
      modifies this
      ensures View() == old(View()).Resolved() && sent == old(View()).Acknowledges(ACK)
    {
      sent := Resolve(ACK);
    }

    method Nack(requeue: bool) returns (sent: Option<ConsumerAck>)
      modifies this
      ensures View() == old(View()).Resolved()
      ensures sent == old(View()).Acknowledges(if requeue then REQUEUE else REJECT)
    {
      sent := Resolve(if requeue then REQUEUE else REJECT);
    }

    method Destroy() returns (sent: Option<ConsumerAck>)
      ensures sent == View().Acknowledges(REQUEUE)
    {
      if state == READY {
        return Some(ConsumerAck(delivery.tag, delivery.lifetimeId, REQUEUE));
      }
      return None;
    }
  }

  // ---- Every run of an application holding guards ----

  datatype Event =
    | Create(id: nat, delivery: Delivery)
    | Copy(id: nat, from: nat)
    | ResolveAs(id: nat, kind: AckType)
    | Drop(id: nat)

  /** All live guards and the acknowledgements made so far. */
  datatype Heap = Heap(guards: map<nat, GuardValue>, delivered: set<Delivery>, acks: seq<ConsumerAck>)

  function Init(): Heap {
    Heap(map[], {}, [])
  }

  predicate Enabled(h: Heap, e: Event) {
    match e
    case Create(id, d) => id !in h.guards && d !in h.delivered
    case Copy(id, from) => id !in h.guards && from in h.guards
    case ResolveAs(id, _) => id in h.guards
    case Drop(id) => id in h.guards
  }

  /** What an event passes to the acknowledgement callback. */
  function Acknowledged(h: Heap, e: Event): Option<ConsumerAck> {
    if !Enabled(h, e) then None
    else match e
      case ResolveAs(id, kind) => h.guards[id].Acknowledges(kind)
      case Drop(id) => h.guards[id].Acknowledges(REQUEUE)
      case _ => None
  }

  function Recorded(acks: seq<ConsumerAck>, sent: Option<ConsumerAck>): seq<ConsumerAck> {
    if sent.Some? then acks + [sent.value] else acks
  }

  function Step(h: Heap, e: Event): Heap {
    if !Enabled(h, e) then h
    else
      var acks := Recorded(h.acks, Acknowledged(h, e));
      match e
      case Create(id, d) => Heap(h.guards[id := GuardValue(READY, d)], h.delivered + {d}, acks)
      case Copy(id, from) =>
        h.(guards := h.guards[id := h.guards[from]][from := h.guards[from].Transferred()], acks := acks)
      case ResolveAs(id, kind) => h.(guards := h.guards[id := h.guards[id].Resolved()], acks := acks)
      case Drop(id) => h.(guards := h.guards - {id}, acks := acks)
  }

  lemma StepRecords(h: Heap, e: Event)
    requires !e.Create?
    ensures Step(h, e).delivered == h.delivered && Step(h, e).acks == Recorded(h.acks, Acknowledged(h, e))
  {
  }

  lemma CreateRecords(h: Heap, e: Event)
    requires e.Create? && Enabled(h, e)
    ensures Step(h, e).delivered == h.delivered + {e.delivery} && Step(h, e).acks == h.acks
  {
  }

  function Run(es: seq<Event>): Heap {
    if es == [] then Init() else Step(Run(es[..|es| - 1]), es[|es| - 1])
  }

  ghost predicate Holds(h: Heap, d: Delivery) {
    exists id :: id in h.guards && h.guards[id] == GuardValue(READY, d)
  }

  ghost predicate Acked(h: Heap, d: Delivery) {
    exists i :: 0 <= i < |h.acks| && DeliveryOf(h.acks[i]) == d
  }

  ghost predicate AckedOnce(h: Heap) {
    forall i, j | 0 <= i < j < |h.acks| :: DeliveryOf(h.acks[i]) != DeliveryOf(h.acks[j])
  }

  /** At any time a delivery is held by exactly one guard or acknowledged exactly
      once - never both, and never neither. */
  ghost predicate Inv(h: Heap) {
    && AckedOnce(h)
    && (forall i, j | i in h.guards && j in h.guards && i != j
          && h.guards[i].state == READY && h.guards[j].state == READY :: h.guards[i].delivery != h.guards[j].delivery)
    && (forall i | i in h.guards && h.guards[i].state == READY ::
          h.guards[i].delivery in h.delivered && !Acked(h, h.guards[i].delivery))
    && (forall i | 0 <= i < |h.acks| :: DeliveryOf(h.acks[i]) in h.delivered)
    && (forall d | d in h.delivered :: Holds(h, d) || Acked(h, d))
  }

  /** Events that neither acknowledge nor take a READY guard away. */
  lemma HoldingKeepsInv(h: Heap, h': Heap)
    requires Inv(h) && h'.acks == h.acks && h.delivered <= h'.delivered
    requires forall d | Holds(h, d) :: Holds(h', d)
    requires forall d | d in h'.delivered && d !in h.delivered :: Holds(h', d)
    requires forall i | i in h'.guards && h'.guards[i].state == READY ::
      h'.guards[i].delivery in h'.delivered && !Acked(h, h'.guards[i].delivery)
    requires forall i, j | i in h'.guards && j in h'.guards && i != j
      && h'.guards[i].state == READY && h'.guards[j].state == READY :: h'.guards[i].delivery != h'.guards[j].delivery
    ensures Inv(h')
  {
    assert forall d :: Acked(h', d) <==> Acked(h, d);
  }

  lemma CopyKeepsInv(h: Heap, id: nat, from: nat)
    requires Inv(h) && Enabled(h, Copy(id, from))
    ensures Inv(Step(h, Copy(id, from)))
  {
    var h' := Step(h, Copy(id, from));
    forall d | Holds(h, d) ensures Holds(h', d) {
      var k :| k in h.guards && h.guards[k] == GuardValue(READY, d);
      assert h'.guards[if k == from then id else k] == GuardValue(READY, d);
    }
    HoldingKeepsInv(h, h');
  }

  lemma CreateKeepsInv(h: Heap, id: nat, d: Delivery)
    requires Inv(h) && Enabled(h, Create(id, d))
    ensures Inv(Step(h, Create(id, d)))
  {
    var h' := Step(h, Create(id, d));
    assert h'.guards[id] == GuardValue(READY, d);
    forall x | Holds(h, x) ensures Holds(h', x) {
      var k :| k in h.guards && h.guards[k] == GuardValue(READY, x);
      assert h'.guards[k] == GuardValue(READY, x);
    }
    HoldingKeepsInv(h, h');
  }

  lemma DropSpentKeepsInv(h: Heap, id: nat)
    requires Inv(h) && Enabled(h, Drop(id)) && h.guards[id].state != READY
    ensures Inv(Step(h, Drop(id)))
  {
    var h' := Step(h, Drop(id));
    forall x | Holds(h, x) ensures Holds(h', x) {
      var k :| k in h.guards && h.guards[k] == GuardValue(READY, x);
      assert h'.guards[k] == GuardValue(READY, x);
    }
    HoldingKeepsInv(h, h');
  }

  /** Taking the right to acknowledge away from guard `id`, which is removed or
      left in some other state. */
  ghost predicate Released(h: Heap, id: nat, h': Heap) {
    && id in h.guards && h.guards[id].state == READY
    && h'.delivered == h.delivered
    && h'.guards.Keys <= h.guards.Keys
    && (forall k | k in h.guards && k != id :: k in h'.guards && h'.guards[k] == h.guards[k])
    && (id in h'.guards ==> h'.guards[id].state != READY)
  }

  lemma ReleasedHolds(h: Heap, id: nat, h': Heap, d: Delivery)
    requires Released(h, id, h') && Holds(h, d) && d != h.guards[id].delivery
    ensures Holds(h', d)
  {
    var k :| k in h.guards && h.guards[k] == GuardValue(READY, d);
    assert h'.guards[k] == GuardValue(READY, d);
  }

  lemma AckKeepsInv(h: Heap, id: nat, kind: AckType, h': Heap)
    requires Inv(h) && Released(h, id, h')
    requires h'.acks == h.acks + [AckFor(h.guards[id].delivery, kind)]
    ensures Inv(h')
  {
    var done := h.guards[id].delivery;
    assert DeliveryOf(h'.acks[|h.acks|]) == done;
    forall d | Acked(h', d) ensures Acked(h, d) || d == done {
      var i :| 0 <= i < |h'.acks| && DeliveryOf(h'.acks[i]) == d;
    }
    forall d | Acked(h, d) ensures Acked(h', d) {
      var i :| 0 <= i < |h.acks| && DeliveryOf(h.acks[i]) == d;
      assert DeliveryOf(h'.acks[i]) == d;
    }
    forall d | d in h.delivered ensures Holds(h', d) || Acked(h', d) {
      if d != done && Holds(h, d) {
        ReleasedHolds(h, id, h', d);
      }
    }
    forall i, j | 0 <= i < j < |h'.acks| ensures DeliveryOf(h'.acks[i]) != DeliveryOf(h'.acks[j]) {
      if j == |h.acks| {
        assert Acked(h, DeliveryOf(h.acks[i]));
      }
    }
  }

  lemma StepKeepsInv(h: Heap, e: Event)
    requires Inv(h)
    ensures Inv(Step(h, e))
  {
    if Enabled(h, e) {
      match e
      case Create(id, d) => CreateKeepsInv(h, id, d);
      case Copy(id, from) => CopyKeepsInv(h, id, from);
      case ResolveAs(id, kind) =>
        if h.guards[id].state == READY {
          AckKeepsInv(h, id, kind, Step(h, e));
        } else {
          assert h.guards[id := h.guards[id]] == h.guards;
        }
      case Drop(id) =>
        if h.guards[id].state == READY {
          AckKeepsInv(h, id, REQUEUE, Step(h, e));
        } else {
          DropSpentKeepsInv(h, id);
        }
    }
  }

  lemma {:induction false} RunInv(es: seq<Event>)
    ensures Inv(Run(es))
  {
    if es != [] {
      RunInv(es[..|es| - 1]);
      StepKeepsInv(Run(es[..|es| - 1]), es[|es| - 1]);
    }
  }

  // ---- Who acknowledges, and how ----

  /** The event is the application resolving guard `id`, READY for `d`, in the way
      `kind`, or destroying it, which asks for a requeue. */
  predicate Asks(h: Heap, e: Event, d: Delivery, kind: AckType) {
    && e.id in h.guards && h.guards[e.id] == GuardValue(READY, d)
    && (e == ResolveAs(e.id, kind) || (e == Drop(e.id) && kind == REQUEUE))
  }

  lemma StepAsAsked(h: Heap, e: Event, d: Delivery, kind: AckType)
    ensures ConsumerAck(d.tag, d.lifetimeId, kind) in Step(h, e).acks
       <==> ConsumerAck(d.tag, d.lifetimeId, kind) in h.acks || Asks(h, e, d, kind)
  {
  }

  /** The k-th event of a run asks for it. */
  predicate AskedAt(es: seq<Event>, k: nat, d: Delivery, kind: AckType) {
    k < |es| && Asks(Run(es[..k]), es[k], d, kind)
  }

  lemma AskedEarlier(es: seq<Event>, n: nat, d: Delivery, kind: AckType)
    requires n <= |es|
    ensures forall k | 0 <= k < n :: AskedAt(es[..n], k, d, kind) <==> AskedAt(es, k, d, kind)
  {
    forall k | 0 <= k < n
      ensures AskedAt(es[..n], k, d, kind) <==> AskedAt(es, k, d, kind)
    {
      assert es[..n][..k] == es[..k];
    }
  }

  /** In every run the acknowledgements made are exactly those the application asked
      for: one for each event that resolved or destroyed a guard READY for its delivery,
      with the type in that event. */
  lemma {:induction false} AcksAsAsked(es: seq<Event>, d: Delivery, kind: AckType)
    ensures ConsumerAck(d.tag, d.lifetimeId, kind) in Run(es).acks <==> exists k :: AskedAt(es, k, d, kind)
  {
    if es != [] {
      var n := |es| - 1;
      AcksAsAsked(es[..n], d, kind);
      AskedEarlier(es, n, d, kind);
      StepAsAsked(Run(es[..n]), es[n], d, kind);
      assert AskedAt(es, n, d, kind) <==> Asks(Run(es[..n]), es[n], d, kind);
      if k :| AskedAt(es[..n], k, d, kind) {
        assert AskedAt(es, k, d, kind);
      }
    }
  }

  /** The guard that has the right to acknowledge `d`: the one it was delivered with,
      then the last copy made of the owner, until the owner is resolved or destroyed. */
  function Owner(es: seq<Event>, d: Delivery): Option<nat> {
    if es == [] then None
    else
      var before, e := Owner(es[..|es| - 1], d), es[|es| - 1];
      if Enabled(Run(es[..|es| - 1]), e) then OwnerAfter(before, e, d) else before
  }

  function OwnerAfter(before: Option<nat>, e: Event, d: Delivery): Option<nat> {
    match e
    case Create(id, x) => if x == d then Some(id) else before
    case Copy(id, from) => if before == Some(from) then Some(id) else before
    case ResolveAs(id, _) => if before == Some(id) then None else before
    case Drop(id) => if before == Some(id) then None else before
  }

  /** In every run the READY guards are exactly the owners. */
  lemma {:induction false} ReadyIsOwner(es: seq<Event>, id: nat, d: Delivery)
    ensures id in Run(es).guards && Run(es).guards[id] == GuardValue(READY, d) <==> Owner(es, d) == Some(id)
  {
    if es != [] {
      var n := |es| - 1;
      forall x
        ensures x in Run(es[..n]).guards && Run(es[..n]).guards[x] == GuardValue(READY, d)
           <==> Owner(es[..n], d) == Some(x)
      {
        ReadyIsOwner(es[..n], x, d);
      }
      RunInv(es[..n]);
      if Enabled(Run(es[..n]), es[n]) {
        OwnerStep(Run(es[..n]), es[n], Owner(es[..n], d), id, d);
      }
    }
  }

  lemma OwnerStep(h: Heap, e: Event, before: Option<nat>, id: nat, d: Delivery)
    requires Inv(h) && Enabled(h, e)
    requires forall x :: x in h.guards && h.guards[x] == GuardValue(READY, d) <==> before == Some(x)
    ensures id in Step(h, e).guards && Step(h, e).guards[id] == GuardValue(READY, d)
       <==> OwnerAfter(before, e, d) == Some(id)
  {
  }

  /** However guards are copied, resolved and destroyed, only deliveries are
      acknowledged and none of them twice; and once every guard is gone each delivery
      has been acknowledged exactly once. */
  lemma ExactlyOneAck(es: seq<Event>)
    ensures AckedOnce(Run(es))
    ensures forall a | a in Run(es).acks :: DeliveryOf(a) in Run(es).delivered
    ensures Run(es).guards == map[] ==> forall d | d in Run(es).delivered :: Acked(Run(es), d)
  {
    RunInv(es);
  }
}
