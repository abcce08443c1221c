/**
 Consumer acknowledgements, the broker that reads them, and the handler that
 merges runs of individual acknowledgements into `multiple` ones.
 */
module AckTypes {

  datatype AckType = ACK | REQUEUE | REJECT

  /** One acknowledgement requested by the application. */
  datatype ConsumerAck = ConsumerAck(tag: nat, lifetimeId: nat, kind: AckType)

  /** Basic.Ack and Basic.Nack as written to the broker. */
  datatype Settlement =
    | BasicAck(tag: nat, multiple: bool)
    | BasicNack(tag: nat, requeue: bool, multiple: bool)
  {
    function Kind(): AckType {
      match this
      case BasicAck(_, _) => ACK
      case BasicNack(_, requeue, _) => if requeue then REQUEUE else REJECT
    }
  }

  function Tags(acks: seq<ConsumerAck>): set<nat> {
    set i | 0 <= i < |acks| :: acks[i].tag
  }

  predicate SortedByTag(acks: seq<ConsumerAck>) {
    forall i, j | 0 <= i < j < |acks| :: acks[i].tag <= acks[j].tag
  }

  predicate DistinctTags(acks: seq<ConsumerAck>) {
    forall i, j | 0 <= i < j < |acks| :: acks[i].tag != acks[j].tag
  }

  /** The broker's view of one channel: what it delivered and has not seen
      settled, how each settled delivery was settled, and whether it raised a
      channel error for settling an unknown delivery. */
  datatype Broker = Broker(unsettled: set<nat>, outcome: map<nat, AckType>, faulted: bool)

  function CoveredBy(b: Broker, f: Settlement): set<nat> {
    if f.multiple then set t | t in b.unsettled && t <= f.tag
    else set t | t in b.unsettled && t == f.tag
  }

  function Settle(b: Broker, f: Settlement): Broker {
    if f.tag !in b.unsettled then b.(faulted := true)
    else Take(b, CoveredBy(b, f), f.Kind())
  }

  /** The given deliveries become settled, all in the same way. */
  function Take(b: Broker, covered: set<nat>, kind: AckType): Broker {
    b.(unsettled := b.unsettled - covered,
       outcome := b.outcome + map t | t in covered :: kind)
  }

  lemma TakeTwice(b: Broker, s: set<nat>, t: set<nat>, kind: AckType)
    ensures Take(Take(b, s, kind), t, kind) == Take(b, s + t, kind)
  {
    var x, y := Take(Take(b, s, kind), t, kind), Take(b, s + t, kind);
    assert x.unsettled == y.unsettled;
    assert x.outcome == y.outcome;
  }

  lemma TakeNothing(b: Broker, kind: AckType)
    ensures Take(b, {}, kind) == b
  {
    assert Take(b, {}, kind).outcome == b.outcome;
  }

  lemma SettleOne(b: Broker, f: Settlement)
    requires !f.multiple && f.tag in b.unsettled
    ensures Settle(b, f) == Take(b, {f.tag}, f.Kind())
  {
    assert CoveredBy(b, f) == {f.tag};
  }

  function SettleAll(b: Broker, fs: seq<Settlement>): Broker
    decreases |fs|
  {
    if fs == [] then b else SettleAll(Settle(b, fs[0]), fs[1..])
  }

  lemma {:induction false} SettleAllAppend(b: Broker, fs: seq<Settlement>, gs: seq<Settlement>)
    ensures SettleAll(b, fs + gs) == SettleAll(SettleAll(b, fs), gs)
    decreases |fs|
  {
    if fs == [] {
      assert fs + gs == gs;
    } else {
      assert (fs + gs)[0] == fs[0] && (fs + gs)[1..] == fs[1..] + gs;
      SettleAllAppend(Settle(b, fs[0]), fs[1..], gs);
    }
  }

  lemma {:induction false} FaultsStay(b: Broker, fs: seq<Settlement>)
    requires b.faulted
    ensures SettleAll(b, fs).faulted
    decreases |fs|
  {
    if fs != [] {
      FaultsStay(Settle(b, fs[0]), fs[1..]);
    }
  }

  /** Acknowledging one message alone. */
  function Single(a: ConsumerAck): Settlement {
    MakeSettlement(a.tag, a.kind, 1)
  }

  function MakeSettlement(tag: nat, kind: AckType, batchSize: nat): (f: Settlement)
    ensures f.tag == tag && f.Kind() == kind && (f.multiple <==> batchSize > 1)
  {
    if kind == ACK then BasicAck(tag, batchSize > 1)
    else BasicNack(tag, kind == REQUEUE, batchSize > 1)
  }

  /** The simple form: every message acknowledged on its own. */
  function Individually(acks: seq<ConsumerAck>): seq<Settlement> {
    if acks == [] then [] else [Single(acks[0])] + Individually(acks[1..])
  }
}

module MultipleAck {
  import opened AckTypes

  /** A run of acknowledgements which has not been sent yet. */
  datatype Batch = Batch(length: nat, maxTag: nat, kind: AckType)

  const NO_BATCH := Batch(0, 0, ACK)

  /** The loop's three batch variables as one value; with length 0 the other
      two are left over from an earlier batch and mean nothing. */
  function Pending(length: nat, maxTag: nat, kind: AckType): Batch {
    if length == 0 then NO_BATCH else Batch(length, maxTag, kind)
  }

  function Flush(b: Batch): seq<Settlement> {
    if b.length > 0 then [MakeSettlement(b.maxTag, b.kind, b.length)] else []
  }

  function Max(x: nat, y: nat): nat {
    if x < y then y else x
  }

  /** What one acknowledgement makes the loop send, and the batch it leaves. */
  function StepOut(a: ConsumerAck, total: nat, maxTag: nat, b: Batch): (seq<Settlement>, Batch) {
    if total == maxTag && a.tag == maxTag + 1 then
      if b.length > 0 && a.kind != b.kind then (Flush(b), Batch(1, a.tag, a.kind))
      else ([], Batch(b.length + 1, a.tag, a.kind))
    else
      (Flush(b) + [Single(a)], NO_BATCH)
  }

  /** What the loop emits for the acknowledgements still to come. */
  function Emit(acks: seq<ConsumerAck>, total: nat, maxTag: nat, b: Batch): seq<Settlement> {
    if acks == [] then Flush(b)
    else
      var (out, b') := StepOut(acks[0], total, maxTag, b);
      out + Emit(acks[1..], total + 1, Max(maxTag, acks[0].tag), b')
  }

  lemma EmitUnfold(sent: seq<Settlement>, acks: seq<ConsumerAck>, i: nat, total: nat, maxTag: nat, b: Batch)
    requires i < |acks|
    ensures sent + Emit(acks[i..], total, maxTag, b)
         == sent + StepOut(acks[i], total, maxTag, b).0
            + Emit(acks[i + 1..], total + 1, Max(maxTag, acks[i].tag), StepOut(acks[i], total, maxTag, b).1)
    ensures MaxTag(acks[i..], maxTag) == MaxTag(acks[i + 1..], Max(maxTag, acks[i].tag))
  {
    assert acks[i..][0] == acks[i] && acks[i..][1..] == acks[i + 1..];
  }

  function MaxTag(acks: seq<ConsumerAck>, maxTag: nat): nat {
    if acks == [] then maxTag else MaxTag(acks[1..], Max(maxTag, acks[0].tag))
  }

  ghost predicate SortedUpTo(a: array<ConsumerAck>, n: nat)
    requires n <= a.Length
    reads a
  {
    forall i, j | 0 <= i < j < n :: a[i].tag <= a[j].tag
  }

  /** In-place sort of the caller's buffer by delivery tag. */
  method SortByTag(a: array<ConsumerAck>)
    modifies a
    ensures SortedByTag(a[..])
    ensures multiset(a[..]) == multiset(old(a[..]))
  {
    var n := 0;
    while n < a.Length
      invariant 0 <= n <= a.Length
      invariant SortedUpTo(a, n)
      invariant multiset(a[..]) == multiset(old(a[..]))
    {
      InsertLast(a, n);
      n := n + 1;
    }
  }

  method SwapWithPrevious(a: array<ConsumerAck>, k: nat)
    requires 0 < k < a.Length
    modifies a
    ensures a[k - 1] == old(a[k]) && a[k] == old(a[k - 1])
    ensures forall i | 0 <= i < a.Length && i != k && i != k - 1 :: a[i] == old(a[i])
    ensures multiset(a[..]) == multiset(old(a[..]))
  {
    a[k - 1], a[k] := a[k], a[k - 1];
  }

  /** Moves `a[n]` down into the sorted prefix `a[..n]`. */
  method InsertLast(a: array<ConsumerAck>, n: nat)
    requires n < a.Length
    requires SortedUpTo(a, n)
    modifies a
    ensures SortedUpTo(a, n + 1)
    ensures multiset(a[..]) == multiset(old(a[..]))
  {
    var k := n;
    while k > 0 && a[k - 1].tag > a[k].tag
      invariant 0 <= k <= n
      invariant multiset(a[..]) == multiset(old(a[..]))
      invariant SortedUpTo(a, k)
      invariant forall i, j | 0 <= i < j <= n && k < j && i != k :: a[i].tag <= a[j].tag
      invariant forall j | k < j <= n :: a[k].tag <= a[j].tag
    {
      SwapWithPrevious(a, k);
      k := k - 1;
    }
  }

  /** One turn of the batching loop on its three batch variables. */
  method Advance(a: ConsumerAck, total: nat, maxTag: nat, batchLength: nat, batchMaxTag: nat, batchType: AckType)
    returns (out: seq<Settlement>, length: nat, top: nat, kind: AckType)
    ensures (out, Pending(length, top, kind)) == StepOut(a, total, maxTag, Pending(batchLength, batchMaxTag, batchType))
  {
    out, length, top, kind := [], batchLength, batchMaxTag, batchType;
    if total == maxTag && a.tag == maxTag + 1 {
      if length > 0 && a.kind != kind {
        out := [MakeSettlement(top, kind, length)];
        length := 0;
      }
      length := length + 1;
      top := a.tag;
      kind := a.kind;
    } else {
      if length > 0 {
        out := [MakeSettlement(top, kind, length)];
        length := 0;
        top := 0;
      }
      assert out == Flush(Pending(batchLength, batchMaxTag, batchType));
      out := out + [MakeSettlement(a.tag, a.kind, 1)];
    }
  }

  /** The batching loop over the sorted acknowledgements. */
  method BatchAll(sorted: seq<ConsumerAck>, totalAcked: nat, maxProcessedTag: nat)
    returns (sent: seq<Settlement>, total: nat, maxTag: nat)
    ensures sent == Emit(sorted, totalAcked, maxProcessedTag, NO_BATCH)
    ensures total == totalAcked + |sorted| && maxTag == MaxTag(sorted, maxProcessedTag)
  {
    sent, total, maxTag := [], totalAcked, maxProcessedTag;
    var batchLength: nat, batchMaxTag: nat, batchType := 0, 0, ACK;
    assert sorted[0..] == sorted;
    for i := 0 to |sorted|
      invariant total == totalAcked + i
      invariant MaxTag(sorted[i..], maxTag) == MaxTag(sorted, maxProcessedTag)
      invariant sent + Emit(sorted[i..], total, maxTag, Pending(batchLength, batchMaxTag, batchType))
             == Emit(sorted, totalAcked, maxProcessedTag, NO_BATCH)
    {
      EmitUnfold(sent, sorted, i, total, maxTag, Pending(batchLength, batchMaxTag, batchType));
      var out;
      out, batchLength, batchMaxTag, batchType :=
        Advance(sorted[i], total, maxTag, batchLength, batchMaxTag, batchType);
      sent := sent + out;
      maxTag := if maxTag < sorted[i].tag then sorted[i].tag else maxTag;
      total := total + 1;
    }
    if batchLength > 0 {
      sent := sent + [MakeSettlement(batchMaxTag, batchType, batchLength)];
    }
  }

  class MultipleAckHandler {
    var totalAcked: nat
    var maxProcessedTag: nat

    constructor ()
      ensures totalAcked == 0 && maxProcessedTag == 0
    {
      totalAcked, maxProcessedTag := 0, 0;
    }

    method Process(acks: array<ConsumerAck>) returns (sent: seq<Settlement>)
      modifies this, acks
      ensures SortedByTag(acks[..])
      ensures multiset(acks[..]) == multiset(old(acks[..]))
      ensures sent == Emit(acks[..], old(totalAcked), old(maxProcessedTag), NO_BATCH)
      ensures totalAcked == old(totalAcked) + acks.Length
      ensures maxProcessedTag == MaxTag(acks[..], old(maxProcessedTag))
    {
      SortByTag(acks);
      sent, totalAcked, maxProcessedTag := BatchAll(acks[..], totalAcked, maxProcessedTag);
    }

    method Reset()
      modifies this
      ensures totalAcked == 0 && maxProcessedTag == 0
    {
      totalAcked, maxProcessedTag := 0, 0;
    }
  }
}

/** Batching refines acknowledging every message alone, in every run. */
module MultipleAckProofs {
  import opened AckTypes
  import opened MultipleAck

  /** The handler's two counters describe the set of tags processed so far. */
  ghost predicate Counts(done: set<nat>, total: nat, maxTag: nat) {
    && 0 !in done
    && |done| == total
    && (forall t | t in done :: t <= maxTag)
    && (maxTag == 0 || maxTag in done)
  }

  /** n distinct positive tags, none above n, are exactly 1 .. n. */
  lemma {:induction false} CountingArgument(done: set<nat>, n: nat)
    requires 0 !in done && |done| == n
    requires forall t | t in done :: t <= n
    ensures forall t | 1 <= t <= n :: t in done
  {
    if n > 0 {
      if n in done {
        CountingArgument(done - {n}, n - 1);
      } else if done != {} {
        var x :| x in done;
        TooFew(done, n - 1);
      }
    }
  }

  lemma {:induction false} TooFew(s: set<nat>, n: nat)
    requires 0 !in s && forall t | t in s :: t <= n
    ensures |s| <= n
  {
    if n == 0 {
      assert forall t | t in s :: false;
      assert s == {};
    } else {
      TooFew(s - {n}, n - 1);
    }
  }

  /** The processed tags the broker still holds are exactly the open batch. */
  ghost predicate BatchOpen(b: Broker, done: set<nat>, total: nat, maxTag: nat, batch: Batch) {
    && 0 !in b.unsettled
    && if batch.length == 0 then done !! b.unsettled
       else
         && total == maxTag == batch.maxTag
         && batch.length <= maxTag
         && forall t | t in done :: t in b.unsettled <==> t > maxTag - batch.length
  }

  ghost predicate Fresh(b: Broker, done: set<nat>, acks: seq<ConsumerAck>) {
    && DistinctTags(acks)
    && forall a | a in acks :: a.tag > 0 && a.tag in b.unsettled && a.tag !in done
  }

  lemma CountsStep(done: set<nat>, total: nat, maxTag: nat, t: nat)
    requires Counts(done, total, maxTag) && t > 0 && t !in done
    ensures Counts(done + {t}, total + 1, Max(maxTag, t))
  {
  }

  /** Sending the open batch settles it and nothing else. */
  lemma FlushSettlesBatch(b: Broker, done: set<nat>, total: nat, maxTag: nat, batch: Batch)
    requires Counts(done, total, maxTag) && BatchOpen(b, done, total, maxTag, batch)
    ensures SettleAll(b, Flush(batch)) == Take(b, b.unsettled * done, batch.kind)
  {
    if batch.length == 0 {
      assert b.unsettled * done == {};
      TakeNothing(b, batch.kind);
    } else {
      CountingArgument(done, maxTag);
      var f := MakeSettlement(batch.maxTag, batch.kind, batch.length);
      assert maxTag in b.unsettled;
      forall t ensures t in CoveredBy(b, f) <==> t in b.unsettled * done {
        if t in b.unsettled && t <= maxTag && batch.length == 1 {
          assert t in done;
        }
      }
      assert CoveredBy(b, f) == b.unsettled * done;
      assert SettleAll(b, Flush(batch)) == Settle(b, f);
    }
  }

  lemma ExtendedBatchOpen(b: Broker, done: set<nat>, maxTag: nat, batch: Batch, a: ConsumerAck)
    requires BatchOpen(b, done, maxTag, maxTag, batch)
    requires forall t | t in done :: t <= maxTag
    requires a.tag == maxTag + 1 && a.tag in b.unsettled
    ensures BatchOpen(b, done + {a.tag}, maxTag + 1, maxTag + 1, Batch(batch.length + 1, a.tag, a.kind))
  {
    forall t | t in done + {a.tag} ensures t in b.unsettled <==> t > maxTag - batch.length {
      if t in done && batch.length == 0 {
        assert t !in b.unsettled;
      }
    }
  }

  /** Extending the open batch by the next tag equals sending the batch and
      then the next tag alone. */
  lemma ExtendEqualsSplit(b: Broker, done: set<nat>, maxTag: nat, batch: Batch, a: ConsumerAck)
    requires Counts(done, maxTag, maxTag) && BatchOpen(b, done, maxTag, maxTag, batch)
    requires a.tag == maxTag + 1 && a.tag in b.unsettled && a.tag !in done
    requires batch.length == 0 || batch.kind == a.kind
    ensures SettleAll(b, Flush(Batch(batch.length + 1, a.tag, a.kind)))
         == Settle(SettleAll(b, Flush(batch)), Single(a))
  {
    var open, next := b.unsettled * done, Batch(batch.length + 1, a.tag, a.kind);
    assert b.unsettled * (done + {a.tag}) == open + {a.tag};
    FlushSettlesBatch(b, done, maxTag, maxTag, batch);
    assert SettleAll(b, Flush(next)) == Take(b, open + {a.tag}, a.kind) by {
      CountsStep(done, maxTag, maxTag, a.tag);
      ExtendedBatchOpen(b, done, maxTag, batch, a);
      FlushSettlesBatch(b, done + {a.tag}, maxTag + 1, maxTag + 1, next);
    }
    SettleOne(Take(b, open, batch.kind), Single(a));
    if batch.length == 0 {
      assert open == {};
      TakeNothing(b, batch.kind);
      assert open + {a.tag} == {a.tag};
    } else {
      TakeTwice(b, open, {a.tag}, a.kind);
    }
  }

  /** One turn of the loop: what it sends now and the batch it keeps open add up
      to the batch it had and the acknowledgement it took. */
  lemma StepRefines(b: Broker, done: set<nat>, a: ConsumerAck, total: nat, maxTag: nat, batch: Batch)
    requires Counts(done, total, maxTag) && BatchOpen(b, done, total, maxTag, batch)
    requires a.tag > 0 && a.tag in b.unsettled && a.tag !in done
    ensures var (out, batch') := StepOut(a, total, maxTag, batch);
      var b' := SettleAll(b, out);
      && BatchOpen(b', done + {a.tag}, total + 1, Max(maxTag, a.tag), batch')
      && b.unsettled - done - {a.tag} <= b'.unsettled
      && SettleAll(b', Flush(batch')) == Settle(SettleAll(b, Flush(batch)), Single(a))
  {
    var out := StepOut(a, total, maxTag, batch).0;
    var b1 := SettleAll(b, Flush(batch));
    FlushSettlesBatch(b, done, total, maxTag, batch);
    assert b1.unsettled == b.unsettled - done;
    if total == maxTag && a.tag == maxTag + 1 {
      if out == [] {
        ExtendEqualsSplit(b, done, maxTag, batch, a);
        ExtendedBatchOpen(b, done, maxTag, batch, a);
      } else {
        ExtendEqualsSplit(b1, done, maxTag, NO_BATCH, a);
        ExtendedBatchOpen(b1, done, maxTag, NO_BATCH, a);
      }
    } else {
      SettleAllAppend(b, Flush(batch), [Single(a)]);
      assert SettleAll(b1, [Single(a)]) == Settle(b1, Single(a));
      SettleOne(b1, Single(a));
    }
  }

  /** The batching loop and the one-by-one form leave the broker in the same
      state, whatever was processed before. */
  lemma {:induction false} EmitRefines(b: Broker, done: set<nat>, acks: seq<ConsumerAck>,
                                       total: nat, maxTag: nat, batch: Batch)
    requires Counts(done, total, maxTag)
    requires BatchOpen(b, done, total, maxTag, batch)
    requires Fresh(b, done, acks)
    ensures SettleAll(b, Emit(acks, total, maxTag, batch))
         == SettleAll(SettleAll(b, Flush(batch)), Individually(acks))
    decreases |acks|
  {
    if acks != [] {
      var a, rest := acks[0], acks[1..];
      var maxTag' := Max(maxTag, a.tag);
      var (out, batch') := StepOut(a, total, maxTag, batch);
      var b' := SettleAll(b, out);
      StepRefines(b, done, a, total, maxTag, batch);
      CountsStep(done, total, maxTag, a.tag);
      RestFresh(b, b', done, acks);
      EmitRefines(b', done + {a.tag}, rest, total + 1, maxTag', batch');
      SettleAllAppend(b, out, Emit(rest, total + 1, maxTag', batch'));
      assert Individually(acks)[0] == Single(a) && Individually(acks)[1..] == Individually(rest);
    }
  }

  lemma RestFresh(b: Broker, b': Broker, done: set<nat>, acks: seq<ConsumerAck>)
    requires acks != [] && Fresh(b, done, acks)
    requires b.unsettled - done - {acks[0].tag} <= b'.unsettled
    ensures Fresh(b', done + {acks[0].tag}, acks[1..])
  {
    forall r | r in acks[1..] ensures r in acks && r.tag != acks[0].tag {
      var i :| 0 <= i < |acks[1..]| && acks[1..][i] == r;
      assert acks[i + 1] == r;
    }
    forall r | r in acks[1..] ensures r.tag in b'.unsettled {
      assert r in acks;
      assert r.tag in b.unsettled - done - {acks[0].tag};
    }
  }

  // ---- What goes over the wire ----

  /** The method that settles `tag` in the way `kind`. */
  predicate OnWire(f: Settlement, tag: nat, kind: AckType) {
    match kind
    case ACK => f == BasicAck(tag, f.multiple)
    case REQUEUE => f == BasicNack(tag, true, f.multiple)
    case REJECT => f == BasicNack(tag, false, f.multiple)
  }

  /** Everything written is the method of an acknowledgement asked for, or of the batch
      that was open. */
  lemma {:induction false} EmittedOnWire(acks: seq<ConsumerAck>, total: nat, maxTag: nat, batch: Batch, f: Settlement)
    requires f in Emit(acks, total, maxTag, batch)
    ensures (batch.length > 0 && OnWire(f, batch.maxTag, batch.kind))
         || exists a :: a in acks && OnWire(f, a.tag, a.kind)
    decreases |acks|
  {
    if acks != [] {
      var a := acks[0];
      var (out, batch') := StepOut(a, total, maxTag, batch);
      if f in out {
        assert f in Flush(batch) || OnWire(f, a.tag, a.kind);
      } else {
        EmittedOnWire(acks[1..], total + 1, Max(maxTag, a.tag), batch', f);
      }
    }
  }

  /** The acknowledgements are those of the tags behind `maxTag`, all of one type. */
  ghost predicate InSequence(acks: seq<ConsumerAck>, maxTag: nat, kind: AckType) {
    forall i | 0 <= i < |acks| :: acks[i].tag == maxTag + 1 + i && acks[i].kind == kind
  }

  /** Acknowledgements in sequence, when all tags before them were acknowledged, go out
      as one method, together with the open batch of their type. */
  lemma {:induction false} SequenceIsOneMethod(acks: seq<ConsumerAck>, maxTag: nat, batch: Batch, kind: AckType)
    requires InSequence(acks, maxTag, kind) && batch.length + |acks| > 0
    requires batch.length > 0 ==> batch.kind == kind && batch.maxTag == maxTag
    ensures exists f :: Emit(acks, maxTag, maxTag, batch) == [f] && OnWire(f, maxTag + |acks|, kind)
              && (f.multiple <==> batch.length + |acks| > 1)
    decreases |acks|
  {
    if acks == [] {
      assert OnWire(MakeSettlement(maxTag, kind, batch.length), maxTag, kind);
    } else {
      assert acks[0].tag == maxTag + 1 && acks[0].kind == kind;
      var next := Batch(batch.length + 1, maxTag + 1, kind);
      forall i | 0 <= i < |acks| - 1
        ensures acks[1..][i].tag == maxTag + 2 + i && acks[1..][i].kind == kind
      {
        assert acks[1..][i] == acks[i + 1];
      }
      SequenceIsOneMethod(acks[1..], maxTag + 1, next, kind);
      assert Emit(acks, maxTag, maxTag, batch) == Emit(acks[1..], maxTag + 1, maxTag + 1, next);
    }
  }

  // ---- Repeated tags ----

  /** Every tag was delivered, and settled by nobody else. */
  ghost predicate Known(b: Broker, done: set<nat>, acks: seq<ConsumerAck>) {
    forall a | a in acks :: a.tag > 0 && (a.tag in b.unsettled || a.tag in done)
  }

  /** No tag is acknowledged twice, in this call or before it. */
  ghost predicate FirstTime(done: set<nat>, acks: seq<ConsumerAck>) {
    DistinctTags(acks) && forall a | a in acks :: a.tag !in done
  }

  lemma RestRepeats(done: set<nat>, acks: seq<ConsumerAck>)
    requires acks != [] && !FirstTime(done, acks) && acks[0].tag !in done
    ensures !FirstTime(done + {acks[0].tag}, acks[1..])
  {
    var rest := acks[1..];
    if DistinctTags(acks) {
      var a :| a in acks && a.tag in done;
      assert a in rest;
    } else {
      var i, j :| 0 <= i < j < |acks| && acks[i].tag == acks[j].tag;
      assert rest[j - 1] in rest;
      if i > 0 {
        assert rest[i - 1].tag == rest[j - 1].tag;
      }
    }
  }

  lemma RestKnown(b: Broker, b': Broker, done: set<nat>, acks: seq<ConsumerAck>)
    requires acks != [] && Known(b, done, acks)
    requires b.unsettled - done - {acks[0].tag} <= b'.unsettled
    ensures Known(b', done + {acks[0].tag}, acks[1..])
  {
    forall r | r in acks[1..]
      ensures r.tag > 0 && (r.tag in b'.unsettled || r.tag in done + {acks[0].tag})
    {
      assert r in acks;
    }
  }

  /** A tag processed before is never batched, so the broker is asked to settle it
      again. */
  lemma AgainFaults(b: Broker, done: set<nat>, a: ConsumerAck, total: nat, maxTag: nat, batch: Batch)
    requires Counts(done, total, maxTag) && BatchOpen(b, done, total, maxTag, batch) && a.tag in done
    ensures SettleAll(b, StepOut(a, total, maxTag, batch).0).faulted
  {
    FlushSettlesBatch(b, done, total, maxTag, batch);
    SettleAllAppend(b, Flush(batch), [Single(a)]);
    var b1 := SettleAll(b, Flush(batch));
    assert SettleAll(b1, [Single(a)]) == Settle(b1, Single(a));
  }

  lemma {:induction false} RepeatFaults(b: Broker, done: set<nat>, acks: seq<ConsumerAck>,
                                        total: nat, maxTag: nat, batch: Batch)
    requires Counts(done, total, maxTag)
    requires BatchOpen(b, done, total, maxTag, batch)
    requires Known(b, done, acks) && !FirstTime(done, acks)
    ensures SettleAll(b, Emit(acks, total, maxTag, batch)).faulted
    decreases |acks|
  {
    var a, rest := acks[0], acks[1..];
    var maxTag' := Max(maxTag, a.tag);
    var (out, batch') := StepOut(a, total, maxTag, batch);
    var b' := SettleAll(b, out);
    var later := Emit(rest, total + 1, maxTag', batch');
    assert Emit(acks, total, maxTag, batch) == out + later;
    SettleAllAppend(b, out, later);
    if a.tag in done {
      AgainFaults(b, done, a, total, maxTag, batch);
      FaultsStay(b', later);
    } else {
      assert a in acks;
      StepOpens(b, done, a, total, maxTag, batch);
      RestKnown(b, b', done, acks);
      RestRepeats(done, acks);
      RepeatFaults(b', done + {a.tag}, rest, total + 1, maxTag', batch');
    }
  }

  /** After one turn the counters and the open batch are again in agreement. */
  lemma StepOpens(b: Broker, done: set<nat>, a: ConsumerAck, total: nat, maxTag: nat, batch: Batch)
    requires Counts(done, total, maxTag) && BatchOpen(b, done, total, maxTag, batch)
    requires a.tag > 0 && a.tag in b.unsettled && a.tag !in done
    ensures var (out, batch') := StepOut(a, total, maxTag, batch);
      var b' := SettleAll(b, out);
      && BatchOpen(b', done + {a.tag}, total + 1, Max(maxTag, a.tag), batch')
      && b.unsettled - done - {a.tag} <= b'.unsettled
      && Counts(done + {a.tag}, total + 1, Max(maxTag, a.tag))
  {
    StepRefines(b, done, a, total, maxTag, batch);
    CountsStep(done, total, maxTag, a.tag);
  }
}
