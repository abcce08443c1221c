/**
 Confirmed bind and unbind requests merged into the topology of the next reconnect.
 */
module TopologyMerger {

  datatype Binding = Binding(exchange: string, queue: string, key: string)

  datatype Change = Bind(binding: Binding) | Unbind(binding: Binding) | Delete(queue: string)

  type Update = seq<Change>

  function Without(bs: seq<Binding>, b: Binding): seq<Binding> {
    if bs == [] then []
    else Without(bs[..|bs| - 1], b) + if bs[|bs| - 1] == b then [] else [bs[|bs| - 1]]
  }

  function MergeChange(bs: seq<Binding>, c: Change): seq<Binding> {
    match c
    case Bind(b) => if b in bs then bs else bs + [b]
    case Unbind(b) => Without(bs, b)
    case Delete(_) => bs
  }

  function Merge(bs: seq<Binding>, u: Update): seq<Binding> {
    if u == [] then bs else MergeChange(Merge(bs, u[..|u| - 1]), u[|u| - 1])
  }

  method Find(bs: seq<Binding>, b: Binding) returns (found: bool)
    ensures found == (b in bs)
  {
    for i := 0 to |bs|
      invariant b !in bs[..i]
    {
      if bs[i] == b {
        return true;
      }
    }
    return false;
  }

  method RemoveIf(bs: seq<Binding>, b: Binding) returns (kept: seq<Binding>)
    ensures kept == Without(bs, b)
  {
    kept := [];
    for i := 0 to |bs|
      invariant kept == Without(bs[..i], b)
    {
      assert bs[..i + 1][..i] == bs[..i];
      if bs[i] != b {
        kept := kept + [bs[i]];
      }
    }
    assert bs[..|bs|] == bs;
  }

  method MergeUpdate(bs: seq<Binding>, u: Update) returns (merged: seq<Binding>)
    ensures merged == Merge(bs, u)
  {
    merged := bs;
    for i := 0 to |u|
      invariant merged == Merge(bs, u[..i])
    {
      assert u[..i + 1][..i] == u[..i];
      match u[i]
      case Bind(b) =>
        var found := Find(merged, b);
        if !found {
          merged := merged + [b];
        }
      case Unbind(b) =>
        merged := RemoveIf(merged, b);
      case Delete(_) =>
    }
    assert u[..|u|] == u;
  }

  // ---- What merging means ----

  lemma {:induction false} WithoutMember(bs: seq<Binding>, b: Binding, x: Binding)
    ensures x in Without(bs, b) <==> x in bs && x != b
  {
    if bs != [] {
      var n := |bs| - 1;
      WithoutMember(bs[..n], b, x);
      assert bs == bs[..n] + [bs[n]];
    }
  }

  /** Some change binds it and none after that unbinds it. */
  ghost predicate BoundLast(u: Update, b: Binding) {
    exists i :: 0 <= i < |u| && u[i] == Bind(b) && Unbind(b) !in u[i..]
  }

  lemma BoundLastStep(u: Update, c: Change, b: Binding)
    ensures BoundLast(u + [c], b) <==> c == Bind(b) || (c != Unbind(b) && BoundLast(u, b))
  {
    var v := u + [c];
    if c == Bind(b) {
      assert v[|u|] == Bind(b) && v[|u|..] == [c];
    } else if c != Unbind(b) && BoundLast(u, b) {
      var i :| 0 <= i < |u| && u[i] == Bind(b) && Unbind(b) !in u[i..];
      assert v[i] == Bind(b) && v[i..] == u[i..] + [c];
    }
    if BoundLast(v, b) && c != Bind(b) {
      var i :| 0 <= i < |v| && v[i] == Bind(b) && Unbind(b) !in v[i..];
      assert i < |u| && v[i..] == u[i..] + [c];
      assert u[i] == Bind(b) && Unbind(b) !in u[i..];
      assert c in v[i..];
    }
  }

  /** The last word decides: a binding is there afterwards exactly when it was bound
      and not unbound later, or was there before and never unbound. */
  lemma {:induction false} MergeMembers(bs: seq<Binding>, u: Update, b: Binding)
    ensures b in Merge(bs, u) <==> BoundLast(u, b) || (b in bs && Unbind(b) !in u)
  {
    if u != [] {
      var n := |u| - 1;
      var earlier := u[..n];
      assert u == earlier + [u[n]];
      MergeMembers(bs, earlier, b);
      BoundLastStep(earlier, u[n], b);
      if u[n].Unbind? {
        WithoutMember(Merge(bs, earlier), u[n].binding, b);
      }
    }
  }

  predicate Distinct(bs: seq<Binding>) {
    forall i, j | 0 <= i < j < |bs| :: bs[i] != bs[j]
  }

  lemma DistinctSnoc(bs: seq<Binding>, b: Binding)
    requires Distinct(bs) && b !in bs
    ensures Distinct(bs + [b])
  {
  }

  lemma {:induction false} WithoutDistinct(bs: seq<Binding>, b: Binding)
    requires Distinct(bs)
    ensures Distinct(Without(bs, b))
  {
    if bs != [] {
      var n := |bs| - 1;
      WithoutDistinct(bs[..n], b);
      WithoutMember(bs[..n], b, bs[n]);
      assert bs[n] !in bs[..n];
      DistinctSnoc(Without(bs[..n], b), bs[n]);
    }
  }

  lemma {:induction false} MergeDistinct(bs: seq<Binding>, u: Update)
    requires Distinct(bs)
    ensures Distinct(Merge(bs, u))
  {
    if u != [] {
      var n := |u| - 1;
      MergeDistinct(bs, u[..n]);
      if u[n].Unbind? {
        WithoutDistinct(Merge(bs, u[..n]), u[n].binding);
      }
    }
  }

  /** The bindings that are never unbound. */
  function Kept(bs: seq<Binding>, u: Update): seq<Binding> {
    if bs == [] then []
    else Kept(bs[..|bs| - 1], u) + if Unbind(bs[|bs| - 1]) in u then [] else [bs[|bs| - 1]]
  }

  lemma WithoutSnoc(bs: seq<Binding>, x: Binding, b: Binding)
    ensures Without(bs + [x], b) == Without(bs, b) + if x == b then [] else [x]
  {
    assert (bs + [x])[..|bs|] == bs;
  }

  lemma KeptLast(bs: seq<Binding>, u: Update)
    requires bs != []
    ensures var front := Kept(bs[..|bs| - 1], u);
      Kept(bs, u) == if Unbind(bs[|bs| - 1]) in u then front else front + [bs[|bs| - 1]]
  {
  }

  lemma {:induction false} KeptStep(bs: seq<Binding>, u: Update, c: Change)
    ensures Kept(bs, u + [c]) == if c.Unbind? then Without(Kept(bs, u), c.binding) else Kept(bs, u)
  {
    if bs != [] {
      var n := |bs| - 1;
      KeptStep(bs[..n], u, c);
      KeptLast(bs, u);
      KeptLast(bs, u + [c]);
      if c.Unbind? {
        WithoutSnoc(Kept(bs[..n], u), bs[n], c.binding);
      }
    }
  }

  lemma {:induction false} WithoutAppend(a: seq<Binding>, c: seq<Binding>, b: Binding)
    ensures Without(a + c, b) == Without(a, b) + Without(c, b)
  {
    if c == [] {
      assert a + c == a;
    } else {
      var n := |c| - 1;
      assert (a + c)[..|a| + n] == a + c[..n];
      WithoutAppend(a, c[..n], b);
    }
  }

  lemma {:induction false} KeptAll(bs: seq<Binding>)
    ensures Kept(bs, []) == bs
  {
    if bs != [] {
      KeptAll(bs[..|bs| - 1]);
    }
  }

  /** What was there before stays in front, in its order. */
  lemma {:induction false} MergeKeepsOrder(bs: seq<Binding>, u: Update)
    ensures Kept(bs, u) <= Merge(bs, u)
  {
    if u == [] {
      KeptAll(bs);
    } else {
      var n := |u| - 1;
      var earlier, kept := Merge(bs, u[..n]), Kept(bs, u[..n]);
      assert u == u[..n] + [u[n]];
      MergeKeepsOrder(bs, u[..n]);
      KeptStep(bs, u[..n], u[n]);
      if u[n].Unbind? {
        assert earlier == kept + earlier[|kept|..];
        WithoutAppend(kept, earlier[|kept|..], u[n].binding);
      }
    }
  }
}

/**
 Topology declaration on open, updates in flight, and what survives a reconnect.
 Queue and exchange handles stay alive, and deletions wait for their reply.
 */
module Topology {
  import opened TopologyMerger
  import opened Wrappers

  datatype Exchange = Exchange(name: string, isDefault: bool)

  datatype Topology = Topology(
    queues: seq<string>,
    exchanges: seq<Exchange>,
    queueBindings: seq<Binding>,
    exchangeBindings: seq<Binding>)

  datatype Request =
    | DeclareQueue(name: string)
    | DeclareExchange(name: string)
    | BindQueue(binding: Binding)
    | UnbindQueue(binding: Binding)
    | DeleteQueue(name: string)
    | BindExchange(binding: Binding)

  datatype Reply =
    | QueueDeclareOk(name: string)
    | ExchangeDeclareOk
    | QueueBindOk
    | QueueUnbindOk
    | QueueDeleteOk
    | ExchangeBindOk

  datatype Kind = QUEUE | EXCHANGE | QUEUE_BINDING | QUEUE_UNBINDING | QUEUE_DELETE | EXCHANGE_BINDING

  // ---- Requests ----

  function QueueRequests(names: seq<string>): seq<Request> {
    seq(|names|, i requires 0 <= i < |names| => DeclareQueue(names[i]))
  }

  /** The default exchange is not declared. */
  function ExchangeRequests(es: seq<Exchange>): seq<Request> {
    if es == [] then []
    else (if es[0].isDefault then [] else [DeclareExchange(es[0].name)]) + ExchangeRequests(es[1..])
  }

  function QueueBindRequests(bs: seq<Binding>): seq<Request> {
    seq(|bs|, i requires 0 <= i < |bs| => BindQueue(bs[i]))
  }

  function ExchangeBindRequests(bs: seq<Binding>): seq<Request> {
    seq(|bs|, i requires 0 <= i < |bs| => BindExchange(bs[i]))
  }

  function DeclareRequests(t: Topology): seq<Request> {
    QueueRequests(t.queues) + ExchangeRequests(t.exchanges)
    + QueueBindRequests(t.queueBindings) + ExchangeBindRequests(t.exchangeBindings)
  }

  function ChangeRequest(c: Change): Request {
    match c
    case Bind(b) => BindQueue(b)
    case Unbind(b) => UnbindQueue(b)
    case Delete(q) => DeleteQueue(q)
  }

  function UpdateRequests(u: Update): (rs: seq<Request>)
    ensures |rs| == |u|
  {
    seq(|u|, i requires 0 <= i < |u| => ChangeRequest(u[i]))
  }

  /** The declaration of a topology asks for it. */
  predicate Asks(t: Topology, r: Request) {
    match r
    case DeclareQueue(name) => name in t.queues
    case DeclareExchange(name) => exists e :: e in t.exchanges && e == Exchange(name, false)
    case BindQueue(b) => b in t.queueBindings
    case BindExchange(b) => b in t.exchangeBindings
    case UnbindQueue(_) => false
    case DeleteQueue(_) => false
  }

  lemma {:induction false} ExchangeRequestsExactly(es: seq<Exchange>, r: Request)
    ensures r in ExchangeRequests(es) <==> r.DeclareExchange? && Exchange(r.name, false) in es
  {
    if es != [] {
      ExchangeRequestsExactly(es[1..], r);
      assert es == [es[0]] + es[1..];
    }
  }

  /** Declaring a topology writes exactly its queues, its exchanges but the default one
      and its bindings of both kinds. */
  lemma DeclareRequestsExactly(t: Topology, r: Request)
    ensures r in DeclareRequests(t) <==> Asks(t, r)
  {
    var qs, bs, xs := QueueRequests(t.queues), QueueBindRequests(t.queueBindings),
                      ExchangeBindRequests(t.exchangeBindings);
    ExchangeRequestsExactly(t.exchanges, r);
    assert r in DeclareRequests(t) <==> r in qs || r in ExchangeRequests(t.exchanges) || r in bs || r in xs;
    match r
    case DeclareQueue(name) =>
      if i :| 0 <= i < |t.queues| && t.queues[i] == name {
        assert qs[i] == r;
      }
    case BindQueue(b) =>
      if i :| 0 <= i < |t.queueBindings| && t.queueBindings[i] == b {
        assert bs[i] == r;
      }
    case BindExchange(b) =>
      if i :| 0 <= i < |t.exchangeBindings| && t.exchangeBindings[i] == b {
        assert xs[i] == r;
      }
    case _ =>
  }

  predicate IsDeclaration(r: Request) {
    r.DeclareQueue? || r.DeclareExchange?
  }

  /** Everything is declared before anything is bound. */
  lemma DeclaredBeforeBound(t: Topology, i: nat, j: nat)
    requires i < j < |DeclareRequests(t)| && IsDeclaration(DeclareRequests(t)[j])
    ensures IsDeclaration(DeclareRequests(t)[i])
  {
    var qs, es := QueueRequests(t.queues), ExchangeRequests(t.exchanges);
    if i >= |qs| {
      assert DeclareRequests(t)[i] == es[i - |qs|];
      ExchangeRequestsExactly(t.exchanges, es[i - |qs|]);
      assert es[i - |qs|] in es;
    }
  }

  /** An update is written change by change: a binding to bind, a binding to unbind, a
      queue to delete. */
  lemma UpdateRequestsExactly(u: Update, i: nat)
    requires i < |u|
    ensures u[i].Bind? ==> UpdateRequests(u)[i] == BindQueue(u[i].binding)
    ensures u[i].Unbind? ==> UpdateRequests(u)[i] == UnbindQueue(u[i].binding)
    ensures u[i].Delete? ==> UpdateRequests(u)[i] == DeleteQueue(u[i].queue)
  {
  }

  // ---- Expected replies ----

  datatype Transformer = Transformer(expected: seq<Kind>, names: seq<string>)

  function KindOf(r: Request): Kind {
    match r
    case DeclareQueue(_) => QUEUE
    case DeclareExchange(_) => EXCHANGE
    case BindQueue(_) => QUEUE_BINDING
    case UnbindQueue(_) => QUEUE_UNBINDING
    case DeleteQueue(_) => QUEUE_DELETE
    case BindExchange(_) => EXCHANGE_BINDING
  }

  function Kinds(rs: seq<Request>): seq<Kind> {
    if rs == [] then [] else [KindOf(rs[0])] + Kinds(rs[1..])
  }

  function Names(rs: seq<Request>): seq<string> {
    if rs == [] then [] else (if rs[0].DeclareQueue? then [rs[0].name] else []) + Names(rs[1..])
  }

  /** All requests written, none answered. */
  function Awaiting(rs: seq<Request>): Transformer {
    Transformer(Kinds(rs), Names(rs))
  }

  predicate Done(t: Transformer) {
    t.expected == []
  }

  /** A queue without a name may come back under any name. */
  function ProcessReply(t: Transformer, r: Reply): (Transformer, bool) {
    if t.expected == [] then (t, false)
    else
      var kind, rest := t.expected[0], t.expected[1..];
      match r
      case QueueDeclareOk(name) =>
        if t.names == [] then (Transformer(rest, t.names), false)
        else (Transformer(rest, t.names[1..]), kind == QUEUE && (t.names[0] == "" || t.names[0] == name))
      case ExchangeDeclareOk => (Transformer(rest, t.names), kind == EXCHANGE)
      case QueueBindOk => (Transformer(rest, t.names), kind == QUEUE_BINDING)
      case QueueUnbindOk => (Transformer(rest, t.names), kind == QUEUE_UNBINDING)
      case QueueDeleteOk => (Transformer(rest, t.names), kind == QUEUE_DELETE)
      case ExchangeBindOk => (Transformer(rest, t.names), kind == EXCHANGE_BINDING)
  }

  /** The broker's reply; it chooses the name of a queue declared without one. */
  function Answer(r: Request, chosen: string): Reply {
    match r
    case DeclareQueue(name) => QueueDeclareOk(if name == "" then chosen else name)
    case DeclareExchange(_) => ExchangeDeclareOk
    case BindQueue(_) => QueueBindOk
    case UnbindQueue(_) => QueueUnbindOk
    case DeleteQueue(_) => QueueDeleteOk
    case BindExchange(_) => ExchangeBindOk
  }

  lemma AnswersMatch(rs: seq<Request>, chosen: string)
    requires rs != []
    ensures ProcessReply(Awaiting(rs), Answer(rs[0], chosen)) == (Awaiting(rs[1..]), true)
  {
    assert Kinds(rs)[1..] == Kinds(rs[1..]);
    if rs[0].DeclareQueue? {
      assert Names(rs)[1..] == Names(rs[1..]);
    } else {
      assert Names(rs) == Names(rs[1..]);
    }
  }

  /** The reply answers the first unanswered request. */
  ghost predicate Expected(rs: seq<Request>, r: Reply) {
    rs != [] && exists chosen :: r == Answer(rs[0], chosen)
  }

  /** A reply is accepted if and only if it does. */
  lemma ReplyAcceptedExactly(rs: seq<Request>, r: Reply)
    ensures ProcessReply(Awaiting(rs), r).1 <==> Expected(rs, r)
  {
    if rs != [] {
      var chosen := if r.QueueDeclareOk? then r.name else "";
      if ProcessReply(Awaiting(rs), r).1 {
        assert r == Answer(rs[0], chosen);
      }
    }
  }

  // ---- The channel ----

  datatype State = CLOSED | CHANNEL_OPEN_SENT | DECLARING_TOPOLOGY | AWAITING_REPLY | READY | CHANNEL_CLOSE_SENT

  /** Who is told when the current transformer is done. */
  datatype Callback = Nobody | TopologyDeclared | Future(id: nat)

  /** A submitted update and its future. */
  datatype Pending = Pending(update: Update, id: nat)

  datatype Client = Client(
    state: State,
    topology: Topology,
    transformer: Option<Transformer>,
    callback: Callback,
    queue: seq<Pending>)

  /** A step's new state, the requests it wrote and the futures it resolved. */
  datatype Effect = Effect(client: Client, written: seq<Request>, resolved: seq<nat>, failed: seq<nat>)

  function Idle(c: Client): Effect {
    Effect(c, [], [], [])
  }

  /** Updates that ask for nothing at the head of the queue. */
  function EmptyHead(q: seq<Pending>): (n: nat)
    ensures n <= |q| && (n < |q| ==> q[n].update != [])
    ensures forall i | 0 <= i < n :: q[i].update == []
  {
    if q == [] || q[0].update != [] then 0 else 1 + EmptyHead(q[1..])
  }

  function Ids(q: seq<Pending>): (ids: seq<nat>)
    ensures |ids| == |q|
  {
    seq(|q|, i requires 0 <= i < |q| => q[i].id)
  }

  function SendNext(c: Client): Effect {
    var n := EmptyHead(c.queue);
    var rest := c.queue[n..];
    if rest == [] then Effect(c.(queue := []), [], Ids(c.queue[..n]), [])
    else
      var requests := UpdateRequests(rest[0].update);
      Effect(
        c.(queue := rest, transformer := Some(Awaiting(requests)), callback := Future(rest[0].id)),
        requests, Ids(c.queue[..n]), [])
  }

  function Submit(c: Client, u: Update, id: nat): Effect {
    var queued := c.(queue := c.queue + [Pending(u, id)]);
    if c.transformer.None? || Done(c.transformer.value) then SendNext(queued) else Idle(queued)
  }

  /** On open-ok; with nothing to declare, the updates go out at once. */
  function Declare(c: Client): Effect {
    var requests := DeclareRequests(c.topology);
    if requests == [] then SendNext(c.(state := AWAITING_REPLY))
    else
      Effect(
        c.(state := DECLARING_TOPOLOGY, transformer := Some(Awaiting(requests)), callback := TopologyDeclared),
        requests, [], [])
  }

  predicate Accepting(s: State) {
    s == DECLARING_TOPOLOGY || s == READY || s == AWAITING_REPLY
  }

  function FutureOf(callback: Callback): seq<nat> {
    if callback.Future? then [callback.id] else []
  }

  function MergeInto(t: Topology, u: Update): Topology {
    t.(queueBindings := Merge(t.queueBindings, u))
  }

  function Finish(c: Client): Effect {
    var told := c.(
      transformer := None,
      state := if c.callback == TopologyDeclared then AWAITING_REPLY else c.state);
    var next := SendNext(told);
    next.(resolved := FutureOf(c.callback) + next.resolved)
  }

  function ProcessTopologyMethod(c: Client, r: Reply): Effect {
    if !Accepting(c.state) then Idle(c)
    else if c.transformer.None? then Effect(c.(state := CHANNEL_CLOSE_SENT), [], [], FutureOf(c.callback))
    else
      var (t, ok) := ProcessReply(c.transformer.value, r);
      if !ok then Effect(c.(state := CHANNEL_CLOSE_SENT, transformer := None), [], [], FutureOf(c.callback))
      else if !Done(t) then Idle(c.(transformer := Some(t)))
      else if c.state == DECLARING_TOPOLOGY then Finish(c)
      else if c.queue == [] then Idle(c.(transformer := Some(t)))
      else Finish(c.(topology := MergeInto(c.topology, c.queue[0].update), queue := c.queue[1..]))
  }

  /** A channel that waits for the answers to `rs` is closed by any other reply, and by
      that alone; the update in flight then fails and stays queued, and nothing is merged
      or written. */
  lemma UnexpectedReplyCloses(c: Client, rs: seq<Request>, r: Reply)
    requires Accepting(c.state) && (c.transformer == Some(Awaiting(rs)) || (c.transformer.None? && rs == []))
    ensures var e := ProcessTopologyMethod(c, r);
      && (e.client.state == CHANNEL_CLOSE_SENT <==> !Expected(rs, r))
      && (!Expected(rs, r) ==>
            && e.client.queue == c.queue && e.client.topology == c.topology && e.client.transformer.None?
            && e.written == [] && e.resolved == []
            && e.failed == if c.callback.Future? then [c.callback.id] else [])
  {
    ReplyAcceptedExactly(rs, r);
  }

  /** Pops and resolves updates that ask for nothing. */
  method SkipEmpty(q: seq<Pending>) returns (rest: seq<Pending>, ids: seq<nat>)
    ensures rest == q[EmptyHead(q)..] && ids == Ids(q[..EmptyHead(q)])
  {
    var k := 0;
    ids := [];
    assert q[0..] == q;
    while k < |q| && q[k].update == []
      invariant k <= |q| && EmptyHead(q) == k + EmptyHead(q[k..])
      invariant ids == Ids(q[..k])
    {
      HeadPops(q, k);
      ids := ids + [q[k].id];
      k := k + 1;
    }
    rest := q[k..];
  }

  lemma HeadPops(q: seq<Pending>, k: nat)
    requires k < |q| && q[k].update == []
    ensures Ids(q[..k + 1]) == Ids(q[..k]) + [q[k].id]
    ensures EmptyHead(q[k..]) == 1 + EmptyHead(q[k + 1..])
  {
    assert q[k..][1..] == q[k + 1..];
  }

  class Channel {
    var state: State
    var topology: Topology
    var transformer: Option<Transformer>
    var callback: Callback
    var queue: seq<Pending>

    ghost function View(): Client
      reads this
    {
      Client(state, topology, transformer, callback, queue)
    }

    constructor (topology: Topology)
      ensures View() == Client(CLOSED, topology, None, Nobody, [])
    {
      state, this.topology, transformer, callback, queue := CLOSED, topology, None, Nobody, [];
    }

    method SendNextUpdate() returns (written: seq<Request>, resolved: seq<nat>)
      modifies this`transformer, this`callback, this`queue
      ensures Effect(View(), written, resolved, []) == SendNext(old(View()))
    {
      written := [];
      var rest, ids := SkipEmpty(queue);
      queue, resolved := rest, ids;
      if queue != [] {
        written := UpdateRequests(queue[0].update);
        transformer, callback := Some(Awaiting(written)), Future(queue[0].id);
      }
    }

    method UpdateTopology(u: Update, id: nat) returns (written: seq<Request>, resolved: seq<nat>)
      modifies this`transformer, this`callback, this`queue
      ensures Effect(View(), written, resolved, []) == Submit(old(View()), u, id)
    {
      queue := queue + [Pending(u, id)];
      written, resolved := [], [];
      if transformer.None? || Done(transformer.value) {
        written, resolved := SendNextUpdate();
      }
    }

    method DeclareTopology() returns (written: seq<Request>, resolved: seq<nat>)
      modifies this`state, this`transformer, this`callback, this`queue
      ensures Effect(View(), written, resolved, []) == Declare(old(View()))
    {
      written, resolved := DeclareRequests(topology), [];
      if written == [] {
        state := AWAITING_REPLY;
        written, resolved := SendNextUpdate();
      } else {
        state, transformer, callback := DECLARING_TOPOLOGY, Some(Awaiting(written)), TopologyDeclared;
      }
    }

    method ProcessTopologyReply(r: Reply) returns (written: seq<Request>, resolved: seq<nat>, failed: seq<nat>)
      modifies this
      ensures Effect(View(), written, resolved, failed) == ProcessTopologyMethod(old(View()), r)
    {
      written, resolved, failed := [], [], [];
      if state != DECLARING_TOPOLOGY && state != READY && state != AWAITING_REPLY {
        return;
      }
      if transformer.None? {
        state := CHANNEL_CLOSE_SENT;
        failed := FutureOf(callback);
        return;
      }
      var (t, ok) := ProcessReply(transformer.value, r);
      if !ok {
        state, transformer, failed := CHANNEL_CLOSE_SENT, None, FutureOf(callback);
        return;
      }
      transformer := Some(t);
      if Done(t) {
        if state != DECLARING_TOPOLOGY {
          if queue == [] {
            return;
          }
          var merged := MergeUpdate(topology.queueBindings, queue[0].update);
          topology := topology.(queueBindings := merged);
          queue := queue[1..];
        }
        resolved := FutureOf(callback);
        if callback == TopologyDeclared {
          state := AWAITING_REPLY;
        }
        transformer := None;
        var more: seq<nat>;
        written, more := SendNextUpdate();
        resolved := resolved + more;
      }
    }
  }
}
