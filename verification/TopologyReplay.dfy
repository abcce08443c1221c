/**
 A channel's topology over whole runs: declaration, updates, resets and a broker that
 answers the requests of the channel in order.
 */
module TopologyReplay {
  import opened Wrappers
  import opened TopologyMerger
  import opened Topology

  /** A request the broker has yet to answer: for which update (0 for the
      declaration, k + 1 for the k-th update) and whether it is the last of them. */
  datatype Sent = Sent(request: Request, owner: nat, last: bool)

  datatype System = System(
    client: Client,
    wire: seq<Sent>,
    linked: bool,
    submitted: seq<Update>,
    confirmed: seq<nat>,
    resolved: seq<nat>,
    failed: seq<nat>)

  datatype Event =
    | SubmitUpdate(update: Update)
    | Open
    | OpenOk
    | BrokerReply(chosen: string)
    | BecomeReady
    | Reset
    | Close

  function Initial(t: Topology): System {
    System(Client(CLOSED, t, None, Nobody, []), [], false, [], [], [], [])
  }

  predicate Enabled(s: System, e: Event) {
    match e
    case SubmitUpdate(_) => true
    case Open => s.client.state == CLOSED
    case OpenOk => s.client.state == CHANNEL_OPEN_SENT
    case BrokerReply(_) => s.wire != [] && s.client.state != CHANNEL_OPEN_SENT
    case BecomeReady => s.client.state == AWAITING_REPLY
    case Reset => true
    case Close => s.client.state != CLOSED && s.client.state != CHANNEL_CLOSE_SENT
  }

  function Owner(callback: Callback): nat {
    if callback.Future? then callback.id + 1 else 0
  }

  function Tagged(rs: seq<Request>, owner: nat): (t: seq<Sent>)
    ensures |t| == |rs|
  {
    seq(|rs|, i requires 0 <= i < |rs| => Sent(rs[i], owner, i == |rs| - 1))
  }

  /** Requests on a channel the broker does not have open are lost, and once the
      channel has asked to be closed it has not. */
  function Apply(s: System, e: Effect): System {
    s.(client := e.client,
       wire := if s.linked then s.wire + Tagged(e.written, Owner(e.client.callback)) else s.wire,
       linked := s.linked && e.client.state != CHANNEL_CLOSE_SENT,
       resolved := s.resolved + e.resolved,
       failed := s.failed + e.failed)
  }

  /** The update that the next reply confirms: the channel waits for it, and the reply
      is the broker's answer to its last request. */
  function Confirms(s: System): seq<nat>
    requires s.wire != []
  {
    var sent, owner := s.wire[0], Owner(s.client.callback);
    if Accepting(s.client.state) && sent.last && sent.owner == owner && owner > 0 then [owner - 1] else []
  }

  function Step(s: System, e: Event): System {
    if !Enabled(s, e) then s
    else
      match e
      case SubmitUpdate(u) => Apply(s.(submitted := s.submitted + [u]), Submit(s.client, u, |s.submitted|))
      case Open => s.(client := s.client.(state := CHANNEL_OPEN_SENT), linked := true)
      case OpenOk => Apply(s, Declare(s.client))
      case BrokerReply(chosen) =>
        Apply(s.(wire := s.wire[1..], confirmed := s.confirmed + Confirms(s)),
              ProcessTopologyMethod(s.client, Answer(s.wire[0].request, chosen)))
      case BecomeReady => s.(client := s.client.(state := READY))
      case Reset => s.(client := s.client.(state := CLOSED), wire := [], linked := false)
      case Close => s.(client := s.client.(state := CHANNEL_CLOSE_SENT), linked := false)
  }

  function Run(t: Topology, es: seq<Event>): System {
    if es == [] then Initial(t) else Step(Run(t, es[..|es| - 1]), es[|es| - 1])
  }

  /** Open-ok arrives while an update written before it is unanswered. */
  predicate Overtaken(s: System, e: Event) {
    e.OpenOk? && s.client.state == CHANNEL_OPEN_SENT && s.wire != []
  }

  predicate Calm(t: Topology, es: seq<Event>) {
    es == [] || (Calm(t, es[..|es| - 1]) && !Overtaken(Run(t, es[..|es| - 1]), es[|es| - 1]))
  }

  /** Something is declared that no update asks for: a queue, an exchange other than
      the default one, or a binding between exchanges. */
  predicate Anchored(t: Topology) {
    t.queues != [] || t.exchangeBindings != [] || exists e :: e in t.exchanges && !e.isDefault
  }

  // ---- Invariant ----

  /** How many updates have left the queue. */
  function Gone(s: System): int {
    |s.submitted| - |s.client.queue|
  }

  function MergeAll(bs: seq<Binding>, us: seq<Update>): seq<Binding> {
    if us == [] then bs else Merge(MergeAll(bs, us[..|us| - 1]), us[|us| - 1])
  }

  /** Positions of the updates that ask for something. */
  function Asking(us: seq<Update>): seq<nat> {
    if us == [] then []
    else Asking(us[..|us| - 1]) + if us[|us| - 1] == [] then [] else [|us| - 1]
  }

  function UpTo(n: nat): seq<nat> {
    seq(n, i => i)
  }

  ghost predicate QueueInv(s: System) {
    0 <= Gone(s)
    && forall i | 0 <= i < |s.client.queue| ::
         s.client.queue[i] == Pending(s.submitted[Gone(s) + i], Gone(s) + i)
  }

  ghost predicate HistoryInv(t: Topology, s: System) {
    0 <= Gone(s)
    && s.client.topology == t.(queueBindings := MergeAll(t.queueBindings, s.submitted[..Gone(s)]))
    && s.confirmed == Asking(s.submitted[..Gone(s)])
    && s.resolved == UpTo(Gone(s))
    && s.failed == []
  }

  /** The transformer works for the declaration or for the head of the queue. */
  ghost predicate CallbackInv(c: Client) {
    c.transformer.Some? ==>
      && !Done(c.transformer.value)
      && if c.callback.Future? then c.queue != [] && c.callback.id == c.queue[0].id && c.queue[0].update != []
         else c.callback == TopologyDeclared && DeclareRequests(c.topology) != []
  }

  function RequestsOf(wire: seq<Sent>): (rs: seq<Request>)
    ensures |rs| == |wire|
  {
    seq(|wire|, i requires 0 <= i < |wire| => wire[i].request)
  }

  predicate OwnedBy(wire: seq<Sent>, owner: nat) {
    forall i | 0 <= i < |wire| :: wire[i].owner == owner && (wire[i].last <==> i == |wire| - 1)
  }

  /** The unanswered requests are exactly those the transformer waits for. */
  ghost predicate Matching(s: System) {
    var c := s.client;
    if c.transformer.None? then s.wire == []
    else s.wire != [] && c.transformer.value == Awaiting(RequestsOf(s.wire)) && OwnedBy(s.wire, Owner(c.callback))
  }

  /** Kinds of requests that no update contains. */
  predicate Foreign(k: Kind) {
    k == QUEUE || k == EXCHANGE || k == EXCHANGE_BINDING
  }

  /** Only what updates ask for. */
  predicate Native(rs: seq<Request>) {
    forall i | 0 <= i < |rs| :: !Foreign(KindOf(rs[i]))
  }

  /** The declaration waits for replies that do not come in this order: it is never
      completed, and the first reply out of place closes the channel. */
  ghost predicate Stuck(s: System) {
    s.client.transformer.Some? && !(s.client.transformer.value.expected <= Kinds(RequestsOf(s.wire)))
  }

  ghost predicate LinkInv(s: System) {
    var c := s.client;
    match c.state
    case CLOSED => !s.linked && s.wire == []
    case CHANNEL_OPEN_SENT =>
      s.linked && (s.wire == [] || (Matching(s) && Native(RequestsOf(s.wire)) && c.callback.Future?))
    case CHANNEL_CLOSE_SENT => !s.linked
    case DECLARING_TOPOLOGY =>
      s.linked && c.transformer.Some? && c.callback == TopologyDeclared && (Matching(s) || Stuck(s))
    case _ =>
      s.linked && Matching(s) && (c.transformer.Some? ==> c.callback.Future?) && (c.queue != [] ==> c.transformer.Some?)
  }

  ghost predicate Inv(t: Topology, s: System) {
    QueueInv(s) && HistoryInv(t, s) && CallbackInv(s.client) && LinkInv(s)
  }

  // ---- Steps keep the invariant ----

  lemma {:induction false} EmptyPops(bs: seq<Binding>, us: seq<Update>, g: nat, m: nat)
    requires g + m <= |us| && forall i | g <= i < g + m :: us[i] == []
    ensures MergeAll(bs, us[..g + m]) == MergeAll(bs, us[..g])
    ensures Asking(us[..g + m]) == Asking(us[..g])
  {
    if m > 0 {
      EmptyPops(bs, us, g, m - 1);
      assert us[..g + m][..g + m - 1] == us[..g + m - 1];
      assert us[..g + m][g + m - 1] == [];
    }
  }

  lemma NextPops(bs: seq<Binding>, us: seq<Update>, g: nat)
    requires g < |us|
    ensures MergeAll(bs, us[..g + 1]) == Merge(MergeAll(bs, us[..g]), us[g])
    ensures Asking(us[..g + 1]) == Asking(us[..g]) + if us[g] == [] then [] else [g]
  {
    assert us[..g + 1][..g] == us[..g];
  }

  lemma SkippedQueue(s: System)
    requires QueueInv(s)
    ensures var s2 := Apply(s, SendNext(s.client));
      QueueInv(s2) && Gone(s2) == Gone(s) + EmptyHead(s.client.queue)
  {
    var n := EmptyHead(s.client.queue);
    var s2 := Apply(s, SendNext(s.client));
    assert s2.client.queue == s.client.queue[n..];
  }

  lemma SkippedIds(s: System, n: nat)
    requires QueueInv(s) && n <= |s.client.queue|
    ensures UpTo(Gone(s)) + Ids(s.client.queue[..n]) == UpTo(Gone(s) + n)
  {
  }

  lemma SkippedUpdates(s: System, i: nat)
    requires QueueInv(s) && Gone(s) <= i < Gone(s) + EmptyHead(s.client.queue)
    ensures s.submitted[i] == []
  {
    var q := s.client.queue;
    assert q[i - Gone(s)] == Pending(s.submitted[i], i);
  }

  lemma SkippedHistory(t: Topology, s: System)
    requires QueueInv(s) && HistoryInv(t, s)
    ensures HistoryInv(t, Apply(s, SendNext(s.client)))
  {
    var g, n := Gone(s), EmptyHead(s.client.queue);
    SkippedQueue(s);
    SkippedIds(s, n);
    forall i | g <= i < g + n
      ensures s.submitted[i] == []
    {
      SkippedUpdates(s, i);
    }
    EmptyPops(t.queueBindings, s.submitted, g, n);
    var next := SendNext(s.client);
    assert next.resolved == Ids(s.client.queue[..n]) && next.failed == [];
    assert next.client.topology == s.client.topology;
    assert s.failed + [] == s.failed;
  }

  lemma TaggedMatches(rs: seq<Request>, owner: nat)
    ensures RequestsOf(Tagged(rs, owner)) == rs && OwnedBy(Tagged(rs, owner), owner)
  {
  }

  lemma KindsNonempty(rs: seq<Request>)
    ensures Done(Awaiting(rs)) <==> rs == []
  {
  }

  lemma UpdatesAreNative(u: Update)
    ensures Native(UpdateRequests(u))
  {
  }

  /** Kicking off the next update from a channel with nothing unanswered. */
  lemma SendNextKeeps(t: Topology, s: System)
    requires QueueInv(s) && HistoryInv(t, s)
    requires s.linked ==> s.wire == [] && s.client.state != CHANNEL_CLOSE_SENT
    ensures var s2 := Apply(s, SendNext(s.client));
      QueueInv(s2) && HistoryInv(t, s2) && s2.client.state == s.client.state && s2.linked == s.linked
      && (!s.linked ==> s2.wire == s.wire)
      && (s2.client.queue != [] ==>
            CallbackInv(s2.client) && s2.client.transformer.Some? && s2.client.callback.Future?
            && (s.linked ==> Matching(s2) && Native(RequestsOf(s2.wire))))
      && (s2.client.queue == [] ==> s2.client == s.client.(queue := []) && s2.wire == s.wire)
  {
    SkippedQueue(s);
    SkippedHistory(t, s);
    var n := EmptyHead(s.client.queue);
    var rest := s.client.queue[n..];
    if rest == [] {
      assert s.wire + Tagged([], Owner(s.client.callback)) == s.wire;
    } else {
      var rs := UpdateRequests(rest[0].update);
      KindsNonempty(rs);
      UpdatesAreNative(rest[0].update);
      TaggedMatches(rs, rest[0].id + 1);
      assert [] + Tagged(rs, rest[0].id + 1) == Tagged(rs, rest[0].id + 1);
    }
  }

  lemma QueuedKeeps(t: Topology, s: System, u: Update)
    requires QueueInv(s) && HistoryInv(t, s)
    ensures var s1 := s.(client := s.client.(queue := s.client.queue + [Pending(u, |s.submitted|)]),
                         submitted := s.submitted + [u]);
      QueueInv(s1) && HistoryInv(t, s1) && Gone(s1) == Gone(s)
  {
    assert (s.submitted + [u])[..Gone(s)] == s.submitted[..Gone(s)];
  }

  lemma SubmitKeeps(t: Topology, s: System, u: Update)
    requires Inv(t, s)
    ensures Inv(t, Step(s, SubmitUpdate(u)))
  {
    var c := s.client.(queue := s.client.queue + [Pending(u, |s.submitted|)]);
    var s1 := s.(client := c, submitted := s.submitted + [u]);
    QueuedKeeps(t, s, u);
    if s.client.transformer.None? {
      SendNextKeeps(t, s1);
      assert Step(s, SubmitUpdate(u)) == Apply(s1, SendNext(c));
    } else {
      ApplyIdle(s1, c);
      assert Step(s, SubmitUpdate(u)) == s1;
    }
  }

  lemma ApplyIdle(s: System, c: Client)
    requires s.linked ==> c.state != CHANNEL_CLOSE_SENT
    ensures Apply(s, Idle(c)) == s.(client := c)
  {
    assert s.wire + Tagged([], Owner(c.callback)) == s.wire;
    assert s.resolved + [] == s.resolved && s.failed + [] == s.failed;
  }

  lemma {:induction false} KindsAppend(a: seq<Request>, b: seq<Request>)
    ensures Kinds(a + b) == Kinds(a) + Kinds(b)
  {
    if a == [] {
      assert a + b == b;
    } else {
      assert (a + b)[1..] == a[1..] + b;
      KindsAppend(a[1..], b);
    }
  }

  lemma {:induction false} KindsAt(rs: seq<Request>, i: nat)
    requires i < |rs|
    ensures |Kinds(rs)| == |rs| && Kinds(rs)[i] == KindOf(rs[i])
  {
    if |rs| > 1 {
      KindsAt(rs[1..], if i > 0 then i - 1 else 0);
    }
  }

  /** A sequence with a foreign kind never catches up with itself behind others. */
  lemma {:induction false} CannotCatchUp(w: seq<Kind>, d: seq<Kind>, j: nat)
    requires w != [] && (forall i | 0 <= i < |w| :: !Foreign(w[i]))
    requires j < |d| && Foreign(d[j])
    ensures !(d <= w + d)
    decreases j
  {
    if d <= w + d {
      assert d[j] == (w + d)[j];
      CannotCatchUp(w, d, j - |w|);
    }
  }

  /** An anchored topology declares something foreign to updates. */
  lemma AnchorDeclared(t: Topology) returns (j: nat)
    requires Anchored(t)
    ensures j < |DeclareRequests(t)| && Foreign(KindOf(DeclareRequests(t)[j]))
  {
    var q, x, b := QueueRequests(t.queues), ExchangeRequests(t.exchanges), QueueBindRequests(t.queueBindings);
    if t.queues != [] {
      j := 0;
    } else if t.exchangeBindings != [] {
      j := |q + x + b|;
      assert DeclareRequests(t)[j] == ExchangeBindRequests(t.exchangeBindings)[0];
    } else {
      var e :| e in t.exchanges && !e.isDefault;
      ExchangeDeclared(t.exchanges, e);
      var i :| 0 <= i < |x| && x[i] == DeclareExchange(e.name);
      j := |q| + i;
      assert DeclareRequests(t)[j] == x[i];
    }
  }

  lemma {:induction false} ExchangeDeclared(es: seq<Exchange>, e: Exchange)
    requires e in es && !e.isDefault
    ensures DeclareExchange(e.name) in ExchangeRequests(es)
  {
    if es[0] != e {
      ExchangeDeclared(es[1..], e);
    }
  }

  lemma OvertakenStuck(early: seq<Sent>, t: Topology)
    requires Anchored(t) && early != [] && Native(RequestsOf(early))
    ensures var rs := DeclareRequests(t);
      rs != [] && !(Kinds(rs) <= Kinds(RequestsOf(early + Tagged(rs, 0))))
  {
    var rs, first := DeclareRequests(t), RequestsOf(early);
    var j := AnchorDeclared(t);
    KindsAt(rs, j);
    forall i | 0 <= i < |first|
      ensures |Kinds(first)| == |first| && !Foreign(Kinds(first)[i])
    {
      KindsAt(first, i);
    }
    assert |Kinds(first)| == |first| by { KindsAt(first, 0); }
    CannotCatchUp(Kinds(first), Kinds(rs), j);
    assert RequestsOf(early + Tagged(rs, 0)) == first + rs;
    KindsAppend(first, rs);
  }

  lemma OpenOkKeeps(t: Topology, s: System)
    requires Inv(t, s) && s.client.state == CHANNEL_OPEN_SENT && (s.wire == [] || Anchored(t))
    ensures Inv(t, Step(s, OpenOk))
  {
    if DeclareRequests(s.client.topology) == [] {
      if s.wire != [] {
        OvertakenStuck(s.wire, s.client.topology);
      }
      var s1 := s.(client := s.client.(state := AWAITING_REPLY));
      SendNextKeeps(t, s1);
      assert Step(s, OpenOk) == Apply(s1, SendNext(s1.client));
    } else {
      DeclareKeeps(t, s);
    }
  }

  /** The channel once it has begun to declare. */
  function Declaring(s: System): System {
    var rs := DeclareRequests(s.client.topology);
    s.(client := s.client.(
         state := DECLARING_TOPOLOGY, transformer := Some(Awaiting(rs)), callback := TopologyDeclared),
       wire := s.wire + Tagged(rs, 0))
  }

  lemma OpenOkDeclares(s: System)
    requires s.linked && s.client.state == CHANNEL_OPEN_SENT && DeclareRequests(s.client.topology) != []
    ensures Step(s, OpenOk) == Declaring(s)
  {
    assert s.resolved + [] == s.resolved && s.failed + [] == s.failed;
  }

  lemma DeclaringMatches(s: System)
    requires s.wire == [] && DeclareRequests(s.client.topology) != []
    ensures Matching(Declaring(s))
  {
    var rs := DeclareRequests(s.client.topology);
    TaggedMatches(rs, 0);
    assert [] + Tagged(rs, 0) == Tagged(rs, 0);
  }

  lemma DeclaringStuck(s: System)
    requires s.wire != [] && Native(RequestsOf(s.wire)) && Anchored(s.client.topology)
    ensures Stuck(Declaring(s))
  {
    OvertakenStuck(s.wire, s.client.topology);
  }

  lemma DeclareKeeps(t: Topology, s: System)
    requires Inv(t, s) && s.client.state == CHANNEL_OPEN_SENT && (s.wire == [] || Anchored(t))
    requires DeclareRequests(s.client.topology) != []
    ensures Inv(t, Step(s, OpenOk))
  {
    OpenOkDeclares(s);
    KindsNonempty(DeclareRequests(s.client.topology));
    if s.wire == [] {
      DeclaringMatches(s);
    } else {
      DeclaringStuck(s);
    }
  }

  /** A reply that is accepted has the kind waited for. */
  lemma AcceptedKind(t: Transformer, r: Request, chosen: string)
    requires ProcessReply(t, Answer(r, chosen)).1
    ensures t.expected != [] && t.expected[0] == KindOf(r)
    ensures ProcessReply(t, Answer(r, chosen)).0.expected == t.expected[1..]
  {
  }

  lemma StuckStays(expected: seq<Kind>, rs: seq<Request>)
    requires expected != [] && rs != [] && expected[0] == KindOf(rs[0]) && !(expected <= Kinds(rs))
    ensures !(expected[1..] <= Kinds(rs[1..]))
  {
    assert Kinds(rs) == [KindOf(rs[0])] + Kinds(rs[1..]);
    assert expected == [expected[0]] + expected[1..];
  }

  lemma StuckAccepts(t: Topology, s: System, next: Transformer)
    requires Inv(t, s) && s.client.state == DECLARING_TOPOLOGY && Stuck(s) && s.wire != []
    requires s.client.transformer.value.expected != []
    requires s.client.transformer.value.expected[0] == KindOf(s.wire[0].request)
    requires next.expected == s.client.transformer.value.expected[1..]
    ensures Inv(t, s.(client := s.client.(transformer := Some(next)), wire := s.wire[1..]))
  {
    StuckStays(s.client.transformer.value.expected, RequestsOf(s.wire));
    assert RequestsOf(s.wire)[1..] == RequestsOf(s.wire[1..]);
  }

  lemma StuckCloses(t: Topology, s: System)
    requires Inv(t, s)
    ensures Inv(t, s.(client := s.client.(state := CHANNEL_CLOSE_SENT, transformer := None),
                      wire := if s.wire == [] then [] else s.wire[1..], linked := false))
  {
  }

  lemma StuckKeeps(t: Topology, s: System, chosen: string)
    requires Inv(t, s) && s.client.state == DECLARING_TOPOLOGY && Stuck(s) && s.wire != []
    ensures Inv(t, Step(s, BrokerReply(chosen)))
  {
    var tr, r := s.client.transformer.value, s.wire[0].request;
    var s1 := s.(wire := s.wire[1..]);
    assert Confirms(s) == [] && s.confirmed + [] == s.confirmed;
    var (next, ok) := ProcessReply(tr, Answer(r, chosen));
    if ok {
      AcceptedKind(tr, r, chosen);
      StuckAccepts(t, s, next);
      ApplyIdle(s1, s.client.(transformer := Some(next)));
    } else {
      StuckCloses(t, s);
      assert s.wire[1..] + Tagged([], 0) == s.wire[1..];
      assert s.resolved + [] == s.resolved && s.failed + [] == s.failed;
    }
  }

  lemma ReplyIgnored(t: Topology, s: System, chosen: string)
    requires Inv(t, s) && s.client.state == CHANNEL_CLOSE_SENT && s.wire != []
    ensures Inv(t, Step(s, BrokerReply(chosen)))
  {
    ApplyIdle(s.(wire := s.wire[1..], confirmed := s.confirmed + Confirms(s)), s.client);
  }

  /** A reply after which others are still waited for. */
  lemma PartialReplyStep(s: System, chosen: string)
    requires Accepting(s.client.state) && Matching(s) && |s.wire| > 1
    ensures Step(s, BrokerReply(chosen))
         == s.(client := s.client.(transformer := Some(Awaiting(RequestsOf(s.wire)[1..]))), wire := s.wire[1..])
    ensures Confirms(s) == []
  {
    var rs := RequestsOf(s.wire);
    AnswersMatch(rs, chosen);
    KindsNonempty(rs[1..]);
    var c := s.client.(transformer := Some(Awaiting(rs[1..])));
    ApplyIdle(s.(wire := s.wire[1..], confirmed := s.confirmed + Confirms(s)), c);
    assert s.confirmed + [] == s.confirmed;
  }

  lemma PartialReply(t: Topology, s: System, chosen: string)
    requires Inv(t, s) && Accepting(s.client.state) && Matching(s) && |s.wire| > 1
    ensures Inv(t, Step(s, BrokerReply(chosen)))
  {
    PartialReplyStep(s, chosen);
    PartlyAnswered(t, s, Step(s, BrokerReply(chosen)));
  }

  lemma PartlyAnswered(t: Topology, s: System, s2: System)
    requires Inv(t, s) && Accepting(s.client.state) && Matching(s) && |s.wire| > 1
    requires s2 == s.(client := s.client.(transformer := Some(Awaiting(RequestsOf(s.wire)[1..]))), wire := s.wire[1..])
    ensures Inv(t, s2)
  {
    var rs := RequestsOf(s.wire);
    assert rs[1..] == RequestsOf(s.wire[1..]);
    KindsNonempty(rs[1..]);
  }

  /** The last reply to the declaration. */
  lemma DeclarationDone(t: Topology, s: System, chosen: string)
    requires Inv(t, s) && s.client.state == DECLARING_TOPOLOGY && Matching(s) && |s.wire| == 1
    ensures Inv(t, Step(s, BrokerReply(chosen)))
  {
    var s1 := s.(client := s.client.(transformer := None, state := AWAITING_REPLY), wire := []);
    SendNextKeeps(t, s1);
    LastDeclarationReply(s, chosen, s1);
  }

  lemma LastDeclarationReply(s: System, chosen: string, s1: System)
    requires s.client.state == DECLARING_TOPOLOGY && s.linked && Matching(s) && |s.wire| == 1
    requires s.client.transformer.Some? && s.client.callback == TopologyDeclared
    requires s1 == s.(client := s.client.(transformer := None, state := AWAITING_REPLY), wire := [])
    ensures Step(s, BrokerReply(chosen)) == Apply(s1, SendNext(s1.client))
  {
    var rs, next := RequestsOf(s.wire), SendNext(s1.client);
    AnswersMatch(rs, chosen);
    KindsNonempty(rs[1..]);
    assert [] + next.resolved == next.resolved && s.confirmed + [] == s.confirmed;
  }

  /** The update at the head of the queue leaves it. */
  function HeadLeaves(s: System): System
    requires s.client.queue != [] && s.wire != []
  {
    var c := s.client;
    s.(client := c.(transformer := None, topology := MergeInto(c.topology, c.queue[0].update), queue := c.queue[1..]),
       wire := s.wire[1..], confirmed := s.confirmed + Confirms(s), resolved := s.resolved + [c.queue[0].id])
  }

  lemma HeadLeavesHistory(t: Topology, s: System)
    requires QueueInv(s) && HistoryInv(t, s) && s.client.queue != [] && s.client.queue[0].update != []
    requires s.wire != [] && Confirms(s) == [s.client.queue[0].id]
    ensures QueueInv(HeadLeaves(s)) && HistoryInv(t, HeadLeaves(s))
  {
    var g := Gone(s);
    assert s.client.queue[0] == Pending(s.submitted[g], g);
    NextPops(t.queueBindings, s.submitted, g);
    assert UpTo(g + 1) == UpTo(g) + [g];
    assert Gone(HeadLeaves(s)) == g + 1;
  }

  lemma LastReplyFinishes(c: Client, r: Request, chosen: string)
    requires c.transformer == Some(Awaiting([r])) && (c.state == READY || c.state == AWAITING_REPLY) && c.queue != []
    ensures ProcessTopologyMethod(c, Answer(r, chosen))
         == Finish(c.(topology := MergeInto(c.topology, c.queue[0].update), queue := c.queue[1..]))
  {
    AnswersMatch([r], chosen);
    KindsNonempty([r][1..]);
  }

  /** What the last reply makes of the channel, before it goes on. */
  lemma LastReplyEffect(s: System, chosen: string)
    requires s.client.queue != [] && s.client.callback == Future(s.client.queue[0].id)
    requires s.wire != [] && s.client.transformer == Some(Awaiting([s.wire[0].request]))
    requires s.client.state == READY || s.client.state == AWAITING_REPLY
    ensures var next := SendNext(HeadLeaves(s).client);
      ProcessTopologyMethod(s.client, Answer(s.wire[0].request, chosen))
      == next.(resolved := [s.client.queue[0].id] + next.resolved)
  {
    LastReplyFinishes(s.client, s.wire[0].request, chosen);
  }

  lemma LastReply(s: System, chosen: string)
    requires s.client.queue != [] && s.client.callback == Future(s.client.queue[0].id)
    requires s.wire != [] && s.client.transformer == Some(Awaiting([s.wire[0].request]))
    requires s.client.state == READY || s.client.state == AWAITING_REPLY
    ensures Step(s, BrokerReply(chosen)) == Apply(HeadLeaves(s), SendNext(HeadLeaves(s).client))
  {
    var g, next := s.client.queue[0].id, SendNext(HeadLeaves(s).client);
    LastReplyEffect(s, chosen);
    assert s.resolved + ([g] + next.resolved) == s.resolved + [g] + next.resolved;
  }

  /** The last reply to the update at the head of the queue. */
  lemma UpdateDone(t: Topology, s: System, chosen: string)
    requires Inv(t, s) && (s.client.state == READY || s.client.state == AWAITING_REPLY) && |s.wire| == 1
    ensures Inv(t, Step(s, BrokerReply(chosen)))
  {
    assert RequestsOf(s.wire) == [s.wire[0].request];
    HeadLeavesHistory(t, s);
    LastReply(s, chosen);
    SendNextKeeps(t, HeadLeaves(s));
  }

  lemma ReplyKeeps(t: Topology, s: System, chosen: string)
    requires Inv(t, s) && Enabled(s, BrokerReply(chosen))
    ensures Inv(t, Step(s, BrokerReply(chosen)))
  {
    if s.client.state == CHANNEL_CLOSE_SENT {
      ReplyIgnored(t, s, chosen);
    } else if !Matching(s) {
      StuckKeeps(t, s, chosen);
    } else if |s.wire| > 1 {
      PartialReply(t, s, chosen);
    } else if s.client.state == DECLARING_TOPOLOGY {
      DeclarationDone(t, s, chosen);
    } else {
      UpdateDone(t, s, chosen);
    }
  }

  lemma StepKeeps(t: Topology, s: System, e: Event)
    requires Inv(t, s) && (Anchored(t) || !Overtaken(s, e))
    ensures Inv(t, Step(s, e))
  {
    if Enabled(s, e) {
      match e
      case SubmitUpdate(u) => SubmitKeeps(t, s, u);
      case OpenOk => OpenOkKeeps(t, s);
      case BrokerReply(chosen) => ReplyKeeps(t, s, chosen);
      case _ =>
    }
  }

  lemma {:induction false} RunInv(t: Topology, es: seq<Event>)
    requires Anchored(t) || Calm(t, es)
    ensures Inv(t, Run(t, es))
  {
    if es != [] {
      RunInv(t, es[..|es| - 1]);
      StepKeeps(t, Run(t, es[..|es| - 1]), es[|es| - 1]);
    }
  }

  // ---- Main results ----

  function Select(us: seq<Update>, ids: seq<nat>): seq<Update>
    requires forall i | 0 <= i < |ids| :: ids[i] < |us|
  {
    seq(|ids|, i requires 0 <= i < |ids| => us[ids[i]])
  }

  lemma {:induction false} AskingExactly(us: seq<Update>, k: nat)
    ensures k in Asking(us) <==> k < |us| && us[k] != []
    ensures forall i | 0 <= i < |Asking(us)| :: Asking(us)[i] < |us|
  {
    if us != [] {
      AskingExactly(us[..|us| - 1], k);
    }
  }

  lemma AskingInRange(us: seq<Update>)
    ensures forall i | 0 <= i < |Asking(us)| :: Asking(us)[i] < |us|
  {
    AskingExactly(us, 0);
  }

  lemma {:induction false} MergeAsking(bs: seq<Binding>, us: seq<Update>, all: seq<Update>)
    requires us <= all
    requires forall i | 0 <= i < |Asking(us)| :: Asking(us)[i] < |all|
    ensures MergeAll(bs, Select(all, Asking(us))) == MergeAll(bs, us)
  {
    if us != [] {
      var n := |us| - 1;
      AskingInRange(us[..n]);
      MergeAsking(bs, us[..n], all);
      if us[n] != [] {
        assert Asking(us) == Asking(us[..n]) + [n] && all[n] == us[n];
        MergeSelected(bs, all, Asking(us[..n]), n);
      } else {
        assert Asking(us) == Asking(us[..n]);
      }
    }
  }

  lemma MergeSelected(bs: seq<Binding>, all: seq<Update>, ids: seq<nat>, n: nat)
    requires n < |all| && forall i | 0 <= i < |ids| :: ids[i] < |all|
    ensures MergeAll(bs, Select(all, ids + [n])) == Merge(MergeAll(bs, Select(all, ids)), all[n])
  {
    assert Select(all, ids + [n])[..|ids|] == Select(all, ids);
    assert Select(all, ids + [n])[|ids|] == all[n];
  }

  /** At every moment of every run the topology to be redeclared is the initial one
      with exactly the confirmed updates merged in submission order. */
  lemma RedeclaredTopology(t: Topology, es: seq<Event>)
    requires Anchored(t) || Calm(t, es)
    ensures Redeclares(t, Run(t, es))
  {
    RunInv(t, es);
    FoldsConfirmed(t, Run(t, es));
  }

  ghost predicate Redeclares(t: Topology, s: System) {
    (forall i | 0 <= i < |s.confirmed| :: s.confirmed[i] < |s.submitted|)
    && s.client.topology == t.(queueBindings := MergeAll(t.queueBindings, Select(s.submitted, s.confirmed)))
  }

  lemma FoldsConfirmed(t: Topology, s: System)
    requires HistoryInv(t, s)
    ensures Redeclares(t, s)
  {
    var gone := s.submitted[..Gone(s)];
    AskingInRange(gone);
    MergeAsking(t.queueBindings, gone, s.submitted);
  }

  /** Whatever was reset in between, an update is confirmed exactly when it asked for
      something and has left the queue; what has not left is queued in order; and
      futures are resolved once each, in order, for exactly those that left. */
  lemma UpdatesConfirmedOrQueued(t: Topology, es: seq<Event>, k: nat)
    requires Anchored(t) || Calm(t, es)
    ensures Settled(Run(t, es), k)
  {
    RunInv(t, es);
    LeftOrQueued(t, Run(t, es), k);
  }

  /** Where update k is. */
  ghost predicate Settled(s: System, k: nat) {
    0 <= Gone(s)
    && (k in s.confirmed <==> k < Gone(s) && s.submitted[k] != [])
    && (Gone(s) <= k < |s.submitted| ==> s.client.queue[k - Gone(s)] == Pending(s.submitted[k], k))
    && s.resolved == UpTo(Gone(s)) && s.failed == []
  }

  lemma LeftOrQueued(t: Topology, s: System, k: nat)
    requires QueueInv(s) && HistoryInv(t, s)
    ensures Settled(s, k)
  {
    AskingExactly(s.submitted[..Gone(s)], k);
  }


  // ---- Updates written between open and open-ok ----

  lemma {:induction false} KindsLength(rs: seq<Request>)
    ensures |Kinds(rs)| == |rs|
  {
    if rs != [] {
      KindsLength(rs[1..]);
    }
  }

  /** Open-ok makes the channel wait for what it then writes, and only that. */
  lemma OpenOkWaits(s: System)
    requires s.linked && s.client.state == CHANNEL_OPEN_SENT
    requires s.client.queue != [] && s.client.queue[0].update != []
    ensures var s2 := Step(s, OpenOk);
      s2.client.transformer.Some? && |s2.client.transformer.value.expected| == |s2.wire| - |s.wire|
  {
    KindsLength(DeclareRequests(s.client.topology));
    KindsLength(UpdateRequests(s.client.queue[0].update));
    assert EmptyHead(s.client.queue) == 0;
    assert s.client.queue[0..] == s.client.queue;
  }

  /** The replies to come are those waited for after open-ok if and only if no update
      was written before it. */
  lemma EarlyUpdateMismatched(t: Topology, s: System)
    requires Inv(t, s) && s.client.state == CHANNEL_OPEN_SENT
    ensures Matching(Step(s, OpenOk)) <==> s.wire == []
  {
    if s.wire == [] {
      OpenOkKeeps(t, s);
      if DeclareRequests(s.client.topology) != [] {
        OpenOkDeclares(s);
        DeclaringMatches(s);
      }
    } else {
      OpenOkWaits(s);
      KindsLength(RequestsOf(Step(s, OpenOk).wire));
    }
  }

  /** With something to declare, the first reply closes the channel if and only if the
      early update begins with another kind than the declaration; the update is then
      still queued and nothing is merged. */
  lemma EarlyUpdateCloses(t: Topology, s: System, chosen: string)
    requires Inv(t, s) && s.client.state == CHANNEL_OPEN_SENT && s.wire != []
    requires DeclareRequests(s.client.topology) != []
    ensures var s2 := Step(Step(s, OpenOk), BrokerReply(chosen));
      s2.client.state == CHANNEL_CLOSE_SENT <==>
      KindOf(DeclareRequests(s.client.topology)[0]) != KindOf(s.wire[0].request)
    ensures var s2 := Step(Step(s, OpenOk), BrokerReply(chosen));
      s2.client.state == CHANNEL_CLOSE_SENT ==>
        s2.client.queue == s.client.queue && s2.client.topology == s.client.topology && s2.confirmed == s.confirmed
  {
    var rs, r := DeclareRequests(s.client.topology), s.wire[0].request;
    OpenOkDeclares(s);
    var s1 := Declaring(s);
    assert s1.wire[0] == s.wire[0];
    assert RequestsOf(s.wire)[0] == r;
    FirstReply(s1, rs, chosen);
  }

  lemma FirstReply(s: System, rs: seq<Request>, chosen: string)
    requires s.client.state == DECLARING_TOPOLOGY && s.linked && s.client.callback == TopologyDeclared
    requires rs != [] && s.client.transformer == Some(Awaiting(rs))
    requires s.wire != [] && !Foreign(KindOf(s.wire[0].request))
    ensures var s2 := Step(s, BrokerReply(chosen));
      s2.client.state == CHANNEL_CLOSE_SENT <==> KindOf(rs[0]) != KindOf(s.wire[0].request)
    ensures var s2 := Step(s, BrokerReply(chosen));
      s2.client.state == CHANNEL_CLOSE_SENT ==>
        s2.client.queue == s.client.queue && s2.client.topology == s.client.topology && s2.confirmed == s.confirmed
  {
    var r := s.wire[0].request;
    assert Kinds(rs)[0] == KindOf(rs[0]);
    assert ProcessReply(Awaiting(rs), Answer(r, chosen)).1 <==> KindOf(rs[0]) == KindOf(r);
    assert Confirms(s) == [] && s.confirmed + [] == s.confirmed;
  }

  // ---- Topologies with nothing but queue bindings ----

  lemma {:induction false} DefaultsUndeclared(es: seq<Exchange>)
    requires forall e | e in es :: e.isDefault
    ensures ExchangeRequests(es) == []
  {
    if es != [] {
      DefaultsUndeclared(es[1..]);
    }
  }

  lemma UnanchoredRequests(t: Topology)
    requires !Anchored(t)
    ensures DeclareRequests(t) == QueueBindRequests(t.queueBindings)
  {
    DefaultsUndeclared(t.exchanges);
    assert QueueRequests(t.queues) == [] && ExchangeBindRequests(t.exchangeBindings) == [];
  }

  function Replies(s: System, n: nat): System {
    if n == 0 then s else Step(Replies(s, n - 1), BrokerReply(""))
  }

  function Answers(n: nat): seq<Event> {
    seq(n, _ => BrokerReply(""))
  }

  lemma RunSnoc(t: Topology, es: seq<Event>, e: Event)
    ensures Run(t, es + [e]) == Step(Run(t, es), e)
  {
    assert (es + [e])[..|es|] == es;
  }

  lemma {:induction false} RunReplies(t: Topology, es: seq<Event>, n: nat)
    ensures Run(t, es + Answers(n)) == Replies(Run(t, es), n)
  {
    if n == 0 {
      assert es + Answers(0) == es;
    } else {
      RunReplies(t, es, n - 1);
      assert es + Answers(n) == es + Answers(n - 1) + [BrokerReply("")];
      RunSnoc(t, es + Answers(n - 1), BrokerReply(""));
    }
  }

  predicate AllBinds(rs: seq<Request>) {
    forall i | 0 <= i < |rs| :: rs[i].BindQueue?
  }

  /** Replies to other bindings are as good as replies to one's own. */
  lemma {:induction false} SomeBindsAnswered(s: System, rs: seq<Request>, n: nat)
    requires s.client.state == DECLARING_TOPOLOGY && s.linked && s.client.callback == TopologyDeclared
    requires s.client.transformer == Some(Awaiting(rs)) && AllBinds(rs)
    requires n < |rs| <= |s.wire| && AllBinds(RequestsOf(s.wire))
    ensures Replies(s, n)
         == s.(client := s.client.(transformer := Some(Awaiting(rs[n..]))), wire := s.wire[n..])
  {
    if n == 0 {
      assert rs[0..] == rs && s.wire[0..] == s.wire;
    } else {
      SomeBindsAnswered(s, rs, n - 1);
      assert RequestsOf(s.wire)[n - 1].BindQueue?;
      NextBindAnswered(s, rs, n);
    }
  }

  lemma NextBindAnswered(s: System, rs: seq<Request>, n: nat)
    requires s.client.state == DECLARING_TOPOLOGY && s.linked && s.client.callback == TopologyDeclared
    requires 0 < n < |rs| <= |s.wire| && rs[n - 1].BindQueue? && s.wire[n - 1].request.BindQueue?
    ensures Step(s.(client := s.client.(transformer := Some(Awaiting(rs[n - 1..]))), wire := s.wire[n - 1..]),
                 BrokerReply(""))
         == s.(client := s.client.(transformer := Some(Awaiting(rs[n..]))), wire := s.wire[n..])
  {
    var left := rs[n - 1..];
    var s1 := s.(client := s.client.(transformer := Some(Awaiting(left))), wire := s.wire[n - 1..]);
    assert left[0] == rs[n - 1] && left[1..] == rs[n..];
    assert s1.wire[0] == s.wire[n - 1] && s1.wire[1..] == s.wire[n..];
    OneBindAnswered(s1, left);
  }

  lemma OneBindAnswered(s: System, rs: seq<Request>)
    requires s.client.state == DECLARING_TOPOLOGY && s.linked && s.client.callback == TopologyDeclared
    requires s.client.transformer == Some(Awaiting(rs)) && |rs| > 1 && rs[0].BindQueue?
    requires s.wire != [] && s.wire[0].request.BindQueue?
    ensures Step(s, BrokerReply(""))
         == s.(client := s.client.(transformer := Some(Awaiting(rs[1..]))), wire := s.wire[1..])
  {
    AnswersMatch(rs, "");
    KindsNonempty(rs[1..]);
    ApplyIdle(s.(wire := s.wire[1..]), s.client.(transformer := Some(Awaiting(rs[1..]))));
    assert s.confirmed + [] == s.confirmed;
  }

  function OneBind(): Transformer {
    Transformer([QUEUE_BINDING], [])
  }

  lemma OneBindRequests(b: Binding, owner: nat)
    ensures UpdateRequests([Bind(b)]) == [BindQueue(b)]
    ensures Awaiting([BindQueue(b)]) == OneBind()
    ensures Tagged([BindQueue(b)], owner) == [Sent(BindQueue(b), owner, true)]
  {
    var rs := [BindQueue(b)];
    assert rs[1..] == [];
    assert Kinds(rs[1..]) == [] && Names(rs[1..]) == [];
  }

  lemma SendOne(c: Client, b: Binding, id: nat)
    requires c.queue != [] && c.queue[0] == Pending([Bind(b)], id)
    ensures SendNext(c)
         == Effect(c.(transformer := Some(OneBind()), callback := Future(id)), [BindQueue(b)], [], [])
  {
    OneBindRequests(b, 0);
    assert EmptyHead(c.queue) == 0;
    assert c.queue[0..] == c.queue && c.queue[..0] == [];
  }

  /** The channel waits for the first update with another binding to be answered
      before it, and the update's own request still to come. */
  function Misled(t: Topology, a: Binding, other: Sent): System {
    System(Client(AWAITING_REPLY, t, Some(OneBind()), Future(0), [Pending([Bind(a)], 0)]),
           [other, Sent(BindQueue(a), 1, true)], true, [[Bind(a)]], [], [], [])
  }

  /** The last reply to a declaration of bindings, with the first update next. */
  lemma DeclarationMisled(t: Topology, a: Binding, s: System, r: Request)
    requires s.client == Client(DECLARING_TOPOLOGY, t, Some(Awaiting([r])), TopologyDeclared, [Pending([Bind(a)], 0)])
    requires r.BindQueue? && |s.wire| == 2 && s.wire[0].request.BindQueue?
    requires s == System(s.client, s.wire, true, [[Bind(a)]], [], [], [])
    ensures Step(s, BrokerReply("")) == Misled(t, a, s.wire[1])
  {
    AnswersMatch([r], "");
    KindsNonempty([r][1..]);
    var c := s.client.(transformer := None, state := AWAITING_REPLY);
    SendOne(c, a, 0);
    OneBindRequests(a, 1);
    assert Confirms(s) == [];
    assert s.wire[1..] + [Sent(BindQueue(a), 1, true)] == [s.wire[1], Sent(BindQueue(a), 1, true)];
  }

  function EarlyRun(a: Binding): seq<Event> {
    [Open, SubmitUpdate([Bind(a)]), OpenOk]
  }

  /** The channel after open and the early update. */
  function Opened(t: Topology, a: Binding): System {
    System(Client(CHANNEL_OPEN_SENT, t, Some(OneBind()), Future(0), [Pending([Bind(a)], 0)]),
           [Sent(BindQueue(a), 1, true)], true, [[Bind(a)]], [], [], [])
  }

  lemma SubmittedEarly(t: Topology, a: Binding)
    ensures Step(Step(Initial(t), Open), SubmitUpdate([Bind(a)])) == Opened(t, a)
  {
    var s := Step(Initial(t), Open);
    var q := [Pending([Bind(a)], 0)];
    assert s.client.queue + q == q && s.submitted + [[Bind(a)]] == [[Bind(a)]];
    SendOne(s.client.(queue := q), a, 0);
    OneBindRequests(a, 1);
    assert [] + [Sent(BindQueue(a), 1, true)] == [Sent(BindQueue(a), 1, true)];
  }

  lemma RunThree(t: Topology, e0: Event, e1: Event, e2: Event)
    ensures Run(t, [e0, e1, e2]) == Step(Step(Step(Initial(t), e0), e1), e2)
  {
    assert [e0, e1, e2][..2] == [e0, e1] && [e0, e1][..1] == [e0] && [e0][..0] == [];
    assert Run(t, [e0]) == Step(Run(t, []), e0);
    assert Run(t, [e0, e1]) == Step(Run(t, [e0]), e1);
  }

  lemma EarlyWritten(t: Topology, a: Binding)
    ensures Run(t, EarlyRun(a)) == Step(Opened(t, a), OpenOk)
  {
    RunThree(t, Open, SubmitUpdate([Bind(a)]), OpenOk);
    SubmittedEarly(t, a);
  }

  /** With m bindings to declare, m replies leave the channel waiting for the update
      with a reply to something else to come first. */
  lemma DeclaredTooSoon(t: Topology, a: Binding) returns (other: Sent)
    requires !Anchored(t)
    ensures other.request.BindQueue?
    ensures Replies(Run(t, EarlyRun(a)), |t.queueBindings|) == Misled(t, a, other)
  {
    EarlyWritten(t, a);
    if t.queueBindings == [] {
      NothingToDeclare(t, a);
      other := Sent(BindQueue(a), 1, true);
    } else {
      other := BindingsDeclared(t, a);
    }
  }

  lemma NothingToDeclare(t: Topology, a: Binding)
    requires !Anchored(t) && t.queueBindings == []
    ensures Step(Opened(t, a), OpenOk) == Misled(t, a, Sent(BindQueue(a), 1, true))
  {
    UnanchoredRequests(t);
    SendOne(Opened(t, a).client.(state := AWAITING_REPLY), a, 0);
    OneBindRequests(a, 1);
  }

  lemma BindingsDeclared(t: Topology, a: Binding) returns (other: Sent)
    requires !Anchored(t) && t.queueBindings != []
    ensures other.request.BindQueue?
    ensures Replies(Step(Opened(t, a), OpenOk), |t.queueBindings|) == Misled(t, a, other)
  {
    var s, rs, m := Opened(t, a), DeclareRequests(t), |t.queueBindings|;
    UnanchoredRequests(t);
    OpenOkDeclares(s);
    var s1 := Declaring(s);
    OnlyBindsWritten(t, a);
    SomeBindsAnswered(s1, rs, m - 1);
    other := s1.wire[m];
    assert rs[m - 1..] == [rs[m - 1]];
    assert s1.wire[m - 1..] == [s1.wire[m - 1], other];
    DeclarationMisled(t, a, Replies(s1, m - 1), rs[m - 1]);
  }

  lemma OnlyBindsWritten(t: Topology, a: Binding)
    requires !Anchored(t)
    ensures var wire := Declaring(Opened(t, a)).wire;
      |wire| == |t.queueBindings| + 1 && AllBinds(RequestsOf(wire))
      && forall i | 0 <= i < |wire| :: wire[i].request.BindQueue?
  {
    UnanchoredRequests(t);
  }

  // ---- The second update is taken for confirmed ----

  lemma SecondQueued(t: Topology, a: Binding, b: Binding, other: Sent)
    ensures var s := Misled(t, a, other);
      Step(s, SubmitUpdate([Bind(b)]))
      == s.(client := s.client.(queue := [Pending([Bind(a)], 0), Pending([Bind(b)], 1)]),
            submitted := [[Bind(a)], [Bind(b)]])
  {
    var s := Misled(t, a, other);
    var c := s.client.(queue := s.client.queue + [Pending([Bind(b)], 1)]);
    ApplyIdle(s.(submitted := s.submitted + [[Bind(b)]]), c);
  }

  /** Going on to the second update. */
  lemma SecondSent(s: System, b: Binding)
    requires s.linked && s.client.state == AWAITING_REPLY && s.client.queue == [Pending([Bind(b)], 1)]
    ensures Apply(s, SendNext(s.client))
         == s.(client := s.client.(transformer := Some(OneBind()), callback := Future(1)),
               wire := s.wire + [Sent(BindQueue(b), 2, true)])
  {
    SendOne(s.client, b, 1);
    OneBindRequests(b, 2);
    assert s.resolved + [] == s.resolved && s.failed + [] == s.failed;
  }

  /** A reply that completes the update at the head while another one waits. */
  lemma HeadTakenForConfirmed(s: System, a: Binding, b: Binding)
    requires s.linked && s.client.state == AWAITING_REPLY && s.client.transformer == Some(OneBind())
    requires s.client.callback == Future(0) && s.client.queue == [Pending([Bind(a)], 0), Pending([Bind(b)], 1)]
    requires s.wire != [] && s.wire[0].request.BindQueue?
    ensures Step(s, BrokerReply(""))
         == s.(client := s.client.(topology := MergeInto(s.client.topology, [Bind(a)]),
                                   callback := Future(1), queue := [Pending([Bind(b)], 1)]),
               wire := s.wire[1..] + [Sent(BindQueue(b), 2, true)],
               confirmed := s.confirmed + Confirms(s), resolved := s.resolved + [0])
  {
    assert s.client.queue[1..] == [Pending([Bind(b)], 1)];
    OneBindRequests(s.wire[0].request.binding, 1);
    LastReply(s, "");
    SecondSent(HeadLeaves(s), b);
  }

  /** A reply to the first update completes the only one left. */
  lemma LastTakenForConfirmed(s: System, b: Binding)
    requires s.linked && s.client.state == AWAITING_REPLY && s.client.transformer == Some(OneBind())
    requires s.client.callback == Future(1) && s.client.queue == [Pending([Bind(b)], 1)]
    requires s.wire != [] && s.wire[0].request.BindQueue? && s.wire[0].owner == 1
    ensures var s2 := Step(s, BrokerReply(""));
      s2.resolved == s.resolved + [1] && s2.confirmed == s.confirmed && s2.wire == s.wire[1..]
      && s2.client.topology == MergeInto(s.client.topology, [Bind(b)]) && s2.client.queue == []
      && s2.submitted == s.submitted
  {
    assert s.client.queue[1..] == [];
    OneBindRequests(s.wire[0].request.binding, 1);
    LastReply(s, "");
    assert Confirms(s) == [] && s.confirmed + [] == s.confirmed;
  }

  /** Both updates have left the queue and are merged, and the broker has yet to answer
      the second. */
  ghost predicate Misconfirmed(s: System, b: Binding) {
    s.resolved == [0, 1] && |s.submitted| == 2 && s.submitted[1] == [Bind(b)] && s.client.queue == []
    && 1 !in s.confirmed && b in s.client.topology.queueBindings && s.wire == [Sent(BindQueue(b), 2, true)]
  }

  lemma MisledMisconfirms(t: Topology, a: Binding, b: Binding, other: Sent)
    requires other.request.BindQueue?
    ensures Misconfirmed(Replies(Step(Misled(t, a, other), SubmitUpdate([Bind(b)])), 2), b)
  {
    var s := Step(Misled(t, a, other), SubmitUpdate([Bind(b)]));
    SecondQueued(t, a, b, other);
    HeadTakenForConfirmed(s, a, b);
    var s1 := Step(s, BrokerReply(""));
    assert s1.wire == [Sent(BindQueue(a), 1, true), Sent(BindQueue(b), 2, true)];
    assert 1 !in s1.confirmed;
    LastTakenForConfirmed(s1, b);
    TwoReplies(s);
    BoundIsThere(s1.client.topology.queueBindings, b);
  }

  lemma TwoReplies(s: System)
    ensures Replies(s, 2) == Step(Step(s, BrokerReply("")), BrokerReply(""))
  {
    assert Replies(s, 1) == Step(Replies(s, 0), BrokerReply(""));
  }

  lemma BoundIsThere(bs: seq<Binding>, b: Binding)
    ensures b in Merge(bs, [Bind(b)])
  {
    MergeMembers(bs, [Bind(b)], b);
    assert [Bind(b)][0] == Bind(b) && BoundLast([Bind(b)], b);
  }

  function MisconfirmingRun(t: Topology, a: Binding, b: Binding): seq<Event> {
    EarlyRun(a) + Answers(|t.queueBindings|) + [SubmitUpdate([Bind(b)])] + Answers(2)
  }

  /** For every topology of nothing but queue bindings, however many, and any two
      updates of one binding, the first written between open and open-ok: the second
      is resolved and merged while the broker has not answered it. */
  lemma EarlyUpdateMisconfirms(t: Topology, a: Binding, b: Binding)
    requires !Anchored(t)
    ensures Misconfirmed(Run(t, MisconfirmingRun(t, a, b)), b)
  {
    var m := |t.queueBindings|;
    var other := DeclaredTooSoon(t, a);
    RunReplies(t, EarlyRun(a), m);
    var es := EarlyRun(a) + Answers(m);
    RunSnoc(t, es, SubmitUpdate([Bind(b)]));
    RunReplies(t, es + [SubmitUpdate([Bind(b)])], 2);
    MisledMisconfirms(t, a, b, other);
  }

  /** Everything promised of a state. */
  ghost predicate Faithful(t: Topology, s: System) {
    Redeclares(t, s) && forall k: nat :: Settled(s, k)
  }

  /** The topology and the updates are as promised in every run if and only if the
      topology declares something besides queue bindings. */
  lemma FaithfulExactly(t: Topology)
    ensures (forall es :: Faithful(t, Run(t, es))) <==> Anchored(t)
  {
    if Anchored(t) {
      forall es
        ensures Faithful(t, Run(t, es))
      {
        RedeclaredTopology(t, es);
        forall k: nat
          ensures Settled(Run(t, es), k)
        {
          UpdatesConfirmedOrQueued(t, es, k);
        }
      }
    } else {
      var b := Binding("", "", "");
      EarlyUpdateMisconfirms(t, b, b);
      var es := MisconfirmingRun(t, b, b);
      assert !Settled(Run(t, es), 1);
      assert !Faithful(t, Run(t, es));
    }
  }
}
