/**
 The broker's own queues, exchanges and bindings, changed by the requests it answers:
 what a channel has declared and updated is there.
 */
module TopologyBroker {
  import opened Wrappers
  import opened TopologyMerger
  import opened Topology
  import TR = TopologyReplay

  datatype World = World(
    queues: set<string>,
    exchanges: set<string>,
    bindings: set<Binding>,
    exchangeBindings: set<Binding>)

  /** What answering a request does; the broker chooses the name of a queue declared
      without one, and a queue takes its bindings with it. */
  function Perform(w: World, r: Request, chosen: string): World {
    match r
    case DeclareQueue(name) => w.(queues := w.queues + {if name == "" then chosen else name})
    case DeclareExchange(name) => w.(exchanges := w.exchanges + {name})
    case BindQueue(b) => w.(bindings := w.bindings + {b})
    case UnbindQueue(b) => w.(bindings := w.bindings - {b})
    case DeleteQueue(q) => w.(queues := w.queues - {q}, bindings := set b | b in w.bindings && b.queue != q)
    case BindExchange(b) => w.(exchangeBindings := w.exchangeBindings + {b})
  }

  /** What the broker has, what it had when the channel was opened, the channel's
      topology then, and the changes of the updates confirmed since. */
  datatype Link = Link(world: World, origin: World, initial: Topology, since: seq<Change>)

  datatype Observed = Observed(system: TR.System, link: Link)

  /** While no channel is open, anything may happen at the broker. */
  datatype Event = OnChannel(event: TR.Event) | Elsewhere(world: World)

  function Confirmed(s: TR.System): Update
    requires s.wire != []
  {
    var ids := TR.Confirms(s);
    if ids != [] && ids[0] < |s.submitted| then s.submitted[ids[0]] else []
  }

  function LinkStep(s: TR.System, l: Link, e: TR.Event): Link {
    if !TR.Enabled(s, e) then l
    else match e
      case Open => Link(l.world, l.world, s.client.topology, [])
      case BrokerReply(chosen) =>
        l.(world := Perform(l.world, s.wire[0].request, chosen), since := l.since + Confirmed(s))
      case _ => l
  }

  function Step(o: Observed, e: Event): Observed {
    match e
    case OnChannel(ce) => Observed(TR.Step(o.system, ce), LinkStep(o.system, o.link, ce))
    case Elsewhere(w) => if o.system.linked then o else o.(link := o.link.(world := w))
  }

  const NOTHING := World({}, {}, {}, {})

  function Run(t: Topology, es: seq<Event>): Observed {
    if es == [] then Observed(TR.Initial(t), Link(NOTHING, NOTHING, t, []))
    else Step(Run(t, es[..|es| - 1]), es[|es| - 1])
  }

  function ChannelEvents(es: seq<Event>): seq<TR.Event> {
    if es == [] then []
    else
      var past, e := ChannelEvents(es[..|es| - 1]), es[|es| - 1];
      if e.OnChannel? then past + [e.event] else past
  }

  lemma {:induction false} SystemRuns(t: Topology, es: seq<Event>)
    ensures Run(t, es).system == TR.Run(t, ChannelEvents(es))
  {
    if es != [] {
      SystemRuns(t, es[..|es| - 1]);
      if es[|es| - 1].OnChannel? {
        TR.RunSnoc(t, ChannelEvents(es[..|es| - 1]), es[|es| - 1].event);
      }
    }
  }

  // ---- What the broker has of a topology ----

  /** The broker has every queue, exchange and binding of the topology, but for queues
      deleted by the changes and their bindings; it has no deleted queue; and other
      bindings only if it had them before and none of the changes unbound them. */
  ghost predicate Reflects(t: Topology, changes: seq<Change>, origin: World, w: World) {
    && (forall q | q in t.queues && q != "" && Delete(q) !in changes :: q in w.queues)
    && (forall e | e in t.exchanges && !e.isDefault :: e.name in w.exchanges)
    && (forall b | b in t.queueBindings && Delete(b.queue) !in changes :: b in w.bindings)
    && (forall b | b in t.exchangeBindings :: b in w.exchangeBindings)
    && (forall q | Delete(q) in changes :: q !in w.queues)
    && (forall b | b in w.bindings && b !in t.queueBindings :: b in origin.bindings && Unbind(b) !in changes)
  }

  lemma ChangeReflected(t: Topology, changes: seq<Change>, origin: World, w: World, c: Change, chosen: string)
    requires Reflects(t, changes, origin, w)
    ensures Reflects(t.(queueBindings := MergeChange(t.queueBindings, c)), changes + [c], origin,
                     Perform(w, ChangeRequest(c), chosen))
  {
    match c
    case Bind(_) =>
    case Unbind(b) =>
      forall x ensures x in Without(t.queueBindings, b) <==> x in t.queueBindings && x != b {
        WithoutMember(t.queueBindings, b, x);
      }
    case Delete(_) =>
  }

  // ---- The declaration, request by request ----

  predicate Has(w: World, r: Request) {
    match r
    case DeclareQueue(name) => name == "" || name in w.queues
    case DeclareExchange(name) => name in w.exchanges
    case BindQueue(b) => b in w.bindings
    case BindExchange(b) => b in w.exchangeBindings
    case UnbindQueue(b) => b !in w.bindings
    case DeleteQueue(q) => q !in w.queues
  }

  /** Some requests of a declaration have been answered. */
  ghost predicate Declared(t: Topology, answered: seq<Request>, l: Link) {
    && l.since == []
    && (forall r | r in answered :: Has(l.world, r))
    && (forall b | b in l.world.bindings :: b in t.queueBindings || b in l.origin.bindings)
  }

  lemma RequestDeclared(t: Topology, answered: seq<Request>, l: Link, r: Request, chosen: string)
    requires Declared(t, answered, l) && (forall x | x in answered :: Asks(t, x)) && Asks(t, r)
    ensures Declared(t, answered + [r], l.(world := Perform(l.world, r, chosen)))
  {
  }

  lemma AllDeclared(t: Topology, l: Link)
    requires Declared(t, DeclareRequests(t), l)
    ensures Reflects(t, [], l.origin, l.world)
  {
    var rs := DeclareRequests(t);
    forall r ensures r in rs <==> Asks(t, r) {
      DeclareRequestsExactly(t, r);
    }
    forall q | q in t.queues && q != "" ensures q in l.world.queues {
      assert Has(l.world, DeclareQueue(q));
    }
    forall e | e in t.exchanges && !e.isDefault ensures e.name in l.world.exchanges {
      assert e == Exchange(e.name, false);
      assert Has(l.world, DeclareExchange(e.name));
    }
    forall b | b in t.queueBindings ensures b in l.world.bindings {
      assert Has(l.world, BindQueue(b));
    }
    forall b | b in t.exchangeBindings ensures b in l.world.exchangeBindings {
      assert Has(l.world, BindExchange(b));
    }
  }

  // ---- The invariant ----

  /** The last `left` of the requests are unanswered. */
  function AnsweredOf(rs: seq<Request>, left: nat): seq<Request>
    requires left <= |rs|
  {
    rs[..|rs| - left]
  }

  ghost predicate Unanswered(rs: seq<Request>, wire: seq<TR.Sent>) {
    |wire| <= |rs| && TR.RequestsOf(wire) == rs[|rs| - |wire|..]
  }

  ghost predicate Declaring(c: Client, wire: seq<TR.Sent>, l: Link) {
    var rs := DeclareRequests(c.topology);
    Unanswered(rs, wire) && Declared(c.topology, AnsweredOf(rs, |wire|), l)
  }

  /** The broker has the topology with the answered part of the update at the head. */
  ghost predicate Updating(t: Topology, u: Update, wire: seq<TR.Sent>, l: Link) {
    && Unanswered(UpdateRequests(u), wire)
    && var done := u[..|u| - |wire|];
       Reflects(MergeInto(t, done), l.since + done, l.origin, l.world)
  }

  ghost predicate Settled(c: Client, wire: seq<TR.Sent>, l: Link) {
    if c.transformer.None? || c.queue == [] then Reflects(c.topology, l.since, l.origin, l.world)
    else Updating(c.topology, c.queue[0].update, wire, l)
  }

  ghost predicate BrokerInv(s: TR.System, l: Link) {
    match s.client.state
    case CLOSED => true
    case CHANNEL_CLOSE_SENT => true
    case CHANNEL_OPEN_SENT => l.world == l.origin && l.since == []
    case DECLARING_TOPOLOGY => TR.Stuck(s) || Declaring(s.client, s.wire, l)
    case _ => Settled(s.client, s.wire, l)
  }

  /** Going on with the next update, if there is one. */
  lemma SendNextSettles(s: TR.System, l: Link)
    requires s.linked && s.wire == []
    requires Reflects(s.client.topology, l.since, l.origin, l.world)
    ensures var s2 := TR.Apply(s, SendNext(s.client));
      Settled(s2.client, s2.wire, l)
  {
    var n := EmptyHead(s.client.queue);
    var rest := s.client.queue[n..];
    if rest != [] {
      var u := rest[0].update;
      var rs := UpdateRequests(u);
      TR.TaggedMatches(rs, rest[0].id + 1);
      assert [] + TR.Tagged(rs, rest[0].id + 1) == TR.Tagged(rs, rest[0].id + 1);
      assert rs[0..] == rs && u[..0] == [] && l.since + [] == l.since;
    }
  }

  lemma SubmitSettles(t: Topology, s: TR.System, l: Link, u: Update)
    requires TR.Inv(t, s) && BrokerInv(s, l)
    ensures BrokerInv(TR.Step(s, TR.SubmitUpdate(u)), l)
  {
    var c := s.client.(queue := s.client.queue + [Pending(u, |s.submitted|)]);
    var s1 := s.(client := c, submitted := s.submitted + [u]);
    if s.client.transformer.None? {
      assert TR.Step(s, TR.SubmitUpdate(u)) == TR.Apply(s1, SendNext(c));
      if s.client.state == READY || s.client.state == AWAITING_REPLY {
        SendNextSettles(s1, l);
      }
    } else {
      TR.ApplyIdle(s1, c);
      assert TR.Step(s, TR.SubmitUpdate(u)) == s1;
    }
  }

  /** Nothing of a topology without requests can be missing. */
  lemma NothingToDeclare(t: Topology, w: World)
    requires DeclareRequests(t) == []
    ensures Reflects(t, [], w, w)
  {
    AllDeclared(t, Link(w, w, t, []));
  }

  lemma NothingDeclaredSettles(s: TR.System, l: Link)
    requires BrokerInv(s, l) && s.linked && s.client.state == CHANNEL_OPEN_SENT && s.wire == []
    requires DeclareRequests(s.client.topology) == []
    ensures BrokerInv(TR.Step(s, TR.OpenOk), l)
  {
    var s1 := s.(client := s.client.(state := AWAITING_REPLY));
    NothingToDeclare(s.client.topology, l.world);
    SendNextSettles(s1, l);
    assert TR.Step(s, TR.OpenOk) == TR.Apply(s1, SendNext(s1.client));
  }

  lemma DeclarationBegins(s: TR.System, l: Link)
    requires BrokerInv(s, l) && s.linked && s.client.state == CHANNEL_OPEN_SENT && s.wire == []
    requires DeclareRequests(s.client.topology) != []
    ensures BrokerInv(TR.Step(s, TR.OpenOk), l)
  {
    var rs := DeclareRequests(s.client.topology);
    TR.OpenOkDeclares(s);
    TR.TaggedMatches(rs, 0);
    assert [] + TR.Tagged(rs, 0) == TR.Tagged(rs, 0) && rs[0..] == rs;
  }

  lemma OpenOkSettles(t: Topology, s: TR.System, l: Link)
    requires TR.Inv(t, s) && BrokerInv(s, l)
    requires s.client.state == CHANNEL_OPEN_SENT && (s.wire == [] || TR.Anchored(t))
    ensures BrokerInv(TR.Step(s, TR.OpenOk), l)
  {
    if s.wire != [] {
      TR.OvertakenStuck(s.wire, s.client.topology);
      TR.OpenOkDeclares(s);
      TR.DeclaringStuck(s);
    } else if DeclareRequests(s.client.topology) == [] {
      NothingDeclaredSettles(s, l);
    } else {
      DeclarationBegins(s, l);
    }
  }

  lemma UnansweredStep(rs: seq<Request>, wire: seq<TR.Sent>)
    requires Unanswered(rs, wire) && wire != []
    ensures Unanswered(rs, wire[1..]) && wire[0].request == rs[|rs| - |wire|]
  {
    assert TR.RequestsOf(wire)[0] == wire[0].request;
    assert TR.RequestsOf(wire[1..]) == TR.RequestsOf(wire)[1..];
  }

  /** One more request of the declaration is answered. */
  lemma DeclaringStep(c: Client, c': Client, wire: seq<TR.Sent>, l: Link, chosen: string)
    requires Declaring(c, wire, l) && wire != [] && c'.topology == c.topology
    ensures Declaring(c', wire[1..], l.(world := Perform(l.world, wire[0].request, chosen)))
  {
    var t, rs := c.topology, DeclareRequests(c.topology);
    var k := |rs| - |wire|;
    UnansweredStep(rs, wire);
    assert rs[..k + 1] == rs[..k] + [rs[k]];
    forall r | r in rs[..k + 1] ensures Asks(t, r) {
      DeclareRequestsExactly(t, r);
    }
    assert rs[k] in rs[..k + 1];
    RequestDeclared(t, rs[..k], l, rs[k], chosen);
  }

  lemma NextChangeReflected(t: Topology, u: Update, k: nat, l: Link, chosen: string)
    requires k < |u| && Reflects(MergeInto(t, u[..k]), l.since + u[..k], l.origin, l.world)
    ensures Reflects(MergeInto(t, u[..k + 1]), l.since + u[..k + 1], l.origin,
                     Perform(l.world, ChangeRequest(u[k]), chosen))
  {
    assert u[..k + 1][..k] == u[..k] && u[..k + 1] == u[..k] + [u[k]];
    ChangeReflected(MergeInto(t, u[..k]), l.since + u[..k], l.origin, l.world, u[k], chosen);
    assert l.since + u[..k] + [u[k]] == l.since + u[..k + 1];
  }

  /** One more change of the update is answered. */
  lemma UpdatingStep(t: Topology, u: Update, wire: seq<TR.Sent>, l: Link, chosen: string)
    requires Updating(t, u, wire, l) && wire != []
    ensures Updating(t, u, wire[1..], l.(world := Perform(l.world, wire[0].request, chosen)))
  {
    UnansweredStep(UpdateRequests(u), wire);
    NextChangeReflected(t, u, |u| - |wire|, l, chosen);
  }

  lemma UpdatingDone(t: Topology, u: Update, l: Link)
    requires Updating(t, u, [], l)
    ensures Reflects(MergeInto(t, u), l.since + u, l.origin, l.world)
  {
    assert u[..|u|] == u;
  }

  lemma StuckStuck(s: TR.System, chosen: string)
    requires s.linked && s.client.state == DECLARING_TOPOLOGY && s.client.callback == TopologyDeclared
    requires TR.Stuck(s) && s.wire != []
    ensures var s2 := TR.Step(s, TR.BrokerReply(chosen));
      s2.client.state == CHANNEL_CLOSE_SENT || (s2.client.state == DECLARING_TOPOLOGY && TR.Stuck(s2))
  {
    var tr, r := s.client.transformer.value, s.wire[0].request;
    var (next, ok) := ProcessReply(tr, Answer(r, chosen));
    if ok {
      TR.AcceptedKind(tr, r, chosen);
      TR.StuckStays(tr.expected, TR.RequestsOf(s.wire));
      assert TR.RequestsOf(s.wire)[1..] == TR.RequestsOf(s.wire[1..]);
      TR.ApplyIdle(s.(wire := s.wire[1..], confirmed := s.confirmed + TR.Confirms(s)),
                   s.client.(transformer := Some(next)));
    }
  }

  lemma MatchingNotStuck(s: TR.System)
    requires TR.Matching(s)
    ensures !TR.Stuck(s)
  {
  }

  /** A reply that confirms nothing. */
  lemma ReplyOnly(s: TR.System, l: Link, chosen: string)
    requires TR.Enabled(s, TR.BrokerReply(chosen)) && TR.Confirms(s) == []
    ensures LinkStep(s, l, TR.BrokerReply(chosen)) == l.(world := Perform(l.world, s.wire[0].request, chosen))
  {
    assert l.since + [] == l.since;
  }

  lemma PartialReplySettles(t: Topology, s: TR.System, l: Link, chosen: string)
    requires TR.Inv(t, s) && BrokerInv(s, l) && Accepting(s.client.state) && TR.Matching(s) && |s.wire| > 1
    ensures BrokerInv(TR.Step(s, TR.BrokerReply(chosen)), LinkStep(s, l, TR.BrokerReply(chosen)))
  {
    var s2 := TR.Step(s, TR.BrokerReply(chosen));
    TR.PartialReplyStep(s, chosen);
    ReplyOnly(s, l, chosen);
    MatchingNotStuck(s);
    if s.client.state == DECLARING_TOPOLOGY {
      DeclaringStep(s.client, s2.client, s.wire, l, chosen);
    } else {
      UpdatingStep(s.client.topology, s.client.queue[0].update, s.wire, l, chosen);
    }
  }

  lemma DeclarationSettles(t: Topology, s: TR.System, l: Link, chosen: string)
    requires TR.Inv(t, s) && BrokerInv(s, l) && s.client.state == DECLARING_TOPOLOGY
    requires TR.Matching(s) && |s.wire| == 1
    ensures BrokerInv(TR.Step(s, TR.BrokerReply(chosen)), LinkStep(s, l, TR.BrokerReply(chosen)))
  {
    var s1 := s.(client := s.client.(transformer := None, state := AWAITING_REPLY), wire := []);
    var l2 := LinkStep(s, l, TR.BrokerReply(chosen));
    TR.LastDeclarationReply(s, chosen, s1);
    ReplyOnly(s, l, chosen);
    MatchingNotStuck(s);
    assert s.wire[1..] == [];
    DeclaringStep(s.client, s1.client, s.wire, l, chosen);
    assert AnsweredOf(DeclareRequests(s1.client.topology), 0) == DeclareRequests(s1.client.topology);
    AllDeclared(s1.client.topology, l2);
    SendNextSettles(s1, l2);
  }

  /** The last reply to an update confirms that update. */
  lemma HeadConfirmed(t: Topology, s: TR.System)
    requires TR.Inv(t, s) && (s.client.state == READY || s.client.state == AWAITING_REPLY) && |s.wire| == 1
    ensures s.client.queue != [] && Confirmed(s) == s.client.queue[0].update
    ensures s.client.callback == Future(s.client.queue[0].id) && s.linked
    ensures s.client.transformer == Some(Awaiting([s.wire[0].request]))
  {
    assert TR.RequestsOf(s.wire) == [s.wire[0].request];
    assert s.client.queue[0] == Pending(s.submitted[TR.Gone(s)], TR.Gone(s));
  }

  lemma UpdateReflected(t: Topology, u: Update, wire: seq<TR.Sent>, l: Link, chosen: string)
    requires Updating(t, u, wire, l) && |wire| == 1
    ensures Reflects(MergeInto(t, u), l.since + u, l.origin, Perform(l.world, wire[0].request, chosen))
  {
    UpdatingStep(t, u, wire, l, chosen);
    assert wire[1..] == [];
    UpdatingDone(t, u, l.(world := Perform(l.world, wire[0].request, chosen)));
  }

  lemma HeadLeavesSettles(s: TR.System, l: Link, chosen: string)
    requires s.client.queue != [] && |s.wire| == 1 && s.linked
    requires Updating(s.client.topology, s.client.queue[0].update, s.wire, l)
    ensures var w := Perform(l.world, s.wire[0].request, chosen);
      var s1, l2 := TR.HeadLeaves(s), l.(world := w, since := l.since + s.client.queue[0].update);
      var s2 := TR.Apply(s1, SendNext(s1.client));
      Settled(s2.client, s2.wire, l2)
  {
    UpdateReflected(s.client.topology, s.client.queue[0].update, s.wire, l, chosen);
    SendNextSettles(TR.HeadLeaves(s), l.(world := Perform(l.world, s.wire[0].request, chosen),
                                         since := l.since + s.client.queue[0].update));
  }

  lemma LastReplySettles(s: TR.System, l: Link, chosen: string)
    requires s.client.queue != [] && s.client.callback == Future(s.client.queue[0].id) && s.linked
    requires |s.wire| == 1 && s.client.transformer == Some(Awaiting([s.wire[0].request]))
    requires s.client.state == READY || s.client.state == AWAITING_REPLY
    requires Confirmed(s) == s.client.queue[0].update
    requires Updating(s.client.topology, s.client.queue[0].update, s.wire, l)
    ensures BrokerInv(TR.Step(s, TR.BrokerReply(chosen)), LinkStep(s, l, TR.BrokerReply(chosen)))
  {
    HeadLeavesSettles(s, l, chosen);
    TR.LastReply(s, chosen);
    assert TR.Step(s, TR.BrokerReply(chosen)).client.state == s.client.state;
  }

  lemma UpdateSettles(t: Topology, s: TR.System, l: Link, chosen: string)
    requires TR.Inv(t, s) && BrokerInv(s, l)
    requires (s.client.state == READY || s.client.state == AWAITING_REPLY) && |s.wire| == 1
    ensures BrokerInv(TR.Step(s, TR.BrokerReply(chosen)), LinkStep(s, l, TR.BrokerReply(chosen)))
  {
    HeadConfirmed(t, s);
    LastReplySettles(s, l, chosen);
  }

  lemma ReplySettles(t: Topology, s: TR.System, l: Link, chosen: string)
    requires TR.Inv(t, s) && BrokerInv(s, l) && TR.Enabled(s, TR.BrokerReply(chosen))
    ensures BrokerInv(TR.Step(s, TR.BrokerReply(chosen)), LinkStep(s, l, TR.BrokerReply(chosen)))
  {
    if s.client.state == CHANNEL_CLOSE_SENT {
      TR.ApplyIdle(s.(wire := s.wire[1..], confirmed := s.confirmed + TR.Confirms(s)), s.client);
    } else if !TR.Matching(s) {
      StuckStuck(s, chosen);
    } else if |s.wire| > 1 {
      PartialReplySettles(t, s, l, chosen);
    } else if s.client.state == DECLARING_TOPOLOGY {
      DeclarationSettles(t, s, l, chosen);
    } else {
      UpdateSettles(t, s, l, chosen);
    }
  }

  lemma ChannelSettles(t: Topology, s: TR.System, l: Link, e: TR.Event)
    requires TR.Inv(t, s) && BrokerInv(s, l) && (TR.Anchored(t) || !TR.Overtaken(s, e))
    ensures BrokerInv(TR.Step(s, e), LinkStep(s, l, e))
  {
    if TR.Enabled(s, e) {
      match e
      case SubmitUpdate(u) => SubmitSettles(t, s, l, u);
      case OpenOk => OpenOkSettles(t, s, l);
      case BrokerReply(chosen) => ReplySettles(t, s, l, chosen);
      case _ =>
    }
  }

  lemma {:induction false} RunSettles(t: Topology, es: seq<Event>)
    requires TR.Anchored(t) || TR.Calm(t, ChannelEvents(es))
    ensures TR.Inv(t, Run(t, es).system) && BrokerInv(Run(t, es).system, Run(t, es).link)
  {
    SystemRuns(t, es);
    TR.RunInv(t, ChannelEvents(es));
    if es != [] {
      var n := |es| - 1;
      var o, e := Run(t, es[..n]), es[n];
      SystemRuns(t, es[..n]);
      if e.OnChannel? {
        assert ChannelEvents(es)[..|ChannelEvents(es)| - 1] == ChannelEvents(es[..n]);
        RunSettles(t, es[..n]);
        ChannelSettles(t, o.system, o.link, e.event);
      } else {
        RunSettles(t, es[..n]);
      }
    }
  }

  /** In every run, whatever happened at the broker while the channel was down: once the
      declaration and the updates written are answered, the broker has everything in the
      channel's topology but what updates confirmed since the channel was opened deleted,
      and nothing that they unbound or deleted. */
  lemma BrokerHasTopology(t: Topology, es: seq<Event>)
    requires TR.Anchored(t) || TR.Calm(t, ChannelEvents(es))
    ensures Answered(Run(t, es).system) ==>
      var c, l := Run(t, es).system.client, Run(t, es).link;
      Reflects(c.topology, l.since, l.origin, l.world)
  {
    RunSettles(t, es);
  }

  /** The declaration is complete and every update written has been answered. */
  predicate Answered(s: TR.System) {
    (s.client.state == READY || s.client.state == AWAITING_REPLY) && s.client.transformer.None?
  }

  // ---- Each confirmed update ----

  lemma {:induction false} MergeAppend(bs: seq<Binding>, u: Update, v: Update)
    ensures Merge(bs, u + v) == Merge(Merge(bs, u), v)
  {
    if v == [] {
      assert u + v == u;
    } else {
      var n := |v| - 1;
      MergeAppend(bs, u, v[..n]);
      assert (u + v)[..|u| + n] == u + v[..n];
    }
  }

  /** The channel's topology is the one it was opened with and what was confirmed since. */
  ghost predicate Merged(s: TR.System, l: Link) {
    s.linked ==> s.client.topology == MergeInto(l.initial, l.since)
  }

  lemma UpdateMerged(t: Topology, s: TR.System, l: Link, chosen: string)
    requires TR.Inv(t, s) && Merged(s, l)
    requires (s.client.state == READY || s.client.state == AWAITING_REPLY) && |s.wire| == 1
    ensures Merged(TR.Step(s, TR.BrokerReply(chosen)), LinkStep(s, l, TR.BrokerReply(chosen)))
  {
    HeadConfirmed(t, s);
    TR.LastReply(s, chosen);
    MergeAppend(l.initial.queueBindings, l.since, s.client.queue[0].update);
  }

  lemma StuckTopology(s: TR.System, chosen: string)
    requires s.linked && s.client.state == DECLARING_TOPOLOGY && s.client.callback == TopologyDeclared
    requires s.wire != []
    ensures TR.Step(s, TR.BrokerReply(chosen)).client.topology == s.client.topology && TR.Confirms(s) == []
  {
  }

  lemma ReplyMerged(t: Topology, s: TR.System, l: Link, chosen: string)
    requires TR.Inv(t, s) && Merged(s, l) && TR.Enabled(s, TR.BrokerReply(chosen))
    ensures Merged(TR.Step(s, TR.BrokerReply(chosen)), LinkStep(s, l, TR.BrokerReply(chosen)))
  {
    if s.client.state == CHANNEL_CLOSE_SENT {
      TR.ApplyIdle(s.(wire := s.wire[1..], confirmed := s.confirmed + TR.Confirms(s)), s.client);
    } else if s.client.state == DECLARING_TOPOLOGY {
      StuckTopology(s, chosen);
      ReplyOnly(s, l, chosen);
    } else if |s.wire| > 1 {
      TR.PartialReplyStep(s, chosen);
      ReplyOnly(s, l, chosen);
    } else {
      UpdateMerged(t, s, l, chosen);
    }
  }

  lemma ChannelMerged(t: Topology, s: TR.System, l: Link, e: TR.Event)
    requires TR.Inv(t, s) && Merged(s, l)
    ensures Merged(TR.Step(s, e), LinkStep(s, l, e))
  {
    if TR.Enabled(s, e) && e.BrokerReply? {
      ReplyMerged(t, s, l, e.chosen);
    }
  }

  lemma {:induction false} RunMerged(t: Topology, es: seq<Event>)
    requires TR.Anchored(t) || TR.Calm(t, ChannelEvents(es))
    ensures Merged(Run(t, es).system, Run(t, es).link)
  {
    if es != [] {
      var n := |es| - 1;
      if es[n].OnChannel? {
        assert ChannelEvents(es)[..|ChannelEvents(es)| - 1] == ChannelEvents(es[..n]);
        RunMerged(t, es[..n]);
        RunSettles(t, es[..n]);
        ChannelMerged(t, Run(t, es[..n]).system, Run(t, es[..n]).link, es[n].event);
      } else {
        RunMerged(t, es[..n]);
      }
    }
  }

  /** In every run, once everything written is answered: a binding that the updates
      confirmed since the channel was opened bound last, on a queue they did not delete,
      is at the broker; one that they unbound last is not; and a queue that they deleted
      is not. */
  lemma ConfirmedUpdatesReflected(t: Topology, es: seq<Event>, b: Binding)
    requires TR.Anchored(t) || TR.Calm(t, ChannelEvents(es))
    requires Answered(Run(t, es).system)
    ensures var l := Run(t, es).link;
      && (BoundLast(l.since, b) && Delete(b.queue) !in l.since ==> b in l.world.bindings)
      && (Unbind(b) in l.since && !BoundLast(l.since, b) ==> b !in l.world.bindings)
      && (Delete(b.queue) in l.since ==> b.queue !in l.world.queues)
  {
    BrokerHasTopology(t, es);
    RunMerged(t, es);
    RunSettles(t, es);
    MergeMembers(Run(t, es).link.initial.queueBindings, Run(t, es).link.since, b);
  }
}
