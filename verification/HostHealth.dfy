/**
 Host health: the monitor pauses and resumes the health-aware receive channels of
 every registered connection, and the channel factory decides how channels
 created in between start.
 */
module HostHealth {
  import opened Wrappers
  import opened RC = ReceiveChannel

  datatype Health = HEALTHY | UNHEALTHY | RETRY

  datatype OnOpenState = NOT_PAUSED | PAUSED_HOST_HEALTH_AWARE | PAUSED_ALL

  /** A receive channel in a connection's channel map. `leaving` records that the
      channel was ever asked to cancel or to close for good. */
  datatype Member = Member(healthAware: bool, channel: Channel, leaving: bool)

  datatype Connection = Connection(onOpenState: OnOpenState, channels: map<nat, Member>)

  // ---- Pausing and resuming one connection ----

  function PauseMember(m: Member, respectHostHealth: bool): Member {
    if respectHostHealth && !m.healthAware then m else m.(channel := PauseEffect(m.channel).0)
  }

  function ResumeMember(m: Member, respectHostHealth: bool): Member {
    if respectHostHealth && !m.healthAware then m else m.(channel := ResumeEffect(m.channel).0)
  }

  function PauseConnection(conn: Connection, respectHostHealth: bool): Connection {
    Connection(if respectHostHealth then PAUSED_HOST_HEALTH_AWARE else PAUSED_ALL,
               map id | id in conn.channels :: PauseMember(conn.channels[id], respectHostHealth))
  }

  function ResumeConnection(conn: Connection, respectHostHealth: bool): Connection {
    Connection(NOT_PAUSED, map id | id in conn.channels :: ResumeMember(conn.channels[id], respectHostHealth))
  }

  /** The channel map's loop over its receive channels. */
  method PauseReceiveChannels(conn: Connection, respectHostHealth: bool) returns (r: Connection)
    ensures r == PauseConnection(conn, respectHostHealth)
  {
    var channels := conn.channels;
    var todo := conn.channels.Keys;
    while todo != {}
      invariant channels.Keys == conn.channels.Keys && todo <= channels.Keys
      invariant forall id | id in channels ::
        channels[id] == if id in todo then conn.channels[id] else PauseMember(conn.channels[id], respectHostHealth)
      decreases todo
    {
      var id :| id in todo;
      var m := channels[id];
      if respectHostHealth && !m.healthAware {
      } else {
        channels := channels[id := m.(channel := PauseEffect(m.channel).0)];
      }
      todo := todo - {id};
    }
    r := Connection(if respectHostHealth then PAUSED_HOST_HEALTH_AWARE else PAUSED_ALL, channels);
    assert r.channels == PauseConnection(conn, respectHostHealth).channels;
  }

  function Sync(conn: Connection, health: Health): Connection {
    match health
    case HEALTHY => ResumeConnection(conn, true)
    case UNHEALTHY => PauseConnection(conn, true)
    case RETRY => conn
  }

  function CreateChannel(conn: Connection, id: nat, healthAware: bool): Connection {
    var pausedOnOpen := conn.onOpenState == PAUSED_ALL || (healthAware && conn.onOpenState == PAUSED_HOST_HEALTH_AWARE);
    conn.(channels := conn.channels[id := Member(healthAware, RC.Init(pausedOnOpen), false)])
  }

  // ---- The monitor ----

  datatype Monitor = Monitor(latest: Health, currentTries: nat, registered: seq<nat>)

  /** What a check makes of the checker's answer: None while it is retried. */
  function CheckOutcome(tries: nat, maxRetries: nat, result: Health): Option<Health> {
    if result != RETRY then Some(result)
    else if tries > maxRetries then Some(UNHEALTHY)
    else None
  }

  datatype Host = Host(monitor: Monitor, connections: map<nat, Connection>)

  datatype Event =
    | NewConnection(id: nat)
    | RegisterConnection(id: nat)
    | ConnectionDies(id: nat)
    | NewChannel(conn: nat, id: nat, healthAware: bool)
    | ChannelDoes(conn: nat, id: nat, event: RC.Event)
    | CheckHealth(result: Health)

  function Init(): Host {
    Host(Monitor(UNHEALTHY, 0, []), map[])
  }

  /** Ids are never reused, and only the monitor pauses and resumes. */
  predicate Enabled(s: Host, e: Event) {
    match e
    case NewConnection(id) => id !in s.connections && id !in s.monitor.registered
    case RegisterConnection(id) => id in s.connections && id !in s.monitor.registered
    case ConnectionDies(id) => id in s.connections
    case NewChannel(conn, id, _) => conn in s.connections && id !in s.connections[conn].channels
    case ChannelDoes(conn, id, ev) =>
      && conn in s.connections && id in s.connections[conn].channels
      && !ev.CallPause? && !ev.CallResume?
    case CheckHealth(_) => true
  }

  function ChannelStep(m: Member, ev: RC.Event): Member {
    m.(channel := RC.Step(m.channel, ev).0, leaving := m.leaving || ev.CallCancel? || ev.GracefulClose?)
  }

  /** Every registered connection still alive is synchronised; the others are
      forgotten. */
  function ProcessHealthResult(s: Host, health: Health): Host {
    Host(Monitor(health, 0, Alive(s.monitor.registered, s.connections.Keys)),
           map id | id in s.connections ::
             if id in s.monitor.registered then Sync(s.connections[id], health) else s.connections[id])
  }

  function Alive(ids: seq<nat>, alive: set<nat>): seq<nat> {
    if ids == [] then []
    else (if ids[0] in alive then [ids[0]] else []) + Alive(ids[1..], alive)
  }

  function Step(maxRetries: nat, s: Host, e: Event): Host {
    if !Enabled(s, e) then s
    else match e
      case NewConnection(id) => s.(connections := s.connections[id := Connection(PAUSED_HOST_HEALTH_AWARE, map[])])
      case RegisterConnection(id) =>
        Host(s.monitor.(registered := s.monitor.registered + [id]),
               s.connections[id := Sync(s.connections[id], s.monitor.latest)])
      case ConnectionDies(id) => s.(connections := s.connections - {id})
      case NewChannel(conn, id, healthAware) =>
        s.(connections := s.connections[conn := CreateChannel(s.connections[conn], id, healthAware)])
      case ChannelDoes(conn, id, ev) =>
        var c := s.connections[conn];
        s.(connections := s.connections[conn := c.(channels := c.channels[id := ChannelStep(c.channels[id], ev)])])
      case CheckHealth(result) =>
        match CheckOutcome(s.monitor.currentTries, maxRetries, result)
        case None => s.(monitor := s.monitor.(currentTries := s.monitor.currentTries + 1))
        case Some(health) => ProcessHealthResult(s, health)
  }

  function Run(maxRetries: nat, es: seq<Event>): Host {
    if es == [] then Init() else Step(maxRetries, Run(maxRetries, es[..|es| - 1]), es[|es| - 1])
  }

  // ---- The invariant ----

  ghost predicate MemberOk(m: Member) {
    && Consistent(m.channel)
    && (!m.leaving ==> !m.channel.permanentlyClosing && !m.channel.CancelInFlight())
  }

  /** The pause flag agrees with the host's health. */
  ghost predicate Follows(m: Member, health: Health) {
    m.healthAware && !m.leaving ==> m.channel.pausedOnOpen == (health != HEALTHY)
  }

  ghost predicate InStep(conn: Connection, health: Health) {
    && conn.onOpenState == (if health == HEALTHY then NOT_PAUSED else PAUSED_HOST_HEALTH_AWARE)
    && forall id | id in conn.channels :: Follows(conn.channels[id], health)
  }

  ghost predicate Inv(s: Host) {
    && s.monitor.latest != RETRY
    && (forall c | c in s.connections :: s.connections[c].onOpenState != PAUSED_ALL)
    && (forall c, id | c in s.connections && id in s.connections[c].channels :: MemberOk(s.connections[c].channels[id]))
    && (forall c | c in s.connections && c in s.monitor.registered :: InStep(s.connections[c], s.monitor.latest))
  }

  lemma SyncMember(m: Member)
    requires MemberOk(m)
    ensures MemberOk(PauseMember(m, true)) && Follows(PauseMember(m, true), UNHEALTHY)
    ensures MemberOk(ResumeMember(m, true)) && Follows(ResumeMember(m, true), HEALTHY)
  {
    CallConsistent(m.channel, CallPause);
    CallConsistent(m.channel, CallResume);
  }

  lemma SyncBringsInStep(conn: Connection, health: Health)
    requires health != RETRY
    requires forall id | id in conn.channels :: MemberOk(conn.channels[id])
    ensures InStep(Sync(conn, health), health)
    ensures forall id | id in Sync(conn, health).channels :: MemberOk(Sync(conn, health).channels[id])
  {
    forall id | id in conn.channels
      ensures MemberOk(Sync(conn, health).channels[id]) && Follows(Sync(conn, health).channels[id], health)
    {
      SyncMember(conn.channels[id]);
    }
  }

  /** Nothing but pause and resume changes the flag of a channel which is not
      leaving. */
  lemma ChannelStepKeeps(m: Member, ev: RC.Event, health: Health)
    requires MemberOk(m) && !ev.CallPause? && !ev.CallResume?
    ensures MemberOk(ChannelStep(m, ev))
    ensures Follows(m, health) ==> Follows(ChannelStep(m, ev), health)
  {
    StepConsistent(m.channel, ev);
    FlagUnchanged(m.channel, ev);
  }

  lemma FlagUnchanged(c: Channel, ev: RC.Event)
    requires Consistent(c) && !ev.CallPause? && !ev.CallResume?
    ensures RC.Step(c, ev).0.pausedOnOpen == c.pausedOnOpen
    ensures !ev.CallCancel? && !ev.GracefulClose? && !c.CancelInFlight() && !c.permanentlyClosing ==>
      !RC.Step(c, ev).0.CancelInFlight() && !RC.Step(c, ev).0.permanentlyClosing
  {
    if ev.Receive? {
      ReplyKeepsFlag(c, ev.reply);
    }
  }

  lemma ReplyKeepsFlag(c: Channel, r: Reply)
    requires Consistent(c)
    ensures ReplyEffect(c, r).0.pausedOnOpen == c.pausedOnOpen
    ensures ReplyEffect(c, r).0.permanentlyClosing == c.permanentlyClosing
    ensures !c.CancelInFlight() ==> !ReplyEffect(c, r).0.CancelInFlight()
  {
  }

  lemma {:induction false} AliveContains(ids: seq<nat>, alive: set<nat>, x: nat)
    ensures x in Alive(ids, alive) <==> x in ids && x in alive
  {
    if ids != [] {
      AliveContains(ids[1..], alive, x);
    }
  }

  lemma ProcessKeepsInv(s: Host, health: Health)
    requires Inv(s) && health != RETRY
    ensures Inv(ProcessHealthResult(s, health))
  {
    var s' := ProcessHealthResult(s, health);
    forall c | c in s'.connections
      ensures s'.connections[c].onOpenState != PAUSED_ALL
      ensures forall id | id in s'.connections[c].channels :: MemberOk(s'.connections[c].channels[id])
      ensures c in s'.monitor.registered ==> InStep(s'.connections[c], health)
    {
      AliveContains(s.monitor.registered, s.connections.Keys, c);
      if c in s.monitor.registered {
        SyncBringsInStep(s.connections[c], health);
      }
    }
  }

  lemma ChannelDoesKeeps(maxRetries: nat, s: Host, conn: nat, id: nat, ev: RC.Event)
    requires Inv(s) && Enabled(s, ChannelDoes(conn, id, ev))
    ensures Inv(Step(maxRetries, s, ChannelDoes(conn, id, ev)))
  {
    ChannelStepKeeps(s.connections[conn].channels[id], ev, s.monitor.latest);
  }

  lemma StepKeepsInv(maxRetries: nat, s: Host, e: Event)
    requires Inv(s)
    ensures Inv(Step(maxRetries, s, e))
  {
    if Enabled(s, e) {
      match e
      case RegisterConnection(id) => SyncBringsInStep(s.connections[id], s.monitor.latest);
      case ChannelDoes(conn, id, ev) => ChannelDoesKeeps(maxRetries, s, conn, id, ev);
      case CheckHealth(result) =>
        if CheckOutcome(s.monitor.currentTries, maxRetries, result).Some? {
          ProcessKeepsInv(s, CheckOutcome(s.monitor.currentTries, maxRetries, result).value);
        }
      case _ =>
    }
  }

  lemma {:induction false} RunInv(maxRetries: nat, es: seq<Event>)
    ensures Inv(Run(maxRetries, es))
  {
    if es != [] {
      RunInv(maxRetries, es[..|es| - 1]);
      StepKeepsInv(maxRetries, Run(maxRetries, es[..|es| - 1]), es[|es| - 1]);
    }
  }

  /** In every run each health-aware channel of a live registered connection that
      was never asked to cancel or close is flagged paused exactly when the latest
      health result is not HEALTHY, and that result is never RETRY. */
  lemma ChannelsFollowHealth(maxRetries: nat, es: seq<Event>)
    ensures var s := Run(maxRetries, es);
      && s.monitor.latest != RETRY
      && forall c, id | c in s.monitor.registered && c in s.connections && id in s.connections[c].channels ::
           var m := s.connections[c].channels[id];
           m.healthAware && !m.leaving ==> (m.channel.pausedOnOpen <==> s.monitor.latest != HEALTHY)
  {
    RunInv(maxRetries, es);
    var s := Run(maxRetries, es);
    forall c, id | c in s.monitor.registered && c in s.connections && id in s.connections[c].channels
      ensures Follows(s.connections[c].channels[id], s.monitor.latest)
    {
      assert InStep(s.connections[c], s.monitor.latest);
    }
  }

  /** A health-aware channel of a live registered connection that is not leaving, whose
      broker answers in order: whenever it is ready with nothing unanswered, its consumer
      is paused exactly when the host is not healthy, and consuming otherwise. */
  lemma ReadyChannelsFollowHealth(maxRetries: nat, es: seq<Event>, conn: nat, id: nat,
                                  pausedOnOpen: bool, ses: seq<RC.SystemEvent>)
    requires var s := Run(maxRetries, es);
      && conn in s.monitor.registered && conn in s.connections && id in s.connections[conn].channels
      && s.connections[conn].channels[id].healthAware && !s.connections[conn].channels[id].leaving
      && s.connections[conn].channels[id].channel == RC.SystemRun(pausedOnOpen, ses).channel
    requires var c := RC.SystemRun(pausedOnOpen, ses);
      c.channel.state == RC.READY && c.unanswered == [] && c.channel.consumer.Some?
    ensures var consumer := RC.SystemRun(pausedOnOpen, ses).channel.consumer.value;
      && (consumer.state == RC.PAUSED <==> Run(maxRetries, es).monitor.latest != HEALTHY)
      && (consumer.state == RC.CONSUMING <==> Run(maxRetries, es).monitor.latest == HEALTHY)
  {
    ChannelsFollowHealth(maxRetries, es);
    RC.IntentPrevails(pausedOnOpen, ses);
    RC.SystemRunInv(pausedOnOpen, ses);
  }

  /** Without regard to host health every channel is paused or resumed, unless it is
      leaving, and so is every channel made afterwards. */
  lemma PauseAllPauses(conn: Connection, id: nat, healthAware: bool)
    requires forall x | x in conn.channels :: MemberOk(conn.channels[x])
    ensures forall x | x in conn.channels && !conn.channels[x].leaving ::
      && PauseConnection(conn, false).channels[x].channel.pausedOnOpen
      && !ResumeConnection(conn, false).channels[x].channel.pausedOnOpen
    ensures CreateChannel(PauseConnection(conn, false), id, healthAware).channels[id].channel.pausedOnOpen
    ensures !CreateChannel(ResumeConnection(conn, false), id, healthAware).channels[id].channel.pausedOnOpen
  {
    forall x | x in conn.channels && !conn.channels[x].leaving
      ensures PauseConnection(conn, false).channels[x].channel.pausedOnOpen
      ensures !ResumeConnection(conn, false).channels[x].channel.pausedOnOpen
    {
      MemberPauses(conn.channels[x]);
    }
  }

  lemma MemberPauses(m: Member)
    requires MemberOk(m) && !m.leaving
    ensures PauseMember(m, false).channel.pausedOnOpen && !ResumeMember(m, false).channel.pausedOnOpen
  {
    CallConsistent(m.channel, CallPause);
    CallConsistent(m.channel, CallResume);
  }

  // ---- What the events of a run say ----

  /** How often the checker has thrown since it last came to a result; the throw after
      maxRetries + 1 others is a result. */
  function Throws(maxRetries: nat, es: seq<Event>): nat {
    if es == [] then 0
    else
      var before := Throws(maxRetries, es[..|es| - 1]);
      match es[|es| - 1]
      case CheckHealth(result) => if result == RETRY && before <= maxRetries then before + 1 else 0
      case _ => before
  }

  /** The last result: what the checker answered, or UNHEALTHY when it threw too often
      and before the first check. */
  function LastResult(maxRetries: nat, es: seq<Event>): Health {
    if es == [] then UNHEALTHY
    else
      var before := LastResult(maxRetries, es[..|es| - 1]);
      match es[|es| - 1]
      case CheckHealth(result) =>
        if result != RETRY then result
        else if Throws(maxRetries, es[..|es| - 1]) > maxRetries then UNHEALTHY
        else before
      case _ => before
  }

  /** In every run the monitor's view of the host is the last result of its checks. */
  lemma {:induction false} MonitorFollowsChecks(maxRetries: nat, es: seq<Event>)
    ensures Run(maxRetries, es).monitor.latest == LastResult(maxRetries, es)
    ensures Run(maxRetries, es).monitor.currentTries == Throws(maxRetries, es)
  {
    if es != [] {
      MonitorFollowsChecks(maxRetries, es[..|es| - 1]);
    }
  }

  /** The connection was registered since it was made. */
  predicate WasRegistered(maxRetries: nat, es: seq<Event>, c: nat) {
    es != []
    && var before, s := WasRegistered(maxRetries, es[..|es| - 1], c), Run(maxRetries, es[..|es| - 1]);
       match es[|es| - 1]
       case NewConnection(id) => before && (id != c || c in s.connections)
       case RegisterConnection(id) => before || (id == c && c in s.connections)
       case _ => before
  }

  /** In every run a live connection is looked after by the monitor exactly when it was
      registered. */
  lemma {:induction false} RegisteredExactly(maxRetries: nat, es: seq<Event>, c: nat)
    requires c in Run(maxRetries, es).connections
    ensures c in Run(maxRetries, es).monitor.registered <==> WasRegistered(maxRetries, es, c)
  {
    var n := |es| - 1;
    var s, e := Run(maxRetries, es[..n]), es[n];
    if c in s.connections {
      RegisteredExactly(maxRetries, es[..n], c);
      AliveContains(s.monitor.registered, s.connections.Keys, c);
    } else {
      assert e == NewConnection(c) && Enabled(s, e);
    }
  }

  /** A channel as its own events tell it: whether it is health-aware, and what it was
      told since it was made. */
  datatype Story = Story(healthAware: bool, events: seq<RC.Event>)

  function Told(maxRetries: nat, es: seq<Event>, c: nat, id: nat): Option<Story> {
    if es == [] then None
    else
      ToldBy(Run(maxRetries, es[..|es| - 1]), es[|es| - 1], Told(maxRetries, es[..|es| - 1], c, id), c, id)
  }

  function ToldBy(s: Host, e: Event, before: Option<Story>, c: nat, id: nat): Option<Story> {
    if !Enabled(s, e) then before
    else match e
      case ConnectionDies(conn) => if conn == c then None else before
      case NewChannel(conn, x, healthAware) => if conn == c && x == id then Some(Story(healthAware, [])) else before
      case ChannelDoes(conn, x, ev) =>
        if conn != c || x != id || before.None? then before
        else Some(before.value.(events := before.value.events + [ev]))
      case _ => before
  }

  /** The channel exists as told, and one that is not health-aware is as if there were no
      monitor. */
  ghost predicate AsTold(s: Host, c: nat, id: nat, story: Option<Story>) {
    && (story.Some? <==> c in s.connections && id in s.connections[c].channels)
    && (story.Some? ==>
          var m := s.connections[c].channels[id];
          && m.healthAware == story.value.healthAware
          && (!m.healthAware ==> m.channel == RC.Run(false, story.value.events)))
  }

  lemma SyncLeavesAlone(conn: Connection, health: Health, id: nat)
    ensures id in Sync(conn, health).channels <==> id in conn.channels
    ensures id in conn.channels ==> Sync(conn, health).channels[id].healthAware == conn.channels[id].healthAware
    ensures id in conn.channels && !conn.channels[id].healthAware ==>
      Sync(conn, health).channels[id] == conn.channels[id]
  {
  }

  lemma ChannelDoesAsTold(maxRetries: nat, s: Host, e: Event, c: nat, id: nat, story: Option<Story>)
    requires e.ChannelDoes? && Enabled(s, e) && AsTold(s, c, id, story)
    ensures AsTold(Step(maxRetries, s, e), c, id, ToldBy(s, e, story, c, id))
  {
    if e.conn == c && e.id == id {
      RC.RunSnoc(false, story.value.events, e.event);
    }
  }

  lemma CheckAsTold(maxRetries: nat, s: Host, result: Health, c: nat, id: nat, story: Option<Story>)
    requires AsTold(s, c, id, story)
    ensures AsTold(Step(maxRetries, s, CheckHealth(result)), c, id, story)
  {
    if c in s.connections && CheckOutcome(s.monitor.currentTries, maxRetries, result).Some? {
      SyncLeavesAlone(s.connections[c], CheckOutcome(s.monitor.currentTries, maxRetries, result).value, id);
    }
  }

  lemma StepAsTold(maxRetries: nat, s: Host, e: Event, c: nat, id: nat, story: Option<Story>)
    requires Inv(s) && AsTold(s, c, id, story)
    ensures AsTold(Step(maxRetries, s, e), c, id, ToldBy(s, e, story, c, id))
  {
    if Enabled(s, e) {
      match e
      case RegisterConnection(conn) => SyncLeavesAlone(s.connections[conn], s.monitor.latest, id);
      case ChannelDoes(_, _, _) => ChannelDoesAsTold(maxRetries, s, e, c, id, story);
      case CheckHealth(result) => CheckAsTold(maxRetries, s, result, c, id, story);
      case _ =>
    }
  }

  /** In every run a channel that is not health-aware is in the state its own events
      bring it to on a channel that starts unpaused: the monitor leaves it alone. */
  lemma {:induction false} OthersLeftAlone(maxRetries: nat, es: seq<Event>, c: nat, id: nat)
    ensures AsTold(Run(maxRetries, es), c, id, Told(maxRetries, es, c, id))
  {
    if es != [] {
      var n := |es| - 1;
      OthersLeftAlone(maxRetries, es[..n], c, id);
      RunInv(maxRetries, es[..n]);
      StepAsTold(maxRetries, Run(maxRetries, es[..n]), es[n], c, id, Told(maxRetries, es[..n], c, id));
    }
  }

  /** The checker throws `n` times in a row. */
  function Throwing(maxRetries: nat, s: Host, n: nat): Host {
    if n == 0 then s else Step(maxRetries, Throwing(maxRetries, s, n - 1), CheckHealth(RETRY))
  }

  /** A throwing checker changes nothing for maxRetries + 1 checks in a row and
      marks the host unhealthy at the next one. */
  lemma {:induction false} ThrowingIsToleratedThenUnhealthy(maxRetries: nat, s: Host, n: nat)
    requires s.monitor.currentTries == 0 && n <= maxRetries + 2
    ensures n <= maxRetries + 1 ==>
      Throwing(maxRetries, s, n) == s.(monitor := s.monitor.(currentTries := n))
    ensures n == maxRetries + 2 ==>
      Throwing(maxRetries, s, n) == ProcessHealthResult(s, UNHEALTHY)
  {
    if n > 0 {
      ThrowingIsToleratedThenUnhealthy(maxRetries, s, n - 1);
    }
  }

  lemma {:induction false} AliveSnoc(ids: seq<nat>, x: nat, alive: set<nat>)
    ensures Alive(ids + [x], alive) == Alive(ids, alive) + if x in alive then [x] else []
  {
    if ids == [] {
      assert ids + [x] == [x] && [x][1..] == [];
    } else {
      AliveSnoc(ids[1..], x, alive);
      assert (ids + [x])[1..] == ids[1..] + [x];
    }
  }

  /** The monitor's walk over its connection list, which drops dead entries. */
  method SyncConnections(registered: seq<nat>, connections: map<nat, Connection>, health: Health)
    returns (alive: seq<nat>, synced: map<nat, Connection>)
    requires forall i, j | 0 <= i < j < |registered| :: registered[i] != registered[j]
    ensures alive == Alive(registered, connections.Keys)
    ensures synced == map id | id in connections ::
                        if id in registered then Sync(connections[id], health) else connections[id]
  {
    alive, synced := [], connections;
    var i := 0;
    while i < |registered|
      invariant 0 <= i <= |registered|
      invariant alive == Alive(registered[..i], connections.Keys)
      invariant synced.Keys == connections.Keys
      invariant forall id | id in connections ::
        synced[id] == if id in registered[..i] then Sync(connections[id], health) else connections[id]
    {
      var id := registered[i];
      AliveSnoc(registered[..i], id, connections.Keys);
      assert registered[..i + 1] == registered[..i] + [id];
      if id in synced {
        synced := synced[id := Sync(synced[id], health)];
        alive := alive + [id];
      }
      i := i + 1;
    }
    assert registered[..i] == registered;
  }
}
