/**
 The publisher confirm pipeline: senders register a callback and post to the
 event loop, the event loop publishes on the send channel, confirms are queued
 for the thread pool, whose workers take the callback out again.
 */
module Producer {
  import opened Wrappers
  import opened MessageStore
  import opened SC = SendChannel

  datatype SendStatus = SENDING | DUPLICATE | TRANSFORM_ERROR | INFLIGHT_LIMIT | TIMEOUT

  /** The state shared by senders and thread pool workers: free permits, the callbacks
      outstanding, and whether the future of `waitForConfirms` is pending. The callback
      registered for a guid is identified with the message it was registered for. */
  datatype Shared = Shared(permits: nat, callbackMap: map<Guid, Msg>, waiting: bool)
  {
    function Acquire(): Shared
      requires permits > 0
    {
      this.(permits := permits - 1)
    }

    function Release(): Shared {
      this.(permits := permits + 1)
    }

    predicate IsFree(m: Msg) {
      m.guid !in callbackMap
    }

    function Register(m: Msg): Shared {
      if IsFree(m) then this.(callbackMap := callbackMap[m.guid := m]) else this
    }

    /** The rest of a send that holds a permit; without `transformed` the
        transformations failed. The permit is kept exactly when the send goes on. */
    function Send(transformed: Option<Msg>): Shared {
      if transformed.Some? && IsFree(transformed.value) then Register(transformed.value) else Release()
    }

    function Callback(g: Guid): Option<Msg> {
      if g in callbackMap then Some(callbackMap[g]) else None
    }

    function Confirm(g: Guid): Shared {
      if g !in callbackMap then this
      else
        var left := callbackMap - {g};
        Shared(permits + 1, left, waiting && left != map[])
    }

    function Wait(): Shared {
      this.(waiting := waiting || callbackMap != map[])
    }
  }

  /** Every method is one critical section. */
  class SharedState {
    var permits: nat
    var callbackMap: map<Guid, Msg>
    var waitForConfirmsFuture: bool

    ghost function View(): Shared
      reads this
    {
      Shared(permits, callbackMap, waitForConfirmsFuture)
    }

    constructor (maxOutstandingConfirms: nat)
      ensures View() == Shared(maxOutstandingConfirms, map[], false)
    {
      permits, callbackMap, waitForConfirmsFuture := maxOutstandingConfirms, map[], false;
    }

    method TryWait() returns (ok: bool)
      modifies this
      ensures ok == (old(permits) > 0)
      ensures View() == if ok then old(View()).Acquire() else old(View())
    {
      ok := permits > 0;
      if ok {
        permits := permits - 1;
      }
    }

    method Post()
      modifies this
      ensures View() == old(View()).Release()
    {
      permits := permits + 1;
    }

    method RegisterUniqueCallback(m: Msg) returns (ok: bool)
      modifies this
      ensures ok == (m.guid !in old(callbackMap))
      ensures View() == old(View()).Register(m)
    {
      ok := m.guid !in callbackMap;
      if ok {
        callbackMap := callbackMap[m.guid := m];
      }
    }

    /** A send which does not block; `posted` is what goes to the event loop. */
    method TrySend(transformed: Option<Msg>) returns (status: SendStatus, posted: Option<Msg>)
      modifies this
      ensures status == INFLIGHT_LIMIT <==> old(permits) == 0
      ensures old(permits) > 0 ==> IsStatus(status, transformed, old(callbackMap))
      ensures posted == if status == SENDING then transformed else None
      ensures View() == if status == INFLIGHT_LIMIT then old(View()) else old(View()).Acquire().Send(transformed)
    {
      var acquired := TryWait();
      if !acquired {
        return INFLIGHT_LIMIT, None;
      }
      status, posted := DoSend(transformed);
    }

    /** A send that waits for a permit until one is free or the time is up. */
    method SendImpl(timedOut: bool, transformed: Option<Msg>) returns (status: SendStatus, posted: Option<Msg>)
      requires timedOut || permits > 0
      modifies this
      ensures status == TIMEOUT <==> timedOut
      ensures !timedOut ==> IsStatus(status, transformed, old(callbackMap))
      ensures posted == if status == SENDING then transformed else None
      ensures View() == if timedOut then old(View()) else old(View()).Acquire().Send(transformed)
    {
      if timedOut {
        return TIMEOUT, None;
      }
      permits := permits - 1;
      status, posted := DoSend(transformed);
    }

    /** Entered holding a permit. */
    method DoSend(transformed: Option<Msg>) returns (status: SendStatus, posted: Option<Msg>)
      modifies this
      ensures IsStatus(status, transformed, old(callbackMap))
      ensures posted == if status == SENDING then transformed else None
      ensures View() == old(View()).Send(transformed)
    {
      if transformed.None? {
        Post();
        return TRANSFORM_ERROR, None;
      }
      var ok := RegisterUniqueCallback(transformed.value);
      if !ok {
        Post();
        return DUPLICATE, None;
      }
      return SENDING, transformed;
    }

    /** Takes the callback for a confirm; `resolved` says that the future of
        `waitForConfirms` is resolved. */
    method ActionConfirm(c: Confirm) returns (callback: Option<Msg>, resolved: bool)
      modifies this
      ensures callback == old(View()).Callback(c.msg.guid)
      ensures View() == old(View()).Confirm(c.msg.guid)
      ensures resolved <==> old(waitForConfirmsFuture) && c.msg.guid in old(callbackMap) && callbackMap == map[]
      ensures waitForConfirmsFuture == (old(waitForConfirmsFuture) && !resolved)
    {
      resolved := false;
      if c.msg.guid !in callbackMap {
        return None, false;
      }
      callback := Some(callbackMap[c.msg.guid]);
      callbackMap := callbackMap - {c.msg.guid};
      permits := permits + 1;
      if |callbackMap| == 0 && waitForConfirmsFuture {
        resolved := true;
        waitForConfirmsFuture := false;
      }
      assert |callbackMap| == 0 <==> callbackMap == map[];
    }

    method WaitForConfirms() returns (outstanding: bool)
      modifies this
      ensures outstanding <==> old(callbackMap) != map[]
      ensures View() == old(View()).Wait()
    {
      outstanding := |callbackMap| > 0;
      assert |callbackMap| == 0 <==> callbackMap == map[];
      if outstanding {
        waitForConfirmsFuture := true;
      }
    }
  }

  /** What a send that holds a permit answers. */
  predicate IsStatus(status: SendStatus, transformed: Option<Msg>, callbackMap: map<Guid, Msg>) {
    && (status == SENDING <==> transformed.Some? && transformed.value.guid !in callbackMap)
    && (status == DUPLICATE <==> transformed.Some? && transformed.value.guid in callbackMap)
    && (status == TRANSFORM_ERROR <==> transformed.None?)
  }

  // ---- All interleavings ----

  datatype System = System(
    shared: Shared,
    holding: nat,                 // senders which hold a permit and have not registered yet
    registered: seq<Msg>,         // registered by senders which have not posted yet
    posted: seq<Msg>,             // the event loop's queue
    channel: SC.Channel,
    jobs: seq<Confirm>,           // queued for or running on the thread pool
    invoked: seq<Confirm>,        // callbacks made to the application
    accepted: seq<Msg>)           // sends which returned or will return SENDING

  datatype Event =
    | Acquire
    | TransformFails
    | Register(msg: Msg)
    | Post(index: nat)
    | LoopPublish
    | ChannelEvent(event: SC.Event)
    | Action(index: nat)
    | WaitForConfirms

  function Init(maxOutstandingConfirms: nat): System {
    System(Shared(maxOutstandingConfirms, map[], false), 0, [], [], SC.Init(), [], [], [])
  }

  predicate Enabled(s: System, e: Event) {
    match e
    case Acquire => s.shared.permits > 0
    case TransformFails => s.holding > 0
    case Register(_) => s.holding > 0
    case Post(i) => i < |s.registered|
    case LoopPublish => s.posted != []
    case ChannelEvent(ce) => !ce.PublishEvent?
    case Action(i) => i < |s.jobs|
    case WaitForConfirms => true
  }

  function Without<T>(q: seq<T>, i: nat): seq<T>
    requires i < |q|
  {
    q[..i] + q[i + 1..]
  }

  function ActionStep(s: System, i: nat): System
    requires i < |s.jobs|
  {
    var c := s.jobs[i];
    s.(jobs := Without(s.jobs, i),
       shared := s.shared.Confirm(c.msg.guid),
       invoked := s.invoked + if s.shared.Callback(c.msg.guid).Some? then [c] else [])
  }

  function Step(s: System, e: Event): System {
    if !Enabled(s, e) then s
    else match e
      case Acquire => s.(shared := s.shared.Acquire(), holding := s.holding + 1)
      case TransformFails => s.(shared := s.shared.Send(None), holding := s.holding - 1)
      case Register(m) =>
        var sent := if s.shared.IsFree(m) then [m] else [];
        s.(shared := s.shared.Send(Some(m)), holding := s.holding - 1,
           registered := s.registered + sent, accepted := s.accepted + sent)
      case Post(i) => s.(registered := Without(s.registered, i), posted := s.posted + [s.registered[i]])
      case LoopPublish => s.(posted := s.posted[1..], channel := s.channel.Publish(s.posted[0]))
      case ChannelEvent(ce) =>
        s.(channel := SC.Apply(s.channel, ce), jobs := s.jobs + SC.Called(s.channel, ce))
      case Action(i) => ActionStep(s, i)
      case WaitForConfirms => s.(shared := s.shared.Wait())
  }

  function Run(maxOutstandingConfirms: nat, es: seq<Event>): System {
    if es == [] then Init(maxOutstandingConfirms)
    else Step(Run(maxOutstandingConfirms, es[..|es| - 1]), es[|es| - 1])
  }

  /** In how many places of the pipeline a message is. */
  function Places(s: System, x: Msg): nat {
    Occurrences(s.registered, x) + Occurrences(s.posted, x) + Held(s.channel, x)
    + Occurrences(ConfirmedMessages(s.jobs), x)
  }

  predicate Outstanding(s: System, x: Msg) {
    x.guid in s.shared.callbackMap && s.shared.callbackMap[x.guid] == x
  }

  /** A message has a callback exactly when it is in the pipeline, in one place;
      every accepted send is outstanding or was called back, once. */
  ghost predicate InvAt(s: System, x: Msg) {
    && Places(s, x) == (if Outstanding(s, x) then 1 else 0)
    && Occurrences(s.accepted, x) == Places(s, x) + Occurrences(ConfirmedMessages(s.invoked), x)
  }

  ghost predicate Inv(s: System, maxOutstandingConfirms: nat) {
    && SC.Inv(s.channel)
    && (forall g | g in s.shared.callbackMap :: s.shared.callbackMap[g].guid == g)
    && s.shared.permits + |s.shared.callbackMap| + s.holding == maxOutstandingConfirms
    && (s.shared.waiting ==> s.shared.callbackMap != map[])
    && forall x :: InvAt(s, x)
  }

  lemma WithoutCounts(q: seq<Msg>, i: nat, x: Msg)
    requires i < |q|
    ensures Occurrences(q, x) == Occurrences(Without(q, i), x) + One(q[i], x)
  {
    assert q == q[..i] + [q[i]] + q[i + 1..];
  }

  lemma WithoutJob(q: seq<Confirm>, i: nat)
    requires i < |q|
    ensures ConfirmedMessages(Without(q, i)) == Without(ConfirmedMessages(q), i)
  {
  }

  lemma AppendConfirms(a: seq<Confirm>, b: seq<Confirm>)
    ensures ConfirmedMessages(a + b) == ConfirmedMessages(a) + ConfirmedMessages(b)
  {
  }

  /** The branch which fails to find a callback is never taken, and the callback
      found is the one registered for the confirmed message. */
  lemma ConfirmFindsCallback(s: System, maxOutstandingConfirms: nat, i: nat)
    requires Inv(s, maxOutstandingConfirms) && i < |s.jobs|
    ensures Outstanding(s, s.jobs[i].msg)
  {
    var x := s.jobs[i].msg;
    assert InvAt(s, x);
    assert ConfirmedMessages(s.jobs)[i] == x;
    assert x in multiset(ConfirmedMessages(s.jobs));
  }

  lemma OccursSnoc(q: seq<Msg>, m: Msg, x: Msg)
    ensures Occurrences(q + [m], x) == Occurrences(q, x) + One(m, x)
  {
  }

  lemma RegisterAt(s: System, m: Msg, x: Msg)
    requires InvAt(s, x) && Enabled(s, Register(m))
    ensures InvAt(Step(s, Register(m)), x)
  {
    var s' := Step(s, Register(m));
    if s.shared.IsFree(m) {
      OccursSnoc(s.registered, m, x);
      OccursSnoc(s.accepted, m, x);
      assert Places(s', x) == Places(s, x) + One(m, x);
      assert x.guid == m.guid ==> Places(s, x) == 0;
    } else {
      assert s'.registered == s.registered && s'.accepted == s.accepted;
    }
  }

  lemma ChannelAt(s: System, ce: SC.Event, x: Msg)
    requires InvAt(s, x) && SC.Inv(s.channel) && !ce.PublishEvent?
    ensures InvAt(Step(s, ChannelEvent(ce)), x)
  {
    EventConserves(s.channel, ce, x);
    ConfirmedAppend(s.jobs, SC.Called(s.channel, ce), x);
    assert Places(Step(s, ChannelEvent(ce)), x) == Places(s, x);
  }

  lemma ActionAt(s: System, maxOutstandingConfirms: nat, i: nat, x: Msg)
    requires Inv(s, maxOutstandingConfirms) && i < |s.jobs|
    ensures InvAt(ActionStep(s, i), x)
  {
    var c := s.jobs[i];
    assert InvAt(s, x);
    ConfirmFindsCallback(s, maxOutstandingConfirms, i);
    WithoutJob(s.jobs, i);
    WithoutCounts(ConfirmedMessages(s.jobs), i, x);
    AppendConfirms(s.invoked, [c]);
    assert ConfirmedMessages([c]) == [c.msg];
  }

  lemma LoopPublishAt(s: System, x: Msg)
    requires InvAt(s, x) && SC.Inv(s.channel) && s.posted != []
    ensures InvAt(Step(s, LoopPublish), x)
  {
    EventConserves(s.channel, PublishEvent(s.posted[0]), x);
    WithoutCounts(s.posted, 0, x);
  }

  lemma StepAt(s: System, maxOutstandingConfirms: nat, e: Event, x: Msg)
    requires Inv(s, maxOutstandingConfirms) && Enabled(s, e)
    ensures InvAt(Step(s, e), x)
  {
    assert InvAt(s, x);
    match e
    case Register(m) => RegisterAt(s, m, x);
    case Post(i) => WithoutCounts(s.registered, i, x);
    case LoopPublish => LoopPublishAt(s, x);
    case ChannelEvent(ce) => ChannelAt(s, ce, x);
    case Action(i) => ActionAt(s, maxOutstandingConfirms, i, x);
    case _ =>
  }

  lemma StepKeepsInv(s: System, maxOutstandingConfirms: nat, e: Event)
    requires Inv(s, maxOutstandingConfirms)
    ensures Inv(Step(s, e), maxOutstandingConfirms)
  {
    if Enabled(s, e) {
      forall x ensures InvAt(Step(s, e), x) {
        StepAt(s, maxOutstandingConfirms, e, x);
      }
      StepKeepsPermits(s, maxOutstandingConfirms, e);
    }
  }

  lemma StepKeepsPermits(s: System, maxOutstandingConfirms: nat, e: Event)
    requires Inv(s, maxOutstandingConfirms) && Enabled(s, e)
    ensures var s' := Step(s, e);
      && SC.Inv(s'.channel)
      && (forall g | g in s'.shared.callbackMap :: s'.shared.callbackMap[g].guid == g)
      && s'.shared.permits + |s'.shared.callbackMap| + s'.holding == maxOutstandingConfirms
      && (s'.shared.waiting ==> s'.shared.callbackMap != map[])
  {
    match e
    case LoopPublish => EventConserves(s.channel, PublishEvent(s.posted[0]), s.posted[0]);
    case ChannelEvent(ce) => EventConserves(s.channel, ce, Msg(0, "", false, []));
    case Action(i) =>
      ConfirmFindsCallback(s, maxOutstandingConfirms, i);
      assert |s.shared.callbackMap - {s.jobs[i].msg.guid}| == |s.shared.callbackMap| - 1;
    case _ =>
  }

  lemma {:induction false} RunInv(maxOutstandingConfirms: nat, es: seq<Event>)
    ensures Inv(Run(maxOutstandingConfirms, es), maxOutstandingConfirms)
  {
    if es == [] {
      forall x ensures InvAt(Init(maxOutstandingConfirms), x) {
        assert SC.TagsHolding(SC.Init().store.byTag, x) == {};
      }
    } else {
      RunInv(maxOutstandingConfirms, es[..|es| - 1]);
      StepKeepsInv(Run(maxOutstandingConfirms, es[..|es| - 1]), maxOutstandingConfirms, es[|es| - 1]);
    }
  }

  /** In every interleaving a message has a registered callback exactly when it is
      somewhere in the pipeline, and then in exactly one place; every accepted
      send has been called back or is outstanding, never both and never twice; and
      every confirm on the thread pool finds the callback of its own message. */
  lemma NoMessageLostOrConfirmedTwice(maxOutstandingConfirms: nat, es: seq<Event>)
    ensures var s := Run(maxOutstandingConfirms, es);
      && (forall x :: Places(s, x) == if Outstanding(s, x) then 1 else 0)
      && (forall x :: Occurrences(s.accepted, x)
                   == (if Outstanding(s, x) then 1 else 0) + Occurrences(ConfirmedMessages(s.invoked), x))
      && (forall i | 0 <= i < |s.jobs| :: Outstanding(s, s.jobs[i].msg))
  {
    RunInv(maxOutstandingConfirms, es);
    var s := Run(maxOutstandingConfirms, es);
    forall x
      ensures Places(s, x) == if Outstanding(s, x) then 1 else 0
      ensures Occurrences(s.accepted, x)
           == (if Outstanding(s, x) then 1 else 0) + Occurrences(ConfirmedMessages(s.invoked), x)
    {
      assert InvAt(s, x);
    }
    forall i | 0 <= i < |s.jobs| ensures Outstanding(s, s.jobs[i].msg) {
      ConfirmFindsCallback(s, maxOutstandingConfirms, i);
    }
  }

  /** In every interleaving permits are conserved, so no more than the configured
      number of confirms is outstanding, and the future of waitForConfirms is
      pending only while something is outstanding. */
  lemma PermitsAreConserved(maxOutstandingConfirms: nat, es: seq<Event>)
    ensures var s := Run(maxOutstandingConfirms, es);
      && s.shared.permits + |s.shared.callbackMap| + s.holding == maxOutstandingConfirms
      && (s.shared.waiting ==> s.shared.callbackMap != map[])
  {
    RunInv(maxOutstandingConfirms, es);
  }

  // ---- What the application hears ----

  /** What a step has the channel do. */
  function ChannelDoes(s: System, e: Event): Option<SC.Event> {
    match e
    case LoopPublish => if s.posted != [] then Some(PublishEvent(s.posted[0])) else None
    case ChannelEvent(ce) => if ce.PublishEvent? then None else Some(ce)
    case _ => None
  }

  /** The channel's own events in a run. */
  function ChannelEvents(maxOutstandingConfirms: nat, es: seq<Event>): seq<SC.Event> {
    if es == [] then []
    else
      var past, s := ChannelEvents(maxOutstandingConfirms, es[..|es| - 1]), Run(maxOutstandingConfirms, es[..|es| - 1]);
      match ChannelDoes(s, es[|es| - 1])
      case Some(ce) => past + [ce]
      case None => past
  }

  /** The channel went through those events, and what it called back is on the thread
      pool or was passed to the application. */
  ghost predicate HeardFrom(s: System, h: SC.History) {
    s.channel == h.channel && multiset(s.jobs) + multiset(s.invoked) == multiset(h.called)
  }

  lemma JobInvoked(jobs: seq<Confirm>, invoked: seq<Confirm>, i: nat)
    requires i < |jobs|
    ensures multiset(Without(jobs, i)) + multiset(invoked + [jobs[i]]) == multiset(jobs) + multiset(invoked)
  {
    assert jobs == jobs[..i] + [jobs[i]] + jobs[i + 1..];
  }

  lemma ChannelHeardFrom(s: System, e: Event, past: seq<SC.Event>)
    requires HeardFrom(s, SC.Run(past)) && ChannelDoes(s, e).Some?
    ensures HeardFrom(Step(s, e), SC.Run(past + [ChannelDoes(s, e).value]))
  {
    var ce := ChannelDoes(s, e).value;
    SC.RunSnoc(past, ce);
    assert Step(s, e).channel == SC.Apply(s.channel, ce) && Step(s, e).invoked == s.invoked;
    assert Step(s, e).jobs == s.jobs + SC.Called(s.channel, ce);
  }

  lemma OthersHeardFrom(s: System, maxOutstandingConfirms: nat, e: Event, h: SC.History)
    requires Inv(s, maxOutstandingConfirms) && HeardFrom(s, h) && ChannelDoes(s, e).None?
    ensures HeardFrom(Step(s, e), h)
  {
    if e.Action? && e.index < |s.jobs| {
      ConfirmFindsCallback(s, maxOutstandingConfirms, e.index);
      JobInvoked(s.jobs, s.invoked, e.index);
    }
  }

  lemma {:induction false} RunHeardFrom(maxOutstandingConfirms: nat, es: seq<Event>)
    ensures HeardFrom(Run(maxOutstandingConfirms, es), SC.Run(ChannelEvents(maxOutstandingConfirms, es)))
  {
    if es != [] {
      var n := |es| - 1;
      var s, past := Run(maxOutstandingConfirms, es[..n]), ChannelEvents(maxOutstandingConfirms, es[..n]);
      RunHeardFrom(maxOutstandingConfirms, es[..n]);
      if ChannelDoes(s, es[n]).Some? {
        ChannelHeardFrom(s, es[n], past);
      } else {
        RunInv(maxOutstandingConfirms, es[..n]);
        OthersHeardFrom(s, maxOutstandingConfirms, es[n], SC.Run(past));
      }
    }
  }

  /** In every interleaving the application hears of a message what the channel called
      back for it, as often as it did once the thread pool is done: the response of the
      broker's ack or nack of the message's tag, or its return. */
  lemma InvokedAsAnswered(maxOutstandingConfirms: nat, es: seq<Event>, c: Confirm)
    ensures var s, ces := Run(maxOutstandingConfirms, es), ChannelEvents(maxOutstandingConfirms, es);
      && multiset(s.jobs)[c] + multiset(s.invoked)[c] == multiset(SC.Run(ces).called)[c]
      && (c in s.invoked ==> SC.Answered(ces, c))
  {
    var s, ces := Run(maxOutstandingConfirms, es), ChannelEvents(maxOutstandingConfirms, es);
    RunHeardFrom(maxOutstandingConfirms, es);
    assert (multiset(s.jobs) + multiset(s.invoked))[c] == multiset(SC.Run(ces).called)[c];
    if c in s.invoked {
      assert multiset(s.invoked)[c] > 0;
      assert c in SC.Run(ces).called;
      SC.CalledWasAnswered(ces, c);
    }
  }

  // ---- Waiting for all confirms ----

  predicate AnyOutstanding(maxOutstandingConfirms: nat, es: seq<Event>) {
    Run(maxOutstandingConfirms, es).shared.callbackMap != map[]
  }

  /** The k-th event is a `waitForConfirms`, and something has been outstanding ever since. */
  ghost predicate WaitedSince(maxOutstandingConfirms: nat, es: seq<Event>, k: nat) {
    && k < |es| && es[k].WaitForConfirms?
    && forall j | k < j <= |es| :: AnyOutstanding(maxOutstandingConfirms, es[..j])
  }

  lemma StepWaits(s: System, e: Event)
    requires s.shared.waiting ==> s.shared.callbackMap != map[]
    ensures Step(s, e).shared.waiting
       <==> Step(s, e).shared.callbackMap != map[] && (s.shared.waiting || e.WaitForConfirms?)
  {
  }

  lemma WaitedEarlier(maxOutstandingConfirms: nat, es: seq<Event>, n: nat, k: nat)
    requires |es| == n + 1 && k < n
    ensures WaitedSince(maxOutstandingConfirms, es, k)
       <==> WaitedSince(maxOutstandingConfirms, es[..n], k) && AnyOutstanding(maxOutstandingConfirms, es)
  {
    assert es[..n + 1] == es;
    assert forall j | 0 <= j <= n :: es[..n][..j] == es[..j];
    if WaitedSince(maxOutstandingConfirms, es[..n], k) && AnyOutstanding(maxOutstandingConfirms, es) {
      forall j | k < j <= |es| ensures AnyOutstanding(maxOutstandingConfirms, es[..j]) {
        if j <= n {
          assert AnyOutstanding(maxOutstandingConfirms, es[..n][..j]);
        }
      }
    }
    if WaitedSince(maxOutstandingConfirms, es, k) {
      forall j | k < j <= n ensures AnyOutstanding(maxOutstandingConfirms, es[..n][..j]) {
        assert AnyOutstanding(maxOutstandingConfirms, es[..j]);
      }
    }
  }

  lemma WaitsNow(maxOutstandingConfirms: nat, es: seq<Event>)
    requires es != []
    ensures WaitedSince(maxOutstandingConfirms, es, |es| - 1)
       <==> es[|es| - 1].WaitForConfirms? && AnyOutstanding(maxOutstandingConfirms, es)
  {
    assert es[..|es|] == es;
  }

  /** In every interleaving the future of `waitForConfirms` is pending if and only if
      somebody waited and something has been outstanding ever since. */
  lemma {:induction false} WaitingExactly(maxOutstandingConfirms: nat, es: seq<Event>)
    ensures Run(maxOutstandingConfirms, es).shared.waiting
       <==> exists k :: WaitedSince(maxOutstandingConfirms, es, k)
  {
    if es != [] {
      var n := |es| - 1;
      WaitingExactly(maxOutstandingConfirms, es[..n]);
      RunInv(maxOutstandingConfirms, es[..n]);
      StepWaits(Run(maxOutstandingConfirms, es[..n]), es[n]);
      WaitsNow(maxOutstandingConfirms, es);
      forall k | 0 <= k < n
        ensures WaitedSince(maxOutstandingConfirms, es, k)
           <==> WaitedSince(maxOutstandingConfirms, es[..n], k) && AnyOutstanding(maxOutstandingConfirms, es)
      {
        WaitedEarlier(maxOutstandingConfirms, es, n, k);
      }
      if k :| WaitedSince(maxOutstandingConfirms, es[..n], k) {
        assert AnyOutstanding(maxOutstandingConfirms, es) ==> WaitedSince(maxOutstandingConfirms, es, k);
      }
    }
  }
}
