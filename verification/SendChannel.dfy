/**
 The publishing channel: messages wait in `pending` until the channel is ready,
 live in the store until the broker confirms them, and go back to `pending` when
 the channel is reset.
 */
module SendChannel {
  import opened Wrappers
  import opened MessageStore

  datatype Msg = Msg(guid: Guid, routingKey: string, mandatory: bool, payload: seq<nat>)

  datatype Response = CONFIRMED | REJECTED | RETURNED(code: nat)

  datatype Confirm = Confirm(msg: Msg, response: Response)

  function Messages(l: Listing<Msg>): seq<Msg> {
    seq(|l|, i requires 0 <= i < |l| => l[i].1.message)
  }

  /** The responses passed to the confirm callback for a list of messages taken
      out of the store: a returned message reports its return. */
  function Confirms(l: Listing<Msg>, returned: map<Tag, Response>, response: Response): seq<Confirm> {
    seq(|l|, i requires 0 <= i < |l| =>
      Confirm(l[i].1.message, if l[i].0 in returned then returned[l[i].0] else response))
  }

  function TagsOf(l: Listing<Msg>): set<Tag> {
    set i | 0 <= i < |l| :: l[i].0
  }

  datatype Channel = Channel(
    ready: bool,
    flow: bool,
    store: Store<Msg>,
    pending: seq<Msg>,
    deliveryCounter: nat,
    basicReturn: Option<nat>,
    returned: map<Tag, Response>,
    sent: seq<Msg>)      // written to the broker in this lifetime
  {
    function ReadyToPublish(m: Msg): Channel {
      this.(store := store.Insert(deliveryCounter, Entry(m.guid, m, 0)),
            deliveryCounter := if deliveryCounter in store.byTag then deliveryCounter else deliveryCounter + 1,
            sent := sent + [m])
    }

    function ReadyToPublishAll(ms: seq<Msg>): Channel
      decreases |ms|
    {
      if ms == [] then this else ReadyToPublish(ms[0]).ReadyToPublishAll(ms[1..])
    }

    function PublishPending(): Channel {
      this.(pending := []).ReadyToPublishAll(pending)
    }

    function Publish(m: Msg): Channel {
      if !ready || !flow then this.(pending := pending + [m]) else ReadyToPublish(m)
    }

    function Taken(multiple: bool, tag: Tag): Listing<Msg> {
      if multiple then store.RemovedUntil(tag)
      else if tag in store.byTag then [(tag, store.byTag[tag])]
      else []
    }

    function AckNack(multiple: bool, tag: Tag): Channel {
      this.(store := if multiple then store.RemoveUntil(tag) else store.Remove(tag),
            returned := returned - TagsOf(Taken(multiple, tag)))
    }

    /** Messages in flight go back to the end of the pending queue, oldest first. */
    function Reset(): Channel {
      this.(ready := false, store := store.SwapOut(), pending := pending + Messages(Ascending(store.byTag)),
            returned := map[], deliveryCounter := 1, basicReturn := None, sent := [])
    }

    /** Content following a Basic.Return; unknown content closes the channel. */
    function ReturnedContent(guid: Guid): Channel {
      if basicReturn.None? || guid !in store.byGuid then this.(ready := false)
      else
        var tag := store.byGuid[guid];
        this.(returned := if tag in returned then returned else returned[tag := RETURNED(basicReturn.value)],
              basicReturn := None)
    }

    function Returning(code: nat): Channel {
      if basicReturn.Some? then this.(ready := false) else this.(basicReturn := Some(code))
    }

    function Flow(active: bool): Channel {
      if active then
        if ready then this.(flow := true).PublishPending() else this.(flow := true)
      else this.(flow := false)
    }

    function SelectOk(): Channel {
      this.(ready := true).PublishPending()
    }
  }

  function Init(): Channel {
    Channel(false, true, Empty(), [], 1, None, map[], [])
  }

  // ---- The channel as it is implemented ----

  class SendChannel {
    var ready: bool
    var flow: bool
    const store: MessageStore<Msg>
    var pending: seq<Msg>
    var deliveryCounter: nat
    var basicReturn: Option<nat>
    var returned: map<Tag, Response>
    var sent: seq<Msg>

    function View(): Channel
      reads this, store
    {
      Channel(ready, flow, store.View(), pending, deliveryCounter, basicReturn, returned, sent)
    }

    constructor ()
      ensures View() == Init() && fresh(store)
    {
      ready, flow, pending, deliveryCounter := false, true, [], 1;
      basicReturn, returned, sent := None, map[], [];
      store := new MessageStore<Msg>();
    }

    method ReadyToPublish(m: Msg)
      modifies this, store
      ensures View() == old(View()).ReadyToPublish(m)
    {
      var ok := store.Insert(deliveryCounter, Entry(m.guid, m, 0));
      if ok {
        deliveryCounter := deliveryCounter + 1;
      }
      sent := sent + [m];
    }

    method PublishMessage(m: Msg)
      modifies this, store
      ensures View() == old(View()).Publish(m)
    {
      if !ready || !flow {
        pending := pending + [m];
        return;
      }
      ReadyToPublish(m);
    }

    method PublishPending()
      modifies this, store
      ensures View() == old(View()).PublishPending()
    {
      while pending != []
        invariant View().PublishPending() == old(View()).PublishPending()
        decreases |pending|
      {
        var m := pending[0];
        ReadyToPublish(m);
        pending := pending[1..];
      }
    }

    method ProcessAckNack(multiple: bool, tag: Tag, response: Response) returns (confirms: seq<Confirm>)
      modifies this, store
      ensures View() == old(View()).AckNack(multiple, tag)
      ensures confirms == Confirms(old(View()).Taken(multiple, tag), old(returned), response)
    {
      var msgs: Listing<Msg> := [];
      var success := false;
      if multiple {
        msgs := store.RemoveUntil(tag);
        success := |msgs| > 0;
      } else {
        var removed := store.Remove(tag);
        success := removed.Some?;
        if success {
          msgs := [(tag, removed.value)];
        }
      }
      assert msgs == old(View()).Taken(multiple, tag);
      AscendingOrdered(UpTo(old(store.byTag), tag));
      assert old(returned) - {} == old(returned);
      confirms := [];
      if success {
        confirms := CallbackMessages(msgs, response);
      }
    }

    method CallbackMessages(msgs: Listing<Msg>, response: Response) returns (confirms: seq<Confirm>)
      requires forall i, j | 0 <= i < j < |msgs| :: msgs[i].0 != msgs[j].0
      modifies this
      ensures View() == old(View()).(returned := old(returned) - TagsOf(msgs))
      ensures confirms == Confirms(msgs, old(returned), response)
    {
      confirms := [];
      var i := 0;
      while i < |msgs|
        invariant 0 <= i <= |msgs|
        invariant View() == old(View()).(returned := old(returned) - TagsOf(msgs[..i]))
        invariant confirms == Confirms(msgs[..i], old(returned), response)
      {
        var (tag, e) := msgs[i];
        assert tag !in TagsOf(msgs[..i]);
        assert TagsOf(msgs[..i + 1]) == TagsOf(msgs[..i]) + {tag};
        var actual := if tag in returned then returned[tag] else response;
        confirms := confirms + [Confirm(e.message, actual)];
        if tag in returned {
          returned := returned - {tag};
        }
        i := i + 1;
      }
      assert msgs[..i] == msgs;
    }

    method ProcessReturn(code: nat)
      modifies this
      ensures View() == old(View()).Returning(code)
    {
      if basicReturn.Some? {
        ready := false;
        return;
      }
      basicReturn := Some(code);
    }

    method ProcessMessage(guid: Guid)
      requires store.View().IndexSound()
      modifies this
      ensures View() == old(View()).ReturnedContent(guid)
    {
      if basicReturn.None? {
        ready := false;
      } else {
        var found := store.LookupGuid(guid);
        if found.None? {
          ready := false;
        } else {
          var tag := found.value.0;
          if tag !in returned {
            returned := returned[tag := RETURNED(basicReturn.value)];
          }
          basicReturn := None;
        }
      }
    }

    method ProcessFlow(active: bool)
      modifies this, store
      ensures View() == old(View()).Flow(active)
    {
      if active {
        flow := true;
        if ready {
          PublishPending();
        }
      } else {
        flow := false;
      }
    }

    method ProcessSelectOk()
      modifies this, store
      ensures View() == old(View()).SelectOk()
    {
      ready := true;
      PublishPending();
    }

    method ProcessFailures()
      modifies this, store
      ensures View() == old(View()).(store := old(store.View()).SwapOut(), returned := map[],
                          pending := old(pending) + Messages(Ascending(old(store.byTag))))
    {
      var failures := new MessageStore<Msg>();
      store.Swap(failures);
      var unconfirmed := PopAll(failures);
      pending := pending + unconfirmed;
      returned := map[];
    }

    method Reset()
      modifies this, store
      ensures View() == old(View()).Reset()
    {
      ready := false;
      ProcessFailures();
      deliveryCounter := 1;
      basicReturn := None;
      sent := [];
    }
  }

  /** Empties a store from its oldest message on. */
  method PopAll(failures: MessageStore<Msg>) returns (out: seq<Msg>)
    modifies failures
    ensures out == Messages(Ascending(old(failures.byTag)))
  {
    out := [];
    while failures.byTag.Keys != {}
      invariant out + Messages(Ascending(failures.byTag)) == Messages(Ascending(old(failures.byTag)))
      decreases |failures.byTag.Keys|
    {
      var oldest := Least(failures.byTag.Keys);
      ghost var m := failures.byTag;
      MessagesStep(m);
      var removed := failures.Remove(oldest);
      assert failures.byTag == m - {oldest} && failures.byTag.Keys == m.Keys - {oldest};
      out := out + [removed.value.message];
    }
  }

  lemma MessagesStep(m: map<Tag, Entry<Msg>>)
    requires m.Keys != {}
    ensures Messages(Ascending(m)) == [m[Least(m.Keys)].message] + Messages(Ascending(m - {Least(m.Keys)}))
  {
  }

  // ---- Conservation ----

  datatype Event =
    | PublishEvent(msg: Msg)
    | AckNackEvent(multiple: bool, tag: Tag, response: Response)
    | ReturnEvent(code: nat)
    | ContentEvent(guid: Guid)
    | FlowEvent(active: bool)
    | SelectOkEvent
    | CloseEvent
    | ResetEvent

  function Apply(c: Channel, e: Event): Channel {
    match e
    case PublishEvent(m) => c.Publish(m)
    case AckNackEvent(multiple, tag, _) => c.AckNack(multiple, tag)
    case ReturnEvent(code) => c.Returning(code)
    case ContentEvent(guid) => c.ReturnedContent(guid)
    case FlowEvent(active) => c.Flow(active)
    case SelectOkEvent => c.SelectOk()
    case CloseEvent => c.(ready := false)
    case ResetEvent => c.Reset()
  }

  /** The confirm callbacks an event makes. */
  function Called(c: Channel, e: Event): seq<Confirm> {
    if e.AckNackEvent? then Confirms(c.Taken(e.multiple, e.tag), c.returned, e.response) else []
  }

  function ConfirmedMessages(cs: seq<Confirm>): seq<Msg> {
    seq(|cs|, i requires 0 <= i < |cs| => cs[i].msg)
  }

  function TagsHolding(m: map<Tag, Entry<Msg>>, x: Msg): set<Tag> {
    set t | t in m && m[t].message == x
  }

  /** How often a message is in a store. */
  function Stored(m: map<Tag, Entry<Msg>>, x: Msg): nat {
    |TagsHolding(m, x)|
  }

  function Occurrences(ms: seq<Msg>, x: Msg): nat {
    multiset(ms)[x]
  }

  /** How often the channel is still responsible for a message. */
  function Held(c: Channel, x: Msg): nat {
    Occurrences(c.pending, x) + Stored(c.store.byTag, x)
  }

  lemma StoredRemove(m: map<Tag, Entry<Msg>>, t: Tag, x: Msg)
    requires t in m
    ensures Stored(m, x) == Stored(m - {t}, x) + if m[t].message == x then 1 else 0
  {
    assert TagsHolding(m - {t}, x) == TagsHolding(m, x) - {t};
  }

  lemma StoredInsert(m: map<Tag, Entry<Msg>>, t: Tag, e: Entry<Msg>, x: Msg)
    requires t !in m
    ensures Stored(m[t := e], x) == Stored(m, x) + if e.message == x then 1 else 0
  {
    StoredRemove(m[t := e], t, x);
    assert m[t := e] - {t} == m;
  }

  lemma StoredSplit(m: map<Tag, Entry<Msg>>, tag: Tag, x: Msg)
    ensures Stored(m, x) == Stored(UpTo(m, tag), x) + Stored(Above(m, tag), x)
  {
    assert TagsHolding(m, x) == TagsHolding(UpTo(m, tag), x) + TagsHolding(Above(m, tag), x);
  }

  lemma {:induction false} StoredIsListed(m: map<Tag, Entry<Msg>>, x: Msg)
    ensures Occurrences(Messages(Ascending(m)), x) == Stored(m, x)
    decreases |m.Keys|
  {
    if m.Keys == {} {
      assert TagsHolding(m, x) == {};
    } else {
      var t := Least(m.Keys);
      assert (m - {t}).Keys == m.Keys - {t};
      StoredIsListed(m - {t}, x);
      StoredRemove(m, t, x);
      MessagesStep(m);
    }
  }

  /** What holds of the channel's own state at any time: a stored tag n is the
      n-th message of this lifetime and lies below the delivery counter, and only
      stored tags are marked as returned. */
  ghost predicate Inv(c: Channel) {
    && c.store.IndexSound()
    && c.deliveryCounter == |c.sent| + 1
    && (forall t | t in c.store.byTag ::
          && 1 <= t < c.deliveryCounter
          && c.store.byTag[t].message == c.sent[t - 1]
          && c.store.byTag[t].guid == c.sent[t - 1].guid)
    && c.returned.Keys <= c.store.byTag.Keys
  }

  function One(m: Msg, x: Msg): nat {
    if m == x then 1 else 0
  }

  lemma ReadyToPublishKeeps(c: Channel, m: Msg)
    requires Inv(c)
    ensures c.deliveryCounter !in c.store.byTag
    ensures Inv(c.ReadyToPublish(m))
  {
  }

  lemma ReadyToPublishHolds(c: Channel, m: Msg, x: Msg)
    requires Inv(c)
    ensures Held(c.ReadyToPublish(m), x) == Held(c, x) + One(m, x)
  {
    StoredInsert(c.store.byTag, c.deliveryCounter, Entry(m.guid, m, 0), x);
  }

  lemma {:induction false} ReadyToPublishAllKeeps(c: Channel, ms: seq<Msg>, x: Msg)
    requires Inv(c)
    ensures var c' := c.ReadyToPublishAll(ms);
      && Inv(c')
      && Held(c', x) == Held(c, x) + Occurrences(ms, x)
      && c'.sent == c.sent + ms
      && c'.pending == c.pending
    decreases |ms|
  {
    if ms != [] {
      ReadyToPublishKeeps(c, ms[0]);
      ReadyToPublishHolds(c, ms[0], x);
      ReadyToPublishAllKeeps(c.ReadyToPublish(ms[0]), ms[1..], x);
      assert ms == [ms[0]] + ms[1..];
    }
  }

  lemma PublishPendingKeeps(c: Channel, x: Msg)
    requires Inv(c)
    ensures var c' := c.PublishPending();
      && Inv(c')
      && Held(c', x) == Held(c, x)
      && c'.pending == []
      && c'.sent == c.sent + c.pending
  {
    ReadyToPublishAllKeeps(c.(pending := []), c.pending, x);
  }

  lemma ConfirmedAreTaken(l: Listing<Msg>, returned: map<Tag, Response>, response: Response)
    ensures ConfirmedMessages(Confirms(l, returned, response)) == Messages(l)
  {
  }

  lemma AckNackKeeps(c: Channel, multiple: bool, tag: Tag)
    requires Inv(c)
    ensures Inv(c.AckNack(multiple, tag))
  {
    var l := c.Taken(multiple, tag);
    var c' := c.AckNack(multiple, tag);
    if tag !in c.store.byTag {
      assert TagsOf(l) == {};
      assert c'.returned == c.returned;
    } else if multiple {
      ApplySound(c.store, DoRemoveUntil(tag));
      forall t | t in c.returned && t <= tag ensures t in TagsOf(l) {
        AscendingLists(UpTo(c.store.byTag, tag), t, c.store.byTag[t]);
        assert (t, c.store.byTag[t]) in l;
      }
    } else {
      ApplySound(c.store, DoRemove(tag));
      assert l[0].0 in TagsOf(l);
    }
  }

  lemma AckNackHolds(c: Channel, multiple: bool, tag: Tag, x: Msg)
    ensures Held(c, x) == Held(c.AckNack(multiple, tag), x) + Occurrences(Messages(c.Taken(multiple, tag)), x)
  {
    if tag in c.store.byTag {
      if multiple {
        StoredSplit(c.store.byTag, tag, x);
        StoredIsListed(UpTo(c.store.byTag, tag), x);
      } else {
        StoredRemove(c.store.byTag, tag, x);
        assert Messages(c.Taken(multiple, tag)) == [c.store.byTag[tag].message];
      }
    }
  }

  /** One event loses and invents nothing: what the channel holds afterwards and
      what it called back is what it held before and what was published. */
  lemma EventConserves(c: Channel, e: Event, x: Msg)
    requires Inv(c)
    ensures Inv(Apply(c, e))
    ensures Held(Apply(c, e), x) + Occurrences(ConfirmedMessages(Called(c, e)), x)
         == Held(c, x) + if e.PublishEvent? then One(e.msg, x) else 0
  {
    match e
    case PublishEvent(m) => PublishConserves(c, m, x);
    case AckNackEvent(multiple, tag, response) =>
      AckNackKeeps(c, multiple, tag);
      AckNackHolds(c, multiple, tag, x);
      ConfirmedAreTaken(c.Taken(multiple, tag), c.returned, response);
    case FlowEvent(active) => FlowConserves(c, active, x);
    case ContentEvent(guid) => ContentConserves(c, guid, x);
    case SelectOkEvent =>
      PublishPendingKeeps(c.(ready := true), x);
    case ResetEvent => ResetConserves(c, x);
    case _ =>
  }

  lemma PublishConserves(c: Channel, m: Msg, x: Msg)
    requires Inv(c)
    ensures Inv(c.Publish(m)) && Held(c.Publish(m), x) == Held(c, x) + One(m, x)
  {
    if c.ready && c.flow {
      ReadyToPublishKeeps(c, m);
      ReadyToPublishHolds(c, m, x);
    }
  }

  lemma FlowConserves(c: Channel, active: bool, x: Msg)
    requires Inv(c)
    ensures Inv(c.Flow(active)) && Held(c.Flow(active), x) == Held(c, x)
  {
    if active && c.ready {
      PublishPendingKeeps(c.(flow := true), x);
    }
  }

  lemma ContentConserves(c: Channel, guid: Guid, x: Msg)
    requires Inv(c)
    ensures Inv(c.ReturnedContent(guid)) && Held(c.ReturnedContent(guid), x) == Held(c, x)
  {
  }

  lemma ResetConserves(c: Channel, x: Msg)
    requires Inv(c)
    ensures Inv(c.Reset()) && Held(c.Reset(), x) == Held(c, x)
  {
    StoredIsListed(c.store.byTag, x);
    assert TagsHolding(c.Reset().store.byTag, x) == {};
  }

  // ---- Every run, against an arbitrary broker ----

  datatype History = History(channel: Channel, published: seq<Msg>, called: seq<Confirm>)

  function Run(es: seq<Event>): History {
    if es == [] then History(Init(), [], [])
    else
      var h, e := Run(es[..|es| - 1]), es[|es| - 1];
      History(Apply(h.channel, e),
              if e.PublishEvent? then h.published + [e.msg] else h.published,
              h.called + Called(h.channel, e))
  }

  lemma {:induction false} RunConserves(es: seq<Event>, x: Msg)
    ensures Inv(Run(es).channel)
    ensures Occurrences(Run(es).published, x)
         == Held(Run(es).channel, x) + Occurrences(ConfirmedMessages(Run(es).called), x)
  {
    if es == [] {
      assert TagsHolding(Init().store.byTag, x) == {};
    } else {
      var h, e := Run(es[..|es| - 1]), es[|es| - 1];
      RunConserves(es[..|es| - 1], x);
      EventConserves(h.channel, e, x);
      ConfirmedAppend(h.called, Called(h.channel, e), x);
    }
  }

  lemma ConfirmedAppend(a: seq<Confirm>, b: seq<Confirm>, x: Msg)
    ensures Occurrences(ConfirmedMessages(a + b), x)
         == Occurrences(ConfirmedMessages(a), x) + Occurrences(ConfirmedMessages(b), x)
  {
    assert ConfirmedMessages(a + b) == ConfirmedMessages(a) + ConfirmedMessages(b);
  }

  /** In every run each published message is pending, stored or called back, as
      often as it was published; the store always accepts the next delivery tag;
      stored tag n is the n-th message written in this lifetime; and only stored
      tags are marked as returned. */
  lemma PublishedIsConserved(es: seq<Event>)
    ensures var h := Run(es);
      && (forall x :: Occurrences(h.published, x) == Held(h.channel, x) + Occurrences(ConfirmedMessages(h.called), x))
      && h.channel.deliveryCounter !in h.channel.store.byTag
      && (forall t | t in h.channel.store.byTag ::
            1 <= t <= |h.channel.sent| && h.channel.store.byTag[t].message == h.channel.sent[t - 1])
      && h.channel.returned.Keys <= h.channel.store.byTag.Keys
  {
    forall x ensures Inv(Run(es).channel)
      ensures Occurrences(Run(es).published, x)
           == Held(Run(es).channel, x) + Occurrences(ConfirmedMessages(Run(es).called), x)
    {
      RunConserves(es, x);
    }
    RunConserves(es, Msg(0, "", false, []));
  }

  // ---- What the events of a run say ----

  /** The guid can be found in the store after a run. */
  predicate Found(es: seq<Event>, guid: Guid) {
    guid in Run(es).channel.store.byGuid
  }

  /** The code of a Basic.Return whose content has not come yet. */
  function Announced(es: seq<Event>): Option<nat> {
    if es == [] then None
    else
      var before, past := es[..|es| - 1], Announced(es[..|es| - 1]);
      match es[|es| - 1]
      case ReturnEvent(code) => if past.None? then Some(code) else past
      case ContentEvent(guid) => if Found(before, guid) then None else past
      case ResetEvent => None
      case _ => past
  }

  /** The code of the first return of tag `t` in this lifetime whose content came. */
  function ReturnOf(es: seq<Event>, t: Tag): Option<nat> {
    if es == [] then None
    else
      var before, past := es[..|es| - 1], ReturnOf(es[..|es| - 1], t);
      match es[|es| - 1]
      case ContentEvent(guid) =>
        if past.None? && Found(before, guid) && Run(before).channel.store.byGuid[guid] == t
        then Announced(before)
        else past
      case ResetEvent => None
      case _ => past
  }

  /** What the application hears of tag `t` when the broker answers with `response`. */
  function ResponseTo(es: seq<Event>, t: Tag, response: Response): Response {
    match ReturnOf(es, t)
    case Some(code) => RETURNED(code)
    case None => response
  }

  /** The channel was selected, and since then neither closed nor reset: by its owner,
      or for a second return before the content of the first, content without a return
      or content of an unknown message. */
  predicate Selected(es: seq<Event>) {
    if es == [] then false
    else
      var before, past := es[..|es| - 1], Selected(es[..|es| - 1]);
      match es[|es| - 1]
      case SelectOkEvent => true
      case CloseEvent => false
      case ResetEvent => false
      case ReturnEvent(_) => past && Announced(before).None?
      case ContentEvent(guid) => past && Announced(before).Some? && Found(before, guid)
      case _ => past
  }

  /** What the broker's last Channel.Flow said. */
  predicate Flowing(es: seq<Event>) {
    es == [] || var e := es[|es| - 1]; if e.FlowEvent? then e.active else Flowing(es[..|es| - 1])
  }

  /** The marks of returned messages are those of their first return. */
  ghost predicate Marked(c: Channel, es: seq<Event>) {
    forall t: Tag :: MarkedAs(c, t, ReturnOf(es, t))
  }

  ghost predicate MarkedAs(c: Channel, t: Tag, code: Option<nat>) {
    && (code.Some? ==> 1 <= t < c.deliveryCounter)
    && (t in c.store.byTag && code.None? ==> t !in c.returned)
    && (t in c.store.byTag && code.Some? ==> t in c.returned && c.returned[t] == RETURNED(code.value))
  }

  ghost predicate Follows(c: Channel, es: seq<Event>) {
    && Inv(c)
    && c.basicReturn == Announced(es)
    && c.ready == Selected(es)
    && c.flow == Flowing(es)
    && Marked(c, es)
  }

  lemma {:induction false} PublishAllMarks(c: Channel, ms: seq<Msg>, es: seq<Event>)
    requires Inv(c) && Marked(c, es)
    ensures var c' := c.ReadyToPublishAll(ms);
      && Inv(c') && Marked(c', es)
      && c'.ready == c.ready && c'.flow == c.flow && c'.basicReturn == c.basicReturn
    decreases |ms|
  {
    if ms != [] {
      ReadyToPublishKeeps(c, ms[0]);
      assert Marked(c.ReadyToPublish(ms[0]), es);
      PublishAllMarks(c.ReadyToPublish(ms[0]), ms[1..], es);
    }
  }

  lemma SameReturns(es: seq<Event>, t: Tag)
    requires es != [] && !es[|es| - 1].ContentEvent? && !es[|es| - 1].ResetEvent?
    ensures ReturnOf(es, t) == ReturnOf(es[..|es| - 1], t)
  {
  }

  lemma SameMarks(c: Channel, es: seq<Event>)
    requires es != [] && !es[|es| - 1].ContentEvent? && !es[|es| - 1].ResetEvent?
    requires Marked(c, es[..|es| - 1])
    ensures Marked(c, es)
  {
    forall t ensures ReturnOf(es, t) == ReturnOf(es[..|es| - 1], t) {
      SameReturns(es, t);
    }
  }

  lemma AckNackMarks(c: Channel, multiple: bool, tag: Tag, es: seq<Event>)
    requires Inv(c) && Marked(c, es)
    ensures Marked(c.AckNack(multiple, tag), es)
  {
    var c' := c.AckNack(multiple, tag);
    forall t | t in c'.store.byTag ensures t !in TagsOf(c.Taken(multiple, tag)) {
      TakenExactly(c, multiple, tag, t);
    }
  }

  /** The stored tags that an ack or nack of `tag` is about. */
  predicate Covered(m: map<Tag, Entry<Msg>>, multiple: bool, tag: Tag, t: Tag) {
    tag in m && t in m && (t == tag || (multiple && t < tag))
  }

  lemma TakenExactly(c: Channel, multiple: bool, tag: Tag, t: Tag)
    ensures t in TagsOf(c.Taken(multiple, tag)) <==> Covered(c.store.byTag, multiple, tag, t)
    ensures t in c.AckNack(multiple, tag).store.byTag
       <==> t in c.store.byTag && !Covered(c.store.byTag, multiple, tag, t)
  {
    var l := c.Taken(multiple, tag);
    if multiple && tag in c.store.byTag {
      var m := UpTo(c.store.byTag, tag);
      if t in m {
        AscendingLists(m, t, m[t]);
        assert (t, m[t]) in l;
      }
      forall i | 0 <= i < |l| ensures l[i].0 in m {
        AscendingLists(m, l[i].0, l[i].1);
        assert l[i] in l;
      }
    } else if tag in c.store.byTag {
      assert l[0].0 == tag;
    }
  }

  /** The tag whose return an event completes. */
  function Completes(es: seq<Event>, guid: Guid): Option<Tag> {
    if Announced(es).Some? && Found(es, guid) then Some(Run(es).channel.store.byGuid[guid]) else None
  }

  lemma ContentReturns(es: seq<Event>, t: Tag)
    requires es != [] && es[|es| - 1].ContentEvent?
    ensures var before := es[..|es| - 1];
      ReturnOf(es, t) == if ReturnOf(before, t).None? && Completes(before, es[|es| - 1].guid) == Some(t)
        then Announced(before) else ReturnOf(before, t)
  {
  }

  lemma ContentMarksOne(c: Channel, guid: Guid, t: Tag, code: Option<nat>)
    requires Inv(c) && MarkedAs(c, t, code)
    ensures var completed := c.basicReturn.Some? && guid in c.store.byGuid && c.store.byGuid[guid] == t;
      MarkedAs(c.ReturnedContent(guid), t, if code.None? && completed then c.basicReturn else code)
  {
  }

  lemma ContentMarks(c: Channel, es: seq<Event>)
    requires es != [] && es[|es| - 1].ContentEvent?
    requires c == Run(es[..|es| - 1]).channel && Follows(c, es[..|es| - 1])
    ensures Marked(c.ReturnedContent(es[|es| - 1].guid), es)
  {
    var before, guid := es[..|es| - 1], es[|es| - 1].guid;
    forall t: Tag
      ensures MarkedAs(c.ReturnedContent(guid), t, ReturnOf(es, t))
    {
      assert MarkedAs(c, t, ReturnOf(before, t));
      ContentReturns(es, t);
      ContentMarksOne(c, guid, t, ReturnOf(before, t));
    }
  }

  lemma ContentFollows(c: Channel, es: seq<Event>)
    requires es != [] && es[|es| - 1].ContentEvent?
    requires c == Run(es[..|es| - 1]).channel && Follows(c, es[..|es| - 1])
    ensures Follows(Apply(c, es[|es| - 1]), es)
  {
    ContentConserves(c, es[|es| - 1].guid, Msg(0, "", false, []));
    ContentMarks(c, es);
  }

  lemma ResetFollows(c: Channel, es: seq<Event>)
    requires es != [] && es[|es| - 1].ResetEvent? && Follows(c, es[..|es| - 1])
    ensures Follows(Apply(c, es[|es| - 1]), es)
  {
    ResetConserves(c, Msg(0, "", false, []));
  }

  lemma PublishFollows(c: Channel, es: seq<Event>)
    requires es != [] && es[|es| - 1].PublishEvent? && Follows(c, es[..|es| - 1])
    ensures Follows(Apply(c, es[|es| - 1]), es)
  {
    SameMarks(c, es);
    var m := es[|es| - 1].msg;
    if c.ready && c.flow {
      assert c.ReadyToPublishAll([m]) == c.ReadyToPublish(m);
      PublishAllMarks(c, [m], es);
    }
  }

  lemma AckNackFollows(c: Channel, es: seq<Event>)
    requires es != [] && es[|es| - 1].AckNackEvent? && Follows(c, es[..|es| - 1])
    ensures Follows(Apply(c, es[|es| - 1]), es)
  {
    SameMarks(c, es);
    AckNackKeeps(c, es[|es| - 1].multiple, es[|es| - 1].tag);
    AckNackMarks(c, es[|es| - 1].multiple, es[|es| - 1].tag, es);
  }

  lemma DrainFollows(c: Channel, c': Channel, es: seq<Event>)
    requires es != [] && (es[|es| - 1].FlowEvent? || es[|es| - 1].SelectOkEvent?)
    requires Follows(c, es[..|es| - 1])
    requires c' == c.(ready := c'.ready, flow := c'.flow)
    requires c'.ready == (c.ready || es[|es| - 1].SelectOkEvent?)
    requires c'.flow == if es[|es| - 1].FlowEvent? then es[|es| - 1].active else c.flow
    ensures Follows(c', es) && Follows(c'.PublishPending(), es)
  {
    SameMarks(c, es);
    PublishAllMarks(c'.(pending := []), c.pending, es);
  }

  lemma FlowFollows(c: Channel, es: seq<Event>)
    requires es != [] && es[|es| - 1].FlowEvent? && Follows(c, es[..|es| - 1])
    ensures Follows(Apply(c, es[|es| - 1]), es)
  {
    DrainFollows(c, c.(flow := es[|es| - 1].active), es);
  }

  lemma QuietFollows(c: Channel, es: seq<Event>)
    requires es != [] && (es[|es| - 1].ReturnEvent? || es[|es| - 1].CloseEvent?) && Follows(c, es[..|es| - 1])
    ensures Follows(Apply(c, es[|es| - 1]), es)
  {
    SameMarks(c, es);
  }

  lemma StepFollows(c: Channel, es: seq<Event>)
    requires es != [] && c == Run(es[..|es| - 1]).channel && Follows(c, es[..|es| - 1])
    ensures Follows(Apply(c, es[|es| - 1]), es)
  {
    match es[|es| - 1]
    case ContentEvent(_) => ContentFollows(c, es);
    case ResetEvent => ResetFollows(c, es);
    case PublishEvent(_) => PublishFollows(c, es);
    case FlowEvent(_) => FlowFollows(c, es);
    case SelectOkEvent => DrainFollows(c, c.(ready := true), es);
    case AckNackEvent(_, _, _) => AckNackFollows(c, es);
    case ReturnEvent(_) => QuietFollows(c, es);
    case CloseEvent => QuietFollows(c, es);
  }

  lemma {:induction false} RunFollows(es: seq<Event>)
    ensures Follows(Run(es).channel, es)
  {
    if es != [] {
      RunFollows(es[..|es| - 1]);
      StepFollows(Run(es[..|es| - 1]).channel, es);
    }
  }

  lemma RunSnoc(es: seq<Event>, e: Event)
    ensures Run(es + [e]).channel == Apply(Run(es).channel, e)
    ensures Run(es + [e]).called == Run(es).called + Called(Run(es).channel, e)
  {
    assert (es + [e])[..|es|] == es;
  }

  /** Those tags are called back, from the oldest on: each with its message and with
      the given response, or with its return if it was returned since it was written. */
  ghost predicate CalledBack(es: seq<Event>, called: seq<Confirm>, response: Response, tags: seq<Tag>) {
    && (forall i, j | 0 <= i < j < |tags| :: tags[i] < tags[j])
    && |called| == |tags|
    && forall i | 0 <= i < |tags| :: Heard(es, called[i], response, tags[i])
  }

  ghost predicate Heard(es: seq<Event>, c: Confirm, response: Response, t: Tag) {
    && t in Run(es).channel.store.byTag
    && c.msg == Run(es).channel.store.byTag[t].message
    && c.response == ResponseTo(es, t, response)
  }

  function ListedTags(l: Listing<Msg>): seq<Tag> {
    seq(|l|, i requires 0 <= i < |l| => l[i].0)
  }

  lemma TakenListed(c: Channel, multiple: bool, tag: Tag)
    ensures var l := c.Taken(multiple, tag);
      && (forall i, j | 0 <= i < j < |l| :: l[i].0 < l[j].0)
      && (forall i | 0 <= i < |l| :: l[i].0 in c.store.byTag && l[i].1 == c.store.byTag[l[i].0])
  {
    var l := c.Taken(multiple, tag);
    AscendingOrdered(UpTo(c.store.byTag, tag));
    if multiple && tag in c.store.byTag {
      forall i | 0 <= i < |l| ensures l[i].0 in c.store.byTag && l[i].1 == c.store.byTag[l[i].0] {
        AscendingLists(UpTo(c.store.byTag, tag), l[i].0, l[i].1);
        assert l[i] in l;
      }
    }
  }

  lemma ConfirmHeard(es: seq<Event>, t: Tag, response: Response)
    requires t in Run(es).channel.store.byTag
    ensures var c := Run(es).channel;
      Heard(es, Confirm(c.store.byTag[t].message, if t in c.returned then c.returned[t] else response), response, t)
  {
    RunFollows(es);
  }

  lemma TakenCalledBack(es: seq<Event>, multiple: bool, tag: Tag, response: Response)
    ensures CalledBack(es, Called(Run(es).channel, AckNackEvent(multiple, tag, response)), response,
                       ListedTags(Run(es).channel.Taken(multiple, tag)))
  {
    var c := Run(es).channel;
    var l := c.Taken(multiple, tag);
    var called := Called(c, AckNackEvent(multiple, tag, response));
    TakenListed(c, multiple, tag);
    forall i | 0 <= i < |l| ensures Heard(es, called[i], response, l[i].0) {
      ConfirmHeard(es, l[i].0, response);
    }
  }

  /** Those are the stored tags an ack or nack is about, and they leave the store. */
  ghost predicate TakesOut(m: map<Tag, Entry<Msg>>, m': map<Tag, Entry<Msg>>,
                           multiple: bool, tag: Tag, tags: seq<Tag>) {
    && (forall t :: t in tags <==> Covered(m, multiple, tag, t))
    && (forall t :: t in m' <==> t in m && t !in tags)
  }

  lemma TakenTakesOut(c: Channel, multiple: bool, tag: Tag)
    ensures TakesOut(c.store.byTag, c.AckNack(multiple, tag).store.byTag, multiple, tag,
                     ListedTags(c.Taken(multiple, tag)))
  {
    var l := c.Taken(multiple, tag);
    forall t
      ensures t in ListedTags(l) <==> Covered(c.store.byTag, multiple, tag, t)
      ensures t in c.AckNack(multiple, tag).store.byTag <==> t in c.store.byTag && t !in ListedTags(l)
    {
      TakenExactly(c, multiple, tag, t);
      assert t in TagsOf(l) <==> t in ListedTags(l) by {
        if t in TagsOf(l) {
          var i :| 0 <= i < |l| && l[i].0 == t;
          assert ListedTags(l)[i] == t;
        }
      }
    }
  }

  /** In every run an ack or nack of a stored tag calls back exactly that message or,
      with `multiple`, exactly all stored up to it, and takes them out of the store; of
      an unknown tag nothing. A message without a return since it was written hears the
      response of this event, one with a return the code of that return. */
  lemma CalledBackExactly(es: seq<Event>, multiple: bool, tag: Tag, response: Response)
    ensures var h, h' := Run(es), Run(es + [AckNackEvent(multiple, tag, response)]);
      && h.called <= h'.called
      && exists tags ::
           && CalledBack(es, h'.called[|h.called|..], response, tags)
           && TakesOut(h.channel.store.byTag, h'.channel.store.byTag, multiple, tag, tags)
  {
    var e := AckNackEvent(multiple, tag, response);
    RunSnoc(es, e);
    var h, h' := Run(es), Run(es + [e]);
    assert h'.called[|h.called|..] == Called(h.channel, e);
    TakenCalledBack(es, multiple, tag, response);
    TakenTakesOut(h.channel, multiple, tag);
  }

  /** No other event calls back. */
  lemma NothingElseCalledBack(es: seq<Event>, e: Event)
    requires !e.AckNackEvent?
    ensures Run(es + [e]).called == Run(es).called
  {
    RunSnoc(es, e);
  }

  /** The k-th event of a run is the ack or nack that answers tag `t` with `c`. */
  ghost predicate AnsweredAt(es: seq<Event>, k: nat, t: Tag, c: Confirm) {
    && k < |es| && es[k].AckNackEvent?
    && Covered(Run(es[..k]).channel.store.byTag, es[k].multiple, es[k].tag, t)
    && Heard(es[..k], c, es[k].response, t)
  }

  ghost predicate Answered(es: seq<Event>, c: Confirm) {
    exists k: nat, t: Tag :: AnsweredAt(es, k, t, c)
  }

  lemma LastAnswers(es: seq<Event>, e: Event, c: Confirm) returns (t: Tag)
    requires c in Called(Run(es).channel, e)
    ensures Covered(Run(es).channel.store.byTag, e.multiple, e.tag, t) && Heard(es, c, e.response, t)
  {
    var x := Run(es).channel;
    var called, tags := Called(x, e), ListedTags(x.Taken(e.multiple, e.tag));
    TakenCalledBack(es, e.multiple, e.tag, e.response);
    TakenTakesOut(x, e.multiple, e.tag);
    var i :| 0 <= i < |called| && called[i] == c;
    t := tags[i];
    assert t in tags;
  }

  lemma AnsweredEarlier(es: seq<Event>, n: nat, c: Confirm)
    requires n <= |es| && Answered(es[..n], c)
    ensures Answered(es, c)
  {
    var k: nat, t: Tag :| AnsweredAt(es[..n], k, t, c);
    assert es[..n][..k] == es[..k];
    assert AnsweredAt(es, k, t, c);
  }

  lemma {:induction false} CalledWasAnswered(es: seq<Event>, c: Confirm)
    requires c in Run(es).called
    ensures Answered(es, c)
  {
    var n := |es| - 1;
    if c in Called(Run(es[..n]).channel, es[n]) {
      var t := LastAnswers(es[..n], es[n], c);
      assert AnsweredAt(es, n, t, c);
    } else {
      CalledWasAnswered(es[..n], c);
      AnsweredEarlier(es, n, c);
    }
  }

  /** What is written and what waits after an event. */
  function Expected(c: Channel, e: Event, selected: bool, flowing: bool): (seq<Msg>, seq<Msg>) {
    match e
    case PublishEvent(m) => if selected && flowing then (c.sent + [m], c.pending) else (c.sent, c.pending + [m])
    case SelectOkEvent => (c.sent + c.pending, [])
    case FlowEvent(active) => if active && selected then (c.sent + c.pending, []) else (c.sent, c.pending)
    case ResetEvent => ([], c.pending + Messages(Ascending(c.store.byTag)))
    case _ => (c.sent, c.pending)
  }

  /** In every run a message is written when it is published if the channel is selected
      and the flow is on, and waits otherwise; all that wait are written, in order, when
      the channel is selected or the flow comes back; and after a reset what was not
      confirmed waits again. Nothing else writes. */
  lemma WrittenExactly(es: seq<Event>, e: Event)
    ensures var c' := Run(es + [e]).channel;
      (c'.sent, c'.pending) == Expected(Run(es).channel, e, Selected(es), Flowing(es))
  {
    RunSnoc(es, e);
    RunFollows(es);
    var c, x := Run(es).channel, Msg(0, "", false, []);
    match e
    case SelectOkEvent => PublishPendingKeeps(c.(ready := true), x);
    case FlowEvent(_) => PublishPendingKeeps(c.(flow := true), x);
    case _ =>
  }

  // ---- The order of publication ----

  /** One message was published before another. */
  predicate Before(published: seq<Msg>, x: Msg, y: Msg) {
    published != []
    && var n := |published| - 1;
       (published[n] == y && x in published[..n]) || Before(published[..n], x, y)
  }

  /** The messages of a store by tag, followed by a list, are in the order of their
      publication. */
  ghost predicate Ordered(m: map<Tag, Entry<Msg>>, ms: seq<Msg>, published: seq<Msg>) {
    && (forall t | t in m :: m[t].message in published)
    && (forall x | x in ms :: x in published)
    && (forall t, u | t in m && u in m && t < u :: Before(published, m[t].message, m[u].message))
    && (forall t, i | t in m && 0 <= i < |ms| :: Before(published, m[t].message, ms[i]))
    && (forall i, j | 0 <= i < j < |ms| :: Before(published, ms[i], ms[j]))
  }

  /** The messages in flight, followed by the pending ones, are. */
  ghost predicate InOrder(c: Channel, published: seq<Msg>) {
    Ordered(c.store.byTag, c.pending, published)
  }

  ghost predicate Distinct(ms: seq<Msg>) {
    forall i, j | 0 <= i < j < |ms| :: ms[i] != ms[j]
  }

  /** A reset that puts messages in flight behind pending ones. */
  predicate Reorders(c: Channel, e: Event) {
    e.ResetEvent? && c.store.byTag != map[] && c.pending != []
  }

  /** A channel that can publish has nothing pending. */
  predicate Drained(c: Channel) {
    c.ready && c.flow ==> c.pending == []
  }

  lemma BeforeMore(published: seq<Msg>, m: Msg, x: Msg, y: Msg)
    requires Before(published, x, y) || (x in published && y == m)
    ensures Before(published + [m], x, y)
  {
    assert (published + [m])[..|published|] == published;
  }

  lemma {:induction false} BeforeWithin(published: seq<Msg>, x: Msg, y: Msg)
    requires Before(published, x, y)
    ensures x in published && y in published
  {
    var n := |published| - 1;
    if !(published[n] == y && x in published[..n]) {
      BeforeWithin(published[..n], x, y);
    }
  }

  lemma {:induction false} NotBothWays(published: seq<Msg>, x: Msg, y: Msg)
    requires Distinct(published) && Before(published, x, y)
    ensures !Before(published, y, x)
  {
    var n := |published| - 1;
    var rest := published[..n];
    assert published[n] !in rest;
    if Before(rest, x, y) {
      BeforeWithin(rest, x, y);
      NotBothWays(rest, x, y);
    } else if Before(rest, y, x) {
      BeforeWithin(rest, y, x);
    }
  }

  /** The first of the list goes into the store behind all that is there. */
  lemma FirstStored(m: map<Tag, Entry<Msg>>, ms: seq<Msg>, published: seq<Msg>, tag: Tag, e: Entry<Msg>)
    requires Ordered(m, ms, published) && ms != [] && e.message == ms[0]
    requires forall t | t in m :: t < tag
    ensures Ordered(m[tag := e], ms[1..], published)
  {
    var m', rest := m[tag := e], ms[1..];
    forall t, i | t in m' && 0 <= i < |rest|
      ensures Before(published, m'[t].message, rest[i])
    {
      assert rest[i] == ms[i + 1];
    }
  }

  lemma {:induction false} PublishAllOrdered(c: Channel, ms: seq<Msg>, published: seq<Msg>)
    requires Inv(c) && Ordered(c.store.byTag, ms, published)
    ensures Ordered(c.ReadyToPublishAll(ms).store.byTag, [], published)
    decreases |ms|
  {
    if ms != [] {
      ReadyToPublishKeeps(c, ms[0]);
      FirstStored(c.store.byTag, ms, published, c.deliveryCounter, Entry(ms[0].guid, ms[0], 0));
      PublishAllOrdered(c.ReadyToPublish(ms[0]), ms[1..], published);
    }
  }

  lemma DrainInOrder(c: Channel, published: seq<Msg>)
    requires Inv(c) && InOrder(c, published)
    ensures InOrder(c.PublishPending(), published)
  {
    PublishAllOrdered(c.(pending := []), c.pending, published);
    PublishPendingKeeps(c, Msg(0, "", false, []));
  }

  lemma PublishedLast(m: map<Tag, Entry<Msg>>, ms: seq<Msg>, published: seq<Msg>, x: Msg)
    requires Ordered(m, ms, published)
    ensures Ordered(m, ms + [x], published + [x])
  {
    forall a, b | Before(published, a, b) || (a in published && b == x)
      ensures Before(published + [x], a, b)
    {
      BeforeMore(published, x, a, b);
    }
  }

  lemma PublishedInOrder(c: Channel, x: Msg, published: seq<Msg>)
    requires Inv(c) && InOrder(c, published) && Drained(c)
    ensures InOrder(c.Publish(x), published + [x])
  {
    PublishedLast(c.store.byTag, c.pending, published, x);
    if c.ready && c.flow {
      ReadyToPublishKeeps(c, x);
      FirstStored(c.store.byTag, [] + [x], published + [x], c.deliveryCounter, Entry(x.guid, x, 0));
      assert ([] + [x])[1..] == [];
    }
  }

  /** Taking messages out of the store leaves the others in order. */
  lemma TakenInOrder(c: Channel, multiple: bool, tag: Tag, published: seq<Msg>)
    requires InOrder(c, published)
    ensures InOrder(c.AckNack(multiple, tag), published)
  {
    var c' := c.AckNack(multiple, tag);
    assert c'.pending == c.pending;
    assert forall t | t in c'.store.byTag :: t in c.store.byTag && c'.store.byTag[t] == c.store.byTag[t];
  }

  /** The tag of the i-th message in a listing. */
  lemma Listed(m: map<Tag, Entry<Msg>>, i: nat)
    requires i < |Ascending(m)|
    ensures var t := Ascending(m)[i].0; t in m && m[t].message == Messages(Ascending(m))[i]
  {
    var l := Ascending(m);
    AscendingLists(m, l[i].0, l[i].1);
    assert l[i] in l;
  }

  lemma ListedOrdered(m: map<Tag, Entry<Msg>>, published: seq<Msg>)
    requires Ordered(m, [], published)
    ensures Ordered(map[], Messages(Ascending(m)), published)
  {
    var l := Ascending(m);
    AscendingOrdered(m);
    forall i | 0 <= i < |l|
      ensures l[i].0 in m && m[l[i].0].message == Messages(l)[i]
    {
      Listed(m, i);
    }
  }

  /** With messages in flight and pending, the first in flight was published before the
      first pending one and is resent after it. */
  lemma ResetSwaps(m: map<Tag, Entry<Msg>>, ms: seq<Msg>, published: seq<Msg>)
    requires Ordered(m, ms, published) && Distinct(published) && m != map[] && ms != []
    ensures !Ordered(map[], ms + Messages(Ascending(m)), published)
  {
    var t, all := Least(m.Keys), ms + Messages(Ascending(m));
    MessagesStep(m);
    var x, y := m[t].message, ms[0];
    assert all[0] == y && all[|ms|] == x;
    NotBothWays(published, x, y);
  }

  /** A reset keeps the order if and only if one of store and pending queue is empty. */
  lemma ResetInOrder(c: Channel, published: seq<Msg>)
    requires InOrder(c, published) && Distinct(published)
    ensures InOrder(c.Reset(), published) <==> c.store.byTag == map[] || c.pending == []
  {
    var m := c.store.byTag;
    assert c.Reset().store.byTag == map[] && c.Reset().pending == c.pending + Messages(Ascending(m));
    if m == map[] {
      assert Messages(Ascending(m)) == [] && c.Reset().pending == c.pending;
    } else if c.pending == [] {
      ListedOrdered(m, published);
      assert c.Reset().pending == Messages(Ascending(m));
    } else {
      ResetSwaps(m, c.pending, published);
    }
  }

  function PublishedBy(published: seq<Msg>, e: Event): seq<Msg> {
    if e.PublishEvent? then published + [e.msg] else published
  }

  lemma EventInOrder(c: Channel, e: Event, published: seq<Msg>)
    requires Inv(c) && InOrder(c, published) && Drained(c) && Distinct(published)
    ensures InOrder(Apply(c, e), PublishedBy(published, e)) <==> !Reorders(c, e)
  {
    match e
    case PublishEvent(m) => PublishedInOrder(c, m, published);
    case AckNackEvent(multiple, tag, _) => TakenInOrder(c, multiple, tag, published);
    case FlowEvent(active) =>
      if active && c.ready {
        DrainInOrder(c.(flow := true), published);
      }
    case SelectOkEvent => DrainInOrder(c.(ready := true), published);
    case ResetEvent => ResetInOrder(c, published);
    case _ =>
  }

  lemma EventDrains(c: Channel, e: Event)
    requires Inv(c) && Drained(c)
    ensures Drained(Apply(c, e))
  {
    var x := Msg(0, "", false, []);
    match e
    case FlowEvent(active) =>
      if active && c.ready {
        PublishPendingKeeps(c.(flow := true), x);
      }
    case SelectOkEvent => PublishPendingKeeps(c.(ready := true), x);
    case _ =>
  }

  lemma {:induction false} RunDrained(es: seq<Event>)
    ensures Inv(Run(es).channel) && Drained(Run(es).channel)
  {
    if es != [] {
      RunDrained(es[..|es| - 1]);
      EventDrains(Run(es[..|es| - 1]).channel, es[|es| - 1]);
      EventConserves(Run(es[..|es| - 1]).channel, es[|es| - 1], Msg(0, "", false, []));
    }
  }

  lemma RunPublishes(es: seq<Event>)
    requires es != []
    ensures var h, e := Run(es[..|es| - 1]), es[|es| - 1];
      Run(es).published == PublishedBy(h.published, e) && Run(es).channel == Apply(h.channel, e)
  {
  }

  ghost predicate OrderKept(es: seq<Event>) {
    InOrder(Run(es).channel, Run(es).published)
  }

  /** One more event keeps the order or is such a reset. */
  lemma StepOrderKept(es: seq<Event>)
    requires es != [] && OrderKept(es[..|es| - 1]) && Distinct(Run(es[..|es| - 1]).published)
    ensures OrderKept(es) <==> !Reorders(Run(es[..|es| - 1]).channel, es[|es| - 1])
  {
    var n := |es| - 1;
    RunPublishes(es);
    RunDrained(es[..n]);
    EventInOrder(Run(es[..n]).channel, es[n], Run(es[..n]).published);
  }

  /** After a run without such resets the messages are in order, and the first such
      reset is where they are not. */
  lemma {:induction false} InOrderUntilReset(es: seq<Event>)
    requires Distinct(Run(es).published)
    requires forall i | 0 <= i < |es| - 1 :: !Reorders(Run(es[..i]).channel, es[i])
    ensures es == [] ==> OrderKept(es)
    ensures es != [] ==> (OrderKept(es) <==> !Reorders(Run(es[..|es| - 1]).channel, es[|es| - 1]))
  {
    if es != [] {
      var n := |es| - 1;
      PrefixDistinct(es, n);
      forall i | 0 <= i < n
        ensures !Reorders(Run(es[..n][..i]).channel, es[..n][i])
      {
        assert es[..n][..i] == es[..i] && es[..n][i] == es[i];
      }
      InOrderUntilReset(es[..n]);
      if n > 0 {
        assert es[..n][..n - 1] == es[..n - 1] && es[..n][n - 1] == es[n - 1];
      }
      StepOrderKept(es);
    }
  }

  lemma {:induction false} PrefixPublished(es: seq<Event>, i: nat)
    requires i <= |es|
    ensures Run(es[..i]).published <= Run(es).published
  {
    if i == |es| {
      assert es[..i] == es;
    } else {
      PrefixPublished(es[..|es| - 1], i);
      assert es[..|es| - 1][..i] == es[..i];
      RunPublishes(es);
    }
  }

  lemma PrefixDistinct(es: seq<Event>, i: nat)
    requires i <= |es| && Distinct(Run(es).published)
    ensures Distinct(Run(es[..i]).published)
  {
    PrefixPublished(es, i);
  }

  lemma PrefixInOrder(es: seq<Event>, i: nat)
    requires i <= |es| && Distinct(Run(es).published)
    requires forall j | 0 <= j < |es| :: !Reorders(Run(es[..j]).channel, es[j])
    ensures OrderKept(es[..i])
  {
    PrefixDistinct(es, i);
    forall j | 0 <= j < i
      ensures !Reorders(Run(es[..i][..j]).channel, es[..i][j])
    {
      assert es[..i][..j] == es[..j] && es[..i][j] == es[j];
    }
    InOrderUntilReset(es[..i]);
  }

  lemma ResetBreaksOrder(es: seq<Event>, i: nat)
    requires i < |es| && Distinct(Run(es).published) && Reorders(Run(es[..i]).channel, es[i])
    ensures !OrderKept(es[..i]) || !OrderKept(es[..i + 1])
  {
    var first := es[..i + 1];
    PrefixDistinct(es, i);
    assert first[..|first| - 1] == es[..i] && first[|first| - 1] == es[i];
    if OrderKept(es[..i]) {
      StepOrderKept(first);
    }
  }

  /** Against any broker, with distinct messages, those in flight by tag followed by the
      pending ones are in the order of publication throughout a run if and only if no
      reset of the run finds messages both in flight and pending. */
  lemma AlwaysInOrderExactly(es: seq<Event>)
    requires Distinct(Run(es).published)
    ensures (forall i | 0 <= i <= |es| :: OrderKept(es[..i]))
       <==> (forall i | 0 <= i < |es| :: !Reorders(Run(es[..i]).channel, es[i]))
  {
    if forall i | 0 <= i < |es| :: !Reorders(Run(es[..i]).channel, es[i]) {
      forall i | 0 <= i <= |es|
        ensures OrderKept(es[..i])
      {
        PrefixInOrder(es, i);
      }
    } else {
      var i :| 0 <= i < |es| && Reorders(Run(es[..i]).channel, es[i]);
      ResetBreaksOrder(es, i);
    }
  }

  /** Resending after a reset does not keep the order of publication: a message
      published while the channel was closing goes out before an older one which
      was in flight. */
  lemma ResetReorders(older: Msg, newer: Msg)
    ensures Init().SelectOk().Publish(older).(ready := false).Publish(newer).Reset().SelectOk().sent == [newer, older]
  {
    var c1 := Init().SelectOk();
    assert c1 == Init().(ready := true);
    var c3 := c1.Publish(older).(ready := false).Publish(newer);
    assert c3.store.byTag == map[1 := Entry(older.guid, older, 0)];
    MessagesStep(c3.store.byTag);
    assert c3.store.byTag - {1} == map[];
    assert c3.Reset().pending == [newer, older];
    PublishPendingKeeps(c3.Reset().(ready := true), older);
  }
}
