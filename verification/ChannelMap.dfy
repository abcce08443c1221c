/**
 Channel ids and the three maps that hold a connection's channels.
 */
module ChannelMap {
  import opened Wrappers
  import opened MessageStore

  type Id = n: nat | n < 0x1_0000

  datatype Channel = Reserved | SendChannel(handle: nat) | ReceiveChannel(handle: nat)

  datatype Maps = Maps(channels: map<Id, Channel>, sends: map<Id, nat>, receives: map<Id, nat>)

  /** Each channel is listed once under its own kind and a reserved id under none. */
  ghost predicate InStep(m: Maps) {
    (forall id | id in m.sends :: id in m.channels && m.channels[id] == SendChannel(m.sends[id]))
    && (forall id | id in m.receives :: id in m.channels && m.channels[id] == ReceiveChannel(m.receives[id]))
    && (forall id | id in m.channels ::
          (m.channels[id].SendChannel? <==> id in m.sends) && (m.channels[id].ReceiveChannel? <==> id in m.receives))
  }

  /** No positive id is left. */
  predicate Full(channels: map<Id, Channel>) {
    forall id: Id | id > 0 :: id in channels
  }

  /** The lowest free positive id, or 0 when there is none. */
  ghost predicate Assignable(channels: map<Id, Channel>, id: Id) {
    if Full(channels) then id == 0
    else id > 0 && id !in channels && forall lower: Id | 0 < lower < id :: lower in channels
  }

  /** The id the walk finds. */
  function FreeId(channels: map<Id, Channel>, from: nat): (id: Id)
    requires 0 < from <= 0x1_0000
    requires forall lower: Id | 0 < lower < from :: lower in channels
    ensures Assignable(channels, id)
    decreases 0x1_0000 - from
  {
    if from == 0x1_0000 then 0
    else if from !in channels then from
    else FreeId(channels, from + 1)
  }

  lemma AssignableIsFree(channels: map<Id, Channel>, id: Id)
    requires Assignable(channels, id)
    ensures id == FreeId(channels, 1)
  {
    var free := FreeId(channels, 1);
    assert id > 0 && free > 0 ==> !(id < free) && !(free < id);
  }

  /** Walks the ids in ascending order; the 16-bit successor of 65535 is 0. */
  method LowestFree(channels: map<Id, Channel>) returns (lowest: Id)
    ensures Assignable(channels, lowest) && lowest == FreeId(channels, 1)
  {
    lowest := 1;
    var rest: set<nat> := channels.Keys;
    ghost var last := 0;
    var found := false;
    while rest != {} && !found
      invariant rest <= channels.Keys
      invariant 0 <= last < 0x1_0000 && lowest == (last + 1) % 0x1_0000
      invariant forall id: Id | 0 < id <= last :: id in channels && id !in rest
      invariant forall id | id in channels && id !in rest :: id <= last
      invariant forall id | id in rest :: id > last || id == 0 == last
      invariant found ==> forall id | id in rest :: lowest < id
      decreases |rest|, !found
    {
      var id := Least(rest);
      if lowest < id {
        found := true;
      } else {
        lowest := (id + 1) % 0x1_0000;
        rest := rest - {id};
        last := id;
      }
    }
    if last < 0xFFFF {
      assert lowest !in channels;
    }
    AssignableIsFree(channels, lowest);
  }

  class ConnectionChannels {
    var channels: map<Id, Channel>
    var sends: map<Id, nat>
    var receives: map<Id, nat>

    ghost function View(): Maps
      reads this
    {
      Maps(channels, sends, receives)
    }

    constructor ()
      ensures View() == Maps(map[], map[], map[])
    {
      channels, sends, receives := map[], map[], map[];
    }

    method AssignId() returns (id: Id)
      modifies this`channels
      ensures id == FreeId(old(channels), 1) && View() == Reserve(old(View()), id)
    {
      id := LowestFree(channels);
      channels := channels[id := Reserved];
    }

    method AssociateSend(id: Id, handle: nat)
      modifies this`channels, this`sends
      ensures View() == Associate(old(View()), id, SendChannel(handle))
    {
      sends := sends[id := handle];
      channels := channels[id := SendChannel(handle)];
    }

    method AssociateReceive(id: Id, handle: nat)
      modifies this`channels, this`receives
      ensures View() == Associate(old(View()), id, ReceiveChannel(handle))
    {
      receives := receives[id := handle];
      channels := channels[id := ReceiveChannel(handle)];
    }

    method RemoveChannel(id: Id)
      modifies this
      ensures View() == Remove(old(View()), id)
    {
      channels := channels - {id};
      sends := sends - {id};
      receives := receives - {id};
    }
  }

  function Reserve(m: Maps, id: Id): Maps {
    m.(channels := m.channels[id := Reserved])
  }

  function Associate(m: Maps, id: Id, c: Channel): Maps {
    match c
    case SendChannel(h) => m.(sends := m.sends[id := h], channels := m.channels[id := c])
    case ReceiveChannel(h) => m.(receives := m.receives[id := h], channels := m.channels[id := c])
    case Reserved => m
  }

  function Remove(m: Maps, id: Id): Maps {
    Maps(m.channels - {id}, m.sends - {id}, m.receives - {id})
  }

  /** Reserve an id and put the new channel under it. */
  function Create(m: Maps, id: Id, c: Channel): Maps {
    Associate(Reserve(m, id), id, c)
  }

  /** Id 0, given out when the others are used up, holds a channel of the other kind. */
  predicate Clashes(m: Maps, c: Channel) {
    Full(m.channels) && 0 in (if c.SendChannel? then m.receives else m.sends)
  }

  /** The maps stay in step except exactly when the new channel clashes with the one
      under id 0; it replaces a channel exactly when the ids are used up and id 0 is
      taken, by whichever kind. */
  lemma CreateInStep(m: Maps, id: Id, c: Channel)
    requires InStep(m) && Assignable(m.channels, id) && !c.Reserved?
    ensures InStep(Create(m, id, c)) <==> !Clashes(m, c)
    ensures id in m.channels <==> Full(m.channels) && 0 in m.channels
  {
    var other := if c.SendChannel? then m.receives else m.sends;
    if id in other {
      Clash(m, id, c);
    } else {
      Fits(m, id, c);
    }
  }

  lemma Clash(m: Maps, id: Id, c: Channel)
    requires !c.Reserved? && id in (if c.SendChannel? then m.receives else m.sends)
    ensures !InStep(Create(m, id, c))
  {
    var n := Create(m, id, c);
    assert id in n.channels && n.channels[id] == c;
  }

  lemma Fits(m: Maps, id: Id, c: Channel)
    requires InStep(m) && !c.Reserved? && id !in (if c.SendChannel? then m.receives else m.sends)
    ensures InStep(Create(m, id, c))
  {
    var n := Create(m, id, c);
    assert n.channels == m.channels[id := c];
  }

  lemma RemoveInStep(m: Maps, id: Id)
    requires InStep(m)
    ensures InStep(Remove(m, id))
  {
  }

  // ---- Every run ----

  datatype Event = CreateSend(handle: nat) | CreateReceive(handle: nat) | CleanUp(id: Id)

  function Step(m: Maps, e: Event): Maps {
    match e
    case CreateSend(h) => Create(m, FreeId(m.channels, 1), SendChannel(h))
    case CreateReceive(h) => Create(m, FreeId(m.channels, 1), ReceiveChannel(h))
    case CleanUp(id) => Remove(m, id)
  }

  function Run(es: seq<Event>): Maps {
    if es == [] then Maps(map[], map[], map[]) else Step(Run(es[..|es| - 1]), es[|es| - 1])
  }

  predicate ClashesAt(m: Maps, e: Event) {
    match e
    case CreateSend(h) => Clashes(m, SendChannel(h))
    case CreateReceive(h) => Clashes(m, ReceiveChannel(h))
    case CleanUp(_) => false
  }

  lemma StepInStep(m: Maps, e: Event)
    requires InStep(m)
    ensures InStep(Step(m, e)) <==> !ClashesAt(m, e)
  {
    match e
    case CreateSend(h) => CreateInStep(m, FreeId(m.channels, 1), SendChannel(h));
    case CreateReceive(h) => CreateInStep(m, FreeId(m.channels, 1), ReceiveChannel(h));
    case CleanUp(id) => RemoveInStep(m, id);
  }

  /** Before the first clash of a run the maps are in step, and at it they are not. */
  lemma {:induction false} InStepUntilClash(es: seq<Event>)
    requires forall i | 0 <= i < |es| - 1 :: !ClashesAt(Run(es[..i]), es[i])
    ensures es == [] ==> InStep(Run(es))
    ensures es != [] ==> (InStep(Run(es)) <==> !ClashesAt(Run(es[..|es| - 1]), es[|es| - 1]))
  {
    if es != [] {
      var n := |es| - 1;
      forall i | 0 <= i < n
        ensures !ClashesAt(Run(es[..n][..i]), es[..n][i])
      {
        assert es[..n][..i] == es[..i] && es[..n][i] == es[i];
      }
      InStepUntilClash(es[..n]);
      if n > 0 {
        assert es[..n][..n - 1] == es[..n - 1] && es[..n][n - 1] == es[n - 1];
      }
      StepInStep(Run(es[..n]), es[n]);
    }
  }

  /** The three maps are in step throughout a run if and only if no channel of the run
      clashes with the one under id 0. */
  lemma AlwaysInStepExactly(es: seq<Event>)
    ensures (forall i | 0 <= i <= |es| :: InStep(Run(es[..i])))
       <==> (forall i | 0 <= i < |es| :: !ClashesAt(Run(es[..i]), es[i]))
  {
    if forall i | 0 <= i < |es| :: !ClashesAt(Run(es[..i]), es[i]) {
      forall i | 0 <= i <= |es|
        ensures InStep(Run(es[..i]))
      {
        PrefixInStep(es, i);
      }
    } else {
      var i :| 0 <= i < |es| && ClashesAt(Run(es[..i]), es[i]);
      ClashBreaks(es, i);
    }
  }

  lemma ClashBreaks(es: seq<Event>, i: nat)
    requires i < |es| && ClashesAt(Run(es[..i]), es[i])
    ensures !InStep(Run(es[..i])) || !InStep(Run(es[..i + 1]))
  {
    var m := Run(es[..i]);
    assert es[..i + 1][..i] == es[..i] && es[..i + 1][i] == es[i];
    assert Run(es[..i + 1]) == Step(m, es[i]);
    if InStep(m) {
      StepInStep(m, es[i]);
    }
  }

  lemma PrefixInStep(es: seq<Event>, i: nat)
    requires i <= |es| && forall j | 0 <= j < |es| :: !ClashesAt(Run(es[..j]), es[j])
    ensures InStep(Run(es[..i]))
  {
    forall j | 0 <= j < i
      ensures !ClashesAt(Run(es[..i][..j]), es[..i][j])
    {
      assert es[..i][..j] == es[..j] && es[..i][j] == es[j];
    }
    InStepUntilClash(es[..i]);
  }

  /** The channel that was put under an id last, unless it was cleaned up since. */
  function Holder(es: seq<Event>, id: Id): Option<Channel> {
    if es == [] then None
    else
      var before, free := Holder(es[..|es| - 1], id), FreeId(Run(es[..|es| - 1]).channels, 1);
      match es[|es| - 1]
      case CreateSend(h) => if id == free then Some(SendChannel(h)) else before
      case CreateReceive(h) => if id == free then Some(ReceiveChannel(h)) else before
      case CleanUp(x) => if id == x then None else before
  }

  /** In every run an id is taken by exactly that channel, and is otherwise free in all
      three maps. */
  lemma {:induction false} HeldExactly(es: seq<Event>, id: Id)
    ensures var m := Run(es);
      match Holder(es, id)
      case Some(c) => id in m.channels && m.channels[id] == c && (id in m.sends || id in m.receives)
      case None => id !in m.channels && id !in m.sends && id !in m.receives
  {
    if es != [] {
      HeldExactly(es[..|es| - 1], id);
    }
  }

  // ---- Fewer channels than ids ----

  function Created(es: seq<Event>): nat {
    if es == [] then 0 else Created(es[..|es| - 1]) + if es[|es| - 1].CleanUp? then 0 else 1
  }

  lemma {:induction false} AtMostCreated(es: seq<Event>)
    ensures |Run(es).channels| <= Created(es)
  {
    if es != [] {
      var m, e := Run(es[..|es| - 1]), es[|es| - 1];
      AtMostCreated(es[..|es| - 1]);
      if e.CleanUp? {
        SubsetSize(Step(m, e).channels.Keys, m.channels.Keys);
      } else {
        var id := FreeId(m.channels, 1);
        assert Step(m, e).channels.Keys <= m.channels.Keys + {id};
        SubsetSize(Step(m, e).channels.Keys, m.channels.Keys + {id});
      }
    }
  }

  lemma {:induction false} SubsetSize(a: set<Id>, b: set<Id>)
    requires a <= b
    ensures |a| <= |b|
  {
    if a != {} {
      var x :| x in a;
      SubsetSize(a - {x}, b - {x});
    }
  }

  lemma {:induction false} RangeSize(ids: set<Id>, n: nat)
    requires n < 0x1_0000 && forall id: Id | 0 < id <= n :: id in ids
    ensures |ids| >= n
    decreases n
  {
    if n > 0 {
      RangeSize(ids - {n}, n - 1);
    }
  }

  /** So with fewer channels created than there are positive ids, no id is given out
      twice and the maps are in step. */
  lemma FewChannelsInStep(es: seq<Event>)
    requires Created(es) < 0xFFFF
    ensures InStep(Run(es)) && !Full(Run(es).channels)
  {
    AtMostCreated(es);
    if Full(Run(es).channels) {
      RangeSize(Run(es).channels.Keys, 0xFFFF);
    }
    FewNeverClash(es);
  }

  lemma {:induction false} FewNeverClash(es: seq<Event>)
    requires Created(es) < 0xFFFF
    ensures InStep(Run(es))
  {
    if es != [] {
      var n := |es| - 1;
      FewNeverClash(es[..n]);
      AtMostCreated(es[..n]);
      if Full(Run(es[..n]).channels) {
        RangeSize(Run(es[..n]).channels.Keys, 0xFFFF);
      }
      StepInStep(Run(es[..n]), es[n]);
    }
  }

  // ---- More channels than ids ----

  function Sends(n: nat): seq<Event> {
    seq(n, _ => CreateSend(0))
  }

  /** The first n channels take the ids from 1 to n. */
  lemma {:induction false} SendsTake(n: nat)
    requires n <= 0xFFFF
    ensures forall id: Id :: id in Run(Sends(n)).channels <==> 0 < id <= n
    ensures Run(Sends(n)).sends.Keys == Run(Sends(n)).channels.Keys
  {
    if n > 0 {
      SendsTake(n - 1);
      assert Sends(n)[..n - 1] == Sends(n - 1);
      NextIsFree(Run(Sends(n - 1)).channels, n);
    }
  }

  lemma NextIsFree(channels: map<Id, Channel>, n: nat)
    requires 0 < n <= 0xFFFF && forall id: Id :: id in channels <==> 0 < id < n
    ensures FreeId(channels, 1) == n
  {
    assert n !in channels;
    AssignableIsFree(channels, n);
  }

  /** With 65536 send channels a receive channel clashes with the one under id 0. */
  lemma ClashReached()
    ensures ClashesAt(Run(Sends(0xFFFF) + [CreateSend(0)]), CreateReceive(0))
    ensures !InStep(Run(Sends(0xFFFF) + [CreateSend(0)] + [CreateReceive(0)]))
  {
    var es := Sends(0xFFFF);
    var all := es + [CreateSend(0)];
    var m := Run(es);
    SendsTake(0xFFFF);
    assert Full(m.channels);
    assert all[..|es|] == es;
    assert Run(all) == Create(m, 0, SendChannel(0));
    assert (all + [CreateReceive(0)])[..|all|] == all;
    Clash(Run(all), 0, ReceiveChannel(0));
    assert FreeId(Run(all).channels, 1) == 0;
  }
}
