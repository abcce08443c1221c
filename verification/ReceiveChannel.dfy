/**
 The consumer state machine of a receive channel: starting, pausing, resuming
 and cancelling a consumer while the channel is opened, closed and reset.
 */
module ReceiveChannel {
  import opened Wrappers

  datatype ChannelState =
    | CLOSED | CHANNEL_OPEN_SENT | DECLARING_TOPOLOGY | AWAITING_REPLY | READY | CHANNEL_CLOSE_SENT

  datatype ConsumerState =
    | NOT_CONSUMING | STARTING | CONSUMING | PAUSING | PAUSED | CANCELLING | CANCELLED

  /** What the channel asks of the broker. */
  datatype Request = BasicQoS | BasicConsume(tag: nat) | BasicCancel(tag: nat) | ChannelClose

  datatype Reply = QoSOk | ConsumeOk(tag: nat) | CancelOk(tag: nat) | CancelledByBroker(tag: nat)

  datatype ConsumerValue = ConsumerValue(state: ConsumerState, tag: nat)

  /** The channel as a value. `resumePending` and `cancelPending` stand for the
      two pending futures. */
  datatype Channel = Channel(
    state: ChannelState,
    consumer: Option<ConsumerValue>,
    pausedOnOpen: bool,
    resumePending: bool,
    cancelPending: bool,
    permanentlyClosing: bool)
  {
    predicate Is(s: ConsumerState) {
      consumer.Some? && consumer.value.state == s
    }

    predicate IsTag(tag: nat) {
      consumer.Some? && consumer.value.tag == tag
    }

    /** A cancel, as opposed to a pause, is in flight. */
    predicate CancelInFlight() {
      Is(CANCELLING) || Is(CANCELLED)
    }

    function To(s: ConsumerState): Channel
      requires consumer.Some?
    {
      this.(consumer := Some(consumer.value.(state := s)))
    }

    /** Basic methods can be exchanged with the broker. */
    predicate CanWrite() {
      state == READY || state == AWAITING_REPLY
    }
  }

  type Effect = (Channel, seq<Request>)

  function Init(pausedOnOpen: bool): Channel {
    Channel(CLOSED, None, pausedOnOpen, false, false, false)
  }

  /** Sending Basic.Consume for a consumer which has nothing in flight. */
  function Start(c: Channel): Effect
    requires c.consumer.Some?
  {
    if c.Is(NOT_CONSUMING) || c.Is(PAUSED) then
      (c.To(STARTING).(state := AWAITING_REPLY), [BasicConsume(c.consumer.value.tag)])
    else (c, [])
  }

  function ConsumeEffect(c: Channel, tag: nat): Effect
    requires c.consumer.None?
  {
    var c1 := c.(consumer := Some(ConsumerValue(if c.pausedOnOpen then PAUSED else NOT_CONSUMING, tag)));
    if c.pausedOnOpen || !c.CanWrite() then (c1, []) else Start(c1)
  }

  function PauseEffect(c: Channel): Effect {
    if c.permanentlyClosing || c.CancelInFlight() then (c, [])
    else
      var c1 := c.(pausedOnOpen := true, resumePending := false);
      if c.cancelPending || c.consumer.None? then (c1, [])
      else match c.consumer.value.state
        case NOT_CONSUMING => (c1.To(PAUSED), [])
        case STARTING => (c1.To(PAUSING).(cancelPending := true), [])
        case CONSUMING =>
          (c1.To(PAUSING).(cancelPending := true, state := AWAITING_REPLY), [BasicCancel(c.consumer.value.tag)])
        case _ => (c1, [])
  }

  function ResumeEffect(c: Channel): Effect {
    if c.permanentlyClosing || c.CancelInFlight() || c.resumePending then (c, [])
    else if c.consumer.None? then (c.(pausedOnOpen := false), [])
    else match c.consumer.value.state
      case NOT_CONSUMING | PAUSED =>
        var c1 := c.(pausedOnOpen := false, resumePending := true);
        if c.CanWrite() then Start(c1) else (c1.To(NOT_CONSUMING), [])
      case PAUSING => (c.(pausedOnOpen := false, resumePending := true), [])
      case _ => (c, [])
  }

  function CancelEffect(c: Channel): Effect {
    var c1 := c.(resumePending := false);
    if c.consumer.None? then (c1, [])
    else match c.consumer.value.state
      case PAUSING => (c1.To(CANCELLING).(cancelPending := true), [])
      case CANCELLING => (c1, [])
      case STARTING => (c1.To(CANCELLING).(cancelPending := true), [])
      case CONSUMING =>
        (c1.To(CANCELLING).(cancelPending := true, state := AWAITING_REPLY), [BasicCancel(c.consumer.value.tag)])
      case _ => (c1.(consumer := None), [])
  }

  function QoSOkEffect(c: Channel): Effect {
    if c.consumer.None? then (c.(state := READY), [])
    else if c.Is(PAUSED) || (c.pausedOnOpen && c.Is(NOT_CONSUMING)) then (c.To(PAUSED).(state := READY), [])
    else Start(c)
  }

  function ConsumeOkEffect(c: Channel): Effect
    requires c.consumer.Some?
  {
    match c.consumer.value.state
    case STARTING | CONSUMING => (c.To(CONSUMING).(resumePending := false, state := READY), [])
    case CANCELLING | PAUSING => (c.(state := AWAITING_REPLY), [BasicCancel(c.consumer.value.tag)])
    case _ => (c, [])
  }

  function CancelOkEffect(c: Channel): Effect {
    if c.Is(PAUSING) || c.Is(PAUSED) then
      var c1 := c.To(PAUSED).(cancelPending := false, state := READY);
      if c.pausedOnOpen then (c1.(resumePending := false), []) else Start(c1)
    else (c.(consumer := None, resumePending := false, cancelPending := false, state := READY), [])
  }

  function ReplyEffect(c: Channel, r: Reply): Effect {
    if r.QoSOk? then QoSOkEffect(c)
    else if r.CancelledByBroker? || !c.IsTag(r.tag) then
      (c.(state := if r.ConsumeOk? && c.Is(CONSUMING) then READY else CHANNEL_CLOSE_SENT), [ChannelClose])
    else if r.ConsumeOk? then ConsumeOkEffect(c)
    else CancelOkEffect(c)
  }

  function ResetEffect(c: Channel): Channel {
    var c1 := c.(state := CLOSED, resumePending := false, cancelPending := false);
    if c.consumer.None? then c1
    else match c.consumer.value.state
      case PAUSED => c1.(pausedOnOpen := true)
      case CANCELLING | CANCELLED => c1.(consumer := None)
      case _ => c1.To(NOT_CONSUMING)
  }

  /** What holds of the two futures, the flag and the consumer at any time. */
  ghost predicate Consistent(c: Channel) {
    && (c.cancelPending <==> c.Is(PAUSING) || c.Is(CANCELLING))
    && (c.resumePending ==> !c.pausedOnOpen && (c.Is(NOT_CONSUMING) || c.Is(STARTING) || c.Is(PAUSING)))
    && (c.Is(STARTING) || c.Is(CONSUMING) ==> !c.pausedOnOpen)
    && (c.Is(PAUSED) ==> c.pausedOnOpen)
    && !c.Is(CANCELLED)
  }

  // ---- The channel as it is implemented ----

  class Consumer {
    var state: ConsumerState
    const tag: nat

    function View(): ConsumerValue
      reads this
    {
      ConsumerValue(state, tag)
    }

    constructor (tag: nat, channelPausedOnOpen: bool)
      ensures View() == ConsumerValue(if channelPausedOnOpen then PAUSED else NOT_CONSUMING, tag)
    {
      this.tag := tag;
      state := if channelPausedOnOpen then PAUSED else NOT_CONSUMING;
    }

    predicate IsStarted() reads this { state != NOT_CONSUMING }
    predicate ShouldRestart() reads this { state != CANCELLING && state != CANCELLED }
    predicate CanPause() reads this { state == NOT_CONSUMING || state == STARTING || state == CONSUMING }

    method Consume() returns (sends: seq<Request>)
      modifies this
      ensures old(state) == NOT_CONSUMING || old(state) == PAUSED ==> state == STARTING && sends == [BasicConsume(tag)]
      ensures old(state) != NOT_CONSUMING && old(state) != PAUSED ==> state == old(state) && sends == []
    {
      if state != NOT_CONSUMING && state != PAUSED {
        return [];
      }
      state := STARTING;
      return [BasicConsume(tag)];
    }

    method ConsumeOk() returns (sends: seq<Request>)
      modifies this
      ensures state == if old(state) == STARTING then CONSUMING else old(state)
      ensures sends == if old(state) == CANCELLING || old(state) == PAUSING then [BasicCancel(tag)] else []
    {
      sends := [];
      if state == STARTING {
        state := CONSUMING;
      } else if state == CANCELLING {
        sends := [BasicCancel(tag)];
      } else if state == PAUSING {
        sends := [BasicCancel(tag)];
      }
    }

    method Cancel(pause: bool) returns (sends: seq<Request>)
      modifies this
      ensures pause && old(state) == NOT_CONSUMING ==> state == PAUSED
      ensures !(pause && old(state) == NOT_CONSUMING) ==> state == if pause then PAUSING else CANCELLING
      ensures sends == if old(state) == CONSUMING then [BasicCancel(tag)] else []
    {
      sends := [];
      if !pause && state == PAUSING {
        state := CANCELLING;
      }
      if pause && state == NOT_CONSUMING {
        state := PAUSED;
        return;
      }
      if state != CONSUMING {
        state := if pause then PAUSING else CANCELLING;
        return;
      }
      sends := [BasicCancel(tag)];
      state := if pause then PAUSING else CANCELLING;
    }

    method CancelOk()
      modifies this
      ensures state == match old(state)
                       case CANCELLING => CANCELLED
                       case PAUSING => PAUSED
                       case other => other
    {
      match state
      case CANCELLING => state := CANCELLED;
      case PAUSING => state := PAUSED;
      case _ =>
    }

    method HandleCancelAfterPause()
      modifies this
      ensures state == match old(state)
                       case PAUSING => CANCELLING
                       case PAUSED => CANCELLED
                       case other => other
    {
      match state
      case PAUSING => state := CANCELLING;
      case PAUSED => state := CANCELLED;
      case _ =>
    }

    method Reset()
      modifies this
      ensures state == if old(ShouldRestart()) then NOT_CONSUMING else old(state)
    {
      if ShouldRestart() {
        state := NOT_CONSUMING;
      }
    }
  }

  class ReceiveChannel {
    var state: ChannelState
    var consumer: Consumer?
    var channelPausedOnOpen: bool
    var consumeFuture: bool
    var cancelFuture: bool
    var permanentlyClosing: bool

    function View(): Channel
      reads this, consumer
    {
      Channel(state, if consumer == null then None else Some(consumer.View()),
              channelPausedOnOpen, consumeFuture, cancelFuture, permanentlyClosing)
    }

    constructor (channelPausedOnOpen: bool)
      ensures View() == Init(channelPausedOnOpen) && consumer == null
    {
      state, consumer, this.channelPausedOnOpen := CLOSED, null, channelPausedOnOpen;
      consumeFuture, cancelFuture, permanentlyClosing := false, false, false;
    }

    method RestartConsumers() returns (sends: seq<Request>)
      requires consumer != null
      modifies this, consumer
      ensures (View(), sends) == Start(old(View()))
      ensures consumer == old(consumer)
    {
      sends := consumer.Consume();
      if sends != [] {
        state := AWAITING_REPLY;
      }
    }

    method Consume(tag: nat) returns (sends: seq<Request>)
      requires consumer == null
      modifies this
      ensures (View(), sends) == ConsumeEffect(old(View()), tag)
      ensures fresh(consumer)
    {
      consumer := new Consumer(tag, channelPausedOnOpen);
      if consumer.state == PAUSED {
        return [];
      }
      sends := [];
      if state == READY || state == AWAITING_REPLY {
        sends := RestartConsumers();
      }
    }

    method Resume() returns (sends: seq<Request>)
      requires Consistent(View())
      modifies this, consumer
      ensures (View(), sends) == ResumeEffect(old(View()))
      ensures consumer == old(consumer)
    {
      sends := [];
      if permanentlyClosing {
        return;
      }
      if consumer != null && !consumer.ShouldRestart() {
        return;
      }
      if consumeFuture {
        return;
      }
      if consumer == null {
        channelPausedOnOpen := false;
        return;
      }
      if consumer.state == CONSUMING || consumer.state == STARTING {
        return;
      }
      channelPausedOnOpen := false;
      consumeFuture := true;
      if consumer.state == PAUSED {
        if state == READY || state == AWAITING_REPLY {
          sends := RestartConsumers();
        } else {
          consumer.Reset();
        }
      } else if consumer.state == NOT_CONSUMING && (state == READY || state == AWAITING_REPLY) {
        sends := RestartConsumers();
      }
    }

    method Cancel() returns (sends: seq<Request>)
      requires Consistent(View())
      modifies this, consumer
      ensures (View(), sends) == CancelEffect(old(View()))
      ensures consumer == old(consumer) || consumer == null
    {
      consumeFuture := false;
      sends := [];
      if cancelFuture {
        if consumer.state == PAUSING {
          consumer.HandleCancelAfterPause();
        }
        return;
      }
      if consumer == null {
        return;
      }
      if consumer.state == PAUSED {
        consumer.HandleCancelAfterPause();
      } else if consumer.IsStarted() {
        cancelFuture := true;
        sends := consumer.Cancel(false);
        if sends != [] {
          state := AWAITING_REPLY;
        }
        return;
      }
      consumer := null;
    }

    method Pause() returns (sends: seq<Request>)
      requires Consistent(View())
      modifies this, consumer
      ensures (View(), sends) == PauseEffect(old(View()))
      ensures consumer == old(consumer)
    {
      sends := [];
      if permanentlyClosing {
        return;
      }
      if consumer != null && !consumer.ShouldRestart() {
        return;
      }
      channelPausedOnOpen := true;
      consumeFuture := false;
      if cancelFuture {
        return;
      }
      if consumer == null {
        return;
      }
      if consumer.CanPause() {
        sends := consumer.Cancel(true);
        if consumer.state == PAUSED {
          return;
        }
        cancelFuture := true;
        if sends != [] {
          state := AWAITING_REPLY;
        }
      }
    }

    method ProcessBasicMethod(r: Reply) returns (sends: seq<Request>)
      requires Consistent(View())
      modifies this, consumer
      ensures (View(), sends) == ReplyEffect(old(View()), r)
      ensures consumer == old(consumer) || consumer == null
    {
      sends := [];
      if r.QoSOk? {
        sends := ProcessQoSOk();
      } else if consumer != null && consumer.tag == r.tag && !r.CancelledByBroker? {
        if r.ConsumeOk? {
          sends := ProcessConsumeOk();
        } else {
          sends := ProcessCancelOk();
        }
      } else {
        state, sends := CHANNEL_CLOSE_SENT, [ChannelClose];
        if r.ConsumeOk? && consumer != null && consumer.state == CONSUMING {
          state := READY;
        }
      }
    }

    method ProcessQoSOk() returns (sends: seq<Request>)
      requires Consistent(View())
      modifies this, consumer
      ensures (View(), sends) == QoSOkEffect(old(View()))
      ensures consumer == old(consumer)
    {
      sends := [];
      if consumer == null {
        state := READY;
        return;
      }
      if channelPausedOnOpen && consumer.state == NOT_CONSUMING {
        consumer.state := PAUSED;
      }
      if consumer.state == PAUSED {
        state := READY;
      } else if consumer.state == NOT_CONSUMING {
        sends := RestartConsumers();
      }
    }

    method ProcessConsumeOk() returns (sends: seq<Request>)
      requires consumer != null && Consistent(View())
      modifies this, consumer
      ensures (View(), sends) == ConsumeOkEffect(old(View()))
      ensures consumer == old(consumer)
    {
      sends := consumer.ConsumeOk();
      if sends != [] {
        state := AWAITING_REPLY;
      }
      if consumeFuture && consumer.state == CONSUMING {
        consumeFuture := false;
      }
      if state != READY && consumer.state == CONSUMING {
        state := READY;
      }
    }

    method ProcessCancelOk() returns (sends: seq<Request>)
      requires consumer != null && Consistent(View())
      modifies this, consumer
      ensures (View(), sends) == CancelOkEffect(old(View()))
      ensures consumer == old(consumer) || consumer == null
    {
      sends := [];
      consumer.CancelOk();
      var resumeRequested := consumer.state == PAUSED && !channelPausedOnOpen;
      if consumer.state != PAUSED {
        consumer := null;
      }
      if consumeFuture && !resumeRequested {
        consumeFuture := false;
      }
      cancelFuture := false;
      state := READY;
      if resumeRequested {
        sends := RestartConsumers();
      }
    }

    method OnReset()
      requires Consistent(View())
      modifies this, consumer
      ensures View() == ResetEffect(old(View()))
      ensures consumer == old(consumer) || consumer == null
    {
      state := CLOSED;
      if consumer != null {
        if consumer.state == PAUSED {
          channelPausedOnOpen := true;
        } else if consumer.ShouldRestart() {
          consumer.Reset();
        } else {
          consumer := null;
        }
      }
      consumeFuture := false;
      cancelFuture := false;
    }
  }

  // ---- Every run, against an arbitrary broker ----

  datatype Event =
    | CallConsume(tag: nat)
    | CallPause
    | CallResume
    | CallCancel
    | Receive(reply: Reply)
    | Open
    | OpenOk
    | TopologyDeclared
    | LocalClose
    | RemoteClose
    | GracefulClose
    | Reset

  predicate Enabled(c: Channel, e: Event) {
    match e
    case CallConsume(_) => c.consumer.None?
    case Receive(_) => c.state != CLOSED
    case Open => c.state == CLOSED && !c.permanentlyClosing
    case OpenOk => c.state == CHANNEL_OPEN_SENT
    case TopologyDeclared => c.state == DECLARING_TOPOLOGY
    case _ => true
  }

  function Step(c: Channel, e: Event): Effect {
    if !Enabled(c, e) then (c, [])
    else match e
      case CallConsume(tag) => ConsumeEffect(c, tag)
      case CallPause => PauseEffect(c)
      case CallResume => ResumeEffect(c)
      case CallCancel => CancelEffect(c)
      case Receive(r) => ReplyEffect(c, r)
      case Open => (c.(state := CHANNEL_OPEN_SENT), [])
      case OpenOk => (c.(state := DECLARING_TOPOLOGY), [])
      case TopologyDeclared => (c.(state := AWAITING_REPLY), [BasicQoS])
      case LocalClose => (c.(state := CHANNEL_CLOSE_SENT), [ChannelClose])
      case RemoteClose => (c.(state := CLOSED), [])
      case GracefulClose =>
        if c.state == CLOSED || c.state == CHANNEL_CLOSE_SENT then (c.(permanentlyClosing := true), [])
        else (c.(permanentlyClosing := true, state := CHANNEL_CLOSE_SENT), [ChannelClose])
      case Reset => (ResetEffect(c), [])
  }

  function Run(pausedOnOpen: bool, es: seq<Event>): Channel {
    if es == [] then Init(pausedOnOpen) else Step(Run(pausedOnOpen, es[..|es| - 1]), es[|es| - 1]).0
  }

  lemma ReplyConsistent(c: Channel, r: Reply)
    requires Consistent(c)
    ensures Consistent(ReplyEffect(c, r).0)
  {
    if r.QoSOk? {
      assert Consistent(QoSOkEffect(c).0);
    } else if c.consumer.Some? {
      assert Consistent(ConsumeOkEffect(c).0);
      assert Consistent(CancelOkEffect(c).0);
    }
  }

  lemma CallConsistent(c: Channel, e: Event)
    requires Consistent(c) && Enabled(c, e)
    requires e.CallConsume? || e.CallPause? || e.CallResume? || e.CallCancel?
    ensures Consistent(Step(c, e).0)
  {
    match e
    case CallConsume(tag) => assert Consistent(ConsumeEffect(c, tag).0);
    case CallPause => assert Consistent(PauseEffect(c).0);
    case CallResume => assert Consistent(ResumeEffect(c).0);
    case CallCancel => assert Consistent(CancelEffect(c).0);
  }

  lemma StepConsistent(c: Channel, e: Event)
    requires Consistent(c)
    ensures Consistent(Step(c, e).0)
  {
    if Enabled(c, e) {
      match e
      case Receive(r) => ReplyConsistent(c, r);
      case CallConsume(_) => CallConsistent(c, e);
      case CallPause => CallConsistent(c, e);
      case CallResume => CallConsistent(c, e);
      case CallCancel => CallConsistent(c, e);
      case Reset => assert Consistent(ResetEffect(c));
      case _ =>
    }
  }

  /** Whatever the broker sends and whenever, the futures, the pause flag and the
      consumer agree with each other. */
  lemma {:induction false} AlwaysConsistent(pausedOnOpen: bool, es: seq<Event>)
    ensures Consistent(Run(pausedOnOpen, es))
  {
    if es != [] {
      AlwaysConsistent(pausedOnOpen, es[..|es| - 1]);
      StepConsistent(Run(pausedOnOpen, es[..|es| - 1]), es[|es| - 1]);
    }
  }

  /** A consume-ok, cancel or cancel-ok for an unknown consumer makes the channel ask to
      be closed, and leaves it waiting for that except for a consume-ok while its own
      consumer is consuming: then it goes on as ready. */
  lemma UnknownTagCloses(c: Channel, r: Reply)
    requires !r.QoSOk? && !c.IsTag(r.tag)
    ensures ReplyEffect(c, r).0.state == CHANNEL_CLOSE_SENT <==> !(r.ConsumeOk? && c.Is(CONSUMING))
    ensures ReplyEffect(c, r).0.consumer == c.consumer && ReplyEffect(c, r).1 == [ChannelClose]
  {
  }

  /** A reply makes a channel that has asked to be closed ready again. */
  predicate Revives(c: Channel, r: Reply) {
    match r
    case QoSOk => c.consumer.None? || c.Is(PAUSED) || (c.Is(NOT_CONSUMING) && c.pausedOnOpen)
    case ConsumeOk(tag) => c.Is(CONSUMING) || (c.IsTag(tag) && c.Is(STARTING))
    case CancelOk(tag) => c.IsTag(tag) && !(c.Is(PAUSING) && !c.pausedOnOpen)
    case CancelledByBroker(_) => false
  }

  /** A reply makes it send another consume or cancel and wait for the answer. */
  predicate Restarts(c: Channel, r: Reply) {
    match r
    case QoSOk => c.Is(NOT_CONSUMING) && !c.pausedOnOpen
    case ConsumeOk(tag) => c.IsTag(tag) && (c.Is(PAUSING) || c.Is(CANCELLING))
    case CancelOk(tag) => c.IsTag(tag) && c.Is(PAUSING) && !c.pausedOnOpen
    case CancelledByBroker(_) => false
  }

  /** Exactly these replies bring a channel that has asked to be closed back to a state
      in which it writes. */
  lemma ClosingChannelRevived(c: Channel, r: Reply)
    requires Consistent(c) && c.state == CHANNEL_CLOSE_SENT
    ensures ReplyEffect(c, r).0.state == READY <==> Revives(c, r)
    ensures ReplyEffect(c, r).0.state == AWAITING_REPLY <==> Restarts(c, r)
    ensures ReplyEffect(c, r).0.state == CHANNEL_CLOSE_SENT <==> !Revives(c, r) && !Restarts(c, r)
  {
  }

  /** Whatever the broker sends and whenever, the channel comes to wait for a close
      only by asking for it, is closed or waits for that after any close, and has closed
      for good if and only if that was asked for. */
  lemma {:induction false} ClosesAsAsked(pausedOnOpen: bool, es: seq<Event>)
    ensures Run(pausedOnOpen, es).permanentlyClosing <==> GracefulClose in es
    ensures es != [] ==> var c, e := Run(pausedOnOpen, es[..|es| - 1]), es[|es| - 1];
      && (Run(pausedOnOpen, es).state == CHANNEL_CLOSE_SENT && c.state != CHANNEL_CLOSE_SENT
          ==> Step(c, e).1 == [ChannelClose])
      && (e.LocalClose? || e.GracefulClose? || e.RemoteClose?
          ==> Run(pausedOnOpen, es).state == CLOSED || Run(pausedOnOpen, es).state == CHANNEL_CLOSE_SENT)
  {
    if es != [] {
      var n := |es| - 1;
      ClosesAsAsked(pausedOnOpen, es[..n]);
      assert es == es[..n] + [es[n]];
      StepCloses(Run(pausedOnOpen, es[..n]), es[n]);
    }
  }

  lemma ReplyCloses(c: Channel, r: Reply)
    ensures ReplyEffect(c, r).0.permanentlyClosing == c.permanentlyClosing
    ensures ReplyEffect(c, r).0.state == CHANNEL_CLOSE_SENT && c.state != CHANNEL_CLOSE_SENT
      ==> ReplyEffect(c, r).1 == [ChannelClose]
  {
  }

  lemma CallCloses(c: Channel, e: Event)
    requires Enabled(c, e) && (e.CallConsume? || e.CallPause? || e.CallResume? || e.CallCancel?)
    ensures Step(c, e).0.permanentlyClosing == c.permanentlyClosing
    ensures Step(c, e).0.state == c.state || Step(c, e).0.state == AWAITING_REPLY
  {
  }

  lemma StepCloses(c: Channel, e: Event)
    ensures Step(c, e).0.permanentlyClosing <==> c.permanentlyClosing || e.GracefulClose?
    ensures Step(c, e).0.state == CHANNEL_CLOSE_SENT && c.state != CHANNEL_CLOSE_SENT ==> Step(c, e).1 == [ChannelClose]
    ensures e.LocalClose? || e.GracefulClose? || e.RemoteClose? ==>
      Step(c, e).0.state == CLOSED || Step(c, e).0.state == CHANNEL_CLOSE_SENT
  {
    if Enabled(c, e) {
      match e
      case Receive(r) => ReplyCloses(c, r);
      case CallConsume(_) => CallCloses(c, e);
      case CallPause => CallCloses(c, e);
      case CallResume => CallCloses(c, e);
      case CallCancel => CallCloses(c, e);
      case _ =>
    }
  }

  lemma RunSnoc(pausedOnOpen: bool, es: seq<Event>, e: Event)
    ensures Run(pausedOnOpen, es + [e]) == Step(Run(pausedOnOpen, es), e).0
  {
    assert (es + [e])[..|es|] == es;
  }

  /** A run that brings a consumer up. */
  lemma ConsumerUp(tag: nat)
    ensures var es := [CallConsume(tag), Open, OpenOk, TopologyDeclared] + [Receive(QoSOk)] + [Receive(ConsumeOk(tag))];
      Run(false, es).state == READY && Run(false, es).consumer == Some(ConsumerValue(CONSUMING, tag))
  {
    var c := Init(false).(consumer := Some(ConsumerValue(NOT_CONSUMING, tag)));
    var es := [CallConsume(tag), Open, OpenOk, TopologyDeclared];
    assert es == [] + [CallConsume(tag)] + [Open] + [OpenOk] + [TopologyDeclared];
    RunSnoc(false, [], CallConsume(tag));
    RunSnoc(false, [] + [CallConsume(tag)], Open);
    RunSnoc(false, [] + [CallConsume(tag)] + [Open], OpenOk);
    RunSnoc(false, [] + [CallConsume(tag)] + [Open] + [OpenOk], TopologyDeclared);
    assert Run(false, es) == c.(state := AWAITING_REPLY);
    RunSnoc(false, es, Receive(QoSOk));
    assert Run(false, es + [Receive(QoSOk)]) == c.To(STARTING).(state := AWAITING_REPLY);
    RunSnoc(false, es + [Receive(QoSOk)], Receive(ConsumeOk(tag)));
  }

  /** A run in which a channel asks to be closed and goes on as ready. */
  lemma UnknownTagLeavesReady(tag: nat)
    ensures var es := [CallConsume(tag), Open, OpenOk, TopologyDeclared] + [Receive(QoSOk)] + [Receive(ConsumeOk(tag))];
      var last := Receive(ConsumeOk(tag + 1));
      Step(Run(false, es), last).1 == [ChannelClose] && Run(false, es + [last]).state == READY
  {
    var es := [CallConsume(tag), Open, OpenOk, TopologyDeclared] + [Receive(QoSOk)] + [Receive(ConsumeOk(tag))];
    ConsumerUp(tag);
    RunSnoc(false, es, Receive(ConsumeOk(tag + 1)));
  }

  // ---- Every run, against a broker which answers in order ----

  /** The channel, the requests the broker has not answered, the consume and
      cancel requests sent in this lifetime, whether the topology was declared in
      this lifetime, and what the last accepted pause or resume asked for. */
  datatype System = System(
    channel: Channel,
    unanswered: seq<Request>,
    log: seq<Request>,
    declared: bool,
    wantPaused: bool)

  datatype SystemEvent =
    | Local(event: Event)
    | BrokerAnswers

  function AnswerTo(r: Request): Reply
    requires !r.ChannelClose?
  {
    match r
    case BasicQoS => QoSOk
    case BasicConsume(tag) => ConsumeOk(tag)
    case BasicCancel(tag) => CancelOk(tag)
  }

  predicate SystemEnabled(s: System, e: SystemEvent) {
    match e
    case BrokerAnswers => s.unanswered != [] && !s.unanswered[0].ChannelClose? && s.channel.state != CLOSED
    case Local(ev) =>
      && Enabled(s.channel, ev)
      && !ev.Receive?
      && (ev.Open? || ev.OpenOk? || ev.TopologyDeclared? ==> !s.declared)
  }

  /** A close comes alone and is not answered by a basic method. */
  function Basic(sends: seq<Request>): seq<Request> {
    if sends == [ChannelClose] then [] else sends
  }

  function Toggles(rs: seq<Request>): seq<Request> {
    if rs == [] then []
    else (if rs[0].BasicQoS? then [] else [rs[0]]) + Toggles(rs[1..])
  }

  /** What the application or the health monitor asked for last; a request made
      while closing for good or cancelling is refused. */
  function Wanted(s: System, e: Event): bool {
    if s.channel.permanentlyClosing || s.channel.CancelInFlight() then s.wantPaused
    else if e.CallPause? then true
    else if e.CallResume? then false
    else s.wantPaused
  }

  function SystemStep(s: System, e: SystemEvent): System {
    if !SystemEnabled(s, e) then s
    else match e
      case BrokerAnswers =>
        var (c, sends) := ReplyEffect(s.channel, AnswerTo(s.unanswered[0]));
        s.(channel := c, unanswered := s.unanswered[1..] + Basic(sends), log := s.log + Toggles(Basic(sends)))
      case Local(Reset) =>
        System(ResetEffect(s.channel), [], [], false, s.wantPaused)
      case Local(ev) =>
        var (c, sends) := Step(s.channel, ev);
        System(c, s.unanswered + Basic(sends), s.log + Toggles(Basic(sends)),
               s.declared || ev.TopologyDeclared?, Wanted(s, ev))
  }

  function SystemRun(pausedOnOpen: bool, es: seq<SystemEvent>): System {
    if es == [] then System(Init(pausedOnOpen), [], [], false, pausedOnOpen)
    else SystemStep(SystemRun(pausedOnOpen, es[..|es| - 1]), es[|es| - 1])
  }

  /** Consumes and cancels alternate, beginning with a consume. */
  ghost predicate Alternates(log: seq<Request>) {
    forall i | 0 <= i < |log| :: if i % 2 == 0 then log[i].BasicConsume? else log[i].BasicCancel?
  }

  predicate QoSUnanswered(s: System) {
    s.unanswered != [] && s.unanswered[0].BasicQoS?
  }

  /** The consume or cancel request which is unanswered, if any. */
  function Toggle(s: System): seq<Request> {
    if QoSUnanswered(s) then s.unanswered[1..] else s.unanswered
  }

  ghost predicate ToggleOk(s: System) {
    var odd := |s.log| % 2 == 1;
    if s.channel.consumer.None? || s.channel.Is(NOT_CONSUMING) || s.channel.Is(PAUSED) then
      Toggle(s) == [] && !odd
    else
      var tag := s.channel.consumer.value.tag;
      if s.channel.Is(STARTING) then Toggle(s) == [BasicConsume(tag)] && odd
      else if s.channel.Is(CONSUMING) then Toggle(s) == [] && odd
      else (Toggle(s) == [BasicConsume(tag)] && odd) || (Toggle(s) == [BasicCancel(tag)] && !odd)
  }

  ghost predicate PhaseOk(s: System) {
    var c := s.channel;
    && (!s.declared ==>
          && s.unanswered == [] && s.log == []
          && c.state != READY && c.state != AWAITING_REPLY
          && (c.consumer.None? || c.Is(NOT_CONSUMING) || c.Is(PAUSED)))
    && (s.declared ==> c.state != CHANNEL_OPEN_SENT && c.state != DECLARING_TOPOLOGY)
    && (c.state == AWAITING_REPLY ==> s.unanswered != [])
    && (s.declared && c.Is(NOT_CONSUMING) ==> QoSUnanswered(s) || !c.CanWrite())
  }

  /** Replies come in order, so nothing was consumed before the QoS reply. */
  ghost predicate QoSFirst(s: System) {
    QoSUnanswered(s) ==>
      && s.channel.state != READY
      && !s.channel.Is(CONSUMING)
      && (Toggle(s) == [] || Toggle(s)[0].BasicConsume?)
  }

  ghost predicate LogOk(s: System) {
    && Alternates(s.log)
    && (Toggle(s) != [] ==> s.log != [] && Toggle(s) == [s.log[|s.log| - 1]])
  }

  ghost predicate SystemInv(s: System) {
    && Consistent(s.channel)
    && s.channel.pausedOnOpen == s.wantPaused
    && ToggleOk(s)
    && LogOk(s)
    && QoSFirst(s)
    && PhaseOk(s)
  }

  lemma TogglesOne(r: Request)
    ensures Toggles([]) == []
    ensures !r.BasicQoS? ==> Toggles([r]) == [r]
    ensures r.BasicQoS? ==> Toggles([r]) == []
  {
    assert [r][1..] == [];
  }

  /** Nothing is sent. */
  lemma Quiet(s: System, s': System)
    requires s'.unanswered == s.unanswered + [] && s'.log == s.log + Toggles([])
    ensures s'.unanswered == s.unanswered && s'.log == s.log
    ensures Toggle(s') == Toggle(s) && (QoSUnanswered(s') <==> QoSUnanswered(s))
  {
    assert s.log + [] == s.log;
  }

  /** A consume or cancel is sent while none is unanswered. */
  lemma SendsToggle(s: System, s': System, r: Request)
    requires (r.BasicConsume? || r.BasicCancel?) && Toggle(s) == []
    requires LogOk(s) && (r.BasicConsume? <==> |s.log| % 2 == 0)
    requires s'.unanswered == s.unanswered + [r] && s'.log == s.log + Toggles([r])
    ensures Toggle(s') == [r] && (QoSUnanswered(s') <==> QoSUnanswered(s))
    ensures |s'.log| == |s.log| + 1 && LogOk(s') && s'.unanswered != []
  {
    TogglesOne(r);
  }

  lemma ConsumeKeepsInv(s: System, tag: nat)
    requires SystemInv(s) && s.channel.consumer.None?
    ensures SystemInv(SystemStep(s, Local(CallConsume(tag))))
  {
    var s' := SystemStep(s, Local(CallConsume(tag)));
    var (c, sends) := ConsumeEffect(s.channel, tag);
    assert s' == System(c, s.unanswered + sends, s.log + Toggles(sends), s.declared, s.wantPaused);
    CallConsistent(s.channel, CallConsume(tag));
    if sends == [] {
      Quiet(s, s');
    } else {
      SendsToggle(s, s', BasicConsume(tag));
      ConsumeSentKeeps(s, s');
    }
  }

  lemma ConsumeSentKeeps(s: System, s': System)
    requires SystemInv(s) && s.channel.consumer.None? && s.channel.CanWrite()
    requires Consistent(s'.channel) && s'.channel.Is(STARTING) && s'.channel.state == AWAITING_REPLY
    requires Toggle(s') == [BasicConsume(s'.channel.consumer.value.tag)] && |s'.log| == |s.log| + 1
    requires LogOk(s') && s'.unanswered != []
    requires s'.declared == s.declared && s'.wantPaused == s'.channel.pausedOnOpen
    ensures SystemInv(s')
  {
  }

  lemma PauseKeepsInv(s: System)
    requires SystemInv(s)
    ensures SystemInv(SystemStep(s, Local(CallPause)))
  {
    var s' := SystemStep(s, Local(CallPause));
    var (c, sends) := PauseEffect(s.channel);
    assert s' == System(c, s.unanswered + sends, s.log + Toggles(sends), s.declared, Wanted(s, CallPause));
    CallConsistent(s.channel, CallPause);
    if sends == [] {
      Quiet(s, s');
      QuietPauseKeeps(s, s');
    } else {
      SendsToggle(s, s', BasicCancel(s.channel.consumer.value.tag));
      CancelSentKeeps(s, s');
    }
  }

  lemma QuietPauseKeeps(s: System, s': System)
    requires SystemInv(s)
    requires s'.channel == PauseEffect(s.channel).0 && Consistent(s'.channel) && PauseEffect(s.channel).1 == []
    requires s'.unanswered == s.unanswered && s'.log == s.log
    requires s'.declared == s.declared && s'.wantPaused == Wanted(s, CallPause)
    ensures SystemInv(s')
  {
    assert s'.channel.pausedOnOpen == s'.wantPaused;
    assert s'.channel.state == s.channel.state;
  }

  /** A consumer that was consuming and has just been told to stop. */
  lemma CancelSentKeeps(s: System, s': System)
    requires SystemInv(s) && s.channel.Is(CONSUMING)
    requires Consistent(s'.channel) && (s'.channel.Is(PAUSING) || s'.channel.Is(CANCELLING))
    requires s'.channel.state == AWAITING_REPLY && s'.channel.consumer.value.tag == s.channel.consumer.value.tag
    requires Toggle(s') == [BasicCancel(s.channel.consumer.value.tag)] && |s'.log| == |s.log| + 1
    requires (QoSUnanswered(s') <==> QoSUnanswered(s)) && LogOk(s') && s'.unanswered != []
    requires s'.declared == s.declared && s'.wantPaused == s'.channel.pausedOnOpen
    ensures SystemInv(s')
  {
  }

  lemma ResumeKeepsInv(s: System)
    requires SystemInv(s)
    ensures SystemInv(SystemStep(s, Local(CallResume)))
  {
    var s' := SystemStep(s, Local(CallResume));
    var (c, sends) := ResumeEffect(s.channel);
    assert s' == System(c, s.unanswered + sends, s.log + Toggles(sends), s.declared, Wanted(s, CallResume));
    CallConsistent(s.channel, CallResume);
    ResumeEffectKeeps(s, s');
  }

  lemma ResumeEffectKeeps(s: System, s': System)
    requires SystemInv(s)
    requires s'.channel == ResumeEffect(s.channel).0 && Consistent(s'.channel)
    requires s'.unanswered == s.unanswered + ResumeEffect(s.channel).1
    requires s'.log == s.log + Toggles(ResumeEffect(s.channel).1)
    requires s'.declared == s.declared && s'.wantPaused == Wanted(s, CallResume)
    ensures SystemInv(s')
  {
    if ResumeEffect(s.channel).1 == [] {
      Quiet(s, s');
      QuietResumeKeeps(s, s');
    } else {
      SendsToggle(s, s', BasicConsume(s.channel.consumer.value.tag));
      StartedKeeps(s, s');
    }
  }

  lemma QuietResumeKeeps(s: System, s': System)
    requires SystemInv(s)
    requires s'.channel == ResumeEffect(s.channel).0 && Consistent(s'.channel) && ResumeEffect(s.channel).1 == []
    requires s'.unanswered == s.unanswered && s'.log == s.log
    requires s'.declared == s.declared && s'.wantPaused == Wanted(s, CallResume)
    ensures SystemInv(s')
  {
    assert s'.channel.pausedOnOpen == s'.wantPaused;
    assert s'.channel.state == s.channel.state;
  }

  lemma StartedKeeps(s: System, s': System)
    requires SystemInv(s) && s.channel.CanWrite()
    requires Consistent(s'.channel) && s'.channel.Is(STARTING) && s'.channel.state == AWAITING_REPLY
    requires s.channel.consumer.Some? && s'.channel.consumer.value.tag == s.channel.consumer.value.tag
    requires Toggle(s) == [] && |s.log| % 2 == 0
    requires Toggle(s') == [BasicConsume(s.channel.consumer.value.tag)] && |s'.log| == |s.log| + 1
    requires LogOk(s') && s'.unanswered != []
    requires s'.declared == s.declared && s'.wantPaused == s'.channel.pausedOnOpen
    ensures SystemInv(s')
  {
  }

  lemma CancelKeepsInv(s: System)
    requires SystemInv(s)
    ensures SystemInv(SystemStep(s, Local(CallCancel)))
  {
    var s' := SystemStep(s, Local(CallCancel));
    var (c, sends) := CancelEffect(s.channel);
    assert s' == System(c, s.unanswered + sends, s.log + Toggles(sends), s.declared, s.wantPaused);
    CallConsistent(s.channel, CallCancel);
    CancelEffectKeeps(s, s');
  }

  lemma CancelEffectKeeps(s: System, s': System)
    requires SystemInv(s)
    requires s'.channel == CancelEffect(s.channel).0 && Consistent(s'.channel)
    requires s'.unanswered == s.unanswered + CancelEffect(s.channel).1
    requires s'.log == s.log + Toggles(CancelEffect(s.channel).1)
    requires s'.declared == s.declared && s'.wantPaused == s.wantPaused
    ensures SystemInv(s')
  {
    if CancelEffect(s.channel).1 == [] {
      Quiet(s, s');
      QuietCancelKeeps(s, s');
    } else {
      SendsToggle(s, s', BasicCancel(s.channel.consumer.value.tag));
      CancelSentKeeps(s, s');
    }
  }

  lemma QuietCancelKeeps(s: System, s': System)
    requires SystemInv(s)
    requires s'.channel == CancelEffect(s.channel).0 && Consistent(s'.channel) && CancelEffect(s.channel).1 == []
    requires s'.unanswered == s.unanswered && s'.log == s.log
    requires s'.declared == s.declared && s'.wantPaused == s.wantPaused
    ensures SystemInv(s')
  {
    assert s'.channel.state == s.channel.state;
  }

  lemma AnswerStep(s: System, c: Channel, sends: seq<Request>)
    requires SystemEnabled(s, BrokerAnswers) && ReplyEffect(s.channel, AnswerTo(s.unanswered[0])) == (c, sends)
    ensures SystemStep(s, BrokerAnswers)
         == System(c, s.unanswered[1..] + Basic(sends), s.log + Toggles(Basic(sends)), s.declared, s.wantPaused)
  {
  }

  lemma QoSOkKeepsInv(s: System)
    requires SystemInv(s) && QoSUnanswered(s) && s.channel.state != CLOSED
    ensures SystemInv(SystemStep(s, BrokerAnswers))
  {
    var (c, sends) := QoSOkEffect(s.channel);
    ReplyConsistent(s.channel, QoSOk);
    AnswerStep(s, c, sends);
    QoSAnsweredKeeps(s, System(c, Toggle(s) + sends, s.log + Toggles(sends), s.declared, s.wantPaused));
  }

  lemma QoSAnsweredKeeps(s: System, s': System)
    requires SystemInv(s) && QoSUnanswered(s)
    requires s'.channel == QoSOkEffect(s.channel).0 && Consistent(s'.channel)
    requires s'.unanswered == Toggle(s) + QoSOkEffect(s.channel).1
    requires s'.log == s.log + Toggles(QoSOkEffect(s.channel).1)
    requires s'.declared == s.declared && s'.wantPaused == s.wantPaused
    ensures SystemInv(s')
  {
    var mid := s.(unanswered := s.unanswered[1..]);
    assert mid.unanswered == Toggle(s) == Toggle(mid) && !QoSUnanswered(mid);
    if QoSOkEffect(s.channel).1 == [] {
      Quiet(mid, s');
      QuietQoSOkKeeps(s, s');
    } else {
      assert Toggle(s) == [];
      SendsToggle(mid, s', BasicConsume(s.channel.consumer.value.tag));
      StartAnsweredKeeps(s, s');
    }
  }

  lemma QuietQoSOkKeeps(s: System, s': System)
    requires SystemInv(s) && QoSUnanswered(s)
    requires s'.channel == QoSOkEffect(s.channel).0 && Consistent(s'.channel) && QoSOkEffect(s.channel).1 == []
    requires s'.unanswered == Toggle(s) == Toggle(s') && !QoSUnanswered(s') && s'.log == s.log
    requires s'.declared == s.declared && s'.wantPaused == s.wantPaused
    ensures SystemInv(s')
  {
    assert s.declared;
  }

  /** An answer after which the consumer starts. */
  lemma StartAnsweredKeeps(s: System, s': System)
    requires SystemInv(s) && s.unanswered != []
    requires Consistent(s'.channel) && s'.channel.Is(STARTING) && s'.channel.state == AWAITING_REPLY
    requires s'.unanswered == Toggle(s') == [BasicConsume(s'.channel.consumer.value.tag)]
    requires |s'.log| % 2 == 1 && LogOk(s') && !QoSUnanswered(s')
    requires s'.declared == s.declared && s'.wantPaused == s'.channel.pausedOnOpen
    ensures SystemInv(s')
  {
    assert s.declared;
  }

  /** An answer after which the channel is ready. */
  lemma ReadyKeeps(s: System, s': System)
    requires SystemInv(s) && s.unanswered != []
    requires Consistent(s'.channel) && s'.channel.state == READY && s'.unanswered == [] && s'.log == s.log
    requires s'.channel.consumer.None? || (s'.channel.Is(PAUSED) && |s.log| % 2 == 0)
          || (s'.channel.Is(CONSUMING) && |s.log| % 2 == 1)
    requires s'.channel.consumer.None? ==> |s.log| % 2 == 0
    requires s'.declared == s.declared && s'.wantPaused == s'.channel.pausedOnOpen
    ensures SystemInv(s')
  {
    assert s.declared;
    assert Toggle(s') == [];
  }

  lemma ConsumeOkKeepsInv(s: System)
    requires SystemInv(s) && s.channel.state != CLOSED && s.unanswered != [] && s.unanswered[0].BasicConsume?
    ensures SystemInv(SystemStep(s, BrokerAnswers))
  {
    var s', tag := SystemStep(s, BrokerAnswers), s.unanswered[0].tag;
    var (c, sends) := ConsumeOkEffect(s.channel);
    assert Toggle(s) == s.unanswered == [BasicConsume(tag)];
    assert s.unanswered[1..] == [];
    ReplyConsistent(s.channel, ConsumeOk(tag));
    TogglesOne(BasicCancel(tag));
    AnswerStep(s, c, sends);
    if sends == [] {
      ReadyKeeps(s, s');
    } else {
      StopAnsweredKeeps(s, s');
    }
  }

  /** A consumer told to stop before it was up is cancelled as soon as it is. */
  lemma StopAnsweredKeeps(s: System, s': System)
    requires SystemInv(s) && s.unanswered != [] && |s.log| % 2 == 1
    requires Consistent(s'.channel) && (s'.channel.Is(PAUSING) || s'.channel.Is(CANCELLING))
    requires s'.channel.state == AWAITING_REPLY
    requires s'.unanswered == [BasicCancel(s'.channel.consumer.value.tag)] && s'.log == s.log + s'.unanswered
    requires s'.declared == s.declared && s'.wantPaused == s'.channel.pausedOnOpen
    ensures SystemInv(s')
  {
    assert s.declared;
    assert Toggle(s') == s'.unanswered;
  }

  lemma CancelOkKeepsInv(s: System)
    requires SystemInv(s) && s.channel.state != CLOSED && s.unanswered != [] && s.unanswered[0].BasicCancel?
    ensures SystemInv(SystemStep(s, BrokerAnswers))
  {
    var tag := s.unanswered[0].tag;
    var (c, sends) := CancelOkEffect(s.channel);
    assert Toggle(s) == s.unanswered == [BasicCancel(tag)];
    assert s.unanswered[1..] == [];
    ReplyConsistent(s.channel, CancelOk(tag));
    AnswerStep(s, c, sends);
    assert [] + sends == sends;
    CancelAnsweredKeeps(s, System(c, sends, s.log + Toggles(sends), s.declared, s.wantPaused));
  }

  lemma CancelAnsweredKeeps(s: System, s': System)
    requires SystemInv(s) && s.unanswered != [] && s.unanswered[0].BasicCancel?
    requires s'.channel == CancelOkEffect(s.channel).0 && Consistent(s'.channel)
    requires s'.unanswered == CancelOkEffect(s.channel).1
    requires s'.log == s.log + Toggles(s'.unanswered)
    requires s'.declared == s.declared && s'.wantPaused == s.wantPaused
    ensures SystemInv(s')
  {
    var mid := s.(unanswered := []);
    assert Toggle(s) == s.unanswered && |s.log| % 2 == 0;
    if s'.unanswered == [] {
      TogglesOne(BasicQoS);
      assert s.log + [] == s.log;
      ReadyKeeps(s, s');
    } else {
      assert Toggle(mid) == [] && LogOk(mid);
      assert s'.unanswered == mid.unanswered + [BasicConsume(s.channel.consumer.value.tag)];
      SendsToggle(mid, s', BasicConsume(s.channel.consumer.value.tag));
      StartAnsweredKeeps(s, s');
    }
  }

  lemma DeclaredKeepsInv(s: System)
    requires SystemInv(s) && SystemEnabled(s, Local(TopologyDeclared))
    ensures SystemInv(SystemStep(s, Local(TopologyDeclared)))
  {
    TogglesOne(BasicQoS);
    var s' := SystemStep(s, Local(TopologyDeclared));
    assert s'.unanswered == [BasicQoS] && s'.log == [];
  }

  lemma LifecycleKeepsInv(s: System, ev: Event)
    requires SystemInv(s) && SystemEnabled(s, Local(ev))
    requires ev.Open? || ev.OpenOk? || ev.LocalClose? || ev.RemoteClose? || ev.GracefulClose?
    ensures SystemInv(SystemStep(s, Local(ev)))
  {
    var s' := SystemStep(s, Local(ev));
    Quiet(s, s');
    StateChangeKeepsInv(s, s');
  }

  lemma StateChangeKeepsInv(s: System, s': System)
    requires SystemInv(s)
    requires s'.unanswered == s.unanswered && s'.log == s.log
    requires s'.declared == s.declared && s'.wantPaused == s.wantPaused
    requires s'.channel == s.channel.(state := s'.channel.state, permanentlyClosing := s'.channel.permanentlyClosing)
    requires s'.channel.state == CLOSED || s'.channel.state == CHANNEL_CLOSE_SENT
          || (!s.declared && (s'.channel.state == CHANNEL_OPEN_SENT || s'.channel.state == DECLARING_TOPOLOGY))
    ensures SystemInv(s')
  {
  }

  lemma ResetKeepsInv(s: System)
    requires SystemInv(s)
    ensures SystemInv(SystemStep(s, Local(Reset)))
  {
    StepConsistent(s.channel, Reset);
  }

  lemma SystemStepKeepsInv(s: System, e: SystemEvent)
    requires SystemInv(s)
    ensures SystemInv(SystemStep(s, e))
  {
    if SystemEnabled(s, e) {
      match e
      case BrokerAnswers =>
        match s.unanswered[0] {
          case BasicQoS => QoSOkKeepsInv(s);
          case BasicConsume(_) => ConsumeOkKeepsInv(s);
          case BasicCancel(_) => CancelOkKeepsInv(s);
          case ChannelClose =>
        }
      case Local(ev) =>
        match ev {
          case CallConsume(tag) => ConsumeKeepsInv(s, tag);
          case CallPause => PauseKeepsInv(s);
          case CallResume => ResumeKeepsInv(s);
          case CallCancel => CancelKeepsInv(s);
          case Reset => ResetKeepsInv(s);
          case TopologyDeclared => DeclaredKeepsInv(s);
          case _ => LifecycleKeepsInv(s, ev);
        }
    }
  }

  lemma {:induction false} SystemRunInv(pausedOnOpen: bool, es: seq<SystemEvent>)
    ensures SystemInv(SystemRun(pausedOnOpen, es))
  {
    if es != [] {
      SystemRunInv(pausedOnOpen, es[..|es| - 1]);
      SystemStepKeepsInv(SystemRun(pausedOnOpen, es[..|es| - 1]), es[|es| - 1]);
    }
  }

  /** Between two resets consumes and cancels alternate, beginning with a consume,
      and at most the last one sent is unanswered. */
  lemma OneToggleInFlight(pausedOnOpen: bool, es: seq<SystemEvent>)
    ensures var s := SystemRun(pausedOnOpen, es);
      && Alternates(s.log)
      && |Toggle(s)| <= 1
      && (Toggle(s) != [] ==> s.log != [] && Toggle(s)[0] == s.log[|s.log| - 1])
  {
    SystemRunInv(pausedOnOpen, es);
  }

  /** Whenever the channel is ready and nothing is unanswered, the consumer is
      paused if that was asked for last and consuming otherwise, through any number
      of resets; and a channel waiting for a reply really has a request open. */
  lemma IntentPrevails(pausedOnOpen: bool, es: seq<SystemEvent>)
    ensures var s := SystemRun(pausedOnOpen, es);
      && (s.channel.state == READY && s.unanswered == [] && s.channel.consumer.Some? ==>
            s.channel.consumer.value.state == if s.wantPaused then PAUSED else CONSUMING)
      && (s.channel.state == AWAITING_REPLY ==> s.unanswered != [])
  {
    SystemRunInv(pausedOnOpen, es);
  }

  // ---- What was asked for ----

  /** The tag of the consumer that was registered and not cancelled since. */
  function Registered(pausedOnOpen: bool, es: seq<SystemEvent>): Option<nat> {
    if es == [] then None
    else
      RegisteredBy(es[|es| - 1], Registered(pausedOnOpen, es[..|es| - 1]),
                   SystemRun(pausedOnOpen, es[..|es| - 1]).channel.consumer.None?)
  }

  function RegisteredBy(e: SystemEvent, before: Option<nat>, vacant: bool): Option<nat> {
    match e
    case Local(CallConsume(tag)) => if vacant then Some(tag) else before
    case Local(CallCancel) => None
    case _ => before
  }

  /** The consumer is that one, or none but one that is being cancelled: its cancel or
      the consume before it is unanswered. */
  ghost predicate Serves(s: System, registered: Option<nat>) {
    match registered
    case Some(tag) => s.channel.consumer.Some? && s.channel.consumer.value.tag == tag && !s.channel.CancelInFlight()
    case None =>
      s.channel.consumer.None?
      || (s.channel.Is(CANCELLING) && s.channel.cancelPending
          && var tag := s.channel.consumer.value.tag;
             Toggle(s) == [BasicConsume(tag)] || Toggle(s) == [BasicCancel(tag)])
  }

  /** The consumer alone, as the invariant says the rest. */
  ghost predicate Keeps(c: Channel, registered: Option<nat>) {
    match registered
    case Some(tag) => c.consumer.Some? && c.consumer.value.tag == tag && !c.CancelInFlight()
    case None => c.consumer.None? || c.Is(CANCELLING)
  }

  lemma KeepsServes(s: System, registered: Option<nat>)
    requires SystemInv(s)
    ensures Keeps(s.channel, registered) <==> Serves(s, registered)
  {
  }

  lemma AnswerKeeps(s: System, registered: Option<nat>)
    requires SystemInv(s) && SystemEnabled(s, BrokerAnswers) && Keeps(s.channel, registered)
    ensures Keeps(ReplyEffect(s.channel, AnswerTo(s.unanswered[0])).0, registered)
  {
  }

  lemma CallKeeps(c: Channel, ev: Event, registered: Option<nat>)
    requires Consistent(c) && Enabled(c, ev) && !ev.Receive? && Keeps(c, registered)
    ensures Keeps(Step(c, ev).0, match ev
                                 case CallConsume(tag) => Some(tag)
                                 case CallCancel => None
                                 case _ => registered)
  {
  }

  lemma StepKeepsConsumer(s: System, e: SystemEvent, registered: Option<nat>)
    requires SystemInv(s) && Keeps(s.channel, registered)
    ensures Keeps(SystemStep(s, e).channel, RegisteredBy(e, registered, s.channel.consumer.None?))
  {
    if SystemEnabled(s, e) {
      match e
      case BrokerAnswers => AnswerKeeps(s, registered);
      case Local(ev) => CallKeeps(s.channel, ev, registered);
    }
  }

  lemma {:induction false} RunKeepsConsumer(pausedOnOpen: bool, es: seq<SystemEvent>)
    ensures Keeps(SystemRun(pausedOnOpen, es).channel, Registered(pausedOnOpen, es))
  {
    if es != [] {
      var n := |es| - 1;
      RunKeepsConsumer(pausedOnOpen, es[..n]);
      assert SystemInv(SystemRun(pausedOnOpen, es[..n])) by { SystemRunInv(pausedOnOpen, es[..n]); }
      StepKeepsConsumer(SystemRun(pausedOnOpen, es[..n]), es[n], Registered(pausedOnOpen, es[..n]));
    }
  }

  lemma RestOrResetEnds(s: System)
    requires SystemInv(s) && Keeps(s.channel, None)
    ensures s.unanswered == [] ==> s.channel.consumer.None?
    ensures SystemStep(s, Local(Reset)).channel.consumer.None?
  {
  }

  /** In every run the channel keeps the consumer that was registered, through pauses
      and resets, until it is cancelled; from then on until the next one is registered
      the consumer is gone or being cancelled with its cancel or the consume before it
      unanswered, so gone whenever nothing is, and gone after a reset. */
  lemma ConsumerUntilCancelled(pausedOnOpen: bool, es: seq<SystemEvent>)
    ensures Serves(SystemRun(pausedOnOpen, es), Registered(pausedOnOpen, es))
    ensures Registered(pausedOnOpen, es).None? ==>
      && (SystemRun(pausedOnOpen, es).unanswered == [] ==> SystemRun(pausedOnOpen, es).channel.consumer.None?)
      && SystemRun(pausedOnOpen, es + [Local(Reset)]).channel.consumer.None?
  {
    RunKeepsConsumer(pausedOnOpen, es);
    assert SystemInv(SystemRun(pausedOnOpen, es)) by { SystemRunInv(pausedOnOpen, es); }
    KeepsServes(SystemRun(pausedOnOpen, es), Registered(pausedOnOpen, es));
    if Registered(pausedOnOpen, es).None? {
      RestOrResetEnds(SystemRun(pausedOnOpen, es));
      assert (es + [Local(Reset)])[..|es|] == es;
    }
  }

  /** A resume was accepted for a consumer that was not up, and since then the consumer
      has not come up and was neither paused, cancelled nor reset. */
  predicate Resuming(pausedOnOpen: bool, es: seq<SystemEvent>) {
    es != []
    && ResumingBy(es[|es| - 1], Resuming(pausedOnOpen, es[..|es| - 1]),
                  SystemRun(pausedOnOpen, es[..|es| - 1]).channel, SystemRun(pausedOnOpen, es).channel)
  }

  predicate ResumingBy(e: SystemEvent, before: bool, c: Channel, c': Channel) {
    var refused := c.permanentlyClosing || c.CancelInFlight();
    match e
    case Local(CallResume) => before || (!refused && (c.Is(NOT_CONSUMING) || c.Is(PAUSED) || c.Is(PAUSING)))
    case Local(CallPause) => before && refused
    case Local(CallCancel) => false
    case Local(Reset) => false
    case BrokerAnswers => before && !c'.Is(CONSUMING)
    case _ => before
  }

  lemma AnswerResumes(s: System)
    requires SystemInv(s) && SystemEnabled(s, BrokerAnswers)
    ensures var c := ReplyEffect(s.channel, AnswerTo(s.unanswered[0])).0;
      c.resumePending <==> s.channel.resumePending && !c.Is(CONSUMING)
  {
  }

  lemma CallResumes(c: Channel, ev: Event)
    requires Consistent(c) && Enabled(c, ev) && !ev.Receive?
    ensures Step(c, ev).0.resumePending == ResumingBy(Local(ev), c.resumePending, c, Step(c, ev).0)
  {
  }

  lemma StepResumes(s: System, e: SystemEvent)
    requires SystemInv(s)
    ensures SystemStep(s, e).channel.resumePending
         == ResumingBy(e, s.channel.resumePending, s.channel, SystemStep(s, e).channel)
  {
    if SystemEnabled(s, e) {
      match e
      case BrokerAnswers => AnswerResumes(s);
      case Local(ev) => CallResumes(s.channel, ev);
    }
  }

  /** In every run the future of a resume is pending exactly that long. */
  lemma {:induction false} ResumeFutureExactly(pausedOnOpen: bool, es: seq<SystemEvent>)
    ensures SystemRun(pausedOnOpen, es).channel.resumePending <==> Resuming(pausedOnOpen, es)
  {
    if es != [] {
      var n := |es| - 1;
      ResumeFutureExactly(pausedOnOpen, es[..n]);
      assert SystemInv(SystemRun(pausedOnOpen, es[..n])) by { SystemRunInv(pausedOnOpen, es[..n]); }
      StepResumes(SystemRun(pausedOnOpen, es[..n]), es[n]);
    }
  }
}
