/**
 The life of a connection: handshake, close, loss and retry. The socket delivers
 write completions in order and drops them when it goes; the broker may send any
 method at any time.
 */
module Connection {
  import opened Wrappers

  datatype State =
    | DISCONNECTED
    | PROTOCOL_HEADER_SENT
    | CONNECTION_START_RECEIVED
    | CONNECTION_STARTOK_SENT
    | CONNECTION_TUNE_RECEIVED
    | CONNECTION_TUNEOK_SENT
    | CONNECTION_OPEN_SENT
    | CONNECTION_OPENOK_RECEIVED
    | CONNECTION_CLOSE_SENT_EXIT
    | CONNECTION_CLOSE_SENT_RECONNECT
    | CONNECTION_CLOSE_RECEIVED
    | CONNECTION_CLOSEOK_SENT
    | CONNECTION_CLOSED
    | CONNECTED

  datatype DisconnectType = WILL_RETRY | FATAL

  /** A closing socket remembers what to do once it is shut. */
  datatype Phase = Connecting | Up | Closing(disconnect: DisconnectType)

  /** `writes` are the states that pending write completions will set, in order. */
  datatype Socket = Socket(phase: Phase, writes: seq<State>)

  datatype Method = Start | Tune(frameMax: nat) | OpenOk | CloseMethod | CloseOk | OtherMethod

  /** The handshake methods accepted on the current socket. */
  datatype Milestone = Started | Tuned | Opened

  datatype Conn = Conn(
    state: State,
    socket: Option<Socket>,
    handled: seq<Milestone>,
    closeRequested: bool,
    retryArmed: bool,
    attempts: nat,
    firstConnectCb: bool,
    firstResults: seq<bool>,
    closeCalls: nat,
    closeCb: Option<nat>,
    closesFired: seq<nat>,
    closesReplaced: seq<nat>,
    destroyed: bool)

  // ---- Tune ----

  const FRAME_MIN_SIZE: nat := 4096
  const CLIENT_FRAME_SIZE: nat := 150000

  /** Zero leaves the choice to the other side. */
  function Negotiate(server: nat, client: nat): nat {
    if server == 0 then client else if client == 0 then server else if server < client then server else client
  }

  predicate TuneAccepted(frameMax: nat) {
    Negotiate(frameMax, CLIENT_FRAME_SIZE) >= FRAME_MIN_SIZE
  }

  /** The result is within every limit set, is one of the two values, and is no
      limit only when neither side sets one. */
  lemma NegotiateMeets(server: nat, client: nat)
    ensures var n := Negotiate(server, client);
      (server != 0 ==> n <= server) && (client != 0 ==> n <= client)
      && (n == server || n == client) && (n == 0 <==> server == 0 && client == 0)
  {
  }

  /** What the client accepts lies between its own two limits, and is refused
      exactly when the server sets a limit below the minimum. */
  lemma TuneAcceptedExactly(frameMax: nat)
    ensures TuneAccepted(frameMax) <==> frameMax == 0 || frameMax >= 4096
    ensures TuneAccepted(frameMax) ==> 4096 <= Negotiate(frameMax, CLIENT_FRAME_SIZE) <= 150000
    ensures CLIENT_FRAME_SIZE == 150000
  {
    NegotiateMeets(frameMax, CLIENT_FRAME_SIZE);
  }

  // ---- Steps ----

  /** After the first connection was asked for. */
  function Initial(): Conn {
    Conn(DISCONNECTED, Some(Socket(Connecting, [])), [], false, false, 1, true, [], 0, None, [], [], false)
  }

  function InitiateConnect(c: Conn): Conn {
    c.(socket := Some(Socket(Connecting, [])), handled := [], attempts := c.attempts + 1)
  }

  /** Without a socket nothing is written. */
  function Write(c: Conn, onComplete: State): Conn {
    if c.socket.None? then c
    else c.(socket := Some(c.socket.value.(writes := c.socket.value.writes + [onComplete])))
  }

  function FireFirst(c: Conn, result: bool): Conn {
    if c.firstConnectCb then c.(firstConnectCb := false, firstResults := c.firstResults + [result]) else c
  }

  function FireClose(c: Conn): Conn {
    if c.closeCb.Some? then c.(closeCb := None, closesFired := c.closesFired + [c.closeCb.value]) else c
  }

  function SocketShutdown(c: Conn, dc: DisconnectType): Conn {
    var down := c.(socket := None, handled := [], state := DISCONNECTED);
    if dc == WILL_RETRY && !c.closeRequested then down.(retryArmed := true)
    else FireClose(FireFirst(down, false))
  }

  function CloseSocket(c: Conn, dc: DisconnectType): Conn {
    var closed := c.(state := CONNECTION_CLOSED);
    if c.socket.Some? && c.socket.value.phase == Up
    then closed.(socket := Some(c.socket.value.(phase := Closing(dc))))
    else SocketShutdown(closed, dc)
  }

  /** Connected or on the way there. */
  predicate InUse(s: State) {
    s == CONNECTED || s == PROTOCOL_HEADER_SENT || s == CONNECTION_START_RECEIVED || s == CONNECTION_STARTOK_SENT
    || s == CONNECTION_TUNE_RECEIVED || s == CONNECTION_TUNEOK_SENT || s == CONNECTION_OPEN_SENT
    || s == CONNECTION_OPENOK_RECEIVED
  }

  function ConnectionException(c: Conn): Conn {
    if c.state == CONNECTION_CLOSE_SENT_EXIT then CloseSocket(c, FATAL)
    else if InUse(c.state) then Write(c, CONNECTION_CLOSE_SENT_RECONNECT)
    else CloseSocket(c, WILL_RETRY)
  }

  /** A second call replaces a callback that is still waiting. */
  function AskClose(c: Conn): Conn {
    c.(closeCb := Some(c.closeCalls),
       closeCalls := c.closeCalls + 1,
       closesReplaced := c.closesReplaced + (if c.closeCb.Some? then [c.closeCb.value] else []),
       closeRequested := true)
  }

  function StartClosing(c: Conn): Conn {
    if c.state == DISCONNECTED then SocketShutdown(c, FATAL)
    else if InUse(c.state) then Write(c, CONNECTION_CLOSE_SENT_EXIT)
    else c
  }

  function Close(c: Conn): Conn {
    StartClosing(AskClose(c))
  }

  function OnWriteComplete(c: Conn, state: State): Conn {
    if state == CONNECTION_CLOSEOK_SENT then CloseSocket(c.(state := state), WILL_RETRY) else c.(state := state)
  }

  function Process(c: Conn, m: Method): Conn {
    match m
    case Start =>
      if c.state != PROTOCOL_HEADER_SENT then ConnectionException(c)
      else Write(c.(state := CONNECTION_START_RECEIVED, handled := c.handled + [Started]), CONNECTION_STARTOK_SENT)
    case Tune(frameMax) =>
      if c.state != CONNECTION_STARTOK_SENT then ConnectionException(c)
      else
        var received := c.(state := CONNECTION_TUNE_RECEIVED, handled := c.handled + [Tuned]);
        if TuneAccepted(frameMax) then Write(Write(received, CONNECTION_TUNEOK_SENT), CONNECTION_OPEN_SENT)
        else ConnectionException(received)
    case OpenOk =>
      if c.state != CONNECTION_OPEN_SENT then ConnectionException(c)
      else FireFirst(c.(state := CONNECTED, handled := c.handled + [Opened]), true)
    case CloseMethod => Write(c.(state := CONNECTION_CLOSE_RECEIVED), CONNECTION_CLOSEOK_SENT)
    case CloseOk => CloseSocket(c, if c.state == CONNECTION_CLOSE_SENT_EXIT then FATAL else WILL_RETRY)
    case OtherMethod => ConnectionException(c)
  }

  function Retry(c: Conn): Conn {
    if c.closeRequested then c.(retryArmed := false) else InitiateConnect(c.(retryArmed := false))
  }

  function Destroy(c: Conn): Conn {
    FireClose(SocketShutdown(c, FATAL)).(destroyed := true)
  }

  // ---- The object ----

  class AmqpConnection {
    var state: State
    var socket: Option<Socket>
    ghost var handled: seq<Milestone>
    var closeRequested: bool
    var retryArmed: bool
    var attempts: nat
    var firstConnectCb: bool
    var firstResults: seq<bool>
    var closeCalls: nat
    var closeCb: Option<nat>
    var closesFired: seq<nat>
    ghost var closesReplaced: seq<nat>
    ghost var destroyed: bool

    ghost function View(): Conn
      reads this
    {
      Conn(state, socket, handled, closeRequested, retryArmed, attempts, firstConnectCb, firstResults,
           closeCalls, closeCb, closesFired, closesReplaced, destroyed)
    }

    /** Created and asked for its first connection. */
    constructor ()
      ensures View() == Initial()
    {
      state, socket, handled := DISCONNECTED, Some(Socket(Connecting, [])), [];
      closeRequested, retryArmed := false, false;
      attempts, firstConnectCb, firstResults := 1, true, [];
      closeCalls, closeCb, closesFired, closesReplaced, destroyed := 0, None, [], [], false;
    }

    method AsyncWrite(onComplete: State)
      modifies this`socket
      ensures View() == Write(old(View()), onComplete)
    {
      if socket.Some? {
        socket := Some(socket.value.(writes := socket.value.writes + [onComplete]));
      }
    }

    method CallCloseCb()
      modifies this`closeCb, this`closesFired
      ensures View() == FireClose(old(View()))
    {
      if closeCb.Some? {
        closesFired := closesFired + [closeCb.value];
        closeCb := None;
      }
    }

    method Shutdown(dc: DisconnectType)
      modifies this
      ensures View() == SocketShutdown(old(View()), dc)
    {
      var willRetry := dc == WILL_RETRY && !closeRequested;
      socket, handled, state := None, [], DISCONNECTED;
      if willRetry {
        retryArmed := true;
      } else {
        if firstConnectCb {
          firstResults, firstConnectCb := firstResults + [false], false;
        }
        CallCloseCb();
      }
    }

    method CloseTheSocket(dc: DisconnectType)
      modifies this
      ensures View() == CloseSocket(old(View()), dc)
    {
      state := CONNECTION_CLOSED;
      if socket.Some? && socket.value.phase == Up {
        socket := Some(socket.value.(phase := Closing(dc)));
      } else {
        Shutdown(dc);
      }
    }

    method Exception()
      modifies this
      ensures View() == ConnectionException(old(View()))
    {
      if state == CONNECTION_CLOSE_SENT_EXIT {
        CloseTheSocket(FATAL);
      } else if InUse(state) {
        AsyncWrite(CONNECTION_CLOSE_SENT_RECONNECT);
      } else {
        CloseTheSocket(WILL_RETRY);
      }
    }

    method RequestClose()
      modifies this
      ensures View() == Close(old(View()))
    {
      closesReplaced := closesReplaced + (if closeCb.Some? then [closeCb.value] else []);
      closeCb, closeRequested := Some(closeCalls), true;
      closeCalls := closeCalls + 1;
      assert View() == AskClose(old(View()));
      if state == DISCONNECTED {
        Shutdown(FATAL);
      } else if InUse(state) {
        AsyncWrite(CONNECTION_CLOSE_SENT_EXIT);
      }
    }

    method WriteCompleted(newState: State)
      modifies this
      ensures View() == OnWriteComplete(old(View()), newState)
    {
      state := newState;
      if state == CONNECTION_CLOSEOK_SENT {
        CloseTheSocket(WILL_RETRY);
      }
    }

    method ProcessTune(frameMax: nat)
      modifies this
      ensures View() == Process(old(View()), Tune(frameMax))
    {
      if state != CONNECTION_STARTOK_SENT {
        Exception();
      } else {
        state, handled := CONNECTION_TUNE_RECEIVED, handled + [Tuned];
        if Negotiate(frameMax, CLIENT_FRAME_SIZE) < FRAME_MIN_SIZE {
          Exception();
        } else {
          AsyncWrite(CONNECTION_TUNEOK_SENT);
          AsyncWrite(CONNECTION_OPEN_SENT);
        }
      }
    }

    method ProcessMethod(m: Method)
      modifies this
      ensures View() == Process(old(View()), m)
    {
      match m
      case Start =>
        if state != PROTOCOL_HEADER_SENT {
          Exception();
        } else {
          state, handled := CONNECTION_START_RECEIVED, handled + [Started];
          AsyncWrite(CONNECTION_STARTOK_SENT);
        }
      case Tune(frameMax) => ProcessTune(frameMax);
      case OpenOk =>
        if state != CONNECTION_OPEN_SENT {
          Exception();
        } else {
          state, handled := CONNECTED, handled + [Opened];
          if firstConnectCb {
            firstResults, firstConnectCb := firstResults + [true], false;
          }
        }
      case CloseMethod =>
        state := CONNECTION_CLOSE_RECEIVED;
        AsyncWrite(CONNECTION_CLOSEOK_SENT);
      case CloseOk =>
        CloseTheSocket(if state == CONNECTION_CLOSE_SENT_EXIT then FATAL else WILL_RETRY);
      case OtherMethod =>
        Exception();
    }

    method RetryTimer()
      modifies this
      ensures View() == Retry(old(View()))
    {
      retryArmed := false;
      if !closeRequested {
        socket, handled, attempts := Some(Socket(Connecting, [])), [], attempts + 1;
      }
    }

    method Destruct()
      modifies this
      ensures View() == Destroy(old(View()))
    {
      Shutdown(FATAL);
      CallCloseCb();
      destroyed := true;
    }
  }

  // ---- Runs ----

  datatype Event =
    | SocketConnected
    | SocketFailed
    | SocketShut
    | WriteCompletes
    | Receive(m: Method)
    | HeartbeatsMissed
    | Hung
    | RetryFires
    | CallClose
    | Destruct

  predicate Enabled(c: Conn, e: Event) {
    !c.destroyed
    && match e
       case SocketConnected => c.socket.Some? && c.socket.value.phase == Connecting
       case SocketFailed => c.socket.Some?
       case SocketShut => c.socket.Some? && c.socket.value.phase.Closing?
       case WriteCompletes => c.socket.Some? && c.socket.value.phase != Connecting && c.socket.value.writes != []
       case Receive(_) => c.socket.Some? && c.socket.value.phase != Connecting
       case HeartbeatsMissed => c.socket.Some?
       case Hung => true
       case RetryFires => c.retryArmed
       case CallClose => true
       case Destruct => true
  }

  function Step(c: Conn, e: Event): Conn {
    if !Enabled(c, e) then c
    else
      match e
      case SocketConnected => Write(c.(socket := Some(c.socket.value.(phase := Up))), PROTOCOL_HEADER_SENT)
      case SocketFailed => SocketShutdown(c, WILL_RETRY)
      case SocketShut => SocketShutdown(c, c.socket.value.phase.disconnect)
      case WriteCompletes =>
        var s := c.socket.value;
        OnWriteComplete(c.(socket := Some(s.(writes := s.writes[1..]))), s.writes[0])
      case Receive(m) => Process(c, m)
      case HeartbeatsMissed => CloseSocket(c, WILL_RETRY)
      case Hung => CloseSocket(c, WILL_RETRY)
      case RetryFires => Retry(c)
      case CallClose => Close(c)
      case Destruct => Destroy(c)
  }

  function Run(es: seq<Event>): Conn {
    if es == [] then Initial() else Step(Run(es[..|es| - 1]), es[|es| - 1])
  }

  // ---- The handshake ----

  function Writes(c: Conn): seq<State> {
    if c.socket.Some? then c.socket.value.writes else []
  }

  /** How often the state is, or is still to become, `x`. */
  function Tokens(c: Conn, x: State): nat {
    multiset(Writes(c))[x] + if c.state == x then 1 else 0
  }

  ghost predicate HandshakeInv(c: Conn) {
    (Tokens(c, PROTOCOL_HEADER_SENT) == 0 || (Tokens(c, PROTOCOL_HEADER_SENT) == 1 && c.handled == []))
    && (Tokens(c, CONNECTION_STARTOK_SENT) == 0 || (Tokens(c, CONNECTION_STARTOK_SENT) == 1 && c.handled == [Started]))
    && (Tokens(c, CONNECTION_OPEN_SENT) == 0 || (Tokens(c, CONNECTION_OPEN_SENT) == 1 && c.handled == [Started, Tuned]))
    && CONNECTED !in Writes(c)
    && (c.state == CONNECTED ==> c.handled == [Started, Tuned, Opened])
  }

  ghost predicate SocketInv(c: Conn) {
    (c.socket.None? ==> c.state == DISCONNECTED && c.handled == [])
    && (c.socket.Some? && c.socket.value.phase == Connecting ==>
          c.state == DISCONNECTED && c.handled == [] && c.socket.value.writes == [])
    && (c.retryArmed ==> c.socket.None?)
    && (c.socket.None? && !c.closeRequested && !c.destroyed ==> c.retryArmed)
  }

  ghost predicate CloseInv(c: Conn) {
    (Tokens(c, CONNECTION_CLOSE_SENT_EXIT) > 0 ==> c.closeRequested)
    && (c.socket.Some? && c.socket.value.phase == Closing(FATAL) ==> c.closeRequested)
    && (c.closeRequested <==> c.closeCalls > 0)
  }

  ghost predicate CallbackInv(c: Conn) {
    |c.firstResults| + (if c.firstConnectCb then 1 else 0) == 1
    && (c.closeCb.Some? ==> c.closeCb.value + 1 == c.closeCalls)
    && (c.destroyed ==> c.closeCb.None? && !c.firstConnectCb)
  }

  /** Where the callback of the k-th close call is, counted. */
  function ClosePlaces(c: Conn, k: nat): nat {
    multiset(c.closesFired)[k] + multiset(c.closesReplaced)[k] + if c.closeCb == Some(k) then 1 else 0
  }

  ghost predicate PlacesInv(c: Conn, k: nat) {
    ClosePlaces(c, k) == (if k < c.closeCalls then 1 else 0)
    && (k in c.closesReplaced ==> k + 1 < c.closeCalls)
  }

  ghost predicate Inv(c: Conn) {
    HandshakeInv(c) && SocketInv(c) && CloseInv(c) && CallbackInv(c)
  }

  // ---- Steps keep the invariant ----

  /** A socket that has been connected. */
  predicate Live(c: Conn) {
    c.socket.Some? && c.socket.value.phase != Connecting
  }

  /** States that no handshake method waits for. */
  predicate Plain(x: State) {
    x != PROTOCOL_HEADER_SENT && x != CONNECTION_STARTOK_SENT && x != CONNECTION_OPEN_SENT && x != CONNECTED
  }

  lemma SetPlainState(c: Conn, x: State)
    requires Inv(c) && Live(c) && Plain(x) && x != CONNECTION_CLOSE_SENT_EXIT
    ensures Inv(c.(state := x))
  {
    assert forall y | y != x :: Tokens(c.(state := x), y) <= Tokens(c, y);
  }

  lemma WriteAddsToken(c: Conn, x: State)
    requires c.socket.Some?
    ensures forall y :: Tokens(Write(c, x), y) == Tokens(c, y) + if x == y then 1 else 0
    ensures Writes(Write(c, x)) == Writes(c) + [x]
  {
  }

  lemma WritePlain(c: Conn, x: State)
    requires Inv(c) && Live(c) && Plain(x) && (x == CONNECTION_CLOSE_SENT_EXIT ==> c.closeRequested)
    ensures Inv(Write(c, x))
  {
    WriteAddsToken(c, x);
  }

  /** Any way down is safe, provided a fatal one was asked for. */
  lemma ShutdownKeeps(c: Conn, dc: DisconnectType)
    requires CallbackInv(c) && (c.closeRequested <==> c.closeCalls > 0) && (dc == FATAL ==> c.closeRequested)
    ensures Inv(SocketShutdown(c, dc))
  {
  }

  lemma CloseSocketKeeps(c: Conn, dc: DisconnectType)
    requires Inv(c) && (dc == FATAL ==> c.closeRequested)
    ensures Inv(CloseSocket(c, dc))
  {
    if c.socket.Some? && c.socket.value.phase == Up {
      SetPlainState(c, CONNECTION_CLOSED);
      var closed := c.(state := CONNECTION_CLOSED);
      assert Writes(CloseSocket(c, dc)) == Writes(closed);
    } else {
      ShutdownKeeps(c.(state := CONNECTION_CLOSED), dc);
    }
  }

  lemma ExceptionKeeps(c: Conn)
    requires Inv(c) && Live(c)
    ensures Inv(ConnectionException(c))
  {
    if c.state == CONNECTION_CLOSE_SENT_EXIT {
      assert Tokens(c, CONNECTION_CLOSE_SENT_EXIT) > 0;
      CloseSocketKeeps(c, FATAL);
    } else if InUse(c.state) {
      WritePlain(c, CONNECTION_CLOSE_SENT_RECONNECT);
    } else {
      CloseSocketKeeps(c, WILL_RETRY);
    }
  }

  lemma StartKeeps(c: Conn)
    requires Inv(c) && Live(c) && c.state == PROTOCOL_HEADER_SENT
    ensures Inv(Process(c, Start))
  {
    var received := c.(state := CONNECTION_START_RECEIVED, handled := c.handled + [Started]);
    assert Tokens(c, PROTOCOL_HEADER_SENT) == 1 && c.handled == [];
    assert Writes(Write(received, CONNECTION_STARTOK_SENT)) == Writes(c) + [CONNECTION_STARTOK_SENT];
  }

  /** The channel once tune has been accepted or is about to be refused. */
  function TuneReceived(c: Conn): Conn {
    c.(state := CONNECTION_TUNE_RECEIVED, handled := c.handled + [Tuned])
  }

  lemma TuneReceivedKeeps(c: Conn)
    requires Inv(c) && Live(c) && c.state == CONNECTION_STARTOK_SENT
    ensures Inv(TuneReceived(c)) && TuneReceived(c).handled == [Started, Tuned]
    ensures Tokens(TuneReceived(c), CONNECTION_OPEN_SENT) == 0
  {
    assert Tokens(c, CONNECTION_STARTOK_SENT) == 1 && c.handled == [Started];
    assert Writes(TuneReceived(c)) == Writes(c);
  }

  lemma OpenWrittenKeeps(c: Conn)
    requires Inv(c) && Live(c) && c.handled == [Started, Tuned] && Tokens(c, CONNECTION_OPEN_SENT) == 0
    ensures Inv(Write(c, CONNECTION_OPEN_SENT))
  {
    WriteAddsToken(c, CONNECTION_OPEN_SENT);
  }

  lemma TuneKeeps(c: Conn, frameMax: nat)
    requires Inv(c) && Live(c) && c.state == CONNECTION_STARTOK_SENT
    ensures Inv(Process(c, Tune(frameMax)))
  {
    var received := TuneReceived(c);
    TuneReceivedKeeps(c);
    if TuneAccepted(frameMax) {
      WritePlain(received, CONNECTION_TUNEOK_SENT);
      WriteAddsToken(received, CONNECTION_TUNEOK_SENT);
      OpenWrittenKeeps(Write(received, CONNECTION_TUNEOK_SENT));
    } else {
      ExceptionKeeps(received);
    }
  }

  lemma OpenOkKeeps(c: Conn)
    requires Inv(c) && Live(c) && c.state == CONNECTION_OPEN_SENT
    ensures Inv(Process(c, OpenOk))
  {
    assert Tokens(c, CONNECTION_OPEN_SENT) == 1 && c.handled == [Started, Tuned];
    assert Writes(Process(c, OpenOk)) == Writes(c);
  }

  lemma ReceiveKeeps(c: Conn, m: Method)
    requires Inv(c) && Live(c)
    ensures Inv(Process(c, m))
  {
    match m
    case Start =>
      if c.state == PROTOCOL_HEADER_SENT {
        StartKeeps(c);
      } else {
        ExceptionKeeps(c);
      }
    case Tune(frameMax) =>
      if c.state == CONNECTION_STARTOK_SENT {
        TuneKeeps(c, frameMax);
      } else {
        ExceptionKeeps(c);
      }
    case OpenOk =>
      if c.state == CONNECTION_OPEN_SENT {
        OpenOkKeeps(c);
      } else {
        ExceptionKeeps(c);
      }
    case CloseMethod =>
      SetPlainState(c, CONNECTION_CLOSE_RECEIVED);
      WritePlain(c.(state := CONNECTION_CLOSE_RECEIVED), CONNECTION_CLOSEOK_SENT);
    case CloseOk =>
      CloseSocketKeeps(c, if c.state == CONNECTION_CLOSE_SENT_EXIT then FATAL else WILL_RETRY);
    case OtherMethod => ExceptionKeeps(c);
  }

  /** A completion moves a token from the pending writes to the state. */
  lemma WriteCompletesKeeps(c: Conn)
    requires Inv(c) && Live(c) && c.socket.value.writes != []
    ensures Inv(Step(c, WriteCompletes))
  {
    if c.destroyed {
      return;
    }
    var s := c.socket.value;
    var w := s.writes;
    var next := c.(socket := Some(s.(writes := w[1..])), state := w[0]);
    TokenMoves(c, next);
    if w[0] == CONNECTION_CLOSEOK_SENT {
      CloseSocketKeeps(next, WILL_RETRY);
    }
  }

  lemma TokenMoves(c: Conn, next: Conn)
    requires Inv(c) && Live(c) && c.socket.value.writes != []
    requires next == c.(socket := Some(c.socket.value.(writes := c.socket.value.writes[1..])),
                        state := c.socket.value.writes[0])
    ensures Inv(next)
  {
    var w := c.socket.value.writes;
    assert w == [w[0]] + w[1..];
    assert multiset(w) == multiset{w[0]} + multiset(w[1..]);
    assert forall y :: Tokens(next, y) <= Tokens(c, y);
    assert w[0] in w;
  }

  lemma CloseKeeps(c: Conn)
    requires Inv(c) && !c.destroyed
    ensures Inv(Close(c))
  {
    var asked := AskClose(c);
    assert Writes(asked) == Writes(c);
    if c.state == DISCONNECTED {
      ShutdownKeeps(asked, FATAL);
    } else {
      assert Inv(asked) && Live(asked);
      if InUse(asked.state) {
        WritePlain(asked, CONNECTION_CLOSE_SENT_EXIT);
      }
    }
  }

  lemma SocketConnectedKeeps(c: Conn)
    requires Inv(c) && Enabled(c, SocketConnected)
    ensures Inv(Step(c, SocketConnected))
  {
    assert Writes(Step(c, SocketConnected)) == [PROTOCOL_HEADER_SENT];
  }

  lemma RetryKeeps(c: Conn)
    requires Inv(c) && c.retryArmed
    ensures Inv(Retry(c))
  {
  }

  lemma DestructKeeps(c: Conn)
    requires Inv(c) && !c.destroyed
    ensures Inv(Destroy(c))
  {
    var down := SocketShutdown(c, FATAL);
    assert down.closeCb.None? && !down.firstConnectCb;
    assert FireClose(down) == down;
    assert Writes(down) == [];
  }

  lemma StepKeeps(c: Conn, e: Event)
    requires Inv(c)
    ensures Inv(Step(c, e))
  {
    if Enabled(c, e) {
      match e
      case SocketConnected => SocketConnectedKeeps(c);
      case SocketFailed => ShutdownKeeps(c, WILL_RETRY);
      case SocketShut => ShutdownKeeps(c, c.socket.value.phase.disconnect);
      case WriteCompletes => WriteCompletesKeeps(c);
      case Receive(m) => ReceiveKeeps(c, m);
      case HeartbeatsMissed => CloseSocketKeeps(c, WILL_RETRY);
      case Hung => CloseSocketKeeps(c, WILL_RETRY);
      case RetryFires => RetryKeeps(c);
      case CallClose => CloseKeeps(c);
      case Destruct => DestructKeeps(c);
    }
  }

  lemma {:induction false} RunInv(es: seq<Event>)
    ensures Inv(Run(es))
  {
    if es != [] {
      RunInv(es[..|es| - 1]);
      StepKeeps(Run(es[..|es| - 1]), es[|es| - 1]);
    }
  }

  // ---- Close callbacks ----

  /** The waiting close callback was left alone or has fired. */
  predicate FiresAtMost(c: Conn, d: Conn) {
    && d.closeCalls == c.closeCalls
    && d.closesReplaced == c.closesReplaced
    && (if d.closeCb == c.closeCb then d.closesFired == c.closesFired
        else c.closeCb.Some? && d.closeCb == None && d.closesFired == c.closesFired + [c.closeCb.value])
  }

  lemma FiringKeepsPlaces(c: Conn, d: Conn, k: nat)
    requires PlacesInv(c, k) && FiresAtMost(c, d)
    ensures PlacesInv(d, k)
  {
  }

  lemma ShutdownFires(c: Conn, dc: DisconnectType)
    ensures FiresAtMost(c, SocketShutdown(c, dc)) && FiresAtMost(c, FireClose(SocketShutdown(c, dc)))
  {
  }

  lemma CloseSocketFires(c: Conn, dc: DisconnectType)
    ensures FiresAtMost(c, CloseSocket(c, dc))
  {
    ShutdownFires(c.(state := CONNECTION_CLOSED), dc);
  }

  lemma ExceptionFires(c: Conn)
    ensures FiresAtMost(c, ConnectionException(c))
  {
    CloseSocketFires(c, FATAL);
    CloseSocketFires(c, WILL_RETRY);
  }

  lemma TuneFires(c: Conn, frameMax: nat)
    ensures FiresAtMost(c, Process(c, Tune(frameMax)))
  {
    if c.state == CONNECTION_STARTOK_SENT {
      ExceptionFires(c.(state := CONNECTION_TUNE_RECEIVED, handled := c.handled + [Tuned]));
    } else {
      ExceptionFires(c);
    }
  }

  lemma ReceiveFires(c: Conn, m: Method)
    ensures FiresAtMost(c, Process(c, m))
  {
    match m
    case Tune(frameMax) => TuneFires(c, frameMax);
    case CloseMethod =>
    case CloseOk => CloseSocketFires(c, if c.state == CONNECTION_CLOSE_SENT_EXIT then FATAL else WILL_RETRY);
    case _ => ExceptionFires(c);
  }

  lemma WriteCompletesFires(c: Conn)
    requires Enabled(c, WriteCompletes)
    ensures FiresAtMost(c, Step(c, WriteCompletes))
  {
    var s := c.socket.value;
    CloseSocketFires(c.(socket := Some(s.(writes := s.writes[1..])), state := s.writes[0]), WILL_RETRY);
  }

  lemma StepFires(c: Conn, e: Event)
    requires Enabled(c, e) && !e.CallClose?
    ensures FiresAtMost(c, Step(c, e))
  {
    match e
    case SocketConnected =>
    case SocketFailed => ShutdownFires(c, WILL_RETRY);
    case SocketShut => ShutdownFires(c, c.socket.value.phase.disconnect);
    case WriteCompletes => WriteCompletesFires(c);
    case Receive(m) => ReceiveFires(c, m);
    case HeartbeatsMissed => CloseSocketFires(c, WILL_RETRY);
    case Hung => CloseSocketFires(c, WILL_RETRY);
    case RetryFires =>
    case Destruct => ShutdownFires(c, FATAL);
  }

  lemma AskKeepsPlaces(c: Conn, k: nat)
    requires PlacesInv(c, k) && (c.closeCb.Some? ==> c.closeCb.value + 1 == c.closeCalls)
    ensures PlacesInv(AskClose(c), k)
  {
  }

  lemma CloseKeepsPlaces(c: Conn, k: nat)
    requires Inv(c) && PlacesInv(c, k)
    ensures PlacesInv(Close(c), k)
  {
    var asked := AskClose(c);
    AskKeepsPlaces(c, k);
    ShutdownFires(asked, FATAL);
    FiringKeepsPlaces(asked, StartClosing(asked), k);
  }

  lemma StepKeepsPlaces(c: Conn, e: Event, k: nat)
    requires Inv(c) && PlacesInv(c, k)
    ensures PlacesInv(Step(c, e), k)
  {
    if Enabled(c, e) {
      if e.CallClose? {
        CloseKeepsPlaces(c, k);
      } else {
        StepFires(c, e);
        FiringKeepsPlaces(c, Step(c, e), k);
      }
    }
  }

  lemma {:induction false} RunPlaces(es: seq<Event>, k: nat)
    ensures PlacesInv(Run(es), k)
  {
    if es != [] {
      RunInv(es[..|es| - 1]);
      RunPlaces(es[..|es| - 1], k);
      StepKeepsPlaces(Run(es[..|es| - 1]), es[|es| - 1], k);
    }
  }

  // ---- Main results ----

  /** Connected means that start, tune and open-ok were accepted, in that order and
      each once, on the socket in use. */
  lemma ConnectedAfterHandshake(es: seq<Event>)
    requires Run(es).state == CONNECTED
    ensures Run(es).socket.Some? && Run(es).handled == [Started, Tuned, Opened]
  {
    RunInv(es);
  }

  /** Before a close the connection is never abandoned: it has a socket or a retry
      to come, and never both. */
  lemma NeverAbandoned(es: seq<Event>)
    requires !Run(es).closeRequested && !Run(es).destroyed
    ensures Run(es).socket.Some? <==> !Run(es).retryArmed
  {
    RunInv(es);
  }

  // ---- The first result ----

  /** The connection was established at some moment of the run. */
  predicate EverConnected(es: seq<Event>) {
    es != [] && (EverConnected(es[..|es| - 1]) || Run(es).state == CONNECTED)
  }

  /** Without a socket and without another to come. */
  predicate DownForGood(c: Conn) {
    c.socket.None? && (c.closeRequested || c.destroyed)
  }

  /** What the first-connect callback has been told. */
  predicate Told(c: Conn, everConnected: bool) {
    && c.firstConnectCb == (!everConnected && !DownForGood(c))
    && c.firstResults == if everConnected then [true] else if DownForGood(c) then [false] else []
  }

  /** Down, with a retry or for good. */
  lemma ShutdownTells(c: Conn, dc: DisconnectType, everConnected: bool)
    requires Told(c, everConnected) && !c.destroyed && (dc == FATAL ==> c.closeRequested)
    ensures Told(SocketShutdown(c, dc), everConnected) && SocketShutdown(c, dc).state == DISCONNECTED
  {
  }

  lemma CloseSocketTells(c: Conn, dc: DisconnectType, everConnected: bool)
    requires Told(c, everConnected) && !c.destroyed && (dc == FATAL ==> c.closeRequested)
    ensures Told(CloseSocket(c, dc), everConnected) && CloseSocket(c, dc).state != CONNECTED
  {
    ShutdownTells(c.(state := CONNECTION_CLOSED), dc, everConnected);
  }

  lemma ExceptionTells(c: Conn, everConnected: bool)
    requires Told(c, everConnected) && !c.destroyed
    requires c.state == CONNECTION_CLOSE_SENT_EXIT ==> c.closeRequested
    ensures Told(ConnectionException(c), everConnected)
    ensures ConnectionException(c).state == CONNECTED ==> c.state == CONNECTED
  {
    CloseSocketTells(c, if c.state == CONNECTION_CLOSE_SENT_EXIT then FATAL else WILL_RETRY, everConnected);
  }

  lemma ReceiveTells(c: Conn, m: Method, everConnected: bool)
    requires Inv(c) && Live(c) && !c.destroyed && Told(c, everConnected) && (c.state == CONNECTED ==> everConnected)
    ensures Told(Process(c, m), everConnected || Process(c, m).state == CONNECTED)
  {
    assert Tokens(c, CONNECTION_CLOSE_SENT_EXIT) > 0 ==> c.closeRequested;
    match m
    case Tune(frameMax) =>
      ExceptionTells(TuneReceived(c), everConnected);
      ExceptionTells(c, everConnected);
    case CloseMethod =>
    case CloseOk =>
      CloseSocketTells(c, if c.state == CONNECTION_CLOSE_SENT_EXIT then FATAL else WILL_RETRY, everConnected);
    case _ => ExceptionTells(c, everConnected);
  }

  lemma WriteCompletesTells(c: Conn, everConnected: bool)
    requires Inv(c) && Enabled(c, WriteCompletes) && Told(c, everConnected)
    ensures Told(Step(c, WriteCompletes), everConnected) && Step(c, WriteCompletes).state != CONNECTED
  {
    var s := c.socket.value;
    assert s.writes[0] in Writes(c);
    CloseSocketTells(c.(socket := Some(s.(writes := s.writes[1..])), state := s.writes[0]), WILL_RETRY, everConnected);
  }

  lemma CloseTells(c: Conn, everConnected: bool)
    requires Inv(c) && !c.destroyed && Told(c, everConnected) && (c.state == CONNECTED ==> everConnected)
    ensures Told(Close(c), everConnected) && (Close(c).state == CONNECTED ==> everConnected)
  {
    var asked := AskClose(c);
    assert c.socket.None? ==> c.state == DISCONNECTED;
  }

  lemma StepTells(c: Conn, e: Event, everConnected: bool)
    requires Inv(c) && Told(c, everConnected) && (c.state == CONNECTED ==> everConnected)
    ensures Told(Step(c, e), everConnected || Step(c, e).state == CONNECTED)
  {
    if Enabled(c, e) {
      match e
      case SocketConnected =>
      case SocketFailed => ShutdownTells(c, WILL_RETRY, everConnected);
      case SocketShut => ShutdownTells(c, c.socket.value.phase.disconnect, everConnected);
      case WriteCompletes => WriteCompletesTells(c, everConnected);
      case Receive(m) => ReceiveTells(c, m, everConnected);
      case HeartbeatsMissed => CloseSocketTells(c, WILL_RETRY, everConnected);
      case Hung => CloseSocketTells(c, WILL_RETRY, everConnected);
      case RetryFires =>
      case CallClose => CloseTells(c, everConnected);
      case Destruct =>
    }
  }

  /** The first-connect callback is told success if and only if the connection was ever
      established, and failure if and only if it went down for good before that. */
  lemma {:induction false} FirstResultExactly(es: seq<Event>)
    ensures Told(Run(es), EverConnected(es))
    ensures Run(es).state == CONNECTED ==> EverConnected(es)
  {
    if es != [] {
      var n := |es| - 1;
      FirstResultExactly(es[..n]);
      RunInv(es[..n]);
      StepTells(Run(es[..n]), es[n], EverConnected(es[..n]));
    }
  }

  // ---- What a willing broker brings about ----

  /** An attempt to connect has just begun. */
  predicate Dialling(c: Conn) {
    c.socket == Some(Socket(Connecting, [])) && c.state == DISCONNECTED && c.handled == [] && !c.destroyed
  }

  /** Established, with everything written. */
  predicate Settled(c: Conn) {
    c.state == CONNECTED && c.socket == Some(Socket(Up, [])) && !c.destroyed
  }

  lemma FirstWrite(c: Conn, x: State)
    requires c.socket == Some(Socket(Up, []))
    ensures Write(c, x) == c.(socket := Some(Socket(Up, [x])))
  {
    assert [] + [x] == [x];
  }

  lemma LastWriteCompletes(c: Conn, x: State)
    requires c.socket == Some(Socket(Up, [x])) && !c.destroyed
    ensures Step(c, WriteCompletes) == OnWriteComplete(c.(socket := Some(Socket(Up, []))), x)
  {
    assert [x][1..] == [];
  }

  lemma HeaderGoesOut(c: Conn)
    requires Dialling(c)
    ensures Step(Step(c, SocketConnected), WriteCompletes)
         == c.(socket := Some(Socket(Up, [])), state := PROTOCOL_HEADER_SENT)
  {
    var up := c.(socket := Some(Socket(Up, [])));
    FirstWrite(up, PROTOCOL_HEADER_SENT);
    LastWriteCompletes(Write(up, PROTOCOL_HEADER_SENT), PROTOCOL_HEADER_SENT);
  }

  lemma StartOkGoesOut(c: Conn)
    requires c.socket == Some(Socket(Up, [])) && c.state == PROTOCOL_HEADER_SENT && c.handled == [] && !c.destroyed
    ensures Step(Step(c, Receive(Start)), WriteCompletes) == c.(state := CONNECTION_STARTOK_SENT, handled := [Started])
  {
    var started := c.(state := CONNECTION_START_RECEIVED, handled := [Started]);
    assert c.handled + [Started] == [Started];
    FirstWrite(started, CONNECTION_STARTOK_SENT);
    LastWriteCompletes(Write(started, CONNECTION_STARTOK_SENT), CONNECTION_STARTOK_SENT);
  }

  lemma TuneOkAndOpenGoOut(c: Conn, frameMax: nat)
    requires c.socket == Some(Socket(Up, [])) && c.state == CONNECTION_STARTOK_SENT && c.handled == [Started]
    requires !c.destroyed && (frameMax == 0 || frameMax >= 4096)
    ensures Step(Step(Step(c, Receive(Tune(frameMax))), WriteCompletes), WriteCompletes)
         == c.(state := CONNECTION_OPEN_SENT, handled := [Started, Tuned])
  {
    var tuned := c.(state := CONNECTION_TUNE_RECEIVED, handled := [Started, Tuned]);
    var writes := [CONNECTION_TUNEOK_SENT, CONNECTION_OPEN_SENT];
    TuneAcceptedExactly(frameMax);
    assert c.handled + [Tuned] == [Started, Tuned];
    FirstWrite(tuned, CONNECTION_TUNEOK_SENT);
    assert [CONNECTION_TUNEOK_SENT] + [CONNECTION_OPEN_SENT] == writes && writes[1..] == [CONNECTION_OPEN_SENT];
    var both := tuned.(socket := Some(Socket(Up, writes)));
    assert Step(c, Receive(Tune(frameMax))) == both;
    var one := tuned.(socket := Some(Socket(Up, [CONNECTION_OPEN_SENT])), state := CONNECTION_TUNEOK_SENT);
    assert Step(both, WriteCompletes) == one;
    LastWriteCompletes(one, CONNECTION_OPEN_SENT);
  }

  /** The broker's start, tune and open-ok, each when what was written before it is out,
      establish the connection. */
  lemma HandshakeConnects(c: Conn, frameMax: nat)
    requires Dialling(c) && (frameMax == 0 || frameMax >= 4096)
    ensures var header := Step(Step(c, SocketConnected), WriteCompletes);
      var startOk := Step(Step(header, Receive(Start)), WriteCompletes);
      var open := Step(Step(Step(startOk, Receive(Tune(frameMax))), WriteCompletes), WriteCompletes);
      Settled(Step(open, Receive(OpenOk)))
  {
    var header := Step(Step(c, SocketConnected), WriteCompletes);
    HeaderGoesOut(c);
    StartOkGoesOut(header);
    TuneOkAndOpenGoOut(Step(Step(header, Receive(Start)), WriteCompletes), frameMax);
  }

  /** The same attempt, started over. */
  predicate Redialled(c: Conn, d: Conn) {
    Dialling(d) && d.attempts == c.attempts + 1 && d.closesFired == c.closesFired
  }

  /** A connection that has lost its socket tries again when the timer fires. */
  lemma LossReconnects(c: Conn)
    requires c.socket.Some? && !c.closeRequested && !c.destroyed
    ensures Redialled(c, Step(Step(c, SocketFailed), RetryFires))
  {
  }

  /** Missed heartbeats, or a connection or channel found hung, shut the socket, and the
      connection tries again. */
  lemma MissedHeartbeatsReconnect(c: Conn, e: Event)
    requires e.HeartbeatsMissed? || e.Hung?
    requires c.socket.Some? && c.socket.value.phase == Up && !c.closeRequested && !c.destroyed
    ensures var closing := Step(c, e);
      closing.state == CONNECTION_CLOSED && Redialled(c, Step(Step(closing, SocketShut), RetryFires))
  {
  }

  /** The connection is neither down nor being closed. */
  predicate Serving(s: State) {
    s !in {DISCONNECTED, CONNECTION_CLOSE_SENT_EXIT, CONNECTION_CLOSE_SENT_RECONNECT, CONNECTION_CLOSE_RECEIVED,
           CONNECTION_CLOSEOK_SENT, CONNECTION_CLOSED}
  }

  /** A method that does not go with the state, or a tune below the minimum. */
  predicate Unexpected(s: State, m: Method) {
    match m
    case Start => s != PROTOCOL_HEADER_SENT
    case Tune(frameMax) => s != CONNECTION_STARTOK_SENT || 0 < frameMax < 4096
    case OpenOk => s != CONNECTION_OPEN_SENT
    case OtherMethod => true
    case CloseMethod => false
    case CloseOk => false
  }

  /** It makes a connection that is up or coming up ask to be closed; one that is being
      closed shuts the socket, for good if and only if that was what the close was for. */
  lemma UnexpectedMethodCloses(c: Conn, m: Method)
    requires c.socket.Some? && c.socket.value.phase == Up && !c.destroyed && Unexpected(c.state, m)
    ensures var d := Step(c, Receive(m));
      && (Serving(c.state) ==>
            && Writes(d) == Writes(c) + [CONNECTION_CLOSE_SENT_RECONNECT]
            && d.state == if m.Tune? && c.state == CONNECTION_STARTOK_SENT then CONNECTION_TUNE_RECEIVED else c.state)
      && (!Serving(c.state) ==>
            && d.state == CONNECTION_CLOSED
            && d.socket == Some(Socket(Closing(if c.state == CONNECTION_CLOSE_SENT_EXIT then FATAL else WILL_RETRY),
                                       Writes(c))))
  {
    if m.Tune? {
      TuneAcceptedExactly(m.frameMax);
    }
  }

  /** A method out of place makes the client ask to close; the broker's close-ok then
      shuts the socket, and the connection tries again. */
  lemma BadMethodReconnects(c: Conn, m: Method)
    requires Settled(c) && !c.closeRequested && (m.Start? || m.Tune? || m.OpenOk? || m.OtherMethod?)
    ensures var asked := Step(c, Receive(m));
      && Writes(asked) == [CONNECTION_CLOSE_SENT_RECONNECT]
      && var closing := Step(Step(asked, WriteCompletes), Receive(CloseOk));
         Redialled(c, Step(Step(closing, SocketShut), RetryFires))
  {
    var asked := Step(c, Receive(m));
    FirstWrite(c, CONNECTION_CLOSE_SENT_RECONNECT);
    assert asked == c.(socket := Some(Socket(Up, [CONNECTION_CLOSE_SENT_RECONNECT])));
    LastWriteCompletes(asked, CONNECTION_CLOSE_SENT_RECONNECT);
    ClosesAndRedials(c, c.(state := CONNECTION_CLOSE_SENT_RECONNECT));
  }

  lemma ClosesAndRedials(c: Conn, d: Conn)
    requires Settled(c) && !c.closeRequested && d == c.(state := CONNECTION_CLOSE_SENT_RECONNECT)
    ensures Redialled(c, Step(Step(Step(d, Receive(CloseOk)), SocketShut), RetryFires))
  {
  }

  /** The broker's close is answered, the socket shut, and the connection tries again. */
  lemma BrokerCloseReconnects(c: Conn)
    requires Settled(c) && !c.closeRequested
    ensures var told := Step(c, Receive(CloseMethod));
      && Writes(told) == [CONNECTION_CLOSEOK_SENT]
      && Redialled(c, Step(Step(Step(told, WriteCompletes), SocketShut), RetryFires))
  {
    var told := c.(state := CONNECTION_CLOSE_RECEIVED);
    FirstWrite(told, CONNECTION_CLOSEOK_SENT);
    LastWriteCompletes(Write(told, CONNECTION_CLOSEOK_SENT), CONNECTION_CLOSEOK_SENT);
  }

  /** In every run a close while the connection is up or coming up writes Connection.Close
      behind everything else; without a socket it is down for good at once and the
      callback of this close has fired. */
  lemma CloseIsWritten(es: seq<Event>)
    requires !Run(es).destroyed
    ensures var c, d := Run(es), Run(es + [CallClose]);
      && (Serving(c.state) ==> Writes(d) == Writes(c) + [CONNECTION_CLOSE_SENT_EXIT] && d.closeCb == Some(c.closeCalls))
      && (c.state == DISCONNECTED ==> DownForGood(d) && d.closesFired == c.closesFired + [c.closeCalls])
  {
    RunInv(es);
    assert (es + [CallClose])[..|es|] == es;
  }

  /** A close of an established connection ends it: Connection.Close is written, the
      broker's close-ok shuts the socket, and the callback of this close has fired. */
  lemma CloseCompletes(c: Conn)
    requires Settled(c)
    ensures var asked := Step(c, CallClose);
      && Writes(asked) == [CONNECTION_CLOSE_SENT_EXIT]
      && var down := Step(Step(Step(asked, WriteCompletes), Receive(CloseOk)), SocketShut);
         DownForGood(down) && down.closesFired == c.closesFired + [c.closeCalls]
  {
    var asked := AskClose(c);
    FirstWrite(asked, CONNECTION_CLOSE_SENT_EXIT);
    LastWriteCompletes(Write(asked, CONNECTION_CLOSE_SENT_EXIT), CONNECTION_CLOSE_SENT_EXIT);
    CloseOkEnds(asked.(state := CONNECTION_CLOSE_SENT_EXIT));
  }

  lemma CloseOkEnds(c: Conn)
    requires c.state == CONNECTION_CLOSE_SENT_EXIT && c.socket == Some(Socket(Up, [])) && !c.destroyed
    requires c.closeRequested && c.closeCb.Some?
    ensures var down := Step(Step(c, Receive(CloseOk)), SocketShut);
      DownForGood(down) && down.closesFired == c.closesFired + [c.closeCb.value]
  {
  }

  /** The same attempts to connect, and still closing if it was. */
  predicate NoNewAttempt(c: Conn, d: Conn) {
    d.attempts == c.attempts && (c.closeRequested ==> d.closeRequested)
  }

  lemma ExceptionAttempts(c: Conn)
    ensures NoNewAttempt(c, ConnectionException(c))
  {
  }

  lemma ReceiveAttempts(c: Conn, m: Method)
    ensures NoNewAttempt(c, Process(c, m))
  {
    match m
    case Tune(frameMax) =>
      ExceptionAttempts(c);
      ExceptionAttempts(c.(state := CONNECTION_TUNE_RECEIVED, handled := c.handled + [Tuned]));
    case CloseMethod =>
    case CloseOk =>
    case _ => ExceptionAttempts(c);
  }

  lemma StepAfterClose(c: Conn, e: Event)
    requires c.closeRequested
    ensures Step(c, e).closeRequested && Step(c, e).attempts == c.attempts
  {
    if e.Receive? {
      ReceiveAttempts(c, e.m);
    }
  }

  /** Once close has been called no further attempt to connect is made. */
  lemma {:induction false} NoAttemptAfterClose(es: seq<Event>, more: seq<Event>)
    requires Run(es).closeRequested
    ensures Run(es + more).closeRequested && Run(es + more).attempts == Run(es).attempts
    decreases |more|
  {
    if more == [] {
      assert es + more == es;
    } else {
      var n := |more| - 1;
      assert (es + more)[..|es| + n] == es + more[..n];
      NoAttemptAfterClose(es, more[..n]);
      StepAfterClose(Run(es + more[..n]), more[n]);
    }
  }

  /** The first-connect callback has been called or is still to be, once in all; and
      it has been called by the time the connection is gone. */
  lemma FirstConnectReportedOnce(es: seq<Event>)
    ensures |Run(es).firstResults| <= 1
    ensures Run(es).destroyed ==> |Run(es).firstResults| == 1
  {
    RunInv(es);
  }

  /** When the connection is gone, the callback of a close call has fired exactly
      once, unless a later call replaced it while it was waiting: then never. */
  lemma CloseReportedOnce(es: seq<Event>, k: nat)
    requires Run(es).destroyed && k < Run(es).closeCalls
    ensures var c := Run(es);
      multiset(c.closesFired)[k] == (if k in c.closesReplaced then 0 else 1)
      && (k in c.closesReplaced ==> k + 1 < c.closeCalls)
    ensures Run(es).closeCalls == 1 ==> Run(es).closesFired == [0]
  {
    RunInv(es);
    RunPlaces(es, k);
    if Run(es).closeCalls == 1 {
      OnlyOneFired(es);
    }
  }

  lemma OnlyOneFired(es: seq<Event>)
    requires Run(es).destroyed && Run(es).closeCalls == 1
    ensures Run(es).closesFired == [0]
  {
    var fired := Run(es).closesFired;
    RunInv(es);
    RunPlaces(es, 0);
    forall i | 0 <= i < |fired|
      ensures fired[i] == 0
    {
      RunPlaces(es, fired[i]);
      assert fired[i] in multiset(fired);
    }
    CountZeros(fired);
  }

  lemma {:induction false} CountZeros(fired: seq<nat>)
    requires forall i | 0 <= i < |fired| :: fired[i] == 0
    ensures multiset(fired)[0] == |fired|
  {
    if fired != [] {
      CountZeros(fired[1..]);
      assert fired == [fired[0]] + fired[1..];
    }
  }
}
