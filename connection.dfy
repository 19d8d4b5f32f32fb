/**
 * The API client's connection: a WebSocket over the terminal's Unix domain
 * socket, carrying one protobuf-encoded message per binary frame.
 *
 * The transport is abstract. `inbox` holds what the socket will still deliver,
 * in order; once it is exhausted the stream has ended. `outbox` logs every
 * message whose frame was written. The protobuf codec is a pair of given
 * functions, and `sinkError`, when present, is the error with which the socket
 * rejects every write.
 */
module Connection {
  import opened Wrappers
  import opened Text
  import opened Errors
  import Auth

  newtype byte = x: int | 0 <= x < 256

  type Bytes = seq<byte>

  datatype CreateTabRequest = CreateTabRequest(profileName: Option<string>, windowId: Option<string>)

  /** The client-originated message, holding exactly one request. */
  datatype ClientMessage =
    | CreateTab(createTab: CreateTabRequest)
    | SendText(session: string, text: string)
    | ListSessions

  datatype SessionSummary = SessionSummary(uniqueIdentifier: string)

  datatype Tab = Tab(tabId: string, sessions: seq<SessionSummary>)

  datatype Window = Window(windowId: string, tabs: seq<Tab>)

  /** The name of the success value of every response status enumeration. */
  const StatusOk := "OK"

  /**
   * The server-originated message. A status is the name of its enumeration
   * value, which is also how `{:?}` renders it; `OtherResponse` stands for
   * every other submessage, or none.
   */
  datatype ServerMessage =
    | CreateTabResponse(createStatus: string, sessionId: string)
    | SendTextResponse(sendStatus: string)
    | ListSessionsResponse(windows: seq<Window>, buriedSessions: seq<SessionSummary>)
    | OtherResponse(kind: string)

  /** A WebSocket frame: binary, or any other kind (shown by its `{:?}` rendering). */
  datatype Frame = Binary(data: Bytes) | NonBinary(debug: string)

  /** One event read from the socket: a frame, or a transport error. */
  datatype Incoming = Delivered(frame: Frame) | TransportError(cause: string)

  datatype Coded<T> = Coded(value: T) | CodecError(cause: string)

  /** The protobuf encoding of requests and decoding of responses. */
  datatype Codec = Codec(encode: ClientMessage -> Coded<Bytes>, decode: Bytes -> Coded<ServerMessage>)

  // ----- connecting -----

  const SocketRelativePath := "Library/Application Support/iTerm2/private/socket"

  /** The home directory joined with the socket's relative path; no home directory reads as the empty path. */
  function SocketPath(home: Option<string>): (p: string)
    ensures EndsWith(p, SocketRelativePath)
    ensures home.Some? && home.value != "" ==> StartsWith(p, home.value)
  {
    var h := home.UnwrapOr("");
    if h == "" then SocketRelativePath
    else if EndsWith(h, "/") then h + SocketRelativePath
    else h + "/" + SocketRelativePath
  }

  datatype Header = Header(name: string, value: string)

  /**
   * The opening handshake request's headers. The key is the fixed sample
   * nonce of section 1.3 of RFC 6455, and no credential header is added.
   */
  const HandshakeHeaders: seq<Header> := [
    Header("Host", "localhost"),
    Header("Upgrade", "websocket"),
    Header("Connection", "Upgrade"),
    Header("Sec-WebSocket-Key", "dGhlIHNhbXBsZSBub25jZQ=="),
    Header("Sec-WebSocket-Version", "13"),
    Header("Sec-WebSocket-Protocol", "api.iterm2.com"),
    Header("Origin", "ws://localhost/"),
    Header("x-iterm2-library-version", "rust 1.0")
  ]

  /** Whatever the credentials, no line of the request `connect` sends is an authorization header line. */
  lemma HandshakeCarriesNoCredential(a: Auth.Authenticator)
    ensures forall h :: h in HandshakeHeaders ==>
      a.GetAuthHeader().None? || h.name + ": " + h.value != a.GetAuthHeader().value
  {
    if a.GetAuthHeader().Some? {
      var line := a.GetAuthHeader().value;
      assert line[0] == 'i';
      forall h | h in HandshakeHeaders ensures h.name + ": " + h.value != line {
        assert (h.name + ": " + h.value)[0] == h.name[0] != 'i';
      }
    }
  }

  datatype HandshakeResponse = HandshakeResponse(status: nat, canonicalReason: Option<string>)

  datatype HandshakeOutcome = Upgraded(response: HandshakeResponse) | HandshakeError(cause: string)

  /** What the platform answers to each step `connect` may take; the server answers the handshake request's headers. */
  datatype Platform = Platform(
    home: Option<string>,
    socketExists: bool,
    connectError: Option<string>,
    handshake: seq<Header> -> HandshakeOutcome)

  /** `{}` of an HTTP status code: the number, a space, and the canonical reason. */
  function StatusDisplay(response: HandshakeResponse): string {
    NatToString(response.status) + " " + response.canonicalReason.UnwrapOr("<unknown status code>")
  }

  function MissingSocketMessage(path: string): string {
    "iTerm2 Unix domain socket not found at: " + path + ". iTerm2 must be running with API server enabled."
  }

  /** The advice that closes the rejection message. */
  const RejectionAdvice := ". Make sure iTerm2 has 'Allow all apps to connect' enabled in Settings > General > Magic, or run this script from iTerm2."

  function RejectedHandshakeMessage(response: HandshakeResponse): string {
    "WebSocket handshake failed with status " + StatusDisplay(response) + ": "
      + response.canonicalReason.UnwrapOr("Unknown reason")
      + RejectionAdvice
  }

  /** The outcome of `connect`'s checks, in the order it makes them. */
  function ConnectVerdict(p: Platform): (r: Result<()>)
    ensures !p.socketExists ==> r == Err(Connection(MissingSocketMessage(SocketPath(p.home))))
    ensures r.Ok? <==> (p.socketExists && p.connectError.None? && p.handshake(HandshakeHeaders).Upgraded?
      && p.handshake(HandshakeHeaders).response.status == 101)
    ensures r.Err? ==> r.error.Connection?
  {
    if !p.socketExists then Err(Connection(MissingSocketMessage(SocketPath(p.home))))
    else if p.connectError.Some? then Err(Connection("Failed to connect to Unix domain socket: " + p.connectError.value))
    else match p.handshake(HandshakeHeaders)
      case HandshakeError(cause) => Err(Connection("WebSocket handshake failed: " + cause))
      case Upgraded(response) =>
        if response.status != 101 then Err(Connection(RejectedHandshakeMessage(response))) else Ok(())
  }

  /** A missing socket decides the outcome before the connect and handshake steps matter. */
  lemma MissingSocketShortCircuits(p: Platform, q: Platform)
    requires !p.socketExists && !q.socketExists && p.home == q.home
    ensures ConnectVerdict(p) == ConnectVerdict(q)
  {
  }

  /** A rejected handshake is reported with its numeric status and its reason (or "Unknown reason"). */
  lemma RejectionNamesStatus(p: Platform)
    requires p.socketExists && p.connectError.None? && p.handshake(HandshakeHeaders).Upgraded?
    requires p.handshake(HandshakeHeaders).response.status != 101
    ensures ConnectVerdict(p).Err? && ConnectVerdict(p).error.Connection?
    ensures Contains(ConnectVerdict(p).error.message, NatToString(p.handshake(HandshakeHeaders).response.status))
    ensures Contains(ConnectVerdict(p).error.message, p.handshake(HandshakeHeaders).response.canonicalReason.UnwrapOr("Unknown reason"))
  {
    assert ConnectVerdict(p).error.message == RejectedHandshakeMessage(p.handshake(HandshakeHeaders).response);
    RejectionShowsStatus(p.handshake(HandshakeHeaders).response);
    RejectionShowsReason(p.handshake(HandshakeHeaders).response);
  }

  /** The rejection message shows the numeric status. */
  lemma RejectionShowsStatus(response: HandshakeResponse)
    ensures Contains(RejectedHandshakeMessage(response), NatToString(response.status))
  {
    var digits := NatToString(response.status);
    var head := "WebSocket handshake failed with status ";
    var rest := " " + response.canonicalReason.UnwrapOr("<unknown status code>") + ": "
      + response.canonicalReason.UnwrapOr("Unknown reason") + RejectionAdvice;
    assert OccursAt(digits, digits, 0);
    ContainsInFrame(head, digits, rest, digits);
    assert head + digits + rest == RejectedHandshakeMessage(response);
  }

  /** The rejection message shows the canonical reason, or "Unknown reason". */
  lemma RejectionShowsReason(response: HandshakeResponse)
    ensures Contains(RejectedHandshakeMessage(response), response.canonicalReason.UnwrapOr("Unknown reason"))
  {
    var reason := response.canonicalReason.UnwrapOr("Unknown reason");
    var front := "WebSocket handshake failed with status " + StatusDisplay(response) + ": ";
    assert OccursAt(reason, reason, 0);
    ContainsInFrame(front, reason, RejectionAdvice, reason);
    assert front + reason + RejectionAdvice == RejectedHandshakeMessage(response);
  }

  // ----- requests and the interpretation of responses -----

  /** The request of `create_window`: no window id, the profile name exactly when one is given. */
  function CreateWindowRequest(profileName: Option<string>): ClientMessage {
    CreateTab(CreateTabRequest(profileName, None))
  }

  /** The request of `create_tab`: `create_window`'s request with the window id set. */
  function CreateTabInWindowRequest(profileName: Option<string>, windowId: string): ClientMessage {
    CreateTab(CreateWindowRequest(profileName).createTab.(windowId := Some(windowId)))
  }

  lemma RequestsDifferOnlyInWindow(profileName: Option<string>, windowId: string)
    ensures CreateWindowRequest(profileName).createTab.windowId.None?
    ensures CreateTabInWindowRequest(profileName, windowId).createTab.windowId == Some(windowId)
    ensures CreateTabInWindowRequest(profileName, windowId).createTab.profileName
         == CreateWindowRequest(profileName).createTab.profileName == profileName
  {
  }

  /** How `create_window` and `create_tab` read a response; `operation` names the call in the error. */
  function CreateTabOutcome(response: ServerMessage, operation: string): (r: Result<SessionSummary>)
    ensures r.Ok? <==> response.CreateTabResponse? && response.createStatus == StatusOk
    ensures r.Ok? ==> r.value.uniqueIdentifier == response.sessionId
    ensures response.CreateTabResponse? && response.createStatus != StatusOk ==>
      r == Err(Api(operation + " failed: " + response.createStatus))
    ensures !response.CreateTabResponse? ==> r == Err(Api("Expected create tab response"))
  {
    if response.CreateTabResponse? then
      if response.createStatus == StatusOk then Ok(SessionSummary(response.sessionId))
      else Err(Api(operation + " failed: " + response.createStatus))
    else Err(Api("Expected create tab response"))
  }

  function SendTextOutcome(response: ServerMessage): (r: Result<()>)
    ensures r.Ok? <==> response.SendTextResponse? && response.sendStatus == StatusOk
    ensures r.Err? ==> r.error.Api?
    ensures response.SendTextResponse? && response.sendStatus != StatusOk ==>
      r == Err(Api("Send text failed: " + response.sendStatus))
    ensures !response.SendTextResponse? ==> r == Err(Api("Expected send text response"))
  {
    if response.SendTextResponse? then
      if response.sendStatus == StatusOk then Ok(())
      else Err(Api("Send text failed: " + response.sendStatus))
    else Err(Api("Expected send text response"))
  }

  /** `list_sessions`: the buried sessions, the windows ignored. */
  function ListSessionsOutcome(response: ServerMessage): (r: Result<seq<SessionSummary>>)
    ensures r.Ok? <==> response.ListSessionsResponse?
    ensures r.Ok? ==> r.value == response.buriedSessions
    ensures r.Err? ==> r == Err(Api("Expected list sessions response"))
  {
    if response.ListSessionsResponse? then Ok([] + response.buriedSessions)
    else Err(Api("Expected list sessions response"))
  }

  /** `get_windows`: the windows, the buried sessions ignored. */
  function GetWindowsOutcome(response: ServerMessage): (r: Result<seq<Window>>)
    ensures r.Ok? <==> response.ListSessionsResponse?
    ensures r.Ok? ==> r.value == response.windows
    ensures r.Err? ==> r == Err(Api("Expected list sessions response"))
  {
    if response.ListSessionsResponse? then Ok(response.windows)
    else Err(Api("Expected list sessions response"))
  }

  /** The two listing calls send the same request and split one response between them. */
  lemma ListingsPartitionResponse(response: ServerMessage)
    requires response.ListSessionsResponse?
    ensures ListSessionsOutcome(response) == Ok(response.buriedSessions)
    ensures GetWindowsOutcome(response) == Ok(response.windows)
  {
  }

  // ----- the transport -----

  /** What writing `m` yields: no error when its frame was written. */
  function SendFailure(codec: Codec, sinkError: Option<string>, m: ClientMessage): Option<Error> {
    match codec.encode(m)
    case CodecError(cause) => Some(FromProtobuf(cause))
    case Coded(_) => if sinkError.Some? then Some(FromWebSocket(sinkError.value)) else None
  }

  /** How the next inbound event is classified. */
  function Classify(codec: Codec, inbox: seq<Incoming>): (r: Result<ServerMessage>)
    ensures inbox == [] ==> r == Err(Connection("Connection closed"))
    ensures inbox != [] && inbox[0].TransportError? ==> r == Err(WebSocket(inbox[0].cause))
    ensures inbox != [] && inbox[0].Delivered? && inbox[0].frame.NonBinary? ==>
      r.Err? && r.error.Connection? && StartsWith(r.error.message, "Unexpected message type: ")
    ensures r.Ok? <==> inbox != [] && inbox[0].Delivered? && inbox[0].frame.Binary?
                       && codec.decode(inbox[0].frame.data).Coded?
    ensures r.Ok? ==> codec.decode(inbox[0].frame.data) == Coded(r.value)
    ensures inbox != [] && inbox[0].Delivered? && inbox[0].frame.Binary? ==>
      codec.decode(inbox[0].frame.data).CodecError? ==> r.Err? && r.error.Protobuf?
  {
    if inbox == [] then Err(Connection("Connection closed"))
    else match inbox[0]
      case TransportError(cause) => Err(FromWebSocket(cause))
      case Delivered(NonBinary(debug)) => Err(Connection("Unexpected message type: " + debug))
      case Delivered(Binary(data)) =>
        match codec.decode(data)
        case CodecError(cause) => Err(FromProtobuf(cause))
        case Coded(message) => Ok(message)
  }

  /** The events left after one read: a read at end of stream consumes nothing. */
  function Rest(inbox: seq<Incoming>): seq<Incoming> {
    if inbox == [] then [] else inbox[1..]
  }

  function AndThen<T>(received: Result<ServerMessage>, interpret: ServerMessage -> Result<T>): Result<T> {
    match received
    case Err(e) => Err(e)
    case Ok(message) => interpret(message)
  }

  class ITerm2Connection {
    const codec: Codec
    const sinkError: Option<string>
    var inbox: seq<Incoming>
    var outbox: seq<ClientMessage>

    constructor (codec: Codec, sinkError: Option<string>, inbox: seq<Incoming>)
      ensures this.codec == codec && this.sinkError == sinkError
      ensures this.inbox == inbox && outbox == []
    {
      this.codec := codec;
      this.sinkError := sinkError;
      this.inbox := inbox;
      outbox := [];
    }

    /**
     * One operation's effect: `m` is written; if that fails, its error is the
     * result and nothing is read; otherwise exactly one event is read and
     * `interpret` gives the result.
     */
    twostate predicate Exchanged<T>(m: ClientMessage, interpret: ServerMessage -> Result<T>, new r: Result<T>)
      reads this
    {
      match SendFailure(codec, sinkError, m)
      case Some(e) => r == Err(e) && inbox == old(inbox) && outbox == old(outbox)
      case None =>
        && outbox == old(outbox) + [m]
        && inbox == Rest(old(inbox))
        && r == AndThen(Classify(codec, old(inbox)), interpret)
    }

    method SendMessage(m: ClientMessage) returns (r: Result<()>)
      modifies this
      ensures r.Err? <==> SendFailure(codec, sinkError, m).Some?
      ensures r.Err? ==> r.error == SendFailure(codec, sinkError, m).value && outbox == old(outbox)
      ensures r.Ok? ==> outbox == old(outbox) + [m]
      ensures inbox == old(inbox)
    {
      var encoded := codec.encode(m);
      if encoded.CodecError? {
        return Err(FromProtobuf(encoded.cause));
      }
      if sinkError.Some? {
        return Err(FromWebSocket(sinkError.value));
      }
      outbox := outbox + [m];
      r := Ok(());
    }

    method ReceiveMessage() returns (r: Result<ServerMessage>)
      modifies this
      ensures r == Classify(codec, old(inbox))
      ensures inbox == Rest(old(inbox)) && outbox == old(outbox)
    {
      if inbox == [] {
        return Err(Connection("Connection closed"));
      }
      var next := inbox[0];
      inbox := inbox[1..];
      match next
      case TransportError(cause) =>
        r := Err(FromWebSocket(cause));
      case Delivered(NonBinary(debug)) =>
        r := Err(Connection("Unexpected message type: " + debug));
      case Delivered(Binary(data)) =>
        match codec.decode(data)
        case CodecError(cause) => r := Err(FromProtobuf(cause));
        case Coded(message) => r := Ok(message);
    }

    method CreateWindow(profileName: Option<string>) returns (r: Result<SessionSummary>)
      modifies this
      ensures Exchanged(CreateWindowRequest(profileName), response => CreateTabOutcome(response, "Create window"), r)
    {
      var request := CreateTabRequest(None, None);
      if profileName.Some? {
        request := request.(profileName := Some(profileName.value));
      }
      assert ClientMessage.CreateTab(request) == CreateWindowRequest(profileName);
      var sent := SendMessage(ClientMessage.CreateTab(request));
      if sent.Err? {
        return Err(sent.error);
      }
      var response := ReceiveMessage();
      if response.Err? {
        return Err(response.error);
      }
      var message := response.value;
      if message.CreateTabResponse? {
        if message.createStatus == StatusOk {
          r := Ok(SessionSummary(message.sessionId));
        } else {
          assert "Create window" + " failed: " == "Create window failed: ";
          r := Err(Api("Create window failed: " + message.createStatus));
        }
      } else {
        r := Err(Api("Expected create tab response"));
      }
    }

    method CreateTab(profileName: Option<string>, windowId: string) returns (r: Result<SessionSummary>)
      modifies this
      ensures Exchanged(CreateTabInWindowRequest(profileName, windowId), response => CreateTabOutcome(response, "Create tab"), r)
    {
      var request := CreateTabRequest(None, None);
      if profileName.Some? {
        request := request.(profileName := Some(profileName.value));
      }
      request := request.(windowId := Some(windowId));
      assert ClientMessage.CreateTab(request) == CreateTabInWindowRequest(profileName, windowId);
      var sent := SendMessage(ClientMessage.CreateTab(request));
      if sent.Err? {
        return Err(sent.error);
      }
      var response := ReceiveMessage();
      if response.Err? {
        return Err(response.error);
      }
      var message := response.value;
      if message.CreateTabResponse? {
        if message.createStatus == StatusOk {
          r := Ok(SessionSummary(message.sessionId));
        } else {
          assert "Create tab" + " failed: " == "Create tab failed: ";
          r := Err(Api("Create tab failed: " + message.createStatus));
        }
      } else {
        r := Err(Api("Expected create tab response"));
      }
    }

    /** Sends `text` to the session verbatim: no line terminator is added. */
    method SendText(sessionId: string, text: string) returns (r: Result<()>)
      modifies this
      ensures Exchanged(ClientMessage.SendText(sessionId, text), SendTextOutcome, r)
    {
      var sent := SendMessage(ClientMessage.SendText(sessionId, text));
      if sent.Err? {
        return Err(sent.error);
      }
      var response := ReceiveMessage();
      if response.Err? {
        return Err(response.error);
      }
      var message := response.value;
      if message.SendTextResponse? {
        if message.sendStatus == StatusOk {
          r := Ok(());
        } else {
          r := Err(Api("Send text failed: " + message.sendStatus));
        }
      } else {
        r := Err(Api("Expected send text response"));
      }
    }

    method ListSessions() returns (r: Result<seq<SessionSummary>>)
      modifies this
      ensures Exchanged(ClientMessage.ListSessions, ListSessionsOutcome, r)
    {
      var sent := SendMessage(ClientMessage.ListSessions);
      if sent.Err? {
        return Err(sent.error);
      }
      var response := ReceiveMessage();
      if response.Err? {
        return Err(response.error);
      }
      var message := response.value;
      if message.ListSessionsResponse? {
        var sessions: seq<SessionSummary> := [];
        sessions := sessions + message.buriedSessions;
        r := Ok(sessions);
      } else {
        r := Err(Api("Expected list sessions response"));
      }
    }

    method GetWindows() returns (r: Result<seq<Window>>)
      modifies this
      ensures Exchanged(ClientMessage.ListSessions, GetWindowsOutcome, r)
    {
      var sent := SendMessage(ClientMessage.ListSessions);
      if sent.Err? {
        return Err(sent.error);
      }
      var response := ReceiveMessage();
      if response.Err? {
        return Err(response.error);
      }
      var message := response.value;
      if message.ListSessionsResponse? {
        r := Ok(message.windows);
      } else {
        r := Err(Api("Expected list sessions response"));
      }
    }
  }

  /**
   * `connect`: the checks of `ConnectVerdict`, then a connection whose
   * transport delivers `inbox` and which has written nothing yet.
   */
  method Connect(p: Platform, codec: Codec, sinkError: Option<string>, inbox: seq<Incoming>)
    returns (r: Result<ITerm2Connection>)
    ensures r.Err? <==> ConnectVerdict(p).Err?
    ensures r.Err? ==> r.error == ConnectVerdict(p).error
    ensures r.Ok? ==> fresh(r.value) && r.value.outbox == [] && r.value.inbox == inbox
    ensures r.Ok? ==> r.value.codec == codec && r.value.sinkError == sinkError
  {
    var path := SocketPath(p.home);
    if !p.socketExists {
      return Err(Connection(MissingSocketMessage(path)));
    }
    if p.connectError.Some? {
      return Err(Connection("Failed to connect to Unix domain socket: " + p.connectError.value));
    }
    var request := HandshakeHeaders;
    match p.handshake(request) {
      case HandshakeError(cause) =>
        return Err(Connection("WebSocket handshake failed: " + cause));
      case Upgraded(response) =>
        if response.status != 101 {
          return Err(Connection(RejectedHandshakeMessage(response)));
        }
    }
    var connection := new ITerm2Connection(codec, sinkError, inbox);
    r := Ok(connection);
  }
}
