/** The client's network thread, src/client/NetClient.cpp, as a state machine: the connection and
    its timers, the snapshot map and the event queue. */
module Client {
  import opened Numbers
  import opened Protocol

  const HELLO_RETRY_MS: nat := 500
  const MAX_HELLO_ATTEMPTS: nat := 10
  const PING_INTERVAL_MS: nat := 1000
  const SERVER_TIMEOUT_MS: nat := 8000

  datatype NetState = Disconnected | Connecting | Connected | Refused

  datatype RemoteSnapshot = RemoteSnapshot(tick: uint64, position: Vec3, rotation: Float32)

  datatype RemoteEvent = RemoteEvent(joined: bool, playerId: uint32, username: Bytes)

  // A message handed to the socket, and the loop's clock at that moment.
  datatype Outgoing = Outgoing(at: uint64, msg: Message)

  // `running` says that the loop has not returned; `sent` is the record of everything sent.
  datatype State = State(
    username: Bytes,
    net: NetState,
    running: bool,
    attempts: nat,
    lastHelloAt: uint64,
    lastPingAt: uint64,
    lastServerAt: uint64,
    remote: map<uint32, RemoteSnapshot>,
    events: seq<RemoteEvent>,
    tasks: nat,
    received: nat,
    malformed: nat,
    outOfOrder: nat,
    sent: seq<Outgoing>)

  // One pass of the loop: its clock, the timestamp a ping would carry, and the server's datagram if
  // one came. Datagrams from anyone else are passed over like an empty poll.
  datatype Turn = Turn(now: uint64, micros: uint64, datagram: Option<Bytes>)

  // A new connection, its thread just started.
  function Connect(username: Bytes, now: uint64): State {
    State(username, Connecting, true, 0, 0, 0, now, map[], [], 0, 0, 0, 0, [])
  }

  // ---------------------------------------------------------------- receiving

  // A snapshot newer than the one held replaces it; tick 0 stands for none.
  function Merge(remote: map<uint32, RemoteSnapshot>, id: uint32, s: RemoteSnapshot): map<uint32, RemoteSnapshot> {
    if id in remote && remote[id].tick != 0 && s.tick <= remote[id].tick then remote else remote[id := s]
  }

  function HandleAck(c: State, accepted: bool): State {
    c.(net := if accepted then Connected else Refused)
  }

  function HandleState(c: State, m: Message): State
    requires m.NotifyPlayerState?
  {
    var remote := Merge(c.remote, m.playerId, RemoteSnapshot(m.tick, m.position, m.rotation));
    var stale := m.playerId in c.remote && c.remote[m.playerId].tick != 0 && m.tick <= c.remote[m.playerId].tick;
    c.(remote := remote, outOfOrder := c.outOfOrder + if stale then 1 else 0)
  }

  // What a message of the server does to the client.
  function HandleMessage(c: State, m: Message): State {
    match m
    case HelloAck(accepted, _, _) => HandleAck(c, accepted)
    case NotifyPlayerJoined(id, username) => c.(events := c.events + [RemoteEvent(true, id, username)])
    case NotifyPlayerLeft(id) => c.(remote := c.remote - {id}, events := c.events + [RemoteEvent(false, id, [])])
    case NotifyPlayerState(_, _, _, _) => HandleState(c, m)
    case Pong(_) => c.(tasks := c.tasks + 1)
    case _ => c.(malformed := c.malformed + 1)
  }

  // The message types a client takes.
  predicate ForClient(t: Type) {
    t == HelloAckType || t == NotifyPlayerJoinedType || t == NotifyPlayerLeftType
    || t == NotifyPlayerStateType || t == PongType
  }

  function HandleDatagram(c: State, data: Bytes): State {
    match PeekHeader(data)
    case None => c.(malformed := c.malformed + 1)
    case Some(header) =>
      if !ForClient(header.kind) then c.(malformed := c.malformed + 1)
      else
        match Decode(data, header.kind)
        case None => c.(malformed := c.malformed + 1)
        case Some(m) => HandleMessage(c, m)
  }

  // ---------------------------------------------------------------- the timers

  function Send(c: State, now: uint64, m: Message): State {
    if Encodable(m) then c.(sent := c.sent + [Outgoing(now, m)]) else c
  }

  function SendHello(c: State, now: uint64): State {
    var hello := Hello(VERSION, c.username);
    if !Encodable(hello) then c else Send(c, now, hello).(attempts := c.attempts + 1)
  }

  function Timers(c: State, now: uint64, micros: uint64): State {
    match c.net
    case Connecting =>
      if Minus64(now, c.lastHelloAt) < HELLO_RETRY_MS then c
      else if c.attempts >= MAX_HELLO_ATTEMPTS then c.(net := Disconnected, running := false)
      else SendHello(c, now).(lastHelloAt := now)
    case Connected =>
      var c1 := if Minus64(now, c.lastPingAt) >= PING_INTERVAL_MS
                then Send(c, now, Ping(micros)).(lastPingAt := now) else c;
      if Minus64(now, c.lastServerAt) >= SERVER_TIMEOUT_MS then c1.(net := Disconnected, running := false) else c1
    case _ => c.(running := false)
  }

  // A datagram of the server has come.
  function Hear(c: State, now: uint64): State {
    c.(lastServerAt := now, received := c.received + 1)
  }

  function Iterate(c: State, turn: Turn): State {
    if !c.running then c
    else
      var c1 := Timers(c, turn.now, turn.micros);
      if !c1.running || turn.datagram.None? then c1
      else HandleDatagram(Hear(c1, turn.now), turn.datagram.value)
  }

  function Run(c: State, turns: seq<Turn>): State {
    if turns == [] then c else Iterate(Run(c, turns[..|turns| - 1]), turns[|turns| - 1])
  }

  // ---------------------------------------------------------------- what arrives of what was sent

  // Whatever the server encodes for the client arrives as that message; a string the server may
  // send is always short enough to be read.
  lemma EncodedArrives(c: State, m: Message)
    requires Encodable(m) && ShortText(m) && ForClient(TypeOf(m))
    ensures HandleDatagram(c, Frame(m)) == HandleMessage(c, m)
  {
    FrameIsFramed(m);
    PeekHeaderExact(Frame(m));
    RoundTrip(m, TypeOf(m));
  }
}
