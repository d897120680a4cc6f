/** The server as a state machine: the handlers and one iteration of the main loop of
    src/server/main.cpp, with the kick queue and event dispatch of src/server/ScriptHost.cpp. */
module Server {
  import opened Numbers
  import opened Protocol
  import opened Sessions
  import opened Traces

  const MAX_PLAYERS: nat := 32
  const TIMEOUT_MS: uint64 := 10000

  datatype PendingKick = PendingKick(playerId: uint32, reason: Bytes)

  // A script backend: the kicks it asks for in one callback, given how many callbacks went before,
  // the event and the sessions it can look at. Since no two callbacks share a number, every
  // behaviour a script can show in a run, whatever it depends on, is some such function.
  type Script = (nat, Event, seq<Session>) -> seq<PendingKick>

  // The datagram taken in an iteration, and the moment it arrived.
  datatype Arrival = Arrival(from: Endpoint, data: Bytes, at: nat)

  // What the outside world contributes to one iteration.
  datatype Input = Input(now: uint64, arrival: Option<Arrival>)

  datatype State = State(table: Table, kicks: seq<PendingKick>, calls: nat, rejected: nat, trace: Trace)

  // ---------------------------------------------------------------- sending

  function Append(s: State, entries: Trace): State {
    s.(trace := s.trace + entries)
  }

  function Reply(s: State, to: Endpoint, m: Message): State {
    if Encodable(m) then Append(s, [Sent(to, m)]) else s
  }

  function Broadcast(s: State, m: Message, except: uint32): State {
    if Encodable(m) then Append(s, Fan(s.table.sessions, m, except)) else s
  }

  // ---------------------------------------------------------------- scripts

  // A script reaches a player only by looking its id up, so kicks of ids that are not live vanish.
  function KickStep(kicks: seq<PendingKick>, k: PendingKick, t: Table): seq<PendingKick> {
    if FindId(t, k.playerId).Some? then kicks + [k] else kicks
  }

  function QueueKicks(kicks: seq<PendingKick>, asked: seq<PendingKick>, t: Table): seq<PendingKick> {
    if asked == [] then kicks
    else KickStep(QueueKicks(kicks, asked[..|asked| - 1], t), asked[|asked| - 1], t)
  }

  function Requests(kicks: seq<PendingKick>, scripts: seq<Script>, call: nat, event: Event, t: Table)
    : seq<PendingKick>
  {
    if scripts == [] then kicks
    else
      var n := |scripts| - 1;
      QueueKicks(Requests(kicks, scripts[..n], call, event, t), scripts[n](call, event, t.sessions), t)
  }

  // Hands one event to every backend in turn.
  function Dispatch(s: State, scripts: seq<Script>, event: Event): State {
    s.(kicks := Requests(s.kicks, scripts, s.calls, event, s.table),
       calls := s.calls + 1,
       trace := s.trace + CallEntries(|scripts|, s.calls, event, s.table.sessions))
  }

  // ---------------------------------------------------------------- leaving

  // The player has just been taken out of the table.
  function Announce(s: State, scripts: seq<Script>, id: uint32): State {
    Dispatch(Broadcast(s, NotifyPlayerLeft(id), id), scripts, LeaveEvent(id))
  }

  function Sweep(s: State, scripts: seq<Script>, now: uint64): (r: State)
    decreases |s.table.sessions|
  {
    var (t, dropped) := TakeNextTimedOut(s.table, now);
    if dropped.None? then s
    else Sweep(Announce(s.(table := t), scripts, dropped.value.id), scripts, now)
  }

  function Kick(s: State, scripts: seq<Script>, id: uint32): State {
    if FindId(s.table, id).None? then s
    else Announce(s.(table := Remove(s.table, id).0), scripts, id)
  }

  function Drain(s: State, scripts: seq<Script>, batch: seq<PendingKick>): State {
    if batch == [] then s
    else Kick(Drain(s, scripts, batch[..|batch| - 1]), scripts, batch[|batch| - 1].playerId)
  }

  // The batch is fixed when it is taken; what is asked for while draining waits for the next one.
  function TakeAndDrain(s: State, scripts: seq<Script>): State {
    Drain(s.(kicks := []), scripts, s.kicks)
  }

  // ---------------------------------------------------------------- datagrams

  function Ascii(text: string): Bytes {
    seq(|text|, i requires 0 <= i < |text| => text[i] as int % 0x100)
  }

  function Reason(result: JoinResult): (r: Bytes)
    ensures |r| <= 25
  {
    match result
    case Accepted => Ascii("accepted")
    case AlreadyJoined => Ascii("already joined")
    case VersionMismatch => Ascii("protocol version mismatch")
    case NameTaken => Ascii("name already taken")
    case Full => Ascii("server full")
  }

  function Ack(result: JoinResult): Message {
    if result == Accepted || result == AlreadyJoined then HelloAck(true, VERSION, [])
    else HelloAck(false, VERSION, Reason(result))
  }

  // The newcomer hears who is here, everyone else hears of the newcomer, then the scripts do.
  function Introduce(s: State, scripts: seq<Script>, id: uint32, from: Endpoint, username: Bytes): State {
    var s1 := Append(s, Introductions(s.table.sessions, from, id));
    var s2 := Broadcast(s1, NotifyPlayerJoined(id, username), id);
    Dispatch(s2, scripts, JoinEvent(id))
  }

  function Greet(s: State, scripts: seq<Script>, from: Endpoint, version: uint32, username: Bytes, now: uint64): State {
    var (t, result, id) := Join(s.table, from, username, version, now);
    var s1 := s.(table := t, trace := s.trace + if result == Accepted then [Admitted(id, from, username)] else []);
    var s2 := Reply(s1, from, Ack(result));
    if result == Accepted then Introduce(s2, scripts, id, from, username) else s2
  }

  function HandleHello(s: State, scripts: seq<Script>, from: Endpoint, data: Bytes, now: uint64): State {
    match Decode(data, HelloType)
    case Some(Hello(version, username)) => Greet(s, scripts, from, version, username, now)
    case _ => s
  }

  function HandlePing(s: State, from: Endpoint, data: Bytes): State {
    match Decode(data, PingType)
    case Some(Ping(sentAt)) => if FindEndpoint(s.table, from).Some? then Reply(s, from, Pong(sentAt)) else s
    case _ => s
  }

  function Relay(s: State, from: Endpoint, tick: uint64, position: Vec3, rotation: Float32): State {
    var (t, applied) := ApplyState(s.table, from, tick, position, rotation);
    if !applied then s
    else
      var id := FindEndpoint(s.table, from).value.id;
      Broadcast(s.(table := t), NotifyPlayerState(id, tick, position, rotation), id)
  }

  function HandlePlayerState(s: State, from: Endpoint, data: Bytes): State {
    match Decode(data, PlayerStateType)
    case Some(PlayerState(tick, position, rotation)) => Relay(s, from, tick, position, rotation)
    case _ => s
  }

  function Handle(s: State, scripts: seq<Script>, kind: Type, from: Endpoint, data: Bytes, now: uint64): State {
    match kind
    case HelloType => HandleHello(s, scripts, from, data, now)
    case PingType => HandlePing(s, from, data)
    case PlayerStateType => HandlePlayerState(s, from, data)
    case _ => s.(rejected := s.rejected + 1)
  }

  function HandleDatagram(s: State, scripts: seq<Script>, a: Arrival, now: uint64): State {
    var s1 := Append(s, [Received(a.from, a.data, a.at)]);
    match PeekHeader(a.data)
    case None => s1.(rejected := s1.rejected + 1)
    case Some(header) =>
      Handle(s1.(table := Touch(s1.table, a.from, now)), scripts, header.kind, a.from, a.data, now)
  }

  // ---------------------------------------------------------------- the main loop

  function Iterate(s: State, scripts: seq<Script>, input: Input): State {
    var s1 := Sweep(s, scripts, input.now);
    var s2 := Dispatch(s1, scripts, TickEvent(input.now));
    var s3 := TakeAndDrain(s2, scripts);
    if input.arrival.None? then s3 else HandleDatagram(s3, scripts, input.arrival.value, input.now)
  }

  function Start(maxPlayers: nat, timeoutMs: uint64): State {
    State(EmptyTable(maxPlayers, timeoutMs), [], 0, 0, [])
  }

  // The server after these iterations.
  function Run(s: State, scripts: seq<Script>, inputs: seq<Input>): State {
    if inputs == [] then s
    else Iterate(Run(s, scripts, inputs[..|inputs| - 1]), scripts, inputs[|inputs| - 1])
  }
}
