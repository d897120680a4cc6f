/** Server and one client over a network that delivers everything in order: the bodies the client
    shows converge to the roster the server meant it to have. */
module Convergence {
  import opened Numbers
  import opened Protocol
  import opened Sessions
  import opened Traces
  import opened TraceRules
  import Server
  import opened ServerInvariant
  import opened ServerRuns
  import opened ServerTheorems
  import Client
  import opened World

  // The client side of one connection: how much of the server's trace has reached it, its network
  // state, and the bodies of the game.
  datatype Side = Side(pos: nat, client: Client.State, bodies: Bodies)

  // The next entry of the trace arrives if it is a datagram for the client; the game takes the
  // queued events; the game applies the snapshots. The three are separate steps because the
  // network thread may run between taking events and copying snapshots.
  datatype Step =
    | Forward
    | TakeEvents
    | Pump(now: uint64, engine: Engine, reading: Reading)

  function Arrive(c: Client.State, x: Entry, me: Endpoint): Client.State {
    if x.Sent? && x.to == me && Encodable(x.msg) then Client.HandleDatagram(c, Frame(x.msg)) else c
  }

  function Advance(s: Side, trace: Trace, me: Endpoint, step: Step): Side {
    match step
    case Forward =>
      if s.pos >= |trace| then s else s.(pos := s.pos + 1, client := Arrive(s.client, trace[s.pos], me))
    case TakeEvents =>
      s.(bodies := ApplyEvents(s.bodies, s.client.events), client := s.client.(events := []))
    case Pump(now, engine, reading) =>
      s.(bodies := PumpSnapshots(s.bodies, s.client.remote, now, engine, reading))
  }

  function AdvanceAll(s: Side, trace: Trace, me: Endpoint, steps: seq<Step>): Side {
    if steps == [] then s else Advance(AdvanceAll(s, trace, me, steps[..|steps| - 1]), trace, me, steps[|steps| - 1])
  }

  // The client was admitted at entry a, and not again up to entry b.
  predicate OneConnection(trace: Trace, me: Endpoint, a: nat, b: nat) {
    && a < b <= |trace|
    && trace[a].Admitted? && trace[a].endpoint == me
    && forall i :: a < i < b ==> !(trace[i].Admitted? && trace[i].endpoint == me)
  }

  // Once its queue is folded in, the bodies are the roster told so far, and every snapshot held is
  // of a player on it.
  predicate InStep(s: Side, trace: Trace, me: Endpoint) {
    && s.pos <= |trace|
    && ApplyEvents(s.bodies, s.client.events).Keys == Roster(trace[..s.pos], me).Keys
    && s.client.remote.Keys <= Roster(trace[..s.pos], me).Keys
  }

  // ---------------------------------------------------------------- one entry

  lemma RosterNext(trace: Trace, pos: nat, me: Endpoint)
    requires pos < |trace|
    ensures Roster(trace[..pos + 1], me) == RosterStep(Roster(trace[..pos], me), trace[pos], me)
  {
    assert trace[..pos + 1] == trace[..pos] + [trace[pos]];
    Snoc(trace[..pos], trace[pos]);
  }

  lemma EventSnoc(b: Bodies, events: seq<Client.RemoteEvent>, e: Client.RemoteEvent)
    ensures ApplyEvents(b, events + [e]) == ApplyEvent(ApplyEvents(b, events), e)
  {
    assert (events + [e])[..|events|] == events;
  }

  lemma SnapshotInStep(
    remote: map<uint32, Client.RemoteSnapshot>, roster: map<uint32, Bytes>, p: uint32, s: Client.RemoteSnapshot)
    requires remote.Keys <= roster.Keys && p in roster
    ensures Client.Merge(remote, p, s).Keys <= roster.Keys
  {
  }

  lemma LeaveInStep(remote: map<uint32, Client.RemoteSnapshot>, roster: map<uint32, Bytes>, p: uint32)
    requires remote.Keys <= roster.Keys
    ensures (remote - {p}).Keys <= (roster - {p}).Keys
  {
  }

  lemma EventInStep(b: Bodies, events: seq<Client.RemoteEvent>, roster: map<uint32, Bytes>, e: Client.RemoteEvent)
    requires ApplyEvents(b, events).Keys == roster.Keys
    ensures ApplyEvents(b, events + [e]).Keys
            == if e.joined then roster.Keys + {e.playerId} else roster.Keys - {e.playerId}
  {
    EventSnoc(b, events, e);
  }

  // A message does to the client's keys what it does to the roster.
  lemma MessageInStep(c: Client.State, b: Bodies, roster: map<uint32, Bytes>, m: Message)
    requires ApplyEvents(b, c.events).Keys == roster.Keys && c.remote.Keys <= roster.Keys
    requires m.NotifyPlayerState? ==> m.playerId in roster
    ensures var r := Client.HandleMessage(c, m);
            ApplyEvents(b, r.events).Keys == Told(roster, m).Keys && r.remote.Keys <= Told(roster, m).Keys
  {
    hide ApplyEvents, Client.Merge;
    match m {
      case NotifyPlayerJoined(id, username) => EventInStep(b, c.events, roster, Client.RemoteEvent(true, id, username));
      case NotifyPlayerLeft(id) =>
        EventInStep(b, c.events, roster, Client.RemoteEvent(false, id, []));
        LeaveInStep(c.remote, roster, id);
      case NotifyPlayerState(id, tick, position, rotation) =>
        SnapshotInStep(c.remote, roster, id, Client.RemoteSnapshot(tick, position, rotation));
      case _ =>
    }
  }

  lemma ArriveInStep(c: Client.State, b: Bodies, roster: map<uint32, Bytes>, m: Message)
    requires Encodable(m) && ShortText(m)
    requires ApplyEvents(b, c.events).Keys == roster.Keys && c.remote.Keys <= roster.Keys
    requires m.NotifyPlayerState? ==> m.playerId in roster
    ensures var r := Client.HandleDatagram(c, Frame(m));
            ApplyEvents(b, r.events).Keys == Told(roster, m).Keys && r.remote.Keys <= Told(roster, m).Keys
  {
    if Client.ForClient(TypeOf(m)) {
      Client.EncodedArrives(c, m);
      MessageInStep(c, b, roster, m);
    } else {
      FrameIsFramed(m);
      PeekHeaderExact(Frame(m));
    }
  }

  lemma ForwardInStep(s: Side, trace: Trace, me: Endpoint)
    requires TraceOk(trace) && InStep(s, trace, me) && s.pos < |trace|
    requires !(trace[s.pos].Admitted? && trace[s.pos].endpoint == me)
    ensures InStep(Advance(s, trace, me, Forward), trace, me)
  {
    hide Client.HandleDatagram, Frame, Told, Reported;
    var x := trace[s.pos];
    EntryAt(trace, s.pos);
    RosterNext(trace, s.pos, me);
    if x.Sent? && x.to == me {
      ShortTextFits(x.msg);
      ArriveInStep(s.client, s.bodies, Roster(trace[..s.pos], me), x.msg);
    }
  }

  lemma PumpKeepsKeys(
    b: Bodies, remote: map<uint32, Client.RemoteSnapshot>, now: uint64, engine: Engine, reading: Reading)
    ensures PumpSnapshots(b, remote, now, engine, reading).Keys == b.Keys
  {
  }

  // Folding events only looks at which bodies there are.
  lemma {:induction false} EventsByKeys(b: Bodies, c: Bodies, events: seq<Client.RemoteEvent>)
    requires b.Keys == c.Keys
    ensures ApplyEvents(b, events).Keys == ApplyEvents(c, events).Keys
  {
    if events != [] {
      EventsByKeys(b, c, events[..|events| - 1]);
    }
  }

  lemma GameInStep(s: Side, trace: Trace, me: Endpoint, step: Step)
    requires InStep(s, trace, me) && !step.Forward?
    ensures InStep(Advance(s, trace, me, step), trace, me)
  {
    if step.Pump? {
      PumpKeepsKeys(s.bodies, s.client.remote, step.now, step.engine, step.reading);
      var pumped := PumpSnapshots(s.bodies, s.client.remote, step.now, step.engine, step.reading);
      EventsByKeys(s.bodies, pumped, s.client.events);
    }
  }

  lemma {:induction false} PosMoves(s: Side, trace: Trace, me: Endpoint, steps: seq<Step>)
    requires s.pos <= |trace|
    ensures s.pos <= AdvanceAll(s, trace, me, steps).pos <= |trace|
  {
    if steps != [] {
      PosMoves(s, trace, me, steps[..|steps| - 1]);
    }
  }

  lemma {:induction false} StaysInStep(s: Side, trace: Trace, me: Endpoint, steps: seq<Step>, a: nat)
    requires TraceOk(trace) && InStep(s, trace, me) && a < s.pos
    requires OneConnection(trace, me, a, AdvanceAll(s, trace, me, steps).pos)
    ensures InStep(AdvanceAll(s, trace, me, steps), trace, me)
  {
    if steps != [] {
      var before, last := AdvanceAll(s, trace, me, steps[..|steps| - 1]), steps[|steps| - 1];
      PosMoves(s, trace, me, steps[..|steps| - 1]);
      StaysInStep(s, trace, me, steps[..|steps| - 1], a);
      if last.Forward? {
        if before.pos < |trace| {
          ForwardInStep(before, trace, me);
        }
      } else {
        GameInStep(before, trace, me, last);
      }
    }
  }

  // ---------------------------------------------------------------- convergence

  // A fresh connection with no bodies, at the moment the server admits it.
  function Fresh(username: Bytes, now: uint64, a: nat): Side {
    Side(a + 1, Client.Connect(username, now), map[])
  }

  lemma BodiesInTrace(
    trace: Trace, me: Endpoint, username: Bytes, now: uint64, steps: seq<Step>, a: nat)
    requires TraceOk(trace) && OneConnection(trace, me, a, AdvanceAll(Fresh(username, now, a), trace, me, steps).pos)
    ensures var s := AdvanceAll(Fresh(username, now, a), trace, me, steps);
            s.client.events == [] ==> FollowsRoster(s, trace, me)
  {
    RosterNext(trace, a, me);
    StaysInStep(Fresh(username, now, a), trace, me, steps, a);
  }

  // The bodies are exactly those of the roster told so far, and every snapshot held has a body.
  predicate FollowsRoster(s: Side, trace: Trace, me: Endpoint) {
    && s.pos <= |trace|
    && s.bodies.Keys == Roster(trace[..s.pos], me).Keys
    && s.client.remote.Keys <= s.bodies.Keys
  }

  // In any run of the server, from the moment it admitted the client: whatever prefix of what it sent
  // has been delivered, and however deliveries, event pumps and snapshot pumps were mixed, with no
  // event left in the queue the bodies follow the roster.
  lemma BodiesFollowRoster(
    maxPlayers: nat, timeoutMs: uint64, scripts: seq<Server.Script>, inputs: seq<Server.Input>,
    me: Endpoint, username: Bytes, now: uint64, steps: seq<Step>, a: nat)
    requires IdsLast(After(maxPlayers, timeoutMs, scripts, inputs))
    ensures var trace := After(maxPlayers, timeoutMs, scripts, inputs).trace;
            var s := AdvanceAll(Fresh(username, now, a), trace, me, steps);
            OneConnection(trace, me, a, s.pos) && s.client.events == [] ==> FollowsRoster(s, trace, me)
  {
    var trace := After(maxPlayers, timeoutMs, scripts, inputs).trace;
    RunKeeps(maxPlayers, timeoutMs, scripts, inputs);
    if OneConnection(trace, me, a, AdvanceAll(Fresh(username, now, a), trace, me, steps).pos) {
      BodiesInTrace(trace, me, username, now, steps, a);
    }
  }

  // The client of session k was admitted at entry a and has been sent everything since, and the
  // game has taken all its events.
  predicate CaughtUp(server: Server.State, s: Side, me: Endpoint, a: nat, k: nat) {
    && k < |server.table.sessions| && server.table.sessions[k].endpoint == me
    && OneConnection(server.trace, me, a, |server.trace|)
    && s.pos == |server.trace| && s.client.events == []
  }

  // Exactly the other live players have bodies, and nobody else is remembered.
  predicate ShowsOthers(server: Server.State, s: Side, k: nat) {
    && s.bodies.Keys == (set j | 0 <= j < |server.table.sessions| && j != k :: server.table.sessions[j].id)
    && s.client.remote.Keys <= s.bodies.Keys
  }

  // So when everything has been delivered and taken, and the client's session is live, it shows
  // exactly the other live players.
  lemma BodiesConverge(
    maxPlayers: nat, timeoutMs: uint64, scripts: seq<Server.Script>, inputs: seq<Server.Input>,
    me: Endpoint, username: Bytes, now: uint64, steps: seq<Step>, a: nat, k: nat)
    ensures var server := After(maxPlayers, timeoutMs, scripts, inputs);
            var s := AdvanceAll(Fresh(username, now, a), server.trace, me, steps);
            IdsLast(server) && CaughtUp(server, s, me, a, k) ==> ShowsOthers(server, s, k)
  {
    var server := After(maxPlayers, timeoutMs, scripts, inputs);
    var s := AdvanceAll(Fresh(username, now, a), server.trace, me, steps);
    if IdsLast(server) && CaughtUp(server, s, me, a, k) {
      RunKeeps(maxPlayers, timeoutMs, scripts, inputs);
      BodiesInTrace(server.trace, me, username, now, steps, a);
      assert server.trace[..|server.trace|] == server.trace;
      RosterNamesOthers(server.trace, server.table.sessions, k);
      OthersAsSet(Roster(server.trace, me), server.table.sessions, k);
    }
  }

  lemma OthersAsSet(r: map<uint32, Bytes>, ss: seq<Session>, k: nat)
    requires k < |ss| && NamesOthers(r, ss, k)
    requires IdsIncrease(ss)
    ensures r.Keys == (set j | 0 <= j < |ss| && j != k :: ss[j].id)
  {
    forall id | id in r
      ensures exists j :: 0 <= j < |ss| && j != k && ss[j].id == id
    {
      var j :| 0 <= j < |ss| && ss[j].id == id;
      assert j != k;
    }
  }
}
