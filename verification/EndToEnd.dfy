/** Server, network and one client together, over a network that loses, repeats and reorders
    datagrams as it likes: what the client holds of a player never goes back. */
module EndToEnd {
  import opened Numbers
  import opened Protocol
  import opened Sessions
  import opened Traces
  import opened TraceRules
  import Server
  import opened ServerInvariant
  import opened ServerRuns
  import opened ServerTheorems
  import Client
  import opened World

  // ---------------------------------------------------------------- a lossy network

  datatype System = System(server: Server.State, client: Client.State)

  // The server goes round its loop; the client's loop gets one of the datagrams ever sent to it,
  // any number of times and in any order; or the client's loop goes round without one; or its game
  // takes the queued events.
  datatype Event =
    | Serve(input: Server.Input)
    | Deliver(index: nat, now: uint64, micros: uint64)
    | Wait(now: uint64, micros: uint64)
    | Take

  predicate Deliverable(trace: Trace, index: nat, me: Endpoint) {
    index < |trace| && trace[index].Sent? && trace[index].to == me && Encodable(trace[index].msg)
  }

  function Happen(s: System, scripts: seq<Server.Script>, me: Endpoint, e: Event): System {
    match e
    case Serve(input) => s.(server := Server.Iterate(s.server, scripts, input))
    case Deliver(index, now, micros) =>
      if !Deliverable(s.server.trace, index, me) then s
      else s.(client := Client.Iterate(s.client, Client.Turn(now, micros, Some(Frame(s.server.trace[index].msg)))))
    case Wait(now, micros) => s.(client := Client.Iterate(s.client, Client.Turn(now, micros, None)))
    case Take => s.(client := s.client.(events := []))
  }

  function HappenAll(s: System, scripts: seq<Server.Script>, me: Endpoint, events: seq<Event>): System {
    if events == [] then s
    else Happen(HappenAll(s, scripts, me, events[..|events| - 1]), scripts, me, events[|events| - 1])
  }

  function Begin(maxPlayers: nat, timeoutMs: uint64, username: Bytes, now: uint64): System {
    System(Server.Start(maxPlayers, timeoutMs), Client.Connect(username, now))
  }

  // The server sent this snapshot of player p to the client.
  predicate WasSent(trace: Trace, me: Endpoint, p: uint32, r: Client.RemoteSnapshot) {
    exists i :: 0 <= i < |trace| && trace[i] == Sent(me, NotifyPlayerState(p, r.tick, r.position, r.rotation))
  }

  predicate RemoteWasSent(trace: Trace, me: Endpoint, remote: map<uint32, Client.RemoteSnapshot>) {
    forall p :: p in remote ==> WasSent(trace, me, p, remote[p])
  }

  ghost predicate SystemOk(s: System, me: Endpoint, backends: nat) {
    Inv(s.server, backends) && RemoteWasSent(s.server.trace, me, s.client.remote)
  }

  lemma WasSentStays(trace: Trace, t: Trace, me: Endpoint, remote: map<uint32, Client.RemoteSnapshot>)
    requires trace <= t && RemoteWasSent(trace, me, remote)
    ensures RemoteWasSent(t, me, remote)
  {
    forall p | p in remote
      ensures WasSent(t, me, p, remote[p])
    {
      var i :| 0 <= i < |trace| &&
               trace[i] == Sent(me, NotifyPlayerState(p, remote[p].tick, remote[p].position, remote[p].rotation));
      assert t[i] == trace[i];
    }
  }

  // ---------------------------------------------------------------- one delivery

  // What one turn of the client's loop with this message of the server does to the snapshots.
  function Remembered(remote: map<uint32, Client.RemoteSnapshot>, m: Message): map<uint32, Client.RemoteSnapshot> {
    match m
    case NotifyPlayerState(p, tick, position, rotation) =>
      Client.Merge(remote, p, Client.RemoteSnapshot(tick, position, rotation))
    case NotifyPlayerLeft(p) => remote - {p}
    case _ => remote
  }

  lemma TimersKeepRemote(c: Client.State, now: uint64, micros: uint64)
    ensures Client.Timers(c, now, micros).remote == c.remote
  {
  }

  lemma MessageRemembered(c: Client.State, m: Message)
    ensures Client.HandleMessage(c, m).remote == Remembered(c.remote, m)
  {
  }

  lemma OthersAreMalformed(c: Client.State, m: Message)
    requires Encodable(m) && !Client.ForClient(TypeOf(m))
    ensures Client.HandleDatagram(c, Frame(m)).remote == c.remote && Remembered(c.remote, m) == c.remote
  {
    FrameIsFramed(m);
    PeekHeaderExact(Frame(m));
  }

  lemma DeliveryRemembered(c: Client.State, m: Message, now: uint64, micros: uint64)
    requires Encodable(m) && ShortText(m)
    ensures var r := Client.Iterate(c, Client.Turn(now, micros, Some(Frame(m)))).remote;
            r == c.remote || r == Remembered(c.remote, m)
  {
    var c1 := Client.Timers(c, now, micros);
    TimersKeepRemote(c, now, micros);
    var c2 := Client.Hear(c1, now);
    if Client.ForClient(TypeOf(m)) {
      Client.EncodedArrives(c2, m);
      MessageRemembered(c2, m);
    } else {
      OthersAreMalformed(c2, m);
    }
  }

  // ---------------------------------------------------------------- no rewind

  // The snapshot of p is still there and is the same or has a higher tick.
  predicate NotRewound(
    before: map<uint32, Client.RemoteSnapshot>, after: map<uint32, Client.RemoteSnapshot>, p: uint32)
  {
    p in before ==> p in after && (after[p] == before[p] || before[p].tick < after[p].tick)
  }

  // By itself the client lets a snapshot replace one that is not older in exactly one case: both
  // carry tick 0, which the client takes for having none yet, and they differ.
  lemma MergeRewindsOnlyAtZero(remote: map<uint32, Client.RemoteSnapshot>, p: uint32, r: Client.RemoteSnapshot)
    ensures NotRewound(remote, Client.Merge(remote, p, r), p)
            <==> !(p in remote && remote[p].tick == 0 && r.tick == 0 && r != remote[p])
  {
  }

  // Two snapshots with tick 0, one after the other: the second one is taken.
  lemma SecondZeroReplaces(c: Client.State, p: uint32, here: Vec3, there: Vec3)
    requires here != there
    ensures var first := Client.HandleMessage(c.(remote := map[]), NotifyPlayerState(p, 0, here, 0));
            var second := Client.HandleMessage(first, NotifyPlayerState(p, 0, there, 0));
            p in first.remote && !NotRewound(first.remote, second.remote, p)
  {
  }

  // A snapshot that was sent never takes the place of a newer one, nor of another with its tick:
  // the client lets equal ticks through only at tick 0, and the server sends a tick only once.
  lemma MergeNeverRewinds(
    trace: Trace, me: Endpoint, remote: map<uint32, Client.RemoteSnapshot>, index: nat, p: uint32)
    requires TraceOk(trace) && RemoteWasSent(trace, me, remote)
    requires index < |trace| && trace[index].Sent? && trace[index].to == me && trace[index].msg.NotifyPlayerState?
    ensures NotRewound(remote, Remembered(remote, trace[index].msg), p)
  {
    hide Decode;
    var m := trace[index].msg;
    if p == m.playerId && p in remote {
      var i :| 0 <= i < |trace| &&
               trace[i] == Sent(me, NotifyPlayerState(p, remote[p].tick, remote[p].position, remote[p].rotation));
      if i < index {
        TicksRise(trace, i, index);
      } else if index < i {
        TicksRise(trace, index, i);
      }
    }
  }

  lemma MergeWasSent(trace: Trace, me: Endpoint, remote: map<uint32, Client.RemoteSnapshot>, index: nat)
    requires RemoteWasSent(trace, me, remote)
    requires index < |trace| && trace[index].Sent? && trace[index].to == me
    ensures RemoteWasSent(trace, me, Remembered(remote, trace[index].msg))
  {
    var m := trace[index].msg;
    if m.NotifyPlayerState? {
      assert trace[index] == Sent(me, NotifyPlayerState(m.playerId, m.tick, m.position, m.rotation));
    }
  }

  predicate DeliversLeave(trace: Trace, me: Endpoint, e: Event, p: uint32) {
    e.Deliver? && Deliverable(trace, e.index, me) && trace[e.index].msg == NotifyPlayerLeft(p)
  }

  lemma HappenKeeps(s: System, scripts: seq<Server.Script>, me: Endpoint, e: Event)
    requires SystemOk(s, me, |scripts|) && IdsLast(Happen(s, scripts, me, e).server)
    ensures SystemOk(Happen(s, scripts, me, e), me, |scripts|)
  {
    match e {
      case Serve(input) =>
        IterateKeeps(s.server, scripts, input);
        IterateExtends(s.server, scripts, input);
        WasSentStays(s.server.trace, Server.Iterate(s.server, scripts, input).trace, me, s.client.remote);
      case Deliver(index, now, micros) =>
        if Deliverable(s.server.trace, index, me) {
          EntryAt(s.server.trace, index);
          DeliveryRemembered(s.client, s.server.trace[index].msg, now, micros);
          MergeWasSent(s.server.trace, me, s.client.remote, index);
        }
      case Wait(now, micros) => TimersKeepRemote(s.client, now, micros);
      case Take =>
    }
  }

  lemma HappenNeverRewinds(s: System, scripts: seq<Server.Script>, me: Endpoint, e: Event, p: uint32)
    requires SystemOk(s, me, |scripts|) && !DeliversLeave(s.server.trace, me, e, p)
    ensures NotRewound(s.client.remote, Happen(s, scripts, me, e).client.remote, p)
  {
    match e {
      case Serve(_) =>
      case Deliver(index, now, micros) =>
        if Deliverable(s.server.trace, index, me) {
          EntryAt(s.server.trace, index);
          var m := s.server.trace[index].msg;
          DeliveryRemembered(s.client, m, now, micros);
          if m.NotifyPlayerState? {
            MergeNeverRewinds(s.server.trace, me, s.client.remote, index, p);
          }
        }
      case Wait(now, micros) => TimersKeepRemote(s.client, now, micros);
      case Take =>
    }
  }

  lemma HappenGrows(s: System, scripts: seq<Server.Script>, me: Endpoint, e: Event)
    ensures s.server.trace <= Happen(s, scripts, me, e).server.trace
    ensures Admissions(s.server.trace) <= Admissions(Happen(s, scripts, me, e).server.trace)
  {
    if e.Serve? {
      IterateExtends(s.server, scripts, e.input);
    }
    AdmissionsInPrefix(s.server.trace, Happen(s, scripts, me, e).server.trace);
  }

  lemma {:induction false} SystemKeeps(s: System, scripts: seq<Server.Script>, me: Endpoint, events: seq<Event>)
    requires SystemOk(s, me, |scripts|) && IdsLast(HappenAll(s, scripts, me, events).server)
    ensures SystemOk(HappenAll(s, scripts, me, events), me, |scripts|)
  {
    if events != [] {
      var before, last := HappenAll(s, scripts, me, events[..|events| - 1]), events[|events| - 1];
      HappenGrows(before, scripts, me, last);
      SystemKeeps(s, scripts, me, events[..|events| - 1]);
      HappenKeeps(before, scripts, me, last);
    }
  }

  // None of these events delivers the news that p left.
  predicate LeaveNotDelivered(s: System, scripts: seq<Server.Script>, me: Endpoint, events: seq<Event>, p: uint32) {
    forall i :: 0 <= i < |events| ==>
      !DeliversLeave(HappenAll(s, scripts, me, events[..i]).server.trace, me, events[i], p)
  }

  // In any run over a network that loses, repeats and reorders, and until the client is told that p
  // left: the snapshot it holds of p stays, and changes only to one with a higher tick.
  lemma {:induction false} NoRewind(s: System, scripts: seq<Server.Script>, me: Endpoint, events: seq<Event>, p: uint32)
    requires SystemOk(s, me, |scripts|) && IdsLast(HappenAll(s, scripts, me, events).server)
    requires LeaveNotDelivered(s, scripts, me, events, p)
    ensures NotRewound(s.client.remote, HappenAll(s, scripts, me, events).client.remote, p)
  {
    if events != [] {
      var init, last := events[..|events| - 1], events[|events| - 1];
      var before := HappenAll(s, scripts, me, init);
      HappenGrows(before, scripts, me, last);
      assert forall i :: 0 <= i < |init| ==> init[..i] == events[..i];
      assert LeaveNotDelivered(s, scripts, me, init, p);
      NoRewind(s, scripts, me, init, p);
      SystemKeeps(s, scripts, me, init);
      HappenNeverRewinds(before, scripts, me, last, p);
    }
  }

  // And what it holds is what p's own endpoint reported to the server with that tick.
  lemma HeldIsReported(
    maxPlayers: nat, timeoutMs: uint64, username: Bytes, now: uint64,
    scripts: seq<Server.Script>, me: Endpoint, events: seq<Event>, p: uint32)
    requires IdsLast(HappenAll(Begin(maxPlayers, timeoutMs, username, now), scripts, me, events).server)
    requires p in HappenAll(Begin(maxPlayers, timeoutMs, username, now), scripts, me, events).client.remote
    ensures var s := HappenAll(Begin(maxPlayers, timeoutMs, username, now), scripts, me, events);
            var r, owners := s.client.remote[p], Owners(s.server.trace);
            p in owners && owners[p].endpoint != me
            && Reported(s.server.trace, owners[p].endpoint, r.tick, r.position, r.rotation)
  {
    var s := HappenAll(Begin(maxPlayers, timeoutMs, username, now), scripts, me, events);
    StartHolds(maxPlayers, timeoutMs, |scripts|);
    SystemKeeps(Begin(maxPlayers, timeoutMs, username, now), scripts, me, events);
    SentIsReported(s.server.trace, me, p, s.client.remote[p]);
  }

  lemma SentIsReported(trace: Trace, me: Endpoint, p: uint32, r: Client.RemoteSnapshot)
    requires TraceOk(trace) && WasSent(trace, me, p, r)
    ensures p in Owners(trace) && Owners(trace)[p].endpoint != me
    ensures Reported(trace, Owners(trace)[p].endpoint, r.tick, r.position, r.rotation)
  {
    var m := NotifyPlayerState(p, r.tick, r.position, r.rotation);
    var i :| 0 <= i < |trace| && trace[i] == Sent(me, m);
    EntryAt(trace, i);
    SentWasReported(trace, i, me, m);
  }

  // What was true of a relayed snapshot when it was sent is true ever after.
  lemma SentWasReported(trace: Trace, i: nat, me: Endpoint, m: Message)
    requires TraceOk(trace) && i <= |trace|
    requires m.NotifyPlayerState? && AboutOk(trace[..i], me, m) && SnapshotOk(trace[..i], me, m)
    ensures m.playerId in Owners(trace) && Owners(trace)[m.playerId].endpoint != me
    ensures Reported(trace, Owners(trace)[m.playerId].endpoint, m.tick, m.position, m.rotation)
  {
    hide Decode;
    OwnersStay(trace, i, |trace|, m.playerId);
    assert trace[..|trace|] == trace;
    ReportedInPrefix(trace, i, Owners(trace[..i])[m.playerId].endpoint, m.tick, m.position, m.rotation);
  }

  lemma ReportedInPrefix(trace: Trace, i: nat, e: Endpoint, tick: uint64, position: Vec3, rotation: Float32)
    requires i <= |trace| && Reported(trace[..i], e, tick, position, rotation)
    ensures Reported(trace, e, tick, position, rotation)
  {
    hide Decode;
    var k :| 0 <= k < i && IsReport(trace[..i][k], e, tick, position, rotation);
    assert trace[k] == trace[..i][k];
  }

  // With no snapshot of p held, the datagrams that bring one are exactly those that decode as a
  // snapshot of p.
  lemma OnlySnapshotsRevive(c: Client.State, data: Bytes, p: uint32)
    requires p !in c.remote
    ensures p in Client.HandleDatagram(c, data).remote
            <==> var m := Decode(data, NotifyPlayerStateType); m.Some? && m.value.playerId == p
  {
    hide TakeBody;
    PeekHeaderExact(data);
    if |data| >= HEADER_SIZE {
      forall t: Type
        ensures TakeBody(AfterHeader(data), t).1.Some? ==> TypeOf(TakeBody(AfterHeader(data), t).1.value) == t
      {
        TakeBodyKind(AfterHeader(data), t);
      }
    }
  }

  // Why the leave matters: after its datagram nothing is held of p, and a datagram of a snapshot of p
  // brings the player back.
  lemma LateSnapshotRevives(c: Client.State, p: uint32, m: Message)
    requires m.NotifyPlayerState? && m.playerId == p
    ensures Encodable(NotifyPlayerLeft(p)) && Encodable(m)
    ensures var left := Client.HandleDatagram(c, Frame(NotifyPlayerLeft(p)));
            var revived := Client.HandleDatagram(left, Frame(m));
            && p !in left.remote
            && p in revived.remote
            && revived.remote[p] == Client.RemoteSnapshot(m.tick, m.position, m.rotation)
  {
    hide Client.HandleDatagram, Frame;
    var left := NotifyPlayerLeft(p);
    ShortTextFits(left);
    ShortTextFits(m);
    Client.EncodedArrives(c, left);
    Client.EncodedArrives(Client.HandleMessage(c, left), m);
  }
}
