/** The object of src/client/NetClient.cpp: its fields are updated in place by the loop of its own
    thread and read by the game, and every message leaves as an encoded datagram. */
module ClientNetwork {
  import opened Numbers
  import opened Protocol
  import Wire
  import opened Sessions
  import Client
  import opened TaskQueues
  import World

  // What the network thread hands to the game thread.
  datatype Task = CountApplied

  // One pass of the loop: its clock, the timestamp a ping would carry, and what the poll returned.
  datatype Poll = Poll(now: uint64, micros: uint64, packet: Option<Packet>)
  datatype Packet = Packet(from: Endpoint, data: Bytes)

  // Only the server counts; a datagram from anyone else is passed over.
  function Heard(server: Endpoint, poll: Poll): Client.Turn {
    Client.Turn(poll.now, poll.micros,
                if poll.packet.Some? && poll.packet.value.from == server then Some(poll.packet.value.data) else None)
  }

  function AllHeard(server: Endpoint, polls: seq<Poll>): (turns: seq<Client.Turn>)
    ensures |turns| == |polls|
  {
    seq(|polls|, i requires 0 <= i < |polls| => Heard(server, polls[i]))
  }

  // The datagrams of these messages.
  function Frames(sent: seq<Client.Outgoing>): seq<Bytes> {
    if sent == [] then []
    else
      var m := sent[|sent| - 1].msg;
      if Encodable(m) then Frames(sent[..|sent| - 1]) + [Frame(m)] else Frames(sent[..|sent| - 1])
  }

  lemma FramesSnoc(sent: seq<Client.Outgoing>, x: Client.Outgoing)
    requires Encodable(x.msg)
    ensures Frames(sent + [x]) == Frames(sent) + [Frame(x.msg)]
  {
    assert (sent + [x])[..|sent|] == sent;
  }

  lemma RunSnoc(c: Client.State, turns: seq<Client.Turn>, i: nat)
    requires i < |turns|
    ensures Client.Run(c, turns[..i + 1]) == Client.Iterate(Client.Run(c, turns[..i]), turns[i])
  {
    assert turns[..i + 1][..i] == turns[..i];
  }

  lemma {:induction false} StoppedStays(c: Client.State, turns: seq<Client.Turn>, i: nat)
    requires i <= |turns| && !Client.Run(c, turns[..i]).running
    ensures Client.Run(c, turns) == Client.Run(c, turns[..i])
    decreases |turns|
  {
    if i == |turns| {
      assert turns[..i] == turns;
    } else {
      assert turns[..|turns| - 1][..i] == turns[..i];
      StoppedStays(c, turns[..|turns| - 1], i);
    }
  }

  // Every snapshot of the map exactly once, in some order.
  predicate Lists(out: seq<(uint32, Client.RemoteSnapshot)>, remote: map<uint32, Client.RemoteSnapshot>) {
    && (forall i, j :: 0 <= i < j < |out| ==> out[i].0 != out[j].0)
    && (forall i :: 0 <= i < |out| ==> out[i].0 in remote && out[i].1 == remote[out[i].0])
    && (forall id :: id in remote ==> Listed(out, id))
  }

  predicate Listed(out: seq<(uint32, Client.RemoteSnapshot)>, id: uint32) {
    exists i :: 0 <= i < |out| && out[i].0 == id
  }

  class NetClient {
    const tasks: TaskQueue<Task>
    var server: Endpoint
    var username: Bytes
    var net: Client.NetState
    var attempts: nat
    var stateTick: uint64
    var received: nat
    var malformed: nat
    var outOfOrder: nat
    var remote: map<uint32, Client.RemoteSnapshot>
    var events: seq<Client.RemoteEvent>
    var outbox: seq<Bytes>
    // Everything sent on this connection, and the local snapshots among it.
    ghost var sent: seq<Client.Outgoing>
    ghost var states: seq<Client.Outgoing>

    ghost predicate Valid()
      reads this, tasks
    {
      tasks.Valid() && outbox == Frames(sent)
    }

    // The state of the machine while the loop holds these timers.
    ghost function View(running: bool, helloAt: uint64, pingAt: uint64, serverAt: uint64): Client.State
      reads this, tasks
    {
      Client.State(username, net, running, attempts, helloAt, pingAt, serverAt,
                   remote, events, |tasks.shared.pushed|, received, malformed, outOfOrder, sent)
    }

    constructor (tasks: TaskQueue<Task>)
      requires tasks.Valid()
      ensures Valid() && this.tasks == tasks && net == Client.Disconnected
    {
      this.tasks := tasks;
      server, username, net := Endpoint(0, 0), [], Client.Disconnected;
      attempts, stateTick, received, malformed, outOfOrder := 0, 0, 0, 0, 0;
      remote, events, outbox := map[], [], [];
      sent, states := [], [];
    }

    // Whatever was left of an earlier connection is gone.
    method Connect(server: Endpoint, username: Bytes, ghost now: uint64)
      requires Valid()
      modifies this
      ensures Valid() && this.server == server && stateTick == 0 && states == []
      ensures View(true, 0, 0, now) == Client.Connect(username, now).(tasks := |tasks.shared.pushed|)
    {
      this.server, this.username, net := server, username, Client.Connecting;
      Reset();
    }

    method Reset()
      requires tasks.Valid()
      modifies this`attempts, this`stateTick, this`received, this`malformed, this`outOfOrder
      modifies this`remote, this`events, this`outbox, this`sent, this`states
      ensures Valid() && attempts == 0 && stateTick == 0 && received == 0 && malformed == 0 && outOfOrder == 0
      ensures remote == map[] && events == [] && sent == [] && states == []
    {
      attempts, stateTick, received, malformed, outOfOrder := 0, 0, 0, 0, 0;
      remote, events, outbox := map[], [], [];
      sent, states := [], [];
    }

    method Send(data: Bytes, ghost x: Client.Outgoing)
      requires Valid() && Encodable(x.msg) && data == Frame(x.msg)
      modifies this`outbox, this`sent
      ensures Valid() && sent == old(sent) + [x]
    {
      FramesSnoc(sent, x);
      outbox := outbox + [data];
      sent := sent + [x];
    }

    method SendHello(ghost now: uint64) returns (ok: bool)
      requires Valid()
      modifies this`attempts, this`outbox, this`sent
      ensures Valid() && ok == Encodable(Hello(VERSION, username))
      ensures forall running, h: uint64, p: uint64, s: uint64 ::
                View(running, h, p, s) == Client.SendHello(old(View(running, h, p, s)), now)
    {
      var hello := Hello(VERSION, username);
      var out := Encode(hello);
      if out.None? {
        return false;
      }
      attempts := attempts + 1;
      Send(out.value, Client.Outgoing(now, hello));
      return true;
    }

    method SendPing(ghost now: uint64, micros: uint64)
      requires Valid()
      modifies this`outbox, this`sent
      ensures Valid()
      ensures forall running, h: uint64, p: uint64, s: uint64 ::
                View(running, h, p, s) == Client.Send(old(View(running, h, p, s)), now, Ping(micros))
    {
      var ping := Ping(micros);
      var out := Encode(ping);
      if out.Some? {
        Send(out.value, Client.Outgoing(now, ping));
      }
    }

    // The timers of one pass, and whether the loop goes on.
    method RunTimers(now: uint64, micros: uint64, helloAt: uint64, pingAt: uint64, serverAt: uint64)
      returns (running: bool, helloAt': uint64, pingAt': uint64)
      requires Valid()
      modifies this`net, this`attempts, this`outbox, this`sent
      ensures Valid()
      ensures View(running, helloAt', pingAt', serverAt)
              == Client.Timers(old(View(true, helloAt, pingAt, serverAt)), now, micros)
    {
      running, helloAt', pingAt' := true, helloAt, pingAt;
      match net {
        case Connecting =>
          if Minus64(now, helloAt) >= Client.HELLO_RETRY_MS {
            if attempts >= Client.MAX_HELLO_ATTEMPTS {
              net, running := Client.Disconnected, false;
            } else {
              var ok := SendHello(now);
              helloAt' := now;
            }
          }
        case Connected =>
          if Minus64(now, pingAt) >= Client.PING_INTERVAL_MS {
            SendPing(now, micros);
            pingAt' := now;
          }
          if Minus64(now, serverAt) >= Client.SERVER_TIMEOUT_MS {
            net, running := Client.Disconnected, false;
          }
        case _ =>
          running := false;
      }
    }

    method HandleDatagram(data: Bytes)
      requires Valid()
      modifies this`net, this`malformed, this`outOfOrder, this`remote, this`events, tasks
      ensures Valid()
      ensures forall running, h: uint64, p: uint64, s: uint64 ::
                View(running, h, p, s) == Client.HandleDatagram(old(View(running, h, p, s)), data)
    {
      hide Decode;
      var r := new Wire.Reader(data);
      var header := ReadHeader(r);
      if header.None? || !Client.ForClient(header.value.kind) {
        malformed := malformed + 1;
        return;
      }
      var m := DecodeMessage(data, header.value.kind);
      if m.None? {
        malformed := malformed + 1;
        return;
      }
      HandleMessage(m.value);
    }

    method HandleMessage(m: Message)
      requires Valid()
      modifies this`net, this`malformed, this`outOfOrder, this`remote, this`events, tasks
      ensures Valid()
      ensures forall running, h: uint64, p: uint64, s: uint64 ::
                View(running, h, p, s) == Client.HandleMessage(old(View(running, h, p, s)), m)
    {
      match m {
        case HelloAck(accepted, _, _) =>
          net := if accepted then Client.Connected else Client.Refused;
        case NotifyPlayerJoined(id, username) =>
          events := events + [Client.RemoteEvent(true, id, username)];
        case NotifyPlayerLeft(id) =>
          remote := remote - {id};
          events := events + [Client.RemoteEvent(false, id, [])];
        case NotifyPlayerState(id, tick, position, rotation) =>
          if id in remote && remote[id].tick != 0 && tick <= remote[id].tick {
            outOfOrder := outOfOrder + 1;
          } else {
            remote := remote[id := Client.RemoteSnapshot(tick, position, rotation)];
          }
        case Pong(_) =>
          tasks.Push(Some(CountApplied));
        case _ =>
          malformed := malformed + 1;
      }
    }

    // The network thread, from its start over these polls: it goes through exactly the states of
    // the connection machine, and what it puts on the wire is what that machine sends.
    method Run(start: uint64, polls: seq<Poll>)
      returns (running: bool, helloAt: uint64, pingAt: uint64, serverAt: uint64)
      requires Valid()
      modifies this, tasks
      ensures Valid() && outbox == Frames(sent) && server == old(server)
      ensures View(running, helloAt, pingAt, serverAt)
              == Client.Run(old(View(true, 0, 0, start)), AllHeard(server, polls))
    {
      running, helloAt, pingAt, serverAt := true, 0, 0, start;
      ghost var turns := AllHeard(server, polls);
      var i := 0;
      while i < |polls| && running
        invariant Valid() && i <= |polls| && server == old(server)
        invariant View(running, helloAt, pingAt, serverAt) == Client.Run(old(View(true, 0, 0, start)), turns[..i])
      {
        RunSnoc(old(View(true, 0, 0, start)), turns, i);
        running, helloAt, pingAt, serverAt := Iterate(polls[i], helloAt, pingAt, serverAt);
        i := i + 1;
      }
      if i == |polls| {
        assert turns[..i] == turns;
      } else {
        StoppedStays(old(View(true, 0, 0, start)), turns, i);
      }
    }

    method Iterate(poll: Poll, helloAt: uint64, pingAt: uint64, serverAt: uint64)
      returns (running: bool, helloAt': uint64, pingAt': uint64, serverAt': uint64)
      requires Valid()
      modifies this, tasks
      ensures Valid() && server == old(server)
      ensures View(running, helloAt', pingAt', serverAt')
              == Client.Iterate(old(View(true, helloAt, pingAt, serverAt)), Heard(server, poll))
    {
      hide Client.Timers, Client.HandleDatagram, Frames;
      running, helloAt', pingAt' := RunTimers(poll.now, poll.micros, helloAt, pingAt, serverAt);
      serverAt' := serverAt;
      if !running || poll.packet.None? || poll.packet.value.from != server {
        return;
      }
      received := received + 1;
      serverAt' := poll.now;
      HandleDatagram(poll.packet.value.data);
    }

    // ---------------------------------------------------------------- the game's side

    ghost function Sender(lastSentMs: uint64): World.Sender
      reads this
    {
      World.Sender(lastSentMs, stateTick, states)
    }

    method SendState(position: Vec3, rotation: Float32, ghost now: uint64) returns (ok: bool)
      requires Valid()
      modifies this`stateTick, this`outbox, this`sent, this`states
      ensures Valid() && ok == (net == Client.Connected)
      ensures old(states) <= states && sent == old(sent) + states[|old(states)|..]
      ensures forall t: uint64 ::
                Sender(t) == World.SendState(old(Sender(t)), now, net == Client.Connected, position, rotation)
    {
      if net != Client.Connected {
        return false;
      }
      stateTick := (stateTick + 1) % TWO_64;
      var state := PlayerState(stateTick, position, rotation);
      ShortTextFits(state);
      hide Encodable, Frame;
      var out := Encode(state);
      if out.None? {
        return false;
      }
      Send(out.value, Client.Outgoing(now, state));
      states := states + [Client.Outgoing(now, state)];
      return true;
    }

    method TakeEvents() returns (taken: seq<Client.RemoteEvent>)
      requires Valid()
      modifies this`events
      ensures Valid() && taken == old(events) && events == []
    {
      taken := events;
      events := [];
    }

    method CopyRemoteSnapshots() returns (out: seq<(uint32, Client.RemoteSnapshot)>)
      ensures Lists(out, remote)
    {
      out := [];
      var rest := remote.Keys;
      while rest != {}
        invariant rest <= remote.Keys
        invariant forall i, j :: 0 <= i < j < |out| ==> out[i].0 != out[j].0
        invariant forall i :: 0 <= i < |out| ==>
                    out[i].0 in remote && out[i].0 !in rest && out[i].1 == remote[out[i].0]
        invariant forall id :: id in remote && id !in rest ==> Listed(out, id)
        decreases |rest|
      {
        var id :| id in rest;
        ghost var before := out;
        out := out + [(id, remote[id])];
        rest := rest - {id};
        forall k | k in remote && k !in rest
          ensures Listed(out, k)
        {
          if k == id {
            assert out[|before|].0 == id;
          } else {
            var i :| 0 <= i < |before| && before[i].0 == k;
            assert out[i].0 == k;
          }
        }
      }
    }
  }
}
