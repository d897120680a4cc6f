/** The running server: the script host and the main loop as objects that update their fields and
    hand encoded datagrams to the socket, proved against the state machine. */
module ServerLoop {
  import opened Numbers
  import opened Protocol
  import Wire
  import opened Sessions
  import opened SessionManagement
  import opened Traces
  import Server
  import opened TraceRules

  // The datagrams that the sends of a trace put on the wire.
  function OutgoingStep(out: seq<(Endpoint, Bytes)>, x: Entry): seq<(Endpoint, Bytes)> {
    if x.Sent? && Encodable(x.msg) then out + [(x.to, Frame(x.msg))] else out
  }

  function Outgoing(trace: Trace): seq<(Endpoint, Bytes)> {
    if trace == [] then [] else OutgoingStep(Outgoing(trace[..|trace| - 1]), trace[|trace| - 1])
  }

  lemma OutgoingSnoc(trace: Trace, x: Entry)
    ensures Outgoing(trace + [x]) == OutgoingStep(Outgoing(trace), x)
  {
    assert (trace + [x])[..|trace|] == trace;
  }

  lemma {:induction false} CallsOutgoing(trace: Trace, n: nat, call: nat, event: Event, live: seq<Session>)
    ensures Outgoing(trace + CallEntries(n, call, event, live)) == Outgoing(trace)
  {
    if n == 0 {
      assert trace + CallEntries(n, call, event, live) == trace;
    } else {
      CallsOutgoing(trace, n - 1, call, event, live);
      CallsSnoc(trace, n, call, event, live);
      OutgoingSnoc(trace + CallEntries(n - 1, call, event, live), Called(n - 1, call, event, live));
    }
  }

  lemma FanNext(trace: Trace, ss: seq<Session>, i: nat, m: Message, except: uint32)
    requires i < |ss|
    ensures trace + Fan(ss[..i + 1], m, except)
            == if ss[i].id != except then trace + Fan(ss[..i], m, except) + [Sent(ss[i].endpoint, m)]
               else trace + Fan(ss[..i], m, except)
  {
    FanSnoc(trace, ss[..i + 1], m, except);
    assert ss[..i + 1][..i] == ss[..i];
  }

  // Dispatches events to the backends and keeps the kicks they ask for.
  class ScriptHost {
    const sessions: SessionManager
    const backends: seq<Server.Script>
    var kicks: seq<Server.PendingKick>
    var calls: nat

    constructor (sessions: SessionManager, backends: seq<Server.Script>)
      ensures this.sessions == sessions && this.backends == backends
      ensures kicks == [] && calls == 0
    {
      this.sessions, this.backends := sessions, backends;
      kicks, calls := [], 0;
    }

    // Looks every player up before it is kicked.
    method QueueKicks(asked: seq<Server.PendingKick>)
      modifies this`kicks
      ensures kicks == Server.QueueKicks(old(kicks), asked, sessions.View())
    {
      for i := 0 to |asked|
        invariant kicks == Server.QueueKicks(old(kicks), asked[..i], sessions.View())
      {
        assert asked[..i + 1][..i] == asked[..i];
        var found := sessions.FindById(asked[i].playerId);
        if found.Some? {
          kicks := kicks + [asked[i]];
        }
      }
      assert asked[..|asked|] == asked;
    }

    method OnEvent(event: Event)
      modifies this
      ensures kicks == Server.Requests(old(kicks), backends, old(calls), event, sessions.View())
      ensures calls == old(calls) + 1
    {
      for i := 0 to |backends|
        invariant kicks == Server.Requests(old(kicks), backends[..i], old(calls), event, sessions.View())
        invariant calls == old(calls)
      {
        assert backends[..i + 1][..i] == backends[..i];
        QueueKicks(backends[i](calls, event, sessions.sessions));
      }
      assert backends[..|backends|] == backends;
      calls := calls + 1;
    }

    method TakeKicks() returns (taken: seq<Server.PendingKick>)
      modifies this`kicks
      ensures taken == old(kicks) && kicks == []
    {
      taken := kicks;
      kicks := [];
    }
  }

  class Loop {
    const sessions: SessionManager
    const scripts: ScriptHost
    var rejected: nat
    var outbox: seq<(Endpoint, Bytes)>
    ghost var trace: Trace

    ghost predicate Valid()
      reads this, sessions, scripts
    {
      scripts.sessions == sessions && outbox == Outgoing(trace)
    }

    ghost function View(): Server.State
      reads this, sessions, scripts
    {
      Server.State(sessions.View(), scripts.kicks, scripts.calls, rejected, trace)
    }

    constructor (maxPlayers: nat, timeoutMs: uint64, backends: seq<Server.Script>)
      ensures Valid() && fresh(sessions) && fresh(scripts)
      ensures View() == Server.Start(maxPlayers, timeoutMs) && scripts.backends == backends
    {
      var manager := new SessionManager(maxPlayers, timeoutMs);
      var host := new ScriptHost(manager, backends);
      sessions, scripts := manager, host;
      rejected, outbox, trace := 0, [], [];
    }

    method Send(to: Endpoint, data: Bytes, ghost m: Message)
      requires Valid() && Encodable(m) && data == Frame(m)
      modifies this`outbox, this`trace
      ensures Valid() && View() == Server.Append(old(View()), [Sent(to, m)])
    {
      OutgoingSnoc(trace, Sent(to, m));
      outbox := outbox + [(to, data)];
      trace := trace + [Sent(to, m)];
    }

    method Reply(to: Endpoint, m: Message)
      requires Valid()
      modifies this`outbox, this`trace
      ensures Valid() && View() == Server.Reply(old(View()), to, m)
    {
      var out := Encode(m);
      if out.Some? {
        Send(to, out.value, m);
      }
    }

    method Broadcast(m: Message, except: uint32)
      requires Valid()
      modifies this`outbox, this`trace
      ensures Valid() && View() == Server.Broadcast(old(View()), m, except)
    {
      var out := Encode(m);
      if out.Some? {
        SendToAll(out.value, m, except);
      }
    }

    method SendToAll(data: Bytes, ghost m: Message, except: uint32)
      requires Valid() && Encodable(m) && data == Frame(m)
      modifies this`outbox, this`trace
      ensures Valid() && View() == Server.Append(old(View()), Fan(sessions.sessions, m, except))
    {
      var ss := sessions.sessions;
      for i := 0 to |ss|
        invariant Valid()
        invariant trace == old(trace) + Fan(ss[..i], m, except)
      {
        FanNext(old(trace), ss, i, m, except);
        if ss[i].id != except {
          Send(ss[i].endpoint, data, m);
        }
      }
      assert ss[..|ss|] == ss;
    }

    // Tells the peer at `to` about everyone but one player.
    method IntroduceOthers(to: Endpoint, except: uint32)
      requires Valid()
      modifies this`outbox, this`trace
      ensures Valid() && View() == Server.Append(old(View()), Introductions(sessions.sessions, to, except))
    {
      var ss := sessions.sessions;
      for i := 0 to |ss|
        invariant Valid()
        invariant trace == old(trace) + Introductions(ss[..i], to, except)
      {
        IntroSnoc(old(trace), ss[..i + 1], to, except);
        assert ss[..i + 1][..i] == ss[..i];
        if ss[i].id != except {
          var notice := NotifyPlayerJoined(ss[i].id, ss[i].username);
          var out := Encode(notice);
          if out.Some? {
            Send(to, out.value, notice);
          }
        }
      }
      assert ss[..|ss|] == ss;
    }

    method Dispatch(event: Event)
      requires Valid()
      modifies scripts, this`trace
      ensures Valid() && View() == Server.Dispatch(old(View()), scripts.backends, event)
    {
      CallsOutgoing(trace, |scripts.backends|, scripts.calls, event, sessions.sessions);
      trace := trace + CallEntries(|scripts.backends|, scripts.calls, event, sessions.sessions);
      scripts.OnEvent(event);
    }

    method Announce(id: uint32)
      requires Valid()
      modifies this, scripts
      ensures Valid() && View() == Server.Announce(old(View()), scripts.backends, id)
    {
      Broadcast(NotifyPlayerLeft(id), id);
      Dispatch(LeaveEvent(id));
    }

    method Sweep(now: uint64)
      requires Valid()
      modifies this, sessions, scripts
      ensures Valid() && View() == Server.Sweep(old(View()), scripts.backends, now)
    {
      var dropped := sessions.TakeNextTimedOut(now);
      while dropped.Some?
        invariant Valid()
        invariant Server.Sweep(old(View()), scripts.backends, now)
                  == if dropped.None? then View()
                     else Server.Sweep(Server.Announce(View(), scripts.backends, dropped.value.id),
                                       scripts.backends, now)
        decreases |sessions.sessions|, dropped.Some?
      {
        Announce(dropped.value.id);
        dropped := sessions.TakeNextTimedOut(now);
      }
    }

    method Kick(id: uint32)
      requires Valid()
      modifies this, sessions, scripts
      ensures Valid() && View() == Server.Kick(old(View()), scripts.backends, id)
    {
      var found := sessions.FindById(id);
      if found.Some? {
        var removed := sessions.Remove(id);
        Announce(id);
      }
    }

    method DrainKicks()
      requires Valid()
      modifies this, sessions, scripts
      ensures Valid() && View() == Server.TakeAndDrain(old(View()), scripts.backends)
    {
      var batch := scripts.TakeKicks();
      for i := 0 to |batch|
        invariant Valid()
        invariant View() == Server.Drain(old(View()).(kicks := []), scripts.backends, batch[..i])
      {
        assert batch[..i + 1][..i] == batch[..i];
        Kick(batch[i].playerId);
      }
      assert batch[..|batch|] == batch;
    }

    method HandleHello(from: Endpoint, data: Bytes, now: uint64)
      requires Valid()
      modifies this, sessions, scripts
      ensures Valid() && View() == Server.HandleHello(old(View()), scripts.backends, from, data, now)
    {
      hide Decode;
      var m := DecodeMessage(data, HelloType);
      match m {
        case Some(Hello(version, username)) => Greet(from, version, username, now);
        case _ =>
      }
    }

    method Greet(from: Endpoint, version: uint32, username: Bytes, now: uint64)
      requires Valid()
      modifies this, sessions, scripts
      ensures Valid() && View() == Server.Greet(old(View()), scripts.backends, from, version, username, now)
    {
      var result, id := Admit(from, version, username, now);
      Reply(from, Server.Ack(result));
      if result == Accepted {
        Introduce(id, from, username);
      }
    }

    method Admit(from: Endpoint, version: uint32, username: Bytes, now: uint64) returns (result: JoinResult, id: uint32)
      requires Valid()
      modifies sessions, this`trace
      ensures Valid() && (sessions.View(), result, id) == Join(old(sessions.View()), from, username, version, now)
      ensures View() == old(View()).(
                table := sessions.View(),
                trace := old(trace) + if result == Accepted then [Admitted(id, from, username)] else [])
    {
      result, id := sessions.Join(from, username, version, now);
      if result == Accepted {
        OutgoingSnoc(trace, Admitted(id, from, username));
        trace := trace + [Admitted(id, from, username)];
      } else {
        assert trace == trace + [];
      }
    }

    method Introduce(id: uint32, from: Endpoint, username: Bytes)
      requires Valid()
      modifies this, scripts
      ensures Valid() && View() == Server.Introduce(old(View()), scripts.backends, id, from, username)
    {
      IntroduceOthers(from, id);
      Broadcast(NotifyPlayerJoined(id, username), id);
      Dispatch(JoinEvent(id));
    }

    method HandlePing(from: Endpoint, data: Bytes)
      requires Valid()
      modifies this`outbox, this`trace
      ensures Valid() && View() == Server.HandlePing(old(View()), from, data)
    {
      hide Decode;
      var found := sessions.FindByEndpoint(from);
      if found.None? {
        return;
      }
      var m := DecodeMessage(data, PingType);
      match m {
        case Some(Ping(sentAt)) => Reply(from, Pong(sentAt));
        case _ =>
      }
    }

    method HandlePlayerState(from: Endpoint, data: Bytes)
      requires Valid()
      modifies this, sessions
      ensures Valid() && View() == Server.HandlePlayerState(old(View()), from, data)
    {
      hide Decode;
      var found := sessions.FindByEndpoint(from);
      if found.None? {
        return;
      }
      var m := DecodeMessage(data, PlayerStateType);
      match m {
        case Some(PlayerState(tick, position, rotation)) =>
          var id := sessions.sessions[found.value].id;
          var applied := sessions.ApplyState(from, tick, position, rotation);
          if applied {
            Broadcast(NotifyPlayerState(id, tick, position, rotation), id);
          }
        case _ =>
      }
    }

    method HandleDatagram(a: Server.Arrival, now: uint64)
      requires Valid()
      modifies this, sessions, scripts
      ensures Valid() && View() == Server.HandleDatagram(old(View()), scripts.backends, a, now)
    {
      OutgoingSnoc(trace, Received(a.from, a.data, a.at));
      trace := trace + [Received(a.from, a.data, a.at)];

      var header := Peek(a.data);
      if header.None? {
        rejected := rejected + 1;
      } else {
        var known := sessions.Touch(a.from, now);
        Handle(header.value.kind, a.from, a.data, now);
      }
    }

    method Peek(data: Bytes) returns (header: Option<Header>)
      ensures header == PeekHeader(data)
    {
      var r := new Wire.Reader(data);
      header := ReadHeader(r);
    }

    method Handle(kind: Type, from: Endpoint, data: Bytes, now: uint64)
      requires Valid()
      modifies this, sessions, scripts
      ensures Valid() && View() == Server.Handle(old(View()), scripts.backends, kind, from, data, now)
    {
      match kind {
        case HelloType => HandleHello(from, data, now);
        case PingType => HandlePing(from, data);
        case PlayerStateType => HandlePlayerState(from, data);
        case _ => rejected := rejected + 1;
      }
    }

    method Iterate(input: Server.Input)
      requires Valid()
      modifies this, sessions, scripts
      ensures Valid() && View() == Server.Iterate(old(View()), scripts.backends, input)
    {
      Sweep(input.now);
      Dispatch(TickEvent(input.now));
      DrainKicks();
      if input.arrival.Some? {
        HandleDatagram(input.arrival.value, input.now);
      }
    }

    // The main loop over these clock readings and datagrams: it goes through exactly the states of
    // the state machine, and the datagrams on the wire are exactly the encoded sends of its trace.
    method Serve(inputs: seq<Server.Input>)
      requires Valid()
      modifies this, sessions, scripts
      ensures Valid() && View() == Server.Run(old(View()), scripts.backends, inputs)
      ensures outbox == Outgoing(trace)
    {
      for i := 0 to |inputs|
        invariant Valid()
        invariant View() == Server.Run(old(View()), scripts.backends, inputs[..i])
      {
        assert inputs[..i + 1][..i] == inputs[..i];
        Iterate(inputs[i]);
      }
      assert inputs[..|inputs|] == inputs;
    }
  }

  // The server as its program starts it.
  method Boot(backends: seq<Server.Script>) returns (loop: Loop)
    ensures loop.Valid() && loop.scripts.backends == backends
    ensures loop.View() == Server.Start(Server.MAX_PLAYERS, Server.TIMEOUT_MS)
  {
    loop := new Loop(Server.MAX_PLAYERS, Server.TIMEOUT_MS, backends);
  }
}
