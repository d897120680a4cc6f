/** Which datagrams a run has received: only those the loop took, whatever else it did. */
module ServerArrivals {
  import opened Numbers
  import opened Protocol
  import opened Sessions
  import opened Traces
  import opened TraceRules
  import opened Server
  import opened ServerInvariant

  // Nothing was received between the two traces.
  predicate Unheard(trace: Trace, t: Trace) {
    Arrivals(t) == Arrivals(trace)
  }

  lemma {:induction false} ArrivalsListed(trace: Trace, x: Entry)
    ensures x in Arrivals(trace) <==> x in trace && x.Received?
  {
    if trace != [] {
      ArrivalsListed(trace[..|trace| - 1], x);
      assert trace == trace[..|trace| - 1] + [trace[|trace| - 1]];
    }
  }

  lemma AnnounceUnheard(s: State, scripts: seq<Script>, id: uint32)
    ensures Unheard(s.trace, Announce(s, scripts, id).trace)
  {
    var m := NotifyPlayerLeft(id);
    ShortTextFits(m);
    FanQuiet(s.trace, s.table.sessions, m, id);
    CallsQuiet(s.trace + Fan(s.table.sessions, m, id), |scripts|, s.calls, LeaveEvent(id), s.table.sessions);
  }

  lemma {:induction false} SweepUnheard(s: State, scripts: seq<Script>, now: uint64)
    ensures Unheard(s.trace, Sweep(s, scripts, now).trace)
    decreases |s.table.sessions|
  {
    var ss := s.table.sessions;
    var i := ExpiredIndex(ss, now, s.table.timeoutMs);
    if i < |ss| {
      AnnounceUnheard(Dropped(s, i), scripts, ss[i].id);
      SweepUnheard(Announce(Dropped(s, i), scripts, ss[i].id), scripts, now);
    }
  }

  lemma {:induction false} DrainUnheard(s: State, scripts: seq<Script>, batch: seq<PendingKick>)
    ensures Unheard(s.trace, Drain(s, scripts, batch).trace)
  {
    if batch != [] {
      var r, id := Drain(s, scripts, batch[..|batch| - 1]), batch[|batch| - 1].playerId;
      DrainUnheard(s, scripts, batch[..|batch| - 1]);
      if FindId(r.table, id).Some? {
        AnnounceUnheard(Dropped(r, IdIndex(r.table.sessions, id)), scripts, id);
      }
    }
  }

  lemma TickUnheard(s: State, scripts: seq<Script>, now: uint64)
    ensures Unheard(s.trace, Dispatch(s, scripts, TickEvent(now)).trace)
  {
    CallsQuiet(s.trace, |scripts|, s.calls, TickEvent(now), s.table.sessions);
  }

  lemma GreetUnheard(s: State, scripts: seq<Script>, from: Endpoint, version: uint32, username: Bytes, now: uint64)
    ensures Unheard(s.trace, Greet(s, scripts, from, version, username, now).trace)
  {
    var (t, result, id) := Join(s.table, from, username, version, now);
    var x := Admitted(id, from, username);
    var s1 := s.(table := t, trace := s.trace + if result == Accepted then [x] else []);
    Snoc(s.trace, x);
    assert s.trace + [] == s.trace;
    ReplyUnheard(s1, from, Ack(result));
    if result == Accepted {
      IntroduceUnheard(Reply(s1, from, Ack(result)), scripts, id, from, username);
    }
  }

  lemma ReplyUnheard(s: State, to: Endpoint, m: Message)
    ensures Unheard(s.trace, Reply(s, to, m).trace)
  {
    Snoc(s.trace, Sent(to, m));
  }

  lemma BroadcastUnheard(s: State, m: Message, except: uint32)
    ensures Unheard(s.trace, Broadcast(s, m, except).trace)
  {
    FanQuiet(s.trace, s.table.sessions, m, except);
  }

  lemma IntroduceUnheard(s: State, scripts: seq<Script>, id: uint32, from: Endpoint, username: Bytes)
    ensures Unheard(s.trace, Introduce(s, scripts, id, from, username).trace)
  {
    var s1 := Append(s, Introductions(s.table.sessions, from, id));
    var s2 := Broadcast(s1, NotifyPlayerJoined(id, username), id);
    IntroQuiet(s.trace, s.table.sessions, from, id);
    BroadcastUnheard(s1, NotifyPlayerJoined(id, username), id);
    CallsQuiet(s2.trace, |scripts|, s2.calls, JoinEvent(id), s2.table.sessions);
  }

  lemma RelayUnheard(s: State, from: Endpoint, tick: uint64, position: Vec3, rotation: Float32)
    ensures Unheard(s.trace, Relay(s, from, tick, position, rotation).trace)
  {
    var (t, applied) := ApplyState(s.table, from, tick, position, rotation);
    if applied {
      var id := FindEndpoint(s.table, from).value.id;
      BroadcastUnheard(s.(table := t), NotifyPlayerState(id, tick, position, rotation), id);
    }
  }

  lemma HandleUnheard(s: State, scripts: seq<Script>, kind: Type, from: Endpoint, data: Bytes, now: uint64)
    ensures Unheard(s.trace, Handle(s, scripts, kind, from, data, now).trace)
  {
    hide Decode;
    match kind {
      case HelloType =>
        match Decode(data, HelloType) {
          case Some(Hello(version, username)) => GreetUnheard(s, scripts, from, version, username, now);
          case _ =>
        }
      case PingType =>
        match Decode(data, PingType) {
          case Some(Ping(sentAt)) => ReplyUnheard(s, from, Pong(sentAt));
          case _ =>
        }
      case PlayerStateType =>
        match Decode(data, PlayerStateType) {
          case Some(PlayerState(tick, position, rotation)) => RelayUnheard(s, from, tick, position, rotation);
          case _ =>
        }
      case _ =>
    }
  }

  lemma DatagramHeardOnce(s: State, scripts: seq<Script>, a: Arrival, now: uint64)
    ensures Arrivals(HandleDatagram(s, scripts, a, now).trace)
            == Arrivals(s.trace) + [Received(a.from, a.data, a.at)]
  {
    hide Decode, Handle;
    var s1 := Append(s, [Received(a.from, a.data, a.at)]);
    Snoc(s.trace, Received(a.from, a.data, a.at));
    if PeekHeader(a.data).Some? {
      var s2 := s1.(table := Touch(s1.table, a.from, now));
      HandleUnheard(s2, scripts, PeekHeader(a.data).value.kind, a.from, a.data, now);
    }
  }

  // What one iteration adds to the datagrams received: the one it took, if any.
  function Taken(input: Input): Trace {
    if input.arrival.None? then []
    else [Received(input.arrival.value.from, input.arrival.value.data, input.arrival.value.at)]
  }

  lemma IterateReceives(s: State, scripts: seq<Script>, input: Input)
    ensures Arrivals(Iterate(s, scripts, input).trace) == Arrivals(s.trace) + Taken(input)
  {
    var s1 := Sweep(s, scripts, input.now);
    var s2 := Dispatch(s1, scripts, TickEvent(input.now));
    SweepUnheard(s, scripts, input.now);
    TickUnheard(s1, scripts, input.now);
    DrainUnheard(s2.(kicks := []), scripts, s2.kicks);
    if input.arrival.Some? {
      DatagramHeardOnce(TakeAndDrain(s2, scripts), scripts, input.arrival.value, input.now);
    }
  }
}
