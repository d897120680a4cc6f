/** What the server must do over whole runs: call every backend each tick, answer pings, and relay every
    snapshot that is newer than all its sender reported before. */
module ServerDuties {
  import opened Numbers
  import opened Protocol
  import opened Sessions
  import opened Traces
  import opened TraceRules
  import opened Server
  import opened ServerInvariant
  import opened ServerRuns
  import opened ServerTheorems
  import opened ServerKicks
  import opened ServerEntries
  import opened ServerTimeouts

  // The state in which an iteration handles the datagram it takes.
  function AtDatagram(s: State, scripts: seq<Script>, now: uint64): State {
    TakeAndDrain(BeforeDrain(s, scripts, now), scripts)
  }

  lemma IterateAtDatagram(s: State, scripts: seq<Script>, input: Input)
    ensures Iterate(s, scripts, input)
            == if input.arrival.None? then AtDatagram(s, scripts, input.now)
               else HandleDatagram(AtDatagram(s, scripts, input.now), scripts, input.arrival.value, input.now)
  {
  }

  // ---------------------------------------------------------------- ticks

  lemma BeforeDrainTicks(s: State, scripts: seq<Script>, now: uint64, b: nat)
    requires b < |scripts|
    ensures Ticks(AtDatagram(s, scripts, now).trace, b) == Ticks(s.trace, b) + [now]
  {
    hide Talks, Ticks, Sweep, Drain, CallEntries, Requests;
    var s1 := Sweep(s, scripts, now);
    var s2 := BeforeDrain(s, scripts, now);
    SweepTalks(s, scripts, now);
    TalkIsTickless(s.trace, s1.trace, b);
    CallTicks(s1.trace, |scripts|, s1.calls, now, s1.table.sessions, b);
    DrainTalks(s2.(kicks := []), scripts, s2.kicks);
    TalkIsTickless(s2.trace, AtDatagram(s, scripts, now).trace, b);
  }

  lemma DatagramTicks(s: State, scripts: seq<Script>, a: Arrival, now: uint64, b: nat)
    ensures Ticks(HandleDatagram(s, scripts, a, now).trace, b) == Ticks(s.trace, b)
  {
    hide Decode, Handle, Ticks;
    var x := Received(a.from, a.data, a.at);
    TicksStay(s.trace, [x], b);
    if PeekHeader(a.data).Some? {
      var s2 := Append(s, [x]).(table := Touch(s.table, a.from, now));
      HandleTicks(s2, scripts, PeekHeader(a.data).value.kind, a.from, a.data, now, b);
    }
  }

  lemma HandleTicks(
    s: State, scripts: seq<Script>, kind: Type, from: Endpoint, data: Bytes, now: uint64, b: nat)
    ensures Ticks(Handle(s, scripts, kind, from, data, now).trace, b) == Ticks(s.trace, b)
  {
    hide Decode, Ticks, Talks, Greet, Relay, Reply;
    match kind {
      case HelloType =>
        match Decode(data, HelloType) {
          case Some(Hello(version, username)) =>
            var head := Admission(s, from, username, version, now);
            AdmissionTicks(s, from, username, version, now, b);
            GreetTalks(s, scripts, from, version, username, now);
            TalkIsTickless(head, Greet(s, scripts, from, version, username, now).trace, b);
          case _ =>
        }
      case PingType =>
        match Decode(data, PingType) {
          case Some(Ping(sentAt)) =>
            ReplyTalks(s, from, Pong(sentAt));
            TalkIsTickless(s.trace, Reply(s, from, Pong(sentAt)).trace, b);
          case _ =>
        }
      case PlayerStateType =>
        match Decode(data, PlayerStateType) {
          case Some(PlayerState(tick, position, rotation)) =>
            RelayTalks(s, from, tick, position, rotation);
            TalkIsTickless(s.trace, Relay(s, from, tick, position, rotation).trace, b);
          case _ =>
        }
      case _ =>
    }
  }

  lemma AdmissionTicks(s: State, from: Endpoint, username: Bytes, version: uint32, now: uint64, b: nat)
    ensures Ticks(Admission(s, from, username, version, now), b) == Ticks(s.trace, b)
  {
    hide Join, Ticks;
    var (t, result, id) := Join(s.table, from, username, version, now);
    TicksStay(s.trace, [Admitted(id, from, username)], b);
  }

  // The clocks of these iterations.
  function Clocks(inputs: seq<Input>): seq<uint64> {
    if inputs == [] then [] else Clocks(inputs[..|inputs| - 1]) + [inputs[|inputs| - 1].now]
  }

  // Every backend is called once with the clock of every iteration, in order.
  lemma {:induction false} EveryTickIsCalled(
    maxPlayers: nat, timeoutMs: uint64, scripts: seq<Script>, inputs: seq<Input>, b: nat)
    requires b < |scripts|
    ensures Ticks(After(maxPlayers, timeoutMs, scripts, inputs).trace, b) == Clocks(inputs)
  {
    if inputs != [] {
      hide AtDatagram, HandleDatagram, Iterate, Ticks;
      var init, last := inputs[..|inputs| - 1], inputs[|inputs| - 1];
      var before := After(maxPlayers, timeoutMs, scripts, init);
      EveryTickIsCalled(maxPlayers, timeoutMs, scripts, init, b);
      IterateAtDatagram(before, scripts, last);
      BeforeDrainTicks(before, scripts, last.now, b);
      if last.arrival.Some? {
        DatagramTicks(AtDatagram(before, scripts, last.now), scripts, last.arrival.value, last.now, b);
      }
    } else {
      assert After(maxPlayers, timeoutMs, scripts, inputs).trace == [];
    }
  }

  // ---------------------------------------------------------------- pings

  // A ping from a peer that is in is answered with a pong that carries the timestamp of the ping, and
  // nothing else is sent; one from anyone else is not answered.
  lemma PingsAreEchoed(
    s: State, scripts: seq<Script>, from: Endpoint, sentAt: uint64, at: nat, now: uint64)
    ensures Encodable(Ping(sentAt))
    ensures var x := Received(from, Frame(Ping(sentAt)), at);
            HandleDatagram(s, scripts, Arrival(from, Frame(Ping(sentAt)), at), now).trace
            == if PeerIsIn(s.table, from) then s.trace + [x] + [Sent(from, Pong(sentAt))] else s.trace + [x]
  {
    hide Decode, PeerIsIn, Frame;
    var ping := Ping(sentAt);
    EncodableByText(ping);
    EncodableByText(Pong(sentAt));
    FrameIsFramed(ping);
    PeekHeaderExact(Frame(ping));
    FramedCode(ping);
    RoundTrip(ping, PingType);
    TouchKeepsPeers(s.table, from, now, from);
    PeerFound(Touch(s.table, from, now), from);
  }

  // The first byte of an encoded message names its type.
  lemma FramedCode(m: Message)
    requires Encodable(m)
    ensures PeekHeader(Frame(m)).Some? && PeekHeader(Frame(m)).value.kind == TypeOf(m)
  {
    FrameIsFramed(m);
    PeekHeaderExact(Frame(m));
  }

  // Hearing from a peer changes nothing about who is in, under which name.
  lemma TouchKeepsPeers(t: Table, from: Endpoint, now: uint64, e: Endpoint)
    ensures PeerIsIn(Touch(t, from, now), e) <==> PeerIsIn(t, e)
    ensures forall username :: NameIsFree(Touch(t, from, now), username) <==> NameIsFree(t, username)
  {
    var ss, rr := t.sessions, Touch(t, from, now).sessions;
    assert |ss| == |rr|;
    assert forall k :: 0 <= k < |ss| ==> ss[k].endpoint == rr[k].endpoint && ss[k].username == rr[k].username;
    PeersByIndex(t, e);
    PeersByIndex(Touch(t, from, now), e);
    forall username: Bytes
      ensures NameIsFree(Touch(t, from, now), username) <==> NameIsFree(t, username)
    {
      NamesByIndex(t, username);
      NamesByIndex(Touch(t, from, now), username);
    }
  }

  lemma PeersByIndex(t: Table, e: Endpoint)
    ensures PeerIsIn(t, e) <==> exists k :: 0 <= k < |t.sessions| && t.sessions[k].endpoint == e
  {
    if k :| 0 <= k < |t.sessions| && t.sessions[k].endpoint == e {
      assert t.sessions[k] in t.sessions;
    }
  }

  lemma NamesByIndex(t: Table, username: Bytes)
    ensures NameIsFree(t, username) <==> forall k :: 0 <= k < |t.sessions| ==> t.sessions[k].username != username
  {
    if k :| 0 <= k < |t.sessions| && t.sessions[k].username == username {
      assert t.sessions[k] in t.sessions;
    }
  }

  // ---------------------------------------------------------------- what a peer has reported

  // The ticks of the snapshots the peer at e has reported since it was last admitted.
  function Reports(trace: Trace, e: Endpoint): seq<uint64> {
    if trace == [] then [] else ReportStep(Reports(trace[..|trace| - 1], e), trace[|trace| - 1], e)
  }

  function ReportStep(ticks: seq<uint64>, x: Entry, e: Endpoint): seq<uint64> {
    match x
    case Admitted(_, endpoint, _) => if endpoint == e then [] else ticks
    case Received(from, data, _) =>
      if from != e then ticks
      else
        var tick := TickIn(data);
        if tick.Some? then ticks + [tick.value] else ticks
    case _ => ticks
  }

  // The tick a datagram reports.
  function TickIn(data: Bytes): Option<uint64> {
    match Decode(data, PlayerStateType)
    case Some(PlayerState(tick, _, _)) => Some(tick)
    case _ => None
  }

  lemma ReportsSnoc(trace: Trace, x: Entry, e: Endpoint)
    ensures Reports(trace + [x], e) == ReportStep(Reports(trace, e), x, e)
  {
    hide ReportStep;
    assert (trace + [x])[..|trace|] == trace;
  }

  lemma {:induction false} ReportsStay(trace: Trace, more: Trace, e: Endpoint)
    requires forall i :: 0 <= i < |more| ==> more[i].Sent? || more[i].Called?
    ensures Reports(trace + more, e) == Reports(trace, e)
  {
    hide Decode;
    if more == [] {
      assert trace + more == trace;
    } else {
      ReportsStay(trace, more[..|more| - 1], e);
      ReportsSnoc(trace + more[..|more| - 1], more[|more| - 1], e);
      assert trace + more == trace + more[..|more| - 1] + [more[|more| - 1]];
    }
  }

  lemma TalkReportsNothing(before: Trace, after: Trace, e: Endpoint)
    requires Talks(before, after)
    ensures Reports(after, e) == Reports(before, e)
  {
    hide Reports;
    ReportsStay(before, after[|before|..], e);
    assert before + after[|before|..] == after;
  }

  // Higher than all of these.
  predicate Above(ticks: seq<uint64>, tick: uint64) {
    forall i :: 0 <= i < |ticks| ==> ticks[i] < tick
  }

  // The session stores the highest tick of these, or none if there are none.
  predicate Stores(s: Session, ticks: seq<uint64>) {
    && (s.hasState <==> ticks != [])
    && (s.hasState ==> s.stateTick in ticks && forall i :: 0 <= i < |ticks| ==> ticks[i] <= s.stateTick)
  }

  predicate ReportsAgree(trace: Trace, ss: seq<Session>) {
    forall k :: 0 <= k < |ss| ==> Stores(ss[k], Reports(trace, ss[k].endpoint))
  }

  lemma NewerIsAbove(s: Session, ticks: seq<uint64>, tick: uint64)
    requires Stores(s, ticks)
    ensures Newer(s, tick) <==> Above(ticks, tick)
  {
  }

  lemma StoresOneMore(s: Session, ticks: seq<uint64>, tick: uint64)
    requires Stores(s, ticks)
    ensures Stores(if Newer(s, tick) then s.(hasState := true, stateTick := tick) else s, ticks + [tick])
  {
  }

  lemma StoresSame(s: Session, s': Session, ticks: seq<uint64>)
    requires Stores(s, ticks) && s'.hasState == s.hasState && s'.stateTick == s.stateTick
    ensures Stores(s', ticks)
  {
  }

  // Fewer sessions and more talk.
  lemma FewerAgree(trace: Trace, ss: seq<Session>, trace': Trace, rr: seq<Session>)
    requires ReportsAgree(trace, ss) && Talks(trace, trace') && forall x :: x in rr ==> x in ss
    ensures ReportsAgree(trace', rr)
  {
    hide Reports, Stores, Talks;
    forall k | 0 <= k < |rr|
      ensures Stores(rr[k], Reports(trace', rr[k].endpoint))
    {
      assert rr[k] in ss;
      var j :| 0 <= j < |ss| && ss[j] == rr[k];
      assert Stores(ss[j], Reports(trace, ss[j].endpoint));
      TalkReportsNothing(trace, trace', rr[k].endpoint);
    }
  }

  lemma TickReports(s: State, scripts: seq<Script>, now: uint64)
    requires ReportsAgree(s.trace, s.table.sessions)
    ensures var r := Dispatch(s, scripts, TickEvent(now));
            ReportsAgree(r.trace, r.table.sessions)
  {
    hide Reports, Stores, CallEntries, Requests;
    var ss := s.table.sessions;
    CallsAreCalls(|scripts|, s.calls, TickEvent(now), ss);
    forall k | 0 <= k < |ss|
      ensures Stores(ss[k], Reports(s.trace + CallEntries(|scripts|, s.calls, TickEvent(now), ss), ss[k].endpoint))
    {
      assert Stores(ss[k], Reports(s.trace, ss[k].endpoint));
      ReportsStay(s.trace, CallEntries(|scripts|, s.calls, TickEvent(now), ss), ss[k].endpoint);
    }
  }

  lemma AtDatagramReports(s: State, scripts: seq<Script>, now: uint64)
    requires Inv(s, |scripts|) && ReportsAgree(s.trace, s.table.sessions)
    ensures var r := AtDatagram(s, scripts, now);
            Inv(r, |scripts|) && ReportsAgree(r.trace, r.table.sessions)
  {
    hide ReportsAgree, Talks, Sweep, Drain, Agree, RostersAgree;
    var s1, s2 := Sweep(s, scripts, now), BeforeDrain(s, scripts, now);
    SweepTalks(s, scripts, now);
    SweepRemovesExactly(s, scripts, now);
    FewerAgree(s.trace, s.table.sessions, s1.trace, s1.table.sessions);
    TickReports(s1, scripts, now);
    BeforeDrainKeeps(s, scripts, now);
    DrainTalks(s2.(kicks := []), scripts, s2.kicks);
    InvPositive(s2, |scripts|);
    DrainRemovesExactly(s2.(kicks := []), scripts, s2.kicks);
    FewerAgree(s2.trace, s2.table.sessions, AtDatagram(s, scripts, now).trace,
               AtDatagram(s, scripts, now).table.sessions);
    DrainKeeps(s2.(kicks := []), scripts, s2.kicks);
  }

  lemma InvPositive(s: State, backends: nat)
    requires Inv(s, backends)
    ensures IdsIncrease(s.table.sessions) && PositiveIds(s.table.sessions) && EndpointsDiffer(s.table.sessions)
  {
    hide Agree;
  }

  // ---------------------------------------------------------------- a datagram

  // Datagrams of other kinds report nothing.
  lemma OtherKindsReportNothing(data: Bytes)
    requires PeekHeader(data).None? || PeekHeader(data).value.kind != PlayerStateType
    ensures TickIn(data).None?
  {
    hide TakeBody;
  }

  lemma ReceptionReports(trace: Trace, a: Arrival, e: Endpoint)
    ensures Reports(trace + [Received(a.from, a.data, a.at)], e)
            == if e == a.from && TickIn(a.data).Some? then Reports(trace, e) + [TickIn(a.data).value]
               else Reports(trace, e)
  {
    hide Decode, Reports;
    ReportsSnoc(trace, Received(a.from, a.data, a.at), e);
  }

  // A datagram that reports nothing, heard or not.
  lemma SilentReception(trace: Trace, ss: seq<Session>, rr: seq<Session>, a: Arrival)
    requires ReportsAgree(trace, ss) && SameStates(ss, rr) && TickIn(a.data).None?
    ensures ReportsAgree(trace + [Received(a.from, a.data, a.at)], rr)
  {
    hide Reports, Stores, TickIn;
    forall k | 0 <= k < |rr|
      ensures Stores(rr[k], Reports(trace + [Received(a.from, a.data, a.at)], rr[k].endpoint))
    {
      ReceptionReports(trace, a, rr[k].endpoint);
      assert Stores(ss[k], Reports(trace, ss[k].endpoint));
      StoresSame(ss[k], rr[k], Reports(trace, ss[k].endpoint));
    }
  }

  lemma TalkAgrees(trace: Trace, trace': Trace, ss: seq<Session>)
    requires ReportsAgree(trace, ss) && Talks(trace, trace')
    ensures ReportsAgree(trace', ss)
  {
    hide ReportsAgree, Talks;
    FewerAgree(trace, ss, trace', ss);
  }

  lemma AdmissionAgrees(s: State, from: Endpoint, username: Bytes, version: uint32, now: uint64)
    requires ReportsAgree(s.trace, s.table.sessions)
    ensures ReportsAgree(Admission(s, from, username, version, now),
                         Join(s.table, from, username, version, now).0.sessions)
  {
    hide Reports, Stores, Join, JoinOutcome;
    var ss := s.table.sessions;
    var (t, result, id) := Join(s.table, from, username, version, now);
    JoinLeaves(s.table, from, username, version, now);
    JoinDecides(s.table, from, username, version, now);
    var x := Admitted(id, from, username);
    if result == Accepted {
      forall k | 0 <= k < |t.sessions|
        ensures Stores(t.sessions[k], Reports(s.trace + [x], t.sessions[k].endpoint))
      {
        ReportsSnoc(s.trace, x, t.sessions[k].endpoint);
        if k < |ss| {
          assert t.sessions[k] == t.sessions[..|ss|][k] == ss[k];
          assert ss[k] in s.table.sessions;
          assert Stores(ss[k], Reports(s.trace, ss[k].endpoint));
        } else {
          StoresNothing(t.sessions[k]);
        }
      }
    } else if result == AlreadyJoined {
      forall k | 0 <= k < |t.sessions|
        ensures Stores(t.sessions[k], Reports(s.trace, t.sessions[k].endpoint))
      {
        assert Stores(ss[k], Reports(s.trace, ss[k].endpoint));
        StoresSame(ss[k], t.sessions[k], Reports(s.trace, ss[k].endpoint));
      }
    }
  }

  lemma StoresNothing(s: Session)
    requires !s.hasState
    ensures Stores(s, [])
  {
  }

  // A snapshot from session k.
  lemma ReportStored(trace: Trace, t: Table, k: nat, a: Arrival, tick: uint64, position: Vec3, rotation: Float32)
    requires ReportsAgree(trace, t.sessions) && EndpointsDiffer(t.sessions)
    requires k < |t.sessions| && t.sessions[k].endpoint == a.from && TickIn(a.data) == Some(tick)
    ensures ReportsAgree(trace + [Received(a.from, a.data, a.at)],
                         ApplyState(t, a.from, tick, position, rotation).0.sessions)
  {
    hide Reports, Stores, TickIn, Newer;
    var ss, rr := t.sessions, ApplyState(t, a.from, tick, position, rotation).0.sessions;
    assert EndpointIndex(ss, a.from) == k;
    forall j | 0 <= j < |rr|
      ensures Stores(rr[j], Reports(trace + [Received(a.from, a.data, a.at)], rr[j].endpoint))
    {
      ReceptionReports(trace, a, rr[j].endpoint);
      assert Stores(ss[j], Reports(trace, ss[j].endpoint));
      if j == k {
        var ticks := Reports(trace, a.from);
        StoresOneMore(ss[k], ticks, tick);
        if Newer(ss[k], tick) {
          StoresSame(ss[k].(hasState := true, stateTick := tick), rr[k], ticks + [tick]);
        }
      }
    }
  }

  // A snapshot from nobody who is in.
  lemma StrangerReports(trace: Trace, ss: seq<Session>, a: Arrival)
    requires ReportsAgree(trace, ss) && forall k :: 0 <= k < |ss| ==> ss[k].endpoint != a.from
    ensures ReportsAgree(trace + [Received(a.from, a.data, a.at)], ss)
  {
    hide Reports, Stores, TickIn;
    forall k | 0 <= k < |ss|
      ensures Stores(ss[k], Reports(trace + [Received(a.from, a.data, a.at)], ss[k].endpoint))
    {
      ReceptionReports(trace, a, ss[k].endpoint);
      assert Stores(ss[k], Reports(trace, ss[k].endpoint));
    }
  }

  lemma RelayTable(s: State, from: Endpoint, tick: uint64, position: Vec3, rotation: Float32)
    ensures Relay(s, from, tick, position, rotation).table == ApplyState(s.table, from, tick, position, rotation).0
  {
  }

  lemma TouchSameStates(t: Table, from: Endpoint, now: uint64)
    ensures SameStates(t.sessions, Touch(t, from, now).sessions)
  {
  }

  lemma SnapshotAgrees(s: State, scripts: seq<Script>, a: Arrival, now: uint64)
    requires ReportsAgree(s.trace, s.table.sessions) && EndpointsDiffer(s.table.sessions)
    requires PeekHeader(a.data).Some? && PeekHeader(a.data).value.kind == PlayerStateType
    ensures var r := HandleDatagram(s, scripts, a, now);
            ReportsAgree(r.trace, r.table.sessions)
  {
    hide Decode, ReportsAgree, PeekHeader, Relay, Touch, ApplyState, Talks;
    var x := Received(a.from, a.data, a.at);
    var t := Touch(s.table, a.from, now);
    var s2 := s.(table := t, trace := s.trace + [x]);
    TouchAgrees(s.trace, s.table, a.from, now);
    match Decode(a.data, PlayerStateType) {
      case Some(PlayerState(tick, position, rotation)) =>
        RelayTable(s2, a.from, tick, position, rotation);
        RelayTalks(s2, a.from, tick, position, rotation);
        var k := EndpointIndex(t.sessions, a.from);
        if k < |t.sessions| {
          ReportStored(s.trace, t, k, a, tick, position, rotation);
        } else {
          StrangerReports(s.trace, t.sessions, a);
          StrangerStoresNothing(t, a.from, tick, position, rotation);
        }
        var r := Relay(s2, a.from, tick, position, rotation);
        TalkAgrees(s2.trace, r.trace, r.table.sessions);
      case _ =>
        SameStatesOfSame(t.sessions);
        SilentReception(s.trace, t.sessions, t.sessions, a);
    }
  }

  lemma SameStatesOfSame(ss: seq<Session>)
    ensures SameStates(ss, ss)
  {
  }

  lemma StrangerStoresNothing(t: Table, from: Endpoint, tick: uint64, position: Vec3, rotation: Float32)
    requires EndpointIndex(t.sessions, from) == |t.sessions|
    ensures ApplyState(t, from, tick, position, rotation).0 == t
  {
  }

  lemma TouchAgrees(trace: Trace, t: Table, from: Endpoint, now: uint64)
    requires ReportsAgree(trace, t.sessions) && EndpointsDiffer(t.sessions)
    ensures ReportsAgree(trace, Touch(t, from, now).sessions) && EndpointsDiffer(Touch(t, from, now).sessions)
  {
    hide Reports, Stores;
    var ss, rr := t.sessions, Touch(t, from, now).sessions;
    forall k | 0 <= k < |rr|
      ensures Stores(rr[k], Reports(trace, rr[k].endpoint))
    {
      assert Stores(ss[k], Reports(trace, ss[k].endpoint));
      StoresSame(ss[k], rr[k], Reports(trace, ss[k].endpoint));
    }
  }

  lemma OtherAgrees(s: State, scripts: seq<Script>, a: Arrival, now: uint64)
    requires ReportsAgree(s.trace, s.table.sessions)
    requires PeekHeader(a.data).None? || PeekHeader(a.data).value.kind != PlayerStateType
    ensures var r := HandleDatagram(s, scripts, a, now);
            ReportsAgree(r.trace, r.table.sessions)
  {
    hide Decode, ReportsAgree, PeekHeader, Touch, TickIn, SameStates, Greet, Talks, Reply;
    var x := Received(a.from, a.data, a.at);
    var t := Touch(s.table, a.from, now);
    var s2 := s.(table := t, trace := s.trace + [x]);
    OtherKindsReportNothing(a.data);
    SameStatesOfSame(s.table.sessions);
    SilentReception(s.trace, s.table.sessions, s.table.sessions, a);
    TouchSameStates(s.table, a.from, now);
    SilentReception(s.trace, s.table.sessions, t.sessions, a);
    if PeekHeader(a.data).Some? {
      match PeekHeader(a.data).value.kind {
        case HelloType => HelloAgrees(s2, scripts, a.from, a.data, now);
        case PingType =>
          match Decode(a.data, PingType) {
            case Some(Ping(sentAt)) =>
              ReplyTalks(s2, a.from, Pong(sentAt));
              ReplyKeepsTable(s2, a.from, Pong(sentAt));
              TalkAgrees(s2.trace, Reply(s2, a.from, Pong(sentAt)).trace, t.sessions);
            case _ =>
          }
        case _ =>
      }
    }
  }

  lemma ReplyKeepsTable(s: State, to: Endpoint, m: Message)
    ensures Reply(s, to, m).table == s.table
  {
  }

  lemma HelloAgrees(s: State, scripts: seq<Script>, from: Endpoint, data: Bytes, now: uint64)
    requires ReportsAgree(s.trace, s.table.sessions)
    ensures var r := HandleHello(s, scripts, from, data, now);
            ReportsAgree(r.trace, r.table.sessions)
  {
    hide Decode, ReportsAgree, Greet, Talks, Join, Admission;
    match Decode(data, HelloType) {
      case Some(Hello(version, username)) =>
        var r := Greet(s, scripts, from, version, username, now);
        AdmissionAgrees(s, from, username, version, now);
        GreetTalks(s, scripts, from, version, username, now);
        GreetTable(s, scripts, from, version, username, now);
        TalkAgrees(Admission(s, from, username, version, now), r.trace, r.table.sessions);
      case _ =>
    }
  }

  lemma DatagramAgrees(s: State, scripts: seq<Script>, a: Arrival, now: uint64)
    requires ReportsAgree(s.trace, s.table.sessions) && EndpointsDiffer(s.table.sessions)
    ensures var r := HandleDatagram(s, scripts, a, now);
            ReportsAgree(r.trace, r.table.sessions)
  {
    hide HandleDatagram, ReportsAgree, PeekHeader;
    if PeekHeader(a.data).Some? && PeekHeader(a.data).value.kind == PlayerStateType {
      SnapshotAgrees(s, scripts, a, now);
    } else {
      OtherAgrees(s, scripts, a, now);
    }
  }

  lemma {:induction false} RunReports(maxPlayers: nat, timeoutMs: uint64, scripts: seq<Script>, inputs: seq<Input>)
    requires IdsLast(After(maxPlayers, timeoutMs, scripts, inputs))
    ensures var s := After(maxPlayers, timeoutMs, scripts, inputs);
            ReportsAgree(s.trace, s.table.sessions)
  {
    if inputs == [] {
      assert After(maxPlayers, timeoutMs, scripts, inputs).table.sessions == [];
    } else {
      hide ReportsAgree, HandleDatagram, Iterate, AtDatagram, Agree;
      var init, last := inputs[..|inputs| - 1], inputs[|inputs| - 1];
      var before := After(maxPlayers, timeoutMs, scripts, init);
      IdsLastBefore(maxPlayers, timeoutMs, scripts, inputs);
      RunReports(maxPlayers, timeoutMs, scripts, init);
      RunKeeps(maxPlayers, timeoutMs, scripts, init);
      AtDatagramReports(before, scripts, last.now);
      IterateAtDatagram(before, scripts, last);
      if last.arrival.Some? {
        InvPositive(AtDatagram(before, scripts, last.now), |scripts|);
        DatagramAgrees(AtDatagram(before, scripts, last.now), scripts, last.arrival.value, last.now);
      }
    }
  }

  // ---------------------------------------------------------------- relaying

  // These entries are one copy of m for every session but session k, in table order.
  predicate OneToEachOther(entries: Trace, ss: seq<Session>, k: nat, m: Message)
    requires k < |ss|
  {
    && |entries| == |ss| - 1
    && (forall j :: 0 <= j < k ==> entries[j] == Sent(ss[j].endpoint, m))
    && (forall j :: k < j < |ss| ==> entries[j - 1] == Sent(ss[j].endpoint, m))
  }

  lemma {:induction false} FanOfAll(ss: seq<Session>, m: Message, except: uint32)
    requires forall j :: 0 <= j < |ss| ==> ss[j].id != except
    ensures |Fan(ss, m, except)| == |ss|
    ensures forall j :: 0 <= j < |ss| ==> Fan(ss, m, except)[j] == Sent(ss[j].endpoint, m)
  {
    if ss != [] {
      FanOfAll(ss[..|ss| - 1], m, except);
    }
  }

  lemma {:induction false} FanOfOthers(ss: seq<Session>, k: nat, m: Message)
    requires k < |ss| && IdsIncrease(ss)
    ensures OneToEachOther(Fan(ss, m, ss[k].id), ss, k, m)
  {
    var n := |ss| - 1;
    if k == n {
      FanOfAll(ss[..n], m, ss[k].id);
    } else {
      FanOfOthers(ss[..n], k, m);
    }
  }

  lemma SnapshotIsHandled(
    s: State, scripts: seq<Script>, a: Arrival, now: uint64, tick: uint64, position: Vec3, rotation: Float32)
    requires Decode(a.data, PlayerStateType) == Some(PlayerState(tick, position, rotation))
    ensures var s2 := s.(table := Touch(s.table, a.from, now), trace := s.trace + [Received(a.from, a.data, a.at)]);
            HandleDatagram(s, scripts, a, now) == Relay(s2, a.from, tick, position, rotation)
  {
    SnapshotKind(a.data);
    hide Decode, PeekHeader, Relay, Touch;
  }

  lemma OnlyPlace(ss: seq<Session>, from: Endpoint, k: nat)
    requires EndpointsDiffer(ss) && k < |ss| && ss[k].endpoint == from
    ensures EndpointIndex(ss, from) == k
  {
  }

  lemma RelayTrace(s: State, k: nat, tick: uint64, position: Vec3, rotation: Float32)
    requires k < |s.table.sessions| && EndpointIndex(s.table.sessions, s.table.sessions[k].endpoint) == k
    ensures var m := NotifyPlayerState(s.table.sessions[k].id, tick, position, rotation);
            Relay(s, s.table.sessions[k].endpoint, tick, position, rotation).trace
            == s.trace + if Newer(s.table.sessions[k], tick) then Fan(s.table.sessions, m, m.playerId) else []
  {
    hide Fan, Newer, Encodable;
    var m := NotifyPlayerState(s.table.sessions[k].id, tick, position, rotation);
    ShortTextFits(m);
    var rr := ApplyState(s.table, s.table.sessions[k].endpoint, tick, position, rotation).0.sessions;
    SamePeersFan(s.table.sessions, rr, m, m.playerId);
  }

  // The datagram as it is handled: when it comes from session k and reports this snapshot.
  lemma RelayIsExact(
    s: State, scripts: seq<Script>, a: Arrival, now: uint64, k: nat, tick: uint64, position: Vec3, rotation: Float32)
    requires ReportsAgree(s.trace, s.table.sessions)
    requires IdsIncrease(s.table.sessions) && EndpointsDiffer(s.table.sessions)
    requires k < |s.table.sessions| && s.table.sessions[k].endpoint == a.from
    requires Decode(a.data, PlayerStateType) == Some(PlayerState(tick, position, rotation))
    ensures var m := NotifyPlayerState(s.table.sessions[k].id, tick, position, rotation);
            HandleDatagram(s, scripts, a, now).trace
            == s.trace + [Received(a.from, a.data, a.at)]
               + if Above(Reports(s.trace, a.from), tick) then Fan(s.table.sessions, m, m.playerId) else []
  {
    hide Reports, Stores, Above, Fan, Decode, HandleDatagram, Relay, Newer, EndpointIndex, EndpointsDiffer, IdsIncrease;
    var ss, t := s.table.sessions, Touch(s.table, a.from, now);
    var m := NotifyPlayerState(ss[k].id, tick, position, rotation);
    SnapshotIsHandled(s, scripts, a, now, tick, position, rotation);
    TouchedAt(s.table, a.from, now, k);
    RelayTrace(s.(table := t, trace := s.trace + [Received(a.from, a.data, a.at)]), k, tick, position, rotation);
    assert Stores(ss[k], Reports(s.trace, a.from));
    NewerIsAbove(ss[k], Reports(s.trace, a.from), tick);
    SameStatesNewer(ss[k], t.sessions[k], tick);
    SamePeersFan(ss, t.sessions, m, m.playerId);
  }

  lemma TouchedAt(t: Table, from: Endpoint, now: uint64, k: nat)
    requires EndpointsDiffer(t.sessions) && k < |t.sessions| && t.sessions[k].endpoint == from
    ensures var rr := Touch(t, from, now).sessions;
            && SamePeers(t.sessions, rr) && SameStates(t.sessions, rr) && EndpointIndex(rr, from) == k
  {
    OnlyPlace(t.sessions, from, k);
    OnlyPlace(Touch(t, from, now).sessions, from, k);
  }

  lemma SameStatesNewer(s: Session, s': Session, tick: uint64)
    requires s.hasState == s'.hasState && s.stateTick == s'.stateTick
    ensures Newer(s, tick) == Newer(s', tick)
  {
  }

  lemma SnapshotKind(data: Bytes)
    requires Decode(data, PlayerStateType).Some?
    ensures PeekHeader(data).Some? && PeekHeader(data).value.kind == PlayerStateType
  {
    hide TakeBody;
  }

  lemma {:induction false} SamePeersFan(ss: seq<Session>, rr: seq<Session>, m: Message, except: uint32)
    requires SamePeers(ss, rr)
    ensures Fan(ss, m, except) == Fan(rr, m, except)
  {
    if ss != [] {
      SamePeersFan(ss[..|ss| - 1], rr[..|rr| - 1], m, except);
    }
  }

  // In any run, when an iteration takes a datagram that reports a snapshot of a live session: if its tick
  // is higher than every tick this peer has reported since it was admitted, or is the first, exactly one
  // copy of the snapshot goes to every other live session, and otherwise nothing is sent.
  lemma NewSnapshotsAreRelayed(
    maxPlayers: nat, timeoutMs: uint64, scripts: seq<Script>, inputs: seq<Input>, a: Arrival, now: uint64,
    k: nat, tick: uint64, position: Vec3, rotation: Float32)
    requires IdsLast(After(maxPlayers, timeoutMs, scripts, inputs))
    requires var s := AtDatagram(After(maxPlayers, timeoutMs, scripts, inputs), scripts, now);
             k < |s.table.sessions| && s.table.sessions[k].endpoint == a.from
    requires Decode(a.data, PlayerStateType) == Some(PlayerState(tick, position, rotation))
    ensures var s := AtDatagram(After(maxPlayers, timeoutMs, scripts, inputs), scripts, now);
            var before := s.trace + [Received(a.from, a.data, a.at)];
            var r := Iterate(After(maxPlayers, timeoutMs, scripts, inputs), scripts, Input(now, Some(a)));
            var m := NotifyPlayerState(s.table.sessions[k].id, tick, position, rotation);
            && before <= r.trace
            && if Above(Reports(s.trace, a.from), tick)
               then OneToEachOther(r.trace[|before|..], s.table.sessions, k, m)
               else r.trace == before
  {
    hide ReportsAgree, HandleDatagram, Iterate, Agree, Decode, Above, Reports, Fan, OneToEachOther;
    var run := After(maxPlayers, timeoutMs, scripts, inputs);
    RunReports(maxPlayers, timeoutMs, scripts, inputs);
    RunKeeps(maxPlayers, timeoutMs, scripts, inputs);
    AtDatagramReports(run, scripts, now);
    IterateAtDatagram(run, scripts, Input(now, Some(a)));
    var s := AtDatagram(run, scripts, now);
    hide AtDatagram;
    InvPositive(s, |scripts|);
    RelayIsExact(s, scripts, a, now, k, tick, position, rotation);
    FanOfOthers(s.table.sessions, k, NotifyPlayerState(s.table.sessions[k].id, tick, position, rotation));
  }
}
