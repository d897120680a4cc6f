/** Timeouts: what the sweep removes and what the scripts see of it, and how long a peer must have
    been silent to be dropped. */
module ServerTimeouts {
  import opened Numbers
  import opened Protocol
  import opened Sessions
  import opened Traces
  import opened TraceRules
  import opened Server
  import opened ServerInvariant
  import opened ServerRuns
  import opened ServerTheorems
  import opened ServerKicks
  import opened ServerArrivals

  // ---------------------------------------------------------------- the sweep

  // The sweep removes exactly the expired sessions and leaves the others as they were, in order.
  lemma {:induction false} SweepRemovesExactly(s: State, scripts: seq<Script>, now: uint64)
    requires IdsIncrease(s.table.sessions)
    ensures var ss, rr := s.table.sessions, Sweep(s, scripts, now).table.sessions;
            && IdsIncrease(rr)
            && forall x :: x in rr <==> x in ss && !Expired(x, now, s.table.timeoutMs)
    decreases |s.table.sessions|
  {
    var ss := s.table.sessions;
    var i := ExpiredIndex(ss, now, s.table.timeoutMs);
    if i < |ss| {
      WithoutMembers(ss, i);
      SweepRemovesExactly(Announce(Dropped(s, i), scripts, ss[i].id), scripts, now);
    }
  }

  // The ids of the expired sessions, in table order.
  function ExpiredIds(ss: seq<Session>, now: uint64, timeout: uint64): seq<uint32> {
    if ss == [] then []
    else (if Expired(ss[0], now, timeout) then [ss[0].id] else []) + ExpiredIds(ss[1..], now, timeout)
  }

  lemma ExpiredIdsCons(s: Session, ss: seq<Session>, now: uint64, timeout: uint64)
    ensures ExpiredIds([s] + ss, now, timeout)
            == (if Expired(s, now, timeout) then [s.id] else []) + ExpiredIds(ss, now, timeout)
  {
    assert ([s] + ss)[1..] == ss;
  }

  lemma FirstStays(ss: seq<Session>, now: uint64, timeout: uint64)
    requires ss != [] && !Expired(ss[0], now, timeout)
    ensures ExpiredIndex(ss, now, timeout) == 1 + ExpiredIndex(ss[1..], now, timeout)
    ensures ExpiredIds(ss, now, timeout) == ExpiredIds(ss[1..], now, timeout)
  {
    hide Expired;
    assert [] + ExpiredIds(ss[1..], now, timeout) == ExpiredIds(ss[1..], now, timeout);
  }

  lemma {:induction false} ExpiredIdsFirst(ss: seq<Session>, now: uint64, timeout: uint64)
    ensures var i := ExpiredIndex(ss, now, timeout);
            ExpiredIds(ss, now, timeout) ==
            if i == |ss| then [] else [ss[i].id] + ExpiredIds(Without(ss, i), now, timeout)
  {
    hide Expired;
    if ss == [] {
    } else if Expired(ss[0], now, timeout) {
      assert Without(ss, 0) == ss[1..];
    } else {
      hide ExpiredIndex, ExpiredIds, Without;
      var i := ExpiredIndex(ss[1..], now, timeout);
      FirstStays(ss, now, timeout);
      ExpiredIdsFirst(ss[1..], now, timeout);
      if i < |ss| - 1 {
        SkipsFirst(ss, i, now, timeout);
      }
    }
  }

  lemma SkipsFirst(ss: seq<Session>, i: nat, now: uint64, timeout: uint64)
    requires i < |ss| - 1 && !Expired(ss[0], now, timeout)
    ensures ss[i + 1] == ss[1..][i]
    ensures ExpiredIds(Without(ss, i + 1), now, timeout) == ExpiredIds(Without(ss[1..], i), now, timeout)
  {
    WithoutCons(ss, i);
    ExpiredIdsCons(ss[0], Without(ss[1..], i), now, timeout);
  }

  lemma WithoutCons(ss: seq<Session>, i: nat)
    requires i < |ss| - 1
    ensures Without(ss, i + 1) == [ss[0]] + Without(ss[1..], i)
  {
  }

  // What one backend saw of players leaving: who, and how many were left.
  function DepartureStep(d: seq<(uint32, int)>, x: Entry, b: nat): seq<(uint32, int)> {
    if x.Called? && x.backend == b && x.event.LeaveEvent? then d + [(x.event.id, |x.live|)] else d
  }

  function Departures(trace: Trace, b: nat): seq<(uint32, int)> {
    if trace == [] then [] else DepartureStep(Departures(trace[..|trace| - 1], b), trace[|trace| - 1], b)
  }

  lemma DeparturesSnoc(trace: Trace, x: Entry, b: nat)
    ensures Departures(trace + [x], b) == DepartureStep(Departures(trace, b), x, b)
  {
    assert (trace + [x])[..|trace|] == trace;
  }

  lemma {:induction false} FanDepartures(trace: Trace, ss: seq<Session>, m: Message, except: uint32, b: nat)
    ensures Departures(trace + Fan(ss, m, except), b) == Departures(trace, b)
  {
    if ss == [] {
      assert trace + Fan(ss, m, except) == trace;
    } else {
      var init, last := ss[..|ss| - 1], ss[|ss| - 1];
      FanDepartures(trace, init, m, except, b);
      FanSnoc(trace, ss, m, except);
      DeparturesSnoc(trace + Fan(init, m, except), Sent(last.endpoint, m), b);
    }
  }

  lemma {:induction false} CallDepartures(trace: Trace, n: nat, call: nat, id: uint32, live: seq<Session>, b: nat)
    ensures Departures(trace + CallEntries(n, call, LeaveEvent(id), live), b)
            == Departures(trace, b) + if b < n then [(id, |live|)] else []
  {
    if n == 0 {
      assert trace + CallEntries(n, call, LeaveEvent(id), live) == trace;
    } else {
      CallDepartures(trace, n - 1, call, id, live, b);
      CallsSnoc(trace, n, call, LeaveEvent(id), live);
      DeparturesSnoc(trace + CallEntries(n - 1, call, LeaveEvent(id), live),
                     Called(n - 1, call, LeaveEvent(id), live), b);
    }
  }

  lemma AnnounceDepartures(s: State, scripts: seq<Script>, id: uint32, b: nat)
    requires b < |scripts|
    ensures Departures(Announce(s, scripts, id).trace, b) == Departures(s.trace, b) + [(id, |s.table.sessions|)]
  {
    var m := NotifyPlayerLeft(id);
    ShortTextFits(m);
    FanDepartures(s.trace, s.table.sessions, m, id, b);
    CallDepartures(s.trace + Fan(s.table.sessions, m, id), |scripts|, s.calls, id, s.table.sessions, b);
  }

  // These ids leaving one at a time from n players: the count drops by one with each.
  function Countdown(ids: seq<uint32>, n: int): seq<(uint32, int)> {
    if ids == [] then [] else [(ids[0], n - 1)] + Countdown(ids[1..], n - 1)
  }

  lemma CountdownStep(
    d0: seq<(uint32, int)>, d1: seq<(uint32, int)>, d2: seq<(uint32, int)>, id: uint32, ids: seq<uint32>, n: int)
    requires d1 == d0 + [(id, n - 1)] && d2 == d1 + Countdown(ids, n - 1)
    ensures d2 == d0 + Countdown([id] + ids, n)
  {
    assert ([id] + ids)[1..] == ids;
  }

  // The players a sweep at this moment would drop.
  function Leaving(s: State, now: uint64): seq<uint32> {
    ExpiredIds(s.table.sessions, now, s.table.timeoutMs)
  }

  lemma SweepOnce(s: State, scripts: seq<Script>, now: uint64, i: nat)
    requires i == ExpiredIndex(s.table.sessions, now, s.table.timeoutMs) < |s.table.sessions|
    ensures Sweep(s, scripts, now) == Sweep(Announce(Dropped(s, i), scripts, s.table.sessions[i].id), scripts, now)
  {
    hide Announce;
  }

  lemma FirstLeaves(s: State, scripts: seq<Script>, now: uint64, i: nat, b: nat)
    requires b < |scripts| && i == ExpiredIndex(s.table.sessions, now, s.table.timeoutMs) < |s.table.sessions|
    ensures var ss, id := s.table.sessions, s.table.sessions[i].id;
            var r := Announce(Dropped(s, i), scripts, id);
            && Sweep(s, scripts, now) == Sweep(r, scripts, now)
            && |r.table.sessions| == |ss| - 1
            && Leaving(s, now) == [id] + Leaving(r, now)
            && Departures(r.trace, b) == Departures(s.trace, b) + [(id, |ss| - 1)]
  {
    SweepOnce(s, scripts, now, i);
    ExpiredIdsFirst(s.table.sessions, now, s.table.timeoutMs);
    AnnounceDepartures(Dropped(s, i), scripts, s.table.sessions[i].id, b);
    hide Sweep, Departures, ExpiredIds, ExpiredIndex;
  }

  lemma NobodyLeaves(s: State, scripts: seq<Script>, now: uint64)
    requires ExpiredIndex(s.table.sessions, now, s.table.timeoutMs) == |s.table.sessions|
    ensures Sweep(s, scripts, now) == s && Leaving(s, now) == []
    ensures Countdown(Leaving(s, now), |s.table.sessions|) == []
  {
    ExpiredIdsFirst(s.table.sessions, now, s.table.timeoutMs);
  }

  // In one sweep every backend hears the expired players leave, in table order, each with one
  // player fewer online than the one before.
  lemma {:induction false} SweepCountsDown(s: State, scripts: seq<Script>, now: uint64, b: nat)
    requires b < |scripts|
    ensures Departures(Sweep(s, scripts, now).trace, b)
            == Departures(s.trace, b) + Countdown(Leaving(s, now), |s.table.sessions|)
    decreases |s.table.sessions|
  {
    hide Sweep, Departures, Countdown, ExpiredIds, Announce;
    var i := ExpiredIndex(s.table.sessions, now, s.table.timeoutMs);
    if i < |s.table.sessions| {
      var id := s.table.sessions[i].id;
      var r := Announce(Dropped(s, i), scripts, id);
      FirstLeaves(s, scripts, now, i, b);
      SweepCountsDown(r, scripts, now, b);
      CountdownStep(Departures(s.trace, b), Departures(r.trace, b), Departures(Sweep(r, scripts, now).trace, b),
                    id, Leaving(r, now), |s.table.sessions|);
    } else {
      NobodyLeaves(s, scripts, now);
      assert Departures(s.trace, b) + [] == Departures(s.trace, b);
    }
  }

  // ---------------------------------------------------------------- how long a peer was silent

  // The clock never goes back, and a datagram taken in an iteration came at most `lag` after that
  // iteration read the clock; it may have been waiting for any time before.
  predicate Timely(inputs: seq<Input>, lag: nat) {
    && (forall i, j :: 0 <= i < j < |inputs| ==> inputs[i].now <= inputs[j].now)
    && (forall i :: 0 <= i < |inputs| ==> InTime(inputs[i], lag))
  }

  predicate InTime(input: Input, lag: nat) {
    input.arrival.Some? ==> input.arrival.value.at <= input.now + lag
  }

  // Whoever is in the table was last heard at most `lag` after its session says so.
  predicate HeardOk(trace: Trace, ss: seq<Session>, lag: nat) {
    forall k :: 0 <= k < |ss| ==> LastArrival(Arrivals(trace), ss[k].endpoint) <= ss[k].lastSeenMs + lag
  }

  ghost predicate ClockOk(trace: Trace, now: nat, lag: nat) {
    forall e :: LastArrival(Arrivals(trace), e) <= now + lag
  }

  lemma HeardWithout(trace: Trace, t: Trace, ss: seq<Session>, i: nat, lag: nat)
    requires i < |ss| && HeardOk(trace, ss, lag) && Unheard(trace, t)
    ensures HeardOk(t, Without(ss, i), lag)
  {
    forall k | 0 <= k < |ss| - 1
      ensures LastArrival(Arrivals(t), Without(ss, i)[k].endpoint) <= Without(ss, i)[k].lastSeenMs + lag
    {
      WithoutAt(ss, i, k);
    }
  }

  lemma {:induction false} SweepHeard(s: State, scripts: seq<Script>, now: uint64, lag: nat)
    requires HeardOk(s.trace, s.table.sessions, lag)
    ensures HeardOk(Sweep(s, scripts, now).trace, Sweep(s, scripts, now).table.sessions, lag)
    decreases |s.table.sessions|
  {
    var ss := s.table.sessions;
    var i := ExpiredIndex(ss, now, s.table.timeoutMs);
    if i < |ss| {
      var r := Announce(Dropped(s, i), scripts, ss[i].id);
      AnnounceUnheard(Dropped(s, i), scripts, ss[i].id);
      HeardWithout(s.trace, r.trace, ss, i, lag);
      SweepHeard(r, scripts, now, lag);
    }
  }

  lemma {:induction false} DrainHeard(s: State, scripts: seq<Script>, batch: seq<PendingKick>, lag: nat)
    requires HeardOk(s.trace, s.table.sessions, lag)
    ensures HeardOk(Drain(s, scripts, batch).trace, Drain(s, scripts, batch).table.sessions, lag)
  {
    if batch != [] {
      var r, id := Drain(s, scripts, batch[..|batch| - 1]), batch[|batch| - 1].playerId;
      DrainHeard(s, scripts, batch[..|batch| - 1], lag);
      if FindId(r.table, id).Some? {
        var i := IdIndex(r.table.sessions, id);
        AnnounceUnheard(Dropped(r, i), scripts, id);
        HeardWithout(r.trace, Announce(Dropped(r, i), scripts, id).trace, r.table.sessions, i, lag);
      }
    }
  }

  // A datagram with a valid header moves the sender's session up to the clock.
  lemma ReceiveHeard(trace: Trace, t: Table, a: Arrival, now: uint64, lag: nat)
    requires HeardOk(trace, t.sessions, lag) && ClockOk(trace, now, lag) && EndpointsDiffer(t.sessions)
    requires a.at <= now + lag
    ensures ClockOk(trace + [Received(a.from, a.data, a.at)], now, lag)
    ensures PeekHeader(a.data).Some? ==>
              HeardOk(trace + [Received(a.from, a.data, a.at)], Touch(t, a.from, now).sessions, lag)
    ensures PeekHeader(a.data).None? ==> HeardOk(trace + [Received(a.from, a.data, a.at)], t.sessions, lag)
  {
    hide PeekHeader;
    var x := Received(a.from, a.data, a.at);
    Snoc(trace, x);
    forall e: Endpoint
      ensures LastArrival(Arrivals(trace) + [x], e) == ArrivalStep(LastArrival(Arrivals(trace), e), x, e)
    {
      LastArrivalSnoc(Arrivals(trace), x, e);
    }
    var i := EndpointIndex(t.sessions, a.from);
    forall k | 0 <= k < |t.sessions| && k != i
      ensures t.sessions[k].endpoint != a.from
    {
    }
  }

  lemma GreetTable(s: State, scripts: seq<Script>, from: Endpoint, version: uint32, username: Bytes, now: uint64)
    ensures Greet(s, scripts, from, version, username, now).table == Join(s.table, from, username, version, now).0
  {
    hide Join;
  }

  // A hello leaves every session heard as late as before, or now.
  lemma JoinSessions(t: Table, from: Endpoint, version: uint32, username: Bytes, now: uint64, k: nat)
    requires k < |Join(t, from, username, version, now).0.sessions|
    ensures var ss, rr := t.sessions, Join(t, from, username, version, now).0.sessions;
            rr[k].lastSeenMs == now
            || (k < |ss| && rr[k].endpoint == ss[k].endpoint && rr[k].lastSeenMs == ss[k].lastSeenMs)
  {
  }

  lemma GreetHeard(
    s: State, scripts: seq<Script>, from: Endpoint, version: uint32, username: Bytes, now: uint64, lag: nat)
    requires HeardOk(s.trace, s.table.sessions, lag) && ClockOk(s.trace, now, lag)
    ensures var r := Greet(s, scripts, from, version, username, now);
            HeardOk(r.trace, r.table.sessions, lag) && ClockOk(r.trace, now, lag)
  {
    var r := Greet(s, scripts, from, version, username, now);
    GreetUnheard(s, scripts, from, version, username, now);
    GreetTable(s, scripts, from, version, username, now);
    hide Greet;
    forall k | 0 <= k < |r.table.sessions|
      ensures LastArrival(Arrivals(r.trace), r.table.sessions[k].endpoint) <= r.table.sessions[k].lastSeenMs + lag
    {
      JoinSessions(s.table, from, version, username, now, k);
    }
  }

  lemma RelayHeard(s: State, from: Endpoint, tick: uint64, position: Vec3, rotation: Float32, now: uint64, lag: nat)
    requires HeardOk(s.trace, s.table.sessions, lag) && ClockOk(s.trace, now, lag)
    ensures var r := Relay(s, from, tick, position, rotation);
            HeardOk(r.trace, r.table.sessions, lag) && ClockOk(r.trace, now, lag)
  {
    var (t, applied) := ApplyState(s.table, from, tick, position, rotation);
    if applied {
      var id := FindEndpoint(s.table, from).value.id;
      BroadcastUnheard(s.(table := t), NotifyPlayerState(id, tick, position, rotation), id);
    }
  }

  lemma DatagramHeard(s: State, scripts: seq<Script>, a: Arrival, now: uint64, lag: nat)
    requires HeardOk(s.trace, s.table.sessions, lag) && ClockOk(s.trace, now, lag)
    requires EndpointsDiffer(s.table.sessions) && a.at <= now + lag
    ensures var r := HandleDatagram(s, scripts, a, now);
            HeardOk(r.trace, r.table.sessions, lag) && ClockOk(r.trace, now, lag)
  {
    hide Decode;
    var s1 := Append(s, [Received(a.from, a.data, a.at)]);
    ReceiveHeard(s.trace, s.table, a, now, lag);
    if PeekHeader(a.data).Some? {
      var s2 := s1.(table := Touch(s1.table, a.from, now));
      HandledHeard(s2, scripts, PeekHeader(a.data).value.kind, a, now, lag);
    }
  }

  lemma HandledHeard(s: State, scripts: seq<Script>, kind: Type, a: Arrival, now: uint64, lag: nat)
    requires HeardOk(s.trace, s.table.sessions, lag) && ClockOk(s.trace, now, lag)
    ensures var r := Handle(s, scripts, kind, a.from, a.data, now);
            HeardOk(r.trace, r.table.sessions, lag) && ClockOk(r.trace, now, lag)
  {
    hide Decode;
    match kind {
      case HelloType =>
        match Decode(a.data, HelloType) {
          case Some(Hello(version, username)) => GreetHeard(s, scripts, a.from, version, username, now, lag);
          case _ =>
        }
      case PingType =>
        match Decode(a.data, PingType) {
          case Some(Ping(sentAt)) => ReplyUnheard(s, a.from, Pong(sentAt));
          case _ =>
        }
      case PlayerStateType =>
        match Decode(a.data, PlayerStateType) {
          case Some(PlayerState(tick, position, rotation)) =>
            RelayHeard(s, a.from, tick, position, rotation, now, lag);
          case _ =>
        }
      case _ =>
    }
  }

  lemma IterateHeard(s: State, scripts: seq<Script>, input: Input, lag: nat)
    requires Inv(s, |scripts|) && InTime(input, lag)
    requires HeardOk(s.trace, s.table.sessions, lag) && ClockOk(s.trace, input.now, lag)
    ensures var r := Iterate(s, scripts, input);
            HeardOk(r.trace, r.table.sessions, lag) && ClockOk(r.trace, input.now, lag)
  {
    var s1 := Sweep(s, scripts, input.now);
    var s2 := Dispatch(s1, scripts, TickEvent(input.now));
    SweepHeard(s, scripts, input.now, lag);
    SweepUnheard(s, scripts, input.now);
    TickUnheard(s1, scripts, input.now);
    DrainHeard(s2.(kicks := []), scripts, s2.kicks, lag);
    DrainUnheard(s2.(kicks := []), scripts, s2.kicks);
    BeforeDrainKeeps(s, scripts, input.now);
    DrainKeeps(s2.(kicks := []), scripts, s2.kicks);
    if input.arrival.Some? {
      DatagramHeard(TakeAndDrain(s2, scripts), scripts, input.arrival.value, input.now, lag);
    }
  }

  // The clock of the last iteration.
  function LastClock(inputs: seq<Input>): nat {
    if inputs == [] then 0 else inputs[|inputs| - 1].now
  }

  lemma {:induction false} RunHeard(
    maxPlayers: nat, timeoutMs: uint64, scripts: seq<Script>, inputs: seq<Input>, lag: nat)
    requires Timely(inputs, lag) && IdsLast(After(maxPlayers, timeoutMs, scripts, inputs))
    ensures var s := After(maxPlayers, timeoutMs, scripts, inputs);
            HeardOk(s.trace, s.table.sessions, lag) && ClockOk(s.trace, LastClock(inputs), lag)
  {
    if inputs != [] {
      var init, last := inputs[..|inputs| - 1], inputs[|inputs| - 1];
      var before := After(maxPlayers, timeoutMs, scripts, init);
      IdsLastBefore(maxPlayers, timeoutMs, scripts, inputs);
      RunHeard(maxPlayers, timeoutMs, scripts, init, lag);
      RunKeeps(maxPlayers, timeoutMs, scripts, init);
      assert LastClock(init) <= last.now;
      IterateHeard(before, scripts, last, lag);
    }
  }

  lemma IdsLastBefore(maxPlayers: nat, timeoutMs: uint64, scripts: seq<Script>, inputs: seq<Input>)
    requires inputs != [] && IdsLast(After(maxPlayers, timeoutMs, scripts, inputs))
    ensures IdsLast(After(maxPlayers, timeoutMs, scripts, inputs[..|inputs| - 1]))
  {
    var before := After(maxPlayers, timeoutMs, scripts, inputs[..|inputs| - 1]);
    IterateExtends(before, scripts, inputs[|inputs| - 1]);
    AdmissionsInPrefix(before.trace, After(maxPlayers, timeoutMs, scripts, inputs).trace);
  }

  lemma {:induction false} ArrivalBounds(arrivals: Trace, x: Entry)
    requires x in arrivals && x.Received? && PeekHeader(x.data).Some?
    ensures x.at <= LastArrival(arrivals, x.from)
  {
    if x in arrivals[..|arrivals| - 1] {
      ArrivalBounds(arrivals[..|arrivals| - 1], x);
    }
  }

  // LastArrival is what it says: no valid datagram of that peer came later.
  lemma NothingHeardLater(trace: Trace, i: nat)
    requires i < |trace| && trace[i].Received? && PeekHeader(trace[i].data).Some?
    ensures trace[i].at <= LastArrival(Arrivals(trace), trace[i].from)
  {
    ArrivalsListed(trace, trace[i]);
    ArrivalBounds(Arrivals(trace), trace[i]);
  }

  // A peer dropped by the sweep has not been heard for at least the timeout less the lag: every
  // valid datagram the loop has taken from its endpoint arrived that long before the sweep's clock.
  lemma OnlyTheSilentAreDropped(
    maxPlayers: nat, timeoutMs: uint64, scripts: seq<Script>, inputs: seq<Input>, lag: nat,
    now: uint64, x: Session, i: nat)
    requires Timely(inputs, lag) && IdsLast(After(maxPlayers, timeoutMs, scripts, inputs))
    requires x in After(maxPlayers, timeoutMs, scripts, inputs).table.sessions
    requires x !in Sweep(After(maxPlayers, timeoutMs, scripts, inputs), scripts, now).table.sessions
    ensures var s := After(maxPlayers, timeoutMs, scripts, inputs);
            i < |s.trace| && s.trace[i].Received? && s.trace[i].from == x.endpoint
            && PeekHeader(s.trace[i].data).Some? ==>
              s.trace[i].at + s.table.timeoutMs <= now + lag
  {
    var s := After(maxPlayers, timeoutMs, scripts, inputs);
    RunKeeps(maxPlayers, timeoutMs, scripts, inputs);
    RunHeard(maxPlayers, timeoutMs, scripts, inputs, lag);
    SweepRemovesExactly(s, scripts, now);
    ExpiredExactly(x, now, s.table.timeoutMs);
    if i < |s.trace| && s.trace[i].Received? && s.trace[i].from == x.endpoint && PeekHeader(s.trace[i].data).Some? {
      NothingHeardLater(s.trace, i);
    }
  }
}
