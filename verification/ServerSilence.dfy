/** Who is dropped for being silent: a session counts as heard at the clock of the last iteration that took
    a valid datagram from its endpoint, so the sweep drops exactly those not heard for the timeout. */
module ServerSilence {
  import opened Numbers
  import opened Protocol
  import opened Sessions
  import opened Traces
  import opened Server
  import opened ServerInvariant
  import opened ServerRuns
  import opened ServerTheorems
  import opened ServerKicks
  import opened ServerTimeouts
  import opened ServerDuties

  function HeardStep(at: uint64, input: Input, e: Endpoint): uint64 {
    if input.arrival.Some? && input.arrival.value.from == e && PeekHeader(input.arrival.value.data).Some? then input.now
    else at
  }

  // The clock of the last iteration that took a datagram with a valid header from e.
  function HeardAt(inputs: seq<Input>, e: Endpoint): uint64 {
    if inputs == [] then 0 else HeardStep(HeardAt(inputs[..|inputs| - 1], e), inputs[|inputs| - 1], e)
  }

  // Every session says when its endpoint was last heard.
  predicate SeenWhenHeard(ss: seq<Session>, inputs: seq<Input>) {
    forall k :: 0 <= k < |ss| ==> ss[k].lastSeenMs == HeardAt(inputs, ss[k].endpoint)
  }

  // Each of these sessions was heard now, if it is at that endpoint, and otherwise when one of the others
  // at its endpoint was.
  predicate HeardFrom(ss: seq<Session>, rr: seq<Session>, from: Endpoint, now: uint64) {
    forall k :: 0 <= k < |rr| ==>
      if rr[k].endpoint == from then rr[k].lastSeenMs == now else k < |ss| && SameHeard(ss[k], rr[k])
  }

  predicate SameHeard(s: Session, s': Session) {
    s'.endpoint == s.endpoint && s'.lastSeenMs == s.lastSeenMs
  }

  lemma TouchHears(t: Table, from: Endpoint, now: uint64)
    requires EndpointsDiffer(t.sessions)
    ensures HeardFrom(t.sessions, Touch(t, from, now).sessions, from, now)
  {
    var i := EndpointIndex(t.sessions, from);
    assert forall k :: 0 <= k < |t.sessions| && k != i ==> t.sessions[k].endpoint != from;
  }

  lemma JoinHears(ss: seq<Session>, t: Table, from: Endpoint, username: Bytes, version: uint32, now: uint64)
    requires HeardFrom(ss, t.sessions, from, now)
    ensures HeardFrom(ss, Join(t, from, username, version, now).0.sessions, from, now)
  {
    hide JoinOutcome, PeerIsIn, NameIsFree, NameIsAllowed, Join;
    var rr := Join(t, from, username, version, now).0.sessions;
    JoinLeaves(t, from, username, version, now);
    forall k | 0 <= k < |rr|
      ensures if rr[k].endpoint == from then rr[k].lastSeenMs == now else k < |ss| && SameHeard(ss[k], rr[k])
    {
      if Join(t, from, username, version, now).1 == Accepted && k < |t.sessions| {
        assert rr[k] == rr[..|t.sessions|][k];
      }
    }
  }

  lemma ApplyHears(ss: seq<Session>, t: Table, from: Endpoint, tick: uint64, position: Vec3, rotation: Float32,
                   now: uint64)
    requires HeardFrom(ss, t.sessions, from, now)
    ensures HeardFrom(ss, ApplyState(t, from, tick, position, rotation).0.sessions, from, now)
  {
    hide EndpointIndex;
    var rr := ApplyState(t, from, tick, position, rotation).0.sessions;
    forall k | 0 <= k < |rr|
      ensures if rr[k].endpoint == from then rr[k].lastSeenMs == now else k < |ss| && SameHeard(ss[k], rr[k])
    {
      assert SameHeard(t.sessions[k], rr[k]);
    }
  }

  lemma HandleHears(
    ss: seq<Session>, s: State, scripts: seq<Script>, kind: Type, from: Endpoint, data: Bytes, now: uint64)
    requires HeardFrom(ss, s.table.sessions, from, now)
    ensures HeardFrom(ss, Handle(s, scripts, kind, from, data, now).table.sessions, from, now)
  {
    hide Decode, HeardFrom, Greet, Relay, Join, ApplyState;
    match kind {
      case HelloType =>
        match Decode(data, HelloType) {
          case Some(Hello(version, username)) =>
            GreetTable(s, scripts, from, version, username, now);
            JoinHears(ss, s.table, from, username, version, now);
          case _ =>
        }
      case PlayerStateType =>
        match Decode(data, PlayerStateType) {
          case Some(PlayerState(tick, position, rotation)) =>
            RelayTable(s, from, tick, position, rotation);
            ApplyHears(ss, s.table, from, tick, position, rotation, now);
          case _ =>
        }
      case _ =>
    }
  }

  lemma DatagramHears(s: State, scripts: seq<Script>, a: Arrival, now: uint64)
    requires EndpointsDiffer(s.table.sessions)
    ensures var rr := HandleDatagram(s, scripts, a, now).table.sessions;
            if PeekHeader(a.data).Some? then HeardFrom(s.table.sessions, rr, a.from, now) else rr == s.table.sessions
  {
    hide PeekHeader, Handle, HeardFrom, Touch;
    if PeekHeader(a.data).Some? {
      var t := Touch(s.table, a.from, now);
      TouchHears(s.table, a.from, now);
      HandleHears(s.table.sessions, Append(s, [Received(a.from, a.data, a.at)]).(table := t), scripts,
                  PeekHeader(a.data).value.kind, a.from, a.data, now);
    }
  }

  lemma FewerSeen(ss: seq<Session>, rr: seq<Session>, inputs: seq<Input>)
    requires SeenWhenHeard(ss, inputs) && forall x :: x in rr ==> x in ss
    ensures SeenWhenHeard(rr, inputs)
  {
    hide HeardAt;
    forall k | 0 <= k < |rr|
      ensures rr[k].lastSeenMs == HeardAt(inputs, rr[k].endpoint)
    {
      assert rr[k] in ss;
    }
  }

  lemma SeenStep(ss: seq<Session>, rr: seq<Session>, inputs: seq<Input>, input: Input)
    requires SeenWhenHeard(ss, inputs)
    requires if input.arrival.Some? && PeekHeader(input.arrival.value.data).Some?
             then HeardFrom(ss, rr, input.arrival.value.from, input.now) else rr == ss
    ensures SeenWhenHeard(rr, inputs + [input])
  {
    hide PeekHeader;
    assert (inputs + [input])[..|inputs|] == inputs;
  }

  lemma SurvivorsOnly(s: State, scripts: seq<Script>, now: uint64)
    requires Inv(s, |scripts|)
    ensures forall x :: x in AtDatagram(s, scripts, now).table.sessions ==> x in s.table.sessions
    ensures EndpointsDiffer(AtDatagram(s, scripts, now).table.sessions)
  {
    hide Sweep, Drain, Agree, Expired, InBatch, EndpointsDiffer;
    var s2 := BeforeDrain(s, scripts, now);
    SweepRemovesExactly(s, scripts, now);
    BeforeDrainKeeps(s, scripts, now);
    InvPositive(s2, |scripts|);
    DrainRemovesExactly(s2.(kicks := []), scripts, s2.kicks);
    DrainKeeps(s2.(kicks := []), scripts, s2.kicks);
    InvPositive(AtDatagram(s, scripts, now), |scripts|);
  }

  lemma IterateSeen(s: State, scripts: seq<Script>, inputs: seq<Input>, input: Input)
    requires Inv(s, |scripts|) && SeenWhenHeard(s.table.sessions, inputs)
    ensures SeenWhenHeard(Iterate(s, scripts, input).table.sessions, inputs + [input])
  {
    hide SeenWhenHeard, HandleDatagram, AtDatagram, Iterate, Agree, HeardFrom, PeekHeader, EndpointsDiffer, Inv;
    var s' := AtDatagram(s, scripts, input.now);
    SurvivorsOnly(s, scripts, input.now);
    FewerSeen(s.table.sessions, s'.table.sessions, inputs);
    IterateAtDatagram(s, scripts, input);
    if input.arrival.Some? {
      DatagramHears(s', scripts, input.arrival.value, input.now);
    }
    SeenStep(s'.table.sessions, Iterate(s, scripts, input).table.sessions, inputs, input);
  }

  // In any run every session was last seen when its endpoint was last heard.
  lemma {:induction false} LastSeenIsLastHeard(
    maxPlayers: nat, timeoutMs: uint64, scripts: seq<Script>, inputs: seq<Input>)
    requires IdsLast(After(maxPlayers, timeoutMs, scripts, inputs))
    ensures SeenWhenHeard(After(maxPlayers, timeoutMs, scripts, inputs).table.sessions, inputs)
  {
    hide SeenWhenHeard, Iterate, Inv;
    if inputs != [] {
      var init, last := inputs[..|inputs| - 1], inputs[|inputs| - 1];
      IdsLastBefore(maxPlayers, timeoutMs, scripts, inputs);
      LastSeenIsLastHeard(maxPlayers, timeoutMs, scripts, init);
      RunKeeps(maxPlayers, timeoutMs, scripts, init);
      IterateSeen(After(maxPlayers, timeoutMs, scripts, init), scripts, init, last);
      assert inputs == init + [last];
    } else {
      NobodySeen(inputs);
    }
  }

  lemma NobodySeen(inputs: seq<Input>)
    ensures SeenWhenHeard([], inputs)
  {
  }

  lemma RunKeepsTimeout(maxPlayers: nat, timeoutMs: uint64, scripts: seq<Script>, inputs: seq<Input>)
    ensures After(maxPlayers, timeoutMs, scripts, inputs).table.timeoutMs == timeoutMs
    ensures After(maxPlayers, timeoutMs, scripts, inputs).table.maxPlayers == maxPlayers
  {
    hide Iterate;
    RunLimits(maxPlayers, timeoutMs, scripts, inputs);
  }

  // The limits of the table never change.
  predicate SameLimits(t: Table, t': Table) {
    t'.timeoutMs == t.timeoutMs && t'.maxPlayers == t.maxPlayers
  }

  lemma {:induction false} SweepLimits(s: State, scripts: seq<Script>, now: uint64)
    ensures SameLimits(s.table, Sweep(s, scripts, now).table)
    decreases |s.table.sessions|
  {
    hide Expired;
    var (t, dropped) := TakeNextTimedOut(s.table, now);
    if dropped.Some? {
      SweepLimits(Announce(s.(table := t), scripts, dropped.value.id), scripts, now);
    }
  }

  lemma {:induction false} DrainLimits(s: State, scripts: seq<Script>, batch: seq<PendingKick>)
    ensures SameLimits(s.table, Drain(s, scripts, batch).table)
  {
    if batch != [] {
      DrainLimits(s, scripts, batch[..|batch| - 1]);
    }
  }

  lemma HandleLimits(s: State, scripts: seq<Script>, kind: Type, from: Endpoint, data: Bytes, now: uint64)
    ensures SameLimits(s.table, Handle(s, scripts, kind, from, data, now).table)
  {
    hide Decode, Greet, Relay, JoinOutcome;
    match Decode(data, HelloType) {
      case Some(Hello(version, username)) => GreetTable(s, scripts, from, version, username, now);
      case _ =>
    }
    match Decode(data, PlayerStateType) {
      case Some(PlayerState(tick, position, rotation)) => RelayTable(s, from, tick, position, rotation);
      case _ =>
    }
  }

  lemma {:induction false} RunLimits(maxPlayers: nat, timeoutMs: uint64, scripts: seq<Script>, inputs: seq<Input>)
    ensures SameLimits(EmptyTable(maxPlayers, timeoutMs), After(maxPlayers, timeoutMs, scripts, inputs).table)
  {
    if inputs != [] {
      hide Sweep, Drain, Handle, PeekHeader;
      var init, last := inputs[..|inputs| - 1], inputs[|inputs| - 1];
      var before := After(maxPlayers, timeoutMs, scripts, init);
      var s2 := BeforeDrain(before, scripts, last.now);
      RunLimits(maxPlayers, timeoutMs, scripts, init);
      SweepLimits(before, scripts, last.now);
      DrainLimits(s2.(kicks := []), scripts, s2.kicks);
      IterateAtDatagram(before, scripts, last);
      if last.arrival.Some? && PeekHeader(last.arrival.value.data).Some? {
        var s, a := AtDatagram(before, scripts, last.now), last.arrival.value;
        HandleLimits(Append(s, [Received(a.from, a.data, a.at)]).(table := Touch(s.table, a.from, last.now)), scripts,
                     PeekHeader(a.data).value.kind, a.from, a.data, last.now);
      }
    }
  }

  // A live session is dropped by the next sweep exactly when the clock stands at least the timeout past
  // the last iteration that took a valid datagram from its endpoint.
  lemma DroppedExactlyWhenSilent(
    maxPlayers: nat, timeoutMs: uint64, scripts: seq<Script>, inputs: seq<Input>, now: uint64, x: Session)
    requires IdsLast(After(maxPlayers, timeoutMs, scripts, inputs))
    requires x in After(maxPlayers, timeoutMs, scripts, inputs).table.sessions
    ensures var s, heard := After(maxPlayers, timeoutMs, scripts, inputs), HeardAt(inputs, x.endpoint);
            x !in Sweep(s, scripts, now).table.sessions <==> now > heard && now >= heard + timeoutMs
  {
    hide After, Sweep, HeardAt, Agree, Expired, IdsIncrease, Inv;
    var s := After(maxPlayers, timeoutMs, scripts, inputs);
    RunIsAfter(maxPlayers, timeoutMs, scripts, inputs);
    RunKeeps(maxPlayers, timeoutMs, scripts, inputs);
    InvPositive(s, |scripts|);
    RunKeepsTimeout(maxPlayers, timeoutMs, scripts, inputs);
    LastSeenIsLastHeard(maxPlayers, timeoutMs, scripts, inputs);
    SweepRemovesExactly(s, scripts, now);
    ExpiredExactly(x, now, timeoutMs);
    var k :| 0 <= k < |s.table.sessions| && s.table.sessions[k] == x;
  }

  lemma RunIsAfter(maxPlayers: nat, timeoutMs: uint64, scripts: seq<Script>, inputs: seq<Input>)
    ensures Run(Start(maxPlayers, timeoutMs), scripts, inputs) == After(maxPlayers, timeoutMs, scripts, inputs)
  {
  }
}
