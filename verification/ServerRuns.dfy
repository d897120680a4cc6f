/** Joining and relaying keep the server's invariant, hence every run does. */
module ServerRuns {
  import opened Numbers
  import opened Protocol
  import opened Sessions
  import opened Traces
  import opened TraceRules
  import opened Server
  import opened ServerInvariant

  // ---------------------------------------------------------------- a snapshot is relayed

  // Session i with this snapshot stored.
  function Stored(t: Table, i: nat, tick: uint64, position: Vec3, rotation: Float32): Table
    requires i < |t.sessions|
  {
    var p := t.sessions[i].(hasState := true, stateTick := tick, position := position, rotation := rotation);
    t.(sessions := t.sessions[i := p])
  }

  lemma RelayEntryOk(trace: Trace, ss: seq<Session>, i: nat, k: nat, m: Message)
    requires i < |ss| && k < |ss| && ss[k].id != ss[i].id && EndpointsDiffer(ss)
    requires OwnersAgree(trace, ss) && RostersAgree(trace, ss) && StatesAgree(trace, ss)
    requires m.NotifyPlayerState? && m.playerId == ss[i].id && Newer(ss[i], m.tick)
    requires Reported(trace, ss[i].endpoint, m.tick, m.position, m.rotation)
    ensures EntryOk(trace, Sent(ss[k].endpoint, m))
  {
    hide Decode;
    RelayOnRoster(trace, ss, i, k);
    RelayNotOlder(trace, ss, i, m);
    RelayOwner(trace, ss, i);
    RelayFits(trace, ss[i], ss[k].endpoint, m);
  }

  lemma RelayOwner(trace: Trace, ss: seq<Session>, i: nat)
    requires i < |ss| && OwnersAgree(trace, ss)
    ensures ss[i].id in Owners(trace) && Owners(trace)[ss[i].id].endpoint == ss[i].endpoint
  {
    assert Owners(trace)[ss[i].id] == Identity(ss[i].endpoint, ss[i].username);
  }

  lemma RelayNotOlder(trace: Trace, ss: seq<Session>, i: nat, m: Message)
    requires i < |ss| && StatesAgree(trace, ss)
    requires m.NotifyPlayerState? && m.playerId == ss[i].id && Newer(ss[i], m.tick)
    ensures NotOlder(Latest(trace, m.playerId), m)
  {
  }

  lemma RelayFits(trace: Trace, s: Session, to: Endpoint, m: Message)
    requires m.NotifyPlayerState? && m.playerId == s.id && s.endpoint != to
    requires s.id in Owners(trace) && Owners(trace)[s.id].endpoint == s.endpoint
    requires s.id in Roster(trace, to) && NotOlder(Latest(trace, m.playerId), m)
    requires Reported(trace, s.endpoint, m.tick, m.position, m.rotation)
    ensures EntryOk(trace, Sent(to, m))
  {
    hide Decode;
  }

  lemma RelayOnRoster(trace: Trace, ss: seq<Session>, i: nat, k: nat)
    requires i < |ss| && k < |ss| && ss[k].id != ss[i].id && RostersAgree(trace, ss)
    ensures ss[i].id in Roster(trace, ss[k].endpoint)
  {
    assert Live(ss, ss[i].id);
    NamesKeys(ss, ss[i].id);
    assert Roster(trace, ss[k].endpoint) == Names(ss) - {ss[k].id};
  }

  // The same sessions in the same order, as far as sending to them is concerned.
  lemma StoredPeers(t: Table, i: nat, m: Message)
    requires i < |t.sessions| && m.NotifyPlayerState?
    ensures SamePeers(t.sessions, Stored(t, i, m.tick, m.position, m.rotation).sessions)
  {
  }

  lemma RelaySent(trace: Trace, ss: seq<Session>, rr: seq<Session>, i: nat, m: Message)
    requires i < |ss| && SamePeers(ss, rr) && IdsIncrease(ss) && EndpointsDiffer(ss) && TraceOk(trace)
    requires OwnersAgree(trace, ss) && RostersAgree(trace, ss) && StatesAgree(trace, ss)
    requires m.NotifyPlayerState? && m.playerId == ss[i].id && Newer(ss[i], m.tick)
    requires Reported(trace, ss[i].endpoint, m.tick, m.position, m.rotation)
    ensures TraceOk(trace + Fan(rr, m, m.playerId))
  {
    hide Decode;
    forall k | 0 <= k < |rr| && rr[k].id != m.playerId
      ensures EntryOk(trace, Sent(rr[k].endpoint, m))
    {
      RelayEntryOk(trace, ss, i, k, m);
    }
    FanOk(trace, rr, m, m.playerId);
  }

  lemma RelayRosters(trace: Trace, ss: seq<Session>, rr: seq<Session>, m: Message, except: uint32)
    requires RostersAgree(trace, ss) && SamePeers(ss, rr) && m.NotifyPlayerState?
    ensures RostersAgree(trace + Fan(rr, m, except), rr)
  {
    NamesSame(ss, rr);
    forall k | 0 <= k < |rr|
      ensures Roster(trace + Fan(rr, m, except), rr[k].endpoint) == Names(rr) - {rr[k].id}
    {
      FanRoster(trace, rr, m, except, rr[k].endpoint);
      assert Roster(trace, ss[k].endpoint) == Names(ss) - {ss[k].id};
    }
  }

  lemma RelayStates(trace: Trace, t: Table, i: nat, m: Message, accepted: nat)
    requires TableOk(t, accepted) && i < |t.sessions| && StatesAgree(trace, t.sessions)
    requires m.NotifyPlayerState? && m.playerId == t.sessions[i].id && m.playerId in Owners(trace)
    requires Newer(t.sessions[i], m.tick)
    ensures var rr := Stored(t, i, m.tick, m.position, m.rotation).sessions;
            StatesAgree(trace + Fan(rr, m, m.playerId), rr)
  {
    var rr := Stored(t, i, m.tick, m.position, m.rotation).sessions;
    var after := trace + Fan(rr, m, m.playerId);
    FanQuiet(trace, rr, m, m.playerId);
    forall id: uint32 | Latest(after, id).Some?
      ensures id in Owners(after)
    {
      FanLatest(trace, rr, m, m.playerId, id);
    }
    forall k | 0 <= k < |rr| && Latest(after, rr[k].id).Some?
      ensures rr[k].hasState && Latest(after, rr[k].id).value.tick <= rr[k].stateTick
    {
      FanLatest(trace, rr, m, m.playerId, rr[k].id);
      assert rr[k].id == t.sessions[k].id;
    }
  }

  lemma RelayCalls(trace: Trace, ss: seq<Session>, rr: seq<Session>, backends: nat, m: Message, except: uint32)
    requires OwnersAgree(trace, ss) && CallsAgree(trace, ss, backends) && SamePeers(ss, rr)
    ensures var t := trace + Fan(rr, m, except);
            OwnersAgree(t, rr) && CallsAgree(t, rr, backends) && Admissions(t) == Admissions(trace)
  {
    forall b: nat, id: uint32 | b < backends
      ensures Calls(trace, b, id) == LifeOf(trace, rr, id)
    {
      LiveSame(ss, rr, id);
      assert Calls(trace, b, id) == LifeOf(trace, ss, id);
    }
    FanQuiet(trace, rr, m, except);
    FanKeepsCalls(trace, rr, backends, rr, m, except);
  }

  lemma RelayAgrees(trace: Trace, t: Table, i: nat, m: Message, backends: nat)
    requires TableOk(t, Admissions(trace)) && Agree(trace, t.sessions, backends) && i < |t.sessions|
    requires m.NotifyPlayerState? && m.playerId == t.sessions[i].id && Newer(t.sessions[i], m.tick)
    requires Reported(trace, t.sessions[i].endpoint, m.tick, m.position, m.rotation)
    ensures var rr := Stored(t, i, m.tick, m.position, m.rotation).sessions;
            var after := trace + Fan(rr, m, m.playerId);
            Agree(after, rr, backends) && Admissions(after) == Admissions(trace)
  {
    hide Decode;
    var rr := Stored(t, i, m.tick, m.position, m.rotation).sessions;
    StoredPeers(t, i, m);
    RelaySent(trace, t.sessions, rr, i, m);
    RelayRosters(trace, t.sessions, rr, m, m.playerId);
    RelayStates(trace, t, i, m, Admissions(trace));
    RelayCalls(trace, t.sessions, rr, backends, m, m.playerId);
  }

  lemma StoredKeepsTable(t: Table, i: nat, m: Message, accepted: nat)
    requires TableOk(t, accepted) && i < |t.sessions| && m.NotifyPlayerState?
    ensures TableOk(Stored(t, i, m.tick, m.position, m.rotation), accepted)
  {
    StoredPeers(t, i, m);
    SamePeersKeepTable(t, Stored(t, i, m.tick, m.position, m.rotation), accepted);
  }

  lemma RelayKeeps(s: State, backends: nat, i: nat, m: Message)
    requires Inv(s, backends) && i < |s.table.sessions|
    requires m.NotifyPlayerState? && m.playerId == s.table.sessions[i].id
    requires Newer(s.table.sessions[i], m.tick)
    requires Reported(s.trace, s.table.sessions[i].endpoint, m.tick, m.position, m.rotation)
    ensures Inv(Broadcast(s.(table := Stored(s.table, i, m.tick, m.position, m.rotation)), m, m.playerId), backends)
  {
    hide Decode;
    ShortTextFits(m);
    StoredKeepsTable(s.table, i, m, Admissions(s.trace));
    RelayAgrees(s.trace, s.table, i, m, backends);
    var t := Stored(s.table, i, m.tick, m.position, m.rotation);
    assert Broadcast(s.(table := t), m, m.playerId)
        == s.(table := t, trace := s.trace + Fan(t.sessions, m, m.playerId));
  }

  // ---------------------------------------------------------------- a player joins

  // The trace once a newcomer has been admitted and answered.
  function Answered(trace: Trace, s: Session): Trace {
    trace + [Admitted(s.id, s.endpoint, s.username)] + [Sent(s.endpoint, Ack(Accepted))]
  }

  lemma AnsweredFacts(trace: Trace, s: Session)
    requires TraceOk(trace) && s.id !in Owners(trace)
    ensures var t := Answered(trace, s);
            && TraceOk(t)
            && Admissions(t) == Admissions(trace) + 1
            && Owners(t) == Owners(trace)[s.id := Identity(s.endpoint, s.username)]
            && Roster(t, s.endpoint) == map[]
            && (forall e :: e != s.endpoint ==> Roster(t, e) == Roster(trace, e))
            && (forall b, id :: Calls(t, b, id) == Calls(trace, b, id))
            && (forall id :: Latest(t, id) == Latest(trace, id))
  {
    var x, y := Admitted(s.id, s.endpoint, s.username), Sent(s.endpoint, Ack(Accepted));
    Snoc(trace, x);
    Snoc(trace + [x], y);
    TraceOkSnoc(trace, x);
    ShortTextFits(Ack(Accepted));
    TraceOkSnoc(trace + [x], y);
  }

  lemma LastExcepted(ss: seq<Session>, s: Session, to: Endpoint, m: Message)
    ensures Introductions(ss + [s], to, s.id) == Introductions(ss, to, s.id)
    ensures Fan(ss + [s], m, s.id) == Fan(ss, m, s.id)
  {
    assert (ss + [s])[..|ss|] == ss;
  }

  // The state after the newcomer s has been admitted, answered and introduced to everyone.
  function Introduced(trace: Trace, ss: seq<Session>, s: Session): Trace {
    Answered(trace, s) + Introductions(ss, s.endpoint, s.id) + Fan(ss, NotifyPlayerJoined(s.id, s.username), s.id)
  }

  // s is new here: no session has its id, its endpoint or its name, and its id is the next one.
  predicate Newcomer(trace: Trace, ss: seq<Session>, s: Session) {
    && s.id == Admissions(trace) + 1
    && |s.username| <= MAX_STRING_SIZE
    && (forall k :: 0 <= k < |ss| ==> ss[k].id < s.id && ss[k].endpoint != s.endpoint
                                      && |ss[k].username| <= MAX_STRING_SIZE)
  }

  lemma IntroductionsOk(trace: Trace, ss: seq<Session>, s: Session)
    requires TraceOk(trace) && OwnersAgree(trace, ss) && Newcomer(trace, ss, s)
    ensures TraceOk(Answered(trace, s) + Introductions(ss, s.endpoint, s.id))
  {
    var t2 := Answered(trace, s);
    AnsweredFacts(trace, s);
    forall k | 0 <= k < |ss|
      ensures AboutOk(t2, s.endpoint, NotifyPlayerJoined(ss[k].id, ss[k].username))
    {
      assert Owners(trace)[ss[k].id] == Identity(ss[k].endpoint, ss[k].username);
    }
    IntroOk(t2, ss, s.endpoint, s.id);
  }

  lemma NewsOk(t: Trace, ss: seq<Session>, s: Session)
    requires TraceOk(t) && s.id in Owners(t) && Owners(t)[s.id] == Identity(s.endpoint, s.username)
    requires forall k :: 0 <= k < |ss| ==> ss[k].endpoint != s.endpoint
    requires |s.username| <= MAX_STRING_SIZE
    ensures TraceOk(t + Fan(ss, NotifyPlayerJoined(s.id, s.username), s.id))
  {
    ShortTextFits(NotifyPlayerJoined(s.id, s.username));
    FanOk(t, ss, NotifyPlayerJoined(s.id, s.username), s.id);
  }

  lemma IntroducedOk(trace: Trace, ss: seq<Session>, s: Session)
    requires TraceOk(trace) && OwnersAgree(trace, ss) && Newcomer(trace, ss, s)
    ensures TraceOk(Introduced(trace, ss, s))
    ensures Owners(Introduced(trace, ss, s)) == Owners(trace)[s.id := Identity(s.endpoint, s.username)]
    ensures Admissions(Introduced(trace, ss, s)) == Admissions(trace) + 1
  {
    var t2 := Answered(trace, s);
    var t3 := t2 + Introductions(ss, s.endpoint, s.id);
    AnsweredFacts(trace, s);
    IntroductionsOk(trace, ss, s);
    IntroQuiet(t2, ss, s.endpoint, s.id);
    NewsOk(t3, ss, s);
    FanQuiet(t3, ss, NotifyPlayerJoined(s.id, s.username), s.id);
  }

  // Owners after one more admission.
  lemma OwnersSnoc(trace: Trace, t: Trace, ss: seq<Session>, s: Session)
    requires OwnersAgree(trace, ss) && s.id == Admissions(trace) + 1 && Admissions(t) == Admissions(trace) + 1
    requires Owners(t) == Owners(trace)[s.id := Identity(s.endpoint, s.username)]
    requires forall k :: 0 <= k < |ss| ==> ss[k].id < s.id
    ensures OwnersAgree(t, ss + [s])
  {
  }

  // What everyone's roster is after the introductions.
  lemma IntroducedRoster(trace: Trace, ss: seq<Session>, s: Session, e: Endpoint)
    requires TraceOk(trace) && OwnersAgree(trace, ss) && Newcomer(trace, ss, s)
    ensures Roster(Introduced(trace, ss, s), e)
            == if e == s.endpoint then Names(ss)
               else if Reached(ss, e, s.id) then Roster(trace, e)[s.id := s.username]
               else Roster(trace, e)
  {
    var t2 := Answered(trace, s);
    AnsweredFacts(trace, s);
    IntroQuiet(t2, ss, s.endpoint, s.id);
    if e == s.endpoint {
      IntroRoster(t2, ss, s.endpoint, s.id);
    }
    FanRoster(t2 + Introductions(ss, s.endpoint, s.id), ss, NotifyPlayerJoined(s.id, s.username), s.id, e);
  }

  // An old peer's roster gains the newcomer.
  lemma OldPeerLearns(trace: Trace, ss: seq<Session>, s: Session, k: nat)
    requires TraceOk(trace) && OwnersAgree(trace, ss) && RostersAgree(trace, ss) && Newcomer(trace, ss, s)
    requires k < |ss|
    ensures Roster(Introduced(trace, ss, s), ss[k].endpoint) == Names(ss + [s]) - {ss[k].id}
  {
    NamesSnoc(ss, s);
    IntroducedRoster(trace, ss, s, ss[k].endpoint);
    assert Reached(ss, ss[k].endpoint, s.id);
    RemoveThenAdd(Names(ss), ss[k].id, s.id, s.username);
  }

  lemma NewcomerLearns(trace: Trace, ss: seq<Session>, s: Session)
    requires TraceOk(trace) && OwnersAgree(trace, ss) && Newcomer(trace, ss, s)
    ensures Roster(Introduced(trace, ss, s), s.endpoint) == Names(ss + [s]) - {s.id}
  {
    NamesSnoc(ss, s);
    IntroducedRoster(trace, ss, s, s.endpoint);
    NamesKeys(ss, s.id);
  }

  lemma IntroducedRosters(trace: Trace, ss: seq<Session>, s: Session)
    requires TraceOk(trace) && OwnersAgree(trace, ss) && RostersAgree(trace, ss) && Newcomer(trace, ss, s)
    ensures RostersAgree(Introduced(trace, ss, s), ss + [s])
  {
    NewcomerLearns(trace, ss, s);
    forall k | 0 <= k < |ss|
      ensures Roster(Introduced(trace, ss, s), ss[k].endpoint) == Names(ss + [s]) - {ss[k].id}
    {
      OldPeerLearns(trace, ss, s, k);
    }
  }

  lemma IntroducedRest(trace: Trace, ss: seq<Session>, s: Session)
    requires TraceOk(trace) && s.id !in Owners(trace)
    ensures forall b, id :: Calls(Introduced(trace, ss, s), b, id) == Calls(trace, b, id)
    ensures forall id :: Latest(Introduced(trace, ss, s), id) == Latest(trace, id)
  {
    var t2 := Answered(trace, s);
    var t3 := t2 + Introductions(ss, s.endpoint, s.id);
    var m := NotifyPlayerJoined(s.id, s.username);
    AnsweredFacts(trace, s);
    IntroQuiet(t2, ss, s.endpoint, s.id);
    FanQuiet(t3, ss, m, s.id);
    forall id: uint32
      ensures Latest(Introduced(trace, ss, s), id) == Latest(trace, id)
    {
      FanLatest(t3, ss, m, s.id, id);
    }
  }

  lemma JoinLife(trace: Trace, t: Trace, ss: seq<Session>, s: Session, id: uint32)
    requires s.id !in Owners(trace)
    requires Owners(t) == Owners(trace)[s.id := Identity(s.endpoint, s.username)]
    ensures LifeOf(t, ss + [s], id) == if id == s.id then [JoinEvent(id)] else LifeOf(trace, ss, id)
  {
    assert (ss + [s])[..|ss|] == ss;
    LiveSnoc(ss + [s], id);
  }

  lemma JoinCalls(trace: Trace, t: Trace, ss: seq<Session>, s: Session, backends: nat, call: nat)
    requires CallsAgree(trace, ss, backends) && s.id !in Owners(trace)
    requires forall b, id :: Calls(t, b, id) == Calls(trace, b, id)
    requires Owners(t) == Owners(trace)[s.id := Identity(s.endpoint, s.username)]
    ensures CallsAgree(t + CallEntries(backends, call, JoinEvent(s.id), ss + [s]), ss + [s], backends)
  {
    var rr, event := ss + [s], JoinEvent(s.id);
    var after := t + CallEntries(backends, call, event, rr);
    CallsQuiet(t, backends, call, event, rr);
    forall b: nat, id: uint32 | b < backends
      ensures Calls(after, b, id) == LifeOf(after, rr, id)
    {
      CallsHeard(t, backends, call, event, rr, b, id);
      JoinLife(trace, t, ss, s, id);
      assert Calls(trace, b, id) == LifeOf(trace, ss, id);
    }
  }

  lemma JoinStates(trace: Trace, t: Trace, ss: seq<Session>, s: Session)
    requires StatesAgree(trace, ss) && s.id !in Owners(trace)
    requires forall id :: Latest(t, id) == Latest(trace, id)
    requires Owners(t) == Owners(trace)[s.id := Identity(s.endpoint, s.username)]
    ensures StatesAgree(t, ss + [s])
  {
  }

  // The state after the newcomer's join has gone through.
  function Joined(s: State, scripts: seq<Script>, p: Session): State {
    var rr := s.table.sessions + [p];
    var t := s.table.(nextId := (s.table.nextId + 1) % TWO_32, sessions := rr);
    Dispatch(s.(table := t, trace := Introduced(s.trace, s.table.sessions, p)), scripts, JoinEvent(p.id))
  }

  // Before the scripts hear of the newcomer everything but their callbacks agrees ...
  lemma IntroducedAgrees(trace: Trace, ss: seq<Session>, s: Session)
    requires TraceOk(trace) && OwnersAgree(trace, ss) && RostersAgree(trace, ss) && StatesAgree(trace, ss)
    requires Newcomer(trace, ss, s)
    ensures var t, rr := Introduced(trace, ss, s), ss + [s];
            && TraceOk(t) && OwnersAgree(t, rr) && RostersAgree(t, rr) && StatesAgree(t, rr)
            && Admissions(t) == Admissions(trace) + 1
  {
    var t := Introduced(trace, ss, s);
    IntroducedOk(trace, ss, s);
    OwnersSnoc(trace, t, ss, s);
    IntroducedRosters(trace, ss, s);
    IntroducedRest(trace, ss, s);
    JoinStates(trace, t, ss, s);
  }

  // ... and afterwards their callbacks do.
  lemma IntroducedCalls(trace: Trace, ss: seq<Session>, s: Session, backends: nat, call: nat)
    requires TraceOk(trace) && OwnersAgree(trace, ss) && CallsAgree(trace, ss, backends) && Newcomer(trace, ss, s)
    ensures var t, rr := Introduced(trace, ss, s), ss + [s];
            CallsAgree(t + CallEntries(backends, call, JoinEvent(s.id), rr), rr, backends)
  {
    IntroducedOk(trace, ss, s);
    IntroducedRest(trace, ss, s);
    JoinCalls(trace, Introduced(trace, ss, s), ss, s, backends, call);
  }

  lemma JoinConcerns(ss: seq<Session>, s: Session)
    ensures Concerns(JoinEvent(s.id), ss + [s])
  {
    assert (ss + [s])[|ss|].id == s.id;
  }

  lemma JoinAgrees(trace: Trace, ss: seq<Session>, s: Session, backends: nat, call: nat)
    requires Agree(trace, ss, backends) && Newcomer(trace, ss, s)
    ensures var t := Introduced(trace, ss, s) + CallEntries(backends, call, JoinEvent(s.id), ss + [s]);
            Agree(t, ss + [s], backends) && Admissions(t) == Admissions(trace) + 1
  {
    IntroducedAgrees(trace, ss, s);
    IntroducedCalls(trace, ss, s, backends, call);
    JoinConcerns(ss, s);
    CallsKeepAgree(Introduced(trace, ss, s), ss + [s], backends, call, JoinEvent(s.id));
  }

  lemma JoinedKeeps(s: State, scripts: seq<Script>, p: Session)
    requires Inv(s, |scripts|) && Newcomer(s.trace, s.table.sessions, p)
    requires TableOk(Joined(s, scripts, p).table, Admissions(s.trace) + 1)
    ensures Inv(Joined(s, scripts, p), |scripts|)
    ensures Admissions(Joined(s, scripts, p).trace) == Admissions(s.trace) + 1
  {
    JoinAgrees(s.trace, s.table.sessions, p, |scripts|, s.calls);
  }

  // ---------------------------------------------------------------- datagrams

  lemma IntroduceIsJoined(s: State, scripts: seq<Script>, p: Session, from: Endpoint)
    requires from == p.endpoint && Encodable(NotifyPlayerJoined(p.id, p.username))
    ensures var t := s.table.(nextId := (s.table.nextId + 1) % TWO_32, sessions := s.table.sessions + [p]);
            Introduce(s.(table := t, trace := Answered(s.trace, p)), scripts, p.id, from, p.username)
            == Joined(s, scripts, p)
  {
    LastExcepted(s.table.sessions, p, from, NotifyPlayerJoined(p.id, p.username));
  }

  lemma AcceptedIsJoined(s: State, scripts: seq<Script>, from: Endpoint, version: uint32, username: Bytes, now: uint64)
    requires JoinOutcome(s.table, from, username, version) == Accepted
    ensures Greet(s, scripts, from, version, username, now)
            == Joined(s, scripts, NewSession(s.table.nextId, username, from, now))
  {
    hide Introduce, Joined;
    var p := NewSession(s.table.nextId, username, from, now);
    ShortTextFits(Ack(Accepted));
    ShortTextFits(NotifyPlayerJoined(p.id, p.username));
    IntroduceIsJoined(s, scripts, p, from);
  }

  lemma GreetKeeps(s: State, scripts: seq<Script>, from: Endpoint, version: uint32, username: Bytes, now: uint64)
    requires Inv(s, |scripts|)
    requires Admissions(Greet(s, scripts, from, version, username, now).trace) <= LAST_ID
    ensures Inv(Greet(s, scripts, from, version, username, now), |scripts|)
  {
    if JoinOutcome(s.table, from, username, version) == Accepted {
      AcceptedIsJoined(s, scripts, from, version, username, now);
      AcceptedKeeps(s, scripts, from, username, version, now);
    } else {
      RefusedKeeps(s, |scripts|, from, username, version, now);
    }
  }

  lemma HelloKeeps(s: State, scripts: seq<Script>, from: Endpoint, data: Bytes, now: uint64)
    requires Inv(s, |scripts|)
    requires Admissions(HandleHello(s, scripts, from, data, now).trace) <= LAST_ID
    ensures Inv(HandleHello(s, scripts, from, data, now), |scripts|)
  {
    hide Decode;
    match Decode(data, HelloType) {
      case Some(Hello(version, username)) => GreetKeeps(s, scripts, from, version, username, now);
      case _ =>
    }
  }

  // With an id left to issue, an accepted newcomer is new in every respect.
  lemma AcceptedIsNew(t: Table, trace: Trace, from: Endpoint, username: Bytes, version: uint32, now: uint64)
    requires TableOk(t, Admissions(trace)) && Admissions(trace) < LAST_ID
    requires JoinOutcome(t, from, username, version) == Accepted
    ensures Newcomer(trace, t.sessions, NewSession(t.nextId, username, from, now))
  {
    assert EndpointIndex(t.sessions, from) == |t.sessions|;
  }

  lemma AcceptedKeeps(s: State, scripts: seq<Script>, from: Endpoint, username: Bytes, version: uint32, now: uint64)
    requires Inv(s, |scripts|)
    requires JoinOutcome(s.table, from, username, version) == Accepted
    requires Admissions(Joined(s, scripts, NewSession(s.table.nextId, username, from, now)).trace) <= LAST_ID
    ensures Inv(Joined(s, scripts, NewSession(s.table.nextId, username, from, now)), |scripts|)
  {
    var p := NewSession(s.table.nextId, username, from, now);
    if Admissions(s.trace) < LAST_ID {
      AcceptedIsNew(s.table, s.trace, from, username, version, now);
      JoinKeepsTable(s.table, Admissions(s.trace), from, username, version, now);
      JoinedKeeps(s, scripts, p);
    } else {
      JoinedGrows(s, scripts, p);
    }
  }

  lemma AdmittedGrows(trace: Trace, x: Entry, more: Trace)
    requires x.Admitted?
    ensures Admissions(trace + [x] + more) > Admissions(trace)
  {
    Snoc(trace, x);
    AdmissionsGrow(trace + [x], more);
  }

  lemma JoinedGrows(s: State, scripts: seq<Script>, p: Session)
    ensures Admissions(Joined(s, scripts, p).trace) > Admissions(s.trace)
  {
    var ss, x := s.table.sessions, Admitted(p.id, p.endpoint, p.username);
    var more := [Sent(p.endpoint, Ack(Accepted))] + Introductions(ss, p.endpoint, p.id)
                + Fan(ss, NotifyPlayerJoined(p.id, p.username), p.id)
                + CallEntries(|scripts|, s.calls, JoinEvent(p.id), ss + [p]);
    AdmittedGrows(s.trace, x, more);
    assert Joined(s, scripts, p).trace == s.trace + [x] + more;
  }

  // A hello that is not accepted changes at most when its sender was heard.
  lemma RefusedTable(t: Table, from: Endpoint, username: Bytes, version: uint32, now: uint64)
    requires JoinOutcome(t, from, username, version) != Accepted
    ensures var r := Join(t, from, username, version, now).0;
            r == t.(sessions := r.sessions) && SameStates(t.sessions, r.sessions)
  {
  }

  // A peer is heard and answered with something that is about nobody.
  lemma AnswerKeeps(s: State, t: Table, backends: nat, to: Endpoint, m: Message)
    requires Inv(s, backends) && About(m).None? && ShortText(m)
    requires t == s.table.(sessions := t.sessions) && SameStates(s.table.sessions, t.sessions)
    ensures Inv(Reply(s.(table := t), to, m), backends)
  {
    HeardKeeps(s, t, backends);
    QuietKeeps(s.(table := t), backends, Sent(to, m));
  }

  lemma RefusedKeeps(s: State, backends: nat, from: Endpoint, username: Bytes, version: uint32, now: uint64)
    requires Inv(s, backends) && JoinOutcome(s.table, from, username, version) != Accepted
    ensures var (t, result, id) := Join(s.table, from, username, version, now);
            Inv(Reply(s.(table := t, trace := s.trace + []), from, Ack(result)), backends)
  {
    var (t, result, id) := Join(s.table, from, username, version, now);
    assert s.trace + [] == s.trace;
    RefusedTable(s.table, from, username, version, now);
    AnswerKeeps(s, t, backends, from, Ack(result));
  }

  lemma PingKeeps(s: State, backends: nat, from: Endpoint, data: Bytes)
    requires Inv(s, backends)
    ensures Inv(HandlePing(s, from, data), backends)
  {
    hide Decode;
    var ping := Decode(data, PingType);
    if ping.Some? && ping.value.Ping? {
      ShortTextFits(Pong(ping.value.sentAt));
      QuietKeeps(s, backends, Sent(from, Pong(ping.value.sentAt)));
    }
  }

  lemma RelayStepKeeps(s: State, backends: nat, from: Endpoint, tick: uint64, position: Vec3, rotation: Float32)
    requires Inv(s, backends) && Reported(s.trace, from, tick, position, rotation)
    ensures Inv(Relay(s, from, tick, position, rotation), backends)
  {
    hide Decode;
    var i := EndpointIndex(s.table.sessions, from);
    if i < |s.table.sessions| && Newer(s.table.sessions[i], tick) {
      RelayKeeps(s, backends, i, NotifyPlayerState(s.table.sessions[i].id, tick, position, rotation));
    }
  }

  lemma PlayerStateKeeps(s: State, backends: nat, from: Endpoint, data: Bytes, at: nat)
    requires Inv(s, backends) && s.trace != [] && s.trace[|s.trace| - 1] == Received(from, data, at)
    ensures Inv(HandlePlayerState(s, from, data), backends)
  {
    hide Decode;
    match Decode(data, PlayerStateType) {
      case Some(PlayerState(tick, position, rotation)) =>
        assert IsReport(s.trace[|s.trace| - 1], from, tick, position, rotation);
        RelayStepKeeps(s, backends, from, tick, position, rotation);
      case _ =>
    }
  }

  lemma HandleKeeps(s: State, scripts: seq<Script>, kind: Type, from: Endpoint, data: Bytes, at: nat, now: uint64)
    requires Inv(s, |scripts|) && s.trace != [] && s.trace[|s.trace| - 1] == Received(from, data, at)
    requires Admissions(Handle(s, scripts, kind, from, data, now).trace) <= LAST_ID
    ensures Inv(Handle(s, scripts, kind, from, data, now), |scripts|)
  {
    match kind {
      case HelloType => HelloKeeps(s, scripts, from, data, now);
      case PingType => PingKeeps(s, |scripts|, from, data);
      case PlayerStateType => PlayerStateKeeps(s, |scripts|, from, data, at);
      case _ =>
    }
  }

  lemma TouchKeeps(s: State, from: Endpoint, now: uint64, backends: nat)
    requires Inv(s, backends)
    ensures Inv(s.(table := Touch(s.table, from, now)), backends)
  {
    HeardKeeps(s, Touch(s.table, from, now), backends);
  }

  lemma DatagramKeeps(s: State, scripts: seq<Script>, a: Arrival, now: uint64)
    requires Inv(s, |scripts|)
    requires Admissions(HandleDatagram(s, scripts, a, now).trace) <= LAST_ID
    ensures Inv(HandleDatagram(s, scripts, a, now), |scripts|)
  {
    hide Decode;
    var x := Received(a.from, a.data, a.at);
    var s1 := Append(s, [x]);
    QuietKeeps(s, |scripts|, x);
    if PeekHeader(a.data).Some? {
      var s2 := s1.(table := Touch(s1.table, a.from, now));
      TouchKeeps(s1, a.from, now, |scripts|);
      assert s2.trace[|s2.trace| - 1] == x;
      HandleKeeps(s2, scripts, PeekHeader(a.data).value.kind, a.from, a.data, a.at, now);
    }
  }

  // ---------------------------------------------------------------- iterations and runs

  lemma IterateKeeps(s: State, scripts: seq<Script>, input: Input)
    requires Inv(s, |scripts|)
    requires Admissions(Iterate(s, scripts, input).trace) <= LAST_ID
    ensures Inv(Iterate(s, scripts, input), |scripts|)
  {
    var s1 := Sweep(s, scripts, input.now);
    var s2 := Dispatch(s1, scripts, TickEvent(input.now));
    SweepKeeps(s, scripts, input.now);
    TickKeeps(s1, scripts, input.now);
    DrainKeeps(s2.(kicks := []), scripts, s2.kicks);
    if input.arrival.Some? {
      DatagramKeeps(TakeAndDrain(s2, scripts), scripts, input.arrival.value, input.now);
    }
  }

  lemma {:induction false} SweepExtends(s: State, scripts: seq<Script>, now: uint64)
    ensures s.trace <= Sweep(s, scripts, now).trace
    decreases |s.table.sessions|
  {
    var (t, dropped) := TakeNextTimedOut(s.table, now);
    if dropped.Some? {
      SweepExtends(Announce(s.(table := t), scripts, dropped.value.id), scripts, now);
    }
  }

  lemma {:induction false} DrainExtends(s: State, scripts: seq<Script>, batch: seq<PendingKick>)
    ensures s.trace <= Drain(s, scripts, batch).trace
  {
    if batch != [] {
      DrainExtends(s, scripts, batch[..|batch| - 1]);
    }
  }

  lemma HelloExtends(s: State, scripts: seq<Script>, from: Endpoint, data: Bytes, now: uint64)
    ensures s.trace <= HandleHello(s, scripts, from, data, now).trace
  {
    hide Decode;
  }

  lemma IterateExtends(s: State, scripts: seq<Script>, input: Input)
    ensures s.trace <= Iterate(s, scripts, input).trace
  {
    var s1 := Sweep(s, scripts, input.now);
    var s2 := Dispatch(s1, scripts, TickEvent(input.now));
    SweepExtends(s, scripts, input.now);
    DrainExtends(s2.(kicks := []), scripts, s2.kicks);
    if input.arrival.Some? {
      DatagramExtends(TakeAndDrain(s2, scripts), scripts, input.arrival.value, input.now);
    }
  }

  lemma DatagramExtends(s: State, scripts: seq<Script>, a: Arrival, now: uint64)
    ensures s.trace <= HandleDatagram(s, scripts, a, now).trace
  {
    hide Decode;
    var s1 := Append(s, [Received(a.from, a.data, a.at)]);
    var s2 := s1.(table := Touch(s1.table, a.from, now));
    HelloExtends(s2, scripts, a.from, a.data, now);
  }

  lemma StartHolds(maxPlayers: nat, timeoutMs: uint64, backends: nat)
    ensures Inv(Start(maxPlayers, timeoutMs), backends)
  {
  }

  // Every run of the server, with any scripts and any datagrams, keeps the invariant as long as
  // it has not issued more ids than there are.
  lemma {:induction false} RunKeeps(maxPlayers: nat, timeoutMs: uint64, scripts: seq<Script>, inputs: seq<Input>)
    requires Admissions(Run(Start(maxPlayers, timeoutMs), scripts, inputs).trace) <= LAST_ID
    ensures Inv(Run(Start(maxPlayers, timeoutMs), scripts, inputs), |scripts|)
  {
    if inputs == [] {
      StartHolds(maxPlayers, timeoutMs, |scripts|);
    } else {
      var before := Run(Start(maxPlayers, timeoutMs), scripts, inputs[..|inputs| - 1]);
      var after := Iterate(before, scripts, inputs[|inputs| - 1]);
      IterateExtends(before, scripts, inputs[|inputs| - 1]);
      AdmissionsGrow(before.trace, after.trace[|before.trace|..]);
      assert before.trace + after.trace[|before.trace|..] == after.trace;
      RunKeeps(maxPlayers, timeoutMs, scripts, inputs[..|inputs| - 1]);
      IterateKeeps(before, scripts, inputs[|inputs| - 1]);
    }
  }
}
