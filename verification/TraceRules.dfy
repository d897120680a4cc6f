/** What must hold, at the moment it is recorded, of every entry of a server's trace, and how the
    server's bulk sends and callbacks extend a trace. */
module TraceRules {
  import opened Numbers
  import opened Protocol
  import opened Sessions
  import opened Traces

  // Each of these peers has been told exactly about the others.
  predicate RostersAgree(trace: Trace, ss: seq<Session>) {
    forall k :: 0 <= k < |ss| ==> Roster(trace, ss[k].endpoint) == Names(ss) - {ss[k].id}
  }

  // These sessions belong to the peers their ids were issued to.
  predicate Known(trace: Trace, ss: seq<Session>) {
    forall k :: 0 <= k < |ss| ==>
      && ss[k].id in Owners(trace)
      && Owners(trace)[ss[k].id] == Identity(ss[k].endpoint, ss[k].username)
  }

  // A message about a player is about one that was admitted, by the name it was admitted under,
  // and never goes to the endpoint that player was admitted at.
  predicate AboutOk(before: Trace, to: Endpoint, m: Message) {
    About(m).Some? ==>
      var id := About(m).value;
      && id in Owners(before)
      && Owners(before)[id].endpoint != to
      && (m.NotifyPlayerJoined? ==> Owners(before)[id].username == m.username)
  }

  // A relayed snapshot is about a player on the receiver's roster, carries what that player's own
  // peer reported, and is the last one relayed or newer.
  predicate SnapshotOk(before: Trace, to: Endpoint, m: Message) {
    m.NotifyPlayerState? ==>
      && m.playerId in Roster(before, to)
      && m.playerId in Owners(before)
      && Reported(before, Owners(before)[m.playerId].endpoint, m.tick, m.position, m.rotation)
      && NotOlder(Latest(before, m.playerId), m)
  }

  predicate NotOlder(latest: Option<Message>, m: Message)
    requires latest.Some? ==> latest.value.NotifyPlayerState?
    requires m.NotifyPlayerState?
  {
    latest.None? || latest.value == m || latest.value.tick < m.tick
  }

  // A joining player is already live when scripts hear of it, a leaving one is not any more.
  predicate Concerns(event: Event, live: seq<Session>) {
    match event
    case JoinEvent(id) => Live(live, id)
    case LeaveEvent(id) => !Live(live, id)
    case TickEvent(_) => true
  }

  predicate Live(ss: seq<Session>, id: uint32) {
    exists k :: 0 <= k < |ss| && ss[k].id == id
  }

  predicate EntryOk(before: Trace, x: Entry) {
    match x
    case Received(_, _, _) => true
    case Admitted(id, _, _) => id !in Owners(before)
    case Sent(to, m) => ShortText(m) && AboutOk(before, to, m) && SnapshotOk(before, to, m)
    case Called(_, _, event, live) => RostersAgree(before, live) && Known(before, live) && Concerns(event, live)
  }

  predicate TraceOk(trace: Trace) {
    trace == [] || (TraceOk(trace[..|trace| - 1]) && EntryOk(trace[..|trace| - 1], trace[|trace| - 1]))
  }

  lemma TraceOkSnoc(trace: Trace, x: Entry)
    requires TraceOk(trace) && EntryOk(trace, x)
    ensures TraceOk(trace + [x])
  {
    hide Decode;
    assert (trace + [x])[..|trace|] == trace;
  }

  // So every prefix of a good trace is one, and every entry was fine when it was recorded.
  lemma {:induction false} EntryAt(trace: Trace, i: nat)
    requires TraceOk(trace) && i < |trace|
    ensures EntryOk(trace[..i], trace[i])
  {
    hide Decode;
    var n := |trace| - 1;
    if i < n {
      EntryAt(trace[..n], i);
      assert trace[..n][..i] == trace[..i];
    }
  }

  // ---------------------------------------------------------------- one broadcast

  // Some session but the excepted one is at e.
  predicate Reached(ss: seq<Session>, e: Endpoint, except: uint32) {
    exists k :: 0 <= k < |ss| && ss[k].id != except && ss[k].endpoint == e
  }

  lemma FanNobody(trace: Trace, m: Message, except: uint32)
    ensures trace + Fan([], m, except) == trace
    ensures forall e :: !Reached([], e, except)
  {
  }

  lemma FanSnoc(trace: Trace, ss: seq<Session>, m: Message, except: uint32)
    requires ss != []
    ensures var init, last := ss[..|ss| - 1], ss[|ss| - 1];
            trace + Fan(ss, m, except) ==
            if last.id != except then trace + Fan(init, m, except) + [Sent(last.endpoint, m)]
            else trace + Fan(init, m, except)
  {
  }

  lemma {:induction false} FanQuiet(trace: Trace, ss: seq<Session>, m: Message, except: uint32)
    ensures Admissions(trace + Fan(ss, m, except)) == Admissions(trace)
    ensures Owners(trace + Fan(ss, m, except)) == Owners(trace)
    ensures forall b, id :: Calls(trace + Fan(ss, m, except), b, id) == Calls(trace, b, id)
    ensures Arrivals(trace + Fan(ss, m, except)) == Arrivals(trace)
  {
    hide Fan, Admissions, Owners, Calls, Arrivals;
    if ss == [] {
      FanNobody(trace, m, except);
    } else {
      var init, last := ss[..|ss| - 1], ss[|ss| - 1];
      FanQuiet(trace, init, m, except);
      FanSnoc(trace, ss, m, except);
      Snoc(trace + Fan(init, m, except), Sent(last.endpoint, m));
    }
  }

  // A broadcast is folded once into the roster of every peer it reaches.
  lemma {:induction false} FanRoster(trace: Trace, ss: seq<Session>, m: Message, except: uint32, e: Endpoint)
    ensures Roster(trace + Fan(ss, m, except), e)
            == if Reached(ss, e, except) then Told(Roster(trace, e), m) else Roster(trace, e)
  {
    hide Fan, Roster, Reached, Told;
    if ss == [] {
      FanNobody(trace, m, except);
    } else {
      var init, last := ss[..|ss| - 1], ss[|ss| - 1];
      FanRoster(trace, init, m, except, e);
      FanSnoc(trace, ss, m, except);
      Snoc(trace + Fan(init, m, except), Sent(last.endpoint, m));
      ReachedSnoc(ss, e, except);
      ToldTwice(Roster(trace, e), m);
    }
  }

  lemma ToldTwice(r: map<uint32, Bytes>, m: Message)
    ensures Told(Told(r, m), m) == Told(r, m)
  {
  }

  lemma ReachedSnoc(ss: seq<Session>, e: Endpoint, except: uint32)
    requires ss != []
    ensures var last := ss[|ss| - 1];
            Reached(ss, e, except) <==>
              Reached(ss[..|ss| - 1], e, except) || (last.id != except && last.endpoint == e)
  {
    var init := ss[..|ss| - 1];
    if Reached(init, e, except) {
      var k :| 0 <= k < |init| && init[k].id != except && init[k].endpoint == e;
      assert ss[k] == init[k];
    }
    if Reached(ss, e, except) {
      var k :| 0 <= k < |ss| && ss[k].id != except && ss[k].endpoint == e;
      assert k < |init| ==> init[k] == ss[k];
    }
  }

  lemma {:induction false} FanLatest(trace: Trace, ss: seq<Session>, m: Message, except: uint32, id: uint32)
    ensures Latest(trace + Fan(ss, m, except), id) == Latest(trace, id)
            || (m.NotifyPlayerState? && m.playerId == id && Latest(trace + Fan(ss, m, except), id) == Some(m))
  {
    hide Fan, Latest;
    if ss == [] {
      FanNobody(trace, m, except);
    } else {
      var init, last := ss[..|ss| - 1], ss[|ss| - 1];
      FanLatest(trace, init, m, except, id);
      FanSnoc(trace, ss, m, except);
      Snoc(trace + Fan(init, m, except), Sent(last.endpoint, m));
    }
  }

  lemma FanReported(trace: Trace, ss: seq<Session>, m: Message, except: uint32, e: Endpoint, s: Message)
    requires s.NotifyPlayerState? && Reported(trace, e, s.tick, s.position, s.rotation)
    ensures Reported(trace + Fan(ss, m, except), e, s.tick, s.position, s.rotation)
  {
    hide Decode;
    var i :| 0 <= i < |trace| && IsReport(trace[i], e, s.tick, s.position, s.rotation);
    assert (trace + Fan(ss, m, except))[i] == trace[i];
  }

  // What was fine to send first is still fine to send after copies of it went to others.
  lemma SentStaysOk(trace: Trace, ss: seq<Session>, m: Message, except: uint32, to: Endpoint)
    requires EntryOk(trace, Sent(to, m))
    ensures EntryOk(trace + Fan(ss, m, except), Sent(to, m))
  {
    hide Decode;
    FanQuiet(trace, ss, m, except);
    if m.NotifyPlayerState? {
      FanRoster(trace, ss, m, except, to);
      FanLatest(trace, ss, m, except, m.playerId);
      FanReported(trace, ss, m, except, Owners(trace)[m.playerId].endpoint, m);
    }
  }

  lemma {:induction false} FanOk(trace: Trace, ss: seq<Session>, m: Message, except: uint32)
    requires TraceOk(trace)
    requires forall k :: 0 <= k < |ss| && ss[k].id != except ==> EntryOk(trace, Sent(ss[k].endpoint, m))
    ensures TraceOk(trace + Fan(ss, m, except))
  {
    hide Fan, EntryOk, TraceOk;
    if ss == [] {
      FanNobody(trace, m, except);
    } else {
      var init, last := ss[..|ss| - 1], ss[|ss| - 1];
      FanOk(trace, init, m, except);
      FanSnoc(trace, ss, m, except);
      if last.id != except {
        SentStaysOk(trace, init, m, except, last.endpoint);
        TraceOkSnoc(trace + Fan(init, m, except), Sent(last.endpoint, m));
      }
    }
  }

  // ---------------------------------------------------------------- one round of callbacks

  lemma CallsNobody(trace: Trace, call: nat, event: Event, live: seq<Session>)
    ensures trace + CallEntries(0, call, event, live) == trace
  {
  }

  lemma {:induction false} CallsQuiet(trace: Trace, n: nat, call: nat, event: Event, live: seq<Session>)
    ensures Admissions(trace + CallEntries(n, call, event, live)) == Admissions(trace)
    ensures Owners(trace + CallEntries(n, call, event, live)) == Owners(trace)
    ensures forall e :: Roster(trace + CallEntries(n, call, event, live), e) == Roster(trace, e)
    ensures forall id :: Latest(trace + CallEntries(n, call, event, live), id) == Latest(trace, id)
    ensures Arrivals(trace + CallEntries(n, call, event, live)) == Arrivals(trace)
  {
    hide CallEntries, Admissions, Owners, Roster, Latest, Arrivals;
    if n == 0 {
      CallsNobody(trace, call, event, live);
    } else {
      CallsQuiet(trace, n - 1, call, event, live);
      CallsSnoc(trace, n, call, event, live);
      Snoc(trace + CallEntries(n - 1, call, event, live), Called(n - 1, call, event, live));
    }
  }

  lemma CallsSnoc(trace: Trace, n: nat, call: nat, event: Event, live: seq<Session>)
    requires n > 0
    ensures trace + CallEntries(n, call, event, live)
            == trace + CallEntries(n - 1, call, event, live) + [Called(n - 1, call, event, live)]
  {
  }

  // Every backend hears the event exactly once.
  lemma {:induction false} CallsHeard(
    trace: Trace, n: nat, call: nat, event: Event, live: seq<Session>, b: nat, id: uint32)
    ensures Calls(trace + CallEntries(n, call, event, live), b, id)
            == if b < n && !event.TickEvent? && EventId(event) == id then Calls(trace, b, id) + [event]
               else Calls(trace, b, id)
  {
    hide CallEntries, Calls;
    if n == 0 {
      CallsNobody(trace, call, event, live);
    } else {
      CallsHeard(trace, n - 1, call, event, live, b, id);
      CallsSnoc(trace, n, call, event, live);
      Snoc(trace + CallEntries(n - 1, call, event, live), Called(n - 1, call, event, live));
    }
  }

  lemma CalledStaysOk(trace: Trace, n: nat, call: nat, event: Event, live: seq<Session>)
    requires RostersAgree(trace, live) && Known(trace, live) && Concerns(event, live)
    ensures EntryOk(trace + CallEntries(n, call, event, live), Called(n, call, event, live))
  {
    hide CallEntries, Roster, Owners;
    CallsQuiet(trace, n, call, event, live);
  }

  lemma {:induction false} CallsOk(trace: Trace, n: nat, call: nat, event: Event, live: seq<Session>)
    requires TraceOk(trace) && RostersAgree(trace, live) && Known(trace, live) && Concerns(event, live)
    ensures TraceOk(trace + CallEntries(n, call, event, live))
  {
    hide CallEntries, EntryOk, TraceOk;
    if n == 0 {
      CallsNobody(trace, call, event, live);
    } else {
      CallsOk(trace, n - 1, call, event, live);
      CalledStaysOk(trace, n - 1, call, event, live);
      CallsSnoc(trace, n, call, event, live);
      TraceOkSnoc(trace + CallEntries(n - 1, call, event, live), Called(n - 1, call, event, live));
    }
  }

  // ---------------------------------------------------------------- introductions

  lemma IntroNobody(trace: Trace, to: Endpoint, except: uint32)
    ensures trace + Introductions([], to, except) == trace
  {
  }

  lemma IntroSnoc(trace: Trace, ss: seq<Session>, to: Endpoint, except: uint32)
    requires ss != []
    ensures var init, last := ss[..|ss| - 1], ss[|ss| - 1];
            var notice := NotifyPlayerJoined(last.id, last.username);
            trace + Introductions(ss, to, except) ==
            if last.id != except && Encodable(notice) then trace + Introductions(init, to, except) + [Sent(to, notice)]
            else trace + Introductions(init, to, except)
  {
  }

  // A name the table accepts always fits in a notice.
  lemma IntroSnocShort(trace: Trace, ss: seq<Session>, to: Endpoint, except: uint32)
    requires ss != [] && ss[|ss| - 1].id != except && |ss[|ss| - 1].username| <= MAX_STRING_SIZE
    ensures var init, last := ss[..|ss| - 1], ss[|ss| - 1];
            trace + Introductions(ss, to, except)
            == trace + Introductions(init, to, except) + [Sent(to, NotifyPlayerJoined(last.id, last.username))]
  {
    IntroSnoc(trace, ss, to, except);
    ShortTextFits(NotifyPlayerJoined(ss[|ss| - 1].id, ss[|ss| - 1].username));
  }

  lemma {:induction false} IntroQuiet(trace: Trace, ss: seq<Session>, to: Endpoint, except: uint32)
    ensures Admissions(trace + Introductions(ss, to, except)) == Admissions(trace)
    ensures Owners(trace + Introductions(ss, to, except)) == Owners(trace)
    ensures forall b, id :: Calls(trace + Introductions(ss, to, except), b, id) == Calls(trace, b, id)
    ensures forall id :: Latest(trace + Introductions(ss, to, except), id) == Latest(trace, id)
    ensures Arrivals(trace + Introductions(ss, to, except)) == Arrivals(trace)
    ensures forall e :: e != to ==> Roster(trace + Introductions(ss, to, except), e) == Roster(trace, e)
  {
    hide Introductions, Admissions, Owners, Roster, Latest, Calls, Arrivals;
    if ss == [] {
      IntroNobody(trace, to, except);
    } else {
      var init, last := ss[..|ss| - 1], ss[|ss| - 1];
      IntroQuiet(trace, init, to, except);
      IntroSnoc(trace, ss, to, except);
      Snoc(trace + Introductions(init, to, except), Sent(to, NotifyPlayerJoined(last.id, last.username)));
    }
  }

  // Introducing players with names the table accepts builds exactly their roster.
  lemma {:induction false} IntroRoster(trace: Trace, ss: seq<Session>, to: Endpoint, except: uint32)
    requires Roster(trace, to) == map[]
    requires forall k :: 0 <= k < |ss| ==> ss[k].id != except && |ss[k].username| <= MAX_STRING_SIZE
    ensures Roster(trace + Introductions(ss, to, except), to) == Names(ss)
  {
    if ss == [] {
      assert trace + Introductions(ss, to, except) == trace;
    } else {
      var init, last := ss[..|ss| - 1], ss[|ss| - 1];
      IntroRoster(trace, init, to, except);
      IntroSnocShort(trace, ss, to, except);
      Snoc(trace + Introductions(init, to, except), Sent(to, NotifyPlayerJoined(last.id, last.username)));
    }
  }

  lemma {:induction false} IntroOk(trace: Trace, ss: seq<Session>, to: Endpoint, except: uint32)
    requires TraceOk(trace)
    requires forall k :: 0 <= k < |ss| && ss[k].id != except ==>
               AboutOk(trace, to, NotifyPlayerJoined(ss[k].id, ss[k].username)) && |ss[k].username| <= MAX_STRING_SIZE
    ensures TraceOk(trace + Introductions(ss, to, except))
  {
    hide Decode;
    if ss == [] {
      assert trace + Introductions(ss, to, except) == trace;
    } else {
      var init, last := ss[..|ss| - 1], ss[|ss| - 1];
      IntroOk(trace, init, to, except);
      IntroSnoc(trace, ss, to, except);
      var notice := NotifyPlayerJoined(last.id, last.username);
      if last.id != except && Encodable(notice) {
        IntroQuiet(trace, init, to, except);
        TraceOkSnoc(trace + Introductions(init, to, except), Sent(to, notice));
      }
    }
  }
}
