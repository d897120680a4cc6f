/** What every step of the server keeps: the table, the rosters the peers hold, the callbacks the
    scripts got, and the snapshots relayed, all against the trace of the run so far. */
module ServerInvariant {
  import opened Numbers
  import opened Protocol
  import opened Sessions
  import opened Traces
  import opened TraceRules
  import opened Server

  // The ids admitted so far are 1, 2, 3, ... and live sessions are who their id was issued to.
  predicate OwnersAgree(trace: Trace, ss: seq<Session>) {
    && (forall id: uint32 :: id in Owners(trace) <==> 1 <= id <= Admissions(trace))
    && Known(trace, ss)
  }

  // One join for an admitted player, then one leave once it is gone; nothing for anyone else.
  function LifeOf(trace: Trace, ss: seq<Session>, id: uint32): seq<Event> {
    if id !in Owners(trace) then []
    else if Live(ss, id) then [JoinEvent(id)]
    else [JoinEvent(id), LeaveEvent(id)]
  }

  predicate CallsAgree(trace: Trace, ss: seq<Session>, backends: nat) {
    forall b: nat, id: uint32 :: b < backends ==> Calls(trace, b, id) == LifeOf(trace, ss, id)
  }

  // Nothing newer than what the session holds was ever relayed.
  predicate StatesAgree(trace: Trace, ss: seq<Session>) {
    && (forall id :: Latest(trace, id).Some? ==> id in Owners(trace))
    && (forall k :: 0 <= k < |ss| && Latest(trace, ss[k].id).Some? ==>
         ss[k].hasState && Latest(trace, ss[k].id).value.tick <= ss[k].stateTick)
  }

  // The record of a run agrees with the sessions it has led to.
  ghost predicate Agree(trace: Trace, ss: seq<Session>, backends: nat) {
    && TraceOk(trace)
    && OwnersAgree(trace, ss)
    && RostersAgree(trace, ss)
    && CallsAgree(trace, ss, backends)
    && StatesAgree(trace, ss)
  }

  ghost predicate Inv(s: State, backends: nat) {
    TableOk(s.table, Admissions(s.trace)) && Agree(s.trace, s.table.sessions, backends)
  }

  // ---------------------------------------------------------------- names

  lemma {:induction false} NamesKeys(ss: seq<Session>, id: uint32)
    ensures id in Names(ss) <==> Live(ss, id)
  {
    if ss != [] {
      var init, last := ss[..|ss| - 1], ss[|ss| - 1];
      NamesKeys(init, id);
      LiveSnoc(ss, id);
    }
  }

  lemma LiveSnoc(ss: seq<Session>, id: uint32)
    requires ss != []
    ensures Live(ss, id) <==> Live(ss[..|ss| - 1], id) || ss[|ss| - 1].id == id
  {
    var init := ss[..|ss| - 1];
    if Live(init, id) {
      var k :| 0 <= k < |init| && init[k].id == id;
      assert ss[k].id == id;
    }
    if Live(ss, id) {
      var k :| 0 <= k < |ss| && ss[k].id == id;
      if k < |init| {
        assert init[k].id == id;
      }
    }
  }

  lemma {:induction false} NamesSame(ss: seq<Session>, rr: seq<Session>)
    requires SamePeers(ss, rr)
    ensures Names(ss) == Names(rr)
  {
    if ss != [] {
      NamesSame(ss[..|ss| - 1], rr[..|ss| - 1]);
    }
  }

  lemma NamesSnoc(ss: seq<Session>, s: Session)
    ensures Names(ss + [s]) == Names(ss)[s.id := s.username]
  {
    assert (ss + [s])[..|ss|] == ss;
  }

  lemma WithoutSnoc(ss: seq<Session>, i: nat)
    requires i < |ss| - 1
    ensures Without(ss, i) == Without(ss[..|ss| - 1], i) + [ss[|ss| - 1]]
  {
  }

  lemma RemoveThenAdd(m: map<uint32, Bytes>, a: uint32, b: uint32, name: Bytes)
    requires a != b
    ensures (m - {a})[b := name] == m[b := name] - {a}
  {
  }

  lemma LastIsApart(ss: seq<Session>)
    requires ss != [] && IdsIncrease(ss)
    ensures IdsIncrease(ss[..|ss| - 1])
    ensures forall k :: 0 <= k < |ss| - 1 ==> ss[k].id != ss[|ss| - 1].id
  {
  }

  lemma NamesWithoutLast(ss: seq<Session>)
    requires ss != [] && IdsIncrease(ss)
    ensures Without(ss, |ss| - 1) == ss[..|ss| - 1]
    ensures Names(ss[..|ss| - 1]) == Names(ss) - {ss[|ss| - 1].id}
  {
    hide Names, Live;
    var init, last := ss[..|ss| - 1], ss[|ss| - 1];
    NotAmong(init, last.id);
    NamesKeys(init, last.id);
    assert ss == init + [last];
    NamesSnoc(init, last);
    AddThenRemove(Names(init), last.id, last.username);
  }

  lemma NotAmong(ss: seq<Session>, id: uint32)
    requires forall k :: 0 <= k < |ss| ==> ss[k].id != id
    ensures !Live(ss, id)
  {
  }

  lemma AddThenRemove(m: map<uint32, Bytes>, id: uint32, name: Bytes)
    requires id !in m
    ensures m[id := name] - {id} == m
  {
  }

  lemma {:induction false} NamesWithout(ss: seq<Session>, i: nat)
    requires i < |ss| && IdsIncrease(ss)
    ensures Names(Without(ss, i)) == Names(ss) - {ss[i].id}
  {
    hide Names, Without, IdsIncrease;
    var n := |ss| - 1;
    if i == n {
      NamesWithoutLast(ss);
    } else {
      LastIsApart(ss);
      NamesWithout(ss[..n], i);
      WithoutSnoc(ss, i);
      NamesWithoutSnoc(Without(ss[..n], i), ss[..n], ss[i].id, ss[n]);
      assert ss == ss[..n] + [ss[n]];
    }
  }

  lemma NamesWithoutSnoc(rr: seq<Session>, ss: seq<Session>, id: uint32, last: Session)
    requires Names(rr) == Names(ss) - {id} && id != last.id
    ensures Names(rr + [last]) == Names(ss + [last]) - {id}
  {
    NamesSnoc(rr, last);
    NamesSnoc(ss, last);
    RemoveThenAdd(Names(ss), id, last.id, last.username);
  }

  lemma LiveWithout(ss: seq<Session>, i: nat, id: uint32)
    requires i < |ss| && IdsIncrease(ss)
    ensures Live(Without(ss, i), id) <==> Live(ss, id) && id != ss[i].id
  {
    NamesWithout(ss, i);
    NamesKeys(ss, id);
    NamesKeys(Without(ss, i), id);
  }

  lemma WithoutAt(ss: seq<Session>, i: nat, k: nat)
    requires i < |ss| && k < |ss| - 1
    ensures Without(ss, i)[k] == ss[if k < i then k else k + 1]
  {
  }

  // ---------------------------------------------------------------- a player leaves

  lemma LeaveSent(trace: Trace, ss: seq<Session>, i: nat)
    requires i < |ss| && TraceOk(trace) && OwnersAgree(trace, ss) && IdsIncrease(ss) && EndpointsDiffer(ss)
    ensures TraceOk(trace + Fan(Without(ss, i), NotifyPlayerLeft(ss[i].id), ss[i].id))
  {
    var rr, m := Without(ss, i), NotifyPlayerLeft(ss[i].id);
    forall k | 0 <= k < |rr|
      ensures EntryOk(trace, Sent(rr[k].endpoint, m))
    {
      WithoutAt(ss, i, k);
      ShortTextFits(m);
    }
    FanOk(trace, rr, m, ss[i].id);
  }

  lemma LeaveRosters(trace: Trace, ss: seq<Session>, i: nat)
    requires i < |ss| && RostersAgree(trace, ss) && IdsIncrease(ss)
    ensures RostersAgree(trace + Fan(Without(ss, i), NotifyPlayerLeft(ss[i].id), ss[i].id), Without(ss, i))
  {
    var rr, id := Without(ss, i), ss[i].id;
    NamesWithout(ss, i);
    forall k | 0 <= k < |rr|
      ensures Roster(trace + Fan(rr, NotifyPlayerLeft(id), id), rr[k].endpoint) == Names(rr) - {rr[k].id}
    {
      WithoutAt(ss, i, k);
      assert Reached(rr, rr[k].endpoint, id);
      FanRoster(trace, rr, NotifyPlayerLeft(id), id, rr[k].endpoint);
    }
  }

  lemma LeaveStates(trace: Trace, ss: seq<Session>, i: nat)
    requires i < |ss| && StatesAgree(trace, ss) && OwnersAgree(trace, ss)
    ensures var t := trace + Fan(Without(ss, i), NotifyPlayerLeft(ss[i].id), ss[i].id);
            StatesAgree(t, Without(ss, i)) && OwnersAgree(t, Without(ss, i))
  {
    var rr, m := Without(ss, i), NotifyPlayerLeft(ss[i].id);
    FanQuiet(trace, rr, m, ss[i].id);
    forall id: uint32
      ensures Latest(trace + Fan(rr, m, ss[i].id), id) == Latest(trace, id)
    {
      FanLatest(trace, rr, m, ss[i].id, id);
    }
    forall k | 0 <= k < |rr|
      ensures rr[k] == ss[if k < i then k else k + 1]
    {
      WithoutAt(ss, i, k);
    }
  }

  // Once the leave is delivered to the backends, the player's story is complete.
  lemma LeaveCalls(trace: Trace, ss: seq<Session>, i: nat, backends: nat, call: nat)
    requires i < |ss| && IdsIncrease(ss) && OwnersAgree(trace, ss) && CallsAgree(trace, ss, backends)
    ensures CallsAgree(trace + CallEntries(backends, call, LeaveEvent(ss[i].id), Without(ss, i)),
                       Without(ss, i), backends)
  {
    var rr, event := Without(ss, i), LeaveEvent(ss[i].id);
    var t := trace + CallEntries(backends, call, event, rr);
    CallsQuiet(trace, backends, call, event, rr);
    forall b: nat, id: uint32 | b < backends
      ensures Calls(t, b, id) == LifeOf(t, rr, id)
    {
      CallsHeard(trace, backends, call, event, rr, b, id);
      LiveWithout(ss, i, id);
      assert Calls(trace, b, id) == LifeOf(trace, ss, id);
      if id == ss[i].id {
        assert Live(ss, id);
      }
    }
  }

  lemma FanKeepsCalls(trace: Trace, ss: seq<Session>, backends: nat, to: seq<Session>, m: Message, except: uint32)
    requires CallsAgree(trace, ss, backends)
    ensures CallsAgree(trace + Fan(to, m, except), ss, backends)
  {
    FanQuiet(trace, to, m, except);
    forall b: nat, id: uint32 | b < backends
      ensures Calls(trace + Fan(to, m, except), b, id) == LifeOf(trace + Fan(to, m, except), ss, id)
    {
      assert Calls(trace, b, id) == LifeOf(trace, ss, id);
    }
  }

  // The state with session i taken out of the table.
  function Dropped(s: State, i: nat): State
    requires i < |s.table.sessions|
  {
    s.(table := s.table.(sessions := Without(s.table.sessions, i)))
  }

  // What a round of callbacks leaves as it was.
  lemma CallsKeepRest(trace: Trace, ss: seq<Session>, backends: nat, call: nat, event: Event)
    requires OwnersAgree(trace, ss) && RostersAgree(trace, ss) && StatesAgree(trace, ss)
    requires TraceOk(trace) && Concerns(event, ss)
    ensures var t := trace + CallEntries(backends, call, event, ss);
            OwnersAgree(t, ss) && RostersAgree(t, ss) && StatesAgree(t, ss) && TraceOk(t)
  {
    CallsQuiet(trace, backends, call, event, ss);
    CallsOk(trace, backends, call, event, ss);
  }

  // A round of callbacks that completes the stories of the players.
  lemma CallsKeepAgree(trace: Trace, ss: seq<Session>, backends: nat, call: nat, event: Event)
    requires TraceOk(trace) && Concerns(event, ss)
    requires OwnersAgree(trace, ss) && RostersAgree(trace, ss) && StatesAgree(trace, ss)
    requires CallsAgree(trace + CallEntries(backends, call, event, ss), ss, backends)
    ensures Agree(trace + CallEntries(backends, call, event, ss), ss, backends)
    ensures Admissions(trace + CallEntries(backends, call, event, ss)) == Admissions(trace)
  {
    CallsKeepRest(trace, ss, backends, call, event);
    CallsQuiet(trace, backends, call, event, ss);
  }

  // The record once everyone else has been told that session i left.
  function LeftTrace(trace: Trace, ss: seq<Session>, i: nat): Trace
    requires i < |ss|
  {
    trace + Fan(Without(ss, i), NotifyPlayerLeft(ss[i].id), ss[i].id)
  }

  lemma LeaveCallsAgree(trace: Trace, ss: seq<Session>, i: nat, backends: nat, call: nat)
    requires i < |ss| && IdsIncrease(ss) && Agree(trace, ss, backends)
    ensures var t := LeftTrace(trace, ss, i);
            CallsAgree(t + CallEntries(backends, call, LeaveEvent(ss[i].id), Without(ss, i)), Without(ss, i), backends)
  {
    FanQuiet(trace, Without(ss, i), NotifyPlayerLeft(ss[i].id), ss[i].id);
    FanKeepsCalls(trace, ss, backends, Without(ss, i), NotifyPlayerLeft(ss[i].id), ss[i].id);
    LeaveCalls(LeftTrace(trace, ss, i), ss, i, backends, call);
  }

  lemma LeaveAgrees(trace: Trace, ss: seq<Session>, i: nat, backends: nat, call: nat)
    requires i < |ss| && IdsIncrease(ss) && EndpointsDiffer(ss) && Agree(trace, ss, backends)
    ensures var t := LeftTrace(trace, ss, i) + CallEntries(backends, call, LeaveEvent(ss[i].id), Without(ss, i));
            Agree(t, Without(ss, i), backends) && Admissions(t) == Admissions(trace)
  {
    LeaveSent(trace, ss, i);
    LeaveRosters(trace, ss, i);
    LeaveStates(trace, ss, i);
    LeaveCallsAgree(trace, ss, i, backends, call);
    LeaveGone(ss, i);
    FanQuiet(trace, Without(ss, i), NotifyPlayerLeft(ss[i].id), ss[i].id);
    CallsKeepAgree(LeftTrace(trace, ss, i), Without(ss, i), backends, call, LeaveEvent(ss[i].id));
  }

  lemma AnnounceKeeps(s: State, scripts: seq<Script>, i: nat)
    requires Inv(s, |scripts|) && i < |s.table.sessions|
    ensures Inv(Announce(Dropped(s, i), scripts, s.table.sessions[i].id), |scripts|)
    ensures Admissions(Announce(Dropped(s, i), scripts, s.table.sessions[i].id).trace) == Admissions(s.trace)
  {
    ShortTextFits(NotifyPlayerLeft(s.table.sessions[i].id));
    WithoutKeepsTable(s.table, i, Admissions(s.trace));
    LeaveAgrees(s.trace, s.table.sessions, i, |scripts|, s.calls);
  }

  lemma LeaveGone(ss: seq<Session>, i: nat)
    requires i < |ss| && IdsIncrease(ss)
    ensures Concerns(LeaveEvent(ss[i].id), Without(ss, i))
  {
    LiveWithout(ss, i, ss[i].id);
  }

  // ---------------------------------------------------------------- sweep, tick and kicks

  lemma {:induction false} SweepKeeps(s: State, scripts: seq<Script>, now: uint64)
    requires Inv(s, |scripts|)
    ensures Inv(Sweep(s, scripts, now), |scripts|)
    decreases |s.table.sessions|
  {
    var i := ExpiredIndex(s.table.sessions, now, s.table.timeoutMs);
    if i < |s.table.sessions| {
      AnnounceKeeps(s, scripts, i);
      SweepKeeps(Announce(Dropped(s, i), scripts, s.table.sessions[i].id), scripts, now);
    }
  }

  lemma TickKeeps(s: State, scripts: seq<Script>, now: uint64)
    requires Inv(s, |scripts|)
    ensures Inv(Dispatch(s, scripts, TickEvent(now)), |scripts|)
  {
    var ss, event := s.table.sessions, TickEvent(now);
    var t := s.trace + CallEntries(|scripts|, s.calls, event, ss);
    CallsKeepRest(s.trace, ss, |scripts|, s.calls, event);
    CallsQuiet(s.trace, |scripts|, s.calls, event, ss);
    forall b: nat, id: uint32 | b < |scripts|
      ensures Calls(t, b, id) == LifeOf(t, ss, id)
    {
      CallsHeard(s.trace, |scripts|, s.calls, event, ss, b, id);
      assert Calls(s.trace, b, id) == LifeOf(s.trace, ss, id);
    }
  }

  lemma KickKeeps(s: State, scripts: seq<Script>, id: uint32)
    requires Inv(s, |scripts|)
    ensures Inv(Kick(s, scripts, id), |scripts|)
  {
    if FindId(s.table, id).Some? {
      AnnounceKeeps(s, scripts, IdIndex(s.table.sessions, id));
    }
  }

  lemma {:induction false} DrainKeeps(s: State, scripts: seq<Script>, batch: seq<PendingKick>)
    requires Inv(s, |scripts|)
    ensures Inv(Drain(s, scripts, batch), |scripts|)
  {
    if batch != [] {
      DrainKeeps(s, scripts, batch[..|batch| - 1]);
      KickKeeps(Drain(s, scripts, batch[..|batch| - 1]), scripts, batch[|batch| - 1].playerId);
    }
  }

  // ---------------------------------------------------------------- entries that tell nobody about anyone

  predicate Quiet(x: Entry) {
    x.Received? || (x.Sent? && About(x.msg).None? && ShortText(x.msg))
  }

  predicate SameStates(ss: seq<Session>, rr: seq<Session>) {
    && SamePeers(ss, rr)
    && forall k :: 0 <= k < |ss| ==> ss[k].hasState == rr[k].hasState && ss[k].stateTick == rr[k].stateTick
  }

  lemma QuietFacts(trace: Trace, ss: seq<Session>, x: Entry)
    requires Quiet(x)
    ensures var t := trace + [x];
            && Owners(t) == Owners(trace) && Admissions(t) == Admissions(trace)
            && (forall b, id :: Calls(t, b, id) == Calls(trace, b, id))
            && (forall id :: Latest(t, id) == Latest(trace, id))
            && (RostersAgree(trace, ss) ==> RostersAgree(t, ss))
  {
    Snoc(trace, x);
  }

  lemma QuietCalls(trace: Trace, ss: seq<Session>, backends: nat, x: Entry)
    requires Quiet(x) && CallsAgree(trace, ss, backends)
    ensures CallsAgree(trace + [x], ss, backends)
  {
    QuietFacts(trace, ss, x);
    forall b: nat, id: uint32 | b < backends
      ensures Calls(trace + [x], b, id) == LifeOf(trace + [x], ss, id)
    {
      assert Calls(trace, b, id) == LifeOf(trace, ss, id);
    }
  }

  lemma QuietRest(trace: Trace, ss: seq<Session>, x: Entry)
    requires Quiet(x) && OwnersAgree(trace, ss) && StatesAgree(trace, ss) && RostersAgree(trace, ss)
    ensures OwnersAgree(trace + [x], ss) && StatesAgree(trace + [x], ss) && RostersAgree(trace + [x], ss)
    ensures Admissions(trace + [x]) == Admissions(trace)
  {
    QuietFacts(trace, ss, x);
  }

  lemma QuietOk(trace: Trace, x: Entry)
    requires Quiet(x) && TraceOk(trace)
    ensures TraceOk(trace + [x])
  {
    assert EntryOk(trace, x);
    TraceOkSnoc(trace, x);
  }

  lemma QuietKeeps(s: State, backends: nat, x: Entry)
    requires Inv(s, backends) && Quiet(x)
    ensures Inv(Append(s, [x]), backends)
  {
    QuietRest(s.trace, s.table.sessions, x);
    QuietCalls(s.trace, s.table.sessions, backends, x);
    QuietOk(s.trace, x);
  }

  lemma LiveSame(ss: seq<Session>, rr: seq<Session>, id: uint32)
    requires SamePeers(ss, rr)
    ensures Live(ss, id) == Live(rr, id)
  {
    NamesKeys(ss, id);
    NamesKeys(rr, id);
    NamesSame(ss, rr);
  }

  // Hearing from a peer changes nothing but when it was heard.
  lemma HeardKeeps(s: State, t: Table, backends: nat)
    requires Inv(s, backends)
    requires t == s.table.(sessions := t.sessions) && SameStates(s.table.sessions, t.sessions)
    ensures Inv(s.(table := t), backends)
  {
    var ss, rr := s.table.sessions, t.sessions;
    SamePeersKeepTable(s.table, t, Admissions(s.trace));
    NamesSame(ss, rr);
    forall b: nat, id: uint32 | b < backends
      ensures Calls(s.trace, b, id) == LifeOf(s.trace, rr, id)
    {
      LiveSame(ss, rr, id);
      assert Calls(s.trace, b, id) == LifeOf(s.trace, ss, id);
    }
  }
}
