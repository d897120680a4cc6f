/** What must come of a kick: a script that asks for a kick of a player it was handed live gets it queued,
    and the next drain that starts leaves that player out of the table for good. */
module KickDuties {
  import opened Numbers
  import opened Protocol
  import opened Sessions
  import opened Traces
  import opened TraceRules
  import opened Server
  import opened ServerInvariant
  import opened ServerRuns
  import opened ServerTheorems
  import opened ServerKicks
  import opened ServerEntries
  import opened ServerTimeouts
  import opened ServerDuties

  // ---------------------------------------------------------------- asking is enough

  lemma LiveIsFound(t: Table, id: uint32)
    requires PositiveIds(t.sessions) && Live(t.sessions, id)
    ensures FindId(t, id).Some?
  {
    var k :| 0 <= k < |t.sessions| && t.sessions[k].id == id;
    assert IdIndex(t.sessions, id) <= k;
  }

  lemma {:induction false} AskedIsQueued(asked: seq<PendingKick>, t: Table, k: PendingKick)
    requires k in asked && FindId(t, k.playerId).Some?
    ensures k in QueueKicks([], asked, t)
  {
    hide FindId;
    var init := asked[..|asked| - 1];
    if k in init {
      AskedIsQueued(init, t, k);
    } else {
      assert asked == init + [asked[|asked| - 1]];
    }
  }

  lemma {:induction false} AskedIsRequested(
    scripts: seq<Script>, call: nat, event: Event, t: Table, b: nat, k: PendingKick)
    requires b < |scripts| && k in scripts[b](call, event, t.sessions) && FindId(t, k.playerId).Some?
    ensures k in Requests([], scripts, call, event, t)
  {
    hide FindId, QueueKicks;
    var n := |scripts| - 1;
    var asked := scripts[n](call, event, t.sessions);
    QueueAppends(Requests([], scripts[..n], call, event, t), asked, t);
    if b < n {
      AskedIsRequested(scripts[..n], call, event, t, b, k);
    } else {
      AskedIsQueued(asked, t, k);
    }
  }

  // In every round of callbacks, every kick that a backend asks for, with whatever reason, of a player in
  // the sessions handed to it joins the queue behind what was there.
  lemma KicksAskedForAreQueued(s: State, scripts: seq<Script>, event: Event, b: nat, k: PendingKick)
    requires PositiveIds(s.table.sessions) && b < |scripts|
    requires k in scripts[b](s.calls, event, s.table.sessions) && Live(s.table.sessions, k.playerId)
    ensures s.kicks <= Dispatch(s, scripts, event).kicks
    ensures k in Dispatch(s, scripts, event).kicks[|s.kicks|..]
  {
    hide Requests;
    LiveIsFound(s.table, k.playerId);
    AskedIsRequested(scripts, s.calls, event, s.table, b, k);
    RequestsAppend(s.kicks, scripts, s.calls, event, s.table);
    var r := Dispatch(s, scripts, event).kicks;
    assert r[|s.kicks|..] == Requests([], scripts, s.calls, event, s.table);
  }

  // ---------------------------------------------------------------- until it is served

  // Each kick asked for so far is queued, or among these others, or its player is gone.
  ghost predicate Served(s: State, scripts: seq<Script>, others: seq<PendingKick>) {
    forall i, k :: 0 <= i < |s.trace| && AsksFor(s.trace[i], scripts, k) ==>
      k in s.kicks || k in others || !Live(s.table.sessions, k.playerId)
  }

  // Whoever was asked to be kicked had been admitted.
  ghost predicate AskedWereAdmitted(trace: Trace, scripts: seq<Script>) {
    forall i, k :: 0 <= i < |trace| && AsksFor(trace[i], scripts, k) ==> k.playerId in Owners(trace)
  }

  lemma AskedAreAdmitted(trace: Trace, scripts: seq<Script>)
    requires TraceOk(trace)
    ensures AskedWereAdmitted(trace, scripts)
  {
    hide TraceOk, Owners;
    forall i, k | 0 <= i < |trace| && AsksFor(trace[i], scripts, k)
      ensures k.playerId in Owners(trace)
    {
      EntryAt(trace, i);
      KnownIsAdmitted(trace[..i], trace[i].live, k.playerId);
      OwnersStay(trace, i, |trace|, k.playerId);
      assert trace[..|trace|] == trace;
    }
  }

  lemma KnownIsAdmitted(before: Trace, live: seq<Session>, id: uint32)
    requires Known(before, live) && Live(live, id)
    ensures id in Owners(before)
  {
    hide Owners;
  }

  // Nobody who was admitted before becomes live again.
  predicate NobodyReturns(ss: seq<Session>, rr: seq<Session>, owners: map<uint32, Identity>) {
    forall k :: 0 <= k < |rr| && rr[k].id in owners ==> Live(ss, rr[k].id)
  }

  // No callback between the two traces.
  predicate Uncalled(before: Trace, after: Trace) {
    before <= after && forall i :: |before| <= i < |after| ==> !after[i].Called?
  }

  lemma ServedStays(s: State, r: State, scripts: seq<Script>, others: seq<PendingKick>)
    requires Served(s, scripts, others) && AskedWereAdmitted(s.trace, scripts)
    requires Uncalled(s.trace, r.trace) && r.kicks == s.kicks
    requires NobodyReturns(s.table.sessions, r.table.sessions, Owners(s.trace))
    ensures Served(r, scripts, others)
  {
    hide Owners;
    forall i, k | 0 <= i < |r.trace| && AsksFor(r.trace[i], scripts, k)
      ensures k in r.kicks || k in others || !Live(r.table.sessions, k.playerId)
    {
      assert i < |s.trace|;
      assert AsksFor(s.trace[i], scripts, k);
    }
  }

  lemma DispatchServes(s: State, scripts: seq<Script>, event: Event, others: seq<PendingKick>)
    requires Served(s, scripts, others) && PositiveIds(s.table.sessions)
    ensures Served(Dispatch(s, scripts, event), scripts, others)
  {
    hide CallEntries, Requests, Live;
    var r := Dispatch(s, scripts, event);
    CallsAreCalls(|scripts|, s.calls, event, s.table.sessions);
    RequestsAppend(s.kicks, scripts, s.calls, event, s.table);
    forall i, k | 0 <= i < |r.trace| && AsksFor(r.trace[i], scripts, k)
      ensures k in r.kicks || k in others || !Live(r.table.sessions, k.playerId)
    {
      if i < |s.trace| {
        assert AsksFor(s.trace[i], scripts, k);
      } else {
        KicksAskedForAreQueued(s, scripts, event, i - |s.trace|, k);
      }
    }
  }

  lemma FanUncalled(s: State, m: Message, except: uint32)
    ensures Uncalled(s.trace, Broadcast(s, m, except).trace)
  {
    hide Fan, Encodable;
    FanIsTalk(s.table.sessions, m, except);
  }

  lemma SameSessionsReturnNobody(ss: seq<Session>, owners: map<uint32, Identity>)
    ensures NobodyReturns(ss, ss, owners)
  {
  }

  lemma AnnounceServes(s: State, scripts: seq<Script>, i: nat, others: seq<PendingKick>)
    requires Served(s, scripts, others) && AskedWereAdmitted(s.trace, scripts)
    requires i < |s.table.sessions| && IdsIncrease(s.table.sessions) && PositiveIds(s.table.sessions)
    ensures Served(Announce(Dropped(s, i), scripts, s.table.sessions[i].id), scripts, others)
  {
    hide Served, AskedWereAdmitted, Dispatch, Uncalled, Broadcast, Owners;
    var d := Dropped(s, i);
    var m := NotifyPlayerLeft(s.table.sessions[i].id);
    var s1 := Broadcast(d, m, m.playerId);
    WithoutMembers(s.table.sessions, i);
    DroppedReturnsNobody(s.table.sessions, i, Owners(s.trace));
    FanUncalled(d, m, m.playerId);
    BroadcastKeeps(d, m, m.playerId);
    ServedStays(s, s1, scripts, others);
    DispatchServes(s1, scripts, LeaveEvent(m.playerId), others);
  }

  lemma BroadcastKeeps(s: State, m: Message, except: uint32)
    ensures var r := Broadcast(s, m, except);
            r.table == s.table && r.kicks == s.kicks && r.calls == s.calls
  {
  }

  lemma DroppedReturnsNobody(ss: seq<Session>, i: nat, owners: map<uint32, Identity>)
    requires i < |ss| && IdsIncrease(ss)
    ensures NobodyReturns(ss, Without(ss, i), owners)
  {
    forall k | 0 <= k < |ss| - 1
      ensures Live(ss, Without(ss, i)[k].id)
    {
      WithoutAt(ss, i, k);
    }
  }

  // What a step must be known to keep for the next one.
  ghost predicate Serving(s: State, scripts: seq<Script>, others: seq<PendingKick>) {
    Inv(s, |scripts|) && Served(s, scripts, others)
  }

  lemma ServingFacts(s: State, scripts: seq<Script>)
    requires Inv(s, |scripts|)
    ensures AskedWereAdmitted(s.trace, scripts)
    ensures IdsIncrease(s.table.sessions) && PositiveIds(s.table.sessions)
  {
    hide TraceOk, OwnersAgree, RostersAgree, CallsAgree, StatesAgree, AskedWereAdmitted;
    AskedAreAdmitted(s.trace, scripts);
  }

  lemma DropServes(s: State, scripts: seq<Script>, i: nat, others: seq<PendingKick>)
    requires Serving(s, scripts, others) && i < |s.table.sessions|
    ensures Serving(Announce(Dropped(s, i), scripts, s.table.sessions[i].id), scripts, others)
  {
    hide Inv, Served, AskedWereAdmitted, Announce;
    ServingFacts(s, scripts);
    AnnounceKeeps(s, scripts, i);
    AnnounceServes(s, scripts, i, others);
  }

  lemma {:induction false} SweepServes(s: State, scripts: seq<Script>, now: uint64, others: seq<PendingKick>)
    requires Serving(s, scripts, others)
    ensures Serving(Sweep(s, scripts, now), scripts, others)
    decreases |s.table.sessions|
  {
    hide Serving, Announce;
    var i := ExpiredIndex(s.table.sessions, now, s.table.timeoutMs);
    if i < |s.table.sessions| {
      var id := s.table.sessions[i].id;
      DropServes(s, scripts, i, others);
      AnnounceKeepsTable(Dropped(s, i), scripts, id);
      SweepServes(Announce(Dropped(s, i), scripts, id), scripts, now, others);
    }
  }

  lemma TickServes(s: State, scripts: seq<Script>, now: uint64, others: seq<PendingKick>)
    requires Serving(s, scripts, others)
    ensures Serving(Dispatch(s, scripts, TickEvent(now)), scripts, others)
  {
    hide Inv, Served, Dispatch;
    ServingFacts(s, scripts);
    TickKeeps(s, scripts, now);
    DispatchServes(s, scripts, TickEvent(now), others);
  }

  lemma {:induction false} DrainServes(
    s: State, scripts: seq<Script>, batch: seq<PendingKick>, others: seq<PendingKick>)
    requires Serving(s, scripts, others)
    ensures Serving(Drain(s, scripts, batch), scripts, others)
  {
    hide Serving, Announce;
    if batch != [] {
      var r, id := Drain(s, scripts, batch[..|batch| - 1]), batch[|batch| - 1].playerId;
      DrainServes(s, scripts, batch[..|batch| - 1], others);
      if FindId(r.table, id).Some? {
        DropServes(r, scripts, IdIndex(r.table.sessions, id), others);
      }
    }
  }

  lemma TakenServes(s: State, scripts: seq<Script>)
    requires Served(s, scripts, [])
    ensures Served(s.(kicks := []), scripts, s.kicks)
  {
  }

  lemma TakenKeeps(s: State, scripts: seq<Script>)
    requires Inv(s, |scripts|)
    ensures Inv(s.(kicks := []), |scripts|)
  {
  }

  // Once the batch is drained nobody in it is live, so nothing of it is left to serve; what was asked for
  // before the drain started is served in any case.
  lemma DrainedAreGone(s: State, scripts: seq<Script>)
    requires Serving(s, scripts, [])
    ensures var r := TakeAndDrain(s, scripts);
            && Serving(r, scripts, [])
            && forall i, k :: 0 <= i < |s.trace| && AsksFor(s.trace[i], scripts, k) ==>
                 !Live(r.table.sessions, k.playerId)
  {
    hide Inv, Drain, AsksFor;
    var s1, r := s.(kicks := []), TakeAndDrain(s, scripts);
    ServingFacts(s, scripts);
    TakenServes(s, scripts);
    TakenKeeps(s, scripts);
    DrainServes(s1, scripts, s.kicks, s.kicks);
    DrainRemovesExactly(s1, scripts, s.kicks);
    forall i, k | 0 <= i < |r.trace| && AsksFor(r.trace[i], scripts, k)
      ensures k in r.kicks || !Live(r.table.sessions, k.playerId)
    {
      if k in s.kicks {
        BatchIsGone(s1.table.sessions, r.table.sessions, s.kicks, k);
      }
    }
    forall i, k | 0 <= i < |s.trace| && AsksFor(s.trace[i], scripts, k)
      ensures !Live(r.table.sessions, k.playerId)
    {
      if k in s.kicks {
        BatchIsGone(s1.table.sessions, r.table.sessions, s.kicks, k);
      } else {
        GoneStaysGone(s.table.sessions, r.table.sessions, k.playerId);
      }
    }
  }

  lemma BatchIsGone(ss: seq<Session>, rr: seq<Session>, batch: seq<PendingKick>, k: PendingKick)
    requires k in batch && forall x :: x in rr <==> x in ss && !InBatch(batch, x.id)
    ensures !Live(rr, k.playerId)
  {
    var n :| 0 <= n < |batch| && batch[n] == k;
    assert InBatch(batch, k.playerId);
    assert forall j :: 0 <= j < |rr| ==> rr[j] in rr && !InBatch(batch, rr[j].id);
  }

  lemma GoneStaysGone(ss: seq<Session>, rr: seq<Session>, id: uint32)
    requires !Live(ss, id) && forall x :: x in rr ==> x in ss
    ensures !Live(rr, id)
  {
    assert forall n :: 0 <= n < |ss| ==> ss[n].id != id;
    assert forall x :: x in ss ==> x.id != id;
    assert forall j :: 0 <= j < |rr| ==> rr[j] in rr;
  }

  // ---------------------------------------------------------------- datagrams

  lemma ReceptionServes(s: State, scripts: seq<Script>, x: Entry, others: seq<PendingKick>)
    requires Served(s, scripts, others) && AskedWereAdmitted(s.trace, scripts) && !x.Called?
    ensures Served(Append(s, [x]), scripts, others)
  {
    hide Served, AskedWereAdmitted, Owners;
    SameSessionsReturnNobody(s.table.sessions, Owners(s.trace));
    ServedStays(s, Append(s, [x]), scripts, others);
  }

  lemma SamePeersServe(s: State, t: Table, scripts: seq<Script>, others: seq<PendingKick>)
    requires Served(s, scripts, others) && SamePeers(s.table.sessions, t.sessions)
    ensures Served(s.(table := t), scripts, others)
  {
    hide Live;
    forall i, k | 0 <= i < |s.trace| && AsksFor(s.trace[i], scripts, k)
      ensures k in s.kicks || k in others || !Live(t.sessions, k.playerId)
    {
      LiveSame(s.table.sessions, t.sessions, k.playerId);
    }
  }

  lemma BroadcastServes(s: State, scripts: seq<Script>, m: Message, except: uint32, others: seq<PendingKick>)
    requires Served(s, scripts, others) && AskedWereAdmitted(s.trace, scripts)
    ensures Served(Broadcast(s, m, except), scripts, others)
  {
    hide Served, AskedWereAdmitted, Owners, Uncalled, Broadcast;
    FanUncalled(s, m, except);
    BroadcastKeeps(s, m, except);
    SameSessionsReturnNobody(s.table.sessions, Owners(s.trace));
    ServedStays(s, Broadcast(s, m, except), scripts, others);
  }

  lemma RelayServes(
    s: State, scripts: seq<Script>, from: Endpoint, tick: uint64, position: Vec3, rotation: Float32,
    others: seq<PendingKick>)
    requires Served(s, scripts, others) && AskedWereAdmitted(s.trace, scripts)
    ensures Served(Relay(s, from, tick, position, rotation), scripts, others)
  {
    hide Served, AskedWereAdmitted, Broadcast;
    var (t, applied) := ApplyState(s.table, from, tick, position, rotation);
    if applied {
      var id := FindEndpoint(s.table, from).value.id;
      SamePeersServe(s, t, scripts, others);
      BroadcastServes(s.(table := t), scripts, NotifyPlayerState(id, tick, position, rotation), id, others);
    }
  }

  // Up to the callbacks of the scripts a hello only sends, and lets in nobody who was admitted before.
  lemma GreetedServes(
    s: State, scripts: seq<Script>, from: Endpoint, version: uint32, username: Bytes, now: uint64,
    others: seq<PendingKick>)
    requires Serving(s, scripts, others) && Admissions(s.trace) < LAST_ID
    requires JoinOutcome(s.table, from, username, version) == Accepted
    ensures Served(Joined(s, scripts, NewSession(s.table.nextId, username, from, now)), scripts, others)
  {
    hide Served, AskedWereAdmitted, Owners, Uncalled, Introduced, Dispatch, JoinOutcome, CallsAgree, RostersAgree,
      StatesAgree, TraceOk;
    var p := NewSession(s.table.nextId, username, from, now);
    var rr := s.table.sessions + [p];
    var t := s.table.(nextId := (s.table.nextId + 1) % TWO_32, sessions := rr);
    var s1 := s.(table := t, trace := Introduced(s.trace, s.table.sessions, p));
    ServingFacts(s, scripts);
    IntroducedUncalled(s.trace, s.table.sessions, p);
    NewcomerReturnsNobody(s.table.sessions, p, Owners(s.trace));
    ServedStays(s, s1, scripts, others);
    DispatchServes(s1, scripts, JoinEvent(p.id), others);
  }

  lemma IntroducedUncalled(trace: Trace, ss: seq<Session>, s: Session)
    ensures Uncalled(trace, Introduced(trace, ss, s))
  {
    hide Fan, Introductions, Ack;
    FanIsTalk(ss, NotifyPlayerJoined(s.id, s.username), s.id);
    IntroductionsAreTalk(ss, s.endpoint, s.id);
  }

  lemma NewcomerReturnsNobody(ss: seq<Session>, p: Session, owners: map<uint32, Identity>)
    requires p.id !in owners
    ensures NobodyReturns(ss, ss + [p], owners)
  {
    forall k | 0 <= k < |ss + [p]| && (ss + [p])[k].id in owners
      ensures Live(ss, (ss + [p])[k].id)
    {
      assert (ss + [p])[k] == ss[k];
    }
  }

  lemma RefusedServes(
    s: State, scripts: seq<Script>, from: Endpoint, version: uint32, username: Bytes, now: uint64,
    others: seq<PendingKick>)
    requires Served(s, scripts, others) && AskedWereAdmitted(s.trace, scripts)
    requires JoinOutcome(s.table, from, username, version) != Accepted
    ensures Served(Greet(s, scripts, from, version, username, now), scripts, others)
  {
    hide Served, AskedWereAdmitted, Ack, JoinOutcome, Encodable;
    var (t, result, id) := Join(s.table, from, username, version, now);
    assert s.trace + [] == s.trace;
    RefusedTable(s.table, from, username, version, now);
    SamePeersServe(s, t, scripts, others);
    ReceptionServes(s.(table := t), scripts, Sent(from, Ack(result)), others);
  }

  lemma GreetServes(
    s: State, scripts: seq<Script>, from: Endpoint, version: uint32, username: Bytes, now: uint64,
    others: seq<PendingKick>)
    requires Serving(s, scripts, others)
    requires Admissions(Greet(s, scripts, from, version, username, now).trace) <= LAST_ID
    ensures Served(Greet(s, scripts, from, version, username, now), scripts, others)
  {
    hide Served, Greet, Joined, JoinOutcome, Inv, AskedWereAdmitted;
    ServingFacts(s, scripts);
    if JoinOutcome(s.table, from, username, version) == Accepted {
      AcceptedIsJoined(s, scripts, from, version, username, now);
      JoinedGrows(s, scripts, NewSession(s.table.nextId, username, from, now));
      GreetedServes(s, scripts, from, version, username, now, others);
    } else {
      RefusedServes(s, scripts, from, version, username, now, others);
    }
  }

  lemma HandleServes(
    s: State, scripts: seq<Script>, kind: Type, from: Endpoint, data: Bytes, now: uint64, others: seq<PendingKick>)
    requires Serving(s, scripts, others)
    requires Admissions(Handle(s, scripts, kind, from, data, now).trace) <= LAST_ID
    ensures Served(Handle(s, scripts, kind, from, data, now), scripts, others)
  {
    hide Inv, Decode, Greet, Relay, AskedWereAdmitted, Encodable;
    ServingFacts(s, scripts);
    match kind {
      case HelloType =>
        match Decode(data, HelloType) {
          case Some(Hello(version, username)) => GreetServes(s, scripts, from, version, username, now, others);
          case _ =>
        }
      case PingType =>
        match Decode(data, PingType) {
          case Some(Ping(sentAt)) => ReceptionServes(s, scripts, Sent(from, Pong(sentAt)), others);
          case _ =>
        }
      case PlayerStateType =>
        match Decode(data, PlayerStateType) {
          case Some(PlayerState(tick, position, rotation)) =>
            RelayServes(s, scripts, from, tick, position, rotation, others);
          case _ =>
        }
      case _ =>
    }
  }

  lemma DatagramServes(s: State, scripts: seq<Script>, a: Arrival, now: uint64, others: seq<PendingKick>)
    requires Serving(s, scripts, others)
    requires Admissions(HandleDatagram(s, scripts, a, now).trace) <= LAST_ID
    ensures Served(HandleDatagram(s, scripts, a, now), scripts, others)
  {
    hide Inv, Decode, PeekHeader, Handle, Served, Touch, AskedWereAdmitted, SameStates;
    var x := Received(a.from, a.data, a.at);
    var s1 := Append(s, [x]);
    ServingFacts(s, scripts);
    ReceptionServes(s, scripts, x, others);
    SameKicks(s1, scripts, others);
    if PeekHeader(a.data).Some? {
      var t := Touch(s.table, a.from, now);
      QuietKeeps(s, |scripts|, x);
      TouchKeeps(s1, a.from, now, |scripts|);
      TouchSamePeers(s.table, a.from, now);
      SamePeersServe(s1, t, scripts, others);
      HandleServes(s1.(table := t), scripts, PeekHeader(a.data).value.kind, a.from, a.data, now, others);
    }
  }

  lemma TouchSamePeers(t: Table, from: Endpoint, now: uint64)
    ensures SamePeers(t.sessions, Touch(t, from, now).sessions)
  {
  }

  // The count of rejected datagrams has no part in this.
  lemma SameKicks(s: State, scripts: seq<Script>, others: seq<PendingKick>)
    requires Served(s, scripts, others)
    ensures forall n :: Served(s.(rejected := n), scripts, others)
  {
  }

  // ---------------------------------------------------------------- whole runs

  lemma BeforeDrainServes(s: State, scripts: seq<Script>, now: uint64)
    requires Serving(s, scripts, [])
    ensures Serving(BeforeDrain(s, scripts, now), scripts, [])
  {
    hide Serving, Sweep, Dispatch;
    SweepServes(s, scripts, now, []);
    TickServes(Sweep(s, scripts, now), scripts, now, []);
  }

  lemma {:induction false} RunServes(maxPlayers: nat, timeoutMs: uint64, scripts: seq<Script>, inputs: seq<Input>)
    requires IdsLast(After(maxPlayers, timeoutMs, scripts, inputs))
    ensures Serving(After(maxPlayers, timeoutMs, scripts, inputs), scripts, [])
  {
    RunKeeps(maxPlayers, timeoutMs, scripts, inputs);
    if inputs != [] {
      hide HandleDatagram, Iterate, BeforeDrain, TakeAndDrain, Inv, Served;
      var init, last := inputs[..|inputs| - 1], inputs[|inputs| - 1];
      var before := After(maxPlayers, timeoutMs, scripts, init);
      IdsLastBefore(maxPlayers, timeoutMs, scripts, inputs);
      RunServes(maxPlayers, timeoutMs, scripts, init);
      BeforeDrainServes(before, scripts, last.now);
      DrainedAreGone(BeforeDrain(before, scripts, last.now), scripts);
      IterateAtDatagram(before, scripts, last);
      if last.arrival.Some? {
        DatagramServes(AtDatagram(before, scripts, last.now), scripts, last.arrival.value, last.now, []);
      }
    } else {
      assert After(maxPlayers, timeoutMs, scripts, inputs).trace == [];
    }
  }

  // In any run, by the end of the next drain that starts, nobody is live whom a backend asked to have
  // kicked while it was handed that player live.
  lemma KickedAreGone(
    maxPlayers: nat, timeoutMs: uint64, scripts: seq<Script>, inputs: seq<Input>, now: uint64, i: nat, k: PendingKick)
    requires IdsLast(After(maxPlayers, timeoutMs, scripts, inputs))
    requires i < |BeforeDrain(After(maxPlayers, timeoutMs, scripts, inputs), scripts, now).trace|
    requires AsksFor(BeforeDrain(After(maxPlayers, timeoutMs, scripts, inputs), scripts, now).trace[i], scripts, k)
    ensures !Live(AtDatagram(After(maxPlayers, timeoutMs, scripts, inputs), scripts, now).table.sessions, k.playerId)
  {
    hide After, BeforeDrain, Serving, AsksFor;
    var s := After(maxPlayers, timeoutMs, scripts, inputs);
    RunServes(maxPlayers, timeoutMs, scripts, inputs);
    BeforeDrainServes(s, scripts, now);
    DrainedAreGone(BeforeDrain(s, scripts, now), scripts);
  }
}
