/** Kicks: which sessions draining a batch removes, what becomes of kicks asked for meanwhile, and
    that a kick can only hit the player a script had looked up. */
module ServerKicks {
  import opened Numbers
  import opened Protocol
  import opened Sessions
  import opened Traces
  import opened TraceRules
  import opened Server
  import opened ServerInvariant
  import opened ServerRuns
  import opened ServerTheorems

  predicate InBatch(batch: seq<PendingKick>, id: uint32) {
    exists k :: 0 <= k < |batch| && batch[k].playerId == id
  }

  lemma InBatchSnoc(batch: seq<PendingKick>, id: uint32)
    requires batch != []
    ensures InBatch(batch, id) <==> InBatch(batch[..|batch| - 1], id) || batch[|batch| - 1].playerId == id
  {
    var init := batch[..|batch| - 1];
    if InBatch(init, id) {
      var k :| 0 <= k < |init| && init[k].playerId == id;
      assert batch[k].playerId == id;
    }
    if InBatch(batch, id) {
      var k :| 0 <= k < |batch| && batch[k].playerId == id;
      if k < |init| {
        assert init[k].playerId == id;
      }
    }
  }

  predicate PositiveIds(ss: seq<Session>) {
    forall k :: 0 <= k < |ss| ==> ss[k].id != INVALID_PLAYER
  }

  // Taking one session out leaves the others, untouched and in order.
  lemma WithoutMembers(ss: seq<Session>, i: nat)
    requires i < |ss| && IdsIncrease(ss)
    ensures IdsIncrease(Without(ss, i))
    ensures forall x :: x in Without(ss, i) <==> x in ss && x != ss[i]
  {
    var rr := Without(ss, i);
    forall k | 0 <= k < |rr|
      ensures rr[k] == ss[if k < i then k else k + 1]
    {
    }
    forall x | x in ss && x != ss[i]
      ensures x in rr
    {
      var k :| 0 <= k < |ss| && ss[k] == x;
      assert rr[if k < i then k else k - 1] == x;
    }
  }

  lemma KickRemoves(s: State, scripts: seq<Script>, id: uint32)
    requires IdsIncrease(s.table.sessions) && PositiveIds(s.table.sessions)
    ensures var ss, rr := s.table.sessions, Kick(s, scripts, id).table.sessions;
            && IdsIncrease(rr) && PositiveIds(rr)
            && forall x :: x in rr <==> x in ss && x.id != id
  {
    var ss := s.table.sessions;
    var i := IdIndex(ss, id);
    if i < |ss| {
      WithoutMembers(ss, i);
    }
  }

  // Draining a batch removes exactly the sessions it names; the rest stay as they are, in order.
  lemma {:induction false} DrainRemovesExactly(s: State, scripts: seq<Script>, batch: seq<PendingKick>)
    requires IdsIncrease(s.table.sessions) && PositiveIds(s.table.sessions)
    ensures var ss, rr := s.table.sessions, Drain(s, scripts, batch).table.sessions;
            && IdsIncrease(rr) && PositiveIds(rr)
            && forall x :: x in rr <==> x in ss && !InBatch(batch, x.id)
  {
    if batch != [] {
      var init, id := batch[..|batch| - 1], batch[|batch| - 1].playerId;
      DrainRemovesExactly(s, scripts, init);
      KickRemoves(Drain(s, scripts, init), scripts, id);
      forall x: Session
        ensures InBatch(batch, x.id) <==> InBatch(init, x.id) || id == x.id
      {
        InBatchSnoc(batch, x.id);
      }
    }
  }

  // ---------------------------------------------------------------- kicks asked for while draining

  lemma {:induction false} QueueAppends(kicks: seq<PendingKick>, asked: seq<PendingKick>, t: Table)
    ensures QueueKicks(kicks, asked, t) == kicks + QueueKicks([], asked, t)
  {
    if asked != [] {
      QueueAppends(kicks, asked[..|asked| - 1], t);
    }
  }

  lemma {:induction false} RequestsAppend(
    kicks: seq<PendingKick>, scripts: seq<Script>, call: nat, event: Event, t: Table)
    ensures Requests(kicks, scripts, call, event, t) == kicks + Requests([], scripts, call, event, t)
  {
    if scripts != [] {
      var n := |scripts| - 1;
      var asked := scripts[n](call, event, t.sessions);
      RequestsAppend(kicks, scripts[..n], call, event, t);
      QueueAppends(Requests(kicks, scripts[..n], call, event, t), asked, t);
      QueueAppends(Requests([], scripts[..n], call, event, t), asked, t);
    }
  }

  // r did what s did, with q already queued before.
  predicate OnTopOf(q: seq<PendingKick>, s: State, r: State) {
    r == s.(kicks := q + s.kicks)
  }

  lemma KickOnTop(q: seq<PendingKick>, s: State, r: State, scripts: seq<Script>, id: uint32)
    requires OnTopOf(q, s, r)
    ensures OnTopOf(q, Kick(s, scripts, id), Kick(r, scripts, id))
  {
    hide Requests;
    if FindId(s.table, id).Some? {
      var t := Remove(s.table, id).0;
      RequestsAppend(s.kicks, scripts, s.calls, LeaveEvent(id), t);
      RequestsAppend(q + s.kicks, scripts, s.calls, LeaveEvent(id), t);
    }
  }

  // Draining never looks at the queue: whatever is queued meanwhile is kept, after what was there,
  // for the next batch, and changes nothing about this one.
  lemma {:induction false} DrainKeepsQueue(q: seq<PendingKick>, s: State, scripts: seq<Script>, batch: seq<PendingKick>)
    ensures OnTopOf(q, Drain(s, scripts, batch), Drain(s.(kicks := q + s.kicks), scripts, batch))
  {
    if batch != [] {
      var init := batch[..|batch| - 1];
      DrainKeepsQueue(q, s, scripts, init);
      KickOnTop(q, Drain(s, scripts, init), Drain(s.(kicks := q + s.kicks), scripts, init), scripts,
                batch[|batch| - 1].playerId);
    }
  }

  // ---------------------------------------------------------------- whom a kick was meant for

  // In this callback the backend was handed a live session with the kick's id and asked for the kick.
  predicate AsksFor(x: Entry, scripts: seq<Script>, k: PendingKick) {
    && x.Called? && x.backend < |scripts|
    && k in scripts[x.backend](x.call, x.event, x.live)
    && Live(x.live, k.playerId)
  }

  predicate AskedFor(trace: Trace, scripts: seq<Script>, k: PendingKick) {
    exists i :: 0 <= i < |trace| && AsksFor(trace[i], scripts, k)
  }

  // Every queued kick was asked for.
  predicate KicksOk(s: State, scripts: seq<Script>) {
    forall k :: 0 <= k < |s.kicks| ==> AskedFor(s.trace, scripts, s.kicks[k])
  }

  lemma AskedForStays(trace: Trace, more: Trace, scripts: seq<Script>, k: PendingKick)
    requires AskedFor(trace, scripts, k)
    ensures AskedFor(trace + more, scripts, k)
  {
    hide AsksFor;
    var i :| 0 <= i < |trace| && AsksFor(trace[i], scripts, k);
    assert (trace + more)[i] == trace[i];
  }

  lemma KicksStayOk(s: State, r: State, scripts: seq<Script>)
    requires KicksOk(s, scripts) && s.trace <= r.trace && r.kicks == s.kicks
    ensures KicksOk(r, scripts)
  {
    hide AskedFor;
    var more := r.trace[|s.trace|..];
    assert r.trace == s.trace + more;
    forall k | 0 <= k < |r.kicks|
      ensures AskedFor(r.trace, scripts, r.kicks[k])
    {
      AskedForStays(s.trace, more, scripts, s.kicks[k]);
    }
  }

  // What is queued of a list of requests was on it, and its player was live.
  lemma {:induction false} QueuedAreLive(asked: seq<PendingKick>, t: Table, k: PendingKick)
    requires k in QueueKicks([], asked, t)
    ensures k in asked && Live(t.sessions, k.playerId)
  {
    var last := asked[|asked| - 1];
    if k in QueueKicks([], asked[..|asked| - 1], t) {
      QueuedAreLive(asked[..|asked| - 1], t, k);
    } else {
      assert k == last;
      assert t.sessions[IdIndex(t.sessions, last.playerId)].id == last.playerId;
    }
  }

  // What one event adds to the queue was asked for by some backend in that round of callbacks.
  lemma {:induction false} RequestsWereAsked(
    scripts: seq<Script>, call: nat, event: Event, t: Table, k: PendingKick) returns (b: nat)
    requires k in Requests([], scripts, call, event, t)
    ensures b < |scripts| && AsksFor(Called(b, call, event, t.sessions), scripts, k)
  {
    var n := |scripts| - 1;
    var asked := scripts[n](call, event, t.sessions);
    QueueAppends(Requests([], scripts[..n], call, event, t), asked, t);
    if k in Requests([], scripts[..n], call, event, t) {
      b := RequestsWereAsked(scripts[..n], call, event, t, k);
    } else {
      b := n;
      QueuedAreLive(asked, t, k);
    }
  }

  lemma {:induction false} CallEntriesShow(n: nat, call: nat, event: Event, live: seq<Session>, b: nat)
    requires b < n
    ensures Called(b, call, event, live) in CallEntries(n, call, event, live)
  {
    if b < n - 1 {
      CallEntriesShow(n - 1, call, event, live, b);
    }
  }

  lemma NewKickOk(trace: Trace, scripts: seq<Script>, call: nat, event: Event, t: Table, k: PendingKick)
    requires k in Requests([], scripts, call, event, t)
    ensures AskedFor(trace + CallEntries(|scripts|, call, event, t.sessions), scripts, k)
  {
    hide AsksFor, CallEntries, Requests;
    var b := RequestsWereAsked(scripts, call, event, t, k);
    var entries := CallEntries(|scripts|, call, event, t.sessions);
    CallEntriesShow(|scripts|, call, event, t.sessions, b);
    var i :| 0 <= i < |entries| && entries[i] == Called(b, call, event, t.sessions);
    assert (trace + entries)[|trace| + i] == entries[i];
  }

  lemma DispatchKicksOk(s: State, scripts: seq<Script>, event: Event)
    requires KicksOk(s, scripts)
    ensures KicksOk(Dispatch(s, scripts, event), scripts)
  {
    hide AskedFor, CallEntries, Requests;
    var r := Dispatch(s, scripts, event);
    var added := Requests([], scripts, s.calls, event, s.table);
    RequestsAppend(s.kicks, scripts, s.calls, event, s.table);
    forall k | 0 <= k < |r.kicks|
      ensures AskedFor(r.trace, scripts, r.kicks[k])
    {
      if k < |s.kicks| {
        AskedForStays(s.trace, CallEntries(|scripts|, s.calls, event, s.table.sessions), scripts, s.kicks[k]);
      } else {
        assert r.kicks[k] == added[k - |s.kicks|];
        NewKickOk(s.trace, scripts, s.calls, event, s.table, r.kicks[k]);
      }
    }
  }

  lemma AnnounceKicksOk(s: State, scripts: seq<Script>, id: uint32)
    requires KicksOk(s, scripts)
    ensures KicksOk(Announce(s, scripts, id), scripts)
  {
    KicksStayOk(s, Broadcast(s, NotifyPlayerLeft(id), id), scripts);
    DispatchKicksOk(Broadcast(s, NotifyPlayerLeft(id), id), scripts, LeaveEvent(id));
  }

  lemma {:induction false} SweepKicksOk(s: State, scripts: seq<Script>, now: uint64)
    requires KicksOk(s, scripts)
    ensures KicksOk(Sweep(s, scripts, now), scripts)
    decreases |s.table.sessions|
  {
    var (t, dropped) := TakeNextTimedOut(s.table, now);
    if dropped.Some? {
      AnnounceKicksOk(s.(table := t), scripts, dropped.value.id);
      SweepKicksOk(Announce(s.(table := t), scripts, dropped.value.id), scripts, now);
    }
  }

  lemma {:induction false} DrainKicksOk(s: State, scripts: seq<Script>, batch: seq<PendingKick>)
    requires KicksOk(s, scripts)
    ensures KicksOk(Drain(s, scripts, batch), scripts)
  {
    if batch != [] {
      var r, id := Drain(s, scripts, batch[..|batch| - 1]), batch[|batch| - 1].playerId;
      DrainKicksOk(s, scripts, batch[..|batch| - 1]);
      if FindId(r.table, id).Some? {
        AnnounceKicksOk(r.(table := Remove(r.table, id).0), scripts, id);
      }
    }
  }

  lemma GreetKicksOk(s: State, scripts: seq<Script>, from: Endpoint, version: uint32, username: Bytes, now: uint64)
    requires KicksOk(s, scripts)
    ensures KicksOk(Greet(s, scripts, from, version, username, now), scripts)
  {
    var (t, result, id) := Join(s.table, from, username, version, now);
    var s1 := s.(table := t, trace := s.trace + if result == Accepted then [Admitted(id, from, username)] else []);
    var s2 := Reply(s1, from, Ack(result));
    KicksStayOk(s, s2, scripts);
    if result == Accepted {
      var s3 := Append(s2, Introductions(s2.table.sessions, from, id));
      var s4 := Broadcast(s3, NotifyPlayerJoined(id, username), id);
      KicksStayOk(s2, s4, scripts);
      DispatchKicksOk(s4, scripts, JoinEvent(id));
    }
  }

  lemma DatagramKicksOk(s: State, scripts: seq<Script>, a: Arrival, now: uint64)
    requires KicksOk(s, scripts)
    ensures KicksOk(HandleDatagram(s, scripts, a, now), scripts)
  {
    hide Decode;
    var s1 := Append(s, [Received(a.from, a.data, a.at)]);
    var s2 := s1.(table := Touch(s1.table, a.from, now));
    KicksStayOk(s, s2, scripts);
    KicksStayOk(s2, HandlePing(s2, a.from, a.data), scripts);
    KicksStayOk(s2, HandlePlayerState(s2, a.from, a.data), scripts);
    match Decode(a.data, HelloType) {
      case Some(Hello(version, username)) => GreetKicksOk(s2, scripts, a.from, version, username, now);
      case _ =>
    }
  }

  lemma IterateKicksOk(s: State, scripts: seq<Script>, input: Input)
    requires KicksOk(s, scripts)
    ensures KicksOk(Iterate(s, scripts, input), scripts)
  {
    BeforeDrainKicksOk(s, scripts, input.now);
    var s2 := BeforeDrain(s, scripts, input.now);
    DrainKicksOk(s2.(kicks := []), scripts, s2.kicks);
    if input.arrival.Some? {
      DatagramKicksOk(TakeAndDrain(s2, scripts), scripts, input.arrival.value, input.now);
    }
  }

  // The state in which an iteration takes the kick queue.
  function BeforeDrain(s: State, scripts: seq<Script>, now: uint64): State {
    Dispatch(Sweep(s, scripts, now), scripts, TickEvent(now))
  }

  lemma BeforeDrainKicksOk(s: State, scripts: seq<Script>, now: uint64)
    requires KicksOk(s, scripts)
    ensures KicksOk(BeforeDrain(s, scripts, now), scripts)
  {
    SweepKicksOk(s, scripts, now);
    DispatchKicksOk(Sweep(s, scripts, now), scripts, TickEvent(now));
  }

  lemma {:induction false} RunKicksOk(s: State, scripts: seq<Script>, inputs: seq<Input>)
    requires KicksOk(s, scripts)
    ensures KicksOk(Run(s, scripts, inputs), scripts)
  {
    if inputs != [] {
      RunKicksOk(s, scripts, inputs[..|inputs| - 1]);
      IterateKicksOk(Run(s, scripts, inputs[..|inputs| - 1]), scripts, inputs[|inputs| - 1]);
    }
  }

  // Whoever a script was shown under the id of a session that is live later is that same player.
  lemma SameIdSamePlayer(s: State, backends: nat, i: nat, p: Session, q: Session)
    requires Inv(s, backends) && i < |s.trace| && s.trace[i].Called? && p in s.trace[i].live
    requires q in s.table.sessions && q.id == p.id
    ensures q.endpoint == p.endpoint && q.username == p.username
  {
    EntryAt(s.trace, i);
    OwnersStay(s.trace, i, |s.trace|, p.id);
    assert s.trace[..|s.trace|] == s.trace;
  }

  // Some backend asked for a kick of q's id in a callback in which it was handed a live player with
  // that id, that kick is queued, and whoever any callback was handed under that id was q itself.
  predicate MeantFor(s: State, scripts: seq<Script>, q: Session) {
    && (exists k :: 0 <= k < |s.kicks| && KickOf(s, scripts, s.kicks[k], q))
    && OnlyShownAs(s.trace, q)
  }

  predicate KickOf(s: State, scripts: seq<Script>, k: PendingKick, q: Session) {
    k.playerId == q.id && AskedFor(s.trace, scripts, k)
  }

  // Whoever a callback was given under q's id is q.
  predicate OnlyShownAs(trace: Trace, q: Session) {
    forall i, p :: 0 <= i < |trace| && trace[i].Called? && p in trace[i].live && p.id == q.id ==>
      p.endpoint == q.endpoint && p.username == q.username
  }

  lemma DrainedWasMeant(s: State, scripts: seq<Script>, q: Session)
    requires Inv(s, |scripts|) && KicksOk(s, scripts)
    requires q in s.table.sessions && q !in TakeAndDrain(s, scripts).table.sessions
    ensures MeantFor(s, scripts, q)
  {
    hide AskedFor, OnlyShownAs;
    RemovedWasInBatch(s, scripts, q);
    ShownWasSame(s, |scripts|, q);
    var k :| 0 <= k < |s.kicks| && s.kicks[k].playerId == q.id;
    assert KickOf(s, scripts, s.kicks[k], q);
  }

  lemma RemovedWasInBatch(s: State, scripts: seq<Script>, q: Session)
    requires IdsIncrease(s.table.sessions) && PositiveIds(s.table.sessions)
    requires q in s.table.sessions && q !in TakeAndDrain(s, scripts).table.sessions
    ensures InBatch(s.kicks, q.id)
  {
    DrainRemovesExactly(s.(kicks := []), scripts, s.kicks);
  }

  lemma ShownWasSame(s: State, backends: nat, q: Session)
    requires Inv(s, backends) && q in s.table.sessions
    ensures OnlyShownAs(s.trace, q)
  {
    forall i, p | 0 <= i < |s.trace| && s.trace[i].Called? && p in s.trace[i].live && p.id == q.id
      ensures p.endpoint == q.endpoint && p.username == q.username
    {
      SameIdSamePlayer(s, backends, i, p, q);
    }
  }

  lemma BeforeDrainKeeps(s: State, scripts: seq<Script>, now: uint64)
    requires Inv(s, |scripts|)
    ensures Inv(BeforeDrain(s, scripts, now), |scripts|)
  {
    SweepKeeps(s, scripts, now);
    TickKeeps(Sweep(s, scripts, now), scripts, now);
  }

  // In any run, a session that draining the queue removes is one that a backend asked to have kicked
  // while it was handed that very player live: same id, same endpoint, same name, however many left
  // and joined in between.
  lemma KicksHitTheirTarget(
    maxPlayers: nat, timeoutMs: uint64, scripts: seq<Script>, inputs: seq<Input>, now: uint64, q: Session)
    requires IdsLast(After(maxPlayers, timeoutMs, scripts, inputs))
    requires var s := BeforeDrain(After(maxPlayers, timeoutMs, scripts, inputs), scripts, now);
             q in s.table.sessions && q !in TakeAndDrain(s, scripts).table.sessions
    ensures MeantFor(BeforeDrain(After(maxPlayers, timeoutMs, scripts, inputs), scripts, now), scripts, q)
  {
    var s := After(maxPlayers, timeoutMs, scripts, inputs);
    RunKeeps(maxPlayers, timeoutMs, scripts, inputs);
    RunKicksOk(Start(maxPlayers, timeoutMs), scripts, inputs);
    BeforeDrainKeeps(s, scripts, now);
    BeforeDrainKicksOk(s, scripts, now);
    DrainedWasMeant(BeforeDrain(s, scripts, now), scripts, q);
  }
}
