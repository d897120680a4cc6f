/** What kinds of entries each step of the server adds to the record of a run. */
module ServerEntries {
  import opened Numbers
  import opened Protocol
  import opened Sessions
  import opened Traces
  import opened TraceRules
  import opened Server
  import opened ServerInvariant

  // Sends and callbacks for players: nothing received, nobody admitted, no tick.
  predicate IsTalk(x: Entry) {
    x.Sent? || (x.Called? && !x.event.TickEvent?)
  }

  predicate AllTalk(entries: Trace) {
    forall i :: 0 <= i < |entries| ==> IsTalk(entries[i])
  }

  // From one trace to the other only such entries were added.
  predicate Talks(before: Trace, after: Trace) {
    before <= after && AllTalk(after[|before|..])
  }

  lemma TalksMore(before: Trace, entries: Trace)
    requires AllTalk(entries)
    ensures Talks(before, before + entries)
  {
  }

  lemma TalksOn(a: Trace, b: Trace, c: Trace)
    requires Talks(a, b) && Talks(b, c)
    ensures Talks(a, c)
  {
    hide IsTalk;
    forall i | 0 <= i < |c| - |a|
      ensures IsTalk(c[|a|..][i])
    {
      if i < |b| - |a| {
        assert c[|a|..][i] == b[|a|..][i];
      } else {
        assert c[|a|..][i] == c[|b|..][i - (|b| - |a|)];
      }
    }
  }

  lemma {:induction false} FanIsTalk(ss: seq<Session>, m: Message, except: uint32)
    ensures AllTalk(Fan(ss, m, except))
    ensures forall i :: 0 <= i < |Fan(ss, m, except)| ==> Fan(ss, m, except)[i].Sent? && Fan(ss, m, except)[i].msg == m
  {
    if ss != [] {
      FanIsTalk(ss[..|ss| - 1], m, except);
    }
  }

  lemma {:induction false} IntroductionsAreTalk(ss: seq<Session>, to: Endpoint, except: uint32)
    ensures var entries := Introductions(ss, to, except);
            AllTalk(entries)
            && forall i :: 0 <= i < |entries| ==> entries[i].Sent? && entries[i].msg.NotifyPlayerJoined?
  {
    if ss != [] {
      IntroductionsAreTalk(ss[..|ss| - 1], to, except);
    }
  }

  lemma {:induction false} CallsAreCalls(n: nat, call: nat, event: Event, live: seq<Session>)
    ensures |CallEntries(n, call, event, live)| == n
    ensures forall i :: 0 <= i < n ==> CallEntries(n, call, event, live)[i] == Called(i, call, event, live)
    ensures !event.TickEvent? ==> AllTalk(CallEntries(n, call, event, live))
  {
    if n > 0 {
      CallsAreCalls(n - 1, call, event, live);
    }
  }

  lemma DispatchTalks(s: State, scripts: seq<Script>, event: Event)
    requires !event.TickEvent?
    ensures Talks(s.trace, Dispatch(s, scripts, event).trace)
  {
    hide CallEntries, Requests, AllTalk;
    CallsAreCalls(|scripts|, s.calls, event, s.table.sessions);
    TalksMore(s.trace, CallEntries(|scripts|, s.calls, event, s.table.sessions));
  }

  lemma BroadcastTalks(s: State, m: Message, except: uint32)
    ensures Talks(s.trace, Broadcast(s, m, except).trace)
  {
    hide Fan, AllTalk, Encodable;
    FanIsTalk(s.table.sessions, m, except);
    TalksMore(s.trace, Fan(s.table.sessions, m, except));
    NoTalkIsTalk(s.trace);
  }

  lemma NoTalkIsTalk(trace: Trace)
    ensures Talks(trace, trace)
  {
  }

  lemma ReplyTalks(s: State, to: Endpoint, m: Message)
    ensures Talks(s.trace, Reply(s, to, m).trace)
  {
    hide Encodable;
    TalksMore(s.trace, [Sent(to, m)]);
    NoTalkIsTalk(s.trace);
  }

  lemma AnnounceTalks(s: State, scripts: seq<Script>, id: uint32)
    ensures Talks(s.trace, Announce(s, scripts, id).trace)
  {
    hide Talks, Dispatch, Broadcast;
    var s1 := Broadcast(s, NotifyPlayerLeft(id), id);
    BroadcastTalks(s, NotifyPlayerLeft(id), id);
    DispatchTalks(s1, scripts, LeaveEvent(id));
    TalksOn(s.trace, s1.trace, Announce(s, scripts, id).trace);
  }

  lemma {:induction false} SweepTalks(s: State, scripts: seq<Script>, now: uint64)
    ensures Talks(s.trace, Sweep(s, scripts, now).trace)
    decreases |s.table.sessions|
  {
    hide Talks, Announce;
    var (t, dropped) := TakeNextTimedOut(s.table, now);
    if dropped.None? {
      NoTalkIsTalk(s.trace);
    } else {
      var r := Announce(s.(table := t), scripts, dropped.value.id);
      AnnounceTalks(s.(table := t), scripts, dropped.value.id);
      AnnounceKeepsTable(s.(table := t), scripts, dropped.value.id);
      SweepTalks(r, scripts, now);
      TalksOn(s.trace, r.trace, Sweep(r, scripts, now).trace);
    }
  }

  lemma AnnounceKeepsTable(s: State, scripts: seq<Script>, id: uint32)
    ensures Announce(s, scripts, id).table == s.table
  {
  }

  lemma KickTalks(s: State, scripts: seq<Script>, id: uint32)
    ensures Talks(s.trace, Kick(s, scripts, id).trace)
  {
    hide Talks, Announce;
    if FindId(s.table, id).None? {
      NoTalkIsTalk(s.trace);
    } else {
      AnnounceTalks(s.(table := Remove(s.table, id).0), scripts, id);
    }
  }

  lemma {:induction false} DrainTalks(s: State, scripts: seq<Script>, batch: seq<PendingKick>)
    ensures Talks(s.trace, Drain(s, scripts, batch).trace)
  {
    hide Talks, Kick;
    if batch == [] {
      NoTalkIsTalk(s.trace);
    } else {
      var r := Drain(s, scripts, batch[..|batch| - 1]);
      DrainTalks(s, scripts, batch[..|batch| - 1]);
      KickTalks(r, scripts, batch[|batch| - 1].playerId);
      TalksOn(s.trace, r.trace, Drain(s, scripts, batch).trace);
    }
  }

  lemma IntroduceTalks(s: State, scripts: seq<Script>, id: uint32, from: Endpoint, username: Bytes)
    ensures Talks(s.trace, Introduce(s, scripts, id, from, username).trace)
  {
    hide Talks, AllTalk, Dispatch, Broadcast, Introductions;
    var s1 := Append(s, Introductions(s.table.sessions, from, id));
    var s2 := Broadcast(s1, NotifyPlayerJoined(id, username), id);
    IntroductionsAreTalk(s.table.sessions, from, id);
    TalksMore(s.trace, Introductions(s.table.sessions, from, id));
    BroadcastTalks(s1, NotifyPlayerJoined(id, username), id);
    DispatchTalks(s2, scripts, JoinEvent(id));
    TalksOn(s.trace, s1.trace, s2.trace);
    TalksOn(s.trace, s2.trace, Introduce(s, scripts, id, from, username).trace);
  }

  // The trace of a hello's handling up to its answer.
  function Admission(s: State, from: Endpoint, username: Bytes, version: uint32, now: uint64): Trace {
    var (t, result, id) := Join(s.table, from, username, version, now);
    if result == Accepted then s.trace + [Admitted(id, from, username)] else s.trace
  }

  lemma GreetTalks(
    s: State, scripts: seq<Script>, from: Endpoint, version: uint32, username: Bytes, now: uint64)
    ensures Talks(Admission(s, from, username, version, now), Greet(s, scripts, from, version, username, now).trace)
  {
    hide Talks, Join, Introduce, Reply;
    var (t, result, id) := Join(s.table, from, username, version, now);
    assert s.trace + [] == s.trace;
    var s1 := s.(table := t, trace := Admission(s, from, username, version, now));
    ReplyTalks(s1, from, Ack(result));
    if result == Accepted {
      var s2 := Reply(s1, from, Ack(result));
      IntroduceTalks(s2, scripts, id, from, username);
      TalksOn(s1.trace, s2.trace, Introduce(s2, scripts, id, from, username).trace);
    }
  }

  lemma RelayTalks(s: State, from: Endpoint, tick: uint64, position: Vec3, rotation: Float32)
    ensures Talks(s.trace, Relay(s, from, tick, position, rotation).trace)
  {
    hide Talks, Broadcast;
    var (t, applied) := ApplyState(s.table, from, tick, position, rotation);
    if applied {
      var id := FindEndpoint(s.table, from).value.id;
      BroadcastTalks(s.(table := t), NotifyPlayerState(id, tick, position, rotation), id);
    } else {
      NoTalkIsTalk(s.trace);
    }
  }

  // ---------------------------------------------------------------- ticks

  // The ticks one backend was called with.
  function Ticks(trace: Trace, b: nat): seq<uint64> {
    if trace == [] then []
    else
      var x := trace[|trace| - 1];
      if x.Called? && x.backend == b && x.event.TickEvent? then Ticks(trace[..|trace| - 1], b) + [x.event.now]
      else Ticks(trace[..|trace| - 1], b)
  }

  // An entry that is no tick callback.
  predicate Tickless(x: Entry) {
    !(x.Called? && x.event.TickEvent?)
  }

  lemma {:induction false} TicksStay(trace: Trace, more: Trace, b: nat)
    requires forall i :: 0 <= i < |more| ==> Tickless(more[i])
    ensures Ticks(trace + more, b) == Ticks(trace, b)
  {
    if more == [] {
      assert trace + more == trace;
    } else {
      TicksStay(trace, more[..|more| - 1], b);
      assert (trace + more)[..|trace + more| - 1] == trace + more[..|more| - 1];
    }
  }

  lemma TalkIsTickless(before: Trace, after: Trace, b: nat)
    requires Talks(before, after)
    ensures Ticks(after, b) == Ticks(before, b)
  {
    TicksStay(before, after[|before|..], b);
    assert before + after[|before|..] == after;
  }

  lemma {:induction false} CallTicks(trace: Trace, n: nat, call: nat, now: uint64, live: seq<Session>, b: nat)
    ensures Ticks(trace + CallEntries(n, call, TickEvent(now), live), b)
            == if b < n then Ticks(trace, b) + [now] else Ticks(trace, b)
  {
    if n == 0 {
      assert trace + CallEntries(n, call, TickEvent(now), live) == trace;
    } else {
      CallTicks(trace, n - 1, call, now, live, b);
      CallsSnoc(trace, n, call, TickEvent(now), live);
      var t := trace + CallEntries(n, call, TickEvent(now), live);
      assert t[..|t| - 1] == trace + CallEntries(n - 1, call, TickEvent(now), live);
    }
  }
}
