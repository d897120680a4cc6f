/** What the invariant means over whole runs: rosters, callbacks, who is told what about whom,
    and whom a queued kick can remove. */
module ServerTheorems {
  import opened Numbers
  import opened Protocol
  import opened Sessions
  import opened Traces
  import opened TraceRules
  import opened Server
  import opened ServerInvariant
  import opened ServerRuns

  // The state after a run from an empty server.
  function After(maxPlayers: nat, timeoutMs: uint64, scripts: seq<Script>, inputs: seq<Input>): State {
    Run(Start(maxPlayers, timeoutMs), scripts, inputs)
  }

  // The run has not issued more ids than there are.
  predicate IdsLast(s: State) {
    Admissions(s.trace) <= LAST_ID
  }

  // ---------------------------------------------------------------- rosters

  lemma {:induction false} NamesValue(ss: seq<Session>, k: nat)
    requires k < |ss| && IdsIncrease(ss)
    ensures ss[k].id in Names(ss) && Names(ss)[ss[k].id] == ss[k].username
  {
    if k < |ss| - 1 {
      NamesValue(ss[..|ss| - 1], k);
    }
  }

  // r names exactly the sessions other than session k.
  predicate NamesOthers(r: map<uint32, Bytes>, ss: seq<Session>, k: nat)
    requires k < |ss|
  {
    && (forall id :: id in r ==> Live(ss, id) && id != ss[k].id)
    && (forall j :: 0 <= j < |ss| && j != k ==> ss[j].id in r && r[ss[j].id] == ss[j].username)
  }

  lemma RosterNamesOthers(trace: Trace, ss: seq<Session>, k: nat)
    requires k < |ss| && IdsIncrease(ss) && Roster(trace, ss[k].endpoint) == Names(ss) - {ss[k].id}
    ensures NamesOthers(Roster(trace, ss[k].endpoint), ss, k)
  {
    forall id | id in Names(ss)
      ensures Live(ss, id)
    {
      NamesKeys(ss, id);
    }
    forall j | 0 <= j < |ss| && j != k
      ensures ss[j].id in Names(ss) && Names(ss)[ss[j].id] == ss[j].username && ss[j].id != ss[k].id
    {
      NamesValue(ss, j);
    }
  }

  // At every loop boundary, what each live peer has been told since it was accepted adds up to
  // exactly the other live players, by id and name; nothing is missing because a name was too
  // long to send.
  lemma RostersAreExact(maxPlayers: nat, timeoutMs: uint64, scripts: seq<Script>, inputs: seq<Input>)
    requires IdsLast(After(maxPlayers, timeoutMs, scripts, inputs))
    ensures var s := After(maxPlayers, timeoutMs, scripts, inputs);
            forall k :: 0 <= k < |s.table.sessions| ==>
              NamesOthers(Roster(s.trace, s.table.sessions[k].endpoint), s.table.sessions, k)
  {
    RunKeeps(maxPlayers, timeoutMs, scripts, inputs);
    var s := After(maxPlayers, timeoutMs, scripts, inputs);
    forall k | 0 <= k < |s.table.sessions|
      ensures NamesOthers(Roster(s.trace, s.table.sessions[k].endpoint), s.table.sessions, k)
    {
      RosterNamesOthers(s.trace, s.table.sessions, k);
    }
  }

  // Inside every callback as well, and each script sees a joiner live and a leaver gone.
  lemma CallbacksSeeExactRosters(
    maxPlayers: nat, timeoutMs: uint64, scripts: seq<Script>, inputs: seq<Input>, i: nat)
    requires IdsLast(After(maxPlayers, timeoutMs, scripts, inputs))
    requires i < |After(maxPlayers, timeoutMs, scripts, inputs).trace|
    requires After(maxPlayers, timeoutMs, scripts, inputs).trace[i].Called?
    ensures var trace := After(maxPlayers, timeoutMs, scripts, inputs).trace;
            && RostersAgree(trace[..i], trace[i].live)
            && Concerns(trace[i].event, trace[i].live)
  {
    RunKeeps(maxPlayers, timeoutMs, scripts, inputs);
    var trace := After(maxPlayers, timeoutMs, scripts, inputs).trace;
    EntryAt(trace, i);
  }

  // ---------------------------------------------------------------- callbacks

  // At every loop boundary each backend has heard, of each player ever admitted, one join and,
  // if the player is gone, one leave after it; of anyone else nothing. However often it was
  // kicked or timed out, nobody leaves twice.
  lemma EachLifeHeardOnce(
    maxPlayers: nat, timeoutMs: uint64, scripts: seq<Script>, inputs: seq<Input>, b: nat, id: uint32)
    requires IdsLast(After(maxPlayers, timeoutMs, scripts, inputs)) && b < |scripts|
    ensures var s := After(maxPlayers, timeoutMs, scripts, inputs);
            Calls(s.trace, b, id) ==
            if !(1 <= id <= Admissions(s.trace)) then []
            else if Live(s.table.sessions, id) then [JoinEvent(id)]
            else [JoinEvent(id), LeaveEvent(id)]
  {
    RunKeeps(maxPlayers, timeoutMs, scripts, inputs);
    var s := After(maxPlayers, timeoutMs, scripts, inputs);
    assert Calls(s.trace, b, id) == LifeOf(s.trace, s.table.sessions, id);
  }

  // ---------------------------------------------------------------- identities

  // In a good trace an id that was issued stays issued to the same peer.
  lemma {:induction false} OwnersStay(trace: Trace, i: nat, j: nat, id: uint32)
    requires TraceOk(trace) && i <= j <= |trace| && id in Owners(trace[..i])
    ensures id in Owners(trace[..j]) && Owners(trace[..j])[id] == Owners(trace[..i])[id]
    decreases j
  {
    hide Decode;
    if i < j {
      OwnersStay(trace, i, j - 1, id);
      assert trace[..j] == trace[..j - 1] + [trace[j - 1]];
      Snoc(trace[..j - 1], trace[j - 1]);
      EntryAt(trace, j - 1);
    }
  }

  // Ids are never given to someone else: at whatever two moments of a run an id is taken, it is
  // taken by the same endpoint under the same name.
  lemma IdsKeepTheirOwner(
    maxPlayers: nat, timeoutMs: uint64, scripts: seq<Script>, inputs: seq<Input>, i: nat, j: nat, id: uint32)
    requires IdsLast(After(maxPlayers, timeoutMs, scripts, inputs))
    requires i <= j <= |After(maxPlayers, timeoutMs, scripts, inputs).trace|
    ensures var trace := After(maxPlayers, timeoutMs, scripts, inputs).trace;
            id in Owners(trace[..i]) ==> id in Owners(trace[..j]) && Owners(trace[..j])[id] == Owners(trace[..i])[id]
  {
    RunKeeps(maxPlayers, timeoutMs, scripts, inputs);
    var trace := After(maxPlayers, timeoutMs, scripts, inputs).trace;
    if id in Owners(trace[..i]) {
      OwnersStay(trace, i, j, id);
    }
  }

  lemma AdmittedOwns(trace: Trace, i: nat)
    requires i < |trace| && trace[i].Admitted?
    ensures trace[i].id in Owners(trace[..i + 1])
    ensures Owners(trace[..i + 1])[trace[i].id] == Identity(trace[i].endpoint, trace[i].username)
  {
    assert trace[..i + 1] == trace[..i] + [trace[i]];
    Snoc(trace[..i], trace[i]);
  }

  // No join, leave or state message about a player ever goes to an endpoint that player was
  // admitted at, before or after, whoever else used that endpoint.
  lemma NobodyHearsOfItself(
    maxPlayers: nat, timeoutMs: uint64, scripts: seq<Script>, inputs: seq<Input>, i: nat, j: nat)
    requires IdsLast(After(maxPlayers, timeoutMs, scripts, inputs))
    requires i < |After(maxPlayers, timeoutMs, scripts, inputs).trace|
    requires j < |After(maxPlayers, timeoutMs, scripts, inputs).trace|
    requires After(maxPlayers, timeoutMs, scripts, inputs).trace[i].Admitted?
    requires After(maxPlayers, timeoutMs, scripts, inputs).trace[j].Sent?
    ensures var trace := After(maxPlayers, timeoutMs, scripts, inputs).trace;
            About(trace[j].msg) == Some(trace[i].id) ==> trace[j].to != trace[i].endpoint
  {
    RunKeeps(maxPlayers, timeoutMs, scripts, inputs);
    NotToSelf(After(maxPlayers, timeoutMs, scripts, inputs).trace, i, j);
  }

  lemma NotToSelf(trace: Trace, i: nat, j: nat)
    requires TraceOk(trace) && i < |trace| && j < |trace| && trace[i].Admitted? && trace[j].Sent?
    ensures About(trace[j].msg) == Some(trace[i].id) ==> trace[j].to != trace[i].endpoint
  {
    if About(trace[j].msg) == Some(trace[i].id) {
      EntryAt(trace, j);
      EntryAt(trace, i);
      if j < i {
        OwnersStay(trace, j, i, trace[i].id);
      } else {
        AdmittedOwns(trace, i);
        OwnersStay(trace, i + 1, j, trace[i].id);
      }
    }
  }

  // ---------------------------------------------------------------- snapshots

  lemma LatestStepNotOlder(before: Trace, x: Entry, id: uint32)
    requires EntryOk(before, x) && Latest(before, id).Some?
    ensures Latest(before + [x], id).Some?
    ensures NotOlder(Latest(before, id), Latest(before + [x], id).value)
  {
    hide Decode;
    Snoc(before, x);
  }

  lemma {:induction false} LatestGrows(trace: Trace, i: nat, j: nat, id: uint32)
    requires TraceOk(trace) && i <= j <= |trace| && Latest(trace[..i], id).Some?
    ensures Latest(trace[..j], id).Some? && NotOlder(Latest(trace[..i], id), Latest(trace[..j], id).value)
    decreases j
  {
    hide Decode;
    if i < j {
      LatestGrows(trace, i, j - 1, id);
      assert trace[..j] == trace[..j - 1] + [trace[j - 1]];
      EntryAt(trace, j - 1);
      LatestStepNotOlder(trace[..j - 1], trace[j - 1], id);
    }
  }

  lemma LatestIsLast(trace: Trace, i: nat)
    requires i < |trace| && trace[i].Sent? && trace[i].msg.NotifyPlayerState?
    ensures Latest(trace[..i + 1], trace[i].msg.playerId) == Some(trace[i].msg)
  {
    assert trace[..i + 1] == trace[..i] + [trace[i]];
    Snoc(trace[..i], trace[i]);
  }

  lemma TicksRise(trace: Trace, i: nat, j: nat)
    requires TraceOk(trace) && i < j < |trace| && trace[i].Sent? && trace[j].Sent?
    requires trace[i].msg.NotifyPlayerState? && trace[j].msg.NotifyPlayerState?
    requires trace[i].msg.playerId == trace[j].msg.playerId
    ensures trace[i].msg == trace[j].msg || trace[i].msg.tick < trace[j].msg.tick
  {
    hide Decode;
    var id := trace[i].msg.playerId;
    LatestIsLast(trace, i);
    LatestGrows(trace, i + 1, j + 1, id);
    LatestIsLast(trace, j);
    assert NotOlder(Some(trace[i].msg), trace[j].msg);
  }

  lemma RelayWasReported(trace: Trace, j: nat)
    requires TraceOk(trace) && j < |trace| && trace[j].Sent? && trace[j].msg.NotifyPlayerState?
    ensures var m := trace[j].msg;
            && m.playerId in Owners(trace[..j])
            && Reported(trace[..j], Owners(trace[..j])[m.playerId].endpoint, m.tick, m.position, m.rotation)
            && m.playerId in Roster(trace[..j], trace[j].to)
  {
    hide Decode;
    EntryAt(trace, j);
  }

  // Entry i of the trace relays this snapshot.
  predicate Relays(trace: Trace, i: nat, m: Message) {
    i < |trace| && trace[i].Sent? && trace[i].msg == m && m.NotifyPlayerState?
  }

  // In any run, snapshots of one player are relayed in the order of their ticks, all receivers
  // together, and one tick carries one snapshot.
  lemma RelaysInOrder(
    maxPlayers: nat, timeoutMs: uint64, scripts: seq<Script>, inputs: seq<Input>,
    i: nat, j: nat, m: Message, n: Message)
    requires IdsLast(After(maxPlayers, timeoutMs, scripts, inputs)) && i < j
    requires Relays(After(maxPlayers, timeoutMs, scripts, inputs).trace, i, m)
    requires Relays(After(maxPlayers, timeoutMs, scripts, inputs).trace, j, n)
    ensures m.playerId == n.playerId ==> m == n || m.tick < n.tick
  {
    RunKeeps(maxPlayers, timeoutMs, scripts, inputs);
    if m.playerId == n.playerId {
      TicksRise(After(maxPlayers, timeoutMs, scripts, inputs).trace, i, j);
    }
  }

  // In any run, every relayed snapshot is what the player's own endpoint had reported with that
  // tick, and its receiver has that player on its roster.
  lemma RelaysAreReports(
    maxPlayers: nat, timeoutMs: uint64, scripts: seq<Script>, inputs: seq<Input>, j: nat, m: Message)
    requires IdsLast(After(maxPlayers, timeoutMs, scripts, inputs))
    requires Relays(After(maxPlayers, timeoutMs, scripts, inputs).trace, j, m)
    ensures var trace := After(maxPlayers, timeoutMs, scripts, inputs).trace;
            && m.playerId in Owners(trace[..j])
            && Reported(trace[..j], Owners(trace[..j])[m.playerId].endpoint, m.tick, m.position, m.rotation)
            && m.playerId in Roster(trace[..j], trace[j].to)
  {
    RunKeeps(maxPlayers, timeoutMs, scripts, inputs);
    RelayWasReported(After(maxPlayers, timeoutMs, scripts, inputs).trace, j);
  }
}
