/** Who is connected: the session table of src/server/Session.cpp as a value, its operations,
    and what every sequence of them keeps. */
module Sessions {
  import opened Numbers
  import opened Protocol

  const INVALID_PLAYER: uint32 := 0

  // Ids are 32 bits wide and 0 is reserved, so this many joins get an id of their own.
  const LAST_ID: uint32 := 0xFFFF_FFFF

  datatype Endpoint = Endpoint(address: uint32, port: uint16)

  datatype Session = Session(
    id: uint32,
    username: Bytes,
    endpoint: Endpoint,
    lastSeenMs: uint64,
    hasState: bool,
    stateTick: uint64,
    position: Vec3,
    rotation: Float32)

  datatype JoinResult = Accepted | AlreadyJoined | VersionMismatch | NameTaken | Full

  datatype Table = Table(maxPlayers: nat, timeoutMs: uint64, nextId: uint32, sessions: seq<Session>)

  // ---------------------------------------------------------------- searching

  // The first session at this endpoint, or the number of sessions.
  function EndpointIndex(ss: seq<Session>, from: Endpoint): (i: nat)
    ensures i <= |ss|
    ensures forall k :: 0 <= k < i ==> ss[k].endpoint != from
    ensures i < |ss| ==> ss[i].endpoint == from
  {
    if ss == [] then 0
    else if ss[0].endpoint == from then 0
    else 1 + EndpointIndex(ss[1..], from)
  }

  function IdIndex(ss: seq<Session>, id: uint32): (i: nat)
    ensures i <= |ss|
    ensures forall k :: 0 <= k < i ==> ss[k].id != id
    ensures i < |ss| ==> ss[i].id == id
  {
    if ss == [] then 0
    else if ss[0].id == id then 0
    else 1 + IdIndex(ss[1..], id)
  }

  predicate Expired(s: Session, now: uint64, timeout: uint64) {
    now > s.lastSeenMs && Minus64(now, s.lastSeenMs) >= timeout
  }

  function ExpiredIndex(ss: seq<Session>, now: uint64, timeout: uint64): (i: nat)
    ensures i <= |ss|
    ensures forall k :: 0 <= k < i ==> !Expired(ss[k], now, timeout)
    ensures i < |ss| ==> Expired(ss[i], now, timeout)
  {
    if ss == [] then 0
    else if Expired(ss[0], now, timeout) then 0
    else 1 + ExpiredIndex(ss[1..], now, timeout)
  }

  function FindEndpoint(t: Table, from: Endpoint): Option<Session> {
    var i := EndpointIndex(t.sessions, from);
    if i < |t.sessions| then Some(t.sessions[i]) else None
  }

  function FindId(t: Table, id: uint32): Option<Session> {
    var i := IdIndex(t.sessions, id);
    if id != INVALID_PLAYER && i < |t.sessions| then Some(t.sessions[i]) else None
  }

  // ---------------------------------------------------------------- operations

  function Without(ss: seq<Session>, i: nat): (r: seq<Session>)
    requires i < |ss|
    ensures |r| == |ss| - 1
  {
    ss[..i] + ss[i + 1..]
  }

  predicate NameInUse(ss: seq<Session>, username: Bytes) {
    exists i :: 0 <= i < |ss| && ss[i].username == username
  }

  function NewSession(id: uint32, username: Bytes, from: Endpoint, now: uint64): Session {
    Session(id, username, from, now, false, 0, Vec3(0, 0, 0), 0)
  }

  // The version is checked first, then whether this peer is already in.
  function JoinOutcome(t: Table, from: Endpoint, username: Bytes, version: uint32): JoinResult {
    if version != VERSION then VersionMismatch
    else if FindEndpoint(t, from).Some? then AlreadyJoined
    else if |username| == 0 || |username| > MAX_STRING_SIZE then NameTaken
    else if NameInUse(t.sessions, username) then NameTaken
    else if |t.sessions| >= t.maxPlayers then Full
    else Accepted
  }

  function Join(t: Table, from: Endpoint, username: Bytes, version: uint32, now: uint64)
    : (Table, JoinResult, uint32)
  {
    match JoinOutcome(t, from, username, version)
    case Accepted =>
      var s := NewSession(t.nextId, username, from, now);
      (t.(nextId := (t.nextId + 1) % TWO_32, sessions := t.sessions + [s]), Accepted, s.id)
    case AlreadyJoined =>
      (Touch(t, from, now), AlreadyJoined, FindEndpoint(t, from).value.id)
    case refused =>
      (t, refused, INVALID_PLAYER)
  }

  function Touch(t: Table, from: Endpoint, now: uint64): Table {
    var i := EndpointIndex(t.sessions, from);
    if i == |t.sessions| then t
    else t.(sessions := t.sessions[i := t.sessions[i].(lastSeenMs := now)])
  }

  function TakeNextTimedOut(t: Table, now: uint64): (r: (Table, Option<Session>))
    ensures r.1.Some? ==> |r.0.sessions| == |t.sessions| - 1
  {
    var i := ExpiredIndex(t.sessions, now, t.timeoutMs);
    if i == |t.sessions| then (t, None)
    else (t.(sessions := Without(t.sessions, i)), Some(t.sessions[i]))
  }

  predicate Newer(s: Session, tick: uint64) {
    !s.hasState || tick > s.stateTick
  }

  // False when the snapshot is not newer than the one already stored.
  function ApplyState(t: Table, from: Endpoint, tick: uint64, position: Vec3, rotation: Float32): (Table, bool) {
    var i := EndpointIndex(t.sessions, from);
    if i == |t.sessions| || !Newer(t.sessions[i], tick) then (t, false)
    else
      var s := t.sessions[i].(hasState := true, stateTick := tick, position := position, rotation := rotation);
      (t.(sessions := t.sessions[i := s]), true)
  }

  function Remove(t: Table, id: uint32): (Table, bool) {
    var i := IdIndex(t.sessions, id);
    if i == |t.sessions| then (t, false)
    else (t.(sessions := Without(t.sessions, i)), true)
  }

  // ---------------------------------------------------------------- the table invariant

  predicate IdsIncrease(ss: seq<Session>) {
    forall i, j :: 0 <= i < j < |ss| ==> ss[i].id < ss[j].id
  }

  predicate EndpointsDiffer(ss: seq<Session>) {
    forall i, j :: 0 <= i < j < |ss| ==> ss[i].endpoint != ss[j].endpoint
  }

  predicate NamesDiffer(ss: seq<Session>) {
    forall i, j :: 0 <= i < j < |ss| ==> ss[i].username != ss[j].username
  }

  predicate SessionOk(s: Session, accepted: nat) {
    1 <= s.id <= accepted && 1 <= |s.username| <= MAX_STRING_SIZE
  }

  // What holds of the table after `accepted` joins have been accepted.
  predicate TableOk(t: Table, accepted: nat) {
    && accepted <= LAST_ID
    && t.nextId == (accepted + 1) % TWO_32
    && |t.sessions| <= t.maxPlayers
    && (forall i :: 0 <= i < |t.sessions| ==> SessionOk(t.sessions[i], accepted))
    && IdsIncrease(t.sessions)
    && EndpointsDiffer(t.sessions)
    && NamesDiffer(t.sessions)
  }

  // Same peers, same order; only when they were heard and what they last reported may differ.
  predicate SamePeers(ss: seq<Session>, rr: seq<Session>) {
    && |ss| == |rr|
    && forall i :: 0 <= i < |ss| ==>
         ss[i].id == rr[i].id && ss[i].username == rr[i].username && ss[i].endpoint == rr[i].endpoint
  }

  lemma SamePeersKeepTable(t: Table, t': Table, accepted: nat)
    requires TableOk(t, accepted)
    requires t' == t.(sessions := t'.sessions) && SamePeers(t.sessions, t'.sessions)
    ensures TableOk(t', accepted)
  {
  }

  lemma WithoutKeepsTable(t: Table, i: nat, accepted: nat)
    requires TableOk(t, accepted) && i < |t.sessions|
    ensures TableOk(t.(sessions := Without(t.sessions, i)), accepted)
  {
    var ss, rr := t.sessions, Without(t.sessions, i);
    assert forall k :: 0 <= k < |rr| ==> rr[k] == ss[if k < i then k else k + 1];
    hide Without;
  }

  lemma NewcomerKeepsTable(t: Table, accepted: nat, s: Session)
    requires TableOk(t, accepted) && accepted < LAST_ID && |t.sessions| < t.maxPlayers
    requires SessionOk(s, accepted + 1) && s.id == accepted + 1
    requires FindEndpoint(t, s.endpoint).None? && !NameInUse(t.sessions, s.username)
    ensures TableOk(t.(nextId := (accepted + 2) % TWO_32, sessions := t.sessions + [s]), accepted + 1)
  {
    var i := EndpointIndex(t.sessions, s.endpoint);
    assert i == |t.sessions|;
  }

  // An accepted join is the next id in order; the one after the last id is 0, "no player".
  lemma JoinKeepsTable(t: Table, accepted: nat, from: Endpoint, username: Bytes, version: uint32, now: uint64)
    requires TableOk(t, accepted)
    ensures var (t', result, id) := Join(t, from, username, version, now);
            && (result == Accepted && accepted < LAST_ID ==> TableOk(t', accepted + 1) && id == accepted + 1)
            && (result == Accepted && accepted == LAST_ID ==> id == INVALID_PLAYER)
            && (result != Accepted ==> TableOk(t', accepted))
  {
    var (t', result, id) := Join(t, from, username, version, now);
    if result == AlreadyJoined {
      SamePeersKeepTable(t, t', accepted);
    } else if result == Accepted && accepted < LAST_ID {
      NewcomerKeepsTable(t, accepted, NewSession(t.nextId, username, from, now));
    }
  }

  // ---------------------------------------------------------------- what a join decides

  predicate PeerIsIn(t: Table, from: Endpoint) {
    exists s :: s in t.sessions && s.endpoint == from
  }

  predicate NameIsFree(t: Table, username: Bytes) {
    forall s :: s in t.sessions ==> s.username != username
  }

  predicate NameIsAllowed(username: Bytes) {
    1 <= |username| <= 256
  }

  lemma PeerFound(t: Table, from: Endpoint)
    ensures FindEndpoint(t, from).Some? <==> PeerIsIn(t, from)
  {
    if PeerIsIn(t, from) {
      var s :| s in t.sessions && s.endpoint == from;
      var k :| 0 <= k < |t.sessions| && t.sessions[k] == s;
      assert EndpointIndex(t.sessions, from) <= k;
    }
    if FindEndpoint(t, from).Some? {
      assert FindEndpoint(t, from).value in t.sessions;
    }
  }

  lemma NameFound(t: Table, username: Bytes)
    ensures NameInUse(t.sessions, username) <==> !NameIsFree(t, username)
  {
    if NameInUse(t.sessions, username) {
      var i :| 0 <= i < |t.sessions| && t.sessions[i].username == username;
      assert t.sessions[i] in t.sessions;
    }
  }

  // When a join is accepted, and when it gets which refusal, on any table: a peer of another protocol
  // version first of all, then one that is in already, then names, then seats.
  lemma JoinDecides(t: Table, from: Endpoint, username: Bytes, version: uint32, now: uint64)
    ensures var result := Join(t, from, username, version, now).1;
            && (result == VersionMismatch <==> version != 2)
            && (result == AlreadyJoined <==> version == 2 && PeerIsIn(t, from))
            && (result == NameTaken <==>
                 version == 2 && !PeerIsIn(t, from) && !(NameIsAllowed(username) && NameIsFree(t, username)))
            && (result == Full <==>
                 version == 2 && !PeerIsIn(t, from) && NameIsAllowed(username) && NameIsFree(t, username)
                 && |t.sessions| >= t.maxPlayers)
            && (result == Accepted <==>
                 version == 2 && !PeerIsIn(t, from) && NameIsAllowed(username) && NameIsFree(t, username)
                 && |t.sessions| < t.maxPlayers)
  {
    hide PeerIsIn, NameIsFree, FindEndpoint, NameInUse;
    PeerFound(t, from);
    NameFound(t, username);
  }

  // What it leaves: an accepted peer at the end under the next id; a peer that was in, heard now and
  // under the id it had; nothing changed by a refusal.
  lemma JoinLeaves(t: Table, from: Endpoint, username: Bytes, version: uint32, now: uint64)
    ensures var (t', result, id) := Join(t, from, username, version, now);
            && t' == t.(sessions := t'.sessions,
                        nextId := if result == Accepted then (t.nextId + 1) % TWO_32 else t.nextId)
            && (result == Accepted ==>
                 && id == t.nextId && |t'.sessions| == |t.sessions| + 1 && t'.sessions[..|t.sessions|] == t.sessions
                 && var s := t'.sessions[|t.sessions|];
                    s.id == id && s.endpoint == from && s.username == username && s.lastSeenMs == now && !s.hasState)
            && (result == AlreadyJoined ==>
                 exists k :: 0 <= k < |t.sessions| && t.sessions[k].endpoint == from && t.sessions[k].id == id
                             && t'.sessions == t.sessions[k := t.sessions[k].(lastSeenMs := now)])
            && (result != Accepted && result != AlreadyJoined ==> t' == t && id == 0)
  {
    if JoinOutcome(t, from, username, version) == AlreadyJoined {
      var k := EndpointIndex(t.sessions, from);
      assert t.sessions[k].endpoint == from;
    }
  }

  // ---------------------------------------------------------------- lookups as maps

  // With distinct endpoints and ids each linear search finds the session with that key, the only
  // one there is, and misses exactly when there is none.
  lemma FindsAreMaps(t: Table, accepted: nat, s: Session)
    requires TableOk(t, accepted)
    ensures FindEndpoint(t, s.endpoint) == Some(s) <==> s in t.sessions
    ensures FindId(t, s.id) == Some(s) <==> s in t.sessions
  {
    if s in t.sessions {
      var k :| 0 <= k < |t.sessions| && t.sessions[k] == s;
      var i, j := EndpointIndex(t.sessions, s.endpoint), IdIndex(t.sessions, s.id);
      assert i <= k && j <= k;
    }
  }

  lemma FindsMiss(t: Table, accepted: nat, from: Endpoint, id: uint32)
    requires TableOk(t, accepted)
    ensures FindEndpoint(t, from).None? <==> forall s :: s in t.sessions ==> s.endpoint != from
    ensures FindId(t, id).None? <==> forall s :: s in t.sessions ==> s.id != id
  {
    if FindEndpoint(t, from).Some? {
      assert FindEndpoint(t, from).value in t.sessions;
    }
    if FindId(t, id).Some? {
      assert FindId(t, id).value in t.sessions;
    }
  }

  // ---------------------------------------------------------------- every sequence of operations

  datatype Operation =
    | OpJoin(from: Endpoint, username: Bytes, version: uint32, now: uint64)
    | OpTouch(from: Endpoint, now: uint64)
    | OpExpire(now: uint64)
    | OpApply(from: Endpoint, tick: uint64, position: Vec3, rotation: Float32)
    | OpRemove(id: uint32)

  // The table so far, and the ids it has issued, in order.
  datatype Progress = Progress(table: Table, issued: seq<uint32>)

  function Operate(p: Progress, op: Operation): Progress {
    var t := p.table;
    match op
    case OpJoin(from, username, version, now) =>
      var (t', result, id) := Join(t, from, username, version, now);
      Progress(t', if result == Accepted then p.issued + [id] else p.issued)
    case OpTouch(from, now) => p.(table := Touch(t, from, now))
    case OpExpire(now) => p.(table := TakeNextTimedOut(t, now).0)
    case OpApply(from, tick, position, rotation) => p.(table := ApplyState(t, from, tick, position, rotation).0)
    case OpRemove(id) => p.(table := Remove(t, id).0)
  }

  function OperateAll(p: Progress, ops: seq<Operation>): Progress {
    if ops == [] then p else Operate(OperateAll(p, ops[..|ops| - 1]), ops[|ops| - 1])
  }

  function Empty(maxPlayers: nat, timeoutMs: uint64): Progress {
    Progress(EmptyTable(maxPlayers, timeoutMs), [])
  }

  function EmptyTable(maxPlayers: nat, timeoutMs: uint64): Table {
    Table(maxPlayers, timeoutMs, 1, [])
  }

  // The table invariant, and the n-th id issued is n.
  predicate ProgressOk(p: Progress) {
    TableOk(p.table, |p.issued|) && forall n :: 0 <= n < |p.issued| ==> p.issued[n] == n + 1
  }

  lemma OperateKeepsProgress(p: Progress, op: Operation)
    requires ProgressOk(p) && |Operate(p, op).issued| <= LAST_ID
    ensures ProgressOk(Operate(p, op)) && Operate(p, op).table.maxPlayers == p.table.maxPlayers
  {
    var t, t' := p.table, Operate(p, op).table;
    match op {
      case OpJoin(from, username, version, now) => JoinKeepsTable(t, |p.issued|, from, username, version, now);
      case OpExpire(now) =>
        if t' != t {
          WithoutKeepsTable(t, ExpiredIndex(t.sessions, now, t.timeoutMs), |p.issued|);
        }
      case OpRemove(id) =>
        if t' != t {
          WithoutKeepsTable(t, IdIndex(t.sessions, id), |p.issued|);
        }
      case _ => SamePeersKeepTable(t, t', |p.issued|);
    }
  }

  // Through any sequence of operations the table invariant holds and the n-th accepted join gets
  // id n, so no id is 0 and none is issued twice, as long as the ids last.
  lemma {:induction false} TableInvariant(maxPlayers: nat, timeoutMs: uint64, ops: seq<Operation>)
    requires |OperateAll(Empty(maxPlayers, timeoutMs), ops).issued| <= LAST_ID
    ensures ProgressOk(OperateAll(Empty(maxPlayers, timeoutMs), ops))
    ensures |OperateAll(Empty(maxPlayers, timeoutMs), ops).table.sessions| <= maxPlayers
    ensures OperateAll(Empty(maxPlayers, timeoutMs), ops).table.maxPlayers == maxPlayers
  {
    if ops != [] {
      TableInvariant(maxPlayers, timeoutMs, ops[..|ops| - 1]);
      OperateKeepsProgress(OperateAll(Empty(maxPlayers, timeoutMs), ops[..|ops| - 1]), ops[|ops| - 1]);
    }
  }

  // The bound is exact: the next join to be accepted after that many gets the id that means
  // "no player", and the lookup by id cannot find it.
  lemma IdsRunOut(p: Progress, op: Operation)
    requires ProgressOk(p) && |p.issued| == LAST_ID && |Operate(p, op).issued| > LAST_ID
    ensures Operate(p, op).issued == p.issued + [INVALID_PLAYER]
    ensures FindId(Operate(p, op).table, INVALID_PLAYER) == None
  {
    JoinKeepsTable(p.table, LAST_ID, op.from, op.username, op.version, op.now);
  }

  // A hello the server accepts when it is empty.
  predicate Welcome(op: Operation) {
    op.OpJoin? && op.version == VERSION && 1 <= |op.username| <= MAX_STRING_SIZE
  }

  // The same peer joining and being removed again, n times over.
  ghost function Churn(join: Operation, n: nat): (ops: seq<Operation>)
    requires n <= LAST_ID
  {
    if n == 0 then [] else Churn(join, n - 1) + [join] + [OpRemove(n)]
  }

  lemma JoinThenRemove(p: Progress, join: Operation)
    requires p.table.sessions == [] && p.table.maxPlayers >= 1 && Welcome(join)
    ensures Operate(p, join).issued == p.issued + [p.table.nextId]
    ensures Operate(Operate(p, join), OpRemove(p.table.nextId))
            == Progress(p.table.(nextId := (p.table.nextId + 1) % TWO_32), p.issued + [p.table.nextId])
  {
    var ss := Operate(p, join).table.sessions;
    assert ss == [NewSession(p.table.nextId, join.username, join.from, join.now)];
    assert IdIndex(ss, p.table.nextId) == 0;
    assert Without(ss, 0) == [];
  }

  lemma OperateAllThenTwo(p: Progress, ops: seq<Operation>, op: Operation, op': Operation)
    ensures OperateAll(p, ops + [op] + [op']) == Operate(Operate(OperateAll(p, ops), op), op')
  {
    assert (ops + [op])[..|ops|] == ops;
    assert (ops + [op] + [op'])[..|ops| + 1] == ops + [op];
  }

  // The table is empty again and n ids have been issued.
  predicate Churned(p: Progress, q: Progress, n: nat)
    requires n <= LAST_ID
  {
    |q.issued| == n && q.table == p.table.(nextId := (n + 1) % TWO_32)
  }

  lemma ChurnOnce(p: Progress, join: Operation, n: nat, q: Progress)
    requires p.table.sessions == [] && p.table.maxPlayers >= 1 && Welcome(join)
    requires 1 <= n <= LAST_ID && Churned(p, q, n - 1)
    ensures Churned(p, Operate(Operate(q, join), OpRemove(n)), n)
  {
    assert q.table.nextId == n;
    JoinThenRemove(q, join);
    hide Operate;
  }

  lemma {:induction false} ChurnIssues(p: Progress, join: Operation, n: nat)
    requires p.table.sessions == [] && p.table.maxPlayers >= 1 && Welcome(join)
    requires p.table.nextId == 1 && p.issued == [] && n <= LAST_ID
    ensures Churned(p, OperateAll(p, Churn(join, n)), n)
  {
    if n > 0 {
      ChurnIssues(p, join, n - 1);
      ChurnOnce(p, join, n, OperateAll(p, Churn(join, n - 1)));
      OperateAllThenTwo(p, Churn(join, n - 1), join, OpRemove(n));
    }
  }

  // Every id is reached, so the bound is met by a run: after the last id, the same hello is
  // accepted with id 0.
  lemma SomeoneGetsIdZero(p: Progress, join: Operation)
    requires p.table.sessions == [] && p.table.maxPlayers >= 1 && Welcome(join)
    requires p.table.nextId == 1 && p.issued == []
    ensures var q := OperateAll(p, Churn(join, LAST_ID));
            |q.issued| == LAST_ID && Operate(q, join).issued == q.issued + [INVALID_PLAYER]
  {
    ChurnIssues(p, join, LAST_ID);
    JoinThenRemove(OperateAll(p, Churn(join, LAST_ID)), join);
  }

  // ---------------------------------------------------------------- timeouts

  // A session is dropped exactly when the clock stands at least the timeout past the moment it
  // was last heard; a clock that went back, however far, drops nobody.
  lemma ExpiredExactly(s: Session, now: uint64, timeout: uint64)
    ensures Expired(s, now, timeout) <==> now > s.lastSeenMs && now >= s.lastSeenMs + timeout
    ensures now <= s.lastSeenMs ==> !Expired(s, now, timeout)
  {
  }
}
