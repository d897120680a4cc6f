/** The record of a server run, and what can be read back from it: who was admitted, what each
    peer was told, what the scripts heard and what was last reported about a player. */
module Traces {
  import opened Numbers
  import opened Protocol
  import opened Sessions

  datatype Event = JoinEvent(id: uint32) | LeaveEvent(id: uint32) | TickEvent(now: uint64)

  datatype Entry =
    | Received(from: Endpoint, data: Bytes, at: nat)
    | Admitted(id: uint32, endpoint: Endpoint, username: Bytes)
    | Sent(to: Endpoint, msg: Message)
    | Called(backend: nat, call: nat, event: Event, live: seq<Session>)

  type Trace = seq<Entry>

  datatype Identity = Identity(endpoint: Endpoint, username: Bytes)

  // ---------------------------------------------------------------- who was admitted

  function AdmitStep(n: nat, x: Entry): nat {
    if x.Admitted? then n + 1 else n
  }

  function Admissions(trace: Trace): nat {
    if trace == [] then 0 else AdmitStep(Admissions(trace[..|trace| - 1]), trace[|trace| - 1])
  }

  function OwnerStep(m: map<uint32, Identity>, x: Entry): map<uint32, Identity> {
    if x.Admitted? then m[x.id := Identity(x.endpoint, x.username)] else m
  }

  // Which peer each id was issued to.
  function Owners(trace: Trace): map<uint32, Identity> {
    if trace == [] then map[] else OwnerStep(Owners(trace[..|trace| - 1]), trace[|trace| - 1])
  }

  // ---------------------------------------------------------------- what a peer was told

  // The player a message to a peer is about.
  function About(m: Message): Option<uint32> {
    match m
    case NotifyPlayerState(id, _, _, _) => Some(id)
    case NotifyPlayerJoined(id, _) => Some(id)
    case NotifyPlayerLeft(id) => Some(id)
    case _ => None
  }

  function Told(r: map<uint32, Bytes>, m: Message): map<uint32, Bytes> {
    match m
    case NotifyPlayerJoined(id, username) => r[id := username]
    case NotifyPlayerLeft(id) => r - {id}
    case _ => r
  }

  function RosterStep(r: map<uint32, Bytes>, x: Entry, e: Endpoint): map<uint32, Bytes> {
    match x
    case Admitted(_, endpoint, _) => if endpoint == e then map[] else r
    case Sent(to, m) => if to == e then Told(r, m) else r
    case _ => r
  }

  // The other players as told to the peer at e since it was last admitted.
  function Roster(trace: Trace, e: Endpoint): map<uint32, Bytes> {
    if trace == [] then map[] else RosterStep(Roster(trace[..|trace| - 1], e), trace[|trace| - 1], e)
  }

  // ---------------------------------------------------------------- what the scripts heard

  function EventId(event: Event): uint32 {
    match event
    case JoinEvent(id) => id
    case LeaveEvent(id) => id
    case TickEvent(_) => INVALID_PLAYER
  }

  function CallStep(c: seq<Event>, x: Entry, backend: nat, id: uint32): seq<Event> {
    if x.Called? && x.backend == backend && !x.event.TickEvent? && EventId(x.event) == id then c + [x.event] else c
  }

  // The join and leave callbacks one backend got for one player.
  function Calls(trace: Trace, backend: nat, id: uint32): seq<Event> {
    if trace == [] then []
    else CallStep(Calls(trace[..|trace| - 1], backend, id), trace[|trace| - 1], backend, id)
  }

  // ---------------------------------------------------------------- what was last reported

  function LatestStep(l: Option<Message>, x: Entry, id: uint32): Option<Message> {
    if x.Sent? && x.msg.NotifyPlayerState? && x.msg.playerId == id then Some(x.msg) else l
  }

  // The last snapshot of a player that was relayed to anyone.
  function Latest(trace: Trace, id: uint32): (l: Option<Message>)
    ensures l.Some? ==> l.value.NotifyPlayerState? && l.value.playerId == id
  {
    if trace == [] then None else LatestStep(Latest(trace[..|trace| - 1], id), trace[|trace| - 1], id)
  }

  // The server got this snapshot in a datagram from e.
  predicate Reported(trace: Trace, e: Endpoint, tick: uint64, position: Vec3, rotation: Float32) {
    exists i :: 0 <= i < |trace| && IsReport(trace[i], e, tick, position, rotation)
  }

  predicate IsReport(x: Entry, e: Endpoint, tick: uint64, position: Vec3, rotation: Float32) {
    x.Received? && x.from == e && Decode(x.data, PlayerStateType) == Some(PlayerState(tick, position, rotation))
  }

  // ---------------------------------------------------------------- what was received

  function ReceiveStep(r: Trace, x: Entry): Trace {
    if x.Received? then r + [x] else r
  }

  // The datagrams the server has taken, in order.
  function Arrivals(trace: Trace): Trace {
    if trace == [] then [] else ReceiveStep(Arrivals(trace[..|trace| - 1]), trace[|trace| - 1])
  }

  function ArrivalStep(t: nat, x: Entry, e: Endpoint): nat {
    if x.Received? && x.from == e && PeekHeader(x.data).Some? && x.at > t then x.at else t
  }

  // The latest arrival, among these, of a datagram with a valid header from e.
  function LastArrival(arrivals: Trace, e: Endpoint): nat {
    if arrivals == [] then 0
    else ArrivalStep(LastArrival(arrivals[..|arrivals| - 1], e), arrivals[|arrivals| - 1], e)
  }

  lemma LastArrivalSnoc(arrivals: Trace, x: Entry, e: Endpoint)
    ensures LastArrival(arrivals + [x], e) == ArrivalStep(LastArrival(arrivals, e), x, e)
  {
    assert (arrivals + [x])[..|arrivals|] == arrivals;
  }

  // ---------------------------------------------------------------- one more entry

  lemma Snoc(trace: Trace, x: Entry)
    ensures Admissions(trace + [x]) == AdmitStep(Admissions(trace), x)
    ensures Owners(trace + [x]) == OwnerStep(Owners(trace), x)
    ensures forall e :: Roster(trace + [x], e) == RosterStep(Roster(trace, e), x, e)
    ensures forall b, id :: Calls(trace + [x], b, id) == CallStep(Calls(trace, b, id), x, b, id)
    ensures forall id :: Latest(trace + [x], id) == LatestStep(Latest(trace, id), x, id)
    ensures Arrivals(trace + [x]) == ReceiveStep(Arrivals(trace), x)
  {
    assert (trace + [x])[..|trace|] == trace;
  }

  lemma {:induction false} AdmissionsGrow(trace: Trace, more: Trace)
    ensures Admissions(trace) <= Admissions(trace + more)
  {
    if more == [] {
      assert trace + more == trace;
    } else {
      var n := |more| - 1;
      AdmissionsGrow(trace, more[..n]);
      assert trace + more == trace + more[..n] + [more[n]];
      Snoc(trace + more[..n], more[n]);
    }
  }

  lemma AdmissionsInPrefix(trace: Trace, t: Trace)
    requires trace <= t
    ensures Admissions(trace) <= Admissions(t)
  {
    AdmissionsGrow(trace, t[|trace|..]);
    assert trace + t[|trace|..] == t;
  }

  // ---------------------------------------------------------------- messages in bulk

  // One copy of a message for every session but one.
  function Fan(ss: seq<Session>, m: Message, except: uint32): Trace {
    if ss == [] then []
    else
      var last := ss[|ss| - 1];
      Fan(ss[..|ss| - 1], m, except) + (if last.id != except then [Sent(last.endpoint, m)] else [])
  }

  // One join notice per session but one, all to the same peer.
  function Introductions(ss: seq<Session>, to: Endpoint, except: uint32): Trace {
    if ss == [] then []
    else
      var last := ss[|ss| - 1];
      var notice := NotifyPlayerJoined(last.id, last.username);
      Introductions(ss[..|ss| - 1], to, except)
      + (if last.id != except && Encodable(notice) then [Sent(to, notice)] else [])
  }

  // One event to every backend in turn.
  function CallEntries(n: nat, call: nat, event: Event, live: seq<Session>): Trace {
    if n == 0 then [] else CallEntries(n - 1, call, event, live) + [Called(n - 1, call, event, live)]
  }

  // The names of these sessions by id.
  function Names(ss: seq<Session>): map<uint32, Bytes> {
    if ss == [] then map[] else Names(ss[..|ss| - 1])[ss[|ss| - 1].id := ss[|ss| - 1].username]
  }
}
