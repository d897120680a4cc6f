/** Two clients and the server between them, over a network that loses, repeats and reorders in both
    directions but forges nothing of theirs: what one shows of the other is where the other was. */
module TwoClients {
  import opened Numbers
  import opened Protocol
  import opened Sessions
  import opened Traces
  import opened TraceRules
  import Server
  import opened ServerInvariant
  import opened ServerRuns
  import opened ServerTheorems
  import opened ServerArrivals
  import Client
  import Connection
  import opened World
  import opened RemoteBodies
  import EndToEnd

  // A client with its game: the network thread, the sender of local snapshots, and the frames that
  // the game has been through.
  datatype Peer = Peer(client: Client.State, sender: Sender, frames: seq<LocalFrame>)

  // Everything the peer has put on the wire.
  function AllSent(a: Peer): seq<Client.Outgoing> {
    a.client.sent + a.sender.sent
  }

  // This datagram is one the peer has sent.
  predicate SentBy(a: Peer, data: Bytes) {
    exists x :: x in AllSent(a) && Encodable(x.msg) && data == Frame(x.msg)
  }

  // The server, the client that is seen, and the client that sees it with its game: the events it has
  // taken for its next frame and the frames it has been through.
  datatype Net = Net(
    server: Server.State,
    a: Peer,
    b: Client.State,
    taken: seq<Client.RemoteEvent>,
    game: seq<GameFrame>)

  // The server's limits, and the clients' names and the moments they connect.
  datatype Setting = Setting(
    maxPlayers: nat,
    timeoutMs: uint64,
    nameA: Bytes,
    startA: uint64,
    nameB: Bytes,
    startB: uint64)

  // Where the two clients are; anyone else may send whatever it likes.
  datatype Places = Places(a: Endpoint, b: Endpoint)

  // The server goes round its loop, with a datagram that the first client did send or one of
  // somebody else; the first client's game goes through a frame; a client goes round its loop,
  // with one of the datagrams ever sent to it or without; the second client's game takes the queued
  // events, and later goes through the frame for which it took them.
  datatype Event =
    | Serve(input: Server.Input)
    | Play(now: uint64, position: Vec3)
    | TurnA(now: uint64, micros: uint64, index: Option<nat>)
    | TurnB(now: uint64, micros: uint64, index: Option<nat>)
    | TakeB
    | PumpB(now: uint64, engine: Engine)

  predicate Genuine(n: Net, at: Places, input: Server.Input) {
    input.arrival.Some? && input.arrival.value.from == at.a ==> SentBy(n.a, input.arrival.value.data)
  }

  // The datagram a turn of the client at `me` gets.
  function Delivered(trace: Trace, index: Option<nat>, me: Endpoint): Option<Bytes> {
    if index.Some? && EndToEnd.Deliverable(trace, index.value, me) then Some(Frame(trace[index.value].msg)) else None
  }

  function PlayFrame(a: Peer, now: uint64, position: Vec3): Peer {
    var connected := a.client.net == Client.Connected;
    a.(sender := SendLocalState(a.sender, now, connected, position),
       frames := a.frames + [LocalFrame(now, connected, position)])
  }

  // A datagram that the first client did not send does not come from its endpoint.
  ghost function Happen(n: Net, scripts: seq<Server.Script>, at: Places, e: Event): Net {
    match e
    case Serve(input) => if !Genuine(n, at, input) then n else n.(server := Server.Iterate(n.server, scripts, input))
    case Play(now, position) => n.(a := PlayFrame(n.a, now, position))
    case TurnA(now, micros, index) =>
      var turn := Client.Turn(now, micros, Delivered(n.server.trace, index, at.a));
      n.(a := n.a.(client := Client.Iterate(n.a.client, turn)))
    case TurnB(now, micros, index) =>
      n.(b := Client.Iterate(n.b, Client.Turn(now, micros, Delivered(n.server.trace, index, at.b))))
    case TakeB => n.(taken := n.taken + n.b.events, b := n.b.(events := []))
    case PumpB(now, engine) =>
      n.(taken := [], game := n.game + [GameFrame(now, n.taken, n.b.remote, engine)])
  }

  ghost function HappenAll(n: Net, scripts: seq<Server.Script>, at: Places, events: seq<Event>): Net {
    if events == [] then n
    else Happen(HappenAll(n, scripts, at, events[..|events| - 1]), scripts, at, events[|events| - 1])
  }

  function NewPeer(username: Bytes, now: uint64): Peer {
    Peer(Client.Connect(username, now), Sender(0, 0, []), [])
  }

  function Begin(w: Setting): Net {
    Net(Server.Start(w.maxPlayers, w.timeoutMs), NewPeer(w.nameA, w.startA), Client.Connect(w.nameB, w.startB), [], [])
  }

  // ---------------------------------------------------------------- what the first client sends

  predicate NoStates(sent: seq<Client.Outgoing>) {
    forall k :: 0 <= k < |sent| ==> !sent[k].msg.PlayerState?
  }

  // Its thread sends hellos and pings only, and what its game sends follows from its frames.
  predicate PeerOk(a: Peer) {
    NoStates(a.client.sent) && a.sender == SendAll(a.frames)
  }

  lemma TimersSendNoStates(c: Client.State, now: uint64, micros: uint64)
    requires NoStates(c.sent)
    ensures NoStates(Client.Timers(c, now, micros).sent) && c.sent <= Client.Timers(c, now, micros).sent
  {
  }

  lemma TurnSendsNoStates(c: Client.State, turn: Client.Turn)
    requires NoStates(c.sent)
    ensures NoStates(Client.Iterate(c, turn).sent) && c.sent <= Client.Iterate(c, turn).sent
  {
    hide Client.Timers, Client.HandleDatagram;
    if c.running {
      var c1 := Client.Timers(c, turn.now, turn.micros);
      TimersSendNoStates(c, turn.now, turn.micros);
      if turn.datagram.Some? {
        Connection.ReceiveSendsNothing(Client.Hear(c1, turn.now), turn.datagram.value);
      }
    }
  }

  lemma PlayKeepsPeer(a: Peer, now: uint64, position: Vec3)
    requires PeerOk(a)
    ensures PeerOk(PlayFrame(a, now, position)) && a.sender.sent <= PlayFrame(a, now, position).sender.sent
  {
    var f := LocalFrame(now, a.client.net == Client.Connected, position);
    assert (a.frames + [f])[..|a.frames|] == a.frames;
  }

  // A peer that has sent more.
  predicate SentMore(a: Peer, a': Peer) {
    a.client.sent <= a'.client.sent && a.sender.sent <= a'.sender.sent
  }

  lemma SentByStays(a: Peer, a': Peer, data: Bytes)
    requires SentMore(a, a') && SentBy(a, data)
    ensures SentBy(a', data)
  {
    hide Frame, Encodable;
    var x :| x in AllSent(a) && Encodable(x.msg) && data == Frame(x.msg);
    assert x in AllSent(a');
  }

  // ---------------------------------------------------------------- the invariant

  // Whatever the server has received from the first client's endpoint, that client sent.
  predicate ArrivalsGenuine(arrivals: Trace, a: Peer, from: Endpoint) {
    forall k :: 0 <= k < |arrivals| && arrivals[k].Received? && arrivals[k].from == from ==> SentBy(a, arrivals[k].data)
  }

  lemma ArrivalsStayGenuine(arrivals: Trace, a: Peer, a': Peer, from: Endpoint)
    requires ArrivalsGenuine(arrivals, a, from) && SentMore(a, a')
    ensures ArrivalsGenuine(arrivals, a', from)
  {
    hide SentBy;
    forall k | 0 <= k < |arrivals| && arrivals[k].Received? && arrivals[k].from == from
      ensures SentBy(a', arrivals[k].data)
    {
      SentByStays(a, a', arrivals[k].data);
    }
  }

  predicate FirstOk(n: Net, at: Places) {
    PeerOk(n.a) && ArrivalsGenuine(Arrivals(n.server.trace), n.a, at.a)
  }

  lemma ServeKeepsFirst(n: Net, scripts: seq<Server.Script>, at: Places, input: Server.Input)
    requires FirstOk(n, at) && Genuine(n, at, input)
    ensures FirstOk(n.(server := Server.Iterate(n.server, scripts, input)), at)
  {
    hide SentBy, Server.Iterate;
    IterateReceives(n.server, scripts, input);
  }

  lemma ClientKeepsFirst(n: Net, at: Places, a': Peer)
    requires FirstOk(n, at) && PeerOk(a') && SentMore(n.a, a')
    ensures FirstOk(n.(a := a'), at)
  {
    ArrivalsStayGenuine(Arrivals(n.server.trace), n.a, a', at.a);
  }

  lemma HappenKeepsFirst(n: Net, scripts: seq<Server.Script>, at: Places, e: Event)
    requires FirstOk(n, at)
    ensures FirstOk(Happen(n, scripts, at, e), at)
  {
    hide ArrivalsGenuine, Server.Iterate, Client.Iterate, PlayFrame, NoStates;
    match e {
      case Serve(input) =>
        if Genuine(n, at, input) {
          ServeKeepsFirst(n, scripts, at, input);
        }
      case Play(now, position) =>
        PlayKeepsPeer(n.a, now, position);
        PlayKeepsClient(n.a, now, position);
        ClientKeepsFirst(n, at, PlayFrame(n.a, now, position));
      case TurnA(now, micros, index) =>
        var turn := Client.Turn(now, micros, Delivered(n.server.trace, index, at.a));
        TurnSendsNoStates(n.a.client, turn);
        ClientKeepsFirst(n, at, n.a.(client := Client.Iterate(n.a.client, turn)));
      case _ =>
    }
  }

  lemma PlayKeepsClient(a: Peer, now: uint64, position: Vec3)
    ensures PlayFrame(a, now, position).client == a.client
  {
  }

  lemma {:induction false} FirstStaysOk(n: Net, scripts: seq<Server.Script>, at: Places, events: seq<Event>)
    requires FirstOk(n, at)
    ensures FirstOk(HappenAll(n, scripts, at, events), at)
  {
    if events != [] {
      FirstStaysOk(n, scripts, at, events[..|events| - 1]);
      HappenKeepsFirst(HappenAll(n, scripts, at, events[..|events| - 1]), scripts, at, events[|events| - 1]);
    }
  }

  lemma BeginFirstOk(w: Setting, at: Places)
    ensures FirstOk(Begin(w), at)
  {
  }

  // ---------------------------------------------------------------- the second client's share

  // What the server and the second client alone go through.
  ghost function Share(n: Net, scripts: seq<Server.Script>, at: Places, e: Event): seq<EndToEnd.Event> {
    match e
    case Serve(input) => if Genuine(n, at, input) then [EndToEnd.Serve(input)] else []
    case TurnB(now, micros, index) =>
      if index.Some? && EndToEnd.Deliverable(n.server.trace, index.value, at.b)
      then [EndToEnd.Deliver(index.value, now, micros)] else [EndToEnd.Wait(now, micros)]
    case TakeB => [EndToEnd.Take]
    case _ => []
  }

  ghost function Shares(n: Net, scripts: seq<Server.Script>, at: Places, events: seq<Event>): seq<EndToEnd.Event> {
    if events == [] then []
    else
      var init := events[..|events| - 1];
      Shares(n, scripts, at, init) + Share(HappenAll(n, scripts, at, init), scripts, at, events[|events| - 1])
  }

  function Seen(n: Net): EndToEnd.System {
    EndToEnd.System(n.server, n.b)
  }

  lemma OneShare(n: Net, scripts: seq<Server.Script>, at: Places, e: Event)
    ensures var share := Share(n, scripts, at, e);
            if share == [] then Seen(Happen(n, scripts, at, e)) == Seen(n)
            else |share| == 1 && Seen(Happen(n, scripts, at, e)) == EndToEnd.Happen(Seen(n), scripts, at.b, share[0])
  {
    hide Server.Iterate, Client.Iterate, SentBy, Frame, Encodable;
  }

  lemma HappenOne(
    s: EndToEnd.System, scripts: seq<Server.Script>, me: Endpoint,
    before: seq<EndToEnd.Event>, e: EndToEnd.Event)
    ensures EndToEnd.HappenAll(s, scripts, me, before + [e])
            == EndToEnd.Happen(EndToEnd.HappenAll(s, scripts, me, before), scripts, me, e)
  {
    hide EndToEnd.Happen;
    assert (before + [e])[..|before|] == before;
  }

  // The whole system seen from the second client is a run of the server and that client alone.
  lemma {:induction false} SharesAddUp(n: Net, scripts: seq<Server.Script>, at: Places, events: seq<Event>)
    ensures Seen(HappenAll(n, scripts, at, events))
            == EndToEnd.HappenAll(Seen(n), scripts, at.b, Shares(n, scripts, at, events))
  {
    if events != [] {
      hide Happen, Share, EndToEnd.Happen;
      var init, last := events[..|events| - 1], events[|events| - 1];
      var before := HappenAll(n, scripts, at, init);
      var share := Share(before, scripts, at, last);
      SharesAddUp(n, scripts, at, init);
      OneShare(before, scripts, at, last);
      if share == [] {
        assert Shares(n, scripts, at, init) + share == Shares(n, scripts, at, init);
      } else {
        assert share == [share[0]];
        HappenOne(Seen(n), scripts, at.b, Shares(n, scripts, at, init), share[0]);
      }
    }
  }

  // ---------------------------------------------------------------- what is seen was there

  // The k-th snapshot the first client's game sent is this one, taken in some frame of its game.
  predicate IsSent(a: Peer, k: nat, r: Client.RemoteSnapshot) {
    && k < |a.sender.sent|
    && a.sender.sent[k].msg == PlayerState(r.tick, r.position, r.rotation)
    && r.tick == (k + 1) % TWO_64
    && FromSomeFrame(a.frames, a.sender.sent[k])
  }

  lemma SentStateIsNumbered(a: Peer, x: Client.Outgoing, r: Client.RemoteSnapshot)
    requires PeerOk(a) && x in AllSent(a) && x.msg == PlayerState(r.tick, r.position, r.rotation)
    ensures exists k :: IsSent(a, k, r)
  {
    hide SendAll;
    if x in a.client.sent {
      assert false;
    }
    var k :| 0 <= k < |a.sender.sent| && a.sender.sent[k] == x;
    LocalStatesAreNumbered(a.frames);
    LocalStatesAreSeen(a.frames, x);
    assert IsSent(a, k, r);
  }

  lemma GenuineState(a: Peer, data: Bytes, m: Message)
    requires SentBy(a, data) && Decode(data, PlayerStateType) == Some(m)
    ensures exists x :: x in AllSent(a) && x.msg == m
  {
    hide Decode, Frame, Encodable;
    var x :| x in AllSent(a) && Encodable(x.msg) && data == Frame(x.msg);
    RoundTrip(x.msg, PlayerStateType);
    assert x.msg == m;
  }

  lemma ReportedWasSent(n: Net, at: Places, r: Client.RemoteSnapshot)
    requires FirstOk(n, at) && Reported(n.server.trace, at.a, r.tick, r.position, r.rotation)
    ensures exists k :: IsSent(n.a, k, r)
  {
    hide Decode, SentBy, IsSent, PeerOk;
    var trace := n.server.trace;
    var i :| 0 <= i < |trace| && IsReport(trace[i], at.a, r.tick, r.position, r.rotation);
    ArrivalsListed(trace, trace[i]);
    var k :| 0 <= k < |Arrivals(trace)| && Arrivals(trace)[k] == trace[i];
    assert SentBy(n.a, trace[i].data);
    var m := PlayerState(r.tick, r.position, r.rotation);
    GenuineState(n.a, trace[i].data, m);
    var x :| x in AllSent(n.a) && x.msg == m;
    SentStateIsNumbered(n.a, x, r);
  }

  // The second client holds a snapshot of a player that belongs to the first client.
  predicate Holds(n: Net, at: Places, p: uint32) {
    && p in n.b.remote
    && p in Owners(n.server.trace) && Owners(n.server.trace)[p].endpoint == at.a
  }

  // A run from the start.
  ghost function Whole(
    w: Setting, scripts: seq<Server.Script>, at: Places, events: seq<Event>): Net
  {
    HappenAll(Begin(w), scripts, at, events)
  }

  // Whatever the network does: what the second client holds of the first is a snapshot the first
  // one's game sent, at a position of one of its frames; and with fewer than 2^64 of them sent it
  // carries a tick of at least 1, so the client never mistakes it for none.
  lemma HeldWasThere(
    w: Setting, scripts: seq<Server.Script>, at: Places, events: seq<Event>, p: uint32)
    requires var n := Whole(w, scripts, at, events);
             IdsLast(n.server) && Holds(n, at, p)
    ensures var n := Whole(w, scripts, at, events);
            && (exists k :: IsSent(n.a, k, n.b.remote[p]))
            && n.b.remote[p].rotation == 0
            && (|n.a.sender.sent| < TWO_64 ==> n.b.remote[p].tick >= 1)
  {
    hide IsSent, Happen, Reported;
    var start := Begin(w);
    var n := Whole(w, scripts, at, events);
    BeginFirstOk(w, at);
    FirstStaysOk(start, scripts, at, events);
    SharesAddUp(start, scripts, at, events);
    EndToEnd.HeldIsReported(w.maxPlayers, w.timeoutMs, w.nameB, w.startB, scripts, at.b,
                            Shares(start, scripts, at, events), p);
    ReportedWasSent(n, at, n.b.remote[p]);
    var k :| IsSent(n.a, k, n.b.remote[p]);
    SentIsPlain(n.a, k, n.b.remote[p]);
  }

  lemma SentIsPlain(a: Peer, k: nat, r: Client.RemoteSnapshot)
    requires IsSent(a, k, r)
    ensures r.rotation == 0
    ensures |a.sender.sent| < TWO_64 ==> r.tick == k + 1
  {
  }

  // ---------------------------------------------------------------- and in that order

  lemma {:induction false} HappenAllInTwo(
    n: Net, scripts: seq<Server.Script>, at: Places, first: seq<Event>, second: seq<Event>)
    ensures HappenAll(n, scripts, at, first + second)
            == HappenAll(HappenAll(n, scripts, at, first), scripts, at, second)
  {
    hide Happen;
    if second == [] {
      assert first + second == first;
    } else {
      var k := |second| - 1;
      HappenAllInTwo(n, scripts, at, first, second[..k]);
      assert (first + second)[..|first| + k] == first + second[..k];
    }
  }

  // The server has recorded more, the first client has sent more, and both games have gone on.
  predicate Later(n: Net, n': Net) {
    && n.server.trace <= n'.server.trace && n.game <= n'.game
    && SentMore(n.a, n'.a) && n.a.frames <= n'.a.frames
  }

  lemma HappenIsLater(n: Net, scripts: seq<Server.Script>, at: Places, e: Event)
    requires FirstOk(n, at)
    ensures Later(n, Happen(n, scripts, at, e))
  {
    hide SentBy, Server.Iterate, Client.Iterate, PlayFrame, NoStates, SendAll, ArrivalsGenuine;
    match e {
      case Serve(input) => IterateExtends(n.server, scripts, input);
      case Play(now, position) =>
        PlayKeepsPeer(n.a, now, position);
        PlayKeepsClient(n.a, now, position);
        PlayAddsFrame(n.a, now, position);
      case TurnA(now, micros, index) =>
        TurnSendsNoStates(n.a.client, Client.Turn(now, micros, Delivered(n.server.trace, index, at.a)));
      case _ =>
    }
  }

  lemma PlayAddsFrame(a: Peer, now: uint64, position: Vec3)
    ensures a.frames <= PlayFrame(a, now, position).frames
  {
  }

  lemma {:induction false} HappenAllIsLater(n: Net, scripts: seq<Server.Script>, at: Places, events: seq<Event>)
    requires FirstOk(n, at)
    ensures Later(n, HappenAll(n, scripts, at, events))
  {
    hide Happen, FirstOk;
    if events != [] {
      var before := HappenAll(n, scripts, at, events[..|events| - 1]);
      HappenAllIsLater(n, scripts, at, events[..|events| - 1]);
      FirstStaysOk(n, scripts, at, events[..|events| - 1]);
      HappenIsLater(before, scripts, at, events[|events| - 1]);
    }
  }

  lemma IsSentStays(a: Peer, a': Peer, k: nat, r: Client.RemoteSnapshot)
    requires IsSent(a, k, r) && SentMore(a, a') && a.frames <= a'.frames
    ensures IsSent(a', k, r)
  {
    hide Shows;
    var i :| 0 <= i < |a.frames| && Shows(a.sender.sent[k], a.frames[i]);
    assert Shows(a'.sender.sent[k], a'.frames[i]);
  }

  // None of these events delivers to the second client the news that p left.
  ghost predicate LeaveUnheard(n: Net, scripts: seq<Server.Script>, at: Places, events: seq<Event>, p: uint32) {
    EndToEnd.LeaveNotDelivered(Seen(n), scripts, at.b, Shares(n, scripts, at, events), p)
  }

  // One snapshot was sent with or before another; they differ only if it was sent before.
  ghost predicate SentInOrder(a: Peer, r: Client.RemoteSnapshot, r': Client.RemoteSnapshot) {
    exists j: nat, k: nat :: IsSent(a, j, r) && IsSent(a, k, r') && j <= k && (r != r' ==> j < k)
  }

  lemma OrderOfTicks(a: Peer, r: Client.RemoteSnapshot, r': Client.RemoteSnapshot, j: nat, k: nat)
    requires IsSent(a, j, r) && IsSent(a, k, r') && |a.sender.sent| < TWO_64
    requires r == r' || r.tick < r'.tick
    ensures SentInOrder(a, r, r')
  {
    SentIsPlain(a, j, r);
    SentIsPlain(a, k, r');
  }

  lemma NotRewoundOver(
    w: Setting, scripts: seq<Server.Script>, at: Places, events: seq<Event>, more: seq<Event>, p: uint32)
    requires var n := Whole(w, scripts, at, events);
             IdsLast(HappenAll(n, scripts, at, more).server) && IdsLast(n.server)
             && LeaveUnheard(n, scripts, at, more, p)
    ensures var n := Whole(w, scripts, at, events);
            && EndToEnd.NotRewound(n.b.remote, HappenAll(n, scripts, at, more).b.remote, p)
            && TraceOk(HappenAll(n, scripts, at, more).server.trace)
  {
    hide Happen, TraceOk;
    var start := Begin(w);
    var n := Whole(w, scripts, at, events);
    StartHolds(w.maxPlayers, w.timeoutMs, |scripts|);
    SharesAddUp(start, scripts, at, events);
    EndToEnd.SystemKeeps(Seen(start), scripts, at.b, Shares(start, scripts, at, events));
    SharesAddUp(n, scripts, at, more);
    EndToEnd.SystemKeeps(Seen(n), scripts, at.b, Shares(n, scripts, at, more));
    EndToEnd.NoRewind(Seen(n), scripts, at.b, Shares(n, scripts, at, more), p);
  }

  lemma HoldsStays(n: Net, n': Net, at: Places, p: uint32)
    requires Holds(n, at, p) && n.server.trace <= n'.server.trace && TraceOk(n'.server.trace) && p in n'.b.remote
    ensures Holds(n', at, p)
  {
    hide TraceOk, Owners;
    var t := n'.server.trace;
    assert t[..|n.server.trace|] == n.server.trace && t[..|t|] == t;
    OwnersStay(t, |n.server.trace|, |t|, p);
  }

  // Until it hears that the first client's player left, the second client shows that player at
  // positions in the order in which the first client's game sent them, never going back to an
  // earlier one, however the network loses, repeats and reorders.
  lemma SeenInOrder(
    w: Setting, scripts: seq<Server.Script>, at: Places, events: seq<Event>, more: seq<Event>, p: uint32)
    requires var n := Whole(w, scripts, at, events);
             var n' := Whole(w, scripts, at, events + more);
             && IdsLast(n'.server) && |n'.a.sender.sent| < TWO_64
             && Holds(n, at, p) && LeaveUnheard(n, scripts, at, more, p)
    ensures var n := Whole(w, scripts, at, events);
            var n' := Whole(w, scripts, at, events + more);
            Holds(n', at, p) && SentInOrder(n'.a, n.b.remote[p], n'.b.remote[p])
  {
    hide Happen, HappenAll, IsSent, TraceOk, Admissions, Owners, LeaveUnheard, FirstOk;
    var start := Begin(w);
    var n := Whole(w, scripts, at, events);
    var n' := Whole(w, scripts, at, events + more);
    HappenAllInTwo(start, scripts, at, events, more);
    BeginFirstOk(w, at);
    FirstStaysOk(start, scripts, at, events);
    HappenAllIsLater(n, scripts, at, more);
    AdmissionsInPrefix(n.server.trace, n'.server.trace);
    NotRewoundOver(w, scripts, at, events, more, p);
    HoldsStays(n, n', at, p);
    HeldWasThere(w, scripts, at, events, p);
    HeldWasThere(w, scripts, at, events + more, p);
    var j :| IsSent(n.a, j, n.b.remote[p]);
    var k :| IsSent(n'.a, k, n'.b.remote[p]);
    IsSentStays(n.a, n'.a, j, n.b.remote[p]);
    OrderOfTicks(n'.a, n.b.remote[p], n'.b.remote[p], j, k);
  }
}
