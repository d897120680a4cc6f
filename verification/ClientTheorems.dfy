/** What must come of the messages a client handles: the connection follows the last answer, the
    snapshot held of a player is the newest since it was last known gone, and nothing is dropped. */
module ClientTheorems {
  import opened Numbers
  import opened Protocol
  import opened Client
  import opened Connection

  // ---------------------------------------------------------------- the messages handled

  // The message in a datagram, of whatever type its header names.
  function Understood(data: Bytes): Option<Message> {
    var header := PeekHeader(data);
    if header.None? then None else Decode(data, header.value.kind)
  }

  // The loop is still running when this turn's datagram comes.
  predicate Handles(c: State, turn: Turn) {
    c.running && Timers(c, turn.now, turn.micros).running && turn.datagram.Some?
  }

  // The messages a run has handled, in order.
  function Handled(c: State, turns: seq<Turn>): seq<Message> {
    if turns == [] then []
    else
      var init, last := turns[..|turns| - 1], turns[|turns| - 1];
      if !Handles(Run(c, init), last) || Understood(last.datagram.value).None? then Handled(c, init)
      else Handled(c, init) + [Understood(last.datagram.value).value]
  }

  lemma DecodedKind(data: Bytes, t: Type)
    ensures Decode(data, t).Some? ==> TypeOf(Decode(data, t).value) == t
  {
    hide TakeBody;
    PeekHeaderExact(data);
    if |data| >= HEADER_SIZE {
      TakeBodyKind(AfterHeader(data), t);
    }
  }

  // A datagram does what its message does; one without a message is only counted.
  lemma DatagramIsMessage(c: State, data: Bytes)
    ensures HandleDatagram(c, data)
            == match Understood(data)
               case None => c.(malformed := c.malformed + 1)
               case Some(m) => HandleMessage(c, m)
  {
    hide Decode, PeekHeader;
    var header := PeekHeader(data);
    if header.Some? {
      DecodedKind(data, header.value.kind);
    }
  }

  // ---------------------------------------------------------------- what they say

  // The last answer to a hello, if there was one: whether it accepted.
  function LastAnswer(ms: seq<Message>): Option<bool> {
    if ms == [] then None
    else
      var m := ms[|ms| - 1];
      if m.HelloAck? then Some(m.accepted) else LastAnswer(ms[..|ms| - 1])
  }

  // The snapshots of p since the last message that p left.
  function Snapshots(ms: seq<Message>, p: uint32): seq<RemoteSnapshot> {
    if ms == [] then []
    else
      var m := ms[|ms| - 1];
      if m == NotifyPlayerLeft(p) then []
      else if m.NotifyPlayerState? && m.playerId == p then
        Snapshots(ms[..|ms| - 1], p) + [RemoteSnapshot(m.tick, m.position, m.rotation)]
      else Snapshots(ms[..|ms| - 1], p)
  }

  // The joins and leaves, in order.
  function News(ms: seq<Message>): seq<RemoteEvent> {
    if ms == [] then []
    else
      match ms[|ms| - 1]
      case NotifyPlayerJoined(id, username) => News(ms[..|ms| - 1]) + [RemoteEvent(true, id, username)]
      case NotifyPlayerLeft(id) => News(ms[..|ms| - 1]) + [RemoteEvent(false, id, [])]
      case _ => News(ms[..|ms| - 1])
  }

  function Pongs(ms: seq<Message>): nat {
    if ms == [] then 0 else Pongs(ms[..|ms| - 1]) + if ms[|ms| - 1].Pong? then 1 else 0
  }

  lemma MessagesSnoc(ms: seq<Message>, m: Message)
    ensures (ms + [m])[..|ms|] == ms
  {
  }

  // ---------------------------------------------------------------- the newest snapshot

  // r is the i-th of these, no tick is higher, and it was the first with its tick; ticks 0 are
  // taken for none, so of these the last counts.
  predicate NewestAt(ss: seq<RemoteSnapshot>, r: RemoteSnapshot, i: nat) {
    && i < |ss| && ss[i] == r
    && (forall j :: 0 <= j < |ss| ==> ss[j].tick <= r.tick)
    && (forall j :: 0 <= j < i ==> r.tick > 0 ==> ss[j].tick < r.tick)
    && (r.tick == 0 ==> i == |ss| - 1)
  }

  predicate Newest(ss: seq<RemoteSnapshot>, r: RemoteSnapshot) {
    exists i :: 0 <= i < |ss| && NewestAt(ss, r, i)
  }

  // Held of p is the newest of these, or nothing if there are none.
  predicate HoldsNewest(remote: map<uint32, RemoteSnapshot>, p: uint32, ss: seq<RemoteSnapshot>) {
    && (p in remote <==> ss != [])
    && (p in remote ==> Newest(ss, remote[p]))
  }

  // There is only one newest.
  lemma NewestIsUnique(ss: seq<RemoteSnapshot>, r: RemoteSnapshot, r': RemoteSnapshot)
    requires Newest(ss, r) && Newest(ss, r')
    ensures r == r'
  {
    var i :| 0 <= i < |ss| && NewestAt(ss, r, i);
    var j :| 0 <= j < |ss| && NewestAt(ss, r', j);
    assert ss[i].tick <= r'.tick && ss[j].tick <= r.tick;
  }

  lemma NewestStays(ss: seq<RemoteSnapshot>, r: RemoteSnapshot, s: RemoteSnapshot)
    requires Newest(ss, r) && r.tick != 0 && s.tick <= r.tick
    ensures Newest(ss + [s], r)
  {
    var i :| 0 <= i < |ss| && NewestAt(ss, r, i);
    assert forall j :: 0 <= j < |ss| ==> (ss + [s])[j] == ss[j];
    assert NewestAt(ss + [s], r, i);
  }

  lemma NewestReplaced(ss: seq<RemoteSnapshot>, r: RemoteSnapshot, s: RemoteSnapshot)
    requires Newest(ss, r) && (r.tick == 0 || s.tick > r.tick)
    ensures Newest(ss + [s], s)
  {
    var i :| 0 <= i < |ss| && NewestAt(ss, r, i);
    assert forall j :: 0 <= j < |ss| ==> (ss + [s])[j] == ss[j];
    assert NewestAt(ss + [s], s, |ss|);
  }

  lemma MergeNewest(remote: map<uint32, RemoteSnapshot>, p: uint32, ss: seq<RemoteSnapshot>, s: RemoteSnapshot)
    requires HoldsNewest(remote, p, ss)
    ensures HoldsNewest(Merge(remote, p, s), p, ss + [s])
  {
    if p !in remote {
      assert NewestAt(ss + [s], s, 0);
    } else {
      hide Newest;
      if remote[p].tick != 0 && s.tick <= remote[p].tick {
        NewestStays(ss, remote[p], s);
      } else {
        NewestReplaced(ss, remote[p], s);
      }
    }
  }

  lemma MergeLeavesOthers(
    remote: map<uint32, RemoteSnapshot>, p: uint32, s: RemoteSnapshot, q: uint32, ss: seq<RemoteSnapshot>)
    requires HoldsNewest(remote, q, ss) && q != p
    ensures HoldsNewest(Merge(remote, p, s), q, ss)
  {
  }

  lemma MessageHoldsNewest(c: State, ms: seq<Message>, m: Message, p: uint32)
    requires HoldsNewest(c.remote, p, Snapshots(ms, p))
    ensures HoldsNewest(HandleMessage(c, m).remote, p, Snapshots(ms + [m], p))
  {
    hide Newest, Merge;
    MessagesSnoc(ms, m);
    match m {
      case NotifyPlayerState(q, tick, position, rotation) =>
        var s := RemoteSnapshot(tick, position, rotation);
        if q == p {
          MergeNewest(c.remote, p, Snapshots(ms, p), s);
        } else {
          MergeLeavesOthers(c.remote, q, s, p, Snapshots(ms, p));
        }
      case _ =>
    }
  }

  // ---------------------------------------------------------------- whole runs

  function StateAfter(answer: Option<bool>): NetState {
    match answer
    case None => Connecting
    case Some(true) => Connected
    case Some(false) => Refused
  }

  // What the client made of these messages.
  ghost predicate Follows(c: State, ms: seq<Message>) {
    && (c.running ==> c.net == StateAfter(LastAnswer(ms)))
    && (forall p :: HoldsNewest(c.remote, p, Snapshots(ms, p)))
    && c.events == News(ms)
    && c.tasks == Pongs(ms)
  }

  lemma MessageFollows(c: State, ms: seq<Message>, m: Message)
    requires Follows(c, ms)
    ensures Follows(HandleMessage(c, m), ms + [m])
  {
    hide HoldsNewest, Merge;
    MessagesSnoc(ms, m);
    forall p: uint32
      ensures HoldsNewest(HandleMessage(c, m).remote, p, Snapshots(ms + [m], p))
    {
      MessageHoldsNewest(c, ms, m, p);
    }
  }

  lemma TimersFollow(c: State, now: uint64, micros: uint64, ms: seq<Message>)
    requires Follows(c, ms) && c.running
    ensures Follows(Timers(c, now, micros), ms)
  {
    hide HoldsNewest, LastAnswer, News, Pongs;
  }

  lemma TurnFollows(c: State, turn: Turn, ms: seq<Message>)
    requires Follows(c, ms)
    ensures Follows(Iterate(c, turn),
                    if !Handles(c, turn) || Understood(turn.datagram.value).None? then ms
                    else ms + [Understood(turn.datagram.value).value])
  {
    hide HandleDatagram, HandleMessage, Understood, Timers, HoldsNewest;
    if c.running {
      var c1 := Timers(c, turn.now, turn.micros);
      TimersFollow(c, turn.now, turn.micros, ms);
      if Handles(c, turn) {
        DatagramIsMessage(Hear(c1, turn.now), turn.datagram.value);
        if Understood(turn.datagram.value).Some? {
          MessageFollows(Hear(c1, turn.now), ms, Understood(turn.datagram.value).value);
        }
      }
    }
  }

  // In every run from a new connection: while the thread runs, the client is connecting, connected or
  // refused as no answer, an accepting or a refusing one was the last it handled; what it holds of each
  // player is the newest snapshot handled since the player was last known to leave; every join and
  // leave is queued, and every pong hands the game one task.
  lemma {:induction false} ClientFollowsMessages(username: Bytes, start: uint64, turns: seq<Turn>)
    ensures Follows(Run(Connect(username, start), turns), Handled(Connect(username, start), turns))
  {
    hide Follows;
    if turns == [] {
      NothingHandled(username, start);
    } else {
      var init, last := turns[..|turns| - 1], turns[|turns| - 1];
      ClientFollowsMessages(username, start, init);
      TurnFollows(Run(Connect(username, start), init), last, Handled(Connect(username, start), init));
    }
  }

  lemma NothingHandled(username: Bytes, start: uint64)
    ensures Follows(Connect(username, start), [])
  {
  }

  // ---------------------------------------------------------------- giving up

  lemma TurnStops(c: State, turn: Turn)
    requires c.running && !Iterate(c, turn).running
    ensures var r := Iterate(c, turn);
            && (c.net == Connecting ==> r.net == Disconnected && r.attempts >= MAX_HELLO_ATTEMPTS)
            && (c.net == Connected ==>
                  r.net == Disconnected && Minus64(turn.now, c.lastServerAt) >= SERVER_TIMEOUT_MS)
            && (c.net == Refused ==> r.net == Refused)
  {
    hide HandleDatagram;
    if turn.datagram.Some? {
      ReceiveSendsNothing(Hear(Timers(c, turn.now, turn.micros), turn.now), turn.datagram.value);
    }
  }

  lemma StoppedStaysAsIs(c: State, turn: Turn)
    requires !c.running
    ensures Iterate(c, turn) == c && !Handles(c, turn)
  {
  }

  // Why a thread has ended: it was refused; or it has sent all ten hellos and handled no answer; or it
  // was accepted and then the server fell silent.
  predicate EndedFor(c: State, answer: Option<bool>) {
    match answer
    case None => c.net == Disconnected && |HelloTimes(c.sent)| == 10
    case Some(true) => c.net == Disconnected
    case Some(false) => c.net == Refused
  }

  lemma {:induction false} ThreadEndsForAReason(username: Bytes, start: uint64, turns: seq<Turn>)
    requires ClockAdvances(turns)
    ensures var c := Run(Connect(username, start), turns);
            !c.running ==> EndedFor(c, LastAnswer(Handled(Connect(username, start), turns)))
  {
    if turns != [] {
      hide Iterate, Timers, Handles, HelloTimes, Understood, LastAnswer;
      var init, last := turns[..|turns| - 1], turns[|turns| - 1];
      var before := Run(Connect(username, start), init);
      ThreadEndsForAReason(username, start, init);
      if !before.running {
        StoppedStaysAsIs(before, last);
      } else if !Run(Connect(username, start), turns).running {
        ClientFollowsMessages(username, start, init);
        HellosAreFewAndSpaced(username, start, turns);
        TurnStops(before, last);
        StoppingHandlesNothing(before, last);
      }
    }
  }

  lemma StoppingHandlesNothing(c: State, turn: Turn)
    requires c.running && !Iterate(c, turn).running
    ensures !Handles(c, turn)
  {
    hide HandleDatagram;
    if Handles(c, turn) {
      ReceiveSendsNothing(Hear(Timers(c, turn.now, turn.micros), turn.now), turn.datagram.value);
    }
  }

  // ---------------------------------------------------------------- hellos and pings keep coming

  // The hello timer stands at the last hello sent, and no more than half a second back while the client
  // is connecting.
  predicate HelloTimerOk(c: State, now: nat) {
    var times := HelloTimes(c.sent);
    && (c.lastHelloAt > 0 ==> times != [] && times[|times| - 1] == c.lastHelloAt)
    && (c.running && c.net == Connecting ==> now < c.lastHelloAt + 500)
  }

  lemma TimersHelloTimer(c: State, now: uint64, micros: uint64, before: nat)
    requires HelloTimerOk(c, before) && c.lastHelloAt <= now && c.running && Encodable(Hello(VERSION, c.username))
    ensures HelloTimerOk(Timers(c, now, micros), now)
  {
    hide HelloTimes, Encodable;
    HelloTimesSnoc(c.sent, Outgoing(now, Hello(VERSION, c.username)));
    HelloTimesSnoc(c.sent, Outgoing(now, Ping(micros)));
  }

  lemma TurnHelloTimer(c: State, turn: Turn, before: nat)
    requires HelloTimerOk(c, before) && before <= turn.now && c.lastHelloAt <= turn.now
    requires Encodable(Hello(VERSION, c.username))
    ensures HelloTimerOk(Iterate(c, turn), turn.now)
  {
    hide Timers, HandleDatagram, HelloTimes, Encodable;
    if c.running {
      var c1 := Timers(c, turn.now, turn.micros);
      TimersHelloTimer(c, turn.now, turn.micros, before);
      if turn.datagram.Some? {
        ReceiveSendsNothing(Hear(c1, turn.now), turn.datagram.value);
        ReceiveNeverReconnects(Hear(c1, turn.now), turn.datagram.value);
      }
    }
  }

  lemma {:induction false} HelloTimerStaysOk(username: Bytes, start: uint64, turns: seq<Turn>)
    requires turns != [] && ClockAdvances(turns) && Encodable(Hello(VERSION, username))
    ensures HelloTimerOk(Run(Connect(username, start), turns), LastNow(turns))
  {
    hide HelloTimerOk, Iterate, Encodable;
    var init, last := turns[..|turns| - 1], turns[|turns| - 1];
    NameStays(Connect(username, start), init);
    HellosAreFewAndSpaced(username, start, init);
    if init == [] {
      FirstHelloTimer(username, start, last);
    } else {
      HelloTimerStaysOk(username, start, init);
      TurnHelloTimer(Run(Connect(username, start), init), last, LastNow(init));
    }
  }

  lemma FirstHelloTimer(username: Bytes, start: uint64, turn: Turn)
    requires Encodable(Hello(VERSION, username))
    ensures HelloTimerOk(Iterate(Connect(username, start), turn), turn.now)
  {
    hide Iterate;
    assert HelloTimerOk(Connect(username, start), 0);
    TurnHelloTimer(Connect(username, start), turn, 0);
  }

  // While a client whose name can be encoded is connecting, and the clock is past its first half
  // second, it has sent a hello less than half a second ago.
  lemma HellosKeepComing(username: Bytes, start: uint64, turns: seq<Turn>)
    requires ClockAdvances(turns) && Encodable(Hello(VERSION, username)) && LastNow(turns) >= 500
    requires Run(Connect(username, start), turns).running && Run(Connect(username, start), turns).net == Connecting
    ensures var times := HelloTimes(Run(Connect(username, start), turns).sent);
            times != [] && LastNow(turns) < times[|times| - 1] + 500
  {
    hide Run, HelloTimes, Encodable;
    HelloTimerStaysOk(username, start, turns);
  }

  // Every hello of a run carries the protocol version and the client's name.
  predicate HellosSay(sent: seq<Outgoing>, username: Bytes) {
    forall k :: 0 <= k < |sent| && sent[k].msg.Hello? ==> sent[k].msg == Hello(2, username)
  }

  lemma TimersHellosSay(c: State, now: uint64, micros: uint64)
    requires HellosSay(c.sent, c.username)
    ensures HellosSay(Timers(c, now, micros).sent, c.username)
  {
  }

  lemma {:induction false} HellosSayWho(username: Bytes, start: uint64, turns: seq<Turn>)
    ensures HellosSay(Run(Connect(username, start), turns).sent, username)
  {
    if turns != [] {
      hide Timers, HandleDatagram, HellosSay;
      var init, last := turns[..|turns| - 1], turns[|turns| - 1];
      var c := Run(Connect(username, start), init);
      HellosSayWho(username, start, init);
      NameStays(Connect(username, start), init);
      TimersHellosSay(c, last.now, last.micros);
      if last.datagram.Some? {
        ReceiveSendsNothing(Hear(Timers(c, last.now, last.micros), last.now), last.datagram.value);
      }
    } else {
      assert Run(Connect(username, start), turns).sent == [];
    }
  }

  // When the pings among these messages were sent.
  function PingTimes(sent: seq<Outgoing>): seq<nat> {
    if sent == [] then []
    else
      var x := sent[|sent| - 1];
      if x.msg.Ping? then PingTimes(sent[..|sent| - 1]) + [x.at] else PingTimes(sent[..|sent| - 1])
  }

  lemma PingTimesSnoc(sent: seq<Outgoing>, x: Outgoing)
    ensures PingTimes(sent + [x]) == if x.msg.Ping? then PingTimes(sent) + [x.at] else PingTimes(sent)
  {
    assert (sent + [x])[..|sent|] == sent;
  }

  // The ping timer stands at the last ping sent.
  predicate PingTimerOk(c: State, now: nat) {
    var times := PingTimes(c.sent);
    c.lastPingAt <= now && (c.lastPingAt > 0 ==> times != [] && times[|times| - 1] == c.lastPingAt)
  }

  lemma TimersPingTimer(c: State, now: uint64, micros: uint64, before: nat)
    requires PingTimerOk(c, before) && before <= now
    ensures PingTimerOk(Timers(c, now, micros), now)
    ensures c.net == Connected ==> now < Timers(c, now, micros).lastPingAt + 1000
  {
    hide PingTimes;
    EncodableByText(Ping(micros));
    PingTimesSnoc(c.sent, Outgoing(now, Hello(VERSION, c.username)));
    PingTimesSnoc(c.sent, Outgoing(now, Ping(micros)));
  }

  // Receiving leaves the ping timer alone too.
  lemma ReceivePingsNothing(c: State, data: Bytes)
    ensures HandleDatagram(c, data).lastPingAt == c.lastPingAt && HandleDatagram(c, data).sent == c.sent
  {
    hide HandleMessage;
    DatagramIsMessage(c, data);
    if Understood(data).Some? {
      MessagePingsNothing(c, Understood(data).value);
    }
  }

  lemma MessagePingsNothing(c: State, m: Message)
    ensures HandleMessage(c, m).lastPingAt == c.lastPingAt && HandleMessage(c, m).sent == c.sent
  {
  }

  lemma TurnPingTimer(c: State, turn: Turn, before: nat)
    requires PingTimerOk(c, before) && before <= turn.now
    ensures PingTimerOk(Iterate(c, turn), turn.now)
    ensures c.running && c.net == Connected ==> turn.now < Iterate(c, turn).lastPingAt + 1000
  {
    hide Timers, HandleDatagram, PingTimes;
    if c.running {
      TimersPingTimer(c, turn.now, turn.micros, before);
      if turn.datagram.Some? {
        ReceivePingsNothing(Hear(Timers(c, turn.now, turn.micros), turn.now), turn.datagram.value);
      }
    }
  }

  lemma {:induction false} PingTimerStaysOk(username: Bytes, start: uint64, turns: seq<Turn>)
    requires ClockAdvances(turns)
    ensures PingTimerOk(Run(Connect(username, start), turns), LastNow(turns))
  {
    if turns != [] {
      hide Iterate, PingTimerOk;
      var init := turns[..|turns| - 1];
      PingTimerStaysOk(username, start, init);
      assert LastNow(init) <= LastNow(turns);
      TurnPingTimer(Run(Connect(username, start), init), turns[|turns| - 1], LastNow(init));
    }
  }

  // Whenever a connected client has gone round its loop, and the clock is past its first second, it
  // has sent a ping less than a second ago.
  lemma PingsKeepComing(username: Bytes, start: uint64, turns: seq<Turn>, turn: Turn)
    requires ClockAdvances(turns) && LastNow(turns) <= turn.now && turn.now >= 1000
    requires Run(Connect(username, start), turns).running && Run(Connect(username, start), turns).net == Connected
    ensures var times := PingTimes(Iterate(Run(Connect(username, start), turns), turn).sent);
            times != [] && turn.now < times[|times| - 1] + 1000
  {
    hide Run, Iterate, PingTimes;
    PingTimerStaysOk(username, start, turns);
    TurnPingTimer(Run(Connect(username, start), turns), turn, LastNow(turns));
  }
}
