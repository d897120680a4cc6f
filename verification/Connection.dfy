/** The connection machine over whole runs of the client's loop. */
module Connection {
  import opened Numbers
  import opened Protocol
  import opened Client

  // The clock never goes back.
  predicate ClockAdvances(turns: seq<Turn>) {
    forall i, j :: 0 <= i < j < |turns| ==> turns[i].now <= turns[j].now
  }

  function LastNow(turns: seq<Turn>): nat {
    if turns == [] then 0 else turns[|turns| - 1].now
  }

  // ---------------------------------------------------------------- hellos

  function HelloStep(times: seq<nat>, x: Outgoing): seq<nat> {
    if x.msg.Hello? then times + [x.at] else times
  }

  // When the hellos among these messages were sent.
  function HelloTimes(sent: seq<Outgoing>): seq<nat> {
    if sent == [] then [] else HelloStep(HelloTimes(sent[..|sent| - 1]), sent[|sent| - 1])
  }

  lemma HelloTimesSnoc(sent: seq<Outgoing>, x: Outgoing)
    ensures HelloTimes(sent + [x]) == HelloStep(HelloTimes(sent), x)
  {
    assert (sent + [x])[..|sent|] == sent;
  }

  predicate FarApart(times: seq<nat>) {
    forall i :: 0 <= i < |times| - 1 ==> times[i] + HELLO_RETRY_MS <= times[i + 1]
  }

  // The counter counts the hellos, the last of which was sent when the timer says.
  predicate HellosOk(c: State) {
    var times := HelloTimes(c.sent);
    && |times| == c.attempts <= MAX_HELLO_ATTEMPTS
    && FarApart(times)
    && (times != [] ==> times[|times| - 1] <= c.lastHelloAt)
  }

  // What the timers and the record of sent messages are.
  predicate SameSending(c: State, r: State) {
    && r.sent == c.sent && r.attempts == c.attempts && r.lastHelloAt == c.lastHelloAt
    && r.lastServerAt == c.lastServerAt && r.running == c.running && r.username == c.username
  }

  lemma MessageSendsNothing(c: State, m: Message)
    ensures SameSending(c, HandleMessage(c, m))
  {
  }

  lemma ReceiveSendsNothing(c: State, data: Bytes)
    ensures SameSending(c, HandleDatagram(c, data))
  {
    var header := PeekHeader(data);
    if header.Some? && ForClient(header.value.kind) {
      var m := Decode(data, header.value.kind);
      if m.Some? {
        MessageSendsNothing(c, m.value);
      }
    }
  }

  lemma FarApartSnoc(times: seq<nat>, t: nat)
    requires FarApart(times) && (times != [] ==> times[|times| - 1] + HELLO_RETRY_MS <= t)
    ensures FarApart(times + [t])
  {
  }

  lemma SendHelloOk(c: State, now: uint64)
    requires HellosOk(c) && c.attempts < MAX_HELLO_ATTEMPTS
    requires HelloTimes(c.sent) != [] ==> HelloTimes(c.sent)[|HelloTimes(c.sent)| - 1] + HELLO_RETRY_MS <= now
    ensures HellosOk(SendHello(c, now).(lastHelloAt := now))
  {
    hide HelloTimes;
    HelloTimesSnoc(c.sent, Outgoing(now, Hello(VERSION, c.username)));
    FarApartSnoc(HelloTimes(c.sent), now);
  }

  lemma SendPingOk(c: State, now: uint64, micros: uint64)
    requires HellosOk(c)
    ensures HellosOk(Send(c, now, Ping(micros)))
  {
    HelloTimesSnoc(c.sent, Outgoing(now, Ping(micros)));
  }

  lemma ConnectingHellos(c: State, now: uint64, micros: uint64)
    requires HellosOk(c) && c.lastHelloAt <= now && c.net == Connecting
    ensures HellosOk(Timers(c, now, micros)) && Timers(c, now, micros).lastHelloAt <= now
  {
    if now - c.lastHelloAt >= HELLO_RETRY_MS && c.attempts < MAX_HELLO_ATTEMPTS {
      SendHelloOk(c, now);
      assert Timers(c, now, micros) == SendHello(c, now).(lastHelloAt := now);
    }
  }

  lemma ConnectedTimers(c: State, now: uint64, micros: uint64)
    requires c.net == Connected
    ensures var r := Timers(c, now, micros);
            && r.attempts == c.attempts && r.lastHelloAt == c.lastHelloAt
            && (r.sent == c.sent || r.sent == Send(c, now, Ping(micros)).sent)
  {
  }

  lemma SameHellos(c: State, r: State)
    requires HellosOk(c) && r.attempts == c.attempts && r.lastHelloAt == c.lastHelloAt && r.sent == c.sent
    ensures HellosOk(r)
  {
  }

  lemma ConnectedHellos(c: State, now: uint64, micros: uint64)
    requires HellosOk(c) && c.lastHelloAt <= now && c.net == Connected
    ensures HellosOk(Timers(c, now, micros)) && Timers(c, now, micros).lastHelloAt <= now
  {
    var r := Timers(c, now, micros);
    ConnectedTimers(c, now, micros);
    SendPingOk(c, now, micros);
    SameHellos(if r.sent == c.sent then c else Send(c, now, Ping(micros)), r);
  }

  lemma TimersHellos(c: State, now: uint64, micros: uint64)
    requires HellosOk(c) && c.lastHelloAt <= now
    ensures HellosOk(Timers(c, now, micros)) && Timers(c, now, micros).lastHelloAt <= now
  {
    match c.net {
      case Connecting => ConnectingHellos(c, now, micros);
      case Connected => ConnectedHellos(c, now, micros);
      case _ =>
    }
  }

  lemma TurnHellos(c: State, turn: Turn)
    requires HellosOk(c) && c.lastHelloAt <= turn.now
    ensures HellosOk(Iterate(c, turn)) && Iterate(c, turn).lastHelloAt <= turn.now
  {
    hide Timers, HandleDatagram, HellosOk;
    var c1 := Timers(c, turn.now, turn.micros);
    TimersHellos(c, turn.now, turn.micros);
    if turn.datagram.Some? {
      ReceiveSendsNothing(Hear(c1, turn.now), turn.datagram.value);
      SameHellos(c1, HandleDatagram(Hear(c1, turn.now), turn.datagram.value));
    }
  }

  // In every run at most ten hellos are sent, at least half a second apart.
  lemma {:induction false} HellosAreFewAndSpaced(username: Bytes, start: uint64, turns: seq<Turn>)
    requires ClockAdvances(turns)
    ensures HellosOk(Run(Connect(username, start), turns))
    ensures Run(Connect(username, start), turns).lastHelloAt <= LastNow(turns)
  {
    if turns != [] {
      var init, last := turns[..|turns| - 1], turns[|turns| - 1];
      HellosAreFewAndSpaced(username, start, init);
      assert LastNow(init) <= last.now;
      TurnHellos(Run(Connect(username, start), init), last);
    }
  }

  // ---------------------------------------------------------------- the end of connecting

  // No two readings of the clock are further apart than this.
  predicate PollsOften(turns: seq<Turn>, gap: nat) {
    forall i :: 0 <= i < |turns| - 1 ==> turns[i + 1].now <= turns[i].now + gap
  }

  predicate Unanswered(turns: seq<Turn>) {
    forall i :: 0 <= i < |turns| ==> turns[i].datagram.None?
  }

  function Max(a: nat, b: nat): nat {
    if a < b then b else a
  }

  // By when the client has sent its n-th hello.
  function HelloDeadline(start: nat, gap: nat, n: nat): nat {
    if n <= 1 then Max(start, 499 + gap) else HelloDeadline(start, gap, n - 1) + 499 + gap
  }

  // How far the clock can have come while the client is connecting with this many hellos sent.
  predicate OnSchedule(c: State, first: nat, now: nat, gap: nat) {
    c.net == Connecting ==>
      && c.running
      && c.attempts <= MAX_HELLO_ATTEMPTS
      && now < c.lastHelloAt + HELLO_RETRY_MS
      && (c.attempts == 0 ==> c.lastHelloAt == 0)
      && (c.attempts > 0 ==> c.lastHelloAt <= HelloDeadline(first, gap, c.attempts))
  }

  lemma TimersOnSchedule(c: State, turn: Turn, first: nat, before: nat, gap: nat)
    requires OnSchedule(c, first, before, gap) && before <= turn.now <= before + gap
    requires first <= before && Encodable(Hello(VERSION, c.username))
    requires c.net == Connecting ==> c.lastHelloAt <= turn.now
    ensures OnSchedule(Timers(c, turn.now, turn.micros), first, turn.now, gap)
  {
  }

  lemma MessageNeverReconnects(c: State, m: Message)
    ensures HandleMessage(c, m).net == Connecting ==> c.net == Connecting
  {
  }

  // Nothing that arrives sets the client connecting again.
  lemma ReceiveNeverReconnects(c: State, data: Bytes)
    ensures HandleDatagram(c, data).net == Connecting ==> c.net == Connecting
  {
    var header := PeekHeader(data);
    if header.Some? && ForClient(header.value.kind) {
      var m := Decode(data, header.value.kind);
      if m.Some? {
        MessageNeverReconnects(c, m.value);
      }
    }
  }

  lemma TurnOnSchedule(c: State, turn: Turn, first: nat, before: nat, gap: nat)
    requires OnSchedule(c, first, before, gap) && before <= turn.now <= before + gap
    requires first <= before && Encodable(Hello(VERSION, c.username))
    requires c.net == Connecting ==> c.lastHelloAt <= turn.now
    ensures OnSchedule(Iterate(c, turn), first, turn.now, gap)
  {
    if c.running {
      TimersOnSchedule(c, turn, first, before, gap);
      ArrivalOnSchedule(Timers(c, turn.now, turn.micros), turn, first, gap);
    }
  }

  lemma ArrivalOnSchedule(c: State, turn: Turn, first: nat, gap: nat)
    requires OnSchedule(c, first, turn.now, gap)
    ensures turn.datagram.Some? ==>
              OnSchedule(HandleDatagram(Hear(c, turn.now), turn.datagram.value), first, turn.now, gap)
  {
    if turn.datagram.Some? {
      ReceiveSendsNothing(Hear(c, turn.now), turn.datagram.value);
      ReceiveNeverReconnects(Hear(c, turn.now), turn.datagram.value);
    }
  }

  lemma FirstOnSchedule(username: Bytes, start: uint64, turn: Turn, gap: nat)
    requires Encodable(Hello(VERSION, username))
    ensures OnSchedule(Iterate(Connect(username, start), turn), turn.now, turn.now, gap)
  {
    ArrivalOnSchedule(Timers(Connect(username, start), turn.now, turn.micros), turn, turn.now, gap);
  }

  lemma TurnKeepsName(c: State, turn: Turn)
    ensures Iterate(c, turn).username == c.username
  {
    var c1 := Timers(c, turn.now, turn.micros);
    assert c1.username == c.username;
    if turn.datagram.Some? {
      ReceiveSendsNothing(Hear(c1, turn.now), turn.datagram.value);
    }
  }

  lemma {:induction false} NameStays(c: State, turns: seq<Turn>)
    ensures Run(c, turns).username == c.username
  {
    if turns != [] {
      NameStays(c, turns[..|turns| - 1]);
      TurnKeepsName(Run(c, turns[..|turns| - 1]), turns[|turns| - 1]);
    }
  }

  lemma {:induction false} StaysOnSchedule(username: Bytes, start: uint64, turns: seq<Turn>, gap: nat)
    requires turns != [] && ClockAdvances(turns) && PollsOften(turns, gap)
    requires Encodable(Hello(VERSION, username))
    ensures OnSchedule(Run(Connect(username, start), turns), turns[0].now, LastNow(turns), gap)
  {
    var init, last := turns[..|turns| - 1], turns[|turns| - 1];
    if init == [] {
      FirstOnSchedule(username, start, last, gap);
    } else {
      StaysOnSchedule(username, start, init, gap);
      HellosAreFewAndSpaced(username, start, init);
      NameStays(Connect(username, start), init);
      assert LastNow(init) == turns[|turns| - 2].now;
      TurnOnSchedule(Run(Connect(username, start), init), last, turns[0].now, LastNow(init), gap);
    }
  }

  // Whatever arrives, if the clock is read at least every `gap` ms and the name can be encoded: the
  // client is not connecting any more once the clock is past the deadline of the tenth hello and
  // one more retry interval. If nothing arrived it has given up.
  lemma ConnectingEnds(username: Bytes, start: uint64, turns: seq<Turn>, gap: nat)
    requires turns != [] && ClockAdvances(turns) && PollsOften(turns, gap)
    requires Encodable(Hello(VERSION, username))
    requires LastNow(turns) >= Max(turns[0].now, 499 + gap) + 9 * (499 + gap) + HELLO_RETRY_MS
    ensures Run(Connect(username, start), turns).net != Connecting
    ensures Unanswered(turns) ==> Run(Connect(username, start), turns).net == Disconnected
  {
    StaysOnSchedule(username, start, turns, gap);
    var c := Run(Connect(username, start), turns);
    if c.net == Connecting {
      if c.attempts > 0 {
        DeadlinesGrow(turns[0].now, gap, c.attempts);
      }
      assert false;
    }
    if Unanswered(turns) {
      UnansweredIsNeverRefused(username, start, turns);
    }
  }

  lemma {:induction false} DeadlineIs(first: nat, gap: nat, n: nat)
    requires n >= 1
    ensures HelloDeadline(first, gap, n) == Max(first, 499 + gap) + (n - 1) * (499 + gap)
  {
    if n > 1 {
      DeadlineIs(first, gap, n - 1);
      assert (n - 1) * (499 + gap) == (n - 2) * (499 + gap) + (499 + gap);
    }
  }

  lemma DeadlinesGrow(first: nat, gap: nat, n: nat)
    requires 1 <= n <= MAX_HELLO_ATTEMPTS
    ensures HelloDeadline(first, gap, n) <= Max(first, 499 + gap) + 9 * (499 + gap)
  {
    DeadlineIs(first, gap, n);
    assert (n - 1) * (499 + gap) <= 9 * (499 + gap);
  }

  lemma {:induction false} UnansweredIsNeverRefused(username: Bytes, start: uint64, turns: seq<Turn>)
    requires Unanswered(turns)
    ensures Run(Connect(username, start), turns).net in {Connecting, Disconnected}
  {
    if turns != [] {
      UnansweredIsNeverRefused(username, start, turns[..|turns| - 1]);
    }
  }

  // The condition is exact: with a name that cannot be encoded no hello ever goes out, none is
  // counted, and the client goes on connecting for as long as it runs.
  lemma {:induction false} UnsendableNameNeverEnds(username: Bytes, start: uint64, turns: seq<Turn>)
    requires Unanswered(turns) && !Encodable(Hello(VERSION, username))
    ensures var c := Run(Connect(username, start), turns);
            c.net == Connecting && c.running && c.attempts == 0 && c.sent == [] && c.username == username
  {
    if turns != [] {
      UnsendableNameNeverEnds(username, start, turns[..|turns| - 1]);
    }
  }

  // Which names those are.
  lemma SendableNames(username: Bytes)
    ensures Encodable(Hello(VERSION, username)) <==> |username| <= 1190
  {
    EncodableByText(Hello(VERSION, username));
  }

  // ---------------------------------------------------------------- final states

  predicate Over(c: State) {
    !c.running || c.net == Refused || c.net == Disconnected
  }

  // Refused and disconnected are final: nothing more is sent, received or changed.
  lemma {:induction false} OverIsFinal(c: State, turns: seq<Turn>)
    requires Over(c)
    ensures Run(c, turns) == c || Run(c, turns) == c.(running := false)
  {
    if turns != [] {
      OverIsFinal(c, turns[..|turns| - 1]);
    }
  }

  // ---------------------------------------------------------------- a server gone silent

  function HeardStep(at: nat, turn: Turn): nat {
    if turn.datagram.Some? then turn.now else at
  }

  // The clock of the last turn in which the server was heard; the start counts as one.
  function LastHeard(start: nat, turns: seq<Turn>): nat {
    if turns == [] then start else HeardStep(LastHeard(start, turns[..|turns| - 1]), turns[|turns| - 1])
  }

  lemma {:induction false} LastHeardIsKept(username: Bytes, start: uint64, turns: seq<Turn>)
    ensures var c := Run(Connect(username, start), turns);
            c.running ==> c.lastServerAt == LastHeard(start, turns)
  {
    if turns != [] {
      var init, last := turns[..|turns| - 1], turns[|turns| - 1];
      var c := Run(Connect(username, start), init);
      LastHeardIsKept(username, start, init);
      if c.running && last.datagram.Some? {
        ReceiveSendsNothing(Hear(Timers(c, last.now, last.micros), last.now), last.datagram.value);
      }
    }
  }

  // A connected client waits for a datagram exactly when the server was heard less than eight
  // seconds of loop clock ago; otherwise it gives the connection up.
  lemma WaitsOnlyForLiveServer(username: Bytes, start: uint64, turns: seq<Turn>, now: uint64, micros: uint64)
    requires Run(Connect(username, start), turns).running && Run(Connect(username, start), turns).net == Connected
    requires LastHeard(start, turns) <= now
    ensures var c := Timers(Run(Connect(username, start), turns), now, micros);
            if now < LastHeard(start, turns) + SERVER_TIMEOUT_MS then c.running && c.net == Connected
            else !c.running && c.net == Disconnected
  {
    LastHeardIsKept(username, start, turns);
  }
}
