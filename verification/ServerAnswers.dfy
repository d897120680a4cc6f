/** Who gets an answer to a hello, and what it says. */
module ServerAnswers {
  import opened Numbers
  import opened Protocol
  import opened Sessions
  import opened Traces
  import opened TraceRules
  import opened Server
  import opened ServerInvariant
  import opened ServerRuns
  import opened ServerEntries
  import opened ServerDuties
  import Client

  // One of the entries added was this message to this peer.
  predicate Says(before: Trace, after: Trace, to: Endpoint, m: Message) {
    exists i :: |before| <= i < |after| && after[i] == Sent(to, m)
  }

  predicate IsAnswer(x: Entry, to: Endpoint) {
    x.Sent? && x.to == to && x.msg.HelloAck?
  }

  // One of the entries added was an answer to a hello of this peer.
  predicate Answers(before: Trace, after: Trace, to: Endpoint) {
    exists i :: |before| <= i < |after| && IsAnswer(after[i], to)
  }

  lemma SaysAt(before: Trace, after: Trace, to: Endpoint, m: Message, between: Trace)
    requires before + between + [Sent(to, m)] <= after
    ensures Says(before, after, to, m)
  {
    assert after[|before + between|] == Sent(to, m);
  }

  // The answer goes out before anything else, and says what the table decided.
  lemma GreetAnswers(
    s: State, scripts: seq<Script>, from: Endpoint, version: uint32, username: Bytes, now: uint64)
    ensures Says(s.trace, Greet(s, scripts, from, version, username, now).trace, from,
                 Ack(JoinOutcome(s.table, from, username, version)))
  {
    hide Ack, JoinOutcome, Encodable, Fan, Introductions, CallEntries, Requests;
    var result := JoinOutcome(s.table, from, username, version);
    var id := Join(s.table, from, username, version, now).2;
    AckFits(result);
    SaysAt(s.trace, Greet(s, scripts, from, version, username, now).trace, from, Ack(result),
           if result == Accepted then [Admitted(id, from, username)] else []);
  }

  lemma AckFits(result: JoinResult)
    ensures Encodable(Ack(result))
  {
    ShortTextFits(Ack(result));
  }

  // The answer tells the peer whether it is in, and each refusal gives its own reason.
  lemma AnswersSayWhy(a: JoinResult, b: JoinResult)
    ensures Ack(a).accepted <==> a == Accepted || a == AlreadyJoined
    ensures !Ack(a).accepted ==> Ack(a).reason != [] && (Ack(a) == Ack(b) ==> a == b)
  {
    assert |Reason(VersionMismatch)| == 25 && |Reason(NameTaken)| == 18 && |Reason(Full)| == 11;
  }

  // A name that is longer than the string cap gets no answer: the server takes the datagram and
  // counts the peer as heard if it knows it, and neither sends nor admits anything.
  lemma LongNamesGetNoAnswer(
    s: State, scripts: seq<Script>, from: Endpoint, version: uint32, username: Bytes, at: nat, now: uint64)
    requires |username| > MAX_STRING_SIZE && Encodable(Hello(version, username))
    ensures var data := Frame(Hello(version, username));
            HandleDatagram(s, scripts, Arrival(from, data, at), now)
            == s.(table := Touch(s.table, from, now), trace := s.trace + [Received(from, data, at)])
  {
    hide Decode;
    var hello := Hello(version, username);
    FrameIsFramed(hello);
    PeekHeaderExact(Frame(hello));
    RoundTrip(hello, HelloType);
  }

  lemma ShortNamesGreet(
    s: State, scripts: seq<Script>, from: Endpoint, version: uint32, username: Bytes, at: nat, now: uint64)
    requires |username| <= MAX_STRING_SIZE && Encodable(Hello(version, username))
    ensures var data := Frame(Hello(version, username));
            var heard := s.(table := Touch(s.table, from, now), trace := s.trace + [Received(from, data, at)]);
            HandleDatagram(s, scripts, Arrival(from, data, at), now)
            == Greet(heard, scripts, from, version, username, now)
  {
    hide Decode, Greet;
    var hello := Hello(version, username);
    FrameIsFramed(hello);
    PeekHeaderExact(Frame(hello));
    RoundTrip(hello, HelloType);
  }

  lemma SaysSooner(before: Trace, heard: Trace, after: Trace, to: Endpoint, m: Message)
    requires before <= heard && Says(heard, after, to, m) && m.HelloAck?
    ensures Says(before, after, to, m) && Answers(before, after, to)
  {
    var i :| |heard| <= i < |after| && after[i] == Sent(to, m);
    assert IsAnswer(after[i], to);
  }

  // Whatever state the server is in, a hello that a client can encode is answered exactly when its
  // name is at most 256 bytes long; the answer then is what the table decides about it.
  lemma HelloIsAnswered(
    s: State, scripts: seq<Script>, from: Endpoint, version: uint32, username: Bytes, at: nat, now: uint64)
    requires Encodable(Hello(version, username))
    ensures var after := HandleDatagram(s, scripts, Arrival(from, Frame(Hello(version, username)), at), now).trace;
            && (Answers(s.trace, after, from) <==> |username| <= MAX_STRING_SIZE)
            && (|username| <= MAX_STRING_SIZE ==>
                  Says(s.trace, after, from, Ack(JoinOutcome(Touch(s.table, from, now), from, username, version))))
  {
    hide HandleDatagram, Greet, Frame, Encodable, Says, Touch, JoinOutcome;
    var data := Frame(Hello(version, username));
    if |username| <= MAX_STRING_SIZE {
      var heard := s.(table := Touch(s.table, from, now), trace := s.trace + [Received(from, data, at)]);
      ShortNamesGreet(s, scripts, from, version, username, at, now);
      GreetAnswers(heard, scripts, from, version, username, now);
      SaysSooner(s.trace, heard.trace, Greet(heard, scripts, from, version, username, now).trace, from,
                 Ack(JoinOutcome(heard.table, from, username, version)));
    } else {
      LongNamesGetNoAnswer(s, scripts, from, version, username, at, now);
    }
  }

  // So the table's own refusal of long names is never reached over the wire: whatever bytes decode
  // as a hello carry a name within the cap.
  lemma LengthRefusalIsUnreachable(data: Bytes, version: uint32, username: Bytes)
    requires Decode(data, HelloType) == Some(Hello(version, username))
    ensures |username| <= MAX_STRING_SIZE
  {
    hide Decode;
    DecodeExact(data, HelloType, Hello(version, username));
  }

  // ---------------------------------------------------------------- which answer

  // The only answer among these entries is m to this peer.
  predicate OnlyAnswer(entries: Trace, to: Endpoint, m: Message) {
    forall i, e :: 0 <= i < |entries| && e == to && IsAnswer(entries[i], e) ==> entries[i] == Sent(to, m)
  }

  predicate NoAnswer(entries: Trace) {
    forall i :: 0 <= i < |entries| ==> !(entries[i].Sent? && entries[i].msg.HelloAck?)
  }

  lemma IntroducedAnswersOnce(trace: Trace, ss: seq<Session>, p: Session, n: nat, call: nat)
    ensures var t := Introduced(trace, ss, p) + CallEntries(n, call, JoinEvent(p.id), ss + [p]);
            trace <= t && OnlyAnswer(t[|trace|..], p.endpoint, Ack(Accepted))
  {
    hide Ack;
    var intro, fan := Introductions(ss, p.endpoint, p.id), Fan(ss, NotifyPlayerJoined(p.id, p.username), p.id);
    var calls := CallEntries(n, call, JoinEvent(p.id), ss + [p]);
    IntroductionsAreTalk(ss, p.endpoint, p.id);
    FanIsTalk(ss, NotifyPlayerJoined(p.id, p.username), p.id);
    CallsAreCalls(n, call, JoinEvent(p.id), ss + [p]);
    hide Introductions, Fan, CallEntries;
    NoAnswersTogether(intro, fan, calls);
    var head := [Admitted(p.id, p.endpoint, p.username), Sent(p.endpoint, Ack(Accepted))];
    HeadThenSilence(head, intro + fan + calls, p.endpoint, Ack(Accepted));
    var t := Introduced(trace, ss, p) + calls;
    assert t == trace + (head + (intro + fan + calls));
    assert t[|trace|..] == head + (intro + fan + calls);
  }

  lemma NoAnswersTogether(a: Trace, b: Trace, c: Trace)
    requires NoAnswer(a) && NoAnswer(b) && NoAnswer(c)
    ensures NoAnswer(a + b + c)
  {
  }

  lemma HeadThenSilence(head: Trace, rest: Trace, to: Endpoint, m: Message)
    requires OnlyAnswer(head, to, m) && NoAnswer(rest)
    ensures OnlyAnswer(head + rest, to, m)
  {
  }

  lemma GreetAnswersOnce(
    s: State, scripts: seq<Script>, from: Endpoint, version: uint32, username: Bytes, now: uint64)
    ensures var r := Greet(s, scripts, from, version, username, now).trace;
            s.trace <= r && OnlyAnswer(r[|s.trace|..], from, Ack(JoinOutcome(s.table, from, username, version)))
  {
    hide Ack, Introduced, JoinOutcome, OnlyAnswer, CallEntries, Encodable;
    var outcome := JoinOutcome(s.table, from, username, version);
    if outcome == Accepted {
      var p := NewSession(s.table.nextId, username, from, now);
      AcceptedIsJoined(s, scripts, from, version, username, now);
      IntroducedAnswersOnce(s.trace, s.table.sessions, p, |scripts|, s.calls);
    } else {
      AckFits(outcome);
      RefusedTrace(s, scripts, from, version, username, now);
      OneIsOnly(from, Ack(outcome));
      assert (s.trace + [Sent(from, Ack(outcome))])[|s.trace|..] == [Sent(from, Ack(outcome))];
    }
  }

  lemma RefusedTrace(
    s: State, scripts: seq<Script>, from: Endpoint, version: uint32, username: Bytes, now: uint64)
    requires JoinOutcome(s.table, from, username, version) != Accepted
    ensures Greet(s, scripts, from, version, username, now).trace
            == s.trace + [Sent(from, Ack(JoinOutcome(s.table, from, username, version)))]
  {
    hide Ack, JoinOutcome, Encodable;
    AckFits(JoinOutcome(s.table, from, username, version));
    assert s.trace + [] == s.trace;
  }

  lemma OneIsOnly(to: Endpoint, m: Message)
    ensures OnlyAnswer([Sent(to, m)], to, m)
  {
  }

  // An answer said after the hello was received is the one the table decided on.
  lemma SaidIsDecided(
    s: State, scripts: seq<Script>, from: Endpoint, version: uint32, username: Bytes, at: nat, now: uint64,
    result: JoinResult)
    requires |username| <= MAX_STRING_SIZE && Encodable(Hello(version, username))
    ensures var after := HandleDatagram(s, scripts, Arrival(from, Frame(Hello(version, username)), at), now).trace;
            Says(s.trace, after, from, Ack(result))
            <==> Ack(result) == Ack(JoinOutcome(Touch(s.table, from, now), from, username, version))
  {
    hide HandleDatagram, Greet, Frame, Encodable, Touch, JoinOutcome, Ack, OnlyAnswer;
    var data := Frame(Hello(version, username));
    var heard := s.(table := Touch(s.table, from, now), trace := s.trace + [Received(from, data, at)]);
    var after := Greet(heard, scripts, from, version, username, now).trace;
    var m := Ack(JoinOutcome(heard.table, from, username, version));
    HelloIsAnswered(s, scripts, from, version, username, at, now);
    ShortNamesGreet(s, scripts, from, version, username, at, now);
    GreetAnswersOnce(heard, scripts, from, version, username, now);
    if Says(s.trace, after, from, Ack(result)) {
      AcksAnswer(result);
      OnlyOneSaid(s.trace, Received(from, data, at), after, from, m, Ack(result));
    }
  }

  lemma AcksAnswer(result: JoinResult)
    ensures Ack(result).HelloAck?
  {
  }

  lemma OnlyOneSaid(before: Trace, x: Entry, after: Trace, to: Endpoint, m: Message, n: Message)
    requires x.Received? && before + [x] <= after && OnlyAnswer(after[|before| + 1..], to, m)
    requires Says(before, after, to, n) && n.HelloAck?
    ensures n == m
  {
    var i :| |before| <= i < |after| && after[i] == Sent(to, n);
    assert after[|before|] == x;
    assert after[|before| + 1..][i - |before| - 1] == after[i];
    assert IsAnswer(after[i], to);
  }

  // Over the wire, in any state: a hello with a name the server can read is answered "yes" exactly when
  // its version is 2 and the peer is in already or its name is allowed and free and there is a seat; and
  // it gets each refusal, by its text, exactly in the case it is meant for.
  lemma AnswersAreDeserved(
    s: State, scripts: seq<Script>, from: Endpoint, version: uint32, username: Bytes, at: nat, now: uint64)
    requires |username| <= MAX_STRING_SIZE && Encodable(Hello(version, username))
    ensures var after := HandleDatagram(s, scripts, Arrival(from, Frame(Hello(version, username)), at), now).trace;
            var named := NameIsAllowed(username) && NameIsFree(s.table, username);
            && (Says(s.trace, after, from, HelloAck(true, 2, [])) <==>
                 version == 2 && (PeerIsIn(s.table, from) || (named && |s.table.sessions| < s.table.maxPlayers)))
            && (Says(s.trace, after, from, HelloAck(false, 2, Ascii("protocol version mismatch"))) <==> version != 2)
            && (Says(s.trace, after, from, HelloAck(false, 2, Ascii("name already taken"))) <==>
                 version == 2 && !PeerIsIn(s.table, from) && !named)
            && (Says(s.trace, after, from, HelloAck(false, 2, Ascii("server full"))) <==>
                 version == 2 && !PeerIsIn(s.table, from) && named && |s.table.sessions| >= s.table.maxPlayers)
  {
    hide HandleDatagram, Frame, Encodable, Says, Touch, JoinOutcome, PeerIsIn, NameIsFree, Ascii, Reason;
    var t := Touch(s.table, from, now);
    var outcome := JoinOutcome(t, from, username, version);
    SaidIsDecided(s, scripts, from, version, username, at, now, Accepted);
    SaidIsDecided(s, scripts, from, version, username, at, now, VersionMismatch);
    SaidIsDecided(s, scripts, from, version, username, at, now, NameTaken);
    SaidIsDecided(s, scripts, from, version, username, at, now, Full);
    OutcomeOfJoin(t, from, username, version, now);
    JoinDecides(t, from, username, version, now);
    TouchKeepsPeers(s.table, from, now, from);
    TouchKeepsSeats(s.table, from, now);
    AckTexts();
    AnswersSayWhy(outcome, Accepted);
    AnswersSayWhy(VersionMismatch, outcome);
    AnswersSayWhy(NameTaken, outcome);
    AnswersSayWhy(Full, outcome);
  }

  lemma OutcomeOfJoin(t: Table, from: Endpoint, username: Bytes, version: uint32, now: uint64)
    ensures Join(t, from, username, version, now).1 == JoinOutcome(t, from, username, version)
  {
    hide JoinOutcome;
  }

  lemma TouchKeepsSeats(t: Table, from: Endpoint, now: uint64)
    ensures |Touch(t, from, now).sessions| == |t.sessions| && Touch(t, from, now).maxPlayers == t.maxPlayers
  {
  }

  lemma AckTexts()
    ensures Ack(Accepted) == Ack(AlreadyJoined) == HelloAck(true, 2, [])
    ensures Ack(VersionMismatch) == HelloAck(false, 2, Ascii("protocol version mismatch"))
    ensures Ack(NameTaken) == HelloAck(false, 2, Ascii("name already taken"))
    ensures Ack(Full) == HelloAck(false, 2, Ascii("server full"))
  {
    hide Ascii;
  }

  // ---------------------------------------------------------------- the handshake

  // A hello of a peer that is in already, or of a new one with an allowed and free name on a server with a
  // seat left: among the datagrams sent in return is one that makes the client connected when it handles
  // it, whatever had happened to it before.
  lemma WelcomeHelloConnects(
    s: State, scripts: seq<Script>, from: Endpoint, username: Bytes, at: nat, now: uint64, c: Client.State)
    requires |username| <= MAX_STRING_SIZE
    requires || PeerIsIn(s.table, from)
             || (NameIsAllowed(username) && NameIsFree(s.table, username)
                 && |s.table.sessions| < s.table.maxPlayers)
    ensures Encodable(Hello(2, username)) && Encodable(HelloAck(true, 2, []))
    ensures var after := HandleDatagram(s, scripts, Arrival(from, Frame(Hello(2, username)), at), now).trace;
            && Says(s.trace, after, from, HelloAck(true, 2, []))
            && Client.HandleDatagram(c, Frame(HelloAck(true, 2, []))).net == Client.Connected
  {
    hide HandleDatagram, Frame, Says, PeerIsIn, NameIsFree;
    EncodableByText(Hello(2, username));
    EncodableByText(HelloAck(true, 2, []));
    hide Encodable;
    AnswersAreDeserved(s, scripts, from, 2, username, at, now);
    Client.EncodedArrives(c, HelloAck(true, 2, []));
  }

  // And a hello that is refused makes it refused.
  lemma RefusalRefuses(c: Client.State, reason: Bytes)
    requires |reason| <= MAX_STRING_SIZE
    ensures Encodable(HelloAck(false, 2, reason))
    ensures Client.HandleDatagram(c, Frame(HelloAck(false, 2, reason))).net == Client.Refused
  {
    EncodableByText(HelloAck(false, 2, reason));
    Client.EncodedArrives(c, HelloAck(false, 2, reason));
  }
}
