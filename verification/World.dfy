/** The bodies of remote players, PumpRemotePlayers of src/client/WorldSystem.cpp, and the rate
    limit on the local player's own snapshots. */
module World {
  import opened Numbers
  import opened Protocol
  import opened Client
  import opened Interpolation

  const STATE_SEND_INTERVAL_MS: nat := 66

  // `hasEntity` says that the engine accepted the request for an entity.
  datatype RemoteBody = RemoteBody(spawnRequested: bool, hasEntity: bool, lastTick: uint64, samples: seq<Sample>)

  type Bodies = map<uint32, RemoteBody>

  const NEW_BODY: RemoteBody := RemoteBody(false, false, 0, [])

  // What the engine answers in one frame: whether its entity system is there, the players whose
  // spawn request it would accept, and those whose entity has come into being.
  datatype Engine = Engine(ready: bool, accepts: set<uint32>, resolved: set<uint32>)

  // How a bit pattern reads as a number; nothing depends on which reading it is.
  type Reading = Float32 -> real

  // ---------------------------------------------------------------- events

  // A join adds a body if there is none, a leave removes it.
  function ApplyEvent(b: Bodies, e: RemoteEvent): Bodies {
    if !e.joined then b - {e.playerId}
    else if e.playerId in b then b
    else b[e.playerId := NEW_BODY]
  }

  function ApplyEvents(b: Bodies, events: seq<RemoteEvent>): Bodies {
    if events == [] then b else ApplyEvent(ApplyEvents(b, events[..|events| - 1]), events[|events| - 1])
  }

  lemma {:induction false} ApplyEventsInTwo(b: Bodies, first: seq<RemoteEvent>, second: seq<RemoteEvent>)
    ensures ApplyEvents(b, first + second) == ApplyEvents(ApplyEvents(b, first), second)
  {
    if second == [] {
      assert first + second == first;
    } else {
      var n := |second| - 1;
      ApplyEventsInTwo(b, first, second[..n]);
      assert (first + second)[..|first| + n] == first + second[..n];
    }
  }

  // ---------------------------------------------------------------- snapshots

  function PoseOf(s: RemoteSnapshot, reading: Reading): Pose {
    Pose(reading(s.position.x), reading(s.position.y), reading(s.position.z), reading(s.rotation))
  }

  function Sampled(b: RemoteBody, s: RemoteSnapshot, now: uint64, reading: Reading): RemoteBody {
    if s.tick <= b.lastTick then b
    else b.(lastTick := s.tick, samples := Push(b.samples, Sample(now, PoseOf(s, reading))))
  }

  // The first snapshot asks for an entity; once that exists, newer snapshots become samples.
  function PumpBody(
    b: RemoteBody, id: uint32, s: RemoteSnapshot, now: uint64, engine: Engine, reading: Reading): RemoteBody
  {
    if !b.spawnRequested then b.(spawnRequested := true, hasEntity := id in engine.accepts)
    else if !b.hasEntity || id !in engine.resolved then b
    else Sampled(b, s, now, reading)
  }

  function PumpSnapshots(
    b: Bodies, remote: map<uint32, RemoteSnapshot>, now: uint64, engine: Engine, reading: Reading): Bodies
  {
    if !engine.ready then b
    else map id | id in b :: if id in remote then PumpBody(b[id], id, remote[id], now, engine, reading) else b[id]
  }

  // Sampling a body that can be moved is what the interpolation results are about.
  lemma SampledIsObserved(b: RemoteBody, s: RemoteSnapshot, now: uint64, reading: Reading, history: seq<Sample>)
    ensures var r := Sampled(b, s, now, reading);
            var t := Observe(Track(b.lastTick, b.samples, history), Frame(now, s.tick, PoseOf(s, reading)));
            r.lastTick == t.lastTick && r.samples == t.samples
  {
  }

  // ---------------------------------------------------------------- placing bodies

  // The engine has brought the entity of this body into being.
  predicate Movable(b: RemoteBody, id: uint32, engine: Engine) {
    b.spawnRequested && b.hasEntity && id in engine.resolved
  }

  // What the engine is told about a body: where to put it and how fast it moves.
  datatype Placement = Placement(pose: Pose, velocity: (real, real, real))

  function Placed(samples: seq<Sample>, now: uint64): Placement
    requires samples != []
  {
    var d := Shown(samples, RenderMs(now));
    Placement(PoseAt(d, RenderMs(now)), VelocityOf(d))
  }

  // Where a body is put in one frame, given its snapshot; nowhere while it cannot be moved or has
  // no sample.
  function PlacementOf(
    b: RemoteBody, id: uint32, s: RemoteSnapshot, now: uint64, engine: Engine, reading: Reading): Option<Placement>
  {
    var samples := Sampled(b, s, now, reading).samples;
    if Movable(b, id, engine) && samples != [] then Some(Placed(samples, now)) else None
  }

  // The bodies placed in one frame, and where.
  function Placements(b: Bodies, remote: map<uint32, RemoteSnapshot>, now: uint64, engine: Engine, reading: Reading)
    : map<uint32, Placement>
  {
    if !engine.ready then map[]
    else
      map id | id in b && id in remote && PlacementOf(b[id], id, remote[id], now, engine, reading).Some?
        :: PlacementOf(b[id], id, remote[id], now, engine, reading).value
  }

  // ---------------------------------------------------------------- sending the local player

  // A zero of either sign.
  predicate IsZero(f: Float32) {
    f == 0 || f == 0x8000_0000
  }

  // The position read while there is no player yet.
  predicate Nowhere(position: Vec3) {
    IsZero(position.x) && IsZero(position.y) && IsZero(position.z)
  }

  // The timer of the frames, the tick counter of the connection, and the snapshots sent on it.
  datatype Sender = Sender(lastSentMs: uint64, stateTick: uint64, sent: seq<Outgoing>)

  function SendState(s: Sender, now: uint64, connected: bool, position: Vec3, rotation: Float32): Sender {
    if !connected then s
    else
      var tick := (s.stateTick + 1) % TWO_64;
      s.(stateTick := tick, sent := s.sent + [Outgoing(now, PlayerState(tick, position, rotation))])
  }

  // One frame. The timer starts over even when there is no connection to send on.
  function SendLocalState(s: Sender, now: uint64, connected: bool, position: Vec3): Sender {
    if Minus64(now, s.lastSentMs) < STATE_SEND_INTERVAL_MS || Nowhere(position) then s
    else SendState(s.(lastSentMs := now), now, connected, position, 0)
  }

  datatype LocalFrame = LocalFrame(now: uint64, connected: bool, position: Vec3)

  function SendAll(frames: seq<LocalFrame>): Sender {
    if frames == [] then Sender(0, 0, [])
    else
      var f := frames[|frames| - 1];
      SendLocalState(SendAll(frames[..|frames| - 1]), f.now, f.connected, f.position)
  }

  // This snapshot shows where the player was in that frame.
  predicate Shows(x: Outgoing, f: LocalFrame) {
    && x.msg.PlayerState?
    && x.at == f.now && x.msg.position == f.position && x.msg.rotation == 0
    && f.connected && !Nowhere(f.position)
  }

  predicate FromSomeFrame(frames: seq<LocalFrame>, x: Outgoing) {
    exists i :: 0 <= i < |frames| && Shows(x, frames[i])
  }

  predicate Numbered(sent: seq<Outgoing>) {
    forall k :: 0 <= k < |sent| ==> sent[k].msg.PlayerState? && sent[k].msg.tick == (k + 1) % TWO_64
  }

  predicate SendsApart(sent: seq<Outgoing>) {
    forall k :: 0 <= k < |sent| - 1 ==> sent[k].at + STATE_SEND_INTERVAL_MS <= sent[k + 1].at
  }

  // Where the timer and the counter stand after these frames.
  predicate Paced(s: Sender) {
    SendsApart(s.sent) && (s.sent != [] ==> s.sent[|s.sent| - 1].at <= s.lastSentMs)
  }

  predicate Counted(s: Sender) {
    Numbered(s.sent) && s.stateTick == |s.sent| % TWO_64
  }

  lemma FrameKeepsPace(s: Sender, f: LocalFrame)
    requires Paced(s) && s.lastSentMs <= f.now
    ensures var r := SendLocalState(s, f.now, f.connected, f.position);
            Paced(r) && r.lastSentMs <= f.now
  {
  }

  lemma NextTick(n: nat)
    ensures (n % TWO_64 + 1) % TWO_64 == (n + 1) % TWO_64
  {
  }

  // However often frames come, snapshots go out at least 66 ms apart ...
  lemma {:induction false} LocalStatesAreSpaced(frames: seq<LocalFrame>)
    requires forall i, j :: 0 <= i < j < |frames| ==> frames[i].now <= frames[j].now
    ensures SendsApart(SendAll(frames).sent) && Paced(SendAll(frames))
    ensures SendAll(frames).lastSentMs <= if frames == [] then 0 else frames[|frames| - 1].now
  {
    if frames != [] {
      var init, f := frames[..|frames| - 1], frames[|frames| - 1];
      LocalStatesAreSpaced(init);
      assert SendAll(init).lastSentMs <= f.now;
      FrameKeepsPace(SendAll(init), f);
    }
  }

  // ... they are numbered 1, 2, 3, ..., so none carries tick 0 before 2^64 of them ...
  lemma {:induction false} LocalStatesAreNumbered(frames: seq<LocalFrame>)
    ensures Numbered(SendAll(frames).sent) && Counted(SendAll(frames))
  {
    if frames != [] {
      LocalStatesAreNumbered(frames[..|frames| - 1]);
      NextTick(|SendAll(frames[..|frames| - 1]).sent|);
    }
  }

  // ... and each shows the player where a frame with a connection saw it, facing nowhere yet.
  lemma {:induction false} LocalStatesAreSeen(frames: seq<LocalFrame>, x: Outgoing)
    requires x in SendAll(frames).sent
    ensures FromSomeFrame(frames, x)
  {
    var init, f := frames[..|frames| - 1], frames[|frames| - 1];
    if x in SendAll(init).sent {
      LocalStatesAreSeen(init, x);
      var i :| 0 <= i < |init| && Shows(x, init[i]);
      assert Shows(x, frames[i]);
    } else {
      assert Shows(x, f) && f == frames[|frames| - 1];
    }
  }

  // What a frame that takes its turn sends, if there is a connection.
  ghost predicate TurnTaken(sent: seq<Outgoing>, f: LocalFrame) {
    !Nowhere(f.position) && (f.connected ==> exists x :: x in sent && Shows(x, f))
  }

  // The timer stands at the last frame that took its turn, or at 0.
  ghost predicate TimerStands(frames: seq<LocalFrame>) {
    || SendAll(frames).lastSentMs == 0
    || exists i :: 0 <= i < |frames| && frames[i].now == SendAll(frames).lastSentMs
                   && TurnTaken(SendAll(frames).sent, frames[i])
  }

  lemma FrameTakesTurn(s: Sender, f: LocalFrame)
    ensures var r := SendLocalState(s, f.now, f.connected, f.position);
            if Minus64(f.now, s.lastSentMs) < STATE_SEND_INTERVAL_MS || Nowhere(f.position) then r == s
            else r.lastSentMs == f.now && s.sent <= r.sent && TurnTaken(r.sent, f)
  {
    var r := SendLocalState(s, f.now, f.connected, f.position);
    if r != s && f.connected {
      assert Shows(r.sent[|s.sent|], f);
    }
  }

  lemma {:induction false} TimerFollows(frames: seq<LocalFrame>)
    ensures TimerStands(frames)
  {
    if frames != [] {
      var init, n := frames[..|frames| - 1], |frames| - 1;
      hide SendLocalState, Shows;
      TimerFollows(init);
      FrameTakesTurn(SendAll(init), frames[n]);
      if SendAll(frames) == SendAll(init) {
        assert forall i :: 0 <= i < n ==> init[i] == frames[i];
      } else {
        assert frames[n].now == SendAll(frames).lastSentMs && TurnTaken(SendAll(frames).sent, frames[n]);
      }
    }
  }

  // In every frame that sees a player, once the clock has passed the first 66 ms: less than 66 ms
  // ago some frame that saw one took its turn, and if it had a connection its snapshot went out.
  lemma LocalStatesKeepComing(frames: seq<LocalFrame>)
    requires forall i, j :: 0 <= i < j < |frames| ==> frames[i].now <= frames[j].now
    requires frames != [] && !Nowhere(frames[|frames| - 1].position)
    requires frames[|frames| - 1].now >= STATE_SEND_INTERVAL_MS
    ensures exists i :: 0 <= i < |frames| && frames[|frames| - 1].now < frames[i].now + STATE_SEND_INTERVAL_MS
                        && TurnTaken(SendAll(frames).sent, frames[i])
  {
    hide SendLocalState, TurnTaken, Nowhere;
    var init, f := frames[..|frames| - 1], frames[|frames| - 1];
    LocalStatesAreSpaced(init);
    assert SendAll(init).lastSentMs <= f.now;
    TimerFollows(frames);
    FrameTakesTurn(SendAll(init), f);
  }
}
