/** From the game of one client to the bodies in the game of another: a body stands between positions
    its player's game sent, and only moves forward along them. */
module SeenBodies {
  import opened Numbers
  import Protocol
  import opened Sessions
  import opened Traces
  import opened TraceRules
  import Server
  import opened ServerInvariant
  import opened ServerRuns
  import opened ServerTheorems
  import Client
  import opened Interpolation
  import opened World
  import opened RemoteBodies
  import opened Brackets
  import EndToEnd
  import opened TwoClients

  // ---------------------------------------------------------------- what holds of every whole run

  lemma WholeHolds(w: Setting, scripts: seq<Server.Script>, at: Places, events: seq<TwoClients.Event>)
    requires IdsLast(Whole(w, scripts, at, events).server)
    ensures var n := Whole(w, scripts, at, events);
            FirstOk(n, at) && EndToEnd.SystemOk(Seen(n), at.b, |scripts|)
  {
    hide Happen, FirstOk, EndToEnd.SystemOk;
    BeginFirstOk(w, at);
    FirstStaysOk(Begin(w), scripts, at, events);
    StartIsOk(w, scripts, at);
    SharesAddUp(Begin(w), scripts, at, events);
    EndToEnd.SystemKeeps(Seen(Begin(w)), scripts, at.b, Shares(Begin(w), scripts, at, events));
  }

  lemma StartIsOk(w: Setting, scripts: seq<Server.Script>, at: Places)
    ensures EndToEnd.SystemOk(Seen(Begin(w)), at.b, |scripts|)
  {
    StartHolds(w.maxPlayers, w.timeoutMs, |scripts|);
  }

  // The run without its last event is one as well, and the last event only adds to it.
  lemma WholeBefore(w: Setting, scripts: seq<Server.Script>, at: Places, events: seq<TwoClients.Event>)
    requires events != [] && IdsLast(Whole(w, scripts, at, events).server)
    ensures var before := Whole(w, scripts, at, events[..|events| - 1]);
            && IdsLast(before.server) && Later(before, Whole(w, scripts, at, events))
            && Whole(w, scripts, at, events) == Happen(before, scripts, at, events[|events| - 1])
  {
    hide Happen, FirstOk;
    var init := events[..|events| - 1];
    BeginFirstOk(w, at);
    FirstStaysOk(Begin(w), scripts, at, init);
    HappenIsLater(Whole(w, scripts, at, init), scripts, at, events[|events| - 1]);
    AdmissionsInPrefix(Whole(w, scripts, at, init).server.trace, Whole(w, scripts, at, events).server.trace);
  }

  // ---------------------------------------------------------------- the frames hold what was sent

  // This snapshot of p belongs to an admitted player, and if that player is the first client, its game
  // sent it.
  ghost predicate Sourced(n: Net, at: Places, p: uint32, r: Client.RemoteSnapshot) {
    && p in Owners(n.server.trace)
    && (Owners(n.server.trace)[p].endpoint == at.a ==> exists k :: IsSent(n.a, k, r))
  }

  lemma SourcedStays(n: Net, n': Net, at: Places, p: uint32, r: Client.RemoteSnapshot)
    requires Sourced(n, at, p, r) && Later(n, n') && TraceOk(n'.server.trace)
    ensures Sourced(n', at, p, r)
  {
    hide TraceOk, IsSent, Owners;
    var t := n'.server.trace;
    assert t[..|n.server.trace|] == n.server.trace && t[..|t|] == t;
    OwnersStay(t, |n.server.trace|, |t|, p);
    if Owners(t)[p].endpoint == at.a {
      var k :| IsSent(n.a, k, r);
      IsSentStays(n.a, n'.a, k, r);
    }
  }

  lemma HeldIsSourced(w: Setting, scripts: seq<Server.Script>, at: Places, events: seq<TwoClients.Event>, p: uint32)
    requires IdsLast(Whole(w, scripts, at, events).server) && p in Whole(w, scripts, at, events).b.remote
    ensures var n := Whole(w, scripts, at, events);
            Sourced(n, at, p, n.b.remote[p])
  {
    hide Happen, IsSent, Reported, Owners;
    var n := Whole(w, scripts, at, events);
    SharesAddUp(Begin(w), scripts, at, events);
    EndToEnd.HeldIsReported(w.maxPlayers, w.timeoutMs, w.nameB, w.startB, scripts, at.b,
                            Shares(Begin(w), scripts, at, events), p);
    if Owners(n.server.trace)[p].endpoint == at.a {
      HeldWasThere(w, scripts, at, events, p);
    }
  }

  // Whatever snapshot a frame of the second client's game was given was sourced.
  lemma {:induction false} FramesAreSourced(
    w: Setting, scripts: seq<Server.Script>, at: Places, events: seq<TwoClients.Event>, i: nat, p: uint32)
    requires IdsLast(Whole(w, scripts, at, events).server)
    requires i < |Whole(w, scripts, at, events).game| && p in Whole(w, scripts, at, events).game[i].remote
    ensures var n := Whole(w, scripts, at, events);
            Sourced(n, at, p, n.game[i].remote[p])
  {
    hide Sourced, IdsLast, FirstOk, TraceOk;
    if events == [] {
      assert false;
    } else {
      var init, last := events[..|events| - 1], events[|events| - 1];
      var before, n := Whole(w, scripts, at, init), Whole(w, scripts, at, events);
      WholeBefore(w, scripts, at, events);
      if i < |before.game| {
        FramesAreSourced(w, scripts, at, init, i, p);
      } else {
        NewFrame(before, scripts, at, last);
        HeldIsSourced(w, scripts, at, init, p);
      }
      WholeTraceOk(w, scripts, at, events);
      SourcedStays(before, n, at, p, n.game[i].remote[p]);
    }
  }

  lemma WholeTraceOk(w: Setting, scripts: seq<Server.Script>, at: Places, events: seq<TwoClients.Event>)
    requires IdsLast(Whole(w, scripts, at, events).server)
    ensures TraceOk(Whole(w, scripts, at, events).server.trace)
  {
    hide Whole, TraceOk;
    WholeHolds(w, scripts, at, events);
  }

  lemma NewFrame(n: Net, scripts: seq<Server.Script>, at: Places, e: TwoClients.Event)
    ensures var r := Happen(n, scripts, at, e);
            |r.game| > |n.game| ==> |r.game| == |n.game| + 1 && r.game[|n.game|].remote == n.b.remote
  {
    hide Server.Iterate, Client.Iterate, PlayFrame, SentBy;
  }

  // ---------------------------------------------------------------- no leave is taken unheard

  predicate NoLeaveYet(n: Net, p: uint32) {
    NeverLeaves(n.b.events, p) && NeverLeaves(n.taken, p) && Stays(n.game, p)
  }

  lemma MessageEvents(c: Client.State, m: Protocol.Message, p: uint32)
    requires NeverLeaves(c.events, p) && m != Protocol.NotifyPlayerLeft(p)
    ensures NeverLeaves(Client.HandleMessage(c, m).events, p)
  {
  }

  lemma OtherTypesAreCounted(c: Client.State, m: Protocol.Message)
    requires Protocol.Encodable(m) && !Client.ForClient(Protocol.TypeOf(m))
    ensures Client.HandleDatagram(c, Protocol.Frame(m)) == c.(malformed := c.malformed + 1)
  {
    Protocol.FrameIsFramed(m);
    Protocol.PeekHeaderExact(Protocol.Frame(m));
  }

  lemma TimersKeepEvents(c: Client.State, now: uint64, micros: uint64)
    ensures Client.Timers(c, now, micros).events == c.events
  {
  }

  lemma DeliveryEvents(c: Client.State, m: Protocol.Message, now: uint64, micros: uint64, p: uint32)
    requires Protocol.Encodable(m) && Protocol.ShortText(m)
    requires m != Protocol.NotifyPlayerLeft(p) && NeverLeaves(c.events, p)
    ensures NeverLeaves(Client.Iterate(c, Client.Turn(now, micros, Some(Protocol.Frame(m)))).events, p)
  {
    hide Client.Timers, Client.HandleDatagram, Client.HandleMessage;
    hide Protocol.Frame, Protocol.Encodable, Protocol.ShortText;
    var c1 := Client.Timers(c, now, micros);
    TimersKeepEvents(c, now, micros);
    var c2 := Client.Hear(c1, now);
    if Client.ForClient(Protocol.TypeOf(m)) {
      Client.EncodedArrives(c2, m);
      MessageEvents(c2, m, p);
    } else {
      OtherTypesAreCounted(c2, m);
    }
  }

  lemma HappenTakesNoLeave(n: Net, scripts: seq<Server.Script>, at: Places, e: TwoClients.Event, p: uint32)
    requires NoLeaveYet(n, p) && TraceOk(n.server.trace)
    requires var share := Share(n, scripts, at, e);
             share != [] ==> !EndToEnd.DeliversLeave(n.server.trace, at.b, share[0], p)
    ensures NoLeaveYet(Happen(n, scripts, at, e), p)
  {
    hide TraceOk, Server.Iterate, Client.Iterate, PlayFrame, SentBy, Protocol.Frame, Protocol.Encodable;
    match e {
      case TurnB(now, micros, index) =>
        if Delivered(n.server.trace, index, at.b).Some? {
          EntryAt(n.server.trace, index.value);
          DeliveryEvents(n.b, n.server.trace[index.value].msg, now, micros, p);
        } else {
          IdleEvents(n.b, now, micros);
        }
      case _ =>
    }
  }

  lemma IdleEvents(c: Client.State, now: uint64, micros: uint64)
    ensures Client.Iterate(c, Client.Turn(now, micros, None)).events == c.events
  {
    hide Client.Timers;
    TimersKeepEvents(c, now, micros);
  }

  lemma LeaveSplits(
    s: EndToEnd.System, scripts: seq<Server.Script>, me: Endpoint,
    first: seq<EndToEnd.Event>, second: seq<EndToEnd.Event>, p: uint32)
    requires EndToEnd.LeaveNotDelivered(s, scripts, me, first + second, p) && |second| <= 1
    ensures EndToEnd.LeaveNotDelivered(s, scripts, me, first, p)
    ensures second != [] ==>
              !EndToEnd.DeliversLeave(EndToEnd.HappenAll(s, scripts, me, first).server.trace, me, second[0], p)
  {
    hide EndToEnd.HappenAll, EndToEnd.DeliversLeave;
    forall i | 0 <= i < |first|
      ensures !EndToEnd.DeliversLeave(EndToEnd.HappenAll(s, scripts, me, first[..i]).server.trace, me, first[i], p)
    {
      assert (first + second)[..i] == first[..i] && (first + second)[i] == first[i];
    }
    if second != [] {
      assert (first + second)[..|first|] == first && (first + second)[|first|] == second[0];
    }
  }

  lemma {:induction false} NoLeaveIsTaken(
    w: Setting, scripts: seq<Server.Script>, at: Places, events: seq<TwoClients.Event>, p: uint32)
    requires IdsLast(Whole(w, scripts, at, events).server) && LeaveUnheard(Begin(w), scripts, at, events, p)
    ensures NoLeaveYet(Whole(w, scripts, at, events), p)
  {
    if events != [] {
      hide Happen, Share, NoLeaveYet, EndToEnd.LeaveNotDelivered, EndToEnd.DeliversLeave, TraceOk;
      var init, last := events[..|events| - 1], events[|events| - 1];
      var before := Whole(w, scripts, at, init);
      var share := Share(before, scripts, at, last);
      WholeBefore(w, scripts, at, events);
      SharesAddUp(Begin(w), scripts, at, init);
      OneShare(before, scripts, at, last);
      LeaveSplits(Seen(Begin(w)), scripts, at.b, Shares(Begin(w), scripts, at, init), share, p);
      NoLeaveIsTaken(w, scripts, at, init, p);
      WholeTraceOk(w, scripts, at, init);
      HappenTakesNoLeave(before, scripts, at, last, p);
    }
  }

  // ---------------------------------------------------------------- where a body stands

  // The snapshots that gave p's body its samples, in order.
  function SeenFrames(n: Net, reading: Reading, p: uint32): seq<Frame> {
    Kept(Moved(map[], n.game, reading, p))
  }

  function SeenHistory(n: Net, reading: Reading, p: uint32): seq<Sample> {
    Observed(Moved(map[], n.game, reading, p)).history
  }

  // This frame was given a snapshot that the first client's game sent.
  ghost predicate ShowsSent(a: Peer, f: Frame, reading: Reading) {
    exists r: Client.RemoteSnapshot ::
      && f.tick == r.tick && f.pose == PoseOf(r, reading)
      && exists k :: IsSent(a, k, r)
  }

  // Every frame in which the body moved came from a frame of the game.
  lemma {:induction false} MovedFrom(
    b: Bodies, frames: seq<GameFrame>, reading: Reading, p: uint32, m: Frame) returns (i: nat)
    requires m in Moved(b, frames, reading, p)
    ensures i < |frames| && p in frames[i].remote
    ensures m == Frame(frames[i].now, frames[i].remote[p].tick, PoseOf(frames[i].remote[p], reading))
  {
    var init := frames[..|frames| - 1];
    if m in Moved(b, init, reading, p) {
      i := MovedFrom(b, init, reading, p, m);
    } else {
      i := |frames| - 1;
    }
  }

  // Player p belongs to the first client.
  predicate Owned(n: Net, at: Places, p: uint32) {
    p in Owners(n.server.trace) && Owners(n.server.trace)[p].endpoint == at.a
  }

  lemma SeenWasSent(
    w: Setting, scripts: seq<Server.Script>, at: Places, events: seq<TwoClients.Event>,
    reading: Reading, p: uint32, f: Frame)
    requires var n := Whole(w, scripts, at, events);
             IdsLast(n.server) && Owned(n, at, p) && f in SeenFrames(n, reading, p)
    ensures ShowsSent(Whole(w, scripts, at, events).a, f, reading) && f.tick >= 1
  {
    hide Whole, IsSent, IdsLast, Owners, Moved, Kept;
    var n := Whole(w, scripts, at, events);
    KeptIsHistory(Moved(map[], n.game, reading, p));
    var i := MovedFrom(map[], n.game, reading, p, f);
    FramesAreSourced(w, scripts, at, events, i, p);
    var r := n.game[i].remote[p];
    assert f.tick == r.tick && f.pose == PoseOf(r, reading);
  }

  // How the position in a snapshot reads.
  function PoseSent(x: Client.Outgoing, reading: Reading): Pose
    requires x.msg.PlayerState?
  {
    PoseOf(Client.RemoteSnapshot(x.msg.tick, x.msg.position, x.msg.rotation), reading)
  }

  // The snapshot with this tick, which counts the snapshots sent from 1, shows this pose.
  predicate SentWithPose(a: Peer, tick: nat, pose: Pose, reading: Reading) {
    && 1 <= tick <= |a.sender.sent|
    && a.sender.sent[tick - 1].msg.PlayerState?
    && PoseSent(a.sender.sent[tick - 1], reading) == pose
    && FromSomeFrame(a.frames, a.sender.sent[tick - 1])
  }

  lemma ShownTickIsNumber(a: Peer, f: Frame, reading: Reading)
    requires ShowsSent(a, f, reading) && |a.sender.sent| < TWO_64
    ensures SentWithPose(a, f.tick, f.pose, reading)
  {
    hide FromSomeFrame;
    var r: Client.RemoteSnapshot :|
      f.tick == r.tick && f.pose == PoseOf(r, reading) && exists k :: IsSent(a, k, r);
    var k :| IsSent(a, k, r);
    SentIsPlain(a, k, r);
  }

  // The pose lies between those of the j-th and the k-th snapshot the first client's game sent.
  predicate StandsBetween(a: Peer, j: nat, k: nat, pose: Pose, reading: Reading) {
    && j <= k < |a.sender.sent|
    && a.sender.sent[j].msg.PlayerState? && a.sender.sent[k].msg.PlayerState?
    && PoseWithin(PoseSent(a.sender.sent[j], reading), pose, PoseSent(a.sender.sent[k], reading))
    && FromSomeFrame(a.frames, a.sender.sent[j]) && FromSomeFrame(a.frames, a.sender.sent[k])
  }

  // The numbers, counted from 0, of the two snapshots between which a body with these samples is shown.
  function PairOf(acc: seq<Frame>, history: seq<Sample>, now: uint64): (int, int)
    requires history != [] && |acc| == |history|
  {
    var (x, y) := BracketIn(history, RenderMs(now));
    (acc[x].tick - 1, acc[y].tick - 1)
  }

  // The same of p's body in the last frame.
  function SentPair(n: Net, reading: Reading, p: uint32): (int, int) {
    var acc, history := SeenFrames(n, reading, p), SeenHistory(n, reading, p);
    if n.game == [] || history == [] || |acc| != |history| then (0, 0)
    else PairOf(acc, history, n.game[|n.game| - 1].now)
  }

  lemma StandsWhere(a: Peer, acc: seq<Frame>, history: seq<Sample>, x: nat, y: nat, pose: Pose, reading: Reading)
    requires SamplesOf(history, acc) && RisingTicks(acc) && x <= y < |acc| && |a.sender.sent| < TWO_64
    requires ShowsSent(a, acc[x], reading) && ShowsSent(a, acc[y], reading)
    requires PoseWithin(history[x].pose, pose, history[y].pose)
    ensures 1 <= acc[x].tick <= acc[y].tick
    ensures StandsBetween(a, acc[x].tick - 1, acc[y].tick - 1, pose, reading)
  {
    hide ShowsSent, FromSomeFrame, PoseWithin, PoseSent;
    ShownTickIsNumber(a, acc[x], reading);
    ShownTickIsNumber(a, acc[y], reading);
    assert x < y ==> acc[x].tick < acc[y].tick;
  }

  lemma PairStands(a: Peer, acc: seq<Frame>, history: seq<Sample>, now: uint64, reading: Reading)
    requires SamplesOf(history, acc) && RisingTicks(acc) && history != [] && |a.sender.sent| < TWO_64
    requires forall f :: f in acc ==> ShowsSent(a, f, reading)
    ensures var (j, k) := PairOf(acc, history, now);
            0 <= j <= k && StandsBetween(a, j, k, Placed(Window(history), now).pose, reading)
  {
    hide Placed, Window, BracketIn, PoseWithin, ShowsSent, RisingTicks, StandsBetween;
    WindowNotEmpty(history);
    PlacedInHistory(history, now);
    var (x, y) := BracketIn(history, RenderMs(now));
    assert acc[x] in acc && acc[y] in acc;
    StandsWhere(a, acc, history, x, y, Placed(Window(history), now).pose, reading);
  }

  // In this run p is the first client's player and the second client has not heard that it left.
  ghost predicate Watched(
    w: Setting, scripts: seq<Server.Script>, at: Places, events: seq<TwoClients.Event>, p: uint32)
  {
    var n := Whole(w, scripts, at, events);
    && IdsLast(n.server) && Owned(n, at, p) && |n.a.sender.sent| < TWO_64
    && LeaveUnheard(Begin(w), scripts, at, events, p)
  }

  // In every frame in which the second client's game places the body of the first one's player, over
  // whatever network: coordinate by coordinate it stands between the positions of two snapshots that
  // the first one's game sent, the first not after the second.
  lemma PlacedWhereSent(
    w: Setting, scripts: seq<Server.Script>, at: Places, events: seq<TwoClients.Event>, reading: Reading, p: uint32)
    requires Watched(w, scripts, at, events, p)
    requires p in LastPlacements(map[], Whole(w, scripts, at, events).game, reading)
    ensures var n := Whole(w, scripts, at, events);
            var (j, k) := SentPair(n, reading, p);
            0 <= j <= k && StandsBetween(n.a, j, k, LastPlacements(map[], n.game, reading)[p].pose, reading)
  {
    hide Whole, IdsLast, Owned, LeaveUnheard, Moved, Kept, Observed, ShowsSent, StandsBetween, PairOf, Placed;
    hide LastPlacements, Window, RisingTicks;
    var n := Whole(w, scripts, at, events);
    var acc, history := SeenFrames(n, reading, p), SeenHistory(n, reading, p);
    NoLeaveIsTaken(w, scripts, at, events, p);
    GamePlaces(n.game, reading, p);
    KeptIsHistory(Moved(map[], n.game, reading, p));
    forall f | f in acc
      ensures ShowsSent(n.a, f, reading)
    {
      SeenWasSent(w, scripts, at, events, reading, p, f);
    }
    PairStands(n.a, acc, history, n.game[|n.game| - 1].now, reading);
  }

  lemma GamePlaces(game: seq<GameFrame>, reading: Reading, p: uint32)
    requires Stays(game, p) && p in LastPlacements(map[], game, reading)
    ensures var history := Observed(Moved(map[], game, reading, p)).history;
            && game != [] && history != []
            && LastPlacements(map[], game, reading)[p] == Placed(Window(history), game[|game| - 1].now)
  {
    hide Moved, Observed, Placed, Stays;
    PlacedByWindow(map[], game, reading, p);
  }

  // ---------------------------------------------------------------- and only forward

  lemma {:induction false} MovedGrows(b: Bodies, frames: seq<GameFrame>, n: nat, reading: Reading, p: uint32)
    requires n <= |frames|
    ensures Moved(b, frames[..n], reading, p) <= Moved(b, frames, reading, p)
    decreases |frames|
  {
    hide Moves, Ready;
    if n < |frames| {
      MovedGrows(b, frames[..|frames| - 1], n, reading, p);
      assert frames[..|frames| - 1][..n] == frames[..n];
    } else {
      assert frames[..n] == frames;
    }
  }

  // What gave a body its samples is kept, and added to, as the game goes on.
  lemma SeenGrows(game: seq<GameFrame>, game': seq<GameFrame>, reading: Reading, p: uint32)
    requires game <= game'
    ensures var m, m' := Moved(map[], game, reading, p), Moved(map[], game', reading, p);
            Kept(m) <= Kept(m') && Observed(m).history <= Observed(m').history
  {
    hide Moved, Kept, Observed;
    var m, m' := Moved(map[], game, reading, p), Moved(map[], game', reading, p);
    assert game'[..|game|] == game;
    MovedGrows(map[], game', |game|, reading, p);
    assert m'[..|m|] == m;
    KeptGrows(m', |m|);
    HistoryGrows(m', |m|);
  }

  // A sample of p's body is as old as the moment the last frame renders.
  predicate Settled(n: Net, reading: Reading, p: uint32) {
    var history := SeenHistory(n, reading, p);
    n.game != [] && history != [] && Window(history)[0].localMs <= RenderMs(n.game[|n.game| - 1].now)
  }

  // The samples of p's body come from frames, the last of which is not after the last frame.
  lemma SeenSpaced(game: seq<GameFrame>, reading: Reading, p: uint32)
    requires game != [] && GameFramesApart(game)
    ensures var h := Observed(Moved(map[], game, reading, p)).history;
            Spaced(h) && (h != [] ==> h[|h| - 1].localMs <= game[|game| - 1].now)
  {
    hide Moved, Observed, Spaced, FramesApart;
    MovedApart(map[], game, reading, p);
    FramesApartSpaceSamples(Moved(map[], game, reading, p));
  }

  lemma ApartStays(game: seq<GameFrame>, game': seq<GameFrame>)
    requires game != [] && game <= game' && GameFramesApart(game')
    ensures GameFramesApart(game) && game[|game| - 1].now <= game'[|game'| - 1].now
  {
    assert forall k :: 0 <= k < |game| ==> game[k] == game'[k];
  }

  lemma PairsMoveOn(
    acc: seq<Frame>, acc': seq<Frame>, h: seq<Sample>, h': seq<Sample>, now: uint64, now': uint64)
    requires SamplesOf(h, acc) && SamplesOf(h', acc') && RisingTicks(acc') && acc <= acc' && h <= h'
    requires h != [] && Spaced(h') && now <= now' && h[|h| - 1].localMs <= now && h'[|h'| - 1].localMs <= now'
    requires Window(h)[0].localMs <= RenderMs(now)
    ensures PairOf(acc, h, now).0 <= PairOf(acc', h', now').0 && PairOf(acc, h, now).1 <= PairOf(acc', h', now').1
  {
    hide BracketIn, Window, Spaced, RisingTicks, RenderMs;
    BracketNeverRewinds(h, h', now, now');
    var (x, y) := BracketIn(h, RenderMs(now));
    var (x', y') := BracketIn(h', RenderMs(now'));
    LaterTicks(acc, acc', x, x');
    LaterTicks(acc, acc', y, y');
  }

  lemma PairMovesOn(n: Net, n': Net, reading: Reading, p: uint32)
    requires n.game <= n'.game && GameFramesApart(n'.game) && Settled(n, reading, p)
    ensures SentPair(n, reading, p).0 <= SentPair(n', reading, p).0
    ensures SentPair(n, reading, p).1 <= SentPair(n', reading, p).1
  {
    hide Moved, Kept, Observed, PairOf, Window, Spaced, GameFramesApart, RenderMs, RisingTicks;
    SeenGrows(n.game, n'.game, reading, p);
    ApartStays(n.game, n'.game);
    SeenSpaced(n.game, reading, p);
    SeenSpaced(n'.game, reading, p);
    KeptIsHistory(Moved(map[], n.game, reading, p));
    KeptIsHistory(Moved(map[], n'.game, reading, p));
    PairsMoveOn(SeenFrames(n, reading, p), SeenFrames(n', reading, p),
                SeenHistory(n, reading, p), SeenHistory(n', reading, p),
                n.game[|n.game| - 1].now, n'.game[|n'.game| - 1].now);
  }

  lemma LaterTicks(acc: seq<Frame>, acc': seq<Frame>, x: nat, x': nat)
    requires acc <= acc' && RisingTicks(acc') && x <= x' && x < |acc| && x' < |acc'|
    ensures acc[x].tick <= acc'[x'].tick
  {
    assert acc[x] == acc'[x];
  }

  // If the second client's frames come at least 15 ms apart: once a sample of the body is as old as
  // the moment shown, the pair of snapshots it stands between never goes back to an earlier one, from
  // that frame to any later one.
  lemma PlacedInSentOrder(
    w: Setting, scripts: seq<Server.Script>, at: Places, events: seq<TwoClients.Event>, more: seq<TwoClients.Event>,
    reading: Reading, p: uint32)
    requires GameFramesApart(Whole(w, scripts, at, events + more).game)
    requires Settled(Whole(w, scripts, at, events), reading, p)
    ensures var n, n' := Whole(w, scripts, at, events), Whole(w, scripts, at, events + more);
            && SentPair(n, reading, p).0 <= SentPair(n', reading, p).0
            && SentPair(n, reading, p).1 <= SentPair(n', reading, p).1
  {
    hide Happen, FirstOk, SentPair, Settled, GameFramesApart;
    var n := Whole(w, scripts, at, events);
    HappenAllInTwo(Begin(w), scripts, at, events, more);
    BeginFirstOk(w, at);
    FirstStaysOk(Begin(w), scripts, at, events);
    HappenAllIsLater(n, scripts, at, more);
    PairMovesOn(n, Whole(w, scripts, at, events + more), reading, p);
  }
}
