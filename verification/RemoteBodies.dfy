/** Remote players over whole runs of game frames: what a body has sampled since it was added, and
    that it is placed where its whole history says. */
module RemoteBodies {
  import opened Numbers
  import opened Client
  import opened Interpolation
  import opened World

  // One frame of PumpRemotePlayers: the clock, the events taken, the snapshots copied, the engine.
  datatype GameFrame = GameFrame(
    now: uint64,
    events: seq<RemoteEvent>,
    remote: map<uint32, RemoteSnapshot>,
    engine: Engine)

  // The bodies when the events of the last frame have been applied, before its snapshots are.
  function Ready(b: Bodies, frames: seq<GameFrame>, reading: Reading): Bodies
    requires frames != []
    decreases |frames|, 0
  {
    ApplyEvents(PumpAll(b, frames[..|frames| - 1], reading), frames[|frames| - 1].events)
  }

  function PumpAll(b: Bodies, frames: seq<GameFrame>, reading: Reading): Bodies
    decreases |frames|, 1
  {
    if frames == [] then b
    else
      var f := frames[|frames| - 1];
      PumpSnapshots(Ready(b, frames, reading), f.remote, f.now, f.engine, reading)
  }

  // The body of this player is there to be moved and a snapshot of it is held.
  predicate Moves(b: Bodies, f: GameFrame, id: uint32) {
    f.engine.ready && id in b && id in f.remote && Movable(b[id], id, f.engine)
  }

  // The frames in which it was, with the snapshots held.
  function Moved(b: Bodies, frames: seq<GameFrame>, reading: Reading, id: uint32): seq<Frame> {
    if frames == [] then []
    else
      var f, before := frames[|frames| - 1], Moved(b, frames[..|frames| - 1], reading, id);
      if !Moves(Ready(b, frames, reading), f, id) then before
      else before + [Frame(f.now, f.remote[id].tick, PoseOf(f.remote[id], reading))]
  }

  predicate NeverLeaves(events: seq<RemoteEvent>, id: uint32) {
    forall i :: 0 <= i < |events| && events[i].playerId == id ==> events[i].joined
  }

  predicate Stays(frames: seq<GameFrame>, id: uint32) {
    forall i :: 0 <= i < |frames| ==> NeverLeaves(frames[i].events, id)
  }

  predicate FramesInOrder(frames: seq<GameFrame>) {
    forall i, j :: 0 <= i < j < |frames| ==> frames[i].now <= frames[j].now
  }

  // Joins and leaves of others, and repeated joins of the player itself, leave its body alone.
  lemma {:induction false} EventsKeepBody(b: Bodies, events: seq<RemoteEvent>, id: uint32)
    requires NeverLeaves(events, id)
    ensures var r := ApplyEvents(b, events);
            && (id in b ==> id in r && r[id] == b[id])
            && (id !in b && id in r ==> r[id] == NEW_BODY)
  {
    if events != [] {
      EventsKeepBody(b, events[..|events| - 1], id);
    }
  }

  // The samples of a body are those that its snapshots, in the frames in which it could be moved,
  // leave in the window.
  predicate BodyOk(b: Bodies, id: uint32, moved: seq<Frame>) {
    if id !in b then moved == []
    else b[id].lastTick == Observed(moved).lastTick && b[id].samples == Observed(moved).samples
  }

  lemma EventsKeepOk(b: Bodies, events: seq<RemoteEvent>, id: uint32, moved: seq<Frame>)
    requires NeverLeaves(events, id) && BodyOk(b, id, moved)
    ensures BodyOk(ApplyEvents(b, events), id, moved)
  {
    EventsKeepBody(b, events, id);
  }

  lemma ObservedSnoc(moved: seq<Frame>, f: Frame)
    ensures Observed(moved + [f]) == Observe(Observed(moved), f)
  {
    assert (moved + [f])[..|moved|] == moved;
  }

  lemma PumpKeepsOk(b: Bodies, f: GameFrame, reading: Reading, id: uint32, moved: seq<Frame>)
    requires BodyOk(b, id, moved)
    ensures var r := PumpSnapshots(b, f.remote, f.now, f.engine, reading);
            if !Moves(b, f, id) then BodyOk(r, id, moved)
            else BodyOk(r, id, moved + [Frame(f.now, f.remote[id].tick, PoseOf(f.remote[id], reading))])
  {
    if Moves(b, f, id) {
      ObservedSnoc(moved, Frame(f.now, f.remote[id].tick, PoseOf(f.remote[id], reading)));
      SampledIsObserved(b[id], f.remote[id], f.now, reading, Observed(moved).history);
    }
  }

  lemma {:induction false} BodyIsObserved(b: Bodies, frames: seq<GameFrame>, reading: Reading, id: uint32)
    requires id !in b && Stays(frames, id)
    ensures BodyOk(PumpAll(b, frames, reading), id, Moved(b, frames, reading, id))
  {
    if frames != [] {
      var init, f := frames[..|frames| - 1], frames[|frames| - 1];
      BodyIsObserved(b, init, reading, id);
      EventsKeepOk(PumpAll(b, init, reading), f.events, id, Moved(b, init, reading, id));
      PumpKeepsOk(Ready(b, frames, reading), f, reading, id, Moved(b, init, reading, id));
    }
  }

  lemma {:induction false} MovedInOrder(b: Bodies, frames: seq<GameFrame>, reading: Reading, id: uint32)
    requires FramesInOrder(frames)
    ensures var m := Moved(b, frames, reading, id);
            ClockAdvances(m) && forall k :: 0 <= k < |m| ==> m[k].now <= frames[|frames| - 1].now
  {
    if frames != [] {
      MovedInOrder(b, frames[..|frames| - 1], reading, id);
    }
  }

  // The player joined after the start and has not left, its samples came at least 15 ms apart,
  // and the last frame places its body.
  predicate Followed(b: Bodies, frames: seq<GameFrame>, reading: Reading, id: uint32) {
    && id !in b && Stays(frames, id) && FramesInOrder(frames)
    && Spaced(Observed(Moved(b, frames, reading, id)).history)
    && id in LastPlacements(b, frames, reading)
  }

  function LastPlacements(b: Bodies, frames: seq<GameFrame>, reading: Reading): map<uint32, Placement> {
    if frames == [] then map[]
    else
      var f := frames[|frames| - 1];
      Placements(Ready(b, frames, reading), f.remote, f.now, f.engine, reading)
  }

  // A body that is placed is placed by the window over its history.
  lemma PlacedByWindow(b: Bodies, frames: seq<GameFrame>, reading: Reading, id: uint32)
    requires id !in b && Stays(frames, id) && id in LastPlacements(b, frames, reading)
    ensures var history := Observed(Moved(b, frames, reading, id)).history;
            history != []
            && LastPlacements(b, frames, reading)[id] == Placed(Window(history), frames[|frames| - 1].now)
  {
    var f := frames[|frames| - 1];
    var ready := Ready(b, frames, reading);
    BodyIsObserved(b, frames, reading, id);
    ObservedIsWindow(Moved(b, frames, reading, id));
    assert Moves(ready, f, id);
    assert Sampled(ready[id], f.remote[id], f.now, reading) == PumpAll(b, frames, reading)[id];
  }

  // The last frame in which it moved is the frame it is placed in.
  lemma PlacedIsMoved(b: Bodies, frames: seq<GameFrame>, reading: Reading, id: uint32)
    requires id in LastPlacements(b, frames, reading)
    ensures var moved := Moved(b, frames, reading, id);
            moved != [] && moved[|moved| - 1].now == frames[|frames| - 1].now
  {
    assert Moves(Ready(b, frames, reading), frames[|frames| - 1], id);
  }

  // In every frame of every run of the game, from a player's join until its leave is taken, a body
  // that is placed is placed exactly where the unbounded history of its snapshots would place it,
  // at the velocity that history gives, if its samples came at least 15 ms apart.
  lemma PlacedByHistory(b: Bodies, frames: seq<GameFrame>, reading: Reading, id: uint32)
    ensures var history := Observed(Moved(b, frames, reading, id)).history;
            Followed(b, frames, reading, id) ==>
              history != []
              && LastPlacements(b, frames, reading)[id] == Placed(history, frames[|frames| - 1].now)
  {
    hide Moved, Observed, LastPlacements, Window, Shown;
    if Followed(b, frames, reading, id) {
      var moved := Moved(b, frames, reading, id);
      PlacedByWindow(b, frames, reading, id);
      PlacedIsMoved(b, frames, reading, id);
      MovedInOrder(b, frames, reading, id);
      ObservedIsWindow(moved);
      WindowNotEmpty(Observed(moved).history);
      EveryFrameShowsHistory(moved);
    }
  }

  lemma WindowNotEmpty(history: seq<Sample>)
    requires history != []
    ensures Window(history) != []
  {
  }

  // No two frames come within 15 ms of each other.
  predicate GameFramesApart(frames: seq<GameFrame>) {
    forall i, j :: 0 <= i < j < |frames| ==> frames[i].now + ENOUGH_MS <= frames[j].now
  }

  lemma {:induction false} MovedApart(b: Bodies, frames: seq<GameFrame>, reading: Reading, id: uint32)
    requires GameFramesApart(frames)
    ensures var m := Moved(b, frames, reading, id);
            FramesApart(m) && forall k :: 0 <= k < |m| ==> m[k].now <= frames[|frames| - 1].now
    ensures frames == [] ==> Moved(b, frames, reading, id) == []
  {
    if frames != [] {
      MovedApart(b, frames[..|frames| - 1], reading, id);
    }
  }

  // A condition on the frames alone: when they come at least 15 ms apart, every body that is placed
  // is placed where its unbounded history says.
  lemma PlacedByHistoryAtFrameRate(b: Bodies, frames: seq<GameFrame>, reading: Reading, id: uint32)
    requires GameFramesApart(frames) && id !in b && Stays(frames, id)
    ensures var history := Observed(Moved(b, frames, reading, id)).history;
            id in LastPlacements(b, frames, reading) ==>
              history != []
              && LastPlacements(b, frames, reading)[id] == Placed(history, frames[|frames| - 1].now)
  {
    hide Moved, LastPlacements, Placed, Stays;
    MovedApart(b, frames, reading, id);
    FramesApartSpaceSamples(Moved(b, frames, reading, id));
    PlacedByHistory(b, frames, reading, id);
  }

  // ---------------------------------------------------------------- bodies that must be placed

  predicate Joins(events: seq<RemoteEvent>, id: uint32) {
    exists i :: 0 <= i < |events| && events[i].joined && events[i].playerId == id
  }

  predicate HasJoined(frames: seq<GameFrame>, id: uint32) {
    exists i :: 0 <= i < |frames| && Joins(frames[i].events, id)
  }

  // How the request for an entity was answered: it is made in the first frame, from the join on, in which
  // the engine is there and a snapshot of the player is held.
  function Asked(frames: seq<GameFrame>, id: uint32): Option<bool> {
    if frames == [] then None
    else
      var before, f := Asked(frames[..|frames| - 1], id), frames[|frames| - 1];
      if before.Some? then before
      else if HasJoined(frames, id) && f.engine.ready && id in f.remote then Some(id in f.engine.accepts)
      else None
  }

  // In this frame there is an entity, asked for earlier, and a snapshot to move it by.
  predicate CanMove(frames: seq<GameFrame>, i: nat, id: uint32)
    requires i < |frames|
  {
    && Asked(frames[..i], id) == Some(true)
    && frames[i].engine.ready && id in frames[i].engine.resolved && id in frames[i].remote
  }

  // The frames in which it can be moved, by the snapshots held in them.
  function Movings(frames: seq<GameFrame>, reading: Reading, id: uint32): seq<Frame> {
    if frames == [] then []
    else
      var n := |frames| - 1;
      Movings(frames[..n], reading, id)
      + if CanMove(frames, n, id) then
          [Frame(frames[n].now, frames[n].remote[id].tick, PoseOf(frames[n].remote[id], reading))]
        else []
  }

  predicate AskedOk(b: Bodies, id: uint32, joined: bool, asked: Option<bool>) {
    && (id in b <==> joined)
    && (id in b ==> b[id].spawnRequested == asked.Some? && b[id].hasEntity == (asked == Some(true)))
    && (asked.Some? ==> joined)
  }

  lemma {:induction false} EventsJoin(b: Bodies, events: seq<RemoteEvent>, id: uint32)
    requires NeverLeaves(events, id)
    ensures id in ApplyEvents(b, events) <==> id in b || Joins(events, id)
  {
    if events != [] {
      var init, n := events[..|events| - 1], |events| - 1;
      EventsJoin(b, init, id);
      if Joins(init, id) {
        var i :| 0 <= i < n && init[i].joined && init[i].playerId == id;
        assert events[i] == init[i];
      }
      assert events[n].joined && events[n].playerId == id ==> Joins(events, id);
    }
  }

  lemma HasJoinedStep(frames: seq<GameFrame>, id: uint32)
    requires frames != []
    ensures HasJoined(frames, id)
            <==> HasJoined(frames[..|frames| - 1], id) || Joins(frames[|frames| - 1].events, id)
  {
    hide Joins;
    var init := frames[..|frames| - 1];
    assert forall i :: 0 <= i < |init| ==> init[i] == frames[i];
  }

  lemma PumpAsks(b: Bodies, f: GameFrame, reading: Reading, id: uint32, joined: bool, asked: Option<bool>)
    requires AskedOk(b, id, joined, asked)
    ensures AskedOk(PumpSnapshots(b, f.remote, f.now, f.engine, reading), id, joined,
                    if asked.Some? then asked
                    else if joined && f.engine.ready && id in f.remote then Some(id in f.engine.accepts)
                    else None)
  {
    hide Sampled;
    SampledKeepsRequest(b, f, reading, id);
  }

  lemma SampledKeepsRequest(b: Bodies, f: GameFrame, reading: Reading, id: uint32)
    ensures id in b && id in f.remote ==>
              var r := Sampled(b[id], f.remote[id], f.now, reading);
              r.spawnRequested == b[id].spawnRequested && r.hasEntity == b[id].hasEntity
  {
  }

  lemma EventsKeepAsked(b: Bodies, events: seq<RemoteEvent>, id: uint32, joined: bool, asked: Option<bool>)
    requires NeverLeaves(events, id) && AskedOk(b, id, joined, asked)
    ensures AskedOk(ApplyEvents(b, events), id, joined || Joins(events, id), asked)
  {
    hide Joins;
    EventsJoin(b, events, id);
    EventsKeepBody(b, events, id);
  }

  lemma {:induction false} BodyIsAsked(b: Bodies, frames: seq<GameFrame>, reading: Reading, id: uint32)
    requires id !in b && Stays(frames, id)
    ensures AskedOk(PumpAll(b, frames, reading), id, HasJoined(frames, id), Asked(frames, id))
    ensures frames != [] ==>
              AskedOk(Ready(b, frames, reading), id, HasJoined(frames, id), Asked(frames[..|frames| - 1], id))
  {
    if frames != [] {
      hide AskedOk, HasJoined, Joins;
      var init, f := frames[..|frames| - 1], frames[|frames| - 1];
      BodyIsAsked(b, init, reading, id);
      EventsKeepAsked(PumpAll(b, init, reading), f.events, id, HasJoined(init, id), Asked(init, id));
      HasJoinedStep(frames, id);
      PumpAsks(Ready(b, frames, reading), f, reading, id, HasJoined(frames, id), Asked(init, id));
    }
  }

  lemma MovesExactly(b: Bodies, frames: seq<GameFrame>, reading: Reading, id: uint32)
    requires frames != [] && id !in b && Stays(frames, id)
    ensures Moves(Ready(b, frames, reading), frames[|frames| - 1], id) <==> CanMove(frames, |frames| - 1, id)
  {
    hide HasJoined, Asked, Ready;
    BodyIsAsked(b, frames, reading, id);
  }

  // A body is moved in exactly the frames in which there is an entity and a snapshot.
  lemma {:induction false} MovedExactly(b: Bodies, frames: seq<GameFrame>, reading: Reading, id: uint32)
    requires id !in b && Stays(frames, id)
    ensures Moved(b, frames, reading, id) == Movings(frames, reading, id)
  {
    if frames != [] {
      hide CanMove, Moves;
      MovedExactly(b, frames[..|frames| - 1], reading, id);
      MovesExactly(b, frames, reading, id);
    }
  }

  // The history of a body by the frames alone: the snapshots newer than all before them among those held
  // while there was an entity to move.
  function HistoryOf(frames: seq<GameFrame>, reading: Reading, id: uint32): seq<Sample> {
    Fresh(Movings(frames, reading, id))
  }

  // A body is placed in exactly the frames in which there is an entity and a snapshot, once one such frame
  // held a snapshot that is not tick 0; and what it is placed by is the last eight samples of its history.
  lemma PlacedExactly(b: Bodies, frames: seq<GameFrame>, reading: Reading, id: uint32)
    requires frames != [] && id !in b && Stays(frames, id)
    ensures var placed, history := LastPlacements(b, frames, reading), HistoryOf(frames, reading, id);
            && (id in placed <==> CanMove(frames, |frames| - 1, id) && Ticking(Movings(frames, reading, id)))
            && (id in placed ==> history != [] && placed[id] == Placed(Window(history), frames[|frames| - 1].now))
  {
    hide Moved, Movings, Fresh, Ticking, Observed, Placed, Window, Stays, CanMove, LastPlacements;
    MovesExactly(b, frames, reading, id);
    MovedExactly(b, frames, reading, id);
    HistoryIsFresh(Movings(frames, reading, id));
    FreshOnceTicking(Movings(frames, reading, id));
    if id in LastPlacements(b, frames, reading) {
      PlacedByWindow(b, frames, reading, id);
      PlacedMoves(b, frames, reading, id);
    } else if CanMove(frames, |frames| - 1, id) {
      NotPlaced(b, frames, reading, id);
    }
  }

  lemma PlacedMoves(b: Bodies, frames: seq<GameFrame>, reading: Reading, id: uint32)
    requires id in LastPlacements(b, frames, reading)
    ensures Moves(Ready(b, frames, reading), frames[|frames| - 1], id)
  {
  }

  // A body that can be moved and is not placed has no sample at all.
  lemma NotPlaced(b: Bodies, frames: seq<GameFrame>, reading: Reading, id: uint32)
    requires frames != [] && id !in b && Stays(frames, id)
    requires Moves(Ready(b, frames, reading), frames[|frames| - 1], id) && id !in LastPlacements(b, frames, reading)
    ensures Observed(Moved(b, frames, reading, id)).history == []
  {
    hide Moved, Observed, Placed, Stays, Sampled, Push, Ready;
    var f, ready := frames[|frames| - 1], Ready(b, frames, reading);
    BodyIsObserved(b, frames, reading, id);
    ObservedIsWindow(Moved(b, frames, reading, id));
    assert Sampled(ready[id], f.remote[id], f.now, reading) == PumpAll(b, frames, reading)[id];
  }
}
