/** The object of src/client/WorldSystem.cpp that owns the remote bodies: it takes the events and
    snapshots of the network object, samples and places the bodies, and sends the local player. */
module GameWorld {
  import opened Numbers
  import opened Protocol
  import Client
  import opened ClientNetwork
  import opened Interpolation
  import opened TaskQueues
  import opened World

  const TASKS_PER_TICK: nat := 64

  // The snapshots of a list, by player.
  function AsMap(out: seq<(uint32, Client.RemoteSnapshot)>): map<uint32, Client.RemoteSnapshot> {
    if out == [] then map[] else AsMap(out[..|out| - 1])[out[|out| - 1].0 := out[|out| - 1].1]
  }

  lemma AsMapSnoc(out: seq<(uint32, Client.RemoteSnapshot)>, i: nat)
    requires i < |out|
    ensures AsMap(out[..i + 1]) == AsMap(out[..i])[out[i].0 := out[i].1]
  {
    assert out[..i + 1][..i] == out[..i];
  }

  lemma {:induction false} AsMapListed(
    out: seq<(uint32, Client.RemoteSnapshot)>, remote: map<uint32, Client.RemoteSnapshot>, i: nat)
    requires Lists(out, remote) && i <= |out|
    ensures forall id :: id in AsMap(out[..i]) <==> Listed(out[..i], id)
    ensures forall id :: id in AsMap(out[..i]) ==> id in remote && AsMap(out[..i])[id] == remote[id]
  {
    if i > 0 {
      AsMapListed(out, remote, i - 1);
      AsMapSnoc(out, i - 1);
      forall id: uint32
        ensures Listed(out[..i], id) <==> Listed(out[..i - 1], id) || out[i - 1].0 == id
      {
        ListedSnoc(out, i, id);
      }
    }
  }

  lemma ListedSnoc(out: seq<(uint32, Client.RemoteSnapshot)>, i: nat, id: uint32)
    requires 0 < i <= |out|
    ensures Listed(out[..i], id) <==> Listed(out[..i - 1], id) || out[i - 1].0 == id
  {
    if Listed(out[..i - 1], id) {
      var k :| 0 <= k < i - 1 && out[..i - 1][k].0 == id;
      assert out[..i][k].0 == id;
    }
    if out[i - 1].0 == id {
      assert out[..i][i - 1].0 == id;
    }
    if Listed(out[..i], id) {
      var k :| 0 <= k < i && out[..i][k].0 == id;
      assert k < i - 1 ==> out[..i - 1][k].0 == id;
    }
  }

  // Whatever order the snapshots come in, the list stands for the map.
  lemma ListIsMap(out: seq<(uint32, Client.RemoteSnapshot)>, remote: map<uint32, Client.RemoteSnapshot>)
    requires Lists(out, remote)
    ensures AsMap(out) == remote
  {
    AsMapListed(out, remote, |out|);
    assert out[..|out|] == out;
  }

  lemma NotYetSeen(out: seq<(uint32, Client.RemoteSnapshot)>, remote: map<uint32, Client.RemoteSnapshot>, i: nat)
    requires Lists(out, remote) && i < |out|
    ensures out[i].0 !in AsMap(out[..i])
  {
    AsMapListed(out, remote, i);
  }

  // One more snapshot touches one body, which none of the others did.
  lemma PumpOneMore(
    b: Bodies, seen: map<uint32, Client.RemoteSnapshot>, id: uint32, s: Client.RemoteSnapshot,
    now: uint64, engine: Engine, reading: Reading)
    requires id !in seen
    ensures var before := PumpSnapshots(b, seen, now, engine, reading);
            && before.Keys == b.Keys
            && (id in b ==> before[id] == b[id])
            && PumpSnapshots(b, seen[id := s], now, engine, reading)
               == if id in b && engine.ready then before[id := PumpBody(b[id], id, s, now, engine, reading)] else before
  {
    hide PumpBody;
  }

  lemma PlaceOneMore(
    b: Bodies, seen: map<uint32, Client.RemoteSnapshot>, id: uint32, s: Client.RemoteSnapshot,
    now: uint64, engine: Engine, reading: Reading)
    requires id !in seen
    ensures var before := Placements(b, seen, now, engine, reading);
            var after := Placements(b, seen[id := s], now, engine, reading);
            if engine.ready && id in b && PlacementOf(b[id], id, s, now, engine, reading).Some?
            then after == before[id := PlacementOf(b[id], id, s, now, engine, reading).value]
            else after == before
  {
    hide PlacementOf;
  }

  // Without snapshots, or without bodies, a pump does nothing.
  lemma PumpNothing(
    b: Bodies, remote: map<uint32, Client.RemoteSnapshot>, now: uint64, engine: Engine, reading: Reading)
    ensures PumpSnapshots(b, map[], now, engine, reading) == b
    ensures Placements(b, map[], now, engine, reading) == map[]
    ensures b == map[] ==> PumpSnapshots(b, remote, now, engine, reading) == b
    ensures b == map[] ==> Placements(b, remote, now, engine, reading) == map[]
  {
    hide PumpBody, PlacementOf;
  }

  class WorldSystem {
    const net: NetClient
    const tasks: TaskQueue<Task>
    var bodies: Bodies
    var lastStateSentMs: uint64
    var tasksRun: nat

    ghost predicate Valid()
      reads this, net, tasks
    {
      net.tasks == tasks && net.Valid()
    }

    constructor (net: NetClient)
      requires net.Valid()
      ensures Valid() && this.net == net && bodies == map[] && lastStateSentMs == 0 && tasksRun == 0
    {
      this.net, this.tasks := net, net.tasks;
      bodies, lastStateSentMs, tasksRun := map[], 0, 0;
    }

    // Adds the bodies of players who joined and removes those of players who left.
    method ApplyRemoteEvents()
      requires Valid()
      modifies this`bodies, net`events
      ensures Valid() && net.events == []
      ensures bodies == ApplyEvents(old(bodies), old(net.events))
    {
      var events := net.TakeEvents();
      for i := 0 to |events|
        invariant Valid() && net.events == []
        invariant bodies == ApplyEvents(old(bodies), events[..i])
      {
        assert events[..i + 1][..i] == events[..i];
        ApplyRemoteEvent(events[i]);
      }
      assert events[..|events|] == events;
    }

    method ApplyRemoteEvent(e: Client.RemoteEvent)
      modifies this`bodies
      ensures bodies == ApplyEvent(old(bodies), e)
    {
      if e.joined {
        if e.playerId !in bodies {
          bodies := bodies[e.playerId := NEW_BODY];
        }
      } else if e.playerId in bodies {
        bodies := bodies - {e.playerId};
      } else {
        assert bodies - {e.playerId} == bodies;
      }
    }

    // One snapshot of the list; what comes back is where its body is placed, if it can be moved.
    method PumpOne(id: uint32, s: Client.RemoteSnapshot, now: uint64, engine: Engine, reading: Reading)
      returns (placed: Option<Placement>)
      requires id in bodies
      modifies this`bodies
      ensures bodies == old(bodies)[id := PumpBody(old(bodies[id]), id, s, now, engine, reading)]
      ensures placed == PlacementOf(old(bodies[id]), id, s, now, engine, reading)
    {
      var body := bodies[id];
      if !body.spawnRequested {
        bodies := bodies[id := body.(spawnRequested := true, hasEntity := id in engine.accepts)];
        return None;
      }
      if !body.hasEntity || id !in engine.resolved {
        return None;
      }
      if s.tick > body.lastTick {
        body := AddSample(body, s.tick, Sample(now, PoseOf(s, reading)));
        bodies := bodies[id := body];
      }
      if body.samples == [] {
        return None;
      }
      var p := Place(body.samples, now);
      return Some(p);
    }

    method AddSample(body: RemoteBody, tick: uint64, s: Sample) returns (r: RemoteBody)
      ensures r == body.(lastTick := tick, samples := Interpolation.Push(body.samples, s))
    {
      r := body.(lastTick := tick, samples := body.samples + [s]);
      if |r.samples| > MAX_SAMPLES {
        r := r.(samples := r.samples[1..]);
      }
    }

    method Place(samples: seq<Sample>, now: uint64) returns (p: Placement)
      requires samples != []
      ensures p == Placed(samples, now)
    {
      var renderMs := if now > INTERPOLATION_DELAY_MS then now - INTERPOLATION_DELAY_MS else 0;
      var d := FindBracket(samples, renderMs);
      p := Placement(PoseAt(d, renderMs), VelocityOf(d));
    }

    method ApplySnapshots(now: uint64, engine: Engine, reading: Reading) returns (placed: map<uint32, Placement>)
      requires Valid()
      modifies this`bodies
      ensures Valid()
      ensures bodies == PumpSnapshots(old(bodies), net.remote, now, engine, reading)
      ensures placed == Placements(old(bodies), net.remote, now, engine, reading)
    {
      hide PumpSnapshots, Placements, PumpBody, PlacementOf;
      placed := map[];
      PumpNothing(bodies, net.remote, now, engine, reading);
      if |bodies| == 0 {
        return;
      }
      var list := net.CopyRemoteSnapshots();
      ListIsMap(list, net.remote);
      for i := 0 to |list|
        invariant bodies == PumpSnapshots(old(bodies), AsMap(list[..i]), now, engine, reading)
        invariant placed == Placements(old(bodies), AsMap(list[..i]), now, engine, reading)
      {
        var (id, s) := list[i];
        AsMapSnoc(list, i);
        NotYetSeen(list, net.remote, i);
        PumpOneMore(old(bodies), AsMap(list[..i]), id, s, now, engine, reading);
        PlaceOneMore(old(bodies), AsMap(list[..i]), id, s, now, engine, reading);
        if id in bodies && engine.ready {
          var p := PumpOne(id, s, now, engine, reading);
          if p.Some? {
            placed := placed[id := p.value];
          }
        }
      }
      assert list[..|list|] == list;
    }

    // The whole pump when the network thread does not run in between.
    method PumpRemotePlayers(now: uint64, engine: Engine, reading: Reading) returns (placed: map<uint32, Placement>)
      requires Valid()
      modifies this`bodies, net`events
      ensures Valid() && net.events == []
      ensures bodies == PumpSnapshots(ApplyEvents(old(bodies), old(net.events)), net.remote, now, engine, reading)
      ensures placed == Placements(ApplyEvents(old(bodies), old(net.events)), net.remote, now, engine, reading)
    {
      ApplyRemoteEvents();
      placed := ApplySnapshots(now, engine, reading);
    }

    method SendLocalState(now: uint64, position: Vec3)
      requires Valid()
      modifies this`lastStateSentMs, net`stateTick, net`outbox, net`sent, net`states
      ensures Valid()
      ensures net.Sender(lastStateSentMs)
              == World.SendLocalState(old(net.Sender(lastStateSentMs)), now, net.net == Client.Connected, position)
    {
      if Minus64(now, lastStateSentMs) < STATE_SEND_INTERVAL_MS {
        return;
      }
      if Nowhere(position) {
        return;
      }
      lastStateSentMs := now;
      var ok := net.SendState(position, 0, now);
    }

    // Runs a bounded batch of what the network thread handed over, in the order it was pushed;
    // `spawn` is what a running task pushes.
    method RunTick(spawn: Task -> seq<Option<Task>>)
      requires Valid()
      modifies this`tasksRun, tasks
      ensures Valid()
      ensures var batch := Batch(old(tasks.pending), TASKS_PER_TICK);
              && |batch| <= TASKS_PER_TICK && tasksRun == old(tasksRun) + |batch|
              && Tasks(tasks.shared.log) == Tasks(old(tasks.shared).log) + batch
    {
      var ran := tasks.Drain(TASKS_PER_TICK, spawn);
      if ran > 0 {
        tasksRun := tasksRun + ran;
      }
    }

    // One frame of the multiplayer tick group.
    method OnMultiplayerUpdate(
      now: uint64, engine: Engine, reading: Reading, position: Vec3, spawn: Task -> seq<Option<Task>>)
      returns (placed: map<uint32, Placement>)
      requires Valid()
      modifies this, net, tasks
      ensures Valid() && net.events == []
      ensures bodies == PumpSnapshots(ApplyEvents(old(bodies), old(net.events)), old(net.remote), now, engine, reading)
      ensures placed == Placements(ApplyEvents(old(bodies), old(net.events)), old(net.remote), now, engine, reading)
      ensures net.Sender(lastStateSentMs)
              == World.SendLocalState(old(net.Sender(lastStateSentMs)), now, old(net.net) == Client.Connected, position)
      ensures tasksRun == old(tasksRun) + |Batch(old(tasks.pending), TASKS_PER_TICK)|
    {
      RunTick(spawn);
      placed := PumpRemotePlayers(now, engine, reading);
      SendLocalState(now, position);
    }
  }
}
