/** The object of src/server/Session.cpp that owns the table and updates it in place. */
module SessionManagement {
  import opened Numbers
  import opened Protocol
  import opened Sessions

  class SessionManager {
    const maxPlayers: nat
    const timeoutMs: uint64
    var nextId: uint32
    var sessions: seq<Session>

    ghost function View(): Table
      reads this
    {
      Table(maxPlayers, timeoutMs, nextId, sessions)
    }

    constructor (maxPlayers: nat, timeoutMs: uint64)
      ensures View() == EmptyTable(maxPlayers, timeoutMs)
    {
      this.maxPlayers, this.timeoutMs := maxPlayers, timeoutMs;
      nextId, sessions := 1, [];
    }

    method Join(from: Endpoint, username: Bytes, version: uint32, now: uint64)
      returns (result: JoinResult, id: uint32)
      modifies this
      ensures (View(), result, id) == Sessions.Join(old(View()), from, username, version, now)
    {
      if version != VERSION {
        return VersionMismatch, INVALID_PLAYER;
      }
      var existing := FindByEndpoint(from);
      if existing.Some? {
        var i := existing.value;
        sessions := sessions[i := sessions[i].(lastSeenMs := now)];
        return AlreadyJoined, sessions[i].id;
      }
      if |username| == 0 || |username| > MAX_STRING_SIZE {
        return NameTaken, INVALID_PLAYER;
      }
      var taken := NameTakenBy(username);
      if taken {
        return NameTaken, INVALID_PLAYER;
      }
      if |sessions| >= maxPlayers {
        return Full, INVALID_PLAYER;
      }
      var s := NewSession(nextId, username, from, now);
      nextId := (nextId + 1) % TWO_32;
      sessions := sessions + [s];
      return Accepted, s.id;
    }

    method NameTakenBy(username: Bytes) returns (taken: bool)
      ensures taken == NameInUse(sessions, username)
    {
      for i := 0 to |sessions|
        invariant forall k :: 0 <= k < i ==> sessions[k].username != username
      {
        if sessions[i].username == username {
          return true;
        }
      }
      return false;
    }

    // Where the pointer the source returns would point.
    method FindByEndpoint(from: Endpoint) returns (i: Option<nat>)
      ensures i == if EndpointIndex(sessions, from) < |sessions| then Some(EndpointIndex(sessions, from)) else None
    {
      for k := 0 to |sessions|
        invariant forall n :: 0 <= n < k ==> sessions[n].endpoint != from
      {
        if sessions[k].endpoint == from {
          return Some(k);
        }
      }
      return None;
    }

    method FindById(id: uint32) returns (i: Option<nat>)
      ensures i.Some? <==> FindId(View(), id).Some?
      ensures i.Some? ==> i.value == IdIndex(sessions, id) && i.value < |sessions|
    {
      if id == INVALID_PLAYER {
        return None;
      }
      var k := SearchId(id);
      return if k < |sessions| then Some(k) else None;
    }

    method SearchId(id: uint32) returns (k: nat)
      ensures k == IdIndex(sessions, id)
    {
      k := 0;
      while k < |sessions| && sessions[k].id != id
        invariant k <= |sessions|
        invariant forall n :: 0 <= n < k ==> sessions[n].id != id
      {
        k := k + 1;
      }
    }

    method Touch(from: Endpoint, now: uint64) returns (known: bool)
      modifies this
      ensures View() == Sessions.Touch(old(View()), from, now)
      ensures known == FindEndpoint(old(View()), from).Some?
    {
      var at := FindByEndpoint(from);
      if at.None? {
        return false;
      }
      sessions := sessions[at.value := sessions[at.value].(lastSeenMs := now)];
      return true;
    }

    method TakeNextTimedOut(now: uint64) returns (dropped: Option<Session>)
      modifies this
      ensures (View(), dropped) == Sessions.TakeNextTimedOut(old(View()), now)
    {
      var k := 0;
      while k < |sessions| && !Expired(sessions[k], now, timeoutMs)
        invariant k <= |sessions|
        invariant forall n :: 0 <= n < k ==> !Expired(sessions[n], now, timeoutMs)
      {
        k := k + 1;
      }
      assert k == ExpiredIndex(sessions, now, timeoutMs);
      if k == |sessions| {
        return None;
      }
      dropped := Some(sessions[k]);
      sessions := sessions[..k] + sessions[k + 1..];
    }

    method ApplyState(from: Endpoint, tick: uint64, position: Vec3, rotation: Float32) returns (applied: bool)
      modifies this
      ensures (View(), applied) == Sessions.ApplyState(old(View()), from, tick, position, rotation)
    {
      var at := FindByEndpoint(from);
      if at.None? {
        return false;
      }
      var s := sessions[at.value];
      if s.hasState && tick <= s.stateTick {
        return false;
      }
      s := s.(hasState := true, stateTick := tick, position := position, rotation := rotation);
      sessions := sessions[at.value := s];
      return true;
    }

    method Remove(id: uint32) returns (removed: bool)
      modifies this
      ensures (View(), removed) == Sessions.Remove(old(View()), id)
    {
      var k := SearchId(id);
      if k == |sessions| {
        return false;
      }
      sessions := sessions[..k] + sessions[k + 1..];
      return true;
    }
  }
}
