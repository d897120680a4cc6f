# Verified model of the cybermp multiplayer protocol

cybermp lets players of a single-player game see each other. A dedicated server keeps a table of
sessions, relays snapshots of where players are, and runs script backends that hear of joins and
leaves and may kick players. A client plugin keeps a connection to that server on a thread of its
own, hands what it learns to the game thread, and draws every remote player a tenth of a second in
the past so that it can interpolate between snapshots.

This project models that protocol from the bytes of a datagram to the pose of a body, and proves what
it promises.

| file | what it models |
|---|---|
| `Numbers.dfy`, `Wire.dfy` | fixed-width numbers, the byte writer and the bounds-checked reader |
| `Protocol.dfy` | the eight messages, `Encode`, `PeekHeader`, `Decode` |
| `Sessions.dfy`, `SessionManager.dfy` | the session table as a value and as the object that updates it |
| `Server.dfy`, `ServerLoop.dfy` | handlers, script host and main loop as a state machine and as objects |
| `Traces.dfy`, `TraceRules.dfy` | the record of a run: datagrams, admissions, callbacks |
| `ServerInvariant.dfy`, `ServerRuns.dfy` | what every step of the server keeps |
| `ServerTheorems.dfy`, `ServerKicks.dfy`, `ServerArrivals.dfy`, `ServerTimeouts.dfy` | what that means over whole runs |
| `ServerEntries.dfy`, `ServerDuties.dfy`, `KickDuties.dfy`, `ServerSilence.dfy` | what the server must do: call every tick, echo pings, relay what is new, serve every kick, drop whoever is silent |
| `ServerAnswers.dfy` | who gets which answer to a hello, and what it makes of the client |
| `Client.dfy`, `Connection.dfy`, `ClientTheorems.dfy`, `NetClient.dfy` | the network thread, its connection machine, what it makes of the messages it handles, its object |
| `World.dfy`, `WorldSystem.dfy` | bodies of remote players, the local player's snapshots, their object |
| `Angles.dfy`, `Interpolation.dfy`, `Brackets.dfy`, `RemoteBodies.dfy` | angles, the sample window, placing bodies |
| `EndToEnd.dfy` | server and client over a network that loses, repeats and reorders |
| `TwoClients.dfy`, `SeenBodies.dfy` | two clients with a server between them over such a network, up to the bodies shown |
| `Convergence.dfy` | server and client over a network that delivers in order |
| `TaskQueues.dfy` | the queue between the threads, under every interleaving |

How it is put together. Every object of the program that updates its fields (`Writer`, `Reader`,
`SessionManager`, `ScriptHost`, the main loop, `NetClient`, `WorldSystem`, `TaskQueue`) is a class whose
methods do the same updates and loops. Each method is proved equal to a function on values, and the
properties are proved about those functions. A server run is recorded in a *trace*: every datagram
received, every admission, every message sent with its destination, every script callback with the
sessions live at that moment. Rosters, callbacks and relayed snapshots are read back from the trace by
folds, so a theorem about a roster is a theorem about the datagrams actually sent.

What comes from outside is a parameter: clock readings, the datagrams that arrive and when, the engine's
answers, how a 32-bit float pattern reads as a number. A script backend is an arbitrary function of the
number of the callback, the event and the live sessions to a list of kicks; since no two callbacks share
a number this covers every behaviour a backend can show in a run. A network that misbehaves may deliver
any datagram ever sent, any number of times, in any order, or not at all.

Where a property does not hold of the code as one might first state it, the exact condition is proved:

* Ids are 32 bits and 0 means nobody. The first 2^32 - 1 joins get distinct ids; the next one gets id 0
  (`Sessions.IdsRunOut`, `Sessions.SomeoneGetsIdZero`). Results about identities say "while the ids last".
* `LerpAngleDegrees` turns the short way exactly when the dividend handed to `fmod` is not negative or is a
  multiple of 360 (`Angles.TurnIsShortest`); from 541 to 0 it turns by -181 degrees (`Angles.LongWayRound`).
* Eight samples show what the full history shows exactly when they reach back to the rendered moment
  (`Interpolation.WindowShowsHistory`); samples 15 ms apart suffice and 14 ms do not.
* A string over 256 bytes may encode but is never decoded (`Protocol.RoundTrip`). So the server, which means to
  say why it refuses a hello, answers a hello that a client can encode exactly when its name is at most 256 bytes
  long (`ServerAnswers.HelloIsAnswered`), and the length refusal in `Join` is never reached over the wire
  (`ServerAnswers.LengthRefusalIsUnreachable`). With a name over 1190 bytes the hello cannot be encoded, no attempt
  is counted and the client stays connecting (`Connection.UnsendableNameNeverEnds`).
* `NetClient.cpp` treats tick 0 as "no snapshot yet": a held snapshot is replaced by one that is not newer
  exactly when both carry tick 0 and differ (`EndToEnd.MergeRewindsOnlyAtZero`), and two snapshots with tick 0
  in a row do it (`EndToEnd.SecondZeroReplaces`). The server relays a tick only once per player, so this never
  happens behind it (`EndToEnd.NoRewind`), and a client of this program never sends tick 0 before its counter
  wraps (`TwoClients.HeldWasThere`).
* After a leave nothing is held of the player, and exactly the datagrams that decode as a snapshot of it bring its
  entry back (`EndToEnd.OnlySnapshotsRevive`, `EndToEnd.LateSnapshotRevives`), so the no-rewind result runs until
  the leave is delivered.

## Model

| member | source | states |
|---|---|---|
| `Wire.TakeU16Exact` | src/common/Serialize.hpp:94-104 | a 16-bit read returns v exactly when the two little-endian bytes of v come next |
| `Wire.TakeU32Exact` | src/common/Serialize.hpp:106-116 | the same for 32 bits, so reading undoes writing and nothing else reads as v |
| `Wire.TakeU64Exact` | src/common/Serialize.hpp:118-128 | the same for 64 bits |
| `Wire.TakeStrExact` | src/common/Serialize.hpp:142-161 | a bounded string read returns s exactly when s is within the bound and its length prefix and bytes come next |
| `Wire.FailureIsSticky` | src/common/Serialize.hpp:83-198 | whatever reads are asked in whatever order, the reader stays inside its bytes, never moves back, and after one failure every read fails and nothing remains |
| `Wire.Writer.Str` | src/common/Serialize.hpp:53-57 | appends the length modulo 2^16 and the bytes |
| `Wire.Writer.U64` | src/common/Serialize.hpp:39-43 | appends the eight little-endian bytes, low half first |
| `Wire.Reader.HasAvailable` | src/common/Serialize.hpp:179-188 | true exactly when that many bytes are left and nothing has failed; otherwise the failure is recorded |
| `Wire.Reader.U64` | src/common/Serialize.hpp:118-128 | moves the reader as the 64-bit read on values does, also when it fails halfway |
| `Wire.Reader.Str` | src/common/Serialize.hpp:142-161 | moves the reader as the bounded string read on values does: bound first, then the bytes available |
| `Protocol.Encode` | src/common/Protocol.hpp:280-300 | succeeds exactly when header and body fit in 1200 bytes, and then yields the header, with the patched size of the body, and the body |
| `Protocol.EncodableByText` | src/common/Protocol.hpp:280-300 | only a string can make a message too long: names up to 1190 bytes and reasons up to 1189 encode, everything else always does, and the length prefix of a message that encodes is never truncated |
| `Protocol.PeekHeaderExact` | src/common/Protocol.hpp:302-306 | a header is read exactly from four bytes or more that start with one of the eight type codes |
| `Protocol.DecodeExact` | src/common/Protocol.hpp:308-326 | on every byte string: the result is m exactly when the frame names m's type and its own length, m's string is within the cap and m's body follows the header; flags, leftover bytes and which nonzero byte means accepted do not matter |
| `Protocol.RoundTrip` | src/common/Protocol.hpp:280-326 | decoding an encoded message as its own type gives it back exactly when its string is at most 256 bytes; as any other type it gives nothing |
| `Protocol.DecodeMessage` | src/common/Protocol.hpp:308-326 | the decoder that drives a reader and stops at the first failure agrees with decoding on values for every byte string |
| `Protocol.ReadBody` | src/common/Protocol.hpp:118-277 | reading any of the eight bodies moves the reader and yields the message as on values |
| `Sessions.FindsAreMaps` | src/server/Session.cpp:83-102 | each linear search is a lookup by key: it returns a session exactly when that session is in the table |
| `Sessions.FindsMiss` | src/server/Session.cpp:83-102 | each search misses exactly when no session has the key |
| `Sessions.JoinKeepsTable` | src/server/Session.cpp:34-81 | an accepted join gets the next id in order and keeps ids increasing, endpoints and names distinct and the count within the maximum; a refused one changes nobody |
| `Sessions.JoinDecides` | src/server/Session.cpp:34-66 | on every table a join gets each result exactly when it should: refused for its version exactly when that is not 2; else in already exactly when a session has the endpoint; else refused for its name exactly when that is empty, over 256 bytes or some session's; else full exactly when no seat is left; and accepted exactly in the remaining case |
| `Sessions.JoinLeaves` | src/server/Session.cpp:45-81 | an accepted peer stands at the end under the next id; one that was in is marked as heard under the id it had; a refusal changes nothing |
| `Sessions.TableInvariant` | src/server/Session.cpp:34-174 | through every sequence of operations the table invariant holds and the n-th accepted join gets id n, while the ids last |
| `Sessions.IdsRunOut` | src/server/Session.cpp:65-77 | after 2^32 - 1 accepted joins the next one gets id 0, which the lookup by id never finds |
| `Sessions.SomeoneGetsIdZero` | src/server/Session.cpp:65-77 | a run that gets there: the same peer joining and being removed over and over |
| `Sessions.ExpiredExactly` | src/server/Session.cpp:116-134 | a session is expired exactly when the clock is the timeout past its last word; a clock that went back expires nobody |
| `SessionManagement.SessionManager.Join` | src/server/Session.cpp:34-81 | the object joins as the table on values does, with the checks in the same order |
| `SessionManagement.SessionManager.Touch` | src/server/Session.cpp:104-114 | moves the session of that endpoint, if any, up to the clock |
| `SessionManagement.SessionManager.TakeNextTimedOut` | src/server/Session.cpp:116-134 | takes out the first expired session and nothing else |
| `SessionManagement.SessionManager.ApplyState` | src/server/Session.cpp:136-160 | stores a snapshot exactly when it is the first or has a higher tick |
| `SessionManagement.SessionManager.Remove` | src/server/Session.cpp:162-174 | takes out the session with that id and keeps the order of the rest |
| `SessionManagement.SessionManager.FindByEndpoint` | src/server/Session.cpp:83-89 | finds the first session at that endpoint or says that there is none |
| `SessionManagement.SessionManager.FindById` | src/server/Session.cpp:91-102 | never finds anyone under id 0, otherwise the first session with that id |
| `ServerLoop.ScriptHost.OnEvent` | src/server/ScriptHost.cpp:182-204 | every backend in turn gets the event; the kicks they ask for of live players join the queue in order |
| `ServerLoop.ScriptHost.QueueKicks` | src/server/ScriptHost.cpp:37-73 | a kick is queued exactly when its player can be looked up |
| `ServerLoop.Loop.Broadcast` | src/server/main.cpp:47-64 | one encoded copy to every session but one, in table order, or nothing if the message does not encode |
| `ServerLoop.Loop.HandleHello` | src/server/main.cpp:66-133 | a hello is answered, and if it was accepted the newcomer hears of everyone, everyone of the newcomer, and the scripts last |
| `ServerLoop.Loop.HandlePlayerState` | src/server/main.cpp:135-163 | a snapshot newer than the stored one goes to everyone else, any other to nobody |
| `ServerLoop.Loop.HandlePing` | src/server/main.cpp:165-189 | a ping of a known peer is answered with the timestamp it carried |
| `ServerLoop.Loop.Sweep` | src/server/main.cpp:235-246 | takes out expired sessions one at a time, each leave sent and dispatched before the next is taken; the loop ends |
| `ServerLoop.Loop.DrainKicks` | src/server/main.cpp:250-264 | drains the batch queued when it starts; kicks asked for meanwhile stay queued |
| `ServerLoop.Loop.HandleDatagram` | src/server/main.cpp:266-301 | rejects what has no valid header, marks the sender as heard, and hands the rest to its handler or rejects it |
| `ServerLoop.Loop.Serve` | src/server/main.cpp:231-302 | over any clock readings and datagrams the loop goes through exactly the states of the state machine, and the bytes on the wire are exactly the encoded sends of its trace |
| `ServerInvariant.AnnounceKeeps` | src/server/main.cpp:236-264 | taking a session out, telling the others and the scripts keeps table, rosters, callbacks and snapshots in agreement |
| `ServerInvariant.SweepKeeps` | src/server/main.cpp:235-246 | so does the whole timeout sweep |
| `ServerInvariant.DrainKeeps` | src/server/main.cpp:250-264 | so does draining any batch of kicks |
| `ServerRuns.GreetKeeps` | src/server/main.cpp:66-133 | so does any hello, accepted or refused |
| `ServerRuns.RelayKeeps` | src/server/main.cpp:135-163 | so does relaying a newer snapshot |
| `ServerRuns.IterateKeeps` | src/server/main.cpp:231-302 | so does a whole iteration of the loop |
| `ServerRuns.RunKeeps` | src/server/main.cpp:231-302 | so the invariant holds after every run from an empty server, while the ids last |
| `ServerRuns.IterateExtends` | src/server/main.cpp:231-302 | an iteration only adds to the record of the run |
| `ServerTheorems.RostersAreExact` | src/server/main.cpp:106-129 | at every loop boundary, folding the join and leave datagrams sent to a live peer since it was accepted gives exactly the ids and names of the other live players; none is missing for want of encoding |
| `ServerTheorems.CallbacksSeeExactRosters` | src/server/main.cpp:236-264 | the same inside every callback, where a script sees a joining player live and a leaving one gone |
| `ServerTheorems.EachLifeHeardOnce` | src/server/ScriptHost.cpp:182-204 | each backend has heard of each admitted player one join and, if it is gone, one leave after it, and nothing of anyone else, however often it was kicked or timed out |
| `ServerTheorems.NobodyHearsOfItself` | src/server/main.cpp:47-64 | no join, leave or state message about a player ever goes to an endpoint that player was admitted at, across leaves and rejoins |
| `ServerTheorems.IdsKeepTheirOwner` | src/server/Session.cpp:65-77 | at any two moments of a run, an id issued by the first belongs to the same endpoint and name at the second |
| `ServerTheorems.RelaysInOrder` | src/server/Session.cpp:136-160 | in any run, snapshots of a player leave the server with rising ticks, all receivers together, and one tick carries one snapshot |
| `ServerTheorems.RelaysAreReports` | src/server/main.cpp:135-163 | in any run, every relayed snapshot is what that player's own endpoint had reported with that tick, and its receiver has the player on its roster |
| `ServerDuties.NewSnapshotsAreRelayed` | src/server/main.cpp:135-163 | in any run, when the loop takes a datagram that decodes as a snapshot of a live session: if its tick is higher than every tick received from that endpoint since it was admitted, or the first, exactly one copy goes to each other live session, and otherwise nothing is sent |
| `ServerDuties.PingsAreEchoed` | src/server/main.cpp:165-189 | in every state a ping of a peer that is in is answered with a pong carrying its timestamp and nothing else is sent; one of anyone else is not answered |
| `ServerDuties.EveryTickIsCalled` | src/server/main.cpp:231-248 | in any run every backend is called once with the clock of every iteration, in order |
| `ServerKicks.DrainRemovesExactly` | src/server/main.cpp:251-264 | draining removes exactly the sessions its batch names and leaves the rest unchanged and in order |
| `ServerKicks.DrainKeepsQueue` | src/server/ScriptHost.cpp:206-212 | what is in the queue while a batch is drained is kept for the next one and changes nothing about this one |
| `ServerKicks.RunKicksOk` | src/server/ScriptHost.cpp:37-73 | after every run each queued kick was asked for by a backend in a recorded callback in which its player was live |
| `ServerKicks.SameIdSamePlayer` | src/server/ScriptHost.cpp:62-73 | a player shown to a script under an id and a session live later under that id are the same peer by endpoint and name |
| `ServerKicks.KicksHitTheirTarget` | src/server/ScriptHost.cpp:37-40 | in any run a session that draining removes has a queued kick which some backend asked for in a recorded callback that handed it this very player live, and nobody else was ever handed out under that id, however many left, joined or reused its name or endpoint in between |
| `KickDuties.KicksAskedForAreQueued` | src/server/ScriptHost.cpp:37-73 | in every round of callbacks every kick, with whatever reason, that a backend asks for of a player in the sessions handed to it joins the queue behind what was there |
| `KickDuties.KickedAreGone` | src/server/main.cpp:248-264 | in any run, by the end of the next drain that starts, nobody is live whom a backend asked to have kicked in a recorded callback in which that player was live |
| `ServerTimeouts.SweepRemovesExactly` | src/server/Session.cpp:116-134 | the sweep removes exactly the expired sessions and leaves the rest unchanged and in order |
| `ServerTimeouts.SweepCountsDown` | src/server/main.cpp:235-246 | in one sweep every backend hears the expired players leave in table order, each with one player fewer online |
| `ServerAnswers.HelloIsAnswered` | src/server/main.cpp:66-104 | in every server state a hello that a client can encode, of any version, is answered exactly when its name is at most 256 bytes long, and the answer says what the table decides about it |
| `ServerAnswers.AnswersAreDeserved` | src/server/main.cpp:66-104 | on the wire, in every state: a hello that encodes, with a name of at most 256 bytes, is answered as accepted exactly when its version is 2 and the peer is in already or its name is allowed and free and a seat is left, and gets each of the three refusals, by its text, exactly in its own case |
| `ServerAnswers.WelcomeHelloConnects` | src/client/NetClient.cpp:239-261 | whenever the server accepts a hello its answer, once delivered, leaves the client connected, in whatever state it was |
| `ServerAnswers.RefusalRefuses` | src/client/NetClient.cpp:248-261 | and a refusal, once delivered, leaves it refused |
| `ServerAnswers.AnswersSayWhy` | src/server/main.cpp:80-92 | the answer tells whether the peer is in, and each refusal has its own nonempty reason |
| `ServerAnswers.LongNamesGetNoAnswer` | src/server/main.cpp:66-76 | a hello whose name encodes but exceeds 256 bytes changes nothing but when its sender was heard, and nothing is sent |
| `ServerAnswers.LengthRefusalIsUnreachable` | src/server/Session.cpp:54-57 | no bytes decode as a hello with a name over 256 bytes, so over the wire that check refuses only the empty name |
| `ServerArrivals.IterateReceives` | src/server/main.cpp:231-302 | an iteration receives exactly the one datagram it takes, whatever else it does |
| `ServerTimeouts.OnlyTheSilentAreDropped` | src/server/main.cpp:266-282 | with a clock that does not go back, and every datagram taken having come at most L ms after its iteration read the clock, however long before, every valid datagram the loop has taken from a dropped peer came at least timeout - L before the sweep |
| `ServerTimeouts.NothingHeardLater` | src/server/main.cpp:266-282 | the fold for the last arrival is an upper bound of every arrival of that endpoint |
| `ServerSilence.LastSeenIsLastHeard` | src/server/main.cpp:266-282 | in any run every session was last seen at the clock of the last iteration that took a datagram with a valid header from its endpoint |
| `ServerSilence.DroppedExactlyWhenSilent` | src/server/Session.cpp:104-134 | so the next sweep drops a live session exactly when its clock is past that one by at least the timeout |
| `Client.EncodedArrives` | src/client/NetClient.cpp:228-357 | whatever the server encodes for a client, with a string it may send, is handled as that message and never counted as malformed |
| `ClientTheorems.ClientFollowsMessages` | src/client/NetClient.cpp:228-357 | after any turns, by the messages handled alone: while the thread runs the client is connecting, connected or refused exactly as no answer, an accepting or a refusing one was the last; of every player it holds the snapshot with the highest tick handled since the last leave of that player (the first of those with that tick; if none is above 0, the last), or nothing if there were none, whatever came of others; the events are the joins and leaves in order, and there is one task a pong |
| `ClientTheorems.NewestIsUnique` | src/client/NetClient.cpp:304-332 | there is only one such snapshot, so this fixes what is held |
| `ClientTheorems.DatagramIsMessage` | src/client/NetClient.cpp:228-357 | a datagram changes the client as the message it decodes as does, and only counts as malformed if it decodes as none |
| `ClientTheorems.ThreadEndsForAReason` | src/client/NetClient.cpp:135-173 | with a clock that does not go back, a thread that has ended was refused, or has sent ten hellos and handled no answer, or was accepted and has disconnected |
| `ClientTheorems.HellosKeepComing` | src/client/NetClient.cpp:135-154 | while it is connecting with a name that encodes, and its clock is past 500 ms, the last hello is less than 500 ms old |
| `ClientTheorems.HellosSayWho` | src/client/NetClient.cpp:194-204 | every hello carries version 2 and the name connected with |
| `ClientTheorems.PingsKeepComing` | src/client/NetClient.cpp:155-161 | after the timers of every turn that begins connected, with its clock past 1000 ms, the last ping is less than 1000 ms old |
| `Connection.HellosAreFewAndSpaced` | src/client/NetClient.cpp:138-154 | in every run at most ten hellos are sent, at least 500 ms apart, and the attempt counter counts them |
| `Connection.ConnectingEnds` | src/client/NetClient.cpp:125-192 | whatever arrives, a client whose name encodes is not connecting any more once the clock passes an explicit deadline; with no answer it has given up |
| `Connection.UnsendableNameNeverEnds` | src/client/NetClient.cpp:194-210 | with a name that does not encode nothing is sent, no attempt is counted and connecting never ends |
| `Connection.SendableNames` | src/client/NetClient.cpp:194-204 | the names that encode are exactly those of at most 1190 bytes |
| `Connection.OverIsFinal` | src/client/NetClient.cpp:163-173 | once refused or disconnected, nothing changes or is sent for the rest of the thread |
| `Connection.WaitsOnlyForLiveServer` | src/client/NetClient.cpp:155-170 | a connected client goes on to receive exactly when the server was heard less than 8000 ms of loop clock ago, otherwise it disconnects |
| `ClientNetwork.NetClient.Run` | src/client/NetClient.cpp:125-192 | over any polls the thread goes through exactly the states of the connection machine, heeding and counting only datagrams of its server, and the bytes it sends are the encoded messages of that machine |
| `ClientNetwork.NetClient.Connect` | src/client/NetClient.cpp:62-111 | counters, snapshots and events of an earlier connection are gone |
| `ClientNetwork.NetClient.RunTimers` | src/client/NetClient.cpp:135-173 | the timers of one pass act on the state read at its start, and the connection timeout comes after the ping |
| `ClientNetwork.NetClient.SendHello` | src/client/NetClient.cpp:194-210 | counts an attempt and sends only if the hello encodes |
| `ClientNetwork.NetClient.HandleDatagram` | src/client/NetClient.cpp:228-357 | updates the state in place as the machine says for every byte string |
| `ClientNetwork.NetClient.HandleMessage` | src/client/NetClient.cpp:239-356 | a newer snapshot replaces, an older one is counted and dropped, joins and leaves queue, a leave erases the snapshot, a pong pushes one task |
| `ClientNetwork.NetClient.SendState` | src/client/NetClient.cpp:359-381 | sends only when connected, under the next tick |
| `ClientNetwork.NetClient.CopyRemoteSnapshots` | src/client/NetClient.cpp:393-404 | lists every held snapshot exactly once, in some order |
| `EndToEnd.NoRewind` | src/client/NetClient.cpp:304-332 | over a network that loses, repeats and reorders, and until a leave for p is delivered, the snapshot the client holds of p stays and changes only to one with a higher tick |
| `EndToEnd.HeldIsReported` | src/server/main.cpp:135-163 | and it is exactly what p's own endpoint reported to the server with that tick |
| `EndToEnd.SystemKeeps` | src/client/NetClient.cpp:228-357 | in every such run the server's invariant holds and every snapshot the client holds was sent to it |
| `EndToEnd.MergeRewindsOnlyAtZero` | src/client/NetClient.cpp:315-329 | by itself the client rewinds, or swaps content under one tick, exactly when both snapshots carry tick 0 and differ |
| `EndToEnd.SecondZeroReplaces` | src/client/NetClient.cpp:315-329 | two snapshots with tick 0 handled one after the other: the second replaces the first |
| `EndToEnd.OnlySnapshotsRevive` | src/client/NetClient.cpp:304-332 | with nothing held of p, a datagram brings an entry of p exactly when it decodes as a snapshot of p |
| `EndToEnd.LateSnapshotRevives` | src/client/NetClient.cpp:281-332 | after the datagram of a leave the player's entry is gone; a snapshot datagram after that brings it back |
| `TwoClients.HeldWasThere` | src/client/WorldSystem.cpp:620-640 | two clients, one server, a network that loses, repeats and reorders both ways: what one client holds of the other is one of the snapshots the other's game sent, at a position of one of its frames, with the tick of its place in the sequence, so never 0 before the counter wraps |
| `TwoClients.SeenInOrder` | src/client/NetClient.cpp:304-332 | and until the leave is delivered it changes only to one sent later, so positions are shown in the order they were sent |
| `TwoClients.SharesAddUp` | src/client/NetClient.cpp:125-192 | what the second client and the server go through in that system is a run of the two alone, so every result about such runs applies |
| `SeenBodies.PlacedWhereSent` | src/client/WorldSystem.cpp:405-618 | whatever the network, frames and engine do: in every frame in which one client's game places the body of another's player, it stands, coordinate by coordinate, between two positions the other's game sent, the first not after the second |
| `SeenBodies.PlacedInSentOrder` | src/client/WorldSystem.cpp:514-581 | with frames at least 15 ms apart, once a sample is as old as the moment shown, that pair never goes back to an earlier position from one frame to any later one |
| `SeenBodies.NoLeaveIsTaken` | src/client/WorldSystem.cpp:409-421 | a game takes a leave of p only after a datagram of that leave was delivered |
| `Convergence.StaysInStep` | src/client/WorldSystem.cpp:409-421 | in-order delivery, event pumps and snapshot pumps, mixed in any way, keep bodies plus queued events equal to the roster told so far and every held snapshot on that roster |
| `Convergence.BodiesFollowRoster` | src/client/WorldSystem.cpp:409-421 | so in any server run, from the client's admission on, with an empty event queue the bodies are exactly those of the roster of the delivered prefix, and every held snapshot has a body |
| `Convergence.BodiesConverge` | src/client/WorldSystem.cpp:405-437 | and when everything is delivered and taken they are exactly the other live sessions of the server |
| `World.ApplyEventsInTwo` | src/client/WorldSystem.cpp:409-421 | taking the events in two portions gives the same bodies as taking them at once |
| `World.SampledIsObserved` | src/client/WorldSystem.cpp:514-524 | sampling a body that can be moved is one step of the sample window |
| `World.LocalStatesAreSpaced` | src/client/WorldSystem.cpp:620-640 | however often frames come, local snapshots leave at least 66 ms apart |
| `World.LocalStatesAreNumbered` | src/client/NetClient.cpp:359-381 | they carry the ticks 1, 2, 3, ... modulo 2^64 |
| `World.LocalStatesAreSeen` | src/client/WorldSystem.cpp:620-640 | each of them shows the position of a frame in which there was a connection and a player |
| `World.LocalStatesKeepComing` | src/client/WorldSystem.cpp:620-640 | in every frame that sees a player, once the clock has passed 66 ms, some frame that saw one took its turn less than 66 ms ago, and if it had a connection its snapshot was sent |
| `GameWorld.WorldSystem.ApplyRemoteEvents` | src/client/WorldSystem.cpp:409-421 | takes the queue and folds it into the bodies in order |
| `GameWorld.ListIsMap` | src/client/WorldSystem.cpp:428-436 | a list of the snapshots stands for the map whatever its order |
| `GameWorld.WorldSystem.ApplySnapshots` | src/client/WorldSystem.cpp:423-618 | the loop over the copied list updates and places each body as the pump on maps does, so the order of the hash map does not matter |
| `GameWorld.WorldSystem.PumpOne` | src/client/WorldSystem.cpp:434-581 | the first snapshot requests an entity; later ones become samples once the entity exists, and only then the body is placed |
| `GameWorld.WorldSystem.Place` | src/client/WorldSystem.cpp:531-581 | searching the samples and interpolating gives the pose and velocity of the specification |
| `GameWorld.WorldSystem.SendLocalState` | src/client/WorldSystem.cpp:620-640 | nothing within 66 ms of the last or without a player; the timer starts over even without a connection |
| `GameWorld.WorldSystem.RunTick` | src/client/WorldSystem.cpp:684-716 | runs at most 64 tasks, those pending when it starts, in the order they were pushed |
| `GameWorld.WorldSystem.OnMultiplayerUpdate` | src/client/WorldSystem.cpp:671-681 | tasks first, then the remote players, then the local one |
| `Interpolation.WindowShowsHistory` | src/client/WorldSystem.cpp:514-581 | the eight samples show what the unbounded history would, exactly when they reach back to the rendered moment or nothing was dropped or no sample is that old |
| `Interpolation.SpacedReaches` | src/client/WorldSystem.cpp:296-297 | with samples at least 15 ms apart they always reach: seven gaps cover the delay |
| `Interpolation.FourteenIsNotEnough` | src/client/WorldSystem.cpp:296-297 | nine samples 14 ms apart that are shown differently |
| `Interpolation.EveryFrameShowsHistory` | src/client/WorldSystem.cpp:514-581 | so in every frame of every such run the window and the history show the same |
| `Interpolation.FramesApartSpaceSamples` | src/client/WorldSystem.cpp:514-524 | frames at least 15 ms apart accept samples at least 15 ms apart |
| `Interpolation.HistoryIsFresh` | src/client/WorldSystem.cpp:514-524 | a body samples exactly the snapshots whose tick is higher than all it was shown before, at the clock of their frame |
| `Brackets.BracketNeverRewinds` | src/client/WorldSystem.cpp:534-581 | of a growing history with that spacing, later frames show a pair of samples that is not earlier |
| `Interpolation.DisplayNeverRewinds` | src/client/WorldSystem.cpp:534-581 | once a sample is as old as the render time, the displayed time never goes back from one frame to any later one and never passes the render time |
| `Interpolation.PoseStaysBetween` | src/client/WorldSystem.cpp:554-562 | a bracket is never empty in time, the fraction lies in [0, 1), and each coordinate shown lies between its two samples |
| `Interpolation.VelocityMatchesMotion` | src/client/WorldSystem.cpp:564-567 | the velocity handed to the animation is the rate at which the shown position changes between frames |
| `Interpolation.MotionJoinsSamples` | src/client/WorldSystem.cpp:554-562 | the motion starts at the earlier sample's pose and is headed for the later one's position |
| `Interpolation.RotationTurns` | src/client/WorldSystem.cpp:299-304 | the rotation shown starts at the earlier sample's, is headed for the later one's up to whole turns, moves evenly in time, and goes the shortest way exactly where the turn is shortest |
| `Interpolation.FindBracket` | src/client/WorldSystem.cpp:538-554 | the one-pass search finds the two neighbours around the render time; its check that they differ in time never fails |
| `RemoteBodies.BodyIsObserved` | src/client/WorldSystem.cpp:405-524 | from join to leave, whatever frames, events and engine answers come, a body's samples are the window over the snapshots of the frames in which it could be moved |
| `RemoteBodies.MovedExactly` | src/client/WorldSystem.cpp:434-512 | from join to leave a body is moved in exactly the frames in which the engine is there, a snapshot is held, and the entity exists that was asked for in the first frame with engine and snapshot and was granted |
| `RemoteBodies.PlacedExactly` | src/client/WorldSystem.cpp:434-581 | in exactly those frames, once one of them held a snapshot that is not tick 0, the body is placed, and by the last eight of the snapshots that were newer than all before them |
| `RemoteBodies.PlacedByHistory` | src/client/WorldSystem.cpp:405-618 | and in every frame in which it is placed, it is placed where its unbounded history says, if its samples came at least 15 ms apart |
| `RemoteBodies.PlacedByHistoryAtFrameRate` | src/client/WorldSystem.cpp:405-618 | in particular whenever the frames come at least 15 ms apart, which can be seen beforehand |
| `Angles.TurnReaches` | src/client/WorldSystem.cpp:299-304 | for all angles the turn is congruent to the difference, and at fraction 1 it ends at the target up to whole turns |
| `Angles.TurnInRange` | src/client/WorldSystem.cpp:299-304 | the turn lies in [-180, 180) exactly when the dividend of fmod is not negative or a multiple of 360 |
| `Angles.TurnIsShortest` | src/client/WorldSystem.cpp:299-304 | and exactly then no congruent turn is shorter |
| `Angles.LongWayRound` | src/client/WorldSystem.cpp:299-304 | from 541 to 0 the code turns by -181 degrees, which is not shortest |
| `Angles.FModRange` | src/client/WorldSystem.cpp:302-302 | the truncating remainder has the sign of its dividend and stays within one modulus |
| `TaskQueues.NothingLostOrRunTwice` | src/common/TaskQueue.hpp:21-88 | for every interleaving, what was taken and cleared in lock order and what is pending make up exactly the non-null pushes in order, and each drain has run a prefix of its own batch |
| `TaskQueues.DrainRunsItsBatch` | src/common/TaskQueue.hpp:42-75 | whatever other threads and running tasks do, a drain runs what was pending at its lock, up to its budget and all for budget 0, one task a turn, and nothing else |
| `TaskQueues.OneDrainerRunsInPushOrder` | src/common/TaskQueue.hpp:42-75 | with drains that do not overlap and no clears, the tasks run and then the pending ones are exactly the pushes in order |
| `TaskQueues.TakenInTime` | src/common/TaskQueue.hpp:42-75 | with budget b the task at index k leaves the queue with drain k / b + 1 from now, not sooner and not later, whatever is pushed meanwhile |
| `TaskQueues.TaskQueue.Push` | src/common/TaskQueue.hpp:21-30 | appends a task, or nothing for a null one |
| `TaskQueues.TaskQueue.Drain` | src/common/TaskQueue.hpp:42-75 | takes a batch of at most the budget, or all for budget 0, runs exactly it in order while its tasks push more, and returns its size |

## Left out

- Sockets: Winsock and `src/common/Net.cpp` are foreign calls. An endpoint is an address and a port; sending appends to an outbox; a failed send looks like a loss.
- The engine: `WriteTransform`, `WriteMover`, `WriteTeleport`, entity specs and component dumps. One frame's engine is three answers: whether its entity system is there, which spawn requests it accepts, which entities exist. The choice of move mode, body kind and template only selects among these calls.
- Floats: bit patterns on the wire and in the server, reals in the interpolation and the angle arithmetic. Rounding, NaN and infinities in interpolation are not modelled, nor is the yaw quaternion.
- `src/server/LuaBackend.cpp`: backends are arbitrary functions of the callback. A backend that keeps an `IPlayer` pointer past the callback that handed it out is not modelled, nor are starting, failing and stopping backends.
- The one player view that `Players::Find` rebuilds at every lookup: a kick through a pointer from an earlier lookup kicks the player looked up last, which the model sees as a kick of that player.
- Script calls while no event is being dispatched: the loop never makes any.
- `SetInterpolation`, `SetBodyKind`: debug switches. Interpolation results hold between resets of a body's samples.
- Reconnecting: convergence is stated within one connection, because `Connect` clears snapshots and events but not the bodies of the game.
- Convergence of joins and leaves under loss or reordering: the code retransmits nothing (the `Reliable` flag is written and never acted on), so it is not claimed.
- ClientNetwork.NetClient.Run: covers the thread while the game does not call in between; the game's calls are their own methods, and `Convergence.dfy` and `TwoClients.dfy` interleave them with the thread.
- ServerTimeouts.OnlyTheSilentAreDropped: speaks of datagrams the loop has taken; one that still waits in the socket does not keep its sender from being dropped.
- The order of taking events and copying snapshots against the network thread: `Convergence.dfy` lets the thread run in between; `WorldSystem.PumpRemotePlayers` is the case in which it does not. The two locks a leave takes one after the other are one step.
- `Disconnect` and the stop token: a thread that is stopped simply gets no more turns.
- Client ticks past 2^64 - 1 wrap; the numbering result covers the wrap, the no-rewind result is stated on the ticks that are sent, and `SeenInOrder` on runs that send fewer.
- Datagrams forged in the name of the first client: `TwoClients.dfy` lets everyone else send anything, but only that client sends from its endpoint.
- Statistics, round-trip times, error texts, logging, tick timing, thread identities, `ToString`.
- The shutdown of the server and its command line.
- `IdsLast`: results about identities, rosters and callbacks hold for runs that admit at most 2^32 - 1 players; `Sessions.IdsRunOut` says what happens to the next one.
- `nettest`, the PowerShell tools and the build files.
