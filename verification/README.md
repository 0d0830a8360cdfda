# hermytt: a verified model of its stateful cores

hermytt relays terminals. Hosts connect over control sockets, clients over WebSockets, MQTT
and a Telegram bot; sessions live in a shared table. Most of the code is plumbing. This
project models the parts where something can go wrong that no single function shows:

* **The control plane as an interleaved protocol** (`Hosts`, `Sessions`, `StdinFlow`,
  `StdinDelivery`, `SpawnCalls`, `ControlPlane`, and over its runs `ControlPlaneSafety`,
  `ControlPlaneHosts`, `ControlPlaneSpawns`, `ControlPlaneSweeps`, `ControlPlaneResults`).
  Every block under one lock, and every channel operation, is one step; control loops, spawn
  calls, stdin forwarders, PTY writers, internal pipes and the sweeper may take their steps in
  any order. A loop carries a program counter whose values are the points between two awaits.
  Histories (what was written, read, handed over, accepted, sent, answered) are part of the
  state, so that the guarantees can be stated over all runs. `StdinRecords` and
  `ControlPlaneHistories` say which actions each of them comes from; `StdinProgress` and
  `ControlPlaneProgress` say what can still be achieved from a state.
* **The same handlers as objects and methods** (`ControlHub`, `Registry`, `SessionManager`,
  `ControlLoop`), each method proved against its whole new state, and `ControlLoopSteps`, which
  proves that a handler that is not interrupted takes the objects exactly where the loop's own
  protocol steps take the protocol's state.
* **Output to clients** (`LateJoin` over `Scrollback`): producers push to the scrollback and then
  broadcast; a client subscribes, takes the history and goes live, in any interleaving.
* **Batching and its consumers** (`Coalescer`, `MqttForwarder`, `MqttAttach`): a timed buffer that
  can be suspended at every await, the forwarder that stops at the exit sentinel, and the loop
  that starts the forwarders.
* **Text algorithms** (`SplitResponse` with `SplitPieces`, `Progress`, `PercentEncoding`, `Scrollback` over `Utf8`).
* **Two readers of one stream format** (`EventStream`, `EventStreamAgreement`), section 9.2.6 of
  the WHATWG HTML Standard: the browser's, driven by blocks out of a growing buffer, and the
  bridge's, driven by lines.

`Common`, `Text` and `Trimming` hold what these share. Characters are Unicode scalar values, bytes
are integers below 256, time is a natural number of milliseconds.

## What turned out not to hold

Each of these is a lemma with a concrete run or input, beside the lemma that says exactly when the
code does keep the property.

* A host that reconnects before its old loop has cleaned up drops out of the hub although it is
  connected (`ReconnectedHostDropsOut`). Over all runs, a loop that has joined and not yet cleaned
  up is in the hub if and only if no other loop of its name has joined or left since
  (`ConnectedIsInHub`).
* A session does not regain stdin after its forwarder broke, even when its host is back: the
  receiver went with the forwarder (`BrokenForwarder`, and over all runs `StdinLostForGood`). A
  forwarder breaks if and only if its host is not in the hub as it is about to hand over a write
  (`BrokenExactly`).
* With a repeated request id a spawn call loses its channel, even to a call that is no longer
  pending (`RepeatedIdDrops`, `LateWithdrawalDrops`). Over all runs, a call loses it if and only if,
  while it was pending, another call with its id inserted its request or gave up
  (`ChannelLostExactly`); all else about spawn calls holds whatever ids were drawn.
* `cleanup_dead` can remove a live managed session when a dead id is unregistered and registered
  again between its two phases (`SweepHitsReusedId`); it removes what it found dead if and only if
  the id was not used again in between (`CleanupTakesTheDead`).
* An MQTT forwarder stays with the session object it found, so a session that takes over an id
  between two polls gets none (`ReplacedSessionIsMissed`). A session has a forwarder of its own if
  and only if it is the object found when the one forwarder of its id was started (`ServedExactly`).
* The two stream readers can differ. `trim` removes U+0085 in Rust but not in JavaScript, and U+FEFF
  the other way round (`OddName`, `OtherOddName`); the bridge drops all spaces before data, the
  browser one (`TwoSpaces`); and the bridge keeps the name of a block without data (`KeptName`). The
  languages trim a name alike if and only if neither end, behind white space on which they agree, is
  one of the two characters (`TrimsAgree`), and a block is taken alike, whatever plain text follows,
  if and only if it is plain (`PlainExactly`). With CRLF line ends, which the standard allows, the
  bridge sees every event (`CrlfSame`) and the browser none (`CrlfUnseen`).
* A limit of zero makes `split_response` emit an empty and an oversized chunk
  (`ZeroLimitOverflows`); any other limit is kept (`LimitKept`).
* A text that fits in one message is not always sent unchanged (`ShortTextChanged`): a leading
  `"\n\n"` goes, and an odd trailing run of newlines loses one. `SentUnchanged` says exactly when it
  is, `Canonical` what remains.
* A scrollback of capacity zero keeps one line, since the pop comes before the push
  (`ZeroCapacityKeepsOne`); any other capacity is kept (`CapacityKept`).
* The comment that twenty lines keep the progress text under Telegram's limit holds if and only if
  tool names have at most 134 characters (`StatusFitsExactly`, with `CrowdedLength` for the input).

## Model

| member | source | states |
|---|---|---|
| `ControlPlaneSafety.RunSafe` | hermytt-transport/src/control_ws.rs:84-222 | in every state of every interleaving: no ghost entries, the session table within its limit and named right, one holder per stdin receiver, and every write accounted for |
| `ControlPlaneSafety.NoGhostHosts` | hermytt-transport/src/control_ws.rs:218-220 | over all runs, a name whose loops have all finished is neither in the hub nor, unless REST announced it, in the registry |
| `ControlPlaneSafety.OneReceiver` | hermytt-core/src/session.rs:374-380 | over all runs, the stdin receiver of a session object has exactly one holder, the PTY writer if and only if the session is local, else its slot, one forwarder or one pipe |
| `ControlPlaneSafety.StdinAtMostOnce` | hermytt-transport/src/control_ws.rs:117-133 | over all runs, what a socket carried for a session is a prefix, in write order, of the writes handed to that loop; write k was handed to one loop only |
| `ControlPlaneSafety.StableHost` | hermytt-core/src/control.rs:206-210 | from any step on, and whatever was handed over before: as long as a host name leads to one loop only, all further hand-overs of its sessions go to that loop |
| `ControlPlaneSafety.StdinConserved` | hermytt-transport/src/control_ws.rs:205-214 | from any step on, while the hub leads to one loop and that loop has not broken off: sent, in hand, queued, held by the forwarder and still in stdin are what the loop was handed before and then all writes not handed over before, in order, however many sessions share the queue |
| `ControlPlaneSafety.RunWireIds` | hermytt-transport/src/control_ws.rs:121-130 | over all runs, every input a loop accepts carries the id of the session it was written to |
| `ControlPlaneHistories.WritesAreOwn` | hermytt-transport/src/rest.rs:644-649 | over all runs, what a session object was written is the data of the client writes to that very object, in order, so far as its receiver existed and fewer than 256 writes were waiting |
| `ControlPlaneHistories.StdinNext` | hermytt-core/src/session.rs:133-165 | in every safe state, a session is written, read or closed by exactly these actions, each on its own object: only the holder of the receiver reads or drops it |
| `ControlPlaneHistories.HandedNext` | hermytt-core/src/control.rs:206-210 | a write is handed over exactly when its forwarder turns to a host in the hub whose queue has room, and then to the loop the name leads to |
| `ControlPlaneHistories.AcceptedArrived` | hermytt-core/src/control.rs:146-210 | over all runs, a loop's queue accepted exactly the writes of the forwarders, the requests of the spawn calls, each under its own id, and the commands that were for it, in order |
| `ControlPlaneHistories.SentNext` | hermytt-transport/src/control_ws.rs:205-214 | each message a socket takes is the oldest accepted one that it has not taken yet |
| `ControlPlaneHistories.ForwarderMade` | hermytt-transport/src/control_ws.rs:117-133 | a forwarder is made for the object that the id names, if its receiver is in the slot, and for the host of the loop that takes it |
| `ControlPlaneHistories.NoForwarderElse` | hermytt-transport/src/control_ws.rs:117-133 | and at no other step |
| `ControlPlaneHistories.PipeMade` | hermytt-transport/src/rest.rs:1102-1105 | an internal pipe gets the receiver of the object that the id names, if it is in the slot |
| `ControlPlaneHistories.TableNext` | hermytt-core/src/session.rs:290-438 | who is in the table after any action, and under which object: what put it in, and what took it out |
| `ControlPlaneHistories.AliveNext` | hermytt-core/src/session.rs:250-260 | only the exit of its own child makes a session object dead, and only an unmanaged one |
| `ControlPlaneHistories.SweepsNext` | hermytt-core/src/session.rs:419-427 | the first phase of a cleanup notes the dead ids it found, whenever it looks, and nothing else does |
| `ControlPlaneHistories.HubNext` | hermytt-core/src/control.rs:114-128 | whom a name leads to after any action: the loop that just joined, nobody after a cleanup under the name, else the same loop |
| `ControlPlaneHistories.RegistryNext` | hermytt-core/src/registry.rs:74-84 | who is in the registry after any action, and on whose announcement |
| `ControlPlaneHistories.LoopsNext` | hermytt-transport/src/control_ws.rs:55-66 | every accepted socket has a loop of its own, under the name its host gave, and only that loop's own actions move it |
| `ControlPlaneHistories.LoopTurns` | hermytt-transport/src/control_ws.rs:84-222 | a waiting loop takes on the message its host sends or the oldest in its queue, and closes if and only if the socket fails |
| `ControlPlaneProgress.EverythingDeliverable` | hermytt-transport/src/control_ws.rs:117-133 | from every reachable state in which a session's forwarder has not broken and its host's loop waits for work, the two alone can bring to the socket, in order, every write that was not handed to another loop |
| `ControlPlaneProgress.SpawnCanSucceed` | hermytt-core/src/control.rs:146-196 | from every state in which a host's loop waits for work and has room, a spawn call for that host under an id that is not pending can return what the host replies, and all that was pending still is |
| `ControlPlaneSafety.BrokenExactly` | hermytt-transport/src/control_ws.rs:124-131 | over all runs, a forwarder has broken if and only if, at some step, it was to hand over a write while its host was not in the hub |
| `ControlPlaneSafety.StdinLostForGood` | hermytt-transport/src/control_ws.rs:119-132 | over all runs, the stdin of a session whose forwarder broke is closed and never changes again, and the forwarder stays broken |
| `ControlPlaneSafety.RegisteredIsKnown` | hermytt-transport/src/control_ws.rs:112-135 | a handler between `register_session` and its answer has itself gone through it at an earlier step, after which the session was in the table unless the table had been full before, and has been on its way to the answer ever since |
| `ControlPlaneSafety.AnswersAreKnown` | hermytt-transport/src/control_ws.rs:412-434 | registered before told: every Ok answer is recorded by a step of a loop whose handler had itself gone through `register_session` for that reply in this way, and the answer never changes |
| `ControlPlaneSafety.RunSpawnsSound` | hermytt-core/src/control.rs:146-203 | whatever ids were drawn, calls, pending entries and answers match up in every state of every run |
| `ControlPlaneSafety.OneResult` | hermytt-core/src/control.rs:178-188 | a call's result never changes once it has returned |
| `ControlPlaneSafety.SpawnSucceeds` | hermytt-core/src/control.rs:178-196 | a call that returns Ok returns the payload of an answer with its own id, recorded at a step at which the call was the one pending under the id, by a handler that had gone through `register_session` before |
| `ControlPlaneResults.ResultDecided` | hermytt-core/src/control.rs:178-188 | over all runs, whatever a call returns was decided by one earlier step: a loop's reply to that call while it was pending, its timer while it had no answer, a send to a loop that had finished, the repeated id, or a start for a host not in the hub, as the result says |
| `ControlPlaneResults.AnswerStands` | hermytt-core/src/control.rs:178-179 | over all runs, a waiting call that holds an answer, Ok or error, waits on until it is delivered, and then has returned that very answer |
| `ControlPlaneResults.StartExactly` | hermytt-core/src/control.rs:152-158 | a call looks up its own host: it goes on with the loop the name leads to, and returns at once if and only if there is none |
| `ControlPlaneResults.TargetIsHost` | hermytt-core/src/control.rs:152-171 | over all runs, the loop that a call is about to send to is the one its host led to when it started |
| `ControlPlaneResults.Proceeds` | hermytt-core/src/control.rs:160-187 | what a call does at each of its turns, and the error with which it gives up |
| `ControlPlaneSweeps.CleanupTakesTheDead` | hermytt-core/src/session.rs:419-438 | over all runs, the second phase removes for an id the dead unmanaged object the first phase found, if and only if the id was not used again in between; else an object made later |
| `ControlPlaneSweeps.SweepTakes` | hermytt-core/src/session.rs:428-436 | the same for the session table alone |
| `Hosts.HostStepKeeps` | hermytt-transport/src/control_ws.rs:66-104 | every hub entry, and every registry entry written by a loop, belongs to a loop of that name which has not finished its cleanup; each step keeps this |
| `Hosts.GoneAfterCleanup` | hermytt-transport/src/control_ws.rs:519-520 | once all loops of a name have finished, the hub does not hold it |
| `ControlPlaneHosts.ConnectedIsInHub` | hermytt-transport/src/control_ws.rs:64-66 | over all runs, a loop that joined and has not cleaned up holds its name in the hub if and only if no other loop of that name has joined or left since |
| `Hosts.CleanupEvicts` | hermytt-core/src/control.rs:125-128 | one cleanup step removes another loop's entry if and only if that loop holds the name at that moment |
| `Hosts.ReconnectedHostDropsOut` | hermytt-core/src/control.rs:114-128 | a run in which a reconnected host is running but not in the hub |
| `Sessions.TableStepKeeps` | hermytt-core/src/session.rs:290-438 | never more than max_sessions entries, every entry under its object's own id, and what a sweep found dead stays dead |
| `Sessions.DeadStaysDead` | hermytt-core/src/session.rs:250-260 | deadness is stable and never touches managed sessions |
| `Sessions.SweepRemovesDead` | hermytt-core/src/session.rs:429-436 | an id that still names the swept object is removed only if that object is dead and unmanaged |
| `Sessions.SweepHitsReusedId` | hermytt-core/src/session.rs:419-438 | a run in which the sweep removes a live managed session |
| `StdinFlow.HolderStep` | hermytt-core/src/session.rs:376-380 | only a take moves a receiver, only out of its slot, and only to the taker |
| `StdinFlow.LinearKept` | hermytt-transport/src/rest.rs:1102-1105 | with forwarders and pipes competing, each receiver keeps exactly one holder |
| `StdinDelivery.SoleReader` | hermytt-transport/src/control_ws.rs:117-133 | nobody else reads what a forwarder reads from |
| `StdinDelivery.CountedKept` | hermytt-transport/src/control_ws.rs:124-131 | a forwarder holds exactly the one write that was read and not yet handed over |
| `StdinDelivery.LoggedKept` | hermytt-core/src/control.rs:206-210 | what each queue accepted for a session is the writes handed to that loop, in order |
| `StdinDelivery.AccountedKept` | hermytt-transport/src/control_ws.rs:205-214 | sent, in hand and queued make up all accepted messages until a send fails or the loop is gone; after that nothing more is sent |
| `StdinDelivery.DeliveryKept` | hermytt-transport/src/control_ws.rs:117-133 | all of this is kept by every step |
| `StdinDelivery.AtMostOnceInOrder` | hermytt-transport/src/control_ws.rs:205-214 | in any such state, the inputs sent for a session are a prefix of the writes handed to that loop |
| `StdinDelivery.NothingMissing` | hermytt-transport/src/control_ws.rs:117-133 | in any such state, if all hand-overs from some number on went to one loop that still serves its queue, no write from that number on is missing |
| `StdinDelivery.BrokenForwarder` | hermytt-core/src/control.rs:206-210 | a run in which a forwarder breaks: the write in its hand is lost, no other forwarder can take over, and later writes fail |
| `SpawnCalls.SpawnStepKeeps` | hermytt-core/src/control.rs:146-203 | with any ids, pending entries are exactly the unanswered calls between insertion and return, each answer is held by the one call it met, and a call that saw a drop lost its sender |
| `SpawnCalls.InsertReplacesNothing` | hermytt-core/src/control.rs:161-162 | an insertion takes no other call's entry if and only if its id is not pending |
| `SpawnCalls.LostStep` | hermytt-core/src/control.rs:161-187 | a call loses its sender exactly when another call with its id inserts or gives up while it is pending, and never gets it back |
| `SpawnCalls.CallMoves` | hermytt-core/src/control.rs:160-188 | the only ways from one point of a call to the next, and each of them is taken |
| `SpawnCalls.AnswerReaches` | hermytt-core/src/control.rs:192-203 | a call comes to hold an answer if and only if it is the one pending under the id of that answer |
| `SpawnCalls.RepliesRecorded` | hermytt-core/src/control.rs:192-203 | every reply is recorded in order, with the call it met, if any |
| `SpawnCalls.AnswerReturned` | hermytt-core/src/control.rs:178-179 | a waiting call with an answer returns exactly that when it is delivered, and no step makes it return anything else |
| `ControlPlaneSpawns.ChannelLostExactly` | hermytt-core/src/control.rs:146-203 | the same over all runs |
| `ControlPlaneSpawns.DroppedWasHit` | hermytt-core/src/control.rs:180-183 | a call that returns a dropped channel was hit so, and two calls had the same id |
| `SpawnCalls.ResultFinal` | hermytt-core/src/control.rs:178-188 | no step changes a returned result |
| `SpawnCalls.OkIsCorrelated` | hermytt-core/src/control.rs:192-196 | an Ok result is the payload of exactly one answer, with the call's id, which met the call |
| `SpawnCalls.PendingHasNotReturned` | hermytt-core/src/control.rs:172-188 | pending_spawns holds only ids of calls that have not returned |
| `SpawnCalls.RepeatedIdDrops` | hermytt-core/src/control.rs:180-183 | with a repeated id the first call ends with a dropped channel and takes the second one's entry with it |
| `SpawnCalls.LateWithdrawalDrops` | hermytt-core/src/control.rs:184-187 | from the empty state on: a call answered after its time was up, giving up, drops a new call under its id |
| `ControlLoopSteps.HandlerRefines` | hermytt-transport/src/control_ws.rs:91-198 | for every message, the loop's own protocol steps lead from what the objects held to what each handler of `ControlLoop` ensures it leaves, and the pending call gets that very answer |
| `ControlLoopSteps.OpeningRefines` | hermytt-transport/src/control_ws.rs:64-78 | the same for joining hub and registry, as the constructor of `ControlLoop` ensures it |
| `ControlLoopSteps.ClosingRefines` | hermytt-transport/src/control_ws.rs:218-220 | the same for leaving both, as `Close` ensures it |
| `ControlLoop.ControlLoop.constructor` | hermytt-transport/src/control_ws.rs:366-384 | the host is in the hub under this loop and in the registry, seen now; all other entries, pending calls and sessions are as before, and no shells were asked for |
| `ControlLoop.ControlLoop.Heartbeat` | hermytt-transport/src/control_ws.rs:92-111 | the hub keeps its entries, the registry sees the service connected now, and ListShells is due exactly at the first heartbeat |
| `ControlLoop.ControlLoop.Adopt` | hermytt-transport/src/control_ws.rs:114-133 | registers unless full or known, then takes the receiver if it is there; afterwards the session is in the table or the table is full |
| `ControlLoop.ControlLoop.SpawnOk` | hermytt-transport/src/control_ws.rs:112-136 | adopts the session and answers the call pending under the request id, whose entry goes |
| `ControlLoop.ControlLoop.SpawnErr` | hermytt-transport/src/control_ws.rs:137-140 | answers the call pending under the request id and changes no session |
| `ControlLoop.ControlLoop.ShellDied` | hermytt-transport/src/control_ws.rs:144-156 | removes the session, whoever registered it |
| `ControlLoop.ControlLoop.ShellsList` | hermytt-transport/src/control_ws.rs:171-197 | adopts the listed sessions that are not in the table, one after another |
| `ControlLoop.ControlLoop.Close` | hermytt-transport/src/control_ws.rs:519-521 | removes the name from hub and registry and nothing else |
| `ControlHub.ControlHub.Register` | hermytt-core/src/control.rs:114-122 | last writer wins, all other entries unchanged |
| `ControlHub.ControlHub.Unregister` | hermytt-core/src/control.rs:125-128 | removes the name and nothing else |
| `ControlHub.ControlHub.Heartbeat` | hermytt-core/src/control.rs:131-135 | changes metadata of a known host only; never who is connected |
| `ControlHub.ControlHub.Sender` | hermytt-core/src/control.rs:154-158 | the loop a name leads to, or none |
| `ControlHub.ControlHub.InsertPending` | hermytt-core/src/control.rs:160-162 | the entry is set, a replaced call is reported, and the protocol's insertion sets the same entry and takes that call's sender |
| `ControlHub.ControlHub.Withdraw` | hermytt-core/src/control.rs:172-187 | removes the id and nothing else, reports whose entry it was, and the protocol's giving up takes that call's sender |
| `ControlHub.ControlHub.HandleAnswer` | hermytt-core/src/control.rs:192-203 | finds the call pending under the id, if any, and removes that entry only |
| `SessionManager.Session.Start` | hermytt-core/src/session.rs:159-233 | a session starts at most once, and even a failed start uses up the receiver |
| `SessionManager.SessionManager.CreateSession` | hermytt-core/src/session.rs:290-304 | succeeds exactly with room and a PTY, inserts a started local session, else changes nothing |
| `SessionManager.SessionManager.RegisterSession` | hermytt-core/src/session.rs:308-355 | the limit comes before the id; on success a fresh managed session with its receiver, else no change |
| `SessionManager.SessionManager.UnregisterSession` | hermytt-core/src/session.rs:358-368 | returns and removes exactly the session under the id, or reports it missing |
| `SessionManager.SessionManager.TakeStdinRx` | hermytt-core/src/session.rs:376-380 | yields the receiver at most once and never for a local session |
| `SessionManager.SessionManager.DefaultSession` | hermytt-core/src/session.rs:410-417 | some existing session if there is one, unchanged table; else exactly one new one |
| `SessionManager.SessionManager.CollectDead` | hermytt-core/src/session.rs:419-427 | exactly the ids whose sessions are not alive |
| `SessionManager.SessionManager.RemoveDead` | hermytt-core/src/session.rs:429-437 | removes exactly these ids, as the protocol's second phase does, and counts them |
| `Registry.ServiceRegistry.Register` | hermytt-core/src/registry.rs:74-80 | the service is connected and seen at the instant given, which may be before the lock was free |
| `Registry.ServiceRegistry.Unregister` | hermytt-core/src/registry.rs:82-84 | removes the name and says whether it was there |
| `Registry.ServiceRegistry.Heartbeat` | hermytt-core/src/registry.rs:86-96 | refreshes a known service, never adds one |
| `Registry.ServiceRegistry.List` | hermytt-core/src/registry.rs:98-126 | afterwards a service counts as connected if and only if it was seen within the last thirty seconds |
| `LateJoin.RunSound` | hermytt-transport/src/rest.rs:567-583 | in every interleaving messages are pushed before they are sent, once each, and every client's record is exact |
| `LateJoin.NoGap` | hermytt-transport/src/rest.rs:575-600 | every well-formed message of a producer that pushes, once it is broadcast, was pushed before the client's snapshot, or is in its live stream, already received or next in line |
| `LateJoin.MadeOnce` | hermytt-core/src/session.rs:206-212 | over all runs, a message is to be pushed if and only if its producer pushes and its bytes are well-formed, and its bytes are that producer's |
| `LateJoin.RecordsStep` | hermytt-core/src/session.rs:206-212 | each message is pushed at most once and sent at most once, and one that is to be pushed is sent only after it was |
| `LateJoin.DisconnectedExactly` | hermytt-transport/src/rest.rs:584-604 | over all runs, a client is disconnected if and only if it left, fell more than 256 messages behind, or came to the exit sentinel |
| `LateJoin.CatchesUp` | hermytt-transport/src/rest.rs:584-600 | a connected client with its history, not too far behind, receives all that was broadcast since its subscription by receiving on |
| `LateJoin.HistoryHolds` | hermytt-transport/src/rest.rs:577-583 | a message pushed before the snapshot, none of whose lines was evicted or truncated, stands byte for byte in the history the client got |
| `LateJoin.OverlapExactly` | hermytt-core/src/session.rs:206-212 | a message is in the history part if and only if pushed by the snapshot, and in the live part if and only if sent, but not before the subscription |
| `LateJoin.CoversNow` | hermytt-transport/src/control_ws.rs:157-165 | whatever was broadcast and was to be pushed is in the scrollback already |
| `Scrollback.ScrollbackBuffer.Push` | hermytt-core/src/session.rs:95-108 | after any pushes the buffer is the most recent lines of the unbounded log of split, truncated lines |
| `Scrollback.ScrollbackBuffer.GetAll` | hermytt-core/src/session.rs:110-112 | returns the last lines of the whole log, up to the capacity; of well-formed pushes, well-formed lines of at most 4096 bytes |
| `Scrollback.ScrollbackBuffer.Len` | hermytt-core/src/session.rs:114-116 | the size of the log, cut at the capacity |
| `Scrollback.TruncateKeeps` | hermytt-core/src/session.rs:100-106 | a truncated line is a well-formed UTF-8 prefix of 4093 to 4096 bytes; shorter lines are kept |
| `Scrollback.LogWellFormed` | hermytt-core/src/session.rs:96-106 | splitting and truncating well-formed text leaves well-formed lines within the limit |
| `Scrollback.CapacityKept` | hermytt-core/src/session.rs:96-99 | the capacity is never exceeded if and only if it is at least one |
| `Scrollback.ZeroCapacityKeepsOne` | hermytt-core/src/session.rs:96-99 | with capacity zero a pushed line is kept |
| `Scrollback.HistoryComplete` | hermytt-core/src/session.rs:95-112 | with nothing evicted or truncated, the lines joined are the pushes joined |
| `Scrollback.RetainedInHistory` | hermytt-transport/src/rest.rs:578-580 | a push none of whose lines is evicted or truncated is a contiguous part of the history |
| `Utf8.BoundaryNear` | hermytt-core/src/session.rs:101-102 | in well-formed text the boundary below an index is at most three bytes away |
| `Utf8.ValidExactly` | hermytt-core/src/session.rs:206-207 | bytes are well-formed if and only if they are the encoding of some Unicode scalar values, section 3 of RFC 3629 |
| `Utf8.CutValid` | hermytt-core/src/session.rs:106-106 | well-formed text cut at a boundary is two well-formed texts |
| `Coalescer.BufferedOutput.Recv` | hermytt-core/src/buffer.rs:35-106 | at every await nothing is lost, duplicated or reordered; a chunk is the bytes of one new batch, which ended at the last wake-up; the end is reported only with nothing left over |
| `Coalescer.BufferedOutput.Turn` | hermytt-core/src/buffer.rs:57-105 | one pass of the loop, deadline first |
| `Coalescer.BufferedOutput.FlushBuf` | hermytt-core/src/buffer.rs:108-111 | hands out the buffer and clears buffer and deadline |
| `Coalescer.PollSound` | hermytt-core/src/buffer.rs:55-106 | returned batches are nonempty and, without their last message, below max_bytes; each was returned because it had reached max_bytes, its window was over, or the channel had closed, and for no other reason; a nonempty buffer has the deadline of its first nonempty message; nothing joins a batch after its deadline |
| `Coalescer.TurnExactly` | hermytt-core/src/buffer.rs:55-106 | exactly when a wake-up returns a chunk or the end and when the call waits on, and what it takes from the channel |
| `Coalescer.EverythingReturned` | hermytt-core/src/buffer.rs:35-106 | of a channel that closes, everything has been returned after at most two arriving wake-ups for each item and one more, and then the end is reported |
| `Coalescer.RunConserves` | hermytt-core/src/buffer.rs:35-106 | over any schedule of wake-ups returned batches, buffer and channel hold all messages in order, and at the end the buffer is empty |
| `Coalescer.PollReturns` | hermytt-core/src/buffer.rs:63-98 | exactly a returned chunk closes a batch, and it is that batch's bytes |
| `Coalescer.WaitsWithinWindow` | hermytt-core/src/buffer.rs:58-68 | while a call waits on a nonempty buffer, no wake-up has come at or after its deadline |
| `Coalescer.DeadlineIsFirst` | hermytt-core/src/buffer.rs:88-99 | whenever the buffer is nonempty, its deadline is the time of its first nonempty message plus the window, and all later messages came before it |
| `MqttForwarder.Forward` | hermytt-transport/src/mqtt_pty.rs:116-138 | publishes the batches in order up to the first that ends in the sentinel, is refused, or never comes, and says which; every publish before was taken; it waits only when it has used every wake-up; at a clean exit it withholds fewer than max_bytes ordinary bytes, none without a window |
| `MqttForwarder.ExitLoss` | hermytt-transport/src/mqtt_pty.rs:118-129 | at exit a prefix of the ordinary output was published and fewer than max_bytes bytes were withheld, none without a window |
| `MqttForwarder.PublishedIsPrefix` | hermytt-transport/src/mqtt_pty.rs:118-136 | the bytes published at any point are a prefix of all output, in order |
| `MqttForwarder.EndsWithMeans` | hermytt-transport/src/mqtt_pty.rs:118-122 | a chunk counts as the last one if and only if it is something followed by the sentinel |
| `MqttAttach.AttachLoop` | hermytt-transport/src/mqtt_pty.rs:90-149 | a session is attached if and only if it was found at some poll and listed at all polls since; a forwarder starts exactly when one is due |
| `MqttAttach.AttachOnce` | hermytt-transport/src/mqtt_pty.rs:93-146 | one poll starts exactly the missing forwarders, one each, and forgets exactly what is no longer listed |
| `MqttAttach.NeverTwice` | hermytt-transport/src/mqtt_pty.rs:95-97 | two forwarders for one id are separated by a poll that did not list it |
| `MqttAttach.AlwaysServed` | hermytt-transport/src/mqtt_pty.rs:144-146 | an attached id had a forwarder started at a poll since which it was always listed |
| `MqttAttach.ServedExactly` | hermytt-transport/src/mqtt_pty.rs:94-146 | the session object found under an id has a forwarder of its own if and only if it is the object found at the one poll at which the id's forwarder was started |
| `MqttAttach.ReplacedSessionIsMissed` | hermytt-transport/src/mqtt_pty.rs:94-104 | two polls between which a session is replaced under its id, and the new one has no forwarder |
| `SplitResponse.SplitResponse` | pyttch-bridge/src/status.rs:232-281 | the chunks are the text with only newlines removed, each of 1 to max characters with ink in it, at most 3*(length/(max-1))+2 of them; a short text gives at most one, and which |
| `SplitResponse.PackLines` | pyttch-bridge/src/status.rs:251-275 | the two inner loops, by lines and by characters |
| `SplitPieces.PacksGreedily` | pyttch-bridge/src/status.rs:232-281 | the three nested packings give the chunks of one greedy pass over the paragraphs that fit, else their lines that fit, else stretches of a line |
| `SplitPieces.CutsPrefer` | pyttch-bridge/src/status.rs:236-276 | the chunks are these pieces in order; a chunk ends only where the next piece would not fit or has to start one; a cut falls inside a paragraph only if that does not fit in a chunk, and inside a line only if that does not |
| `SplitPieces.NeighboursApart` | pyttch-bridge/src/status.rs:236-262 | two neighbours in one chunk belong to different paragraphs, or are different lines of one that does not fit |
| `SplitPieces.LaidNext` | pyttch-bridge/src/status.rs:238-258 | between two pieces in a chunk stands exactly one newline within a paragraph, a break between two, and nothing before the first text of the chunk |
| `SplitPieces.StretchesWhole` | pyttch-bridge/src/status.rs:263-275 | a line that does not fit is cut into stretches of exactly max characters, but for the last |
| `SplitResponse.ChunksDeleteOnlyNewlines` | pyttch-bridge/src/status.rs:232-281 | nothing reordered, inserted or lost but newlines |
| `SplitResponse.ChunksSized` | pyttch-bridge/src/status.rs:230-281 | no chunk is longer than max, none is only newlines |
| `SplitResponse.ThreeChunks` | pyttch-bridge/src/status.rs:236-276 | any three chunks in a row hold at least max-1 characters |
| `SplitResponse.ChunkCount` | pyttch-bridge/src/status.rs:232-281 | the number of chunks is bounded by the length of the text |
| `SplitResponse.ShortText` | pyttch-bridge/src/status.rs:236-243 | a text within the limit gives at most one chunk: leading breaks dropped, an odd trailing run of newlines made even |
| `SplitResponse.SentUnchanged` | pyttch-bridge/src/status.rs:236-243 | exactly when a text within the limit is sent as it is |
| `SplitResponse.ShortTextChanged` | pyttch-bridge/src/status.rs:236-243 | two texts within the limit that are not sent as they are |
| `SplitResponse.ZeroLimitOverflows` | pyttch-bridge/src/status.rs:265-273 | with a limit of zero a chunk is longer than the limit |
| `SplitResponse.LimitKept` | pyttch-bridge/src/status.rs:230-281 | every chunk of every text is within the limit if and only if the limit is at least one |
| `Progress.StatusHandle.OnToolUse` | pyttch-bridge/src/status.rs:170-177 | finished and running tools are together all announced tools, in order |
| `Progress.StatusHandle.OnToolResult` | pyttch-bridge/src/status.rs:179-184 | the running tool moves to the finished ones and none is lost |
| `Progress.StatusHandle.Render` | pyttch-bridge/src/status.rs:43-95 | unless minimal, the text ends by naming the running tool; between two tools it starts with a tick; with one tool shown it is the running or last finished one, by name alone or with the first 60 characters of its argument; as a list it is the lines of the last twenty finished tools and the running one, in order, and only a finished last line loses white space at its end; it fits in a message while names have at most 134 characters |
| `Progress.ProgressiveLines` | pyttch-bridge/src/status.rs:70-95 | the list that is built up and then trimmed is exactly these lines, joined |
| `Progress.LastLineNames` | pyttch-bridge/src/status.rs:74-94 | what the trim leaves of the last line still names the tool, but for white space at the end of a name without an argument |
| `Progress.Clip` | pyttch-bridge/src/status.rs:98-101 | short texts are kept; long ones become their first characters and an ellipsis |
| `Progress.StatusFitsExactly` | pyttch-bridge/src/status.rs:70-93 | no status exceeds the Telegram limit if and only if tool names have at most 134 characters |
| `Progress.ShowsWhatWasDone` | pyttch-bridge/src/status.rs:44-47 | between two tools the text is "thinking" only if minimal or before the first tool finished; else it starts with a tick |
| `PercentEncoding.DecodeUrlEncode` | pyttch-bridge/src/bot.rs:511-518 | decoding restores every byte string |
| `PercentEncoding.UrlEncodeAlphabet` | pyttch-bridge/src/bot.rs:514-515 | only unreserved characters and upper-case %XX, sections 2.1 and 2.3 of RFC 3986; never a slash |
| `PercentEncoding.UnreservedListed` | pyttch-bridge/src/bot.rs:514-515 | which bytes stay as they are, one by one, section 2.3 of RFC 3986 |
| `PercentEncoding.CancelPathRecovers` | pyttch-bridge/src/bot.rs:154-160 | splitting the cancel path and decoding recovers exactly the three names |
| `PercentEncoding.CancelUrlRecovers` | pyttch-bridge/src/bot.rs:154-160 | behind any base address, with or without trailing slashes, the nine parts of the path come last |
| `PercentEncoding.TrimEndSlashes` | pyttch-bridge/src/bot.rs:154-160 | only slashes at the end are removed, and all of them |
| `EventStream.BlockReader.Read` | hermytt-web/src-ts/chat.ts:734-764 | after any read, the events dispatched are those of all text so far and the buffer is what follows its last break |
| `EventStream.Drain` | hermytt-web/src-ts/chat.ts:738-763 | the inner loop cuts off exactly the complete blocks |
| `EventStream.DispatchBlock` | hermytt-web/src-ts/chat.ts:741-749 | at most one event, named by the block's last event line, trimmed, with the values of its data lines on lines of their own, less one space each and leading empty ones; none without data or if the data does not parse |
| `EventStream.Leftover` | hermytt-web/src-ts/chat.ts:739-740 | the buffer never holds a break after the inner loop |
| `EventStream.ChunkIndependence` | hermytt-web/src-ts/chat.ts:733-764 | however the text is cut into reads, even inside a break, events and leftover are those of the whole text |
| `EventStream.ForwardStreaming` | pyttch-bridge/src/bot.rs:389-417 | for any stream, only the last event dispatched can be a done or error, and success means that it is |
| `EventStreamAgreement.BlockAgrees` | pyttch-bridge/src/bot.rs:397-411 | on a plain block both readers dispatch the same event, or none, and the bridge keeps no name that shows |
| `Trimming.TrimsAgree` | pyttch-bridge/src/bot.rs:406-407 | both languages trim a name alike if and only if neither end, behind white space on which they agree, is U+0085 or U+FEFF |
| `Trimming.SpacesListed` | pyttch-bridge/src/bot.rs:406-407 | which characters each language trims, one by one |
| `EventStreamAgreement.SameData` | pyttch-bridge/src/bot.rs:408-410 | both readers gather the same data if and only if no data line starts with two spaces |
| `EventStreamAgreement.StopsAt` | pyttch-bridge/src/bot.rs:395-417 | the bridge stops at an event if and only if it is called done or error; after any other it goes on with what follows |
| `EventStreamAgreement.CrlfSame` | pyttch-bridge/src/bot.rs:395-397 | the bridge reads a stream with CRLF line ends as the one with LF |
| `EventStreamAgreement.CrlfUnseen` | hermytt-web/src-ts/chat.ts:738-740 | with CRLF line ends the browser dispatches nothing |
| `EventStreamAgreement.PlainExactly` | hermytt-web/src-ts/chat.ts:739-762 | both readers agree on a block, whatever plain text follows and whichever data parses, if and only if the block is plain |
| `EventStreamAgreement.OddName` | pyttch-bridge/src/bot.rs:406-407 | a stream on which only the bridge sees a done event |
| `EventStreamAgreement.OtherOddName` | hermytt-web/src-ts/chat.ts:744-744 | a stream on which only the browser sees a done event |
| `EventStreamAgreement.KeptName` | pyttch-bridge/src/bot.rs:397-402 | a stream on which the bridge takes the name of a block without data for the next one |
| `EventStreamAgreement.TwoSpaces` | pyttch-bridge/src/bot.rs:408-410 | a stream whose data the browser dispatches with a leading space and the bridge with none |
| `EventStreamAgreement.ReadersAgree` | pyttch-bridge/src/bot.rs:395-417 | on plain LF-only streams the bridge's events are the browser's up to the first final one, and it succeeds if and only if there is one |

## Left out

- Sockets, PTYs, processes, HTTP routing, TLS, the MQTT client, files and clocks: they appear as steps that may happen at any time, as parameters, or not at all.
- JSON: whether data parses is a parameter shared by both stream readers; payload fields, `final_response` and the browser's `partial` message are not modelled, nor a payload of `null`, on which the browser throws.
- Base64 in Input and Data messages: raw bytes are carried instead.
- Authentication, pairing, recording, exec, resizing, pasted images, session names, users, configuration, the admin panel, chat rendering and `terminal.ts`.
- Two parts of the control loops: the metadata of heartbeats in the protocol (the classes have it), and the sends of ListShells, whose time on the socket is not a step.
- Output inside the control plane: Data messages and exit sentinels touch scrollback and broadcast only, so `LateJoin` has them and `ControlPlane` does not.
- Event loops that wait on several channels (`handle_ws_socket`, `handle_internal_pipe`, forwarders, `spawn`) are transition systems rather than loops, since another task can run at each await; what one undisturbed message does is a method in `ControlLoop`.
- Starting a PTY happens under the table's write lock and is one step of the protocol; a failed start appears in `SessionManager` only.
- Deadlock freedom and progress: `send_to` waits for queue room while it holds the hub lock.
- That a reconnected host stays in the hub, and that a session regains stdin after its forwarder broke: the code does neither (`ReconnectedHostDropsOut`, `StdinLostForGood`).
- Uniqueness of generated ids: not a fact of the model; where it matters the exact condition is stated instead.
- The ten seconds of a spawn timeout: the timer may fire at any time while no answer has arrived.
- SessionManager.SessionManager.DefaultSession: does not model another task between its two locks, because the method form has none; two callers can each create a session there.
- The broadcast channel between `LateJoin` and `Coalescer`: each has its own view of it; lag disconnects a WebSocket client and is skipped by the batching buffer.
- Decoding of network bytes into text, for both stream readers, and `lines()` errors on malformed UTF-8.
- The updater thread, debouncing, `finalize`, the truncating `send_reply`, and `Verbosity::parse`.
- Cancellation and panics: only calls and loops that run to completion.
