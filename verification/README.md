# Door control: a verified model

A door module drives a bolt with a stepper motor, watches the door with a distance sensor and
talks UDP. A hub tracks up to eight modules, routes commands to them and answers back. A Node
bridge numbers the commands of web clients and passes the answers on. This project models those
programs in Dafny and proves what they promise together.

`dafny verify dfyconfig.toml` checks everything.

## How it is built

Where the original updates state in place, a class does, and each method equates the new state with
a function of the old one; the lemmas are about those functions and about all runs made of them.

| file | what it holds |
|---|---|
| `Prelude`, `Wire` | addresses, clipped C strings, ledgers; tokens, numbers, the five lines and the state sub-syntax |
| `HubModel`, `Hub`, `HistoryRing` | the hub's four tables: specification, and the classes proved against it |
| `HubTables`, `HubLog`, `HubRuns` | one step of the tables; what the history says; every run of received datagrams and liveness checks |
| `DoorReport`, `Replica`, `Ports`, `Sensors`, `Timing` | `door_udp_update`; agreement of the hub's replica, line by line and over two ports; from the sensor to the hub's record; the heartbeat bound, which is exact |
| `Stepper`, `DoorModule`, `BoltEvents` | the motor; lock, unlock and status; sampling during a movement |
| `Fifo`, `LedQueue`, `WebhookQueue` | the two concurrent queues |
| `Bridge` | the Node bridge: ids, `pending`, timers, outstanding sends |
| `Orders`, `HubSend`, `System` | commands as text; the hub's own calls; the whole as one transition system |
| `Provenance`, `Routes` | what an answer or an acknowledgement proves; who can be answered by whom |
| `SystemParts`, `Calls`, `Gap`, `BridgePort`, `Stations` | system runs seen as hub runs, bridge runs and call loops; steps divided at the unlock; the bridge object in the system; the system with its modules in it |
| `Staging`, `Mixups` | building blocks of runs; exactly which commands can be mixed up, and which calls can succeed |

In `System` the network is a set of datagrams that only grows: each may be delivered to its
destination never, once or many times, in any order. Any text that is neither a COMMAND nor a
FEEDBACK may appear in it at any time from anywhere. A step is one block executed under a mutex, or
one callback of the bridge. `handle_line` gives the mutex up around `sendto`
(`hal/src/hub_udp.c:473-481`, `:498-500`) and is still one step there; `Gap` splits it at that point
and shows that what other threads do in the gap makes no difference.

## What turned out not to hold

- Provenance and acknowledgement need ids from one source. Bridge and hub both count from 1, so an
  answer can be about the other one's command (`Mixups.MisledIff` says when); and a call can be
  acknowledged by the FEEDBACK of a command of the bridge or of a later, overlapping call
  (`Mixups.StaleAckIff` says when).
- A STATUS call of the hub is not acknowledged by its own handling, because the reply is
  `STATUS_<state>`, and neither are targets or actions with blanks or of more than 31 characters
  (`Provenance.OwnFeedbackAcks`, `Mixups.AckIff`).
- `hub_udp_get_history` returns the oldest retained entries, not the most recent as its header says
  (`HistoryRing.NewestIffWholeWindow`).
- A door-info request can be answered twice (`Bridge.AnsweredOnceIff`).
- Module ids of more than 15 characters are stored clipped and never found again
  (`HubTables.TrackedIffIdFits`, `HubTables.RouteLearnedIffIdFits`, `HubRuns.AlternationIffIdFits`).
- Command id 0 doubles as the free mark (`HubTables.ZeroIdIsRelayedAgain`).
- LOCK is answered LOCK also when the door was seen open and the bolt stayed where it was
  (`Stations.AnswersAreTrue`).
- After a rotation has failed, lock, unlock and status can all assign a state that is false of the
  bolt (`DoorModule.CallTruthIff` says when).
- A webhook message whose sender saw the service running can be accepted and then discarded
  (`WebhookQueue.DeliveredIffWorkerThere` says when).
- Events and heartbeats go to two ports, and the hub may take an event before an older heartbeat; the
  record is then wrong until the next heartbeat (`Ports.EventOvertakesHeartbeat`). Agreement in
  every order holds exactly when the last heartbeat is up to date (`Ports.AgreementIff`).
- A webhook service started anew inside a shutdown loses messages (`WebhookQueue.DiscardIffRestarted`).
- EVENT lines alone leave the hub's `d0_locked` and `d1_open` stale until the next HEARTBEAT
  (`Replica.ReportKeepsAgreement`).

## Model

| member | source | states |
|---|---|---|
| `Provenance.AnswerProvenance` | gui/lib/door_server.js:54-80 | End-to-end provenance, over every run with loss, duplication and reordering, for requests with any target and action text: a client that gets a direct answer for id c (and the hub has not itself used c for that module and target) learns that its own command c was handled, after it was sent, by the module it addressed, with the target and action the module saw in it, and that the answer shows that handler's reply or as much of it as fits |
| `Provenance.WholeRequestProvenance` | gui/lib/door_server.js:54-80 | For a request of words that fits, the handled target and action are the very ones the client sent and the whole reply is shown |
| `Mixups.OnlyTheBridge` | gui/lib/door_server.js:19 | If the hub makes no calls of its own, no answer can be about a command of the hub, so the condition of both theorems always holds |
| `Mixups.PlainAnswerHappens` | gui/lib/door_server.js:54-80 | Every request of words that fits, with any id, is answered in some run that meets all these conditions |
| `Provenance.AnswersComeFromHandlers` | app/src/door_udp_handler.c:41-45 | With no condition on who issues ids: every direct answer shows the reply of a handler of the named module to some command with that id and target, which was issued before it was handled |
| `Provenance.AckIsSound` | hal/src/hub_udp.c:796-817 | A true result of `hub_udp_send_command` means that module handled this very command (id, target, action) after the call began, when no other command issued so far could satisfy the `>=` test and the two text comparisons: then the test is an equality |
| `Provenance.SerialAcksAreSound` | hal/src/hub_udp.c:739-826 | If the hub is the only source of ids and calls follow one another, every true result in every run is sound in that sense |
| `Provenance.AckLimits` | hal/src/hub_udp.c:805-808 | Every acknowledged call has a target and an action that are words of at most 31 characters; a STATUS call also needs a target of exactly 31, because only a foreign FEEDBACK cut short behind an overlong target can pass for STATUS |
| `Provenance.OwnFeedbackAcks` | hal/src/hub_udp.c:803-817 | When the record of a waiting call holds the FEEDBACK of the call's own command, the call succeeds if and only if its action is not STATUS and target and action are words of at most 31 characters |
| `Mixups.AckIff` | hal/src/hub_udp.c:739-826 | Some run acknowledges a call by its own handling if and only if that condition on its action and target holds |
| `Calls.CallsAreLoops` | hal/src/hub_udp.c:770-821 | Every call that ended in a system run ended as the loop of `SendCommand` does on what its passes met in that run: same result, passes and datagrams |
| `Provenance.RetryLoopEnds` | hal/src/hub_udp.c:770-821 | At most three datagrams leave per call, and every send and every expired wait strictly shortens what is left of it |
| `System.InvAlways` | hal/src/hub_udp.c:359-507 | In every reachable state: each text in the network is a command that was issued, the FEEDBACK of one that was handled, or neither kind; the hub's acknowledgement fields come from a handled command of that module; pending clients asked for their id; running calls point at a record of their module; both sides number upwards from 1 |
| `Provenance.RelayIsIdentity` | hal/src/hub_udp.c:468-471 | Printing, parsing and re-printing is the identity: whatever the hub relays or forwards is character for character what it received |
| `System.AcknowledgedIsEchoed` | hal/src/hub_udp.c:804-810 | A record that satisfies the acknowledgement test was last written by an echo from its own module |
| `Gap.GapsMakeNoDifference` | hal/src/hub_udp.c:473-500 | With the handling of a datagram split where the mutex is given up, and every other part acting in the gap: tables, calls, bridge and trace are those of a run with undivided steps |
| `Gap.WholeIsBothHalves` | hal/src/hub_udp.c:473-500 | An undivided step is the two halves with nothing in between |
| `SystemParts.HubRunsOnItsOwn` | hal/src/hub_udp.c:510-575 | The hub tables of any system run are those of a hub run on the datagrams it received, so every theorem on hub runs holds end to end |
| `SystemParts.BridgeRunsOnItsOwn` | gui/lib/door_server.js:41-212 | Likewise for the bridge, and the trace shows exactly the feedback that run gives |
| `SystemParts.FeedbackAtMostOnce` | gui/lib/door_server.js:65-80 | Two direct feedback answers in one run never have the same id, however often datagrams are duplicated or resent |
| `Routes.AnswersNameTheAddressedModule` | hal/src/hub_udp.c:149-163 | In every run a client is only ever answered by the module it addressed under that id: the hub keeps commands apart by module and id although the bridge looks up the id alone |
| `Mixups.MisledIff` | gui/lib/door_server.js:19 | What provenance costs when the hub also issues commands from 1 upwards: a client asking for `o` can be answered about the hub's command `x` instead of its own if and only if `o` and `x` have the same id and module, both are read as complete commands, and the FEEDBACK for `x` has room for a reply |
| `Mixups.StaleAckIff` | hal/src/hub_udp.c:796-810 | A call for `x` can be acknowledged without its own handling, with `o` alone to blame, if and only if `o` could echo `x` (id not smaller, same module, same target and a reply equal to the action after cutting to 31 characters), for a command of the bridge; and if and only if `o` is also later than `x`, for a command of the hub. These are exactly the commands `AckIsSound` excludes |
| `HubSend.SendCommand` | hal/src/hub_udp.c:739-826 | The call as a loop: refused without sending or using up an id when the module is unknown or was never heard; otherwise one id, at most three passes, every datagram the same line to the address read at the start, success exactly at the first pass whose record acknowledges it |
| `Orders.CommandThread` | hal/src/door_udp.c:92-143 | The door's receive loop calls the handler once for every complete COMMAND addressed to it, in order of arrival, and for nothing else |
| `Orders.CommandsOneByOne` | hal/src/door_udp.c:92-143 | Each datagram counts for itself: the calls for two batches are those for the first and then those for the second |
| `Orders.DoorReads` | hal/src/door_udp.c:116-140 | Whatever is cut off a COMMAND on its way, the addressed module sees the same thing in it, with the id and module sent and three sound words, and no other module sees anything |
| `Orders.SeenWholeIff` | hal/src/door_udp.c:116-140 | A request is seen as it was meant if and only if its target and action are words without NUL that fit the 256-byte buffer |
| `Orders.FeedbackRead` | gui/lib/door_server.js:54-58 | Hub and bridge recover id, module, target and as much of the reply as fits from a FEEDBACK, and nothing when no part of the reply fits |
| `Orders.FeedbackReprint` | hal/src/hub_udp.c:468-471 | The hub's print of what it read in a FEEDBACK is that FEEDBACK again, also when it had been cut |
| `Orders.FeedbackFits` | hal/src/door_udp.c:60-67 | A COMMAND of words within 245 characters is seen as it was sent, and any handler reply to it is shown in full |
| `Orders.EchoFits` | hal/src/door_udp.c:60-67 | For an action other than STATUS the reply is shown in full if and only if the COMMAND line itself fits 255 characters |
| `Bridge.Bridge.SendCommand` | gui/lib/door_server.js:175-213 | Takes the next id, prints the line with the defaults D1 and D0, and leaves only the send outstanding |
| `Bridge.Bridge.OnSendCommand` | gui/lib/door_server.js:222-228 | The web socket's handler, which adds STATUS for a missing action |
| `BridgePort.Ask` | gui/lib/door_server.js:175-213 | As a part of the system: the datagram carries the command the client asked for, with D1 or D0 for a missing module or target, under the next id; it is the one the system puts into the network, and exactly the module named finds the command in it |
| `BridgePort.AskFromWeb` | gui/lib/door_server.js:222-228 | Likewise for a web client's request |
| `BridgePort.AskInfo` | gui/lib/door_server.js:240-304 | Likewise for a door-info request, which is STATUS for D0 |
| `BridgePort.Hears` | gui/lib/door_server.js:41-83 | A received datagram makes the system's step, and the answer given is the one observed there |
| `BridgePort.SendEnds` | gui/lib/door_server.js:185-212 | The send callbacks make the system's step |
| `BridgePort.TimerEnds` | gui/lib/door_server.js:196-208 | So does a timer |
| `Bridge.Bridge.GetDoorInfo` | gui/lib/door_server.js:240-304 | Registers the waiting callback and its timer before the datagram is sent; a module name without a leading D gets one |
| `Bridge.Bridge.OnSendDone` | gui/lib/door_server.js:185-212 | A failed send answers the requester with an error; a successful one starts the wait of a requester, if there is one; a late door-info error cancels and answers |
| `Bridge.Bridge.OnMessage` | gui/lib/door_server.js:41-83 | Only a complete FEEDBACK with a numeric pending id answers; its entry and timer go, nothing else changes |
| `Bridge.Bridge.OnTimer` | gui/lib/door_server.js:196-208 | A timer that fires forgets its own command and answers its requester with a timeout |
| `Bridge.TimersMatchPending` | gui/lib/door_server.js:196-211 | After every event of every run the live timers and the `pending` entries name each other one to one |
| `Bridge.IdsCountUp` | gui/lib/door_server.js:181 | No id is ever reused: the n-th command of a run has id n |
| `Bridge.AnsweredOnceIff` | gui/lib/door_server.js:297-303 | A command is answered at most once (feedback, error or timeout, never two of them) if and only if no send error of its door-info datagram is reported after it was answered; never more than twice |
| `Bridge.FeedbackAtMostOnce` | gui/lib/door_server.js:65-80 | Without any condition, no command is answered with feedback twice |
| `Bridge.LateErrorAnswersTwice` | gui/lib/door_server.js:249-303 | The second answer does happen: a timeout, then the late error of the same datagram |
| `Bridge.AnswersGoToTheRequester` | gui/lib/door_server.js:67-75 | Every answer of every run goes to the client that issued its id |
| `Bridge.WhatAnswersSay` | gui/lib/door_server.js:56-80 | Every answer has its cause: an error only a failed send, a timeout only its own timer, feedback only a FEEDBACK line, of which it shows module, target and everything behind the target |
| `Bridge.UnansweredIffOutstanding` | gui/lib/door_server.js:194-211 | A requester is without an answer exactly while its datagram or its timer is outstanding |
| `Wire.LineRoundTrip` | hal/src/hub_udp.c:353-356 | Splitting a printed line gives back the printed pieces if and only if every piece is non-empty and free of delimiters, for the C and for the JavaScript delimiters |
| `Wire.TokensAreWords` | hal/src/hub_udp.c:353-356 | Whatever arrives, every token is non-empty and free of delimiters |
| `Wire.NumberRoundTrip` | hal/src/hub_udp.c:451 | `%d` (or a template literal) read back by `atoi` and by `parseInt` gives the number printed |
| `Wire.CommandRoundTrip` | gui/lib/door_server.js:182 | COMMAND is recovered by every receiver if and only if its three texts are words |
| `Wire.FeedbackRoundTrip` | hal/src/door_udp.c:64 | FEEDBACK likewise, at the hub and at the bridge |
| `Wire.EventRoundTrip` | hal/src/door_udp.c:348-361 | EVENT likewise |
| `Wire.HelloRoundTrip` | hal/src/door_udp.c:282-287 | HELLO likewise |
| `Wire.HeartbeatRoundTrip` | hal/src/door_udp.c:333-339 | HEARTBEAT likewise, whatever the two states are |
| `Wire.ParseTwoStates` | hal/src/hub_udp.c:182-217 | On `channel=first,second` the two halves are read independently and an unknown word leaves its flag alone |
| `Wire.ParseOneState` | hal/src/hub_udp.c:187-225 | Without a comma the single word sets door or lock, whichever it names; without `=` both flags stay |
| `Wire.StateTokenRoundTrip` | hal/src/hub_udp.c:182-226 | A printed `D0=OPEN,LOCKED` token overwrites whatever the hub held with exactly the state printed |
| `Hub.Hub.Receive` | hal/src/hub_udp.c:347-508 | `handle_line` over the mutable tables: new tables, history and datagrams are those of the specification about which the run theorems are proved |
| `Hub.Hub.HandleTracked` | hal/src/hub_udp.c:382-505 | The part behind the record lookup: the four branches, each changing its own tables |
| `Hub.Hub.CheckOfflineModules` | hal/src/hub_udp.c:303-343 | `check_offline_modules`, record by record in the array, likewise |
| `Hub.Hub.GetStatus` | hal/src/hub_udp.c:699-716 | A copy of the one record of that module, or nothing; no table changes |
| `Hub.Hub.GetHistory` | hal/src/hub_udp.c:718-735 | What the reader gets out of the ring, as a window of the whole append log |
| `Hub.DoorTable.FindOrCreate` | hal/src/hub_udp.c:102-120 | The slot of the module, or the first free slot newly claimed, or -1 with nothing changed |
| `Hub.EndpointTable.Update` | hal/src/hub_udp.c:240-264 | Overwrites the address of a listed module, appends a new one while there is room, otherwise nothing |
| `Hub.PendingTable.RegisterCommand` | hal/src/hub_udp.c:124-146 | One scan finds the first free slot or, failing that, the first of the oldest entries |
| `Hub.PendingTable.GetAndClear` | hal/src/hub_udp.c:149-163 | Returns the client of the first match and frees just that slot |
| `HistoryRing.Ring.Add` | hal/src/hub_udp.c:167-178 | Appending to the ring appends to the log; the ring holds the last 256 entries |
| `HistoryRing.Ring.Get` | hal/src/hub_udp.c:718-735 | Returns the first `max` of the retained entries, oldest first |
| `HistoryRing.WholeWindow` | hal/src/hub_udp.c:718-735 | With a large enough `max` the reader gets the last min(256, total) entries in order |
| `HistoryRing.NewestIffWholeWindow` | hal/include/hal/hub_udp.h:64-66 | The header promises the most recent entries: the stretch of the log that is returned begins at the oldest retained entry and reaches the newest if and only if the caller asks for at least as many as are retained |
| `HubModel.OldestPending` | hal/src/hub_udp.c:127-139 | The entry evicted has the smallest issue time, and is the first such |
| `HubModel.LineKeepsHubOk` | hal/src/hub_udp.c:347-508 | Every line keeps table sizes and the bounds on stored ids |
| `HubModel.DoorAfterKeeps` | hal/src/hub_udp.c:386-505 | A line leaves a record's owner, address and offline flag alone; only a HEARTBEAT moves the heartbeat time; only a complete FEEDBACK moves the acknowledgement fields |
| `HubTables.LineTouchesOneDoor` | hal/src/hub_udp.c:367-380 | Read as a map from module ids to records, the array changes at the module named and nowhere else |
| `HubTables.WhatLinesStore` | hal/src/hub_udp.c:446-505 | What the record of a tracked module holds after a line that carries no door state: the acknowledgement fields of a FEEDBACK, nothing of a COMMAND, the time of anything else |
| `HubTables.SlotsKeepOwners` | hal/src/hub_udp.c:102-120 | A used slot keeps its owner whatever arrives |
| `HubTables.TrackedIffIdFits` | hal/src/hub_udp.c:113-114 | With room left, the hub finds a module's record again if and only if its id has at most 15 characters |
| `HubTables.LongIdLeaksASlot` | hal/src/hub_udp.c:110-117 | A module with a longer id uses up one more of the eight records with each line |
| `HubTables.LearnOneRoute` | hal/src/hub_udp.c:240-259 | Learning a route changes that module's route and no other |
| `HubTables.RouteLearnedIffIdFits` | hal/src/hub_udp.c:252-258 | With room left, the learned route is found again if and only if the id fits |
| `HubTables.RegisterConserves` | hal/src/hub_udp.c:124-146 | A registration adds itself and removes at most the evicted one |
| `HubTables.EvictsOnlyWhenFull` | hal/src/hub_udp.c:130-139 | Something is evicted if and only if all 128 slots are live, and then the longest waiting |
| `HubTables.RelayConsumes` | hal/src/hub_udp.c:465-480 | For a nonzero id, a FEEDBACK is relayed if and only if it consumes a registration of that module and id, to the client stored in it |
| `HubTables.RelayUsesUpIffNonzero` | hal/src/hub_udp.c:152-160 | A relay uses up a live registration if and only if the id is not 0 |
| `HubTables.ZeroIdIsRelayedAgain` | hal/src/hub_udp.c:153-160 | Id 0 is also the free mark: after any relay, a FEEDBACK 0 of that module goes to a client whose registration is gone |
| `HubRuns.RegistrationsConserved` | hal/src/hub_udp.c:124-163 | In every run the nonzero registrations split exactly into relayed, evicted and still pending; none is relayed twice |
| `HubRuns.RelaysGoToTheRegisteredClient` | hal/src/hub_udp.c:465-480 | In a run, a FEEDBACK with a nonzero id leaves the hub if and only if it consumes one registration, and then it goes to that one's client |
| `HubRuns.OneRecordPerModule` | hal/src/hub_udp.c:102-120 | With ids that fit, every reachable table has at most one record per module |
| `HubRuns.RecordPointersStayGood` | hal/src/hub_udp.c:747-812 | A record pointer kept across unlocked waits belongs to the same module for the rest of the run |
| `HubRuns.RoutingTablesAgree` | hal/src/hub_udp.c:361-380 | In every run with ids that fit, `last_addr` and the endpoint both are the source of the module's latest non-COMMAND line, wherever both exist |
| `HubRuns.CommandsTeachNoRoute` | hal/src/hub_udp.c:374-380 | No COMMAND changes where the hub thinks any module is |
| `HubRuns.OfflineAndOnlineAlternate` | hal/src/hub_udp.c:303-343 | In every run with ids that fit, the entries of each module whose tokens say SYSTEM OFFLINE or SYSTEM ONLINE alternate, OFFLINE first, and the flag tells which came last |
| `HubRuns.OnlineNeedsAHeartbeat` | hal/src/hub_udp.c:386-401 | Between a check that adds an OFFLINE entry and a later one that adds ONLINE the hub handled a HEARTBEAT of that module |
| `HubRuns.AlternationIffIdFits` | hal/src/hub_udp.c:303-343 | All runs in which a single module speaks alternate if and only if its id fits |
| `HubRuns.CommandsGoToTheLatestSource` | hal/src/hub_udp.c:486-505 | In every run with ids that fit, a complete COMMAND leaves unchanged for the source of its module's latest line or not at all, and it leaves unless the module was never heard or a table is full |
| `HubRuns.KnownIdsAreWords` | hal/src/hub_udp.c:102-120 | In every run the id of every record is a word |
| `HubLog.WhatChecksLog` | hal/src/hub_udp.c:319-340 | For a record whose id is a word: the entry a check adds splits into id, EVENT, SYSTEM, OFFLINE when an online module was unheard for more than 10000 ms, into id, EVENT, SYSTEM, ONLINE when an offline one was heard again, and there is none otherwise |
| `HubLog.WhatChecksChange` | hal/src/hub_udp.c:311-341 | After a check the flag of a used record says whether it was unheard for more than 10000 ms; the time is noted on going offline; nothing else changes |
| `HubLog.LinesAddNoLiveness` | hal/src/hub_udp.c:382-384 | No received line can forge an OFFLINE or ONLINE entry: what it leaves in the history has other tokens |
| `HubLog.WhatLinesLog` | hal/src/hub_udp.c:382-384 | The tokens, the time and the module of the entries a line leaves: its first two tokens, and for a complete FEEDBACK also its id, target and action, in this order |
| `DoorReport.DoorUdp.DoorUdpUpdate` | hal/src/door_udp.c:309-387 | The update over the `g_prev_*` variables: what is sent, in order, and what is remembered |
| `DoorReport.DoorUdp.AnnounceChanges` | hal/src/door_udp.c:346-363 | One EVENT per changed reported state, D0 before D1 |
| `DoorReport.DoorUdp.Close` | hal/src/door_udp.c:389-404 | Afterwards nothing is sent, and the next update after a new start counts as the first |
| `Replica.HeartbeatRestoresAgreement` | hal/src/hub_udp.c:386-409 | Whatever was lost before, a delivered HEARTBEAT makes all four states of the record those it reports, unless the full table has no record for the module |
| `Replica.DoorEvent` | hal/src/hub_udp.c:409-445 | A delivered EVENT about the door of D0 or D1 sets that one state to what it names, and the address and time |
| `Replica.LockEvent` | hal/src/hub_udp.c:409-445 | Likewise for the lock of D0 or D1 |
| `Replica.ReportKeepsAgreement` | hal/src/door_udp.c:345-387 | After a report delivered in order the hub still agrees on door and bolt; the other two states agree if and only if a heartbeat was due or nothing changed |
| `Replica.FirstReport` | hal/src/door_udp.c:317-343 | After the first report the record is right if and only if heartbeats are on or it was right already |
| `Ports.HubFollowsTheModule` | hal/src/door_udp.c:340-380 | With two ports, each in order and nothing lost, and no event overtaking an older heartbeat: in every run of reports, deliveries, other traffic and checks, the record equals the module's saved state whenever no event is waiting, however heartbeats overtake events |
| `Sensors.HubShowsTheDoor` | app/src/doorMod.c:93-104 | From sensor to hub, in every such run: when no event waits, the record says open if and only if the last reading was 10 cm or more, and locked if and only if the bolt was sampled on half-steps 2048 to 2059 |
| `Sensors.CallShowsTheDoor` | app/src/doorMod.c:210-331 | The same after a lock, unlock or status call whose report is delivered, for the bolt as the call left it; a failed reading sends nothing |
| `Sensors.HeartbeatShowsTheDoor` | app/src/doorMod.c:93-104 | The same after any delivered heartbeat, whatever was lost before |
| `Ports.AgreementIff` | hal/src/hub_udp.c:534-575 | With the two ports taken in any order: for a tracked module and any history of reports, every order ends in agreement if and only if the last heartbeat sent says what the module has saved (or none was sent) |
| `Ports.EventOvertakesHeartbeat` | hal/src/hub_udp.c:534-575 | The failing case, with nothing lost: a heartbeat that is due, a lock change a millisecond later, and a hub that takes the event before the older heartbeat ends with a wrong record |
| `Replica.ReportLinesFit` | hal/src/door_udp.c:333-361 | The lines of a report fit every buffer between module and hub |
| `Timing.HeartbeatSpacing` | hal/src/door_udp.c:366-379 | Heartbeats leave at least one period and at most period + gap - 1 ms apart |
| `Timing.BeatsAreSent` | hal/src/door_udp.c:333-343 | The heartbeats counted there are those in the lines of an update |
| `Timing.NoFalseOffline` | hal/src/hub_udp.c:303-343 | When period + gap - 1 + delay is at most 10000 ms, no check of any timely run marks the module offline once a heartbeat of it was handled |
| `Timing.FalseAlarmIffBoundExceeded` | hal/src/hub_udp.c:311-319 | The bound is exact: a timely run with a false OFFLINE exists if and only if the sum exceeds 10000 ms |
| `Stepper.StepperMotor.RotateTo` | hal/src/StepperMotor.c:44-88 | The stepping loop: position, pulses and coil patterns for success, for a pin failure at any pulse and for a refused target |
| `Stepper.StepperMotor.ResetPosition` | hal/src/StepperMotor.c:97-104 | Here becomes 0 when the coils can be switched off, otherwise nothing changes |
| `Stepper.RotationStaysTracked` | hal/src/StepperMotor.c:64-80 | The tracked position stays the pulse count modulo 4096, also when a rotation fails midway |
| `Stepper.TargetIsNearest` | hal/src/StepperMotor.c:51 | No half-step is closer to the requested angle than the rounded target |
| `Stepper.RotationTakesTheShortestWayForward` | hal/src/StepperMotor.c:51-80 | A successful rotation ends on the target and no smaller number of forward pulses does |
| `Stepper.RotationEffect` | hal/src/StepperMotor.c:44-88 | To 0 or 180: exactly 0 or 2048 at the end and the pulses that takes, or the place where a pin failed; any angle outside 0 to 360 is refused without a pulse |
| `Stepper.ReadBack` | hal/src/StepperMotor.c:90-95 | Reading back after a success gives the requested angle if and only if rounding did not go down; otherwise one degree less, and 0 for 360 |
| `Stepper.LockedRange` | hal/src/StepperMotor.c:90-95 | The position reads as 180 on exactly twelve half-steps |
| `Stepper.PhaseKeptIff` | hal/src/StepperMotor.c:58-73 | A rotation keeps the coil phase if and only if it makes no pulse or starts on a multiple of eight |
| `Stepper.CompleteRunsStayInPhase` | hal/src/StepperMotor.c:44-88 | In every run of complete rotations between 0 and 180 the bolt ends at 0 or 2048 and no phase is skipped |
| `DoorModule.Door.AvgDistanceSample` | app/src/doorMod.c:189-206 | The integer mean of the valid readings, -1 if there are none |
| `DoorModule.AverageTellsShut` | app/src/doorMod.c:201-225 | The mean is in the closing range if and only if some reading is valid and the sum is below 10 times their count |
| `DoorModule.Door.LockDoor` | app/src/doorMod.c:210-244 | State, bolt and report for every branch, including a rotation that fails |
| `DoorModule.Door.UnlockDoor` | app/src/doorMod.c:247-298 | Likewise, including the fallback branches |
| `DoorModule.Door.GetDoorStatus` | app/src/doorMod.c:301-331 | Likewise; a sensor error leaves the caller's state as it was |
| `DoorModule.Door.HandleCommand` | app/src/door_udp_handler.c:7-46 | Runs the command on a fresh record and prints FEEDBACK with the same id and target, and the state found or the action echoed |
| `DoorModule.CommandsAreCalls` | app/src/door_udp_handler.c:17-27 | LOCK is the lock call, UNLOCK the unlock call, STATUS the status call, each on a record of state UNKNOWN; any other action changes and sends nothing |
| `DoorModule.RunEffect` | app/src/door_udp_handler.c:17-27 | For a bolt at rest and working pins: LOCK ends at 2048 if and only if the window saw the door shut or the bolt was there, UNLOCK ends at 0, anything else moves nothing; and what STATUS finds |
| `DoorModule.LockEffect` | app/src/doorMod.c:210-239 | Position and state after lock for every module state, window and pin failure: 2048 and LOCKED exactly when the bolt did not read locked, the window saw the door shut and the pins lasted; a failing pin leaves the bolt where it failed |
| `DoorModule.UnlockEffect` | app/src/doorMod.c:247-293 | Position and state after unlock likewise: 0 and UNLOCKED after a full rotation, the place of the failure otherwise; without a rotation the sensor decides what is said |
| `DoorModule.StatusEffect` | app/src/doorMod.c:301-325 | The bolt stays; LOCKED when it reads 180, otherwise the sensor decides, and a failed sensor leaves the state as it was |
| `DoorModule.SampleMeans` | app/src/doorMod.c:93-101 | A sample says open from 10 cm on and locked on half-steps 2048 to 2059 |
| `DoorModule.CallReports` | app/src/doorMod.c:28-57 | After every call: a failed reading sends and saves nothing; otherwise door and bolt as the call left them are saved with the state of the call, and the lines sent are the changes and the heartbeat that are due |
| `DoorModule.Door.ReportDoorState` | app/src/doorMod.c:28-57 | The report of a call, state by state |
| `DoorModule.Door.HeartbeatPass` | app/src/doorMod.c:88-105 | One pass of the heartbeat thread, which does not skip a failed reading |
| `DoorModule.BoltStartsOnlyOnAShutDoor` | app/src/doorMod.c:210-234 | The bolt starts towards 180 if and only if it does not read 180 and the sample window saw the door shut; unlock and status never start it that way |
| `DoorModule.BoltSafety` | app/src/doorMod.c:210-331 | In every run without pin failures the bolt is at exactly 0 or 2048 at each call boundary, unlock's fallbacks are unreachable, and every state assigned is true of the bolt |
| `DoorModule.CallTruthIff` | app/src/doorMod.c:210-331 | For every module state and every call, with or without failures: the state assigned is true of the bolt if and only if a condition on bolt position, readings and last known state holds that can be checked before the call |
| `DoorModule.UnlockTruthIff` | app/src/doorMod.c:247-293 | For unlock: if and only if it does not take its fallback branches, which say UNLOCKED or OPEN over a bolt that is neither |
| `DoorModule.StatusTruthIff` | app/src/doorMod.c:301-325 | For status: if and only if the bolt is exactly at 2048 when it reads as locked, and otherwise at 0 or the sensor fails |
| `DoorModule.LockTruthIff` | app/src/doorMod.c:210-239 | For lock: if and only if the bolt reads as locked, is at 0, or the window did not see the door open |
| `DoorModule.FailedLockThenUnlock` | app/src/doorMod.c:257-288 | False states do happen: a lock that fails after 1000 pulses, then an unlock, reports UNLOCKED over a bolt at 1000 |
| `DoorModule.FailedLockThenStatus` | app/src/doorMod.c:301-321 | After the same failure a STATUS answers STATUS_UNLOCKED or STATUS_OPEN over a bolt at 1000 |
| `Stations.AnswersAreTrue` | app/src/door_udp_handler.c:7-46 | End to end from bolt to client: in every system run with its modules in it, without pin failures and with bolts that start at rest, a client that gets a direct answer had its own command done to the bolt of the module that answers: LOCK left it at 2048 when the window saw the door shut and where it was otherwise, UNLOCK left it at 0, nothing else moved it; and STATUS_LOCKED was told with the bolt at exactly 2048, STATUS_UNLOCKED and STATUS_OPEN with the bolt at 0 |
| `Stations.CommandsAreDone` | app/src/door_udp_handler.c:17-27 | The same of every handling in such a run, answered or not; STATUS is replied from the bolt and the reading, any other action is echoed |
| `Stations.BoltsMoveOnlyByCommands` | app/src/door_udp_handler.c:7-46 | Whatever fails, in every run a bolt is where its module's latest handling left it, and each handling finds it there |
| `Stations.FullRunIsASystemRun` | app/src/door_udp_handler.c:7-46 | A run with door modules in it is a run of the system in which the modules choose the state a handler reports |
| `Stations.ReportsAreStray` | hal/src/door_udp.c:309-387 | A module's own EVENT and HEARTBEAT lines are no command and no feedback to anyone |
| `BoltEvents.ReadingChangesOnce` | hal/src/StepperMotor.c:90-95 | Along the path from 0 or 2048 the locked reading changes once, at the last pulse or the twelfth |
| `BoltEvents.UpdateAnnouncesLockChange` | hal/src/door_udp.c:356-362 | An update sends one D1 LOCK event exactly when the sampled lock state changed, and it names the sampled state |
| `BoltEvents.OneLockEventPerMovement` | app/src/doorMod.c:89-105 | However samples and pulses interleave, a movement from 0 announces nothing but LOCKED and one from 2048 nothing but UNLOCKED, at most once, and exactly once when an update saw the final position |
| `BoltEvents.MovementsAlternate` | app/src/doorMod.c:89-105 | Over every run of complete movements, each looked at, the LOCK events are one per movement and alternate |
| `LedQueue.LedRing.Push` | hal/src/led_worker.c:40-46 | Appends to the waiting tasks, or refuses at 31 |
| `LedQueue.LedRing.Pop` | hal/src/led_worker.c:48-53 | Takes the oldest waiting task, if any |
| `LedQueue.LedRing.Enqueue` | hal/src/led_worker.c:128-138 | When 31 wait, exactly the oldest is lost, and the second push cannot fail |
| `LedQueue.RingAccountsForAll` | hal/src/led_worker.c:55-138 | In every interleaving the tasks enqueued are exactly those that left, in order, then those waiting, in order; at most 31 wait |
| `LedQueue.DropsOnlyTheOldestWhenFull` | hal/src/led_worker.c:131-135 | A task is dropped if and only if one is added to 31 waiting ones, and it is the oldest |
| `LedQueue.WorkerLeavesAnEmptyRing` | hal/src/led_worker.c:59-65 | A worker leaves only after a stop and with nothing waiting; all tasks enqueued so far have left the ring |
| `LedQueue.TurnsDispatchAll` | hal/src/led_worker.c:55-90 | As many turns as tasks wait dispatch all of them in order, and after a stop the next turn ends the worker |
| `WebhookQueue.MessageQueue.Enqueue` | hal/src/system_webhook.c:22-35 | With memory, the list represents the old sequence with the message appended; without, the message is lost; tail is the last node reachable from head |
| `WebhookQueue.MessageQueue.Dequeue` | hal/src/system_webhook.c:43-54 | Removes the first message and keeps head, tail and links in order, also when the list becomes empty |
| `WebhookQueue.MessageQueue.Drain` | hal/src/system_webhook.c:106-116 | Visits every remaining node once, in order, and leaves the list empty |
| `WebhookQueue.EveryMessageAccountedFor` | hal/src/system_webhook.c:22-135 | In every interleaving, delivered, discarded and waiting messages, in order, are exactly the accepted ones |
| `WebhookQueue.WaitingIsNeverDiscarded` | hal/src/system_webhook.c:37-69 | No message that waits while the worker is there is discarded, in any continuation, unless the service is started anew between join and drain of a shutdown; once the worker is gone all have been delivered, in order |
| `WebhookQueue.DiscardIffRestarted` | hal/src/system_webhook.c:96-116 | With messages waiting and a worker there, some continuation without a further start discards one if and only if a shutdown is past its join |
| `WebhookQueue.RestartInsideAShutdown` | hal/src/system_webhook.c:85-107 | Such a state does occur |
| `WebhookQueue.DeliveredIffWorkerThere` | hal/src/system_webhook.c:96-135 | Unless the service starts anew or already was inside a shutdown, an accepted message that has left was delivered if and only if the worker was still there when it was appended |
| `WebhookQueue.ShutdownDeliversTheBacklog` | hal/src/system_webhook.c:96-104 | All messages waiting when the flag is cleared are delivered, in order, by the time the worker has left |
| `WebhookQueue.LateMessageIsDiscarded` | hal/src/system_webhook.c:125-135 | The other case does happen: a sender that saw `running` and appends after the worker left |

## Left out

- Provenance.AnswerProvenance: module names with blanks, NUL or more than 15 characters and ids of more than ten digits are outside it, as are texts with white space that only JavaScript takes for such; target and action are otherwise arbitrary.
- Provenance.AckIsSound: the same holds for the hub's own calls.
- System.InvAlways: `raw-send` (`gui/lib/door_server.js:229-237`) is not an action of the system, because it lets a client write any FEEDBACK it likes.
- WebhookQueue.MessageQueue.Enqueue: `strdup` is taken to succeed.
- WebhookQueue.EveryMessageAccountedFor: a second `hub_webhook_init` while the first worker runs is not modelled.
- DoorReport.DoorUdp.DoorUdpUpdate: the data race on the unlocked `g_prev_*` variables; each update is atomic with the sample it reports.
- Bridge.Bridge.OnMessage: broadcasts to all web clients and the rewriting of old-style states for them.
- Exceptions thrown by a web socket's `emit`, which the bridge catches and logs.
- Sockets, `select`, curl, pins and PWM, thread creation: they appear as chosen inputs, datagrams and failures.
- Integers are unbounded: ids and clocks that pass 32 or 64 bits are not modelled. Lines are sequences of characters, so UTF-8 decoding is not either.
- Releasing nodes and messages: `free` has no effect here, so use after free is not expressible.
- Discord alerts, LED patterns and log output, which nothing else depends on.
- `doorMod_cleanup` (`app/src/doorMod.c:332-343`): its comment says unlock, its code rotates to 180; the runs of `BoltSafety` do not contain it.
- `hub_udp_init` run a second time, which keeps the pending table.
- `door_udp_init`, socket set-up and the HELLO datagram's timing; only its text is modelled.
- The bridge's timeout is a timer that may fire at any time: the code says 5000 ms (`gui/lib/door_server.js:23`), its documents 1500 ms.
- A heartbeat saying CLOSED need not come from a valid reading: a sensor error of -1 counts as closed (`app/src/doorMod.c:93-98`), and the model follows the code.
- What a client learns: FEEDBACK LOCK means that the command was handled, not that the bolt is out (`app/src/door_udp_handler.c:17-19`). Whether it is depends on the sample window, as `Stations.AnswersAreTrue` says; after a pin failure it says nothing.
- Web pages, command line programs, HTTP handlers and static files.
