# A model of Globed's game server and client, with proofs

Globed lets players of Geometry Dash see each other in a level. A client sends its
frames to a game server, which stores them per level and returns the whole level; the
client's corrector turns those snapshots into smooth motion. This project models both
sides and what joins them:

- **The server, interleaved.** `Locks`, `Tasks`, `Scheduler`: every packet, sweep, tick and
  cleanup is a task with a code point and local variables. It runs from the grant of one lock
  to where it needs the next in one step, drops its guards, and may pause before it asks for
  that lock. `Access` proves that it touches only what it has locked; `EmptyLevels`, `Sessions`,
  `Listing`, `Agreement`, `Writers` and `Quiescence` prove what holds in every interleaving, and
  `Races` what can go wrong in some.
- **The server, one packet at a time.** `Handling` says what each whole handler makes of the
  two maps, and `Replies` what it sends; `Server` is the class `State`, whose methods are proved
  against both; `Sequential`, `Presence`, `Counting` and `Registers` prove what holds over whole
  runs, and `Requests` what each packet comes to, from its bytes to what is read by whom.
  `Solo` proves that a task of the interleaved machine, run by itself, does what the whole
  handler does, and `Embedding` that every sequential run is an interleaving.
- **The wire.** `Wire`, `PlayerCodec`, `AccountCodec`, `Packets`, `GameSocket`: the bytes both
  programs write and read, with the C++ buffer, the Rust bit buffer and the client's counted
  loops. `EndToEnd` proves that every client reads what the server says, and follows a frame
  from one client to another's corrector.
- **The corrector.** `Corrector` and `Motion`: real and estimated frames, clocks, straight
  motion, and where a player is drawn.
- **The level on screen.** `PlayLayer` and `IdLists`: the event lists the corrector publishes
  and the level replays, and the chat lists that survive a restart.

Floats are opaque 32-bit words on the wire and real numbers in the corrector. Ids are 32-bit
integers. The clock, the success of each send, the iteration order of hash maps and hash
sets, and which byte strings are text are parameters or unconstrained choices.

## What the code needs, and where it does not hold

Some properties hold only under a condition. For single handlers, for runs of one packet at a
time, for the relay, the corrector's divisor and the event log the condition is exact: the
property is proved to hold if and only if it does. For interleavings the conditions are
sufficient, and for both conditions on what may overlap there are interleavings that fail
without them.

- An entry whose level id cannot be decoded, or whose announcement fails, has already left
  its old level and keeps naming it (`Sequential.EntryKeepsAgreement`, and for an input that
  does it `Sequential.MalformedEntryLosesClient`).
- An exit whose announcement fails has already cleared `level_id` and stays in the level
  (`Sequential.ExitKeepsAgreement`, `Sequential.UnannouncedExitKeepsClient`).
- The interleaved agreement theorems assume that while a task moves a client no other task
  does. A packet's task counts as moving its client from where the packet's key was accepted,
  so packets with a wrong key are unrestricted; a check-in's task, from where it refuses the
  account. A task of a UserLevelData packet counts, since it puts the client into the level
  that its record named when the task looked: next to an exit it brings back a client that has
  left (`Races.DataOutlivesExit`). Only such tasks may overlap with each other.
- They also assume `tick_based = false`, since a tick repairs clients from a snapshot that may be
  out of date (`Races.TickRepairsFromStaleData`). Both failures can be reached from an empty
  server (`Races.DisagreementIsReachable`).
- Two duplicated packets in a regular stream bring the corrector to a division by zero
  (`Motion.TwoDuplicatesDivideByZero`); `Motion.ClockOverRun` says exactly when it happens.
- A remote player who joins and leaves between two drains is added last and stays on the
  screen (`PlayLayer.FlickerLeavesAGhost`); `PlayLayer.GhostsAreFlickers` says that no one
  else does.
- The comment on the byte swaps of signed integers calls them implementation-defined; the
  32-bit one is right for all values (`Wire.SignedSwapIsSwap`).

In the table, an *interleaving* is a run of the interleaved server and a *run* one of the server
that handles one packet, sweep or tick at a time. A run is *well-behaved* if no entry or exit
in it takes one of the first two branches above, and has *delivered exits* if no exit does.

## Model

| member | source | states |
|---|---|---|
| Scheduler.NoDeadlock | server/game/src/server.rs:132-181 | for any settings and any interleaving of handler, sweep, cleanup and tick tasks: while tasks remain, one of them can go on: either one that pauses can ask for the lock it needs next, or one whose lock was granted can take its step, and it is a step if no task pauses |
| Locks.FindRunnable | server/game/src/server.rs:34-44 | over FIFO-fair read/write locks taken in the order levels, one level, connected_clients, every task leads to one that is not blocked |
| Locks.DropKeepsLocks | server/game/src/server.rs:132-171 | a task that got its lock and drops guards keeps the queue equal to what the tasks hold and want, with every held guard granted |
| Locks.WaitKeepsLocks | server/game/src/server.rs:327-334 | asking for one more lock keeps it so too, however long after the guards were dropped |
| Locks.MutualExclusion | server/game/src/server.rs:34-44 | two tasks that were both granted one lock both have it for reading |
| Scheduler.CodeInOrder | server/game/src/handlers/level.rs:68-172 | at each of the 39 code points, 37 of which need a lock, the guards and the lock needed next are in the lock order, so no lock is taken twice and no two level locks are held at once |
| Scheduler.GuardsAreKept | server/game/src/server.rs:132-181 | a step only drops guards: whatever guard the task has afterwards it held before or had just been granted |
| Scheduler.ChangesAreGuarded | server/game/src/server.rs:156-181 | a level disappears only under the write guard of the level map, and its members change only under that level's write guard |
| Access.ReadsAreGuarded | server/game/src/server.rs:132-181 | where a step leads is decided by what its task has locked: two states of the maps that agree there take it to the same code point |
| Access.ClientsAreGuarded | server/game/src/server.rs:59-154 | the client map changes only under its write guard |
| Access.KeysAreGuarded | server/game/src/server.rs:132-181 | a level is added or removed only under the write guard of the level map |
| Scheduler.RunsAreConsistent | server/game/src/handlers/level.rs:101-123 | in every interleaving each level a task has looked up still exists when the task uses it, and the contents a LevelData reply is built from are still the level's contents when it is sent |
| Listing.ListSent | server/game/src/handlers/level.rs:129-172 | in every interleaving: when a level list is sent, it has an entry for exactly the levels that exist, and each count was the size of its level when the task read it |
| Quiescence.SchedulesEnd | server/game/src/server.rs:463-495 | without new packets, sweeps or ticks every schedule is finite, also one in which ticks are under way: the steps and requests for locks made, plus a bound on those that may remain, never exceed a bound computed from the state |
| Quiescence.ComesToRest | server/game/src/server.rs:463-495 | from the end of any interleaving the tasks at hand, ticks included, can be run until none is left |
| Quiescence.StepWorksOff | server/game/src/server.rs:110-181 | each step of a task lowers the bound on its remaining steps, the cleanup it spawns included |
| Quiescence.RoomShrinks | server/game/src/server.rs:59-90 | no step raises the number of levels plus tasks that may add one, of clients plus tasks that may add one, or of ids in levels plus tasks that may add one |
| EmptyLevels.EmptiesAreOnTheirWayOut | server/game/src/server.rs:132-181 | in every interleaving, whatever packets arrive and whatever sends fail: an empty level exists only while some task is bound to clean it up or to fill it |
| EmptyLevels.NoEmptyLevelAtRest | server/game/src/server.rs:156-181 | once every task is done no level is empty |
| EmptyLevels.LevelIdsAreReal | server/game/src/handlers/level.rs:29-38 | in every interleaving -1 and -2 are never keys of the level map |
| Sessions.ClientLimit | server/game/src/server.rs:59-90 | in every interleaving a positive max_clients is never exceeded |
| Sessions.IdentityIsStable | server/game/src/server.rs:59-108 | while a client stays connected its address and secret key never change, whatever arrives in between |
| Sessions.SessionsFollowTasks | server/game/src/server.rs:59-108 | in every interleaving a client is connected exactly if its tasks last signed it in, with the address and key of that check-in, the account it stored, and the time of its latest keepalive since |
| Agreement.AgreementAtRest | server/game/src/handlers/level.rs:11-66 | in every interleaving without ticks, with at most one task moving each client except that UserLevelData tasks may overlap, and in which no step hits one of the two sequential guards (each entry with the right key, of a client that names a level, can be decoded and announced, and each exit of a member can be announced): a client that no task is moving is a member of level l exactly if its record names l and l is not -1 |
| Agreement.OneSidedAtRest | server/game/src/handlers/level.rs:11-66 | the same without the conditions on entries: a member of level l that no task is moving is connected and its record names l |
| Agreement.MoverSettles | server/game/src/handlers/level.rs:11-66 | after each step the task that moves a client may rely on what its next code point assumes, and leaves both maps agreeing when it ends |
| Writers.LatestIsStored | server/game/src/handlers/level.rs:29-99 | in every interleaving with at most one task moving each client (UserLevelData tasks may overlap) and delivered exits (no ticks): whatever level a client is found in stores what its tasks wrote last, the empty record at entry or the data stored since |
| Writers.SnapshotShowsLatest | server/game/src/handlers/level.rs:101-123 | in those interleavings a LevelData reply carries, when it is sent, an entry for exactly the clients found in the level, and for each of them what its tasks wrote last |
| Races.DataOutlivesExit | server/game/src/handlers/level.rs:43-127 | overlap of other tasks does harm: from any rest with a client in its level, a UserLevelData packet and an exit of that client can interleave, all sends delivered, so that at rest the client is a member of the level and its record names none |
| Races.TickRepairsFromStaleData | server/game/src/server.rs:392-441 | so do ticks: a client alone on a tick-based server can enter another level and end, at rest, as its member with a record that names none |
| Races.DisagreementIsReachable | server/game/src/server.rs:287-441 | from an empty server with any max_clients that is not negative, tick-based or not, such a disagreement at rest can be reached |
| Agreement.OthersAreUntouched | server/game/src/server.rs:132-171 | a step of a task that does not move a client changes neither the client's memberships nor the level its record names |
| Embedding.SequentialIsInterleaved | server/game/src/server.rs:287-496 | every outcome of handling packets, sweeps and ticks one at a time is the outcome of an interleaving, with no task left |
| Embedding.RunsAlone | server/game/src/server.rs:487-495 | the interleaved machine can run a task alone, with each cleanup right after it was spawned |
| Solo.AloneIsHandled | server/game/src/server.rs:287-390 | the two models agree: every complete run of a packet's task by itself, whether each cleanup runs at once or only at the end, has the outcome of the whole handler |
| Solo.AloneIsSwept | server/game/src/server.rs:110-130 | every complete run of a sweep by itself removes the dead in some order, with the outcome of the whole sweep |
| Solo.AloneIsTicked | server/game/src/server.rs:392-441 | every complete run of a tick by itself repairs exactly the clients whose record names a level that does not exist |
| Solo.AloneInOrder | server/game/src/server.rs:110-130 | for every order of the dead there is a run of a sweep by itself that removes them in that order |
| Solo.AloneHasRun | server/game/src/server.rs:287-390 | every packet's task has such a complete run, from every state |
| Solo.EraseAndClean | server/game/src/server.rs:156-181 | cleaning up once at the end equals cleaning up after every removal |
| Sequential.RunsAreTidy | server/game/src/server.rs:132-181 | in every sequential run, malformed packets and failed sends included, no level is empty and none is called -1 or -2 |
| Sequential.RunsAreVetted | server/game/src/server.rs:327-342 | in every sequential run each stored account is empty or passed the validity check |
| Sequential.ExitKeepsAgreement | server/game/src/handlers/level.rs:43-66 | an exit keeps the two maps in agreement if and only if its announcement is delivered or the client was no member of the level its record named |
| Sequential.EntryKeepsAgreement | server/game/src/handlers/level.rs:11-41 | an entry keeps exact agreement if and only if the client named no level before, or the packet can be decoded and the announcement is delivered; the one-sided form it always keeps |
| Sequential.MalformedEntryLosesClient | server/game/src/handlers/level.rs:16-41 | that guard can be hit: on a server where one client has signed in and entered a level, its entry packet without a level id takes it out of the level while its record keeps naming it |
| Sequential.UnannouncedExitKeepsClient | server/game/src/handlers/level.rs:43-66 | and so can the exit's: with two clients on a level, an exit of one that cannot be announced to the other leaves it a member of the level with a record that names none |
| Sequential.ForgetKeepsAgreement | server/game/src/server.rs:92-108 | removing a client keeps agreement and leaves the client in no level |
| Sequential.UpdateKeepsAgreement | server/game/src/handlers/level.rs:68-99 | storing player data keeps agreement, decodable or not |
| Sequential.SignInKeepsAgreement | server/game/src/server.rs:323-358 | a check-in keeps agreement on each of its paths |
| Sequential.SweepKeepsAgreement | server/game/src/server.rs:110-130 | a sweep keeps agreement, in whatever order it removes clients |
| Sequential.TickKeepsAgreement | server/game/src/server.rs:392-441 | a tick keeps agreement |
| Sequential.InputKeepsAgreement | server/game/src/server.rs:287-390 | one packet, sweep or tick keeps agreement if and only if it does not hit the guard of one of those two branches |
| Sequential.RunsAgree | server/game/src/handlers/level.rs:16-63 | over whole sequential runs: the maps agree after every input if and only if no input hits such a guard, for exact agreement and for the one-sided form |
| Presence.SessionsAreKept | server/game/src/server.rs:59-130 | in every run a client is connected exactly while it has a session: opened by a check-in that found it absent and room, ended by its disconnect or by a sweep that had not heard of it within the timeout; its record holds the address and key of that check-in, the account of it (the empty one if it could not be decoded, or was refused without the client hearing of it), and the time of its latest accepted keepalive since, or of the check-in |
| Presence.SweepRemovesTheSilent | server/game/src/server.rs:110-130 | in every run a sweep leaves connected exactly those who were, and whose latest keepalive or check-in is not in the future and no older than kick_timeout |
| Presence.AccountsAreInRange | server/game/src/data/account_data.rs:72-92 | in every run each account that can be shown is the empty one or within the limits of is_valid, given as numbers |
| Requests.KeepaliveArrives | server/game/src/handlers/generic.rs:9-24 | from the bytes of packet 101: only the time of the client changes, and it reads the number of clients |
| Requests.DisconnectArrives | server/game/src/handlers/generic.rs:26-34 | from the bytes of packet 102: the client is gone from the client map and from its level, every other membership stays, and nothing is sent |
| Requests.AccountArrives | server/game/src/handlers/level.rs:174-198 | from the bytes of packet 104: nothing changes, and the client reads the account of the client it asked for, or is sent nothing if there is none |
| Requests.AccountTravels | server/game/src/handlers/level.rs:174-198 | in every run what it reads is the account that client signed in with, or the empty one if its check-in got no further |
| Requests.LevelListArrives | server/game/src/handlers/level.rs:129-172 | from the bytes of packet 105: nothing changes, and the client reads every level with its size |
| Requests.TextArrives | server/game/src/server.rs:195-221 | from the bytes of packet 106: nothing changes, and only clients on the sender's level read the text, cut to 80 bytes |
| Requests.TextIsHeard | server/game/src/server.rs:195-221 | all of them do, once each, if all can be reached |
| Requests.EntryArrives | server/game/src/handlers/level.rs:11-41 | from the bytes of packet 110, if it can be announced: the client is, with the empty record, a member of the level asked for (-1 and -2 are the daily and the weekly one) and of no other, its record names it, and no one else moves |
| Requests.EntryIsAnnounced | server/game/src/handlers/level.rs:36 | then everyone whose record names that level reads the name and " joined", in green |
| Requests.EntryFails | server/game/src/handlers/level.rs:16-41 | if it cannot be announced, the client is in no level, its record is as it was, and no one else moves |
| Requests.ExitArrives | server/game/src/handlers/level.rs:43-66 | from the bytes of packet 111: the record of the client names no level; it is in no level if the others on its level can be reached, and else no membership changes; no one else moves |
| Requests.ExitIsAnnounced | server/game/src/handlers/level.rs:61 | then exactly the others on its level read the name and " left", in red |
| Requests.FrameArrives | server/game/src/handlers/level.rs:68-99 | from the bytes of packet 112: the frame is stored in the level the client names, if it exists, and nothing else changes |
| Requests.SpectatorArrives | server/game/src/handlers/level.rs:68-127 | from the bytes of packet 113: nothing changes, and without tick_based the client reads the level it names |
| Requests.CheckInArrives | server/game/src/server.rs:59-90 | from the bytes of packet 100: a free id with an account within the limits is admitted while fewer than max_clients are connected, or without a limit; it is recorded with its address, key, time and account on no level, and reads the tick rate |
| Requests.InvalidCheckInArrives | server/game/src/server.rs:326-336 | with an account out of the limits it is told so, and admitted only if it cannot be told |
| Requests.SecondCheckInArrives | server/game/src/server.rs:65-70 | a check-in of a connected client changes nothing, and its sender is told to wait |
| Requests.LateCheckInArrives | server/game/src/server.rs:72-76 | with max_clients connected a check-in changes nothing, and its sender is told the number |
| Requests.PingArrives | server/game/src/server.rs:292-307 | from the bytes of packet 103: nothing changes, and the sender reads its ping id and the number of clients |
| Requests.WrongKeyArrives | server/game/src/server.rs:248-281 | with a wrong key, or of no connected client, any packet but a check-in changes nothing, and its sender reads which of the two it was |
| Requests.SignedOutArrives | server/game/src/server.rs:312-318 | any packet of client 0 changes nothing, and its sender is asked to sign in |
| Registers.LastWriterWins | server/game/src/server.rs:132-154 | in every run with delivered exits, levels[L][c] is the data of c's latest UserLevelData since its latest entry, or the empty record, whatever other clients do |
| Registers.InputStores | server/game/src/handlers/level.rs:68-99 | one input changes what is stored for c only if it is an accepted packet of c, and then to what that packet says |
| Registers.SweepKeepsTheLiving | server/game/src/server.rs:92-130 | from every state and in whatever order a sweep meets its dead, it keeps exactly the clients with 0 <= now - last_keepalive <= kick_timeout, with their records, and ends exactly one membership of each of the others: that in the level its record names |
| Registers.SweepPurges | server/game/src/server.rs:110-130 | where no one is a member of another level than its record names, a sweep leaves exactly the server without the dead |
| Registers.SweepIsPurge | server/game/src/server.rs:110-130 | the outcome of a sweep does not depend on its order |
| Registers.MembersDetermineLevels | server/game/src/server.rs:173-181 | without empty levels two level maps with the same members and data are equal |
| Counting.LevelsAreDisjoint | server/game/src/server.rs:132-171 | in every run with delivered exits, malformed packets included, no id is in two levels and no id that is not connected is in any |
| Counting.Conservation | server/game/src/server.rs:132-171 | under exact agreement the sizes of all levels add up to the number of clients whose level_id is not -1, in whatever order the levels are met |
| Counting.ConservationAtRest | server/game/src/server.rs:132-171 | the same for interleavings: once all tasks are done, under the conditions of Agreement.AgreementAtRest, the sizes of all levels add up to the number of clients whose level_id is not -1 |
| Counting.TickRepairsNobody | server/game/src/server.rs:397-421 | in every well-behaved run the branch of tick for players on an invalid level is never taken |
| Counting.TickClearsStrays | server/game/src/server.rs:409-421 | from any state a tick sets level_id to -1 exactly for the clients whose record names a level that does not exist |
| Counting.LevelListInAnyRun | server/game/src/handlers/level.rs:155-169 | in every run the list a client decodes has exactly one entry for each level of the server, with that level's size (sizes below 65536) |
| Counting.LevelListAddsUp | server/game/src/handlers/level.rs:155-169 | in every well-behaved run the counts of the decoded list add up to the number of players in levels |
| Server.State.constructor | server/game/src/server.rs:46-57 | a new server has empty maps and satisfies the invariant |
| Server.State.HandlePacket | server/game/src/server.rs:287-390 | for any bytes: the maps become the outcome of the parsed packet, the datagrams sent are exactly the reply to it, and the invariant is kept |
| Server.State.Answer | server/game/src/server.rs:360-389 | each verified request has the outcome of its handler and sends exactly what it is answered with |
| Server.State.HandleRequest | server/game/src/server.rs:260-281 | a request is handled exactly if its client is connected with that key; otherwise the sender is told why and nothing changes |
| Server.State.AddClient | server/game/src/server.rs:59-90 | a client is added exactly if its id is free and the server is not full (32-bit count), with level_id -1 and an empty account; otherwise the reason is returned |
| Server.State.RemoveClient | server/game/src/server.rs:92-108 | the client is removed from the map and from the level its record names |
| Server.State.RemoveDeadClients | server/game/src/server.rs:110-130 | the dead, in some order without repetition, are removed one after the other |
| Server.State.AddClientToLevel | server/game/src/server.rs:132-154 | the client becomes a member with the empty record, the level is created if needed, and an existing client record names it |
| Server.State.RemoveClientFromLevel | server/game/src/server.rs:156-171 | the client is taken out and empty levels are dropped; nothing happens if the level does not exist |
| Server.State.RemoveEmptyLevels | server/game/src/server.rs:173-181 | exactly the levels that are not empty stay |
| Server.State.SendTo | server/game/src/server.rs:183-193 | one datagram that encodes the message to the client's address, exactly if the client is connected and can be reached |
| Server.State.Broadcast | server/game/src/server.rs:223-246 | sends the message to clients whose record names the level, each at most once and only those who can be reached, to all of them unless a send fails, and reports success exactly if all could be reached |
| Server.State.VerifySecretKey | server/game/src/server.rs:248-258 | succeeds exactly if the client is connected with that key |
| Server.State.OnKeepalive | server/game/src/handlers/generic.rs:9-24 | only the client's keepalive time changes, and the reply carries the number of clients |
| Server.State.OnUserLevelEntry | server/game/src/handlers/level.rs:11-41 | leaves the old level first; announces the client to those whose record names the new level, all of them unless a send fails; enters and succeeds exactly if the target can be decoded and that announcement is delivered |
| Server.State.OnUserLevelExit | server/game/src/handlers/level.rs:43-66 | clears level_id first; announces this to those whose record still names the level, all of them unless a send fails; leaves the level only if that is delivered |
| Server.State.OnUpdateData | server/game/src/handlers/level.rs:68-127 | stores decodable data for a client in an existing level, and unless tick_based answers with exactly one datagram, the whole level in some order |
| Server.State.OnLevelListRequest | server/game/src/handlers/level.rs:129-172 | answers with exactly one datagram, the list of all levels in some order |
| Server.State.OnAccountDataRequest | server/game/src/handlers/level.rs:174-198 | answers with the account of the requested client if there is one |
| Server.State.OnSendTextMessage | server/game/src/handlers/level.rs:200-222 | sends the text, cut to 80 bytes, to those on the sender's level, all of them unless a send fails, and to no one else |
| Server.State.OnCheckIn | server/game/src/server.rs:323-358 | the client map and the reply on each path: refused, undecodable account, invalid account, signed in |
| Server.State.OnPing | server/game/src/server.rs:292-307 | answers with the ping id and the number of clients |
| Server.State.Tick | server/game/src/server.rs:392-441 | for each level that some record names, in some order, each of its members who can be reached is sent that whole level once, and nothing else is sent; level_id becomes -1 exactly for players on a level that does not exist |
| Server.WriteLevelData | server/game/src/handlers/level.rs:111-121 | the loop over a level writes its header and one 45-byte entry for each member, in some order, and a client decodes the result to the same level |
| Server.WriteLevelList | server/game/src/handlers/level.rs:155-167 | the loop over the levels writes one entry for each level under its wire id, and a client decodes the result to every level's size |
| Wire.SignedSwapIsSwap | src/net/bytebuffer.hpp:45-47 | the shifts and masks of byteswapI32 reverse the four bytes for negative values too |
| Wire.MostSignificantFirst | src/net/bytebuffer.cpp:139-144 | the first byte on the wire is the most significant one |
| Wire.SwapIsInvolution | src/net/bytebuffer.hpp:24-30 | swapping twice is the identity |
| Wire.HostsAgree | src/net/bytebuffer.cpp:50-56 | with the swap done on little-endian hosts only, both kinds of host write and read the same big-endian bytes |
| Wire.ByteswapF32 | src/net/bytebuffer.hpp:56-70 | the in-place swap of a float's bytes reverses them |
| Wire.ByteBuffer.ReadI32 | src/net/bytebuffer.cpp:58-64 | reads a big-endian signed integer on either kind of host and moves the cursor, or fails at the end of the buffer |
| Wire.ByteBuffer.ReadString | src/net/bytebuffer.cpp:98-108 | reads a length and that many bytes, or fails if they are not there |
| Wire.ByteBuffer.WriteI32 | src/net/bytebuffer.cpp:139-144 | appends four big-endian bytes on either kind of host |
| Wire.ByteBuffer.WriteString | src/net/bytebuffer.cpp:174-178 | appends the length and the bytes |
| Wire.BitBuffer.WriteBit | server/game/src/data/player_data.rs:58-63 | bits fill a byte from its most significant end |
| PlayerCodec.EncodePlayerData | src/data/player_data.cpp:70-86 | the client's encoder appends the 41 bytes of the record |
| PlayerCodec.ServerEncode | server/game/src/data/player_data.rs:91-103 | the server's encoder appends the same 41 bytes, its last bits left in an open byte |
| PlayerCodec.DecodePlayerData | src/data/player_data.cpp:88-109 | the client's decoder reads 41 bytes and fails on an unknown mode |
| PlayerCodec.ServerDecodePlayer | server/game/src/data/player_data.rs:105-127 | the server's decoder reads 41 bytes and takes an unknown mode for a cube |
| PlayerCodec.PlayerLayout | src/data/player_data.cpp:70-86 | which byte of the record is what: timestamp, icons, camera, and the flags 128, 64 and 32 |
| PlayerCodec.IconLayout | src/data/player_data.cpp:32-47 | which byte of an icon is what: position, rotation, the number of its mode, and its five flags |
| PlayerCodec.BodyIsServed | server/game/src/data/player_data.rs:52-127 | of any 41-byte body the server sends on every byte as it was, except that an unknown mode becomes 0 and bits that are no flags are cleared |
| PlayerCodec.RelayIsFaithful | server/game/src/data/player_data.rs:52-127 | client encode, server decode, server encode, client decode always succeeds, and is the identity if and only if neither mode is NONE |
| PlayerCodec.ClientReadsClient | src/data/player_data.cpp:32-109 | client encode then client decode is the identity, and fails exactly if a mode is NONE |
| PlayerCodec.ServingIsProjection | server/game/src/data/player_data.rs:66-127 | for every 41-byte body, server decode then encode is idempotent and every client can decode the result |
| AccountCodec.AccountLayout | src/data/player_account_data.cpp:3-16 | which bytes of an account are what |
| AccountCodec.AccountIsServed | server/game/src/data/account_data.rs:26-66 | an account that was read, from whatever bytes, is written as those bytes, except that a glow byte other than 1 becomes 0 |
| AccountCodec.AccountRoundTrip | src/data/player_account_data.cpp:3-46 | decoding an encoded account gives it back, wherever it stands at the end of a packet |
| AccountCodec.EncodeAccountData | src/data/player_account_data.cpp:3-16 | the client's encoder appends the account's bytes |
| AccountCodec.DecodeAccountData | src/data/player_account_data.cpp:18-46 | the client's decoder reads ten integers, the glow byte and the name, or fails |
| Packets.ServerParsesBare | server/game/src/packets.rs:5-19 | the client's packets 101, 102, 105, 111 and 113, a header each, are parsed as keepalive, disconnect, level list request, exit and spectator |
| Packets.ServerParsesAccountRequest | server/game/src/packets.rs:5-19 | packet 104 is parsed as a request for the account of the id that was sent |
| Packets.ServerParsesEntry | server/game/src/packets.rs:5-19 | packet 110 is parsed as an entry to the level id that was sent |
| Packets.ServerParsesPing | server/game/src/server.rs:292-307 | packet 103 is parsed as a ping with the id that was sent |
| Packets.ServerParsesText | server/game/src/packets.rs:5-19 | packet 106 is parsed as the text that was sent, if it is text |
| Packets.ServerParsesPlayerData | server/game/src/packets.rs:5-19 | packet 112 is parsed as id, key and the record as the server sees it |
| Packets.ServerParsesCheckIn | server/game/src/server.rs:309-328 | packet 100 is parsed as the account that was sent |
| Packets.ServerParsesIncomplete | server/game/src/server.rs:287-390 | packets 100, 104, 106, 110 and 112 without a body still reach their handlers, which find none |
| Packets.ServerRefuses | server/game/src/server.rs:287-312 | a packet is refused unread if and only if it is empty, is of none of the eleven kinds, or lacks a whole header and is no ping |
| Packets.ClientRefuses | src/net/game_socket.cpp:124-126 | the client refuses an empty packet and any kind but 200 to 205 and 210 to 212 |
| Packets.FirstEntryCounts | src/net/game_socket.cpp:38-51 | whatever entries a packet holds: reading them fails exactly if one cannot be read, and of several with one id the first counts |
| Replies.MessageKinds | server/game/src/packets.rs:21-33 | the kind byte of each message of the server |
| GameSocket.GameSocket.WriteAuth | src/net/game_socket.cpp:232-235 | account id and secret key are appended |
| GameSocket.GameSocket.SendMessage | src/net/game_socket.cpp:131-166 | each message for the server is sent as its kind byte, id, key and body; others are refused |
| GameSocket.GameSocket.SendHeartbeat | src/net/game_socket.cpp:168-176 | sends packet 101 with id and key |
| GameSocket.GameSocket.SendAccountDataRequest | src/net/game_socket.cpp:188-195 | sends packet 104 with id, key and the id asked for |
| GameSocket.GameSocket.SendDisconnect | src/net/game_socket.cpp:197-203 | sends packet 102 with id and key |
| GameSocket.GameSocket.SendCheckIn | src/net/game_socket.cpp:178-186 | sends the header and the account |
| GameSocket.GameSocket.RecvLevelData | src/net/game_socket.cpp:38-51 | the counted loop collects the first entry of each id except its own (unless debugging), or fails |
| GameSocket.GameSocket.RecvLevelList | src/net/game_socket.cpp:73-86 | the counted loop collects the first entry of each level id, or fails |
| GameSocket.GameSocket.RecvPacket | src/net/game_socket.cpp:12-129 | every packet kind is read as its bytes say, or refused; an answer to a ping is taken only while that ping waits, which it then no longer does |
| GameSocket.GameSocket.RecvPing | src/net/game_socket.cpp:52-62 | an answer is taken exactly if its ping id waits and the count is there; the id is then forgotten |
| GameSocket.GameSocket.SendPingTo | src/net/game_socket.cpp:205-220 | sends the id and notes the server it was sent to, unless that id still waits |
| Packets.SnapshotIsFaithful | server/game/src/handlers/level.rs:111-121 | for a level with n < 65536 members in any order: the bytes have length 3 + 45n and the client's loop decodes them to exactly the level's map without its own id |
| Packets.LevelListIsFaithful | server/game/src/handlers/level.rs:155-169 | the decoded list is exactly the level map's sizes under wire ids, if no level is called -1 or -2 |
| Packets.WireListFacts | server/game/src/handlers/level.rs:155-167 | one entry for each level, with that level's size, and no other |
| EndToEnd.SnapshotReachesCorrector | src/net/game_socket.cpp:38-51 | after a snapshot the corrector tracks exactly the other members of the level, newcomers at the frame the server has |
| EndToEnd.MessageIsRead | src/net/game_socket.cpp:12-129 | for each of the ten messages of the server: whatever bytes it may be sent as, every client reads back exactly that message |
| EndToEnd.RepliesAreRead | server/game/src/server.rs:287-390 | whatever packet arrives, everyone who is sent something because of it reads the same message, namely the reply to that packet (counts within their fields) |
| EndToEnd.FramesTravel | server/game/src/handlers/level.rs:68-127 | in every well-behaved run without tick_based, a client on a level that sends its frame (or asks as a spectator) is answered with exactly one packet, in which it reads the latest frame of each other client whose record names its level, and of no one else (levels below 65536) |
| EndToEnd.TicksTravel | server/game/src/server.rs:392-441 | in every well-behaved run, a tick shows each client on a level the same, if it can be reached (levels below 65536) |
| EndToEnd.LatestFrame | server/game/src/data/player_data.rs:66-127 | that latest frame is the one the other client sent last, if and only if its modes are not NONE |
| Corrector.PlayerCorrector.FeedRealData | src/correction/corrector.cpp:45-96 | the tracked players become exactly those of the packet, each advanced by its frame, where only the numbers of a guess that divides by zero are left open; ids new and gone are appended to the two lists, each once |
| Corrector.PlayerCorrector.MaybeEstimateFrame | src/correction/corrector.cpp:99-133 | which frame is kept on each of the five branches, and when the counter grows; if an extrapolation divides by zero, everything but the numbers of its frame |
| Corrector.PlayerCorrector.Interpolate | src/correction/corrector.cpp:179-189 | both icons are drawn from the track and its clock advances; nothing happens for an unknown id; with an update delay of zero, whatever was divided by it is left open |
| Corrector.PlayerCorrector.InterpolateSpecific | src/correction/corrector.cpp:191-276 | what is drawn for each icon, halted players, grounded spiders and dashes included; with an update delay of zero, everything that is not divided by it |
| Corrector.PlayerCorrector.JoinedLevel | src/correction/corrector.cpp:282-286 | nothing is tracked and both lists are empty |
| Corrector.PlayerCorrector.GetNewPlayers | src/correction/corrector.cpp:292-296 | returns the list and empties it |
| Corrector.PlayerCorrector.GetGonePlayers | src/correction/corrector.cpp:298-302 | returns the list and empties it |
| Motion.PlayerRuns | src/correction/corrector.cpp:45-96 | while a player who was not tracked before is in every packet, the corrector's tracks of it are a run of feeds to one track, divisions by zero included |
| Motion.FeedByTiming | src/correction/corrector.cpp:99-177 | what a feed stores, by the time since the last frame, with 0.002 as the tolerance: a frame on time, after four guesses, or later than one skipped packet is stored as received; in place of a skipped one the middle of all nine numbers with the flags received; in place of a repetition the motion goes on for another delay, with the flags stored before |
| Motion.FirstFeed | src/correction/corrector.cpp:45-61 | the first frame of a player is stored as received, next to a hidden one with all numbers zero |
| Motion.ShownFlags | src/correction/corrector.cpp:62-75 | at every point of a run the mode, dead, paused and icon flags shown are those of the last frame received that was not a repetition, and sentPackets counts the feeds |
| Motion.GuessesAreCounted | src/correction/corrector.cpp:62-75 | at every point of any such run extrapolatedFrames is the length of the run of estimated frames up to there, and at most 4 |
| Motion.FiveFeedsKeepOneFrame | src/correction/corrector.cpp:99-133 | of any five consecutive feeds of any such run one stores the frame that was received |
| Motion.DriftIsBounded | src/correction/corrector.cpp:99-133 | after a feed the newer timestamp is within the update delay plus 0.002 of the frame received |
| Motion.StampsMeet | src/correction/corrector.cpp:99-133 | after a feed the two stored timestamps are equal if and only if it was a forced resync to the timestamp already stored |
| Motion.ClockOverRun | src/correction/corrector.cpp:99-160 | over whole runs, after every feed that does not itself divide by zero, the newer clock is within the update delay plus 0.002 of its frame, and after such a feed the divisor of the next extrapolation is zero if and only if it repeats a first frame stamped 0 or such a resync |
| Motion.TwoDuplicatesDivideByZero | src/correction/corrector.cpp:156-160 | a stream of ten frames a second that is regular except for two repeated packets divides by zero at the second of them |
| Motion.StraightMotionIsKept | src/correction/corrector.cpp:99-177 | if all frames lie on one constant-velocity trajectory, the second does not repeat the first and no feed divides by zero, both stored frames lie on it from the second feed on, guessed or not |
| Motion.FirstRepeatGuessesFromOrigin | src/correction/corrector.cpp:45-61 | a repetition of the first frame is extrapolated onto the trajectory if and only if the all-zero frame lies on it |
| Motion.DrawnInTurn | src/correction/corrector.cpp:179-189 | each drawing advances the clock of a track by its frame time, so a run of them by their sum |
| Motion.DrawnAlongSegment | src/correction/corrector.cpp:179-247 | after a feed a moving player, and the camera, are drawn at older + (accumulated time / delay)(newer - older) |
| Motion.DrawnOnSegment | src/correction/corrector.cpp:179-247 | while the accumulated time is at most the delay, the drawn position and camera lie between the two frames |
| Motion.TurnsAlongSegment | src/correction/corrector.cpp:249-268 | after a feed an icon that does not dash is rotated to older + (accumulated time / delay)(newer - older) if it turns by less than 360 degrees, and else to the newer rotation |
| Motion.TurnedOnSegment | src/correction/corrector.cpp:249-268 | while the accumulated time is at most the delay, that is between the two rotations |
| Motion.DashTurns | src/correction/corrector.cpp:251-260 | over any run of frames a dashing cube or ball turns by 900 degrees times their summed times, and by as much the other way upside down |
| Motion.HaltedStays | src/correction/corrector.cpp:209-216 | over any run of frames a dead or paused player keeps its position, rotation and camera, and is marked as halted |
| Motion.OthersMove | src/correction/corrector.cpp:209-243 | any other player, or one drawn for the first time, is not, and its second icon does not move the camera |
| Motion.JumpAtNextFeed | src/correction/corrector.cpp:66-71 | the next feed, whatever it keeps, moves the drawn x by (1 - accumulated / delay)(newer - older) |
| IdLists.ParseIdList | src/util.cpp:223-237 | the loop over comma-separated tokens collects their numbers, and one token that std::stoi refuses empties the whole list |
| IdLists.SerializeIdList | src/util.cpp:239-249 | prints the elements, each once, in some order; what is printed parses to the same set |
| IdLists.NumberIsRead | src/util.cpp:229 | std::stoi skips white space, takes a sign and the digits, ignores what follows, and throws if the number needs more than 32 bits |
| IdLists.ListRoundTrip | src/util.cpp:223-249 | for every set of 32-bit ids and every order, parsing what was printed gives the set back |
| IdLists.NumberRoundTrip | src/util.cpp:229-245 | std::stoi reads back what std::to_string printed, negative numbers included |
| PlayLayer.PlayLayer.UpdateStuff | src/hooked/play_layer.hpp:551-563 | replays the gone list, then the new list, and keeps the keys of both player maps equal |
| PlayLayer.PlayLayer.ChatBlockUser | src/hooked/play_layer.hpp:361-365 | moves the id to the blacklist, and the saved strings read back as the lists |
| PlayLayer.PlayLayer.ChatUnblockUser | src/hooked/play_layer.hpp:367-371 | moves the id to the whitelist, and the saved strings read back as the lists |
| PlayLayer.PlayLayer.SaveChatUserLists | src/hooked/play_layer.hpp:373-380 | the saved strings read back as the two lists |
| PlayLayer.PlayLayer.constructor | src/hooked/play_layer.hpp:282-286 | a restart loads the parsed lists |
| PlayLayer.LastActionDecides | src/hooked/play_layer.hpp:335-371 | after any run of blocks and unblocks from disjoint lists the lists are disjoint, oneself is not blocked, and another player is blocked exactly if the last action on it was to block it, or, without one, if it was blacklisted or, in whitelist mode, neither whitelisted nor a friend |
| PlayLayer.BlockingSurvivesRestart | src/hooked/play_layer.hpp:361-380 | the same rules are in force after a restart, in whatever order the sets were printed |
| PlayLayer.FeedIsLogStep | src/correction/corrector.cpp:45-96 | a feed of the corrector is a step of the event log |
| PlayLayer.DrainShowsTracked | src/hooked/play_layer.hpp:551-563 | after any run of feeds and drains, a drain leaves every tracked id among the level's players |
| PlayLayer.DrainsAreExact | src/hooked/play_layer.hpp:551-563 | every drain of a run leaves exactly the tracked ids if and only if no drain of it reports as new an id that has left again |
| PlayLayer.GhostsAreFlickers | src/hooked/play_layer.hpp:551-563 | in every run, an id that is not tracked and not pending as gone is shown if and only if the last drain that reported it found it new and no longer tracked |
| PlayLayer.DrainIsExact | src/hooked/play_layer.hpp:551-563 | if no drain so far reported as new an id that had left again, the next drain leaves exactly the tracked ids if and only if it does not either |
| PlayLayer.FlickerLeavesAGhost | src/hooked/play_layer.hpp:551-563 | an id that joins and leaves between two drains stays among the level's players |

## Left out

- Sockets, UDP delivery, thread start and join, HTTP, the central server and the settings
  file: a send is an entry in an outbox and succeeds or fails as a parameter says; within
  one packet all sends to one address have the same result.
- Everything drawn besides positions, rotation, camera and the halted flag: visibility,
  scale, animation, death effects, popups, lists.
- Rounding, NaN and infinity of floats.
- `byteswapI16` and the 16-bit signed reads and writes, which no packet uses, and the
  64-bit ones.
- `CappedQueue`, `SmartMessageQueue`, mutex wrappers and the client's connection flags.
- Word filtering, logging, and where a text may be cut without splitting a UTF-8 character.
- GameSocket.GameSocket.RecvPacket: the round-trip times of keepalives and pings, which the client
  takes from its clock.
- Server.State.HandlePacket: the result that the caller only logs.
- In the class `State` the cleanup job runs at once; in the interleaved model it is a task of
  its own.
- Agreement.AgreementAtRest: for interleavings without ticks, with at most one task moving a
  client at any time unless all of them store its data.
- Corrector.PlayerCorrector.FeedRealData: the numbers that a division by zero leaves in a guessed
  frame. Calls of the corrector's methods from the network thread and the main thread are
  taken one at a time.
- PlayLayer.PlayLayer.UpdateStuff: the nodes behind the two maps' keys are not modelled.
