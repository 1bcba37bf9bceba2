# Verified model of the room server

A room server keeps collaborative documents and uploaded files for short-lived rooms: one
asyncio process, many coroutines, one disk. This project models the parts of it whose
guarantees have to survive every interleaving at an `await`, and proves those guarantees for
all runs. `dafny verify dfyconfig.toml` checks everything.

## How it is built

**Disk admission and uploads.** `UploadMachine` is a step system: one step is the code between
two awaits, and any suspended coroutine may go next. It covers creating, closing and cleaning
rooms, the lock-guarded reservation with its free-space probe, chunk writing, completion, abort,
the mid-transfer re-check, the reaper, file deletion and the failure of each storage call. `Vault`
holds the byte accounting behind it. `BoardSafety`, `UploadSafety`, `UploadStanding`,
`UploadFigures`, `UploadWriting`, `UploadAgreement`, `UploadBudget`, `UploadResults` and `UploadAlone`
prove what every run keeps; `UploadOutcomes` proves what each request comes to when storage works;
`UploadRuns` and `UploadEdges` build runs from the empty state that show where a hypothesis is
needed. Admission safety up to a history variable `stray` (bytes appended without
cover from a reservation), the standing of every upload and reservation, the rooms, the lookups and
the cleanup need no assumption about which requests overlap. The agreement of declared, committed
and reserved bytes needs `Orderly` runs, in which a request or a cleanup's teardown begins on an
upload only when no request is under way on it, and no sweep takes an upload in the middle of its
completion; different uploads interleave freely. That no sweep takes an upload that is being received
is a result, not part of the hypothesis. In those runs `stray` is proved to be zero, and
`UploadEdges.OverlapIsReached` with `UploadResults.OverlapLandsTwice` shows that the hypothesis is
needed.

A measurement of the stored bytes may return any figure, since files change while the tree is
walked. Two history variables carry what that costs: `debt` for what the figures behind
the admissions did not account for, `excess` for what the cached figure counts too many.
`UploadBudget` bounds both by quantities of the run: `most` bytes land in any stretch shorter
than `win`, no admission comes later than `win` after the measurement it relies on, and a
measurement misses at most `miss` bytes and counts at most `over` too many.

**Room lifecycle.** `RoomLifecycle` gives the operations of a room instance as functions and a
world of sockets, sessions, timers and departed users around them; `RoomLifecycleProofs` has the
invariants and the results over runs.

**Document relay.** `Relay` models browsers and the server with a document as the set of operations
it holds: applying is union, a state-vector diff is set difference. Frames wait in per-socket
queues and handlers of different sockets interleave at each await. A browser may open the document
at any time after its first join, on an open socket or offline. `RelayProofs` proves where each
operation is at any moment and that opened replicas agree at rest, `RelaySettles` that handling what
is pending comes to rest.

**Transfer.** `Transfer` has the browser's retry loop against the server's chunk loop, on real
byte sequences, over a network that splits, cuts and loses. A transfer leaves a log of its requests
(`Story`), in which every entry follows from the one before and from the network.

**Codes, headers, frames.** `RoomCodes`, `Decimal`, `ContentRange` and `Codec`.

**Objects.** Code that changes things in place also appears as classes and loops, whose contracts
say which step or function of the models above they carry out: `DiskObjects` (ledger, budgeted disk,
directory walk) and `UploadObject` (the upload service) against the upload machine and its vault,
`CleanupObjects` (sweep and cleanup run to their end) against an undisturbed sweep or cleanup of it,
`RoomObject` (the room instance) and `SessionObject` (a socket's session and its receive loop)
against the lifecycle, `RelayObject` (the browser's replicas) against the relay, `Transfer.Upload`
and `RoomCodes.RoomManager` against the machine's steps and its room map.

Fields marked as history in the comments record what happened; no decision of a step depends on
one.

## Where the code and its documentation differ

- The class comment of `BudgetedDiskSpace` (`backend/app/storage/fs.py:112-115`) says that a transfer
  admitted against the budget cannot later breach it. With a cached figure it can, by what lands
  between the measurement and the admission. `UploadEdges.BudgetKeptIff`: on a volume with room, all
  orderly runs with accurate measurements keep the budget if and only if the headroom is at least
  those bytes; `UploadEdges.BudgetOverdrawn` is the run that breaks it otherwise.
  `UploadBudget.BudgetWithinOneWindow` and `UploadBudget.HeadroomAbsorbsTheWindow` have the allowance
  with inaccurate measurements; where the admission follows its reading at once, the window is the
  cache's lifetime (`UploadBudget.PromptLasts`).
- For the same reason an admitted transfer can be refused part of the way although nothing outside
  uses the disk: `UploadEdges.AdmittedThenAborted` is an orderly run that does so, and
  `UploadEdges.NeverRefusedIff`: on a volume with room, all orderly runs with accurate measurements
  are free of it if and only if there is no budget. `UploadAgreement.NeverBreached` and
  `UploadBudget.RecheckWithinOneWindow` say how far a re-check can fall below the headroom.
- `Session.leave` (`backend/app/ws/connection.py:360-367`) calls a replaced socket stale. It is inert
  while its user is connected in a joinable room, but once the newer socket is lost an explicit leave
  of the old one removes the user in the middle of the reconnect grace, and once a cleanup has taken
  the sockets the old one's late close marks its user disconnected:
  `RoomLifecycleProofs.StaleSocketInert` has the exact condition,
  `RoomLifecycleProofs.ReplacedSocketCanRemove` and `RoomLifecycleProofs.ReplacedSocketActsInClosing`
  the runs.
- A handler that raises after applying an update and before relaying it
  (`backend/app/ws/connection.py:272-287`; the warning it may send in between can raise on a dead socket)
  leaves the other replicas behind (`RelayProofs.DeathDiverges`) until they sync again
  (`RelayProofs.ConvergesSinceSync`).
- An `init` granted after its room's cleanup listed the uploads leaves a reservation behind:
  `UploadResults.GrantedInit` says exactly when, and `UploadEdges.InitLeavesReservation` is a run that
  ends so.
- Deleting a part suppresses only the error that it is missing (`backend/app/storage/fs.py:222-224`).
  Any other error ends the cleanup (`backend/app/rooms/manager.py:128-134`): the room is never closed,
  and the uploads the cleanup had not come to stay as they were, with their reservations:
  `UploadResults.CleanupEnds` and `UploadResults.GivenUpForGood`.
- The `writing` flag is there so that the reaper does not delete a part under an active transfer
  (`backend/app/rooms/types.py:132-134`). It is lowered by whichever request ends first
  (`backend/app/files/routes.py:169-170`), so when two requests receive one upload a sweep can take it
  out while the second goes on: `UploadEdges.ReapedWhileReceived` from any such overlap,
  `UploadEdges.ReapedFromStart` as a run. Where no two requests receive one upload at a time it never
  happens: `UploadResults.SweepSound`.
- Completion promises the file by its size (`backend/app/files/uploads.py:199-206`). When a browser
  retries a chunk after a lost connection (`frontend/src/files/upload.ts:142-153`) while its first
  request is still being received, both can pass the range check, and a file that is not the
  browser's is stored and reported done: `Transfer.OverlappingChunks`.
- On failure the client resumes "with exponential backoff and a bounded retry count"
  (`frontend/src/files/upload.ts:6-8`). Only a success starts the count again, a 409 does not: when the
  query after a failure is lost too, every byte can be delivered at the first attempt, with no two
  failures in a row, and the fifth failure still ends the transfer: `Transfer.GivesUpOnResyncs`.
  `Transfer.RunUpload` has the exact condition, five failures without a success between them.
- An upload of size zero can never be completed, because there is no part to sync:
  `Transfer.RunUpload` and `Transfer.Upload.Complete`.

## Model

| member | source | states |
|---|---|---|
| Vault.AppendKeepsVolume | backend/app/files/reservations.py:81-87 | bytes that land leave used-plus-outstanding unchanged, whatever is appended where, except for bytes without cover |
| Vault.DecideSound | backend/app/files/reservations.py:58-74 | a grant made on a free-space reading that may be stale by now keeps the promises within the volume and the budget |
| Vault.ShrinkSound | backend/app/files/reservations.py:81-87 | shrinking to what has not landed never lowers a reservation below what is still to come |
| UploadSafety.StepSafe | backend/app/files/uploads.py:86-230 | every step of every coroutine keeps the accounting, the room map, the records and the figures that coroutines carry across awaits, and moves no room back |
| UploadSafety.NoOverAdmission | backend/app/files/reservations.py:58-87 | in every run, whatever overlaps, free space plus stray bytes covers the headroom and everything still promised |
| UploadSafety.BudgetBound | backend/app/storage/fs.py:147-161 | with a budget, used plus promised stays within budget minus headroom, plus `debt` (what the figures behind the admissions did not account for), plus stray bytes |
| UploadBudget.BudgetWithinOneWindow | backend/app/storage/fs.py:119-125 | with a budget, used plus promised stays within budget minus headroom, plus what can land between a measurement and an admission made on it, plus what a measurement misses, plus stray bytes |
| UploadBudget.HeadroomAbsorbsTheWindow | backend/app/storage/fs.py:119-125 | in orderly runs a headroom of those bytes keeps used plus promised within the budget |
| UploadBudget.RecheckWithinOneWindow | backend/app/files/reservations.py:89-93 | in orderly runs a re-check finds the headroom, less the same bytes and what a measurement counts too many |
| UploadBudget.PromptLasts | backend/app/storage/fs.py:152-161 | if the clock does not move between an admission's usage reading and its decision, no admission relies on a measurement older than the cache's lifetime |
| UploadEdges.BudgetKeptIff | backend/app/storage/fs.py:112-125 | on a volume with room: every orderly run with accurate measurements that lands at most `most` bytes per window keeps the budget if and only if the headroom is at least `most` |
| UploadEdges.BudgetOverdrawn | backend/app/storage/fs.py:147-161 | for every k the volume has room for, an orderly run from the empty state that ends with budget minus headroom plus k bytes used and promised, k having landed since the cached figure |
| UploadEdges.AdmittedThenAborted | backend/app/files/uploads.py:186-192 | for every such k from 1, an orderly run from the empty state whose admitted upload finds only the headroom less k bytes, or nothing, at its re-check and is aborted |
| UploadEdges.NeverRefusedIff | backend/app/storage/fs.py:112-115 | on a volume with room, no orderly run with accurate measurements ever breaks an admitted transfer off for want of space if and only if there is no budget; and in the same case every re-check finds the headroom |
| UploadOutcomes.RecheckDecides | backend/app/files/uploads.py:184-193 | a re-check that finds at least the headroom changes nothing and the request goes on receiving; one that finds less takes the upload out, marks it and ends it |
| UploadOutcomes.InitDecides | backend/app/files/uploads.py:86-149 | from any state with the ledger's lock free an init is granted if and only if its size fits what the reading leaves after reservations and headroom; granted, it is reserved in full, registered and can be found, refused, nothing has changed; the lock is free again |
| UploadOutcomes.ChunkLands | backend/app/files/uploads.py:168-193 | from any reachable state with the lock free, bytes that begin at the committed offset and fit the declared size are appended, counted, dated and taken off the reservation, and nothing else changes |
| UploadOutcomes.CompletionStores | backend/app/files/uploads.py:199-222 | from any reachable state with the lock free, completing an upload that can be found, with a part of the declared size, stores the file and records it, and takes the upload out of its room, the index and the ledger; nothing else changes |
| UploadOutcomes.CompletionRefuses | backend/app/files/uploads.py:199-207 | a part of any other size, or storage that fails, ends the request with nothing changed |
| UploadOutcomes.AbortErases | backend/app/files/uploads.py:224-230 | from any reachable state with the lock free, aborting marks the upload, takes it out of its room, the index and the ledger and deletes its part; nothing else changes |
| UploadOutcomes.DeletionErases | backend/app/ws/connection.py:229-238 | deleting a file takes it out of its room and off the disk, and changes nothing else |
| UploadOutcomes.WhoMayBegin | backend/app/files/uploads.py:70-166 | in every run: a room may be created under any code no room has, within the cap, and closed while it is open; an init may begin exactly for a user who is in an open room; exactly an upload that an open room lists may be completed or aborted, or sent bytes from its committed offset on |
| UploadStanding.StepStands | backend/app/files/uploads.py:199-230 | every step keeps: a reservation is held exactly while its upload is live, taken out and not yet given back, or stranded; and no step changes how any upload but its own stands |
| UploadStanding.ReservedAtRest | backend/app/files/uploads.py:126-149 | whenever nothing is suspended, the ledger's keys are exactly the uploads open rooms list and the stranded ones, whichever requests overlapped before |
| UploadAgreement.StepExact | backend/app/files/uploads.py:168-197 | every step of an orderly run keeps declared, landed, committed, reserved and stored bytes of every upload in agreement |
| UploadAgreement.NoByteUncovered | backend/app/files/uploads.py:168-193 | in orderly runs no byte lands without cover, so free space covers headroom and promises outright |
| UploadAgreement.NeverBreached | backend/app/files/uploads.py:186-192 | in an orderly run, under every configuration, a mid-transfer re-check finds at least the headroom (as far as volume and budget can hold it) less `debt` and `excess`; without a budget both are zero, so no admitted transfer is refused part of the way |
| UploadAgreement.AgreementAtRest | backend/app/files/uploads.py:126-149 | whenever nothing is suspended in an orderly run: reserved are exactly the uploads open rooms list and the stranded inits, each reservation is declared minus committed with the part at its committed size, and any other part is one whose deletion failed |
| UploadResults.MapAgreement | backend/app/rooms/manager.py:85-134 | a room is joinable if and only if the map binds its code to it; at most MAX_ROOMS are bound |
| UploadResults.CreateNeverOverwrites | backend/app/rooms/manager.py:100-112 | in no run does creating a room take a code from a live instance |
| UploadResults.OneWayDoor | backend/app/rooms/instance.py:245-252 | a room that left its joinable states never returns to them, no code leads to it and none of its uploads resolves, however the run goes on |
| UploadResults.LookupExact | backend/app/files/uploads.py:70-80 | in every run an upload resolves to a room exactly when that room is open and lists it; it is then that room's, not aborted and reserved |
| UploadResults.CleanupIsolation | backend/app/cleanup/room.py:35-103 | no step of a cleanup, in any run, changes another instance, its uploads, reservations, files or coroutines, not even under the same code |
| UploadResults.CleanupEnds | backend/app/cleanup/room.py:35-65 | every cleanup step lowers a measure or is the end; at the end the room is closed and empty, and its directory gone unless a fourth attempt failed, if and only if the deletion of a part did not fail; otherwise the room is given up with the uploads not yet reached as they were |
| UploadResults.GivenUpForGood | backend/app/rooms/manager.py:128-134 | a room whose cleanup was given up is never cleaned or closed, however the run goes on |
| UploadResults.GoneForGood | backend/app/storage/fs.py:185-190 | once a closed room's directory is gone, no later step of any coroutine writes into it |
| UploadResults.SweepSound | backend/app/cleanup/reaper.py:66-89 | with any steps in between, a sweep takes out only uploads stale at that moment and touches no stored file; in every run in which no two requests receive bytes of one upload at a time, whatever else overlaps, no request is receiving bytes of the upload it takes out |
| UploadResults.SweptWasIdle | backend/app/files/uploads.py:176-179 | what a sweep takes out was there, with as many committed bytes, at every earlier moment less than the stale time ago |
| UploadResults.SweepEnds | backend/app/cleanup/reaper.py:66-89 | every step of a sweep, in whatever state the others leave it, brings it nearer to the end, where nothing is left to look at unless a part could not be deleted |
| UploadWriting.StepFlags | backend/app/files/routes.py:149-170 | every step keeps: an upload has at most one request that receives its bytes, and while it has one the flag is up, if no second one begins |
| UploadResults.GrantedInit | backend/app/files/uploads.py:126-149 | in every run, a granted init's upload holds its reservation, can be found if and only if its room is still open, and is stranded if and only if the cleanup has listed what to abort |
| UploadEdges.InitLeavesReservation | backend/app/files/uploads.py:126-149 | for every size that can be granted, a run from the empty state that ends at rest, its only room closed, with the whole size still reserved |
| UploadResults.TwoRequestsOverlap | backend/app/files/uploads.py:155-166 | two requests on one upload can both pass the range check |
| UploadResults.OverlapLandsTwice | backend/app/files/uploads.py:168-184 | from any such overlap both may write all that is missing, and that many bytes land without cover |
| UploadEdges.OverlapIsReached | backend/app/files/uploads.py:155-166 | such an overlap is reached by a run from the empty state, for every size that can be granted |
| UploadEdges.ReapedWhileReceived | backend/app/files/routes.py:169-170 | from any two overlapping requests, once the first has ended and the stale time has passed a sweep takes the upload out while the second goes on receiving it |
| UploadEdges.ReapedFromStart | backend/app/cleanup/reaper.py:71-77 | for every size that can be granted, a run from the empty state that does so |
| UploadAlone.UndisturbedSweep | backend/app/cleanup/reaper.py:66-89 | from any reachable state, a sweep nothing disturbs leaves only uploads being written or fresh, takes exactly the stale uploads' reservations, so that the ledger's sum falls by just those, and touches no stored file |
| UploadAlone.SweepAlone | backend/app/cleanup/reaper.py:66-89 | from any point of an undisturbed sweep, in whatever order it takes rooms and uploads, the rest of it does exactly that |
| UploadAlone.CleanAlone | backend/app/cleanup/room.py:35-65 | an undisturbed cleanup that closes its room gives back exactly the reservations of the uploads it has still to abort |
| UploadAlone.CleanErases | backend/app/cleanup/room.py:42-47 | and marks each of them as aborted and deletes its part, whether or not the directory goes |
| UploadObject.UploadService.ResolveUpload | backend/app/files/uploads.py:70-80 | finds exactly the uploads that an open room lists |
| UploadObject.UploadService.AddUpload | backend/app/files/uploads.py:134-149 | registers the record in its room and in the index, as the machine's step does |
| UploadObject.UploadService.Advance | backend/app/files/uploads.py:176-179 | it is the machine's step after an append; every upload still resolves as before and a sound board stays sound |
| UploadObject.UploadService.AbortUpload | backend/app/files/uploads.py:224-230 | marks the upload aborted and takes it out of its room and the index, as the machine's step does |
| UploadObject.AbortIsIdempotent | backend/app/files/uploads.py:224-230 | aborting again, from any coroutine, changes nothing |
| UploadObject.UploadService.FinishUpload | backend/app/files/uploads.py:208-222 | records the file and takes the upload out of its room and the index |
| DiskObjects.ReservationLedger.ReservedBytes | backend/app/files/reservations.py:45-47 | the loop returns the sum of the reservations |
| DiskObjects.ReservationLedger.AvailableLocked | backend/app/files/reservations.py:58-60 | what the reading leaves after reservations and headroom, never negative |
| DiskObjects.ReservationLedger.Reserve | backend/app/files/reservations.py:58-74 | grants exactly what fits after reservations and headroom, in agreement with the machine's decision; after a grant reservations and headroom fit the reading |
| DiskObjects.ReservationLedger.ReleaseUpload | backend/app/files/reservations.py:76-79 | removes that reservation and no other, as the machine's step does |
| DiskObjects.ReservationLedger.ShrinkUpload | backend/app/files/reservations.py:81-87 | lowers that reservation to what remains, if there is one, as the machine's step does |
| DiskObjects.ReservationLedger.HeadroomBreached | backend/app/files/reservations.py:89-93 | true exactly when less than the headroom is free; the machine's step after a re-check aborts the upload exactly then, and goes on receiving otherwise |
| DiskObjects.Measure | backend/app/storage/fs.py:163-182 | the stack walk returns the total size of the regular files of the tree, and ends |
| DiskObjects.BudgetedDiskSpace.BytesUsed | backend/app/storage/fs.py:152-161 | the figure was measured less than the TTL ago, and is the one the machine's probe sees |
| DiskObjects.BudgetedDiskSpace.BytesAvailable | backend/app/storage/fs.py:147-150 | the smaller of real free space and what the budget leaves, never negative |
| CleanupObjects.SweepRoom | backend/app/cleanup/reaper.py:71-79 | in one room exactly the stale uploads go, with their reservations and parts, or some of them up to the first part that cannot be deleted |
| CleanupObjects.SweepOnce | backend/app/cleanup/reaper.py:66-89 | the sweep comes to its end if and only if every part to be deleted can be, and has then taken exactly the uploads an undisturbed sweep of the machine takes: what is left is being written or fresh, the ledger's sum has fallen by exactly what the removed uploads reserved, and they are counted; otherwise it ends in the first room with such a part and rooms after it are as they were; no stored file is touched |
| CleanupObjects.AbortAll | backend/app/cleanup/room.py:43-47 | it comes to its end if and only if every part can be deleted, and has then given back exactly the room's reservations; it never touches another room's files or reservations |
| CleanupObjects.CloseConnections | backend/app/cleanup/room.py:68-79 | exactly the open sockets of the room are closed, and exactly their users lose them |
| CleanupObjects.FileStore.RemoveRoom | backend/app/storage/fs.py:261-262 | removes only paths of the room: all of them and the directory, or some of them |
| CleanupObjects.DeleteVerified | backend/app/cleanup/room.py:81-103 | the directory is gone if one of four attempts works and stays otherwise, and no other room's files change |
| CleanupObjects.Clean | backend/app/cleanup/room.py:35-66 | the room ends closed and empty, its reservations given back as by the machine's cleanup and its open sockets closed, if and only if every part can be deleted, and otherwise stays as it was; nothing outside it changes, and run again after the directory is gone it changes nothing |
| RoomLifecycleProofs.StepOk | backend/app/rooms/instance.py:117-266 | every event keeps timers, phases, bindings, identities and partings consistent |
| RoomLifecycleProofs.JoinableInvariant | backend/app/rooms/instance.py:117-266 | in every joinable state: EMPTY_GRACE iff its timer is pending, then nobody is connected; ACTIVE and ever joined iff somebody is; CONNECTED iff a socket is bound; DISCONNECTED iff a removal is pending |
| RoomLifecycleProofs.RefusalChangesNothing | backend/app/rooms/instance.py:132-161 | a join refused because the room is full changes nothing, although the timer was cancelled first, and never happens in EMPTY_GRACE |
| RoomLifecycleProofs.FullGrace | backend/app/rooms/instance.py:227-252 | if a timer closes the room, nobody was connected at any earlier moment within the grace window |
| RoomLifecycleProofs.ClosedAfterGrace | backend/app/rooms/instance.py:227-252 | with timers that fire when due, a room that nobody has joined since it became empty waits for the grace from that moment and no longer |
| RoomLifecycleProofs.NeverJoined | backend/app/rooms/instance.py:66 | a room nobody joined stays active without a timer until it is closed by force |
| RoomLifecycleProofs.JoinMeans | backend/app/rooms/instance.py:132-173 | a token somebody in the room holds brings back that user with the client id and the token, full or not; any other join is a new user with the next client id, or is refused exactly if as many users as allowed are connected; nobody else changes |
| RoomLifecycleProofs.RefusedIffFull | backend/app/rooms/instance.py:160-161 | a socket gets no session from its join exactly if nobody holds its token and the room is full |
| RoomLifecycleProofs.JoinFindsRoomIntact | backend/app/rooms/instance.py:132-173 | an accepted join finds the files, uploads and documents last put into the room, whatever joins, departures and timers lie between, and the room had not passed the one-way door at any time |
| RoomLifecycleProofs.ClientIdsInOrder | backend/app/rooms/instance.py:163-173 | the next fresh join gets the number of users ever admitted plus one, and nobody's client id changes or is used again |
| RoomLifecycleProofs.TokenResumes | backend/app/rooms/instance.py:109-158 | a token brings back its user and client id exactly when the user neither left explicitly nor was taken out after the full reconnect grace |
| RoomLifecycleProofs.RetainedForGrace | backend/app/rooms/instance.py:199-211 | with timers that fire when due, a user without a socket is retained for the grace and no longer |
| RoomLifecycleProofs.ConnectedIffBoundSocketOpen | backend/app/rooms/instance.py:175-212 | in every run a user's socket is the one bound last and is open; while the room can be joined, a user is CONNECTED, through that socket, iff it has not been closed |
| RoomLifecycleProofs.StaleSocketInert | backend/app/ws/connection.py:345-377 | in every run, a close or leave leaves the room unchanged if and only if its user has another socket or is gone; while the room can be joined that is: is connected through another socket, or gone |
| RoomLifecycleProofs.ReplacedSocketCanRemove | backend/app/ws/connection.py:360-367 | a run in which a replaced socket removes its user during the reconnect grace |
| RoomLifecycleProofs.ReplacedSocketActsInClosing | backend/app/cleanup/room.py:68-79 | a run in which a cleanup takes the sockets and the late close of a replaced one marks its user disconnected and schedules a removal |
| SessionObject.Session.HandleJoin | backend/app/ws/connection.py:52-77 | a join that binds makes this socket the one of the holder of the token presented, with client id and token as before, or of a new user with the next client id if nobody holds it, in the room found first, or in the second one if the first had passed the door; it is refused exactly at capacity or if nobody holds the token and the first room is full; a second refusal and an acknowledgement that cannot be sent raise |
| SessionObject.Session.Leave | backend/app/ws/connection.py:345-377 | acts once, by an explicit removal or the reconnect grace, and not at all for a superseded socket |
| SessionObject.LeaveRoomIsTheStep | backend/app/ws/connection.py:345-377 | that is the step the lifecycle's runs take, also when the user is gone already |
| SessionObject.Session.Serve | backend/app/ws/routes.py:56-146 | the join the loop comes to is the first, with no disconnect, exception or 21st malformed frame before it; if accepted, exactly the binary frames and the messages other than joins and leaves are handled, in order, up to the first leave, disconnect, exception or 21st malformed frame; a join the room takes is accepted; however it ends the session has left |
| SessionObject.NothingWithoutJoin | backend/app/ws/routes.py:70-107 | however many frames arrive, none is handled without a join |
| RoomObject.RoomInstance.JoinRoom | backend/app/rooms/instance.py:117-173 | joins, resumes or refuses as the specification does, for the user the token finds, and as `JoinMeans` says in terms of users, tokens and who is connected |
| RoomObject.RoomInstance.FindByToken | backend/app/rooms/instance.py:109-115 | the loop finds a user with the token exactly if there is one |
| RoomObject.RoomInstance.MarkLost | backend/app/rooms/instance.py:175-212 | ignores a superseded socket, else detaches the user, schedules the removal and starts the empty grace if due |
| RoomObject.RoomInstance.Remove | backend/app/rooms/instance.py:214-221 | removes the user with their timer and starts the empty grace if due |
| RoomObject.RoomInstance.EmptyGraceElapsed | backend/app/rooms/instance.py:245-252 | moves to CLOSING from EMPTY_GRACE and from no other state |
| RoomObject.RoomInstance.MaybeStart | backend/app/rooms/instance.py:227-238 | arms the empty-grace timer exactly when an active room has nobody connected |
| RoomObject.RoomInstance.CancelEmptyGraceTimer | backend/app/rooms/instance.py:240-243 | the pending empty-grace timer, if any, is cancelled and forgotten |
| RoomObject.RoomInstance.CancelAll | backend/app/rooms/instance.py:261-266 | the loop cancels every timer the instance holds and no other |
| RelayProofs.StepOk | backend/app/ws/connection.py:246-287 | every event, the opening of a document at any time included, keeps: each operation an opened replica or the server holds is held, on its way or asked for on the other side of each open socket |
| RelayProofs.Converges | backend/app/ws/connection.py:169-187 | at rest every connected browser holds nothing the server lacks and, of a document it has opened whenever, lacks at most what died with a handler since it last synced |
| RelayProofs.ConvergesExactly | frontend/src/routes/useRoom.ts:109-162 | if no handler dies between applying and relaying, all connected replicas equal the server's at rest, after any disconnects, offline edits, resyncs and documents opened late |
| RelayProofs.ConvergesSinceSync | backend/app/ws/connection.py:246-287 | a connected replica equals the server's at rest if no handler died since its last SYNC_STEP1 was answered, whatever died before |
| RelayProofs.DeathDiverges | backend/app/ws/connection.py:272-287 | from any state at rest, an edit whose handler dies before relaying leaves every other replica without it |
| RelayProofs.NothingLost | backend/app/ws/connection.py:169-187 | in every reachable state and over every socket in use, each operation of the browser is on the server, on its way or about to be offered; each of the server's is, if the browser has opened the document, in its replica, on its way, still to be relayed, about to be asked for, or known to have died with a handler |
| RelayProofs.OnlyWhatIsMissing | backend/app/ws/connection.py:270-287 | an answer to a SYNC_STEP1 shares nothing with what the asker has and completes it, on either side; what is relayed is what the server gained since the frame arrived, to all connected users but its author |
| RelaySettles.HandlingEnds | backend/app/ws/connection.py:246-287 | while nobody edits, connects or opens a document, the number of handling steps is bounded by a measure of the queues and handlers, whatever is lost meanwhile |
| RelaySettles.SettlesInAgreement | backend/app/ws/connection.py:169-187 | after every run without a handler's death, handling what is pending leads to rest without dropping a connection, every opened replica then equals the server's, and that holds everything they held before |
| RelaySettles.OfflineEditArrives | frontend/src/routes/useRoom.ts:153-162 | after every run without a handler's death, what is typed offline into an opened document reaches, once the browser reconnects, the server and every opened replica with a connection |
| RelaySettles.ConnectedAreLive | backend/app/ws/connection.py:345-377 | in every run broadcasts are addressed only to sockets that have joined and whose session is running |
| RelayObject.Browser.HandleJoined | frontend/src/routes/useRoom.ts:136-178 | every replica is synced again and, if the document on show is not in the room any more, the first one is opened; for each document that is the relay's step, followed by its opening step for the one opened |
| RelayObject.Browser.EnsureDocument | frontend/src/routes/useRoom.ts:109-125 | nothing before the first acknowledged join; then a new replica starts its sync at once, which is the relay's opening step, and an existing one is left alone |
| RelayObject.Browser.HandleFrame | frontend/src/editor/collab.ts:156-184 | for each document the relay's step: an update is applied without an echo, a SYNC_STEP1 is answered with what the server lacks; unknown documents are ignored |
| RelayObject.Browser.Typed | frontend/src/editor/collab.ts:56-62 | a local edit is applied, and sent only on an open socket, as the relay's step does |
| Transfer.Upload.WriteChunk | backend/app/files/uploads.py:168-197 | all of the data or none of it is appended and the committed offset is the part's length; too much is refused exactly when the machine's step refuses it, and a breach deletes the part |
| Transfer.Upload.PutChunk | backend/app/files/routes.py:126-172 | the part grows by a prefix of the body; by all of it if the answer is a success; a wrong start is refused with the offset exactly when the machine lets no such request begin, and changes nothing; every intermediate content is a prefix; where writes do not fail a request that starts right succeeds unless it is cut |
| Transfer.Upload.Complete | backend/app/files/uploads.py:199-222 | stores the part if and only if it exists with the declared size and storage works; refuses with the part's size exactly if that differs, and as unknown exactly if the upload is not open |
| Transfer.SendChunk | frontend/src/files/upload.ts:54-85 | one request keeps the part a prefix of the file and the client's offset at most the committed one; success and 409 both move the offset on |
| Transfer.RunUpload | frontend/src/files/upload.ts:87-184 | the loop ends under any network; the part was always a prefix of the file; success means the stored file is the file. Where only the connection can fail it gives up exactly at five failures without a success between them, and else delivers every file of at least one byte: so whenever it always learns the offset and no five requests in a row fail, and never after five that do |
| Transfer.GivesUpOnResyncs | frontend/src/files/upload.ts:140-171 | a network on which no two requests in a row fail and every byte lands at the first attempt, and any file of five bytes or more is given up |
| Transfer.StreakBounds | frontend/src/files/upload.ts:140-171 | the failures counted are at most those since two neighbouring requests that did not fail, of which the second is a success |
| Transfer.OverlappingChunks | backend/app/files/uploads.py:155-206 | two requests that both pass the range check, then the rest of the file: the upload completes with the declared size, and what is stored is the file if and only if its second n bytes repeat its first |
| ContentRange.ParseExact | backend/app/files/routes.py:31 | a stripped header is parsed if and only if it has the form bytes first-last/total with a number or a star as total |
| ContentRange.CheckExact | backend/app/files/routes.py:31 | a header is read as a start exactly if, but for blanks around it, it is such a range with first at most last, beginning there |
| ContentRange.BrowserRangeIsRead | frontend/src/files/upload.ts:65 | the browser's header for a chunk of at least one byte is read as that chunk's start |
| RoomCodes.SomeCodeIsFree | backend/app/rooms/manager.py:64-83 | fewer rooms than codes leave a code free, whatever else the map holds |
| RoomCodes.RoomManager.AllocateCode | backend/app/rooms/manager.py:64-83 | for any draws the code is unused and between 1000 and 9999; it fails exactly at the cap, so the last raise cannot be reached |
| RoomCodes.RoomManager.Create | backend/app/rooms/manager.py:85-98 | binds one code to the new instance as the machine does, stays within the cap, and takes no code that was not asked for from another room |
| RoomCodes.RoomManager.GetOrCreate | backend/app/rooms/manager.py:100-112 | returns the joinable instance as it is, and creates exactly when there is none and the cap allows it |
| RoomCodes.RoomManager.BeginClosing | backend/app/rooms/manager.py:118-134 | drops the code unless it already leads to another instance, and no other code, as the machine does |
| Codec.UuidBytesRoundTrip | frontend/src/ws/protocol.ts:110-121 | sixteen bytes print to a canonical UUID that packs to the same bytes |
| Codec.UuidTextRoundTrip | frontend/src/ws/protocol.ts:110-121 | a UUID with digits of either case packs to sixteen bytes that print to its lower-case text |
| Codec.FrameRoundTrip | backend/app/collab/sync.py:39-50 | decoding an encoded frame gives the id in lower case and the payload, for every UUID and non-empty payload, and an empty one is refused; a frame is the byte 1, sixteen bytes and the payload |
| Codec.AcceptedFrameReencodes | backend/app/collab/sync.py:43-50 | every accepted frame is what its parts encode to |
| Codec.PackUuid | frontend/src/ws/protocol.ts:110-116 | the loop fills the array with the server's bytes |
| Codec.UnpackUuid | frontend/src/ws/protocol.ts:117-121 | the loop prints the server's text |
| Codec.PackFrame | frontend/src/ws/protocol.ts:123-129 | the browser's frame is the server's, byte for byte |
| Codec.UnpackFrame | frontend/src/ws/protocol.ts:131-137 | the browser accepts exactly the frames the server accepts and reads the same parts |

## Left out

- A measurement is one step of the machine with an arbitrary figure; that two measurements do not overlap (the cache's own lock) is built in. `DiskObjects.Measure` has the walk on a tree that does not change under it.
- The mid-transfer re-check reads free space and usage at one moment, where the code awaits twice.
- When the mid-transfer re-check falls due is left to the environment; the counter behind it is not modelled.
- Cancellation of coroutines at shutdown.
- The two storage calls of `commit_part` (sync, then rename) are one step that happens or fails, and `create_room_dirs` is one step.
- A room's users and documents do not change in the upload machine between its closing and the cleanup's clearing of them, and nothing is created in it afterwards.
- Writes by other programs to the same volume: the free-space figure is the volume's capacity less the modelled files.
- Caps on file size, files per room, bytes per room and uploads per user; none of them is an invariant, because they are read before an await.
- Broadcasts, presence and progress messages, awareness, names and colours; document creation and deletion, and the document lists of clients.
- The relay treats one document at a time as a set of operations; ordering, tie-breaks and undo belong to yjs and pycrdt, which are not part of this model.
- A socket that its browser has abandoned does not have its join processed later, and each browser tab is a user of its own.
- The upload's record is a value in a map in `UploadObject`, and a room's users are values in a map in `RoomObject`: aliasing of the objects is not captured.
- `UploadOutcomes` has each request alone, nothing else moving while it is under way; what holds under any interleaving is in the other modules.
- `UploadService.init`, `write_chunk` and `complete` in `UploadObject` are the segments between awaits; the awaits in between are the steps of `UploadMachine`.
- Transfer.RunUpload: one request at a time on the upload, as in the browser; storage appends are all or nothing. Backoff delays and progress callbacks are left out.
- A `Content-Range` header is Latin-1 text; the digits of other scripts that the pattern would accept cannot arrive in one.
- Codec.PackUuid: for strings of hexadecimal digits and hyphens; what `parseInt` makes of other text is not modelled.
- Random codes, identifiers and tokens are parameters or fresh values; clocks are event times; a cancelled timer never fires.
- The heartbeat, memory guard, storage feed, boot sweep, configuration loading, HTTP error bodies and downloads would only add short loops or easy members.
- The reconnect backoff and the status callbacks of `ws/client.ts`; its sockets appear as the queues of the relay.
- What a handled message other than a join or a leave does is outside `SessionObject`; a departed user is known there by identifier, not by the object the session still holds.
