# The job engine of the channel broker, in Dafny

The broker accepts jobs for sessions, keeps them in a table, hands them to the shim that speaks for
the session, and ends them: completed, failed, cancelled, expired or orphaned. The project models the
parts of it that have to agree with each other, and proves that they do:

- the **job table**, whose status changes are all compare-and-set (`JobRow`, `JobStore`);
- the **dispatcher**, which caches one busy mark per session and drains a session through a window of
  16 pending jobs (`DrainRules`, `DrainOutcome`, `Dispatcher`);
- the **job service**, which decides on transitions, publishes events and wakes the dispatcher (`JobService`);
- the **sweeper**, whose marks re-enter the dispatcher in the middle of its own loops (`SweepRules`, `Sweeper`);
- the **sessions and sockets**: who is attached, and which connection speaks for whom
  (`SessionRegistry`, `Routing`, `SocketServer`, `Framing`);
- the whole **broker**, wired as in the container (`Outcomes`, `Broker`), whose every stimulus is a run of **deeds**:
  queueing, attaching, ending, amending, rewiring (`Deeds`, `Exclusion`);
- the **shim's client**: pending calls and the bounded outbound queue (`ShimClient`).

## Two granularities

**A, atomic calls.** Every module except `Interleaving` lets each public call run to completion. The stateful
components are classes whose methods change their fields; what they promise is stated on plain values
(`World` is table, busy marks and routes together), and the lemmas of `DrainRules`, `DrainOutcome`, `Deeds`,
`Exclusion` and `SweepRules` say what follows. Since nothing runs in between here, a compare-and-set that follows
its own read cannot lose, and the branches for a lost race appear only in granularity B.

**B, interleaved steps.** `Interleaving` cuts every operation at each `await`; an operation keeps its stale
snapshot between steps, and any sequence of `Action`s at all is a run. A terminal transition is read,
compare-and-set, publish with the busy mark cleared, drain; a drain is scan, choose and claim, mark and send, and,
when the send throws, the catch branch as a step of its own.
Drains of one session queue on its chain, one runs at a time. A send may fail or succeed at any time.

## Main results

1. **Work conservation (A).** `Orderly` holds when the broker boots and after every stimulus: no attached session has a
   pending job it could be given. A session that is not busy has none pending; on a busy one every pending fire-and-forget
   job has at least 16 pending serial jobs not behind it, so the window ends before it. (`Broker.*`, `DrainIsOrderly`)
2. **No phantom block (A, unconditional).** Whenever a session is marked busy, one of its serial jobs is really in flight,
   also after failed sends. (`Safe` inside `Broker.Valid`)
3. **Serial exclusion, exactly (A).** README.md:408 of the repository promises one in-flight job per session. The code
   does not keep that promise unconditionally: `notifyDone` clears the mark whichever job ended, so cancelling a queued job
   lets the next one out beside the running one (`CancelBreaksExclusion`), and a session left unmarked with a job in flight
   lets the next one out at its next submission or attachment. `OneEachExactlyWhenNeverCrowded` says exactly when the
   promise holds, whatever the marks say and whether or not sends succeed: at every point of a run at most one serial job per
   session is in flight, if and only if no drain met an open, unmarked session with a serial job in flight and another
   next. `ExclusionSurvivesEndingExactly` and `ExclusionSurvivesSubmissionExactly` say it of one call, in terms of the
   world before it. A stronger property, that each session is marked just when it has a serial job in flight and never has
   two, has its own exact condition, that every job ends while no other serial job of its session is in
   flight (`InSyncExactlyWhenEndingAlone`). Every stimulus of the broker, sweeps included, is proved to be such a run.
4. **Routing (A).** Routes and bound connections are inverse to each other; a handshake keeps this
   exactly if its connection is live and not bound to another session; an attached session always has a live connection, so a
   drain's send cannot throw; no job message precedes `registered`.
5. **Sweeping (A).** A sweep is exactly one mark, and one event, for each job of the batch and then for each orphan. Every job of the batch expires although earlier marks may have dispatched it; the due
   jobs shrink by a batch; a due job with `r` rivals ends within `r / batch + 1` sweeps whatever else happens.
6. **One terminal winner, history, claim accounting, at-most-once dispatch (B).** Over all runs of the interleaved machine.
7. **Framing and tool calls.** Delivered lines do not depend on how the input was cut into chunks; every call ever issued has
   exactly one fate, and calls are written at most once and in issue order.

## Assumptions

- Time is an argument and never runs back; job ids and call ids are fresh; connection ids count up.
- A submission's lifetime is positive, as `src/broker/schemas.ts:25` and `config/schema.ts` demand (`Broker.Submit`).
- The dispatcher is started before any session attaches (`src/broker/broker.ts:60-76`); the gate is the registry's attached
  state, and every attachment is followed by a drain (`src/lib/container.ts:84-86`, `104-106`).
- `Orderly` survives handshakes under the shim's own discipline, one session per connection and none after
  the connection was displaced; the exact condition is part of `Broker.Attach`. Exclusion itself is characterised without it.
- Rows that tie in the order of a query come in any order.

A session's label is called `alias` here, since `label` is a Dafny keyword.

## Model

| member | source | states |
|---|---|---|
| JobRow.TransitionKeepsFaith | src/adapters/job-store/sqlite.ts:137-173 | a legal status change extends a legal history to a legal history, stamps agree with it, and the row's earlier life is a prefix of the new one |
| JobRow.PatchKeepsFaith | src/adapters/job-store/sqlite.ts:198-234 | appending notes never disturbs history, status or stamps |
| JobRow.ReplaceRow | src/adapters/job-store/sqlite.ts:175-191 | putting a faithful later version in place of a row keeps the whole table sound and each client_ref unique |
| JobRow.InsertRow | src/adapters/job-store/sqlite.ts:82-120 | a new row keeps the table sound and at most one job per session and client_ref, given the unique index accepted it |
| JobRow.HistoryClimbs | src/adapters/job-store/sqlite.ts:137-142 | along any history the life cycle climbs by at least one step per entry and times never decrease |
| JobRow.HistoryIsShort | src/broker/sweeper.ts:91-93 | no history has more than four entries; orphaned rows were dispatched; rows in flight always have dispatched_at, so the created_at fallback is dead |
| JobRow.EvolvesTransitive | src/adapters/job-store/sqlite.ts:131-196 | later versions of later versions are later versions: terminal rows frozen but for notes, histories only grow |
| JobStore.JobStore.Insert | src/adapters/job-store/sqlite.ts:82-120 | refused, changing nothing, exactly when the id or the session's client_ref is taken; otherwise one fresh pending row |
| JobStore.JobStore.TransitionStatus | src/adapters/job-store/sqlite.ts:122-196 | compare-and-set: succeeds exactly when the row exists with the expected status, and changes that row only; column by column, patched values are stored, others kept, the history grows by one entry and the stamps are set |
| JobStore.JobStore.PatchRow | src/adapters/job-store/sqlite.ts:198-234 | a missing row is an error and changes nothing; otherwise exactly the given columns of that row change |
| JobStore.JobStore.Select | src/adapters/job-store/sqlite.ts:304-328 | the bounded, ordered answer: distinct matching rows in order, and every matching row left out is no earlier than all rows returned, which then fill the limit |
| JobStore.JobStore.FindPending | src/adapters/job-store/sqlite.ts:316-328 | exactly the session's pending jobs, high before normal before low and older before younger; a job left out of a full page comes after all returned |
| JobStore.JobStore.FindExpired | src/adapters/job-store/sqlite.ts:304-314 | exactly the non-terminal due jobs, earliest expiry first; a job left out of a full page expires no earlier |
| JobStore.JobStore.ListInFlight | src/adapters/job-store/sqlite.ts:260-302 | exactly the dispatched and in-progress jobs, newest first, never more than 500; a job left out of a full list is no newer |
| JobStore.JobStore.FindByClientRef | src/adapters/job-store/sqlite.ts:243-258 | a newest job with that session and client_ref inside the window, or none exactly when there is none |
| JobStore.PageFacts | src/adapters/job-store/sqlite.ts:304-314 | what a bounded answer says about the jobs it leaves out |
| DrainRules.PickIsChoosable | src/adapters/job-dispatcher/inproc.ts:114-127 | the scan's choice is least among all pending jobs of an idle session, and on a busy one least among all its pending fire-and-forget jobs with fewer than 16 jobs ahead |
| DrainRules.NoPickSettles | src/adapters/job-dispatcher/inproc.ts:109-132 | finding nothing to send means the whole queue, not just the window, has nothing that may be sent |
| DrainRules.ClaimsAreSound | src/adapters/job-dispatcher/inproc.ts:107-145 | one drain claims distinct pending jobs of its own session, at most one of them serial, none if the session was busy |
| DrainRules.DrainKeepsNoPhantom | src/adapters/job-dispatcher/inproc.ts:145-162 | a drain never leaves a busy mark without a serial job in flight, whether its sends succeed or not |
| DrainRules.DrainConserves | src/adapters/job-dispatcher/inproc.ts:104-165 | a finished drain leaves its session settled and the other sessions as settled as they were |
| DrainRules.DrainKeepsSync | src/adapters/job-dispatcher/inproc.ts:104-165 | a drain keeps the busy marks exact and serial jobs exclusive |
| DrainRules.InFlightAfterDrain | src/adapters/job-dispatcher/inproc.ts:134-145 | a drain adds a serial job in flight exactly if it claimed one |
| DrainRules.EndingKeepsNoPhantom | src/adapters/job-dispatcher/inproc.ts:77-81 | clearing the mark when a job ends leaves no phantom block |
| DrainRules.SyncSurvivesEndingExactly | src/adapters/job-dispatcher/inproc.ts:77-81 | after a job ends and its session is drained, marks are exact and serial jobs exclusive if and only if no other serial job of the session was in flight |
| DrainOutcome.DrainKeepsOneExactly | src/adapters/job-dispatcher/inproc.ts:104-165 | whatever the marks say, a drain keeps at most one serial job in flight if and only if it did not meet an open, unmarked session with one in flight and a serial job next |
| DrainOutcome.UnroutedTakesHead | src/adapters/job-dispatcher/inproc.ts:147-163 | without a route a drain of an unmarked session takes exactly the head of its queue, so the caller can tell what is next |
| DrainOutcome.DrainServesInOrder | src/adapters/job-store/sqlite.ts:321-323 | every claim of a drain came first in line: high before normal before low, older before younger, among all waiting jobs while unmarked and among the fire-and-forget ones otherwise |
| DrainOutcome.DrainSendsExactly | src/adapters/job-dispatcher/inproc.ts:147-153 | what a drain wrote is one dispatch message per claim, in order, with the job's id and content, and its metadata plus job_id |
| DrainOutcome.DrainClaimsExactly | src/adapters/job-dispatcher/inproc.ts:134-140 | exactly the claimed rows changed, to dispatched at the time of the drain |
| DrainOutcome.DrainIsSafe | src/adapters/job-dispatcher/inproc.ts:104-165 | any drain, failed sends included, keeps the table sound, histories legal and no phantom block |
| DrainOutcome.DrainIsOrderly | src/adapters/job-dispatcher/inproc.ts:104-165 | a drain re-establishes work conservation for its session and keeps routing, gates and greetings in order |
| DrainOutcome.EndIsSafe | src/broker/job-service.ts:326-338 | ending a job legally and clearing its session's mark keeps table, histories and marks sound |
| DrainOutcome.EndStaysOrderly | src/broker/job-service.ts:326-338 | until the drain runs, only the ended job's own session can lack work conservation |
| Dispatcher.Dispatcher.Start | src/adapters/job-dispatcher/inproc.ts:54-64 | marks only sessions with a serial job in flight, and all of them when at most 500 jobs are in flight |
| Dispatcher.ShortListIsComplete | src/adapters/job-store/sqlite.ts:287-301 | a list not cut short by its limit holds every job in flight |
| Dispatcher.Dispatcher.Pick | src/adapters/job-dispatcher/inproc.ts:111-132 | the loop over the window finds a choosable job, or the session is settled |
| Dispatcher.Dispatcher.ClaimAndSend | src/adapters/job-dispatcher/inproc.ts:134-163 | claims exactly that job, stamped with the time, marks and sends its content, metadata and id; a failed send unmarks and ends the drain; the pending jobs strictly fall |
| Dispatcher.Dispatcher.DrainOnce | src/adapters/job-dispatcher/inproc.ts:104-165 | terminates; each claim came first in line by priority and age among those it competed with; exactly the claimed rows change, to dispatched at that time; exactly one message per claim, with its content, metadata and id, is appended to the session's connection in claim order; it stops only settled or unsendable; a closed gate claims nothing |
| Dispatcher.NextClaim | src/adapters/job-dispatcher/inproc.ts:134-163 | one more right claim extends the drain, or ends it when there is no route |
| Dispatcher.Dispatcher.Stop | src/adapters/job-dispatcher/inproc.ts:66-70 | not running and no marks |
| Dispatcher.Dispatcher.NotifyDone | src/adapters/job-dispatcher/inproc.ts:77-81 | the mark goes whichever job was done, then the session is drained |
| Dispatcher.Dispatcher.NotifyPending | src/adapters/job-dispatcher/inproc.ts:72-75 | one drain of the session, marks untouched otherwise |
| Dispatcher.Dispatcher.NotifySessionAttached | src/adapters/job-dispatcher/inproc.ts:83-86 | one drain of the newly attached session |
| JobService.TrimFindsText | src/broker/job-service.ts:78-80 | trimming content leaves nothing exactly when it is all space |
| JobService.Validate | src/broker/job-service.ts:77-98 | the checks in order accept exactly the submissions with content, one addressee and well-formed metadata keys |
| JobService.JobService.Earlier | src/broker/job-service.ts:118-126 | a client_ref is looked up in its session and window only, and found exactly when it was seen there |
| JobService.JobService.Store | src/broker/job-service.ts:128-145 | a new row is refused exactly when its id or client_ref is taken; otherwise every column is as submitted or defaulted, and it stays so but for the dispatch that may follow |
| JobService.JobService.Resolve | src/broker/job-service.ts:100-114 | the given session, or the first attached one with the label in registration order; refused exactly when no attached session has it |
| JobService.JobService.Submit | src/broker/job-service.ts:77-146 | for the given or the labelled session alike: a client_ref seen inside the window is answered with its job and leaves store, events and dispatcher unchanged; otherwise one row, every column as submitted or defaulted, expiring 1000 ms per second of its lifetime later, one event, one drain; every refusal changes nothing |
| JobService.JobService.TransitionToTerminal | src/broker/job-service.ts:309-340 | missing or terminal jobs are reported and change nothing; otherwise one transition whose row stays as it was written, one event carrying that row, one cleared mark, one drain |
| JobService.JobService.Cancel | src/broker/job-service.ts:164-168 | what is done and what the caller is told, in all three cases |
| JobService.JobService.Complete | src/broker/job-service.ts:171-180 | the given result, or else the old one, is stored, returned and published; error and notes stay; refused for missing and terminal jobs |
| JobService.JobService.Fail | src/broker/job-service.ts:183-192 | the given error, or else the old one, is stored, returned and published; result and notes stay; refused for missing and terminal jobs |
| JobService.JobService.MarkExpired | src/broker/job-service.ts:274-279 | ends the job as expired with the error ttl_elapsed stored and published, silently doing nothing for missing or terminal jobs |
| JobService.JobService.MarkOrphaned | src/broker/job-service.ts:282-287 | ends the job as orphaned with the error session_unreachable stored and published, silently doing nothing for missing or terminal jobs |
| JobService.JobService.NoteProgress | src/broker/job-service.ts:195-235 | exactly the new note is appended, to a live job only, and a dispatched one moves to in_progress |
| JobService.JobService.Ack | src/broker/job-service.ts:238-252 | moves dispatched to in_progress; in any other state returns the row and publishes nothing |
| JobService.JobService.AddComment | src/broker/job-service.ts:255-271 | exactly the marked comment is appended to a live job, and nothing else of it changes |
| JobService.EndedColumns | src/broker/job-service.ts:326-338 | the drain that follows an ending leaves the ended row as its transition wrote it |
| JobService.EndOutcomeIsSafe | src/broker/job-service.ts:309-340 | every way of ending a job keeps table, histories and marks sound, drain included |
| JobService.EndOutcomeIsOrderly | src/broker/job-service.ts:337-339 | ending a job re-establishes work conservation for every open session |
| JobService.EndOutcomeKeepsSyncExactly | src/broker/job-service.ts:337-339 | the caller can tell beforehand whether ending a job keeps one serial job per session: if and only if no other is in flight |
| JobService.SubmitIsSafe | src/broker/job-service.ts:116-145 | a submission keeps table, histories, client_refs and marks sound and adds exactly one job |
| JobService.SubmitIsOrderly | src/broker/job-service.ts:142-145 | a submission re-establishes work conservation for every open session |
| JobService.SubmitKeepsSync | src/broker/job-service.ts:142-145 | a submission keeps the marks exact and serial jobs exclusive |
| JobService.NoteIsQuiet | src/broker/job-service.ts:195-271 | notes and comments disturb no queue, no mark and no route |
| Deeds.ActedThen | src/lib/container.ts:77-106 | two stretches of the broker's work make one run, with the events of both in order |
| Deeds.SubmissionIsDeed | src/broker/job-service.ts:142-145 | a queued submission is exactly one deed and publishes exactly its event |
| Deeds.EndingIsDeed | src/broker/job-service.ts:315-339 | trying to end a job is one deed with one event, or none at all |
| Deeds.AmendingIsDeed | src/broker/job-service.ts:195-271 | a note, comment or acknowledgement is one deed with one event, or none at all |
| Deeds.AttachingIsDeed | src/broker/socket-server.ts:271-292 | a handshake is a rewiring and one drain of the session it attached, without an event |
| Outcomes.ToolIsTraced | src/broker/tool-router.ts:24-61 | every tool call is a run of deeds, publishes exactly their events, and meets no failing send in an orderly broker |
| Outcomes.MessageIsTraced | src/broker/socket-server.ts:192-237 | so is every message of a shim, handshakes under the discipline |
| Exclusion.DeedKeepsOneEachExactly | src/adapters/job-dispatcher/inproc.ts:72-165 | each deed keeps at most one serial job per session in flight if and only if its drain did not meet a crowded session |
| Exclusion.OneEachExactlyWhenNeverCrowded | README.md:408 | the promise over any run, failed sends included: at most one serial job per session in flight at every point, if and only if no drain met a crowded session |
| Exclusion.ExclusionSurvivesEndingExactly | src/adapters/job-dispatcher/inproc.ts:77-81 | one serial job in flight survives the end of a job if and only if no other was in flight or none was waiting, whatever the marks say |
| Exclusion.ExclusionSurvivesSubmissionExactly | src/adapters/job-dispatcher/inproc.ts:72-75 | it survives a submission if and only if the session is marked, or has no serial job in flight, or has none to send |
| Exclusion.DeedKeepsSyncExactly | src/adapters/job-dispatcher/inproc.ts:72-165 | exact marks with exclusion survive a deed if and only if it is not the end of a job beside another serial job in flight |
| Exclusion.InSyncExactlyWhenEndingAlone | src/adapters/job-dispatcher/inproc.ts:40-41 | over any run with routed sessions, marks are exact and serial jobs exclusive at every point if and only if every job ended alone |
| Exclusion.CancelLetsNextOut | src/adapters/job-dispatcher/inproc.ts:77-81 | cancelling a queued job beside a running one dispatches the next one beside it |
| Exclusion.CancelBreaksExclusion | README.md:408 | a concrete sound, orderly, exclusive broker and a cancellation that leaves two serial jobs in flight |
| SweepRules.BatchReducesDue | src/broker/sweeper.ts:76-81 | ending the first page of due jobs leaves at most the excess over one batch due |
| SweepRules.SweepMakesProgress | src/broker/sweeper.ts:76-81 | a due job that survives a sweep has at least a batch fewer rivals |
| SweepRules.OthersAddNoRivals | src/broker/job-service.ts:128-141 | nothing else adds a rival to a due job, since new jobs expire later |
| SweepRules.RivalsWearOff | src/adapters/job-store/sqlite.ts:304-314 | over any life of the broker, a due job has ended or lost a batch of rivals per sweep |
| SweepRules.DueJobsEnd | src/broker/sweeper.ts:76-81 | no starvation: a due job with r rivals is terminal after r / batch + 1 sweeps, whatever is submitted meanwhile |
| Sweeper.MarkEndsOne | src/broker/job-service.ts:337-339 | one mark ends exactly its job although its drain may claim others |
| Sweeper.Sweeper.ExpireBatch | src/broker/sweeper.ts:76-81 | exactly the batch ends, all of it expired, although each mark re-enters the dispatcher |
| Sweeper.Sweeper.OrphanBatch | src/broker/sweeper.ts:83-97 | exactly the listed jobs of missing or detached sessions past the grace are orphaned, and all such jobs when the list was not cut |
| Sweeper.BothPhases | src/broker/sweeper.ts:71-97 | the two phases together: exactly the batch expired, exactly the unreachable ones orphaned, none early, none on an attached session |
| Sweeper.SweepShrinksDue | src/broker/sweeper.ts:78-81 | at most max(0, due - batch) jobs stay due after a whole sweep, and every due job is nearer to its end |
| Sweeper.TwoMarkRuns | src/broker/sweeper.ts:76-97 | the marks of both phases are one run of exactly one ending per swept job, with exactly their events |
| Sweeper.SweepStaysRouted | src/broker/sweeper.ts:76-97 | marks disturb no route, so no send of a sweep fails if the open sessions were routed |
| Sweeper.Sweeper.Tick | src/broker/sweeper.ts:71-101 | exactly the sessions silent past the timeout are evicted first; then the above, as a run of one mark and one event per swept job; safety and work conservation hold at the end |
| SessionRegistry.SessionRegistry.Register | src/broker/session-registry.ts:39-67 | attaches; given fields, metadata included, override and missing ones are kept; a new session joins last in order |
| SessionRegistry.SessionRegistry.Detach | src/broker/session-registry.ts:69-77 | detaches exactly an attached session and nothing else |
| SessionRegistry.SessionRegistry.Heartbeat | src/broker/session-registry.ts:84-89 | is noted, and never re-attaches anyone |
| SessionRegistry.SessionRegistry.FindByLabel | src/broker/session-registry.ts:96-101 | the first attached session with that label in registration order, or none exactly when there is none |
| SessionRegistry.SessionRegistry.EvictStale | src/broker/session-registry.ts:112-129 | exactly the attached sessions whose last heartbeat is older than the timeout lose attachment and transport and are returned; nothing else about any session changes |
| Routing.HandshakeKeepsBijectionExactly | src/broker/socket-server.ts:239-292 | a handshake keeps routes and bindings mutually inverse if and only if its connection is live and not bound to another session |
| Routing.CloseKeepsBijection | src/broker/socket-server.ts:180-190 | closing keeps them inverse, closing twice or late changes nothing, other sessions keep their route |
| Routing.DisplacedCloseIsHarmless | src/broker/socket-server.ts:180-190 | end and close events of a displaced connection neither detach the session nor drop the new route |
| Routing.HandshakeKeepsGreeted | src/broker/socket-server.ts:285-291 | a connection is bound only together with its acknowledgement, and no job message precedes one |
| Routing.RoutedWriteKeeps | src/broker/socket-server.ts:105-138 | job messages sent along a route follow that connection's acknowledgement |
| SocketServer.SocketServer.HandleConnection | src/broker/socket-server.ts:141-150 | a fresh, unbound, live connection |
| SocketServer.SocketServer.Send | src/broker/socket-server.ts:105-111 | fails exactly when no live connection serves the session, and then writes nothing |
| SocketServer.SocketServer.OnData | src/broker/socket-server.ts:164-178 | the loop delivers what the framing says for buffer plus chunk, and keeps the rest |
| SocketServer.SocketServer.BindConnection | src/broker/socket-server.ts:276-285 | the newest handshake owns the session and the one it displaces is ended and forgotten |
| SocketServer.SocketServer.AttachSession | src/broker/socket-server.ts:271-292 | binds, registers and acknowledges: exactly this session's gate opens, and its handle gets the given fields |
| SocketServer.SocketServer.OnClose | src/broker/socket-server.ts:180-190 | detaches exactly the session the connection still owns |
| Broker.EndKeeps | src/broker/job-service.ts:309-340 | each client-driven end keeps safety, order and sweep progress, and exclusion exactly when nothing else is in flight |
| Broker.SubmitKeeps | src/broker/job-service.ts:128-145 | each submission keeps safety, order, exact marks and sweep progress |
| Broker.AttachKeeps | src/lib/container.ts:104-106 | a permitted handshake with its drain leaves one more session open, routed and settled |
| Broker.Broker.constructor | src/broker/broker.ts:60-76 | from any sound persisted table the broker boots safe and orderly, with exact marks when at most 500 jobs are in flight |
| Broker.Broker.Submit | src/broker/job-service.ts:77-146 | at the whole broker: safety, order, exact marks, idempotency, when a submission for a given or labelled session is queued, repeated or refused, and every column of what is stored |
| Broker.Broker.Cancel | src/broker/http-server.ts:298-308 | cancels as the service says, column by column, then tells the session's shim if it has one; exact marks kept exactly when nothing else is in flight |
| Broker.Broker.Comment | src/broker/http-server.ts:311-319 | notes as the service says, then tells the shim |
| Broker.Broker.DetachSession | src/broker/http-server.ts:146-150 | closes the gate without touching the route |
| Broker.Broker.Accept | src/broker/socket-server.ts:141-162 | a new connection disturbs nothing |
| Broker.Broker.Data | src/broker/socket-server.ts:164-178 | received text disturbs nothing until its lines are handled |
| Broker.Broker.Close | src/broker/socket-server.ts:180-190 | any order and number of end and close events keeps the broker safe and orderly |
| Broker.Broker.Attach | src/broker/socket-server.ts:271-292 | the handshake and drain of one connection; order and exact marks survive it under the discipline, and the bijection fails without it |
| Broker.Broker.HandleRegister | src/broker/socket-server.ts:239-252 | a second register on a bound connection is refused and changes nothing but the reply |
| Broker.Broker.RejectVersion | src/broker/socket-server.ts:210-218 | a foreign protocol version is answered and hung up on, nothing else |
| Broker.Broker.HandleHeartbeat | src/broker/socket-server.ts:226-228 | only the bound session's time of last contact changes, nothing for an unbound connection, and no gate moves |
| Broker.Broker.RunTool | src/broker/tool-router.ts:24-61 | each tool does what its service call says, and fails exactly when that refuses |
| Broker.Broker.HandleToolCall | src/broker/socket-server.ts:294-313 | unregistered connections are refused without effect; every call is answered on its own connection |
| Broker.Broker.HandleMessage | src/broker/socket-server.ts:192-237 | the whole effect of any message on table, marks, routes, session handles and events, as a run of deeds; order survives everything but an undisciplined handshake |
| Broker.Broker.Sweep | src/broker/sweeper.ts:71-101 | a sweep of the whole broker is a run of its marks with their events, keeps it safe and orderly, makes the progress that rules out starvation, and keeps exclusion and exact marks exactly under the run's conditions |
| Interleaving.StepEvolves | src/adapters/job-store/sqlite.ts:131-196 | no step of any interleaving breaks a history, a client_ref or a row that has ended |
| Interleaving.StepKeepsTable | src/broker/job-service.ts:195-340 | every stale snapshot still belongs to an existing row of the right session |
| Interleaving.FirstSendableIsFirst | src/adapters/job-dispatcher/inproc.ts:116-127 | the loop passes over serial jobs of a busy session and nothing else |
| Interleaving.WinnerStores | src/broker/job-service.ts:164-192 | the operation that wins the compare-and-set stores just its own result or error |
| Interleaving.NotesAreWritten | src/broker/job-service.ts:195-271 | a note or comment is appended to the notes as they were read, and written just so whether or not the bump wins |
| Interleaving.AnnouncingWakes | src/broker/job-service.ts:337-339 | a submission or an ending queues one drain of its session, and only an ending clears its mark |
| Interleaving.SendsMark | src/adapters/job-dispatcher/inproc.ts:145-153 | a send marks the session exactly for serial jobs, and goes to the wire exactly if it does not throw |
| Interleaving.FailedSendsUnmark | src/adapters/job-dispatcher/inproc.ts:154-163 | a failed send of a serial job takes the mark away and ends the drain, and touches no other session |
| Interleaving.StepMovesTokens | src/broker/job-service.ts:326-338 | each ended job is spoken for exactly once, by a published event or by the one operation about to publish it |
| Interleaving.StepKeepsAccount | src/adapters/job-dispatcher/inproc.ts:92-161 | per session, serial claims plus the initial mark equal effective clears plus the present mark plus a claim not yet marked |
| Interleaving.StepKeepsLedger | src/adapters/job-dispatcher/inproc.ts:134-163 | claims are unique, and each was sent, dropped by a failed send, or is still held by its drain |
| Interleaving.RunKeepsInv | src/broker/job-service.ts:195-340 | all of these at every state of every run from any sound persisted table |
| Interleaving.RunEvolves | src/adapters/job-store/sqlite.ts:131-196 | between any two points of a run every row is a later version of itself |
| Interleaving.OneEndingPerJob | src/broker/job-service.ts:326-338 | one terminal winner: at most one terminal event and one notifyDone per job, the event carries the row stored ever after but for notes, and an ended job lacks its event only while its winner is about to publish |
| Interleaving.EndedRowsAreFrozen | src/broker/job-service.ts:224-232 | once ended, a row never changes again except for progress notes |
| Interleaving.SerialClaimsNeedClears | src/adapters/job-dispatcher/inproc.ts:116-161 | between any two points of a run a session gets at most one serial claim more than effective clears of its mark |
| Interleaving.SentAtMostOnce | src/adapters/job-dispatcher/inproc.ts:134-163 | over a whole run each job is sent at most once, to its own session, after its own claim; each claim has exactly one fate |
| Interleaving.HistoryIsTheRun | src/adapters/job-store/sqlite.ts:137-173 | every history is linked, climbing, at most four long and agrees with the stamps; expiry is never early and no pending job is orphaned |
| Framing.SplitAccounts | src/broker/socket-server.ts:164-178 | lines and residue account for all input, and neither contains a newline |
| Framing.SplitIsUnique | src/broker/socket-server.ts:164-178 | there is only one way to cut a text into newline-free lines and a newline-free rest |
| Framing.FeedIgnoresChunking | src/broker/socket-server.ts:164-178 | however a text is cut into chunks, the same lines are delivered and the same rest kept |
| Framing.FramingInvertsEncoding | src/broker/wire.ts:105-111 | any chunking of encoded messages yields exactly those messages and an empty buffer |
| Framing.TakeLines | src/shim/broker-client.ts:251-258 | the buffer-consuming loop of both ends yields the non-empty lines in order and leaves the residue |
| ShimClient.BrokerClient.CallTool | src/shim/broker-client.ts:97-128 | online the call is written at once; offline it is queued, and if the queue was full exactly its oldest call is dropped, and rejected if still pending; all calls stay accounted for |
| ShimClient.BrokerClient.Send | src/shim/broker-client.ts:222-241 | online everything is written at once; offline calls are queued and every other message is dropped |
| ShimClient.BrokerClient.Enqueue | src/shim/broker-client.ts:228-240 | the queue never exceeds its limit and keeps the newest calls in order; exactly those pushed out are rejected |
| ShimClient.BrokerClient.SendControl | src/shim/broker-client.ts:222-241 | register, reconnect and heartbeat messages touch no call |
| ShimClient.BrokerClient.Timeout | src/shim/broker-client.ts:111-114 | an unsettled call times out once and is never settled otherwise |
| ShimClient.BrokerClient.ToolResult | src/shim/broker-client.ts:264-271 | settles its call if pending and is ignored otherwise |
| ShimClient.BrokerClient.Close | src/shim/broker-client.ts:131-144 | every pending call is rejected and none is left |
| ShimClient.BrokerClient.OnConnect | src/shim/broker-client.ts:151-158 | the whole queue is written in issue order and is empty while online |
| ShimClient.BrokerClient.OnData | src/shim/broker-client.ts:251-258 | delivers what the framing says for buffer plus chunk |
| ShimClient.IssueNext | src/shim/broker-client.ts:102-127 | a fresh call comes after everything written or queued so far |
| ShimClient.DropFirst | src/shim/broker-client.ts:230-239 | dropping the oldest queued message loses no call and disturbs no order |
| ShimClient.OrderIsDistinct | src/shim/broker-client.ts:222-249 | no call is written or queued twice |
| ShimClient.FatesAddUp | src/shim/broker-client.ts:97-144 | the calls issued are exactly the pending, resolved, timed-out, overflowed and closed ones, each counted once |

## Left out

- The HTTP server's routing, validation and authentication, the CLI, install and update, the spawn helper, the MCP server, logging, configuration and the migrations runner: plumbing around the engine.
- The Postgres and BullMQ adapters: stubs that only throw.
- The SQLite engine: a table is a map, a query is a bounded ordered selection from it, a statement is atomic.
- JSON and sockets: an encoded message is an abstract non-empty line without a newline, a parsed one a datatype; what was written is a sequence. Error texts are abstracted to whether there is one.
- Timestamps are milliseconds throughout; their ISO form in histories and notes is not modelled.
- JobStore.JobStore.ListInFlight: only the filter the dispatcher and the sweeper use; session, since, offset and total are left out.
- JobStore.JobStore.TransitionStatus: patches only the columns the service ever patches (result, error, notes), and so does JobStore.JobStore.PatchRow.
- Connections and session handles are values in maps under their ids, so aliasing of those objects is not modelled; a displaced connection's record stays in the map as its object stays reachable from its socket.
- JobService.JobService.Submit: the job id is an argument, and in granularity A nothing runs between its query and its insert.
- Sweeper.Sweeper.Tick: one reading of the clock serves the whole tick; starting and stopping its timer is left out.
- Broker.Broker.HandleMessage: an empty session id, which the code treats as not registered, does not occur; nor does the bookkeeping of running tool calls.
- Broker.Broker.RunTool: an unknown tool and a missing job_id are one case; a note_progress call always carries a text.
- Dispatcher.Dispatcher.Stop: starting again in the same process is not modelled, since it forgets the chains; a restart is a new broker over the old table.
- Removing a session, the event iterators and the session audit store.
- The shim's reconnect timers, backoff, heartbeat timer and handshake acknowledgements.
- Not promised because the code does not do it: fire-and-forget jobs never waiting (16 serial jobs ahead hide them from the window, against the comment at `src/adapters/job-dispatcher/inproc.ts:23-27`); orphaning everything beyond one batch, since the list is newest-first; no progress note lost when two operations read before either writes; queued tool calls succeeding after a reconnect, as they are flushed before the handshake; a heartbeat re-attaching an evicted session; a client_ref reused after its window, which the unique index refuses.
