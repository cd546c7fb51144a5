# A verified model of the shared terminal's concurrency and crash protocols

The backend is one process over two stores it cannot trust: Cloudflare D1 over HTTP, where every statement is
atomic but nothing spans two of them, and the Docker daemon. It is single-threaded JavaScript, so a stretch of code
without an `await` runs undisturbed and anything may happen at an `await`. A crash wipes the process's memory and
keeps the disk. The model says exactly that: an `await` ends a step, the steps of all callers interleave freely, and
a crash or a failed statement may come at any point.

Most modules come in two layers. A specification gives the state as values and every step as a function, and its
lemmas are about all runs of those steps, of any length. A class gives the code: the source's mutable fields, methods
with its branches and loops, and a contract that ties the new fields to the specification's step. Where a routine is a
sequence of awaited calls against a store that others change meanwhile (image pins, registration, uploads, port
mappings), the method runs those others between its statements and is proved under every such interference. Its
parameter `calm` says that they do nothing, and `sound` that no statement errs; with both its contract is exact.

- `LifecycleLock`, `SessionLifecycleLock`: the per-session FIFO lock with timeouts.
- `AttemptRecord`, `RecreateAttempt`: the durable record of a container recreation, its strict parser, and the store
  with its transitions and boot recovery. `RecreationGate` puts store, disk, crashes and lock together for one session.
- `DockerFrames`, `SentinelFilters`: Docker's multiplexed stream (Docker Engine API, "Stream format" under container
  attach), demultiplexed in one go and incrementally, and the filters that take a wrapper's first line off a stream.
- `SharedExec`: attach, detach, resize and fan-out of a tab's shared terminal exec.
- `Uploads`: the promise-chained upload lock and the quota it guards.
- `DispatchCache`: the dispatcher's port cache with its epoch counter and time limit.
- `ImagePins`: pins on the images of session containers, and the part of a spawn that relies on them.
- `Migrations`: the ledger of schema migrations, with a failure possible at every statement.
- `UsernameLimiter`: the login limiter's two maps.
- `GitParsers`, `GitStatus`: git's NUL-separated formats (git-status, "Porcelain Format Version 2"; git-diff, `--raw -z`
  and `--numstat -z`), and where a repository lies in the workspace.
- `Invites`: registration against invite codes. `BoundedTail`: the bootstrap logs.
- `Wrappers`, `Decimals`, `Sets`: shared vocabulary.

Where a promise fails, the code is modelled as it is, the failure is shown, and the property is proved with the
condition under which it does hold:

- A hard delete can start on a record that retains a container, exactly when its second read of the record fails
  (`HardDeleteStarts`), and then purges the record that names the container (`HardDeleteOrphans`).
- The outcomes of a session are kept until a hard delete purges its record (`SettledExactly`). The session can outlive
  that, when a later step of the delete fails (`HardDeletePurges`); a crash may bring the record back
  (`CrashUndoesPurge`).
- A store transition that overlaps another of the same session can undo it; `OverlapLosesExactly` says which pairs lose
  what, and `StaleMarkUndoesResolve` shows one. The engine serialises them, and the model assumes so.
- A clear of the port mappings whose DELETE took effect but reported an error breaks coherence unless nothing that is
  cached, or read and about to be, differs from the table (`ThrownClearIsHarmless`, `ThrownClearLeavesStalePorts`);
  out-of-band SQL does on the same condition (`OutOfBandIsHarmless`). Nothing else does (`CacheIsCoherent`).
- A file that vanishes while the upload directory is scanned ends the scan. A call then exceeds the quota exactly when
  the bytes not counted exceed what its files leave of it (`VanishedFileOvershoots`, `OvershootsExactly`), and the quota
  is exceeded in no other way (`QuotaHolds`, `BlindCallOvershoots`).
- A client whose tab's slot is empty or has changed hands when it detaches stays among its exec's listeners for good
  (`LeavesExactly`, `LeftListening`).
- `protectImage` loses an image exactly when pins were moved by hand in a chain of two (`ProtectLosesOnlyChained`,
  `ChainLosesItsEnd`).
- The index of `invite_codes` is missing after a completed migration exactly when it began with the table in its new
  shape, the baseline recorded and no index, which a crash inside the rebuild leaves (`MigrateDb`, `RebuildWindow`).
- An old database whose table lacks a column that an index or the promotion of an administrator needs never completes
  its migration; any other without old-shape invite rows does (`MigrateDb`, `OldSessionsBlock`).
- An account loses its invite code exactly when its INSERT took effect but reported an error and the release then took
  effect (`LosesItsCodeExactly`, `MisreportedInsertFreesTheCode`); and a release can exceed the minting quota
  (`ReleaseMayExceedQuota`, `QuotaIsExceeded`).
- The root reported for a repository names git's top level exactly when the prefix is no longer than the directory;
  otherwise the top level is above the workspace (`RootNamesTheTopLevel`, `TopLevelAboveTheWorkspace`), as for a
  repository in the workspace whose `core.worktree` is the home directory; discovery alone stops at the workspace.

## Model

| member | source | states |
|---|---|---|
| LifecycleLock.OneHolderPerSession | backend/src/sessionLifecycleLock.ts:111-181 | in every run of acquires, timeouts and releases a session has at most one holder, and the map holds exactly the held sessions |
| LifecycleLock.WaitersAreInTheMap | backend/src/sessionLifecycleLock.ts:149-167 | every waiter sits in the queue of the entry now in the map, behind a holder that arrived before it |
| LifecycleLock.EmptyWhenIdle | backend/src/sessionLifecycleLock.ts:169-181 | once nobody holds a lock the map is empty and every call has settled |
| LifecycleLock.EarlierCallersSettled | backend/src/sessionLifecycleLock.ts:139-181 | when a call holds the lock, every earlier call of its session has been granted and finished, or refused |
| LifecycleLock.ReleaseGrantsTheEarliest | backend/src/sessionLifecycleLock.ts:169-181 | in every run, a release grants the lock to a call if and only if it is the earliest arrival still waiting, and drops the entry if and only if nobody waits |
| LifecycleLock.GrantsFollowArrival | backend/src/sessionLifecycleLock.ts:139-181 | of two callers of a session that both get the lock, the earlier gets it first |
| LifecycleLock.StepsAnswer | backend/src/sessionLifecycleLock.ts:139-181 | a caller gets the lock exactly when nobody has it, and otherwise is refused or joins the end of the queue as it asked; a timeout refuses its caller alone; a release ends the holder's call |
| LifecycleLock.SettledForGood | backend/src/sessionLifecycleLock.ts:149-167 | a waiter settles once: what a call has become it stays, except that a holder finishes |
| SessionLifecycleLocks.SessionLifecycleLock.Acquire | backend/src/sessionLifecycleLock.ts:139-167 | the entry, queue and timer after an acquire stand for the abstract lock after it; the caller gets the lock, is refused with the holder's operation, or waits with a timer armed |
| SessionLifecycleLocks.SessionLifecycleLock.TimerFires | backend/src/sessionLifecycleLock.ts:158-164 | an armed timer takes its own waiter, and no other, out of the queue of the entry now in the map and refuses it with the present holder |
| SessionLifecycleLocks.SessionLifecycleLock.Release | backend/src/sessionLifecycleLock.ts:169-181 | the first waiter becomes holder and its timer is cleared, or the entry goes |
| AttemptRecord.RecordRoundTrip | backend/src/recreateAttempt.ts:233-298 | every well-formed record is accepted by the strict parser as written, and read back unchanged |
| AttemptRecord.RecordFaithful | backend/src/recreateAttempt.ts:166-298 | the parser accepts nothing but what some well-formed record of that session is written as: no unknown key, no part in a state that does not allow it |
| RecreateAttempt.ReadableExactly | backend/src/recreateAttempt.ts:328-343 | a record file that can be opened is readable exactly when it holds what a well-formed record of that session is written as, and only a file that is not there counts as no record |
| RecreateAttempt.SessionIdsAre | backend/src/recreateAttempt.ts:147 | a session id is groups of 8, 4, 4, 4 and 12 lower-case hex digits joined by hyphens, and nothing else |
| RecreateAttempt.SessionIdsSplit | backend/src/recreateAttempt.ts:147 | every session id is of that form |
| RecreateAttempt.ReadsOwnFile | backend/src/recreateAttempt.ts:324-343 | a read looks at its own session's file, and fails for an id of another shape |
| RecreateAttempt.Accepted | backend/src/recreateAttempt.ts:384-579 | for each transition, the conditions on the record and the owner under which it is not refused, both directions |
| RecreateAttempt.OutcomesAre | backend/src/recreateAttempt.ts:586-606 | the outcomes of a record are its own once resolved and those its history names |
| RecreateAttempt.BeginSucceeds | backend/src/recreateAttempt.ts:384-431 | a begin that is not refused writes a well-formed open record for a new attempt that retains nothing, with the attempts it lists after it, newest first, and no outcome lost |
| RecreateAttempt.MarkSucceeds | backend/src/recreateAttempt.ts:432-453 | a mark writes a well-formed uncertain record of the same open attempt and changes no outcome |
| RecreateAttempt.ResolveSucceeds | backend/src/recreateAttempt.ts:454-499 | a resolve needs an attempt this process owns, writes a well-formed record, adds exactly this attempt's outcome, retains the container it names or, naming none, the one retained before, and changes nothing else of the attempt |
| RecreateAttempt.ResolveRetains | backend/src/recreateAttempt.ts:454-640 | the record of a resolve that names a container reads back resolved and retaining it, so it passes the gate and stops a hard delete that can read it |
| RecreateAttempt.AdoptSucceeds | backend/src/recreateAttempt.ts:500-525 | an adopt takes over an unresolved attempt, leaves it uncertain, orphaned and recovered, and changes no outcome |
| RecreateAttempt.ApproveSucceeds | backend/src/recreateAttempt.ts:526-543 | an approve drops the retained container of a resolved record and changes no outcome |
| RecreateAttempt.RecoverSucceeds | backend/src/recreateAttempt.ts:544-579 | boot recovery writes a well-formed uncertain record of the unresolved attempt and changes no outcome |
| RecreateAttempt.RecreateAttemptStore.Write | backend/src/recreateAttempt.ts:653-681 | a write that fails before the rename shows nothing, one that fails after it shows the record but does not keep it through a crash, and one that succeeds does both |
| RecreateAttempt.FatesOf | backend/src/recreateAttempt.ts:653-681 | what each fate of a write leaves visible, durable and reported, for its session, and that no other session's file changes |
| RecreateAttempt.RecreateAttemptStore.AssertResolvedAndNotRetained | backend/src/recreateAttempt.ts:349-377 | passes exactly when the first read finds no record or a resolved one, and the second does not find a retained container |
| RecreateAttempt.RecreateAttemptStore.Begin | backend/src/recreateAttempt.ts:384-431 | the attempt is owned as soon as it is not refused, even when its write then fails |
| RecreateAttempt.RecreateAttemptStore.Resolve | backend/src/recreateAttempt.ts:454-499 | ownership ends only when the write landed |
| RecreateAttempt.RecreateAttemptStore.Adopt | backend/src/recreateAttempt.ts:500-525 | ownership begins only when the write landed |
| RecreateAttempt.RecreateAttemptStore.RecoverOnBoot | backend/src/recreateAttempt.ts:544-579 | every session's file is recovered whatever becomes of the others' writes, and the two lists name exactly the unresolved and the unreadable sessions |
| RecreateAttempt.RecoveredExactly | backend/src/recreateAttempt.ts:544-579 | recovery rewrites the readable, unresolved and unmarked files only, as uncertain and orphaned, and a crash keeps that when the write landed |
| RecreationGate.GateHolds | backend/src/index.ts:154-158 | in every run with crashes and failing writes, while the body of an operation other than create, recreate and recreate-resolve runs, the session's record is absent or resolved |
| RecreationGate.HardDeleteHolds | backend/src/recreateAttempt.ts:371-377 | a hard delete whose second read succeeded never runs while a container is retained |
| RecreationGate.HardDeleteStarts | backend/src/recreateAttempt.ts:371-377 | a hard delete that passed the first read starts if and only if no container is retained or the second read fails |
| RecreationGate.HardDeleteOrphans | backend/src/recreateAttempt.ts:371-377 | such a run from every process that boots over a resolved record that retains a container: the delete's second read fails, and it purges the record that names the container |
| RecreationGate.RetainedUntilApproved | backend/src/recreateAttempt.ts:371-640 | in every run, once a resolve that names a container has returned, and until an approval, another attempt or a blind purge, the record retains a container on both disks and no hard delete that can read it starts or runs |
| RecreationGate.RefusedHandsOver | backend/src/sessionLifecycleLock.ts:117-127 | a refused guard runs no body; the release hands the lock to the first waiter, who meets the guard in turn, or empties the entry |
| RecreationGate.CallsPossible | backend/src/recreateAttempt.ts:384-579 | on which records each store call goes ahead, both directions |
| RecreationGate.GuardDecides | backend/src/index.ts:154-158 | a body runs exactly when its operation is exempt, or the record lets it and for a hard delete the second read too |
| RecreationGate.OwnershipMoves | backend/src/recreateAttempt.ts:384-525 | a begin owns its attempt from its call, an adopt from its return, a resolve gives it up with its return, a crash wipes all, and nothing else changes who owns an attempt of the session |
| RecreationGate.LockFollows | backend/src/sessionLifecycleLock.ts:117-181 | arrivals, timeouts and releases are those of the lock, and a release lets the next body in |
| RecreationGate.DiskFollows | backend/src/recreateAttempt.ts:653-681 | a failed write changes neither disk, a synced one is durable, and a crash keeps what is durable and nothing of the process |
| RecreationGate.OnlyOwnersResolve | backend/src/recreateAttempt.ts:454-525 | in every run an outcome appears on the visible disk only by the rename of a resolve in a process run that began or adopted that attempt since its boot, by a crash that brings a purged record back, or by a write that a purge overtook |
| RecreationGate.FirstToldByOwner | backend/src/recreateAttempt.ts:454-525 | the first time an outcome is on the visible disk in a run, an owner's resolve put it there |
| RecreationGate.EarnedByThisProcess | backend/src/recreateAttempt.ts:500-525 | of the attempts a session has had, this process run comes to own one only when its adopt has returned |
| RecreationGate.SettledExactly | backend/src/recreateAttempt.ts:454-499 | in every run, once a resolve has returned, its outcome is on the visible and on the durable disk if and only if the purges, flushes, crashes and renames since say so, and the attempt is not listed where it is not |
| RecreationGate.SettledUnlessPurged | backend/src/recreateAttempt.ts:454-499 | with no purge since, it is on both, through every later step and crash |
| RecreationGate.HardDeletePurges | backend/src/routes/sessions.ts:781-810 | after every run at rest on a resolved record that retains nothing, a hard delete can purge the record and stop before its last step, which leaves no outcome on either disk |
| RecreationGate.CrashUndoesPurge | backend/src/dockerManager.ts:1569-1587 | a crash before the removal is flushed brings the record back |
| RecreationGate.LegibleForever | backend/src/recreateAttempt.ts:328-343 | no reachable step makes the session's own record unreadable |
| RecreationGate.ListedOnce | backend/src/recreateAttempt.ts:598-606 | current record and history list each attempt once |
| RecreationGate.NewestFirst | backend/src/recreateAttempt.ts:384-606 | in every run with crashes, whatever record is visible, durable or being written lists each attempt once, and before an attempt begun in the run only such as were begun after it |
| RecreationGate.OverlapLosesExactly | backend/src/recreateAttempt.ts:384-579 | of two transitions that read the same record, the second to write loses an attempt or an outcome of the first exactly when the first began an attempt that the second does not, or resolved an unresolved one to an outcome that the second does not |
| RecreationGate.StaleMarkUndoesResolve | backend/src/recreateAttempt.ts:432-499 | for one, a mark planned before a resolve and written after it takes the outcome away and closes the gate again |
| DockerFrames.DemuxUndoesFraming | backend/src/dockerManager.ts:4298-4334 | splitting any framed list of payloads returns it, whatever incomplete frame follows |
| DockerFrames.FramesAppend | backend/src/dockerManager.ts:1955-1974 | the frames of a stream are those of its first part followed by those of the remainder and the second part, wherever it is cut |
| DockerFrames.DemuxDockerOutput | backend/src/dockerManager.ts:4298-4334 | the one-shot loop returns the payload of every whole frame of the requested types, in order |
| DockerFrames.StreamExec | backend/src/dockerManager.ts:1955-1974 | for every chunking the stdout and stderr frames are handed on one by one, and joined they are what the one-shot demultiplexer returns |
| DockerFrames.ExecCapture | backend/src/dockerManager.ts:3741-3787 | for every chunking stdout is its first maxBytes, truncated says whether there was more, and stderr is the first 64 KiB of what the frames before the cut carry, all frames when there is none |
| SentinelFilters.FilterExec | backend/src/dockerManager.ts:1919-1995 | for every chunking the output is the input, or the input without a first line that is the sentinel, whose group is reported once; a first line of at most 256 characters is removed exactly when it is one |
| SentinelFilters.ExecLineReports | backend/src/dockerManager.ts:1919-1950 | the prefix and a decimal number are a sentinel line that reports that number, whatever follows |
| SentinelFilters.ExecLineIs | backend/src/dockerManager.ts:1919-1950 | and nothing else is one |
| SentinelFilters.TmuxFilter.OnText | backend/src/dockerManager.ts:2805-2842 | never more than the sentinel prefix and 16 characters are held back |
| SentinelFilters.FilterTmux | backend/src/dockerManager.ts:2805-2867 | for every chunking, input that does not start with the sentinel passes unchanged, and a line that does, with at most 16 characters behind the prefix, is removed whether or not its pid can be read |
| SentinelFilters.TmuxLineReports | backend/src/dockerManager.ts:2805-2842 | a client line with a pid of two or more is taken off and reports that pid, with or without a carriage return |
| SentinelFilters.PidIsDigits | backend/src/dockerManager.ts:2805-2842 | only one to nine digits, with or without a carriage return, are read as a pid, and 0 and 1 are not |
| SharedExec.TornStaysDown | backend/src/dockerManager.ts:2617-2654 | an exec a detach took down has no listeners and is not in the slot, then and ever after |
| SharedExec.RegistersOnTheSlotExec | backend/src/dockerManager.ts:2417-2450 | an attach that passes the second look at the slot listens to the live exec in the slot, the third it acquired at most |
| SharedExec.ReplayThenEveryChunk | backend/src/dockerManager.ts:2432-2510 | in every run, while a client listens it has been sent the text of the captured screen, if there was one, and then every chunk the exec's stream delivered since it registered, in order; before the screen nothing; after it left, a prefix of that |
| SharedExec.CaptureEnds | backend/src/dockerManager.ts:2417-2458 | a captured pane registers its client exactly when its exec still holds the slot; otherwise the client acquires the slot's exec or a new one, and gives up after the third |
| SharedExec.FlushSends | backend/src/dockerManager.ts:2479-2498 | the flush sends the screen and what was kept behind it, and disarms the listener |
| SharedExec.GivesUpAfterThree | backend/src/dockerManager.ts:2417-2427 | an attach gives up only after three different execs, none of them in the slot any more |
| SharedExec.LeavesExactly | backend/src/dockerManager.ts:2617-2654 | in every run, a client that detaches listens nowhere afterwards exactly when the slot then held the exec it had registered on and that detach has finished; otherwise it listens on for good |
| SharedExec.LeftListening | backend/src/dockerManager.ts:2617-2625 | a run in which a client whose tab's slot was dropped detaches and listens on |
| SharedExec.DetachedLeavesExactly | backend/src/dockerManager.ts:2623-2653 | a detach that finishes leaves a listening client listening nowhere exactly when it finishes on the client's own exec |
| SharedExec.StopsListening | backend/src/dockerManager.ts:2623-2653 | nothing but the end of its detach from that exec stops a registered client listening, and nothing makes it listen again |
| SharedExec.DetachStarts | backend/src/dockerManager.ts:2617-2622 | a detach drops the route at once and waits for the exec in the slot |
| SharedExec.DetachEnds | backend/src/dockerManager.ts:2623-2653 | its end removes the client and its size from that exec, tears it down and vacates its slot exactly when nobody else listens, and touches no other exec |
| SharedExec.SlotsVacate | backend/src/dockerManager.ts:2274-2321 | a failed spawn vacates its own slot only |
| SharedExec.PaneFitsItsClients | backend/src/dockerManager.ts:3885-3897 | the applied size is always the smallest of the sizes of the exec's clients, and only listeners have one |
| SharedExec.SizesAreAsked | backend/src/dockerManager.ts:2446-2615 | in every run, a listening client counts with the size it last asked for, when it attached or by a resize since it registered |
| SharedExec.ObserversHaveNoSize | backend/src/dockerManager.ts:2446-2456 | an attach made to observe has no size on any exec for the rest of the run |
| SharedExec.RecomputeSize | backend/src/dockerManager.ts:3885-3897 | the loop applies the smallest columns and the smallest rows, each on its own, and nothing when there is no client |
| SharedExec.TabExecs.Attach | backend/src/dockerManager.ts:2274-2321 | joins the exec in the slot or spawns one, and keeps the invariant |
| SharedExec.TabExecs.PaneCaptured | backend/src/dockerManager.ts:2417-2458 | registers on the slot's exec with an armed listener, tries again, or gives up at the third try, and keeps the invariant |
| SharedExec.TabExecs.OnData | backend/src/dockerManager.ts:2788-2797 | every listener hears the chunk once: kept while armed, passed on otherwise |
| SharedExec.TabExecs.FlushTail | backend/src/dockerManager.ts:2479-2498 | the tail is drained behind the screen in order, and only then is the listener disarmed |
| SharedExec.TabExecs.FinishDetach | backend/src/dockerManager.ts:2623-2653 | the last listener to leave takes the exec down and empties the slot if it still holds it; otherwise the others' size is applied |
| Uploads.OneWriterAtATime | backend/src/dockerManager.ts:1165-1202 | at most one writeUploadsImpl runs, in order of arrival, and the lock map is empty exactly when every call has finished |
| Uploads.OldestMayRun | backend/src/dockerManager.ts:1176-1191 | the oldest unfinished call never waits: the chain of promises before it has resolved |
| Uploads.PlacedAre | backend/src/dockerManager.ts:1288-1330 | files moved to names that differ are there under those names with their sizes, and nothing else changes |
| Uploads.OvershootsExactly | backend/src/dockerManager.ts:1260-1335 | for every directory and every call at its check: it is let through and its files, moved in, exceed the quota exactly when what was counted leaves room for them and the directory does not |
| Uploads.QuotaHolds | backend/src/dockerManager.ts:1260-1335 | the directory stays within the quota at every step, through mid-loop failures, removals and restarts, unless a call was let through on a count below what the directory holds, with its files over the quota |
| Uploads.BlindCallOvershoots | backend/src/dockerManager.ts:1260-1335 | in every run, a call that passes its check and moves all its files undisturbed leaves the directory over the quota if and only if it was let through so |
| Uploads.QuotaHoldsUncut | backend/src/dockerManager.ts:1260-1269 | no call is, while no entry vanishes between the listing and its lstat, and the quota holds in every such run |
| Uploads.VanishedFileOvershoots | backend/src/dockerManager.ts:1260-1281 | for every directory, a scan ended by a removed entry admits the call exactly when what it counted before leaves room, and the call overshoots exactly when the bytes it did not count exceed what its files leave of the quota |
| Uploads.OvershootHappens | backend/src/dockerManager.ts:1260-1269 | a run in which that happens |
| Uploads.UploadStore.Write | backend/src/dockerManager.ts:1254-1335 | with removals and arrivals of other calls at every await, a call is refused only over the quota, stores all its files, none, or after a failure the first few, keeps the quota unless its scan was cut, and releases the lock to those who queued up meanwhile; undisturbed and without failures it stores everything exactly when directory and files are within the quota |
| DispatchCache.CacheIsCoherent | backend/src/portMappings.ts:97-307 | while a session's rows change only through writers that invalidate, a cached entry's ports and public flags are the table's whenever no writer has changed them and not invalidated since |
| DispatchCache.CoherentBetweenWriters | backend/src/portMappings.ts:158-225 | in particular whenever no writer of the session is under way |
| DispatchCache.ServedDataIsFresh | backend/src/portMappings.ts:241-307 | in every run, what a hit serves was read from the table less than 30 000 ms before |
| DispatchCache.ServedDataIsJoined | backend/src/portMappings.ts:273-306 | and it is the ports the session had rows for then, each with its row's flag, under the container name and owner of the session row the query joined |
| DispatchCache.HitTellsTheTable | backend/src/portMappings.ts:241-250 | while changes are announced and none is under way, a hit has a port exactly when the table has it, with the table's flag |
| DispatchCache.CachedExactly | backend/src/portMappings.ts:296-303 | rows that come back are served for 30 000 ms from the start of their lookup if there are any and the epoch has not moved, and otherwise not |
| DispatchCache.MissForgets | backend/src/portMappings.ts:245-262 | a lookup not answered from the cache drops the session's entry, no other, and notes the epoch |
| DispatchCache.WriterExecutes | backend/src/portMappings.ts:158-225 | the DELETE empties the session's rows, an INSERT adds its mapping, and other sessions keep theirs |
| DispatchCache.InsertedIs | backend/src/portMappings.ts:166-187 | the rows inserted are the mappings, the last of each port |
| DispatchCache.ThrownClearIsHarmless | backend/src/portMappings.ts:221-225 | a clear that throws after its DELETE took effect, with no other writer's changes to announce, keeps the cache coherent if and only if the cached entry and what every lookup in flight would still cache are what the table now holds |
| DispatchCache.ThrownClearIsHarmlessExactly | backend/src/portMappings.ts:221-307 | with the rows still gone that is: no entry is cached, and every lookup in flight that holds rows read before the epoch last moved |
| DispatchCache.EntriesAreNotEmpty | backend/src/portMappings.ts:283-307 | in every run only answers with ports are cached |
| DispatchCache.LostInvariantShows | backend/src/portMappings.ts:241-307 | in a state without unannounced changes, the invariant fails exactly when the cache is incoherent at once or becomes so when some lookup in flight finishes: losing it is doing harm |
| DispatchCache.OutOfBandIsHarmless | backend/src/portMappings.ts:60-70 | rows written by other means keep the cache coherent if and only if they are what is cached and what lookups in flight would cache |
| DispatchCache.OvertakenClearIsHarmful | backend/src/portMappings.ts:221-307 | a lookup that reads between the first invalidation of a clear and its DELETE makes the clear one that does harm if it throws |
| DispatchCache.ThrownClearLeavesStalePorts | backend/src/portMappings.ts:221-225 | from any state, such a clear ends with the deleted ports in the cache for as long as the time limit lasts |
| DispatchCache.PortMappings.LookUp | backend/src/portMappings.ts:245-265 | answers from an entry in date, with the target of the port or none, drops an entry that is not, and otherwise notes the epoch before the query |
| DispatchCache.PortMappings.RowsArrived | backend/src/portMappings.ts:283-307 | caches the rows unless there are none or the epoch moved, and answers either way: a target exactly when a row has the port, and then that row's |
| DispatchCache.PortMappings.SetPortMappings | backend/src/portMappings.ts:158-187 | with lookups and other writers at every await, and statements that may err with or without effect: wherever it stops the cache is coherent, the session has no entry and both invalidations were made; undisturbed, the rows are the old ones or the first few new ones and other sessions' rows are untouched; without errors as well it succeeds exactly when no port is given twice, and the rows are the mappings |
| DispatchCache.PortMappings.ClearPortMappings | backend/src/portMappings.ts:221-225 | with others at every await: after a success, and after an error without effect, the cache is coherent; undisturbed, the rows are gone exactly when the DELETE took effect, and an error skips the second invalidation; without errors it succeeds |
| ImagePins.PinnedImageLives | backend/src/imagePins.ts:292-317 | an image whose pin names it exists in every later state, whatever is rebuilt, removed or pinned |
| ImagePins.UnpinnedImageMayGo | backend/src/imagePins.ts:151-153 | an image whose only tag is rebuilt is lost |
| ImagePins.UntaggedImageMayGo | backend/src/imagePins.ts:151-153 | so is one whose only tag is removed, and with another tag it stays |
| ImagePins.RebuiltNameMoves | backend/src/imagePins.ts:151-153 | a rebuild moves its name to the image it made |
| ImagePins.ProtectIsIdempotent | backend/src/imagePins.ts:141-168 | after a successful protection a second one reports already and changes nothing |
| ImagePins.ProtectLosesOnlyChained | backend/src/imagePins.ts:141-168 | on its own, protection loses an image exactly when the pin was moved to an image whose own pin was moved to the last tag of a third, and then it loses that one |
| ImagePins.ChainLosesItsEnd | backend/src/imagePins.ts:141-168 | for any three images, such a chain of pins, on which protection loses the third |
| ImagePins.DisplacedKeepsItsPin | backend/src/imagePins.ts:151-157 | when a pin is moved back, the image it is taken from already has its own |
| ImagePins.Docker.ProtectImage | backend/src/imagePins.ts:141-168 | with others at every await, success means the pin is good and a displaced image's pin is good; left alone it does what the specification of the sequence says |
| ImagePins.Docker.EnsurePinned | backend/src/imagePins.ts:301-317 | with others at every await, an id it returns is the one the reference named when it looked and has a good pin, and none is returned exactly when it named none or the protection failed |
| ImagePins.Docker.VerifyCreated | backend/src/imagePins.ts:320-335 | success means the container is there, runs exactly that image and, with pins on, its pin is good; left alone, exactly then |
| ImagePins.Docker.Spawn | backend/src/dockerManager.ts:720-802 | a container it creates and keeps runs the image its reference named when it looked, and with pins on that image has a good pin; one that fails the check is not recorded and is gone unless its removal erred, one D1 does not record is gone likewise, no other container is removed, and images of earlier spawns keep their pins; undisturbed, it starts when image, daemon and D1 let it, and an adopted container's image is pinned if it exists |
| ImagePins.Docker.PinSessionImages | backend/src/imagePins.ts:194-213 | every image of a session container ends in exactly one list, those reported pinned or already have good pins at the end, and one whose pin was good from the start is reported already; undisturbed, each is reported as what protecting it at its turn does, none fails and only images that are gone are missing |
| ImagePins.Docker.Evaluate | backend/src/imagePins.ts:467-545 | with others at every await, GO means pins are on, the exceptions are readable and every session container's image has a good pin at the end or is excepted by its exact pair, and all those pins good from the start give GO; left alone, GO exactly when every session container's image is known and pinned, or missing and excepted |
| Migrations.Database.MigrateDb | backend/src/db.ts:832-868 | a boot, stopped anywhere, changes neither the tables, declarations and administrators the database will end with nor the number of rows; one that completes has every version in the ledger and exactly those; without failures it completes exactly when invite_codes holds no old-shape rows and no statement still to be run needs a column its table lacks; the index of invite_codes is missing afterwards exactly when it began with the baseline recorded, the new shape and no index |
| Migrations.OldSessionsBlock | backend/src/db.ts:268-269 | a database that never completes: a sessions table without user_id or status |
| Migrations.PromotesTheEarliest | backend/src/db.ts:581-600 | the promotion sets one flag, the earliest account's, exactly when there are accounts and no administrator; then there is one, and running it again changes nothing |
| Migrations.PlainHasNone | backend/src/db.ts:500-507 | a flag column that is new makes nobody an administrator |
| Migrations.UpgradeIsFresh | backend/src/db.ts:221-820 | a table from whatever release, with the columns no migration adds, ends with the columns and declarations of one created today |
| Migrations.AddAgrees | backend/src/db.ts:221-820 | a column that is both in a CREATE TABLE and added by a migration is declared alike in both |
| Migrations.AddedAre | backend/src/db.ts:221-820 | the full list of the columns that migrations add to each table |
| Migrations.Database.Boots | backend/src/db.ts:832-868 | after any number of interrupted boots, a completed one leaves the tables, columns and declarations of a crash-free run from the first database, and a last boot without failures completes exactly when the first database allows it |
| Migrations.Database.RebuildInvites | backend/src/db.ts:610-660 | invite_codes with a column code and none for its hash is refused when it has rows, which are then all kept, and rebuilt in today's shape with its index when it is empty or missing; any other is left alone |
| Migrations.LedgerFullMeansFinal | backend/src/db.ts:221-820 | with every version in the ledger every table exists with the columns its history and the migrations give it |
| Migrations.CanRun | backend/src/db.ts:221-820 | with the earlier versions in the ledger, a statement of the next one meets an SQL error exactly when a table it finds lacks the columns its index or update names |
| Migrations.DropKeeps | backend/src/db.ts:618-643 | the rebuild's DROP, of a missing or empty table, loses no row and changes nothing of where the database is going |
| Migrations.RebuildWindow | backend/src/db.ts:643-657 | a crash between the rebuild's CREATE TABLE and CREATE INDEX leaves the state from which the index stays missing |
| UsernameLimiter.LockoutBound | backend/src/rateLimit.ts:501-607 | for every username, unexpired failures and attempts with open outcome together never exceed max, across expiry, reset and eviction |
| UsernameLimiter.MaxFailuresLockOut | backend/src/rateLimit.ts:501-603 | in every run, from the failure that opens a username's window until it ends, and unless it is reset or evicted, exactly the failures recorded count, and once they are max every attempt is refused |
| UsernameLimiter.VerdictExactly | backend/src/rateLimit.ts:509-569 | in every run, an attempt is let through exactly when failures in the window and open attempts are below max and its username is tracked or there is room to track it |
| UsernameLimiter.RecordCounts | backend/src/rateLimit.ts:581-603 | a failure adds exactly one to what counts against its username |
| UsernameLimiter.ResetForgets | backend/src/rateLimit.ts:605-612 | a reset forgets the failures of its username and no others |
| UsernameLimiter.SweptForgets | backend/src/rateLimit.ts:509-520 | a check forgets exactly a window of its username that is over |
| UsernameLimiter.TimePasses | backend/src/rateLimit.ts:509-520 | time alone ends windows and changes nothing else |
| UsernameLimiter.TrackedBound | backend/src/rateLimit.ts:530-569 | the union of the two maps' usernames never exceeds maxTracked |
| UsernameLimiter.InsertionOrderIsExpiryOrder | backend/src/rateLimit.ts:581-603 | the map of failures has one entry a username, at most maxTracked, in the order in which windows end |
| UsernameLimiter.EvictsTheSoonestEnding | backend/src/rateLimit.ts:593-601 | making room drops expired entries and, only if that is not enough, the one whose window ends soonest |
| UsernameLimiter.ExpiredComeFirst | backend/src/rateLimit.ts:620-624 | the expired entries are a run at the front of the map |
| UsernameLimiter.SlotsAreOpenAttempts | backend/src/rateLimit.ts:530-578 | the in-flight count of a username is the number of its open attempts, and it has no key without one |
| UsernameLimiter.RetryAfterIsExact | backend/src/rateLimit.ts:509-520 | a full bucket refuses until its window ends, and the advised seconds are the fewest after which it lets through |
| UsernameLimiter.UsernameRateLimiter.BeginAttempt | backend/src/rateLimit.ts:501-569 | check, cap and reservation, with the expired entry of the username dropped first |
| UsernameLimiter.UsernameRateLimiter.RecordFailure | backend/src/rateLimit.ts:581-603 | counts within a window, opens a new one at the end of the order otherwise |
| UsernameLimiter.UsernameRateLimiter.EvictExpired | backend/src/rateLimit.ts:620-624 | deleting while iterating leaves exactly the unexpired entries, in order |
| GitParsers.SplitNulRecords | backend/src/gitReadOnly.ts:249-258 | the records are those that end in NUL, and an unterminated one is dropped from truncated output only |
| GitParsers.CutRecords | backend/src/gitReadOnly.ts:249-258 | cutting printed records anywhere and splitting what is left gives the first few of them |
| GitParsers.SplitFields | backend/src/gitReadOnly.ts:405-415 | the first n space-separated fields and the remainder, or nothing when there are fewer |
| GitParsers.SplitUndoesSpaced | backend/src/gitReadOnly.ts:405-415 | splitting undoes joining, whatever spaces the remainder holds |
| GitParsers.ParseRawZ | backend/src/gitReadOnly.ts:494-518 | the loop with its two-record lookahead computes the entries of the format |
| GitParsers.RawRoundTrip | backend/src/gitReadOnly.ts:494-518 | parsing the printed form of any entries returns them, whatever their paths look like |
| GitParsers.RawTextCut | backend/src/gitReadOnly.ts:494-518 | cut at any character, the text parses to the first few entries exactly |
| GitParsers.ParseNumstat | backend/src/gitReadOnly.ts:266-286 | the loop computes the counts by new path, a later entry replacing an earlier one |
| GitParsers.CountedTextCut | backend/src/gitReadOnly.ts:266-286 | whole or cut at any character, the text parses to the counts of the first few entries exactly |
| GitStatus.ParsePorcelainV2 | backend/src/gitReadOnly.ts:316-388 | the loop computes branch information and changes, a rename taking the next record along |
| GitStatus.StatusRoundTrip | backend/src/gitReadOnly.ts:316-402 | parsing any printed status returns it, even when a rename's old path looks like a record header |
| GitStatus.ListedAre | backend/src/gitReadOnly.ts:390-402 | for two letters, the changes listed are the staged one with the first letter and the old path and the unstaged one with the second and none, in that order, each unless its letter is a dot |
| GitStatus.StatusTextCut | backend/src/gitReadOnly.ts:316-402 | cut at any character, it parses to its first few lines, except that a last rename may lose its old path |
| GitStatus.InfoRoundTrip | backend/src/gitReadOnly.ts:346-362 | the branch fields are what the printed headers say, numbers included |
| GitStatus.RootNamesTheTopLevel | backend/src/gitReadOnly.ts:544-652 | when the location check passes, the reported root is git's top level if and only if the prefix is no longer than the directory and its slash |
| GitStatus.TopLevelAboveTheWorkspace | backend/src/gitReadOnly.ts:544-652 | the failing side: every repository whose top level is the directory above the workspace passes the check from the workspace, and the workspace is reported as its root |
| GitStatus.HomeAboveTheWorkspace | backend/src/gitReadOnly.ts:544-652 | as with a core.worktree of /home/developer, which the ceiling on discovery does not keep out |
| Invites.EveryAccountHasItsOwnCode | backend/src/auth.ts:117-228 | under any interleaving and any erring statement, at most one account came without an invite, usernames differ, and every account that did not lose its code has it marked with its id and shares it with no such other |
| Invites.LosesItsCodeExactly | backend/src/auth.ts:182-213 | in every run, an account by invite is without its code exactly when its INSERT took effect and reported an error and its release then took effect |
| Invites.CodeIsSpentForGood | backend/src/auth.ts:166-228 | in every run, once a registration by invite has succeeded its code is never released, revoked or given to another |
| Invites.ClaimsExactly | backend/src/auth.ts:165-176 | a claim goes through exactly when the code is there, unused, and has no date or one to come; refused, it changes no code |
| Invites.FirstAccountOnly | backend/src/auth.ts:125-153 | without a code an account comes about only as the first of all, an administrator |
| Invites.ClaimantsAccount | backend/src/auth.ts:182-189 | with a claimed code it comes about exactly when nobody has the username, and is no administrator |
| Invites.ErringCodes | backend/src/auth.ts:166-213 | an erring claim or release does to the codes what its effect does, and the registration ends refused |
| Invites.CodesRevoked | backend/src/auth.ts:353-358 | a revocation takes away an unused code and no other |
| Invites.UsedCodeStays | backend/src/auth.ts:353-358 | a code marked with an id stays so through every statement but that registration's own release |
| Invites.MisreportedInsertFreesTheCode | backend/src/auth.ts:182-213 | an INSERT that took effect and reported an error is followed by a release that frees the code of an account |
| Invites.ReleaseFreesExactly | backend/src/auth.ts:189-197 | a release always frees the code, leaves an account without one exactly when the registration has an account by then, and the code can be redeemed again exactly when it is in date |
| Invites.MintKeepsQuota | backend/src/auth.ts:300-324 | minting never takes an account over its quota of outstanding codes |
| Invites.MintsExactly | backend/src/auth.ts:300-324 | a code is minted exactly when its creator has fewer than twenty unused ones in date |
| Invites.ReleaseMayExceedQuota | backend/src/auth.ts:189-197 | a release exceeds the quota exactly when the creator's other outstanding codes fill it and the code is in date |
| Invites.FailedInsertExceedsQuota | backend/src/auth.ts:166-324 | from every state with a full set: claiming one of the codes, minting another and a failing INSERT take the creator one over the quota |
| Invites.QuotaIsExceeded | backend/src/auth.ts:166-324 | a run from an empty database with twenty codes to twenty-one |
| Invites.AuthStore.RegisterUser | backend/src/auth.ts:117-228 | with others and errors at every statement: there is an account exactly when success is reported or its INSERT was misreported; success gives an administrator only on the first-account path and otherwise a code marked with its id; without success or an erring statement no code stays marked; undisturbed and without errors it succeeds exactly when there is no account yet, or the code can be redeemed and the username is free |
| BoundedTail.Append | backend/src/bootstrap.ts:487-507 | after any chunks the loop holds exactly the longest end of the log that fits the cap, or the last chunk alone, and the counter is the sum of the retained sizes |
| BoundedTail.TailIsLongest | backend/src/bootstrap.ts:185-199 | no longer end of the log would fit |
| BoundedTail.TailIsUnique | backend/src/bootstrap.ts:487-507 | a log and a cap determine what is kept |
| BoundedTail.JoinedIsNoLonger | backend/src/bootstrap.ts:490-497 | the UTF-8 size of joined chunks is at most the sum of theirs, pairs of surrogates split between chunks included |
| BoundedTail.ByteLengthIsUtf8 | backend/src/bootstrap.ts:487-497 | the size counted is the length of the UTF-8 encoding, with U+FFFD for a surrogate that stands alone |
| BoundedTail.TextAppend | backend/src/bootstrap.ts:514-516 | the text is all chunks in order and the total the sum of their sizes |
| BoundedTail.ReplayedIs | backend/src/bootstrap.ts:255-270 | a replay is one message a buffered chunk, in order, and then the terminal message if there is one |
| BoundedTail.HearIs | backend/src/bootstrap.ts:185-212 | a broadcast reaches exactly the listeners, behind what each heard before |
| BoundedTail.BootstrapBroadcaster.Broadcast | backend/src/bootstrap.ts:185-212 | a chunk joins the session's log, of which the longest end within 256 KiB is buffered, goes to every listener once and changes no listener; after the terminal message it changes nothing |
| BoundedTail.BootstrapBroadcaster.Finish | backend/src/bootstrap.ts:222-234 | the first terminal message is the only one |
| BoundedTail.BootstrapBroadcaster.Replay | backend/src/bootstrap.ts:255-270 | the replay sends the buffer as it is by then, oldest first, and the terminal message if there is one |
| BoundedTail.BootstrapLog.Persisted | backend/src/bootstrap.ts:514-516 | the stored log is within 64 KiB of UTF-8 unless its one chunk alone is larger |

## Left out

Assumptions about code that is not modelled:

- Store transitions of one session do not overlap; `recreate/engine.ts` chains them and is not part of this model.
  `begin` runs only in the body of a `recreate` that holds the lock. Only a mark, and the resolve of a rollback, which
  retains no container, may still be writing when that body has ended.
- `routes/auth.ts` pairs every allowed `beginAttempt` with one `endAttempt` and at most one `recordFailure`.
- `wsHandler` sends the captured screen and flushes the tail in one synchronous stretch.
- Ids that the code draws at random (users, codes, attaches, attempts) are fresh, and the clock does not run backwards.
- Boots of two processes do not overlap on one database, nor does a recreation of one session run in two processes.

Parts of the modelled files that the model does not have:

- Text and transport: JSON text (records are JSON values), tar, HTTP, WebSocket and Docker's own wire, regular expressions beyond those of the parsers.
- Entries of the lifecycle lock are values with an identity instead of heap objects that waiters point at; the identity keeps the check that a timer meets the entry in the map.
- RecreateAttempt.ResolveSucceeds: asks that an orphaned attempt carry a date or a recovery mark, which the parser does not demand; every attempt a process owns does, in every run (RecreationGate).
- Migrations.Database.MigrateDb: foreign keys and constraints of several columns are not modelled; of the rows only users' order and administrator flag are.
- SharedExec.ReplayThenEveryChunk: chunks broadcast between the capture of the pane and the registration are not claimed; the code gives them up on purpose.
- Temporary files of an upload and their cleanup, file modes and owners.
- UTF-8 decoding of streams, line counts and the credential denylist in git changes, and the log, diff and patch helpers of the git module.
- The broadcaster's retention timers, and exactly-once delivery to a subscriber whose replay is still queued when a chunk arrives, which the code does not give.
- Sessions' other columns: the cached container name, owner and running status are as they were read.
- Password hashing, tokens, origin checks, tmux, the embedded shell scripts, backups, and the small single-map helpers.
