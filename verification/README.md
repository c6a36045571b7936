# Verified model of the agent runtime daemon

The daemon hands out leases on shared resources, network ports and isolated environments to sessions,
runs tools for them, and persists everything so that a restart can pick up after a crash. This project
models that core in Dafny and proves what it promises.

`dafny verify dfyconfig.toml` checks the whole project.

## How the model is built

* **Leases.** `LeaseModel` is the state machine of the lease manager on values: resources, the lease table,
  the `holders` index, one queue per resource, the id counter, and the log of queued requests with their
  outcomes (the waiters' channels). Every critical section of the source is one step; `Acquire` splits into
  enqueue, wake and cancel. The loops of `ReleaseAll`, `Sweep` and `ReapOrphans` insert into the map they
  range over: `LegalOrder` is the set of visiting orders Go allows, and every result about them holds for each
  such order. `LeaseManager.Manager` is the object with the source's fields and one method per operation; each
  method's new state is proved to be the model's step. `LeaseInvariant` holds the inductive invariant,
  `LeaseEffects` what one call does, `LeaseHandoff` the loops, `LeaseRuns` whole runs, `LeaseFates` what
  becomes of every queued request, `LeaseIdle` sessions that hold and await nothing, and
  `LeaseSnapshots` persistence, where a snapshot may be read while the table goes on changing.
* **Disk.** `Store` performs a save as open, write, sync, rename. The ghost field `disk` is what a crash now
  would leave to be read, and `images` records it after every file system call; `Documents` and `Disks` say
  what the files hold.
* **Daemon.** `Ports`, `Sessions`, `Runs` and `Supervisor` are the other managers. `Service.Service` strings
  manager steps together as the source does, `Daemon` states what holds between memory and disk (`Good`), and
  `Recovery` says what a restart makes of a disk. `Keeps(Span(w, w'))` means: if the daemon was good at w, it
  is good at w', and every disk image in between is one a restart can recover from. `Terminations` says what a
  termination leaves behind, `Interleaving` lets any critical sections of other callers come between its steps, and
  `LateSaves` lets saves land in any order. `Leaks` runs a daemon from an empty disk into five of the failures listed below: a lease and a port for a session that is
  over, a lease acquired during a termination, one asked for by name, and a run id that comes again.
* **Unity.** `Unity` is the state machine of any number of sessions acquiring resources in the adapter's order
  on top of the lease manager, with sweeps, releases and session deaths interleaved at will; `Launches` says what a
  launch asks for and that it goes ahead with all of it.
* **Tools, environments, text.** `Versions` and `Registry` (version order and requirement resolution), `Env`
  (environment construction against a name-by-name rule), `Logs` and `ProcStat` (line splitting and tails, the
  stat line of a process), over `Text`, `Numerals`, `Ids` and `Finite`.

Inputs stand for what the model does not compute: the clock, which port the operating system offers, which
process has a pid and whether killing it succeeds, whether directories can be made, the joined AppData paths.

## What came out

* `ReleaseAll` does not always free the dying session: if one of the first k waiters of a resource, k being the
  session's leases there, is the session itself, it is granted a lease while it is being released, and keeps it in
  every visiting order that skips the inserted entry (`LeaseRuns.RematchHappens`). `LeaseHandoff.ReleaseAllClearsIff`
  is the exact condition, and `Terminations.TerminationIsSafeIff` the same for the disk: in such an order the lease
  belongs to a terminal session there, and no restart reclaims it (`Recovery.LeakSurvivesRecovery`).
  Under the Unity adapter's discipline it cannot happen (`Unity.TerminationClears`).
* `AcquireLease` and `AllocatePort` accept a session that is over. From a good daemon, the disk becomes unsafe to
  crash on exactly when the id of such a session is granted a lease at once or given a port; if it is queued instead,
  a later hand-off does it (`Service.DeadWaiterIsGranted`). `Leaks.LeaseLeaks` and `Leaks.PortLeaks` reach such a disk
  from an empty one, and find it so again after a restart.
* They accept a friendly name, too, and the lease then belongs to that name. `docs/leases.md:31` promises that the
  end of a session releases everything it held; a lease asked for by the session is ended with it exactly if it was asked
  for under its id (`Terminations.NamedLeaseOutlives`, reached in `Leaks.NameOutlives`). The next restart expires it.
* A session that is being terminated may still acquire between the release of its leases and its last step, and
  then is over and holds a lease (`Leaks.MeanwhileLeaks`). Whatever other callers do in between, a termination is
  safe exactly when the session holds, awaits and owns nothing at its last step (`Interleaving.InterleavedTerminationIff`).
* A request that has to queue loses its TTL: the lease it gets has no deadline and is never expired by a sweep,
  until somebody renews it (`LeaseFates.QueueGrantsNeverSwept`, `LeaseFates.RenewedIsSwept`).
* No queued request is lost: once enough leases ahead of it have ended, it has been granted, unless its caller
  cancelled it or its session was ended (`LeaseFates.BoundedWaiting`).
* `docs/tool-adapters.md:78` promises the highest version that satisfies a requirement. The code promises it
  exactly when the requirement pins the version (`Registry.HighestIffPinned`); otherwise the smallest id wins.
* The comparison of versions is transitive exactly as long as numbers and text never meet; behind every prefix
  v, v.10 < v.1a < v.9 < v.10 (`Versions.TransitiveIffUnmixed`, `Versions.Circle`).
* A manager prepares a document before it gets hold of the store's lock. Whatever lands of the saves under way,
  every disk is safe to crash on exactly if no session is over in one table and has something in another, on disk or
  under way (`LateSaves.EveryLandingSafeIff`); for the last save of a termination that means that no lease or port save
  prepared before its release is still to land (`LateSaves.LastSaveSafeIff`, `LateSaves.LateSaveLeaks`).
* After a restart the next run gets a new id exactly if there was none, or fewer than a million of which the last one's record
  can be read back (`Runs.NextRunIsNewIff`). A crash while that record is rewritten, or before it is first written, is
  enough to give the id and the directory out again (`Runs.RewriteCanLoseNumber`, `Leaks.RunIdComesAgain`).
* `internal/env/env.go:64-65` and `README.md:185` present `LC_*` as a glob; the code matches its bare prefix only
  (`Env.InheritAsDocumentedIff`).

## Model

| member | source | states |
|---|---|---|
| LeaseInvariant.StepKeepsInv | internal/lease/manager.go:299-547 | Every step, in any visiting order of its loop, keeps: the index is exactly the active leases per resource, no resource is over capacity, every lease names a registered resource, nobody waits while there is room, every queued waiter is open and queued once, granted requests own a lease under the session that asked, grants follow arrival, and no channel was closed twice |
| LeaseInvariant.RunKeepsInv | internal/lease/manager.go:299-547 | The invariant over every run |
| LeaseInvariant.TrySatisfyRestores | internal/lease/manager.go:354-369 | One grant per freed slot is enough: from a resource one short of full, a single grant restores work conservation |
| LeaseInvariant.EndAndHandOffKeepsInv | internal/lease/manager.go:373-395 | Ending an active lease and handing its slot on keeps the invariant |
| LeaseInvariant.AcquireKeepsInv | internal/lease/manager.go:299-319 | Both the fast path and queueing keep the invariant |
| LeaseInvariant.CancelKeepsInv | internal/lease/manager.go:326-350 | A cancelled caller leaving its queue keeps the invariant |
| LeaseInvariant.DropKeepsInv | internal/lease/manager.go:412-427 | Dropping a dying session's waiters with an error closes each channel once and keeps the invariant |
| LeaseInvariant.EnsureKeepsInv | internal/lease/manager.go:189-201 | Registering a resource on demand keeps the invariant |
| LeaseInvariant.RenewKeepsInv | internal/lease/manager.go:435-451 | Moving a deadline keeps the invariant |
| LeaseInvariant.FreshId | internal/lease/manager.go:182-185 | The next lease id is in no table entry |
| LeaseInvariant.SurvivorsAre | internal/lease/manager.go:414-425 | The filter keeps exactly the other sessions' waiters, in arrival order |
| LeaseEffects.AcquireEffect | internal/lease/manager.go:299-319 | An acquire is granted at once exactly when there is room, and then nobody waits: one new active lease with the requested deadline; otherwise the resource is full and the request goes last |
| LeaseEffects.CancelEffect | internal/lease/manager.go:326-350 | Only the caller's entry leaves the queue; no lease, outcome or other place changes |
| LeaseEffects.EndOneEffect | internal/lease/manager.go:373-395 | Release and expiry end an active lease in their own state at that time and hand its slot to the head waiter; anything else is refused without effect |
| LeaseEffects.RenewEffect | internal/lease/manager.go:435-451 | A renewal moves the deadline of an active lease and nothing else |
| LeaseEffects.EnsureEffect | internal/lease/manager.go:189-201 | Registering never touches an existing resource; a new exclusive or capacity one has one free slot |
| LeaseEffects.AcquireByMode | internal/lease/manager.go:260-305 | A registered resource with n active leases is granted at once if and only if it is exclusive or of no known mode and n is 0, shared and n is below 2^30, a pool of c > 0 places and n is below c, or a pool without a number and n is 0 |
| LeaseEffects.PoolFillsUp | internal/lease/manager.go:299-319 | Of any number of requests for an unused pool of c places, the first c are granted at once and every further one waits, the i-th behind i - c others |
| LeaseEffects.NeverOverbooked | internal/lease/manager.go:260-319 | After every run from the start, an exclusive resource has at most one active lease and a pool at most as many as it has places |
| LeaseEffects.SweepEffect | internal/lease/manager.go:472-491 | In every legal order, a sweep expires an active lease, stamped with the cutoff, exactly if it has a deadline before the cutoff; any other is as it was |
| LeaseEffects.ReapEffect | internal/lease/manager.go:528-547 | In every legal order, reaping expires an active lease exactly if its session is not live; any other is as it was |
| LeaseEffects.SlotEffect | internal/lease/manager.go:354-395 | A lease given back or expired has that state and time, and the first in line has a new active lease on the resource, without a deadline |
| LeaseHandoff.HandOffEffect | internal/lease/manager.go:354-395 | Ending a lease ends that lease, grants exactly the head waiter of its resource if there is one, and touches nothing else |
| LeaseHandoff.LoopProgress | internal/lease/manager.go:401-410 | After any part of the loop, if no waiter it serves is a target or it has visited original entries only: the doomed leases visited are ended, exactly as many head waiters are served per resource, every other old lease is untouched, and nobody else was granted or settled |
| LeaseHandoff.LoopExact | internal/lease/manager.go:401-410 | In every legal order the loop ends exactly the doomed leases and serves exactly that many waiters, when no served waiter is itself a target |
| LeaseHandoff.LoopClearsIffNoRematch | internal/lease/manager.go:401-410 | In every order the loop leaves no target active if and only if no waiter it serves is a target |
| LeaseHandoff.ReleaseAllExact | internal/lease/manager.go:399-432 | Unless a served waiter is the session's own: the session ends with no lease and no waiter, the first k waiters of each resource hold its k slots, the rest keep their order, other sessions' leases are untouched, and only these requests are settled |
| LeaseHandoff.ReleaseAllEndsOwn | internal/lease/manager.go:399-432 | Rematch or not, in every legal order the leases the session had when called are released, and no other session's lease changes |
| LeaseHandoff.ReleaseAllClearsIff | internal/lease/manager.go:399-432 | ReleaseAll frees the session in every visiting order if and only if, for each resource, none of its first k waiters is the session, k being its active leases there |
| LeaseHandoff.SweepExact | internal/lease/manager.go:472-491 | In any order a sweep leaves no overdue active lease, expires exactly the overdue ones, and hands each slot to the next waiter |
| LeaseHandoff.ReapOrphansExact | internal/lease/manager.go:528-547 | Unless a waiter it serves is itself unknown, reaping leaves active leases to live sessions only, serves the next waiter for each slot, and touches no other lease |
| LeaseHandoff.ReapOrphansClearsIff | internal/lease/manager.go:528-547 | In every order reaping leaves no lease to an unknown session if and only if, for each resource, none of its first k waiters is unknown, k being the leases reaped there |
| LeaseRuns.RunEvolves | internal/lease/manager.go:299-547 | Over every run: resources stay, ended leases never change, leases keep their parties, outcomes are final, queues only gain at the end, and no waiter moves back |
| LeaseRuns.FirstComeFirstServed | internal/lease/manager.go:305-319 | Two granted requests for one resource were granted in arrival order |
| LeaseRuns.FastPathOvertakesNobody | internal/lease/manager.go:305-314 | An immediate grant happens only while nobody waits |
| LeaseRuns.OutOfTheQueue | internal/lease/manager.go:354-369 | The waiter at place i has left its queue once more than i further leases of its resource have ended |
| LeaseRuns.SettledForGood | internal/lease/manager.go:28-37 | A settled request keeps its outcome through every run and is in no queue; nothing is ever closed twice |
| LeaseRuns.CancelAfterGrant | internal/lease/manager.go:326-331 | A cancel that comes after the grant changes nothing: the lease stays with the session that asked |
| LeaseRuns.LeaseHistory | internal/lease/manager.go:182-185 | Ids are never reused and ended leases never revived |
| LeaseRuns.NoDeadlineNoSweep | internal/lease/manager.go:472-491 | A lease without a deadline is expired by no sweep after any run that does not renew it |
| LeaseRuns.RematchHappens | internal/lease/manager.go:401-410 | A session that asks twice for an exclusive resource still holds it after ReleaseAll |
| LeaseFates.NeverLost | internal/lease/manager.go:316-350 | Over every run a request that queued is settled or still in its queue, unless its caller cancelled it |
| LeaseFates.SettledMeansGranted | internal/lease/manager.go:354-369 | A request settled during a run has been granted, unless its own session was ended in that run |
| LeaseFates.BoundedWaiting | internal/lease/manager.go:354-369 | Once more leases of its resource have ended than waiters stood before it, a waiter owns a lease on that resource granted to its session, or its caller cancelled it, or its session was ended |
| LeaseFates.QueueGrantsUndated | internal/lease/manager.go:354-369 | Over every run, the lease a queued request is granted has no deadline, whatever TTL was asked for, unless that lease is renewed |
| LeaseFates.QueueGrantsNeverSwept | internal/lease/manager.go:472-491 | After every run, no sweep at any cutoff touches a lease granted from the queue that was not renewed |
| LeaseFates.RenewedIsSwept | internal/lease/manager.go:435-491 | A renewal gives such a lease a deadline, and a sweep past it expires the lease |
| LeaseIdle.StaysIdle | internal/lease/manager.go:354-369 | A session without lease or request stays so over every run in which it does not acquire |
| LeaseIdle.AllMatchesEnded | internal/lease/manager.go:399-432 | With no waiters, as after a restart, a loop over the table ends exactly the matching leases |
| LeaseSnapshots.TornSnapshotIsSafe | internal/lease/manager.go:109-149 | A snapshot whose leases are each read at a later moment of their own restores to a manager satisfying the invariant, no fuller than the one snapshotted, with a new id next |
| LeaseSnapshots.SnapshotRoundTrip | internal/lease/manager.go:109-149 | A snapshot read at once restores resources, leases, holders and counter, with empty queues |
| Ids.LeaseSeqInvertsLeaseId | internal/lease/manager.go:152-185 | Reading a printed lease id gives its number, for every number |
| Ids.SessionSeqInvertsSessionId | internal/session/manager.go:87-93 | Reading a printed session id gives its number, for every number |
| Ids.RunSeqInvertsIff | internal/runs/runs.go:45-52 | Reading a printed run id gives its number if and only if that is below 1000000 |
| Ids.IdShapes | internal/lease/manager.go:182-185 | Lease, session and run ids are their prefix and at least 8, 6 and 6 lower-case digits, without a zero in front of more |
| LeaseManager.Manager.Acquire | internal/lease/manager.go:299-319 | The state and answer of the acquire step, saved exactly when granted at once |
| LeaseManager.Manager.RemoveWaiter | internal/lease/manager.go:341-350 | The waiter leaves its queue, and the result says whether it was in it |
| LeaseManager.Manager.TrySatisfy | internal/lease/manager.go:354-369 | At most one grant, to the head waiter, exactly when there is room |
| LeaseManager.Manager.Release | internal/lease/manager.go:373-395 | The release step, refused exactly for unknown or ended leases |
| LeaseManager.Manager.EndMatching | internal/lease/manager.go:401-410 | The loop terminates in a legal visiting order, ends what the model's loop over that order ends, and reports those ids |
| LeaseManager.Manager.ReleaseAll | internal/lease/manager.go:399-432 | The ReleaseAll step for some legal order; saved exactly when something was released |
| LeaseManager.Manager.DropSession | internal/lease/manager.go:412-427 | The session's waiters leave every queue and are settled with an error, each once |
| LeaseManager.FilterInPlace | internal/lease/manager.go:414-425 | Compacting a queue into its own backing array leaves the survivors in order at its front |
| LeaseManager.Manager.Renew | internal/lease/manager.go:435-451 | The renew step; nothing is saved |
| LeaseManager.Manager.ExpireNow | internal/lease/manager.go:454-469 | The expire step |
| LeaseManager.Manager.Sweep | internal/lease/manager.go:472-491 | The sweep step for some legal order |
| LeaseManager.Manager.ReapOrphans | internal/lease/manager.go:528-547 | The reaping step for some legal order |
| LeaseManager.Manager.EnsureResource | internal/lease/manager.go:189-201 | The registration step, saved only for a new resource |
| LeaseManager.Manager.Restore | internal/lease/manager.go:123-149 | The table, the index of its active leases, empty queues and a counter past every id |
| LeaseManager.Manager.Persist | internal/lease/manager.go:161-163 | The snapshot replaces the saved one |
| Store.Store.Save | internal/store/store.go:41-72 | A crash at any call leaves every key with its old or its new complete document, and no temporary file remains |
| Store.Store.Load | internal/store/store.go:75-84 | Exactly the document a crash would leave |
| Ports.Manager.Acquire | internal/ports/ports.go:134-161 | The first of at most 64 picks not in the table is allocated and saved, with a new listener of its own; every other pick's listener is closed and every listener held before stays open; otherwise nothing changes. Every row keeps a listener if it had one before, as long as nothing was restored |
| Ports.AnswerIff | internal/ports/ports.go:134-161 | Unknown protocols are refused, none means tcp; of 64 attempts the first that does not meet a port of the table gives that port, or fails to bind; if all meet one, there is none |
| Ports.Manager.ReleaseBySession | internal/ports/ports.go:164-182 | Exactly the session's rows go, with their listeners and no others; saved exactly if there were any |
| Ports.Manager.ReleasePort | internal/ports/ports.go:185-200 | Exactly that row goes, with its listener; saved, atomically, exactly if there was one |
| Ports.Manager.ReapOrphans | internal/ports/ports.go:222-240 | Exactly the rows of unknown sessions go, with their listeners |
| Ports.Manager.RestoreFromStore | internal/ports/ports.go:91-110 | The saved table, with no listener held, so rows have their listeners exactly if it was empty; listeners held before stay open and are forgotten; with none held, as at startup, no listener leaks |
| Sessions.Manager.Create | internal/session/manager.go:114-166 | A ready session under a new id, refused exactly at the limit of live sessions or when directories fail |
| Sessions.Manager.CountLive | internal/session/manager.go:130-135 | The number of sessions that are not terminal |
| Sessions.Manager.MarkRunning | internal/session/manager.go:218-227 | Only a created or ready session starts running; an unknown one is left out |
| Sessions.Manager.Finish | internal/session/manager.go:238-251 | The terminal state with its time, and the reason only for a failure; unknown sessions and states that are not terminal are refused without effect |
| Sessions.StartedFields | internal/session/manager.go:218-227 | A created or ready session becomes running, started now; any other is as it was |
| Sessions.FinishedFields | internal/session/manager.go:238-251 | A stopped or failed session has that state, the time, and a new reason only if it failed |
| Sessions.Manager.RestoreFromStore | internal/session/manager.go:70-103 | The saved table, with the counter past every id in it |
| Runs.Manager.NewRun | internal/runs/runs.go:45-66 | A queued run under the next number, which is used up even if its directory cannot be made |
| Runs.Manager.List | internal/runs/runs.go:113-124 | Exactly the matching runs, newest first |
| Runs.Manager.Finish | internal/runs/runs.go:77-110 | The run is finished in memory and on disk with its exit code and its duration in whole milliseconds, in between its file is unreadable; an unknown run is refused |
| Runs.Manager.RestoreFromDisk | internal/runs/runs.go:128-158 | Every readable record enters the table under the id it gives, the last directory's if several give one, and nothing else changes; the counter never falls, is at least every number read from a directory with a readable record, and is one of them if it rose |
| Runs.NextRunIsNewIff | internal/runs/runs.go:45-158 | When m numbers were used up before a restart, and whatever records were lost, the first new id is none of theirs if and only if m is 0, or m is below 1000000 and the record of run m is readable |
| Runs.RewriteCanLoseNumber | internal/runs/runs.go:90-96 | From every disk, a crash that catches the last run's record truncated makes an id come again |
| Runs.FinishedFields | internal/runs/runs.go:98-110 | A finished run has the given status and exit code, the time and its whole milliseconds, and a new error only if one is given |
| Runs.KilledFields | internal/runs/runs.go:98-110 | A run that waits, is queued or runs is recorded as killed now, without an exit code, for the reason given unless that is empty, after its whole milliseconds; nothing else of it changes, and no other run does |
| Supervisor.ReconcileOrphans | internal/supervisor/supervisor.go:299-320 | Each pid is attempted at most once, exactly when its first record has a known start time matching the live process and no live session; reaped are exactly the attempts that succeed |
| Supervisor.OrphanIff | internal/supervisor/supervisor.go:299-320 | A record counts if and only if it is the first of a positive pid, has a start time that this process still has, and names no live session |
| Recovery.RecoveryIsExact | internal/daemon/service.go:137-199 | The active leases and ports that survive a recovery are exactly those of sessions already terminal on disk; every session and run is terminal |
| Recovery.RecoveredRows | internal/daemon/service.go:155-188 | After a recovery every open run is killed as above with the error "daemon restart", every session not stopped or failed is stopped now, and every other run and session is as it was |
| Recovery.RecoveredHoldings | internal/daemon/service.go:155-192 | An active lease is released with an interrupted session, expires with an unknown one and stays with one already over; exactly the ports of the latter stay |
| Recovery.RecoveryCleansUpIff | internal/daemon/service.go:137-199 | A recovery leaves no active lease and no port if and only if no terminal session owned any on disk |
| Recovery.RecoveryIsIdempotent | internal/daemon/service.go:137-199 | A second recovery changes no lease, port, session or run, whenever it happens |
| Recovery.LeakSurvivesRecovery | internal/daemon/service.go:174-179 | An active lease of a terminal session survives every recovery |
| Recovery.RecoveryKeepsSafetyIff | internal/daemon/service.go:137-199 | A recovered disk is safe to crash on if and only if the disk before was |
| Daemon.GoodIsRecoverable | internal/daemon/service.go:137-199 | While no terminal session holds, awaits or owns anything and disk and memory agree, the disk can be recovered from |
| Daemon.LeaseAction | internal/lease/manager.go:299-547 | Every lease step, saved or not, keeps disk and memory together and every crash image recoverable, unless a terminal session acquires |
| Daemon.RevisedSession | internal/session/manager.go:201-251 | A session may become terminal once it holds, awaits and owns nothing; any other change of its row is safe |
| Daemon.EveryCrashRecovers | internal/daemon/service.go:137-199 | From a crash at any point of a safe stretch, recovery leaves no active lease, no port, and only terminal sessions and runs |
| Service.Service.TerminateLive | internal/daemon/service.go:311-338 | Leases, ports, runs and session change as specified; unless a served waiter is the session itself every crash on the way is recoverable; and the disk left is safe to crash on if and only if the session holds nothing |
| Service.Service.TerminateSession | internal/daemon/service.go:311-338 | Found by id or name; a session already over is left alone, any other one is terminated as above |
| Service.Service.GetSession | internal/daemon/service.go:284-292 | By id first, then by a non-empty name |
| Service.Service.AcquireLease | internal/daemon/service.go:433-444 | Refused exactly if no session goes by this id or name; else the acquire step under the name as given, registering devices on demand. From a good daemon the disk stays safe to crash on exactly unless the id of a session that is over is granted at once, and the daemon stays good exactly unless such an id asks for a resource that exists |
| Service.DeadWaiterIsGranted | internal/lease/manager.go:354-395 | A session that is over and first in line is granted the next lease released, and the disk is no longer safe to crash on |
| Service.RegisteredIff | internal/daemon/service.go:441-443 | A name is a resource if it is registered or begins with adb:, and then a new one is exclusive |
| Service.Service.ReleaseLease | internal/daemon/service.go:447-460 | Succeeds exactly for an active lease of that session; safe |
| Service.Service.AllocatePort | internal/daemon/service.go:475-483 | Refused exactly if no session goes by this id or name; else the answer for the ports the system offers; from a good daemon the daemon stays good, and the disk safe to crash on, exactly unless the id of a session that is over is given a port |
| Service.Service.SweepLeases | internal/lease/manager.go:472-491 | The sweep keeps every crash recoverable |
| Service.Service.CreateSession | internal/daemon/service.go:242-281 | A new session under a new id, or a refusal at the limit or when directories fail; if its environment cannot be prepared it is terminated and over; every crash on the way is recoverable |
| Service.Service.StopAllInterrupted | internal/daemon/service.go:155-166 | Exactly the sessions not terminal on disk are finalized, leases and ports first, in any order, every crash on the way recoverable |
| Service.Service.CollectPreviousProcs | internal/daemon/service.go:203-215 | The processes recorded by the runs, newest run first |
| Service.ProcsOfRuns | internal/daemon/service.go:203-215 | The processes are exactly those of the runs with a pid, with the start time and session recorded there |
| Service.Service.ReconcileProcs | internal/daemon/service.go:167-176 | Among the processes recorded by the runs, newest run first, exactly those are attempted whose first record is of a session not alive, with a known start time that the process of that pid still has; reaped are exactly the attempts that succeed, each pid once |
| Service.Service.KillRuns | internal/daemon/service.go:184-188 | Exactly the listed runs that are open are killed, in memory and on disk |
| Service.Service.Reconcile | internal/daemon/service.go:177-192 | After reaping, closing runs and saving, the disk is the recovered one and equals memory |
| Service.Service.Recover | internal/daemon/service.go:137-199 | From every disk that loads, the disk becomes exactly the recovered one and memory agrees; from one safe to crash on, the daemon is good again and every crash during recovery is recoverable too |
| Interleaving.ExecutionKeeps | internal/daemon/service.go:311-483 | Any interleaving of critical sections, run creation included, in which no session that is over acquires and sessions end owning nothing, keeps every crash recoverable |
| Interleaving.InterleavedTermination | internal/daemon/service.go:311-338 | With any other critical sections between its steps, a termination whose release serves no request of its own, and whose session does not acquire after its leases nor get a port after its ports are released, keeps every crash recoverable from beginning to end |
| Interleaving.InterleavedTerminationIff | internal/daemon/service.go:311-338 | Without those conditions, it does so exactly when the session holds, awaits and owns nothing at the last step; the disk left is safe to crash on exactly when it holds no lease and no port |
| Terminations.TerminationIsSafeIff | internal/daemon/service.go:311-338 | From a good daemon, every outcome of a termination, whatever the visiting order, leaves a disk that is safe to crash on if and only if no waiter the release serves is the session itself |
| Terminations.TerminatedRows | internal/daemon/service.go:311-338 | A termination leaves the session stopped now and the others as they were, its open runs killed for the reason given and every other run as it was, and exactly the other sessions' ports |
| Terminations.NamedLeaseOutlives | internal/daemon/service.go:433-444 | An active lease asked for under an id or name of the session is ended by its termination if and only if that was the id; otherwise the next restart expires it |
| LateSaves.EveryLandingSafeIff | internal/store/store.go:41-72 | Of any saves under way, whatever lands in whatever order leaves a disk that is safe to crash on, if and only if no session is over in one visible table and has a lease or port in another |
| LateSaves.LastSaveSafeIff | internal/daemon/service.go:320-330 | Adding the save that ends a session keeps this so if and only if no visible lease or port table shows anything of the session |
| LateSaves.LateSaveLeaks | internal/lease/manager.go:428-432 | A lease save prepared at any moment at which the session held a lease makes the disk unsafe if it lands when the session is over |
| Leaks.LeaseLeaks | internal/daemon/service.go:433-444 | From an empty disk, a session that is over acquires a free device, and after a restart the disk is still not safe to crash on |
| Leaks.PortLeaks | internal/daemon/service.go:475-483 | The same with a port |
| Leaks.MeanwhileLeaks | internal/daemon/service.go:311-338 | The same for a lease acquired while the session was being terminated |
| Leaks.NameOutlives | internal/daemon/service.go:433-444 | From an empty disk, a session acquires a device under its friendly name and is terminated, and the lease is still active |
| Leaks.RunIdComesAgain | internal/runs/runs.go:45-66 | From an empty disk, two runs are started, nothing is written of the second, and after a restart the next run has its id |
| Unity.PlansAscend | internal/adapter/unity/unity.go:49-79 | Every command's resources come in the order slot, license, GPU, each at most once |
| Launches.PrepareIs | internal/adapter/unity/unity.go:49-79 | A list is prepared if and only if there is an executable and a known command and, except for the version, a workspace that exists; in it are the process slot for all but the version, the license for tests, builds and batch runs, and the GPU for play mode tests, each once |
| Launches.LaunchHasAll | internal/adapter/unity/unity.go:82-96 | In every execution, a launch that goes ahead has been granted, since it began, a lease of its session on each resource its command needs |
| Launches.FreeLaunchGoesAhead | internal/adapter/unity/unity.go:82-96 | A launch whose resources are all free asks for one after the other and then holds them all, each due two hours later |
| Unity.NextKeepsOk | internal/adapter/unity/unity.go:88-96 | Every event keeps: active leases only on resources a launch has reached, waiters only on the one it asks for next |
| Unity.TraceIsOk | internal/adapter/unity/unity.go:88-96 | The same over every execution |
| Unity.WaitersHoldLess | internal/adapter/unity/unity.go:88-96 | A waiting session holds only resources of strictly smaller rank than the one it waits for |
| Unity.NoDeadlock | internal/adapter/unity/unity.go:88-96 | From any waiter, following holders reaches in at most three steps a session that waits for nothing, at any capacities |
| Unity.DeadlockFree | internal/adapter/unity/unity.go:88-96 | The same in every reachable state |
| Unity.TerminationClears | internal/adapter/unity/unity.go:88-96 | Under this discipline ending a session always frees all it holds |
| Unity.RelaunchWaitsForItself | internal/adapter/unity/unity.go:92-96 | A session that asks for a resource waits for nobody but itself if and only if every slot is taken, and by itself |
| Text.SortedUnique | internal/env/env.go:175-186 | A strictly sorted listing of a set of names is unique |
| Text.Sort | internal/env/env.go:175-179 | Exactly the names, strictly sorted |
| Text.EqualFoldIff | internal/env/env.go:66-92 | Names are equal without case if and only if each character is the same or the other case of the same letter |
| Versions.ParseNum | internal/registry/registry.go:302-311 | The 64-bit value of an all-digit segment, an error for any other |
| Versions.ValueIsDecimal | internal/registry/registry.go:302-311 | Up to 18 digits that value is the number written |
| Versions.ValueModulo | internal/registry/registry.go:302-311 | At any length that value is the number written less a multiple of 2^64, in 64-bit range |
| Versions.SplitAtMarks | internal/registry/registry.go:298-300 | Dots, dashes, underscores and blanks separate segments, and no other character does |
| Versions.OrderIff | internal/registry/registry.go:262-296 | A version is lower if and only if it is in the first segment that differs, numbers by value and anything else as text; equal if and only if none differs |
| Versions.CompareVersions | internal/registry/registry.go:262-296 | The first segment that differs decides, missing ones counting as 0 |
| Versions.Antisymmetric | internal/registry/registry.go:262-296 | Swapping any two versions negates the verdict, which is -1, 0 or 1 |
| Versions.EqualIff | internal/registry/registry.go:262-296 | Two versions are equal exactly when all their segments are alike |
| Versions.EqualTrans | internal/registry/registry.go:262-296 | Equality is transitive on all versions |
| Versions.NumericEqualIff | internal/registry/registry.go:262-296 | Numeric versions are equal exactly when their values agree up to trailing zeros |
| Versions.FirstDifference | internal/registry/registry.go:262-296 | Unequal versions are decided by the first segment that differs, all earlier ones being equal |
| Versions.NumericLessIff | internal/registry/registry.go:262-296 | A numeric version is lower exactly when its values come first in lexicographic order |
| Versions.Transitive | internal/registry/registry.go:262-296 | The order is transitive among any three versions with numbers and text in the same places |
| Versions.NumericTransitive | internal/registry/registry.go:262-296 | Numeric versions are totally preordered |
| Versions.Circle | internal/registry/registry.go:281-292 | Behind every version v, v.10 < v.1a < v.9 < v.10 |
| Versions.NotTransitive | internal/registry/registry.go:281-292 | 10 < 1a < 9 < 10 |
| Versions.TransitiveIffUnmixed | internal/registry/registry.go:262-296 | For any set of positions at which three versions may mix numbers and text: the order is transitive on all of them if and only if the set is empty |
| Registry.ScoreVersion | internal/registry/registry.go:229-258 | Not negative exactly when the version satisfies the constraint, and then its class |
| Registry.SatisfiesIff | internal/registry/registry.go:229-258 | For every constraint, what satisfies it in terms of the first segment that differs |
| Registry.Registry.List | internal/registry/registry.go:69-78 | All tools, strictly sorted by id |
| Registry.Registry.Resolve | internal/registry/registry.go:191-225 | Fails exactly when no enabled tool of the type, in any letter case, has a fitting version, telling apart that there is no such tool; otherwise the smallest id of the best class. What fits is spelled out by segments: with ^, not below the required version and with the same first segment |
| Registry.BestMeans | internal/registry/registry.go:191-225 | The tool found fits, no other that fits is preferred to it, and it comes first by id among those no less preferred |
| Registry.BestUnique | internal/registry/registry.go:191-225 | There is one best match, whatever the map order |
| Registry.HighestIffPinned | internal/registry/registry.go:229-258 | The best match is a highest version in every registry if and only if the requirement pins the version or matches nothing |
| Env.MatchesAllow | internal/env/env.go:66-83 | Some inherit entry admits the name |
| Env.IsDenied | internal/env/env.go:85-92 | Some deny entry hits the name, in any letter case |
| Env.Lookup | internal/env/env.go:189-196 | The value of the first binding |
| Env.FiltersIff | internal/env/env.go:66-92 | Letter case never matters; an inherit entry admits its own letters, with or without a star, and the star alone everything; a deny entry hits its own letters, or with a star every name beginning with them |
| Env.FirstBindingIs | internal/env/env.go:189-196 | The daemon's value of a name is that of its first binding |
| Env.InheritedIs | internal/env/env.go:100-114 | What is inherited under a name is its last binding, if it is admitted and not denied |
| Env.IsolatedIs | internal/env/env.go:116-159 | With isolation on, home, temporary and XDG names stand for the session's own directories |
| Env.Precedence | internal/env/env.go:96-187 | Denied names are absent; else a fixed value comes before the session's directory, and that before anything inherited |
| Env.Build | internal/env/env.go:96-187 | The entries are exactly the effective bindings, strictly sorted by name: nothing denied, else the fixed value, else the isolated root or kept original, else the last binding that may be inherited |
| Env.BuildIsDeterministic | internal/env/env.go:96-187 | The result does not depend on any map order |
| Env.InheritAsDocumentedIff | internal/env/env.go:64-83 | An inherit entry means what it is documented to mean exactly when it is no glob, or the star alone |
| Logs.SplitLines | internal/runs/runs.go:225-236 | The lines of a text |
| Logs.JoinLines | internal/runs/runs.go:238-247 | The lines joined by breaks |
| Logs.JoinedLines | internal/runs/runs.go:225-247 | Joining what was split gives back the text, for every text |
| Logs.LinesJoined | internal/runs/runs.go:225-247 | Splitting what was joined gives back the lines, if none contains a break |
| Logs.ReadLog | internal/runs/runs.go:210-223 | A suffix of the log from its beginning or from just after a break, with exactly as many lines as asked for, or all; 200 if none are asked for |
| ProcStat.StartTimeIsField22 | internal/proc/proc_unix.go:66-82 | Field 22 of the line of proc(5) is found behind every process name, spaces and parentheses included |
| ProcStat.FieldsAtSpaces | internal/proc/proc_unix.go:66-82 | The six ASCII spaces separate fields, and no other character does |
| ProcStat.StartTimeRoundTrip | internal/proc/proc_unix.go:66-82 | Every 64-bit start time printed there is read back; larger ones are refused |

## Left out

- Pointers and aliasing: a Waiter or Lease the source shares by pointer is a row of a table here; what a caller sees through such a pointer outside the lock is not modelled, except for snapshots, whose leases are read late.
- LeaseManager.Manager.DropSession: filters each queue as a value; the compaction in the queue's own backing array is proved separately in FilterInPlace.
- Failing saves: a save that returns an error is not modelled. In Service and Interleaving a save lands at once; LateSaves treats those that do not.
- Clock: each operation has one reading of the clock, also where the source reads it several times; a recovery has one reading in all.
- Counters: the 64-bit overflow of the id counters, and blanks that the scanner would skip inside an id, are not modelled.
- Order of listed sessions: sessions are finalized in any order, which covers the order by creation time.
- Service.Service.TerminateLive: leaves out the killing of the session's processes and the removal of its directory, and so do TerminateSession, CreateSession and Recover; neither changes a table. What other callers do between its steps is the subject of Interleaving.
- Service.Service.TerminateSession: its first look at the session's state and its marking as stopping are one step.
- Interleaving.ExecutionKeeps: a critical section and the save that follows it are one step; what late saves do is stated in LateSaves for the saves under way at one moment.
- LateSaves.EveryLandingSafeIff: the documents under way are given; that each shows a table as it was at some moment is not used.
- Session owner: the trimming of the owner's name on termination, and the other descriptive fields of sessions, runs and tools, are left out.
- Policy checks before each operation: a refused operation does nothing.
- Env.Build: environment redaction and Windows path joining are inputs or left out; letter case is folded for ASCII only, as it is in Registry.
- Text and Versions: strings are sequences of characters; separators and blanks are the ASCII ones.
- ProcStat.StartTimeIsField22: the fallback for systems without that file is not part of this model.
- Unity: building the command line, timeouts and test reports; the two-hour TTL is the constant it passes.
- Unity.DeadlockFree: assumes one launch per session at a time that starts with nothing in hand, and no acquires outside of launches; RelaunchWaitsForItself shows why.
- Workspaces, the Android adapter, the command line, the RPC and MCP servers, and process supervision beyond orphan reconciliation.
- Scheduling and fairness: no claim that leases ever end, only what becomes of a waiter once enough of them have.
