# A verified model of IOLD's deployment lifecycle

IOLD deploys one model server at a time on a GPU host. `deploy`, `destroy` and `status` are separate operating-system
processes. They share a file lock, a database of deployment rows with compare-and-set transitions, a process table in which
PIDs are reused, and directories with ownership markers; each of them can die between any two steps, and the next command
repairs what it left. This project models that system in Dafny and proves what it promises, together with the parts around
it that do real computation: process identities, bounded retries against an idempotent gateway, VRAM planning, and variant
suggestions.

`dafny verify dfyconfig.toml` checks everything.

## How it is organised

- `Basics`, `Text`, `StatLine`: rational truncation, command-line text, `/proc` stat lines.
- `Phases`, `Store`: the state machine, and the store as a class over a map of rows, with its history.
- `Supervisor`, `Recovery`, `Files`, `Destruction`, `OperationLock`, `Polling`: identities, discovery and shutdown, the
  recovery loop, `removeOwnedData`, `destroyOne`, the lock and the two polling loops, as imperative methods.
- `Ids`: how deployment IDs are derived from model references, which IDs are valid, and what paths they name.
- `Host`, `Protocol`: the machine that commands share, and every lifecycle command as a program counter that performs one
  store, process or file effect per step. `Protocol.Step` applies one event: a command starts, gets the lock, takes a step,
  ends or is killed, or the environment acts; an event that cannot happen changes nothing. A run is any sequence of events,
  and `Protocol.Reachable` a world that some run from a fresh machine passes through.
- `ProtocolInvariant`, `ProtocolSteps`, `ProtocolLaunch`, `ProtocolWorld`: the invariant, and why no event breaks it.
- `Lifecycle`, `Restart`, `Effects`, `Markers`, `Ports`, `Termination`: the results about all runs.
- `Scripts`, `Progress`: runs that exist: a deploy that succeeds, one that leaves its deployment stuck, and one after which
  its runtime cannot be stopped. So the results about all runs are about something.
- `Resume`, `Blocked`, `Completion`: when a run can still destroy a deployment, exactly, and that every run of a destroy to
  which nothing bad happens then does. `Replacement`: when a replacement can lose the old deployment and the new one,
  exactly. `Agreement`: the imperative methods and the protocol's effects say the same about destroying a record and
  claiming a cache.
- `Retry`, `Gateway`: the retry loop against its recursive specification, and the registration server.
- `Planner`, `Sizing`, `Preflight`, `Suggest`, `SuggestionOrder`: memory estimates and verdicts, what they come to in
  figures, host validation, suggestions and their order.

The protocol and the imperative methods decide with the same functions: `Reconcile` and `DecideStop` for processes,
`CacheOwnership` for caches, the row functions of `Store` for every update. What these and the other functions compute is
said a second time without them: exactly which process is RUNNING (`Supervisor.ReconcileIsExact`), is signalled
(`Supervisor.StopDecisionIsExact`) or is taken for the runtime of an intent (`Text.MatchIsExact`,
`Supervisor.CandidatesAreExact`), which IDs are valid and what they name (`Ids.ValidIdGrows`, `Ids.OwnedPathsAreExact`), how
long a retry waits (`Retry.DelayIsGeometric`, `Retry.JitterIsLinear`), and how many bytes an estimate is (`Sizing`).

## What is assumed of the environment

- A store statement fails only through its guards; a statement and an exec each happen completely or not at all.
- No two processes ever have the same PID and start token. A PID is not given to a new process while it names a group, while
  it is an unreaped child, or during one `Stop` call.
- No process other than the leader of the launched runtime matches a STARTING intent that has no recorded PID yet and is
  recent enough (`Host.NoImposter`, which `Step` keeps). `Destruction.AmbiguousIntentOrphans` shows what happens otherwise.
- A leader that dies before its identity is recorded takes its group with it (`Protocol.CanExit`); a launched process never
  leaves its group, and keeps its command line.
- The clock never goes back, and a new process started at most one second before the clock reading at its start.
- One scan of the process table is atomic, and `ps` and `/proc` agree during it.
- The log file exists once the runtime was started. Other programs may fill cache directories, but neither remove them nor
  write markers into them.

## Where code, comments and documentation differ

- `internal/cli/cli.go:363` calls FAILED the only legal way from a mid-flight phase into destruction. CRASHED is as legal,
  and from REGISTERING so are READY and UNREGISTERED_HEALTHY (`Phases.MidFlightDetours`).
- `internal/state/machine.go:46-47` says that any phase except DESTROYED may fail; FAILED and CRASHED may not
  (`Phases.EdgesAreExact`).
- `internal/planner/suggest.go:47-50` promises suggestions most downloaded first. The ranking uses the downloads reported by
  the search, and the suggestions show those of the model page. `SuggestionOrder.PromisedOrder` says exactly when the promise
  holds, and `SuggestionOrder.OrderCanDiffer` is an input for which it does not.
- `docs/ARCHITECTURE.md:57` asks for transactional replacement; the code, as `internal/cli/deploy.go:152-155` says, destroys
  the old deployment first. `Replacement.ReplacementIsExact` says exactly when a run can lose both the old deployment and the
  new one: when the command may replace, the old runtime can be stopped, and its cache may go. `Replacement.TeardownBeginsAt`
  gives the effects at which a deployment is given up, exactly, and `Replacement.TornDownForGood` that it never comes back.
- `docs/ARCHITECTURE.md:141` lists ports among what is reconciled; the code reconciles processes. By
  `Recovery.OnlyProcessesAreReconciled` recovery neither looks at a port, name, cache or key nor changes it.

## When `destroy` finishes, and when it cannot

`Blocked.DestroyIsResumable` says exactly when some run still ends an active deployment: when the runtime that recovery leaves
recorded can be stopped, and the cache is absent or carries the deployment's key. Then not only some run does: whenever a new
destroy command ends without a failed effect, the deployment is DESTROYED or purged (`Completion.EveryDestroyFinishes`). So
there are two kinds of situations in which it cannot finish.

- The runtime: `Supervisor.RefusalIsExact` says exactly when `Stop` refuses. The recorded leader is gone while other processes
  of its group live on; or the process at its PID is not, in all that is recorded, the leader of its own group, for instance
  because the PID was reused, even if the group is empty (`Destruction.ReusedPidBlocks`). This lasts as long as these
  processes do (`Blocked.RefusedStays`), and `Progress.UnstoppableIsReachable` reaches it.
- The cache: `Markers.BecomesStuck` says exactly which events make a deployment stuck. The command dies or fails while its
  cache directory exists without its key: between creating the record and writing the marker, whether by an error, by a
  directory that it may not claim or by a marker written in part; or between removing the marker and the rest. This lasts for
  good (`Markers.StuckForever`), and `Progress.StuckIsReachable` reaches it.

## Model

| member | source | states |
|---|---|---|
| `Phases.TeardownIsClosed` | internal/state/machine.go:30-60 | Along every legal path, once a phase is FAILED, CRASHED, DESTROYING or DESTROYED, all later phases are among these four. |
| `Phases.DestructionIsNotCrashed` | internal/state/machine.go:52-58 | No legal path leads from FAILED, DESTROYING or DESTROYED to CRASHED: a status probe never rewrites a destruction. |
| `Phases.DestroyRouteIsLegal` | internal/cli/cli.go:352-371 | From every known phase the phases that destroyOne writes form a legal path to DESTROYED, and no legal path is shorter. |
| `Phases.MidFlightDetours` | internal/cli/cli.go:352-371 | The phases that destroyOne takes through FAILED are exactly those before teardown without a direct edge to DESTROYING. From each of them the legal detours are FAILED and CRASHED, and from REGISTERING also READY and UNREGISTERED_HEALTHY, so the comment "the only legal edge" is not exact. |
| `Phases.ServiceTakesEveryStep` | internal/state/machine.go:30-60 | No step of a launch can be skipped: every legal path from REQUESTED to READY or UNREGISTERED_HEALTHY begins with the six phases of a launch, in order. |
| `Phases.EdgesAreExact` | internal/state/machine.go:30-73 | The legal edges are thirteen named pairs, FAILED from all but FAILED, CRASHED and DESTROYED, and CRASHED from these and also not from DESTROYING; an unknown phase has none. |
| `Store.Store.Create` | internal/state/store.go:132-152 | Inserts the row in REQUESTED with second-precision timestamps and no reason, or reports a duplicate and changes nothing. |
| `Store.Store.Get` | internal/state/store.go:160-165 | The stored row, or not-found. |
| `Store.Store.Transition` | internal/state/store.go:215-245 | Compare-and-set: the whole new table on success, and which of illegal edge, missing row or changed phase refused it, with the table untouched. |
| `Store.Store.SetRuntimeIntent` | internal/state/store.go:247-259 | Only a DOWNLOADING row takes a runtime intent, which clears any identity; otherwise the table is untouched. |
| `Store.Store.SetRuntime` | internal/state/store.go:261-274 | Only a STARTING row without a PID takes a runtime identity; otherwise the table is untouched. |
| `Store.Store.ExpectOneRuntimeRow` | internal/state/store.go:276-293 | An update that met no row is a conflict exactly when the row exists. |
| `Store.Store.Delete` | internal/state/store.go:309-328 | Only a DESTROYED row is deleted. |
| `StoreHistory.OpKeepsRows` | internal/state/store.go:133-328 | Every operation with any arguments keeps the row invariants (early phases have PID 0; a reason implies FAILED or CRASHED); rows evolve, vanish only from DESTROYED, and appear only as REQUESTED with PID 0. |
| `StoreHistory.HistoryIsSound` | internal/state/store.go:133-328 | The row invariants hold after every sequence of operations. |
| `StoreHistory.RowEvolvesUntilDeleted` | internal/state/store.go:247-274 | Over every history, until a row is deleted, a recorded PID, port, command, start time and token never change, and teardown is never left. |
| `StoreHistory.RowsVanishOnlyWhenDestroyed` | internal/state/store.go:309-328 | A row that disappears in a history was DESTROYED at some point of that history. |
| `StoreHistory.LaunchIsRecorded` | internal/state/store.go:215-274 | From DOWNLOADING, writing the intent, moving to STARTING and writing the runtime all succeed; in between the row is an intent without an identity, and then it holds port, command, PID, start time and token as given, with nothing else changed but the timestamp. |
| `StoreHistory.OnlyOneMoveWins` | internal/state/store.go:215-245 | Of two transitions that expect the same phase, the second is refused once the first has succeeded. |
| `Text.FieldsOfJoin` | internal/supervisor/supervisor.go:174-176 | Splitting a joined list of words gives back that list. |
| `Text.NormalizeIsCanonical` | internal/supervisor/supervisor.go:174-176 | Normalising keeps the fields and is idempotent, and two texts normalise alike exactly when their fields agree. |
| `Text.MatchIgnoresNormalisation` | internal/supervisor/supervisor.go:226-244 | Normalising either side never changes whether a command line matches an intent. |
| `Text.NormalizedIsTidy` | internal/supervisor/supervisor.go:174-176 | The only white space of a normalised text is single spaces between words. |
| `Text.BaseIsExact` | internal/supervisor/supervisor.go:268-286 | For every path and every name without a slash: the path has that base name exactly if it is the name, behind nothing or a directory, and followed by nothing but slashes. |
| `Text.MatchIsExact` | internal/supervisor/supervisor.go:259-286 | For every command line and intent: they match exactly if the command line is the intent's program, from any directory and possibly after a Python interpreter from any directory, followed by exactly the intent's arguments. |
| `Text.LaunchedFormsMatch` | internal/supervisor/supervisor.go:259-286 | For every program name, arguments and directories: the intent matches itself, the program in any directory, and that script run by `python`, `python3` or `python3.` and anything, itself in any directory. |
| `Text.BlankIntentMatchesNothing` | internal/supervisor/supervisor.go:259-264 | A blank intent matches no command line. |
| `Text.MatchKeepsArguments` | internal/supervisor/supervisor.go:265-280 | A match never drops, adds or reorders an argument, and never changes the program's base name. |
| `StatLine.StatRoundTrip` | internal/supervisor/identity_linux.go:24-53 | For every process name, with spaces and parentheses, parsing a formatted stat line recovers field 22 as the token and the exact instant, rounded down to a nanosecond. |
| `StatLine.StatIsRefused` | internal/supervisor/identity_linux.go:30-42 | A line without a closing parenthesis is malformed, one with less than 22 fields is short, and one whose field 22 is no 64-bit number or negative has bad ticks; every other formatted line gives an identity. |
| `StatLine.TickArithmetic` | internal/supervisor/identity_linux.go:48-51 | Seconds times 10^9 plus nanoseconds is floor(ticks * 10^9 / hz), with nanoseconds below 10^9. |
| `StatLine.TokenIdentifiesTicks` | internal/supervisor/identity_linux.go:52 | Two tokens are equal exactly when the start ticks are. |
| `StatLine.ExitedReadsState` | internal/supervisor/identity_linux.go:55-71 | For every process name, a formatted stat line reads as exited exactly when its state is Z, X or x. |
| `Supervisor.ReconcileIsExact` | internal/supervisor/supervisor.go:143-215 | The status in full, for every reading: STALE exactly that the PID is gone; RUNNING exactly that record and reading are complete and token and words are equal and the start times at most one second apart; REUSED exactly that the record is complete and what could be read differs; UNKNOWN otherwise. |
| `Supervisor.ReadAgain` | internal/supervisor/supervisor.go:163-172 | An identity captured from one stat line reconciles as RUNNING with the process another stat line describes exactly if both print the same start ticks and the two boot times are at most one second apart. |
| `Supervisor.AdoptedIsRunning` | internal/supervisor/supervisor.go:217-257 | An identity found by scanning reconciles as RUNNING on an unchanged process table. |
| `Supervisor.CaptureIdentity` | internal/supervisor/supervisor.go:79-119 | The recorded identity comes from the first of at most twenty looks that settles it, never mixes two looks, and is never incomplete; otherwise the start fails. |
| `Supervisor.CapturedIsRunning` | internal/supervisor/supervisor.go:79-90 | An identity captured from a live process reconciles as RUNNING on an unchanged process table. |
| `Supervisor.CandidatesAreExact` | internal/supervisor/supervisor.go:221-286 | A process is taken for the runtime of an intent exactly if it runs the intent's program, from any directory and possibly by a Python interpreter, with exactly its arguments, and started at most two seconds before the intent was written. |
| `Supervisor.FindByCommand` | internal/supervisor/supervisor.go:221-257 | The scan returns, in listing order, one match for every line that parses, is not IOLD itself, matches the intent and is not too old. |
| `Supervisor.FindByCommandIsExact` | internal/supervisor/supervisor.go:217-257 | Over a listing of the whole process table the scan finds exactly one match per candidate process, with that process' identity, and misses none. |
| `Supervisor.SignalsOnlyTheRecordedGroup` | internal/supervisor/supervisor.go:292-311 | Stop signals only a group whose live leader agrees with the record in PID, token, start time and command; it reports success without a signal exactly when PID and group are gone. |
| `Supervisor.StopDecisionIsExact` | internal/supervisor/supervisor.go:292-314 | On a readable process table Stop signals exactly if the record is complete and the process at its PID leads its own group and has the recorded token and words and a start time at most one second from the recorded one; it has nothing to do exactly if no process has that PID or is in its group. |
| `Supervisor.RefusalIsExact` | internal/supervisor/supervisor.go:292-305 | On a readable process table Stop refuses exactly when the leader is gone while its group lives on, or when the process at the recorded PID is not, in PID, token, start time and command, the recorded leader of its own group. |
| `Supervisor.Stop` | internal/supervisor/supervisor.go:288-333 | Which signals are sent, and that success after a signal means the group was observed empty, exactly when one of the polls within the grace period, or of the hundred after SIGKILL, sees it empty. |
| `Recovery.RecoverRowIsIdempotent` | internal/cli/cli.go:222-284 | Recovering a recovered row, at any later time, changes nothing. |
| `Recovery.InterruptedAdoptionCompletes` | internal/cli/cli.go:235-252 | A recovery that died right after recording an adopted runtime is completed by the next one as if it had gone on. |
| `Recovery.OnlyProcessesAreReconciled` | internal/cli/cli.go:222-284 | Of two rows that agree in phase, runtime and timestamp recovery makes the same, and it leaves their ports, names, caches and keys alone, whatever these are. |
| `Recovery.AdoptIntent` | internal/cli/cli.go:235-252 | A STARTING intent takes the identity of the one matching process exactly when there is one; otherwise nothing is written. |
| `Recovery.LaunchedIsAdopted` | internal/cli/cli.go:235-252 | If just one recent process runs the intent's program, under whatever path exec resolved it to, with the intent's arguments, recovery records that process as the runtime. |
| `Recovery.SettleRow` | internal/cli/cli.go:254-281 | The row is left or marked CRASHED with the reason of its case; an undecidable identity stops recovery and changes nothing. |
| `Recovery.RecoverOne` | internal/cli/cli.go:229-282 | One listed row takes its recovered form, or, if it cannot be decided, one whose recovered form is the same. |
| `Recovery.RecoverInterruptedDeployments` | internal/cli/cli.go:218-284 | With a process table and a clock reading of its own for each row, the loop succeeds exactly when every row can be decided, and then each row has its recovered form. If the process table stays the same, the recovered form of the table is unchanged, also when the loop stops early. |
| `Host.NoOrphanRuntime` | internal/cli/cli.go:218-252 | On a sound machine a live runtime is accounted for by its own deployment's row, the only one that is not DESTROYED. |
| `Host.OneRuntime` | internal/cli/deploy.go:152-170 | On a sound machine at most one launched runtime is alive. |
| `Host.ScanSeesLaunch` | internal/cli/cli.go:235-252 | For a STARTING intent without a PID, the scan finds the runtime launched from it, nothing else, and if it finds nothing then none is alive. |
| `ProtocolInvariant.MoveKeeps` | internal/state/store.go:219-245 | A transition that a command issues where the invariant puts it succeeds and keeps the machine sound. |
| `ProtocolSteps.RecoveryKeeps` | internal/cli/cli.go:222-284 | Every effect of recovery keeps the machine sound and leads to a point whose assertion holds. |
| `ProtocolSteps.DestroyKeeps` | internal/cli/cli.go:352-411 | Every row update of destroyOne keeps the machine sound; DESTROYED is only written when the runtime and all files are gone. |
| `ProtocolSteps.StopKeeps` | internal/supervisor/supervisor.go:292-333 | Checking, signalling and awaiting a group keep the machine sound; removal is reached only with no process of the deployment alive. |
| `ProtocolSteps.LeaderOwnsGroup` | internal/supervisor/supervisor.go:306-314 | When Stop decides to signal, every process of the group belongs to the recorded launch. |
| `ProtocolSteps.RemoveKeeps` | internal/cli/cli.go:444-469 | Checking ownership and removing log, directory and cache one by one keep the machine sound. |
| `ProtocolLaunch.PrepareKeeps` | internal/cli/deploy.go:398-426 | Every effect from VALIDATING to STARTING keeps the machine sound. |
| `ProtocolLaunch.LaunchKeeps` | internal/cli/deploy.go:427-444 | Exec, identity capture and recording it keep the machine sound: at no point is the new runtime unaccounted for. |
| `ProtocolLaunch.ServeKeeps` | internal/cli/deploy.go:447-470 | Polling and the last transitions keep the machine sound. |
| `ProtocolLaunch.FailKeeps` | internal/cli/deploy.go:386-396 | The fail closure keeps the machine sound, whether or not it can stop the runtime. |
| `ProtocolLaunch.ActKeeps` | internal/cli/deploy.go:384-474 | Every single effect of every command keeps the machine sound. |
| `ProtocolWorld.EnvKeeps` | internal/supervisor/supervisor.go:126-172 | Exits, forks, foreign processes, PID reuse, time and cache contents keep the machine sound under the stated assumptions. |
| `ProtocolWorld.RunIsSound` | internal/operationlock/lock.go:26-66 | The invariant, with at most the lock holder past the lock, holds in every world that a run from a fresh machine passes through: commands started, interleaved, ended and killed anywhere. |
| `Lifecycle.NoOrphan` | internal/cli/deploy.go:384-474 | In every reachable world, each live runtime is accounted for by the row of its own deployment, which is not DESTROYED, and by no other row. |
| `Lifecycle.AtMostOneActive` | internal/cli/deploy.go:152-224 | In every reachable world, with and without replacement, at most one row is not DESTROYED and at most one runtime is alive. |
| `Lifecycle.NoStoreFaults` | internal/cli/cli.go:351-411 | In every reachable world no command has met a conflict, an illegal transition, a duplicate, a missing row or a refused delete, and only the lock holder is past the lock. |
| `Lifecycle.SignalsReachOnlyOwned` | internal/supervisor/supervisor.go:288-341 | In every reachable world, each signal sent so far reached only processes of the recorded launch, and SIGTERM only after the leader was identical to the record. |
| `Lifecycle.DestroyedIsGone` | internal/cli/cli.go:346-350 | In every reachable world, a DESTROYED row has no live process, log, directory or cache. |
| `Lifecycle.ServingWasProbed` | internal/cli/deploy.go:447-470 | In every reachable world a row in HEALTHY or a later serving phase has a runtime for which /health answered while exactly that process was running; in REGISTERING or later the readiness checks passed for the row's own served ID; and only FAILED and CRASHED rows have a reason. |
| `Lifecycle.DeployEndsInTwoPhases` | internal/cli/deploy.go:381-474 | From every point of executeDeploy, each effect leads to another point of it or to an end with the row in UNREGISTERED_HEALTHY or FAILED. |
| `Lifecycle.StaysLaunching` | internal/cli/deploy.go:384-513 | Except while it polls, each effect of executeDeploy brings it closer to an end, at most nineteen effects away. |
| `Lifecycle.OnlyHolderWrites` | internal/operationlock/lock.go:14-66 | Rows change only by an effect of the command that has the lock. |
| `Ports.PortIsSettled` | internal/cli/deploy.go:195-224 | In every reachable world, for every event: a record keeps its port, and a new one is created by the lock holder with the port of its spec; a command that launches a deployment always finds its own spec's port in the record. |
| `Blocked.DestroyIsResumable` | internal/cli/cli.go:286-412 | In every reachable world whose lock is free, for every active record: some run of commands, in which no process is disturbed except by signals that commands send, ends the deployment exactly when the runtime that recovery leaves recorded can be stopped and the cache is absent or carries the key. |
| `Resume.DestroyCanFinish` | internal/cli/cli.go:286-412 | From every reachable world whose lock is free, wherever earlier commands died: if the runtime that recovery leaves recorded can be stopped and the cache may go, one new destroy command, with the exit of the group it signals, leaves the record DESTROYED, or purged. |
| `Completion.EveryDestroyFinishes` | internal/cli/cli.go:286-412 | From every reachable world whose lock is free, for every active deployment that can be stopped and released: in every run of one new destroy command in which no process is disturbed but by its signals and no effect fails, if the command ends then the record is DESTROYED, or purged. |
| `Completion.EveryDestroyGoesOn` | internal/cli/cli.go:286-412 | At every point of such a run before its end some answer that is no failure brings the command closer to its end, unless it waits for the death of a group that was sent SIGKILL. |
| `Blocked.RefusedStays` | internal/supervisor/supervisor.go:292-305 | While Stop refuses what recovery leaves recorded, no run of commands in which no process is disturbed except by their signals ends the deployment, or gives its record to another one. |
| `Blocked.UnreleasableStays` | internal/cli/cli.go:471-489 | While no command is at work and the cache exists without the key, no run at all ends the deployment, or gives its record to another one, whatever happens to processes. |
| `Agreement.DestroyAgrees` | internal/cli/cli.go:346-412 | In every reachable world whose lock is free: the imperative destroyOne, called on a record as recovery leaves it where nothing else fails, completes exactly when some undisturbed run of commands ends the deployment. |
| `Agreement.ClaimAgrees` | internal/cli/deploy.go:619-666 | The two effects of the protocol that make and claim a cache leave the files that the imperative method leaves, and the launch goes on exactly when the method succeeds. |
| `Termination.CommandsEnd` | internal/cli/cli.go:222-412 | Every effect of every command, in recovery, in the destroy loop or in a launch, leaves the command where it is or brings it closer to its end in a lexicographic order without infinite descent. |
| `Termination.CommandsCanGoOn` | internal/cli/cli.go:222-412 | In every reachable world, wherever the lock holder stands before its end, some answer of the environment brings it closer to its end. |
| `Progress.DeployCanSucceed` | internal/cli/deploy.go:381-474 | On every fresh machine whose cache directory is absent or empty and on which nothing else matches the intent there is a run in which a deploy ends in UNREGISTERED_HEALTHY, its runtime alive and recorded, its cache marked, and its directory and log there. |
| `Progress.DeployThenDestroy` | internal/cli/cli.go:346-412 | On every such machine there is a run that deploys and then destroys, with and without purging the record. |
| `Progress.StuckIsReachable` | internal/cli/deploy.go:624-657 | On every such machine there is a run, a crash before the marker is written, that leaves the deployment stuck. |
| `Progress.UnstoppableIsReachable` | internal/supervisor/supervisor.go:292-305 | On every such machine there is a run, in which the runtime exits and its PID is given to an unrelated process, after which the deployment cannot be stopped although its cache is in order. |
| `Replacement.TeardownBeginsAt` | internal/cli/deploy.go:197-202 | In every reachable world an event brings a record into teardown if and only if it is an effect of the lock holder that begins it: recovery marking it CRASHED, for want of a runtime or because of what became of it, destroyOne marking it FAILED or DESTROYING, or its own deploy marking it FAILED. No other event takes the record away or gives it another key. |
| `Replacement.TornDownForGood` | internal/cli/deploy.go:197-202 | Once its teardown has begun, no run brings that incarnation of a deployment back: whatever is deployed under its id later has another key. |
| `Replacement.ReplacementCanLoseBoth` | internal/cli/deploy.go:152-224 | From every reachable world whose lock is free, if the active deployment can be stopped and released, a new replacing command with any valid spec has an undisturbed run after which nothing of the old deployment is left, neither record nor process, and the new one is FAILED. |
| `Replacement.ReplacementIsExact` | docs/ARCHITECTURE.md:57 | In every reachable world whose lock is free, for every active deployment: some undisturbed run of one new deploy command loses the old deployment and leaves the new one FAILED if and only if the command may replace, the runtime that recovery leaves recorded can be stopped, and the cache is absent or carries the key. |
| `Replacement.InServiceIsReachable` | internal/cli/deploy.go:381-474 | On every fresh machine whose cache directory is absent or empty and on which nothing else matches the intent, a run brings a deployment into service that can be stopped and released. |
| `Restart.RecoveryConverges` | internal/cli/cli.go:222-284 | With the process table fixed, every effect of recovery keeps the recovered form of the table. |
| `Restart.RecoveryIsRestartable` | internal/cli/cli.go:222-284 | From every sound machine, so every reachable one, with the process table fixed: however recovering commands are interleaved, killed and restarted, the recovered form of the table never changes, and once one of them has finished every row is in it: torn down, or serving with a RUNNING identity. Checks that fail before a replacement starts leave that table as it is. |
| `Markers.MarkersAreConserved` | internal/cli/deploy.go:619-666 | Through every step of every run a written marker is never overwritten, and it or its directory disappears only when the deployment whose key it holds is destroyed. |
| `Markers.LostOnlyInWindows` | internal/cli/cli.go:471-489 | In every run the cache of an active deployment stays releasable through every step, except making its directory before its marker, and removing its marker before the rest. |
| `Markers.BecomesStuck` | internal/cli/deploy.go:398-413 | In every sound world an event makes a deployment stuck if and only if the lock holder is between creating its record and marking its cache, or between removing the marker and the rest, the directory exists without the key, and the event is its death or an effect that fails there: an I/O error, a directory that may not be claimed, or a marker written in part. |
| `Markers.StuckIsUnreleasable` | internal/cli/cli.go:471-489 | With no command between the two halves of a window, an active deployment is stuck if and only if removeOwnedData would refuse its cache. |
| `Markers.StuckForever` | internal/cli/cli.go:481-486 | A stuck deployment stays stuck through every run: never DESTROYED, never purged. |
| `Markers.InServiceOwnsCache` | internal/cli/deploy.go:407-413 | In every run a record past VALIDATING and not being torn down has its cache directory, marked with its own key. |
| `Destruction.PrepareModelCache` | internal/cli/deploy.go:619-666 | When the claim succeeds, exactly, also with a marker that cannot be read or a marker write that fails halfway; that removal will then accept the cache; that a marker already there is never touched; and that a failed claim which left a trace is refused from then on, unless the failed write had completed the key. |
| `Ids.SafeFormIsValid` | internal/cli/deploy.go:361-379 | For every reference: what is left of it after cutting, lower-casing, sanitizing and trimming is a valid ID exactly if it is not empty and has no two dots in a row. |
| `Ids.DerivedIdIsValid` | internal/cli/deploy.go:366-379 | The ID derived from any reference whatever is valid: what the reference leaves, if that is neither empty nor has two dots in a row, and otherwise `deployment-` and eight random hexadecimal digits. |
| `Ids.PlainNameIsId` | internal/cli/deploy.go:364-379 | A model whose name has at most 64 letters, digits, dots, underscores and dashes, a letter or digit at both ends and no two dots in a row is deployed under that name in lower case, whoever publishes it. |
| `Ids.GapBecomesDash` | internal/cli/deploy.go:361-374 | Between two such names every run of other characters becomes one dash, and none is left at the end. |
| `Ids.IdOfQwen` | internal/cli/deploy.go:364-366 | The ID of `Qwen/Qwen2.5-7B-Instruct` is `qwen2.5-7b-instruct`, and valid. |
| `Ids.ValidIdGrows` | internal/cli/cli.go:414-424 | Which IDs are valid, character by character: a letter or digit; and after a valid ID of less than 64 characters a letter, a digit, an underscore, a dash, or a dot that does not follow a dot. |
| `Ids.ChildIsExact` | internal/cli/cli.go:498-512 | The check accepts exactly the joined and cleaned paths at or below its base, for every list of names. |
| `Ids.TwoDotsLeadUp` | internal/cli/cli.go:414-424 | That check refuses a name that leads above the base but accepts names that lead back to it, so it would not do without the validation, which refuses two dots. |
| `Ids.SegmentsAreKept` | internal/cli/cli.go:498-512 | Names that are path segments lead from every base to exactly the base followed by these segments. |
| `Ids.OwnedPathsAreExact` | internal/cli/cli.go:426-442 | A valid ID is one path segment: its log, its directory and its default cache are exactly the paths so named below the state and cache directories. |
| `Ids.OwnersAreApart` | internal/cli/cli.go:414-442 | No path that one valid ID owns is or contains a path that another one owns. |
| `Destruction.RemoveOwnedData` | internal/cli/cli.go:444-489 | Succeeds exactly for a valid id, a releasable cache and working removals, the id being no obstacle for any deployment named after a model; then log, directory and cache are gone; a refusal has removed nothing; other deployments' files are untouched. |
| `Destruction.ModelCanBeDestroyed` | internal/cli/cli.go:346-412 | For every ID that a model reference leaves, a destruction completes exactly if the group stops or is gone, the cache may go, and the removals work. |
| `Destruction.MarkDestroying` | internal/cli/cli.go:352-371 | From every phase the record is brought to DESTROYING, with only phase, reason and timestamp changed. |
| `Destruction.ReleaseRuntime` | internal/cli/cli.go:373-395 | Goes on exactly when the recorded group stops or is already gone, and signals only a verified group. |
| `Destruction.DestroyOne` | internal/cli/cli.go:346-412 | Completes exactly when the id is valid, the group stops or is gone and the cache may go, and for a deployment named after a model exactly when the last two hold; the record is then DESTROYED or purged, and otherwise DESTROYING with the files as they were unless a removal failed. |
| `Destruction.DestroyTargets` | internal/cli/cli.go:334-344 | Each record of a destroy-all ends exactly as its own condition says, whatever happens to the others, and the command fails exactly when one of them cannot be destroyed. |
| `Destruction.ReusedPidBlocks` | internal/cli/cli.go:381-382 | For a recorded group that is empty, stopping succeeds exactly when the recorded PID is not in use: a reused PID blocks destroy although nothing is left to stop. |
| `Destruction.ReusedPidExample` | internal/supervisor/supervisor.go:292-305 | A concrete process table in which the group is empty and Stop refuses. |
| `Destruction.AmbiguousIntentOrphans` | internal/cli/cli.go:235-260 | Recovery records a runtime for a STARTING intent exactly when one process matches; with several the record can be destroyed without stopping anything. |
| `OperationLock.Lock.TryAcquire` | internal/operationlock/lock.go:22-53 | The lock is had exactly when the file opens and nobody holds it; a failed attempt leaves no open file. |
| `OperationLock.Lock.Acquire` | internal/operationlock/lock.go:18-53 | A waiting call gets the lock exactly when the file opens and the kernel grants it, and only after the file of the previous holder was closed; a failed call leaves no open file. |
| `OperationLock.Lock.Close` | internal/operationlock/lock.go:55-66 | Gives the lock up once; a second call does nothing, even if another command has the lock by then. |
| `OperationLock.FileLock.Die` | internal/operationlock/lock.go:41-52 | The death of a process drops the lock exactly if it had it. |
| `Polling.WaitHealthy` | internal/cli/deploy.go:480-499 | Ends with the first round that decides: exited if the identity no longer matches, ready only while it does and /health answers, timed out once the deadline has passed. |
| `Polling.CheckReadiness` | internal/cli/deploy.go:501-513 | Ready exactly when some probe succeeds with no deadline passed before it; it terminates once the clock passes the deadline. |
| `Polling.EndingIsUnique` | internal/cli/deploy.go:480-513 | The observations determine the ending and the round. |
| `Polling.PollingEnds` | internal/cli/deploy.go:480-513 | With a poll interval between rounds the loop ends within timeout / interval + 2 rounds. |
| `Retry.DelayIsGeometric` | internal/retry/retry.go:62-77 | After attempt n comes the base delay times the multiplier (2 unless it exceeds 1) to the power n - 1, in whole nanoseconds, or the cap if that exceeds it. |
| `Retry.FirstDelay` | internal/retry/retry.go:62-77 | The first delay is the base delay, or the cap if that is smaller; without a base delay there is none. |
| `Retry.DefaultDelays` | internal/retry/retry.go:49-77 | The default policy waits 0.5, 1, 2, 4, 8 and 16 seconds, and then always 30. |
| `Retry.DelayIsMonotoneAndCapped` | internal/retry/retry.go:62-77 | The delay never shrinks with the attempt number and never exceeds a positive cap. |
| `Retry.JitterStaysNear` | internal/retry/retry.go:79-91 | Jitter keeps a delay within [1 - f, 1 + f] times its value, up to truncation, and never negative. |
| `Retry.JitterIsLinear` | internal/retry/retry.go:79-91 | The random number takes the delay linearly from (1 - f) times it at 0 to (1 + f) times it at 1, in whole nanoseconds; at 1/2, and without a fraction, it stays as it is. |
| `Retry.Do` | internal/retry/retry.go:93-121 | The loop ends as the recursive specification says, for every stream of outcomes and cancellations, and leaves the state that its attempts produced one after the other. |
| `Retry.CallsAreExact` | internal/retry/retry.go:96-121 | Every attempt but the last failed in a way worth retrying; the last one ended the loop for the reported reason; none was started once the context was found cancelled. |
| `Retry.NothingStartsAfterCancel` | internal/retry/retry.go:103-105 | A cancellation seen before some attempt bounds the number of attempts. |
| `Retry.SleepsBetweenAttempts` | internal/retry/retry.go:113-118 | The loop sleeps the jittered delay after every attempt but the last, and never after the last. |
| `Retry.FailingIsRetried` | internal/retry/retry.go:96-121 | An operation that always fails in a retryable way is tried exactly as often as the policy says, at least once, with one sleep between every two tries. |
| `Retry.DefaultBackoff` | internal/retry/retry.go:49-121 | With the default policy and neutral jitter that is five tries and 7.5 seconds of sleep. |
| `Retry.TotalSleepIsBounded` | internal/retry/retry.go:79-142 | With a positive cap and jitter f in [0, 1], all sleeps together are at most (attempts - 1) * cap * (1 + f). |
| `Gateway.Gateway.HandleRegister` | internal/fakes/gateway.go:61-118 | Response and new state of a register call, in every case. |
| `Gateway.Gateway.HandleUnregister` | internal/fakes/gateway.go:131-141 | Response and new state of an unregister call, in every case. |
| `Gateway.Gateway.HandleGet` | internal/fakes/gateway.go:120-129 | The endpoint of a registered deployment, or 404. |
| `Gateway.RegisterIsIdempotent` | internal/fakes/gateway.go:101-117 | A well-formed call is answered 503 without effect, or 201 with the deployment's one endpoint; at most that registration is added, and the call may be repeated. |
| `Gateway.ConflictMeansAnotherKey` | internal/fakes/gateway.go:101-109 | 409 is answered exactly to a well-formed request that meets another key's registration, and nothing but a 201 changes the registrations. |
| `Gateway.NewRegistrationIsAnswered` | internal/fakes/gateway.go:74-118 | A well-formed request for a deployment not registered yet is answered 201 with the endpoint `ep-` and its own ID, which is stored under the request's key, with all other registrations as they were. |
| `Gateway.AnswerIsOwnEndpoint` | internal/fakes/gateway.go:101-128 | In every state that requests can lead to, a 201 or 200 carries the endpoint of the deployment it was asked about. |
| `Gateway.BadRequestIsExact` | internal/fakes/gateway.go:61-99 | 401 is answered exactly to a wrong token, and 400 exactly, after the outage, to a request without a key, a readable body or one of its five fields. |
| `Gateway.ExactlyOnce` | internal/fakes/failurepath_test.go:44-68 | For every policy and every pattern of 503s, lost requests, lost responses and cancellations, retrying with one key leaves at most one registration and all others untouched, is never refused for good, succeeds only if registered, and sees only equal 201 answers. |
| `Gateway.SucceedsAfterOutage` | internal/fakes/gateway.go:74-81 | Without losses the client succeeds after exactly N + 1 calls to a gateway that is unavailable N times, if the policy allows that many, and otherwise exhausts its attempts. |
| `Gateway.WrongTokenIsPermanent` | internal/fakes/gateway.go:61-72 | A wrong token ends the retries after one attempt, and leaves the gateway as it was. |
| `Gateway.UnregisterUndoesRegister` | internal/fakes/gateway.go:131-141 | Unregistering undoes registering, may be repeated, and the deployment is then not found. |
| `Planner.EstimateModel` | internal/planner/planner.go:101-152 | Over every iteration order of the census the estimate is the same: counts and weights are sums over the set of types. |
| `Sizing.CacheBytes` | internal/planner/planner.go:172-189 | Two tensors for every layer, every key/value head (the attention heads if none are given), every dimension of a head (the hidden size divided by the heads if none is given) and every token, two bytes each; it counts as unknown exactly if layers, heads or dimension are 0. |
| `Sizing.CacheHoldsStoredValues` | internal/planner/planner.go:172-189 | The cache size is two bytes for each element of the set of values that a full context stores, counted as a set. |
| `Sizing.ContextIsCapped` | internal/planner/planner.go:101-109 | The context planned for is the one asked for, or 4096 tokens, and at most what the model has positions for. |
| `Sizing.TotalIsSum` | internal/planner/planner.go:147-150 | The total is weights plus cache plus 2 GiB. |
| `Sizing.UnquantizedWeight` | internal/planner/planner.go:56-64 | A model of one tensor type weighs its count of values in that type's width, for each of the nineteen listed types in any letter case, and in 16 bits for any other. |
| `Sizing.QuantizedWeight` | internal/planner/planner.go:121-170 | Integer tensors of a quantized model cost the configured width, or the one the scheme stands for, 4 or 8 bits. |
| `Sizing.UnpackedWeight` | internal/planner/planner.go:121-170 | Its other tensors, and all tensors if the scheme's width is not known, cost what they do in an unquantized model. |
| `Sizing.CensusesAdd` | internal/planner/planner.go:128-139 | Counts and weights of disjoint sets of tensor types add up. |
| `Sizing.DetectionIsExact` | internal/planner/planner.go:81-99 | The scheme is the configuration's in lower case, else that of the first of the twelve markers in the first of the model's ID and tags that has one, in any letter case, else none. |
| `Sizing.ArchitectureExample` | internal/planner/planner.go:66-79 | `Qwen2` and `LLAMA` are known architectures in whatever letter case, and a model without a type has none. |
| `Sizing.EstimateExample` | internal/planner/planner.go:101-152 | 7,615,616,512 16-bit values and 28 layers of 4 key/value heads with hidden size 3584 and 28 heads come to 17,613,597,696 bytes, 234,881,024 of them cache: FITS 24 GiB, TIGHT on 20 GiB, TOO_BIG for 16 GiB. |
| `Planner.WeighCensus` | internal/planner/planner.go:126-140 | What the loop adds up does not depend on the order in which it visits the types. |
| `Planner.SumPick` | internal/planner/planner.go:127-139 | Any type may be added first. |
| `Planner.TotalIsMonotone` | internal/planner/planner.go:118-152 | The total never shrinks when parameter counts grow, whatever the configuration says. |
| `Planner.ContextIsCounted` | internal/planner/planner.go:102-189 | Each further token of context that is used costs the same number of bytes, and the total never shrinks with the context exactly if that number is not negative. |
| `Planner.AssessInIntegers` | internal/planner/planner.go:191-203 | The verdict as comparisons of whole numbers: TOO_BIG when 10 * total exceeds 9 * vram * 2^20, FITS when 200 * total is at most 153 * vram * 2^20. |
| `Planner.VerdictIsMonotone` | internal/planner/planner.go:191-203 | The verdict never improves with size and never worsens with VRAM. |
| `Planner.GatesAgree` | internal/cli/deploy.go:348-351 | Preflight's integer requirement is met exactly when 10 * total is at most 9 * vram * 2^20 + 8; what is not TOO_BIG meets it, and what meets it would not be TOO_BIG one byte smaller. |
| `Planner.GatesDifferByLessThanAByte` | internal/planner/planner.go:191-203 | A total that meets the requirement and is TOO_BIG. |
| `Preflight.AllocatePort` | internal/supervisor/ports.go:26-41 | The first port of the window that is neither reserved nor taken, or none exactly when there is none. |
| `Preflight.Run` | internal/preflight/preflight.go:38-108 | Passes exactly when every check does and a port can be had; all failures are collected, with the VRAM and GPU failures exactly when they apply. |
| `Preflight.PortIsUnique` | internal/preflight/preflight.go:91-102 | The checks determine the port. |
| `Preflight.DriverMajorIs` | internal/preflight/preflight.go:110-113 | The major version of a driver is the number before the first dot, or the whole of it, whatever white space surrounds that number. |
| `Preflight.ChecksInFigures` | internal/preflight/preflight.go:50-102 | Driver `n.rest` passes exactly if n is at least the required major version, the disk exactly with at least the required multiple of 2^30 bytes free, and a port that passes is one of the hundred from the preferred one. |
| `Preflight.PlannedModelPassesVramCheck` | internal/preflight/preflight.go:62-64 | A model that the planner does not call TOO_BIG for the primary GPU never fails preflight's VRAM check. |
| `Suggest.CollectCandidates` | internal/planner/suggest.go:57-77 | The nested loops compute the deduplicated, servable, name-matching results of all queries, or fail exactly when a search does. |
| `Suggest.KeptIsExact` | internal/planner/suggest.go:57-77 | Candidates are pairwise different without regard to case and never the base model, and no admissible result is lost except to an earlier one of the same name. |
| `Suggest.KeptAreServable` | internal/planner/suggest.go:29-77 | No candidate has `gguf` or `mlx` in its name or as a tag, in any letter case, and each has the base model's name in its own. |
| `Suggest.ServableIsExact` | internal/planner/suggest.go:29-45 | Nothing else makes a model unservable. |
| `Suggest.NameAfterOrg` | internal/planner/suggest.go:52-55 | The short name is all that follows the first slash, or the whole reference if there is none. |
| `Suggest.SearchesAre` | internal/planner/suggest.go:21-23 | The hub is searched for the short name with each of AWQ, GPTQ, FP8, NVFP4 and 4bit, and the results are taken in this order; one failing search fails all. |
| `Suggest.UnreadableConfig` | internal/planner/suggest.go:89-92 | A model whose configuration cannot be read is estimated without a cache, and its scheme sought in its name and tags alone. |
| `Suggest.Rank` | internal/planner/suggest.go:79 | A permutation of the candidates, most downloaded first. |
| `Suggest.ConsiderAll` | internal/planner/suggest.go:84-115 | The first five suggestions of the candidates, in order. |
| `Suggest.SuggestQuantized` | internal/planner/suggest.go:47-116 | Take five of the acceptable among the first twelve of the ranked candidates. |
| `Suggest.SuggestionsAreAcceptable` | internal/planner/suggest.go:98-104 | No suggestion is TOO_BIG or unquantized, and each was made for an admissible result that is not the base model. |
| `SuggestionOrder.OrderIsExact` | internal/planner/suggest.go:79-116 | For all pairwise different candidates and any two limits: the suggestions come out most downloaded first however ties are ranked, if and only if model pages agree with the search about the order of every two acceptable candidates that can be suggested one after the other. |
| `SuggestionOrder.PromisedOrder` | internal/planner/suggest.go:47-50 | The same for what SuggestQuantized computes, with its limits of twelve and five, whatever the searches found. |
| `SuggestionOrder.OrderIsExactUnlimited` | internal/planner/suggest.go:79-109 | Without the limits: if and only if, of every two acceptable candidates, the one with at least as many downloads in the search has at least as many on its page. |
| `SuggestionOrder.OrderCanDiffer` | internal/planner/suggest.go:79-109 | An input for which the promised order fails: two candidates whose shown downloads are in the wrong order. |

## Left out

- `runDeploy` and `executeDeploy` are modelled as steps of the protocol, one effect each, on values rather than as methods
  on objects, because every point between two effects is a place where the command may die. Only the two polling loops,
  identity capture, the cache claim, recovery and destruction are also written as methods.
- Destruction.DestroyOne: what one `Stop` call observes is a parameter; the protocol follows the process table itself, and
  `Agreement.DestroyAgrees` relates the two.
- Supervisor.Stop: the clock appears as the number of polls that fit into the grace period.
- OperationLock.Lock.Acquire: which other processes give the lock up meanwhile is a parameter, and a call during which none
  does is not modelled; directory and file modes are not part of this model.
- Restart.RecoveryIsRestartable: the process table is fixed meanwhile; if it changes, recovery decides by the table it sees.
- Polling.CheckReadiness: the readiness probe itself, HTTP and JSON, is an arbitrary outcome per round.
- Retry.Do: the per-attempt timeout is part of what an attempt may return; float64 rounding and int64 overflow of long delays
  are replaced by exact rational arithmetic.
- Planner.EstimateModel: float64 rounding and int64 overflow are replaced by exact integers, with weights counted in bits.
- Planner.GatesAgree: excludes the one case of a negative total on negative VRAM.
- Suggest.CollectCandidates: letter case is ASCII only, as is the upper-casing of tensor types.
- Ids.SafeFormIsValid: lower-casing is ASCII only here too; Go also maps U+0130 and U+212A to the letters i and k.
- Ids.OwnedPathsAreExact: the state directory is given as a cleaned absolute path, so `filepath.Abs` does nothing.
- StatLine.StatRoundTrip: boot time and clock ticks per second are parameters.
- Gateway.ExactlyOnce: response delays are covered as lost responses; the recording proxy of the test is not part of this
  model.
- The key file's contents and printed output.
- `resolveSpec` apart from its planner gate and the derivation of IDs: catalog data and revisions are not part of this
  model, and in the protocol the spec is a choice of the environment constrained to a valid id and an absolute cache path
  that ends in it.
- Log redaction, whose meaning lies in Go's regular expressions, and the log proxy's pipes.
- SQLite itself, migrations, file permissions, symbolic links.
- Command-line parsing, doctor reports, the install script, the fake model server, and the macOS identity code.
- Gateway unregistration during destroy and `iold add`, which the code does not implement yet.
