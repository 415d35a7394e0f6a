# bpm in Dafny

bpm starts, stops and runs BOSH jobs as runc containers. Every command is a short-lived process;
any number of them race on the same container, serialised only by file locks. This project models
that protocol, the names it depends on, and the pipeline that turns a job configuration into a
container spec, and proves what they guarantee.

| file | models |
|---|---|
| `JobId.dfy`, `Names.dfy`, `Files.dfy` | the container-name codec; container IDs, lock files, bundle and pidfile paths |
| `Protocol.dfy` | start, stop and run as a state machine: one step per client call, any reply, any interleaving, kills at any point, runc processes that outlive them |
| `Invariants.dfy`, `Safety.dfy`, `Deadlock.dfy` | what every step keeps and what follows for whole runs |
| `Interference.dfy` | what any run of others makes, exactly, of the container and files of a lock holder |
| `Histories.dfy` | what the end of a run says about its events: exit statuses, runc processes left behind, failed removals |
| `Stopping.dfy` | when a stop dereferences nil, when it leaves nothing and when a start orphans a process, exactly |
| `Witnesses.dfy` | runs, for every key, that show where each guarantee ends |
| `Commands.dfy` | the same commands as imperative code with interference between any two calls; every effect is a protocol step |
| `StopProcess.dfy`, `Flock.dfy`, `Bundles.dfy` | the poll loop with its timers; lock handles over the kernel's table; writing config.json |
| `Paths.dfy`, `JobConfig.dfy`, `Environment.dfy` | path cleaning and splitting; validation and flags; the environment list |
| `Mounts.dfy`, `SpecBuilder.dfy` | the mount list; specs and the privileged rewrite over shared arrays |
| `Cgroups.dfy`, `Listing.dfy` | the systemd cgroup path; `bpm list` |

## How the protocol is modelled

A state holds the bpm processes, the kernel's lock table, the containers runc knows, the bundles and
pidfiles that exist, the runc processes left behind, and four history fields that no step reads. Bundles
and pidfiles are paths, as sequences of elements: os.RemoveAll removes a path and everything below it. A
process is a command, a key (job and process name), the names these give to its container, files and
lock, the client call it makes next and what StatProcess told it. Foreign parts reply
nondeterministically: every call may fail; `runc state` describes a readable container or says that
none exists; `runc run` refuses an existing ID; `runc delete --force` that fails may have killed the
process; a foreground `runc run` removes its container when it ends. A live container may exit and a
record may become unreadable at any time. RunE errors skip PostRunE; a process that exits or is killed
loses its locks in the kernel. If it is killed while it waits for `runc delete` or `runc run`, that runc
lives on without the lock: it may remove the container, or create it, start it, write its pidfile, and
remove it again when it could not be started or has exited. `unattended` records this per container. It
allows every such effect, any number of times, from the kill on.

`Compatible` says that processes that share a container share a lock. Dot-free job names imply it
(`DotFreeCompatible`), and for two keys `LockProtectsIff` gives the exact condition. `FilesCompatible`
says that processes whose bundles or pidfiles coincide or nest share a lock. Names that are single path
elements imply it (`PlainFilesCompatible`), and for two keys `FilesProtectedIff` gives the exact
condition. What is proved about containers needs only the first, what is proved about files the second.

Several natural statements are false of the code. For each there is a run or an input that shows it,
and a theorem that says when the statement holds. The condition is exact except for deadlock and stale
pidfiles, where it is sufficient.

- A dotted job name breaks the lock: `LockProtectsIff`.
- One StatProcess error can orphan a running process: `StatErrorDoubles`, `OrphanIff`.
- A killed `run` or `stop` can make a later `stop` dereference nil: `KilledRunPanicsStop`,
  `KilledStopPanicsStop`, `NilPollIff`.
- A killed `start` can start its container after a `stop` succeeded: `KilledStartOutlivesStop`,
  `StopOverNothing`.
- A half-failed removal lets a later `stop` succeed over remains: `StopSucceedsOverRemains`,
  `StopOverNothing`, `StopCleansUp`, `StalePidfile`.
- A volume lock that stays locked can deadlock: `LeakedLockDeadlocks`, `NoDeadlock`.
- A failed `run` can exit with 0: `FailedRunExitsZero`, `UncopiedRunExitsZero`, `ErrorExitStatus`,
  `ExitStatus`.
- Names with slashes can share files, or have one bundle inside the other, without sharing a lock:
  `SlashedNamesShareFiles`, `SlashedNameNests`, `FilesProtectedIff`, `NestedFiles`.
- Mounts that share an option list disturb each other in a privileged spec: `SharedStorage`,
  `SharingIsHarmless`, `Spec.AddMounts`.
- Decode can slice out of range: `DecodeOutcome`.
- A longer old config.json survives behind the new one: `CreateBundle`.
- A root mount may come after its children: `RootMountMayComeLast`, `RootBeforeDeeper`.
- An environment key with '=' does not read back: `EnvironmentReadsBack`.
- A slice with ':' breaks the cgroup path: `PathParsesBack`.

The comment above ContainerState (src/bpm/runc/client/client.go:150-154) says that a nil state means
"not running"; the code returns it only when runc says that the container does not exist. The model
follows the code.

## Model

| member | source | states |
|---|---|---|
| JobId.EncodeName | src/bpm/jobid/encoding.go:33-47 | the index loop computes the encoding for every byte string; ByteLaw and UnescapedIff say which bytes it escapes |
| JobId.ByteLaw | src/bpm/jobid/encoding.go:80-90 | a byte stands for itself exactly if it is a letter, a digit, "_" or "-"; every other byte becomes three |
| JobId.UnescapedIff | src/bpm/jobid/encoding.go:33-47 | an ID is "bpm-" and the name exactly if every byte of the name stands for itself |
| JobId.EncodedLength | src/bpm/jobid/encoding.go:33-47 | an ID is four bytes longer than the name, and two more for every escaped byte |
| JobId.DecodeId | src/bpm/jobid/encoding.go:52-78 | the loop with its skipping index computes the decoding, including the case that slices past the end |
| JobId.DecodeMeaning | src/bpm/jobid/encoding.go:60-78 | an ID of plain bytes and codes decodes to the bytes they denote in order; two hex digits of either case denote a byte, other codes nothing |
| JobId.DecodeOfEncode | src/bpm/jobid/encoding.go:49-78 | decoding an encoded name gives the name back, for every byte string, with every index in range |
| JobId.EncodeInjective | src/bpm/jobid/encoding.go:30-47 | different names have different IDs |
| JobId.EncodedCharacters | src/bpm/jobid/encoding.go:80-90 | an encoded name only holds characters runc accepts |
| JobId.EncodeOfDecode | src/bpm/jobid/encoding.go:33-78 | re-encoding a decoded ID gives it back exactly if it has the prefix and minimal lower-case escapes |
| JobId.DecodeOutcome | src/bpm/jobid/encoding.go:53-71 | exactly which IDs decode, which are rejected and which make Decode slice out of range |
| Names.LockFilesDisjoint | src/bpm/hostlock/hostlock.go:56-78 | a job lock file is never a volume lock file, whatever the digest |
| Names.JobLockFileEquality | src/bpm/hostlock/hostlock.go:56-57 | job lock files are equal exactly if the dotted names are |
| Names.VolumeLockFileEquality | src/bpm/hostlock/hostlock.go:73-89 | volume lock files are equal exactly if the digests of the volume paths are |
| Names.SharedContainerLock | src/bpm/config/bpm_config.go:155-165 | two keys with one container ID take one lock exactly if both or neither have equal job and process names |
| Names.DotFreeNames | src/bpm/config/bpm_config.go:155-165 | with dot-free job names container IDs and lock files are injective in the key |
| Names.DottedJobBreaksLock | src/bpm/config/bpm_config.go:158-162 | a concrete pair of keys with one container and two locks |
| Names.ContainerIdDecodes | src/bpm/config/bpm_config.go:155-165 | a container ID decodes to the job name, or to job and process names with a dot if they differ |
| Files.FilesAreDistinct | src/bpm/config/bpm_config.go:93-99 | different keys of plain names have different bundle paths and pidfiles |
| Files.SharedFiles | src/bpm/config/bpm_config.go:93-149 | below any base, two keys whose names are paths of plain elements have one bundle and one pidfile exactly if their names agree with a slash between them |
| Files.FilesBelow | src/bpm/config/bpm_config.go:93-149 | for every pair of names, bundle and pidfile are the slashed name resolved below their directory |
| Files.PidFileJoins | src/bpm/bosh/paths.go:46-56 | joining the pidfile in three steps that each clean the path is joining it at once |
| Files.NestedFiles | src/bpm/runc/client/client.go:231-233 | for names of plain elements, one bundle contains another exactly if the slashed names are equal or one continues the other after a slash; and so for pidfiles |
| Files.PlainFilesApart | src/bpm/config/bpm_config.go:93-149 | the files of distinct keys of plain names neither coincide nor nest |
| Files.SlashedNamesShareFiles | src/bpm/config/bpm_config.go:147-149 | two keys with slashes that share bundle and pidfile but neither container nor lock |
| Files.SlashedNameNests | src/bpm/runc/client/client.go:231-233 | two keys with different containers and locks of which one bundle lies inside the other |
| Paths.CleanEqual | src/bpm/config/bpm_config.go:147-149 | two cleaned paths are equal exactly if both are rooted or neither is and they resolve to the same elements |
| Paths.CleanRules | src/bpm/config/job_config.go:112 | repeated slashes, "." elements, an element before ".." with it, and ".." at the root disappear |
| Invariants.ActIsLocal | src/bpm/runc/lifecycle/lifecycle.go:108-289 | a step changes no other process, container or lock and no file outside its own bundle and pidfile, and containers and files only under the job lock |
| Invariants.OneUser | src/bpm/commands/root.go:147-160 | if processes that share a container share a lock, two processes between acquire and release never share a container |
| Invariants.OneFileUser | src/bpm/commands/root.go:147-160 | if processes whose files meet share a lock, the files of two processes between acquire and release neither coincide nor nest |
| Invariants.OthersKeep | src/bpm/commands/root.go:147-173 | a step of one process keeps what every other process learned |
| Invariants.OwnStep | src/bpm/commands/start.go:58-112 | a step establishes what its own process knows at its next call |
| Invariants.EventKeepsInv | src/bpm/commands/start.go:40-112 | every event of any process, container or kill keeps the whole invariant |
| Invariants.RunKeepsInv | src/bpm/commands/stop.go:42-99 | every run keeps the invariant |
| Invariants.RunKeepsFileInv | src/bpm/runc/lifecycle/lifecycle.go:156-289 | every run keeps what the processes know about their bundles and pidfiles |
| Safety.LockHasOneHolder | src/bpm/hostlock/hostlock.go:52-68 | in every reachable state at most one process per lock file is between acquire and release |
| Safety.DotFreeCompatible | src/bpm/hostlock/hostlock.go:55-57 | with dot-free job names, processes that share a container share a lock in every reachable state |
| Safety.PlainFilesCompatible | src/bpm/config/bpm_config.go:93-149 | with names that are single path elements, processes whose files meet share a lock in every reachable state |
| Safety.PlainOneUser | src/bpm/commands/root.go:147-173 | with such names and dot-free job names, no container and no file ever has two users at once, nor lies inside the file of another user |
| Safety.StatStability | src/bpm/commands/start.go:78-109 | over any number of steps of others, what a lock holder saw stays true: absent stays absent unless a runc run was left behind, a present container stays or exits unless some runc was |
| Safety.FileStability | src/bpm/runc/lifecycle/lifecycle.go:276-289 | over any number of steps of others, the bundle and the pidfile of a lock holder stay as they are, unless a detached runc run left behind writes the pidfile |
| Safety.RunsOnlyAbsent | src/bpm/commands/start.go:93-109 | RunContainer is called only where the container is absent or was seen creating or created, unless a runc run was left behind |
| Safety.RemovesOnlyFailed | src/bpm/commands/run.go:114-124 | start and run remove only what they saw failed, and it is still not running unless a runc run was left behind, or what they got an error for |
| Safety.RunningIsLeftAlone | src/bpm/commands/run.go:115-117 | a start or run that saw its container running does nothing more to it |
| Safety.RunningIsNotLost | src/bpm/commands/root.go:229-245 | the record of a running container is dropped only by a stop, by a start or run after a StatProcess error, by a runc delete left behind, or where a runc run left behind replaced a failed container |
| Safety.NoOrphansWithoutStatError | src/bpm/commands/start.go:78-86 | without such an error no live process ever loses its record |
| Safety.RunningOnlyFromAbsent | src/bpm/runc/client/client.go:105-130 | a container starts to run only where none exists, or by a runc run left behind |
| Safety.PollIsSafe | src/bpm/runc/lifecycle/lifecycle.go:240-263 | the nil dereferences of StopProcess are unreachable unless a bpm process was killed while it waited for a runc to delete or run that container |
| Safety.CleanupOrder | src/bpm/runc/lifecycle/lifecycle.go:276-289 | container before bundle before pidfile, in every reachable state; the container can only be there again by a runc run left behind |
| Safety.StopCleansUp | src/bpm/commands/stop.go:89-98 | a stop that saw a container and succeeds leaves no container and, where files that meet share a lock, no bundle or pidfile, whatever StopProcess returned, but for what a runc run left behind makes |
| Safety.StartLeavesContainer | src/bpm/commands/start.go:93-111 | a start that succeeds leaves a container unless some runc was left behind, and it runs or has exited since unless that was a runc run |
| Safety.StartLeavesFiles | src/bpm/runc/client/client.go:109-112 | a start that succeeds and did not find its container running leaves bundle and pidfile; a run leaves its bundle and writes no pidfile; where files that meet share a lock |
| Safety.ErrorExitStatus | src/bpm/runc/client/client.go:119-129 | an error exits with 0 exactly if it is a run whose setup failed, or whose runc exited with 0 and whose output could not be copied |
| Safety.LocksAreReleased | src/bpm/commands/root.go:162-173 | after PostRunE or the end of a process none of its locks is held |
| Safety.StaleBundle | src/bpm/runc/lifecycle/lifecycle.go:174-178 | where files that meet share a lock, CreateBundle meets an old bundle only if the stat found nothing, or creating or created |
| Safety.StalePidfile | src/bpm/runc/lifecycle/lifecycle.go:276-289 | over whole runs of any keys with separate containers and pidfiles, a pidfile without its container means a removal is going on, failed or was killed, or a runc of that container was left behind |
| Safety.PlainKeysAreSeparate | src/bpm/config/bpm_config.go:93-165 | keys of plain names with dot-free jobs have separate containers and pidfiles |
| Histories.ExitStatus | src/bpm/commands/run.go:126-131 | over whole runs: a failed start or stop exits with 1; a run that failed in runc exits with the status runc returned in that run, one whose setup failed with 0, any other with 1 |
| Histories.RuncStatusIsPassedOn | src/bpm/runc/client/client.go:119-129 | over whole runs: once runc returned a status other than 0, the run fails with it; after 0 it fails with 0 if the output was not copied, and else succeeds or fails with 1 to release its lock |
| Histories.ProcessIsSpawned | src/bpm/hostlock/hostlock.go:73-89 | over whole runs, a process has the command and key it was spawned with and takes the lock files of its volumes in order |
| Histories.RecordIsTrue | src/bpm/runc/lifecycle/lifecycle.go:276-289 | in every reachable state, a runc of each kind is left behind exactly if some process of that container was killed in the call that waits for it, a removal is abandoned exactly if some process failed or was killed in one, and a stat error is recorded exactly if some start or run got one |
| Histories.LeakedIff | src/bpm/runc/adapter/adapter.go:150 | a volume lock is stuck exactly if some unlock in the run failed |
| Interference.RunAnswers | src/bpm/commands/root.go:147-173 | while a process holds its lock, whether its container is there, lives or was orphaned and whether its bundle and pidfile are there is decided exactly by what containers and runc processes left behind did, whatever other bpm processes do; for files, where those that meet share a lock |
| Stopping.NilPollIff | src/bpm/runc/lifecycle/lifecycle.go:240-263 | over any number of polls and any events of others, the next poll can return the nil state exactly if a runc left behind removed the container after the stat and none created it again |
| Stopping.StopOverNothing | src/bpm/commands/stop.go:69-71 | a stop that finds no container succeeds, and leaves nothing exactly if neither bundle nor pidfile was there and no runc run left behind made a container or pidfile since, where files that meet share a lock |
| Stopping.OrphanIff | src/bpm/commands/root.go:229-237 | a start or run that got a StatProcess error orphans a process exactly if the container was alive then and neither exited nor was removed before the state file is, or a runc run left behind created one that is alive |
| Deadlock.GoesOnUnlessBlocked | src/bpm/runc/adapter/adapter.go:145-157 | a process that did not end can make a call, waits for its container, or waits for a lock |
| Deadlock.VolumeHolderGoesOn | src/bpm/runc/adapter/adapter.go:145-157 | whoever holds a volume lock is using it and is not blocked |
| Deadlock.NoDeadlock | src/bpm/runc/adapter/adapter.go:82-87 | in every reachable state, whoever holds the lock a process waits for can go on, or waits for a volume lock whose holder can, as long as volume locks could be unlocked |
| Witnesses.LockProtectsIff | src/bpm/hostlock/hostlock.go:55-57 | for any two keys, the lock protects a shared container in all runs exactly if both keys name it in the same form |
| Witnesses.FilesProtectedIff | src/bpm/runc/client/client.go:231-233 | for any two keys, no call of the second ever changes the files of a lock holder of the first exactly if both take one lock, or no file of the first lies at or below the same file of the second |
| Witnesses.StatErrorDoubles | src/bpm/commands/start.go:78-86 | for every key a run in which one StatProcess error drops the record of a live process and starts a second one in the same container ID |
| Witnesses.KilledRunPanicsStop | src/bpm/runc/lifecycle/lifecycle.go:240-247 | for every key a run in which a killed `run` makes a stop dereference nil |
| Witnesses.KilledStopPanicsStop | src/bpm/runc/client/client.go:221-229 | for every key a run in which a stop killed during runc delete makes a second stop dereference nil |
| Witnesses.KilledStartOutlivesStop | src/bpm/commands/stop.go:69-71 | for every key a run in which a start is killed during runc run, a stop succeeds and the container runs nevertheless |
| Witnesses.StopSucceedsOverRemains | src/bpm/commands/stop.go:69-71 | for every key a run in which stop succeeds and bundle and pidfile stay |
| Witnesses.LeakedLockDeadlocks | src/bpm/runc/adapter/adapter.go:150 | for every key a run in which the only process waits for a lock it holds itself |
| Witnesses.FailedRunExitsZero | src/bpm/commands/run.go:126-131 | for every key a run in which a failed run exits with 0 |
| Witnesses.UncopiedRunExitsZero | src/bpm/runc/lifecycle/lifecycle.go:146-153 | for every key a run in which runc exits with 0, its output cannot be copied, and the failed run exits with 0 |
| Commands.ReportedStatus | src/bpm/runc/lifecycle/lifecycle.go:304-317 | which runc statuses bpm reports as running and as failed |
| Commands.Host.StatProcess | src/bpm/runc/lifecycle/lifecycle.go:195-210 | the answer fits the state it finds and decides where each command goes |
| Commands.RemoveProcess | src/bpm/runc/lifecycle/lifecycle.go:276-289 | the three calls in order are protocol steps; an error stops it |
| Commands.ForceCleanupBrokenRuncState | src/bpm/commands/root.go:229-245 | state file first, then RemoveProcess; afterwards the command goes on to start |
| Commands.MakeShared | src/bpm/runc/adapter/adapter.go:145-157 | lock, share and unlock one volume as protocol steps, ignoring a failed unlock |
| Commands.CreateJobPrerequisites | src/bpm/runc/adapter/adapter.go:71-105 | the loop takes the volume locks one at a time |
| Commands.SetupProcess | src/bpm/runc/lifecycle/lifecycle.go:156-193 | prerequisites, bundle and hook; an error ends the command |
| Commands.RunContainer | src/bpm/runc/client/client.go:105-130 | start detaches, run stays until its container has exited or its runc was killed, and its output is copied; a failed run has the status this returns; an existing ID is refused |
| Commands.AwaitContainer | src/bpm/runc/client/client.go:119-129 | the status of the foreground runc is the last thing a run learns and what it fails with |
| Commands.StartOrRun | src/bpm/commands/start.go:58-112 | under arbitrary interference, a start that returns nil leaves a container that runs or has exited |
| Commands.Switch | src/bpm/commands/run.go:109-132 | the branches on the reported status, with the fallthrough from failed |
| Commands.StopProcess | src/bpm/runc/lifecycle/lifecycle.go:234-274 | with others at work in between: the steps of the process are those of a call trace of the right shape and times, with the bound on polls; "INT" is sent if configured and "TERM" otherwise; it ends before RemoveProcess or in the nil dereference |
| Commands.StopCommand | src/bpm/commands/stop.go:60-99 | under arbitrary interference, returning nil means no container and, if one was seen and files that meet share a lock, no bundle or pidfile, but for a runc run left behind; no panic unless some runc was; at most fifteen polls in fifteen seconds |
| Commands.RunAndPost | src/bpm/commands/start.go:32-38 | PostRunE runs only after RunE returned nil |
| Commands.Execute | src/bpm/cmd/bpm/main.go:26-33 | a whole bpm process is a run of the protocol and ends without locks |
| StopProcess.Stop | src/bpm/runc/lifecycle/lifecycle.go:234-274 | for all replies and timer choices: the shape and the times of the call trace, the bound on polls, termination, and "INT" sent if configured and "TERM" otherwise |
| StopProcess.AcceptedSignalIsSent | src/bpm/config/job_config.go:133-149 | a process whose configuration is accepted is sent the signal it names, and TERM if it names none |
| StopProcess.PollBudget | src/bpm/runc/lifecycle/lifecycle.go:38-40 | with a timeout of n seconds exactly n - 1 ticks come before the timer, and the sleep after QUIT is two seconds |
| StopProcess.TraceMeaning | src/bpm/runc/lifecycle/lifecycle.go:258-272 | nil exactly if stopped was observed, timeoutError exactly if QUIT was attempted, QUIT at most once |
| Flock.Handle.Lock | src/bpm/flock/flock.go:49-60 | success sets flag and ownership and needs a file no other handle holds; a call that fails or waits changes nothing |
| Flock.Handle.Unlock | src/bpm/flock/flock.go:66-81 | panics exactly if unlocked; success clears flag and ownership |
| Flock.Perform | src/bpm/flock/flock.go:46-81 | over any operations on any handles the flag equals ownership and no two handles of a file are locked |
| Bundles.CreateBundle | src/bpm/runc/client/client.go:93-102 | config.json is the encoded spec exactly if the old file was not longer |
| Paths.ComponentPrefix | src/bpm/config/job_config.go:224-250 | comparing path parts is comparing with a prefix and a slash, for all strings |
| Paths.PathIsIn | src/bpm/config/job_config.go:224-250 | true exactly if the path starts with some prefix and a slash |
| Paths.CleanIdempotent | src/bpm/config/job_config.go:112 | cleaning is idempotent |
| Paths.AbsoluteFixedPoints | src/bpm/config/job_config.go:112-115 | the absolute paths that cleaning leaves alone are the root and those of plain parts |
| JobConfig.AcceptedVolume | src/bpm/config/job_config.go:111-131 | below an absolute root a volume is accepted exactly if its parts are plain, it lies strictly below the root and is no default |
| JobConfig.SlashRootAcceptsNothing | src/bpm/config/job_config.go:124 | with "/" as root no volume is accepted |
| JobConfig.ParseOfFormat | src/bpm/config/job_config.go:156-186 | every volume with a ':'-free path can be given by a flag and is read back |
| JobConfig.UnsetKeyStays | src/bpm/config/job_config.go:203-210 | a key no flag sets keeps its configured value |
| JobConfig.LastValueWins | src/bpm/config/job_config.go:191-210 | the last flag for a key wins, over the configuration too |
| JobConfig.ProcessConfig.Validate | src/bpm/config/job_config.go:102-140 | accepts exactly the configurations whose name, executable, signal and volumes are good; else the first fault |
| JobConfig.ProcessConfig.AddVolumes | src/bpm/config/job_config.go:151-189 | appends the parsed flags up to the first bad one; acceptance means every volume is good |
| JobConfig.ProcessConfig.AddEnvVars | src/bpm/config/job_config.go:195-212 | enters the variables up to the first bad one, then validates |
| Environment.ProcessEnvironment | src/bpm/runc/adapter/adapter.go:428-452 | one entry per key in any order; TMPDIR, LANG, PATH and HOME as given where they are missing; reads back exactly if no key has '=' |
| Environment.EnvironmentReadsBack | src/bpm/runc/adapter/adapter.go:431-433 | splitting at the first '=' recovers the environment exactly if no key has one |
| Environment.FlagKeysAreFree | src/bpm/config/job_config.go:203-210 | keys that come from flags have no '=' |
| Environment.EnvironmentEndToEnd | src/bpm/runc/adapter/adapter.go:428-452 | from configuration and flags to the list read back: the last flag for a key wins, then the configuration, then the default, and nothing else is there |
| Mounts.UserMounts | src/bpm/runc/adapter/adapter.go:408-426 | one mount per volume in order; VolumeWins says what its options mean |
| Mounts.GlobExpandVolumes | src/bpm/runc/adapter/adapter.go:389-406 | the nested loops compute the expansion that ExpandMeaning describes, order included |
| Mounts.ExpandMeaning | src/bpm/runc/adapter/adapter.go:389-406 | the expansion fails exactly if some pattern does, else it holds exactly the matches with the flags of their volume |
| Mounts.FilterVolumes | src/bpm/runc/adapter/adapter.go:312-338 | the comparison of path parts keeps, in order, the volumes that no bosh mount covers |
| Mounts.UncoveredMeaning | src/bpm/runc/adapter/adapter.go:312-338 | a volume is kept exactly if it is neither a bosh destination nor below one |
| Mounts.FirstWins | src/bpm/runc/adapter/mount.go:133-142 | the map holds exactly the first mount of every destination |
| Mounts.SortSlice | src/bpm/runc/adapter/mount.go:151-155 | some permutation ordered by depth |
| Mounts.DedupMounts.AddMounts | src/bpm/runc/adapter/mount.go:133-142 | adds a list, first mount per destination winning |
| Mounts.DedupMounts.Mounts | src/bpm/runc/adapter/mount.go:144-158 | distinct destinations, exactly the first mounts, ordered by depth, whatever order the map yields |
| Mounts.AncestorsFirst | src/bpm/runc/adapter/mount.go:151-155 | every mount comes before the mounts below it |
| Mounts.RootBeforeDeeper | src/bpm/runc/adapter/mount.go:151-155 | the root comes before everything with two or more components |
| Mounts.SameDepthMaySwap | src/bpm/runc/adapter/mount.go:151-155 | the order of two mounts of one depth is open: swapping them gives another list that can be built |
| Mounts.RootMountMayComeLast | src/bpm/runc/adapter/mount.go:151-155 | whatever list BuildSpec makes of a request that mounts the root, it may as well make one that mounts it after /bin |
| Mounts.RootVolumeIsListed | src/bpm/runc/adapter/adapter.go:241-248 | an unrestricted volume "/" is such a request unless a bosh mount is the root itself |
| Mounts.BuildMounts | src/bpm/runc/adapter/adapter.go:218-248 | the list of the four sources in order, each mount with the options of the first grant for its destination; fails exactly if a directory check or a pattern fails |
| Mounts.ListGrants | src/bpm/runc/adapter/mount.go:30-119 | every mount of a list gives what the first grant for its destination says, by option strings, and every first grant is mounted: system before bosh before additional before unrestricted |
| Mounts.SystemWins | src/bpm/runc/adapter/adapter.go:346-357 | the directories of the host are mounted read-only and executable from themselves, whatever else asks for them |
| Mounts.VolumeWins | src/bpm/runc/adapter/adapter.go:408-426 | where no system or bosh mount is, the first volume decides: "rw" exactly if it is writable, "exec" exactly if it allows executions |
| Mounts.WhatCanBeWritten | src/bpm/runc/adapter/adapter.go:359-387 | every mount has one of "rw" and "ro" and one of "exec" and "noexec", and "nosuid" and "nodev"; what is "rw" is a temporary, log, data or store directory that is not "exec", or a writable volume; what is both is a volume with both flags |
| Mounts.BoshMountsStayClear | src/bpm/runc/adapter/adapter.go:241-248 | no unrestricted volume is mounted at or below a bosh mount |
| SpecBuilder.OneRemovalIsEnough | src/bpm/runc/specbuilder/specbuilder.go:237-245 | removing the first "nosuid" removes all exactly if there is at most one |
| SpecBuilder.ShiftDown | src/bpm/runc/specbuilder/specbuilder.go:240 | the append shifts the array in place and leaves the last element behind |
| SpecBuilder.RemoveNosuid | src/bpm/runc/specbuilder/specbuilder.go:237-245 | the returned slice lacks the first "nosuid", over the same array, whose tail is untouched |
| SpecBuilder.Spec.constructor | src/bpm/runc/specbuilder/specbuilder.go:24-92 | the default mounts, each with an option list of its own, and the default settings |
| SpecBuilder.Spec.AddMounts | src/bpm/runc/specbuilder/specbuilder.go:152-156 | appends the mounts with the option lists of the caller; no list is shared afterwards exactly if none was before, on either side or between them |
| SpecBuilder.Spec.AllowSuid | src/bpm/runc/specbuilder/specbuilder.go:225-227 | if no option list is shared, rewrites every mount in place and disturbs no other |
| SpecBuilder.Spec.MakePrivileged | src/bpm/runc/specbuilder/specbuilder.go:214-229 | the whole privileged spec, root included, with namespaces and cgroups path kept; the mounts if no option list is shared |
| SpecBuilder.Apply | src/bpm/runc/specbuilder/specbuilder.go:102-106 | any options in any order keep the four capability lists equal and hold exactly the option lists given; if no two are one, the mounts are what the options make of them; the last WithUser or WithPrivileged decides the user, the last WithCgroupsPath the path, namespaces come in order, protections fall only by the options that say so |
| SpecBuilder.UserAfter | src/bpm/runc/specbuilder/specbuilder.go:122-126 | the last option that sets the user decides, and it is root if that is WithPrivileged |
| SpecBuilder.NamespacesAfter | src/bpm/runc/specbuilder/specbuilder.go:116-120 | namespaces are those before, followed by those of the options in order |
| SpecBuilder.CgroupsPathAfter | src/bpm/runc/specbuilder/specbuilder.go:231-235 | the last cgroups path given wins |
| SpecBuilder.ProtectionsAfter | src/bpm/runc/specbuilder/specbuilder.go:208-229 | privileges, masked and read-only paths fall exactly with WithPrivileged, seccomp exactly with that or WithoutSeccomp |
| SpecBuilder.ProcessCapabilities | src/bpm/runc/adapter/adapter.go:454-462 | every capability in order, with its prefix |
| SpecBuilder.PrivilegedMounts | src/bpm/runc/specbuilder/specbuilder.go:225-227 | default and generated mounts lose "nosuid" and keep every other option in order |
| SpecBuilder.PickMounts | src/bpm/runc/adapter/mount.go:133-158 | dropping duplicates and sorting never gives two mounts one option list |
| SpecBuilder.BuildSpec | src/bpm/runc/adapter/adapter.go:218-309 | an unprivileged container runs as its user, confined, with "nosuid" on every mount but /proc; a privileged one as root, unconfined, with "nosuid" on none; namespaces, capabilities and cgroups path; no option list shared; fails exactly if a directory check, a pattern or the memory limit does |
| SpecBuilder.Confined | src/bpm/runc/specbuilder/specbuilder.go:53-90 | every default and generated mount but /proc has "nosuid" |
| SpecBuilder.SharedStorage | src/bpm/runc/specbuilder/specbuilder.go:237-245 | what two mounts with one option list end up with, for every list |
| SpecBuilder.SharingIsHarmless | src/bpm/runc/specbuilder/specbuilder.go:237-245 | with at most one "nosuid", both end up right exactly if there is none or it is the last option |
| Cgroups.Normalize | src/bpm/cgroups/cgroup.go:178-189 | the loop computes the normal form that NormalizedCharacters describes |
| Cgroups.NormalizedCharacters | src/bpm/cgroups/cgroup.go:178-189 | letters, digits, "-" and "_" are kept and every other character becomes a dash |
| Cgroups.ToSystemdCgroupsPath | src/bpm/cgroups/cgroup.go:143-174 | the loops find the first slice, and the part after it or else the first non-empty part |
| Cgroups.SlicePath | src/bpm/cgroups/cgroup.go:132-160 | inside a slice the path is that slice, the normal form of what comes right below it, and the ID |
| Cgroups.NoSlicePath | src/bpm/cgroups/cgroup.go:146-173 | outside of any slice it is system.slice, the normal form of the first part, and the ID |
| Cgroups.PrefixCharacters | src/bpm/cgroups/cgroup.go:176-189 | the prefix only holds characters systemd accepts |
| Cgroups.PrefixIsUnique | src/bpm/cgroups/cgroup.go:162-171 | the prefix says more than "bpm" exactly if some part of the path is not empty |
| Cgroups.PathParsesBack | src/bpm/cgroups/cgroup.go:173 | splitting at ':' gives slice, prefix and container ID back exactly if the slice has no ':' |
| Listing.StatusesAgree | src/bpm/runc/lifecycle/lifecycle.go:304-332 | list and stat report the same for every status string |
| Listing.ListProcesses | src/bpm/runc/lifecycle/lifecycle.go:216-232 | each container in order, reported as StatProcess would |
| Listing.ConfiguredRows | src/bpm/commands/list.go:43-63 | one stopped row per configured process in order |
| Listing.UpdateProcess | src/bpm/commands/list.go:91-104 | overwrites the first row of that name in place, else says what is extra |
| Listing.MergeRunning | src/bpm/commands/list.go:75-80 | the fold over running containers; it ends early exactly if an extra ID makes Decode slice out of range |
| Listing.UpdateMeaning | src/bpm/commands/list.go:92-97 | an update changes at most the first row of its name and no name |
| Listing.MergeKeepsNames | src/bpm/commands/list.go:75-80 | merging keeps the rows and the sequence of their names |
| Listing.MergeLeavesAlone | src/bpm/commands/list.go:75-80 | rows nobody reported, and later rows of a name, stay as they were |
| Listing.MergeShowsLast | src/bpm/commands/list.go:75-80 | the first row of a name shows the container reported last |
| Listing.RowsDecode | src/bpm/presenters/presenters.go:33-45 | every row decodes to the names it was built from, whatever is running |
| Listing.ListingShows | src/bpm/commands/list.go:43-80 | a configured process is shown with the PID and status of the container reported last under its ID, "failed" unless that is creating, created or running, and as "stopped" if none was reported |

## Left out

- runc, tini, mount, chown, YAML, JSON and sha256 are foreign: they appear as nondeterministic replies, parameters or digests.
- Client calls are single steps of a bpm process: one killed inside a call that starts no runc counts as killed before or after it, and intermediate statuses are seen only of runc processes left behind.
- A failed `runc run` leaves any container status, but no pidfile that was not there before.
- Of files, the protocol follows bundles and pidfiles below the default root: not the directories that MkdirAll makes above them, nor other files that a name with ".." elements may reach, nor how much a failed RemoveAll removed.
- FilesAreDistinct: names that are single path elements; `SharedFiles` and `NestedFiles` cover slashes, `FilesBelow` every name.
- `Waiting` in `Commands` stands for a command still blocked in flock: fairness of the kernel among waiters is not modelled.
- A runc executable that cannot be started at all: src/bpm/runc/client/client.go:120 then reads the state of a process that never existed.
- Containers are paused, resumed, created or deleted by nobody but bpm and the runc processes it starts.
- NoDeadlock: one direction only, because whether a volume lock that stayed locked blocks anyone depends on which volumes are shared later.
- StalePidfile: one direction only, because a removal that failed may be repeated with success.
- The mutex inside a lock handle: Lock and Unlock of one handle are atomic here.
- LeakedLockDeadlocks: does not model that the garbage collector may close the file of a lost handle and free its lock.
- StopProcess.Stop: a tick is preferred over a due timer at most `late` times, for any `late`; Go's select gives no bound.
- Resource limits, seccomp tables, hooks' commands, work directories and the root filesystem of BuildSpec would only add easy members; the directories of a job are parameters.
- Exit statuses are integers: what the kernel makes of one outside 0 to 255 is left out.
- That a tick arrives in time: the model only says when none can have arrived yet.
- Directory creation and ownership in CreateJobPrerequisites appear only as a setup that may fail.
- logs, trace, shell, pid and version take no lock and change no container.
- cgroups.Setup, SelfCgroupPath, sysfeat, sharedvolume, safeio and usertools are system plumbing.
