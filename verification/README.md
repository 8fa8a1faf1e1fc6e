# Verified model of safeatomic's persistence protocol

safeatomic replaces files atomically: a writer fills a temporary file, fsyncs
it, renames it over the target, fsyncs the directory and optionally writes a
checksum sidecar; a lock file beside the target keeps cooperating writers
apart.  This project models that protocol, the code that runs it, and four
smaller pieces (sidecar text, streaming hash, scoped configuration, mount
lookup with its environment cache), and proves what they promise.

Verify everything with `dafny verify dfyconfig.toml` (Dafny 4.11).

## How it is built

The protocol is modelled twice.

**As transition systems.** `Storage` is a directory with inodes (current
content, synced or not), entries (current, and every value since the last
directory fsync), any number of writers and readers with program counters, and
power loss.  `LockProtocol` is the lock file with any number of processes on
any number of hosts; create, payload write, inspection, liveness probe and
unlink are separate steps.  `Composite` runs both together for one target,
over any number of power losses and restarts.  Every system call is one step,
every step may be replaced by a failure, a process may stop for ever at any
point, and a run is any sequence of possible steps.  A step carries whatever
the state does not determine, so `Can` and `Do` are a predicate and a
function.

**As code.** `Machine.Process` is one process of the library among all the
others: between two of its system calls any steps of other processes happen,
and any call fails at will.  `SystemCalls`, `LockFile`, `WriteCore`,
`ReadCore`, `AtomicWriterObject` and `AtomicReaderObject` are the library's
functions and classes over it, with their loops, handlers and cleanups.  They
can only make steps of the transition systems.  A process carries the run it
is part of, from a start that never changes; each call only adds to it, and
its contract says which of the added steps are the call's own.  It also keeps a
record of its calls that failed, so that contracts say which failures lie
behind each ending.  So every theorem about runs holds at every point of the
code and of its callers (`Machine.CodeNeverLosesUpdates`,
`WriteCore.SidecarAfterWrite`), and what a call reports is tied to the steps
it took (`LockFile.Attempted`, `OwnNames`, `ReadTrace`).

That the systems do run is shown by the explicit runs among the theorems:
`StorageTheorems.CollisionTearsTheTarget`, `LockProtocol.EveryRuleIsNeeded`
and `StaleSidecar.ReleasingEarlyLeavesAStaleSidecar` each construct one from
an initial state.

| file | content |
|---|---|
| Paths, SidecarText, Hashing | derived names; printer and parser of the sidecar; chunked hashing, writing and verifying a sidecar |
| Storage, StorageInvariant, StorageTheorems | write, read and crash protocol |
| CrashOutcomes | what power loss can leave, exactly |
| LockProtocol, LockSpec, StaleLocks | lock files; refinement of the published TLA+ specification; stale recovery |
| Composite, Recovery | locked writers of one target: no lost updates, also over power loss and restart |
| SidecarAgreement, SerialCommits, StaleSidecar, LostSidecar | when target and sidecar agree, a schedule on which they do not, and what power loss does to the sidecar |
| Machine, SystemCalls, LockFile, WriteCore, ReadCore, WriterCalls, AtomicWriterObject, AtomicReaderObject, WriterBlock | the code |
| OwnNames, ReadTrace | what the steps of one call did to the directory, and what they read |
| Config, Mounts, Environments | scoped configuration, mount lookup, environment cache |

## Assumptions

- `rename()` is atomic and `open()` with O_CREAT|O_EXCL is exclusive (IEEE Std 1003.1-2017, System Interfaces, `rename()` and `open()`).
- An fsynced inode that is not written again keeps its content over power loss; any other content may come back as anything.
- A directory entry comes back from power loss with its current value or any value it had since the last successful directory fsync of any process.
- A temporary name drawn by `tmp_path_for` is never drawn twice. `StorageTheorems.CollisionTearsTheTarget` shows a run that breaks the main promise without this: the handler at src/safeatomic/_io_core.py:422-429 unlinks a name its call did not create.
- No target looks like a temporary file or equals another target's lock or sidecar. At the start the directory is at rest: no target shares an inode with a sidecar, what the targets contain is synced, and no change of an entry is pending.
- The hash is a function; where a theorem needs it, digests are lowercase hexadecimal, different contents have different digests, and updating a hasher piece by piece is updating it at once.
- `close()` gives the descriptor up even when it reports an error, and a successful `write()` of a non-empty buffer takes at least one byte.
- At most one writer per target is active in a process (the release identifies its owner by pid and host only), and a lock file is damaged by outsiders only after its payload was written.
- `Composite`, and the code built on it, follows the four rules of `LockProtocol.Rule` (no forced release and no age policy, no reused pid, one stale recovery at a time, lock file not replaced between a recovery's read and its probe). `LockProtocol.EveryRuleIsNeeded` gives, for each rule, a run that keeps the other three and puts two processes inside. The refinement in `LockSpec` needs none of them, nor does anything in `StorageTheorems`: files, versions and power loss do not depend on who has the lock. Power loss ends every process; the lock file may be gone, still there, or back after it was unlinked; processes started later come with pids of their own.

## Where code and documentation differ

The model follows the code.

- docs/guarantees.md:57-58 says the lock is released after the directory fsync. `_write_core` releases it in its `finally` (src/safeatomic/_io_core.py:432-435), before the directory fsync and the sidecar. Exclusion of the replace is unaffected, the sidecar is: `StaleSidecar.ReleasingEarlyLeavesAStaleSidecar`. `SerialCommits.SidecarSpeaksForTarget` gives the schedules on which it is not, `SidecarAgreement.AgreesExactly` the exact condition.
- docs/guarantees.md:77-79 says the sidecar is written atomically. It is opened for writing in place and not fsynced (src/safeatomic/_checksum.py:250); a name outside ASCII empties it and then fails (`Hashing.SidecarWrittenExactly`).
- The docstring of `AtomicWriter.commit` says "warnings only" of the directory fsync. Under `strict` it raises (src/safeatomic/_io_core.py:1113), and then nothing releases the lock unless `abort` is called (`WriterCalls.ExitExactly`).
- `__enter__` does not reset `_committed` (src/safeatomic/_io_core.py:952-984), and `__exit__` commits only while it is unset (lines 996-998). An object used in a second `with` statement loses that block's data without an error, and keeps file and lock in hand: `WriterCalls.SecondBlockIsLost`. `WriterCalls.LeftOpenExactly` says of every sequence of calls whether it ends like that.
- `commit` does not look at `_aborted`, and a clean exit after an abort does nothing. An aborted writer that is entered again can still replace the target (`WriterCalls.ReplacesAfterAbortExactly`), or leave its block with file and lock in hand (`WriterCalls.ReenteredObjectKeepsTheLock`).
- The docstring of `release_stale_lock` says it releases a lock if and only if it is stale (src/safeatomic/_locks.py:740). Between its read and its unlink the lock file may be replaced; `StaleLocks.RecoveryHitsAnotherHost` is a run in which it unlinks a live lock of another host, `StaleLocks.WhoseLockGoes` gives the condition under which it cannot.
- A digest is checked with the algorithm the reader asks for, not the one the sidecar records (src/safeatomic/_io_core.py:639-640).

## Model

| member | source | states |
|---|---|---|
| Paths.DerivedNames | src/safeatomic/_paths.py:80-185 | lock, sidecar and temporary names of all targets are pairwise different, and different targets or tokens have different names |
| Paths.TmpNamesExactly | src/safeatomic/_paths.py:127-185 | the lexical test accepts exactly the names made of prefix, some token and suffix |
| SidecarText.GetChecksumInfo | src/safeatomic/_checksum.py:286-334 | the line loop that overwrites earlier keys computes the parse function; an absent or unparsable sidecar gives None |
| SidecarText.RoundTrip | src/safeatomic/_checksum.py:246-334 | for every file name, line breaks and "algo=" texts included, digest, algo and timestamp come back if and only if algo and timestamp have no line breaks and no outer spaces |
| SidecarText.DigestComesBack | src/safeatomic/_checksum.py:305-309 | the digest comes back whatever the name and the other fields are |
| SidecarText.RoundTripBytes | src/safeatomic/_checksum.py:246-334 | the same through the ASCII file |
| SidecarText.PrintableExactly | src/safeatomic/_checksum.py:246-250 | the encoder rejects the text exactly when some part of it is outside ASCII |
| SidecarText.PrintDescribes | src/safeatomic/_checksum.py:246-250 | the encoded text describes what it was made for: its first line is digest, two spaces and name, and it parses to digest, algo and timestamp (the latter two if clean) |
| SidecarText.ParseExactly | src/safeatomic/_checksum.py:296-317 | what any text parses to: nothing if its first line is blank; algo and timestamp are what the last line sets that sets them, and without one SHA-256 and no timestamp |
| SidecarText.DigestExactly | src/safeatomic/_checksum.py:305-309 | for any text that parses, the digest is the first word of the first line, in lower case |
| SidecarText.LowerExactly | src/safeatomic/_checksum.py:200-201 | comparing in lower case is comparing up to the case of ASCII letters |
| Hashing.ComputeHashFile | src/safeatomic/_checksum.py:98-105 | the chunk loop ends and returns the hash of the whole content for every file size; which error comes exactly when, an unknown algorithm before a missing file |
| Hashing.Files.WriteChecksumFile | src/safeatomic/_checksum.py:238-251 | result and directory after every outcome: a written sidecar describes the file (digest, name, algo, timestamp) and nothing else changed; the emptied sidecar of text that does not encode, and after an I/O error an unchanged sidecar or some first part of the text |
| Hashing.Files.VerifyChecksum | src/safeatomic/_checksum.py:189-201 | each answer and error if and only if: a digest that is neither given nor read from the sidecar is FileNotFoundError first, then an unknown algorithm, then a missing file; else true exactly if the hash of the content is the wanted digest up to case; an unreadable sidecar counts as missing, an unreadable file is an error |
| Hashing.TornSidecarIsHarmless | src/safeatomic/_checksum.py:189-251 | a sidecar cut off at any byte verifies nothing before it holds its whole digest, and exactly the content it was made for from then on |
| Hashing.WriteThenVerify | src/safeatomic/_checksum.py:189-251 | after a successful write, verification is true for the same content and false for every other |
| Hashing.VerifyIgnoresCase | src/safeatomic/_checksum.py:189-201 | a digest given in either case is found right exactly for the content it is the digest of |
| Hashing.SidecarWrittenExactly | src/safeatomic/_checksum.py:238-251 | writing succeeds exactly for an existing file, a known algorithm and ASCII throughout; otherwise which error, and what is lost |
| Hashing.SidecarDescribes | src/safeatomic/_checksum.py:238-251 | a successful write leaves a sidecar that describes the file, and changes nothing else |
| StorageInvariant.InitHolds | src/safeatomic/_io_core.py:367-446 | any directory at rest is a proper start: no sidecar shares an inode with a target, the targets' content is synced, no change of an entry is pending |
| StorageInvariant.StepKeeps | src/safeatomic/_io_core.py:367-446 | every step of every writer and reader, and power loss, keeps the invariant: published inodes are frozen and synced, every possible entry of a target is a version from the durable floor on, temporaries hold exactly what was accepted |
| StorageTheorems.CrashConsistency | src/safeatomic/_io_core.py:396-442 | after any run, power loss leaves one complete version of the history under each target, no older than any version a strict write returned for |
| CrashOutcomes.PowerLossExactly | src/safeatomic/_io_core.py:396-442 | the exact outcomes: after any run, power loss can leave a target as it was at any point since the last directory fsync that succeeded, and as nothing else |
| CrashOutcomes.OnlyDirectoryFsyncConfirms | src/safeatomic/_io_core.py:171-251 | of all steps of a writer only a directory fsync that succeeds confirms versions, and then all there are |
| CrashOutcomes.OnlyFsyncMakesDurable | src/safeatomic/_io_core.py:406-410 | the content of a file becomes certain only by its own fsync, and uncertain again by every write |
| StorageTheorems.StrictWriteSurvives | src/safeatomic/_io_core.py:171-251 | a strict write that returned put all its data into the history, and no later power loss brings back anything older |
| StorageTheorems.HistoryIsPlacements | src/safeatomic/_io_core.py:418-420 | the history of a target is exactly what its own writers put in place, in order |
| StorageTheorems.EveryVersionWasPlaced | src/safeatomic/_io_core.py:418-420 | also over power losses, nothing shown was ever anything but initial content or one writer's complete content |
| StorageTheorems.TargetsDoNotInterfere | src/safeatomic/_io_core.py:396-429 | runs in which no writer of a target replaces it leave it as it is, whatever writers of other targets do |
| StorageTheorems.OnlyOwnNames | src/safeatomic/_io_core.py:396-446 | a writer's step changes no directory entry but those of its temporary, target, sidecar and lock |
| StorageTheorems.SnapshotRead | src/safeatomic/_io_core.py:1202-1270 | successive reads of one open file concatenate to a prefix of one complete version, not older than the call, however many replaces happen in between |
| StorageTheorems.NoFalseMatch | src/safeatomic/_io_core.py:619-687 | in every reachable state a finished checked read has a complete version, succeeds exactly if that hashes to the digest parsed from the bytes it read, and reports a mismatch only otherwise |
| StorageTheorems.CheckedReadIsTheRecordedContent | src/safeatomic/_io_core.py:644-687 | with an injective hash the content returned is the one the sidecar was made for |
| StorageTheorems.CollisionTearsTheTarget | src/safeatomic/_io_core.py:422-429 | without fresh names: a run after which the target shows half of one writer's data |
| LockProtocol.Exclusion | src/safeatomic/_locks.py:442-482 | at most one live process is between its own successful create and the end of its own release, under the four rules, with deaths, failing calls, damaged payloads and recovery |
| LockProtocol.StepKeeps | src/safeatomic/_locks.py:442-534 | each step keeps the lock invariant: whoever is inside owns the file under the lock name, a condemned file has a dead creator |
| LockProtocol.EveryRuleIsNeeded | src/safeatomic/_locks.py:688-761 | for each rule a reachable run that breaks exclusion while keeping the other three |
| LockProtocol.AgePolicyBreaks | src/safeatomic/_locks.py:732-761 | an age policy alone, without any forced release, breaks exclusion |
| StaleLocks.CondemnsOnEvidence | src/safeatomic/_locks.py:726-731 | in every run, with or without the rules: a recovery that condemns a lock by its pid has read a payload of its own host and then found no process with that pid; never one of another host |
| StaleLocks.RecoveryDecides | src/safeatomic/_locks.py:735-761 | with any steps of others in between, a recovery goes on to unlink if and only if the caller's age policy says so or the payload names this host and a pid that runs no more; then the lock file goes unless the unlink fails |
| StaleLocks.WhoseLockGoes | src/safeatomic/_locks.py:520-761 | in every run a lock file goes by force, by age, by an unlink meant for a file it has replaced, or on its creator's host: by the creator, a process with the creator's pid, or a recovery after the creator's death |
| StaleLocks.OtherHostsKeepTheirLocks | src/safeatomic/_locks.py:726-732 | so no unlink that is aimed at the file it hits takes another host's lock |
| StaleLocks.RecoveryHitsAnotherHost | src/safeatomic/_locks.py:735-761 | the condition is needed: a run in which the lock is replaced between read and probe, and a recovery unlinks a live lock of another host |
| StaleLocks.RulesAim | src/safeatomic/_locks.py:520-761 | under the rules every unlink hits the file it is meant for: a lock goes by its creator, or by a recovery on its host after the creator's death |
| StaleLocks.StaleReleasesExactly | formal/SafeAtomicLock.tla:58-137 | to the host of the lock, ReleaseStaleLocal is a recovery by pid on that very host after the owner's death, and such a recovery of a file that still parses is no other action |
| StaleLocks.NothingIsForced | formal/SafeAtomicLock.tla:58-137 | under the rules a lock that parses goes, as its own host sees it, by ReleaseLocalLock or ReleaseStaleLocal, never by ForceRelease |
| LockSpec.SpecIsSafe | formal/SafeAtomicLock.tla:143-186 | the five safety invariants hold in every behaviour of the specification |
| LockSpec.StepsOfTheSpec | formal/SafeAtomicLock.tla:58-186 | what the invariants say of states, for steps: a corrupt or remote lock is never recovered as stale, only a live local lock is released normally, a lock is taken only when free |
| LockSpec.StepRefines | formal/SafeAtomicLock.tla:58-137 | each step of each process is the named action of the specification, as seen from any host, without any rule; which recoveries are ReleaseStaleLocal is said by `StaleLocks.StaleReleasesExactly` |
| LockSpec.LockFilesImplementTheSpecification | formal/SafeAtomicLock.tla:58-186 | what any host sees of any run of any number of processes is a behaviour of the specification and satisfies its invariants |
| LockSpec.LiveOwnersKeepTheirLock | src/safeatomic/_locks.py:520-534 | under the rules a lock leaves a live local owner only by that owner's release |
| Composite.NoLostUpdates | src/safeatomic/_io_core.py:952-1123 | for any mix of locked `AtomicWriter` blocks and `_write_core` calls, over deaths, power losses and recoveries, in every reachable state the target, and each earlier version, is its committed changes applied one after the other to the first content |
| Composite.StepKeeps | src/safeatomic/_io_core.py:952-1123 | a block that may still replace the target has seen its current content |
| Recovery.PowerLossKeepsAPrefix | src/safeatomic/_io_core.py:1057-1123 | a power loss at any point leaves a prefix of the changes there were, with every strictly confirmed one in it |
| Recovery.ConfirmedUpdatesSurvive | src/safeatomic/_io_core.py:171-251 | once a strict commit has returned, its change and all it was built on stay part of the target through further updates and any number of power losses and restarts |
| SidecarAgreement.SidecarSpeaksForItsVersion | src/safeatomic/_checksum.py:238-251 | for any mix of locked writers whose sidecar writes do not overlap: the sidecar describes the version its last writer had hashed: the hash of that version by the writer's algorithm, the target's name, that algorithm, and the timestamp of that writer's hash step in the run |
| SidecarAgreement.AgreesExactly | src/safeatomic/_io_core.py:432-446 | then target and sidecar agree (the sidecar describes the target's content) if and only if the content that was hashed is the content shown now |
| SerialCommits.SidecarSpeaksForTarget | src/safeatomic/_io_core.py:418-446 | for any mix of locked writers none of which commits while another is between its replace and its return: from the return of the last commit on, the sidecar's digest is the hash of the target |
| SerialCommits.IdleTargetAndSidecarAgree | src/safeatomic/_io_core.py:418-446 | so target and sidecar agree whenever every commit past its replace has returned |
| SerialCommits.WholeWritersAgree | src/safeatomic/_io_core.py:1093-1123 | `AtomicWriter` blocks are such writers by holding the lock, so for them it holds on every schedule |
| SerialCommits.UncontendedCommitAgrees | src/safeatomic/_io_core.py:418-446 | calls one after the other are such writers, too: after a serial run with no other block under way, a commit during which nobody else enters leaves a serial run and an agreeing sidecar |
| StaleSidecar.ReleasingEarlyLeavesAStaleSidecar | src/safeatomic/_io_core.py:432-446 | two locked `_write_core` calls, both returned, lock free, sidecars written one after the other, and the sidecar speaks for the older content; the commits were not serial |
| LostSidecar.PowerLossTearsTheSidecar | src/safeatomic/_checksum.py:248-250 | in every reachable state in which the sidecar of the target is not synced, power loss can leave the target as it is with any bytes at all as its sidecar |
| LostSidecar.SidecarSurvivesExactly | src/safeatomic/_checksum.py:248-250 | with no change of the two entries pending, every power loss leaves the sidecar as it is if and only if there is none or it is synced; the target always stays as it is |
| LostSidecar.ReturnedCallIsExposed | src/safeatomic/_io_core.py:432-446 | a run after which a strict call with a sidecar has returned, target and sidecar agree, and the sidecar is not synced |
| LostSidecar.CheckedReadAnswers | src/safeatomic/_io_core.py:662-687 | from every reachable state, a checked read of any target with any algorithm and nobody else about succeeds, raises a mismatch or FileNotFoundError exactly by the digest the sidecar has |
| LostSidecar.CheckedReadAfterPowerLoss | src/safeatomic/_io_core.py:662-687 | so the intact content beside an unsynced sidecar may be refused after a power loss, by the bytes that came back; no other content is ever handed out |
| Machine.Process.Others | src/safeatomic/_io_core.py:367-446 | what a process may rely on while any others take any steps |
| Machine.OwnIsForeign | src/safeatomic/_io_core.py:367-446 | what any process does, what its application reads, and damage to a lock file are among the steps every other process reckons with |
| Machine.CodeNeverLosesUpdates | src/safeatomic/_io_core.py:367-446 | at every point of the code the run so far is a run of the system, and loses no updates |
| SystemCalls.WriteBytesToFd | src/safeatomic/_io_core.py:254-261 | the loop over partial writes hands over all bytes, or a known prefix when a call fails |
| SystemCalls.Replace | src/safeatomic/_io_core.py:418-420 | success makes exactly the accepted bytes the newest version and takes the temporary name away |
| SystemCalls.FsyncDir | src/safeatomic/_io_core.py:171-251 | a failure raises exactly under strict, warns under warn and passes silently under best effort; success settles the directory |
| SystemCalls.WriteSidecar | src/safeatomic/_checksum.py:238-251 | hash, truncate and write in place; success only with the whole text written, the text describing a version no older than the writer's own (digest, name, algo, timestamp), and then whoever opened the sidecar after it, if anybody, belongs to another process |
| LockFile.TryAcquireLock | src/safeatomic/_locks.py:427-484 | the call's own steps are its exclusive creates, at most retries+1, and what came of the last: False exactly if all retries+1 found a lock file; True leaves just its own lock file, an error at most one whose cleanup unlink failed; no sleep after the last attempt, one after each other; an error has its failed call, contention is none |
| LockFile.CreatesAreCounted | src/safeatomic/_locks.py:442-484 | the number of creates reported is the number of create steps in the run |
| LockFile.ContendMetAFile | src/safeatomic/_locks.py:450-454 | in every run, where a create found a lock file there was one |
| LockFile.ReleaseLock | src/safeatomic/_locks.py:520-534 | a holder's lock file stays only if it was unreadable, damaged, or its unlink failed; each result is told by the call's own steps |
| WriteCore.TryExceptFinally | src/safeatomic/_io_core.py:394-435 | either placed with exactly the data, or cleaned up; descriptor closed and lock released on every path |
| WriteCore.Write | src/safeatomic/_io_core.py:386-446 | every fault schedule: replaced once by exactly the data or not at all with an error; errors after the replace leave the content visible and come only from strict fsync or sidecar; descriptor closed, temporary gone and lock given back unless that very cleanup failed; the version placed is a new one; the process's own steps are those of this call and change no directory entry but its temporary, target, sidecar and lock; where commits are serial, or nobody else writes, target and sidecar agree; a refusal for contention met a lock file at every attempt; it returns normally exactly if no call failed that it depends on, and every cleanup flag has its failure |
| OwnNames.ProcessSparesOthers | src/safeatomic/_io_core.py:386-446 | over the whole run of a call, with any steps of others in between, the process's own steps change no entry outside the call's four names |
| WriteCore.SidecarAfterWrite | src/safeatomic/_io_core.py:442-446 | after a returned call with a sidecar: on a serial schedule the sidecar speaks for the target unless another process has committed since |
| WriteCore.UncontendedWrite | src/safeatomic/_io_core.py:386-446 | a returned call during which nobody else entered, after a serial run with no other block under way, leaves such a run again, and an agreeing sidecar |
| ReadCore.Read | src/safeatomic/_io_core.py:662-687 | content only as a complete version no older than the call, and when checked only if it hashes to the digest in the sidecar bytes the steps of this very call have read; a mismatch only of such a version with such a digest; a name reported missing was missing at some point of the call; nothing but reads by its own record; an I/O error or an unreadable sidecar has its failed call, any other answer has none |
| ReadTrace.RunTells | src/safeatomic/_io_core.py:638-685 | in every run the sidecar bytes in a reader's record are those its steps got from the file they opened |
| ReadTrace.MissedWasAbsent | src/safeatomic/_io_core.py:638-685 | in every run a reader that ended for lack of a name met a directory without it |
| AtomicReaderObject.AtomicReader.Enter | src/safeatomic/_io_core.py:1202-1241 | a checked entry has compared a complete version, no older than the call, with the sidecar bytes it read, and the version opened is no older than that one; which error, on what evidence; an error leaves the object as it was |
| AtomicReaderObject.AtomicReader.Read | src/safeatomic/_io_core.py:1260-1270 | the next bytes of the version that is open, whatever is replaced meanwhile; fewer than asked for only when all of it has been delivered |
| AtomicReaderObject.AtomicReader.DeliveredIsAPrefix | src/safeatomic/_io_core.py:1202-1270 | all bytes an object has handed out are a prefix of one complete version |
| WriterCalls.ReplacedAtMostOnce | src/safeatomic/_io_core.py:1057-1123 | over every sequence of calls the object replaces its target at most once, exactly if it is marked committed |
| WriterCalls.CommitsWhatWasAccepted | src/safeatomic/_io_core.py:254-261 | what is committed is the concatenation of the bytes accepted since the object was entered |
| WriterCalls.ReplacesAfterAbortExactly | src/safeatomic/_io_core.py:1078-1141 | after an abort the target is replaced if and only if it had not been before and the object is entered again and explicitly committed |
| WriterCalls.ReenteredObjectReplacesAfterAbort | src/safeatomic/_io_core.py:1078-1141 | a concrete such sequence |
| WriterCalls.ExitExactly | src/safeatomic/_io_core.py:986-1000 | over every sequence of calls, with a lock or without: a clean exit leaves the file open if and only if the object was open and already committed or aborted; a lock is still held if and only if the file is, or a commit's directory fsync raised and no abort followed |
| WriterCalls.LeftOpenExactly | src/safeatomic/_io_core.py:952-1000 | read off the calls: the file is left open if and only if the exit is clean and the last entry came after a placing commit, or after an abort with no explicit commit since |
| WriterCalls.SecondBlockIsLost | src/safeatomic/_io_core.py:952-1000 | one object in two with statements, no fault and no abort: the second block's data is never placed, file and lock stay in hand |
| WriterCalls.LockAfterTheBlock | src/safeatomic/_io_core.py:986-1000 | for an object entered once the file is let go, and the lock is still held if and only if a commit's directory fsync raised and no abort followed |
| WriterCalls.StuckOnlyByFailedRelease | src/safeatomic/_io_core.py:1143-1146 | a lock file that nobody holds stays behind only after a call that failed to release or undo it; `LockIsGivenBack` says what lies behind such a call of the real object |
| WriterCalls.ReenteredObjectKeepsTheLock | src/safeatomic/_io_core.py:986-1000 | entered again after an abort, a clean exit keeps file and lock |
| AtomicWriterObject.AtomicWriter.constructor | src/safeatomic/_io_core.py:912-945 | the object keeps each of its arguments; no file, no lock, no system call |
| AtomicWriterObject.AtomicWriter.Enter | src/safeatomic/_io_core.py:952-984 | lock, then file; without the file the lock is given back by the release steps reported, and if it stays, a read or unlink of the lock file has failed or it was found damaged; new state of the object and the acquisition added for every outcome; no temporary name is left by an error; a refusal for contention met a lock file at every attempt, and with a delay there was one wait between any two |
| AtomicWriterObject.AtomicWriter.Write | src/safeatomic/_io_core.py:1008-1027 | what the temporary file holds afterwards, also when the loop failed halfway |
| AtomicWriterObject.AtomicWriter.Commit | src/safeatomic/_io_core.py:1057-1123 | new state of the object and of the descriptors for each of its endings, and how often the target was replaced; which failed calls lead to which ending, exactly; the call ends with the steps of a release unless a strict directory fsync raised; a lock that stays has its failed read or unlink, or was found damaged; the temporary name is gone unless its unlink failed; after a return the writer's record holds the placed version, a new one, and nobody of this process committed or opened the sidecar after it |
| AtomicWriterObject.AtomicWriter.Abort | src/safeatomic/_io_core.py:1125-1141 | in any state of the object: file closed, temporary name gone unless its unlink failed, and the call ends with the steps of a release, which fails only by a failed read or unlink or a damaged lock file |
| AtomicWriterObject.AtomicWriter.Exit | src/safeatomic/_io_core.py:986-1002 | commits after a clean block that did neither, aborts after an exception, else does nothing, each with all that commit and abort say of failures, lock and temporary name; when it raises, and which descriptor it closes |
| AtomicWriterObject.AtomicWriter.WhatEveryObjectKeeps | src/safeatomic/_io_core.py:943-1146 | between any two calls of the real object: at most one version placed and it is in the history, the file holds the accepted bytes, and after an exit file and lock are as in ExitExactly and LeftOpenExactly |
| AtomicWriterObject.AtomicWriter.LockIsGivenBack | src/safeatomic/_io_core.py:1097-1146 | if no read or unlink of a lock file has failed, none was found damaged and no strict directory fsync has failed since the object was made, then whenever it has no file in hand its lock is free and every acquisition it ever made is gone |
| AtomicWriterObject.AtomicWriter.BlockGivesItsLockBack | src/safeatomic/_io_core.py:986-1002 | so a block entered once, or left by an exception, ends without file and lock in that case |
| AtomicWriterObject.SidecarAfterCommit | src/safeatomic/_io_core.py:1110-1123 | what a returned commit ensures is enough: with only `AtomicWriter` blocks, or on a serial schedule, the sidecar speaks for the target until another process commits |
| WriterBlock.WriteBlock | src/safeatomic/_io_core.py:879-1002 | a plain `with` block from the constructor's arguments to its end: without an error the target was replaced once, by exactly the data; with `safety="strict"` the version is acknowledged, with `write_checksum` the sidecar speaks for it by the algorithm given; the lock is back unless a release call or the directory fsync failed or the lock file was damaged |
| Config.Context.Run | src/safeatomic/_config.py:207-235 | any nesting of blocks, calls and exceptions on the four variables sees what a stack of overrides gives, and leaves the variables as they were |
| Config.Context.ResolveConfig | src/safeatomic/_config.py:287-301 | under any stack of blocks, for each of the four keys: the explicit value, else that of the innermost block that sets it, else "utf-8", "sha256", 0 and 0.1 |
| Config.PickExactly | src/safeatomic/_config.py:287-301 | a key resolves to a value exactly if it is explicit, or else set by the innermost enclosing block that set one, or else the default |
| Config.NestedCall | src/safeatomic/_config.py:207-235 | a call inside any blocks sees them innermost first for each key; when an exception leaves the blocks, what is called after it is caught sees none of them |
| Mounts.DetectFilesystem | src/safeatomic/_capabilities.py:240-250 | for any mount points and path: the type of the first of the longest mount points that pass the string test, None exactly when there is none; for normal ones that is the deepest mount above the path |
| Mounts.LongestIsDeepest | src/safeatomic/_capabilities.py:240-250 | among normal paths, longest by the string test and deepest by components are the same |
| Mounts.NormalPointsExactly | src/safeatomic/_capabilities.py:240-250 | the exact condition: a mount point leads the loop to the deepest mount in every list of otherwise normal ones if and only if it is itself normal |
| Mounts.OnMountExactly | src/safeatomic/_capabilities.py:244-246 | the string test is the component-prefix test |
| Mounts.TrailingSlashes | src/safeatomic/_capabilities.py:244-246 | a mount point listed with slashes at its end passes the string test exactly for the paths below it |
| Mounts.LongerIsDeeper | src/safeatomic/_capabilities.py:244-248 | comparing lengths of names is comparing numbers of components |
| Mounts.TextIsNormal | src/safeatomic/_capabilities.py:240-246 | normal paths are exactly the texts of component lists |
| Environments.Detector.DetectEnvironment | src/safeatomic/_capabilities.py:382-432 | first detection on a device: the table's class for a type in the table, else that of Windows on Windows, else local POSIX if and only if directory fsync and replace both probed yes, else unknown; later ones come from the cache; an unreadable root is wholly unknown and not cached |
| Environments.Detector.InspectGuarantees | src/safeatomic/_guarantees.py:258-260 | the levels are those of the matrix for the class of such a detection |
| Environments.AncestorIsNearest | src/safeatomic/_capabilities.py:384-387 | the walk upward stops at the nearest existing ancestor |
| Environments.Detector.Reports | src/safeatomic/_guarantees.py:258-260 | over any sequence of reports and cache clears, the class is the table's, or outside the table that of Windows, and the levels are the matrix's, if each device has one type and the table knows it or the platform is Windows |
| Environments.ProbesDoNotMatterExactly | src/safeatomic/_capabilities.py:435-468 | a class is independent of the probes if and only if the type is in the table or the platform is Windows |
| Environments.UnknownTypeStaysUnknown | src/safeatomic/_capabilities.py:409-432 | with a type outside the table a failed probe fixes the class of the whole device |

## Left out

- ReadCore.Read: does not model a call that never returns because a sidecar grows without end under it; a sidecar that exists but cannot be read is an arbitrary answer.
- Symbolic links, `resolve()`, metadata (`copystat`, modes), and the errors of `stat` in the device check, which are one nondeterministic failure here.
- The safety gate before a call and its guarantee matrix; a call that the gate stops does nothing.
- AtomicReaderObject.AtomicReader.Read: `AtomicReader` opens the target once to verify and once to read, so its bytes are not claimed to be the verified ones; `readline`, iteration and `fileno` are left out.
- Lock payloads from other software, with some fields missing; session hashes; the clock behind `max_age_s`, which is an arbitrary answer here.
- `flush` is modelled, but that it makes the temporary file durable is not used by any theorem.
- `move_atomic`: it reuses the replace step.
- What the application does between the calls of an `AtomicWriter`: in `Composite` it may read the target inside its block (`Look`), in the code of AtomicWriterObject it overwrites blindly.
- Argument validation (`ValueError`, `TypeError`).
- JSON, TOML and YAML helpers, `doctor`, the real probes, logging, messages, sleeping itself.
- The parsed timestamp of a sidecar as a date, and white space outside ASCII, which the ASCII decoder never lets through.
- Concurrent entries of one `AtomicWriter` object from several threads.
