# Verified model of the vpn-core maintenance lease and its neighbours

`vpn-core` is a privileged launchd daemon. It starts sing-box and tcpdump for an
unprivileged client and hands DNS settings to `scutil`. Before an operator command replaces
or removes the daemon, it takes a *maintenance lease*: a token with a sixty-second lifetime,
granted only while nothing runs, written to disk before it counts, renewed right before each
`launchctl bootout`, and restored when launchd relaunches the daemon. This project models
that lease as a step system and as the objects that implement it, and proves what it is for:
**a bootout that follows a successful renewal in time finds no managed child**, whatever
other clients, crashes and relaunches happen in between, as long as a relaunched daemon can
read its lease file. That proviso is exact: a relaunch that cannot read the file serves without
the lease, and then a child can start.

Around the lease it models the other hard parts of the same subsystem: the child registry
under process-id reuse, the uninstall loop over shared runtime trees, the request tracker,
the control-message walker, the sing-box schema walker, the escaping writer, the bounded log,
the scutil text builder against the daemon's grammar, the domain-suffix collapse, and the
gate's ClientHello parser.

## Layout

| file | holds |
|---|---|
| `Lease.dfy` | lease values; drain, undrain, renew and restore as whole-call functions |
| `LeaseStorage.dfy` | the directory of the lease file and the operations that replace it |
| `LeaseProtocol.dfy` | the step system: clock, lease file, daemon memory, registry, tracker, connections, crash and relaunch; its invariants |
| `LeaseInvariants.dfy` | every step keeps the invariants |
| `LeaseTheorems.dfy` | safety over whole runs |
| `LeaseRuns.dfy` | the handler's steps add up to the whole-call functions; when exactly a renewal revives a lease; concrete runs |
| `LeaseGrip.dfy`, `LeaseClients.dfy` | what a client knows of its own lease; the daemon with its clients |
| `LeaseClientRuns.dfy` | a run the end-to-end theorem is about; what exactly follows when a relaunch cannot read the lease file |
| `Daemon.dfy` | the daemon's objects, proved against the whole-call functions |
| `Trace.dfy`, `Guard.dfy`, `Uninstall.dfy`, `Install.dfy` | the client's guard and the two operator commands against an arbitrary outside world |
| `EndToEnd.dfy` | the commands and the daemon together |
| `Children.dfy` | processes, groups, zombies, reaping and id reuse; the child registry |
| `Utf8.dfy`, `SafeOutput.dfy`, `EscapingWriter.dfy` | UTF-8 decoding, escaping at once, and the streaming writer |
| `BoundedLog.dfy` | the bounded log tail |
| `Control.dfy`, `Sni.dfy` | control messages and descriptors; ClientHello |
| `Schema.dfy` | the sing-box schema grammar and its walker |
| `Domains.dfy` | suffix normalisation, collapse and bypass subtraction |
| `Scutil.dfy`, `DnsHandoff.dfy` | the daemon's scutil grammar; the client's builders and what the commands do |
| `Wrappers.dfy`, `Bytes.dfy` | optional values; bytes and where they stand in a buffer |

`dafny verify dfyconfig.toml` checks everything.

## How the end-to-end result is put together

1. `LeaseProtocol` splits every handler at each clock reading, file operation and memory write,
   and lets the daemon die between any two steps. A relaunch may find that it cannot read the
   lease file. The invariants hold in every reachable state, such relaunches included.
2. `LeaseClients` adds clients. Tokens are secrets: one that was drawn is known only to the
   client whose drain was answered with it. One client follows the automaton of `LeaseGrip`; it
   may issue a bootout only while the last word on its lease was an answered renewal and it has
   sent no undrain since. Everybody else may send anything. `BootoutFindsNoChild` is about that
   bootout; it needs every relaunch since the renewal to have read the file, and
   `SafeExactlyWhenRelaunchReads` shows that it needs exactly that.
3. The contracts of `Guard`, `Uninstall` and `Install` say that in the trace of an operator
   command every bootout finds the same automaton ready (`BootoutsGuarded`), unless the probe
   just before it found no socket.
4. `EndToEnd` joins the two: for every trace of a command and every run of the daemon that agree
   on what the command did and heard about its lease, the bootout finds no child.
   `AgreementExists` shows that there are such traces and runs.

## Findings

* **A relaunch that cannot read the lease file serves without the lease.** When the lease
  directory or file cannot be opened, verified or read, startup logs that and goes on
  (desktop/internal/core/vpncore/maintenance_lease.go:193-213), although a live lease may be in the
  file.
  * Step by step (`StepKeepsGrip`): a lease in force that has not run out and has not been
    released survives a step if and only if the step is not such a relaunch.
  * For the bootout (`SafeExactlyWhenRelaunchReads`): whenever the daemon is down while a client
    may still issue its bootout in time, the bootout stays safe after the relaunch if and only if
    the relaunch can read the file. `OverlookedLeaseExposes` is a run from the very beginning in
    which a client that did everything right finds a child.
  * The other invariants survive it. Until it is overwritten, the lease stays in the file, and a
    later relaunch that can read it restores it (`RestartRestoresTheFile`).
* **A renewal can revive an expired token.** `renew` rechecks the token once the idle locks are
  held, so that waiting for the locks cannot revive one that expired
  (desktop/internal/core/vpncore/maintenance.go:125-128). Afterwards it reads the clock again,
  writes and syncs a file, renames it, and sets the memory. If the lease runs out anywhere in
  that stretch, the renewal still succeeds: the lease was in force, then expired (ping reports
  it inactive), then in force again.
  * Step by step (`StepBringsIntoForce`): with no lease in force, a step brings one into force
    exactly when a lease that has been written and is unexpired gets published, when the daemon
    dies before publishing it, or when a daemon dies that could not read the live lease in the
    file.
  * Over whole runs (`RevivedOnlyByWriteUnderway`): a drawn token that is not in force can come
    into force, whatever clients, crashes and relaunches do, if and only if its write is under
    way (a renewal past its second check, or a grant or renewal whose new deadline has not passed)
    or its live lease is in a file that the running daemon could not read.
  * In delays (`RenewRevivesExactlyWhenLate`): a renewal revives exactly when the time from the
    second check to publishing reaches the old deadline while writing and publishing stay within
    one TTL. `SlowWriteRevives` reaches such a state by a slow file write alone.
  * It is harmless to the guarantee: the mutation lock and both idle locks are held throughout,
    so no child can have been registered meanwhile.
* **Disk and memory do differ**, exactly as `CopiesDifferExactly` says. While memory holds a live
  lease, the file differs from it between an undrain's unlink and its clearing of memory, and
  between a renewal's rename and its publishing (`CopiesDoDiffer` reaches such a state). Without
  a live lease in memory, the file holds one exactly when a grant or renewal was written and not
  yet published, or the daemon could not read the file when it started. An expired file may stay behind after a failed unlink; no daemon restores it.
  `RestartIsInvisible` and `RestartCompletesTheWindow` say what a crash amounts to.
* **A retry after a failed write can lose bytes.** The writer promises that a caller who retries
  from the reported count loses nothing
  (desktop/internal/core/vpncorecli/safe_output.go:34-37).
  * Before the call: it holds for every outcome of the write if and only if the writer holds no
    bytes back (`RetryIsSafeExactlyWhenNothingHeld`).
  * For one write with bytes held back: it holds if and only if the rune with the last of them
    is complete and all of its escaped form was written
    (`RetryGoesOnExactlyWhenHeldRuneIsOut`). `RetryCanLose` is an input that loses two bytes.
  * Where nothing is lost, something may still be printed twice: what was written and the escape
    of the retried rest are the escape of everything if and only if the write stopped between
    two runes (`RetryPrintsAllExactlyBetweenRunes`). `FragmentComesTwice` is an input where it
    did not.
* **The scutil text is accepted exactly within limits.** The daemon turns away an apply input
  with no server, and one whose server line reaches the scanner's token limit, although the
  builder produces both. `ApplyInputAccepted` is the exact condition.

## Assumptions

* One clock that never goes back, shared by successive daemon instances.
* Drawn tokens and child handles do not repeat, and a drawn token is none that anybody has sent
  before; nobody else writes the lease file.
* launchd runs one daemon instance at a time; a crash kills every handler at once.
* A rename replaces a directory entry as a whole. After a power loss an earlier entry may be back,
  because the program syncs the file and not the directory; a synced file keeps its contents. A
  crash in the step system is the death of the daemon process, after which the directory is as
  it was.
* The end-to-end theorems assume of each relaunch between renewal and bootout that it can read
  the lease file; all other theorems about the lease cover relaunches that cannot, or say so.
* Lower-casing is idempotent (`Domains.Sane`); ASCII graphic characters are not white space, take
  one byte, and a dotted quad parses as an IPv4 address (`Scutil.Sane`).
* Processes outside a spawned group do not join it (`Children`).
* Control messages have Darwin's layout: a 12-byte header, padding to 4 bytes, little-endian. The
  kernel writes into a control buffer the messages it received, or a prefix of them that it marks
  as truncated.
* Request ids are unbounded (64-bit in the program).
* Replies, file operations, launchd and the passage of time are arbitrary values: every
  contract holds for all of them.

## Model

| member | source | states |
|---|---|---|
| `LeaseInvariants.StepKeepsInv` | desktop/internal/core/vpncore/maintenance.go:34-136 | every step of clock, client, handler, crash or relaunch keeps the lease, tracker and history invariants, including at the crash points between file and memory writes |
| `LeaseInvariants.ReachableInv` | desktop/internal/core/vpncore/service.go:449-566 | every reachable state satisfies all invariants |
| `LeaseInvariants.IdleMeansAlone` | desktop/internal/core/vpncore/maintenance.go:58-64 | the idle arithmetic is zero exactly when the caller is the only tracked request |
| `EndToEnd.GuardedBootoutFindsNoChild` | desktop/internal/core/vpncore/maintenance.go:222-253 | for every trace with guarded bootouts and every run of the daemon that agrees with it, a bootout before the deadline of the renewal just before it, with no relaunch since that failed to read the lease file, finds no registered child and none about to be, unless the probe before it found no socket |
| `EndToEnd.AgreementExists` | desktop/internal/core/vpncore/maintenance.go:185-253 | the theorem is about something: a guarded trace of drain, renewal and bootout and a run that agrees with it in time |
| `EndToEnd.UninstallIsShielded` | desktop/internal/core/vpncore/service.go:104-181 | every bootout of an uninstall without the override is shielded in that sense |
| `EndToEnd.InstallIsShielded` | desktop/internal/core/vpncore/install.go:131-223 | every bootout of an install without the override is shielded in that sense |
| `LeaseClients.BootoutFindsNoChild` | desktop/internal/core/vpncore/maintenance.go:224-253 | in every run with any crashes, relaunches and other clients, a bootout by a client whose last word on its lease was an answered renewal, issued before that renewal's deadline and with no relaunch since that failed to read the lease file, finds no registered child and none about to be |
| `LeaseClientRuns.SafeExactlyWhenRelaunchReads` | desktop/internal/core/vpncore/maintenance_lease.go:184-234 | whenever the daemon is down while a client may still issue its bootout in time, the bootout stays safe in every continuation whose later relaunches can read the file if and only if this relaunch can |
| `LeaseClientRuns.DownInTimeIsReachable` | desktop/internal/core/vpncore/maintenance_lease.go:184-191 | such a moment is reachable |
| `LeaseClientRuns.OverlookedLeaseExposes` | desktop/internal/core/vpncore/maintenance_lease.go:193-213 | a concrete run in which a relaunch cannot read the file and a bootout in time finds a child |
| `LeaseClients.TokenStaysSecret` | desktop/internal/core/vpncore/maintenance.go:71-96 | nobody but the client whose drain was answered ever sends its token, in an undrain or a renewal, and while the client holds the lease it has sent no undrain either |
| `LeaseClientRuns.BootoutIsReachable` | desktop/internal/core/vpncore/maintenance.go:185-253 | a concrete run in which a client drains, renews and may issue its bootout in time |
| `LeaseTheorems.RenewalHolds` | desktop/internal/core/vpncore/maintenance.go:120-136 | the same from the daemon's side, for clients that may know each other's tokens: from a positive renewal to its deadline no child, as long as every relaunch can read the file and no undrain with the token was sent |
| `LeaseTheorems.LeaseHeldUntilExpiryOrRelease` | desktop/internal/core/vpncore/maintenance.go:71-136 | over any run whose relaunches can read the file a lease in force stays with its token, never with an earlier deadline, until it expires or its owner's undrain removed it |
| `LeaseTheorems.StepKeepsGrip` | desktop/internal/core/vpncore/maintenance_lease.go:184-234 | an unexpired, unreleased lease stays with its owner over a step if and only if the step is not a relaunch that cannot read the file; after that one the live lease is in the file, overlooked |
| `LeaseTheorems.LeaseProtects` | desktop/internal/core/vpncore/maintenance.go:34-69 | a lease in force, or a live one on disk that the daemon has not overlooked, means an empty registry and no start past admission |
| `LeaseTheorems.OneTokenAccepted` | desktop/internal/core/vpncore/maintenance.go:98-107 | at most one token is usable now or by a daemon relaunched now |
| `LeaseTheorems.OthersRefusedWhileHeld` | desktop/internal/core/vpncore/service.go:538-566 | while a lease is in force, a request other than its owner's undrain or renew that holds the lock changes neither memory, file nor registry up to its answer, and the answer is a refusal |
| `LeaseTheorems.RestartRestoresTheFile` | desktop/internal/core/vpncore/maintenance_lease.go:184-234 | killed and relaunched anywhere, the daemon restores exactly the unexpired file lease if it can read it and none otherwise; the file keeps a live lease either way |
| `LeaseTheorems.RestartIsInvisible` | desktop/internal/core/vpncore/maintenance_lease.go:184-234 | outside the three windows the file mirrors a live lease in memory, and a restart leaves the lease in force unchanged if and only if it can read the file, or there is none in force and none reappears that an earlier start overlooked |
| `LeaseTheorems.RestartCompletesTheWindow` | desktop/internal/core/vpncore/maintenance_lease.go:100-165 | inside a window a restart that can read the file completes the pending grant, renewal, release or sweep; one that cannot starts without a lease |
| `LeaseTheorems.PingAgreesWithAdmission` | desktop/internal/core/vpncore/maintenance.go:15-32 | ping's lock-free status equals what admission would decide, in every reachable state |
| `LeaseTheorems.BlockageIsBounded` | desktop/internal/core/vpncore/maintenance.go:71-88 | a lease is never more than one TTL ahead of the clock |
| `LeaseTheorems.StepBringsIntoForce` | desktop/internal/core/vpncore/maintenance.go:78-135 | with no lease in force, a step brings one into force exactly when a written, unexpired lease is published, the daemon dies before publishing it, or a daemon dies that had overlooked the live lease in the file; the registry is empty at a publishing |
| `LeaseTheorems.RevivedOnlyByWriteUnderway` | desktop/internal/core/vpncore/maintenance.go:120-136 | a drawn token that is not in force can come into force by some run if and only if its write is under way or its live lease is in the file and was overlooked |
| `LeaseTheorems.CopiesDifferExactly` | desktop/internal/core/vpncore/maintenance_lease.go:100-234 | exactly when the file and a live lease in memory differ, and exactly when the file holds a live lease that memory does not |
| `LeaseTheorems.TrackerPartition` | desktop/internal/core/vpncore/diagnostics.go:44-92 | every accepted connection is in exactly one of queued or active until settled, and both fit in the 16 slots |
| `LeaseTheorems.IdleMeansEveryoneElseSettled` | desktop/internal/core/vpncore/maintenance.go:58-64 | the idle check passes exactly when no child is registered and every other accepted request, read or unread, is settled |
| `LeaseTheorems.IdsNeverReused` | desktop/internal/core/vpncore/diagnostics.go:44-52 | without a restart each new id exceeds all earlier ones |
| `LeaseRuns.DrainStepsAddUp` | desktop/internal/core/vpncore/maintenance.go:71-88 | the interleavable steps of a drain add up to the whole-call function |
| `LeaseRuns.UndrainStepsAddUp` | desktop/internal/core/vpncore/maintenance.go:109-118 | the steps of an undrain add up to the whole-call function |
| `LeaseRuns.RenewStepsAddUp` | desktop/internal/core/vpncore/maintenance.go:120-136 | the steps of a renewal add up to the whole-call function for every delay between its clock readings |
| `LeaseRuns.RenewRevivesExactlyWhenLate` | desktop/internal/core/vpncore/maintenance.go:124-133 | a renewal past its second check revives an expired lease, by publishing or by a crash and relaunch, if and only if the delays to publishing reach the old deadline and those after the new clock reading stay under one TTL |
| `LeaseRuns.SlowWriteRevives` | desktop/internal/core/vpncore/maintenance.go:124-133 | a concrete reachable run in which a slow file write alone revives an expired lease |
| `LeaseRuns.CopiesDoDiffer` | desktop/internal/core/vpncore/maintenance.go:109-118 | a concrete reachable state in which memory holds a live lease and the file is gone |
| `LeaseStorage.LeaseDirectory.Persist` | desktop/internal/core/vpncore/maintenance_lease.go:100-148 | succeeds exactly when create, write, sync, close and rename all do; at every moment on the way the lease file is the old one or the new one whole; a failure leaves the old one; no other file is touched; killed at any of these moments, startup finds the old lease or the new one, and after a power loss the new one or one the file held before, never a torn one or a temporary file |
| `Daemon.RequestTracker.Enqueue` | desktop/internal/core/vpncore/diagnostics.go:44-52 | a fresh, larger id joins the queue |
| `Daemon.RequestTracker.Begin` | desktop/internal/core/vpncore/diagnostics.go:54-61 | the id moves from queued to active under a known action name, whatever the client sent |
| `Daemon.RequestTracker.Abandon` | desktop/internal/core/vpncore/diagnostics.go:63-67 | the id leaves the queue, nothing else changes |
| `Daemon.RequestTracker.Complete` | desktop/internal/core/vpncore/diagnostics.go:69-92 | the id leaves the active set and is recorded as the last completed one |
| `Daemon.ServiceDaemon.DrainActive` | desktop/internal/core/vpncore/maintenance_lease.go:167-182 | active exactly for an unexpired lease; an expired one is swept, memory always, the file if it can be removed |
| `Daemon.ServiceDaemon.RequireDrainToken` | desktop/internal/core/vpncore/maintenance.go:98-107 | passes exactly for the unexpired token, sweeping an expired lease otherwise |
| `Daemon.ServiceDaemon.IsIdle` | desktop/internal/core/vpncore/maintenance.go:36-64 | no registered child and no other tracked request |
| `Daemon.ServiceDaemon.Drain` | desktop/internal/core/vpncore/maintenance.go:71-88 | grants on idle only, file before memory; every failure leaves both as they were |
| `Daemon.ServiceDaemon.Undrain` | desktop/internal/core/vpncore/maintenance.go:109-118 | releases file, then memory, for the owner only |
| `Daemon.ServiceDaemon.Renew` | desktop/internal/core/vpncore/maintenance.go:120-136 | extends the owner's lease on idle only, with its three clock readings apart |
| `Daemon.ServiceDaemon.RestoreMaintenanceLease` | desktop/internal/core/vpncore/maintenance_lease.go:184-234 | when the directory could be read, memory holds exactly a valid unexpired lease of the file and such a file stays; unusable files are discarded; unsafe storage changes nothing |
| `Daemon.ServiceDaemon.Dispatch` | desktop/internal/core/vpncore/service.go:552-600 | each action's whole effect on lease and registry |
| `Daemon.ServiceDaemon.HandleMutating` | desktop/internal/core/vpncore/service.go:530-606 | admission, dispatch and completion of one request: the new store is the whole-call function of the old one, and the tracker forgets the request |
| `Guard.MaintenanceGuard.Acquire` | desktop/internal/core/vpncore/maintenance.go:204-220 | every granted lease is recorded, at most the one it replaces drops out; an unreachable service is no failure; any other reply is a refusal |
| `Guard.MaintenanceGuard.BeforeBootout` | desktop/internal/core/vpncore/maintenance.go:222-253 | success means the last event renewed the lease the guard holds on this service, by the client's automaton, or found no socket, with nothing privileged in between; every lease stays accounted for |
| `Guard.MaintenanceGuard.Release` | desktop/internal/core/vpncore/maintenance.go:307-314 | an undrain for every held lease, in any order; nothing more is owed than before |
| `Guard.DrainServices` | desktop/internal/core/vpncore/maintenance.go:185-202 | for every list, all services or none: each was asked and granted or could not be reached, or every lease taken has been sent an undrain; only a service named twice can have a lease drop out of the record |
| `Uninstall.ForgetLaunchdLabel` | desktop/internal/core/vpncore/service.go:206-224 | bootout, then at most 101 queries; success exactly when the last one confirmed absence, failure only after the timeout |
| `Uninstall.ForgetUnderGuard` | desktop/internal/core/vpncore/service.go:170-181 | the bootout is cleared by the guard right before it |
| `Trace.BootoutHoldsItsLease` | desktop/internal/core/vpncore/maintenance.go:222-253 | before a guarded bootout the last event renewed a lease that this service granted and that has been sent no undrain since |
| `Trace.GripMeansKept` | desktop/internal/core/vpncore/maintenance.go:171-220 | holding a lease by the automaton means it was granted in the trace and sent no undrain since |
| `Uninstall.RemoveServiceFiles` | desktop/internal/core/vpncore/service.go:182-198 | the exact removals and their order, helper last; the runtime only when its users are confirmed gone |
| `Uninstall.UninstallExactService` | desktop/internal/core/vpncore/service.go:161-204 | one service: guarded bootout, at most one justified runtime removal, nothing privileged after a refusal; success means all of it was done |
| `Uninstall.LastRuntimeUsers` | desktop/internal/core/vpncore/service.go:135-138 | the last index using each runtime tree |
| `Uninstall.UninstallServiceConfigs` | desktop/internal/core/vpncore/service.go:134-159 | for every list: each tree removed at most once, after every sharing service was confirmed absent, never the preserved one; a refusal is final; success removed every service and every other tree |
| `Uninstall.ProgressStep` | desktop/internal/core/vpncore/service.go:141-158 | handling one more service keeps every removal justified and unique, every bootout guarded, and what has been removed so far complete |
| `Install.MaintenanceConfigs` | desktop/internal/core/vpncore/maintenance.go:316-322 | the services to drain are distinct and include the primary one |
| `Install.UninstallService` | desktop/internal/core/vpncore/service.go:104-123 | on every return path no lease is left unaccounted for, work is orderly, and removals are justified; success removed everything |
| `Install.AwaitReady` | desktop/internal/core/vpncore/maintenance.go:257-280 | at most 100 pings; the last is the first that was answered, or none was and the time is up |
| `Install.ReleaseReplacement` | desktop/internal/core/vpncore/maintenance.go:255-305 | a clean result means the replacement answered, its lease was sent an undrain and is no longer held, and its last word was that it is not draining |
| `Install.InstallFiles` | desktop/internal/core/vpncore/install.go:179-213 | the privileged copies in order up to the first failure; all of them and then the two removals when the result does not verify; success exactly when all succeeded and it verified |
| `Install.InstallUnderGuard` | desktop/internal/core/vpncore/install.go:171-232 | a new daemon is started only after the compatibility services were removed and the old primary was confirmed gone, each bootout cleared |
| `Install.InstallService` | desktop/internal/core/vpncore/install.go:131-232 | on every return path no lease is left unaccounted for; a finished replacement is never reported as an ordinary failure |
| `Children.StepKeepsInv` | desktop/internal/core/vpncore/service.go:854-914 | every interleaving of start, exit watch, removal, reap, kernel step and id reuse keeps the registry invariant |
| `Children.SignalReachesOwnChildOnly` | desktop/internal/core/vpncore/service.go:899-914 | in every reachable state a signal through a handle reaches the process spawned for it and its descendants, nothing else, and never the daemon |
| `Children.HandlesAreDisjoint` | desktop/internal/core/vpncore/service.go:861-914 | two handles never reach a common process |
| `Children.ReapedStaysGone` | desktop/internal/core/vpncore/service.go:887-892 | no handle ever again stands for a reaped child |
| `Children.ChildRegistry.Add` | desktop/internal/core/vpncore/service.go:866-881 | one Register step of the machine under the drawn handle, or RegisterFails when none could be drawn |
| `Children.ChildRegistry.RemoveBeforeReap` | desktop/internal/core/vpncore/service.go:887-892 | a Drop step and then a Reap step of the machine, which keeps every registered handle on an unreaped child |
| `Children.ChildRegistry.Signal` | desktop/internal/core/vpncore/service.go:899-914 | an unknown handle reaches nothing; a known one reaches the child spawned for it and its descendants, and no other process |
| `Children.StartManagedChild` | desktop/internal/core/vpncore/typed_actions.go:343-372 | on any machine, a child that starts, gets a handle and can be watched is registered under that handle and a signal through it reaches only that child; a failure at any point leaves the registry as it was |
| `Children.ChildEnds` | desktop/internal/core/vpncore/service.go:887-892 | a watched child that exits loses its handle and only then is reaped |
| `SafeOutput.StreamingEqualsEscaping` | desktop/internal/core/vpncorecli/safe_output.go:34-77 | for every input and every split into writes, the writes and the flush print what escaping the whole input prints |
| `SafeOutput.HeldBack` | desktop/internal/core/vpncorecli/safe_output.go:79-93 | at most three bytes are ever held back |
| `SafeOutput.CutAnywhere` | desktop/internal/core/vpncorecli/safe_output.go:38-63 | cutting before the unfinished rune is safe however the input goes on |
| `SafeOutput.PendingEscapesBytewise` | desktop/internal/core/vpncorecli/safe_output.go:66-77 | flushing held bytes one by one is escaping them |
| `SafeOutput.EscapedIsClean` | desktop/internal/core/vpncorecli/safe_output.go:95-120 | the output is valid UTF-8 without C0 (but newline and tab), DEL or C1 |
| `SafeOutput.CleanPassesThrough` | desktop/internal/core/vpncorecli/safe_output.go:95-120 | clean text is unchanged |
| `EscapingWriter.EscapeControls` | desktop/internal/core/vpncorecli/safe_output.go:97-120 | the loop computes the escape of the whole and, for every input byte, how long the output is when its rune is out |
| `EscapingWriter.OffsetsNondecreasing` | desktop/internal/core/vpncorecli/safe_output.go:95-120 | the offset table never decreases |
| `EscapingWriter.CountWritten` | desktop/internal/core/vpncorecli/safe_output.go:46-56 | the count is the longest prefix of whole runes whose escaped form was written |
| `EscapingWriter.ControlEscapingWriter.Write` | desktop/internal/core/vpncorecli/safe_output.go:38-63 | sink, held bytes, error and the exact count of one write, for every short or failing write and whatever was held before |
| `EscapingWriter.ControlEscapingWriter.Flush` | desktop/internal/core/vpncorecli/safe_output.go:65-77 | writes what the underlying writer takes of the held bytes, escaped, reports its error, and holds nothing |
| `EscapingWriter.RetryIsSafeExactlyWhenNothingHeld` | desktop/internal/core/vpncorecli/safe_output.go:34-61 | a retry from the reported count goes on where the output stopped, for every outcome of the write, if and only if nothing was held back before it |
| `EscapingWriter.RetryGoesOnExactlyWhenHeldRuneIsOut` | desktop/internal/core/vpncorecli/safe_output.go:38-61 | with bytes held back, a retry after one write goes on where the output stopped if and only if the rune with the last held byte is complete and its escaped form was written |
| `EscapingWriter.RetryPrintsAllExactlyBetweenRunes` | desktop/internal/core/vpncorecli/safe_output.go:34-61 | where nothing is lost, what was written and the escape of the retried rest are the escape of everything if and only if the write stopped between two runes |
| `EscapingWriter.FragmentComesTwice` | desktop/internal/core/vpncorecli/safe_output.go:46-61 | a concrete write that stops inside an escaped rune, whose beginning the retry prints again |
| `EscapingWriter.RetryCanLose` | desktop/internal/core/vpncorecli/safe_output.go:34-61 | a concrete write after which a retry loses two bytes |
| `EscapingWriter.PrintAll` | desktop/internal/core/vpncorecli/safe_output.go:34-77 | writing any list of chunks to the object and flushing it puts out the escape of the whole |
| `EscapingWriter.IncompleteRuneSuffix` | desktop/internal/core/vpncorecli/safe_output.go:79-93 | the suffix search finds the held length |
| `BoundedLog.StreamingLosesNothing` | desktop/internal/core/vpncore/passed_log.go:23-43 | for every sequence of writes the kept tail is the bound of everything written |
| `BoundedLog.BoundingTwiceIsBoundingOnce` | desktop/internal/core/vpncore/passed_log.go:56-68 | bounding before appending loses nothing |
| `BoundedLog.BoundedKeepsLastLines` | desktop/internal/core/vpncore/passed_log.go:56-68 | split, cut and join keep the last lines of the last bytes |
| `BoundedLog.PassedLogWriter.Write` | desktop/internal/core/vpncore/passed_log.go:23-43 | tail and file after a write, and what each failure leaves behind |
| `BoundedLog.WriteAll` | desktop/internal/core/vpncore/passed_log.go:23-43 | writing any list of chunks to the object, whatever the file does, leaves the bound of everything written as its tail |
| `Control.RightsFromControl` | desktop/internal/core/vpncore/service.go:615-645 | terminates in bounds on any buffer and computes the reference walk |
| `Control.TruncationGivesPrefix` | desktop/internal/core/vpncore/service.go:615-645 | any truncated buffer yields a prefix of what the whole buffer yields |
| `Control.MessagesReadBack` | desktop/internal/core/vpncore/service.go:621-645 | well-formed messages yield exactly the descriptors they pass, in order |
| `Control.ReadRequest` | desktop/internal/core/vpncore/service.go:647-772 | on every exit each descriptor the peer passed is closed once or is the one log file returned; only a control buffer the kernel cut short leaves some unseen, and then the request is refused |
| `Control.ReadVisible` | desktop/internal/core/vpncore/service.go:647-772 | the same about the descriptors the walker finds, for control buffers of any content |
| `Schema.Walk` | desktop/internal/core/vpncore/typed_actions.go:187-269 | terminates and, in any key order, accepts exactly the values of the declarative grammar |
| `Schema.FoldKeys` | desktop/internal/core/vpncore/typed_actions.go:201-208 | reports a collision exactly when two keys agree ignoring case |
| `Schema.DeployedIsSane` | desktop/internal/core/vpncore/typed_actions.go:62-153 | in the program's table every discriminator leads to a plain object |
| `Schema.AcceptedIsDeclaredThroughout` | desktop/internal/core/vpncore/typed_actions.go:187-269 | at every depth of an accepted value keys are declared and distinct ignoring case |
| `Schema.InboundsAreTun` | desktop/internal/core/vpncore/typed_actions.go:90-97 | the inbounds of an accepted configuration are a list and every one has a type member, which says tun in whatever spelling of the key |
| `Schema.SocksServersAreLoopback` | desktop/internal/core/vpncore/typed_actions.go:98-111 | every socks outbound of an accepted configuration names a server, and every server it names is a loopback address |
| `Domains.CollapseCoveredDomainSuffixes` | desktop/internal/anyconnect/openconnectcli/app.go:1224-1255 | the nested loops compute the collapse |
| `Domains.CollapsePreservesCoverage` | desktop/internal/anyconnect/openconnectcli/app.go:1224-1255 | a host is covered by the collapse exactly when the list covers it |
| `Domains.CollapseIsAnAntichain` | desktop/internal/anyconnect/openconnectcli/app.go:1224-1255 | no kept suffix covers another |
| `Domains.CollapseIdempotent` | desktop/internal/anyconnect/openconnectcli/app.go:1224-1255 | collapsing again changes nothing |
| `Domains.CollapsePreservesOrder` | desktop/internal/anyconnect/openconnectcli/app.go:1224-1255 | the result is a subsequence |
| `Domains.MergeNormalizedList` | desktop/internal/anyconnect/openconnectcli/app.go:1183-1206 | for every key ignoring case its first trimmed spelling, in order of first appearance, none lost |
| `Domains.MergedKeysDistinct` | desktop/internal/anyconnect/openconnectcli/app.go:1192-1197 | no two merged values agree ignoring case |
| `Domains.NormalizeDomainSuffixList` | desktop/internal/anyconnect/openconnectcli/app.go:1208-1222 | the result covers exactly what the configured suffixes cover once normalised, without redundancy and in order |
| `Domains.DomainCoveredByBypass` | desktop/internal/anyconnect/openconnectcli/app.go:1277-1294 | covered exactly when some normalised bypass suffix covers the normalised domain |
| `Domains.SubtractBypassCoveredDomains` | desktop/internal/anyconnect/openconnectcli/app.go:1257-1275 | keeps exactly the uncovered domains, in order and with multiplicity |
| `Scutil.AllIPs` | desktop/internal/core/vpncore/typed_actions.go:411-422 | non-empty and all addresses, all IPv4 where required |
| `Scutil.ValidateSCUtilInput` | desktop/internal/core/vpncore/typed_actions.go:374-409 | accepts exactly the non-empty texts within the byte limits whose every line is in the grammar |
| `DnsHandoff.BuildScutilApplyInput` | desktop/internal/vless/session/dns_handoff.go:254-273 | the text is the rendering of the command lines |
| `DnsHandoff.BuildScutilRemoveInput` | desktop/internal/vless/session/dns_handoff.go:275-277 | the text is the rendering of the two removals |
| `DnsHandoff.ApplyInputAccepted` | desktop/internal/core/vpncore/typed_actions.go:374-432 | a built apply input is accepted if and only if it has a server and stays within the limits |
| `DnsHandoff.RemoveInputAccepted` | desktop/internal/core/vpncore/typed_actions.go:374-432 | a built remove input is always accepted |
| `DnsHandoff.ServiceIDIsAUuid` | desktop/internal/vless/session/dns_handoff.go:248-252 | the service id has the shape the daemon demands |
| `DnsHandoff.NormalizeDNSServerList` | desktop/internal/vless/session/dns_handoff.go:190-210 | the servers that parse, each once, in order of first appearance, none lost |
| `DnsHandoff.NormalizedAreDistinctAddresses` | desktop/internal/vless/session/dns_handoff.go:190-210 | normalised servers are distinct dotted addresses, as the acceptance theorem wants them |
| `DnsHandoff.ApplyWrites` | desktop/internal/vless/session/dns_handoff.go:254-273 | running the built text writes exactly this session's two entries |
| `DnsHandoff.ApplyThenRemove` | desktop/internal/vless/session/dns_handoff.go:254-277 | apply then remove restores the store if and only if neither key was there |
| `Sni.ParseSni` | artifacts/fortinetz-cascade-whitelist/lab/sni-gate.py:55-108 | every index is in bounds on every byte string, and the loops compute the reference parse |
| `Sni.HelloReadsBack` | artifacts/fortinetz-cascade-whitelist/lab/sni-gate.py:55-108 | for every hello in one record, with any extensions and any trailing bytes, parsing the serialised bytes returns the first host name lower-cased |
| `Sni.SingleHostRequested` | artifacts/fortinetz-cascade-whitelist/lab/sni-gate.py:83-105 | one server_name extension anywhere among others gives its host name |
| `Sni.AsciiLowerOfAscii` | artifacts/fortinetz-cascade-whitelist/lab/sni-gate.py:102-103 | an ASCII name keeps its length and is lower-cased byte by byte |

## Left out

- Real file, ACL, socket, sudo and launchctl calls: each is one step or method with an arbitrary outcome; opening and verifying the lease directory is one "storage is safe" outcome.
- Runtime quarantine and verification of installed files: nearly all system calls.
- Clock jumps across a daemon replacement, which the source itself says can shorten or extend a lease.
- The override flag and a service unreachable at the last probe: the end-to-end theorems are about a bootout that follows a successful renewal; the guard's contracts still cover both cases.
- Processes orphaned by an earlier daemon: the registry starts empty after a relaunch, so the theorems are about registered children.
- Texts of busy and error messages, request snapshots and their formatting, and the expiry time carried by install errors.
- JSON decoding and canonical re-encoding, and the location strings of schema errors.
- The peer check before a connection is accepted, and connections turned away at the slot limit: they never enter the tracker.
- A bootout that comes after the deadline of its renewal: the theorems stop at the deadline, as the program's own promise does.
- Liveness: nothing says that a request is eventually answered.
- OpenConnect and VLESS start and stop loops, session fields set by the DNS handoff, the networksetup fallback, command lines, keychain wrappers and status output.
- Regular expressions, SHA-1, random generation and address parsing: predicates or parameters.
- Control.ReadRequest: descriptors installed beyond a control buffer that the kernel cut short are not closed, as the contract says; the program makes the buffer larger than the kernel's limit so that this does not happen. Control buffers on other platforms are not modelled.
- Control.RightsFromControl: a cursor stands for the re-sliced buffer, and a 32-bit message length cannot overflow the program's integer.
- Daemon.ServiceDaemon.HandleMutating: one call runs to its end; interleaving with other requests and crashes is the step system's matter.
- Daemon.ServiceDaemon.IsIdle: the two mutexes are not modelled in the objects, only in the step system.
