# DaygleVE: a verified model of the control plane

DaygleVE is a single-node hypervisor control plane. This project models its stateful protocols and its two text
translators in Dafny and proves what they promise, for every input and every run. `dafny verify dfyconfig.toml` checks
everything.

How the source is represented:

- A service that updates its fields is a class with the same fields; its methods are tied to specification functions, and
  the properties are proved about those.
- A protocol in which several parties act at once (journal workers and restarts, account operations under the lock, the
  streaming exec, reconciliation requests, login attempts) is a step relation, or a log of overlapping attempts, with
  explicit failure, abandonment and restart steps. A run is any sequence of possible steps, so every interleaving of those
  steps is covered. A step is what one party does between two points at which another may act.
- `JsonStore` is a map whose `Put` and `Delete` either happen or fail without effect. Failing writes and host commands are
  nondeterministic (`*`) or a parameter; a host command whose answer is lost may still have had its effect.
- Time is a natural number that does not decrease. Hashing, TOTP, random identifiers and the IP address parser are
  parameters. Floating-point samples are `real`.
- Integer widths are written out where they show: the saturating `u32` failure counter of the throttle, the wrapping `u32`
  streak of the alerts, the `u64` cooldown compared as `i64`, saturating `u64` sums of snapshot sizes, and the wrapping
  `u64` memory limit of a container (the release profile does not check overflow).

| file | part of the system |
|---|---|
| `Journal.dfy`, `JournalRuns.dfy` | the operation journal, one call at a time and as runs with crashes |
| `ReconcileRuns.dfy`, `Reconciliation.dfy` | approvals and repairs; drift detection, repair and the quarantine ledger |
| `StreamExec.dfy`, `Framing.dfy`, `Base64.dfy` | streaming exec, wire frames, console chunks |
| `LoginThrottle.dfy`, `LoginHandler.dfy` | backoff buckets against the event history; the login endpoint |
| `Accounts.dfy`, `AccountRuns.dfy`, `Sessions.dfy`, `AuthService.dfy` | accounts, recovery codes, sessions |
| `Acl.dfy`, `ResourcePaths.dfy` | path grants, URI resolution |
| `Addresses.dfy`, `Nft.dfy`, `HostFirewall.dfy` | CIDR ranges; nftables batches with packet semantics; the host firewall compiler |
| `LxcConfig.dfy` | the container configuration renderer against the broker's validator |
| `Alerts.dfy` | breach streaks and cooldowns |
| `Snapshots.dfy` | VM disk snapshots over several datasets |
| `Store.dfy`, `Text.dfy`, `Numbers.dfy`, `Collections.dfy`, `Wrappers.dfy` | the record store, string functions, integer bounds, enumerations, `Option` and `Result` |

## Where the code does less than one might expect

Each of these is kept as the code has it. A lemma gives the exact condition under which the expectation holds or fails (for
overlapping logins, the bound that takes its place), and the same lemma or another one an input or a run where it fails.

- A frame with an empty body can be written and is refused by the reader: `Framing.FrameRoundTrip` reads a body back if and
  only if it is not empty.
- A mount destination with leading whitespace or with a line feed in its trailing whitespace passes the service's own
  validation and makes the broker refuse the whole block: `LxcConfig.BlockJudged` is the exact condition,
  `LxcConfig.UntidyMountRefused` an instance.
- A repair request that has spent its approval may repair nothing: `ReconcileRuns.RepairFollowsSpending` says exactly when
  the repair follows, `ReconcileRuns.SpentWithoutRepair` is a run in which it does not.
- An approval is meant to serve one repair, but looking at it and spending it are separate: `ReconcileRuns.EnqueueExactly` is
  the exact condition, `ReconcileRuns.ApprovalServesTwice` a run in which two overlapping requests get two repairs out of one
  approval, and `ReconcileRuns.ApprovalsServeOnce` holds when no two requests are in between for one approval.
- The login handler means to keep concurrent attempts from all seeing the state before the penalty, but a failure is recorded
  only after the check: `LoginHandler.AtMostFiveAndOverlap` bounds the failed checks by five plus those that overlap one
  attempt, `LoginHandler.BurstIsChecked` shows that any number of attempts arriving together is checked.
- The throttle's entry limit is not a cap: `LoginThrottle.OverfullMeansAllLive` says exactly when an insertion passes it,
  `LoginThrottle.BurstFillsMap` shows that every size is reached.
- A firewall batch is refused as a whole when the table already holds a different chain called `input`, or when a prefix
  length is written with a plus, which the service's validation lets through: `HostFirewall.BatchInstalls` is the exact
  condition, `HostFirewall.PlusRefused` an instance of the second kind.
- A request that is dropped after its store write and before its cache update leaves the two in disagreement, and the stale
  cache then lets the last administrator be deleted: `AccountRuns.AbandonExactly` says exactly which dropped requests do
  harm, `AccountRuns.LastAdminLost` is a run from the seed after which, restarted, nobody is an administrator.
  `AccountRuns.CacheStaysSound` and `AccountRuns.AcceptedWithinIssued` say what holds whatever is dropped.
- A recovery code can be spent and nobody let in for it: `AccountRuns.LossExactly` says at which steps,
  `AccountRuns.CodeLost` is a run with such a loss.
- Removing an account's grants can leave some in memory that the store no longer has: `Acl.StaleAfterRemoval` says exactly
  when and which, `Acl.StaleExample` is an instance.
- A cooldown of 2^63 seconds or more holds nothing back: `Alerts.CooldownMeaning` is the exact condition,
  `Alerts.HugeCooldownExample` an instance. The 2^32nd breach in a row stays silent: `Alerts.FiresExactly` is the exact
  condition, `Alerts.WrapExample` an instance.
- A failed snapshot capture also destroys an incomplete snapshot of the same name that was there before:
  `Snapshots.IncompleteIsLost` says exactly on which disks, `Snapshots.IncompleteExample` is an instance.

## Model

| member | source | states |
|---|---|---|
| `JournalRuns.OutcomesAreFinal` | src/services/operations.rs:598-773 | in any continuation of any run with concurrent workers, failing writes, abandoned requests, crashes (also inside recovery) and restarts, a record that is Succeeded, Failed or NeedsReview never changes in any field |
| `JournalRuns.NothingIsInvented` | src/services/operations.rs:91-190 | a record is Succeeded only if its own operation returned Ok, and Failed only if it returned an error |
| `JournalRuns.RecoveryLeavesNoneActive` | src/services/operations.rs:67-88 | whenever a start finishes recovering and begins to serve, no record is Queued or Running |
| `JournalRuns.SecondRecoveryIsIdle` | src/services/operations.rs:67-88 | restarting again, any number of times and with failing writes, changes no record when none is active |
| `JournalRuns.ReviewsComeFromRecovery` | src/services/operations.rs:67-88 | a record needs review only if some recovery step found it active and wrote it |
| `JournalRuns.RunKeeps` | src/services/operations.rs:67-190 | the invariant tying every record to its worker and to what its operation returned holds in every reachable state, and statuses only move forward |
| `Journal.OperationService.RecoverInterrupted` | src/services/operations.rs:67-88 | on success every active record, and no other, is put up for review and the count is their number; on a failed write some of them are |
| `Journal.OperationService.CreateRecord` | src/services/operations.rs:658-692 | a blank kind is refused; otherwise exactly one new record with the given fields, or no change when the write fails |
| `Journal.OperationService.MarkRunning` | src/services/operations.rs:694-704 | only a queued record starts; anything else is left alone |
| `Journal.OperationService.UpdateProgress` | src/services/operations.rs:598-619 | a finished record is left alone; progress is capped at 100 and an absent message keeps the old one |
| `Journal.OperationService.SetReconciliationFindings` | src/services/operations.rs:463-482 | records the findings and a drift text exactly when there are some |
| `Journal.MessagesJoined` | src/services/operations.rs:463-482 | the drift text is the messages in order with "; " between them |
| `Journal.OperationService.SetReconciliationMode` | src/services/operations.rs:457-461 | records the mode and nothing else |
| `Journal.OperationService.SetResultId` | src/services/operations.rs:738-742 | records the result and nothing else |
| `Journal.OperationService.FinishRecord` | src/services/operations.rs:744-773 | the new status, the time, progress 100 on success, and absent fields keep their old values |
| `Journal.OperationService.Run` | src/services/operations.rs:91-131 | the caller gets the operation's own result; field by field the record is the one begun, still Running, or finished with 100 percent or with the operation's error; no other record changes |
| `Journal.OperationService.Work` | src/services/operations.rs:134-190 | the background half of an enqueued operation: field by field the record is the queued one, started, and finished with the operation's message or error unless a write failed |
| `ReconcileRuns.RepairsAreApproved` | src/services/operations.rs:196-290 | in every run, with overlapping and dropped requests and restarts, each enqueued repair, at whatever stage it is or ended, has a spent approval whose record has kind host.reconcile, status Succeeded, mode DryRun and findings; it works on exactly those findings and records no others |
| `ReconcileRuns.ApprovalMeans` | src/services/operations.rs:203-214 | a record approves if and only if it is a succeeded host.reconcile dry run with findings |
| `ReconcileRuns.ApprovalsServeOnce` | src/services/operations.rs:196-290 | no approval serves two repairs, in every run in which no two requests are between examining and spending one approval |
| `ReconcileRuns.EnqueueExactly` | src/services/operations.rs:435-455 | an enqueued repair keeps approvals and repairs one to one if and only if its approval has served no other repair |
| `ReconcileRuns.ApprovalServesTwice` | src/services/operations.rs:435-455 | a reachable run in which two overlapping requests get two repairs out of one approval |
| `ReconcileRuns.RepairsAreKnown` | src/services/operations.rs:225-258 | every worker that repairs and every record that says it was a repair is one of the enqueued repairs |
| `ReconcileRuns.RepairsWereAsked` | src/services/operations.rs:196-234 | every enqueued repair goes back to a request of the run that examined its approval and quarantines unmanaged resources |
| `ReconcileRuns.SucceededIsDocumented` | src/services/operations.rs:225-270 | every Succeeded reconciliation record carries a mode and findings |
| `ReconcileRuns.RepairFollowsSpending` | src/services/operations.rs:215-234 | once an approval is spent, the repair is enqueued if and only if the request quarantines unmanaged resources and the record can be written; otherwise only the approval is gone |
| `ReconcileRuns.SpentWithoutRepair` | src/services/operations.rs:215-229 | a reachable run ends with the approval of a succeeded dry run spent and no repair enqueued |
| `ReconcileRuns.ReconcileService.ConsumeApproval` | src/services/operations.rs:435-455 | a second use is a conflict, a failed write spends nothing |
| `ReconcileRuns.ReconcileService.EnqueueRepair` | src/services/operations.rs:196-290 | left to itself the handler takes exactly the steps of a repair request; a record that is not a succeeded dry run with findings, or is already spent, is a conflict and changes nothing; each other refusal has its error; an accepted request spends the approval and queues a repair of exactly its findings; the answer is the queued record, or an error when reading it back fails after the repair was queued |
| `ReconcileRuns.ReconcileService.EnqueueDryRun` | src/services/operations.rs:219-290 | a dry run is queued without an approval, or not at all when the write fails |
| `Reconciliation.Node.DetectDrift` | src/services/operations.rs:342-431 | the findings are exactly the missing VMs, containers, bridges and VLANs and the unmanaged domains, containers and bridges, each as what it is |
| `Reconciliation.DriftExactly` | src/services/operations.rs:342-431 | a scan says of a VM or bridge that it is missing, or unmanaged, if and only if it is; only missing resources other than containers are repairable, and only a container's loss is destructive |
| `Reconciliation.Node.ReconcileVms` | src/services/kvm.rs:529-557 | exactly the saved VMs without a domain of that name, and exactly the domains no VM is named after |
| `Reconciliation.Node.ReconcileBridges` | src/services/network.rs:236-261 | exactly the saved bridges without a device, and exactly the devices nobody saved |
| `Reconciliation.NetworkFindings` | src/services/operations.rs:399-418 | bridge names never look like VLAN keys, so the prefix test reports each as what it is |
| `Reconciliation.Node.RepairVm` | src/services/kvm.rs:561-566 | success defines the VM's domain; a failure changes nothing or, when only the answer was lost, has defined it |
| `Reconciliation.Node.RepairBridge` | src/services/network.rs:151-179 | success adds a device that was absent; failure adds at most that device and removes nothing |
| `Reconciliation.Node.RepairFindings` | src/services/operations.rs:292-338 | whatever happens nothing leaves the host, nothing is adopted and the ledger only gains pending records, by a run of calls that file findings; on success every repairable VM and bridge is present and every unmanaged resource filed |
| `Reconciliation.RepairClosesDrift` | src/services/operations.rs:292-431 | after a successful repair of a complete scan the next scan misses no VM and no bridge and reports exactly the unmanaged resources again |
| `Reconciliation.Node.Quarantine` | src/services/operations.rs:484-516 | the open record of the resource or a new one, as one call of a ledger run; at most one pending record per resource is kept |
| `Reconciliation.Node.PersistUnmanaged` | src/services/operations.rs:518-531 | every unmanaged finding has an open record afterwards; the ledger is the result of a run of calls that file findings of the scan |
| `Reconciliation.Node.DecideQuarantine` | src/services/operations.rs:541-580 | one decision per record; only bridges present on the host are adopted; a failed save leaves the ledger as it was |
| `Reconciliation.DecisionsAreFinal` | src/services/operations.rs:484-580 | over any run of the calls that write the ledger, each resource has at most one open question, no record is lost and a decided one never changes |
| `Reconciliation.LateFilingExactly` | src/services/operations.rs:484-516 | a record filed after an earlier look keeps one open question per resource if and only if none was filed since |
| `Reconciliation.LateDecisionExactly` | src/services/operations.rs:541-580 | a decision about a record read earlier respects the ledger if and only if the record is still open or was decided alike |
| `StreamExec.SuccessIsComplete` | src/broker/client.rs:142-245 | in every interleaving, Ok means the child exited 0 and the sink holds exactly its whole output, for good |
| `StreamExec.NothingMisplaced` | src/broker/server.rs:278-417 | at every moment the sink is a prefix of the child's output and the child's stdin a prefix of the source |
| `StreamExec.ProtocolHolds` | src/broker/server.rs:278-396 | the client never meets a bad chunk or an unexpected frame, and reports an early close only after the broker has stopped |
| `StreamExec.ExecStreamed` | src/broker/client.rs:190-245 | the receive loop does to the end what its one-frame steps add up to; StreamExec.ReceivedExactly and OkMeansCleanExit say what that is |
| `StreamExec.OkMeansCleanExit` | src/broker/client.rs:190-245 | the receive loop succeeds if and only if it meets an exit of 0 after nothing but good chunks, and the sink then holds exactly what they carry |
| `StreamExec.ReceivedExactly` | src/broker/client.rs:190-245 | after any number of good chunks all taken, what the sink holds and what the loop answers for each way it can end: an early close, an unexpected frame, a bad chunk, a failing sink, and each kind of exit |
| `StreamExec.FeedStdin` | src/broker/server.rs:398-417 | the feeder's loop does to the end what its one-frame steps add up to; StreamExec.FedExactly says what that is |
| `StreamExec.FedIsPrefix` | src/broker/server.rs:398-417 | whatever the frames are, bad and oversized chunks included, the child receives a prefix of what they carry |
| `StreamExec.FedExactly` | src/broker/server.rs:398-417 | as long as frames are decodable chunks within the limit and are taken the child receives everything they carry; the first other frame adds nothing, and a failed write the part that went through |
| `StreamExec.AllFedAtEof` | src/broker/server.rs:398-417 | in every run, a feeder that stops at the end-of-input frame has fed everything the pump took from the source, so the whole source when the pump took it all |
| `Framing.FrameRoundTrip` | src/broker/mod.rs:291-354 | a frame is read back in front of anything if and only if its body is not empty |
| `Framing.BodiesOfFrames` | src/broker/mod.rs:291-354 | reading the concatenation of written frames returns the same list of bodies |
| `Framing.CutStream` | src/broker/mod.rs:291-319 | a stream cut anywhere decodes to a prefix of what was sent |
| `Framing.ParseExactly` | src/broker/mod.rs:291-319 | for any four bytes and any rest: the little-endian length, each refusal, and the body and remainder otherwise |
| `Framing.Reader.ReadFrame` | src/broker/mod.rs:291-319 | consumes and returns one frame, with the error of each malformed header |
| `Framing.Writer.WriteFrame` | src/broker/mod.rs:331-354 | refuses oversized bodies untouched, else writes the whole frame or fails within it |
| `Framing.ChunkFits` | src/broker/client.rs:395-405 | a full console chunk fits the frame limit after base64 and its JSON envelope |
| `Framing.StdinRoundTrip` | src/broker/mod.rs:331-354 | the payload of a stdin frame is recovered from its body |
| `Framing.StdinText` | src/broker/client.rs:395-405 | the text of a stdin frame around its base64 payload |
| `Framing.ConsoleDelivers` | src/broker/client.rs:395-405 | console input of any size arrives unchanged through chunking, envelope and framing |
| `Framing.CutConsole` | src/broker/client.rs:395-405 | console input cut anywhere on the wire arrives as a prefix |
| `Framing.ConsoleWriter.Send` | src/broker/client.rs:395-405 | all frames of the input are on the wire, or a prefix of them and an error |
| `Base64.RoundTrip` | src/broker/client.rs:395-405 | standard base64 (section 4 of RFC 4648): decoding an encoding returns the data |
| `Base64.StandardVectors` | src/broker/client.rs:395-405 | the encodings of the test vectors in section 10 of RFC 4648 |
| `LoginThrottle.DelayIsPenalty` | src/services/login_throttle.rs:41-146 | for every event history with a nondecreasing clock, the bucket maps answer what the whole history owes, with or without eviction and with saturation |
| `LoginThrottle.PenaltyMeaning` | src/services/login_throttle.rs:61-78 | what is owed is min(2^(n-1), 60) seconds for the longest unbroken run of n failures, and nothing after a quiet gap |
| `LoginThrottle.StreakIsLongest` | src/services/login_throttle.rs:50-59 | the counted streak is the longest chain of failures no more than 15 minutes apart since the last success |
| `LoginThrottle.EvictionUnobservable` | src/services/login_throttle.rs:122-129 | evicting expired buckets never changes a later answer |
| `LoginThrottle.OverfullMeansAllLive` | src/services/login_throttle.rs:122-146 | an insertion takes a map past the limit if and only if at least that many buckets are still live, and then only live buckets are left |
| `LoginThrottle.BurstFillsMap` | src/services/login_throttle.rs:114-146 | one failure from each of n keys at one moment leaves n buckets, for every n |
| `LoginThrottle.LoginThrottle.PenaltyFor` | src/services/login_throttle.rs:96-110 | the stricter of what the address and the account owe by their histories, the account under any spelling of its name (LoginHandler.SpellingsShareBucket) |
| `LoginThrottle.LoginThrottle.RecordFailure` | src/services/login_throttle.rs:114-146 | both histories gain the failure, and the returned delay is what is owed now |
| `LoginThrottle.LoginThrottle.RecordSuccess` | src/services/login_throttle.rs:149-152 | both histories gain the success |
| `LoginHandler.AtMostFiveAndOverlap` | src/api/auth.rs:45-131 | in every run of overlapping attempts, between a success or a quiet gap the failed checks on one account under any spelling of its name, or from one address, are at most five more than those recorded while any one attempt was under way |
| `LoginHandler.AtMostFiveChecks` | src/api/auth.rs:45-131 | when attempts do not overlap, between a success or a quiet gap at most five on one account under any spelling of its name, and at most five from one address, reach verification and fail |
| `LoginHandler.SpellingsShareBucket` | src/services/login_throttle.rs:155-157 | two names have one bucket if and only if, trimmed, they name the same account |
| `LoginHandler.OneAccountOnePenalty` | src/services/login_throttle.rs:96-110 | all names that a login resolves to one account owe one penalty |
| `LoginHandler.BurstIsChecked` | src/api/auth.rs:52-66 | any number of attempts that arrive together is checked |
| `LoginHandler.RefusedAfterFive` | src/api/auth.rs:45-131 | once the streak is five, every attempt before a quiet gap is refused without verification |
| `LoginHandler.CheckedEarly` | src/api/auth.rs:45-131 | when an attempt is verified, the first failure recorded after it asked for its penalty makes a streak of at most five |
| `LoginHandler.SleepBounded` | src/api/auth.rs:45-131 | no attempt sleeps more than eight seconds |
| `LoginHandler.LoginHandler.Arrive` | src/api/auth.rs:52-70 | an attempt is refused and recorded at once, or told what the recorded history demands |
| `LoginHandler.LoginHandler.Conclude` | src/api/auth.rs:72-131 | the attempt is verified and recorded as what it was, whatever was recorded since it arrived; the log stays a run of overlapping attempts |
| `LoginHandler.LoginHandler.Login` | src/api/auth.rs:45-131 | an attempt that nothing overlaps is refused, slept or verified as the recorded history demands |
| `AccountRuns.AccountsStaySound` | src/services/auth.rs:119-173 | from the seed on, through failed writes, restarts and interleaved logins, as long as no request is dropped between its store write and a change it has to publish, an administrator exists, names are unique ignoring ASCII case, and cache and store agree on all but the last login time |
| `AccountRuns.AbandonExactly` | src/services/auth.rs:395-467 | dropping a request after its store write keeps cache and store in agreement if and only if the request had nothing to publish |
| `AccountRuns.LastAdminLost` | src/services/auth.rs:448-467 | a run from the seed in which a dropped deletion lets a second one remove the last administrator, so that after the next start, which finds another account and seeds nobody, nobody is an administrator |
| `AccountRuns.CacheStaysSound` | src/services/auth.rs:338-467 | whatever is dropped, until the next restart the running process keeps an administrator and unique names |
| `AccountRuns.PlansKeepSound` | src/services/auth.rs:338-467 | every accepted account operation keeps accounts filed, names unique and an administrator |
| `AccountRuns.RecoveryCodesConserved` | src/services/auth.rs:558-678 | in the same runs and per hash, accepted, lost, in-flight and stored codes add up to those issued |
| `AccountRuns.AcceptedWithinIssued` | src/services/auth.rs:558-678 | in every run, with any requests dropped and any restarts, no recovery code of an account is accepted more often than it was issued |
| `AccountRuns.LossExactly` | src/services/auth.rs:639-678 | the books gain a loss at a step if and only if it drops or cuts off a request that has spent a code and not answered |
| `AccountRuns.CodeLost` | src/services/auth.rs:639-678 | a run from the seed that loses a code |
| `AccountRuns.NothingLostWhenAnswered` | src/services/auth.rs:639-678 | while every spent code is answered for, none is lost |
| `Accounts.SaveKeepsSound` | src/services/auth.rs:395-467 | saving an account keeps soundness exactly under the checks the service makes |
| `Accounts.SameNameMeans` | src/services/auth.rs:186-186 | two names are the same account name if and only if they have equal length and agree letter by letter up to ASCII case |
| `Accounts.PlansAreScreened` | src/services/auth.rs:338-507 | a new account is refused as invalid if and only if its password has fewer than 8 bytes or its trimmed name is empty, longer than 64 bytes, or has whitespace or control characters; a new password always has 8 |
| `Sessions.StandingMeansKept` | src/services/auth.rs:268-312 | a token stands if and only if some login minted it and no logout, reset, change or deletion ended it since |
| `Sessions.OthersUnaffected` | src/services/auth.rs:395-507 | what happens to another user or token never touches a session |
| `Sessions.RevocationExactly` | src/services/auth.rs:268-507 | after each event, for every history and token, exactly what stands: a reset or a deletion leaves no session of that user, a password change only the calling one, a logout ends that token, everything else stays |
| `Sessions.WithoutExactly` | src/services/auth.rs:268-507 | dropping the sessions an event ends leaves in the table exactly those of other users and, for a password change, the caller's token |
| `AuthService.AuthService.LoadOrSeed` | src/services/auth.rs:119-173 | saved accounts are loaded unchanged, or one administrator is seeded |
| `AuthService.AuthService.Authenticate` | src/services/auth.rs:274-312 | succeeds exactly when the token stands, has not expired and its user exists; evicting it is unobservable |
| `AuthService.AuthService.Logout` | src/services/auth.rs:268-272 | removes exactly that token from the table |
| `AuthService.AuthService.Login` | src/services/auth.rs:175-265 | a session only for a known password and, when enrolled, a second factor, and always when no recovery code has to be spent; a second factor is asked for exactly when an enrolled account gives no code; accounts, store and table change only by the login time, a spent code and the new token |
| `AuthService.AuthService.CreateUser` | src/services/auth.rs:338-392 | carries out the plan or leaves everything, and keeps the account invariants |
| `AuthService.AuthService.UpdateUser` | src/services/auth.rs:395-445 | as planned; with a new password the table keeps exactly the sessions of other users, otherwise all |
| `AuthService.AuthService.DeleteUser` | src/services/auth.rs:448-467 | the last administrator stays; the table keeps exactly the sessions of other users |
| `AuthService.AuthService.ChangePassword` | src/services/auth.rs:470-507 | the current password is required; the table keeps exactly the sessions of other users and the calling one |
| `AuthService.AuthService.TwoFactorSetup` | src/services/auth.rs:523-555 | a pending secret, unless already enabled |
| `AuthService.AuthService.TwoFactorConfirm` | src/services/auth.rs:558-597 | enabled only with a valid code for the pending secret, with the issued hashes |
| `AuthService.AuthService.TwoFactorDisable` | src/services/auth.rs:601-636 | only with a valid second factor the enrolment, and nothing else, is cleared in cache and store; a failure changes nothing or has spent the recovery code |
| `AuthService.AuthService.VerifySecondFactor` | src/services/auth.rs:639-678 | a valid TOTP changes nothing; a recovery code is accepted only while stored and is removed once |
| `Acl.CoversIsPrefix` | src/services/acl.rs:166-179 | on paths, the text test is the segment-prefix test when propagating and segment equality otherwise |
| `Acl.CoverageIsPartialOrder` | src/services/acl.rs:166-179 | coverage by propagating grants is reflexive, antisymmetric and transitive |
| `Acl.NormalizeIsNormal` | src/services/acl.rs:195-234 | whatever normalization returns is a path of good segments |
| `Acl.NormalizeIdempotent` | src/services/acl.rs:195-234 | normalizing again changes nothing |
| `Acl.NormalizeExactly` | src/services/acl.rs:195-234 | the result is the path of these segments if and only if they are good and the trimmed input spells them, with or without a slash in front and with any number behind |
| `Acl.HoldsIsMonotone` | src/services/acl.rs:183-191 | more grants never take a permission away |
| `Acl.HeldBelow` | src/services/acl.rs:183-191 | what a propagating grant gives at a path is held at every path below it |
| `Acl.RootRolesReachEverywhere` | src/services/acl.rs:148-162 | a node-wide role reaches every path |
| `Acl.EffectivePermissionsAt` | src/services/acl.rs:183-191 | exactly the permissions of the covering grants, each once |
| `Acl.EffectivePermissions` | src/services/auth.rs:803-880 | exactly the permissions of the roles, each once |
| `Acl.GrantedMeans` | src/services/auth.rs:803-880 | a viewer is granted exactly reading of resources, operations and metrics, an operator everything except certificates, the audit log and user administration, an administrator everything |
| `Acl.ViewersOnlyRead` | src/services/auth.rs:803-880 | whoever has only viewer grants holds no permission to change, power, audit or administer, at any path |
| `Acl.HigherRolesHoldMore` | src/services/auth.rs:803-880 | the roles are nested: raising the role of grants takes nothing away |
| `Acl.AclService.Create` | src/services/acl.rs:78-110 | a normalized, unrepeated entry in store and memory, or no change |
| `Acl.AclService.Delete` | src/services/acl.rs:113-122 | removes exactly that entry from both, or fails without change |
| `Acl.AclService.RemoveSubject` | src/services/acl.rs:125-144 | the entries are deleted in some order up to the first failure; the memory follows only when all deletes went through, and then holds exactly the entries of others |
| `Acl.StaleAfterRemoval` | src/services/acl.rs:125-144 | memory and store part company if and only if a delete went through and a later one failed, and the stale grants are exactly those deleted before |
| `Acl.StaleExample` | src/services/acl.rs:125-144 | two entries and one failing delete are enough |
| `ResourcePaths.ItemUriResolves` | src/auth/mod.rs:145-165 | every URI below one VM, container or pool, with or without the version prefix, resolves to that item |
| `ResourcePaths.CollectionUriResolves` | src/auth/mod.rs:145-165 | a URI of vms, containers or pools alone resolves to that collection |
| `ResourcePaths.OtherUrisAtRoot` | src/auth/mod.rs:145-165 | a URI of any other resource resolves to the root |
| `ResourcePaths.ResolutionIdempotent` | src/auth/mod.rs:145-165 | resolving a resource path returns it |
| `ResourcePaths.OnlyThreePathsMatter` | src/services/acl.rs:166-191 | the check at an item depends only on grants at the root, the collection and the item |
| `ResourcePaths.RequireAt` | src/auth/mod.rs:53-68 | a caller with grants is judged by path, one without by the flat permission set; viewers alone never pass a check that is not for reading, a node-wide administrator passes all |
| `HostFirewall.MeaningPreserved` | src/services/firewall.rs:157-190 | on any prior ruleset the installed chain gives every packet the verdict the configuration means |
| `HostFirewall.UnconfiguredAcceptsAll` | src/services/firewall.rs:85-103 | with nothing saved the installed chain accepts every packet |
| `HostFirewall.BatchInstalls` | src/services/firewall.rs:157-225 | the rendered text, read and run by nft, installs exactly that chain if and only if no foreign chain is in the way and no rendered prefix length is written with a plus; otherwise it is refused as a whole |
| `HostFirewall.PlusRefused` | src/services/mod.rs:339-361 | a validated configuration that nft refuses on every ruleset |
| `HostFirewall.OtherChainsUntouched` | src/services/firewall.rs:157-190 | every other chain and table is as before |
| `HostFirewall.RuleRead` | src/services/firewall.rs:193-225 | nft reads a rendered rule back as the compiled rule, unless its prefix length is written with a plus |
| `HostFirewall.CidrRead` | src/services/mod.rs:339-361 | what the service accepts as a CIDR, nft reads as the same range or, with a plus, not at all |
| `Addresses.CidrExactly` | src/services/mod.rs:339-361 | an address, a slash and a number are accepted if and only if the address parses and the number fits its width |
| `Addresses.NumberRead` | src/services/mod.rs:339-361 | the number is at most 255, with or without one plus in front |
| `Addresses.CoversIsBlock` | src/services/firewall.rs:193-225 | the range a rule compares with is the aligned block of addresses that share the leading bits |
| `HostFirewall.Validate` | src/services/firewall.rs:139-155 | accepts exactly the valid configurations |
| `HostFirewall.RenderRule` | src/services/firewall.rs:193-225 | prints the words of the rule |
| `HostFirewall.NftHostBatch` | src/services/firewall.rs:157-190 | prints the lines of the batch, for every valid configuration |
| `HostFirewall.CidrFamily` | src/services/firewall.rs:228-236 | the keyword of the address family |
| `HostFirewall.HostFirewallService.Update` | src/services/firewall.rs:74-82 | validate, apply, persist: an invalid configuration, or one nft refuses, is never saved |
| `HostFirewall.HostFirewallService.ApplyPersisted` | src/services/firewall.rs:85-103 | the saved configuration, or the default, is installed; a failure leaves the host as it is or, when only the answer was lost, with that configuration |
| `LxcConfig.BlockJudged` | src/broker/mod.rs:1084-1118 | the block of a validated container is accepted if and only if it is at most 8192 bytes and every mount destination starts with a slash and has no line feed |
| `LxcConfig.BlockSets` | src/services/lxc.rs:734-763 | reading an accepted block back gives memory.max as memory_mib * 2^20 modulo 2^64, cpu.max as vcpus * 100000 of 100000, and every network's type, link, flags, VLAN and address under its own number, each once and no others |
| `LxcConfig.TidyMountRenders` | src/services/lxc.rs:789-818 | a validated mount without surrounding whitespace meets that condition |
| `LxcConfig.MountJudged` | src/services/lxc.rs:769-783 | one validated mount line is accepted exactly under that condition |
| `LxcConfig.MountRecovered` | src/services/lxc.rs:769-783 | splitting a rendered entry recovers the source, the relative destination and the read-only flag |
| `LxcConfig.UntidyMountRefused` | src/services/lxc.rs:789-818 | a destination with a leading space is validated and then refused |
| `LxcConfig.WriteConfig` | src/services/lxc.rs:726-763 | renders the block, and fails exactly when a mount is invalid; LxcConfig.BlockSets says what the block sets |
| `LxcConfig.ValidateMount` | src/services/lxc.rs:789-818 | accepts exactly absolute paths of at most 1024 bytes without parent components, whitespace or control characters, whose destination is not the root |
| `LxcConfig.ValidateBlock` | src/broker/mod.rs:1084-1118 | accepts exactly the permitted blocks |
| `LxcConfig.ValidateMountEntry` | src/broker/mod.rs:1134-1172 | accepts exactly the permitted bind mount entries |
| `Alerts.FiresExactly` | src/services/alerts.rs:187-232 | a sample fires if and only if the last max(1, sustain) samples reach the threshold, every earlier notification is at least the cooldown old, and the 32-bit streak has not wrapped below the requirement |
| `Alerts.FiresAsPromised` | src/services/alerts.rs:187-232 | below 2^32 breaches in a row the first two conditions alone decide |
| `Alerts.WrapSilences` | src/services/alerts.rs:203-206 | the 2^32nd breach in a row is sustained and silent |
| `Alerts.WrapExample` | src/services/alerts.rs:203-206 | a run of 2^32 breaches whose last one is silent |
| `Alerts.HugeCooldownExample` | src/services/alerts.rs:368-374 | two notifications at one moment under a cooldown of 2^63 seconds |
| `Alerts.FiresApart` | src/services/alerts.rs:207-213 | two notifications of one chain are at least the cooldown apart, from the stamp of the first to the check of the second |
| `Alerts.CooldownMeaning` | src/services/alerts.rs:368-374 | whole seconds decide as the exact difference does, for cooldowns below 2^63 seconds |
| `Alerts.MissingIsNeutral` | src/services/alerts.rs:168-183 | a missing sample leaves its chain as it was |
| `Alerts.KeysAreDistinct` | src/services/alerts.rs:193-193 | a key belongs to one rule and one subject |
| `Alerts.AlertService.RecordAndMaybeFire` | src/services/alerts.rs:187-232 | the breach table is what the samples of each chain lead to, and the answer is whether this one fires |
| `Alerts.AlertService.Evaluate` | src/services/alerts.rs:168-183 | every enabled rule samples its subjects in turn, in any order of the rules and with its own clock readings, and the result counts the notifications |
| `Alerts.SamplesExactly` | src/services/alerts.rs:168-297 | an evaluation samples exactly the subjects that an enabled rule watches and that have a value, with the rule's own sustain and cooldown and the verdict of Alerts.ObservedIsJudged |
| `Alerts.ObservedIsJudged` | src/services/alerts.rs:265-356 | per scope and metric, which counter of the first guest or pool of that name decides, in its own units, and when there is no value |
| `Alerts.SubjectsAreWatched` | src/services/alerts.rs:234-261 | a rule watches the guest or pool it is pinned to, or all of its scope, or the node |
| `Alerts.AlertService.Delete` | src/services/alerts.rs:153-162 | the rule's chains are forgotten and no other |
| `Snapshots.KvmHost.ListSnapshots` | src/services/kvm.rs:1398-1521 | the disk snapshots and the readable memory images, newest first |
| `Snapshots.KvmHost.ListDiskSnapshots` | src/services/kvm.rs:1398-1474 | a name is listed exactly when it is not reserved and every disk carries it, with the saturated sum of sizes, the first disk's time and the first description |
| `Snapshots.KvmHost.ListImages` | src/services/kvm.rs:1475-1518 | only safe names of existing images are listed, each once, with their size, time and description as far as those can be read; an unreadable directory is no error |
| `Snapshots.SortNewestFirst` | src/services/kvm.rs:1519-1520 | the same entries, none lost or doubled, in order of age |
| `Snapshots.CompleteNames` | src/services/kvm.rs:1470-1474 | the names counted on all disks are exactly those on every disk |
| `Snapshots.TallyMeaning` | src/services/kvm.rs:1454-1468 | the running total of a name counts its disks and saturates their sum |
| `Snapshots.RowRead` | src/services/kvm.rs:1433-1449 | a printed row is read back as the snapshot it describes |
| `Snapshots.KvmHost.SnapshotOnAllDisks` | src/services/kvm.rs:1773-1801 | true exactly when every disk carries the name, which is when it is listed |
| `Snapshots.KvmHost.CreateDiskSnapshot` | src/services/kvm.rs:1543-1623 | refused before the capture without effect, also when every disk already carries the name; otherwise which disks carry it afterwards is exactly determined by what was there and by the host's answers; when it is stored everywhere, the description listed is the one given with control characters replaced by spaces and trimmed, none if that leaves nothing or a lone hyphen; other snapshots are untouched |
| `Snapshots.KvmHost.Annotate` | src/services/kvm.rs:1613-1617 | exactly the targets whose set command works have the text as their description, and nothing else changes |
| `Snapshots.SnapshotDatasetsExactly` | src/services/kvm.rs:2244-2251 | the targets are exactly the named datasets of the disks, and one unsafe name refuses all |
| `Snapshots.IncompleteIsLost` | src/services/kvm.rs:1590-1602 | a disk loses a snapshot of that name it had before if and only if its destroy command works; when all work, one is lost if and only if there was one, and such a capture never succeeds |
| `Snapshots.AllOrNone` | src/services/kvm.rs:1579-1602 | when the cleanup commands work, the name ends on all disks or on none |
| `Snapshots.IncompleteExample` | src/services/kvm.rs:1590-1602 | two disks, the name on one, every command working: afterwards it is on neither |
| `Snapshots.KvmHost.RunSnapshot` | src/services/kvm.rs:1574-1583 | the capture succeeds exactly when every target can be created and is, and says so; otherwise any of them may have been created |
| `Snapshots.KvmHost.CleanUp` | src/services/kvm.rs:1591-1594 | the name is gone exactly where some destroy command works |

## Left out

- Accounts: JSON, Argon2, TOTP and random values are abstract.
- Store listings that skip records that do not parse.
- IP parsing: the standard library's parser is a parameter that accepts only address characters. IPv4-mapped addresses are
  not unified before throttling.
- nft: only the commands and matches the host firewall renders, with one base chain; other hooks and chains of the kernel
  path are not evaluated. nft is taken to read addresses as the standard library does and a prefix length as plain decimal
  digits, also with leading zeros.
- LoginHandler: an attempt dropped between its check and the recording of its outcome.
- StreamExec: the JSON of exec frames, and a client that is dropped in the middle of a call.
- Journal: the audit log and the two-phase `begin`/`succeed` use outside `run` and `enqueue`.
- Reconciliation: containers and VLANs are inputs of the scan and their repair is an outcome; addresses, MTU and VLAN flags of
  bridges. The calls of a ledger run are atomic; what overlapping calls can do is in `Reconciliation.LateFilingExactly` and
  `Reconciliation.LateDecisionExactly`.
- Alerts.AlertService.Evaluate: no NaN samples, and the text of the notification is left out.
- Snapshots.KvmHost.ListSnapshots: times are compared as instants, not as text, and entries of one age may come in any order.
- Snapshots.KvmHost.CreateDiskSnapshot: the guest filesystem freeze around the capture.
- LxcConfig: container creation around the block, and the text of the refusals.
- The argument allowlists of the broker, the per-VM firewall, VM creation and clones, backups, ACME, notifications, library
  downloads, metrics, passthrough, consoles, configuration, routing and the remaining HTTP handlers: case tables or I/O.
