# Verified models of XY2API's managed TOTP rotation, eager loading, bulk creation and release gates

This project models the parts of XY2API whose correctness depends on many steps, several
failing parties or several passes over the same data, and proves what they keep.

**TOTP rotation.** A worker replaces the TOTP secret of an upstream account. It talks to the
upstream, to the XY2API server that owns the tasks, and to an encrypted local journal; each
call can fail before or after it takes effect, and the worker can crash between any two
steps. `Rotation` describes one run of `rotate` as a sequence of effects and outcomes (the
outcome `Fenced` means that the guard in front of an effect refused and nothing was sent).
`Rotate` is the same function in its own order of statements, guards included, `TaskService`
is the server's record of one task, whose transactions `TaskTransactions` states with all
their conditions, `RecoveryJournal` and `JournalClient` are the journal and the recovery pass,
and `System` puts them together as a step relation, in which, by `SystemService`, every
request that arrives is one of those transactions. `SystemInvariant` and the modules
after it prove an inductive invariant, and `SystemTheorems` states what it means for whole
runs: candidates are durable, the key an account accepts is never lost, and each rotation
mutates the upstream at most once. `SystemAgreement` says exactly when the server itself holds
the key, and exactly when an accepted success is true; `SystemExample` has two runs in which
the server loses track of a key. `Lease` puts a run of `rotate` into the main thread, with its
guards and its requests as steps of their own, and interleaves it with the heartbeat thread,
shutdown, the server and the clock; `LeaseEffects` says what cancels a task and what keeps it
alive. `WorkerObjects` has the worker's mutable objects, whose
methods are proved to be steps of `Lease`, and its process supervisor; `Secrets` and `Totp`
are the arithmetic underneath.

**Data layer.** `AccountQuery` models the eager loaders, hash joins that write into account
objects, and proves that they agree with the naive join. `AccountCreate` models the mutator
chain of a bulk insert: every builder is checked before one batch is sent, and hooks may set
fields, refuse, skip the rest of the chain or swallow its error.

**Release gates.** `AuditReport`, `AuditValidate`, `AuditGate` and `AuditTheorems` model the
check of dependency audit findings against a list of exceptions; the exit code is proved
equivalent to a statement without index, de-duplication or passes, which `AuditPromise` and
`AuditAgreement` tell by the texts of the report and of the exceptions alone. `TokenScanner` models the
digest scan of the docs checker.

## Assumptions

- A journal call is atomic and durable: it takes effect as a whole or not at all, and its
  caller may learn of neither. That a stored candidate is never replaced is proved of the
  journal program, not assumed. The journal's size limit counts as a failed call.
- In `System` a request may be lost or delivered at any later time, even after its sender
  crashed, but not twice. There is one worker, at most one process of it runs, and every task
  is a rotation; a reconciliation may be queued at any time the server allows it. No
  administrator saves a credential and nobody else changes the account's upstream key while
  tasks exist. The email and password of a claim are arbitrary. An account counts as `late`
  from the arrival of an activation whose task is closed, or from the success of a return to
  the old secret that the task's own activation overtook, until a login with the goal of an
  open task succeeds.
- `Lease` assumes a bound on the time between the server granting or renewing a claim and the
  worker noting it; with the guard's 45 seconds it must stay below the lease of 120 seconds.
  Sections under the worker's lock are single steps, and shutdown is a thread of its own. The
  wall clock that the codes are made from is ahead of the monotonic clock by a constant.
- HMAC-SHA1, SHA-256, base32 decoding, proxy URLs, Python's `str()` and date parsing, regular
  expressions and SQL queries are parameters. Case folding and white space in secrets are
  ASCII. JSON numbers are integers, and an object's keys are distinct where a lemma says so.

## Results that differ from what one might expect

- The server and the worker do not accept the same secrets. `Secrets.AcceptanceGap` says for
  every text where they differ: of what the worker accepts the server refuses texts of 104
  characters or more, and texts in which something outside base32 is left after its own
  trimming, for instance a tab between two groups (`Secrets.LongIsRefused`,
  `Secrets.TabIsRefused`); of what the server stores the worker refuses texts with an
  incomplete last group (`Secrets.IncompleteIsStored`). A journalled
  candidate that the server refuses stays on the pending list for ever
  (`SystemTheorems.RefusedStaysPending`).
- A late activation can leave the server with an old credential. In every world of every run
  `SystemAgreement.ApiKnowsTheSecret` says exactly when the server holds the accepted key: when
  each task that activated it is open or gave the account its last new key, or another task
  repeats it; if the account's last task activated it, when that task is open or did not go
  back to the old secret. `SystemAgreement.AcceptedSuccessIsTrue` says the same of an accepted
  success: one of a task whose own key the account accepts is true if and only if the task did
  not go back. `SystemExample.ApiCanLoseTheKey` is a run in which the activation arrives after
  a return to the old secret has succeeded, `SystemExample.SuccessCanBeFalse` one in which it
  arrives just before that success is reported. The journal still holds the key.
- The bulk insert ignores the error of `defaults()`, where a single insert stops: at the first
  field that was not given and has no default (`AccountCreate.DefaultsFail`).
  `AccountCreate.IgnoredErrorPasses` says exactly when a builder passes all the same: every
  required field was given, comes before that one among the defaults, or is set by a hook, and
  the values are valid.
- The answer of a bulk insert does not say whether anything was inserted. A hook may refuse
  after the batch, and a hook that answers success without calling the next mutator, or that
  swallows its error, makes the insert succeed without any batch; then some of the returned
  nodes are missing or have identifier zero (`AccountCreate.AccountCreateBulk.SuccessWithoutBatch`,
  `AccountCreate.SkippedInsert`, `AccountCreate.SwallowedInsert`).
- The audit gate lets a high or critical vulnerability pass without any exception exactly if
  its name is empty or none of its evidence has an identifier
  (`AuditTheorems.HighVulnerabilityIsMatched`). The second case needs an unrelated advisory
  for the same package, which then counts as its evidence
  (`AuditTheorems.BorrowedEvidencePasses`). The severity of a second finding for the same
  package and advisory is not compared (`AuditTheorems.LaterSeverityIsIgnored`). A `cves`
  field that is an object raises an exception the validator does not catch; the process still
  ends with exit code 1.

## Model

| member | source | states |
|---|---|---|
| `SystemTheorems.CandidateIsDurable` | tools/openai_totp_rotation.py:222-230 | In every run, whatever is in the journal at one point, in particular a usable candidate with its session and old secret, is in it at every later point, through crashes, restarts, lost replies and recovery passes. |
| `SystemTheorems.AcceptedSecretIsKnown` | tools/openai_totp_rotation.py:222-247 | The secret an upstream account accepts is always its first one or a journalled, acknowledged candidate that the server stored, however late activations arrive. |
| `SystemAgreement.ApiKnowsTheSecret` | backend/internal/service/openai_totp.go:565-691 | In every world of every run the server itself holds the accepted secret, as credential or as the candidate of the open task, if and only if each task that activated this secret is open, gave the account its last new key, or has another task repeating it. If the account's last task activated it, then if and only if that task is open or did not go back to the old secret. It always holds it outside `late`, and with no open task as credential. |
| `SystemAgreement.ReachableTraced` | tools/openai_totp_rotation.py:241-246 | In every run an account is late only for a secret that one of its tasks activated, and a return to the old secret counts as overtaken only while its own activation is what the account accepts, or the account is late. |
| `SystemAgreement.StepTraced` | tools/openai_totp_rotation.py:241-246 | Every step of worker, server, network or administrator keeps this. |
| `SystemAgreement.LateActivation` | tools/openai_totp_rotation.py:241-246 | In every run, an activation that arrives after its task was closed finds the task succeeded. For the account's last task the server then holds the key if and only if the task did not go back to the old secret; in general if and only if the account's last new key is this task's, or another task of the account was given the same secret. The journal holds the key in any case. |
| `SystemAgreement.ClosedHasSucceeded` | backend/internal/service/openai_totp.go:620-691 | A closed task that had sent an activation has succeeded, and its secret is the activated one if and only if it did not go back to the old one. |
| `SystemAgreement.AfterActivation` | tools/openai_totp_rotation.py:241-246 | An activation whose task is still open leaves the server holding the key. |
| `SystemExample.ApiCanLoseTheKey` | tools/openai_totp_rotation.py:241-246 | A run, for any two distinct secrets both programs take as they are: the activation gets no reply, `verify_old` succeeds, the activation takes effect; then the server no longer holds the key and the journal does. |
| `SystemTheorems.MutatedAtMostOnce` | tools/openai_totp_rotation.py:227-246 | Over a whole run a task is claimed for rotation, enrolled and activated at most once each. |
| `SystemTheorems.ActivatedOnlyWhenPrepared` | tools/openai_totp_rotation.py:238-246 | Every activation sent carries the candidate that the journal holds and the server has stored, after the first three phases were accepted. |
| `SystemTheorems.PhasesInOrder` | backend/internal/service/openai_totp.go:581-617 | The rotation phases accepted for a task are a prefix of enrolling, prepared, activating, verifying, and an open rotation has accepted those its state says. |
| `SystemTheorems.OnlyRotationsMutate` | tools/openai_totp_rotation.py:108-116 | No step but a rotation's own request enrolls or activates: recovery, verification and polling never do. |
| `SystemTheorems.JournalAndApiAgree` | tools/openai_totp_rotation.py:108-116 | A record is acknowledged only after the server accepted its candidate, and the candidate an open task stores is what the server makes of the journalled one. |
| `SystemTheorems.RefusedStaysPending` | tools/openai_totp_rotation.py:108-116 | A journalled candidate that the server refuses is never acknowledged in any continuation of the run, and stays pending. |
| `SystemAgreement.AcceptedSuccessIsTrue` | backend/internal/service/openai_totp.go:620-691 | An accepted success report, however late, makes the journalled candidate the credential, or restores the old secret. The credential is then the secret the upstream accepts if and only if each task that activated that secret gave the account its last new key, or another task repeats it; for a secret the task itself activated, if and only if the task did not go back to the old one; for an account that was not late, if and only if it is no return that its own activation had overtaken. |
| `SystemExample.SuccessCanBeFalse` | backend/internal/service/openai_totp.go:620-691 | A run, for any two distinct secrets both programs take as they are, whose last message is a success report of `verify_old` that the server accepts although the account accepts the new key: the activation arrived after both logins. |
| `SystemTheorems.ReachableOk` | tools/openai_totp_worker.py:287-306 | The system invariant holds in every world of every run. |
| `SystemTheorems.StepKeeps` | tools/openai_totp_worker.py:287-306 | Every step of worker, server, network or administrator keeps the system invariant. |
| `SystemDeliveries.DeliverClaimKeeps` | backend/internal/service/openai_totp.go:518-561 | Handing out a claim keeps the invariant. |
| `SystemDeliveries.DeliverPhaseKeeps` | backend/internal/service/openai_totp.go:565-619 | Accepting a phase post, in time or late, keeps the invariant. |
| `SystemOutcomes.DeliverFinishKeeps` | backend/internal/service/openai_totp.go:620-691 | Accepting a report of either kind keeps the invariant. |
| `SystemOutcomes.DeliverRecoverKeeps` | backend/internal/service/openai_totp.go:708-740 | Accepting a recovered candidate keeps the invariant; `SystemService.RecoveryIsStored` says exactly when it is accepted. |
| `SystemOutcomes.DeliverActivateKeeps` | tools/openai_totp_rotation.py:241-246 | An activation taking effect upstream, even after its task was closed, keeps the invariant. |
| `SystemOutcomes.DeliverLoginKeeps` | tools/openai_totp_rotation.py:201-212 | A login being answered by the upstream keeps the invariant. |
| `SystemWorker.JournalStepKeeps` | tools/openai_totp_rotation.py:98-106 | A save or acknowledgement of a run keeps the invariant whether it fails before, after or not at all. |
| `SystemWorker.ConfirmStepKeeps` | tools/openai_totp_rotation.py:112-116 | The acknowledgement of a recovered record keeps the invariant. |
| `SystemWorker.SendKeeps` | tools/openai_totp_rotation.py:226-246 | Sending the request of the current effect keeps the invariant. |
| `SystemSteps.ReconcileKeeps` | backend/internal/service/openai_totp.go:369-409 | Queueing a reconciliation keeps the invariant. |
| `SystemSteps.ExpireKeeps` | backend/internal/repository/openai_totp_repo.go:32-41 | Expiring an abandoned claim keeps the invariant. |
| `SystemSteps.QueueKeeps` | backend/internal/service/openai_totp.go:283-315 | Queueing a rotation keeps the invariant, including one open task per account. |
| `SystemService.RecoveryIsStored` | backend/internal/service/openai_totp.go:708-740 | In every run, whenever a replayed secret arrives: it is stored if and only if the task is uncertain, or in doubt with a lapsed claim, has no candidate and the server takes the secret; what is stored is the journalled candidate, with the old secret kept beside it. |
| `SystemService.AbandonedIsStored` | backend/internal/service/openai_totp.go:708-740 | In particular for a rotation whose worker left between the enrolment and the storing of its candidate. |
| `SystemService.PhaseDelivery` | backend/internal/service/openai_totp.go:565-619 | A phase post that arrives takes effect if and only if the transaction commits, and then as that transaction and nothing else. |
| `SystemService.ReportDelivery` | backend/internal/service/openai_totp.go:620-691 | A report likewise; a success makes the task's secret the account's credential, a failure leaves the credentials alone. |
| `SystemService.RecoveryDelivery` | backend/internal/service/openai_totp.go:708-740 | A recovered secret likewise. |
| `SystemService.ClaimDelivery` | backend/internal/service/openai_totp.go:518-561 | A claim likewise; the worker is handed the task's secret, candidate and action and a token never used before. |
| `SystemService.ExpiryStep` | backend/internal/repository/openai_totp_repo.go:32-41 | Looking at a task expires its lapsed claim. |
| `SystemService.ReconcileStep` | backend/internal/service/openai_totp.go:369-409 | An administrator's decision about an uncertain task is the transaction. |
| `SystemService.QueueingStep` | backend/internal/service/openai_totp.go:283-315 | A rotation is queued if and only if the account has a credential and no open task; it starts with that credential. |
| `SystemService.LoginDelivery` | tools/openai_totp_rotation.py:201-212 | A login is answered with success if and only if its secret has the canonical text of the one the account accepts. |
| `SystemService.ActivationDelivery` | tools/openai_totp_rotation.py:241-246 | From an activation on its account, and no other, accepts the new secret. |
| `SystemMoves.RequestsAreSent` | tools/openai_totp_rotation.py:217-258 | The worker can send exactly the request of its current effect, or have a guard stop it unless it reports a failure; nothing else changes but what is on its way. |
| `SystemMoves.RepliesAreTaken` | tools/openai_totp_rotation.py:217-258 | A run goes on with the reply to its request, or with a failure at any time before. |
| `SystemMoves.GuardsDecide` | tools/openai_totp_rotation.py:201-221 | Guards and the wait of a run can turn out either way. |
| `SystemMoves.JournalIsAsked` | tools/openai_totp_rotation.py:98-106 | A save or acknowledgement of a run fails without effect, fails after it, or is carried out, and what is written is the claim with the enrolled candidate and session. |
| `SystemMoves.PassOverTheJournal` | tools/openai_totp_rotation.py:108-116 | An idle worker lists what is pending, and asks for a task once the list is done. |
| `SystemMoves.RecordsAreReplayed` | tools/openai_totp_rotation.py:108-116 | Each listed record whose candidate is text can be replayed as recorded. |
| `SystemMoves.OthersAreSkipped` | tools/openai_totp_rotation.py:108-116 | The other records are passed over. |
| `SystemMoves.ReplayIsConfirmed` | tools/openai_totp_rotation.py:108-116 | A record is acknowledged only after the reply to its replay; without one the pass goes on. |
| `SystemMoves.ClaimsAreTaken` | tools/openai_totp_worker.py:287-306 | A claim that was handed out starts a run from its beginning. |
| `SystemMoves.CrashesAndLosses` | tools/openai_totp_worker.py:287-306 | A crash loses what the worker knew and nothing else. |
| `TaskService.CandidateKept` | backend/internal/service/openai_totp.go:485-740 | A transaction keeps a stored candidate unless it commits a successful report; the task's fields stay consistent. |
| `TaskService.CandidateKeptThroughout` | backend/internal/service/openai_totp.go:485-740 | The same over every history of transactions on a task. |
| `TaskService.RevokedTokenStaysRevoked` | backend/internal/service/openai_totp.go:482-484 | A claim token that is not current is refused by every later heartbeat, phase and finish, unless it is issued again. |
| `TaskService.RotationClaimedOnce` | backend/internal/service/openai_totp.go:518-561 | In no history is a task handed out for rotation twice. |
| `TaskService.HistoryWellformed` | backend/internal/service/openai_totp.go:485-740 | State, action, candidate and token stay consistent over every history. |
| `TaskTransactions.RecoverExactly` | backend/internal/service/openai_totp.go:708-740 | A recovered secret is stored if and only if the task is an uncertain rotation without a candidate and the server takes a secret other than the current one; candidate and previous secret are set and nothing else changes. |
| `TaskTransactions.AbandonedIsRecoverable` | backend/internal/service/openai_totp.go:708-740 | A rotation abandoned after its enrolment and before its candidate was stored can be recovered with the enrolled key. |
| `TaskTransactions.RecoverySucceeds` | backend/internal/service/openai_totp.go:369-740 | Recovered, verified with the new key and reported in time, it ends with that key. |
| `TaskTransactions.RotationSucceeds` | backend/internal/service/openai_totp.go:518-691 | A rotation whose worker posts what it should in time ends with the new key. |
| `TaskTransactions.ClaimExactly` | backend/internal/service/openai_totp.go:518-561 | A task is handed out if and only if it is queued; all that changes. |
| `TaskTransactions.PhaseExactly` | backend/internal/service/openai_totp.go:565-619 | A phase post commits if and only if the claim is active and the phase is next in the table of the action, with a usable new key where one is stored; the whole new task. |
| `TaskTransactions.SuccessExactly` | backend/internal/service/openai_totp.go:620-691 | A success commits if and only if the claim is active, the task is verifying and there is a candidate unless it goes back; the whole new task. |
| `TaskTransactions.LoginSuccessExactly` | backend/internal/service/openai_totp.go:620-691 | The same for a login task, whose session must validate. |
| `TaskTransactions.FailureExactly` | backend/internal/service/openai_totp.go:620-699 | A failure commits if and only if the claim is active; a task in doubt becomes uncertain and keeps its secrets, any other fails and loses them. |
| `TaskTransactions.ReconcileExactly` | backend/internal/service/openai_totp.go:369-409 | An uncertain rotation can go back always, and forward if and only if it has a candidate. |
| `TaskTransactions.HeartbeatExactly` | backend/internal/service/openai_totp.go:495-517 | A heartbeat commits if and only if the claim is active and the worker is the same, and renews the lease for 120 seconds. |
| `TaskTransactions.ExpireExactly` | backend/internal/repository/openai_totp_repo.go:32-41 | A claim expires if and only if its lease or its absolute limit of 900 seconds is over; the whole new task. |
| `TaskTransactions.FailQueuedExactly` | backend/internal/service/openai_totp.go:524-531 | A queued task that cannot be worked on becomes uncertain or failed. |
| `RecoveryJournal.NothingRecordedIsLost` | tools/openai_totp_journal.mjs:68-84 | No sequence of requests, whichever fail, loses a recorded candidate, session, account, email, password, old secret or acknowledgement. |
| `RecoveryJournal.AcknowledgeMarks` | tools/openai_totp_journal.mjs:99-101 | Acknowledging sets the mark and nothing else, removes exactly that task from the pending list, and is refused if and only if the task is unknown or a recorded field is an array or object. |
| `RecoveryJournal.WriteExactly` | tools/openai_totp_journal.mjs:68-84 | A write is refused if and only if the task number is unsafe or a recorded true field differs or is an array or object; otherwise the record is stored as written, and a mark stays. |
| `RecoveryJournal.SavesOfARotation` | tools/openai_totp_journal.mjs:68-101 | Both saves of a rotation are carried out, the record is pending from the second on, no other candidate replaces it, and the acknowledgement takes it off the list. |
| `JournalClient.Journal.Recover` | tools/openai_totp_rotation.py:108-116 | A pass posts each pending candidate at most once and only pending ones; a record changes only by its mark, and only after its candidate was posted and accepted; an aborted pass drops nothing; a completed pass has posted every replayable candidate. |
| `JournalClient.Journal.PostAndConfirm` | tools/openai_totp_rotation.py:111-116 | One replay posts the recorded candidate, and marks the record only if the server accepted it. |
| `JournalClient.Journal.Save` | tools/openai_totp_rotation.py:98-103 | A save leaves the store as it was or as the journal program's write; if it returns, as the write. |
| `JournalClient.Journal.Confirm` | tools/openai_totp_rotation.py:105-106 | The same for an acknowledgement. |
| `JournalClient.Journal.ListPending` | tools/openai_totp_journal.mjs:85-91 | The list has every pending task once. |
| `Rotation.RunFollowsScript` | tools/openai_totp_rotation.py:217-258 | Every run, however its effects turn out, is a prefix of the rotation protocol, then at most one effect that went wrong, then at most one failure report with the matching stage. |
| `Rotation.GoodRunSucceeds` | tools/openai_totp_rotation.py:217-250 | A run whose claim and enrolment pass the checks and whose effects all turn out well performs the whole protocol and reports success. |
| `Rotation.EventInOrder` | tools/openai_totp_rotation.py:217-258 | Each event is the protocol's effect of that number with everything before it successful, or the final failure report. |
| `Rotation.AtMostOneMutation` | tools/openai_totp_rotation.py:227-246 | No run enrolls or activates twice, and only a rotation does either. |
| `Rotation.ActivationIsPrepared` | tools/openai_totp_rotation.py:227-246 | An activation's candidate and session were enrolled in this run, saved, posted as prepared, acknowledged and cleared for activation, successfully and in this order, and passed the checks on a candidate. |
| `Rotation.SuccessIsVerified` | tools/openai_totp_rotation.py:201-212 | Success is reported only after the secret to be accepted logged in and the other one, if any, was explicitly refused after a wait for the next window; `Lease.RefusedLoginIsLater` has the times. |
| `Rotation.ReportsOfARun` | tools/openai_totp_rotation.py:250-258 | A run's reports are one success, one failure, or a success that raised followed directly by a failure. |
| `Rotation.EveryRunReports` | tools/openai_totp_rotation.py:250-258 | A run that is over ends with an accepted success or with a failure report. |
| `Rotation.StageIsTruthful` | tools/openai_totp_rotation.py:217-258 | The reported stage is true: nothing enrolled for `login_failed`, no activation for `enrollment_failed`, a confirmed activation for `verification_failed` in a rotation. |
| `Rotation.RunsEnd` | tools/openai_totp_rotation.py:217-258 | Every run is over after at most nineteen effects. |
| `Rotate.Run` | tools/openai_totp_rotation.py:217-258 | The function, statement by statement and with its guards, performs exactly the events of the described run except those a guard stopped, always reaches its end, and has a guard that let it go on directly in front of every login, phase post, enrolment, activation and success report. |
| `Rotate.Attempt` | tools/openai_totp_rotation.py:220-250 | The protected statements end done or in failure with the stage of the described run. |
| `Rotate.Switch` | tools/openai_totp_rotation.py:240-247 | From the post before the activation to the post after it: a guard, the request and its outcome each, with the stage the run then has. |
| `Rotate.Prepare` | tools/openai_totp_rotation.py:222-239 | From the first save to the acknowledgement, the guards and events of the run, and the candidate, session and stage it then has. |
| `Rotate.VerifyPair` | tools/openai_totp_rotation.py:201-212 | The two logins, the wait between them and the success report, each with its guard. |
| `Claims.ValidatedClaimIsUsable` | tools/openai_totp_worker.py:182-211 | An accepted rotation claim has a known action, a secret, a task number, and a candidate where one is needed. |
| `Claims.AcceptedClaims` | tools/openai_totp_worker.py:182-211 | A claim is accepted, as it is, if and only if each of its fields has the listed shape. |
| `Claims.ClaimIsRead` | tools/openai_totp_rotation.py:217-219 | What `rotate` reads out of an accepted claim, field by field. |
| `Claims.AcceptedNeverEmpty` | tools/openai_totp_rotation.py:201-206 | For a validated claim the check for an empty accepted secret never fires. |
| `Claims.SuccessOfValidatedClaim` | tools/openai_totp_worker.py:182-211 | For a validated claim success means that the new secret logged in and the old one was refused (`rotate`, `verify_new`), or that the old one logged in and the candidate, if any, was refused (`verify_old`). |
| `Lease.SendsAreFenced` | tools/openai_totp_worker.py:220-224 | In every interleaving with heartbeat, shutdown, server and clock, the main thread's last step before it sends a login, a phase post, an enrolment, an activation or a success report is a guard of the running task that saw no cancel and a renewal at most 45 seconds old. |
| `Lease.GuardedEffects` | tools/openai_totp_rotation.py:217-258 | The program points at which a guarded request is sent are those whose effect has a guard in front of it. |
| `Lease.AtMostOneAfterCancel` | tools/openai_totp_worker.py:220-257 | After a cancel a task sends at most one more request, the one whose guard came before the cancel, and otherwise only its failure report. |
| `Lease.AtMostOneAfterShutdown` | tools/openai_totp_worker.py:308-312 | The same for the whole worker after a completed shutdown, however it raced with the publication of a task. |
| `Lease.SendsAreTheRuns` | tools/openai_totp_rotation.py:217-258 | At any point of an interleaving the running task is where a run of `rotate` with its outcomes is, and has sent exactly the requests of that run, in order. |
| `Lease.RefusedLoginIsLater` | tools/openai_totp_rotation.py:207-211 | The login that has to be refused is sent in a later 30-second step than the one in which the accepted login had ended. |
| `Lease.GuardImpliesLease` | tools/openai_totp_worker.py:220-224 | When a guard passes, the flag is down, the renewal is at most 45 seconds old, and the server's lease still runs or the claim's absolute limit is past. |
| `Lease.StepIsLocal` | tools/openai_totp_worker.py:267-278 | Flags are never lowered, and a heartbeat renews or cancels only the task it captured; `LeaseEffects` says that it does. |
| `LeaseEffects.FailedHeartbeatCancels` | tools/openai_totp_worker.py:267-278 | A heartbeat that failed can always cancel the task it was for, and does, whatever was published since. |
| `LeaseEffects.NothingAfterFailedHeartbeat` | tools/openai_totp_worker.py:267-278 | In every run that task then passes no guard and sends at most the one request whose guard came before. |
| `LeaseEffects.FailedPostCancels` | tools/openai_totp_worker.py:226-235 | A phase post that raised cancels the running task, and one that did not leaves its flag alone. |
| `LeaseEffects.NothingAfterFailedPost` | tools/openai_totp_worker.py:226-235 | In every run that task then passes no guard and sends no guarded request. |
| `LeaseEffects.GuardDecides` | tools/openai_totp_worker.py:220-224 | At a guard a task goes on if and only if its flag is down and its renewal at most 45 seconds old, and otherwise it cannot. |
| `LeaseEffects.RefusalCancels` | tools/openai_totp_worker.py:220-224 | A guard that refuses raises the flag, and only the failure report is left. |
| `LeaseEffects.WaitIsInterrupted` | tools/openai_totp_worker.py:254-257 | A cancelled task does not wait for the next window. |
| `LeaseEffects.PassedRequestsAreSent` | tools/openai_totp_worker.py:220-235 | After a guard that lets the run go on, its request can be sent, and is logged. |
| `LeaseEffects.OutcomesMoveOn` | tools/openai_totp_rotation.py:217-258 | Any reply can come at any time, and replies, guards and journal calls move the run on by their outcomes. |
| `LeaseEffects.WaitBegins` | tools/openai_totp_rotation.py:207-211 | The wait ends one second into the next 30-second step of the wall clock. |
| `LeaseEffects.ClaimsBecomeTasks` | tools/openai_totp_worker.py:287-306 | A claim becomes a task object that is neither cancelled nor due, is published, and is withdrawn when its run is over. |
| `LeaseEffects.LateTaskIsCancelled` | tools/openai_totp_worker.py:293-298 | A task published after the stop flag was set starts cancelled, any other does not. |
| `LeaseEffects.ShutdownCancels` | tools/openai_totp_worker.py:308-312 | Shutdown sets the flag and then cancels the published task. |
| `LeaseEffects.HeartbeatRenews` | tools/openai_totp_worker.py:267-278 | A heartbeat captures the published task, is renewed if and only if the server honours the claim, and notes the time for that task alone. |
| `Lease.CancelIsSticky` | tools/openai_totp_worker.py:220-257 | After a cancel no guard of that task passes again. |
| `Lease.NothingRunsAfterShutdown` | tools/openai_totp_worker.py:287-312 | Once a shutdown has completed, no task runs uncancelled and no guard passes, however it raced with the publication of a task. |
| `Lease.ReachableOk` | tools/openai_totp_worker.py:214-312 | The lease invariant holds in every reachable state. |
| `WorkerObjects.Worker.Guard` | tools/openai_totp_worker.py:220-224 | The guard is a step of a run of `Lease`; when it lets the task go on, no shutdown has completed, and the server still honours the claim or the claim's absolute limit is past. |
| `WorkerObjects.Worker.PostReturned` | tools/openai_totp_worker.py:226-235 | The end of a phase post is the reply step of the run, after which, if it went wrong, the theorems about cancelled tasks apply. |
| `WorkerObjects.Worker.TestStop` | tools/openai_totp_worker.py:293-298 | Publication and the test of the stop flag are separate steps of the run, so a shutdown between them is one of the interleavings proved safe. |
| `WorkerObjects.Worker.NoteRenewal` | tools/openai_totp_worker.py:267-278 | Noting a renewal is a step of the run for the captured task, whichever task is published by then. |
| `WorkerObjects.Worker.RevokeCaptured` | tools/openai_totp_worker.py:267-278 | The end of a failed heartbeat is the cancelling step of the run, and the captured task is cancelled. |
| `WorkerObjects.Worker.CancelActive` | tools/openai_totp_worker.py:308-312 | The second half of a shutdown is a step of the run after which it counts as completed. |
| `WorkerObjects.GuardedRun` | tools/openai_totp_rotation.py:53-76 | On all four ways out, a raising `communicate` included, the log of what was done ends with one kill and then one reap, after everything else; the lease is called lost only if the last guard refused or the last flag read was up, the timeout only at the deadline, and nothing that would have ended the loop came earlier. |
| `WorkerObjects.Supervise` | tools/openai_totp_rotation.py:53-76 | The loop ends, never waits past the deadline or longer than a quarter second, and waits a bounded number of times. |
| `Totp.CodeIsSixDigits` | tools/openai_totp_rotation.py:28-39 | Every code is six digits denoting the truncated word modulo a million. |
| `Totp.TruncationByBytes` | tools/openai_totp_rotation.py:35-37 | With the place the low four bits of the last byte name, the slice is inside the digest, and the masked word is the byte-wise formula of section 5.4 of RFC 4226. |
| `Totp.ExampleDigest` | tools/openai_totp_rotation.py:35-37 | The example of section 5.4 of RFC 4226. |
| `Totp.CodeExists` | tools/openai_totp_rotation.py:28-39 | There is a code if and only if the secret is text whose canonical form is base32 of 16 to 128 characters with a possible last group, and the time is not before the epoch and its counter fits eight bytes. |
| `Totp.CounterBytes` | tools/openai_totp_rotation.py:34-35 | The eight counter bytes determine the counter. |
| `Totp.BigEndianRoundTrip` | tools/openai_totp_rotation.py:35-37 | Encoding a number that fits in big-endian bytes and reading it back gives the number. |
| `Totp.DecimalDenotes` | tools/openai_totp_rotation.py:37-37 | The zero-padded decimal text has the requested width and denotes the number. |
| `Totp.PadCompletesGroups` | tools/openai_totp_rotation.py:33-33 | Padding completes groups of eight, and is one of the amounts of section 6 of RFC 4648 exactly for the lengths the decoder takes. |
| `Totp.NextWindow` | tools/openai_totp_rotation.py:207-211 | Waiting from any time lands one second into the very next 30-second step, so the second login starts in a later step than the first one ended in. |
| `Totp.StoredSecretSameCodes` | backend/internal/service/openai_totp.go:138-147 | The text the server stores gives the worker the same code at every time as the text it was sent. |
| `Secrets.SameSecret` | backend/internal/service/openai_totp.go:138-147 | The server's form of a secret and the secret have the same canonical text for the worker. |
| `Secrets.CanonicalIdempotent` | tools/openai_totp_rotation.py:30-30 | Normalising a normalised secret changes nothing. |
| `Secrets.CanonicalShape` | tools/openai_totp_rotation.py:30-30 | Canonical text has no white space, no small letters and no padding at its end. |
| `Secrets.CaseIsIgnored` | tools/openai_totp_rotation.py:30-30 | Case matters to neither program. |
| `Secrets.SpaceIsIgnored` | tools/openai_totp_rotation.py:30-30 | White space anywhere does not matter to the worker. |
| `Secrets.PaddingIsIgnored` | tools/openai_totp_rotation.py:30-30 | Padding at the end does not matter to it. |
| `Secrets.AcceptedExactly` | tools/openai_totp_rotation.py:30-33 | The worker accepts exactly canonical base32 of 16 to 128 characters whose last group is possible. |
| `Secrets.OuterSpaceIsIgnored` | backend/internal/service/openai_totp.go:138-147 | White space around the text does not matter to the server. |
| `Secrets.BlankIsIgnored` | backend/internal/service/openai_totp.go:138-147 | Nor does a blank inside. |
| `Secrets.LineBreakIsKept` | backend/internal/service/openai_totp.go:138-147 | A line break inside is skipped by its decoder and kept in what it stores. |
| `Secrets.StoredTextIsCanonical` | backend/internal/service/openai_totp.go:138-147 | The stored text is the worker's canonical text if and only if it kept no line break. |
| `Secrets.AcceptanceGap` | backend/internal/service/openai_totp.go:138-147 | For every text: of what the worker accepts, the server refuses exactly the secrets of 104 characters or more and those in which a character outside base32 is left for its decoder; of what the server stores, the worker refuses exactly those with an incomplete last group. |
| `Secrets.TabIsRefused` | backend/internal/service/openai_totp.go:138-147 | Base32 text with a tab inside is accepted by the worker and refused by the server, whatever the two parts are. |
| `Secrets.LongIsRefused` | backend/internal/service/openai_totp.go:138-147 | Base32 text of 104 to 128 characters in whole groups is accepted by the worker and refused by the server. |
| `Secrets.IncompleteIsStored` | backend/internal/service/openai_totp.go:138-147 | Base32 text of 16 to 103 characters with an incomplete last group is stored by the server and refused by the worker. |
| `Secrets.DigitsAreCanonical` | backend/internal/service/openai_totp.go:138-147 | When only base32 characters are left for the server's decoder, they are the worker's canonical text. |
| `AccountQuery.LoadGroups` | backend/ent/account_query.go:627-687 | Each account's groups are the joined ones in the order the groups were first mentioned, each group object is new and built once, the members are walked in any order, and the unexpected-node error is unreachable; a failed query leaves the lists empty. |
| `AccountQuery.ScanRows` | backend/ent/account_query.go:658-670 | One object per group in order of first mention, and for each group exactly the accounts a row joins to it. |
| `AccountQuery.AssignToAll` | backend/ent/account_query.go:682-684 | Every member of a set gets the group appended once and nobody else does, whatever the order of the walk. |
| `AccountQuery.PickIsTheJoin` | backend/ent/account_query.go:627-687 | An account's list holds exactly the groups some row joins to it, each once. |
| `AccountQuery.PickKeepsOrder` | backend/ent/account_query.go:677-685 | What comes earlier in an account's list was found earlier. |
| `AccountQuery.FirstSeenOnce` | backend/ent/account_query.go:661-668 | Every group the rows mention is listed once, and no other. |
| `AccountQuery.FirstSeenInOrder` | backend/ent/account_query.go:661-668 | The groups are listed in the order of their first rows. |
| `AccountQuery.LoadProxy` | backend/ent/account_query.go:688-719 | No query without keys; there is no error if and only if no account has a key or the query answered with neighbours that were asked for alone; each account gets the last neighbour with its key before the first unexpected one; on a failed query nothing changes. |
| `AccountQuery.ProxyAnswers` | backend/ent/account_query.go:709-713 | The error names the first neighbour that was not asked for. |
| `AccountQuery.GroupByKey` | backend/ent/account_query.go:688-701 | The map groups exactly the accounts with each key, and the list has each key once. |
| `AccountQuery.AskedOnce` | backend/ent/account_query.go:688-701 | The query asks for no key twice, for every key of an account, and for nothing else. |
| `AccountQuery.ExpectedAll` | backend/ent/account_query.go:709-713 | The unexpected-key error is unreachable if and only if the answer honours the query's filter. |
| `AccountQuery.LastWithIsTheJoin` | backend/ent/account_query.go:709-717 | With distinct neighbours a non-null key gets the neighbour with that identifier if there is one, and otherwise the account keeps what it had. |
| `AccountQuery.LoadChildren` | backend/ent/account_query.go:752-784 | The lists are cleared; there is no error if and only if the query answered and every neighbour names one of the accounts; each account's children are the neighbours naming it in query order, up to the first without a place. |
| `AccountQuery.PlacedAnswers` | backend/ent/account_query.go:772-783 | The error says what is wrong with the first neighbour without a place. |
| `AccountQuery.ChildrenAreTheJoin` | backend/ent/account_query.go:772-783 | A list holds exactly the neighbours that name its owner. |
| `AccountQuery.ChildrenKeepOrder` | backend/ent/account_query.go:772-783 | What comes earlier in a list came earlier in the answer of the query. |
| `AccountQuery.ChildrenArePartitioned` | backend/ent/account_query.go:772-783 | The lists together are the neighbours as a multiset: none is lost, none is in two lists. |
| `AccountQuery.ChildrenAreCounted` | backend/ent/account_query.go:772-783 | The lengths of the lists add up to the number of neighbours. |
| `AccountQuery.PlacedAll` | backend/ent/account_query.go:772-783 | Both errors are unreachable if and only if the answer honours the query's filter. |
| `AccountCreate.AccountCreateBulk.Save` | backend/ent/account_create.go:2142-2199 | One batch with every builder's fields in order is sent if and only if there is a builder and all are ready, and never more; the call succeeds if and only if there is no builder, or no hook decides, all checks pass and the batch is accepted, or the first thing that decides is a hook that grants success; batch errors and the first misfit come through exactly when nothing swallows or precedes them; every field sent has the value of the last hook that sets it, or the given one, or the schema's default; which nodes are filled, with which identifier, and which mutations are done, in every case. |
| `AccountCreate.AccountCreateBulk.Mutate` | backend/ent/account_create.go:2187-2190 | The same for the chain from one builder and one of its hooks on, with the builder an error is about. |
| `AccountCreate.AccountCreateBulk.SuccessWithoutBatch` | backend/ent/account_create.go:2142-2199 | Success is reported without a batch if and only if the hooks of some builder grant it and there or further on a hook or a check keeps the mutation back. |
| `AccountCreate.AccountCreateBulk.SkipSucceeds` | backend/ent/account_create.go:2187-2190 | With one builder and a hook that skips the rest, the insert succeeds and nothing is ready to be sent, whatever the fields are, complete ones included. |
| `AccountCreate.AccountCreateBulk.SwallowSucceeds` | backend/ent/account_create.go:2187-2190 | The same with a hook that swallows the error of a failing check. |
| `AccountCreate.SkippedInsert` | backend/ent/account_create.go:2142-2199 | Such an insert with any fields and a skipping hook, from the builder to the answer: success, and no batch. |
| `AccountCreate.SwallowedInsert` | backend/ent/account_create.go:2142-2199 | The same for a builder that lacks something and a swallowing hook. |
| `AccountCreate.AccountCreateBulk.OrdinaryHooks` | backend/ent/account_create.go:2142-2199 | Without hooks that answer success of their own, the chain succeeds if and only if the batch is sent and accepted and no hook refuses afterwards. |
| `AccountCreate.AccountCreateBulk.ChainNext` | backend/ent/account_create.go:2171-2174 | The statement about the whole chain, one builder at a time. |
| `AccountCreate.AccountCreateBulk.Create` | backend/ent/account_create.go:2154-2186 | The same for the innermost mutator. |
| `AccountCreate.AccountCreateBulk.TakeId` | backend/ent/account_create.go:2179-2185 | The node takes the reported identifier, or keeps zero if none was reported, and the mutation refers to the node's. |
| `AccountCreate.Defaults` | backend/ent/account_create.go:534-599 | Given values are kept; every other field that is set is one of the defaults, with the value its generator yields or its constant; without an error every default is set, and an error names one that is still missing. |
| `AccountCreate.SentRightfully` | backend/ent/account_create.go:2153-2190 | Every field after defaults and hooks has the value of the last hook that sets it, or else the given one, or else the schema's default. |
| `AccountCreate.HooksSet` | backend/ent/account_create.go:2187-2190 | The last hook that sets a field decides its value. |
| `AccountCreate.Check` | backend/ent/account_create.go:602-679 | There is no error if and only if every required field is present and every validated value is valid; an error names a field at fault. |
| `AccountCreate.ChecksInOrder` | backend/ent/account_create.go:602-679 | It reports the first field at fault. |
| `AccountCreate.CheckedExactly` | backend/ent/account_create.go:602-679 | It asks for every field but one and validates six of them. |
| `AccountCreate.PassThrough` | backend/ent/account_create.go:2187-2190 | Pass-through hooks change no field and no answer. |
| `AccountCreate.IgnoredErrorPasses` | backend/ent/account_create.go:2153-2164 | After an ignored error of `defaults()` at field number k of its order a builder is ready if and only if no hook keeps the mutation back, every required field was given, is among the first k defaults or is set by a hook, and all validated values are valid after the hooks. |
| `AccountCreate.OneFieldIsNotEnough` | backend/ent/account_create.go:2153-2164 | A hook that supplies the missing field does not help when a later default was neither given nor set by a hook. |
| `AccountCreate.HooksSupply` | backend/ent/account_create.go:2187-2190 | After the hooks a field is there if and only if it was before or some hook sets it. |
| `AccountCreate.DefaultsStop` | backend/ent/account_create.go:534-599 | `defaults()` stops at the first field that was not given and whose generator is missing; exactly the given fields and those before it are then set. |
| `AccountCreate.DefaultsFail` | backend/ent/account_create.go:534-599 | It answers an error if and only if there is such a field. |
| `AccountCreate.IgnoredErrorCanPass` | backend/ent/account_create.go:2153-2164 | A builder that is ready after such an error, because a hook supplies the field. |
| `AccountCreate.WhatTheCallerSupplies` | backend/ent/account_create.go:534-679 | After complete defaults a builder passes its check if and only if name, platform and type were given and all validated values are valid. |
| `AuditGate.RunGate` | tools/check_pnpm_audit_exceptions.py:207-317 | The exit code is 0 if and only if the report could be read and is a good one, every exception is complete and no two are for the same package and advisory, and every high or critical finding with a package name is excused by an exception with its texts, an unexpired date and, for the first finding of its kind, its severity or none. |
| `AuditGate.PassesIsThePromise` | tools/check_pnpm_audit_exceptions.py:207-317 | The statement by rules and faults is equivalent to the one by the texts of report and exceptions. |
| `AuditAgreement.GoodReportsAreFine` | tools/check_pnpm_audit_exceptions.py:142-204 | A report has no fault if and only if it has the shape, the severities, the evidence and the backed counts that are asked for, entry by entry. |
| `AuditGate.BuildIndex` | tools/check_pnpm_audit_exceptions.py:225-260 | The index holds the first well-formed exception of each key, and exactly the ill-formed and duplicate ones are reported, each for its reason. |
| `AuditGate.CheckFindings` | tools/check_pnpm_audit_exceptions.py:261-293 | Exactly the findings without an identifier, and the first findings of a key whose exception is missing, expired or of another severity, are reported, each for its reason. |
| `AuditGate.NoFindingProblem` | tools/check_pnpm_audit_exceptions.py:265-293 | Nothing is reported if and only if every relevant finding is covered: skipping keys already seen hides no missing and no expired exception. |
| `AuditGate.NoExceptionProblem` | tools/check_pnpm_audit_exceptions.py:230-260 | Nothing is reported if and only if all exceptions are well formed and no two share a key. |
| `AuditGate.RuleOf` | tools/check_pnpm_audit_exceptions.py:231-259 | An exception yields a rule if and only if it is complete, its date parses and neither part of its key is empty; the rule has its key, date and severity. |
| `AuditGate.RuleIsTheException` | tools/check_pnpm_audit_exceptions.py:231-259 | The same with every text spelled out. |
| `AuditValidate.ValidateAuditReport` | tools/check_pnpm_audit_exceptions.py:142-204 | Every error reported is a fault of the report, and there is no error if and only if the report has no fault of any kind. |
| `AuditValidate.CheckSection` | tools/check_pnpm_audit_exceptions.py:155-177 | Exactly the faults of a section's entries are reported. |
| `AuditValidate.CheckEvidence` | tools/check_pnpm_audit_exceptions.py:191-201 | Exactly the high vulnerabilities without evidence and the counts without details are reported. |
| `AuditReport.IterVulns` | tools/check_pnpm_audit_exceptions.py:64-111 | The two loops list the findings of both formats in order, or raise what the first bad entry raises. |
| `AuditReport.FindingsOfVulnerabilities` | tools/check_pnpm_audit_exceptions.py:84-111 | Every finding comes from one entry with its name and severity, and every identifier of an entry's evidence is found. |
| `AuditReport.VulnerabilitiesInOrder` | tools/check_pnpm_audit_exceptions.py:84-111 | There is one finding for each piece of evidence with an identifier, in the order of the entries and of their evidence. |
| `AuditReport.EvidencePicksFirstTrue` | tools/check_pnpm_audit_exceptions.py:91-97 | The identifier of a piece of evidence is the first true one of five, or the text itself. |
| `AuditReport.VulnerabilitiesRaise` | tools/check_pnpm_audit_exceptions.py:84-109 | Listing raises if and only if an entry is no object or a title is true and no text. |
| `AuditReport.TitlePicksFirstTrue` | tools/check_pnpm_audit_exceptions.py:98-103 | The title of a piece of evidence is the first true one of four, or the text itself. |
| `AuditReport.AdvisoriesFirst` | tools/check_pnpm_audit_exceptions.py:64-111 | The findings of the advisories come first. |
| `AuditReport.FindingsOfAdvisories` | tools/check_pnpm_audit_exceptions.py:66-82 | There is one finding per advisory, in order, with its severity, its package name and its first true identifier. |
| `AuditReport.PicksFirstTrue` | tools/check_pnpm_audit_exceptions.py:51-61 | The identifier is the first true one of the seven, and a `cves` field can raise only if neither of the two before it is there. |
| `AuditReport.AdvisoriesRaise` | tools/check_pnpm_audit_exceptions.py:51-82 | Listing the advisories raises if and only if an entry is no object, or lacks the first two identifiers and has a true `cves` field that is neither list nor text. |
| `AuditReport.FirstOfTheCves` | tools/check_pnpm_audit_exceptions.py:56-56 | Of several CVEs the first is taken. |
| `AuditTheorems.HighAdvisoryIsMatched` | tools/check_pnpm_audit_exceptions.py:267-293 | In a report that passes, every high or critical advisory is covered by an exception. |
| `AuditTheorems.HighVulnerabilityIsMatched` | tools/check_pnpm_audit_exceptions.py:191-195 | In a report that passes, a high or critical vulnerability is covered through a finding of its own if and only if it has a name and some evidence with an identifier. |
| `AuditTheorems.CountIsMatched` | tools/check_pnpm_audit_exceptions.py:196-201 | A count of high or critical findings in a report that passes stands for a covered finding of that severity if some finding of it has a name, and always if no vulnerability's name is empty. |
| `AuditTheorems.FindingsHaveSeverities` | tools/check_pnpm_audit_exceptions.py:163-166 | Every finding of a report without faults has a severity from the known list. |
| `AuditTheorems.NamelessPasses` | tools/check_pnpm_audit_exceptions.py:267-270 | A report with a high vulnerability under an empty name passes with no exceptions. |
| `AuditTheorems.BorrowedEvidencePasses` | tools/check_pnpm_audit_exceptions.py:191-195 | A report with a high vulnerability without identifiers passes when a low advisory names the same package. |
| `AuditTheorems.LaterSeverityIsIgnored` | tools/check_pnpm_audit_exceptions.py:277-288 | Changing the severity of a finding whose key was met before, to another high one, never changes that all findings are covered. |
| `TokenScanner.TokenPieces` | tools/check_docs_consistency.py:263-275 | The pieces are the texts of the runs of whole words of at least the minimum length, each run once and in order; a run is stated by its two places in the token. |
| `TokenScanner.SplitPlaces` | tools/check_docs_consistency.py:266-267 | Words and separators stand where they stood in the token, and no word holds a separator. |
| `TokenScanner.TokenRuleHits` | tools/check_docs_consistency.py:280-288 | There is one hit for each run of a token whose digest is listed, in order, and no other. |
| `TokenScanner.RuleHits` | tools/check_docs_consistency.py:278-297 | The same for a whole rule with the default length of four; for a pattern rule there is one hit for every match whose group's digest is listed, or for every match if none is, in order, and no other. |
| `TokenScanner.Pattern.NothingIsShown` | tools/check_docs_consistency.py:289-297 | With a digest list every hit of a pattern rule shows the first twelve characters of a digest of the list, and never the text it matched. |
| `TokenScanner.Pattern.EveryMatchIsShown` | tools/check_docs_consistency.py:289-297 | Without one, hit number k shows match number k. |

## Left out

- HTTP, curl, Node, cookies, proxies, file locking, environment, preflight and encryption: transport and storage, modelled as calls that may fail before or after they take effect.
- `run_login`, login tasks in `System`, `ImportLogin`, the credential `Save` and `Export`: no rotation protocol; `TaskService` has the login states.
- `totp_finish`'s mapping of error codes and the server's allow-list: one table lookup each.
- More than one worker and duplicated delivery of one request in `System`; `TaskService` covers any interleaving of transactions on a task.
- That a late activation really happens upstream: the upstream is free to honour or ignore one, and `SystemAgreement.ApiKnowsTheSecret` covers the case that it does.
- Absence of deadlock when the shutdown signal arrives while its own thread holds the lock.
- Account validity checks and proxies in the server's claim, phase and finish: folded into refusals and into a queued task being failed.
- `AccountQuery.LoadGroups`: rows name accounts of the query, as the join's filter says; query interceptors that change the answer are not modelled.
- `loadParent`, `loadUsageLogs` and `loadAccountGroups`: the loaders modelled with other types.
- Other entities of the ent layer, generated setters, upserts, scanning and SQL building; the conflict option of a batch is passed through untouched.
- `AccountCreate.AccountCreateBulk.Save`: builders are distinct objects that have not been saved before, each hook calls the next mutator at most once, passes on the mutation it was given and changes only its fields.
- `parse_exceptions` and the wording of the audit messages: exceptions arrive as maps of strings, problems name what they are about.
- Floating point numbers in audit reports: a fractional count is refused by the program like any other value that is not an integer.
- Link, pin, contract and memory checks of the docs checker, and the tokeniser's own pattern: tokens and matches are inputs.
