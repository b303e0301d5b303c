/** The API's record of one managed task and the transactions that change it. Each
    transaction first expires an abandoned claim, then applies one operation or is
    rolled back. Times are seconds. */
module TaskService {
  import opened Values
  import Secrets

  const LEASE: real := 120.0
  const RUN_LIMIT: real := 900.0

  datatype Operation = Login | TotpRotation
  datatype Action = LoginOnly | Rotate | VerifyNew | VerifyOld
  datatype State =
    | Queued | Running | Enrolling | Prepared | Activating | Verifying
    | Uncertain | Succeeded | Failed | Ready | Imported

  /** `token` is zero while no worker holds the task; `secret`, `candidate` and
      `previous` are the decrypted payload. */
  datatype Task = Task(account: int, operation: Operation, action: Action, state: State,
                       hasCandidate: bool, secret: string, candidate: string, previous: string,
                       token: nat, worker: nat, leaseUntil: real, startedAt: real)

  /** A task an administrator has just queued (`Rotate`, `StartLogin`). */
  function NewTask(account: int, operation: Operation, secret: string): Task {
    Task(account, operation, if operation == Login then LoginOnly else Rotate, Queued, false, secret, "", "", 0, 0, 0.0, 0.0)
  }

  predicate Claimed(s: State) {
    s in {Running, Enrolling, Prepared, Activating, Verifying}
  }

  predicate Resolved(s: State) {
    s == Succeeded || s == Failed
  }

  /** `openAITOTPFailureState`. */
  function FailureState(t: Task): State {
    if t.operation == TotpRotation && (t.action != Rotate || t.state in {Enrolling, Prepared, Activating, Verifying})
    then Uncertain else Failed
  }

  function Release(t: Task): Task {
    t.(token := 0, worker := 0, leaseUntil := 0.0)
  }

  function Wipe(t: Task): Task {
    t.(secret := "", candidate := "", previous := "")
  }

  /** The update every transaction starts with. */
  function Expire(t: Task, now: real): Task {
    if Claimed(t.state) && (t.leaseUntil <= now || t.startedAt + RUN_LIMIT <= now) then
      var next := Release(t.(state := FailureState(t)));
      if FailureState(t) == Failed then Wipe(next) else next
    else t
  }

  /** `validClaim`. */
  predicate ValidClaim(t: Task, token: nat, now: real) {
    token != 0 && t.token == token && now < t.leaseUntil && now < t.startedAt + RUN_LIMIT && Claimed(t.state)
  }

  /** Handing the task to a worker; `token` is the fresh claim token. */
  function Claim(t: Task, token: nat, worker: nat, now: real): Option<Task> {
    if t.state != Queued || token == 0 then None
    else Some(t.(state := Running, token := token, worker := worker, startedAt := now, leaseUntil := now + LEASE))
  }

  /** A queued task whose account, proxy or payload is no longer usable. */
  function FailQueued(t: Task): Option<Task> {
    if t.state != Queued then None
    else
      var next := t.(state := FailureState(t));
      Some(if next.state == Failed then Wipe(next).(hasCandidate := false) else next)
  }

  function Heartbeat(t: Task, token: nat, worker: nat, now: real): Option<Task> {
    if ValidClaim(t, token, now) && t.worker == worker then Some(t.(leaseUntil := now + LEASE)) else None
  }

  /** The state a phase post leads to; none when the post is out of order. */
  function NextState(t: Task, phase: PhaseName): Option<State> {
    if t.action != Rotate then
      if t.state == Running && phase == ToVerifyRecovery then Some(Verifying) else None
    else
      match (t.state, phase)
      case (Running, ToEnrolling) => Some(Enrolling)
      case (Enrolling, ToPrepared) => Some(Prepared)
      case (Prepared, ToActivating) => if t.hasCandidate then Some(Activating) else None
      case (Activating, ToVerifying) => Some(Verifying)
      case _ => None
  }

  function StoreCandidate(t: Task, secret: string): Option<Task> {
    var normal := Secrets.ServiceNormalize(secret);
    if normal.None? || normal.value == t.secret then None
    else Some(t.(candidate := normal.value, previous := t.secret, hasCandidate := true))
  }

  function Phase(t: Task, token: nat, phase: PhaseName, secret: string, now: real): Option<Task> {
    if !ValidClaim(t, token, now) || t.operation != TotpRotation || NextState(t, phase).None? then None
    else
      var held := if phase == ToPrepared then StoreCandidate(t, secret) else Some(t);
      if held.None? then None
      else Some(held.value.(state := NextState(t, phase).value, leaseUntil := now + LEASE))
  }

  /** The secret a successful finish makes current; none when it is refused. */
  function Outcome(t: Task): Option<string> {
    if t.state != Verifying then None
    else if t.action == VerifyOld then Some(t.secret)
    else if t.candidate == "" then None
    else Some(t.candidate)
  }

  /** `sessionOk` says that the session posted for a login task validates. */
  function Finish(t: Task, token: nat, success: bool, sessionOk: bool, now: real): Option<Task> {
    if !ValidClaim(t, token, now) then None
    else if !success then
      var next := Release(t.(state := FailureState(t)));
      Some(if next.state == Failed then Wipe(next) else next)
    else if t.operation == Login then
      if t.state == Running && sessionOk then Some(Release(t.(state := Ready))) else None
    else if Outcome(t).None? then None
    else Some(Release(t.(state := Succeeded, secret := Outcome(t).value, candidate := "", previous := "", hasCandidate := false)))
  }

  function Recover(t: Task, secret: string): Option<Task> {
    if t.operation != TotpRotation || t.state != Uncertain || t.hasCandidate then None
    else StoreCandidate(t, secret)
  }

  function Reconcile(t: Task, action: Action): Option<Task> {
    if action !in {VerifyNew, VerifyOld} || t.operation != TotpRotation || t.state != Uncertain
       || (action == VerifyNew && !t.hasCandidate)
    then None
    else Some(t.(action := action, state := Queued, token := 0, leaseUntil := 0.0, startedAt := 0.0))
  }

  // ----- whole histories of one task

  datatype Op =
    | DoClaim(token: nat, worker: nat)
    | DoFailQueued
    | DoHeartbeat(token: nat, worker: nat)
    | DoPhase(token: nat, phase: PhaseName, secret: string)
    | DoFinish(token: nat, success: bool, sessionOk: bool)
    | DoRecover(secret: string)
    | DoReconcile(action: Action)
    | DoNothing

  function Operate(t: Task, op: Op, now: real): Option<Task> {
    match op
    case DoClaim(token, worker) => Claim(t, token, worker, now)
    case DoFailQueued => FailQueued(t)
    case DoHeartbeat(token, worker) => Heartbeat(t, token, worker, now)
    case DoPhase(token, phase, secret) => Phase(t, token, phase, secret, now)
    case DoFinish(token, success, sessionOk) => Finish(t, token, success, sessionOk, now)
    case DoRecover(secret) => Recover(t, secret)
    case DoReconcile(action) => Reconcile(t, action)
    case DoNothing => Some(t)
  }

  /** One committed or rolled-back transaction. */
  function Transact(t: Task, op: Op, now: real): Task {
    var r := Operate(Expire(t, now), op, now);
    if r.Some? then r.value else t
  }

  predicate Commits(t: Task, op: Op, now: real) {
    Operate(Expire(t, now), op, now).Some?
  }

  function History(t: Task, ops: seq<(Op, real)>): Task {
    if ops == [] then t
    else Transact(History(t, ops[..|ops| - 1]), ops[|ops| - 1].0, ops[|ops| - 1].1)
  }

  /** What every task the service creates satisfies from then on. */
  predicate Wellformed(t: Task) {
    && (t.hasCandidate && !Resolved(t.state) ==> t.candidate != "" && t.previous == t.secret)
    && (!t.hasCandidate ==> t.candidate == "")
    && (t.operation == Login <==> t.action == LoginOnly)
    && (t.operation == Login ==> !t.hasCandidate && t.state in {Queued, Running, Ready, Failed, Imported})
    && (t.operation == TotpRotation ==> t.state !in {Ready, Imported})
    && (t.action != Rotate ==> t.state !in {Enrolling, Prepared, Activating})
    && (t.action == Rotate && t.state in {Queued, Running, Enrolling} ==> !t.hasCandidate)
    && (t.action == Rotate && t.state in {Prepared, Activating, Verifying} ==> t.hasCandidate)
    && (t.token != 0 <==> Claimed(t.state))
  }

  /** A stored candidate leaves a task in one way only: a verification that committed
      as successful. Expiry, failures, recovery and reconciliation all keep it. */
  lemma CandidateKept(t: Task, op: Op, now: real)
    requires Wellformed(t)
    ensures Wellformed(Transact(t, op, now))
    ensures t.hasCandidate && !(op.DoFinish? && op.success && Commits(t, op, now))
            ==> Transact(t, op, now).hasCandidate && Transact(t, op, now).candidate == t.candidate
  {
    if op.DoPhase? {
      AcceptedCandidateNotEmpty(op.secret);
      PhaseKeepsCandidate(t, op, now);
    } else if op.DoRecover? {
      AcceptedCandidateNotEmpty(op.secret);
    } else if op.DoFinish? {
      FinishKeepsCandidate(t, op, now);
    }
  }

  lemma PhaseKeepsCandidate(t: Task, op: Op, now: real)
    requires Wellformed(t) && op.DoPhase?
    requires Secrets.ServiceNormalize(op.secret).Some? ==> Secrets.ServiceNormalize(op.secret).value != ""
    ensures Wellformed(Transact(t, op, now))
    ensures t.hasCandidate ==> Transact(t, op, now).hasCandidate && Transact(t, op, now).candidate == t.candidate
  {
  }

  lemma FinishKeepsCandidate(t: Task, op: Op, now: real)
    requires Wellformed(t) && op.DoFinish?
    ensures Wellformed(Transact(t, op, now))
    ensures t.hasCandidate && !(op.success && Commits(t, op, now))
            ==> Transact(t, op, now).hasCandidate && Transact(t, op, now).candidate == t.candidate
  {
  }

  lemma AcceptedCandidateNotEmpty(secret: string)
    ensures Secrets.ServiceNormalize(secret).Some? ==> Secrets.ServiceNormalize(secret).value != ""
  {
    if Secrets.ServiceForm(secret) == "" {
      assert Secrets.Remove("", Secrets.NEWLINES) == "";
    }
  }

  predicate SuccessfulFinish(t: Task, ops: seq<(Op, real)>, i: nat)
    requires i < |ops|
  {
    var before := History(t, ops[..i]);
    ops[i].0.DoFinish? && ops[i].0.success && Commits(before, ops[i].0, ops[i].1)
  }

  lemma {:induction false} CandidateKeptThroughout(t: Task, ops: seq<(Op, real)>)
    requires Wellformed(t) && t.hasCandidate
    requires forall i :: 0 <= i < |ops| ==> !SuccessfulFinish(t, ops, i)
    ensures Wellformed(History(t, ops))
    ensures History(t, ops).hasCandidate && History(t, ops).candidate == t.candidate
  {
    if ops != [] {
      var front := ops[..|ops| - 1];
      forall i | 0 <= i < |front| ensures !SuccessfulFinish(t, front, i) {
        assert front[..i] == ops[..i];
        assert !SuccessfulFinish(t, ops, i);
      }
      CandidateKeptThroughout(t, front);
      assert !SuccessfulFinish(t, ops, |front|);
      CandidateKept(History(t, front), ops[|front|].0, ops[|front|].1);
    }
  }

  /** Once a claim token is not the task's current one, no history in which the token
      is not issued again gives it any power: every heartbeat, phase and finish it
      signs is rolled back. */
  lemma {:induction false} RevokedTokenStaysRevoked(t: Task, ops: seq<(Op, real)>, token: nat, now: real)
    requires t.token != token
    requires forall i :: 0 <= i < |ops| && ops[i].0.DoClaim? ==> ops[i].0.token != token
    ensures History(t, ops).token != token || token == 0
    ensures forall phase, secret :: !Commits(History(t, ops), DoPhase(token, phase, secret), now)
    ensures forall success, sessionOk :: !Commits(History(t, ops), DoFinish(token, success, sessionOk), now)
    ensures forall worker :: !Commits(History(t, ops), DoHeartbeat(token, worker), now)
  {
    if ops != [] {
      RevokedTokenStaysRevoked(t, ops[..|ops| - 1], token, now);
    }
  }

  /** A committed claim of a rotation: the task was queued for `Rotate`. */
  predicate RotationClaim(t: Task, ops: seq<(Op, real)>, i: nat)
    requires i < |ops|
  {
    ops[i].0.DoClaim? && Commits(History(t, ops[..i]), ops[i].0, ops[i].1) && History(t, ops[..i]).action == Rotate
  }

  predicate BeforeRotation(t: Task) {
    t.action == Rotate && t.state == Queued
  }

  lemma {:induction false} QueuedOnlyAtFirst(t: Task, ops: seq<(Op, real)>)
    requires Wellformed(t) && !BeforeRotation(t)
    ensures Wellformed(History(t, ops)) && !BeforeRotation(History(t, ops))
  {
    if ops != [] {
      QueuedOnlyAtFirst(t, ops[..|ops| - 1]);
      CandidateKept(History(t, ops[..|ops| - 1]), ops[|ops| - 1].0, ops[|ops| - 1].1);
    }
  }

  lemma {:induction false} HistorySplits(t: Task, ops: seq<(Op, real)>, i: nat)
    requires i <= |ops|
    ensures History(t, ops) == History(History(t, ops[..i]), ops[i..])
  {
    if i == |ops| {
      assert ops[..i] == ops;
    } else {
      var front := ops[..|ops| - 1];
      HistorySplits(t, front, i);
      assert front[..i] == ops[..i] && front[i..] == ops[i..][..|ops[i..]| - 1];
    }
  }

  lemma {:induction false} HistoryWellformed(t: Task, ops: seq<(Op, real)>)
    requires Wellformed(t)
    ensures Wellformed(History(t, ops))
  {
    if ops != [] {
      HistoryWellformed(t, ops[..|ops| - 1]);
      CandidateKept(History(t, ops[..|ops| - 1]), ops[|ops| - 1].0, ops[|ops| - 1].1);
    }
  }

  /** The service hands a task out for rotation at most once, in any history. */
  lemma RotationClaimedOnce(t: Task, ops: seq<(Op, real)>, i: nat, j: nat)
    requires Wellformed(t) && i < j < |ops| && RotationClaim(t, ops, i)
    ensures !RotationClaim(t, ops, j)
  {
    HistoryWellformed(t, ops[..i]);
    CandidateKept(History(t, ops[..i]), ops[i].0, ops[i].1);
    assert ops[..i + 1][..i] == ops[..i] && ops[..i + 1][i] == ops[i];
    assert !BeforeRotation(History(t, ops[..i + 1]));
    HistorySplits(t, ops[..j], i + 1);
    assert ops[..j][..i + 1] == ops[..i + 1];
    QueuedOnlyAtFirst(History(t, ops[..i + 1]), ops[..j][i + 1..]);
  }
}
