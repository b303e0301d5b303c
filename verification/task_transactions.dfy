/** What each transaction of `TaskService` does, with its conditions spelled out: exactly
    when it commits, and the whole task it leaves. Every transaction expires an abandoned
    claim first. */
module TaskTransactions {
  import opened Values
  import Secrets
  import opened TaskService

  /** `token` is the claim a worker holds, and it has neither run out nor reached its
      absolute limit. */
  ghost predicate Active(t: Task, token: nat, now: real) {
    && token != 0 && t.token == token && now < t.leaseUntil && now < t.startedAt + 900.0
    && t.state in {Running, Enrolling, Prepared, Activating, Verifying}
  }

  /** A claim that nobody keeps alive any more. */
  ghost predicate Lapsed(t: Task, now: real) {
    t.state in {Running, Enrolling, Prepared, Activating, Verifying} && (t.leaseUntil <= now || t.startedAt + 900.0 <= now)
  }

  /** The upstream may have changed: a failure leaves the task uncertain. */
  ghost predicate InDoubt(t: Task) {
    t.operation == TotpRotation && (t.action != Rotate || t.state in {Enrolling, Prepared, Activating, Verifying})
  }

  /** The task is uncertain, or becomes so when its abandoned claim expires. */
  ghost predicate Unsettled(t: Task, now: real) {
    t.state == Uncertain || (Lapsed(t, now) && InDoubt(t))
  }

  /** The server takes `secret` as a new key of the task. */
  ghost predicate NewKey(t: Task, secret: string) {
    Secrets.ServiceNormalize(secret).Some? && Secrets.ServiceNormalize(secret).value != t.secret
  }

  ghost function WithKey(t: Task, secret: string): Task
    requires NewKey(t, secret)
  {
    t.(candidate := Secrets.ServiceNormalize(secret).value, previous := t.secret, hasCandidate := true)
  }

  /** A claim is expired exactly if it has lapsed. A task in doubt keeps its secrets, any
      other loses them. */
  lemma ExpireExactly(t: Task, now: real)
    ensures !Lapsed(t, now) ==> Expire(t, now) == t
    ensures Lapsed(t, now) && InDoubt(t) ==> Expire(t, now) == t.(state := Uncertain, token := 0, worker := 0, leaseUntil := 0.0)
    ensures Lapsed(t, now) && !InDoubt(t) ==>
              Expire(t, now) == t.(state := Failed, token := 0, worker := 0, leaseUntil := 0.0, secret := "", candidate := "", previous := "")
  {
  }

  lemma ClaimExactly(t: Task, token: nat, worker: nat, now: real)
    ensures Commits(t, DoClaim(token, worker), now) <==> t.state == Queued && token != 0
    ensures Commits(t, DoClaim(token, worker), now) ==>
              Transact(t, DoClaim(token, worker), now)
              == t.(state := Running, token := token, worker := worker, startedAt := now, leaseUntil := now + 120.0)
  {
    ExpireExactly(t, now);
  }

  lemma HeartbeatExactly(t: Task, token: nat, worker: nat, now: real)
    ensures Commits(t, DoHeartbeat(token, worker), now) <==> Active(t, token, now) && t.worker == worker
    ensures Commits(t, DoHeartbeat(token, worker), now) ==>
              Transact(t, DoHeartbeat(token, worker), now) == t.(leaseUntil := now + 120.0)
  {
    ExpireExactly(t, now);
  }

  /** The order of the phases: from which state a post leads where. */
  ghost function PhaseTable(action: Action): set<(State, PhaseName, State)> {
    if action == Rotate then
      {(Running, ToEnrolling, Enrolling), (Enrolling, ToPrepared, Prepared), (Prepared, ToActivating, Activating),
       (Activating, ToVerifying, Verifying)}
    else {(Running, ToVerifyRecovery, Verifying)}
  }

  ghost predicate PhaseFits(t: Task, phase: PhaseName, secret: string, next: State) {
    && t.operation == TotpRotation && (t.state, phase, next) in PhaseTable(t.action)
    && (phase == ToPrepared ==> NewKey(t, secret)) && (phase == ToActivating ==> t.hasCandidate)
  }

  /** A phase post commits exactly for an active claim and the next phase in order. */
  lemma PhaseExactly(t: Task, token: nat, phase: PhaseName, secret: string, now: real)
    ensures Commits(t, DoPhase(token, phase, secret), now) <==>
            Active(t, token, now) && exists next :: PhaseFits(t, phase, secret, next)
    ensures forall next :: Active(t, token, now) && PhaseFits(t, phase, secret, next) ==>
              Transact(t, DoPhase(token, phase, secret), now)
              == (if phase == ToPrepared then WithKey(t, secret) else t).(state := next, leaseUntil := now + 120.0)
  {
    ExpireExactly(t, now);
    if Active(t, token, now) {
      NextIsInTable(t, phase);
      if Phase(t, token, phase, secret, now).Some? {
        assert PhaseFits(t, phase, secret, NextState(t, phase).value);
      }
      forall next | PhaseFits(t, phase, secret, next) ensures NextState(t, phase) == Some(next) {
        assert (t.state, phase, next) in PhaseTable(t.action);
      }
    }
  }

  lemma NextIsInTable(t: Task, phase: PhaseName)
    ensures forall next :: (t.state, phase, next) in PhaseTable(t.action) && (phase == ToActivating ==> t.hasCandidate)
                           <==> NextState(t, phase) == Some(next)
  {
  }

  /** A success of a rotation commits exactly for an active claim that is verifying, with
      a candidate unless it goes back to the old secret. */
  lemma SuccessExactly(t: Task, token: nat, sessionOk: bool, now: real)
    requires t.operation == TotpRotation
    ensures Commits(t, DoFinish(token, true, sessionOk), now) <==>
            Active(t, token, now) && t.state == Verifying && (t.action == VerifyOld || t.candidate != "")
    ensures Commits(t, DoFinish(token, true, sessionOk), now) ==>
              Transact(t, DoFinish(token, true, sessionOk), now)
              == t.(state := Succeeded, secret := if t.action == VerifyOld then t.secret else t.candidate,
                    candidate := "", previous := "", hasCandidate := false, token := 0, worker := 0, leaseUntil := 0.0)
  {
    ExpireExactly(t, now);
  }

  lemma LoginSuccessExactly(t: Task, token: nat, sessionOk: bool, now: real)
    requires t.operation == Login
    ensures Commits(t, DoFinish(token, true, sessionOk), now) <==> Active(t, token, now) && t.state == Running && sessionOk
    ensures Commits(t, DoFinish(token, true, sessionOk), now) ==>
              Transact(t, DoFinish(token, true, sessionOk), now) == t.(state := Ready, token := 0, worker := 0, leaseUntil := 0.0)
  {
    ExpireExactly(t, now);
  }

  /** A failure commits exactly for an active claim. A task in doubt becomes uncertain and
      keeps its secrets; any other fails and loses them. */
  lemma FailureExactly(t: Task, token: nat, sessionOk: bool, now: real)
    ensures Commits(t, DoFinish(token, false, sessionOk), now) <==> Active(t, token, now)
    ensures Commits(t, DoFinish(token, false, sessionOk), now) ==>
              Transact(t, DoFinish(token, false, sessionOk), now)
              == if InDoubt(t) then t.(state := Uncertain, token := 0, worker := 0, leaseUntil := 0.0)
                 else t.(state := Failed, token := 0, worker := 0, leaseUntil := 0.0, secret := "", candidate := "", previous := "")
  {
    ExpireExactly(t, now);
  }

  /** A recovered secret is stored exactly if the task is an uncertain rotation without a
      candidate and the server takes the secret; nothing else changes. */
  lemma RecoverExactly(t: Task, secret: string, now: real)
    requires t.operation == TotpRotation
    ensures Commits(t, DoRecover(secret), now) <==> Unsettled(t, now) && !t.hasCandidate && NewKey(t, secret)
    ensures Commits(t, DoRecover(secret), now) ==> Transact(t, DoRecover(secret), now) == WithKey(Expire(t, now), secret)
    ensures t.state == Uncertain ==> Expire(t, now) == t
  {
    ExpireExactly(t, now);
  }

  /** An administrator may have an uncertain rotation verified: the new key only if there
      is one, the old one always. */
  lemma ReconcileExactly(t: Task, action: Action, now: real)
    requires t.operation == TotpRotation
    ensures Commits(t, DoReconcile(action), now) <==>
            Unsettled(t, now) && (action == VerifyOld || (action == VerifyNew && t.hasCandidate))
    ensures Commits(t, DoReconcile(action), now) ==>
              Transact(t, DoReconcile(action), now)
              == Expire(t, now).(action := action, state := Queued, token := 0, leaseUntil := 0.0, startedAt := 0.0)
  {
    ExpireExactly(t, now);
  }

  lemma FailQueuedExactly(t: Task, now: real)
    ensures Commits(t, DoFailQueued, now) <==> t.state == Queued
    ensures Commits(t, DoFailQueued, now) ==>
              Transact(t, DoFailQueued, now)
              == if InDoubt(t) then t.(state := Uncertain)
                 else t.(state := Failed, secret := "", candidate := "", previous := "", hasCandidate := false)
  {
    ExpireExactly(t, now);
  }

  /** The other two operations commit for rotations alone. */
  lemma LoginsHaveNoKeys(t: Task, secret: string, action: Action, token: nat, phase: PhaseName, now: real)
    requires t.operation == Login
    ensures !Commits(t, DoRecover(secret), now) && !Commits(t, DoReconcile(action), now) && !Commits(t, DoPhase(token, phase, secret), now)
  {
    ExpireExactly(t, now);
  }

  // ----- whole histories

  /** A rotation that was abandoned after its enrolment and before its candidate was stored
      can be recovered with the key it had enrolled. */
  lemma AbandonedIsRecoverable(t: Task, secret: string, now: real)
    requires Wellformed(t) && t.operation == TotpRotation && t.action == Rotate && !t.hasCandidate
    requires t.state in {Enrolling, Prepared, Activating, Verifying} && Lapsed(t, now) && NewKey(t, secret)
    ensures Commits(t, DoRecover(secret), now)
    ensures var t' := Transact(t, DoRecover(secret), now);
            t'.state == Uncertain && t'.hasCandidate && t'.candidate == Secrets.ServiceNormalize(secret).value && t'.previous == t.secret
  {
    RecoverExactly(t, secret, now);
    ExpireExactly(t, now);
  }

  lemma Then(t: Task, ops: seq<(Op, real)>, t1: Task, op: Op, now: real, t2: Task)
    requires History(t, ops) == t1 && Transact(t1, op, now) == t2
    ensures History(t, ops + [(op, now)]) == t2
  {
    assert (ops + [(op, now)])[..|ops|] == ops;
  }

  /** What a worker posts for a rotation, with a heartbeat in between: the first half. */
  ghost function ToTheKey(secret: string, token: nat, worker: nat, now: real): seq<(Op, real)> {
    [] + [(DoClaim(token, worker), now)] + [(DoPhase(token, ToEnrolling, ""), now + 100.0)]
    + [(DoPhase(token, ToPrepared, secret), now + 200.0)] + [(DoHeartbeat(token, worker), now + 300.0)]
  }

  lemma KeyIsStored(account: int, first: string, secret: string, token: nat, worker: nat, now: real) returns (t': Task)
    requires token != 0 && Secrets.ServiceNormalize(secret).Some? && Secrets.ServiceNormalize(secret).value != first
    ensures t' == History(NewTask(account, TotpRotation, first), ToTheKey(secret, token, worker, now))
    ensures t'.operation == TotpRotation && t'.action == Rotate && t'.state == Prepared && t'.token == token && t'.worker == worker
    ensures t'.leaseUntil == now + 420.0 && t'.startedAt == now
    ensures t'.hasCandidate && t'.candidate == Secrets.ServiceNormalize(secret).value
  {
    var t := NewTask(account, TotpRotation, first);
    var t1 := t.(state := Running, token := token, worker := worker, startedAt := now, leaseUntil := now + 120.0);
    var t2 := t1.(state := Enrolling, leaseUntil := now + 220.0);
    var t3 := WithKey(t2, secret).(state := Prepared, leaseUntil := now + 320.0);
    t' := t3.(leaseUntil := now + 420.0);
    ClaimExactly(t, token, worker, now);
    PhaseExactly(t1, token, ToEnrolling, "", now + 100.0);
    assert PhaseFits(t1, ToEnrolling, "", Enrolling);
    PhaseExactly(t2, token, ToPrepared, secret, now + 200.0);
    assert PhaseFits(t2, ToPrepared, secret, Prepared);
    HeartbeatExactly(t3, token, worker, now + 300.0);
    var o1, o2 := (DoClaim(token, worker), now), (DoPhase(token, ToEnrolling, ""), now + 100.0);
    Then(t, [], t, o1.0, o1.1, t1);
    Then(t, [] + [o1], t1, o2.0, o2.1, t2);
    Then(t, [] + [o1] + [o2], t2, DoPhase(token, ToPrepared, secret), now + 200.0, t3);
    Then(t, [] + [o1] + [o2] + [(DoPhase(token, ToPrepared, secret), now + 200.0)], t3, DoHeartbeat(token, worker), now + 300.0, t');
  }

  /** A task whose worker posts what it should in time ends with the new key. */
  lemma RotationSucceeds(account: int, first: string, secret: string, token: nat, worker: nat, now: real)
    requires token != 0 && Secrets.ServiceNormalize(secret).Some? && Secrets.ServiceNormalize(secret).value != first
    ensures var ops := ToTheKey(secret, token, worker, now) + [(DoPhase(token, ToActivating, ""), now + 400.0)]
                       + [(DoPhase(token, ToVerifying, ""), now + 500.0)] + [(DoFinish(token, true, false), now + 600.0)];
            var t' := History(NewTask(account, TotpRotation, first), ops);
            t'.state == Succeeded && t'.secret == Secrets.ServiceNormalize(secret).value && t'.token == 0
  {
    AcceptedCandidateNotEmpty(secret);
    var t, ops := NewTask(account, TotpRotation, first), ToTheKey(secret, token, worker, now);
    var t4 := KeyIsStored(account, first, secret, token, worker, now);
    var t5 := t4.(state := Activating, leaseUntil := now + 520.0);
    var t6 := t5.(state := Verifying, leaseUntil := now + 620.0);
    PhaseExactly(t4, token, ToActivating, "", now + 400.0);
    assert PhaseFits(t4, ToActivating, "", Activating);
    PhaseExactly(t5, token, ToVerifying, "", now + 500.0);
    assert PhaseFits(t5, ToVerifying, "", Verifying);
    SuccessExactly(t6, token, false, now + 600.0);
    var o5, o6 := (DoPhase(token, ToActivating, ""), now + 400.0), (DoPhase(token, ToVerifying, ""), now + 500.0);
    Then(t, ops, t4, o5.0, o5.1, t5);
    Then(t, ops + [o5], t5, o6.0, o6.1, t6);
    Then(t, ops + [o5] + [o6], t6, DoFinish(token, true, false), now + 600.0, Transact(t6, DoFinish(token, true, false), now + 600.0));
  }

  /** What an administrator and a worker do for a task whose key is in the journal. */
  ghost function ToTheClaim(secret: string, token: nat, worker: nat, now: real): seq<(Op, real)> {
    [] + [(DoRecover(secret), now)] + [(DoReconcile(VerifyNew), now)] + [(DoClaim(token, worker), now)]
  }

  lemma RecoveredIsClaimed(t: Task, secret: string, token: nat, worker: nat, now: real) returns (t': Task)
    requires Wellformed(t) && t.operation == TotpRotation && t.action == Rotate && t.state == Enrolling
    requires Lapsed(t, now) && NewKey(t, secret) && token != 0
    ensures t' == History(t, ToTheClaim(secret, token, worker, now))
    ensures t'.operation == TotpRotation && t'.action == VerifyNew && t'.state == Running && t'.token == token
    ensures t'.leaseUntil == now + 120.0 && t'.startedAt == now
    ensures t'.hasCandidate && t'.candidate == Secrets.ServiceNormalize(secret).value
  {
    ExpireExactly(t, now);
    RecoverExactly(t, secret, now);
    var t1 := WithKey(Expire(t, now), secret);
    ReconcileExactly(t1, VerifyNew, now);
    ExpireExactly(t1, now);
    var t2 := t1.(action := VerifyNew, state := Queued, token := 0, leaseUntil := 0.0, startedAt := 0.0);
    ClaimExactly(t2, token, worker, now);
    t' := t2.(state := Running, token := token, worker := worker, startedAt := now, leaseUntil := now + 120.0);
    Then(t, [], t, DoRecover(secret), now, t1);
    Then(t, [] + [(DoRecover(secret), now)], t1, DoReconcile(VerifyNew), now, t2);
    Then(t, [] + [(DoRecover(secret), now)] + [(DoReconcile(VerifyNew), now)], t2, DoClaim(token, worker), now, t');
  }

  /** A rotation that was abandoned after its enrolment, recovered from the journal and
      verified ends with the new key all the same. */
  lemma RecoverySucceeds(t: Task, secret: string, token: nat, worker: nat, now: real)
    requires Wellformed(t) && t.operation == TotpRotation && t.action == Rotate && t.state == Enrolling
    requires Lapsed(t, now) && NewKey(t, secret) && token != 0
    ensures var ops := ToTheClaim(secret, token, worker, now) + [(DoPhase(token, ToVerifyRecovery, ""), now + 60.0)]
                       + [(DoFinish(token, true, false), now + 120.0)];
            var t' := History(t, ops);
            t'.state == Succeeded && t'.secret == Secrets.ServiceNormalize(secret).value
  {
    AcceptedCandidateNotEmpty(secret);
    var ops := ToTheClaim(secret, token, worker, now);
    var t3 := RecoveredIsClaimed(t, secret, token, worker, now);
    PhaseExactly(t3, token, ToVerifyRecovery, "", now + 60.0);
    assert PhaseFits(t3, ToVerifyRecovery, "", Verifying);
    var t4 := t3.(state := Verifying, leaseUntil := now + 180.0);
    SuccessExactly(t4, token, false, now + 120.0);
    Then(t, ops, t3, DoPhase(token, ToVerifyRecovery, ""), now + 60.0, t4);
    Then(t, ops + [(DoPhase(token, ToVerifyRecovery, ""), now + 60.0)], t4, DoFinish(token, true, false), now + 120.0,
         Transact(t4, DoFinish(token, true, false), now + 120.0));
  }
}
