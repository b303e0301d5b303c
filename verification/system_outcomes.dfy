/** Deliveries of finishes, recoveries and upstream requests keep the invariant of
    `System`. */
module SystemOutcomes {
  import opened Values
  import Secrets
  import RecoveryJournal
  import TaskService
  import Rotation
  import opened System
  import opened SystemInvariant
  import opened SystemSteps
  import opened SystemDeliveries

  // ----- finishes

  ghost function Finished(t: Task, token: nat, success: bool, now: real): Option<Task> {
    TaskService.Finish(TaskService.Expire(t, now), token, success, false, now)
  }

  lemma FinishFacts(t: Task, token: nat, success: bool, now: real)
    requires Finished(t, token, success, now).Some? && t.operation == TaskService.TotpRotation
    ensures TaskService.Expire(t, now) == t && Held(t, token) && TaskService.Claimed(t.state)
    ensures var t' := Finished(t, token, success, now).value;
            && t'.account == t.account && t'.token == 0 && t'.action == t.action && t'.operation == t.operation
            && (success ==> t.state == TaskService.Verifying && t'.state == TaskService.Succeeded && t'.secret == Goal(t)
                            && !t'.hasCandidate && t'.candidate == "")
            && (!success ==> t'.state == TaskService.FailureState(t))
            && (t'.state == TaskService.Uncertain ==> t' == TaskService.Release(t.(state := TaskService.Uncertain)))
  {
  }

  lemma FinishTaskOk(id: int, t: Task, h: History, j: Store, token: nat, success: bool, now: real)
    requires TaskOk(id, t, h, j) && Finished(t, token, success, now).Some?
    ensures TaskOk(id, Finished(t, token, success, now).value, h, j)
  {
    FinishFacts(t, token, success, now);
    TaskService.CandidateKept(t, TaskService.DoFinish(token, success, false), now);
  }

  /** After a finish the worker's run is over, or goes on to report a failure. */
  lemma FinishAnswerFits(w: World, w1: World, id: nat)
    requires WorkerOk(w) && id in w.net && w.net[id].FinishMessage? && w1.worker == w.worker
    requires w.tasks.Keys <= w1.tasks.Keys && w.history.Keys <= w1.history.Keys && w.nextToken == w1.nextToken
    ensures AnswerFits(w1, id, Answered(Rotation.Ok))
  {
    if w.worker.Busy? && w.worker.sent == Some(id) {
      SentMessage(w.worker.token, w.worker.local);
    }
  }

  lemma FailureMoves(id: int, t: Task, h: History, j: Store, bound: nat, token: nat, now: real)
    requires TaskOk(id, t, h, j) && t.token < bound && Finished(t, token, false, now).Some?
    ensures Moves(id, t, Finished(t, token, false, now).value, h, j, bound)
  {
    FinishTaskOk(id, t, h, j, token, false, now);
    FinishFacts(t, token, false, now);
  }

  /** The task a successful finish leaves. */
  ghost predicate Succeeds(w: World, task: int, t': Task)
    requires Shape(w) && task in w.tasks
  {
    var t := w.tasks[task];
    && Open(t) && (t.action == TaskService.VerifyOld || t.hasCandidate) && t'.state == TaskService.Succeeded
    && t'.account == t.account && t'.action == t.action && t'.token == 0 && t'.secret == Goal(t)
    && TaskOk(task, t', w.history[task], w.journal)
  }

  lemma SuccessSucceeds(w: World, task: int, token: nat, now: real)
    requires Shape(w) && task in w.tasks && TaskAt(w, task) && Finished(w.tasks[task], token, true, now).Some?
    ensures Succeeds(w, task, Finished(w.tasks[task], token, true, now).value)
  {
    FinishTaskOk(task, w.tasks[task], w.history[task], w.journal, token, true, now);
    FinishFacts(w.tasks[task], token, true, now);
  }

  lemma SuccessShape(w: World, task: int, t': Task)
    requires Shape(w) && task in w.tasks && TaskAt(w, task) && Succeeds(w, task, t')
    ensures Shape(System.Succeeded(w, task, t'))
  {
  }

  lemma SuccessTasks(w: World, task: int, t': Task)
    requires Shape(w) && TasksOk(w) && task in w.tasks && Succeeds(w, task, t') && Shape(System.Succeeded(w, task, t'))
    ensures TasksOk(System.Succeeded(w, task, t'))
  {
    var w1 := System.Succeeded(w, task, t');
    assert TaskAt(w, task);
    forall id ensures TaskAt(w1, id) {
      assert TaskAt(w, id);
      if id == task {
        assert w1.tasks[id] == t' && w1.history[id] == w.history[id] && w1.journal == w.journal;
      }
    }
  }

  lemma SuccessGrows(w: World, task: int, t': Task)
    requires Shape(w) && task in w.tasks && Succeeds(w, task, t')
    ensures Grows(w, System.Succeeded(w, task, t')) && Quiet(w, System.Succeeded(w, task, t'))
  {
    var w1 := System.Succeeded(w, task, t');
    forall id ensures GrowsAt(w, w1, id) && QuietAt(w, w1, id) {
    }
  }

  /** The account of the task: what was verified is now the credential. */
  lemma SuccessAccount(w: World, task: int, t': Task)
    requires Shape(w) && task in w.tasks && TaskAt(w, task) && Succeeds(w, task, t') && Verified(w, task)
    requires AccountAt(w, w.tasks[task].account) && Shape(System.Succeeded(w, task, t'))
    ensures AccountAt(System.Succeeded(w, task, t'), w.tasks[task].account)
  {
    var a, w1 := w.tasks[task].account, System.Succeeded(w, task, t');
    assert KeptAt(w1, a);
    if w.current[a] != w.origin[a] {
      var id :| Journalled(w, a, id);
      assert Journalled(w1, a, id);
    }
  }

  lemma SuccessOtherAccount(w: World, task: int, t': Task, a: int)
    requires Shape(w) && task in w.tasks && Succeeds(w, task, t') && Shape(System.Succeeded(w, task, t'))
    requires a != w.tasks[task].account && AccountAt(w, a)
    ensures AccountAt(System.Succeeded(w, task, t'), a)
  {
    var w1 := System.Succeeded(w, task, t');
    if a in w.current {
      SuccessKept(w, task, t', a);
      forall b | Stores(w, a, b) ensures Stores(w1, a, b) {
      }
      AccountKept(w, w1, a);
    }
  }

  lemma SuccessKept(w: World, task: int, t': Task, a: int)
    requires Shape(w) && task in w.tasks && Succeeds(w, task, t') && a != w.tasks[task].account && a in w.credentials && KeptAt(w, a)
    ensures a in System.Succeeded(w, task, t').credentials && KeptAt(System.Succeeded(w, task, t'), a)
  {
  }

  lemma SuccessKeeps(w: World, task: int, t': Task)
    requires Ok(w) && task in w.tasks && Succeeds(w, task, t') && Verified(w, task)
    ensures Ok(System.Succeeded(w, task, t'))
  {
    var w1 := System.Succeeded(w, task, t');
    assert TaskAt(w, task);
    SuccessShape(w, task, t');
    SuccessTasks(w, task, t');
    SuccessGrows(w, task, t');
    NetStable(w, w1);
    WorkerStable(w, w1);
    forall a ensures AccountAt(w1, a) {
      assert AccountAt(w, a);
      if a == w.tasks[task].account {
        SuccessAccount(w, task, t');
      } else {
        SuccessOtherAccount(w, task, t', a);
      }
    }
  }

  lemma FinishIs(w: World, id: nat, task: int, token: nat, success: bool, now: real)
    requires Shape(w) && DeliverFinish(w, id, task, token, success, now).Some?
    ensures task in w.tasks && Finished(w.tasks[task], token, success, now).Some?
    ensures var t' := Finished(w.tasks[task], token, success, now).value;
            DeliverFinish(w, id, task, token, success, now).value
            == Respond(if success then System.Succeeded(w, task, t') else WithTask(w, task, t'), id, Answered(Rotation.Ok))
  {
  }

  lemma DeliverFinishKeeps(w: World, id: nat, task: int, token: nat, success: bool, now: real)
    requires Ok(w) && id in w.net && w.net[id] == FinishMessage(task, token, success)
    requires DeliverFinish(w, id, task, token, success, now).Some?
    ensures Ok(DeliverFinish(w, id, task, token, success, now).value)
  {
    assert MessageAt(w, id) && TaskAt(w, task);
    FinishIs(w, id, task, token, success, now);
    var t := w.tasks[task];
    FinishFacts(t, token, success, now);
    var t' := Finished(t, token, success, now).value;
    if success {
      SuccessSucceeds(w, task, token, now);
      SuccessKeeps(w, task, t');
      FinishAnswerFits(w, System.Succeeded(w, task, t'), id);
      RespondKeeps(System.Succeeded(w, task, t'), id, Answered(Rotation.Ok));
    } else {
      FailureMoves(task, t, w.history[task], w.journal, w.nextToken, token, now);
      TaskMoved(w, task, t');
      FinishAnswerFits(w, WithTask(w, task, t'), id);
      RespondKeeps(WithTask(w, task, t'), id, Answered(Rotation.Ok));
    }
  }

  // ----- recoveries

  ghost function Recovered(t: Task, secret: string, now: real): Option<Task> {
    TaskService.Recover(TaskService.Expire(t, now), secret)
  }

  ghost function RecoveredHistory(h: History, candidate: string): History {
    h.(stored := h.stored + {candidate})
  }

  lemma RecoverFacts(t: Task, secret: string, now: real)
    requires Recovered(t, secret, now).Some?
    ensures var t' := Recovered(t, secret, now).value;
            && !t.hasCandidate && Open(t) && t'.state == TaskService.Uncertain && t'.hasCandidate
            && Secrets.ServiceNormalize(secret) == Some(t'.candidate)
            && t'.account == t.account && t'.operation == t.operation && t'.action == t.action
            && (t'.token != 0 ==> t'.token == t.token) && t'.secret == t.secret && t'.previous == t.secret
            && (t.state == TaskService.Uncertain || (TaskService.Claimed(t.state) && TaskService.FailureState(t) == TaskService.Uncertain))
  {
  }

  lemma RecoverTaskOk(id: int, t: Task, h: History, j: Store, secret: string, now: real)
    requires TaskOk(id, t, h, j) && Recovered(t, secret, now).Some? && SavedAs(j, id, secret)
    ensures var t' := Recovered(t, secret, now).value; TaskOk(id, t', RecoveredHistory(h, t'.candidate), j)
  {
    var t' := Recovered(t, secret, now).value;
    RecoverFacts(t, secret, now);
    TaskService.CandidateKept(t, TaskService.DoRecover(secret), now);
    assert Holds(j, id, t'.candidate);
  }

  lemma RecoverFits(w: World, task: int, secret: string, now: real)
    requires Shape(w) && task in w.tasks && TaskAt(w, task)
    requires Recovered(w.tasks[task], secret, now).Some? && SavedAs(w.journal, task, secret)
    ensures var t' := Recovered(w.tasks[task], secret, now).value;
            Fits(w, task, t', RecoveredHistory(w.history[task], t'.candidate))
  {
    RecoverTaskOk(task, w.tasks[task], w.history[task], w.journal, secret, now);
    RecoverFacts(w.tasks[task], secret, now);
  }

  lemma DeliverRecoverKeeps(w: World, id: nat, task: int, secret: string, now: real)
    requires Ok(w) && id in w.net && w.net[id] == RecoverMessage(task, secret)
    requires DeliverRecover(w, id, task, secret, now).Some?
    ensures Ok(DeliverRecover(w, id, task, secret, now).value)
  {
    assert MessageAt(w, id) && TaskAt(w, task);
    RecoverFacts(w.tasks[task], secret, now);
    RecoverFits(w, task, secret, now);
    var t' := Recovered(w.tasks[task], secret, now).value;
    var w1 := Replaced(w, task, t', RecoveredHistory(w.history[task], t'.candidate));
    TaskReplaced(w, task, t', RecoveredHistory(w.history[task], t'.candidate));
    RecoverAnswerFits(w, w1, id, task, secret);
    RespondKeeps(w1, id, Answered(Rotation.Ok));
  }

  lemma RecoverAnswerFits(w: World, w1: World, id: nat, task: int, secret: string)
    requires WorkerOk(w) && id in w.net && w.net[id] == RecoverMessage(task, secret) && w1.worker == w.worker
    requires task in w1.history && StoredIn(w1.history[task], secret)
    ensures AnswerFits(w1, id, Answered(Rotation.Ok))
  {
    if w.worker.Busy? && w.worker.sent == Some(id) {
      SentMessage(w.worker.token, w.worker.local);
    }
  }

  // ----- the upstream

  /** A journalled candidate is the one the API stores for the task. */
  lemma JournalledIsStored(id: int, t: Task, h: History, j: Store, secret: string)
    requires TaskOk(id, t, h, j) && SavedAs(j, id, secret) && t.hasCandidate && Open(t)
    ensures SameSecret(secret, t.candidate)
  {
    Secrets.SameSecret(secret);
    assert Holds(j, id, t.candidate);
  }

  /** An accepted login with the claim's first secret is one with the task's goal. */
  lemma AcceptedIsGoal(w: World, token: nat, l: Local)
    requires Shape(w) && TaskAt(w, l.claim.task) && LocalOk(w, token, l, true) && l.pc.LoginAccepted?
    requires Held(w.tasks[l.claim.task], token)
    ensures HasGoal(w.tasks[l.claim.task]) || !Rotation.Accepted(l).Str? || Rotation.Accepted(l).s == ""
    ensures HasGoal(w.tasks[l.claim.task]) && Rotation.Accepted(l).Str? ==> SameKey(Rotation.Accepted(l), Goal(w.tasks[l.claim.task]))
  {
    var id := l.claim.task;
    var t := w.tasks[id];
    if l.claim.action == Rotation.RotateKey {
      JournalledIsStored(id, t, w.history[id], w.journal, l.candidate.s);
    } else {
      assert l.claim.action == WorkerAction(t.action) && l.candidate == Str(t.candidate) && l.claim.secret == t.secret;
    }
  }

  lemma AcceptanceVerifies(w: World, token: nat, l: Local)
    requires Shape(w) && TaskAt(w, l.claim.task) && LocalOk(w, token, l, true) && l.pc.LoginAccepted?
    requires Held(w.tasks[l.claim.task], token)
    requires SameKey(Rotation.Accepted(l), w.current[w.tasks[l.claim.task].account])
    ensures Verified(w, l.claim.task)
  {
    AcceptedIsGoal(w, token, l);
    assert PyTruthy(Rotation.Accepted(l));
  }

  lemma AcceptedAnswerFits(w: World, token: nat, l: Local, ok: bool)
    requires Shape(w) && TaskAt(w, l.claim.task) && LocalOk(w, token, l, true) && l.pc.LoginAccepted?
    requires ok ==> SameKey(Rotation.Accepted(l), w.current[w.tasks[l.claim.task].account])
    ensures LocalOk(w, token, Rotation.Next(l, if ok then Rotation.LoggedIn else Rotation.Refused), false)
  {
    if ok {
      if Held(w.tasks[l.claim.task], token) {
        AcceptanceVerifies(w, token, l);
      }
      var pc := if PyTruthy(Rotation.Rejected(l)) then Rotation.Waiting else Rotation.Succeeding;
      PastAccepted(w, token, l, pc);
      AcceptedNext(l, pc);
    } else {
      RefusedFits(w, token, l);
    }
  }

  lemma AcceptedNext(l: Local, pc: Rotation.Pc)
    requires l.pc.LoginAccepted? && pc == if PyTruthy(Rotation.Rejected(l)) then Rotation.Waiting else Rotation.Succeeding
    ensures Rotation.Next(l, Rotation.LoggedIn) == l.(pc := pc)
  {
  }

  lemma RefusedFits(w: World, token: nat, l: Local)
    requires LocalOk(w, token, l, true) && l.pc.LoginAccepted?
    ensures LocalOk(w, token, Rotation.Next(l, Rotation.Refused), false)
  {
    var next := Rotation.Next(l, Rotation.Refused);
    assert next == Rotation.Fail(l);
  }

  lemma PastAccepted(w: World, token: nat, l: Local, pc: Rotation.Pc)
    requires LocalOk(w, token, l, true) && l.pc.LoginAccepted? && (pc.Waiting? || pc.Succeeding?)
    requires pc.Waiting? ==> PyTruthy(Rotation.Rejected(l))
    requires Held(w.tasks[l.claim.task], token) ==> Verified(w, l.claim.task)
    ensures LocalOk(w, token, l.(pc := pc), false)
  {
    var id := l.claim.task;
    AcceptedOnTrack(l, pc);
    if l.claim.action == Rotation.RotateKey {
      AcceptedRotateOk(id, w.history[id], w.journal, l, pc);
    }
  }

  lemma AcceptedOnTrack(l: Local, pc: Rotation.Pc)
    requires Rotation.OnTrack(l) && l.pc.LoginAccepted? && (pc.Waiting? || pc.Succeeding?)
    requires pc.Waiting? ==> PyTruthy(Rotation.Rejected(l))
    ensures Rotation.OnTrack(l.(pc := pc))
  {
  }

  lemma AcceptedRotateOk(id: int, h: History, j: Store, l: Local, pc: Rotation.Pc)
    requires RotateOk(id, h, j, l, true) && l.pc.LoginAccepted? && (pc.Waiting? || pc.Succeeding?)
    ensures RotateOk(id, h, j, l.(pc := pc), false)
  {
  }

  lemma OtherLoginFits(w: World, token: nat, l: Local, o: Rotation.Outcome)
    requires LocalOk(w, token, l, true) && (l.pc.OpeningSession? || l.pc.LoginRejected?)
    ensures LocalOk(w, token, Rotation.Next(l, o), false)
  {
    var next := Rotation.Next(l, o);
    assert next.claim == l.claim && next.candidate == l.candidate;
  }

  lemma LoginAnswerFits(w: World, token: nat, l: Local, ok: bool)
    requires Shape(w) && TaskAt(w, l.claim.task) && LocalOk(w, token, l, true)
    requires l.pc.OpeningSession? || l.pc.LoginAccepted? || l.pc.LoginRejected?
    requires l.pc.LoginAccepted? && ok ==> SameKey(Rotation.Accepted(l), w.current[w.tasks[l.claim.task].account])
    ensures LocalOk(w, token, Rotation.Next(l, if ok then Rotation.LoggedIn else Rotation.Refused), false)
  {
    if l.pc.LoginAccepted? {
      AcceptedAnswerFits(w, token, l, ok);
    } else {
      OtherLoginFits(w, token, l, if ok then Rotation.LoggedIn else Rotation.Refused);
    }
  }

  ghost function LoginSecret(l: Local): Json {
    if l.pc.OpeningSession? then Str(l.claim.secret)
    else if l.pc.LoginAccepted? then Rotation.Accepted(l) else Rotation.Rejected(l)
  }

  lemma LoginPoint(token: nat, l: Local)
    requires MessageOf(token, l).Some? && MessageOf(token, l).value.LoginMessage?
    ensures (l.pc.OpeningSession? || l.pc.LoginAccepted? || l.pc.LoginRejected?)
            && MessageOf(token, l) == Some(LoginMessage(l.claim.task, LoginSecret(l)))
  {
  }

  /** A login that succeeded keeps the invariant. */
  lemma LoggedInKeeps(w: World, task: int, attempt: Json)
    requires Ok(w) && task in w.tasks && w.tasks[task].account in w.current
    requires SameKey(attempt, w.current[w.tasks[task].account])
    ensures Ok(LoggedIn(w, task, attempt))
  {
    if HasGoal(w.tasks[task]) && SameKey(attempt, Goal(w.tasks[task])) {
      ConfirmedKeeps(w, task);
    }
  }

  lemma ConfirmedKeeps(w: World, task: int)
    requires Ok(w) && task in w.tasks && w.tasks[task].account in w.current
    requires HasGoal(w.tasks[task]) && SameSecret(w.current[w.tasks[task].account], Goal(w.tasks[task]))
    ensures Ok(Confirmed(w, task))
  {
    var w1 := Confirmed(w, task);
    assert TaskAt(w, task);
    ConfirmedTasks(w, task);
    ConfirmedGrows(w, task);
    ConfirmedAccounts(w, task);
    NetStable(w, w1);
    WorkerStable(w, w1);
  }

  lemma ConfirmedTask(w: World, task: int, id: int)
    requires Shape(w) && task in w.tasks && TaskAt(w, id) && Shape(Confirmed(w, task))
    ensures TaskAt(Confirmed(w, task), id)
  {
    if id == task {
      var h := w.history[task];
      assert id in w.tasks && TaskOk(id, w.tasks[id], h, w.journal);
      SameTaskOk(id, w.tasks[id], h, w.journal);
    }
  }

  lemma SameTaskOk(id: int, t: Task, h: History, j: Store)
    requires TaskOk(id, t, h, j)
    ensures TaskOk(id, t, h.(overtaken := false), j)
  {
  }

  lemma ConfirmedTasks(w: World, task: int)
    requires Shape(w) && TasksOk(w) && task in w.tasks
    ensures Shape(Confirmed(w, task)) && TasksOk(Confirmed(w, task))
  {
    forall id ensures TaskAt(Confirmed(w, task), id) {
      assert TaskAt(w, id);
      ConfirmedTask(w, task, id);
    }
  }

  /** Another task that is being worked on belongs to another account. */
  lemma OtherAccount(w: World, task: int, id: int)
    requires Shape(w) && task in w.tasks && id in w.tasks && TaskAt(w, task) && TaskAt(w, id) && Open(w.tasks[task])
    requires id != task && w.tasks[id].token != 0
    ensures w.tasks[id].account != w.tasks[task].account
  {
    assert TaskService.Wellformed(w.tasks[id]);
  }

  lemma ConfirmedGrows(w: World, task: int)
    requires Shape(w) && TasksOk(w) && task in w.tasks && w.tasks[task].account in w.current
    requires HasGoal(w.tasks[task]) && SameSecret(w.current[w.tasks[task].account], Goal(w.tasks[task]))
    ensures Grows(w, Confirmed(w, task)) && Quiet(w, Confirmed(w, task))
  {
    var w1 := Confirmed(w, task);
    assert TaskAt(w, task);
    forall id ensures GrowsAt(w, w1, id) && QuietAt(w, w1, id) {
      assert TaskAt(w, id);
      if id in w.tasks && id != task && w.tasks[id].token != 0 {
        OtherAccount(w, task, id);
      }
    }
  }

  lemma ConfirmedAccount(w: World, task: int, a: int)
    requires Shape(w) && AccountAt(w, a) && task in w.tasks && w.tasks[task].account in w.current && TaskAt(w, task)
    requires HasGoal(w.tasks[task]) && SameSecret(w.current[w.tasks[task].account], Goal(w.tasks[task]))
    requires Shape(Confirmed(w, task)) && a == w.tasks[task].account
    ensures AccountAt(Confirmed(w, task), a)
  {
    var w1 := Confirmed(w, task);
    assert w.tasks[task].action != TaskService.VerifyOld ==> Stores(w1, a, task);
    assert KeptAt(w1, a);
    if w.current[a] != w.origin[a] {
      var id :| Journalled(w, a, id);
      assert Journalled(w1, a, id);
    }
  }

  lemma ConfirmedAccounts(w: World, task: int)
    requires Shape(w) && AccountsOk(w) && task in w.tasks && w.tasks[task].account in w.current && TaskAt(w, task)
    requires HasGoal(w.tasks[task]) && SameSecret(w.current[w.tasks[task].account], Goal(w.tasks[task]))
    requires Shape(Confirmed(w, task))
    ensures AccountsOk(Confirmed(w, task))
  {
    var w1 := Confirmed(w, task);
    forall a ensures AccountAt(w1, a) {
      assert AccountAt(w, a);
      if a == w.tasks[task].account {
        ConfirmedAccount(w, task, a);
      } else if a in w.current {
        forall b | Stores(w, a, b) ensures Stores(w1, a, b) {
        }
        assert KeptAt(w1, a);
        AccountKept(w, w1, a);
      }
    }
  }

  lemma DeliverLoginKeeps(w: World, id: nat, task: int, attempt: Json)
    requires Ok(w) && id in w.net && w.net[id] == LoginMessage(task, attempt) && DeliverLogin(w, id, task, attempt).Some?
    ensures Ok(DeliverLogin(w, id, task, attempt).value)
  {
    var ok := SameKey(attempt, w.current[w.tasks[task].account]);
    var r := Answered(if ok then Rotation.LoggedIn else Rotation.Refused);
    var w1 := if ok then LoggedIn(w, task, attempt) else w;
    if ok {
      LoggedInKeeps(w, task, attempt);
    }
    LoginReplyFits(w1, id, task, attempt, ok);
    RespondKeeps(w1, id, r);
  }

  lemma LoginReplyFits(w: World, id: nat, task: int, attempt: Json, ok: bool)
    requires Ok(w) && id in w.net && w.net[id] == LoginMessage(task, attempt) && task in w.tasks && w.tasks[task].account in w.current
    requires ok ==> SameKey(attempt, w.current[w.tasks[task].account])
    ensures AnswerFits(w, id, Answered(if ok then Rotation.LoggedIn else Rotation.Refused))
  {
    if w.worker.Busy? && w.worker.sent == Some(id) {
      assert TaskAt(w, task);
      LoginPoint(w.worker.token, w.worker.local);
      LoginAnswerFits(w, w.worker.token, w.worker.local, ok);
    }
  }

  lemma EnrollAnswerFits(w: World, token: nat, l: Local, secret: Json, session: Json)
    requires LocalOk(w, token, l, true) && l.pc.SendingEnroll?
    ensures LocalOk(w, token, Rotation.Next(l, Rotation.Enrolled(secret, session)), false)
  {
  }

  lemma DeliverEnrollKeeps(w: World, id: nat, secret: Json, session: Json)
    requires Ok(w) && id in w.net && w.net[id].EnrollMessage?
    ensures Ok(Respond(w, id, Answered(Rotation.Enrolled(secret, session))))
  {
    var r := Answered(Rotation.Enrolled(secret, session));
    if w.worker.Busy? && w.worker.sent == Some(id) {
      EnrollPoint(w.worker.token, w.worker.local);
      EnrollAnswerFits(w, w.worker.token, w.worker.local, secret, session);
    }
    assert AnswerFits(w, id, r);
    RespondKeeps(w, id, r);
  }

  lemma EnrollPoint(token: nat, l: Local)
    requires MessageOf(token, l).Some?
    ensures MessageOf(token, l).value.EnrollMessage? ==> l.pc.SendingEnroll?
    ensures MessageOf(token, l).value.ActivateMessage? ==> l.pc.SendingActivate?
  {
  }

  // ----- activations

  /** An activation that was sent carries the candidate the API stores for the task. */
  lemma ActivatedIsStored(w: World, task: int, secret: string)
    requires Shape(w) && task in w.tasks && TaskAt(w, task) && secret in w.history[task].activated
    ensures SavedAs(w.journal, task, secret) && w.journal[task].acknowledged
    ensures Open(w.tasks[task]) ==> w.tasks[task].hasCandidate && SameSecret(secret, w.tasks[task].candidate)
  {
    var t, h := w.tasks[task], w.history[task];
    SentFacts(task, t, h, w.journal, secret);
    if Open(t) {
      JournalledIsStored(task, t, h, w.journal, secret);
    }
  }

  lemma ActivationTasks(w: World, task: int, secret: string)
    requires Shape(w) && TasksOk(w) && task in w.tasks
    ensures Shape(Activated(w, task, secret)) && TasksOk(Activated(w, task, secret))
  {
    var w1 := Activated(w, task, secret);
    assert TaskAt(w, task);
    assert w1.current.Keys == w.current.Keys;
    forall id ensures TaskAt(w1, id) {
      assert TaskAt(w, id);
    }
  }

  lemma ActivationGrows(w: World, task: int, secret: string)
    requires Shape(w) && TasksOk(w) && task in w.tasks && secret in w.history[task].activated
    ensures Grows(w, Activated(w, task, secret)) && Quiet(w, Activated(w, task, secret))
  {
    var w1 := Activated(w, task, secret);
    assert TaskAt(w, task);
    ActivatedIsStored(w, task, secret);
    forall id ensures GrowsAt(w, w1, id) && QuietAt(w, w1, id) {
      assert TaskAt(w, id);
      if id in w.tasks && id != task && w.tasks[id].token != 0 && Open(w.tasks[task]) {
        OtherAccount(w, task, id);
      }
    }
  }

  lemma ActivationAccounts(w: World, task: int, secret: string, a: int)
    requires Shape(w) && AccountAt(w, a) && task in w.tasks && TaskAt(w, task) && secret in w.history[task].activated
    requires Shape(Activated(w, task, secret))
    ensures AccountAt(Activated(w, task, secret), a)
  {
    var w1 := Activated(w, task, secret);
    if a in w1.current {
      assert KeptAt(w1, a);
      if a == w.tasks[task].account {
        ActivatedIsStored(w, task, secret);
        assert Journalled(w1, a, task);
        assert Open(w.tasks[task]) ==> Stores(w1, a, task);
      } else {
        forall b | Stores(w, a, b) ensures Stores(w1, a, b) {
        }
        AccountKept(w, w1, a);
      }
    }
  }

  lemma ActivationKeeps(w: World, task: int, secret: string)
    requires Ok(w) && task in w.tasks && secret in w.history[task].activated
    ensures Ok(Activated(w, task, secret))
  {
    var w1 := Activated(w, task, secret);
    ActivationTasks(w, task, secret);
    ActivationGrows(w, task, secret);
    NetStable(w, w1);
    WorkerStable(w, w1);
    assert TaskAt(w, task);
    forall a ensures AccountAt(w1, a) {
      assert AccountAt(w, a);
      ActivationAccounts(w, task, secret, a);
    }
  }

  lemma ActivateAnswerFits(w: World, token: nat, l: Local)
    requires LocalOk(w, token, l, true) && l.pc.SendingActivate?
    ensures LocalOk(w, token, Rotation.Next(l, Rotation.Ok), false)
  {
  }

  lemma DeliverActivateKeeps(w: World, id: nat, task: int, secret: string)
    requires Ok(w) && id in w.net && w.net[id] == ActivateMessage(task, secret) && DeliverActivate(w, id, task, secret).Some?
    ensures Ok(DeliverActivate(w, id, task, secret).value)
  {
    assert MessageAt(w, id);
    var w1 := Activated(w, task, secret);
    ActivationKeeps(w, task, secret);
    if w1.worker.Busy? && w1.worker.sent == Some(id) {
      EnrollPoint(w1.worker.token, w1.worker.local);
      ActivateAnswerFits(w1, w1.worker.token, w1.worker.local);
    }
    assert AnswerFits(w1, id, Answered(Rotation.Ok));
    RespondKeeps(w1, id, Answered(Rotation.Ok));
  }

  // ----- all deliveries

  lemma DeliverKeeps(w: World, id: nat, c: Chance)
    requires Ok(w) && DeliverStep(w, id, c).Some?
    ensures Ok(DeliverStep(w, id, c).value)
  {
    match w.net[id]
    case ClaimMessage => DeliverClaimKeeps(w, id, c);
    case PhaseMessage(task, token, phase, secret) => DeliverPhaseKeeps(w, id, task, token, phase, secret, c.now);
    case FinishMessage(task, token, success) => DeliverFinishKeeps(w, id, task, token, success, c.now);
    case RecoverMessage(task, secret) => DeliverRecoverKeeps(w, id, task, secret, c.now);
    case LoginMessage(task, attempt) => DeliverLoginKeeps(w, id, task, attempt);
    case EnrollMessage(_) => DeliverEnrollKeeps(w, id, c.secret, c.session);
    case ActivateMessage(task, secret) => DeliverActivateKeeps(w, id, task, secret);
  }
}
