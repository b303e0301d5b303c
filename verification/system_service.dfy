/** The API and the upstream of `System`: every request that arrives is one transaction of
    `TaskService` or one change of the upstream, and takes effect exactly when that does. */
module SystemService {
  import opened Values
  import Secrets
  import RecoveryJournal
  import TaskService
  import TaskTransactions
  import Rotation
  import opened System
  import opened SystemInvariant
  import opened SystemTheorems

  /** Only tasks, histories and the message on its way have changed. */
  ghost predicate OnlyTasks(w: World, w': World, id: nat, reply: Reply) {
    w' == w.(tasks := w'.tasks, history := w'.history, net := w.net - {id}, replies := w.replies[id := reply])
  }

  /** A phase post takes effect exactly if it commits, and then as that transaction. */
  lemma PhaseDelivery(w: World, id: nat, c: Chance)
    requires id in w.net && w.net[id].PhaseMessage? && w.net[id].task in w.tasks && w.net[id].task in w.history
    ensures var PhaseMessage(task, token, phase, secret) := w.net[id];
            var op := TaskService.DoPhase(token, phase, secret);
            var w' := DeliverStep(w, id, c);
            && (w'.Some? <==> TaskService.Commits(w.tasks[task], op, c.now))
            && (w'.Some? ==> w'.value.tasks == w.tasks[task := TaskService.Transact(w.tasks[task], op, c.now)]
                             && OnlyTasks(w, w'.value, id, Answered(Rotation.Ok)))
  {
  }

  /** A report likewise; a success makes the task's secret the account's credential. */
  lemma ReportDelivery(w: World, id: nat, c: Chance)
    requires id in w.net && w.net[id].FinishMessage? && w.net[id].task in w.tasks && w.net[id].task in w.history
    ensures var FinishMessage(task, token, success) := w.net[id];
            var op := TaskService.DoFinish(token, success, false);
            var t' := TaskService.Transact(w.tasks[task], op, c.now);
            var w' := DeliverStep(w, id, c);
            && (w'.Some? <==> TaskService.Commits(w.tasks[task], op, c.now))
            && (w'.Some? ==> w'.value.tasks == w.tasks[task := t'] && w'.value.journal == w.journal && w'.value.current == w.current)
            && (w'.Some? ==> w'.value.credentials == if success then w.credentials[t'.account := t'.secret] else w.credentials)
            && (w'.Some? ==> w'.value.replies == w.replies[id := Answered(Rotation.Ok)])
  {
  }

  /** A recovered secret likewise. */
  lemma RecoveryDelivery(w: World, id: nat, c: Chance)
    requires id in w.net && w.net[id].RecoverMessage? && w.net[id].task in w.tasks && w.net[id].task in w.history
    ensures var RecoverMessage(task, secret) := w.net[id];
            var op := TaskService.DoRecover(secret);
            var t' := TaskService.Transact(w.tasks[task], op, c.now);
            var w' := DeliverStep(w, id, c);
            && (w'.Some? <==> TaskService.Commits(w.tasks[task], op, c.now))
            && (w'.Some? ==> w'.value.tasks == w.tasks[task := t'] && OnlyTasks(w, w'.value, id, Answered(Rotation.Ok))
                             && w'.value.history[task].stored == w.history[task].stored + {t'.candidate})
  {
  }

  /** A claim likewise, for any task the API picks; the worker is handed the task's secret
      and candidate, and a token that was never used before. */
  lemma ClaimDelivery(w: World, id: nat, c: Chance)
    requires id in w.net && w.net[id].ClaimMessage? && w.nextToken > 0 && c.task in w.tasks && c.task in w.history
    ensures var t := w.tasks[c.task];
            var op := TaskService.DoClaim(w.nextToken, 1);
            var w' := DeliverStep(w, id, c);
            && (w'.Some? <==> TaskService.Commits(t, op, c.now))
            && (w'.Some? ==> w'.value.tasks == w.tasks[c.task := TaskService.Transact(t, op, c.now)]
                             && w'.value.nextToken == w.nextToken + 1 && w'.value.credentials == w.credentials)
            && (w'.Some? ==> id in w'.value.replies && w'.value.replies[id].Granted? && w'.value.replies[id].token == w.nextToken)
            && (w'.Some? ==>
                  var claim := w'.value.replies[id].claim;
                  claim.task == c.task && claim.secret == t.secret && claim.candidate == Str(t.candidate)
                  && claim.action == match t.action
                                     case Rotate => Rotation.RotateKey
                                     case VerifyNew => Rotation.VerifyNewKey
                                     case VerifyOld => Rotation.VerifyOldKey
                                     case LoginOnly => Rotation.OtherAction)
  {
    TaskTransactions.ClaimExactly(w.tasks[c.task], w.nextToken, 1, c.now);
  }

  /** The clock expires a claim that has lapsed, whenever it is looked at. */
  lemma ExpiryStep(w: World, task: int, now: real)
    requires task in w.tasks
    ensures Apply(w, Expire(task, now))
            == Some(w.(tasks := w.tasks[task := TaskService.Transact(w.tasks[task], TaskService.DoNothing, now)]))
  {
  }

  /** An administrator's decision about an uncertain task is a transaction too. */
  lemma ReconcileStep(w: World, task: int, action: TaskService.Action, now: real)
    requires task in w.tasks && w.tasks[task].state == TaskService.Uncertain
    ensures var op := TaskService.DoReconcile(action);
            Apply(w, Reconcile(task, action))
            == if TaskService.Commits(w.tasks[task], op, now)
               then Some(w.(tasks := w.tasks[task := TaskService.Transact(w.tasks[task], op, now)])) else None
  {
  }

  /** A rotation is queued exactly for a new task of an account with a credential and
      without an open task; it starts with that credential and the rest is as it was. */
  lemma QueueingStep(w: World, task: int, account: int)
    ensures var w' := Apply(w, QueueRotation(task, account));
            && (w'.Some? <==> task !in w.tasks && 0 < task <= 9007199254740991 && account in w.credentials && !AccountBusy(w, account))
            && (w'.Some? ==> w'.value.credentials == w.credentials && w'.value.current == w.current && w'.value.journal == w.journal)
            && (w'.Some? ==>
                  && task in w'.value.tasks && w'.value.tasks == w.tasks[task := w'.value.tasks[task]]
                  && var t := w'.value.tasks[task];
                     t.account == account && t.operation == TaskService.TotpRotation && t.action == TaskService.Rotate
                     && t.state == TaskService.Queued && t.secret == w.credentials[account] && !t.hasCandidate && t.token == 0)
  {
  }

  /** A login is answered with success exactly if the secret is the one the account
      accepts, spaces, case and padding aside; what the account accepts stays as it is. */
  lemma LoginDelivery(w: World, id: nat, c: Chance)
    requires id in w.net && w.net[id].LoginMessage? && w.net[id].task in w.tasks && w.net[id].task in w.history
    requires w.tasks[w.net[id].task].account in w.current
    ensures var LoginMessage(task, secret) := w.net[id];
            var w' := DeliverStep(w, id, c);
            w'.Some? && w'.value.current == w.current && w'.value.tasks == w.tasks && id in w'.value.replies
            && (w'.value.replies[id] == Answered(Rotation.LoggedIn) <==>
                  secret.Str? && Secrets.Canonical(secret.s) == Secrets.Canonical(w.current[w.tasks[task].account]))
            && w'.value.replies[id] in {Answered(Rotation.LoggedIn), Answered(Rotation.Refused)}
  {
  }

  /** From an activation on the account accepts its secret, and no other account changes. */
  lemma ActivationDelivery(w: World, id: nat, c: Chance)
    requires id in w.net && w.net[id].ActivateMessage? && w.net[id].task in w.tasks && w.net[id].task in w.history
    ensures var ActivateMessage(task, secret) := w.net[id];
            var w' := DeliverStep(w, id, c);
            w'.Some? && w'.value.current == w.current[w.tasks[task].account := secret]
            && w'.value.tasks == w.tasks && w'.value.credentials == w.credentials && w'.value.journal == w.journal
  {
  }

  // ----- recovery, in every run

  /** In every run, whenever it arrives: the secret that the worker replays for an
      uncertain rotation without a candidate is stored if the API takes it at all, and what
      is stored then is the journalled candidate. */
  lemma RecoveryIsStored(ws: seq<World>, i: nat, id: nat, chance: Chance)
    requires IsRun(ws) && i < |ws| && id in ws[i].net && ws[i].net[id].RecoverMessage?
    ensures var w := ws[i];
            var RecoverMessage(task, secret) := w.net[id];
            task in w.tasks && task in w.history && SavedAs(w.journal, task, secret) &&
            var t := w.tasks[task];
            var w' := Apply(w, Deliver(id, chance));
            && t.operation == TaskService.TotpRotation
            && (w'.Some? <==>
                  TaskTransactions.Unsettled(t, chance.now) && !t.hasCandidate && TaskTransactions.NewKey(t, secret))
            && (w'.Some? ==>
                  var t' := w'.value.tasks[task];
                  && t'.state == TaskService.Uncertain && t'.hasCandidate
                  && Holds(w'.value.journal, task, t'.candidate) && t'.previous == t.secret && t'.secret == t.secret
                  && w'.value.history[task].stored == w.history[task].stored + {t'.candidate})
  {
    var w := ws[i];
    ReachableOk(ws, i);
    assert MessageAt(w, id);
    var RecoverMessage(task, secret) := w.net[id];
    assert TaskAt(w, task);
    RecoveryDelivery(w, id, chance);
    TaskTransactions.RecoverExactly(w.tasks[task], secret, chance.now);
    TaskTransactions.ExpireExactly(w.tasks[task], chance.now);
  }

  /** In particular for a rotation that its worker left after the enrolment was posted and
      before the candidate was stored, once its claim has lapsed. */
  lemma AbandonedIsStored(ws: seq<World>, i: nat, id: nat, chance: Chance)
    requires IsRun(ws) && i < |ws| && id in ws[i].net && ws[i].net[id].RecoverMessage?
    requires ws[i].net[id].task in ws[i].tasks
    requires var t := ws[i].tasks[ws[i].net[id].task];
             && t.action == TaskService.Rotate && !t.hasCandidate && TaskTransactions.NewKey(t, ws[i].net[id].secret)
             && (t.state == TaskService.Uncertain || (t.state == TaskService.Enrolling && TaskTransactions.Lapsed(t, chance.now)))
    ensures var task := ws[i].net[id].task;
            var w' := Apply(ws[i], Deliver(id, chance));
            && w'.Some? && task in w'.value.tasks && w'.value.tasks[task].hasCandidate
            && Holds(w'.value.journal, task, w'.value.tasks[task].candidate)
  {
    RecoveryIsStored(ws, i, id, chance);
    var t := ws[i].tasks[ws[i].net[id].task];
    assert TaskTransactions.Unsettled(t, chance.now);
  }
}
