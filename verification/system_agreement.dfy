/** What the API knows of the secret that an upstream account accepts: exactly when it
    holds it, in every world of every run and after every accepted success. */
module SystemAgreement {
  import opened Values
  import Secrets
  import RecoveryJournal
  import TaskService
  import Rotation
  import opened System
  import opened SystemInvariant
  import opened SystemSteps
  import opened SystemOutcomes
  import opened SystemWorker
  import opened SystemTheorems

  // ----- where the accepted secret comes from

  /** The secret that account `a` accepts is one that task `u` has sent an activation for. */
  ghost predicate Carries(w: World, a: int, u: int) {
    && a in w.current && u in w.tasks && u in w.history && w.tasks[u].account == a
    && w.current[a] in w.history[u].activated
  }

  /** An account is only late for a secret that some task has activated. */
  ghost predicate CarriedAt(w: World, a: int) {
    a in w.late ==> exists u :: Carries(w, a, u)
  }

  /** A return to the old secret was overtaken by the secret the account accepts, unless a
      closed task's came in between. */
  ghost predicate OvertakenAt(w: World, u: int) {
    u in w.tasks && u in w.history && Open(w.tasks[u]) && w.history[u].overtaken && w.tasks[u].account !in w.late ==>
      Carries(w, w.tasks[u].account, u)
  }

  ghost predicate Traced(w: World) {
    && (forall a {:trigger CarriedAt(w, a)} :: CarriedAt(w, a))
    && (forall u {:trigger OvertakenAt(w, u)} :: OvertakenAt(w, u))
  }

  // ----- steps that leave it alone

  ghost predicate SteadyTask(t: Task, h: History, t': Task, h': History) {
    && t'.account == t.account && (Open(t') ==> Open(t)) && h'.overtaken == h.overtaken
    && forall s :: s in h.activated ==> s in h'.activated
  }

  ghost predicate SteadyAt(w: World, w': World, u: int) {
    && (u in w.tasks && u in w.history ==>
          u in w'.tasks && u in w'.history && SteadyTask(w.tasks[u], w.history[u], w'.tasks[u], w'.history[u]))
    && (u in w'.tasks && u in w'.history && !(u in w.tasks && u in w.history) ==> !w'.history[u].overtaken)
  }

  ghost predicate Steady(w: World, w': World) {
    w'.current == w.current && w'.late == w.late && forall u {:trigger SteadyAt(w, w', u)} :: SteadyAt(w, w', u)
  }

  lemma CarriesStill(w: World, w': World, a: int, u: int)
    requires Carries(w, a, u) && SteadyAt(w, w', u) && a in w'.current && w'.current[a] == w.current[a]
    ensures Carries(w', a, u)
  {
  }

  lemma SteadyKeeps(w: World, w': World)
    requires Traced(w) && Steady(w, w')
    ensures Traced(w')
  {
    forall a ensures CarriedAt(w', a) {
      assert CarriedAt(w, a);
      if a in w'.late {
        var u :| Carries(w, a, u);
        assert SteadyAt(w, w', u);
        CarriesStill(w, w', a, u);
      }
    }
    forall u ensures OvertakenAt(w', u) {
      assert OvertakenAt(w, u) && SteadyAt(w, w', u);
    }
  }

  lemma SameSteady(w: World, w': World)
    requires w'.tasks == w.tasks && w'.history == w.history && w'.current == w.current && w'.late == w.late
    ensures Steady(w, w')
  {
    forall u ensures SteadyAt(w, w', u) {
    }
  }

  lemma TaskSteady(w: World, w': World, id: int, t': Task, h': History)
    requires id in w.tasks && id in w.history && SteadyTask(w.tasks[id], w.history[id], t', h')
    requires w'.tasks == w.tasks[id := t'] && w'.history == w.history[id := h']
    requires w'.current == w.current && w'.late == w.late
    ensures Steady(w, w')
  {
    forall u ensures SteadyAt(w, w', u) {
    }
  }

  ghost predicate TransactionStep(step: Step) {
    step.Reconcile? || step.Expire? || step.FailQueued? || step.Renew?
  }

  lemma TransactionSteady(w: World, step: Step)
    requires Shape(w) && Apply(w, step).Some? && TransactionStep(step)
    ensures Steady(w, Apply(w, step).value)
  {
    var w' := Apply(w, step).value;
    assert w'.history == w.history[step.task := w.history[step.task]];
    TaskSteady(w, w', step.task, w'.tasks[step.task], w.history[step.task]);
  }

  lemma QueueSteady(w: World, id: int, account: int)
    requires Shape(w) && QueueStep(w, id, account).Some?
    ensures Steady(w, QueueStep(w, id, account).value)
  {
    var w' := QueueStep(w, id, account).value;
    forall u ensures SteadyAt(w, w', u) {
    }
  }

  lemma ClaimSteady(w: World, id: nat, c: Chance)
    requires DeliverClaim(w, id, c).Some?
    ensures Steady(w, DeliverClaim(w, id, c).value)
  {
    var w' := DeliverClaim(w, id, c).value;
    TaskSteady(w, w', c.task, w'.tasks[c.task], w'.history[c.task]);
  }

  lemma PhaseSteady(w: World, id: nat, task: int, token: nat, phase: PhaseName, secret: string, now: real)
    requires DeliverPhase(w, id, task, token, phase, secret, now).Some?
    ensures Steady(w, DeliverPhase(w, id, task, token, phase, secret, now).value)
  {
    var w' := DeliverPhase(w, id, task, token, phase, secret, now).value;
    TaskSteady(w, w', task, w'.tasks[task], w'.history[task]);
  }

  lemma RecoverSteady(w: World, id: nat, task: int, secret: string, now: real)
    requires DeliverRecover(w, id, task, secret, now).Some?
    ensures Steady(w, DeliverRecover(w, id, task, secret, now).value)
  {
    var w' := DeliverRecover(w, id, task, secret, now).value;
    TaskSteady(w, w', task, w'.tasks[task], w'.history[task]);
  }

  lemma RunSteady(w: World, step: Step)
    requires Apply(w, step).Some?
    requires step.Fence? || step.Receive? || step.GiveUp? || step.Proceed? || step.UseJournal?
    ensures Steady(w, Apply(w, step).value)
  {
    SameSteady(w, Apply(w, step).value);
  }

  lemma PassSteady(w: World, step: Step)
    requires Apply(w, step).Some?
    requires step.SendRecovery? || step.ConfirmRecovered? || step.SendClaim? || step.ClaimReply? || step.Lose?
    ensures Steady(w, Apply(w, step).value)
  {
    SameSteady(w, Apply(w, step).value);
  }

  lemma SendSteady(w: World)
    requires Shape(w) && SendStep(w).Some?
    ensures Steady(w, SendStep(w).value)
  {
    var w' := SendStep(w).value;
    var task := w.worker.local.claim.task;
    assert w'.tasks == w.tasks[task := w.tasks[task]];
    TaskSteady(w, w', task, w.tasks[task], w'.history[task]);
  }

  // ----- steps that matter

  /** A success leaves the account late only if the task's own activation had overtaken it,
      or the account was late before. */
  lemma SuccessTraced(w: World, task: int, t': Task)
    requires Ok(w) && Traced(w) && task in w.tasks && Succeeds(w, task, t')
    ensures Traced(System.Succeeded(w, task, t'))
  {
    var w' := System.Succeeded(w, task, t');
    forall u ensures SteadyAt(w, w', u) {
    }
    forall a ensures CarriedAt(w', a) {
      assert CarriedAt(w, a) && OvertakenAt(w, task);
      if a in w'.late {
        var u :| Carries(w, a, u);
        assert SteadyAt(w, w', u);
        CarriesStill(w, w', a, u);
      }
    }
    forall u ensures OvertakenAt(w', u) {
      assert OvertakenAt(w, u) && SteadyAt(w, w', u);
    }
  }

  lemma ConfirmedTraced(w: World, task: int)
    requires Ok(w) && Traced(w) && task in w.tasks && Open(w.tasks[task])
    ensures Traced(Confirmed(w, task))
  {
    var w' := Confirmed(w, task);
    forall a ensures CarriedAt(w', a) {
      assert CarriedAt(w, a);
      if a in w'.late {
        var u :| Carries(w, a, u);
        assert Carries(w', a, u);
      }
    }
    forall u ensures OvertakenAt(w', u) {
      assert OvertakenAt(w, u) && TaskAt(w, task) && TaskAt(w, u);
    }
  }

  lemma ActivatedTraced(w: World, task: int, secret: string)
    requires Ok(w) && Traced(w) && task in w.tasks && secret in w.history[task].activated
    ensures Traced(Activated(w, task, secret))
  {
    var w' := Activated(w, task, secret);
    assert TaskAt(w, task) && Carries(w', w.tasks[task].account, task);
    forall a ensures CarriedAt(w', a) {
      assert CarriedAt(w, a);
      if a in w'.late && a != w.tasks[task].account {
        var u :| Carries(w, a, u);
        assert Carries(w', a, u);
      }
    }
    forall u ensures OvertakenAt(w', u) {
      assert OvertakenAt(w, u) && TaskAt(w, u);
    }
  }

  lemma DeliveryTraced(w: World, id: nat, c: Chance)
    requires Ok(w) && Traced(w) && DeliverStep(w, id, c).Some?
    ensures Traced(DeliverStep(w, id, c).value)
  {
    assert MessageAt(w, id);
    match w.net[id]
    case FinishMessage(task, token, success) => FinishTraced(w, id, task, token, success, c.now);
    case LoginMessage(task, secret) => LoginTraced(w, id, task, secret);
    case ActivateMessage(task, secret) => ActivationTraced(w, id, task, secret);
    case _ =>
      QuietSteady(w, id, c);
      SteadyKeeps(w, DeliverStep(w, id, c).value);
  }

  lemma QuietSteady(w: World, id: nat, c: Chance)
    requires DeliverStep(w, id, c).Some?
    requires !w.net[id].FinishMessage? && !w.net[id].LoginMessage? && !w.net[id].ActivateMessage?
    ensures Steady(w, DeliverStep(w, id, c).value)
  {
    match w.net[id]
    case ClaimMessage => ClaimSteady(w, id, c);
    case PhaseMessage(task, token, phase, secret) => PhaseSteady(w, id, task, token, phase, secret, c.now);
    case RecoverMessage(task, secret) => RecoverSteady(w, id, task, secret, c.now);
    case EnrollMessage(_) => SameSteady(w, DeliverStep(w, id, c).value);
  }

  lemma ActivationTraced(w: World, id: nat, task: int, secret: string)
    requires Ok(w) && Traced(w) && task in w.tasks && secret in w.history[task].activated
    requires DeliverActivate(w, id, task, secret).Some?
    ensures Traced(DeliverActivate(w, id, task, secret).value)
  {
    ActivatedTraced(w, task, secret);
    SameSteady(Activated(w, task, secret), DeliverActivate(w, id, task, secret).value);
    SteadyKeeps(Activated(w, task, secret), DeliverActivate(w, id, task, secret).value);
  }

  lemma FinishTraced(w: World, id: nat, task: int, token: nat, success: bool, now: real)
    requires Ok(w) && Traced(w) && DeliverFinish(w, id, task, token, success, now).Some?
    ensures Traced(DeliverFinish(w, id, task, token, success, now).value)
  {
    var w' := DeliverFinish(w, id, task, token, success, now).value;
    FinishIs(w, id, task, token, success, now);
    assert TaskAt(w, task);
    FinishFacts(w.tasks[task], token, success, now);
    var t' := Finished(w.tasks[task], token, success, now).value;
    if success {
      SuccessSucceeds(w, task, token, now);
      SuccessTraced(w, task, t');
      SameSteady(System.Succeeded(w, task, t'), w');
      SteadyKeeps(System.Succeeded(w, task, t'), w');
    } else {
      assert w'.history == w.history[task := w.history[task]];
      TaskSteady(w, w', task, t', w.history[task]);
      SteadyKeeps(w, w');
    }
  }

  lemma LoginTraced(w: World, id: nat, task: int, secret: Json)
    requires Ok(w) && Traced(w) && DeliverLogin(w, id, task, secret).Some?
    ensures Traced(DeliverLogin(w, id, task, secret).value)
  {
    var w' := DeliverLogin(w, id, task, secret).value;
    var w1 := if SameKey(secret, w.current[w.tasks[task].account]) then LoggedIn(w, task, secret) else w;
    if w1 != w {
      ConfirmedTraced(w, task);
    }
    SameSteady(w1, w');
    SteadyKeeps(w1, w');
  }

  lemma StepTraced(w: World, step: Step)
    requires Ok(w) && Traced(w) && Apply(w, step).Some?
    ensures Traced(Apply(w, step).value)
  {
    if step.Deliver? {
      DeliveryTraced(w, step.id, step.chance);
    } else {
      OtherSteady(w, step);
      SteadyKeeps(w, Apply(w, step).value);
    }
  }

  lemma OtherSteady(w: World, step: Step)
    requires Ok(w) && Apply(w, step).Some? && !step.Deliver?
    ensures Steady(w, Apply(w, step).value)
  {
    if Polling(step) {
      PollingIs(w, step);
      SameSteady(w, Apply(w, step).value);
    } else if TransactionStep(step) {
      TransactionSteady(w, step);
    } else if step.QueueRotation? {
      QueueSteady(w, step.task, step.account);
    } else if step.Send? {
      SendSteady(w);
    } else if step.SendRecovery? || step.ConfirmRecovered? || step.SendClaim? || step.ClaimReply? || step.Lose? {
      PassSteady(w, step);
    } else {
      RunSteady(w, step);
    }
  }

  lemma FollowsTraced(w: World, w': World)
    requires Ok(w) && Traced(w) && Follows(w, w')
    ensures Traced(w')
  {
    var step: Step :| Apply(w, step) == Some(w');
    StepTraced(w, step);
  }

  lemma {:induction false} ReachableTraced(ws: seq<World>, i: nat)
    requires IsRun(ws) && i < |ws|
    ensures Traced(ws[i])
  {
    if i > 0 {
      ReachableTraced(ws, i - 1);
      ReachableOk(ws, i - 1);
      assert StepTo(ws, i);
      FollowsTraced(ws[i - 1], ws[i]);
    }
  }

  // ----- late activations

  /** Another task of the account gave it this very secret: the one whose success last
      gave the account a new key, or an open one that stores it. */
  ghost predicate Repeats(w: World, account: int, task: int, other: int, secret: string) {
    other != task && other in w.tasks && w.tasks[other].account == account
    && ((account in w.keeper && w.keeper[account] == other && SameSecret(secret, w.tasks[other].secret))
        || HoldsSecret(w, account, other, secret))
  }

  /** A task whose activation has been sent and that is closed has succeeded, with a new
      key or back to the old one. */
  lemma ClosedHasSucceeded(w: World, task: int, secret: string)
    requires Shape(w) && task in w.tasks && TaskAt(w, task) && secret in w.history[task].activated && !Open(w.tasks[task])
    ensures var t := w.tasks[task];
            t.state == TaskService.Succeeded && (SameSecret(secret, t.secret) <==> t.action != TaskService.VerifyOld)
  {
    var t := w.tasks[task];
    SentFacts(task, t, w.history[task], w.journal, secret);
    if t.action != TaskService.VerifyOld {
      StoredIsTheSame(w.journal, task, secret, t.secret);
    }
  }

  lemma StoredIsTheSame(j: Store, task: int, secret: string, stored: string)
    requires SavedAs(j, task, secret) && Holds(j, task, stored)
    ensures SameSecret(secret, stored)
  {
    Secrets.SameSecret(secret);
  }

  /** What the API holds once an activation has been delivered. */
  lemma AfterActivation(w: World, id: nat, chance: Chance)
    requires Ok(w) && id in w.net && w.net[id].ActivateMessage?
    ensures var ActivateMessage(task, secret) := w.net[id];
            task in w.tasks &&
            var account := w.tasks[task].account;
            var w' := Apply(w, Deliver(id, chance));
            && w'.Some? && account in w.credentials && SavedAs(w'.value.journal, task, secret)
            && (Open(w.tasks[task]) ==> ApiHolds(w'.value, account))
            && (ApiHolds(w'.value, account) <==> SameSecret(secret, w.credentials[account]) || exists t :: HoldsSecret(w, account, t, secret))
  {
    assert MessageAt(w, id);
    var ActivateMessage(task, secret) := w.net[id];
    assert TaskAt(w, task);
    var account := w.tasks[task].account;
    ActivatedIsStored(w, task, secret);
    var w' := Apply(w, Deliver(id, chance)).value;
    StoresAfter(w, w', account, secret);
    if Open(w.tasks[task]) {
      assert HoldsSecret(w, account, task, secret);
    }
  }

  lemma StoresAfter(w: World, w': World, account: int, secret: string)
    requires w'.tasks == w.tasks && account in w'.current && w'.current[account] == secret
    ensures forall t :: Stores(w', account, t) <==> HoldsSecret(w, account, t, secret)
  {
  }

  /** What an activation that arrives after its task was closed does. The task has
      succeeded. If it is the account's last task, the API holds the key the upstream now
      accepts exactly if the task did not go back to the old secret. In general it does
      exactly if the account's last new key is the task's own, or another task of the
      account was given the same secret. The journal holds the key in any case. */
  lemma LateActivation(ws: seq<World>, i: nat, id: nat, chance: Chance)
    requires IsRun(ws) && i < |ws| && id in ws[i].net && ws[i].net[id].ActivateMessage?
    requires ws[i].net[id].task in ws[i].tasks && !Open(ws[i].tasks[ws[i].net[id].task])
    ensures var w := ws[i];
            var ActivateMessage(task, secret) := w.net[id];
            var t := w.tasks[task];
            var w' := Apply(w, Deliver(id, chance));
            && t.state == TaskService.Succeeded && w'.Some? && SavedAs(w'.value.journal, task, secret)
            && (t.account in w.last && w.last[t.account] == task ==>
                  (ApiHolds(w'.value, t.account) <==> t.action != TaskService.VerifyOld))
            && (ApiHolds(w'.value, t.account) <==>
                  (t.account in w.keeper && w.keeper[t.account] == task)
                  || exists other :: Repeats(w, t.account, task, other, secret))
  {
    var w := ws[i];
    ReachableOk(ws, i);
    assert MessageAt(w, id);
    var ActivateMessage(task, secret) := w.net[id];
    assert TaskAt(w, task) && AccountAt(w, w.tasks[task].account);
    AfterActivation(w, id, chance);
    ClosedHasSucceeded(w, task, secret);
    LastDecides(w, task, secret);
    KeeperDecides(w, task, secret);
    OthersDecide(w, task, secret);
  }

  /** For the account's last task nothing else is open and the credential is its own
      secret. */
  lemma LastDecides(w: World, task: int, secret: string)
    requires Shape(w) && TasksOk(w) && task in w.tasks && w.tasks[task].account in w.current
    requires AccountAt(w, w.tasks[task].account)
    requires secret in w.history[task].activated && !Open(w.tasks[task])
    ensures var account := w.tasks[task].account;
            account in w.last && w.last[account] == task ==>
              && (SameSecret(secret, w.credentials[account]) <==> w.tasks[task].action != TaskService.VerifyOld)
              && forall t :: !HoldsSecret(w, account, t, secret)
  {
    var account := w.tasks[task].account;
    assert TaskAt(w, task);
    ClosedHasSucceeded(w, task, secret);
    if account in w.last && w.last[account] == task {
      forall t ensures !HoldsSecret(w, account, t, secret) {
        assert TaskAt(w, t);
      }
    }
  }

  /** An open task that stores the secret, or a keeper that has it, is another task. */
  lemma OthersDecide(w: World, task: int, secret: string)
    requires Shape(w) && task in w.tasks && w.tasks[task].account in w.current && !Open(w.tasks[task])
    requires AccountAt(w, w.tasks[task].account)
    ensures var account := w.tasks[task].account;
            (exists other :: Repeats(w, account, task, other, secret)) <==>
            (account in w.keeper && w.keeper[account] != task && SameSecret(secret, w.tasks[w.keeper[account]].secret))
            || exists t :: HoldsSecret(w, account, t, secret)
  {
    var account := w.tasks[task].account;
    if account in w.keeper && w.keeper[account] != task && SameSecret(secret, w.tasks[w.keeper[account]].secret) {
      assert Repeats(w, account, task, w.keeper[account], secret);
    }
    if exists t :: HoldsSecret(w, account, t, secret) {
      var t :| HoldsSecret(w, account, t, secret);
      assert Repeats(w, account, task, t, secret);
    }
  }

  /** The credential is the secret exactly if the keeper is the task, or has the same
      secret. */
  lemma KeeperDecides(w: World, task: int, secret: string)
    requires Shape(w) && task in w.tasks && TaskAt(w, task) && w.tasks[task].account in w.current
    requires AccountAt(w, w.tasks[task].account)
    requires secret in w.history[task].activated && !Open(w.tasks[task])
    ensures var account := w.tasks[task].account;
            SameSecret(secret, w.credentials[account]) <==>
            account in w.keeper && (w.keeper[account] == task || SameSecret(secret, w.tasks[w.keeper[account]].secret))
  {
    ClosedHasSucceeded(w, task, secret);
  }

  ghost predicate HoldsSecret(w: World, account: int, t: int, secret: string) {
    t in w.tasks && w.tasks[t].account == account && Open(w.tasks[t]) && w.tasks[t].hasCandidate
    && SameSecret(secret, w.tasks[t].candidate)
  }

  // ----- what the API holds, in every world

  /** How the API can know the accepted secret when it is one of task `u`: the task is
      open, its success last gave the account a new key, or another task repeats it. */
  ghost predicate KnownThrough(w: World, a: int, u: int)
    requires a in w.current && u in w.tasks
  {
    Open(w.tasks[u]) || (a in w.keeper && w.keeper[a] == u) || exists other :: Repeats(w, a, u, other, w.current[a])
  }

  /** The API holds the accepted secret exactly if each task that carries it tells it. */
  ghost predicate AllKnown(w: World, a: int)
    requires a in w.current
  {
    forall u :: Carries(w, a, u) ==> KnownThrough(w, a, u)
  }

  /** If the account's last task carries the secret, its action decides. */
  ghost predicate LastKnows(w: World, a: int) {
    a in w.last && w.last[a] in w.tasks && (Open(w.tasks[w.last[a]]) || w.tasks[w.last[a]].action != TaskService.VerifyOld)
  }

  lemma StoresIsHolding(w: World, a: int)
    requires a in w.current
    ensures forall t :: Stores(w, a, t) <==> HoldsSecret(w, a, t, w.current[a])
  {
  }

  lemma CarrierDecides(w: World, a: int, u: int)
    requires Ok(w) && Carries(w, a, u)
    ensures ApiHolds(w, a) <==> KnownThrough(w, a, u)
    ensures a in w.last && w.last[a] == u ==> (ApiHolds(w, a) <==> LastKnows(w, a))
  {
    assert TaskAt(w, u) && AccountAt(w, a);
    StoresIsHolding(w, a);
    if Open(w.tasks[u]) {
      ActivatedIsStored(w, u, w.current[a]);
      assert Stores(w, a, u);
    } else {
      LastDecides(w, u, w.current[a]);
      KeeperDecides(w, u, w.current[a]);
      OthersDecide(w, u, w.current[a]);
    }
  }

  /** A secret that no task carries is the account's credential. */
  lemma HoldsExactly(w: World, a: int)
    requires Ok(w) && Traced(w) && a in w.current
    ensures ApiHolds(w, a) <==> AllKnown(w, a)
    ensures a in w.last && Carries(w, a, w.last[a]) ==> (ApiHolds(w, a) <==> LastKnows(w, a))
    ensures a !in w.late ==> ApiHolds(w, a)
  {
    assert AccountAt(w, a) && CarriedAt(w, a);
    forall u | Carries(w, a, u) ensures ApiHolds(w, a) <==> KnownThrough(w, a, u) {
      CarrierDecides(w, a, u);
    }
    if a in w.last && Carries(w, a, w.last[a]) {
      CarrierDecides(w, a, w.last[a]);
    }
  }

  lemma IdleHoldsCredential(w: World, a: int)
    requires Shape(w) && a in w.current && !AccountBusy(w, a)
    ensures ApiHolds(w, a) <==> SameSecret(w.current[a], w.credentials[a])
  {
    assert forall u :: Stores(w, a, u) ==> AccountBusy(w, a);
  }

  /** In every world of every run the API holds the secret an account accepts, as its
      credential or as the candidate of its open task, if and only if each task that
      activated this secret is open or gave the account its last new key, or another task
      repeats it. If the account's last task activated it, then if and only if that task is
      open or did not go back to the old secret. In particular the API holds the secret
      outside `late`, and with no open task the credential is what it holds. */
  lemma ApiKnowsTheSecret(ws: seq<World>, i: nat, account: int)
    requires IsRun(ws) && i < |ws| && account in ws[i].current
    ensures var w := ws[i];
            && account in w.credentials
            && (ApiHolds(w, account) <==> AllKnown(w, account))
            && (account in w.last && Carries(w, account, w.last[account]) ==> (ApiHolds(w, account) <==> LastKnows(w, account)))
            && (account !in w.late ==> ApiHolds(w, account))
            && (!AccountBusy(w, account) ==> (ApiHolds(w, account) <==> SameSecret(w.current[account], w.credentials[account])))
  {
    ReachableOk(ws, i);
    ReachableTraced(ws, i);
    HoldsExactly(ws[i], account);
    if !AccountBusy(ws[i], account) {
      IdleHoldsCredential(ws[i], account);
    }
  }

  // ----- success

  /** The world in which the success of `task` has been accepted. */
  ghost predicate AcceptedIn(w: World, w': World, task: int) {
    && task in w.tasks && task in w.history && task in w'.tasks
    && w'.tasks[task].state == TaskService.Succeeded && w'.tasks[task].account == w.tasks[task].account
    && w'.tasks[task].action == w.tasks[task].action
    && w.tasks[task].account in w'.credentials && w.tasks[task].account in w'.current
  }

  ghost predicate CredentialIsCurrent(w': World, account: int)
    requires account in w'.current && account in w'.credentials
  {
    SameSecret(w'.current[account], w'.credentials[account])
  }

  /** When a success report is accepted, however late it arrives, it makes the journalled
      candidate the account's credential, or for `verify_old` restores the old secret. The
      credential is then the secret the upstream accepts if and only if each task that
      activated that secret gave the account its last new key, or another task repeats it;
      for a secret the task itself activated, if and only if it did not go back to the old
      one; and for an account that is not late, if and only if no return to the old secret
      was overtaken by the task's own activation. */
  lemma AcceptedSuccessIsTrue(ws: seq<World>, i: nat, id: nat, chance: Chance)
    requires IsRun(ws) && i < |ws| && id in ws[i].net && ws[i].net[id].FinishMessage? && ws[i].net[id].success
    requires Apply(ws[i], Deliver(id, chance)).Some?
    ensures var w := ws[i];
            var task := w.net[id].task;
            var w' := Apply(w, Deliver(id, chance)).value;
            AcceptedIn(w, w', task) &&
            var t := w.tasks[task];
            && (CredentialIsCurrent(w', t.account) <==> AllKnown(w', t.account))
            && (Carries(w', t.account, task) ==> (CredentialIsCurrent(w', t.account) <==> t.action != TaskService.VerifyOld))
            && (t.account !in w.late ==>
                  (CredentialIsCurrent(w', t.account) <==> !(t.action == TaskService.VerifyOld && w.history[task].overtaken)))
            && (if t.action == TaskService.VerifyOld then w'.credentials == w.credentials
                else Holds(w.journal, task, w'.credentials[t.account]))
  {
    ReachableOk(ws, i);
    ReachableTraced(ws, i);
    var w := ws[i];
    var task := w.net[id].task;
    var w' := Apply(w, Deliver(id, chance)).value;
    StepKeeps(w, Deliver(id, chance));
    StepTraced(w, Deliver(id, chance));
    SuccessIsAccepted(w, id, chance);
    var t := w.tasks[task];
    LastIsClosed(w', t.account, task);
    HoldsExactly(w', t.account);
    if t.action == TaskService.VerifyOld && w.history[task].overtaken && t.account !in w.late {
      assert OvertakenAt(w, task);
      OvertakenIsFalse(w, task);
    }
  }

  /** With a closed last task nothing of the account is open. */
  lemma LastIsClosed(w: World, account: int, task: int)
    requires Ok(w) && account in w.current && account in w.last && w.last[account] == task && task in w.tasks && !Open(w.tasks[task])
    ensures ApiHolds(w, account) <==> CredentialIsCurrent(w, account)
  {
    forall u | u in w.tasks && w.tasks[u].account == account ensures Open(w.tasks[u]) ==> u == task {
      assert TaskAt(w, u);
    }
    IdleHoldsCredential(w, account);
  }

  /** The activated secret of a task that goes back is not the one it goes back to. */
  lemma OvertakenIsFalse(w: World, task: int)
    requires Shape(w) && task in w.tasks && TaskAt(w, task) && Open(w.tasks[task]) && Carries(w, w.tasks[task].account, task)
    ensures var a := w.tasks[task].account;
            !SameSecret(w.current[a], w.tasks[task].secret) && w.tasks[task].secret == w.credentials[a]
  {
    var t := w.tasks[task];
    SentFacts(task, t, w.history[task], w.journal, w.current[t.account]);
  }

  lemma SuccessIsAccepted(w: World, id: nat, chance: Chance)
    requires Ok(w) && id in w.net && w.net[id].FinishMessage? && w.net[id].success
    requires Apply(w, Deliver(id, chance)).Some?
    ensures var task := w.net[id].task;
            var w' := Apply(w, Deliver(id, chance)).value;
            AcceptedIn(w, w', task) && Open(w.tasks[task]) &&
            var t := w.tasks[task];
            && w'.current == w.current && t.account in w'.last && w'.last[t.account] == task
            && (t.account !in w.late && (t.action == TaskService.VerifyOld ==> !w.history[task].overtaken) ==> CredentialIsCurrent(w', t.account))
            && (if t.action == TaskService.VerifyOld then w'.credentials == w.credentials
                else Holds(w.journal, task, w'.credentials[t.account]))
  {
    var FinishMessage(task, token, success) := w.net[id];
    assert MessageAt(w, id) && TaskAt(w, task);
    FinishIs(w, id, task, token, true, chance.now);
    FinishFacts(w.tasks[task], token, true, chance.now);
    SuccessSucceeds(w, task, token, chance.now);
  }
}
