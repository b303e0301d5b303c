/** What holds of every run of the rotation system: any number of tasks, crashes,
    restarts, recovery passes and reconciliations, with any request lost or late. */
module SystemTheorems {
  import opened Values
  import Secrets
  import RecoveryJournal
  import TaskService
  import Rotation
  import opened System
  import opened SystemInvariant
  import opened SystemSteps
  import opened SystemOutcomes
  import opened SystemWorker

  lemma InitialOk(w: World)
    requires Initial(w)
    ensures Ok(w)
  {
    forall id ensures TaskAt(w, id) {
    }
    forall m ensures MessageAt(w, m) {
    }
    forall a ensures AccountAt(w, a) {
    }
  }

  lemma TaskStepKeeps(w: World, step: Step)
    requires Ok(w) && Apply(w, step).Some? && (step.Reconcile? || step.Expire? || step.FailQueued? || step.Renew?)
    ensures Ok(Apply(w, step).value)
  {
    match step
    case Reconcile(task, action) => ReconcileKeeps(w, task, action);
    case Expire(task, now) => ExpireKeeps(w, task, now);
    case FailQueued(task) => FailQueuedKeeps(w, task);
    case Renew(task, now) => RenewKeeps(w, task, now);
  }

  /** Steps that only move the worker between its own states. */
  predicate Polling(step: Step) {
    step.Crash? || step.Restart? || step.Poll? || step.AbortRecovery? || step.SkipRecord? || step.RecoveryReply?
    || step.RecoveryGiveUp? || step.ClaimGiveUp? || step.Leave?
  }

  lemma PollingIs(w: World, step: Step)
    requires Apply(w, step).Some? && Polling(step)
    ensures var w' := Apply(w, step).value;
            && w' == w.(worker := w'.worker)
            && match w'.worker
               case Down => true
               case Idle => true
               case Recovering(todo) =>
                 (w.worker.Idle? && todo == RecoveryJournal.Pending(w.journal))
                 || (w.worker.Recovering? && todo <= w.worker.todo) || (w.worker.AwaitingRecovery? && todo == w.worker.todo)
               case Confirming(todo, task) =>
                 w.worker.AwaitingRecovery? && w.worker.id in w.replies && todo == w.worker.todo && task == w.worker.task
               case _ => false
  {
  }

  lemma PollingKeeps(w: World, step: Step)
    requires Ok(w) && Apply(w, step).Some? && Polling(step)
    ensures Ok(Apply(w, step).value)
  {
    PollingIs(w, step);
    SameWorld(w, Apply(w, step).value);
  }

  lemma RunStepKeeps(w: World, step: Step)
    requires Ok(w) && Apply(w, step).Some?
    requires step.Fence? || step.Send? || step.Receive? || step.GiveUp? || step.UseJournal? || step.Proceed?
    ensures Ok(Apply(w, step).value)
  {
    if step.Send? {
      SendKeeps(w);
    } else {
      OutcomeStepKeeps(w, step);
    }
  }

  lemma OutcomeStepKeeps(w: World, step: Step)
    requires Ok(w) && Apply(w, step).Some?
    requires step.Fence? || step.Receive? || step.GiveUp? || step.UseJournal? || step.Proceed?
    ensures Ok(Apply(w, step).value)
  {
    match step
    case Fence => FenceKeeps(w);
    case GiveUp => GiveUpKeeps(w);
    case Receive => ReceiveKeeps(w);
    case UseJournal(reached, ok) => JournalStepKeeps(w, reached, ok);
    case Proceed(ok) => ProceedKeeps(w, ok);
  }

  lemma MessageStepKeeps(w: World, step: Step)
    requires Ok(w) && Apply(w, step).Some?
    requires step.QueueRotation? || step.Deliver? || step.Lose? || step.SendRecovery? || step.ConfirmRecovered?
             || step.SendClaim? || step.ClaimReply?
    ensures Ok(Apply(w, step).value)
  {
    match step
    case QueueRotation(task, account) => QueueKeeps(w, task, account);
    case Deliver(id, chance) => DeliverKeeps(w, id, chance);
    case Lose(id) => LoseKeeps(w, id);
    case SendRecovery(task) => SendRecoveryKeeps(w, task);
    case ConfirmRecovered(reached) => ConfirmStepKeeps(w, reached);
    case SendClaim => SendClaimKeeps(w);
    case ClaimReply => ClaimReplyKeeps(w);
  }

  lemma StepKeeps(w: World, step: Step)
    requires Ok(w) && Apply(w, step).Some?
    ensures Ok(Apply(w, step).value)
  {
    if Polling(step) {
      PollingKeeps(w, step);
    } else if step.Reconcile? || step.Expire? || step.FailQueued? || step.Renew? {
      TaskStepKeeps(w, step);
    } else if step.Fence? || step.Send? || step.Receive? || step.GiveUp? || step.UseJournal? || step.Proceed? {
      RunStepKeeps(w, step);
    } else {
      MessageStepKeeps(w, step);
    }
  }

  lemma FollowsKeeps(w: World, w': World)
    requires Ok(w) && Follows(w, w')
    ensures Ok(w')
  {
    var step: Step :| Apply(w, step) == Some(w');
    StepKeeps(w, step);
  }

  lemma {:induction false} ReachableOk(ws: seq<World>, i: nat)
    requires IsRun(ws) && i < |ws|
    ensures Ok(ws[i])
  {
    if i == 0 {
      InitialOk(ws[0]);
    } else {
      ReachableOk(ws, i - 1);
      assert StepTo(ws, i);
      FollowsKeeps(ws[i - 1], ws[i]);
    }
  }

  // ----- no secret is lost

  /** Only the worker's run can send enrolments and activations: nothing else a step
      does touches those counts, and only two kinds of steps touch the journal. */
  ghost predicate Unsent(w: World, w': World) {
    forall task :: task in w.history ==>
      task in w'.history && w'.history[task].enrolled == w.history[task].enrolled && w'.history[task].activated == w.history[task].activated
  }

  lemma ClaimFrame(w: World, id: nat, c: Chance)
    requires DeliverClaim(w, id, c).Some?
    ensures DeliverClaim(w, id, c).value.journal == w.journal && Unsent(w, DeliverClaim(w, id, c).value)
  {
  }

  lemma PhaseFrame(w: World, id: nat, task: int, token: nat, phase: PhaseName, secret: string, now: real)
    requires DeliverPhase(w, id, task, token, phase, secret, now).Some?
    ensures var w' := DeliverPhase(w, id, task, token, phase, secret, now).value; w'.journal == w.journal && Unsent(w, w')
  {
  }

  lemma RecoverFrame(w: World, id: nat, task: int, secret: string, now: real)
    requires DeliverRecover(w, id, task, secret, now).Some?
    ensures var w' := DeliverRecover(w, id, task, secret, now).value; w'.journal == w.journal && Unsent(w, w')
  {
  }

  lemma FinishFrame(w: World, id: nat, task: int, token: nat, success: bool, now: real)
    requires DeliverFinish(w, id, task, token, success, now).Some?
    ensures var w' := DeliverFinish(w, id, task, token, success, now).value; w'.journal == w.journal && w'.history == w.history
  {
  }

  lemma LoginFrame(w: World, id: nat, task: int, secret: Json)
    requires DeliverLogin(w, id, task, secret).Some?
    ensures var w' := DeliverLogin(w, id, task, secret).value; w'.journal == w.journal && Unsent(w, w')
  {
  }

  lemma ActivateFrame(w: World, id: nat, task: int, secret: string)
    requires DeliverActivate(w, id, task, secret).Some?
    ensures var w' := DeliverActivate(w, id, task, secret).value; w'.journal == w.journal && Unsent(w, w')
  {
  }

  lemma DeliveryFrame(w: World, id: nat, c: Chance)
    requires DeliverStep(w, id, c).Some?
    ensures DeliverStep(w, id, c).value.journal == w.journal && Unsent(w, DeliverStep(w, id, c).value)
  {
    match w.net[id]
    case ClaimMessage => ClaimFrame(w, id, c);
    case PhaseMessage(task, token, phase, secret) => PhaseFrame(w, id, task, token, phase, secret, c.now);
    case FinishMessage(task, token, success) => FinishFrame(w, id, task, token, success, c.now);
    case RecoverMessage(task, secret) => RecoverFrame(w, id, task, secret, c.now);
    case LoginMessage(task, secret) => LoginFrame(w, id, task, secret);
    case ActivateMessage(task, secret) => ActivateFrame(w, id, task, secret);
    case EnrollMessage(_) =>
  }

  lemma ApiFrame(w: World, step: Step)
    requires Shape(w) && Apply(w, step).Some?
    requires step.QueueRotation? || step.Reconcile? || step.Expire? || step.FailQueued? || step.Renew? || step.Lose? || Polling(step)
    ensures Apply(w, step).value.journal == w.journal && Unsent(w, Apply(w, step).value)
  {
    if Polling(step) {
      PollingIs(w, step);
    }
  }

  lemma RunFrame(w: World, step: Step)
    requires Apply(w, step).Some?
    requires step.Fence? || step.Receive? || step.GiveUp? || step.Proceed? || step.SendRecovery? || step.SendClaim? || step.ClaimReply?
    ensures Apply(w, step).value.journal == w.journal && Apply(w, step).value.history == w.history
  {
    match step
    case Fence => AdvanceFrame(w, Rotation.Fenced);
    case Receive => AdvanceFrame(w, w.replies[w.worker.sent.value].outcome);
    case GiveUp => AdvanceFrame(w, Rotation.Raised);
    case Proceed(ok) => AdvanceFrame(w, if ok then Rotation.Ok else Rotation.Fenced);
    case _ =>
  }

  lemma AdvanceFrame(w: World, o: Rotation.Outcome)
    requires w.worker.Busy? && w.worker.local.pc != Rotation.Done
    ensures Advance(w, o).journal == w.journal && Advance(w, o).history == w.history
  {
  }

  lemma Frame(w: World, step: Step)
    requires Shape(w) && Apply(w, step).Some? && !step.ConfirmRecovered? && !step.UseJournal? && !step.Send?
    ensures Apply(w, step).value.journal == w.journal && Unsent(w, Apply(w, step).value)
  {
    if step.Deliver? {
      DeliveryFrame(w, step.id, step.chance);
    } else if step.Fence? || step.Receive? || step.GiveUp? || step.Proceed? || step.SendRecovery? || step.SendClaim? || step.ClaimReply? {
      RunFrame(w, step);
    } else {
      ApiFrame(w, step);
    }
  }

  lemma ConfirmJournal(w: World, reached: bool)
    requires Ok(w) && ConfirmStep(w, reached).Some?
    ensures RecoveryJournal.Extends(w.journal, ConfirmStep(w, reached).value.journal) && Unsent(w, ConfirmStep(w, reached).value)
  {
    if reached && RecoveryJournal.Acknowledge(w.journal, w.worker.task).Some? {
      RecoveryJournal.AnswerExtends(w.journal, RecoveryJournal.Confirm(w.worker.task));
    }
  }

  lemma RunJournal(w: World, reached: bool, ok: bool)
    requires Ok(w) && JournalStep(w, reached, ok).Some?
    ensures RecoveryJournal.Extends(w.journal, JournalStep(w, reached, ok).value.journal) && Unsent(w, JournalStep(w, reached, ok).value)
  {
    var l := w.worker.local;
    if reached && JournalEffect(w, l).Some? {
      if l.pc.Acknowledging? {
        RecoveryJournal.AnswerExtends(w.journal, RecoveryJournal.Confirm(l.claim.task));
      } else if !l.pc.Opening? {
        RecoveryJournal.AnswerExtends(w.journal, RecoveryJournal.WriteRecord(RecordOf(l)));
      }
    }
  }

  /** A step leaves everything in the journal that was there. */
  lemma StepJournal(w: World, step: Step)
    requires Ok(w) && Apply(w, step).Some?
    ensures RecoveryJournal.Extends(w.journal, Apply(w, step).value.journal)
  {
    if step.ConfirmRecovered? {
      ConfirmJournal(w, step.reached);
    } else if step.UseJournal? {
      RunJournal(w, step.reached, step.ok);
    } else if !step.Send? {
      Frame(w, step);
    }
  }

  lemma FollowsExtends(w: World, w': World)
    requires Ok(w) && Follows(w, w')
    ensures RecoveryJournal.Extends(w.journal, w'.journal)
  {
    var step: Step :| Apply(w, step) == Some(w');
    StepJournal(w, step);
  }

  /** A candidate, once journalled, is in the journal in every later world of the run,
      with its session, its old secret and its acknowledgement. */
  lemma {:induction false} CandidateIsDurable(ws: seq<World>, i: nat, j: nat)
    requires IsRun(ws) && i <= j < |ws|
    ensures RecoveryJournal.Extends(ws[i].journal, ws[j].journal)
    ensures forall task :: task in ws[i].journal && RecoveryJournal.Replayable(ws[i].journal[task]) ==>
              task in ws[j].journal && ws[j].journal[task].candidate == ws[i].journal[task].candidate
    decreases j - i
  {
    if i < j {
      CandidateIsDurable(ws, i, j - 1);
      LastExtends(ws, j);
      RecoveryJournal.ExtendsTransitive(ws[i].journal, ws[j - 1].journal, ws[j].journal);
    }
    ExtendsCandidates(ws[i].journal, ws[j].journal);
  }

  lemma LastExtends(ws: seq<World>, j: nat)
    requires IsRun(ws) && 0 < j < |ws|
    ensures RecoveryJournal.Extends(ws[j - 1].journal, ws[j].journal)
  {
    ReachableOk(ws, j - 1);
    assert StepTo(ws, j);
    FollowsExtends(ws[j - 1], ws[j]);
  }

  lemma ExtendsCandidates(j: Store, j': Store)
    requires RecoveryJournal.Extends(j, j')
    ensures forall task :: task in j && RecoveryJournal.Replayable(j[task]) ==>
              task in j' && j'[task].candidate == j[task].candidate
  {
  }

  /** Whatever secret an account accepts, at any time and however late activations
      arrive, it is the account's first one or a candidate that is still in the journal,
      acknowledged there because the API had stored it. */
  lemma AcceptedSecretIsKnown(ws: seq<World>, i: nat, account: int)
    requires IsRun(ws) && i < |ws| && account in ws[i].current
    ensures var w := ws[i];
            account in w.origin
            && (w.current[account] == w.origin[account]
                || exists id :: Journalled(w, account, id) && id in w.history && StoredIn(w.history[id], w.current[account]))
  {
    ReachableOk(ws, i);
    var w := ws[i];
    assert AccountAt(w, account);
    if w.current[account] != w.origin[account] {
      var id :| Journalled(w, account, id);
      assert TaskAt(w, id);
    }
  }

  // ----- at most once, and in order

  /** Over a whole run a task is handed out for rotation, enrolled and activated at
      most once each, whatever crashes, restarts and lost replies come between. */
  lemma MutatedAtMostOnce(ws: seq<World>, i: nat, task: int)
    requires IsRun(ws) && i < |ws| && task in ws[i].history
    ensures ws[i].history[task].rotations <= 1 && ws[i].history[task].enrolled <= 1 && |ws[i].history[task].activated| <= 1
  {
    ReachableOk(ws, i);
    assert TaskAt(ws[i], task);
  }

  /** An activation is only ever sent for the candidate that the journal holds and the
      API has stored, after `enrolling`, `prepared` and `activating` were accepted. */
  lemma ActivatedOnlyWhenPrepared(ws: seq<World>, i: nat, task: int, secret: string)
    requires IsRun(ws) && i < |ws| && task in ws[i].history && secret in ws[i].history[task].activated
    ensures var w := ws[i];
            SavedAs(w.journal, task, secret) && w.journal[task].acknowledged && StoredIn(w.history[task], secret)
            && PHASES[..3] <= w.history[task].phases
  {
    ReachableOk(ws, i);
    var w := ws[i];
    assert TaskAt(w, task);
    SentFacts(task, w.tasks[task], w.history[task], w.journal, secret);
    assert PHASES[..|w.history[task].phases|][..3] == PHASES[..3];
  }

  /** The rotation phases the API accepts for a task are a prefix of the four, and an
      open rotation has accepted exactly those its state says. */
  lemma PhasesInOrder(ws: seq<World>, i: nat, task: int)
    requires IsRun(ws) && i < |ws| && task in ws[i].history
    ensures var w := ws[i];
            task in w.tasks && w.history[task].phases <= PHASES && PhasesOk(w.tasks[task], w.history[task])
  {
    ReachableOk(ws, i);
    assert TaskAt(ws[i], task);
  }

  /** The step is a rotation's own request for this task. */
  predicate SendsFor(w: World, task: int) {
    w.worker.Busy? && w.worker.local.claim.task == task && (w.worker.local.pc.SendingEnroll? || w.worker.local.pc.SendingActivate?)
  }

  lemma SendMutates(w: World, task: int)
    requires SendStep(w).Some? && task in w.history && !SendsFor(w, task)
    ensures task in SendStep(w).value.history && SendStep(w).value.history[task] == w.history[task]
  {
  }

  lemma SendingRotates(w: World, task: int)
    requires WorkerOk(w) && w.worker.Busy? && SendsFor(w, task)
    ensures w.worker.local.claim.action == Rotation.RotateKey
  {
  }

  lemma SendFrame(w: World, task: int)
    requires WorkerOk(w) && SendStep(w).Some? && task in w.history
    requires !(SendsFor(w, task) && w.worker.local.claim.action == Rotation.RotateKey)
    ensures task in SendStep(w).value.history && SendStep(w).value.history[task] == w.history[task]
  {
    if SendsFor(w, task) {
      SendingRotates(w, task);
    }
    SendMutates(w, task);
  }

  /** Only a worker running a rotation sends enrolments and activations: recovery,
      verification and polling never do. */
  lemma OnlyRotationsMutate(w: World, step: Step, task: int)
    requires Ok(w) && Apply(w, step).Some? && task in w.history
    requires !(step.Send? && SendsFor(w, task) && w.worker.local.claim.action == Rotation.RotateKey)
    ensures var w' := Apply(w, step).value;
            && task in w'.history && w'.history[task].enrolled == w.history[task].enrolled
            && w'.history[task].activated == w.history[task].activated
  {
    if step.ConfirmRecovered? {
      ConfirmJournal(w, step.reached);
    } else if step.UseJournal? {
      RunJournal(w, step.reached, step.ok);
    } else if step.Send? {
      SendFrame(w, task);
    } else {
      Frame(w, step);
    }
  }

  // ----- journal and API agree

  /** A record leaves the pending list only after the API accepted its candidate; and
      the candidate an open task stores is always the journalled one. */
  lemma JournalAndApiAgree(ws: seq<World>, i: nat, task: int)
    requires IsRun(ws) && i < |ws| && task in ws[i].tasks
    ensures var w := ws[i];
            && task in w.history
            && (task in w.journal && w.journal[task].acknowledged ==>
                  RecoveryJournal.Replayable(w.journal[task]) && StoredIn(w.history[task], w.journal[task].candidate.s))
            && (w.tasks[task].hasCandidate && Open(w.tasks[task]) ==> Holds(w.journal, task, w.tasks[task].candidate))
  {
    ReachableOk(ws, i);
    assert TaskAt(ws[i], task);
  }

  /** A candidate that the server does not accept stays in the journal, unacknowledged, in
      every run: no run and no recovery pass ever takes it off the pending list. */
  lemma RefusedStaysPending(ws: seq<World>, i: nat, j: nat, task: int)
    requires IsRun(ws) && i <= j < |ws| && task in ws[i].journal && RecoveryJournal.Replayable(ws[i].journal[task])
    requires Secrets.ServiceNormalize(ws[i].journal[task].candidate.s).None?
    ensures task in ws[j].journal && ws[j].journal[task].candidate == ws[i].journal[task].candidate
    ensures !ws[j].journal[task].acknowledged && task in RecoveryJournal.Pending(ws[j].journal)
  {
    CandidateIsDurable(ws, i, j);
    ReachableOk(ws, j);
    assert task in ws[j].tasks;
    JournalAndApiAgree(ws, j, task);
  }
}
