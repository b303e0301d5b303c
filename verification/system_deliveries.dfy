/** Each delivery of a request, however late, keeps the invariant of `System`. */
module SystemDeliveries {
  import opened Values
  import Secrets
  import RecoveryJournal
  import TaskService
  import Rotation
  import opened System
  import opened SystemInvariant
  import opened SystemSteps

  /** `r` is an answer the worker can continue with, should it still be waiting. */
  ghost predicate AnswerFits(w: World, id: nat, r: Reply) {
    match w.worker
    case AwaitingRecovery(_, task, secret, waiting) => waiting == id ==> task in w.history && StoredIn(w.history[task], secret)
    case Claiming(waiting) => waiting == id && r.Granted? ==> LocalOk(w, r.token, Rotation.Init(r.claim), false)
    case Busy(token, l, sent) =>
      sent == Some(id) && !l.pc.Done? ==> r.Answered? && LocalOk(w, token, Rotation.Next(l, r.outcome), false)
    case _ => true
  }

  lemma SameLocal(w: World, w': World, token: nat, l: Local, sending: bool)
    requires LocalOk(w, token, l, sending) && w'.tasks == w.tasks && w'.history == w.history && w'.journal == w.journal
    requires w'.current == w.current && w'.late == w.late && w'.nextToken == w.nextToken
    ensures LocalOk(w', token, l, sending)
  {
  }

  lemma RespondKeeps(w: World, id: nat, r: Reply)
    requires Ok(w) && id in w.net && AnswerFits(w, id, r)
    ensures Ok(Respond(w, id, r))
  {
    var w' := Respond(w, id, r);
    assert Shape(w');
    SameTasks(w, w');
    SameAccounts(w, w');
    SameGrows(w, w');
    NetStable(w, w');
    RespondWorker(w, id, r);
  }

  lemma RespondWorker(w: World, id: nat, r: Reply)
    requires Shape(w) && WorkerOk(w) && id in w.net && AnswerFits(w, id, r)
    ensures WorkerOk(Respond(w, id, r))
  {
    var w' := Respond(w, id, r);
    match w.worker
    case Claiming(waiting) =>
      if waiting in w'.replies && w'.replies[waiting].Granted? {
        SameLocal(w, w', w'.replies[waiting].token, Rotation.Init(w'.replies[waiting].claim), false);
      }
    case Busy(token, l, sent) =>
      SameLocal(w, w', token, l, sent.Some?);
      if sent.Some? && sent.value in w'.replies {
        SameLocal(w, w', token, Rotation.Next(l, w'.replies[sent.value].outcome), false);
      }
    case _ =>
  }

  // ----- claims

  ghost function Handed(w: World, c: Chance): World
    requires c.task in w.tasks && c.task in w.history && TaskService.Claim(w.tasks[c.task], w.nextToken, 1, c.now).Some?
  {
    var t, h := w.tasks[c.task], w.history[c.task];
    w.(tasks := w.tasks[c.task := TaskService.Claim(t, w.nextToken, 1, c.now).value], nextToken := w.nextToken + 1,
       history := w.history[c.task := h.(rotations := h.rotations + if t.action == TaskService.Rotate then 1 else 0)])
  }

  lemma HandedTask(w: World, c: Chance)
    requires Shape(w) && c.task in w.tasks && TaskService.Claim(w.tasks[c.task], w.nextToken, 1, c.now).Some?
    requires TaskAt(w, c.task) && Shape(Handed(w, c))
    ensures TaskAt(Handed(w, c), c.task)
  {
    var t, h, j := w.tasks[c.task], w.history[c.task], w.journal;
    var w' := Handed(w, c);
    assert TaskService.Wellformed(w'.tasks[c.task]);
    assert PhasesOk(w'.tasks[c.task], w'.history[c.task]) && CountsOk(c.task, w'.tasks[c.task], w'.history[c.task], j);
  }

  lemma HandedTasks(w: World, c: Chance)
    requires Shape(w) && TasksOk(w) && c.task in w.tasks && TaskService.Claim(w.tasks[c.task], w.nextToken, 1, c.now).Some?
    ensures Shape(Handed(w, c)) && TasksOk(Handed(w, c))
  {
    var w' := Handed(w, c);
    forall id ensures TaskAt(w', id) {
      assert TaskAt(w, id);
      if id == c.task {
        HandedTask(w, c);
      }
    }
  }

  lemma HandedGrows(w: World, c: Chance)
    requires Shape(w) && c.task in w.tasks && TaskService.Claim(w.tasks[c.task], w.nextToken, 1, c.now).Some?
    requires TaskAt(w, c.task)
    ensures Grows(w, Handed(w, c)) && Quiet(w, Handed(w, c))
  {
    var w' := Handed(w, c);
    forall id ensures GrowsAt(w, w', id) && QuietAt(w, w', id) {
    }
  }

  lemma GrantFits(w: World, c: Chance)
    requires Shape(w) && c.task in w.tasks && TaskService.Claim(w.tasks[c.task], w.nextToken, 1, c.now).Some?
    requires TaskAt(w, c.task)
    ensures LocalOk(Handed(w, c), w.nextToken, Rotation.Init(ClaimOf(c.task, w.tasks[c.task], c.email, c.password)), false)
  {
  }

  lemma HandedAccounts(w: World, c: Chance)
    requires Shape(w) && AccountsOk(w) && c.task in w.tasks && TaskService.Claim(w.tasks[c.task], w.nextToken, 1, c.now).Some?
    requires Shape(Handed(w, c))
    ensures AccountsOk(Handed(w, c))
  {
    var w' := Handed(w, c);
    forall a ensures AccountAt(w', a) {
      assert AccountAt(w, a);
      if a in w.current {
        assert KeptAt(w', a);
        forall b | Stores(w, a, b) ensures Stores(w', a, b) {
        }
        AccountKept(w, w', a);
      }
    }
  }

  lemma HandedRest(w: World, c: Chance)
    requires Ok(w) && c.task in w.tasks && TaskService.Claim(w.tasks[c.task], w.nextToken, 1, c.now).Some?
    ensures Ok(Handed(w, c))
  {
    var w1 := Handed(w, c);
    assert TaskAt(w, c.task);
    HandedTasks(w, c);
    HandedGrows(w, c);
    HandedAccounts(w, c);
    NetStable(w, w1);
    WorkerStable(w, w1);
  }

  lemma ClaimDelivered(w: World, id: nat, c: Chance)
    requires Shape(w) && DeliverClaim(w, id, c).Some?
    ensures c.task in w.tasks && TaskService.Claim(w.tasks[c.task], w.nextToken, 1, c.now).Some?
    ensures DeliverClaim(w, id, c).value
            == Respond(Handed(w, c), id, Granted(w.nextToken, ClaimOf(c.task, w.tasks[c.task], c.email, c.password)))
  {
  }

  lemma DeliverClaimKeeps(w: World, id: nat, c: Chance)
    requires Ok(w) && id in w.net && w.net[id] == ClaimMessage && DeliverClaim(w, id, c).Some?
    ensures Ok(DeliverClaim(w, id, c).value)
  {
    ClaimDelivered(w, id, c);
    assert TaskAt(w, c.task);
    HandedRest(w, c);
    GrantFits(w, c);
    var r := Granted(w.nextToken, ClaimOf(c.task, w.tasks[c.task], c.email, c.password));
    ClaimAnswerFits(Handed(w, c), id, r);
    RespondKeeps(Handed(w, c), id, r);
  }

  lemma ClaimAnswerFits(w: World, id: nat, r: Reply)
    requires WorkerOk(w) && id in w.net && w.net[id] == ClaimMessage && r.Granted?
    requires LocalOk(w, r.token, Rotation.Init(r.claim), false)
    ensures AnswerFits(w, id, r)
  {
  }

  // ----- phases

  ghost function PhaseHistory(h: History, action: TaskService.Action, phase: PhaseName, candidate: string): History {
    if action != TaskService.Rotate then h
    else h.(phases := h.phases + [phase], stored := if phase == ToPrepared then h.stored + {candidate} else h.stored)
  }

  /** The task after an accepted phase. */
  ghost function Phased(t: Task, token: nat, phase: PhaseName, secret: string, now: real): Option<Task> {
    TaskService.Phase(TaskService.Expire(t, now), token, phase, secret, now)
  }

  lemma PhaseFacts(t: Task, token: nat, phase: PhaseName, secret: string, now: real)
    requires Phased(t, token, phase, secret, now).Some?
    ensures Held(t, token) && TaskService.Claimed(t.state)
    ensures var t' := Phased(t, token, phase, secret, now).value;
            && t' == t.(state := t'.state, leaseUntil := t'.leaseUntil, candidate := t'.candidate,
                        previous := t'.previous, hasCandidate := t'.hasCandidate)
            && TaskService.NextState(t, phase) == Some(t'.state)
            && (phase == ToPrepared ==> t'.hasCandidate && Secrets.ServiceNormalize(secret) == Some(t'.candidate) && t'.previous == t.secret)
            && (phase != ToPrepared ==> t'.candidate == t.candidate && t'.previous == t.previous && t'.hasCandidate == t.hasCandidate)
  {
  }

  lemma PhaseTaskOk(id: int, t: Task, h: History, j: Store, token: nat, phase: PhaseName, secret: string, now: real)
    requires TaskOk(id, t, h, j) && Phased(t, token, phase, secret, now).Some?
    requires phase == ToPrepared ==> SavedAs(j, id, secret)
    ensures var t' := Phased(t, token, phase, secret, now).value;
            TaskOk(id, t', PhaseHistory(h, t.action, phase, t'.candidate), j)
  {
    var t' := Phased(t, token, phase, secret, now).value;
    var h' := PhaseHistory(h, t.action, phase, t'.candidate);
    PhaseFacts(t, token, phase, secret, now);
    TaskService.CandidateKept(t, TaskService.DoPhase(token, phase, secret), now);
    assert TaskService.Wellformed(t');
    PhasesAdvance(t, t', h, phase);
    CountsKept(id, t, t', h, h', j);
  }

  /** Another phase leaves what has been sent as it was. */
  lemma CountsKept(id: int, t: Task, t': Task, h: History, h': History, j: Store)
    requires CountsOk(id, t, h, j) && TaskService.Claimed(t.state) && TaskService.Claimed(t'.state) && t'.action == t.action && t'.secret == t.secret
    requires h' == h.(phases := h'.phases, stored := h'.stored) && h.stored <= h'.stored && |h.phases| <= |h'.phases|
    ensures CountsOk(id, t', h', j)
  {
  }

  lemma PhasesAdvance(t: Task, t': Task, h: History, phase: PhaseName)
    requires PhasesOk(t, h) && TaskService.NextState(t, phase) == Some(t'.state) && t'.action == t.action
    requires TaskService.Wellformed(t) && TaskService.Wellformed(t')
    requires phase == ToPrepared ==> t'.hasCandidate
    requires phase != ToPrepared ==> t'.hasCandidate == t.hasCandidate
    ensures PhasesOk(t', PhaseHistory(h, t.action, phase, t'.candidate))
  {
    if t.action == TaskService.Rotate {
      assert PHASES[..|h.phases| + 1] == PHASES[..|h.phases|] + [PHASES[|h.phases|]];
    }
  }

  lemma PhaseFits(w: World, task: int, token: nat, phase: PhaseName, secret: string, now: real)
    requires Shape(w) && task in w.tasks && Phased(w.tasks[task], token, phase, secret, now).Some?
    requires TaskAt(w, task)
    requires phase == ToPrepared ==> SavedAs(w.journal, task, secret)
    ensures var t' := Phased(w.tasks[task], token, phase, secret, now).value;
            Fits(w, task, t', PhaseHistory(w.history[task], w.tasks[task].action, phase, t'.candidate))
  {
    PhaseTaskOk(task, w.tasks[task], w.history[task], w.journal, token, phase, secret, now);
    PhaseFacts(w.tasks[task], token, phase, secret, now);
  }

  /** The program point that sends a phase, and the one after it. */
  lemma PostFacts(token: nat, l: Local, phase: PhaseName, secret: string)
    requires MessageOf(token, l) == Some(PhaseMessage(l.claim.task, token, phase, secret))
    ensures match phase
            case ToEnrolling => l.pc.PostingEnrolling? && Rotation.Next(l, Rotation.Ok) == l.(pc := Rotation.SendingEnroll, stage := Rotation.EnrollmentFailed)
            case ToPrepared => l.pc.PostingPrepared? && Rotation.Next(l, Rotation.Ok) == l.(pc := Rotation.Acknowledging)
                               && (l.candidate.Str? ==> secret == l.candidate.s)
            case ToActivating => l.pc.PostingActivating? && Rotation.Next(l, Rotation.Ok) == l.(pc := Rotation.SendingActivate, stage := Rotation.ActivationUnconfirmed)
            case ToVerifying => l.pc.PostingVerifying? && Rotation.Next(l, Rotation.Ok) == l.(pc := Rotation.VerifyGuard, stage := Rotation.VerificationFailed)
            case ToVerifyRecovery => l.pc.PostingRecovery? && Rotation.Next(l, Rotation.Ok) == l.(pc := Rotation.VerifyGuard, stage := Rotation.VerificationFailed)
  {
  }

  /** A phase adds one to the phases of a rotation, and only in its turn. */
  lemma PhaseCount(t: Task, h: History, token: nat, phase: PhaseName, secret: string, now: real)
    requires PhasesOk(t, h) && Phased(t, token, phase, secret, now).Some? && t.action == TaskService.Rotate
    ensures var h' := PhaseHistory(h, t.action, phase, Phased(t, token, phase, secret, now).value.candidate);
            && h'.rotations == h.rotations && h'.enrolled == h.enrolled && h'.activated == h.activated && h.stored <= h'.stored
            && |h'.phases| == |h.phases| + 1
            && (phase == ToPrepared ==> |h'.phases| >= 2) && (phase == ToActivating ==> |h'.phases| >= 3)
            && (phase == ToPrepared ==> StoredIn(h', secret))
  {
    PhaseFacts(t, token, phase, secret, now);
  }

  /** The worker may go on after an accepted phase. */
  lemma RotateMovesOn(id: int, h: History, h': History, j: Store, token: nat, l: Local, phase: PhaseName, secret: string)
    requires RotateOk(id, h, j, l, true) && l.claim.action == Rotation.RotateKey
    requires MessageOf(token, l) == Some(PhaseMessage(l.claim.task, token, phase, secret))
    requires h'.rotations == h.rotations && h'.enrolled == h.enrolled && h'.activated == h.activated && h.stored <= h'.stored
    requires |h'.phases| == |h.phases| + 1
    requires phase == ToPrepared ==> StoredIn(h', secret) && |h'.phases| >= 2
    requires phase == ToActivating ==> |h'.phases| >= 3
    ensures RotateOk(id, h', j, Rotation.Next(l, Rotation.Ok), false)
  {
    PostFacts(token, l, phase, secret);
  }

  lemma OnTrackAfterPost(token: nat, l: Local, phase: PhaseName, secret: string)
    requires Rotation.OnTrack(l) && MessageOf(token, l) == Some(PhaseMessage(l.claim.task, token, phase, secret))
    ensures var next := Rotation.Next(l, Rotation.Ok);
            Rotation.OnTrack(next) && next.claim == l.claim && next.candidate == l.candidate && !PastAcceptance(next.pc)
  {
    PostFacts(token, l, phase, secret);
  }

  lemma PhaseAnswerFits(w: World, token: nat, l: Local, phase: PhaseName, secret: string, now: real, w1: World)
    requires l.pc != Rotation.Done
    requires Shape(w) && TaskAt(w, l.claim.task) && LocalOk(w, token, l, true)
    requires MessageOf(token, l) == Some(PhaseMessage(l.claim.task, token, phase, secret))
    requires Phased(w.tasks[l.claim.task], token, phase, secret, now).Some?
    requires var t := w.tasks[l.claim.task];
             var t' := Phased(t, token, phase, secret, now).value;
             w1 == Replaced(w, l.claim.task, t', PhaseHistory(w.history[l.claim.task], t.action, phase, t'.candidate))
    ensures LocalOk(w1, token, Rotation.Next(l, Rotation.Ok), false)
  {
    var id := l.claim.task;
    var t, h := w.tasks[id], w.history[id];
    PhaseFacts(t, token, phase, secret, now);
    PostFacts(token, l, phase, secret);
    OnTrackAfterPost(token, l, phase, secret);
    if l.claim.action == Rotation.RotateKey {
      PhaseCount(t, h, token, phase, secret, now);
      RotateMovesOn(id, h, w1.history[id], w.journal, token, l, phase, secret);
    }
  }

  lemma PhaseDelivered(w: World, id: nat, task: int, token: nat, phase: PhaseName, secret: string, now: real)
    requires Shape(w) && DeliverPhase(w, id, task, token, phase, secret, now).Some?
    ensures task in w.tasks && Phased(w.tasks[task], token, phase, secret, now).Some?
    ensures var t' := Phased(w.tasks[task], token, phase, secret, now).value;
            DeliverPhase(w, id, task, token, phase, secret, now).value
            == Respond(Replaced(w, task, t', PhaseHistory(w.history[task], w.tasks[task].action, phase, t'.candidate)),
                       id, Answered(Rotation.Ok))
  {
    PhaseFacts(w.tasks[task], token, phase, secret, now);
  }

  lemma DeliverPhaseKeeps(w: World, id: nat, task: int, token: nat, phase: PhaseName, secret: string, now: real)
    requires Ok(w) && id in w.net && w.net[id] == PhaseMessage(task, token, phase, secret)
    requires DeliverPhase(w, id, task, token, phase, secret, now).Some?
    ensures Ok(DeliverPhase(w, id, task, token, phase, secret, now).value)
  {
    assert MessageAt(w, id);
    PhaseDelivered(w, id, task, token, phase, secret, now);
    assert TaskAt(w, task);
    PhaseFits(w, task, token, phase, secret, now);
    var t' := Phased(w.tasks[task], token, phase, secret, now).value;
    var h' := PhaseHistory(w.history[task], w.tasks[task].action, phase, t'.candidate);
    TaskReplaced(w, task, t', h');
    var w1 := Replaced(w, task, t', h');
    PhaseReplyFits(w, id, task, token, phase, secret, now, w1);
    RespondKeeps(w1, id, Answered(Rotation.Ok));
  }

  lemma PhaseReplyFits(w: World, id: nat, task: int, token: nat, phase: PhaseName, secret: string, now: real, w1: World)
    requires Shape(w) && TaskAt(w, task) && WorkerOk(w) && id in w.net && w.net[id] == PhaseMessage(task, token, phase, secret)
    requires task in w.tasks && Phased(w.tasks[task], token, phase, secret, now).Some?
    requires var t' := Phased(w.tasks[task], token, phase, secret, now).value;
             w1 == Replaced(w, task, t', PhaseHistory(w.history[task], w.tasks[task].action, phase, t'.candidate))
    ensures AnswerFits(w1, id, Answered(Rotation.Ok))
  {
    if w.worker.Busy? && w.worker.sent == Some(id) {
      SentMessage(w.worker.token, w.worker.local);
      PhaseAnswerFits(w, token, w.worker.local, phase, secret, now, w1);
    }
  }

  /** A request names the worker's own task and token. */
  lemma SentMessage(token: nat, l: Local)
    requires MessageOf(token, l).Some?
    ensures match MessageOf(token, l).value
            case PhaseMessage(task, k, _, _) => task == l.claim.task && k == token
            case FinishMessage(task, k, _) => task == l.claim.task && k == token
            case LoginMessage(task, _) => task == l.claim.task
            case EnrollMessage(task) => task == l.claim.task
            case ActivateMessage(task, _) => task == l.claim.task
            case _ => false
  {
  }
}
