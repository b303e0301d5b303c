/** What every reachable world of `System` satisfies, and the proof that each step
    keeps it. */
module SystemInvariant {
  import opened Values
  import Secrets
  import RecoveryJournal
  import TaskService
  import Rotation
  import opened System

  // ----- vocabulary

  /** The journal holds `secret` as the task's candidate. */
  ghost predicate SavedAs(j: Store, task: int, secret: string) {
    secret != "" && task in j && j[task].candidate == Str(secret)
  }

  /** `stored` is what the API makes of the candidate the journal holds. */
  ghost predicate Holds(j: Store, task: int, stored: string) {
    task in j && RecoveryJournal.Replayable(j[task]) && Secrets.ServiceNormalize(j[task].candidate.s) == Some(stored)
  }

  /** The API has accepted `secret` for the task. */
  ghost predicate StoredIn(h: History, secret: string) {
    Secrets.ServiceNormalize(secret).Some? && Secrets.ServiceNormalize(secret).value in h.stored
  }

  /** `token` is the claim under which the task is being worked on. */
  ghost predicate Held(t: Task, token: nat) {
    token != 0 && t.token == token
  }

  const PHASES: seq<PhaseName> := [ToEnrolling, ToPrepared, ToActivating, ToVerifying]

  /** The task still has the secret it was queued with. */
  ghost predicate SecretKept(t: Task) {
    Open(t) || (t.state == TaskService.Succeeded && t.action == TaskService.VerifyOld)
  }

  /** The upstream accepts the task's goal, unless a late activation intervened. */
  ghost predicate Verified(w: World, id: int)
    requires id in w.tasks && id in w.history
  {
    var t := w.tasks[id];
    t.account in w.late || (t.action == TaskService.VerifyOld && w.history[id].overtaken)
    || (t.account in w.current && (t.action == TaskService.VerifyOld || t.hasCandidate) && SameSecret(w.current[t.account], Goal(t)))
  }

  // ----- tasks

  ghost predicate PhasesOk(t: Task, h: History) {
    var n := |h.phases|;
    && n <= 4 && h.phases == PHASES[..n]
    && (t.action == TaskService.Rotate ==>
          match t.state
          case Queued => n == 0
          case Running => n == 0
          case Failed => n == 0
          case Enrolling => n == 1
          case Prepared => n == 2
          case Activating => n == 3
          case Verifying => n == 4
          case Uncertain => n >= 1
          case _ => true)
    && (t.action != TaskService.Rotate ==> t.state != TaskService.Failed)
    && (n >= 2 ==> h.stored != {} && (Open(t) ==> t.hasCandidate))
  }

  ghost predicate CountsOk(id: int, t: Task, h: History, j: Store) {
    && h.rotations <= 1 && h.enrolled <= 1 && |h.activated| <= 1
    && (TaskService.BeforeRotation(t) ==> h.rotations == 0)
    && (h.rotations == 0 ==> h.enrolled == 0 && h.activated == [] && h.phases == []
                             && t.action == TaskService.Rotate && t.state in {TaskService.Queued, TaskService.Failed})
    && (h.enrolled > 0 ==> |h.phases| >= 1)
    && (h.activated != [] ==>
          |h.phases| >= 3 && SavedAs(j, id, h.activated[0]) && j[id].acknowledged && StoredIn(h, h.activated[0])
          && (SecretKept(t) ==> !SameSecret(h.activated[0], t.secret)))
  }

  /** What a sent activation says about its task. */
  lemma SentFacts(id: int, t: Task, h: History, j: Store, secret: string)
    requires CountsOk(id, t, h, j) && PhasesOk(t, h) && secret in h.activated
    ensures SavedAs(j, id, secret) && j[id].acknowledged && StoredIn(h, secret) && |h.phases| >= 3
    ensures SecretKept(t) ==> !SameSecret(secret, t.secret)
    ensures h.stored != {} && (Open(t) ==> t.hasCandidate) && t.state != TaskService.Failed
  {
    assert secret == h.activated[0];
  }

  ghost predicate TaskOk(id: int, t: Task, h: History, j: Store) {
    && RecoveryJournal.ValidId(id) && t.operation == TaskService.TotpRotation && TaskService.Wellformed(t)
    && (forall v :: v in h.stored ==> Holds(j, id, v))
    && (t.hasCandidate && Open(t) ==> t.candidate in h.stored)
    && (id in j && j[id].acknowledged ==> RecoveryJournal.Replayable(j[id]) && StoredIn(h, j[id].candidate.s))
    && PhasesOk(t, h) && CountsOk(id, t, h, j)
    && (t.state == TaskService.Succeeded && t.action != TaskService.VerifyOld ==> Holds(j, id, t.secret))
  }

  ghost predicate Shape(w: World) {
    && w.history.Keys == w.tasks.Keys && w.journal.Keys <= w.tasks.Keys && RecoveryJournal.WellKeyed(w.journal)
    && w.current.Keys == w.credentials.Keys && w.origin.Keys == w.credentials.Keys
    && w.net.Keys !! w.replies.Keys && w.nextToken > 0
    && (forall m :: m in w.net || m in w.replies ==> m < w.nextId)
  }

  /** An open task has the account's credential as its secret and is the account's last; a
      succeeded one has left the account with a new key, or restored the old one. */
  ghost predicate TaskAt(w: World, id: int)
    requires Shape(w)
  {
    id in w.tasks ==>
      var t := w.tasks[id];
      && TaskOk(id, t, w.history[id], w.journal) && t.token < w.nextToken && t.account in w.credentials
      && (Open(t) ==> t.secret == w.credentials[t.account] && t.account in w.last && w.last[t.account] == id)
      && (t.state == TaskService.Succeeded ==>
            t.account in w.keeper || (t.action == TaskService.VerifyOld && w.credentials[t.account] == t.secret))
  }

  ghost predicate TasksOk(w: World)
    requires Shape(w)
  {
    forall id {:trigger TaskAt(w, id)} :: TaskAt(w, id)
  }

  // ----- messages

  ghost predicate MessageOk(w: World, m: Message) {
    match m
    case ClaimMessage => true
    case PhaseMessage(task, token, phase, secret) => task in w.tasks && (phase == ToPrepared ==> SavedAs(w.journal, task, secret))
    case FinishMessage(task, token, success) =>
      task in w.tasks && task in w.history && token < w.nextToken && (success && Held(w.tasks[task], token) ==> Verified(w, task))
    case RecoverMessage(task, secret) => task in w.tasks && SavedAs(w.journal, task, secret)
    case LoginMessage(task, _) => task in w.tasks
    case EnrollMessage(task) => task in w.tasks
    case ActivateMessage(task, secret) => task in w.tasks && task in w.history && secret in w.history[task].activated
  }

  ghost predicate MessageAt(w: World, m: nat) {
    m in w.net ==> MessageOk(w, w.net[m])
  }

  ghost predicate NetOk(w: World) {
    forall m {:trigger MessageAt(w, m)} :: MessageAt(w, m)
  }

  // ----- the worker

  /** How many effects of a rotation lie behind a program point. */
  ghost function Rank(pc: Rotation.Pc): nat {
    match pc
    case FirstGuard => 0
    case Opening => 1
    case SavingBlank => 2
    case OpeningSession => 3
    case PostingEnrolling => 4
    case SendingEnroll => 5
    case SavingCandidate => 6
    case PostingPrepared => 7
    case Acknowledging => 8
    case PostingActivating => 9
    case SendingActivate => 10
    case PostingVerifying => 11
    case _ => 12
  }

  ghost predicate RotateOk(id: int, h: History, j: Store, l: Local, sending: bool) {
    var rank := Rank(l.pc);
    && h.rotations == 1
    && (rank < 5 || (rank == 5 && !sending) ==> h.enrolled == 0)
    && (rank < 10 || (rank == 10 && !sending) ==> h.activated == [])
    && (rank >= 5 ==> |h.phases| >= 1)
    && (rank >= 7 ==> l.candidate.Str? && SavedAs(j, id, l.candidate.s))
    && (rank >= 8 ==> StoredIn(h, l.candidate.s) && |h.phases| >= 2)
    && (rank >= 9 ==> j[id].acknowledged)
    && (rank >= 10 ==> |h.phases| >= 3)
  }

  ghost predicate PastAcceptance(pc: Rotation.Pc) {
    pc.Waiting? || pc.SecondGuard? || pc.LoginRejected? || pc.Succeeding?
  }

  ghost predicate Matches(t: Task, l: Local) {
    && l.claim.action == WorkerAction(t.action) && l.claim.secret == t.secret
    && (l.claim.action != Rotation.RotateKey ==> l.candidate == Str(t.candidate))
  }

  /** A worker holding claim `token` may be at `l`. */
  ghost predicate LocalOk(w: World, token: nat, l: Local, sending: bool) {
    var id := l.claim.task;
    id in w.tasks && id in w.history && 0 < token < w.nextToken && Rotation.OnTrack(l)
    && (!l.pc.Failing? && !l.pc.Done? ==>
          && (Held(w.tasks[id], token) ==> Matches(w.tasks[id], l))
          && (l.claim.action == Rotation.RotateKey && SecretKept(w.tasks[id]) ==> l.claim.secret == w.tasks[id].secret)
          && (l.claim.action == Rotation.RotateKey ==> RotateOk(id, w.history[id], w.journal, l, sending))
          && (PastAcceptance(l.pc) && Held(w.tasks[id], token) ==> Verified(w, id)))
  }

  ghost predicate WorkerOk(w: World) {
    match w.worker
    case Down => true
    case Idle => true
    case Recovering(todo) => todo <= w.journal.Keys
    case AwaitingRecovery(todo, task, secret, id) =>
      && todo <= w.journal.Keys && id < w.nextId && task in w.tasks && task in w.history && SavedAs(w.journal, task, secret)
      && (id in w.net ==> w.net[id] == RecoverMessage(task, secret))
      && (id in w.replies ==> StoredIn(w.history[task], secret))
    case Confirming(todo, task) =>
      && todo <= w.journal.Keys && task in w.journal && task in w.history && RecoveryJournal.Replayable(w.journal[task])
      && StoredIn(w.history[task], w.journal[task].candidate.s)
    case Claiming(id) =>
      && id < w.nextId && (id in w.net ==> w.net[id] == ClaimMessage)
      && (id in w.replies && w.replies[id].Granted? ==>
            LocalOk(w, w.replies[id].token, Rotation.Init(w.replies[id].claim), false))
    case Busy(token, l, sent) =>
      && LocalOk(w, token, l, sent.Some?)
      && (sent.Some? ==>
            var id := sent.value;
            && id < w.nextId && !l.pc.Done? && MessageOf(token, l).Some?
            && (id in w.net ==> Some(w.net[id]) == MessageOf(token, l))
            && (id in w.replies ==> w.replies[id].Answered? && LocalOk(w, token, Rotation.Next(l, w.replies[id].outcome), false)))
  }

  // ----- agreement with the upstream

  ghost predicate AgreesAt(w: World, a: int)
    requires a in w.current && a in w.credentials
  {
    a in w.late || SameSecret(w.current[a], w.credentials[a]) || exists id :: Stores(w, a, id)
  }

  ghost predicate Journalled(w: World, a: int, id: int)
    requires a in w.current
  {
    id in w.tasks && w.tasks[id].account == a && SavedAs(w.journal, id, w.current[a]) && w.journal[id].acknowledged
  }

  /** The secret an account accepts is the one it started with or a journalled and
      acknowledged candidate of one of its tasks. */
  ghost predicate KnownAt(w: World, a: int)
    requires a in w.current && a in w.origin
  {
    w.current[a] == w.origin[a] || exists id :: Journalled(w, a, id)
  }

  /** The credential is the secret of the account's keeper, and of its last task if that has
      succeeded. */
  ghost predicate KeptAt(w: World, a: int)
    requires a in w.credentials
  {
    && (a in w.keeper ==>
          var u := w.keeper[a];
          u in w.tasks && w.tasks[u].account == a && w.tasks[u].state == TaskService.Succeeded
          && w.tasks[u].action != TaskService.VerifyOld && w.tasks[u].secret == w.credentials[a])
    && (a in w.last ==>
          var u := w.last[a];
          u in w.tasks && w.tasks[u].account == a
          && (w.tasks[u].state == TaskService.Succeeded ==> w.tasks[u].secret == w.credentials[a]))
  }

  ghost predicate AccountAt(w: World, a: int)
    requires Shape(w)
  {
    a in w.current ==> AgreesAt(w, a) && KnownAt(w, a) && KeptAt(w, a)
  }

  ghost predicate AccountsOk(w: World)
    requires Shape(w)
  {
    forall a {:trigger AccountAt(w, a)} :: AccountAt(w, a)
  }

  ghost predicate Ok(w: World) {
    Shape(w) && TasksOk(w) && NetOk(w) && AccountsOk(w) && WorkerOk(w)
  }

  // ----- what the surroundings of a message or a worker may change

  ghost predicate TaskGrows(t: Task, t': Task, bound: nat) {
    && t'.account == t.account && (!Open(t) ==> t' == t) && (SecretKept(t') ==> t'.secret == t.secret)
    && (0 < t'.token < bound ==> t'.token == t.token && t'.action == t.action && t'.secret == t.secret
                                 && (t.action != TaskService.Rotate || t.hasCandidate ==>
                                       t'.candidate == t.candidate && t'.hasCandidate == t.hasCandidate))
  }

  ghost predicate HistoryGrows(h: History, h': History) {
    && h.rotations <= h'.rotations && |h.phases| <= |h'.phases| && h.stored <= h'.stored
    && (forall s :: s in h.activated ==> s in h'.activated)
  }

  ghost predicate SavesKept(j: Store, j': Store) {
    forall id :: id in j && RecoveryJournal.Replayable(j[id]) ==>
      id in j' && j'[id].candidate == j[id].candidate && (j[id].acknowledged ==> j'[id].acknowledged)
  }

  ghost predicate GrowsAt(w: World, w': World, id: int) {
    && (id in w.tasks ==>
          && id in w'.tasks && TaskGrows(w.tasks[id], w'.tasks[id], w.nextToken)
          && (0 < w'.tasks[id].token < w.nextToken && id in w.history && Verified(w, id) ==> id in w'.history && Verified(w', id)))
    && (id in w.history ==> id in w'.history && HistoryGrows(w.history[id], w'.history[id]))
  }

  ghost predicate Grows(w: World, w': World) {
    && w.nextToken <= w'.nextToken && SavesKept(w.journal, w'.journal)
    && forall id {:trigger GrowsAt(w, w', id)} :: GrowsAt(w, w', id)
  }

  /** Nothing was sent on behalf of a task. */
  ghost predicate QuietAt(w: World, w': World, id: int) {
    id in w.history ==>
      && id in w'.history && w'.history[id].enrolled == w.history[id].enrolled && w'.history[id].activated == w.history[id].activated
      && (w.history[id].rotations > 0 ==> w'.history[id].rotations == w.history[id].rotations)
  }

  ghost predicate Quiet(w: World, w': World) {
    forall id {:trigger QuietAt(w, w', id)} :: QuietAt(w, w', id)
  }

  ghost function TaskOf(m: Message): int {
    match m
    case ClaimMessage => 0
    case PhaseMessage(task, _, _, _) => task
    case FinishMessage(task, _, _) => task
    case RecoverMessage(task, _) => task
    case LoginMessage(task, _) => task
    case EnrollMessage(task) => task
    case ActivateMessage(task, _) => task
  }

  lemma MessageStable(w: World, w': World, m: Message)
    requires Grows(w, w') && MessageOk(w, m)
    ensures MessageOk(w', m)
  {
    assert GrowsAt(w, w', TaskOf(m));
  }

  lemma NetStable(w: World, w': World)
    requires Grows(w, w') && NetOk(w)
    requires forall m :: m in w'.net ==> m in w.net && w'.net[m] == w.net[m]
    ensures NetOk(w')
  {
    forall m ensures MessageAt(w', m) {
      if m in w'.net {
        assert MessageAt(w, m);
        MessageStable(w, w', w.net[m]);
      }
    }
  }

  lemma LocalStable(w: World, w': World, token: nat, l: Local, sending: bool)
    requires Grows(w, w') && Quiet(w, w') && LocalOk(w, token, l, sending)
    ensures LocalOk(w', token, l, sending)
  {
    assert GrowsAt(w, w', l.claim.task) && QuietAt(w, w', l.claim.task);
  }

  /** What a worker waits for besides its run. */
  lemma WaitingStable(w: World, w': World)
    requires Grows(w, w') && WorkerOk(w) && w'.worker == w.worker && w'.replies == w.replies
    requires w.worker.AwaitingRecovery? || w.worker.Confirming?
    requires w.journal.Keys <= w'.journal.Keys && w.nextId <= w'.nextId
    requires forall m :: m in w'.net && m < w.nextId ==> m in w.net && w'.net[m] == w.net[m]
    ensures WorkerOk(w')
  {
    assert GrowsAt(w, w', w.worker.task);
  }

  lemma WorkerStable(w: World, w': World)
    requires Grows(w, w') && Quiet(w, w') && WorkerOk(w) && w'.worker == w.worker && w'.replies == w.replies
    requires w.journal.Keys <= w'.journal.Keys && w.nextId <= w'.nextId
    requires forall m :: m in w'.net && m < w.nextId ==> m in w.net && w'.net[m] == w.net[m]
    ensures WorkerOk(w')
  {
    match w.worker
    case AwaitingRecovery(_, _, _, _) => WaitingStable(w, w');
    case Confirming(_, _) => WaitingStable(w, w');
    case Claiming(id) =>
      if id in w.replies && w.replies[id].Granted? {
        LocalStable(w, w', w.replies[id].token, Rotation.Init(w.replies[id].claim), false);
      }
    case Busy(token, l, sent) =>
      LocalStable(w, w', token, l, sent.Some?);
      if sent.Some? && sent.value in w.replies {
        LocalStable(w, w', token, Rotation.Next(l, w.replies[sent.value].outcome), false);
      }
    case _ =>
  }
}
