/** The rotation system as a whole: the API's tasks, the worker's journal, the
    upstream accounts, the network between them, and a worker that can crash anywhere.
    A request can be lost, or delivered at any later time, even after its sender gave
    up or crashed; nothing is delivered twice. */
module System {
  import opened Values
  import Secrets
  import RecoveryJournal
  import TaskService
  import Rotation

  type Store = RecoveryJournal.Store
  type Task = TaskService.Task
  type Local = Rotation.Local

  datatype Message =
    | ClaimMessage
    | PhaseMessage(task: int, token: nat, phase: PhaseName, secret: string)
    | FinishMessage(task: int, token: nat, success: bool)
    | RecoverMessage(task: int, secret: string)
    | LoginMessage(task: int, attempt: Json)
    | EnrollMessage(task: int)
    | ActivateMessage(task: int, secret: string)

  datatype Reply = Granted(token: nat, claim: Rotation.Claim) | Answered(outcome: Rotation.Outcome)

  /** `sent` is the request whose reply the current effect is waiting for. */
  datatype Worker =
    | Down
    | Idle
    | Recovering(todo: set<int>)
    | AwaitingRecovery(todo: set<int>, task: int, secret: string, id: nat)
    | Confirming(todo: set<int>, task: int)
    | Claiming(id: nat)
    | Busy(token: nat, local: Local, sent: Option<nat>)

  /** What has happened to a task so far: rotation claims handed out, enrolments and
      activations sent, rotation phases and candidates the API accepted. `overtaken`: the
      task's activation arrived while it was to verify the old secret, and no login with
      that secret has succeeded since. */
  datatype History = History(rotations: nat, enrolled: nat, activated: seq<string>,
                             phases: seq<PhaseName>, stored: set<string>, overtaken: bool)

  /** `current` is the secret each upstream account accepts, `origin` the one it started
      with. `late` holds the accounts that the API may have lost track of: an activation of
      a closed task arrived, or a task succeeded with the old secret after its own
      activation had arrived, and no login with a secret of an open task has succeeded
      since. For each account `last` is the task queued last, and `keeper` the task whose
      success last gave it a new key. */
  datatype World = World(tasks: map<int, Task>, history: map<int, History>, credentials: map<int, string>,
                         journal: Store, current: map<int, string>, origin: map<int, string>, late: set<int>,
                         last: map<int, int>, keeper: map<int, int>,
                         net: map<nat, Message>, replies: map<nat, Reply>, nextId: nat, nextToken: nat,
                         worker: Worker)

  /** Everything nondeterministic about a delivery. */
  datatype Chance = Chance(now: real, task: int, email: string, password: string, secret: Json, session: Json)

  datatype Step =
    | QueueRotation(task: int, account: int)
    | Reconcile(task: int, action: TaskService.Action)
    | Expire(task: int, now: real)
    | FailQueued(task: int)
    | Renew(task: int, now: real)
    | Deliver(id: nat, chance: Chance)
    | Lose(id: nat)
    | Crash
    | Restart
    | Poll
    | AbortRecovery
    | SkipRecord(task: int)
    | SendRecovery(task: int)
    | RecoveryReply
    | RecoveryGiveUp
    | ConfirmRecovered(reached: bool)
    | SendClaim
    | ClaimReply
    | ClaimGiveUp
    | Fence
    | Send
    | Receive
    | GiveUp
    | UseJournal(reached: bool, ok: bool)
    | Proceed(ok: bool)
    | Leave

  // ----- the API

  function WithTask(w: World, id: int, t: Task): World
  {
    w.(tasks := w.tasks[id := t])
  }

  predicate AccountBusy(w: World, account: int) {
    exists id :: id in w.tasks && w.tasks[id].account == account && Open(w.tasks[id])
  }

  function QueueStep(w: World, id: int, account: int): Option<World> {
    if id in w.tasks || !RecoveryJournal.ValidId(id) || account !in w.credentials || AccountBusy(w, account) then None
    else Some(w.(tasks := w.tasks[id := TaskService.NewTask(account, TaskService.TotpRotation, w.credentials[account])],
                 history := w.history[id := History(0, 0, [], [], {}, false)], last := w.last[account := id]))
  }

  function TaskStep(w: World, id: int, next: Option<Task>): Option<World> {
    if next.None? then None else Some(WithTask(w, id, next.value))
  }

  function WorkerAction(a: TaskService.Action): Rotation.ClaimAction {
    match a
    case Rotate => Rotation.RotateKey
    case VerifyNew => Rotation.VerifyNewKey
    case VerifyOld => Rotation.VerifyOldKey
    case LoginOnly => Rotation.OtherAction
  }

  /** The claim the API hands out; an empty candidate is omitted and read as ''. */
  function ClaimOf(id: int, t: Task, email: string, password: string): Rotation.Claim {
    Rotation.Claim(id, Number(t.account), email, password, WorkerAction(t.action), t.secret, Str(t.candidate))
  }

  function DeliverClaim(w: World, id: nat, c: Chance): Option<World> {
    if c.task !in w.tasks then None
    else
      var t := w.tasks[c.task];
      var next := TaskService.Claim(t, w.nextToken, 1, c.now);
      if next.None? || c.task !in w.history then None
      else
        var h := w.history[c.task];
        Some(Respond(WithTask(w, c.task, next.value), id, Granted(w.nextToken, ClaimOf(c.task, t, c.email, c.password)))
             .(nextToken := w.nextToken + 1,
               history := w.history[c.task := h.(rotations := h.rotations + if t.action == TaskService.Rotate then 1 else 0)]))
  }

  function DeliverPhase(w: World, id: nat, task: int, token: nat, phase: PhaseName, secret: string, now: real): Option<World> {
    if task !in w.tasks || task !in w.history then None
    else
      var t := TaskService.Expire(w.tasks[task], now);
      var next := TaskService.Phase(t, token, phase, secret, now);
      if next.None? then None
      else
        var h := w.history[task];
        var h' := if t.action != TaskService.Rotate then h
                  else h.(phases := h.phases + [phase],
                          stored := if phase == ToPrepared then h.stored + {next.value.candidate} else h.stored);
        Some(Respond(WithTask(w, task, next.value), id, Answered(Rotation.Ok)).(history := w.history[task := h']))
  }

  function DeliverFinish(w: World, id: nat, task: int, token: nat, success: bool, now: real): Option<World> {
    if task !in w.tasks || task !in w.history then None
    else
      var t := TaskService.Expire(w.tasks[task], now);
      var next := TaskService.Finish(t, token, success, false, now);
      if next.None? then None
      else
        var w' := if success then Succeeded(w, task, next.value) else WithTask(w, task, next.value);
        Some(Respond(w', id, Answered(Rotation.Ok)))
  }

  /** The task has succeeded as `t`, with the secret that becomes the credential. */
  function Succeeded(w: World, task: int, t: Task): World
    requires task in w.history
  {
    var restored := t.action == TaskService.VerifyOld;
    WithTask(w, task, t).(credentials := w.credentials[t.account := t.secret],
                          keeper := if restored then w.keeper else w.keeper[t.account := task],
                          late := if restored && w.history[task].overtaken then w.late + {t.account} else w.late)
  }

  function DeliverRecover(w: World, id: nat, task: int, secret: string, now: real): Option<World> {
    if task !in w.tasks || task !in w.history then None
    else
      var next := TaskService.Recover(TaskService.Expire(w.tasks[task], now), secret);
      if next.None? then None
      else
        var h := w.history[task];
        Some(Respond(WithTask(w, task, next.value), id, Answered(Rotation.Ok))
             .(history := w.history[task := h.(stored := h.stored + {next.value.candidate})]))
  }

  // ----- the upstream

  predicate SameKey(secret: Json, current: string) {
    secret.Str? && Secrets.Canonical(secret.s) == Secrets.Canonical(current)
  }

  predicate Open(t: Task) {
    !TaskService.Resolved(t.state)
  }

  /** The secret a successful finish of the task would make current. */
  function Goal(t: Task): string {
    if t.action == TaskService.VerifyOld then t.secret else t.candidate
  }

  predicate HasGoal(t: Task) {
    Open(t) && (t.action == TaskService.VerifyOld || t.hasCandidate)
  }

  /** The task's goal is known to be what the account accepts. */
  function Confirmed(w: World, task: int): World
    requires task in w.tasks && task in w.history
  {
    w.(late := w.late - {w.tasks[task].account}, history := w.history[task := w.history[task].(overtaken := false)])
  }

  /** A login on behalf of the task has succeeded. If it was with the task's goal, the API
      holds the account's secret. */
  function LoggedIn(w: World, task: int, secret: Json): World
    requires task in w.tasks && task in w.history
  {
    if HasGoal(w.tasks[task]) && SameKey(secret, Goal(w.tasks[task])) then Confirmed(w, task) else w
  }

  function DeliverLogin(w: World, id: nat, task: int, secret: Json): Option<World> {
    if task !in w.tasks || task !in w.history || w.tasks[task].account !in w.current then None
    else
      var ok := SameKey(secret, w.current[w.tasks[task].account]);
      Some(Respond(if ok then LoggedIn(w, task, secret) else w, id, Answered(if ok then Rotation.LoggedIn else Rotation.Refused)))
  }

  /** The upstream account of the task accepts `secret` from now on. */
  function Activated(w: World, task: int, secret: string): World
    requires task in w.tasks && task in w.history
  {
    var t := w.tasks[task];
    w.(current := w.current[t.account := secret],
       late := if Open(t) then w.late else w.late + {t.account},
       history := w.history[task := w.history[task].(overtaken :=
         w.history[task].overtaken || (Open(t) && t.action == TaskService.VerifyOld))])
  }

  function DeliverActivate(w: World, id: nat, task: int, secret: string): Option<World> {
    if task !in w.tasks || task !in w.history then None
    else Some(Respond(Activated(w, task, secret), id, Answered(Rotation.Ok)))
  }

  // ----- the network

  function Respond(w: World, id: nat, r: Reply): World {
    w.(net := w.net - {id}, replies := w.replies[id := r])
  }

  function DeliverStep(w: World, id: nat, c: Chance): Option<World> {
    if id !in w.net then None
    else
      match w.net[id]
      case ClaimMessage => DeliverClaim(w, id, c)
      case PhaseMessage(task, token, phase, secret) => DeliverPhase(w, id, task, token, phase, secret, c.now)
      case FinishMessage(task, token, success) => DeliverFinish(w, id, task, token, success, c.now)
      case RecoverMessage(task, secret) => DeliverRecover(w, id, task, secret, c.now)
      case LoginMessage(task, secret) => DeliverLogin(w, id, task, secret)
      case EnrollMessage(_) => Some(Respond(w, id, Answered(Rotation.Enrolled(c.secret, c.session))))
      case ActivateMessage(task, secret) => DeliverActivate(w, id, task, secret)
  }

  function Transmit(w: World, m: Message): World {
    w.(net := w.net[w.nextId := m], nextId := w.nextId + 1)
  }

  // ----- the worker's poll

  function SendRecoveryStep(w: World, task: int): Option<World> {
    if !w.worker.Recovering? || task !in w.worker.todo || task !in w.journal || !RecoveryJournal.Replayable(w.journal[task]) then None
    else
      var secret := w.journal[task].candidate.s;
      Some(Transmit(w, RecoverMessage(task, secret)).(worker := AwaitingRecovery(w.worker.todo - {task}, task, secret, w.nextId)))
  }

  function SkipStep(w: World, task: int): Option<World> {
    if !w.worker.Recovering? || task !in w.worker.todo || task !in w.journal || RecoveryJournal.Replayable(w.journal[task]) then None
    else Some(w.(worker := Recovering(w.worker.todo - {task})))
  }

  function ConfirmStep(w: World, reached: bool): Option<World> {
    if !w.worker.Confirming? then None
    else
      var j := RecoveryJournal.Acknowledge(w.journal, w.worker.task);
      Some(w.(worker := Recovering(w.worker.todo), journal := if reached && j.Some? then j.value else w.journal))
  }

  // ----- the worker's run of `rotate`

  /** The request that the current effect sends, if it is one. */
  function MessageOf(token: nat, l: Local): Option<Message> {
    var task := l.claim.task;
    var candidate := if l.candidate.Str? then l.candidate.s else "";
    match l.pc
    case OpeningSession => Some(LoginMessage(task, Str(l.claim.secret)))
    case PostingEnrolling => Some(PhaseMessage(task, token, ToEnrolling, ""))
    case SendingEnroll => Some(EnrollMessage(task))
    case PostingPrepared => Some(PhaseMessage(task, token, ToPrepared, candidate))
    case PostingActivating => Some(PhaseMessage(task, token, ToActivating, ""))
    case SendingActivate => Some(ActivateMessage(task, candidate))
    case PostingVerifying => Some(PhaseMessage(task, token, ToVerifying, ""))
    case PostingRecovery => Some(PhaseMessage(task, token, ToVerifyRecovery, ""))
    case LoginAccepted => Some(LoginMessage(task, Rotation.Accepted(l)))
    case LoginRejected => Some(LoginMessage(task, Rotation.Rejected(l)))
    case Succeeding => Some(FinishMessage(task, token, true))
    case Failing => Some(FinishMessage(task, token, false))
    case _ => None
  }

  function Advance(w: World, o: Rotation.Outcome): World
    requires w.worker.Busy? && w.worker.local.pc != Rotation.Done
  {
    w.(worker := Busy(w.worker.token, Rotation.Next(w.worker.local, o), None))
  }

  /** The guard in front of the current effect raises. */
  function FenceStep(w: World): Option<World> {
    if !w.worker.Busy? || w.worker.sent.Some? || w.worker.local.pc.Failing? || MessageOf(w.worker.token, w.worker.local).None? then None
    else Some(Advance(w, Rotation.Fenced))
  }

  function Counted(h: History, m: Message): History {
    match m
    case EnrollMessage(_) => h.(enrolled := h.enrolled + 1)
    case ActivateMessage(_, secret) => h.(activated := h.activated + [secret])
    case _ => h
  }

  function SendStep(w: World): Option<World> {
    if !w.worker.Busy? || w.worker.sent.Some? || w.worker.local.claim.task !in w.history then None
    else
      var task := w.worker.local.claim.task;
      var m := MessageOf(w.worker.token, w.worker.local);
      if m.None? then None
      else Some(Transmit(w, m.value).(worker := w.worker.(sent := Some(w.nextId)),
                                      history := w.history[task := Counted(w.history[task], m.value)]))
  }

  function ReceiveStep(w: World): Option<World> {
    if !w.worker.Busy? || w.worker.sent.None? || w.worker.local.pc.Done? || w.worker.sent.value !in w.replies
       || !w.replies[w.worker.sent.value].Answered?
    then None
    else Some(Advance(w, w.replies[w.worker.sent.value].outcome))
  }

  function GiveUpStep(w: World): Option<World> {
    if !w.worker.Busy? || w.worker.sent.None? || w.worker.local.pc.Done? then None
    else Some(Advance(w, Rotation.Raised))
  }

  function RecordOf(l: Local): RecoveryJournal.Record {
    var blank := l.pc.SavingBlank?;
    RecoveryJournal.Record(l.claim.task, l.claim.account, Str(l.claim.email), Str(l.claim.password), Str(l.claim.secret),
                           if blank then Str("") else l.candidate, if blank then Str("") else l.session, false)
  }

  /** What the current journal effect does to the store, if it is carried out. */
  function JournalEffect(w: World, l: Local): Option<Store> {
    match l.pc
    case Opening => Some(w.journal)
    case SavingBlank => RecoveryJournal.Write(w.journal, RecordOf(l))
    case SavingCandidate => RecoveryJournal.Write(w.journal, RecordOf(l))
    case Acknowledging => RecoveryJournal.Acknowledge(w.journal, l.claim.task)
    case _ => None
  }

  predicate JournalPc(pc: Rotation.Pc) {
    pc.Opening? || pc.SavingBlank? || pc.SavingCandidate? || pc.Acknowledging?
  }

  function JournalStep(w: World, reached: bool, ok: bool): Option<World> {
    if !w.worker.Busy? || w.worker.sent.Some? || !JournalPc(w.worker.local.pc) then None
    else
      var j := JournalEffect(w, w.worker.local);
      if ok && (!reached || j.None?) then None
      else Some(Advance(w.(journal := if reached && j.Some? then j.value else w.journal), if ok then Rotation.Ok else Rotation.Raised))
  }

  predicate LocalPc(pc: Rotation.Pc) {
    pc.FirstGuard? || pc.VerifyGuard? || pc.Waiting? || pc.SecondGuard?
  }

  function ProceedStep(w: World, ok: bool): Option<World> {
    if !w.worker.Busy? || w.worker.sent.Some? || !LocalPc(w.worker.local.pc) then None
    else Some(Advance(w, if ok then Rotation.Ok else Rotation.Fenced))
  }

  /** The world after a step, or none when the step cannot happen. */
  function Apply(w: World, step: Step): Option<World> {
    match step
    case QueueRotation(task, account) => QueueStep(w, task, account)
    case Reconcile(task, action) => if task !in w.tasks then None else TaskStep(w, task, TaskService.Reconcile(w.tasks[task], action))
    case Expire(task, now) => if task !in w.tasks then None else Some(WithTask(w, task, TaskService.Expire(w.tasks[task], now)))
    case FailQueued(task) => if task !in w.tasks then None else TaskStep(w, task, TaskService.FailQueued(w.tasks[task]))
    case Renew(task, now) =>
      if task !in w.tasks then None else TaskStep(w, task, TaskService.Heartbeat(w.tasks[task], w.tasks[task].token, w.tasks[task].worker, now))
    case Deliver(id, chance) => DeliverStep(w, id, chance)
    case Lose(id) => if id !in w.net then None else Some(w.(net := w.net - {id}))
    case Crash => Some(w.(worker := Down))
    case Restart => if w.worker.Down? then Some(w.(worker := Idle)) else None
    case Poll => if w.worker.Idle? then Some(w.(worker := Recovering(RecoveryJournal.Pending(w.journal)))) else None
    case AbortRecovery => if w.worker.Recovering? then Some(w.(worker := Idle)) else None
    case SkipRecord(task) => SkipStep(w, task)
    case SendRecovery(task) => SendRecoveryStep(w, task)
    case RecoveryReply =>
      if w.worker.AwaitingRecovery? && w.worker.id in w.replies then Some(w.(worker := Confirming(w.worker.todo, w.worker.task))) else None
    case RecoveryGiveUp => if w.worker.AwaitingRecovery? then Some(w.(worker := Recovering(w.worker.todo))) else None
    case ConfirmRecovered(reached) => ConfirmStep(w, reached)
    case SendClaim =>
      if w.worker == Recovering({}) then Some(Transmit(w, ClaimMessage).(worker := Claiming(w.nextId))) else None
    case ClaimReply =>
      if w.worker.Claiming? && w.worker.id in w.replies && w.replies[w.worker.id].Granted? then
        var granted := w.replies[w.worker.id];
        Some(w.(worker := Busy(granted.token, Rotation.Init(granted.claim), None)))
      else None
    case ClaimGiveUp => if w.worker.Claiming? then Some(w.(worker := Idle)) else None
    case Fence => FenceStep(w)
    case Send => SendStep(w)
    case Receive => ReceiveStep(w)
    case GiveUp => GiveUpStep(w)
    case UseJournal(reached, ok) => JournalStep(w, reached, ok)
    case Proceed(ok) => ProceedStep(w, ok)
    case Leave => if w.worker.Busy? && w.worker.local.pc.Done? then Some(w.(worker := Idle)) else None
  }

  /** Accounts whose stored credential is the one the upstream accepts, and nothing
      else yet. */
  predicate Initial(w: World) {
    && w.tasks == map[] && w.history == map[] && w.journal == map[] && w.net == map[] && w.replies == map[]
    && w.worker == Down && w.late == {} && w.last == map[] && w.keeper == map[] && w.nextToken > 0
    && w.current == w.origin && w.current.Keys == w.credentials.Keys
    && forall a :: a in w.credentials ==> Secrets.Canonical(w.current[a]) == Secrets.Canonical(w.credentials[a])
  }

  ghost predicate StepTo(ws: seq<World>, i: nat)
    requires 0 < i < |ws|
  {
    Follows(ws[i - 1], ws[i])
  }

  /** A run: every world follows from the one before by some step. */
  ghost predicate IsRun(ws: seq<World>) {
    && ws != [] && Initial(ws[0])
    && forall i :: 0 < i < |ws| ==> StepTo(ws, i)
  }

  ghost predicate Follows(w: World, w': World) {
    exists step: Step :: Apply(w, step) == Some(w')
  }

  // ----- what the API holds

  ghost predicate SameSecret(a: string, b: string) {
    Secrets.Canonical(a) == Secrets.Canonical(b)
  }

  /** An open task of the account stores the secret the upstream accepts. */
  ghost predicate Stores(w: World, a: int, id: int)
    requires a in w.current
  {
    id in w.tasks && w.tasks[id].account == a && Open(w.tasks[id]) && w.tasks[id].hasCandidate
    && SameSecret(w.current[a], w.tasks[id].candidate)
  }

  /** The API holds the secret the upstream accepts for the account. */
  ghost predicate ApiHolds(w: World, account: int) {
    account in w.current && account in w.credentials
    && (SameSecret(w.current[account], w.credentials[account]) || exists id :: Stores(w, account, id))
  }
}
