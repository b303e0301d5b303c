/** The lease around a running task: the task's flag and renewal time, the heartbeat
    thread, shutdown, the claim the API keeps, and the run of `rotate` itself. Threads
    interleave between any two steps, and in particular between a guard and the request it
    was made for; sections under the worker's lock are one step. */
module Lease {
  import opened Values
  import TaskService
  import Rotation
  import Totp

  type Task = TaskService.Task
  type Local = Rotation.Local

  /** Seconds after its last renewal at which a task stops itself. */
  const GUARD_LIMIT: real := 45.0

  /** What a task has done: its claim, the outcomes so far, the requests sent, when its
      accepted login had ended, and until when it waits for the next window. */
  datatype Job = Job(claim: Rotation.Claim, outcomes: seq<Rotation.Outcome>, sent: seq<Rotation.Effect>,
                     accepted: Option<real>, until: Option<real>)

  /** `ActiveTask`: its flag and renewal time, and the claim it was made for: the token,
      when the API granted it, and the API's record. `over`: a report has been sent. */
  datatype Active = Active(cancel: bool, renewed: real, token: nat, granted: real, server: Task, over: bool, job: Job)

  /** The guard lets the task go on. */
  predicate Passes(cancel: bool, renewed: real, now: real) {
    !cancel && now - renewed <= GUARD_LIMIT
  }

  /** How far the current effect is: untouched, past its guard, or sent. */
  datatype Progress = Fresh | Armed | Awaiting

  datatype Main =
    | Polling
    | Granted(token: nat, server: Task, claim: Rotation.Claim)
    | Created(i: nat)
    | Published(i: nat)
    | Running(i: nat, local: Local, progress: Progress)

  /** `Answered(i, at)`: the API renewed task `i` at time `at`; the reply is on its way. */
  datatype Heart = Resting | Captured(task: Option<nat>) | Answered(i: nat, at: real)

  datatype Stopper = Ready | StopSet

  /** `stopped`: some shutdown has completed. `delay` bounds the time between the API
      granting or renewing a claim and the worker noting it; `skew` is what the wall clock
      is ahead of the monotonic one. */
  datatype World = World(now: real, skew: real, delay: real, stop: bool, active: Option<nat>, tasks: seq<Active>,
                         main: Main, heart: Heart, stopper: Stopper, stopped: bool)

  datatype Step =
    | Tick(to: real)
    // the main thread
    | Grant(token: nat, server: Task, claim: Rotation.Claim)
    | Create
    | Publish
    | TestStop
    | GuardPasses
    | GuardFails
    | Send
    | SendFailure
    | Receive(outcome: Rotation.Outcome)
    | Work(ok: bool)
    | StartWait
    | Leave
    // the API
    | PhaseAccepted(i: nat, phase: PhaseName, secret: string)
    | FinishAccepted(i: nat, success: bool)
    | ServerExpires(i: nat)
    // the heartbeat thread
    | Capture
    | Renewed
    | Note
    | Revoke
    | NothingToRenew
    // shutdown
    | BeginShutdown
    | EndShutdown

  predicate MainStep(step: Step) {
    step.Grant? || step.Create? || step.Publish? || step.TestStop? || step.GuardPasses? || step.GuardFails? || step.Send?
    || step.SendFailure? || step.Receive? || step.Work? || step.StartWait? || step.Leave?
  }

  // ----- the effects of `rotate`

  /** Effects with a guard directly in front of their request. */
  predicate Guarded(pc: Rotation.Pc) {
    pc.OpeningSession? || pc.PostingEnrolling? || pc.SendingEnroll? || pc.PostingPrepared? || pc.PostingActivating?
    || pc.SendingActivate? || pc.PostingVerifying? || pc.PostingRecovery? || pc.LoginAccepted? || pc.LoginRejected?
    || pc.Succeeding?
  }

  /** The same, said of the effect. */
  lemma GuardedEffects(l: Local)
    requires !l.pc.Done?
    ensures Guarded(l.pc) <==> Rotation.NeedsGuard(Rotation.EffectOf(l))
  {
  }

  /** Effects that are a guard and nothing else; the wait ends with one. */
  predicate GuardPoint(pc: Rotation.Pc) {
    pc.FirstGuard? || pc.VerifyGuard? || pc.Waiting? || pc.SecondGuard?
  }

  /** Effects on the journal. */
  predicate JournalPoint(pc: Rotation.Pc) {
    pc.Opening? || pc.SavingBlank? || pc.SavingCandidate? || pc.Acknowledging?
  }

  predicate IsPost(pc: Rotation.Pc) {
    pc.PostingEnrolling? || pc.PostingPrepared? || pc.PostingActivating? || pc.PostingVerifying? || pc.PostingRecovery?
  }

  // ----- steps

  function Put(w: World, i: nat, a: Active): World
    requires i < |w.tasks|
  {
    w.(tasks := w.tasks[i := a])
  }

  function Cancelled(w: World, i: nat): World
    requires i < |w.tasks|
  {
    Put(w, i, w.tasks[i].(cancel := true))
  }

  predicate AtWork(w: World) {
    w.main.Running? && w.main.i < |w.tasks|
  }

  /** The current effect turns out as `o`. */
  function Advance(w: World, o: Rotation.Outcome): World
    requires AtWork(w) && !w.main.local.pc.Done?
  {
    var a := w.tasks[w.main.i];
    Put(w, w.main.i, a.(job := a.job.(outcomes := a.job.outcomes + [o])))
    .(main := Running(w.main.i, Rotation.Next(w.main.local, o), Fresh))
  }

  /** The main thread has reached a guard. At the end of a wait that is once the wait is
      over, or as soon as the flag is up. */
  predicate AtGuard(w: World) {
    AtWork(w) && w.main.progress.Fresh?
    && (Guarded(w.main.local.pc) || GuardPoint(w.main.local.pc))
    && (w.main.local.pc.Waiting? ==>
          var a := w.tasks[w.main.i];
          a.job.until.Some? && (a.cancel || a.job.until.value <= w.now))
  }

  function GuardStep(w: World, passes: bool): Option<World> {
    if !AtGuard(w) || Passes(w.tasks[w.main.i].cancel, w.tasks[w.main.i].renewed, w.now) != passes then None
    else if !passes then Some(Advance(Cancelled(w, w.main.i), Rotation.Fenced))
    else if GuardPoint(w.main.local.pc) then Some(Advance(w, Rotation.Ok))
    else Some(w.(main := w.main.(progress := Armed)))
  }

  function Sent(w: World): World
    requires AtWork(w) && !w.main.local.pc.Done?
  {
    var a := w.tasks[w.main.i];
    var pc := w.main.local.pc;
    Put(w, w.main.i, a.(over := a.over || pc.Succeeding? || pc.Failing?,
                        job := a.job.(sent := a.job.sent + [Rotation.EffectOf(w.main.local)])))
    .(main := w.main.(progress := Awaiting))
  }

  /** The reply to the current request. A phase post that raises cancels the task, and the
      end of the accepted login is noted. */
  function ReceiveStep(w: World, o: Rotation.Outcome): Option<World> {
    if !AtWork(w) || !w.main.progress.Awaiting? || w.main.local.pc.Done? || o.Fenced? then None
    else
      var a := w.tasks[w.main.i];
      var a' := a.(cancel := a.cancel || (IsPost(w.main.local.pc) && !o.Ok?),
                   job := a.job.(accepted := if w.main.local.pc.LoginAccepted? then Some(w.now) else a.job.accepted));
      Some(Advance(Put(w, w.main.i, a'), o))
  }

  function WorkStep(w: World, ok: bool): Option<World> {
    if !AtWork(w) || !w.main.progress.Fresh? || !JournalPoint(w.main.local.pc) then None
    else Some(Advance(w, if ok then Rotation.Ok else Rotation.Raised))
  }

  /** The wait for the next window begins. */
  function WaitStep(w: World): Option<World> {
    if !AtWork(w) || !w.main.progress.Fresh? || !w.main.local.pc.Waiting? || w.tasks[w.main.i].job.until.Some? then None
    else
      var a := w.tasks[w.main.i];
      Some(Put(w, w.main.i, a.(job := a.job.(until := Some(w.now + Totp.WindowWait(w.now + w.skew))))))
  }

  function MainApply(w: World, step: Step): Option<World>
    requires MainStep(step)
  {
    match step
    case Grant(token, server, claim) =>
      // The API hands out a claim; `server` is its record from now on.
      if w.main.Polling? && TaskService.ValidClaim(server, token, w.now) && server.startedAt == w.now
         && server.leaseUntil == w.now + TaskService.LEASE
      then Some(w.(main := Granted(token, server, claim))) else None
    case Create =>
      if w.main.Granted? && w.now <= w.main.server.startedAt + w.delay then
        var a := Active(false, w.now, w.main.token, w.main.server.startedAt, w.main.server, false,
                        Job(w.main.claim, [], [], None, None));
        Some(w.(tasks := w.tasks + [a], main := Created(|w.tasks|)))
      else None
    case Publish => if w.main.Created? then Some(w.(active := Some(w.main.i), main := Published(w.main.i))) else None
    case TestStop =>
      if w.main.Published? && w.main.i < |w.tasks| then
        Some((if w.stop then Cancelled(w, w.main.i) else w)
             .(main := Running(w.main.i, Rotation.Init(w.tasks[w.main.i].job.claim), Fresh)))
      else None
    case GuardPasses => GuardStep(w, true)
    case GuardFails => GuardStep(w, false)
    case Send => if AtWork(w) && w.main.progress.Armed? && !w.main.local.pc.Done? then Some(Sent(w)) else None
    case SendFailure => if AtWork(w) && w.main.progress.Fresh? && w.main.local.pc.Failing? then Some(Sent(w)) else None
    case Receive(o) => ReceiveStep(w, o)
    case Work(ok) => WorkStep(w, ok)
    case StartWait => WaitStep(w)
    case Leave => if w.main.Running? && w.main.local.pc.Done? then Some(w.(active := None, main := Polling)) else None
  }

  function ServerApply(a: Active, step: Step, now: real): Option<Task>
    requires step.PhaseAccepted? || step.FinishAccepted? || step.ServerExpires?
  {
    var server := TaskService.Expire(a.server, now);
    match step
    case PhaseAccepted(_, phase, secret) =>
      if Rotation.Post(phase, Str(secret)) in a.job.sent then TaskService.Phase(server, a.token, phase, secret, now) else None
    case FinishAccepted(_, success) => if a.over then TaskService.Finish(server, a.token, success, false, now) else None
    case ServerExpires(_) => Some(server)
  }

  function HeartApply(w: World, step: Step): Option<World>
    requires step.Capture? || step.Renewed? || step.Note? || step.Revoke? || step.NothingToRenew?
  {
    match step
    case Capture => if w.heart.Resting? then Some(w.(heart := Captured(w.active))) else None
    case Renewed =>
      if w.heart.Captured? && w.heart.task.Some? && w.heart.task.value < |w.tasks| then
        var a := w.tasks[w.heart.task.value];
        var next := TaskService.Heartbeat(TaskService.Expire(a.server, w.now), a.token, a.server.worker, w.now);
        if next.None? then None
        else Some(Put(w, w.heart.task.value, a.(server := next.value)).(heart := Answered(w.heart.task.value, w.now)))
      else None
    case Note =>
      if w.heart.Answered? && w.now <= w.heart.at + w.delay && w.heart.i < |w.tasks| then
        Some(Put(w, w.heart.i, w.tasks[w.heart.i].(renewed := w.now)).(heart := Resting))
      else None
    case Revoke =>
      if w.heart.Captured? && w.heart.task.Some? && w.heart.task.value < |w.tasks| then Some(Cancelled(w, w.heart.task.value).(heart := Resting))
      else if w.heart.Answered? && w.heart.i < |w.tasks| then Some(Cancelled(w, w.heart.i).(heart := Resting))
      else None
    case NothingToRenew => if w.heart == Captured(None) then Some(w.(heart := Resting)) else None
  }

  function StopApply(w: World, step: Step): Option<World>
    requires step.BeginShutdown? || step.EndShutdown?
  {
    match step
    case BeginShutdown => if w.stopper.Ready? then Some(w.(stop := true, stopper := StopSet)) else None
    case EndShutdown =>
      if w.stopper.StopSet? then
        var w' := if w.active.Some? && w.active.value < |w.tasks| then Cancelled(w, w.active.value) else w;
        Some(w'.(stopper := Ready, stopped := true))
      else None
  }

  function Apply(w: World, step: Step): Option<World> {
    if MainStep(step) then MainApply(w, step)
    else if step.Tick? then (if w.now <= step.to then Some(w.(now := step.to)) else None)
    else if step.PhaseAccepted? || step.FinishAccepted? || step.ServerExpires? then
      if step.i >= |w.tasks| then None
      else
        var server := ServerApply(w.tasks[step.i], step, w.now);
        if server.None? then None else Some(Put(w, step.i, w.tasks[step.i].(server := server.value)))
    else if step.BeginShutdown? || step.EndShutdown? then StopApply(w, step)
    else HeartApply(w, step)
  }

  predicate Initial(w: World) {
    w.tasks == [] && w.active == None && w.main == Polling && w.heart == Resting && w.stopper == Ready
    && !w.stop && !w.stopped && 0.0 <= w.delay && w.delay + GUARD_LIMIT < TaskService.LEASE
  }

  ghost predicate StepTo(ws: seq<World>, steps: seq<Step>, k: nat)
    requires k < |steps| && |ws| == |steps| + 1
  {
    Apply(ws[k], steps[k]) == Some(ws[k + 1])
  }

  /** A run: the worlds and the steps between them. */
  ghost predicate IsRun(ws: seq<World>, steps: seq<Step>) {
    |ws| == |steps| + 1 && Initial(ws[0]) && forall k :: 0 <= k < |steps| ==> StepTo(ws, steps, k)
  }

  // ----- the invariant

  /** The claim that a renewal at time `at` stands for: the API still honours it, or it has
      run out since, or reached its absolute limit, or the task has sent its report. */
  predicate RenewalOk(a: Active, at: real, now: real) {
    && at < a.granted + TaskService.RUN_LIMIT && at <= now
    && ((a.server.token == a.token && a.token != 0 && TaskService.Claimed(a.server.state) && at + TaskService.LEASE <= a.server.leaseUntil)
        || at + TaskService.LEASE <= now || a.granted + TaskService.RUN_LIMIT <= now || a.over)
  }

  /** The renewal time was noted within `delay` of some renewal by the API. */
  ghost predicate TaskOk(a: Active, now: real, delay: real) {
    && a.server.startedAt == a.granted && a.token != 0
    && (a.server.token == a.token ==> TaskService.Claimed(a.server.state))
    && exists at: real :: RenewalOk(a, at, now) && at <= a.renewed <= at + delay
  }

  ghost predicate TasksOk(w: World) {
    && 0.0 <= w.delay && w.delay + GUARD_LIMIT < TaskService.LEASE
    && (forall i :: 0 <= i < |w.tasks| ==> TaskOk(w.tasks[i], w.now, w.delay))
    && (w.main.Granted? ==>
          var server := w.main.server;
          server.token == w.main.token && w.main.token != 0 && TaskService.Claimed(server.state)
          && server.leaseUntil == server.startedAt + TaskService.LEASE && server.startedAt <= w.now)
    && (w.heart.Answered? ==> w.heart.i < |w.tasks| && RenewalOk(w.tasks[w.heart.i], w.heart.at, w.now))
  }

  /** Who points where, and what a completed shutdown has done. */
  ghost predicate PlacesOk(w: World) {
    && (w.main.Created? ==> w.main.i < |w.tasks|)
    && (w.main.Published? || w.main.Running? ==> w.main.i < |w.tasks| && w.active == Some(w.main.i))
    && (w.heart.Captured? && w.heart.task.Some? ==> w.heart.task.value < |w.tasks|)
    && (w.active.Some? ==> w.active.value < |w.tasks|)
    && (w.stopper.StopSet? || w.stopped ==> w.stop)
    && (w.stopped && w.main.Running? ==> w.tasks[w.main.i].cancel)
  }

  /** An event of a run that sent something: not a guard, not a matter of the journal, and
      not stopped by the guard in front of it. */
  predicate IsRequest(e: Rotation.Event) {
    && !e.effect.Guard? && !e.effect.WaitForWindow? && !e.effect.OpenJournal? && !e.effect.SaveBlank?
    && !e.effect.SaveCandidate? && !e.effect.Acknowledge? && !e.outcome.Fenced?
  }

  ghost function Requests(trace: seq<Rotation.Event>): seq<Rotation.Effect> {
    if trace == [] then []
    else
      var last := trace[|trace| - 1];
      Requests(trace[..|trace| - 1]) + if IsRequest(last) then [last.effect] else []
  }

  /** The running task is at the end of a run of `rotate` and has sent the requests of that
      run; it has reported only if it is at its report or past it. */
  ghost predicate JobOk(a: Active, l: Local, progress: Progress) {
    && l == Rotation.End(Rotation.Init(a.job.claim), a.job.outcomes)
    && a.job.sent == Requests(Rotation.Trace(Rotation.Init(a.job.claim), a.job.outcomes))
                     + (if progress.Awaiting? && !l.pc.Done? then [Rotation.EffectOf(l)] else [])
    && (progress.Armed? ==> Guarded(l.pc)) && (progress.Awaiting? ==> Guarded(l.pc) || l.pc.Failing?)
    && (a.over ==> l.pc.Done? || l.pc.Failing? || (l.pc.Succeeding? && progress.Awaiting?))
  }

  /** Past the wait, the accepted login ended in an earlier time step than the present. */
  ghost predicate WindowOk(a: Active, l: Local, now: real, skew: real) {
    && (l.pc.Waiting? || l.pc.SecondGuard? || l.pc.LoginRejected? ==> a.job.accepted.Some? && a.job.accepted.value <= now)
    && (l.pc.Waiting? && a.job.until.Some? ==> LaterWindow(a.job.accepted.value, a.job.until.value, skew))
    && (l.pc.SecondGuard? || l.pc.LoginRejected? ==> LaterWindow(a.job.accepted.value, now, skew))
    && (a.job.until.Some? ==> l.pc.Waiting? || l.pc.SecondGuard? || l.pc.LoginRejected? || l.pc.Succeeding? || l.pc.Failing? || l.pc.Done?)
  }

  /** From `later` on, every time is in a later time step than `earlier`. */
  predicate LaterWindow(earlier: real, later: real, skew: real) {
    Totp.Counter(earlier + skew) < Totp.Counter(later + skew)
  }

  predicate NotStarted(a: Active) {
    !a.over && a.job.outcomes == [] && a.job.sent == [] && a.job.until == None
  }

  ghost predicate RunsOk(w: World) {
    && (w.main.Created? && w.main.i < |w.tasks| ==> NotStarted(w.tasks[w.main.i]))
    && (w.main.Published? && w.main.i < |w.tasks| ==> NotStarted(w.tasks[w.main.i]))
    && (AtWork(w) ==>
          JobOk(w.tasks[w.main.i], w.main.local, w.main.progress) && WindowOk(w.tasks[w.main.i], w.main.local, w.now, w.skew))
  }

  ghost predicate Ok(w: World) {
    TasksOk(w) && PlacesOk(w) && RunsOk(w)
  }

  // ----- the lease part is kept

  lemma RenewalLasts(a: Active, at: real, now: real, later: real)
    requires RenewalOk(a, at, now) && now <= later
    ensures RenewalOk(a, at, later)
  {
  }

  lemma TaskLasts(a: Active, now: real, later: real, delay: real)
    requires TaskOk(a, now, delay) && now <= later
    ensures TaskOk(a, later, delay)
  {
    var at: real :| RenewalOk(a, at, now) && at <= a.renewed <= at + delay;
    RenewalLasts(a, at, now, later);
  }

  /** A change that keeps what renewals say: of the API's record, of the flag, or of what
      the task has done. */
  ghost predicate Renewable(a: Active, a': Active, now: real) {
    && a'.renewed == a.renewed && a'.token == a.token && a'.granted == a.granted && a'.server.startedAt == a.granted
    && (a'.server.token == a'.token ==> TaskService.Claimed(a'.server.state))
    && forall at: real :: RenewalOk(a, at, now) ==> RenewalOk(a', at, now)
  }

  lemma RenewableKeeps(a: Active, a': Active, now: real, delay: real)
    requires TaskOk(a, now, delay) && Renewable(a, a', now)
    ensures TaskOk(a', now, delay)
  {
    var at: real :| RenewalOk(a, at, now) && at <= a.renewed <= at + delay;
    assert RenewalOk(a', at, now);
  }

  /** One task changes, in a way that keeps what renewals say. */
  lemma TaskChanges(w: World, w': World, i: nat)
    requires TasksOk(w) && i < |w.tasks| && |w'.tasks| == |w.tasks| && Renewable(w.tasks[i], w'.tasks[i], w.now)
    requires w'.now == w.now && w'.delay == w.delay && (w'.main == w.main || !w'.main.Granted?)
    requires w'.heart == w.heart || !w'.heart.Answered?
    requires forall j :: 0 <= j < |w.tasks| && j != i ==> w'.tasks[j] == w.tasks[j]
    ensures TasksOk(w')
  {
    forall j | 0 <= j < |w'.tasks| ensures TaskOk(w'.tasks[j], w'.now, w'.delay) {
      assert TaskOk(w.tasks[j], w.now, w.delay);
      if j == i {
        RenewableKeeps(w.tasks[i], w'.tasks[i], w.now, w.delay);
      }
    }
  }

  /** No task changes. */
  lemma TasksStay(w: World, w': World)
    requires TasksOk(w) && w'.tasks == w.tasks && w'.now == w.now && w'.delay == w.delay
    requires w'.main == w.main || !w'.main.Granted?
    requires w'.heart == w.heart || !w'.heart.Answered?
    ensures TasksOk(w')
  {
    forall j | 0 <= j < |w'.tasks| ensures TaskOk(w'.tasks[j], w'.now, w'.delay) {
      assert TaskOk(w.tasks[j], w.now, w.delay);
    }
  }

  lemma ServerIsRenewable(a: Active, step: Step, now: real, delay: real)
    requires step.PhaseAccepted? || step.FinishAccepted? || step.ServerExpires?
    requires TaskOk(a, now, delay) && ServerApply(a, step, now).Some?
    ensures Renewable(a, a.(server := ServerApply(a, step, now).value), now)
  {
  }

  lemma HeartbeatIsRenewable(a: Active, now: real, delay: real)
    requires TaskOk(a, now, delay)
    requires TaskService.Heartbeat(TaskService.Expire(a.server, now), a.token, a.server.worker, now).Some?
    ensures var a' := a.(server := TaskService.Heartbeat(TaskService.Expire(a.server, now), a.token, a.server.worker, now).value);
            Renewable(a, a', now) && RenewalOk(a', now, now)
  {
  }

  lemma ClockTasks(w: World, to: real)
    requires TasksOk(w) && w.now <= to
    ensures TasksOk(w.(now := to))
  {
    forall i | 0 <= i < |w.tasks| ensures TaskOk(w.tasks[i], to, w.delay) {
      TaskLasts(w.tasks[i], w.now, to, w.delay);
    }
  }

  lemma CreateTasks(w: World)
    requires TasksOk(w) && Apply(w, Create).Some?
    ensures TasksOk(Apply(w, Create).value)
  {
    var w' := Apply(w, Create).value;
    var a := w'.tasks[|w.tasks|];
    assert RenewalOk(a, a.granted, w.now);
    forall i | 0 <= i < |w'.tasks| ensures TaskOk(w'.tasks[i], w'.now, w'.delay) {
      assert i < |w.tasks| ==> w'.tasks[i] == w.tasks[i] && TaskOk(w.tasks[i], w.now, w.delay);
    }
  }

  lemma NoteTasks(w: World)
    requires TasksOk(w) && Apply(w, Note).Some?
    ensures TasksOk(Apply(w, Note).value)
  {
    var w', i := Apply(w, Note).value, w.heart.i;
    forall j | 0 <= j < |w'.tasks| ensures TaskOk(w'.tasks[j], w'.now, w'.delay) {
      assert TaskOk(w.tasks[j], w.now, w.delay);
      if j == i {
        assert RenewalOk(w.tasks[i], w.heart.at, w.now);
        assert RenewalOk(w'.tasks[i], w.heart.at, w.now);
      }
    }
  }

  lemma RenewTasks(w: World)
    requires TasksOk(w) && Apply(w, Renewed).Some?
    ensures TasksOk(Apply(w, Renewed).value)
  {
    var i := w.heart.task.value;
    assert TaskOk(w.tasks[i], w.now, w.delay);
    HeartbeatIsRenewable(w.tasks[i], w.now, w.delay);
    TaskChanges(w, Apply(w, Renewed).value.(heart := Resting), i);
    TasksStayAnswered(w, Apply(w, Renewed).value);
  }

  lemma TasksStayAnswered(w: World, w': World)
    requires TasksOk(w'.(heart := Resting)) && w'.heart.Answered? && w'.heart.i < |w'.tasks|
    requires RenewalOk(w'.tasks[w'.heart.i], w'.heart.at, w'.now)
    ensures TasksOk(w')
  {
    forall j | 0 <= j < |w'.tasks| ensures TaskOk(w'.tasks[j], w'.now, w'.delay) {
      assert TaskOk(w'.(heart := Resting).tasks[j], w'.now, w'.delay);
    }
  }

  /** A step of the main thread on the running task changes nothing about its claim. */
  lemma MainIsRenewable(w: World, step: Step)
    requires TasksOk(w) && MainStep(step) && !step.Create? && Apply(w, step).Some?
    ensures var w' := Apply(w, step).value;
            |w'.tasks| == |w.tasks| && w'.now == w.now && w'.delay == w.delay && w'.heart == w.heart
            && (w'.tasks == w.tasks
                || (w.main.i < |w.tasks| && Renewable(w.tasks[w.main.i], w'.tasks[w.main.i], w.now)
                    && forall j :: 0 <= j < |w.tasks| && j != w.main.i ==> w'.tasks[j] == w.tasks[j]))
  {
    var w' := Apply(w, step).value;
    if w'.tasks != w.tasks {
      assert TaskOk(w.tasks[w.main.i], w.now, w.delay);
    }
  }

  lemma MainTasks(w: World, step: Step)
    requires TasksOk(w) && MainStep(step) && Apply(w, step).Some?
    ensures TasksOk(Apply(w, step).value)
  {
    var w' := Apply(w, step).value;
    if step.Create? {
      CreateTasks(w);
    } else if step.Grant? {
      GrantTasks(w, w');
    } else {
      MainIsRenewable(w, step);
      if w'.tasks == w.tasks {
        TasksStay(w, w');
      } else {
        TaskChanges(w, w', w.main.i);
      }
    }
  }

  lemma GrantTasks(w: World, w': World)
    requires TasksOk(w) && w'.main.Granted? && w' == w.(main := w'.main)
    requires TaskService.ValidClaim(w'.main.server, w'.main.token, w.now) && w'.main.server.startedAt == w.now
    requires w'.main.server.leaseUntil == w.now + TaskService.LEASE
    ensures TasksOk(w')
  {
    forall j | 0 <= j < |w'.tasks| ensures TaskOk(w'.tasks[j], w'.now, w'.delay) {
      assert TaskOk(w.tasks[j], w.now, w.delay);
    }
  }

  lemma CancelTasks(w: World, w': World, i: nat)
    requires TasksOk(w) && i < |w.tasks| && w'.tasks == Cancelled(w, i).tasks && w'.now == w.now && w'.delay == w.delay
    requires w'.main == w.main && (w'.heart == w.heart || !w'.heart.Answered?)
    ensures TasksOk(w')
  {
    assert TaskOk(w.tasks[i], w.now, w.delay);
    assert Renewable(w.tasks[i], w'.tasks[i], w.now);
    TaskChanges(w, w', i);
  }

  lemma TasksKeep(w: World, step: Step)
    requires TasksOk(w) && Apply(w, step).Some?
    ensures TasksOk(Apply(w, step).value)
  {
    var w' := Apply(w, step).value;
    if MainStep(step) {
      MainTasks(w, step);
    } else {
      match step
      case Tick(to) => ClockTasks(w, to);
      case PhaseAccepted(i, _, _) => ServerTasks(w, step);
      case FinishAccepted(i, _) => ServerTasks(w, step);
      case ServerExpires(i) => ServerTasks(w, step);
      case Renewed => RenewTasks(w);
      case Note => NoteTasks(w);
      case Revoke => CancelTasks(w, w', if w.heart.Captured? then w.heart.task.value else w.heart.i);
      case EndShutdown =>
        if w.active.Some? && w.active.value < |w.tasks| {
          CancelTasks(w, w', w.active.value);
        } else {
          TasksStay(w, w');
        }
      case _ => TasksStay(w, w');
    }
  }

  lemma ServerTasks(w: World, step: Step)
    requires step.PhaseAccepted? || step.FinishAccepted? || step.ServerExpires?
    requires TasksOk(w) && Apply(w, step).Some?
    ensures TasksOk(Apply(w, step).value)
  {
    assert TaskOk(w.tasks[step.i], w.now, w.delay);
    ServerIsRenewable(w.tasks[step.i], step, w.now, w.delay);
    TaskChanges(w, Apply(w, step).value, step.i);
  }

  // ----- the rest is kept

  lemma PlacesKeep(w: World, step: Step)
    requires PlacesOk(w) && Apply(w, step).Some?
    ensures PlacesOk(Apply(w, step).value)
  {
    if MainStep(step) {
      MainPlaces(w, step);
    } else if step.BeginShutdown? || step.EndShutdown? {
      StopperPlaces(w, step);
    } else {
      OtherPlaces(w, step);
    }
  }

  lemma StopperPlaces(w: World, step: Step)
    requires PlacesOk(w) && (step.BeginShutdown? || step.EndShutdown?) && Apply(w, step).Some?
    ensures PlacesOk(Apply(w, step).value)
  {
  }

  lemma OtherPlaces(w: World, step: Step)
    requires PlacesOk(w) && !MainStep(step) && !step.BeginShutdown? && !step.EndShutdown? && Apply(w, step).Some?
    ensures PlacesOk(Apply(w, step).value)
  {
  }

  lemma MainPlaces(w: World, step: Step)
    requires PlacesOk(w) && MainStep(step) && Apply(w, step).Some?
    ensures PlacesOk(Apply(w, step).value)
  {
  }

  /** The running task after an effect turned out as `o`. */
  lemma AdvanceJob(a: Active, a': Active, l: Local, progress: Progress, o: Rotation.Outcome)
    requires JobOk(a, l, progress) && !l.pc.Done?
    requires a'.job.claim == a.job.claim && a'.job.outcomes == a.job.outcomes + [o] && a'.over == a.over
    requires a'.job.sent == a.job.sent
    requires a.over ==> progress.Awaiting? && (l.pc.Failing? || l.pc.Succeeding?)
    requires progress.Awaiting? <==> !o.Fenced? && !GuardPoint(l.pc) && !JournalPoint(l.pc)
    ensures JobOk(a', Rotation.Next(l, o), Fresh)
  {
    var e := Rotation.Event(Rotation.EffectOf(l), o);
    var trace := Rotation.Trace(Rotation.Init(a.job.claim), a.job.outcomes);
    Rotation.OneMore(Rotation.Init(a.job.claim), a.job.outcomes, o);
    RequestPoint(l, o);
    assert (trace + [e])[..|trace|] == trace;
  }

  lemma RequestPoint(l: Local, o: Rotation.Outcome)
    requires !l.pc.Done?
    ensures IsRequest(Rotation.Event(Rotation.EffectOf(l), o)) <==> !o.Fenced? && !GuardPoint(l.pc) && !JournalPoint(l.pc)
  {
  }

  /** Where an effect leads, as far as the window is concerned. */
  lemma WindowPoints(l: Local, o: Rotation.Outcome)
    requires !l.pc.Done?
    ensures var pc := Rotation.Next(l, o).pc;
            && (pc.Waiting? ==> l.pc.LoginAccepted?) && (pc.SecondGuard? ==> l.pc.Waiting?)
            && (pc.LoginRejected? ==> l.pc.SecondGuard?)
            && (l.pc.Waiting? || l.pc.SecondGuard? || l.pc.LoginRejected? || l.pc.Succeeding? || l.pc.Failing? ==>
                  pc.SecondGuard? || pc.LoginRejected? || pc.Succeeding? || pc.Failing? || pc.Done?)
  {
  }

  lemma AdvanceWindow(a: Active, a': Active, l: Local, o: Rotation.Outcome, now: real, skew: real)
    requires WindowOk(a, l, now, skew) && !l.pc.Done? && a'.job.until == a.job.until
    requires a'.job.accepted == if l.pc.LoginAccepted? && !o.Fenced? then Some(now) else a.job.accepted
    requires l.pc.Waiting? && !o.Fenced? ==> a.job.until.Some? && a.job.until.value <= now
    ensures WindowOk(a', Rotation.Next(l, o), now, skew)
  {
    WindowPoints(l, o);
    if l.pc.Waiting? && a.job.until.Some? && a.job.until.value <= now {
      Totp.CounterMonotone(a.job.until.value + skew, now + skew);
    }
    assert l.pc.Waiting? && o.Fenced? ==> Rotation.Next(l, o).pc.Failing?;
  }

  lemma AdvanceRuns(w: World, o: Rotation.Outcome)
    requires AtWork(w) && w.main.progress.Fresh? && !w.main.local.pc.Done? && !w.main.local.pc.Failing?
    requires JobOk(w.tasks[w.main.i], w.main.local, Fresh) && WindowOk(w.tasks[w.main.i], w.main.local, w.now, w.skew)
    requires o.Fenced? || GuardPoint(w.main.local.pc) || JournalPoint(w.main.local.pc)
    requires w.main.local.pc.Waiting? && !o.Fenced? ==>
               w.tasks[w.main.i].job.until.Some? && w.tasks[w.main.i].job.until.value <= w.now
    ensures RunsOk(Advance(w, o))
  {
    var a, l := w.tasks[w.main.i], w.main.local;
    var a' := Advance(w, o).tasks[w.main.i];
    AdvanceJob(a, a', l, Fresh, o);
    AdvanceWindow(a, a', l, o, w.now, w.skew);
  }

  lemma GuardRuns(w: World, passes: bool)
    requires RunsOk(w) && GuardStep(w, passes).Some?
    ensures RunsOk(GuardStep(w, passes).value)
  {
    if !passes {
      AdvanceRuns(Cancelled(w, w.main.i), Rotation.Fenced);
    } else if GuardPoint(w.main.local.pc) {
      AdvanceRuns(w, Rotation.Ok);
    }
  }

  lemma ReceiveRuns(w: World, o: Rotation.Outcome)
    requires RunsOk(w) && ReceiveStep(w, o).Some?
    ensures RunsOk(ReceiveStep(w, o).value)
  {
    var a, l := w.tasks[w.main.i], w.main.local;
    var a' := ReceiveStep(w, o).value.tasks[w.main.i];
    AdvanceJob(a, a', l, Awaiting, o);
    AdvanceWindow(a, a', l, o, w.now, w.skew);
  }

  lemma WorkRuns(w: World, ok: bool)
    requires RunsOk(w) && WorkStep(w, ok).Some?
    ensures RunsOk(WorkStep(w, ok).value)
  {
    AdvanceRuns(w, if ok then Rotation.Ok else Rotation.Raised);
  }

  lemma WaitRuns(w: World)
    requires RunsOk(w) && WaitStep(w).Some?
    ensures RunsOk(WaitStep(w).value)
  {
    var accepted := w.tasks[w.main.i].job.accepted.value;
    WaitEnds(accepted, w.now, w.skew);
  }

  lemma WaitEnds(accepted: real, now: real, skew: real)
    requires accepted <= now
    ensures LaterWindow(accepted, now + Totp.WindowWait(now + skew), skew)
  {
    var at := now + skew;
    Totp.NextWindow(at, accepted + skew, at + Totp.WindowWait(at));
    assert at + Totp.WindowWait(at) == now + Totp.WindowWait(at) + skew;
  }

  lemma SendRuns(w: World)
    requires RunsOk(w) && AtWork(w) && !w.main.local.pc.Done?
    requires w.main.progress.Armed? || (w.main.progress.Fresh? && w.main.local.pc.Failing?)
    ensures RunsOk(Sent(w))
  {
    var a := w.tasks[w.main.i];
    var before := Requests(Rotation.Trace(Rotation.Init(a.job.claim), a.job.outcomes));
    assert before + [] == before;
  }

  /** Nothing the running task's job depends on has changed, but for time going on. */
  lemma RunsStay(w: World, w': World)
    requires RunsOk(w) && w'.main == w.main && w.now <= w'.now && w'.skew == w.skew && |w'.tasks| == |w.tasks|
    requires forall i :: 0 <= i < |w.tasks| ==> w'.tasks[i].job == w.tasks[i].job && w'.tasks[i].over == w.tasks[i].over
    ensures RunsOk(w')
  {
    if AtWork(w) {
      Totp.CounterMonotone(w.now + w.skew, w'.now + w.skew);
    }
  }

  lemma OthersKeepJobs(w: World, step: Step)
    requires !MainStep(step) && Apply(w, step).Some?
    ensures var w' := Apply(w, step).value;
            w'.main == w.main && w.now <= w'.now && w'.skew == w.skew && |w'.tasks| == |w.tasks|
            && forall i :: 0 <= i < |w.tasks| ==> w'.tasks[i].job == w.tasks[i].job && w'.tasks[i].over == w.tasks[i].over
  {
  }

  lemma RunsKeep(w: World, step: Step)
    requires RunsOk(w) && PlacesOk(w) && Apply(w, step).Some?
    ensures RunsOk(Apply(w, step).value)
  {
    if !MainStep(step) {
      OthersKeepJobs(w, step);
      RunsStay(w, Apply(w, step).value);
    } else {
      match step
      case GuardPasses => GuardRuns(w, true);
      case GuardFails => GuardRuns(w, false);
      case Send => SendRuns(w);
      case SendFailure => SendRuns(w);
      case Receive(o) => ReceiveRuns(w, o);
      case Work(ok) => WorkRuns(w, ok);
      case StartWait => WaitRuns(w);
      case _ =>
    }
  }

  lemma StepKeeps(w: World, step: Step)
    requires Ok(w) && Apply(w, step).Some?
    ensures Ok(Apply(w, step).value)
  {
    TasksKeep(w, step);
    PlacesKeep(w, step);
    RunsKeep(w, step);
  }

  lemma {:induction false} ReachableOk(ws: seq<World>, steps: seq<Step>, k: nat)
    requires IsRun(ws, steps) && k < |ws|
    ensures Ok(ws[k])
  {
    if k > 0 {
      ReachableOk(ws, steps, k - 1);
      assert StepTo(ws, steps, k - 1);
      StepKeeps(ws[k - 1], steps[k - 1]);
    }
  }

  // ----- the guard

  /** Whenever a guard lets a task go on, in any interleaving, the API's lease on its
      claim is still running, unless the claim's absolute limit is past; and the guard
      never passes more than the renewal delay and its own limit after that. */
  lemma GuardImpliesLease(ws: seq<World>, steps: seq<Step>, k: nat)
    requires IsRun(ws, steps) && k < |ws| && GuardStep(ws[k], true).Some?
    ensures var w := ws[k];
            var a := w.tasks[w.main.i];
            && !a.cancel && w.now - a.renewed <= GUARD_LIMIT
            && (w.now < a.granted + TaskService.RUN_LIMIT ==> TaskService.ValidClaim(a.server, a.token, w.now))
            && w.now < a.granted + TaskService.RUN_LIMIT + w.delay + GUARD_LIMIT
  {
    ReachableOk(ws, steps, k);
    var w := ws[k];
    var a := w.tasks[w.main.i];
    assert TaskOk(a, w.now, w.delay);
    var at: real :| RenewalOk(a, at, w.now) && at <= a.renewed <= at + w.delay;
  }

  /** At step `g` a guard of task `i` passed, having seen no cancel and a renewal at most 45
      seconds old, and the main thread has done nothing since, up to step `k`. */
  ghost predicate FencedBy(ws: seq<World>, steps: seq<Step>, g: nat, k: nat, i: nat)
    requires |ws| == |steps| + 1 && k <= |steps|
  {
    && g < k && steps[g].GuardPasses? && AtGuard(ws[g]) && ws[g].main.i == i
    && !ws[g].tasks[i].cancel && ws[g].now - ws[g].tasks[i].renewed <= GUARD_LIMIT
    && forall m :: g < m < k ==> !MainStep(steps[m])
  }

  lemma OthersLeaveMain(w: World, step: Step)
    requires !MainStep(step) && Apply(w, step).Some?
    ensures Apply(w, step).value.main == w.main
  {
    OthersKeepJobs(w, step);
  }

  /** Only a guard that passes arms the main thread. */
  lemma ArmedByGuard(w: World, step: Step)
    requires MainStep(step) && Apply(w, step).Some?
    requires Apply(w, step).value.main.Running? && Apply(w, step).value.main.progress.Armed?
    ensures step.GuardPasses? && AtGuard(w) && w.main.i == Apply(w, step).value.main.i
    ensures Passes(w.tasks[w.main.i].cancel, w.tasks[w.main.i].renewed, w.now)
  {
  }

  lemma {:induction false} ArmedIsFenced(ws: seq<World>, steps: seq<Step>, k: nat) returns (g: nat)
    requires IsRun(ws, steps) && k < |ws| && ws[k].main.Running? && ws[k].main.progress.Armed?
    ensures FencedBy(ws, steps, g, k, ws[k].main.i)
  {
    assert k > 0;
    assert StepTo(ws, steps, k - 1);
    if MainStep(steps[k - 1]) {
      ArmedByGuard(ws[k - 1], steps[k - 1]);
      g := k - 1;
    } else {
      OthersLeaveMain(ws[k - 1], steps[k - 1]);
      g := ArmedIsFenced(ws, steps, k - 1);
    }
  }

  /** In every run, whatever the heartbeat, the API and shutdown do in between: the last
      thing the main thread did before it sent a login, a phase post, an enrolment, an
      activation or a success report is a guard of that task that saw no cancel and a
      renewal at most 45 seconds old. */
  lemma SendsAreFenced(ws: seq<World>, steps: seq<Step>, k: nat)
    requires IsRun(ws, steps) && k < |steps| && steps[k].Send?
    ensures ws[k].main.Running? && Guarded(ws[k].main.local.pc) && Rotation.NeedsGuard(Rotation.EffectOf(ws[k].main.local))
    ensures exists g: nat :: FencedBy(ws, steps, g, k, ws[k].main.i)
  {
    assert StepTo(ws, steps, k);
    ReachableOk(ws, steps, k);
    GuardedEffects(ws[k].main.local);
    var g := ArmedIsFenced(ws, steps, k);
  }

  // ----- cancel

  /** What a step may do to a task's flag, token and renewal time. */
  ghost predicate LocalChange(w: World, w': World, step: Step, i: nat)
    requires i < |w.tasks|
  {
    && i < |w'.tasks| && (w.tasks[i].cancel ==> w'.tasks[i].cancel) && w'.tasks[i].token == w.tasks[i].token
    && (w'.tasks[i].renewed != w.tasks[i].renewed ==> step.Note? && w.heart.Answered? && w.heart.i == i)
    && (step.Renewed? || step.Note? || step.Revoke? ==>
          w'.tasks[i] == w.tasks[i] || w.heart == Captured(Some(i)) || (w.heart.Answered? && w.heart.i == i))
  }

  lemma MainIsLocal(w: World, step: Step, i: nat)
    requires MainStep(step) && MainApply(w, step).Some? && i < |w.tasks|
    ensures LocalChange(w, MainApply(w, step).value, step, i)
  {
  }

  /** Flags are never lowered and tasks never disappear; only the heartbeat that
      captured a task changes its renewal time, and no heartbeat touches another. */
  lemma StepIsLocal(w: World, step: Step, i: nat)
    requires Apply(w, step).Some? && i < |w.tasks|
    ensures LocalChange(w, Apply(w, step).value, step, i)
  {
    if MainStep(step) {
      MainIsLocal(w, step, i);
    } else if step.Capture? || step.Renewed? || step.Note? || step.Revoke? || step.NothingToRenew? {
      HeartIsLocal(w, step, i);
    }
  }

  lemma HeartIsLocal(w: World, step: Step, i: nat)
    requires step.Capture? || step.Renewed? || step.Note? || step.Revoke? || step.NothingToRenew?
    requires HeartApply(w, step).Some? && i < |w.tasks|
    ensures LocalChange(w, HeartApply(w, step).value, step, i)
  {
  }

  lemma {:induction false} CancelStays(ws: seq<World>, steps: seq<Step>, j: nat, k: nat, i: nat)
    requires IsRun(ws, steps) && j <= k < |ws| && i < |ws[j].tasks| && ws[j].tasks[i].cancel
    ensures i < |ws[k].tasks| && ws[k].tasks[i].cancel
    decreases k - j
  {
    if j < k {
      CancelStays(ws, steps, j, k - 1, i);
      assert StepTo(ws, steps, k - 1);
      StepIsLocal(ws[k - 1], steps[k - 1], i);
    }
  }

  /** After a cancel no guard of that task ever passes again. */
  lemma CancelIsSticky(ws: seq<World>, steps: seq<Step>, j: nat, k: nat, i: nat)
    requires IsRun(ws, steps) && j <= k < |ws| && i < |ws[j].tasks| && ws[j].tasks[i].cancel
    ensures ws[k].main.Running? && ws[k].main.i == i ==> GuardStep(ws[k], true).None?
  {
    CancelStays(ws, steps, j, k, i);
  }

  /** After a cancel a task still sends at most the one request whose guard came before
      the cancel; only the failure report needs no guard. */
  lemma AtMostOneAfterCancel(ws: seq<World>, steps: seq<Step>, i: nat, j: nat, k: nat)
    requires IsRun(ws, steps) && j <= k < |steps| && i < |ws[j].tasks| && ws[j].tasks[i].cancel
    requires steps[k].Send? && ws[k].main.Running? && ws[k].main.i == i
    ensures forall m :: j <= m < k ==> !MainStep(steps[m])
    ensures forall m :: k < m < |steps| && steps[m].Send? && ws[m].main.Running? ==> ws[m].main.i != i
  {
    GuardBefore(ws, steps, i, j, k);
    forall m | k < m < |steps| && steps[m].Send? && ws[m].main.Running? ensures ws[m].main.i != i {
      if ws[m].main.i == i {
        GuardBefore(ws, steps, i, j, m);
      }
    }
  }

  lemma GuardBefore(ws: seq<World>, steps: seq<Step>, i: nat, j: nat, k: nat)
    requires IsRun(ws, steps) && j <= k < |steps| && i < |ws[j].tasks| && ws[j].tasks[i].cancel
    requires steps[k].Send? && ws[k].main.Running? && ws[k].main.i == i
    ensures forall m :: j <= m < k ==> !MainStep(steps[m])
  {
    SendsAreFenced(ws, steps, k);
    var g: nat :| FencedBy(ws, steps, g, k, i);
    if j <= g {
      CancelStays(ws, steps, j, g, i);
    }
  }

  // ----- shutdown

  /** Once any shutdown has completed, no task runs uncancelled: neither the one it
      found nor any that is published later gets past a guard. */
  lemma NothingRunsAfterShutdown(ws: seq<World>, steps: seq<Step>, k: nat)
    requires IsRun(ws, steps) && k < |ws| && ws[k].stopped
    ensures ws[k].main.Running? ==> ws[k].main.i < |ws[k].tasks| && ws[k].tasks[ws[k].main.i].cancel
    ensures GuardStep(ws[k], true).None?
  {
    ReachableOk(ws, steps, k);
  }

  lemma {:induction false} StoppedStays(ws: seq<World>, steps: seq<Step>, j: nat, k: nat)
    requires IsRun(ws, steps) && j <= k < |ws| && ws[j].stopped
    ensures ws[k].stopped
    decreases k - j
  {
    if j < k {
      StoppedStays(ws, steps, j, k - 1);
      assert StepTo(ws, steps, k - 1);
      StopIsKept(ws[k - 1], steps[k - 1]);
    }
  }

  lemma StopIsKept(w: World, step: Step)
    requires Apply(w, step).Some? && w.stopped
    ensures Apply(w, step).value.stopped
  {
  }

  /** After a completed shutdown the whole worker sends at most one request, the one whose
      guard came before it, and failure reports. */
  lemma AtMostOneAfterShutdown(ws: seq<World>, steps: seq<Step>, j: nat, k: nat)
    requires IsRun(ws, steps) && j <= k < |steps| && ws[j].stopped && steps[k].Send?
    ensures forall m :: j <= m < k ==> !MainStep(steps[m])
    ensures forall m :: k < m < |steps| ==> !steps[m].Send?
  {
    GuardBeforeShutdown(ws, steps, j, k);
    forall m | k < m < |steps| ensures !steps[m].Send? {
      if steps[m].Send? {
        GuardBeforeShutdown(ws, steps, j, m);
      }
    }
  }

  lemma GuardBeforeShutdown(ws: seq<World>, steps: seq<Step>, j: nat, k: nat)
    requires IsRun(ws, steps) && j <= k < |steps| && ws[j].stopped && steps[k].Send?
    ensures forall m :: j <= m < k ==> !MainStep(steps[m])
  {
    SendsAreFenced(ws, steps, k);
    var g: nat :| FencedBy(ws, steps, g, k, ws[k].main.i);
    if j <= g {
      StoppedStays(ws, steps, j, g);
      NothingRunsAfterShutdown(ws, steps, g);
    }
  }

  // ----- the run of `rotate` inside it

  /** The running task is at the end of a run of `rotate`, and the requests it has sent are
      exactly those of the run, in order. */
  lemma SendsAreTheRuns(ws: seq<World>, steps: seq<Step>, k: nat)
    requires IsRun(ws, steps) && k < |ws| && ws[k].main.Running?
    ensures var w := ws[k];
            w.main.i < |w.tasks| &&
            var job := w.tasks[w.main.i].job;
            && w.main.local == Rotation.End(Rotation.Init(job.claim), job.outcomes)
            && job.sent == Requests(Rotation.Trace(Rotation.Init(job.claim), job.outcomes))
                           + (if w.main.progress.Awaiting? && !w.main.local.pc.Done? then [Rotation.EffectOf(w.main.local)] else [])
  {
    ReachableOk(ws, steps, k);
  }

  /** The login that has to be refused is sent in a later 30-second step than the one in
      which the accepted login had ended. */
  lemma RefusedLoginIsLater(ws: seq<World>, steps: seq<Step>, k: nat)
    requires IsRun(ws, steps) && k < |steps| && steps[k].Send? && ws[k].main.Running? && ws[k].main.local.pc.LoginRejected?
    ensures exists r: nat :: r < k && EndsAcceptedLogin(ws[r], steps[r], ws[k].main.i)
                             && Totp.Counter(ws[r].now + ws[r].skew) < Totp.Counter(ws[k].now + ws[k].skew)
  {
    assert StepTo(ws, steps, k);
    ReachableOk(ws, steps, k);
    var r := AcceptedWhen(ws, steps, k, ws[k].main.i);
  }

  /** The step is the reply to the accepted login of task `i`. */
  predicate EndsAcceptedLogin(w: World, step: Step, i: nat) {
    step.Receive? && AtWork(w) && w.main.i == i && w.main.local.pc.LoginAccepted?
  }

  ghost predicate AcceptedNoted(w: World, w': World, step: Step, i: nat)
    requires i < |w'.tasks|
  {
    && w'.skew == w.skew
    && (w'.tasks[i].job.accepted.Some? ==>
          (EndsAcceptedLogin(w, step, i) && w'.tasks[i].job.accepted.value == w.now)
          || (i < |w.tasks| && w.tasks[i].job.accepted == w'.tasks[i].job.accepted))
  }

  lemma MainNotes(w: World, step: Step, i: nat)
    requires MainStep(step) && MainApply(w, step).Some? && i < |MainApply(w, step).value.tasks|
    ensures AcceptedNoted(w, MainApply(w, step).value, step, i)
  {
  }

  lemma AcceptedIsNoted(w: World, step: Step, i: nat)
    requires Apply(w, step).Some? && i < |Apply(w, step).value.tasks|
    ensures AcceptedNoted(w, Apply(w, step).value, step, i)
  {
    if MainStep(step) {
      MainNotes(w, step, i);
    } else {
      OthersKeepJobs(w, step);
    }
  }

  lemma {:induction false} AcceptedWhen(ws: seq<World>, steps: seq<Step>, k: nat, i: nat) returns (r: nat)
    requires IsRun(ws, steps) && k < |ws| && i < |ws[k].tasks| && ws[k].tasks[i].job.accepted.Some?
    ensures r < k && EndsAcceptedLogin(ws[r], steps[r], i)
    ensures ws[r].now == ws[k].tasks[i].job.accepted.value && ws[r].skew == ws[k].skew
  {
    assert k > 0;
    assert StepTo(ws, steps, k - 1);
    AcceptedIsNoted(ws[k - 1], steps[k - 1], i);
    if EndsAcceptedLogin(ws[k - 1], steps[k - 1], i) && ws[k].tasks[i].job.accepted.value == ws[k - 1].now {
      r := k - 1;
    } else {
      r := AcceptedWhen(ws, steps, k - 1, i);
    }
  }
}
