/** What each step around a running task does to it: exactly when a guard lets it go on, and
    everything that cancels it. */
module LeaseEffects {
  import opened Values
  import TaskService
  import Rotation
  import Totp
  import opened Lease

  /** The task that the heartbeat is busy with. */
  ghost predicate HeartHas(w: World, i: nat) {
    w.heart == Captured(Some(i)) || (w.heart.Answered? && w.heart.i == i)
  }

  /** Task `i` is cancelled and nothing else about the tasks changes. */
  ghost predicate CancelledIn(w: World, w': World, i: nat) {
    i < |w.tasks| && w'.tasks == w.tasks[i := w.tasks[i].(cancel := true)]
  }

  // ----- guards

  /** At a guard exactly one thing can happen. It goes on if and only if the flag is down and
      the last renewal is at most 45 seconds old. */
  lemma GuardDecides(w: World)
    requires AtGuard(w)
    ensures var a := w.tasks[w.main.i];
            && (Apply(w, GuardPasses).Some? <==> !a.cancel && w.now - a.renewed <= 45.0)
            && (Apply(w, GuardFails).Some? <==> a.cancel || w.now - a.renewed > 45.0)
  {
  }

  /** A guard that refuses raises the flag and ends the run's protected part: what is left
      is the failure report. */
  lemma RefusalCancels(w: World)
    requires AtGuard(w) && Apply(w, GuardFails).Some?
    ensures var w' := Apply(w, GuardFails).value;
            && w'.main.i < |w'.tasks| && w'.tasks[w'.main.i].cancel && w'.main.i == w.main.i
            && w'.main.local == w.main.local.(pc := Rotation.Failing) && w'.main.progress == Fresh
  {
    FencedRun(w.main.local);
  }

  lemma FencedRun(l: Rotation.Local)
    requires Guarded(l.pc) || GuardPoint(l.pc)
    ensures Rotation.Next(l, Rotation.Fenced) == l.(pc := Rotation.Failing)
  {
  }

  /** A guard that lets the run go on changes no task's flag and no renewal time. */
  lemma PassingChangesNothing(w: World, i: nat)
    requires AtGuard(w) && Apply(w, GuardPasses).Some? && i < |w.tasks|
    ensures var w' := Apply(w, GuardPasses).value;
            i < |w'.tasks| && !w'.tasks[w.main.i].cancel && w'.tasks[i].cancel == w.tasks[i].cancel && w'.tasks[i].renewed == w.tasks[i].renewed
  {
  }

  /** A cancelled task need not wait for the next window: its guard can refuse at once. */
  lemma WaitIsInterrupted(w: World)
    requires AtWork(w) && w.main.progress.Fresh? && w.main.local.pc.Waiting?
    requires w.tasks[w.main.i].job.until.Some? && w.tasks[w.main.i].cancel
    ensures Apply(w, GuardFails).Some?
  {
  }

  // ----- how a run goes on

  /** Task `i` of the world, and the main thread, once its run is at `l`. */
  ghost predicate At(w: World, i: nat, l: Local, progress: Progress) {
    w.main == Running(i, l, progress) && i < |w.tasks|
  }

  /** A guard in front of a request that lets the run go on arms it, and then the request can
      be sent and is logged. */
  lemma PassedRequestsAreSent(w: World)
    requires AtGuard(w) && Guarded(w.main.local.pc) && Apply(w, GuardPasses).Some?
    ensures var w' := Apply(w, GuardPasses).value;
            var i, l := w.main.i, w.main.local;
            && At(w', i, l, Armed) && w'.tasks == w.tasks && Apply(w', Send).Some?
            && var sent := Apply(w', Send).value;
               At(sent, i, l, Awaiting) && sent.tasks[i].job.sent == w.tasks[i].job.sent + [Rotation.EffectOf(l)]
               && sent.tasks[i].job.outcomes == w.tasks[i].job.outcomes
  {
  }

  /** The failure report needs no guard. */
  lemma FailureIsSent(w: World)
    requires AtWork(w) && w.main.progress.Fresh? && w.main.local.pc.Failing?
    ensures var w' := Apply(w, SendFailure);
            w'.Some? && At(w'.value, w.main.i, w.main.local, Awaiting)
            && w'.value.tasks[w.main.i].job.sent == w.tasks[w.main.i].job.sent + [Rotation.FinishFailure(w.main.local.stage)]
  {
  }

  /** Any reply but a guard's refusal can come, at any time, and moves the run on by its
      outcome; so do a guard of its own and a call of the journal. */
  lemma OutcomesMoveOn(w: World, o: Rotation.Outcome, ok: bool)
    requires AtWork(w) && !w.main.local.pc.Done?
    ensures var i, l := w.main.i, w.main.local;
            && (w.main.progress.Awaiting? && o != Rotation.Fenced ==>
                  Apply(w, Receive(o)).Some? && At(Apply(w, Receive(o)).value, i, Rotation.Next(l, o), Fresh))
            && (w.main.progress.Fresh? && JournalPoint(l.pc) ==>
                  Apply(w, Work(ok)).Some?
                  && At(Apply(w, Work(ok)).value, i, Rotation.Next(l, if ok then Rotation.Ok else Rotation.Raised), Fresh))
            && (AtGuard(w) && GuardPoint(l.pc) && Apply(w, GuardPasses).Some? ==>
                  At(Apply(w, GuardPasses).value, i, Rotation.Next(l, Rotation.Ok), Fresh))
  {
  }

  /** The wait can begin once, and is over one second into the next 30-second step of the
      wall clock. */
  lemma WaitBegins(w: World)
    requires AtWork(w) && w.main.progress.Fresh? && w.main.local.pc.Waiting? && w.tasks[w.main.i].job.until.None?
    ensures var w' := Apply(w, StartWait);
            && w'.Some? && w.main.i < |w'.value.tasks| && w'.value.tasks[w.main.i].job.until.Some?
            && w'.value.tasks[w.main.i].job.until.value + w.skew == 30.0 * (Totp.Counter(w.now + w.skew) + 1) as real + 1.0
            && w'.value.main == w.main
  {
    var at := w.now + w.skew;
    Totp.NextWindow(at, at, at + Totp.WindowWait(at));
  }

  /** From a claim to its run: while it is polling, the main thread can be handed a claim the
      server has just made, make a task object for it that is neither cancelled nor due, and
      publish it; when a run is over it withdraws the task and polls again. */
  lemma ClaimsBecomeTasks(w: World, token: nat, server: Task, claim: Rotation.Claim)
    ensures w.main.Polling? && TaskService.ValidClaim(server, token, w.now) && server.startedAt == w.now && server.leaseUntil == w.now + 120.0 ==>
              Apply(w, Grant(token, server, claim)) == Some(w.(main := Granted(token, server, claim)))
    ensures w.main.Granted? && w.now <= w.main.server.startedAt + w.delay ==>
              var w' := Apply(w, Create);
              w'.Some? && w'.value.main == Created(|w.tasks|) && |w'.value.tasks| == |w.tasks| + 1
              && var a := w'.value.tasks[|w.tasks|];
                 !a.cancel && a.renewed == w.now && a.token == w.main.token && a.server == w.main.server && a.job.claim == w.main.claim
    ensures w.main.Created? ==> Apply(w, Publish) == Some(w.(active := Some(w.main.i), main := Published(w.main.i)))
    ensures w.main.Running? && w.main.local.pc.Done? ==> Apply(w, Leave) == Some(w.(active := None, main := Polling))
  {
  }

  // ----- what cancels a task

  /** A heartbeat that failed, or whose check failed, cancels the task it was for, if there
      is one, whatever has been published since; and it can always do so. */
  lemma FailedHeartbeatCancels(w: World)
    ensures Apply(w, Revoke).Some? <==> exists i: nat :: HeartHas(w, i) && i < |w.tasks|
    ensures Apply(w, Revoke).Some? ==>
              forall i: nat :: HeartHas(w, i) ==> CancelledIn(w, Apply(w, Revoke).value, i) && Apply(w, Revoke).value.heart == Resting
  {
    if Apply(w, Revoke).Some? {
      var i := if w.heart.Captured? then w.heart.task.value else w.heart.i;
      assert HeartHas(w, i);
    }
  }

  /** A phase post that raised cancels the running task; one that did not leaves its flag. */
  lemma FailedPostCancels(w: World, o: Rotation.Outcome)
    requires AtWork(w) && IsPost(w.main.local.pc) && Apply(w, Receive(o)).Some?
    ensures var w' := Apply(w, Receive(o)).value;
            w.main.i < |w'.tasks| && (w'.tasks[w.main.i].cancel <==> w.tasks[w.main.i].cancel || o != Rotation.Ok)
  {
  }

  /** A task that is published after the stop flag was set is cancelled before it starts;
      any other starts uncancelled, at the beginning of its run. */
  lemma LateTaskIsCancelled(w: World)
    requires Apply(w, TestStop).Some?
    ensures var w' := Apply(w, TestStop).value;
            && w'.main.Running? && w'.main.i == w.main.i && w'.main.i < |w'.tasks|
            && (w'.tasks[w'.main.i].cancel <==> w.stop || w.tasks[w.main.i].cancel)
            && w'.main.local == Rotation.Init(w.tasks[w.main.i].job.claim)
  {
  }

  /** Shutdown sets the flag and then cancels the published task. */
  lemma ShutdownCancels(w: World)
    ensures Apply(w, BeginShutdown).Some? ==> Apply(w, BeginShutdown).value.stop
    ensures Apply(w, EndShutdown).Some? && w.active.Some? && w.active.value < |w.tasks| ==>
              CancelledIn(w, Apply(w, EndShutdown).value, w.active.value)
  {
  }

  // ----- what keeps a task alive

  /** A heartbeat captures the published task. The server renews its claim exactly if it
      still honours it, and only then is the renewal noted, for that task. */
  lemma HeartbeatRenews(w: World)
    ensures Apply(w, Capture).Some? ==> Apply(w, Capture).value == w.(heart := Captured(w.active))
    ensures w.heart.Captured? && w.heart.task.Some? && w.heart.task.value < |w.tasks| ==>
              var a := w.tasks[w.heart.task.value];
              (Apply(w, Renewed).Some? <==> TaskService.Commits(a.server, TaskService.DoHeartbeat(a.token, a.server.worker), w.now))
    ensures Apply(w, Note).Some? ==>
              w.heart.Answered? && w.heart.i < |w.tasks|
              && Apply(w, Note).value == w.(tasks := w.tasks[w.heart.i := w.tasks[w.heart.i].(renewed := w.now)], heart := Resting)
  {
  }

  // ----- in every run

  /** After a failed heartbeat the task passes no guard any more, and sends at most the one
      request whose guard came before. */
  lemma NothingAfterFailedHeartbeat(ws: seq<World>, steps: seq<Step>, i: nat, j: nat, k: nat)
    requires IsRun(ws, steps) && j < k < |steps| && steps[j].Revoke? && HeartHas(ws[j], i)
    requires ws[k].main.Running? && ws[k].main.i == i
    ensures !steps[k].GuardPasses?
    ensures steps[k].Send? ==> forall m :: k < m < |steps| && steps[m].Send? && ws[m].main.Running? ==> ws[m].main.i != i
  {
    assert StepTo(ws, steps, j) && StepTo(ws, steps, k);
    FailedHeartbeatCancels(ws[j]);
    CancelIsSticky(ws, steps, j + 1, k, i);
    if steps[k].Send? {
      AtMostOneAfterCancel(ws, steps, i, j + 1, k);
    }
  }

  /** A cancelled task passes no guard. */
  lemma NoGuardPasses(ws: seq<World>, steps: seq<Step>, i: nat, j: nat)
    requires IsRun(ws, steps) && j < |ws| && i < |ws[j].tasks| && ws[j].tasks[i].cancel
    ensures forall g :: j <= g < |steps| && ws[g].main.Running? && ws[g].main.i == i ==> !steps[g].GuardPasses?
  {
    forall g | j <= g < |steps| && ws[g].main.Running? && ws[g].main.i == i ensures !steps[g].GuardPasses? {
      CancelIsSticky(ws, steps, j, g, i);
      assert StepTo(ws, steps, g);
    }
  }

  /** Between a reply and the next guarded request there is a guard. */
  lemma GuardAfterReply(ws: seq<World>, steps: seq<Step>, j: nat, k: nat) returns (g: nat)
    requires IsRun(ws, steps) && j < k < |steps| && steps[j].Receive? && steps[k].Send?
    ensures ws[k].main.Running? && j < g < k && steps[g].GuardPasses? && ws[g].main.Running? && ws[g].main.i == ws[k].main.i
  {
    SendsAreFenced(ws, steps, k);
    g :| FencedBy(ws, steps, g, k, ws[k].main.i);
    assert MainStep(steps[j]);
  }

  /** The same after a phase post that raised. */
  lemma NothingAfterFailedPost(ws: seq<World>, steps: seq<Step>, j: nat, k: nat)
    requires IsRun(ws, steps) && j < k < |steps| && steps[j].Receive? && steps[j].outcome != Rotation.Ok
    requires AtWork(ws[j]) && IsPost(ws[j].main.local.pc) && ws[k].main.Running? && ws[k].main.i == ws[j].main.i
    ensures !steps[k].GuardPasses? && !steps[k].Send?
  {
    var i := ws[j].main.i;
    assert StepTo(ws, steps, j);
    FailedPostCancels(ws[j], steps[j].outcome);
    NoGuardPasses(ws, steps, i, j + 1);
    if steps[k].Send? {
      var g := GuardAfterReply(ws, steps, j, k);
    }
  }
}
