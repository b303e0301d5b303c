/** The worker's objects, one method for each stretch of code that no other thread can
    interrupt. Every method does to the objects what a step of `Lease` does to its world,
    so what `Lease` proves of all interleavings is true of these objects. */
module WorkerObjects {
  import opened Values
  import opened Lease
  import Rotation
  import TaskService

  class ActiveTask {
    var cancel: bool
    var lastRenewed: real

    constructor (now: real)
      ensures !cancel && lastRenewed == now
    {
      cancel, lastRenewed := false, now;
    }
  }

  lemma RunExtends(ws: seq<World>, steps: seq<Step>, step: Step)
    requires IsRun(ws, steps) && Apply(ws[|steps|], step).Some?
    ensures IsRun(ws + [Apply(ws[|steps|], step).value], steps + [step])
  {
    var ws', steps' := ws + [Apply(ws[|steps|], step).value], steps + [step];
    forall k | 0 <= k < |steps'| ensures StepTo(ws', steps', k) {
      assert k < |steps| ==> StepTo(ws, steps, k);
    }
  }

  class Worker {
    var stop: bool
    var active: ActiveTask?
    // The tasks made so far, and the state they stand for.
    ghost var made: seq<ActiveTask>
    ghost var world: World
    // The run that led there.
    ghost var worlds: seq<World>
    ghost var steps: seq<Step>

    constructor (ghost start: World)
      requires Initial(start)
      ensures Valid() && world == start
    {
      stop, active, made, world, worlds, steps := false, null, [], start, [start], [];
    }

    ghost predicate Valid()
      reads this, made
    {
      && |made| == |world.tasks| && stop == world.stop
      && (forall i, j :: 0 <= i < j < |made| ==> made[i] != made[j])
      && (forall i :: 0 <= i < |made| ==> made[i].cancel == world.tasks[i].cancel && made[i].lastRenewed == world.tasks[i].renewed)
      && active == Object(world.active)
      && IsRun(worlds, steps) && worlds[|steps|] == world
    }

    /** The task a thread holds. */
    ghost function Object(i: Option<nat>): ActiveTask?
      reads this
    {
      if i.Some? && i.value < |made| then made[i.value] else null
    }

    /** The step has happened. */
    ghost method Happens(step: Step)
      requires IsRun(worlds, steps) && worlds[|steps|] == world && Apply(world, step).Some?
      modifies this`world, this`worlds, this`steps
      ensures IsRun(worlds, steps) && worlds[|steps|] == world
      ensures Apply(old(world), step) == Some(world)
    {
      RunExtends(worlds, steps, step);
      world, worlds, steps := Apply(world, step).value, worlds + [Apply(world, step).value], steps + [step];
    }

    /** A step that no object takes part in: time, requests and replies, the journal, the
        API. */
    ghost method Elsewhere(step: Step)
      requires Valid() && Apply(world, step).Some?
      requires step.Tick? || step.Grant? || step.Send? || step.SendFailure? || step.Work? || step.StartWait?
               || step.PhaseAccepted? || step.FinishAccepted? || step.ServerExpires? || step.Renewed? || step.NothingToRenew?
               || (step.Receive? && (IsPost(world.main.local.pc) ==> step.outcome.Ok?))
      modifies this`world, this`worlds, this`steps
      ensures Valid() && Apply(old(world), step) == Some(world)
    {
      Happens(step);
    }

    // ----- the main thread

    /** `run_once` makes the task object of a claim. */
    method MakeTask(now: real) returns (task: ActiveTask)
      requires Valid() && now == world.now && Apply(world, Create).Some?
      modifies this
      ensures Valid() && Apply(old(world), Create) == Some(world) && task == Object(Some(|old(made)|))
      ensures fresh(task) && !task.cancel && task.lastRenewed == now
    {
      ReachableOk(worlds, steps, |steps|);
      task := new ActiveTask(now);
      made := made + [task];
      Happens(Create);
    }

    method Publish(task: ActiveTask)
      requires Valid() && world.main.Created? && world.main.i < |made| && task == made[world.main.i]
      modifies this
      ensures Valid() && Apply(old(world), Lease.Publish) == Some(world) && active == task
    {
      active := task;
      Happens(Lease.Publish);
    }

    method TestStop(task: ActiveTask)
      requires Valid() && world.main.Published? && world.main.i < |made| && task == made[world.main.i]
      modifies this`world, this`worlds, this`steps, task
      ensures Valid() && Apply(old(world), Lease.TestStop) == Some(world)
      ensures task.cancel == (old(task.cancel) || stop) && task.lastRenewed == old(task.lastRenewed)
    {
      if stop {
        task.cancel := true;
      }
      Happens(Lease.TestStop);
    }

    /** `guard`: the running task at one of its guards. */
    method Guard(task: ActiveTask, now: real) returns (ok: bool)
      requires Valid() && now == world.now && AtGuard(world) && task == made[world.main.i]
      modifies this`world, this`worlds, this`steps, task
      ensures Valid() && Apply(old(world), if ok then GuardPasses else GuardFails) == Some(world)
      ensures ok <==> !old(task.cancel) && now - old(task.lastRenewed) <= 45.0
      ensures task.cancel == !ok && task.lastRenewed == old(task.lastRenewed)
      ensures ok ==> !old(world.stopped)
      ensures ok ==> var a := old(world).tasks[old(world).main.i];
                     now < a.granted + TaskService.RUN_LIMIT ==> TaskService.ValidClaim(a.server, a.token, now)
    {
      if GuardStep(world, true).Some? {
        GuardImpliesLease(worlds, steps, |steps|);
      }
      if world.stopped {
        NothingRunsAfterShutdown(worlds, steps, |steps|);
      }
      ok := !(task.cancel || now - task.lastRenewed > 45.0);
      if !ok {
        task.cancel := true;
      }
      Happens(if ok then GuardPasses else GuardFails);
    }

    /** The end of `totp_phase`: a post that raised cancels the task. */
    method PostReturned(task: ActiveTask, outcome: Rotation.Outcome)
      requires Valid() && AtWork(world) && task == made[world.main.i] && IsPost(world.main.local.pc)
      requires Apply(world, Receive(outcome)).Some?
      modifies this`world, this`worlds, this`steps, task
      ensures Valid() && Apply(old(world), Receive(outcome)) == Some(world)
      ensures task.cancel == (old(task.cancel) || outcome != Rotation.Ok) && task.lastRenewed == old(task.lastRenewed)
    {
      if outcome != Rotation.Ok {
        task.cancel := true;
      }
      Happens(Receive(outcome));
    }

    method LeaveTask()
      requires Valid() && Apply(world, Leave).Some?
      modifies this
      ensures Valid() && Apply(old(world), Leave) == Some(world) && active == null
    {
      active := null;
      Happens(Leave);
    }

    // ----- the heartbeat thread

    method CaptureActive() returns (captured: ActiveTask?)
      requires Valid() && world.heart.Resting?
      modifies this`world, this`worlds, this`steps
      ensures Valid() && Apply(old(world), Capture) == Some(world) && world.heart.Captured? && captured == Object(world.heart.task)
      ensures captured == active
    {
      captured := active;
      Happens(Capture);
    }

    /** The API has renewed the claim of the captured task, whatever task is published
        now. */
    method NoteRenewal(captured: ActiveTask, now: real)
      requires Valid() && now == world.now && world.heart.Answered? && captured == Object(Some(world.heart.i))
      requires world.now <= world.heart.at + world.delay
      modifies this`world, this`worlds, this`steps, captured
      ensures Valid() && Apply(old(world), Note) == Some(world)
      ensures captured.lastRenewed == now && captured.cancel == old(captured.cancel)
    {
      captured.lastRenewed := now;
      Happens(Note);
    }

    /** The check or the heartbeat of the captured task raised. */
    method RevokeCaptured(captured: ActiveTask)
      requires Valid()
      requires (world.heart.Captured? && captured == Object(world.heart.task))
               || (world.heart.Answered? && captured == Object(Some(world.heart.i)))
      modifies this`world, this`worlds, this`steps, captured
      ensures Valid() && Apply(old(world), Revoke) == Some(world)
      ensures captured.cancel && captured.lastRenewed == old(captured.lastRenewed)
    {
      captured.cancel := true;
      Happens(Revoke);
    }

    // ----- shutdown

    method SetStop()
      requires Valid() && world.stopper.Ready?
      modifies this`stop, this`world, this`worlds, this`steps
      ensures Valid() && Apply(old(world), BeginShutdown) == Some(world) && stop
    {
      stop := true;
      Happens(BeginShutdown);
    }

    method CancelActive()
      requires Valid() && world.stopper.StopSet?
      modifies this`world, this`worlds, this`steps, active
      ensures Valid() && Apply(old(world), EndShutdown) == Some(world) && world.stopped
      ensures active != null ==> active.cancel && active.lastRenewed == old(active.lastRenewed)
    {
      if active != null {
        active.cancel := true;
      }
      Happens(EndShutdown);
    }
  }

  // ----- supervising a login process

  datatype Ending = Completed | LeaseLost | TimedOut | Failed

  /** What the supervisor did: asked the guard, read the cancel flag, waited for the child
      from a time for at most a limit, killed its process group, reaped it. */
  datatype Event =
    | Guarded(passed: bool)
    | FlagRead(raised: bool)
    | Waited(at: real, limit: real, result: WaitResult)
    | Killed
    | Reaped

  datatype WaitResult = Exited | StillRunning | Broke

  /** The child process, and the log of what was done about it. What the guard, the flag
      and the child answer is arbitrary. */
  class Child {
    var log: seq<Event>

    constructor ()
      ensures log == []
    {
      log := [];
    }

    method AskGuard() returns (passed: bool)
      modifies this
      ensures log == old(log) + [Guarded(passed)]
    {
      passed := *;
      log := log + [Guarded(passed)];
    }

    method ReadFlag() returns (raised: bool)
      modifies this
      ensures log == old(log) + [FlagRead(raised)]
    {
      raised := *;
      log := log + [FlagRead(raised)];
    }

    /** Waits from `now` for at most `limit`; a wait that times out takes at least that
        long. */
    method Communicate(now: real, limit: real) returns (result: WaitResult, later: real)
      requires limit > 0.0
      modifies this
      ensures log == old(log) + [Waited(now, limit, result)]
      ensures later >= now && (result.StillRunning? ==> later >= now + limit)
    {
      result := *;
      log := log + [Waited(now, limit, result)];
      var extra: real := *;
      if extra < 0.0 {
        extra := 0.0;
      }
      later := if result.StillRunning? then now + limit + extra else now + extra;
    }

    method Kill()
      modifies this
      ensures log == old(log) + [Killed]
    {
      log := log + [Killed];
    }

    method Reap()
      modifies this
      ensures log == old(log) + [Reaped]
    {
      log := log + [Reaped];
    }
  }

  /** How many more waits fit before the deadline. */
  ghost function Quarters(remaining: real): nat {
    if remaining <= 0.0 then 0 else (remaining * 4.0).Floor + 1
  }

  ghost function Waits(log: seq<Event>): nat {
    if log == [] then 0 else Waits(log[..|log| - 1]) + if log[|log| - 1].Waited? then 1 else 0
  }

  /** Every wait is at most a quarter of a second and ends before the deadline. */
  ghost predicate WaitsFit(log: seq<Event>, deadline: real) {
    forall e :: e in log && e.Waited? ==> e.at + e.limit <= deadline && 0.0 < e.limit <= 0.25
  }

  /** Every guard asked so far passed, every flag read was down, every wait timed out. */
  ghost predicate Undecided(log: seq<Event>) {
    forall e :: e in log ==> e == Guarded(true) || e == FlagRead(false) || (e.Waited? && e.result.StillRunning?)
  }

  /** How the loop came to its end: the last event, after nothing that would have ended it
      earlier. */
  ghost predicate EndsAs(log: seq<Event>, end: Ending, now: real, deadline: real) {
    log != [] && Undecided(log[..|log| - 1]) &&
    var last := log[|log| - 1];
    match end
    case Completed => last.Waited? && last.result.Exited?
    case Failed => last.Waited? && last.result.Broke?
    case LeaseLost => last == Guarded(false) || last == FlagRead(true)
    case TimedOut => last == FlagRead(false) && now >= deadline
  }

  lemma LogGrows(log: seq<Event>, e: Event, deadline: real)
    ensures Waits(log + [e]) == Waits(log) + if e.Waited? then 1 else 0
    ensures (log + [e])[..|log + [e]| - 1] == log
    ensures WaitsFit(log, deadline) && (e.Waited? ==> e.at + e.limit <= deadline && 0.0 < e.limit <= 0.25) ==>
              WaitsFit(log + [e], deadline)
    ensures Undecided(log) && (e == Guarded(true) || e == FlagRead(false) || (e.Waited? && e.result.StillRunning?)) ==>
              Undecided(log + [e])
  {
    assert (log + [e])[..|log + [e]| - 1] == log;
  }

  /** One round of the loop of `guarded_run`: none if it goes on. */
  method Round(child: Child, now: real, deadline: real) returns (end: Option<Ending>, later: real)
    requires Undecided(child.log) && WaitsFit(child.log, deadline)
    modifies child
    ensures later >= now && WaitsFit(child.log, deadline)
    ensures end.Some? ==> EndsAs(child.log, end.value, later, deadline)
    ensures end.None? ==> Undecided(child.log)
    ensures Waits(child.log) + (if end.Some? then 0 else Quarters(deadline - later)) <= Waits(old(child.log)) + Quarters(deadline - now)
    ensures end.None? ==> Quarters(deadline - later) < Quarters(deadline - now)
  {
    later := now;
    LogGrows(child.log, Guarded(true), deadline);
    LogGrows(child.log, Guarded(false), deadline);
    var passed := child.AskGuard();
    if !passed {
      return Some(LeaseLost), now;
    }
    LogGrows(child.log, FlagRead(true), deadline);
    LogGrows(child.log, FlagRead(false), deadline);
    var raised := child.ReadFlag();
    if raised {
      return Some(LeaseLost), now;
    }
    var remaining := deadline - now;
    if remaining <= 0.0 {
      return Some(TimedOut), now;
    }
    var limit := if remaining < 0.25 then remaining else 0.25;
    ghost var before := child.log;
    var result;
    result, later := child.Communicate(now, limit);
    LogGrows(before, Waited(now, limit, result), deadline);
    QuarterSpent(remaining, deadline - later, limit, !result.StillRunning?);
    end := match result
    case Exited => Some(Completed)
    case Broke => Some(Failed)
    case StillRunning => None;
  }

  method Supervise(child: Child, start: real, timeout: real) returns (end: Ending, now: real)
    requires child.log == []
    modifies child
    ensures now >= start && EndsAs(child.log, end, now, start + timeout)
    ensures WaitsFit(child.log, start + timeout) && Waits(child.log) <= Quarters(timeout)
  {
    now := start;
    var deadline := start + timeout;
    var ending: Option<Ending> := None;
    while ending.None?
      invariant now >= start && WaitsFit(child.log, deadline)
      invariant if ending.None? then Undecided(child.log) else EndsAs(child.log, ending.value, now, deadline)
      invariant Waits(child.log) + (if ending.Some? then 0 else Quarters(deadline - now)) <= Quarters(timeout)
      decreases if ending.Some? then 0 else 1 + Quarters(deadline - now)
    {
      ending, now := Round(child, now, deadline);
    }
    end := ending.value;
  }

  /** `guarded_run`: however the loop ends, the group is killed and then reaped, once each
      and after everything else. */
  method GuardedRun(child: Child, start: real, timeout: real) returns (end: Ending, now: real)
    requires child.log == []
    modifies child
    ensures |child.log| > 2 && child.log[|child.log| - 2..] == [Killed, Reaped]
    ensures var before := child.log[..|child.log| - 2];
            && Killed !in before && Reaped !in before
            && WaitsFit(before, start + timeout) && Waits(before) <= Quarters(timeout)
            && now >= start && EndsAs(before, end, now, start + timeout)
  {
    end, now := Supervise(child, start, timeout);
    ghost var before := child.log;
    assert before == before[..|before| - 1] + [before[|before| - 1]];
    child.Kill();
    child.Reap();
    assert child.log[..|child.log| - 2] == before;
  }

  lemma QuarterSpent(before: real, after: real, limit: real, finished: bool)
    requires before > 0.0 && limit == (if before < 0.25 then before else 0.25)
    requires after <= before && (!finished ==> after <= before - limit)
    ensures Quarters(before) >= 1
    ensures !finished ==> Quarters(after) + 1 <= Quarters(before)
  {
    if after > 0.0 && !finished {
      assert after * 4.0 <= before * 4.0 - 1.0;
      assert (after * 4.0).Floor as real <= before * 4.0 - 1.0;
    }
  }
}
