/** The worker's `rotate` in its own order of statements, proved to perform exactly the
    run that `Rotation` describes; and the check every claim passes first. */
module Rotate {
  import opened Values
  import opened Rotation

  /** Whether a statement raised. */
  datatype Status = Fine | Threw {
    predicate IsFailure() {
      Threw?
    }
    function PropagateFailure(): Status {
      Threw
    }
  }

  /** The states a run went through, each the next one after its outcome, and the events
      of the trace. */
  ghost predicate Chained(claim: Claim, seen: seq<Outcome>, states: seq<Local>, trace: seq<Event>) {
    && |states| == |seen| + 1 && |trace| == |seen| && states[0] == Init(claim)
    && (forall i :: 0 <= i < |seen| ==> Linked(states[i], seen[i], trace[i], states[i + 1]))
  }

  ghost predicate Linked(l: Local, o: Outcome, e: Event, next: Local) {
    l.pc != Done && e == Event(EffectOf(l), o) && next == Next(l, o)
  }

  /** A chain of states is the run of its outcomes. */
  lemma {:induction false} ChainIsTheRun(claim: Claim, seen: seq<Outcome>, states: seq<Local>, trace: seq<Event>)
    requires Chained(claim, seen, states, trace)
    ensures End(Init(claim), seen) == states[|seen|] && Trace(Init(claim), seen) == trace
  {
    if seen != [] {
      var n := |seen| - 1;
      ChainIsTheRun(claim, seen[..n], states[..n + 1], trace[..n]);
      assert Linked(states[n], seen[n], trace[n], states[n + 1]);
      OneMore(Init(claim), seen[..n], seen[n]);
      assert seen == seen[..n] + [seen[n]] && trace == trace[..n] + [trace[n]];
    }
  }

  /** What a run does, guards included: a guard that let it go on, one that did not, and
      an effect. */
  datatype Act = Passed | Stopped | Did(event: Event)

  /** Every such effect comes directly after a guard that let the run go on. */
  ghost predicate EachGuarded(acts: seq<Act>) {
    forall k :: 0 <= k < |acts| && acts[k].Did? && NeedsGuard(acts[k].event.effect) ==> k > 0 && acts[k - 1].Passed?
  }

  ghost function EventsOf(acts: seq<Act>): seq<Event> {
    if acts == [] then []
    else
      var last := acts[|acts| - 1];
      EventsOf(acts[..|acts| - 1]) + if last.Did? then [last.event] else []
  }

  /** The events of a run without those that a guard in front of them stopped. */
  ghost function Performed(trace: seq<Event>): seq<Event> {
    if trace == [] then []
    else
      var last := trace[|trace| - 1];
      Performed(trace[..|trace| - 1]) + if NeedsGuard(last.effect) && last.outcome.Fenced? then [] else [last]
  }

  /** The acts are those of the trace, with a guard in front of each effect that needs one. */
  ghost predicate Matches(acts: seq<Act>, trace: seq<Event>) {
    EachGuarded(acts) && EventsOf(acts) == Performed(trace)
  }

  lemma EventMatches(acts: seq<Act>, trace: seq<Event>, act: Act, e: Event)
    requires Matches(acts, trace)
    requires act == Did(e) || (act == Stopped && NeedsGuard(e.effect) && e.outcome.Fenced?)
    requires act.Did? && NeedsGuard(e.effect) ==> acts != [] && acts[|acts| - 1].Passed? && e.outcome != Fenced
    ensures Matches(acts + [act], trace + [e])
  {
    ActsGrow(acts, act);
    assert (trace + [e])[..|trace|] == trace;
  }

  lemma ActsGrow(acts: seq<Act>, act: Act)
    requires EachGuarded(acts)
    requires act.Did? && NeedsGuard(act.event.effect) ==> acts != [] && acts[|acts| - 1].Passed?
    ensures EachGuarded(acts + [act]) && EventsOf(acts + [act]) == EventsOf(acts) + (if act.Did? then [act.event] else [])
  {
    assert (acts + [act])[..|acts|] == acts;
  }

  lemma GuardMatches(acts: seq<Act>, trace: seq<Event>)
    requires Matches(acts, trace)
    ensures Matches(acts + [Passed], trace)
  {
    ActsGrow(acts, Passed);
  }

  lemma ChainGrows(claim: Claim, seen: seq<Outcome>, states: seq<Local>, trace: seq<Event>, o: Outcome, e: Event, next: Local)
    requires Chained(claim, seen, states, trace) && Linked(states[|seen|], o, e, next)
    ensures Chained(claim, seen + [o], states + [next], trace + [e])
  {
  }

  /** Journal, API, guard and upstream of one run, which answer with the outcomes of
      `answers` in turn and raise when there are none left. A guard refuses when the answer
      for the effect it stands in front of is `Fenced`. */
  class Surroundings {
    const claim: Claim
    const answers: seq<Outcome>
    var used: nat
    var acts: seq<Act>
    // The guard in front of the current effect has let the run go on.
    var armed: bool
    ghost var trace: seq<Event>
    ghost var seen: seq<Outcome>
    ghost var states: seq<Local>
    // Where the run stands: the last of its states.
    ghost var state: Local

    constructor (claim: Claim, answers: seq<Outcome>)
      ensures this.claim == claim && this.answers == answers && used == 0
      ensures Valid() && state == Init(claim) && !armed
    {
      this.claim, this.answers := claim, answers;
      used, acts, armed, trace, seen, states, state := 0, [], false, [], [], [Init(claim)], Init(claim);
    }

    ghost predicate Valid()
      reads this
    {
      && |seen| == used
      && Chained(claim, seen, states, trace) && state == states[used]
      && (forall i :: 0 <= i < used ==> seen[i] == if i < |answers| then answers[i] else Raised)
      && Matches(acts, trace)
      && (armed ==> acts != [] && acts[|acts| - 1].Passed? && NextAnswer() != Fenced)
    }

    function NextAnswer(): Outcome
      reads this
    {
      if used < |answers| then answers[used] else Raised
    }

    /** One event of the run has happened, as an act or because its guard stopped it. */
    method Note(act: Act, ghost e: Event, ghost next: Local)
      requires Valid() && Linked(state, NextAnswer(), e, next)
      requires act == Did(e) || (act == Stopped && NeedsGuard(e.effect) && e.outcome.Fenced?)
      requires act.Did? && NeedsGuard(e.effect) ==> armed
      modifies this
      ensures Valid() && state == next && !armed
    {
      EventMatches(acts, trace, act, e);
      ChainGrows(claim, seen, states, trace, NextAnswer(), e, next);
      acts, trace, seen := acts + [act], trace + [e], seen + [NextAnswer()];
      used, armed, states, state := used + 1, false, states + [next], next;
    }

    /** `guard()`, in front of an effect. */
    method PassGuard() returns (r: Status)
      requires Valid() && state.pc != Done && NeedsGuard(EffectOf(state))
      modifies this
      ensures Valid() && armed == r.Fine?
      ensures state == if r.Fine? then old(state) else Fail(old(state))
    {
      if NextAnswer() == Fenced {
        FencedFails(state);
        Note(Stopped, Event(EffectOf(state), Fenced), Fail(state));
        r := Threw;
      } else {
        GuardMatches(acts, trace);
        acts, armed := acts + [Passed], true;
        r := Fine;
      }
    }

    method Perform(e: Effect) returns (o: Outcome)
      requires Valid() && state.pc != Done && e == EffectOf(state) && (NeedsGuard(e) ==> armed)
      modifies this
      ensures Valid() && state == Next(old(state), o) && !armed
    {
      o := NextAnswer();
      Note(Did(Event(e, o)), Event(e, o), Next(state, o));
    }

    /** Performs an effect and raises unless it turned out as `good`, which takes the run
        to `pc` and `stage`. */
    method Do(e: Effect, good: Outcome, ghost pc: Pc, ghost stage: Stage) returns (r: Status)
      requires Valid() && GoesTo(state, pc, stage) && e == EffectOf(state) && good == Wanted(state) && (NeedsGuard(e) ==> armed)
      modifies this
      ensures Valid() && !armed
      ensures state == if r.Fine? then old(state).(pc := pc, stage := stage) else Fail(old(state))
    {
      ghost var before := state;
      GoesToNext(before, pc, stage);
      var o := Perform(e);
      if o != good {
        OthersFail(before, o);
      }
      r := if o == good then Fine else Threw;
    }

    /** A guard and then the effect: `totp_phase`, `login` and the successful
        `totp_finish`. */
    method DoGuarded(e: Effect, good: Outcome, ghost pc: Pc, ghost stage: Stage) returns (r: Status)
      requires Valid() && GoesTo(state, pc, stage) && e == EffectOf(state) && good == Wanted(state) && NeedsGuard(e)
      modifies this
      ensures Valid() && !armed
      ensures state == if r.Fine? then old(state).(pc := pc, stage := stage) else Fail(old(state))
    {
      r := PassGuard();
      if r.Fine? {
        r := Do(e, good, pc, stage);
      }
    }

    /** Saves the enrolled candidate, and then checks it. */
    method SaveEnrolled(claim: Claim, secret: Json, session: Json) returns (r: Status)
      requires Valid() && state.pc == SavingCandidate && state.claim == claim
      requires state.candidate == secret && state.session == session
      modifies this
      ensures Valid() && !armed
      ensures state == if r.Fine? then old(state).(pc := PostingPrepared) else Fail(old(state))
    {
      SavedNext(state);
      var o := Perform(SaveCandidate(secret, session));
      r := if o == Ok && UsableEnrollment(claim, secret, session) then Fine else Threw;
    }

    method RequestEnrollment() returns (r: Status, secret: Json, session: Json)
      requires Valid() && state.pc == SendingEnroll && armed
      modifies this
      ensures Valid() && !armed
      ensures r.Fine? ==> state == Next(old(state), Enrolled(secret, session))
      ensures r.Threw? ==> state == Fail(old(state))
    {
      var o := Perform(Enroll);
      if o.Enrolled? {
        r, secret, session := Fine, o.secret, o.session;
      } else {
        r, secret, session := Threw, Null, Null;
      }
    }
  }

  lemma FencedFails(l: Local)
    requires l.pc != Done && NeedsGuard(EffectOf(l))
    ensures Linked(l, Fenced, Event(EffectOf(l), Fenced), Fail(l))
  {
  }

  /** The second half of `verify_pair`: the other secret is refused in the next window. */
  method Refute(world: Surroundings, rejected: Json) returns (r: Status)
    requires world.Valid() && world.state.pc == Waiting && rejected == Rejected(world.state)
    modifies world
    ensures world.Valid()
    ensures world.state == old(world.state).(pc := if r.Fine? then Succeeding else Failing)
  {
    ghost var stage := world.state.stage;
    :- world.Do(WaitForWindow, Ok, SecondGuard, stage);
    :- world.Do(Guard, Ok, LoginRejected, stage);
    :- world.DoGuarded(Login(rejected, false), Refused, Succeeding, stage);
    return Fine;
  }

  /** `verify_pair` and the success report. */
  method VerifyPair(world: Surroundings, claim: Claim, candidate: Json) returns (r: Status)
    requires world.Valid() && world.state.pc == VerifyGuard
    requires world.state.claim == claim && world.state.candidate == candidate
    modifies world
    ensures world.Valid() && world.state.stage == old(world.state.stage)
    ensures world.state.pc == if r.Fine? then Done else Failing
  {
    var accepted, rejected := if claim.action == VerifyOldKey then Str(claim.secret) else candidate,
                              if claim.action == VerifyOldKey then candidate else Str(claim.secret);
    ghost var stage := world.state.stage;
    :- world.Do(Guard, Ok, if PyTruthy(accepted) then LoginAccepted else Failing, stage);
    if !PyTruthy(accepted) {
      return Threw;
    }
    :- world.DoGuarded(Login(accepted, true), LoggedIn, if PyTruthy(rejected) then Waiting else Succeeding, stage);
    if PyTruthy(rejected) {
      var refuted := Refute(world, rejected);
      :- refuted;
    }
    :- world.DoGuarded(FinishSuccess, Ok, Done, stage);
    return Fine;
  }

  /** The steps from the blank save to the enrolment's answer. */
  method Enter(world: Surroundings, claim: Claim) returns (r: Status, candidate: Json, session: Json, stage: Stage)
    requires world.Valid() && world.state == Init(claim).(pc := SavingBlank) && claim.action == RotateKey
    modifies world
    ensures world.Valid() && world.state.claim == claim && world.state.stage == stage
    ensures r.Fine? ==> world.state == Local(claim, SavingCandidate, candidate, session, EnrollmentFailed)
    ensures r.Threw? ==> world.state.pc == Failing
  {
    candidate, session, stage := claim.candidate, Null, LoginFailed;
    :- world.Do(SaveBlank, Ok, OpeningSession, LoginFailed);
    :- world.DoGuarded(OpenSession, LoggedIn, PostingEnrolling, LoginFailed);
    :- world.DoGuarded(Post(ToEnrolling, Str("")), Ok, SendingEnroll, EnrollmentFailed);
    stage := EnrollmentFailed;
    :- world.PassGuard();
    candidate, session :- world.RequestEnrollment();
    r := Fine;
  }

  /** The steps from the blank save to the accepted candidate's acknowledgement. */
  method Prepare(world: Surroundings, claim: Claim) returns (r: Status, candidate: Json, session: Json, stage: Stage)
    requires world.Valid() && world.state == Init(claim).(pc := SavingBlank) && claim.action == RotateKey
    modifies world
    ensures world.Valid() && world.state.claim == claim && world.state.stage == stage
    ensures r.Fine? ==> world.state == Local(claim, PostingActivating, candidate, session, EnrollmentFailed)
    ensures r.Threw? ==> world.state.pc == Failing
  {
    var entered;
    entered, candidate, session, stage := Enter(world, claim);
    :- entered;
    :- world.SaveEnrolled(claim, candidate, session);
    :- world.DoGuarded(Post(ToPrepared, candidate), Ok, Acknowledging, EnrollmentFailed);
    :- world.Do(Acknowledge, Ok, PostingActivating, EnrollmentFailed);
    r := Fine;
  }

  /** The activation between its two phases. */
  method Switch(world: Surroundings, claim: Claim, candidate: Json, session: Json) returns (r: Status, stage: Stage)
    requires world.Valid() && world.state == Local(claim, PostingActivating, candidate, session, EnrollmentFailed)
    modifies world
    ensures world.Valid()
    ensures r.Fine? ==> world.state == Local(claim, VerifyGuard, candidate, session, VerificationFailed)
    ensures r.Threw? ==> world.state == Local(claim, Failing, candidate, session, stage)
  {
    stage := EnrollmentFailed;
    :- world.DoGuarded(Post(ToActivating, Str("")), Ok, SendingActivate, ActivationUnconfirmed);
    stage := ActivationUnconfirmed;
    :- world.PassGuard();
    :- world.Do(Activate(candidate, session), Ok, PostingVerifying, ActivationUnconfirmed);
    :- world.DoGuarded(Post(ToVerifying, Str("")), Ok, VerifyGuard, VerificationFailed);
    r := Fine;
  }

  /** The branch of `rotate` that belongs to the claim's action. */
  method Branch(world: Surroundings, claim: Claim) returns (r: Status, candidate: Json, stage: Stage)
    requires world.Valid() && claim.action != OtherAction
    requires world.state == Init(claim).(pc := if claim.action == RotateKey then SavingBlank else PostingRecovery)
    modifies world
    ensures world.Valid() && world.state.claim == claim
    ensures r.Fine? ==> world.state.pc == VerifyGuard && world.state.candidate == candidate && world.state.stage == VerificationFailed
    ensures r.Threw? ==> world.state.pc == Failing && world.state.stage == stage
  {
    candidate, stage := claim.candidate, LoginFailed;
    if claim.action == RotateKey {
      var session;
      r, candidate, session, stage := Prepare(world, claim);
      :- r;
      r, stage := Switch(world, claim, candidate, session);
    } else {
      r := world.DoGuarded(Post(ToVerifyRecovery, Str("")), Ok, VerifyGuard, VerificationFailed);
    }
  }

  /** The statements `rotate` protects with its exception handler. */
  method Attempt(world: Surroundings, claim: Claim) returns (r: Status, stage: Stage)
    requires world.Valid() && world.state == Init(claim)
    modifies world
    ensures world.Valid()
    ensures world.state.pc == if r.Fine? then Done else Failing
    ensures world.state.stage == stage
  {
    stage := LoginFailed;
    :- world.Do(Guard, Ok, Opening, LoginFailed);
    ghost var next := if claim.action == RotateKey then SavingBlank else if claim.action == OtherAction then Failing else PostingRecovery;
    :- world.Do(OpenJournal, Ok, next, LoginFailed);
    if claim.action == OtherAction {
      return Threw, stage;
    }
    var branch, candidate;
    branch, candidate, stage := Branch(world, claim);
    :- branch;
    stage := VerificationFailed;
    r := VerifyPair(world, claim, candidate);
  }

  /** One task: for every claim and every way its effects can turn out, `rotate`
      performs the events of the corresponding run, to its end. */
  method Run(world: Surroundings, claim: Claim)
    requires world.Valid() && world.state == Init(claim) && world.claim == claim
    modifies world
    ensures world.Valid() && world.trace == Trace(Init(claim), world.seen)
    ensures EventsOf(world.acts) == Performed(world.trace) && EachGuarded(world.acts)
    ensures End(Init(claim), world.seen).pc == Done
  {
    var attempt, stage := Attempt(world, claim);
    if attempt.Threw? {
      var reported := world.Perform(FinishFailure(stage));
    }
    ChainIsTheRun(claim, world.seen, world.states, world.trace);
  }
}
