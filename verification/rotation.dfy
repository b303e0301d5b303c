/** One run of the worker's `rotate`, as the sequence of effects it performs on the
    journal, the API and the upstream, given how each of them turned out. */
module Rotation {
  import opened Values
  import Secrets

  datatype ClaimAction = RotateKey | VerifyNewKey | VerifyOldKey | OtherAction

  datatype Claim = Claim(task: int, account: Json, email: string, password: string,
                         action: ClaimAction, secret: string, candidate: Json)

  datatype Stage = LoginFailed | EnrollmentFailed | ActivationUnconfirmed | VerificationFailed

  /** `Login` is a verification login; the flag tells which of the two it is. */
  datatype Effect =
    | Guard
    | OpenJournal
    | SaveBlank
    | OpenSession
    | Post(phase: PhaseName, secret: Json)
    | Enroll
    | SaveCandidate(candidate: Json, session: Json)
    | Acknowledge
    | Activate(candidate: Json, session: Json)
    | Login(secret: Json, accepted: bool)
    | WaitForWindow
    | FinishSuccess
    | FinishFailure(stage: Stage)

  /** How an effect turned out. `Fenced`: the guard in front of it raised, so nothing
      was sent. `Raised`: it failed, and may or may not have taken effect. */
  datatype Outcome = Fenced | Raised | Ok | Enrolled(secret: Json, session: Json) | LoggedIn | Refused

  datatype Event = Event(effect: Effect, outcome: Outcome)

  datatype Pc =
    | FirstGuard | Opening | SavingBlank | OpeningSession | PostingEnrolling | SendingEnroll | SavingCandidate
    | PostingPrepared | Acknowledging | PostingActivating | SendingActivate | PostingVerifying | PostingRecovery
    | VerifyGuard | LoginAccepted | Waiting | SecondGuard | LoginRejected | Succeeding | Failing | Done

  datatype Local = Local(claim: Claim, pc: Pc, candidate: Json, session: Json, stage: Stage)

  function Init(claim: Claim): Local {
    Local(claim, FirstGuard, claim.candidate, Null, LoginFailed)
  }

  /** The pair of secrets `verify_pair` tries: the one to be accepted and the one to be
      refused. */
  function Accepted(l: Local): Json {
    if l.claim.action == VerifyOldKey then Str(l.claim.secret) else l.candidate
  }

  function Rejected(l: Local): Json {
    if l.claim.action == VerifyOldKey then l.candidate else Str(l.claim.secret)
  }

  /** The checks between the save of an enrolled candidate and its `prepared` post. */
  predicate UsableEnrollment(claim: Claim, candidate: Json, session: Json) {
    && candidate.Str? && session.Str? && candidate.s != "" && session.s != ""
    && Secrets.Canonical(candidate.s) != Secrets.Canonical(claim.secret)
    && Secrets.WorkerAccepts(candidate.s)
  }

  /** Effects that a guard stands directly in front of. */
  predicate NeedsGuard(e: Effect) {
    e.OpenSession? || e.Post? || e.Enroll? || e.Activate? || e.Login? || e.FinishSuccess?
  }

  function EffectOf(l: Local): Effect
    requires l.pc != Done
  {
    match l.pc
    case FirstGuard => Guard
    case Opening => OpenJournal
    case SavingBlank => SaveBlank
    case OpeningSession => OpenSession
    case PostingEnrolling => Post(ToEnrolling, Str(""))
    case SendingEnroll => Enroll
    case SavingCandidate => SaveCandidate(l.candidate, l.session)
    case PostingPrepared => Post(ToPrepared, l.candidate)
    case Acknowledging => Acknowledge
    case PostingActivating => Post(ToActivating, Str(""))
    case SendingActivate => Activate(l.candidate, l.session)
    case PostingVerifying => Post(ToVerifying, Str(""))
    case PostingRecovery => Post(ToVerifyRecovery, Str(""))
    case VerifyGuard => Guard
    case LoginAccepted => Login(Accepted(l), true)
    case Waiting => WaitForWindow
    case SecondGuard => Guard
    case LoginRejected => Login(Rejected(l), false)
    case Succeeding => FinishSuccess
    case Failing => FinishFailure(l.stage)
  }

  function Fail(l: Local): Local {
    l.(pc := Failing)
  }

  function Goto(l: Local, good: bool, pc: Pc): Local {
    if good then l.(pc := pc) else Fail(l)
  }

  /** What `rotate` does after the current effect turned out as `o`. */
  function Next(l: Local, o: Outcome): Local
    requires l.pc != Done
  {
    match l.pc
    case FirstGuard => Goto(l, o.Ok?, Opening)
    case Opening =>
      Goto(l, o.Ok? && l.claim.action != OtherAction, if l.claim.action == RotateKey then SavingBlank else PostingRecovery)
    case SavingBlank => Goto(l, o.Ok?, OpeningSession)
    case OpeningSession => Goto(l, o.LoggedIn?, PostingEnrolling)
    case PostingEnrolling => if o.Ok? then l.(pc := SendingEnroll, stage := EnrollmentFailed) else Fail(l)
    case SendingEnroll =>
      if o.Enrolled? then l.(pc := SavingCandidate, candidate := o.secret, session := o.session) else Fail(l)
    case SavingCandidate => Goto(l, o.Ok? && UsableEnrollment(l.claim, l.candidate, l.session), PostingPrepared)
    case PostingPrepared => Goto(l, o.Ok?, Acknowledging)
    case Acknowledging => Goto(l, o.Ok?, PostingActivating)
    case PostingActivating => if o.Ok? then l.(pc := SendingActivate, stage := ActivationUnconfirmed) else Fail(l)
    case SendingActivate => Goto(l, o.Ok?, PostingVerifying)
    case PostingVerifying => if o.Ok? then l.(pc := VerifyGuard, stage := VerificationFailed) else Fail(l)
    case PostingRecovery => if o.Ok? then l.(pc := VerifyGuard, stage := VerificationFailed) else Fail(l)
    case VerifyGuard => Goto(l, o.Ok? && PyTruthy(Accepted(l)), LoginAccepted)
    case LoginAccepted => Goto(l, o.LoggedIn?, if PyTruthy(Rejected(l)) then Waiting else Succeeding)
    case Waiting => Goto(l, o.Ok?, SecondGuard)
    case SecondGuard => Goto(l, o.Ok?, LoginRejected)
    case LoginRejected => Goto(l, o.Refused?, Succeeding)
    case Succeeding => Goto(l, o.Ok?, Done)
    case Failing => l.(pc := Done)
  }

  /** The state after the first outcomes of a run, and the events so far. */
  function End(l: Local, os: seq<Outcome>): Local
    decreases os
  {
    if os == [] || l.pc == Done then l else End(Next(l, os[0]), os[1..])
  }

  function Trace(l: Local, os: seq<Outcome>): seq<Event>
    decreases os
  {
    if os == [] || l.pc == Done then [] else [Event(EffectOf(l), os[0])] + Trace(Next(l, os[0]), os[1..])
  }

  lemma {:induction false} OneMore(l: Local, os: seq<Outcome>, o: Outcome)
    requires End(l, os).pc != Done
    ensures End(l, os + [o]) == Next(End(l, os), o)
    ensures Trace(l, os + [o]) == Trace(l, os) + [Event(EffectOf(End(l, os)), o)]
    decreases os
  {
    if os == [] {
      assert (os + [o])[1..] == [];
    } else {
      assert (os + [o])[1..] == os[1..] + [o];
      OneMore(Next(l, os[0]), os[1..], o);
    }
  }

  // ----- the protocol a run is supposed to follow

  /** The verification steps for a pair of secrets, in order. */
  function VerifyAt(accepted: Json, rejected: Json, k: nat): Event {
    if k == 0 then Event(Guard, Ok)
    else if k == 1 then Event(Login(accepted, true), LoggedIn)
    else if !PyTruthy(rejected) then Event(FinishSuccess, Ok)
    else if k == 2 then Event(WaitForWindow, Ok)
    else if k == 3 then Event(Guard, Ok)
    else if k == 4 then Event(Login(rejected, false), Refused)
    else Event(FinishSuccess, Ok)
  }

  function VerifyLength(rejected: Json): nat {
    if PyTruthy(rejected) then 6 else 3
  }

  /** The steps of a rotation before its verification: the old snapshot is saved before
      the first login, and the candidate is saved, accepted by the API and acknowledged
      before the only activation. */
  function RotateAt(candidate: Json, session: Json, k: nat): Event {
    if k == 0 then Event(Guard, Ok)
    else if k == 1 then Event(OpenJournal, Ok)
    else if k == 2 then Event(SaveBlank, Ok)
    else if k == 3 then Event(OpenSession, LoggedIn)
    else if k == 4 then Event(Post(ToEnrolling, Str("")), Ok)
    else if k == 5 then Event(Enroll, Enrolled(candidate, session))
    else if k == 6 then Event(SaveCandidate(candidate, session), Ok)
    else if k == 7 then Event(Post(ToPrepared, candidate), Ok)
    else if k == 8 then Event(Acknowledge, Ok)
    else if k == 9 then Event(Post(ToActivating, Str("")), Ok)
    else if k == 10 then Event(Activate(candidate, session), Ok)
    else Event(Post(ToVerifying, Str("")), Ok)
  }

  /** Where the verification starts in the protocol of an action. */
  function VerifyStart(action: ClaimAction): nat {
    match action
    case RotateKey => 12
    case OtherAction => 2
    case _ => 3
  }

  function ScriptLength(claim: Claim, candidate: Json): nat {
    match claim.action
    case OtherAction => 2
    case VerifyOldKey => 3 + VerifyLength(candidate)
    case action => VerifyStart(action) + VerifyLength(Str(claim.secret))
  }

  function ScriptAt(claim: Claim, candidate: Json, session: Json, k: nat): Event {
    if k >= VerifyStart(claim.action) then
      if claim.action == VerifyOldKey then VerifyAt(Str(claim.secret), candidate, k - 3)
      else VerifyAt(candidate, Str(claim.secret), k - VerifyStart(claim.action))
    else if claim.action == RotateKey then RotateAt(candidate, session, k)
    else if k == 0 then Event(Guard, Ok)
    else if k == 1 then Event(OpenJournal, Ok)
    else Event(Post(ToVerifyRecovery, Str("")), Ok)
  }

  /** The whole protocol with every effect turning out well. */
  function Script(claim: Claim, candidate: Json, session: Json): seq<Event> {
    seq(ScriptLength(claim, candidate), k requires 0 <= k => ScriptAt(claim, candidate, session, k))
  }

  /** The stage reported when the effect number `k` of the protocol is where a run
      stopped. */
  function StageAt(action: ClaimAction, k: nat): Stage {
    match action
    case RotateKey =>
      if k <= 4 then LoginFailed else if k <= 9 then EnrollmentFailed
      else if k <= 11 then ActivationUnconfirmed else VerificationFailed
    case OtherAction => LoginFailed
    case _ => if k <= 2 then LoginFailed else VerificationFailed
  }

  /** A check without effects ends the run before effect number `k`. */
  predicate StopsBefore(l: Local, k: nat) {
    match l.claim.action
    case RotateKey => k == 7 && !UsableEnrollment(l.claim, l.candidate, l.session)
    case OtherAction => k == 2
    case _ => k == 4 && !PyTruthy(Accepted(l))
  }

  /** `tr` followed the protocol up to one effect that did not turn out well, or up to
      a check that failed, and `l` reports the matching stage. */
  predicate StoppedAt(l: Local, tr: seq<Event>) {
    var script := Script(l.claim, l.candidate, l.session);
    var n := |tr|;
    || (0 < n <= |script| && tr[..n - 1] == script[..n - 1] && tr[n - 1].effect == script[n - 1].effect
        && tr[n - 1] != script[n - 1] && l.stage == StageAt(l.claim.action, n - 1))
    || (n <= |script| && tr == script[..n] && StopsBefore(l, n) && l.stage == StageAt(l.claim.action, n))
  }

  /** The whole protocol, or a stopped run followed by one failure report. */
  predicate Finished(l: Local, tr: seq<Event>) {
    || (l.claim.action != OtherAction && tr == Script(l.claim, l.candidate, l.session))
    || (tr != [] && tr[|tr| - 1].effect == FinishFailure(l.stage) && StoppedAt(l, tr[..|tr| - 1]))
  }

  /** How many effects of the protocol precede `pc`. */
  function Position(action: ClaimAction, pc: Pc): nat {
    var verify := VerifyStart(action);
    match pc
    case FirstGuard => 0
    case Opening => 1
    case SavingBlank => 2
    case OpeningSession => 3
    case PostingEnrolling => 4
    case SendingEnroll => 5
    case SavingCandidate => 6
    case PostingPrepared => 7
    case Acknowledging => 8
    case PostingActivating => 9
    case SendingActivate => 10
    case PostingVerifying => 11
    case PostingRecovery => 2
    case VerifyGuard => verify
    case LoginAccepted => verify + 1
    case Waiting => verify + 2
    case SecondGuard => verify + 3
    case LoginRejected => verify + 4
    case _ => 0
  }

  /** The stage and the branch that belong to each program point. */
  predicate OnTrack(l: Local) {
    var rotating := l.claim.action == RotateKey;
    var usable := rotating ==> UsableEnrollment(l.claim, l.candidate, l.session);
    match l.pc
    case FirstGuard => l.stage == LoginFailed
    case Opening => l.stage == LoginFailed
    case SavingBlank => rotating && l.stage == LoginFailed
    case OpeningSession => rotating && l.stage == LoginFailed
    case PostingEnrolling => rotating && l.stage == LoginFailed
    case SendingEnroll => rotating && l.stage == EnrollmentFailed
    case SavingCandidate => rotating && l.stage == EnrollmentFailed
    case PostingPrepared => rotating && usable && l.stage == EnrollmentFailed
    case Acknowledging => rotating && usable && l.stage == EnrollmentFailed
    case PostingActivating => rotating && usable && l.stage == EnrollmentFailed
    case SendingActivate => rotating && usable && l.stage == ActivationUnconfirmed
    case PostingVerifying => rotating && usable && l.stage == ActivationUnconfirmed
    case PostingRecovery => l.claim.action in {VerifyNewKey, VerifyOldKey} && l.stage == LoginFailed
    case Failing => true
    case Done => true
    case _ =>
      && l.claim.action != OtherAction && usable && l.stage == VerificationFailed
      && (l.pc == LoginAccepted ==> PyTruthy(Accepted(l)))
      && (l.pc in {Waiting, SecondGuard, LoginRejected} ==> PyTruthy(Rejected(l)))
  }

  /** The run got as far as posting the enrolled candidate. */
  predicate PostsCandidate(claim: Claim, tr: seq<Event>) {
    claim.action == RotateKey && |tr| > 7 && !tr[7].effect.FinishFailure?
  }

  /** `tr` is what a run that has reached `l` may have done. */
  predicate Follows(l: Local, tr: seq<Event>) {
    var script := Script(l.claim, l.candidate, l.session);
    OnTrack(l) && (PostsCandidate(l.claim, tr) ==> UsableEnrollment(l.claim, l.candidate, l.session)) &&
    match l.pc
    case Failing => StoppedAt(l, tr)
    case Done => Finished(l, tr)
    case Succeeding => tr == script[..|script| - 1]
    case _ => Position(l.claim.action, l.pc) < |script| && tr == script[..Position(l.claim.action, l.pc)]
  }

  /** The protocol up to the enrolment does not mention the candidate. */
  lemma ScriptPrefix(claim: Claim, c: Json, s: Json, c': Json, s': Json, k: nat)
    requires claim.action == RotateKey && k <= 5
    ensures Script(claim, c, s)[..k] == Script(claim, c', s')[..k]
  {
  }

  /** One effect: it was the script's next event and the run moves on, or it was the
      right effect but went wrong, or a check after it failed. */
  predicate StepOutcome(l: Local, o: Outcome) {
    l.pc != Done &&
    var next := Next(l, o);
    var length := ScriptLength(next.claim, next.candidate);
    var k := Position(l.claim.action, l.pc);
    var wanted := ScriptAt(next.claim, next.candidate, next.session, k);
    var e := Event(EffectOf(l), o);
    && k < length && wanted.effect == e.effect && next.claim == l.claim
    && ((next.candidate == l.candidate && next.session == l.session) || (k == 5 && l.claim.action == RotateKey))
    && if next.pc == Failing then
         || (e != wanted && next.stage == StageAt(l.claim.action, k))
         || (e == wanted && StopsBefore(next, k + 1) && next.stage == StageAt(l.claim.action, k + 1))
       else
         && e == wanted && next.pc != Done && OnTrack(next)
         && (if next.pc == Succeeding then k + 2 == length
             else Position(next.claim.action, next.pc) == k + 1 && k + 1 < length)
  }

  /** The outcome that lets the run move on. */
  function Wanted(l: Local): Outcome {
    match l.pc
    case OpeningSession => LoggedIn
    case SendingEnroll => Enrolled(l.candidate, l.session)
    case LoginAccepted => LoggedIn
    case LoginRejected => Refused
    case _ => Ok
  }

  lemma OthersFail(l: Local, o: Outcome)
    requires !l.pc.Done? && !l.pc.Failing? && !l.pc.SendingEnroll? && o != Wanted(l)
    ensures Next(l, o) == Fail(l)
  {
  }

  /** Where a good outcome takes the run, save for the enrolment and its check. */
  ghost predicate GoesTo(l: Local, pc: Pc, stage: Stage) {
    match l.pc
    case FirstGuard => pc == Opening && stage == l.stage
    case Opening =>
      stage == l.stage && pc == (match l.claim.action
                                 case RotateKey => SavingBlank
                                 case OtherAction => Failing
                                 case _ => PostingRecovery)
    case SavingBlank => pc == OpeningSession && stage == l.stage
    case OpeningSession => pc == PostingEnrolling && stage == l.stage
    case PostingEnrolling => pc == SendingEnroll && stage == EnrollmentFailed
    case PostingPrepared => pc == Acknowledging && stage == l.stage
    case Acknowledging => pc == PostingActivating && stage == l.stage
    case PostingActivating => pc == SendingActivate && stage == ActivationUnconfirmed
    case SendingActivate => pc == PostingVerifying && stage == l.stage
    case PostingVerifying => pc == VerifyGuard && stage == VerificationFailed
    case PostingRecovery => pc == VerifyGuard && stage == VerificationFailed
    case VerifyGuard => pc == (if PyTruthy(Accepted(l)) then LoginAccepted else Failing) && stage == l.stage
    case LoginAccepted => pc == (if PyTruthy(Rejected(l)) then Waiting else Succeeding) && stage == l.stage
    case Waiting => pc == SecondGuard && stage == l.stage
    case SecondGuard => pc == LoginRejected && stage == l.stage
    case LoginRejected => pc == Succeeding && stage == l.stage
    case Succeeding => pc == Done && stage == l.stage
    case _ => false
  }

  lemma GoesToNext(l: Local, pc: Pc, stage: Stage)
    requires GoesTo(l, pc, stage)
    ensures l.pc != Done && Next(l, Wanted(l)) == l.(pc := pc, stage := stage)
  {
  }

  lemma EnrolledNext(l: Local, secret: Json, session: Json)
    requires l.pc == SendingEnroll
    ensures Next(l, Enrolled(secret, session)) == l.(pc := SavingCandidate, candidate := secret, session := session)
  {
  }

  lemma SavedNext(l: Local)
    requires l.pc == SavingCandidate
    ensures EffectOf(l) == SaveCandidate(l.candidate, l.session)
    ensures forall o :: Next(l, o) ==
                        if o == Ok && UsableEnrollment(l.claim, l.candidate, l.session) then l.(pc := PostingPrepared) else Fail(l)
  {
  }

  lemma NextEvent(l: Local)
    requires OnTrack(l) && !l.pc.Failing? && !l.pc.Succeeding? && !l.pc.Done?
    ensures var k := Position(l.claim.action, l.pc);
            k < ScriptLength(l.claim, l.candidate)
            && ScriptAt(l.claim, l.candidate, l.session, k) == Event(EffectOf(l), Wanted(l))
  {
  }

  lemma MovesOn(l: Local)
    requires OnTrack(l) && !l.pc.Failing? && !l.pc.Succeeding? && !l.pc.Done?
    ensures var next := Next(l, Wanted(l));
            var k := Position(l.claim.action, l.pc);
            && next.claim == l.claim && next.candidate == l.candidate && next.session == l.session && !next.pc.Done?
            && (next.pc.Failing? ==> StopsBefore(next, k + 1) && next.stage == StageAt(l.claim.action, k + 1))
            && (!next.pc.Failing? ==> OnTrack(next))
            && (next.pc.Succeeding? ==> k + 2 == ScriptLength(l.claim, l.candidate))
            && (!next.pc.Failing? && !next.pc.Succeeding? ==> Position(l.claim.action, next.pc) == k + 1)
  {
  }

  lemma Stops(l: Local, o: Outcome)
    requires OnTrack(l) && !l.pc.Failing? && !l.pc.Succeeding? && !l.pc.Done?
    requires o != Wanted(l) && !(l.pc.SendingEnroll? && o.Enrolled?)
    ensures Next(l, o) == Fail(l) && l.stage == StageAt(l.claim.action, Position(l.claim.action, l.pc))
  {
  }

  lemma ScriptStep(l: Local, o: Outcome)
    requires OnTrack(l) && !l.pc.Failing? && !l.pc.Succeeding? && !l.pc.Done?
    ensures StepOutcome(l, o)
  {
    var at := if l.pc.SendingEnroll? && o.Enrolled? then l.(candidate := o.secret, session := o.session) else l;
    NextEvent(at);
    if o == Wanted(at) {
      MovesOn(at);
      assert Next(at, o) == Next(l, o);
    } else {
      Stops(at, o);
    }
  }

  lemma StepFollows(l: Local, tr: seq<Event>, o: Outcome)
    requires l.pc != Done && Follows(l, tr)
    ensures Follows(Next(l, o), tr + [Event(EffectOf(l), o)])
  {
    var e := Event(EffectOf(l), o);
    var tr' := tr + [e];
    if l.pc == Failing {
      assert tr'[..|tr'| - 1] == tr;
    } else if l.pc == Succeeding {
      SucceedingStep(l, tr, o);
    } else {
      ScriptStep(l, o);
      GoodOrBad(l, tr, o);
    }
  }

  lemma SucceedingStep(l: Local, tr: seq<Event>, o: Outcome)
    requires l.pc == Succeeding && Follows(l, tr)
    ensures Follows(Next(l, o), tr + [Event(EffectOf(l), o)])
  {
    var tr' := tr + [Event(EffectOf(l), o)];
    var script := Script(l.claim, l.candidate, l.session);
    assert script[|script| - 1] == Event(FinishSuccess, Ok);
    assert tr'[..|tr'| - 1] == script[..|script| - 1];
    assert script == script[..|script| - 1] + [script[|script| - 1]];
  }

  /** The effects so far are those of the next state's protocol too. */
  lemma SameSoFar(l: Local, next: Local, tr: seq<Event>, k: nat)
    requires next.claim == l.claim && k <= |Script(l.claim, l.candidate, l.session)| && tr == Script(l.claim, l.candidate, l.session)[..k]
    requires (next.candidate == l.candidate && next.session == l.session) || (k == 5 && l.claim.action == RotateKey)
    ensures k <= |Script(next.claim, next.candidate, next.session)| && Script(next.claim, next.candidate, next.session)[..k] == tr
  {
    if k == 5 && l.claim.action == RotateKey {
      ScriptPrefix(l.claim, l.candidate, l.session, next.candidate, next.session, k);
    }
  }

  lemma GoodOrBad(l: Local, tr: seq<Event>, o: Outcome)
    requires l.pc !in {Failing, Succeeding, Done} && Follows(l, tr) && StepOutcome(l, o)
    ensures Follows(Next(l, o), tr + [Event(EffectOf(l), o)])
  {
    var next, e := Next(l, o), Event(EffectOf(l), o);
    var k := Position(l.claim.action, l.pc);
    SameSoFar(l, next, tr, k);
    PostsStill(l, next, tr, e);
    var script := Script(next.claim, next.candidate, next.session);
    assert script[k] == ScriptAt(next.claim, next.candidate, next.session, k);
    if e == script[k] {
      assert script[..k + 1] == script[..k] + [script[k]];
    }
    if next.pc == Failing {
      BadStep(next, tr, e, k);
    } else {
      GoodFollows(next, tr + [e], k + 1);
    }
  }

  /** Once the candidate is posted it is a usable one, and stays what it is. */
  lemma PostsStill(l: Local, next: Local, tr: seq<Event>, e: Event)
    requires l.pc !in {Failing, Succeeding, Done} && Follows(l, tr) && next.claim == l.claim
    requires (next.candidate == l.candidate && next.session == l.session) || (Position(l.claim.action, l.pc) == 5 && l.claim.action == RotateKey)
    ensures PostsCandidate(next.claim, tr + [e]) ==> UsableEnrollment(next.claim, next.candidate, next.session)
  {
    if PostsCandidate(next.claim, tr + [e]) {
      assert |tr| == Position(l.claim.action, l.pc) >= 7;
      assert |tr| > 7 ==> (tr + [e])[7] == tr[7];
    }
  }

  lemma BadStep(next: Local, tr: seq<Event>, e: Event, k: nat)
    requires next.pc.Failing?
    requires var script := Script(next.claim, next.candidate, next.session);
             && k == |tr| < |script| && script[..k] == tr && e.effect == script[k].effect
             && ((e != script[k] && next.stage == StageAt(next.claim.action, k))
                 || (script[..k + 1] == tr + [e] && StopsBefore(next, k + 1) && next.stage == StageAt(next.claim.action, k + 1)))
    requires PostsCandidate(next.claim, tr + [e]) ==> UsableEnrollment(next.claim, next.candidate, next.session)
    ensures Follows(next, tr + [e])
  {
    assert (tr + [e])[..k] == tr;
  }

  lemma GoodFollows(next: Local, tr: seq<Event>, k: nat)
    requires OnTrack(next) && !next.pc.Failing? && !next.pc.Done?
    requires var script := Script(next.claim, next.candidate, next.session);
             && k <= |script| && tr == script[..k]
             && (if next.pc == Succeeding then k + 1 == |script| else Position(next.claim.action, next.pc) == k && k < |script|)
    requires PostsCandidate(next.claim, tr) ==> UsableEnrollment(next.claim, next.candidate, next.session)
    ensures Follows(next, tr)
  {
  }

  /** Every run, however its effects turn out and wherever it is interrupted, follows
      the protocol: the events are a prefix of the script, then at most one effect
      that went wrong, then at most one failure report naming the stage it stopped in. */
  lemma {:induction false} RunFollowsScript(claim: Claim, os: seq<Outcome>)
    ensures Follows(End(Init(claim), os), Trace(Init(claim), os))
  {
    if os != [] {
      var front, o := os[..|os| - 1], os[|os| - 1];
      RunFollowsScript(claim, front);
      assert os == front + [o];
      if End(Init(claim), front).pc != Done {
        OneMore(Init(claim), front, o);
        StepFollows(End(Init(claim), front), Trace(Init(claim), front), o);
      } else {
        DoneStays(Init(claim), front, o);
      }
    }
  }

  lemma {:induction false} DoneStays(l: Local, os: seq<Outcome>, o: Outcome)
    requires End(l, os).pc == Done
    ensures End(l, os + [o]) == End(l, os) && Trace(l, os + [o]) == Trace(l, os)
    decreases os
  {
    if l.pc != Done {
      assert os != [];
      assert (os + [o])[0] == os[0] && (os + [o])[1..] == os[1..] + [o];
      DoneStays(Next(l, os[0]), os[1..], o);
    }
  }

  // ----- what that means for a run

  /** Event `i` of a run is the final failure report, or the protocol's effect of the
      same number with everything before it turned out well. */
  predicate InOrder(e: Local, tr: seq<Event>, i: nat)
    requires i < |tr|
  {
    var script := Script(e.claim, e.candidate, e.session);
    if tr[i].effect.FinishFailure? then
      e.pc.Done? && i == |tr| - 1 && tr[i].effect.stage == e.stage && StoppedAt(e, tr[..i])
    else
      i < |script| && tr[i].effect == script[i].effect && tr[..i] == script[..i]
  }

  lemma EventInOrder(claim: Claim, os: seq<Outcome>, i: nat)
    requires i < |Trace(Init(claim), os)|
    ensures End(Init(claim), os).claim == claim
    ensures InOrder(End(Init(claim), os), Trace(Init(claim), os), i)
  {
    RunFollowsScript(claim, os);
    ClaimFixed(Init(claim), os);
    FollowsInOrder(End(Init(claim), os), Trace(Init(claim), os), i);
  }

  lemma FollowsInOrder(l: Local, tr: seq<Event>, i: nat)
    requires Follows(l, tr) && i < |tr|
    ensures InOrder(l, tr, i)
  {
    var script := Script(l.claim, l.candidate, l.session);
    ScriptHasNoFailure(l, i);
    if l.pc == Done && tr != script {
      var run := tr[..|tr| - 1];
      if i < |run| {
        StoppedEvent(l, run, i);
        assert run[..i] == tr[..i];
      }
    } else if l.pc == Failing {
      StoppedEvent(l, tr, i);
    }
  }

  lemma ScriptHasNoFailure(l: Local, i: nat)
    ensures i < |Script(l.claim, l.candidate, l.session)| ==> !Script(l.claim, l.candidate, l.session)[i].effect.FinishFailure?
  {
  }

  lemma StoppedEvent(l: Local, tr: seq<Event>, i: nat)
    requires StoppedAt(l, tr) && i < |tr|
    ensures var script := Script(l.claim, l.candidate, l.session);
            i < |script| && tr[i].effect == script[i].effect && tr[..i] == script[..i]
  {
    var script := Script(l.claim, l.candidate, l.session);
    if tr == script[..|tr|] {
      assert tr[..i] == script[..|tr|][..i];
    } else {
      assert tr[..i] == tr[..|tr| - 1][..i] && script[..i] == script[..|tr| - 1][..i];
      if i < |tr| - 1 {
        assert tr[i] == tr[..|tr| - 1][i] && script[i] == script[..|tr| - 1][i];
      }
    }
  }

  lemma {:induction false} ClaimFixed(l: Local, os: seq<Outcome>)
    ensures End(l, os).claim == l.claim
    decreases os
  {
    if os != [] && l.pc != Done {
      ClaimFixed(Next(l, os[0]), os[1..]);
    }
  }

  /** No run enrolls twice or activates twice, and only a rotation does either. */
  lemma AtMostOneMutation(claim: Claim, os: seq<Outcome>, i: nat, j: nat)
    requires i <= j < |Trace(Init(claim), os)|
    ensures var tr := Trace(Init(claim), os);
            && (tr[i].effect.Enroll? || tr[i].effect.Activate? ==> claim.action == RotateKey)
            && (tr[i].effect.Enroll? && tr[j].effect.Enroll? ==> i == j)
            && (tr[i].effect.Activate? && tr[j].effect.Activate? ==> i == j)
  {
    EventInOrder(claim, os, i);
    EventInOrder(claim, os, j);
    var tr, e := Trace(Init(claim), os), End(Init(claim), os);
    if !tr[i].effect.FinishFailure? {
      EventAt(e, i);
    }
    if !tr[j].effect.FinishFailure? {
      EventAt(e, j);
    }
  }

  /** An activation is attempted only for a candidate that was enrolled in this run,
      then saved with its session, accepted by the API as `prepared`, acknowledged in
      the journal, and cleared for activation, in this order and all successfully. */
  lemma ActivationIsPrepared(claim: Claim, os: seq<Outcome>, i: nat)
    requires i < |Trace(Init(claim), os)| && Trace(Init(claim), os)[i].effect.Activate?
    ensures var tr := Trace(Init(claim), os);
            var Activate(c, s) := tr[i].effect;
            && i == 10 && UsableEnrollment(claim, c, s) && c.Str? && s.Str? && c.s != "" && s.s != ""
            && Secrets.Canonical(c.s) != Secrets.Canonical(claim.secret) && Secrets.WorkerAccepts(c.s)
            && tr[5] == Event(Enroll, Enrolled(c, s)) && tr[6] == Event(SaveCandidate(c, s), Ok)
            && tr[7] == Event(Post(ToPrepared, c), Ok) && tr[8] == Event(Acknowledge, Ok)
            && tr[9] == Event(Post(ToActivating, Str("")), Ok)
  {
    var tr, e := Trace(Init(claim), os), End(Init(claim), os);
    EventInOrder(claim, os, i);
    RunFollowsScript(claim, os);
    EventAt(e, i);
    RotationPrefix(e, tr, i);
  }

  /** What the protocol's effect number `k` can be. */
  lemma EventAt(e: Local, k: nat)
    requires k < |Script(e.claim, e.candidate, e.session)|
    ensures var effect := Script(e.claim, e.candidate, e.session)[k].effect;
            && (effect.Enroll? <==> e.claim.action == RotateKey && k == 5)
            && (effect.Activate? <==> e.claim.action == RotateKey && k == 10)
            && (effect.FinishSuccess? <==> e.claim.action != OtherAction && k == |Script(e.claim, e.candidate, e.session)| - 1)
  {
  }

  /** The first successful effects of a rotation, read from its trace. */
  lemma RotationPrefix(e: Local, tr: seq<Event>, n: nat)
    requires e.claim.action == RotateKey && n <= |tr| && n <= |Script(e.claim, e.candidate, e.session)|
    requires tr[..n] == Script(e.claim, e.candidate, e.session)[..n]
    ensures forall j :: 0 <= j < n && j < 12 ==> tr[j] == RotateAt(e.candidate, e.session, j)
  {
    forall j | 0 <= j < n && j < 12 ensures tr[j] == RotateAt(e.candidate, e.session, j) {
      assert tr[j] == tr[..n][j] && Script(e.claim, e.candidate, e.session)[..n][j] == ScriptAt(e.claim, e.candidate, e.session, j);
    }
  }

  lemma VerificationPrefix(e: Local, tr: seq<Event>, n: nat)
    requires e.claim.action != OtherAction && n <= |tr| && n <= |Script(e.claim, e.candidate, e.session)|
    requires tr[..n] == Script(e.claim, e.candidate, e.session)[..n]
    ensures forall j :: VerifyStart(e.claim.action) <= j < n ==>
              tr[j] == VerifyAt(Accepted(e), Rejected(e), j - VerifyStart(e.claim.action))
  {
    forall j | VerifyStart(e.claim.action) <= j < n
      ensures tr[j] == VerifyAt(Accepted(e), Rejected(e), j - VerifyStart(e.claim.action))
    {
      assert tr[j] == tr[..n][j] && Script(e.claim, e.candidate, e.session)[..n][j] == ScriptAt(e.claim, e.candidate, e.session, j);
    }
  }

  /** Success is reported only after a login with the secret to be accepted, and after
      the other secret, if there is one, was explicitly refused. */
  lemma SuccessIsVerified(claim: Claim, os: seq<Outcome>, i: nat)
    requires i < |Trace(Init(claim), os)| && Trace(Init(claim), os)[i].effect.FinishSuccess?
    ensures var tr := Trace(Init(claim), os);
            var e := End(Init(claim), os);
            var v := VerifyStart(claim.action);
            && claim.action != OtherAction && v + 1 < i
            && tr[v + 1] == Event(Login(Accepted(e), true), LoggedIn)
            && (PyTruthy(Rejected(e)) ==>
                  v + 4 < i && tr[v + 2] == Event(WaitForWindow, Ok) && tr[v + 4] == Event(Login(Rejected(e), false), Refused))
            && (claim.action == RotateKey ==> tr[5] == Event(Enroll, Enrolled(e.candidate, e.session)) && tr[11].outcome == Ok)
            && (claim.action != RotateKey ==> e.candidate == claim.candidate)
  {
    var tr, e := Trace(Init(claim), os), End(Init(claim), os);
    EventInOrder(claim, os, i);
    EventAt(e, i);
    VerificationPrefix(e, tr, i);
    if claim.action == RotateKey {
      RotationPrefix(e, tr, i);
    }
    CandidateFixed(Init(claim), os);
  }

  lemma {:induction false} CandidateFixed(l: Local, os: seq<Outcome>)
    ensures l.claim.action != RotateKey && !l.pc.SendingEnroll? && OnTrack(l) ==> End(l, os).candidate == l.candidate
    decreases os
  {
    if os != [] && l.pc != Done && l.claim.action != RotateKey && !l.pc.SendingEnroll? && OnTrack(l) {
      CandidateFixed(Next(l, os[0]), os[1..]);
    }
  }

  // ----- runs in which everything turns out well

  /** The outcomes of the whole protocol. */
  ghost function GoodOutcomes(claim: Claim, candidate: Json, session: Json): seq<Outcome> {
    seq(ScriptLength(claim, candidate), k requires 0 <= k => ScriptAt(claim, candidate, session, k).outcome)
  }

  /** What a claim and an enrolment must be for a run to reach its success report. */
  ghost predicate CanSucceed(claim: Claim, candidate: Json, session: Json) {
    match claim.action
    case RotateKey =>
      && candidate.Str? && session.Str? && candidate.s != "" && session.s != "" && Secrets.WorkerAccepts(candidate.s)
      && Secrets.Canonical(candidate.s) != Secrets.Canonical(claim.secret)
    case VerifyNewKey => candidate == claim.candidate && session == Null && PyTruthy(candidate)
    case VerifyOldKey => candidate == claim.candidate && session == Null && claim.secret != ""
    case OtherAction => false
  }

  /** Where a good run is after `k` effects. */
  ghost predicate GoodLocal(claim: Claim, candidate: Json, session: Json, l: Local, k: nat) {
    var length := ScriptLength(claim, candidate);
    && l.claim == claim && OnTrack(l)
    && ((claim.action == RotateKey && k <= 5) || (l.candidate == candidate && l.session == session))
    && if k == length then l.pc.Done?
       else if k == length - 1 then l.pc.Succeeding?
       else !l.pc.Failing? && !l.pc.Succeeding? && !l.pc.Done? && Position(claim.action, l.pc) == k
  }

  /** The run after `k` good effects. */
  ghost predicate GoodTo(claim: Claim, candidate: Json, session: Json, k: nat, os: seq<Outcome>, tr: seq<Event>) {
    GoodLocal(claim, candidate, session, End(Init(claim), os), k) && Trace(Init(claim), os) == tr
  }

  lemma {:induction false} GoodRun(claim: Claim, candidate: Json, session: Json, k: nat)
    requires CanSucceed(claim, candidate, session) && k <= ScriptLength(claim, candidate)
    ensures GoodTo(claim, candidate, session, k, GoodOutcomes(claim, candidate, session)[..k], Script(claim, candidate, session)[..k])
  {
    if k == 0 {
      GoodStart(claim, candidate, session);
    } else {
      GoodRun(claim, candidate, session, k - 1);
      GoodMore(claim, candidate, session, k - 1);
    }
  }

  lemma OneMoreGood(claim: Claim, candidate: Json, session: Json, k: nat)
    requires k < ScriptLength(claim, candidate)
    ensures var os, script := GoodOutcomes(claim, candidate, session), Script(claim, candidate, session);
            var e := ScriptAt(claim, candidate, session, k);
            os[..k + 1] == os[..k] + [e.outcome] && script[..k + 1] == script[..k] + [e]
  {
  }

  lemma GoodMore(claim: Claim, candidate: Json, session: Json, k: nat)
    requires CanSucceed(claim, candidate, session) && k < ScriptLength(claim, candidate)
    requires GoodTo(claim, candidate, session, k, GoodOutcomes(claim, candidate, session)[..k], Script(claim, candidate, session)[..k])
    ensures GoodTo(claim, candidate, session, k + 1, GoodOutcomes(claim, candidate, session)[..k + 1], Script(claim, candidate, session)[..k + 1])
  {
    OneMoreGood(claim, candidate, session, k);
    GoodEffect(claim, candidate, session, k, GoodOutcomes(claim, candidate, session)[..k], Script(claim, candidate, session)[..k]);
  }

  lemma GoodEffect(claim: Claim, candidate: Json, session: Json, k: nat, os: seq<Outcome>, tr: seq<Event>)
    requires CanSucceed(claim, candidate, session) && k < ScriptLength(claim, candidate) && GoodTo(claim, candidate, session, k, os, tr)
    ensures var e := ScriptAt(claim, candidate, session, k);
            GoodTo(claim, candidate, session, k + 1, os + [e.outcome], tr + [e])
  {
    GoodStep(claim, candidate, session, End(Init(claim), os), k);
    OneMore(Init(claim), os, ScriptAt(claim, candidate, session, k).outcome);
  }

  lemma GoodStart(claim: Claim, candidate: Json, session: Json)
    requires CanSucceed(claim, candidate, session)
    ensures GoodTo(claim, candidate, session, 0, GoodOutcomes(claim, candidate, session)[..0], Script(claim, candidate, session)[..0])
  {
    assert GoodLocal(claim, candidate, session, Init(claim), 0);
    assert GoodOutcomes(claim, candidate, session)[..0] == [] && Script(claim, candidate, session)[..0] == [];
  }

  lemma GoodStep(claim: Claim, candidate: Json, session: Json, l: Local, k: nat)
    requires CanSucceed(claim, candidate, session) && k < ScriptLength(claim, candidate) && GoodLocal(claim, candidate, session, l, k)
    ensures var e := ScriptAt(claim, candidate, session, k);
            !l.pc.Done? && e.effect == EffectOf(l) && GoodLocal(claim, candidate, session, Next(l, e.outcome), k + 1)
  {
    if l.pc.Succeeding? {
      LastStep(claim, candidate, session, l);
    } else {
      var at := if l.pc.SendingEnroll? then l.(candidate := candidate, session := session) else l;
      NextEvent(at);
      EarlyScript(claim, candidate, session, at, k);
      GoodNext(claim, candidate, session, at, k);
      assert Next(at, Wanted(at)) == Next(l, Wanted(at));
    }
  }

  lemma LastStep(claim: Claim, candidate: Json, session: Json, l: Local)
    requires claim.action != OtherAction && l.claim == claim && l.pc.Succeeding?
    ensures ScriptAt(claim, candidate, session, ScriptLength(claim, candidate) - 1) == Event(FinishSuccess, Ok)
    ensures EffectOf(l) == FinishSuccess && Next(l, Ok) == l.(pc := Done)
  {
  }

  /** The script up to the enrolment is the same for every candidate. */
  lemma EarlyScript(claim: Claim, candidate: Json, session: Json, l: Local, k: nat)
    requires l.claim == claim && ((claim.action == RotateKey && k <= 4) || (l.candidate == candidate && l.session == session))
    ensures ScriptAt(claim, candidate, session, k) == ScriptAt(claim, l.candidate, l.session, k)
    ensures ScriptLength(claim, candidate) == ScriptLength(claim, l.candidate)
  {
  }

  lemma GoodNext(claim: Claim, candidate: Json, session: Json, l: Local, k: nat)
    requires CanSucceed(claim, candidate, session) && k < ScriptLength(claim, candidate) - 1
    requires GoodLocal(claim, candidate, session, l, k) && ScriptLength(claim, candidate) == ScriptLength(claim, l.candidate)
    requires l.pc.SendingEnroll? ==> l.candidate == candidate && l.session == session
    ensures GoodLocal(claim, candidate, session, Next(l, Wanted(l)), k + 1)
  {
    MovesOn(l);
    NeverStops(claim, candidate, session, Next(l, Wanted(l)), k + 1);
  }

  lemma NeverStops(claim: Claim, candidate: Json, session: Json, l: Local, k: nat)
    requires CanSucceed(claim, candidate, session) && l.claim == claim
    requires (claim.action == RotateKey && k <= 5) || (l.candidate == candidate && l.session == session)
    ensures !StopsBefore(l, k)
  {
  }

  /** A run whose claim and enrolment pass the checks, and whose effects all turn out well,
      performs the whole protocol and reports success. */
  lemma GoodRunSucceeds(claim: Claim, candidate: Json, session: Json)
    requires CanSucceed(claim, candidate, session)
    ensures var os := GoodOutcomes(claim, candidate, session);
            && End(Init(claim), os).pc == Done && Trace(Init(claim), os) == Script(claim, candidate, session)
            && Trace(Init(claim), os) != [] && Trace(Init(claim), os)[|Trace(Init(claim), os)| - 1] == Event(FinishSuccess, Ok)
  {
    var os, script := GoodOutcomes(claim, candidate, session), Script(claim, candidate, session);
    GoodRun(claim, candidate, session, |os|);
    assert os[..|os|] == os && script[..|os|] == script;
  }

  predicate Report(e: Effect) {
    e.FinishSuccess? || e.FinishFailure?
  }

  /** The reports of a run: none yet, one success, one failure, or a success that
      raised followed directly by a failure. A run that is over has reported. */
  lemma ReportsOfARun(claim: Claim, os: seq<Outcome>, i: nat)
    requires i < |Trace(Init(claim), os)| && Report(Trace(Init(claim), os)[i].effect)
    ensures var tr := Trace(Init(claim), os);
            i == |tr| - 1
            || (i == |tr| - 2 && tr[i].effect.FinishSuccess? && tr[i].outcome != Ok
                && tr[i + 1].effect == FinishFailure(VerificationFailed))
  {
    var tr, e := Trace(Init(claim), os), End(Init(claim), os);
    EventInOrder(claim, os, i);
    if i < |tr| - 1 {
      EventInOrder(claim, os, i + 1);
      EventAt(e, i);
      StoppedAtEnd(e, tr[..i + 1], i);
    }
  }

  /** A run stopped at the success report is one whose success report went wrong. */
  lemma StoppedAtEnd(l: Local, tr: seq<Event>, i: nat)
    requires StoppedAt(l, tr) && i == |tr| - 1 == |Script(l.claim, l.candidate, l.session)| - 1
    requires l.claim.action != OtherAction
    ensures tr[i].outcome != Ok && l.stage == VerificationFailed
  {
    EventAt(l, i);
  }

  lemma EveryRunReports(claim: Claim, os: seq<Outcome>)
    requires End(Init(claim), os).pc == Done
    ensures var tr := Trace(Init(claim), os);
            tr != [] && (tr[|tr| - 1] == Event(FinishSuccess, Ok) || tr[|tr| - 1].effect.FinishFailure?)
  {
    RunFollowsScript(claim, os);
  }

  /** The stage in a failure report is truthful. `LoginFailed`: nothing was enrolled.
      `EnrollmentFailed`: no activation was attempted. `VerificationFailed` in a
      rotation: the activation was confirmed and so was its phase. */
  lemma StageIsTruthful(claim: Claim, os: seq<Outcome>, i: nat)
    requires i < |Trace(Init(claim), os)| && Trace(Init(claim), os)[i].effect.FinishFailure?
    ensures var tr := Trace(Init(claim), os);
            match tr[i].effect.stage
            case LoginFailed => forall j :: 0 <= j < |tr| ==> !tr[j].effect.Enroll? && !tr[j].effect.Activate?
            case EnrollmentFailed => forall j :: 0 <= j < |tr| ==> !tr[j].effect.Activate?
            case ActivationUnconfirmed => claim.action == RotateKey && |tr| > 10 && tr[7].outcome == Ok && tr[9].outcome == Ok
            case VerificationFailed =>
              claim.action == RotateKey ==>
                |tr| > 12 && tr[10].effect.Activate? && tr[10].outcome == Ok && tr[11] == Event(Post(ToVerifying, Str("")), Ok)
  {
    var tr, e := Trace(Init(claim), os), End(Init(claim), os);
    EventInOrder(claim, os, i);
    StoppedStage(e, tr[..i]);
    forall j | 0 <= j < |tr| && (tr[j].effect.Enroll? || tr[j].effect.Activate?)
      ensures claim.action == RotateKey && j < i && j == if tr[j].effect.Enroll? then 5 else 10
    {
      EventInOrder(claim, os, j);
      EventAt(e, j);
    }
    if claim.action == RotateKey && e.stage in {ActivationUnconfirmed, VerificationFailed} {
      assert tr[..i][..i - 1] == tr[..i - 1];
      RotationPrefix(e, tr, if tr[..i] == Script(claim, e.candidate, e.session)[..i] then i else i - 1);
    }
  }

  /** How far a run got before it stopped in a stage. */
  lemma StoppedStage(l: Local, tr: seq<Event>)
    requires StoppedAt(l, tr)
    ensures l.stage == LoginFailed ==> l.claim.action != RotateKey || |tr| <= 5
    ensures l.stage == EnrollmentFailed ==> l.claim.action == RotateKey && |tr| <= 10
    ensures l.stage == ActivationUnconfirmed ==> l.claim.action == RotateKey && |tr| >= 11
    ensures l.stage == VerificationFailed && l.claim.action == RotateKey ==> |tr| >= 13
  {
  }

  /** However its effects turn out, a run is over after at most nineteen of them. */
  lemma RunsEnd(claim: Claim, os: seq<Outcome>)
    ensures |Trace(Init(claim), os)| <= 19
    ensures |os| >= 19 ==> End(Init(claim), os).pc == Done
  {
    RunFollowsScript(claim, os);
    TraceLength(Init(claim), os);
  }

  lemma {:induction false} TraceLength(l: Local, os: seq<Outcome>)
    ensures End(l, os).pc != Done ==> |Trace(l, os)| == |os|
    decreases os
  {
    if os != [] && l.pc != Done {
      TraceLength(Next(l, os[0]), os[1..]);
    }
  }
}
