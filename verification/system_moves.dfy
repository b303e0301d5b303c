/** What the worker, the network and a crash can do in `System`, in every world. */
module SystemMoves {
  import opened Values
  import RecoveryJournal
  import TaskService
  import Rotation
  import opened System

  // ----- one run of `rotate`

  /** The request that an effect sends, and to whom it matters: a post or report carries the
      claim's token, a login and an activation their secret. */
  ghost function RequestOf(e: Rotation.Effect, l: Local, token: nat): Option<Message> {
    match e
    case OpenSession => Some(LoginMessage(l.claim.task, Str(l.claim.secret)))
    case Login(secret, _) => Some(LoginMessage(l.claim.task, secret))
    case Post(phase, secret) => Some(PhaseMessage(l.claim.task, token, phase, if secret.Str? then secret.s else ""))
    case Enroll => Some(EnrollMessage(l.claim.task))
    case Activate(candidate, _) => Some(ActivateMessage(l.claim.task, if candidate.Str? then candidate.s else ""))
    case FinishSuccess => Some(FinishMessage(l.claim.task, token, true))
    case FinishFailure(_) => Some(FinishMessage(l.claim.task, token, false))
    case _ => None
  }

  lemma RequestsOfEffects(token: nat, l: Local)
    requires l.pc != Rotation.Done
    ensures MessageOf(token, l) == RequestOf(Rotation.EffectOf(l), l, token)
  {
  }

  /** The worker can send the request of its effect, and a guard can stop it before, unless
      it reports a failure; the request is on its way under a number never used before. */
  lemma RequestsAreSent(w: World)
    requires w.worker.Busy? && w.worker.sent.None? && w.worker.local.pc != Rotation.Done && w.worker.local.claim.task in w.history
    ensures var l := w.worker.local;
            var m := RequestOf(Rotation.EffectOf(l), l, w.worker.token);
            && (Apply(w, Send).Some? <==> m.Some?)
            && (m.Some? ==>
                  var w' := Apply(w, Send).value;
                  && w'.net == w.net[w.nextId := m.value] && w'.nextId == w.nextId + 1
                  && w'.worker == Busy(w.worker.token, l, Some(w.nextId)) && w'.tasks == w.tasks && w'.journal == w.journal)
            && (m.Some? && !l.pc.Failing? ==>
                  Apply(w, Fence) == Some(w.(worker := Busy(w.worker.token, Rotation.Next(l, Rotation.Fenced), None))))
  {
    RequestsOfEffects(w.worker.token, w.worker.local);
  }

  /** While it waits for a reply the worker can give up at any time, and goes on with the
      outcome once the reply is there. */
  lemma RepliesAreTaken(w: World)
    requires w.worker.Busy? && w.worker.sent.Some? && w.worker.local.pc != Rotation.Done
    ensures var l, id := w.worker.local, w.worker.sent.value;
            && Apply(w, GiveUp) == Some(w.(worker := Busy(w.worker.token, Rotation.Next(l, Rotation.Raised), None)))
            && (id in w.replies && w.replies[id].Answered? ==>
                  Apply(w, Receive) == Some(w.(worker := Busy(w.worker.token, Rotation.Next(l, w.replies[id].outcome), None))))
  {
  }

  /** Guards and the wait can turn out well, and can refuse. */
  lemma GuardsDecide(w: World)
    requires w.worker.Busy? && w.worker.sent.None?
    requires w.worker.local.pc in {Rotation.FirstGuard, Rotation.VerifyGuard, Rotation.Waiting, Rotation.SecondGuard}
    ensures Apply(w, Proceed(true)) == Some(w.(worker := Busy(w.worker.token, Rotation.Next(w.worker.local, Rotation.Ok), None)))
    ensures Apply(w, Proceed(false)) == Some(w.(worker := Busy(w.worker.token, Rotation.Next(w.worker.local, Rotation.Fenced), None)))
  {
  }

  /** What an effect asks the journal program to do: the blank record of the claim, the one
      with the enrolled candidate and session, or the mark. */
  ghost function JournalRequest(l: Local): Option<RecoveryJournal.Request> {
    var c := l.claim;
    match l.pc
    case SavingBlank =>
      Some(RecoveryJournal.WriteRecord(RecoveryJournal.Record(c.task, c.account, Str(c.email), Str(c.password), Str(c.secret), Str(""), Str(""), false)))
    case SavingCandidate =>
      Some(RecoveryJournal.WriteRecord(RecoveryJournal.Record(c.task, c.account, Str(c.email), Str(c.password), Str(c.secret), l.candidate, l.session, false)))
    case Acknowledging => Some(RecoveryJournal.Confirm(c.task))
    case _ => None
  }

  /** A journal call can fail without effect, fail after its effect, or be carried out, the
      last two exactly if the program does not refuse it. */
  lemma JournalIsAsked(w: World)
    requires w.worker.Busy? && w.worker.sent.None? && JournalRequest(w.worker.local).Some?
    ensures var l := w.worker.local;
            var after := RecoveryJournal.Answer(w.journal, JournalRequest(l).value);
            && Apply(w, UseJournal(false, false)) == Some(w.(worker := Busy(w.worker.token, Rotation.Next(l, Rotation.Raised), None)))
            && (after.Some? ==>
                  && Apply(w, UseJournal(true, false))
                     == Some(w.(journal := after.value, worker := Busy(w.worker.token, Rotation.Next(l, Rotation.Raised), None)))
                  && Apply(w, UseJournal(true, true))
                     == Some(w.(journal := after.value, worker := Busy(w.worker.token, Rotation.Next(l, Rotation.Ok), None))))
            && (after.None? ==> Apply(w, UseJournal(true, true)).None?) && Apply(w, UseJournal(false, true)).None?
  {
  }

  // ----- between runs

  /** An idle worker lists what is pending, and asks for a task once the list is done. */
  lemma PassOverTheJournal(w: World)
    ensures w.worker.Idle? ==> Apply(w, Poll) == Some(w.(worker := Recovering(RecoveryJournal.Pending(w.journal))))
    ensures w.worker == Recovering({}) ==>
              Apply(w, SendClaim) == Some(w.(net := w.net[w.nextId := ClaimMessage], nextId := w.nextId + 1, worker := Claiming(w.nextId)))
  {
  }

  /** It can replay each record of the list whose candidate is text, as recorded. */
  lemma RecordsAreReplayed(w: World, task: int)
    requires w.worker.Recovering? && task in w.worker.todo && task in w.journal
    requires w.journal[task].candidate.Str? && w.journal[task].candidate.s != ""
    ensures var secret := w.journal[task].candidate.s;
            Apply(w, SendRecovery(task))
            == Some(w.(net := w.net[w.nextId := RecoverMessage(task, secret)], nextId := w.nextId + 1,
                       worker := AwaitingRecovery(w.worker.todo - {task}, task, secret, w.nextId)))
  {
  }

  /** The others it passes over. */
  lemma OthersAreSkipped(w: World, task: int)
    requires w.worker.Recovering? && task in w.worker.todo && task in w.journal
    requires !w.journal[task].candidate.Str? || w.journal[task].candidate.s == ""
    ensures Apply(w, SkipRecord(task)) == Some(w.(worker := Recovering(w.worker.todo - {task})))
  {
  }

  /** A record is acknowledged only after the reply to its replay, and then can be, or the
      acknowledgement fails; without a reply the pass goes on. */
  lemma ReplayIsConfirmed(w: World)
    ensures w.worker.AwaitingRecovery? ==>
              && (Apply(w, RecoveryReply).Some? <==> w.worker.id in w.replies)
              && (Apply(w, RecoveryReply).Some? ==>
                    Apply(w, RecoveryReply) == Some(w.(worker := Confirming(w.worker.todo, w.worker.task))))
              && Apply(w, RecoveryGiveUp) == Some(w.(worker := Recovering(w.worker.todo)))
    ensures w.worker.Confirming? ==>
              var marked := RecoveryJournal.Answer(w.journal, RecoveryJournal.Confirm(w.worker.task));
              && Apply(w, ConfirmRecovered(false)) == Some(w.(worker := Recovering(w.worker.todo)))
              && (marked.Some? ==>
                    Apply(w, ConfirmRecovered(true)) == Some(w.(worker := Recovering(w.worker.todo), journal := marked.value)))
  {
  }

  /** A claim that was handed out starts a run from its beginning. */
  lemma ClaimsAreTaken(w: World)
    requires w.worker.Claiming? && w.worker.id in w.replies && w.replies[w.worker.id].Granted?
    ensures Apply(w, ClaimReply)
            == Some(w.(worker := Busy(w.replies[w.worker.id].token, Rotation.Init(w.replies[w.worker.id].claim), None)))
  {
  }

  /** A crash is possible at any time and loses what the worker knew and nothing else; a
      request on its way may be lost, and nothing else with it. */
  lemma CrashesAndLosses(w: World, id: nat)
    ensures Apply(w, Crash) == Some(w.(worker := Down))
    ensures w.worker.Down? ==> Apply(w, Restart) == Some(w.(worker := Idle))
    ensures id in w.net ==> Apply(w, Lose(id)) == Some(w.(net := w.net - {id}))
    ensures w.worker.Busy? && w.worker.local.pc == Rotation.Done ==> Apply(w, Leave) == Some(w.(worker := Idle))
  {
  }
}
