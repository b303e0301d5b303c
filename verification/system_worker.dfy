/** Every step of the worker itself keeps the invariant of `System`. */
module SystemWorker {
  import opened Values
  import Secrets
  import RecoveryJournal
  import TaskService
  import Rotation
  import opened System
  import opened SystemInvariant
  import opened SystemSteps
  import opened SystemDeliveries

  /** The invariant but for the worker. */
  ghost predicate CoreOk(w: World) {
    Shape(w) && TasksOk(w) && NetOk(w) && AccountsOk(w)
  }

  lemma CoreSame(w: World, w': World)
    requires CoreOk(w) && w' == w.(worker := w'.worker)
    ensures CoreOk(w')
  {
    SameGrows(w, w');
    SameTasks(w, w');
    SameAccounts(w, w');
    NetStable(w, w');
  }

  lemma SameWorld(w: World, w': World)
    requires CoreOk(w) && w' == w.(worker := w'.worker) && WorkerOk(w')
    ensures Ok(w')
  {
    CoreSame(w, w');
  }

  lemma LocalAnywhere(w: World, w': World, token: nat, l: Local, sending: bool)
    requires LocalOk(w, token, l, sending) && w' == w.(worker := w'.worker)
    ensures LocalOk(w', token, l, sending)
  {
    SameLocal(w, w', token, l, sending);
  }

  /** The worker moves on to `l`, waiting for nothing. */
  lemma MoveTo(w: World, l: Local)
    requires Ok(w) && w.worker.Busy? && LocalOk(w, w.worker.token, l, false)
    ensures Ok(w.(worker := Busy(w.worker.token, l, None)))
  {
    var w' := w.(worker := Busy(w.worker.token, l, None));
    LocalAnywhere(w, w', w.worker.token, l, false);
    SameWorld(w, w');
  }

  // ----- sending

  /** A new request in the network. */
  lemma TransmitCore(w: World, m: Message)
    requires CoreOk(w) && MessageOk(w, m)
    ensures CoreOk(Transmit(w, m))
  {
    var w' := Transmit(w, m);
    SameTasks(w, w');
    SameAccounts(w, w');
    SameGrows(w, w');
    forall n ensures MessageAt(w', n) {
      assert MessageAt(w, n);
      if n in w'.net {
        MessageStable(w, w', w'.net[n]);
      }
    }
  }

  lemma TransmitKeeps(w: World, m: Message, worker: Worker)
    requires CoreOk(w) && MessageOk(w, m) && WorkerOk(Transmit(w, m).(worker := worker))
    ensures Ok(Transmit(w, m).(worker := worker))
  {
    TransmitCore(w, m);
    SameWorld(Transmit(w, m), Transmit(w, m).(worker := worker));
  }

  /** A request of the current effect is one that may be delivered at any time. */
  lemma RequestOk(w: World, token: nat, l: Local)
    requires Shape(w) && LocalOk(w, token, l, false) && MessageOf(token, l).Some?
    requires !MessageOf(token, l).value.ActivateMessage?
    ensures MessageOk(w, MessageOf(token, l).value)
  {
    match l.pc
    case PostingPrepared => assert SavedAs(w.journal, l.claim.task, l.candidate.s);
    case Succeeding => assert Held(w.tasks[l.claim.task], token) ==> Verified(w, l.claim.task);
    case _ =>
  }

  /** The world in which the sending of `m` is counted. */
  ghost function CountedWorld(w: World, task: int, m: Message): World
    requires task in w.history
  {
    w.(history := w.history[task := Counted(w.history[task], m)])
  }

  /** An activation about to be sent carries a secret that is not the claim's. */
  lemma ActivationIsNew(l: Local)
    requires Rotation.OnTrack(l) && l.pc.SendingActivate?
    ensures l.claim.action == Rotation.RotateKey && l.candidate.Str? && !SameSecret(l.candidate.s, l.claim.secret)
  {
  }

  lemma ActivationCounted(id: int, t: Task, h: History, j: Store, secret: string)
    requires CountsOk(id, t, h, j) && h.activated == [] && h.rotations == 1 && |h.phases| >= 3
    requires SavedAs(j, id, secret) && j[id].acknowledged && StoredIn(h, secret)
    requires SecretKept(t) ==> !SameSecret(secret, t.secret)
    ensures CountsOk(id, t, h.(activated := h.activated + [secret]), j)
  {
  }

  lemma ActivationTaskOk(w: World, token: nat, l: Local)
    requires Shape(w) && TaskAt(w, l.claim.task) && LocalOk(w, token, l, false) && l.pc.SendingActivate?
    ensures var id := l.claim.task;
            var h := w.history[id];
            l.candidate.Str? && TaskOk(id, w.tasks[id], h.(activated := h.activated + [l.candidate.s]), w.journal)
  {
    var id := l.claim.task;
    var h := w.history[id];
    ActivationIsNew(l);
    ActivationCounted(id, w.tasks[id], h, w.journal, l.candidate.s);
    OnlyCounted(id, w.tasks[id], h, h.(activated := h.activated + [l.candidate.s]), w.journal);
  }

  lemma EnrolmentTaskOk(w: World, token: nat, l: Local)
    requires Shape(w) && TaskAt(w, l.claim.task) && LocalOk(w, token, l, false) && l.pc.SendingEnroll?
    ensures var id := l.claim.task;
            var h := w.history[id];
            TaskOk(id, w.tasks[id], h.(enrolled := h.enrolled + 1), w.journal)
  {
    var id := l.claim.task;
    var h := w.history[id];
    EnrolmentCounted(id, w.tasks[id], h, w.journal);
    OnlyCounted(id, w.tasks[id], h, h.(enrolled := h.enrolled + 1), w.journal);
  }

  lemma CountedTaskOk(w: World, token: nat, l: Local)
    requires Shape(w) && TaskAt(w, l.claim.task) && LocalOk(w, token, l, false) && MessageOf(token, l).Some?
    ensures var id := l.claim.task;
            var h' := Counted(w.history[id], MessageOf(token, l).value);
            TaskOk(id, w.tasks[id], h', w.journal) && HistoryGrows(w.history[id], h')
  {
    var h := w.history[l.claim.task];
    if l.pc.SendingActivate? {
      ActivationTaskOk(w, token, l);
    } else if l.pc.SendingEnroll? {
      EnrolmentTaskOk(w, token, l);
    }
    MutationCounted(token, l, h);
  }

  /** Only the two requests that change the upstream are counted. */
  lemma MutationCounted(token: nat, l: Local, h: History)
    requires MessageOf(token, l).Some? && (l.pc.SendingActivate? ==> l.candidate.Str?)
    ensures Counted(h, MessageOf(token, l).value) ==
            if l.pc.SendingActivate? then h.(activated := h.activated + [l.candidate.s])
            else if l.pc.SendingEnroll? then h.(enrolled := h.enrolled + 1)
            else h
    ensures HistoryGrows(h, Counted(h, MessageOf(token, l).value))
  {
  }

  lemma OnlyCounted(id: int, t: Task, h: History, h': History, j: Store)
    requires TaskOk(id, t, h, j) && CountsOk(id, t, h', j) && h' == h.(enrolled := h'.enrolled, activated := h'.activated)
    ensures TaskOk(id, t, h', j)
  {
  }

  lemma EnrolmentCounted(id: int, t: Task, h: History, j: Store)
    requires CountsOk(id, t, h, j) && h.enrolled == 0 && h.rotations == 1 && |h.phases| >= 1
    ensures CountsOk(id, t, h.(enrolled := h.enrolled + 1), j)
  {
  }

  lemma CountedKeeps(w: World, token: nat, l: Local)
    requires CoreOk(w) && LocalOk(w, token, l, false) && MessageOf(token, l).Some?
    ensures CoreOk(CountedWorld(w, l.claim.task, MessageOf(token, l).value))
  {
    var w1 := CountedWorld(w, l.claim.task, MessageOf(token, l).value);
    assert TaskAt(w, l.claim.task);
    CountedTaskOk(w, token, l);
    forall id ensures TaskAt(w1, id) {
      assert TaskAt(w, id);
    }
    CountedGrows(w, token, l);
    NetStable(w, w1);
    SameAccounts(w, w1);
  }

  lemma CountedGrows(w: World, token: nat, l: Local)
    requires Shape(w) && LocalOk(w, token, l, false) && MessageOf(token, l).Some?
    requires HistoryGrows(w.history[l.claim.task], Counted(w.history[l.claim.task], MessageOf(token, l).value))
    ensures Grows(w, CountedWorld(w, l.claim.task, MessageOf(token, l).value))
  {
    var w1 := CountedWorld(w, l.claim.task, MessageOf(token, l).value);
    forall id ensures GrowsAt(w, w1, id) {
    }
  }

  lemma CountedLocal(w: World, token: nat, l: Local)
    requires LocalOk(w, token, l, false) && MessageOf(token, l).Some?
    ensures LocalOk(CountedWorld(w, l.claim.task, MessageOf(token, l).value), token, l, true)
  {
  }

  lemma AwaitsReply(w: World, token: nat, l: Local, m: Message)
    requires Shape(w) && LocalOk(w, token, l, true) && MessageOf(token, l) == Some(m) && !l.pc.Done?
    ensures WorkerOk(Transmit(w, m).(worker := Busy(token, l, Some(w.nextId))))
  {
    SameLocal(w, Transmit(w, m).(worker := Busy(token, l, Some(w.nextId))), token, l, true);
  }

  lemma SendKeeps(w: World)
    requires Ok(w) && SendStep(w).Some?
    ensures Ok(SendStep(w).value)
  {
    var token, l := w.worker.token, w.worker.local;
    var m := MessageOf(token, l).value;
    var w1 := CountedWorld(w, l.claim.task, m);
    CountedKeeps(w, token, l);
    CountedLocal(w, token, l);
    SentMessageOk(w, token, l);
    AwaitsReply(w1, token, l, m);
    TransmitKeeps(w1, m, Busy(token, l, Some(w1.nextId)));
    SendIs(w);
  }

  lemma SendIs(w: World)
    requires SendStep(w).Some?
    ensures var l := w.worker.local;
            var m := MessageOf(w.worker.token, l).value;
            SendStep(w).value == Transmit(CountedWorld(w, l.claim.task, m), m).(worker := Busy(w.worker.token, l, Some(w.nextId)))
  {
  }

  lemma SentMessageOk(w: World, token: nat, l: Local)
    requires Shape(w) && LocalOk(w, token, l, false) && MessageOf(token, l).Some?
    ensures MessageOk(CountedWorld(w, l.claim.task, MessageOf(token, l).value), MessageOf(token, l).value)
  {
    var m := MessageOf(token, l).value;
    if !m.ActivateMessage? {
      RequestOk(w, token, l);
    } else {
      ActivationPoint(token, l);
    }
  }

  lemma ActivationPoint(token: nat, l: Local)
    requires MessageOf(token, l).Some? && MessageOf(token, l).value.ActivateMessage?
    ensures l.pc.SendingActivate? && MessageOf(token, l).value.task == l.claim.task
  {
  }

  // ----- effects without a reply to wait for

  lemma FailingOk(w: World, token: nat, l: Local, sending: bool, next: Local)
    requires LocalOk(w, token, l, sending) && next.claim == l.claim && (next.pc.Failing? || next.pc.Done?)
    ensures LocalOk(w, token, next, false)
  {
  }

  lemma FailsOtherwise(l: Local, o: Rotation.Outcome)
    requires !l.pc.Done? && (o.Fenced? || o.Raised?)
    ensures var next := Rotation.Next(l, o); next.claim == l.claim && (next.pc.Failing? || next.pc.Done?)
  {
  }

  lemma StopKeeps(w: World, o: Rotation.Outcome)
    requires Ok(w) && w.worker.Busy? && !w.worker.local.pc.Done? && (o.Fenced? || o.Raised?)
    ensures Ok(Advance(w, o))
  {
    FailsOtherwise(w.worker.local, o);
    FailingOk(w, w.worker.token, w.worker.local, w.worker.sent.Some?, Rotation.Next(w.worker.local, o));
    MoveTo(w, Rotation.Next(w.worker.local, o));
  }

  lemma FenceKeeps(w: World)
    requires Ok(w) && FenceStep(w).Some?
    ensures Ok(FenceStep(w).value)
  {
    StopKeeps(w, Rotation.Fenced);
  }

  lemma GiveUpKeeps(w: World)
    requires Ok(w) && GiveUpStep(w).Some?
    ensures Ok(GiveUpStep(w).value)
  {
    StopKeeps(w, Rotation.Raised);
  }

  lemma ReceiveKeeps(w: World)
    requires Ok(w) && ReceiveStep(w).Some?
    ensures Ok(ReceiveStep(w).value)
  {
    MoveTo(w, Rotation.Next(w.worker.local, w.replies[w.worker.sent.value].outcome));
  }

  lemma LocalStepOk(w: World, token: nat, l: Local)
    requires LocalOk(w, token, l, false) && LocalPc(l.pc)
    ensures LocalOk(w, token, Rotation.Next(l, Rotation.Ok), false)
  {
    var next := Rotation.Next(l, Rotation.Ok);
    assert next.claim == l.claim && next.candidate == l.candidate;
  }

  lemma ProceedKeeps(w: World, ok: bool)
    requires Ok(w) && ProceedStep(w, ok).Some?
    ensures Ok(ProceedStep(w, ok).value)
  {
    if ok {
      LocalStepOk(w, w.worker.token, w.worker.local);
      MoveTo(w, Rotation.Next(w.worker.local, Rotation.Ok));
    } else {
      StopKeeps(w, Rotation.Fenced);
    }
  }

  // ----- the journal

  /** A store that may take the journal's place. */
  ghost predicate StoreFits(w: World, j: Store)
    requires Shape(w)
  {
    && w.journal.Keys <= j.Keys <= w.tasks.Keys && RecoveryJournal.WellKeyed(j) && SavesKept(w.journal, j)
    && forall id :: id in j && j[id].acknowledged ==>
         RecoveryJournal.Replayable(j[id]) && StoredIn(w.history[id], j[id].candidate.s)
  }

  lemma JournalTaskOk(w: World, j: Store, id: int)
    requires Shape(w) && StoreFits(w, j) && id in w.tasks && TaskAt(w, id)
    ensures TaskOk(id, w.tasks[id], w.history[id], j)
  {
  }

  lemma JournalTasks(w: World, j: Store)
    requires Shape(w) && TasksOk(w) && StoreFits(w, j)
    ensures Shape(w.(journal := j)) && TasksOk(w.(journal := j))
  {
    var w' := w.(journal := j);
    forall id ensures TaskAt(w', id) {
      assert TaskAt(w, id);
      if id in w.tasks {
        JournalTaskOk(w, j, id);
      }
    }
  }

  lemma JournalGrows(w: World, j: Store)
    requires Shape(w) && StoreFits(w, j)
    ensures Grows(w, w.(journal := j)) && Quiet(w, w.(journal := j))
  {
    var w' := w.(journal := j);
    forall id ensures GrowsAt(w, w', id) && QuietAt(w, w', id) {
    }
  }

  lemma JournalAccounts(w: World, j: Store)
    requires Shape(w) && AccountsOk(w) && StoreFits(w, j) && Shape(w.(journal := j))
    ensures AccountsOk(w.(journal := j))
  {
    var w' := w.(journal := j);
    forall a ensures AccountAt(w', a) {
      assert AccountAt(w, a);
      if a in w.current {
        forall b | Stores(w, a, b) ensures Stores(w', a, b) {
        }
        AccountKept(w, w', a);
      }
    }
  }

  lemma JournalReplaced(w: World, j: Store)
    requires Ok(w) && StoreFits(w, j)
    ensures Ok(w.(journal := j))
  {
    var w' := w.(journal := j);
    JournalTasks(w, j);
    JournalGrows(w, j);
    JournalAccounts(w, j);
    NetStable(w, w');
    WorkerStable(w, w');
  }

  lemma AcknowledgedOk(w: World)
    requires Ok(w)
    ensures forall t :: t in w.journal && w.journal[t].acknowledged ==>
              RecoveryJournal.Replayable(w.journal[t]) && StoredIn(w.history[t], w.journal[t].candidate.s)
  {
    forall t | t in w.journal && w.journal[t].acknowledged
      ensures RecoveryJournal.Replayable(w.journal[t]) && StoredIn(w.history[t], w.journal[t].candidate.s)
    {
      assert TaskAt(w, t);
    }
  }

  /** Writing a task's own record keeps what the journal already holds for it. */
  lemma WriteFits(w: World, l: Local)
    requires Ok(w) && (l.pc.SavingBlank? || l.pc.SavingCandidate?) && l.claim.task in w.tasks
    requires JournalEffect(w, l).Some?
    ensures StoreFits(w, JournalEffect(w, l).value)
  {
    assert TaskAt(w, l.claim.task);
    AcknowledgedOk(w);
  }

  lemma ConfirmFits(w: World, id: int)
    requires Ok(w) && id in w.journal && RecoveryJournal.Replayable(w.journal[id])
    requires StoredIn(w.history[id], w.journal[id].candidate.s) && RecoveryJournal.Acknowledge(w.journal, id).Some?
    ensures StoreFits(w, RecoveryJournal.Acknowledge(w.journal, id).value)
  {
    RecoveryJournal.AcknowledgeMarks(w.journal, id);
    AcknowledgedOk(w);
  }

  lemma EffectFits(w: World)
    requires Ok(w) && w.worker.Busy? && w.worker.sent.None? && JournalPc(w.worker.local.pc)
    requires JournalEffect(w, w.worker.local).Some?
    ensures StoreFits(w, JournalEffect(w, w.worker.local).value)
  {
    var l := w.worker.local;
    match l.pc
    case Opening =>
      AcknowledgedOk(w);
    case Acknowledging => ConfirmFits(w, l.claim.task);
    case _ => WriteFits(w, l);
  }

  /** After a journal effect that went well the worker may go on. */
  lemma SavedMovesOn(w: World, w1: World, token: nat, l: Local)
    requires Shape(w) && LocalOk(w, token, l, false) && l.pc.SavingCandidate? && JournalEffect(w, l).Some?
    requires LocalOk(w1, token, l, false) && w1 == w.(journal := JournalEffect(w, l).value)
    ensures LocalOk(w1, token, Rotation.Next(l, Rotation.Ok), false)
  {
    var next := Rotation.Next(l, Rotation.Ok);
    if Rotation.UsableEnrollment(l.claim, l.candidate, l.session) {
      SavedCandidate(w.journal, l);
      PostsNext(w1, token, l);
    } else {
      FailingOk(w1, token, l, false, next);
    }
  }

  lemma SavedCandidate(j: Store, l: Local)
    requires l.pc.SavingCandidate? && l.candidate.Str? && l.candidate.s != "" && RecoveryJournal.Write(j, RecordOf(l)).Some?
    ensures SavedAs(RecoveryJournal.Write(j, RecordOf(l)).value, l.claim.task, l.candidate.s)
  {
  }

  lemma PostsNext(w: World, token: nat, l: Local)
    requires LocalOk(w, token, l, false) && l.pc.SavingCandidate?
    requires Rotation.UsableEnrollment(l.claim, l.candidate, l.session) && SavedAs(w.journal, l.claim.task, l.candidate.s)
    ensures LocalOk(w, token, l.(pc := Rotation.PostingPrepared), false)
  {
  }

  lemma EffectMovesOn(w: World, w1: World, token: nat, l: Local)
    requires Shape(w) && LocalOk(w, token, l, false) && JournalPc(l.pc) && JournalEffect(w, l).Some?
    requires LocalOk(w1, token, l, false) && w1 == w.(journal := JournalEffect(w, l).value)
    ensures LocalOk(w1, token, Rotation.Next(l, Rotation.Ok), false)
  {
    match l.pc
    case SavingCandidate => SavedMovesOn(w, w1, token, l);
    case Acknowledging => AcknowledgedMovesOn(w, w1, token, l);
    case SavingBlank => assert Rotation.Next(l, Rotation.Ok) == l.(pc := Rotation.OpeningSession);
    case Opening => OpenedMovesOn(w1, token, l);
  }

  lemma AcknowledgedMovesOn(w: World, w1: World, token: nat, l: Local)
    requires Shape(w) && LocalOk(w1, token, l, false) && l.pc.Acknowledging? && JournalEffect(w, l).Some?
    requires w1 == w.(journal := JournalEffect(w, l).value)
    ensures LocalOk(w1, token, Rotation.Next(l, Rotation.Ok), false)
  {
    RecoveryJournal.AcknowledgeMarks(w.journal, l.claim.task);
    assert w1.journal[l.claim.task].acknowledged;
    assert Rotation.Next(l, Rotation.Ok) == l.(pc := Rotation.PostingActivating);
  }

  lemma OpenedMovesOn(w: World, token: nat, l: Local)
    requires LocalOk(w, token, l, false) && l.pc.Opening?
    ensures LocalOk(w, token, Rotation.Next(l, Rotation.Ok), false)
  {
    match l.claim.action
    case RotateKey => assert Rotation.Next(l, Rotation.Ok) == l.(pc := Rotation.SavingBlank);
    case OtherAction => assert Rotation.Next(l, Rotation.Ok) == l.(pc := Rotation.Failing);
    case _ => assert Rotation.Next(l, Rotation.Ok) == l.(pc := Rotation.PostingRecovery);
  }

  lemma JournalStepKeeps(w: World, reached: bool, ok: bool)
    requires Ok(w) && JournalStep(w, reached, ok).Some?
    ensures Ok(JournalStep(w, reached, ok).value)
  {
    var j := JournalEffect(w, w.worker.local);
    var w1 := w;
    if reached && j.Some? {
      EffectFits(w);
      JournalReplaced(w, j.value);
      w1 := w.(journal := j.value);
    }
    if ok {
      EffectMovesOn(w, w1, w.worker.token, w.worker.local);
      MoveTo(w1, Rotation.Next(w1.worker.local, Rotation.Ok));
    } else {
      StopKeeps(w1, Rotation.Raised);
    }
  }

  // ----- polling

  lemma SendRecoveryKeeps(w: World, task: int)
    requires Ok(w) && SendRecoveryStep(w, task).Some?
    ensures Ok(SendRecoveryStep(w, task).value)
  {
    var secret := w.journal[task].candidate.s;
    TransmitKeeps(w, RecoverMessage(task, secret), AwaitingRecovery(w.worker.todo - {task}, task, secret, w.nextId));
  }

  lemma ConfirmStepKeeps(w: World, reached: bool)
    requires Ok(w) && ConfirmStep(w, reached).Some?
    ensures Ok(ConfirmStep(w, reached).value)
  {
    var j := RecoveryJournal.Acknowledge(w.journal, w.worker.task);
    var w1 := w;
    if reached && j.Some? {
      ConfirmFits(w, w.worker.task);
      JournalReplaced(w, j.value);
      w1 := w.(journal := j.value);
    }
    SameWorld(w1, w1.(worker := Recovering(w.worker.todo)));
  }

  lemma SendClaimKeeps(w: World)
    requires Ok(w) && w.worker == Recovering({})
    ensures Ok(Transmit(w, ClaimMessage).(worker := Claiming(w.nextId)))
  {
    TransmitKeeps(w, ClaimMessage, Claiming(w.nextId));
  }

  lemma ClaimReplyKeeps(w: World)
    requires Ok(w) && Apply(w, ClaimReply).Some?
    ensures Ok(Apply(w, ClaimReply).value)
  {
    var granted := w.replies[w.worker.id];
    var w' := w.(worker := Busy(granted.token, Rotation.Init(granted.claim), None));
    LocalAnywhere(w, w', granted.token, Rotation.Init(granted.claim), false);
    SameWorld(w, w');
  }

  lemma LoseCore(w: World, id: nat)
    requires CoreOk(w) && id in w.net
    ensures CoreOk(w.(net := w.net - {id}))
  {
    var w' := w.(net := w.net - {id});
    assert Shape(w');
    SameTasks(w, w');
    SameAccounts(w, w');
    SameGrows(w, w');
    NetStable(w, w');
  }

  lemma LoseKeeps(w: World, id: nat)
    requires Ok(w) && id in w.net
    ensures Ok(w.(net := w.net - {id}))
  {
    LoseCore(w, id);
    SameGrows(w, w.(net := w.net - {id}));
    WorkerStable(w, w.(net := w.net - {id}));
  }
}
