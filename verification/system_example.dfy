/** Two runs in which the API loses track of a key: a rotation whose activation gets no
    reply, a return to the old secret that succeeds, and the activation's arrival after that
    success, or just before it is reported. */
module SystemExample {
  import opened Values
  import Secrets
  import RecoveryJournal
  import TaskService
  import Rotation
  import opened System

  /** The secret an account starts with and the one it is given. */
  datatype Keys = Keys(first: string, second: string)

  /** Two different secrets that worker and API take as they are. */
  ghost predicate Plain(k: Keys) {
    && Secrets.Canonical(k.first) == k.first && Secrets.Canonical(k.second) == k.second && k.first != k.second
    && k.first != "" && k.second != "" && Secrets.ServiceNormalize(k.second) == Some(k.second) && Secrets.WorkerAccepts(k.second)
  }

  // ----- paths

  ghost predicate IsPath(ws: seq<World>, w: World, w': World) {
    ws != [] && ws[0] == w && ws[|ws| - 1] == w' && forall i :: 0 < i < |ws| ==> StepTo(ws, i)
  }

  ghost predicate Reaches(w: World, w': World) {
    exists ws: seq<World> :: IsPath(ws, w, w')
  }

  lemma Stay(w: World)
    ensures Reaches(w, w)
  {
    assert IsPath([w], w, w);
  }

  lemma Then(w: World, w1: World, step: Step)
    requires Reaches(w, w1) && Apply(w1, step).Some?
    ensures Reaches(w, Apply(w1, step).value)
  {
    var ws :| IsPath(ws, w, w1);
    var w2 := Apply(w1, step).value;
    var ws' := ws + [w2];
    forall i | 0 < i < |ws'| ensures StepTo(ws', i) {
      if i < |ws| {
        assert StepTo(ws, i);
      } else {
        assert Apply(ws'[i - 1], step) == Some(ws'[i]);
      }
    }
    assert IsPath(ws', w, w2);
  }

  lemma ThenSend(w0: World, w: World, w1: World)
    requires Reaches(w0, w) && SendStep(w) == Some(w1)
    ensures Reaches(w0, w1)
  {
    Then(w0, w, Send);
  }

  lemma ThenDeliver(w0: World, w: World, id: nat, chance: Chance, w1: World)
    requires Reaches(w0, w) && DeliverStep(w, id, chance) == Some(w1)
    ensures Reaches(w0, w1)
  {
    Then(w0, w, Deliver(id, chance));
  }

  // ----- worlds with one account and one task

  /** What varies in the run. */
  datatype Scene = Scene(t: Task, h: History, j: Store, credential: string, current: string, net: map<nat, Message>,
                         tokens: nat, worker: Worker)

  ghost predicate Shows(w: World, s: Scene) {
    && w.tasks == map[1 := s.t] && w.history == map[1 := s.h] && w.credentials == map[1 := s.credential]
    && w.current == map[1 := s.current] && w.journal == s.j && w.late == {} && w.net == s.net && w.nextToken == s.tokens
    && w.worker == s.worker
    && (forall m :: m in w.net || m in w.replies ==> m < w.nextId)
  }

  /** The scene once the current request is on its way as message `id`. */
  ghost function Sending(s: Scene, id: nat): Scene
    requires s.worker.Busy? && MessageOf(s.worker.token, s.worker.local).Some?
  {
    var m := MessageOf(s.worker.token, s.worker.local).value;
    s.(worker := s.worker.(sent := Some(id)), h := Counted(s.h, m), net := s.net[id := m])
  }

  ghost predicate CanSend(s: Scene) {
    s.worker.Busy? && s.worker.sent.None? && s.worker.local.claim.task == 1 && !s.worker.local.pc.Done?
    && MessageOf(s.worker.token, s.worker.local).Some?
  }

  ghost function Posted(w: World, s: Scene, m: Message): World
    requires s.worker.Busy?
  {
    w.(net := w.net[w.nextId := m], nextId := w.nextId + 1, worker := s.worker.(sent := Some(w.nextId)),
       history := w.history[1 := Counted(s.h, m)])
  }

  lemma SendIs(w: World, s: Scene)
    requires Shows(w, s) && CanSend(s)
    ensures SendStep(w) == Some(Posted(w, s, MessageOf(s.worker.token, s.worker.local).value))
  {
  }

  lemma PostedShows(w: World, s: Scene, m: Message, h1: History)
    requires Shows(w, s) && s.worker.Busy? && h1 == Counted(s.h, m)
    ensures Shows(Posted(w, s, m), s.(worker := s.worker.(sent := Some(w.nextId)), h := h1, net := s.net[w.nextId := m]))
  {
  }

  lemma Sends(w0: World, w: World, s: Scene) returns (w1: World, id: nat)
    requires Reaches(w0, w) && Shows(w, s) && CanSend(s)
    ensures id !in s.net && Reaches(w0, w1) && Shows(w1, Sending(s, id))
  {
    var m := MessageOf(s.worker.token, s.worker.local).value;
    SendIs(w, s);
    PostedShows(w, s, m, Counted(s.h, m));
    w1, id := Posted(w, s, m), w.nextId;
    ThenSend(w0, w, w1);
  }

  /** The reply to message `id` is there. */
  ghost predicate Replied(w: World, id: nat, o: Rotation.Outcome) {
    id in w.replies && w.replies[id] == Answered(o)
  }

  lemma Receives(w0: World, w: World, s: Scene, id: nat, o: Rotation.Outcome) returns (w1: World)
    requires Reaches(w0, w) && Shows(w, s) && s.worker.Busy? && s.worker.sent == Some(id) && !s.worker.local.pc.Done?
    requires Replied(w, id, o)
    ensures Reaches(w0, w1) && Shows(w1, s.(worker := Busy(s.worker.token, Rotation.Next(s.worker.local, o), None)))
  {
    w1 := Apply(w, Receive).value;
    Then(w0, w, Receive);
  }

  /** A good outcome of the current effect takes the worker to `pc` and `stage`. */
  ghost predicate Goes(s: Scene, pc: Rotation.Pc, stage: Rotation.Stage) {
    s.worker.Busy? && s.worker.sent.None? && s.worker.local.claim.task == 1
    && (Rotation.GoesTo(s.worker.local, pc, stage)
        || (s.worker.local.pc.Failing? && pc.Done? && stage == s.worker.local.stage))
  }

  ghost function At(s: Scene, pc: Rotation.Pc, stage: Rotation.Stage): Worker
    requires s.worker.Busy?
  {
    Busy(s.worker.token, s.worker.local.(pc := pc, stage := stage), None)
  }

  lemma GoesOn(s: Scene, pc: Rotation.Pc, stage: Rotation.Stage)
    requires Goes(s, pc, stage)
    ensures !s.worker.local.pc.Done? && Rotation.Next(s.worker.local, Rotation.Wanted(s.worker.local)) == s.worker.local.(pc := pc, stage := stage)
  {
    if !s.worker.local.pc.Failing? {
      Rotation.GoesToNext(s.worker.local, pc, stage);
    }
  }

  lemma Unnet(net: map<nat, Message>, id: nat, m: Message)
    requires id !in net
    ensures net[id := m] - {id} == net
  {
  }

  const CHANCE: Chance := Chance(0.0, 1, "e", "p", Null, Null)

  lemma RespondShows(w: World, s: Scene, id: nat, r: Reply)
    requires Shows(w, s) && id in s.net
    ensures Shows(Respond(w, id, r), s.(net := s.net - {id}))
    ensures id in Respond(w, id, r).replies && Respond(w, id, r).replies[id] == r
  {
  }

  lemma LoggedInShows(w: World, s: Scene, secret: Json)
    requires Shows(w, s) && !s.h.overtaken
    ensures Shows(LoggedIn(w, 1, secret), s)
  {
    ConfirmedShows(w, s);
  }

  lemma ConfirmedShows(w: World, s: Scene)
    requires Shows(w, s) && !s.h.overtaken
    ensures Shows(Confirmed(w, 1), s)
  {
    var w1 := Confirmed(w, 1);
    NotOvertaken(s.h);
    assert w1.history == w.history;
    assert w1.late == {};
  }

  lemma NotOvertaken(h: History)
    requires !h.overtaken
    ensures h.(overtaken := false) == h
  {
  }

  lemma LoginDelivered(w: World, s: Scene, id: nat, secret: Json)
    requires Shows(w, s) && id in s.net && s.net[id] == LoginMessage(1, secret) && s.t.account == 1 && !s.h.overtaken
    ensures var o := if SameKey(secret, s.current) then Rotation.LoggedIn else Rotation.Refused;
            var w1 := DeliverStep(w, id, CHANCE);
            w1.Some? && Shows(w1.value, s.(net := s.net - {id})) && Replied(w1.value, id, o)
  {
    LoggedInShows(w, s, secret);
    var ok := SameKey(secret, s.current);
    var o := if ok then Rotation.LoggedIn else Rotation.Refused;
    assert DeliverStep(w, id, CHANCE) == DeliverLogin(w, id, 1, secret);
    RespondShows(if ok then LoggedIn(w, 1, secret) else w, s, id, Answered(o));
  }

  lemma Login(w0: World, w: World, s: Scene, secret: Json, pc: Rotation.Pc, stage: Rotation.Stage) returns (w': World)
    requires Reaches(w0, w) && Shows(w, s) && CanSend(s) && s.t.account == 1 && !s.h.overtaken && Goes(s, pc, stage)
    requires MessageOf(s.worker.token, s.worker.local) == Some(LoginMessage(1, secret))
    requires Rotation.Wanted(s.worker.local) == if SameKey(secret, s.current) then Rotation.LoggedIn else Rotation.Refused
    ensures Reaches(w0, w') && Shows(w', s.(worker := At(s, pc, stage)))
  {
    GoesOn(s, pc, stage);
    var w1, id := Sends(w0, w, s);
    LoginDelivered(w1, Sending(s, id), id, secret);
    var w2 := DeliverStep(w1, id, CHANCE).value;
    ThenDeliver(w0, w1, id, CHANCE, w2);
    Unnet(s.net, id, LoginMessage(1, secret));
    w' := Receives(w0, w2, s.(worker := s.worker.(sent := Some(id))), id, Rotation.Wanted(s.worker.local));
  }

  ghost function PhaseHistory(s: Scene, phase: PhaseName, t1: Task): History {
    if s.t.action != TaskService.Rotate then s.h
    else s.h.(phases := s.h.phases + [phase], stored := if phase == ToPrepared then s.h.stored + {t1.candidate} else s.h.stored)
  }

  lemma PostDelivered(w: World, s: Scene, id: nat, token: nat, phase: PhaseName, secret: string, t1: Task)
    requires Shows(w, s) && id in s.net && s.net[id] == PhaseMessage(1, token, phase, secret)
    requires TaskService.Expire(s.t, 0.0) == s.t && TaskService.Phase(s.t, token, phase, secret, 0.0) == Some(t1)
    ensures var w1 := DeliverStep(w, id, CHANCE);
            w1.Some? && Shows(w1.value, s.(t := t1, h := PhaseHistory(s, phase, t1), net := s.net - {id})) && Replied(w1.value, id, Rotation.Ok)
  {
    var s1 := s.(t := t1, h := PhaseHistory(s, phase, t1));
    var w1 := w.(tasks := w.tasks[1 := t1], history := w.history[1 := s1.h]);
    assert Shows(w1, s1);
    PhaseIs(w, id, token, phase, secret, t1, s1.h);
    RespondShows(w1, s1, id, Answered(Rotation.Ok));
  }

  lemma PhaseIs(w: World, id: nat, token: nat, phase: PhaseName, secret: string, t1: Task, h1: History)
    requires 1 in w.tasks && 1 in w.history && id in w.net && w.net[id] == PhaseMessage(1, token, phase, secret)
    requires TaskService.Expire(w.tasks[1], 0.0) == w.tasks[1] && TaskService.Phase(w.tasks[1], token, phase, secret, 0.0) == Some(t1)
    requires h1 == if w.tasks[1].action != TaskService.Rotate then w.history[1]
                   else w.history[1].(phases := w.history[1].phases + [phase],
                                      stored := if phase == ToPrepared then w.history[1].stored + {t1.candidate} else w.history[1].stored)
    ensures DeliverStep(w, id, CHANCE) == Some(Respond(w.(tasks := w.tasks[1 := t1], history := w.history[1 := h1]), id, Answered(Rotation.Ok)))
  {
  }

  lemma Post(w0: World, w: World, s: Scene, phase: PhaseName, secret: string, t1: Task, pc: Rotation.Pc, stage: Rotation.Stage)
    returns (w': World)
    requires Reaches(w0, w) && Shows(w, s) && CanSend(s) && TaskService.Expire(s.t, 0.0) == s.t && Goes(s, pc, stage)
    requires MessageOf(s.worker.token, s.worker.local) == Some(PhaseMessage(1, s.worker.token, phase, secret))
    requires TaskService.Phase(s.t, s.worker.token, phase, secret, 0.0) == Some(t1) && Rotation.Wanted(s.worker.local) == Rotation.Ok
    ensures Reaches(w0, w') && Shows(w', s.(t := t1, h := PhaseHistory(s, phase, t1), worker := At(s, pc, stage)))
  {
    GoesOn(s, pc, stage);
    var w1, id := Sends(w0, w, s);
    PostDelivered(w1, Sending(s, id), id, s.worker.token, phase, secret, t1);
    var w2 := DeliverStep(w1, id, CHANCE).value;
    ThenDeliver(w0, w1, id, CHANCE, w2);
    Unnet(s.net, id, PhaseMessage(1, s.worker.token, phase, secret));
    w' := Receives(w0, w2, s.(t := t1, h := PhaseHistory(s, phase, t1), worker := s.worker.(sent := Some(id))), id, Rotation.Ok);
  }

  lemma Enrol(w0: World, w: World, s: Scene, secret: string, session: string) returns (w': World)
    requires Reaches(w0, w) && Shows(w, s) && CanSend(s) && s.worker.local.pc.SendingEnroll?
    ensures var l := s.worker.local.(pc := Rotation.SavingCandidate, candidate := Str(secret), session := Str(session));
            Reaches(w0, w') && Shows(w', s.(h := s.h.(enrolled := s.h.enrolled + 1), worker := Busy(s.worker.token, l, None)))
  {
    Rotation.EnrolledNext(s.worker.local, Str(secret), Str(session));
    var h1 := s.h.(enrolled := s.h.enrolled + 1);
    var w1, id := Sends(w0, w, s);
    var chance := Chance(0.0, 1, "", "", Str(secret), Str(session));
    var w2 := DeliverStep(w1, id, chance).value;
    ThenDeliver(w0, w1, id, chance, w2);
    Unnet(s.net, id, EnrollMessage(1));
    w' := Receives(w0, w2, s.(h := h1, worker := s.worker.(sent := Some(id))), id, Rotation.Enrolled(Str(secret), Str(session)));
  }

  ghost function Reported(s: Scene, success: bool, t1: Task): Scene {
    s.(t := t1, credential := if success then t1.secret else s.credential)
  }

  lemma ReportDelivered(w: World, s: Scene, id: nat, token: nat, success: bool, t1: Task)
    requires Shows(w, s) && id in s.net && s.net[id] == FinishMessage(1, token, success) && !s.h.overtaken && s.t.account == 1
    requires TaskService.Expire(s.t, 0.0) == s.t && TaskService.Finish(s.t, token, success, false, 0.0) == Some(t1)
    requires success ==> t1.action == TaskService.VerifyOld && t1.account == 1
    ensures var w1 := DeliverStep(w, id, CHANCE);
            w1.Some? && Shows(w1.value, Reported(s, success, t1).(net := s.net - {id})) && Replied(w1.value, id, Rotation.Ok)
  {
    var w1 := if success then Succeeded(w, 1, t1) else WithTask(w, 1, t1);
    ReportedShows(w, s, success, t1);
    FinishIs(w, id, token, success, t1);
    RespondShows(w1, Reported(s, success, t1), id, Answered(Rotation.Ok));
  }

  lemma ReportedShows(w: World, s: Scene, success: bool, t1: Task)
    requires Shows(w, s) && !s.h.overtaken && s.t.account == 1 && (success ==> t1.action == TaskService.VerifyOld && t1.account == 1)
    ensures Shows(if success then Succeeded(w, 1, t1) else WithTask(w, 1, t1), Reported(s, success, t1))
  {
  }

  lemma FinishIs(w: World, id: nat, token: nat, success: bool, t1: Task)
    requires 1 in w.tasks && 1 in w.history && id in w.net && w.net[id] == FinishMessage(1, token, success)
    requires TaskService.Expire(w.tasks[1], 0.0) == w.tasks[1] && TaskService.Finish(w.tasks[1], token, success, false, 0.0) == Some(t1)
    ensures DeliverStep(w, id, CHANCE)
            == Some(Respond(if success then Succeeded(w, 1, t1) else WithTask(w, 1, t1), id, Answered(Rotation.Ok)))
  {
  }

  /** A report; the task, if it succeeds, goes back to the old secret. */
  lemma Report(w0: World, w: World, s: Scene, success: bool, t1: Task, pc: Rotation.Pc, stage: Rotation.Stage) returns (w': World)
    requires Reaches(w0, w) && Shows(w, s) && CanSend(s) && TaskService.Expire(s.t, 0.0) == s.t && s.t.account == 1 && !s.h.overtaken
    requires MessageOf(s.worker.token, s.worker.local) == Some(FinishMessage(1, s.worker.token, success)) && Goes(s, pc, stage)
    requires TaskService.Finish(s.t, s.worker.token, success, false, 0.0) == Some(t1) && Rotation.Wanted(s.worker.local) == Rotation.Ok
    requires success ==> t1.action == TaskService.VerifyOld && t1.account == 1
    ensures Reaches(w0, w') && Shows(w', Reported(s, success, t1).(worker := At(s, pc, stage)))
  {
    GoesOn(s, pc, stage);
    var w1, id := Sends(w0, w, s);
    ReportDelivered(w1, Sending(s, id), id, s.worker.token, success, t1);
    var w2 := DeliverStep(w1, id, CHANCE).value;
    ThenDeliver(w0, w1, id, CHANCE, w2);
    Unnet(s.net, id, FinishMessage(1, s.worker.token, success));
    w' := Receives(w0, w2, Reported(s, success, t1).(worker := s.worker.(sent := Some(id))), id, Rotation.Ok);
  }

  /** A guard passes. */
  lemma Passes(w0: World, w: World, s: Scene, pc: Rotation.Pc, stage: Rotation.Stage) returns (w': World)
    requires Reaches(w0, w) && Shows(w, s) && Goes(s, pc, stage) && LocalPc(s.worker.local.pc)
    ensures Reaches(w0, w') && Shows(w', s.(worker := At(s, pc, stage)))
  {
    GoesOn(s, pc, stage);
    w' := Apply(w, Proceed(true)).value;
    Then(w0, w, Proceed(true));
  }

  /** An effect on the journal goes well. */
  lemma Records(w0: World, w: World, s: Scene, j: Store, pc: Rotation.Pc, stage: Rotation.Stage) returns (w': World)
    requires Reaches(w0, w) && Shows(w, s) && Goes(s, pc, stage) && JournalPc(s.worker.local.pc)
    requires JournalEffect(w, s.worker.local) == Some(j)
    ensures Reaches(w0, w') && Shows(w', s.(j := j, worker := At(s, pc, stage)))
  {
    GoesOn(s, pc, stage);
    w' := Apply(w, UseJournal(true, true)).value;
    Then(w0, w, UseJournal(true, true));
  }

  /** The enrolled candidate is saved, and is usable. */
  lemma RecordsCandidate(w0: World, w: World, s: Scene, j: Store, l1: Local) returns (w': World)
    requires Reaches(w0, w) && Shows(w, s) && s.worker.Busy? && s.worker.sent.None? && s.worker.local.pc == Rotation.SavingCandidate
    requires Rotation.Next(s.worker.local, Rotation.Ok) == l1
    requires JournalEffect(w, s.worker.local) == Some(j)
    ensures Reaches(w0, w') && Shows(w', s.(j := j, worker := Busy(s.worker.token, l1, None)))
  {
    w' := Apply(w, UseJournal(true, true)).value;
    Then(w0, w, UseJournal(true, true));
  }

  /** The worker gives up waiting for the reply to its current request. */
  lemma StopsWaiting(w0: World, w: World, s: Scene, l1: Local) returns (w': World)
    requires Reaches(w0, w) && Shows(w, s) && s.worker.Busy? && s.worker.sent.Some? && !s.worker.local.pc.Done?
    requires Rotation.Next(s.worker.local, Rotation.Raised) == l1
    ensures Reaches(w0, w') && Shows(w', s.(worker := Busy(s.worker.token, l1, None)))
  {
    w' := Apply(w, GiveUp).value;
    Then(w0, w, GiveUp);
  }

  lemma LeavesTask(w0: World, w: World, s: Scene) returns (w': World)
    requires Reaches(w0, w) && Shows(w, s) && s.worker.Busy? && s.worker.local.pc.Done?
    ensures Reaches(w0, w') && Shows(w', s.(worker := Idle))
  {
    w' := Apply(w, Leave).value;
    Then(w0, w, Leave);
  }

  lemma IsReconciled(w0: World, w: World, s: Scene, action: TaskService.Action, t1: Task) returns (w': World)
    requires Reaches(w0, w) && Shows(w, s) && TaskService.Reconcile(s.t, action) == Some(t1)
    ensures Reaches(w0, w') && Shows(w', s.(t := t1))
  {
    w' := Apply(w, Reconcile(1, action)).value;
    Then(w0, w, Reconcile(1, action));
  }

  /** An activation on its way arrives when the task is closed. */
  lemma Arrives(w0: World, w: World, s: Scene, id: nat, secret: string) returns (w': World)
    requires Reaches(w0, w) && Shows(w, s) && id in s.net && s.net[id] == ActivateMessage(1, secret) && s.t.account == 1
    ensures Reaches(w0, w') && w'.current == map[1 := secret] && w'.credentials == map[1 := s.credential]
    ensures w'.tasks == map[1 := s.t] && w'.journal == s.j
  {
    var w1 := Activated(w, 1, secret);
    assert w1.current == map[1 := secret];
    w' := Respond(w1, id, Answered(Rotation.Ok));
    assert DeliverStep(w, id, CHANCE) == DeliverActivate(w, id, 1, secret);
    ThenDeliver(w0, w, id, CHANCE, w');
  }

  /** An activation on its way arrives while its task is to go back to the old secret. */
  lemma Overtakes(w0: World, w: World, s: Scene, id: nat, secret: string) returns (w': World)
    requires Reaches(w0, w) && Shows(w, s) && id in s.net && s.net[id] == ActivateMessage(1, secret) && s.t.account == 1
    requires Open(s.t) && s.t.action == TaskService.VerifyOld
    ensures Reaches(w0, w') && Shows(w', s.(h := s.h.(overtaken := true), current := secret, net := s.net - {id}))
  {
    var w1 := Activated(w, 1, secret);
    OvertakenShows(w, s, secret);
    w' := Respond(w1, id, Answered(Rotation.Ok));
    RespondShows(w1, s.(h := s.h.(overtaken := true), current := secret), id, Answered(Rotation.Ok));
    assert DeliverStep(w, id, CHANCE) == DeliverActivate(w, id, 1, secret);
    ThenDeliver(w0, w, id, CHANCE, w');
  }

  lemma OvertakenShows(w: World, s: Scene, secret: string)
    requires Shows(w, s) && s.t.account == 1 && Open(s.t) && s.t.action == TaskService.VerifyOld
    ensures Shows(Activated(w, 1, secret), s.(h := s.h.(overtaken := true), current := secret))
  {
    var w1 := Activated(w, 1, secret);
    assert w1.current == map[1 := secret];
    assert w1.history == map[1 := s.h.(overtaken := true)];
  }

  lemma NobodyHolds(w: World, t: Task, secret: string, credential: string)
    requires w.current == map[1 := secret] && w.credentials == map[1 := credential] && w.tasks == map[1 := t]
    requires !Open(t) && !SameSecret(secret, credential)
    ensures !ApiHolds(w, 1)
  {
    forall id ensures !Stores(w, 1, id) {
    }
  }

  ghost function Claimed(s: Scene, t1: Task): Scene {
    s.(t := t1, tokens := s.tokens + 1,
       h := s.h.(rotations := s.h.rotations + if s.t.action == TaskService.Rotate then 1 else 0))
  }

  lemma ClaimDelivered(w: World, s: Scene, id: nat, t1: Task)
    requires Shows(w, s) && id in s.net && s.net[id] == ClaimMessage && TaskService.Claim(s.t, s.tokens, 1, 0.0) == Some(t1)
    ensures var w1 := DeliverStep(w, id, CHANCE);
            w1.Some? && Shows(w1.value, Claimed(s, t1).(net := s.net - {id}))
            && id in w1.value.replies && w1.value.replies[id] == Granted(s.tokens, ClaimOf(1, s.t, "e", "p"))
  {
    var w1 := ClaimedWorld(w, t1);
    ClaimedShows(w, s, t1);
    ClaimIs(w, id, t1);
    RespondShows(w1, Claimed(s, t1), id, Granted(s.tokens, ClaimOf(1, s.t, "e", "p")));
  }

  ghost function ClaimedWorld(w: World, t1: Task): World
    requires 1 in w.tasks && 1 in w.history
  {
    var h := w.history[1];
    WithTask(w, 1, t1).(nextToken := w.nextToken + 1,
                        history := w.history[1 := h.(rotations := h.rotations + if w.tasks[1].action == TaskService.Rotate then 1 else 0)])
  }

  lemma ClaimedShows(w: World, s: Scene, t1: Task)
    requires Shows(w, s)
    ensures Shows(ClaimedWorld(w, t1), Claimed(s, t1))
  {
  }

  lemma ClaimIs(w: World, id: nat, t1: Task)
    requires 1 in w.tasks && 1 in w.history && id in w.net && w.net[id] == ClaimMessage
    requires TaskService.Claim(w.tasks[1], w.nextToken, 1, 0.0) == Some(t1)
    ensures DeliverStep(w, id, CHANCE)
            == Some(Respond(ClaimedWorld(w, t1), id, Granted(w.nextToken, ClaimOf(1, w.tasks[1], "e", "p"))))
  {
  }

  lemma AsksForTask(w0: World, w: World, s: Scene) returns (w1: World, id: nat)
    requires Reaches(w0, w) && Shows(w, s) && s.worker == Idle && RecoveryJournal.Pending(s.j) == {}
    ensures id !in s.net && Reaches(w0, w1) && Shows(w1, s.(worker := Claiming(id), net := s.net[id := ClaimMessage]))
  {
    var w2 := Apply(w, Poll).value;
    Then(w0, w, Poll);
    id := w2.nextId;
    w1 := Apply(w2, SendClaim).value;
    Then(w0, w2, SendClaim);
  }

  lemma Begins(w0: World, w: World, s: Scene, id: nat, token: nat, claim: Rotation.Claim) returns (w1: World)
    requires Reaches(w0, w) && Shows(w, s) && s.worker == Claiming(id) && id in w.replies && w.replies[id] == Granted(token, claim)
    ensures Reaches(w0, w1) && Shows(w1, s.(worker := Busy(token, Rotation.Init(claim), None)))
  {
    w1 := Apply(w, ClaimReply).value;
    Then(w0, w, ClaimReply);
  }

  /** An idle worker polls, finds nothing to recover, and is handed the task. */
  lemma TakesTask(w0: World, w: World, s: Scene, t1: Task) returns (w': World)
    requires Reaches(w0, w) && Shows(w, s) && s.worker == Idle && RecoveryJournal.Pending(s.j) == {}
    requires TaskService.Claim(s.t, s.tokens, 1, 0.0) == Some(t1)
    ensures Reaches(w0, w')
    ensures Shows(w', Claimed(s, t1).(worker := Busy(s.tokens, Rotation.Init(ClaimOf(1, s.t, "e", "p")), None)))
  {
    var w1, id := AsksForTask(w0, w, s);
    var s1 := s.(worker := Claiming(id), net := s.net[id := ClaimMessage]);
    ClaimDelivered(w1, s1, id, t1);
    var w2 := DeliverStep(w1, id, CHANCE).value;
    ThenDeliver(w0, w1, id, CHANCE, w2);
    Unnet(s.net, id, ClaimMessage);
    w' := Begins(w0, w2, Claimed(s, t1).(worker := Claiming(id)), id, s.tokens, ClaimOf(1, s.t, "e", "p"));
  }

  // ----- the transactions of the run

  /** The task's stages. */
  ghost function Stage(k: Keys, action: TaskService.Action, state: TaskService.State, stored: bool, token: nat): Task {
    var held := token != 0;
    TaskService.Task(1, TaskService.TotpRotation, action, state, stored, k.first, if stored then k.second else "",
                     if stored then k.first else "", token, if held then 1 else 0, if held then 120.0 else 0.0, 0.0)
  }

  lemma Enrolling(k: Keys)
    ensures var t := Stage(k, TaskService.Rotate, TaskService.Running, false, 1);
            TaskService.Expire(t, 0.0) == t
            && TaskService.Phase(t, 1, ToEnrolling, "", 0.0) == Some(Stage(k, TaskService.Rotate, TaskService.Enrolling, false, 1))
  {
  }

  lemma Preparing(k: Keys)
    requires Secrets.ServiceNormalize(k.second) == Some(k.second) && k.first != k.second && k.second != ""
    ensures var t := Stage(k, TaskService.Rotate, TaskService.Enrolling, false, 1);
            TaskService.Expire(t, 0.0) == t
            && TaskService.Phase(t, 1, ToPrepared, k.second, 0.0) == Some(Stage(k, TaskService.Rotate, TaskService.Prepared, true, 1))
  {
  }

  lemma Activating(k: Keys)
    ensures var t := Stage(k, TaskService.Rotate, TaskService.Prepared, true, 1);
            TaskService.Expire(t, 0.0) == t
            && TaskService.Phase(t, 1, ToActivating, "", 0.0) == Some(Stage(k, TaskService.Rotate, TaskService.Activating, true, 1))
  {
  }

  lemma Leaving(k: Keys)
    ensures var t := Stage(k, TaskService.Rotate, TaskService.Activating, true, 1);
            TaskService.Expire(t, 0.0) == t
            && TaskService.Finish(t, 1, false, false, 0.0) == Some(Stage(k, TaskService.Rotate, TaskService.Uncertain, true, 0))
  {
  }

  lemma Verifying(k: Keys)
    ensures var t := Stage(k, TaskService.VerifyOld, TaskService.Running, true, 2);
            TaskService.Expire(t, 0.0) == t
            && TaskService.Phase(t, 2, ToVerifyRecovery, "", 0.0) == Some(Stage(k, TaskService.VerifyOld, TaskService.Verifying, true, 2))
  {
  }

  lemma TaskReturned(k: Keys)
    ensures var t := Stage(k, TaskService.VerifyOld, TaskService.Verifying, true, 2);
            TaskService.Expire(t, 0.0) == t
            && TaskService.Finish(t, 2, true, false, 0.0) == Some(Stage(k, TaskService.VerifyOld, TaskService.Succeeded, false, 0))
  {
  }

  lemma TurnedBack(k: Keys)
    ensures TaskService.Reconcile(Stage(k, TaskService.Rotate, TaskService.Uncertain, true, 0), TaskService.VerifyOld)
            == Some(Stage(k, TaskService.VerifyOld, TaskService.Queued, true, 0))
  {
  }

  // ----- the journal of the run

  ghost function Saved(k: Keys, stored: bool, acknowledged: bool): Store {
    map[1 := RecoveryJournal.Record(1, Number(1), Str("e"), Str("p"), Str(k.first), Str(if stored then k.second else ""),
                                    Str(if stored then "s" else ""), acknowledged)]
  }

  lemma Journalled(k: Keys)
    requires k.second != ""
    ensures RecoveryJournal.Write(map[], Saved(k, false, false)[1]) == Some(Saved(k, false, false))
    ensures RecoveryJournal.Write(Saved(k, false, false), Saved(k, true, false)[1]) == Some(Saved(k, true, false))
    ensures RecoveryJournal.Acknowledge(Saved(k, true, false), 1) == Some(Saved(k, true, true))
    ensures RecoveryJournal.Pending(Saved(k, true, true)) == {} && RecoveryJournal.Pending(map[]) == {}
  {
    var blank, saved := Saved(k, false, false)[1], Saved(k, true, false)[1];
    assert map[][1 := blank] == map[1 := blank];
    assert map[1 := blank][1 := saved] == map[1 := saved];
    assert map[1 := saved][1 := saved.(acknowledged := true)] == map[1 := saved.(acknowledged := true)];
  }

  // ----- the run

  ghost function RotateClaim(k: Keys): Rotation.Claim {
    Rotation.Claim(1, Number(1), "e", "p", Rotation.RotateKey, k.first, Str(""))
  }

  ghost function ReturnClaim(k: Keys): Rotation.Claim {
    Rotation.Claim(1, Number(1), "e", "p", Rotation.VerifyOldKey, k.first, Str(k.second))
  }

  ghost function Working(k: Keys, pc: Rotation.Pc, stored: bool, stage: Rotation.Stage): Worker {
    Busy(1, Rotation.Local(RotateClaim(k), pc, Str(if stored then k.second else ""), if stored then Str("s") else Null, stage), None)
  }

  ghost function Checking(k: Keys, pc: Rotation.Pc, stage: Rotation.Stage): Worker {
    Busy(2, Rotation.Local(ReturnClaim(k), pc, Str(k.second), Null, stage), None)
  }

  ghost function Phases(n: nat): seq<PhaseName> {
    if n == 0 then [] else if n == 1 then [ToEnrolling] else if n == 2 then [ToEnrolling, ToPrepared]
    else [ToEnrolling, ToPrepared, ToActivating]
  }

  ghost function Past(k: Keys, enrolled: nat, phases: nat, activated: bool): History {
    History(1, enrolled, if activated then [k.second] else [], Phases(phases), if phases >= 2 then {k.second} else {}, false)
  }

  /** What the run adds to the history. */
  lemma PastGrows(k: Keys)
    ensures History(0, 0, [], [], {}, false).(rotations := 1) == Past(k, 0, 0, false)
    ensures var h := Past(k, 0, 0, false); h.(phases := h.phases + [ToEnrolling]) == Past(k, 0, 1, false)
    ensures Past(k, 0, 1, false).(enrolled := 1) == Past(k, 1, 1, false)
    ensures var h := Past(k, 1, 1, false);
            h.(phases := h.phases + [ToPrepared], stored := h.stored + {k.second}) == Past(k, 1, 2, false)
    ensures var h := Past(k, 1, 2, false); h.(phases := h.phases + [ToActivating]) == Past(k, 1, 3, false)
    ensures var h := Past(k, 1, 3, false); h.(activated := h.activated + [k.second]) == Past(k, 1, 3, true)
  {
    assert Phases(0) + [ToEnrolling] == Phases(1) && Phases(1) + [ToPrepared] == Phases(2) && Phases(2) + [ToActivating] == Phases(3);
    assert [] + [k.second] == [k.second] && {} + {k.second} == {k.second};
  }

  ghost function InWork(k: Keys, t: Task, h: History, j: Store, worker: Worker): Scene {
    Scene(t, h, j, k.first, k.first, map[], 2, worker)
  }

  /** One account, whose credential is the secret it accepts. */
  ghost function Start(k: Keys): World {
    World(map[], map[], map[1 := k.first], map[], map[1 := k.first], map[1 := k.first], {}, map[], map[], map[], map[], 0, 1, Down)
  }

  lemma Queued(k: Keys) returns (w: World)
    ensures Initial(Start(k)) && Reaches(Start(k), w)
    ensures Shows(w, Scene(Stage(k, TaskService.Rotate, TaskService.Queued, false, 0), History(0, 0, [], [], {}, false), map[],
                           k.first, k.first, map[], 1, Idle))
  {
    Stay(Start(k));
    var w1 := Apply(Start(k), QueueRotation(1, 1)).value;
    Then(Start(k), Start(k), QueueRotation(1, 1));
    w := Apply(w1, Restart).value;
    Then(Start(k), w1, Restart);
  }

  lemma Taken(k: Keys, w0: World) returns (w: World)
    requires k.first != "" && k.second != "" && Reaches(Start(k), w0)
    requires Shows(w0, Scene(Stage(k, TaskService.Rotate, TaskService.Queued, false, 0), History(0, 0, [], [], {}, false), map[],
                       k.first, k.first, map[], 1, Idle))
    ensures Reaches(Start(k), w)
    ensures Shows(w, InWork(k, Stage(k, TaskService.Rotate, TaskService.Running, false, 1), Past(k, 0, 0, false), map[],
                            Working(k, Rotation.FirstGuard, false, Rotation.LoginFailed)))
  {
    PastGrows(k);
    Journalled(k);
    var s := Scene(Stage(k, TaskService.Rotate, TaskService.Queued, false, 0), History(0, 0, [], [], {}, false), map[],
                   k.first, k.first, map[], 1, Idle);
    w := TakesTask(Start(k), w0, s, Stage(k, TaskService.Rotate, TaskService.Running, false, 1));
    assert Claimed(s, Stage(k, TaskService.Rotate, TaskService.Running, false, 1)).h == Past(k, 0, 0, false);
  }

  /** The rotation up to its login. */
  lemma Opens(k: Keys, w0: World) returns (w: World)
    requires k.first != "" && k.second != "" && Reaches(Start(k), w0)
    requires Shows(w0, InWork(k, Stage(k, TaskService.Rotate, TaskService.Running, false, 1), Past(k, 0, 0, false), map[],
                       Working(k, Rotation.FirstGuard, false, Rotation.LoginFailed)))
    ensures Reaches(Start(k), w)
    ensures Shows(w, InWork(k, Stage(k, TaskService.Rotate, TaskService.Running, false, 1), Past(k, 0, 0, false), Saved(k, false, false),
                            Working(k, Rotation.OpeningSession, false, Rotation.LoginFailed)))
  {
    Journalled(k);
    var t, h := Stage(k, TaskService.Rotate, TaskService.Running, false, 1), Past(k, 0, 0, false);
    w := Passes(Start(k), w0, InWork(k, t, h, map[], Working(k, Rotation.FirstGuard, false, Rotation.LoginFailed)), Rotation.Opening, Rotation.LoginFailed);
    w := Records(Start(k), w, InWork(k, t, h, map[], Working(k, Rotation.Opening, false, Rotation.LoginFailed)), map[],
                 Rotation.SavingBlank, Rotation.LoginFailed);
    w := Records(Start(k), w, InWork(k, t, h, map[], Working(k, Rotation.SavingBlank, false, Rotation.LoginFailed)), Saved(k, false, false),
                 Rotation.OpeningSession, Rotation.LoginFailed);
  }

  /** The rotation up to its enrolment. */
  lemma Enters(k: Keys, w0: World) returns (w: World)
    requires k.first != "" && k.second != "" && Reaches(Start(k), w0)
    requires Shows(w0, InWork(k, Stage(k, TaskService.Rotate, TaskService.Running, false, 1), Past(k, 0, 0, false), Saved(k, false, false),
                       Working(k, Rotation.OpeningSession, false, Rotation.LoginFailed)))
    ensures Reaches(Start(k), w)
    ensures Shows(w, InWork(k, Stage(k, TaskService.Rotate, TaskService.Enrolling, false, 1), Past(k, 0, 1, false), Saved(k, false, false),
                            Working(k, Rotation.SendingEnroll, false, Rotation.EnrollmentFailed)))
  {
    PastGrows(k);
    Enrolling(k);
    var t, h := Stage(k, TaskService.Rotate, TaskService.Running, false, 1), Past(k, 0, 0, false);
    w := Login(Start(k), w0, InWork(k, t, h, Saved(k, false, false), Working(k, Rotation.OpeningSession, false, Rotation.LoginFailed)), Str(k.first),
               Rotation.PostingEnrolling, Rotation.LoginFailed);
    w := Post(Start(k), w, InWork(k, t, h, Saved(k, false, false), Working(k, Rotation.PostingEnrolling, false, Rotation.LoginFailed)),
              ToEnrolling, "", Stage(k, TaskService.Rotate, TaskService.Enrolling, false, 1), Rotation.SendingEnroll, Rotation.EnrollmentFailed);
  }

  /** The rotation up to the enrolment's answer. */
  lemma Enrols(k: Keys, w0: World) returns (w: World)
    requires Reaches(Start(k), w0)
    requires Shows(w0, InWork(k, Stage(k, TaskService.Rotate, TaskService.Enrolling, false, 1), Past(k, 0, 1, false), Saved(k, false, false),
                       Working(k, Rotation.SendingEnroll, false, Rotation.EnrollmentFailed)))
    ensures Reaches(Start(k), w)
    ensures Shows(w, InWork(k, Stage(k, TaskService.Rotate, TaskService.Enrolling, false, 1), Past(k, 1, 1, false), Saved(k, false, false),
                            Working(k, Rotation.SavingCandidate, true, Rotation.EnrollmentFailed)))
  {
    PastGrows(k);
    var t := Stage(k, TaskService.Rotate, TaskService.Enrolling, false, 1);
    w := Enrol(Start(k), w0, InWork(k, t, Past(k, 0, 1, false), Saved(k, false, false), Working(k, Rotation.SendingEnroll, false, Rotation.EnrollmentFailed)),
               k.second, "s");
  }

  /** The rotation up to its saved candidate. */
  lemma Saves(k: Keys, w0: World) returns (w: World)
    requires k.second != "" && Reaches(Start(k), w0)
    requires Rotation.UsableEnrollment(RotateClaim(k), Str(k.second), Str("s"))
    requires Shows(w0, InWork(k, Stage(k, TaskService.Rotate, TaskService.Enrolling, false, 1), Past(k, 1, 1, false), Saved(k, false, false),
                       Working(k, Rotation.SavingCandidate, true, Rotation.EnrollmentFailed)))
    ensures Reaches(Start(k), w)
    ensures Shows(w, InWork(k, Stage(k, TaskService.Rotate, TaskService.Enrolling, false, 1), Past(k, 1, 1, false), Saved(k, true, false),
                            Working(k, Rotation.PostingPrepared, true, Rotation.EnrollmentFailed)))
  {
    Journalled(k);
    var next := Working(k, Rotation.PostingPrepared, true, Rotation.EnrollmentFailed).local;
    Rotation.SavedNext(Working(k, Rotation.SavingCandidate, true, Rotation.EnrollmentFailed).local);
    w := RecordsCandidate(Start(k), w0, InWork(k, Stage(k, TaskService.Rotate, TaskService.Enrolling, false, 1), Past(k, 1, 1, false),
                                               Saved(k, false, false), Working(k, Rotation.SavingCandidate, true, Rotation.EnrollmentFailed)),
                          Saved(k, true, false), next);
  }

  /** The rotation up to its accepted candidate. */
  lemma Prepares(k: Keys, w0: World) returns (w: World)
    requires k.second != "" && Reaches(Start(k), w0) && Secrets.ServiceNormalize(k.second) == Some(k.second) && k.first != k.second
    requires Shows(w0, InWork(k, Stage(k, TaskService.Rotate, TaskService.Enrolling, false, 1), Past(k, 1, 1, false), Saved(k, true, false),
                       Working(k, Rotation.PostingPrepared, true, Rotation.EnrollmentFailed)))
    ensures Reaches(Start(k), w)
    ensures Shows(w, InWork(k, Stage(k, TaskService.Rotate, TaskService.Prepared, true, 1), Past(k, 1, 2, false), Saved(k, true, false),
                            Working(k, Rotation.Acknowledging, true, Rotation.EnrollmentFailed)))
  {
    PastGrows(k);
    Preparing(k);
    w := Post(Start(k), w0, InWork(k, Stage(k, TaskService.Rotate, TaskService.Enrolling, false, 1), Past(k, 1, 1, false), Saved(k, true, false),
                                   Working(k, Rotation.PostingPrepared, true, Rotation.EnrollmentFailed)),
              ToPrepared, k.second, Stage(k, TaskService.Rotate, TaskService.Prepared, true, 1), Rotation.Acknowledging, Rotation.EnrollmentFailed);
  }

  /** The rotation up to its acknowledged candidate. */
  lemma Acknowledges(k: Keys, w0: World) returns (w: World)
    requires k.second != "" && Reaches(Start(k), w0)
    requires Shows(w0, InWork(k, Stage(k, TaskService.Rotate, TaskService.Prepared, true, 1), Past(k, 1, 2, false), Saved(k, true, false),
                       Working(k, Rotation.Acknowledging, true, Rotation.EnrollmentFailed)))
    ensures Reaches(Start(k), w)
    ensures Shows(w, InWork(k, Stage(k, TaskService.Rotate, TaskService.Prepared, true, 1), Past(k, 1, 2, false), Saved(k, true, true),
                            Working(k, Rotation.PostingActivating, true, Rotation.EnrollmentFailed)))
  {
    Journalled(k);
    w := Records(Start(k), w0, InWork(k, Stage(k, TaskService.Rotate, TaskService.Prepared, true, 1), Past(k, 1, 2, false), Saved(k, true, false),
                                      Working(k, Rotation.Acknowledging, true, Rotation.EnrollmentFailed)),
                 Saved(k, true, true), Rotation.PostingActivating, Rotation.EnrollmentFailed);
  }

  /** With the activation on its way. */
  ghost function Late(k: Keys, t: Task, id: nat, tokens: nat, worker: Worker): Scene {
    Scene(t, Past(k, 1, 3, true), Saved(k, true, true), k.first, k.first, map[id := ActivateMessage(1, k.second)], tokens, worker)
  }

  lemma PostsActivating(k: Keys, w0: World) returns (w: World)
    requires k.first != "" && k.second != "" && Reaches(Start(k), w0)
    requires Shows(w0, InWork(k, Stage(k, TaskService.Rotate, TaskService.Prepared, true, 1), Past(k, 1, 2, false), Saved(k, true, true),
                       Working(k, Rotation.PostingActivating, true, Rotation.EnrollmentFailed)))
    ensures Reaches(Start(k), w)
    ensures Shows(w, InWork(k, Stage(k, TaskService.Rotate, TaskService.Activating, true, 1), Past(k, 1, 3, false), Saved(k, true, true),
                            Working(k, Rotation.SendingActivate, true, Rotation.ActivationUnconfirmed)))
  {
    PastGrows(k);
    Activating(k);
    var t, t' := Stage(k, TaskService.Rotate, TaskService.Prepared, true, 1), Stage(k, TaskService.Rotate, TaskService.Activating, true, 1);
    w := Post(Start(k), w0, InWork(k, t, Past(k, 1, 2, false), Saved(k, true, true), Working(k, Rotation.PostingActivating, true, Rotation.EnrollmentFailed)),
              ToActivating, "", t', Rotation.SendingActivate, Rotation.ActivationUnconfirmed);
  }

  /** The activation is sent, and stays on its way. */
  lemma Activates(k: Keys, w0: World) returns (w: World, id: nat)
    requires k.first != "" && k.second != "" && Reaches(Start(k), w0)
    requires Shows(w0, InWork(k, Stage(k, TaskService.Rotate, TaskService.Activating, true, 1), Past(k, 1, 3, false), Saved(k, true, true),
                       Working(k, Rotation.SendingActivate, true, Rotation.ActivationUnconfirmed)))
    ensures Reaches(Start(k), w)
    ensures Shows(w, Late(k, Stage(k, TaskService.Rotate, TaskService.Activating, true, 1), id, 2,
                          Busy(1, Working(k, Rotation.SendingActivate, true, Rotation.ActivationUnconfirmed).local, Some(id))))
  {
    PastGrows(k);
    var t := Stage(k, TaskService.Rotate, TaskService.Activating, true, 1);
    w, id := Sends(Start(k), w0, InWork(k, t, Past(k, 1, 3, false), Saved(k, true, true),
                                        Working(k, Rotation.SendingActivate, true, Rotation.ActivationUnconfirmed)));
  }

  lemma Raises(l: Local)
    requires l.pc == Rotation.SendingActivate
    ensures Rotation.Next(l, Rotation.Raised) == l.(pc := Rotation.Failing)
  {
  }

  /** The worker gives up waiting and reports a failure. */
  lemma GivesUp(k: Keys, w0: World, id: nat) returns (w: World)
    requires k.first != "" && k.second != "" && Reaches(Start(k), w0)
    requires Shows(w0, Late(k, Stage(k, TaskService.Rotate, TaskService.Activating, true, 1), id, 2,
                       Busy(1, Working(k, Rotation.SendingActivate, true, Rotation.ActivationUnconfirmed).local, Some(id))))
    ensures Reaches(Start(k), w)
    ensures Shows(w, Late(k, Stage(k, TaskService.Rotate, TaskService.Uncertain, true, 0), id, 2,
                          Working(k, Rotation.Done, true, Rotation.ActivationUnconfirmed)))
  {
    Leaving(k);
    var t := Stage(k, TaskService.Rotate, TaskService.Activating, true, 1);
    var waiting := Busy(1, Working(k, Rotation.SendingActivate, true, Rotation.ActivationUnconfirmed).local, Some(id));
    Raises(waiting.local);
    w := StopsWaiting(Start(k), w0, Late(k, t, id, 2, waiting), waiting.local.(pc := Rotation.Failing));
    w := Report(Start(k), w, Late(k, t, id, 2, Working(k, Rotation.Failing, true, Rotation.ActivationUnconfirmed)), false,
                Stage(k, TaskService.Rotate, TaskService.Uncertain, true, 0), Rotation.Done, Rotation.ActivationUnconfirmed);
  }

  /** The task is to go back to the old secret. */
  lemma TurnsBack(k: Keys, w0: World, id: nat) returns (w: World)
    requires k.first != "" && k.second != "" && Reaches(Start(k), w0)
    requires Shows(w0, Late(k, Stage(k, TaskService.Rotate, TaskService.Uncertain, true, 0), id, 2,
                       Working(k, Rotation.Done, true, Rotation.ActivationUnconfirmed)))
    ensures Reaches(Start(k), w)
    ensures Shows(w, Late(k, Stage(k, TaskService.VerifyOld, TaskService.Queued, true, 0), id, 2, Idle))
  {
    TurnedBack(k);
    var s := Late(k, Stage(k, TaskService.Rotate, TaskService.Uncertain, true, 0), id, 2,
                  Working(k, Rotation.Done, true, Rotation.ActivationUnconfirmed));
    w := LeavesTask(Start(k), w0, s);
    w := IsReconciled(Start(k), w, s.(worker := Idle), TaskService.VerifyOld, Stage(k, TaskService.VerifyOld, TaskService.Queued, true, 0));
  }

  lemma TakenAgain(k: Keys, w0: World, id: nat) returns (w: World)
    requires k.first != "" && k.second != "" && Reaches(Start(k), w0)
    requires Shows(w0, Late(k, Stage(k, TaskService.VerifyOld, TaskService.Queued, true, 0), id, 2, Idle))
    ensures Reaches(Start(k), w)
    ensures Shows(w, Late(k, Stage(k, TaskService.VerifyOld, TaskService.Running, true, 2), id, 3,
                          Checking(k, Rotation.PostingRecovery, Rotation.LoginFailed)))
  {
    Journalled(k);
    var t := Stage(k, TaskService.VerifyOld, TaskService.Running, true, 2);
    w := TakesTask(Start(k), w0, Late(k, Stage(k, TaskService.VerifyOld, TaskService.Queued, true, 0), id, 2, Idle), t);
    w := Passes(Start(k), w, Late(k, t, id, 3, Checking(k, Rotation.FirstGuard, Rotation.LoginFailed)), Rotation.Opening, Rotation.LoginFailed);
    w := Records(Start(k), w, Late(k, t, id, 3, Checking(k, Rotation.Opening, Rotation.LoginFailed)), Saved(k, true, true),
                 Rotation.PostingRecovery, Rotation.LoginFailed);
  }

  /** The return to the old secret up to its first login. */
  lemma Verifies(k: Keys, w0: World, id: nat) returns (w: World)
    requires k.first != "" && k.second != "" && Reaches(Start(k), w0)
    requires Shows(w0, Late(k, Stage(k, TaskService.VerifyOld, TaskService.Running, true, 2), id, 3,
                       Checking(k, Rotation.PostingRecovery, Rotation.LoginFailed)))
    ensures Reaches(Start(k), w)
    ensures Shows(w, Late(k, Stage(k, TaskService.VerifyOld, TaskService.Verifying, true, 2), id, 3,
                          Checking(k, Rotation.LoginAccepted, Rotation.VerificationFailed)))
  {
    Verifying(k);
    var t := Stage(k, TaskService.VerifyOld, TaskService.Verifying, true, 2);
    w := Post(Start(k), w0, Late(k, Stage(k, TaskService.VerifyOld, TaskService.Running, true, 2), id, 3,
                                Checking(k, Rotation.PostingRecovery, Rotation.LoginFailed)), ToVerifyRecovery, "", t,
              Rotation.VerifyGuard, Rotation.VerificationFailed);
    w := Passes(Start(k), w, Late(k, t, id, 3, Checking(k, Rotation.VerifyGuard, Rotation.VerificationFailed)), Rotation.LoginAccepted, Rotation.VerificationFailed);
  }

  /** The old secret is accepted. */
  lemma Accepts(k: Keys, w0: World, id: nat) returns (w: World)
    requires k.first != "" && k.second != "" && Reaches(Start(k), w0)
    requires Shows(w0, Late(k, Stage(k, TaskService.VerifyOld, TaskService.Verifying, true, 2), id, 3,
                       Checking(k, Rotation.LoginAccepted, Rotation.VerificationFailed)))
    ensures Reaches(Start(k), w)
    ensures Shows(w, Late(k, Stage(k, TaskService.VerifyOld, TaskService.Verifying, true, 2), id, 3,
                          Checking(k, Rotation.Waiting, Rotation.VerificationFailed)))
  {
    var t := Stage(k, TaskService.VerifyOld, TaskService.Verifying, true, 2);
    w := Login(Start(k), w0, Late(k, t, id, 3, Checking(k, Rotation.LoginAccepted, Rotation.VerificationFailed)), Str(k.first),
               Rotation.Waiting, Rotation.VerificationFailed);
  }

  /** The wait for the next window. */
  lemma Waits(k: Keys, w0: World, id: nat) returns (w: World)
    requires Reaches(Start(k), w0)
    requires Shows(w0, Late(k, Stage(k, TaskService.VerifyOld, TaskService.Verifying, true, 2), id, 3,
                       Checking(k, Rotation.Waiting, Rotation.VerificationFailed)))
    ensures Reaches(Start(k), w)
    ensures Shows(w, Late(k, Stage(k, TaskService.VerifyOld, TaskService.Verifying, true, 2), id, 3,
                          Checking(k, Rotation.LoginRejected, Rotation.VerificationFailed)))
  {
    var t := Stage(k, TaskService.VerifyOld, TaskService.Verifying, true, 2);
    w := Passes(Start(k), w0, Late(k, t, id, 3, Checking(k, Rotation.Waiting, Rotation.VerificationFailed)), Rotation.SecondGuard, Rotation.VerificationFailed);
    w := Passes(Start(k), w, Late(k, t, id, 3, Checking(k, Rotation.SecondGuard, Rotation.VerificationFailed)), Rotation.LoginRejected, Rotation.VerificationFailed);
  }

  /** The new secret is refused. */
  lemma Refuses(k: Keys, w0: World, id: nat) returns (w: World)
    requires Reaches(Start(k), w0) && !SameKey(Str(k.second), k.first)
    requires Shows(w0, Late(k, Stage(k, TaskService.VerifyOld, TaskService.Verifying, true, 2), id, 3,
                       Checking(k, Rotation.LoginRejected, Rotation.VerificationFailed)))
    ensures Reaches(Start(k), w)
    ensures Shows(w, Late(k, Stage(k, TaskService.VerifyOld, TaskService.Verifying, true, 2), id, 3,
                          Checking(k, Rotation.Succeeding, Rotation.VerificationFailed)))
  {
    w := Login(Start(k), w0, Late(k, Stage(k, TaskService.VerifyOld, TaskService.Verifying, true, 2), id, 3,
                                  Checking(k, Rotation.LoginRejected, Rotation.VerificationFailed)), Str(k.second),
               Rotation.Succeeding, Rotation.VerificationFailed);
  }

  /** The old secret is restored. */
  lemma Restores(k: Keys, w0: World, id: nat) returns (w: World)
    requires k.first != "" && k.second != "" && Reaches(Start(k), w0)
    requires Shows(w0, Late(k, Stage(k, TaskService.VerifyOld, TaskService.Verifying, true, 2), id, 3,
                       Checking(k, Rotation.Succeeding, Rotation.VerificationFailed)))
    ensures Reaches(Start(k), w)
    ensures Shows(w, Late(k, Stage(k, TaskService.VerifyOld, TaskService.Succeeded, false, 0), id, 3,
                          Checking(k, Rotation.Done, Rotation.VerificationFailed)))
  {
    TaskReturned(k);
    w := Report(Start(k), w0, Late(k, Stage(k, TaskService.VerifyOld, TaskService.Verifying, true, 2), id, 3,
                                  Checking(k, Rotation.Succeeding, Rotation.VerificationFailed)), true,
                Stage(k, TaskService.VerifyOld, TaskService.Succeeded, false, 0), Rotation.Done, Rotation.VerificationFailed);
  }

  /** The rotation. */
  lemma Rotates(k: Keys) returns (w: World, id: nat)
    requires k.first != "" && k.second != "" && k.first != k.second && Secrets.ServiceNormalize(k.second) == Some(k.second)
    requires Rotation.UsableEnrollment(RotateClaim(k), Str(k.second), Str("s"))
    ensures Initial(Start(k)) && Reaches(Start(k), w)
    ensures Shows(w, Late(k, Stage(k, TaskService.Rotate, TaskService.Uncertain, true, 0), id, 2,
                          Working(k, Rotation.Done, true, Rotation.ActivationUnconfirmed)))
  {
    w := Queued(k);
    w := Taken(k, w);
    w := Opens(k, w);
    w := Enters(k, w);
    w := Enrols(k, w);
    w := Saves(k, w);
    w := Prepares(k, w);
    w := Acknowledges(k, w);
    w := PostsActivating(k, w);
    w, id := Activates(k, w);
    w := GivesUp(k, w, id);
  }

  /** The return to the old secret. */
  lemma ReturnsToOld(k: Keys, w0: World, id: nat) returns (w: World)
    requires k.first != "" && k.second != "" && Reaches(Start(k), w0) && !SameKey(Str(k.second), k.first)
    requires Shows(w0, Late(k, Stage(k, TaskService.Rotate, TaskService.Uncertain, true, 0), id, 2,
                            Working(k, Rotation.Done, true, Rotation.ActivationUnconfirmed)))
    ensures Reaches(Start(k), w)
    ensures Shows(w, Late(k, Stage(k, TaskService.VerifyOld, TaskService.Succeeded, false, 0), id, 3,
                          Checking(k, Rotation.Done, Rotation.VerificationFailed)))
  {
    w := Rechecks(k, w0, id);
    w := Restores(k, w, id);
  }

  /** The return to the old secret up to its success report. */
  lemma Rechecks(k: Keys, w0: World, id: nat) returns (w: World)
    requires k.first != "" && k.second != "" && Reaches(Start(k), w0) && !SameKey(Str(k.second), k.first)
    requires Shows(w0, Late(k, Stage(k, TaskService.Rotate, TaskService.Uncertain, true, 0), id, 2,
                            Working(k, Rotation.Done, true, Rotation.ActivationUnconfirmed)))
    ensures Reaches(Start(k), w)
    ensures Shows(w, Late(k, Stage(k, TaskService.VerifyOld, TaskService.Verifying, true, 2), id, 3,
                          Checking(k, Rotation.Succeeding, Rotation.VerificationFailed)))
  {
    w := TurnsBack(k, w0, id);
    w := TakenAgain(k, w, id);
    w := Verifies(k, w, id);
    w := Accepts(k, w, id);
    w := Waits(k, w, id);
    w := Refuses(k, w, id);
  }

  lemma PlainIsUsable(k: Keys)
    requires Plain(k)
    ensures Rotation.UsableEnrollment(RotateClaim(k), Str(k.second), Str("s")) && !SameKey(Str(k.second), k.first)
    ensures !SameSecret(k.second, k.first)
  {
  }

  /** A run after which the upstream accepts a secret that the API does not hold, while the
      journal has it: a rotation whose activation gets no reply, a return to the old secret
      that succeeds, and then the activation's arrival. */
  lemma ApiCanLoseTheKey(k: Keys) returns (ws: seq<World>)
    requires Plain(k)
    ensures IsRun(ws)
    ensures Lost(k, ws[|ws| - 1])
  {
    PlainIsUsable(k);
    var w, id := Rotates(k);
    w := ReturnsToOld(k, w, id);
    w := Loses(k, w, id);
    ws :| IsPath(ws, Start(k), w);
  }

  /** What is left in the end. */
  ghost predicate Lost(k: Keys, w: World) {
    && !ApiHolds(w, 1) && w.current == map[1 := k.second] && w.credentials == map[1 := k.first]
    && w.tasks.Keys == {1} && w.tasks[1].state == TaskService.Succeeded && w.tasks[1].action == TaskService.VerifyOld
    && 1 in w.journal && w.journal[1].candidate == Str(k.second)
  }

  /** The activation arrives. */
  lemma Loses(k: Keys, w0: World, id: nat) returns (w: World)
    requires Reaches(Start(k), w0) && !SameSecret(k.second, k.first)
    requires Shows(w0, Late(k, Stage(k, TaskService.VerifyOld, TaskService.Succeeded, false, 0), id, 3,
                       Checking(k, Rotation.Done, Rotation.VerificationFailed)))
    ensures Reaches(Start(k), w) && Lost(k, w)
  {
    var t := Stage(k, TaskService.VerifyOld, TaskService.Succeeded, false, 0);
    w := Arrives(Start(k), w0, Late(k, t, id, 3, Checking(k, Rotation.Done, Rotation.VerificationFailed)), id, k.second);
    NobodyHolds(w, t, k.second, k.first);
  }

  /** The worker is about to report, when the activation has arrived. */
  ghost function Overtaken(k: Keys): Scene {
    Late(k, Stage(k, TaskService.VerifyOld, TaskService.Verifying, true, 2), 0, 3,
         Checking(k, Rotation.Succeeding, Rotation.VerificationFailed))
    .(h := Past(k, 1, 3, true).(overtaken := true), current := k.second, net := map[])
  }

  /** The activation arrives after both logins, and then the report is sent. */
  lemma ReportsOvertaken(k: Keys, w0: World, id: nat) returns (w: World, n: nat)
    requires k.first != "" && k.second != "" && Reaches(Start(k), w0)
    requires Shows(w0, Late(k, Stage(k, TaskService.VerifyOld, TaskService.Verifying, true, 2), id, 3,
                            Checking(k, Rotation.Succeeding, Rotation.VerificationFailed)))
    ensures Reaches(Start(k), w) && Shows(w, Sending(Overtaken(k), n))
  {
    var s := Late(k, Stage(k, TaskService.VerifyOld, TaskService.Verifying, true, 2), id, 3,
                  Checking(k, Rotation.Succeeding, Rotation.VerificationFailed));
    w := Overtakes(Start(k), w0, s, id, k.second);
    assert s.net - {id} == map[];
    w, n := Sends(Start(k), w, Overtaken(k));
  }

  /** The API accepts report `n`, and then does not hold the key. */
  ghost predicate ReportsFalsely(k: Keys, w: World, n: nat) {
    && n in w.net && w.net[n] == FinishMessage(1, 2, true)
    && Apply(w, Deliver(n, CHANCE)).Some? && Lost(k, Apply(w, Deliver(n, CHANCE)).value)
  }

  /** What the report meets. */
  ghost predicate Meets(k: Keys, w: World) {
    && w.tasks == map[1 := Stage(k, TaskService.VerifyOld, TaskService.Verifying, true, 2)] && 1 in w.history
    && w.current == map[1 := k.second] && w.credentials == map[1 := k.first]
    && 1 in w.journal && w.journal[1].candidate == Str(k.second)
  }

  lemma ReportMeets(k: Keys, w: World, n: nat)
    requires Shows(w, Sending(Overtaken(k), n))
    ensures Meets(k, w) && n in w.net && w.net[n] == FinishMessage(1, 2, true)
  {
  }

  lemma Restored(k: Keys, w: World)
    requires Meets(k, w) && !SameSecret(k.second, k.first)
    ensures Lost(k, System.Succeeded(w, 1, Stage(k, TaskService.VerifyOld, TaskService.Succeeded, false, 0)))
  {
    var t := Stage(k, TaskService.VerifyOld, TaskService.Succeeded, false, 0);
    var w' := System.Succeeded(w, 1, t);
    assert w'.credentials == map[1 := k.first];
    NobodyHolds(w', t, k.second, k.first);
  }

  lemma StaysLost(k: Keys, w: World, n: nat, r: Reply)
    requires Lost(k, w)
    ensures Lost(k, Respond(w, n, r))
  {
    var w' := Respond(w, n, r);
    forall id ensures !Stores(w', 1, id) {
      assert !Stores(w, 1, id);
    }
  }

  lemma FalseSuccess(k: Keys, w: World, n: nat)
    requires Meets(k, w) && n in w.net && w.net[n] == FinishMessage(1, 2, true) && !SameSecret(k.second, k.first)
    ensures ReportsFalsely(k, w, n)
  {
    TaskReturned(k);
    var t := Stage(k, TaskService.VerifyOld, TaskService.Succeeded, false, 0);
    FinishIs(w, n, 2, true, t);
    Restored(k, w);
    StaysLost(k, System.Succeeded(w, 1, t), n, Answered(Rotation.Ok));
  }

  lemma OvertakenRun(k: Keys) returns (w: World, n: nat)
    requires Plain(k)
    ensures Initial(Start(k)) && Reaches(Start(k), w) && ReportsFalsely(k, w, n)
  {
    PlainIsUsable(k);
    var id;
    w, id := Rotates(k);
    w := Rechecks(k, w, id);
    w, n := ReportsOvertaken(k, w, id);
    ReportMeets(k, w, n);
    FalseSuccess(k, w, n);
  }

  /** A run in which a success that the API is about to accept is false: a rotation whose
      activation gets no reply, a return to the old secret whose logins go as they should,
      and the activation's arrival between them and the report. */
  lemma SuccessCanBeFalse(k: Keys) returns (ws: seq<World>, n: nat)
    requires Plain(k)
    ensures IsRun(ws) && ReportsFalsely(k, ws[|ws| - 1], n)
  {
    var w;
    w, n := OvertakenRun(k);
    ws :| IsPath(ws, Start(k), w);
  }

  /** There are such secrets. */
  lemma PlainKeys() returns (k: Keys)
    ensures Plain(k)
  {
    k := Keys(seq(16, _ => 'A'), seq(16, _ => 'B'));
    assert k.first[0] != k.second[0];
    PlainKey(k.first);
    PlainKey(k.second);
  }

  lemma PlainKey(s: string)
    requires |s| == 16 && Secrets.Base32(s)
    ensures Secrets.Canonical(s) == s && Secrets.ServiceNormalize(s) == Some(s) && Secrets.WorkerAccepts(s)
  {
    Secrets.CanonicalOfBase32(s);
    Secrets.DecodedBounds(16);
  }
}
