/** Each step of the API in `System` keeps the invariant. */
module SystemSteps {
  import opened Values
  import Secrets
  import RecoveryJournal
  import TaskService
  import Rotation
  import opened System
  import opened SystemInvariant

  // ----- frames

  /** Nothing the tasks' part of the invariant depends on has changed. */
  lemma SameTasks(w: World, w': World)
    requires Shape(w) && TasksOk(w) && Shape(w') && w'.tasks == w.tasks && w'.history == w.history && w'.journal == w.journal
    requires w'.credentials == w.credentials && w'.last == w.last && w'.keeper == w.keeper && w.nextToken <= w'.nextToken
    ensures TasksOk(w')
  {
    forall id ensures TaskAt(w', id) {
      assert TaskAt(w, id);
    }
  }

  /** An account's agreement, knowledge and credential, when its own part has not changed
      and its tasks still say the same. */
  lemma AccountKept(w: World, w': World, a: int)
    requires Shape(w) && Shape(w') && AccountAt(w, a) && a in w.current && a in w'.current
    requires w'.current[a] == w.current[a] && w'.credentials[a] == w.credentials[a] && w'.origin == w.origin
    requires (a in w.late ==> a in w'.late) && SavesKept(w.journal, w'.journal)
    requires forall id :: id in w.tasks ==> id in w'.tasks && w'.tasks[id].account == w.tasks[id].account
    requires forall id :: Stores(w, a, id) ==> Stores(w', a, id)
    requires KeptAt(w', a)
    ensures AccountAt(w', a)
  {
    if w.current[a] != w.origin[a] {
      var id :| Journalled(w, a, id);
      assert Journalled(w', a, id);
    }
  }

  /** Nothing the accounts' part of the invariant depends on has changed. */
  lemma SameAccounts(w: World, w': World)
    requires Shape(w) && AccountsOk(w) && Shape(w') && w'.tasks == w.tasks && w'.journal == w.journal
    requires w'.current == w.current && w'.credentials == w.credentials && w'.origin == w.origin && w'.late == w.late
    requires w'.last == w.last && w'.keeper == w.keeper
    ensures AccountsOk(w')
  {
    forall a ensures AccountAt(w', a) {
      assert AccountAt(w, a);
      if a in w.current {
        AccountKept(w, w', a);
      }
    }
  }

  lemma SameGrows(w: World, w': World)
    requires w'.tasks == w.tasks && w'.history == w.history && w'.journal == w.journal && w.nextToken <= w'.nextToken
    requires w'.current == w.current && w'.late == w.late
    ensures Grows(w, w') && Quiet(w, w')
  {
    forall id ensures GrowsAt(w, w', id) && QuietAt(w, w', id) {
    }
  }

  // ----- a task replaced

  /** A task and its history may be replaced by `t'` and `h'`. */
  ghost predicate Fits(w: World, id: int, t': Task, h': History)
    requires Shape(w)
  {
    id in w.tasks &&
    var t, h := w.tasks[id], w.history[id];
    && TaskOk(id, t', h', w.journal) && t'.token < w.nextToken
    && TaskGrows(t, t', w.nextToken) && HistoryGrows(h, h')
    && h'.enrolled == h.enrolled && h'.activated == h.activated && h'.rotations == h.rotations && h'.overtaken == h.overtaken
    && (Open(t') ==> Open(t)) && (t'.state == TaskService.Succeeded ==> t' == t)
    && (Open(t) && t.hasCandidate ==> Open(t') && t'.hasCandidate && t'.candidate == t.candidate)
  }

  ghost function Replaced(w: World, id: int, t': Task, h': History): World {
    w.(tasks := w.tasks[id := t'], history := w.history[id := h'])
  }

  lemma ReplacedTasks(w: World, id: int, t': Task, h': History)
    requires Shape(w) && TasksOk(w) && Fits(w, id, t', h')
    ensures Shape(Replaced(w, id, t', h')) && TasksOk(Replaced(w, id, t', h'))
  {
    var w' := Replaced(w, id, t', h');
    forall b ensures TaskAt(w', b) {
      assert TaskAt(w, b);
      if b == id {
        ReplacedTask(w, id, t', h');
      }
    }
  }

  lemma ReplacedTask(w: World, id: int, t': Task, h': History)
    requires Shape(w) && TaskAt(w, id) && Fits(w, id, t', h') && Shape(Replaced(w, id, t', h'))
    ensures TaskAt(Replaced(w, id, t', h'), id)
  {
  }

  lemma ReplacedGrows(w: World, id: int, t': Task, h': History)
    requires Shape(w) && Fits(w, id, t', h')
    ensures Grows(w, Replaced(w, id, t', h')) && Quiet(w, Replaced(w, id, t', h'))
  {
    var w' := Replaced(w, id, t', h');
    forall b ensures GrowsAt(w, w', b) && QuietAt(w, w', b) {
    }
  }

  lemma ReplacedKept(w: World, id: int, t': Task, h': History, a: int)
    requires Shape(w) && Fits(w, id, t', h') && a in w.credentials && KeptAt(w, a)
    ensures KeptAt(Replaced(w, id, t', h'), a)
  {
  }

  lemma ReplacedAccounts(w: World, id: int, t': Task, h': History)
    requires Shape(w) && AccountsOk(w) && Fits(w, id, t', h') && Shape(Replaced(w, id, t', h'))
    ensures AccountsOk(Replaced(w, id, t', h'))
  {
    var w' := Replaced(w, id, t', h');
    forall a ensures AccountAt(w', a) {
      assert AccountAt(w, a);
      if a in w.current {
        ReplacedKept(w, id, t', h', a);
        forall b | Stores(w, a, b) ensures Stores(w', a, b) {
        }
        AccountKept(w, w', a);
      }
    }
  }

  lemma TaskReplaced(w: World, id: int, t': Task, h': History)
    requires Ok(w) && Fits(w, id, t', h')
    ensures Ok(Replaced(w, id, t', h'))
  {
    var w' := Replaced(w, id, t', h');
    ReplacedTasks(w, id, t', h');
    ReplacedGrows(w, id, t', h');
    ReplacedAccounts(w, id, t', h');
    NetStable(w, w');
    WorkerStable(w, w');
  }

  /** The same for a task whose history stays. */
  lemma TaskMoved(w: World, id: int, t': Task)
    requires Ok(w) && id in w.tasks && Moves(id, w.tasks[id], t', w.history[id], w.journal, w.nextToken)
    ensures Ok(WithTask(w, id, t'))
  {
    assert Fits(w, id, t', w.history[id]);
    TaskReplaced(w, id, t', w.history[id]);
    NoUpdate(w.history, id);
  }

  lemma NoUpdate<K, V>(m: map<K, V>, k: K)
    requires k in m
    ensures m[k := m[k]] == m
  {
  }

  /** What a transaction that leaves the history alone does to one task. */
  ghost predicate Moves(id: int, t: Task, t': Task, h: History, j: Store, bound: nat) {
    && TaskOk(id, t', h, j) && t'.token < bound && TaskGrows(t, t', bound)
    && (Open(t') ==> Open(t)) && (t'.state == TaskService.Succeeded ==> t' == t)
    && (Open(t) && t.hasCandidate ==> Open(t') && t'.hasCandidate && t'.candidate == t.candidate)
  }

  // ----- steps of the API

  lemma ReconcileMoves(id: int, t: Task, h: History, j: Store, bound: nat, action: TaskService.Action)
    requires TaskOk(id, t, h, j) && t.token < bound && TaskService.Reconcile(t, action).Some?
    ensures Moves(id, t, TaskService.Reconcile(t, action).value, h, j, bound)
  {
  }

  lemma ExpireMoves(id: int, t: Task, h: History, j: Store, bound: nat, now: real)
    requires TaskOk(id, t, h, j) && t.token < bound
    ensures Moves(id, t, TaskService.Expire(t, now), h, j, bound)
  {
  }

  lemma FailQueuedMoves(id: int, t: Task, h: History, j: Store, bound: nat)
    requires TaskOk(id, t, h, j) && t.token < bound && TaskService.FailQueued(t).Some?
    ensures Moves(id, t, TaskService.FailQueued(t).value, h, j, bound)
  {
  }

  lemma ReconcileKeeps(w: World, id: int, action: TaskService.Action)
    requires Ok(w) && id in w.tasks && TaskService.Reconcile(w.tasks[id], action).Some?
    ensures Ok(WithTask(w, id, TaskService.Reconcile(w.tasks[id], action).value))
  {
    assert TaskAt(w, id);
    ReconcileMoves(id, w.tasks[id], w.history[id], w.journal, w.nextToken, action);
    TaskMoved(w, id, TaskService.Reconcile(w.tasks[id], action).value);
  }

  lemma ExpireKeeps(w: World, id: int, now: real)
    requires Ok(w) && id in w.tasks
    ensures Ok(WithTask(w, id, TaskService.Expire(w.tasks[id], now)))
  {
    assert TaskAt(w, id);
    ExpireMoves(id, w.tasks[id], w.history[id], w.journal, w.nextToken, now);
    TaskMoved(w, id, TaskService.Expire(w.tasks[id], now));
  }

  lemma FailQueuedKeeps(w: World, id: int)
    requires Ok(w) && id in w.tasks && TaskService.FailQueued(w.tasks[id]).Some?
    ensures Ok(WithTask(w, id, TaskService.FailQueued(w.tasks[id]).value))
  {
    assert TaskAt(w, id);
    FailQueuedMoves(id, w.tasks[id], w.history[id], w.journal, w.nextToken);
    TaskMoved(w, id, TaskService.FailQueued(w.tasks[id]).value);
  }

  lemma RenewKeeps(w: World, id: int, now: real)
    requires Ok(w) && id in w.tasks
    requires TaskService.Heartbeat(w.tasks[id], w.tasks[id].token, w.tasks[id].worker, now).Some?
    ensures Ok(WithTask(w, id, TaskService.Heartbeat(w.tasks[id], w.tasks[id].token, w.tasks[id].worker, now).value))
  {
    assert TaskAt(w, id);
    TaskMoved(w, id, TaskService.Heartbeat(w.tasks[id], w.tasks[id].token, w.tasks[id].worker, now).value);
  }

  lemma QueueKeeps(w: World, id: int, account: int)
    requires Ok(w) && QueueStep(w, id, account).Some?
    ensures Ok(QueueStep(w, id, account).value)
  {
    var w' := QueueStep(w, id, account).value;
    QueuedTasks(w, id, account);
    QueuedGrows(w, id, account);
    QueuedAccounts(w, id, account);
    NetStable(w, w');
    WorkerStable(w, w');
  }

  lemma QueuedGrows(w: World, id: int, account: int)
    requires Shape(w) && QueueStep(w, id, account).Some?
    ensures Grows(w, QueueStep(w, id, account).value) && Quiet(w, QueueStep(w, id, account).value)
  {
    var w' := QueueStep(w, id, account).value;
    forall b ensures GrowsAt(w, w', b) && QuietAt(w, w', b) {
    }
  }

  lemma QueuedTasks(w: World, id: int, account: int)
    requires Shape(w) && TasksOk(w) && QueueStep(w, id, account).Some?
    ensures Shape(QueueStep(w, id, account).value) && TasksOk(QueueStep(w, id, account).value)
  {
    var w' := QueueStep(w, id, account).value;
    forall b ensures TaskAt(w', b) {
      assert TaskAt(w, b);
      if b in w.tasks && Open(w.tasks[b]) {
        assert w.tasks[b].account != account;
      }
    }
  }

  lemma QueuedAccounts(w: World, id: int, account: int)
    requires Shape(w) && AccountsOk(w) && QueueStep(w, id, account).Some? && Shape(QueueStep(w, id, account).value)
    ensures AccountsOk(QueueStep(w, id, account).value)
  {
    var w' := QueueStep(w, id, account).value;
    forall a ensures AccountAt(w', a) {
      assert AccountAt(w, a);
      if a in w.current {
        assert KeptAt(w', a);
        forall b | Stores(w, a, b) ensures Stores(w', a, b) {
        }
        AccountKept(w, w', a);
      }
    }
  }
}
