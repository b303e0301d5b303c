/** The durable recovery journal: what one call of the journal program does to the
    stored records, and the worker's `Journal` that drives it. A stored file is
    replaced atomically; a call that fails may already have taken effect. */
module RecoveryJournal {
  import opened Values

  const MAX_SAFE_INTEGER: int := 0x1F_FFFF_FFFF_FFFF

  datatype Record = Record(taskId: int, account: Json, email: Json, password: Json, previous: Json,
                           candidate: Json, session: Json, acknowledged: bool)

  type Store = map<int, Record>

  predicate ValidId(id: int) {
    0 < id <= MAX_SAFE_INTEGER
  }

  /** `stored && stored !== written` is false. */
  predicate MayReplace(stored: Json, written: Json) {
    JsTruthy(stored) ==> JsStrictEqual(stored, written)
  }

  predicate MayOverwrite(stored: Record, r: Record) {
    MayReplace(stored.candidate, r.candidate) && MayReplace(stored.account, r.account)
    && MayReplace(stored.email, r.email) && MayReplace(stored.password, r.password)
    && MayReplace(stored.previous, r.previous) && MayReplace(stored.session, r.session)
  }

  /** The `write` action; none when it is refused. */
  function Write(store: Store, r: Record): Option<Store> {
    if !ValidId(r.taskId) then None
    else if r.taskId in store && !MayOverwrite(store[r.taskId], r) then None
    else
      var kept := r.taskId in store && store[r.taskId].acknowledged;
      Some(store[r.taskId := r.(acknowledged := r.acknowledged || kept)])
  }

  /** The `acknowledge` action. */
  function Acknowledge(store: Store, id: int): Option<Store> {
    if !ValidId(id) || id !in store then None else Write(store, store[id].(acknowledged := true))
  }

  /** The `pending` action, in no particular order. */
  function Pending(store: Store): set<int> {
    set id | id in store && JsTruthy(store[id].candidate) && !store[id].acknowledged
  }

  /** A record the worker replays: its candidate is a non-empty string. */
  predicate Replayable(r: Record) {
    r.candidate.Str? && r.candidate.s != ""
  }

  // ----- what every call keeps

  predicate WellKeyed(store: Store) {
    forall id :: id in store ==> store[id].taskId == id && ValidId(id)
  }

  predicate Kept(before: Json, after: Json) {
    JsTruthy(before) ==> after == before
  }

  predicate RecordKept(before: Record, after: Record) {
    Kept(before.candidate, after.candidate) && Kept(before.account, after.account)
    && Kept(before.email, after.email) && Kept(before.password, after.password)
    && Kept(before.previous, after.previous) && Kept(before.session, after.session)
    && (before.acknowledged ==> after.acknowledged)
  }

  /** `later` still holds everything `earlier` held. */
  predicate Extends(earlier: Store, later: Store) {
    forall id :: id in earlier ==> id in later && RecordKept(earlier[id], later[id])
  }

  /** One request to the journal program. */
  datatype Request = WriteRecord(record: Record) | Confirm(id: int)

  function Answer(store: Store, q: Request): Option<Store> {
    match q
    case WriteRecord(r) => Write(store, r)
    case Confirm(id) => Acknowledge(store, id)
  }

  /** The store after `requests`; those marked false failed without taking effect, as
      do refused ones. */
  function Replay(store: Store, requests: seq<(Request, bool)>): Store {
    if requests == [] then store
    else
      var before := Replay(store, requests[..|requests| - 1]);
      var (q, reached) := requests[|requests| - 1];
      if reached && Answer(before, q).Some? then Answer(before, q).value else before
  }

  lemma AnswerExtends(store: Store, q: Request)
    requires WellKeyed(store) && Answer(store, q).Some?
    ensures Extends(store, Answer(store, q).value) && WellKeyed(Answer(store, q).value)
  {
  }

  lemma ExtendsTransitive(a: Store, b: Store, c: Store)
    requires Extends(a, b) && Extends(b, c)
    ensures Extends(a, c)
  {
    forall id | id in a ensures id in c && RecordKept(a[id], c[id]) {
      assert RecordKept(a[id], b[id]) && RecordKept(b[id], c[id]);
    }
  }

  /** No sequence of requests, whatever their content and whichever of them fail,
      loses a recorded candidate, its session or its old secret. */
  lemma {:induction false} NothingRecordedIsLost(store: Store, requests: seq<(Request, bool)>)
    requires WellKeyed(store)
    ensures Extends(store, Replay(store, requests)) && WellKeyed(Replay(store, requests))
  {
    if requests != [] {
      var front := requests[..|requests| - 1];
      NothingRecordedIsLost(store, front);
      var before := Replay(store, front);
      var (q, reached) := requests[|requests| - 1];
      if reached && Answer(before, q).Some? {
        AnswerExtends(before, q);
        ExtendsTransitive(store, before, Answer(before, q).value);
      }
    }
  }

  /** What is recorded stands in the way of a write: something true, and either different or
      an array or object, which never equals another one. */
  ghost predicate Blocks(recorded: Json, written: Json) {
    JsTruthy(recorded) && (recorded != written || recorded.Arr? || recorded.Obj?)
  }

  /** A write is refused if and only if the task number is not a positive safe integer, or a
      recorded field blocks it; otherwise the record is stored as written, except that a
      mark stays. */
  lemma WriteExactly(store: Store, r: Record)
    ensures Write(store, r).None? <==>
            || !(1 <= r.taskId <= 9007199254740991)
            || (r.taskId in store &&
                var s := store[r.taskId];
                || Blocks(s.candidate, r.candidate) || Blocks(s.account, r.account) || Blocks(s.email, r.email)
                || Blocks(s.password, r.password) || Blocks(s.previous, r.previous) || Blocks(s.session, r.session))
    ensures Write(store, r).Some? ==>
              Write(store, r).value
              == store[r.taskId := if r.taskId in store && store[r.taskId].acknowledged then r.(acknowledged := true) else r]
  {
  }

  /** The two saves of a rotation, the first of them without a candidate. Both are carried
      out, the record is pending from the second on, no other candidate can replace it, and
      its acknowledgement takes it off the list. */
  lemma SavesOfARotation(store: Store, blank: Record, candidate: string, session: Json, other: Json)
    requires WellKeyed(store) && blank.taskId !in store && 1 <= blank.taskId <= 9007199254740991
    requires blank.candidate == Str("") && blank.session == Str("") && !blank.acknowledged
    requires blank.account.Number? && blank.email.Str? && blank.password.Str? && blank.previous.Str?
    requires candidate != "" && !session.Arr? && !session.Obj? && other != Str(candidate)
    ensures Write(store, blank).Some?
    ensures var first := Write(store, blank).value;
            var full := blank.(candidate := Str(candidate), session := session);
            && blank.taskId !in Pending(first) && Write(first, full).Some?
            && var second := Write(first, full).value;
               && blank.taskId in Pending(second) && Write(second, full.(candidate := other)).None?
               && Acknowledge(second, blank.taskId).Some?
               && Pending(Acknowledge(second, blank.taskId).value) == Pending(store)
  {
  }

  /** Acknowledging changes nothing but the mark, and is refused exactly when the task
      is unknown or a recorded field is an array or an object. */
  lemma AcknowledgeMarks(store: Store, id: int)
    requires WellKeyed(store)
    ensures Acknowledge(store, id).None? <==> id !in store || Compound(store[id])
    ensures Acknowledge(store, id).Some? ==> Acknowledge(store, id).value == store[id := store[id].(acknowledged := true)]
    ensures Acknowledge(store, id).Some? ==> Pending(Acknowledge(store, id).value) == Pending(store) - {id}
  {
  }

  /** Some recorded field is an array or an object. */
  predicate Compound(r: Record) {
    exists f :: f in [r.candidate, r.account, r.email, r.password, r.previous, r.session] && (f.Arr? || f.Obj?)
  }
}

/** The worker's side of the journal and its recovery pass. */
module JournalClient {
  import opened Values
  import opened RecoveryJournal

  /** The recovery endpoint: what it was asked and what it accepted, in order. A post
      that raises may have been accepted all the same. */
  class RecoveryApi {
    var posted: seq<(int, string)>
    var accepted: set<(int, string)>

    constructor ()
      ensures posted == [] && accepted == {}
    {
      posted, accepted := [], {};
    }

    method Post(id: int, secret: string) returns (ok: bool)
      modifies this
      ensures posted == old(posted) + [(id, secret)]
      ensures old(accepted) <= accepted <= old(accepted) + {(id, secret)}
      ensures ok ==> (id, secret) in accepted
    {
      posted := posted + [(id, secret)];
      ok := *;
      var took: bool := *;
      if ok || took {
        accepted := accepted + {(id, secret)};
      }
    }
  }

  method InSomeOrder(all: set<int>) returns (ids: seq<int>)
    ensures forall id :: id in ids <==> id in all
    ensures forall i, j :: 0 <= i < j < |ids| ==> ids[i] != ids[j]
  {
    ids := [];
    var left := all;
    while left != {}
      invariant forall id :: id in ids || id in left <==> id in all
      invariant forall id :: id in ids ==> id !in left
      invariant forall i, j :: 0 <= i < j < |ids| ==> ids[i] != ids[j]
      decreases left
    {
      ghost var some := SomeElement(left);
      var id :| id in left;
      ids, left := ids + [id], left - {id};
    }
  }

  class Journal {
    var records: Store

    constructor ()
      ensures records == map[]
    {
      records := map[];
    }

    /** One run of the journal program: refused, failed, or carried out. */
    method Call(q: Request) returns (ok: bool)
      modifies this
      ensures records == old(records) || Answer(old(records), q) == Some(records)
      ensures ok ==> Answer(old(records), q) == Some(records)
    {
      var reached: bool := *;
      ok := false;
      if reached && Answer(records, q).Some? {
        records := Answer(records, q).value;
        ok := *;
      }
    }

    method Save(task: int, account: Json, email: string, password: string, secret: string,
                candidate: Json, session: Json)
      returns (ok: bool)
      modifies this
      ensures var r := Record(task, account, Str(email), Str(password), Str(secret), candidate, session, false);
              (records == old(records) || Write(old(records), r) == Some(records))
              && (ok ==> Write(old(records), r) == Some(records))
    {
      ok := Call(WriteRecord(Record(task, account, Str(email), Str(password), Str(secret), candidate, session, false)));
    }

    method Confirm(id: int) returns (ok: bool)
      modifies this
      ensures records == old(records) || Acknowledge(old(records), id) == Some(records)
      ensures ok ==> Acknowledge(old(records), id) == Some(records)
    {
      ok := Call(RecoveryJournal.Confirm(id));
    }

    /** The identifiers of the pending records, in directory order. */
    method ListPending() returns (ok: bool, ids: seq<int>)
      ensures ok ==> forall id :: id in ids <==> id in Pending(records)
      ensures forall i, j :: 0 <= i < j < |ids| ==> ids[i] != ids[j]
    {
      ids := InSomeOrder(Pending(records));
      ok := *;
    }

    /** One replay: post the candidate, and acknowledge the record if the post returned. */
    method PostAndConfirm(api: RecoveryApi, id: int)
      requires WellKeyed(records) && id in records && Replayable(records[id])
      modifies this, api
      ensures var post := (id, old(records)[id].candidate.s);
              && api.posted == old(api.posted) + [post]
              && old(api.accepted) <= api.accepted
              && (records == old(records)
                  || (post in api.accepted && records == old(records)[id := old(records)[id].(acknowledged := true)]))
    {
      var ok := api.Post(id, records[id].candidate.s);
      if ok {
        AcknowledgeMarks(records, id);
        ok := Confirm(id);
      }
    }

    /** The recovery pass. A failed post or acknowledgement keeps the record for the
        next pass; a failed read ends this one. `posts` is what the pass posted. */
    method Recover(api: RecoveryApi) returns (completed: bool, ghost posts: seq<(int, string)>)
      requires WellKeyed(records)
      modifies this, api
      ensures api.posted == old(api.posted) + posts && old(api.accepted) <= api.accepted
      ensures WellKeyed(records) && OnlyMarked(old(records), records, posts, api.accepted)
      ensures PostedOnce(posts) && forall p :: p in posts ==> p.0 in Pending(old(records))
      ensures PostedFrom(old(records), posts)
      ensures completed ==> forall id :: id in Pending(old(records)) ==> PostedFor(old(records), id, posts)
    {
      posts := [];
      var listed, ids := ListPending();
      if !listed {
        return false, posts;
      }
      var i := 0;
      while i < |ids|
        invariant 0 <= i <= |ids|
        invariant api.posted == old(api.posted) + posts && old(api.accepted) <= api.accepted
        invariant WellKeyed(records) && OnlyMarked(old(records), records, posts, api.accepted)
        invariant PostedOnce(posts) && forall p :: p in posts ==> p.0 in ids[..i]
        invariant PostedFrom(old(records), posts)
        invariant forall k :: 0 <= k < i ==> PostedFor(old(records), ids[k], posts)
      {
        var readable: bool := *;
        if !readable {
          return false, posts;
        }
        var id := ids[i];
        assert id in ids;
        assert ids[..i + 1] == ids[..i] + [id];
        assert id !in ids[..i];
        if Replayable(records[id]) {
          ghost var post := (id, records[id].candidate.s);
          OnePostMore(old(records), records, posts, api.accepted, post);
          PostAndConfirm(api, id);
          posts := posts + [post];
        }
        i := i + 1;
      }
      completed := true;
    }
  }

  /** What left the pending records, or any other change: only marks, and only where the
      candidate was posted and accepted. */
  ghost predicate OnlyMarked(before: Store, now: Store, posts: seq<(int, string)>, accepted: set<(int, string)>) {
    && now.Keys == before.Keys
    && forall id :: id in now && now[id] != before[id] ==> MarkedFor(before[id], now[id], id, posts, accepted)
  }

  ghost predicate MarkedFor(was: Record, r: Record, id: int, posts: seq<(int, string)>, accepted: set<(int, string)>) {
    && r == was.(acknowledged := true) && Replayable(was)
    && (id, was.candidate.s) in posts && (id, was.candidate.s) in accepted
  }

  ghost predicate PostedOnce(posts: seq<(int, string)>) {
    forall j, k :: 0 <= j < k < |posts| ==> posts[j].0 != posts[k].0
  }

  /** Every post carries the recorded candidate. */
  ghost predicate PostedFrom(before: Store, posts: seq<(int, string)>) {
    forall p :: p in posts ==> p.0 in before && Replayable(before[p.0]) && before[p.0].candidate == Str(p.1)
  }

  ghost predicate PostedFor(before: Store, id: int, posts: seq<(int, string)>) {
    id in before && Replayable(before[id]) ==> (id, before[id].candidate.s) in posts
  }

  lemma OnePostMore(before: Store, now: Store, posts: seq<(int, string)>, accepted: set<(int, string)>, post: (int, string))
    requires OnlyMarked(before, now, posts, accepted) && PostedOnce(posts) && PostedFrom(before, posts)
    requires post.0 in now && Replayable(now[post.0]) && post.1 == now[post.0].candidate.s
    requires forall p :: p in posts ==> p.0 != post.0
    ensures forall more: set<(int, string)> :: accepted <= more ==>
              && OnlyMarked(before, now, posts + [post], more)
              && (post in more ==> OnlyMarked(before, now[post.0 := now[post.0].(acknowledged := true)], posts + [post], more))
    ensures PostedOnce(posts + [post]) && PostedFrom(before, posts + [post])
    ensures forall id :: PostedFor(before, id, posts) || id == post.0 ==> PostedFor(before, id, posts + [post])
  {
    assert forall c: string :: (post.0, c) !in posts by {
      forall c: string ensures (post.0, c) !in posts {
        assert (post.0, c).0 == post.0;
      }
    }
    assert now[post.0] == before[post.0] || MarkedFor(before[post.0], now[post.0], post.0, posts, accepted);
    forall more: set<(int, string)> | accepted <= more
      ensures OnlyMarked(before, now, posts + [post], more)
      ensures post in more ==> OnlyMarked(before, now[post.0 := now[post.0].(acknowledged := true)], posts + [post], more)
    {
      forall id | id in now && now[id] != before[id] ensures MarkedFor(before[id], now[id], id, posts + [post], more) {
        assert MarkedFor(before[id], now[id], id, posts, accepted);
      }
    }
  }
}
