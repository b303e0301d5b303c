/** Bulk creation of accounts: a chain of mutators, one for each builder, that validates
    every builder before one batch insert is sent. */
module AccountCreate {
  import opened Values

  datatype Field =
    | CreatedAt | UpdatedAt | Name | Platform | Kind | Credentials | Extra | Concurrency
    | Priority | RateMultiplier | Status | AutoPauseOnExpired | Schedulable | IqCheck
    | SessionWindowStatus | QuotaDimension

  type Value = string
  type Fields = map<Field, Value>

  /** What the schema supplies. A generator is a function that is missing until the
      runtime package has been imported; the other defaults are constants. */
  datatype Schema = Schema(generated: Field -> Option<Value>, constant: Field -> Value, valid: (Field, Value) -> bool)

  const DefaultOrder: seq<Field> :=
    [CreatedAt, UpdatedAt, Credentials, Extra, Concurrency, Priority, RateMultiplier, Status,
     AutoPauseOnExpired, Schedulable, IqCheck, QuotaDimension]

  const CheckOrder: seq<Field> :=
    [CreatedAt, UpdatedAt, Name, Platform, Kind, Credentials, Extra, Concurrency, Priority,
     RateMultiplier, Status, AutoPauseOnExpired, Schedulable, IqCheck, SessionWindowStatus, QuotaDimension]

  predicate IsGenerated(f: Field) {
    f in {CreatedAt, UpdatedAt, Credentials, Extra, IqCheck}
  }

  predicate IsValidated(f: Field) {
    f in {Name, Platform, Kind, Status, SessionWindowStatus, QuotaDimension}
  }

  function DefaultOf(schema: Schema, f: Field): Option<Value> {
    if IsGenerated(f) then schema.generated(f) else Some(schema.constant(f))
  }

  /** The schema's default of a field: what its generator yields, for the fields that have
      one, and its constant for the others. */
  ghost predicate IsDefault(schema: Schema, f: Field, v: Value) {
    if f == CreatedAt || f == UpdatedAt || f == Credentials || f == Extra || f == IqCheck then schema.generated(f) == Some(v)
    else schema.constant(f) == v
  }

  /** `defaults()`, from the fields `order` on. It stops at a missing generator and
      answers which one it was. */
  function Defaults(schema: Schema, order: seq<Field>, fields: Fields): (r: (Fields, Option<Field>))
    ensures forall f :: f in fields ==> f in r.0 && r.0[f] == fields[f]
    ensures forall f :: f in r.0 && f !in fields ==> f in order && IsDefault(schema, f, r.0[f])
    ensures r.1.Some? ==> r.1.value in order && r.1.value !in r.0
    ensures r.1.None? ==> forall f :: f in order ==> f in r.0
  {
    if order == [] then (fields, None)
    else if order[0] in fields then Defaults(schema, order[1..], fields)
    else
      match DefaultOf(schema, order[0])
      case None => (fields, Some(order[0]))
      case Some(v) => Defaults(schema, order[1..], fields[order[0] := v])
  }

  predicate FieldFine(schema: Schema, f: Field, fields: Fields) {
    && (f != SessionWindowStatus ==> f in fields)
    && (IsValidated(f) && f in fields ==> schema.valid(f, fields[f]))
  }

  /** `check()`: the first field at fault, if there is one. */
  function Check(schema: Schema, order: seq<Field>, fields: Fields): (r: Option<Field>)
    ensures r.None? <==> forall f :: f in order ==> FieldFine(schema, f, fields)
    ensures r.Some? ==> r.value in order && !FieldFine(schema, r.value, fields)
  {
    if order == [] then None
    else if !FieldFine(schema, order[0], fields) then Some(order[0])
    else Check(schema, order[1..], fields)
  }

  /** A hook wraps the mutator after it. It may set a field, refuse or answer success
      before it passes the mutation on, or turn the answer of the rest of the chain into a
      refusal or into success. */
  datatype Hook = Pass | Set(field: Field, value: Value) | RejectBefore | RejectAfter | Skip | Swallow

  datatype Mutation = Mutation(fields: Fields, id: Option<int>, done: bool)
  function WithDefaults(schema: Schema, m: Mutation): Mutation {
    m.(fields := Defaults(schema, DefaultOrder, m.fields).0)
  }

  datatype Spec = Spec(fields: Fields, id: Option<int>)
  datatype Node = Node(fields: Fields, id: int)

  datatype Outcome =
    | Saved
    | Invalid(builder: nat, field: Field)
    | Rejected(builder: nat)
    | BatchFailed
    | Broken

  /** The fields once the hooks have passed the mutation on. */
  function AfterHooks(hooks: seq<Hook>, fields: Fields): Fields {
    if hooks == [] then fields
    else AfterHooks(hooks[1..], if hooks[0].Set? then fields[hooks[0].field := hooks[0].value] else fields)
  }

  /** Every hook calls the mutator after it. */
  predicate Enters(hooks: seq<Hook>) {
    RejectBefore !in hooks && Skip !in hooks
  }

  /** No hook changes the answer of the mutator after it. */
  predicate Neutral(hooks: seq<Hook>) {
    Enters(hooks) && RejectAfter !in hooks && Swallow !in hooks
  }

  /** The first hook that decides about the answer makes it a success. */
  predicate Lenient(hooks: seq<Hook>) {
    exists h :: 0 <= h < |hooks| && hooks[h] in {Skip, Swallow} && Neutral(hooks[..h])
  }

  predicate Ready(schema: Schema, hooks: seq<Hook>, fields: Fields) {
    Enters(hooks) && Check(schema, CheckOrder, AfterHooks(hooks, fields)).None?
  }

  /** The outermost deciding hook has the last word, so a hook before it that only passes
      on changes nothing, and one that decides makes the rest irrelevant. */
  lemma LenientNext(hook: Hook, rest: seq<Hook>)
    ensures Lenient([hook] + rest) <==> hook in {Skip, Swallow} || (Neutral([hook]) && Lenient(rest))
  {
    if hook in {Skip, Swallow} {
      assert ([hook] + rest)[0] == hook && Neutral(([hook] + rest)[..0]);
    } else {
      if Lenient([hook] + rest) {
        LenientTail(hook, rest);
      }
      if Neutral([hook]) && Lenient(rest) {
        var h :| 0 <= h < |rest| && rest[h] in {Skip, Swallow} && Neutral(rest[..h]);
        assert ([hook] + rest)[..h + 1] == [hook] + rest[..h] && ([hook] + rest)[h + 1] == rest[h];
      }
    }
  }

  lemma LenientTail(hook: Hook, rest: seq<Hook>)
    requires hook !in {Skip, Swallow} && Lenient([hook] + rest)
    ensures Neutral([hook]) && Lenient(rest)
  {
    var hooks := [hook] + rest;
    var h :| 0 <= h < |hooks| && hooks[h] in {Skip, Swallow} && Neutral(hooks[..h]);
    assert hooks[..h] == [hook] + rest[..h - 1] && rest[h - 1] == hooks[h];
    assert hook in hooks[..h];
  }

  /** The answer to a batch: whether it was accepted, and for each spec the identifier the
      database assigned, if it reported one before it answered. */
  datatype BatchAnswer = BatchAnswer(ok: bool, ids: seq<Option<int>>)

  class AccountCreateBulk {
    const schema: Schema
    const hooks: seq<seq<Hook>>
    const answer: BatchAnswer
    // An error met while the builders were collected.
    const broken: bool
    const mutations: array<Mutation>
    const specs: array<Option<Spec>>
    const nodes: array<Option<Node>>
    // The batches sent, each with the fields of its specs in order.
    var batches: seq<seq<Fields>>

    constructor (schema: Schema, fields: seq<Fields>, hooks: seq<seq<Hook>>, answer: BatchAnswer, broken: bool)
      requires |fields| == |hooks| == |answer.ids|
      ensures Valid() && fresh(Footprint())
      ensures this.schema == schema && this.hooks == hooks && this.answer == answer && this.broken == broken
      ensures batches == [] && forall i :: 0 <= i < |fields| ==> mutations[i] == Mutation(fields[i], None, false)
    {
      this.schema, this.hooks, this.answer, this.broken := schema, hooks, answer, broken;
      mutations := new Mutation[|fields|](i requires 0 <= i < |fields| => Mutation(fields[i], None, false));
      specs := new Option<Spec>[|fields|](i => None);
      nodes := new Option<Node>[|fields|](i => None);
      batches := [];
    }

    ghost function Footprint(): set<object> {
      {this, mutations, specs, nodes}
    }

    ghost predicate Valid() {
      |hooks| == mutations.Length == specs.Length == nodes.Length == |answer.ids|
    }

    // ----- what the chain should do, without following it

    ghost predicate Fine(goal: seq<Fields>, j: nat)
      requires j < |goal|
    {
      Check(schema, CheckOrder, goal[j]).None?
    }

    /** Builder `j` lets the mutation through to the next one. */
    ghost predicate Open(goal: seq<Fields>, j: nat)
      requires j < |goal| == |hooks|
    {
      Enters(hooks[j]) && Fine(goal, j)
    }

    /** Builder `j` lets the mutation through and the answer back. */
    ghost predicate Calm(goal: seq<Fields>, j: nat)
      requires j < |goal| == |hooks|
    {
      Neutral(hooks[j]) && Fine(goal, j)
    }

    ghost predicate Reached(goal: seq<Fields>, i: nat, j: nat)
      requires j < |goal| == |hooks|
    {
      forall k :: i <= k <= j ==> Open(goal, k)
    }

    ghost predicate ReadyFrom(goal: seq<Fields>, i: nat)
      requires |goal| == |hooks|
    {
      forall j :: i <= j < |goal| ==> Open(goal, j)
    }

    /** Success comes from the hooks of builder `j`, whatever happens behind them. */
    ghost predicate Granted(goal: seq<Fields>, i: nat, j: nat)
      requires j < |goal| == |hooks|
    {
      Lenient(hooks[j]) && forall k :: i <= k < j ==> Calm(goal, k)
    }

    ghost predicate GrantedFrom(goal: seq<Fields>, i: nat)
      requires |goal| == |hooks|
    {
      exists j :: i <= j < |goal| && Granted(goal, i, j)
    }

    ghost predicate CalmFrom(goal: seq<Fields>, i: nat)
      requires |goal| == |hooks|
    {
      forall j :: i <= j < |goal| ==> Calm(goal, j)
    }

    /** When the chain from builder `i` on answers success. */
    ghost predicate Succeeds(goal: seq<Fields>, i: nat)
      requires |goal| == |hooks|
    {
      (answer.ok && CalmFrom(goal, i)) || GrantedFrom(goal, i)
    }

    ghost predicate Unswallowed(i: nat) {
      forall j :: i <= j < |hooks| ==> Swallow !in hooks[j]
    }

    /** No hook from builder `i` on answers success of its own. */
    ghost predicate Ordinary(i: nat) {
      forall j :: i <= j < |hooks| ==> Skip !in hooks[j] && Swallow !in hooks[j]
    }

    ghost predicate Unrefused(i: nat) {
      forall j :: i <= j < |hooks| ==> RejectAfter !in hooks[j]
    }

    /** The check of builder `b` is the first obstacle, and its error comes through. */
    ghost predicate Misfit(goal: seq<Fields>, i: nat, b: nat)
      requires b < |goal| == |hooks|
    {
      && Enters(hooks[b]) && !Fine(goal, b) && Swallow !in hooks[b]
      && forall k :: i <= k < b ==> Open(goal, k) && Swallow !in hooks[k]
    }

    ghost predicate MisfitFrom(goal: seq<Fields>, i: nat)
      requires |goal| == |hooks|
    {
      exists b :: i <= b < |goal| && Misfit(goal, i, b)
    }

    /** The same, one builder at a time. */
    lemma ChainNext(goal: seq<Fields>, i: nat)
      requires i < |goal| == |hooks|
      ensures ReadyFrom(goal, i) <==> Open(goal, i) && ReadyFrom(goal, i + 1)
      ensures Succeeds(goal, i) <==> Lenient(hooks[i]) || (Calm(goal, i) && Succeeds(goal, i + 1))
      ensures MisfitFrom(goal, i) <==>
              Enters(hooks[i]) && Swallow !in hooks[i] && (!Fine(goal, i) || MisfitFrom(goal, i + 1))
    {
      GrantedNext(goal, i);
      MisfitNext(goal, i);
    }

    lemma GrantedNext(goal: seq<Fields>, i: nat)
      requires i < |goal| == |hooks|
      ensures GrantedFrom(goal, i) <==> Lenient(hooks[i]) || (Calm(goal, i) && GrantedFrom(goal, i + 1))
    {
      assert Granted(goal, i, i) <==> Lenient(hooks[i]);
      if GrantedFrom(goal, i) {
        var j :| i <= j < |goal| && Granted(goal, i, j);
        if j > i {
          assert Granted(goal, i + 1, j);
        }
      }
      if Calm(goal, i) && GrantedFrom(goal, i + 1) {
        var j :| i + 1 <= j < |goal| && Granted(goal, i + 1, j);
        assert Granted(goal, i, j);
      }
    }

    lemma MisfitNext(goal: seq<Fields>, i: nat)
      requires i < |goal| == |hooks|
      ensures MisfitFrom(goal, i) <==>
              Enters(hooks[i]) && Swallow !in hooks[i] && (!Fine(goal, i) || MisfitFrom(goal, i + 1))
    {
      if MisfitFrom(goal, i) {
        MisfitBelow(goal, i);
      }
      if Enters(hooks[i]) && Swallow !in hooks[i] && (!Fine(goal, i) || MisfitFrom(goal, i + 1)) {
        MisfitAbove(goal, i);
      }
    }

    lemma MisfitBelow(goal: seq<Fields>, i: nat)
      requires i < |goal| == |hooks| && MisfitFrom(goal, i)
      ensures Enters(hooks[i]) && Swallow !in hooks[i] && (!Fine(goal, i) || MisfitFrom(goal, i + 1))
    {
      var b :| i <= b < |goal| && Misfit(goal, i, b);
      if b > i {
        MisfitStep(goal, i, b);
      }
    }

    lemma MisfitAbove(goal: seq<Fields>, i: nat)
      requires i < |goal| == |hooks|
      requires Enters(hooks[i]) && Swallow !in hooks[i] && (!Fine(goal, i) || MisfitFrom(goal, i + 1))
      ensures MisfitFrom(goal, i)
    {
      if Fine(goal, i) {
        var b :| i + 1 <= b < |goal| && Misfit(goal, i + 1, b);
        MisfitStep(goal, i, b);
      } else {
        assert Misfit(goal, i, i);
      }
    }

    lemma MisfitStep(goal: seq<Fields>, i: nat, b: nat)
      requires i < b < |goal| == |hooks|
      ensures Misfit(goal, i, b) <==> Open(goal, i) && Swallow !in hooks[i] && Misfit(goal, i + 1, b)
    {
    }

    /** Exactly when success is reported although no batch was sent: some builder's hooks
        grant it, and there or further on a hook or a check keeps the mutation back. */
    lemma SuccessWithoutBatch(goal: seq<Fields>)
      requires |goal| == |hooks|
      ensures Succeeds(goal, 0) && !ReadyFrom(goal, 0) <==> exists j :: GrantedUnready(goal, j)
    {
      if Succeeds(goal, 0) && !ReadyFrom(goal, 0) {
        var k :| 0 <= k < |goal| && !Open(goal, k);
        assert !Calm(goal, k) && GrantedFrom(goal, 0);
        var j :| 0 <= j < |goal| && Granted(goal, 0, j);
        assert GrantedUnready(goal, j);
      }
      if exists j :: GrantedUnready(goal, j) {
        var j :| GrantedUnready(goal, j);
        assert Granted(goal, 0, j) && GrantedFrom(goal, 0);
      }
    }

    ghost predicate GrantedUnready(goal: seq<Fields>, j: nat)
      requires |goal| == |hooks|
    {
      j < |goal| && Granted(goal, 0, j) && !ReadyFrom(goal, j)
    }

    /** A hook that skips the rest: whatever the fields are, the insert succeeds and sends
        nothing. */
    lemma SkipSucceeds(goal: seq<Fields>)
      requires |goal| == |hooks| && hooks == [[Skip]]
      ensures Succeeds(goal, 0) && !ReadyFrom(goal, 0)
    {
      assert hooks[0][0] == Skip && Neutral(hooks[0][..0]);
      assert Lenient(hooks[0]);
      assert Granted(goal, 0, 0) && !Open(goal, 0);
    }

    /** A hook that swallows the error of a builder that is not fine: the same. */
    lemma SwallowSucceeds(goal: seq<Fields>)
      requires |goal| == |hooks| && hooks == [[Swallow]] && !Fine(goal, 0)
      ensures Succeeds(goal, 0) && !ReadyFrom(goal, 0)
    {
      assert hooks[0][0] == Swallow && Neutral(hooks[0][..0]);
      assert Lenient(hooks[0]);
      assert Granted(goal, 0, 0) && !Open(goal, 0);
    }

    /** Without such hooks the call succeeds exactly when the batch is sent and accepted
        and no hook refuses afterwards. */
    lemma OrdinaryHooks(goal: seq<Fields>, i: nat)
      requires i <= |goal| == |hooks| && Ordinary(i)
      ensures Succeeds(goal, i) <==> ReadyFrom(goal, i) && answer.ok && Unrefused(i)
    {
      forall j | i <= j < |goal| ensures !Granted(goal, i, j) {
        assert Skip !in hooks[j] && Swallow !in hooks[j];
      }
      forall j | i <= j < |goal| ensures Calm(goal, j) <==> Open(goal, j) && RejectAfter !in hooks[j] {
        assert Skip !in hooks[j] && Swallow !in hooks[j];
      }
    }

    // ----- the state around the chain

    /** The hooks of builder `i` from `h` on are still to run, and those of every later
        builder; `goal` is what each builder's fields will be after its hooks. */
    ghost predicate Heading(goal: seq<Fields>, i: nat, h: nat)
      requires Valid()
      reads mutations, nodes
    {
      && |goal| == |hooks|
      && (i < |goal| ==> h <= |hooks[i]| && AfterHooks(hooks[i][h..], mutations[i].fields) == goal[i])
      && (forall j :: i < j < |goal| ==> AfterHooks(hooks[j], mutations[j].fields) == goal[j])
      && (forall j :: i <= j < |goal| ==> !mutations[j].done && nodes[j].None?)
    }

    /** What the specs of the first `i` builders hold, once a batch has or has not been
        `sent`. */
    ghost predicate Filled(goal: seq<Fields>, i: nat, sent: bool)
      requires Valid() && i <= |goal| == |hooks|
      reads specs
    {
      forall j :: 0 <= j < i ==> specs[j] == Some(Spec(goal[j], if sent then answer.ids[j] else None))
    }

    ghost function IdOf(j: nat, sent: bool): int
      requires j < |answer.ids|
    {
      if sent && answer.ids[j].Some? then answer.ids[j].value else 0
    }

    /** Builder `j` once the chain has answered: a builder that was not reached has no
        node; one that was reached is done exactly if the chain behind it succeeded. */
    ghost predicate Settled(goal: seq<Fields>, j: nat, reached: bool, sent: bool)
      requires Valid() && j < |goal| == |hooks|
      reads nodes, mutations
    {
      if !reached then nodes[j].None? && !mutations[j].done
      else
        && (mutations[j].done <==> Succeeds(goal, j + 1))
        && nodes[j] == Some(Node(goal[j], if mutations[j].done then IdOf(j, sent) else 0))
        && (mutations[j].done ==> mutations[j].id == Some(nodes[j].value.id))
    }

    /** Every builder from `i` on, when the chain was `entered` that far. */
    ghost predicate AllSettled(goal: seq<Fields>, i: nat, entered: bool, sent: bool)
      requires Valid() && |goal| == |hooks|
      reads nodes, mutations
    {
      forall j :: i <= j < |goal| ==> SettledAt(goal, i, j, entered, sent)
    }

    ghost predicate SettledAt(goal: seq<Fields>, i: nat, j: nat, entered: bool, sent: bool)
      requires Valid() && j < |goal| == |hooks|
      reads nodes, mutations
    {
      Settled(goal, j, entered && Reached(goal, i, j), sent)
    }

    /** The specs of all builders after a batch, or those before builder `i` without. */
    ghost predicate SpecsAfter(goal: seq<Fields>, i: nat, sent: bool)
      requires Valid() && i <= |goal| == |hooks|
      reads specs
    {
      Filled(goal, if sent then |goal| else i, sent)
    }

    /** The chain has answered from builder `i` on, whose mutator was `open`. */
    ghost predicate Effect(goal: seq<Fields>, i: nat, open: bool)
      requires Valid() && i < |goal| == |hooks|
      reads specs, nodes, mutations
    {
      var sent := open && ReadyFrom(goal, i + 1);
      SpecsAfter(goal, i, sent) && Settled(goal, i, open, sent) && AllSettled(goal, i + 1, open, sent)
    }

    /** Where the chain stops, nothing changes. */
    lemma NothingDone(goal: seq<Fields>, i: nat, h: nat)
      requires Valid() && i < |hooks| && Heading(goal, i, h) && Filled(goal, i, false)
      ensures Effect(goal, i, false)
    {
    }

    /** At most one batch more, and one exactly if the whole chain was ready. */
    ghost function Sent(before: seq<seq<Fields>>, goal: seq<Fields>, ready: bool): seq<seq<Fields>> {
      if ready then before + [goal] else before
    }

    /** Which builder an error is about. */
    ghost predicate Blames(goal: seq<Fields>, i: nat, r: Outcome)
      requires |goal| == |hooks|
    {
      && (r.Invalid? ==> i <= r.builder < |goal| && Check(schema, CheckOrder, goal[r.builder]) == Some(r.field))
      && (r.Invalid? ==> forall k :: i <= k < r.builder ==> Fine(goal, k))
      && !r.Broken?
      && (r.Rejected? ==> i <= r.builder < |goal| && Refuses(hooks[r.builder]))
    }

    /** The answer of the chain from builder `i` on. */
    ghost predicate ChainAnswers(goal: seq<Fields>, i: nat, r: Outcome)
      requires |goal| == |hooks|
    {
      && (r.Saved? <==> Succeeds(goal, i))
      && (r.BatchFailed? <==> ReadyFrom(goal, i) && !answer.ok && Unswallowed(i))
      && (r.Invalid? <==> MisfitFrom(goal, i))
      && Blames(goal, i, r)
    }

    /** The answer of builder `i` when the hooks `left` are still before its mutator. */
    ghost predicate Answers(left: seq<Hook>, goal: seq<Fields>, i: nat, r: Outcome)
      requires i < |goal| == |hooks|
    {
      && (r.Saved? <==> Lenient(left) || (Neutral(left) && Fine(goal, i) && Succeeds(goal, i + 1)))
      && (r.BatchFailed? <==> Enters(left) && Fine(goal, i) && ReadyFrom(goal, i + 1) && !answer.ok
                              && Swallow !in left && Unswallowed(i + 1))
      && (r.Invalid? <==> Enters(left) && Swallow !in left && (!Fine(goal, i) || MisfitFrom(goal, i + 1)))
      && Blames(goal, i, r)
    }

    lemma FirstAnswers(goal: seq<Fields>, i: nat, r: Outcome)
      requires i < |goal| == |hooks| && Answers(hooks[i], goal, i, r)
      ensures ChainAnswers(goal, i, r)
    {
      ChainNext(goal, i);
    }

    lemma InnermostAnswers(goal: seq<Fields>, i: nat, r: Outcome)
      requires i < |goal| == |hooks|
      requires if Fine(goal, i) then ChainAnswers(goal, i + 1, r)
               else r == Invalid(i, Check(schema, CheckOrder, goal[i]).value)
      ensures Answers([], goal, i, r)
    {
    }

    lemma HookAnswers(hook: Hook, rest: seq<Hook>, goal: seq<Fields>, i: nat, r: Outcome)
      requires i < |goal| == |hooks| && hook in hooks[i]
      requires hook != RejectBefore && hook != Skip ==> Answers(rest, goal, i, r)
      ensures Answers([hook] + rest, goal, i, Passed(hook, i, r))
    {
      LenientNext(hook, rest);
    }

    /** What a hook makes of the answer `r` of the mutator after it. */
    function Passed(hook: Hook, i: nat, r: Outcome): Outcome {
      match hook
      case Pass => r
      case Set(_, _) => r
      case RejectBefore => Rejected(i)
      case RejectAfter => if r.Saved? then Rejected(i) else r
      case Skip => Saved
      case Swallow => Saved
    }

    ghost predicate Refuses(hooks: seq<Hook>) {
      RejectBefore in hooks || RejectAfter in hooks
    }

    /** One statement for all the specs. */
    method BatchCreate() returns (ok: bool)
      requires Valid() && forall j :: 0 <= j < specs.Length ==> specs[j].Some?
      modifies this`batches, specs
      ensures ok == answer.ok
      ensures |batches| == |old(batches)| + 1 && batches[..|batches| - 1] == old(batches)
      ensures |batches[|batches| - 1]| == specs.Length
      ensures forall j :: 0 <= j < specs.Length ==> batches[|batches| - 1][j] == old(specs[j]).value.fields
      ensures forall j :: 0 <= j < specs.Length ==> specs[j] == Some(Spec(old(specs[j]).value.fields, answer.ids[j]))
    {
      batches := batches + [seq(specs.Length, j requires 0 <= j < specs.Length reads this, specs
        requires specs[j].Some? => specs[j].value.fields)];
      ok := answer.ok;
      forall j | 0 <= j < specs.Length {
        specs[j] := Some(Spec(specs[j].value.fields, answer.ids[j]));
      }
    }

    /** The mutator of builder `i`, wrapped by its hooks from `h` on. */
    method Mutate(i: nat, h: nat, ghost goal: seq<Fields>) returns (r: Outcome)
      requires Valid() && i < |hooks| && h <= |hooks[i]|
      requires Heading(goal, i, h) && Filled(goal, i, false)
      modifies this`batches, mutations, specs, nodes
      ensures var open := Enters(hooks[i][h..]) && Fine(goal, i);
              && batches == Sent(old(batches), goal, open && ReadyFrom(goal, i + 1))
              && Effect(goal, i, open)
      ensures Answers(hooks[i][h..], goal, i, r)
      ensures forall j :: 0 <= j < i ==> mutations[j] == old(mutations[j]) && nodes[j] == old(nodes[j])
      decreases |hooks| - i, |hooks[i]| - h + 1
    {
      if h == |hooks[i]| {
        assert hooks[i][h..] == [];
        r := Create(i, goal);
        return;
      }
      var hook, after := hooks[i][h], Saved;
      ghost var rest := hooks[i][h + 1..];
      assert hooks[i][h..] == [hook] + rest;
      if hook.RejectBefore? || hook.Skip? {
        NothingDone(goal, i, h);
      } else {
        PassOn(i, h, goal);
        assert Enters([hook] + rest) <==> Enters(rest);
        after := Mutate(i, h + 1, goal);
      }
      HookAnswers(hook, rest, goal, i, after);
      r := Passed(hook, i, after);
    }

    /** What a hook does to the mutation before it calls the next mutator. */
    method PassOn(i: nat, h: nat, ghost goal: seq<Fields>)
      requires Valid() && i < |hooks| && h < |hooks[i]| && Heading(goal, i, h)
      modifies mutations
      ensures Heading(goal, i, h + 1)
      ensures forall j :: 0 <= j < |hooks| && j != i ==> mutations[j] == old(mutations[j])
    {
      var hook := hooks[i][h];
      assert hooks[i][h..] == [hook] + hooks[i][h + 1..];
      if hook.Set? {
        mutations[i] := mutations[i].(fields := mutations[i].fields[hook.field := hook.value]);
      }
    }

    /** The innermost mutator: check, fill in the spec, hand on, take the identifier. */
    method Create(i: nat, ghost goal: seq<Fields>) returns (r: Outcome)
      requires Valid() && i < |hooks|
      requires Heading(goal, i, |hooks[i]|) && Filled(goal, i, false)
      modifies this`batches, mutations, specs, nodes
      ensures batches == Sent(old(batches), goal, Fine(goal, i) && ReadyFrom(goal, i + 1))
      ensures Effect(goal, i, Fine(goal, i)) && Answers([], goal, i, r)
      ensures forall j :: 0 <= j < i ==> mutations[j] == old(mutations[j]) && nodes[j] == old(nodes[j])
      decreases |hooks| - i, 0
    {
      var bad := Check(schema, CheckOrder, mutations[i].fields);
      if bad.Some? {
        NothingDone(goal, i, |hooks[i]|);
        InnermostAnswers(goal, i, Invalid(i, bad.value));
        return Invalid(i, bad.value);
      }
      CreateSpec(i, goal);
      r := HandOn(i, goal);
      InnermostAnswers(goal, i, r);
      if r == Saved {
        TakeId(i, goal, ReadyFrom(goal, i + 1));
      }
      assert Settled(goal, i, true, ReadyFrom(goal, i + 1));
    }

    method CreateSpec(i: nat, ghost goal: seq<Fields>)
      requires Valid() && i < |hooks| && Heading(goal, i, |hooks[i]|) && Filled(goal, i, false)
      modifies specs, nodes
      ensures Filled(goal, i + 1, false) && nodes[i] == Some(Node(goal[i], 0))
      ensures forall j :: 0 <= j < |hooks| && j != i ==> nodes[j] == old(nodes[j])
    {
      nodes[i], specs[i] := Some(Node(mutations[i].fields, 0)), Some(Spec(mutations[i].fields, None));
    }

    /** The rest of the chain after builder `i`, or the batch if it is the last. */
    method HandOn(i: nat, ghost goal: seq<Fields>) returns (r: Outcome)
      requires Valid() && i < |hooks| == |goal| && Filled(goal, i + 1, false)
      requires Heading(goal, i + 1, 0)
      modifies this`batches, mutations, specs, nodes
      ensures var sent := ReadyFrom(goal, i + 1);
              && batches == Sent(old(batches), goal, sent)
              && ChainAnswers(goal, i + 1, r)
              && SpecsAfter(goal, i + 1, sent)
              && AllSettled(goal, i + 1, true, sent)
      ensures forall j :: 0 <= j <= i ==> mutations[j] == old(mutations[j]) && nodes[j] == old(nodes[j])
      decreases |hooks| - i - 1, if i + 1 < |hooks| then |hooks[i + 1]| + 2 else 0
    {
      if i < |hooks| - 1 {
        assert hooks[i + 1][0..] == hooks[i + 1];
        ChainNext(goal, i + 1);
        r := Mutate(i + 1, 0, goal);
        FirstAnswers(goal, i + 1, r);
        FirstSettled(goal, i + 1);
      } else {
        var ok := Insert(goal);
        r := if ok then Saved else BatchFailed;
      }
    }

    lemma FirstSettled(goal: seq<Fields>, i: nat)
      requires Valid() && i < |goal| == |hooks| && Effect(goal, i, Open(goal, i))
      ensures SpecsAfter(goal, i, ReadyFrom(goal, i)) && AllSettled(goal, i, true, ReadyFrom(goal, i))
    {
      var sent := ReadyFrom(goal, i);
      ChainNext(goal, i);
      forall j | i <= j < |goal| ensures SettledAt(goal, i, j, true, sent) {
        assert j > i ==> SettledAt(goal, i + 1, j, Open(goal, i), sent);
        assert Reached(goal, i, j) <==> Open(goal, i) && (j == i || Reached(goal, i + 1, j));
      }
    }

    method Insert(ghost goal: seq<Fields>) returns (ok: bool)
      requires Valid() && |goal| == |hooks| && Filled(goal, |goal|, false)
      modifies this`batches, specs
      ensures ok == answer.ok && batches == old(batches) + [goal] && Filled(goal, |goal|, true)
    {
      ok := BatchCreate();
      assert batches[|batches| - 1] == goal;
    }

    /** The node takes the identifier the batch reported, if it reported one; the mutation
        refers to the node's. */
    method TakeId(i: nat, ghost goal: seq<Fields>, ghost sent: bool)
      requires Valid() && i < |hooks| == |goal|
      requires nodes[i] == Some(Node(goal[i], 0)) && Succeeds(goal, i + 1)
      requires specs[i] == Some(Spec(goal[i], if sent then answer.ids[i] else None))
      modifies mutations, nodes
      requires AllSettled(goal, i + 1, true, sent)
      ensures mutations[i].done && Settled(goal, i, true, sent) && AllSettled(goal, i + 1, true, sent)
      ensures forall j :: 0 <= j < |hooks| && j != i ==> mutations[j] == old(mutations[j]) && nodes[j] == old(nodes[j])
    {
      if specs[i].value.id.Some? {
        nodes[i] := Some(nodes[i].value.(id := specs[i].value.id.value));
      }
      mutations[i] := mutations[i].(id := Some(nodes[i].value.id), done := true);
      ghost var next := i + 1;
      forall j | next <= j < |goal| ensures SettledAt(goal, next, j, true, sent) {
        assert old(SettledAt(goal, next, j, true, sent));
      }
    }

    ghost function FieldsNow(): (r: seq<Fields>)
      requires Valid()
      reads mutations
      ensures |r| == |hooks| && forall i :: 0 <= i < |r| ==> r[i] == mutations[i].fields
    {
      seq(|hooks|, i requires 0 <= i < mutations.Length reads mutations => mutations[i].fields)
    }

    /** What the builders' fields become: defaults first, then the hooks. */
    ghost function Goal(given: seq<Fields>): (r: seq<Fields>)
      requires |given| == |hooks|
      ensures |r| == |hooks|
      ensures forall i :: 0 <= i < |r| ==> r[i] == AfterHooks(hooks[i], Defaults(schema, DefaultOrder, given[i]).0)
    {
      seq(|hooks|, i requires 0 <= i < |hooks| => AfterHooks(hooks[i], Defaults(schema, DefaultOrder, given[i]).0))
    }

    lemma GoalIsRightful(given: seq<Fields>)
      requires |given| == |hooks|
      ensures var goal := Goal(given);
              forall i, f :: 0 <= i < |hooks| && f in goal[i] ==> Rightful(schema, hooks[i], given[i], f, goal[i][f])
    {
      var goal := Goal(given);
      forall i | 0 <= i < |hooks| ensures forall f :: f in goal[i] ==> Rightful(schema, hooks[i], given[i], f, goal[i][f]) {
        SentRightfully(schema, hooks[i], given[i]);
        assert goal[i] == AfterHooks(hooks[i], Defaults(schema, DefaultOrder, given[i]).0);
      }
    }

    /** `Save`. Nothing is sent unless every builder is ready, and then one batch with all
        of them in order. The error of `defaults()` is ignored here. */
    method Save() returns (r: Outcome)
      requires Valid() && forall i :: 0 <= i < |hooks| ==> !mutations[i].done
      modifies this`batches, mutations, specs, nodes
      ensures r.Broken? <==> broken
      ensures broken ==> batches == old(batches)
      ensures !broken ==>
                var goal := Goal(old(FieldsNow()));
                var sent := hooks != [] && ReadyFrom(goal, 0);
                && batches == Sent(old(batches), goal, sent)
                && (r.Saved? <==> hooks == [] || Succeeds(goal, 0))
                && (r.BatchFailed? <==> sent && !answer.ok && Unswallowed(0))
                && (r.Invalid? <==> MisfitFrom(goal, 0))
                && AllSettled(goal, 0, true, sent)
                && Blames(goal, 0, r)
                && forall i, f :: 0 <= i < |hooks| && f in goal[i] ==> Rightful(schema, hooks[i], old(FieldsNow())[i], f, goal[i][f])
    {
      if broken {
        return Broken;
      }
      ghost var goal := Goal(FieldsNow());
      GoalIsRightful(FieldsNow());
      forall j | 0 <= j < |hooks| {
        specs[j] := None;
      }
      forall j | 0 <= j < |hooks| {
        nodes[j] := None;
      }
      ApplyDefaults();
      if |hooks| > 0 {
        r := HandOver(goal);
      } else {
        r := Saved;
      }
    }

    method ApplyDefaults()
      requires Valid()
      modifies mutations
      ensures forall j :: 0 <= j < |hooks| ==> mutations[j] == WithDefaults(schema, old(mutations[j]))
    {
      var defaults := m => WithDefaults(schema, m);
      ForEachBuilder(defaults);
      assert forall j :: 0 <= j < |hooks| ==> mutations[j] == defaults(old(mutations[j]));
    }

    method ForEachBuilder(update: Mutation -> Mutation)
      requires Valid()
      modifies mutations
      ensures forall j :: 0 <= j < |hooks| ==> mutations[j] == update(old(mutations[j]))
    {
      for i := 0 to |hooks|
        invariant forall j :: 0 <= j < i ==> mutations[j] == update(old(mutations[j]))
        invariant forall j :: i <= j < |hooks| ==> mutations[j] == old(mutations[j])
      {
        mutations[i] := update(mutations[i]);
      }
    }

    /** The first mutator is called with the whole chain behind it. */
    method HandOver(ghost goal: seq<Fields>) returns (r: Outcome)
      requires Valid() && hooks != [] && |goal| == |hooks|
      requires forall j :: 0 <= j < |hooks| ==> !mutations[j].done && nodes[j].None?
      requires forall j :: 0 <= j < |hooks| ==> AfterHooks(hooks[j], mutations[j].fields) == goal[j]
      modifies this`batches, mutations, specs, nodes
      ensures batches == Sent(old(batches), goal, ReadyFrom(goal, 0))
      ensures ChainAnswers(goal, 0, r) && AllSettled(goal, 0, true, ReadyFrom(goal, 0))
    {
      assert hooks[0][0..] == hooks[0];
      ChainNext(goal, 0);
      r := Mutate(0, 0, goal);
      FirstAnswers(goal, 0, r);
      FirstSettled(goal, 0);
    }
  }

  /** Success without a batch: a builder with any fields, complete ones among them, and a
      hook that skips the rest. */
  method SkippedInsert(schema: Schema, fields: Fields, answer: BatchAnswer) returns (bulk: AccountCreateBulk, r: Outcome)
    requires |answer.ids| == 1
    ensures bulk.schema == schema && bulk.hooks == [[Skip]] && bulk.answer == answer && !bulk.broken
    ensures r == Saved && bulk.batches == []
  {
    bulk := new AccountCreateBulk(schema, [fields], [[Skip]], answer, false);
    ghost var goal := bulk.Goal(bulk.FieldsNow());
    bulk.SkipSucceeds(goal);
    r := bulk.Save();
  }

  /** Success without a batch: a builder that lacks something, and a hook that swallows its
      error. */
  method SwallowedInsert(schema: Schema, fields: Fields, answer: BatchAnswer) returns (bulk: AccountCreateBulk, r: Outcome)
    requires |answer.ids| == 1 && Check(schema, CheckOrder, Defaults(schema, DefaultOrder, fields).0).Some?
    ensures bulk.schema == schema && bulk.hooks == [[Swallow]] && bulk.answer == answer && !bulk.broken
    ensures r == Saved && bulk.batches == []
  {
    bulk := new AccountCreateBulk(schema, [fields], [[Swallow]], answer, false);
    ghost var goal := bulk.Goal(bulk.FieldsNow());
    assert AfterHooks([Swallow][1..], Defaults(schema, DefaultOrder, fields).0) == Defaults(schema, DefaultOrder, fields).0;
    bulk.SwallowSucceeds(goal);
    r := bulk.Save();
  }

  /** A builder to which nothing was given always lacks something. */
  lemma NothingGiven(schema: Schema)
    ensures Check(schema, CheckOrder, Defaults(schema, DefaultOrder, map[]).0).Some?
  {
    var after := Defaults(schema, DefaultOrder, map[]).0;
    DefaultsOnly(schema, DefaultOrder, map[], Name);
    EveryFieldIsChecked(Name);
    assert !FieldFine(schema, Name, after);
  }

  // ----- what being ready means

  /** A hook that passes everything through changes no field and no answer. */
  lemma {:induction false} PassThrough(hooks: seq<Hook>, fields: Fields)
    requires forall i :: 0 <= i < |hooks| ==> hooks[i] == Pass
    ensures AfterHooks(hooks, fields) == fields && Neutral(hooks)
  {
    if hooks != [] {
      PassThrough(hooks[1..], fields);
    }
  }

  predicate SetsField(hook: Hook, f: Field) {
    hook.Set? && hook.field == f
  }

  /** Some hook supplies the field. */
  predicate SetBy(hooks: seq<Hook>, f: Field) {
    exists i :: 0 <= i < |hooks| && SetsField(hooks[i], f)
  }

  lemma SetByNext(hooks: seq<Hook>, f: Field)
    requires hooks != []
    ensures SetBy(hooks, f) <==> SetsField(hooks[0], f) || SetBy(hooks[1..], f)
  {
    if SetBy(hooks, f) {
      var i :| 0 <= i < |hooks| && SetsField(hooks[i], f);
      assert i == 0 || SetsField(hooks[1..][i - 1], f);
    }
    if SetBy(hooks[1..], f) {
      var i :| 0 <= i < |hooks[1..]| && SetsField(hooks[1..][i], f);
      assert SetsField(hooks[i + 1], f);
    }
  }

  /** After the hooks a field is there exactly if it was before or some hook sets it. */
  lemma {:induction false} HooksSupply(hooks: seq<Hook>, fields: Fields, f: Field)
    ensures f in AfterHooks(hooks, fields) <==> f in fields || SetBy(hooks, f)
  {
    if hooks != [] {
      HooksSupply(hooks[1..], if hooks[0].Set? then fields[hooks[0].field := hooks[0].value] else fields, f);
      SetByNext(hooks, f);
    }
  }

  /** Hook `i` is the last that sets the field. */
  ghost predicate LastSet(hooks: seq<Hook>, f: Field, i: nat) {
    i < |hooks| && SetsField(hooks[i], f) && forall j :: i < j < |hooks| ==> !SetsField(hooks[j], f)
  }

  /** The value of a field after the hooks is that of the last hook that sets it. */
  lemma {:induction false} HooksSet(hooks: seq<Hook>, fields: Fields, f: Field, i: nat)
    requires LastSet(hooks, f, i)
    ensures f in AfterHooks(hooks, fields) && AfterHooks(hooks, fields)[f] == hooks[i].value
  {
    var next := if hooks[0].Set? then fields[hooks[0].field := hooks[0].value] else fields;
    forall j | 0 <= j < |hooks[1..]| ensures hooks[1..][j] == hooks[j + 1] {
    }
    if i > 0 {
      HooksSet(hooks[1..], next, f, i - 1);
    } else {
      forall j | 0 <= j < |hooks[1..]| ensures !SetsField(hooks[1..][j], f) {
        assert !SetsField(hooks[j + 1], f);
      }
      HooksLeave(hooks[1..], next, f);
    }
  }

  /** If none sets it, it is what it was before. */
  lemma {:induction false} HooksLeave(hooks: seq<Hook>, fields: Fields, f: Field)
    requires f in fields && forall j :: 0 <= j < |hooks| ==> !SetsField(hooks[j], f)
    ensures f in AfterHooks(hooks, fields) && AfterHooks(hooks, fields)[f] == fields[f]
  {
    if hooks != [] {
      assert !SetsField(hooks[0], f);
      forall j | 0 <= j < |hooks[1..]| ensures !SetsField(hooks[1..][j], f) {
        assert !SetsField(hooks[j + 1], f);
      }
      HooksLeave(hooks[1..], if hooks[0].Set? then fields[hooks[0].field := hooks[0].value] else fields, f);
    }
  }

  /** Where a field that is sent has its value from: the last hook that sets it, or else the
      caller, or else the schema. */
  ghost predicate Rightful(schema: Schema, hooks: seq<Hook>, given: Fields, f: Field, v: Value) {
    if SetBy(hooks, f) then exists i: nat :: LastSet(hooks, f, i) && hooks[i].value == v
    else if f in given then given[f] == v
    else f in DefaultOrder && IsDefault(schema, f, v)
  }

  lemma {:induction false} SomeLastSet(hooks: seq<Hook>, f: Field) returns (i: nat)
    requires SetBy(hooks, f)
    ensures LastSet(hooks, f, i)
  {
    if SetsField(hooks[|hooks| - 1], f) {
      i := |hooks| - 1;
    } else {
      var front := hooks[..|hooks| - 1];
      var k :| 0 <= k < |hooks| && SetsField(hooks[k], f);
      assert SetsField(front[k], f);
      i := SomeLastSet(front, f);
    }
  }

  lemma SentRightfully(schema: Schema, hooks: seq<Hook>, given: Fields)
    ensures var sent := AfterHooks(hooks, Defaults(schema, DefaultOrder, given).0);
            forall f :: f in sent ==> Rightful(schema, hooks, given, f, sent[f])
  {
    var after := Defaults(schema, DefaultOrder, given).0;
    forall f | f in AfterHooks(hooks, after) ensures Rightful(schema, hooks, given, f, AfterHooks(hooks, after)[f]) {
      HooksSupply(hooks, after, f);
      if SetBy(hooks, f) {
        var i := SomeLastSet(hooks, f);
        HooksSet(hooks, after, f, i);
      } else {
        HooksLeave(hooks, after, f);
      }
    }
  }

  /** Field `k` of the order was not given, and its generator is missing. */
  predicate Missing(schema: Schema, order: seq<Field>, fields: Fields, k: nat) {
    k < |order| && order[k] !in fields && DefaultOf(schema, order[k]).None?
  }

  ghost predicate FirstMissing(schema: Schema, order: seq<Field>, fields: Fields, k: nat) {
    Missing(schema, order, fields, k) && forall j :: 0 <= j < k ==> !Missing(schema, order, fields, j)
  }

  function WithDefault(schema: Schema, f: Field, fields: Fields): Fields {
    if f in fields || DefaultOf(schema, f).None? then fields else fields[f := DefaultOf(schema, f).value]
  }

  lemma MissingNext(schema: Schema, order: seq<Field>, fields: Fields, j: nat)
    requires order != [] && !Missing(schema, order, fields, 0)
    ensures Missing(schema, order[1..], WithDefault(schema, order[0], fields), j) <==> Missing(schema, order, fields, j + 1)
  {
  }

  /** `defaults()` stops at the first field that was not given and has no default: all the
      fields before it are set then, and none after it. */
  lemma {:induction false} DefaultsStop(schema: Schema, order: seq<Field>, fields: Fields, k: nat)
    requires FirstMissing(schema, order, fields, k)
    ensures var (after, missing) := Defaults(schema, order, fields);
            missing == Some(order[k]) && forall f :: f in after <==> f in fields || f in order[..k]
  {
    if k > 0 {
      assert !Missing(schema, order, fields, 0);
      var next := WithDefault(schema, order[0], fields);
      forall j: nat ensures Missing(schema, order[1..], next, j) <==> Missing(schema, order, fields, j + 1) {
        MissingNext(schema, order, fields, j);
      }
      DefaultsStop(schema, order[1..], next, k - 1);
      assert order[..k] == [order[0]] + order[1..][..k - 1];
    }
  }

  /** It fails exactly if there is such a field. */
  lemma {:induction false} DefaultsFail(schema: Schema, order: seq<Field>, fields: Fields)
    ensures Defaults(schema, order, fields).1.Some? <==> exists k :: FirstMissing(schema, order, fields, k)
  {
    if exists k :: FirstMissing(schema, order, fields, k) {
      var k :| FirstMissing(schema, order, fields, k);
      DefaultsStop(schema, order, fields, k);
    } else {
      forall k: nat ensures !Missing(schema, order, fields, k) {
        NoneMissing(schema, order, fields, k);
      }
      DefaultsSucceed(schema, order, fields);
    }
  }

  lemma {:induction false} NoneMissing(schema: Schema, order: seq<Field>, fields: Fields, k: nat)
    requires forall j :: !FirstMissing(schema, order, fields, j)
    ensures !Missing(schema, order, fields, k)
  {
    forall j | 0 <= j < k ensures !Missing(schema, order, fields, j) {
      NoneMissing(schema, order, fields, j);
    }
    assert !FirstMissing(schema, order, fields, k);
  }

  lemma {:induction false} DefaultsSucceed(schema: Schema, order: seq<Field>, fields: Fields)
    requires forall k: nat :: !Missing(schema, order, fields, k)
    ensures Defaults(schema, order, fields).1.None?
  {
    if order != [] {
      assert !Missing(schema, order, fields, 0);
      var next := WithDefault(schema, order[0], fields);
      forall k: nat ensures !Missing(schema, order[1..], next, k) {
        MissingNext(schema, order, fields, k);
        assert !Missing(schema, order, fields, k + 1);
      }
      DefaultsSucceed(schema, order[1..], next);
    }
  }

  /** Exactly when a builder is ready although `defaults()` stopped at field `k` of its
      order: every required field was given, has a default and comes before that field, or
      is set by a hook, all validated values are valid after the hooks, and no hook keeps
      the mutation back. */
  lemma IgnoredErrorPasses(schema: Schema, hooks: seq<Hook>, fields: Fields, k: nat)
    requires FirstMissing(schema, DefaultOrder, fields, k)
    ensures var after := Defaults(schema, DefaultOrder, fields).0;
            Ready(schema, hooks, after) <==>
            && Enters(hooks)
            && (forall f :: f != SessionWindowStatus ==> f in fields || f in DefaultOrder[..k] || SetBy(hooks, f))
            && ValidValues(schema, AfterHooks(hooks, after))
  {
    var after := Defaults(schema, DefaultOrder, fields).0;
    var sent := AfterHooks(hooks, after);
    DefaultsStop(schema, DefaultOrder, fields, k);
    forall f: Field ensures f in sent <==> f in fields || f in DefaultOrder[..k] || SetBy(hooks, f) {
      HooksSupply(hooks, after, f);
    }
    CheckedExactly(schema, sent);
  }

  /** `check()` reports the first field at fault. */
  lemma {:induction false} ChecksInOrder(schema: Schema, order: seq<Field>, fields: Fields, k: nat)
    requires k < |order| && !FieldFine(schema, order[k], fields)
    requires forall j :: 0 <= j < k ==> FieldFine(schema, order[j], fields)
    ensures Check(schema, order, fields) == Some(order[k])
  {
    if k > 0 {
      assert FieldFine(schema, order[0], fields);
      forall j | 0 <= j < k - 1 ensures FieldFine(schema, order[1..][j], fields) {
        assert order[1..][j] == order[j + 1];
      }
      ChecksInOrder(schema, order[1..], fields, k - 1);
    }
  }

  /** What `check()` asks for. */
  lemma CheckedExactly(schema: Schema, fields: Fields)
    ensures Check(schema, CheckOrder, fields).None?
            <==> (forall f :: f != SessionWindowStatus ==> f in fields) && ValidValues(schema, fields)
    ensures ValidValues(schema, fields) <==>
            forall f :: f in fields && f in {Name, Platform, Kind, Status, SessionWindowStatus, QuotaDimension} ==> schema.valid(f, fields[f])
  {
    if Check(schema, CheckOrder, fields).None? {
      forall f: Field ensures FieldFine(schema, f, fields) {
        EveryFieldIsChecked(f);
      }
      forall f | f in fields && IsValidated(f) ensures schema.valid(f, fields[f]) {
        assert FieldFine(schema, f, fields);
      }
      forall f | f != SessionWindowStatus ensures f in fields {
        assert FieldFine(schema, f, fields);
      }
    }
  }

  /** A hook that sets the missing field is not enough when there are defaults after it:
      `defaults()` has not set those either. */
  lemma OneFieldIsNotEnough(schema: Schema, hooks: seq<Hook>, fields: Fields, k: nat, later: nat)
    requires FirstMissing(schema, DefaultOrder, fields, k) && k < later < |DefaultOrder|
    requires DefaultOrder[later] !in fields && !SetBy(hooks, DefaultOrder[later])
    ensures !Ready(schema, hooks, Defaults(schema, DefaultOrder, fields).0)
  {
    IgnoredErrorPasses(schema, hooks, fields, k);
    OrderIsDistinct();
  }

  lemma OrderIsDistinct()
    ensures forall i, j :: 0 <= i < j < |DefaultOrder| ==> DefaultOrder[i] != DefaultOrder[j]
    ensures SessionWindowStatus !in DefaultOrder
  {
  }

  /** The exception is real: with a hook that supplies the field, the bulk insert goes on
      where a single one, which stops at the error of `defaults()`, would not. */
  lemma IgnoredErrorCanPass() returns (schema: Schema, hooks: seq<Hook>, fields: Fields)
    ensures Defaults(schema, DefaultOrder, fields).1.Some?
    ensures Ready(schema, hooks, Defaults(schema, DefaultOrder, fields).0)
  {
    schema := Schema(f => None, f => "", (f, v) => true);
    hooks := [Set(CreatedAt, "now")];
    fields := map f | f in CheckOrder && f != CreatedAt :: "given";
    assert hooks[1..] == [];
    assert AfterHooks(hooks, fields) == fields[CreatedAt := "now"];
  }

  /** When the defaults succeed, what is left to check is what the caller must supply. */
  lemma WhatTheCallerSupplies(schema: Schema, fields: Fields)
    requires Defaults(schema, DefaultOrder, fields).1.None?
    ensures var after := Defaults(schema, DefaultOrder, fields).0;
            Check(schema, CheckOrder, after).None? <==> FromTheCaller <= fields.Keys && ValidValues(schema, after)
  {
    var after := Defaults(schema, DefaultOrder, fields).0;
    CallerFields(schema, fields);
    CheckedFields(schema, after);
  }

  lemma CallerFields(schema: Schema, fields: Fields)
    ensures FromTheCaller <= Defaults(schema, DefaultOrder, fields).0.Keys <==> FromTheCaller <= fields.Keys
  {
    assert Name !in DefaultOrder && Platform !in DefaultOrder && Kind !in DefaultOrder;
    DefaultsOnly(schema, DefaultOrder, fields, Name);
    DefaultsOnly(schema, DefaultOrder, fields, Platform);
    DefaultsOnly(schema, DefaultOrder, fields, Kind);
  }

  /** The required fields that have no default. */
  const FromTheCaller := {Name, Platform, Kind}

  ghost predicate ValidValues(schema: Schema, fields: Fields) {
    forall f :: f in fields && IsValidated(f) ==> schema.valid(f, fields[f])
  }

  lemma CheckedFields(schema: Schema, fields: Fields)
    requires forall f :: f in DefaultOrder ==> f in fields
    ensures Check(schema, CheckOrder, fields).None? <==> FromTheCaller <= fields.Keys && ValidValues(schema, fields)
  {
    CheckedExactly(schema, fields);
    forall f: Field ensures f in {Name, Platform, Kind, SessionWindowStatus} || f in DefaultOrder {
      EveryFieldHasASource(f);
    }
  }

  lemma EveryFieldHasASource(f: Field)
    ensures f in {Name, Platform, Kind, SessionWindowStatus} || f in DefaultOrder
  {
  }

  lemma EveryFieldIsChecked(f: Field)
    ensures f in CheckOrder
  {
    match f
    case CreatedAt => assert CheckOrder[0] == f;
    case UpdatedAt => assert CheckOrder[1] == f;
    case Name => assert CheckOrder[2] == f;
    case Platform => assert CheckOrder[3] == f;
    case Kind => assert CheckOrder[4] == f;
    case Credentials => assert CheckOrder[5] == f;
    case Extra => assert CheckOrder[6] == f;
    case Concurrency => assert CheckOrder[7] == f;
    case Priority => assert CheckOrder[8] == f;
    case RateMultiplier => assert CheckOrder[9] == f;
    case Status => assert CheckOrder[10] == f;
    case AutoPauseOnExpired => assert CheckOrder[11] == f;
    case Schedulable => assert CheckOrder[12] == f;
    case IqCheck => assert CheckOrder[13] == f;
    case SessionWindowStatus => assert CheckOrder[14] == f;
    case QuotaDimension => assert CheckOrder[15] == f;
  }

  /** Defaults add no field that is not among them. */
  lemma {:induction false} DefaultsOnly(schema: Schema, order: seq<Field>, fields: Fields, f: Field)
    requires f !in order
    ensures f in Defaults(schema, order, fields).0 <==> f in fields
  {
    if order != [] {
      if order[0] in fields {
        DefaultsOnly(schema, order[1..], fields, f);
      } else if DefaultOf(schema, order[0]).Some? {
        DefaultsOnly(schema, order[1..], fields[order[0] := DefaultOf(schema, order[0]).value], f);
      }
    }
  }
}
