/** The verdict of the audit gate: every high or critical finding needs an exception that
    is well formed, unique, of the right severity and not expired. */
module AuditGate {
  import opened Values
  import opened AuditReport
  import opened AuditValidate
  import AuditPromise
  import AuditAgreement

  type Exception = map<string, string>
  type Key = (string, string)

  /** What the index keeps of an exception. */
  datatype Allowed = Allowed(severity: string, expires: int)
  datatype Rule<K, A> = Rule(key: K, allowed: A)

  datatype Problem =
    | MissingFields(i: nat)
    | InvalidDate(i: nat)
    | EmptyKey(i: nat)
    | Duplicate(i: nat)
    | NoAdvisory(row: nat)
    | NoException(row: nat)
    | SeverityMismatch(row: nat)
    | Expired(row: nat)

  const RequiredFields := {"package", "advisory", "severity", "mitigation", "expires_on"}

  // ----- exceptions

  predicate Complete(exc: Exception) {
    forall field :: field in RequiredFields ==> field in exc && exc[field] != ""
  }

  function ExceptionKey(py: Python, exc: Exception): Key
    requires Complete(exc)
  {
    (py.strip(exc["package"]), py.lower(py.strip(exc["advisory"])))
  }

  /** The rule of a well-formed exception. */
  function RuleOf(py: Python, exc: Exception): (r: Option<Rule<Key, Allowed>>)
    ensures r.Some? <==> Complete(exc) && py.parseDate(exc["expires_on"]).Some?
                         && ExceptionKey(py, exc).0 != "" && ExceptionKey(py, exc).1 != ""
    ensures r.Some? ==> r.value.key == ExceptionKey(py, exc) && Some(r.value.allowed.expires) == py.parseDate(exc["expires_on"])
                        && r.value.allowed.severity == py.lower(py.strip(exc["severity"]))
  {
    if !Complete(exc) then None
    else
      var date, key := py.parseDate(exc["expires_on"]), ExceptionKey(py, exc);
      if date.None? || key.0 == "" || key.1 == "" then None
      else Some(Rule(key, Allowed(NormalizeSeverity(py, exc["severity"]), date.value)))
  }

  type Rules<K, A> = seq<Option<Rule<K, A>>>

  function RulesOf(py: Python, exceptions: seq<Exception>): (r: Rules<Key, Allowed>)
    ensures |r| == |exceptions| && forall i :: 0 <= i < |r| ==> r[i] == RuleOf(py, exceptions[i])
  {
    seq(|exceptions|, i requires 0 <= i < |exceptions| => RuleOf(py, exceptions[i]))
  }

  /** A well-formed exception before the `n`th has this key. */
  ghost predicate Claimed<K, A>(rules: Rules<K, A>, n: nat, key: K)
    requires n <= |rules|
  {
    exists j :: 0 <= j < n && rules[j].Some? && rules[j].value.key == key
  }

  ghost predicate ExceptionProblem(py: Python, exceptions: seq<Exception>, n: nat, p: Problem)
    requires n <= |exceptions|
  {
    match p
    case MissingFields(i) => i < n && !Complete(exceptions[i])
    case InvalidDate(i) => i < n && Complete(exceptions[i]) && py.parseDate(exceptions[i]["expires_on"]).None?
    case EmptyKey(i) =>
      && i < n && Complete(exceptions[i]) && py.parseDate(exceptions[i]["expires_on"]).Some?
      && (ExceptionKey(py, exceptions[i]).0 == "" || ExceptionKey(py, exceptions[i]).1 == "")
    case Duplicate(i) => i < n && Repeats(RulesOf(py, exceptions), i)
    case _ => false
  }

  ghost predicate Repeats<K, A>(rules: Rules<K, A>, i: nat)
    requires i < |rules|
  {
    rules[i].Some? && Claimed(rules, i, rules[i].value.key)
  }

  /** The index holds the first well-formed exception of each key. */
  ghost predicate Indexed<K(!new), A>(rules: Rules<K, A>, n: nat, index: map<K, A>)
    requires n <= |rules|
  {
    && (forall key :: key in index <==> Claimed(rules, n, key))
    && (forall i :: 0 <= i < n && rules[i].Some? && !Repeats(rules, i) ==>
                      rules[i].value.key in index && index[rules[i].value.key] == rules[i].value.allowed)
  }

  lemma ClaimedNext<K, A>(rules: Rules<K, A>, n: nat, key: K)
    requires n < |rules|
    ensures Claimed(rules, n + 1, key) <==> Claimed(rules, n, key) || (rules[n].Some? && key == rules[n].value.key)
  {
  }

  /** The index after exception `i`. */
  lemma IndexedNext<K(!new), A>(rules: Rules<K, A>, i: nat, index: map<K, A>)
    requires i < |rules| && Indexed(rules, i, index)
    ensures rules[i].Some? ==> (rules[i].value.key in index <==> Repeats(rules, i))
    ensures rules[i].None? || Repeats(rules, i) ==> Indexed(rules, i + 1, index)
    ensures rules[i].Some? && !Repeats(rules, i) ==>
              Indexed(rules, i + 1, index[rules[i].value.key := rules[i].value.allowed])
  {
    forall key ensures Claimed(rules, i + 1, key) <==>
                       Claimed(rules, i, key) || (rules[i].Some? && key == rules[i].value.key) {
      ClaimedNext(rules, i, key);
    }
  }

  /** The one problem an exception can have. */
  ghost function ProblemOf(py: Python, exceptions: seq<Exception>, i: nat): Option<Problem>
    requires i < |exceptions|
  {
    var exc := exceptions[i];
    if !Complete(exc) then Some(MissingFields(i))
    else if py.parseDate(exc["expires_on"]).None? then Some(InvalidDate(i))
    else if RuleOf(py, exc).None? then Some(EmptyKey(i))
    else if Repeats(RulesOf(py, exceptions), i) then Some(Duplicate(i))
    else None
  }

  lemma NextException(py: Python, exceptions: seq<Exception>, i: nat, p: Problem)
    requires i < |exceptions|
    ensures ExceptionProblem(py, exceptions, i + 1, p) <==>
            ExceptionProblem(py, exceptions, i, p) || ProblemOf(py, exceptions, i) == Some(p)
  {
  }

  ghost predicate Lists(py: Python, exceptions: seq<Exception>, n: nat, problems: seq<Problem>)
    requires n <= |exceptions|
  {
    forall p :: p in problems <==> ExceptionProblem(py, exceptions, n, p)
  }

  lemma ListsNext(py: Python, exceptions: seq<Exception>, i: nat, problems: seq<Problem>, problem: Option<Problem>)
    requires i < |exceptions| && Lists(py, exceptions, i, problems) && problem == ProblemOf(py, exceptions, i)
    ensures problem.None? ==> Lists(py, exceptions, i + 1, problems)
    ensures problem.Some? ==> Lists(py, exceptions, i + 1, problems + [problem.value])
  {
    forall p ensures ExceptionProblem(py, exceptions, i + 1, p) <==>
                     p in problems || ProblemOf(py, exceptions, i) == Some(p) {
      NextException(py, exceptions, i, p);
    }
  }

  /** Index and problems once the exceptions before `n` are done. */
  ghost predicate Built(py: Python, exceptions: seq<Exception>, n: nat, index: map<Key, Allowed>, problems: seq<Problem>)
    requires n <= |exceptions|
  {
    Indexed(RulesOf(py, exceptions), n, index) && Lists(py, exceptions, n, problems)
  }

  lemma BuiltNext(py: Python, exceptions: seq<Exception>, i: nat, index: map<Key, Allowed>, problems: seq<Problem>,
                  next: map<Key, Allowed>, problem: Option<Problem>)
    requires i < |exceptions| && Built(py, exceptions, i, index, problems)
    requires Indexed(RulesOf(py, exceptions), i + 1, next) && problem == ProblemOf(py, exceptions, i)
    ensures Built(py, exceptions, i + 1, next, if problem.Some? then problems + [problem.value] else problems)
  {
    ListsNext(py, exceptions, i, problems, problem);
  }

  method BuildIndex(py: Python, exceptions: seq<Exception>) returns (index: map<Key, Allowed>, problems: seq<Problem>)
    ensures Indexed(RulesOf(py, exceptions), |exceptions|, index)
    ensures Lists(py, exceptions, |exceptions|, problems)
  {
    index, problems := map[], [];
    for i := 0 to |exceptions|
      invariant Built(py, exceptions, i, index, problems)
    {
      var next, problem := IndexOne(py, exceptions, i, index);
      BuiltNext(py, exceptions, i, index, problems, next, problem);
      index, problems := next, if problem.Some? then problems + [problem.value] else problems;
    }
  }

  /** One round of the loop over the exceptions. */
  method IndexOne(py: Python, exceptions: seq<Exception>, i: nat, before: map<Key, Allowed>)
    returns (index: map<Key, Allowed>, problem: Option<Problem>)
    requires i < |exceptions| && Indexed(RulesOf(py, exceptions), i, before)
    ensures problem == ProblemOf(py, exceptions, i)
    ensures Indexed(RulesOf(py, exceptions), i + 1, index)
  {
    ghost var rules := RulesOf(py, exceptions);
    IndexedNext(rules, i, before);
    index := before;
    var exc := exceptions[i];
    if !Complete(exc) {
      return index, Some(MissingFields(i));
    }
    var date := py.parseDate(exc["expires_on"]);
    if date.None? {
      return index, Some(InvalidDate(i));
    }
    var key := ExceptionKey(py, exc);
    if key.0 == "" || key.1 == "" {
      return index, Some(EmptyKey(i));
    }
    if key in index {
      return index, Some(Duplicate(i));
    }
    return index[key := Allowed(NormalizeSeverity(py, exc["severity"]), date.value)], None;
  }

  // ----- findings

  function NormalizeText(py: Python, j: Json): string {
    if j.Null? then "" else py.strip(PyStr(py, j))
  }

  function FindingKey(py: Python, f: Finding): Key {
    (NormalizeText(py, f.name), if f.advisory.Null? then "" else py.lower(NormalizeText(py, f.advisory)))
  }

  predicate Relevant(py: Python, f: Finding) {
    IsHigh(py, f.severity) && PyTruthy(f.name)
  }

  ghost predicate Met(py: Python, rows: seq<Finding>, n: nat, key: Key)
    requires n <= |rows|
  {
    exists j :: 0 <= j < n && Relevant(py, rows[j]) && FindingKey(py, rows[j]) == key
  }

  ghost predicate FirstOfItsKey(py: Python, rows: seq<Finding>, k: nat)
    requires k < |rows|
  {
    Relevant(py, rows[k]) && FindingKey(py, rows[k]).1 != "" && !Met(py, rows, k, FindingKey(py, rows[k]))
  }

  ghost predicate FindingProblem(py: Python, rows: seq<Finding>, index: map<Key, Allowed>, today: int, n: nat, p: Problem)
    requires n <= |rows|
  {
    match p
    case NoAdvisory(k) => k < n && Relevant(py, rows[k]) && FindingKey(py, rows[k]).1 == ""
    case NoException(k) => k < n && FirstOfItsKey(py, rows, k) && FindingKey(py, rows[k]) !in index
    case SeverityMismatch(k) =>
      && k < n && FirstOfItsKey(py, rows, k) && FindingKey(py, rows[k]) in index
      && index[FindingKey(py, rows[k])].severity !in {"", SeverityOf(py, rows[k].severity)}
    case Expired(k) =>
      && k < n && FirstOfItsKey(py, rows, k) && FindingKey(py, rows[k]) in index
      && index[FindingKey(py, rows[k])].expires < today
    case _ => false
  }

  /** The problems finding `k` can have; `seen` are the keys met before. */
  predicate ProblemAt(py: Python, f: Finding, seen: set<Key>, index: map<Key, Allowed>, today: int, k: nat, p: Problem) {
    var key := FindingKey(py, f);
    match p
    case NoAdvisory(row) => row == k && Relevant(py, f) && key.1 == ""
    case NoException(row) => row == k && Relevant(py, f) && key.1 != "" && key !in seen && key !in index
    case SeverityMismatch(row) =>
      && row == k && Relevant(py, f) && key.1 != "" && key !in seen && key in index
      && index[key].severity !in {"", SeverityOf(py, f.severity)}
    case Expired(row) =>
      row == k && Relevant(py, f) && key.1 != "" && key !in seen && key in index && index[key].expires < today
    case _ => false
  }

  ghost predicate Seen(py: Python, rows: seq<Finding>, n: nat, seen: set<Key>)
    requires n <= |rows|
  {
    forall key :: key in seen <==> key.1 != "" && Met(py, rows, n, key)
  }

  lemma NextFinding(py: Python, rows: seq<Finding>, seen: set<Key>, index: map<Key, Allowed>, today: int, k: nat, p: Problem)
    requires k < |rows| && Seen(py, rows, k, seen)
    ensures FindingProblem(py, rows, index, today, k + 1, p) <==>
            FindingProblem(py, rows, index, today, k, p) || ProblemAt(py, rows[k], seen, index, today, k, p)
  {
    assert FirstOfItsKey(py, rows, k) <==>
           Relevant(py, rows[k]) && FindingKey(py, rows[k]).1 != "" && FindingKey(py, rows[k]) !in seen;
  }

  lemma MetNext(py: Python, rows: seq<Finding>, n: nat, key: Key)
    requires n < |rows|
    ensures Met(py, rows, n + 1, key) <==>
            Met(py, rows, n, key) || (Relevant(py, rows[n]) && key == FindingKey(py, rows[n]))
  {
    if Relevant(py, rows[n]) && key == FindingKey(py, rows[n]) {
      assert Met(py, rows, n + 1, key);
    } else if Met(py, rows, n, key) {
      var j :| 0 <= j < n && Relevant(py, rows[j]) && FindingKey(py, rows[j]) == key;
      assert Met(py, rows, n + 1, key);
    }
  }

  lemma SeenNext(py: Python, rows: seq<Finding>, k: nat, seen: set<Key>)
    requires k < |rows| && Seen(py, rows, k, seen)
    ensures var f := rows[k];
            Seen(py, rows, k + 1, if Relevant(py, f) && FindingKey(py, f).1 != "" then seen + {FindingKey(py, f)} else seen)
  {
    forall key ensures Met(py, rows, k + 1, key) <==>
                       Met(py, rows, k, key) || (Relevant(py, rows[k]) && key == FindingKey(py, rows[k])) {
      MetNext(py, rows, k, key);
    }
  }

  /** The findings loop. Missing and expired exceptions are collected apart, because they
      are reported after the rest. */
  method CheckFindings(py: Python, rows: seq<Finding>, index: map<Key, Allowed>, today: int)
    returns (problems: seq<Problem>, missing: seq<Problem>, expired: seq<Problem>)
    ensures forall p :: p in problems <==> (p.NoAdvisory? || p.SeverityMismatch?) && FindingProblem(py, rows, index, today, |rows|, p)
    ensures forall p :: p in missing <==> p.NoException? && FindingProblem(py, rows, index, today, |rows|, p)
    ensures forall p :: p in expired <==> p.Expired? && FindingProblem(py, rows, index, today, |rows|, p)
  {
    problems, missing, expired := [], [], [];
    var seen: set<Key> := {};
    for k := 0 to |rows|
      invariant Seen(py, rows, k, seen)
      invariant forall p :: p in problems <==> (p.NoAdvisory? || p.SeverityMismatch?) && FindingProblem(py, rows, index, today, k, p)
      invariant forall p :: p in missing <==> p.NoException? && FindingProblem(py, rows, index, today, k, p)
      invariant forall p :: p in expired <==> p.Expired? && FindingProblem(py, rows, index, today, k, p)
    {
      SeenNext(py, rows, k, seen);
      forall p ensures FindingProblem(py, rows, index, today, k + 1, p) <==>
                       FindingProblem(py, rows, index, today, k, p) || ProblemAt(py, rows[k], seen, index, today, k, p) {
        NextFinding(py, rows, seen, index, today, k, p);
      }
      if !Relevant(py, rows[k]) {
        continue;
      }
      var key := FindingKey(py, rows[k]);
      if key.1 == "" {
        problems := problems + [NoAdvisory(k)];
        continue;
      }
      if key in seen {
        assert seen + {key} == seen;
        continue;
      }
      seen := seen + {key};
      if key !in index {
        missing := missing + [NoException(k)];
        continue;
      }
      if index[key].severity != "" && index[key].severity != SeverityOf(py, rows[k].severity) {
        problems := problems + [SeverityMismatch(k)];
      }
      if index[key].expires < today {
        expired := expired + [Expired(k)];
      }
    }
  }

  // ----- the verdict

  /** Every exception is well formed and no two have the same key. */
  ghost predicate ExceptionsFine(rules: Rules<Key, Allowed>) {
    && (forall i :: 0 <= i < |rules| ==> rules[i].Some?)
    && (forall i, j :: 0 <= i < j < |rules| ==> rules[i].value.key != rules[j].value.key)
  }

  /** Finding `k` is covered by a rule. The severities are compared only for the first
      finding of a key, and only if the exception's is not blank. */
  ghost predicate CoveredBy(py: Python, rows: seq<Finding>, k: nat, rule: Rule<Key, Allowed>, today: int)
    requires k < |rows|
  {
    && rule.key == FindingKey(py, rows[k]) && rule.key.1 != "" && rule.allowed.expires >= today
    && (Met(py, rows, k, rule.key) || rule.allowed.severity in {"", SeverityOf(py, rows[k].severity)})
  }

  ghost predicate Covered(py: Python, rows: seq<Finding>, k: nat, rules: Rules<Key, Allowed>, today: int)
    requires k < |rows|
  {
    exists i :: 0 <= i < |rules| && rules[i].Some? && CoveredBy(py, rows, k, rules[i].value, today)
  }

  ghost predicate AllCovered(py: Python, rows: seq<Finding>, rules: Rules<Key, Allowed>, today: int) {
    forall k :: 0 <= k < |rows| && Relevant(py, rows[k]) ==> Covered(py, rows, k, rules, today)
  }

  /** What the gate promises, with neither index nor set of seen keys. */
  ghost predicate Passes(py: Python, data: Json, exit: Option<int>, exceptions: seq<Exception>, today: int) {
    && ReportFine(py, data, exit) && ExceptionsFine(RulesOf(py, exceptions))
    && data.Obj? && Findings(py, data.entries).Value?
    && AllCovered(py, Findings(py, data.entries).value, RulesOf(py, exceptions), today)
  }

  lemma NoExceptionProblem(py: Python, exceptions: seq<Exception>)
    ensures (forall p :: !ExceptionProblem(py, exceptions, |exceptions|, p)) <==> ExceptionsFine(RulesOf(py, exceptions))
  {
    var rules := RulesOf(py, exceptions);
    if forall p :: !ExceptionProblem(py, exceptions, |exceptions|, p) {
      forall i | 0 <= i < |rules| ensures rules[i].Some? {
        assert !ExceptionProblem(py, exceptions, |exceptions|, MissingFields(i));
        assert !ExceptionProblem(py, exceptions, |exceptions|, InvalidDate(i));
        assert !ExceptionProblem(py, exceptions, |exceptions|, EmptyKey(i));
      }
      forall i, j | 0 <= i < j < |rules| ensures rules[i].value.key != rules[j].value.key {
        assert !ExceptionProblem(py, exceptions, |exceptions|, Duplicate(j));
      }
    }
  }

  /** Skipping the keys already seen hides no missing and no expired exception, and the
      index finds the exception the list holds. */
  lemma NoFindingProblem(py: Python, rows: seq<Finding>, rules: Rules<Key, Allowed>, index: map<Key, Allowed>, today: int)
    requires ExceptionsFine(rules) && Indexed(rules, |rules|, index)
    ensures (forall p :: !FindingProblem(py, rows, index, today, |rows|, p)) <==> AllCovered(py, rows, rules, today)
  {
    if forall p :: !FindingProblem(py, rows, index, today, |rows|, p) {
      forall k | 0 <= k < |rows| && Relevant(py, rows[k]) ensures Covered(py, rows, k, rules, today) {
        UnproblematicIsCovered(py, rows, rules, index, today, k);
      }
    }
    if AllCovered(py, rows, rules, today) {
      forall p ensures !FindingProblem(py, rows, index, today, |rows|, p) {
        if (p.NoAdvisory? || p.NoException? || p.SeverityMismatch? || p.Expired?) && p.row < |rows| && Relevant(py, rows[p.row]) {
          CoveredHasNoProblem(py, rows, rules, index, today, p.row, p);
        }
      }
    }
  }

  lemma FindException(rules: Rules<Key, Allowed>, index: map<Key, Allowed>, key: Key) returns (i: nat)
    requires ExceptionsFine(rules) && Indexed(rules, |rules|, index) && key in index
    ensures i < |rules| && rules[i] == Some(Rule(key, index[key]))
  {
    assert Claimed(rules, |rules|, key);
    i :| 0 <= i < |rules| && rules[i].Some? && rules[i].value.key == key;
    assert !Repeats(rules, i);
  }

  lemma UnproblematicIsCovered(py: Python, rows: seq<Finding>, rules: Rules<Key, Allowed>, index: map<Key, Allowed>, today: int, k: nat)
    requires ExceptionsFine(rules) && Indexed(rules, |rules|, index)
    requires forall p :: !FindingProblem(py, rows, index, today, |rows|, p)
    requires k < |rows| && Relevant(py, rows[k])
    ensures Covered(py, rows, k, rules, today)
    decreases k
  {
    var key := FindingKey(py, rows[k]);
    assert !FindingProblem(py, rows, index, today, |rows|, NoAdvisory(k));
    if Met(py, rows, k, key) {
      var j :| 0 <= j < k && Relevant(py, rows[j]) && FindingKey(py, rows[j]) == key;
      UnproblematicIsCovered(py, rows, rules, index, today, j);
      var i :| 0 <= i < |rules| && rules[i].Some? && CoveredBy(py, rows, j, rules[i].value, today);
      assert CoveredBy(py, rows, k, rules[i].value, today);
    } else {
      assert !FindingProblem(py, rows, index, today, |rows|, NoException(k));
      assert !FindingProblem(py, rows, index, today, |rows|, SeverityMismatch(k));
      assert !FindingProblem(py, rows, index, today, |rows|, Expired(k));
      var i := FindException(rules, index, key);
      assert CoveredBy(py, rows, k, rules[i].value, today);
    }
  }

  lemma CoveredHasNoProblem(py: Python, rows: seq<Finding>, rules: Rules<Key, Allowed>, index: map<Key, Allowed>, today: int, k: nat, p: Problem)
    requires ExceptionsFine(rules) && Indexed(rules, |rules|, index)
    requires k < |rows| && Covered(py, rows, k, rules, today)
    requires p in {NoAdvisory(k), NoException(k), SeverityMismatch(k), Expired(k)}
    ensures !FindingProblem(py, rows, index, today, |rows|, p)
  {
    var i :| 0 <= i < |rules| && rules[i].Some? && CoveredBy(py, rows, k, rules[i].value, today);
    assert Claimed(rules, |rules|, rules[i].value.key);
    assert !Repeats(rules, i);
  }

  // ----- the same promise, told by texts

  lemma KeyIsText(py: Python, f: Finding)
    ensures FindingKey(py, f) == (AuditPromise.PackageText(py, f), AuditPromise.AdvisoryText(py, f))
    ensures Relevant(py, f) <==> AuditPromise.NeedsException(py, f)
  {
    AuditAgreement.SeriousIsHigh(py, f.severity);
  }

  lemma MetIsSeen(py: Python, rows: seq<Finding>, k: nat)
    requires k < |rows|
    ensures Met(py, rows, k, FindingKey(py, rows[k])) <==> AuditPromise.SeenBefore(py, rows, k)
  {
    forall j | 0 <= j <= k
      ensures FindingKey(py, rows[j]) == (AuditPromise.PackageText(py, rows[j]), AuditPromise.AdvisoryText(py, rows[j]))
      ensures Relevant(py, rows[j]) <==> AuditPromise.NeedsException(py, rows[j])
    {
      KeyIsText(py, rows[j]);
    }
  }

  /** An exception's rule has its package, advisory, severity and date. */
  lemma RuleIsTheException(py: Python, exc: Exception)
    ensures RuleOf(py, exc).Some? <==> AuditPromise.GoodException(py, exc)
    ensures RuleOf(py, exc).Some? ==>
              var rule := RuleOf(py, exc).value;
              && rule.key == (py.strip(exc["package"]), py.lower(py.strip(exc["advisory"])))
              && rule.allowed.severity == py.lower(py.strip(exc["severity"]))
              && Some(rule.allowed.expires) == py.parseDate(exc["expires_on"])
  {
    assert "package" in RequiredFields && "advisory" in RequiredFields && "severity" in RequiredFields
           && "mitigation" in RequiredFields && "expires_on" in RequiredFields;
  }

  lemma FineIsGood(py: Python, exceptions: seq<Exception>)
    ensures ExceptionsFine(RulesOf(py, exceptions)) <==> AuditPromise.GoodExceptions(py, exceptions)
  {
    var rules := RulesOf(py, exceptions);
    forall i | 0 <= i < |rules|
      ensures rules[i].Some? <==> AuditPromise.GoodException(py, exceptions[i])
      ensures rules[i].Some? ==>
                rules[i].value.key == (py.strip(exceptions[i]["package"]), py.lower(py.strip(exceptions[i]["advisory"])))
    {
      RuleIsTheException(py, exceptions[i]);
    }
    if AuditPromise.GoodExceptions(py, exceptions) {
      forall i, j | 0 <= i < j < |rules| ensures rules[i].value.key != rules[j].value.key {
        assert !AuditPromise.SameTarget(py, exceptions[i], exceptions[j]);
      }
    }
  }

  lemma CoveringIsExcusing(py: Python, rows: seq<Finding>, k: nat, exc: Exception, today: int)
    requires k < |rows|
    ensures RuleOf(py, exc).Some? && CoveredBy(py, rows, k, RuleOf(py, exc).value, today) <==>
            AuditPromise.Excuses(py, rows, k, exc, today)
  {
    RuleIsTheException(py, exc);
    KeyIsText(py, rows[k]);
    MetIsSeen(py, rows, k);
  }

  lemma CoveredIsExcused(py: Python, rows: seq<Finding>, k: nat, exceptions: seq<Exception>, today: int)
    requires k < |rows|
    ensures Covered(py, rows, k, RulesOf(py, exceptions), today) <==> AuditPromise.Excused(py, rows, k, exceptions, today)
  {
    forall i | 0 <= i < |exceptions|
      ensures RuleOf(py, exceptions[i]).Some? && CoveredBy(py, rows, k, RuleOf(py, exceptions[i]).value, today) <==>
              AuditPromise.Excuses(py, rows, k, exceptions[i], today)
    {
      CoveringIsExcusing(py, rows, k, exceptions[i], today);
    }
  }

  /** The gate passes exactly if the promise told by texts holds. */
  lemma PassesIsThePromise(py: Python, data: Json, exit: Option<int>, exceptions: seq<Exception>, today: int)
    ensures Passes(py, data, exit, exceptions, today) <==> AuditPromise.Promise(py, data, exit, exceptions, today)
  {
    AuditAgreement.GoodReportsAreFine(py, data, exit);
    FineIsGood(py, exceptions);
    if data.Obj? && Findings(py, data.entries).Value? {
      var rows := Findings(py, data.entries).value;
      forall k | 0 <= k < |rows|
        ensures Relevant(py, rows[k]) <==> AuditPromise.NeedsException(py, rows[k])
        ensures Covered(py, rows, k, RulesOf(py, exceptions), today) <==> AuditPromise.Excused(py, rows, k, exceptions, today)
      {
        KeyIsText(py, rows[k]);
        CoveredIsExcused(py, rows, k, exceptions, today);
      }
    }
  }

  /** `main`: `audit` is the parsed report, if it could be read, and the exit code is 0
      exactly when the gate's promise holds. */
  method RunGate(py: Python, audit: Option<Json>, exit: Option<int>, exceptions: seq<Exception>, today: int) returns (code: int)
    ensures code in {0, 1}
    ensures code == 0 <==> audit.Some? && Passes(py, audit.value, exit, exceptions, today)
    ensures code == 0 <==> audit.Some? && AuditPromise.Promise(py, audit.value, exit, exceptions, today)
  {
    if audit.None? {
      return 1;
    }
    PassesIsThePromise(py, audit.value, exit, exceptions, today);
    var reportErrors := ValidateAuditReport(py, audit.value, exit);
    if reportErrors != [] {
      return 1;
    }
    FineReports(py, audit.value, exit);
    var index, errors := BuildIndex(py, exceptions);
    var rows := IterVulns(py, audit.value.entries);
    var problems, missing, expired := CheckFindings(py, rows.value, index, today);
    NoExceptionProblem(py, exceptions);
    NoneAtAll(errors, p => ExceptionProblem(py, exceptions, |exceptions|, p));
    NoneAtAll(problems + missing + expired, p => FindingProblem(py, rows.value, index, today, |rows.value|, p));
    if ExceptionsFine(RulesOf(py, exceptions)) {
      NoFindingProblem(py, rows.value, RulesOf(py, exceptions), index, today);
    }
    errors := errors + problems + missing + expired;
    code := if errors == [] then 0 else 1;
  }

  /** A report without a fault is an object whose findings can be listed. */
  lemma FineReports(py: Python, data: Json, exit: Option<int>)
    requires ReportFine(py, data, exit)
    ensures data.Obj? && Findings(py, data.entries).Value?
  {
    assert !Fault(py, data, exit, NotAnObject);
    assert !Fault(py, data, exit, MalformedEvidence);
    assert !Fault(py, data, exit, Died);
  }

  /** A list is empty exactly if what it lists does not occur. */
  lemma NoneAtAll(problems: seq<Problem>, occurs: Problem -> bool)
    requires forall p :: p in problems <==> occurs(p)
    ensures problems == [] <==> forall p :: !occurs(p)
  {
    if problems != [] {
      assert occurs(problems[0]);
    }
  }
}
