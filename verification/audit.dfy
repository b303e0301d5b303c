/** The report that the audit gate reads: which findings it yields, and which reports are
    refused before any exception is looked at. */
module AuditReport {
  import opened Values

  /** What the gate takes from Python: `str()` of a value that is not a string, the string
      methods it normalises with, and ISO dates as day numbers. */
  datatype Python =
    Python(render: Json -> string, strip: string -> string, lower: string -> string, parseDate: string -> Option<int>)

  type Entries = seq<(string, Json)>

  /** A computation that may raise. Only the first kind of exception is caught. */
  datatype Try<T> = Value(value: T) | TypeProblem | KeyProblem

  datatype Finding = Finding(name: Json, severity: Json, advisory: Json)

  const HighSeverities := {"high", "critical"}
  const Severities := {"info", "low", "moderate", "high", "critical"}

  function PyStr(py: Python, j: Json): string {
    if j.Str? then j.s else py.render(j)
  }

  function NormalizeSeverity(py: Python, s: string): string {
    py.lower(py.strip(s))
  }

  /** The severity of a finding; only strings get this far in a valid report. */
  function SeverityOf(py: Python, j: Json): string {
    if j.Str? then NormalizeSeverity(py, j.s) else ""
  }

  // ----- the findings of a report

  /** `(cves or [None])[0]` */
  function FirstCve(cves: Json): Try<Json> {
    if !PyTruthy(cves) then Value(Null)
    else match cves
      case Arr(items) => Value(items[0])
      case Str(s) => Value(Str([s[0]]))
      case Obj(_) => KeyProblem
      case _ => TypeProblem
  }

  function PickAdvisoryId(py: Python, a: Entries): Try<Json> {
    var stable := Or(Get(a, "github_advisory_id"), Get(a, "url"));
    if PyTruthy(stable) then Value(stable)
    else match FirstCve(Get(a, "cves"))
      case Value(cve) =>
        var id := if Get(a, "id") == Null then Null else Str(PyStr(py, Get(a, "id")));
        Value(Or(cve, Or(id, Or(Get(a, "title"), Or(Get(a, "advisory"), Get(a, "overview"))))))
      case TypeProblem => TypeProblem
      case KeyProblem => KeyProblem
  }

  /** What may identify an advisory, the preferred first. */
  ghost function Identifiers(py: Python, a: Entries): seq<Json> {
    [Get(a, "github_advisory_id"), Get(a, "url"),
     if FirstCve(Get(a, "cves")).Value? then FirstCve(Get(a, "cves")).value else Null,
     if Get(a, "id") == Null then Null else Str(PyStr(py, Get(a, "id"))),
     Get(a, "title"), Get(a, "advisory"), Get(a, "overview")]
  }

  ghost predicate FirstTrue(ids: seq<Json>, k: nat, id: Json) {
    k < |ids| && PyTruthy(id) && id == ids[k] && forall j :: 0 <= j < k ==> !PyTruthy(ids[j])
  }

  /** `id` is the first that is true, or something false if none is. */
  ghost predicate Identifies(ids: seq<Json>, id: Json) {
    if PyTruthy(id) then exists k :: FirstTrue(ids, k, id) else forall j :: 0 <= j < |ids| ==> !PyTruthy(ids[j])
  }

  /** The first true identifier is picked. The list of CVEs can only raise when neither of
      the two before it is there. */
  lemma PicksFirstTrue(py: Python, a: Entries)
    ensures PickAdvisoryId(py, a).Value? <==>
            PyTruthy(Get(a, "github_advisory_id")) || PyTruthy(Get(a, "url")) || FirstCve(Get(a, "cves")).Value?
    ensures PickAdvisoryId(py, a).Value? ==> Identifies(Identifiers(py, a), PickAdvisoryId(py, a).value)
  {
    if PickAdvisoryId(py, a).Value? {
      var ids, id := Identifiers(py, a), PickAdvisoryId(py, a).value;
      assert id == Or(ids[0], Or(ids[1], Or(ids[2], Or(ids[3], Or(ids[4], Or(ids[5], ids[6]))))));
      FirstOf(ids, id);
    }
  }

  lemma FirstOf(ids: seq<Json>, id: Json)
    requires |ids| == 7 && id == Or(ids[0], Or(ids[1], Or(ids[2], Or(ids[3], Or(ids[4], Or(ids[5], ids[6]))))))
    ensures Identifies(ids, id)
  {
    if PyTruthy(id) {
      var k :=
        if PyTruthy(ids[0]) then 0 else if PyTruthy(ids[1]) then 1 else if PyTruthy(ids[2]) then 2
        else if PyTruthy(ids[3]) then 3 else if PyTruthy(ids[4]) then 4 else if PyTruthy(ids[5]) then 5 else 6;
      assert FirstTrue(ids, k, id);
    }
  }

  function AdvisoryFinding(py: Python, advisory: Json): Try<Finding> {
    if !advisory.Obj? then TypeProblem
    else match PickAdvisoryId(py, advisory.entries)
      case Value(id) =>
        var a := advisory.entries;
        Value(Finding(Or(Get(a, "module_name"), Get(a, "name")), Get(a, "severity"), id))
      case TypeProblem => TypeProblem
      case KeyProblem => KeyProblem
  }

  function AdvisoryFindings(py: Python, es: Entries): Try<seq<Finding>> {
    if es == [] then Value([])
    else match AdvisoryFindings(py, es[..|es| - 1])
      case Value(before) =>
        (match AdvisoryFinding(py, es[|es| - 1].1)
         case Value(f) => Value(before + [f])
         case TypeProblem => TypeProblem
         case KeyProblem => KeyProblem)
      case other => other
  }

  /** A string or the list of a vulnerability's evidence. */
  function Evidence(vuln: Entries): seq<Json> {
    match Get(vuln, "via")
    case Arr(items) => items
    case Str(s) => [Str(s)]
    case _ => []
  }

  function EvidenceId(item: Json): Json {
    match item
    case Obj(e) => Or(Get(e, "github_advisory_id"), Or(Get(e, "url"), Or(Get(e, "source"), Or(Get(e, "title"), Get(e, "name")))))
    case Str(s) => item
    case _ => Null
  }

  function EvidenceTitle(item: Json): Json {
    match item
    case Obj(e) => Or(Get(e, "title"), Or(Get(e, "url"), Or(Get(e, "advisory"), Get(e, "source"))))
    case Str(s) => item
    case _ => Null
  }

  /** The titles can be joined: a true value that is not a string raises. */
  predicate TitlesJoin(items: seq<Json>) {
    forall i :: 0 <= i < |items| ==> PyTruthy(EvidenceTitle(items[i])) ==> EvidenceTitle(items[i]).Str?
  }

  function EvidenceFindings(name: string, severity: Json, items: seq<Json>): seq<Finding> {
    if items == [] then []
    else
      var before := EvidenceFindings(name, severity, items[..|items| - 1]);
      var id := EvidenceId(items[|items| - 1]);
      if PyTruthy(id) then before + [Finding(Str(name), severity, id)] else before
  }

  function VulnerabilityFindings(es: Entries): Try<seq<Finding>> {
    if es == [] then Value([])
    else match VulnerabilityFindings(es[..|es| - 1])
      case Value(before) =>
        var (name, vuln) := es[|es| - 1];
        if !vuln.Obj? || !TitlesJoin(Evidence(vuln.entries)) then TypeProblem
        else Value(before + EvidenceFindings(name, Get(vuln.entries, "severity"), Evidence(vuln.entries)))
      case other => other
  }

  /** All the findings of a report, advisories first. */
  function Findings(py: Python, data: Entries): Try<seq<Finding>> {
    var advisories, vulnerabilities := Get(data, "advisories"), Get(data, "vulnerabilities");
    match if advisories.Obj? then AdvisoryFindings(py, advisories.entries) else Value([])
    case Value(first) =>
      (match if vulnerabilities.Obj? then VulnerabilityFindings(vulnerabilities.entries) else Value([])
       case Value(second) => Value(first + second)
       case other => other)
    case other => other
  }

  method IterEvidence(name: string, severity: Json, items: seq<Json>) returns (r: Try<seq<Finding>>)
    ensures r == if TitlesJoin(items) then Value(EvidenceFindings(name, severity, items)) else TypeProblem
  {
    var found, joinable := [], true;
    for i := 0 to |items|
      invariant found == EvidenceFindings(name, severity, items[..i])
      invariant joinable <==> TitlesJoin(items[..i])
    {
      assert items[..i + 1][..i] == items[..i];
      assert forall k :: 0 <= k < i ==> items[..i + 1][k] == items[..i][k];
      if PyTruthy(EvidenceTitle(items[i])) && !EvidenceTitle(items[i]).Str? {
        assert items[..i + 1][i] == items[i];
        joinable := false;
      }
      var id := EvidenceId(items[i]);
      if PyTruthy(id) {
        found := found + [Finding(Str(name), severity, id)];
      }
    }
    assert items[..|items|] == items;
    r := if joinable then Value(found) else TypeProblem;
  }

  method IterAdvisories(py: Python, es: Entries) returns (r: Try<seq<Finding>>)
    ensures r == AdvisoryFindings(py, es)
  {
    var found := [];
    for i := 0 to |es|
      invariant AdvisoryFindings(py, es[..i]) == Value(found)
    {
      assert es[..i + 1][..i] == es[..i];
      var f := AdvisoryFinding(py, es[i].1);
      if !f.Value? {
        Raised(py, es, i + 1);
        return if f.TypeProblem? then TypeProblem else KeyProblem;
      }
      found := found + [f.value];
    }
    assert es[..|es|] == es;
    r := Value(found);
  }

  /** What is raised at one entry is what the whole iteration raises. */
  lemma Raised(py: Python, es: Entries, n: nat)
    requires n <= |es| && !AdvisoryFindings(py, es[..n]).Value?
    ensures AdvisoryFindings(py, es) == AdvisoryFindings(py, es[..n])
    decreases |es| - n
  {
    if n < |es| {
      assert es[..n + 1][..n] == es[..n];
      Raised(py, es, n + 1);
    } else {
      assert es[..n] == es;
    }
  }

  lemma RaisedByVulnerability(es: Entries, n: nat)
    requires n <= |es| && !VulnerabilityFindings(es[..n]).Value?
    ensures VulnerabilityFindings(es) == VulnerabilityFindings(es[..n])
    decreases |es| - n
  {
    if n < |es| {
      assert es[..n + 1][..n] == es[..n];
      RaisedByVulnerability(es, n + 1);
    } else {
      assert es[..n] == es;
    }
  }

  lemma NextVulnerability(es: Entries, n: nat)
    requires n < |es| && VulnerabilityFindings(es[..n]).Value?
    ensures var (name, vuln) := es[n];
            VulnerabilityFindings(es[..n + 1]) ==
            if !vuln.Obj? || !TitlesJoin(Evidence(vuln.entries)) then TypeProblem
            else Value(VulnerabilityFindings(es[..n]).value
                       + EvidenceFindings(name, Get(vuln.entries, "severity"), Evidence(vuln.entries)))
  {
    assert es[..n + 1][..n] == es[..n];
  }

  method IterVulnerabilities(es: Entries) returns (r: Try<seq<Finding>>)
    ensures r == VulnerabilityFindings(es)
  {
    var found := [];
    for i := 0 to |es|
      invariant VulnerabilityFindings(es[..i]) == Value(found)
    {
      NextVulnerability(es, i);
      var (name, vuln) := es[i];
      if !vuln.Obj? {
        RaisedByVulnerability(es, i + 1);
        return TypeProblem;
      }
      var more := IterEvidence(name, Get(vuln.entries, "severity"), Evidence(vuln.entries));
      if !more.Value? {
        RaisedByVulnerability(es, i + 1);
        return TypeProblem;
      }
      found := found + more.value;
    }
    assert es[..|es|] == es;
    r := Value(found);
  }

  /** `list(iter_vulns(data))` */
  method IterVulns(py: Python, data: Entries) returns (r: Try<seq<Finding>>)
    ensures r == Findings(py, data)
  {
    r := Value([]);
    var advisories, vulnerabilities := Get(data, "advisories"), Get(data, "vulnerabilities");
    if advisories.Obj? {
      r := IterAdvisories(py, advisories.entries);
      if !r.Value? {
        return;
      }
    }
    if vulnerabilities.Obj? {
      var second := IterVulnerabilities(vulnerabilities.entries);
      r := match second
      case Value(rows) => Value(r.value + rows)
      case other => other;
    } else {
      assert r.value + [] == r.value;
    }
  }

  /** The identifier of a piece of evidence is the first true one of five, or the text itself. */
  lemma EvidencePicksFirstTrue(item: Json)
    ensures item.Str? ==> EvidenceId(item) == item
    ensures item.Obj? ==>
              Identifies([Get(item.entries, "github_advisory_id"), Get(item.entries, "url"), Get(item.entries, "source"),
                          Get(item.entries, "title"), Get(item.entries, "name")], EvidenceId(item))
    ensures !item.Str? && !item.Obj? ==> !PyTruthy(EvidenceId(item))
  {
    if item.Obj? {
      var ids := [Get(item.entries, "github_advisory_id"), Get(item.entries, "url"), Get(item.entries, "source"),
                  Get(item.entries, "title"), Get(item.entries, "name")];
      var id := EvidenceId(item);
      if PyTruthy(id) {
        var k := if PyTruthy(ids[0]) then 0 else if PyTruthy(ids[1]) then 1 else if PyTruthy(ids[2]) then 2
                 else if PyTruthy(ids[3]) then 3 else 4;
        assert FirstTrue(ids, k, id);
      }
    }
  }

  /** The title of a piece of evidence is the first true one of four, or the text itself. */
  lemma TitlePicksFirstTrue(item: Json)
    ensures item.Str? ==> EvidenceTitle(item) == item
    ensures item.Obj? ==>
              Identifies([Get(item.entries, "title"), Get(item.entries, "url"), Get(item.entries, "advisory"), Get(item.entries, "source")],
                         EvidenceTitle(item))
    ensures !item.Str? && !item.Obj? ==> !PyTruthy(EvidenceTitle(item))
  {
    if item.Obj? {
      var ids := [Get(item.entries, "title"), Get(item.entries, "url"), Get(item.entries, "advisory"), Get(item.entries, "source")];
      var id := EvidenceTitle(item);
      if PyTruthy(id) {
        var k := if PyTruthy(ids[0]) then 0 else if PyTruthy(ids[1]) then 1 else if PyTruthy(ids[2]) then 2 else 3;
        assert FirstTrue(ids, k, id);
      }
    }
  }

  /** Listing the vulnerabilities raises exactly if an entry is no object, or one of its
      titles is true and no text. */
  lemma {:induction false} VulnerabilitiesRaise(es: Entries)
    ensures VulnerabilityFindings(es).Value? <==>
            forall i :: 0 <= i < |es| ==>
                          es[i].1.Obj? && forall item :: item in Evidence(es[i].1.entries) && PyTruthy(EvidenceTitle(item)) ==> EvidenceTitle(item).Str?
    ensures !VulnerabilityFindings(es).KeyProblem?
  {
    if es != [] {
      VulnerabilitiesRaise(es[..|es| - 1]);
      if es[|es| - 1].1.Obj? {
        var items := Evidence(es[|es| - 1].1.entries);
        assert TitlesJoin(items) <==> forall item :: item in items && PyTruthy(EvidenceTitle(item)) ==> EvidenceTitle(item).Str?;
      }
      assert forall i :: 0 <= i < |es| - 1 ==> es[..|es| - 1][i] == es[i];
    }
  }

  /** Listing the advisories raises exactly if an entry is no object, or has neither of the
      first two identifiers and a list of CVEs that is true and neither list nor text. */
  lemma {:induction false} AdvisoriesRaise(py: Python, es: Entries)
    ensures AdvisoryFindings(py, es).Value? <==>
            forall i :: 0 <= i < |es| ==>
              es[i].1.Obj? &&
              var a := es[i].1.entries;
              PyTruthy(Get(a, "github_advisory_id")) || PyTruthy(Get(a, "url"))
              || !PyTruthy(Get(a, "cves")) || Get(a, "cves").Arr? || Get(a, "cves").Str?
  {
    if es != [] {
      AdvisoriesRaise(py, es[..|es| - 1]);
      if es[|es| - 1].1.Obj? {
        PicksFirstTrue(py, es[|es| - 1].1.entries);
      }
      assert forall i :: 0 <= i < |es| - 1 ==> es[..|es| - 1][i] == es[i];
    }
  }

  /** Of several CVEs the first one is taken, and of a text its first character. */
  lemma FirstOfTheCves(cves: Json)
    ensures cves.Arr? && cves.items != [] ==> FirstCve(cves) == Value(cves.items[0])
    ensures cves.Str? && cves.s != "" ==> FirstCve(cves) == Value(Str(cves.s[..1]))
    ensures !PyTruthy(cves) ==> FirstCve(cves) == Value(Null)
  {
    if cves.Str? && cves.s != "" {
      assert cves.s[..1] == [cves.s[0]];
    }
  }

  /** The evidence of an entry: its list, or the one text it has instead. */
  lemma EvidenceOf(vuln: Entries)
    ensures Get(vuln, "via").Arr? ==> Evidence(vuln) == Get(vuln, "via").items
    ensures Get(vuln, "via").Str? ==> Evidence(vuln) == [Get(vuln, "via")]
  {
  }

  /** Where a finding of the vulnerabilities comes from: entry and piece of evidence. */
  type Source = (nat, nat)

  ghost predicate Earlier(x: Source, y: Source) {
    x.0 < y.0 || (x.0 == y.0 && x.1 < y.1)
  }

  ghost predicate Yields(es: Entries, x: Source) {
    x.0 < |es| && es[x.0].1.Obj? && x.1 < |Evidence(es[x.0].1.entries)| && PyTruthy(EvidenceId(Evidence(es[x.0].1.entries)[x.1]))
  }

  ghost predicate FoundAt(es: Entries, x: Source, f: Finding) {
    Yields(es, x)
    && f == Finding(Str(es[x.0].0), Get(es[x.0].1.entries, "severity"), EvidenceId(Evidence(es[x.0].1.entries)[x.1]))
  }

  /** The findings are those of the sources, one each and in order, and every source before
      entry `n` is among them. */
  ghost predicate InOrderOf(es: Entries, findings: seq<Finding>, sources: seq<Source>, n: nat) {
    && |findings| == |sources|
    && (forall k :: 0 <= k < |sources| ==> FoundAt(es, sources[k], findings[k]) && sources[k].0 < n)
    && (forall k, l :: 0 <= k < l < |sources| ==> Earlier(sources[k], sources[l]))
    && (forall x: Source :: Yields(es, x) && x.0 < n ==> x in sources)
  }

  /** Of entry `i`, the pieces of evidence before `n` have been listed. */
  ghost predicate PiecesInOrder(items: seq<Json>, findings: seq<Finding>, places: seq<nat>, name: string, severity: Json, n: nat) {
    && |findings| == |places|
    && (forall k :: 0 <= k < |places| ==> places[k] < n && places[k] < |items| && PyTruthy(EvidenceId(items[places[k]]))
                                          && findings[k] == Finding(Str(name), severity, EvidenceId(items[places[k]])))
    && (forall k, l :: 0 <= k < l < |places| ==> places[k] < places[l])
    && (forall j: nat :: j < n && j < |items| && PyTruthy(EvidenceId(items[j])) ==> j in places)
  }

  lemma {:induction false} EvidenceInOrder(name: string, severity: Json, items: seq<Json>) returns (places: seq<nat>)
    ensures PiecesInOrder(items, EvidenceFindings(name, severity, items), places, name, severity, |items|)
  {
    if items == [] {
      places := [];
    } else {
      var n := |items| - 1;
      var front := EvidenceInOrder(name, severity, items[..n]);
      places := if PyTruthy(EvidenceId(items[n])) then front + [n] else front;
      LongerEvidence(items, EvidenceFindings(name, severity, items[..n]), front, name, severity);
      OneMorePiece(items, EvidenceFindings(name, severity, items[..n]), front, name, severity, n);
    }
  }

  lemma LongerEvidence(items: seq<Json>, findings: seq<Finding>, places: seq<nat>, name: string, severity: Json)
    requires items != [] && PiecesInOrder(items[..|items| - 1], findings, places, name, severity, |items| - 1)
    ensures PiecesInOrder(items, findings, places, name, severity, |items| - 1)
  {
    var front := items[..|items| - 1];
    forall k | 0 <= k < |places| ensures front[places[k]] == items[places[k]] {
    }
    forall j: nat | j < |items| - 1 && PyTruthy(EvidenceId(items[j])) ensures j in places {
      assert front[j] == items[j];
    }
  }

  lemma OneMorePiece(items: seq<Json>, findings: seq<Finding>, places: seq<nat>, name: string, severity: Json, n: nat)
    requires n < |items| && PiecesInOrder(items, findings, places, name, severity, n)
    ensures PyTruthy(EvidenceId(items[n])) ==>
              PiecesInOrder(items, findings + [Finding(Str(name), severity, EvidenceId(items[n]))], places + [n], name, severity, n + 1)
    ensures !PyTruthy(EvidenceId(items[n])) ==> PiecesInOrder(items, findings, places, name, severity, n + 1)
  {
  }

  /** The findings of the vulnerabilities are listed in the order of the entries and of their
      evidence, one for each piece with an identifier. */
  lemma {:induction false} VulnerabilitiesInOrder(es: Entries) returns (sources: seq<Source>)
    requires VulnerabilityFindings(es).Value?
    ensures InOrderOf(es, VulnerabilityFindings(es).value, sources, |es|)
  {
    if es == [] {
      sources := [];
    } else {
      var n := |es| - 1;
      var front := VulnerabilitiesInOrder(es[..n]);
      var name, severity, items := es[n].0, Get(es[n].1.entries, "severity"), Evidence(es[n].1.entries);
      var places := EvidenceInOrder(name, severity, items);
      var here := seq(|places|, k requires 0 <= k < |places| => (n, places[k]));
      sources := front + here;
      var before := VulnerabilityFindings(es[..n]).value;
      assert VulnerabilityFindings(es).value == before + EvidenceFindings(name, severity, items);
      LongerList(es, before, front);
      AddEntry(es, before, front, EvidenceFindings(name, severity, items), places, here);
    }
  }

  lemma LongerList(es: Entries, findings: seq<Finding>, sources: seq<Source>)
    requires es != [] && InOrderOf(es[..|es| - 1], findings, sources, |es| - 1)
    ensures InOrderOf(es, findings, sources, |es| - 1)
  {
    var front := es[..|es| - 1];
    forall k | 0 <= k < |sources| ensures FoundAt(es, sources[k], findings[k]) {
      assert FoundAt(front, sources[k], findings[k]) && front[sources[k].0] == es[sources[k].0];
    }
    forall x: Source | Yields(es, x) && x.0 < |es| - 1 ensures x in sources {
      assert front[x.0] == es[x.0] && Yields(front, x);
    }
  }

  lemma AddEntry(es: Entries, before: seq<Finding>, sources: seq<Source>, more: seq<Finding>, places: seq<nat>, here: seq<Source>)
    requires es != [] && es[|es| - 1].1.Obj? && InOrderOf(es, before, sources, |es| - 1)
    requires var (name, vuln) := es[|es| - 1];
             PiecesInOrder(Evidence(vuln.entries), more, places, name, Get(vuln.entries, "severity"), |Evidence(vuln.entries)|)
    requires |here| == |places| && forall k :: 0 <= k < |places| ==> here[k] == (|es| - 1, places[k])
    ensures InOrderOf(es, before + more, sources + here, |es|)
  {
    forall x: Source | Yields(es, x) ensures x in sources + here {
      if x.0 == |es| - 1 {
        assert x.1 in places;
        var k := Position(places, x.1);
        assert here[k] == x;
      }
    }
    JoinedOrder(sources, here, |es| - 1, places);
    forall k | 0 <= k < |here| ensures FoundAt(es, here[k], more[k]) {
    }
    forall k | 0 <= k < |sources + here| ensures FoundAt(es, (sources + here)[k], (before + more)[k]) {
      assert k < |sources| ==> FoundAt(es, sources[k], before[k]);
    }
  }

  /** Sources of one entry come after those of the entries before it. */
  lemma JoinedOrder(sources: seq<Source>, here: seq<Source>, n: nat, places: seq<nat>)
    requires forall k :: 0 <= k < |sources| ==> sources[k].0 < n
    requires forall k, l :: 0 <= k < l < |sources| ==> Earlier(sources[k], sources[l])
    requires |here| == |places| && forall k :: 0 <= k < |places| ==> here[k] == (n, places[k])
    requires forall k, l :: 0 <= k < l < |places| ==> places[k] < places[l]
    ensures forall k, l :: 0 <= k < l < |sources + here| ==> Earlier((sources + here)[k], (sources + here)[l])
  {
  }

  /** Advisories come first. */
  lemma AdvisoriesFirst(py: Python, data: Entries)
    requires Findings(py, data).Value?
    ensures var first := if Get(data, "advisories").Obj? then AdvisoryFindings(py, Get(data, "advisories").entries) else Value([]);
            var second := if Get(data, "vulnerabilities").Obj? then VulnerabilityFindings(Get(data, "vulnerabilities").entries) else Value([]);
            first.Value? && second.Value? && Findings(py, data).value == first.value + second.value
  {
  }

  /** Every finding of a vulnerability comes from one entry and carries its name and
      severity, and every true identifier of an entry's evidence is found. */
  lemma {:induction false} FindingsOfVulnerabilities(es: Entries)
    requires VulnerabilityFindings(es).Value?
    ensures forall f :: f in VulnerabilityFindings(es).value ==> exists i :: 0 <= i < |es| && ComesFrom(f, es[i])
    ensures forall i, k :: 0 <= i < |es| && es[i].1.Obj? && 0 <= k < |Evidence(es[i].1.entries)|
                           && PyTruthy(EvidenceId(Evidence(es[i].1.entries)[k])) ==>
              Finding(Str(es[i].0), Get(es[i].1.entries, "severity"), EvidenceId(Evidence(es[i].1.entries)[k]))
              in VulnerabilityFindings(es).value
  {
    if es != [] {
      var front, last := es[..|es| - 1], es[|es| - 1];
      FindingsOfVulnerabilities(front);
      EvidenceIsListed(last.0, Get(last.1.entries, "severity"), Evidence(last.1.entries));
      var before, all := VulnerabilityFindings(front).value, VulnerabilityFindings(es).value;
      var added := EvidenceFindings(last.0, Get(last.1.entries, "severity"), Evidence(last.1.entries));
      assert all == before + added;
      forall f | f in all ensures exists i :: 0 <= i < |es| && ComesFrom(f, es[i]) {
        if f in before {
          var i :| 0 <= i < |front| && ComesFrom(f, front[i]);
          assert ComesFrom(f, es[i]);
        } else {
          assert ComesFrom(f, es[|es| - 1]);
        }
      }
      assert forall i :: 0 <= i < |front| ==> front[i] == es[i];
    }
  }

  predicate ComesFrom(f: Finding, entry: (string, Json)) {
    entry.1.Obj? && f.name == Str(entry.0) && f.severity == Get(entry.1.entries, "severity") && PyTruthy(f.advisory)
  }

  lemma {:induction false} EvidenceIsListed(name: string, severity: Json, items: seq<Json>)
    ensures forall f :: f in EvidenceFindings(name, severity, items) ==>
                          f.name == Str(name) && f.severity == severity && PyTruthy(f.advisory)
    ensures forall k :: 0 <= k < |items| && PyTruthy(EvidenceId(items[k])) ==>
                          Finding(Str(name), severity, EvidenceId(items[k])) in EvidenceFindings(name, severity, items)
  {
    if items != [] {
      EvidenceIsListed(name, severity, items[..|items| - 1]);
    }
  }

  /** Every finding of an advisory has the entry's severity, its package name and the first
      of its true identifiers. */
  lemma {:induction false} FindingsOfAdvisories(py: Python, es: Entries)
    requires AdvisoryFindings(py, es).Value?
    ensures |AdvisoryFindings(py, es).value| == |es|
    ensures forall i :: 0 <= i < |es| ==>
              var f := AdvisoryFindings(py, es).value[i];
              && es[i].1.Obj? && f.severity == Get(es[i].1.entries, "severity")
              && f.name == Or(Get(es[i].1.entries, "module_name"), Get(es[i].1.entries, "name"))
              && Identifies(Identifiers(py, es[i].1.entries), f.advisory)
  {
    if es != [] {
      if es[|es| - 1].1.Obj? {
        PicksFirstTrue(py, es[|es| - 1].1.entries);
      }
      FindingsOfAdvisories(py, es[..|es| - 1]);
    }
  }
}
