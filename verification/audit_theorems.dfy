/** What exit code 0 of the audit gate tells a maintainer about the report, and the reports
    that slip through. */
module AuditTheorems {
  import opened Values
  import opened AuditReport
  import opened AuditValidate
  import opened AuditGate

  lemma {:induction false} AbsentIsNull(entries: Entries, key: string)
    requires !Has(entries, key)
    ensures Get(entries, key) == Null
  {
    if entries != [] {
      forall i | 0 <= i < |entries[1..]| ensures entries[1..][i].0 != key {
        assert entries[1..][i] == entries[i + 1];
      }
      assert entries[0].0 != key;
      AbsentIsNull(entries[1..], key);
    }
  }

  /** No entry of a section of a faultless report has a fault of its own. */
  lemma EntryIsFine(py: Python, data: Entries, exit: Option<int>, key: string, i: nat, e: ReportError)
    requires ReportFine(py, Obj(data), exit) && key in Formats && i < |SectionEntries(data, key)|
    ensures !EntryFault(py, key, SectionEntries(data, key)[i].0, SectionEntries(data, key)[i].1, e)
  {
    if !Has(data, key) {
      AbsentIsNull(data, key);
    }
    assert !Fault(py, Obj(data), exit, e);
  }

  lemma EntryHasSeverity(py: Python, data: Entries, exit: Option<int>, key: string, i: nat)
    requires ReportFine(py, Obj(data), exit) && key in Formats && i < |SectionEntries(data, key)|
    ensures var entry := SectionEntries(data, key)[i].1;
            entry.Obj? && Get(entry.entries, "severity").Str? && SeverityOf(py, Get(entry.entries, "severity")) in Severities
  {
    var (name, entry) := SectionEntries(data, key)[i];
    EntryIsFine(py, data, exit, key, i, BadEntry(key, name));
    EntryIsFine(py, data, exit, key, i, BadSeverity(key, name));
  }

  /** Every finding that reaches the exceptions has one of the known severities. */
  lemma FindingsHaveSeverities(py: Python, data: Entries, exit: Option<int>)
    requires ReportFine(py, Obj(data), exit) && Findings(py, data).Value?
    ensures forall f :: f in Findings(py, data).value ==> f.severity.Str? && SeverityOf(py, f.severity) in Severities
  {
    var adv, vs := SectionEntries(data, "advisories"), SectionEntries(data, "vulnerabilities");
    assert "advisories" == Formats[0] && "vulnerabilities" == Formats[1];
    var first := AdvisoryFindings(py, adv).value;
    FindingsOfAdvisories(py, adv);
    FindingsOfVulnerabilities(vs);
    var second := VulnerabilityFindings(vs).value;
    assert Findings(py, data).value == first + second;
    forall f: Finding | f in first + second ensures f.severity.Str? && SeverityOf(py, f.severity) in Severities {
      if f in first {
        var i := Position(first, f);
        EntryHasSeverity(py, data, exit, "advisories", i);
      } else {
        var i :| 0 <= i < |vs| && ComesFrom(f, vs[i]);
        EntryHasSeverity(py, data, exit, "vulnerabilities", i);
      }
    }
  }

  /** A finding that an exception covers. */
  ghost predicate Matched(py: Python, data: Entries, exceptions: seq<Exception>, today: int, k: nat)
    requires Findings(py, data).Value? && k < |Findings(py, data).value|
  {
    var rows := Findings(py, data).value;
    Relevant(py, rows[k]) && Covered(py, rows, k, RulesOf(py, exceptions), today)
  }

  /** Every high or critical advisory of a report that passes is covered. */
  lemma HighAdvisoryIsMatched(py: Python, data: Entries, exit: Option<int>, exceptions: seq<Exception>, today: int, i: nat)
    requires Passes(py, Obj(data), exit, exceptions, today)
    requires i < |SectionEntries(data, "advisories")| && HighEntry(py, SectionEntries(data, "advisories")[i])
    ensures i < |Findings(py, data).value| && Matched(py, data, exceptions, today, i)
    ensures Findings(py, data).value[i].severity == Get(SectionEntries(data, "advisories")[i].1.entries, "severity")
  {
    var es, rows := SectionEntries(data, "advisories"), Findings(py, data).value;
    FindingsOfAdvisories(py, es);
    assert rows[i] == AdvisoryFindings(py, es).value[i];
    assert "advisories" == Formats[0];
    EntryIsFine(py, data, exit, "advisories", i, NoPackage(es[i].0));
    assert Relevant(py, rows[i]);
  }

  /** The vulnerability names no package, or none of its evidence has an identifier. */
  predicate SlipsThrough(entry: (string, Json))
    requires entry.1.Obj?
  {
    entry.0 == "" || forall k :: 0 <= k < |Evidence(entry.1.entries)| ==> !PyTruthy(EvidenceId(Evidence(entry.1.entries)[k]))
  }

  ghost predicate DistinctNames(es: Entries) {
    forall i, j :: 0 <= i < j < |es| ==> es[i].0 != es[j].0
  }

  /** Some finding of the vulnerability's own is covered. */
  ghost predicate OwnFindingMatched(py: Python, data: Entries, exceptions: seq<Exception>, today: int, i: nat)
    requires Findings(py, data).Value? && i < |SectionEntries(data, "vulnerabilities")|
  {
    exists k :: |SectionEntries(data, "advisories")| <= k < |Findings(py, data).value|
                && ComesFrom(Findings(py, data).value[k], SectionEntries(data, "vulnerabilities")[i])
                && Matched(py, data, exceptions, today, k)
  }

  /** In a report that passes, a high or critical vulnerability is covered through a
      finding of its own exactly if it has a name and some evidence with an identifier. */
  lemma HighVulnerabilityIsMatched(py: Python, data: Entries, exit: Option<int>, exceptions: seq<Exception>, today: int, i: nat)
    requires Passes(py, Obj(data), exit, exceptions, today)
    requires DistinctNames(SectionEntries(data, "vulnerabilities"))
    requires i < |SectionEntries(data, "vulnerabilities")| && HighEntry(py, SectionEntries(data, "vulnerabilities")[i])
    ensures !SlipsThrough(SectionEntries(data, "vulnerabilities")[i]) <==> OwnFindingMatched(py, data, exceptions, today, i)
  {
    var es, rows := SectionEntries(data, "vulnerabilities"), Findings(py, data).value;
    var first := FindingsInOrder(py, data);
    if !SlipsThrough(es[i]) {
      var k := OwnFinding(es, i);
      var own := VulnerabilityFindings(es).value[k];
      assert rows[first + k] == own && Relevant(py, own);
      assert Matched(py, data, exceptions, today, first + k);
    } else if es[i].0 != "" {
      NothingWithoutIdentifiers(es, i);
      forall k | first <= k < |rows| ensures !ComesFrom(rows[k], es[i]) {
        assert VulnerabilityFindings(es).value[k - first] in VulnerabilityFindings(es).value;
      }
    }
  }

  /** Where the vulnerabilities' findings begin. */
  lemma FindingsInOrder(py: Python, data: Entries) returns (first: nat)
    requires Findings(py, data).Value?
    ensures first == |SectionEntries(data, "advisories")|
    ensures VulnerabilityFindings(SectionEntries(data, "vulnerabilities")).Value?
    ensures AdvisoryFindings(py, SectionEntries(data, "advisories")).Value?
    ensures |AdvisoryFindings(py, SectionEntries(data, "advisories")).value| == first
    ensures Findings(py, data).value == AdvisoryFindings(py, SectionEntries(data, "advisories")).value
                                        + VulnerabilityFindings(SectionEntries(data, "vulnerabilities")).value
  {
    first := |SectionEntries(data, "advisories")|;
    FindingsOfAdvisories(py, SectionEntries(data, "advisories"));
  }

  lemma OwnFinding(es: Entries, i: nat) returns (k: nat)
    requires VulnerabilityFindings(es).Value? && i < |es| && es[i].1.Obj? && !SlipsThrough(es[i])
    ensures k < |VulnerabilityFindings(es).value| && ComesFrom(VulnerabilityFindings(es).value[k], es[i])
  {
    FindingsOfVulnerabilities(es);
    var items := Evidence(es[i].1.entries);
    var j :| 0 <= j < |items| && PyTruthy(EvidenceId(items[j]));
    k := Position(VulnerabilityFindings(es).value, Finding(Str(es[i].0), Get(es[i].1.entries, "severity"), EvidenceId(items[j])));
  }

  /** Without identifiers an entry has no finding. */
  lemma {:induction false} NothingWithoutIdentifiers(es: Entries, i: nat)
    requires VulnerabilityFindings(es).Value? && i < |es| && es[i].1.Obj? && DistinctNames(es)
    requires forall k :: 0 <= k < |Evidence(es[i].1.entries)| ==> !PyTruthy(EvidenceId(Evidence(es[i].1.entries)[k]))
    ensures forall f :: f in VulnerabilityFindings(es).value ==> !ComesFrom(f, es[i])
  {
    var front, last := es[..|es| - 1], es[|es| - 1];
    var added := EvidenceFindings(last.0, Get(last.1.entries, "severity"), Evidence(last.1.entries));
    FindingsOfVulnerabilities(front);
    EvidenceIsListed(last.0, Get(last.1.entries, "severity"), Evidence(last.1.entries));
    if i < |front| {
      NothingWithoutIdentifiers(front, i);
      assert es[i].0 != last.0;
    } else {
      NoEvidenceNoFinding(last.0, Get(last.1.entries, "severity"), Evidence(last.1.entries));
      forall f | f in VulnerabilityFindings(front).value ensures f.name != Str(last.0) {
        var j :| 0 <= j < |front| && ComesFrom(f, front[j]);
        assert es[j] == front[j];
      }
    }
  }

  lemma {:induction false} NoEvidenceNoFinding(name: string, severity: Json, items: seq<Json>)
    requires forall k :: 0 <= k < |items| ==> !PyTruthy(EvidenceId(items[k]))
    ensures EvidenceFindings(name, severity, items) == []
  {
    if items != [] {
      NoEvidenceNoFinding(name, severity, items[..|items| - 1]);
    }
  }

  /** A count of high or critical findings in a report that passes stands for a covered
      finding of that severity, unless only vulnerabilities without a name have it. */
  lemma CountIsMatched(py: Python, data: Entries, exit: Option<int>, exceptions: seq<Exception>, today: int, level: string)
    requires Passes(py, Obj(data), exit, exceptions, today)
    requires level in HighSeverities && Counts(data).Obj? && PyTruthy(Get(Counts(data).entries, level))
    ensures var rows := Findings(py, data).value;
            (exists k :: 0 <= k < |rows| && SeverityOf(py, rows[k].severity) == level && PyTruthy(rows[k].name)) <==>
            (exists k :: 0 <= k < |rows| && SeverityOf(py, rows[k].severity) == level && Matched(py, data, exceptions, today, k))
    ensures (forall i :: 0 <= i < |SectionEntries(data, "vulnerabilities")| ==> SectionEntries(data, "vulnerabilities")[i].0 != "") ==>
              exists k :: 0 <= k < |Findings(py, data).value|
                          && SeverityOf(py, Findings(py, data).value[k].severity) == level && Matched(py, data, exceptions, today, k)
  {
    var rows := Findings(py, data).value;
    forall k | 0 <= k < |rows| && SeverityOf(py, rows[k].severity) == level && PyTruthy(rows[k].name)
      ensures Matched(py, data, exceptions, today, k)
    {
      assert Relevant(py, rows[k]);
    }
    assert !Fault(py, Obj(data), exit, Uncounted(level));
    assert !EvidenceFault(py, data, rows, Uncounted(level));
    var k :| 0 <= k < |rows| && SeverityOf(py, rows[k].severity) == level;
    if forall i :: 0 <= i < |SectionEntries(data, "vulnerabilities")| ==> SectionEntries(data, "vulnerabilities")[i].0 != "" {
      FindingsHaveNames(py, data, exit, k);
    }
  }

  lemma FindingsHaveNames(py: Python, data: Entries, exit: Option<int>, k: nat)
    requires ReportFine(py, Obj(data), exit) && Findings(py, data).Value? && k < |Findings(py, data).value|
    requires forall i :: 0 <= i < |SectionEntries(data, "vulnerabilities")| ==> SectionEntries(data, "vulnerabilities")[i].0 != ""
    ensures PyTruthy(Findings(py, data).value[k].name)
  {
    var adv, vs := SectionEntries(data, "advisories"), SectionEntries(data, "vulnerabilities");
    FindingsOfAdvisories(py, adv);
    FindingsOfVulnerabilities(vs);
    var first, second := AdvisoryFindings(py, adv).value, VulnerabilityFindings(vs).value;
    assert Findings(py, data).value == first + second;
    if k < |adv| {
      assert "advisories" == Formats[0];
      EntryIsFine(py, data, exit, "advisories", k, NoPackage(adv[k].0));
    } else {
      assert second[k - |adv|] in second;
      var i :| 0 <= i < |vs| && ComesFrom(second[k - |adv|], vs[i]);
    }
  }

  // ----- reports that slip through

  function Plain(): Python {
    Python(j => "", s => s, s => s, s => Some(0))
  }

  function Vulnerability(name: string, via: seq<Json>): (string, Json) {
    (name, Obj([("severity", Str("high")), ("via", Arr(via))]))
  }

  lemma TwoFields(k1: string, v1: Json, k2: string, v2: Json)
    requires k1 != k2
    ensures var es := [(k1, v1), (k2, v2)];
            && Get(es, k1) == v1 && Get(es, k2) == v2
            && (forall k :: Has(es, k) <==> k == k1 || k == k2)
            && (forall k :: k != k1 && k != k2 ==> Get(es, k) == Null)
  {
    var es := [(k1, v1), (k2, v2)];
    assert es[1..] == [(k2, v2)];
    assert es[1..][1..] == [];
    assert es[0].0 == k1 && es[1].0 == k2;
    forall k | k != k1 ensures Get(es, k) == if k == k2 then v2 else Null {
      assert Get(es, k) == Get(es[1..], k);
      assert Get(es[1..][1..], k) == Null;
    }
  }

  lemma VulnerabilityFields(name: string, via: seq<Json>, e: ReportError)
    requires via != []
    ensures var v := Vulnerability(name, via);
            && Get(v.1.entries, "severity") == Str("high") && Evidence(v.1.entries) == via
            && HighEntry(Plain(), v) && !EntryFault(Plain(), "vulnerabilities", name, v.1, e)
  {
    TwoFields("severity", Str("high"), "via", Arr(via));
    assert SeverityOf(Plain(), Str("high")) == "high";
  }

  lemma VulnerabilityAlone(name: string, via: seq<Json>)
    requires via != [] && TitlesJoin(via)
    ensures VulnerabilityFindings([Vulnerability(name, via)]) == Value(EvidenceFindings(name, Str("high"), via))
  {
    var v := Vulnerability(name, via);
    VulnerabilityFields(name, via, NotAnObject);
    assert [v][..0] == [];
    assert VulnerabilityFindings([v][..0]) == Value([]);
    var rows := EvidenceFindings(name, Str("high"), via);
    assert [] + rows == rows;
  }

  lemma OneEntry(data: Entries, key: string, entry: (string, Json), e: ReportError)
    requires Get(data, key) == Obj([entry]) && !EntryFault(Plain(), key, entry.0, entry.1, e)
    ensures !SectionFault(Plain(), data, key, e)
  {
    assert SectionEntries(data, key) == [entry];
  }

  /** A report without metadata whose sections have no fault of their own. */
  lemma QuietReport(data: Entries, exit: Option<int>, rows: seq<Finding>)
    requires exit in {None, Some(1)} && Findings(Plain(), data) == Value(rows)
    requires !Has(data, "error") && Get(data, "metadata") == Null
    requires Has(data, "vulnerabilities") && PyTruthy(Get(data, "vulnerabilities"))
    requires forall e :: !SectionFault(Plain(), data, "advisories", e) && !SectionFault(Plain(), data, "vulnerabilities", e)
    requires forall e :: !EvidenceFault(Plain(), data, rows, e)
    requires forall k :: 0 <= k < |rows| ==> !Relevant(Plain(), rows[k])
    ensures Passes(Plain(), Obj(data), exit, [], 0)
  {
    assert Formats[0] == "advisories" && Formats[1] == "vulnerabilities";
    forall e ensures !Fault(Plain(), Obj(data), exit, e) {
      assert !DataFault(Plain(), data, exit, e);
    }
    assert AllCovered(Plain(), rows, RulesOf(Plain(), []), 0);
  }

  function NamelessReport(): Entries {
    [("vulnerabilities", Obj([Vulnerability("", [Str("CVE-1")])]))]
  }

  /** A high vulnerability whose package name is empty needs no exception. */
  lemma NamelessPasses(exit: Option<int>)
    requires exit in {None, Some(1)}
    ensures Passes(Plain(), Obj(NamelessReport()), exit, [], 0)
    ensures |SectionEntries(NamelessReport(), "vulnerabilities")| == 1
    ensures HighEntry(Plain(), SectionEntries(NamelessReport(), "vulnerabilities")[0])
  {
    var via := [Str("CVE-1")];
    var v, data := Vulnerability("", via), NamelessReport();
    assert data[1..] == [] && data[0].0 == "vulnerabilities";
    assert Get(data, "vulnerabilities") == Obj([v]) && Get(data, "advisories") == Null && Get(data, "metadata") == Null;
    var rows := [Finding(Str(""), Str("high"), Str("CVE-1"))];
    assert via[..0] == [] && EvidenceFindings("", Str("high"), via[..0]) == [];
    assert [] + rows == rows && EvidenceFindings("", Str("high"), via) == rows;
    VulnerabilityAlone("", via);
    assert Findings(Plain(), data) == Value(rows);
    VulnerabilityFields("", via, NotAnObject);
    assert SectionEntries(data, "vulnerabilities") == [v];
    forall e ensures !SectionFault(Plain(), data, "advisories", e) && !SectionFault(Plain(), data, "vulnerabilities", e) {
      VulnerabilityFields("", via, e);
      OneEntry(data, "vulnerabilities", v, e);
    }
    assert rows[0].name == Str("") && Evidenced(rows, "");
    QuietReport(data, exit, rows);
  }

  function LowAdvisory(): (string, Json) {
    ("1", Obj([("module_name", Str("a")), ("severity", Str("low")), ("url", Str("u"))]))
  }

  lemma LowAdvisoryFields(e: ReportError)
    ensures var a := LowAdvisory().1.entries;
            && Get(a, "severity") == Str("low") && Get(a, "module_name") == Str("a")
            && Get(a, "url") == Str("u") && Get(a, "github_advisory_id") == Null
    ensures !EntryFault(Plain(), "advisories", "1", LowAdvisory().1, e)
  {
    var a := LowAdvisory().1.entries;
    assert a[1..] == [("severity", Str("low")), ("url", Str("u"))];
    TwoFields("severity", Str("low"), "url", Str("u"));
    assert Get(a, "severity") == Get(a[1..], "severity") && Get(a, "url") == Get(a[1..], "url");
    assert Get(a, "github_advisory_id") == Get(a[1..], "github_advisory_id");
    assert SeverityOf(Plain(), Str("low")) == "low";
  }

  lemma LowAdvisoryAlone()
    ensures AdvisoryFindings(Plain(), [LowAdvisory()]) == Value([Finding(Str("a"), Str("low"), Str("u"))])
  {
    LowAdvisoryFields(NotAnObject);
    var adv, found := LowAdvisory(), Finding(Str("a"), Str("low"), Str("u"));
    assert AdvisoryFinding(Plain(), adv.1) == Value(found);
    assert [adv][..0] == [] && AdvisoryFindings(Plain(), [adv][..0]) == Value([]);
    assert [] + [found] == [found];
  }

  function BorrowingReport(): Entries {
    [("advisories", Obj([LowAdvisory()])), ("vulnerabilities", Obj([Vulnerability("a", [Obj([])])]))]
  }

  /** A high vulnerability whose evidence has no identifier passes when a low advisory
      names the same package: that advisory counts as its evidence. */
  lemma BorrowedEvidencePasses()
    ensures Passes(Plain(), Obj(BorrowingReport()), None, [], 0)
    ensures |SectionEntries(BorrowingReport(), "vulnerabilities")| == 1
    ensures HighEntry(Plain(), SectionEntries(BorrowingReport(), "vulnerabilities")[0])
  {
    var via := [Obj([])];
    var v, adv, data := Vulnerability("a", via), LowAdvisory(), BorrowingReport();
    TwoFields("advisories", Obj([adv]), "vulnerabilities", Obj([v]));
    var rows := [Finding(Str("a"), Str("low"), Str("u"))];
    assert via[..0] == [] && EvidenceFindings("a", Str("high"), via) == [];
    VulnerabilityAlone("a", via);
    LowAdvisoryAlone();
    assert rows + [] == rows && Findings(Plain(), data) == Value(rows);
    VulnerabilityFields("a", via, NotAnObject);
    assert SectionEntries(data, "vulnerabilities") == [v];
    forall e ensures !SectionFault(Plain(), data, "advisories", e) && !SectionFault(Plain(), data, "vulnerabilities", e) {
      VulnerabilityFields("a", via, e);
      LowAdvisoryFields(e);
      OneEntry(data, "advisories", adv, e);
      OneEntry(data, "vulnerabilities", v, e);
    }
    assert rows[0].name == Str("a") && Evidenced(rows, "a");
    QuietReport(data, None, rows);
  }

  /** The severity of a finding whose key was met before is never compared. */
  lemma LaterSeverityIsIgnored(py: Python, rows: seq<Finding>, rules: Rules<Key, Allowed>, today: int, k: nat, severity: Json)
    requires AllCovered(py, rows, rules, today)
    requires k < |rows| && Relevant(py, rows[k]) && Met(py, rows, k, FindingKey(py, rows[k])) && IsHigh(py, severity)
    ensures AllCovered(py, rows[k := rows[k].(severity := severity)], rules, today)
  {
    var other := rows[k := rows[k].(severity := severity)];
    forall n: nat, key | n <= |rows| ensures Met(py, other, n, key) <==> Met(py, rows, n, key) {
      if Met(py, rows, n, key) {
        SameMet(py, rows, other, n, key);
      }
      if Met(py, other, n, key) {
        SameMet(py, other, rows, n, key);
      }
    }
    forall j | 0 <= j < |other| && Relevant(py, other[j]) ensures Covered(py, other, j, rules, today) {
      assert Relevant(py, rows[j]);
      var i :| 0 <= i < |rules| && rules[i].Some? && CoveredBy(py, rows, j, rules[i].value, today);
      assert CoveredBy(py, other, j, rules[i].value, today);
    }
  }

  lemma SameMet(py: Python, rows: seq<Finding>, other: seq<Finding>, n: nat, key: Key)
    requires |rows| == |other| && n <= |rows| && Met(py, rows, n, key)
    requires forall i :: 0 <= i < |rows| && Relevant(py, rows[i]) ==>
               Relevant(py, other[i]) && FindingKey(py, other[i]) == FindingKey(py, rows[i])
    ensures Met(py, other, n, key)
  {
    var j :| 0 <= j < n && Relevant(py, rows[j]) && FindingKey(py, rows[j]) == key;
    assert Relevant(py, other[j]) && FindingKey(py, other[j]) == key;
  }
}
