/** What the audit gate promises, told by the texts of the report and of the exceptions: no
    index, no keys, no rules. */
module AuditPromise {
  import opened Values
  import opened AuditReport

  // ----- the report

  /** The entry's severity is text that reads `level`. */
  ghost predicate Reads(py: Python, severity: Json, level: string) {
    severity.Str? && py.lower(py.strip(severity.s)) == level
  }

  ghost predicate Serious(py: Python, severity: Json) {
    Reads(py, severity, "high") || Reads(py, severity, "critical")
  }

  ghost predicate Graded(py: Python, severity: Json) {
    Serious(py, severity) || Reads(py, severity, "moderate") || Reads(py, severity, "low") || Reads(py, severity, "info")
  }

  ghost predicate GoodAdvisory(py: Python, advisory: Json) {
    advisory.Obj? && Graded(py, Get(advisory.entries, "severity"))
    && (PyTruthy(Get(advisory.entries, "module_name")) || PyTruthy(Get(advisory.entries, "name")))
  }

  ghost predicate GoodVulnerability(py: Python, vuln: Json) {
    vuln.Obj? && Graded(py, Get(vuln.entries, "severity"))
    && (Get(vuln.entries, "via").Arr? || Get(vuln.entries, "via").Str?)
    && (Serious(py, Get(vuln.entries, "severity")) ==> PyTruthy(Get(vuln.entries, "via")))
  }

  ghost predicate GoodAdvisories(py: Python, data: Entries) {
    Has(data, "advisories") ==>
      Get(data, "advisories").Obj? &&
      var es := Get(data, "advisories").entries;
      forall i :: 0 <= i < |es| ==> GoodAdvisory(py, es[i].1)
  }

  ghost predicate GoodVulnerabilities(py: Python, data: Entries) {
    Has(data, "vulnerabilities") ==>
      Get(data, "vulnerabilities").Obj? &&
      var es := Get(data, "vulnerabilities").entries;
      forall i :: 0 <= i < |es| ==> GoodVulnerability(py, es[i].1)
  }

  /** No counts, or counts that are not negative. */
  ghost predicate GoodMetadata(data: Entries) {
    match Get(data, "metadata")
    case Null => true
    case Obj(metadata) =>
      (match Get(metadata, "vulnerabilities")
       case Null => true
       case Obj(counts) => forall i :: 0 <= i < |counts| ==> counts[i].1.Number? && counts[i].1.n >= 0
       case _ => false)
    case _ => false
  }

  /** Every serious vulnerability has a finding under its name with an identifier. */
  ghost predicate AllEvidenced(py: Python, data: Entries, rows: seq<Finding>) {
    Get(data, "vulnerabilities").Obj? ==>
      var es := Get(data, "vulnerabilities").entries;
      forall i :: 0 <= i < |es| && es[i].1.Obj? && Serious(py, Get(es[i].1.entries, "severity")) ==>
        exists k :: 0 <= k < |rows| && rows[k].name == Str(es[i].0) && PyTruthy(rows[k].advisory)
  }

  /** A count of serious findings comes with a finding of that severity. */
  ghost predicate CountsBacked(py: Python, data: Entries, rows: seq<Finding>, level: string) {
    Get(data, "metadata").Obj? && Get(Get(data, "metadata").entries, "vulnerabilities").Obj?
    && PyTruthy(Get(Get(Get(data, "metadata").entries, "vulnerabilities").entries, level)) ==>
      exists k :: 0 <= k < |rows| && Reads(py, rows[k].severity, level)
  }

  ghost predicate GoodShape(py: Python, data: Entries) {
    GoodAdvisories(py, data) && GoodVulnerabilities(py, data) && GoodMetadata(data)
  }

  ghost predicate GoodReport(py: Python, data: Json, exit: Option<int>) {
    && (exit.None? || exit.value == 0 || exit.value == 1) && data.Obj? &&
    var e := data.entries;
    && !Has(e, "error") && (Has(e, "advisories") || Has(e, "vulnerabilities"))
    && GoodShape(py, e) && Findings(py, e).Value? && AllEvidenced(py, e, Findings(py, e).value)
    && CountsBacked(py, e, Findings(py, e).value, "critical") && CountsBacked(py, e, Findings(py, e).value, "high")
    && (exit == Some(1) ==> PyTruthy(Get(e, "advisories")) || PyTruthy(Get(e, "vulnerabilities")))
  }

  // ----- the exceptions

  /** The package name of a finding, and its identifier in lower case, as they are matched. */
  ghost function PackageText(py: Python, f: Finding): string {
    match f.name
    case Null => ""
    case Str(s) => py.strip(s)
    case other => py.strip(py.render(other))
  }

  ghost function AdvisoryText(py: Python, f: Finding): string {
    match f.advisory
    case Null => ""
    case Str(s) => py.lower(py.strip(s))
    case other => py.lower(py.strip(py.render(other)))
  }

  ghost predicate Filled(exc: map<string, string>, field: string) {
    field in exc && exc[field] != ""
  }

  /** The exception has all five fields, a date, a package and an identifier. */
  ghost predicate GoodException(py: Python, exc: map<string, string>) {
    && Filled(exc, "package") && Filled(exc, "advisory") && Filled(exc, "severity") && Filled(exc, "mitigation")
    && Filled(exc, "expires_on") && py.parseDate(exc["expires_on"]).Some?
    && py.strip(exc["package"]) != "" && py.lower(py.strip(exc["advisory"])) != ""
  }

  /** Two exceptions for the same package and advisory. */
  ghost predicate SameTarget(py: Python, a: map<string, string>, b: map<string, string>) {
    && "package" in a && "advisory" in a && "package" in b && "advisory" in b
    && py.strip(a["package"]) == py.strip(b["package"]) && py.lower(py.strip(a["advisory"])) == py.lower(py.strip(b["advisory"]))
  }

  ghost predicate GoodExceptions(py: Python, exceptions: seq<map<string, string>>) {
    && (forall i :: 0 <= i < |exceptions| ==> GoodException(py, exceptions[i]))
    && (forall i, j :: 0 <= i < j < |exceptions| ==> !SameTarget(py, exceptions[i], exceptions[j]))
  }

  /** The findings an exception is needed for. */
  ghost predicate NeedsException(py: Python, f: Finding) {
    Serious(py, f.severity) && PyTruthy(f.name)
  }

  /** An earlier finding is about the same package and advisory. */
  ghost predicate SeenBefore(py: Python, rows: seq<Finding>, k: nat)
    requires k < |rows|
  {
    exists j :: 0 <= j < k && NeedsException(py, rows[j])
                && PackageText(py, rows[j]) == PackageText(py, rows[k]) && AdvisoryText(py, rows[j]) == AdvisoryText(py, rows[k])
  }

  /** The exception is for finding `k`: its package and advisory, a date that is not past,
      and, for the first finding about them, the finding's severity or none. */
  ghost predicate Excuses(py: Python, rows: seq<Finding>, k: nat, exc: map<string, string>, today: int)
    requires k < |rows|
  {
    && GoodException(py, exc)
    && py.strip(exc["package"]) == PackageText(py, rows[k]) && py.lower(py.strip(exc["advisory"])) == AdvisoryText(py, rows[k])
    && py.parseDate(exc["expires_on"]).value >= today
    && (SeenBefore(py, rows, k) || py.lower(py.strip(exc["severity"])) == ""
        || Reads(py, rows[k].severity, py.lower(py.strip(exc["severity"]))))
  }

  ghost predicate Excused(py: Python, rows: seq<Finding>, k: nat, exceptions: seq<map<string, string>>, today: int)
    requires k < |rows|
  {
    exists i :: 0 <= i < |exceptions| && Excuses(py, rows, k, exceptions[i], today)
  }

  /** What the gate promises. */
  ghost predicate Promise(py: Python, data: Json, exit: Option<int>, exceptions: seq<map<string, string>>, today: int) {
    && GoodReport(py, data, exit) && GoodExceptions(py, exceptions)
    && forall k :: 0 <= k < |Findings(py, data.entries).value| && NeedsException(py, Findings(py, data.entries).value[k]) ==>
         Excused(py, Findings(py, data.entries).value, k, exceptions, today)
  }
}
