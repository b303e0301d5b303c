/** Which reports are refused: command errors and unrecognised shapes, before any
    exception is applied. */
module AuditValidate {
  import opened Values
  import opened AuditReport

  datatype ReportError =
    | ExitStatus
    | NotAnObject
    | ErrorResponse
    | NoFormat
    | BadSection(key: string)
    | BadEntry(key: string, name: string)
    | BadSeverity(key: string, name: string)
    | NoPackage(name: string)
    | BadVia(name: string)
    | NoEvidence(name: string)
    | BadMetadata
    | BadCounts
    | MalformedEvidence
    | Died
    | Uncounted(level: string)
    | EmptyReport

  const Formats := ["advisories", "vulnerabilities"]

  function SectionEntries(data: Entries, key: string): Entries {
    if Get(data, key).Obj? then Get(data, key).entries else []
  }

  predicate IsHigh(py: Python, severity: Json) {
    SeverityOf(py, severity) in HighSeverities
  }

  predicate ListOrText(j: Json) {
    j.Arr? || j.Str?
  }

  // ----- what each error says

  predicate EntryFault(py: Python, key: string, name: string, entry: Json, e: ReportError) {
    match e
    case BadEntry(k, n) => k == key && n == name && !entry.Obj?
    case BadSeverity(k, n) => k == key && n == name && entry.Obj? && SeverityOf(py, Get(entry.entries, "severity")) !in Severities
    case NoPackage(n) =>
      && key == "advisories" && n == name && entry.Obj?
      && !PyTruthy(Or(Get(entry.entries, "module_name"), Get(entry.entries, "name")))
    case BadVia(n) => key == "vulnerabilities" && n == name && entry.Obj? && !ListOrText(Get(entry.entries, "via"))
    case NoEvidence(n) =>
      && key == "vulnerabilities" && n == name && entry.Obj? && ListOrText(Get(entry.entries, "via"))
      && !PyTruthy(Get(entry.entries, "via")) && IsHigh(py, Get(entry.entries, "severity"))
    case _ => false
  }

  ghost predicate SectionFault(py: Python, data: Entries, key: string, e: ReportError) {
    && Has(data, key)
    && if !Get(data, key).Obj? then e == BadSection(key)
       else exists i :: 0 <= i < |SectionEntries(data, key)|
                        && EntryFault(py, key, SectionEntries(data, key)[i].0, SectionEntries(data, key)[i].1, e)
  }

  function Counts(data: Entries): Json {
    if Get(data, "metadata").Obj? then Get(Get(data, "metadata").entries, "vulnerabilities") else Null
  }

  predicate GoodCounts(counts: Json) {
    counts.Null? || (counts.Obj? && forall i :: 0 <= i < |counts.entries| ==>
                                      counts.entries[i].1.Number? && counts.entries[i].1.n >= 0)
  }

  predicate Evidenced(rows: seq<Finding>, name: string) {
    exists k :: 0 <= k < |rows| && rows[k].name == Str(name) && PyTruthy(rows[k].advisory)
  }

  predicate Detailed(py: Python, rows: seq<Finding>, level: string) {
    exists k :: 0 <= k < |rows| && SeverityOf(py, rows[k].severity) == level
  }

  predicate HighEntry(py: Python, entry: (string, Json)) {
    entry.1.Obj? && IsHigh(py, Get(entry.1.entries, "severity"))
  }

  /** A fault that shows only once the findings have been listed. */
  ghost predicate EvidenceFault(py: Python, data: Entries, rows: seq<Finding>, e: ReportError) {
    match e
    case NoEvidence(name) =>
      exists i :: 0 <= i < |SectionEntries(data, "vulnerabilities")|
                  && SectionEntries(data, "vulnerabilities")[i].0 == name
                  && HighEntry(py, SectionEntries(data, "vulnerabilities")[i])
                  && !Evidenced(rows, name)
    case Uncounted(level) =>
      level in HighSeverities && Counts(data).Obj? && PyTruthy(Get(Counts(data).entries, level)) && !Detailed(py, rows, level)
    case _ => false
  }

  ghost predicate ShapeFault(py: Python, data: Entries, e: ReportError) {
    || SectionFault(py, data, Formats[0], e)
    || SectionFault(py, data, Formats[1], e)
    || (e == BadMetadata && !Get(data, "metadata").Null? && !Get(data, "metadata").Obj?)
    || (e == BadCounts && !GoodCounts(Counts(data)))
  }

  ghost predicate DataFault(py: Python, data: Entries, exit: Option<int>, e: ReportError) {
    || (e == ErrorResponse && Has(data, "error"))
    || (e == NoFormat && !Has(data, Formats[0]) && !Has(data, Formats[1]))
    || ShapeFault(py, data, e)
    || (e == MalformedEvidence && Findings(py, data).TypeProblem?)
    || (e == Died && Findings(py, data).KeyProblem?)
    || (Findings(py, data).Value? && EvidenceFault(py, data, Findings(py, data).value, e))
    || (e == EmptyReport && exit == Some(1) && !PyTruthy(Get(data, Formats[0])) && !PyTruthy(Get(data, Formats[1])))
  }

  ghost predicate Fault(py: Python, data: Json, exit: Option<int>, e: ReportError) {
    || (e == ExitStatus && exit.Some? && exit.value !in {0, 1})
    || (e == NotAnObject && !data.Obj?)
    || (data.Obj? && DataFault(py, data.entries, exit, e))
  }

  ghost predicate ReportFine(py: Python, data: Json, exit: Option<int>) {
    forall e :: !Fault(py, data, exit, e)
  }

  // ----- the validator

  method CheckEntry(py: Python, key: string, name: string, entry: Json) returns (errors: seq<ReportError>)
    requires key in Formats
    ensures forall e :: e in errors <==> EntryFault(py, key, name, entry, e)
  {
    if !entry.Obj? {
      return [BadEntry(key, name)];
    }
    errors := [];
    var severity := Get(entry.entries, "severity");
    var sev := if severity.Str? then NormalizeSeverity(py, severity.s) else "";
    if sev !in Severities {
      errors := errors + [BadSeverity(key, name)];
    }
    if key == "advisories" && !(PyTruthy(Get(entry.entries, "module_name")) || PyTruthy(Get(entry.entries, "name"))) {
      errors := errors + [NoPackage(name)];
    }
    if key == "vulnerabilities" {
      var via := Get(entry.entries, "via");
      if !ListOrText(via) {
        errors := errors + [BadVia(name)];
      } else if sev in HighSeverities && !PyTruthy(via) {
        errors := errors + [NoEvidence(name)];
      }
    }
  }

  method CheckSection(py: Python, data: Entries, key: string) returns (errors: seq<ReportError>)
    requires key in Formats && Has(data, key)
    ensures forall e :: e in errors <==> SectionFault(py, data, key, e)
  {
    errors := [];
    if !Get(data, key).Obj? {
      errors := [BadSection(key)];
      return;
    }
    var es := SectionEntries(data, key);
    for i := 0 to |es|
      invariant forall e :: e in errors <==> exists j :: 0 <= j < i && EntryFault(py, key, es[j].0, es[j].1, e)
    {
      var more := CheckEntry(py, key, es[i].0, es[i].1);
      ghost var before := errors;
      errors := errors + more;
      forall e ensures e in errors <==> exists j :: 0 <= j < i + 1 && EntryFault(py, key, es[j].0, es[j].1, e) {
        assert e in errors <==> e in before || e in more;
      }
    }
  }

  method CheckEvidence(py: Python, data: Entries, rows: seq<Finding>) returns (errors: seq<ReportError>)
    ensures forall e :: e in errors <==> EvidenceFault(py, data, rows, e)
  {
    errors := [];
    var es := SectionEntries(data, "vulnerabilities");
    for i := 0 to |es|
      invariant forall e :: e in errors <==>
                            e.NoEvidence? && exists j :: 0 <= j < i && es[j].0 == e.name && HighEntry(py, es[j]) && !Evidenced(rows, e.name)
    {
      ghost var before := errors;
      var bad := HighEntry(py, es[i]) && !Evidenced(rows, es[i].0);
      if bad {
        errors := errors + [NoEvidence(es[i].0)];
      }
      forall e ensures e in errors <==> e in before || (bad && e == NoEvidence(es[i].0)) {
      }
    }
    var counts := Counts(data);
    ghost var first := errors;
    var critical := counts.Obj? && PyTruthy(Get(counts.entries, "critical")) && !Detailed(py, rows, "critical");
    if critical {
      errors := errors + [Uncounted("critical")];
    }
    var high := counts.Obj? && PyTruthy(Get(counts.entries, "high")) && !Detailed(py, rows, "high");
    if high {
      errors := errors + [Uncounted("high")];
    }
    forall e ensures e in errors <==> e in first || (critical && e == Uncounted("critical")) || (high && e == Uncounted("high")) {
    }
  }

  /** The checks that need no findings. */
  method CheckShape(py: Python, data: Entries) returns (errors: seq<ReportError>)
    ensures forall e :: e in errors <==> ShapeFault(py, data, e)
  {
    errors := [];
    if Has(data, Formats[0]) {
      errors := CheckSection(py, data, Formats[0]);
    }
    if Has(data, Formats[1]) {
      var more := CheckSection(py, data, Formats[1]);
      errors := errors + more;
    }
    var metadata := Get(data, "metadata");
    if !metadata.Null? && !metadata.Obj? {
      errors := errors + [BadMetadata];
    }
    if !GoodCounts(Counts(data)) {
      errors := errors + [BadCounts];
    }
  }

  /** A report that passes every check has no fault. */
  lemma NoFault(py: Python, data: Entries, exit: Option<int>)
    requires exit.None? || exit.value in {0, 1}
    requires !Has(data, "error") && (Has(data, Formats[0]) || Has(data, Formats[1]))
    requires forall e :: !ShapeFault(py, data, e)
    requires Findings(py, data).Value? && forall e :: !EvidenceFault(py, data, Findings(py, data).value, e)
    requires exit != Some(1) || PyTruthy(Get(data, Formats[0])) || PyTruthy(Get(data, Formats[1]))
    ensures ReportFine(py, Obj(data), exit)
  {
    forall e ensures !Fault(py, Obj(data), exit, e) {
      assert !ShapeFault(py, data, e) && !EvidenceFault(py, data, Findings(py, data).value, e);
      assert !DataFault(py, data, exit, e);
    }
  }

  /** A list with a fault of the report refutes it. */
  lemma SomeFault(py: Python, data: Json, exit: Option<int>, errors: seq<ReportError>)
    requires errors != [] && Fault(py, data, exit, errors[0])
    ensures !ReportFine(py, data, exit)
  {
  }

  /** The checks of the findings, once the shape is fine. */
  method CheckListed(py: Python, data: Entries, exit: Option<int>) returns (errors: seq<ReportError>)
    requires exit.None? || exit.value in {0, 1}
    requires !Has(data, "error") && (Has(data, Formats[0]) || Has(data, Formats[1]))
    requires forall e :: !ShapeFault(py, data, e)
    ensures forall e :: e in errors ==> Fault(py, Obj(data), exit, e)
    ensures errors == [] <==> ReportFine(py, Obj(data), exit)
  {
    var findings := IterVulns(py, data);
    if !findings.Value? {
      errors := [if findings.TypeProblem? then MalformedEvidence else Died];
      SomeFault(py, Obj(data), exit, errors);
      return;
    }
    errors := CheckEvidence(py, data, findings.value);
    if exit == Some(1) && !PyTruthy(Get(data, Formats[0])) && !PyTruthy(Get(data, Formats[1])) {
      errors := errors + [EmptyReport];
    }
    if errors == [] {
      forall e ensures !EvidenceFault(py, data, findings.value, e) {
        assert e !in errors;
      }
      NoFault(py, data, exit);
    } else {
      SomeFault(py, Obj(data), exit, errors);
    }
  }

  /** `validate_audit_report`: every error is a fault of the report, and a report without
      errors has no fault. */
  method ValidateAuditReport(py: Python, data: Json, exit: Option<int>) returns (errors: seq<ReportError>)
    ensures forall e :: e in errors ==> Fault(py, data, exit, e)
    ensures errors == [] <==> ReportFine(py, data, exit)
  {
    errors := [];
    if exit.Some? && exit.value !in {0, 1} {
      errors := [ExitStatus];
    }
    if !data.Obj? {
      errors := errors + [NotAnObject];
      SomeFault(py, data, exit, errors);
      return;
    }
    if Has(data.entries, "error") {
      errors := errors + [ErrorResponse];
      SomeFault(py, data, exit, errors);
      return;
    }
    if !Has(data.entries, Formats[0]) && !Has(data.entries, Formats[1]) {
      errors := errors + [NoFormat];
      SomeFault(py, data, exit, errors);
      return;
    }
    var shape := CheckShape(py, data.entries);
    errors := errors + shape;
    if errors != [] {
      SomeFault(py, data, exit, errors);
      return;
    }
    forall e ensures !ShapeFault(py, data.entries, e) {
      assert e !in shape;
    }
    errors := CheckListed(py, data.entries, exit);
  }
}
