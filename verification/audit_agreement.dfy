/** The validator's faults and the gate's rules say the same as the promise told by texts. */
module AuditAgreement {
  import opened Values
  import opened AuditReport
  import opened AuditValidate
  import opened AuditPromise

  // ----- severities

  lemma SeriousIsHigh(py: Python, severity: Json)
    ensures Serious(py, severity) <==> IsHigh(py, severity)
  {
  }

  lemma GradedIsKnown(py: Python, severity: Json)
    ensures Graded(py, severity) <==> SeverityOf(py, severity) in Severities
  {
  }

  // ----- the sections

  lemma AdvisoryFaults(py: Python, name: string, entry: Json)
    ensures GoodAdvisory(py, entry) <==> forall e :: !EntryFault(py, "advisories", name, entry, e)
  {
    if entry.Obj? {
      GradedIsKnown(py, Get(entry.entries, "severity"));
    }
    if forall e :: !EntryFault(py, "advisories", name, entry, e) {
      assert !EntryFault(py, "advisories", name, entry, BadEntry("advisories", name));
      assert !EntryFault(py, "advisories", name, entry, BadSeverity("advisories", name));
      assert !EntryFault(py, "advisories", name, entry, NoPackage(name));
    }
  }

  lemma VulnerabilityFaults(py: Python, name: string, entry: Json)
    ensures GoodVulnerability(py, entry) <==> forall e :: !EntryFault(py, "vulnerabilities", name, entry, e)
  {
    if entry.Obj? {
      GradedIsKnown(py, Get(entry.entries, "severity"));
      SeriousIsHigh(py, Get(entry.entries, "severity"));
    }
    if forall e :: !EntryFault(py, "vulnerabilities", name, entry, e) {
      assert !EntryFault(py, "vulnerabilities", name, entry, BadEntry("vulnerabilities", name));
      assert !EntryFault(py, "vulnerabilities", name, entry, BadSeverity("vulnerabilities", name));
      assert !EntryFault(py, "vulnerabilities", name, entry, BadVia(name));
      assert !EntryFault(py, "vulnerabilities", name, entry, NoEvidence(name));
    }
  }

  lemma AdvisoriesFaults(py: Python, data: Entries)
    ensures GoodAdvisories(py, data) <==> forall e :: !SectionFault(py, data, "advisories", e)
  {
    if Has(data, "advisories") {
      if Get(data, "advisories").Obj? {
        var es := SectionEntries(data, "advisories");
        if forall e :: !SectionFault(py, data, "advisories", e) {
          forall i | 0 <= i < |es| ensures GoodAdvisory(py, es[i].1) {
            forall e ensures !EntryFault(py, "advisories", es[i].0, es[i].1, e) {
              assert !SectionFault(py, data, "advisories", e);
            }
            AdvisoryFaults(py, es[i].0, es[i].1);
          }
        }
        if GoodAdvisories(py, data) {
          forall i, e | 0 <= i < |es| ensures !EntryFault(py, "advisories", es[i].0, es[i].1, e) {
            AdvisoryFaults(py, es[i].0, es[i].1);
          }
        }
      } else {
        assert SectionFault(py, data, "advisories", BadSection("advisories"));
      }
    }
  }

  lemma VulnerabilitiesFaults(py: Python, data: Entries)
    ensures GoodVulnerabilities(py, data) <==> forall e :: !SectionFault(py, data, "vulnerabilities", e)
  {
    if Has(data, "vulnerabilities") {
      if Get(data, "vulnerabilities").Obj? {
        var es := SectionEntries(data, "vulnerabilities");
        if forall e :: !SectionFault(py, data, "vulnerabilities", e) {
          forall i | 0 <= i < |es| ensures GoodVulnerability(py, es[i].1) {
            forall e ensures !EntryFault(py, "vulnerabilities", es[i].0, es[i].1, e) {
              assert !SectionFault(py, data, "vulnerabilities", e);
            }
            VulnerabilityFaults(py, es[i].0, es[i].1);
          }
        }
        if GoodVulnerabilities(py, data) {
          forall i, e | 0 <= i < |es| ensures !EntryFault(py, "vulnerabilities", es[i].0, es[i].1, e) {
            VulnerabilityFaults(py, es[i].0, es[i].1);
          }
        }
      } else {
        assert SectionFault(py, data, "vulnerabilities", BadSection("vulnerabilities"));
      }
    }
  }

  lemma MetadataFaults(data: Entries)
    ensures GoodMetadata(data) <==>
            (Get(data, "metadata").Null? || Get(data, "metadata").Obj?) && GoodCounts(Counts(data))
  {
  }

  lemma ShapeFaults(py: Python, data: Entries)
    ensures GoodShape(py, data) <==> forall e :: !ShapeFault(py, data, e)
  {
    AdvisoriesFaults(py, data);
    VulnerabilitiesFaults(py, data);
    MetadataFaults(data);
    if forall e :: !ShapeFault(py, data, e) {
      assert !ShapeFault(py, data, BadMetadata) && !ShapeFault(py, data, BadCounts);
      forall e ensures !SectionFault(py, data, "advisories", e) && !SectionFault(py, data, "vulnerabilities", e) {
        assert !ShapeFault(py, data, e);
      }
    }
  }

  // ----- the evidence

  lemma EvidencedFaults(py: Python, data: Entries, rows: seq<Finding>)
    ensures AllEvidenced(py, data, rows) <==> forall name :: !EvidenceFault(py, data, rows, NoEvidence(name))
  {
    var es := SectionEntries(data, "vulnerabilities");
    forall i | 0 <= i < |es| && es[i].1.Obj?
      ensures Serious(py, Get(es[i].1.entries, "severity")) <==> HighEntry(py, es[i])
    {
      SeriousIsHigh(py, Get(es[i].1.entries, "severity"));
    }
    if forall name :: !EvidenceFault(py, data, rows, NoEvidence(name)) {
      forall i | 0 <= i < |es| && HighEntry(py, es[i]) ensures Evidenced(rows, es[i].0) {
        assert !EvidenceFault(py, data, rows, NoEvidence(es[i].0));
      }
    }
  }

  lemma CountFaults(py: Python, data: Entries, rows: seq<Finding>, level: string)
    requires level == "high" || level == "critical"
    ensures CountsBacked(py, data, rows, level) <==> !EvidenceFault(py, data, rows, Uncounted(level))
  {
    forall k | 0 <= k < |rows| ensures Reads(py, rows[k].severity, level) <==> SeverityOf(py, rows[k].severity) == level {
    }
  }

  lemma EvidenceFaults(py: Python, data: Entries, rows: seq<Finding>)
    ensures AllEvidenced(py, data, rows) && CountsBacked(py, data, rows, "critical") && CountsBacked(py, data, rows, "high")
            <==> forall e :: !EvidenceFault(py, data, rows, e)
  {
    EvidencedFaults(py, data, rows);
    CountFaults(py, data, rows, "critical");
    CountFaults(py, data, rows, "high");
  }

  /** A report without a fault is a good one, and the other way round. */
  lemma GoodReportsAreFine(py: Python, data: Json, exit: Option<int>)
    ensures GoodReport(py, data, exit) <==> ReportFine(py, data, exit)
  {
    if GoodReport(py, data, exit) {
      ShapeFaults(py, data.entries);
      EvidenceFaults(py, data.entries, Findings(py, data.entries).value);
      NoFault(py, data.entries, exit);
    }
    if ReportFine(py, data, exit) {
      assert !Fault(py, data, exit, ExitStatus) && !Fault(py, data, exit, NotAnObject);
      FineIsGood(py, data.entries, exit);
    }
  }

  lemma FineIsGood(py: Python, data: Entries, exit: Option<int>)
    requires ReportFine(py, Obj(data), exit) && (exit.None? || exit.value in {0, 1})
    ensures GoodReport(py, Obj(data), exit)
  {
    forall e ensures !DataFault(py, data, exit, e) {
      assert !Fault(py, Obj(data), exit, e);
    }
    assert !DataFault(py, data, exit, ErrorResponse) && !DataFault(py, data, exit, NoFormat);
    assert !DataFault(py, data, exit, MalformedEvidence) && !DataFault(py, data, exit, Died) && !DataFault(py, data, exit, EmptyReport);
    forall e ensures !ShapeFault(py, data, e) && !EvidenceFault(py, data, Findings(py, data).value, e) {
      assert !DataFault(py, data, exit, e);
    }
    ShapeFaults(py, data);
    EvidenceFaults(py, data, Findings(py, data).value);
  }
}
