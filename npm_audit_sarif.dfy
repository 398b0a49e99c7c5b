/**
 * The npm-audit adapter of the SARIF report builder: it takes the advisories
 * that `npm audit` printed, turns each into an issue record (dropping repeats
 * and flagging declared exceptions as suppressed), maps npm severities to
 * SARIF result levels (SARIF 2.1.0, section 3.27.10) and decides the
 * invocation's `executionSuccessful` flag (section 3.20.14).
 */
module NpmAuditSarif {
  import opened Wrappers
  import opened Ascii
  import Dedup

  /** Help page recorded as the adapter's uri. */
  const NpmUri: string := "https://docs.npmjs.com/cli/v7/commands/npm-audit"

  /** Every npm-audit finding is located in the lock file. */
  const LockFileUri: string := "package-lock.json"

  /**
   * The fields of one npm advisory that the adapter reads, each in its string
   * form, or None where the field is missing or null.
   */
  datatype Advisory = Advisory(
    id: Option<string>,
    title: Option<string>,
    severity: Option<string>,
    overview: Option<string>,
    moduleName: Option<string>,
    patchedVersions: Option<string>,
    cwe: Option<string>,
    recommendation: Option<string>,
    vulnerableVersions: Option<string>,
    url: Option<string>)

  /**
   * The parsed `npm audit --json` output; the advisories hash keeps its key
   * order. A sequence of pairs may repeat a key, which a Ruby Hash cannot; the
   * adapter only reads the values, so nothing here depends on keys being distinct.
   */
  datatype Stdout = Stdout(advisories: Option<seq<(string, Advisory)>>)

  /** The scanner's `info` section: its output and the declared exceptions. */
  datatype Info = Info(stdout: Option<Stdout>, exceptions: Option<seq<string>>)

  /** What the adapter reads of a scan report. */
  datatype ScanReport = ScanReport(info: Option<Info>, passed: bool)

  /** The three SARIF result levels. */
  datatype Level = Note | Warning | Error

  /** The issue record `parse_issue` returns; `messageStrings` keeps key order. */
  datatype IssueRecord = IssueRecord(
    id: string,
    name: Option<string>,
    level: string,
    details: string,
    messageStrings: seq<(string, string)>,
    uri: string,
    helpUrl: Option<string>,
    suppressed: bool)

  /**
   * What one `parse_issue` call yields: nil for an id already seen, a record,
   * or the error raised when upper-casing an absent severity.
   */
  datatype ParseOutcome = Repeated | Parsed(issue: IssueRecord) | SeverityMissing

  /**
   * An invocation record. Only `executionSuccessful` is set by this adapter;
   * the fields built by the shared base are kept opaque in `baseFields`.
   */
  datatype Invocation = Invocation(executionSuccessful: bool, baseFields: map<string, string>)

  /** The message keys of every npm issue, in order. */
  const MessageKeys: seq<string> :=
    ["package", "severity", "patched_versions", "cwe", "recommendation", "vulnerable_versions"]

  /** The advisory field each message key is copied from, in the order of MessageKeys. */
  function MessageSources(adv: Advisory): seq<Option<string>> {
    [adv.moduleName, adv.severity, adv.patchedVersions, adv.cwe, adv.recommendation, adv.vulnerableVersions]
  }

  /** `to_s` of a field: its text, or "" for nil. */
  function Text(field: Option<string>): (t: string)
    ensures field.Some? ==> t == field.value
    ensures field.None? ==> t == ""
  {
    field.GetOr("")
  }

  /** The advisory's id as a string. */
  function IdOf(adv: Advisory): string {
    Text(adv.id)
  }

  function Ids(advs: seq<Advisory>): (ids: seq<string>)
    ensures |ids| == |advs|
    ensures forall i :: 0 <= i < |advs| ==> ids[i] == IdOf(advs[i])
  {
    seq(|advs|, i requires 0 <= i < |advs| => IdOf(advs[i]))
  }

  function RecordIds(records: seq<IssueRecord>): (ids: seq<string>)
    ensures |ids| == |records|
    ensures forall i :: 0 <= i < |records| ==> ids[i] == records[i].id
  {
    seq(|records|, i requires 0 <= i < |records| => records[i].id)
  }

  lemma RecordIdsAppend(records: seq<IssueRecord>, rec: IssueRecord)
    ensures RecordIds(records + [rec]) == RecordIds(records) + [rec.id]
  {
  }

  /** The values of an ordered hash, in key order. */
  function Values(entries: seq<(string, Advisory)>): (vs: seq<Advisory>)
    ensures |vs| == |entries|
    ensures forall i :: 0 <= i < |entries| ==> vs[i] == entries[i].1
  {
    if entries == [] then [] else [entries[0].1] + Values(entries[1..])
  }

  /**
   * `parse_scan_report!`: the advisories under info / stdout / advisories,
   * or none when any level of that path is missing.
   */
  function ParseScanReport(report: ScanReport): (logs: seq<Advisory>)
    ensures (report.info.None? || report.info.value.stdout.None?
             || report.info.value.stdout.value.advisories.None?) ==> logs == []
    ensures (report.info.Some? && report.info.value.stdout.Some?
             && report.info.value.stdout.value.advisories.Some?) ==>
      var entries := report.info.value.stdout.value.advisories.value;
      |logs| == |entries| && forall i :: 0 <= i < |entries| ==> logs[i] == entries[i].1
  {
    match report.info
    case None => []
    case Some(info) =>
      match info.stdout
      case None => []
      case Some(out) =>
        match out.advisories
        case None => []
        case Some(entries) => Values(entries)
  }

  /** The set of declared exceptions under info / exceptions (empty when absent). */
  function ExceptionsOf(report: ScanReport): (e: set<string>)
    ensures forall x :: x in e <==>
      report.info.Some? && report.info.value.exceptions.Some? && x in report.info.value.exceptions.value
  {
    match report.info
    case None => {}
    case Some(info) =>
      match info.exceptions
      case None => {}
      case Some(xs) => set x | x in xs
  }

  /**
   * What normalising an advisory whose id has not been seen before yields:
   * its record, or the error raised when it has no severity to upper-case.
   */
  function Normalize(adv: Advisory, exceptions: set<string>): (r: ParseOutcome)
    ensures !r.Repeated?
    ensures r.SeverityMissing? <==> adv.severity.None?
    ensures r.Parsed? ==> r.issue == Record(adv, exceptions)
  {
    if adv.severity.None? then SeverityMissing else Parsed(Record(adv, exceptions))
  }

  /**
   * The record of an advisory: its id, whether it is suppressed, the six
   * message strings in fixed order with "" for absent fields, and the lock
   * file as location.
   */
  function Record(adv: Advisory, exceptions: set<string>): (rec: IssueRecord)
    requires adv.severity.Some?
    ensures rec.id == IdOf(adv)
    ensures rec.suppressed == (IdOf(adv) in exceptions)
    ensures rec.level == Upcase(adv.severity.value)
    ensures rec.name == adv.title
    ensures rec.details == Text(adv.overview)
    ensures rec.uri == LockFileUri
    ensures rec.helpUrl == adv.url
    ensures |rec.messageStrings| == |MessageKeys|
    ensures forall i :: 0 <= i < |MessageKeys| ==>
      rec.messageStrings[i] == (MessageKeys[i], Text(MessageSources(adv)[i]))
  {
    var id := IdOf(adv);
    IssueRecord(
      id := id,
      name := adv.title,
      level := Upcase(adv.severity.value),
      details := Text(adv.overview),
      messageStrings := [
        ("package", Text(adv.moduleName)),
        ("severity", Text(adv.severity)),
        ("patched_versions", Text(adv.patchedVersions)),
        ("cwe", Text(adv.cwe)),
        ("recommendation", Text(adv.recommendation)),
        ("vulnerable_versions", Text(adv.vulnerableVersions))
      ],
      uri := LockFileUri,
      helpUrl := adv.url,
      suppressed := id in exceptions)
  }

  /** `sarif_level`: npm's severity words to SARIF levels; anything else is a note. */
  function SarifLevel(severity: string): (l: Level)
    ensures l == Error <==> severity == "HIGH" || severity == "CRITICAL"
    ensures l == Warning <==> severity == "MODERATE"
    ensures l == Note <==> severity != "MODERATE" && severity != "HIGH" && severity != "CRITICAL"
  {
    match severity
    case "LOW" => Note
    case "MODERATE" => Warning
    case "HIGH" => Error
    case "CRITICAL" => Error
    case _ => Note
  }

  /** Rank of a SARIF level, note < warning < error. */
  function LevelRank(l: Level): nat {
    match l
    case Note => 0
    case Warning => 1
    case Error => 2
  }

  /** Rank of npm's severity words, low < moderate < high < critical. */
  function SeverityRank(severity: string): nat {
    match severity
    case "MODERATE" => 1
    case "HIGH" => 2
    case "CRITICAL" => 3
    case _ => 0
  }

  /** A more severe npm finding never maps to a lower SARIF level. */
  lemma SarifLevelMonotone(a: string, b: string)
    requires SeverityRank(a) <= SeverityRank(b)
    ensures LevelRank(SarifLevel(a)) <= LevelRank(SarifLevel(b))
  {
  }

  /**
   * The level of a normalised record, fed to `sarif_level`, depends only on
   * the npm severity up to ASCII case: "high" and "critical" give error,
   * "moderate" gives warning, everything else note.
   */
  lemma ParsedLevelMapping(adv: Advisory, exceptions: set<string>)
    requires adv.severity.Some?
    ensures var l := SarifLevel(Record(adv, exceptions).level);
      var s := adv.severity.value;
      && (l == Error <==> (EqualIgnoringCase(s, "high") || EqualIgnoringCase(s, "critical")))
      && (l == Warning <==> EqualIgnoringCase(s, "moderate"))
  {
    var s := adv.severity.value;
    SeverityWordsUpcased();
    UpcaseMatchesWord(s, "high", "HIGH");
    UpcaseMatchesWord(s, "critical", "CRITICAL");
    UpcaseMatchesWord(s, "moderate", "MODERATE");
  }

  /** npm's lower-case severity words upper-case to the words `sarif_level` matches. */
  lemma SeverityWordsUpcased()
    ensures Upcase("high") == "HIGH"
    ensures Upcase("critical") == "CRITICAL"
    ensures Upcase("moderate") == "MODERATE"
  {
  }

  /** An upper-cased severity equals the upper-case form of a word exactly when it equals the word up to case. */
  lemma UpcaseMatchesWord(s: string, word: string, upper: string)
    requires upper == Upcase(word)
    ensures Upcase(s) == upper <==> EqualIgnoringCase(s, word)
  {
    UpcaseEqualIff(s, word);
  }

  /**
   * Starting from an empty seen set, the invocation succeeds exactly when the
   * scanner passed or every advisory fed in was a declared exception.
   */
  lemma ExecutionSuccessfulIff(exceptions: set<string>, advs: seq<Advisory>, passed: bool)
    ensures (Dedup.Run(exceptions, Dedup.Initial, Ids(advs)).results == [] || passed)
        <==> (passed || forall i :: 0 <= i < |advs| ==> IdOf(advs[i]) in exceptions)
  {
    Dedup.ResultsEmptyIffAllExcepted(exceptions, Ids(advs));
  }

  /**
   * Among the first `n` of `advs`, every advisory without a severity repeats
   * an id: one already in `seen` or one of an earlier advisory. So none of
   * them reached the `upcase` that raises.
   */
  ghost predicate SeveritiesPresent(seen: set<string>, advs: seq<Advisory>, n: nat)
    requires n <= |advs|
  {
    forall k {:trigger advs[k].severity} :: 0 <= k < n ==>
      advs[k].severity.Some? || IdOf(advs[k]) in seen || IdOf(advs[k]) in Ids(advs)[..k]
  }

  /** An advisory that did not raise extends SeveritiesPresent by one. */
  lemma SeveritiesPresentExtend(exceptions: set<string>, st: Dedup.State, advs: seq<Advisory>, n: nat)
    requires n < |advs| && SeveritiesPresent(st.issues, advs, n)
    requires IdOf(advs[n]) in Dedup.Run(exceptions, st, Ids(advs)[..n]).issues || advs[n].severity.Some?
    ensures SeveritiesPresent(st.issues, advs, n + 1)
  {
    Dedup.RunIssues(exceptions, st, Ids(advs)[..n]);
  }

  class NpmAuditSarif {
    const scanReport: ScanReport
    const uri: string
    const logs: seq<Advisory>
    const exceptions: set<string>
    var issues: set<string>
    var results: seq<string>

    /** The bookkeeping state as a value. */
    ghost function Snapshot(): Dedup.State
      reads this
    {
      Dedup.State(issues, results)
    }

    ghost predicate Valid()
      reads this
    {
      Dedup.Inv(exceptions, Snapshot())
    }

    constructor (scanReport: ScanReport)
      ensures this.scanReport == scanReport && uri == NpmUri
      ensures logs == ParseScanReport(scanReport)
      ensures exceptions == ExceptionsOf(scanReport)
      ensures issues == {} && results == []
      ensures Valid()
    {
      this.scanReport := scanReport;
      uri := NpmUri;
      logs := ParseScanReport(scanReport);
      exceptions := ExceptionsOf(scanReport);
      issues := {};
      results := [];
    }

    /**
     * `parse_issue`: a repeated id yields Repeated and changes nothing; a new
     * id is recorded as seen, queued as a result unless it is an exception,
     * and normalised.
     */
    method ParseIssue(issue: Advisory) returns (r: ParseOutcome)
      requires Valid()
      modifies this
      ensures Valid()
      ensures Snapshot() == Dedup.Step(exceptions, old(Snapshot()), IdOf(issue))
      ensures IdOf(issue) in old(issues) ==>
        r == Repeated && issues == old(issues) && results == old(results)
      ensures r == SeverityMissing <==> IdOf(issue) !in old(issues) && issue.severity.None?
      ensures IdOf(issue) !in old(issues) ==>
        && r == Normalize(issue, exceptions)
        && issues == old(issues) + {IdOf(issue)}
        && (results == old(results) + [IdOf(issue)] <==> IdOf(issue) !in exceptions)
        && (IdOf(issue) in exceptions ==> results == old(results))
    {
      var id := IdOf(issue);
      if id in issues {
        return Repeated;
      }
      Dedup.StepKeepsInv(exceptions, Snapshot(), id);
      if id !in exceptions {
        results := results + [id];
      }
      issues := issues + {id};
      r := Normalize(issue, exceptions);
    }

    /**
     * `build_invocations`: the base record with `executionSuccessful` set to
     * "no unexcepted advisory, or the scanner passed".
     */
    method BuildInvocations(base: Invocation) returns (inv: Invocation)
      ensures inv.executionSuccessful <==> results == [] || scanReport.passed
      ensures inv.baseFields == base.baseFields
    {
      inv := base.(executionSuccessful := results == [] || scanReport.passed);
    }

    /**
     * One turn of the harness loop: feeds `adv` to ParseIssue and appends the
     * record it yields, if any; `raised` reports the error on an absent severity.
     */
    method Collect(records: seq<IssueRecord>, adv: Advisory)
      returns (records': seq<IssueRecord>, raised: bool)
      requires Valid()
      modifies this
      ensures Valid()
      ensures Snapshot() == Dedup.Step(exceptions, old(Snapshot()), IdOf(adv))
      ensures raised <==> IdOf(adv) !in old(issues) && adv.severity.None?
      ensures raised ==> records' == records
      ensures !raised ==>
        RecordIds(records') == RecordIds(records) + (if IdOf(adv) in old(issues) then [] else [IdOf(adv)])
    {
      var r := ParseIssue(adv);
      match r {
        case Repeated =>
          records', raised := records, false;
        case Parsed(rec) =>
          RecordIdsAppend(records, rec);
          records', raised := records + [rec], false;
        case SeverityMissing =>
          records', raised := records, true;
      }
    }

    /**
     * Harness standing in for the shared base's loop: feeds `advs` to
     * ParseIssue in order and keeps the records. It stops right after the
     * first advisory whose normalisation raises; `processed` counts the
     * advisories fed, that one included.
     */
    method NormalizeAll(advs: seq<Advisory>)
      returns (records: seq<IssueRecord>, processed: nat, failed: bool)
      requires Valid()
      modifies this
      ensures Valid()
      ensures processed <= |advs|
      ensures Snapshot() == Dedup.Run(exceptions, old(Snapshot()), Ids(advs)[..processed])
      ensures failed ==> 0 < processed && advs[processed - 1].severity.None?
      ensures failed ==>
        IdOf(advs[processed - 1]) !in Dedup.Run(exceptions, old(Snapshot()), Ids(advs)[..processed - 1]).issues
      ensures failed ==>
        RecordIds(records) == Dedup.Fresh(old(issues), Ids(advs)[..processed - 1])
      ensures failed ==> SeveritiesPresent(old(issues), advs, processed - 1)
      ensures !failed ==> SeveritiesPresent(old(issues), advs, processed)
      ensures !failed ==>
        && processed == |advs|
        && RecordIds(records) == Dedup.Fresh(old(issues), Ids(advs))
    {
      ghost var start := Snapshot();
      ghost var ids := Ids(advs);
      records, processed, failed := [], 0, false;
      while processed < |advs|
        invariant processed <= |advs|
        invariant Snapshot() == Dedup.Run(exceptions, start, ids[..processed])
        invariant RecordIds(records) == Dedup.Fresh(start.issues, ids[..processed])
        invariant Valid()
        invariant SeveritiesPresent(start.issues, advs, processed)
      {
        Dedup.StepExtendsRun(exceptions, start, ids, processed);
        var raised;
        records, raised := Collect(records, advs[processed]);
        if raised {
          processed, failed := processed + 1, true;
          return;
        }
        SeveritiesPresentExtend(exceptions, start, advs, processed);
        processed := processed + 1;
      }
      assert ids[..processed] == ids;
    }
  }

  /** An advisory with only an id and a severity. */
  function Minimal(id: string, severity: string): Advisory {
    Advisory(Some(id), None, Some(severity), None, None, None, None, None, None, None)
  }

  /**
   * Client scenario: a failing scan whose only advisory is a declared
   * exception still counts as a successful execution.
   */
  method ScenarioExceptedAdvisory() {
    var adv := Minimal("X1", "high").(moduleName := Some("lodash"));
    var report := ScanReport(Some(Info(Some(Stdout(Some([("X1", adv)]))), Some(["X1"]))), false);
    var sarif := new NpmAuditSarif(report);
    assert sarif.logs == [adv];
    var r := sarif.ParseIssue(sarif.logs[0]);
    assert r.Parsed? && r.issue.suppressed && r.issue.messageStrings[0] == ("package", "lodash");
    var again := sarif.ParseIssue(adv);
    assert again == Repeated;
    var inv := sarif.BuildInvocations(Invocation(false, map[]));
    assert inv.executionSuccessful;
  }

  /**
   * Client scenario: a new "high" advisory that is not an exception fails
   * the execution of a failing scan and maps to level error.
   */
  method ScenarioNewHighAdvisory() {
    var adv := Minimal("13", "high");
    var report := ScanReport(Some(Info(Some(Stdout(Some([("13", adv)]))), None)), false);
    var sarif := new NpmAuditSarif(report);
    var r := sarif.ParseIssue(adv);
    assert r.Parsed? && !r.issue.suppressed;
    SeverityWordsUpcased();
    assert SarifLevel(r.issue.level) == Error;
    var inv := sarif.BuildInvocations(Invocation(true, map[]));
    assert !inv.executionSuccessful;
  }

  /**
   * Client run over any report: a fresh adapter normalises its advisories and
   * builds the invocation. Unless some advisory raised, the verdict holds
   * exactly when the scanner passed or every advisory is a declared exception.
   */
  method ScanVerdict(report: ScanReport) returns (verdict: Option<bool>)
    ensures verdict.None? ==>
      exists k :: 0 <= k < |ParseScanReport(report)| && ParseScanReport(report)[k].severity.None?
    ensures verdict.Some? ==>
      (verdict.value <==>
        report.passed || forall i :: 0 <= i < |ParseScanReport(report)| ==>
          IdOf(ParseScanReport(report)[i]) in ExceptionsOf(report))
  {
    var sarif := new NpmAuditSarif(report);
    var records, processed, failed := sarif.NormalizeAll(sarif.logs);
    if failed {
      return None;
    }
    assert Ids(sarif.logs)[..processed] == Ids(sarif.logs);
    ExecutionSuccessfulIff(sarif.exceptions, sarif.logs, report.passed);
    var inv := sarif.BuildInvocations(Invocation(false, map[]));
    verdict := Some(inv.executionSuccessful);
  }

  /**
   * Client scenario: a report without advisories (npm produced no parsable
   * output) is a successful execution even though the scanner did not pass.
   */
  method ScenarioNoAdvisories() {
    var sarif := new NpmAuditSarif(ScanReport(None, false));
    assert sarif.logs == [];
    var records, processed, failed := sarif.NormalizeAll(sarif.logs);
    assert !failed && records == [] && sarif.results == [];
    var inv := sarif.BuildInvocations(Invocation(false, map[]));
    assert inv.executionSuccessful;
  }
}
