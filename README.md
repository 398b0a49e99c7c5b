# npm-audit SARIF adapter, modelled in Dafny

This project models `Sarif::NPMAuditSarif`, the adapter that turns the advisories
printed by `npm audit --json` into SARIF issue records. The adapter does four things:

- It takes the advisory hash out of the scan report. When the hash is absent it
  yields nothing (`parse_scan_report!`).
- It normalises each advisory (`parse_issue`). It keeps a set of advisory ids already
  seen (`@issues`) and a list of ids that are not declared exceptions (`@results`).
  A repeated id yields nil, so the first occurrence wins. A new id yields a record
  with a fixed set of string-coerced fields and a `suppressed` flag.
- It maps npm severity words to the three SARIF result levels (`sarif_level`;
  SARIF 2.1.0, section 3.27.10). Unknown words map to note.
- It sets the invocation's `executionSuccessful` flag (SARIF 2.1.0, section 3.20.14).
  A scan counts as successful when the scanner passed, or when every new advisory
  was a declared exception.

Layout:

- `wrappers.dfy`: `Option`, standing for Ruby's nil versus a present value.
- `ascii.dfy`: ASCII upper-casing, the part of `String#upcase` the adapter relies on.
- `dedup.dfy`: the seen-set / results bookkeeping as values. `Step` is one
  `parse_issue` call and `Run` a sequence of calls. `Fresh` and `NotExcepted` are
  independent reference definitions, and lemmas tie `Run` to them.
- `npm_audit_sarif.dfy`: the report and advisory data, the record builder, the severity
  table and the class `NpmAuditSarif`. The class has the Ruby object's fields:
  `exceptions`, `issues`, `results`, `logs` and `scanReport`. Its methods are
  `ParseIssue` and `BuildInvocations`, plus `NormalizeAll`, a harness loop (see below).

Notes on the code's own behaviour, which the model follows:

- `issue[:severity].upcase` (lib/sarif/npm_audit_sarif.rb:29) raises on nil. It does
  so after `@results` and `@issues` have been updated (lines 24-25). `ParseIssue`
  returns `SeverityMissing` in that case, with the bookkeeping state already changed.
  Of the other fields, `name` and `help_url` keep nil (lines 28 and 38). The rest
  go through `to_s`, so nil becomes "".
- The adapter uses three SARIF levels: note, warning and error.
- `build_invocations` reads `@scan_report.passed?`, the adapter's own scan report,
  and not the `scan_report` argument it receives.
- A report without advisories yields an empty `@results`. That includes a report
  whose `info`, `stdout` or `advisories` entry is missing. Such a report is
  therefore a successful execution even when the scanner did not pass
  (`ScenarioNoAdvisories`).

## Model

| member | source | states |
|---|---|---|
| NpmAuditSarif.ParseScanReport | lib/sarif/npm_audit_sarif.rb:13-18 | no advisories when info, stdout or advisories is missing; otherwise the advisory values, in hash order |
| NpmAuditSarif.Values | lib/sarif/npm_audit_sarif.rb:17 | the values of an ordered hash: same length, i-th value of the i-th entry |
| NpmAuditSarif.ExceptionsOf | lib/sarif/npm_audit_sarif.rb:9 | an id is an exception exactly when it is listed under info / exceptions; an absent list gives the empty set |
| NpmAuditSarif.NpmAuditSarif.constructor | lib/sarif/npm_audit_sarif.rb:5-11 | starts with nothing seen and no results, the npm help uri, the parsed advisories and the exception set, and the invariant holds |
| NpmAuditSarif.NpmAuditSarif.ParseIssue | lib/sarif/npm_audit_sarif.rb:20-41 | a seen id yields nil and changes neither set nor list; a new id is added to the seen set, appended to results iff it is not an exception, and normalised; it raises exactly when the id is new and the severity is absent; the invariant is kept |
| NpmAuditSarif.Normalize | lib/sarif/npm_audit_sarif.rb:26-40 | never nil; raises exactly when the severity is absent; otherwise yields the record of the advisory |
| NpmAuditSarif.Record | lib/sarif/npm_audit_sarif.rb:26-40 | id is the advisory id as a string; suppressed iff the id is an exception; level is the upper-cased severity; uri is package-lock.json; the six message keys come in fixed order, each with its field's text or "" |
| NpmAuditSarif.Text | lib/sarif/npm_audit_sarif.rb:30-36 | `to_s`: a present field's text, "" for nil |
| NpmAuditSarif.SarifLevel | lib/sarif/npm_audit_sarif.rb:43-56 | total; error iff HIGH or CRITICAL, warning iff MODERATE, note for LOW and every other string |
| NpmAuditSarif.SarifLevelMonotone | lib/sarif/npm_audit_sarif.rb:43-56 | a more severe npm word never maps to a lower SARIF level |
| NpmAuditSarif.ParsedLevelMapping | lib/sarif/npm_audit_sarif.rb:29 | the record's level, fed to the severity table, is error iff the npm severity is "high" or "critical" up to ASCII case, and warning iff it is "moderate" |
| Ascii.Upcase | lib/sarif/npm_audit_sarif.rb:29 | same length; each character upper-cased (ASCII letters only) |
| Ascii.UpcaseIdempotent | lib/sarif/npm_audit_sarif.rb:29 | upper-casing twice equals upper-casing once |
| Ascii.UpcaseEqualIff | lib/sarif/npm_audit_sarif.rb:29 | two upper-cased strings are equal iff the originals are equal up to ASCII case, where equality up to case is defined per character, independently of upper-casing |
| NpmAuditSarif.NpmAuditSarif.BuildInvocations | lib/sarif/npm_audit_sarif.rb:58-63 | executionSuccessful iff the results list is empty or the scan passed; every other field of the base invocation is unchanged |
| NpmAuditSarif.ExecutionSuccessfulIff | lib/sarif/npm_audit_sarif.rb:58-62 | after normalising advisories from a fresh adapter, the verdict holds iff the scan passed or every advisory id is an exception |
| NpmAuditSarif.NpmAuditSarif.NormalizeAll | lib/sarif/npm_audit_sarif.rb:20-29 | harness: feeding advisories in order leaves the state of `Run` over their ids; the records' ids are the new ids, each once, in order of first appearance; it stops exactly at the first advisory whose id is new and whose severity is absent: on failure that advisory is the last fed and every earlier one had a severity or a repeated id; a complete run met no such advisory |
| NpmAuditSarif.NpmAuditSarif.Collect | lib/sarif/npm_audit_sarif.rb:20-29 | one turn of the harness: the state takes one `Step`; it raises iff the id is new and the severity absent; otherwise the record list gains the id exactly when it is new |
| NpmAuditSarif.ScanVerdict | lib/sarif/npm_audit_sarif.rb:58-62 | for any report, a fresh adapter that normalises its advisories without raising reports success iff the scan passed or every advisory id is a declared exception; if it raises, some advisory lacks a severity |
| Dedup.Step | lib/sarif/npm_audit_sarif.rb:21-25 | a seen id changes nothing; a new id joins the seen set and is appended to results iff it is not an exception |
| Dedup.StepKeepsInv | lib/sarif/npm_audit_sarif.rb:22-25 | one call keeps results distinct, within the seen set and free of exceptions |
| Dedup.RunKeepsInv | lib/sarif/npm_audit_sarif.rb:22-25 | any sequence of calls keeps that invariant |
| Dedup.RunIssues | lib/sarif/npm_audit_sarif.rb:25 | after a run the seen set is the old one plus exactly the ids fed |
| Dedup.RunResults | lib/sarif/npm_audit_sarif.rb:22-24 | a run appends to results exactly the unseen, non-excepted ids, each once, in order of first appearance |
| Dedup.RunOfSeenIsIdentity | lib/sarif/npm_audit_sarif.rb:22 | feeding only seen ids changes nothing |
| Dedup.RunIdempotent | lib/sarif/npm_audit_sarif.rb:21-25 | normalising the same advisories a second time changes nothing |
| Dedup.ResultsEmptyIffAllExcepted | lib/sarif/npm_audit_sarif.rb:24 | from an empty state, results stay empty iff every id fed is an exception |

## Left out

- Scanner applicability and metadata (`should_run?`, the lock-file check, version validity, supported languages). They depend on repository file discovery and the external `npm` binary.
- The shared base class is not part of this model. That covers the base `build_invocations` (its record is a parameter, opaque apart from `executionSuccessful`), the values of `SARIF_WARNINGS` (modelled as the three-value `Level`), the initialisation of `@issues` (taken as the empty set), and the loop that feeds `@logs` to `parse_issue`. `NormalizeAll` is a harness standing in for that loop; how the base handles the error raised on an absent severity is not modelled.
- JSON serialisation, the report object, the rule catalogue and `ruleIndex` are not part of this model.
- The Brakeman adapter is not part of this model.
- `to_s` of non-string values (numeric advisory ids, a `cwe` given as an array) is not modelled. Each advisory field is taken to be already in its string form.
- A declared exception that is not a string (for example an integer in the configuration) never matches a string id in Ruby. The model has string exceptions only.
- `Hash#dig` raising when an intermediate value is not a hash (for example a string `stdout`) is not modelled. An intermediate level is either a hash or absent.
- Ascii.Upcase: upper-cases ASCII letters only, whereas Ruby's `String#upcase` also maps non-ASCII letters. npm severities are ASCII words.
- NpmAuditSarif.NpmAuditSarif.NormalizeAll: states the records' ids, not their contents, because `ParseIssue` already states each record's contents per call.
- The `{ "text": ... }` wrapper around each message string is flattened to a (key, text) pair.
