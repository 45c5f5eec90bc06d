/**
 * The result classifier: the three-stage advisory filter (dev scope,
 * severity, whitelist) and the turning of an audit report into an exit code
 * and the text the command line prints.
 */
module Parser {
  import opened Builtins
  import opened CliArgs

  // ---------------------------------------------------------------------------
  // Data model
  // ---------------------------------------------------------------------------

  /** One occurrence of the vulnerable module in the dependency tree; a missing
      `dev` flag reads as `false`. */
  datatype Finding = Finding(version: string, dev: bool)

  /** The findings of an advisory; the classifier reads the first one
      unguarded, so there is always at least one. */
  type Findings = s: seq<Finding> | |s| > 0 witness [Finding("", false)]

  datatype Advisory = Advisory(moduleName: string, severity: string, findings: Findings)

  /** One `[key, advisory]` pair of `Object.entries(data.advisories)`; the key
      is the advisory identifier. */
  type Entry = (string, Advisory)

  /** Any other JSON value carried through the report unchanged (`actions`,
      `muted`, `metadata`, `runId`, ...). */
  datatype Json =
    | JNull
    | JBool(b: bool)
    | JNumber(n: int)
    | JString(s: string)
    | JArray(elements: seq<Json>)
    | JObject(members: seq<(string, Json)>)

  /** The `advisories` member of a report: the object keyed by identifier that
      the audit produces (as its entries, in enumeration order), or the array of
      `[key, advisory]` pairs the JSON output puts in its place. */
  datatype AdvisoryCollection = Keyed(entries: seq<Entry>) | Listed(pairs: seq<Entry>)

  /** A parsed audit report; `others` holds every member besides the three the
      classifier touches. */
  datatype Report = Report(
    advisories: AdvisoryCollection,
    actions: seq<Json>,
    muted: seq<Json>,
    others: seq<(string, Json)>)

  /** The parsed audit report as the caller's object, which the classifier may
      update in place. */
  class AuditData {
    var advisories: AdvisoryCollection
    var actions: seq<Json>
    var muted: seq<Json>
    var others: seq<(string, Json)>

    constructor (r: Report)
      ensures Value() == r
    {
      advisories, actions, muted, others := r.advisories, r.actions, r.muted, r.others;
    }

    /** The report the object currently holds. */
    function Value(): Report
      reads this
    {
      Report(advisories, actions, muted, others)
    }
  }

  /** The cli-table contents: the heading cells and one list of cells per row. */
  datatype Table = Table(head: seq<string>, rows: seq<seq<string>>)

  /** What the classifier hands back for printing. */
  datatype CliOutput =
    | Plain(text: string)
      // the report, as `JSON.stringify(report, null, 2)` followed by a newline
    | Serialized(report: Report)
      // a header sentence, then the rendered table, then a newline
    | Listing(header: string, table: Table)

  const NoVulnerabilitiesMessage: string := "No vulnerabilities found.\n"
  const AdvisoryUrlBase: string := "https://www.npmjs.com/advisories/"
  const TableHead: seq<string> := ["module", "severity", "overview"]

  // ---------------------------------------------------------------------------
  // The three filter stages
  // ---------------------------------------------------------------------------

  /** Dev stage: an advisory is kept unless its first finding is a dev
      dependency and dev dependencies are ignored. */
  predicate PassesDev(e: Entry, ignoreDev: bool)
  {
    !(e.1.findings[0].dev && ignoreDev)
  }

  /** The position of an advisory's severity in the table, -1 when unknown. */
  function SeverityIndex(a: Advisory): (i: int)
    ensures -1 <= i < |ValidThresholds|
    ensures i == -1 <==> a.severity !in ValidThresholds
    ensures 0 <= i ==> ValidThresholds[i] == a.severity
  {
    IndexOf(ValidThresholds, a.severity)
  }

  /** Severity stage: ties with the threshold are kept. */
  predicate PassesSeverity(e: Entry, threshold: int)
  {
    SeverityIndex(e.1) >= threshold
  }

  /** `x` is the piece of `entry` between its first colon and the next one (or
      the end): `entry` is the colon-free `h`, a colon, `x`, and a rest `t`
      that is empty or starts with a colon. */
  predicate SegmentAfterFirstColon(entry: string, h: string, x: string, t: string)
  {
    ':' !in h && ':' !in x && entry == h + [':'] + x + t && (t == [] || t[0] == ':')
  }

  /** `entry.split(':')[1]`: the version part of a whitelist entry, `None`
      (JavaScript's `undefined`) when the entry has no colon. */
  function WhitelistVersion(entry: string): (v: Option<string>)
    ensures v.None? <==> ':' !in entry
    ensures v.Some? ==> exists h, t :: SegmentAfterFirstColon(entry, h, v.value, t)
  {
    JoinSplit(entry, ':');
    var parts := Split(entry, ':');
    if |parts| > 1 then
      var t := if |parts| == 2 then [] else [':'] + Join(parts[2..], ':');
      assert Join(parts[1..], ':') == parts[1] + t;
      assert entry == parts[0] + [':'] + parts[1] + t;
      assert SegmentAfterFirstColon(entry, parts[0], parts[1], t);
      Some(parts[1])
    else
      None
  }

  /** One whitelist entry exempts the advisory for module `name` whose first
      finding has version `version`. */
  predicate Suppresses(entry: string, name: string, version: string)
  {
    (StartsWith(entry, name + ":") || entry == name) &&
    var v := WhitelistVersion(entry);
    v == None || v == Some("*") || v == Some(version)
  }

  /** The loop over the whitelist: some entry exempts the advisory. */
  predicate Whitelisted(whitelist: seq<string>, name: string, version: string)
    decreases |whitelist|
  {
    whitelist != [] &&
    (Suppresses(whitelist[0], name, version) || Whitelisted(whitelist[1..], name, version))
  }

  /** Whitelist stage. */
  predicate PassesWhitelist(e: Entry, whitelist: seq<string>)
  {
    !Whitelisted(whitelist, e.1.moduleName, e.1.findings[0].version)
  }

  function DevPredicate(ignoreDev: bool): Entry -> bool
  {
    e => PassesDev(e, ignoreDev)
  }

  function SeverityPredicate(threshold: int): Entry -> bool
  {
    e => PassesSeverity(e, threshold)
  }

  function WhitelistPredicate(whitelist: seq<string>): Entry -> bool
  {
    e => PassesWhitelist(e, whitelist)
  }

  /** The conjunction of the three stages. */
  function Survives(ignoreDev: bool, threshold: int, whitelist: seq<string>): Entry -> bool
  {
    e => PassesDev(e, ignoreDev) && PassesSeverity(e, threshold) && PassesWhitelist(e, whitelist)
  }

  /** `filter_advisories`: the three order-preserving stages in turn. */
  function FilterAdvisories(advisories: seq<Entry>, ignoreDev: bool, threshold: int, whitelist: seq<string>)
    : (flagged: seq<Entry>)
    ensures |flagged| <= |advisories|
    ensures forall e :: e in flagged <==>
              e in advisories && PassesDev(e, ignoreDev) && PassesSeverity(e, threshold) && PassesWhitelist(e, whitelist)
  {
    var byDev := Filter(advisories, DevPredicate(ignoreDev));
    var bySeverity := Filter(byDev, SeverityPredicate(threshold));
    FilterMembers(advisories, DevPredicate(ignoreDev));
    FilterMembers(byDev, SeverityPredicate(threshold));
    FilterMembers(bySeverity, WhitelistPredicate(whitelist));
    Filter(bySeverity, WhitelistPredicate(whitelist))
  }

  // ---------------------------------------------------------------------------
  // Output
  // ---------------------------------------------------------------------------

  /** `validThresholds[threshold]` as string concatenation sees it: an index
      outside the table reads `undefined`. */
  function ThresholdName(threshold: int): (name: string)
    ensures IndexOf(ValidThresholds, name) == if 0 <= threshold < |ValidThresholds| then threshold else -1
  {
    if 0 <= threshold < |ValidThresholds| then
      ThresholdNamesDistinct(threshold);
      ValidThresholds[threshold]
    else
      "undefined"
  }

  /** The sentence printed above the table. */
  function Header(ignoreDev: bool, threshold: int): string
  {
    var scope := if ignoreDev then "The following production vulnerabilities "
                 else "The following vulnerabilities ";
    scope + "are " + ThresholdName(threshold) + " severity or higher:\n"
  }

  /** The table row for one advisory: `name@version`, severity, reference URL. */
  function Row(e: Entry): seq<string>
  {
    [e.1.moduleName + "@" + e.1.findings[0].version, e.1.severity, AdvisoryUrlBase + e.0]
  }

  /** The outcome the `err !== null` branch promises for a report: JSON mode
      never fails and emits the report with `advisories` replaced by the
      survivors; text mode fails exactly when something survives, and then
      prints the header and one row per survivor, in order. */
  predicate AdvisoryOutcome(
    report: Report, threshold: int, ignoreDev: bool, jsonOutput: bool, whitelist: seq<string>,
    exitCode: int, cliOutput: CliOutput)
    requires report.advisories.Keyed?
  {
    var flagged := FilterAdvisories(report.advisories.entries, ignoreDev, threshold, whitelist);
    && (jsonOutput ==>
          exitCode == 0 && cliOutput == Serialized(report.(advisories := Listed(flagged))))
    && (!jsonOutput && flagged == [] ==>
          exitCode == 0 && cliOutput == Plain(""))
    && (!jsonOutput && flagged != [] ==>
          && exitCode == 1
          && cliOutput.Listing?
          && cliOutput.header == Header(ignoreDev, threshold)
          && cliOutput.table.head == TableHead
          && |cliOutput.table.rows| == |flagged|
          && forall i :: 0 <= i < |flagged| ==> cliOutput.table.rows[i] == Row(flagged[i]))
  }

  /** The `forEach` that pushes one row per flagged advisory into the table. */
  method TableRows(flagged: seq<Entry>) returns (rows: seq<seq<string>>)
    ensures |rows| == |flagged|
    ensures forall k :: 0 <= k < |flagged| ==> rows[k] == Row(flagged[k])
  {
    rows := [];
    for i := 0 to |flagged|
      invariant |rows| == i
      invariant forall k :: 0 <= k < i ==> rows[k] == Row(flagged[k])
    {
      var advisory := flagged[i];
      var libraryName := advisory.1.moduleName;
      var libraryVersion := advisory.1.findings[0].version;
      var advisoryOverview := AdvisoryUrlBase + advisory.0;
      var severity := advisory.1.severity;
      rows := rows + [[libraryName + "@" + libraryVersion, severity, advisoryOverview]];
    }
  }

  /** The `err !== null` branch of `parse_audit_results`: filter the report's
      advisories and render the survivors. Changes nothing. */
  method ReportAdvisories(report: Report, threshold: int, ignoreDev: bool, jsonOutput: bool, whitelist: seq<string>)
    returns (exitCode: int, cliOutput: CliOutput)
    requires report.advisories.Keyed?
    ensures AdvisoryOutcome(report, threshold, ignoreDev, jsonOutput, whitelist, exitCode, cliOutput)
  {
    exitCode := 0;
    var advisories := report.advisories.entries;
    var flaggedDependencies := FilterAdvisories(advisories, ignoreDev, threshold, whitelist);
    if jsonOutput {
      var retVal := report.(advisories := Listed(flaggedDependencies));
      cliOutput := Serialized(retVal);
    } else if |flaggedDependencies| > 0 {
      var scope := if ignoreDev then "The following production vulnerabilities "
                   else "The following vulnerabilities ";
      var header := "";
      header := header + scope;
      assert header == scope;  // "" + scope is scope: the step the concatenations below build on
      header := header + "are ";
      header := header + ThresholdName(threshold);
      header := header + " severity or higher:\n";
      exitCode := 1;
      var rows := TableRows(flaggedDependencies);
      assert header == Header(ignoreDev, threshold);
      cliOutput := Listing(header, Table(TableHead, rows));
    } else {
      cliOutput := Plain("");
    }
  }

  /** The `err === null` branch: no vulnerabilities. In JSON mode the caller's
      report is emptied of advisories, actions and muted entries in place and
      then serialised. */
  method ReportNoVulnerabilities(data: AuditData, jsonOutput: bool)
    returns (exitCode: int, cliOutput: CliOutput)
    modifies data
    ensures exitCode == 0
    ensures jsonOutput ==>
              data.Value() == old(data.Value()).(advisories := Keyed([]), actions := [], muted := []) &&
              cliOutput == Serialized(data.Value())
    ensures !jsonOutput ==> data.Value() == old(data.Value()) && cliOutput == Plain(NoVulnerabilitiesMessage)
  {
    exitCode := 0;
    if jsonOutput {
      data.advisories := Keyed([]);
      data.actions := [];
      data.muted := [];
      cliOutput := Serialized(data.Value());
    } else {
      cliOutput := Plain(NoVulnerabilitiesMessage);
    }
  }

  /** `parse_audit_results`; `err == None` stands for `err === null`. */
  method ParseAuditResults(
    err: Option<string>, data: AuditData, threshold: int, ignoreDev: bool, jsonOutput: bool, whitelist: seq<string>)
    returns (exitCode: int, cliOutput: CliOutput)
    requires err.Some? ==> data.advisories.Keyed?
    modifies data
    ensures err.None? ==> exitCode == 0
    ensures err.None? && !jsonOutput ==>
              data.Value() == old(data.Value()) && cliOutput == Plain(NoVulnerabilitiesMessage)
    ensures err.None? && jsonOutput ==>
              data.Value() == old(data.Value()).(advisories := Keyed([]), actions := [], muted := []) &&
              cliOutput == Serialized(data.Value())
    ensures err.Some? ==> data.Value() == old(data.Value())
    ensures err.Some? ==>
              AdvisoryOutcome(old(data.Value()), threshold, ignoreDev, jsonOutput, whitelist, exitCode, cliOutput)
  {
    if err.None? {
      exitCode, cliOutput := ReportNoVulnerabilities(data, jsonOutput);
    } else {
      exitCode, cliOutput := ReportAdvisories(data.Value(), threshold, ignoreDev, jsonOutput, whitelist);
    }
  }
}
