/**
 * The fixture-level expectations of the test suite, proved of the model.
 *
 * The seven-advisory fixture is an audit of a Vue.js application; its module
 * names, severities, dev flags and the version 1.0.0 of https-proxy-agent
 * appear in the tests. The keys and the other versions do not, so they are
 * parameters here and every statement holds whatever they are.
 */
module Fixtures {
  import opened Builtins
  import opened CliArgs
  import opened Parser
  import opened FilterProperties

  function Adv(name: string, severity: string, version: string, dev: bool): Advisory
  {
    Advisory(name, severity, [Finding(version, dev)])
  }

  /** The seven advisories in enumeration order. */
  function VueApp(keys: seq<string>, versions: seq<string>): (f: seq<Entry>)
    requires |keys| == 7 && |versions| == 7
    ensures |f| == 7
  {
    [ (keys[0], Adv("growl", "critical", versions[0], true)),
      (keys[1], Adv("debug", "low", versions[1], true)),
      (keys[2], Adv("https-proxy-agent", "high", versions[2], false)),
      (keys[3], Adv("http-proxy-agent", "high", versions[3], true)),
      (keys[4], Adv("merge", "low", versions[4], true)),
      (keys[5], Adv("webpack-dev-server", "high", versions[5], true)),
      (keys[6], Adv("handlebars", "high", versions[6], true)) ]
  }

  /** The positions of the fixture's severities in the table. */
  lemma SeverityIndices(keys: seq<string>, versions: seq<string>)
    requires |keys| == 7 && |versions| == 7
    ensures var f := VueApp(keys, versions);
            && SeverityIndex(f[0].1) == 3 && SeverityIndex(f[1].1) == 0
            && SeverityIndex(f[2].1) == 2 && SeverityIndex(f[3].1) == 2
            && SeverityIndex(f[4].1) == 0 && SeverityIndex(f[5].1) == 2
            && SeverityIndex(f[6].1) == 2
  {
    ThresholdNamesDistinct(0);
    ThresholdNamesDistinct(2);
    ThresholdNamesDistinct(3);
  }

  /** Threshold low, dev dependencies counted: all seven survive, in order. */
  lemma LowThresholdKeepsAll(keys: seq<string>, versions: seq<string>)
    requires |keys| == 7 && |versions| == 7
    ensures FilterAdvisories(VueApp(keys, versions), false, 0, []) == VueApp(keys, versions)
  {
    var f := VueApp(keys, versions);
    SeverityIndices(keys, versions);
    DevStageKeepsAll(f);
    FilterKeepsAll(f, SeverityPredicate(0));
    EmptyWhitelistKeepsAll(f);
  }

  /** Threshold high, dev dependencies counted: the five high and critical
      advisories survive, in order. */
  lemma HighThresholdKeepsFive(keys: seq<string>, versions: seq<string>)
    requires |keys| == 7 && |versions| == 7
    ensures var f := VueApp(keys, versions);
            FilterAdvisories(f, false, 2, []) == [f[0], f[2], f[3], f[5], f[6]]
  {
    var f := VueApp(keys, versions);
    SeverityIndices(keys, versions);
    DevStageKeepsAll(f);
    var p := SeverityPredicate(2);
    assert f[7..] == [];
    FilterKeptAt(f, 6, p);
    assert Filter(f[6..], p) == [f[6]];
    FilterKeptAt(f, 5, p);
    assert Filter(f[5..], p) == [f[5], f[6]];
    FilterDroppedAt(f, 4, p);
    FilterKeptAt(f, 3, p);
    assert Filter(f[3..], p) == [f[3], f[5], f[6]];
    FilterKeptAt(f, 2, p);
    assert Filter(f[2..], p) == [f[2], f[3], f[5], f[6]];
    FilterDroppedAt(f, 1, p);
    FilterKeptAt(f, 0, p);
    assert f[0..] == f;
    EmptyWhitelistKeepsAll([f[0], f[2], f[3], f[5], f[6]]);
  }

  /** With dev dependencies ignored only https-proxy-agent passes the dev
      stage. */
  lemma ProductionStage(keys: seq<string>, versions: seq<string>)
    requires |keys| == 7 && |versions| == 7
    ensures var f := VueApp(keys, versions);
            Filter(f, DevPredicate(true)) == [f[2]]
  {
    var f := VueApp(keys, versions);
    var p := DevPredicate(true);
    assert f[7..] == [];
    FilterDroppedAt(f, 6, p);
    FilterDroppedAt(f, 5, p);
    FilterDroppedAt(f, 4, p);
    FilterDroppedAt(f, 3, p);
    FilterKeptAt(f, 2, p);
    FilterDroppedAt(f, 1, p);
    FilterDroppedAt(f, 0, p);
    assert f[0..] == f;
  }

  /** Threshold high, production only: only https-proxy-agent survives. */
  lemma HighThresholdProductionOnly(keys: seq<string>, versions: seq<string>)
    requires |keys| == 7 && |versions| == 7
    ensures var f := VueApp(keys, versions);
            FilterAdvisories(f, true, 2, []) == [f[2]]
  {
    var f := VueApp(keys, versions);
    SeverityIndices(keys, versions);
    ProductionStage(keys, versions);
    FilterSingleton(f[2], SeverityPredicate(2));
    EmptyWhitelistKeepsAll([f[2]]);
  }

  /** Threshold critical, production only: nothing survives. */
  lemma CriticalThresholdProductionOnly(keys: seq<string>, versions: seq<string>)
    requires |keys| == 7 && |versions| == 7
    ensures FilterAdvisories(VueApp(keys, versions), true, 3, []) == []
  {
    var f := VueApp(keys, versions);
    SeverityIndices(keys, versions);
    ProductionStage(keys, versions);
    FilterSingleton(f[2], SeverityPredicate(3));
  }

  /** The facts about the literal strings of the whitelist tests. */
  lemma NameFacts()
    ensures ':' !in "https-proxy-agent" && ':' !in "1.0.0" && ':' !in "0.9.9"
    ensures "https-proxy-agent" + ":" + "1.0.0" == "https-proxy-agent:1.0.0"
    ensures "https-proxy-agent" + ":" + "0.9.9" == "https-proxy-agent:0.9.9"
    ensures "https-proxy-agent" + ":*" == "https-proxy-agent:*"
    ensures "https-proxy-agent-test" != "https-proxy-agent"
    ensures !StartsWith("https-proxy-agent-test", "https-proxy-agent" + ":")
  {
    assert ("https-proxy-agent" + ":")[17] == ':';
    assert "https-proxy-agent-test"[17] == '-';
  }

  /** At threshold high with dev dependencies ignored, the whitelist stage
      sees only https-proxy-agent. */
  lemma WhitelistStageInput(keys: seq<string>, versions: seq<string>, whitelist: seq<string>)
    requires |keys| == 7 && |versions| == 7
    ensures var f := VueApp(keys, versions);
            FilterAdvisories(f, true, 2, whitelist) == Filter([f[2]], WhitelistPredicate(whitelist))
  {
    var f := VueApp(keys, versions);
    SeverityIndices(keys, versions);
    ProductionStage(keys, versions);
    FilterSingleton(f[2], SeverityPredicate(2));
  }

  /** `-w https-proxy-agent:1.0.0` removes the survivor; `:0.9.9` keeps it. */
  lemma VersionWhitelistScenarios(keys: seq<string>, versions: seq<string>)
    requires |keys| == 7 && |versions| == 7
    requires versions[2] == "1.0.0"
    ensures var f := VueApp(keys, versions);
            && FilterAdvisories(f, true, 2, ["https-proxy-agent:1.0.0"]) == []
            && FilterAdvisories(f, true, 2, ["https-proxy-agent:0.9.9"]) == [f[2]]
  {
    var f := VueApp(keys, versions);
    WhitelistStageInput(keys, versions, ["https-proxy-agent:1.0.0"]);
    WhitelistStageInput(keys, versions, ["https-proxy-agent:0.9.9"]);
    NameFacts();
    VersionWhitelistStage([f[2]], "1.0.0", f[2]);
    VersionWhitelistStage([f[2]], "0.9.9", f[2]);
    FilterSingleton(f[2], WhitelistPredicate(["https-proxy-agent:1.0.0"]));
    FilterSingleton(f[2], WhitelistPredicate(["https-proxy-agent:0.9.9"]));
  }

  /** `-w https-proxy-agent` and `-w https-proxy-agent:*` remove the survivor
      whatever its version. */
  lemma WildcardWhitelistScenarios(keys: seq<string>, versions: seq<string>)
    requires |keys| == 7 && |versions| == 7
    ensures var f := VueApp(keys, versions);
            && FilterAdvisories(f, true, 2, ["https-proxy-agent"]) == []
            && FilterAdvisories(f, true, 2, ["https-proxy-agent:*"]) == []
  {
    var f := VueApp(keys, versions);
    var name := "https-proxy-agent";
    NameFacts();
    WhitelistStageInput(keys, versions, [name]);
    WhitelistStageInput(keys, versions, [name + ":*"]);
    WildcardWhitelistDropsModule([f[2]], [name], 0, f[2]);
    WildcardWhitelistDropsModule([f[2]], [name + ":*"], 0, f[2]);
    FilterSingleton(f[2], WhitelistPredicate([name]));
    FilterSingleton(f[2], WhitelistPredicate([name + ":*"]));
  }

  /** `-w https-proxy-agent-test` does not touch https-proxy-agent. */
  lemma LongerNameWhitelistScenario(keys: seq<string>, versions: seq<string>)
    requires |keys| == 7 && |versions| == 7
    ensures var f := VueApp(keys, versions);
            FilterAdvisories(f, true, 2, ["https-proxy-agent-test"]) == [f[2]]
  {
    var f := VueApp(keys, versions);
    WhitelistStageInput(keys, versions, ["https-proxy-agent-test"]);
    NameFacts();
    UnrelatedWhitelistKeepsModule([f[2]], ["https-proxy-agent-test"], f[2]);
    FilterSingleton(f[2], WhitelistPredicate(["https-proxy-agent-test"]));
  }

  // ---------------------------------------------------------------------------
  // parse_audit_results on the fixtures
  // ---------------------------------------------------------------------------

  /** The header sentence of the run with dev dependencies counted at
      threshold low. */
  lemma LowHeader()
    ensures Header(false, 0) == "The following vulnerabilities are low severity or higher:\n"
  {
    var scope := "The following vulnerabilities ";
    assert ThresholdName(0) == "low";
    assert Header(false, 0) == scope + "are " + "low" + " severity or higher:\n";
    assert scope + "are " + "low" + " severity or higher:\n"
        == "The following vulnerabilities are low severity or higher:\n" by {
      assert scope + "are " == "The following vulnerabilities are ";
      assert "The following vulnerabilities are " + "low" == "The following vulnerabilities are low";
    }
  }

  /** The header sentence of the production-only run at threshold high. */
  lemma ProductionHighHeader()
    ensures Header(true, 2) == "The following production vulnerabilities are high severity or higher:\n"
  {
    var scope := "The following production vulnerabilities ";
    assert ThresholdName(2) == "high";
    assert Header(true, 2) == scope + "are " + "high" + " severity or higher:\n";
    assert scope + "are " + "high" + " severity or higher:\n"
        == "The following production vulnerabilities are high severity or higher:\n" by {
      assert scope + "are " == "The following production vulnerabilities are ";
      assert "The following production vulnerabilities are " + "high"
          == "The following production vulnerabilities are high";
    }
  }

  /** `err === null`, text mode: the fixed message and exit code 0. */
  method NullErrorTextRun(report: Report) returns (exitCode: int, cliOutput: CliOutput)
    ensures exitCode == 0 && cliOutput == Plain("No vulnerabilities found.\n")
  {
    var data := new AuditData(report);
    exitCode, cliOutput := ParseAuditResults(None, data, 0, false, false, []);
  }

  /** `err === null`, JSON mode: the report with empty `advisories`, `actions`
      and `muted`, every other member kept, and exit code 0. */
  method NullErrorJsonRun(report: Report) returns (exitCode: int, cliOutput: CliOutput)
    ensures exitCode == 0 && cliOutput == Serialized(Report(Keyed([]), [], [], report.others))
  {
    var data := new AuditData(report);
    exitCode, cliOutput := ParseAuditResults(None, data, 0, false, true, []);
  }

  /** A non-null `err` and a report without advisories: no output, exit 0. */
  lemma ZeroVulnerabilitiesRun(report: Report, exitCode: int, cliOutput: CliOutput)
    requires report.advisories == Keyed([])
    requires AdvisoryOutcome(report, 0, false, false, [], exitCode, cliOutput)
    ensures exitCode == 0 && cliOutput == Plain("")
  {
  }

  /** Threshold low, dev dependencies counted: exit 1, the plain header and
      seven rows, growl's first. */
  lemma SevenVulnerabilitiesRun(
    keys: seq<string>, versions: seq<string>, report: Report, exitCode: int, cliOutput: CliOutput)
    requires |keys| == 7 && |versions| == 7
    requires report.advisories == Keyed(VueApp(keys, versions))
    requires AdvisoryOutcome(report, 0, false, false, [], exitCode, cliOutput)
    ensures exitCode == 1 && cliOutput.Listing?
    ensures cliOutput.header == "The following vulnerabilities are low severity or higher:\n"
    ensures cliOutput.table.head == ["module", "severity", "overview"]
    ensures |cliOutput.table.rows| == 7
    ensures cliOutput.table.rows[0] == ["growl@" + versions[0], "critical", AdvisoryUrlBase + keys[0]]
  {
    LowThresholdKeepsAll(keys, versions);
    LowHeader();
    assert "growl" + "@" + versions[0] == "growl@" + versions[0];
  }

  /** Threshold high, production only: exit 1, the production header and the
      single row for https-proxy-agent@1.0.0. */
  lemma ProductionRun(
    keys: seq<string>, versions: seq<string>, report: Report, exitCode: int, cliOutput: CliOutput)
    requires |keys| == 7 && |versions| == 7 && versions[2] == "1.0.0"
    requires report.advisories == Keyed(VueApp(keys, versions))
    requires AdvisoryOutcome(report, 2, true, false, [], exitCode, cliOutput)
    ensures exitCode == 1
    ensures cliOutput == Listing(
              "The following production vulnerabilities are high severity or higher:\n",
              Table(["module", "severity", "overview"],
                    [["https-proxy-agent@1.0.0", "high", "https://www.npmjs.com/advisories/" + keys[2]]]))
  {
    HighThresholdProductionOnly(keys, versions);
    ProductionHighHeader();
    assert "https-proxy-agent" + "@" + "1.0.0" == "https-proxy-agent@1.0.0";
    assert cliOutput.table.rows == [["https-proxy-agent@1.0.0", "high", AdvisoryUrlBase + keys[2]]];
  }

  /** JSON mode never fails: exit 0 and the report with the survivors (only
      https-proxy-agent, as dev dependencies are ignored) as its advisories. */
  lemma JsonRun(
    keys: seq<string>, versions: seq<string>, report: Report, exitCode: int, cliOutput: CliOutput)
    requires |keys| == 7 && |versions| == 7
    requires report.advisories == Keyed(VueApp(keys, versions))
    requires AdvisoryOutcome(report, 0, true, true, [], exitCode, cliOutput)
    ensures exitCode == 0
    ensures cliOutput == Serialized(report.(advisories := Listed([VueApp(keys, versions)[2]])))
    ensures cliOutput.report.advisories.pairs[0].1.moduleName == "https-proxy-agent"
  {
    var f := VueApp(keys, versions);
    SeverityIndices(keys, versions);
    ProductionStage(keys, versions);
    FilterSingleton(f[2], SeverityPredicate(0));
    EmptyWhitelistKeepsAll([f[2]]);
  }

  /** The production-only run carried out by `ParseAuditResults` itself. */
  method ProductionAudit(keys: seq<string>, versions: seq<string>, others: seq<(string, Json)>)
    returns (exitCode: int, cliOutput: CliOutput)
    requires |keys| == 7 && |versions| == 7 && versions[2] == "1.0.0"
    ensures exitCode == 1
    ensures cliOutput == Listing(
              "The following production vulnerabilities are high severity or higher:\n",
              Table(["module", "severity", "overview"],
                    [["https-proxy-agent@1.0.0", "high", "https://www.npmjs.com/advisories/" + keys[2]]]))
  {
    var data := new AuditData(Report(Keyed(VueApp(keys, versions)), [], [], others));
    exitCode, cliOutput := ParseAuditResults(Some(""), data, 2, true, false, []);
    ProductionRun(keys, versions, data.Value(), exitCode, cliOutput);
  }

  /** `-t undef`: an unknown name gives -1. */
  lemma UnknownThresholdScenario()
    ensures ParseArgs(map["threshold" := Text("undef")]) == Ok(Config(-1, false, false, None, []))
  {
    LowerOfLowerCase("undef");
  }

  /** `-t HIGH`: the name is compared after lower-casing. */
  lemma UpperCaseThresholdScenario()
    ensures ThresholdIndex("HIGH") == 2
    ensures ParseArgs(map["threshold" := Text("HIGH")]) == Ok(Config(2, false, false, None, []))
  {
    assert Lower("HIGH") == "high";
    ThresholdIndexCaseInsensitive("HIGH", 2);
  }

  /** `m:1.0.0:x` and `m:` whitelist versions `1.0.0` and the empty one. */
  lemma VersionSegmentScenarios()
    ensures WhitelistVersion("https-proxy-agent:1.0.0:x") == Some("1.0.0")
    ensures WhitelistVersion("https-proxy-agent:") == Some("")
  {
    NameFacts();
    VersionSegment("https-proxy-agent", "1.0.0", ":x");
    assert "https-proxy-agent" + ":" + "1.0.0" + ":x" == "https-proxy-agent:1.0.0:x";
    VersionSegment("https-proxy-agent", "", "");
    assert "https-proxy-agent" + ":" + "" + "" == "https-proxy-agent:";
  }

  /** `-t moderate`. */
  lemma ModerateThresholdScenario()
    ensures ParseArgs(map["threshold" := Text("moderate")]) == Ok(Config(1, false, false, None, []))
  {
    LowerOfLowerCase("moderate");
    ThresholdNamesDistinct(1);
  }

  /** `-t low`. */
  lemma LowThresholdScenario()
    ensures ParseArgs(map["threshold" := Text("low")]) == Ok(Config(0, false, false, None, []))
  {
    LowerOfLowerCase("low");
    ThresholdNamesDistinct(0);
  }

  /** `-t high -p`. */
  lemma HighProductionScenario()
    ensures ParseArgs(map["threshold" := Text("high"), IgnoreDevDep := Flag(true)]) ==
              Ok(Config(2, true, false, None, []))
  {
    LowerOfLowerCase("high");
    ThresholdNamesDistinct(2);
  }

  /** `-j`, `-r registry.npmjs.org` and two `-w` entries. */
  lemma OtherOptionScenarios()
    ensures ParseArgs(map["json" := Flag(true)]) == Ok(Config(3, false, true, None, []))
    ensures ParseArgs(map["registry" := Text("registry.npmjs.org")]) ==
              Ok(Config(3, false, false, Some(Text("registry.npmjs.org")), []))
    ensures ParseArgs(map["whitelist" := Items(["https-proxy-agent:1.0.0", "growl:1.9.2"])]) ==
              Ok(Config(3, false, false, None, ["https-proxy-agent:1.0.0", "growl:1.9.2"]))
  {
    ThresholdNamesDistinct(3);
  }
}
