/**
 * What the advisory filter guarantees: it keeps an order-preserving
 * subsequence of its input, exactly the advisories that pass all three stages,
 * and each stage behaves as its policy option says.
 */
module FilterProperties {
  import opened Builtins
  import opened CliArgs
  import opened Parser

  // ---------------------------------------------------------------------------
  // The pipeline as a whole
  // ---------------------------------------------------------------------------

  /** The three stages in turn are one filter by the conjunction of the three
      stage predicates. */
  lemma FilterAdvisoriesIsConjunction(s: seq<Entry>, ignoreDev: bool, threshold: int, whitelist: seq<string>)
    ensures FilterAdvisories(s, ignoreDev, threshold, whitelist) == Filter(s, Survives(ignoreDev, threshold, whitelist))
  {
    var devAndSeverity := (e: Entry) => PassesDev(e, ignoreDev) && PassesSeverity(e, threshold);
    FilterFusion(s, DevPredicate(ignoreDev), SeverityPredicate(threshold), devAndSeverity);
    FilterFusion(s, devAndSeverity, WhitelistPredicate(whitelist), Survives(ignoreDev, threshold, whitelist));
  }

  /** The result never reorders or invents advisories. */
  lemma FilterAdvisoriesIsSubsequence(s: seq<Entry>, ignoreDev: bool, threshold: int, whitelist: seq<string>)
    ensures IsSubsequence(FilterAdvisories(s, ignoreDev, threshold, whitelist), s)
  {
    FilterAdvisoriesIsConjunction(s, ignoreDev, threshold, whitelist);
    FilterIsSubsequence(s, Survives(ignoreDev, threshold, whitelist));
  }

  /** Filtering an already filtered list with the same policy changes nothing. */
  lemma FilterAdvisoriesIdempotent(s: seq<Entry>, ignoreDev: bool, threshold: int, whitelist: seq<string>)
    ensures var once := FilterAdvisories(s, ignoreDev, threshold, whitelist);
            FilterAdvisories(once, ignoreDev, threshold, whitelist) == once
  {
    var keep := Survives(ignoreDev, threshold, whitelist);
    FilterAdvisoriesIsConjunction(s, ignoreDev, threshold, whitelist);
    FilterAdvisoriesIsConjunction(Filter(s, keep), ignoreDev, threshold, whitelist);
    FilterIdempotent(s, keep);
  }

  /** Raising the threshold can only remove advisories from the result. */
  lemma FilterAdvisoriesThresholdMonotone(
    s: seq<Entry>, ignoreDev: bool, lower: int, higher: int, whitelist: seq<string>)
    requires lower <= higher
    ensures IsSubsequence(FilterAdvisories(s, ignoreDev, higher, whitelist),
                          FilterAdvisories(s, ignoreDev, lower, whitelist))
  {
    FilterAdvisoriesIsConjunction(s, ignoreDev, lower, whitelist);
    FilterAdvisoriesIsConjunction(s, ignoreDev, higher, whitelist);
    FilterMonotone(s, Survives(ignoreDev, lower, whitelist), Survives(ignoreDev, higher, whitelist));
  }

  // ---------------------------------------------------------------------------
  // Dev stage
  // ---------------------------------------------------------------------------

  /** When dev dependencies are not ignored the dev stage drops nothing. */
  lemma DevStageKeepsAll(s: seq<Entry>)
    ensures Filter(s, DevPredicate(false)) == s
  {
    FilterKeepsAll(s, DevPredicate(false));
  }

  /** When they are ignored an advisory is dropped iff its first finding is a
      dev dependency. */
  lemma DevStageIgnoring(s: seq<Entry>, e: Entry)
    ensures e in Filter(s, DevPredicate(true)) <==> e in s && !e.1.findings[0].dev
  {
    FilterMembership(s, DevPredicate(true), e);
  }

  // ---------------------------------------------------------------------------
  // Severity stage
  // ---------------------------------------------------------------------------

  /** An advisory survives iff its severity's position is at least the
      threshold; an unknown severity counts as -1. */
  lemma SeverityStageMembership(s: seq<Entry>, threshold: int, e: Entry)
    ensures e in Filter(s, SeverityPredicate(threshold)) <==>
              e in s && IndexOf(ValidThresholds, e.1.severity) >= threshold
  {
    FilterMembership(s, SeverityPredicate(threshold), e);
  }

  /** An advisory whose severity is the threshold's own name survives, and so
      does every more severe one. */
  lemma SeverityAtOrAboveThresholdPasses(e: Entry, threshold: int, level: int)
    requires 0 <= threshold <= level < |ValidThresholds|
    requires e.1.severity == ValidThresholds[level]
    ensures PassesSeverity(e, threshold)
  {
    ThresholdNamesDistinct(level);
  }

  // ---------------------------------------------------------------------------
  // Whitelist stage
  // ---------------------------------------------------------------------------

  /** The whitelist loop exempts an advisory iff some entry suppresses it. */
  lemma {:induction false} WhitelistedIffSomeEntry(whitelist: seq<string>, name: string, version: string)
    ensures Whitelisted(whitelist, name, version) <==>
              exists i :: 0 <= i < |whitelist| && Suppresses(whitelist[i], name, version)
    decreases |whitelist|
  {
    if whitelist != [] {
      WhitelistedIffSomeEntry(whitelist[1..], name, version);
      if Suppresses(whitelist[0], name, version) {
        assert 0 < |whitelist| && Suppresses(whitelist[0], name, version);
      } else if exists i :: 0 <= i < |whitelist| && Suppresses(whitelist[i], name, version) {
        var i :| 0 <= i < |whitelist| && Suppresses(whitelist[i], name, version);
        assert whitelist[1..][i - 1] == whitelist[i];
      }
    }
  }

  /** The version part of `m:v` followed by nothing or by `:...` is exactly
      `v`, for a colon-free `m` and `v`. */
  lemma VersionSegment(name: string, v: string, rest: string)
    requires ':' !in name && ':' !in v
    requires rest == [] || rest[0] == ':'
    ensures WhitelistVersion(name + ":" + v + rest) == Some(v)
  {
    var entry := name + ":" + v + rest;
    assert entry == name + [':'] + (v + rest);
    SplitAfterHead(name, ':', v + rest);
    if rest == [] {
      assert v + rest == v;
      SplitWithoutSeparator(v, ':');
    } else {
      assert v + rest == v + [':'] + rest[1..];
      SplitAfterHead(v, ':', rest[1..]);
    }
  }

  /** An entry `m` or `m:*` suppresses every advisory of module `m`, whatever
      its version. */
  lemma BareOrWildcardEntrySuppresses(name: string, entry: string, version: string)
    requires ':' !in name
    requires entry == name || entry == name + ":*"
    ensures Suppresses(entry, name, version)
  {
    if entry == name {
      SplitWithoutSeparator(name, ':');
    } else {
      assert entry == name + [':'] + "*";
      SplitAfterHead(name, ':', "*");
      SplitWithoutSeparator("*", ':');
    }
  }

  /** An entry `m:v` suppresses an advisory of module `m` iff the version of
      its first finding is `v`. */
  lemma VersionEntrySuppresses(name: string, v: string, version: string)
    requires ':' !in name && ':' !in v && v != "*"
    ensures Suppresses(name + ":" + v, name, version) <==> version == v
  {
    assert name + ":" + v == name + [':'] + v;
    SplitAfterHead(name, ':', v);
    SplitWithoutSeparator(v, ':');
    assert StartsWith(name + ":" + v, name + ":");
  }

  /** An entry that is neither `m` nor starts with `m:` never suppresses an
      advisory of module `m`. */
  lemma UnrelatedEntryNoEffect(name: string, entry: string, version: string)
    requires entry != name && !StartsWith(entry, name + ":")
    ensures !Suppresses(entry, name, version)
  {
  }

  /** A whitelist holding `m` or `m:*` removes every advisory of module `m`. */
  lemma WildcardWhitelistDropsModule(s: seq<Entry>, whitelist: seq<string>, i: int, e: Entry)
    requires 0 <= i < |whitelist|
    requires ':' !in e.1.moduleName
    requires whitelist[i] == e.1.moduleName || whitelist[i] == e.1.moduleName + ":*"
    ensures e !in Filter(s, WhitelistPredicate(whitelist))
  {
    BareOrWildcardEntrySuppresses(e.1.moduleName, whitelist[i], e.1.findings[0].version);
    WhitelistedIffSomeEntry(whitelist, e.1.moduleName, e.1.findings[0].version);
    FilterMembership(s, WhitelistPredicate(whitelist), e);
  }

  /** A whitelist `[m:v]` removes an advisory of module `m` iff the version of
      its first finding is `v`. */
  lemma VersionWhitelistStage(s: seq<Entry>, v: string, e: Entry)
    requires ':' !in e.1.moduleName && ':' !in v && v != "*"
    ensures e in Filter(s, WhitelistPredicate([e.1.moduleName + ":" + v])) <==>
              e in s && e.1.findings[0].version != v
  {
    var entry := e.1.moduleName + ":" + v;
    VersionEntrySuppresses(e.1.moduleName, v, e.1.findings[0].version);
    assert [entry][1..] == [];
    assert Whitelisted([entry], e.1.moduleName, e.1.findings[0].version) <==> Suppresses(entry, e.1.moduleName, e.1.findings[0].version);
    assert WhitelistPredicate([entry])(e) <==> e.1.findings[0].version != v;
    FilterMembership(s, WhitelistPredicate([entry]), e);
  }

  /** Entries that are unrelated to module `m` leave its advisories alone. */
  lemma UnrelatedWhitelistKeepsModule(s: seq<Entry>, whitelist: seq<string>, e: Entry)
    requires forall i :: 0 <= i < |whitelist| ==>
               whitelist[i] != e.1.moduleName && !StartsWith(whitelist[i], e.1.moduleName + ":")
    ensures e in Filter(s, WhitelistPredicate(whitelist)) <==> e in s
  {
    WhitelistedIffSomeEntry(whitelist, e.1.moduleName, e.1.findings[0].version);
    FilterMembership(s, WhitelistPredicate(whitelist), e);
  }

  /** An empty whitelist drops nothing. */
  lemma EmptyWhitelistKeepsAll(s: seq<Entry>)
    ensures Filter(s, WhitelistPredicate([])) == s
  {
    FilterKeepsAll(s, WhitelistPredicate([]));
  }

  // ---------------------------------------------------------------------------
  // Exit code
  // ---------------------------------------------------------------------------

  /** The outcome of the `err !== null` branch is determined by its inputs:
      two outcomes that both meet it are the same exit code and output. */
  lemma AdvisoryOutcomeUnique(
    report: Report, threshold: int, ignoreDev: bool, jsonOutput: bool, whitelist: seq<string>,
    exitCode1: int, cliOutput1: CliOutput, exitCode2: int, cliOutput2: CliOutput)
    requires report.advisories.Keyed?
    requires AdvisoryOutcome(report, threshold, ignoreDev, jsonOutput, whitelist, exitCode1, cliOutput1)
    requires AdvisoryOutcome(report, threshold, ignoreDev, jsonOutput, whitelist, exitCode2, cliOutput2)
    ensures exitCode1 == exitCode2 && cliOutput1 == cliOutput2
  {
    var flagged := FilterAdvisories(report.advisories.entries, ignoreDev, threshold, whitelist);
    if !jsonOutput && flagged != [] {
      assert cliOutput1.table.rows == cliOutput2.table.rows;
    }
  }

  /** In the `err !== null` branch the build fails (exit 1) exactly in text mode
      with at least one survivor, and passes (exit 0) otherwise. */
  lemma OutcomeExitCode(
    report: Report, threshold: int, ignoreDev: bool, jsonOutput: bool, whitelist: seq<string>,
    exitCode: int, cliOutput: CliOutput)
    requires report.advisories.Keyed?
    requires AdvisoryOutcome(report, threshold, ignoreDev, jsonOutput, whitelist, exitCode, cliOutput)
    ensures exitCode == 0 || exitCode == 1
    ensures exitCode == 1 <==>
              !jsonOutput && FilterAdvisories(report.advisories.entries, ignoreDev, threshold, whitelist) != []
  {
  }
}
