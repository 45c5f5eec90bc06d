# npm-audit-ci-wrapper: the advisory classifier in Dafny

npm-audit-ci-wrapper runs `npm audit --json` and turns its report into a
pass/fail signal for a CI build. This project models the part with decision
logic, for which it states and proves properties:

- `filter_advisories` (lib/parser.js) drops advisories in three
  order-preserving stages:
  - **dev stage:** drop when `findings[0].dev` is set and dev dependencies are ignored;
  - **severity stage:** keep when the severity's position in
    `low, moderate, high, critical` is at least the threshold;
  - **whitelist stage:** drop when an entry `m`, `m:*` or `m:<version>` matches.
- `parse_audit_results` (lib/parser.js) turns `(err, data, threshold,
  ignoreDev, jsonOutput, whitelist)` into an exit code and the text to print.
- `parse_args` (lib/parse_args.js) maps the parsed command-line options to the
  policy record. Only the part after the argument parser has run is modelled.

## Files

- `builtins.dfy`, module `Builtins`: the JavaScript built-ins the code uses.
  These are `Array.prototype.filter` (`Filter`), `indexOf` (`IndexOf`),
  `split(':')` (`Split`, with its inverse `Join`) and `startsWith`.
  Also here is a reference definition of subsequence (`IsSubsequence`), with
  the lemmas that filtering keeps a subsequence, can be fused, is idempotent
  and is monotone.
- `parse_args.dfy`, module `CliArgs`: `validThresholds`, ASCII lower-casing
  and `ParseArgs` over the option map.
- `parser.dfy`, module `Parser`: the report data model, the three stage
  predicates, `FilterAdvisories`, and the imperative `parse_audit_results`.
  The caller's report object is the class `AuditData`, because the JSON branch
  of `err === null` updates it in place. The `forEach` that builds the table
  is the loop in `TableRows`.
- `filter_properties.dfy`, module `FilterProperties`: the properties of the
  pipeline and of each stage.
- `fixtures.dfy`, module `Fixtures`: the expectations of the test suites,
  proved of the model. These cover the `filter_advisories` tests
  (lib/parser.test.js:139-269), the `parse_audit_results` runs
  (lib/parser.test.js:30-134) and the `parse_args` tests
  (lib/parse_args.test.js:40-138).

Representation choices:
- `err` is `Option<string>`; `None` is `null`.
- The cli-table is its heading and rows of cell strings.
- JSON output is the `Report` value that would be serialised
  (`CliOutput.Serialized`).
- `findings` is a non-empty sequence type, because the code reads
  `findings[0]` unguarded.
- The default arguments `jsonOutput = false` and `whitelist = []` of
  `parse_audit_results` (lib/parser.js:29), and `whitelist = []` of
  `filter_advisories` (lib/parser.js:100), are required parameters here. The
  scenarios for the tests' shorter calls pass `false` and `[]`.
- `validThresholds[threshold]` with an index outside the table reads as
  `"undefined"` in string concatenation, as it does in JavaScript. The caller
  (bin/index.js:30-33) rejects -1 before classifying.

Where the code and its tests disagree, the model follows the code:
- lib/parser.js has no registry-error branch. With `err === null`, in text
  mode, it returns the no-vulnerabilities message whatever the report holds
  (lib/parser.js:32-41). The test at lib/parser.test.js:281-290 expects
  `ENOTFOUND` in that output; nothing in lib/parser.js produces it.

Behaviour that follows from the code:
- The dev stage reads only `findings[0].dev` (lib/parser.js:102).
- Zero advisories are not a case of their own. "No vulnerabilities" is decided
  by `err === null` alone (lib/parser.js:32). With `err !== null` and no
  advisories, in text mode, the output is `""` and the exit code is 0
  (lib/parser.js:54), as lib/parser.test.js:82-87 expects. In JSON mode the report is
  emitted with `advisories` set to the empty list (lib/parser.js:48-53).

## Model

| member | source | states |
|---|---|---|
| Builtins.Filter | lib/parser.js:101-123 | every element kept satisfies the predicate, and the result is no longer than the input |
| Builtins.FilterIsSubsequence | lib/parser.js:101-123 | `Array.filter` keeps a subsequence of its input: it never reorders or invents elements |
| Builtins.FilterMembership | lib/parser.js:101-123 | an element is in the filtered list iff it is in the input and satisfies the predicate |
| Builtins.FilterKeepsAll | lib/parser.js:101-123 | a predicate that holds of every element leaves the list unchanged |
| Builtins.FilterFusion | lib/parser.js:101-109 | two filters in a row equal one filter by the conjunction of their predicates |
| Builtins.FilterIdempotent | lib/parser.js:101-123 | filtering twice by the same predicate equals filtering once |
| Builtins.FilterMonotone | lib/parser.js:105-107 | a stronger predicate keeps a subsequence of what a weaker one keeps |
| Builtins.SubsequenceMembers | lib/parser.js:101-123 | every element of a subsequence occurs in the original list |
| Builtins.FilterMembers | lib/parser.js:101-123 | the membership fact for every element at once |
| Builtins.FilterKeptAt | lib/parser.js:101-123 | a kept element heads the filtered rest of the list from its position on |
| Builtins.FilterDroppedAt | lib/parser.js:101-123 | a dropped element does not appear in the filtered rest of the list |
| Builtins.FilterSingleton | lib/parser.js:101-123 | a one-element list is kept or emptied by its predicate |
| Builtins.StartsWith | lib/parser.js:113 | defined as the prefix test `prefix <= s`, which is `String.prototype.startsWith` at position 0; used by `Parser.Suppresses` |
| Builtins.IndexOf | lib/parser.js:106 | -1 exactly when the element is absent; otherwise a position holding the element, with no earlier occurrence |
| Builtins.Split | lib/parser.js:114 | `split(':')` gives at least one piece, and no piece contains the separator |
| Builtins.JoinSplit | lib/parser.js:114 | splitting loses nothing: joining the pieces with the separator gives back the entry |
| Builtins.SplitJoin | lib/parser.js:114 | separator-free pieces, joined and split again, come back unchanged |
| Builtins.SplitWithoutSeparator | lib/parser.js:114-115 | an entry without `:` is one piece, so its version part is `undefined` |
| Builtins.SplitAfterHead | lib/parser.js:113-114 | for `m:rest` with `m` colon-free, the first piece is `m` and the rest is split on its own |
| CliArgs.ValidThresholds | lib/parse_args.js:24 | the constant `["low", "moderate", "high", "critical"]`, lowest first; `ThresholdNamesDistinct` states that each name maps back to its own index |
| CliArgs.Truthy | lib/parse_args.js:87-96 | defined as JavaScript truthiness of an option value (`false` and `""` falsy, an array truthy); `ParseArgs` states `ignoreDev` and `json_output` through it |
| CliArgs.ThresholdNamesDistinct | lib/parse_args.js:24 | each severity name is found by `indexOf` at its own position |
| CliArgs.LowerChar | lib/parse_args.js:93 | an ASCII upper-case letter becomes the letter 32 code points later (its lower-case form); every other character is unchanged |
| CliArgs.Lower | lib/parse_args.js:93 | lower-casing keeps the length, maps each character by `LowerChar` at its own position, and leaves no ASCII upper-case letter |
| CliArgs.LowerOfLowerCase | lib/parse_args.js:93 | a name already in lower case is unchanged by lower-casing |
| CliArgs.ThresholdIndex | lib/parse_args.js:90-93 | the threshold lies in -1..3; it is -1 iff the lower-cased name is not a severity name, and otherwise it is the position of that name |
| CliArgs.ThresholdIndexCaseInsensitive | lib/parse_args.js:93 | any spelling that lower-cases to a severity name selects that name's index |
| CliArgs.ParseArgs | lib/parse_args.js:83-108 | only a non-string threshold fails; the threshold is in -1..3; with no option it is the index of `critical`; otherwise it is -1 or the index of the lower-cased name; `ignoreDev` and `json_output` are true iff their option is present and truthy; `registry` is absent iff its option is, and otherwise is the option's value unchanged; `whitelist` is the option's list when it is an array, otherwise empty |
| CliArgs.ParseArgsDefaults | lib/parse_args.js:87-107 | no options give threshold 3, both flags false, no registry, an empty whitelist |
| CliArgs.ParseArgsThreshold | lib/parse_args.js:90-94 | a string threshold is always accepted; a recognised name in any case gives its index; an unrecognised one gives -1, never the default |
| Parser.PassesDev | lib/parser.js:101-103 | defined as `!(findings[0].dev && ignoreDev)`; its stage is characterised by `FilterProperties.DevStageKeepsAll` and `FilterProperties.DevStageIgnoring` |
| Parser.SeverityIndex | lib/parser.js:106 | in -1..3; -1 iff the severity is not one of the four names; otherwise the position of that name |
| Parser.PassesSeverity | lib/parser.js:105-107 | defined as `SeverityIndex >= threshold`; its stage is characterised by `FilterProperties.SeverityStageMembership` and `FilterProperties.SeverityAtOrAboveThresholdPasses` |
| Parser.SegmentAfterFirstColon | lib/parser.js:114 | defined as: the entry is a colon-free head, a colon, the colon-free segment, and a rest that is empty or starts with a colon |
| Parser.WhitelistVersion | lib/parser.js:114-115 | `split(':')[1]` is `undefined` iff the entry has no colon; otherwise it is the segment between the first colon and the next colon or the end |
| Parser.Suppresses | lib/parser.js:113-118 | defined as the loop body's test: the entry equals `m` or starts with `m:`, and its version is undefined, `*` or the finding's version; characterised by `FilterProperties.BareOrWildcardEntrySuppresses`, `VersionEntrySuppresses` and `UnrelatedEntryNoEffect` |
| Parser.PassesWhitelist | lib/parser.js:109-122 | defined as `!Whitelisted(whitelist, module_name, findings[0].version)`, the whitelist stage's callback; characterised by `FilterProperties.WildcardWhitelistDropsModule`, `VersionWhitelistStage` and `UnrelatedWhitelistKeepsModule` |
| Parser.Whitelisted | lib/parser.js:112-122 | defined as the early-return loop over the whitelist; `FilterProperties.WhitelistedIffSomeEntry` proves it equals "some entry suppresses" |
| Parser.FilterAdvisories | lib/parser.js:100-124 | never longer than its input; an advisory is in the result iff it is in the input and passes the dev, severity and whitelist stages |
| Parser.ThresholdName | lib/parser.js:64 | `validThresholds[threshold]` as the header prints it: for a threshold in 0..3, a name that `indexOf` maps back to that threshold; otherwise a word outside the table (`undefined`) |
| Parser.Header | lib/parser.js:57-65 | defined as the concatenation of the scope phrase chosen by `ignoreDev`, `are `, `ThresholdName` and ` severity or higher:`; `Fixtures.LowHeader` and `Fixtures.ProductionHighHeader` give the sentences the tests expect |
| Parser.Row | lib/parser.js:74-82 | defined as the three cells `name@findings[0].version`, severity, the advisory URL; `Parser.TableRows` proves the loop produces one per survivor |
| Parser.AdvisoryOutcome | lib/parser.js:43-87 | defined as the outcome of the `err !== null` branch in its three cases; `FilterProperties.AdvisoryOutcomeUnique` proves it determines exit code and output, `FilterProperties.OutcomeExitCode` gives the exit code |
| Parser.TableRows | lib/parser.js:73-83 | one row per flagged advisory, in order: `name@findings[0].version`, severity, advisory URL |
| Parser.ReportAdvisories | lib/parser.js:43-87 | JSON mode: exit 0, emitting the report with `advisories` replaced by the filtered pair list. Text mode with survivors: exit 1, a header chosen by `ignoreDev` and the threshold name, the table heading, and one row per survivor in order. Text mode with no survivors: exit 0 and `""` |
| Parser.ReportNoVulnerabilities | lib/parser.js:32-41 | exit 0. Text mode: exactly `No vulnerabilities found.\n`, report untouched. JSON mode: the caller's report gets empty `advisories`, `actions` and `muted` in place, every other member kept, and that report is emitted |
| Parser.ParseAuditResults | lib/parser.js:29-90 | `err === null` leads to the no-vulnerabilities outcome; otherwise the report is left unchanged and the advisory outcome holds, including exit 1 iff text mode with survivors |
| FilterProperties.FilterAdvisoriesIsConjunction | lib/parser.js:100-124 | the three stages in sequence equal one filter by the conjunction of the dev, severity and whitelist predicates |
| FilterProperties.FilterAdvisoriesIsSubsequence | lib/parser.js:100-124 | `filter_advisories` returns an order-preserving subsequence of its input |
| FilterProperties.FilterAdvisoriesIdempotent | lib/parser.js:100-124 | filtering the result again with the same policy changes nothing |
| FilterProperties.FilterAdvisoriesThresholdMonotone | lib/parser.js:105-107 | raising the threshold yields a subsequence of the result at the lower threshold |
| FilterProperties.DevStageKeepsAll | lib/parser.js:101-103 | with `ignoreDev` false the dev stage drops nothing |
| FilterProperties.DevStageIgnoring | lib/parser.js:101-103 | with `ignoreDev` true an advisory survives the dev stage iff `findings[0].dev` is false |
| FilterProperties.SeverityStageMembership | lib/parser.js:105-107 | an advisory survives the severity stage iff its severity's index (-1 when unknown) is at least the threshold |
| FilterProperties.SeverityAtOrAboveThresholdPasses | lib/parser.js:106 | a severity equal to the threshold's name, or a higher one, passes: ties are kept |
| FilterProperties.WhitelistedIffSomeEntry | lib/parser.js:112-122 | the whitelist loop exempts an advisory iff some entry suppresses it |
| FilterProperties.VersionSegment | lib/parser.js:114 | for colon-free `m` and `v`, the version part of `m:v`, alone or followed by `:...`, is exactly `v` |
| FilterProperties.BareOrWildcardEntrySuppresses | lib/parser.js:113-116 | for a colon-free module name `m`, the entries `m` and `m:*` suppress every version of `m` |
| FilterProperties.VersionEntrySuppresses | lib/parser.js:113-118 | the entry `m:v` suppresses an advisory of `m` iff its first finding's version is `v` |
| FilterProperties.UnrelatedEntryNoEffect | lib/parser.js:113 | an entry that neither equals `m` nor starts with `m:` never suppresses `m` |
| FilterProperties.WildcardWhitelistDropsModule | lib/parser.js:112-122 | a whitelist containing `m` or `m:*` removes every advisory of module `m` |
| FilterProperties.VersionWhitelistStage | lib/parser.js:112-122 | the whitelist `[m:v]` removes an advisory of `m` iff its version is `v` |
| FilterProperties.UnrelatedWhitelistKeepsModule | lib/parser.js:112-122 | entries unrelated to `m` leave every advisory of `m` in place |
| FilterProperties.EmptyWhitelistKeepsAll | lib/parser.js:112-122 | an empty whitelist drops nothing |
| FilterProperties.AdvisoryOutcomeUnique | lib/parser.js:43-87 | two outcomes that both meet the `err !== null` branch for the same inputs have the same exit code and output |
| FilterProperties.OutcomeExitCode | lib/parser.js:30-67 | when `err` is non-null the exit code is 0 or 1, and it is 1 iff text mode has at least one survivor |
| Fixtures.SeverityIndices | lib/parser.test.js:152-158 | the fixture's severities sit at positions 3, 0, 2, 2, 0, 2, 2 |
| Fixtures.LowThresholdKeepsAll | lib/parser.test.js:139-167 | threshold low with dev dependencies counted keeps all seven, in order |
| Fixtures.HighThresholdKeepsFive | lib/parser.test.js:172-194 | threshold high keeps growl, https-proxy-agent, http-proxy-agent, webpack-dev-server and handlebars, in that order |
| Fixtures.ProductionStage | lib/parser.test.js:160-166 | ignoring dev dependencies leaves only https-proxy-agent |
| Fixtures.HighThresholdProductionOnly | lib/parser.test.js:199-209 | threshold high, production only: exactly https-proxy-agent |
| Fixtures.CriticalThresholdProductionOnly | lib/parser.test.js:264-269 | threshold critical, production only: nothing |
| Fixtures.WhitelistStageInput | lib/parser.test.js:214-259 | at threshold high, production only, the whitelist stage sees only https-proxy-agent |
| Fixtures.VersionWhitelistScenarios | lib/parser.test.js:214-249 | `https-proxy-agent:1.0.0` removes the survivor; `https-proxy-agent:0.9.9` keeps it |
| Fixtures.WildcardWhitelistScenarios | lib/parser.test.js:224-239 | `https-proxy-agent` and `https-proxy-agent:*` remove the survivor |
| Fixtures.LongerNameWhitelistScenario | lib/parser.test.js:254-259 | `https-proxy-agent-test` keeps https-proxy-agent |
| Fixtures.VersionSegmentScenarios | lib/parser.js:114 | the version part of `https-proxy-agent:1.0.0:x` is `1.0.0`, and that of `https-proxy-agent:` is empty |
| Fixtures.LowHeader | lib/parser.test.js:99 | the header at threshold low, dev dependencies counted, is `The following vulnerabilities are low severity or higher:` and a newline |
| Fixtures.ProductionHighHeader | lib/parser.test.js:113 | the header at threshold high, production only, is `The following production vulnerabilities are high severity or higher:` and a newline |
| Fixtures.NullErrorTextRun | lib/parser.test.js:30-35 | `err === null` in text mode gives `No vulnerabilities found.` and a newline, with exit 0 |
| Fixtures.NullErrorJsonRun | lib/parser.test.js:40-77 | `err === null` in JSON mode gives exit 0 and the report with empty `advisories`, `actions` and `muted`, its other members kept |
| Fixtures.ZeroVulnerabilitiesRun | lib/parser.test.js:82-87 | a non-null `err` and no advisories give `""` and exit 0 |
| Fixtures.SevenVulnerabilitiesRun | lib/parser.test.js:93-101 | threshold low, dev dependencies counted: exit 1, the header of the test, seven rows, the first `growl@<version>` with its advisory URL |
| Fixtures.ProductionRun | lib/parser.test.js:107-115 | threshold high, production only: exit 1, the production header and exactly the row `https-proxy-agent@1.0.0`, `high`, its advisory URL |
| Fixtures.JsonRun | lib/parser.test.js:120-134 | JSON mode: exit 0, and the report emitted with https-proxy-agent as its only advisory |
| Fixtures.ProductionAudit | lib/parser.test.js:107-115 | `ParseAuditResults` itself, run on the fixture at threshold high, production only, returns exit 1 and that output |
| Fixtures.UpperCaseThresholdScenario | lib/parse_args.js:93 | `-t HIGH` gives threshold 2: the name is compared after lower-casing |
| Fixtures.UnknownThresholdScenario | lib/parse_args.test.js:40-44 | `-t undef` gives threshold -1 |
| Fixtures.ModerateThresholdScenario | lib/parse_args.test.js:46-50 | `-t moderate` gives threshold 1 |
| Fixtures.LowThresholdScenario | lib/parse_args.test.js:80-88 | `-t low` gives threshold 0, both flags false, registry null |
| Fixtures.HighProductionScenario | lib/parse_args.test.js:90-98 | `-t high -p` gives threshold 2 and `ignoreDev` true |
| Fixtures.OtherOptionScenarios | lib/parse_args.test.js:52-138 | `-j` sets `json_output`; `-r` passes the registry through; two `-w` entries stay in order; the threshold stays 3 |

## Left out

- The process layer in bin/index.js is not modelled: spawning `npm audit`,
  concatenating its output streams, `console.log` and `process.exit`. These
  are process I/O. The `!check_npm_version()` preflight there tests a Promise
  and is always false, so it has no behaviour to model.
- `check_npm_version` (lib/parse_args.js:72-77) is not modelled: it is an
  asynchronous subprocess call plus `parseInt`.
- The `argv` library call and the help text (lib/parse_args.js:30-66, 84) are
  not modelled. The library is foreign code; its `args.options` result is the
  input map of `ParseArgs`.
- The legacy script index.js is not modelled. It duplicates the dev and
  severity filters inline and exports nothing.
- cli-table box drawing, and `JSON.stringify`/`JSON.parse` formatting and
  deep cloning (lib/parser.js:37, 49-52, 69-85), are not modelled: they are
  foreign formatting code. The output is the table's cells or the report
  value to be serialised.
- The enumeration order of the `advisories` object is not derived.
  JavaScript lists integer-like keys in ascending order; the model takes
  the entries in the order `Object.entries` returns.
- Parser.Advisory: members other than `module_name`, `severity` and
  `findings`, and finding members other than `version` and `dev`, are not
  modelled. The filter never reads them, but JSON mode (lib/parser.js:49-52)
  prints them unchanged, so the modelled `Serialized` report lacks content
  the program prints.
- CliArgs.Lower: models `toLocaleLowerCase` as ASCII lower-casing; locale
  rules and non-ASCII case mappings are not modelled.
- CliArgs.ParseArgs: `ignoreDev` and `json_output` are their option's
  truthiness. JavaScript's `a && b` returns the option's raw value, but every
  consumer only tests its truthiness.
- Parser.Finding: a missing `dev` member is `false`, which is how
  JavaScript's `undefined` behaves in `findings[0].dev && ignoreDev`.
- Parser.ParseAuditResults: `data` is taken as a parsed report with an
  `advisories` object. When `data` has no `advisories` member,
  `Object.entries(data.advisories)` at lib/parser.js:43 throws a TypeError.
  That happens for a registry-error report such as `{error: {code, summary}}`
  with a non-null `err`, and for the raw `stdout` string that bin/index.js:58
  passes as `data`. The TypeError is not modelled.
- Parser.ParseAuditResults: an `err` that is neither `null` nor a string is
  not modelled; bin/index.js always passes the `stderr` string.
- Parser.ParseAuditResults: in JSON mode with a non-null `err`, the emitted
  report is a deep clone of `data`. The model has no object identity for
  reports, so the clone is the same value as the original.
