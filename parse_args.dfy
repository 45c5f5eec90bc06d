/**
 * The configuration step of the command line: the table of severity names and
 * the mapping from the option record produced by the argument parser to the
 * classifier's policy (threshold index, dev-dependency flag, JSON flag,
 * registry override, whitelist). The argument parser itself is not modelled;
 * its result, `args.options`, is the input map.
 */
module CliArgs {
  import opened Builtins

  /** The severity names, lowest first; a threshold is an index into it. */
  const ValidThresholds: seq<string> := ["low", "moderate", "high", "critical"]

  const IgnoreDevDep: string := "ignore-dev-dependencies"

  /** A value the argument parser can store under an option name. */
  datatype OptionValue = Flag(flag: bool) | Text(text: string) | Items(items: seq<string>)

  /** JavaScript truthiness of an option value: `false` and `""` are falsy,
      an array always truthy. */
  predicate Truthy(v: OptionValue)
  {
    match v
    case Flag(b) => b
    case Text(s) => s != ""
    case Items(_) => true
  }

  /** The record `parse_args` returns; `registry == None` stands for `null`. */
  datatype Config = Config(
    threshold: int,
    ignoreDev: bool,
    jsonOutput: bool,
    registry: Option<OptionValue>,
    whitelist: seq<string>)

  /** Calling `toLocaleLowerCase` on a threshold that is not a string throws. */
  datatype ArgsError = ThresholdNotText

  /** ASCII lower-casing of one character. */
  function LowerChar(c: char): (r: char)
    ensures 'A' <= c <= 'Z' ==> r as int == c as int + 32
    ensures !('A' <= c <= 'Z') ==> r == c
  {
    if 'A' <= c <= 'Z' then (c as int + 32) as char else c
  }

  /** ASCII lower-casing of a string. */
  function Lower(s: string): (r: string)
    ensures |r| == |s|
    ensures forall i :: 0 <= i < |s| ==> r[i] == LowerChar(s[i])
    ensures forall i :: 0 <= i < |r| ==> !('A' <= r[i] <= 'Z')
    decreases |s|
  {
    if s == [] then []
    else
      var rest := Lower(s[1..]);
      assert forall i :: 1 <= i < |s| ==> s[i] == s[1..][i - 1];
      [LowerChar(s[0])] + rest
  }

  /** A string with no upper-case letter is its own lower-case form. */
  lemma {:induction false} LowerOfLowerCase(s: string)
    requires forall i :: 0 <= i < |s| ==> !('A' <= s[i] <= 'Z')
    ensures Lower(s) == s
    decreases |s|
  {
    if s != [] {
      LowerOfLowerCase(s[1..]);
      assert [s[0]] + s[1..] == s;
    }
  }

  /** The names in the table are distinct, so each one maps back to its own
      index. */
  lemma ThresholdNamesDistinct(t: int)
    requires 0 <= t < |ValidThresholds|
    ensures IndexOf(ValidThresholds, ValidThresholds[t]) == t
  {
  }

  /** The threshold index of a user-supplied severity name, compared without
      regard to ASCII case; -1 for a name not in the table. */
  function ThresholdIndex(name: string): (t: int)
    ensures -1 <= t < |ValidThresholds|
    ensures t == -1 <==> Lower(name) !in ValidThresholds
    ensures 0 <= t ==> ValidThresholds[t] == Lower(name)
  {
    IndexOf(ValidThresholds, Lower(name))
  }

  /** Every name in the table, in any ASCII case, selects its own index. */
  lemma ThresholdIndexCaseInsensitive(name: string, t: int)
    requires 0 <= t < |ValidThresholds|
    requires Lower(name) == ValidThresholds[t]
    ensures ThresholdIndex(name) == t
  {
    ThresholdNamesDistinct(t);
  }

  /** `parse_args` after the argument parser has run. */
  function ParseArgs(options: map<string, OptionValue>): (r: Result<Config, ArgsError>)
    ensures r.Err? <==> "threshold" in options && !options["threshold"].Text?
    ensures r.Ok? ==> -1 <= r.value.threshold < |ValidThresholds|
    ensures r.Ok? && "threshold" !in options ==>
              0 <= r.value.threshold && ValidThresholds[r.value.threshold] == "critical"
    ensures r.Ok? && "threshold" in options ==>
              (r.value.threshold == -1 <==> Lower(options["threshold"].text) !in ValidThresholds) &&
              (0 <= r.value.threshold ==> ValidThresholds[r.value.threshold] == Lower(options["threshold"].text))
    ensures r.Ok? ==> (r.value.ignoreDev <==> IgnoreDevDep in options && Truthy(options[IgnoreDevDep]))
    ensures r.Ok? ==> (r.value.jsonOutput <==> "json" in options && Truthy(options["json"]))
    ensures r.Ok? ==> (r.value.registry.None? <==> "registry" !in options)
    ensures r.Ok? && "registry" in options ==> r.value.registry == Some(options["registry"])
    ensures r.Ok? && "whitelist" in options && options["whitelist"].Items? ==>
              r.value.whitelist == options["whitelist"].items
    ensures r.Ok? && !("whitelist" in options && options["whitelist"].Items?) ==> r.value.whitelist == []
  {
    var ignoreDev := IgnoreDevDep in options && Truthy(options[IgnoreDevDep]);
    if "threshold" in options && !options["threshold"].Text? then
      Err(ThresholdNotText)
    else
      var threshold :=
        if "threshold" in options then ThresholdIndex(options["threshold"].text)
        else IndexOf(ValidThresholds, "critical");
      var jsonOutput := "json" in options && Truthy(options["json"]);
      var registry := if "registry" in options then Some(options["registry"]) else None;
      var whitelist :=
        if "whitelist" in options && options["whitelist"].Items? then options["whitelist"].items
        else [];
      Ok(Config(threshold, ignoreDev, jsonOutput, registry, whitelist))
  }

  /** With no options at all the policy is: fail on critical only, dev
      dependencies count, text output, default registry, no whitelist. */
  lemma ParseArgsDefaults()
    ensures ParseArgs(map[]) == Ok(Config(3, false, false, None, []))
  {
    ThresholdNamesDistinct(3);
  }

  /** A recognised name given in any case selects its index; an unrecognised
      one gives -1 and is never replaced by the default. */
  lemma ParseArgsThreshold(options: map<string, OptionValue>, name: string)
    requires "threshold" in options && options["threshold"] == Text(name)
    ensures ParseArgs(options).Ok?
    ensures forall t :: 0 <= t < |ValidThresholds| && Lower(name) == ValidThresholds[t] ==>
              ParseArgs(options).value.threshold == t
    ensures Lower(name) !in ValidThresholds ==> ParseArgs(options).value.threshold == -1
  {
    forall t | 0 <= t < |ValidThresholds| && Lower(name) == ValidThresholds[t]
      ensures ParseArgs(options).value.threshold == t
    {
      ThresholdIndexCaseInsensitive(name, t);
    }
  }
}
