/** `src/api/logger.rs`: the level filter of the installed logger and its global pre-filter. */
module LogLevels {
  import opened Types

  /** `log::LevelFilter`, ordered by verbosity. */
  datatype Level = Off | Error | Warn | Info | Debug | Trace {
    function Rank(): nat {
      match this
      case Off => 0
      case Error => 1
      case Warn => 2
      case Info => 3
      case Debug => 4
      case Trace => 5
    }
  }

  predicate AtMost(a: Level, b: Level) {
    a.Rank() <= b.Rank()
  }

  function Min(a: Level, b: Level): Level {
    if AtMost(a, b) then a else b
  }

  function Max(a: Level, b: Level): Level {
    if AtMost(a, b) then b else a
  }

  type Rule = (string, Level)

  datatype LogLevels = LogLevels(configuredDefault: Level, modules: seq<Rule>, runtimeLevel: Option<Level>)

  const LEVEL_CEILINGS: seq<Rule> := [("minotari_wallet_core::http", Info), ("minotari::http", Info)]

  const PAYLOAD_SUMMARY_TARGET: string := "c::tx::offline_signing"

  /** `with_payload_summary_cap`. */
  function WithPayloadSummaryCap(rules: seq<Rule>): seq<Rule> {
    if exists k :: 0 <= k < |rules| && rules[k].0 == PAYLOAD_SUMMARY_TARGET then rules
    else rules + [(PAYLOAD_SUMMARY_TARGET, Warn)]
  }

  /** `LogLevels::new`. */
  function New(configuredDefault: Level, rules: seq<Rule>): LogLevels {
    LogLevels(configuredDefault, WithPayloadSummaryCap(rules), None)
  }

  // ----- matching -----

  /** `target_matches`: `target` is `m` or a path below it. */
  predicate Matches(target: string, m: string) {
    target == m || (m <= target && "::" <= target[|m|..])
  }

  lemma MatchesIsTransitive(a: string, b: string, c: string)
    requires Matches(a, b) && Matches(b, c)
    ensures Matches(a, c)
  {
    if a != b && b != c {
      assert a[|c|..][..2] == b[|c|..][..2];
    }
  }

  /** Rule `k` decides for `target`: no matching rule is longer, and no later one is as long. */
  predicate Decides(rules: seq<Rule>, target: string, k: nat) {
    && k < |rules| && Matches(target, rules[k].0)
    && (forall j :: 0 <= j < |rules| && Matches(target, rules[j].0) ==> |rules[j].0| <= |rules[k].0|)
    && (forall j :: k < j < |rules| && Matches(target, rules[j].0) ==> |rules[j].0| < |rules[k].0|)
  }

  predicate Unmatched(rules: seq<Rule>, target: string) {
    forall j :: 0 <= j < |rules| ==> !Matches(target, rules[j].0)
  }

  lemma DecidesOnce(rules: seq<Rule>, target: string, k: nat, j: nat)
    requires Decides(rules, target, k) && Decides(rules, target, j)
    ensures k == j
  {
  }

  /** The loop of `level_for` that finds the deciding rule. */
  function Decider(rules: seq<Rule>, target: string): (k: Option<nat>)
    ensures k.None? <==> Unmatched(rules, target)
    ensures k.Some? ==> Decides(rules, target, k.value)
  {
    if rules == [] then None
    else
      var last := |rules| - 1;
      var k := Decider(rules[..last], target);
      if Matches(target, rules[last].0) && (k.None? || |rules[last].0| >= |rules[k.value].0|) then Some(last)
      else k
  }

  lemma DeciderOfMore(rules: seq<Rule>, i: nat, target: string)
    requires i < |rules|
    ensures var k := Decider(rules[..i], target);
            Decider(rules[..i + 1], target) ==
            (if Matches(target, rules[i].0) && (k.None? || |rules[i].0| >= |rules[k.value].0|) then Some(i) else k)
  {
    assert rules[..i + 1][..i] == rules[..i];
  }

  // ----- level_for -----

  /** The level before the ceilings, given the deciding rule's level if there is one. */
  function BaseLevel(levels: LogLevels, rule: Option<Level>): Level {
    match (rule, levels.runtimeLevel)
    case (None, None) => levels.configuredDefault
    case (None, Some(runtime)) => runtime
    case (Some(m), None) => m
    case (Some(m), Some(runtime)) =>
      if m.Rank() < levels.configuredDefault.Rank() then Min(m, runtime) else runtime
  }

  function Ceiled(level: Level, target: string, ceilings: seq<Rule>): Level {
    if ceilings == [] then level
    else
      var below := Ceiled(level, target, ceilings[..|ceilings| - 1]);
      var last := ceilings[|ceilings| - 1];
      if Matches(target, last.0) then Min(below, last.1) else below
  }

  function RuleLevel(levels: LogLevels, target: string): Option<Level> {
    match Decider(levels.modules, target)
    case None => None
    case Some(k) => Some(levels.modules[k].1)
  }

  function LevelForSpec(levels: LogLevels, target: string): Level {
    Ceiled(BaseLevel(levels, RuleLevel(levels, target)), target, LEVEL_CEILINGS)
  }

  /** `LogLevels::level_for`. */
  method LevelFor(levels: LogLevels, target: string) returns (level: Level)
    ensures level == LevelForSpec(levels, target)
  {
    var rules := levels.modules;
    var moduleLevel: Option<Level> := None;
    var matchedLen := 0;
    var i := 0;
    while i < |rules|
      invariant 0 <= i <= |rules|
      invariant moduleLevel.None? <==> Decider(rules[..i], target).None?
      invariant moduleLevel.None? ==> matchedLen == 0
      invariant moduleLevel.Some? ==>
                  var k := Decider(rules[..i], target).value;
                  moduleLevel.value == rules[k].1 && matchedLen == |rules[k].0|
    {
      DeciderOfMore(rules, i, target);
      if Matches(target, rules[i].0) && |rules[i].0| >= matchedLen {
        moduleLevel := Some(rules[i].1);
        matchedLen := |rules[i].0|;
      }
      i := i + 1;
    }
    assert rules[..i] == rules;
    level := ApplyCeilings(BaseLevel(levels, moduleLevel), target, LEVEL_CEILINGS);
  }

  /** The second loop of `level_for`. */
  method ApplyCeilings(base: Level, target: string, ceilings: seq<Rule>) returns (level: Level)
    ensures level == Ceiled(base, target, ceilings)
  {
    level := base;
    var i := 0;
    while i < |ceilings|
      invariant 0 <= i <= |ceilings|
      invariant level == Ceiled(base, target, ceilings[..i])
    {
      assert ceilings[..i + 1][..i] == ceilings[..i];
      if Matches(target, ceilings[i].0) {
        level := Min(level, ceilings[i].1);
      }
      i := i + 1;
    }
    assert ceilings[..i] == ceilings;
  }

  // ----- max_level -----

  /** `LogLevels::max_level`. */
  method MaxLevel(levels: LogLevels) returns (max: Level)
    ensures max == MaxLevelSpec(levels, levels.modules)
  {
    hide LevelForSpec, Max;
    max := if levels.runtimeLevel.Some? then levels.runtimeLevel.value else levels.configuredDefault;
    var rules := levels.modules;
    var i := 0;
    while i < |rules|
      invariant 0 <= i <= |rules|
      invariant max == MaxLevelSpec(levels, rules[..i])
    {
      assert rules[..i + 1][..i] == rules[..i];
      var level := LevelFor(levels, rules[i].0);
      max := Max(max, level);
      i := i + 1;
    }
    assert rules[..i] == rules;
  }

  function MaxLevelSpec(levels: LogLevels, rules: seq<Rule>): Level {
    if rules == [] then
      if levels.runtimeLevel.Some? then levels.runtimeLevel.value else levels.configuredDefault
    else
      Max(MaxLevelSpec(levels, rules[..|rules| - 1]), LevelForSpec(levels, rules[|rules| - 1].0))
  }

  lemma {:induction false} MaxIsAbove(levels: LogLevels, rules: seq<Rule>)
    ensures AtMost(MaxLevelSpec(levels, []), MaxLevelSpec(levels, rules))
    ensures forall k :: 0 <= k < |rules| ==> AtMost(LevelForSpec(levels, rules[k].0), MaxLevelSpec(levels, rules))
    decreases |rules|
  {
    if rules == [] {
    } else {
      MaxIsAbove(levels, rules[..|rules| - 1]);
    }
  }

  lemma {:induction false} MaxIsSome(levels: LogLevels, rules: seq<Rule>) returns (k: Option<nat>)
    ensures k.None? ==> MaxLevelSpec(levels, rules) == MaxLevelSpec(levels, [])
    ensures k.Some? ==> k.value < |rules| && MaxLevelSpec(levels, rules) == LevelForSpec(levels, rules[k.value].0)
    decreases |rules|
  {
    if rules == [] {
      k := None;
    } else {
      var last := |rules| - 1;
      k := MaxIsSome(levels, rules[..last]);
      if MaxLevelSpec(levels, rules) == LevelForSpec(levels, rules[last].0) {
        k := Some(last);
      }
    }
  }

  // ----- the pre-filter agrees with the filter -----

  /** The rule that decides for a target also decides for its own path. */
  lemma DeciderDecidesItself(rules: seq<Rule>, target: string, k: nat)
    requires Decides(rules, target, k)
    ensures Decides(rules, rules[k].0, k)
  {
    var m := rules[k].0;
    forall j | 0 <= j < |rules| && Matches(m, rules[j].0)
      ensures |rules[j].0| <= |m| && (j > k ==> |rules[j].0| < |m|)
    {
      MatchesIsTransitive(target, m, rules[j].0);
    }
  }

  /** Ceilings only grow downwards: a target is under every ceiling its rule's path is under. */
  lemma {:induction false} CeilingsGrow(level: Level, target: string, m: string, ceilings: seq<Rule>)
    requires Matches(target, m)
    ensures AtMost(Ceiled(level, target, ceilings), Ceiled(level, m, ceilings))
    decreases |ceilings|
  {
    if ceilings == [] {
    } else {
      var last := ceilings[|ceilings| - 1];
      CeilingsGrow(level, target, m, ceilings[..|ceilings| - 1]);
      if Matches(m, last.0) {
        MatchesIsTransitive(target, m, last.0);
      }
    }
  }

  lemma {:induction false} CeiledIsBelow(level: Level, target: string, ceilings: seq<Rule>)
    ensures AtMost(Ceiled(level, target, ceilings), level)
    ensures forall k :: 0 <= k < |ceilings| && Matches(target, ceilings[k].0) ==>
                          AtMost(Ceiled(level, target, ceilings), ceilings[k].1)
    ensures Unmatched(ceilings, target) ==> Ceiled(level, target, ceilings) == level
    decreases |ceilings|
  {
    if ceilings == [] {
    } else {
      CeiledIsBelow(level, target, ceilings[..|ceilings| - 1]);
    }
  }

  /** No record that the filter lets through is dropped by the global maximum. */
  lemma MaxLevelIsSafe(levels: LogLevels, target: string)
    ensures AtMost(LevelForSpec(levels, target), MaxLevelSpec(levels, levels.modules))
  {
    MaxIsAbove(levels, levels.modules);
    match Decider(levels.modules, target)
    case None =>
      CeiledIsBelow(BaseLevel(levels, None), target, LEVEL_CEILINGS);
    case Some(k) =>
      var m := levels.modules[k].0;
      DeciderDecidesItself(levels.modules, target, k);
      DecidesOnce(levels.modules, m, k, Decider(levels.modules, m).value);
      CeilingsGrow(BaseLevel(levels, Some(levels.modules[k].1)), target, m, LEVEL_CEILINGS);
  }

  /** `record_enabled`: whether the installed filter lets a record of this level through. */
  predicate RecordEnabled(levels: LogLevels, target: string, record: Level) {
    AtMost(record, LevelForSpec(levels, target))
  }

  /** Checking the global maximum first never changes what is logged. */
  lemma PreFilterAgrees(levels: LogLevels, target: string, record: Level)
    ensures AtMost(record, MaxLevelSpec(levels, levels.modules)) && RecordEnabled(levels, target, record) <==>
              RecordEnabled(levels, target, record)
  {
    MaxLevelIsSafe(levels, target);
  }

  /** A path of one segment longer than every rule, so that nothing matches it. */
  function FreshTarget(rules: seq<Rule>): (t: string)
    ensures |t| > 0
    ensures forall k :: 0 <= k < |t| ==> t[k] == 'x'
    ensures forall k :: 0 <= k < |rules| ==> |rules[k].0| < |t|
  {
    if rules == [] then "x"
    else
      var t := FreshTarget(rules[1..]);
      t + seq(|rules[0].0|, _ => 'x')
  }

  lemma FreshIsUnmatched(rules: seq<Rule>, target: string)
    requires forall k :: 0 <= k < |target| ==> target[k] == 'x'
    requires forall k :: 0 <= k < |rules| ==> |rules[k].0| < |target|
    ensures Unmatched(rules, target)
  {
    forall j | 0 <= j < |rules| ensures !Matches(target, rules[j].0) {
      assert target[|rules[j].0|..][0] == 'x' != "::"[0];
    }
  }

  /** The global maximum is no higher than needed: some target logs at exactly that level. */
  lemma MaxLevelIsAttained(levels: LogLevels) returns (target: string)
    ensures LevelForSpec(levels, target) == MaxLevelSpec(levels, levels.modules)
  {
    var k := MaxIsSome(levels, levels.modules);
    if k.Some? {
      target := levels.modules[k.value].0;
    } else {
      target := FreshTarget(levels.modules + LEVEL_CEILINGS);
      var all := levels.modules + LEVEL_CEILINGS;
      assert forall j :: 0 <= j < |levels.modules| ==> levels.modules[j] == all[j];
      assert forall j :: 0 <= j < |LEVEL_CEILINGS| ==> LEVEL_CEILINGS[j] == all[|levels.modules| + j];
      FreshIsUnmatched(levels.modules, target);
      FreshIsUnmatched(LEVEL_CEILINGS, target);
      CeiledIsBelow(BaseLevel(levels, None), target, LEVEL_CEILINGS);
    }
  }

  /** No configuration and no runtime level lifts minotari's HTTP client above `Info`. */
  lemma HttpNeverAboveInfo(levels: LogLevels, target: string)
    requires Matches(target, "minotari::http") || Matches(target, "minotari_wallet_core::http")
    ensures AtMost(LevelForSpec(levels, target), Info)
  {
    CeiledIsBelow(BaseLevel(levels, RuleLevel(levels, target)), target, LEVEL_CEILINGS);
    assert LEVEL_CEILINGS[0].0 == "minotari_wallet_core::http" && LEVEL_CEILINGS[1].0 == "minotari::http";
  }

  /** After a runtime change a rule stricter than the configured default still caps what it
      decides. */
  lemma NoiseCapsStay(levels: LogLevels, target: string, k: nat)
    requires Decides(levels.modules, target, k)
    requires levels.modules[k].1.Rank() < levels.configuredDefault.Rank()
    ensures AtMost(LevelForSpec(levels, target), levels.modules[k].1)
  {
    DecidesOnce(levels.modules, target, k, Decider(levels.modules, target).value);
    CeiledIsBelow(BaseLevel(levels, Some(levels.modules[k].1)), target, LEVEL_CEILINGS);
  }

  /** What a caller that sets no level for it gets for signing's payload summaries (recipients,
      amounts, memos): they stay at `Warn` or below exactly when the configured default is above
      `Warn`, or no runtime level above `Warn` is set. */
  lemma PayloadSummariesCapped(configuredDefault: Level, rules: seq<Rule>, runtime: Option<Level>)
    requires forall k :: 0 <= k < |rules| ==> rules[k].0 != PAYLOAD_SUMMARY_TARGET
    ensures var levels := New(configuredDefault, rules).(runtimeLevel := runtime);
            AtMost(LevelForSpec(levels, PAYLOAD_SUMMARY_TARGET), Warn) <==>
              configuredDefault.Rank() > Warn.Rank() || runtime.None? || AtMost(runtime.value, Warn)
  {
    var levels := New(configuredDefault, rules).(runtimeLevel := runtime);
    var k := |rules|;
    assert levels.modules[k] == (PAYLOAD_SUMMARY_TARGET, Warn);
    assert Decides(levels.modules, PAYLOAD_SUMMARY_TARGET, k);
    DecidesOnce(levels.modules, PAYLOAD_SUMMARY_TARGET, k, Decider(levels.modules, PAYLOAD_SUMMARY_TARGET).value);
    assert PAYLOAD_SUMMARY_TARGET[0] == 'c';
    assert forall j :: 0 <= j < |LEVEL_CEILINGS| ==> LEVEL_CEILINGS[j].0[0] == 'm';
    CeiledIsBelow(BaseLevel(levels, Some(Warn)), PAYLOAD_SUMMARY_TARGET, LEVEL_CEILINGS);
  }

  /** So a configuration that defaults to `Warn` or less lets them through once a runtime level
      above `Warn` is set. */
  lemma PayloadCapLost(configuredDefault: Level, runtime: Level)
    requires AtMost(configuredDefault, Warn) && !AtMost(runtime, Warn)
    ensures var levels := New(configuredDefault, []).(runtimeLevel := Some(runtime));
            !AtMost(LevelForSpec(levels, PAYLOAD_SUMMARY_TARGET), Warn)
  {
    PayloadSummariesCapped(configuredDefault, [], Some(runtime));
  }

  // ----- what `level_for` answers, for paths spelled out -----

  /** The order of the levels, from the strictest to the most verbose. */
  lemma LevelsInOrder(a: Level, b: Level)
    ensures AtMost(a, b) <==>
              match a {
                case Off => true
                case Error => b != Off
                case Warn => b != Off && b != Error
                case Info => b == Info || b == Debug || b == Trace
                case Debug => b == Debug || b == Trace
                case Trace => b == Trace
              }
  {
  }

  /** `target` is the path `m`, or `m` followed by `::` and more. */
  ghost predicate AtOrBelow(target: string, m: string) {
    target == m || exists rest: string :: target == m + "::" + rest
  }

  lemma MatchesMeans(target: string, m: string)
    ensures Matches(target, m) <==> AtOrBelow(target, m)
  {
    if target != m && Matches(target, m) {
      var rest := target[|m| + 2..];
      assert target == m + "::" + rest;
    }
    forall rest: string | target == m + "::" + rest ensures Matches(target, m) {
      assert target[|m|..] == "::" + rest;
    }
  }

  /** Of the rules for `target` or a path above it `k` has the longest path, and is the last of
      those. */
  ghost predicate LongestAbove(rules: seq<Rule>, target: string, k: nat) {
    && k < |rules| && AtOrBelow(target, rules[k].0)
    && forall j :: 0 <= j < |rules| && j != k && AtOrBelow(target, rules[j].0) ==>
                     |rules[j].0| < |rules[k].0| || (rules[j].0 == rules[k].0 && j < k)
  }

  lemma LongestDecides(rules: seq<Rule>, target: string, k: nat)
    requires LongestAbove(rules, target, k)
    ensures Decider(rules, target) == Some(k)
  {
    forall j | 0 <= j < |rules| ensures Matches(target, rules[j].0) <==> AtOrBelow(target, rules[j].0) {
      MatchesMeans(target, rules[j].0);
    }
    assert Decides(rules, target, k);
    DecidesOnce(rules, target, k, Decider(rules, target).value);
  }

  lemma NoneAbove(rules: seq<Rule>, target: string)
    requires forall j :: 0 <= j < |rules| ==> !AtOrBelow(target, rules[j].0)
    ensures Decider(rules, target) == None
  {
    forall j | 0 <= j < |rules| ensures !Matches(target, rules[j].0) {
      MatchesMeans(target, rules[j].0);
    }
  }

  ghost predicate OfHttpClient(target: string) {
    AtOrBelow(target, "minotari_wallet_core::http") || AtOrBelow(target, "minotari::http")
  }

  lemma CeiledMeans(level: Level, target: string)
    ensures Ceiled(level, target, LEVEL_CEILINGS) ==
            if OfHttpClient(target) && (level == Debug || level == Trace) then Info else level
  {
    MatchesMeans(target, "minotari_wallet_core::http");
    MatchesMeans(target, "minotari::http");
    var one := LEVEL_CEILINGS[..1];
    assert one == [("minotari_wallet_core::http", Info)] && one[..0] == [];
    assert Ceiled(level, target, []) == level;
    assert Ceiled(level, target, one) == if AtOrBelow(target, "minotari_wallet_core::http") then Min(level, Info) else level;
  }

  /** The level of a target with the deciding rule's level `l`, if there is one: without a runtime
      level the rule or the configured default; with one, the runtime level, unless the rule was
      stricter than the default and so still caps it. Minotari's HTTP clients get `Info` instead of
      anything more verbose. */
  ghost predicate IsLevelOf(levels: LogLevels, target: string, l: Option<Level>, level: Level) {
    var wanted :=
      if l.Some? && (levels.runtimeLevel.None? || (!AtMost(levels.configuredDefault, l.value) && AtMost(l.value, levels.runtimeLevel.value)))
      then l.value
      else if levels.runtimeLevel.Some? then levels.runtimeLevel.value
      else levels.configuredDefault;
    level == if OfHttpClient(target) && (wanted == Debug || wanted == Trace) then Info else wanted
  }

  /** The rule with the longest path at or above a target decides, and the last of equal ones. */
  lemma LongestRuleDecides(levels: LogLevels, target: string, k: nat)
    requires LongestAbove(levels.modules, target, k)
    ensures IsLevelOf(levels, target, Some(levels.modules[k].1), LevelForSpec(levels, target))
  {
    LongestDecides(levels.modules, target, k);
    CeiledMeans(BaseLevel(levels, Some(levels.modules[k].1)), target);
  }

  lemma NoRuleDecides(levels: LogLevels, target: string)
    requires forall j :: 0 <= j < |levels.modules| ==> !AtOrBelow(target, levels.modules[j].0)
    ensures IsLevelOf(levels, target, None, LevelForSpec(levels, target))
  {
    NoneAbove(levels.modules, target);
    CeiledMeans(BaseLevel(levels, None), target);
  }

  lemma BelowIsBelow(m: string, rest: string)
    ensures AtOrBelow(m, m) && AtOrBelow(m + "::" + rest, m)
  {
  }

  /** A path that goes on with anything but `::` is another path. */
  lemma NextToIsNotBelow(m: string, c: char, rest: string)
    requires c != ':'
    ensures !AtOrBelow(m + [c] + rest, m)
    ensures !AtOrBelow(m + [':'] + [c] + rest, m)
    ensures !AtOrBelow(m + [':'], m)
  {
    var near, nearer := m + [c] + rest, m + [':'] + [c] + rest;
    assert near[|m|] == c && nearer[|m| + 1] == c;
    forall other: string
      ensures near != m + "::" + other && nearer != m + "::" + other && m + [':'] != m + "::" + other
    {
      assert (m + "::" + other)[|m|] == ':' && (m + "::" + other)[|m| + 1] == ':';
    }
  }

  /** One rule `(m, l)` and no runtime level: `m` and everything below it log at `l`, a path that
      only starts like `m` at the default. */
  lemma OneRule(configuredDefault: Level, m: string, l: Level, c: char, rest: string)
    requires c != ':'
    requires !OfHttpClient(m) && !OfHttpClient(m + "::" + rest) && !OfHttpClient(m + [c] + rest)
    ensures var levels := LogLevels(configuredDefault, [(m, l)], None);
            && LevelForSpec(levels, m) == l
            && LevelForSpec(levels, m + "::" + rest) == l
            && LevelForSpec(levels, m + [c] + rest) == configuredDefault
  {
    var levels := LogLevels(configuredDefault, [(m, l)], None);
    BelowIsBelow(m, rest);
    NextToIsNotBelow(m, c, rest);
    LongestRuleDecides(levels, m, 0);
    LongestRuleDecides(levels, m + "::" + rest, 0);
    NoRuleDecides(levels, m + [c] + rest);
  }

  /** A rule for a path below `m` overrides the rule for `m` there and nowhere else, whichever comes
      first; of two rules for one path the later holds. */
  lemma TwoRules(configuredDefault: Level, m: string, l: Level, more: string, finer: Level, rest: string)
    requires !OfHttpClient(m) && !OfHttpClient(m + "::" + more) && !OfHttpClient(m + "::" + more + "::" + rest)
    ensures var coarse, fine := (m, l), (m + "::" + more, finer);
            forall modules: seq<Rule> | modules == [coarse, fine] || modules == [fine, coarse] ::
              var levels := LogLevels(configuredDefault, modules, None);
              && LevelForSpec(levels, m) == l
              && LevelForSpec(levels, m + "::" + more) == finer
              && LevelForSpec(levels, m + "::" + more + "::" + rest) == finer
    ensures LevelForSpec(LogLevels(configuredDefault, [(m, finer), (m, l)], None), m) == l
  {
    var below := m + "::" + more;
    var deep := below + "::" + rest;
    forall modules: seq<Rule> | modules == [(m, l), (below, finer)] || modules == [(below, finer), (m, l)]
      ensures var levels := LogLevels(configuredDefault, modules, None);
              LevelForSpec(levels, m) == l && LevelForSpec(levels, below) == finer && LevelForSpec(levels, deep) == finer
    {
      var levels := LogLevels(configuredDefault, modules, None);
      var k := if modules[0].0 == below then 0 else 1;
      LongestRuleDecides(levels, m, 1 - k);
      LongestRuleDecides(levels, below, k);
      LongestRuleDecides(levels, deep, k);
    }
    LongestRuleDecides(LogLevels(configuredDefault, [(m, finer), (m, l)], None), m, 1);
  }

  /** Under every configuration and runtime level minotari's two HTTP client paths, and whatever is
      below them, log at `Info` or less. */
  lemma HttpClientStaysQuiet(levels: LogLevels, rest: string)
    ensures forall target: string | target in {"minotari_wallet_core::http", "minotari_wallet_core::http" + "::" + rest,
                                       "minotari::http", "minotari::http" + "::" + rest} ::
              LevelForSpec(levels, target) in {Off, Error, Warn, Info}
  {
    BelowIsBelow("minotari_wallet_core::http", rest);
    BelowIsBelow("minotari::http", rest);
    forall target: string | target in {"minotari_wallet_core::http", "minotari_wallet_core::http" + "::" + rest,
                               "minotari::http", "minotari::http" + "::" + rest}
      ensures LevelForSpec(levels, target) in {Off, Error, Warn, Info}
    {
      CeiledMeans(BaseLevel(levels, RuleLevel(levels, target)), target);
    }
  }

  /** The cap on signing's payload summaries is added to rules without one, gives way to a rule of
      the caller's own, and touches no path outside its own. */
  lemma PayloadCapOnlyThere(configuredDefault: Level, rules: seq<Rule>, target: string)
    ensures !AtOrBelow(target, "c::tx::offline_signing") ==>
              LevelForSpec(New(configuredDefault, rules), target)
              == LevelForSpec(LogLevels(configuredDefault, rules, None), target)
    ensures (exists k :: 0 <= k < |rules| && rules[k].0 == "c::tx::offline_signing") ==>
              New(configuredDefault, rules) == LogLevels(configuredDefault, rules, None)
  {
    var more := WithPayloadSummaryCap(rules);
    if more != rules && !AtOrBelow(target, PAYLOAD_SUMMARY_TARGET) {
      MatchesMeans(target, PAYLOAD_SUMMARY_TARGET);
      assert more[..|rules|] == rules;
    }
  }
}
