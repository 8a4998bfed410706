/** Start-up handling of the configuration (src/main.py): rule-list
    validation and the shape the loaded configuration is forced into before
    the sanitizer and the tray application see it. */
module Startup {
  import opened Values
  import opened FilterMaps
  import opened Regex
  import opened Sanitization
  import Config

  /** A rule `_validate_rules` keeps: a dict with both a `pattern` and a
      `placeholder` key (whatever their values). */
  predicate WellFormedRule(rule: Value) {
    rule.VDict? && "pattern" in rule.fields && "placeholder" in rule.fields
  }

  function KeepWellFormed(rule: Value): Option<Value> {
    if WellFormedRule(rule) then Some(rule) else None
  }

  /** The list `_validate_rules(rules)` returns. */
  function ValidRules(rules: Value): (r: seq<Value>)
    ensures !rules.VList? ==> r == []
    ensures rules.VList? ==> |r| <= |rules.items|
  {
    if rules.VList? then FilterMap(KeepWellFormed, rules.items) else []
  }

  /** `_validate_rules(rules)` */
  method ValidateRules(rules: Value) returns (valid: seq<Value>)
    ensures valid == ValidRules(rules)
    ensures forall k :: 0 <= k < |valid| ==> WellFormedRule(valid[k])
  {
    if !rules.VList? {
      return [];
    }
    var items := rules.items;
    valid := [];
    var i := 0;
    while i < |items|
      invariant 0 <= i <= |items|
      invariant valid == FilterMap(KeepWellFormed, items[..i])
      invariant forall k :: 0 <= k < |valid| ==> WellFormedRule(valid[k])
    {
      var rule := items[i];
      if rule.VDict? && "pattern" in rule.fields && "placeholder" in rule.fields {
        valid := valid + [rule];
      }
      assert items[..i + 1][..i] == items[..i];
      i := i + 1;
    }
    assert items[..i] == items;
  }

  /** The validated list is the input list with exactly the ill-formed
      elements removed: an order-preserving selection of the well-formed
      ones. */
  lemma ValidRulesSelectsWellFormed(rules: seq<Value>)
    ensures exists idx :: Selects(KeepWellFormed, rules, ValidRules(VList(rules)), idx)
    ensures forall k :: 0 <= k < |ValidRules(VList(rules))| ==> ValidRules(VList(rules))[k] in rules
  {
    var r := ValidRules(VList(rules));
    FilterMapSelects(KeepWellFormed, rules);
    var idx :| Selects(KeepWellFormed, rules, r, idx);
    forall k | 0 <= k < |r|
      ensures r[k] in rules
    {
      assert KeepWellFormed(rules[idx[k]]) == Some(r[k]);
    }
  }

  /** What `load_config()` did, as `main` sees it: returned a value or
      raised. */
  datatype LoadOutcome = LoadRaised | Loaded(cfg: Value)

  /** Lines 121-130 of `main`: the configuration handed to the sanitizer
      and the tray application. */
  method StartupConfig(outcome: LoadOutcome) returns (cfg: map<string, Value>)
    ensures "enabled" in cfg && "rules" in cfg && cfg["rules"].VList?
    ensures forall k :: 0 <= k < |cfg["rules"].items| ==> WellFormedRule(cfg["rules"].items[k])
    ensures !(outcome.Loaded? && outcome.cfg.VDict?) ==> cfg == Config.EmptyConfig
    ensures outcome.Loaded? && outcome.cfg.VDict? ==>
              var loaded := outcome.cfg.fields;
              && cfg.Keys == loaded.Keys + {"enabled", "rules"}
              && cfg["enabled"] == Get(loaded, "enabled", VBool(true))
              && cfg["rules"] == VList(ValidRules(Get(loaded, "rules", VList([]))))
              && forall k :: k in loaded && k != "enabled" && k != "rules" ==> cfg[k] == loaded[k]
  {
    match outcome {
      case LoadRaised =>
        cfg := Config.EmptyConfig;
      case Loaded(v) =>
        if !v.VDict? {
          cfg := Config.EmptyConfig;
        } else {
          cfg := v.fields;
          if "enabled" !in cfg {
            cfg := cfg["enabled" := VBool(true)];
          }
          var valid := ValidateRules(Get(cfg, "rules", VList([])));
          cfg := cfg["rules" := VList(valid)];
        }
    }
  }

  /** Every rule that reaches the sanitizer at start-up carries its own
      `placeholder` key, so the sanitizer's "[REDACTED]" default is never used
      for them: each compiled pair holds the placeholder of the rule it came
      from, an empty string included: pair `j` comes from input rule `idx[j]`. */
  lemma StartupPlaceholdersAreExplicit(engine: Engine, rules: seq<Value>)
    requires forall k :: 0 <= k < |rules| ==> WellFormedRule(rules[k])
    ensures var compiled := CompiledFor(engine, VList(rules));
            exists idx :: && Selects(Compiler(engine), rules, compiled, idx)
                          && forall j :: 0 <= j < |compiled| && idx[j] < |rules| ==>
                               && WellFormedRule(rules[idx[j]])
                               && compiled[j].placeholder == rules[idx[j]].fields["placeholder"]
  {
    var f := Compiler(engine);
    var compiled := CompiledFor(engine, VList(rules));
    FilterMapSelects(f, rules);
    var idx :| Selects(f, rules, compiled, idx);
    forall j | 0 <= j < |compiled| && idx[j] < |rules|
      ensures WellFormedRule(rules[idx[j]])
      ensures compiled[j].placeholder == rules[idx[j]].fields["placeholder"]
    {
      assert CompileRule(engine, rules[idx[j]]) == Some(compiled[j]);
    }
  }

  /** The three default rules all survive validation unchanged, and with an
      engine that accepts their patterns they compile to the placeholders
      [EMAIL], [PHONE], [SSN], in that order. */
  lemma DefaultRulesCompile(engine: Engine)
    requires forall k :: 0 <= k < 3 ==>
               engine.accepts(Config.DefaultConfig()["rules"].items[k].fields["pattern"].s, CompileFlags)
    ensures ValidRules(Config.DefaultConfig()["rules"]) == Config.DefaultConfig()["rules"].items
    ensures var compiled := CompiledFor(engine, Config.DefaultConfig()["rules"]);
            && |compiled| == 3
            && compiled[0].placeholder == VStr("[EMAIL]")
            && compiled[1].placeholder == VStr("[PHONE]")
            && compiled[2].placeholder == VStr("[SSN]")
  {
    var items := Config.DefaultConfig()["rules"].items;
    var f := Compiler(engine);
    assert items[..1][..0] == [] && items[..2][..1] == items[..1] && items[..3][..2] == items[..2];
    assert items[..3] == items;
    forall k | 0 <= k < 3
      ensures KeepWellFormed(items[k]) == Some(items[k])
      ensures f(items[k]).Some? && f(items[k]).value.placeholder == items[k].fields["placeholder"]
    {
    }
    assert FilterMap(KeepWellFormed, items[..1]) == [items[0]];
    assert FilterMap(KeepWellFormed, items[..2]) == [items[0], items[1]];
    assert FilterMap(KeepWellFormed, items[..3]) == [items[0], items[1], items[2]];
    assert FilterMap(f, items[..1]) == [f(items[0]).value];
    assert FilterMap(f, items[..2]) == [f(items[0]).value, f(items[1]).value];
    assert FilterMap(f, items[..3]) == [f(items[0]).value, f(items[1]).value, f(items[2]).value];
  }
}
