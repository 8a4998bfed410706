/** Configuration defaults and the normalisation applied to a loaded
    configuration file (src/config.py). The file system and the TOML decoder
    are not modelled: a `ConfigStore` says what reading the file produced. */
module Config {
  import opened Values

  /** `{"enabled": True, "rules": []}`, the last-resort configuration. */
  const EmptyConfig: map<string, Value> := map["enabled" := VBool(true), "rules" := VList([])]

  function DefaultRule(name: string, pattern: string, placeholder: string): Value {
    VDict(map["name" := VStr(name), "pattern" := VStr(pattern),
              "placeholder" := VStr(placeholder), "enabled" := VBool(true)])
  }

  /** A rule that is switched on and carries a non-empty pattern and the given
      placeholder. */
  predicate EnabledRuleWith(rule: Value, placeholder: string) {
    && rule.VDict?
    && Get(rule.fields, "enabled", VBool(false)) == VBool(true)
    && "pattern" in rule.fields && rule.fields["pattern"].VStr? && rule.fields["pattern"].s != ""
    && Get(rule.fields, "placeholder", VNone) == VStr(placeholder)
  }

  /** `default_config()`: enabled, with the e-mail, phone-number and
      social-security-number rules in that order. */
  function DefaultConfig(): (cfg: map<string, Value>)
    ensures cfg.Keys == {"enabled", "rules"}
    ensures cfg["enabled"] == VBool(true)
    ensures cfg["rules"].VList? && |cfg["rules"].items| == 3
    ensures EnabledRuleWith(cfg["rules"].items[0], "[EMAIL]")
    ensures EnabledRuleWith(cfg["rules"].items[1], "[PHONE]")
    ensures EnabledRuleWith(cfg["rules"].items[2], "[SSN]")
  {
    map[
      "enabled" := VBool(true),
      "rules" := VList([
        DefaultRule("Email Addresses",
                    @"[a-zA-Z0-9._%+-]+@[a-zA-Z0-9.-]+\.[a-zA-Z]{2,}", "[EMAIL]"),
        DefaultRule("Phone Numbers",
                    @"\b(?:\+?\d{1,3}[-.\s]?)?\(?\d{3}\)?[-.\s]?\d{3}[-.\s]?\d{4}\b", "[PHONE]"),
        DefaultRule("Social Security Numbers",
                    @"\b\d{3}-\d{2}-\d{4}\b", "[SSN]")
      ])
    ]
  }

  /** Whether `if "enabled" not in rule: rule["enabled"] = True` runs without
      raising. On a string `in` is a substring test and item assignment
      raises; on a list `in` compares elements and string indexing raises;
      on anything else `in` raises. */
  predicate NormalizableRule(rule: Value) {
    match rule
    case VDict(_) => true
    case VStr(s) => Contains(s, "enabled")
    case VList(items) => VStr("enabled") in items
    case _ => false
  }

  /** The rule after that statement: a dict gains `"enabled": True` when it
      lacks the key; anything else is left as it is. */
  function NormalizedRule(rule: Value): (r: Value)
    ensures rule.VDict? ==> r.VDict? && r.fields.Keys == rule.fields.Keys + {"enabled"}
    ensures rule.VDict? && "enabled" !in rule.fields ==> r.fields["enabled"] == VBool(true)
    ensures rule.VDict? ==> forall k :: k in rule.fields ==> r.fields[k] == rule.fields[k]
    ensures !rule.VDict? ==> r == rule
  {
    if rule.VDict? && "enabled" !in rule.fields then VDict(rule.fields["enabled" := VBool(true)]) else rule
  }

  /** Whether `for rule in cfg["rules"]: ...` runs without raising. Iterating
      a string yields one-character strings, none of which contains
      "enabled"; iterating a dict yields its keys; other scalars are not
      iterable. */
  predicate NormalizableRules(rules: Value) {
    match rules
    case VList(items) => forall i :: 0 <= i < |items| ==> NormalizableRule(items[i])
    case VStr(s) => s == ""
    case VDict(fields) => forall k :: k in fields ==> Contains(k, "enabled")
    case _ => false
  }

  /** The rule list after the loop: each rule of a list normalised in place. */
  function NormalizedRules(rules: Value): (r: Value)
    ensures rules.VList? ==> r.VList? && |r.items| == |rules.items|
    ensures rules.VList? ==> forall i :: 0 <= i < |rules.items| ==> r.items[i] == NormalizedRule(rules.items[i])
    ensures !rules.VList? ==> r == rules
  {
    if rules.VList? then
      VList(seq(|rules.items|, i requires 0 <= i < |rules.items| => NormalizedRule(rules.items[i])))
    else rules
  }

  /** The normalisation of a decoded configuration table, `None` when it
      raises. */
  function Normalized(table: map<string, Value>): (r: Option<map<string, Value>>)
    ensures r.Some? ==> r.value.Keys == table.Keys + {"enabled", "rules"}
    ensures r.Some? ==> r.value["enabled"] == Get(table, "enabled", VBool(true))
    ensures r.Some? ==> r.value["rules"] == NormalizedRules(Get(table, "rules", VList([])))
    ensures r.Some? ==> forall k :: k in table && k != "rules" ==> r.value[k] == table[k]
    ensures r.None? <==> !NormalizableRules(Get(table, "rules", VList([])))
  {
    var withEnabled := if "enabled" in table then table else table["enabled" := VBool(true)];
    var withRules := if "rules" in withEnabled then withEnabled else withEnabled["rules" := VList([])];
    var rules := withRules["rules"];
    if NormalizableRules(rules) then Some(withRules["rules" := NormalizedRules(rules)]) else None
  }

  /** The steps of `load_config` that run in place on the decoded table. */
  method NormalizeLoaded(table: map<string, Value>) returns (cfg: Option<map<string, Value>>)
    ensures cfg == Normalized(table)
  {
    var c := table;
    if "enabled" !in c {
      c := c["enabled" := VBool(true)];
    }
    if "rules" !in c {
      c := c["rules" := VList([])];
    }
    assert c == (var e := if "enabled" in table then table else table["enabled" := VBool(true)];
                 if "rules" in e then e else e["rules" := VList([])]);
    match c["rules"] {
      case VList(items) =>
        var rules := items;
        var i := 0;
        while i < |rules|
          invariant 0 <= i <= |rules| == |items|
          invariant forall k :: 0 <= k < i ==> NormalizableRule(items[k]) && rules[k] == NormalizedRule(items[k])
          invariant forall k :: i <= k < |rules| ==> rules[k] == items[k]
        {
          assert rules[i] == items[i];
          match rules[i] {
            case VDict(fields) =>
              if "enabled" !in fields {
                rules := rules[i := VDict(fields["enabled" := VBool(true)])];
              }
            case VStr(s) =>
              if !Contains(s, "enabled") {
                assert !NormalizableRules(c["rules"]);
                return None;
              }
            case VList(elements) =>
              if VStr("enabled") !in elements {
                assert !NormalizableRules(c["rules"]);
                return None;
              }
            case _ =>
              assert !NormalizableRules(c["rules"]);
              return None;
          }
          i := i + 1;
        }
        assert NormalizedRules(c["rules"]) == VList(rules);
        cfg := Some(c["rules" := VList(rules)]);
      case VStr(s) =>
        assert c["rules" := c["rules"]] == c;
        cfg := if s == "" then Some(c) else None;
      case VDict(fields) =>
        assert c["rules" := c["rules"]] == c;
        cfg := if forall k :: k in fields ==> Contains(k, "enabled") then Some(c) else None;
      case _ =>
        cfg := None;
    }
  }

  /** What reading the configuration file gave. */
  datatype ConfigStore =
    | DirectoryFailure            // creating the configuration directory raised
    | NoFile                      // no configuration file yet
    | Unreadable                  // opening or decoding the file raised
    | Decoded(table: map<string, Value>)

  /** `load_config()` */
  method LoadConfig(store: ConfigStore) returns (cfg: map<string, Value>)
    ensures "enabled" in cfg && "rules" in cfg
    ensures store.DirectoryFailure? ==> cfg == EmptyConfig
    ensures store.NoFile? || store.Unreadable? ==> cfg == DefaultConfig()
    ensures store.Decoded? && Normalized(store.table).Some? ==> cfg == Normalized(store.table).value
    ensures store.Decoded? && Normalized(store.table).None? ==> cfg == DefaultConfig()
  {
    match store {
      case DirectoryFailure =>
        return EmptyConfig;
      case Decoded(table) =>
        var normalized := NormalizeLoaded(table);
        if normalized.Some? {
          return normalized.value;
        }
      case _ =>
    }
    cfg := DefaultConfig();
  }

  /** Normalising twice is normalising once. */
  lemma NormalizeIdempotent(table: map<string, Value>)
    requires Normalized(table).Some?
    ensures Normalized(Normalized(table).value) == Normalized(table)
  {
    var c := Normalized(table).value;
    var rules := Get(table, "rules", VList([]));
    assert c["rules"] == NormalizedRules(rules);
    if rules.VList? {
      var items := c["rules"].items;
      forall i | 0 <= i < |items|
        ensures NormalizableRule(items[i]) && NormalizedRule(items[i]) == items[i]
      {
        assert NormalizableRule(rules.items[i]);
      }
      assert NormalizedRules(c["rules"]) == c["rules"];
    }
    assert c["rules" := NormalizedRules(c["rules"])] == c;
  }

  /** The default configuration is already normal. */
  lemma DefaultConfigIsNormal()
    ensures Normalized(DefaultConfig()) == Some(DefaultConfig())
  {
    var c := DefaultConfig();
    var items := c["rules"].items;
    assert NormalizableRules(c["rules"]);
    assert NormalizedRules(c["rules"]) == c["rules"];
    assert c["rules" := c["rules"]] == c;
  }
}
