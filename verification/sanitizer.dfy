/** The rule compiler and text sanitizer (src/sanitizer.py): a rule list is
    compiled into an ordered set of (matcher, placeholder) pairs, and text is
    rewritten by applying the pairs one after another. */
module Sanitization {
  import opened Values
  import opened FilterMaps
  import opened Regex

  /** Replacement used when a rule has no `placeholder` key. */
  const DefaultPlaceholder: string := "[REDACTED]"

  datatype CompiledRule = CompiledRule(matcher: Matcher, placeholder: Value)

  /** `rule.get("pattern", "")` */
  function PatternOf(fields: map<string, Value>): Value {
    Get(fields, "pattern", VStr(""))
  }

  /** `rule.get("placeholder", "[REDACTED]")` */
  function PlaceholderOf(fields: map<string, Value>): Value {
    Get(fields, "placeholder", VStr(DefaultPlaceholder))
  }

  /** The four conditions a rule must meet to be compiled: it is a dict, it is
      enabled (by default), its pattern is a non-empty string, and that pattern
      compiles. */
  predicate Compilable(engine: Engine, rule: Value) {
    && rule.VDict?
    && Truthy(Get(rule.fields, "enabled", VBool(true)))
    && PatternOf(rule.fields).VStr?
    && PatternOf(rule.fields).s != ""
    && engine.accepts(PatternOf(rule.fields).s, CompileFlags)
  }

  /** `re.compile` on whatever the rule holds under `pattern`: anything but a
      string makes it raise. */
  function CompilePattern(engine: Engine, pattern: Value): Option<Matcher> {
    if pattern.VStr? then Compile(engine, pattern.s) else None
  }

  /** One turn of the loop in `update_rules`: the pair it appends, if any. */
  function CompileRule(engine: Engine, rule: Value): (r: Option<CompiledRule>)
    ensures r.Some? <==> Compilable(engine, rule)
    ensures r.Some? ==> r.value.matcher == Matcher(PatternOf(rule.fields).s, CompileFlags)
    ensures r.Some? ==> r.value.placeholder == (if "placeholder" in rule.fields then rule.fields["placeholder"]
                                                else VStr(DefaultPlaceholder))
  {
    if !rule.VDict? then None
    else if !Truthy(Get(rule.fields, "enabled", VBool(true))) then None
    else
      var pattern := PatternOf(rule.fields);
      var placeholder := PlaceholderOf(rule.fields);
      if !Truthy(pattern) then None
      else
        match CompilePattern(engine, pattern)
        case None => None
        case Some(m) => Some(CompiledRule(m, placeholder))
  }

  function Compiler(engine: Engine): Value -> Option<CompiledRule> {
    rule => CompileRule(engine, rule)
  }

  /** The compiled set `update_rules(rules)` leaves behind. */
  function CompiledFor(engine: Engine, rules: Value): (r: seq<CompiledRule>)
    ensures !rules.VList? ==> r == []
    ensures rules.VList? ==> |r| <= |rules.items|
  {
    if rules.VList? then FilterMap(Compiler(engine), rules.items) else []
  }

  /** Whether `regex.sub(placeholder, text)` raises: the placeholder is not a
      string, or the engine rejects the substitution. */
  predicate SubFails(engine: Engine, c: CompiledRule, text: string) {
    !c.placeholder.VStr? || engine.sub(c.matcher, c.placeholder.s, text).None?
  }

  /** One guarded substitution step of `sanitize`. */
  function ApplyRule(engine: Engine, c: CompiledRule, text: string): (r: string)
    ensures SubFails(engine, c, text) ==> r == text
    ensures !SubFails(engine, c, text) ==> Some(r) == engine.sub(c.matcher, c.placeholder.s, text)
  {
    match c.placeholder
    case VStr(p) =>
      (match engine.sub(c.matcher, p, text)
       case Some(t) => t
       case None => text)
    case _ => text
  }

  /** The left fold of `ApplyRule` over `rules`, starting from `text`. */
  function Fold(engine: Engine, rules: seq<CompiledRule>, text: string): string
    decreases |rules|
  {
    if rules == [] then text else Fold(engine, rules[1..], ApplyRule(engine, rules[0], text))
  }

  /** What `sanitize(text)` returns for a given compiled set. */
  function Sanitized(engine: Engine, compiled: seq<CompiledRule>, text: string): string {
    if text == "" then text else Fold(engine, compiled, text)
  }

  class Sanitizer {
    /** the regular-expression engine (the `re` module) */
    const engine: Engine
    /** `self.compiled`: the (matcher, placeholder) pairs, in rule order */
    var compiled: seq<CompiledRule>

    constructor (engine: Engine, rules: Value)
      ensures this.engine == engine
      ensures compiled == CompiledFor(engine, rules)
    {
      this.engine := engine;
      compiled := [];
      new;
      UpdateRules(rules);
    }

    /** Clears the compiled set and rebuilds it from `rules`. */
    method UpdateRules(rules: Value)
      modifies this
      ensures compiled == CompiledFor(engine, rules)
      ensures !rules.VList? ==> compiled == []
    {
      compiled := [];
      if !rules.VList? {
        return;
      }
      var items := rules.items;
      var i := 0;
      while i < |items|
        invariant 0 <= i <= |items|
        invariant compiled == FilterMap(Compiler(engine), items[..i])
      {
        var rule := items[i];
        if rule.VDict? && Truthy(Get(rule.fields, "enabled", VBool(true))) {
          var pattern := Get(rule.fields, "pattern", VStr(""));
          var placeholder := Get(rule.fields, "placeholder", VStr(DefaultPlaceholder));
          if Truthy(pattern) {
            var regex := CompilePattern(engine, pattern);
            if regex.Some? {
              compiled := compiled + [CompiledRule(regex.value, placeholder)];
            }
          }
        }
        assert items[..i + 1][..i] == items[..i];
        i := i + 1;
      }
      assert items[..i] == items;
    }

    /** Applies every compiled pair in order, each to the previous result;
        a pair whose substitution raises is skipped. */
    method Sanitize(text: string) returns (result: string)
      ensures result == Sanitized(engine, compiled, text)
      ensures text == "" ==> result == text
      ensures compiled == [] ==> result == text
    {
      if text == "" {
        return text;
      }
      result := text;
      for i := 0 to |compiled|
        invariant Fold(engine, compiled[i..], result) == Fold(engine, compiled, text)
      {
        var c := compiled[i];
        match c.placeholder {
          case VStr(p) =>
            var r := engine.sub(c.matcher, p, result);
            if r.Some? {
              result := r.value;
            }
          case _ =>
        }
        assert compiled[i..][1..] == compiled[i + 1..];
      }
    }
  }

  /** Applying `a` then `b` is applying `a` and feeding its output to `b`:
      each rule sees the previous rule's output, never the original text. */
  lemma {:induction false} FoldSequential(engine: Engine, a: seq<CompiledRule>, b: seq<CompiledRule>, text: string)
    ensures Fold(engine, a + b, text) == Fold(engine, b, Fold(engine, a, text))
    decreases |a|
  {
    if a == [] {
      assert a + b == b;
    } else {
      assert (a + b)[1..] == a[1..] + b;
      FoldSequential(engine, a[1..], b, ApplyRule(engine, a[0], text));
    }
  }

  /** The result after rule `i` is rule `i` applied to the result after the
      rules before it. */
  lemma FoldStep(engine: Engine, rules: seq<CompiledRule>, i: nat, text: string)
    requires i < |rules|
    ensures Fold(engine, rules[..i + 1], text) == ApplyRule(engine, rules[i], Fold(engine, rules[..i], text))
  {
    assert rules[..i + 1] == rules[..i] + [rules[i]];
    FoldSequential(engine, rules[..i], [rules[i]], text);
  }

  /** A rule whose substitution raises where it is reached has the same effect
      as leaving it out of the compiled set. */
  lemma FailingRuleIsSkipped(engine: Engine, rules: seq<CompiledRule>, i: nat, text: string)
    requires i < |rules|
    requires SubFails(engine, rules[i], Fold(engine, rules[..i], text))
    ensures Fold(engine, rules, text) == Fold(engine, rules[..i] + rules[i + 1..], text)
  {
    assert rules == rules[..i] + ([rules[i]] + rules[i + 1..]);
    FoldSequential(engine, rules[..i], [rules[i]] + rules[i + 1..], text);
    FoldSequential(engine, rules[..i], rules[i + 1..], text);
  }

  /** The compiled set holds, in input order, exactly the input rules that
      meet the four conditions of `Compilable`, each with its placeholder. */
  lemma CompiledSelectsCompilable(engine: Engine, rules: seq<Value>)
    ensures exists idx :: Selects(Compiler(engine), rules, CompiledFor(engine, VList(rules)), idx)
  {
    assert CompiledFor(engine, VList(rules)) == FilterMap(Compiler(engine), rules);
    FilterMapSelects(Compiler(engine), rules);
  }

  /** A rule that is skipped (malformed, disabled, empty pattern, pattern that
      does not compile) does not stop the rules after it from being compiled. */
  lemma SkippedRuleIsolated(engine: Engine, before: seq<Value>, rule: Value, after: seq<Value>)
    requires !Compilable(engine, rule)
    ensures CompiledFor(engine, VList(before + [rule] + after))
         == CompiledFor(engine, VList(before)) + CompiledFor(engine, VList(after))
  {
    var f := Compiler(engine);
    assert f(rule).None?;
    assert [rule][..0] == [];
    assert FilterMap(f, [rule]) == [];
    FilterMapAppend(f, before, [rule]);
    FilterMapAppend(f, before + [rule], after);
  }

  /** With every rule disabled nothing is compiled and any text comes back
      unchanged. */
  lemma AllDisabledIsIdentity(engine: Engine, rules: seq<Value>, text: string)
    requires forall i :: 0 <= i < |rules| ==> rules[i].VDict? && !Truthy(Get(rules[i].fields, "enabled", VBool(true)))
    ensures CompiledFor(engine, VList(rules)) == []
    ensures Sanitized(engine, CompiledFor(engine, VList(rules)), text) == text
  {
    FilterMapNone(Compiler(engine), rules);
  }

  /** Two rules R1 = a -> X and R2 = X -> Y: in the order R1, R2 the text "a"
      becomes "Y" (R2 sees R1's output); in the order R2, R1 it becomes "X". */
  lemma OrderMatters(engine: Engine, r1: CompiledRule, r2: CompiledRule)
    requires r1.placeholder == VStr("X") && r2.placeholder == VStr("Y")
    requires engine.sub(r1.matcher, "X", "a") == Some("X")
    requires engine.sub(r2.matcher, "Y", "X") == Some("Y")
    requires engine.sub(r2.matcher, "Y", "a") == Some("a")
    ensures Sanitized(engine, [r1, r2], "a") == "Y"
    ensures Sanitized(engine, [r2, r1], "a") == "X"
  {
    assert ApplyRule(engine, r1, "a") == "X" && ApplyRule(engine, r2, "X") == "Y";
    assert [r1, r2][1..] == [r2];
    assert Fold(engine, [r2], "X") == "Y";
    assert ApplyRule(engine, r2, "a") == "a" && ApplyRule(engine, r1, "a") == "X";
    assert [r2, r1][1..] == [r1];
    assert Fold(engine, [r1], "a") == "X";
  }

  /** The method `update_rules` followed by `sanitize`, twice with the same
      rule list: the second round behaves exactly like the first, whatever the
      compiled set was before. */
  method ReloadSameRules(s: Sanitizer, rules: Value, text: string) returns (first: string, second: string)
    modifies s
    ensures first == second
    ensures first == Sanitized(s.engine, CompiledFor(s.engine, rules), text)
  {
    s.UpdateRules(rules);
    first := s.Sanitize(text);
    s.UpdateRules(rules);
    second := s.Sanitize(text);
  }
}
