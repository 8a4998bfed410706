/** The state of the tray application (src/tray_app.py) that is not user
    interface: the clipboard poll, the on/off switch, and the two ways the
    rule list changes at run time (a rule typed into the "Add Rule" dialog,
    a rule file imported). The system clipboard is a field; the dialog's
    widgets and the file chooser become parameters. */
module Tray {
  import opened Values
  import opened Regex
  import opened Sanitization
  import Startup

  /** Python's `str.isspace` on one character: the characters `str.strip()`
      removes. */
  predicate IsSpace(c: char) {
    var n := c as int;
    || 0x09 <= n <= 0x0D
    || 0x1C <= n <= 0x20
    || n == 0x85 || n == 0xA0 || n == 0x1680
    || 0x2000 <= n <= 0x200A
    || n == 0x2028 || n == 0x2029 || n == 0x202F || n == 0x205F || n == 0x3000
  }

  ghost predicate AllSpace(s: string) {
    forall k :: 0 <= k < |s| ==> IsSpace(s[k])
  }

  /** The length of the run of white space `s` starts with. */
  function LeadingSpaces(s: string): (n: nat)
    ensures n <= |s|
    ensures forall k :: 0 <= k < n ==> IsSpace(s[k])
    ensures n < |s| ==> !IsSpace(s[n])
  {
    if s != [] && IsSpace(s[0]) then
      1 + LeadingSpaces(s[1..])
    else 0
  }

  /** The length of the run of white space `s` ends with. */
  function TrailingSpaces(s: string): (n: nat)
    ensures n <= |s|
    ensures forall k :: |s| - n <= k < |s| ==> IsSpace(s[k])
    ensures n < |s| ==> !IsSpace(s[|s| - 1 - n])
  {
    if s != [] && IsSpace(s[|s| - 1]) then
      1 + TrailingSpaces(s[..|s| - 1])
    else 0
  }

  /** `s.strip()`: `s` without its leading and trailing white space. */
  function Strip(s: string): (r: string)
    ensures r == "" <==> AllSpace(s)
    ensures r != "" ==> !IsSpace(r[0]) && !IsSpace(r[|r| - 1])
    ensures exists i :: 0 <= i <= |s| - |r| && r == s[i..i + |r|] && AllSpace(s[..i]) && AllSpace(s[i + |r|..])
  {
    var lead := LeadingSpaces(s);
    if lead == |s| then
      assert s[..lead] == s;
      assert s[..0] == [] && s[0..0] == "";
      ""
    else
      var trail := TrailingSpaces(s);
      assert !IsSpace(s[lead]);
      var r := s[lead..|s| - trail];
      assert !AllSpace(s) by {
        assert !IsSpace(s[lead]);
      }
      assert r == s[lead..lead + |r|];
      r
  }

  /** What the "Add Rule" dialog holds when it is accepted. */
  datatype RuleForm = RuleForm(name: string, pattern: string, placeholder: string, enabled: bool)

  /** `AddRuleDialog.get_rule()`: the rule built from the form, or `None`
      when the name or the pattern is blank. */
  function GetRule(form: RuleForm): (r: Option<Value>)
    ensures r.None? <==> Strip(form.name) == "" || Strip(form.pattern) == ""
    ensures r.Some? ==> && r.value.VDict?
                        && r.value.fields.Keys == {"name", "pattern", "placeholder", "enabled"}
                        && r.value.fields["name"] == VStr(Strip(form.name))
                        && r.value.fields["pattern"] == VStr(Strip(form.pattern))
                        && r.value.fields["enabled"] == VBool(form.enabled)
    ensures r.Some? ==> && r.value.fields["placeholder"].VStr?
                        && r.value.fields["placeholder"].s != ""
                        && (Strip(form.placeholder) != "" ==>
                              r.value.fields["placeholder"] == VStr(Strip(form.placeholder)))
                        && (Strip(form.placeholder) == "" ==>
                              r.value.fields["placeholder"] == VStr(DefaultPlaceholder))
  {
    var name := Strip(form.name);
    if name == "" then None
    else
      var pattern := Strip(form.pattern);
      if pattern == "" then None
      else
        var placeholder := if Strip(form.placeholder) != "" then Strip(form.placeholder) else DefaultPlaceholder;
        Some(VDict(map["name" := VStr(name), "pattern" := VStr(pattern),
                       "placeholder" := VStr(placeholder), "enabled" := VBool(form.enabled)]))
  }

  /** A rule from the dialog passes start-up validation, and when it is enabled
      and its pattern compiles it is compiled with a non-empty placeholder. */
  lemma DialogRuleIsUsable(engine: Engine, form: RuleForm)
    requires GetRule(form).Some?
    ensures Startup.WellFormedRule(GetRule(form).value)
    ensures form.enabled && engine.accepts(Strip(form.pattern), CompileFlags) ==>
              && CompileRule(engine, GetRule(form).value).Some?
              && CompileRule(engine, GetRule(form).value).value.placeholder != VStr("")
  {
  }

  /** The two defaults for a blank placeholder disagree: the dialog turns a
      blank placeholder into "[REDACTED]", while the sanitizer keeps an
      explicitly empty placeholder, which deletes every match. */
  lemma BlankPlaceholderDefaults(engine: Engine, form: RuleForm)
    requires GetRule(form).Some? && Strip(form.placeholder) == ""
    requires form.enabled && engine.accepts(Strip(form.pattern), CompileFlags)
    ensures CompileRule(engine, GetRule(form).value).value.placeholder == VStr("[REDACTED]")
    ensures var written := VDict(GetRule(form).value.fields["placeholder" := VStr("")]);
            && CompileRule(engine, written).Some?
            && CompileRule(engine, written).value.placeholder == VStr("")
  {
  }

  class TrayApp {
    /** `self.config`: the configuration table, shared with the saved file */
    var config: map<string, Value>
    /** `self.enabled` */
    var enabled: Value
    /** `self.last_text`: the last clipboard text seen by a poll */
    var lastText: string
    /** the text on the system clipboard */
    var clipboard: string
    /** every text the application wrote to the clipboard, oldest first */
    var clipboardWrites: seq<string>
    /** `self.sanitizer` */
    const sanitizer: Sanitizer

    /** The sanitizer's compiled set is the one for the configuration's rules. */
    ghost predicate Synced()
      reads this, sanitizer
    {
      sanitizer.compiled == CompiledFor(sanitizer.engine, Get(config, "rules", VNone))
    }

    constructor (config: map<string, Value>, sanitizer: Sanitizer, clipboard: string)
      ensures this.config == config && this.sanitizer == sanitizer
      ensures enabled == Get(config, "enabled", VBool(true))
      ensures lastText == "" && this.clipboard == clipboard && clipboardWrites == []
    {
      this.config := config;
      this.sanitizer := sanitizer;
      this.clipboard := clipboard;
      lastText := "";
      clipboardWrites := [];
      enabled := Get(config, "enabled", VBool(true));
    }

    /** One clipboard poll, `check_clipboard()`. */
    method CheckClipboard()
      modifies this`lastText, this`clipboard, this`clipboardWrites
      ensures !Truthy(enabled) ==> unchanged(this)
      ensures old(clipboard) == "" || old(clipboard) == old(lastText) ==> unchanged(this)
      ensures Truthy(enabled) && old(clipboard) != "" && old(clipboard) != old(lastText) ==>
                var sanitized := Sanitized(sanitizer.engine, sanitizer.compiled, old(clipboard));
                && lastText == old(clipboard)
                && (sanitized != old(clipboard) ==>
                      clipboard == sanitized && clipboardWrites == old(clipboardWrites) + [sanitized])
                && (sanitized == old(clipboard) ==>
                      clipboard == old(clipboard) && clipboardWrites == old(clipboardWrites))
    {
      if !Truthy(enabled) {
        return;
      }
      var text := clipboard;
      if text != "" && text != lastText {
        lastText := text;
        var sanitized := sanitizer.Sanitize(text);
        if sanitized != text {
          clipboard := sanitized;
          clipboardWrites := clipboardWrites + [sanitized];
        }
      }
    }

    /** `toggle_enabled()` with the menu check box in state `checked`. */
    method ToggleEnabled(checked: bool)
      modifies this`enabled, this`config
      ensures enabled == VBool(checked)
      ensures config == old(config)["enabled" := VBool(checked)]
      ensures old(Synced()) ==> Synced()
    {
      enabled := VBool(checked);
      config := config["enabled" := enabled];
    }

    /** `add_rule()`: `accepted` is whether the dialog was accepted, `form`
        what it held. The rule is appended and everything is recompiled; a
        rule list that is missing or not a list makes the append raise, and
        nothing changes. */
    method AddRule(accepted: bool, form: RuleForm)
      modifies this`config, sanitizer
      ensures accepted && GetRule(form).Some? && "rules" in old(config) && old(config)["rules"].VList? ==>
                && config == old(config)["rules" := VList(old(config)["rules"].items + [GetRule(form).value])]
                && Synced()
      ensures !(accepted && GetRule(form).Some? && "rules" in old(config) && old(config)["rules"].VList?) ==>
                config == old(config) && sanitizer.compiled == old(sanitizer.compiled)
      ensures old(Synced()) ==> Synced()
    {
      if !accepted {
        return;
      }
      var rule := GetRule(form);
      if rule.Some? {
        if "rules" !in config || !config["rules"].VList? {
          return;
        }
        config := config["rules" := VList(config["rules"].items + [rule.value])];
        sanitizer.UpdateRules(config["rules"]);
      }
    }

    /** `import_rules()`: `path` is what the file chooser returned ("" when
        cancelled), `data` the decoded file (`None` when reading it raised).
        The rule list is replaced only by a list found under "rules". */
    method ImportRules(path: string, data: Option<map<string, Value>>)
      modifies this`config, sanitizer
      ensures path != "" && data.Some? && "rules" in data.value && data.value["rules"].VList? ==>
                config == old(config)["rules" := data.value["rules"]] && Synced()
      ensures !(path != "" && data.Some? && "rules" in data.value && data.value["rules"].VList?) ==>
                config == old(config) && sanitizer.compiled == old(sanitizer.compiled)
      ensures old(Synced()) ==> Synced()
    {
      if path == "" {
        return;
      }
      if data.Some? && "rules" in data.value && data.value["rules"].VList? {
        config := config["rules" := data.value["rules"]];
        sanitizer.UpdateRules(config["rules"]);
      }
    }
  }

  /** The start-up sequence of `main`: normalise the loaded configuration,
      build the sanitizer from its rules, and hand both to the tray
      application. The application starts in sync and with only well-formed
      rules. */
  method Launch(outcome: Startup.LoadOutcome, engine: Engine, clipboard: string) returns (app: TrayApp)
    ensures fresh(app) && fresh(app.sanitizer)
    ensures app.Synced() && app.lastText == "" && app.clipboard == clipboard
    ensures "rules" in app.config && app.config["rules"].VList?
    ensures forall k :: 0 <= k < |app.config["rules"].items| ==> Startup.WellFormedRule(app.config["rules"].items[k])
  {
    var cfg := Startup.StartupConfig(outcome);
    var sanitizer := new Sanitizer(engine, cfg["rules"]);
    app := new TrayApp(cfg, sanitizer, clipboard);
  }

  /** A poll after a poll that rewrote the clipboard, with no copy in
      between: the application sees its own output as new text and sanitizes
      it again, writing only if that second pass changes it. */
  method PollAfterRewrite(app: TrayApp)
    requires Truthy(app.enabled)
    requires app.clipboard != app.lastText && app.clipboard != ""
    requires Sanitized(app.sanitizer.engine, app.sanitizer.compiled, app.clipboard) != app.clipboard
    modifies app`lastText, app`clipboard, app`clipboardWrites
    ensures var once := Sanitized(app.sanitizer.engine, app.sanitizer.compiled, old(app.clipboard));
            var twice := Sanitized(app.sanitizer.engine, app.sanitizer.compiled, once);
            && app.lastText == (if once == "" then old(app.clipboard) else once)
            && app.clipboardWrites == old(app.clipboardWrites) + [once] + (if once != "" && twice != once then [twice] else [])
  {
    app.CheckClipboard();
    app.CheckClipboard();
  }
}
