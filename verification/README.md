# Clipboard Sanitizer, modelled in Dafny

Clipboard Sanitizer is a tray application. It polls the system clipboard and
rewrites any new text by running it through an ordered list of redaction
rules. A rule is a table with a `pattern` (a regular expression compiled
case-insensitive and multi-line), a `placeholder` (the replacement) and an
`enabled` switch. The rule list lives in a TOML configuration file.

This project models the logic of the application, not its user interface:

- `values.dfy` (`Values`): the loosely typed Python values that the
  configuration decodes to. Rules and rule lists are passed around as these
  values, so the model keeps every malformed shape the source tolerates.
  The module also holds Python's truth value, `dict.get` and the substring
  test `in`.
- `regex.dfy` (`Regex`): the regular-expression engine, seen from outside.
  An `Engine` is any pair of total functions: one says which patterns
  compile, the other says what a substitution yields or that it raised.
- `filter_map.dfy` (`FilterMaps`): a filter-map, the "walk a list, append
  what passes" loop shared by `update_rules` and `_validate_rules`. It is
  characterised as an order-preserving selection of exactly the elements
  that pass.
- `sanitizer.dfy` (`Sanitization`): the `Sanitizer` class. It has a `seq`
  field of compiled (matcher, placeholder) pairs. `UpdateRules` and
  `Sanitize` are loops, each proved against a specification function:
  `CompiledFor` (a filter-map of `CompileRule`) and `Sanitized` (a left fold
  of guarded substitutions). Lemmas cover ordering, skipping and isolation.
- `config.dfy` (`Config`): `default_config`, and the in-place normalisation
  that `load_config` applies to a decoded file, with the fallbacks taken
  when the file is missing, unreadable or raises during normalisation.
- `main.dfy` (`Startup`): `_validate_rules`, and the shape `main` forces the
  loaded configuration into before building the sanitizer.
- `tray_app.dfy` (`Tray`): the `TrayApp` state that is not user interface.
  This covers the clipboard poll, the on/off switch, adding a rule from the
  dialog and importing a rule file. It also has the dialog's field
  normalisation (`str.strip` and the placeholder default).

The placeholder has three defaults, and they disagree:

- `update_rules` falls back to "[REDACTED]" only when the `placeholder`
  key is absent. An explicitly empty placeholder is kept, so every match is
  deleted.
- The "Add Rule" dialog falls back to "[REDACTED]" when the stripped input
  is empty.
- `_validate_rules` drops rules without a `placeholder` key, so the
  sanitizer's own default is never used for rules loaded at start-up.

`CompileRule`, `BlankPlaceholderDefaults` and
`StartupPlaceholdersAreExplicit` state these three behaviours.

## Model

| member | source | states |
|---|---|---|
| `Regex.Compile` | src/sanitizer.py:36 | compiling succeeds exactly when the engine accepts the pattern; the matcher keeps the pattern and carries IGNORECASE and MULTILINE |
| `FilterMaps.FilterMapCharacterised` | src/sanitizer.py:22-42 | a list is the filter-map of `s` if and only if it is an order-preserving selection of exactly the elements of `s` that pass, each replaced by its image |
| `FilterMaps.FilterMapAppend` | src/sanitizer.py:22-42 | walking a concatenation gives the concatenation of the two walks: each element's fate depends on that element alone |
| `Sanitization.CompileRule` | src/sanitizer.py:22-42 | a rule yields a pair if and only if it is a dict, its `enabled` is truthy (default true), its pattern is a non-empty string and the pattern compiles; the placeholder is the rule's own value when the key is present, even an empty one, and "[REDACTED]" only when the key is absent |
| `Sanitization.CompiledFor` | src/sanitizer.py:15-42 | a non-list gives no pairs; for a list, there are never more pairs than rules |
| `Sanitization.ApplyRule` | src/sanitizer.py:58-62 | a step whose substitution raises (a non-string placeholder, or an engine failure) leaves the text as it was; otherwise the text becomes the substitution's result |
| `Sanitization.Sanitizer.constructor` | src/sanitizer.py:11-13 | a new sanitizer holds exactly the pairs compiled from its rules |
| `Sanitization.Sanitizer.UpdateRules` | src/sanitizer.py:15-42 | the field is replaced by the pairs compiled from `rules`, whatever it held before; a non-list leaves it empty |
| `Sanitization.Sanitizer.Sanitize` | src/sanitizer.py:44-64 | the result is the left fold of the guarded substitutions over the pairs; empty text, or an empty pair list, gives the text back; the pairs are not modified |
| `Sanitization.FoldSequential` | src/sanitizer.py:58-62 | running two rule lists one after the other is running their concatenation: each rule sees the previous rule's output |
| `Sanitization.FoldStep` | src/sanitizer.py:58-62 | the text after rule `i` is rule `i` applied to the text after the rules before it |
| `Sanitization.FailingRuleIsSkipped` | src/sanitizer.py:59-62 | a rule whose substitution raises where it is reached has the same effect as removing it from the list |
| `Sanitization.CompiledSelectsCompilable` | src/sanitizer.py:22-37 | the compiled pairs are, in input order, exactly the images of the rules that meet all four compile conditions |
| `Sanitization.SkippedRuleIsolated` | src/sanitizer.py:35-42 | a rule that is skipped (malformed, disabled, empty pattern, pattern that fails to compile) leaves the rules before it and after it compiled exactly as without it |
| `Sanitization.AllDisabledIsIdentity` | src/sanitizer.py:26-27 | with every rule disabled nothing is compiled, and any text comes back unchanged |
| `Sanitization.OrderMatters` | src/sanitizer.py:58-60 | with R1 = a to X and R2 = X to Y, the order R1, R2 turns "a" into "Y" while R2, R1 turns it into "X" |
| `Sanitization.ReloadSameRules` | src/sanitizer.py:17 | reloading the same rules and sanitizing again gives the same text as the first round, whatever the sanitizer held before |
| `Config.DefaultConfig` | src/config.py:23-47 | exactly the keys `enabled` (true) and `rules`; three rules in the order [EMAIL], [PHONE], [SSN], each enabled with a non-empty pattern |
| `Config.NormalizedRule` | src/config.py:64-66 | a dict rule gains `enabled` = true only when it lacks the key and keeps every existing entry; any other value is untouched |
| `Config.NormalizedRules` | src/config.py:64-66 | a rule list keeps its length and order, each element normalised; anything else is untouched |
| `Config.Normalized` | src/config.py:59-66 | on success, `enabled` and `rules` are added only when absent, existing values (other than the rules' own `enabled` defaults) are kept, and the rule list is normalised; it fails exactly when the Python loop would raise on the value found under `rules` |
| `Config.NormalizeLoaded` | src/config.py:59-66 | the in-place steps compute exactly `Normalized`, returning None where the source raises |
| `Config.LoadConfig` | src/config.py:49-81 | the configuration always has `enabled` and `rules`; a directory failure gives the empty configuration; a missing, unreadable or non-normalisable file gives the defaults; a normalisable file gives its normalisation |
| `Config.NormalizeIdempotent` | src/config.py:59-66 | normalising an already normalised configuration changes nothing |
| `Config.DefaultConfigIsNormal` | src/config.py:59-66 | the default configuration passes normalisation unchanged |
| `Startup.ValidRules` | src/main.py:69-82 | a non-list gives the empty list; a list gives no more rules than it had |
| `Startup.ValidateRules` | src/main.py:69-82 | the loop returns `ValidRules`, and every rule it returns is a dict with both `pattern` and `placeholder` keys |
| `Startup.ValidRulesSelectsWellFormed` | src/main.py:75-82 | the validated list is an order-preserving selection of exactly the well-formed input rules, each taken from the input unchanged |
| `Startup.StartupConfig` | src/main.py:121-130 | a non-dict or a raised load gives `{"enabled": True, "rules": []}`; a dict keeps its keys and other values, gains `enabled` = true only when absent, and its `rules` become the validated `rules` (the empty list when missing) |
| `Startup.StartupPlaceholdersAreExplicit` | src/main.py:77 | for validated rules, each compiled pair is tied, through the order-preserving selection, to the input rule it was compiled from, and carries that rule's own `placeholder` value, so the sanitizer's "[REDACTED]" default never applies at start-up |
| `Startup.DefaultRulesCompile` | src/config.py:23-47 | the default rules all pass validation, and with an engine that accepts their patterns they compile to [EMAIL], [PHONE], [SSN] in that order |
| `Tray.Strip` | src/tray_app.py:256 | the result is empty exactly when the input is all white space; otherwise it is an infix of the input with white-space-only margins and non-space first and last characters |
| `Tray.GetRule` | src/tray_app.py:255-269 | None exactly when the stripped name or pattern is empty; otherwise a dict of the four keys with the stripped name and pattern, the check-box state, and the stripped placeholder or "[REDACTED]" when that is empty |
| `Tray.DialogRuleIsUsable` | src/tray_app.py:255-269 | a rule from the dialog passes start-up validation and, when enabled with a pattern that compiles, is compiled with a non-empty placeholder |
| `Tray.BlankPlaceholderDefaults` | src/tray_app.py:266 | a blank placeholder typed in the dialog compiles to "[REDACTED]", while the same rule with an empty placeholder in the configuration compiles to the empty placeholder |
| `Tray.TrayApp.constructor` | src/tray_app.py:274-279 | the application starts with the given configuration and sanitizer, an empty last text, and `enabled` read from the configuration (default true) |
| `Tray.TrayApp.CheckClipboard` | src/tray_app.py:412-424 | when disabled, or when the clipboard is empty or equals the last text, nothing changes; otherwise the last text becomes the clipboard text, and the clipboard is written, with the sanitized text, only when sanitizing changed it |
| `Tray.TrayApp.ToggleEnabled` | src/tray_app.py:427-429 | `enabled` and the configuration's `enabled` both become the check-box state; the sanitizer stays in sync |
| `Tray.TrayApp.AddRule` | src/tray_app.py:433-441 | an accepted, valid rule is appended at the end of the rule list and everything is recompiled from the whole list; otherwise nothing changes |
| `Tray.TrayApp.ImportRules` | src/tray_app.py:443-455 | the rule list is replaced, and recompiled, only by a list found under `rules` in the imported file; otherwise nothing changes |
| `Tray.Launch` | src/main.py:121-133 | the application starts with its sanitizer in sync with its configuration, and with a rule list that is a list of well-formed rules |
| `Tray.PollAfterRewrite` | src/tray_app.py:412-424 | the poll after a rewriting poll sees the application's own output as new text and sanitizes it again, writing only if the second pass changes it (and skipping it when the first pass produced empty text) |

## Left out

- The regular-expression engine itself: pattern syntax, matching, global replacement and backreference templates in placeholders. `Engine` is a parameter, so every property holds for any engine.
- Coercion of non-string input with `str(text)`, and the "[ERROR: Invalid input]" and "[ERROR: Sanitization failed]" results (src/sanitizer.py:49-53, 66-67). In the model the text is always a string, and the outer handler cannot be reached.
- The exception handler of `check_clipboard` (src/tray_app.py:423-424): reading and writing the clipboard field cannot raise in the model.
- The Qt user interface: tray icon, menus, messages, themes, dialog layout, message boxes and the timer that schedules the poll. The dialog's result and the file chooser's path are parameters.
- File and TOML I/O: `save_config`, `reset_config`, `export_rules`, `open_config`, `get_config_dir` and `toml.load`. A `ConfigStore` or an `Option` stands for what reading a file produced, and saving is not modelled.
- Logging, argument parsing and the QApplication start-up in src/main.py.
- The NaN and infinite TOML floats: `VFloat` holds a real number only. Floats and dates otherwise take part like any other value: their truth value decides `enabled`, and as a rule, a rule list, a pattern or a placeholder they make the source raise.
- `str.strip` is modelled on the white-space characters Python's `str.isspace` accepts. Unicode beyond that list is not modelled.
- Aliasing between the configuration's rule list and the list the sanitizer was built from is not modelled. The model's configuration is a value, and `Synced` states the relation instead.
- scripts/build.py and scripts/create_icon.py are not part of this model: they do packaging and icon drawing.
