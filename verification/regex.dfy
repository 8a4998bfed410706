/** The regular-expression engine, seen from the outside. Its syntax and
    matching semantics are not modelled: an `Engine` is any pair of total
    functions saying which patterns compile under which flags and what one
    global substitution yields (or that it raised). */
module Regex {
  import opened Values

  datatype Flag = IgnoreCase | MultiLine

  /** `re.IGNORECASE | re.MULTILINE`, the flags every rule is compiled with. */
  const CompileFlags: set<Flag> := {IgnoreCase, MultiLine}

  /** A compiled pattern object, identified by its pattern and flags. */
  datatype Matcher = Matcher(pattern: string, flags: set<Flag>)

  datatype Engine = Engine(
    /** whether `re.compile(pattern, flags)` succeeds */
    accepts: (string, set<Flag>) -> bool,
    /** `matcher.sub(replacement, text)`: `None` when it raises */
    sub: (Matcher, string, string) -> Option<string>)

  /** `re.compile(pattern, re.IGNORECASE | re.MULTILINE)`; `None` when it raises. */
  function Compile(engine: Engine, pattern: string): (r: Option<Matcher>)
    ensures r.Some? <==> engine.accepts(pattern, CompileFlags)
    ensures r.Some? ==> r.value.pattern == pattern && IgnoreCase in r.value.flags && MultiLine in r.value.flags
  {
    if engine.accepts(pattern, CompileFlags) then Some(Matcher(pattern, CompileFlags)) else None
  }
}
