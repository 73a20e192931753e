/**
  The fixed command texts the controller and the tools write: the stepping
  verbs and their aliases, breakpoints, memory reads, run and start.
*/
module Commands {
  import opened Mi
  import opened Text

  /** Python truthiness of an optional string: set and not empty. */
  predicate Truthy(s: Option<string>) {
    s.Some? && s.value != ""
  }

  /** The stepping verbs the tools understand. */
  datatype StepVerb = Continue | Next | Step | NextI | StepI

  /** The verb's full name, the value side of the alias map. */
  function VerbName(v: StepVerb): string {
    match v
    case Continue => "continue"
    case Next => "next"
    case Step => "step"
    case NextI => "nexti"
    case StepI => "stepi"
  }

  /** The command the controller writes for the verb. */
  function VerbCommand(v: StepVerb): string {
    match v
    case Continue => "continue"
    case Next => "next"
    case Step => "step"
    case NextI => "ni"
    case StepI => "si"
  }

  /** The verb's alias, the key side of the alias map. */
  function ShortName(v: StepVerb): string {
    match v
    case Continue => "c"
    case Next => "n"
    case Step => "s"
    case NextI => "ni"
    case StepI => "si"
  }

  /** The alias map `c/n/s/ni/si`; any other name passes through. */
  function StepAlias(command: string): (actual: string)
    ensures actual != command ==> actual in {"continue", "next", "step", "nexti", "stepi"}
  {
    if command == "c" then "continue"
    else if command == "n" then "next"
    else if command == "s" then "step"
    else if command == "ni" then "nexti"
    else if command == "si" then "stepi"
    else command
  }

  /** The dispatch on the resolved name: a verb, or unknown. */
  function ParseVerb(actual: string): (v: Option<StepVerb>)
    ensures v.Some? ==> VerbName(v.value) == actual
  {
    if actual == "continue" then Some(Continue)
    else if actual == "next" then Some(Next)
    else if actual == "step" then Some(Step)
    else if actual == "nexti" then Some(NextI)
    else if actual == "stepi" then Some(StepI)
    else None
  }

  const StepNames: set<string> :=
    {"c", "n", "s", "ni", "si", "continue", "next", "step", "nexti", "stepi"}

  /** Exactly the five aliases and the five full names name a verb. */
  lemma StepAliasResolves(command: string)
    ensures ParseVerb(StepAlias(command)).Some? <==> command in StepNames
  {
  }

  /** Every verb is recognised by its full name. */
  lemma VerbRoundTrip(v: StepVerb)
    ensures ParseVerb(VerbName(v)) == Some(v) && StepAlias(VerbName(v)) == VerbName(v)
  {
  }

  /** A name that is not one of the five aliases passes through unchanged;
      it is then what a refusal of an unknown verb names. */
  lemma StepAliasPassThrough(command: string)
    ensures StepAlias(command) == command <==> command !in {"c", "n", "s", "ni", "si"}
  {
  }

  /** Exactly a verb's full name and its alias select it. */
  lemma AliasSelects(command: string, v: StepVerb)
    ensures ParseVerb(StepAlias(command)) == Some(v) <==> command == VerbName(v) || command == ShortName(v)
  {
  }

  /** The two instruction-level verbs are selected by `ni`/`nexti` and
      `si`/`stepi` and written in their short form; the other verbs are
      written by their full name. */
  lemma InstructionStepsShort(command: string, v: StepVerb)
    requires ParseVerb(StepAlias(command)) == Some(v)
    ensures VerbCommand(v) == if v == NextI || v == StepI then ShortName(v) else VerbName(v)
    ensures v == NextI <==> command in {"ni", "nexti"}
    ensures v == StepI <==> command in {"si", "stepi"}
  {
  }

  function RunCommand(start: bool): (cmd: string)
    ensures cmd == "start" <==> start
    ensures cmd in {"start", "run"}
  {
    if start then "start" else "run"
  }

  /** `b LOCATION`, with ` if "CONDITION"` appended when a condition is given. */
  function BreakpointCommand(location: string, condition: Option<string>): (cmd: string)
    ensures |cmd| >= 2 + |location| && cmd[..2 + |location|] == "b " + location
    ensures cmd == "b " + location <==> !Truthy(condition)
    ensures Truthy(condition) ==> cmd[2 + |location|..] == " if \"" + condition.value + "\""
  {
    if Truthy(condition) then "b " + location + " if \"" + condition.value + "\""
    else "b " + location
  }

  /** The memory-read command for a format: `hexdump`, `x/s`, or `x/Nb` for any other name. */
  function MemoryCommand(address: string, size: int, format: string): (cmd: string)
    ensures format == "string" ==> cmd == "x/s " + address
    ensures format == "hex" ==> cmd == "hexdump " + address + " " + IntToString(size)
    ensures format != "hex" && format != "string" ==> cmd == "x/" + IntToString(size) + "b " + address
  {
    if format == "hex" then "hexdump " + address + " " + IntToString(size)
    else if format == "string" then "x/s " + address
    else "x/" + IntToString(size) + "b " + address
  }

  /** The string read ignores the size; the other two carry it, and it can be read back. */
  lemma MemorySize(address: string, size: int, other: int, format: string)
    ensures format == "string" ==> MemoryCommand(address, size, format) == MemoryCommand(address, other, format)
    ensures format != "string" ==>
      (MemoryCommand(address, size, format) == MemoryCommand(address, other, format) <==> size == other)
  {
    IntToStringInjective(size, other);
    if format != "string" && MemoryCommand(address, size, format) == MemoryCommand(address, other, format) {
      var s, o := IntToString(size), IntToString(other);
      if format == "hex" {
        var p := "hexdump " + address + " ";
        assert MemoryCommand(address, size, format) == p + s;
        assert MemoryCommand(address, other, format) == p + o;
        assert s == (p + s)[|p|..] && o == (p + o)[|p|..];
      } else {
        assert MemoryCommand(address, size, format) == "x/" + s + "b " + address;
        assert |s| == |o|;
        assert s == MemoryCommand(address, size, format)[2..2 + |s|];
        assert o == MemoryCommand(address, other, format)[2..2 + |o|];
      }
    }
  }

  function BreakpointToggleCommand(enable: bool, number: int): (cmd: string)
    ensures var verb := if enable then "enable breakpoints " else "disable breakpoints ";
      |verb| <= |cmd| && cmd[..|verb|] == verb && cmd[|verb|..] == IntToString(number)
  {
    var verb := if enable then "enable breakpoints " else "disable breakpoints ";
    verb + IntToString(number)
  }

  /** Distinct breakpoint numbers give distinct `delete`, `enable` and
      `disable` commands, so each names exactly one breakpoint. */
  lemma BreakpointNumbersDistinct(i: int, j: int, enable: bool)
    ensures "delete " + IntToString(i) == "delete " + IntToString(j) ==> i == j
    ensures BreakpointToggleCommand(enable, i) == BreakpointToggleCommand(enable, j) ==> i == j
  {
    IntToStringInjective(i, j);
    var p := "delete ";
    assert IntToString(i) == (p + IntToString(i))[|p|..];
    assert IntToString(j) == (p + IntToString(j))[|p|..];
  }
}
