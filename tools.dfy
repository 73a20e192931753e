/**
  The tool layer of one session: a controller and a session record. Each tool
  refuses what its precondition forbids without writing anything, or
  delegates to the controller and then records what happened.
*/
module Tools {
  import opened Mi
  import opened Notify
  import opened Dispatch
  import opened Commands
  import opened Text
  import opened Session
  import opened Controller

  /** The five contexts `context all` fans out to, in order. */
  const ContextKinds: seq<string> := ["regs", "stack", "disasm", "code", "backtrace"]

  /** The fan-out: one gated context request per kind, in order, each seeing
      the state the previous ones left behind. */
  function FanOut(c: Ctl, sub: Subprocess, kinds: seq<string>): (r: (Ctl, seq<(string, Outcome)>))
    ensures |r.1| == |kinds|
  {
    if kinds == [] then (c, [])
    else
      var (c1, acc) := FanOut(c, sub, kinds[..|kinds| - 1]);
      var (c2, o) := ContextSpec(c1, sub, kinds[|kinds| - 1]);
      (c2, acc + [(kinds[|kinds| - 1], o)])
  }

  /** The aggregate holds one entry per kind, in order, each the outcome of
      `context KIND`, whatever the sub-results are. */
  lemma {:induction false} FanOutKeys(c: Ctl, sub: Subprocess, kinds: seq<string>)
    ensures var cs := FanOut(c, sub, kinds).1;
      && |cs| == |kinds|
      && forall i | 0 <= i < |kinds| :: cs[i].0 == kinds[i] && cs[i].1.command == "context " + kinds[i]
  {
    if kinds != [] {
      var init := kinds[..|kinds| - 1];
      FanOutKeys(c, sub, init);
      var prefix := FanOut(c, sub, init);
      var last := kinds[|kinds| - 1];
      var o := ContextSpec(prefix.0, sub, last).1;
      var cs := FanOut(c, sub, kinds).1;
      assert cs == prefix.1 + [(last, o)];
      forall i | 0 <= i < |kinds|
        ensures cs[i].0 == kinds[i] && cs[i].1.command == "context " + kinds[i]
      {
        if i < |init| {
          assert cs[i] == prefix.1[i];
          assert prefix.1[i].0 == init[i] && prefix.1[i].1.command == "context " + init[i];
          assert init[i] == kinds[i];
        } else {
          assert i == |cs| - 1 == |kinds| - 1;
          assert cs[i] == (last, o);
        }
      }
    }
  }

  /** The fan-out writes at most one command per kind, and from a state that
      is not stopped it changes nothing. */
  lemma {:induction false} FanOutWritesAtMost(c: Ctl, sub: Subprocess, kinds: seq<string>)
    ensures |Writes(FanOut(c, sub, kinds).0.log)| <= |Writes(c.log)| + |kinds|
    ensures c.tracker.state != Stopped ==> FanOut(c, sub, kinds).0 == c
  {
    if kinds != [] {
      var init := kinds[..|kinds| - 1];
      FanOutWritesAtMost(c, sub, init);
      var c1 := FanOut(c, sub, init).0;
      ContextGate(c1, sub, kinds[|kinds| - 1]);
    }
  }

  /** Once the state a prefix of the fan-out leaves is not stopped, every
      later sub-request is refused and nothing more changes. */
  lemma {:induction false} FanOutStaysRefused(c: Ctl, sub: Subprocess, kinds: seq<string>, i: nat)
    requires i <= |kinds| && FanOut(c, sub, kinds[..i]).0.tracker.state != Stopped
    ensures FanOut(c, sub, kinds).0 == FanOut(c, sub, kinds[..i]).0
    ensures FanOut(c, sub, kinds).1[..i] == FanOut(c, sub, kinds[..i]).1
    ensures forall j | i <= j < |kinds| :: !FanOut(c, sub, kinds).1[j].1.success
  {
    FanOutKeys(c, sub, kinds);
    FanOutKeys(c, sub, kinds[..i]);
    if i < |kinds| {
      var init := kinds[..|kinds| - 1];
      assert init[..i] == kinds[..i];
      FanOutStaysRefused(c, sub, init, i);
      var (c1, acc) := FanOut(c, sub, init);
      ContextGate(c1, sub, kinds[|kinds| - 1]);
      var cs := FanOut(c, sub, kinds).1;
      assert cs == acc + [(kinds[|kinds| - 1], ContextSpec(c1, sub, kinds[|kinds| - 1]).1)];
      assert cs[..i] == acc[..i];
    } else {
      assert kinds[..i] == kinds;
    }
  }

  const NoBinary := "No binary loaded. Use set_file first."

  /** The session after `set_file`: the path and loaded flag are set only on
      success, then the state is noted and `file PATH` recorded. */
  function FileLoaded(v: SessionValue, binaryPath: string, o: Outcome): (r: SessionValue)
    ensures r.binaryLoaded == (v.binaryLoaded || o.success) && r.state == o.state
    ensures r.binaryPath == if o.success then Some(binaryPath) else v.binaryPath
    ensures r.commandHistory == v.commandHistory + [HistoryEntry("file " + binaryPath, Single(o))]
    ensures r.recordCommandHistory == v.recordCommandHistory + ["file " + binaryPath]
  {
    Reported(if o.success then v.(binaryPath := Some(binaryPath), binaryLoaded := true) else v,
             "file " + binaryPath, o)
  }

  class PwndbgTools {
    const gdb: GdbController
    const session: SessionState

    /** Every object the session's tools own. */
    function Repr(): set<object> {
      {this, gdb, gdb.controller, session}
    }

    /** How this session's debugger answers. */
    function Sub(): Subprocess {
      gdb.controller.answer
    }

    ghost predicate Valid()
      reads session
    {
      session.Valid()
    }

    constructor (sub: Subprocess)
      ensures Valid() && fresh(gdb) && fresh(gdb.controller) && fresh(session)
      ensures Sub() == sub && gdb.Snapshot() == Initial && session.Value() == Fresh
    {
      gdb := new GdbController(sub);
      session := new SessionState();
    }

    /** `execute`: the text `interrupt` goes to the interrupt tool; any other
        command is dispatched, its state noted and the command recorded. */
    method Execute(command: string) returns (r: Raise<Outcome>)
      requires Valid()
      modifies gdb, gdb.controller, session
      ensures Valid()
      ensures command == "interrupt" ==>
        && (gdb.Snapshot(), r) == Dispatch.Interrupt(old(gdb.Snapshot()), Sub())
        && session.Value() == (if r.Threw? then old(session.Value()) else Reported(old(session.Value()), "interrupt", r.value))
      ensures command != "interrupt" ==>
        && r.Ok?
        && (gdb.Snapshot(), r.value) == Dispatch.Execute(old(gdb.Snapshot()), Sub(), command)
        && session.Value() == Reported(old(session.Value()), command, r.value)
    {
      if command == "interrupt" {
        r := Interrupt();
        return;
      }
      var o := gdb.ExecuteCommand(command);
      session.UpdateState(o.state);
      session.RecordCommand(command, Single(o));
      r := Ok(o);
    }

    /** `interrupt`: a read that raises leaves the session record untouched. */
    method Interrupt() returns (r: Raise<Outcome>)
      requires Valid()
      modifies gdb, gdb.controller, session
      ensures Valid()
      ensures (gdb.Snapshot(), r) == Dispatch.Interrupt(old(gdb.Snapshot()), Sub())
      ensures session.Value() == if r.Threw? then old(session.Value()) else Reported(old(session.Value()), "interrupt", r.value)
    {
      r := gdb.Interrupt();
      if r.Threw? {
        return;
      }
      session.UpdateState(r.value.state);
      session.RecordCommand(r.value.command, Single(r.value));
    }

    /** `set_file`: path and loaded flag only on success. */
    method SetFile(binaryPath: string) returns (o: Outcome)
      requires Valid()
      modifies gdb, gdb.controller, session
      ensures Valid()
      ensures (gdb.Snapshot(), o) == LoadSpec(old(gdb.Snapshot()), Sub(), "file " + binaryPath)
      ensures session.Value() == FileLoaded(old(session.Value()), binaryPath, o)
    {
      o := gdb.SetFile(binaryPath);
      LoadSettles(old(gdb.Snapshot()), Sub(), "file " + binaryPath);
      if o.success {
        session.binaryPath := Some(binaryPath);
        session.binaryLoaded := true;
      }
      session.UpdateState(o.state);
      session.RecordCommand(o.command, Single(o));
    }

    /** `target_remote`: target, connected and loaded flags only on success. */
    method TargetRemote(target: string) returns (o: Outcome)
      requires Valid()
      modifies gdb, gdb.controller, session
      ensures Valid()
      ensures (gdb.Snapshot(), o) == LoadSpec(old(gdb.Snapshot()), Sub(), "target remote " + target)
      ensures session.Value() == Reported(
        if o.success then old(session.Value()).(remoteTarget := Some(target), remoteConnected := true, binaryLoaded := true)
        else old(session.Value()),
        "target remote " + target, o)
    {
      o := gdb.TargetRemote(target);
      LoadSettles(old(gdb.Snapshot()), Sub(), "target remote " + target);
      if o.success {
        session.remoteTarget := Some(target);
        session.remoteConnected := true;
        session.binaryLoaded := true;
      }
      session.UpdateState(o.state);
      session.RecordCommand(o.command, Single(o));
    }

    /** `set_poc_file`. */
    method SetPocFile(pocFile: string) returns (o: Outcome)
      requires Valid()
      modifies gdb, gdb.controller, session
      ensures Valid()
      ensures (gdb.Snapshot(), o) == LoadSpec(old(gdb.Snapshot()), Sub(), "set args " + pocFile)
      ensures session.Value() == Reported(old(session.Value()), "set args " + pocFile, o)
    {
      o := gdb.SetPocFile(pocFile);
      LoadSettles(old(gdb.Snapshot()), Sub(), "set args " + pocFile);
      session.UpdateState(o.state);
      session.RecordCommand(o.command, Single(o));
    }

    /** `run`: refused, with nothing written or recorded, while no binary is loaded. */
    method Run(args: string, start: bool) returns (o: Outcome)
      requires Valid()
      modifies gdb, gdb.controller, session
      ensures Valid()
      ensures !old(session.binaryLoaded) ==>
        && o == Outcome("run", [], false, old(gdb.state), Some(NoBinary))
        && gdb.Snapshot() == old(gdb.Snapshot()) && session.Value() == old(session.Value())
      ensures old(session.binaryLoaded) ==>
        && (gdb.Snapshot(), o) == RunSpec(old(gdb.Snapshot()), Sub(), args, start)
        && session.Value() == Reported(old(session.Value()), o.command, o)
    {
      if !session.binaryLoaded {
        var s := gdb.GetState();
        return Outcome("run", [], false, s, Some(NoBinary));
      }
      o := gdb.Run(args, start);
      session.UpdateState(o.state);
      session.RecordCommand(o.command, Single(o));
    }

    method Finish() returns (o: Outcome)
      requires Valid()
      modifies gdb, gdb.controller, session
      ensures Valid()
      ensures (gdb.Snapshot(), o) == Dispatch.Execute(old(gdb.Snapshot()), Sub(), "finish")
      ensures session.Value() == Reported(old(session.Value()), "finish", o)
    {
      o := gdb.Finish();
      ExecuteWrites(old(gdb.Snapshot()), Sub(), "finish");
      session.UpdateState(o.state);
      session.RecordCommand(o.command, Single(o));
    }

    /** `step_control`: the alias is resolved first; while not stopped, or for
        an unknown verb, the refusal names the resolved command and nothing is
        written or recorded; otherwise the verb's command is dispatched. */
    method StepControl(command: string) returns (o: Outcome)
      requires Valid()
      modifies gdb, gdb.controller, session
      ensures Valid()
      ensures var actual, s := StepAlias(command), old(gdb.state);
        && (s != Stopped ==>
              && o == Outcome(actual, [], false, s,
                              Some("Cannot execute '" + command + "' in state '" + StateName(s) + "'"))
              && gdb.Snapshot() == old(gdb.Snapshot()) && session.Value() == old(session.Value()))
        && (s == Stopped && ParseVerb(actual).None? ==>
              && o == Outcome(actual, [], false, s, Some("Unknown step command '" + command + "'"))
              && gdb.Snapshot() == old(gdb.Snapshot()) && session.Value() == old(session.Value()))
        && (s == Stopped && ParseVerb(actual).Some? ==>
              && (gdb.Snapshot(), o) == Dispatch.Execute(old(gdb.Snapshot()), Sub(), VerbCommand(ParseVerb(actual).value))
              && session.Value() == Reported(old(session.Value()), VerbCommand(ParseVerb(actual).value), o))
    {
      var actual := StepAlias(command);
      var currentState := gdb.GetState();
      if currentState != Stopped {
        return Outcome(actual, [], false, currentState,
                       Some("Cannot execute '" + command + "' in state '" + StateName(currentState) + "'"));
      }
      var verb := ParseVerb(actual);
      if verb.None? {
        return Outcome(actual, [], false, currentState, Some("Unknown step command '" + command + "'"));
      }
      o := gdb.StepVerbCommand(verb.value);
      ExecuteWrites(old(gdb.Snapshot()), Sub(), VerbCommand(verb.value));
      session.UpdateState(o.state);
      session.RecordCommand(o.command, Single(o));
    }

    /** `get_context`: refused while not stopped; `all` fans out to the five
        kinds and records one `context all` entry; another kind records its
        own entry. The recorded state is not updated. */
    method GetContext(kind: string) returns (r: ToolResult)
      requires Valid()
      modifies gdb, gdb.controller, session
      ensures Valid()
      ensures old(gdb.state) != Stopped ==>
        && r == Single(RefusedContext(kind, old(gdb.state)))
        && gdb.Snapshot() == old(gdb.Snapshot()) && session.Value() == old(session.Value())
      ensures old(gdb.state) == Stopped && kind == "all" ==>
        && r == Contexts(true, Stopped, FanOut(old(gdb.Snapshot()), Sub(), ContextKinds).1)
        && gdb.Snapshot() == FanOut(old(gdb.Snapshot()), Sub(), ContextKinds).0
        && session.Value() == Recorded(old(session.Value()), "context all", r)
      ensures old(gdb.state) == Stopped && kind != "all" ==>
        && r.Single?
        && (gdb.Snapshot(), r.outcome) == ContextSpec(old(gdb.Snapshot()), Sub(), kind)
        && session.Value() == Recorded(old(session.Value()), "context " + kind, r)
    {
      if gdb.state != Stopped {
        return Single(RefusedContext(kind, gdb.state));
      }
      if kind == "all" {
        var s := gdb.GetState();
        ghost var c0 := gdb.Snapshot();
        var contexts: seq<(string, Outcome)> := [];
        for i := 0 to |ContextKinds|
          invariant (gdb.Snapshot(), contexts) == FanOut(c0, Sub(), ContextKinds[..i])
          invariant session.Value() == old(session.Value())
        {
          var o := gdb.GetContext(ContextKinds[i]);
          assert ContextKinds[..i + 1][..i] == ContextKinds[..i];
          contexts := contexts + [(ContextKinds[i], o)];
        }
        assert ContextKinds[..|ContextKinds|] == ContextKinds;
        r := Contexts(true, s, contexts);
        session.RecordCommand("context all", r);
      } else {
        var o := gdb.GetContext(kind);
        r := Single(o);
        session.RecordCommand("context " + kind, r);
      }
    }

    /** The outcome of a dispatch without a state update, recorded under `command`. */
    method Dispatched(command: string) returns (o: Outcome)
      requires Valid()
      modifies gdb, gdb.controller, session
      ensures Valid()
      ensures (gdb.Snapshot(), o) == Dispatch.Execute(old(gdb.Snapshot()), Sub(), command)
      ensures session.Value() == Recorded(old(session.Value()), command, Single(o))
    {
      o := gdb.ExecuteCommand(command);
      session.RecordCommand(command, Single(o));
    }

    method SetBreakpoint(location: string, condition: Option<string>) returns (o: Outcome)
      requires Valid()
      modifies gdb, gdb.controller, session
      ensures Valid()
      ensures (gdb.Snapshot(), o) == Dispatch.Execute(old(gdb.Snapshot()), Sub(), BreakpointCommand(location, condition))
      ensures session.Value() == Recorded(old(session.Value()), BreakpointCommand(location, condition), Single(o))
    {
      o := Dispatched(BreakpointCommand(location, condition));
    }

    method ListBreakpoints() returns (o: Outcome)
      requires Valid()
      modifies gdb, gdb.controller, session
      ensures Valid()
      ensures (gdb.Snapshot(), o) == Dispatch.Execute(old(gdb.Snapshot()), Sub(), "info breakpoints")
      ensures session.Value() == Recorded(old(session.Value()), "info breakpoints", Single(o))
    {
      o := Dispatched("info breakpoints");
    }

    method DeleteBreakpoint(number: int) returns (o: Outcome)
      requires Valid()
      modifies gdb, gdb.controller, session
      ensures Valid()
      ensures (gdb.Snapshot(), o) == Dispatch.Execute(old(gdb.Snapshot()), Sub(), "delete " + IntToString(number))
      ensures session.Value() == Recorded(old(session.Value()), "delete " + IntToString(number), Single(o))
    {
      o := Dispatched("delete " + IntToString(number));
    }

    method ToggleBreakpoint(number: int, enable: bool) returns (o: Outcome)
      requires Valid()
      modifies gdb, gdb.controller, session
      ensures Valid()
      ensures (gdb.Snapshot(), o) == Dispatch.Execute(old(gdb.Snapshot()), Sub(), BreakpointToggleCommand(enable, number))
      ensures session.Value() == Recorded(old(session.Value()), BreakpointToggleCommand(enable, number), Single(o))
    {
      o := Dispatched(BreakpointToggleCommand(enable, number));
    }

    /** `get_memory`: not gated on the inferior state. */
    method GetMemory(address: string, size: int, format: string) returns (o: Outcome)
      requires Valid()
      modifies gdb, gdb.controller, session
      ensures Valid()
      ensures (gdb.Snapshot(), o) == Dispatch.Execute(old(gdb.Snapshot()), Sub(), MemoryCommand(address, size, format))
      ensures session.Value() == Recorded(old(session.Value()), MemoryCommand(address, size, format), Single(o))
    {
      o := Dispatched(MemoryCommand(address, size, format));
    }

    /** `disassemble`: not gated on the inferior state. */
    method Disassemble(address: string) returns (o: Outcome)
      requires Valid()
      modifies gdb, gdb.controller, session
      ensures Valid()
      ensures (gdb.Snapshot(), o) == Dispatch.Execute(old(gdb.Snapshot()), Sub(), "disassemble " + address)
      ensures session.Value() == Recorded(old(session.Value()), "disassemble " + address, Single(o))
    {
      o := Dispatched("disassemble " + address);
    }

    /** `get_session_info`: the summary and the controller's state; nothing is written. */
    method GetSessionInfo() returns (r: ToolResult)
      requires Valid()
      ensures r.Info? && r.gdbState == gdb.state
      ensures r.session.commandCount == |session.commandHistory| == |r.session.commandHistory|
      ensures r.session.commandHistory == CommandNames(session.commandHistory)
      ensures r == Info(session.ToDict(), gdb.state)
    {
      var s := gdb.GetState();
      r := Info(session.ToDict(), s);
    }
  }
}
