/**
  The server around the tools: the registry that gives each client session
  its own tools object, created on the first `set_file`; the shared early
  return for a session that has none yet; the wrapper that turns a raised
  exception into an error result; and the choice of transport.
*/
module Server {
  import opened Mi
  import opened Commands
  import opened Session
  import Dispatch
  import Controller
  import Tools

  /** What a wrapped tool hands back: its own result, or the error dictionary
      `{"success": False, "error": str(e), "type": name}`, alone or, with
      `tuple_on_error`, paired with an empty list. */
  datatype Guarded<+T> = Returned(value: T) | Caught(error: string, typeName: string) | CaughtPair(error: string, typeName: string)

  /** `catch_errors(tuple_on_error)`: an exception never escapes; a normal
      result passes through unchanged. */
  function CatchErrors<T>(tupleOnError: bool, r: Raise<T>): (g: Guarded<T>)
    ensures g.Returned? <==> r.Ok?
    ensures r.Ok? ==> g.value == r.value
    ensures r.Threw? ==> g.CaughtPair? == tupleOnError
    ensures !g.Returned? ==> g.error == r.exc.text && g.typeName == r.exc.typeName
  {
    match r
    case Ok(v) => Returned(v)
    case Threw(e) => if tupleOnError then CaughtPair(e.text, e.typeName) else Caught(e.text, e.typeName)
  }

  /** A tool's answer, or `{"success": False, "error": "Please set_file first."}`. */
  datatype Answer = Tool(result: ToolResult) | SetFileFirst

  /** The transport: the command-line value, else `MCP_TRANSPORT`, else
      `TRANSPORT`, else `stdio` when standard input is not a terminal, else
      `sse`; an empty value counts as unset. */
  function ResolveTransport(cli: Option<string>, mcpTransport: Option<string>, transport: Option<string>,
                            stdinIsTty: bool): (t: string)
    ensures t != ""
    ensures Truthy(cli) ==> t == cli.value
    ensures !Truthy(cli) && Truthy(mcpTransport) ==> t == mcpTransport.value
    ensures !Truthy(cli) && !Truthy(mcpTransport) && Truthy(transport) ==> t == transport.value
    ensures !Truthy(cli) && !Truthy(mcpTransport) && !Truthy(transport) ==>
      t == if stdinIsTty then "sse" else "stdio"
  {
    if Truthy(cli) then cli.value
    else
      var env := if Truthy(mcpTransport) then mcpTransport else transport;
      if Truthy(env) then env.value
      else if !stdinIsTty then "stdio"
      else "sse"
  }

  /** An empty value is the same as a missing one, at every level. */
  lemma EmptyIsUnset(cli: Option<string>, mcpTransport: Option<string>, transport: Option<string>, stdinIsTty: bool)
    ensures ResolveTransport(Some(""), mcpTransport, transport, stdinIsTty) == ResolveTransport(None, mcpTransport, transport, stdinIsTty)
    ensures ResolveTransport(cli, Some(""), transport, stdinIsTty) == ResolveTransport(cli, None, transport, stdinIsTty)
    ensures ResolveTransport(cli, mcpTransport, Some(""), stdinIsTty) == ResolveTransport(cli, mcpTransport, None, stdinIsTty)
  {
  }

  /** A tool call for a session that already exists; `set_file` is separate. */
  datatype ToolCall =
    | ExecuteTool(command: string)
    | SetPocFileTool(pocFilePath: string)
    | RunTool(args: string, start: bool)
    | StepControlTool(step: string)
    | FinishTool
    | GetContextTool(contextType: string)
    | SetBreakpointTool(location: string, condition: Option<string>)
    | ListBreakpointsTool
    | DeleteBreakpointTool(number: int)
    | ToggleBreakpointTool(breakpoint: int, enable: bool)
    | GetMemoryTool(address: string, size: int, format: string)
    | DisassembleTool(target: string)
    | GetSessionInfoTool
    | InterruptTool
  {
    /** The calls that reach the controller's interrupt, the only path that can raise. */
    predicate Interrupts() {
      InterruptTool? || (ExecuteTool? && command == "interrupt")
    }
  }

  function AsTool(r: Raise<Dispatch.Outcome>): Raise<ToolResult> {
    match r
    case Ok(o) => Ok(Single(o))
    case Threw(e) => Threw(e)
  }

  /** The delegation each tool function performs once its session is found:
      only the interrupt path can raise. */
  method Invoke(tools: Tools.PwndbgTools, call: ToolCall) returns (r: Raise<ToolResult>)
    requires tools.Valid()
    modifies tools.gdb, tools.gdb.controller, tools.session
    ensures tools.Valid()
    ensures r.Threw? ==> call.Interrupts()
  {
    match call {
      case ExecuteTool(command) =>
        var x := tools.Execute(command);
        r := AsTool(x);
      case SetPocFileTool(pocFilePath) =>
        var o := tools.SetPocFile(pocFilePath);
        r := Ok(Single(o));
      case RunTool(args, start) =>
        var o := tools.Run(args, start);
        r := Ok(Single(o));
      case StepControlTool(step) =>
        var o := tools.StepControl(step);
        r := Ok(Single(o));
      case FinishTool =>
        var o := tools.Finish();
        r := Ok(Single(o));
      case GetContextTool(contextType) =>
        var x := tools.GetContext(contextType);
        r := Ok(x);
      case SetBreakpointTool(location, condition) =>
        var o := tools.SetBreakpoint(location, condition);
        r := Ok(Single(o));
      case ListBreakpointsTool =>
        var o := tools.ListBreakpoints();
        r := Ok(Single(o));
      case DeleteBreakpointTool(number) =>
        var o := tools.DeleteBreakpoint(number);
        r := Ok(Single(o));
      case ToggleBreakpointTool(number, enable) =>
        var o := tools.ToggleBreakpoint(number, enable);
        r := Ok(Single(o));
      case GetMemoryTool(address, size, format) =>
        var o := tools.GetMemory(address, size, format);
        r := Ok(Single(o));
      case DisassembleTool(address) =>
        var o := tools.Disassemble(address);
        r := Ok(Single(o));
      case GetSessionInfoTool =>
        var x := tools.GetSessionInfo();
        r := Ok(x);
      case InterruptTool =>
        var x := tools.Interrupt();
        r := AsTool(x);
    }
  }

  /** `session_dict` and the tools around it. `K` stands for the hosting
      layer's client-session object. */
  class Registry<K(==)> {
    var sessions: map<K, Tools.PwndbgTools>
    /** Every object some session's tools own. */
    ghost var owned: set<object>

    /** Every session's record is consistent, and no two sessions share an object. */
    ghost predicate Valid()
      reads this, owned
    {
      && (forall k | k in sessions :: sessions[k].Repr() <= owned && sessions[k].Valid())
      && forall k1, k2 | k1 in sessions && k2 in sessions && k1 != k2 :: sessions[k1].Repr() !! sessions[k2].Repr()
    }

    constructor ()
      ensures sessions == map[] && Valid()
    {
      sessions := map[];
      owned := {};
    }

    /** `get_unit_session`: the stored tools, or None for an unseen key. */
    function GetUnitSession(key: K): (r: Option<Tools.PwndbgTools>)
      reads this
      ensures r.None? <==> key !in sessions
      ensures r.Some? ==> r.value == sessions[key]
    {
      if key in sessions then Some(sessions[key]) else None
    }

    /** The `set_file` tool: an unseen key first gets fresh tools, whose
        debugger answers as `sub`; the entry stays whatever the load does.
        A known key keeps its tools. No other session is touched. */
    method SetFile(key: K, binaryPath: string, sub: Subprocess) returns (g: Guarded<Answer>)
      requires Valid()
      modifies this, if key in sessions then sessions[key].Repr() else {}
      ensures Valid()
      ensures key in sessions && sessions == old(sessions)[key := sessions[key]]
      ensures key in old(sessions) ==> sessions[key] == old(sessions[key])
      ensures key !in old(sessions) ==> fresh(sessions[key].Repr()) && sessions[key].Sub() == sub
      ensures forall k | k in old(sessions) && k != key ::
        && sessions[k].gdb.Snapshot() == old(sessions[k].gdb.Snapshot())
        && sessions[k].session.Value() == old(sessions[k].session.Value())
      ensures g.Returned? && g.value.Tool? && g.value.result.Single?
      ensures var before := if key in old(sessions) then old(sessions[key].gdb.Snapshot()) else Dispatch.Initial;
        (sessions[key].gdb.Snapshot(), g.value.result.outcome)
          == Controller.LoadSpec(before, sessions[key].Sub(), "file " + binaryPath)
      ensures var prior := if key in old(sessions) then old(sessions[key].session.Value()) else Fresh;
        sessions[key].session.Value() == Tools.FileLoaded(prior, binaryPath, g.value.result.outcome)
    {
      if key !in sessions {
        Create(key, sub);
      } else {
        assert old(sessions)[key := sessions[key]] == sessions;
      }
      g := LoadBinary(key, binaryPath);
    }

    /** The creation branch of `set_file`: a key seen for the first time gets
        fresh tools, whose debugger answers as `sub`, in their initial state. */
    method Create(key: K, sub: Subprocess)
      requires Valid() && key !in sessions
      modifies this
      ensures Valid()
      ensures key in sessions && sessions == old(sessions)[key := sessions[key]]
      ensures fresh(sessions[key].Repr()) && sessions[key].Sub() == sub
      ensures sessions[key].gdb.Snapshot() == Dispatch.Initial && sessions[key].session.Value() == Fresh
      ensures forall k | k in old(sessions) ::
        && sessions[k].gdb.Snapshot() == old(sessions[k].gdb.Snapshot())
        && sessions[k].session.Value() == old(sessions[k].session.Value())
    {
      var created := new Tools.PwndbgTools(sub);
      ghost var objects := created.Repr();
      assert fresh(objects);
      Insert(key, created);
      assert sessions[key] == created && created.Repr() == objects;
    }

    /** The rest of `set_file`, once the key has its tools: the load itself. */
    method LoadBinary(key: K, binaryPath: string) returns (g: Guarded<Answer>)
      requires Valid() && key in sessions
      modifies sessions[key].Repr()
      ensures sessions == old(sessions) && Valid()
      ensures forall k | k in sessions && k != key ::
        && sessions[k].gdb.Snapshot() == old(sessions[k].gdb.Snapshot())
        && sessions[k].session.Value() == old(sessions[k].session.Value())
      ensures g.Returned? && g.value.Tool? && g.value.result.Single?
      ensures (sessions[key].gdb.Snapshot(), g.value.result.outcome)
          == Controller.LoadSpec(old(sessions[key].gdb.Snapshot()), sessions[key].Sub(), "file " + binaryPath)
      ensures sessions[key].session.Value()
          == Tools.FileLoaded(old(sessions[key].session.Value()), binaryPath, g.value.result.outcome)
    {
      var tools := sessions[key];
      ghost var prior := tools.session.Value();
      assert forall k | k in sessions && k != key :: sessions[k].Repr() !! tools.Repr();
      var o := tools.SetFile(binaryPath);
      assert tools.session.Value() == Tools.FileLoaded(prior, binaryPath, o);
      StillValid(key);
      g := CatchErrors(false, Ok(Tool(Single(o))));
    }

    /** Changing one session's objects keeps the registry valid and leaves
        every other session as it was. */
    twostate lemma StillValid(key: K)
      requires old(Valid()) && key in sessions && sessions == old(sessions) && owned == old(owned)
      requires unchanged(set k, o | k in sessions && k != key && o in sessions[k].Repr() :: o)
      requires sessions[key].Valid()
      ensures Valid()
      ensures forall k | k in sessions && k != key ::
        && sessions[k].gdb.Snapshot() == old(sessions[k].gdb.Snapshot())
        && sessions[k].session.Value() == old(sessions[k].session.Value())
    {
    }

    /** The creation branch of `set_file`: a key seen for the first time is
        bound to tools that share nothing with any other session's. */
    method Insert(key: K, tools: Tools.PwndbgTools)
      requires Valid() && key !in sessions
      requires tools.Valid() && tools.Repr() !! owned
      modifies this
      ensures Valid()
      ensures sessions == old(sessions)[key := tools] && owned == old(owned) + tools.Repr()
    {
      ghost var prior := sessions;
      sessions := sessions[key := tools];
      owned := owned + tools.Repr();
      forall k | k in sessions
        ensures sessions[k].Repr() <= owned && sessions[k].Valid()
      {
        if k != key {
          assert sessions[k] == prior[k];
        }
      }
      forall k1, k2 | k1 in sessions && k2 in sessions && k1 != k2
        ensures sessions[k1].Repr() !! sessions[k2].Repr()
      {
        if k1 == key {
          assert sessions[k2] == prior[k2];
        } else if k2 == key {
          assert sessions[k1] == prior[k1];
        } else {
          assert sessions[k1] == prior[k1] && sessions[k2] == prior[k2];
        }
      }
    }

    /** Every other tool: an unseen key gets the set-file-first answer and
        nothing changes; a known key's call reaches its tools only. Only an
        interrupt can raise, and what it raises comes back as an error result. */
    method Call(key: K, call: ToolCall) returns (g: Guarded<Answer>)
      requires Valid()
      modifies if key in sessions then sessions[key].Repr() else {}
      ensures sessions == old(sessions) && Valid()
      ensures key !in sessions ==> g == Returned(SetFileFirst)
      ensures key in sessions ==> g != Returned(SetFileFirst)
      ensures forall k | k in sessions && k != key ::
        && sessions[k].gdb.Snapshot() == old(sessions[k].gdb.Snapshot())
        && sessions[k].session.Value() == old(sessions[k].session.Value())
      ensures g.Caught? ==> key in sessions && call.Interrupts()
      ensures !g.CaughtPair?
    {
      var found := GetUnitSession(key);
      if found.None? {
        return Returned(SetFileFirst);
      }
      var tools := found.value;
      assert forall k | k in sessions && k != key :: sessions[k].Repr() !! tools.Repr();
      var r := Invoke(tools, call);
      StillValid(key);
      var wrapped := CatchErrors(false, r);
      g := match wrapped
        case Returned(v) => Returned(Tool(v))
        case Caught(e, t) => Caught(e, t)
        case CaughtPair(e, t) => CaughtPair(e, t);
    }
  }
}
