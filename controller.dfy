/**
  The debugger controller: the object that owns the subprocess, writes
  commands, classifies replies, tracks the inferior state from notifications,
  refuses context requests while the inferior is not stopped, and composes
  the load and run operations.

  `Transport` stands for the MI library's controller object and its process:
  it records what the server does at the subprocess boundary and answers
  from the `Subprocess` oracle.
*/
module Controller {
  import opened Mi
  import opened Notify
  import opened Dispatch
  import opened Commands
  import opened Text

  class Transport {
    /** Every event at the subprocess boundary so far. */
    var log: seq<Event>
    /** How the debugger answers. */
    const answer: Subprocess

    constructor (answer: Subprocess)
      ensures this.answer == answer && log == []
    {
      this.answer := answer;
      log := [];
    }

    /** `write(command)`: send one command and collect the reply, or fail. */
    method Write(command: string) returns (reply: Reply)
      modifies this
      ensures log == old(log) + [Wrote(command)] && reply == answer(log)
    {
      log := log + [Wrote(command)];
      reply := answer(log);
    }

    /** `gdb_process.send_signal(SIGINT)`. */
    method SendInterrupt()
      modifies this
      ensures log == old(log) + [Sigint]
    {
      log := log + [Sigint];
    }

    /** `get_gdb_response()`: read whatever is pending, or fail. */
    method GetResponse() returns (reply: Reply)
      modifies this
      ensures log == old(log) + [Read] && reply == answer(log)
    {
      log := log + [Read];
      reply := answer(log);
    }
  }

  /** The refusal a context request gets while the inferior is not stopped. */
  function RefusedContext(kind: string, s: InferiorState): (o: Outcome)
    ensures o.command == "context " + kind && o.responses == [] && !o.success && o.state == s
    ensures o.error.Some?
    ensures var e, name := o.error.value, StateName(s); |name| <= |e| && e[|e| - |name|..] == name
  {
    Outcome("context " + kind, [], false, s, Some("Cannot get context while inferior is " + StateName(s)))
  }

  /** `get_context(kind)`: refused unless stopped, otherwise `context KIND` is written. */
  function ContextSpec(c: Ctl, sub: Subprocess, kind: string): (r: (Ctl, Outcome))
    ensures r.1.command == "context " + kind
    ensures r.1.success ==> c.tracker.state == Stopped
  {
    if c.tracker.state != Stopped then (c, RefusedContext(kind, c.tracker.state))
    else Execute(c, sub, "context " + kind)
  }

  /** `set_file`, `target_remote`, `set_poc_file`: run the command and, when it
      succeeded, take the inferior to be stopped; the outcome reports the state
      after that. */
  function LoadSpec(c: Ctl, sub: Subprocess, command: string): (r: (Ctl, Outcome))
    ensures r.1.command == command && r.1.state == r.0.tracker.state
    ensures r.1.success ==> r.0.tracker.state == Stopped
  {
    var (c1, o) := Execute(c, sub, command);
    var c2 := if o.success then c1.(tracker := c1.tracker.(state := Stopped)) else c1;
    (c2, o.(state := c2.tracker.state))
  }

  /** `run(args, start)`: with arguments, `b ARGS` (its outcome unused) and
      `continue`, giving up with the `continue` outcome when it failed; then
      `start` or `run`. */
  function RunSpec(c: Ctl, sub: Subprocess, args: string, start: bool): (r: (Ctl, Outcome))
    ensures r.1.command == RunCommand(start) || (args != "" && r.1.command == "continue" && !r.1.success)
    ensures r.1.state == r.0.tracker.state
  {
    if args != "" then
      var (c1, _) := Execute(c, sub, "b " + args);
      var (c2, o2) := Execute(c1, sub, "continue");
      if !o2.success then (c2, o2) else Execute(c2, sub, RunCommand(start))
    else Execute(c, sub, RunCommand(start))
  }

  /** A refused context request writes nothing and changes nothing; an
      admitted one is exactly one dispatch of `context KIND`. */
  lemma ContextGate(c: Ctl, sub: Subprocess, kind: string)
    ensures var (c', o) := ContextSpec(c, sub, kind);
      && o.command == "context " + kind
      && (c.tracker.state != Stopped ==>
            c' == c && !o.success && o.responses == [] && o.state == c.tracker.state && o.error.Some?)
      && (c.tracker.state == Stopped ==> Writes(c'.log) == Writes(c.log) + ["context " + kind])
  {
    ExecuteWrites(c, sub, "context " + kind);
  }

  /** A load writes its one command, forces `stopped` only on success, and
      reports the state the controller is left in. */
  lemma LoadSettles(c: Ctl, sub: Subprocess, command: string)
    ensures var (c', o) := LoadSpec(c, sub, command);
      && Writes(c'.log) == Writes(c.log) + [command]
      && o.state == c'.tracker.state
      && o.command == command
      && (o.success ==> c'.tracker.state == Stopped)
      && (!o.success ==> (c', o) == Execute(c, sub, command))
      && c'.tracker.pid == Execute(c, sub, command).0.tracker.pid
  {
    ExecuteWrites(c, sub, command);
  }

  /** What `run` writes: without arguments just `start` or `run`; with
      arguments `b ARGS` and `continue` whatever the breakpoint's outcome.
      A failed `continue` ends the run: its outcome and state are the
      result and nothing more is written. Otherwise `start`/`run` follows
      from the state `continue` left. */
  lemma RunWrites(c: Ctl, sub: Subprocess, args: string, start: bool)
    ensures var (c', o) := RunSpec(c, sub, args, start);
      var w, w' := Writes(c.log), Writes(c'.log);
      && (args == "" ==> w' == w + [RunCommand(start)] && o.command == RunCommand(start))
      && (args != "" ==>
            var (c2, o2) := Execute(Execute(c, sub, "b " + args).0, sub, "continue");
            && (!o2.success ==>
                  w' == w + ["b " + args, "continue"] && c' == c2 && o == o2 && o.command == "continue")
            && (o2.success ==>
                  w' == w + ["b " + args, "continue", RunCommand(start)]
                  && (c', o) == Execute(c2, sub, RunCommand(start)) && o.command == RunCommand(start)))
  {
    var w := Writes(c.log);
    if args != "" {
      var c2 := Execute(Execute(c, sub, "b " + args).0, sub, "continue");
      BreakThenContinue(c, sub, args);
      if c2.1.success {
        var r3 := Execute(c2.0, sub, RunCommand(start));
        ExecuteWrites(c2.0, sub, RunCommand(start));
        assert Writes(r3.0.log) == (w + ["b " + args, "continue"]) + [RunCommand(start)];
      }
    } else {
      ExecuteWrites(c, sub, RunCommand(start));
    }
  }

  /** The first two dispatches of `run` with arguments. */
  lemma BreakThenContinue(c: Ctl, sub: Subprocess, args: string)
    ensures var r := Execute(Execute(c, sub, "b " + args).0, sub, "continue");
      Writes(r.0.log) == Writes(c.log) + ["b " + args, "continue"] && r.1.command == "continue"
  {
    var c1 := Execute(c, sub, "b " + args).0;
    ExecuteWrites(c, sub, "b " + args);
    ExecuteWrites(c1, sub, "continue");
    assert (Writes(c.log) + ["b " + args]) + ["continue"] == Writes(c.log) + ["b " + args, "continue"];
  }

  /** One more record of a reply: kept, or handed to the state machine. */
  lemma ClassifyStep(t0: Tracker, rs: seq<Record>, i: nat)
    requires i < |rs| && forall j | 0 <= j < |rs| :: Handled(rs[j])
    ensures AllSafe(Notifies(rs[..i])) && AllSafe(Notifies(rs[..i + 1]))
    ensures Kept(rs[..i + 1]) == Kept(rs[..i]) + (if IsNotify(rs[i]) then [] else [rs[i]])
    ensures Notifies(rs[..i + 1]) == Notifies(rs[..i]) + (if IsNotify(rs[i]) then [rs[i]] else [])
    ensures IsNotify(rs[i]) ==> SafeForHandler(rs[i])
    ensures Replay(t0, Notifies(rs[..i + 1])) ==
      if IsNotify(rs[i]) then NotifyEffect(Replay(t0, Notifies(rs[..i])), rs[i]) else Replay(t0, Notifies(rs[..i]))
  {
    var p, q, x := rs[..i + 1], rs[..i], rs[i];
    assert p[..|p| - 1] == q && p[|p| - 1] == x;
    assert forall j | 0 <= j < |q| :: Handled(q[j]) by {
      assert forall j | 0 <= j < |q| :: q[j] == rs[j];
    }
    assert forall j | 0 <= j < |p| :: Handled(p[j]) by {
      assert forall j | 0 <= j < |p| :: p[j] == rs[j];
    }
    var n := Notifies(q);
    if IsNotify(x) {
      var m := n + [x];
      assert Notifies(p) == m;
      assert m[..|m| - 1] == n && m[|m| - 1] == x;
    } else {
      assert Notifies(p) == n + [] == n;
    }
  }

  /** The success loop: true unless some record is an error result. */
  method JudgeSuccess(collected: seq<Record>) returns (success: bool)
    ensures success <==> Succeeded(collected)
  {
    success := true;
    var j := 0;
    while j < |collected|
      invariant 0 <= j <= |collected|
      invariant Succeeded(collected[..j])
    {
      if IsErrorResult(collected[j]) {
        success := false;
        break;
      }
      assert collected[..j + 1] == collected[..j] + [collected[j]];
      j := j + 1;
    }
    if success {
      assert collected[..j] == collected;
    }
  }

  class GdbController {
    /** The MI library's controller and process. */
    const controller: Transport
    /** The pid a `thread-group-started` notification reported. */
    var inferiorPid: Option<Value>
    var state: InferiorState

    /** The abstract value: tracker and boundary history. */
    function Snapshot(): Ctl
      reads this, controller
    {
      Ctl(Tracker(state, inferiorPid), controller.log)
    }

    constructor (sub: Subprocess)
      ensures fresh(controller) && controller.answer == sub
      ensures Snapshot() == Initial
    {
      controller := new Transport(sub);
      inferiorPid := None;
      state := Idle;
    }

    /** `_handle_notify`. */
    method HandleNotify(response: Record)
      requires SafeForHandler(response)
      modifies this
      ensures Tracker(state, inferiorPid) == NotifyEffect(old(Tracker(state, inferiorPid)), response)
    {
      var message := response.message;
      if message == Some("running") {
        state := Running;
      } else if message == Some("stopped") {
        state := Stopped;
      } else if message == Some("thread-group-exited") {
        state := Exited;
      } else if message == Some("thread-group-started") {
        inferiorPid := StartedPid(response.payload);
      }
    }

    /** Route the records of a reply: keep the non-notify ones, hand the
        notify ones to the state machine; then judge success. */
    method Classify(command: string, rs: seq<Record>) returns (o: Outcome)
      requires forall i | 0 <= i < |rs| :: Handled(rs[i])
      modifies this
      ensures AllSafe(Notifies(rs))
      ensures Tracker(state, inferiorPid) == Replay(old(Tracker(state, inferiorPid)), Notifies(rs))
      ensures o == Outcome(command, Kept(rs), Succeeded(Kept(rs)), state, None)
    {
      ghost var t0 := Tracker(state, inferiorPid);
      var collected: seq<Record> := [];
      var i := 0;
      while i < |rs|
        invariant 0 <= i <= |rs|
        invariant AllSafe(Notifies(rs[..i]))
        invariant collected == Kept(rs[..i])
        invariant Tracker(state, inferiorPid) == Replay(t0, Notifies(rs[..i]))
      {
        var response := rs[i];
        ClassifyStep(t0, rs, i);
        if !IsNotify(response) {
          collected := collected + [response];
        }
        if IsNotify(response) {
          HandleNotify(response);
        }
        i := i + 1;
      }
      assert rs[..i] == rs;
      var success := JudgeSuccess(collected);
      o := Outcome(command, collected, success, state, None);
    }

    /** `execute_command`. */
    method ExecuteCommand(command: string) returns (o: Outcome)
      modifies this, controller
      ensures (Snapshot(), o) == Execute(old(Snapshot()), controller.answer, command)
    {
      var reply := controller.Write(command);
      if reply.Failed? {
        state := Stopped;
        controller.SendInterrupt();
        return Outcome(command, [], false, state, None);
      }
      assert WellFormed(reply);
      o := Classify(command, reply.records);
    }

    /** `interrupt`: the signal is always sent; a failed read propagates. */
    method Interrupt() returns (r: Raise<Outcome>)
      modifies this, controller
      ensures (Snapshot(), r) == Dispatch.Interrupt(old(Snapshot()), controller.answer)
    {
      controller.SendInterrupt();
      var reply := controller.GetResponse();
      assert controller.log == old(controller.log) + [Sigint, Read];
      if reply.Failed? {
        return Threw(reply.exc);
      }
      assert WellFormed(reply);
      var o := Classify("interrupt", reply.records);
      r := Ok(o);
    }

    /** `get_context`. */
    method GetContext(kind: string) returns (o: Outcome)
      modifies this, controller
      ensures (Snapshot(), o) == ContextSpec(old(Snapshot()), controller.answer, kind)
    {
      if state != Stopped {
        return RefusedContext(kind, state);
      }
      o := ExecuteCommand("context " + kind);
    }

    method Load(command: string) returns (o: Outcome)
      modifies this, controller
      ensures (Snapshot(), o) == LoadSpec(old(Snapshot()), controller.answer, command)
    {
      o := ExecuteCommand(command);
      if o.success {
        state := Stopped;
      }
      o := o.(state := state);
    }

    /** `set_file`: `file PATH`. */
    method SetFile(filepath: string) returns (o: Outcome)
      modifies this, controller
      ensures (Snapshot(), o) == LoadSpec(old(Snapshot()), controller.answer, "file " + filepath)
    {
      o := Load("file " + filepath);
    }

    /** `target_remote`: `target remote TARGET`. */
    method TargetRemote(target: string) returns (o: Outcome)
      modifies this, controller
      ensures (Snapshot(), o) == LoadSpec(old(Snapshot()), controller.answer, "target remote " + target)
    {
      o := Load("target remote " + target);
    }

    /** `set_poc_file`: `set args PATH`. */
    method SetPocFile(pocFilePath: string) returns (o: Outcome)
      modifies this, controller
      ensures (Snapshot(), o) == LoadSpec(old(Snapshot()), controller.answer, "set args " + pocFilePath)
    {
      o := Load("set args " + pocFilePath);
    }

    /** `run`. */
    method Run(args: string, start: bool) returns (o: Outcome)
      modifies this, controller
      ensures (Snapshot(), o) == RunSpec(old(Snapshot()), controller.answer, args, start)
    {
      if args != "" {
        var breakpoint := ExecuteCommand("b " + args);
        var continued := ExecuteCommand("continue");
        if !continued.success {
          return continued;
        }
      }
      o := ExecuteCommand(RunCommand(start));
    }

    /** The stepping commands, with the verb's fixed command text. */
    method StepVerbCommand(v: StepVerb) returns (o: Outcome)
      modifies this, controller
      ensures (Snapshot(), o) == Execute(old(Snapshot()), controller.answer, VerbCommand(v))
    {
      match v
      case Continue => o := ContinueExecution();
      case Next => o := Next();
      case Step => o := Step();
      case NextI => o := Nexti();
      case StepI => o := Stepi();
    }

    method ContinueExecution() returns (o: Outcome)
      modifies this, controller
      ensures (Snapshot(), o) == Execute(old(Snapshot()), controller.answer, "continue")
    {
      o := ExecuteCommand("continue");
    }

    method Finish() returns (o: Outcome)
      modifies this, controller
      ensures (Snapshot(), o) == Execute(old(Snapshot()), controller.answer, "finish")
    {
      o := ExecuteCommand("finish");
    }

    method Next() returns (o: Outcome)
      modifies this, controller
      ensures (Snapshot(), o) == Execute(old(Snapshot()), controller.answer, "next")
    {
      o := ExecuteCommand("next");
    }

    method Step() returns (o: Outcome)
      modifies this, controller
      ensures (Snapshot(), o) == Execute(old(Snapshot()), controller.answer, "step")
    {
      o := ExecuteCommand("step");
    }

    /** `nexti` writes the short form `ni`. */
    method Nexti() returns (o: Outcome)
      modifies this, controller
      ensures (Snapshot(), o) == Execute(old(Snapshot()), controller.answer, "ni")
    {
      o := ExecuteCommand("ni");
    }

    /** `stepi` writes the short form `si`. */
    method Stepi() returns (o: Outcome)
      modifies this, controller
      ensures (Snapshot(), o) == Execute(old(Snapshot()), controller.answer, "si")
    {
      o := ExecuteCommand("si");
    }

    method SetBreakpoint(location: string, condition: Option<string>) returns (o: Outcome)
      modifies this, controller
      ensures (Snapshot(), o) == Execute(old(Snapshot()), controller.answer, BreakpointCommand(location, condition))
    {
      o := ExecuteCommand(BreakpointCommand(location, condition));
    }

    method ListBreakpoints() returns (o: Outcome)
      modifies this, controller
      ensures (Snapshot(), o) == Execute(old(Snapshot()), controller.answer, "info breakpoints")
    {
      o := ExecuteCommand("info breakpoints");
    }

    method DeleteBreakpoint(number: int) returns (o: Outcome)
      modifies this, controller
      ensures (Snapshot(), o) == Execute(old(Snapshot()), controller.answer, "delete " + IntToString(number))
    {
      o := ExecuteCommand("delete " + IntToString(number));
    }

    method EnableBreakpoint(number: int) returns (o: Outcome)
      modifies this, controller
      ensures (Snapshot(), o) == Execute(old(Snapshot()), controller.answer, BreakpointToggleCommand(true, number))
    {
      o := ExecuteCommand(BreakpointToggleCommand(true, number));
    }

    method DisableBreakpoint(number: int) returns (o: Outcome)
      modifies this, controller
      ensures (Snapshot(), o) == Execute(old(Snapshot()), controller.answer, BreakpointToggleCommand(false, number))
    {
      o := ExecuteCommand(BreakpointToggleCommand(false, number));
    }

    /** `get_state`: the tracked state; nothing is written. */
    method GetState() returns (s: InferiorState)
      ensures s == state
    {
      s := state;
    }
  }
}
