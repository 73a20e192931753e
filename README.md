# A verified model of the pygdbmi MCP server core

pygdbmi-mcp-server exposes a pwndbg/GDB debugger to MCP clients. Each client
session owns one `PwndbgTools` object. That object has:

- a `GdbController`, which writes commands to the debugger subprocess over
  its machine interface (MI), classifies each reply and tracks the state of
  the inferior (the debugged process) from `notify` records;
- a `SessionState`, which keeps what was loaded and two append-only command
  histories.

The server keeps the tools of every client session in `session_dict`. It
creates a session's tools on that session's first `set_file`. Every other
tool answers "Please set_file first." for an unknown session. `catch_errors`
turns any exception into an error dictionary, and `_resolve_transport` picks
the transport.

The model follows the code's own structure:

- The debugger subprocess is an oracle. A `Subprocess` maps the history of
  events at the MI boundary (a command written, an interrupt signal, a read)
  to a reply: a batch of parsed records, or a failure.
  - The only assumption about its records is the one the MI library
    guarantees: a `notify` record's payload is a mapping or None, never a
    string (`Mi.WellFormed`).
  - The event history stands for the written commands and sent signals.
    This makes "no command written" and "exactly one interrupt" plain
    postconditions.
- Each operation of the controller and the tools is a method of a class with
  the source's own fields. Each such method is proved against a pure
  specification function on the abstract state. The properties the source
  promises are proved as lemmas about those functions:
  - `Dispatch.Execute` and `Dispatch.Interrupt`;
  - `Controller.ContextSpec`, `Controller.LoadSpec` and `Controller.RunSpec`;
  - `Tools.FanOut`;
  - `Session.Recorded` and `Session.Reported`.
- The reply loop of `execute_command` and `interrupt` is a `while` loop. Its
  invariant ties the kept records, the notifications handled so far and the
  tracker to the prefix of the reply already read.

Modules, in dependency order: `Mi` (records, events, the oracle), `Notify`
(the inferior-state machine), `Dispatch` (reply classification), `Text`
(decimal rendering of integers in commands), `Commands` (the fixed command
texts and step aliases), `Controller` (`GdbController`), `Session`
(`SessionState`), `Tools` (`PwndbgTools`), `Server` (`session_dict`,
`catch_errors`, `_resolve_transport`).

Behaviour of the code the model keeps, which a reader might expect to be
otherwise:

- `get_memory`, `disassemble` and `finish` are not gated on the inferior
  being stopped.
- The controller assigns `stopped` directly in two places: after a
  successful load, and after a failed write.
- `success` is false when any kept record is an error result. It does not
  depend only on a terminating result record.
- `interrupt` does not catch a failing read. The exception reaches
  `catch_errors`.
- `run` never looks at the outcome of its `b ARGS` dispatch.
- `PwndbgTools.get_context` records its entry but never calls
  `update_state`.
- A failed `set_file` still leaves the new session in `session_dict`.
- A `get_memory` format other than `hex` or `string` falls through to
  `x/Nb`.

## Model

| member | source | states |
|---|---|---|
| Notify.StateName | src/pygdbmi_mcp_server/helper.py:98 | the reported state name is one of `idle`, `running`, `stopped`, `exited` |
| Notify.StateNameInjective | src/pygdbmi_mcp_server/helper.py:98 | distinct states have distinct names, so a reported name identifies the state |
| Notify.StartedPid | src/pygdbmi_mcp_server/helper.py:196-201 | the pid a `thread-group-started` notification yields is present exactly when the payload is a mapping with a `pid` key, and is that value; a missing or None payload yields None |
| Notify.NotifyEffect | src/pygdbmi_mcp_server/helper.py:175-202 | one notification can change the pid only when it is `thread-group-started`, and the state only when it is `running`, `stopped` or `thread-group-exited` |
| Notify.NotifyTransitions | src/pygdbmi_mcp_server/helper.py:175-202 | `running`, `stopped` and `thread-group-exited` set the state from any prior state and keep the pid; `thread-group-started` keeps the state and replaces the pid; any other message, an absent one included, changes nothing |
| Notify.Replay | src/pygdbmi_mcp_server/helper.py:129-134 | handling the notifications of a reply in order; a batch without `thread-group-started` leaves the pid as it was (the order and state facts are the lemmas below) |
| Notify.ReplayAppend | src/pygdbmi_mcp_server/helper.py:129-134 | handling two batches of notifications in turn is handling their concatenation in order |
| Notify.ReplayState | src/pygdbmi_mcp_server/helper.py:129-134 | after a batch, the state is the target of the last state-moving notification, or the prior state when there is none (checked against the reference definition `LastTransition`) |
| Notify.ExitedIsFinal | src/pygdbmi_mcp_server/helper.py:192-193 | a batch ending in `thread-group-exited` lands in `exited` whatever came before |
| Notify.RunningThenStopped | src/pygdbmi_mcp_server/helper.py:179-190 | `running` then `stopped` lands in `stopped` with the pid unchanged, whatever the stop reason |
| Notify.StateIgnoresPid | src/pygdbmi_mcp_server/helper.py:175-202 | the tracked pid never influences the state a batch leads to |
| Dispatch.Kept | src/pygdbmi_mcp_server/helper.py:129-132 | the kept records are non-notify records of the reply, no more of them than the reply has |
| Dispatch.Notifies | src/pygdbmi_mcp_server/helper.py:133-134 | the records handed to the handler are notify records, and safe for it when the reply is well formed |
| Dispatch.KeptAppend | src/pygdbmi_mcp_server/helper.py:129-132 | keeping records preserves arrival order across any split of the reply |
| Dispatch.NotifiesAppend | src/pygdbmi_mcp_server/helper.py:133-134 | notifications reach the handler in arrival order across any split of the reply |
| Dispatch.Partition | src/pygdbmi_mcp_server/helper.py:129-134 | kept records and notifications together are exactly the reply, as a multiset and in count |
| Dispatch.KeptMembership | src/pygdbmi_mcp_server/helper.py:131-132 | a record is kept if and only if it is in the reply and is not a notification |
| Dispatch.SuccessIgnoresNotify | src/pygdbmi_mcp_server/helper.py:136-141 | judging the kept records is judging the whole reply: notifications never affect `success` |
| Dispatch.Execute | src/pygdbmi_mcp_server/helper.py:100-148 | one `execute_command`: the outcome echoes the command, carries no error, reports the state the controller is left in, and can succeed only when the debugger answered (the effects are `ExecuteFailed`/`ExecuteReplied`) |
| Dispatch.ExecuteWrites | src/pygdbmi_mcp_server/helper.py:117-127 | one dispatch writes exactly its one command, and the outcome echoes it |
| Dispatch.ExecuteFailed | src/pygdbmi_mcp_server/helper.py:117-127 | a failed write adds exactly one interrupt signal and yields state `stopped` with the pid kept, empty responses and `success` false |
| Dispatch.ExecuteReplied | src/pygdbmi_mcp_server/helper.py:117-148 | an answered write sends no signal, returns the kept records as responses, succeeds if and only if no record of the reply is an error result, and reports the state the notifications lead to |
| Dispatch.Interrupt | src/pygdbmi_mcp_server/helper.py:150-173 | one `interrupt`: a raised read leaves the tracker as it was; otherwise the outcome is named `interrupt`, carries no error and reports the new state |
| Dispatch.InterruptEffects | src/pygdbmi_mcp_server/helper.py:150-173 | an interrupt sends exactly one signal and writes no command; a failing read leaves the tracker as it was; otherwise the outcome is named `interrupt` and reports the new state |
| Dispatch.InterruptReplied | src/pygdbmi_mcp_server/helper.py:155-166 | an answered interrupt does not raise, returns the kept records as responses, hands the notifications to the handler in order, and succeeds if and only if no record of the reply is an error result |
| Text.NatToString | src/pygdbmi_mcp_server/helper.py:294 | `str(n)` is a non-empty string of digits with no leading zero |
| Text.IntToString | src/pygdbmi_mcp_server/helper.py:294 | `str(i)` starts with a minus sign exactly when `i` is negative |
| Text.NatRoundTrip | src/pygdbmi_mcp_server/helper.py:294 | the digits of `str(n)` denote `n` |
| Text.IntRoundTrip | src/pygdbmi_mcp_server/helper.py:294 | decoding `str(i)` gives `i` back |
| Text.IntToStringInjective | src/pygdbmi_mcp_server/helper.py:294 | distinct numbers render as distinct strings |
| Commands.ParseVerb | src/pygdbmi_mcp_server/helper.py:426-443 | a recognised verb is exactly the resolved name |
| Commands.StepAlias | src/pygdbmi_mcp_server/helper.py:409-416 | the alias map changes a name only into one of the five full verb names (which names it changes is `StepAliasPassThrough`) |
| Commands.StepAliasResolves | src/pygdbmi_mcp_server/helper.py:409-443 | a step command names a verb if and only if it is one of the five aliases or five full names |
| Commands.VerbRoundTrip | src/pygdbmi_mcp_server/helper.py:409-416 | every full verb name resolves to itself and is recognised |
| Commands.StepAliasPassThrough | src/pygdbmi_mcp_server/helper.py:416 | a name is left unchanged by the alias map exactly when it is not one of `c`, `n`, `s`, `ni`, `si`; such a name is what the unknown-verb refusal reports |
| Commands.AliasSelects | src/pygdbmi_mcp_server/helper.py:409-443 | a step command selects a given verb exactly when it is that verb's full name or its alias (`c`, `n`, `s`, `ni`, `si`) |
| Commands.InstructionStepsShort | src/pygdbmi_mcp_server/helper.py:271-277 | exactly `ni`/`nexti` select `nexti` and `si`/`stepi` select `stepi`; those two verbs are written as their aliases `ni` and `si`, the other three by their full names |
| Commands.RunCommand | src/pygdbmi_mcp_server/helper.py:251 | the command is `start` exactly when `start` is requested, and `run` otherwise |
| Commands.BreakpointCommand | src/pygdbmi_mcp_server/helper.py:283-285 | the command starts with `b LOCATION`; it is exactly that if and only if the condition is missing or empty; otherwise ` if "CONDITION"` follows |
| Commands.MemoryCommand | src/pygdbmi_mcp_server/helper.py:524-529 | `hex` gives `hexdump ADDR SIZE`, `string` gives `x/s ADDR`, any other format gives `x/SIZEb ADDR` |
| Commands.MemorySize | src/pygdbmi_mcp_server/helper.py:524-529 | the string read ignores the size; the other two formats determine it |
| Commands.BreakpointToggleCommand | src/pygdbmi_mcp_server/helper.py:296-302 | the command is `enable breakpoints ` or `disable breakpoints ` by the flag, followed by the rendered number |
| Commands.BreakpointNumbersDistinct | src/pygdbmi_mcp_server/helper.py:292-302 | distinct breakpoint numbers give distinct `delete N` commands and distinct `enable`/`disable breakpoints N` commands |
| Controller.Transport.Write | src/pygdbmi_mcp_server/helper.py:118 | a write logs the command and returns the debugger's answer to the history so far |
| Controller.Transport.SendInterrupt | src/pygdbmi_mcp_server/helper.py:121 | sending SIGINT logs one signal and nothing else |
| Controller.Transport.GetResponse | src/pygdbmi_mcp_server/helper.py:155 | a read logs one read and returns the debugger's answer |
| Controller.RefusedContext | src/pygdbmi_mcp_server/helper.py:207-213 | the refusal echoes `context KIND`, has no responses, fails, reports the current state, and its error message ends with that state's name |
| Controller.ContextSpec | src/pygdbmi_mcp_server/helper.py:204-214 | `get_context` echoes `context KIND` and can succeed only when the inferior was stopped (refusal and dispatch are `ContextGate`) |
| Controller.LoadSpec | src/pygdbmi_mcp_server/helper.py:216-241 | a load echoes its command, reports the controller's state, and a successful load leaves the inferior stopped |
| Controller.RunSpec | src/pygdbmi_mcp_server/helper.py:243-253 | `run` answers with the `start`/`run` outcome, or, only with arguments, with a failed `continue`; the reported state is the controller's (the writes are `RunWrites`) |
| Controller.ContextGate | src/pygdbmi_mcp_server/helper.py:204-214 | while not stopped: nothing changes or is written, and the outcome fails with empty responses, the current state and an error; when stopped: exactly `context KIND` is written |
| Controller.LoadSettles | src/pygdbmi_mcp_server/helper.py:216-241 | a load writes its one command, forces `stopped` only on success, leaves a failed dispatch untouched, keeps the pid and reports the controller's state |
| Controller.RunWrites | src/pygdbmi_mcp_server/helper.py:243-253 | without arguments only `start`/`run` is written. With arguments, `b ARGS` and `continue` are written whatever the breakpoint's outcome; if `continue` fails, its outcome and state are the result and nothing more is written; otherwise `start`/`run` is dispatched from the state `continue` left |
| Controller.BreakThenContinue | src/pygdbmi_mcp_server/helper.py:245-247 | the first two dispatches of a run with arguments write `b ARGS` then `continue` |
| Controller.ClassifyStep | src/pygdbmi_mcp_server/helper.py:129-134 | reading one more record either keeps it or hands it to the handler, and the tracker follows |
| Controller.JudgeSuccess | src/pygdbmi_mcp_server/helper.py:136-141 | the early-exit loop returns true if and only if no kept record is an error result |
| Controller.GdbController.constructor | src/pygdbmi_mcp_server/helper.py:81-98 | a new controller starts `idle`, with no pid and no event history |
| Controller.GdbController.HandleNotify | src/pygdbmi_mcp_server/helper.py:175-202 | the fields change as one step of the state machine |
| Controller.GdbController.Classify | src/pygdbmi_mcp_server/helper.py:129-141 | the loop keeps exactly the non-notify records in order, replays the notifications in order, and judges success |
| Controller.GdbController.ExecuteCommand | src/pygdbmi_mcp_server/helper.py:100-148 | the new controller state and the outcome are those of `Dispatch.Execute` |
| Controller.GdbController.Interrupt | src/pygdbmi_mcp_server/helper.py:150-173 | the new state and the result, a raised exception included, are those of `Dispatch.Interrupt` |
| Controller.GdbController.GetContext | src/pygdbmi_mcp_server/helper.py:204-214 | the new state and outcome are those of the gated `ContextSpec` |
| Controller.GdbController.Load | src/pygdbmi_mcp_server/helper.py:216-241 | the shared load step: the new state and outcome are those of `LoadSpec` |
| Controller.GdbController.SetFile | src/pygdbmi_mcp_server/helper.py:216-223 | `file PATH` as a load (`LoadSpec`) |
| Controller.GdbController.TargetRemote | src/pygdbmi_mcp_server/helper.py:225-232 | `target remote TARGET` as a load |
| Controller.GdbController.SetPocFile | src/pygdbmi_mcp_server/helper.py:234-241 | `set args PATH` as a load |
| Controller.GdbController.Run | src/pygdbmi_mcp_server/helper.py:243-253 | the run composite with its short-circuit (`RunSpec`) |
| Controller.GdbController.StepVerbCommand | src/pygdbmi_mcp_server/helper.py:426-435 | each verb dispatches its fixed command |
| Controller.GdbController.ContinueExecution | src/pygdbmi_mcp_server/helper.py:255-257 | one dispatch of `continue` |
| Controller.GdbController.Finish | src/pygdbmi_mcp_server/helper.py:259-261 | one dispatch of `finish` |
| Controller.GdbController.Next | src/pygdbmi_mcp_server/helper.py:263-265 | one dispatch of `next` |
| Controller.GdbController.Step | src/pygdbmi_mcp_server/helper.py:267-269 | one dispatch of `step` |
| Controller.GdbController.Nexti | src/pygdbmi_mcp_server/helper.py:271-273 | one dispatch of `ni` |
| Controller.GdbController.Stepi | src/pygdbmi_mcp_server/helper.py:275-277 | one dispatch of `si` |
| Controller.GdbController.SetBreakpoint | src/pygdbmi_mcp_server/helper.py:279-286 | one dispatch of the breakpoint command |
| Controller.GdbController.ListBreakpoints | src/pygdbmi_mcp_server/helper.py:288-290 | one dispatch of `info breakpoints` |
| Controller.GdbController.DeleteBreakpoint | src/pygdbmi_mcp_server/helper.py:292-294 | one dispatch of `delete N` |
| Controller.GdbController.EnableBreakpoint | src/pygdbmi_mcp_server/helper.py:296-298 | one dispatch of `enable breakpoints N` |
| Controller.GdbController.DisableBreakpoint | src/pygdbmi_mcp_server/helper.py:300-302 | one dispatch of `disable breakpoints N` |
| Controller.GdbController.GetState | src/pygdbmi_mcp_server/helper.py:304-306 | returns the tracked state and changes nothing |
| Session.Recorded | src/pygdbmi_mcp_server/helper.py:44-53 | recording appends exactly one entry to each history, keeps what was there and every other field, and keeps the two histories in step |
| Session.Reported | src/pygdbmi_mcp_server/helper.py:333-334 | noting an outcome's state and recording it: the state becomes the outcome's, exactly one entry is appended to each history, nothing else changes, and the histories stay in step |
| Session.ExtendsTransitive | src/pygdbmi_mcp_server/helper.py:44-53 | the append-only relation between history snapshots composes |
| Session.RecordAllAppends | src/pygdbmi_mcp_server/helper.py:46-52 | recording a sequence of entries appends exactly them, in order, to the full history |
| Session.RecordAllNames | src/pygdbmi_mcp_server/helper.py:53 | the compact history gains exactly their command texts, in order |
| Session.RecordAllExtends | src/pygdbmi_mcp_server/helper.py:44-53 | any run of recordings only extends both histories and keeps them consistent |
| Session.SessionState.constructor | src/pygdbmi_mcp_server/helper.py:20-38 | a new session has nothing loaded, state `idle` and empty histories |
| Session.SessionState.RecordCommand | src/pygdbmi_mcp_server/helper.py:44-53 | the session becomes `Recorded` of its old value |
| Session.SessionState.UpdateState | src/pygdbmi_mcp_server/helper.py:55-59 | only the state changes |
| Session.SessionState.ToDict | src/pygdbmi_mcp_server/helper.py:61-75 | every field of the summary is the session's field; `command_count` is the length of the full history, and under the session invariant the listed commands name its entries one by one |
| Tools.FanOut | src/pygdbmi_mcp_server/helper.py:466-467 | the fan-out yields one entry per kind requested |
| Tools.FanOutKeys | src/pygdbmi_mcp_server/helper.py:459-469 | `context all` yields one entry per kind `regs, stack, disasm, code, backtrace`, in order, each the outcome of `context KIND`, whatever the sub-results |
| Tools.FanOutWritesAtMost | src/pygdbmi_mcp_server/helper.py:466-467 | the fan-out writes at most one command per kind; from a non-stopped state it changes nothing |
| Tools.FanOutStaysRefused | src/pygdbmi_mcp_server/helper.py:459-469 | once the requests so far leave the inferior not stopped, every later kind is refused, nothing more changes, and the earlier entries stand |
| Tools.FileLoaded | src/pygdbmi_mcp_server/helper.py:345-356 | after `set_file` the loaded flag is set exactly when it was or the load succeeded, the path changes only on success, the state is the outcome's, and `file PATH` is appended to both histories |
| Tools.PwndbgTools.constructor | src/pygdbmi_mcp_server/helper.py:317-325 | new tools hold a fresh controller in its initial state and a fresh session |
| Tools.PwndbgTools.Execute | src/pygdbmi_mcp_server/helper.py:327-335 | the text `interrupt` goes to the interrupt tool; any other command is one dispatch, and the state is noted and the command recorded |
| Tools.PwndbgTools.Interrupt | src/pygdbmi_mcp_server/helper.py:337-343 | the controller's interrupt; the session is noted and recorded only when no exception was raised |
| Tools.PwndbgTools.SetFile | src/pygdbmi_mcp_server/helper.py:345-356 | a load of `file PATH`; the path and loaded flag are set only on success; the state is noted and the command recorded |
| Tools.PwndbgTools.TargetRemote | src/pygdbmi_mcp_server/helper.py:358-370 | a load of `target remote T`; target, connected and loaded flags are set only on success |
| Tools.PwndbgTools.SetPocFile | src/pygdbmi_mcp_server/helper.py:372-380 | a load of `set args PATH`, noted and recorded |
| Tools.PwndbgTools.Run | src/pygdbmi_mcp_server/helper.py:382-396 | with nothing loaded: a failure naming `run` with the current state, and nothing written or recorded; otherwise the run composite, noted and recorded under its outcome's command |
| Tools.PwndbgTools.Finish | src/pygdbmi_mcp_server/helper.py:398-404 | one ungated dispatch of `finish`, noted and recorded |
| Tools.PwndbgTools.StepControl | src/pygdbmi_mcp_server/helper.py:406-446 | the alias is resolved first. While not stopped, and for an unknown verb, there is a failure naming the resolved command, with the source's error texts, and nothing written or recorded. Otherwise the verb's command is dispatched, noted and recorded |
| Tools.PwndbgTools.GetContext | src/pygdbmi_mcp_server/helper.py:448-473 | refused with nothing changed while not stopped. `all` runs the ordered fan-out and records one `context all` entry with `success` true. Another kind records its own entry. The recorded state is left as it was |
| Tools.PwndbgTools.Dispatched | src/pygdbmi_mcp_server/helper.py:475-539 | the shared step of the ungated tools: one dispatch, recorded with its outcome and without a state update |
| Tools.PwndbgTools.SetBreakpoint | src/pygdbmi_mcp_server/helper.py:475-482 | one dispatch of the breakpoint command, recorded |
| Tools.PwndbgTools.ListBreakpoints | src/pygdbmi_mcp_server/helper.py:484-489 | one dispatch of `info breakpoints`, recorded |
| Tools.PwndbgTools.DeleteBreakpoint | src/pygdbmi_mcp_server/helper.py:491-496 | one dispatch of `delete N`, recorded |
| Tools.PwndbgTools.ToggleBreakpoint | src/pygdbmi_mcp_server/helper.py:498-510 | one dispatch of `enable`/`disable breakpoints N` by the flag, recorded |
| Tools.PwndbgTools.GetMemory | src/pygdbmi_mcp_server/helper.py:519-532 | one ungated dispatch of the format's memory command, recorded |
| Tools.PwndbgTools.Disassemble | src/pygdbmi_mcp_server/helper.py:534-539 | one ungated dispatch of `disassemble ADDR`, recorded |
| Tools.PwndbgTools.GetSessionInfo | src/pygdbmi_mcp_server/helper.py:541-543 | the session's summary and the controller's state; the count equals the number of listed commands, which name the history's entries |
| Server.CatchErrors | src/pygdbmi_mcp_server/server.py:24-44 | a normal result passes through unchanged; an exception becomes the error carrying `str(e)` and the class name, paired with an empty list exactly when `tuple_on_error` is set |
| Server.ResolveTransport | src/pygdbmi_mcp_server/server.py:303-312 | the first non-empty of the command-line value, `MCP_TRANSPORT` and `TRANSPORT`; else `stdio` when stdin is not a terminal, else `sse`; never empty |
| Server.EmptyIsUnset | src/pygdbmi_mcp_server/server.py:304-308 | an empty value at any level is the same as a missing one |
| Server.Invoke | src/pygdbmi_mcp_server/server.py:65-299 | a found session's tool call delegates to its tools; only the interrupt path can raise |
| Server.Registry.constructor | src/pygdbmi_mcp_server/server.py:55 | the registry starts empty |
| Server.Registry.GetUnitSession | src/pygdbmi_mcp_server/server.py:58-62 | None exactly for an unseen key, otherwise the stored tools |
| Server.Registry.SetFile | src/pygdbmi_mcp_server/server.py:80-93 | the key is present afterwards and no other key appears. Known keys keep their tools, and a new key gets fresh tools. The load runs on that key's tools whatever its outcome, from its old state or the initial one, and its session becomes `FileLoaded` of its old value or of a fresh session. No other session changes |
| Server.Registry.Create | src/pygdbmi_mcp_server/server.py:89-91 | for an unseen key: fresh tools answering as the given debugger are stored in their initial state, with a fresh session, and no other entry or session changes |
| Server.Registry.LoadBinary | src/pygdbmi_mcp_server/server.py:92-93 | the load on an existing key changes no entry and no other session; that key's controller follows `LoadSpec` and its session becomes `FileLoaded` of its old value |
| Server.Registry.Insert | src/pygdbmi_mcp_server/server.py:89-91 | inserting tools that share nothing with the others keeps every session isolated |
| Server.Registry.StillValid | src/pygdbmi_mcp_server/server.py:55 | a change confined to one session's objects keeps every session isolated and leaves every other session's controller and record as they were |
| Server.Registry.Call | src/pygdbmi_mcp_server/server.py:74-77 | the registry never changes. An unseen key gets "Please set_file first." with nothing touched. A known key's call changes no other session, and an error result means the call was an interrupt |

## Left out

- Spawning pwndbg, reading its output, timeouts and `exit()`: the MI library and the subprocess are the `Subprocess` oracle. A write that raises or times out is a `Failed` reply; `timeout_sec` is not modelled.
- MI line parsing: records arrive parsed; the parser is not part of this model.
- `GdbController.close`: it only asks the MI library to stop the process.
- `_initialized`: assigned and never read.
- `PwndbgTools._get_full_context`: never called.
- Timestamps of history entries, `session_id` and `created_at`: clock values, left out of the entries and the summary.
- Logging calls, FastMCP registration, `async`/`await`, `load_dotenv`, `argparse`, `main` and `mcp.run`: hosting and command-line glue. The hosting layer's session object is the type parameter `K` of `Server.Registry`.
- Reading the environment and `sys.stdin.isatty()`: these are parameters of `Server.ResolveTransport`.
- Concurrency: the server runs tool calls one at a time, and the source has no locking.
- `Mi.WellFormed`: a `notify` record with a string payload and message `stopped` or `thread-group-started` would make the handler raise. The MI library never produces one, so the oracle excludes it rather than modelling that exception.
- Server.Invoke: states only where exceptions can come from. Each tool's effect on its session is stated on the `Tools.PwndbgTools` method it calls.
- Server.Registry.Call: states the framing (other sessions untouched, registry unchanged) and the error wrapping, not each tool's effect again.
- Tools.PwndbgTools.GetSessionInfo: the summary omits `session_id` and `created_at`.
- Server.Registry.SetFile: a failed spawn is not modelled. If pwndbg cannot be started, `PwndbgTools()` raises before the assignment at server.py:91, so `catch_errors` answers with the error and no entry is made. The model always inserts the key and returns a result. The same holds for `Server.Registry.Create`.
- `SessionState.pid`: kept as a field. No code writes it, because the controller tracks the pid itself.
