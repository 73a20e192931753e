/**
  The bookkeeping of one debugging session: what was loaded or connected,
  the last state a tool reported, and two append-only histories, one of full
  entries (command and result) and one of command texts only.
*/
module Session {
  import opened Mi
  import opened Notify
  import opened Dispatch

  /** What a tool returns: one outcome, the aggregate of `context all`, or the session summary. */
  datatype ToolResult =
    | Single(outcome: Outcome)
    | Contexts(success: bool, state: InferiorState, contexts: seq<(string, Outcome)>)
    | Info(session: Summary, gdbState: InferiorState)

  /** An entry of the full history; its timestamp is not modelled. */
  datatype HistoryEntry = HistoryEntry(command: string, result: ToolResult)

  /** `to_dict()`, without the session id and creation time. */
  datatype Summary = Summary(binaryPath: Option<string>, binaryLoaded: bool, entryPoint: Option<string>,
                             remoteTarget: Option<string>, remoteConnected: bool, pid: Option<int>,
                             state: InferiorState, commandCount: nat, commandHistory: seq<string>)

  /** The abstract value of a session's fields. */
  datatype SessionValue = SessionValue(binaryPath: Option<string>, binaryLoaded: bool, entryPoint: Option<string>,
                                       remoteTarget: Option<string>, remoteConnected: bool, pid: Option<int>,
                                       state: InferiorState, commandHistory: seq<HistoryEntry>,
                                       recordCommandHistory: seq<string>)

  const Fresh := SessionValue(None, false, None, None, false, None, Idle, [], [])

  /** The two histories agree entry by entry. */
  predicate Consistent(v: SessionValue) {
    && |v.commandHistory| == |v.recordCommandHistory|
    && forall i | 0 <= i < |v.commandHistory| :: v.commandHistory[i].command == v.recordCommandHistory[i]
  }

  /** `record_command`: one entry appended to each history, nothing else touched. */
  function Recorded(v: SessionValue, command: string, result: ToolResult): (r: SessionValue)
    ensures |r.commandHistory| == |v.commandHistory| + 1 && |r.recordCommandHistory| == |v.recordCommandHistory| + 1
    ensures r.commandHistory[..|v.commandHistory|] == v.commandHistory
    ensures r.recordCommandHistory[..|v.recordCommandHistory|] == v.recordCommandHistory
    ensures r.commandHistory[|v.commandHistory|] == HistoryEntry(command, result)
    ensures r.recordCommandHistory[|v.recordCommandHistory|] == command
    ensures Consistent(v) ==> Consistent(r)
    ensures r.(commandHistory := v.commandHistory, recordCommandHistory := v.recordCommandHistory) == v
  {
    v.(commandHistory := v.commandHistory + [HistoryEntry(command, result)],
       recordCommandHistory := v.recordCommandHistory + [command])
  }

  /** `update_state` followed by `record_command`, what most tools do with an outcome. */
  function Reported(v: SessionValue, command: string, o: Outcome): (r: SessionValue)
    ensures r.state == o.state
    ensures r.commandHistory == v.commandHistory + [HistoryEntry(command, Single(o))]
    ensures r.recordCommandHistory == v.recordCommandHistory + [command]
    ensures Consistent(v) ==> Consistent(r)
    ensures r.(state := v.state, commandHistory := v.commandHistory, recordCommandHistory := v.recordCommandHistory) == v
  {
    Recorded(v.(state := o.state), command, Single(o))
  }

  /** A history only grows: every later value extends every earlier one. */
  predicate Extends(later: SessionValue, earlier: SessionValue) {
    && |earlier.commandHistory| <= |later.commandHistory|
    && later.commandHistory[..|earlier.commandHistory|] == earlier.commandHistory
    && |earlier.recordCommandHistory| <= |later.recordCommandHistory|
    && later.recordCommandHistory[..|earlier.recordCommandHistory|] == earlier.recordCommandHistory
  }

  lemma ExtendsTransitive(a: SessionValue, b: SessionValue, c: SessionValue)
    requires Extends(b, a) && Extends(c, b)
    ensures Extends(c, a)
  {
    assert c.commandHistory[..|a.commandHistory|] == c.commandHistory[..|b.commandHistory|][..|a.commandHistory|];
    assert c.recordCommandHistory[..|a.recordCommandHistory|]
        == c.recordCommandHistory[..|b.recordCommandHistory|][..|a.recordCommandHistory|];
  }

  /** Recording a sequence of commands appends exactly them, in order. */
  function RecordAll(v: SessionValue, entries: seq<HistoryEntry>): SessionValue {
    if entries == [] then v
    else Recorded(RecordAll(v, entries[..|entries| - 1]), entries[|entries| - 1].command, entries[|entries| - 1].result)
  }

  function CommandNames(entries: seq<HistoryEntry>): (names: seq<string>)
    ensures |names| == |entries|
    ensures forall i | 0 <= i < |entries| :: names[i] == entries[i].command
  {
    if entries == [] then [] else CommandNames(entries[..|entries| - 1]) + [entries[|entries| - 1].command]
  }

  lemma {:induction false} RecordAllAppends(v: SessionValue, entries: seq<HistoryEntry>)
    ensures RecordAll(v, entries).commandHistory == v.commandHistory + entries
  {
    if entries != [] {
      var init, last := entries[..|entries| - 1], entries[|entries| - 1];
      RecordAllAppends(v, init);
      assert RecordAll(v, entries) == Recorded(RecordAll(v, init), last.command, last.result);
      assert entries == init + [last];
    }
  }

  /** The compact history gains exactly the recorded commands' texts. */
  lemma {:induction false} RecordAllNames(v: SessionValue, entries: seq<HistoryEntry>)
    ensures RecordAll(v, entries).recordCommandHistory == v.recordCommandHistory + CommandNames(entries)
  {
    if entries != [] {
      var init, last := entries[..|entries| - 1], entries[|entries| - 1];
      RecordAllNames(v, init);
      assert RecordAll(v, entries) == Recorded(RecordAll(v, init), last.command, last.result);
      assert CommandNames(entries) == CommandNames(init) + [last.command];
    }
  }

  /** Recording only grows the histories and keeps them in step. */
  lemma RecordAllExtends(v: SessionValue, entries: seq<HistoryEntry>)
    ensures Extends(RecordAll(v, entries), v)
    ensures Consistent(v) ==> Consistent(RecordAll(v, entries))
  {
    RecordAllAppends(v, entries);
    RecordAllNames(v, entries);
    var r := RecordAll(v, entries);
    assert r.commandHistory[..|v.commandHistory|] == v.commandHistory;
    assert r.recordCommandHistory[..|v.recordCommandHistory|] == v.recordCommandHistory;
    if Consistent(v) {
      forall i | 0 <= i < |r.commandHistory|
        ensures r.commandHistory[i].command == r.recordCommandHistory[i]
      {
        if i >= |v.commandHistory| {
          assert r.commandHistory[i] == entries[i - |v.commandHistory|];
        }
      }
    }
  }

  class SessionState {
    var binaryPath: Option<string>
    var binaryLoaded: bool
    var entryPoint: Option<string>
    var remoteTarget: Option<string>
    var remoteConnected: bool
    /** Never written by the tools: the controller tracks the pid itself. */
    var pid: Option<int>
    var state: InferiorState
    var commandHistory: seq<HistoryEntry>
    var recordCommandHistory: seq<string>

    function Value(): SessionValue
      reads this
    {
      SessionValue(binaryPath, binaryLoaded, entryPoint, remoteTarget, remoteConnected, pid, state,
                   commandHistory, recordCommandHistory)
    }

    ghost predicate Valid()
      reads this
    {
      Consistent(Value())
    }

    constructor ()
      ensures Value() == Fresh && Valid()
    {
      binaryPath, binaryLoaded, entryPoint := None, false, None;
      remoteTarget, remoteConnected := None, false;
      pid, state := None, Idle;
      commandHistory, recordCommandHistory := [], [];
    }

    /** `record_command`. */
    method RecordCommand(command: string, result: ToolResult)
      requires Valid()
      modifies this
      ensures Valid()
      ensures Value() == Recorded(old(Value()), command, result)
    {
      commandHistory := commandHistory + [HistoryEntry(command, result)];
      recordCommandHistory := recordCommandHistory + [command];
    }

    /** `update_state`. */
    method UpdateState(newState: InferiorState)
      requires Valid()
      modifies this
      ensures Valid()
      ensures Value() == old(Value()).(state := newState)
    {
      state := newState;
    }

    /** `to_dict()`: the command count is the length of the full history, and
        the listed commands are the compact history, which under the session
        invariant names the full history's commands one by one. */
    function ToDict(): (d: Summary)
      reads this
      ensures d.commandCount == |commandHistory| && d.commandHistory == recordCommandHistory
      ensures Valid() ==> d.commandCount == |d.commandHistory|
      ensures Valid() ==> d.commandHistory == CommandNames(commandHistory)
      ensures d.state == state && d.binaryLoaded == binaryLoaded && d.pid == pid
      ensures d.binaryPath == binaryPath && d.entryPoint == entryPoint
      ensures d.remoteTarget == remoteTarget && d.remoteConnected == remoteConnected
    {
      Summary(binaryPath, binaryLoaded, entryPoint, remoteTarget, remoteConnected, pid, state,
              |commandHistory|, recordCommandHistory)
    }
  }
}
