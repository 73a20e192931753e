/**
  The inferior-state machine: the state of the debugged process as the
  controller reconstructs it from `notify` records, together with the process
  id that a `thread-group-started` notification reports.
*/
module Notify {
  import opened Mi

  datatype InferiorState = Idle | Running | Stopped | Exited

  /** The state's name as the controller reports it in messages. */
  function StateName(s: InferiorState): (name: string)
    ensures name in {"idle", "running", "stopped", "exited"}
  {
    match s
    case Idle => "idle"
    case Running => "running"
    case Stopped => "stopped"
    case Exited => "exited"
  }

  lemma StateNameInjective(a: InferiorState, b: InferiorState)
    ensures StateName(a) == StateName(b) ==> a == b
  {
  }

  /** What the controller tracks: the inferior state and the inferior pid. */
  datatype Tracker = Tracker(state: InferiorState, pid: Option<Value>)

  /** `payload or {}`: a missing or None payload reads as the empty mapping. */
  function PayloadFields(p: Payload): map<string, Value>
    requires !p.Text?
  {
    match p
    case Fields(m) => m
    case _ => map[]
  }

  /** The pid a `thread-group-started` notification carries: `payload.get("pid")`. */
  function StartedPid(p: Payload): (pid: Option<Value>)
    requires !p.Text?
    ensures pid.Some? <==> p.Fields? && "pid" in p.fields
    ensures pid.Some? ==> pid.value == p.fields["pid"]
  {
    var fields := PayloadFields(p);
    if "pid" in fields then Some(fields["pid"]) else None
  }

  /** The effect of one notification on the tracker. The stop reason the
      source extracts from a `stopped` payload is only logged. */
  function NotifyEffect(t: Tracker, r: Record): (t': Tracker)
    requires SafeForHandler(r)
    ensures t'.pid != t.pid ==> r.message == Some("thread-group-started")
    ensures t'.state != t.state ==> r.message in {Some("running"), Some("stopped"), Some("thread-group-exited")}
  {
    if r.message == Some("running") then t.(state := Running)
    else if r.message == Some("stopped") then t.(state := Stopped)
    else if r.message == Some("thread-group-exited") then t.(state := Exited)
    else if r.message == Some("thread-group-started") then t.(pid := StartedPid(r.payload))
    else t
  }

  predicate AllSafe(ns: seq<Record>) {
    forall i | 0 <= i < |ns| :: SafeForHandler(ns[i])
  }

  /** The tracker after the notifications `ns`, handled in order. */
  function Replay(t: Tracker, ns: seq<Record>): (t': Tracker)
    requires AllSafe(ns)
    ensures (forall i | 0 <= i < |ns| :: ns[i].message != Some("thread-group-started")) ==> t'.pid == t.pid
  {
    if ns == [] then t
    else NotifyEffect(Replay(t, ns[..|ns| - 1]), ns[|ns| - 1])
  }

  /** The state a message moves the inferior to, if it moves it at all. */
  function Target(r: Record): Option<InferiorState> {
    if r.message == Some("running") then Some(Running)
    else if r.message == Some("stopped") then Some(Stopped)
    else if r.message == Some("thread-group-exited") then Some(Exited)
    else None
  }

  /** Reference definition: the target of the last state-moving message. */
  function LastTransition(ns: seq<Record>): Option<InferiorState> {
    if ns == [] then None
    else if Target(ns[|ns| - 1]).Some? then Target(ns[|ns| - 1])
    else LastTransition(ns[..|ns| - 1])
  }

  /** One notification: `running`, `stopped` and `thread-group-exited` set the
      state whatever it was and keep the pid; `thread-group-started` keeps the
      state and replaces the pid; every other message, an absent one included,
      changes nothing. */
  lemma NotifyTransitions(t: Tracker, r: Record)
    requires SafeForHandler(r)
    ensures Target(r).Some? ==> NotifyEffect(t, r) == Tracker(Target(r).value, t.pid)
    ensures r.message == Some("thread-group-started") ==>
      NotifyEffect(t, r) == Tracker(t.state, StartedPid(r.payload))
    ensures Target(r).None? && r.message != Some("thread-group-started") ==> NotifyEffect(t, r) == t
  {
  }

  lemma {:induction false} AllSafeSplit(a: seq<Record>, b: seq<Record>)
    ensures AllSafe(a + b) <==> AllSafe(a) && AllSafe(b)
  {
    if AllSafe(a) && AllSafe(b) {
      forall i | 0 <= i < |a + b| ensures SafeForHandler((a + b)[i]) {
        if i < |a| { assert (a + b)[i] == a[i]; } else { assert (a + b)[i] == b[i - |a|]; }
      }
    }
    if AllSafe(a + b) {
      forall i | 0 <= i < |a| ensures SafeForHandler(a[i]) { assert a[i] == (a + b)[i]; }
      forall i | 0 <= i < |b| ensures SafeForHandler(b[i]) { assert b[i] == (a + b)[|a| + i]; }
    }
  }

  /** Handling `a + b` is handling `a`, then `b`. */
  lemma {:induction false} ReplayAppend(t: Tracker, a: seq<Record>, b: seq<Record>)
    requires AllSafe(a) && AllSafe(b)
    ensures AllSafe(a + b)
    ensures Replay(t, a + b) == Replay(Replay(t, a), b)
  {
    AllSafeSplit(a, b);
    if b == [] {
      assert a + b == a;
    } else {
      var b' := b[..|b| - 1];
      assert (a + b)[..|a + b| - 1] == a + b';
      assert (a + b)[|a + b| - 1] == b[|b| - 1];
      AllSafeSplit(b', [b[|b| - 1]]);
      assert b' + [b[|b| - 1]] == b;
      ReplayAppend(t, a, b');
    }
  }

  /** The state after a batch of notifications is the target of the last
      state-moving one, or the prior state when there is none: only the
      messages drive the state, never the pid or the order of the others. */
  lemma {:induction false} ReplayState(t: Tracker, ns: seq<Record>)
    requires AllSafe(ns)
    ensures Replay(t, ns).state == if LastTransition(ns).Some? then LastTransition(ns).value else t.state
  {
    if ns != [] {
      var ns' := ns[..|ns| - 1];
      assert AllSafe(ns');
      ReplayState(t, ns');
    }
  }

  /** A `thread-group-exited` notification lands in `exited` whatever came before it. */
  lemma ExitedIsFinal(t: Tracker, ns: seq<Record>, last: Record)
    requires AllSafe(ns) && SafeForHandler(last)
    requires last.message == Some("thread-group-exited")
    ensures AllSafe(ns + [last])
    ensures Replay(t, ns + [last]).state == Exited
  {
    AllSafeSplit(ns, [last]);
    assert (ns + [last])[..|ns + [last]| - 1] == ns;
  }

  /** A `running` notification followed by a `stopped` one lands in `stopped`,
      whatever the stop reason in its payload. */
  lemma RunningThenStopped(t: Tracker, running: Record, stopped: Record)
    requires running.message == Some("running") && stopped.message == Some("stopped")
    requires SafeForHandler(stopped)
    ensures AllSafe([running, stopped])
    ensures Replay(t, [running, stopped]) == Tracker(Stopped, t.pid)
  {
    assert [running, stopped][..1] == [running];
    assert [running][..0] == [];
    assert Replay(t, [running]) == Tracker(Running, t.pid);
  }

  /** The pid never influences the state. */
  lemma {:induction false} StateIgnoresPid(s: InferiorState, p: Option<Value>, q: Option<Value>, ns: seq<Record>)
    requires AllSafe(ns)
    ensures Replay(Tracker(s, p), ns).state == Replay(Tracker(s, q), ns).state
  {
    ReplayState(Tracker(s, p), ns);
    ReplayState(Tracker(s, q), ns);
  }
}
