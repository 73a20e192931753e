/**
  The command dispatcher: how one reply batch becomes a command outcome.
  Notify records go to the inferior-state machine, in arrival order; every
  other record is kept for the caller, in arrival order; the outcome succeeds
  unless a kept record is an error result. A failed write is turned into a
  fixed failed outcome and an interrupt signal.

  `Ctl` is the abstract value of a controller: its tracker and the history of
  events at the subprocess boundary. `Execute` and `Interrupt` say what
  `GdbController.ExecuteCommand` and `GdbController.Interrupt` do to it.
*/
module Dispatch {
  import opened Mi
  import opened Notify

  /** The records kept for the caller: every non-notify record, in order. */
  function Kept(rs: seq<Record>): (k: seq<Record>)
    ensures |k| <= |rs|
    ensures forall i | 0 <= i < |k| :: !IsNotify(k[i])
    ensures forall i | 0 <= i < |k| :: k[i] in rs
  {
    if rs == [] then []
    else Kept(rs[..|rs| - 1]) + (if IsNotify(rs[|rs| - 1]) then [] else [rs[|rs| - 1]])
  }

  /** The records handed to the state machine: every notify record, in order. */
  function Notifies(rs: seq<Record>): (n: seq<Record>)
    ensures |n| <= |rs|
    ensures forall i | 0 <= i < |n| :: IsNotify(n[i])
    ensures (forall i | 0 <= i < |rs| :: Handled(rs[i])) ==> AllSafe(n)
  {
    if rs == [] then []
    else Notifies(rs[..|rs| - 1]) + (if IsNotify(rs[|rs| - 1]) then [rs[|rs| - 1]] else [])
  }

  /** No record is an error result. */
  predicate Succeeded(rs: seq<Record>) {
    forall i | 0 <= i < |rs| :: !IsErrorResult(rs[i])
  }

  /** The dictionary a controller operation returns: the command, the kept
      records, the success flag, the inferior state, and for a refused
      operation the explanation under `error`. */
  datatype Outcome = Outcome(command: string, responses: seq<Record>, success: bool,
                             state: InferiorState, error: Option<string>)

  /** The abstract value of a controller. */
  datatype Ctl = Ctl(tracker: Tracker, log: seq<Event>)

  const Initial := Ctl(Tracker(Idle, None), [])

  /** `execute_command`: write the command, then classify the reply. */
  function Execute(c: Ctl, sub: Subprocess, command: string): (r: (Ctl, Outcome))
    ensures r.1.command == command && r.1.error.None? && r.1.state == r.0.tracker.state
    ensures r.1.success ==> sub(c.log + [Wrote(command)]).Replied?
  {
    var log := c.log + [Wrote(command)];
    match sub(log)
    case Failed(_) =>
      (Ctl(c.tracker.(state := Stopped), log + [Sigint]), Outcome(command, [], false, Stopped, None))
    case Replied(rs) =>
      var t := Replay(c.tracker, Notifies(rs));
      (Ctl(t, log), Outcome(command, Kept(rs), Succeeded(Kept(rs)), t.state, None))
  }

  /** `interrupt`: signal, then read what is pending. A failed read raises. */
  function Interrupt(c: Ctl, sub: Subprocess): (r: (Ctl, Raise<Outcome>))
    ensures r.1.Threw? ==> r.0.tracker == c.tracker
    ensures r.1.Ok? ==> r.1.value.command == "interrupt" && r.1.value.state == r.0.tracker.state && r.1.value.error.None?
  {
    var log := c.log + [Sigint, Read];
    match sub(log)
    case Failed(e) => (Ctl(c.tracker, log), Threw(e))
    case Replied(rs) =>
      var t := Replay(c.tracker, Notifies(rs));
      (Ctl(t, log), Ok(Outcome("interrupt", Kept(rs), Succeeded(Kept(rs)), t.state, None)))
  }

  lemma {:induction false} KeptAppend(a: seq<Record>, b: seq<Record>)
    ensures Kept(a + b) == Kept(a) + Kept(b)
  {
    if b == [] {
      assert a + b == a;
    } else {
      assert (a + b)[..|a + b| - 1] == a + b[..|b| - 1];
      KeptAppend(a, b[..|b| - 1]);
    }
  }

  lemma {:induction false} NotifiesAppend(a: seq<Record>, b: seq<Record>)
    ensures Notifies(a + b) == Notifies(a) + Notifies(b)
  {
    if b == [] {
      assert a + b == a;
    } else {
      assert (a + b)[..|a + b| - 1] == a + b[..|b| - 1];
      NotifiesAppend(a, b[..|b| - 1]);
    }
  }

  /** Kept and notify records partition the reply: nothing is lost or duplicated. */
  lemma {:induction false} Partition(rs: seq<Record>)
    ensures |Kept(rs)| + |Notifies(rs)| == |rs|
    ensures multiset(Kept(rs)) + multiset(Notifies(rs)) == multiset(rs)
  {
    if rs != [] {
      var rs', last := rs[..|rs| - 1], rs[|rs| - 1];
      Partition(rs');
      assert rs == rs' + [last];
      assert multiset(rs) == multiset(rs') + multiset([last]);
      if IsNotify(last) {
        assert Kept(rs) == Kept(rs') && Notifies(rs) == Notifies(rs') + [last];
      } else {
        assert Kept(rs) == Kept(rs') + [last] && Notifies(rs) == Notifies(rs');
      }
    }
  }

  /** A record is kept exactly when it is not a notification. */
  lemma {:induction false} KeptMembership(rs: seq<Record>, r: Record)
    ensures r in Kept(rs) <==> r in rs && !IsNotify(r)
  {
    if rs != [] {
      var rs' := rs[..|rs| - 1];
      KeptMembership(rs', r);
      assert rs == rs' + [rs[|rs| - 1]];
    }
  }

  /** Notifications never affect success: judging the kept records is judging the whole reply. */
  lemma {:induction false} SuccessIgnoresNotify(rs: seq<Record>)
    ensures Succeeded(Kept(rs)) <==> Succeeded(rs)
  {
    if rs != [] {
      var rs' := rs[..|rs| - 1];
      var last := rs[|rs| - 1];
      SuccessIgnoresNotify(rs');
      assert rs == rs' + [last];
      if Succeeded(rs) {
        assert Succeeded(rs') by {
          forall i | 0 <= i < |rs'| ensures !IsErrorResult(rs'[i]) { assert rs'[i] == rs[i]; }
        }
      }
      if Succeeded(Kept(rs)) {
        assert Succeeded(Kept(rs')) by {
          forall i | 0 <= i < |Kept(rs')| ensures !IsErrorResult(Kept(rs')[i]) {
            assert Kept(rs')[i] == Kept(rs)[i];
          }
        }
        if !IsNotify(last) { assert Kept(rs)[|Kept(rs)| - 1] == last; }
        forall i | 0 <= i < |rs| ensures !IsErrorResult(rs[i]) {
          if i < |rs'| { assert rs[i] == rs'[i]; }
        }
      }
    }
  }

  /** A dispatch writes exactly its one command and echoes it. */
  lemma ExecuteWrites(c: Ctl, sub: Subprocess, command: string)
    ensures Writes(Execute(c, sub, command).0.log) == Writes(c.log) + [command]
    ensures Execute(c, sub, command).1.command == command
  {
    var log := c.log + [Wrote(command)];
    WritesAppend(c.log, [Wrote(command)]);
    WritesAppend(log, [Sigint]);
    assert [Wrote(command)][..0] == [] && [Sigint][..0] == [];
  }

  /** A dispatch whose write fails adds exactly one interrupt signal and
      yields the fixed failed outcome, with state `stopped` and the pid
      untouched. */
  lemma ExecuteFailed(c: Ctl, sub: Subprocess, command: string)
    requires sub(c.log + [Wrote(command)]).Failed?
    ensures var (c', o) := Execute(c, sub, command);
      && Writes(c'.log) == Writes(c.log) + [command]
      && Signals(c'.log) == Signals(c.log) + 1
      && o == Outcome(command, [], false, Stopped, None)
      && c'.tracker == Tracker(Stopped, c.tracker.pid)
  {
    var log := c.log + [Wrote(command)];
    WritesAppend(c.log, [Wrote(command)]);
    SignalsAppend(c.log, [Wrote(command)]);
    WritesAppend(log, [Sigint]);
    SignalsAppend(log, [Sigint]);
    assert [Wrote(command)][..0] == [] && [Sigint][..0] == [];
  }

  /** A dispatch the debugger answers sends no signal, returns the kept
      records, succeeds exactly when no record of the reply is an error
      result, and reports the state the notifications lead to. */
  lemma ExecuteReplied(c: Ctl, sub: Subprocess, command: string, rs: seq<Record>)
    requires sub(c.log + [Wrote(command)]) == Replied(rs)
    ensures var (c', o) := Execute(c, sub, command);
      && Writes(c'.log) == Writes(c.log) + [command]
      && Signals(c'.log) == Signals(c.log)
      && c'.tracker == Replay(c.tracker, Notifies(rs))
      && o.command == command && o.responses == Kept(rs) && o.error.None?
      && (o.success <==> Succeeded(rs))
      && o.state == c'.tracker.state
  {
    WritesAppend(c.log, [Wrote(command)]);
    SignalsAppend(c.log, [Wrote(command)]);
    assert [Wrote(command)][..0] == [];
    SuccessIgnoresNotify(rs);
  }

  /** One call of `interrupt`: exactly one signal, no command written; a read
      that raises leaves the tracker as it was. */
  lemma InterruptEffects(c: Ctl, sub: Subprocess)
    ensures var (c', r) := Interrupt(c, sub);
      && Writes(c'.log) == Writes(c.log)
      && Signals(c'.log) == Signals(c.log) + 1
      && (r.Threw? ==> c'.tracker == c.tracker)
      && (r.Ok? ==> r.value.command == "interrupt" && r.value.state == c'.tracker.state)
  {
    WritesAppend(c.log, [Sigint, Read]);
    SignalsAppend(c.log, [Sigint, Read]);
    assert [Sigint, Read][..1] == [Sigint];
    assert [Sigint][..0] == [];
  }

  /** An answered interrupt classifies the pending records as a dispatch
      does: the kept records in order, the notifications handled in order,
      and `success` exactly when no record of the reply is an error result. */
  lemma InterruptReplied(c: Ctl, sub: Subprocess, rs: seq<Record>)
    requires sub(c.log + [Sigint, Read]) == Replied(rs)
    ensures var (c', r) := Interrupt(c, sub);
      && r.Ok?
      && c'.tracker == Replay(c.tracker, Notifies(rs))
      && r.value.responses == Kept(rs)
      && (r.value.success <==> Succeeded(rs))
      && r.value.error.None?
  {
    SuccessIgnoresNotify(rs);
  }
}
