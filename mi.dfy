/**
  Records of the debugger's machine interface (MI) as the MI parsing library
  hands them to the server, and the boundary to the debugger subprocess: the
  events the server causes (a command written, an interrupt signal, a read of
  pending output) and the replies it gets back.

  The subprocess itself is an oracle: the reply to an event is a function of
  the whole history of events up to and including it.
*/
module Mi {

  datatype Option<+T> = None | Some(value: T)

  /** A payload value: a string, a mapping, or a list, nested arbitrarily. */
  datatype Value = Str(s: string) | Dict(fields: map<string, Value>) | List(items: seq<Value>)

  /** The `payload` entry of a record: missing, None, a mapping (result and
      async records), or the text of a stream record. */
  datatype Payload = Absent | Null | Fields(fields: map<string, Value>) | Text(text: string)

  /** One parsed record. `kind` and `message` are what `record.get("type")`
      and `record.get("message")` yield: None when the key is missing or
      holds None. */
  datatype Record = Record(kind: Option<string>, message: Option<string>, payload: Payload)

  predicate IsNotify(r: Record) {
    r.kind == Some("notify")
  }

  predicate IsErrorResult(r: Record) {
    r.kind == Some("result") && r.message == Some("error")
  }

  /** The notification handler calls `.get` on the payload of `stopped` and
      `thread-group-started` notifications; a string payload there would raise.
      The MI library gives notify records a mapping or None, never a string. */
  predicate SafeForHandler(r: Record) {
    r.payload.Text? ==> r.message != Some("stopped") && r.message != Some("thread-group-started")
  }

  predicate Handled(r: Record) {
    IsNotify(r) ==> SafeForHandler(r)
  }

  /** An exception object: its class name and `str(e)`. */
  datatype Exception = Exception(typeName: string, text: string)

  /** A value a Python call either returns or raises. */
  datatype Raise<+T> = Ok(value: T) | Threw(exc: Exception)

  /** What one write or read at the subprocess boundary yields. */
  datatype Reply = Replied(records: seq<Record>) | Failed(exc: Exception)

  predicate WellFormed(reply: Reply) {
    reply.Replied? ==> forall i | 0 <= i < |reply.records| :: Handled(reply.records[i])
  }

  /** Something the server does to the subprocess. */
  datatype Event = Wrote(command: string) | Sigint | Read

  /** The debugger subprocess as an oracle from event histories to replies. */
  type Subprocess = f: seq<Event> -> Reply | forall h :: WellFormed(f(h))
    witness (h: seq<Event>) => Replied([])

  /** The commands written, in order. */
  function Writes(log: seq<Event>): seq<string> {
    if log == [] then []
    else Writes(log[..|log| - 1]) + (if log[|log| - 1].Wrote? then [log[|log| - 1].command] else [])
  }

  /** The number of interrupt signals sent. */
  function Signals(log: seq<Event>): nat {
    if log == [] then 0
    else Signals(log[..|log| - 1]) + (if log[|log| - 1].Sigint? then 1 else 0)
  }

  lemma {:induction false} WritesAppend(a: seq<Event>, b: seq<Event>)
    ensures Writes(a + b) == Writes(a) + Writes(b)
  {
    if b != [] {
      assert (a + b)[..|a + b| - 1] == a + b[..|b| - 1];
      WritesAppend(a, b[..|b| - 1]);
    } else {
      assert a + b == a;
    }
  }

  lemma {:induction false} SignalsAppend(a: seq<Event>, b: seq<Event>)
    ensures Signals(a + b) == Signals(a) + Signals(b)
  {
    if b != [] {
      assert (a + b)[..|a + b| - 1] == a + b[..|b| - 1];
      SignalsAppend(a, b[..|b| - 1]);
    } else {
      assert a + b == a;
    }
  }
}
