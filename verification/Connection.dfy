/** A connection as a state machine: one task per request, a table of fids behind a readers-writer lock, and a
    writer behind a mutex. */
module Connection {
  import opened Wrappers
  import opened Bytes
  import opened Fcall
  import opened Codec
  import opened Framing
  import opened FidTable

  datatype Phase =
    | Spawned         // not started
    | Locked          // holds the read lock, has looked nothing up
    | InHandler       // holds the read lock, waits for its handler
    | WantWrite       // succeeded, and has a change to make to the table
    | Writing         // holds the write lock
    | Ready           // has a result
    | Sending(n: nat) // holds the writer, `n` bytes of its frame written
    | Replied
    | Dropped         // its result is not a reply, or does not fit in a frame
    | Lost            // the writer failed

  datatype Task = Task(
    msg: Msg,
    phase: Phase,
    seen: Option<Result<seq<TaskId>, Errno>>,
    fate: Option<Result<FCall, Errno>>)

  datatype Commit = Commit(id: TaskId, change: Change)

  /** `log` lists the changes made to the table, and `sent` the tasks that have replied, both in order;
      `failed` is set once a write has failed. */
  datatype State = State(
    tasks: seq<Task>,
    open: bool,
    readers: set<TaskId>,
    writer: Option<TaskId>,
    table: Table,
    log: seq<Commit>,
    out: Option<TaskId>,
    wire: seq<u8>,
    sent: seq<TaskId>,
    failed: bool)

  const Init := State([], true, {}, None, map[], [], None, [], [], false)

  datatype Event =
    | Receive(msg: Msg)
    | Close
    | ReadLock(id: TaskId)
    | LookUp(id: TaskId)
    | Return(id: TaskId, handled: Result<FCall, Errno>)
    | WriteLock(id: TaskId)
    | Change(id: TaskId)
    | Drop(id: TaskId)
    | StartReply(id: TaskId)
    | Write(id: TaskId, n: nat)
    | Break(id: TaskId, junk: seq<u8>)

  /** The reply to a finished request: the handler's message, or the error. */
  function Reply(t: Task): Msg
    requires t.fate.Some?
  {
    Msg(t.msg.tag, match t.fate.value case Ok(r) => r case Err(e) => RlError(e))
  }

  function ReplyBytes(t: Task): seq<u8>
    requires t.fate.Some?
  {
    EncMsg(Reply(t))
  }

  predicate At(s: State, id: TaskId, p: Phase) {
    id < |s.tasks| && s.tasks[id].phase == p
  }

  predicate Sendable(t: Task)
    requires t.fate.Some?
  {
    IsR(Reply(t).body) && Fits(ReplyBytes(t))
  }

  predicate Enabled(s: State, e: Event) {
    match e
    case Receive(_) => s.open
    case Close => s.open
    case ReadLock(i) => At(s, i, Spawned) && s.writer == None
    case LookUp(i) => At(s, i, Locked)
    case Return(i, _) => At(s, i, InHandler)
    case WriteLock(i) => At(s, i, WantWrite) && s.writer == None && s.readers == {}
    case Change(i) => At(s, i, Writing) && ChangeOf(s.tasks[i].msg.body).Some?
    case Drop(i) => At(s, i, Ready) && s.tasks[i].fate.Some? && !Sendable(s.tasks[i])
    case StartReply(i) => At(s, i, Ready) && s.tasks[i].fate.Some? && Sendable(s.tasks[i]) && s.out == None
    case Write(i, n) =>
      && i < |s.tasks| && s.tasks[i].phase.Sending? && s.tasks[i].fate.Some?
      && 0 < n <= |Frame(ReplyBytes(s.tasks[i]))| - s.tasks[i].phase.n
    case Break(i, _) => i < |s.tasks| && s.tasks[i].phase.Sending?
  }

  function Put(s: State, i: TaskId, t: Task): State
    requires i < |s.tasks|
  {
    s.(tasks := s.tasks[i := t])
  }

  function Apply(s: State, e: Event): State
    requires Enabled(s, e)
  {
    match e
    case Receive(msg) => s.(tasks := s.tasks + [Task(msg, Spawned, None, None)])
    case Close => s.(open := false)
    case ReadLock(i) => Put(s, i, s.tasks[i].(phase := Locked)).(readers := s.readers + {i})
    case LookUp(i) =>
      var seen := Lookup(s.table, s.tasks[i].msg.body);
      if seen.Ok? then Put(s, i, s.tasks[i].(phase := InHandler, seen := Some(seen)))
      else
        Put(s, i, s.tasks[i].(phase := Ready, seen := Some(seen), fate := Some(Err(seen.error))))
          .(readers := s.readers - {i})
    case Return(i, handled) =>
      var next := if handled.Ok? && ChangeOf(s.tasks[i].msg.body).Some? then WantWrite else Ready;
      Put(s, i, s.tasks[i].(phase := next, fate := Some(handled))).(readers := s.readers - {i})
    case WriteLock(i) => Put(s, i, s.tasks[i].(phase := Writing)).(writer := Some(i))
    case Change(i) =>
      var change := ChangeOf(s.tasks[i].msg.body).value;
      Put(s, i, s.tasks[i].(phase := Ready))
        .(writer := None, table := Changed(s.table, i, change), log := s.log + [Commit(i, change)])
    case Drop(i) => Put(s, i, s.tasks[i].(phase := Dropped))
    case StartReply(i) => Put(s, i, s.tasks[i].(phase := Sending(0))).(out := Some(i))
    case Write(i, n) =>
      var k, frame := s.tasks[i].phase.n, Frame(ReplyBytes(s.tasks[i]));
      if k + n < |frame| then
        Put(s, i, s.tasks[i].(phase := Sending(k + n))).(wire := s.wire + frame[k..k + n])
      else
        Put(s, i, s.tasks[i].(phase := Replied))
          .(wire := s.wire + frame[k..k + n], out := None, sent := s.sent + [i])
    case Break(i, junk) =>
      Put(s, i, s.tasks[i].(phase := Lost)).(wire := s.wire + junk, out := None, failed := true)
  }

  // ---- Runs

  predicate Legal(s: State, es: seq<Event>)
    decreases |es|
  {
    es == [] || (Enabled(s, es[0]) && Legal(Apply(s, es[0]), es[1..]))
  }

  function Exec(s: State, es: seq<Event>): State
    requires Legal(s, es)
    decreases |es|
  {
    if es == [] then s else Exec(Apply(s, es[0]), es[1..])
  }

  lemma {:induction false} LegalConcat(s: State, first: seq<Event>, second: seq<Event>)
    requires Legal(s, first) && Legal(Exec(s, first), second)
    ensures Legal(s, first + second) && Exec(s, first + second) == Exec(Exec(s, first), second)
    decreases |first|
  {
    hide Apply, Enabled;
    if first == [] {
      assert first + second == second;
    } else {
      LegalConcat(Apply(s, first[0]), first[1..], second);
      assert (first + second)[1..] == first[1..] + second;
    }
  }

  lemma {:induction false} TwoSteps(s: State, e: Event, f: Event)
    requires Enabled(s, e) && Enabled(Apply(s, e), f)
    ensures Legal(s, [e, f]) && Exec(s, [e, f]) == Apply(Apply(s, e), f)
  {
    hide Apply, Enabled;
    var s1 := Apply(s, e);
    var es := [e, f];
    assert es[0] == e && es[1..] == [f] && [f][0] == f && [f][1..] == [];
    assert Legal(Apply(s1, f), []) && Legal(s1, [f]);
    assert Exec(s1, [f]) == Exec(Apply(s1, f), []);
    assert Exec(s, es) == Exec(s1, [f]);
  }

  lemma {:induction false} OneStep(s: State, e: Event)
    requires Enabled(s, e)
    ensures Legal(s, [e]) && Exec(s, [e]) == Apply(s, e)
  {
    hide Apply, Enabled;
    var es := [e];
    assert es[0] == e && es[1..] == [];
    assert Legal(Apply(s, e), []) && Exec(s, es) == Exec(Apply(s, e), []);
  }
}
