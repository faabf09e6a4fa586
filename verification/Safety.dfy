/** What every step of a connection keeps, whatever the interleaving, and what follows for whole runs. */
module Safety {
  import opened Wrappers
  import opened Bytes
  import opened Fcall
  import opened Codec
  import opened Framing
  import opened FidTable
  import opened Connection
  import RoundTrips

  // ---- Invariants

  /** A request whose effect on the table, if any, has taken place. */
  predicate Settled(p: Phase) {
    p.Ready? || p.Sending? || p.Replied? || p.Dropped? || p.Lost?
  }

  /** The tasks inside the read lock. */
  predicate Reading(p: Phase) {
    p.Locked? || p.InHandler?
  }

  /** The table lock is held by the tasks whose phase says so; a writer excludes every reader. */
  ghost predicate TableLock(s: State) {
    && (forall i: nat :: i in s.readers <==> i < |s.tasks| && Reading(s.tasks[i].phase))
    && (forall i :: 0 <= i < |s.tasks| ==> (s.tasks[i].phase.Writing? <==> s.writer == Some(i)))
    && (s.writer.Some? ==> s.writer.value < |s.tasks| && s.readers == {})
  }

  /** The writer is held by the task that is sending. */
  predicate WriterLock(s: State) {
    && (forall i :: 0 <= i < |s.tasks| ==> (s.tasks[i].phase.Sending? <==> s.out == Some(i)))
    && (s.out.Some? ==> s.out.value < |s.tasks|)
  }

  ghost predicate Locks(s: State) {
    TableLock(s) && WriterLock(s)
  }

  predicate TaskOk(t: Task) {
    match t.phase
    case Spawned => t.seen == None && t.fate == None
    case Locked => t.seen == None && t.fate == None
    case InHandler => t.seen.Some? && t.seen.value.Ok? && t.fate == None
    case WantWrite => Succeeded(t) && ChangeOf(t.msg.body).Some?
    case Writing => Succeeded(t) && ChangeOf(t.msg.body).Some?
    case Ready => Finished(t)
    case Sending(n) => Finished(t) && Sendable(t) && n < |Frame(ReplyBytes(t))|
    case Replied => Finished(t) && Sendable(t)
    case Dropped => Finished(t) && !Sendable(t)
    case Lost => Finished(t) && Sendable(t)
  }

  predicate Succeeded(t: Task) {
    t.seen.Some? && t.seen.value.Ok? && t.fate.Some? && t.fate.value.Ok?
  }

  predicate Finished(t: Task) {
    t.seen.Some? && t.fate.Some? && (t.seen.value.Err? ==> t.fate.value == Err(t.seen.value.error))
  }

  predicate Tasks(s: State) {
    forall i :: 0 <= i < |s.tasks| ==> TaskOk(s.tasks[i])
  }

  /** What a task in its handler has looked up is what the table still says. */
  predicate Snapshots(s: State) {
    forall i :: 0 <= i < |s.tasks| && s.tasks[i].phase.InHandler? ==>
      s.tasks[i].seen == Some(Lookup(s.table, s.tasks[i].msg.body))
  }

  /** The changes of a log, applied in order to an empty table. */
  function Fold(log: seq<Commit>): Table {
    if log == [] then map[]
    else var c := log[|log| - 1]; Changed(Fold(log[..|log| - 1]), c.id, c.change)
  }

  /** A request that has succeeded and changed the table. */
  predicate HasCommitted(s: State, i: TaskId) {
    && i < |s.tasks| && Settled(s.tasks[i].phase)
    && s.tasks[i].fate.Some? && s.tasks[i].fate.value.Ok? && ChangeOf(s.tasks[i].msg.body).Some?
  }

  ghost predicate LogOk(s: State) {
    && s.table == Fold(s.log)
    && (forall q :: 0 <= q < |s.log| ==>
          HasCommitted(s, s.log[q].id) && ChangeOf(s.tasks[s.log[q].id].msg.body) == Some(s.log[q].change))
    && (forall p, q :: 0 <= p < q < |s.log| ==> s.log[p].id != s.log[q].id)
    && (forall i: nat :: HasCommitted(s, i) ==> exists q :: 0 <= q < |s.log| && s.log[q].id == i)
  }

  predicate SentOk(s: State) {
    && (forall k :: 0 <= k < |s.sent| ==>
          s.sent[k] < |s.tasks| && s.tasks[s.sent[k]].phase.Replied? && s.tasks[s.sent[k]].fate.Some?)
    && (forall j, k :: 0 <= j < k < |s.sent| ==> s.sent[j] != s.sent[k])
    && (forall i :: 0 <= i < |s.tasks| && s.tasks[i].phase.Replied? ==> i in s.sent)
  }

  /** The encodings of the replies sent, in the order sent. */
  function SentBytes(s: State): seq<seq<u8>>
    requires SentOk(s)
  {
    seq(|s.sent|, k requires 0 <= k < |s.sent| => ReplyBytes(s.tasks[s.sent[k]]))
  }

  /** The part that the current sender has written of its frame. */
  function Unfinished(s: State): seq<u8>
    requires Locks(s) && Tasks(s)
  {
    match s.out
    case None => []
    case Some(i) => Frame(ReplyBytes(s.tasks[i]))[..s.tasks[i].phase.n]
  }

  ghost predicate WireOk(s: State)
    requires Locks(s) && Tasks(s) && SentOk(s)
  {
    s.failed || s.wire == Frames(SentBytes(s)) + Unfinished(s)
  }

  ghost predicate Inv(s: State) {
    Locks(s) && Tasks(s) && Snapshots(s) && LogOk(s) && SentOk(s) && WireOk(s)
  }

  // ---- Every step keeps them

  /** The steps that take or release the table lock. */
  predicate MovesTableLock(e: Event) {
    e.ReadLock? || e.LookUp? || e.Return? || e.WriteLock? || e.Change?
  }

  lemma TableLockMoves(s: State, e: Event)
    requires TableLock(s) && Enabled(s, e) && MovesTableLock(e)
    ensures TableLock(Apply(s, e))
  {
    hide EncMsg, Frame, Sendable, Lookup, ChangeOf, Changed;
    match e
    case ReadLock(_) =>
    case LookUp(_) =>
    case Return(_, _) =>
    case WriteLock(_) =>
    case Change(_) =>
  }

  lemma TableLockStays(s: State, e: Event)
    requires TableLock(s) && Enabled(s, e) && !MovesTableLock(e)
    ensures TableLock(Apply(s, e))
  {
    hide EncMsg, Frame, Sendable, Lookup, ChangeOf, Changed;
    match e
    case Receive(_) =>
    case Close =>
    case Drop(_) =>
    case StartReply(_) =>
    case Write(_, _) =>
    case Break(_, _) =>
  }

  lemma WriterLockStep(s: State, e: Event)
    requires WriterLock(s) && Enabled(s, e)
    ensures WriterLock(Apply(s, e))
  {
    hide EncMsg, Frame, Sendable, Lookup, ChangeOf, Changed;
    match e
    case Receive(_) =>
    case Close =>
    case ReadLock(_) =>
    case LookUp(_) =>
    case Return(_, _) =>
    case WriteLock(_) =>
    case Change(_) =>
    case Drop(_) =>
    case StartReply(_) =>
    case Write(_, _) =>
    case Break(_, _) =>
  }

  /** A step moves at most the task it names, and a new task is at the start. */
  lemma OthersStay(s: State, e: Event)
    requires Enabled(s, e)
    ensures var s' := Apply(s, e);
            && |s.tasks| <= |s'.tasks| && (e.Receive? || |s'.tasks| == |s.tasks|)
            && (forall i :: 0 <= i < |s.tasks| && (e.Receive? || e.Close? || i != e.id) ==> s'.tasks[i] == s.tasks[i])
            && (forall i :: |s.tasks| <= i < |s'.tasks| ==>
                  e.Receive? && s'.tasks[i] == Task(e.msg, Spawned, None, None))
            && (e.Receive? || e.Close? || (e.id < |s.tasks| && s'.tasks[e.id].msg == s.tasks[e.id].msg))
  {
    hide EncMsg, Frame, Sendable, Lookup, ChangeOf, Changed;
    match e
    case Receive(_) =>
    case Close =>
    case ReadLock(_) =>
    case LookUp(_) =>
    case Return(_, _) =>
    case WriteLock(_) =>
    case Change(_) =>
    case Drop(_) =>
    case StartReply(_) =>
    case Write(_, _) =>
    case Break(_, _) =>
  }

  lemma TaskStep(s: State, e: Event)
    requires Enabled(s, e) && !e.Receive? && !e.Close? && e.id < |s.tasks| && TaskOk(s.tasks[e.id])
    ensures e.id < |Apply(s, e).tasks| && TaskOk(Apply(s, e).tasks[e.id])
  {
    hide EncMsg, IsR, Frame, Lookup, ChangeOf, Changed;
    match e
    case Receive(_) =>
    case Close =>
    case ReadLock(_) =>
    case LookUp(_) =>
    case Return(_, _) =>
    case WriteLock(_) =>
    case Change(_) =>
    case Drop(_) =>
    case StartReply(_) =>
    case Write(_, _) =>
    case Break(_, _) =>
  }

  lemma TasksStep(s: State, e: Event)
    requires Tasks(s) && Enabled(s, e)
    ensures Tasks(Apply(s, e))
  {
    OthersStay(s, e);
    if !e.Receive? && !e.Close? {
      TaskStep(s, e);
    }
    hide Apply, Enabled;
  }

  lemma SnapshotsStep(s: State, e: Event)
    requires TableLock(s) && Snapshots(s) && Enabled(s, e)
    ensures Snapshots(Apply(s, e))
  {
    OthersStay(s, e);
    hide EncMsg, Frame, Sendable, Lookup, ChangeOf, Changed, IsR;
    if e.Change? {
      assert s.writer == Some(e.id);
      assert forall i :: 0 <= i < |s.tasks| && s.tasks[i].phase.InHandler? ==> i in s.readers;
    } else {
      hide TableLock;
      assert Apply(s, e).table == s.table;
    }
  }

  lemma CommittedStep(s: State, e: Event)
    requires Tasks(s) && Enabled(s, e)
    ensures forall i: nat :: HasCommitted(Apply(s, e), i) <==> HasCommitted(s, i) || e == Change(i)
    ensures e.Change? ==> !HasCommitted(s, e.id)
  {
    OthersStay(s, e);
    hide EncMsg, Frame, Sendable, Lookup, ChangeOf, Changed;
    if !e.Receive? && !e.Close? {
      assert TaskOk(s.tasks[e.id]);
    }
  }

  lemma LogSame(s: State, s': State)
    requires LogOk(s) && s'.log == s.log && s'.table == s.table
    requires |s.tasks| <= |s'.tasks| && forall i :: 0 <= i < |s.tasks| ==> s'.tasks[i].msg == s.tasks[i].msg
    requires forall i: nat :: HasCommitted(s', i) <==> HasCommitted(s, i)
    ensures LogOk(s')
  {
    hide ChangeOf, Changed;
  }

  lemma LogMore(s: State, s': State, c: Commit)
    requires LogOk(s) && s'.log == s.log + [c] && s'.table == Changed(s.table, c.id, c.change)
    requires |s.tasks| <= |s'.tasks| && forall i :: 0 <= i < |s.tasks| ==> s'.tasks[i].msg == s.tasks[i].msg
    requires forall i: nat :: HasCommitted(s', i) <==> HasCommitted(s, i) || i == c.id
    requires !HasCommitted(s, c.id) && c.id < |s.tasks| && ChangeOf(s.tasks[c.id].msg.body) == Some(c.change)
    ensures LogOk(s')
  {
    hide ChangeOf, Changed;
    assert s'.log[..|s'.log| - 1] == s.log && s'.log[|s.log|] == c;
    forall i: nat | HasCommitted(s', i) ensures exists q :: 0 <= q < |s'.log| && s'.log[q].id == i {
      if i != c.id {
        var q :| 0 <= q < |s.log| && s.log[q].id == i;
        assert s'.log[q].id == i;
      }
    }
  }

  lemma LogStep(s: State, e: Event)
    requires Tasks(s) && LogOk(s) && Enabled(s, e)
    ensures LogOk(Apply(s, e))
  {
    CommittedStep(s, e);
    OthersStay(s, e);
    hide LogOk, EncMsg, Frame, Sendable, Lookup, ChangeOf, Changed, HasCommitted, Tasks;
    if e.Change? {
      LogMore(s, Apply(s, e), Commit(e.id, ChangeOf(s.tasks[e.id].msg.body).value));
    } else {
      LogSame(s, Apply(s, e));
    }
  }

  lemma SentSame(s: State, s': State)
    requires SentOk(s) && s'.sent == s.sent && |s.tasks| <= |s'.tasks|
    requires forall i :: 0 <= i < |s.tasks| && s.tasks[i].phase.Replied? ==> s'.tasks[i] == s.tasks[i]
    requires forall i :: 0 <= i < |s'.tasks| && s'.tasks[i].phase.Replied? ==>
               i < |s.tasks| && s.tasks[i].phase.Replied?
    ensures SentOk(s') && SentBytes(s') == SentBytes(s)
  {
    hide EncMsg;
  }

  lemma SentMore(s: State, s': State, i: TaskId)
    requires SentOk(s) && s'.sent == s.sent + [i] && |s.tasks| == |s'.tasks|
    requires i < |s.tasks| && !s.tasks[i].phase.Replied? && s'.tasks[i].phase.Replied? && s'.tasks[i].fate.Some?
    requires forall j :: 0 <= j < |s.tasks| && j != i ==> s'.tasks[j] == s.tasks[j]
    ensures SentOk(s') && SentBytes(s') == SentBytes(s) + [ReplyBytes(s'.tasks[i])]
  {
    hide EncMsg;
  }

  lemma SentStep(s: State, e: Event)
    requires Tasks(s) && SentOk(s) && Enabled(s, e)
    ensures var s' := Apply(s, e);
            && SentOk(s')
            && SentBytes(s') == if s'.sent == s.sent then SentBytes(s)
                                else SentBytes(s) + [ReplyBytes(s.tasks[e.id])]
  {
    var s' := Apply(s, e);
    OthersStay(s, e);
    if s'.sent == s.sent {
      assert e.Receive? || e.Close? || !s'.tasks[e.id].phase.Replied? by {
        hide EncMsg, Frame, Sendable, Lookup, ChangeOf, Changed;
      }
      SentSame(s, s');
    } else {
      SentMore(s, s', e.id);
    }
  }

  lemma UnfinishedOf(s: State, i: TaskId)
    requires Locks(s) && Tasks(s) && s.out == Some(i)
    ensures i < |s.tasks| && s.tasks[i].phase.Sending? && s.tasks[i].fate.Some?
    ensures var frame := Frame(ReplyBytes(s.tasks[i]));
            s.tasks[i].phase.n <= |frame| && Unfinished(s) == frame[..s.tasks[i].phase.n]
  {
    hide TableLock, Sendable, Frame, ReplyBytes;
    assert TaskOk(s.tasks[i]);
  }

  lemma Extended(before: seq<u8>, frame: seq<u8>, k: nat, n: nat)
    requires k + n <= |frame|
    ensures before + frame[..k] + frame[k..k + n] == before + frame[..k + n]
  {
    assert frame[..k] + frame[k..k + n] == frame[..k + n];
  }

  /** A piece of a frame that does not end it. */
  lemma PieceWritten(s: State, s': State, i: TaskId, n: nat)
    requires Locks(s) && Tasks(s) && SentOk(s) && WireOk(s) && !s.failed && s.out == Some(i)
    requires Locks(s') && Tasks(s') && SentOk(s') && s'.out == Some(i) && SentBytes(s') == SentBytes(s)
    requires s.tasks[i].phase.Sending? && s'.tasks[i] == s.tasks[i].(phase := Sending(s.tasks[i].phase.n + n))
    requires var k, frame := s.tasks[i].phase.n, Frame(ReplyBytes(s.tasks[i]));
             k + n <= |frame| && s'.wire == s.wire + frame[k..k + n]
    ensures WireOk(s')
  {
    hide TableLock, WriterLock, Tasks, SentOk, SentBytes, Unfinished, Frames, Frame, ReplyBytes;
    UnfinishedOf(s, i);
    UnfinishedOf(s', i);
    SameReplyBytes(s.tasks[i], s'.tasks[i]);
    Extended(Frames(SentBytes(s)), Frame(ReplyBytes(s.tasks[i])), s.tasks[i].phase.n, n);
  }

  lemma SameReplyBytes(t: Task, u: Task)
    requires t.fate.Some? && u.fate == t.fate && u.msg == t.msg
    ensures ReplyBytes(u) == ReplyBytes(t)
  {
  }

  /** The piece of a frame that ends it. */
  lemma LastPieceWritten(s: State, s': State, i: TaskId)
    requires Locks(s) && Tasks(s) && SentOk(s) && WireOk(s) && !s.failed && s.out == Some(i)
    requires Locks(s') && Tasks(s') && SentOk(s') && s'.out == None && s.tasks[i].phase.Sending?
    requires SentBytes(s') == SentBytes(s) + [ReplyBytes(s.tasks[i])]
    requires var k, frame := s.tasks[i].phase.n, Frame(ReplyBytes(s.tasks[i]));
             k <= |frame| && s'.wire == s.wire + frame[k..]
    ensures WireOk(s')
  {
    assert Unfinished(s') == [];
    hide TableLock, WriterLock, Tasks, SentOk, SentBytes, Unfinished, Frames, Frame, ReplyBytes;
    UnfinishedOf(s, i);
    FramesSnoc(SentBytes(s), ReplyBytes(s.tasks[i]));
    var k, frame := s.tasks[i].phase.n, Frame(ReplyBytes(s.tasks[i]));
    Extended(Frames(SentBytes(s)), frame, k, |frame| - k);
    assert frame[k..k + (|frame| - k)] == frame[k..] && frame[..k + (|frame| - k)] == frame;
  }

  /** What a write step changes. */
  lemma WriteChanges(s: State, e: Event)
    requires Enabled(s, e) && e.Write? && s.out == Some(e.id)
    ensures var s', k, frame := Apply(s, e), s.tasks[e.id].phase.n, Frame(ReplyBytes(s.tasks[e.id]));
            && k + e.n <= |frame| && |s'.tasks| == |s.tasks| && s'.wire == s.wire + frame[k..k + e.n]
            && (k + e.n < |frame| ==>
                  s'.out == s.out && s'.sent == s.sent
                  && s'.tasks[e.id] == s.tasks[e.id].(phase := Sending(k + e.n)))
            && (k + e.n == |frame| ==> s'.out == None && |s'.sent| == |s.sent| + 1)
  {
    hide Sendable, Frame, ReplyBytes;
  }

  lemma WriteStep(s: State, e: Event)
    requires Locks(s) && Tasks(s) && SentOk(s) && WireOk(s) && Enabled(s, e) && e.Write? && !s.failed
    requires var s' := Apply(s, e); Locks(s') && Tasks(s') && SentOk(s')
    requires SentBytes(Apply(s, e)) == if Apply(s, e).sent == s.sent then SentBytes(s)
                                       else SentBytes(s) + [ReplyBytes(s.tasks[e.id])]
    ensures WireOk(Apply(s, e))
  {
    var s', i := Apply(s, e), e.id;
    hide Frame, Sendable, SentBytes, SentOk, Tasks, TableLock, WireOk, Unfinished, Frames, ReplyBytes;
    assert s.out == Some(i);
    WriteChanges(s, e);
    assert s.tasks[i].phase.Sending? && s.tasks[i].fate.Some?;
    hide WriterLock, Apply, Enabled;
    var k, frame := s.tasks[i].phase.n, Frame(ReplyBytes(s.tasks[i]));
    if k + e.n < |frame| {
      PieceWritten(s, s', i, e.n);
    } else {
      assert frame[k..k + e.n] == frame[k..] && |s'.sent| == |s.sent| + 1;
      LastPieceWritten(s, s', i);
    }
  }

  lemma QuietStep(s: State, e: Event)
    requires Locks(s) && Tasks(s) && SentOk(s) && WireOk(s) && Enabled(s, e) && !e.Write? && !s.failed
    requires var s' := Apply(s, e); Locks(s') && Tasks(s') && SentOk(s') && SentBytes(s') == SentBytes(s)
    ensures WireOk(Apply(s, e))
  {
    OthersStay(s, e);
    hide EncMsg, Frame, Sendable, Lookup, ChangeOf, Changed, SentBytes, SentOk, Tasks, TableLock, Unfinished;
    var s' := Apply(s, e);
    if e.Break? {
    } else if e.StartReply? {
      NothingUnfinished(s, s', e.id);
    } else {
      assert s'.out == s.out && s'.wire == s.wire;
      SameUnfinished(s, s');
    }
  }

  lemma SameUnfinished(s: State, s': State)
    requires Locks(s) && Tasks(s) && Locks(s') && Tasks(s') && s'.out == s.out
    requires s.out.Some? ==> s'.tasks[s.out.value] == s.tasks[s.out.value]
    ensures Unfinished(s') == Unfinished(s)
  {
  }

  lemma NothingUnfinished(s: State, s': State, i: TaskId)
    requires Locks(s) && Tasks(s) && Locks(s') && Tasks(s') && s.out == None && s'.out == Some(i)
    requires s'.tasks[i].phase == Sending(0)
    ensures Unfinished(s') == Unfinished(s) == []
  {
  }

  lemma {:induction false} FramesSnoc(bodies: seq<seq<u8>>, body: seq<u8>)
    ensures Frames(bodies + [body]) == Frames(bodies) + Frame(body)
  {
    assert (bodies + [body])[..|bodies|] == bodies;
  }

  lemma InvStep(s: State, e: Event)
    requires Inv(s) && Enabled(s, e)
    ensures Inv(Apply(s, e))
  {
    if MovesTableLock(e) { TableLockMoves(s, e); } else { TableLockStays(s, e); }
    WriterLockStep(s, e);
    TasksStep(s, e);
    SnapshotsStep(s, e);
    LogStep(s, e);
    SentStep(s, e);
    WireStep(s, e);
  }

  lemma WireStep(s: State, e: Event)
    requires Locks(s) && Tasks(s) && SentOk(s) && WireOk(s) && Enabled(s, e)
    requires var s' := Apply(s, e); Locks(s') && Tasks(s') && SentOk(s')
    requires SentBytes(Apply(s, e)) == if Apply(s, e).sent == s.sent then SentBytes(s)
                                       else SentBytes(s) + [ReplyBytes(s.tasks[e.id])]
    ensures WireOk(Apply(s, e))
  {
    hide EncMsg, Frame, Sendable, Lookup, ChangeOf, Changed, SentBytes, SentOk, Tasks, TableLock, WriterLock;
    if s.failed {
    } else if e.Write? {
      WriteStep(s, e);
    } else {
      QuietStep(s, e);
    }
  }

  /** Every state of every run satisfies the invariants. */
  lemma {:induction false} InvRun(s: State, es: seq<Event>)
    requires Inv(s) && Legal(s, es)
    ensures Inv(Exec(s, es))
    decreases |es|
  {
    if es != [] {
      InvStep(s, es[0]);
      InvRun(Apply(s, es[0]), es[1..]);
    }
  }

  lemma InvInit()
    ensures Inv(Init)
  {
  }
}
