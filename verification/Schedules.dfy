/** Particular runs of a connection: a request served with nothing else in progress, and fids attached one after
    the other. */
module Schedules {
  import opened Wrappers
  import opened Bytes
  import opened Fcall
  import opened Messages
  import opened Codec
  import opened Framing
  import opened FidTable
  import opened Connection
  import opened Safety
  import opened Runs
  import opened Progress
  import opened Serializability
  import RoundTrips

  type Handled = Result<FCall, Errno>

  // ---- One request

  lemma {:induction false} EnterHandler(s: State, i: TaskId)
    requires At(s, i, Spawned) && s.writer == None && Lookup(s.table, s.tasks[i].msg.body).Ok?
    ensures Legal(s, [ReadLock(i), LookUp(i)])
    ensures Exec(s, [ReadLock(i), LookUp(i)]) ==
            Put(s, i, s.tasks[i].(phase := InHandler, seen := Some(Lookup(s.table, s.tasks[i].msg.body))))
              .(readers := s.readers + {i})
  {
    hide Lookup, ChangeOf, Sendable;
    TwoSteps(s, ReadLock(i), LookUp(i));
  }

  lemma {:induction false} MakeChange(s: State, i: TaskId)
    requires At(s, i, WantWrite) && s.writer == None && s.readers == {} && ChangeOf(s.tasks[i].msg.body).Some?
    ensures Legal(s, [WriteLock(i), Event.Change(i)])
    ensures var change := ChangeOf(s.tasks[i].msg.body).value;
            Exec(s, [WriteLock(i), Event.Change(i)]) ==
            Put(s, i, s.tasks[i].(phase := Ready))
              .(writer := None, table := Changed(s.table, i, change), log := s.log + [Commit(i, change)])
  {
    hide Lookup, ChangeOf, Sendable, Changed;
    TwoSteps(s, WriteLock(i), Event.Change(i));
  }

  predicate NoReceive(es: seq<Event>) {
    forall k :: 0 <= k < |es| ==> !es[k].Receive?
  }

  /** The handlers that return in a run are those of one request, and return `h`. */
  predicate Returns(es: seq<Event>, i: TaskId, h: Handled) {
    forall k :: 0 <= k < |es| && es[k].Return? ==> es[k] == Return(i, h)
  }

  /** A request served with nothing else in progress: what it sees, what becomes of it and what it does to the
      table are those of processing it on its own. */
  lemma Alone(s: State, i: TaskId, h: Handled) returns (es: seq<Event>)
    requires At(s, i, Spawned) && s.writer == None && s.readers == {}
    ensures Legal(s, es) && NoReceive(es) && Returns(es, i, h)
    ensures var s', done := Exec(s, es), Process(s.table, i, s.tasks[i].msg.body, h);
            && s'.tasks == s.tasks[i := s.tasks[i].(phase := Ready, seen := Some(done.seen), fate := Some(done.fate))]
            && s'.table == done.table && s'.writer == None && s'.readers == {}
            && s'.open == s.open && s'.out == s.out
  {
    hide Apply, Enabled, Legal, Exec, Lookup, ChangeOf, Changed, Sendable;
    var body := s.tasks[i].msg.body;
    if Lookup(s.table, body).Err? {
      es := [ReadLock(i), LookUp(i)];
      FailToEnter(s, i);
    } else {
      var first := [ReadLock(i), LookUp(i)];
      EnterHandler(s, i);
      var s1 := Exec(s, first);
      var second := [Return(i, h)];
      LeaveHandler(s1, i, h);
      var s2 := Exec(s1, second);
      LegalConcat(s, first, second);
      es := first + second;
      assert s2.readers == {};
      if h.Ok? && ChangeOf(body).Some? {
        MakeChange(s2, i);
        var third := [WriteLock(i), Event.Change(i)];
        LegalConcat(s, es, third);
        es := es + third;
      }
    }
  }

  lemma {:induction false} FailToEnter(s: State, i: TaskId)
    requires At(s, i, Spawned) && s.writer == None && s.readers == {} && Lookup(s.table, s.tasks[i].msg.body).Err?
    ensures Legal(s, [ReadLock(i), LookUp(i)])
    ensures var seen := Lookup(s.table, s.tasks[i].msg.body);
            Exec(s, [ReadLock(i), LookUp(i)]) ==
            Put(s, i, s.tasks[i].(phase := Ready, seen := Some(seen), fate := Some(Err(seen.error))))
  {
    hide Lookup, ChangeOf, Sendable;
    TwoSteps(s, ReadLock(i), LookUp(i));
    assert s.readers + {i} - {i} == s.readers;
  }

  lemma LeaveHandler(s: State, i: TaskId, h: Handled)
    requires At(s, i, InHandler)
    ensures Legal(s, [Return(i, h)])
    ensures var next := if h.Ok? && ChangeOf(s.tasks[i].msg.body).Some? then WantWrite else Ready;
            Exec(s, [Return(i, h)])
            == Put(s, i, s.tasks[i].(phase := next, fate := Some(h))).(readers := s.readers - {i})
  {
    hide Lookup, ChangeOf, Sendable;
    OneStep(s, Return(i, h));
  }

  /** A finished request is answered with one write. */
  lemma Answer(s: State, i: TaskId) returns (es: seq<Event>)
    requires At(s, i, Ready) && s.tasks[i].fate.Some? && Sendable(s.tasks[i]) && s.out == None
    ensures Legal(s, es) && NoReceive(es) && forall k :: 0 <= k < |es| ==> !es[k].Return?
    ensures var s' := Exec(s, es);
            && s'.tasks == s.tasks[i := s.tasks[i].(phase := Replied)] && s'.table == s.table && s'.writer == s.writer
            && s'.readers == s.readers && s'.open == s.open && s'.out == None
  {
    hide EncMsg, IsR, ChangeOf, Lookup;
    var n := |Frame(ReplyBytes(s.tasks[i]))|;
    es := [StartReply(i), Write(i, n)];
    var t := s.tasks[i].(phase := Sending(0));
    assert Apply(s, StartReply(i)) == Put(s, i, t).(out := Some(i));
    assert ReplyBytes(t) == ReplyBytes(s.tasks[i]);
    TwoSteps(s, StartReply(i), Write(i, n));
  }

  // ---- Binding fids, one at a time

  /** Everything received is answered. */
  predicate Quiet(s: State) {
    && s.open && s.writer == None && s.readers == {} && s.out == None
    && (forall i :: 0 <= i < |s.tasks| ==> s.tasks[i].phase.Replied?)
  }

  const ATTACHED: FCall := RAttach(QId(0, 0, 0))

  function AttachMsg(fid: u32): Msg {
    Msg(0, TAttach(fid, NOFID, [], [], 0))
  }

  lemma AttachedIsSendable(tag: u16)
    ensures IsR(ATTACHED) && Fits(EncMsg(Msg(tag, ATTACHED)))
  {
    RoundTrips.QIdLength(QId(0, 0, 0));
    assert Fields(ATTACHED) == [QIdVal(QId(0, 0, 0))] && Layout(105) == Some([QIdK]) && MsgType(ATTACHED) == 105;
    RoundTrips.LengthFrom([QIdK], Fields(ATTACHED), 0);
    RoundTrips.WrittenHeader(Msg(tag, ATTACHED));
    hide EncMsg, Layout, Fields, MsgType;
  }

  lemma AttachProcessed(table: Table, id: TaskId, fid: u32)
    ensures Process(table, id, AttachMsg(fid).body, Ok(ATTACHED))
            == Outcome(table[fid := id], Ok([]), Ok(ATTACHED))
  {
    LookupBound(table, []);
  }

  /** Attaching a fid on a quiet connection binds it and leaves the connection quiet. */
  lemma Attach(s: State, fid: u32) returns (es: seq<Event>)
    requires Quiet(s)
    ensures Legal(s, es) && Disciplined(s, es) && Returns(es, |s.tasks|, Ok(ATTACHED))
    ensures var s' := Exec(s, es);
            && Quiet(s') && s'.table == s.table[fid := |s.tasks|]
            && |s'.tasks| == |s.tasks| + 1 && s'.tasks[..|s.tasks|] == s.tasks
            && s'.tasks[|s.tasks|].msg == AttachMsg(fid)
  {
    var n := |s.tasks|;
    var first := [Receive(AttachMsg(fid))];
    OneStep(s, Receive(AttachMsg(fid)));
    DisciplinedOnQuiet(s, AttachMsg(fid));
    var s1 := Exec(s, first);
    assert s1 == s.(tasks := s.tasks + [Task(AttachMsg(fid), Spawned, None, None)]);
    hide Apply, Enabled, Legal, Exec, Disciplined, Process, Sendable;
    var second := Alone(s1, n, Ok(ATTACHED));
    AttachProcessed(s.table, n, fid);
    var s2 := Exec(s1, second);
    SendableAnswer(s2.tasks[n]);
    var third := Answer(s2, n);
    NoReceiveIsDisciplined(s1, second);
    NoReceiveIsDisciplined(s2, third);
    LegalConcat(s, first, second);
    DisciplinedConcat(s, first, second);
    LegalConcat(s, first + second, third);
    DisciplinedConcat(s, first + second, third);
    es := first + second + third;
  }

  lemma SendableAnswer(t: Task)
    requires t.fate == Some(Ok(ATTACHED)) && t.msg.tag == 0
    ensures Sendable(t)
  {
    AttachedIsSendable(0);
    hide EncMsg, IsR;
  }

  lemma {:induction false} NoReceiveIsDisciplined(s: State, es: seq<Event>)
    requires Legal(s, es) && NoReceive(es)
    ensures Disciplined(s, es)
    decreases |es|
  {
    hide Apply, Enabled;
    if es != [] {
      assert forall k :: 0 <= k < |es| - 1 ==> es[1..][k] == es[k + 1];
      NoReceiveIsDisciplined(Apply(s, es[0]), es[1..]);
    }
  }

  lemma {:induction false} DisciplinedConcat(s: State, first: seq<Event>, second: seq<Event>)
    requires Legal(s, first) && Legal(Exec(s, first), second) && Legal(s, first + second)
    requires Disciplined(s, first) && Disciplined(Exec(s, first), second)
    ensures Disciplined(s, first + second)
    decreases |first|
  {
    hide Apply, Enabled, Conflict;
    if first == [] {
      assert first + second == second;
    } else {
      assert (first + second)[1..] == first[1..] + second;
      DisciplinedConcat(Apply(s, first[0]), first[1..], second);
    }
  }

  lemma {:induction false} DisciplinedOnQuiet(s: State, msg: Msg)
    requires Quiet(s)
    ensures Legal(s, [Receive(msg)]) && Disciplined(s, [Receive(msg)])
  {
    hide Conflict;
    OneStep(s, Receive(msg));
    var es := [Receive(msg)];
    assert es[1..] == [] && Disciplined(Apply(s, es[0]), []);
  }

  /** The fids have been attached in order, each is bound, and all attaches are answered. */
  predicate Bound(s: State, fids: seq<u32>) {
    && Quiet(s) && |s.tasks| == |fids|
    && (forall k :: 0 <= k < |fids| ==> s.tasks[k].msg == AttachMsg(fids[k]))
    && (forall fid :: fid in fids ==> fid in s.table && s.table[fid] < |fids|)
  }

  lemma OneMoreBound(s: State, s': State, fids: seq<u32>, fid: u32)
    requires Bound(s, fids) && Quiet(s') && s'.table == s.table[fid := |s.tasks|]
    requires |s'.tasks| == |s.tasks| + 1 && s'.tasks[..|s.tasks|] == s.tasks
    requires s'.tasks[|s.tasks|].msg == AttachMsg(fid)
    ensures Bound(s', fids + [fid])
  {
    hide Quiet;
    forall k | 0 <= k < |fids| ensures s'.tasks[k] == s.tasks[k] {
      assert s'.tasks[k] == s'.tasks[..|fids|][k];
    }
  }

  predicate Attaches(es: seq<Event>, n: nat) {
    forall k :: 0 <= k < |es| && es[k].Return? ==> es[k].id < n && es[k].handled == Ok(ATTACHED)
  }

  /** A disciplined client can have any fids bound, each by an earlier request. */
  lemma BindAll(fids: seq<u32>) returns (es: seq<Event>)
    ensures Legal(Init, es) && Disciplined(Init, es) && Attaches(es, |fids|) && Bound(Exec(Init, es), fids)
    decreases |fids|, 1
  {
    if fids == [] {
      es := [];
    } else {
      var n := |fids| - 1;
      es := BindOneMore(fids[..n], fids[n]);
      assert fids[..n] + [fids[n]] == fids;
    }
  }

  lemma BindOneMore(fids: seq<u32>, fid: u32) returns (es: seq<Event>)
    ensures Legal(Init, es) && Disciplined(Init, es) && Attaches(es, |fids| + 1)
    ensures Bound(Exec(Init, es), fids + [fid])
    decreases |fids| + 1, 0
  {
    hide Apply, Enabled, Legal, Exec, Disciplined;
    var first := BindAll(fids);
    var s := Exec(Init, first);
    var second := Attach(s, fid);
    LegalConcat(Init, first, second);
    DisciplinedConcat(Init, first, second);
    OneMoreBound(s, Exec(s, second), fids, fid);
    es := first + second;
  }
}
