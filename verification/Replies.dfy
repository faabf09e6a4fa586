/** What a client reads: the bodies of the replies are what the handlers returned, or the errors that took their
    place. */
module Replies {
  import opened Wrappers
  import opened Bytes
  import opened Fcall
  import opened Codec
  import opened Framing
  import opened FidTable
  import opened Connection
  import opened Safety
  import opened Runs
  import opened Progress
  import RoundTrips

  // ---- What decides the fate of a request

  /** The fate of a request is set once, by the return of its handler or by its failing lookup. */
  lemma FateStep(s: State, e: Event, i: TaskId)
    requires Tasks(s) && Enabled(s, e) && i < |s.tasks|
    ensures i < |Apply(s, e).tasks| && Apply(s, e).tasks[i].msg == s.tasks[i].msg
    ensures s.tasks[i].fate.Some? ==> Apply(s, e).tasks[i].fate == s.tasks[i].fate
    ensures e.Return? && e.id == i ==> s.tasks[i].fate == None && Apply(s, e).tasks[i].fate == Some(e.handled)
    ensures e == LookUp(i) ==>
              var seen := Lookup(s.table, s.tasks[i].msg.body);
              Apply(s, e).tasks[i].fate == if seen.Err? then Some(Err(seen.error)) else None
    ensures e != LookUp(i) && !(e.Return? && e.id == i) ==> Apply(s, e).tasks[i].fate == s.tasks[i].fate
  {
    assert TaskOk(s.tasks[i]);
    OthersStay(s, e);
    hide Tasks, Sendable, Lookup, ChangeOf, Changed, Frame, ReplyBytes;
  }

  lemma {:induction false} FateStays(s: State, es: seq<Event>, i: TaskId)
    requires Tasks(s) && Legal(s, es) && i < |s.tasks| && s.tasks[i].fate.Some?
    ensures i < |Exec(s, es).tasks| && Exec(s, es).tasks[i].fate == s.tasks[i].fate
    decreases |es|
  {
    if es != [] {
      FateStep(s, es[0], i);
      TasksStep(s, es[0]);
      hide Apply, Enabled, Tasks;
      FateStays(Apply(s, es[0]), es[1..], i);
    }
  }

  /** A handler returns to a request that has been received. */
  lemma {:induction false} ReturnedIsFate(s: State, es: seq<Event>, i: TaskId, k: nat)
    requires Tasks(s) && Legal(s, es) && k < |es| && es[k].Return? && es[k].id == i
    ensures i < |Exec(s, es).tasks| && Exec(s, es).tasks[i].fate == Some(es[k].handled)
    decreases |es|
  {
    TasksStep(s, es[0]);
    if k == 0 {
      FateStep(s, es[0], i);
      hide Apply, Enabled, Tasks;
      FateStays(Apply(s, es[0]), es[1..], i);
    } else {
      hide Apply, Enabled, Tasks;
      ReturnedIsFate(Apply(s, es[0]), es[1..], i, k - 1);
    }
  }

  lemma {:induction false} FailedLookupIsFate(s: State, es: seq<Event>, i: TaskId, k: nat)
    requires Tasks(s) && Legal(s, es) && k < |es| && es[k] == LookUp(i)
    ensures Legal(s, es[..k]) && i < |Exec(s, es[..k]).tasks| && i < |Exec(s, es).tasks|
    ensures Exec(s, es[..k]).tasks[i].msg == Exec(s, es).tasks[i].msg
    ensures var seen := Lookup(Exec(s, es[..k]).table, Exec(s, es).tasks[i].msg.body);
            seen.Err? ==> Exec(s, es).tasks[i].fate == Some(Err(seen.error))
    decreases |es|
  {
    TasksStep(s, es[0]);
    if k == 0 {
      FateStep(s, es[0], i);
      hide Apply, Enabled, Tasks, Lookup;
      TaskStays(Apply(s, es[0]), es[1..], i);
      if Lookup(s.table, s.tasks[i].msg.body).Err? {
        FateStays(Apply(s, es[0]), es[1..], i);
      }
    } else {
      hide Apply, Enabled, Tasks, Lookup;
      FailedLookupIsFate(Apply(s, es[0]), es[1..], i, k - 1);
      assert es[..k][0] == es[0] && es[..k][1..] == es[1..][..k - 1];
    }
  }

  /** Why request `i` has come to `fate`: its handler has returned it, or its lookup has failed with it. */
  ghost predicate Cause(s: State, es: seq<Event>, i: TaskId, fate: Result<FCall, Errno>, k: nat)
    requires Legal(s, es)
  {
    k < |es| &&
    (|| es[k] == Return(i, fate)
     || (es[k] == LookUp(i) && Legal(s, es[..k]) && i < |Exec(s, es[..k]).tasks| &&
         var before := Exec(s, es[..k]);
         var seen := Lookup(before.table, before.tasks[i].msg.body);
         seen.Err? && fate == Err(seen.error)))
  }

  lemma {:induction false} FateHasCause(s: State, es: seq<Event>, i: TaskId) returns (k: nat)
    requires Tasks(s) && Legal(s, es) && (i < |s.tasks| ==> s.tasks[i].fate == None)
    requires i < |Exec(s, es).tasks| && Exec(s, es).tasks[i].fate.Some?
    ensures Cause(s, es, i, Exec(s, es).tasks[i].fate.value, k)
    decreases |es|
  {
    var s' := Apply(s, es[0]);
    TasksStep(s, es[0]);
    if i < |s.tasks| {
      FateStep(s, es[0], i);
    }
    OthersStay(s, es[0]);
    hide Apply, Enabled, Tasks, Lookup;
    if i < |s.tasks| && s'.tasks[i].fate.Some? {
      k := 0;
      FateStays(s', es[1..], i);
      assert es[..0] == [];
    } else {
      var rest := FateHasCause(s', es[1..], i);
      k := rest + 1;
      LegalPrefix(s, es, k);
      assert es[..k][0] == es[0] && es[..k][1..] == es[1..][..rest] && es[k] == es[1..][rest];
    }
  }

  // ---- What the client reads

  /** Some bytes are the frame body of a reply with this tag and body: its encoding, which reads back as it when it is
      faithful. */
  predicate Answers(bytes: seq<u8>, tag: u16, body: FCall) {
    bytes == EncMsg(Msg(tag, body)) && (RoundTrips.Faithful(body) ==> DecMsg(bytes) == Ok((Msg(tag, body), [])))
  }

  lemma EncodingAnswers(tag: u16, body: FCall)
    ensures Answers(EncMsg(Msg(tag, body)), tag, body)
  {
    RoundTrips.MsgRoundTrip(Msg(tag, body), []);
    assert EncMsg(Msg(tag, body)) + [] == EncMsg(Msg(tag, body));
    hide EncMsg, DecMsg, RoundTrips.Faithful;
  }

  lemma ErrorsAreFaithful(e: u32)
    ensures RoundTrips.Faithful(RlError(e))
  {
  }

  /** The bytes of the `k`-th reply are those of what its request has come to. */
  lemma {:induction false} ReplyOfFate(es: seq<Event>, k: nat)
    requires Legal(Init, es) && !Exec(Init, es).failed && k < |Exec(Init, es).sent|
    ensures var s := Exec(Init, es);
            k < |Deframe(s.wire).0| && At(s, s.sent[k], Replied) && s.tasks[s.sent[k]].fate.Some?
    ensures var s := Exec(Init, es); var t := s.tasks[s.sent[k]];
            match t.fate.value
            case Ok(r) => IsR(r) && Answers(Deframe(s.wire).0[k], t.msg.tag, r)
            case Err(e) => DecMsg(Deframe(s.wire).0[k]) == Ok((Msg(t.msg.tag, RlError(e)), []))
  {
    WireIntegrity(es);
    Reached(es);
    var s := Exec(Init, es);
    InvTasks(s);
    hide Legal, Exec, Inv, Tasks, EncMsg, DecMsg, RoundTrips.Faithful, Deframe;
    assert Deframe(s.wire).0[k] == EncMsg(Reply(s.tasks[s.sent[k]]));
    SentTask(s, k);
    ReplyIs(s.tasks[s.sent[k]]);
  }

  lemma SentTask(s: State, k: nat)
    requires Tasks(s) && SentOk(s) && k < |s.sent|
    ensures s.sent[k] < |s.tasks| && s.tasks[s.sent[k]].phase.Replied?
    ensures s.tasks[s.sent[k]].fate.Some? && Sendable(s.tasks[s.sent[k]])
  {
    assert TaskOk(s.tasks[s.sent[k]]);
    hide Sendable;
  }

  lemma ReplyIs(t: Task)
    requires t.fate.Some? && Sendable(t)
    ensures match t.fate.value
            case Ok(r) => IsR(r) && Answers(EncMsg(Reply(t)), t.msg.tag, r)
            case Err(e) => DecMsg(EncMsg(Reply(t))) == Ok((Msg(t.msg.tag, RlError(e)), []))
  {
    EncodingAnswers(t.msg.tag, Reply(t).body);
    if t.fate.value.Err? {
      ErrorsAreFaithful(t.fate.value.error);
    }
    hide EncMsg, DecMsg, RoundTrips.Faithful, IsR;
  }

  /** Over every run without write failures the `k`-th reply on the wire, decoded, is: the error that the handler of
      its request returned; or the message it returned, if that can be read; or `EBADF`, if a fid that the request
      looked up was not bound then; or `EOPNOTSUPP`, if it was no request. One of these is the case. */
  lemma {:induction false} RepliesTell(es: seq<Event>, k: nat)
    requires Legal(Init, es) && !Exec(Init, es).failed && k < |Exec(Init, es).sent|
    ensures var s := Exec(Init, es); k < |Deframe(s.wire).0| && s.sent[k] < |s.tasks|
    ensures var s := Exec(Init, es); var i, frame := s.sent[k], Deframe(s.wire).0[k]; var m := s.tasks[i].msg;
            && (forall q, e :: 0 <= q < |es| && es[q] == Return(i, Err(e)) ==>
                  DecMsg(frame) == Ok((Msg(m.tag, RlError(e)), [])))
            && (forall q, r :: 0 <= q < |es| && es[q] == Return(i, Ok(r)) ==>
                  Answers(frame, m.tag, r))
            && (forall q, fid :: 0 <= q < |es| && es[q] == LookUp(i) && fid in Looked(m.body) && !IsR(m.body) ==>
                  && Legal(Init, es[..q])
                  && (fid !in Exec(Init, es[..q]).table ==> DecMsg(frame) == Ok((Msg(m.tag, RlError(9)), []))))
            && (IsR(m.body) ==> DecMsg(frame) == Ok((Msg(m.tag, RlError(95)), [])))
            && exists q :: 0 <= q < |es| && ((es[q].Return? && es[q].id == i) || es[q] == LookUp(i))
  {
    ReplyOfFate(es, k);
    var s := Exec(Init, es);
    var i, frame := s.sent[k], Deframe(s.wire).0[k];
    var m := s.tasks[i].msg;
    hide Deframe, Answers, EncMsg, DecMsg;
    forall q | 0 <= q < |es| && es[q].Return? && es[q].id == i ensures s.tasks[i].fate == Some(es[q].handled) {
      ReturnedIsFate(Init, es, i, q);
    }
    forall q, fid | 0 <= q < |es| && es[q] == LookUp(i) && fid in Looked(m.body) && !IsR(m.body)
      ensures Legal(Init, es[..q])
      ensures fid !in Exec(Init, es[..q]).table ==> s.tasks[i].fate == Some(Err(9))
    {
      FailedLookupIsFate(Init, es, i, q);
      UnboundFails(Exec(Init, es[..q]).table, m.body, fid);
    }
    var q := FateHasCause(Init, es, i);
    RefusedFate(es, i);
  }

  lemma UnboundFails(table: Table, body: FCall, fid: u32)
    requires fid in Looked(body) && !IsR(body)
    ensures fid !in table ==> Lookup(table, body) == Err(9)
  {
    hide Looked, IsR;
    LookupBound(table, Looked(body));
  }

  /** Messages that are no requests are refused in their lookups. */
  predicate Refused(s: State) {
    forall i :: 0 <= i < |s.tasks| && IsR(s.tasks[i].msg.body) && s.tasks[i].seen.Some? ==>
      s.tasks[i].seen.value == Err(95)
  }

  lemma {:induction false} RefusedRun(s: State, es: seq<Event>)
    requires Refused(s) && Legal(s, es)
    ensures Refused(Exec(s, es))
    decreases |es|
  {
    if es != [] {
      RefusedStep(s, es[0]);
      hide Apply, Enabled, Refused;
      RefusedRun(Apply(s, es[0]), es[1..]);
    }
  }

  lemma RefusedStep(s: State, e: Event)
    requires Refused(s) && Enabled(s, e)
    ensures Refused(Apply(s, e))
  {
    OthersStay(s, e);
    hide Apply, Enabled, IsR;
    forall i | 0 <= i < |Apply(s, e).tasks| && IsR(Apply(s, e).tasks[i].msg.body) && Apply(s, e).tasks[i].seen.Some?
      ensures Apply(s, e).tasks[i].seen.value == Err(95)
    {
      if i < |s.tasks| {
        SeenStep(s, e, i);
      }
    }
  }

  lemma {:induction false} RefusedFate(es: seq<Event>, i: TaskId)
    requires Legal(Init, es) && i < |Exec(Init, es).tasks| && Settled(Exec(Init, es).tasks[i].phase)
    ensures var t := Exec(Init, es).tasks[i]; IsR(t.msg.body) ==> t.fate == Some(Err(95))
  {
    RefusedRun(Init, es);
    Reached(es);
    var s := Exec(Init, es);
    InvTasks(s);
    hide IsR, Legal, Exec, Inv, TaskOk;
    SettledIsFinished(s.tasks[i]);
  }

  lemma SettledIsFinished(t: Task)
    requires TaskOk(t) && Settled(t.phase)
    ensures Finished(t)
  {
    hide Sendable;
  }

  /** A request is given up without a reply, other than by a failing writer, exactly when its handler has returned a
      message that is no reply or whose frame is longer than its four bytes can count. */
  lemma {:induction false} GivenUp(es: seq<Event>, i: TaskId)
    requires Legal(Init, es) && i < |Exec(Init, es).tasks| && Over(Exec(Init, es).tasks[i].phase)
    ensures var t := Exec(Init, es).tasks[i];
            t.phase.Dropped? <==>
              && t.fate.Some? && t.fate.value.Ok?
              && var r := t.fate.value.value; (!IsR(r) || |EncMsg(Msg(t.msg.tag, r))| + 4 >= 0x1_0000_0000)
  {
    Reached(es);
    var s := Exec(Init, es);
    InvTasks(s);
    hide Legal, Exec, Inv, TaskOk;
    OverIs(s.tasks[i]);
  }

  lemma OverIs(t: Task)
    requires TaskOk(t) && Over(t.phase)
    ensures t.phase.Dropped? <==>
              && t.fate.Some? && t.fate.value.Ok?
              && var r := t.fate.value.value; (!IsR(r) || |EncMsg(Msg(t.msg.tag, r))| + 4 >= 0x1_0000_0000)
  {
    if t.fate.Some? && t.fate.value.Err? {
      ErrorsAreSendable(t.msg.tag, t.fate.value.error);
    }
    hide EncMsg, IsR, Frame;
  }

  /** Once the client has closed the connection nothing more is received. */
  lemma {:induction false} NothingAfterClose(s: State, es: seq<Event>, k: nat)
    requires Legal(s, es) && k < |es| && es[k].Close?
    ensures forall q :: k < q < |es| ==> !es[q].Receive? && !es[q].Close?
    decreases |es|
  {
    if k == 0 {
      hide Enabled;
      ClosedStays(Apply(s, es[0]), es[1..]);
      assert forall q :: 0 < q < |es| ==> es[q] == es[1..][q - 1];
    } else {
      hide Apply, Enabled;
      NothingAfterClose(Apply(s, es[0]), es[1..], k - 1);
      assert forall q :: 0 < q < |es| ==> es[q] == es[1..][q - 1];
    }
  }

  lemma {:induction false} ClosedStays(s: State, es: seq<Event>)
    requires Legal(s, es) && !s.open
    ensures forall q :: 0 <= q < |es| ==> !es[q].Receive? && !es[q].Close?
    decreases |es|
  {
    if es != [] {
      ClosedStep(s, es[0]);
      hide Apply, Enabled;
      ClosedStays(Apply(s, es[0]), es[1..]);
      assert forall q :: 0 < q < |es| ==> es[q] == es[1..][q - 1];
    }
  }

  lemma ClosedStep(s: State, e: Event)
    requires Enabled(s, e) && !s.open
    ensures !e.Receive? && !e.Close? && !Apply(s, e).open
  {
    hide Sendable, Lookup, ChangeOf, Changed, Frame, ReplyBytes;
  }
}
