/** A connection never gets stuck: some step is possible while a request is unfinished, and every step counts
    down a measure. */
module Progress {
  import opened Wrappers
  import opened Bytes
  import opened Fcall
  import opened Grammar
  import opened Messages
  import opened Codec
  import opened Framing
  import opened FidTable
  import opened Connection
  import opened Safety
  import opened Runs
  import RoundTrips

  predicate Over(p: Phase) {
    p.Replied? || p.Dropped? || p.Lost?
  }

  /** The steps that serve requests; receiving and closing are the client's. */
  predicate Serves(e: Event) {
    !e.Receive? && !e.Close?
  }

  predicate AllOver(s: State) {
    forall i :: 0 <= i < |s.tasks| ==> Over(s.tasks[i].phase)
  }

  // ---- Some step is possible

  /** While a request is unfinished a step that serves one is possible, whatever its handler returns, and
      without the writer failing. */
  lemma NeverStuck(s: State, handler: TaskId -> Result<FCall, Errno>) returns (e: Event)
    requires Inv(s) && !AllOver(s)
    ensures Enabled(s, e) && Serves(e) && !e.Break?
    ensures e.Return? ==> e.handled == handler(e.id)
  {
    hide EncMsg, Frame, Sendable, Lookup, ChangeOf, Changed, LogOk, WireOk, SentOk, Snapshots;
    var i :| 0 <= i < |s.tasks| && !Over(s.tasks[i].phase);
    if s.writer.Some? {
      e := Change(s.writer.value);
      assert TaskOk(s.tasks[e.id]);
    } else if j: nat :| j in s.readers {
      e := if s.tasks[j].phase.Locked? then LookUp(j) else Return(j, handler(j));
    } else {
      e := UnlockedStep(s, i);
    }
  }

  /** With the table lock free, any unfinished request lets some request go on. */
  lemma UnlockedStep(s: State, i: TaskId) returns (e: Event)
    requires Locks(s) && Tasks(s) && s.writer == None && s.readers == {}
    requires i < |s.tasks| && !Over(s.tasks[i].phase)
    ensures Enabled(s, e) && Serves(e) && !e.Break? && !e.Return?
  {
    hide EncMsg, Frame, Sendable, Lookup, ChangeOf, Changed;
    assert i !in s.readers && TaskOk(s.tasks[i]);
    match s.tasks[i].phase
    case Spawned => e := ReadLock(i);
    case WantWrite => e := WriteLock(i);
    case Sending(_) => e := NextWrite(s, i);
    case Ready =>
      if !Sendable(s.tasks[i]) {
        e := Drop(i);
      } else if s.out == None {
        e := StartReply(i);
      } else {
        assert TaskOk(s.tasks[s.out.value]);
        e := NextWrite(s, s.out.value);
      }
  }

  lemma NextWrite(s: State, i: TaskId) returns (e: Event)
    requires i < |s.tasks| && s.tasks[i].phase.Sending? && TaskOk(s.tasks[i])
    ensures Enabled(s, e) && e == Write(i, 1)
  {
    e := Write(i, 1);
  }

  // ---- Every step counts down

  /** Steps still ahead of a request, not counting the pieces of its reply. */
  function Weight(p: Phase): nat {
    match p
    case Spawned => 7
    case Locked => 6
    case InHandler => 5
    case WantWrite => 4
    case Writing => 3
    case Ready => 2
    case Sending(_) => 1
    case _ => 0
  }

  function Ahead(tasks: seq<Task>): nat {
    if tasks == [] then 0 else Ahead(tasks[..|tasks| - 1]) + Weight(tasks[|tasks| - 1].phase)
  }

  /** Bytes of the reply being written that are still to be written. */
  function BytesLeft(s: State): nat
    requires Locks(s) && Tasks(s)
  {
    match s.out
    case None => 0
    case Some(i) => |Frame(ReplyBytes(s.tasks[i]))| - s.tasks[i].phase.n
  }

  lemma {:induction false} AheadUpdate(tasks: seq<Task>, i: nat, t: Task)
    requires i < |tasks|
    ensures Ahead(tasks[i := t]) == Ahead(tasks) - Weight(tasks[i].phase) + Weight(t.phase)
    decreases |tasks|
  {
    var n := |tasks| - 1;
    if i == n {
      assert tasks[i := t][..n] == tasks[..n];
    } else {
      assert tasks[i := t][..n] == tasks[..n][i := t];
      AheadUpdate(tasks[..n], i, t);
    }
  }

  /** The task that moves gets closer to its end, except while pieces of its reply are written. */
  lemma PhaseCountsDown(s: State, e: Event)
    requires Enabled(s, e) && Serves(e) && e.id < |s.tasks|
    ensures var p, p' := s.tasks[e.id].phase, Apply(s, e).tasks[e.id].phase;
            Weight(p') < Weight(p) || (p.Sending? && p'.Sending? && p'.n > p.n)
    ensures e.Write? ==> var t, t' := s.tasks[e.id], Apply(s, e).tasks[e.id]; t' == t.(phase := t'.phase)
    ensures Apply(s, e).tasks[e.id].phase.Sending? && s.tasks[e.id].phase.Sending? ==> e.Write?
  {
    hide EncMsg, Frame, Sendable, Lookup, ChangeOf, Changed;
    match e
    case ReadLock(_) =>
    case LookUp(_) =>
    case Return(_, _) =>
    case WriteLock(_) =>
    case Change(_) =>
    case Drop(_) =>
    case StartReply(_) =>
    case Write(_, _) =>
    case Break(_, _) =>
  }

  lemma FewerBytesLeft(s: State, s': State, i: TaskId)
    requires Locks(s) && Tasks(s) && Locks(s') && Tasks(s') && |s'.tasks| == |s.tasks| && i < |s.tasks|
    requires s.tasks[i].phase.Sending? && s'.tasks[i] == s.tasks[i].(phase := s'.tasks[i].phase)
    requires s'.tasks[i].phase.Sending? && s'.tasks[i].phase.n > s.tasks[i].phase.n
    ensures BytesLeft(s') < BytesLeft(s)
  {
    assert s.out == Some(i) && s'.out == Some(i) && TaskOk(s'.tasks[i]);
  }

  /** Every step that serves a request lowers the steps ahead, or keeps them and lowers the bytes left. */
  lemma StepCountsDown(s: State, e: Event)
    requires Inv(s) && Enabled(s, e) && Serves(e)
    ensures Inv(Apply(s, e))
    ensures var s' := Apply(s, e);
            Ahead(s'.tasks) < Ahead(s.tasks) || (Ahead(s'.tasks) == Ahead(s.tasks) && BytesLeft(s') < BytesLeft(s))
  {
    hide Apply, Enabled, Locks, Tasks, LogOk, SentOk, WireOk, Snapshots, EncMsg, Frame, Weight, BytesLeft;
    InvStep(s, e);
    OthersStay(s, e);
    PhaseCountsDown(s, e);
    Counted(s, Apply(s, e), e.id);
  }

  lemma Counted(s: State, s': State, i: TaskId)
    requires Locks(s) && Tasks(s) && Locks(s') && Tasks(s') && |s'.tasks| == |s.tasks| && i < |s.tasks|
    requires forall j :: 0 <= j < |s.tasks| && j != i ==> s'.tasks[j] == s.tasks[j]
    requires var t, t' := s.tasks[i], s'.tasks[i];
             Weight(t'.phase) < Weight(t.phase)
             || (t.phase.Sending? && t'.phase.Sending? && t'.phase.n > t.phase.n && t' == t.(phase := t'.phase))
    ensures Ahead(s'.tasks) < Ahead(s.tasks) || (Ahead(s'.tasks) == Ahead(s.tasks) && BytesLeft(s') < BytesLeft(s))
  {
    hide Locks, Tasks, BytesLeft;
    assert s'.tasks == s.tasks[i := s'.tasks[i]];
    AheadUpdate(s.tasks, i, s'.tasks[i]);
    if Weight(s'.tasks[i].phase) == Weight(s.tasks[i].phase) {
      FewerBytesLeft(s, s', i);
    }
  }

  predicate AllServe(es: seq<Event>) {
    forall k :: 0 <= k < |es| ==> Serves(es[k]) && !es[k].Break?
  }

  predicate HandledBy(es: seq<Event>, handler: TaskId -> Result<FCall, Errno>) {
    forall k :: 0 <= k < |es| && es[k].Return? ==> es[k].handled == handler(es[k].id)
  }

  /** From every reachable state the requests received can all be brought to an end, whatever their handlers
      return. */
  lemma {:induction false} CanFinish(s: State, handler: TaskId -> Result<FCall, Errno>) returns (es: seq<Event>)
    requires Inv(s)
    ensures Legal(s, es) && AllServe(es) && HandledBy(es, handler) && AllOver(Exec(s, es))
    decreases Ahead(s.tasks), BytesLeft(s)
  {
    hide Apply, Enabled, Locks, Tasks, LogOk, SentOk, WireOk, Snapshots, EncMsg, Frame, BytesLeft;
    if AllOver(s) {
      es := [];
    } else {
      var e := NeverStuck(s, handler);
      StepCountsDown(s, e);
      var rest := CanFinish(Apply(s, e), handler);
      es := [e] + rest;
      assert es[1..] == rest;
    }
  }

  // ---- One reply for each request

  /** Handlers return errors or replies that fit in a frame, and the writer does not fail. */
  predicate Cooperative(s: State, es: seq<Event>)
    requires Legal(s, es)
    decreases |es|
  {
    es != [] ==>
      && !es[0].Break?
      && (es[0].Return? ==> Sendable(s.tasks[es[0].id].(fate := Some(es[0].handled))))
      && Cooperative(Apply(s, es[0]), es[1..])
  }

  /** No request has been given up, and none will have to be. */
  predicate NoneGivenUp(s: State) {
    && (forall i :: 0 <= i < |s.tasks| ==> !s.tasks[i].phase.Dropped? && !s.tasks[i].phase.Lost?)
    && (forall i :: 0 <= i < |s.tasks| && s.tasks[i].fate.Some? ==> Sendable(s.tasks[i]))
  }

  lemma ErrorsAreSendable(tag: u16, ecode: u32)
    ensures IsR(RlError(ecode)) && Fits(EncMsg(Msg(tag, RlError(ecode))))
  {
    assert Fields(RlError(ecode)) == [Int(ecode)] && Layout(7) == Some([U32K]);
    assert [U32K][1..] == [];
    assert Encs([U32K], [Int(ecode)]) == Enc(U32K, Int(ecode)) + Encs([U32K][1..], [Int(ecode)][1..]);
  }

  lemma SameReply(t: Task, u: Task)
    requires t.fate.Some? && t.msg == u.msg && t.fate == u.fate
    ensures Sendable(t) == Sendable(u)
  {
  }

  lemma MovedTaskNotGivenUp(s: State, e: Event)
    requires Enabled(s, e) && Serves(e) && !e.Break? && e.id < |s.tasks| && TaskOk(s.tasks[e.id])
    requires s.tasks[e.id].fate.Some? ==> Sendable(s.tasks[e.id])
    requires e.Return? ==> Sendable(s.tasks[e.id].(fate := Some(e.handled)))
    requires !s.tasks[e.id].phase.Dropped? && !s.tasks[e.id].phase.Lost?
    ensures var t' := Apply(s, e).tasks[e.id];
            !t'.phase.Dropped? && !t'.phase.Lost? && (t'.fate.Some? ==> Sendable(t'))
  {
    hide EncMsg, Frame, Lookup, ChangeOf, Changed;
    var t, t' := s.tasks[e.id], Apply(s, e).tasks[e.id];
    if t'.fate.Some? {
      if e.LookUp? {
        ErrorsAreSendable(t.msg.tag, t'.fate.value.error);
      } else if e.Return? {
        SameReply(t.(fate := Some(e.handled)), t');
      } else {
        SameReply(t, t');
      }
    }
  }

  lemma NoneGivenUpStep(s: State, e: Event)
    requires Tasks(s) && NoneGivenUp(s) && Enabled(s, e) && !e.Break?
    requires e.Return? ==> Sendable(s.tasks[e.id].(fate := Some(e.handled)))
    ensures NoneGivenUp(Apply(s, e))
  {
    hide Apply, Sendable, EncMsg, TaskOk;
    OthersStay(s, e);
    if Serves(e) {
      MovedTaskNotGivenUp(s, e);
    }
  }

  lemma {:induction false} NoneGivenUpRun(s: State, es: seq<Event>)
    requires Tasks(s) && NoneGivenUp(s) && Legal(s, es) && Cooperative(s, es)
    ensures NoneGivenUp(Exec(s, es))
    decreases |es|
  {
    if es != [] {
      TasksStep(s, es[0]);
      NoneGivenUpStep(s, es[0]);
      NoneGivenUpRun(Apply(s, es[0]), es[1..]);
    }
  }

  lemma StuckIsOver(s: State)
    requires Inv(s) && forall e: Event :: Serves(e) ==> !Enabled(s, e)
    ensures AllOver(s)
  {
    if !AllOver(s) {
      var e := NeverStuck(s, (i: TaskId) => Err(0));
    }
  }

  /** With cooperative handlers and writer, a run that cannot go on has answered every request once, and the
      tags of the replies are the tags of the requests. */
  lemma {:induction false} OneReplyForEach(es: seq<Event>)
    requires Legal(Init, es) && Cooperative(Init, es)
    requires forall e: Event :: Serves(e) ==> !Enabled(Exec(Init, es), e)
    ensures var s := Exec(Init, es);
            && SentOk(s)
            && (forall i :: 0 <= i < |s.tasks| ==> s.tasks[i].phase.Replied? && i in s.sent)
            && (forall j, k :: 0 <= j < k < |s.sent| ==> s.sent[j] != s.sent[k])
            && AllTags(Replies(s)) == AllTags(MsgsOf(s.tasks))
  {
    Reached(es);
    NoneGivenUpRun(Init, es);
    StuckIsOver(Exec(Init, es));
    Conservation(es);
    AllAnswered(Exec(Init, es));
  }

  lemma AllAnswered(s: State)
    requires NoneGivenUp(s) && AllOver(s) && SentOk(s)
    requires AllTags(MsgsOf(s.tasks)) == Tags(s.tasks, InFlight) + AllTags(Replies(s)) + Tags(s.tasks, Unanswered)
    ensures forall i :: 0 <= i < |s.tasks| ==> s.tasks[i].phase.Replied? && i in s.sent
    ensures AllTags(Replies(s)) == AllTags(MsgsOf(s.tasks))
  {
    hide EncMsg, Sendable, Tags, AllTags;
    NoneLeft(s.tasks, InFlight);
    NoneLeft(s.tasks, Unanswered);
  }

  // ---- From the bytes in to the bytes out

  /** The tag that an encoded message carries. */
  function TagIn(body: seq<u8>): nat {
    if |body| >= 3 then FromLE(body[1..3]) else 0
  }

  function TagsIn(bodies: seq<seq<u8>>): multiset<nat> {
    if bodies == [] then multiset{} else TagsIn(bodies[..|bodies| - 1]) + multiset{TagIn(bodies[|bodies| - 1])}
  }

  lemma {:induction false} SameTagsIn(bodies: seq<seq<u8>>, msgs: seq<Msg>)
    requires |bodies| == |msgs| && forall k :: 0 <= k < |msgs| ==> TagIn(bodies[k]) == msgs[k].tag
    ensures TagsIn(bodies) == AllTags(msgs) && |AllTags(msgs)| == |msgs|
  {
    hide TagIn;
    if msgs != [] {
      SameTagsIn(bodies[..|msgs| - 1], msgs[..|msgs| - 1]);
    }
  }

  lemma {:induction false} TagsInEncodings(msgs: seq<Msg>)
    ensures TagsIn(Encodings(msgs)) == AllTags(msgs) && |AllTags(msgs)| == |msgs| == |Encodings(msgs)|
  {
    forall k | 0 <= k < |msgs| ensures TagIn(Encodings(msgs)[k]) == msgs[k].tag {
      RoundTrips.WrittenHeader(msgs[k]);
    }
    hide EncMsg, TagIn, TagsIn, AllTags;
    SameTagsIn(Encodings(msgs), msgs);
  }

  lemma {:induction false} NoFailure(s: State, es: seq<Event>)
    requires Legal(s, es) && Cooperative(s, es) && !s.failed
    ensures !Exec(s, es).failed
    decreases |es|
  {
    if es != [] {
      NoFailureStep(s, es[0]);
      hide Apply, Enabled, Sendable;
      NoFailure(Apply(s, es[0]), es[1..]);
    }
  }

  lemma NoFailureStep(s: State, e: Event)
    requires Enabled(s, e) && !e.Break? && !s.failed
    ensures !Apply(s, e).failed
  {
    hide Sendable, Lookup, ChangeOf, Changed, Frame, ReplyBytes;
  }

  /** If the messages received are those that begin the input, handlers and writer are cooperative and nothing is
      left to do, then the output is whole frames that carry, once each, the tags of those messages. */
  lemma {:induction false} InputToOutput(input: seq<u8>, es: seq<Event>)
    requires Legal(Init, es) && Cooperative(Init, es) && MsgsOf(Exec(Init, es).tasks) <= Requests(input)
    requires forall e: Event :: Serves(e) ==> !Enabled(Exec(Init, es), e)
    ensures var s := Exec(Init, es);
            && |s.tasks| <= |Requests(input)| && |Deframe(s.wire).0| == |s.tasks| && Deframe(s.wire).1 == []
            && TagsIn(Deframe(s.wire).0) == AllTags(Requests(input)[..|s.tasks|])
  {
    hide Apply, Enabled, Requests, Deframe, Inv, AllTags, TagsIn, Encodings;
    var s := Exec(Init, es);
    OneReplyForEach(es);
    NoFailure(Init, es);
    WireIntegrity(es);
    Reached(es);
    NobodySends(s);
    TagsInEncodings(Replies(s));
    TagsInEncodings(MsgsOf(s.tasks));
    assert Requests(input)[..|s.tasks|] == MsgsOf(s.tasks);
  }

  lemma NobodySends(s: State)
    requires Inv(s) && forall i :: 0 <= i < |s.tasks| ==> s.tasks[i].phase.Replied?
    ensures s.out == None
  {
    hide TableLock, Tasks, LogOk, SentOk, WireOk, Snapshots;
  }
}
