/** What holds after any run of a connection, however the steps of its requests interleave. */
module Runs {
  import opened Wrappers
  import opened Bytes
  import opened Fcall
  import opened Codec
  import opened Framing
  import opened FidTable
  import opened Connection
  import opened Safety
  import RoundTrips

  lemma {:induction false} Reached(es: seq<Event>)
    requires Legal(Init, es)
    ensures Inv(Exec(Init, es))
  {
    InvInit();
    InvRun(Init, es);
  }

  // ---- The table

  /** The last entry of a log about a fid decides what the fid is bound to. */
  lemma {:induction false} LastEntryDecides(log: seq<Commit>, p: nat)
    requires p < |log| && forall q :: p < q < |log| ==> log[q].change.fid != log[p].change.fid
    ensures var c := log[p].change;
            if c.Insert? then c.fid in Fold(log) && Fold(log)[c.fid] == log[p].id else c.fid !in Fold(log)
  {
    if p < |log| - 1 {
      LastEntryDecides(log[..|log| - 1], p);
    }
  }

  lemma {:induction false} BindingsComeFromLog(log: seq<Commit>, fid: u32)
    requires fid in Fold(log)
    ensures exists q :: 0 <= q < |log| && log[q] == Commit(Fold(log)[fid], Insert(fid))
  {
    var n := |log| - 1;
    if log[n].change != Insert(fid) {
      BindingsComeFromLog(log[..n], fid);
      var q :| 0 <= q < n && log[..n][q] == Commit(Fold(log[..n])[fid], Insert(fid));
      assert log[q] == Commit(Fold(log)[fid], Insert(fid));
    } else {
      assert log[n] == Commit(Fold(log)[fid], Insert(fid));
    }
  }

  /** The table is the log of changes applied in order; the log holds one entry for each request that has
      succeeded and changes the table, and no other; and every binding was made by such a request. */
  lemma {:induction false} TableIsCommitLog(es: seq<Event>)
    requires Legal(Init, es)
    ensures var s := Exec(Init, es);
            && s.table == Fold(s.log)
            && (forall q :: 0 <= q < |s.log| ==>
                  HasCommitted(s, s.log[q].id) && ChangeOf(s.tasks[s.log[q].id].msg.body) == Some(s.log[q].change))
            && (forall p, q :: 0 <= p < q < |s.log| ==> s.log[p].id != s.log[q].id)
            && (forall i: nat :: HasCommitted(s, i) ==> exists q :: 0 <= q < |s.log| && s.log[q].id == i)
            && (forall fid :: fid in s.table ==>
                  HasCommitted(s, s.table[fid]) && NewFid(s.tasks[s.table[fid]].msg.body) == Some(fid))
  {
    Reached(es);
    var s := Exec(Init, es);
    forall fid | fid in s.table
      ensures HasCommitted(s, s.table[fid]) && NewFid(s.tasks[s.table[fid]].msg.body) == Some(fid)
    {
      BindingsComeFromLog(s.log, fid);
    }
  }

  /** Once the reply of a successful request is on the wire its change is in the log; unless a later entry
      concerns the same fid, the table shows it. */
  lemma {:induction false} CommitPrecedesReply(es: seq<Event>, i: TaskId)
    requires Legal(Init, es)
    requires var s := Exec(Init, es); i in s.sent && i < |s.tasks| && s.tasks[i].fate.Some? && s.tasks[i].fate.value.Ok?
    requires ChangeOf(Exec(Init, es).tasks[i].msg.body).Some?
    ensures var s := Exec(Init, es); var c := ChangeOf(s.tasks[i].msg.body).value;
            exists p :: 0 <= p < |s.log| && s.log[p] == Commit(i, c) &&
              ((forall q :: p < q < |s.log| ==> s.log[q].change.fid != c.fid) ==>
                if c.Insert? then c.fid in s.table && s.table[c.fid] == i else c.fid !in s.table)
  {
    Reached(es);
    var s := Exec(Init, es);
    assert HasCommitted(s, i);
    var p :| 0 <= p < |s.log| && s.log[p].id == i;
    var c := s.log[p].change;
    if forall q :: p < q < |s.log| ==> s.log[q].change.fid != c.fid {
      LastEntryDecides(s.log, p);
    }
    assert s.log[p] == Commit(i, c);
  }

  // ---- What later requests see

  /** Only its lookup sets what a request has seen, to what the table then says. */
  lemma SeenStep(s: State, e: Event, r: TaskId)
    requires Enabled(s, e) && r < |s.tasks|
    ensures r < |Apply(s, e).tasks| && Apply(s, e).tasks[r].msg == s.tasks[r].msg
    ensures e != LookUp(r) ==> Apply(s, e).tasks[r].seen == s.tasks[r].seen
    ensures e == LookUp(r) ==>
              s.tasks[r].phase.Locked? && Apply(s, e).tasks[r].seen == Some(Lookup(s.table, s.tasks[r].msg.body))
  {
    OthersStay(s, e);
    hide Sendable, Lookup, ChangeOf, Changed, Frame, ReplyBytes;
  }

  lemma {:induction false} SeenStays(s: State, es: seq<Event>, r: TaskId)
    requires Tasks(s) && Legal(s, es) && r < |s.tasks| && s.tasks[r].seen.Some?
    ensures r < |Exec(s, es).tasks| && Exec(s, es).tasks[r].seen == s.tasks[r].seen
    decreases |es|
  {
    if es != [] {
      assert TaskOk(s.tasks[r]);
      SeenStep(s, es[0], r);
      TasksStep(s, es[0]);
      hide Apply, Enabled, Tasks;
      SeenStays(Apply(s, es[0]), es[1..], r);
    }
  }

  lemma {:induction false} LegalPrefix(s: State, es: seq<Event>, k: nat)
    requires Legal(s, es) && k <= |es|
    ensures Legal(s, es[..k])
    decreases k
  {
    hide Apply, Enabled;
    if k > 0 {
      LegalPrefix(Apply(s, es[0]), es[1..], k - 1);
      assert es[..k][1..] == es[1..][..k - 1];
    }
  }

  /** What a request has seen in a run is what the table said when it did its lookup. */
  lemma {:induction false} SeenAtLookUp(s: State, es: seq<Event>, r: TaskId) returns (k: nat)
    requires Tasks(s) && Legal(s, es) && r < |s.tasks| && s.tasks[r].seen == None
    requires r < |Exec(s, es).tasks| && Exec(s, es).tasks[r].seen.Some?
    ensures k < |es| && es[k] == LookUp(r) && Legal(s, es[..k])
    ensures Exec(s, es).tasks[r].seen == Some(Lookup(Exec(s, es[..k]).table, s.tasks[r].msg.body))
    decreases |es|
  {
    hide Apply, Enabled, Tasks, Lookup;
    var e := es[0];
    SeenStep(s, e, r);
    TasksStep(s, e);
    if e == LookUp(r) {
      k := 0;
      SeenStays(Apply(s, e), es[1..], r);
    } else {
      var rest := SeenAtLookUp(Apply(s, e), es[1..], r);
      k := rest + 1;
      LegalPrefix(s, es, k);
      assert es[..k][0] == e && es[..k][1..] == es[1..][..rest];
    }
  }

  /** An answered request stays as it is, and its answer stays sent. */
  lemma {:induction false} AnsweredStays(s: State, es: seq<Event>, i: TaskId)
    requires Legal(s, es) && At(s, i, Replied) && i in s.sent
    ensures At(Exec(s, es), i, Replied) && Exec(s, es).tasks[i] == s.tasks[i] && i in Exec(s, es).sent
    decreases |es|
  {
    if es != [] {
      AnsweredStep(s, es[0], i);
      hide Apply, Enabled;
      AnsweredStays(Apply(s, es[0]), es[1..], i);
    }
  }

  lemma AnsweredStep(s: State, e: Event, i: TaskId)
    requires Enabled(s, e) && At(s, i, Replied) && i in s.sent
    ensures At(Apply(s, e), i, Replied) && Apply(s, e).tasks[i] == s.tasks[i] && i in Apply(s, e).sent
  {
    OthersStay(s, e);
    hide Sendable, Lookup, ChangeOf, Changed, Frame, ReplyBytes;
  }

  /** A request that has looked up `seen` has seen the change `c` of request `i`. */
  predicate SeesChange(body: FCall, seen: Result<seq<TaskId>, Errno>, i: TaskId, c: Change) {
    forall q :: 0 <= q < |Looked(body)| && Looked(body)[q] == c.fid ==>
      if c.Insert? then seen.Ok? ==> q < |seen.value| && seen.value[q] == i else seen == Err(EBADF)
  }

  lemma LookupSees(table: Table, body: FCall, i: TaskId, c: Change)
    requires if c.Insert? then c.fid in table && table[c.fid] == i else c.fid !in table
    ensures SeesChange(body, Lookup(table, body), i, c)
  {
    if Looked(body) != [] {
      OnlyRequestsLookUp(body);
      hide Looked, IsR;
      LookupBound(table, Looked(body));
    }
  }

  lemma OnlyRequestsLookUp(body: FCall)
    requires Looked(body) != []
    ensures !IsR(body)
  {
  }

  /** The log before a lookup has the change `c` of request `i`, and unless a later entry of it concerns the same
      fid, what was looked up shows that change. */
  ghost predicate SawCommit(before: State, body: FCall, seen: Result<seq<TaskId>, Errno>, i: TaskId, c: Change) {
    exists p :: 0 <= p < |before.log| && before.log[p] == Commit(i, c) &&
      ((forall q :: p < q < |before.log| ==> before.log[q].change.fid != c.fid) ==> SeesChange(body, seen, i, c))
  }

  /** A request received after the reply of a successful request sees its change: where it looks up the fid it
      gets the object that was bound, or `EBADF` after a clunk, unless another change to that fid was made after
      that one and before the lookup. */
  lemma {:induction false} LaterRequestsSeeChange(es1: seq<Event>, m: Msg, es2: seq<Event>, i: TaskId)
    requires Legal(Init, es1) && Legal(Init, es1 + [Receive(m)] + es2)
    requires var s := Exec(Init, es1);
             i in s.sent && i < |s.tasks| && s.tasks[i].fate.Some? && s.tasks[i].fate.value.Ok?
    requires ChangeOf(Exec(Init, es1).tasks[i].msg.body).Some?
    ensures var c := ChangeOf(Exec(Init, es1).tasks[i].msg.body).value;
            var s, r, start := Exec(Init, es1 + [Receive(m)] + es2), |Exec(Init, es1).tasks|, es1 + [Receive(m)];
            && r < |s.tasks| && s.tasks[r].msg == m
            && (s.tasks[r].seen.Some? ==>
                  exists k :: 0 <= k < |es2| && es2[k] == LookUp(r) && Legal(Init, start + es2[..k]) &&
                    SawCommit(Exec(Init, start + es2[..k]), m.body, s.tasks[r].seen.value, i, c))
  {
    hide Apply, Enabled, Inv, ChangeOf, SawCommit;
    var s1, r, start := Exec(Init, es1), |Exec(Init, es1).tasks|, es1 + [Receive(m)];
    LegalSplit(Init, start, es2);
    var s2 := Exec(Init, start);
    JustReceived(es1, m);
    TaskStays(s2, es2, r);
    Reached(start);
    InvTasks(s2);
    var s := Exec(s2, es2);
    if s.tasks[r].seen.Some? {
      var k := SeenAtLookUp(s2, es2, r);
      LegalConcat(Init, start, es2[..k]);
      SentBefore(es1, m, es2[..k], i);
      CommitSeen(start + es2[..k], i, m.body);
    }
  }

  lemma InvTasks(s: State)
    requires Inv(s)
    ensures Tasks(s) && SentOk(s)
  {
    hide Locks, Tasks, LogOk, SentOk, WireOk, Snapshots;
  }

  lemma {:induction false} LegalSplit(s: State, first: seq<Event>, second: seq<Event>)
    requires Legal(s, first + second)
    ensures Legal(s, first) && Legal(Exec(s, first), second) && Exec(s, first + second) == Exec(Exec(s, first), second)
    decreases |first|
  {
    hide Apply, Enabled;
    if first == [] {
      assert first + second == second;
    } else {
      assert (first + second)[1..] == first[1..] + second;
      LegalSplit(Apply(s, first[0]), first[1..], second);
    }
  }

  lemma {:induction false} JustReceived(es: seq<Event>, m: Msg)
    requires Legal(Init, es) && Legal(Init, es + [Receive(m)])
    ensures var s := Exec(Init, es);
            Exec(Init, es + [Receive(m)]) == s.(tasks := s.tasks + [Task(m, Spawned, None, None)])
  {
    LegalSplit(Init, es, [Receive(m)]);
    OneStep(Exec(Init, es), Receive(m));
  }

  lemma {:induction false} TaskStays(s: State, es: seq<Event>, r: TaskId)
    requires Legal(s, es) && r < |s.tasks|
    ensures r < |Exec(s, es).tasks| && Exec(s, es).tasks[r].msg == s.tasks[r].msg
    decreases |es|
  {
    if es != [] {
      SeenStep(s, es[0], r);
      hide Apply, Enabled;
      TaskStays(Apply(s, es[0]), es[1..], r);
    }
  }

  lemma {:induction false} SentBefore(es1: seq<Event>, m: Msg, es2: seq<Event>, i: TaskId)
    requires Legal(Init, es1) && Legal(Init, es1 + [Receive(m)] + es2) && i in Exec(Init, es1).sent
    requires i < |Exec(Init, es1).tasks|
    ensures var s, s' := Exec(Init, es1), Exec(Init, es1 + [Receive(m)] + es2);
            i in s'.sent && i < |s'.tasks| && s'.tasks[i] == s.tasks[i]
  {
    hide Apply, Enabled, Inv;
    Reached(es1);
    var s := Exec(Init, es1);
    InvTasks(s);
    hide Tasks;
    assert At(s, i, Replied);
    var more := [Receive(m)] + es2;
    assert es1 + [Receive(m)] + es2 == es1 + more;
    LegalSplit(Init, es1, more);
    AnsweredStays(s, more, i);
  }

  lemma {:induction false} CommitSeen(es: seq<Event>, i: TaskId, body: FCall)
    requires Legal(Init, es)
    requires var s := Exec(Init, es); i in s.sent && i < |s.tasks| && s.tasks[i].fate.Some? && s.tasks[i].fate.value.Ok?
    requires ChangeOf(Exec(Init, es).tasks[i].msg.body).Some?
    ensures var s := Exec(Init, es);
            SawCommit(s, body, Lookup(s.table, body), i, ChangeOf(s.tasks[i].msg.body).value)
  {
    CommitPrecedesReply(es, i);
    hide Legal, Exec, ChangeOf, Lookup, SeesChange;
    var s := Exec(Init, es);
    var c := ChangeOf(s.tasks[i].msg.body).value;
    if (if c.Insert? then c.fid in s.table && s.table[c.fid] == i else c.fid !in s.table) {
      LookupSees(s.table, body, i, c);
    }
  }

  // ---- Handlers

  /** While a task is in its handler nothing changes the table: every fid it looked up stays bound to the
      object it was given. */
  lemma {:induction false} SnapshotSafety(s: State, es: seq<Event>, i: TaskId)
    requires Inv(s) && At(s, i, InHandler) && Legal(s, es)
    requires forall k :: 0 <= k < |es| ==> !(es[k].Return? && es[k].id == i)
    ensures var s' := Exec(s, es);
            && At(s', i, InHandler) && s'.tasks[i] == s.tasks[i] && s'.table == s.table
            && s'.tasks[i].seen == Some(Lookup(s'.table, s'.tasks[i].msg.body))
    decreases |es|
  {
    if es != [] {
      InvStep(s, es[0]);
      HandlerStep(s, es[0], i);
      SnapshotSafety(Apply(s, es[0]), es[1..], i);
    }
  }

  lemma HandlerStep(s: State, e: Event, i: TaskId)
    requires Inv(s) && At(s, i, InHandler) && Enabled(s, e) && !(e.Return? && e.id == i)
    ensures At(Apply(s, e), i, InHandler) && Apply(s, e).tasks[i] == s.tasks[i] && Apply(s, e).table == s.table
  {
    assert TableLock(s);
    hide Inv, Apply, Enabled;
    OthersStay(s, e);
    if !e.Receive? && !e.Close? && e.id == i {
      OnlyReturnLeaves(s, e, i);
    }
    TableStays(s, e, i);
  }

  lemma OnlyReturnLeaves(s: State, e: Event, i: TaskId)
    requires At(s, i, InHandler) && Enabled(s, e) && !e.Receive? && !e.Close? && e.id == i
    ensures e.Return?
  {
    hide Sendable, ChangeOf, Frame, ReplyBytes;
  }

  lemma TableStays(s: State, e: Event, i: TaskId)
    requires TableLock(s) && At(s, i, InHandler) && Enabled(s, e)
    ensures Apply(s, e).table == s.table
  {
    hide Sendable, Lookup, ChangeOf, Changed, Frame, ReplyBytes;
    assert i in s.readers;
  }

  // ---- The wire

  function Replies(s: State): seq<Msg>
    requires SentOk(s)
  {
    seq(|s.sent|, k requires 0 <= k < |s.sent| => Reply(s.tasks[s.sent[k]]))
  }

  /** Without write failures the output is a sequence of whole frames, one for each reply in the order sent,
      and the part of one more that is being written; splitting it by length gives exactly the encodings. */
  lemma {:induction false} WireIntegrity(es: seq<Event>)
    requires Legal(Init, es) && !Exec(Init, es).failed
    ensures var s := Exec(Init, es);
            && SentOk(s)
            && s.wire == Frames(Encodings(Replies(s))) + Deframe(s.wire).1
            && Deframe(s.wire).0 == Encodings(Replies(s))
            && (s.out == None ==> Deframe(s.wire).1 == [])
  {
    Reached(es);
    var s := Exec(Init, es);
    assert Encodings(Replies(s)) == SentBytes(s);
    forall k | 0 <= k < |s.sent| ensures Fits(SentBytes(s)[k]) {
      assert TaskOk(s.tasks[s.sent[k]]);
    }
    UnfinishedIsPartial(s);
    DeframeFrames(SentBytes(s), Unfinished(s));
  }

  lemma UnfinishedIsPartial(s: State)
    requires Locks(s) && Tasks(s)
    ensures FirstFrame(Unfinished(s)) == Ok(None)
    ensures s.out == None ==> Unfinished(s) == []
  {
    if s.out.Some? {
      var t := s.tasks[s.out.value];
      assert TaskOk(t);
      PartialFrame(ReplyBytes(t), t.phase.n);
    }
  }

  /** A client that splits the output into frames and decodes each gets exactly the faithful replies, in the
      order sent. */
  lemma {:induction false} ClientReadsReplies(es: seq<Event>, k: nat)
    requires Legal(Init, es) && !Exec(Init, es).failed && k < |Exec(Init, es).sent|
    ensures var s := Exec(Init, es); SentOk(s) && k < |Deframe(s.wire).0|
    ensures var s := Exec(Init, es);
            DecMsg(Deframe(s.wire).0[k]) == Ok((Replies(s)[k], [])) <==> RoundTrips.Faithful(Replies(s)[k].body)
  {
    WireIntegrity(es);
    var m := Replies(Exec(Init, es))[k];
    RoundTrips.MsgRoundTrip(m, []);
    assert EncMsg(m) + [] == EncMsg(m);
  }

  // ---- Conservation of requests

  datatype Class = InFlight | Answered | Unanswered

  function ClassOf(p: Phase): Class {
    match p
    case Replied => Answered
    case Dropped => Unanswered
    case Lost => Unanswered
    case _ => InFlight
  }

  /** The tags of the requests of a class. */
  function Tags(tasks: seq<Task>, c: Class): multiset<u16> {
    if tasks == [] then multiset{}
    else
      var t := tasks[|tasks| - 1];
      Tags(tasks[..|tasks| - 1], c) + Own(ClassOf(t.phase), c, t.msg.tag)
  }

  function AllTags(msgs: seq<Msg>): multiset<u16> {
    if msgs == [] then multiset{} else AllTags(msgs[..|msgs| - 1]) + multiset{msgs[|msgs| - 1].tag}
  }

  /** Every tag, as often as it occurs. */
  lemma {:induction false} AllTagsCounts(msgs: seq<Msg>)
    ensures AllTags(msgs) == multiset(seq(|msgs|, i requires 0 <= i < |msgs| => msgs[i].tag))
  {
    var tags := seq(|msgs|, i requires 0 <= i < |msgs| => msgs[i].tag);
    if msgs != [] {
      var n := |msgs| - 1;
      AllTagsCounts(msgs[..n]);
      var fewer := seq(|msgs[..n]|, i requires 0 <= i < |msgs[..n]| => msgs[..n][i].tag);
      assert tags == fewer + [msgs[n].tag];
    }
  }

  lemma {:induction false} TagsOfClass(tasks: seq<Task>, c: Class, tag: u16)
    ensures tag in Tags(tasks, c) <==>
            exists i :: 0 <= i < |tasks| && tasks[i].msg.tag == tag && ClassOf(tasks[i].phase) == c
  {
    hide ClassOf;
    if tasks != [] {
      var n := |tasks| - 1;
      TagsOfClass(tasks[..n], c, tag);
      assert tag in Tags(tasks, c) <==>
             tag in Tags(tasks[..n], c) || (tasks[n].msg.tag == tag && ClassOf(tasks[n].phase) == c);
    }
  }

  /** The answered are those that have replied, the unanswered those that have been given up. */
  lemma {:induction false} TagsByPhase(tasks: seq<Task>, tag: u16)
    ensures tag in Tags(tasks, Answered) <==>
            exists i :: 0 <= i < |tasks| && tasks[i].msg.tag == tag && tasks[i].phase.Replied?
    ensures tag in Tags(tasks, Unanswered) <==>
            exists i :: 0 <= i < |tasks| && tasks[i].msg.tag == tag && (tasks[i].phase.Dropped? || tasks[i].phase.Lost?)
    ensures tag in Tags(tasks, InFlight) <==>
            exists i :: 0 <= i < |tasks| && tasks[i].msg.tag == tag && !tasks[i].phase.Replied? &&
              !tasks[i].phase.Dropped? && !tasks[i].phase.Lost?
  {
    TagsOfClass(tasks, Answered, tag);
    TagsOfClass(tasks, Unanswered, tag);
    TagsOfClass(tasks, InFlight, tag);
    hide Tags;
  }

  function MsgsOf(tasks: seq<Task>): seq<Msg> {
    seq(|tasks|, i requires 0 <= i < |tasks| => tasks[i].msg)
  }

  lemma {:induction false} ClassesPartition(tasks: seq<Task>)
    ensures AllTags(MsgsOf(tasks)) == Tags(tasks, InFlight) + Tags(tasks, Answered) + Tags(tasks, Unanswered)
  {
    hide ClassOf;
    if tasks != [] {
      var n := |tasks| - 1;
      var init := tasks[..n];
      ClassesPartition(init);
      assert MsgsOf(tasks)[..n] == MsgsOf(init);
      Shuffle(Tags(init, InFlight), Tags(init, Answered), Tags(init, Unanswered),
              ClassOf(tasks[n].phase), tasks[n].msg.tag);
    }
  }

  function Own(c: Class, d: Class, tag: u16): multiset<u16> {
    if c == d then multiset{tag} else multiset{}
  }

  lemma Shuffle(x: multiset<u16>, y: multiset<u16>, z: multiset<u16>, c: Class, tag: u16)
    ensures x + y + z + multiset{tag}
            == (x + Own(c, InFlight, tag)) + (y + Own(c, Answered, tag)) + (z + Own(c, Unanswered, tag))
  {
    match c
    case InFlight =>
    case Answered =>
    case Unanswered =>
  }

  predicate AllBelow(ids: seq<TaskId>, n: nat) {
    forall k :: 0 <= k < |ids| ==> ids[k] < n
  }

  /** The tags of the tasks listed in `ids`. */
  function TagsOf(tasks: seq<Task>, ids: seq<TaskId>): multiset<u16>
    requires AllBelow(ids, |tasks|)
  {
    if ids == [] then multiset{} else TagsOf(tasks, ids[..|ids| - 1]) + multiset{tasks[ids[|ids| - 1]].msg.tag}
  }

  lemma Swap(x: multiset<u16>, y: multiset<u16>, z: multiset<u16>)
    ensures x + y + z == x + z + y
  {
  }

  lemma {:induction false} OneTaskLess(tasks: seq<Task>, i: TaskId, t: Task, c: Class)
    requires i < |tasks| && t.msg == tasks[i].msg && ClassOf(tasks[i].phase) == c && ClassOf(t.phase) != c
    ensures Tags(tasks, c) == Tags(tasks[i := t], c) + multiset{t.msg.tag}
    decreases |tasks|
  {
    hide ClassOf;
    var n, less := |tasks| - 1, tasks[i := t];
    if i == n {
      assert less[..n] == tasks[..n];
    } else {
      assert less[..n] == tasks[..n][i := t] && less[n] == tasks[n];
      OneTaskLess(tasks[..n], i, t, c);
      Swap(Tags(less[..n], c), multiset{t.msg.tag}, Own(ClassOf(tasks[n].phase), c, tasks[n].msg.tag));
    }
  }

  lemma {:induction false} NoneLeft(tasks: seq<Task>, c: Class)
    requires forall i :: 0 <= i < |tasks| ==> ClassOf(tasks[i].phase) != c
    ensures Tags(tasks, c) == multiset{}
  {
    if tasks != [] {
      NoneLeft(tasks[..|tasks| - 1], c);
    }
  }

  lemma {:induction false} SameTags(a: seq<Task>, b: seq<Task>, ids: seq<TaskId>)
    requires |a| == |b| && forall k :: 0 <= k < |ids| ==> ids[k] < |a| && a[ids[k]].msg == b[ids[k]].msg
    ensures TagsOf(a, ids) == TagsOf(b, ids)
  {
    if ids != [] {
      SameTags(a, b, ids[..|ids| - 1]);
    }
  }

  /** `ids` lists the answered tasks, each once. */
  predicate ListsAnswered(tasks: seq<Task>, ids: seq<TaskId>) {
    && (forall k :: 0 <= k < |ids| ==> ids[k] < |tasks| && tasks[ids[k]].phase.Replied?)
    && (forall j, k :: 0 <= j < k < |ids| ==> ids[j] != ids[k])
    && (forall i :: 0 <= i < |tasks| && tasks[i].phase.Replied? ==> i in ids)
  }

  lemma ListsFewer(tasks: seq<Task>, ids: seq<TaskId>)
    requires ids != [] && ListsAnswered(tasks, ids)
    ensures var n := |ids| - 1; var i := ids[n];
            ListsAnswered(tasks[i := tasks[i].(phase := Dropped)], ids[..n])
  {
    var n := |ids| - 1;
    var i, init := ids[n], ids[..n];
    var rest := tasks[i := tasks[i].(phase := Dropped)];
    forall j | 0 <= j < |rest| && rest[j].phase.Replied? ensures j in init {
      assert j in ids && j != i;
    }
  }

  /** One more answered task: its tag is the one that `ids` lists last. */
  lemma {:induction false} OneMoreAnswered(tasks: seq<Task>, ids: seq<TaskId>, i: TaskId, t: Task)
    requires AllBelow(ids, |tasks|) && AllBelow(ids + [i], |tasks|) && i < |tasks|
    requires t.msg == tasks[i].msg && ClassOf(tasks[i].phase) == Answered && ClassOf(t.phase) != Answered
    requires TagsOf(tasks[i := t], ids) == Tags(tasks[i := t], Answered)
    ensures TagsOf(tasks, ids + [i]) == Tags(tasks, Answered)
  {
    OneTaskLess(tasks, i, t, Answered);
    SameTags(tasks, tasks[i := t], ids);
    assert (ids + [i])[..|ids|] == ids;
    hide Tags, ClassOf;
  }

  lemma {:induction false} AnsweredAreListed(tasks: seq<Task>, ids: seq<TaskId>)
    requires ListsAnswered(tasks, ids)
    ensures AllBelow(ids, |tasks|) && TagsOf(tasks, ids) == Tags(tasks, Answered)
    decreases |ids|
  {
    hide Tags, TagsOf;
    if ids == [] {
      NoAnswers(tasks, ids);
    } else {
      var n := |ids| - 1;
      var i := ids[n];
      var t := tasks[i].(phase := Dropped);
      ListsFewer(tasks, ids);
      AnsweredAreListed(tasks[i := t], ids[..n]);
      assert ids[..n] + [i] == ids;
      OneMoreAnswered(tasks, ids[..n], i, t);
    }
  }

  lemma {:induction false} NoAnswers(tasks: seq<Task>, ids: seq<TaskId>)
    requires ListsAnswered(tasks, ids) && ids == []
    ensures TagsOf(tasks, ids) == Tags(tasks, Answered)
  {
    NoneLeft(tasks, Answered);
  }

  lemma {:induction false} TagsAgree(replies: seq<Msg>, tasks: seq<Task>, ids: seq<TaskId>)
    requires |replies| == |ids| && AllBelow(ids, |tasks|)
    requires forall k :: 0 <= k < |ids| ==> replies[k].tag == tasks[ids[k]].msg.tag
    ensures AllTags(replies) == TagsOf(tasks, ids)
  {
    if ids != [] {
      TagsAgree(replies[..|ids| - 1], tasks, ids[..|ids| - 1]);
    }
  }

  lemma TagsOfReplies(s: State)
    requires SentOk(s)
    ensures AllBelow(s.sent, |s.tasks|) && AllTags(Replies(s)) == TagsOf(s.tasks, s.sent)
  {
    hide AllTags, TagsOf;
    TagsAgree(Replies(s), s.tasks, s.sent);
  }

  /** The tags of the requests received are the tags of the replies sent, of the requests in flight, and of
      those given up; no request is answered twice. */
  lemma {:induction false} Conservation(es: seq<Event>)
    requires Legal(Init, es)
    ensures var s := Exec(Init, es);
            && SentOk(s)
            && AllTags(MsgsOf(s.tasks)) == Tags(s.tasks, InFlight) + AllTags(Replies(s)) + Tags(s.tasks, Unanswered)
            && (forall k :: 0 <= k < |s.sent| ==> Replies(s)[k].tag == s.tasks[s.sent[k]].msg.tag)
            && (forall j, k :: 0 <= j < k < |s.sent| ==> s.sent[j] != s.sent[k])
  {
    Reached(es);
    var s := Exec(Init, es);
    hide Legal, Exec, EncMsg, LogOk, WireOk, Locks, Tasks, Snapshots, Tags, TagsOf, AllTags;
    SentIsAnswered(s);
    ClassesPartition(s.tasks);
    TagsOfReplies(s);
    Rearrange(Tags(s.tasks, InFlight), Tags(s.tasks, Answered), Tags(s.tasks, Unanswered), AllTags(Replies(s)));
  }

  lemma SentIsAnswered(s: State)
    requires SentOk(s)
    ensures AllBelow(s.sent, |s.tasks|) && TagsOf(s.tasks, s.sent) == Tags(s.tasks, Answered)
  {
    AnsweredAreListed(s.tasks, s.sent);
  }

  lemma Rearrange(x: multiset<u16>, y: multiset<u16>, z: multiset<u16>, w: multiset<u16>)
    requires y == w
    ensures x + y + z == x + w + z
  {
  }
}
