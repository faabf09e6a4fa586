/** Requests that conflict: the client that keeps them apart is served as if in arrival order, and no other. */
module Conflicts {
  import opened Wrappers
  import opened Bytes
  import opened Fcall
  import opened FidTable
  import opened Connection
  import opened Safety
  import opened Runs
  import opened Progress
  import opened Serializability
  import opened Schedules

  // ---- Two requests in either order

  /** Serving `b` straight before `a` changes nothing that serving `a` straight before `b` does: not the table,
      not what either has looked up, not what either becomes. */
  predicate EitherOrder(table: Table, a: FCall, i: TaskId, ha: Handled, b: FCall, j: TaskId, hb: Handled) {
    var a1 := Process(table, i, a, ha);
    var b2 := Process(a1.table, j, b, hb);
    var b1 := Process(table, j, b, hb);
    var a2 := Process(b1.table, i, a, ha);
    b2.table == a2.table && a1.seen == a2.seen && a1.fate == a2.fate && b1.seen == b2.seen && b1.fate == b2.fate
  }

  lemma LookupUndisturbed(table: Table, id: TaskId, change: Change, body: FCall)
    requires change.fid !in Looked(body)
    ensures Lookup(Changed(table, id, change), body) == Lookup(table, body)
  {
    SameLookups(Changed(table, id, change), table, Looked(body));
  }

  lemma ChangesCommute(table: Table, i: TaskId, c: Change, j: TaskId, d: Change)
    requires c.fid != d.fid
    ensures Changed(Changed(table, i, c), j, d) == Changed(Changed(table, j, d), i, c)
  {
  }

  /** A request does not disturb the lookups of one that does not look up what it changes. */
  lemma LookupAfter(table: Table, id: TaskId, a: FCall, h: Handled, body: FCall)
    requires ChangeOf(a).Some? ==> ChangeOf(a).value.fid !in Looked(body)
    ensures Lookup(Process(table, id, a, h).table, body) == Lookup(table, body)
  {
    if ChangeOf(a).Some? {
      LookupUndisturbed(table, id, ChangeOf(a).value, body);
    }
    hide Lookup, ChangeOf, Looked, Changed;
  }

  lemma ProcessChanges(table: Table, id: TaskId, body: FCall, h: Handled)
    ensures Process(table, id, body, h).table ==
              if Lookup(table, body).Ok? && h.Ok? && ChangeOf(body).Some? then Changed(table, id, ChangeOf(body).value)
              else table
  {
    hide Lookup, ChangeOf, Changed;
  }

  lemma NoConflictCommutes(table: Table, a: FCall, i: TaskId, ha: Handled, b: FCall, j: TaskId, hb: Handled)
    requires !Conflict(a, b)
    ensures EitherOrder(table, a, i, ha, b, j, hb)
  {
    LookupAfter(table, i, a, ha, b);
    LookupAfter(table, j, b, hb, a);
    if ChangeOf(a).Some? && ChangeOf(b).Some? {
      ChangesCommute(table, i, ChangeOf(a).value, j, ChangeOf(b).value);
    }
    TablesCommute(table, a, i, ha, b, j, hb);
    hide Lookup, ChangeOf, Looked, Changed, Committed;
  }

  lemma TablesCommute(table: Table, a: FCall, i: TaskId, ha: Handled, b: FCall, j: TaskId, hb: Handled)
    requires Lookup(Process(table, i, a, ha).table, b) == Lookup(table, b)
    requires Lookup(Process(table, j, b, hb).table, a) == Lookup(table, a)
    requires ChangeOf(a).Some? && ChangeOf(b).Some? ==>
               Changed(Changed(table, i, ChangeOf(a).value), j, ChangeOf(b).value)
               == Changed(Changed(table, j, ChangeOf(b).value), i, ChangeOf(a).value)
    ensures Process(Process(table, i, a, ha).table, j, b, hb).table
            == Process(Process(table, j, b, hb).table, i, a, ha).table
  {
    ProcessChanges(table, i, a, ha);
    ProcessChanges(table, j, b, hb);
    ProcessChanges(Process(table, i, a, ha).table, j, b, hb);
    ProcessChanges(Process(table, j, b, hb).table, i, a, ha);
    hide Process, Lookup, ChangeOf, Changed;
  }

  /** A table that binds every fid of a list to the same object. */
  function Binding(fids: seq<u32>, id: TaskId): Table {
    map fid | fid in fids :: id
  }

  lemma {:induction false} LookupsDiffer(a: Table, b: Table, fids: seq<u32>, fid: u32)
    requires fid in fids && !Same(a, b, fid)
    ensures LookupAll(a, fids) != LookupAll(b, fids) || LookupAll(a, fids).Err?
  {
    if LookupAll(a, fids).Ok? {
      LookupBound(a, fids);
      LookupBound(b, fids);
      var k :| 0 <= k < |fids| && fids[k] == fid;
      if LookupAll(b, fids).Ok? {
        assert LookupAll(a, fids).value[k] == a[fid] && LookupAll(b, fids).value[k] == b[fid];
      }
    }
  }

  /** A change disturbs a request that looks its fid up, if the table binds what the request needs to objects
      other than the one being created. */
  lemma LookupDisturbed(table: Table, id: TaskId, change: Change, body: FCall)
    requires !IsR(body) && change.fid in Looked(body)
    requires forall fid :: fid in Looked(body) ==> fid in table && table[fid] != id
    ensures Lookup(Changed(table, id, change), body) != Lookup(table, body)
  {
    LookupBound(table, Looked(body));
    LookupsDiffer(table, Changed(table, id, change), Looked(body), change.fid);
  }

  /** If what one has done changes what the other sees, the order matters. */
  lemma SeenDiffers(
    table: Table, a: FCall, i: TaskId, ha: Handled, b: FCall, j: TaskId, hb: Handled)
    requires Lookup(table, a).Ok? && ChangeOf(a).Some? && ha.Ok?
    requires Lookup(Changed(table, i, ChangeOf(a).value), b) != Lookup(table, b)
    ensures !EitherOrder(table, a, i, ha, b, j, hb) && !EitherOrder(table, b, j, hb, a, i, ha)
  {
    ProcessChanges(table, i, a, ha);
    hide Lookup, ChangeOf, Changed;
  }

  /** The fids that two requests look up are bound to neither of the requests. */
  predicate BoundBefore(table: Table, a: FCall, i: TaskId, b: FCall, j: TaskId) {
    forall fid :: fid in Looked(a) + Looked(b) ==> fid in table && table[fid] != i && table[fid] != j
  }

  lemma BothFind(table: Table, a: FCall, i: TaskId, b: FCall, j: TaskId)
    requires BoundBefore(table, a, i, b, j) && !IsR(a) && !IsR(b)
    ensures Lookup(table, a).Ok? && Lookup(table, b).Ok?
    ensures forall fid :: fid in Looked(a) || fid in Looked(b) ==> fid in table && table[fid] != i && table[fid] != j
  {
    hide Looked, IsR;
    assert forall fid :: fid in Looked(a) || fid in Looked(b) ==> fid in Looked(a) + Looked(b);
    LookupBound(table, Looked(a));
    LookupBound(table, Looked(b));
  }

  lemma ConflictDisturbs(table: Table, a: FCall, i: TaskId, ra: FCall, b: FCall, j: TaskId, rb: FCall)
    requires Conflict(a, b) && i != j && BoundBefore(table, a, i, b, j)
    ensures !EitherOrder(table, a, i, Ok(ra), b, j, Ok(rb))
  {
    OnlyRequestsConflict(a, b);
    BothFind(table, a, i, b, j);
    hide EitherOrder, Looked, IsR, ChangeOf, Lookup, BoundBefore;
    if ChangeOf(a).Some? && ChangeOf(a).value.fid in Looked(b) {
      LookupDisturbed(table, i, ChangeOf(a).value, b);
      SeenDiffers(table, a, i, Ok(ra), b, j, Ok(rb));
    } else if ChangeOf(b).Some? && ChangeOf(b).value.fid in Looked(a) {
      LookupDisturbed(table, j, ChangeOf(b).value, a);
      SeenDiffers(table, b, j, Ok(rb), a, i, Ok(ra));
    } else {
      CreatorsCollide(table, a, i, Ok(ra), b, j, Ok(rb));
    }
  }

  /** Messages that are no requests conflict with nothing. */
  lemma OnlyRequestsConflict(a: FCall, b: FCall)
    requires Conflict(a, b)
    ensures !IsR(a) && !IsR(b)
  {
    if IsR(a) { OnlyRequestsUseFids(a); }
    if IsR(b) { OnlyRequestsUseFids(b); }
    hide IsR, Looked, ChangeOf;
  }

  lemma OnlyRequestsUseFids(body: FCall)
    requires IsR(body)
    ensures Looked(body) == [] && ChangeOf(body) == None
  {
  }

  lemma CreatorsCollide(
    table: Table, a: FCall, i: TaskId, ha: Handled, b: FCall, j: TaskId, hb: Handled)
    requires ChangeOf(a).Some? && ChangeOf(b).Some? && ChangeOf(a).value.fid == ChangeOf(b).value.fid && i != j
    requires ChangeOf(a).value.fid !in Looked(b) && ChangeOf(b).value.fid !in Looked(a) && ha.Ok? && hb.Ok?
    requires Lookup(table, a).Ok? && Lookup(table, b).Ok?
    ensures !EitherOrder(table, a, i, ha, b, j, hb)
  {
    var fid := ChangeOf(a).value.fid;
    RemoversLookUp(a);
    RemoversLookUp(b);
    LookupUndisturbed(table, i, ChangeOf(a).value, b);
    LookupUndisturbed(table, j, ChangeOf(b).value, a);
    hide Lookup, ChangeOf, Looked;
    var a1 := Process(table, i, a, ha);
    var b2 := Process(a1.table, j, b, hb);
    var b1 := Process(table, j, b, hb);
    var a2 := Process(b1.table, i, a, ha);
    assert b2.table[fid] == j && a2.table[fid] == i;
  }

  lemma RemoversLookUp(body: FCall)
    ensures ChangeOf(body).Some? && ChangeOf(body).value.Remove? ==> ChangeOf(body).value.fid in Looked(body)
  {
  }

  /** Two requests can be served in either order, whatever the table and whatever their handlers return,
      exactly when they do not conflict. */
  lemma ConflictsAreExact(a: FCall, i: TaskId, b: FCall, j: TaskId)
    requires i != j
    ensures !Conflict(a, b) <==>
            forall table: Table, ha: Handled, hb: Handled :: EitherOrder(table, a, i, ha, b, j, hb)
  {
    if Conflict(a, b) {
      ConflictDisturbs(Binding(Looked(a) + Looked(b), i + j + 1), a, i, RClunk, b, j, RClunk);
    } else {
      forall table: Table, ha: Handled, hb: Handled ensures EitherOrder(table, a, i, ha, b, j, hb) {
        NoConflictCommutes(table, a, i, ha, b, j, hb);
      }
    }
  }

  // ---- What an undisciplined client can see

  /** The client sends `a` and `b` while neither is answered, and is disciplined otherwise. */
  predicate DisciplinedBut(s: State, es: seq<Event>, a: Msg, b: Msg)
    requires Legal(s, es)
    decreases |es|
  {
    es != [] ==>
      && (es[0].Receive? ==>
            forall j :: 0 <= j < |s.tasks| && !s.tasks[j].phase.Replied? ==>
              !Conflict(s.tasks[j].msg.body, es[0].msg.body) || (s.tasks[j].msg == a && es[0].msg == b))
      && DisciplinedBut(Apply(s, es[0]), es[1..], a, b)
  }

  lemma {:induction false} DisciplinedIsBut(s: State, es: seq<Event>, a: Msg, b: Msg)
    requires Legal(s, es) && Disciplined(s, es)
    ensures DisciplinedBut(s, es, a, b)
    decreases |es|
  {
    hide Apply, Enabled, Conflict;
    if es != [] {
      DisciplinedIsBut(Apply(s, es[0]), es[1..], a, b);
    }
  }

  lemma {:induction false} ButIsDisciplined(s: State, es: seq<Event>, a: Msg, b: Msg)
    requires Legal(s, es) && DisciplinedBut(s, es, a, b) && !Conflict(a.body, b.body)
    ensures Disciplined(s, es)
    decreases |es|
  {
    hide Apply, Enabled, Conflict;
    if es != [] {
      ButIsDisciplined(Apply(s, es[0]), es[1..], a, b);
    }
  }

  lemma {:induction false} ButConcat(s: State, first: seq<Event>, second: seq<Event>, a: Msg, b: Msg)
    requires Legal(s, first) && Legal(Exec(s, first), second) && Legal(s, first + second)
    requires DisciplinedBut(s, first, a, b) && DisciplinedBut(Exec(s, first), second, a, b)
    ensures DisciplinedBut(s, first + second, a, b)
    decreases |first|
  {
    hide Apply, Enabled, Conflict;
    if first == [] {
      assert first + second == second;
    } else {
      assert (first + second)[1..] == first[1..] + second;
      ButConcat(Apply(s, first[0]), first[1..], second, a, b);
    }
  }

  /** On a quiet connection `a` and then `b` are received. */
  lemma {:induction false} ReceiveBoth(s: State, a: Msg, b: Msg)
    requires Quiet(s)
    ensures Legal(s, [Receive(a), Receive(b)]) && DisciplinedBut(s, [Receive(a), Receive(b)], a, b)
    ensures Exec(s, [Receive(a), Receive(b)]) ==
            s.(tasks := s.tasks + [Task(a, Spawned, None, None)] + [Task(b, Spawned, None, None)])
  {
    hide Conflict;
    TwoSteps(s, Receive(a), Receive(b));
    var es := [Receive(a), Receive(b)];
    var s1 := Apply(s, es[0]);
    assert es[1..] == [Receive(b)] && es[1..][1..] == [];
    assert DisciplinedBut(Apply(s1, Receive(b)), es[1..][1..], a, b);
    assert DisciplinedBut(s1, es[1..], a, b);
  }

  /** What handlers return: `ra` and `rb` to requests `n` and `n + 1`, and that a fid is attached to the others. */
  function Answers(n: nat, ra: FCall, rb: FCall): Handler {
    (k: TaskId) => Ok(if k == n then ra else if k == n + 1 then rb else ATTACHED)
  }

  /** What comes of serving `b` and then `a` is not what comes of serving them in arrival order. */
  lemma {:induction false} ReverseOrder(first: seq<Event>, s: State, a: Msg, b: Msg, ra: FCall, rb: FCall)
    requires Legal(Init, first) && Disciplined(Init, first) && Conflict(a.body, b.body)
    requires var s0 := Exec(Init, first); var n := |s0.tasks|;
             && HandledBy(first, Answers(n, ra, rb)) && Quiet(s0) && BoundBefore(s0.table, a.body, n, b.body, n + 1)
             && var done := Process(s0.table, n + 1, b.body, Ok(rb));
             var last := Process(done.table, n, a.body, Ok(ra));
             && s.table == last.table
             && s.tasks == s0.tasks + [Task(a, Ready, Some(last.seen), Some(last.fate)),
                                       Task(b, Ready, Some(done.seen), Some(done.fate))]
    ensures !InOrder(s, Answers(|Exec(Init, first).tasks|, ra, rb))
  {
    var s0 := Exec(Init, first);
    var n, table := |s0.tasks|, s0.table;
    var handler := Answers(n, ra, rb);
    ConditionalSerializability(first, handler);
    hide Exec, Legal, Disciplined, Conflict, Process, BoundBefore, SeqTable, Served, HandledBy;
    var early, reqs := MsgsOf(s0.tasks), MsgsOf(s.tasks);
    assert reqs == early + [a, b];
    ServedInOrder(early, a, b, handler);
    ConflictDisturbs(table, a.body, n, ra, b.body, n + 1, rb);
    assert s.tasks[n].seen.Some? && s.tasks[n + 1].seen.Some?;
  }

  /** The last two of some requests, served in arrival order. */
  lemma {:induction false} ServedInOrder(early: seq<Msg>, a: Msg, b: Msg, handler: Handler)
    ensures var reqs, n, table := early + [a, b], |early|, SeqTable(early, handler, |early|);
            && Served(reqs, handler, n) == Process(table, n, a.body, handler(n))
            && Served(reqs, handler, n + 1)
               == Process(Process(table, n, a.body, handler(n)).table, n + 1, b.body, handler(n + 1))
            && SeqTable(reqs, handler, n + 2) == Served(reqs, handler, n + 1).table
  {
    hide Process;
    var reqs, n := early + [a, b], |early|;
    assert reqs[..n] == early;
    MoreRequests(early, reqs, handler, n);
    assert SeqTable(reqs, handler, n + 1) == Served(reqs, handler, n).table;
  }

  /** A run with fixed handlers in which the client may send `a` and `b` while neither is answered. */
  ghost predicate Permitted(es: seq<Event>, handler: Handler, a: Msg, b: Msg) {
    Legal(Init, es) && HandledBy(es, handler) && DisciplinedBut(Init, es, a, b)
  }

  /** A run in which every request is served, first attaches, all answered, and then `a` and `b`, whose handlers
      return `ra` and `rb`. */
  ghost predicate BothServed(es: seq<Event>, handler: Handler, a: Msg, b: Msg, ra: FCall, rb: FCall) {
    && Permitted(es, handler, a, b)
    && var s := Exec(Init, es); var n := |s.tasks| - 2;
    && n >= 0 && MsgsOf(s.tasks)[n..] == [a, b] && handler(n) == Ok(ra) && handler(n + 1) == Ok(rb)
    && (forall k :: 0 <= k < n ==> s.tasks[k].msg.body.TAttach? && s.tasks[k].phase.Replied?)
    && (forall k :: 0 <= k < |s.tasks| ==> Settled(s.tasks[k].phase))
  }

  /** Of two conflicting requests, whatever their handlers return in success, the one sent first may be served
      second, and then the connection does not behave as if it served its requests in arrival order. The client
      has had the fids attached that they look up, and is disciplined but for sending the second while the first
      is unanswered. */
  lemma ConflictIsSeen(a: Msg, b: Msg, ra: FCall, rb: FCall)
    requires Conflict(a.body, b.body)
    ensures exists es: seq<Event>, handler: Handler ::
              BothServed(es, handler, a, b, ra, rb) && !InOrder(Exec(Init, es), handler)
  {
    hide Apply, Enabled, Legal, Exec, Disciplined, DisciplinedBut, InOrder, Process, Conflict, Looked, Answers;
    var fids := Looked(a.body) + Looked(b.body);
    var n := |fids|;
    var handler := Answers(n, ra, rb);
    var first := BindAll(fids);
    var s0 := Exec(Init, first);
    var second := [Receive(a), Receive(b)];
    ReceiveBoth(s0, a, b);
    var s1 := Exec(s0, second);
    var third := Alone(s1, n + 1, Ok(rb));
    var s2 := Exec(s1, third);
    var fourth := Alone(s2, n, Ok(ra));
    var s3 := Exec(s2, fourth);
    var es := first + second + third + fourth;
    LegalConcat(Init, first, second);
    LegalConcat(Init, first + second, third);
    LegalConcat(Init, first + second + third, fourth);
    HandledByAnswers(first, third, fourth, a, b, n, ra, rb);
    PermittedPieces(first, third, fourth, a, b);
    var ta, tb := s3.tasks[n], s3.tasks[n + 1];
    assert s3.tasks == s0.tasks + [ta, tb];
    LastTwo(s0, s3, ta, tb);
    ReverseOrder(first, s3, a, b, ra, rb);
    assert Exec(Init, es) == s3;
    assert BothServed(es, handler, a, b, ra, rb);
  }

  lemma LastTwo(s: State, s': State, ta: Task, tb: Task)
    requires Quiet(s) && s'.tasks == s.tasks + [ta, tb] && ta.phase == Ready && tb.phase == Ready
    ensures MsgsOf(s'.tasks)[|s.tasks|..] == [ta.msg, tb.msg]
    ensures forall k :: 0 <= k < |s.tasks| ==> s'.tasks[k] == s.tasks[k]
    ensures forall k :: 0 <= k < |s'.tasks| ==> Settled(s'.tasks[k].phase)
  {
  }

  lemma HandledByAnswers(
    first: seq<Event>, third: seq<Event>, fourth: seq<Event>, a: Msg, b: Msg, n: nat, ra: FCall, rb: FCall)
    requires Attaches(first, n)
    requires Returns(third, n + 1, Ok(rb)) && Returns(fourth, n, Ok(ra))
    ensures HandledBy(first, Answers(n, ra, rb))
    ensures HandledBy(first + [Receive(a), Receive(b)] + third + fourth, Answers(n, ra, rb))
    ensures Answers(n, ra, rb)(n) == Ok(ra) && Answers(n, ra, rb)(n + 1) == Ok(rb)
  {
  }

  /** The pieces of a run that are disciplined, or disciplined but for `a` and `b`, make one that is. */
  lemma {:induction false} PermittedPieces(first: seq<Event>, third: seq<Event>, fourth: seq<Event>, a: Msg, b: Msg)
    requires Legal(Init, first) && Disciplined(Init, first)
    requires var s0, second := Exec(Init, first), [Receive(a), Receive(b)];
             && Legal(s0, second) && DisciplinedBut(s0, second, a, b)
             && Legal(Exec(s0, second), third) && NoReceive(third)
             && Legal(Exec(Exec(s0, second), third), fourth) && NoReceive(fourth)
    ensures var es := first + [Receive(a), Receive(b)] + third + fourth;
            Legal(Init, es) && DisciplinedBut(Init, es, a, b)
  {
    hide Apply, Enabled, Legal, Exec, Disciplined, DisciplinedBut;
    var second := [Receive(a), Receive(b)];
    var s0 := Exec(Init, first);
    var s1 := Exec(s0, second);
    var s2 := Exec(s1, third);
    DisciplinedIsBut(Init, first, a, b);
    NoReceiveIsDisciplined(s1, third);
    DisciplinedIsBut(s1, third, a, b);
    NoReceiveIsDisciplined(s2, fourth);
    DisciplinedIsBut(s2, fourth, a, b);
    LegalConcat(Init, first, second);
    ButConcat(Init, first, second, a, b);
    LegalConcat(Init, first + second, third);
    ButConcat(Init, first + second, third, a, b);
    LegalConcat(Init, first + second + third, fourth);
    ButConcat(Init, first + second + third, fourth, a, b);
  }

  /** A client may send one request while the other is unanswered, and still see its requests served in arrival
      order in every run, exactly when the two do not conflict. */
  lemma DisciplineIsExact(a: Msg, b: Msg)
    ensures !Conflict(a.body, b.body) <==>
            forall es: seq<Event>, handler: Handler :: Permitted(es, handler, a, b) ==> InOrder(Exec(Init, es), handler)
  {
    if Conflict(a.body, b.body) {
      ConflictIsSeen(a, b, RClunk, RClunk);
    } else {
      forall es: seq<Event>, handler: Handler | Permitted(es, handler, a, b) ensures InOrder(Exec(Init, es), handler) {
        ButIsDisciplined(Init, es, a, b);
        ConditionalSerializability(es, handler);
      }
    }
  }

  // ---- Two clunks of one fid

  lemma {:induction false} LeaveHandlers(s: State, i: TaskId, j: TaskId, r: FCall)
    requires At(s, i, InHandler) && At(s, j, InHandler) && i != j
    requires ChangeOf(s.tasks[i].msg.body).Some? && ChangeOf(s.tasks[j].msg.body).Some?
    ensures Legal(s, [Return(i, Ok(r)), Return(j, Ok(r))])
    ensures Exec(s, [Return(i, Ok(r)), Return(j, Ok(r))]) ==
            s.(tasks := s.tasks[i := s.tasks[i].(phase := WantWrite, fate := Some(Ok(r)))]
                               [j := s.tasks[j].(phase := WantWrite, fate := Some(Ok(r)))],
               readers := s.readers - {i} - {j})
  {
    hide Lookup, ChangeOf, Sendable;
    TwoSteps(s, Return(i, Ok(r)), Return(j, Ok(r)));
  }

  lemma {:induction false} BothEnter(s: State, i: TaskId, j: TaskId)
    requires i != j && At(s, i, Spawned) && At(s, j, Spawned) && s.writer == None
    requires Lookup(s.table, s.tasks[i].msg.body).Ok? && Lookup(s.table, s.tasks[j].msg.body).Ok?
    ensures Legal(s, [ReadLock(i), LookUp(i)] + [ReadLock(j), LookUp(j)])
    ensures Exec(s, [ReadLock(i), LookUp(i)] + [ReadLock(j), LookUp(j)]) ==
            s.(tasks := s.tasks[i := Entered(s, i)][j := Entered(s, j)], readers := s.readers + {i} + {j})
  {
    hide Apply, Enabled, Legal, Exec, Lookup;
    EnterHandler(s, i);
    EnterHandler(Exec(s, [ReadLock(i), LookUp(i)]), j);
    LegalConcat(s, [ReadLock(i), LookUp(i)], [ReadLock(j), LookUp(j)]);
  }

  function Entered(s: State, i: TaskId): Task
    requires i < |s.tasks|
  {
    s.tasks[i].(phase := InHandler, seen := Some(Lookup(s.table, s.tasks[i].msg.body)))
  }

  lemma {:induction false} BothChange(s: State, i: TaskId, j: TaskId)
    requires i != j && At(s, i, WantWrite) && At(s, j, WantWrite) && s.writer == None && s.readers == {}
    requires ChangeOf(s.tasks[i].msg.body).Some? && ChangeOf(s.tasks[j].msg.body).Some?
    ensures Legal(s, [WriteLock(i), Event.Change(i)] + [WriteLock(j), Event.Change(j)])
    ensures Exec(s, [WriteLock(i), Event.Change(i)] + [WriteLock(j), Event.Change(j)]).tasks ==
            s.tasks[i := s.tasks[i].(phase := Ready)][j := s.tasks[j].(phase := Ready)]
  {
    hide Apply, Enabled, Legal, Exec, ChangeOf, Changed;
    MakeChange(s, i);
    MakeChange(Exec(s, [WriteLock(i), Event.Change(i)]), j);
    LegalConcat(s, [WriteLock(i), Event.Change(i)], [WriteLock(j), Event.Change(j)]);
  }

  lemma ClunkOfBound(table: Table, fid: u32)
    requires fid in table
    ensures Lookup(table, TClunk(fid)).Ok? && ChangeOf(TClunk(fid)) == Some(Remove(fid))
  {
    assert Looked(TClunk(fid)) == [fid] && !IsR(TClunk(fid));
    LookupBound(table, [fid]);
  }

  /** Both requests enter their handlers, both return, and then both change the table. */
  function Overlap(i: TaskId, j: TaskId): seq<Event> {
    [ReadLock(i), LookUp(i)] + [ReadLock(j), LookUp(j)] + [Return(i, Ok(RClunk)), Return(j, Ok(RClunk))]
    + ([WriteLock(i), Event.Change(i)] + [WriteLock(j), Event.Change(j)])
  }

  /** Two clunks of one fid may overlap and both succeed. */
  lemma {:induction false} OverlappingClunks(s: State, i: TaskId, j: TaskId, fid: u32)
    requires i != j && At(s, i, Spawned) && At(s, j, Spawned)
    requires s.tasks[i].msg.body == TClunk(fid) && s.tasks[j].msg.body == TClunk(fid)
    requires fid in s.table && s.writer == None && s.readers == {}
    ensures Legal(s, Overlap(i, j)) && |Exec(s, Overlap(i, j)).tasks| == |s.tasks|
    ensures var s' := Exec(s, Overlap(i, j));
            && (forall k :: 0 <= k < |s.tasks| ==> s'.tasks[k].msg == s.tasks[k].msg)
            && s'.tasks[i].fate == Some(Ok(RClunk)) && s'.tasks[j].fate == Some(Ok(RClunk))
  {
    hide Apply, Enabled, Legal, Exec, Lookup, ChangeOf;
    ClunkOfBound(s.table, fid);
    var enter := [ReadLock(i), LookUp(i)] + [ReadLock(j), LookUp(j)];
    BothEnter(s, i, j);
    var s1 := Exec(s, enter);
    var leave := [Return(i, Ok(RClunk)), Return(j, Ok(RClunk))];
    LeaveHandlers(s1, i, j, RClunk);
    LegalConcat(s, enter, leave);
    var s2 := Exec(s1, leave);
    assert s2.readers == {};
    BothChange(s2, i, j);
    LegalConcat(s, enter + leave, [WriteLock(i), Event.Change(i)] + [WriteLock(j), Event.Change(j)]);
  }

  /** A client attaches a fid and then clunks it twice without waiting for an answer. Both clunks may succeed;
      served in arrival order, the second always fails. */
  lemma ClunksMayBothSucceed(a: u16, b: u16, fid: u32) returns (es: seq<Event>, handler: Handler)
    ensures Legal(Init, es) && HandledBy(es, handler)
    ensures var s := Exec(Init, es);
            && MsgsOf(s.tasks) == [AttachMsg(fid), Msg(a, TClunk(fid)), Msg(b, TClunk(fid))]
            && s.tasks[1].fate == Some(Ok(RClunk)) && s.tasks[2].fate == Some(Ok(RClunk))
            && Served(MsgsOf(s.tasks), handler, 2).fate == Err(EBADF)
  {
    hide Apply, Enabled, Legal, Exec, Process, SeqTable, Served, HandledBy, Overlap, MsgsOf, Lookup, ChangeOf;
    handler := Answers(1, RClunk, RClunk);
    var ma, mb := Msg(a, TClunk(fid)), Msg(b, TClunk(fid));
    var first := BindAll([fid]);
    var s0 := Exec(Init, first);
    var second := [Receive(ma), Receive(mb)];
    ReceiveBoth(s0, ma, mb);
    var s1 := Exec(s0, second);
    assert fid in [fid];
    OverlappingClunks(s1, 1, 2, fid);
    var third := Overlap(1, 2);
    var s := Exec(s1, third);
    es := first + second + third;
    LegalConcat(Init, first, second);
    LegalConcat(Init, first + second, third);
    ClunksHandled(first, ma, mb);
    ThreeMsgs(s.tasks, AttachMsg(fid), ma, mb);
    SecondClunkFails(fid, ma, mb, handler);
  }

  lemma ThreeMsgs(tasks: seq<Task>, x: Msg, y: Msg, z: Msg)
    requires |tasks| == 3 && tasks[0].msg == x && tasks[1].msg == y && tasks[2].msg == z
    ensures MsgsOf(tasks) == [x, y, z]
  {
  }

  lemma ClunksHandled(first: seq<Event>, a: Msg, b: Msg)
    requires Attaches(first, 1)
    ensures HandledBy(first + [Receive(a), Receive(b)] + Overlap(1, 2), Answers(1, RClunk, RClunk))
  {
  }

  lemma SecondClunkFails(fid: u32, a: Msg, b: Msg, handler: Handler)
    requires a.body == TClunk(fid) && b.body == TClunk(fid)
    requires handler(0) == Ok(ATTACHED) && handler(1) == Ok(RClunk)
    ensures Served([AttachMsg(fid), a, b], handler, 2).fate == Err(EBADF)
  {
    var reqs := [AttachMsg(fid), a, b];
    var t0: Table := map[];
    assert SeqTable(reqs, handler, 0) == t0;
    AttachProcessed(t0, 0, fid);
    var t1 := t0[fid := 0];
    assert Served(reqs, handler, 0).table == SeqTable(reqs, handler, 1) == t1;
    assert Looked(TClunk(fid)) == [fid] && ChangeOf(TClunk(fid)) == Some(Remove(fid)) && !IsR(TClunk(fid));
    LookupBound(t1, [fid]);
    assert Served(reqs, handler, 1) == Process(t1, 1, TClunk(fid), Ok(RClunk));
    ProcessChanges(t1, 1, TClunk(fid), Ok(RClunk));
    var t2 := t1 - {fid};
    assert SeqTable(reqs, handler, 2) == Served(reqs, handler, 1).table == t2;
    LookupBound(t2, [fid]);
    assert Served(reqs, handler, 2) == Process(t2, 2, TClunk(fid), handler(2));
    hide SeqTable, Served;
  }
}
