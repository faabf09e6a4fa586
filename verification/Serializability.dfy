/** When a connection behaves as if it served its requests one at a time in arrival order. */
module Serializability {
  import opened Wrappers
  import opened Bytes
  import opened Fcall
  import opened FidTable
  import opened Connection
  import opened Safety
  import opened Runs
  import opened Progress

  type Handler = TaskId -> Result<FCall, Errno>

  /** The table after the first `k` requests, served one at a time. */
  function SeqTable(reqs: seq<Msg>, handler: Handler, k: nat): Table
    requires k <= |reqs|
    decreases k, 0
  {
    if k == 0 then map[] else Served(reqs, handler, k - 1).table
  }

  /** What becomes of request `i` when the requests are served one at a time. */
  function Served(reqs: seq<Msg>, handler: Handler, i: nat): Outcome
    requires i < |reqs|
    decreases i, 1
  {
    Process(SeqTable(reqs, handler, i), i, reqs[i].body, handler(i))
  }

  // ---- Conflicts

  predicate Changes(body: FCall, fid: u32) {
    ChangeOf(body).Some? && ChangeOf(body).value.fid == fid
  }

  /** One request creates or removes a fid that the other uses, creates or removes. */
  predicate Conflict(a: FCall, b: FCall) {
    || (ChangeOf(a).Some? && (ChangeOf(a).value.fid in Looked(b) || Changes(b, ChangeOf(a).value.fid)))
    || (ChangeOf(b).Some? && ChangeOf(b).value.fid in Looked(a))
  }

  /** The client sends no request that conflicts with one it has no answer to yet. */
  predicate Disciplined(s: State, es: seq<Event>)
    requires Legal(s, es)
    decreases |es|
  {
    es != [] ==>
      && (es[0].Receive? ==>
            forall j :: 0 <= j < |s.tasks| && !s.tasks[j].phase.Replied? ==>
              !Conflict(s.tasks[j].msg.body, es[0].msg.body))
      && Disciplined(Apply(s, es[0]), es[1..])
  }

  // ---- The invariant

  predicate Same(a: Table, b: Table, fid: u32) {
    if fid in a then fid in b && a[fid] == b[fid] else fid !in b
  }

  /** Of two conflicting requests the earlier has had its effect. */
  predicate Ordered(s: State) {
    forall i, j :: 0 <= j < i < |s.tasks| && Conflict(s.tasks[j].msg.body, s.tasks[i].msg.body) ==>
      Settled(s.tasks[j].phase)
  }

  /** What each request has seen and become is what it would have when served in order. */
  predicate AsServed(s: State, handler: Handler) {
    var reqs := MsgsOf(s.tasks);
    forall i :: 0 <= i < |s.tasks| ==>
      && (s.tasks[i].seen.Some? ==> s.tasks[i].seen.value == Served(reqs, handler, i).seen)
      && (s.tasks[i].fate.Some? ==> s.tasks[i].fate.value == Served(reqs, handler, i).fate)
  }

  /** The requests that change `fid` and have settled are those before `k`. */
  predicate SettledUpTo(s: State, fid: u32, k: nat) {
    forall j :: 0 <= j < |s.tasks| && Changes(s.tasks[j].msg.body, fid) ==> (Settled(s.tasks[j].phase) <==> j < k)
  }

  ghost predicate TableAsServed(s: State, handler: Handler) {
    forall fid: u32, k: nat :: k <= |s.tasks| && SettledUpTo(s, fid, k) ==>
      Same(s.table, SeqTable(MsgsOf(s.tasks), handler, k), fid)
  }

  ghost predicate Serial(s: State, handler: Handler) {
    Ordered(s) && AsServed(s, handler) && TableAsServed(s, handler)
  }

  // ---- Serving in order

  lemma {:induction false} MoreRequests(reqs: seq<Msg>, more: seq<Msg>, handler: Handler, k: nat)
    requires k <= |reqs| <= |more| && reqs == more[..|reqs|]
    ensures SeqTable(more, handler, k) == SeqTable(reqs, handler, k)
  {
    if k > 0 {
      MoreRequests(reqs, more, handler, k - 1);
      assert reqs[k - 1] == more[k - 1];
    }
  }

  lemma ServedElsewhere(reqs: seq<Msg>, handler: Handler, i: nat, fid: u32)
    requires i < |reqs| && !Changes(reqs[i].body, fid)
    ensures Same(SeqTable(reqs, handler, i + 1), SeqTable(reqs, handler, i), fid)
  {
    assert SeqTable(reqs, handler, i + 1) == Served(reqs, handler, i).table;
  }

  /** Requests that do not change a fid leave it as it was. */
  lemma {:induction false} Undisturbed(reqs: seq<Msg>, handler: Handler, i: nat, k: nat, fid: u32)
    requires i <= k <= |reqs| && forall j :: i <= j < k ==> !Changes(reqs[j].body, fid)
    ensures Same(SeqTable(reqs, handler, k), SeqTable(reqs, handler, i), fid)
    decreases k
  {
    if i < k {
      Undisturbed(reqs, handler, i, k - 1, fid);
      ServedElsewhere(reqs, handler, k - 1, fid);
    }
  }

  lemma {:induction false} SameLookups(a: Table, b: Table, fids: seq<u32>)
    requires forall k :: 0 <= k < |fids| ==> Same(a, b, fids[k])
    ensures LookupAll(a, fids) == LookupAll(b, fids)
  {
    if fids != [] {
      assert forall k :: 0 <= k < |fids| - 1 ==> fids[1..][k] == fids[k + 1];
      SameLookups(a, b, fids[1..]);
    }
  }

  // ---- An unsettled request stands alone on its fids

  /** On a fid that an unsettled request uses or changes, the table is as that request would find it when
      served in order. */
  lemma {:induction false} FidsOfUnsettled(s: State, handler: Handler, i: TaskId, fid: u32)
    requires Ordered(s) && TableAsServed(s, handler) && i < |s.tasks| && !Settled(s.tasks[i].phase)
    requires fid in Looked(s.tasks[i].msg.body) || Changes(s.tasks[i].msg.body, fid)
    ensures Same(s.table, SeqTable(MsgsOf(s.tasks), handler, i), fid)
    ensures forall j :: i < j < |s.tasks| ==> !Changes(s.tasks[j].msg.body, fid)
  {
    hide ChangeOf, Looked;
    forall j | 0 <= j < |s.tasks| && Changes(s.tasks[j].msg.body, fid) && j != i
      ensures j < i && Settled(s.tasks[j].phase)
    {
      assert Conflict(s.tasks[j].msg.body, s.tasks[i].msg.body) && Conflict(s.tasks[i].msg.body, s.tasks[j].msg.body);
    }
    assert SettledUpTo(s, fid, i);
  }

  lemma {:induction false} LookupAsServed(s: State, handler: Handler, i: TaskId)
    requires Ordered(s) && TableAsServed(s, handler) && i < |s.tasks| && !Settled(s.tasks[i].phase)
    ensures Lookup(s.table, s.tasks[i].msg.body) == Served(MsgsOf(s.tasks), handler, i).seen
  {
    var fids := Looked(s.tasks[i].msg.body);
    forall k | 0 <= k < |fids| ensures Same(s.table, SeqTable(MsgsOf(s.tasks), handler, i), fids[k]) {
      FidsOfUnsettled(s, handler, i, fids[k]);
    }
    SameLookups(s.table, SeqTable(MsgsOf(s.tasks), handler, i), fids);
  }

  // ---- Steps

  lemma OrderedStep(s: State, e: Event)
    requires Tasks(s) && Ordered(s) && Enabled(s, e)
    requires e.Receive? ==>
      forall j :: 0 <= j < |s.tasks| && !s.tasks[j].phase.Replied? ==> !Conflict(s.tasks[j].msg.body, e.msg.body)
    ensures Ordered(Apply(s, e))
  {
    OthersStay(s, e);
    SettledStays(s, e);
    hide Apply, Conflict, Enabled, TaskOk;
  }

  /** Once settled, always settled; and only three steps settle. */
  lemma SettledStays(s: State, e: Event)
    requires Enabled(s, e)
    ensures Serves(e) ==>
              && e.id < |s.tasks|
              && var p, p' := s.tasks[e.id].phase, Apply(s, e).tasks[e.id].phase;
              && (Settled(p) ==> Settled(p'))
              && (Settled(p') && !Settled(p) ==> e.LookUp? || e.Return? || e.Change?)
              && (e.Change? ==> !Settled(p) && Settled(p'))
    ensures Serves(e) && !e.LookUp? ==> Apply(s, e).tasks[e.id].seen == s.tasks[e.id].seen
    ensures Serves(e) && !e.LookUp? && !e.Return? ==> Apply(s, e).tasks[e.id].fate == s.tasks[e.id].fate
    ensures e.Change? <==> Apply(s, e).log != s.log
    ensures !e.Change? ==> Apply(s, e).table == s.table
  {
    OthersStay(s, e);
    hide Sendable, Lookup, ChangeOf, Changed, IsR;
    match e
    case Receive(_) =>
    case Close =>
    case ReadLock(_) =>
    case LookUp(_) =>
    case Return(_, _) =>
    case WriteLock(_) =>
    case Change(_) => assert |Apply(s, e).log| == |s.log| + 1;
    case Drop(_) =>
    case StartReply(_) =>
    case Write(_, _) =>
    case Break(_, _) =>
  }

  lemma SameMsgs(s: State, e: Event)
    requires Enabled(s, e)
    ensures MsgsOf(Apply(s, e).tasks) == if e.Receive? then MsgsOf(s.tasks) + [e.msg] else MsgsOf(s.tasks)
  {
    OthersStay(s, e);
    hide Apply, Enabled;
  }

  lemma AsServedStep(s: State, e: Event, handler: Handler)
    requires Tasks(s) && Ordered(s) && AsServed(s, handler) && TableAsServed(s, handler) && Enabled(s, e)
    requires e.Return? ==> e.handled == handler(e.id)
    ensures AsServed(Apply(s, e), handler)
  {
    var s' := Apply(s, e);
    var reqs, reqs' := MsgsOf(s.tasks), MsgsOf(s'.tasks);
    OthersStay(s, e);
    SettledStays(s, e);
    SameMsgs(s, e);
    if Serves(e) {
      MovedAsServed(s, e, handler);
    }
    hide Apply, Enabled, Tasks, Ordered, TableAsServed, Settled, SeqTable, Served;
    forall i | 0 <= i < |s'.tasks|
      ensures s'.tasks[i].seen.Some? ==> s'.tasks[i].seen.value == Served(reqs', handler, i).seen
      ensures s'.tasks[i].fate.Some? ==> s'.tasks[i].fate.value == Served(reqs', handler, i).fate
    {
      if i < |s.tasks| {
        ServedStill(reqs, reqs', handler, i);
      }
    }
  }

  lemma {:induction false} ServedStill(reqs: seq<Msg>, more: seq<Msg>, handler: Handler, i: nat)
    requires i < |reqs| <= |more| && reqs == more[..|reqs|]
    ensures Served(more, handler, i) == Served(reqs, handler, i)
  {
    MoreRequests(reqs, more, handler, i);
    assert reqs[i] == more[i];
  }

  lemma MovedAsServed(s: State, e: Event, handler: Handler)
    requires Tasks(s) && Ordered(s) && AsServed(s, handler) && TableAsServed(s, handler) && Enabled(s, e) && Serves(e)
    requires e.Return? ==> e.handled == handler(e.id)
    ensures e.id < |s.tasks| && e.id < |Apply(s, e).tasks|
    ensures var t', served := Apply(s, e).tasks[e.id], Served(MsgsOf(s.tasks), handler, e.id);
            && (t'.seen.Some? ==> t'.seen.value == served.seen)
            && (t'.fate.Some? ==> t'.fate.value == served.fate)
  {
    OthersStay(s, e);
    SettledStays(s, e);
    hide Sendable, Lookup, ChangeOf, Changed, Looked, TableAsServed, Ordered, SeqTable;
    assert TaskOk(s.tasks[e.id]);
    if e.LookUp? {
      LookupAsServed(s, handler, e.id);
    }
  }

  /** When request `i` settles, the table is right again on the fid it changes. */
  lemma SettlingTable(s: State, s': State, handler: Handler, i: TaskId, fid: u32, k: nat)
    requires Ordered(s) && TableAsServed(s, handler) && i < |s.tasks| == |s'.tasks|
    requires MsgsOf(s'.tasks) == MsgsOf(s.tasks)
    requires !Settled(s.tasks[i].phase) && Settled(s'.tasks[i].phase)
    requires forall j :: 0 <= j < |s.tasks| && j != i ==> s'.tasks[j] == s.tasks[j]
    requires if Changes(s.tasks[i].msg.body, fid)
             then Same(s'.table, SeqTable(MsgsOf(s.tasks), handler, i + 1), fid)
             else Same(s'.table, s.table, fid)
    requires k <= |s'.tasks| && SettledUpTo(s', fid, k)
    ensures Same(s'.table, SeqTable(MsgsOf(s.tasks), handler, k), fid)
  {
    var reqs := MsgsOf(s.tasks);
    assert s'.tasks[i].msg == MsgsOf(s'.tasks)[i] == s.tasks[i].msg;
    hide ChangeOf, SeqTable, Changes, Settled, Ordered, TableAsServed, Same;
    if Changes(s.tasks[i].msg.body, fid) {
      assert i < k;
      FidsOfUnsettled(s, handler, i, fid);
      Undisturbed(reqs, handler, i + 1, k, fid);
      SameTransitive(s'.table, SeqTable(reqs, handler, i + 1), SeqTable(reqs, handler, k), fid);
    } else {
      forall j | 0 <= j < |s.tasks| && Changes(s.tasks[j].msg.body, fid) ensures Settled(s.tasks[j].phase) <==> j < k {
        assert s'.tasks[j] == s.tasks[j];
      }
      assert SettledUpTo(s, fid, k);
      AsServedUpTo(s, handler, fid, k);
      SameTransitive(s'.table, s.table, SeqTable(reqs, handler, k), fid);
    }
  }

  lemma {:induction false} AsServedUpTo(s: State, handler: Handler, fid: u32, k: nat)
    requires TableAsServed(s, handler) && k <= |s.tasks| && SettledUpTo(s, fid, k)
    ensures Same(s.table, SeqTable(MsgsOf(s.tasks), handler, k), fid)
  {
    hide SettledUpTo, SeqTable, Same;
  }

  lemma SameTransitive(a: Table, b: Table, c: Table, fid: u32)
    requires Same(a, b, fid) && (Same(b, c, fid) || Same(c, b, fid))
    ensures Same(a, c, fid)
  {
  }

  /** What a request that settles has made of the table is what it makes of it when served in order. */
  lemma SettlingRight(s: State, e: Event, handler: Handler, fid: u32)
    requires Tasks(s) && Ordered(s) && AsServed(s, handler) && TableAsServed(s, handler) && Enabled(s, e) && Serves(e)
    requires e.Return? ==> e.handled == handler(e.id)
    requires e.id < |s.tasks| && !Settled(s.tasks[e.id].phase)
    requires e.id < |Apply(s, e).tasks| && Settled(Apply(s, e).tasks[e.id].phase)
    ensures if Changes(s.tasks[e.id].msg.body, fid)
            then Same(Apply(s, e).table, SeqTable(MsgsOf(s.tasks), handler, e.id + 1), fid)
            else Same(Apply(s, e).table, s.table, fid)
  {
    var i, s', reqs := e.id, Apply(s, e), MsgsOf(s.tasks);
    SettledStays(s, e);
    MovedAsServed(s, e, handler);
    assert TaskOk(s.tasks[i]);
    assert SeqTable(reqs, handler, i + 1) == Served(reqs, handler, i).table;
    hide Sendable, ChangeOf, Lookup, Looked, SeqTable, TableAsServed, Ordered;
    if Changes(s.tasks[i].msg.body, fid) {
      FidsOfUnsettled(s, handler, i, fid);
      if e.Change? {
        assert Served(reqs, handler, i).fate.Ok? && Served(reqs, handler, i).seen.Ok?;
      } else {
        assert Served(reqs, handler, i).table == SeqTable(reqs, handler, i);
      }
    }
  }

  lemma TableStep(s: State, e: Event, handler: Handler)
    requires Tasks(s) && Ordered(s) && AsServed(s, handler) && TableAsServed(s, handler) && Enabled(s, e)
    requires e.Return? ==> e.handled == handler(e.id)
    ensures TableAsServed(Apply(s, e), handler)
  {
    var s' := Apply(s, e);
    OthersStay(s, e);
    SettledStays(s, e);
    SameMsgs(s, e);
    if e.Receive? {
      ReceivedTable(s, s', handler, e.msg);
    } else if e.Close? || Settled(s.tasks[e.id].phase) == Settled(s'.tasks[e.id].phase) {
      SameTable(s, s', handler);
    } else {
      forall fid: u32, k: nat | k <= |s'.tasks| && SettledUpTo(s', fid, k)
        ensures Same(s'.table, SeqTable(MsgsOf(s'.tasks), handler, k), fid)
      {
        SettlingRight(s, e, handler, fid);
        SettlingTable(s, s', handler, e.id, fid, k);
      }
    }
  }

  lemma SameTable(s: State, s': State, handler: Handler)
    requires TableAsServed(s, handler) && |s.tasks| == |s'.tasks| && s'.table == s.table
    requires MsgsOf(s'.tasks) == MsgsOf(s.tasks)
    requires forall j :: 0 <= j < |s.tasks| ==> Settled(s'.tasks[j].phase) == Settled(s.tasks[j].phase)
    ensures TableAsServed(s', handler)
  {
    assert forall j :: 0 <= j < |s.tasks| ==> MsgsOf(s'.tasks)[j] == s'.tasks[j].msg;
    hide SeqTable, Changes, Settled;
    forall fid: u32, k: nat | k <= |s'.tasks| && SettledUpTo(s', fid, k)
      ensures Same(s'.table, SeqTable(MsgsOf(s'.tasks), handler, k), fid)
    {
      assert SettledUpTo(s, fid, k);
    }
  }

  lemma ReceivedTable(s: State, s': State, handler: Handler, msg: Msg)
    requires TableAsServed(s, handler) && s'.table == s.table
    requires s'.tasks == s.tasks + [Task(msg, Spawned, None, None)] && MsgsOf(s'.tasks) == MsgsOf(s.tasks) + [msg]
    ensures TableAsServed(s', handler)
  {
    var n, reqs, reqs' := |s.tasks|, MsgsOf(s.tasks), MsgsOf(s'.tasks);
    assert reqs == reqs'[..n];
    hide SeqTable, Changes;
    forall fid: u32, k: nat | k <= |s'.tasks| && SettledUpTo(s', fid, k)
      ensures Same(s'.table, SeqTable(reqs', handler, k), fid)
    {
      assert !Settled(s'.tasks[n].phase);
      var m := if k <= n then k else n;
      forall j | 0 <= j < n && Changes(s.tasks[j].msg.body, fid) ensures Settled(s.tasks[j].phase) <==> j < m {
        assert s'.tasks[j] == s.tasks[j];
      }
      assert SettledUpTo(s, fid, m);
      MoreRequests(reqs, reqs', handler, m);
      if k > n {
        assert !Changes(s'.tasks[n].msg.body, fid);
        ServedElsewhere(reqs', handler, n, fid);
      }
    }
  }

  // ---- Runs

  lemma {:induction false} SerialRun(s: State, es: seq<Event>, handler: Handler)
    requires Tasks(s) && Serial(s, handler) && Legal(s, es) && HandledBy(es, handler) && Disciplined(s, es)
    ensures Serial(Exec(s, es), handler)
    decreases |es|
  {
    hide Apply, Enabled, Tasks, Ordered, AsServed, TableAsServed, Conflict;
    if es != [] {
      var e := es[0];
      TasksStep(s, e);
      OrderedStep(s, e);
      AsServedStep(s, e, handler);
      TableStep(s, e, handler);
      assert forall k :: 0 <= k < |es| - 1 ==> es[1..][k] == es[k + 1];
      SerialRun(Apply(s, e), es[1..], handler);
    }
  }

  /** Every request has looked up and become what it would if the requests were served one at a time in arrival
      order; and if all have settled, the table is the one that serving them so gives. */
  ghost predicate InOrder(s: State, handler: Handler) {
    && AsServed(s, handler)
    && ((forall i :: 0 <= i < |s.tasks| ==> Settled(s.tasks[i].phase)) ==>
          s.table == SeqTable(MsgsOf(s.tasks), handler, |s.tasks|))
  }

  /** Let what each handler returns be fixed, and let the client never send a request that conflicts with one
      it has no answer to. Then however the steps interleave, every request looks up and becomes what it would
      if the requests were served one at a time in arrival order; and once all have settled the table is the
      one that serving them so gives. */
  lemma {:induction false} ConditionalSerializability(es: seq<Event>, handler: Handler)
    requires Legal(Init, es) && HandledBy(es, handler) && Disciplined(Init, es)
    ensures InOrder(Exec(Init, es), handler)
  {
    assert Serial(Init, handler);
    SerialRun(Init, es, handler);
    var s := Exec(Init, es);
    var reqs := MsgsOf(s.tasks);
    if forall i :: 0 <= i < |s.tasks| ==> Settled(s.tasks[i].phase) {
      var final := SeqTable(reqs, handler, |reqs|);
      forall fid: u32 ensures Same(s.table, final, fid) {
        assert SettledUpTo(s, fid, |s.tasks|);
      }
      SameEverywhere(s.table, final);
    }
  }

  lemma SameEverywhere(a: Table, b: Table)
    requires forall fid: u32 :: Same(a, b, fid)
    ensures a == b
  {
    forall fid: u32 ensures fid in a <==> fid in b {
      assert Same(a, b, fid);
    }
    forall fid: u32 | fid in a ensures a[fid] == b[fid] {
      assert Same(a, b, fid);
    }
  }
}
