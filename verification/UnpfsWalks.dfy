/** Walks through a connection: the object a walk binds is what walking from the object it started at gives. */
module UnpfsWalks {
  import opened Wrappers
  import opened Bytes
  import opened Fcall
  import opened FidTable
  import opened Connection
  import opened Safety
  import opened Runs
  import opened Walk
  import opened UnpfsRuns

  // ---- What a request has looked up stays committed

  predicate SourcesCommitted(s: State) {
    forall i :: 0 <= i < |s.tasks| && Source(s.tasks[i]).Some? ==>
      HasCommitted(s, Source(s.tasks[i]).value) && Source(s.tasks[i]).value != i
  }

  lemma LookupsCommitted(s: State, body: FCall)
    requires LogOk(s)
    ensures Lookup(s.table, body).Ok? ==>
              forall k :: 0 <= k < |Lookup(s.table, body).value| ==> HasCommitted(s, Lookup(s.table, body).value[k])
  {
    if Lookup(s.table, body).Ok? {
      var fids := Looked(body);
      LookupIsAll(s.table, body);
      LookupBound(s.table, fids);
      hide Looked, LogOk, Lookup, HasCommitted;
      forall k | 0 <= k < |fids| ensures HasCommitted(s, LookupAll(s.table, fids).value[k]) {
        assert fids[k] in s.table;
        BindingsCommitted(s, fids[k]);
      }
    }
  }

  lemma {:induction false} LookupIsAll(table: Table, body: FCall)
    requires Lookup(table, body).Ok?
    ensures Lookup(table, body) == LookupAll(table, Looked(body))
  {
    hide Looked, IsR;
  }

  lemma NotYetCommitted(s: State, i: TaskId)
    requires At(s, i, Locked)
    ensures !HasCommitted(s, i)
  {
  }

  lemma SourcesStep(s: State, e: Event)
    requires Inv(s) && SourcesCommitted(s) && Enabled(s, e)
    ensures SourcesCommitted(Apply(s, e))
  {
    assert LogOk(s) && Tasks(s);
    hide Inv, LogOk, Tasks, HasCommitted, Apply, Enabled;
    CommittedStep(s, e);
    OthersStay(s, e);
    forall i | 0 <= i < |Apply(s, e).tasks| && Source(Apply(s, e).tasks[i]).Some?
      ensures HasCommitted(Apply(s, e), Source(Apply(s, e).tasks[i]).value) && Source(Apply(s, e).tasks[i]).value != i
    {
      if i < |s.tasks| {
        SeenStep(s, e, i);
        if e == LookUp(i) {
          LookupsCommitted(s, s.tasks[i].msg.body);
          NotYetCommitted(s, i);
        }
      }
    }
  }

  // ---- What a walk stores

  /** `w` is where walking `names` from the source ends, in the file system as it was for request `i` when it searched
      it, which is one of the moves made. */
  ghost predicate FromSource(made: seq<Move>, i: TaskId, source: Option<Aux>, names: seq<Name>, max: u64, w: Walked) {
    source.Some? &&
    exists qidAt: QIdAt ::
      Search(i, qidAt) in made && WalkFrom(qidAt, source.value.path, source.value.depth, names, max) == Ok(w)
  }

  /** Walking `names` from the source fails with `error`, in the file system as request `i` searched it. */
  ghost predicate FailsFrom(
    made: seq<Move>, i: TaskId, source: Option<Aux>, names: seq<Name>, max: u64, error: Errno)
  {
    source.Some? &&
    exists qidAt: QIdAt ::
      Search(i, qidAt) in made && WalkFrom(qidAt, source.value.path, source.value.depth, names, max) == Err(error)
  }

  /** A walk that failed, though not in its lookups. */
  predicate Failed(t: Task) {
    t.fate.Some? && t.fate.value.Err? && t.seen.Some? && t.seen.value.Ok?
  }

  ghost predicate TaskWalks(made: seq<Move>, i: TaskId, max: u64, t: Task, own: Aux, local: Local, source: Option<Aux>)
    requires t.msg.body.TWalk?
  {
    var names := t.msg.body.wnames;
    && (t.phase.InHandler? ==>
          && (local.GotPath? && source.Some? ==> local.path == source.value.path)
          && (local.GotBoth? ==> source == Some(Aux(local.path, local.depth)))
          && (local.NotFound? ==> FailsFrom(made, i, source, names, max, local.e))
          && (local.Arrived? ==> FromSource(made, i, source, names, max, local.w))
          && (local.HalfStored? ==> FromSource(made, i, source, names, max, local.w) && own.path == local.w.path)
          && (local.Stored? ==> FromSource(made, i, source, names, max, Walked(own.path, own.depth, local.qids))))
    && (t.fate.Some? && t.fate.value.Ok? ==>
          t.fate.value.value.RWalk? &&
          FromSource(made, i, source, names, max, Walked(own.path, own.depth, t.fate.value.value.wqids)))
    && (Failed(t) ==> FailsFrom(made, i, source, names, max, t.fate.value.error))
  }

  ghost predicate WalksAt(made: seq<Move>, w: World, i: TaskId)
    requires i < |w.objs| == |w.locals| == |w.conn.tasks|
  {
    BodyOf(w, i).TWalk? ==> TaskWalks(made, i, w.max, w.conn.tasks[i], w.objs[i], w.locals[i], SourceAux(w, i))
  }

  ghost predicate AllWalk(made: seq<Move>, w: World) {
    && |w.objs| == |w.locals| == |w.conn.tasks|
    && (forall i :: 0 <= i < |w.objs| ==> WalksAt(made, w, i))
  }

  /** Nothing that a handler stores is an object that a request works or has worked from. */
  lemma SourceStays(w: World, m: Move, j: TaskId)
    requires SourcesCommitted(w.conn) && Can(w, m) && !m.Conn? && !m.CreatePath? && j < |w.objs|
    ensures SourceAux(Next(w, m), j) == SourceAux(w, j)
  {
    hide Enabled, Apply, MayReturn, WalkFrom;
    if HasSource(w, j) {
      assert HasCommitted(w.conn, Source(w.conn.tasks[j]).value);
    }
  }

  lemma HandlerMoveWalks(made: seq<Move>, w: World, m: Move, i: TaskId)
    requires Tasks(w.conn) && Snapshots(w.conn) && LogOk(w.conn) && SourcesCommitted(w.conn) && AllWalk(made, w)
    requires Can(w, m) && m in made && !m.Conn? && !m.CreatePath? && i < |w.objs|
    ensures WalksAt(made, Next(w, m), i)
  {
    assert WalksAt(made, w, i);
    SourceStays(w, m, i);
    if i == m.id && BodyOf(w, i).TWalk? {
      assert w.conn.tasks[i].fate == None;
      SourceIsBound(w.conn, i);
      if m.Search? {
        Searched(made, w, m.id, m.qidAt);
      }
    }
    hide Tasks, Snapshots, LogOk, SourcesCommitted, Enabled, Apply, MayReturn, WalkFrom, FromSource, FailsFrom, AllWalk;
  }

  lemma Searched(made: seq<Move>, w: World, i: TaskId, qidAt: QIdAt)
    requires AllWalk(made, w) && Can(w, Search(i, qidAt)) && Search(i, qidAt) in made
    ensures var res := WalkFrom(qidAt, w.locals[i].path, w.locals[i].depth, BodyOf(w, i).wnames, w.max);
            && (res.Ok? ==> FromSource(made, i, SourceAux(w, i), BodyOf(w, i).wnames, w.max, res.value))
            && (res.Err? ==> FailsFrom(made, i, SourceAux(w, i), BodyOf(w, i).wnames, w.max, res.error))
  {
    assert WalksAt(made, w, i);
    hide WalkFrom;
  }

  lemma ConnMoveWalks(made: seq<Move>, w: World, e: Event, i: TaskId)
    requires Inv(w.conn) && SourcesCommitted(w.conn) && AllPlaced(w) && AllWalk(made, w) && Can(w, Conn(e))
    requires i < |Next(w, Conn(e)).objs| == |Next(w, Conn(e)).locals| == |Next(w, Conn(e)).conn.tasks|
    ensures WalksAt(made, Next(w, Conn(e)), i)
  {
    assert Tasks(w.conn);
    hide Inv, Tasks, Enabled, Apply, Placed, TaskWalks, MayReturn, TaskPlaced, HasCommitted, SourceAux;
    var w' := Next(w, Conn(e));
    OthersStay(w.conn, e);
    if i < |w.objs| {
      assert WalksAt(made, w, i) && PlacedAt(w, i);
      SeenStep(w.conn, e, i);
      if e != LookUp(i) {
        SourceStaysToo(w, e, i);
      }
      if !e.Receive? && !e.Close? && i == e.id {
        OkTask(w.conn, i);
        MovedTask(w.conn, e);
        if BodyOf(w, i).TWalk? {
          MovedTaskWalks(made, i, w.root, w.max, w.conn.tasks[i], w'.conn.tasks[i], w.objs[i], w.locals[i],
                         SourceAux(w, i), SourceAux(w', i), e);
        }
      }
    } else {
      NewTaskWalks(made, i, w.max, w'.conn.tasks[i], w'.objs[i], w'.locals[i], SourceAux(w', i));
    }
  }

  lemma SourceStaysToo(w: World, e: Event, i: TaskId)
    requires SourcesCommitted(w.conn) && Can(w, Conn(e)) && i < |w.objs| && e != LookUp(i)
    requires i < |Next(w, Conn(e)).conn.tasks|
    ensures SourceAux(Next(w, Conn(e)), i) == SourceAux(w, i)
  {
    SeenStep(w.conn, e, i);
    hide Enabled, Apply, MayReturn;
    if Source(w.conn.tasks[i]).Some? {
      assert HasCommitted(w.conn, Source(w.conn.tasks[i]).value);
    }
  }

  lemma NewTaskWalks(made: seq<Move>, i: TaskId, max: u64, t: Task, own: Aux, local: Local, source: Option<Aux>)
    requires t.phase.Spawned? && t.fate == None
    ensures t.msg.body.TWalk? ==> TaskWalks(made, i, max, t, own, local, source)
  {
  }

  lemma MovedTaskWalks(
    made: seq<Move>, i: TaskId, root: Path, max: u64, t: Task, t': Task, own: Aux, local: Local,
    source: Option<Aux>, source': Option<Aux>, e: Event)
    requires t.msg.body.TWalk? && t'.msg == t.msg && !t'.phase.Spawned?
    requires TaskPlaced(root, t, own, local, source) && TaskWalks(made, i, max, t, own, local, source)
    requires (t'.phase.InHandler? ==> t.phase.Locked?) && (t'.phase.Locked? ==> t.phase.Spawned?)
    requires t'.fate.Some? && t'.fate.value.Ok? ==> t.fate == t'.fate || (e.Return? && e.handled == t'.fate.value)
    requires e.Return? ==> t.phase.InHandler? && MayReturn(t.msg.body, local, e.handled)
    requires t'.fate.Some? && t'.fate.value.Ok? ==> source' == source
    requires Failed(t') ==>
               source' == source && t'.seen == t.seen
               && (t.fate == t'.fate || (e.Return? && e.handled == t'.fate.value))
    ensures TaskWalks(made, i, max, t', own, local, source')
  {
    hide FromSource, FailsFrom, Placed;
  }

  lemma OkTask(s: State, i: TaskId)
    requires Tasks(s) && i < |s.tasks|
    ensures TaskOk(s.tasks[i])
  {
  }

  lemma AllWalkStep(made: seq<Move>, w: World, m: Move)
    requires w.max < U64_SPAN - 1 && Within(w) && Inv(w.conn) && AllPlaced(w) && Can(w, m) && !m.CreatePath?
    requires SourcesCommitted(w.conn) && AllWalk(made, w) && m in made
    ensures AllWalk(made, Next(w, m)) && SourcesCommitted(Next(w, m).conn)
  {
    assert Tasks(w.conn) && Snapshots(w.conn) && LogOk(w.conn);
    WithinStep(w, m);
    if m.Conn? {
      SourcesStep(w.conn, m.e);
    }
    hide Inv, Tasks, Snapshots, LogOk, SourcesCommitted, WalksAt, AllPlaced, Enabled, Apply, WalkFrom, MayReturn;
    forall i | 0 <= i < |Next(w, m).objs| ensures WalksAt(made, Next(w, m), i) {
      if m.Conn? {
        ConnMoveWalks(made, w, m.e, i);
      } else {
        HandlerMoveWalks(made, w, m, i);
      }
    }
  }

  lemma {:induction false} WalkRun(made: seq<Move>, w: World, ms: seq<Move>)
    requires w.max < U64_SPAN - 1 && Within(w) && Inv(w.conn) && AllPlaced(w) && Lawful(w, ms)
    requires SourcesCommitted(w.conn) && AllWalk(made, w)
    requires forall k :: 0 <= k < |ms| ==> !ms[k].CreatePath? && ms[k] in made
    ensures AllWalk(made, After(w, ms)) && After(w, ms).max == w.max && SourcesCommitted(After(w, ms).conn)
    decreases |ms|
  {
    hide Can, Next, Within, Inv, AllPlaced, AllWalk, SourcesCommitted;
    if ms != [] {
      WithinStep(w, ms[0]);
      ConnStep(w, ms[0]);
      AllPlacedStep(w, ms[0]);
      AllWalkStep(made, w, ms[0]);
      WalkRun(made, Next(w, ms[0]), ms[1..]);
    }
  }

  /** In every state that any interleaving without file creation reaches, a walk that has succeeded has made an
      object with the path, depth and qids that walking its names from its source gives, in the file system that its
      own search met. The source is another object, still as it was, even when the walk was of a fid onto itself. */
  lemma {:induction false} WalksStartAtTheirSource(root: Path, max: u64, ms: seq<Move>, i: TaskId)
    requires max < U64_SPAN - 1 && Lawful(Start(root, max), ms)
    requires forall k :: 0 <= k < |ms| ==> !ms[k].CreatePath?
    requires var s := After(Start(root, max), ms).conn;
             i < |s.tasks| && s.tasks[i].msg.body.TWalk? && s.tasks[i].fate.Some? && s.tasks[i].fate.value.Ok?
    ensures var w := After(Start(root, max), ms); var t := w.conn.tasks[i];
            && i < |w.objs| && HasSource(w, i) && t.fate.value.value.RWalk?
            && HasCommitted(w.conn, Source(t).value) && Source(t).value != i
            && exists qidAt: QIdAt ::
                 && Search(i, qidAt) in ms
                 && WalkFrom(qidAt, w.objs[Source(t).value].path, w.objs[Source(t).value].depth,
                             t.msg.body.wnames, max)
                    == Ok(Walked(w.objs[i].path, w.objs[i].depth, t.fate.value.value.wqids))
  {
    InvInit();
    WalkRun(ms, Start(root, max), ms);
    var w := After(Start(root, max), ms);
    assert WalksAt(ms, w, i);
    hide WalkFrom, Lawful, After, Inv;
  }

  /** And a walk that has failed, other than for its source not being bound, has failed with the error that walking
      from its source gives in the file system that its own search met. */
  lemma {:induction false} FailedWalks(root: Path, max: u64, ms: seq<Move>, i: TaskId)
    requires max < U64_SPAN - 1 && Lawful(Start(root, max), ms)
    requires forall k :: 0 <= k < |ms| ==> !ms[k].CreatePath?
    requires var s := After(Start(root, max), ms).conn;
             i < |s.tasks| && s.tasks[i].msg.body.TWalk? && Failed(s.tasks[i])
    ensures var w := After(Start(root, max), ms); var t := w.conn.tasks[i];
            && |w.objs| == |w.conn.tasks| && HasSource(w, i)
            && exists qidAt: QIdAt ::
                 && Search(i, qidAt) in ms
                 && WalkFrom(qidAt, w.objs[Source(t).value].path, w.objs[Source(t).value].depth,
                             t.msg.body.wnames, max)
                    == Err(t.fate.value.error)
  {
    InvInit();
    WalkRun(ms, Start(root, max), ms);
    var w := After(Start(root, max), ms);
    assert WalksAt(ms, w, i);
    hide WalkFrom, Lawful, After, Inv;
  }

  /** So if the file system stays as it is, that is walking from the source in it. */
  lemma {:induction false} StableWalks(root: Path, max: u64, fs: QIdAt, ms: seq<Move>, i: TaskId)
    requires max < U64_SPAN - 1 && Lawful(Start(root, max), ms)
    requires forall k :: 0 <= k < |ms| ==> !ms[k].CreatePath? && (ms[k].Search? ==> ms[k].qidAt == fs)
    requires var s := After(Start(root, max), ms).conn;
             i < |s.tasks| && s.tasks[i].msg.body.TWalk? && s.tasks[i].fate.Some? && s.tasks[i].fate.value.Ok?
    ensures var w := After(Start(root, max), ms); var t := w.conn.tasks[i];
            && i < |w.objs| && HasSource(w, i) && t.fate.value.value.RWalk?
            && WalkFrom(fs, w.objs[Source(t).value].path, w.objs[Source(t).value].depth, t.msg.body.wnames, max)
               == Ok(Walked(w.objs[i].path, w.objs[i].depth, t.fate.value.value.wqids))
  {
    WalksStartAtTheirSource(root, max, ms, i);
    hide WalkFrom, Lawful, After, Inv;
  }

  /** A walk of a fid onto itself binds the fid to the object the walk has made, once it has succeeded and until
      another change to that fid; if it fails it changes no binding, and nothing is ever bound to that object. */
  lemma {:induction false} SelfWalkRebinds(es: seq<Event>, i: TaskId)
    requires Legal(Init, es)
    requires var s := Exec(Init, es); i < |s.tasks| && s.tasks[i].msg.body.TWalk? && s.tasks[i].fate.Some?
    requires Exec(Init, es).tasks[i].msg.body.fid == Exec(Init, es).tasks[i].msg.body.newfid
    ensures var s := Exec(Init, es); var f := s.tasks[i].msg.body.fid;
            && (HasCommitted(s, i) ==>
                  exists p :: 0 <= p < |s.log| && s.log[p] == Commit(i, Insert(f)) &&
                    ((forall q :: p < q < |s.log| ==> s.log[q].change.fid != f) ==> f in s.table && s.table[f] == i))
            && (s.tasks[i].fate.value.Err? ==>
                  && (forall q :: 0 <= q < |s.log| ==> s.log[q].id != i)
                  && (forall g :: g in s.table ==> s.table[g] != i))
  {
    TableIsCommitLog(es);
    var s := Exec(Init, es);
    hide Legal, Exec, Fold;
    if HasCommitted(s, i) {
      var p :| 0 <= p < |s.log| && s.log[p].id == i;
      if forall q :: p < q < |s.log| ==> s.log[q].change.fid != s.log[p].change.fid {
        LastEntryDecides(s.log, p);
      }
    }
  }
}
