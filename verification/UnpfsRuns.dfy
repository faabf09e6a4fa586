/** The Unix file server behind a connection: the steps of its handlers interleave with each other and with the
    steps of the connection.

    The handlers that store into fid objects are taken apart into single reads and writes of one field under its
    own lock. Other handlers return what they like. */
module UnpfsRuns {
  import opened Wrappers
  import opened Bytes
  import opened Fcall
  import opened FidTable
  import opened Connection
  import opened Safety
  import opened Runs
  import opened Walk

  /** The fields of a fid object that decide where it is. */
  datatype Aux = Aux(path: Path, depth: u64)

  /** How far a handler has got. */
  datatype Local =
    | Fresh
    | GotPath(path: Path)
    | GotBoth(path: Path, depth: u64)
    | NotFound(e: Errno)
    | Arrived(w: Walked)
    | HalfStored(w: Walked)
    | Stored(qids: seq<QId>)
    | Rooted
    | Zeroed
    | Created

  /** `objs[i]` is the object that request `i` was given for the fid it creates, if it creates one. */
  datatype World = World(root: Path, max: u64, conn: State, objs: seq<Aux>, locals: seq<Local>)

  function Start(root: Path, max: u64): World {
    World(root, max, Init, [], [])
  }

  datatype Move =
    | Conn(e: Event)
    | ReadPath(id: TaskId)
    | ReadDepth(id: TaskId)
    | Search(id: TaskId, qidAt: QIdAt)
    | StorePath(id: TaskId)
    | StoreDepth(id: TaskId)
    | AttachPath(id: TaskId)
    | AttachDepth(id: TaskId)
    | CreatePath(id: TaskId)

  function BodyOf(w: World, id: TaskId): FCall
    requires id < |w.conn.tasks|
  {
    w.conn.tasks[id].msg.body
  }

  predicate InHandlerAt(w: World, id: TaskId, local: Local) {
    At(w.conn, id, InHandler) && id < |w.locals| && id < |w.objs| && w.locals[id] == local
  }

  /** The object that a handler was given for the fid its request is about. */
  function Source(t: Task): Option<TaskId> {
    if t.seen.Some? && t.seen.value.Ok? && t.seen.value.value != [] then Some(t.seen.value.value[0]) else None
  }

  predicate HasSource(w: World, id: TaskId)
    requires id < |w.conn.tasks|
  {
    Source(w.conn.tasks[id]).Some? && Source(w.conn.tasks[id]).value < |w.objs|
  }

  /** What a handler may return once it has got this far. */
  predicate MayReturn(body: FCall, local: Local, handled: Result<FCall, Errno>) {
    match body
    case TWalk(_, _, _) =>
      (local.NotFound? && handled == Err(local.e)) || (local.Stored? && handled == Ok(RWalk(local.qids)))
    case TAttach(_, _, _, _, _) => local.Zeroed? && (handled.Ok? ==> handled.value.RAttach?)
    case TAuth(_, _, _, _) => handled == Err(EOPNOTSUPP)
    case TxAttrWalk(_, _, _) => handled == Err(EOPNOTSUPP)
    case _ => true
  }

  predicate Can(w: World, m: Move) {
    |w.locals| == |w.objs| == |w.conn.tasks| &&
    match m
    case Conn(e) => Enabled(w.conn, e) && (e.Return? ==> MayReturn(BodyOf(w, e.id), w.locals[e.id], e.handled))
    case ReadPath(i) =>
      InHandlerAt(w, i, Fresh) && (BodyOf(w, i).TWalk? || BodyOf(w, i).TlCreate?) && HasSource(w, i)
    case ReadDepth(i) =>
      At(w.conn, i, InHandler) && w.locals[i].GotPath? && BodyOf(w, i).TWalk? && HasSource(w, i)
    case Search(i, _) => At(w.conn, i, InHandler) && w.locals[i].GotBoth? && BodyOf(w, i).TWalk?
    case StorePath(i) => At(w.conn, i, InHandler) && w.locals[i].Arrived? && BodyOf(w, i).TWalk?
    case StoreDepth(i) => At(w.conn, i, InHandler) && w.locals[i].HalfStored? && BodyOf(w, i).TWalk?
    case AttachPath(i) => InHandlerAt(w, i, Fresh) && BodyOf(w, i).TAttach?
    case AttachDepth(i) => InHandlerAt(w, i, Rooted) && BodyOf(w, i).TAttach?
    case CreatePath(i) =>
      At(w.conn, i, InHandler) && w.locals[i].GotPath? && BodyOf(w, i).TlCreate? && HasSource(w, i)
  }

  function Next(w: World, m: Move): World
    requires Can(w, m)
  {
    match m
    case Conn(Receive(msg)) =>
      w.(conn := Apply(w.conn, Receive(msg)), objs := w.objs + [Aux([], 0)], locals := w.locals + [Fresh])
    case Conn(e) => w.(conn := Apply(w.conn, e))
    case ReadPath(i) => w.(locals := w.locals[i := GotPath(w.objs[Source(w.conn.tasks[i]).value].path)])
    case ReadDepth(i) =>
      w.(locals := w.locals[i := GotBoth(w.locals[i].path, w.objs[Source(w.conn.tasks[i]).value].depth)])
    case Search(i, qidAt) =>
      var res := WalkFrom(qidAt, w.locals[i].path, w.locals[i].depth, BodyOf(w, i).wnames, w.max);
      w.(locals := w.locals[i := if res.Ok? then Arrived(res.value) else NotFound(res.error)])
    case StorePath(i) =>
      var got := w.locals[i].w;
      w.(locals := w.locals[i := HalfStored(got)], objs := w.objs[i := w.objs[i].(path := got.path)])
    case StoreDepth(i) =>
      var got := w.locals[i].w;
      w.(locals := w.locals[i := Stored(got.qids)], objs := w.objs[i := w.objs[i].(depth := got.depth)])
    case AttachPath(i) => w.(locals := w.locals[i := Rooted], objs := w.objs[i := w.objs[i].(path := w.root)])
    case AttachDepth(i) => w.(locals := w.locals[i := Zeroed], objs := w.objs[i := w.objs[i].(depth := 0)])
    case CreatePath(i) =>
      var src, path := Source(w.conn.tasks[i]).value, w.locals[i].path + [BodyOf(w, i).name];
      w.(locals := w.locals[i := Created], objs := w.objs[src := w.objs[src].(path := path)])
  }

  predicate Lawful(w: World, ms: seq<Move>)
    decreases |ms|
  {
    ms == [] || (Can(w, ms[0]) && Lawful(Next(w, ms[0]), ms[1..]))
  }

  function After(w: World, ms: seq<Move>): World
    requires Lawful(w, ms)
    decreases |ms|
  {
    if ms == [] then w else After(Next(w, ms[0]), ms[1..])
  }

  /** The connection's own invariants hold whatever the handlers do. */
  lemma ConnStep(w: World, m: Move)
    requires Inv(w.conn) && Can(w, m)
    ensures Inv(Next(w, m).conn)
  {
    hide Inv, Apply, Enabled, WalkFrom, MayReturn;
    if m.Conn? {
      InvStep(w.conn, m.e);
    }
  }

  // ---- The depth limit

  predicate LocalWithin(local: Local, max: u64) {
    && (local.GotBoth? ==> local.depth <= max)
    && (local.Arrived? || local.HalfStored? ==> local.w.depth <= max)
  }

  predicate Within(w: World) {
    && |w.objs| == |w.locals| == |w.conn.tasks|
    && (forall i :: 0 <= i < |w.objs| ==> w.objs[i].depth <= w.max && LocalWithin(w.locals[i], w.max))
    && (forall i :: 0 <= i < |w.locals| && w.locals[i].GotBoth? ==> BodyOf(w, i).TWalk?)
  }

  lemma SearchWithin(qidAt: QIdAt, path: Path, depth: u64, names: seq<Name>, max: u64)
    requires max < U64_SPAN - 1 && depth <= max
    ensures var res := WalkFrom(qidAt, path, depth, names, max); res.Ok? ==> res.value.depth <= max
  {
    if WalkFrom(qidAt, path, depth, names, max).Ok? {
      WalkOnKeepsDepth(qidAt, path, Walked(path, depth, []), names, max);
    }
  }

  lemma WithinStep(w: World, m: Move)
    requires w.max < U64_SPAN - 1 && Within(w) && Can(w, m)
    ensures Within(Next(w, m)) && Next(w, m).max == w.max && Next(w, m).root == w.root
  {
    if m.Conn? {
      ConnWithin(w, m.e);
    } else {
      HandlerWithin(w, m);
    }
    hide *;
  }

  lemma ConnWithin(w: World, e: Event)
    requires Within(w) && Can(w, Conn(e))
    ensures var w' := Next(w, Conn(e)); Within(w') && w'.max == w.max && w'.root == w.root
  {
    OthersStay(w.conn, e);
    hide Apply, Enabled, MayReturn;
  }

  lemma HandlerWithin(w: World, m: Move)
    requires w.max < U64_SPAN - 1 && Within(w) && Can(w, m) && !m.Conn?
    ensures Within(Next(w, m)) && Next(w, m).max == w.max && Next(w, m).root == w.root
  {
    hide Apply, Enabled, WalkFrom, MayReturn;
    if m.Search? {
      SearchWithin(m.qidAt, w.locals[m.id].path, w.locals[m.id].depth, BodyOf(w, m.id).wnames, w.max);
    }
  }

  lemma {:induction false} WithinRun(w: World, ms: seq<Move>)
    requires w.max < U64_SPAN - 1 && Within(w) && Inv(w.conn) && Lawful(w, ms)
    ensures Within(After(w, ms)) && Inv(After(w, ms).conn) && After(w, ms).max == w.max && After(w, ms).root == w.root
    decreases |ms|
  {
    hide Can, Next, Within, Inv;
    if ms != [] {
      WithinStep(w, ms[0]);
      ConnStep(w, ms[0]);
      WithinRun(Next(w, ms[0]), ms[1..]);
    }
  }

  /** The walk that a request is about to make increments its counter, at each name that it can get to, without
      wrapping. */
  ghost predicate CountsExactly(w: World, i: TaskId)
    requires i < |w.locals| == |w.conn.tasks| && w.locals[i].GotBoth? && BodyOf(w, i).TWalk?
  {
    var names, depth := BodyOf(w, i).wnames, w.locals[i].depth;
    forall k :: 0 <= k < |names| && Plain(names[k]) && (forall j :: 0 <= j < k ==> !TooDeep(depth, names, j, w.max)) ==>
      Descend(DepthOf(depth, names[..k]), names[k]) == DepthOf(depth, names[..k]) + 1 < U64_SPAN
  }

  /** In every state that any interleaving reaches, every bound fid is at most `max` deep, and so is every object
      still being made; and no walk about to be made wraps its counter. */
  lemma {:induction false} DepthLimit(root: Path, max: u64, ms: seq<Move>)
    requires max < U64_SPAN - 1 && Lawful(Start(root, max), ms)
    ensures var w := After(Start(root, max), ms);
            && |w.locals| == |w.objs| == |w.conn.tasks|
            && (forall i :: 0 <= i < |w.objs| ==> w.objs[i].depth <= max)
            && (forall fid :: fid in w.conn.table ==>
                  w.conn.table[fid] < |w.objs| && w.objs[w.conn.table[fid]].depth <= max)
            && (forall i :: 0 <= i < |w.locals| && w.locals[i].GotBoth? ==> BodyOf(w, i).TWalk? && CountsExactly(w, i))
  {
    InvInit();
    WithinRun(Start(root, max), ms);
    var w := After(Start(root, max), ms);
    assert LogOk(w.conn);
    hide Inv, LogOk, After, Lawful;
    forall fid | fid in w.conn.table ensures w.conn.table[fid] < |w.objs| {
      BindingsCommitted(w.conn, fid);
    }
    forall i | 0 <= i < |w.locals| && w.locals[i].GotBoth? ensures CountsExactly(w, i) {
      WalkCountsExactly(w, i);
    }
  }

  lemma WalkCountsExactly(w: World, i: TaskId)
    requires w.max < U64_SPAN - 1 && Within(w) && i < |w.locals| && w.locals[i].GotBoth?
    ensures CountsExactly(w, i)
  {
    var names, depth := BodyOf(w, i).wnames, w.locals[i].depth;
    forall k | 0 <= k < |names| && Plain(names[k]) && (forall j :: 0 <= j < k ==> !TooDeep(depth, names, j, w.max))
      ensures Descend(DepthOf(depth, names[..k]), names[k]) == DepthOf(depth, names[..k]) + 1 < U64_SPAN
    {
      NextDoesNotWrap(depth, names, k, w.max);
    }
  }

  // ---- The depth is that of the path

  lemma BindingsCommitted(s: State, fid: u32)
    requires LogOk(s) && fid in s.table
    ensures HasCommitted(s, s.table[fid]) && NewFid(s.tasks[s.table[fid]].msg.body) == Some(fid)
  {
    BindingsComeFromLog(s.log, fid);
    hide Fold;
  }

  /** The object that a handler works from is bound at that moment, by a request that has succeeded. */
  lemma SourceIsBound(s: State, i: TaskId)
    requires Tasks(s) && Snapshots(s) && LogOk(s) && At(s, i, InHandler) && Looked(s.tasks[i].msg.body) != []
    ensures var body := s.tasks[i].msg.body; var src := Source(s.tasks[i]);
            && src.Some? && Looked(body)[0] in s.table && src.value == s.table[Looked(body)[0]]
            && HasCommitted(s, src.value) && NewFid(s.tasks[src.value].msg.body).Some?
  {
    hide Looked, LogOk, ChangeOf, Sendable, IsR;
    var body := s.tasks[i].msg.body;
    assert TaskOk(s.tasks[i]) && Lookup(s.table, body) == LookupAll(s.table, Looked(body));
    LookupBound(s.table, Looked(body));
    BindingsCommitted(s, Looked(body)[0]);
  }

  lemma CanRead(w: World, i: TaskId)
    requires |w.objs| == |w.locals| == |w.conn.tasks| && Tasks(w.conn) && Snapshots(w.conn) && LogOk(w.conn)
    requires InHandlerAt(w, i, Fresh) && (BodyOf(w, i).TWalk? || BodyOf(w, i).TlCreate?)
    ensures Can(w, ReadPath(i))
  {
    NamesOneFid(BodyOf(w, i));
    hide Tasks, Snapshots, LogOk, Looked, ChangeOf, Enabled, MayReturn;
    SourceIsBound(w.conn, i);
  }

  lemma NamesOneFid(body: FCall)
    ensures body.TWalk? || body.TlCreate? ==> Looked(body) == [body.fid]
  {
  }

  lemma {:induction false} InvAfter(w: World, ms: seq<Move>)
    requires Inv(w.conn) && |w.objs| == |w.locals| == |w.conn.tasks| && Lawful(w, ms)
    ensures var w' := After(w, ms); Inv(w'.conn) && |w'.objs| == |w'.locals| == |w'.conn.tasks|
    decreases |ms|
  {
    hide Inv;
    if ms != [] {
      ConnStep(w, ms[0]);
      StaysEven(w, ms[0]);
      hide Can, Next;
      InvAfter(Next(w, ms[0]), ms[1..]);
    }
  }

  lemma StaysEven(w: World, m: Move)
    requires Can(w, m)
    ensures |Next(w, m).objs| == |Next(w, m).locals| == |Next(w, m).conn.tasks|
  {
    if m.Conn? {
      OthersStay(w.conn, m.e);
    }
    hide Apply, Enabled, WalkFrom, MayReturn;
  }

  /** So a handler that needs an object can always go on. */
  lemma {:induction false} HandlersCanRead(root: Path, max: u64, ms: seq<Move>, i: TaskId)
    requires Lawful(Start(root, max), ms)
    requires var w := After(Start(root, max), ms);
             InHandlerAt(w, i, Fresh) && (BodyOf(w, i).TWalk? || BodyOf(w, i).TlCreate?)
    ensures Can(After(Start(root, max), ms), ReadPath(i))
  {
    InvInit();
    InvAfter(Start(root, max), ms);
    hide TableLock, WriterLock, Tasks, Snapshots, LogOk, SentOk, WireOk, Lawful, After, Can;
    CanRead(After(Start(root, max), ms), i);
  }

  /** A place under the root whose depth is the deepest suffix of the names pushed. */
  ghost predicate Placed(root: Path, a: Aux) {
    root <= a.path && DeepestSuffix(a.path[|root|..], a.depth)
  }

  predicate Makes(body: FCall) {
    body.TWalk? || body.TAttach?
  }

  /** What holds of one request: once it has succeeded the object it made is in place, and until then its handler
      has read and stored only such places. */
  ghost predicate TaskPlaced(root: Path, t: Task, own: Aux, local: Local, source: Option<Aux>) {
    && (t.fate.Some? && t.fate.value.Ok? ==>
          && !t.msg.body.TAuth? && !t.msg.body.TxAttrWalk? && (Makes(t.msg.body) ==> Placed(root, own))
          && (t.msg.body.TAttach? ==> own == Aux(root, 0)))
    && (t.phase.Spawned? || t.phase.Locked? ==> local.Fresh?)
    && (t.phase.InHandler? && t.msg.body.TWalk? ==>
          && (local.GotPath? && source.Some? ==> local.path == source.value.path)
          && (local.GotBoth? ==> Placed(root, Aux(local.path, local.depth)))
          && (local.Arrived? ==> Placed(root, Aux(local.w.path, local.w.depth)))
          && (local.HalfStored? ==> Placed(root, Aux(local.w.path, local.w.depth)) && own.path == local.w.path)
          && (local.Stored? ==> Placed(root, own)))
    && (t.phase.InHandler? && t.msg.body.TAttach? ==>
          (local.Rooted? ==> own.path == root) && (local.Zeroed? ==> own == Aux(root, 0)))
  }

  function SourceAux(w: World, i: TaskId): Option<Aux>
    requires i < |w.conn.tasks|
  {
    if HasSource(w, i) then Some(w.objs[Source(w.conn.tasks[i]).value]) else None
  }

  ghost predicate PlacedAt(w: World, i: TaskId)
    requires i < |w.objs| == |w.locals| == |w.conn.tasks|
  {
    TaskPlaced(w.root, w.conn.tasks[i], w.objs[i], w.locals[i], SourceAux(w, i))
  }

  ghost predicate AllPlaced(w: World) {
    && |w.objs| == |w.locals| == |w.conn.tasks|
    && (forall i :: 0 <= i < |w.objs| ==> PlacedAt(w, i))
  }

  lemma RootPlaced(root: Path)
    ensures Placed(root, Aux(root, 0))
  {
    ChainDepth(root, [], 0);
  }

  /** The object that a walk works from is in place, and its own request is no longer in a handler. */
  lemma SourcePlaced(w: World, i: TaskId)
    requires Tasks(w.conn) && Snapshots(w.conn) && LogOk(w.conn) && AllPlaced(w)
    requires At(w.conn, i, InHandler) && BodyOf(w, i).TWalk?
    ensures HasSource(w, i) && Placed(w.root, w.objs[Source(w.conn.tasks[i]).value])
    ensures !w.conn.tasks[Source(w.conn.tasks[i]).value].phase.InHandler?
  {
    SourceIsBound(w.conn, i);
    var src := Source(w.conn.tasks[i]).value;
    assert PlacedAt(w, src);
    hide Placed, LogOk;
  }

  /** What a step of a walk makes of its own request. */
  lemma WalkMovePlaced(w: World, m: Move)
    requires w.max < U64_SPAN - 1 && Within(w) && Inv(w.conn) && AllPlaced(w)
    requires Can(w, m) && !m.Conn? && !m.CreatePath? && BodyOf(w, m.id).TWalk?
    ensures PlacedAt(Next(w, m), m.id)
  {
    var i := m.id;
    assert PlacedAt(w, i) && Tasks(w.conn) && Snapshots(w.conn) && LogOk(w.conn);
    assert w.conn.tasks[i].fate == None;
    SourcePlaced(w, i);
    hide Inv, Tasks, Snapshots, LogOk, Placed, WalkFrom, Enabled, Apply, MayReturn, AllPlaced, IsR, Sendable,
         TaskPlaced;
    var w' := Next(w, m);
    if m.Search? {
      SearchPlaced(w.root, m.qidAt, w.locals[i].path, w.locals[i].depth, BodyOf(w, i).wnames, w.max);
    }
    WalkTaskPlaced(w.root, w.conn.tasks[i], w.objs[i], w.locals[i], SourceAux(w, i), w'.objs[i], w'.locals[i]);
    assert SourceAux(w', i) == SourceAux(w, i) || !w'.locals[i].GotPath?;
    assert w'.conn == w.conn && w'.root == w.root;
    WalkTaskSource(w.root, w.conn.tasks[i], w'.objs[i], w'.locals[i], SourceAux(w, i), SourceAux(w', i));
  }

  lemma WalkTaskSource(root: Path, t: Task, own: Aux, local: Local, source: Option<Aux>, source': Option<Aux>)
    requires TaskPlaced(root, t, own, local, source) && (source' == source || !local.GotPath?)
    requires t.phase.InHandler? && t.msg.body.TWalk?
    ensures TaskPlaced(root, t, own, local, source')
  {
    hide Placed;
  }

  /** The single steps of a walk's handler, on the values they read and store. */
  lemma WalkTaskPlaced(root: Path, t: Task, own: Aux, local: Local, source: Option<Aux>, own': Aux, local': Local)
    requires TaskPlaced(root, t, own, local, source) && t.phase.InHandler? && t.msg.body.TWalk? && t.fate == None
    requires source.Some? && Placed(root, source.value)
    requires
      || (local.Fresh? && local' == GotPath(source.value.path) && own' == own)
      || (local.GotPath? && local' == GotBoth(local.path, source.value.depth) && own' == own)
      || (local.GotBoth? && local'.NotFound? && own' == own)
      || (local.GotBoth? && local'.Arrived? && own' == own && Placed(root, Aux(local'.w.path, local'.w.depth)))
      || (local.Arrived? && local' == HalfStored(local.w) && own' == own.(path := local.w.path))
      || (local.HalfStored? && local' == Stored(local.w.qids) && own' == own.(depth := local.w.depth))
    ensures TaskPlaced(root, t, own', local', source)
  {
    hide Placed;
    assert source.value == Aux(source.value.path, source.value.depth);
    assert local.HalfStored? && own.path == local.w.path ==>
        own.(depth := local.w.depth) == Aux(local.w.path, local.w.depth);
  }

  /** What a step of another handler makes of its own request. */
  lemma OtherHandlerPlaced(w: World, m: Move)
    requires Inv(w.conn) && AllPlaced(w)
    requires Can(w, m) && !m.Conn? && !m.CreatePath? && !BodyOf(w, m.id).TWalk?
    ensures PlacedAt(Next(w, m), m.id)
  {
    assert PlacedAt(w, m.id) && Tasks(w.conn);
    assert w.conn.tasks[m.id].fate == None;
    RootPlaced(w.root);
    hide Inv, Tasks, Placed, WalkFrom, Enabled, Apply, MayReturn, AllPlaced, IsR, Sendable;
  }

  lemma SearchPlaced(root: Path, qidAt: QIdAt, path: Path, depth: u64, names: seq<Name>, max: u64)
    requires max < U64_SPAN - 1 && depth <= max && Placed(root, Aux(path, depth))
    ensures var res := WalkFrom(qidAt, path, depth, names, max);
            res.Ok? ==> Placed(root, Aux(res.value.path, res.value.depth))
  {
    if WalkFrom(qidAt, path, depth, names, max).Ok? {
      WalkOnKeepsDepth(qidAt, root, Walked(path, depth, []), names, max);
    }
  }

  /** A step of a handler leaves the other requests as they are: it stores only into the object of its own
      request, which no other handler works from. */
  lemma OtherMovePlaced(w: World, m: Move, j: TaskId)
    requires Within(w) && Inv(w.conn) && AllPlaced(w) && Can(w, m) && !m.Conn? && !m.CreatePath?
    requires j < |w.objs| && j != m.id
    ensures PlacedAt(Next(w, m), j)
  {
    assert PlacedAt(w, j) && Tasks(w.conn) && Snapshots(w.conn) && LogOk(w.conn);
    hide Inv, Tasks, Snapshots, LogOk, Placed, WalkFrom, Enabled, Apply, MayReturn;
    if At(w.conn, j, InHandler) && BodyOf(w, j).TWalk? {
      SourcePlaced(w, j);
      assert Source(w.conn.tasks[j]).value != m.id;
    }
  }

  /** A step of the connection moves one request, and lets it succeed only with its object in place. */
  lemma ConnMovePlaced(w: World, e: Event, i: TaskId)
    requires Within(w) && Inv(w.conn) && AllPlaced(w) && Can(w, Conn(e)) && !e.Receive?
    requires i < |w.objs| && i < |Next(w, Conn(e)).objs| == |Next(w, Conn(e)).locals| == |Next(w, Conn(e)).conn.tasks|
    ensures PlacedAt(Next(w, Conn(e)), i)
  {
    assert PlacedAt(w, i) && Tasks(w.conn);
    hide Inv, Apply, Enabled, MayReturn, TaskPlaced;
    OthersStay(w.conn, e);
    if !e.Close? && i == e.id {
      assert TaskOk(w.conn.tasks[i]);
      MovedTask(w.conn, e);
      MovedTaskPlaced(w.root, w.conn.tasks[i], Apply(w.conn, e).tasks[i], w.objs[i], w.locals[i], SourceAux(w, i),
                      SourceAux(Next(w, Conn(e)), i), e);
    }
  }

  lemma MovedTaskPlaced(
    root: Path, t: Task, t': Task, own: Aux, local: Local, source: Option<Aux>, source': Option<Aux>, e: Event)
    requires TaskPlaced(root, t, own, local, source) && t'.msg == t.msg && !t'.phase.Spawned?
    requires (t'.phase.InHandler? ==> t.phase.Locked?) && (t'.phase.Locked? ==> t.phase.Spawned?)
    requires t'.fate.Some? && t'.fate.value.Ok? ==> t.fate == t'.fate || (e.Return? && e.handled == t'.fate.value)
    requires e.Return? ==> t.phase.InHandler? && MayReturn(t.msg.body, local, e.handled)
    ensures TaskPlaced(root, t', own, local, source')
  {
    RootPlaced(root);
    hide Placed;
  }

  /** How a step of the connection moves its request: only a lookup enters a handler, and only a return leaves
      it; success is a handler's. */
  lemma MovedTask(s: State, e: Event)
    requires Enabled(s, e) && !e.Receive? && !e.Close? && e.id < |s.tasks| && TaskOk(s.tasks[e.id])
    ensures e.id < |Apply(s, e).tasks|
    ensures var t, t' := s.tasks[e.id], Apply(s, e).tasks[e.id];
            && t'.msg == t.msg && !t'.phase.Spawned?
            && (t'.phase.InHandler? ==> t.phase.Locked?) && (t'.phase.Locked? ==> t.phase.Spawned?)
            && (t'.fate.Some? && t'.fate.value.Ok? ==> t.fate == t'.fate || (e.Return? && e.handled == t'.fate.value))
            && (e.Return? ==> t.phase.InHandler?)
            && (t'.fate.Some? && t'.seen.Some? && t'.seen.value.Ok? ==>
                  !e.LookUp? && t'.seen == t.seen && (t'.fate == t.fate || (e.Return? && e.handled == t'.fate.value)))
  {
    hide Sendable, Lookup, ChangeOf, Changed;
    match e
    case ReadLock(_) =>
    case LookUp(_) =>
    case Return(_, _) =>
    case WriteLock(_) =>
    case Change(_) =>
    case Drop(_) =>
    case StartReply(_) =>
    case Write(_, _) =>
    case Break(_, _) =>
  }

  lemma ReceivePlaced(w: World, msg: Msg, i: TaskId)
    requires Within(w) && Inv(w.conn) && AllPlaced(w) && Can(w, Conn(Receive(msg))) && i <= |w.objs|
    ensures |Next(w, Conn(Receive(msg))).conn.tasks| == |w.objs| + 1
    ensures PlacedAt(Next(w, Conn(Receive(msg))), i)
  {
    OthersStay(w.conn, Receive(msg));
    if i < |w.objs| {
      assert PlacedAt(w, i);
      if At(w.conn, i, InHandler) && BodyOf(w, i).TWalk? {
        SourcePlaced(w, i);
      }
    }
    hide Placed, Inv, Enabled;
  }

  lemma AllPlacedStep(w: World, m: Move)
    requires w.max < U64_SPAN - 1 && Within(w) && Inv(w.conn) && AllPlaced(w) && Can(w, m) && !m.CreatePath?
    ensures AllPlaced(Next(w, m))
  {
    WithinStep(w, m);
    forall i | 0 <= i < |Next(w, m).objs| ensures PlacedAt(Next(w, m), i) {
      if m.Conn? {
        if m.e.Receive? {
          ReceivePlaced(w, m.e.msg, i);
        } else {
          ConnMovePlaced(w, m.e, i);
        }
      } else if i == m.id {
        if BodyOf(w, i).TWalk? { WalkMovePlaced(w, m); } else { OtherHandlerPlaced(w, m); }
      } else {
        OtherMovePlaced(w, m, i);
      }
    }
  }

  lemma {:induction false} PlacedRun(w: World, ms: seq<Move>)
    requires w.max < U64_SPAN - 1 && Within(w) && Inv(w.conn) && AllPlaced(w) && Lawful(w, ms)
    requires forall k :: 0 <= k < |ms| ==> !ms[k].CreatePath?
    ensures AllPlaced(After(w, ms)) && Inv(After(w, ms).conn) && After(w, ms).root == w.root
    decreases |ms|
  {
    hide Can, Next, Within, Inv, AllPlaced;
    if ms != [] {
      WithinStep(w, ms[0]);
      ConnStep(w, ms[0]);
      AllPlacedStep(w, ms[0]);
      PlacedRun(Next(w, ms[0]), ms[1..]);
    }
  }

  /** In every state that any interleaving without file creation reaches, every bound fid is under the root, and
      its depth is the largest net descent of any suffix of its path; so no suffix of the path of a bound fid
      descends by more than `max`. A fid bound by an attach is at the root. */
  lemma {:induction false} BoundFidsArePlaced(root: Path, max: u64, ms: seq<Move>, fid: u32)
    requires max < U64_SPAN - 1 && Lawful(Start(root, max), ms)
    requires forall k :: 0 <= k < |ms| ==> !ms[k].CreatePath?
    requires fid in After(Start(root, max), ms).conn.table
    ensures var w := After(Start(root, max), ms);
            && w.conn.table[fid] < |w.objs|
            && var a := w.objs[w.conn.table[fid]];
            && root <= a.path && DeepestSuffix(a.path[|root|..], a.depth)
            && (forall k :: |root| <= k <= |a.path| ==> Net(a.path[k..]) <= max)
            && w.conn.table[fid] < |w.conn.tasks| && (BodyOf(w, w.conn.table[fid]).TAttach? ==> a == Aux(root, 0))
  {
    InvInit();
    PlacedRun(Start(root, max), ms);
    WithinRun(Start(root, max), ms);
    var w := After(Start(root, max), ms);
    assert LogOk(w.conn);
    hide Inv, After, Lawful, LogOk, AllPlaced, DeepestSuffix, Net, HasCommitted;
    BindingsCommitted(w.conn, fid);
    BoundIsPlaced(w, w.conn.table[fid]);
    SuffixesWithin(root, w.objs[w.conn.table[fid]], max);
  }

  lemma SuffixesWithin(root: Path, a: Aux, max: u64)
    requires Placed(root, a) && a.depth <= max
    ensures forall k :: |root| <= k <= |a.path| ==> Net(a.path[k..]) <= max
  {
    hide Net;
    forall k | |root| <= k <= |a.path| ensures Net(a.path[k..]) <= max {
      assert a.path[k..] == a.path[|root|..][k - |root|..];
    }
  }

  lemma BoundIsPlaced(w: World, i: TaskId)
    requires AllPlaced(w) && HasCommitted(w.conn, i) && NewFid(BodyOf(w, i)).Some?
    ensures i < |w.objs| == |w.conn.tasks| && Placed(w.root, w.objs[i])
    ensures BodyOf(w, i).TAttach? ==> w.objs[i] == Aux(w.root, 0)
  {
    assert PlacedAt(w, i);
    hide Placed;
  }
}
