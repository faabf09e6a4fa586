/** Why file creation is set apart: it moves a fid and keeps its depth. */
module Creation {
  import opened Wrappers
  import opened Bytes
  import opened Fcall
  import opened FidTable
  import opened Connection
  import opened Walk
  import opened UnpfsRuns

  lemma {:induction false} OneMoreMove(w: World, ms: seq<Move>, m: Move)
    requires Lawful(w, ms) && Can(After(w, ms), m)
    ensures Lawful(w, ms + [m]) && After(w, ms + [m]) == Next(After(w, ms), m)
    decreases |ms|
  {
    hide Can, Next;
    if ms == [] {
      assert ms + [m] == [m] && [m][1..] == [];
      assert Lawful(Next(w, m), []);
    } else {
      OneMoreMove(Next(w, ms[0]), ms[1..], m);
      assert (ms + [m])[1..] == ms[1..] + [m];
    }
  }

  // ---- A fid is attached, and a file is created in it

  const ANSWER: FCall := RAttach(QId(0, 0, 0))

  function AttachTask(fid: u32, phase: Phase, seen: bool, done: bool): Task {
    Task(Msg(0, TAttach(fid, 0xFFFF_FFFF, [], [], 0)), phase, if seen then Some(Ok([])) else None,
         if done then Some(Ok(ANSWER)) else None)
  }

  function CreateTask(fid: u32, name: Name, phase: Phase): Task {
    Task(Msg(0, TlCreate(fid, name, 0, 0, 0)), phase, if phase.InHandler? then Some(Ok([0])) else None, None)
  }

  function Moves(fid: u32, name: Name): seq<Move> {
    [Conn(Receive(AttachTask(fid, Spawned, false, false).msg)), Conn(ReadLock(0)), Conn(LookUp(0)), AttachPath(0),
     AttachDepth(0), Conn(Return(0, Ok(ANSWER))), Conn(WriteLock(0)), Conn(Event.Change(0)),
     Conn(Receive(CreateTask(fid, name, Spawned).msg)), Conn(ReadLock(1)), Conn(LookUp(1)), ReadPath(1),
     CreatePath(1)]
  }

  /** The world after the first `k` moves. */
  function Stage(root: Path, max: u64, fid: u32, name: Name, k: nat): World {
    if k <= 8 then AttachStage(root, max, fid, k) else CreateStage(root, max, fid, name, k)
  }

  function AttachStage(root: Path, max: u64, fid: u32, k: nat): World {
    var start := Start(root, max);
    match k
    case 0 => start
    case 1 => World(root, max, Init.(tasks := [AttachTask(fid, Spawned, false, false)]), [Aux([], 0)], [Fresh])
    case 2 =>
      World(root, max, Init.(tasks := [AttachTask(fid, Locked, false, false)], readers := {0}), [Aux([], 0)], [Fresh])
    case 3 =>
      World(root, max, Init.(tasks := [AttachTask(fid, InHandler, true, false)], readers := {0}), [Aux([], 0)], [Fresh])
    case 4 =>
      World(root, max, Init.(tasks := [AttachTask(fid, InHandler, true, false)], readers := {0}), [Aux(root, 0)],
            [Rooted])
    case 5 =>
      World(root, max, Init.(tasks := [AttachTask(fid, InHandler, true, false)], readers := {0}), [Aux(root, 0)],
            [Zeroed])
    case 6 => World(root, max, Init.(tasks := [AttachTask(fid, WantWrite, true, true)]), [Aux(root, 0)], [Zeroed])
    case 7 =>
      World(root, max, Init.(tasks := [AttachTask(fid, Writing, true, true)], writer := Some(0)), [Aux(root, 0)],
            [Zeroed])
    case _ => World(root, max, Attached(fid), [Aux(root, 0)], [Zeroed])
  }

  /** A connection on which one fid is attached. */
  function Attached(fid: u32): State {
    Init.(tasks := [AttachTask(fid, Ready, true, true)], table := map[fid := 0], log := [Commit(0, Insert(fid))])
  }

  function CreateStage(root: Path, max: u64, fid: u32, name: Name, k: nat): World {
    var s := Attached(fid);
    match k
    case 9 =>
      World(root, max, s.(tasks := s.tasks + [CreateTask(fid, name, Spawned)]), [Aux(root, 0), Aux([], 0)],
            [Zeroed, Fresh])
    case 10 =>
      World(root, max, s.(tasks := s.tasks + [CreateTask(fid, name, Locked)], readers := {1}),
            [Aux(root, 0), Aux([], 0)], [Zeroed, Fresh])
    case 11 =>
      World(root, max, s.(tasks := s.tasks + [CreateTask(fid, name, InHandler)], readers := {1}),
            [Aux(root, 0), Aux([], 0)], [Zeroed, Fresh])
    case 12 =>
      World(root, max, s.(tasks := s.tasks + [CreateTask(fid, name, InHandler)], readers := {1}),
            [Aux(root, 0), Aux([], 0)], [Zeroed, GotPath(root)])
    case _ =>
      World(root, max, s.(tasks := s.tasks + [CreateTask(fid, name, InHandler)], readers := {1}),
            [Aux(root + [name], 0), Aux([], 0)], [Zeroed, Created])
  }

  lemma Requests(fid: u32, name: Name)
    ensures var attach := AttachTask(fid, Spawned, false, false).msg.body;
            var create := CreateTask(fid, name, Spawned).msg.body;
            && Lookup(map[], attach) == Ok([]) && ChangeOf(attach) == Some(Insert(fid))
            && Lookup(map[fid := 0], create) == Ok([0])
  {
    FileHandlersGet(map[fid := 0], CreateTask(fid, name, Spawned).msg.body);
    assert ObjectsOf(map[fid := 0], [fid]).value == [0];
  }

  lemma FirstMoves(root: Path, max: u64, fid: u32, name: Name, k: nat)
    requires k < 4
    ensures Can(AttachStage(root, max, fid, k), Moves(fid, name)[k])
    ensures Next(AttachStage(root, max, fid, k), Moves(fid, name)[k]) == AttachStage(root, max, fid, k + 1)
  {
    Requests(fid, name);
    hide Lookup, ChangeOf, Sendable, ReplyBytes, WalkFrom;
    match k
    case 0 =>
    case 1 =>
    case 2 =>
    case 3 =>
  }

  lemma LastMoves(root: Path, max: u64, fid: u32, name: Name, k: nat)
    requires 4 <= k < 8
    ensures Can(AttachStage(root, max, fid, k), Moves(fid, name)[k])
    ensures Next(AttachStage(root, max, fid, k), Moves(fid, name)[k]) == AttachStage(root, max, fid, k + 1)
  {
    Requests(fid, name);
    hide Lookup, ChangeOf, Sendable, ReplyBytes, WalkFrom;
    match k
    case 4 =>
    case 5 =>
    case 6 =>
    case 7 =>
  }

  lemma CreateMoves(root: Path, max: u64, fid: u32, name: Name, k: nat)
    requires 8 <= k < 13
    ensures Can(Stage(root, max, fid, name, k), Moves(fid, name)[k])
    ensures Next(Stage(root, max, fid, name, k), Moves(fid, name)[k]) == Stage(root, max, fid, name, k + 1)
  {
    Requests(fid, name);
    hide Lookup, ChangeOf, Sendable, ReplyBytes, WalkFrom;
    match k
    case 8 =>
    case 9 =>
    case 10 =>
    case 11 =>
    case 12 =>
  }

  lemma {:induction false} Reaches(root: Path, max: u64, fid: u32, name: Name, k: nat)
    requires k <= 13
    ensures var ms := Moves(fid, name)[..k];
            Lawful(Start(root, max), ms) && After(Start(root, max), ms) == Stage(root, max, fid, name, k)
  {
    assert |Moves(fid, name)| == 13;
    hide Can, Next, Moves, Attached, CreateStage;
    if k > 0 {
      Reaches(root, max, fid, name, k - 1);
      assert Moves(fid, name)[..k] == Moves(fid, name)[..k - 1] + [Moves(fid, name)[k - 1]];
      if k <= 4 {
        FirstMoves(root, max, fid, name, k - 1);
      } else if k <= 8 {
        LastMoves(root, max, fid, name, k - 1);
      } else {
        CreateMoves(root, max, fid, name, k - 1);
      }
      OneMoreMove(Start(root, max), Moves(fid, name)[..k - 1], Moves(fid, name)[k - 1]);
    }
  }

  /** What the other runs keep fails here: a fid is bound whose depth is not that of its deepest suffix. The name may be
      any but the two that stand for directories, which no file can have. */
  lemma CreationKeepsDepth(root: Path, max: u64, fid: u32, name: Name)
    requires Plain(name)
    ensures var ms := Moves(fid, name);
            && Lawful(Start(root, max), ms)
            && var w := After(Start(root, max), ms);
            && fid in w.conn.table && w.conn.table[fid] < |w.objs|
            && var a := w.objs[w.conn.table[fid]];
            && a == Aux(root + [name], 0) && !DeepestSuffix(a.path[|root|..], a.depth)
  {
    var ms := Moves(fid, name);
    Reaches(root, max, fid, name, 13);
    assert ms[..13] == ms;
    hide Lawful, After, Moves;
    assert (root + [name])[|root|..] == [name] && [name][0..] == [name];
    NetOfPlain([name]);
  }
}
