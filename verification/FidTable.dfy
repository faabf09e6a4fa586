/** One request against the table of fids, from start to end. */
module FidTable {
  import opened Wrappers
  import opened Bytes
  import opened Fcall

  type Errno = u32
  const EBADF: Errno := 9
  const EPROTO: Errno := 71
  const EOPNOTSUPP: Errno := 95

  /** A fid object is known by the request that created it, and a request by its place in arrival order. */
  type TaskId = nat
  type Table = map<u32, TaskId>

  // ---- Specification

  /** What a request looks up before its handler runs. The authentication fid of a `TAttach` is not looked
      up. */
  function Looked(body: FCall): seq<u32> {
    if body.TAttach? then [] else Fids(body)
  }

  function LookupAll(table: Table, fids: seq<u32>): Result<seq<TaskId>, Errno> {
    if fids == [] then Ok([])
    else if fids[0] !in table then Err(EBADF)
    else
      var rest :- LookupAll(table, fids[1..]);
      Ok([table[fids[0]]] + rest)
  }

  /** The objects handed to the handler, or the error that takes its place. */
  function Lookup(table: Table, body: FCall): Result<seq<TaskId>, Errno> {
    if IsR(body) then Err(EOPNOTSUPP) else LookupAll(table, Looked(body))
  }

  datatype Change = Remove(fid: u32) | Insert(fid: u32)

  /** What a successful request does to the table. */
  function ChangeOf(body: FCall): Option<Change> {
    match NewFid(body)
    case Some(fid) => Some(Insert(fid))
    case None => if body.TClunk? then Some(Remove(body.fid)) else None
  }

  function Changed(table: Table, id: TaskId, change: Change): Table {
    match change
    case Remove(fid) => table - {fid}
    case Insert(fid) => table[fid := id]
  }

  function Committed(table: Table, id: TaskId, body: FCall): Table {
    match ChangeOf(body)
    case Some(change) => Changed(table, id, change)
    case None => table
  }

  datatype Outcome = Outcome(table: Table, seen: Result<seq<TaskId>, Errno>, fate: Result<FCall, Errno>)

  /** A request processed on its own: look up, run the handler, change the table if it succeeded. */
  function Process(table: Table, id: TaskId, body: FCall, handled: Result<FCall, Errno>): Outcome {
    match Lookup(table, body)
    case Err(e) => Outcome(table, Err(e), Err(e))
    case Ok(objs) =>
      Outcome(if handled.Ok? then Committed(table, id, body) else table, Ok(objs), handled)
  }

  /** The handler runs exactly when every fid it needs is bound, and it gets those bindings in order. */
  lemma {:induction false} LookupBound(table: Table, fids: seq<u32>)
    ensures LookupAll(table, fids).Ok? <==> forall i :: 0 <= i < |fids| ==> fids[i] in table
    ensures LookupAll(table, fids).Ok? ==>
              LookupAll(table, fids).value
              == seq(|fids|, i requires 0 <= i < |fids| && fids[i] in table => table[fids[i]])
    ensures LookupAll(table, fids).Err? ==> LookupAll(table, fids) == Err(EBADF)
  {
    if fids != [] {
      LookupBound(table, fids[1..]);
      assert forall i :: 0 < i < |fids| ==> fids[i] == fids[1..][i - 1];
    }
  }

  /** The handler of a request runs exactly when every fid that the request names is bound; a `TAttach` runs
      whatever fid it names. The only other errors are those of messages that are no requests. */
  lemma LookupAgreement(table: Table, body: FCall)
    ensures !IsR(body) && !body.TAttach? ==>
              (Lookup(table, body).Ok? <==> forall k :: 0 <= k < |Fids(body)| ==> Fids(body)[k] in table)
    ensures body.TAttach? ==> Lookup(table, body) == Ok([])
    ensures Lookup(table, body).Err? ==> Lookup(table, body).error == if IsR(body) then EOPNOTSUPP else EBADF
  {
    LookupBound(table, Looked(body));
  }

  // ---- What requests look up, and what they do to the table, message by message

  /** The objects bound to some fids, or `EBADF` if one is not bound. */
  function ObjectsOf(table: Table, fids: seq<u32>): Result<seq<TaskId>, Errno> {
    if forall fid :: fid in fids ==> fid in table
    then Ok(seq(|fids|, i requires 0 <= i < |fids| && fids[i] in table => table[fids[i]]))
    else Err(9)
  }

  lemma {:induction false} LookupAllIs(table: Table, fids: seq<u32>)
    ensures LookupAll(table, fids) == ObjectsOf(table, fids)
  {
    LookupBound(table, fids);
  }

  // What the handler of each request gets, and in which order.

  lemma FileHandlersGet(table: Table, body: FCall)
    requires InOpen(body) || InNode(body) || InRename(body)
    ensures match body
            case TStatFs(fid) => Lookup(table, body) == ObjectsOf(table, [fid])
            case TlOpen(fid, _) => Lookup(table, body) == ObjectsOf(table, [fid])
            case TlCreate(fid, _, _, _, _) => Lookup(table, body) == ObjectsOf(table, [fid])
            case TSymlink(fid, _, _, _) => Lookup(table, body) == ObjectsOf(table, [fid])
            case TMkNod(dfid, _, _, _, _, _) => Lookup(table, body) == ObjectsOf(table, [dfid])
            case TRename(fid, dfid, _) => Lookup(table, body) == ObjectsOf(table, [fid, dfid])
            case TReadLink(fid) => Lookup(table, body) == ObjectsOf(table, [fid])
            case _ => Lookup(table, body) == Err(95)
  {
    LookupAllIs(table, Looked(body));
    hide LookupAll, ObjectsOf;
  }

  lemma AttrHandlersGet(table: Table, body: FCall)
    requires InAttr(body) || InXattr(body) || InDir(body)
    ensures match body
            case TGetAttr(fid, _) => Lookup(table, body) == ObjectsOf(table, [fid])
            case TSetAttr(fid, _, _) => Lookup(table, body) == ObjectsOf(table, [fid])
            case TxAttrWalk(fid, _, _) => Lookup(table, body) == ObjectsOf(table, [fid])
            case TxAttrCreate(fid, _, _, _) => Lookup(table, body) == ObjectsOf(table, [fid])
            case TReadDir(fid, _, _) => Lookup(table, body) == ObjectsOf(table, [fid])
            case TFSync(fid) => Lookup(table, body) == ObjectsOf(table, [fid])
            case _ => Lookup(table, body) == Err(95)
  {
    LookupAllIs(table, Looked(body));
    hide LookupAll, ObjectsOf;
  }

  lemma LinkHandlersGet(table: Table, body: FCall)
    requires InLock(body) || InLink(body) || InAt(body)
    ensures match body
            case TLock(fid, _) => Lookup(table, body) == ObjectsOf(table, [fid])
            case TGetLock(fid, _) => Lookup(table, body) == ObjectsOf(table, [fid])
            case TLink(dfid, fid, _) => Lookup(table, body) == ObjectsOf(table, [dfid, fid])
            case TMkDir(dfid, _, _, _) => Lookup(table, body) == ObjectsOf(table, [dfid])
            case TRenameAt(olddirfid, _, newdirfid, _) =>
              Lookup(table, body) == ObjectsOf(table, [olddirfid, newdirfid])
            case TUnlinkAt(dirfd, _, _) => Lookup(table, body) == ObjectsOf(table, [dirfd])
            case _ => Lookup(table, body) == Err(95)
  {
    LookupAllIs(table, Looked(body));
    hide LookupAll, ObjectsOf;
  }

  lemma SessionHandlersGet(table: Table, body: FCall)
    requires InSession(body) || InAttach(body)
    ensures body.TVersion? || body.TAuth? || body.TAttach? || body.TFlush? ==> Lookup(table, body) == Ok([])
    ensures IsR(body) ==> Lookup(table, body) == Err(95)
  {
  }

  lemma IoHandlersGet(table: Table, body: FCall)
    requires InWalk(body) || InFid(body)
    ensures match body
            case TWalk(fid, _, _) => Lookup(table, body) == ObjectsOf(table, [fid])
            case TRead(fid, _, _) => Lookup(table, body) == ObjectsOf(table, [fid])
            case TWrite(fid, _, _) => Lookup(table, body) == ObjectsOf(table, [fid])
            case TClunk(fid) => Lookup(table, body) == ObjectsOf(table, [fid])
            case TRemove(fid) => Lookup(table, body) == ObjectsOf(table, [fid])
            case _ => Lookup(table, body) == Err(95)
  {
    LookupAllIs(table, Looked(body));
    hide LookupAll, ObjectsOf;
  }

  /** A request that fails, in its lookups or in its handler, leaves the table alone; one that succeeds binds the fid
      it creates, or unbinds the fid it clunks, and leaves every other binding alone. A walk does not touch its source
      unless that is its new fid, and a `TRemove` unbinds nothing. */
  lemma ProcessIs(table: Table, id: TaskId, body: FCall, handled: Result<FCall, Errno>)
    ensures var done := Process(table, id, body, handled);
            && done.seen == Lookup(table, body)
            && (done.seen.Err? ==> done.table == table && done.fate == Err(done.seen.error))
            && (done.seen.Ok? ==> done.fate == handled)
            && (handled.Err? ==> done.table == table)
            && (done.seen.Ok? && handled.Ok? ==>
                  match body
                  case TWalk(_, newfid, _) => done.table == table[newfid := id]
                  case TxAttrWalk(_, newfid, _) => done.table == table[newfid := id]
                  case TAuth(afid, _, _, _) => done.table == table[afid := id]
                  case TAttach(fid, _, _, _, _) => done.table == table[fid := id]
                  case TClunk(fid) => done.table == table - {fid}
                  case _ => done.table == table)
  {
    hide Lookup;
  }

  /** So a walk to another fid leaves its source bound to its own object. */
  lemma WalkKeepsSource(
    table: Table, id: TaskId, fid: u32, newfid: u32, names: seq<seq<u8>>, r: FCall)
    requires fid in table
    ensures var done := Process(table, id, TWalk(fid, newfid, names), Ok(r));
            && done.table == table[newfid := id] && done.seen == Ok([table[fid]])
            && (fid != newfid ==> done.table[fid] == table[fid])
  {
    IoHandlersGet(table, TWalk(fid, newfid, names));
    assert ObjectsOf(table, [fid]).value == [table[fid]];
    ProcessIs(table, id, TWalk(fid, newfid, names), Ok(r));
    hide Lookup, Process;
  }

  // ---- The table itself

  class Server {
    var fids: Table

    constructor ()
      ensures fids == map[]
    {
      fids := map[];
    }

    method GetFid(fid: u32) returns (res: Result<TaskId, Errno>)
      ensures res == if fid in fids then Ok(fids[fid]) else Err(EBADF)
    {
      res := if fid in fids then Ok(fids[fid]) else Err(EBADF);
    }

    /** The lookups of a request that creates a fid also need the new object. */
    method WithNewFid(newfid: Option<TaskId>, objs: seq<TaskId>) returns (res: Result<seq<TaskId>, Errno>)
      ensures res == if newfid.Some? then Ok(objs) else Err(EPROTO)
    {
      res := if newfid.Some? then Ok(objs) else Err(EPROTO);
    }

    /** The lookups of each request, as the server makes them under its read lock. */
    method Lookups(body: FCall, newfid: Option<TaskId>) returns (res: Result<seq<TaskId>, Errno>)
      requires newfid.Some? <==> NewFid(body).Some?
      ensures res == Lookup(fids, body)
    {
      SomeFamily(body);
      hide *;
      if InOpen(body) || InNode(body) || InRename(body) {
        res := FileLookups(body);
      } else if InAttr(body) || InXattr(body) || InDir(body) {
        res := AttrLookups(body, newfid);
      } else if InLock(body) || InLink(body) || InAt(body) {
        res := LinkLookups(body);
      } else if InSession(body) || InAttach(body) {
        res := SessionLookups(body, newfid);
      } else {
        res := IoLookups(body, newfid);
      }
    }

    method FileLookups(body: FCall) returns (res: Result<seq<TaskId>, Errno>)
      requires InOpen(body) || InNode(body) || InRename(body)
      ensures res == Lookup(fids, body)
    {
      hide LookupAll;
      if body.TStatFs? || body.TlOpen? || body.TlCreate? || body.TSymlink? || body.TReadLink? {
        res := One(body.fid);
      } else if body.TMkNod? {
        res := One(body.dfid);
      } else if body.TRename? {
        res := Two(body.fid, body.dfid);
      } else {
        res := Err(EOPNOTSUPP);
      }
    }

    method AttrLookups(body: FCall, newfid: Option<TaskId>) returns (res: Result<seq<TaskId>, Errno>)
      requires InAttr(body) || InXattr(body) || InDir(body)
      requires newfid.Some? <==> NewFid(body).Some?
      ensures res == Lookup(fids, body)
    {
      hide LookupAll;
      if body.TxAttrWalk? {
        res := One(body.fid);
        if res.Ok? { res := WithNewFid(newfid, res.value); }
      } else if body.TGetAttr? || body.TSetAttr? || body.TxAttrCreate? || body.TReadDir? || body.TFSync? {
        res := One(body.fid);
      } else {
        res := Err(EOPNOTSUPP);
      }
    }

    method LinkLookups(body: FCall) returns (res: Result<seq<TaskId>, Errno>)
      requires InLock(body) || InLink(body) || InAt(body)
      ensures res == Lookup(fids, body)
    {
      hide LookupAll;
      if body.TLock? || body.TGetLock? {
        res := One(body.fid);
      } else if body.TLink? {
        res := Two(body.dfid, body.fid);
      } else if body.TMkDir? {
        res := One(body.dfid);
      } else if body.TRenameAt? {
        res := Two(body.olddirfid, body.newdirfid);
      } else if body.TUnlinkAt? {
        res := One(body.dirfd);
      } else {
        res := Err(EOPNOTSUPP);
      }
    }

    /** A `TAttach` looks nothing up, not even its `afid`. */
    method SessionLookups(body: FCall, newfid: Option<TaskId>) returns (res: Result<seq<TaskId>, Errno>)
      requires InSession(body) || InAttach(body)
      requires newfid.Some? <==> NewFid(body).Some?
      ensures res == Lookup(fids, body)
    {
      if body.TAuth? || body.TAttach? {
        res := WithNewFid(newfid, []);
      } else if body.TVersion? || body.TFlush? {
        res := Ok([]);
      } else {
        res := Err(EOPNOTSUPP);
      }
    }

    method IoLookups(body: FCall, newfid: Option<TaskId>) returns (res: Result<seq<TaskId>, Errno>)
      requires InWalk(body) || InFid(body)
      requires newfid.Some? <==> NewFid(body).Some?
      ensures res == Lookup(fids, body)
    {
      hide LookupAll;
      if body.TWalk? {
        res := One(body.fid);
        if res.Ok? { res := WithNewFid(newfid, res.value); }
      } else if body.TRead? || body.TWrite? || body.TClunk? || body.TRemove? {
        res := One(body.fid);
      } else {
        res := Err(EOPNOTSUPP);
      }
    }

    method One(fid: u32) returns (res: Result<seq<TaskId>, Errno>)
      ensures res == LookupAll(fids, [fid])
    {
      assert [fid][1..] == [];
      var a :- GetFid(fid);
      assert [a] + [] == [a];
      res := Ok([a]);
    }

    method Two(fid: u32, other: u32) returns (res: Result<seq<TaskId>, Errno>)
      ensures res == LookupAll(fids, [fid, other])
    {
      assert [fid, other][1..] == [other] && [other][1..] == [];
      assert LookupAll(fids, [other]) == if other in fids then Ok([fids[other]] + []) else Err(EBADF);
      var a :- GetFid(fid);
      var b :- GetFid(other);
      assert [b] + [] == [b] && [a] + [b] == [a, b];
      res := Ok([a, b]);
    }

    /** Serves one request with nothing else in progress, `handled` being what its handler returns if it
        runs. */
    method DispatchOnce(id: TaskId, body: FCall, handled: Result<FCall, Errno>)
      returns (seen: Result<seq<TaskId>, Errno>, fate: Result<FCall, Errno>)
      modifies this
      ensures Outcome(fids, seen, fate) == Process(old(fids), id, body, handled)
    {
      var newfid := if NewFid(body).Some? then Some(id) else None;
      seen := Lookups(body, newfid);
      if seen.Err? {
        fate := Err(seen.error);
        return;
      }
      fate := handled;
      if handled.Err? {
        return;
      }
      if body.TClunk? {
        fids := fids - {body.fid};
      }
      if newfid.Some? {
        fids := fids[NewFid(body).value := newfid.value];
      }
    }
  }
}
