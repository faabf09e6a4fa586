/** The messages of 9P2000.L and the facts about them that the codec, the server and the file server use.

    Strings are their UTF-8 bytes; flag sets are their bits. */
module Fcall {
  import opened Wrappers
  import opened Bytes

  /** The `afid` of a `TAttach` without authentication. */
  const NOFID: u32 := 0xFFFF_FFFF

  /** Room kept for the header of a directory reply. */
  const READDIRHDRSZ := 24

  datatype QId = QId(typ: u8, version: u32, path: u64)

  datatype StatFs = StatFs(
    typ: u32, bsize: u32, blocks: u64, bfree: u64, bavail: u64, files: u64, ffree: u64, fsid: u64,
    namelen: u32)

  datatype Time = Time(sec: u64, nsec: u64)

  datatype Stat = Stat(
    mode: u32, uid: u32, gid: u32, nlink: u64, rdev: u64, size: u64, blksize: u64, blocks: u64, atime: Time,
    mtime: Time, ctime: Time)

  datatype SetAttr = SetAttr(mode: u32, uid: u32, gid: u32, size: u64, atime: Time, mtime: Time)

  datatype DirEntry = DirEntry(qid: QId, offset: u64, typ: u8, name: seq<u8>)

  datatype Flock = Flock(typ: u8, flags: u32, start: u64, length: u64, procId: u32, clientId: seq<u8>)

  datatype Getlock = Getlock(typ: u8, start: u64, length: u64, procId: u32, clientId: seq<u8>)

  datatype FCall =
    | RlError(ecode: u32)
    | TStatFs(fid: u32)
    | RStatFs(statfs: StatFs)
    | TlOpen(fid: u32, flags: u32)
    | RlOpen(qid: QId, iounit: u32)
    | TlCreate(fid: u32, name: seq<u8>, flags: u32, mode: u32, gid: u32)
    | RlCreate(qid: QId, iounit: u32)
    | TSymlink(fid: u32, name: seq<u8>, symtgt: seq<u8>, gid: u32)
    | RSymlink(qid: QId)
    | TMkNod(dfid: u32, name: seq<u8>, mode: u32, major: u32, minor: u32, gid: u32)
    | RMkNod(qid: QId)
    | TRename(fid: u32, dfid: u32, name: seq<u8>)
    | RRename
    | TReadLink(fid: u32)
    | RReadLink(target: seq<u8>)
    | TGetAttr(fid: u32, reqMask: u64)
    | RGetAttr(valid: u64, qid: QId, stat: Stat)
    | TSetAttr(fid: u32, setMask: u32, attr: SetAttr)
    | RSetAttr
    | TxAttrWalk(fid: u32, newfid: u32, name: seq<u8>)
    | RxAttrWalk(size: u64)
    | TxAttrCreate(fid: u32, name: seq<u8>, attrSize: u64, flags: u32)
    | RxAttrCreate
    | TReadDir(fid: u32, offset: u64, count: u32)
    | RReadDir(dirents: seq<DirEntry>)
    | TFSync(fid: u32)
    | RFSync
    | TLock(fid: u32, flock: Flock)
    | RLock(status: u8)
    | TGetLock(fid: u32, getlock: Getlock)
    | RGetLock(getlock: Getlock)
    | TLink(dfid: u32, fid: u32, name: seq<u8>)
    | RLink
    | TMkDir(dfid: u32, name: seq<u8>, mode: u32, gid: u32)
    | RMkDir(qid: QId)
    | TRenameAt(olddirfid: u32, oldname: seq<u8>, newdirfid: u32, newname: seq<u8>)
    | RRenameAt
    | TUnlinkAt(dirfd: u32, name: seq<u8>, flags: u32)
    | RUnlinkAt
    | TVersion(msize: u32, version: seq<u8>)
    | RVersion(msize: u32, version: seq<u8>)
    | TAuth(afid: u32, uname: seq<u8>, aname: seq<u8>, nUname: u32)
    | RAuth(aqid: QId)
    | TAttach(fid: u32, afid: u32, uname: seq<u8>, aname: seq<u8>, nUname: u32)
    | RAttach(qid: QId)
    | TFlush(oldtag: u16)
    | RFlush
    | TWalk(fid: u32, newfid: u32, wnames: seq<seq<u8>>)
    | RWalk(wqids: seq<QId>)
    | TRead(fid: u32, offset: u64, count: u32)
    | RRead(data: seq<u8>)
    | TWrite(fid: u32, offset: u64, data: seq<u8>)
    | RWrite(count: u32)
    | TClunk(fid: u32)
    | RClunk
    | TRemove(fid: u32)
    | RRemove

  datatype Msg = Msg(tag: u16, body: FCall)

  // Families of messages, by ranges of message numbers: what holds of every message is proved family by family.

  predicate InOpen(body: FCall) {
    body.RlError? || body.TStatFs? || body.RStatFs? || body.TlOpen? || body.RlOpen? || body.TlCreate? ||
    body.RlCreate?
  }

  predicate InNode(body: FCall) {
    body.TSymlink? || body.RSymlink? || body.TMkNod? || body.RMkNod?
  }

  predicate InRename(body: FCall) {
    body.TRename? || body.RRename? || body.TReadLink? || body.RReadLink?
  }

  predicate InAttr(body: FCall) {
    body.TGetAttr? || body.RGetAttr? || body.TSetAttr? || body.RSetAttr?
  }

  predicate InXattr(body: FCall) {
    body.TxAttrWalk? || body.RxAttrWalk? || body.TxAttrCreate? || body.RxAttrCreate?
  }

  predicate InDir(body: FCall) {
    body.TReadDir? || body.RReadDir? || body.TFSync? || body.RFSync?
  }

  predicate InLock(body: FCall) {
    body.TLock? || body.RLock? || body.TGetLock? || body.RGetLock?
  }

  predicate InLink(body: FCall) {
    body.TLink? || body.RLink? || body.TMkDir? || body.RMkDir?
  }

  predicate InAt(body: FCall) {
    body.TRenameAt? || body.RRenameAt? || body.TUnlinkAt? || body.RUnlinkAt?
  }

  predicate InSession(body: FCall) {
    body.TVersion? || body.RVersion? || body.TAuth? || body.RAuth?
  }

  predicate InAttach(body: FCall) {
    body.TAttach? || body.RAttach? || body.TFlush? || body.RFlush?
  }

  predicate InWalk(body: FCall) {
    body.TWalk? || body.RWalk? || body.TRead? || body.RRead?
  }

  predicate InFid(body: FCall) {
    body.TWrite? || body.RWrite? || body.TClunk? || body.RClunk? || body.TRemove? || body.RRemove?
  }

  /** The message number on the wire. */
  function MsgType(body: FCall): (n: u8) {
    if InOpen(body) then OpenType(body)
    else if InNode(body) then NodeType(body)
    else if InRename(body) then RenameType(body)
    else if InAttr(body) then AttrType(body)
    else if InXattr(body) then XattrType(body)
    else if InDir(body) then DirType(body)
    else if InLock(body) then LockType(body)
    else if InLink(body) then LinkType(body)
    else if InAt(body) then AtType(body)
    else if InSession(body) then SessionType(body)
    else if InAttach(body) then AttachType(body)
    else if InWalk(body) then WalkType(body)
    else FidType(body)
  }

  function OpenType(body: FCall): u8
    requires InOpen(body)
  {
    match body
    case RlError(_) => 7
    case TStatFs(_) => 8
    case RStatFs(_) => 9
    case TlOpen(_, _) => 12
    case RlOpen(_, _) => 13
    case TlCreate(_, _, _, _, _) => 14
    case RlCreate(_, _) => 15
  }

  function NodeType(body: FCall): u8
    requires InNode(body)
  {
    match body
    case TSymlink(_, _, _, _) => 16
    case RSymlink(_) => 17
    case TMkNod(_, _, _, _, _, _) => 18
    case RMkNod(_) => 19
  }

  function RenameType(body: FCall): u8
    requires InRename(body)
  {
    match body
    case TRename(_, _, _) => 20
    case RRename => 21
    case TReadLink(_) => 22
    case RReadLink(_) => 23
  }

  function AttrType(body: FCall): u8
    requires InAttr(body)
  {
    match body
    case TGetAttr(_, _) => 24
    case RGetAttr(_, _, _) => 25
    case TSetAttr(_, _, _) => 26
    case RSetAttr => 27
  }

  function XattrType(body: FCall): u8
    requires InXattr(body)
  {
    match body
    case TxAttrWalk(_, _, _) => 30
    case RxAttrWalk(_) => 31
    case TxAttrCreate(_, _, _, _) => 32
    case RxAttrCreate => 33
  }

  function DirType(body: FCall): u8
    requires InDir(body)
  {
    match body
    case TReadDir(_, _, _) => 40
    case RReadDir(_) => 41
    case TFSync(_) => 50
    case RFSync => 51
  }

  function LockType(body: FCall): u8
    requires InLock(body)
  {
    match body
    case TLock(_, _) => 52
    case RLock(_) => 53
    case TGetLock(_, _) => 54
    case RGetLock(_) => 55
  }

  function LinkType(body: FCall): u8
    requires InLink(body)
  {
    match body
    case TLink(_, _, _) => 70
    case RLink => 71
    case TMkDir(_, _, _, _) => 72
    case RMkDir(_) => 73
  }

  function AtType(body: FCall): u8
    requires InAt(body)
  {
    match body
    case TRenameAt(_, _, _, _) => 74
    case RRenameAt => 75
    case TUnlinkAt(_, _, _) => 76
    case RUnlinkAt => 77
  }

  function SessionType(body: FCall): u8
    requires InSession(body)
  {
    match body
    case TVersion(_, _) => 100
    case RVersion(_, _) => 101
    case TAuth(_, _, _, _) => 102
    case RAuth(_) => 103
  }

  function AttachType(body: FCall): u8
    requires InAttach(body)
  {
    match body
    case TAttach(_, _, _, _, _) => 104
    case RAttach(_) => 105
    case TFlush(_) => 108
    case RFlush => 109
  }

  function WalkType(body: FCall): u8
    requires InWalk(body)
  {
    match body
    case TWalk(_, _, _) => 110
    case RWalk(_) => 111
    case TRead(_, _, _) => 116
    case RRead(_) => 117
  }

  function FidType(body: FCall): u8
    requires InFid(body)
  {
    match body
    case TWrite(_, _, _) => 118
    case RWrite(_) => 119
    case TClunk(_) => 120
    case RClunk => 121
    case TRemove(_) => 122
    case RRemove => 123
  }

  /** The messages that a server may send. */
  predicate IsR(body: FCall) {
    body.RlError? || body.RStatFs? || body.RlOpen? || body.RlCreate? || body.RSymlink? || body.RMkNod? ||
    body.RRename? || body.RReadLink? || body.RGetAttr? || body.RSetAttr? || body.RxAttrWalk? ||
    body.RxAttrCreate? || body.RReadDir? || body.RFSync? || body.RLock? || body.RGetLock? || body.RLink? ||
    body.RMkDir? || body.RRenameAt? || body.RUnlinkAt? || body.RVersion? || body.RAuth? || body.RAttach? ||
    body.RFlush? || body.RWalk? || body.RRead? || body.RWrite? || body.RClunk? || body.RRemove?
  }

  /** Every message is in a family. */
  lemma SomeFamily(body: FCall)
    ensures InOpen(body) || InNode(body) || InRename(body) || InAttr(body) || InXattr(body) || InDir(body)
            || InLock(body) || InLink(body) || InAt(body) || InSession(body) || InAttach(body) || InWalk(body)
            || InFid(body)
  {
  }

  /** The requests about the one fid they name in `fid`. */
  predicate NamesFid(body: FCall) {
    body.TStatFs? || body.TlOpen? || body.TlCreate? || body.TSymlink? || body.TReadLink? || body.TGetAttr? ||
    body.TSetAttr? || body.TxAttrWalk? || body.TxAttrCreate? || body.TReadDir? || body.TFSync? || body.TLock? ||
    body.TGetLock? || body.TWalk? || body.TRead? || body.TWrite? || body.TClunk? || body.TRemove?
  }

  /** The fids that a message names as already in use. */
  function Fids(body: FCall): seq<u32> {
    if NamesFid(body) then [body.fid]
    else if body.TMkNod? || body.TMkDir? then [body.dfid]
    else if body.TRename? then [body.fid, body.dfid]
    else if body.TLink? then [body.dfid, body.fid]
    else if body.TRenameAt? then [body.olddirfid, body.newdirfid]
    else if body.TUnlinkAt? then [body.dirfd]
    else if body.TAttach? && body.afid != NOFID then [body.afid]
    else []
  }

  /** The fid that a message asks the server to create. */
  function NewFid(body: FCall): Option<u32> {
    if body.TxAttrWalk? || body.TWalk? then Some(body.newfid)
    else if body.TAuth? then Some(body.afid)
    else if body.TAttach? then Some(body.fid)
    else None
  }

  /** The size of a directory entry as the code computes it: cast to 32 bits. */
  function DirEntrySize(e: DirEntry): u32 {
    (1 + 4 + 8 + 8 + 1 + 2 + |e.name|) % U32_SPAN
  }

  /** The size of a directory payload as the code computes it: a left fold of 32-bit additions. */
  function DirentsSize(es: seq<DirEntry>): u32 {
    if es == [] then 0
    else (DirentsSize(es[..|es| - 1]) + DirEntrySize(es[|es| - 1])) % U32_SPAN
  }
}
