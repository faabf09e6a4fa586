/** The layout of every message: which fields follow the type and the tag, how a message becomes the values
    of those fields, and how values become a message again. */
module Messages {
  import opened Wrappers
  import opened Bytes
  import opened Fcall
  import opened Grammar

  const U8K := KInt(1, 0x100)
  const U16K := KInt(2, U16_SPAN)
  const U32K := KInt(4, U32_SPAN)
  const U64K := KInt(8, U64_SPAN)

  // Flag sets: the mask of defined bits is one less than the limit.
  const LockTypeK := KInt(1, 4)
  const LockFlagK := KInt(4, 4)
  const LockStatusK := KInt(1, 4)
  const GetAttrMaskK := KInt(8, 0x4000)
  const SetAttrMaskK := KInt(4, 0x200)

  /** A word that is written as zero and ignored when read. */
  const ReservedK := KInt(8, 1)

  const QIdK := KRec([U8K, U32K, U64K])
  const TimeK := KRec([U64K, U64K])
  const StatFsK := KRec([U32K, U32K, U64K, U64K, U64K, U64K, U64K, U64K, U32K])
  const StatK := KRec([U32K, U32K, U32K, U64K, U64K, U64K, U64K, U64K, TimeK, TimeK, TimeK])
  const SetAttrK := KRec([U32K, U32K, U32K, U64K, TimeK, TimeK])
  const DirEntryK := KRec([QIdK, U64K, U8K, KStr])
  const FlockK := KRec([LockTypeK, LockFlagK, U64K, U64K, U32K, KStr])
  const GetlockK := KRec([LockTypeK, U64K, U64K, U32K, KStr])

  /** The fields after the tag, by message number; `None` for a number that is no message, or that is the
      never used `TlError`. */
  function Layout(n: u8): Option<seq<Kind>> {
    if n < 16 then OpenLayout(n)
    else if n < 20 then NodeLayout(n)
    else if n < 24 then RenameLayout(n)
    else if n < 30 then AttrLayout(n)
    else if n < 40 then XattrLayout(n)
    else if n < 52 then DirLayout(n)
    else if n < 70 then LockLayout(n)
    else if n < 74 then LinkLayout(n)
    else if n < 100 then AtLayout(n)
    else if n < 104 then SessionLayout(n)
    else if n < 110 then AttachLayout(n)
    else if n < 118 then WalkLayout(n)
    else FidLayout(n)
  }

  function OpenLayout(n: u8): Option<seq<Kind>> {
    match n
    case 7 => Some([U32K])
    case 8 => Some([U32K])
    case 9 => Some([StatFsK])
    case 12 => Some([U32K, U32K])
    case 13 => Some([QIdK, U32K])
    case 14 => Some([U32K, KStr, U32K, U32K, U32K])
    case 15 => Some([QIdK, U32K])
    case _ => None
  }

  function NodeLayout(n: u8): Option<seq<Kind>> {
    match n
    case 16 => Some([U32K, KStr, KStr, U32K])
    case 17 => Some([QIdK])
    case 18 => Some([U32K, KStr, U32K, U32K, U32K, U32K])
    case 19 => Some([QIdK])
    case _ => None
  }

  function RenameLayout(n: u8): Option<seq<Kind>> {
    match n
    case 20 => Some([U32K, U32K, KStr])
    case 21 => Some([])
    case 22 => Some([U32K])
    case 23 => Some([KStr])
    case _ => None
  }

  function AttrLayout(n: u8): Option<seq<Kind>> {
    match n
    case 24 => Some([U32K, GetAttrMaskK])
    case 25 => Some([GetAttrMaskK, QIdK, StatK, ReservedK, ReservedK, ReservedK, ReservedK])
    case 26 => Some([U32K, SetAttrMaskK, SetAttrK])
    case 27 => Some([])
    case _ => None
  }

  function XattrLayout(n: u8): Option<seq<Kind>> {
    match n
    case 30 => Some([U32K, U32K, KStr])
    case 31 => Some([U64K])
    case 32 => Some([U32K, KStr, U64K, U32K])
    case 33 => Some([])
    case _ => None
  }

  function DirLayout(n: u8): Option<seq<Kind>> {
    match n
    case 40 => Some([U32K, U64K, U32K])
    case 41 => Some([KDir(DirEntryK)])
    case 50 => Some([U32K])
    case 51 => Some([])
    case _ => None
  }

  function LockLayout(n: u8): Option<seq<Kind>> {
    match n
    case 52 => Some([U32K, FlockK])
    case 53 => Some([LockStatusK])
    case 54 => Some([U32K, GetlockK])
    case 55 => Some([GetlockK])
    case _ => None
  }

  function LinkLayout(n: u8): Option<seq<Kind>> {
    match n
    case 70 => Some([U32K, U32K, KStr])
    case 71 => Some([])
    case 72 => Some([U32K, KStr, U32K, U32K])
    case 73 => Some([QIdK])
    case _ => None
  }

  function AtLayout(n: u8): Option<seq<Kind>> {
    match n
    case 74 => Some([U32K, KStr, U32K, KStr])
    case 75 => Some([])
    case 76 => Some([U32K, KStr, U32K])
    case 77 => Some([])
    case _ => None
  }

  function SessionLayout(n: u8): Option<seq<Kind>> {
    match n
    case 100 => Some([U32K, KStr])
    case 101 => Some([U32K, KStr])
    case 102 => Some([U32K, KStr, KStr, U32K])
    case 103 => Some([QIdK])
    case _ => None
  }

  function AttachLayout(n: u8): Option<seq<Kind>> {
    match n
    case 104 => Some([U32K, U32K, KStr, KStr, U32K])
    case 105 => Some([QIdK])
    case 108 => Some([U16K])
    case 109 => Some([])
    case _ => None
  }

  function WalkLayout(n: u8): Option<seq<Kind>> {
    match n
    case 110 => Some([U32K, U32K, KVec(KStr)])
    case 111 => Some([KVec(QIdK)])
    case 116 => Some([U32K, U64K, U32K])
    case 117 => Some([KData])
    case _ => None
  }

  function FidLayout(n: u8): Option<seq<Kind>> {
    match n
    case 118 => Some([U32K, U64K, KData])
    case 119 => Some([U32K])
    case 120 => Some([U32K])
    case 121 => Some([])
    case 122 => Some([U32K])
    case 123 => Some([])
    case _ => None
  }

  // ---- Records as values

  function QIdVal(r: QId): Val {
    Rec([Int(r.typ), Int(r.version), Int(r.path)])
  }

  function TimeVal(r: Time): Val {
    Rec([Int(r.sec), Int(r.nsec)])
  }

  function StatFsVal(r: StatFs): Val {
    Rec([Int(r.typ), Int(r.bsize), Int(r.blocks), Int(r.bfree), Int(r.bavail), Int(r.files), Int(r.ffree),
         Int(r.fsid), Int(r.namelen)])
  }

  function StatVal(r: Stat): Val {
    Rec([Int(r.mode), Int(r.uid), Int(r.gid), Int(r.nlink), Int(r.rdev), Int(r.size), Int(r.blksize), Int(r.blocks),
         TimeVal(r.atime), TimeVal(r.mtime), TimeVal(r.ctime)])
  }

  function SetAttrVal(r: SetAttr): Val {
    Rec([Int(r.mode), Int(r.uid), Int(r.gid), Int(r.size), TimeVal(r.atime), TimeVal(r.mtime)])
  }

  function DirEntryVal(r: DirEntry): Val {
    Rec([QIdVal(r.qid), Int(r.offset), Int(r.typ), Str(r.name)])
  }

  function FlockVal(r: Flock): Val {
    Rec([Int(r.typ), Int(r.flags), Int(r.start), Int(r.length), Int(r.procId), Str(r.clientId)])
  }

  function GetlockVal(r: Getlock): Val {
    Rec([Int(r.typ), Int(r.start), Int(r.length), Int(r.procId), Str(r.clientId)])
  }

  function NamesVal(names: seq<seq<u8>>): Val {
    Vec(seq(|names|, i requires 0 <= i < |names| => Str(names[i])))
  }

  function QIdsVal(qids: seq<QId>): Val {
    Vec(seq(|qids|, i requires 0 <= i < |qids| => QIdVal(qids[i])))
  }

  function DirentsVal(es: seq<DirEntry>): Val {
    Vec(seq(|es|, i requires 0 <= i < |es| => DirEntryVal(es[i])))
  }

  /** The field values of a message body, in wire order. */
  function Fields(body: FCall): seq<Val> {
    if InOpen(body) then OpenFields(body)
    else if InNode(body) then NodeFields(body)
    else if InRename(body) then RenameFields(body)
    else if InAttr(body) then AttrFields(body)
    else if InXattr(body) then XattrFields(body)
    else if InDir(body) then DirFields(body)
    else if InLock(body) then LockFields(body)
    else if InLink(body) then LinkFields(body)
    else if InAt(body) then AtFields(body)
    else if InSession(body) then SessionFields(body)
    else if InAttach(body) then AttachFields(body)
    else if InWalk(body) then WalkFields(body)
    else FidFields(body)
  }

  function OpenFields(body: FCall): seq<Val>
    requires InOpen(body)
  {
    match body
    case RlError(ecode) => [Int(ecode)]
    case TStatFs(fid) => [Int(fid)]
    case RStatFs(statfs) => [StatFsVal(statfs)]
    case TlOpen(fid, flags) => [Int(fid), Int(flags)]
    case RlOpen(qid, iounit) => [QIdVal(qid), Int(iounit)]
    case TlCreate(fid, name, flags, mode, gid) => [Int(fid), Str(name), Int(flags), Int(mode), Int(gid)]
    case RlCreate(qid, iounit) => [QIdVal(qid), Int(iounit)]
  }

  function NodeFields(body: FCall): seq<Val>
    requires InNode(body)
  {
    match body
    case TSymlink(fid, name, symtgt, gid) => [Int(fid), Str(name), Str(symtgt), Int(gid)]
    case RSymlink(qid) => [QIdVal(qid)]
    case TMkNod(dfid, name, mode, major, minor, gid) =>
      [Int(dfid), Str(name), Int(mode), Int(major), Int(minor), Int(gid)]
    case RMkNod(qid) => [QIdVal(qid)]
  }

  function RenameFields(body: FCall): seq<Val>
    requires InRename(body)
  {
    match body
    case TRename(fid, dfid, name) => [Int(fid), Int(dfid), Str(name)]
    case RRename => []
    case TReadLink(fid) => [Int(fid)]
    case RReadLink(target) => [Str(target)]
  }

  function AttrFields(body: FCall): seq<Val>
    requires InAttr(body)
  {
    match body
    case TGetAttr(fid, reqMask) => [Int(fid), Int(reqMask)]
    case RGetAttr(valid, qid, stat) => [Int(valid), QIdVal(qid), StatVal(stat), Int(0), Int(0), Int(0), Int(0)]
    case TSetAttr(fid, setMask, attr) => [Int(fid), Int(setMask), SetAttrVal(attr)]
    case RSetAttr => []
  }

  function XattrFields(body: FCall): seq<Val>
    requires InXattr(body)
  {
    match body
    case TxAttrWalk(fid, newfid, name) => [Int(fid), Int(newfid), Str(name)]
    case RxAttrWalk(size) => [Int(size)]
    case TxAttrCreate(fid, name, attrSize, flags) => [Int(fid), Str(name), Int(attrSize), Int(flags)]
    case RxAttrCreate => []
  }

  function DirFields(body: FCall): seq<Val>
    requires InDir(body)
  {
    match body
    case TReadDir(fid, offset, count) => [Int(fid), Int(offset), Int(count)]
    case RReadDir(dirents) => [DirentsVal(dirents)]
    case TFSync(fid) => [Int(fid)]
    case RFSync => []
  }

  function LockFields(body: FCall): seq<Val>
    requires InLock(body)
  {
    match body
    case TLock(fid, flock) => [Int(fid), FlockVal(flock)]
    case RLock(status) => [Int(status)]
    case TGetLock(fid, getlock) => [Int(fid), GetlockVal(getlock)]
    case RGetLock(getlock) => [GetlockVal(getlock)]
  }

  function LinkFields(body: FCall): seq<Val>
    requires InLink(body)
  {
    match body
    case TLink(dfid, fid, name) => [Int(dfid), Int(fid), Str(name)]
    case RLink => []
    case TMkDir(dfid, name, mode, gid) => [Int(dfid), Str(name), Int(mode), Int(gid)]
    case RMkDir(qid) => [QIdVal(qid)]
  }

  function AtFields(body: FCall): seq<Val>
    requires InAt(body)
  {
    match body
    case TRenameAt(olddirfid, oldname, newdirfid, newname) =>
      [Int(olddirfid), Str(oldname), Int(newdirfid), Str(newname)]
    case RRenameAt => []
    case TUnlinkAt(dirfd, name, flags) => [Int(dirfd), Str(name), Int(flags)]
    case RUnlinkAt => []
  }

  function SessionFields(body: FCall): seq<Val>
    requires InSession(body)
  {
    match body
    case TVersion(msize, version) => [Int(msize), Str(version)]
    case RVersion(msize, version) => [Int(msize), Str(version)]
    case TAuth(afid, uname, aname, nUname) => [Int(afid), Str(uname), Str(aname), Int(nUname)]
    case RAuth(aqid) => [QIdVal(aqid)]
  }

  function AttachFields(body: FCall): seq<Val>
    requires InAttach(body)
  {
    match body
    case TAttach(fid, afid, uname, aname, nUname) => [Int(fid), Int(afid), Str(uname), Str(aname), Int(nUname)]
    case RAttach(qid) => [QIdVal(qid)]
    case TFlush(oldtag) => [Int(oldtag)]
    case RFlush => []
  }

  function WalkFields(body: FCall): seq<Val>
    requires InWalk(body)
  {
    match body
    case TWalk(fid, newfid, wnames) => [Int(fid), Int(newfid), NamesVal(wnames)]
    case RWalk(wqids) => [QIdsVal(wqids)]
    case TRead(fid, offset, count) => [Int(fid), Int(offset), Int(count)]
    case RRead(data) => [Val.Data(data)]
  }

  function FidFields(body: FCall): seq<Val>
    requires InFid(body)
  {
    match body
    case TWrite(fid, offset, data) => [Int(fid), Int(offset), Val.Data(data)]
    case RWrite(count) => [Int(count)]
    case TClunk(fid) => [Int(fid)]
    case RClunk => []
    case TRemove(fid) => [Int(fid)]
    case RRemove => []
  }

  // ---- Values as records

  /** The outermost form of a value that a reader can hand over for a kind. */
  predicate Kept(k: Kind, v: Val) {
    match k
    case KInt(_, limit) => v.Int? && v.x < limit
    case KStr => v.Str?
    case KData => v.Data?
    case KRec(ks) => v.Rec? && |v.parts| == |ks|
    case KVec(_) => v.Vec?
    case KDir(_) => v.Vec?
  }

  /** The values that a reader can hand over for a kind. */
  predicate Shaped(k: Kind, v: Val)
    decreases k
  {
    && Kept(k, v)
    && match k
       case KRec(ks) => forall i :: 0 <= i < |ks| ==> Kept(ks[i], v.parts[i]) && Shaped(ks[i], v.parts[i])
       case KVec(e) => forall i :: 0 <= i < |v.items| ==> Kept(e, v.items[i]) && Shaped(e, v.items[i])
       case KDir(e) => forall i :: 0 <= i < |v.items| ==> Kept(e, v.items[i]) && Shaped(e, v.items[i])
       case _ => true
  }

  predicate ShapedAll(ks: seq<Kind>, vs: seq<Val>) {
    |ks| == |vs| && forall i :: 0 <= i < |ks| ==> Kept(ks[i], vs[i]) && Shaped(ks[i], vs[i])
  }

  function QIdOf(v: Val): QId
    requires Shaped(QIdK, v)
  {
    var p := v.parts;
    QId(p[0].x, p[1].x, p[2].x)
  }

  function TimeOf(v: Val): Time
    requires Shaped(TimeK, v)
  {
    var p := v.parts;
    Time(p[0].x, p[1].x)
  }

  function StatFsOf(v: Val): StatFs
    requires Shaped(StatFsK, v)
  {
    var p := v.parts;
    StatFs(p[0].x, p[1].x, p[2].x, p[3].x, p[4].x, p[5].x, p[6].x, p[7].x, p[8].x)
  }

  function StatOf(v: Val): Stat
    requires Shaped(StatK, v)
  {
    var p := v.parts;
    Stat(p[0].x, p[1].x, p[2].x, p[3].x, p[4].x, p[5].x, p[6].x, p[7].x, TimeOf(p[8]), TimeOf(p[9]), TimeOf(p[10]))
  }

  function SetAttrOf(v: Val): SetAttr
    requires Shaped(SetAttrK, v)
  {
    var p := v.parts;
    SetAttr(p[0].x, p[1].x, p[2].x, p[3].x, TimeOf(p[4]), TimeOf(p[5]))
  }

  function DirEntryOf(v: Val): DirEntry
    requires Shaped(DirEntryK, v)
  {
    var p := v.parts;
    DirEntry(QIdOf(p[0]), p[1].x, p[2].x, p[3].s)
  }

  function FlockOf(v: Val): Flock
    requires Shaped(FlockK, v)
  {
    var p := v.parts;
    Flock(p[0].x, p[1].x, p[2].x, p[3].x, p[4].x, p[5].s)
  }

  function GetlockOf(v: Val): Getlock
    requires Shaped(GetlockK, v)
  {
    var p := v.parts;
    Getlock(p[0].x, p[1].x, p[2].x, p[3].x, p[4].s)
  }

  function NamesOf(v: Val): seq<seq<u8>>
    requires Shaped(KVec(KStr), v)
  {
    seq(|v.items|, i requires 0 <= i < |v.items| => v.items[i].s)
  }

  function QIdsOf(v: Val): seq<QId>
    requires Shaped(KVec(QIdK), v)
  {
    seq(|v.items|, i requires 0 <= i < |v.items| => QIdOf(v.items[i]))
  }

  function DirentsOf(v: Val): seq<DirEntry>
    requires Shaped(KDir(DirEntryK), v)
  {
    seq(|v.items|, i requires 0 <= i < |v.items| => DirEntryOf(v.items[i]))
  }

  /** The message body with number `n` and the given field values. */
  function Build(n: u8, vs: seq<Val>): FCall
    requires Layout(n).Some? && ShapedAll(Layout(n).value, vs)
  {
    if n < 16 then OpenBuild(n, vs)
    else if n < 20 then NodeBuild(n, vs)
    else if n < 24 then RenameBuild(n, vs)
    else if n < 30 then AttrBuild(n, vs)
    else if n < 40 then XattrBuild(n, vs)
    else if n < 52 then DirBuild(n, vs)
    else if n < 70 then LockBuild(n, vs)
    else if n < 74 then LinkBuild(n, vs)
    else if n < 100 then AtBuild(n, vs)
    else if n < 104 then SessionBuild(n, vs)
    else if n < 110 then AttachBuild(n, vs)
    else if n < 118 then WalkBuild(n, vs)
    else FidBuild(n, vs)
  }

  function OpenBuild(n: u8, vs: seq<Val>): FCall
    requires OpenLayout(n).Some? && ShapedAll(OpenLayout(n).value, vs)
  {
    match n
    case 7 => RlError(vs[0].x)
    case 8 => TStatFs(vs[0].x)
    case 9 => RStatFs(StatFsOf(vs[0]))
    case 12 => TlOpen(vs[0].x, vs[1].x)
    case 13 => RlOpen(QIdOf(vs[0]), vs[1].x)
    case 14 => TlCreate(vs[0].x, vs[1].s, vs[2].x, vs[3].x, vs[4].x)
    case _ => RlCreate(QIdOf(vs[0]), vs[1].x)
  }

  function NodeBuild(n: u8, vs: seq<Val>): FCall
    requires NodeLayout(n).Some? && ShapedAll(NodeLayout(n).value, vs)
  {
    match n
    case 16 => TSymlink(vs[0].x, vs[1].s, vs[2].s, vs[3].x)
    case 17 => RSymlink(QIdOf(vs[0]))
    case 18 => TMkNod(vs[0].x, vs[1].s, vs[2].x, vs[3].x, vs[4].x, vs[5].x)
    case _ => RMkNod(QIdOf(vs[0]))
  }

  function RenameBuild(n: u8, vs: seq<Val>): FCall
    requires RenameLayout(n).Some? && ShapedAll(RenameLayout(n).value, vs)
  {
    match n
    case 20 => TRename(vs[0].x, vs[1].x, vs[2].s)
    case 21 => RRename
    case 22 => TReadLink(vs[0].x)
    case _ => RReadLink(vs[0].s)
  }

  function AttrBuild(n: u8, vs: seq<Val>): FCall
    requires AttrLayout(n).Some? && ShapedAll(AttrLayout(n).value, vs)
  {
    match n
    case 24 => TGetAttr(vs[0].x, vs[1].x)
    case 25 => RGetAttr(vs[0].x, QIdOf(vs[1]), StatOf(vs[2]))
    case 26 => TSetAttr(vs[0].x, vs[1].x, SetAttrOf(vs[2]))
    case _ => RSetAttr
  }

  function XattrBuild(n: u8, vs: seq<Val>): FCall
    requires XattrLayout(n).Some? && ShapedAll(XattrLayout(n).value, vs)
  {
    match n
    case 30 => TxAttrWalk(vs[0].x, vs[1].x, vs[2].s)
    case 31 => RxAttrWalk(vs[0].x)
    case 32 => TxAttrCreate(vs[0].x, vs[1].s, vs[2].x, vs[3].x)
    case _ => RxAttrCreate
  }

  function DirBuild(n: u8, vs: seq<Val>): FCall
    requires DirLayout(n).Some? && ShapedAll(DirLayout(n).value, vs)
  {
    match n
    case 40 => TReadDir(vs[0].x, vs[1].x, vs[2].x)
    case 41 => RReadDir(DirentsOf(vs[0]))
    case 50 => TFSync(vs[0].x)
    case _ => RFSync
  }

  function LockBuild(n: u8, vs: seq<Val>): FCall
    requires LockLayout(n).Some? && ShapedAll(LockLayout(n).value, vs)
  {
    match n
    case 52 => TLock(vs[0].x, FlockOf(vs[1]))
    case 53 => RLock(vs[0].x)
    case 54 => TGetLock(vs[0].x, GetlockOf(vs[1]))
    case _ => RGetLock(GetlockOf(vs[0]))
  }

  function LinkBuild(n: u8, vs: seq<Val>): FCall
    requires LinkLayout(n).Some? && ShapedAll(LinkLayout(n).value, vs)
  {
    match n
    case 70 => TLink(vs[0].x, vs[1].x, vs[2].s)
    case 71 => RLink
    case 72 => TMkDir(vs[0].x, vs[1].s, vs[2].x, vs[3].x)
    case _ => RMkDir(QIdOf(vs[0]))
  }

  function AtBuild(n: u8, vs: seq<Val>): FCall
    requires AtLayout(n).Some? && ShapedAll(AtLayout(n).value, vs)
  {
    match n
    case 74 => TRenameAt(vs[0].x, vs[1].s, vs[2].x, vs[3].s)
    case 75 => RRenameAt
    case 76 => TUnlinkAt(vs[0].x, vs[1].s, vs[2].x)
    case _ => RUnlinkAt
  }

  function SessionBuild(n: u8, vs: seq<Val>): FCall
    requires SessionLayout(n).Some? && ShapedAll(SessionLayout(n).value, vs)
  {
    match n
    case 100 => TVersion(vs[0].x, vs[1].s)
    case 101 => RVersion(vs[0].x, vs[1].s)
    case 102 => TAuth(vs[0].x, vs[1].s, vs[2].s, vs[3].x)
    case _ => RAuth(QIdOf(vs[0]))
  }

  function AttachBuild(n: u8, vs: seq<Val>): FCall
    requires AttachLayout(n).Some? && ShapedAll(AttachLayout(n).value, vs)
  {
    match n
    case 104 => TAttach(vs[0].x, vs[1].x, vs[2].s, vs[3].s, vs[4].x)
    case 105 => RAttach(QIdOf(vs[0]))
    case 108 => TFlush(vs[0].x)
    case _ => RFlush
  }

  function WalkBuild(n: u8, vs: seq<Val>): FCall
    requires WalkLayout(n).Some? && ShapedAll(WalkLayout(n).value, vs)
  {
    match n
    case 110 => TWalk(vs[0].x, vs[1].x, NamesOf(vs[2]))
    case 111 => RWalk(QIdsOf(vs[0]))
    case 116 => TRead(vs[0].x, vs[1].x, vs[2].x)
    case _ => RRead(vs[0].d)
  }

  function FidBuild(n: u8, vs: seq<Val>): FCall
    requires FidLayout(n).Some? && ShapedAll(FidLayout(n).value, vs)
  {
    match n
    case 118 => TWrite(vs[0].x, vs[1].x, vs[2].d)
    case 119 => RWrite(vs[0].x)
    case 120 => TClunk(vs[0].x)
    case 121 => RClunk
    case 122 => TRemove(vs[0].x)
    case _ => RRemove
  }
}
