/** The bytes of every message, written out field by field. */
module WireBytes {
  import opened Wrappers
  import opened Bytes
  import opened Fcall
  import opened Grammar
  import opened Messages
  import opened Codec

  // ---- The pieces

  function Concat(parts: seq<seq<u8>>): seq<u8> {
    if parts == [] then [] else parts[0] + Concat(parts[1..])
  }

  /** A string: its length in 16 bits, and all its bytes. */
  function Text16(s: seq<u8>): seq<u8> {
    LE(2, |s| % U16_SPAN) + s
  }

  function Data32(d: seq<u8>): seq<u8> {
    LE(4, |d| % U32_SPAN) + d
  }

  function QIdBytes(q: QId): seq<u8> {
    Concat([[q.typ], LE(4, q.version), LE(8, q.path)])
  }

  function TimeBytes(t: Time): seq<u8> {
    Concat([LE(8, t.sec), LE(8, t.nsec)])
  }

  function StatFsBytes(s: StatFs): seq<u8> {
    Concat([LE(4, s.typ), LE(4, s.bsize), LE(8, s.blocks), LE(8, s.bfree), LE(8, s.bavail), LE(8, s.files),
            LE(8, s.ffree), LE(8, s.fsid), LE(4, s.namelen)])
  }

  function StatBytes(s: Stat): seq<u8> {
    Concat([LE(4, s.mode), LE(4, s.uid), LE(4, s.gid), LE(8, s.nlink), LE(8, s.rdev), LE(8, s.size),
            LE(8, s.blksize), LE(8, s.blocks), TimeBytes(s.atime), TimeBytes(s.mtime), TimeBytes(s.ctime)])
  }

  function SetAttrBytes(s: SetAttr): seq<u8> {
    Concat([LE(4, s.mode), LE(4, s.uid), LE(4, s.gid), LE(8, s.size), TimeBytes(s.atime), TimeBytes(s.mtime)])
  }

  function DirEntryBytes(e: DirEntry): seq<u8> {
    Concat([QIdBytes(e.qid), LE(8, e.offset), [e.typ], Text16(e.name)])
  }

  function FlockBytes(f: Flock): seq<u8> {
    Concat([[f.typ], LE(4, f.flags), LE(8, f.start), LE(8, f.length), LE(4, f.procId), Text16(f.clientId)])
  }

  function GetlockBytes(f: Getlock): seq<u8> {
    Concat([[f.typ], LE(8, f.start), LE(8, f.length), LE(4, f.procId), Text16(f.clientId)])
  }

  function NamesBytes(names: seq<seq<u8>>): seq<u8> {
    LE(2, |names| % U16_SPAN) + Concat(seq(|names|, i requires 0 <= i < |names| => Text16(names[i])))
  }

  function QIdsBytes(qids: seq<QId>): seq<u8> {
    LE(2, |qids| % U16_SPAN) + Concat(seq(|qids|, i requires 0 <= i < |qids| => QIdBytes(qids[i])))
  }

  /** A directory payload: its size in bytes, and its entries. */
  function DirentsBytes(es: seq<DirEntry>): seq<u8> {
    var payload := Concat(seq(|es|, i requires 0 <= i < |es| => DirEntryBytes(es[i])));
    LE(4, |payload| % U32_SPAN) + payload
  }

  // ---- Encodings are concatenations

  function Parts(ks: seq<Kind>, vs: seq<Val>): seq<seq<u8>>
    requires |ks| == |vs|
  {
    seq(|ks|, i requires 0 <= i < |ks| => Enc(ks[i], vs[i]))
  }

  lemma {:induction false} FieldsConcat(ks: seq<Kind>, vs: seq<Val>)
    requires |ks| == |vs|
    ensures Encs(ks, vs) == Concat(Parts(ks, vs))
  {
    if ks != [] {
      FieldsConcat(ks[1..], vs[1..]);
      assert Parts(ks, vs)[1..] == Parts(ks[1..], vs[1..]);
    }
  }

  function Elements(e: Kind, vs: seq<Val>): seq<seq<u8>> {
    seq(|vs|, i requires 0 <= i < |vs| => Enc(e, vs[i]))
  }

  lemma {:induction false} ElementsConcat(e: Kind, vs: seq<Val>)
    ensures EncN(e, vs) == Concat(Elements(e, vs))
  {
    if vs != [] {
      ElementsConcat(e, vs[1..]);
      assert Elements(e, vs)[1..] == Elements(e, vs[1..]);
    }
  }

  lemma {:induction false} OneByteWord(x: u8)
    ensures LE(1, x) == [x]
  {
    OneByte(x);
  }

  lemma QIdOnTheWire(q: QId)
    ensures Enc(QIdK, QIdVal(q)) == QIdBytes(q)
  {
    OneByteWord(q.typ);
    FieldsConcat(QIdK.parts, QIdVal(q).parts);
    assert Parts(QIdK.parts, QIdVal(q).parts) == [[q.typ], LE(4, q.version), LE(8, q.path)];
  }

  lemma TimeOnTheWire(t: Time)
    ensures Enc(TimeK, TimeVal(t)) == TimeBytes(t)
  {
    FieldsConcat(TimeK.parts, TimeVal(t).parts);
    assert Parts(TimeK.parts, TimeVal(t).parts) == [LE(8, t.sec), LE(8, t.nsec)];
  }

  lemma StatFsOnTheWire(s: StatFs)
    ensures Enc(StatFsK, StatFsVal(s)) == StatFsBytes(s)
  {
    FieldsConcat(StatFsK.parts, StatFsVal(s).parts);
    assert Parts(StatFsK.parts, StatFsVal(s).parts)
        == [LE(4, s.typ), LE(4, s.bsize), LE(8, s.blocks), LE(8, s.bfree), LE(8, s.bavail), LE(8, s.files),
            LE(8, s.ffree), LE(8, s.fsid), LE(4, s.namelen)];
  }

  lemma StatOnTheWire(s: Stat)
    ensures Enc(StatK, StatVal(s)) == StatBytes(s)
  {
    TimeOnTheWire(s.atime);
    TimeOnTheWire(s.mtime);
    TimeOnTheWire(s.ctime);
    hide TimeVal, TimeBytes, LE, Concat, Encs, EncN;
    FieldsConcat(StatK.parts, StatVal(s).parts);
    assert Parts(StatK.parts, StatVal(s).parts)
        == [LE(4, s.mode), LE(4, s.uid), LE(4, s.gid), LE(8, s.nlink), LE(8, s.rdev), LE(8, s.size),
            LE(8, s.blksize), LE(8, s.blocks), TimeBytes(s.atime), TimeBytes(s.mtime), TimeBytes(s.ctime)];
  }

  lemma SetAttrOnTheWire(s: SetAttr)
    ensures Enc(SetAttrK, SetAttrVal(s)) == SetAttrBytes(s)
  {
    TimeOnTheWire(s.atime);
    TimeOnTheWire(s.mtime);
    hide TimeVal, TimeBytes;
    FieldsConcat(SetAttrK.parts, SetAttrVal(s).parts);
    assert Parts(SetAttrK.parts, SetAttrVal(s).parts)
        == [LE(4, s.mode), LE(4, s.uid), LE(4, s.gid), LE(8, s.size), TimeBytes(s.atime), TimeBytes(s.mtime)];
  }

  lemma DirEntryOnTheWire(e: DirEntry)
    ensures Enc(DirEntryK, DirEntryVal(e)) == DirEntryBytes(e)
  {
    QIdOnTheWire(e.qid);
    OneByteWord(e.typ);
    hide QIdVal, QIdBytes;
    FieldsConcat(DirEntryK.parts, DirEntryVal(e).parts);
    assert Parts(DirEntryK.parts, DirEntryVal(e).parts)
        == [QIdBytes(e.qid), LE(8, e.offset), [e.typ], Text16(e.name)];
  }

  lemma FlockOnTheWire(f: Flock)
    ensures Enc(FlockK, FlockVal(f)) == FlockBytes(f)
  {
    OneByteWord(f.typ);
    FieldsConcat(FlockK.parts, FlockVal(f).parts);
    assert Parts(FlockK.parts, FlockVal(f).parts)
        == [[f.typ], LE(4, f.flags), LE(8, f.start), LE(8, f.length), LE(4, f.procId), Text16(f.clientId)];
  }

  lemma GetlockOnTheWire(f: Getlock)
    ensures Enc(GetlockK, GetlockVal(f)) == GetlockBytes(f)
  {
    OneByteWord(f.typ);
    FieldsConcat(GetlockK.parts, GetlockVal(f).parts);
    assert Parts(GetlockK.parts, GetlockVal(f).parts)
        == [[f.typ], LE(8, f.start), LE(8, f.length), LE(4, f.procId), Text16(f.clientId)];
  }

  lemma NamesOnTheWire(names: seq<seq<u8>>)
    ensures Enc(KVec(KStr), NamesVal(names)) == NamesBytes(names)
  {
    ElementsConcat(KStr, NamesVal(names).items);
    assert Elements(KStr, NamesVal(names).items) == seq(|names|, i requires 0 <= i < |names| => Text16(names[i]));
  }

  lemma QIdsOnTheWire(qids: seq<QId>)
    ensures Enc(KVec(QIdK), QIdsVal(qids)) == QIdsBytes(qids)
  {
    forall i | 0 <= i < |qids| ensures Enc(QIdK, QIdVal(qids[i])) == QIdBytes(qids[i]) {
      QIdOnTheWire(qids[i]);
    }
    hide QIdVal, QIdBytes;
    ElementsConcat(QIdK, QIdsVal(qids).items);
    assert Elements(QIdK, QIdsVal(qids).items) == seq(|qids|, i requires 0 <= i < |qids| => QIdBytes(qids[i]));
  }

  lemma DirentsOnTheWire(es: seq<DirEntry>)
    ensures Enc(KDir(DirEntryK), DirentsVal(es)) == DirentsBytes(es)
  {
    forall i | 0 <= i < |es| ensures Enc(DirEntryK, DirEntryVal(es[i])) == DirEntryBytes(es[i]) {
      DirEntryOnTheWire(es[i]);
    }
    hide DirEntryVal, DirEntryBytes;
    ElementsConcat(DirEntryK, DirentsVal(es).items);
    assert Elements(DirEntryK, DirentsVal(es).items) == seq(|es|, i requires 0 <= i < |es| => DirEntryBytes(es[i]));
  }

  lemma Records()
    ensures forall q: QId {:trigger QIdVal(q)} :: Enc(QIdK, QIdVal(q)) == QIdBytes(q)
    ensures forall r: StatFs {:trigger StatFsVal(r)} :: Enc(StatFsK, StatFsVal(r)) == StatFsBytes(r)
    ensures forall r: Stat {:trigger StatVal(r)} :: Enc(StatK, StatVal(r)) == StatBytes(r)
    ensures forall r: SetAttr {:trigger SetAttrVal(r)} :: Enc(SetAttrK, SetAttrVal(r)) == SetAttrBytes(r)
    ensures forall r: Flock {:trigger FlockVal(r)} :: Enc(FlockK, FlockVal(r)) == FlockBytes(r)
    ensures forall r: Getlock {:trigger GetlockVal(r)} :: Enc(GetlockK, GetlockVal(r)) == GetlockBytes(r)
  {
    hide *;
    forall q: QId ensures Enc(QIdK, QIdVal(q)) == QIdBytes(q) { QIdOnTheWire(q); }
    forall r: StatFs ensures Enc(StatFsK, StatFsVal(r)) == StatFsBytes(r) { StatFsOnTheWire(r); }
    forall r: Stat ensures Enc(StatK, StatVal(r)) == StatBytes(r) { StatOnTheWire(r); }
    forall r: SetAttr ensures Enc(SetAttrK, SetAttrVal(r)) == SetAttrBytes(r) { SetAttrOnTheWire(r); }
    forall r: Flock ensures Enc(FlockK, FlockVal(r)) == FlockBytes(r) { FlockOnTheWire(r); }
    forall r: Getlock ensures Enc(GetlockK, GetlockVal(r)) == GetlockBytes(r) { GetlockOnTheWire(r); }
  }

  // ---- Whole messages

  /** The bytes of a message: its number, its tag, and then its fields. */
  predicate Wire(tag: u16, body: FCall, n: u8, fields: seq<seq<u8>>) {
    EncMsg(Msg(tag, body)) == [n] + LE(2, tag) + Concat(fields)
  }

  /** At most seven fields, one by one. */
  predicate SameFields(ks: seq<Kind>, vs: seq<Val>, fields: seq<seq<u8>>)
    requires |ks| == |vs| <= 7
  {
    && |fields| == |ks|
    && (|ks| > 0 ==> fields[0] == Enc(ks[0], vs[0]))
    && (|ks| > 1 ==> fields[1] == Enc(ks[1], vs[1]))
    && (|ks| > 2 ==> fields[2] == Enc(ks[2], vs[2]))
    && (|ks| > 3 ==> fields[3] == Enc(ks[3], vs[3]))
    && (|ks| > 4 ==> fields[4] == Enc(ks[4], vs[4]))
    && (|ks| > 5 ==> fields[5] == Enc(ks[5], vs[5]))
    && (|ks| > 6 ==> fields[6] == Enc(ks[6], vs[6]))
  }

  lemma ByField(tag: u16, body: FCall)
    requires Layout(MsgType(body)).Some? && |Layout(MsgType(body)).value| == |Fields(body)| <= 7
    ensures forall n: u8, fields {:trigger Wire(tag, body, n, fields)} ::
              n == MsgType(body) && SameFields(Layout(MsgType(body)).value, Fields(body), fields) ==>
                Wire(tag, body, n, fields)
  {
    OnlyParts(tag, body);
    var ks, vs := Layout(MsgType(body)).value, Fields(body);
    FieldsConcat(ks, vs);
    hide MsgType, Layout, Fields, SameFields, Parts, EncMsg, Encs, LE, Concat;
    forall fields | SameFields(ks, vs, fields) ensures fields == Parts(ks, vs) {
      OnlySuchParts(ks, vs, fields);
    }
  }

  lemma OnlySuchParts(ks: seq<Kind>, vs: seq<Val>, fields: seq<seq<u8>>)
    requires |ks| == |vs| <= 7 && SameFields(ks, vs, fields)
    ensures fields == Parts(ks, vs)
  {
    hide Enc;
  }

  lemma {:induction false} OnlyParts(tag: u16, body: FCall)
    requires Layout(MsgType(body)).Some?
    ensures EncMsg(Msg(tag, body)) == [MsgType(body)] + LE(2, tag) + Encs(Layout(MsgType(body)).value, Fields(body))
  {
    OneByteWord(MsgType(body));
    hide MsgType, Layout, Fields, LE, Encs;
  }

  lemma OpenOnTheWire(tag: u16, body: FCall)
    requires InOpen(body)
    ensures match body
              case RlError(ecode) => Wire(tag, body, 7, [LE(4, ecode)])
              case TStatFs(fid) => Wire(tag, body, 8, [LE(4, fid)])
              case RStatFs(statfs) => Wire(tag, body, 9, [StatFsBytes(statfs)])
              case TlOpen(fid, flags) => Wire(tag, body, 12, [LE(4, fid), LE(4, flags)])
              case RlOpen(qid, iounit) => Wire(tag, body, 13, [QIdBytes(qid), LE(4, iounit)])
              case TlCreate(fid, name, flags, mode, gid) =>
                Wire(tag, body, 14, [LE(4, fid), Text16(name), LE(4, flags), LE(4, mode), LE(4, gid)])
              case RlCreate(qid, iounit) => Wire(tag, body, 15, [QIdBytes(qid), LE(4, iounit)])
  {
    IsOpen(body);
    Records();
    ByField(tag, body);
    hide MsgType, Layout, Fields, EncMsg, Enc, Encs, LE;
  }

  lemma NodeOnTheWire(tag: u16, body: FCall)
    requires InNode(body)
    ensures match body
              case TSymlink(fid, name, symtgt, gid) =>
                Wire(tag, body, 16, [LE(4, fid), Text16(name), Text16(symtgt), LE(4, gid)])
              case RSymlink(qid) => Wire(tag, body, 17, [QIdBytes(qid)])
              case TMkNod(dfid, name, mode, major, minor, gid) =>
                Wire(tag, body, 18, [LE(4, dfid), Text16(name), LE(4, mode), LE(4, major), LE(4, minor), LE(4, gid)])
              case RMkNod(qid) => Wire(tag, body, 19, [QIdBytes(qid)])
  {
    IsNode(body);
    Records();
    ByField(tag, body);
    hide MsgType, Layout, Fields, EncMsg, Enc, Encs, LE;
  }

  lemma RenameOnTheWire(tag: u16, body: FCall)
    requires InRename(body)
    ensures match body
              case TRename(fid, dfid, name) => Wire(tag, body, 20, [LE(4, fid), LE(4, dfid), Text16(name)])
              case RRename => Wire(tag, body, 21, [])
              case TReadLink(fid) => Wire(tag, body, 22, [LE(4, fid)])
              case RReadLink(target) => Wire(tag, body, 23, [Text16(target)])
  {
    IsRename(body);
    ByField(tag, body);
    hide MsgType, Layout, Fields, EncMsg, Enc, Encs, LE;
  }

  lemma AttrOnTheWire(tag: u16, body: FCall)
    requires InAttr(body)
    ensures match body
              case TGetAttr(fid, reqMask) => Wire(tag, body, 24, [LE(4, fid), LE(8, reqMask)])
              case RGetAttr(valid, qid, stat) =>
                Wire(tag, body, 25,
                     [LE(8, valid), QIdBytes(qid), StatBytes(stat), LE(8, 0), LE(8, 0), LE(8, 0), LE(8, 0)])
              case TSetAttr(fid, setMask, attr) => Wire(tag, body, 26, [LE(4, fid), LE(4, setMask), SetAttrBytes(attr)])
              case RSetAttr => Wire(tag, body, 27, [])
  {
    IsAttr(body);
    Records();
    ByField(tag, body);
    hide MsgType, Layout, Fields, EncMsg, Enc, Encs, LE;
  }

  lemma XattrOnTheWire(tag: u16, body: FCall)
    requires InXattr(body)
    ensures match body
              case TxAttrWalk(fid, newfid, name) => Wire(tag, body, 30, [LE(4, fid), LE(4, newfid), Text16(name)])
              case RxAttrWalk(size) => Wire(tag, body, 31, [LE(8, size)])
              case TxAttrCreate(fid, name, attrSize, flags) =>
                Wire(tag, body, 32, [LE(4, fid), Text16(name), LE(8, attrSize), LE(4, flags)])
              case RxAttrCreate => Wire(tag, body, 33, [])
  {
    IsXattr(body);
    ByField(tag, body);
    hide MsgType, Layout, Fields, EncMsg, Enc, Encs, LE;
  }

  lemma DirOnTheWire(tag: u16, body: FCall)
    requires InDir(body)
    ensures match body
              case TReadDir(fid, offset, count) => Wire(tag, body, 40, [LE(4, fid), LE(8, offset), LE(4, count)])
              case RReadDir(dirents) => Wire(tag, body, 41, [DirentsBytes(dirents)])
              case TFSync(fid) => Wire(tag, body, 50, [LE(4, fid)])
              case RFSync => Wire(tag, body, 51, [])
  {
    IsDir(body);
    if body.RReadDir? {
      DirentsOnTheWire(body.dirents);
    }
    ByField(tag, body);
    hide MsgType, Layout, Fields, EncMsg, Enc, Encs, LE;
  }

  lemma LockOnTheWire(tag: u16, body: FCall)
    requires InLock(body)
    ensures match body
              case TLock(fid, flock) => Wire(tag, body, 52, [LE(4, fid), FlockBytes(flock)])
              case RLock(status) => Wire(tag, body, 53, [[status]])
              case TGetLock(fid, getlock) => Wire(tag, body, 54, [LE(4, fid), GetlockBytes(getlock)])
              case RGetLock(getlock) => Wire(tag, body, 55, [GetlockBytes(getlock)])
  {
    IsLock(body);
    Records();
    ByField(tag, body);
    hide MsgType, Layout, Fields, EncMsg, Enc, Encs, LE;
  }

  lemma LinkOnTheWire(tag: u16, body: FCall)
    requires InLink(body)
    ensures match body
              case TLink(dfid, fid, name) => Wire(tag, body, 70, [LE(4, dfid), LE(4, fid), Text16(name)])
              case RLink => Wire(tag, body, 71, [])
              case TMkDir(dfid, name, mode, gid) =>
                Wire(tag, body, 72, [LE(4, dfid), Text16(name), LE(4, mode), LE(4, gid)])
              case RMkDir(qid) => Wire(tag, body, 73, [QIdBytes(qid)])
  {
    IsLink(body);
    Records();
    ByField(tag, body);
    hide MsgType, Layout, Fields, EncMsg, Enc, Encs, LE;
  }

  lemma AtOnTheWire(tag: u16, body: FCall)
    requires InAt(body)
    ensures match body
              case TRenameAt(olddirfid, oldname, newdirfid, newname) =>
                Wire(tag, body, 74, [LE(4, olddirfid), Text16(oldname), LE(4, newdirfid), Text16(newname)])
              case RRenameAt => Wire(tag, body, 75, [])
              case TUnlinkAt(dirfd, name, flags) => Wire(tag, body, 76, [LE(4, dirfd), Text16(name), LE(4, flags)])
              case RUnlinkAt => Wire(tag, body, 77, [])
  {
    IsAt(body);
    ByField(tag, body);
    hide MsgType, Layout, Fields, EncMsg, Enc, Encs, LE;
  }

  lemma SessionOnTheWire(tag: u16, body: FCall)
    requires InSession(body)
    ensures match body
              case TVersion(msize, version) => Wire(tag, body, 100, [LE(4, msize), Text16(version)])
              case RVersion(msize, version) => Wire(tag, body, 101, [LE(4, msize), Text16(version)])
              case TAuth(afid, uname, aname, nUname) =>
                Wire(tag, body, 102, [LE(4, afid), Text16(uname), Text16(aname), LE(4, nUname)])
              case RAuth(aqid) => Wire(tag, body, 103, [QIdBytes(aqid)])
  {
    IsSession(body);
    Records();
    ByField(tag, body);
    hide MsgType, Layout, Fields, EncMsg, Enc, Encs, LE;
  }

  lemma AttachOnTheWire(tag: u16, body: FCall)
    requires InAttach(body)
    ensures match body
              case TAttach(fid, afid, uname, aname, nUname) =>
                Wire(tag, body, 104, [LE(4, fid), LE(4, afid), Text16(uname), Text16(aname), LE(4, nUname)])
              case RAttach(qid) => Wire(tag, body, 105, [QIdBytes(qid)])
              case TFlush(oldtag) => Wire(tag, body, 108, [LE(2, oldtag)])
              case RFlush => Wire(tag, body, 109, [])
  {
    IsAttach(body);
    Records();
    ByField(tag, body);
    hide MsgType, Layout, Fields, EncMsg, Enc, Encs, LE;
  }

  lemma WalkOnTheWire(tag: u16, body: FCall)
    requires InWalk(body)
    ensures match body
              case TWalk(fid, newfid, wnames) => Wire(tag, body, 110, [LE(4, fid), LE(4, newfid), NamesBytes(wnames)])
              case RWalk(wqids) => Wire(tag, body, 111, [QIdsBytes(wqids)])
              case TRead(fid, offset, count) => Wire(tag, body, 116, [LE(4, fid), LE(8, offset), LE(4, count)])
              case RRead(data) => Wire(tag, body, 117, [Data32(data)])
  {
    IsWalk(body);
    if body.TWalk? {
      NamesOnTheWire(body.wnames);
    } else if body.RWalk? {
      QIdsOnTheWire(body.wqids);
    }
    ByField(tag, body);
    hide MsgType, Layout, Fields, EncMsg, Enc, Encs, LE;
  }

  lemma FidOnTheWire(tag: u16, body: FCall)
    requires InFid(body)
    ensures match body
              case TWrite(fid, offset, data) => Wire(tag, body, 118, [LE(4, fid), LE(8, offset), Data32(data)])
              case RWrite(count) => Wire(tag, body, 119, [LE(4, count)])
              case TClunk(fid) => Wire(tag, body, 120, [LE(4, fid)])
              case RClunk => Wire(tag, body, 121, [])
              case TRemove(fid) => Wire(tag, body, 122, [LE(4, fid)])
              case RRemove => Wire(tag, body, 123, [])
  {
    IsFid(body);
    Records();
    ByField(tag, body);
    hide MsgType, Layout, Fields, EncMsg, Enc, Encs, LE;
  }

  lemma OddInOpen(body: FCall)
    requires InOpen(body)
    ensures IsR(body) <==> MsgType(body) % 2 == 1
  {
    IsOpen(body);
    hide MsgType, Fields, Layout, Build;
  }

  lemma OddInNode(body: FCall)
    requires InNode(body)
    ensures IsR(body) <==> MsgType(body) % 2 == 1
  {
    IsNode(body);
    hide MsgType, Fields, Layout, Build;
  }

  lemma OddInRename(body: FCall)
    requires InRename(body)
    ensures IsR(body) <==> MsgType(body) % 2 == 1
  {
    IsRename(body);
    hide MsgType, Fields, Layout, Build;
  }

  lemma OddInAttr(body: FCall)
    requires InAttr(body)
    ensures IsR(body) <==> MsgType(body) % 2 == 1
  {
    IsAttr(body);
    hide MsgType, Fields, Layout, Build;
  }

  lemma OddInXattr(body: FCall)
    requires InXattr(body)
    ensures IsR(body) <==> MsgType(body) % 2 == 1
  {
    IsXattr(body);
    hide MsgType, Fields, Layout, Build;
  }

  lemma OddInDir(body: FCall)
    requires InDir(body)
    ensures IsR(body) <==> MsgType(body) % 2 == 1
  {
    IsDir(body);
    hide MsgType, Fields, Layout, Build;
  }

  lemma OddInLock(body: FCall)
    requires InLock(body)
    ensures IsR(body) <==> MsgType(body) % 2 == 1
  {
    IsLock(body);
    hide MsgType, Fields, Layout, Build;
  }

  lemma OddInLink(body: FCall)
    requires InLink(body)
    ensures IsR(body) <==> MsgType(body) % 2 == 1
  {
    IsLink(body);
    hide MsgType, Fields, Layout, Build;
  }

  lemma OddInAt(body: FCall)
    requires InAt(body)
    ensures IsR(body) <==> MsgType(body) % 2 == 1
  {
    IsAt(body);
    hide MsgType, Fields, Layout, Build;
  }

  lemma OddInSession(body: FCall)
    requires InSession(body)
    ensures IsR(body) <==> MsgType(body) % 2 == 1
  {
    IsSession(body);
    hide MsgType, Fields, Layout, Build;
  }

  lemma OddInAttach(body: FCall)
    requires InAttach(body)
    ensures IsR(body) <==> MsgType(body) % 2 == 1
  {
    IsAttach(body);
    hide MsgType, Fields, Layout, Build;
  }

  lemma OddInWalk(body: FCall)
    requires InWalk(body)
    ensures IsR(body) <==> MsgType(body) % 2 == 1
  {
    IsWalk(body);
    hide MsgType, Fields, Layout, Build;
  }

  lemma OddInFid(body: FCall)
    requires InFid(body)
    ensures IsR(body) <==> MsgType(body) % 2 == 1
  {
    IsFid(body);
    hide MsgType, Fields, Layout, Build;
  }

  /** The messages that a server may send are those with odd numbers. */
  lemma RepliesAreOdd(body: FCall)
    ensures IsR(body) <==> MsgType(body) % 2 == 1
  {
    SomeFamily(body);
    hide *;
    if InOpen(body) {
      OddInOpen(body);
    } else if InNode(body) {
      OddInNode(body);
    } else if InRename(body) {
      OddInRename(body);
    } else if InAttr(body) {
      OddInAttr(body);
    } else if InXattr(body) {
      OddInXattr(body);
    } else if InDir(body) {
      OddInDir(body);
    } else if InLock(body) {
      OddInLock(body);
    } else if InLink(body) {
      OddInLink(body);
    } else if InAt(body) {
      OddInAt(body);
    } else if InSession(body) {
      OddInSession(body);
    } else if InAttach(body) {
      OddInAttach(body);
    } else if InWalk(body) {
      OddInWalk(body);
    } else {
      OddInFid(body);
    }
  }
}
