/** Which messages survive the wire, and which bytes are read as which message. */
module RoundTrips {
  import opened Wrappers
  import opened Bytes
  import opened Utf8
  import opened Fcall
  import opened Grammar
  import opened Messages
  import opened Codec

  /** A string whose length survives the cast to 16 bits. */
  predicate Text(s: seq<u8>) {
    |s| < U16_SPAN && ValidUtf8(s)
  }

  /** Only defined flag bits, lengths that survive their casts, and a directory payload whose byte count,
      cast to 32 bits, happens to be its number of entries. */
  predicate Faithful(body: FCall) {
    if InOpen(body) then FaithfulOpen(body)
    else if InNode(body) then FaithfulNode(body)
    else if InRename(body) then FaithfulRename(body)
    else if InAttr(body) then FaithfulAttr(body)
    else if InXattr(body) then FaithfulXattr(body)
    else if InDir(body) then FaithfulDir(body)
    else if InLock(body) then FaithfulLock(body)
    else if InLink(body) then FaithfulLink(body)
    else if InAt(body) then FaithfulAt(body)
    else if InSession(body) then FaithfulSession(body)
    else if InAttach(body) then FaithfulAttach(body)
    else if InWalk(body) then FaithfulWalk(body)
    else FaithfulFid(body)
  }

  predicate FaithfulOpen(body: FCall)
    requires InOpen(body)
  {
    match body
    case RlError(_) => true
    case TStatFs(_) => true
    case RStatFs(_) => true
    case TlOpen(_, _) => true
    case RlOpen(_, _) => true
    case TlCreate(_, name, _, _, _) => Text(name)
    case RlCreate(_, _) => true
  }

  predicate FaithfulNode(body: FCall)
    requires InNode(body)
  {
    match body
    case TSymlink(_, name, symtgt, _) => Text(name) && Text(symtgt)
    case RSymlink(_) => true
    case TMkNod(_, name, _, _, _, _) => Text(name)
    case RMkNod(_) => true
  }

  predicate FaithfulRename(body: FCall)
    requires InRename(body)
  {
    match body
    case TRename(_, _, name) => Text(name)
    case RRename => true
    case TReadLink(_) => true
    case RReadLink(target) => Text(target)
  }

  predicate FaithfulAttr(body: FCall)
    requires InAttr(body)
  {
    match body
    case TGetAttr(_, reqMask) => reqMask < 0x4000
    case RGetAttr(valid, _, _) => valid < 0x4000
    case TSetAttr(_, setMask, _) => setMask < 0x200
    case RSetAttr => true
  }

  predicate FaithfulXattr(body: FCall)
    requires InXattr(body)
  {
    match body
    case TxAttrWalk(_, _, name) => Text(name)
    case RxAttrWalk(_) => true
    case TxAttrCreate(_, name, _, _) => Text(name)
    case RxAttrCreate => true
  }

  predicate FaithfulDir(body: FCall)
    requires InDir(body)
  {
    match body
    case TReadDir(_, _, _) => true
    case RReadDir(dirents) =>
      && PayloadSize(dirents) % U32_SPAN == |dirents|
      && forall i :: 0 <= i < |dirents| ==> Text(dirents[i].name)
    case TFSync(_) => true
    case RFSync => true
  }

  predicate FaithfulLock(body: FCall)
    requires InLock(body)
  {
    match body
    case TLock(_, flock) => flock.typ < 4 && flock.flags < 4 && Text(flock.clientId)
    case RLock(status) => status < 4
    case TGetLock(_, getlock) => getlock.typ < 4 && Text(getlock.clientId)
    case RGetLock(getlock) => getlock.typ < 4 && Text(getlock.clientId)
  }

  predicate FaithfulLink(body: FCall)
    requires InLink(body)
  {
    match body
    case TLink(_, _, name) => Text(name)
    case RLink => true
    case TMkDir(_, name, _, _) => Text(name)
    case RMkDir(_) => true
  }

  predicate FaithfulAt(body: FCall)
    requires InAt(body)
  {
    match body
    case TRenameAt(_, oldname, _, newname) => Text(oldname) && Text(newname)
    case RRenameAt => true
    case TUnlinkAt(_, name, _) => Text(name)
    case RUnlinkAt => true
  }

  predicate FaithfulSession(body: FCall)
    requires InSession(body)
  {
    match body
    case TVersion(_, version) => Text(version)
    case RVersion(_, version) => Text(version)
    case TAuth(_, uname, aname, _) => Text(uname) && Text(aname)
    case RAuth(_) => true
  }

  predicate FaithfulAttach(body: FCall)
    requires InAttach(body)
  {
    match body
    case TAttach(_, _, uname, aname, _) => Text(uname) && Text(aname)
    case RAttach(_) => true
    case TFlush(_) => true
    case RFlush => true
  }

  predicate FaithfulWalk(body: FCall)
    requires InWalk(body)
  {
    match body
    case TWalk(_, _, wnames) =>
      && |wnames| < U16_SPAN
      && forall i :: 0 <= i < |wnames| ==> Text(wnames[i])
    case RWalk(wqids) => |wqids| < U16_SPAN
    case TRead(_, _, _) => true
    case RRead(data) => |data| < U32_SPAN
  }

  predicate FaithfulFid(body: FCall)
    requires InFid(body)
  {
    match body
    case TWrite(_, _, data) => |data| < U32_SPAN
    case RWrite(_) => true
    case TClunk(_) => true
    case RClunk => true
    case TRemove(_) => true
    case RRemove => true
  }

  /** The number of bytes of an encoded directory payload. */
  function PayloadSize(es: seq<DirEntry>): nat {
    if es == [] then 0 else 24 + |es[0].name| + PayloadSize(es[1..])
  }

  predicate AllWellFormed(ks: seq<Kind>, vs: seq<Val>) {
    |ks| == |vs| && forall i :: 0 <= i < |ks| ==> WellFormed(ks[i], vs[i])
  }

  /** At most seven fields, one by one. */
  lemma FieldByField(ks: seq<Kind>, vs: seq<Val>)
    requires |ks| == |vs| <= 7
    ensures AllWellFormed(ks, vs) <==>
            && (|ks| > 0 ==> WellFormed(ks[0], vs[0]))
            && (|ks| > 1 ==> WellFormed(ks[1], vs[1]))
            && (|ks| > 2 ==> WellFormed(ks[2], vs[2]))
            && (|ks| > 3 ==> WellFormed(ks[3], vs[3]))
            && (|ks| > 4 ==> WellFormed(ks[4], vs[4]))
            && (|ks| > 5 ==> WellFormed(ks[5], vs[5]))
            && (|ks| > 6 ==> WellFormed(ks[6], vs[6]))
  {
  }

  // ---- Records and vectors

  lemma RecordsWellFormed()
    ensures forall r: QId :: WellFormed(QIdK, QIdVal(r))
    ensures forall r: Time :: WellFormed(TimeK, TimeVal(r))
    ensures forall r: StatFs :: WellFormed(StatFsK, StatFsVal(r))
  {
    Spans();
  }

  lemma AttributesWellFormed()
    ensures forall r: Stat :: WellFormed(StatK, StatVal(r))
    ensures forall r: SetAttr :: WellFormed(SetAttrK, SetAttrVal(r))
  {
    Spans();
    RecordsWellFormed();
  }

  lemma FlockWellFormed(r: Flock)
    ensures WellFormed(FlockK, FlockVal(r)) <==> r.typ < 4 && r.flags < 4 && Text(r.clientId)
  {
    Spans();
    FieldByField(FlockK.parts, FlockVal(r).parts);
  }

  lemma GetlockWellFormed(r: Getlock)
    ensures WellFormed(GetlockK, GetlockVal(r)) <==> r.typ < 4 && Text(r.clientId)
  {
    Spans();
    FieldByField(GetlockK.parts, GetlockVal(r).parts);
  }

  lemma DirEntryWellFormed(e: DirEntry)
    ensures WellFormed(DirEntryK, DirEntryVal(e)) <==> Text(e.name)
    ensures |Enc(DirEntryK, DirEntryVal(e))| == 24 + |e.name|
  {
    Spans();
    RecordsWellFormed();
    var ks, vs := DirEntryK.parts, DirEntryVal(e).parts;
    FieldByField(ks, vs);
    QIdLength(e.qid);
    LengthFrom(ks, vs, 0);
    LengthFrom(ks, vs, 1);
    LengthFrom(ks, vs, 2);
    LengthFrom(ks, vs, 3);
  }

  lemma QIdLength(q: QId)
    ensures |Enc(QIdK, QIdVal(q))| == 13
  {
    var ks, vs := QIdK.parts, QIdVal(q).parts;
    LengthFrom(ks, vs, 0);
    LengthFrom(ks, vs, 1);
    LengthFrom(ks, vs, 2);
  }

  lemma LengthFrom(ks: seq<Kind>, vs: seq<Val>, i: nat)
    requires i < |ks| == |vs|
    ensures |Encs(ks[i..], vs[i..])| == |Enc(ks[i], vs[i])| + |Encs(ks[i + 1..], vs[i + 1..])|
    ensures ks[0..] == ks && vs[0..] == vs
  {
    assert ks[i..][1..] == ks[i + 1..] && vs[i..][1..] == vs[i + 1..];
  }

  lemma {:induction false} PayloadLength(es: seq<DirEntry>)
    ensures |EncN(DirEntryK, DirentsVal(es).items)| == PayloadSize(es)
  {
    if es != [] {
      DirEntryWellFormed(es[0]);
      PayloadLength(es[1..]);
      assert DirentsVal(es).items[1..] == DirentsVal(es[1..]).items;
    }
  }

  lemma {:induction false} DirentsWellFormed(es: seq<DirEntry>)
    ensures WellFormed(KDir(DirEntryK), DirentsVal(es)) <==>
            PayloadSize(es) % U32_SPAN == |es| && forall i :: 0 <= i < |es| ==> Text(es[i].name)
  {
    PayloadLength(es);
    forall i | 0 <= i < |es| ensures WellFormed(DirEntryK, DirentsVal(es).items[i]) <==> Text(es[i].name) {
      DirEntryWellFormed(es[i]);
    }
  }

  lemma NamesWellFormed(names: seq<seq<u8>>)
    ensures WellFormed(KVec(KStr), NamesVal(names)) <==>
            |names| < U16_SPAN && forall i :: 0 <= i < |names| ==> Text(names[i])
  {
    assert forall i :: 0 <= i < |names| ==> NamesVal(names).items[i] == Str(names[i]);
  }

  lemma QIdsWellFormed(qids: seq<QId>)
    ensures WellFormed(KVec(QIdK), QIdsVal(qids)) <==> |qids| < U16_SPAN
  {
    RecordsWellFormed();
  }

  // ---- Messages

  lemma FaithfulInOpen(body: FCall)
    requires InOpen(body) && OpenLayout(OpenType(body)).Some?
    requires |OpenLayout(OpenType(body)).value| == |OpenFields(body)| <= 7
    ensures AllWellFormed(OpenLayout(OpenType(body)).value, OpenFields(body)) <==> FaithfulOpen(body)
  {
    Spans();
    RecordsWellFormed();
    var vs := OpenFields(body);
    match body
    case RlError(_) =>
    case TStatFs(_) =>
    case RStatFs(_) =>
    case TlOpen(_, _) =>
    case RlOpen(_, _) =>
    case TlCreate(_, name, _, _, _) => assert vs[1] == Str(name);
    case RlCreate(_, _) =>
  }

  lemma FaithfulInNode(body: FCall)
    requires InNode(body) && NodeLayout(NodeType(body)).Some?
    requires |NodeLayout(NodeType(body)).value| == |NodeFields(body)| <= 7
    ensures AllWellFormed(NodeLayout(NodeType(body)).value, NodeFields(body)) <==> FaithfulNode(body)
  {
    Spans();
    RecordsWellFormed();
    var vs := NodeFields(body);
    match body
    case TSymlink(_, name, symtgt, _) => assert vs[1] == Str(name) && vs[2] == Str(symtgt);
    case RSymlink(_) =>
    case TMkNod(_, name, _, _, _, _) => assert vs[1] == Str(name);
    case RMkNod(_) =>
  }

  lemma FaithfulInRename(body: FCall)
    requires InRename(body) && RenameLayout(RenameType(body)).Some?
    requires |RenameLayout(RenameType(body)).value| == |RenameFields(body)| <= 7
    ensures AllWellFormed(RenameLayout(RenameType(body)).value, RenameFields(body)) <==> FaithfulRename(body)
  {
    Spans();
    var vs := RenameFields(body);
    match body
    case TRename(_, _, name) => assert vs[2] == Str(name);
    case RRename =>
    case TReadLink(_) =>
    case RReadLink(target) => assert vs[0] == Str(target);
  }

  lemma FaithfulInAttr(body: FCall)
    requires InAttr(body) && AttrLayout(AttrType(body)).Some?
    requires |AttrLayout(AttrType(body)).value| == |AttrFields(body)| <= 7
    ensures AllWellFormed(AttrLayout(AttrType(body)).value, AttrFields(body)) <==> FaithfulAttr(body)
  {
    Spans();
    RecordsWellFormed();
    AttributesWellFormed();
    var vs := AttrFields(body);
    match body
    case TGetAttr(_, reqMask) => assert vs[1] == Int(reqMask);
    case RGetAttr(valid, _, _) => assert vs[0] == Int(valid);
    case TSetAttr(_, setMask, _) => assert vs[1] == Int(setMask);
    case RSetAttr =>
  }

  lemma FaithfulInXattr(body: FCall)
    requires InXattr(body) && XattrLayout(XattrType(body)).Some?
    requires |XattrLayout(XattrType(body)).value| == |XattrFields(body)| <= 7
    ensures AllWellFormed(XattrLayout(XattrType(body)).value, XattrFields(body)) <==> FaithfulXattr(body)
  {
    Spans();
    var vs := XattrFields(body);
    match body
    case TxAttrWalk(_, _, name) => assert vs[2] == Str(name);
    case RxAttrWalk(_) =>
    case TxAttrCreate(_, name, _, _) => assert vs[1] == Str(name);
    case RxAttrCreate =>
  }

  lemma FaithfulInDir(body: FCall)
    requires InDir(body) && DirLayout(DirType(body)).Some?
    requires |DirLayout(DirType(body)).value| == |DirFields(body)| <= 7
    ensures AllWellFormed(DirLayout(DirType(body)).value, DirFields(body)) <==> FaithfulDir(body)
  {
    Spans();
    var vs := DirFields(body);
    match body
    case TReadDir(_, _, _) =>
    case RReadDir(dirents) => DirentsWellFormed(dirents); assert vs[0] == DirentsVal(dirents);
    case TFSync(_) =>
    case RFSync =>
  }

  lemma FaithfulInLock(body: FCall)
    requires InLock(body) && LockLayout(LockType(body)).Some?
    requires |LockLayout(LockType(body)).value| == |LockFields(body)| <= 7
    ensures AllWellFormed(LockLayout(LockType(body)).value, LockFields(body)) <==> FaithfulLock(body)
  {
    Spans();
    var vs := LockFields(body);
    match body
    case TLock(_, flock) => FlockWellFormed(flock); assert vs[1] == FlockVal(flock);
    case RLock(status) => assert vs[0] == Int(status);
    case TGetLock(_, getlock) => GetlockWellFormed(getlock); assert vs[1] == GetlockVal(getlock);
    case RGetLock(getlock) => GetlockWellFormed(getlock); assert vs[0] == GetlockVal(getlock);
  }

  lemma FaithfulInLink(body: FCall)
    requires InLink(body) && LinkLayout(LinkType(body)).Some?
    requires |LinkLayout(LinkType(body)).value| == |LinkFields(body)| <= 7
    ensures AllWellFormed(LinkLayout(LinkType(body)).value, LinkFields(body)) <==> FaithfulLink(body)
  {
    Spans();
    RecordsWellFormed();
    var vs := LinkFields(body);
    match body
    case TLink(_, _, name) => assert vs[2] == Str(name);
    case RLink =>
    case TMkDir(_, name, _, _) => assert vs[1] == Str(name);
    case RMkDir(_) =>
  }

  lemma FaithfulInAt(body: FCall)
    requires InAt(body) && AtLayout(AtType(body)).Some?
    requires |AtLayout(AtType(body)).value| == |AtFields(body)| <= 7
    ensures AllWellFormed(AtLayout(AtType(body)).value, AtFields(body)) <==> FaithfulAt(body)
  {
    Spans();
    var vs := AtFields(body);
    match body
    case TRenameAt(_, oldname, _, newname) => assert vs[1] == Str(oldname) && vs[3] == Str(newname);
    case RRenameAt =>
    case TUnlinkAt(_, name, _) => assert vs[1] == Str(name);
    case RUnlinkAt =>
  }

  lemma FaithfulInSession(body: FCall)
    requires InSession(body) && SessionLayout(SessionType(body)).Some?
    requires |SessionLayout(SessionType(body)).value| == |SessionFields(body)| <= 7
    ensures AllWellFormed(SessionLayout(SessionType(body)).value, SessionFields(body)) <==> FaithfulSession(body)
  {
    Spans();
    RecordsWellFormed();
    var vs := SessionFields(body);
    match body
    case TVersion(_, version) => assert vs[1] == Str(version);
    case RVersion(_, version) => assert vs[1] == Str(version);
    case TAuth(_, uname, aname, _) => assert vs[1] == Str(uname) && vs[2] == Str(aname);
    case RAuth(_) =>
  }

  lemma FaithfulInAttach(body: FCall)
    requires InAttach(body) && AttachLayout(AttachType(body)).Some?
    requires |AttachLayout(AttachType(body)).value| == |AttachFields(body)| <= 7
    ensures AllWellFormed(AttachLayout(AttachType(body)).value, AttachFields(body)) <==> FaithfulAttach(body)
  {
    Spans();
    RecordsWellFormed();
    var vs := AttachFields(body);
    match body
    case TAttach(_, _, uname, aname, _) => assert vs[2] == Str(uname) && vs[3] == Str(aname);
    case RAttach(_) =>
    case TFlush(_) =>
    case RFlush =>
  }

  lemma FaithfulInWalk(body: FCall)
    requires InWalk(body) && WalkLayout(WalkType(body)).Some?
    requires |WalkLayout(WalkType(body)).value| == |WalkFields(body)| <= 7
    ensures AllWellFormed(WalkLayout(WalkType(body)).value, WalkFields(body)) <==> FaithfulWalk(body)
  {
    Spans();
    var vs := WalkFields(body);
    match body
    case TWalk(_, _, wnames) => NamesWellFormed(wnames); assert vs[2] == NamesVal(wnames);
    case RWalk(wqids) => QIdsWellFormed(wqids); assert vs[0] == QIdsVal(wqids);
    case TRead(_, _, _) =>
    case RRead(data) => assert vs[0] == Val.Data(data);
  }

  lemma FaithfulInFid(body: FCall)
    requires InFid(body) && FidLayout(FidType(body)).Some?
    requires |FidLayout(FidType(body)).value| == |FidFields(body)| <= 7
    ensures AllWellFormed(FidLayout(FidType(body)).value, FidFields(body)) <==> FaithfulFid(body)
  {
    Spans();
    var vs := FidFields(body);
    match body
    case TWrite(_, _, data) => assert vs[2] == Val.Data(data);
    case RWrite(_) =>
    case TClunk(_) =>
    case RClunk =>
    case TRemove(_) =>
    case RRemove =>
  }

  lemma FaithfulFieldsOfOpen(body: FCall)
    requires InOpen(body)
    ensures Layout(MsgType(body)).Some?
    ensures AllWellFormed(Layout(MsgType(body)).value, Fields(body)) <==> Faithful(body)
  {
    IsOpen(body);
    FaithfulInOpen(body);
    hide MsgType, Layout, Fields, OpenType, OpenLayout, OpenFields, FaithfulOpen, AllWellFormed;
  }

  lemma FaithfulFieldsOfNode(body: FCall)
    requires InNode(body)
    ensures Layout(MsgType(body)).Some?
    ensures AllWellFormed(Layout(MsgType(body)).value, Fields(body)) <==> Faithful(body)
  {
    IsNode(body);
    FaithfulInNode(body);
    hide MsgType, Layout, Fields, NodeType, NodeLayout, NodeFields, FaithfulNode, AllWellFormed;
    assert !InOpen(body);
    hide InOpen;
  }

  lemma FaithfulFieldsOfRename(body: FCall)
    requires InRename(body)
    ensures Layout(MsgType(body)).Some?
    ensures AllWellFormed(Layout(MsgType(body)).value, Fields(body)) <==> Faithful(body)
  {
    IsRename(body);
    FaithfulInRename(body);
    hide MsgType, Layout, Fields, RenameType, RenameLayout, RenameFields, FaithfulRename, AllWellFormed;
    assert !InOpen(body) && !InNode(body);
    hide InOpen, InNode;
  }

  lemma FaithfulFieldsOfAttr(body: FCall)
    requires InAttr(body)
    ensures Layout(MsgType(body)).Some?
    ensures AllWellFormed(Layout(MsgType(body)).value, Fields(body)) <==> Faithful(body)
  {
    IsAttr(body);
    FaithfulInAttr(body);
    hide MsgType, Layout, Fields, AttrType, AttrLayout, AttrFields, FaithfulAttr, AllWellFormed;
    assert !InOpen(body) && !InNode(body) && !InRename(body);
    hide InOpen, InNode, InRename;
  }

  lemma FaithfulFieldsOfXattr(body: FCall)
    requires InXattr(body)
    ensures Layout(MsgType(body)).Some?
    ensures AllWellFormed(Layout(MsgType(body)).value, Fields(body)) <==> Faithful(body)
  {
    IsXattr(body);
    FaithfulInXattr(body);
    hide MsgType, Layout, Fields, XattrType, XattrLayout, XattrFields, FaithfulXattr, AllWellFormed;
    assert !InOpen(body) && !InNode(body) && !InRename(body) && !InAttr(body);
    hide InOpen, InNode, InRename, InAttr;
  }

  lemma FaithfulFieldsOfDir(body: FCall)
    requires InDir(body)
    ensures Layout(MsgType(body)).Some?
    ensures AllWellFormed(Layout(MsgType(body)).value, Fields(body)) <==> Faithful(body)
  {
    IsDir(body);
    FaithfulInDir(body);
    hide MsgType, Layout, Fields, DirType, DirLayout, DirFields, FaithfulDir, AllWellFormed;
    assert !InOpen(body) && !InNode(body) && !InRename(body) && !InAttr(body) && !InXattr(body);
    hide InOpen, InNode, InRename, InAttr, InXattr;
  }

  lemma FaithfulFieldsOfLock(body: FCall)
    requires InLock(body)
    ensures Layout(MsgType(body)).Some?
    ensures AllWellFormed(Layout(MsgType(body)).value, Fields(body)) <==> Faithful(body)
  {
    IsLock(body);
    FaithfulInLock(body);
    hide MsgType, Layout, Fields, LockType, LockLayout, LockFields, FaithfulLock, AllWellFormed;
    assert !InOpen(body) && !InNode(body) && !InRename(body) && !InAttr(body) && !InXattr(body) && !InDir(body);
    hide InOpen, InNode, InRename, InAttr, InXattr, InDir;
  }

  lemma FaithfulFieldsOfLink(body: FCall)
    requires InLink(body)
    ensures Layout(MsgType(body)).Some?
    ensures AllWellFormed(Layout(MsgType(body)).value, Fields(body)) <==> Faithful(body)
  {
    IsLink(body);
    FaithfulInLink(body);
    hide MsgType, Layout, Fields, LinkType, LinkLayout, LinkFields, FaithfulLink, AllWellFormed;
    assert !InOpen(body) && !InNode(body) && !InRename(body) && !InAttr(body) && !InXattr(body) && !InDir(body)
        && !InLock(body);
    hide InOpen, InNode, InRename, InAttr, InXattr, InDir, InLock;
  }

  lemma FaithfulFieldsOfAt(body: FCall)
    requires InAt(body)
    ensures Layout(MsgType(body)).Some?
    ensures AllWellFormed(Layout(MsgType(body)).value, Fields(body)) <==> Faithful(body)
  {
    IsAt(body);
    FaithfulInAt(body);
    hide MsgType, Layout, Fields, AtType, AtLayout, AtFields, FaithfulAt, AllWellFormed;
    assert !InOpen(body) && !InNode(body) && !InRename(body) && !InAttr(body) && !InXattr(body) && !InDir(body)
        && !InLock(body) && !InLink(body);
    hide InOpen, InNode, InRename, InAttr, InXattr, InDir, InLock, InLink;
  }

  lemma FaithfulFieldsOfSession(body: FCall)
    requires InSession(body)
    ensures Layout(MsgType(body)).Some?
    ensures AllWellFormed(Layout(MsgType(body)).value, Fields(body)) <==> Faithful(body)
  {
    IsSession(body);
    FaithfulInSession(body);
    hide MsgType, Layout, Fields, SessionType, SessionLayout, SessionFields, FaithfulSession, AllWellFormed;
    assert !InOpen(body) && !InNode(body) && !InRename(body) && !InAttr(body) && !InXattr(body) && !InDir(body)
        && !InLock(body) && !InLink(body) && !InAt(body);
    hide InOpen, InNode, InRename, InAttr, InXattr, InDir, InLock, InLink, InAt;
  }

  lemma FaithfulFieldsOfAttach(body: FCall)
    requires InAttach(body)
    ensures Layout(MsgType(body)).Some?
    ensures AllWellFormed(Layout(MsgType(body)).value, Fields(body)) <==> Faithful(body)
  {
    IsAttach(body);
    FaithfulInAttach(body);
    hide MsgType, Layout, Fields, AttachType, AttachLayout, AttachFields, FaithfulAttach, AllWellFormed;
    assert !InOpen(body) && !InNode(body) && !InRename(body) && !InAttr(body) && !InXattr(body) && !InDir(body)
        && !InLock(body) && !InLink(body) && !InAt(body) && !InSession(body);
    hide InOpen, InNode, InRename, InAttr, InXattr, InDir, InLock, InLink, InAt, InSession;
  }

  lemma FaithfulFieldsOfWalk(body: FCall)
    requires InWalk(body)
    ensures Layout(MsgType(body)).Some?
    ensures AllWellFormed(Layout(MsgType(body)).value, Fields(body)) <==> Faithful(body)
  {
    IsWalk(body);
    FaithfulInWalk(body);
    hide MsgType, Layout, Fields, WalkType, WalkLayout, WalkFields, FaithfulWalk, AllWellFormed;
    assert !InOpen(body) && !InNode(body) && !InRename(body) && !InAttr(body) && !InXattr(body) && !InDir(body)
        && !InLock(body) && !InLink(body) && !InAt(body) && !InSession(body) && !InAttach(body);
    hide InOpen, InNode, InRename, InAttr, InXattr, InDir, InLock, InLink, InAt, InSession, InAttach;
  }

  lemma FaithfulFieldsOfFid(body: FCall)
    requires InFid(body)
    ensures Layout(MsgType(body)).Some?
    ensures AllWellFormed(Layout(MsgType(body)).value, Fields(body)) <==> Faithful(body)
  {
    IsFid(body);
    FaithfulInFid(body);
    hide MsgType, Layout, Fields, FidType, FidLayout, FidFields, FaithfulFid, AllWellFormed;
    assert !InOpen(body) && !InNode(body) && !InRename(body) && !InAttr(body) && !InXattr(body) && !InDir(body)
        && !InLock(body) && !InLink(body) && !InAt(body) && !InSession(body) && !InAttach(body) && !InWalk(body);
    hide InOpen, InNode, InRename, InAttr, InXattr, InDir, InLock, InLink, InAt, InSession, InAttach, InWalk;
  }

  lemma FaithfulFields(body: FCall)
    ensures Layout(MsgType(body)).Some?
    ensures AllWellFormed(Layout(MsgType(body)).value, Fields(body)) <==> Faithful(body)
  {
    SomeFamily(body);
    hide *;
    if InOpen(body) {
      FaithfulFieldsOfOpen(body);
    } else if InNode(body) {
      FaithfulFieldsOfNode(body);
    } else if InRename(body) {
      FaithfulFieldsOfRename(body);
    } else if InAttr(body) {
      FaithfulFieldsOfAttr(body);
    } else if InXattr(body) {
      FaithfulFieldsOfXattr(body);
    } else if InDir(body) {
      FaithfulFieldsOfDir(body);
    } else if InLock(body) {
      FaithfulFieldsOfLock(body);
    } else if InLink(body) {
      FaithfulFieldsOfLink(body);
    } else if InAt(body) {
      FaithfulFieldsOfAt(body);
    } else if InSession(body) {
      FaithfulFieldsOfSession(body);
    } else if InAttach(body) {
      FaithfulFieldsOfAttach(body);
    } else if InWalk(body) {
      FaithfulFieldsOfWalk(body);
    } else {
      FaithfulFieldsOfFid(body);
    }
  }

  lemma {:induction false} WellFormedIsShaped(k: Kind, v: Val)
    requires WellFormed(k, v)
    ensures Kept(k, v) && Shaped(k, v)
    decreases k
  {
    match k
    case KRec(ks) =>
      forall i | 0 <= i < |ks| ensures Kept(ks[i], v.parts[i]) && Shaped(ks[i], v.parts[i]) {
        WellFormedIsShaped(ks[i], v.parts[i]);
      }
    case KVec(e) =>
      forall i | 0 <= i < |v.items| ensures Kept(e, v.items[i]) && Shaped(e, v.items[i]) {
        WellFormedIsShaped(e, v.items[i]);
      }
    case KDir(e) =>
      forall i | 0 <= i < |v.items| ensures Kept(e, v.items[i]) && Shaped(e, v.items[i]) {
        WellFormedIsShaped(e, v.items[i]);
      }
    case _ =>
  }

  /** The bytes after the tag are a spelling of the message body. */
  predicate SpellsBody(body: FCall, c: seq<u8>) {
    match Layout(MsgType(body))
    case Some(ks) => SpellsAll(ks, Fields(body), c)
    case None => false
  }

  lemma {:induction false} ReadHeader(b: seq<u8>)
    requires |b| >= 3
    ensures Dec(U8K, b) == Ok((Int(b[0]), b[1..]))
    ensures Dec(U16K, b[1..]) == Ok((Int(FromLE(b[1..3])), b[3..]))
  {
    Spans();
    assert FromLE(b[..1]) == b[0] + 0x100 * FromLE(b[..1][1..]);
    WrittenRead(b[1..3]);
    assert b[1..][..2] == b[1..3] && b[1..][2..] == b[3..];
  }

  lemma WrittenHeader(m: Msg)
    ensures var b := EncMsg(m); |b| == 3 + |EncBody(m.body)| && b[3..] == EncBody(m.body)
    ensures var b := EncMsg(m); b[0] == MsgType(m.body) && FromLE(b[1..3]) == m.tag
  {
    Spans();
    ReadWritten(2, m.tag);
    assert EncMsg(m)[1..3] == LE(2, m.tag);
  }

  /** A reader takes the body from the bytes exactly when they start with one of its spellings. */
  lemma BodyReads(n: u8, b: seq<u8>)
    requires DecBody(n, b).Ok?
    ensures var (body, rest) := DecBody(n, b).value; var k := |EncBody(body)|;
            MsgType(body) == n && k <= |b| && SpellsBody(body, b[..k]) && rest == b[k..]
  {
    var ks := Layout(n).value;
    DecsReads(ks, b);
    DecsShaped(ks, b);
    FieldsOfBuilt(n, Decs(ks, b).value.0);
  }

  lemma BodyAccepts(body: FCall, c: seq<u8>, rest: seq<u8>)
    requires SpellsBody(body, c)
    ensures DecBody(MsgType(body), c + rest) == Ok((body, rest))
  {
    var ks := Layout(MsgType(body)).value;
    DecsAccepts(ks, Fields(body), c, rest);
    DecsShaped(ks, c + rest);
    BuiltOfFields(body);
  }

  lemma BodyRoundTrip(body: FCall, rest: seq<u8>)
    ensures DecBody(MsgType(body), EncBody(body) + rest) == Ok((body, rest)) <==> Faithful(body)
  {
    FaithfulFields(body);
    var ks := Layout(MsgType(body)).value;
    EncsSpells(ks, Fields(body));
    assert (EncBody(body) + rest)[..|EncBody(body)|] == EncBody(body);
    if Faithful(body) {
      BodyAccepts(body, EncBody(body), rest);
    }
    if DecBody(MsgType(body), EncBody(body) + rest) == Ok((body, rest)) {
      BodyReads(MsgType(body), EncBody(body) + rest);
    }
  }

  /** Decoding the encoding of a message, with anything following, gives the message back and leaves what
      follows, exactly when the message is faithful. */
  lemma MsgRoundTrip(m: Msg, rest: seq<u8>)
    ensures DecMsg(EncMsg(m) + rest) == Ok((m, rest)) <==> Faithful(m.body)
  {
    var b := EncMsg(m) + rest;
    WrittenHeader(m);
    ReadHeader(b);
    BodyRoundTrip(m.body, rest);
    assert b[1..3] == EncMsg(m)[1..3] && b[3..] == EncBody(m.body) + rest;
  }

  /** The decoder accepts exactly the spellings: it reads `m` from `b` exactly when `b` starts with the type,
      the tag, and a spelling of the body as long as the body's own encoding. */
  lemma DecodingReadsSpellings(b: seq<u8>, m: Msg, rest: seq<u8>)
    ensures DecMsg(b) == Ok((m, rest)) <==>
            var k := |EncMsg(m)|;
            && 3 <= k <= |b| && b[0] == MsgType(m.body) && FromLE(b[1..3]) == m.tag
            && SpellsBody(m.body, b[3..k]) && rest == b[k..]
  {
    var k := |EncMsg(m)|;
    WrittenHeader(m);
    if DecMsg(b).Ok? {
      ReadHeader(b);
      if DecMsg(b) == Ok((m, rest)) {
        BodyReads(b[0], b[3..]);
        assert b[3..][..k - 3] == b[3..k] && b[3..][k - 3..] == b[k..];
      }
    }
    if 3 <= k <= |b| && b[0] == MsgType(m.body) && FromLE(b[1..3]) == m.tag
       && SpellsBody(m.body, b[3..k]) && rest == b[k..]
    {
      ReadHeader(b);
      BodyAccepts(m.body, b[3..k], rest);
      assert b[3..k] + rest == b[3..];
    }
  }

  /** The messages of which a reader keeps every bit: no flags, no reserved words, no directory. */
  predicate KeepsEveryBit(body: FCall) {
    !(body.TGetAttr? || body.RGetAttr? || body.TSetAttr? || body.TLock? || body.RLock? || body.TGetLock? ||
      body.RGetLock? || body.RReadDir?)
  }

  predicate AllLossless(ks: seq<Kind>) { forall i :: 0 <= i < |ks| ==> Lossless(ks[i]) }

  predicate NoDirs(ks: seq<Kind>) { forall i :: 0 <= i < |ks| ==> NoDir(ks[i]) }

  lemma LosslessRecords()
    ensures Lossless(QIdK) && Lossless(TimeK) && Lossless(StatFsK) && Lossless(StatK) && Lossless(SetAttrK)
    ensures NoDir(QIdK) && NoDir(StatFsK) && NoDir(StatK) && NoDir(SetAttrK) && NoDir(FlockK) && NoDir(GetlockK)
  {
    Spans();
    assert Lossless(TimeK) && NoDir(TimeK);
  }

  lemma KeptLayouts(n: u8)
    requires Layout(n).Some?
    ensures n !in {24, 25, 26, 52, 53, 54, 55, 41} ==> AllLossless(Layout(n).value)
    ensures n != 41 ==> NoDirs(Layout(n).value)
  {
    Spans();
    LosslessRecords();
  }

  /** Decoding is canonicalising. What is read from any bytes other than a directory reply is faithful, so it
      re-encodes to as many bytes as were consumed and decodes to itself; and where the reader keeps every
      bit the bytes consumed are that encoding. */
  lemma DecodingCanonicalises(b: seq<u8>)
    requires DecMsg(b).Ok?
    ensures var (m, rest) := DecMsg(b).value; var k := |EncMsg(m)|;
            && k <= |b| && rest == b[k..]
            && (!m.body.RReadDir? ==> Faithful(m.body) && DecMsg(EncMsg(m) + rest) == Ok((m, rest)))
            && (KeepsEveryBit(m.body) ==> b[..k] == EncMsg(m))
  {
    var (m, rest) := DecMsg(b).value;
    var k := |EncMsg(m)|;
    DecodingReadsSpellings(b, m, rest);
    WrittenHeader(m);
    var n := MsgType(m.body);
    var ks := Layout(n).value;
    KeptLayouts(n);
    SpellingsAreWellFormed(ks, Fields(m.body), b[3..k]);
    FaithfulFields(m.body);
    NumbersOfLossy(m.body);
    MsgRoundTrip(m, rest);
    if KeepsEveryBit(m.body) {
      OneSpellingAll(ks, Fields(m.body), b[3..k]);
      assert b[..k][1..3] == b[1..3] && b[..k][3..] == b[3..k];
      SameHeader(b[..k], EncMsg(m));
    }
  }

  lemma NumbersOfLossy(body: FCall)
    ensures MsgType(body) == 41 <==> body.RReadDir?
    ensures MsgType(body) in {24, 25, 26, 52, 53, 54, 55, 41} <==> !KeepsEveryBit(body)
  {
    if InAttr(body) {
      IsAttr(body);
    } else if InDir(body) {
      IsDir(body);
    } else if InLock(body) {
      IsLock(body);
    } else {
      NumbersElsewhere(body);
    }
    hide MsgType;
  }

  lemma NumbersOfOpen(body: FCall)
    requires InOpen(body)
    ensures 7 <= MsgType(body) < 16 && KeepsEveryBit(body)
  {
    IsOpen(body);
    hide MsgType;
  }

  lemma NumbersOfNode(body: FCall)
    requires InNode(body)
    ensures 16 <= MsgType(body) < 20 && KeepsEveryBit(body)
  {
    IsNode(body);
    hide MsgType;
  }

  lemma NumbersOfRename(body: FCall)
    requires InRename(body)
    ensures 20 <= MsgType(body) < 24 && KeepsEveryBit(body)
  {
    IsRename(body);
    hide MsgType;
  }

  lemma NumbersOfXattr(body: FCall)
    requires InXattr(body)
    ensures 30 <= MsgType(body) < 40 && KeepsEveryBit(body)
  {
    IsXattr(body);
    hide MsgType;
  }

  lemma NumbersOfLink(body: FCall)
    requires InLink(body)
    ensures 70 <= MsgType(body) < 74 && KeepsEveryBit(body)
  {
    IsLink(body);
    hide MsgType;
  }

  lemma NumbersOfAt(body: FCall)
    requires InAt(body)
    ensures 74 <= MsgType(body) < 100 && KeepsEveryBit(body)
  {
    IsAt(body);
    hide MsgType;
  }

  lemma NumbersOfSession(body: FCall)
    requires InSession(body)
    ensures 100 <= MsgType(body) < 104 && KeepsEveryBit(body)
  {
    IsSession(body);
    hide MsgType;
  }

  lemma NumbersOfAttach(body: FCall)
    requires InAttach(body)
    ensures 104 <= MsgType(body) < 110 && KeepsEveryBit(body)
  {
    IsAttach(body);
    hide MsgType;
  }

  lemma NumbersOfWalk(body: FCall)
    requires InWalk(body)
    ensures 110 <= MsgType(body) < 118 && KeepsEveryBit(body)
  {
    IsWalk(body);
    hide MsgType;
  }

  lemma NumbersOfFid(body: FCall)
    requires InFid(body)
    ensures 118 <= MsgType(body) < 0x100 && KeepsEveryBit(body)
  {
    IsFid(body);
    hide MsgType;
  }

  lemma NumbersElsewhere(body: FCall)
    requires !InAttr(body) && !InDir(body) && !InLock(body)
    ensures MsgType(body) !in {24, 25, 26, 40, 41, 50, 51, 52, 53, 54, 55}
    ensures KeepsEveryBit(body)
  {
    SomeFamily(body);
    hide *;
    if InOpen(body) {
      NumbersOfOpen(body);
    } else if InNode(body) {
      NumbersOfNode(body);
    } else if InRename(body) {
      NumbersOfRename(body);
    } else if InXattr(body) {
      NumbersOfXattr(body);
    } else if InLink(body) {
      NumbersOfLink(body);
    } else if InAt(body) {
      NumbersOfAt(body);
    } else if InSession(body) {
      NumbersOfSession(body);
    } else if InAttach(body) {
      NumbersOfAttach(body);
    } else if InWalk(body) {
      NumbersOfWalk(body);
    } else {
      NumbersOfFid(body);
    }
  }

  lemma SameHeader(a: seq<u8>, b: seq<u8>)
    requires |a| == |b| >= 3 && a[0] == b[0] && FromLE(a[1..3]) == FromLE(b[1..3]) && a[3..] == b[3..]
    ensures a == b
  {
    WrittenRead(a[1..3]);
    WrittenRead(b[1..3]);
    assert a == a[..1] + a[1..3] + a[3..] && b == b[..1] + b[1..3] + b[3..];
  }

  // ---- Directory payloads

  /** What the code computes as the size of a payload is the number of bytes that follow, modulo 2^32. */
  lemma {:induction false} PayloadCount(es: seq<DirEntry>)
    ensures DirentsSize(es) == PayloadSize(es) % U32_SPAN
  {
    if es != [] {
      var init, last := es[..|es| - 1], es[|es| - 1];
      PayloadCount(init);
      PayloadSnoc(init, last);
      assert init + [last] == es;
      WrappedSum(PayloadSize(init), 24 + |last.name|);
    }
  }

  lemma WrappedSum(a: nat, b: nat)
    ensures (a % U32_SPAN + b % U32_SPAN) % U32_SPAN == (a + b) % U32_SPAN
  {
  }

  lemma {:induction false} PayloadSnoc(es: seq<DirEntry>, e: DirEntry)
    ensures PayloadSize(es + [e]) == PayloadSize(es) + 24 + |e.name|
  {
    if es == [] {
      assert PayloadSize([e]) == 24 + |e.name| + PayloadSize([e][1..]);
    } else {
      PayloadSnoc(es[1..], e);
      assert (es + [e])[1..] == es[1..] + [e];
    }
  }

  lemma {:induction false} PayloadAtLeast(es: seq<DirEntry>)
    ensures PayloadSize(es) >= 24 * |es|
  {
    if es != [] {
      PayloadAtLeast(es[1..]);
    }
  }

  /** Below 2^32 bytes, the empty directory reply is the only faithful one. */
  lemma {:induction false} OnlyEmptyDirectoriesSurvive(es: seq<DirEntry>)
    requires PayloadSize(es) < U32_SPAN
    ensures Faithful(RReadDir(es)) <==> es == []
  {
    PayloadAtLeast(es);
  }

  lemma {:induction false} EntriesTakeRoom(vs: seq<Val>, c: seq<u8>)
    requires SpellsN(DirEntryK, vs, c)
    ensures |c| >= 24 * |vs|
    decreases |vs|
  {
    if vs != [] {
      var n := |Enc(DirEntryK, vs[0])|;
      EntrySize(vs[0], c[..n]);
      EntriesTakeRoom(vs[1..], c[n..]);
    }
  }

  lemma {:induction false} EntrySize(v: Val, c: seq<u8>)
    requires Spells(DirEntryK, v, c)
    ensures |c| >= 24
  {
    SpellingIsWellFormed(DirEntryK, v, c);
    DecAccepts(DirEntryK, v, c, []);
    DecShaped(DirEntryK, c + []);
    DirEntrySame(v);
    DirEntryWellFormed(DirEntryOf(v));
  }

  /** The code's own reader, which takes the byte count for an entry count, fails on the exact encoding of
      every non-empty directory reply below 2^32 bytes. */
  lemma {:induction false} OwnReaderFailsOnDirectories(tag: u16, es: seq<DirEntry>)
    requires es != [] && PayloadSize(es) < U32_SPAN
    ensures DecMsg(EncMsg(Msg(tag, RReadDir(es)))).Err?
  {
    var m := Msg(tag, RReadDir(es));
    var b := EncMsg(m);
    if DecMsg(b).Ok? {
      WrittenHeader(m);
      ReadHeader(b);
      BodyReads(b[0], b[3..]);
      var body := DecBody(b[0], b[3..]).value.0;
      NumbersOfLossy(body);
      NumbersOfLossy(m.body);
      DirectoryReadsTooMuch(es, body.dirents, b[3..]);
      assert false;
    }
  }

  lemma {:induction false} DirectoryReadsTooMuch(es: seq<DirEntry>, read: seq<DirEntry>, b: seq<u8>)
    requires es != [] && PayloadSize(es) < U32_SPAN && b == EncBody(RReadDir(es))
    ensures var k := |EncBody(RReadDir(read))|; !(k <= |b| && SpellsBody(RReadDir(read), b[..k]))
  {
    var k := |EncBody(RReadDir(read))|;
    if k <= |b| && SpellsBody(RReadDir(read), b[..k]) {
      var c := b[..k];
      assert |c| >= 4 ==> c[..4] == b[..4];
      PayloadAtLeast(es);
      DirectoryBytes(es);
      DirectorySpelled(read, c);
    }
  }

  /** Bytes that spell a directory reply hold 24 bytes or more for each entry counted. */
  lemma DirectorySpelled(read: seq<DirEntry>, c: seq<u8>)
    requires |c| == |EncBody(RReadDir(read))| && SpellsBody(RReadDir(read), c)
    ensures |c| >= 4 && |c| >= 4 + 24 * FromLE(c[..4])
  {
    var vs := DirentsVal(read).items;
    assert Fields(RReadDir(read)) == [DirentsVal(read)] && Layout(41) == Some([KDir(DirEntryK)]);
    var n := |Enc(KDir(DirEntryK), DirentsVal(read))|;
    assert Spells(KDir(DirEntryK), DirentsVal(read), c[..n]);
    EntriesTakeRoom(vs, c[..n][4..]);
    assert c[..n][..4] == c[..4];
  }

  lemma {:induction false} DirectoryBytes(es: seq<DirEntry>)
    ensures var b := EncBody(RReadDir(es));
            && |b| == 4 + PayloadSize(es) && FromLE(b[..4]) == PayloadSize(es) % U32_SPAN
            && b[4..] == EncN(DirEntryK, DirentsVal(es).items)
  {
    PayloadLength(es);
    var p := EncN(DirEntryK, DirentsVal(es).items);
    assert Fields(RReadDir(es)) == [DirentsVal(es)] && Layout(41) == Some([KDir(DirEntryK)]);
    LengthFrom([KDir(DirEntryK)], [DirentsVal(es)], 0);
    assert EncBody(RReadDir(es)) == Enc(KDir(DirEntryK), DirentsVal(es));
    CountSurvives(4, |p|, U32_SPAN, p);
  }

  /** A reader of directory replies that is bounded by bytes, as 9P2000.L clients are. */
  function ReadEntries(b: seq<u8>): Result<seq<DirEntry>, DecodeError>
    decreases |b|
  {
    if b == [] then Ok([]) else
    var (v, rest) :- Dec(DirEntryK, b);
    DecShaped(DirEntryK, b);
    DecReads(DirEntryK, b);
    EntrySize(v, b[..|Enc(DirEntryK, v)|]);
    SpellingIsWellFormed(DirEntryK, v, b[..|Enc(DirEntryK, v)|]);
    var es :- ReadEntries(rest);
    Ok([DirEntryOf(v)] + es)
  }

  /** The count of a directory reply below 2^32 bytes is the size the code computes and the exact number of
      bytes that follow. */
  lemma {:induction false} DirectoryCount(es: seq<DirEntry>)
    requires PayloadSize(es) < U32_SPAN
    ensures var b := EncBody(RReadDir(es));
            |b| >= 4 && FromLE(b[..4]) == |b| - 4 == DirentsSize(es)
  {
    DirectoryBytes(es);
    PayloadCount(es);
  }

  /** Reading the counted bytes of a directory reply as entries gives the entries back. */
  lemma {:induction false} DirectoryPayload(es: seq<DirEntry>, b: seq<u8>)
    requires PayloadSize(es) < U32_SPAN && forall i :: 0 <= i < |es| ==> Text(es[i].name)
    requires b == EncBody(RReadDir(es))
    ensures |b| >= 4 && ReadEntries(b[4..]) == Ok(es)
  {
    DirectoryBytes(es);
    EntriesBack(es);
  }

  lemma {:induction false} EntriesBack(es: seq<DirEntry>)
    requires forall i :: 0 <= i < |es| ==> Text(es[i].name)
    ensures ReadEntries(EncN(DirEntryK, DirentsVal(es).items)) == Ok(es)
  {
    if es != [] {
      var e, rest := es[0], EncN(DirEntryK, DirentsVal(es[1..]).items);
      assert DirentsVal(es).items[1..] == DirentsVal(es[1..]).items;
      DirEntryWellFormed(e);
      RoundTrip(DirEntryK, DirEntryVal(e), rest);
      EntriesBack(es[1..]);
      DirentsBack([e]);
      assert DirEntryOf(DirentsVal([e]).items[0]) == DirentsOf(DirentsVal([e]))[0];
      assert [e] + es[1..] == es;
    }
  }
}
