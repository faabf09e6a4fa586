/** What encoding and decoding whole messages promise. */
module Codec {
  import opened Wrappers
  import opened Bytes
  import opened Utf8
  import opened Fcall
  import opened Grammar
  import opened Messages

  /** Type, tag, then the fields. */
  function EncMsg(m: Msg): seq<u8> {
    Enc(U8K, Int(MsgType(m.body))) + Enc(U16K, Int(m.tag)) + EncBody(m.body)
  }

  function EncBody(body: FCall): seq<u8> {
    match Layout(MsgType(body))
    case Some(ks) => Encs(ks, Fields(body))
    case None => []
  }

  /** The type is read before the tag and judged after it. */
  function DecMsg(b: seq<u8>): Decoded<Msg> {
    var (n, afterType) :- Dec(U8K, b);
    var (tag, afterTag) :- Dec(U16K, afterType);
    var (body, rest) :- DecBody(n.x, afterTag);
    Ok((Msg(tag.x, body), rest))
  }

  function DecBody(n: u8, b: seq<u8>): Decoded<FCall> {
    if Layout(n).None? then Err(InvalidType) else
    var (vs, rest) :- Decs(Layout(n).value, b);
    DecsShaped(Layout(n).value, b);
    Ok((Build(n, vs), rest))
  }

  // ---- Fields and messages are the same thing

  lemma {:induction false} DecShaped(k: Kind, b: seq<u8>)
    requires Dec(k, b).Ok?
    ensures Kept(k, Dec(k, b).value.0) && Shaped(k, Dec(k, b).value.0)
    decreases k, 0
  {
    match k
    case KInt(w, limit) =>
      KeptPart(FromLE(b[..w]), limit);
    case KRec(ks) =>
      DecsShaped(ks, b);
    case KVec(e) =>
      DecNShaped(e, FromLE(b[..2]), b[2..]);
    case KDir(e) =>
      DecNShaped(e, FromLE(b[..4]), b[4..]);
    case _ =>
  }

  lemma {:induction false} DecsShaped(ks: seq<Kind>, b: seq<u8>)
    requires Decs(ks, b).Ok?
    ensures ShapedAll(ks, Decs(ks, b).value.0)
    decreases ks, 0
  {
    if ks != [] {
      DecShaped(ks[0], b);
      DecsShaped(ks[1..], Dec(ks[0], b).value.1);
      var vs := Decs(ks, b).value.0;
      assert forall i :: 0 < i < |ks| ==> ks[i] == ks[1..][i - 1] && vs[i] == vs[1..][i - 1];
    }
  }

  lemma {:induction false} DecNShaped(e: Kind, n: nat, b: seq<u8>)
    requires DecN(e, n, b).Ok?
    ensures forall v :: v in DecN(e, n, b).value.0 ==> Kept(e, v) && Shaped(e, v)
    decreases e, n + 1
  {
    if n > 0 {
      DecShaped(e, b);
      DecNShaped(e, n - 1, Dec(e, b).value.1);
    }
  }

  lemma {:induction false} QIdSame(v: Val)
    requires Shaped(QIdK, v)
    ensures QIdVal(QIdOf(v)) == v
  {
    assert v.parts == QIdVal(QIdOf(v)).parts;
  }

  lemma {:induction false} TimeSame(v: Val)
    requires Shaped(TimeK, v)
    ensures TimeVal(TimeOf(v)) == v
  {
    assert v.parts == TimeVal(TimeOf(v)).parts;
  }

  lemma {:induction false} StatFsSame(v: Val)
    requires Shaped(StatFsK, v)
    ensures StatFsVal(StatFsOf(v)) == v
  {
    assert v.parts == StatFsVal(StatFsOf(v)).parts;
  }

  lemma {:induction false} StatSame(v: Val)
    requires Shaped(StatK, v)
    ensures StatVal(StatOf(v)) == v
  {
    TimeSame(v.parts[8]);
    TimeSame(v.parts[9]);
    TimeSame(v.parts[10]);
    assert v.parts == StatVal(StatOf(v)).parts;
  }

  lemma {:induction false} SetAttrSame(v: Val)
    requires Shaped(SetAttrK, v)
    ensures SetAttrVal(SetAttrOf(v)) == v
  {
    TimeSame(v.parts[4]);
    TimeSame(v.parts[5]);
    assert v.parts == SetAttrVal(SetAttrOf(v)).parts;
  }

  lemma {:induction false} DirEntrySame(v: Val)
    requires Shaped(DirEntryK, v)
    ensures DirEntryVal(DirEntryOf(v)) == v
  {
    QIdSame(v.parts[0]);
    assert v.parts == DirEntryVal(DirEntryOf(v)).parts;
  }

  lemma {:induction false} FlockSame(v: Val)
    requires Shaped(FlockK, v)
    ensures FlockVal(FlockOf(v)) == v
  {
    assert v.parts == FlockVal(FlockOf(v)).parts;
  }

  lemma {:induction false} GetlockSame(v: Val)
    requires Shaped(GetlockK, v)
    ensures GetlockVal(GetlockOf(v)) == v
  {
    assert v.parts == GetlockVal(GetlockOf(v)).parts;
  }

  lemma {:induction false} NamesSame(v: Val)
    requires Shaped(KVec(KStr), v)
    ensures NamesVal(NamesOf(v)) == v
  {
    assert NamesVal(NamesOf(v)).items == v.items;
  }

  lemma {:induction false} QIdsSame(v: Val)
    requires Shaped(KVec(QIdK), v)
    ensures QIdsVal(QIdsOf(v)) == v
  {
    forall i | 0 <= i < |v.items| ensures QIdVal(QIdOf(v.items[i])) == v.items[i] {
      QIdSame(v.items[i]);
    }
    assert QIdsVal(QIdsOf(v)).items == v.items;
  }

  lemma {:induction false} DirentsSame(v: Val)
    requires Shaped(KDir(DirEntryK), v)
    ensures DirentsVal(DirentsOf(v)) == v
  {
    forall i | 0 <= i < |v.items| ensures DirEntryVal(DirEntryOf(v.items[i])) == v.items[i] {
      DirEntrySame(v.items[i]);
    }
    assert DirentsVal(DirentsOf(v)).items == v.items;
  }

  lemma IsOpen(body: FCall)
    requires InOpen(body)
    ensures MsgType(body) == OpenType(body) && Fields(body) == OpenFields(body)
    ensures Layout(MsgType(body)) == OpenLayout(OpenType(body)) && Layout(MsgType(body)).Some?
    ensures |Layout(MsgType(body)).value| == |Fields(body)| <= 7
    ensures ShapedAll(Layout(MsgType(body)).value, Fields(body)) ==> Build(MsgType(body), Fields(body)) == body
  {
    match body
    case RlError(_) =>
    case TStatFs(_) =>
    case RStatFs(_) =>
    case TlOpen(_, _) =>
    case RlOpen(_, _) =>
    case TlCreate(_, _, _, _, _) =>
    case RlCreate(_, _) =>
  }

  lemma IsNode(body: FCall)
    requires InNode(body)
    ensures MsgType(body) == NodeType(body) && Fields(body) == NodeFields(body)
    ensures Layout(MsgType(body)) == NodeLayout(NodeType(body)) && Layout(MsgType(body)).Some?
    ensures |Layout(MsgType(body)).value| == |Fields(body)| <= 7
    ensures ShapedAll(Layout(MsgType(body)).value, Fields(body)) ==> Build(MsgType(body), Fields(body)) == body
  {
    assert !InOpen(body);
    hide InOpen;
    match body
    case TSymlink(_, _, _, _) =>
    case RSymlink(_) =>
    case TMkNod(_, _, _, _, _, _) =>
    case RMkNod(_) =>
  }

  lemma IsRename(body: FCall)
    requires InRename(body)
    ensures MsgType(body) == RenameType(body) && Fields(body) == RenameFields(body)
    ensures Layout(MsgType(body)) == RenameLayout(RenameType(body)) && Layout(MsgType(body)).Some?
    ensures |Layout(MsgType(body)).value| == |Fields(body)| <= 7
    ensures ShapedAll(Layout(MsgType(body)).value, Fields(body)) ==> Build(MsgType(body), Fields(body)) == body
  {
    assert !InOpen(body) && !InNode(body);
    hide InOpen, InNode;
    match body
    case TRename(_, _, _) =>
    case RRename =>
    case TReadLink(_) =>
    case RReadLink(_) =>
  }

  lemma IsAttr(body: FCall)
    requires InAttr(body)
    ensures MsgType(body) == AttrType(body) && Fields(body) == AttrFields(body)
    ensures Layout(MsgType(body)) == AttrLayout(AttrType(body)) && Layout(MsgType(body)).Some?
    ensures |Layout(MsgType(body)).value| == |Fields(body)| <= 7
    ensures ShapedAll(Layout(MsgType(body)).value, Fields(body)) ==> Build(MsgType(body), Fields(body)) == body
  {
    assert !InOpen(body) && !InNode(body) && !InRename(body);
    hide InOpen, InNode, InRename;
    match body
    case TGetAttr(_, _) =>
    case RGetAttr(_, _, _) =>
    case TSetAttr(_, _, _) =>
    case RSetAttr =>
  }

  lemma IsXattr(body: FCall)
    requires InXattr(body)
    ensures MsgType(body) == XattrType(body) && Fields(body) == XattrFields(body)
    ensures Layout(MsgType(body)) == XattrLayout(XattrType(body)) && Layout(MsgType(body)).Some?
    ensures |Layout(MsgType(body)).value| == |Fields(body)| <= 7
    ensures ShapedAll(Layout(MsgType(body)).value, Fields(body)) ==> Build(MsgType(body), Fields(body)) == body
  {
    assert !InOpen(body) && !InNode(body) && !InRename(body) && !InAttr(body);
    hide InOpen, InNode, InRename, InAttr;
    match body
    case TxAttrWalk(_, _, _) =>
    case RxAttrWalk(_) =>
    case TxAttrCreate(_, _, _, _) =>
    case RxAttrCreate =>
  }

  lemma IsDir(body: FCall)
    requires InDir(body)
    ensures MsgType(body) == DirType(body) && Fields(body) == DirFields(body)
    ensures Layout(MsgType(body)) == DirLayout(DirType(body)) && Layout(MsgType(body)).Some?
    ensures |Layout(MsgType(body)).value| == |Fields(body)| <= 7
    ensures ShapedAll(Layout(MsgType(body)).value, Fields(body)) ==> Build(MsgType(body), Fields(body)) == body
  {
    assert !InOpen(body) && !InNode(body) && !InRename(body) && !InAttr(body) && !InXattr(body);
    hide InOpen, InNode, InRename, InAttr, InXattr;
    match body
    case TReadDir(_, _, _) =>
    case RReadDir(dirents) => DirentsBack(dirents);
    case TFSync(_) =>
    case RFSync =>
  }

  lemma IsLock(body: FCall)
    requires InLock(body)
    ensures MsgType(body) == LockType(body) && Fields(body) == LockFields(body)
    ensures Layout(MsgType(body)) == LockLayout(LockType(body)) && Layout(MsgType(body)).Some?
    ensures |Layout(MsgType(body)).value| == |Fields(body)| <= 7
    ensures ShapedAll(Layout(MsgType(body)).value, Fields(body)) ==> Build(MsgType(body), Fields(body)) == body
  {
    assert !InOpen(body) && !InNode(body) && !InRename(body) && !InAttr(body) && !InXattr(body) && !InDir(body);
    hide InOpen, InNode, InRename, InAttr, InXattr, InDir;
    match body
    case TLock(_, _) =>
    case RLock(_) =>
    case TGetLock(_, _) =>
    case RGetLock(_) =>
  }

  lemma IsLink(body: FCall)
    requires InLink(body)
    ensures MsgType(body) == LinkType(body) && Fields(body) == LinkFields(body)
    ensures Layout(MsgType(body)) == LinkLayout(LinkType(body)) && Layout(MsgType(body)).Some?
    ensures |Layout(MsgType(body)).value| == |Fields(body)| <= 7
    ensures ShapedAll(Layout(MsgType(body)).value, Fields(body)) ==> Build(MsgType(body), Fields(body)) == body
  {
    assert !InOpen(body) && !InNode(body) && !InRename(body) && !InAttr(body) && !InXattr(body) && !InDir(body)
        && !InLock(body);
    hide InOpen, InNode, InRename, InAttr, InXattr, InDir, InLock;
    match body
    case TLink(_, _, _) =>
    case RLink =>
    case TMkDir(_, _, _, _) =>
    case RMkDir(_) =>
  }

  lemma IsAt(body: FCall)
    requires InAt(body)
    ensures MsgType(body) == AtType(body) && Fields(body) == AtFields(body)
    ensures Layout(MsgType(body)) == AtLayout(AtType(body)) && Layout(MsgType(body)).Some?
    ensures |Layout(MsgType(body)).value| == |Fields(body)| <= 7
    ensures ShapedAll(Layout(MsgType(body)).value, Fields(body)) ==> Build(MsgType(body), Fields(body)) == body
  {
    assert !InOpen(body) && !InNode(body) && !InRename(body) && !InAttr(body) && !InXattr(body) && !InDir(body)
        && !InLock(body) && !InLink(body);
    hide InOpen, InNode, InRename, InAttr, InXattr, InDir, InLock, InLink;
    match body
    case TRenameAt(_, _, _, _) =>
    case RRenameAt =>
    case TUnlinkAt(_, _, _) =>
    case RUnlinkAt =>
  }

  lemma IsSession(body: FCall)
    requires InSession(body)
    ensures MsgType(body) == SessionType(body) && Fields(body) == SessionFields(body)
    ensures Layout(MsgType(body)) == SessionLayout(SessionType(body)) && Layout(MsgType(body)).Some?
    ensures |Layout(MsgType(body)).value| == |Fields(body)| <= 7
    ensures ShapedAll(Layout(MsgType(body)).value, Fields(body)) ==> Build(MsgType(body), Fields(body)) == body
  {
    assert !InOpen(body) && !InNode(body) && !InRename(body) && !InAttr(body) && !InXattr(body) && !InDir(body)
        && !InLock(body) && !InLink(body) && !InAt(body);
    hide InOpen, InNode, InRename, InAttr, InXattr, InDir, InLock, InLink, InAt;
    match body
    case TVersion(_, _) =>
    case RVersion(_, _) =>
    case TAuth(_, _, _, _) =>
    case RAuth(_) =>
  }

  lemma IsAttach(body: FCall)
    requires InAttach(body)
    ensures MsgType(body) == AttachType(body) && Fields(body) == AttachFields(body)
    ensures Layout(MsgType(body)) == AttachLayout(AttachType(body)) && Layout(MsgType(body)).Some?
    ensures |Layout(MsgType(body)).value| == |Fields(body)| <= 7
    ensures ShapedAll(Layout(MsgType(body)).value, Fields(body)) ==> Build(MsgType(body), Fields(body)) == body
  {
    assert !InOpen(body) && !InNode(body) && !InRename(body) && !InAttr(body) && !InXattr(body) && !InDir(body)
        && !InLock(body) && !InLink(body) && !InAt(body) && !InSession(body);
    hide InOpen, InNode, InRename, InAttr, InXattr, InDir, InLock, InLink, InAt, InSession;
    match body
    case TAttach(_, _, _, _, _) =>
    case RAttach(_) =>
    case TFlush(_) =>
    case RFlush =>
  }

  lemma IsWalk(body: FCall)
    requires InWalk(body)
    ensures MsgType(body) == WalkType(body) && Fields(body) == WalkFields(body)
    ensures Layout(MsgType(body)) == WalkLayout(WalkType(body)) && Layout(MsgType(body)).Some?
    ensures |Layout(MsgType(body)).value| == |Fields(body)| <= 7
    ensures ShapedAll(Layout(MsgType(body)).value, Fields(body)) ==> Build(MsgType(body), Fields(body)) == body
  {
    assert !InOpen(body) && !InNode(body) && !InRename(body) && !InAttr(body) && !InXattr(body) && !InDir(body)
        && !InLock(body) && !InLink(body) && !InAt(body) && !InSession(body) && !InAttach(body);
    hide InOpen, InNode, InRename, InAttr, InXattr, InDir, InLock, InLink, InAt, InSession, InAttach;
    match body
    case TWalk(_, _, wnames) => NamesBack(wnames);
    case RWalk(wqids) => QIdsBack(wqids);
    case TRead(_, _, _) =>
    case RRead(_) =>
  }

  lemma IsFid(body: FCall)
    requires InFid(body)
    ensures MsgType(body) == FidType(body) && Fields(body) == FidFields(body)
    ensures Layout(MsgType(body)) == FidLayout(FidType(body)) && Layout(MsgType(body)).Some?
    ensures |Layout(MsgType(body)).value| == |Fields(body)| <= 7
    ensures ShapedAll(Layout(MsgType(body)).value, Fields(body)) ==> Build(MsgType(body), Fields(body)) == body
  {
    assert !InOpen(body) && !InNode(body) && !InRename(body) && !InAttr(body) && !InXattr(body) && !InDir(body)
        && !InLock(body) && !InLink(body) && !InAt(body) && !InSession(body) && !InAttach(body) && !InWalk(body);
    hide InOpen, InNode, InRename, InAttr, InXattr, InDir, InLock, InLink, InAt, InSession, InAttach, InWalk;
    match body
    case TWrite(_, _, _) =>
    case RWrite(_) =>
    case TClunk(_) =>
    case RClunk =>
    case TRemove(_) =>
    case RRemove =>
  }

  lemma BuiltOfFields(body: FCall)
    ensures Layout(MsgType(body)).Some?
    ensures ShapedAll(Layout(MsgType(body)).value, Fields(body)) ==> Build(MsgType(body), Fields(body)) == body
  {
    SomeFamily(body);
    hide *;
    if InOpen(body) {
      IsOpen(body);
    } else if InNode(body) {
      IsNode(body);
    } else if InRename(body) {
      IsRename(body);
    } else if InAttr(body) {
      IsAttr(body);
    } else if InXattr(body) {
      IsXattr(body);
    } else if InDir(body) {
      IsDir(body);
    } else if InLock(body) {
      IsLock(body);
    } else if InLink(body) {
      IsLink(body);
    } else if InAt(body) {
      IsAt(body);
    } else if InSession(body) {
      IsSession(body);
    } else if InAttach(body) {
      IsAttach(body);
    } else if InWalk(body) {
      IsWalk(body);
    } else {
      IsFid(body);
    }
  }

  lemma FieldsOfOpen(n: u8, vs: seq<Val>)
    requires 0 <= n < 16 && Layout(n).Some? && ShapedAll(Layout(n).value, vs)
    ensures MsgType(Build(n, vs)) == n && Fields(Build(n, vs)) == vs
  {
    hide MsgType, Fields;
    match n {
      case 7 => assert vs == OpenFields(OpenBuild(7, vs));
      case 8 => assert vs == OpenFields(OpenBuild(8, vs));
      case 9 => StatFsSame(vs[0]); assert vs == OpenFields(OpenBuild(9, vs));
      case 12 => assert vs == OpenFields(OpenBuild(12, vs));
      case 13 => QIdSame(vs[0]); assert vs == OpenFields(OpenBuild(13, vs));
      case 14 => assert vs == OpenFields(OpenBuild(14, vs));
      case 15 => QIdSame(vs[0]); assert vs == OpenFields(OpenBuild(15, vs));
      case _ =>
    }
    IsOpen(Build(n, vs));
  }

  lemma FieldsOfNode(n: u8, vs: seq<Val>)
    requires 16 <= n < 20 && Layout(n).Some? && ShapedAll(Layout(n).value, vs)
    ensures MsgType(Build(n, vs)) == n && Fields(Build(n, vs)) == vs
  {
    hide MsgType, Fields;
    match n {
      case 16 => assert vs == NodeFields(NodeBuild(16, vs));
      case 17 => QIdSame(vs[0]); assert vs == NodeFields(NodeBuild(17, vs));
      case 18 => assert vs == NodeFields(NodeBuild(18, vs));
      case 19 => QIdSame(vs[0]); assert vs == NodeFields(NodeBuild(19, vs));
      case _ =>
    }
    IsNode(Build(n, vs));
  }

  lemma FieldsOfRename(n: u8, vs: seq<Val>)
    requires 20 <= n < 24 && Layout(n).Some? && ShapedAll(Layout(n).value, vs)
    ensures MsgType(Build(n, vs)) == n && Fields(Build(n, vs)) == vs
  {
    hide MsgType, Fields;
    match n {
      case 20 => assert vs == RenameFields(RenameBuild(20, vs));
      case 21 => assert vs == RenameFields(RenameBuild(21, vs));
      case 22 => assert vs == RenameFields(RenameBuild(22, vs));
      case 23 => assert vs == RenameFields(RenameBuild(23, vs));
      case _ =>
    }
    IsRename(Build(n, vs));
  }

  lemma FieldsOfAttr(n: u8, vs: seq<Val>)
    requires 24 <= n < 30 && Layout(n).Some? && ShapedAll(Layout(n).value, vs)
    ensures MsgType(Build(n, vs)) == n && Fields(Build(n, vs)) == vs
  {
    hide MsgType, Fields;
    match n {
      case 24 => assert vs == AttrFields(AttrBuild(24, vs));
      case 25 => QIdSame(vs[1]); StatSame(vs[2]); assert vs == AttrFields(AttrBuild(25, vs));
      case 26 => SetAttrSame(vs[2]); assert vs == AttrFields(AttrBuild(26, vs));
      case 27 => assert vs == AttrFields(AttrBuild(27, vs));
      case _ =>
    }
    IsAttr(Build(n, vs));
  }

  lemma FieldsOfXattr(n: u8, vs: seq<Val>)
    requires 30 <= n < 40 && Layout(n).Some? && ShapedAll(Layout(n).value, vs)
    ensures MsgType(Build(n, vs)) == n && Fields(Build(n, vs)) == vs
  {
    hide MsgType, Fields;
    match n {
      case 30 => assert vs == XattrFields(XattrBuild(30, vs));
      case 31 => assert vs == XattrFields(XattrBuild(31, vs));
      case 32 => assert vs == XattrFields(XattrBuild(32, vs));
      case 33 => assert vs == XattrFields(XattrBuild(33, vs));
      case _ =>
    }
    IsXattr(Build(n, vs));
  }

  lemma FieldsOfDir(n: u8, vs: seq<Val>)
    requires 40 <= n < 52 && Layout(n).Some? && ShapedAll(Layout(n).value, vs)
    ensures MsgType(Build(n, vs)) == n && Fields(Build(n, vs)) == vs
  {
    hide MsgType, Fields;
    match n {
      case 40 => assert vs == DirFields(DirBuild(40, vs));
      case 41 => DirentsSame(vs[0]); assert vs == DirFields(DirBuild(41, vs));
      case 50 => assert vs == DirFields(DirBuild(50, vs));
      case 51 => assert vs == DirFields(DirBuild(51, vs));
      case _ =>
    }
    IsDir(Build(n, vs));
  }

  lemma FieldsOfLock(n: u8, vs: seq<Val>)
    requires 52 <= n < 70 && Layout(n).Some? && ShapedAll(Layout(n).value, vs)
    ensures MsgType(Build(n, vs)) == n && Fields(Build(n, vs)) == vs
  {
    hide MsgType, Fields;
    match n {
      case 52 => FlockSame(vs[1]); assert vs == LockFields(LockBuild(52, vs));
      case 53 => assert vs == LockFields(LockBuild(53, vs));
      case 54 => GetlockSame(vs[1]); assert vs == LockFields(LockBuild(54, vs));
      case 55 => GetlockSame(vs[0]); assert vs == LockFields(LockBuild(55, vs));
      case _ =>
    }
    IsLock(Build(n, vs));
  }

  lemma FieldsOfLink(n: u8, vs: seq<Val>)
    requires 70 <= n < 74 && Layout(n).Some? && ShapedAll(Layout(n).value, vs)
    ensures MsgType(Build(n, vs)) == n && Fields(Build(n, vs)) == vs
  {
    hide MsgType, Fields;
    match n {
      case 70 => assert vs == LinkFields(LinkBuild(70, vs));
      case 71 => assert vs == LinkFields(LinkBuild(71, vs));
      case 72 => assert vs == LinkFields(LinkBuild(72, vs));
      case 73 => QIdSame(vs[0]); assert vs == LinkFields(LinkBuild(73, vs));
      case _ =>
    }
    IsLink(Build(n, vs));
  }

  lemma FieldsOfAt(n: u8, vs: seq<Val>)
    requires 74 <= n < 100 && Layout(n).Some? && ShapedAll(Layout(n).value, vs)
    ensures MsgType(Build(n, vs)) == n && Fields(Build(n, vs)) == vs
  {
    hide MsgType, Fields;
    match n {
      case 74 => assert vs == AtFields(AtBuild(74, vs));
      case 75 => assert vs == AtFields(AtBuild(75, vs));
      case 76 => assert vs == AtFields(AtBuild(76, vs));
      case 77 => assert vs == AtFields(AtBuild(77, vs));
      case _ =>
    }
    IsAt(Build(n, vs));
  }

  lemma FieldsOfSession(n: u8, vs: seq<Val>)
    requires 100 <= n < 104 && Layout(n).Some? && ShapedAll(Layout(n).value, vs)
    ensures MsgType(Build(n, vs)) == n && Fields(Build(n, vs)) == vs
  {
    hide MsgType, Fields;
    match n {
      case 100 => assert vs == SessionFields(SessionBuild(100, vs));
      case 101 => assert vs == SessionFields(SessionBuild(101, vs));
      case 102 => assert vs == SessionFields(SessionBuild(102, vs));
      case 103 => QIdSame(vs[0]); assert vs == SessionFields(SessionBuild(103, vs));
      case _ =>
    }
    IsSession(Build(n, vs));
  }

  lemma FieldsOfAttach(n: u8, vs: seq<Val>)
    requires 104 <= n < 110 && Layout(n).Some? && ShapedAll(Layout(n).value, vs)
    ensures MsgType(Build(n, vs)) == n && Fields(Build(n, vs)) == vs
  {
    hide MsgType, Fields;
    match n {
      case 104 => assert vs == AttachFields(AttachBuild(104, vs));
      case 105 => QIdSame(vs[0]); assert vs == AttachFields(AttachBuild(105, vs));
      case 108 => assert vs == AttachFields(AttachBuild(108, vs));
      case 109 => assert vs == AttachFields(AttachBuild(109, vs));
      case _ =>
    }
    IsAttach(Build(n, vs));
  }

  lemma FieldsOfWalk(n: u8, vs: seq<Val>)
    requires 110 <= n < 118 && Layout(n).Some? && ShapedAll(Layout(n).value, vs)
    ensures MsgType(Build(n, vs)) == n && Fields(Build(n, vs)) == vs
  {
    hide MsgType, Fields;
    match n {
      case 110 => NamesSame(vs[2]); assert vs == WalkFields(WalkBuild(110, vs));
      case 111 => QIdsSame(vs[0]); assert vs == WalkFields(WalkBuild(111, vs));
      case 116 => assert vs == WalkFields(WalkBuild(116, vs));
      case 117 => assert vs == WalkFields(WalkBuild(117, vs));
      case _ =>
    }
    IsWalk(Build(n, vs));
  }

  lemma FieldsOfFid(n: u8, vs: seq<Val>)
    requires 118 <= n < 256 && Layout(n).Some? && ShapedAll(Layout(n).value, vs)
    ensures MsgType(Build(n, vs)) == n && Fields(Build(n, vs)) == vs
  {
    hide MsgType, Fields;
    match n {
      case 118 => assert vs == FidFields(FidBuild(118, vs));
      case 119 => assert vs == FidFields(FidBuild(119, vs));
      case 120 => assert vs == FidFields(FidBuild(120, vs));
      case 121 => assert vs == FidFields(FidBuild(121, vs));
      case 122 => assert vs == FidFields(FidBuild(122, vs));
      case 123 => assert vs == FidFields(FidBuild(123, vs));
      case _ =>
    }
    IsFid(Build(n, vs));
  }

  /** The fields of a message built from field values are those values. */
  lemma FieldsOfBuilt(n: u8, vs: seq<Val>)
    requires Layout(n).Some? && ShapedAll(Layout(n).value, vs)
    ensures MsgType(Build(n, vs)) == n && Fields(Build(n, vs)) == vs
  {
    hide *;
    if n < 16 {
      FieldsOfOpen(n, vs);
    } else if n < 20 {
      FieldsOfNode(n, vs);
    } else if n < 24 {
      FieldsOfRename(n, vs);
    } else if n < 30 {
      FieldsOfAttr(n, vs);
    } else if n < 40 {
      FieldsOfXattr(n, vs);
    } else if n < 52 {
      FieldsOfDir(n, vs);
    } else if n < 70 {
      FieldsOfLock(n, vs);
    } else if n < 74 {
      FieldsOfLink(n, vs);
    } else if n < 100 {
      FieldsOfAt(n, vs);
    } else if n < 104 {
      FieldsOfSession(n, vs);
    } else if n < 110 {
      FieldsOfAttach(n, vs);
    } else if n < 118 {
      FieldsOfWalk(n, vs);
    } else {
      FieldsOfFid(n, vs);
    }
  }

  lemma NamesBack(names: seq<seq<u8>>)
    ensures Shaped(KVec(KStr), NamesVal(names)) && NamesOf(NamesVal(names)) == names
  {
  }

  lemma QIdsBack(qids: seq<QId>)
    ensures Shaped(KVec(QIdK), QIdsVal(qids)) && QIdsOf(QIdsVal(qids)) == qids
  {
    forall i | 0 <= i < |qids| ensures Shaped(QIdK, QIdVal(qids[i])) && QIdOf(QIdVal(qids[i])) == qids[i] {
    }
  }

  lemma DirentsBack(es: seq<DirEntry>)
    ensures Shaped(KDir(DirEntryK), DirentsVal(es)) && DirentsOf(DirentsVal(es)) == es
  {
    forall i | 0 <= i < |es| ensures Shaped(DirEntryK, DirEntryVal(es[i])) && DirEntryOf(DirEntryVal(es[i])) == es[i] {
    }
  }

}
