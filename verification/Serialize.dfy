/** The serializer: encoders that append to a writer and count, decoders that advance a reader. Each is proved
    against the wire grammar. */
module Serialize {
  import opened Wrappers
  import opened Bytes
  import opened Utf8
  import opened Fcall
  import opened Grammar
  import opened Messages
  import opened Codec
  import RoundTrips

  // ---- Encoding

  /** The byte sink that a message is written into. */
  class Writer {
    var data: seq<u8>

    constructor ()
      ensures data == []
    {
      data := [];
    }
  }

  method EncodeU8(w: Writer, x: u8) returns (n: nat)
    modifies w
    ensures w.data == old(w.data) + LE(1, x) && n == 1
  {
    w.data := w.data + LE(1, x);
    n := 1;
  }

  method EncodeU16(w: Writer, x: u16) returns (n: nat)
    modifies w
    ensures w.data == old(w.data) + LE(2, x) && n == 2
  {
    w.data := w.data + LE(2, x);
    n := 2;
  }

  method EncodeU32(w: Writer, x: u32) returns (n: nat)
    modifies w
    ensures w.data == old(w.data) + LE(4, x) && n == 4
  {
    w.data := w.data + LE(4, x);
    n := 4;
  }

  method EncodeU64(w: Writer, x: u64) returns (n: nat)
    modifies w
    ensures w.data == old(w.data) + LE(8, x) && n == 8
  {
    w.data := w.data + LE(8, x);
    n := 8;
  }

  /** The length is cast to 16 bits, and every byte is written all the same. */
  method EncodeString(w: Writer, s: seq<u8>) returns (n: nat)
    modifies w
    ensures w.data == old(w.data) + Enc(KStr, Str(s)) && n == |Enc(KStr, Str(s))|
  {
    n := EncodeU16(w, |s| % U16_SPAN);
    w.data := w.data + s;
    n := n + |s|;
  }

  method EncodeData(w: Writer, d: seq<u8>) returns (n: nat)
    modifies w
    ensures w.data == old(w.data) + Enc(KData, Val.Data(d)) && n == |Enc(KData, Val.Data(d))|
  {
    n := EncodeU32(w, |d| % U32_SPAN);
    n := n + |d|;
    w.data := w.data + d;
  }

  /** Writes one field after the other and counts the bytes. The plan is the list of fields to come. */
  class Encoder {
    const writer: Writer
    var bytes: nat
    ghost const plan: seq<Kind>
    ghost const start: seq<u8>
    ghost var done: seq<Val>

    ghost predicate Valid()
      reads this, writer
    {
      && |done| <= |plan|
      && writer.data == start + Encs(plan[..|done|], done)
      && bytes == |Encs(plan[..|done|], done)|
    }

    ghost predicate Next(k: Kind)
      reads this
    {
      |done| < |plan| && plan[|done|] == k
    }

    constructor (w: Writer, ghost plan: seq<Kind>)
      ensures Valid() && done == [] && writer == w && this.plan == plan && start == w.data
    {
      writer := w;
      bytes := 0;
      this.plan := plan;
      start := w.data;
      done := [];
    }

    lemma Finished()
      requires Valid() && |done| == |plan|
      ensures writer.data == start + Encs(plan, done) && bytes == |Encs(plan, done)|
    {
      assert plan[..|done|] == plan;
    }

    /** Adds the bytes that one more field has just taken. */
    method Count(n: nat, ghost k: Kind, ghost v: Val)
      requires Next(k) && n == |Enc(k, v)|
      requires writer.data == start + Encs(plan[..|done|], done) + Enc(k, v)
      requires bytes == |Encs(plan[..|done|], done)|
      modifies this
      ensures Valid() && done == old(done) + [v]
    {
      EncsSnoc(plan[..|done|], k, done, v);
      assert plan[..|done| + 1] == plan[..|done|] + [k];
      bytes := bytes + n;
      done := done + [v];
    }

    method PutU8(x: u8, ghost limit: Limit := 0x100)
      requires Valid() && Next(KInt(1, limit))
      modifies this, writer
      ensures Valid() && done == old(done) + [Int(x)]
    {
      var n := EncodeU8(writer, x);
      Count(n, KInt(1, limit), Int(x));
    }

    method PutU16(x: u16)
      requires Valid() && Next(U16K)
      modifies this, writer
      ensures Valid() && done == old(done) + [Int(x)]
    {
      var n := EncodeU16(writer, x);
      Count(n, U16K, Int(x));
    }

    method PutU32(x: u32, ghost limit: Limit := U32_SPAN)
      requires Valid() && Next(KInt(4, limit))
      modifies this, writer
      ensures Valid() && done == old(done) + [Int(x)]
    {
      var n := EncodeU32(writer, x);
      Count(n, KInt(4, limit), Int(x));
    }

    method PutU64(x: u64, ghost limit: Limit := U64_SPAN)
      requires Valid() && Next(KInt(8, limit))
      modifies this, writer
      ensures Valid() && done == old(done) + [Int(x)]
    {
      var n := EncodeU64(writer, x);
      Count(n, KInt(8, limit), Int(x));
    }

    method PutString(x: seq<u8>)
      requires Valid() && Next(KStr)
      modifies this, writer
      ensures Valid() && done == old(done) + [Str(x)]
    {
      var n := EncodeString(writer, x);
      Count(n, KStr, Str(x));
    }

    method PutData(x: seq<u8>)
      requires Valid() && Next(KData)
      modifies this, writer
      ensures Valid() && done == old(done) + [Val.Data(x)]
    {
      var n := EncodeData(writer, x);
      Count(n, KData, Val.Data(x));
    }

    method PutQId(x: QId)
      requires Valid() && Next(QIdK)
      modifies this, writer
      ensures Valid() && done == old(done) + [QIdVal(x)]
    {
      var n := EncodeQId(writer, x);
      Count(n, QIdK, QIdVal(x));
    }

    method PutTime(x: Time)
      requires Valid() && Next(TimeK)
      modifies this, writer
      ensures Valid() && done == old(done) + [TimeVal(x)]
    {
      var n := EncodeTime(writer, x);
      Count(n, TimeK, TimeVal(x));
    }

    method PutStatFs(x: StatFs)
      requires Valid() && Next(StatFsK)
      modifies this, writer
      ensures Valid() && done == old(done) + [StatFsVal(x)]
    {
      var n := EncodeStatFs(writer, x);
      Count(n, StatFsK, StatFsVal(x));
    }

    method PutStat(x: Stat)
      requires Valid() && Next(StatK)
      modifies this, writer
      ensures Valid() && done == old(done) + [StatVal(x)]
    {
      var n := EncodeStat(writer, x);
      Count(n, StatK, StatVal(x));
    }

    method PutSetAttr(x: SetAttr)
      requires Valid() && Next(SetAttrK)
      modifies this, writer
      ensures Valid() && done == old(done) + [SetAttrVal(x)]
    {
      var n := EncodeSetAttr(writer, x);
      Count(n, SetAttrK, SetAttrVal(x));
    }

    method PutFlock(x: Flock)
      requires Valid() && Next(FlockK)
      modifies this, writer
      ensures Valid() && done == old(done) + [FlockVal(x)]
    {
      var n := EncodeFlock(writer, x);
      Count(n, FlockK, FlockVal(x));
    }

    method PutGetlock(x: Getlock)
      requires Valid() && Next(GetlockK)
      modifies this, writer
      ensures Valid() && done == old(done) + [GetlockVal(x)]
    {
      var n := EncodeGetlock(writer, x);
      Count(n, GetlockK, GetlockVal(x));
    }

    method PutNames(x: seq<seq<u8>>)
      requires Valid() && Next(KVec(KStr))
      modifies this, writer
      ensures Valid() && done == old(done) + [NamesVal(x)]
    {
      var n := EncodeNames(writer, x);
      Count(n, KVec(KStr), NamesVal(x));
    }

    method PutQIds(x: seq<QId>)
      requires Valid() && Next(KVec(QIdK))
      modifies this, writer
      ensures Valid() && done == old(done) + [QIdsVal(x)]
    {
      var n := EncodeQIds(writer, x);
      Count(n, KVec(QIdK), QIdsVal(x));
    }

    method PutDirents(x: seq<DirEntry>)
      requires Valid() && Next(KDir(DirEntryK))
      modifies this, writer
      ensures Valid() && done == old(done) + [DirentsVal(x)]
    {
      var n := EncodeDirents(writer, x);
      Count(n, KDir(DirEntryK), DirentsVal(x));
    }

  }

  method EncodeQId(w: Writer, r: QId) returns (n: nat)
    modifies w
    ensures w.data == old(w.data) + Enc(QIdK, QIdVal(r)) && n == |Enc(QIdK, QIdVal(r))|
  {
    hide Encoder.Valid, Encs;
    var enc := new Encoder(w, QIdK.parts);
    enc.PutU8(r.typ);
    enc.PutU32(r.version);
    enc.PutU64(r.path);
    assert enc.done == QIdVal(r).parts;
    enc.Finished();
    n := enc.bytes;
  }

  method EncodeTime(w: Writer, r: Time) returns (n: nat)
    modifies w
    ensures w.data == old(w.data) + Enc(TimeK, TimeVal(r)) && n == |Enc(TimeK, TimeVal(r))|
  {
    hide Encoder.Valid, Encs;
    var enc := new Encoder(w, TimeK.parts);
    enc.PutU64(r.sec);
    enc.PutU64(r.nsec);
    assert enc.done == TimeVal(r).parts;
    enc.Finished();
    n := enc.bytes;
  }

  ghost function StatFsHead(r: StatFs): seq<Val> {
    [Int(r.typ), Int(r.bsize), Int(r.blocks), Int(r.bfree), Int(r.bavail)]
  }

  ghost function StatFsTail(r: StatFs): seq<Val> {
    [Int(r.files), Int(r.ffree), Int(r.fsid), Int(r.namelen)]
  }

  lemma StatFsParts(r: StatFs)
    ensures StatFsVal(r) == Rec(StatFsHead(r) + StatFsTail(r)) && StatFsK == KRec(StatFsK.parts)
    ensures Enc(StatFsK, StatFsVal(r)) == Encs(StatFsK.parts, StatFsHead(r) + StatFsTail(r))
  {
  }

  method EncodeStatFs(w: Writer, r: StatFs) returns (n: nat)
    modifies w
    ensures w.data == old(w.data) + Enc(StatFsK, StatFsVal(r)) && n == |Enc(StatFsK, StatFsVal(r))|
  {
    StatFsParts(r);
    var enc := new Encoder(w, StatFsK.parts);
    hide Encoder.Valid, Encs, Enc, StatFsVal, StatFsHead, StatFsTail;
    EncodeStatFsHead(enc, r);
    EncodeStatFsTail(enc, r);
    enc.Finished();
    n := enc.bytes;
  }

  method EncodeStatFsHead(enc: Encoder, r: StatFs)
    requires enc.Valid() && enc.plan == StatFsK.parts && enc.done == []
    modifies enc, enc.writer
    ensures enc.Valid() && enc.done == StatFsHead(r) && |enc.done| == 5
  {
    hide Encoder.Valid, Encs;
    enc.PutU32(r.typ);
    enc.PutU32(r.bsize);
    enc.PutU64(r.blocks);
    enc.PutU64(r.bfree);
    enc.PutU64(r.bavail);
  }

  method EncodeStatFsTail(enc: Encoder, r: StatFs)
    requires enc.Valid() && enc.plan == StatFsK.parts && |enc.done| == 5
    modifies enc, enc.writer
    ensures enc.Valid() && enc.done == old(enc.done) + StatFsTail(r) && |enc.done| == |enc.plan|
  {
    hide Encoder.Valid, Encs;
    enc.PutU64(r.files);
    enc.PutU64(r.ffree);
    enc.PutU64(r.fsid);
    enc.PutU32(r.namelen);
  }

  /** The attributes of a file up to its size, and those after it. */
  ghost function StatHead(r: Stat): seq<Val> {
    [Int(r.mode), Int(r.uid), Int(r.gid), Int(r.nlink), Int(r.rdev), Int(r.size)]
  }

  ghost function StatTail(r: Stat): seq<Val> {
    [Int(r.blksize), Int(r.blocks), TimeVal(r.atime), TimeVal(r.mtime), TimeVal(r.ctime)]
  }

  lemma StatParts(r: Stat)
    ensures StatVal(r) == Rec(StatHead(r) + StatTail(r)) && StatK == KRec(StatK.parts)
    ensures Enc(StatK, StatVal(r)) == Encs(StatK.parts, StatHead(r) + StatTail(r))
  {
  }

  method EncodeStat(w: Writer, r: Stat) returns (n: nat)
    modifies w
    ensures w.data == old(w.data) + Enc(StatK, StatVal(r)) && n == |Enc(StatK, StatVal(r))|
  {
    StatParts(r);
    var enc := new Encoder(w, StatK.parts);
    hide Encoder.Valid, Encs, Enc, TimeVal, StatVal, StatHead, StatTail;
    EncodeStatHead(enc, r);
    EncodeStatTail(enc, r);
    enc.Finished();
    n := enc.bytes;
  }

  method EncodeStatHead(enc: Encoder, r: Stat)
    requires enc.Valid() && enc.plan == StatK.parts && enc.done == []
    modifies enc, enc.writer
    ensures enc.Valid() && enc.done == StatHead(r) && |enc.done| == 6
  {
    hide Encoder.Valid, Encs;
    enc.PutU32(r.mode);
    enc.PutU32(r.uid);
    enc.PutU32(r.gid);
    enc.PutU64(r.nlink);
    enc.PutU64(r.rdev);
    enc.PutU64(r.size);
  }

  method EncodeStatTail(enc: Encoder, r: Stat)
    requires enc.Valid() && enc.plan == StatK.parts && |enc.done| == 6
    modifies enc, enc.writer
    ensures enc.Valid() && enc.done == old(enc.done) + StatTail(r) && |enc.done| == |enc.plan|
  {
    hide Encoder.Valid, Encs, TimeVal;
    enc.PutU64(r.blksize);
    enc.PutU64(r.blocks);
    enc.PutTime(r.atime);
    enc.PutTime(r.mtime);
    enc.PutTime(r.ctime);
  }

  method EncodeSetAttr(w: Writer, r: SetAttr) returns (n: nat)
    modifies w
    ensures w.data == old(w.data) + Enc(SetAttrK, SetAttrVal(r)) && n == |Enc(SetAttrK, SetAttrVal(r))|
  {
    hide Encoder.Valid, Encs;
    var enc := new Encoder(w, SetAttrK.parts);
    enc.PutU32(r.mode);
    enc.PutU32(r.uid);
    enc.PutU32(r.gid);
    enc.PutU64(r.size);
    enc.PutTime(r.atime);
    enc.PutTime(r.mtime);
    assert enc.done == SetAttrVal(r).parts;
    enc.Finished();
    n := enc.bytes;
  }

  method EncodeDirEntry(w: Writer, r: DirEntry) returns (n: nat)
    modifies w
    ensures w.data == old(w.data) + Enc(DirEntryK, DirEntryVal(r)) && n == |Enc(DirEntryK, DirEntryVal(r))|
  {
    hide Encoder.Valid, Encs;
    var enc := new Encoder(w, DirEntryK.parts);
    enc.PutQId(r.qid);
    enc.PutU64(r.offset);
    enc.PutU8(r.typ);
    enc.PutString(r.name);
    assert enc.done == DirEntryVal(r).parts;
    enc.Finished();
    n := enc.bytes;
  }

  method EncodeFlock(w: Writer, r: Flock) returns (n: nat)
    modifies w
    ensures w.data == old(w.data) + Enc(FlockK, FlockVal(r)) && n == |Enc(FlockK, FlockVal(r))|
  {
    hide Encoder.Valid, Encs;
    var enc := new Encoder(w, FlockK.parts);
    enc.PutU8(r.typ, 4);
    enc.PutU32(r.flags, 4);
    enc.PutU64(r.start);
    enc.PutU64(r.length);
    enc.PutU32(r.procId);
    enc.PutString(r.clientId);
    assert enc.done == FlockVal(r).parts;
    enc.Finished();
    n := enc.bytes;
  }

  method EncodeGetlock(w: Writer, r: Getlock) returns (n: nat)
    modifies w
    ensures w.data == old(w.data) + Enc(GetlockK, GetlockVal(r)) && n == |Enc(GetlockK, GetlockVal(r))|
  {
    hide Encoder.Valid, Encs;
    var enc := new Encoder(w, GetlockK.parts);
    enc.PutU8(r.typ, 4);
    enc.PutU64(r.start);
    enc.PutU64(r.length);
    enc.PutU32(r.procId);
    enc.PutString(r.clientId);
    assert enc.done == GetlockVal(r).parts;
    enc.Finished();
    n := enc.bytes;
  }

  lemma NamesParts(names: seq<seq<u8>>)
    ensures var vs := NamesVal(names).items;
            && NamesVal(names) == Vec(vs) && |vs| == |names| && forall i :: 0 <= i < |names| ==> vs[i] == Str(names[i])
  {
  }

  lemma QIdsParts(qids: seq<QId>)
    ensures var vs := QIdsVal(qids).items;
            && QIdsVal(qids) == Vec(vs) && |vs| == |qids| && forall i :: 0 <= i < |qids| ==> vs[i] == QIdVal(qids[i])
  {
  }

  lemma DirentsParts(es: seq<DirEntry>)
    ensures var vs := DirentsVal(es).items;
            && DirentsVal(es) == Vec(vs) && |vs| == |es| && forall i :: 0 <= i < |es| ==> vs[i] == DirEntryVal(es[i])
  {
  }

  method EncodeNames(w: Writer, xs: seq<seq<u8>>) returns (n: nat)
    modifies w
    ensures w.data == old(w.data) + Enc(KVec(KStr), NamesVal(xs)) && n == |Enc(KVec(KStr), NamesVal(xs))|
  {
    NamesParts(xs);
    assert Enc(KVec(KStr), NamesVal(xs)) == LE(2, |xs| % U16_SPAN) + EncN(KStr, NamesVal(xs).items);
    hide EncN, Enc, LE, NamesVal;
    n := EncodeU16(w, |xs| % U16_SPAN);
    var bytes := EncodeEachOfNames(w, xs);
    n := n + bytes;
  }

  method EncodeEachOfNames(w: Writer, xs: seq<seq<u8>>) returns (n: nat)
    modifies w
    ensures NamesVal(xs).Vec?
    ensures var c := EncN(KStr, NamesVal(xs).items); w.data == old(w.data) + c && n == |c|
  {
    ghost var vs := NamesVal(xs).items;
    NamesParts(xs);
    assert EncN(KStr, vs[..0]) == [];
    hide EncN, Enc, NamesVal;
    n := 0;
    for i := 0 to |xs|
      invariant w.data == old(w.data) + EncN(KStr, vs[..i]) && n == |EncN(KStr, vs[..i])|
    {
      EncNSnoc(KStr, vs[..i], Str(xs[i]));
      assert vs[..i + 1] == vs[..i] + [Str(xs[i])];
      var bytes := EncodeString(w, xs[i]);
      n := n + bytes;
    }
    assert vs[..|xs|] == vs;
  }

  method EncodeQIds(w: Writer, xs: seq<QId>) returns (n: nat)
    modifies w
    ensures w.data == old(w.data) + Enc(KVec(QIdK), QIdsVal(xs)) && n == |Enc(KVec(QIdK), QIdsVal(xs))|
  {
    QIdsParts(xs);
    assert Enc(KVec(QIdK), QIdsVal(xs)) == LE(2, |xs| % U16_SPAN) + EncN(QIdK, QIdsVal(xs).items);
    hide EncN, Enc, LE, QIdsVal;
    n := EncodeU16(w, |xs| % U16_SPAN);
    var bytes := EncodeEachOfQIds(w, xs);
    n := n + bytes;
  }

  method EncodeEachOfQIds(w: Writer, xs: seq<QId>) returns (n: nat)
    modifies w
    ensures QIdsVal(xs).Vec?
    ensures var c := EncN(QIdK, QIdsVal(xs).items); w.data == old(w.data) + c && n == |c|
  {
    ghost var vs := QIdsVal(xs).items;
    QIdsParts(xs);
    assert EncN(QIdK, vs[..0]) == [];
    hide EncN, Enc, QIdsVal;
    n := 0;
    for i := 0 to |xs|
      invariant w.data == old(w.data) + EncN(QIdK, vs[..i]) && n == |EncN(QIdK, vs[..i])|
    {
      EncNSnoc(QIdK, vs[..i], QIdVal(xs[i]));
      assert vs[..i + 1] == vs[..i] + [QIdVal(xs[i])];
      var bytes := EncodeQId(w, xs[i]);
      n := n + bytes;
    }
    assert vs[..|xs|] == vs;
  }

  lemma {:induction false} DirentsWritten(es: seq<DirEntry>)
    ensures Enc(KDir(DirEntryK), DirentsVal(es)) == LE(4, DirentsSize(es)) + EncN(DirEntryK, DirentsVal(es).items)
  {
    RoundTrips.PayloadCount(es);
    RoundTrips.PayloadLength(es);
  }

  /** The count is the size in bytes, as a 32-bit sum. */
  method EncodeDirents(w: Writer, es: seq<DirEntry>) returns (n: nat)
    modifies w
    ensures w.data == old(w.data) + Enc(KDir(DirEntryK), DirentsVal(es)) && n == |Enc(KDir(DirEntryK), DirentsVal(es))|
  {
    DirentsWritten(es);
    hide EncN, Enc, LE, DirentsSize, DirentsVal;
    n := EncodeU32(w, DirentsSize(es));
    var bytes := EncodeEachOfDirents(w, es);
    n := n + bytes;
  }

  method EncodeEachOfDirents(w: Writer, es: seq<DirEntry>) returns (n: nat)
    modifies w
    ensures DirentsVal(es).Vec?
    ensures var c := EncN(DirEntryK, DirentsVal(es).items); w.data == old(w.data) + c && n == |c|
  {
    ghost var vs := DirentsVal(es).items;
    DirentsParts(es);
    assert EncN(DirEntryK, vs[..0]) == [];
    hide EncN, Enc, DirEntryVal, DirentsVal;
    n := 0;
    for i := 0 to |es|
      invariant w.data == old(w.data) + EncN(DirEntryK, vs[..i]) && n == |EncN(DirEntryK, vs[..i])|
    {
      EncNSnoc(DirEntryK, vs[..i], DirEntryVal(es[i]));
      assert vs[..i + 1] == vs[..i] + [DirEntryVal(es[i])];
      var bytes := EncodeDirEntry(w, es[i]);
      n := n + bytes;
    }
    assert vs[..|es|] == vs;
  }

  /** Writes a message and returns the number of bytes it took, whatever the lengths inside. */
  method EncodeMsg(w: Writer, msg: Msg) returns (n: nat)
    modifies w
    ensures w.data == old(w.data) + EncMsg(msg) && n == |EncMsg(msg)|
  {
    BuiltOfFields(msg.body);
    ghost var ks := Layout(MsgType(msg.body)).value;
    TwoThenRest(U8K, U16K, ks, Int(MsgType(msg.body)), Int(msg.tag), Fields(msg.body));
    var enc := new Encoder(w, [U8K, U16K] + ks);
    hide Encoder.Valid, Encs, Enc, Layout, MsgType, Fields;
    enc.PutU8(MsgType(msg.body));
    enc.PutU16(msg.tag);
    EncodeFields(enc, msg.body);
    assert enc.done == [Int(MsgType(msg.body)), Int(msg.tag)] + Fields(msg.body);
    enc.Finished();
    n := enc.bytes;
  }

  /** The fields after the tag. */
  method EncodeFields(enc: Encoder, body: FCall)
    requires enc.Valid() && |enc.done| == 2 <= |enc.plan| && Layout(MsgType(body)) == Some(enc.plan[2..])
    modifies enc, enc.writer
    ensures enc.Valid() && enc.done == old(enc.done) + Fields(body) && |enc.done| == |enc.plan|
  {
    SomeFamily(body);
    hide *;
    if InOpen(body) {
      IsOpen(body);
      EncodeOpen(enc, body);
    } else if InNode(body) {
      IsNode(body);
      EncodeNode(enc, body);
    } else if InRename(body) {
      IsRename(body);
      EncodeRename(enc, body);
    } else if InAttr(body) {
      IsAttr(body);
      EncodeAttr(enc, body);
    } else if InXattr(body) {
      IsXattr(body);
      EncodeXattr(enc, body);
    } else if InDir(body) {
      IsDir(body);
      EncodeDir(enc, body);
    } else if InLock(body) {
      IsLock(body);
      EncodeLock(enc, body);
    } else if InLink(body) {
      IsLink(body);
      EncodeLink(enc, body);
    } else if InAt(body) {
      IsAt(body);
      EncodeAt(enc, body);
    } else if InSession(body) {
      IsSession(body);
      EncodeSession(enc, body);
    } else if InAttach(body) {
      IsAttach(body);
      EncodeAttach(enc, body);
    } else if InWalk(body) {
      IsWalk(body);
      EncodeWalk(enc, body);
    } else {
      IsFid(body);
      EncodeFid(enc, body);
    }
  }

  lemma {:induction false} TwoThenRest(k0: Kind, k1: Kind, ks: seq<Kind>, v0: Val, v1: Val, vs: seq<Val>)
    ensures Encs([k0, k1] + ks, [v0, v1] + vs) == Enc(k0, v0) + Enc(k1, v1) + Encs(ks, vs)
  {
    assert ([k0, k1] + ks)[1..] == [k1] + ks && ([v0, v1] + vs)[1..] == [v1] + vs;
    assert ([k1] + ks)[1..] == ks && ([v1] + vs)[1..] == vs;
  }

  method EncodeOpen(enc: Encoder, body: FCall)
    requires InOpen(body) && enc.Valid() && |enc.done| == 2 <= |enc.plan|
    requires OpenLayout(OpenType(body)).Some? && enc.plan[2..] == OpenLayout(OpenType(body)).value
    modifies enc, enc.writer
    ensures enc.Valid() && enc.done == old(enc.done) + OpenFields(body)
    ensures |OpenFields(body)| == |enc.plan| - 2
  {
    hide Encoder.Valid, Encs, StatFsVal, QIdVal;
    assert forall i :: 2 <= i < |enc.plan| ==> enc.plan[i] == enc.plan[2..][i - 2];
    match body
    case RlError(ecode) => enc.PutU32(ecode);
    case TStatFs(fid) => enc.PutU32(fid);
    case RStatFs(statfs) => enc.PutStatFs(statfs);
    case TlOpen(fid, flags) => enc.PutU32(fid); enc.PutU32(flags);
    case RlOpen(qid, iounit) => EncodeOpened(enc, qid, iounit);
    case TlCreate(_, _, _, _, _) => EncodeCreate(enc, body);
    case RlCreate(qid, iounit) => EncodeOpened(enc, qid, iounit);
  }

  /** The replies to opening and to creating a file. */
  method EncodeOpened(enc: Encoder, qid: QId, iounit: u32)
    requires enc.Valid() && |enc.done| == 2 && |enc.plan| == 4 && enc.plan[2] == QIdK && enc.plan[3] == U32K
    modifies enc, enc.writer
    ensures enc.Valid() && enc.done == old(enc.done) + [QIdVal(qid), Int(iounit)]
  {
    hide Encoder.Valid, Encs, QIdVal;
    enc.PutQId(qid);
    enc.PutU32(iounit);
  }

  method EncodeCreate(enc: Encoder, body: FCall)
    requires body.TlCreate? && enc.Valid() && |enc.done| == 2 <= |enc.plan|
    requires Some(enc.plan[2..]) == OpenLayout(14)
    modifies enc, enc.writer
    ensures enc.Valid() && enc.done == old(enc.done) + OpenFields(body)
  {
    hide Encoder.Valid, Encs;
    assert forall i :: 2 <= i < |enc.plan| ==> enc.plan[i] == enc.plan[2..][i - 2];
    enc.PutU32(body.fid);
    enc.PutString(body.name);
    enc.PutU32(body.flags);
    assert enc.done == old(enc.done) + [Int(body.fid), Str(body.name), Int(body.flags)];
    enc.PutU32(body.mode);
    enc.PutU32(body.gid);
  }

  method EncodeNode(enc: Encoder, body: FCall)
    requires InNode(body) && enc.Valid() && |enc.done| == 2 <= |enc.plan|
    requires NodeLayout(NodeType(body)).Some? && enc.plan[2..] == NodeLayout(NodeType(body)).value
    modifies enc, enc.writer
    ensures enc.Valid() && enc.done == old(enc.done) + NodeFields(body)
    ensures |NodeFields(body)| == |enc.plan| - 2
  {
    hide Encoder.Valid, Encs, StatFsVal, QIdVal;
    assert forall i :: 2 <= i < |enc.plan| ==> enc.plan[i] == enc.plan[2..][i - 2];
    match body
    case TSymlink(fid, name, symtgt, gid) =>
      enc.PutU32(fid);
      enc.PutString(name);
      enc.PutString(symtgt);
      enc.PutU32(gid);
    case RSymlink(qid) => enc.PutQId(qid);
    case TMkNod(_, _, _, _, _, _) => EncodeMkNod(enc, body);
    case RMkNod(qid) => enc.PutQId(qid);
  }

  method EncodeMkNod(enc: Encoder, body: FCall)
    requires body.TMkNod? && enc.Valid() && |enc.done| == 2 <= |enc.plan|
    requires Some(enc.plan[2..]) == NodeLayout(18)
    modifies enc, enc.writer
    ensures enc.Valid() && enc.done == old(enc.done) + NodeFields(body)
  {
    hide Encoder.Valid, Encs;
    assert forall i :: 2 <= i < |enc.plan| ==> enc.plan[i] == enc.plan[2..][i - 2];
    enc.PutU32(body.dfid);
    enc.PutString(body.name);
    enc.PutU32(body.mode);
    assert enc.done == old(enc.done) + [Int(body.dfid), Str(body.name), Int(body.mode)];
    enc.PutU32(body.major);
    enc.PutU32(body.minor);
    enc.PutU32(body.gid);
  }

  method EncodeRename(enc: Encoder, body: FCall)
    requires InRename(body) && enc.Valid() && |enc.done| == 2 <= |enc.plan|
    requires RenameLayout(RenameType(body)).Some? && enc.plan[2..] == RenameLayout(RenameType(body)).value
    modifies enc, enc.writer
    ensures enc.Valid() && enc.done == old(enc.done) + RenameFields(body)
    ensures |RenameFields(body)| == |enc.plan| - 2
  {
    hide Encoder.Valid, Encs;
    assert forall i :: 2 <= i < |enc.plan| ==> enc.plan[i] == enc.plan[2..][i - 2];
    match body
    case TRename(fid, dfid, name) => enc.PutU32(fid); enc.PutU32(dfid); enc.PutString(name);
    case RRename =>
    case TReadLink(fid) => enc.PutU32(fid);
    case RReadLink(target) => enc.PutString(target);
  }

  method EncodeAttr(enc: Encoder, body: FCall)
    requires InAttr(body) && enc.Valid() && |enc.done| == 2 <= |enc.plan|
    requires AttrLayout(AttrType(body)).Some? && enc.plan[2..] == AttrLayout(AttrType(body)).value
    modifies enc, enc.writer
    ensures enc.Valid() && enc.done == old(enc.done) + AttrFields(body)
    ensures |AttrFields(body)| == |enc.plan| - 2
  {
    hide Encoder.Valid, Encs, QIdVal, StatVal, SetAttrVal;
    assert forall i :: 2 <= i < |enc.plan| ==> enc.plan[i] == enc.plan[2..][i - 2];
    match body
    case TGetAttr(fid, reqMask) => enc.PutU32(fid); enc.PutU64(reqMask, 0x4000);
    case RGetAttr(_, _, _) => EncodeGetAttrReply(enc, body);
    case TSetAttr(fid, setMask, attr) => enc.PutU32(fid); enc.PutU32(setMask, 0x200); enc.PutSetAttr(attr);
    case RSetAttr =>
  }

  /** Four reserved words end the reply to `TGetAttr`. */
  method EncodeGetAttrReply(enc: Encoder, body: FCall)
    requires body.RGetAttr? && enc.Valid() && |enc.done| == 2 <= |enc.plan|
    requires Some(enc.plan[2..]) == AttrLayout(25)
    modifies enc, enc.writer
    ensures enc.Valid() && enc.done == old(enc.done) + AttrFields(body)
  {
    hide Encoder.Valid, Encs, QIdVal, StatVal;
    assert forall i :: 2 <= i < |enc.plan| ==> enc.plan[i] == enc.plan[2..][i - 2];
    enc.PutU64(body.valid, 0x4000);
    enc.PutQId(body.qid);
    enc.PutStat(body.stat);
    enc.PutU64(0, 1);
    enc.PutU64(0, 1);
    enc.PutU64(0, 1);
    enc.PutU64(0, 1);
  }

  method EncodeXattr(enc: Encoder, body: FCall)
    requires InXattr(body) && enc.Valid() && |enc.done| == 2 <= |enc.plan|
    requires XattrLayout(XattrType(body)).Some? && enc.plan[2..] == XattrLayout(XattrType(body)).value
    modifies enc, enc.writer
    ensures enc.Valid() && enc.done == old(enc.done) + XattrFields(body)
    ensures |XattrFields(body)| == |enc.plan| - 2
  {
    hide Encoder.Valid, Encs;
    assert forall i :: 2 <= i < |enc.plan| ==> enc.plan[i] == enc.plan[2..][i - 2];
    match body
    case TxAttrWalk(fid, newfid, name) => enc.PutU32(fid); enc.PutU32(newfid); enc.PutString(name);
    case RxAttrWalk(size) => enc.PutU64(size);
    case TxAttrCreate(fid, name, attrSize, flags) =>
      enc.PutU32(fid);
      enc.PutString(name);
      enc.PutU64(attrSize);
      enc.PutU32(flags);
    case RxAttrCreate =>
  }

  method EncodeDir(enc: Encoder, body: FCall)
    requires InDir(body) && enc.Valid() && |enc.done| == 2 <= |enc.plan|
    requires DirLayout(DirType(body)).Some? && enc.plan[2..] == DirLayout(DirType(body)).value
    modifies enc, enc.writer
    ensures enc.Valid() && enc.done == old(enc.done) + DirFields(body)
    ensures |DirFields(body)| == |enc.plan| - 2
  {
    hide Encoder.Valid, Encs;
    assert forall i :: 2 <= i < |enc.plan| ==> enc.plan[i] == enc.plan[2..][i - 2];
    match body
    case TReadDir(fid, offset, count) => enc.PutU32(fid); enc.PutU64(offset); enc.PutU32(count);
    case RReadDir(dirents) => enc.PutDirents(dirents);
    case TFSync(fid) => enc.PutU32(fid);
    case RFSync =>
  }

  method EncodeLock(enc: Encoder, body: FCall)
    requires InLock(body) && enc.Valid() && |enc.done| == 2 <= |enc.plan|
    requires LockLayout(LockType(body)).Some? && enc.plan[2..] == LockLayout(LockType(body)).value
    modifies enc, enc.writer
    ensures enc.Valid() && enc.done == old(enc.done) + LockFields(body)
    ensures |LockFields(body)| == |enc.plan| - 2
  {
    hide Encoder.Valid, Encs;
    assert forall i :: 2 <= i < |enc.plan| ==> enc.plan[i] == enc.plan[2..][i - 2];
    match body
    case TLock(fid, flock) => enc.PutU32(fid); enc.PutFlock(flock);
    case RLock(status) => enc.PutU8(status, 4);
    case TGetLock(fid, getlock) => enc.PutU32(fid); enc.PutGetlock(getlock);
    case RGetLock(getlock) => enc.PutGetlock(getlock);
  }

  method EncodeLink(enc: Encoder, body: FCall)
    requires InLink(body) && enc.Valid() && |enc.done| == 2 <= |enc.plan|
    requires LinkLayout(LinkType(body)).Some? && enc.plan[2..] == LinkLayout(LinkType(body)).value
    modifies enc, enc.writer
    ensures enc.Valid() && enc.done == old(enc.done) + LinkFields(body)
    ensures |LinkFields(body)| == |enc.plan| - 2
  {
    hide Encoder.Valid, Encs;
    assert forall i :: 2 <= i < |enc.plan| ==> enc.plan[i] == enc.plan[2..][i - 2];
    match body
    case TLink(dfid, fid, name) => enc.PutU32(dfid); enc.PutU32(fid); enc.PutString(name);
    case RLink =>
    case TMkDir(dfid, name, mode, gid) =>
      enc.PutU32(dfid);
      enc.PutString(name);
      enc.PutU32(mode);
      enc.PutU32(gid);
    case RMkDir(qid) => enc.PutQId(qid);
  }

  method EncodeAt(enc: Encoder, body: FCall)
    requires InAt(body) && enc.Valid() && |enc.done| == 2 <= |enc.plan|
    requires AtLayout(AtType(body)).Some? && enc.plan[2..] == AtLayout(AtType(body)).value
    modifies enc, enc.writer
    ensures enc.Valid() && enc.done == old(enc.done) + AtFields(body)
    ensures |AtFields(body)| == |enc.plan| - 2
  {
    hide Encoder.Valid, Encs;
    assert forall i :: 2 <= i < |enc.plan| ==> enc.plan[i] == enc.plan[2..][i - 2];
    match body
    case TRenameAt(olddirfid, oldname, newdirfid, newname) =>
      enc.PutU32(olddirfid);
      enc.PutString(oldname);
      enc.PutU32(newdirfid);
      enc.PutString(newname);
    case RRenameAt =>
    case TUnlinkAt(dirfd, name, flags) => enc.PutU32(dirfd); enc.PutString(name); enc.PutU32(flags);
    case RUnlinkAt =>
  }

  method EncodeSession(enc: Encoder, body: FCall)
    requires InSession(body) && enc.Valid() && |enc.done| == 2 <= |enc.plan|
    requires SessionLayout(SessionType(body)).Some? && enc.plan[2..] == SessionLayout(SessionType(body)).value
    modifies enc, enc.writer
    ensures enc.Valid() && enc.done == old(enc.done) + SessionFields(body)
    ensures |SessionFields(body)| == |enc.plan| - 2
  {
    hide Encoder.Valid, Encs;
    assert forall i :: 2 <= i < |enc.plan| ==> enc.plan[i] == enc.plan[2..][i - 2];
    match body
    case TVersion(msize, version) => enc.PutU32(msize); enc.PutString(version);
    case RVersion(msize, version) => enc.PutU32(msize); enc.PutString(version);
    case TAuth(afid, uname, aname, nUname) =>
      enc.PutU32(afid);
      enc.PutString(uname);
      enc.PutString(aname);
      enc.PutU32(nUname);
    case RAuth(aqid) => enc.PutQId(aqid);
  }

  method EncodeAttach(enc: Encoder, body: FCall)
    requires InAttach(body) && enc.Valid() && |enc.done| == 2 <= |enc.plan|
    requires AttachLayout(AttachType(body)).Some? && enc.plan[2..] == AttachLayout(AttachType(body)).value
    modifies enc, enc.writer
    ensures enc.Valid() && enc.done == old(enc.done) + AttachFields(body)
    ensures |AttachFields(body)| == |enc.plan| - 2
  {
    hide Encoder.Valid, Encs, StatFsVal, QIdVal;
    assert forall i :: 2 <= i < |enc.plan| ==> enc.plan[i] == enc.plan[2..][i - 2];
    match body
    case TAttach(fid, afid, uname, aname, nUname) =>
      enc.PutU32(fid);
      enc.PutU32(afid);
      enc.PutString(uname);
      assert enc.done == old(enc.done) + [Int(fid), Int(afid), Str(uname)];
      enc.PutString(aname);
      enc.PutU32(nUname);
    case RAttach(qid) => enc.PutQId(qid);
    case TFlush(oldtag) => enc.PutU16(oldtag);
    case RFlush =>
  }

  method EncodeWalk(enc: Encoder, body: FCall)
    requires InWalk(body) && enc.Valid() && |enc.done| == 2 <= |enc.plan|
    requires WalkLayout(WalkType(body)).Some? && enc.plan[2..] == WalkLayout(WalkType(body)).value
    modifies enc, enc.writer
    ensures enc.Valid() && enc.done == old(enc.done) + WalkFields(body)
    ensures |WalkFields(body)| == |enc.plan| - 2
  {
    hide Encoder.Valid, Encs;
    assert forall i :: 2 <= i < |enc.plan| ==> enc.plan[i] == enc.plan[2..][i - 2];
    match body
    case TWalk(fid, newfid, wnames) => enc.PutU32(fid); enc.PutU32(newfid); enc.PutNames(wnames);
    case RWalk(wqids) => enc.PutQIds(wqids);
    case TRead(fid, offset, count) => enc.PutU32(fid); enc.PutU64(offset); enc.PutU32(count);
    case RRead(data) => enc.PutData(data);
  }

  method EncodeFid(enc: Encoder, body: FCall)
    requires InFid(body) && enc.Valid() && |enc.done| == 2 <= |enc.plan|
    requires FidLayout(FidType(body)).Some? && enc.plan[2..] == FidLayout(FidType(body)).value
    modifies enc, enc.writer
    ensures enc.Valid() && enc.done == old(enc.done) + FidFields(body)
    ensures |FidFields(body)| == |enc.plan| - 2
  {
    hide Encoder.Valid, Encs;
    assert forall i :: 2 <= i < |enc.plan| ==> enc.plan[i] == enc.plan[2..][i - 2];
    match body
    case TWrite(fid, offset, data) => enc.PutU32(fid); enc.PutU64(offset); enc.PutData(data);
    case RWrite(count) => enc.PutU32(count);
    case TClunk(fid) => enc.PutU32(fid);
    case RClunk =>
    case TRemove(fid) => enc.PutU32(fid);
    case RRemove =>
  }

  // ---- Decoding

  /** The byte source that a message is read from. */
  class Reader {
    var rest: seq<u8>

    constructor (bytes: seq<u8>)
      ensures rest == bytes
    {
      rest := bytes;
    }
  }

  lemma {:induction false} Untruncated(w: nat, b: seq<u8>)
    requires |b| >= w
    ensures FromLE(b[..w]) % Span(w) == FromLE(b[..w]) < Span(w)
  {
    WrittenRead(b[..w]);
    KeptPart(FromLE(b[..w]), Span(w));
  }

  method DecodeU8(r: Reader) returns (res: Result<u8, DecodeError>)
    modifies r
    ensures res.Ok? ==> |old(r.rest)| >= 1 && res.value == FromLE(old(r.rest)[..1]) && r.rest == old(r.rest)[1..]
    ensures res.Err? ==> |old(r.rest)| < 1 && res.error == UnexpectedEof
  {
    if |r.rest| < 1 {
      return Err(UnexpectedEof);
    }
    Spans();
    WrittenRead(r.rest[..1]);
    res := Ok(FromLE(r.rest[..1]));
    r.rest := r.rest[1..];
  }

  method DecodeU16(r: Reader) returns (res: Result<u16, DecodeError>)
    modifies r
    ensures res.Ok? ==> |old(r.rest)| >= 2 && res.value == FromLE(old(r.rest)[..2]) && r.rest == old(r.rest)[2..]
    ensures res.Err? ==> |old(r.rest)| < 2 && res.error == UnexpectedEof
  {
    if |r.rest| < 2 {
      return Err(UnexpectedEof);
    }
    Spans();
    WrittenRead(r.rest[..2]);
    res := Ok(FromLE(r.rest[..2]));
    r.rest := r.rest[2..];
  }

  method DecodeU32(r: Reader) returns (res: Result<u32, DecodeError>)
    modifies r
    ensures res.Ok? ==> |old(r.rest)| >= 4 && res.value == FromLE(old(r.rest)[..4]) && r.rest == old(r.rest)[4..]
    ensures res.Err? ==> |old(r.rest)| < 4 && res.error == UnexpectedEof
  {
    if |r.rest| < 4 {
      return Err(UnexpectedEof);
    }
    Spans();
    WrittenRead(r.rest[..4]);
    res := Ok(FromLE(r.rest[..4]));
    r.rest := r.rest[4..];
  }

  method DecodeU64(r: Reader) returns (res: Result<u64, DecodeError>)
    modifies r
    ensures res.Ok? ==> |old(r.rest)| >= 8 && res.value == FromLE(old(r.rest)[..8]) && r.rest == old(r.rest)[8..]
    ensures res.Err? ==> |old(r.rest)| < 8 && res.error == UnexpectedEof
  {
    if |r.rest| < 8 {
      return Err(UnexpectedEof);
    }
    Spans();
    WrittenRead(r.rest[..8]);
    res := Ok(FromLE(r.rest[..8]));
    r.rest := r.rest[8..];
  }

  method ReadExact(r: Reader, size: nat) returns (res: Result<seq<u8>, DecodeError>)
    modifies r
    ensures res.Ok? ==> |old(r.rest)| >= size && res.value == old(r.rest)[..size] && r.rest == old(r.rest)[size..]
    ensures res.Err? ==> |old(r.rest)| < size && res.error == UnexpectedEof
  {
    if |r.rest| < size {
      return Err(UnexpectedEof);
    }
    res := Ok(r.rest[..size]);
    r.rest := r.rest[size..];
  }

  method DecodeString(r: Reader) returns (res: Result<seq<u8>, DecodeError>)
    modifies r
    ensures res.Ok? ==> Dec(KStr, old(r.rest)) == Ok((Str(res.value), r.rest))
    ensures res.Err? ==> Dec(KStr, old(r.rest)) == Err(res.error)
  {
    ghost var b := r.rest;
    var len :- DecodeU16(r);
    var s :- ReadExact(r, len);
    assert s == b[2..2 + len] && r.rest == b[2 + len..];
    if !ValidUtf8(s) {
      return Err(InvalidUtf8);
    }
    res := Ok(s);
  }

  method DecodeData(r: Reader) returns (res: Result<seq<u8>, DecodeError>)
    modifies r
    ensures res.Ok? ==> Dec(KData, old(r.rest)) == Ok((Val.Data(res.value), r.rest))
    ensures res.Err? ==> Dec(KData, old(r.rest)) == Err(res.error)
  {
    ghost var b := r.rest;
    var len :- DecodeU32(r);
    var d :- ReadExact(r, len);
    assert d == b[4..4 + len] && r.rest == b[4 + len..];
    res := Ok(d);
  }

  /** Reads one field after the other. The plan is the list of fields to come. */
  class Decoder {
    const reader: Reader
    ghost const plan: seq<Kind>
    ghost const start: seq<u8>
    ghost var got: seq<Val>

    ghost predicate Valid()
      reads this, reader
    {
      |got| <= |plan| && Decs(plan[..|got|], start) == Ok((got, reader.rest))
    }

    ghost predicate Next(k: Kind)
      reads this
    {
      |got| < |plan| && plan[|got|] == k
    }

    ghost predicate FailsWith(e: DecodeError) {
      Decs(plan, start) == Err(e) && Dec(KRec(plan), start) == Err(e)
    }

    constructor (r: Reader, ghost plan: seq<Kind>)
      ensures Valid() && got == [] && reader == r && this.plan == plan && start == r.rest
    {
      reader := r;
      this.plan := plan;
      start := r.rest;
      got := [];
    }

    lemma Finished()
      requires Valid() && |got| == |plan|
      ensures Decs(plan, start) == Ok((got, reader.rest)) && ShapedAll(plan, got)
      ensures Dec(KRec(plan), start) == Ok((Rec(got), reader.rest))
    {
      assert plan[..|got|] == plan;
      DecsShaped(plan, start);
    }

    /** One more field has been read from `before`. */
    ghost method Took(k: Kind, v: Val, before: seq<u8>)
      requires Next(k) && Decs(plan[..|got|], start) == Ok((got, before))
      requires Dec(k, before) == Ok((v, reader.rest))
      modifies this
      ensures Valid() && got == old(got) + [v]
    {
      DecsSnoc(plan[..|got|], k, start);
      assert plan[..|got| + 1] == plan[..|got|] + [k];
      got := got + [v];
    }

    /** The next field could not be read from `before`. */
    lemma {:induction false} Failed(k: Kind, before: seq<u8>)
      requires Next(k) && Decs(plan[..|got|], start) == Ok((got, before)) && Dec(k, before).Err?
      ensures FailsWith(Dec(k, before).error)
    {
      DecsSnoc(plan[..|got|], k, start);
      DecsStops(plan[..|got|] + [k], plan[|got| + 1..], start);
      assert plan == plan[..|got|] + [k] + plan[|got| + 1..];
    }

    method TakeU8() returns (res: Result<u8, DecodeError>)
      requires Valid() && Next(U8K)
      modifies this, reader
      ensures res.Ok? ==> Valid() && got == old(got) + [Int(res.value)]
      ensures res.Err? ==> FailsWith(res.error)
    {
      ghost var before := reader.rest;
      Spans();
      res := DecodeU8(reader);
      if res.Ok? { Untruncated(1, before); }
      if res.Ok? {
        Took(U8K, Int(res.value), before);
      } else {
        Failed(U8K, before);
      }
    }

    method TakeU16() returns (res: Result<u16, DecodeError>)
      requires Valid() && Next(U16K)
      modifies this, reader
      ensures res.Ok? ==> Valid() && got == old(got) + [Int(res.value)]
      ensures res.Err? ==> FailsWith(res.error)
    {
      ghost var before := reader.rest;
      Spans();
      res := DecodeU16(reader);
      if res.Ok? { Untruncated(2, before); }
      if res.Ok? {
        Took(U16K, Int(res.value), before);
      } else {
        Failed(U16K, before);
      }
    }

    method TakeU32() returns (res: Result<u32, DecodeError>)
      requires Valid() && Next(U32K)
      modifies this, reader
      ensures res.Ok? ==> Valid() && got == old(got) + [Int(res.value)]
      ensures res.Err? ==> FailsWith(res.error)
    {
      ghost var before := reader.rest;
      Spans();
      res := DecodeU32(reader);
      if res.Ok? { Untruncated(4, before); }
      if res.Ok? {
        Took(U32K, Int(res.value), before);
      } else {
        Failed(U32K, before);
      }
    }

    method TakeU64() returns (res: Result<u64, DecodeError>)
      requires Valid() && Next(U64K)
      modifies this, reader
      ensures res.Ok? ==> Valid() && got == old(got) + [Int(res.value)]
      ensures res.Err? ==> FailsWith(res.error)
    {
      ghost var before := reader.rest;
      Spans();
      res := DecodeU64(reader);
      if res.Ok? { Untruncated(8, before); }
      if res.Ok? {
        Took(U64K, Int(res.value), before);
      } else {
        Failed(U64K, before);
      }
    }

    /** Reads flags, dropping the undefined bits. */
    method TakeU8Flags(limit: Limit) returns (res: Result<u8, DecodeError>)
      requires Valid() && Next(KInt(1, limit))
      modifies this, reader
      ensures res.Ok? ==> Valid() && res.value < limit && got == old(got) + [Int(res.value)]
      ensures res.Err? ==> FailsWith(res.error)
    {
      ghost var before := reader.rest;
      res := DecodeU8(reader);
      if res.Ok? {
        KeptPart(res.value, limit);
        res := Ok(res.value % limit);
        Took(KInt(1, limit), Int(res.value), before);
      } else {
        Failed(KInt(1, limit), before);
      }
    }

    /** Reads flags, dropping the undefined bits. */
    method TakeU32Flags(limit: Limit) returns (res: Result<u32, DecodeError>)
      requires Valid() && Next(KInt(4, limit))
      modifies this, reader
      ensures res.Ok? ==> Valid() && res.value < limit && got == old(got) + [Int(res.value)]
      ensures res.Err? ==> FailsWith(res.error)
    {
      ghost var before := reader.rest;
      res := DecodeU32(reader);
      if res.Ok? {
        KeptPart(res.value, limit);
        res := Ok(res.value % limit);
        Took(KInt(4, limit), Int(res.value), before);
      } else {
        Failed(KInt(4, limit), before);
      }
    }

    /** Reads flags, dropping the undefined bits. */
    method TakeU64Flags(limit: Limit) returns (res: Result<u64, DecodeError>)
      requires Valid() && Next(KInt(8, limit))
      modifies this, reader
      ensures res.Ok? ==> Valid() && res.value < limit && got == old(got) + [Int(res.value)]
      ensures res.Err? ==> FailsWith(res.error)
    {
      ghost var before := reader.rest;
      res := DecodeU64(reader);
      if res.Ok? {
        KeptPart(res.value, limit);
        res := Ok(res.value % limit);
        Took(KInt(8, limit), Int(res.value), before);
      } else {
        Failed(KInt(8, limit), before);
      }
    }

    method TakeString() returns (res: Result<seq<u8>, DecodeError>)
      requires Valid() && Next(KStr)
      modifies this, reader
      ensures res.Ok? ==> Valid() && got == old(got) + [Str(res.value)]
      ensures res.Err? ==> FailsWith(res.error)
    {
      ghost var before := reader.rest;
      res := DecodeString(reader);
      if res.Ok? {
        Took(KStr, Str(res.value), before);
      } else {
        Failed(KStr, before);
      }
    }

    method TakeData() returns (res: Result<seq<u8>, DecodeError>)
      requires Valid() && Next(KData)
      modifies this, reader
      ensures res.Ok? ==> Valid() && got == old(got) + [Val.Data(res.value)]
      ensures res.Err? ==> FailsWith(res.error)
    {
      ghost var before := reader.rest;
      res := DecodeData(reader);
      if res.Ok? {
        Took(KData, Val.Data(res.value), before);
      } else {
        Failed(KData, before);
      }
    }

    method TakeQId() returns (res: Result<QId, DecodeError>)
      requires Valid() && Next(QIdK)
      modifies this, reader
      ensures res.Ok? ==> Valid() && got == old(got) + [QIdVal(res.value)]
      ensures res.Err? ==> FailsWith(res.error)
    {
      ghost var before := reader.rest;
      res := DecodeQId(reader);
      if res.Ok? {
        Took(QIdK, QIdVal(res.value), before);
      } else {
        Failed(QIdK, before);
      }
    }

    method TakeTime() returns (res: Result<Time, DecodeError>)
      requires Valid() && Next(TimeK)
      modifies this, reader
      ensures res.Ok? ==> Valid() && got == old(got) + [TimeVal(res.value)]
      ensures res.Err? ==> FailsWith(res.error)
    {
      ghost var before := reader.rest;
      res := DecodeTime(reader);
      if res.Ok? {
        Took(TimeK, TimeVal(res.value), before);
      } else {
        Failed(TimeK, before);
      }
    }

    method TakeStatFs() returns (res: Result<StatFs, DecodeError>)
      requires Valid() && Next(StatFsK)
      modifies this, reader
      ensures res.Ok? ==> Valid() && got == old(got) + [StatFsVal(res.value)]
      ensures res.Err? ==> FailsWith(res.error)
    {
      ghost var before := reader.rest;
      res := DecodeStatFs(reader);
      if res.Ok? {
        Took(StatFsK, StatFsVal(res.value), before);
      } else {
        Failed(StatFsK, before);
      }
    }

    method TakeStat() returns (res: Result<Stat, DecodeError>)
      requires Valid() && Next(StatK)
      modifies this, reader
      ensures res.Ok? ==> Valid() && got == old(got) + [StatVal(res.value)]
      ensures res.Err? ==> FailsWith(res.error)
    {
      ghost var before := reader.rest;
      res := DecodeStat(reader);
      if res.Ok? {
        Took(StatK, StatVal(res.value), before);
      } else {
        Failed(StatK, before);
      }
    }

    method TakeSetAttr() returns (res: Result<SetAttr, DecodeError>)
      requires Valid() && Next(SetAttrK)
      modifies this, reader
      ensures res.Ok? ==> Valid() && got == old(got) + [SetAttrVal(res.value)]
      ensures res.Err? ==> FailsWith(res.error)
    {
      ghost var before := reader.rest;
      res := DecodeSetAttr(reader);
      if res.Ok? {
        Took(SetAttrK, SetAttrVal(res.value), before);
      } else {
        Failed(SetAttrK, before);
      }
    }

    method TakeFlock() returns (res: Result<Flock, DecodeError>)
      requires Valid() && Next(FlockK)
      modifies this, reader
      ensures res.Ok? ==> Valid() && got == old(got) + [FlockVal(res.value)]
      ensures res.Err? ==> FailsWith(res.error)
    {
      ghost var before := reader.rest;
      res := DecodeFlock(reader);
      if res.Ok? {
        Took(FlockK, FlockVal(res.value), before);
      } else {
        Failed(FlockK, before);
      }
    }

    method TakeGetlock() returns (res: Result<Getlock, DecodeError>)
      requires Valid() && Next(GetlockK)
      modifies this, reader
      ensures res.Ok? ==> Valid() && got == old(got) + [GetlockVal(res.value)]
      ensures res.Err? ==> FailsWith(res.error)
    {
      ghost var before := reader.rest;
      res := DecodeGetlock(reader);
      if res.Ok? {
        Took(GetlockK, GetlockVal(res.value), before);
      } else {
        Failed(GetlockK, before);
      }
    }

    method TakeNames() returns (res: Result<seq<seq<u8>>, DecodeError>)
      requires Valid() && Next(KVec(KStr))
      modifies this, reader
      ensures res.Ok? ==> Valid() && got == old(got) + [NamesVal(res.value)]
      ensures res.Err? ==> FailsWith(res.error)
    {
      ghost var before := reader.rest;
      res := DecodeNames(reader);
      if res.Ok? {
        Took(KVec(KStr), NamesVal(res.value), before);
      } else {
        Failed(KVec(KStr), before);
      }
    }

    method TakeQIds() returns (res: Result<seq<QId>, DecodeError>)
      requires Valid() && Next(KVec(QIdK))
      modifies this, reader
      ensures res.Ok? ==> Valid() && got == old(got) + [QIdsVal(res.value)]
      ensures res.Err? ==> FailsWith(res.error)
    {
      ghost var before := reader.rest;
      res := DecodeQIds(reader);
      if res.Ok? {
        Took(KVec(QIdK), QIdsVal(res.value), before);
      } else {
        Failed(KVec(QIdK), before);
      }
    }

    method TakeDirents() returns (res: Result<seq<DirEntry>, DecodeError>)
      requires Valid() && Next(KDir(DirEntryK))
      modifies this, reader
      ensures res.Ok? ==> Valid() && got == old(got) + [DirentsVal(res.value)]
      ensures res.Err? ==> FailsWith(res.error)
    {
      ghost var before := reader.rest;
      res := DecodeDirents(reader);
      if res.Ok? {
        Took(KDir(DirEntryK), DirentsVal(res.value), before);
      } else {
        Failed(KDir(DirEntryK), before);
      }
    }

  }

  method DecodeQId(r: Reader) returns (res: Result<QId, DecodeError>)
    modifies r
    ensures res.Ok? ==> Dec(QIdK, old(r.rest)) == Ok((QIdVal(res.value), r.rest))
    ensures res.Err? ==> Dec(QIdK, old(r.rest)) == Err(res.error)
  {
    hide Decoder.Valid, Decs, Dec;
    assert QIdK == KRec(QIdK.parts);
    var d := new Decoder(r, QIdK.parts);
    var typ :- d.TakeU8();
    var version :- d.TakeU32();
    var path :- d.TakeU64();
    res := Ok(QId(typ, version, path));
    assert d.got == QIdVal(res.value).parts;
    d.Finished();
  }

  method DecodeTime(r: Reader) returns (res: Result<Time, DecodeError>)
    modifies r
    ensures res.Ok? ==> Dec(TimeK, old(r.rest)) == Ok((TimeVal(res.value), r.rest))
    ensures res.Err? ==> Dec(TimeK, old(r.rest)) == Err(res.error)
  {
    hide Decoder.Valid, Decs, Dec;
    assert TimeK == KRec(TimeK.parts);
    var d := new Decoder(r, TimeK.parts);
    var sec :- d.TakeU64();
    var nsec :- d.TakeU64();
    res := Ok(Time(sec, nsec));
    assert d.got == TimeVal(res.value).parts;
    d.Finished();
  }

  method DecodeStatFs(r: Reader) returns (res: Result<StatFs, DecodeError>)
    modifies r
    ensures res.Ok? ==> Dec(StatFsK, old(r.rest)) == Ok((StatFsVal(res.value), r.rest))
    ensures res.Err? ==> Dec(StatFsK, old(r.rest)) == Err(res.error)
  {
    var d := new Decoder(r, StatFsK.parts);
    assert StatFsK == KRec(StatFsK.parts);
    hide Decoder.Valid, Decs, Dec, StatFsVal;
    var head :- DecodeStatFsHead(d);
    var statfs :- DecodeStatFsTail(d, head);
    StatFsParts(statfs);
    d.Finished();
    res := Ok(statfs);
  }

  /** The fields up to the free blocks; the rest is still to come. */
  method DecodeStatFsHead(d: Decoder) returns (res: Result<StatFs, DecodeError>)
    requires d.Valid() && d.plan == StatFsK.parts && d.got == []
    modifies d, d.reader
    ensures res.Ok? ==> d.Valid() && d.got == StatFsHead(res.value) && |d.got| == 5
    ensures res.Err? ==> d.FailsWith(res.error)
  {
    hide Decoder.Valid, Decs, Dec;
    var typ :- d.TakeU32();
    var bsize :- d.TakeU32();
    var blocks :- d.TakeU64();
    var bfree :- d.TakeU64();
    var bavail :- d.TakeU64();
    res := Ok(StatFs(typ, bsize, blocks, bfree, bavail, 0, 0, 0, 0));
  }

  method DecodeStatFsTail(d: Decoder, head: StatFs) returns (res: Result<StatFs, DecodeError>)
    requires d.Valid() && d.plan == StatFsK.parts && d.got == StatFsHead(head) && |d.got| == 5
    modifies d, d.reader
    ensures res.Ok? ==> d.Valid() && d.got == StatFsHead(res.value) + StatFsTail(res.value) && |d.got| == |d.plan|
    ensures res.Err? ==> d.FailsWith(res.error)
  {
    hide Decoder.Valid, Decs, Dec;
    var files :- d.TakeU64();
    var ffree :- d.TakeU64();
    var fsid :- d.TakeU64();
    var namelen :- d.TakeU32();
    res := Ok(head.(files := files, ffree := ffree, fsid := fsid, namelen := namelen));
    assert StatFsHead(res.value) == StatFsHead(head);
  }

  method DecodeStat(r: Reader) returns (res: Result<Stat, DecodeError>)
    modifies r
    ensures res.Ok? ==> Dec(StatK, old(r.rest)) == Ok((StatVal(res.value), r.rest))
    ensures res.Err? ==> Dec(StatK, old(r.rest)) == Err(res.error)
  {
    var d := new Decoder(r, StatK.parts);
    assert StatK == KRec(StatK.parts);
    hide Decoder.Valid, Decs, Dec, TimeVal, StatVal;
    var head :- DecodeStatHead(d);
    var stat :- DecodeStatTail(d, head);
    StatParts(stat);
    d.Finished();
    res := Ok(stat);
  }

  /** The attributes up to the size; the rest is still to come. */
  method DecodeStatHead(d: Decoder) returns (res: Result<Stat, DecodeError>)
    requires d.Valid() && d.plan == StatK.parts && d.got == []
    modifies d, d.reader
    ensures res.Ok? ==> d.Valid() && d.got == StatHead(res.value) && |d.got| == 6
    ensures res.Err? ==> d.FailsWith(res.error)
  {
    hide Decoder.Valid, Decs, Dec;
    var mode :- d.TakeU32();
    var uid :- d.TakeU32();
    var gid :- d.TakeU32();
    assert d.got == [Int(mode), Int(uid), Int(gid)];
    var nlink :- d.TakeU64();
    var rdev :- d.TakeU64();
    var size :- d.TakeU64();
    var none := Time(0, 0);
    res := Ok(Stat(mode, uid, gid, nlink, rdev, size, 0, 0, none, none, none));
  }

  method DecodeStatTail(d: Decoder, head: Stat) returns (res: Result<Stat, DecodeError>)
    requires d.Valid() && d.plan == StatK.parts && d.got == StatHead(head) && |d.got| == 6
    modifies d, d.reader
    ensures res.Ok? ==> d.Valid() && d.got == StatHead(res.value) + StatTail(res.value) && |d.got| == |d.plan|
    ensures res.Err? ==> d.FailsWith(res.error)
  {
    hide Decoder.Valid, Decs, Dec, TimeVal;
    var blksize :- d.TakeU64();
    var blocks :- d.TakeU64();
    var atime :- d.TakeTime();
    var mtime :- d.TakeTime();
    var ctime :- d.TakeTime();
    res := Ok(head.(blksize := blksize, blocks := blocks, atime := atime, mtime := mtime, ctime := ctime));
    assert StatHead(res.value) == StatHead(head);
  }

  method DecodeSetAttr(r: Reader) returns (res: Result<SetAttr, DecodeError>)
    modifies r
    ensures res.Ok? ==> Dec(SetAttrK, old(r.rest)) == Ok((SetAttrVal(res.value), r.rest))
    ensures res.Err? ==> Dec(SetAttrK, old(r.rest)) == Err(res.error)
  {
    hide Decoder.Valid, Decs, Dec;
    assert SetAttrK == KRec(SetAttrK.parts);
    var d := new Decoder(r, SetAttrK.parts);
    var mode :- d.TakeU32();
    var uid :- d.TakeU32();
    var gid :- d.TakeU32();
    var size :- d.TakeU64();
    var atime :- d.TakeTime();
    var mtime :- d.TakeTime();
    res := Ok(SetAttr(mode, uid, gid, size, atime, mtime));
    assert d.got == SetAttrVal(res.value).parts;
    d.Finished();
  }

  method DecodeDirEntry(r: Reader) returns (res: Result<DirEntry, DecodeError>)
    modifies r
    ensures res.Ok? ==> Dec(DirEntryK, old(r.rest)) == Ok((DirEntryVal(res.value), r.rest))
    ensures res.Err? ==> Dec(DirEntryK, old(r.rest)) == Err(res.error)
  {
    hide Decoder.Valid, Decs, Dec;
    assert DirEntryK == KRec(DirEntryK.parts);
    var d := new Decoder(r, DirEntryK.parts);
    var qid :- d.TakeQId();
    var offset :- d.TakeU64();
    var typ :- d.TakeU8();
    var name :- d.TakeString();
    res := Ok(DirEntry(qid, offset, typ, name));
    assert d.got == DirEntryVal(res.value).parts;
    d.Finished();
  }

  method DecodeFlock(r: Reader) returns (res: Result<Flock, DecodeError>)
    modifies r
    ensures res.Ok? ==> Dec(FlockK, old(r.rest)) == Ok((FlockVal(res.value), r.rest))
    ensures res.Err? ==> Dec(FlockK, old(r.rest)) == Err(res.error)
  {
    hide Decoder.Valid, Decs, Dec;
    assert FlockK == KRec(FlockK.parts);
    var d := new Decoder(r, FlockK.parts);
    var typ :- d.TakeU8Flags(4);
    var flags :- d.TakeU32Flags(4);
    var start :- d.TakeU64();
    var length :- d.TakeU64();
    var procId :- d.TakeU32();
    var clientId :- d.TakeString();
    res := Ok(Flock(typ, flags, start, length, procId, clientId));
    assert d.got == FlockVal(res.value).parts;
    d.Finished();
  }

  method DecodeGetlock(r: Reader) returns (res: Result<Getlock, DecodeError>)
    modifies r
    ensures res.Ok? ==> Dec(GetlockK, old(r.rest)) == Ok((GetlockVal(res.value), r.rest))
    ensures res.Err? ==> Dec(GetlockK, old(r.rest)) == Err(res.error)
  {
    hide Decoder.Valid, Decs, Dec;
    assert GetlockK == KRec(GetlockK.parts);
    var d := new Decoder(r, GetlockK.parts);
    var typ :- d.TakeU8Flags(4);
    var start :- d.TakeU64();
    var length :- d.TakeU64();
    var procId :- d.TakeU32();
    var clientId :- d.TakeString();
    res := Ok(Getlock(typ, start, length, procId, clientId));
    assert d.got == GetlockVal(res.value).parts;
    d.Finished();
  }

  lemma {:induction false} DecVec(e: Kind, b: seq<u8>)
    ensures Dec(KVec(e), b) ==
              if |b| < 2 then Err(UnexpectedEof)
              else
                match DecN(e, FromLE(b[..2]), b[2..])
                case Err(x) => Err(x)
                case Ok(p) => Ok((Vec(p.0), p.1))
  {
  }

  lemma {:induction false} DecDir(e: Kind, b: seq<u8>)
    ensures Dec(KDir(e), b) ==
              if |b| < 4 then Err(UnexpectedEof)
              else
                match DecN(e, FromLE(b[..4]), b[4..])
                case Err(x) => Err(x)
                case Ok(p) => Ok((Vec(p.0), p.1))
  {
  }

  lemma NamesSnoc(xs: seq<seq<u8>>, x: seq<u8>)
    ensures NamesVal(xs + [x]) == Vec(NamesVal(xs).items + [Str(x)])
  {
    assert NamesVal(xs + [x]).items == NamesVal(xs).items + [Str(x)];
  }

  method DecodeNames(r: Reader) returns (res: Result<seq<seq<u8>>, DecodeError>)
    modifies r
    ensures res.Ok? ==> Dec(KVec(KStr), old(r.rest)) == Ok((NamesVal(res.value), r.rest))
    ensures res.Err? ==> Dec(KVec(KStr), old(r.rest)) == Err(res.error)
  {
    ghost var b := r.rest;
    DecVec(KStr, b);
    var len :- DecodeU16(r);
    ghost var items := b[2..];
    var xs := [];
    NamesParts(xs);
    assert NamesVal(xs).items == [] && DecN(KStr, 0, items) == Ok(([], items));
    hide Dec, DecN, NamesVal;
    for i := 0 to len
      invariant |xs| == i && NamesVal(xs).Vec? && DecN(KStr, i, items) == Ok((NamesVal(xs).items, r.rest))
    {
      DecNSnoc(KStr, i, items);
      var next := DecodeString(r);
      if next.Err? {
        DecNStops(KStr, i + 1, len - i - 1, items);
        return Err(next.error);
      }
      NamesSnoc(xs, next.value);
      xs := xs + [next.value];
    }
    NamesParts(xs);
    res := Ok(xs);
  }

  lemma QIdsSnoc(xs: seq<QId>, x: QId)
    ensures QIdsVal(xs + [x]) == Vec(QIdsVal(xs).items + [QIdVal(x)])
  {
    assert QIdsVal(xs + [x]).items == QIdsVal(xs).items + [QIdVal(x)];
  }

  method DecodeQIds(r: Reader) returns (res: Result<seq<QId>, DecodeError>)
    modifies r
    ensures res.Ok? ==> Dec(KVec(QIdK), old(r.rest)) == Ok((QIdsVal(res.value), r.rest))
    ensures res.Err? ==> Dec(KVec(QIdK), old(r.rest)) == Err(res.error)
  {
    ghost var b := r.rest;
    DecVec(QIdK, b);
    var len :- DecodeU16(r);
    ghost var items := b[2..];
    var xs := [];
    QIdsParts(xs);
    assert QIdsVal(xs).items == [] && DecN(QIdK, 0, items) == Ok(([], items));
    hide Dec, DecN, QIdsVal;
    for i := 0 to len
      invariant |xs| == i && QIdsVal(xs).Vec? && DecN(QIdK, i, items) == Ok((QIdsVal(xs).items, r.rest))
    {
      DecNSnoc(QIdK, i, items);
      var next := DecodeQId(r);
      if next.Err? {
        DecNStops(QIdK, i + 1, len - i - 1, items);
        return Err(next.error);
      }
      QIdsSnoc(xs, next.value);
      xs := xs + [next.value];
    }
    QIdsParts(xs);
    res := Ok(xs);
  }

  lemma DirentsSnoc(xs: seq<DirEntry>, x: DirEntry)
    ensures DirentsVal(xs + [x]) == Vec(DirentsVal(xs).items + [DirEntryVal(x)])
  {
    assert DirentsVal(xs + [x]).items == DirentsVal(xs).items + [DirEntryVal(x)];
  }

  /** The count is taken for a number of entries. */
  method DecodeDirents(r: Reader) returns (res: Result<seq<DirEntry>, DecodeError>)
    modifies r
    ensures res.Ok? ==> Dec(KDir(DirEntryK), old(r.rest)) == Ok((DirentsVal(res.value), r.rest))
    ensures res.Err? ==> Dec(KDir(DirEntryK), old(r.rest)) == Err(res.error)
  {
    ghost var b := r.rest;
    DecDir(DirEntryK, b);
    var len :- DecodeU32(r);
    ghost var items := b[4..];
    var xs := [];
    DirentsParts(xs);
    assert DirentsVal(xs).items == [] && DecN(DirEntryK, 0, items) == Ok(([], items));
    hide Dec, DecN, DirentsVal;
    for i := 0 to len
      invariant |xs| == i && DirentsVal(xs).Vec? && DecN(DirEntryK, i, items) == Ok((DirentsVal(xs).items, r.rest))
    {
      DecNSnoc(DirEntryK, i, items);
      var next := DecodeDirEntry(r);
      if next.Err? {
        DecNStops(DirEntryK, i + 1, len - i - 1, items);
        return Err(next.error);
      }
      DirentsSnoc(xs, next.value);
      xs := xs + [next.value];
    }
    DirentsParts(xs);
    res := Ok(xs);
  }

  method DecodeMsg(r: Reader) returns (res: Result<Msg, DecodeError>)
    modifies r
    ensures res.Ok? ==> DecMsg(old(r.rest)) == Ok((res.value, r.rest))
    ensures res.Err? ==> DecMsg(old(r.rest)) == Err(res.error)
  {
    ghost var b := r.rest;
    Spans();
    var n :- DecodeU8(r);
    Untruncated(1, b);
    ghost var afterType := r.rest;
    var tag :- DecodeU16(r);
    Untruncated(2, afterType);
    if Layout(n).None? {
      return Err(InvalidType);
    }
    ghost var ks := Layout(n).value;
    var d := new Decoder(r, ks);
    var body := DecodeFields(n, d);
    if body.Err? {
      return Err(body.error);
    }
    d.Finished();
    BuiltOfFields(body.value);
    res := Ok(Msg(tag, body.value));
  }

  /** The fields after the tag, by message number. */
  method DecodeFields(n: u8, d: Decoder) returns (res: Result<FCall, DecodeError>)
    requires d.Valid() && d.got == [] && Layout(n) == Some(d.plan)
    modifies d, d.reader
    ensures res.Ok? ==> d.Valid() && |d.got| == |d.plan| && MsgType(res.value) == n && d.got == Fields(res.value)
    ensures res.Err? ==> d.FailsWith(res.error)
  {
    hide *;
    if n < 16 {
      res := DecodeOpen(n, d);
    } else if n < 20 {
      res := DecodeNode(n, d);
    } else if n < 24 {
      res := DecodeRename(n, d);
    } else if n < 30 {
      res := DecodeAttr(n, d);
    } else if n < 40 {
      res := DecodeXattr(n, d);
    } else if n < 52 {
      res := DecodeDir(n, d);
    } else if n < 70 {
      res := DecodeLock(n, d);
    } else if n < 74 {
      res := DecodeLink(n, d);
    } else if n < 100 {
      res := DecodeAt(n, d);
    } else if n < 104 {
      res := DecodeSession(n, d);
    } else if n < 110 {
      res := DecodeAttach(n, d);
    } else if n < 118 {
      res := DecodeWalk(n, d);
    } else {
      res := DecodeFid(n, d);
    }
  }

  method DecodeOpen(n: u8, d: Decoder) returns (res: Result<FCall, DecodeError>)
    requires 0 <= n < 16 && Layout(n) == Some(d.plan)
    requires d.Valid() && d.got == []
    modifies d, d.reader
    ensures res.Ok? ==> d.Valid() && |d.got| == |d.plan| && MsgType(res.value) == n && d.got == Fields(res.value)
    ensures res.Err? ==> d.FailsWith(res.error)
  {
    hide Decoder.Valid, Decs, Dec, StatFsVal, QIdVal;
    match n {
      case 7 =>
        var ecode :- d.TakeU32();
        res := Ok(RlError(ecode));
      case 8 =>
        var fid :- d.TakeU32();
        res := Ok(TStatFs(fid));
      case 9 =>
        var statfs :- d.TakeStatFs();
        res := Ok(RStatFs(statfs));
      case 12 =>
        var fid :- d.TakeU32();
        var flags :- d.TakeU32();
        res := Ok(TlOpen(fid, flags));
      case 13 =>
        var qid :- d.TakeQId();
        var iounit :- d.TakeU32();
        res := Ok(RlOpen(qid, iounit));
      case 14 =>
        var fid :- d.TakeU32();
        var name :- d.TakeString();
        var flags :- d.TakeU32();
        assert d.got == [Int(fid), Str(name), Int(flags)];
        var mode :- d.TakeU32();
        var gid :- d.TakeU32();
        res := Ok(TlCreate(fid, name, flags, mode, gid));
      case _ =>
        var qid :- d.TakeQId();
        var iounit :- d.TakeU32();
        res := Ok(RlCreate(qid, iounit));
    }
    IsOpen(res.value);
  }

  method DecodeNode(n: u8, d: Decoder) returns (res: Result<FCall, DecodeError>)
    requires 16 <= n < 20 && Layout(n) == Some(d.plan)
    requires d.Valid() && d.got == []
    modifies d, d.reader
    ensures res.Ok? ==> d.Valid() && |d.got| == |d.plan| && MsgType(res.value) == n && d.got == Fields(res.value)
    ensures res.Err? ==> d.FailsWith(res.error)
  {
    hide Decoder.Valid, Decs, Dec, StatFsVal, QIdVal;
    match n {
      case 16 =>
        var fid :- d.TakeU32();
        var name :- d.TakeString();
        var symtgt :- d.TakeString();
        var gid :- d.TakeU32();
        res := Ok(TSymlink(fid, name, symtgt, gid));
      case 17 =>
        var qid :- d.TakeQId();
        res := Ok(RSymlink(qid));
      case 18 =>
        var made :- DecodeMkNod(d);
        res := Ok(made);
      case _ =>
        var qid :- d.TakeQId();
        res := Ok(RMkNod(qid));
    }
    IsNode(res.value);
  }

  method DecodeMkNod(d: Decoder) returns (res: Result<FCall, DecodeError>)
    requires NodeLayout(18) == Some(d.plan) && d.Valid() && d.got == []
    modifies d, d.reader
    ensures res.Ok? ==> d.Valid() && |d.got| == |d.plan| && res.value.TMkNod? && d.got == NodeFields(res.value)
    ensures res.Err? ==> d.FailsWith(res.error)
  {
    hide Decoder.Valid, Decs, Dec;
    var dfid :- d.TakeU32();
    var name :- d.TakeString();
    var mode :- d.TakeU32();
    assert d.got == [Int(dfid), Str(name), Int(mode)];
    var major :- d.TakeU32();
    var minor :- d.TakeU32();
    var gid :- d.TakeU32();
    res := Ok(TMkNod(dfid, name, mode, major, minor, gid));
  }

  method DecodeRename(n: u8, d: Decoder) returns (res: Result<FCall, DecodeError>)
    requires 20 <= n < 24 && Layout(n) == Some(d.plan)
    requires d.Valid() && d.got == []
    modifies d, d.reader
    ensures res.Ok? ==> d.Valid() && |d.got| == |d.plan| && MsgType(res.value) == n && d.got == Fields(res.value)
    ensures res.Err? ==> d.FailsWith(res.error)
  {
    hide Decoder.Valid, Decs, Dec;
    match n {
      case 20 =>
        var fid :- d.TakeU32();
        var dfid :- d.TakeU32();
        var name :- d.TakeString();
        res := Ok(TRename(fid, dfid, name));
      case 21 =>
        res := Ok(RRename);
      case 22 =>
        var fid :- d.TakeU32();
        res := Ok(TReadLink(fid));
      case _ =>
        var target :- d.TakeString();
        res := Ok(RReadLink(target));
    }
    IsRename(res.value);
  }

  method DecodeAttr(n: u8, d: Decoder) returns (res: Result<FCall, DecodeError>)
    requires 24 <= n < 30 && Layout(n) == Some(d.plan)
    requires d.Valid() && d.got == []
    modifies d, d.reader
    ensures res.Ok? ==> d.Valid() && |d.got| == |d.plan| && MsgType(res.value) == n && d.got == Fields(res.value)
    ensures res.Err? ==> d.FailsWith(res.error)
  {
    hide Decoder.Valid, Decs, Dec, QIdVal, StatVal, SetAttrVal;
    match n {
      case 24 =>
        var fid :- d.TakeU32();
        var reqMask :- d.TakeU64Flags(0x4000);
        res := Ok(TGetAttr(fid, reqMask));
      case 25 =>
        res := DecodeGetAttrReply(d);
        if res.Err? { return; }
      case 26 =>
        var fid :- d.TakeU32();
        var setMask :- d.TakeU32Flags(0x200);
        var attr :- d.TakeSetAttr();
        res := Ok(TSetAttr(fid, setMask, attr));
      case _ =>
        res := Ok(RSetAttr);
    }
    IsAttr(res.value);
  }

  /** Four reserved words end the reply to `TGetAttr`. */
  method DecodeGetAttrReply(d: Decoder) returns (res: Result<FCall, DecodeError>)
    requires Some(d.plan) == AttrLayout(25) && d.Valid() && d.got == []
    modifies d, d.reader
    ensures res.Ok? ==> d.Valid() && |d.got| == |d.plan| && res.value.RGetAttr? && d.got == AttrFields(res.value)
    ensures res.Err? ==> d.FailsWith(res.error)
  {
    hide Decoder.Valid, Decs, Dec, QIdVal, StatVal;
    var valid :- d.TakeU64Flags(0x4000);
    var qid :- d.TakeQId();
    var stat :- d.TakeStat();
    assert d.got == [Int(valid), QIdVal(qid), StatVal(stat)];
    var _ :- d.TakeU64Flags(1);
    var _ :- d.TakeU64Flags(1);
    var _ :- d.TakeU64Flags(1);
    var _ :- d.TakeU64Flags(1);
    res := Ok(RGetAttr(valid, qid, stat));
  }

  method DecodeXattr(n: u8, d: Decoder) returns (res: Result<FCall, DecodeError>)
    requires 30 <= n < 40 && Layout(n) == Some(d.plan)
    requires d.Valid() && d.got == []
    modifies d, d.reader
    ensures res.Ok? ==> d.Valid() && |d.got| == |d.plan| && MsgType(res.value) == n && d.got == Fields(res.value)
    ensures res.Err? ==> d.FailsWith(res.error)
  {
    hide Decoder.Valid, Decs, Dec;
    match n {
      case 30 =>
        var fid :- d.TakeU32();
        var newfid :- d.TakeU32();
        var name :- d.TakeString();
        res := Ok(TxAttrWalk(fid, newfid, name));
      case 31 =>
        var size :- d.TakeU64();
        res := Ok(RxAttrWalk(size));
      case 32 =>
        var fid :- d.TakeU32();
        var name :- d.TakeString();
        var attrSize :- d.TakeU64();
        var flags :- d.TakeU32();
        res := Ok(TxAttrCreate(fid, name, attrSize, flags));
      case _ =>
        res := Ok(RxAttrCreate);
    }
    IsXattr(res.value);
  }

  method DecodeDir(n: u8, d: Decoder) returns (res: Result<FCall, DecodeError>)
    requires 40 <= n < 52 && Layout(n) == Some(d.plan)
    requires d.Valid() && d.got == []
    modifies d, d.reader
    ensures res.Ok? ==> d.Valid() && |d.got| == |d.plan| && MsgType(res.value) == n && d.got == Fields(res.value)
    ensures res.Err? ==> d.FailsWith(res.error)
  {
    hide Decoder.Valid, Decs, Dec;
    match n {
      case 40 =>
        var fid :- d.TakeU32();
        var offset :- d.TakeU64();
        var count :- d.TakeU32();
        res := Ok(TReadDir(fid, offset, count));
      case 41 =>
        var dirents :- d.TakeDirents();
        res := Ok(RReadDir(dirents));
      case 50 =>
        var fid :- d.TakeU32();
        res := Ok(TFSync(fid));
      case _ =>
        res := Ok(RFSync);
    }
    IsDir(res.value);
  }

  method DecodeLock(n: u8, d: Decoder) returns (res: Result<FCall, DecodeError>)
    requires 52 <= n < 70 && Layout(n) == Some(d.plan)
    requires d.Valid() && d.got == []
    modifies d, d.reader
    ensures res.Ok? ==> d.Valid() && |d.got| == |d.plan| && MsgType(res.value) == n && d.got == Fields(res.value)
    ensures res.Err? ==> d.FailsWith(res.error)
  {
    hide Decoder.Valid, Decs, Dec;
    match n {
      case 52 =>
        var fid :- d.TakeU32();
        var flock :- d.TakeFlock();
        res := Ok(TLock(fid, flock));
      case 53 =>
        var status :- d.TakeU8Flags(4);
        res := Ok(RLock(status));
      case 54 =>
        var fid :- d.TakeU32();
        var getlock :- d.TakeGetlock();
        res := Ok(TGetLock(fid, getlock));
      case _ =>
        var getlock :- d.TakeGetlock();
        res := Ok(RGetLock(getlock));
    }
    IsLock(res.value);
  }

  method DecodeLink(n: u8, d: Decoder) returns (res: Result<FCall, DecodeError>)
    requires 70 <= n < 74 && Layout(n) == Some(d.plan)
    requires d.Valid() && d.got == []
    modifies d, d.reader
    ensures res.Ok? ==> d.Valid() && |d.got| == |d.plan| && MsgType(res.value) == n && d.got == Fields(res.value)
    ensures res.Err? ==> d.FailsWith(res.error)
  {
    hide Decoder.Valid, Decs, Dec;
    match n {
      case 70 =>
        var dfid :- d.TakeU32();
        var fid :- d.TakeU32();
        var name :- d.TakeString();
        res := Ok(TLink(dfid, fid, name));
      case 71 =>
        res := Ok(RLink);
      case 72 =>
        var dfid :- d.TakeU32();
        var name :- d.TakeString();
        var mode :- d.TakeU32();
        var gid :- d.TakeU32();
        res := Ok(TMkDir(dfid, name, mode, gid));
      case _ =>
        var qid :- d.TakeQId();
        res := Ok(RMkDir(qid));
    }
    IsLink(res.value);
  }

  method DecodeAt(n: u8, d: Decoder) returns (res: Result<FCall, DecodeError>)
    requires 74 <= n < 100 && Layout(n) == Some(d.plan)
    requires d.Valid() && d.got == []
    modifies d, d.reader
    ensures res.Ok? ==> d.Valid() && |d.got| == |d.plan| && MsgType(res.value) == n && d.got == Fields(res.value)
    ensures res.Err? ==> d.FailsWith(res.error)
  {
    hide Decoder.Valid, Decs, Dec;
    match n {
      case 74 =>
        var olddirfid :- d.TakeU32();
        var oldname :- d.TakeString();
        var newdirfid :- d.TakeU32();
        var newname :- d.TakeString();
        res := Ok(TRenameAt(olddirfid, oldname, newdirfid, newname));
      case 75 =>
        res := Ok(RRenameAt);
      case 76 =>
        var dirfd :- d.TakeU32();
        var name :- d.TakeString();
        var flags :- d.TakeU32();
        res := Ok(TUnlinkAt(dirfd, name, flags));
      case _ =>
        res := Ok(RUnlinkAt);
    }
    IsAt(res.value);
  }

  method DecodeSession(n: u8, d: Decoder) returns (res: Result<FCall, DecodeError>)
    requires 100 <= n < 104 && Layout(n) == Some(d.plan)
    requires d.Valid() && d.got == []
    modifies d, d.reader
    ensures res.Ok? ==> d.Valid() && |d.got| == |d.plan| && MsgType(res.value) == n && d.got == Fields(res.value)
    ensures res.Err? ==> d.FailsWith(res.error)
  {
    hide Decoder.Valid, Decs, Dec;
    match n {
      case 100 =>
        var msize :- d.TakeU32();
        var version :- d.TakeString();
        res := Ok(TVersion(msize, version));
      case 101 =>
        var msize :- d.TakeU32();
        var version :- d.TakeString();
        res := Ok(RVersion(msize, version));
      case 102 =>
        var afid :- d.TakeU32();
        var uname :- d.TakeString();
        var aname :- d.TakeString();
        var nUname :- d.TakeU32();
        res := Ok(TAuth(afid, uname, aname, nUname));
      case _ =>
        var aqid :- d.TakeQId();
        res := Ok(RAuth(aqid));
    }
    IsSession(res.value);
  }

  method DecodeAttach(n: u8, d: Decoder) returns (res: Result<FCall, DecodeError>)
    requires 104 <= n < 110 && Layout(n) == Some(d.plan)
    requires d.Valid() && d.got == []
    modifies d, d.reader
    ensures res.Ok? ==> d.Valid() && |d.got| == |d.plan| && MsgType(res.value) == n && d.got == Fields(res.value)
    ensures res.Err? ==> d.FailsWith(res.error)
  {
    hide Decoder.Valid, Decs, Dec, StatFsVal, QIdVal;
    match n {
      case 104 =>
        var fid :- d.TakeU32();
        var afid :- d.TakeU32();
        var uname :- d.TakeString();
        assert d.got == [Int(fid), Int(afid), Str(uname)];
        var aname :- d.TakeString();
        var nUname :- d.TakeU32();
        res := Ok(TAttach(fid, afid, uname, aname, nUname));
      case 105 =>
        var qid :- d.TakeQId();
        res := Ok(RAttach(qid));
      case 108 =>
        var oldtag :- d.TakeU16();
        res := Ok(TFlush(oldtag));
      case _ =>
        res := Ok(RFlush);
    }
    IsAttach(res.value);
  }

  method DecodeWalk(n: u8, d: Decoder) returns (res: Result<FCall, DecodeError>)
    requires 110 <= n < 118 && Layout(n) == Some(d.plan)
    requires d.Valid() && d.got == []
    modifies d, d.reader
    ensures res.Ok? ==> d.Valid() && |d.got| == |d.plan| && MsgType(res.value) == n && d.got == Fields(res.value)
    ensures res.Err? ==> d.FailsWith(res.error)
  {
    hide Decoder.Valid, Decs, Dec;
    match n {
      case 110 =>
        var fid :- d.TakeU32();
        var newfid :- d.TakeU32();
        var wnames :- d.TakeNames();
        res := Ok(TWalk(fid, newfid, wnames));
      case 111 =>
        var wqids :- d.TakeQIds();
        res := Ok(RWalk(wqids));
      case 116 =>
        var fid :- d.TakeU32();
        var offset :- d.TakeU64();
        var count :- d.TakeU32();
        res := Ok(TRead(fid, offset, count));
      case _ =>
        var data :- d.TakeData();
        res := Ok(RRead(data));
    }
    IsWalk(res.value);
  }

  method DecodeFid(n: u8, d: Decoder) returns (res: Result<FCall, DecodeError>)
    requires 118 <= n < 256 && Layout(n) == Some(d.plan)
    requires d.Valid() && d.got == []
    modifies d, d.reader
    ensures res.Ok? ==> d.Valid() && |d.got| == |d.plan| && MsgType(res.value) == n && d.got == Fields(res.value)
    ensures res.Err? ==> d.FailsWith(res.error)
  {
    hide Decoder.Valid, Decs, Dec;
    match n {
      case 118 =>
        var fid :- d.TakeU32();
        var offset :- d.TakeU64();
        var data :- d.TakeData();
        res := Ok(TWrite(fid, offset, data));
      case 119 =>
        var count :- d.TakeU32();
        res := Ok(RWrite(count));
      case 120 =>
        var fid :- d.TakeU32();
        res := Ok(TClunk(fid));
      case 121 =>
        res := Ok(RClunk);
      case 122 =>
        var fid :- d.TakeU32();
        res := Ok(TRemove(fid));
      case _ =>
        res := Ok(RRemove);
    }
    IsFid(res.value);
  }

}
