/** Reads and writes at given offsets of an open file that has one cursor, shared under a mutex. */
module FileIo {
  import opened Wrappers
  import opened Bytes
  import opened FidTable

  // ---- Contents

  function Available(content: seq<u8>, off: nat): nat {
    if off <= |content| then |content| - off else 0
  }

  /** `n` bytes from `off` on. */
  function Slice(content: seq<u8>, off: nat, n: nat): seq<u8>
    requires n <= Available(content, off)
  {
    if n == 0 then [] else content[off..off + n]
  }

  function Padded(content: seq<u8>, off: nat): seq<u8> {
    if off <= |content| then content else content + seq(off - |content|, _ => 0)
  }

  /** `bytes` written over `content` from `off` on. */
  function Written(content: seq<u8>, off: nat, bytes: seq<u8>): seq<u8> {
    if bytes == [] then content
    else
      var base := Padded(content, off);
      base[..off] + bytes + (if off + |bytes| <= |base| then base[off + |bytes|..] else [])
  }

  /** A write changes the bytes from its offset on that it has bytes for, fills a gap before them with zeros,
      and leaves every other byte as it was. */
  lemma WrittenBytes(content: seq<u8>, off: nat, bytes: seq<u8>)
    ensures |Written(content, off, bytes)|
            == if bytes == [] || off + |bytes| <= |content| then |content| else off + |bytes|
    ensures forall i :: 0 <= i < |Written(content, off, bytes)| ==>
              Written(content, off, bytes)[i] ==
                if off <= i < off + |bytes| then bytes[i - off] else if i < |content| then content[i] else 0
  {
  }

  /** What a slice is: as many bytes as asked for, those from the offset on. */
  lemma SliceBytes(content: seq<u8>, off: nat, n: nat)
    requires n <= Available(content, off)
    ensures |Slice(content, off, n)| == n && (n > 0 ==> off + n <= |content|)
    ensures forall k :: 0 <= k < n ==> Slice(content, off, n)[k] == content[off + k]
  {
  }

  /** What has been written is what is read back from the same offset. */
  lemma ReadBack(content: seq<u8>, off: nat, bytes: seq<u8>)
    ensures |bytes| <= Available(Written(content, off, bytes), off)
    ensures Slice(Written(content, off, bytes), off, |bytes|) == bytes
  {
    WrittenBytes(content, off, bytes);
    SliceBytes(Written(content, off, bytes), off, |bytes|);
    hide Written, Slice;
  }

  /** Writes to bytes that do not overlap can be made in either order. */
  lemma WritesCommute(content: seq<u8>, o: nat, a: seq<u8>, p: nat, b: seq<u8>)
    requires o + |a| <= p
    ensures Written(Written(content, o, a), p, b) == Written(Written(content, p, b), o, a)
  {
    WrittenBytes(content, o, a);
    WrittenBytes(content, p, b);
    WrittenBytes(Written(content, o, a), p, b);
    WrittenBytes(Written(content, p, b), o, a);
    hide Written;
  }

  // ---- Operations in small steps

  datatype Op = ReadAt(off: u64, count: u32) | WriteAt(off: u64, data: seq<u8>)

  /** What the system makes of an operation: it fails, or moves a number of bytes. */
  datatype Act = Failed(e: Errno) | Moved(n: nat)

  datatype Answer = Got(data: seq<u8>) | Put(count: u32) | Error(e: Errno)

  datatype Stage =
    | Waiting
    | Locked             // holds the mutex
    | Sought             // holds the mutex, the cursor is set
    | Answered(a: Answer) // holds the mutex, has its result
    | Done(a: Answer)

  /** `locks` lists the operations that have taken the mutex, and `log` what the system made of each, both in
      order. */
  datatype File = File(
    content: seq<u8>,
    cursor: nat,
    holder: Option<nat>,
    ops: seq<Op>,
    stages: seq<Stage>,
    locks: seq<nat>,
    log: seq<(nat, Act)>)

  datatype Step =
    | Submit(op: Op)
    | Lock(id: nat)
    | Seek(id: nat)
    | SeekFails(id: nat, e: Errno)
    | Transfer(id: nat, act: Act)
    | Unlock(id: nat)

  function Opened(content: seq<u8>): File {
    File(content, 0, None, [], [], [], [])
  }

  /** How many bytes an operation may move from a cursor. */
  function Limit(op: Op, content: seq<u8>, cursor: nat): nat {
    match op
    case ReadAt(_, count) => if count <= Available(content, cursor) then count else Available(content, cursor)
    case WriteAt(_, data) => |data|
  }

  predicate At(f: File, id: nat, stage: Stage) {
    id < |f.stages| == |f.ops| && f.stages[id] == stage
  }

  predicate Enabled(f: File, s: Step) {
    match s
    case Submit(_) => true
    case Lock(i) => At(f, i, Waiting) && f.holder == None
    case Seek(i) => At(f, i, Locked)
    case SeekFails(i, _) => At(f, i, Locked)
    case Transfer(i, act) => At(f, i, Sought) && (act.Moved? ==> act.n <= Limit(f.ops[i], f.content, f.cursor))
    case Unlock(i) => i < |f.stages| == |f.ops| && f.stages[i].Answered?
  }

  function Apply(f: File, s: Step): File
    requires Enabled(f, s)
  {
    match s
    case Submit(op) => f.(ops := f.ops + [op], stages := f.stages + [Waiting])
    case Lock(i) => f.(stages := f.stages[i := Locked], holder := Some(i), locks := f.locks + [i])
    case Seek(i) => f.(stages := f.stages[i := Sought], cursor := f.ops[i].off)
    case SeekFails(i, e) => f.(stages := f.stages[i := Answered(Error(e))], log := f.log + [(i, Failed(e))])
    case Unlock(i) => f.(stages := f.stages[i := Done(f.stages[i].a)], holder := None)
    case Transfer(i, Failed(e)) =>
      f.(stages := f.stages[i := Answered(Error(e))], log := f.log + [(i, Failed(e))])
    case Transfer(i, Moved(n)) =>
      match f.ops[i]
      case ReadAt(_, _) =>
        f.(stages := f.stages[i := Answered(Got(Slice(f.content, f.cursor, n)))], cursor := f.cursor + n,
           log := f.log + [(i, Moved(n))])
      case WriteAt(_, data) =>
        f.(stages := f.stages[i := Answered(Put(n % U32_SPAN))], cursor := f.cursor + n,
           content := Written(f.content, f.cursor, data[..n]), log := f.log + [(i, Moved(n))])
  }

  predicate Legal(f: File, steps: seq<Step>)
    decreases |steps|
  {
    steps == [] || (Enabled(f, steps[0]) && Legal(Apply(f, steps[0]), steps[1..]))
  }

  function Exec(f: File, steps: seq<Step>): File
    requires Legal(f, steps)
    decreases |steps|
  {
    if steps == [] then f else Exec(Apply(f, steps[0]), steps[1..])
  }

  // ---- One at a time, each at its own offset

  /** The contents after an operation that has the file to itself. */
  function After(content: seq<u8>, op: Op, act: Act): seq<u8> {
    if op.WriteAt? && act.Moved? && act.n <= |op.data| then Written(content, op.off, op.data[..act.n]) else content
  }

  /** What an operation that has the file to itself answers. */
  function AnswerOf(content: seq<u8>, op: Op, act: Act): Answer {
    match act
    case Failed(e) => Error(e)
    case Moved(n) =>
      match op
      case ReadAt(off, _) => Got(if n <= Available(content, off) then Slice(content, off, n) else [])
      case WriteAt(_, _) => Put(n % U32_SPAN)
  }

  /** What the system can make of an operation that has the file to itself. */
  predicate Possible(content: seq<u8>, op: Op, act: Act) {
    act.Moved? ==> act.n <= Limit(op, content, op.off)
  }

  function Replay(content: seq<u8>, ops: seq<Op>, log: seq<(nat, Act)>): seq<u8>
    requires forall k :: 0 <= k < |log| ==> log[k].0 < |ops|
  {
    if log == [] then content
    else
      var (i, act) := log[|log| - 1];
      After(Replay(content, ops, log[..|log| - 1]), ops[i], act)
  }

  lemma {:induction false} ReplayWithMore(content: seq<u8>, ops: seq<Op>, op: Op, log: seq<(nat, Act)>)
    requires forall k :: 0 <= k < |log| ==> log[k].0 < |ops|
    ensures Replay(content, ops + [op], log) == Replay(content, ops, log)
  {
    if log != [] {
      ReplayWithMore(content, ops, op, log[..|log| - 1]);
    }
  }

  // ---- The invariant

  predicate Holds(stage: Stage) {
    stage.Locked? || stage.Sought? || stage.Answered?
  }

  /** One operation at a time holds the mutex, and the cursor stays where that operation put it. */
  predicate Exclusive(f: File) {
    && |f.stages| == |f.ops|
    && (forall i :: 0 <= i < |f.stages| ==> (Holds(f.stages[i]) <==> f.holder == Some(i)))
    && (f.holder.Some? ==> f.holder.value < |f.ops|)
    && (forall i :: 0 <= i < |f.stages| && f.stages[i].Sought? ==> f.cursor == f.ops[i].off)
  }

  /** The log has one entry for each operation that has taken the mutex, in that order, except for the one that
      holds it and is not yet answered. */
  predicate InLockOrder(f: File)
    requires Exclusive(f)
  {
    && |f.log| <= |f.locks|
    && (forall k :: 0 <= k < |f.log| ==> f.log[k].0 == f.locks[k])
    && (forall k :: 0 <= k < |f.locks| ==> f.locks[k] < |f.ops| && !f.stages[f.locks[k]].Waiting?)
    && (forall j, k :: 0 <= j < k < |f.locks| ==> f.locks[j] != f.locks[k])
    && (forall i :: 0 <= i < |f.stages| && !f.stages[i].Waiting? ==> i in f.locks)
    && (if f.holder.Some? && !f.stages[f.holder.value].Answered?
        then |f.locks| == |f.log| + 1 && f.locks[|f.log|] == f.holder.value
        else |f.locks| == |f.log|)
  }

  predicate HasAnswer(stage: Stage, a: Answer) {
    stage == Answered(a) || stage == Done(a)
  }

  predicate Replayed(f: File, content: seq<u8>)
    requires Exclusive(f) && InLockOrder(f)
  {
    && f.content == Replay(content, f.ops, f.log)
    && (forall k :: 0 <= k < |f.log| ==> AnsweredAlone(f, content, k))
  }

  /** The `k`-th entry of the log was possible, and answered as it was, if its operation had the file to itself
      when all the operations before it had been carried out. */
  predicate AnsweredAlone(f: File, content: seq<u8>, k: nat)
    requires k < |f.log| && |f.stages| == |f.ops| && forall k :: 0 <= k < |f.log| ==> f.log[k].0 < |f.ops|
  {
    var (i, act) := f.log[k];
    var before := Replay(content, f.ops, f.log[..k]);
    Possible(before, f.ops[i], act) && HasAnswer(f.stages[i], AnswerOf(before, f.ops[i], act))
  }

  ghost predicate Inv(f: File, content: seq<u8>) {
    Exclusive(f) && InLockOrder(f) && Replayed(f, content)
  }

  lemma ExclusiveStep(f: File, s: Step)
    requires Exclusive(f) && Enabled(f, s)
    ensures Exclusive(Apply(f, s))
  {
    hide Written, Slice;
  }

  lemma OrderStep(f: File, s: Step)
    requires Exclusive(f) && InLockOrder(f) && Enabled(f, s)
    ensures Exclusive(Apply(f, s)) && InLockOrder(Apply(f, s))
  {
    ExclusiveStep(f, s);
    hide Written, Slice, Limit;
    if s.Transfer? || s.SeekFails? {
      OrderLogged(f, Apply(f, s), s.id);
    } else if s.Lock? {
      assert Apply(f, s).locks[|f.log|] == s.id;
    }
  }

  /** The holder is answered. */
  lemma OrderLogged(f: File, f': File, i: nat)
    requires Exclusive(f) && InLockOrder(f) && Exclusive(f')
    requires i < |f.stages| && f.holder == f'.holder == Some(i) && !f.stages[i].Answered? && f'.ops == f.ops
    requires |f'.log| == |f.log| + 1 && f'.log[..|f.log|] == f.log && f'.log[|f.log|].0 == i && f'.locks == f.locks
    requires f'.stages[i].Answered? && forall j :: 0 <= j < |f.stages| && j != i ==> f'.stages[j] == f.stages[j]
    ensures InLockOrder(f')
  {
    assert forall k :: 0 <= k < |f.log| ==> f'.log[k] == f'.log[..|f.log|][k];
  }

  /** A transfer at the cursor is a transfer at the operation's own offset. */
  lemma TransferIsPositional(f: File, i: nat, act: Act)
    requires Exclusive(f) && Enabled(f, Transfer(i, act))
    ensures Apply(f, Transfer(i, act)).content == After(f.content, f.ops[i], act)
    ensures Apply(f, Transfer(i, act)).stages == f.stages[i := Answered(AnswerOf(f.content, f.ops[i], act))]
    ensures Possible(f.content, f.ops[i], act)
  {
    hide Written;
  }

  lemma Logged(f: File, f': File, content: seq<u8>, i: nat, act: Act)
    requires Inv(f, content) && Exclusive(f') && InLockOrder(f')
    requires f'.ops == f.ops && f'.log == f.log + [(i, act)] && i < |f.ops| && f.holder == Some(i)
    requires f'.content == After(f.content, f.ops[i], act) && Possible(f.content, f.ops[i], act)
    requires f'.stages == f.stages[i := Answered(AnswerOf(f.content, f.ops[i], act))]
    ensures Replayed(f', content)
  {
    hide AnswerOf, After, Possible;
    assert f'.log[..|f.log|] == f.log;
    forall k | 0 <= k < |f'.log| ensures AnsweredAlone(f', content, k) {
      if k < |f.log| {
        assert AnsweredAlone(f, content, k) && f'.log[..k] == f.log[..k];
        assert f.locks[k] != i by {
          assert f.stages[f.log[k].0] == f.stages[f.locks[k]] && f'.locks[k] != f'.locks[|f.log|];
        }
      }
    }
  }

  lemma NotLogged(f: File, f': File, content: seq<u8>)
    requires Inv(f, content) && Exclusive(f') && InLockOrder(f')
    requires |f.ops| <= |f'.ops|
    requires f'.ops == f.ops || (|f'.ops| == |f.ops| + 1 && f'.ops == f.ops + [f'.ops[|f.ops|]])
    requires f'.log == f.log && f'.content == f.content
    requires forall i :: 0 <= i < |f.stages| ==>
               f'.stages[i] == f.stages[i] || (!f.stages[i].Answered? && !f.stages[i].Done?)
               || (f.stages[i].Answered? && f'.stages[i] == Done(f.stages[i].a))
    ensures Replayed(f', content)
  {
    hide AnswerOf, After, Possible;
    forall k | 0 <= k <= |f.log| ensures Replay(content, f'.ops, f.log[..k]) == Replay(content, f.ops, f.log[..k]) {
      if f'.ops != f.ops {
        ReplayWithMore(content, f.ops, f'.ops[|f.ops|], f.log[..k]);
      }
    }
    assert f.log[..|f.log|] == f.log;
    forall k | 0 <= k < |f.log| ensures AnsweredAlone(f', content, k) {
      assert AnsweredAlone(f, content, k);
    }
  }

  lemma InvStep(f: File, s: Step, content: seq<u8>)
    requires Inv(f, content) && Enabled(f, s)
    ensures Inv(Apply(f, s), content)
  {
    OrderStep(f, s);
    hide InLockOrder, Replayed, Written, Slice, Limit, After, Possible;
    match s
    case Transfer(i, act) => TransferLogged(f, i, act, content);
    case SeekFails(i, e) => FailureLogged(f, i, e, content);
    case _ => QuietStep(f, s, content);
  }

  lemma TransferLogged(f: File, i: nat, act: Act, content: seq<u8>)
    requires Inv(f, content) && Enabled(f, Transfer(i, act)) && Exclusive(Apply(f, Transfer(i, act)))
    requires InLockOrder(Apply(f, Transfer(i, act)))
    ensures Replayed(Apply(f, Transfer(i, act)), content)
  {
    TransferIsPositional(f, i, act);
    hide InLockOrder, Replayed, Written, Slice, Limit, After, Possible, AnswerOf;
    Logged(f, Apply(f, Transfer(i, act)), content, i, act);
  }

  lemma FailureLogged(f: File, i: nat, e: Errno, content: seq<u8>)
    requires Inv(f, content) && Enabled(f, SeekFails(i, e)) && Exclusive(Apply(f, SeekFails(i, e)))
    requires InLockOrder(Apply(f, SeekFails(i, e)))
    ensures Replayed(Apply(f, SeekFails(i, e)), content)
  {
    hide InLockOrder, Replayed;
    Logged(f, Apply(f, SeekFails(i, e)), content, i, Failed(e));
  }

  lemma QuietStep(f: File, s: Step, content: seq<u8>)
    requires Inv(f, content) && Enabled(f, s) && !s.Transfer? && !s.SeekFails?
    requires Exclusive(Apply(f, s)) && InLockOrder(Apply(f, s))
    ensures Replayed(Apply(f, s), content)
  {
    hide InLockOrder, Replayed, Written, Slice, Limit;
    NotLogged(f, Apply(f, s), content);
  }

  lemma {:induction false} InvRun(f: File, steps: seq<Step>, content: seq<u8>)
    requires Inv(f, content) && Legal(f, steps)
    ensures Inv(Exec(f, steps), content)
    decreases |steps|
  {
    hide Apply, Enabled, Inv;
    if steps != [] {
      InvStep(f, steps[0], content);
      InvRun(Apply(f, steps[0]), steps[1..], content);
    }
  }

  /** However reads and writes interleave, the file and every answer are as if each operation had the file to
      itself at its own offset, one after the other in the order in which they took the mutex. */
  lemma {:induction false} PositionalHistory(content: seq<u8>, steps: seq<Step>)
    requires Legal(Opened(content), steps)
    ensures var f := Exec(Opened(content), steps);
            && |f.stages| == |f.ops| && |f.log| <= |f.locks|
            && (forall k :: 0 <= k < |f.log| ==> f.log[k].0 == f.locks[k] < |f.ops|)
            && f.content == Replay(content, f.ops, f.log)
            && (forall k :: 0 <= k < |f.log| ==> AnsweredAlone(f, content, k))
            && (forall j, k :: 0 <= j < k < |f.locks| ==> f.locks[j] != f.locks[k])
            && (forall i :: 0 <= i < |f.ops| && f.stages[i].Done? ==> exists k :: 0 <= k < |f.log| && f.log[k].0 == i)
  {
    InvRun(Opened(content), steps, content);
    var f := Exec(Opened(content), steps);
    forall i | 0 <= i < |f.ops| && f.stages[i].Done? ensures exists k :: 0 <= k < |f.log| && f.log[k].0 == i {
      assert i in f.locks;
      var k :| 0 <= k < |f.locks| && f.locks[k] == i;
      assert k < |f.log|;
      assert f.log[k].0 == i;
    }
  }

  /** What the system can make of an operation: a read moves no more bytes than were asked for and are there, and a
      write no more than it was given. */
  lemma PossibleIs(content: seq<u8>, op: Op, n: nat)
    ensures op.ReadAt? ==> (Possible(content, op, Moved(n)) <==> n <= op.count && (n == 0 || op.off + n <= |content|))
    ensures op.WriteAt? ==> (Possible(content, op, Moved(n)) <==> n <= |op.data|)
  {
  }

  /** So every read that succeeds answers bytes at its own offset, no more than it asked for, of the contents that
      the writes before it have made. */
  lemma {:induction false} ReadsAreSlices(content: seq<u8>, steps: seq<Step>, i: nat, data: seq<u8>)
    requires Legal(Opened(content), steps)
    requires var f := Exec(Opened(content), steps);
             i < |f.stages| == |f.ops| && f.ops[i].ReadAt? && f.stages[i] == Done(Got(data))
    ensures var f := Exec(Opened(content), steps);
            && (forall k :: 0 <= k < |f.log| ==> f.log[k].0 < |f.ops|)
            && exists k :: 0 <= k < |f.log| && f.log[k].0 == i &&
                 var before, off := Replay(content, f.ops, f.log[..k]), f.ops[i].off;
                 && |data| <= f.ops[i].count && (data == [] || off + |data| <= |before|)
                 && (forall j :: 0 <= j < |data| ==> data[j] == before[off + j])
  {
    PositionalHistory(content, steps);
    var f := Exec(Opened(content), steps);
    var k :| 0 <= k < |f.log| && f.log[k].0 == i;
    assert AnsweredAlone(f, content, k);
    hide Legal, Exec, Slice, Replay, Limit, InLockOrder, Exclusive;
    var before := Replay(content, f.ops, f.log[..k]);
    PossibleIs(before, f.ops[i], f.log[k].1.n);
    SliceBytes(before, f.ops[i].off, f.log[k].1.n);
  }

  /** And every write that succeeds answers how many of its first bytes it has put at its own offset; a gap before
      them is filled with zeros, and no other byte is changed. */
  lemma {:induction false} WritesLand(content: seq<u8>, steps: seq<Step>, i: nat, count: u32)
    requires Legal(Opened(content), steps)
    requires var f := Exec(Opened(content), steps);
             i < |f.stages| == |f.ops| && f.ops[i].WriteAt? && f.stages[i] == Done(Answer.Put(count))
    ensures var f := Exec(Opened(content), steps);
            && (forall k :: 0 <= k < |f.log| ==> f.log[k].0 < |f.ops|)
            && exists k, n: nat :: 0 <= k < |f.log| && f.log[k] == (i, Moved(n)) && n <= |f.ops[i].data| &&
                 count == n % U32_SPAN &&
                 var before, after := Replay(content, f.ops, f.log[..k]), Replay(content, f.ops, f.log[..k + 1]);
                 Lands(before, after, f.ops[i].off, f.ops[i].data[..n])
  {
    PositionalHistory(content, steps);
    var f := Exec(Opened(content), steps);
    var k :| 0 <= k < |f.log| && f.log[k].0 == i;
    assert AnsweredAlone(f, content, k);
    var n := f.log[k].1.n;
    hide Legal, Exec, Written, Slice, Lands, Replay, Limit, InLockOrder, Exclusive;
    var before := Replay(content, f.ops, f.log[..k]);
    PossibleIs(before, f.ops[i], n);
    ReplayOne(content, f.ops, f.log, k);
    WrittenLands(before, f.ops[i].off, f.ops[i].data[..n]);
    assert f.log[k] == (i, Moved(n));
  }

  lemma {:induction false} ReplayOne(content: seq<u8>, ops: seq<Op>, log: seq<(nat, Act)>, k: nat)
    requires k < |log| && forall j :: 0 <= j < |log| ==> log[j].0 < |ops|
    ensures Replay(content, ops, log[..k + 1]) == After(Replay(content, ops, log[..k]), ops[log[k].0], log[k].1)
  {
    assert log[..k + 1][..k] == log[..k] && log[..k + 1][k] == log[k];
    hide After;
  }

  lemma WrittenLands(content: seq<u8>, off: nat, bytes: seq<u8>)
    ensures Lands(content, Written(content, off, bytes), off, bytes)
  {
    WrittenBytes(content, off, bytes);
    hide Written;
  }

  predicate Lands(before: seq<u8>, after: seq<u8>, off: nat, bytes: seq<u8>) {
    && |after| == (if bytes == [] || off + |bytes| <= |before| then |before| else off + |bytes|)
    && (forall j :: 0 <= j < |bytes| ==> after[off + j] == bytes[j])
    && (forall j :: 0 <= j < |after| && !(off <= j < off + |bytes|) ==>
          after[j] == if j < |before| then before[j] else 0)
  }
}
