/** Reading a directory page by page, each page within a budget of bytes and resumed by an offset. */
module ReadDir {
  import opened Wrappers
  import opened Bytes
  import opened Fcall
  import opened FidTable
  import opened Codec
  import opened Framing
  import opened RoundTrips
  import opened Walk

  datatype Item = Item(qid: QId, name: seq<u8>)

  /** The entries of a directory in the order the system lists them; there are fewer than there are offsets. */
  type Listing = items: seq<Result<Item, Errno>> | |items| + 2 < U64_SPAN

  /** A directory that does not change, and the qids of the two names that a first page starts with. The server looks
      these up in its own working directory. */
  datatype Dir = Dir(dot: Result<QId, Errno>, dotdot: Result<QId, Errno>, listing: Result<Listing, Errno>)

  function EntryAt(item: Item, i: nat): DirEntry
    requires i + 2 < U64_SPAN
  {
    DirEntry(item.qid, 2 + i, 0, item.name)
  }

  function Heads(dir: Dir): Result<seq<DirEntry>, Errno> {
    var dot :- dir.dot;
    var dotdot :- dir.dotdot;
    Ok([DirEntry(dot, 0, 0, DOT), DirEntry(dotdot, 1, 0, DOTDOT)])
  }

  /** Adds entries from the `i`-th on, up to the first that would take the 32-bit size over `count`. */
  function Fill(items: Listing, i: nat, count: u32, dirents: seq<DirEntry>): Result<seq<DirEntry>, Errno>
    decreases |items| - i
  {
    if i >= |items| then Ok(dirents)
    else
      var item :- items[i];
      var dirent := EntryAt(item, i);
      if (DirentsSize(dirents) + DirEntrySize(dirent)) % U32_SPAN > count then Ok(dirents)
      else Fill(items, i + 1, count, dirents + [dirent])
  }

  function Page(dir: Dir, off: u64, count: u32): Result<seq<DirEntry>, Errno> {
    var heads :- if off == 0 then Heads(dir) else Ok([]);
    var items :- dir.listing;
    Fill(items, if off == 0 then 0 else off - 1, count, heads)
  }

  // ---- A page takes as many entries as fit

  function SizeOf(item: Item): nat {
    24 + |item.name|
  }

  /** The entries from the `i`-th up to the `m`-th, without errors. */
  function Entries(items: Listing, i: nat, m: nat): seq<DirEntry>
    requires i <= m <= |items| && forall k :: i <= k < m ==> items[k].Ok?
    decreases m - i
  {
    if i == m then [] else [EntryAt(items[i].value, i)] + Entries(items, i + 1, m)
  }

  /** What the entries are: the names and qids that the directory lists, numbered from 2 on. */
  lemma {:induction false} EntriesAt(items: Listing, i: nat, m: nat)
    requires i <= m <= |items| && forall k :: i <= k < m ==> items[k].Ok?
    ensures |Entries(items, i, m)| == m - i
    ensures forall k :: i <= k < m ==> IsEntry(Entries(items, i, m)[k - i], items[k].value, 2 + k)
    decreases m - i
  {
    if i < m {
      EntriesAt(items, i + 1, m);
      var es := Entries(items, i, m);
      forall k | i <= k < m ensures IsEntry(es[k - i], items[k].value, 2 + k) {
        assert k > i ==> es[k - i] == Entries(items, i + 1, m)[k - (i + 1)];
      }
    }
  }

  predicate IsEntry(e: DirEntry, item: Item, offset: nat) {
    e.name == item.name && e.qid == item.qid && e.offset == offset && e.typ == 0
  }

  lemma {:induction false} EntriesLast(items: Listing, i: nat, m: nat)
    requires i < m <= |items| && forall k :: i <= k < m ==> items[k].Ok?
    ensures Entries(items, i, m) == Entries(items, i, m - 1) + [EntryAt(items[m - 1].value, m - 1)]
    decreases m - i
  {
    if i < m - 1 {
      EntriesLast(items, i + 1, m);
    }
  }

  lemma {:induction false} EntriesSplit(items: Listing, i: nat, k: nat, m: nat)
    requires i <= k <= m <= |items| && forall j :: i <= j < m ==> items[j].Ok?
    ensures Entries(items, i, m) == Entries(items, i, k) + Entries(items, k, m)
    decreases k - i
  {
    if i < k {
      EntriesSplit(items, i + 1, k, m);
    }
  }

  lemma {:induction false} PayloadConcat(a: seq<DirEntry>, b: seq<DirEntry>)
    ensures PayloadSize(a + b) == PayloadSize(a) + PayloadSize(b)
  {
    if a == [] {
      assert a + b == b;
    } else {
      PayloadConcat(a[1..], b);
      assert (a + b)[1..] == a[1..] + b;
    }
  }

  lemma SmallMod(x: nat)
    requires x < U32_SPAN
    ensures x % U32_SPAN == x
  {
  }

  /** Where a page that has `size` bytes before entry `i` would end if sums did not wrap: all the entries before `m`
      fit together, and entry `m` does not, or cannot be read, or is not there. */
  predicate EndsAt(items: Listing, i: nat, count: nat, size: nat, m: nat) {
    && i <= m <= |items|
    && (forall k :: i <= k < m ==> items[k].Ok?)
    && (i < m ==> size + PayloadSize(Entries(items, i, m)) <= count)
    && (m < |items| && items[m].Ok? ==>
          size + PayloadSize(Entries(items, i, m)) + SizeOf(items[m].value) > count)
  }

  /** That entry. */
  function FirstUnfit(items: Listing, i: nat, count: nat, size: nat): (m: nat)
    requires i <= |items|
    ensures i <= m <= |items|
    decreases |items| - i
  {
    if i < |items| && items[i].Ok? && size + SizeOf(items[i].value) <= count
    then FirstUnfit(items, i + 1, count, size + SizeOf(items[i].value))
    else i
  }

  lemma EmptyPayload()
    ensures PayloadSize([]) == 0
  {
  }

  lemma OneMoreEntry(items: Listing, i: nat, m: nat)
    requires i < m <= |items| && forall k :: i <= k < m ==> items[k].Ok?
    ensures PayloadSize(Entries(items, i, m)) == SizeOf(items[i].value) + PayloadSize(Entries(items, i + 1, m))
  {
    EntriesSplit(items, i, i + 1, m);
    PayloadConcat(Entries(items, i, i + 1), Entries(items, i + 1, m));
    OneEntry(items, i);
  }

  lemma {:induction false} FirstUnfitEnds(items: Listing, i: nat, count: nat, size: nat)
    requires i <= |items|
    ensures EndsAt(items, i, count, size, FirstUnfit(items, i, count, size))
    decreases |items| - i
  {
    EmptyPayload();
    hide PayloadSize;
    if i < |items| && items[i].Ok? && size + SizeOf(items[i].value) <= count {
      FirstUnfitEnds(items, i + 1, count, size + SizeOf(items[i].value));
      OneMoreEntry(items, i, FirstUnfit(items, i, count, size));
    }
  }

  /** The size that is tested is the true size modulo 2^32. */
  lemma {:induction false} TestedSize(items: Listing, i: nat, dirents: seq<DirEntry>)
    requires i < |items| && items[i].Ok?
    ensures var dirent := EntryAt(items[i].value, i);
            && (DirentsSize(dirents) + DirEntrySize(dirent)) % U32_SPAN
               == (PayloadSize(dirents) + SizeOf(items[i].value)) % U32_SPAN
            && DirentsSize(dirents + [dirent]) == (PayloadSize(dirents) + SizeOf(items[i].value)) % U32_SPAN
            && PayloadSize(dirents + [dirent]) == PayloadSize(dirents) + SizeOf(items[i].value)
  {
    var dirent := EntryAt(items[i].value, i);
    PayloadCount(dirents);
    PayloadCount(dirents + [dirent]);
    PayloadSnoc(dirents, dirent);
    WrappedSum(PayloadSize(dirents), SizeOf(items[i].value));
    hide PayloadSize, DirentsSize;
  }

  lemma TakeOne(items: Listing, i: nat, m: nat, dirents: seq<DirEntry>)
    requires i < m <= |items| && forall k :: i <= k < m ==> items[k].Ok?
    ensures dirents + [EntryAt(items[i].value, i)] + Entries(items, i + 1, m) == dirents + Entries(items, i, m)
  {
  }

  /** A page takes every entry before the first that does not fit by true sizes; what becomes of that one is up to
      the wrapped sum. */
  lemma {:induction false} FillReaches(items: Listing, i: nat, count: u32, dirents: seq<DirEntry>)
    requires i <= |items|
    ensures var m := FirstUnfit(items, i, count, PayloadSize(dirents));
            && EndsAt(items, i, count, PayloadSize(dirents), m)
            && Fill(items, i, count, dirents) == Fill(items, m, count, dirents + Entries(items, i, m))
            && (m < |items| && items[m].Err? ==> Fill(items, i, count, dirents) == Err(items[m].error))
    decreases |items| - i
  {
    assert dirents + Entries(items, i, i) == dirents;
    FirstUnfitEnds(items, i, count, PayloadSize(dirents));
    hide DirentsSize, DirEntrySize, PayloadSize, Entries, EndsAt;
    if i < |items| && items[i].Ok? && PayloadSize(dirents) + SizeOf(items[i].value) <= count {
      var dirent := EntryAt(items[i].value, i);
      TestedSize(items, i, dirents);
      SmallMod(PayloadSize(dirents) + SizeOf(items[i].value));
      FillReaches(items, i + 1, count, dirents + [dirent]);
      TakeOne(items, i, FirstUnfit(items, i, count, PayloadSize(dirents)), dirents);
    }
  }

  lemma {:induction false} OneEntry(items: Listing, i: nat)
    requires i < |items| && items[i].Ok?
    ensures Entries(items, i, i + 1) == [EntryAt(items[i].value, i)]
    ensures PayloadSize(Entries(items, i, i + 1)) == SizeOf(items[i].value)
  {
    assert Entries(items, i, i + 1) == [EntryAt(items[i].value, i)] + Entries(items, i + 1, i + 1);
    PayloadSnoc([], EntryAt(items[i].value, i));
    assert [] + [EntryAt(items[i].value, i)] == [EntryAt(items[i].value, i)];
  }

  /** When a page fails: when `.` or `..` is asked for and cannot be found, when the directory cannot be listed, or
      when the entry that ends it cannot be read. */
  lemma {:induction false} PageFails(dir: Dir, off: u64, count: u32)
    ensures off == 0 && dir.dot.Err? ==> Page(dir, off, count) == Err(dir.dot.error)
    ensures off == 0 && dir.dot.Ok? && dir.dotdot.Err? ==> Page(dir, off, count) == Err(dir.dotdot.error)
    ensures (off == 0 ==> dir.dot.Ok? && dir.dotdot.Ok?) && dir.listing.Err? ==>
              Page(dir, off, count) == Err(dir.listing.error)
    ensures (off == 0 ==> dir.dot.Ok? && dir.dotdot.Ok?) && dir.listing.Ok? ==>
              var items, i := dir.listing.value, if off == 0 then 0 else off - 1;
              && (i >= |items| ==> Page(dir, off, count).Ok?)
              && (i < |items| ==>
                    var m := FirstUnfit(items, i, count, if off == 0 then 51 else 0);
                    m < |items| && items[m].Err? ==> Page(dir, off, count) == Err(items[m].error))
  {
    if (off == 0 ==> dir.dot.Ok? && dir.dotdot.Ok?) && dir.listing.Ok? {
      var items, i := dir.listing.value, if off == 0 then 0 else off - 1;
      var start := if off == 0 then Heads(dir).value else [];
      if off == 0 {
        assert PayloadSize(start[1..]) == 24 + 2 + PayloadSize(start[1..][1..]);
      }
      if i < |items| {
        FillReaches(items, i, count, start);
      }
      hide PayloadSize, EndsAt, Entries, DirentsSize, DirEntrySize;
    }
  }

  /** A directory that can be opened and whose entries can all be read. */
  predicate Good(dir: Dir) {
    && dir.dot.Ok? && dir.dotdot.Ok? && dir.listing.Ok?
    && forall k :: 0 <= k < |dir.listing.value| ==> dir.listing.value[k].Ok?
  }

  /** What a page starts with. */
  function Start(dir: Dir, off: u64): seq<DirEntry>
    requires Good(dir)
  {
    if off == 0 then Heads(dir).value else []
  }

  /** The number of entries that a page skips. */
  function Skipped(dir: Dir, off: u64): nat
    requires Good(dir)
  {
    if off == 0 then 0 else if off - 1 < |dir.listing.value| then off - 1 else |dir.listing.value|
  }

  lemma StartSize(dir: Dir, off: u64)
    requires Good(dir)
    ensures PayloadSize(Start(dir, off)) == if off == 0 then 51 else 0
  {
    if off == 0 {
      var heads := Start(dir, off);
      assert PayloadSize(heads[1..]) == 24 + 2 + PayloadSize(heads[1..][1..]);
    }
  }

  function StartBytes(off: u64): nat {
    if off == 0 then 51 else 0
  }

  /** The most that a page may take: `count` bytes, or the 51 of `.` and `..` on a first page if that is more. */
  function Allowed(off: u64, count: u32): nat {
    if off == 0 && count < 51 then 51 else count
  }

  /** The entry at which a page should end. */
  function PageEnd(dir: Dir, off: u64, count: u32): nat
    requires Good(dir)
  {
    FirstUnfit(dir.listing.value, Skipped(dir, off), count, StartBytes(off))
  }

  lemma PageEndIs(dir: Dir, off: u64, count: u32)
    requires Good(dir)
    ensures EndsAt(dir.listing.value, Skipped(dir, off), count, StartBytes(off), PageEnd(dir, off, count))
  {
    FirstUnfitEnds(dir.listing.value, Skipped(dir, off), count, StartBytes(off));
  }

  /** The true size of the page with the entry at which it should end. */
  function Overfull(dir: Dir, off: u64, count: u32): nat
    requires Good(dir) && PageEnd(dir, off, count) < |dir.listing.value|
  {
    PageEndIs(dir, off, count);
    var items, m := dir.listing.value, PageEnd(dir, off, count);
    StartBytes(off) + PayloadSize(Entries(items, Skipped(dir, off), m)) + SizeOf(items[m].value)
  }

  /** No entry is left at the end of the page, or the one that does not fit is noticed in 32 bits. */
  predicate EndIsNoticed(dir: Dir, off: u64, count: u32)
    requires Good(dir)
  {
    PageEnd(dir, off, count) == |dir.listing.value| || Overfull(dir, off, count) % U32_SPAN > count
  }

  /** An entry is taken exactly when the 32-bit sum allows it, and entries after it may follow. */
  lemma FillTakes(items: Listing, m: nat, count: u32, had: seq<DirEntry>) returns (end: nat)
    requires m < |items| && forall k :: 0 <= k < |items| ==> items[k].Ok?
    ensures m <= end <= |items| && Fill(items, m, count, had) == Ok(had + Entries(items, m, end))
    ensures end == m <==> (PayloadSize(had) + SizeOf(items[m].value)) % U32_SPAN > count
  {
    end := m;
    TestedSize(items, m, had);
    assert had + Entries(items, m, m) == had;
    hide PayloadSize, DirentsSize, DirEntrySize, Entries;
    if (PayloadSize(had) + SizeOf(items[m].value)) % U32_SPAN <= count {
      end := FillIsRun(items, m + 1, count, had + [EntryAt(items[m].value, m)], |items|);
      TakeOne(items, m, end, had);
    }
  }

  /** A page holds at least the entries before the one at which it should end; it takes that one too exactly when the
      32-bit sum hides that it does not fit. */
  lemma PageReaches(dir: Dir, off: u64, count: u32) returns (end: nat)
    requires Good(dir)
    ensures var items, i, m := dir.listing.value, Skipped(dir, off), PageEnd(dir, off, count);
            && i <= m <= end <= |items| && (end == m <==> EndIsNoticed(dir, off, count))
            && Page(dir, off, count) == Ok(Start(dir, off) + Entries(items, i, end))
  {
    var items, i, m := dir.listing.value, Skipped(dir, off), PageEnd(dir, off, count);
    var start, had := Start(dir, off), Entries(dir.listing.value, Skipped(dir, off), PageEnd(dir, off, count));
    PageIsFilled(dir, off, count);
    PageSize(dir, off, m);
    end := m;
    assert Entries(items, m, m) == [] && start + had + [] == start + had;
    hide PayloadSize, Entries, Start, EndsAt, Page, Fill, FirstUnfit, Skipped;
    if m < |items| {
      end := FillTakes(items, m, count, start + had);
      EntriesSplit(items, i, m, end);
      assert start + had + Entries(items, m, end) == start + (had + Entries(items, m, end));
    }
  }

  lemma {:induction false} PageIsFilled(dir: Dir, off: u64, count: u32)
    requires Good(dir)
    ensures var items, i, m := dir.listing.value, Skipped(dir, off), PageEnd(dir, off, count);
            Page(dir, off, count) == Fill(items, m, count, Start(dir, off) + Entries(items, i, m))
  {
    StartSize(dir, off);
    FillReaches(dir.listing.value, Skipped(dir, off), count, Start(dir, off));
    hide PayloadSize, Entries, EndsAt;
  }

  lemma {:induction false} PageSize(dir: Dir, off: u64, end: nat)
    requires Good(dir) && Skipped(dir, off) <= end <= |dir.listing.value|
    ensures PayloadSize(Start(dir, off) + Entries(dir.listing.value, Skipped(dir, off), end))
            == StartBytes(off) + PayloadSize(Entries(dir.listing.value, Skipped(dir, off), end))
  {
    StartSize(dir, off);
    PayloadConcat(Start(dir, off), Entries(dir.listing.value, Skipped(dir, off), end));
  }

  /** `.` and `..` if the page is the first, and then the entries that follow the offset for as long as they fit in
      `count` bytes by their true sizes: that is the page exactly when the entry that ends it is noticed. */
  lemma PageIsGreedy(dir: Dir, off: u64, count: u32)
    requires Good(dir)
    ensures var items, i, m := dir.listing.value, Skipped(dir, off), PageEnd(dir, off, count);
            && EndsAt(items, i, count, StartBytes(off), m)
            && (Page(dir, off, count) == Ok(Start(dir, off) + Entries(items, i, m)) <==> EndIsNoticed(dir, off, count))
  {
    var items, i, m := dir.listing.value, Skipped(dir, off), PageEnd(dir, off, count);
    PageEndIs(dir, off, count);
    var end := PageReaches(dir, off, count);
    EntriesAt(items, i, m);
    EntriesAt(items, i, end);
    assert |Start(dir, off) + Entries(items, i, end)| == |Start(dir, off)| + (end - i);
  }

  /** A page takes no more than it may exactly when the entry that ends it is noticed, and so does the whole frame of
      the reply, which has 11 bytes more, out of the 24 that are kept for its header. */
  lemma PageFits(dir: Dir, off: u64, count: u32, tag: u16)
    requires Good(dir)
    ensures Page(dir, off, count).Ok?
    ensures var es := Page(dir, off, count).value; var frame := Frame(EncMsg(Msg(tag, RReadDir(es))));
            && (PayloadSize(es) <= Allowed(off, count) <==> EndIsNoticed(dir, off, count))
            && (|frame| <= Allowed(off, count) + 11 <==> EndIsNoticed(dir, off, count))
            && (|frame| <= Allowed(off, count) + READDIRHDRSZ <== EndIsNoticed(dir, off, count))
  {
    var items, i, m := dir.listing.value, Skipped(dir, off), PageEnd(dir, off, count);
    PageEndIs(dir, off, count);
    EmptyPayload();
    hide PayloadSize;
    var end := PageReaches(dir, off, count);
    ReplySize(tag, Page(dir, off, count).value);
    PageSize(dir, off, end);
    if m < end {
      EntriesSplit(items, i, m, end);
      PayloadConcat(Entries(items, i, m), Entries(items, m, end));
      OneMoreEntry(items, m, end);
    }
  }

  /** If no entry has 2^32 bytes less 51 or more, an entry that does not fit goes unnoticed exactly when the page with
      it has 2^32 bytes or more. */
  lemma NoticedBelowSpan(dir: Dir, off: u64, count: u32)
    requires Good(dir)
    requires forall k :: 0 <= k < |dir.listing.value| ==> SizeOf(dir.listing.value[k].value) + 51 < U32_SPAN
    ensures EndIsNoticed(dir, off, count) <==>
            PageEnd(dir, off, count) == |dir.listing.value| || Overfull(dir, off, count) < U32_SPAN
  {
    var items, i, m := dir.listing.value, Skipped(dir, off), PageEnd(dir, off, count);
    PageEndIs(dir, off, count);
    EmptyPayload();
    hide PayloadSize;
    if m < |items| {
      var size := Overfull(dir, off, count);
      assert size < U32_SPAN + U32_SPAN;
      if size < U32_SPAN {
        SmallMod(size);
      } else {
        SmallMod(size - U32_SPAN);
      }
    }
  }

  /** So a directory that has less than 2^32 bytes left to list is read within the budget, whatever the count. */
  lemma SmallDirectoriesFit(dir: Dir, off: u64, count: u32)
    requires Good(dir)
    requires var items := dir.listing.value;
             StartBytes(off) + PayloadSize(Entries(items, Skipped(dir, off), |items|)) < U32_SPAN
    ensures EndIsNoticed(dir, off, count)
  {
    var items, i, m := dir.listing.value, Skipped(dir, off), PageEnd(dir, off, count);
    PageEndIs(dir, off, count);
    hide PayloadSize;
    if m < |items| {
      EntriesSplit(items, i, m, |items|);
      PayloadConcat(Entries(items, i, m), Entries(items, m, |items|));
      OneMoreEntry(items, m, |items|);
      SmallMod(Overfull(dir, off, count));
    }
  }

  lemma {:induction false} ReplySize(tag: u16, es: seq<DirEntry>)
    ensures |Frame(EncMsg(Msg(tag, RReadDir(es))))| == 11 + PayloadSize(es)
  {
    DirectoryBytes(es);
    WrittenHeader(Msg(tag, RReadDir(es)));
  }

  // ---- Page after page

  lemma {:induction false} FillAdvances(items: Listing, i: nat, count: u32, dirents: seq<DirEntry>)
    requires Fill(items, i, count, dirents).Ok?
    ensures var es := Fill(items, i, count, dirents).value;
            es == dirents || (es != [] && i + 2 <= es[|es| - 1].offset <= |items| + 1)
    decreases |items| - i
  {
    if i < |items| && Fill(items, i, count, dirents) != Ok(dirents) {
      FillAdvances(items, i + 1, count, dirents + [EntryAt(items[i].value, i)]);
    }
  }

  /** The offset of the last entry of a page is past the offset of the page. */
  lemma PageAdvances(dir: Dir, off: u64, count: u32)
    requires Page(dir, off, count).Ok?
    ensures var es := Page(dir, off, count).value;
            dir.listing.Ok? && (es != [] ==> off < es[|es| - 1].offset <= |dir.listing.value| + 1)
  {
    FillAdvances(dir.listing.value, if off == 0 then 0 else off - 1, count, if off == 0 then Heads(dir).value else []);
  }

  function Left(dir: Dir, off: u64): nat {
    if dir.listing.Ok? && off <= |dir.listing.value| + 1 then |dir.listing.value| + 2 - off else 0
  }

  /** The pages that a client gets by asking from `off` on, each time from the offset of the last entry it was
      given, until a page is empty or an error. The `n`-th request asks for `counts(n)` bytes. */
  function Pages(dir: Dir, off: u64, counts: nat -> u32, n: nat): seq<seq<DirEntry>>
    decreases Left(dir, off)
  {
    match Page(dir, off, counts(n))
    case Err(_) => []
    case Ok(es) =>
      if es == [] then [] else
      PageAdvances(dir, off, counts(n));
      [es] + Pages(dir, es[|es| - 1].offset, counts, n + 1)
  }

  function Flat(pages: seq<seq<DirEntry>>): seq<DirEntry> {
    if pages == [] then [] else pages[0] + Flat(pages[1..])
  }

  /** The size that a page with `count` bytes can have before an entry is tried. */
  function Budget(count: u32): nat {
    if count < 51 then 51 else count
  }

  /** An entry that a page with `count` bytes can never take: too big for a page of its own, and not so big that
      the 32-bit sum wraps. */
  predicate TooBig(item: Item, count: u32) {
    SizeOf(item) > count && Budget(count) + SizeOf(item) < U32_SPAN
  }

  /** Whatever the request, the entries from the `i`-th on fit a page of their own up to the `m`-th, which fits
      none. */
  ghost predicate ReachesTo(items: Listing, i: nat, counts: nat -> u32, m: nat)
    requires forall k :: 0 <= k < |items| ==> items[k].Ok?
  {
    && i <= m <= |items|
    && (forall k, n: nat :: i <= k < m ==> SizeOf(items[k].value) <= counts(n))
    && (m < |items| ==> forall n: nat :: TooBig(items[m].value, counts(n)))
  }

  /** However its sums wrap, a page is a run of entries that starts with the next one if that fits a page of its
      own, and that an entry too big ends. */
  lemma {:induction false} FillIsRun(items: Listing, i: nat, count: u32, dirents: seq<DirEntry>, end: nat)
    returns (m: nat)
    requires i <= end <= |items| && forall k :: 0 <= k < |items| ==> items[k].Ok?
    requires DirentsSize(dirents) <= Budget(count) && (end < |items| ==> TooBig(items[end].value, count))
    ensures i <= m <= end && Fill(items, i, count, dirents) == Ok(dirents + Entries(items, i, m))
    ensures dirents == [] && i < end && SizeOf(items[i].value) <= count ==> i < m
    decreases |items| - i
  {
    m := i;
    assert dirents + [] == dirents;
    if i < |items| {
      var dirent := EntryAt(items[i].value, i);
      var size := DirentsSize(dirents) + DirEntrySize(dirent);
      if TooBig(items[i].value, count) || (dirents == [] && SizeOf(items[i].value) <= count) {
        SmallMod(SizeOf(items[i].value));
        SmallMod(size);
      }
      assert (dirents + [dirent])[..|dirents|] == dirents;
      if size % U32_SPAN <= count {
        m := FillIsRun(items, i + 1, count, dirents + [dirent], end);
        TakeOne(items, i, m, dirents);
      }
    }
  }

  lemma {:induction false} LastOffset(dir: Dir, off: u64, m: nat)
    requires Good(dir) && Skipped(dir, off) <= m <= |dir.listing.value|
    ensures var es := Start(dir, off) + Entries(dir.listing.value, Skipped(dir, off), m);
            (es == [] <==> off != 0 && m == Skipped(dir, off)) && (es != [] ==> es[|es| - 1].offset == m + 1)
  {
    var i := Skipped(dir, off);
    if i < m {
      EntriesLast(dir.listing.value, i, m);
    }
  }

  /** No page goes past an entry that is too big, and none stays empty before one that fits. */
  lemma PageIsRun(dir: Dir, off: u64, counts: nat -> u32, n: nat, end: nat) returns (m: nat)
    requires Good(dir) && ReachesTo(dir.listing.value, Skipped(dir, off), counts, end)
    ensures Skipped(dir, off) <= m <= end && (off != 0 && m == Skipped(dir, off) ==> m == end)
    ensures Page(dir, off, counts(n)) == Ok(Start(dir, off) + Entries(dir.listing.value, Skipped(dir, off), m))
  {
    StartSize(dir, off);
    PayloadCount(Start(dir, off));
    m := FillIsRun(dir.listing.value, Skipped(dir, off), counts(n), Start(dir, off), end);
  }

  lemma Regroup(a: seq<DirEntry>, b: seq<DirEntry>, c: seq<DirEntry>)
    ensures a + b + ([] + c) == a + (b + c)
  {
  }

  lemma ReachesOn(items: Listing, i: nat, m: nat, counts: nat -> u32, end: nat)
    requires forall k :: 0 <= k < |items| ==> items[k].Ok?
    requires ReachesTo(items, i, counts, end) && i <= m <= end
    ensures ReachesTo(items, m, counts, end)
  {
    hide TooBig, SizeOf;
  }

  lemma {:induction false} FlatFront(es: seq<DirEntry>, pages: seq<seq<DirEntry>>)
    ensures Flat([es] + pages) == es + Flat(pages)
  {
    assert ([es] + pages)[1..] == pages;
  }

  /** One page of many: it either ends the reading at `end`, or leaves the rest for the pages after it. */
  lemma NextPage(dir: Dir, off: u64, counts: nat -> u32, n: nat, end: nat) returns (m: nat)
    requires Good(dir) && ReachesTo(dir.listing.value, Skipped(dir, off), counts, end)
    ensures m + 1 < U64_SPAN && Skipped(dir, m + 1) == m && Start(dir, m + 1) == []
    ensures ReachesTo(dir.listing.value, m, counts, end)
    ensures Page(dir, off, counts(n)).Ok?
    ensures var items, es := dir.listing.value, Page(dir, off, counts(n)).value;
            && (es == [] ==> Start(dir, off) + Entries(items, Skipped(dir, off), end) == [])
            && (es != [] ==> es[|es| - 1].offset == m + 1)
            && es + ([] + Entries(items, m, end)) == Start(dir, off) + Entries(items, Skipped(dir, off), end)
  {
    var items, i := dir.listing.value, Skipped(dir, off);
    m := PageIsRun(dir, off, counts, n, end);
    ReachesOn(items, i, m, counts, end);
    LastOffset(dir, off, m);
    hide Page, ReachesTo, Entries, TooBig, Heads;
    EntriesSplit(items, i, m, end);
    Regroup(Start(dir, off), Entries(items, i, m), Entries(items, m, end));
  }

  lemma {:induction false} PagesTile(dir: Dir, off: u64, counts: nat -> u32, n: nat, end: nat)
    requires Good(dir) && ReachesTo(dir.listing.value, Skipped(dir, off), counts, end)
    ensures Flat(Pages(dir, off, counts, n)) == Start(dir, off) + Entries(dir.listing.value, Skipped(dir, off), end)
    decreases Left(dir, off)
  {
    hide Page, Start, Entries;
    var items := dir.listing.value;
    var m := NextPage(dir, off, counts, n, end);
    var es := Page(dir, off, counts(n)).value;
    if es != [] {
      PageAdvances(dir, off, counts(n));
      PagesTile(dir, m + 1, counts, n + 1, end);
      FlatFront(es, Pages(dir, m + 1, counts, n + 1));
    }
  }

  /** If every request has room for the largest entry, then whether or not its sums wrap the pages are `.`, `..`
      and every entry once, in order; and then comes an empty page. */
  lemma {:induction false} PagingIsExact(dir: Dir, counts: nat -> u32)
    requires Good(dir)
    requires forall k, n: nat :: 0 <= k < |dir.listing.value| ==> SizeOf(dir.listing.value[k].value) <= counts(n)
    ensures var items, es := dir.listing.value, Flat(Pages(dir, 0, counts, 0));
            && |es| == 2 + |items|
            && IsEntry(es[0], Item(dir.dot.value, [46]), 0) && IsEntry(es[1], Item(dir.dotdot.value, [46, 46]), 1)
            && (forall k :: 0 <= k < |items| ==> IsEntry(es[2 + k], items[k].value, 2 + k))
            && es == Heads(dir).value + Entries(items, 0, |items|)
            && (forall n: nat :: Page(dir, |items| + 1, counts(n)) == Ok([]))
  {
    PagesTile(dir, 0, counts, 0, |dir.listing.value|);
    EntriesAt(dir.listing.value, 0, |dir.listing.value|);
    hide Flat, Pages, Entries;
  }

  function FirstTooBig(items: Listing, i: nat, count: u32): (m: nat)
    requires i <= |items| && forall k :: 0 <= k < |items| ==> items[k].Ok?
    ensures i <= m <= |items| && (m < |items| ==> SizeOf(items[m].value) > count)
    ensures forall k :: i <= k < m ==> SizeOf(items[k].value) <= count
    decreases |items| - i
  {
    if i == |items| || SizeOf(items[i].value) > count then i else FirstTooBig(items, i + 1, count)
  }

  /** With one count for all requests, paging ends before the first entry that is larger, unless the 32-bit sum
      lets that entry through: it is complete exactly when no entry is larger. */
  lemma {:induction false} PagingStopsAtTooBig(dir: Dir, count: u32)
    requires Good(dir)
    requires var items := dir.listing.value; var m := FirstTooBig(items, 0, count);
             m < |items| ==> Budget(count) + SizeOf(items[m].value) < U32_SPAN
    ensures var items := dir.listing.value; var pages := Pages(dir, 0, (n: nat) => count, 0);
            && Flat(pages) == Heads(dir).value + Entries(items, 0, FirstTooBig(items, 0, count))
            && (Flat(pages) == Heads(dir).value + Entries(items, 0, |items|) <==>
                forall k :: 0 <= k < |items| ==> SizeOf(items[k].value) <= count)
  {
    var items, m := dir.listing.value, FirstTooBig(dir.listing.value, 0, count);
    PagesTile(dir, 0, (n: nat) => count, 0, m);
    EntriesAt(items, 0, m);
    EntriesAt(items, 0, |items|);
  }

  /** This only delimits `PagingStopsAtTooBig`, for no system lists names of 2^31 bytes: an entry larger than the
      count slips through when the sum wraps. With 2^31 bytes asked for and filled, one of 24 bytes more leaves a sum
      of 24. */
  lemma SumsMayWrap(dir: Dir)
    requires Good(dir) && |dir.listing.value| == 2
    requires SizeOf(dir.listing.value[0].value) == 0x8000_0000 - 51
    requires SizeOf(dir.listing.value[1].value) == 0x8000_0000 + 24
    ensures FirstTooBig(dir.listing.value, 0, 0x8000_0000) == 1
    ensures Page(dir, 0, 0x8000_0000) == Ok(Heads(dir).value + Entries(dir.listing.value, 0, 2))
  {
    var items, heads := dir.listing.value, Heads(dir).value;
    var first, second := EntryAt(items[0].value, 0), EntryAt(items[1].value, 1);
    StartSize(dir, 0);
    PayloadCount(heads);
    assert DirentsSize(heads) == 51;
    assert (heads + [first])[..2] == heads && DirentsSize(heads + [first]) == 0x8000_0000;
    hide DirentsSize, Heads;
    assert Fill(items, 2, 0x8000_0000, heads + [first] + [second]) == Ok(heads + [first] + [second]);
    assert Fill(items, 1, 0x8000_0000, heads + [first]) == Ok(heads + [first] + [second]);
    assert heads + [first] + [second] == heads + ([first] + ([second] + Entries(items, 2, 2)));
  }

  /** With the largest count no 32-bit sum exceeds it, and a page is all that is left of the directory. */
  lemma {:induction false} LargestCountNeverStops(items: Listing, i: nat, dirents: seq<DirEntry>)
    requires i <= |items| && forall k :: 0 <= k < |items| ==> items[k].Ok?
    ensures Fill(items, i, U32_SPAN - 1, dirents) == Ok(dirents + Entries(items, i, |items|))
    decreases |items| - i
  {
    if i == |items| {
      assert dirents + [] == dirents;
    } else {
      var dirent := EntryAt(items[i].value, i);
      LargestCountNeverStops(items, i + 1, dirents + [dirent]);
      assert dirents + [dirent] + Entries(items, i + 1, |items|)
          == dirents + ([dirent] + Entries(items, i + 1, |items|));
    }
  }

  /** So with the largest count a page takes too much exactly when 2^32 bytes or more are left to list. */
  lemma LargestCountOverruns(dir: Dir, off: u64)
    requires Good(dir)
    ensures var items, i, page := dir.listing.value, Skipped(dir, off), Page(dir, off, U32_SPAN - 1);
            && page == Ok(Start(dir, off) + Entries(items, i, |items|))
            && PayloadSize(page.value) == StartBytes(off) + PayloadSize(Entries(items, i, |items|))
            && (PayloadSize(page.value) > Allowed(off, U32_SPAN - 1) <==>
                StartBytes(off) + PayloadSize(Entries(items, i, |items|)) >= U32_SPAN)
  {
    LargestCountNeverStops(dir.listing.value, Skipped(dir, off), Start(dir, off));
    PageSize(dir, off, |dir.listing.value|);
  }

  lemma {:induction false} EqualSizes(items: Listing, i: nat, m: nat, size: nat)
    requires i <= m <= |items| && forall k :: i <= k < m ==> items[k].Ok? && SizeOf(items[k].value) == size
    ensures PayloadSize(Entries(items, i, m)) == (m - i) * size
    decreases m - i
  {
    if i < m {
      OneMoreEntry(items, i, m);
      EqualSizes(items, i + 1, m, size);
    }
  }

  /** A directory of 2^27 entries with names of eight bytes. */
  function FullDirectory(qid: QId, name: seq<u8>): Dir {
    Dir(Ok(qid), Ok(qid), Ok(seq(0x800_0000, _ => Ok(Item(qid, name)))))
  }

  /** Asked for 2^32 - 1 bytes, its first page takes 2^32 + 51. */
  lemma OverBudget(qid: QId, name: seq<u8>)
    requires |name| == 8
    ensures Good(FullDirectory(qid, name))
    ensures var page := Page(FullDirectory(qid, name), 0, U32_SPAN - 1);
            page.Ok? && PayloadSize(page.value) == U32_SPAN + 51 > Allowed(0, U32_SPAN - 1)
  {
    var dir := FullDirectory(qid, name);
    LargestCountOverruns(dir, 0);
    EqualSizes(dir.listing.value, 0, |dir.listing.value|, 32);
  }
}
