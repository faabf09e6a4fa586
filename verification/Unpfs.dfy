/** The handlers of the Unix file server, updating its fids and open files in place.

    What the system answers is a parameter of each handler: a function from paths to qids or directories, or the
    outcome of a call. */
module Unpfs {
  import opened Wrappers
  import opened Bytes
  import opened Fcall
  import opened FidTable
  import opened Walk
  import opened ReadDir
  import opened FileIo

  const EINVAL: Errno := 22

  class OpenFile {
    var content: seq<u8>
    var cursor: nat

    constructor (content: seq<u8>)
      ensures this.content == content && cursor == 0
    {
      this.content, cursor := content, 0;
    }
  }

  class UnpfsFId {
    var realpath: Path
    var file: Option<OpenFile>
    var depth: u64

    constructor ()
      ensures realpath == [] && file == None && depth == 0
    {
      realpath, file, depth := [], None, 0;
    }

    ghost function Footprint(): set<object>
      reads this
    {
      match file
      case None => {this}
      case Some(f) => {this, f}
    }

    /** The contents of the open file. */
    ghost function Content(): seq<u8>
      reads Footprint()
    {
      match file
      case None => []
      case Some(f) => f.content
    }
  }

  class FileServer {
    const realroot: Path
    const maxDepth: u64

    constructor (realroot: Path, maxDepth: u64)
      ensures this.realroot == realroot && this.maxDepth == maxDepth
    {
      this.realroot, this.maxDepth := realroot, maxDepth;
    }

    /** The fid is at the root even when the root cannot be found. */
    method RAttach(fid: UnpfsFId, qidAt: QIdAt) returns (res: Result<FCall, Errno>)
      modifies fid`realpath, fid`depth
      ensures fid.realpath == realroot && fid.depth == 0
      ensures qidAt(realroot).Ok? ==> res == Ok(FCall.RAttach(qidAt(realroot).value))
      ensures qidAt(realroot).Err? ==> res == Err(qidAt(realroot).error)
    {
      fid.realpath := realroot;
      fid.depth := 0;
      var qid :- qidAt(realroot);
      res := Ok(FCall.RAttach(qid));
    }

    /** A failed walk changes nothing. */
    method RWalk(fid: UnpfsFId, newfid: UnpfsFId, wnames: seq<Name>, qidAt: QIdAt) returns (res: Result<FCall, Errno>)
      modifies newfid`realpath, newfid`depth
      ensures match WalkFrom(qidAt, old(fid.realpath), old(fid.depth), wnames, maxDepth)
              case Err(e) =>
                res == Err(e) && newfid.realpath == old(newfid.realpath) && newfid.depth == old(newfid.depth)
              case Ok(w) => res == Ok(FCall.RWalk(w.qids)) && newfid.realpath == w.path && newfid.depth == w.depth
    {
      var wqids: seq<QId> := [];
      var path := fid.realpath;
      var newDepth: u64 := fid.depth;
      ghost var whole := WalkFrom(qidAt, path, newDepth, wnames, maxDepth);

      var i := 0;
      while i < |wnames|
        invariant 0 <= i <= |wnames| && |wqids| == i
        invariant WalkOn(qidAt, Walked(path, newDepth, wqids), wnames[i..], maxDepth) == whole
      {
        var name := wnames[i];
        assert wnames[i..][0] == name && wnames[i..][1..] == wnames[i + 1..];
        if name == DOTDOT {
          newDepth := if newDepth == 0 then 0 else newDepth - 1;
        } else if name != DOT {
          newDepth := (newDepth + 1) % U64_SPAN;
          if newDepth > maxDepth {
            return Err(ELOOP);
          }
        }
        path := path + [name];
        var qid := qidAt(path);
        if qid.Err? {
          if i == 0 {
            return Err(qid.error);
          }
          break;
        }
        wqids := wqids + [qid.value];
        i := i + 1;
      }

      newfid.realpath := path;
      newfid.depth := newDepth;
      res := Ok(FCall.RWalk(wqids));
    }

    method RReadDir(fid: UnpfsFId, dirAt: Path -> Dir, off: u64, count: u32) returns (res: Result<FCall, Errno>)
      ensures match Page(dirAt(fid.realpath), off, count)
              case Err(e) => res == Err(e)
              case Ok(es) => res == Ok(FCall.RReadDir(es))
    {
      var dir := dirAt(fid.realpath);
      var dirents: seq<DirEntry> := [];
      var offset: u64 := off;
      if off == 0 {
        var dot :- dir.dot;
        dirents := dirents + [DirEntry(dot, 0, 0, DOT)];
        var dotdot :- dir.dotdot;
        dirents := dirents + [DirEntry(dotdot, 1, 0, DOTDOT)];
        assert dirents == Heads(dir).value;
      } else {
        offset := off - 1;
      }
      var entries :- dir.listing;
      ghost var whole := Fill(entries, offset, count, dirents);
      assert whole == Page(dir, off, count);

      var i := offset;
      while i < |entries|
        invariant Fill(entries, i, count, dirents) == whole
      {
        var entry :- entries[i];
        var dirent := EntryAt(entry, i);
        if (DirentsSize(dirents) + DirEntrySize(dirent)) % U32_SPAN > count {
          break;
        }
        dirents := dirents + [dirent];
        i := i + 1;
      }
      res := Ok(FCall.RReadDir(dirents));
    }

    /** The fid moves to the file created in its directory; its depth stays that of the directory. */
    method RlCreate(fid: UnpfsFId, name: Name, created: Result<seq<u8>, Errno>, qidAt: QIdAt)
      returns (res: Result<FCall, Errno>)
      modifies fid`realpath, fid`file
      ensures var path := old(fid.realpath) + [name];
              if created.Ok? && qidAt(path).Ok?
              then
                && res == Ok(FCall.RlCreate(qidAt(path).value, 0)) && fid.realpath == path
                && fid.file.Some? && fresh(fid.file.value) && fid.file.value.content == created.value
              else
                && res.Err? && fid.realpath == old(fid.realpath) && fid.file == old(fid.file)
                && res.error == if created.Err? then created.error else qidAt(path).error
    {
      var path := fid.realpath + [name];
      var content :- created;
      var qid :- qidAt(path);
      fid.realpath := path;
      var file := new OpenFile(content);
      fid.file := Some(file);
      res := Ok(FCall.RlCreate(qid, 0));
    }

    /** Seeks and reads; `seek` and `act` are what the system makes of the two. */
    method RRead(fid: UnpfsFId, offset: u64, count: u32, seek: Option<Errno>, act: Act)
      returns (res: Result<FCall, Errno>)
      requires Possible(fid.Content(), ReadAt(offset, count), act)
      modifies fid.Footprint()
      ensures fid.file == old(fid.file) && fid.realpath == old(fid.realpath) && fid.depth == old(fid.depth)
      ensures fid.Content() == old(fid.Content())
      ensures fid.file.None? ==> res == Err(22)
      ensures fid.file.Some? && seek.Some? ==> res == Err(seek.value)
      ensures fid.file.Some? && seek.None? ==>
                match act
                case Failed(e) => res == Err(e)
                case Moved(n) =>
                  && n <= count && (n == 0 || offset + n <= |fid.Content()|) && fid.file.value.cursor == offset + n
                  && res.Ok? && res.value.RRead? && |res.value.data| == n
                  && (forall k :: 0 <= k < n ==> res.value.data[k] == fid.Content()[offset + k])
      ensures fid.file.Some? && seek.None? ==>
                match AnswerOf(fid.Content(), ReadAt(offset, count), act)
                case Error(e) => res == Err(e)
                case Got(data) => res == Ok(FCall.RRead(data))
                case Put(_) => false
    {
      if fid.file.None? {
        return Err(EINVAL);
      }
      var file := fid.file.value;
      if seek.Some? {
        return Err(seek.value);
      }
      file.cursor := offset;
      var buf: seq<u8> := seq(count, _ => 0);
      if act.Failed? {
        return Err(act.e);
      }
      if act.n > 0 {
        buf := file.content[file.cursor..file.cursor + act.n] + buf[act.n..];
      }
      file.cursor := file.cursor + act.n;
      buf := buf[..act.n];
      res := Ok(FCall.RRead(buf));
    }

    /** Seeks and writes as much of the data as the system takes. */
    method RWrite(fid: UnpfsFId, offset: u64, data: seq<u8>, seek: Option<Errno>, act: Act)
      returns (res: Result<FCall, Errno>)
      requires Possible(fid.Content(), WriteAt(offset, data), act)
      modifies fid.Footprint()
      ensures fid.file == old(fid.file) && fid.realpath == old(fid.realpath) && fid.depth == old(fid.depth)
      ensures fid.file.None? ==> res == Err(22)
      ensures fid.file.Some? && seek.Some? ==>
                res == Err(seek.value) && fid.Content() == old(fid.Content())
      ensures fid.file.Some? && seek.None? ==>
                match act
                case Failed(e) => res == Err(e) && fid.Content() == old(fid.Content())
                case Moved(n) =>
                  && n <= |data| && res == Ok(FCall.RWrite(n % 0x1_0000_0000))
                  && Lands(old(fid.Content()), fid.Content(), offset, data[..n])
      ensures fid.file.Some? && seek.None? ==>
                && fid.Content() == After(old(fid.Content()), WriteAt(offset, data), act)
                && match AnswerOf(old(fid.Content()), WriteAt(offset, data), act)
                   case Error(e) => res == Err(e)
                   case Put(n) => res == Ok(FCall.RWrite(n))
                   case Got(_) => false
    {
      if fid.file.None? {
        return Err(EINVAL);
      }
      var file := fid.file.value;
      if seek.Some? {
        return Err(seek.value);
      }
      file.cursor := offset;
      if act.Failed? {
        return Err(act.e);
      }
      WrittenLands(file.content, offset, data[..act.n]);
      file.content := Written(file.content, file.cursor, data[..act.n]);
      file.cursor := file.cursor + act.n;
      res := Ok(FCall.RWrite(act.n % U32_SPAN));
    }
  }
}
