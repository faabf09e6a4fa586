/** Walking a path one name at a time, with a limit on how deep a walk may go.

    The file system is a function from paths to qids, and a path is the list of the names pushed onto the
    exported root. */
module Walk {
  import opened Wrappers
  import opened Bytes
  import opened Fcall
  import opened FidTable

  const ELOOP: Errno := 40

  type Name = seq<u8>
  type Path = seq<Name>
  type QIdAt = Path -> Result<QId, Errno>

  const DOT: Name := [46]
  const DOTDOT: Name := [46, 46]

  predicate Plain(name: Name) {
    name != DOT && name != DOTDOT
  }

  /** The depth after one more name: 64-bit, and never below the root. */
  function Descend(depth: u64, name: Name): u64 {
    if name == DOTDOT then (if depth == 0 then 0 else depth - 1)
    else if name == DOT then depth
    else (depth + 1) % U64_SPAN
  }

  datatype Walked = Walked(path: Path, depth: u64, qids: seq<QId>)

  /** Walks on from `at`. A name that goes too deep fails the whole walk; a name that cannot be found fails it
      only if it is the first, and otherwise ends it with that name already on the path. */
  function WalkOn(qidAt: QIdAt, at: Walked, names: seq<Name>, max: u64): Result<Walked, Errno>
    decreases |names|
  {
    if names == [] then Ok(at)
    else
      var path, depth := at.path + [names[0]], Descend(at.depth, names[0]);
      if Plain(names[0]) && depth > max then Err(ELOOP)
      else
        match qidAt(path)
        case Ok(qid) => WalkOn(qidAt, Walked(path, depth, at.qids + [qid]), names[1..], max)
        case Err(e) => if at.qids == [] then Err(e) else Ok(Walked(path, depth, at.qids))
  }

  function WalkFrom(qidAt: QIdAt, path: Path, depth: u64, names: seq<Name>, max: u64): Result<Walked, Errno> {
    WalkOn(qidAt, Walked(path, depth, []), names, max)
  }

  // ---- What a walk returns, without walking

  function DepthOf(depth: u64, names: seq<Name>): u64
    decreases |names|
  {
    if names == [] then depth else DepthOf(Descend(depth, names[0]), names[1..])
  }

  predicate TooDeep(depth: u64, names: seq<Name>, k: nat, max: u64)
    requires k < |names|
  {
    Plain(names[k]) && DepthOf(depth, names[..k + 1]) > max
  }

  predicate Missing(qidAt: QIdAt, path: Path, names: seq<Name>, k: nat)
    requires k < |names|
  {
    qidAt(path + names[..k + 1]).Err?
  }

  predicate Stops(qidAt: QIdAt, path: Path, depth: u64, names: seq<Name>, k: nat, max: u64)
    requires k < |names|
  {
    TooDeep(depth, names, k, max) || Missing(qidAt, path, names, k)
  }

  /** The qids of those of the first `k` names that are found. */
  function QIdsTo(qidAt: QIdAt, path: Path, names: seq<Name>, k: nat): seq<QId>
    requires k <= |names|
  {
    if k == 0 then []
    else QIdsTo(qidAt, path, names, k - 1) + (match qidAt(path + names[..k]) case Ok(qid) => [qid] case Err(_) => [])
  }

  lemma {:induction false} Shift(qidAt: QIdAt, path: Path, depth: u64, names: seq<Name>, k: nat, max: u64)
    requires 0 < k < |names|
    ensures Stops(qidAt, path, depth, names, k, max)
            == Stops(qidAt, path + [names[0]], Descend(depth, names[0]), names[1..], k - 1, max)
    ensures TooDeep(depth, names, k, max) == TooDeep(Descend(depth, names[0]), names[1..], k - 1, max)
    ensures path + names[..k + 1] == path + [names[0]] + names[1..][..k]
    ensures DepthOf(depth, names[..k + 1]) == DepthOf(Descend(depth, names[0]), names[1..][..k])
  {
    assert names[..k + 1] == [names[0]] + names[1..][..k] && names[..k + 1][1..] == names[1..][..k];
    assert path + names[..k + 1] == path + [names[0]] + names[1..][..k];
  }

  lemma CollectQId(had: seq<QId>, qid: QId, more: seq<QId>)
    ensures had + [qid] + more == had + ([qid] + more)
  {
  }

  lemma {:induction false} FirstName(depth: u64, names: seq<Name>)
    requires names != []
    ensures names[..1] == [names[0]] && DepthOf(depth, names[..1]) == Descend(depth, names[0])
  {
    assert names[..1][1..] == names[..0];
  }

  lemma {:induction false} WalkOnCompletes(qidAt: QIdAt, at: Walked, names: seq<Name>, max: u64)
    requires forall k :: 0 <= k < |names| ==> !Stops(qidAt, at.path, at.depth, names, k, max)
    ensures WalkOn(qidAt, at, names, max)
            == Ok(Walked(at.path + names, DepthOf(at.depth, names), at.qids + QIdsTo(qidAt, at.path, names, |names|)))
    decreases |names|
  {
    if names == [] {
      assert at.path + names == at.path && at.qids + QIdsTo(qidAt, at.path, names, 0) == at.qids;
    } else {
      var path, depth := at.path + [names[0]], Descend(at.depth, names[0]);
      assert !Stops(qidAt, at.path, at.depth, names, 0, max);
      FirstName(at.depth, names);
      forall k | 0 <= k < |names| - 1 ensures !Stops(qidAt, path, depth, names[1..], k, max) {
        Shift(qidAt, at.path, at.depth, names, k + 1, max);
      }
      WalkOnCompletes(qidAt, Walked(path, depth, at.qids + [qidAt(path).value]), names[1..], max);
      assert path + names[1..] == at.path + names;
      QIdsFront(qidAt, at.path, names, |names|);
      CollectQId(at.qids, qidAt(path).value, QIdsTo(qidAt, path, names[1..], |names| - 1));
    }
  }

  lemma {:induction false} QIdsFront(qidAt: QIdAt, path: Path, names: seq<Name>, k: nat)
    requires 0 < k <= |names| && !Missing(qidAt, path, names, 0)
    ensures names[..1] == [names[0]]
    ensures QIdsTo(qidAt, path, names, k)
            == [qidAt(path + [names[0]]).value] + QIdsTo(qidAt, path + [names[0]], names[1..], k - 1)
  {
    assert names[..1] == [names[0]];
    if k > 1 {
      QIdsFront(qidAt, path, names, k - 1);
      assert names[..k] == [names[0]] + names[1..][..k - 1];
      assert path + names[..k] == path + [names[0]] + names[1..][..k - 1];
    }
  }

  lemma {:induction false} WalkOnStops(qidAt: QIdAt, at: Walked, names: seq<Name>, max: u64, k: nat)
    requires k < |names| && Stops(qidAt, at.path, at.depth, names, k, max)
    requires forall j :: 0 <= j < k ==> !Stops(qidAt, at.path, at.depth, names, j, max)
    ensures WalkOn(qidAt, at, names, max) ==
              if TooDeep(at.depth, names, k, max) then Err(ELOOP)
              else if k == 0 && at.qids == [] then Err(qidAt(at.path + names[..k + 1]).error)
              else Ok(Walked(at.path + names[..k + 1], DepthOf(at.depth, names[..k + 1]),
                             at.qids + QIdsTo(qidAt, at.path, names, k)))
    decreases |names|
  {
    var path, depth := at.path + [names[0]], Descend(at.depth, names[0]);
    FirstName(at.depth, names);
    if k == 0 {
      assert at.qids + QIdsTo(qidAt, at.path, names, 0) == at.qids;
    } else {
      assert !Stops(qidAt, at.path, at.depth, names, 0, max);
      forall j | 0 < j <= k
        ensures Stops(qidAt, path, depth, names[1..], j - 1, max) == Stops(qidAt, at.path, at.depth, names, j, max)
      {
        Shift(qidAt, at.path, at.depth, names, j, max);
      }
      forall j | 0 <= j < k - 1 ensures !Stops(qidAt, path, depth, names[1..], j, max) {
        assert Stops(qidAt, path, depth, names[1..], (j + 1) - 1, max)
            == Stops(qidAt, at.path, at.depth, names, j + 1, max);
      }
      WalkOnStops(qidAt, Walked(path, depth, at.qids + [qidAt(path).value]), names[1..], max, k - 1);
      Shift(qidAt, at.path, at.depth, names, k, max);
      QIdsFront(qidAt, at.path, names, k);
      CollectQId(at.qids, qidAt(path).value, QIdsTo(qidAt, path, names[1..], k - 1));
    }
  }

  /** Exactly what a walk gives. If no name stops it, the whole path with every qid. If the first name that
      stops it goes too deep, `ELOOP`. If that name cannot be found, the error when it is the first; otherwise
      success, with the qids found so far, and with the path and depth that include the missing name. */
  lemma {:induction false} WalkOutcome(qidAt: QIdAt, path: Path, depth: u64, names: seq<Name>, max: u64)
    ensures (forall k :: 0 <= k < |names| ==> !Stops(qidAt, path, depth, names, k, max)) ==>
              WalkFrom(qidAt, path, depth, names, max)
              == Ok(Walked(path + names, DepthOf(depth, names), QIdsTo(qidAt, path, names, |names|)))
    ensures forall k | 0 <= k < |names| && Stops(qidAt, path, depth, names, k, max)
                       && (forall j :: 0 <= j < k ==> !Stops(qidAt, path, depth, names, j, max)) ::
              WalkFrom(qidAt, path, depth, names, max) ==
                if TooDeep(depth, names, k, max) then Err(ELOOP)
                else if k == 0 then Err(qidAt(path + names[..k + 1]).error)
                else Ok(Walked(path + names[..k + 1], DepthOf(depth, names[..k + 1]), QIdsTo(qidAt, path, names, k)))
  {
    var at := Walked(path, depth, []);
    if forall k :: 0 <= k < |names| ==> !Stops(qidAt, path, depth, names, k, max) {
      WalkOnCompletes(qidAt, at, names, max);
      assert [] + QIdsTo(qidAt, path, names, |names|) == QIdsTo(qidAt, path, names, |names|);
    }
    forall k | 0 <= k < |names| && Stops(qidAt, path, depth, names, k, max)
      && (forall j :: 0 <= j < k ==> !Stops(qidAt, path, depth, names, j, max))
      ensures WalkFrom(qidAt, path, depth, names, max) ==
                if TooDeep(depth, names, k, max) then Err(ELOOP)
                else if k == 0 then Err(qidAt(path + names[..k + 1]).error)
                else Ok(Walked(path + names[..k + 1], DepthOf(depth, names[..k + 1]), QIdsTo(qidAt, path, names, k)))
    {
      WalkOnStops(qidAt, at, names, max, k);
      assert [] + QIdsTo(qidAt, path, names, k) == QIdsTo(qidAt, path, names, k);
    }
  }

  // ---- One name

  lemma OneName(qidAt: QIdAt, path: Path, depth: u64, name: Name, max: u64)
    requires qidAt(path + [name]).Ok? && Descend(depth, name) <= max
    ensures WalkFrom(qidAt, path, depth, [name], max)
            == Ok(Walked(path + [name], Descend(depth, name), [qidAt(path + [name]).value]))
  {
    var names, at := [name], Walked(path, depth, []);
    assert names[1..] == [] && at.qids + [qidAt(path + [name]).value] == [qidAt(path + [name]).value];
    assert WalkOn(qidAt, at, names, max)
        == WalkOn(qidAt, Walked(path + [name], Descend(depth, name), at.qids + [qidAt(path + [name]).value]),
                  names[1..], max);
  }

  /** A walk of one name that is found: two dots go up, but not above the root, one dot stays, and any other name goes
      down, unless that is too deep. */
  lemma StepByBytes(qidAt: QIdAt, path: Path, depth: u64, name: Name, max: u64)
    requires depth <= max < U64_SPAN - 1 && qidAt(path + [name]).Ok?
    ensures var qid := qidAt(path + [name]).value;
            WalkFrom(qidAt, path, depth, [name], max) ==
              if name == [46, 46] then Ok(Walked(path + [name], if depth == 0 then 0 else depth - 1, [qid]))
              else if name == [46] then Ok(Walked(path + [name], depth, [qid]))
              else if depth < max then Ok(Walked(path + [name], depth + 1, [qid]))
              else Err(40)
  {
    if Descend(depth, name) <= max {
      OneName(qidAt, path, depth, name, max);
    }
  }

  /** The qids of a walk are those of its longer and longer paths, in order. */
  lemma {:induction false} QIdsInOrder(qidAt: QIdAt, path: Path, names: seq<Name>, k: nat)
    requires k <= |names| && AllFound(qidAt, path, names, k)
    ensures var qids := QIdsTo(qidAt, path, names, k);
            |qids| == k && forall j :: 0 <= j < k ==> Ok(qids[j]) == qidAt(path + names[..j + 1])
  {
    if k > 0 {
      QIdsInOrder(qidAt, path, names, k - 1);
      assert !Missing(qidAt, path, names, k - 1);
    }
  }

  // ---- Two walks in a row

  /** One walk, then another from where it ended, with the qids of both. */
  function WalkTwice(qidAt: QIdAt, path: Path, depth: u64, first: seq<Name>, second: seq<Name>, max: u64)
    : Result<Walked, Errno>
  {
    var a :- WalkFrom(qidAt, path, depth, first, max);
    var b :- WalkFrom(qidAt, a.path, a.depth, second, max);
    Ok(b.(qids := a.qids + b.qids))
  }

  lemma {:induction false} WalkOnSplit(qidAt: QIdAt, at: Walked, first: seq<Name>, second: seq<Name>, max: u64)
    requires forall k :: 0 <= k < |first| ==> !Missing(qidAt, at.path, first, k)
    ensures WalkOn(qidAt, at, first + second, max) ==
              match WalkOn(qidAt, at, first, max)
              case Err(e) => Err(e)
              case Ok(a) => WalkOn(qidAt, a, second, max)
    ensures WalkOn(qidAt, at, first, max).Ok? ==>
              var a := WalkOn(qidAt, at, first, max).value;
              a.path == at.path + first && |a.qids| == |at.qids| + |first|
    decreases |first|
  {
    var names := first + second;
    if first == [] {
      assert names == second && at.path + first == at.path;
    } else {
      assert !Missing(qidAt, at.path, first, 0) && first[..1] == [first[0]];
      var path, depth := at.path + [first[0]], Descend(at.depth, first[0]);
      assert names[0] == first[0] && names[1..] == first[1..] + second;
      forall k | 0 <= k < |first| - 1 ensures !Missing(qidAt, path, first[1..], k) {
        assert !Missing(qidAt, at.path, first, k + 1);
        assert first[..k + 2] == [first[0]] + first[1..][..k + 1];
        assert at.path + first[..k + 2] == path + first[1..][..k + 1];
      }
      WalkOnSplit(qidAt, Walked(path, depth, at.qids + [qidAt(path).value]), first[1..], second, max);
      assert path + first[1..] == at.path + first;
    }
  }

  /** Qids already collected only go in front, unless the next name is missing and they decide whether that is
      an error. */
  lemma {:induction false} WalkOnCollected(
    qidAt: QIdAt, path: Path, depth: u64, had: seq<QId>, more: seq<QId>, names: seq<Name>, max: u64)
    requires had == [] || more != [] || names == [] || TooDeep(depth, names, 0, max) || !Missing(qidAt, path, names, 0)
    ensures WalkOn(qidAt, Walked(path, depth, had + more), names, max) ==
              match WalkOn(qidAt, Walked(path, depth, more), names, max)
              case Err(e) => Err(e)
              case Ok(b) => Ok(b.(qids := had + b.qids))
    decreases |names|
  {
    if had == [] {
      assert had + more == more;
      assert forall b: seq<QId> :: had + b == b;
    } else if names != [] {
      FirstName(depth, names);
      var next := path + [names[0]];
      if qidAt(next).Ok? {
        assert had + more + [qidAt(next).value] == had + (more + [qidAt(next).value]);
        WalkOnCollected(qidAt, next, Descend(depth, names[0]), had, more + [qidAt(next).value], names[1..], max);
      }
    }
  }

  /** The first walk goes too deep before any name of it is missing. */
  predicate DeepFirst(qidAt: QIdAt, path: Path, depth: u64, names: seq<Name>, max: u64) {
    exists k :: 0 <= k < |names| && TooDeep(depth, names, k, max) && AllFound(qidAt, path, names, k)
  }

  predicate AllFound(qidAt: QIdAt, path: Path, names: seq<Name>, k: nat)
    requires k <= |names|
  {
    forall j :: 0 <= j < k ==> !Missing(qidAt, path, names, j)
  }

  /** The first name that stops a walk, or the number of names. */
  lemma WalkEnds(qidAt: QIdAt, path: Path, depth: u64, names: seq<Name>, max: u64) returns (k: nat)
    ensures k <= |names|
    ensures forall j :: 0 <= j < k ==> !Stops(qidAt, path, depth, names, j, max)
    ensures k < |names| ==> Stops(qidAt, path, depth, names, k, max)
  {
    k := 0;
    while k < |names| && !Stops(qidAt, path, depth, names, k, max)
      invariant k <= |names|
      invariant forall j :: 0 <= j < k ==> !Stops(qidAt, path, depth, names, j, max)
    {
      k := k + 1;
    }
  }

  /** The names after the one that stops a walk make no difference. */
  lemma StopsAlike(qidAt: QIdAt, path: Path, depth: u64, first: seq<Name>, second: seq<Name>, k: nat, max: u64)
    requires k < |first|
    ensures (first + second)[..k + 1] == first[..k + 1]
    ensures TooDeep(depth, first + second, k, max) == TooDeep(depth, first, k, max)
    ensures Stops(qidAt, path, depth, first + second, k, max) == Stops(qidAt, path, depth, first, k, max)
  {
    assert (first + second)[..k + 1] == first[..k + 1];
  }

  lemma {:induction false} QIdsAlike(qidAt: QIdAt, path: Path, first: seq<Name>, second: seq<Name>, k: nat)
    requires k <= |first|
    ensures QIdsTo(qidAt, path, first + second, k) == QIdsTo(qidAt, path, first, k)
  {
    if k > 0 {
      QIdsAlike(qidAt, path, first, second, k - 1);
      assert (first + second)[..k] == first[..k];
    }
  }

  /** A walk that `first` stops gives the same with more names after it. */
  lemma StoppedWalk(qidAt: QIdAt, path: Path, depth: u64, first: seq<Name>, second: seq<Name>, max: u64, k: nat)
    requires k < |first| && Stops(qidAt, path, depth, first, k, max)
    requires forall j :: 0 <= j < k ==> !Stops(qidAt, path, depth, first, j, max)
    ensures WalkFrom(qidAt, path, depth, first + second, max) == WalkFrom(qidAt, path, depth, first, max)
  {
    forall j | 0 <= j <= k
      ensures (first + second)[..j + 1] == first[..j + 1]
      ensures Stops(qidAt, path, depth, first + second, j, max) == Stops(qidAt, path, depth, first, j, max)
    {
      StopsAlike(qidAt, path, depth, first, second, j, max);
    }
    StopsAlike(qidAt, path, depth, first, second, k, max);
    QIdsAlike(qidAt, path, first, second, k);
    WalkOnStops(qidAt, Walked(path, depth, []), first, max, k);
    WalkOnStops(qidAt, Walked(path, depth, []), first + second, max, k);
  }

  /** Every successful walk over some names ends on a longer path. */
  lemma WalkGoesOn(qidAt: QIdAt, path: Path, depth: u64, names: seq<Name>, max: u64)
    requires names != [] && WalkFrom(qidAt, path, depth, names, max).Ok?
    ensures |WalkFrom(qidAt, path, depth, names, max).value.path| > |path|
  {
    var k := WalkEnds(qidAt, path, depth, names, max);
    if k == |names| {
      WalkOnCompletes(qidAt, Walked(path, depth, []), names, max);
    } else {
      WalkOnStops(qidAt, Walked(path, depth, []), names, max, k);
    }
  }

  /** Walking `first` and then `second` gives what walking both at once gives - the same path, depth, qids and
      errors - exactly when one of them is empty, or the first walk fails, or all its names are found and the
      second walk does not fail on a missing first name. Otherwise a name is missing that cuts one of the walks
      short: of two walks the second goes on from there or fails, of one walk it is the end. */
  lemma {:induction false} WalkComposition(
    qidAt: QIdAt, path: Path, depth: u64, first: seq<Name>, second: seq<Name>, max: u64)
    ensures WalkFrom(qidAt, path, depth, first + second, max) == WalkTwice(qidAt, path, depth, first, second, max)
            <==> (|| first == [] || second == [] || Missing(qidAt, path, first, 0)
                  || DeepFirst(qidAt, path, depth, first, max)
                  || (AllFound(qidAt, path, first, |first|)
                      && (TooDeep(DepthOf(depth, first), second, 0, max) || !Missing(qidAt, path + first, second, 0))))
  {
    if second == [] {
      assert first + second == first;
      EmptySecond(qidAt, path, depth, first, max);
    } else {
      var k := WalkEnds(qidAt, path, depth, first, max);
      if k == |first| {
        WholeFirst(qidAt, path, depth, first, second, max);
      } else {
        StoppedFirst(qidAt, path, depth, first, second, max, k);
      }
    }
  }

  lemma EmptySecond(qidAt: QIdAt, path: Path, depth: u64, first: seq<Name>, max: u64)
    ensures WalkTwice(qidAt, path, depth, first, [], max) == WalkFrom(qidAt, path, depth, first, max)
  {
    if WalkFrom(qidAt, path, depth, first, max).Ok? {
      var a := WalkFrom(qidAt, path, depth, first, max).value;
      assert a.qids + [] == a.qids;
    }
  }

  /** When no name stops the first walk. */
  lemma {:induction false} WholeFirst(
    qidAt: QIdAt, path: Path, depth: u64, first: seq<Name>, second: seq<Name>, max: u64)
    requires second != [] && forall j :: 0 <= j < |first| ==> !Stops(qidAt, path, depth, first, j, max)
    ensures WalkFrom(qidAt, path, depth, first + second, max) == WalkTwice(qidAt, path, depth, first, second, max)
            <==> (first == [] || TooDeep(DepthOf(depth, first), second, 0, max)
                  || !Missing(qidAt, path + first, second, 0))
    ensures !DeepFirst(qidAt, path, depth, first, max) && AllFound(qidAt, path, first, |first|)
    ensures first != [] ==> !Missing(qidAt, path, first, 0)
  {
    forall j | 0 <= j < |first| ensures !Missing(qidAt, path, first, j) && !TooDeep(depth, first, j, max) {
      assert !Stops(qidAt, path, depth, first, j, max);
    }
    WalkOnSplit(qidAt, Walked(path, depth, []), first, second, max);
    WalkOnCompletes(qidAt, Walked(path, depth, []), first, max);
    var a := WalkFrom(qidAt, path, depth, first, max).value;
    assert a == Walked(path + first, DepthOf(depth, first), a.qids) && |a.qids| == |first|;
    if first == [] || TooDeep(a.depth, second, 0, max) || !Missing(qidAt, path + first, second, 0) {
      WalkOnCollected(qidAt, path + first, a.depth, a.qids, [], second, max);
      assert a.qids + [] == a.qids;
    } else {
      FirstName(a.depth, second);
    }
  }

  /** When the `k`-th name stops the first walk. */
  lemma StoppedFirst(qidAt: QIdAt, path: Path, depth: u64, first: seq<Name>, second: seq<Name>, max: u64, k: nat)
    requires second != [] && k < |first| && Stops(qidAt, path, depth, first, k, max)
    requires forall j :: 0 <= j < k ==> !Stops(qidAt, path, depth, first, j, max)
    ensures WalkFrom(qidAt, path, depth, first + second, max) == WalkTwice(qidAt, path, depth, first, second, max)
            <==> (Missing(qidAt, path, first, 0) || DeepFirst(qidAt, path, depth, first, max))
    ensures AllFound(qidAt, path, first, |first|) ==> DeepFirst(qidAt, path, depth, first, max)
  {
    forall j | 0 <= j < k ensures !Missing(qidAt, path, first, j) && !TooDeep(depth, first, j, max) {
      assert !Stops(qidAt, path, depth, first, j, max);
    }
    StoppedWalk(qidAt, path, depth, first, second, max, k);
    WalkOnStops(qidAt, Walked(path, depth, []), first, max, k);
    if TooDeep(depth, first, k, max) {
      assert AllFound(qidAt, path, first, k);
    } else if k > 0 {
      var a := WalkFrom(qidAt, path, depth, first, max).value;
      if WalkFrom(qidAt, a.path, a.depth, second, max).Ok? {
        WalkGoesOn(qidAt, a.path, a.depth, second, max);
      }
      assert !AllFound(qidAt, path, first, k + 1);
    }
  }

  // ---- Depth

  /** Plain names less `..` names. */
  function Net(names: seq<Name>): int {
    if names == [] then 0
    else
      var last := names[|names| - 1];
      Net(names[..|names| - 1]) + (if last == DOTDOT then -1 else if last == DOT then 0 else 1)
  }

  /** `depth` is the largest net descent of any suffix of `names`, the empty one included. */
  ghost predicate DeepestSuffix(names: seq<Name>, depth: int) {
    && (forall k :: 0 <= k <= |names| ==> Net(names[k..]) <= depth)
    && (exists k :: 0 <= k <= |names| && Net(names[k..]) == depth)
  }

  lemma {:induction false} NetSnoc(names: seq<Name>, name: Name)
    ensures Net(names + [name]) == Net(names) + (if name == DOTDOT then -1 else if name == DOT then 0 else 1)
  {
    assert (names + [name])[..|names|] == names;
  }

  /** One more name moves the deepest suffix exactly as it moves the stored depth, the saturation at zero
      included. */
  lemma DeepestSnoc(names: seq<Name>, depth: u64, name: Name)
    requires DeepestSuffix(names, depth) && depth < U64_SPAN - 1
    ensures DeepestSuffix(names + [name], Descend(depth, name))
  {
    var all, next := names + [name], Descend(depth, name);
    forall k | 0 <= k <= |all| ensures Net(all[k..]) <= next {
      if k <= |names| {
        assert all[k..] == names[k..] + [name];
        NetSnoc(names[k..], name);
      }
    }
    if name == DOTDOT && depth == 0 {
      assert Net(all[|all|..]) == next;
    } else {
      var k :| 0 <= k <= |names| && Net(names[k..]) == depth;
      assert all[k..] == names[k..] + [name];
      NetSnoc(names[k..], name);
      assert Net(all[k..]) == next;
    }
  }

  /** A walk keeps the depth within the limit, extends the path, and keeps the depth the deepest suffix of the
      names pushed. */
  lemma {:induction false} WalkOnKeepsDepth(qidAt: QIdAt, root: Path, at: Walked, names: seq<Name>, max: u64)
    requires max < U64_SPAN - 1 && at.depth <= max
    requires WalkOn(qidAt, at, names, max).Ok?
    ensures WalkOn(qidAt, at, names, max).value.depth <= max
    ensures root <= at.path ==> root <= WalkOn(qidAt, at, names, max).value.path
    ensures root <= at.path && DeepestSuffix(at.path[|root|..], at.depth) ==>
              var w := WalkOn(qidAt, at, names, max).value; DeepestSuffix(w.path[|root|..], w.depth)
    decreases |names|
  {
    hide DeepestSuffix;
    if names != [] {
      var path, depth := at.path + [names[0]], Descend(at.depth, names[0]);
      if root <= at.path && DeepestSuffix(at.path[|root|..], at.depth) {
        assert path[|root|..] == at.path[|root|..] + [names[0]];
        DeepestSnoc(at.path[|root|..], at.depth, names[0]);
      }
      if qidAt(path).Ok? {
        WalkOnKeepsDepth(qidAt, root, Walked(path, depth, at.qids + [qidAt(path).value]), names[1..], max);
      }
    }
  }

  /** While no name goes too deep the counter stays within the limit, so that the next increment does not
      wrap. */
  lemma {:induction false} NextDoesNotWrap(depth: u64, names: seq<Name>, k: nat, max: u64)
    requires max < U64_SPAN - 1 && depth <= max && k <= |names|
    requires forall j :: 0 <= j < k ==> !TooDeep(depth, names, j, max)
    ensures DepthOf(depth, names[..k]) <= max
    ensures k < |names| && Plain(names[k]) ==>
              Descend(DepthOf(depth, names[..k]), names[k]) == DepthOf(depth, names[..k]) + 1 < U64_SPAN
  {
    if k > 0 {
      NextDoesNotWrap(depth, names, k - 1, max);
      assert !TooDeep(depth, names, k - 1, max);
      DepthSnoc(depth, names, k - 1);
    }
  }

  lemma {:induction false} DepthSnoc(depth: u64, names: seq<Name>, k: nat)
    requires k < |names|
    ensures DepthOf(depth, names[..k + 1]) == Descend(DepthOf(depth, names[..k]), names[k])
    decreases k
  {
    if k == 0 {
      FirstName(depth, names);
    } else {
      DepthSnoc(Descend(depth, names[0]), names[1..], k - 1);
      assert names[..k + 1][1..] == names[1..][..k] && names[..k][1..] == names[1..][..k - 1];
    }
  }

  /** A walk request, and the file system as it was then. */
  datatype Request = Request(qidAt: QIdAt, names: seq<Name>)

  /** Where a chain of walks from the root ends. */
  function Chain(root: Path, walks: seq<Request>, max: u64): Result<Walked, Errno> {
    if walks == [] then Ok(Walked(root, 0, []))
    else
      var n := |walks| - 1;
      var at :- Chain(root, walks[..n], max);
      WalkFrom(walks[n].qidAt, at.path, at.depth, walks[n].names, max)
  }

  lemma {:induction false} ChainDepth(root: Path, walks: seq<Request>, max: u64)
    requires max < U64_SPAN - 1 && Chain(root, walks, max).Ok?
    ensures var w := Chain(root, walks, max).value;
            root <= w.path && w.depth <= max && DeepestSuffix(w.path[|root|..], w.depth)
  {
    if walks == [] {
      var none: seq<Name> := [];
      assert root[|root|..] == none && none[0..] == none;
      assert Net(none[0..]) == 0;
    } else {
      var n := |walks| - 1;
      ChainDepth(root, walks[..n], max);
      var at := Chain(root, walks[..n], max).value;
      WalkOnKeepsDepth(walks[n].qidAt, root, Walked(at.path, at.depth, []), walks[n].names, max);
    }
  }

  /** However a fid was reached from the root, by whole or partial walks and over a file system that may change
      between them, its depth is the largest net descent of any suffix of the names on its path; so no suffix
      descends by more than the limit. */
  lemma {:induction false} DepthIsDeepestSuffix(root: Path, walks: seq<Request>, max: u64)
    requires max < U64_SPAN - 1 && Chain(root, walks, max).Ok?
    ensures var w := Chain(root, walks, max).value;
            && root <= w.path && DeepestSuffix(w.path[|root|..], w.depth)
            && (forall k :: |root| <= k <= |w.path| ==> Net(w.path[k..]) <= max)
  {
    ChainDepth(root, walks, max);
    var w := Chain(root, walks, max).value;
    forall k | |root| <= k <= |w.path| ensures Net(w.path[k..]) <= max {
      assert w.path[k..] == w.path[|root|..][k - |root|..];
    }
  }

  /** The names of walks one after the other. */
  function NamesOf(walks: seq<Request>): seq<Name> {
    if walks == [] then [] else NamesOf(walks[..|walks| - 1]) + walks[|walks| - 1].names
  }

  /** Every walk is of one plain name, which is found. */
  predicate OneByOne(root: Path, walks: seq<Request>) {
    forall k :: 0 <= k < |walks| ==>
      |walks[k].names| == 1 && Plain(walks[k].names[0]) && walks[k].qidAt(root + NamesOf(walks[..k + 1])).Ok?
  }

  lemma ShorterOneByOne(root: Path, walks: seq<Request>)
    requires OneByOne(root, walks) && walks != []
    ensures OneByOne(root, walks[..|walks| - 1])
  {
    var fewer := walks[..|walks| - 1];
    forall k | 0 <= k < |fewer|
      ensures |fewer[k].names| == 1 && Plain(fewer[k].names[0]) && fewer[k].qidAt(root + NamesOf(fewer[..k + 1])).Ok?
    {
      assert fewer[..k + 1] == walks[..k + 1] && fewer[k] == walks[k];
    }
  }

  lemma {:induction false} PlainChain(root: Path, walks: seq<Request>)
    requires OneByOne(root, walks)
    ensures |NamesOf(walks)| == |walks| && forall k :: 0 <= k < |walks| ==> Plain(NamesOf(walks)[k])
    ensures var end := Chain(root, walks, U64_SPAN - 1);
            end.Ok? && end.value.path == root + NamesOf(walks) && end.value.depth == |walks| % U64_SPAN
  {
    if walks != [] {
      var n := |walks| - 1;
      ShorterOneByOne(root, walks);
      PlainChain(root, walks[..n]);
      var at, last := Chain(root, walks[..n], U64_SPAN - 1).value, walks[n];
      assert walks[..n + 1] == walks && last.names == [last.names[0]];
      assert at.path + [last.names[0]] == root + NamesOf(walks);
      OneName(last.qidAt, at.path, at.depth, last.names[0], U64_SPAN - 1);
      NextCount(n);
      hide WalkOn, OneByOne;
    }
  }

  lemma NextCount(n: nat)
    ensures (n % U64_SPAN + 1) % U64_SPAN == (n + 1) % U64_SPAN
  {
  }

  lemma {:induction false} NetOfPlain(names: seq<Name>)
    requires forall k :: 0 <= k < |names| ==> Plain(names[k])
    ensures Net(names) == |names|
  {
    if names != [] {
      NetOfPlain(names[..|names| - 1]);
    }
  }

  lemma SuffixOfPlain(names: seq<Name>, depth: int)
    requires forall k :: 0 <= k < |names| ==> Plain(names[k])
    ensures DeepestSuffix(names, depth) <==> depth == |names|
  {
    forall k | 0 <= k <= |names| ensures Net(names[k..]) == |names| - k {
      NetOfPlain(names[k..]);
    }
    assert Net(names[0..]) == |names|;
  }

  /** With the limit at the largest 64-bit value nothing is too deep and the counter wraps: after walks from the root
      of one plain name each, the depth is the deepest suffix only while there are less than 2^64 of them. */
  lemma {:induction false} LargestLimitWraps(root: Path, walks: seq<Request>)
    requires OneByOne(root, walks)
    ensures var end := Chain(root, walks, U64_SPAN - 1);
            && end.Ok? && root <= end.value.path && end.value.depth == |walks| % U64_SPAN
            && (DeepestSuffix(end.value.path[|root|..], end.value.depth) <==> |walks| < U64_SPAN)
  {
    PlainChain(root, walks);
    var names := NamesOf(walks);
    assert (root + names)[|root|..] == names;
    SuffixOfPlain(names, |walks| % U64_SPAN);
    hide Chain, NamesOf, OneByOne, DeepestSuffix;
  }

  /** So the depth of every chain of walks from the root is that of its deepest suffix exactly when the limit is not
      the largest 64-bit value. */
  lemma LimitIsExact(max: u64)
    ensures max < U64_SPAN - 1 <==>
            forall root: Path, walks: seq<Request> :: Chain(root, walks, max).Ok? ==>
              var w := Chain(root, walks, max).value; root <= w.path && DeepestSuffix(w.path[|root|..], w.depth)
  {
    if max < U64_SPAN - 1 {
      forall root: Path, walks: seq<Request> | Chain(root, walks, max).Ok?
        ensures var w := Chain(root, walks, max).value; root <= w.path && DeepestSuffix(w.path[|root|..], w.depth)
      {
        DepthIsDeepestSuffix(root, walks, max);
      }
    } else {
      var root: Path := [];
      var walks := seq(U64_SPAN, _ => Request(_ => Ok(QId(0, 0, 0)), [[97]]));
      LargestLimitWraps(root, walks);
      hide Chain, DeepestSuffix;
      assert Chain(root, walks, max).Ok?;
    }
  }
}
