/** The wire grammar: field kinds, the bytes a value becomes, and the bytes that are read as a value.

    A kind says how one field is laid out. Encoding writes what `serialize.rs` writes, casts included;
    decoding reads what it reads, flag truncation and ignored words included. */
module Grammar {
  import opened Wrappers
  import opened Bytes
  import opened Utf8

  type Limit = n: int | n > 0 witness 1

  /** `KInt(width, limit)` is a little-endian integer of `width` bytes of which a reader keeps the value
      modulo `limit`: every flag mask of the protocol is a run of low bits, so truncating to the mask is
      that modulus, and `limit == 1` is a reserved word that a reader ignores.
      `KVec` is counted in elements. `KDir` is written with a count of bytes and read with a count of
      elements. */
  datatype Kind =
    | KInt(width: nat, limit: Limit)
    | KStr
    | KData
    | KRec(parts: seq<Kind>)
    | KVec(elem: Kind)
    | KDir(elem: Kind)

  datatype Val =
    | Int(x: nat)
    | Str(s: seq<u8>)
    | Data(d: seq<u8>)
    | Rec(parts: seq<Val>)
    | Vec(items: seq<Val>)

  datatype DecodeError = UnexpectedEof | InvalidUtf8 | InvalidType

  type Decoded<T> = Result<(T, seq<u8>), DecodeError>

  // ---- Encoding

  function Enc(k: Kind, v: Val): seq<u8>
    decreases k, 0
  {
    match (k, v)
    case (KInt(w, _), Int(x)) => LE(w, x)
    case (KStr, Str(s)) => LE(2, |s| % U16_SPAN) + s
    case (KData, Data(d)) => LE(4, |d| % U32_SPAN) + d
    case (KRec(ks), Rec(vs)) => Encs(ks, vs)
    case (KVec(e), Vec(vs)) => LE(2, |vs| % U16_SPAN) + EncN(e, vs)
    case (KDir(e), Vec(vs)) => LE(4, |EncN(e, vs)| % U32_SPAN) + EncN(e, vs)
    case _ => []
  }

  /** One field after the other. */
  function Encs(ks: seq<Kind>, vs: seq<Val>): seq<u8>
    decreases ks, 0
  {
    if ks == [] || vs == [] then [] else Enc(ks[0], vs[0]) + Encs(ks[1..], vs[1..])
  }

  /** The elements of a vector, without its count. */
  function EncN(e: Kind, vs: seq<Val>): seq<u8>
    decreases e, |vs| + 1
  {
    if vs == [] then [] else Enc(e, vs[0]) + EncN(e, vs[1..])
  }

  // ---- Decoding

  function Dec(k: Kind, b: seq<u8>): Decoded<Val>
    decreases k, 0
  {
    match k
    case KInt(w, limit) =>
      if |b| < w then Err(UnexpectedEof) else Ok((Int(FromLE(b[..w]) % limit), b[w..]))
    case KStr =>
      var (s, rest) :- DecCounted(2, b);
      if ValidUtf8(s) then Ok((Str(s), rest)) else Err(InvalidUtf8)
    case KData =>
      var (d, rest) :- DecCounted(4, b);
      Ok((Data(d), rest))
    case KRec(ks) =>
      var (vs, rest) :- Decs(ks, b);
      Ok((Rec(vs), rest))
    case KVec(e) =>
      if |b| < 2 then Err(UnexpectedEof) else
      var (vs, rest) :- DecN(e, FromLE(b[..2]), b[2..]);
      Ok((Vec(vs), rest))
    case KDir(e) =>
      if |b| < 4 then Err(UnexpectedEof) else
      var (vs, rest) :- DecN(e, FromLE(b[..4]), b[4..]);
      Ok((Vec(vs), rest))
  }

  /** A byte count of `width` bytes and that many bytes. */
  function DecCounted(width: nat, b: seq<u8>): Decoded<seq<u8>> {
    if |b| < width || |b| < width + FromLE(b[..width]) then Err(UnexpectedEof)
    else
      var n := width + FromLE(b[..width]);
      Ok((b[width..n], b[n..]))
  }

  function Decs(ks: seq<Kind>, b: seq<u8>): Decoded<seq<Val>>
    decreases ks, 0
  {
    if ks == [] then Ok(([], b)) else
    var (v, r) :- Dec(ks[0], b);
    var (vs, rest) :- Decs(ks[1..], r);
    Ok(([v] + vs, rest))
  }

  function DecN(e: Kind, n: nat, b: seq<u8>): Decoded<seq<Val>>
    decreases e, n + 1
  {
    if n == 0 then Ok(([], b)) else
    var (v, r) :- Dec(e, b);
    var (vs, rest) :- DecN(e, n - 1, r);
    Ok(([v] + vs, rest))
  }

  // ---- What the bytes of a value may look like

  /** The bytes `c` are a spelling of `v`: the encoding of `v` itself, except that a reader looks only at
      the kept part of an integer and takes a directory count as a count of elements. */
  predicate Spells(k: Kind, v: Val, c: seq<u8>)
    decreases k, 0
  {
    match (k, v)
    case (KInt(w, limit), Int(x)) => |c| == w && x == FromLE(c) % limit
    case (KStr, Str(s)) => ValidUtf8(s) && |c| == 2 + |s| && FromLE(c[..2]) == |s| && c[2..] == s
    case (KData, Data(d)) => |c| == 4 + |d| && FromLE(c[..4]) == |d| && c[4..] == d
    case (KRec(ks), Rec(vs)) => SpellsAll(ks, vs, c)
    case (KVec(e), Vec(vs)) => |c| >= 2 && FromLE(c[..2]) == |vs| && SpellsN(e, vs, c[2..])
    case (KDir(e), Vec(vs)) => |c| >= 4 && FromLE(c[..4]) == |vs| && SpellsN(e, vs, c[4..])
    case _ => false
  }

  predicate SpellsAll(ks: seq<Kind>, vs: seq<Val>, c: seq<u8>)
    decreases ks, 0
  {
    && |ks| == |vs|
    && if ks == [] then c == [] else
         var n := |Enc(ks[0], vs[0])|;
         n <= |c| && Spells(ks[0], vs[0], c[..n]) && SpellsAll(ks[1..], vs[1..], c[n..])
  }

  predicate SpellsN(e: Kind, vs: seq<Val>, c: seq<u8>)
    decreases e, |vs| + 1
  {
    if vs == [] then c == [] else
    var n := |Enc(e, vs[0])|;
    n <= |c| && Spells(e, vs[0], c[..n]) && SpellsN(e, vs[1..], c[n..])
  }

  /** Values whose own encoding is one of their spellings: lengths and counts survive their casts, strings
      are UTF-8, only kept integer values occur, and a directory payload has as many bytes, modulo 2^32,
      as it has entries. */
  predicate WellFormed(k: Kind, v: Val)
    decreases k
  {
    match (k, v)
    case (KInt(w, limit), Int(x)) => x < limit && x < Span(w)
    case (KStr, Str(s)) => |s| < U16_SPAN && ValidUtf8(s)
    case (KData, Data(d)) => |d| < U32_SPAN
    case (KRec(ks), Rec(vs)) => |ks| == |vs| && forall i :: 0 <= i < |ks| ==> WellFormed(ks[i], vs[i])
    case (KVec(e), Vec(vs)) => |vs| < U16_SPAN && forall i :: 0 <= i < |vs| ==> WellFormed(e, vs[i])
    case (KDir(e), Vec(vs)) =>
      && |EncN(e, vs)| % U32_SPAN == |vs|
      && forall i :: 0 <= i < |vs| ==> WellFormed(e, vs[i])
    case _ => false
  }

  /** Kinds without a directory payload. */
  predicate NoDir(k: Kind)
    decreases k
  {
    match k
    case KRec(ks) => forall i :: 0 <= i < |ks| ==> NoDir(ks[i])
    case KVec(e) => NoDir(e)
    case KDir(_) => false
    case _ => true
  }

  /** Kinds of which a reader keeps every bit. */
  predicate Lossless(k: Kind)
    decreases k
  {
    match k
    case KInt(w, limit) => limit == Span(w)
    case KRec(ks) => forall i :: 0 <= i < |ks| ==> Lossless(ks[i])
    case KVec(e) => Lossless(e)
    case KDir(_) => false
    case _ => true
  }

  // ---- A reader accepts exactly the spellings

  lemma {:induction false} DecReads(k: Kind, b: seq<u8>)
    requires Dec(k, b).Ok?
    ensures var (v, rest) := Dec(k, b).value; var n := |Enc(k, v)|;
            n <= |b| && Spells(k, v, b[..n]) && rest == b[n..]
    decreases k, 0
  {
    var (v, rest) := Dec(k, b).value;
    match k
    case KInt(w, _) =>
    case KStr =>
      assert b[..2 + |v.s|][..2] == b[..2];
    case KData =>
      assert b[..4 + |v.d|][..4] == b[..4];
    case KRec(ks) =>
      DecsReads(ks, b);
    case KVec(e) =>
      DecNReads(e, FromLE(b[..2]), b[2..]);
      CountedPrefix(2, b, |EncN(e, v.items)|);
    case KDir(e) =>
      DecNReads(e, FromLE(b[..4]), b[4..]);
      CountedPrefix(4, b, |EncN(e, v.items)|);
  }

  lemma CountedPrefix(w: nat, b: seq<u8>, n: nat)
    requires w + n <= |b|
    ensures b[..w + n][..w] == b[..w] && b[..w + n][w..] == b[w..][..n] && b[w..][n..] == b[w + n..]
  {
  }

  lemma {:induction false} DecsReads(ks: seq<Kind>, b: seq<u8>)
    requires Decs(ks, b).Ok?
    ensures var (vs, rest) := Decs(ks, b).value; var n := |Encs(ks, vs)|;
            n <= |b| && SpellsAll(ks, vs, b[..n]) && rest == b[n..]
    decreases ks, 0
  {
    if ks != [] {
      DecReads(ks[0], b);
      var (v, r) := Dec(ks[0], b).value;
      DecsReads(ks[1..], r);
      var (vs, rest) := Decs(ks[1..], r).value;
      assert ([v] + vs)[1..] == vs;
      CountedPrefix(|Enc(ks[0], v)|, b, |Encs(ks[1..], vs)|);
    }
  }

  lemma {:induction false} DecNReads(e: Kind, n: nat, b: seq<u8>)
    requires DecN(e, n, b).Ok?
    ensures var (vs, rest) := DecN(e, n, b).value; var m := |EncN(e, vs)|;
            |vs| == n && m <= |b| && SpellsN(e, vs, b[..m]) && rest == b[m..]
    decreases e, n + 1
  {
    if n > 0 {
      DecReads(e, b);
      var (v, r) := Dec(e, b).value;
      DecNReads(e, n - 1, r);
      var (vs, rest) := DecN(e, n - 1, r).value;
      assert ([v] + vs)[1..] == vs;
      CountedPrefix(|Enc(e, v)|, b, |EncN(e, vs)|);
    }
  }

  lemma {:induction false} DecAccepts(k: Kind, v: Val, c: seq<u8>, rest: seq<u8>)
    requires Spells(k, v, c)
    ensures Dec(k, c + rest) == Ok((v, rest))
    decreases k, 0
  {
    var b := c + rest;
    match k
    case KInt(w, _) =>
      assert b[..w] == c && b[w..] == rest;
    case KStr =>
      assert b[..2] == c[..2] && b[2..|c|] == v.s && b[|c|..] == rest;
    case KData =>
      assert b[..4] == c[..4] && b[4..|c|] == v.d && b[|c|..] == rest;
    case KRec(ks) =>
      DecsAccepts(ks, v.parts, c, rest);
    case KVec(e) =>
      assert b[..2] == c[..2] && b[2..] == c[2..] + rest;
      DecNAccepts(e, v.items, c[2..], rest);
    case KDir(e) =>
      assert b[..4] == c[..4] && b[4..] == c[4..] + rest;
      DecNAccepts(e, v.items, c[4..], rest);
  }

  lemma {:induction false} DecsAccepts(ks: seq<Kind>, vs: seq<Val>, c: seq<u8>, rest: seq<u8>)
    requires SpellsAll(ks, vs, c)
    ensures Decs(ks, c + rest) == Ok((vs, rest))
    decreases ks, 0
  {
    if ks == [] {
      assert c + rest == rest;
    } else {
      var n := |Enc(ks[0], vs[0])|;
      DecAccepts(ks[0], vs[0], c[..n], c[n..] + rest);
      DecsAccepts(ks[1..], vs[1..], c[n..], rest);
      assert c[..n] + (c[n..] + rest) == c + rest && [vs[0]] + vs[1..] == vs;
    }
  }

  lemma {:induction false} DecNAccepts(e: Kind, vs: seq<Val>, c: seq<u8>, rest: seq<u8>)
    requires SpellsN(e, vs, c)
    ensures DecN(e, |vs|, c + rest) == Ok((vs, rest))
    decreases e, |vs| + 1
  {
    hide Dec, Enc, Spells;
    if vs == [] {
      assert c + rest == rest;
    } else {
      var n := |Enc(e, vs[0])|;
      DecAccepts(e, vs[0], c[..n], c[n..] + rest);
      DecNAccepts(e, vs[1..], c[n..], rest);
      hide SpellsN, DecN;
      Joined(c, n, rest);
      DecNStep(e, |vs|, c + rest, vs[0], c[n..] + rest, vs[1..], rest);
      assert [vs[0]] + vs[1..] == vs;
    }
  }

  lemma Joined(c: seq<u8>, n: nat, rest: seq<u8>)
    requires n <= |c|
    ensures c[..n] + (c[n..] + rest) == c + rest
  {
  }

  lemma DecNStep(e: Kind, n: nat, b: seq<u8>, v: Val, b': seq<u8>, vs: seq<Val>, rest: seq<u8>)
    requires n > 0 && Dec(e, b) == Ok((v, b')) && DecN(e, n - 1, b') == Ok((vs, rest))
    ensures DecN(e, n, b) == Ok(([v] + vs, rest))
  {
    hide Dec;
  }

  // ---- When an encoding is a spelling of its value

  lemma {:induction false} EncSpells(k: Kind, v: Val)
    ensures Spells(k, v, Enc(k, v)) <==> WellFormed(k, v)
    decreases k, 0
  {
    hide LE, FromLE, SpellsN, SpellsAll, EncN, Encs;
    if k.KInt? && v.Int? {
      IntSpells(k.width, k.limit, v.x);
    } else if k.KStr? && v.Str? {
      StrSpells(v.s);
    } else if k.KData? && v.Data? {
      DataSpells(v.d);
    } else if k.KRec? && v.Rec? {
      EncsSpells(k.parts, v.parts);
    } else if k.KVec? && v.Vec? {
      EncNSpells(k.elem, v.items);
      VecSpells(k.elem, v.items);
    } else if k.KDir? && v.Vec? {
      EncNSpells(k.elem, v.items);
      DirSpells(k.elem, v.items);
    }
  }

  lemma {:induction false} VecSpells(e: Kind, vs: seq<Val>)
    ensures var c := Enc(KVec(e), Vec(vs));
            Spells(KVec(e), Vec(vs), c) <==> |vs| < U16_SPAN && SpellsN(e, vs, EncN(e, vs))
  {
    CountSurvives(2, |vs|, U16_SPAN, EncN(e, vs));
    hide LE, FromLE, SpellsN, EncN;
  }

  lemma {:induction false} DirSpells(e: Kind, vs: seq<Val>)
    ensures var c := Enc(KDir(e), Vec(vs));
            Spells(KDir(e), Vec(vs), c) <==> |EncN(e, vs)| % U32_SPAN == |vs| && SpellsN(e, vs, EncN(e, vs))
  {
    CountSurvives(4, |EncN(e, vs)|, U32_SPAN, EncN(e, vs));
    hide LE, FromLE, SpellsN, EncN;
  }

  lemma {:induction false} IntSpells(w: nat, limit: Limit, x: nat)
    ensures Spells(KInt(w, limit), Int(x), LE(w, x)) <==> x < limit && x < Span(w)
  {
    WrittenRead(LE(w, x));
    KeptPart(FromLE(LE(w, x)), limit);
    if x < Span(w) {
      ReadWritten(w, x);
    }
  }

  lemma KeptPart(y: nat, limit: Limit)
    ensures y % limit < limit && y % limit <= y
    ensures y < limit ==> y % limit == y
  {
  }

  lemma StrSpells(s: seq<u8>)
    ensures Spells(KStr, Str(s), Enc(KStr, Str(s))) <==> WellFormed(KStr, Str(s))
  {
    CountSurvives(2, |s|, U16_SPAN, s);
  }

  lemma DataSpells(d: seq<u8>)
    ensures Spells(KData, Data(d), Enc(KData, Data(d))) <==> WellFormed(KData, Data(d))
  {
    CountSurvives(4, |d|, U32_SPAN, d);
  }

  /** A length cast to `width` bytes and put in front of `payload` reads back as its low bytes. */
  lemma {:induction false} CountSurvives(width: nat, n: nat, span: nat, payload: seq<u8>)
    requires (width == 2 && span == U16_SPAN) || (width == 4 && span == U32_SPAN)
    ensures var b := LE(width, n % span) + payload;
            FromLE(b[..width]) == n % span && b[width..] == payload
  {
    Spans();
    ReadWritten(width, n % span);
    assert (LE(width, n % span) + payload)[..width] == LE(width, n % span);
  }

  lemma {:induction false} EncsSpells(ks: seq<Kind>, vs: seq<Val>)
    ensures SpellsAll(ks, vs, Encs(ks, vs)) <==>
            |ks| == |vs| && forall i :: 0 <= i < |ks| ==> WellFormed(ks[i], vs[i])
    decreases ks, 0
  {
    if ks != [] && |ks| == |vs| {
      EncSpells(ks[0], vs[0]);
      EncsSpells(ks[1..], vs[1..]);
      var n := |Enc(ks[0], vs[0])|;
      assert Encs(ks, vs)[..n] == Enc(ks[0], vs[0]) && Encs(ks, vs)[n..] == Encs(ks[1..], vs[1..]);
      assert forall i :: 0 < i < |ks| ==> ks[i] == ks[1..][i - 1] && vs[i] == vs[1..][i - 1];
    }
  }

  lemma {:induction false} EncNSpells(e: Kind, vs: seq<Val>)
    ensures SpellsN(e, vs, EncN(e, vs)) <==> forall i :: 0 <= i < |vs| ==> WellFormed(e, vs[i])
    decreases e, |vs| + 1
  {
    if vs != [] {
      EncSpells(e, vs[0]);
      EncNSpells(e, vs[1..]);
      var n := |Enc(e, vs[0])|;
      assert EncN(e, vs)[..n] == Enc(e, vs[0]) && EncN(e, vs)[n..] == EncN(e, vs[1..]);
      assert forall i :: 0 < i < |vs| ==> vs[i] == vs[1..][i - 1];
    }
  }

  // ---- Round trip and canonical form

  /** Encoding and then decoding, with anything following, gives the value back exactly when it is well
      formed. */
  lemma {:induction false} RoundTrip(k: Kind, v: Val, rest: seq<u8>)
    ensures Dec(k, Enc(k, v) + rest) == Ok((v, rest)) <==> WellFormed(k, v)
  {
    var b := Enc(k, v) + rest;
    assert b[..|Enc(k, v)|] == Enc(k, v);
    EncSpells(k, v);
    if WellFormed(k, v) {
      DecAccepts(k, v, Enc(k, v), rest);
    } else if Dec(k, b) == Ok((v, rest)) {
      DecReads(k, b);
    }
  }

  /** What spells a value outside a directory payload spells a well-formed one, at its own length. */
  lemma {:induction false} SpellingIsWellFormed(k: Kind, v: Val, c: seq<u8>)
    requires Spells(k, v, c)
    ensures |c| == |Enc(k, v)|
    ensures NoDir(k) ==> WellFormed(k, v)
    decreases k, 0
  {
    Spans();
    match k
    case KInt(w, limit) =>
      WrittenRead(c);
      KeptPart(FromLE(c), limit);
    case KStr =>
      WrittenRead(c[..2]);
    case KData =>
      WrittenRead(c[..4]);
    case KRec(ks) =>
      SpellingsAreWellFormed(ks, v.parts, c);
    case KVec(e) =>
      WrittenRead(c[..2]);
      SpellingsNAreWellFormed(e, v.items, c[2..]);
    case KDir(e) =>
      SpellingsNAreWellFormed(e, v.items, c[4..]);
  }

  lemma {:induction false} SpellingsAreWellFormed(ks: seq<Kind>, vs: seq<Val>, c: seq<u8>)
    requires SpellsAll(ks, vs, c)
    ensures |c| == |Encs(ks, vs)|
    ensures (forall i :: 0 <= i < |ks| ==> NoDir(ks[i])) ==> forall i :: 0 <= i < |ks| ==> WellFormed(ks[i], vs[i])
    decreases ks, 0
  {
    if ks != [] {
      var n := |Enc(ks[0], vs[0])|;
      SpellingIsWellFormed(ks[0], vs[0], c[..n]);
      SpellingsAreWellFormed(ks[1..], vs[1..], c[n..]);
      assert forall i :: 0 < i < |ks| ==> ks[i] == ks[1..][i - 1] && vs[i] == vs[1..][i - 1];
    }
  }

  lemma {:induction false} SpellingsNAreWellFormed(e: Kind, vs: seq<Val>, c: seq<u8>)
    requires SpellsN(e, vs, c)
    ensures |c| == |EncN(e, vs)|
    ensures NoDir(e) ==> forall i :: 0 <= i < |vs| ==> WellFormed(e, vs[i])
    decreases e, |vs| + 1
  {
    if vs != [] {
      var n := |Enc(e, vs[0])|;
      SpellingIsWellFormed(e, vs[0], c[..n]);
      SpellingsNAreWellFormed(e, vs[1..], c[n..]);
      assert forall i :: 0 < i < |vs| ==> vs[i] == vs[1..][i - 1];
    }
  }

  /** Where a reader keeps every bit, a value has one spelling. */
  lemma {:induction false} OneSpelling(k: Kind, v: Val, c: seq<u8>)
    requires Spells(k, v, c) && Lossless(k)
    ensures c == Enc(k, v)
    decreases k, 0
  {
    match k
    case KInt(w, limit) =>
      WrittenRead(c);
      KeptPart(FromLE(c), limit);
    case KStr =>
      OneCount(2, |v.s|, U16_SPAN, c);
    case KData =>
      OneCount(4, |v.d|, U32_SPAN, c);
    case KRec(ks) =>
      OneSpellingAll(ks, v.parts, c);
    case KVec(e) =>
      OneCount(2, |v.items|, U16_SPAN, c);
      OneSpellingN(e, v.items, c[2..]);
  }

  lemma {:induction false} OneCount(width: nat, n: nat, span: nat, c: seq<u8>)
    requires (width == 2 && span == U16_SPAN) || (width == 4 && span == U32_SPAN)
    requires |c| >= width && FromLE(c[..width]) == n
    ensures c == LE(width, n % span) + c[width..]
  {
    Spans();
    WrittenRead(c[..width]);
  }

  lemma {:induction false} OneSpellingAll(ks: seq<Kind>, vs: seq<Val>, c: seq<u8>)
    requires SpellsAll(ks, vs, c) && forall i :: 0 <= i < |ks| ==> Lossless(ks[i])
    ensures c == Encs(ks, vs)
    decreases ks, 0
  {
    if ks != [] {
      var n := |Enc(ks[0], vs[0])|;
      OneSpelling(ks[0], vs[0], c[..n]);
      OneSpellingAll(ks[1..], vs[1..], c[n..]);
      assert c == c[..n] + c[n..];
    }
  }

  lemma {:induction false} OneSpellingN(e: Kind, vs: seq<Val>, c: seq<u8>)
    requires SpellsN(e, vs, c) && Lossless(e)
    ensures c == EncN(e, vs)
    decreases e, |vs| + 1
  {
    if vs != [] {
      var n := |Enc(e, vs[0])|;
      OneSpelling(e, vs[0], c[..n]);
      OneSpellingN(e, vs[1..], c[n..]);
      assert c == c[..n] + c[n..];
    }
  }

  // ---- Reading and writing one more field

  lemma {:induction false} EncsSnoc(ks: seq<Kind>, k: Kind, vs: seq<Val>, v: Val)
    requires |ks| == |vs|
    ensures Encs(ks + [k], vs + [v]) == Encs(ks, vs) + Enc(k, v)
    decreases |ks|
  {
    if ks == [] {
      assert Encs([k], [v]) == Enc(k, v) + Encs([k][1..], [v][1..]);
    } else {
      EncsSnoc(ks[1..], k, vs[1..], v);
      assert (ks + [k])[1..] == ks[1..] + [k] && (vs + [v])[1..] == vs[1..] + [v];
    }
  }

  lemma {:induction false} EncNSnoc(e: Kind, vs: seq<Val>, v: Val)
    ensures EncN(e, vs + [v]) == EncN(e, vs) + Enc(e, v)
    decreases |vs|
  {
    if vs == [] {
      assert EncN(e, [v]) == Enc(e, v) + EncN(e, [v][1..]);
    } else {
      EncNSnoc(e, vs[1..], v);
      assert (vs + [v])[1..] == vs[1..] + [v];
    }
  }

  lemma {:induction false} DecsSnoc(ks: seq<Kind>, k: Kind, b: seq<u8>)
    ensures Decs(ks + [k], b) ==
            match Decs(ks, b)
              case Err(e) => Err(e)
              case Ok((vs, r)) =>
                match Dec(k, r)
                case Err(e) => Err(e)
                case Ok((v, rest)) => Ok((vs + [v], rest))
    decreases |ks|
  {
    assert (ks + [k])[0] == if ks == [] then k else ks[0];
    if ks == [] {
      assert (ks + [k])[1..] == [];
      match Dec(k, b)
      case Err(_) =>
      case Ok((v, rest)) => assert Decs([], rest) == Ok(([], rest)) && [v] + [] == [] + [v];
    } else {
      assert (ks + [k])[1..] == ks[1..] + [k];
      match Dec(ks[0], b)
      case Err(_) =>
      case Ok((v0, r0)) =>
        DecsSnoc(ks[1..], k, r0);
        match Decs(ks[1..], r0)
        case Err(_) =>
        case Ok((vs, r)) =>
          match Dec(k, r)
          case Err(_) =>
          case Ok((v, rest)) => assert [v0] + (vs + [v]) == ([v0] + vs) + [v];
    }
  }

  /** An error in the first fields is the error of the whole. */
  lemma {:induction false} DecsStops(ks: seq<Kind>, more: seq<Kind>, b: seq<u8>)
    requires Decs(ks, b).Err?
    ensures Decs(ks + more, b) == Decs(ks, b)
    decreases |ks|
  {
    assert (ks + more)[0] == ks[0] && (ks + more)[1..] == ks[1..] + more;
    match Dec(ks[0], b)
    case Err(_) =>
    case Ok((_, r)) => DecsStops(ks[1..], more, r);
  }

  lemma {:induction false} DecNSnoc(e: Kind, n: nat, b: seq<u8>)
    ensures DecN(e, n + 1, b) ==
            match DecN(e, n, b)
              case Err(x) => Err(x)
              case Ok((vs, r)) =>
                match Dec(e, r)
                case Err(x) => Err(x)
                case Ok((v, rest)) => Ok((vs + [v], rest))
    decreases n
  {
    if n == 0 {
      match Dec(e, b)
      case Err(_) =>
      case Ok((v, rest)) => assert DecN(e, 0, rest) == Ok(([], rest)) && [v] + [] == [] + [v];
    } else {
      match Dec(e, b)
      case Err(_) =>
      case Ok((v0, r0)) =>
        DecNSnoc(e, n - 1, r0);
        match DecN(e, n - 1, r0)
        case Err(_) =>
        case Ok((vs, r)) =>
          match Dec(e, r)
          case Err(_) =>
          case Ok((v, rest)) => assert [v0] + (vs + [v]) == ([v0] + vs) + [v];
    }
  }

  lemma {:induction false} DecNStops(e: Kind, n: nat, more: nat, b: seq<u8>)
    requires DecN(e, n, b).Err?
    ensures DecN(e, n + more, b) == DecN(e, n, b)
    decreases n
  {
    match Dec(e, b)
    case Err(_) =>
    case Ok((_, r)) => DecNStops(e, n - 1, more, r);
  }
}
