/** Bytes that are not read as a message, and why. */
module Rejects {
  import opened Wrappers
  import opened Bytes
  import opened Utf8
  import opened Fcall
  import opened Grammar
  import opened Messages
  import opened Codec
  import opened RoundTrips

  // ---- Too few bytes

  /** A spelling that is cut short is not read: the reader asks for more bytes. */
  lemma {:induction false} CutShort(k: Kind, v: Val, c: seq<u8>, j: nat)
    requires Spells(k, v, c) && j < |c|
    ensures Dec(k, c[..j]) == Err(UnexpectedEof)
    decreases k, 0
  {
    if j >= 2 {
      assert c[..j][..2] == c[..2] && c[..j][2..] == c[2..][..j - 2];
    }
    if j >= 4 {
      assert c[..j][..4] == c[..4] && c[..j][4..] == c[4..][..j - 4];
    }
    match k
    case KInt(_, _) =>
    case KStr =>
    case KData =>
    case KRec(ks) => AllCutShort(ks, v.parts, c, j);
    case KVec(e) => if j >= 2 { ElementsCutShort(e, v.items, c[2..], j - 2); }
    case KDir(e) => if j >= 4 { ElementsCutShort(e, v.items, c[4..], j - 4); }
  }

  lemma {:induction false} AllCutShort(ks: seq<Kind>, vs: seq<Val>, c: seq<u8>, j: nat)
    requires SpellsAll(ks, vs, c) && j < |c|
    ensures Decs(ks, c[..j]) == Err(UnexpectedEof)
    decreases ks, 0
  {
    var n := |Enc(ks[0], vs[0])|;
    if j < n {
      CutShort(ks[0], vs[0], c[..n], j);
      assert c[..n][..j] == c[..j];
    } else {
      Cut(c, n, j);
      DecAccepts(ks[0], vs[0], c[..n], c[n..][..j - n]);
      AllCutShort(ks[1..], vs[1..], c[n..], j - n);
    }
  }

  lemma {:induction false} ElementsCutShort(e: Kind, vs: seq<Val>, c: seq<u8>, j: nat)
    requires SpellsN(e, vs, c) && j < |c|
    ensures DecN(e, |vs|, c[..j]) == Err(UnexpectedEof)
    decreases e, |vs| + 1
  {
    hide Dec, Enc, Spells;
    var n := |Enc(e, vs[0])|;
    if j < n {
      CutShort(e, vs[0], c[..n], j);
      assert c[..n][..j] == c[..j];
    } else {
      Cut(c, n, j);
      DecAccepts(e, vs[0], c[..n], c[n..][..j - n]);
      ElementsCutShort(e, vs[1..], c[n..], j - n);
    }
  }

  lemma Cut(c: seq<u8>, n: nat, j: nat)
    requires n <= j <= |c|
    ensures c[..j] == c[..n] + c[n..][..j - n]
  {
  }

  /** No message is the beginning of another: bytes that are read as a message, and all used, are not read when any
      are missing at the end. */
  lemma NoShorterMessage(b: seq<u8>, m: Msg, j: nat)
    requires DecMsg(b) == Ok((m, [])) && j < |b|
    ensures DecMsg(b[..j]) == Err(UnexpectedEof)
  {
    DecodingReadsSpellings(b, m, []);
    if j < 3 {
      ShortHeader(b[..j]);
    } else {
      hide Decs, Layout, MsgType, Fields, EncMsg, DecMsg;
      assert |EncMsg(m)| == |b| && b[3..|b|] == b[3..];
      BodyCutShort(m.body, b[3..], j - 3);
      ReadHeader(b[..j]);
      assert b[..j][3..] == b[3..][..j - 3] && b[..j][0] == MsgType(m.body);
      BodyDecides(b[..j]);
    }
  }

  lemma BodyCutShort(body: FCall, c: seq<u8>, j: nat)
    requires SpellsBody(body, c) && j < |c|
    ensures DecBody(MsgType(body), c[..j]) == Err(UnexpectedEof)
  {
    AllCutShort(Layout(MsgType(body)).value, Fields(body), c, j);
    hide Layout, MsgType, Fields, Decs, SpellsAll;
  }

  lemma BodyDecides(b: seq<u8>)
    requires |b| >= 3
    ensures DecBody(b[0], b[3..]).Err? ==> DecMsg(b) == Err(DecBody(b[0], b[3..]).error)
  {
    ReadHeader(b);
    hide DecBody, Dec;
  }

  lemma ShortHeader(b: seq<u8>)
    requires |b| < 3
    ensures DecMsg(b) == Err(UnexpectedEof)
  {
  }

  // ---- Other reasons

  /** A string of bytes that are not UTF-8 is not read, whatever follows. */
  lemma {:induction false} BadText(s: seq<u8>, rest: seq<u8>)
    requires |s| < U16_SPAN && !ValidUtf8(s)
    ensures Dec(KStr, LE(2, |s|) + s + rest) == Err(InvalidUtf8)
  {
    CountSurvives(2, |s|, U16_SPAN, s + rest);
    var b := LE(2, |s|) + s + rest;
    assert b == LE(2, |s|) + (s + rest);
    hide LE, ValidUtf8;
    assert b[2..2 + |s|] == s;
  }

  /** Of a flag word a reader keeps the bits below the limit of its mask. */
  lemma {:induction false} LowBitsKept(w: nat, limit: Limit, x: nat, rest: seq<u8>)
    requires x < Span(w)
    ensures Dec(KInt(w, limit), LE(w, x) + rest) == Ok((Int(x % limit), rest))
  {
    ReadWritten(w, x);
    assert (LE(w, x) + rest)[..w] == LE(w, x) && (LE(w, x) + rest)[w..] == rest;
  }

  lemma {:induction false} NeverType(k: Kind, b: seq<u8>)
    ensures Dec(k, b) != Err(InvalidType)
    decreases k, 0
  {
    match k
    case KRec(ks) => NeverTypeAll(ks, b);
    case KVec(e) => if |b| >= 2 { NeverTypeN(e, FromLE(b[..2]), b[2..]); }
    case KDir(e) => if |b| >= 4 { NeverTypeN(e, FromLE(b[..4]), b[4..]); }
    case _ =>
  }

  lemma {:induction false} NeverTypeAll(ks: seq<Kind>, b: seq<u8>)
    ensures Decs(ks, b) != Err(InvalidType)
    decreases ks, 0
  {
    if ks != [] {
      NeverType(ks[0], b);
      if Dec(ks[0], b).Ok? {
        NeverTypeAll(ks[1..], Dec(ks[0], b).value.1);
      }
    }
  }

  lemma {:induction false} NeverTypeN(e: Kind, n: nat, b: seq<u8>)
    ensures DecN(e, n, b) != Err(InvalidType)
    decreases e, n + 1
  {
    hide Dec;
    if n != 0 {
      NeverType(e, b);
      if Dec(e, b).Ok? {
        NeverTypeN(e, n - 1, Dec(e, b).value.1);
      }
    }
  }

  /** A message is rejected for its type exactly when that is not one of the 57 numbers, once its tag is there too. */
  lemma UnknownTypes(b: seq<u8>)
    ensures DecMsg(b) == Err(InvalidType) <==> |b| >= 3 && !Known(b[0])
  {
    if |b| < 3 {
      ShortHeader(b);
    } else {
      ReadHeader(b);
      KnownNumbers(b[0]);
      if Layout(b[0]).Some? {
        NeverTypeAll(Layout(b[0]).value, b[3..]);
      }
      hide Layout, Dec, Decs, Build;
    }
  }

  predicate Known(n: u8) {
    || 7 <= n <= 9 || 12 <= n <= 27 || 30 <= n <= 33 || 40 <= n <= 41 || 50 <= n <= 55 || 70 <= n <= 77
    || 100 <= n <= 105 || 108 <= n <= 111 || 116 <= n <= 123
  }

  lemma KnownNumbers(n: u8)
    ensures Layout(n).Some? <==> Known(n)
  {
  }
}
