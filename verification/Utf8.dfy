/** Well-formed UTF-8, by the grammar in section 4 of RFC 3629. */
module Utf8 {
  import opened Bytes

  predicate Tail(b: u8) { 0x80 <= b <= 0xBF }

  /** The length of the well-formed character at the front of `s`; 0 when there is none. */
  function CharLength(s: seq<u8>): (n: nat)
    requires s != []
    ensures n <= |s| && n <= 4
  {
    if s[0] <= 0x7F then 1
    else if |s| >= 2 && 0xC2 <= s[0] <= 0xDF && Tail(s[1]) then 2
    else if |s| >= 3 && Tail(s[2]) && LeadOfThree(s[0], s[1]) then 3
    else if |s| >= 4 && Tail(s[2]) && Tail(s[3]) && LeadOfFour(s[0], s[1]) then 4
    else 0
  }

  predicate LeadOfThree(a: u8, b: u8) {
    || (a == 0xE0 && 0xA0 <= b <= 0xBF)
    || (0xE1 <= a <= 0xEC && Tail(b))
    || (a == 0xED && 0x80 <= b <= 0x9F)
    || (0xEE <= a <= 0xEF && Tail(b))
  }

  predicate LeadOfFour(a: u8, b: u8) {
    || (a == 0xF0 && 0x90 <= b <= 0xBF)
    || (0xF1 <= a <= 0xF3 && Tail(b))
    || (a == 0xF4 && 0x80 <= b <= 0x8F)
  }

  predicate ValidUtf8(s: seq<u8>) {
    s == [] || (CharLength(s) > 0 && ValidUtf8(s[CharLength(s)..]))
  }

  // ---- What well-formed bytes are: the encodings of Unicode scalar values

  type Scalar = c: int | 0 <= c < 0x11_0000 && !(0xD800 <= c < 0xE000)

  /** The bytes of one scalar value, by the table in section 3 of RFC 3629. */
  function Char(c: Scalar): (b: seq<u8>)
    ensures 1 <= |b| <= 4
  {
    if c < 0x80 then [c]
    else if c < 0x800 then [0xC0 + c / 0x40, 0x80 + c % 0x40]
    else if c < 0x1_0000 then [0xE0 + c / 0x1000, 0x80 + c / 0x40 % 0x40, 0x80 + c % 0x40]
    else [0xF0 + c / 0x4_0000, 0x80 + c / 0x1000 % 0x40, 0x80 + c / 0x40 % 0x40, 0x80 + c % 0x40]
  }

  function Chars(cs: seq<Scalar>): seq<u8> {
    if cs == [] then [] else Char(cs[0]) + Chars(cs[1..])
  }

  lemma Digit(q: nat, w: nat)
    requires w < 0x40
    ensures (q * 0x40 + w) / 0x40 == q && (q * 0x40 + w) % 0x40 == w
  {
  }

  lemma ThreeBytes(x: nat, z: nat, w: nat) returns (c: nat)
    requires z < 0x40 && w < 0x40
    ensures c == x * 0x1000 + z * 0x40 + w && c / 0x1000 == x && c / 0x40 % 0x40 == z && c % 0x40 == w
  {
    Digit(x, z);
    Digit(x * 0x40 + z, w);
    c := (x * 0x40 + z) * 0x40 + w;
  }

  lemma FourBytes(x: nat, y: nat, z: nat, w: nat) returns (c: nat)
    requires y < 0x40 && z < 0x40 && w < 0x40
    ensures c == x * 0x4_0000 + y * 0x1000 + z * 0x40 + w && c / 0x4_0000 == x
    ensures c / 0x1000 % 0x40 == y && c / 0x40 % 0x40 == z && c % 0x40 == w
  {
    var d := ThreeBytes(x, y, z);
    Digit(d, w);
    c := d * 0x40 + w;
    assert c / 0x1000 == d / 0x40 && c / 0x4_0000 == d / 0x1000;
  }

  lemma ScalarOfThree(s: seq<u8>) returns (c: Scalar)
    requires |s| >= 3 && LeadOfThree(s[0], s[1]) && Tail(s[2])
    ensures Char(c) == s[..3]
  {
    c := ThreeBytes(s[0] as int - 0xE0, s[1] as int - 0x80, s[2] as int - 0x80);
    assert 0x800 <= c < 0x1_0000;
  }

  lemma ScalarOfFour(s: seq<u8>) returns (c: Scalar)
    requires |s| >= 4 && LeadOfFour(s[0], s[1]) && Tail(s[2]) && Tail(s[3])
    ensures Char(c) == s[..4]
  {
    c := FourBytes(s[0] as int - 0xF0, s[1] as int - 0x80, s[2] as int - 0x80, s[3] as int - 0x80);
    assert 0x1_0000 <= c;
  }

  lemma FirstScalar(s: seq<u8>) returns (c: Scalar)
    requires s != [] && CharLength(s) > 0
    ensures Char(c) == s[..CharLength(s)]
  {
    match CharLength(s)
    case 1 => c := s[0];
    case 2 =>
      Digit(s[0] as int - 0xC0, s[1] as int - 0x80);
      c := (s[0] as int - 0xC0) * 0x40 + (s[1] as int - 0x80);
    case 3 =>
      c := ScalarOfThree(s);
      hide Char, LeadOfThree, LeadOfFour;
    case 4 =>
      c := ScalarOfFour(s);
      hide Char, LeadOfThree, LeadOfFour;
  }

  lemma LeadsAgree(c: Scalar)
    ensures 0x800 <= c < 0x1_0000 ==> LeadOfThree(Char(c)[0], Char(c)[1]) && Tail(Char(c)[2])
    ensures 0x1_0000 <= c ==> LeadOfFour(Char(c)[0], Char(c)[1]) && Tail(Char(c)[2]) && Tail(Char(c)[3])
    ensures 0x1_0000 <= c ==> !LeadOfThree(Char(c)[0], Char(c)[1])
  {
  }

  lemma CharIsWellFormed(c: Scalar, rest: seq<u8>)
    ensures CharLength(Char(c) + rest) == |Char(c)| && (Char(c) + rest)[|Char(c)|..] == rest
  {
    LeadsAgree(c);
    hide LeadOfThree, LeadOfFour;
    var s := Char(c) + rest;
    assert forall i :: 0 <= i < |Char(c)| ==> s[i] == Char(c)[i];
  }

  lemma {:induction false} CharsAreValid(cs: seq<Scalar>)
    ensures ValidUtf8(Chars(cs))
  {
    if cs != [] {
      CharIsWellFormed(cs[0], Chars(cs[1..]));
      CharsAreValid(cs[1..]);
    }
  }

  lemma {:induction false} ValidHasChars(s: seq<u8>) returns (cs: seq<Scalar>)
    requires ValidUtf8(s)
    ensures Chars(cs) == s
    decreases |s|
  {
    if s == [] {
      cs := [];
    } else {
      var c := FirstScalar(s);
      var rest := ValidHasChars(s[CharLength(s)..]);
      cs := [c] + rest;
      assert cs[1..] == rest && s[..CharLength(s)] + s[CharLength(s)..] == s;
    }
  }

  /** Bytes are accepted exactly when they encode some sequence of scalar values: no overlong forms, no surrogates,
      nothing above U+10FFFF, nothing cut short. */
  lemma {:induction false} ValidIsEncoded(s: seq<u8>)
    ensures ValidUtf8(s) <==> exists cs: seq<Scalar> :: Chars(cs) == s
  {
    if ValidUtf8(s) {
      var cs := ValidHasChars(s);
    }
    if cs: seq<Scalar> :| Chars(cs) == s {
      CharsAreValid(cs);
    }
  }
}
