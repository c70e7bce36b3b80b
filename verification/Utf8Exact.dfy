/** The UTF-8 check of the preflight accepts exactly what RFC 3629 encodes. */
module Utf8Exact {
  import opened Base
  import opened Preflights

  /** The code points that have an encoding: all but the surrogates. */
  predicate Scalar(c: nat) {
    c < 0xD800 || 0xE000 <= c < 0x11_0000
  }

  /** The octets of one character (section 3 of RFC 3629). */
  function EncodeChar(c: nat): (s: seq<byte>)
    requires Scalar(c)
    ensures 1 <= |s| <= 4
  {
    if c < 0x80 then [c as byte]
    else if c < 0x800 then [(0xC0 + c / 64) as byte, (0x80 + c % 64) as byte]
    else if c < 0x1_0000 then [(0xE0 + c / 4096) as byte, (0x80 + c / 64 % 64) as byte, (0x80 + c % 64) as byte]
    else [(0xF0 + c / 262144) as byte, (0x80 + c / 4096 % 64) as byte, (0x80 + c / 64 % 64) as byte, (0x80 + c % 64) as byte]
  }

  predicate AllScalar(cs: seq<nat>) {
    forall i :: 0 <= i < |cs| ==> Scalar(cs[i])
  }

  function EncodeAll(cs: seq<nat>): seq<byte>
    requires AllScalar(cs)
  {
    if cs == [] then [] else EncodeChar(cs[0]) + EncodeAll(cs[1..])
  }

  lemma Digits64(c: nat)
    requires c < 0x11_0000
    ensures c / 4096 == c / 64 / 64 && c / 262144 == c / 4096 / 64 <= 4
  {
  }

  lemma SurrogatesAreThree(c: nat)
    requires 0x800 <= c < 0x1_0000
    ensures c / 4096 == 13 && c / 64 % 64 >= 32 <==> 0xD800 <= c < 0xE000
    ensures c / 4096 == 0 ==> c / 64 % 64 >= 32
  {
    var high := c / 64;
    Digits64(c);
    assert high == high / 64 * 64 + high % 64;
  }

  lemma FourInRange(c: nat)
    requires 0x1_0000 <= c < 0x11_0000
    ensures c / 262144 == 0 ==> c / 4096 % 64 >= 16
    ensures c / 262144 == 4 ==> c / 4096 % 64 <= 15
  {
    var top := c / 4096;
    Digits64(c);
    assert top == top / 64 * 64 + top % 64;
  }

  lemma Heads(s: seq<byte>, rest: seq<byte>)
    ensures |s + rest| >= |s| && forall i :: 0 <= i < |s| ==> (s + rest)[i] == s[i]
  {
  }

  /** An encoded character is recognized with its length, whatever follows. */
  lemma CharIsRead(c: nat, rest: seq<byte>)
    requires Scalar(c)
    ensures CharLength(EncodeChar(c) + rest) == |EncodeChar(c)|
  {
    var e := EncodeChar(c);
    var s := e + rest;
    Heads(e, rest);
    if c < 0x80 {
    } else if c < 0x800 {
      assert s[0] == e[0] && s[1] == e[1] && 2 <= c / 64 <= 31;
    } else if c < 0x1_0000 {
      assert s[0] == e[0] && s[1] == e[1] && s[2] == e[2];
      SurrogatesAreThree(c);
    } else {
      assert s[0] == e[0] && s[1] == e[1] && s[2] == e[2] && s[3] == e[3];
      Digits64(c);
      FourInRange(c);
    }
  }

  lemma TwoOctets(a: nat, b: nat) returns (c: nat)
    requires 0xC2 <= a <= 0xDF && 0x80 <= b <= 0xBF
    ensures Scalar(c) && EncodeChar(c) == [a as byte, b as byte]
  {
    c := (a - 0xC0) * 64 + (b - 0x80);
    assert c / 64 == a - 0xC0 && c % 64 == b - 0x80;
  }

  lemma ThreeOctets(a: nat, b: nat, d: nat) returns (c: nat)
    requires 0xE0 <= a <= 0xEF && 0x80 <= b <= 0xBF && 0x80 <= d <= 0xBF
    requires (a == 0xE0 ==> b >= 0xA0) && (a == 0xED ==> b <= 0x9F)
    ensures Scalar(c) && EncodeChar(c) == [a as byte, b as byte, d as byte]
  {
    var high := (a - 0xE0) * 64 + (b - 0x80);
    c := high * 64 + (d - 0x80);
    assert c / 64 == high && c % 64 == d - 0x80;
    assert high / 64 == a - 0xE0 && high % 64 == b - 0x80;
    assert c / 4096 == high / 64;
  }

  lemma FourOctets(a: nat, b: nat, d: nat, e: nat) returns (c: nat)
    requires 0xF0 <= a <= 0xF4 && 0x80 <= b <= 0xBF && 0x80 <= d <= 0xBF && 0x80 <= e <= 0xBF
    requires (a == 0xF0 ==> b >= 0x90) && (a == 0xF4 ==> b <= 0x8F)
    ensures Scalar(c) && EncodeChar(c) == [a as byte, b as byte, d as byte, e as byte]
  {
    var top := (a - 0xF0) * 64 + (b - 0x80);
    var high := top * 64 + (d - 0x80);
    c := high * 64 + (e - 0x80);
    assert c / 64 == high && c % 64 == e - 0x80;
    assert high / 64 == top && high % 64 == d - 0x80;
    assert top / 64 == a - 0xF0 && top % 64 == b - 0x80;
    assert c / 4096 == top && c / 262144 == top / 64;
  }

  /** What is recognized is the encoding of a character. */
  lemma CharWasEncoded(s: seq<byte>) returns (c: nat)
    requires CharLength(s) > 0
    ensures Scalar(c) && EncodeChar(c) == s[..CharLength(s)]
  {
    var n := CharLength(s);
    if n == 1 {
      c := s[0] as nat;
    } else if n == 2 {
      c := TwoOctets(s[0] as nat, s[1] as nat);
    } else if n == 3 {
      c := ThreeOctets(s[0] as nat, s[1] as nat, s[2] as nat);
    } else {
      c := FourOctets(s[0] as nat, s[1] as nat, s[2] as nat, s[3] as nat);
    }
  }

  lemma {:induction false} EncodedIsUtf8(cs: seq<nat>)
    requires AllScalar(cs)
    ensures Utf8(EncodeAll(cs))
    decreases |cs|
  {
    if cs != [] {
      var rest := EncodeAll(cs[1..]);
      EncodedIsUtf8(cs[1..]);
      CharIsRead(cs[0], rest);
      assert (EncodeChar(cs[0]) + rest)[|EncodeChar(cs[0])|..] == rest;
      hide CharLength, EncodeChar;
    }
  }

  lemma Utf8Next(s: seq<byte>)
    requires Utf8(s) && s != []
    ensures CharLength(s) > 0 && Utf8(s[CharLength(s)..])
  {
    hide CharLength;
  }

  lemma NothingEncoded()
    ensures EncodeAll([]) == []
  {
  }

  lemma {:induction false} Utf8WasEncoded(s: seq<byte>) returns (cs: seq<nat>)
    requires Utf8(s)
    ensures AllScalar(cs) && EncodeAll(cs) == s
    decreases |s|
  {
    hide Utf8, CharLength, EncodeChar, EncodeAll, Scalar;
    if s == [] {
      cs := [];
      NothingEncoded();
    } else {
      Utf8Next(s);
      var n := CharLength(s);
      var c := CharWasEncoded(s);
      var more := Utf8WasEncoded(s[n..]);
      cs := [c] + more;
      EncodeCons(c, more);
      assert s == s[..n] + s[n..];
    }
  }

  lemma EncodeCons(c: nat, more: seq<nat>)
    requires Scalar(c) && AllScalar(more)
    ensures AllScalar([c] + more) && EncodeAll([c] + more) == EncodeChar(c) + EncodeAll(more)
  {
    hide EncodeChar, Scalar;
    assert ([c] + more)[1..] == more;
  }

  /** A byte string is accepted exactly if it encodes some sequence of characters. */
  lemma Utf8Exactly(s: seq<byte>)
    ensures Utf8(s) <==> exists cs: seq<nat> :: AllScalar(cs) && EncodeAll(cs) == s
  {
    hide Utf8;
    if Utf8(s) {
      var cs := Utf8WasEncoded(s);
    }
    if cs: seq<nat> :| AllScalar(cs) && EncodeAll(cs) == s {
      EncodedIsUtf8(cs);
    }
  }

  /** A decimal may have any width up to eight octets but six and seven. */
  lemma WidthsExactly(d: seq<byte>)
    ensures ValidDigits(d) <==> |d| in {0, 1, 2, 3, 4, 5, 8}
  {
  }
}
