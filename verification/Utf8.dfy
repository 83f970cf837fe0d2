/** What valid UTF-8 is: exactly the encodings of sequences of Unicode scalar values. */
module Utf8 {
  import opened Bytes

  /** A code point that is not a surrogate. */
  predicate Scalar(c: nat) {
    c <= 0xd7ff || 0xe000 <= c <= 0x10ffff
  }

  /** Section 3 of RFC 3629. */
  function EncodeScalar(c: nat): (s: bytes)
    requires Scalar(c)
    ensures s != []
  {
    if c < 0x80 then [c as byte]
    else if c < 0x800 then [(0xc0 + c / 64) as byte, (0x80 + c % 64) as byte]
    else if c < 0x10000 then [(0xe0 + c / 4096) as byte, (0x80 + c / 64 % 64) as byte, (0x80 + c % 64) as byte]
    else
      [(0xf0 + c / 262144) as byte, (0x80 + c / 4096 % 64) as byte,
       (0x80 + c / 64 % 64) as byte, (0x80 + c % 64) as byte]
  }

  predicate Scalars(text: seq<nat>) {
    forall c | c in text :: Scalar(c)
  }

  function EncodeText(text: seq<nat>): bytes
    requires Scalars(text)
  {
    if text == [] then [] else EncodeScalar(text[0]) + EncodeText(text[1..])
  }

  /** The sequence at the front of an encoding is the encoding of the first character. */
  lemma EncodedFirst(c: nat, t: bytes)
    requires Scalar(c)
    ensures Utf8Sequence(EncodeScalar(c) + t) == |EncodeScalar(c)|
  {
    var e := EncodeScalar(c);
    var s := e + t;
    assert forall i | 0 <= i < |e| :: s[i] == e[i];
  }

  lemma Split(hi: nat, lo: nat)
    requires lo < 64
    ensures (64 * hi + lo) / 64 == hi && (64 * hi + lo) % 64 == lo
  {
  }

  lemma Deeper(c: nat)
    ensures c / 4096 == c / 64 / 64 && c / 262144 == c / 64 / 64 / 64
  {
  }

  lemma TwoBytes(a: byte, b: byte) returns (c: nat)
    requires 0xc2 <= a <= 0xdf && 0x80 <= b <= 0xbf
    ensures Scalar(c) && EncodeScalar(c) == [a, b]
  {
    c := 64 * (a as nat - 0xc0) + (b as nat - 0x80);
    Split(a as nat - 0xc0, b as nat - 0x80);
  }

  lemma ThreeBytes(a: byte, b: byte, d: byte) returns (c: nat)
    requires 0xe0 <= a <= 0xef && 0x80 <= b <= 0xbf && 0x80 <= d <= 0xbf
    requires (a == 0xe0 ==> 0xa0 <= b) && (a == 0xed ==> b <= 0x9f)
    ensures Scalar(c) && EncodeScalar(c) == [a, b, d]
  {
    var hi, mid := a as nat - 0xe0, b as nat - 0x80;
    c := 64 * (64 * hi + mid) + (d as nat - 0x80);
    Split(64 * hi + mid, d as nat - 0x80);
    Split(hi, mid);
    Deeper(c);
  }

  lemma FourBytes(a: byte, b: byte, d: byte, e: byte) returns (c: nat)
    requires 0xf0 <= a <= 0xf4 && 0x80 <= b <= 0xbf && 0x80 <= d <= 0xbf && 0x80 <= e <= 0xbf
    requires (a == 0xf0 ==> 0x90 <= b) && (a == 0xf4 ==> b <= 0x8f)
    ensures Scalar(c) && EncodeScalar(c) == [a, b, d, e]
  {
    var top, hi, mid := a as nat - 0xf0, b as nat - 0x80, d as nat - 0x80;
    c := 64 * (64 * (64 * top + hi) + mid) + (e as nat - 0x80);
    Split(64 * (64 * top + hi) + mid, e as nat - 0x80);
    Split(64 * top + hi, mid);
    Split(top, hi);
    Deeper(c);
  }

  /** A sequence is the encoding of a character. */
  lemma SequenceEncodes(s: bytes) returns (c: nat)
    requires Utf8Sequence(s) > 0
    ensures Scalar(c) && s[..Utf8Sequence(s)] == EncodeScalar(c)
  {
    var n := Utf8Sequence(s);
    if n == 1 {
      c := s[0] as nat;
    } else {
      hide Scalar, EncodeScalar;
      if n == 2 {
        c := TwoBytes(s[0], s[1]);
        assert s[..2] == [s[0], s[1]];
      } else if n == 3 {
        c := ThreeBytes(s[0], s[1], s[2]);
        assert s[..3] == [s[0], s[1], s[2]];
      } else {
        c := FourBytes(s[0], s[1], s[2], s[3]);
        assert s[..4] == [s[0], s[1], s[2], s[3]];
      }
    }
  }

  lemma {:induction false} EncodedIsValid(text: seq<nat>)
    requires Scalars(text)
    ensures ValidUtf8(EncodeText(text))
  {
    if text != [] {
      var first, rest := EncodeScalar(text[0]), EncodeText(text[1..]);
      EncodedFirst(text[0], rest);
      EncodedIsValid(text[1..]);
      assert (first + rest)[|first|..] == rest;
    }
  }

  lemma {:induction false} ValidIsEncoded(s: bytes) returns (text: seq<nat>)
    requires ValidUtf8(s)
    ensures Scalars(text) && EncodeText(text) == s
    decreases |s|
  {
    hide Utf8Sequence, Scalar, EncodeScalar;
    text := [];
    if s != [] {
      var n := Utf8Sequence(s);
      var c := SequenceEncodes(s);
      var rest := ValidIsEncoded(s[n..]);
      text := [c] + rest;
      assert text[1..] == rest;
    }
  }

  /** The check on a message's bytes passes if and only if they encode some text. */
  lemma ValidExactly(s: bytes)
    ensures ValidUtf8(s) <==> exists text: seq<nat> :: Scalars(text) && EncodeText(text) == s
  {
    if ValidUtf8(s) {
      var text := ValidIsEncoded(s);
    }
    forall text: seq<nat> | Scalars(text) && EncodeText(text) == s ensures ValidUtf8(s) {
      EncodedIsValid(text);
    }
  }
}
