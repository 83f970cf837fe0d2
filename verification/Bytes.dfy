/** Byte strings and the library operations the syslog listeners apply to them:
    searching for a byte, decimal numbers, UTF-8 validity and joining reads. */
module Bytes {

  newtype byte = x: int | 0 <= x < 256

  type bytes = seq<byte>

  datatype Option<+T> = None | Some(value: T)

  const NEWLINE: byte := 0x0a
  const CR: byte := 0x0d
  const SPACE: byte := 0x20
  const PLUS: byte := 0x2b
  const ZERO: byte := 0x30

  /** Largest `usize` on the 64-bit targets the gem builds for. */
  const USIZE_MAX: nat := 0xffff_ffff_ffff_ffff

  predicate IsDigit(b: byte) {
    0x30 <= b <= 0x39
  }

  /** The bytes that open an octet counted frame: '1' to '9'. */
  predicate IsCountStart(b: byte) {
    0x31 <= b <= 0x39
  }

  // ---------------------------------------------------------------- searching

  /** Index of the first `b` in `s`, or `|s|` if there is none. */
  function Seek(s: bytes, b: byte): (k: nat)
    ensures k <= |s|
    ensures k < |s| ==> s[k] == b
    ensures forall i | 0 <= i < k :: s[i] != b
  {
    if s == [] || s[0] == b then 0 else 1 + Seek(s[1..], b)
  }

  lemma SeekIs(s: bytes, b: byte, k: nat)
    requires k < |s| && s[k] == b
    requires forall i | 0 <= i < k :: s[i] != b
    ensures Seek(s, b) == k
  {
  }

  /** Appending bytes never moves a match that was already there. */
  lemma SeekAppend(s: bytes, t: bytes, b: byte)
    ensures Seek(s, b) < |s| ==> Seek(s + t, b) == Seek(s, b)
    ensures Seek(s, b) == |s| ==> Seek(s + t, b) == |s| + Seek(t, b)
  {
    var k := Seek(s, b);
    if k < |s| {
      SeekIs(s + t, b, k);
    } else {
      var j := Seek(t, b);
      forall i | 0 <= i < |s| + j ensures (s + t)[i] != b {
        if i >= |s| {
          assert (s + t)[i] == t[i - |s|];
        }
      }
      if j < |t| {
        SeekIs(s + t, b, |s| + j);
      }
    }
  }

  /** Index of the first `b` in `s` at or behind `from`, or `|s|` if there is none. */
  function SeekFrom(s: bytes, b: byte, from: nat): (k: nat)
    requires from <= |s|
    ensures from <= k <= |s|
    ensures k < |s| ==> s[k] == b
    ensures forall i | from <= i < k :: s[i] != b
  {
    from + Seek(s[from..], b)
  }

  lemma SeekFromIs(s: bytes, b: byte, from: nat, k: nat)
    requires from <= k < |s| && s[k] == b
    requires forall i | from <= i < k :: s[i] != b
    ensures SeekFrom(s, b, from) == k
  {
    hide Seek;
  }

  lemma SeekFromAppend(s: bytes, t: bytes, b: byte, from: nat)
    requires from <= |s|
    ensures SeekFrom(s, b, from) < |s| ==> SeekFrom(s + t, b, from) == SeekFrom(s, b, from)
    ensures SeekFrom(s, b, from) == |s| ==> SeekFrom(s + t, b, from) == |s| + Seek(t, b)
  {
    assert (s + t)[from..] == s[from..] + t;
    SeekAppend(s[from..], t, b);
  }

  /** What has been searched in vain need not be searched again. */
  lemma SeekResumes(s: bytes, b: byte, from: nat)
    requires from <= |s| && b !in s[..from]
    ensures SeekFrom(s, b, from) == Seek(s, b)
  {
    assert s == s[..from] + s[from..];
    SeekAppend(s[..from], s[from..], b);
    assert Seek(s[..from], b) == from;
  }

  /** `iter().position(..)`: a linear search of the buffer. */
  method Position(s: bytes, b: byte) returns (k: nat)
    ensures k == Seek(s, b)
  {
    k := 0;
    while k < |s| && s[k] != b
      invariant k <= |s|
      invariant forall i | 0 <= i < k :: s[i] != b
    {
      k := k + 1;
    }
    if k < |s| {
      SeekIs(s, b, k);
    } else if Seek(s, b) < |s| {
      assert s[Seek(s, b)] == b;
    }
  }

  // ----------------------------------------------------------------- decimals

  /** The decimal numeral of `n`, most significant digit first. */
  function Decimal(n: nat): (s: bytes)
    ensures s != []
    ensures forall i | 0 <= i < |s| :: IsDigit(s[i])
    ensures n > 0 ==> IsCountStart(s[0]) && |s| <= n
    ensures n > 1 ==> |s| < n
  {
    if n < 10 then [ZERO + n as byte]
    else Decimal(n / 10) + [ZERO + (n % 10) as byte]
  }

  predicate AllDigits(s: bytes) {
    forall i | 0 <= i < |s| :: IsDigit(s[i])
  }

  function NumericValue(s: bytes): nat
    requires AllDigits(s)
  {
    if s == [] then 0
    else 10 * NumericValue(s[..|s| - 1]) + (s[|s| - 1] - ZERO) as nat
  }

  /** `str::parse::<usize>()`: an optional plus sign, then digits, failing on
      anything else and on a number that does not fit. */
  function ParseUsize(s: bytes): (r: Option<nat>)
    ensures r.Some? ==> r.value <= USIZE_MAX
    ensures r.Some? ==> s != []
    ensures r.Some? && s[0] != PLUS ==> AllDigits(s) && r.value == NumericValue(s)
    ensures r.Some? ==> NEWLINE !in s
  {
    var digits := if |s| > 1 && s[0] == PLUS then s[1..] else s;
    if digits == [] || !AllDigits(digits) then None
    else
      assert forall i | 0 <= i < |s| :: i == 0 || s[i] == digits[i - (|s| - |digits|)];
      var n := NumericValue(digits);
      if n > USIZE_MAX then None else Some(n)
  }

  lemma {:induction false} NumericValueOfDecimal(n: nat)
    ensures AllDigits(Decimal(n)) && NumericValue(Decimal(n)) == n
  {
    if n >= 10 {
      NumericValueOfDecimal(n / 10);
      var s := Decimal(n);
      assert s[..|s| - 1] == Decimal(n / 10);
    } else {
      assert Decimal(n)[..0] == [];
    }
  }

  /** A length a sender writes is the length the listener reads. */
  lemma ParseDecimal(n: nat)
    requires n <= USIZE_MAX
    ensures ParseUsize(Decimal(n)) == Some(n)
  {
    NumericValueOfDecimal(n);
    assert Decimal(n)[0] != PLUS;
  }

  lemma {:induction false} DecimalOfNumericValue(s: bytes)
    requires s != [] && AllDigits(s) && s[0] != 0x30
    ensures Decimal(NumericValue(s)) == s
    decreases |s|
  {
    var n := |s| - 1;
    if n == 0 {
      assert s[..0] == [];
    } else {
      DecimalOfNumericValue(s[..n]);
      assert Decimal(0) == [0x30];
      assert s[..n][0] == s[0];
      assert NumericValue(s[..n]) > 0;
    }
  }

  /** Of what can stand in front of a space after a digit from 1 to 9, exactly the
      numerals up to 2^64 - 1 are lengths, and each is the length it denotes. */
  lemma LengthExactly(s: bytes, n: nat)
    requires s != [] && 0x31 <= s[0] <= 0x39
    ensures ParseUsize(s) == Some(n) <==> s == Decimal(n) && n <= 0xffff_ffff_ffff_ffff
  {
    if AllDigits(s) {
      DecimalOfNumericValue(s);
    }
    if s == Decimal(n) {
      NumericValueOfDecimal(n);
    }
  }

  // -------------------------------------------------------------------- UTF-8

  predicate Continues(s: bytes, i: nat, lo: byte, hi: byte) {
    i < |s| && lo <= s[i] <= hi
  }

  /** Length of the well-formed UTF-8 sequence at the front of `s` (Unicode
      table 3-7), or 0 if there is none. */
  function Utf8Sequence(s: bytes): (n: nat)
    ensures n <= |s|
  {
    if s == [] then 0
    else if s[0] <= 0x7f then 1
    else if 0xc2 <= s[0] <= 0xdf then
      if Continues(s, 1, 0x80, 0xbf) then 2 else 0
    else if 0xe0 <= s[0] <= 0xef then
      var lo := if s[0] == 0xe0 then 0xa0 else 0x80;
      var hi := if s[0] == 0xed then 0x9f else 0xbf;
      if Continues(s, 1, lo, hi) && Continues(s, 2, 0x80, 0xbf) then 3 else 0
    else if 0xf0 <= s[0] <= 0xf4 then
      var lo := if s[0] == 0xf0 then 0x90 else 0x80;
      var hi := if s[0] == 0xf4 then 0x8f else 0xbf;
      if Continues(s, 1, lo, hi) && Continues(s, 2, 0x80, 0xbf) && Continues(s, 3, 0x80, 0xbf) then 4 else 0
    else 0
  }

  /** `std::str::from_utf8(s).is_ok()`. */
  predicate ValidUtf8(s: bytes)
    decreases |s|
  {
    s == [] || (Utf8Sequence(s) > 0 && ValidUtf8(s[Utf8Sequence(s)..]))
  }

  // -------------------------------------------------------------------- reads

  /** All the bytes of a series of reads, in order. */
  function Concat(chunks: seq<bytes>): bytes {
    if chunks == [] then [] else chunks[0] + Concat(chunks[1..])
  }
}
