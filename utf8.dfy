/** The UTF-8 transformation of section 3 of RFC 3629, as the driver meets it:
    opcodes are sent as `bytes(chr(n), "utf-8")` and readback replies are passed
    through `.decode("utf-8")`, Python's strict decoder. */
module Utf8 {
  import opened Common

  /** A Unicode scalar value: a code point that is not a surrogate. */
  predicate IsScalar(c: int) {
    0 <= c <= 0x10FFFF && !(0xD800 <= c <= 0xDFFF)
  }

  /** `bytes(chr(n), "utf-8")`: `chr` raises ValueError outside 0..0x10FFFF, the
      encoder raises UnicodeEncodeError on a surrogate. */
  function EncodeChr(n: int): (r: Result<seq<Byte>>)
    ensures r.Ok? <==> IsScalar(n)
    ensures r.Err? ==> r.error == (if 0 <= n <= 0x10FFFF then UnicodeError else ValueError)
    ensures r.Ok? ==> 1 <= |r.value| <= 4
    ensures r.Ok? ==> (|r.value| == 1 <==> n < 0x80)
    ensures r.Ok? && n < 0x80 ==> r.value == [n]
  {
    if !(0 <= n <= 0x10FFFF) then Err(ValueError)
    else if 0xD800 <= n <= 0xDFFF then Err(UnicodeError)
    else Ok(EncodeScalar(n))
  }

  /** The byte sequence of one scalar value: 1 to 4 bytes by range (RFC 3629, section 3). */
  function EncodeScalar(n: int): (r: seq<Byte>)
    requires IsScalar(n)
  {
    var q1 := n / 64;
    var q2 := q1 / 64;
    var q3 := q2 / 64;
    if n < 0x80 then [n]
    else if n < 0x800 then [0xC0 + q1, 0x80 + n % 64]
    else if n < 0x10000 then [0xE0 + q2, 0x80 + q1 % 64, 0x80 + n % 64]
    else [0xF0 + q3, 0x80 + q2 % 64, 0x80 + q1 % 64, 0x80 + n % 64]
  }

  /** `bytes(chr(a) + chr(b) + ..., "utf-8")`: every `chr` runs before the
      encoder, so an out-of-range value wins over a surrogate. */
  function EncodeText(cs: seq<int>): (r: Result<seq<Byte>>)
    ensures r.Ok? <==> (forall i :: 0 <= i < |cs| ==> IsScalar(cs[i]))
    ensures r.Ok? ==> r.value == Concat(cs)
  {
    if exists i :: 0 <= i < |cs| && !(0 <= cs[i] <= 0x10FFFF) then Err(ValueError)
    else if exists i :: 0 <= i < |cs| && !IsScalar(cs[i]) then Err(UnicodeError)
    else Ok(Concat(cs))
  }

  /** The concatenated encodings of a sequence of scalar values. */
  function Concat(cs: seq<int>): seq<Byte>
    requires forall i :: 0 <= i < |cs| ==> IsScalar(cs[i])
  {
    if cs == [] then [] else EncodeScalar(cs[0]) + Concat(cs[1..])
  }

  predicate IsCont(b: Byte) { 0x80 <= b <= 0xBF }

  /** The scalar value at the front of `s` and its length in bytes, or None when
      the front is not well-formed UTF-8 (overlong forms, surrogates, values
      above 0x10FFFF, stray or missing continuation bytes are all rejected). */
  function DecodeFirst(s: seq<Byte>): (r: Option<(int, nat)>)
    requires |s| > 0
    ensures r.Some? ==> 1 <= r.value.1 <= |s| && r.value.1 <= 4 && IsScalar(r.value.0)
  {
    var b0: int := s[0];
    var b1: int := if |s| >= 2 then s[1] else 0;
    var b2: int := if |s| >= 3 then s[2] else 0;
    var b3: int := if |s| >= 4 then s[3] else 0;
    if b0 < 0x80 then Some((b0, 1))
    else if 0xC2 <= b0 <= 0xDF then
      if |s| >= 2 && IsCont(s[1]) then Some(((b0 - 0xC0) * 64 + (b1 - 0x80), 2))
      else None
    else if 0xE0 <= b0 <= 0xEF then
      if |s| >= 3 && IsCont(s[1]) && IsCont(s[2])
         && (b0 != 0xE0 || s[1] >= 0xA0) && (b0 != 0xED || s[1] < 0xA0)
      then Some(((b0 - 0xE0) * 4096 + (b1 - 0x80) * 64 + (b2 - 0x80), 3))
      else None
    else if 0xF0 <= b0 <= 0xF4 then
      if |s| >= 4 && IsCont(s[1]) && IsCont(s[2]) && IsCont(s[3])
         && (b0 != 0xF0 || s[1] >= 0x90) && (b0 != 0xF4 || s[1] < 0x90)
      then Some(((b0 - 0xF0) * 262144 + (b1 - 0x80) * 4096 + (b2 - 0x80) * 64 + (b3 - 0x80), 4))
      else None
    else None
  }

  /** `[ord(ch) for ch in s.decode("utf-8")]`; None when the decoder raises. */
  function Decode(s: seq<Byte>): (r: Option<seq<int>>)
    decreases |s|
  {
    if s == [] then Some([])
    else match DecodeFirst(s)
      case None => None
      case Some(first) =>
        match Decode(s[first.1..])
        case None => None
        case Some(rest) => Some([first.0] + rest)
  }

  lemma EncodeFirst(n: int, rest: seq<Byte>)
    requires IsScalar(n)
    ensures DecodeFirst(EncodeScalar(n) + rest) == Some((n, |EncodeScalar(n)|))
  {
    var q1 := n / 64;
    var q2 := q1 / 64;
    var q3 := q2 / 64;
    assert n == 64 * q1 + n % 64;
    assert q1 == 64 * q2 + q1 % 64;
    assert q2 == 64 * q3 + q2 % 64;
    if 0x800 <= n < 0x10000 {
      assert q2 < 16;
      if q2 == 0 { assert q1 >= 32 && q1 % 64 == q1; }
      if q2 == 13 { assert q1 < 864; }
    } else if n >= 0x10000 {
      assert q3 < 5;
      if q3 == 0 { assert q2 >= 16 && q2 % 64 == q2; }
      if q3 == 4 { assert q2 < 272; }
    }
  }

  /** Decoding undoes encoding: the strict decoder returns exactly the scalar
      values that were encoded. */
  lemma {:induction false} DecodeConcat(cs: seq<int>)
    requires forall i :: 0 <= i < |cs| ==> IsScalar(cs[i])
    ensures Decode(Concat(cs)) == Some(cs)
  {
    if cs != [] {
      EncodeFirst(cs[0], Concat(cs[1..]));
      var s := Concat(cs);
      assert s[|EncodeScalar(cs[0])|..] == Concat(cs[1..]);
      DecodeConcat(cs[1..]);
      assert [cs[0]] + cs[1..] == cs;
    }
  }

  /** `cs` are scalar values whose encodings, one after another, are `s`. */
  predicate Encodes(cs: seq<int>, s: seq<Byte>) {
    (forall i :: 0 <= i < |cs| ==> IsScalar(cs[i])) && Concat(cs) == s
  }

  /** Writing a number as a quotient and a remainder by 64. */
  lemma Base64Digits(q: int, r: int)
    requires 0 <= r < 64
    ensures (q * 64 + r) / 64 == q && (q * 64 + r) % 64 == r
  {
  }

  /** The value the decoder reads off the front re-encodes to exactly the bytes
      it read: the decoder accepts only shortest forms. */
  lemma DecodeFirstEncodes(s: seq<Byte>)
    requires |s| > 0 && DecodeFirst(s).Some?
    ensures var (n, k) := DecodeFirst(s).value; EncodeScalar(n) == s[..k]
  {
    var (n, k) := DecodeFirst(s).value;
    var b0: int := s[0];
    if k == 2 {
      Base64Digits(b0 - 0xC0, s[1] - 0x80);
    } else if k == 3 {
      var m := (b0 - 0xE0) * 64 + (s[1] - 0x80);
      assert n == m * 64 + (s[2] - 0x80);
      Base64Digits(m, s[2] - 0x80);
      Base64Digits(b0 - 0xE0, s[1] - 0x80);
    } else if k == 4 {
      var m2 := (b0 - 0xF0) * 64 + (s[1] - 0x80);
      var m1 := m2 * 64 + (s[2] - 0x80);
      assert n == m1 * 64 + (s[3] - 0x80);
      Base64Digits(m1, s[3] - 0x80);
      Base64Digits(m2, s[2] - 0x80);
      Base64Digits(b0 - 0xF0, s[1] - 0x80);
    }
  }

  /** Encoding undoes decoding: whatever the strict decoder accepts is the
      encoding of the scalar values it returns. With `DecodeConcat`, the decoder
      succeeds on `s` with `cs` exactly when `s` encodes `cs`. */
  lemma {:induction false} DecodeEncodes(s: seq<Byte>)
    requires Decode(s).Some?
    decreases |s|
    ensures Encodes(Decode(s).value, s)
  {
    if s != [] {
      var (n, k) := DecodeFirst(s).value;
      DecodeFirstEncodes(s);
      DecodeEncodes(s[k..]);
      var rest := Decode(s[k..]).value;
      var cs := Decode(s).value;
      assert cs == [n] + rest;
      assert cs[1..] == rest;
      assert s == s[..k] + s[k..];
    }
  }

  /** Every byte below 0x80 decodes to itself. */
  lemma {:induction false} DecodeAscii(s: seq<Byte>)
    requires forall i :: 0 <= i < |s| ==> s[i] < 0x80
    ensures Decode(s) == Some(s)
  {
    if s != [] {
      DecodeAscii(s[1..]);
      assert [s[0]] + s[1..] == s;
    }
  }

  /** A lone byte in 0x80..0xFF is not UTF-8: the decoder raises. */
  lemma HighByteAlone(b: Byte)
    requires b >= 0x80
    ensures Decode([b]) == None
  {
  }

  /** `chr(205)` is two bytes on the wire, 0xC3 0x8D. */
  lemma Chr205()
    ensures EncodeChr(205) == Ok([0xC3, 0x8D])
  {
  }
}
