/** The `struct` formats the driver uses, always with the `"!"` prefix (network
    byte order, no padding): `B`, `H`, `BB`, `HH`, `7s` and the empty format. A
    format is a list of fields. */
module Wire {
  import opened Common

  datatype Field = U8 | U16 | Str(n: nat)
  type Format = seq<Field>

  /** A packed or unpacked item: an integer, or a byte string for `s` fields. */
  datatype Value = Int(i: int) | Bytes(b: seq<Byte>)

  const EmptyFmt: Format := []
  const FmtB: Format := [U8]
  const FmtH: Format := [U16]
  const FmtBB: Format := [U8, U8]
  const FmtHH: Format := [U16, U16]
  const Fmt7s: Format := [Str(7)]

  function FieldSize(f: Field): nat {
    match f
    case U8 => 1
    case U16 => 2
    case Str(n) => n
  }

  /** `struct.calcsize("!" + fmt)`: the number of bytes, not of fields. */
  function Size(fmt: Format): nat {
    if fmt == [] then 0 else FieldSize(fmt[0]) + Size(fmt[1..])
  }

  /** A value struct.pack accepts for one field. */
  predicate Fits(f: Field, v: Value) {
    match f
    case U8 => v.Int? && 0 <= v.i < 256
    case U16 => v.Int? && 0 <= v.i < 65536
    case Str(_) => v.Bytes?
  }

  /** A value struct.unpack can return for one field. */
  predicate Exact(f: Field, v: Value) {
    Fits(f, v) && (f.Str? ==> |v.b| == f.n)
  }

  predicate AllExact(fmt: Format, vs: seq<Value>) {
    |vs| == |fmt| && forall i :: 0 <= i < |fmt| ==> Exact(fmt[i], vs[i])
  }

  /** One field, big-endian; a byte string is truncated or zero-padded to its width. */
  function PackField(f: Field, v: Value): (r: seq<Byte>)
    requires Fits(f, v)
    ensures |r| == FieldSize(f)
  {
    match f
    case U8 => [v.i]
    case U16 => [v.i / 256, v.i % 256]
    case Str(n) => if |v.b| >= n then v.b[..n] else v.b + seq(n - |v.b|, _ => 0)
  }

  /** `struct.pack("!" + fmt, *vs)`: struct.error unless there is one fitting
      value per field. */
  function Pack(fmt: Format, vs: seq<Value>): (r: Result<seq<Byte>>)
    ensures r.Ok? <==> |vs| == |fmt| && forall i :: 0 <= i < |fmt| ==> Fits(fmt[i], vs[i])
    ensures r.Err? ==> r.error == StructError
    ensures r.Ok? ==> |r.value| == Size(fmt)
  {
    if |vs| != |fmt| then Err(StructError)
    else if fmt == [] then Ok([])
    else if !Fits(fmt[0], vs[0]) then Err(StructError)
    else match Pack(fmt[1..], vs[1..])
      case Err(e) => Err(e)
      case Ok(rest) => Ok(PackField(fmt[0], vs[0]) + rest)
  }

  function UnpackField(f: Field, b: seq<Byte>): (v: Value)
    requires |b| == FieldSize(f)
    ensures Exact(f, v)
  {
    match f
    case U8 => Int(b[0])
    case U16 => Int(b[0] as int * 256 + b[1])
    case Str(_) => Bytes(b)
  }

  /** `struct.unpack("!" + fmt, b)`: struct.error unless `b` is exactly the
      format's size. */
  function Unpack(fmt: Format, b: seq<Byte>): (r: Result<seq<Value>>)
    ensures r.Ok? <==> |b| == Size(fmt)
    ensures r.Err? ==> r.error == StructError
    ensures r.Ok? ==> AllExact(fmt, r.value)
  {
    if |b| != Size(fmt) then Err(StructError) else Ok(Fields(fmt, b))
  }

  /** The fields of a byte string of exactly the format's size, in order. */
  function Fields(fmt: Format, b: seq<Byte>): (vs: seq<Value>)
    requires |b| == Size(fmt)
    ensures AllExact(fmt, vs)
    decreases |fmt|
  {
    if fmt == [] then []
    else
      var k := FieldSize(fmt[0]);
      [UnpackField(fmt[0], b[..k])] + Fields(fmt[1..], b[k..])
  }

  /** Unpacking what was packed gives the values back. */
  lemma {:induction false} UnpackPack(fmt: Format, vs: seq<Value>)
    requires AllExact(fmt, vs)
    ensures Pack(fmt, vs).Ok? && Unpack(fmt, Pack(fmt, vs).value) == Ok(vs)
  {
    if fmt != [] {
      assert AllExact(fmt[1..], vs[1..]) by {
        forall i | 0 <= i < |fmt[1..]| ensures Exact(fmt[1..][i], vs[1..][i]) {
          assert Exact(fmt[i + 1], vs[i + 1]);
        }
      }
      UnpackPack(fmt[1..], vs[1..]);
      var head := PackField(fmt[0], vs[0]);
      var b := Pack(fmt, vs).value;
      assert b == head + Pack(fmt[1..], vs[1..]).value;
      assert b[..|head|] == head;
      assert b[|head|..] == Pack(fmt[1..], vs[1..]).value;
      assert UnpackField(fmt[0], head) == vs[0];
      assert [vs[0]] + vs[1..] == vs;
    }
  }

  /** Packing what was unpacked gives the bytes back. */
  lemma {:induction false} PackUnpack(fmt: Format, b: seq<Byte>)
    requires |b| == Size(fmt)
    ensures Pack(fmt, Unpack(fmt, b).value) == Ok(b)
  {
    if fmt != [] {
      var k := FieldSize(fmt[0]);
      PackUnpack(fmt[1..], b[k..]);
      var vs := Unpack(fmt, b).value;
      assert vs[0] == UnpackField(fmt[0], b[..k]);
      assert vs[1..] == Unpack(fmt[1..], b[k..]).value;
      PackFieldUnpack(fmt[0], b[..k]);
      assert b[..k] + b[k..] == b;
    }
  }

  /** Packing an unpacked field gives its bytes back. */
  lemma PackFieldUnpack(f: Field, b: seq<Byte>)
    requires |b| == FieldSize(f)
    ensures PackField(f, UnpackField(f, b)) == b
  {
    if f == U16 {
      var v := b[0] as int * 256 + b[1];
      assert v / 256 == b[0] && v % 256 == b[1];
    }
  }

  /** `"!H"` is network byte order: the high byte goes first. */
  lemma BigEndianH(v: int)
    requires 0 <= v < 65536
    ensures Pack(FmtH, [Int(v)]) == Ok([v / 256, v % 256])
    ensures Unpack(FmtH, [v / 256, v % 256]) == Ok([Int(v)])
  {
    assert FmtH[1..] == [] && [Int(v)][1..] == [];
    assert Pack(FmtH[1..], [Int(v)][1..]) == Ok([]);
    var b: seq<Byte> := [v / 256, v % 256];
    assert PackField(U16, Int(v)) == b && b + [] == b;
    assert Pack(FmtH, [Int(v)]) == Ok(b);
    UnpackPack(FmtH, [Int(v)]);
  }

  /** Packing a format one field longer prepends that field's bytes. */
  lemma PackCons(f: Field, fmt: Format, v: Value, vs: seq<Value>)
    requires Fits(f, v) && Pack(fmt, vs).Ok?
    ensures Pack([f] + fmt, [v] + vs) == Ok(PackField(f, v) + Pack(fmt, vs).value)
  {
    var fmt', vs' := [f] + fmt, [v] + vs;
    assert fmt'[0] == f && vs'[0] == v;
    assert fmt'[1..] == fmt && vs'[1..] == vs;
    assert |vs'| == |fmt'|;
  }

  /** `"!BB"` sends its two bytes as they are. */
  lemma PackBB(a: Byte, b: Byte)
    ensures Pack(FmtB, [Int(b)]) == Ok([b])
    ensures Pack(FmtBB, [Int(a), Int(b)]) == Ok([a, b])
  {
    PackCons(U8, [], Int(b), []);
    assert [U8] + [] == FmtB && [Int(b)] + [] == [Int(b)] && [b] + [] == [b];
    PackCons(U8, FmtB, Int(a), [Int(b)]);
    assert [U8] + FmtB == FmtBB && [Int(a)] + [Int(b)] == [Int(a), Int(b)];
    assert PackField(U8, Int(a)) + [b] == [a, b];
  }

  /** `"!HH"` sends each word high byte first. */
  lemma PackHH(u: int, v: int)
    requires 0 <= u < 65536 && 0 <= v < 65536
    ensures Pack(FmtHH, [Int(u), Int(v)]) == Ok([u / 256, u % 256, v / 256, v % 256])
  {
    BigEndianH(v);
    PackCons(U16, FmtH, Int(u), [Int(v)]);
    assert [U16] + FmtH == FmtHH && [Int(u)] + [Int(v)] == [Int(u), Int(v)];
    assert PackField(U16, Int(u)) + [v / 256, v % 256] == [u / 256, u % 256, v / 256, v % 256];
  }

  /** Only the `H` and `s` formats have fewer fields than bytes. */
  lemma SizeVersusFields()
    ensures Size(EmptyFmt) == |EmptyFmt| == 0
    ensures Size(FmtB) == |FmtB| == 1 && Size(FmtBB) == |FmtBB| == 2
    ensures Size(FmtH) == 2 && |FmtH| == 1
    ensures Size(FmtHH) == 4 && |FmtHH| == 2
    ensures Size(Fmt7s) == 7 && |Fmt7s| == 1
  {
  }
}
