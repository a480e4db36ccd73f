/** One request/response exchange with the DPScope over the serial link
    (model/command.py, and the same exchange in low.py). Each exchange is
    described by a function of the pending input, `Transaction`, that gives the
    result, the bytes written and the number of bytes consumed; the methods that
    drive the link are proved to agree with it. */
module Command {
  import opened Common
  import opened Wire
  import Utf8
  import opened SerialLink

  /** A command descriptor: opcode, whether the device echoes the opcode before
      (`ack`) and after (`postack`) its payload, and the reply and argument formats. */
  datatype CommandSpec = CommandSpec(opcode: int, ack: bool, postack: bool, ret: Format, args: Format)

  /** How a failed check is reported: the command classes of model/command.py
      raise exceptions, the DPScope class of low.py uses `assert`. */
  datatype Style = Raising | Asserting

  /** What an exchange does: its result, the bytes it wrote, and how many
      pending bytes it read. */
  datatype Exchange<T> = Exchange(result: Result<T>, written: seq<Byte>, consumed: nat)

  /** The bytes `read(n)` returns once `pos` bytes of `input` have been read. */
  function Take(input: seq<Byte>, pos: nat, n: nat): (got: seq<Byte>)
    requires pos <= |input|
    ensures got == input[pos..Min(pos + n, |input|)]
    ensures |got| == Min(n, |input| - pos)
  {
    input[pos..Min(pos + n, |input|)]
  }

  /** The argument-count check: `len(args)` against `struct.calcsize`, the
      byte size of the argument format. */
  predicate CountOk(c: CommandSpec, args: seq<Value>) {
    |args| == Size(c.args)
  }

  /** One echo check on the byte `read(1)` returned. The raising variant compares
      the encoded opcode with the byte string and formats `ord(ackb)` into its
      message, which raises TypeError when nothing arrived; the asserting variant
      compares the opcode with `ord(ackb)`. */
  function AckCheck(style: Style, opcode: int, op: seq<Byte>, got: seq<Byte>): (o: Outcome)
    requires op != []
    ensures got == [] ==> o == Fail(TypeError)
    ensures style == Raising ==> (o.Pass? <==> got == op)
  {
    match style
    case Raising =>
      if got == op then Pass
      else if got == [] then Fail(TypeError)
      else Fail(CommsError(AckMismatch))
    case Asserting =>
      if got == [] then Fail(TypeError)
      else if got[0] == opcode then Pass
      else Fail(AssertionError)
  }

  function TrailingError(style: Style, n: nat): Error {
    if style == Raising then CommsError(TrailingBytes(n)) else AssertionError
  }

  /** `Command.__call__` (model/command.py:111-151) and the `_cmd` factory of
      low.py (low.py:176-196): argument-count check, opcode, packed arguments,
      optional echo, payload, optional second echo, no bytes left pending. */
  function Transaction(style: Style, c: CommandSpec, args: seq<Value>, input: seq<Byte>): (x: Exchange<seq<Value>>)
    ensures x.consumed <= |input|
    ensures !CountOk(c, args) ==>
      x == Exchange(Err(if style == Raising then CommandError else AssertionError), [], 0)
    ensures CountOk(c, args) ==> x == Perform(style, c, args, input)
  {
    if !CountOk(c, args) then
      Exchange(Err(if style == Raising then CommandError else AssertionError), [], 0)
    else Perform(style, c, args, input)
  }

  /** Everything `Transaction` does once the argument count has been accepted. */
  function Perform(style: Style, c: CommandSpec, args: seq<Value>, input: seq<Byte>): (x: Exchange<seq<Value>>)
    ensures x.consumed <= |input|
    ensures x.result.Ok? ==>
      && Utf8.EncodeChr(c.opcode).Ok? && Pack(c.args, args).Ok?
      && x.written == Utf8.EncodeChr(c.opcode).value + Pack(c.args, args).value
      && x.consumed == |input|
      && AllExact(c.ret, x.result.value)
    ensures Utf8.EncodeChr(c.opcode).Ok? && Pack(c.args, args).Err? ==>
      x == Exchange(Err(StructError), Utf8.EncodeChr(c.opcode).value, 0)
  {
    match Utf8.EncodeChr(c.opcode)
    case Err(e) => Exchange(Err(e), [], 0)
    case Ok(op) =>
      match Pack(c.args, args)
      case Err(e) => Exchange(Err(e), op, 0)
      case Ok(packed) =>
        var x := Receive(style, c, op, input);
        Exchange(x.result, op + packed, x.consumed)
  }

  /** The reading half of `Transaction`, after the request has been written:
      the optional echo, then the payload. */
  function Receive(style: Style, c: CommandSpec, op: seq<Byte>, input: seq<Byte>): (x: Exchange<seq<Value>>)
    requires op != []
    ensures x.written == [] && x.consumed <= |input|
    ensures x.result.Ok? ==> x.consumed == |input| && AllExact(c.ret, x.result.value)
  {
    var ack := if c.ack then Take(input, 0, 1) else [];
    var ackOk := if c.ack then AckCheck(style, c.opcode, op, ack) else Pass;
    if ackOk.Fail? then Exchange(Err(ackOk.error), [], |ack|)
    else ReadPayload(style, c, op, input, |ack|)
  }

  /** The payload read at position `p`, then the rest of the exchange. */
  function ReadPayload(style: Style, c: CommandSpec, op: seq<Byte>, input: seq<Byte>, p: nat): (x: Exchange<seq<Value>>)
    requires op != [] && p <= |input|
    ensures x.written == [] && p <= x.consumed <= |input|
    ensures x.result.Ok? ==> x.consumed == |input| && AllExact(c.ret, x.result.value)
  {
    var payload := Take(input, p, Size(c.ret));
    match Unpack(c.ret, payload)
    case Err(e) => Exchange(Err(e), [], p + |payload|)
    case Ok(vs) => Conclude(style, c, op, input, p + |payload|, vs)
  }

  /** The optional second echo at position `p`, then the pending check. */
  function Conclude(style: Style, c: CommandSpec, op: seq<Byte>, input: seq<Byte>, p: nat, vs: seq<Value>): (x: Exchange<seq<Value>>)
    requires op != [] && p <= |input|
    ensures x.written == [] && p <= x.consumed <= |input|
    ensures x.result.Ok? ==> x.consumed == |input| && x.result.value == vs
  {
    var post := if c.postack then Take(input, p, 1) else [];
    var postOk := if c.postack then AckCheck(style, c.opcode, op, post) else Pass;
    var q := p + |post|;
    if postOk.Fail? then Exchange(Err(postOk.error), [], q)
    else if q != |input| then Exchange(Err(TrailingError(style, |input| - q)), [], q)
    else Exchange(Ok(vs), [], q)
  }

  /** Reads one echo byte from the link and checks it. */
  method Echo(link: Link, style: Style, opcode: int, op: seq<Byte>) returns (o: Outcome)
    requires op != []
    modifies link
    ensures var got := old(link.input)[..Min(1, |old(link.input)|)];
      o == AckCheck(style, opcode, op, got) && link.input == old(link.input)[|got|..]
    ensures link.output == old(link.output) && link.isOpen == old(link.isOpen)
  {
    var got := link.Read(1);
    o := AckCheck(style, opcode, op, got);
  }

  /** Runs one exchange on the link. */
  method Send(link: Link, style: Style, c: CommandSpec, args: seq<Value>) returns (r: Result<seq<Value>>)
    modifies link
    ensures var x := Transaction(style, c, args, old(link.input));
      && r == x.result
      && link.output == old(link.output) + x.written
      && link.input == old(link.input)[x.consumed..]
    ensures link.isOpen == old(link.isOpen)
  {
    if !CountOk(c, args) {
      return Err(if style == Raising then CommandError else AssertionError);
    }
    r := PerformOn(link, style, c, args);
  }

  /** The exchange after the count check: opcode, arguments, then the reply. */
  method PerformOn(link: Link, style: Style, c: CommandSpec, args: seq<Value>) returns (r: Result<seq<Value>>)
    modifies link
    ensures var x := Perform(style, c, args, old(link.input));
      && r == x.result
      && link.output == old(link.output) + x.written
      && link.input == old(link.input)[x.consumed..]
    ensures link.isOpen == old(link.isOpen)
  {
    var op :- Utf8.EncodeChr(c.opcode);
    link.Write(op);
    var packed :- Pack(c.args, args);
    link.Write(packed);
    AppendAssoc(old(link.output), op, packed);
    r := Await(link, style, c, op);
  }

  /** The reading half of `Send`. */
  method Await(link: Link, style: Style, c: CommandSpec, op: seq<Byte>) returns (r: Result<seq<Value>>)
    requires op != []
    modifies link
    ensures var x := Receive(style, c, op, old(link.input));
      r == x.result && link.input == old(link.input)[x.consumed..]
    ensures link.output == old(link.output) && link.isOpen == old(link.isOpen)
  {
    ghost var input := link.input;
    if c.ack {
      var e := Echo(link, style, c.opcode, op);
      if e.Fail? {
        return Err(e.error);
      }
    }
    r := PayloadOn(link, style, c, op, input, |input| - |link.input|);
  }

  method PayloadOn(link: Link, style: Style, c: CommandSpec, op: seq<Byte>, ghost input: seq<Byte>, ghost p: nat)
      returns (r: Result<seq<Value>>)
    requires op != [] && p <= |input| && link.input == input[p..]
    modifies link
    ensures var x := ReadPayload(style, c, op, input, p);
      r == x.result && link.input == input[x.consumed..]
    ensures link.output == old(link.output) && link.isOpen == old(link.isOpen)
  {
    var payload := link.Read(Size(c.ret));
    ReadIsTake(input, p, Size(c.ret));
    r := DecodeOn(link, style, c, op, input, p, payload);
  }

  /** Unpacks the payload `ReadPayload` takes at `p`, then finishes the exchange. */
  method DecodeOn(link: Link, style: Style, c: CommandSpec, op: seq<Byte>, ghost input: seq<Byte>, ghost p: nat, payload: seq<Byte>)
      returns (r: Result<seq<Value>>)
    requires op != [] && p <= |input| && payload == Take(input, p, Size(c.ret))
    requires link.input == input[p + |payload|..]
    modifies link
    ensures var x := ReadPayload(style, c, op, input, p);
      r == x.result && link.input == input[x.consumed..]
    ensures link.output == old(link.output) && link.isOpen == old(link.isOpen)
  {
    var vs :- Unpack(c.ret, payload);
    r := FinishOn(link, style, c, op, input, p + |payload|, vs);
  }

  method FinishOn(link: Link, style: Style, c: CommandSpec, op: seq<Byte>, ghost input: seq<Byte>, ghost p: nat, vs: seq<Value>)
      returns (r: Result<seq<Value>>)
    requires op != [] && p <= |input| && link.input == input[p..]
    modifies link
    ensures var x := Conclude(style, c, op, input, p, vs);
      r == x.result && link.input == input[x.consumed..]
    ensures link.output == old(link.output) && link.isOpen == old(link.isOpen)
  {
    if c.postack {
      var e := Echo(link, style, c.opcode, op);
      assert Take(input, p, 1) == old(link.input)[..Min(1, |old(link.input)|)];
      if e.Fail? {
        return Err(e.error);
      }
    }
    var pending := link.InWaiting();
    if pending != 0 {
      return Err(TrailingError(style, pending));
    }
    return Ok(vs);
  }

  /** Reading `n` bytes from what is left after position `p` returns
      `Take(input, p, n)` and leaves the input after it. */
  lemma ReadIsTake(input: seq<Byte>, p: nat, n: nat)
    requires p <= |input|
    ensures var k := Min(n, |input[p..]|);
      && input[p..][..k] == Take(input, p, n) && input[p..][k..] == input[p + |Take(input, p, n)|..]
  {
  }

  /** The byte string a well-behaved device sends back for `c` when its payload is `vs`. */
  function Reply(c: CommandSpec, vs: seq<Value>): seq<Byte>
    requires 0 <= c.opcode < 0x80
    requires AllExact(c.ret, vs)
  {
    Wire.UnpackPack(c.ret, vs);
    (if c.ack then [c.opcode as Byte] else [])
    + Pack(c.ret, vs).value
    + (if c.postack then [c.opcode as Byte] else [])
  }

  /** The reply of a well-behaved device is accepted with its payload. */
  lemma {:induction false} ReplyAccepted(style: Style, c: CommandSpec, vs: seq<Value>, extra: seq<Byte>)
    requires 0 <= c.opcode < 0x80
    requires AllExact(c.ret, vs)
    ensures var input := Reply(c, vs) + extra;
      var x := Receive(style, c, [c.opcode], input);
      && x.consumed == |Reply(c, vs)|
      && x.result == (if extra == [] then Ok(vs) else Err(TrailingError(style, |extra|)))
  {
    var op: seq<Byte> := [c.opcode];
    var input := Reply(c, vs) + extra;
    var a := if c.ack then 1 else 0;
    ReplyShape(c, vs, extra);
    if c.ack { assert Take(input, 0, 1) == op; }
    PayloadAccepted(style, c, vs, input, a, extra);
  }

  /** The reply followed by `extra`: the optional echo, then the packed payload,
      the optional second echo and `extra`. */
  lemma ReplyShape(c: CommandSpec, vs: seq<Value>, extra: seq<Byte>)
    requires 0 <= c.opcode < 0x80
    requires AllExact(c.ret, vs)
    ensures Pack(c.ret, vs).Ok?
    ensures var input := Reply(c, vs) + extra; var a := if c.ack then 1 else 0;
      var n := |Pack(c.ret, vs).value|;
      && a + n <= |input|
      && (c.ack ==> input[..1] == [c.opcode as Byte])
      && input[a..a + n] == Pack(c.ret, vs).value
      && input[a + n..] == (if c.postack then [c.opcode as Byte] else []) + extra
  {
    Wire.UnpackPack(c.ret, vs);
    var head: seq<Byte> := if c.ack then [c.opcode as Byte] else [];
    var body := Pack(c.ret, vs).value;
    var post: seq<Byte> := if c.postack then [c.opcode as Byte] else [];
    AppendAssoc(head + body, post, extra);
  }

  /** A payload packed from `vs` at position `p`, then the optional second echo
      and `extra`, is accepted up to `extra`. */
  lemma PayloadAccepted(style: Style, c: CommandSpec, vs: seq<Value>, input: seq<Byte>, p: nat, extra: seq<Byte>)
    requires 0 <= c.opcode < 0x80 && AllExact(c.ret, vs)
    requires Pack(c.ret, vs).Ok? && p + |Pack(c.ret, vs).value| <= |input|
    requires input[p..p + |Pack(c.ret, vs).value|] == Pack(c.ret, vs).value
    requires input[p + |Pack(c.ret, vs).value|..] == (if c.postack then [c.opcode as Byte] else []) + extra
    ensures var x := ReadPayload(style, c, [c.opcode], input, p);
      && x.consumed == |input| - |extra|
      && x.result == (if extra == [] then Ok(vs) else Err(TrailingError(style, |extra|)))
  {
    Wire.UnpackPack(c.ret, vs);
    var body := Pack(c.ret, vs).value;
    assert Take(input, p, Size(c.ret)) == body;
    PayloadUnpacked(style, c, [c.opcode], input, p, vs);
    EchoAccepted(style, c, vs, input, p + Size(c.ret), extra);
  }

  /** A payload that unpacks to `vs` hands over to the second echo right after it. */
  lemma PayloadUnpacked(style: Style, c: CommandSpec, op: seq<Byte>, input: seq<Byte>, p: nat, vs: seq<Value>)
    requires op != [] && p + Size(c.ret) <= |input|
    requires Unpack(c.ret, Take(input, p, Size(c.ret))) == Ok(vs)
    ensures ReadPayload(style, c, op, input, p) == Conclude(style, c, op, input, p + Size(c.ret), vs)
  {
  }

  /** The optional second echo at position `q`, then `extra`. */
  lemma EchoAccepted(style: Style, c: CommandSpec, vs: seq<Value>, input: seq<Byte>, q: nat, extra: seq<Byte>)
    requires 0 <= c.opcode < 0x80 && q <= |input|
    requires input[q..] == (if c.postack then [c.opcode as Byte] else []) + extra
    ensures var x := Conclude(style, c, [c.opcode], input, q, vs);
      && x.consumed == |input| - |extra|
      && x.result == (if extra == [] then Ok(vs) else Err(TrailingError(style, |extra|)))
  {
    if c.postack {
      assert Take(input, q, 1) == [c.opcode as Byte];
    }
  }

  /** What a successful `Conclude` saw: the second echo, if any, and nothing more. */
  lemma ConcludeAccepted(style: Style, c: CommandSpec, input: seq<Byte>, p: nat, vs: seq<Value>, w: seq<Value>)
    requires 0 <= c.opcode < 0x80 && p <= |input|
    requires Conclude(style, c, [c.opcode], input, p, vs).result == Ok(w)
    ensures w == vs && input[p..] == (if c.postack then [c.opcode as Byte] else [])
  {
    if c.postack {
      assert Take(input, p, 1) == [c.opcode as Byte];
    }
  }

  /** What a successful `ReadPayload` saw: a payload that unpacks to its result,
      then what `Conclude` accepts. */
  lemma ReadPayloadAccepted(style: Style, c: CommandSpec, input: seq<Byte>, p: nat, w: seq<Value>)
    requires 0 <= c.opcode < 0x80 && p <= |input|
    requires ReadPayload(style, c, [c.opcode], input, p).result == Ok(w)
    ensures p + Size(c.ret) <= |input|
    ensures Unpack(c.ret, input[p..p + Size(c.ret)]) == Ok(w)
    ensures input[p + Size(c.ret)..] == (if c.postack then [c.opcode as Byte] else [])
  {
    var payload := Take(input, p, Size(c.ret));
    var vs := Unpack(c.ret, payload).value;
    ConcludeAccepted(style, c, input, p + |payload|, vs, w);
  }

  /** What a successful `Receive` saw: the first echo, if any, then what
      `ReadPayload` accepts. */
  lemma ReceiveAccepted(style: Style, c: CommandSpec, input: seq<Byte>, vs: seq<Value>)
    requires 0 <= c.opcode < 0x80
    requires Receive(style, c, [c.opcode], input).result == Ok(vs)
    ensures var a := if c.ack then 1 else 0;
      && a <= |input|
      && input[..a] == (if c.ack then [c.opcode as Byte] else [])
      && ReadPayload(style, c, [c.opcode], input, a).result == Ok(vs)
  {
    if c.ack { assert Take(input, 0, 1) == [c.opcode as Byte]; }
  }

  /** An accepted reply is exactly what a well-behaved device sends. */
  lemma AcceptedIsReply(style: Style, c: CommandSpec, input: seq<Byte>, vs: seq<Value>)
    requires 0 <= c.opcode < 0x80
    requires Receive(style, c, [c.opcode], input).result == Ok(vs)
    ensures AllExact(c.ret, vs) && input == Reply(c, vs)
  {
    ReceiveAccepted(style, c, input, vs);
    var a := if c.ack then 1 else 0;
    ReadPayloadAccepted(style, c, input, a, vs);
    var k := a + Size(c.ret);
    var payload := input[a..k];
    Wire.PackUnpack(c.ret, payload);
    assert Pack(c.ret, vs).value == payload;
    Split3(input, a, k);
  }

  lemma Split3(s: seq<Byte>, a: nat, k: nat)
    requires a <= k <= |s|
    ensures s == s[..a] + s[a..k] + s[k..]
  {
    assert s[..k] == s[..a] + s[a..k];
    assert s == s[..k] + s[k..];
  }

  /** A device that echoes correctly and sends exactly the payload `vs` makes the
      exchange return `vs`, and a successful exchange means the device sent exactly
      that. Both directions hold for both error-reporting styles. */
  lemma ReplyRoundTrip(style: Style, c: CommandSpec, args: seq<Value>, input: seq<Byte>, vs: seq<Value>)
    requires 0 <= c.opcode < 0x80
    requires CountOk(c, args) && Pack(c.args, args).Ok?
    requires AllExact(c.ret, vs)
    ensures Transaction(style, c, args, input).result == Ok(vs) <==> input == Reply(c, vs)
  {
    assert Utf8.EncodeChr(c.opcode) == Ok([c.opcode]);
    if input == Reply(c, vs) {
      ReplyAccepted(style, c, vs, []);
      assert Reply(c, vs) + [] == Reply(c, vs);
    }
    if Transaction(style, c, args, input).result == Ok(vs) {
      AcceptedIsReply(style, c, input, vs);
    }
  }

  /** With `ack` set, an echo that is not the opcode stops the exchange after one
      byte: the payload is never read. */
  lemma AckMismatchStops(style: Style, c: CommandSpec, args: seq<Value>, input: seq<Byte>)
    requires 0 <= c.opcode < 0x80 && c.ack
    requires CountOk(c, args) && Pack(c.args, args).Ok?
    requires |input| > 0 && input[0] != c.opcode
    ensures var x := Transaction(style, c, args, input);
      && x.result == Err(if style == Raising then CommsError(AckMismatch) else AssertionError)
      && x.consumed == 1
      && x.written == [c.opcode as Byte] + Pack(c.args, args).value
  {
    assert Utf8.EncodeChr(c.opcode) == Ok([c.opcode]);
    assert Take(input, 0, 1) == [input[0]];
  }

  /** Bytes left over after a complete reply are reported, and the reply itself was read. */
  lemma TrailingBytesRejected(style: Style, c: CommandSpec, args: seq<Value>, vs: seq<Value>, extra: seq<Byte>)
    requires 0 <= c.opcode < 0x80
    requires CountOk(c, args) && Pack(c.args, args).Ok?
    requires AllExact(c.ret, vs) && |extra| > 0
    ensures var x := Transaction(style, c, args, Reply(c, vs) + extra);
      x.result == Err(TrailingError(style, |extra|)) && x.consumed == |Reply(c, vs)|
  {
    assert Utf8.EncodeChr(c.opcode) == Ok([c.opcode]);
    ReplyAccepted(style, c, vs, extra);
  }

  /** The count check measures bytes, so a command whose argument format is `"H"`
      can never complete: one argument fails the count check before anything is
      written, two arguments pass it and then make `struct.pack` fail after the
      opcode is already on the wire. */
  lemma HCommandNeverSucceeds(style: Style, c: CommandSpec, args: seq<Value>, input: seq<Byte>)
    requires c.args == FmtH
    ensures Transaction(style, c, args, input).result.Err?
    ensures |args| == 1 ==> Transaction(style, c, args, input).written == []
    ensures |args| == 2 && 0 <= c.opcode < 0x80 ==>
      Transaction(style, c, args, input) == Exchange(Err(StructError), [c.opcode as Byte], 0)
  {
    assert Size(FmtH) == 2 && |FmtH| == 1;
    if |args| == 2 && 0 <= c.opcode < 0x80 {
      assert Utf8.EncodeChr(c.opcode) == Ok([c.opcode]);
    }
  }

  /** The evidently intended count check: one argument per format field. */
  predicate FieldCountOk(c: CommandSpec, args: seq<Value>) {
    |args| == |c.args|
  }

  /** `Transaction` with the argument count measured in fields. */
  function TransactionByFields(style: Style, c: CommandSpec, args: seq<Value>, input: seq<Byte>): (x: Exchange<seq<Value>>)
    ensures !FieldCountOk(c, args) ==>
      x == Exchange(Err(if style == Raising then CommandError else AssertionError), [], 0)
    ensures FieldCountOk(c, args) ==> x == Perform(style, c, args, input)
  {
    if !FieldCountOk(c, args) then
      Exchange(Err(if style == Raising then CommandError else AssertionError), [], 0)
    else Perform(style, c, args, input)
  }

  /** Both checks agree on every format without `H` or `s` fields. */
  lemma CountChecksAgree(style: Style, c: CommandSpec, args: seq<Value>, input: seq<Byte>)
    requires c.args in {EmptyFmt, FmtB, FmtBB}
    ensures TransactionByFields(style, c, args, input) == Transaction(style, c, args, input)
  {
    SizeVersusFields();
  }

  /** With the field count, a `"H"` command sends its argument as two bytes, high
      byte first, and completes on a correct echo. */
  lemma HCommandByFields(style: Style, c: CommandSpec, v: int)
    requires c == CommandSpec(c.opcode, true, false, EmptyFmt, FmtH) && 0 <= c.opcode < 0x80
    requires 0 <= v < 65536
    ensures var x := TransactionByFields(style, c, [Int(v)], [c.opcode as Byte]);
      x == Exchange(Ok([]), [c.opcode as Byte, v / 256, v % 256], 1)
  {
    BigEndianH(v);
    assert Utf8.EncodeChr(c.opcode) == Ok([c.opcode]);
    var op: seq<Byte> := [c.opcode];
    assert Take(op, 0, 1) == op;
    assert Unpack(EmptyFmt, Take(op, 1, 0)) == Ok([]);
  }

  /** An opcode of 128 or more is two bytes on the wire, so its one-byte echo never
      matches in model/command.py. */
  lemma WideOpcodeNeverAcknowledged(c: CommandSpec, args: seq<Value>, input: seq<Byte>)
    requires 0x80 <= c.opcode <= 0x7FF && c.ack
    requires CountOk(c, args) && Pack(c.args, args).Ok?
    ensures Transaction(Raising, c, args, input).result.Err?
  {
  }

  /** The same call on a closed port: the count check and `self.cmd` run first,
      and then the first `write` raises SerialException (pyserial refuses I/O on
      a port that is not open); nothing reaches the device. */
  function ClosedTransaction(style: Style, c: CommandSpec, args: seq<Value>): (r: Result<seq<Value>>)
    ensures r.Err?
    ensures !CountOk(c, args) ==> r == Transaction(style, c, args, []).result
    ensures r == Err(SerialError) <==> CountOk(c, args) && Utf8.IsScalar(c.opcode)
  {
    if !CountOk(c, args) then Err(if style == Raising then CommandError else AssertionError)
    else match Utf8.EncodeChr(c.opcode)
      case Err(e) => Err(e)
      case Ok(_) => Err(SerialError)
  }

  // ----- readback -----
  // ----- readback -----

  /** `CommandReadback.__call__` (model/command.py:174-195) and `read_back` of low.py
      (low.py:208-217): write `chr(cmd) + chr(nob)` UTF-8 encoded, read one status
      byte, and when one arrived (whatever its value) read `1 + 2*nob` more bytes and
      decode them as UTF-8; finally no bytes may be pending. */
  function ReadbackTransaction(style: Style, cmd: int, nob: int, input: seq<Byte>): (x: Exchange<Option<seq<int>>>)
    ensures x.consumed <= |input|
    ensures x.result.Ok? ==> Utf8.EncodeText([cmd, nob]).Ok? && x.written == Utf8.EncodeText([cmd, nob]).value
    ensures x.result.Ok? ==> x.consumed == |input|
    ensures Utf8.EncodeText([cmd, nob]).Ok? ==> (x.result == Ok(None) <==> input == [])
    ensures x.result.Ok? && x.result.value.Some? ==>
      0 < |input| <= 2 + 2 * nob && Utf8.Encodes(x.result.value.value, input[1..])
  {
    match Utf8.EncodeText([cmd, nob])
    case Err(e) => Exchange(Err(e), [], 0)
    case Ok(req) =>
      assert Utf8.IsScalar([cmd, nob][1]);
      if input == [] then Exchange(Ok(None), req, 0)
      else
        var buf := Take(input, 1, 1 + 2 * nob);
        var p := 1 + |buf|;
        match Utf8.Decode(buf)
        case None => Exchange(Err(UnicodeError), req, p)
        case Some(cps) =>
          Utf8.DecodeEncodes(buf);
          if p != |input| then Exchange(Err(TrailingError(style, |input| - p)), req, p)
          else Exchange(Ok(Some(cps)), req, p)
  }

  /** The readback on a closed port: the request is encoded, and then the
      `write` raises SerialException. */
  function ClosedReadback(cmd: int, nob: int): (r: Result<Option<seq<int>>>)
    ensures r.Err?
    ensures r == Err(SerialError) <==> Utf8.EncodeText([cmd, nob]).Ok?
    ensures Utf8.EncodeText([cmd, nob]).Err? ==> r == Err(Utf8.EncodeText([cmd, nob]).error)
  {
    match Utf8.EncodeText([cmd, nob])
    case Err(e) => Err(e)
    case Ok(_) => Err(SerialError)
  }

  method Readback(link: Link, style: Style, cmd: int, nob: int) returns (r: Result<Option<seq<int>>>)
    modifies link
    ensures var x := ReadbackTransaction(style, cmd, nob, old(link.input));
      && r == x.result
      && link.output == old(link.output) + x.written
      && link.input == old(link.input)[x.consumed..]
    ensures link.isOpen == old(link.isOpen)
  {
    ghost var input := link.input;
    var req :- Utf8.EncodeText([cmd, nob]);
    assert Utf8.IsScalar([cmd, nob][1]);
    link.Write(req);
    var status := link.Read(1);
    r := Ok(None);
    if status != [] {
      var buf := link.Read(1 + 2 * nob);
      assert buf == Take(input, 1, 1 + 2 * nob);
      var cps := Utf8.Decode(buf);
      if cps.None? {
        return Err(UnicodeError);
      }
      r := Ok(Some(cps.value));
    }
    var pending := link.InWaiting();
    if pending != 0 {
      return Err(TrailingError(style, pending));
    }
  }

  /** The converse: a status byte followed by the UTF-8 encoding of any scalar
      values, `1 + 2*nob` bytes long, is read back as those values. */
  lemma ReadbackUtf8Block(style: Style, cmd: int, nob: nat, status: Byte, cs: seq<int>)
    requires Utf8.EncodeText([cmd, nob]).Ok?
    requires forall i :: 0 <= i < |cs| ==> Utf8.IsScalar(cs[i])
    requires |Utf8.Concat(cs)| == 1 + 2 * nob
    ensures ReadbackTransaction(style, cmd, nob, [status] + Utf8.Concat(cs)).result == Ok(Some(cs))
  {
    var input := [status] + Utf8.Concat(cs);
    assert Take(input, 1, 1 + 2 * nob) == Utf8.Concat(cs);
    Utf8.DecodeConcat(cs);
  }

  /** A count below 128 goes out as the two bytes `cmd, nob`. */
  lemma ReadbackRequestAscii(cmd: int, nob: int)
    requires 0 <= cmd < 0x80 && 0 <= nob < 0x80
    ensures Utf8.EncodeText([cmd, nob]) == Ok([cmd, nob])
  {
    var cs := [cmd, nob];
    forall i | 0 <= i < |cs| ensures Utf8.IsScalar(cs[i]) {
      if i == 0 { } else { assert i == 1; }
    }
    assert cs[1..] == [nob] && [nob][1..] == [];
    assert Utf8.EncodeScalar(cmd) == [cmd] && Utf8.EncodeScalar(nob) == [nob];
    assert Utf8.Concat([nob]) == [nob];
    assert Utf8.Concat(cs) == [cmd, nob];
    assert Utf8.EncodeText(cs).Ok?;
  }

  /** The poller's count of 205 goes out as three bytes, 205 being UTF-8 encoded
      as 0xC3 0x8D. */
  lemma ReadbackRequest205(cmd: int)
    requires 0 <= cmd < 0x80
    ensures Utf8.EncodeText([cmd, 205]) == Ok([cmd, 0xC3, 0x8D])
  {
    var cs := [cmd, 205];
    forall i | 0 <= i < |cs| ensures Utf8.IsScalar(cs[i]) {
      if i == 0 { } else { assert i == 1; }
    }
    assert cs[1..] == [205] && [205][1..] == [];
    assert Utf8.EncodeScalar(cmd) == [cmd] && Utf8.EncodeScalar(205) == [0xC3, 0x8D];
    assert Utf8.Concat([205]) == [0xC3, 0x8D];
    assert Utf8.Concat(cs) == [cmd, 0xC3, 0x8D];
    assert Utf8.EncodeText(cs).Ok?;
  }

  /** A status byte followed by exactly `1 + 2*nob` bytes below 0x80 is returned as
      those byte values. */
  lemma ReadbackAsciiBlock(style: Style, cmd: int, nob: nat, status: Byte, data: seq<Byte>)
    requires 0 <= cmd < 0x80 && nob < 0x80
    requires |data| == 1 + 2 * nob
    requires forall i :: 0 <= i < |data| ==> data[i] < 0x80
    ensures ReadbackTransaction(style, cmd, nob, [status] + data).result == Ok(Some(data))
  {
    ReadbackRequestAscii(cmd, nob);
    var input := [status] + data;
    assert Take(input, 1, 1 + 2 * nob) == data;
    Utf8.DecodeAscii(data);
  }

  /** A reply block whose first byte cannot start a UTF-8 sequence (a stray
      continuation byte, an overlong lead byte, or 0xF5 and above) makes the
      readback raise, although the block has the length asked for. */
  lemma ReadbackRawSampleRejected(style: Style, cmd: int, nob: nat, status: Byte, data: seq<Byte>)
    requires 0 <= cmd < 0x80 && nob < 0x80
    requires |data| == 1 + 2 * nob
    requires 0x80 <= data[0] < 0xC2 || data[0] >= 0xF5
    ensures ReadbackTransaction(style, cmd, nob, [status] + data).result == Err(UnicodeError)
  {
    ReadbackRequestAscii(cmd, nob);
    var input := [status] + data;
    assert Take(input, 1, 1 + 2 * nob) == data;
  }

  /** The evidently intended readback: the request is the two bytes `cmd, nob`
      and the reply block is returned byte for byte, as the commented-out
      `map(ord, ...)` at low.py:213 does. */
  function RawReadbackTransaction(style: Style, cmd: int, nob: int, input: seq<Byte>): (x: Exchange<Option<seq<int>>>)
    ensures x.consumed <= |input|
    ensures !(0 <= cmd < 256 && 0 <= nob < 256) ==> x == Exchange(Err(ValueError), [], 0)
    ensures 0 <= cmd < 256 && 0 <= nob < 256 ==>
      && x.written == [cmd as Byte, nob as Byte]
      && (x.result == Ok(None) <==> input == [])
      && (x.result.Ok? && input != [] ==> x.result == Ok(Some(input[1..])) && |input| <= 2 + 2 * nob)
  {
    if !(0 <= cmd < 256 && 0 <= nob < 256) then Exchange(Err(ValueError), [], 0)
    else
      var req: seq<Byte> := [cmd, nob];
      if input == [] then Exchange(Ok(None), req, 0)
      else
        var buf := Take(input, 1, 1 + 2 * nob);
        var p := 1 + |buf|;
        if p != |input| then Exchange(Err(TrailingError(style, |input| - p)), req, p)
        else
          assert buf == input[1..];
          Exchange(Ok(Some(buf)), req, p)
  }

  /** With the intended readback, any status byte followed by exactly `1 + 2*nob`
      bytes yields those bytes, whatever their values. */
  lemma RawReadbackBlock(style: Style, cmd: Byte, nob: Byte, status: Byte, data: seq<Byte>)
    requires |data| == 1 + 2 * nob
    ensures RawReadbackTransaction(style, cmd, nob, [status] + data).result == Ok(Some(data))
  {
    var input := [status] + data;
    assert Take(input, 1, 1 + 2 * nob) == data;
  }

  // ----- set DAC -----

  /** The two argument bytes of Set DAC: `B1 = 0x80*(ch % 2) + 0x10 + (dac >> 8)`
      and `B2 = dac & 0xFF`, with Python's floor semantics for `%`, `>>` and `&`. For a
      12-bit value, bit 7 of B1 is the channel, bit 4 is set, and the low nibble
      of B1 with B2 is the value. */
  function DacBytes(ch: int, dac: int): (b: (int, int))
    ensures 0 <= b.1 < 256
    ensures 0 <= dac < 4096 ==>
      && 0 <= b.0 < 256
      && b.0 / 128 == ch % 2
      && (b.0 / 16) % 2 == 1
      && (b.0 % 16) * 256 + b.1 == dac
  {
    (0x80 * (ch % 2) + 0x10 + dac / 256, dac % 256)
  }

  /** `CommandSetDac.__call__` (model/command.py:202-216): pack, then an ordinary exchange. */
  method SetDac(link: Link, c: CommandSpec, ch: int, dac: int) returns (r: Result<seq<Value>>)
    modifies link
    ensures var b := DacBytes(ch, dac);
      var x := Transaction(Raising, c, [Int(b.0), Int(b.1)], old(link.input));
      && r == x.result
      && link.output == old(link.output) + x.written
      && link.input == old(link.input)[x.consumed..]
    ensures link.isOpen == old(link.isOpen)
  {
    var b := DacBytes(ch, dac);
    r := Send(link, Raising, c, [Int(b.0), Int(b.1)]);
  }
}
