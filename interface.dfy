/** The command table of `DPScopeInterface` (model/interface.py) and the
    open/close logic of its serial port. */
module Interface {
  import opened Common
  import opened Wire
  import opened Command
  import opened SerialLink

  // No argument.
  const ReadAdc := CommandSpec(3, true, false, FmtBB, EmptyFmt)
  const Ping := CommandSpec(4, false, false, Fmt7s, EmptyFmt)
  const Revision := CommandSpec(5, false, false, FmtBB, EmptyFmt)
  const Abort := CommandSpec(6, true, false, EmptyFmt, EmptyFmt)
  const ReadAdc10 := CommandSpec(7, true, true, FmtHH, EmptyFmt)
  const MeasureOffset := CommandSpec(8, true, true, FmtHH, EmptyFmt)

  // One argument byte.
  const TrigSource := CommandSpec(21, true, false, EmptyFmt, FmtB)
  const TrigPol := CommandSpec(22, true, false, EmptyFmt, FmtB)
  const ReadBackOpcode := 23
  const SampleRate := CommandSpec(24, true, false, EmptyFmt, FmtB)
  const NoiseReject := CommandSpec(25, true, false, EmptyFmt, FmtB)
  const Arm := CommandSpec(26, true, false, EmptyFmt, FmtB)
  const AdconFrom := CommandSpec(27, true, false, EmptyFmt, FmtB)
  const CalMode := CommandSpec(28, true, false, EmptyFmt, FmtB)
  const PretriggerMode := CommandSpec(29, true, false, EmptyFmt, FmtB)
  const TimerPrescale := CommandSpec(30, true, false, EmptyFmt, FmtB)
  const PostTrigCnt := CommandSpec(31, true, false, EmptyFmt, FmtB)
  const SerialTx := CommandSpec(32, true, false, EmptyFmt, FmtB)
  const StatusLed := CommandSpec(33, true, false, EmptyFmt, FmtB)

  // Two argument bytes.
  const TrigLevel := CommandSpec(41, true, false, EmptyFmt, FmtH)
  const PreGain := CommandSpec(42, true, false, EmptyFmt, FmtBB)
  const Gain := CommandSpec(43, true, false, EmptyFmt, FmtBB)
  const SetDacSpec := CommandSpec(44, true, false, EmptyFmt, FmtBB)
  const ArmFft := CommandSpec(45, true, false, EmptyFmt, FmtBB)
  const SetDelay := CommandSpec(49, true, false, EmptyFmt, FmtH)
  const TimerPeriod := CommandSpec(51, true, false, EmptyFmt, FmtH)

  /** How an attribute of the interface talks to the device: an ordinary
      `Command`, the `CommandReadback` exchange, or `CommandSetDac`. */
  datatype Kind = Plain(spec: CommandSpec) | Readback(opcode: int) | DacSetter(spec: CommandSpec)

  datatype Entry = Entry(name: string, kind: Kind)

  function Opcode(k: Kind): int {
    match k
    case Plain(c) => c.opcode
    case Readback(n) => n
    case DacSetter(c) => c.opcode
  }

  /** The attributes `DPScopeInterface.__init__` creates, in order. */
  const Table: seq<Entry> := [
    Entry("read_adc", Plain(ReadAdc)),
    Entry("ping", Plain(Ping)),
    Entry("revision", Plain(Revision)),
    Entry("abort", Plain(Abort)),
    Entry("read_adc_10", Plain(ReadAdc10)),
    Entry("measure_offset", Plain(MeasureOffset)),
    Entry("trig_source", Plain(TrigSource)),
    Entry("trig_pol", Plain(TrigPol)),
    Entry("read_back", Readback(ReadBackOpcode)),
    Entry("sample_rate", Plain(SampleRate)),
    Entry("noise_reject", Plain(NoiseReject)),
    Entry("arm", Plain(Arm)),
    Entry("adcon_from", Plain(AdconFrom)),
    Entry("cal_mode", Plain(CalMode)),
    Entry("pretriggger_mode", Plain(PretriggerMode)),
    Entry("timer_prescale", Plain(TimerPrescale)),
    Entry("post_trig_cnt", Plain(PostTrigCnt)),
    Entry("serial_tx", Plain(SerialTx)),
    Entry("status_led", Plain(StatusLed)),
    Entry("trig_level", Plain(TrigLevel)),
    Entry("pre_gain", Plain(PreGain)),
    Entry("gain", Plain(Gain)),
    Entry("set_dac", DacSetter(SetDacSpec)),
    Entry("arm_fft", Plain(ArmFft)),
    Entry("set_delay", Plain(SetDelay)),
    Entry("timer_period", Plain(TimerPeriod))
  ]

  function Opcodes(t: seq<Entry>): (ops: seq<int>)
    ensures |ops| == |t| && forall i :: 0 <= i < |t| ==> ops[i] == Opcode(t[i].kind)
  {
    seq(|t|, i requires 0 <= i < |t| => Opcode(t[i].kind))
  }

  function SpecOpcodes(cs: seq<CommandSpec>): (ops: seq<int>)
    ensures |ops| == |cs| && forall i :: 0 <= i < |cs| ==> ops[i] == cs[i].opcode
  {
    seq(|cs|, i requires 0 <= i < |cs| => cs[i].opcode)
  }

  predicate Increasing(s: seq<int>) {
    forall i :: 0 <= i < |s| - 1 ==> s[i] < s[i + 1]
  }

  /** In a strictly increasing sequence every element is below every later one. */
  lemma {:induction false} IncreasingChain(s: seq<int>, i: nat, j: nat)
    requires Increasing(s) && i < j < |s|
    ensures s[i] < s[j]
    decreases j - i
  {
    if i + 1 < j {
      IncreasingChain(s, i + 1, j);
    }
  }

  /** The opcodes the table is meant to carry, in order. */
  const TableOpcodeList: seq<int> :=
    [3, 4, 5, 6, 7, 8, 21, 22, 23, 24, 25, 26, 27, 28, 29, 30, 31, 32, 33, 41, 42, 43, 44, 45, 49, 51]

  /** The table's opcodes, in order: they rise strictly from 3 to 51. */
  lemma TableOpcodes()
    ensures Opcodes(Table) == TableOpcodeList
    ensures Increasing(Opcodes(Table))
    ensures Table[8] == Entry("read_back", Readback(ReadBackOpcode))
  {
    TableOpcodesMatch();
    OpcodeListIncreasing();
  }

  lemma TableOpcodesMatch()
    ensures Opcodes(Table) == TableOpcodeList
  {
    forall i | 0 <= i < 13 ensures Opcode(Table[i].kind) == TableOpcodeList[i] {
    }
    forall i | 13 <= i < 26 ensures Opcode(Table[i].kind) == TableOpcodeList[i] {
    }
  }

  lemma OpcodeListIncreasing()
    ensures Increasing(TableOpcodeList)
  {
  }

  /** No two entries of the table share an opcode, and every opcode is below 128,
      so each goes out as a single byte. */
  lemma OpcodesDistinct()
    ensures forall i, j :: 0 <= i < j < |Table| ==> Opcode(Table[i].kind) != Opcode(Table[j].kind)
    ensures forall i :: 0 <= i < |Table| ==> 3 <= Opcode(Table[i].kind) <= 51
  {
    TableOpcodes();
    var ops := Opcodes(Table);
    forall i, j | 0 <= i < j < |Table| ensures Opcode(Table[i].kind) != Opcode(Table[j].kind) {
      IncreasingChain(ops, i, j);
    }
    forall i | 0 <= i < |Table| ensures 3 <= Opcode(Table[i].kind) <= 51 {
      if 0 < i { IncreasingChain(ops, 0, i); }
      if i < |Table| - 1 { IncreasingChain(ops, i, |Table| - 1); }
    }
  }

  /** The commands that set one register: 21, 22 and 24 to 33 (23 is the
      readback entry). */
  const OneByte: seq<CommandSpec> := [TrigSource, TrigPol, SampleRate, NoiseReject, Arm, AdconFrom, CalMode,
                                      PretriggerMode, TimerPrescale, PostTrigCnt, SerialTx, StatusLed]

  /** They all expect the echo, take one `B` argument and return nothing. */
  lemma OneByteCommands()
    ensures forall i :: 0 <= i < |OneByte| ==>
      OneByte[i].ack && !OneByte[i].postack && OneByte[i].args == FmtB && OneByte[i].ret == EmptyFmt
    ensures SpecOpcodes(OneByte) == [21, 22, 24, 25, 26, 27, 28, 29, 30, 31, 32, 33]
  {
    forall i | 0 <= i < 6
      ensures OneByte[i].ack && !OneByte[i].postack && OneByte[i].args == FmtB && OneByte[i].ret == EmptyFmt {
    }
    forall i | 6 <= i < 12
      ensures OneByte[i].ack && !OneByte[i].postack && OneByte[i].args == FmtB && OneByte[i].ret == EmptyFmt {
    }
  }

  /** read_adc: echo, then one byte per channel. */
  lemma ReadAdcReply(a: Byte, b: Byte)
    ensures Transaction(Raising, ReadAdc, [], [3, a, b]) == Exchange(Ok([Int(a), Int(b)]), [3], 3)
  {
    var vs := [Int(a), Int(b)];
    assert AllExact(FmtBB, vs);
    ReplyAccepted(Raising, ReadAdc, vs, []);
    PackBB(a, b);
    assert Reply(ReadAdc, vs) + [] == [3, a, b];
    assert Utf8.EncodeChr(3) == Ok([3]);
  }

  /** ping is sent without waiting for an echo: its reply is the 7-byte string alone. */
  lemma PingWithoutEcho(s: seq<Byte>)
    requires |s| == 7
    ensures Transaction(Raising, Ping, [], s) == Exchange(Ok([Bytes(s)]), [4], 7)
  {
    assert Utf8.EncodeChr(4) == Ok([4]);
    var ping := [Bytes(s)];
    assert AllExact(Fmt7s, ping);
    ReplyAccepted(Raising, Ping, ping, []);
    assert Pack(Fmt7s, ping).value == s by {
      assert Fmt7s[1..] == [] && ping[1..] == [];
      assert s[..7] == s;
    }
    assert Reply(Ping, ping) + [] == s;
  }

  /** revision is sent without waiting for an echo: its reply is the two bytes alone. */
  lemma RevisionWithoutEcho(a: Byte, b: Byte)
    ensures Transaction(Raising, Revision, [], [a, b]) == Exchange(Ok([Int(a), Int(b)]), [5], 2)
  {
    assert Utf8.EncodeChr(5) == Ok([5]);
    var rev := [Int(a), Int(b)];
    assert AllExact(FmtBB, rev);
    ReplyAccepted(Raising, Revision, rev, []);
    PackBB(a, b);
    assert Reply(Revision, rev) == [a, b];
    assert Reply(Revision, rev) + [] == [a, b];
    assert Pack(EmptyFmt, []) == Ok([]);
  }

  /** read_adc_10 and measure_offset are echoed before and after two big-endian words. */
  lemma WordPairReply(c: CommandSpec, u: int, v: int)
    requires c == ReadAdc10 || c == MeasureOffset
    requires 0 <= u < 65536 && 0 <= v < 65536
    ensures var op: Byte := c.opcode;
      Transaction(Raising, c, [], [op, u / 256, u % 256, v / 256, v % 256, op])
        == Exchange(Ok([Int(u), Int(v)]), [op], 6)
  {
    var op: Byte := c.opcode;
    var vs := [Int(u), Int(v)];
    assert c.ack && c.postack && c.ret == FmtHH && c.args == EmptyFmt;
    assert AllExact(FmtHH, vs);
    ReplyAccepted(Raising, c, vs, []);
    PackHH(u, v);
    var w: seq<Byte> := [u / 256, u % 256, v / 256, v % 256];
    assert Reply(c, vs) == [op] + w + [op];
    assert [op] + w + [op] + [] == [op, u / 256, u % 256, v / 256, v % 256, op];
    assert Utf8.EncodeChr(c.opcode) == Ok([op]);
  }

  /** `DPScopeInterface`: one serial connection shared by every command. */
  class DPScopeInterface {
    const conn: Link

    /** `Serial(port, 500000, timeout=1)` opens the port at construction. */
    constructor (pending: seq<Byte>)
      ensures fresh(conn) && conn.isOpen && conn.output == [] && conn.input == pending
    {
      conn := new Link(pending);
    }

    /** `open`: an open port is closed first, so opening always succeeds. */
    method Open()
      modifies conn
      ensures conn.isOpen
      ensures conn.output == old(conn.output) && conn.input == old(conn.input)
    {
      if conn.isOpen {
        conn.Close();
      }
      var o := conn.Open();
      assert o == Pass;
    }

    /** `close`: closes an open port; a closed one is left alone. */
    method Close()
      modifies conn
      ensures !conn.isOpen
      ensures conn.output == old(conn.output) && conn.input == old(conn.input)
    {
      if conn.isOpen {
        conn.Close();
      }
    }

    /** `__enter__`: open, and hand back the interface itself. */
    method Enter() returns (self: DPScopeInterface)
      modifies conn
      ensures self == this && conn.isOpen
      ensures conn.output == old(conn.output) && conn.input == old(conn.input)
    {
      Open();
      self := this;
    }

    /** `__exit__`. */
    method Exit()
      modifies conn
      ensures !conn.isOpen
      ensures conn.output == old(conn.output) && conn.input == old(conn.input)
    {
      Close();
    }

    /** Calling one of the ordinary command attributes: the exchange on an open
        port, SerialException (after the count check) on a closed one. */
    method Call(c: CommandSpec, args: seq<Value>) returns (r: Result<seq<Value>>)
      modifies conn
      ensures old(conn.isOpen) ==>
        var x := Transaction(Raising, c, args, old(conn.input));
        && r == x.result
        && conn.output == old(conn.output) + x.written
        && conn.input == old(conn.input)[x.consumed..]
      ensures !old(conn.isOpen) ==>
        r == ClosedTransaction(Raising, c, args) && conn.output == old(conn.output) && conn.input == old(conn.input)
      ensures conn.isOpen == old(conn.isOpen)
    {
      if !conn.isOpen {
        return ClosedTransaction(Raising, c, args);
      }
      r := Send(conn, Raising, c, args);
    }

    /** `read_back(nob)`. */
    method ReadBack(nob: int) returns (r: Result<Option<seq<int>>>)
      modifies conn
      ensures old(conn.isOpen) ==>
        var x := ReadbackTransaction(Raising, ReadBackOpcode, nob, old(conn.input));
        && r == x.result
        && conn.output == old(conn.output) + x.written
        && conn.input == old(conn.input)[x.consumed..]
      ensures !old(conn.isOpen) ==>
        r == ClosedReadback(ReadBackOpcode, nob) && conn.output == old(conn.output) && conn.input == old(conn.input)
      ensures conn.isOpen == old(conn.isOpen)
    {
      if !conn.isOpen {
        return ClosedReadback(ReadBackOpcode, nob);
      }
      r := Command.Readback(conn, Raising, ReadBackOpcode, nob);
    }

    /** `set_dac(ch, dac)`. */
    method SetDac(ch: int, dac: int) returns (r: Result<seq<Value>>)
      modifies conn
      ensures var b := DacBytes(ch, dac);
        var x := Transaction(Raising, SetDacSpec, [Int(b.0), Int(b.1)], old(conn.input));
        old(conn.isOpen) ==>
        && r == x.result
        && conn.output == old(conn.output) + x.written
        && conn.input == old(conn.input)[x.consumed..]
      ensures var b := DacBytes(ch, dac);
        !old(conn.isOpen) ==>
        r == ClosedTransaction(Raising, SetDacSpec, [Int(b.0), Int(b.1)])
        && r == Err(SerialError) && conn.output == old(conn.output) && conn.input == old(conn.input)
      ensures conn.isOpen == old(conn.isOpen)
    {
      if !conn.isOpen {
        var b := DacBytes(ch, dac);
        return ClosedTransaction(Raising, SetDacSpec, [Int(b.0), Int(b.1)]);
      }
      r := Command.SetDac(conn, SetDacSpec, ch, dac);
    }
  }
}
