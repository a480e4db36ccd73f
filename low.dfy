/** The older driver in low.py: a `Command` class like the one of
    model/command.py, and the `DPScope` class whose commands are made by the
    `_cmd` factory and report failures with `assert`. */
module Low {
  import opened Common
  import opened Wire
  import opened Command
  import opened SerialLink
  import opened Interface

  // ----- the legacy Command class -----

  /** `Command.__call__` of low.py as written: after the count check it calls
      `self.write`, an attribute the class does not have, so every call that
      passes the check raises AttributeError before a byte is written. */
  function LegacyCall(c: CommandSpec, args: seq<Value>, input: seq<Byte>): (x: Exchange<seq<Value>>)
    ensures x.written == [] && x.consumed == 0
    ensures x.result == Err(if CountOk(c, args) then AttributeError else CommandError)
  {
    if !CountOk(c, args) then Exchange(Err(CommandError), [], 0)
    else Exchange(Err(AttributeError), [], 0)
  }

  /** No reply, however well-formed, gets through the legacy class, while the
      same exchange in model/command.py accepts it. */
  lemma LegacyCallNeverTalks(c: CommandSpec, args: seq<Value>, vs: seq<Value>)
    requires 0 <= c.opcode < 0x80
    requires CountOk(c, args) && Pack(c.args, args).Ok? && AllExact(c.ret, vs)
    ensures LegacyCall(c, args, Reply(c, vs)).result == Err(AttributeError)
    ensures Transaction(Raising, c, args, Reply(c, vs)).result == Ok(vs)
  {
    ReplyRoundTrip(Raising, c, args, Reply(c, vs), vs);
  }

  // ----- the DPScope class -----

  /** The commands `_cmd` makes, in the order of the class body; `pre_gain` is
      created with opcode 41, the opcode of `trig_level`. */
  const LegacyPreGain := CommandSpec(41, true, false, EmptyFmt, FmtBB)

  const LegacyTable: seq<Entry> := [
    Entry("read_adc", Plain(ReadAdc)),
    Entry("ping", Plain(Ping)),
    Entry("revision", Plain(Revision)),
    Entry("abort", Plain(Abort)),
    Entry("read_adc_10", Plain(ReadAdc10)),
    Entry("measure_offset", Plain(MeasureOffset)),
    Entry("trig_source", Plain(TrigSource)),
    Entry("trig_pol", Plain(TrigPol)),
    Entry("read_back", Readback(ReadBackOpcode)),
    Entry("sample_rate", Plain(SampleRate)),
    Entry("noise_reject", Plain(NoiseReject)),
    Entry("arm", Plain(Arm)),
    Entry("adcon_from", Plain(AdconFrom)),
    Entry("cal_mode", Plain(CalMode)),
    Entry("pretriggger_mode", Plain(PretriggerMode)),
    Entry("timer_prescale", Plain(TimerPrescale)),
    Entry("post_trig_cnt", Plain(PostTrigCnt)),
    Entry("serial_tx", Plain(SerialTx)),
    Entry("status_led", Plain(StatusLed)),
    Entry("trig_level", Plain(TrigLevel)),
    Entry("pre_gain", Plain(LegacyPreGain)),
    Entry("gain", Plain(Gain)),
    Entry("set_dac", DacSetter(SetDacSpec)),
    Entry("arm_fft", Plain(ArmFft)),
    Entry("set_delay", Plain(SetDelay)),
    Entry("timer_period", Plain(TimerPeriod))
  ]

  /** The legacy table is the newer one except that `pre_gain` repeats the opcode
      of `trig_level`, so its opcodes are not distinct. */
  lemma LegacyPreGainCollides()
    ensures |LegacyTable| == |Table|
    ensures Opcodes(LegacyTable) == Opcodes(Table)[20 := 41]
    ensures LegacyTable[19].name == "trig_level" && LegacyTable[20].name == "pre_gain"
    ensures Opcode(LegacyTable[19].kind) == Opcode(LegacyTable[20].kind) == 41
    ensures !(forall i, j :: 0 <= i < j < |LegacyTable| ==> Opcode(LegacyTable[i].kind) != Opcode(LegacyTable[j].kind))
  {
    TableOpcodes();
    assert Opcodes(LegacyTable) == [3, 4, 5, 6, 7, 8, 21, 22, 23, 24, 25, 26, 27, 28, 29, 30, 31, 32, 33,
                                    41, 41, 43, 44, 45, 49, 51];
  }

  /** Both error-reporting styles perform the same reads and writes and succeed
      on the same replies with the same values; they differ only in the
      exception raised. */
  predicate SameExchange<T(==)>(x: Exchange<T>, y: Exchange<T>) {
    && x.written == y.written && x.consumed == y.consumed
    && (x.result.Ok? <==> y.result.Ok?)
    && (x.result.Ok? ==> x.result == y.result)
  }

  lemma ConcludeStyles(c: CommandSpec, input: seq<Byte>, p: nat, vs: seq<Value>)
    requires 0 <= c.opcode < 0x80 && p <= |input|
    ensures SameExchange(Conclude(Raising, c, [c.opcode], input, p, vs),
                         Conclude(Asserting, c, [c.opcode], input, p, vs))
  {
  }

  lemma ReadPayloadStyles(c: CommandSpec, input: seq<Byte>, p: nat)
    requires 0 <= c.opcode < 0x80 && p <= |input|
    ensures SameExchange(ReadPayload(Raising, c, [c.opcode], input, p),
                         ReadPayload(Asserting, c, [c.opcode], input, p))
  {
    var payload := Take(input, p, Size(c.ret));
    if Unpack(c.ret, payload).Ok? {
      ConcludeStyles(c, input, p + |payload|, Unpack(c.ret, payload).value);
    }
  }

  /** `_cmd` performs the exchange of `Command.__call__`: for every opcode below 128
      and every argument list and pending input, the bytes written, the bytes read
      and the value returned on success are the same. */
  lemma CmdImplMatchesCommand(c: CommandSpec, args: seq<Value>, input: seq<Byte>)
    requires 0 <= c.opcode < 0x80
    ensures SameExchange(Transaction(Raising, c, args, input), Transaction(Asserting, c, args, input))
  {
    if CountOk(c, args) && Pack(c.args, args).Ok? {
      assert Utf8.EncodeChr(c.opcode) == Ok([c.opcode]);
      ReadPayloadStyles(c, input, if c.ack then |Take(input, 0, 1)| else 0);
    }
  }

  /** The same for the readback exchange. */
  lemma ReadBackMatchesCommand(nob: int, input: seq<Byte>)
    ensures SameExchange(ReadbackTransaction(Raising, ReadBackOpcode, nob, input),
                         ReadbackTransaction(Asserting, ReadBackOpcode, nob, input))
  {
  }

  /** A method made by `_cmd`. */
  method CmdImpl(scope: Link, c: CommandSpec, params: seq<Value>) returns (r: Result<seq<Value>>)
    modifies scope
    ensures var x := Transaction(Asserting, c, params, old(scope.input));
      && r == x.result
      && scope.output == old(scope.output) + x.written
      && scope.input == old(scope.input)[x.consumed..]
  {
    r := Send(scope, Asserting, c, params);
  }

  /** `DPScope.read_back`: the request is `chr(23) + chr(nob)`. */
  method ReadBack(scope: Link, nob: int) returns (r: Result<Option<seq<int>>>)
    modifies scope
    ensures var x := ReadbackTransaction(Asserting, ReadBackOpcode, nob, old(scope.input));
      && r == x.result
      && scope.output == old(scope.output) + x.written
      && scope.input == old(scope.input)[x.consumed..]
  {
    r := Command.Readback(scope, Asserting, ReadBackOpcode, nob);
  }

  /** `DPScope.set_dac`: the bytes of `CommandSetDac`, sent through `_set_dac`,
      whose reply is discarded. */
  method SetDac(scope: Link, ch: int, dac: int) returns (o: Outcome)
    modifies scope
    ensures var b := DacBytes(ch, dac);
      var x := Transaction(Asserting, SetDacSpec, [Int(b.0), Int(b.1)], old(scope.input));
      && o == (if x.result.Ok? then Pass else Fail(x.result.error))
      && scope.output == old(scope.output) + x.written
      && scope.input == old(scope.input)[x.consumed..]
  {
    var b := DacBytes(ch, dac);
    var r := Send(scope, Asserting, SetDacSpec, [Int(b.0), Int(b.1)]);
    o := if r.Ok? then Pass else Fail(r.error);
  }
}
