/** A recording stand-in for `DPScopeInterface`, used by the controller helpers:
    it keeps the list of commands that reached the device, fails the commands
    it is told to fail with CommsException, answers value-returning commands
    from a fixed table, and answers readbacks from a script. Each request is
    tied to the command descriptor and argument bytes of the wire model. */
module Scope {
  import opened Common
  import opened Wire
  import opened Command
  import Interface

  /** A call on the interface, with the arguments the caller passes. */
  datatype Request =
    | AdconFrom(v: int)
    | SetDac(ch: int, dac: int)
    | MeasureOffset
    | ReadAdc
    | TrigSource(v: int)
    | TrigPol(v: int)
    | Arm(v: int)
    | ArmFft(args: seq<int>)
    | Abort
    | ReadBack(nob: int)

  /** The descriptor of the interface attribute a request calls. */
  function SpecOf(q: Request): CommandSpec
    requires !q.ReadBack?
  {
    match q
    case AdconFrom(_) => Interface.AdconFrom
    case SetDac(_, _) => Interface.SetDacSpec
    case MeasureOffset => Interface.MeasureOffset
    case ReadAdc => Interface.ReadAdc
    case TrigSource(_) => Interface.TrigSource
    case TrigPol(_) => Interface.TrigPol
    case Arm(_) => Interface.Arm
    case ArmFft(_) => Interface.ArmFft
    case Abort => Interface.Abort
  }

  /** The argument values the command packs; Set DAC packs its two bytes. */
  function ArgsOf(q: Request): seq<int>
    requires !q.ReadBack?
  {
    match q
    case AdconFrom(v) => [v]
    case SetDac(ch, dac) => var b := DacBytes(ch, dac); [b.0, b.1]
    case MeasureOffset => []
    case ReadAdc => []
    case TrigSource(v) => [v]
    case TrigPol(v) => [v]
    case Arm(v) => [v]
    case ArmFft(args) => args
    case Abort => []
  }

  function Ints(xs: seq<int>): (vs: seq<Value>)
    ensures |vs| == |xs| && forall i :: 0 <= i < |xs| ==> vs[i] == Int(xs[i])
  {
    seq(|xs|, i requires 0 <= i < |xs| => Int(xs[i]))
  }

  /** Why a request never reaches the device, if it does not: the argument-count
      check, or `struct.pack` refusing a value. */
  function Refusal(q: Request): Option<Error>
    requires !q.ReadBack?
  {
    var c := SpecOf(q);
    if !CountOk(c, Ints(ArgsOf(q))) then Some(CommandError)
    else if Pack(c.args, Ints(ArgsOf(q))).Err? then Some(StructError)
    else None
  }

  class FakeScope {
    /** The requests that reached the device, oldest first. */
    var log: seq<Request>
    /** Opcodes whose exchange raises CommsException. */
    const failing: set<int>
    /** The payload each value-returning opcode answers with. */
    const answers: map<int, seq<int>>
    /** What successive readbacks return. */
    var blocks: seq<Option<seq<int>>>

    constructor (failing: set<int>, answers: map<int, seq<int>>, blocks: seq<Option<seq<int>>>)
      ensures log == [] && this.failing == failing && this.answers == answers && this.blocks == blocks
    {
      log := [];
      this.failing := failing;
      this.answers := answers;
      this.blocks := blocks;
    }

    /** The result of an ordinary request. */
    function Answer(q: Request): (r: Result<seq<int>>)
      requires !q.ReadBack?
      ensures Refusal(q).Some? ==> r == Err(Refusal(q).value)
      ensures Refusal(q).None? ==> (r.Err? <==> SpecOf(q).opcode in failing)
    {
      var op := SpecOf(q).opcode;
      if Refusal(q).Some? then Err(Refusal(q).value)
      else if op in failing then Err(CommsError(DeviceFault))
      else Ok(Payload(answers, op))
    }

    method Send(q: Request) returns (r: Result<seq<int>>)
      requires !q.ReadBack?
      modifies this`log
      ensures r == Answer(q)
      ensures log == old(log) + (if Refusal(q).None? then [q] else [])
    {
      r := Answer(q);
      if Refusal(q).None? {
        log := log + [q];
      }
    }

    /** `read_back(nob)`: the next scripted block. An exhausted script stands for
        a device that never reports a block and raises NoDataYet. */
    method ReadBack(nob: int) returns (r: Result<Option<seq<int>>>)
      modifies this`log, this`blocks
      ensures log == old(log) + [Request.ReadBack(nob)]
      ensures Interface.ReadBackOpcode in failing ==>
        r == Err(CommsError(DeviceFault)) && blocks == old(blocks)
      ensures Interface.ReadBackOpcode !in failing && old(blocks) == [] ==>
        r == Err(NoDataYet) && blocks == []
      ensures Interface.ReadBackOpcode !in failing && old(blocks) != [] ==>
        r == Ok(old(blocks)[0]) && blocks == old(blocks)[1..]
    {
      log := log + [Request.ReadBack(nob)];
      if Interface.ReadBackOpcode in failing {
        return Err(CommsError(DeviceFault));
      }
      if blocks == [] {
        return Err(NoDataYet);
      }
      r := Ok(blocks[0]);
      blocks := blocks[1..];
    }
  }

  /** The arguments the helpers send are accepted, and the opcode is the one of
      the interface table. */
  lemma HelperRequestsAccepted(v: int, ch: int, dac: int)
    requires 0 <= v < 256 && 0 <= dac < 4096
    ensures Refusal(AdconFrom(v)).None? && Refusal(Arm(v)).None?
    ensures Refusal(TrigSource(v)).None? && Refusal(TrigPol(v)).None?
    ensures Refusal(SetDac(ch, dac)).None?
    ensures Refusal(MeasureOffset).None? && Refusal(ReadAdc).None? && Refusal(Abort).None?
  {
    OneByteAccepted(v);
    DacAccepted(ch, dac);
  }

  /** A one-byte argument packs as `"B"`. */
  lemma OneByteAccepted(v: int)
    requires 0 <= v < 256
    ensures Refusal(AdconFrom(v)).None? && Refusal(Arm(v)).None?
    ensures Refusal(TrigSource(v)).None? && Refusal(TrigPol(v)).None?
  {
    PackBB(0, v);
    assert Ints([v]) == [Int(v)];
  }

  /** The two Set DAC bytes pack as `"BB"`. */
  lemma DacAccepted(ch: int, dac: int)
    requires 0 <= dac < 4096
    ensures Refusal(SetDac(ch, dac)).None?
  {
    var b := DacBytes(ch, dac);
    PackBB(b.0, b.1);
    assert Ints([b.0, b.1]) == [Int(b.0), Int(b.1)];
  }

  /** `arm_fft()` with no arguments fails the count check of its `"BB"` format. */
  lemma ArmFftWithoutArgumentsRefused()
    ensures Refusal(ArmFft([])) == Some(CommandError)
  {
  }

  /** The fake answers as a well-behaved device would: for an accepted request
      whose payload fits the reply format, the request's exchange on the wire
      writes the opcode and the packed argument bytes and returns the payload. */
  lemma FakeIsWellBehaved(q: Request, payload: seq<Value>)
    requires !q.ReadBack? && Refusal(q).None?
    requires AllExact(SpecOf(q).ret, payload)
    ensures var c := SpecOf(q);
      var x := Transaction(Raising, c, Ints(ArgsOf(q)), Reply(c, payload));
      x.result == Ok(payload) && x.written == [c.opcode as Byte] + Pack(c.args, Ints(ArgsOf(q))).value
  {
    var c := SpecOf(q);
    var args := Ints(ArgsOf(q));
    assert 0 <= c.opcode < 0x80;
    ReplyRoundTrip(Raising, c, args, Reply(c, payload), payload);
    assert Utf8.EncodeChr(c.opcode) == Ok([c.opcode]);
  }

  /** The payload the fake answers opcode `op` with. */
  function Payload(answers: map<int, seq<int>>, op: int): seq<int> {
    if op in answers then answers[op] else []
  }

  /** The commands the voltage helpers send, with arguments that always pass
      the count check and pack. */
  predicate Routine(q: Request) {
    || q == ReadAdc || q == MeasureOffset || q == Abort
    || ((q.AdconFrom? || q.TrigSource? || q.TrigPol? || q.Arm?) && 0 <= q.v < 256)
    || (q.SetDac? && 0 <= q.dac < 4096)
  }

  /** One routine command: it reaches the device, and raises CommsException
      exactly when its opcode fails; otherwise it returns the scripted payload. */
  method Issue(scope: FakeScope, q: Request) returns (r: Result<seq<int>>)
    requires Routine(q)
    modifies scope`log
    ensures r.Err? <==> SpecOf(q).opcode in scope.failing
    ensures r.Err? ==> r.error == CommsError(DeviceFault)
    ensures r.Ok? ==> r.value == Payload(scope.answers, SpecOf(q).opcode)
    ensures scope.log == old(scope.log) + [q]
  {
    if q.SetDac? {
      HelperRequestsAccepted(0, q.ch, q.dac);
    } else if q.AdconFrom? || q.TrigSource? || q.TrigPol? || q.Arm? {
      HelperRequestsAccepted(q.v, 0, 0);
    } else {
      HelperRequestsAccepted(0, 0, 0);
    }
    r := scope.Send(q);
  }
}
