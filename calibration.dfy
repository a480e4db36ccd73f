/** The USB-reference calibration and voltage conversion of `VoltageCalc`, in
    model/controller/helper/__init__.py (per-channel gains) and in the older
    model/controller/helper.py (one gain for both channels). Arithmetic is over
    `real`, an idealisation of Python floats. */
module Calibration {
  import opened Common
  import opened Scope

  /** Python's `sum`. */
  function Sum(xs: seq<int>): int {
    if xs == [] then 0 else xs[0] + Sum(xs[1..])
  }

  /** The commands a calibration issues, in order. */
  const CalibrationRequests: seq<Request> := [
    AdconFrom(0), SetDac(0, 3000), SetDac(1, 3000), MeasureOffset, SetDac(0, 0), SetDac(1, 0)
  ]

  predicate Ordinary(qs: seq<Request>) {
    forall i :: 0 <= i < |qs| ==> !qs[i].ReadBack?
  }

  /** The requests of `qs` that reach the device when the ones whose opcode is in
      `failing` raise: all of them up to and including the first failure. */
  function UpTo(qs: seq<Request>, failing: set<int>): (done: seq<Request>)
    requires Ordinary(qs)
    ensures |done| <= |qs| && done == qs[..|done|]
  {
    if qs == [] then []
    else if SpecOf(qs[0]).opcode in failing then [qs[0]]
    else [qs[0]] + UpTo(qs[1..], failing)
  }

  /** Some request of `qs` raises. */
  predicate AnyFails(qs: seq<Request>, failing: set<int>)
    requires Ordinary(qs)
  {
    qs != [] && (SpecOf(qs[0]).opcode in failing || AnyFails(qs[1..], failing))
  }

  /** When nothing fails, every request reaches the device. */
  lemma {:induction false} UpToAll(qs: seq<Request>, failing: set<int>)
    requires Ordinary(qs) && !AnyFails(qs, failing)
    ensures UpTo(qs, failing) == qs
  {
    if qs != [] {
      UpToAll(qs[1..], failing);
      assert [qs[0]] + qs[1..] == qs;
    }
  }

  /** When some request fails, the ones after the first failure are not sent:
      the last request sent is the one that failed. */
  lemma {:induction false} UpToFailure(qs: seq<Request>, failing: set<int>)
    requires Ordinary(qs) && AnyFails(qs, failing)
    ensures var d := UpTo(qs, failing);
      d != [] && SpecOf(d[|d| - 1]).opcode in failing
      && forall i :: 0 <= i < |d| - 1 ==> SpecOf(d[i]).opcode !in failing
  {
    if SpecOf(qs[0]).opcode !in failing {
      UpToFailure(qs[1..], failing);
      var d := UpTo(qs[1..], failing);
      assert UpTo(qs, failing) == [qs[0]] + d;
    }
  }

  /** `3. * (1023 / 5.)`: the reading a 3 V DAC output gives at 5 V reference. */
  const NominalDac: real := 3.0 * (1023.0 / 5.0)

  /** The payload the device answers `measure_offset` with. */
  function Offsets(answers: map<int, seq<int>>): seq<int> {
    Payload(answers, Interface.MeasureOffset.opcode)
  }

  /** The commands a calibration issues when the ones whose opcode is in `f`
      raise: it stops after the first of `adcon_from` (27), `set_dac` (44) and
      `measure_offset` (8) that raises. */
  function CalibrationLog(f: set<int>): (log: seq<Request>)
    ensures log != [] && log[0] == AdconFrom(0)
  {
    if 27 in f then [AdconFrom(0)]
    else if 44 in f then [AdconFrom(0), SetDac(0, 3000)]
    else if 8 in f then [AdconFrom(0), SetDac(0, 3000), SetDac(1, 3000), MeasureOffset]
    else CalibrationRequests
  }

  /** `usb = 5 * nominal / real_dac`, with `real_dac` the mean of the offsets. */
  function UsbReference(realDac: real): (usb: real)
    requires realDac != 0.0
    ensures usb != 0.0
  {
    5.0 * (NominalDac / realDac)
  }

  /** What the calibration returns: CommsException when one of its commands
      raises, ZeroDivisionError when the offsets sum to zero, else
      `5 * nominal / mean`. */
  function CalibrationResult(failing: set<int>, answers: map<int, seq<int>>): (r: Result<real>)
    ensures r.Ok? ==> r.value != 0.0
  {
    var s := Sum(Offsets(answers));
    if 27 in failing || 44 in failing || 8 in failing then Err(CommsError(DeviceFault))
    else if s == 0 then Err(ZeroDivisionError)
    else Ok(UsbReference(s as real / 2.0))
  }

  /** `5 * nominal / (sum / 2)` is 6138 over the sum of the offsets. */
  lemma UsbFormula(s: int)
    requires s != 0
    ensures UsbReference(s as real / 2.0) == 6138.0 / s as real
  {
    var m := s as real / 2.0;
    assert NominalDac == 613.8;
    assert m * 2.0 == s as real;
    var q := 613.8 / m;
    assert q * m == 613.8;
    assert q * s as real == 1227.6;
    assert 5.0 * q * s as real == 6138.0;
  }

  /** The calibration's failure condition is that of running its request list:
      some request raises. */
  lemma CalibrationFails(f: set<int>)
    ensures AnyFails(CalibrationRequests, f) <==> (27 in f || 44 in f || 8 in f)
  {
    var q := CalibrationRequests;
    var q1 := [SetDac(0, 3000), SetDac(1, 3000), MeasureOffset, SetDac(0, 0), SetDac(1, 0)];
    var q3 := [MeasureOffset, SetDac(0, 0), SetDac(1, 0)];
    var q5 := [SetDac(1, 0)];
    assert q[1..] == q1 && q1[1..][1..] == q3 && q3[1..][1..] == q5 && q5[1..] == [];
    assert AnyFails(q5, f) <==> 44 in f;
    assert AnyFails(q3, f) <==> 44 in f || 8 in f;
    assert AnyFails(q1, f) <==> 44 in f || 8 in f;
  }

  /** The calibration's log is that of running its request list until the first
      request that raises. */
  lemma CalibrationPlan(f: set<int>)
    ensures UpTo(CalibrationRequests, f) == CalibrationLog(f)
  {
    var q := CalibrationRequests;
    PlanLength(f);
    var n := |UpTo(q, f)|;
    assert CalibrationLog(f) == q[..n];
  }

  /** How many calibration requests reach the device: up to the first whose
      opcode raises. */
  lemma PlanLength(f: set<int>)
    ensures Ordinary(CalibrationRequests)
    ensures |UpTo(CalibrationRequests, f)| ==
      if 27 in f then 1 else if 44 in f then 2 else if 8 in f then 4 else 6
  {
    var q := CalibrationRequests;
    assert Ordinary(q);
    UpToStep(q[5..], f);
    UpToStep(q[4..], f);
    UpToStep(q[3..], f);
    UpToStep(q[2..], f);
    UpToStep(q[1..], f);
    UpToStep(q, f);
  }

  /** One step of `UpTo`: the first request, then the rest unless it raised. */
  lemma UpToStep(qs: seq<Request>, f: set<int>)
    requires Ordinary(qs) && qs != []
    ensures Ordinary(qs[1..])
    ensures |UpTo(qs, f)| == if SpecOf(qs[0]).opcode in f then 1 else 1 + |UpTo(qs[1..], f)|
  {
    assert forall i :: 0 <= i < |qs[1..]| ==> qs[1..][i] == qs[i + 1];
  }

  /** The reference a calibration yields: CommsException when one of its
      commands raises, ZeroDivisionError when the offsets sum to zero, else 6138
      over their sum. */
  lemma CalibrationValue(failing: set<int>, answers: map<int, seq<int>>)
    ensures var s := Sum(Offsets(answers));
      CalibrationResult(failing, answers) ==
        if AnyFails(CalibrationRequests, failing) then Err(CommsError(DeviceFault))
        else if s == 0 then Err(ZeroDivisionError)
        else Ok(6138.0 / s as real)
  {
    CalibrationFails(failing);
    var s := Sum(Offsets(answers));
    if s != 0 {
      UsbFormula(s);
    }
  }

  /** The body of `usb_voltage` when the cache is empty (helper/__init__.py:40-47,
      helper.py:122-129). */
  method Calibrate(scope: FakeScope) returns (r: Result<real>)
    modifies scope`log
    ensures r == CalibrationResult(scope.failing, scope.answers)
    ensures scope.log == old(scope.log) + CalibrationLog(scope.failing)
  {
    var x0 :- Issue(scope, AdconFrom(0));
    var x1 :- Issue(scope, SetDac(0, 3000));
    // The fake fails by opcode: a `set_dac` that got this far cannot raise.
    var x2 := Issue(scope, SetDac(1, 3000));
    var adcs :- Issue(scope, MeasureOffset);
    var realDac := Sum(adcs) as real / 2.0;
    var x4 := Issue(scope, SetDac(0, 0));
    var x5 := Issue(scope, SetDac(1, 0));
    if realDac == 0.0 {
      return Err(ZeroDivisionError);
    }
    r := Ok(UsbReference(realDac));
  }

  /** The `usb_voltage` property: the cached reference when there is one, else
      a calibration. */
  function CachedUsb(cache: real, failing: set<int>, answers: map<int, seq<int>>): (r: Result<real>)
    ensures r.Ok? ==> r.value != 0.0
    ensures cache != 0.0 ==> r == Ok(cache)
  {
    if cache != 0.0 then Ok(cache) else CalibrationResult(failing, answers)
  }

  /** The commands a `usb_voltage` access issues. */
  function UsbLog(cache: real, failing: set<int>): seq<Request> {
    if cache != 0.0 then [] else CalibrationLog(failing)
  }

  /** The cache after a `usb_voltage` access. */
  function NextCache(cache: real, failing: set<int>, answers: map<int, seq<int>>): real {
    var r := CachedUsb(cache, failing, answers);
    if r.Ok? then r.value else cache
  }

  /** Once a reference has been computed it is kept, and later accesses send
      nothing and return it. */
  lemma CachedOnce(cache: real, failing: set<int>, answers: map<int, seq<int>>)
    requires CachedUsb(cache, failing, answers).Ok?
    ensures var next := NextCache(cache, failing, answers);
      && next != 0.0 && next == CachedUsb(cache, failing, answers).value
      && UsbLog(next, failing) == []
      && CachedUsb(next, failing, answers) == Ok(next)
  {
  }

  /** What `read_adc` returns. */
  function AdcReading(failing: set<int>, answers: map<int, seq<int>>): Result<seq<int>> {
    var op := Interface.ReadAdc.opcode;
    if op in failing then Err(CommsError(DeviceFault)) else Ok(Payload(answers, op))
  }

  /** One channel's voltage: `scale * (pregain * gain) * adc`, where the scale
      turns ADC counts into volts at unit gain. */
  function Volts(scale: real, pregain: real, gain: real, adc: int): real {
    scale * (pregain * gain) * adc as real
  }

  /** The helpers' scale, `(usb / 5) * (20 / 256)`. */
  function HelperScale(usb: real): real {
    (usb / 5.0) * (20.0 / 256.0)
  }

  /** The voltages of the first `n` channels, TypeError at the first channel
      whose gain or pregain is unset. */
  function ChannelVolts(scale: real, pregain: seq<Option<real>>, gain: seq<Option<real>>, adc: seq<int>, n: nat): (r: Result<seq<real>>)
    requires n <= |pregain| && n <= |gain| && n <= |adc|
    ensures r.Ok? ==> |r.value| == n
    ensures r.Err? ==> r.error == TypeError
  {
    if n == 0 then Ok([])
    else
      var vs :- ChannelVolts(scale, pregain, gain, adc, n - 1);
      if pregain[n - 1].None? || gain[n - 1].None? then Err(TypeError)
      else Ok(vs + [Volts(scale, pregain[n - 1].value, gain[n - 1].value, adc[n - 1])])
  }

  /** Once a channel fails, the conversion of any longer prefix fails too. */
  lemma {:induction false} ChannelVoltsStops(scale: real, pregain: seq<Option<real>>, gain: seq<Option<real>>, adc: seq<int>, k: nat, n: nat)
    requires k < n <= |pregain| && n <= |gain| && n <= |adc|
    requires ChannelVolts(scale, pregain, gain, adc, k + 1).Err?
    ensures ChannelVolts(scale, pregain, gain, adc, n) == Err(TypeError)
  {
    if n > k + 1 {
      ChannelVoltsStops(scale, pregain, gain, adc, k, n - 1);
    }
  }

  /** The channel conversion succeeds exactly when every channel's gains are
      set, and then channel `ch` is its ADC count scaled by its own gains. */
  lemma {:induction false} ChannelVoltsSpec(scale: real, pregain: seq<Option<real>>, gain: seq<Option<real>>, adc: seq<int>, n: nat)
    requires n <= |pregain| && n <= |gain| && n <= |adc|
    ensures var r := ChannelVolts(scale, pregain, gain, adc, n);
      && (r.Ok? <==> forall ch :: 0 <= ch < n ==> pregain[ch].Some? && gain[ch].Some?)
      && (r.Ok? ==> forall ch :: 0 <= ch < n ==>
            r.value[ch] == Volts(scale, pregain[ch].value, gain[ch].value, adc[ch]))
  {
    if n > 0 {
      ChannelVoltsSpec(scale, pregain, gain, adc, n - 1);
    }
  }

  /** `read_volt` of helper/__init__.py, with `usb_voltage` for the attribute it
      misspells: `read_adc`, the two-value check, then the channel conversion, in
      which the reference is read before the first channel's gains. */
  function ReadVoltResult(cache: real, pregain: seq<Option<real>>, gain: seq<Option<real>>,
                          failing: set<int>, answers: map<int, seq<int>>): Result<seq<real>>
    requires |pregain| == 2 && |gain| == 2
  {
    var adc :- AdcReading(failing, answers);
    if |adc| != 2 then Err(CommsError(WrongShape))
    else
      var usb :- CachedUsb(cache, failing, answers);
      ChannelVolts(HelperScale(usb), pregain, gain, adc, 2)
  }

  /** Whether `read_volt` gets as far as the reference. */
  predicate ReachesUsb(failing: set<int>, answers: map<int, seq<int>>) {
    AdcReading(failing, answers).Ok? && |AdcReading(failing, answers).value| == 2
  }

  /** The commands `read_volt` issues. */
  function ReadVoltLog(cache: real, failing: set<int>, answers: map<int, seq<int>>): seq<Request> {
    [ReadAdc] + if ReachesUsb(failing, answers) then UsbLog(cache, failing) else []
  }

  /** What `read_volt` promises: a two-channel reading succeeds exactly when the
      ADC answers with two values, the reference is available and every gain is
      set, and then gives each channel its count scaled by that channel's gains.
      A malformed reading is rejected before any calibration command. */
  lemma ReadVoltSpec(cache: real, pregain: seq<Option<real>>, gain: seq<Option<real>>,
                     failing: set<int>, answers: map<int, seq<int>>)
    requires |pregain| == 2 && |gain| == 2
    ensures var r := ReadVoltResult(cache, pregain, gain, failing, answers);
      var adc := AdcReading(failing, answers);
      var usb := CachedUsb(cache, failing, answers);
      && (r.Ok? <==> ReachesUsb(failing, answers) && usb.Ok? &&
                     forall ch :: 0 <= ch < 2 ==> pregain[ch].Some? && gain[ch].Some?)
      && (r.Ok? ==> |r.value| == 2 && forall ch :: 0 <= ch < 2 ==>
            r.value[ch] == Volts(HelperScale(usb.value), pregain[ch].value, gain[ch].value, adc.value[ch]))
      && (adc.Ok? && !ReachesUsb(failing, answers) ==>
            r == Err(CommsError(WrongShape)) && ReadVoltLog(cache, failing, answers) == [ReadAdc])
  {
    if ReachesUsb(failing, answers) && CachedUsb(cache, failing, answers).Ok? {
      ChannelVoltsSpec(HelperScale(CachedUsb(cache, failing, answers).value), pregain, gain, AdcReading(failing, answers).value, 2);
    }
  }

  /** `read_volt` of helper.py with `usb_voltage`: one multiplier for every
      value, and the two-value check only after the conversion. */
  function LegacyReadVoltResult(cache: real, pregain: Option<real>, gain: Option<real>,
                                failing: set<int>, answers: map<int, seq<int>>): Result<seq<real>>
  {
    var adc :- AdcReading(failing, answers);
    var usb :- CachedUsb(cache, failing, answers);
    if pregain.None? || gain.None? then Err(TypeError)
    else
      var vs := seq(|adc|, i requires 0 <= i < |adc| => Volts(HelperScale(usb), pregain.value, gain.value, adc[i]));
      if |vs| != 2 then Err(CommsError(WrongShape)) else Ok(vs)
  }

  /** The commands helper.py's `read_volt` issues: it reads the reference
      whatever the ADC answered. */
  function LegacyReadVoltLog(cache: real, failing: set<int>, answers: map<int, seq<int>>): seq<Request> {
    [ReadAdc] + if AdcReading(failing, answers).Ok? then UsbLog(cache, failing) else []
  }

  /** helper.py's reading: both values scaled by the one gain pair. Unlike the
      per-channel version, an unset gain is reported even for a malformed
      reading, and a malformed reading still calibrates. */
  lemma LegacyReadVoltSpec(cache: real, pregain: Option<real>, gain: Option<real>,
                           failing: set<int>, answers: map<int, seq<int>>)
    ensures var r := LegacyReadVoltResult(cache, pregain, gain, failing, answers);
      var adc := AdcReading(failing, answers);
      var usb := CachedUsb(cache, failing, answers);
      && (r.Ok? <==> ReachesUsb(failing, answers) && usb.Ok? && pregain.Some? && gain.Some?)
      && (r.Ok? ==> r.value == [Volts(HelperScale(usb.value), pregain.value, gain.value, adc.value[0]),
                                Volts(HelperScale(usb.value), pregain.value, gain.value, adc.value[1])])
      && (adc.Ok? && usb.Ok? && (pregain.None? || gain.None?) ==> r == Err(TypeError))
      && (adc.Ok? && !ReachesUsb(failing, answers) && cache == 0.0 ==>
            LegacyReadVoltLog(cache, failing, answers) == [ReadAdc] + CalibrationLog(failing))
  {
  }

  /** `VoltageCalc` of helper/__init__.py. */
  class VoltageCalc {
    const scope: FakeScope
    /** `_usb_voltage`; 0 while not computed (`None` and 0.0 are both falsy). */
    var usbVoltage: real
    var gain: seq<Option<real>>
    var pregain: seq<Option<real>>

    predicate Valid()
      reads this
    {
      |gain| == 2 && |pregain| == 2
    }

    constructor (scope: FakeScope)
      ensures this.scope == scope && usbVoltage == 0.0
      ensures gain == [None, None] && pregain == [None, None] && Valid()
    {
      this.scope := scope;
      usbVoltage := 0.0;
      gain := [None, None];
      pregain := [None, None];
    }

    /** `usb_voltage`: calibrates once, then answers from the cache. */
    method UsbVoltage() returns (r: Result<real>)
      modifies this`usbVoltage, scope`log
      ensures r == CachedUsb(old(usbVoltage), scope.failing, scope.answers)
      ensures usbVoltage == NextCache(old(usbVoltage), scope.failing, scope.answers)
      ensures scope.log == old(scope.log) + UsbLog(old(usbVoltage), scope.failing)
    {
      if usbVoltage == 0.0 {
        r := Calibrate(scope);
        if r.IsFailure() {
          return;
        }
        usbVoltage := r.value;
      }
      r := Ok(usbVoltage);
    }

    /** `read_volt` as written: the loop reads `self.USB_voltage`, which does not
        exist, so after `read_adc` and the shape check it raises AttributeError. */
    method ReadVoltAsWritten() returns (r: Result<seq<real>>)
      modifies scope`log
      ensures scope.log == old(scope.log) + [ReadAdc]
      ensures var a := AdcReading(scope.failing, scope.answers);
        r == if a.Err? then Err(a.error) else if |a.value| != 2 then Err(CommsError(WrongShape)) else Err(AttributeError)
    {
      var adc :- Issue(scope, ReadAdc);
      if |adc| != 2 {
        return Err(CommsError(WrongShape));
      }
      return Err(AttributeError);
    }

    /** `read_volt` with `usb_voltage`, looping over the two channels. */
    method ReadVolt() returns (r: Result<seq<real>>)
      requires Valid()
      modifies this`usbVoltage, scope`log
      ensures r == ReadVoltResult(old(usbVoltage), pregain, gain, scope.failing, scope.answers)
      ensures scope.log == old(scope.log) + ReadVoltLog(old(usbVoltage), scope.failing, scope.answers)
      ensures usbVoltage == if ReachesUsb(scope.failing, scope.answers)
        then NextCache(old(usbVoltage), scope.failing, scope.answers) else old(usbVoltage)
    {
      var adcVals :- Issue(scope, ReadAdc);
      if |adcVals| != 2 {
        return Err(CommsError(WrongShape));
      }
      ghost var cache := usbVoltage;
      assert ReachesUsb(scope.failing, scope.answers) && adcVals == AdcReading(scope.failing, scope.answers).value;
      AppendAssoc(old(scope.log), [ReadAdc], UsbLog(cache, scope.failing));
      var voltages: seq<real> := [];
      var ch := 0;
      while ch < 2
        invariant 0 <= ch <= 2
        invariant ch == 0 ==> scope.log == old(scope.log) + [ReadAdc] && usbVoltage == cache
        invariant ch > 0 ==> && scope.log == old(scope.log) + [ReadAdc] + UsbLog(cache, scope.failing)
                             && CachedUsb(cache, scope.failing, scope.answers) == Ok(usbVoltage)
                             && usbVoltage == NextCache(cache, scope.failing, scope.answers)
        invariant ChannelVolts(HelperScale(usbVoltage), pregain, gain, adcVals, ch) == Ok(voltages)
      {
        var usb :- UsbVoltage();
        if pregain[ch].None? || gain[ch].None? {
          ChannelVoltsStops(HelperScale(usb), pregain, gain, adcVals, ch, 2);
          return Err(TypeError);
        }
        voltages := voltages + [Volts(HelperScale(usb), pregain[ch].value, gain[ch].value, adcVals[ch])];
        ch := ch + 1;
      }
      r := Ok(voltages);
    }
  }

  /** `VoltageCalc` of helper.py: one gain and one pregain for both channels. */
  class LegacyVoltageCalc {
    const scope: FakeScope
    var usbVoltage: real
    var gain: Option<real>
    var pregain: Option<real>

    constructor (scope: FakeScope)
      ensures this.scope == scope && usbVoltage == 0.0 && gain == None && pregain == None
    {
      this.scope := scope;
      usbVoltage := 0.0;
      gain := None;
      pregain := None;
    }

    /** `usb_voltage`, the same body as in helper/__init__.py. */
    method UsbVoltage() returns (r: Result<real>)
      modifies this`usbVoltage, scope`log
      ensures r == CachedUsb(old(usbVoltage), scope.failing, scope.answers)
      ensures usbVoltage == NextCache(old(usbVoltage), scope.failing, scope.answers)
      ensures scope.log == old(scope.log) + UsbLog(old(usbVoltage), scope.failing)
    {
      if usbVoltage == 0.0 {
        r := Calibrate(scope);
        if r.IsFailure() {
          return;
        }
        usbVoltage := r.value;
      }
      r := Ok(usbVoltage);
    }

    /** `read_volt` as written: `self.USB_voltage` raises AttributeError right
        after `read_adc`, before any shape check. */
    method ReadVoltAsWritten() returns (r: Result<seq<real>>)
      modifies scope`log
      ensures scope.log == old(scope.log) + [ReadAdc]
      ensures var a := AdcReading(scope.failing, scope.answers);
        r == if a.Err? then Err(a.error) else Err(AttributeError)
    {
      var adc :- Issue(scope, ReadAdc);
      return Err(AttributeError);
    }

    /** `read_volt` with `usb_voltage`. */
    method ReadVolt() returns (r: Result<seq<real>>)
      modifies this`usbVoltage, scope`log
      ensures r == LegacyReadVoltResult(old(usbVoltage), pregain, gain, scope.failing, scope.answers)
      ensures scope.log == old(scope.log) + LegacyReadVoltLog(old(usbVoltage), scope.failing, scope.answers)
    {
      var adcVals :- Issue(scope, ReadAdc);
      AppendAssoc(old(scope.log), [ReadAdc], UsbLog(usbVoltage, scope.failing));
      var usb :- UsbVoltage();
      if pregain.None? || gain.None? {
        return Err(TypeError);
      }
      var pg := pregain.value;
      var g := gain.value;
      var voltages := seq(|adcVals|, i requires 0 <= i < |adcVals| => Volts(HelperScale(usb), pg, g, adcVals[i]));
      if |voltages| != 2 {
        return Err(CommsError(WrongShape));
      }
      r := Ok(voltages);
    }
  }
}
