/** The voltage helpers of model/controller/helper/voltage_measure.py: the ADC
    resolution setting, the USB-reference calibration and the two-channel read
    of `VoltageSingleRead`, and the queue of `VoltageStreamer`. Each operation
    is a step function from the meter's fields and the fake device to a result,
    the new fields and the commands issued; the methods are proved against it. */
module VoltageMeasure {
  import opened Common
  import opened Scope
  import Interface
  import Calibration
  import Concurrent

  /** `VoltageResolution`. */
  datatype Resolution = High | Low | Limit

  // ----- the ordering guard -----

  /** The Python value of a member: `high = 0,` and `low = 1,` are one-element
      tuples, `LIMIT = 2` is a plain int. */
  datatype PyValue = Tuple1(item: int) | Plain(n: int)

  function ValueOf(r: Resolution): PyValue {
    match r
    case High => Tuple1(0)
    case Low => Tuple1(1)
    case Limit => Plain(2)
  }

  /** `__lt__`: `self.value[0] < other.value`. Subscripting an int, or
      comparing an int with a tuple, raises TypeError. */
  function LessThan(a: Resolution, b: Resolution): Result<bool> {
    match ValueOf(a)
    case Plain(_) => Err(TypeError)
    case Tuple1(x) =>
      match ValueOf(b)
      case Plain(n) => Ok(x < n)
      case Tuple1(_) => Err(TypeError)
  }

  /** `>=` as `total_ordering` derives it: the negation of `__lt__`. */
  function AtLeast(a: Resolution, b: Resolution): Result<bool> {
    var lt :- LessThan(a, b);
    Ok(!lt)
  }

  /** The setter's guard as written: the exception `adc_res >= LIMIT` raises,
      if any. */
  function GuardAsWritten(r: Resolution): Option<Error> {
    match AtLeast(r, Limit)
    case Err(e) => Some(e)
    case Ok(ge) => if ge then Some(ResolutionSettingsError) else None
  }

  /** The guard as evidently intended: ResolutionSettingsException for LIMIT. */
  function Guard(r: Resolution): Option<Error> {
    if r == Limit then Some(ResolutionSettingsError) else None
  }

  /** Both guards let exactly high and low through, so LIMIT never reaches the
      command; but as written LIMIT raises TypeError from `__lt__`, not
      ResolutionSettingsException. */
  lemma GuardAsWrittenRaises(r: Resolution)
    ensures GuardAsWritten(r).None? <==> Guard(r).None?
    ensures GuardAsWritten(Limit) == Some(TypeError)
    ensures Guard(Limit) == Some(ResolutionSettingsError)
  {
  }

  /** `adc_res.value[0]`: the byte `adcon_from` sends. */
  function Code(r: Resolution): int
    requires r != Limit
  {
    ValueOf(r).item
  }

  // ----- the single reader as step functions -----

  /** The fields the reader keeps: `_usb_voltage` (0 while not computed) and
      `_resolution`. */
  datatype Meter = Meter(cache: real, resolution: Option<Resolution>)

  /** What an operation returns, the fields afterwards and the commands issued. */
  datatype Step<T> = Step(result: Result<T>, meter: Meter, log: seq<Request>)

  const AdconOp := Interface.AdconFrom.opcode
  const DacOp := Interface.SetDacSpec.opcode
  const OffsetOp := Interface.MeasureOffset.opcode
  const AdcOp := Interface.ReadAdc.opcode

  /** The `resolution` setter: the guard, then `adcon_from(value[0])`, then the
      assignment, which a raising command skips. */
  function SetResolutionStep(m: Meter, r: Resolution, f: set<int>): Step<Resolution> {
    if Guard(r).Some? then Step(Err(Guard(r).value), m, [])
    else if AdconOp in f then Step(Err(CommsError(DeviceFault)), m, [AdconFrom(Code(r))])
    else Step(Ok(r), m.(resolution := Some(r)), [AdconFrom(Code(r))])
  }

  /** The `resolution` getter: an unset resolution is first set to low. */
  function GetResolutionStep(m: Meter, f: set<int>): Step<Resolution> {
    if m.resolution.None? then SetResolutionStep(m, Low, f)
    else Step(Ok(m.resolution.value), m, [])
  }

  /** `nominal_dac = 3000 / 1000 * (256 / 1.25)`. */
  const Nominal: real := 3.0 * (256.0 / 1.25)

  /** `5 * (nominal_dac / real_dac)`. */
  function Reference(realDac: real): real
    requires realDac != 0.0
  {
    5.0 * (Nominal / realDac)
  }

  /** The commands between switching to high resolution and computing the
      reference. */
  const DacRequests: seq<Request> :=
    [SetDac(0, 3000), SetDac(1, 3000), MeasureOffset, SetDac(0, 0), SetDac(1, 0)]

  /** The `usb` property: the cached value, or the resolution on entry and a
      calibration. */
  function UsbStep(m: Meter, f: set<int>, answers: map<int, seq<int>>): Step<real> {
    if m.cache != 0.0 then Step(Ok(m.cache), m, [])
    else
      var g := GetResolutionStep(m, f);
      if g.result.Err? then Step(Err(g.result.error), g.meter, g.log)
      else
        var c := CalibrateStep(g.meter, g.result.value, f, answers);
        Step(c.result, c.meter, g.log + c.log)
  }

  /** The calibration inside `usb`: switch to high, the DAC and offset commands,
      the reference stored in the cache, and the switch back to `oldRes` unless
      that is high. */
  function CalibrateStep(m: Meter, oldRes: Resolution, f: set<int>, answers: map<int, seq<int>>): Step<real> {
    var h := SetResolutionStep(m, High, f);
    if h.result.Err? then Step(Err(h.result.error), h.meter, h.log)
    else
      var d := OffsetSum(f, answers);
      if d.Err? then Step(Err(d.error), h.meter, h.log + DacLog(f))
      else if d.value == 0 then Step(Err(ZeroDivisionError), h.meter, h.log + DacRequests)
      else
        var usb := Reference(d.value as real / 2.0);
        var held := h.meter.(cache := usb);
        if oldRes == High then Step(Ok(usb), held, h.log + DacRequests)
        else
          var k := SetResolutionStep(held, oldRes, f);
          Step(if k.result.Err? then Err(k.result.error) else Ok(usb), k.meter, h.log + DacRequests + k.log)
  }

  /** The sum of the offsets `measure_offset` answers with, unless a DAC or the
      offset command raises. */
  function OffsetSum(f: set<int>, answers: map<int, seq<int>>): Result<int> {
    if DacOp in f || OffsetOp in f then Err(CommsError(DeviceFault))
    else Ok(Calibration.Sum(Payload(answers, OffsetOp)))
  }

  /** The DAC and offset commands issued, up to the first that raises. */
  function DacLog(f: set<int>): seq<Request> {
    if DacOp in f then DacRequests[..1]
    else if OffsetOp in f then DacRequests[..3]
    else DacRequests
  }

  /** `max_V * pot_ratio / max_adc`, with `pot_ratio = 4` and `max_adc = 255`. */
  function ReadScale(maxV: real): real {
    maxV * 4.0 / 255.0
  }

  /** The full-scale voltage `max_V` of `read`: the resolution is read first,
      then the reference; low resolution gives the reference itself, high a
      quarter of it. */
  function ScaleStep(m: Meter, f: set<int>, answers: map<int, seq<int>>): Step<real> {
    var g := GetResolutionStep(m, f);
    if g.result.Err? then Step(Err(g.result.error), g.meter, g.log)
    else
      var u := UsbStep(g.meter, f, answers);
      if u.result.Err? then Step(Err(u.result.error), u.meter, g.log + u.log)
      else
        var maxV := if g.result.value == Low then u.result.value else u.result.value / 4.0;
        Step(Ok(maxV), u.meter, g.log + u.log)
  }

  /** `read`: `max_V`, then `read_adc`, the two-value check and the channel
      loop. */
  function ReadStep(m: Meter, pregain: seq<Option<real>>, gain: seq<Option<real>>,
                    f: set<int>, answers: map<int, seq<int>>): Step<seq<real>>
    requires |pregain| == 2 && |gain| == 2
  {
    var p := ScaleStep(m, f, answers);
    if p.result.Err? then Step(Err(p.result.error), p.meter, p.log)
    else Step(Convert(p.result.value, pregain, gain, f, answers), p.meter, p.log + [ReadAdc])
  }

  /** From `read_adc` on: the reply, the two-value check and the channel loop. */
  function Convert(maxV: real, pregain: seq<Option<real>>, gain: seq<Option<real>>,
                   f: set<int>, answers: map<int, seq<int>>): Result<seq<real>>
    requires |pregain| == 2 && |gain| == 2
  {
    if AdcOp in f then Err(CommsError(DeviceFault))
    else
      var adc := Payload(answers, AdcOp);
      if |adc| != 2 then Err(CommsError(WrongShape))
      else Calibration.ChannelVolts(ReadScale(maxV), pregain, gain, adc, 2)
  }

  // ----- what the steps promise -----

  /** The setter sends `adcon_from(0)` for high and `adcon_from(1)` for low and
      then records the value; a raising command leaves the old value; LIMIT is
      rejected before any command. */
  lemma SetResolutionSends(m: Meter, r: Resolution, f: set<int>)
    ensures var st := SetResolutionStep(m, r, f);
      && (r == Limit ==> st == Step(Err(ResolutionSettingsError), m, []))
      && (r != Limit ==> st.log == [AdconFrom(if r == High then 0 else 1)])
      && (r != Limit && AdconOp !in f ==> st.result == Ok(r) && st.meter == m.(resolution := Some(r)))
      && (r != Limit && AdconOp in f ==> st.result.Err? && st.meter == m)
  {
  }

  /** An unset resolution is set to low with one `adcon_from(1)`; once stored, the
      getter returns it with no command. */
  lemma LazyResolution(m: Meter, f: set<int>)
    ensures m.resolution.Some? ==> GetResolutionStep(m, f) == Step(Ok(m.resolution.value), m, [])
    ensures m.resolution.None? && AdconOp !in f ==>
      var st := GetResolutionStep(m, f);
      && st == Step(Ok(Low), m.(resolution := Some(Low)), [AdconFrom(1)])
      && GetResolutionStep(st.meter, f) == Step(Ok(Low), st.meter, [])
  {
  }

  /** The reference is `6144 / (sum of the offsets)`. */
  lemma ReferenceFormula(s: int)
    requires s != 0
    ensures Reference(s as real / 2.0) == 6144.0 / s as real
  {
    var half := s as real / 2.0;
    assert Nominal == 614.4;
    assert half * 2.0 == s as real;
    var q := 614.4 / half;
    assert q * half == 614.4;
    assert q * s as real == 1228.8;
    assert 5.0 * q * s as real == 6144.0;
  }

  /** A first `usb` access on a device that answers: from a stored resolution it
      switches to high, issues the DAC and offset commands in order, computes
      `6144 / sum`, caches it and switches back to low if it was low. */
  lemma UsbSequence(m: Meter, f: set<int>, answers: map<int, seq<int>>)
    requires m.cache == 0.0 && m.resolution.Some? && m.resolution.value != Limit
    requires AdconOp !in f && DacOp !in f && OffsetOp !in f
    requires Calibration.Sum(Payload(answers, OffsetOp)) != 0
    ensures var st := UsbStep(m, f, answers);
      var usb := 6144.0 / Calibration.Sum(Payload(answers, OffsetOp)) as real;
      && st.result == Ok(usb)
      && st.meter == Meter(usb, m.resolution)
      && st.log == Calibration.CalibrationRequests + (if m.resolution.value == Low then [AdconFrom(1)] else [])
  {
    ReferenceFormula(Calibration.Sum(Payload(answers, OffsetOp)));
  }

  /** The same from an unset resolution: the lazy default issues `adcon_from(1)`
      first, and low is restored at the end. */
  lemma UsbSequenceUnset(m: Meter, f: set<int>, answers: map<int, seq<int>>)
    requires m.cache == 0.0 && m.resolution.None?
    requires AdconOp !in f && DacOp !in f && OffsetOp !in f
    requires Calibration.Sum(Payload(answers, OffsetOp)) != 0
    ensures var st := UsbStep(m, f, answers);
      var usb := 6144.0 / Calibration.Sum(Payload(answers, OffsetOp)) as real;
      && st.result == Ok(usb)
      && st.meter == Meter(usb, Some(Low))
      && st.log == [AdconFrom(1)] + Calibration.CalibrationRequests + [AdconFrom(1)]
  {
    ReferenceFormula(Calibration.Sum(Payload(answers, OffsetOp)));
  }

  /** After a successful `usb` the resolution is the one on entry (low, if it
      was unset), the value is cached and nonzero, and the next access returns
      it with no command. */
  lemma UsbRestoresAndCaches(m: Meter, f: set<int>, answers: map<int, seq<int>>)
    requires m.resolution != Some(Limit)
    requires UsbStep(m, f, answers).result.Ok?
    ensures var st := UsbStep(m, f, answers);
      && st.meter.resolution == (if m.resolution.None? && m.cache == 0.0 then Some(Low) else m.resolution)
      && st.meter.cache == st.result.value != 0.0
      && UsbStep(st.meter, f, answers) == Step(st.result, st.meter, [])
  {
    if m.cache == 0.0 {
      ReferenceFormula(Calibration.Sum(Payload(answers, OffsetOp)));
    }
  }

  /** A failing calibration leaves the cache empty, so the next access
      calibrates again. */
  lemma UsbFailureKeepsCacheEmpty(m: Meter, f: set<int>, answers: map<int, seq<int>>)
    requires m.cache == 0.0 && m.resolution != Some(Limit) && UsbStep(m, f, answers).result.Err?
    ensures UsbStep(m, f, answers).meter.cache == 0.0
  {
  }

  /** What `read` promises: with the reference available, the full-scale
      voltage is the reference at low resolution and a quarter of it at high;
      `read_adc` is issued after every command the reference needed; a reply of
      the wrong shape raises CommsException; and otherwise channel `ch` is
      `max_V * 4 / 255 * pregain[ch] * gain[ch] * adc[ch]`, TypeError when a gain
      is unset. */
  lemma ReadSpec(m: Meter, pregain: seq<Option<real>>, gain: seq<Option<real>>,
                 f: set<int>, answers: map<int, seq<int>>)
    requires |pregain| == 2 && |gain| == 2
    requires GetResolutionStep(m, f).result.Ok?
    requires UsbStep(GetResolutionStep(m, f).meter, f, answers).result.Ok?
    ensures var g := GetResolutionStep(m, f);
      var u := UsbStep(g.meter, f, answers);
      var maxV := if g.result.value == Low then u.result.value else u.result.value / 4.0;
      var st := ReadStep(m, pregain, gain, f, answers);
      var adc := Payload(answers, AdcOp);
      && st.log == g.log + u.log + [ReadAdc]
      && ReadAdc !in g.log + u.log
      && (AdcOp !in f && |adc| != 2 ==> st.result == Err(CommsError(WrongShape)))
      && (st.result.Ok? <==> AdcOp !in f && |adc| == 2 &&
                             forall ch :: 0 <= ch < 2 ==> pregain[ch].Some? && gain[ch].Some?)
      && (st.result.Ok? ==> |st.result.value| == 2 && forall ch :: 0 <= ch < 2 ==>
            st.result.value[ch] == Calibration.Volts(ReadScale(maxV), pregain[ch].value, gain[ch].value, adc[ch]))
  {
    var g := GetResolutionStep(m, f);
    var u := UsbStep(g.meter, f, answers);
    var maxV := if g.result.value == Low then u.result.value else u.result.value / 4.0;
    assert ReadAdc !in u.log;
    if AdcOp !in f && |Payload(answers, AdcOp)| == 2 {
      Calibration.ChannelVoltsSpec(ReadScale(maxV), pregain, gain, Payload(answers, AdcOp), 2);
    }
  }

  // ----- the classes -----

  /** `VoltageSingleRead`. */
  class VoltageSingleRead {
    const scope: FakeScope
    var usbVoltage: real
    var resolution: Option<Resolution>
    var gain: seq<Option<real>>
    var pregain: seq<Option<real>>

    predicate Valid()
      reads this
    {
      |gain| == 2 && |pregain| == 2 && resolution != Some(Limit)
    }

    constructor (scope: FakeScope)
      ensures this.scope == scope && usbVoltage == 0.0 && resolution == None
      ensures gain == [None, None] && pregain == [None, None] && Valid()
    {
      this.scope := scope;
      usbVoltage := 0.0;
      resolution := None;
      gain := [None, None];
      pregain := [None, None];
    }

    /** The `resolution` setter. */
    method SetResolution(r: Resolution) returns (o: Outcome)
      requires Valid()
      modifies this`resolution, scope`log
      ensures Valid()
      ensures var st := SetResolutionStep(Meter(old(usbVoltage), old(resolution)), r, scope.failing);
        && o == Done(st.result)
        && Meter(usbVoltage, resolution) == st.meter
        && scope.log == old(scope.log) + st.log
    {
      var e := Guard(r);
      if e.Some? {
        return Fail(e.value);
      }
      var x := Issue(scope, AdconFrom(Code(r)));
      if x.Err? {
        return Fail(x.error);
      }
      resolution := Some(r);
      o := Pass;
    }

    /** The `resolution` getter. */
    method GetResolution() returns (r: Result<Resolution>)
      requires Valid()
      modifies this`resolution, scope`log
      ensures Valid()
      ensures var st := GetResolutionStep(Meter(old(usbVoltage), old(resolution)), scope.failing);
        && r == st.result
        && Meter(usbVoltage, resolution) == st.meter
        && scope.log == old(scope.log) + st.log
    {
      if resolution.None? {
        var o := SetResolution(Low);
        if o.Fail? {
          return Err(o.error);
        }
      }
      r := Ok(resolution.value);
    }

    /** The `usb` property. */
    method Usb() returns (r: Result<real>)
      requires Valid()
      modifies this`usbVoltage, this`resolution, scope`log
      ensures Valid()
      ensures var st := UsbStep(Meter(old(usbVoltage), old(resolution)), scope.failing, scope.answers);
        && r == st.result
        && Meter(usbVoltage, resolution) == st.meter
        && scope.log == old(scope.log) + st.log
    {
      if usbVoltage != 0.0 {
        return Ok(usbVoltage);
      }
      ghost var g := GetResolutionStep(Meter(usbVoltage, resolution), scope.failing);
      var oldRes :- GetResolution();
      ghost var c := CalibrateStep(g.meter, oldRes, scope.failing, scope.answers);
      r := Calibrate(oldRes);
      AppendAssoc(old(scope.log), g.log, c.log);
    }

    /** The calibration inside `usb`. */
    method Calibrate(oldRes: Resolution) returns (r: Result<real>)
      requires Valid()
      modifies this`usbVoltage, this`resolution, scope`log
      ensures Valid()
      ensures var st := CalibrateStep(Meter(old(usbVoltage), old(resolution)), oldRes, scope.failing, scope.answers);
        && r == st.result
        && Meter(usbVoltage, resolution) == st.meter
        && scope.log == old(scope.log) + st.log
    {
      ghost var h := SetResolutionStep(Meter(old(usbVoltage), old(resolution)), High, scope.failing);
      var high := SetResolution(High);
      if high.Fail? {
        return Err(high.error);
      }
      AppendAssoc(old(scope.log), h.log, DacLog(scope.failing));
      var sum :- MeasureOffsets();
      var realDac := sum as real / 2.0;
      if realDac == 0.0 {
        return Err(ZeroDivisionError);
      }
      usbVoltage := Reference(realDac);
      // `old_res != self.resolution`, where the getter returns the stored high
      if oldRes != High {
        ghost var mid := scope.log;
        var back := SetResolution(oldRes);
        AppendAssoc(old(scope.log), h.log + DacRequests, scope.log[|mid|..]);
        r := Then(back, usbVoltage);
        return;
      }
      r := Ok(usbVoltage);
    }

    /** The DAC and offset commands of `usb`. */
    method MeasureOffsets() returns (r: Result<int>)
      modifies scope`log
      ensures r == OffsetSum(scope.failing, scope.answers)
      ensures scope.log == old(scope.log) + DacLog(scope.failing)
    {
      var x0 :- Issue(scope, SetDac(0, 3000));
      // the same opcode as the command before, so it answers the same way
      var x1 := Issue(scope, SetDac(1, 3000));
      var adcs :- Issue(scope, MeasureOffset);
      var x3 := Issue(scope, SetDac(0, 0));
      var x4 := Issue(scope, SetDac(1, 0));
      r := Ok(Calibration.Sum(adcs));
    }

    /** `read`: the channel loop appends one voltage per ADC value. */
    method Read() returns (r: Result<seq<real>>)
      requires Valid()
      modifies this`usbVoltage, this`resolution, scope`log
      ensures Valid()
      ensures var st := ReadStep(Meter(old(usbVoltage), old(resolution)), pregain, gain, scope.failing, scope.answers);
        && r == st.result
        && Meter(usbVoltage, resolution) == st.meter
        && scope.log == old(scope.log) + st.log
    {
      var maxV :- FullScale();
      r := ReadChannels(maxV);
    }

    /** `max_V`. */
    method FullScale() returns (r: Result<real>)
      requires Valid()
      modifies this`usbVoltage, this`resolution, scope`log
      ensures Valid()
      ensures var st := ScaleStep(Meter(old(usbVoltage), old(resolution)), scope.failing, scope.answers);
        && r == st.result
        && Meter(usbVoltage, resolution) == st.meter
        && scope.log == old(scope.log) + st.log
    {
      ghost var g := GetResolutionStep(Meter(usbVoltage, resolution), scope.failing);
      var res :- GetResolution();
      ghost var u := UsbStep(g.meter, scope.failing, scope.answers);
      var usb := Usb();
      AppendAssoc(old(scope.log), g.log, u.log);
      if usb.Err? {
        return Err(usb.error);
      }
      r := Ok(if res == Low then usb.value else usb.value / 4.0);
    }

    /** The rest of `read`, from `read_adc` on. */
    method ReadChannels(maxV: real) returns (r: Result<seq<real>>)
      requires |gain| == 2 && |pregain| == 2
      modifies scope`log
      ensures r == Convert(maxV, pregain, gain, scope.failing, scope.answers)
      ensures scope.log == old(scope.log) + [ReadAdc]
    {
      var adcVals :- Issue(scope, ReadAdc);
      if |adcVals| != 2 {
        return Err(CommsError(WrongShape));
      }
      var voltages: seq<real> := [];
      var ch := 0;
      while ch < |adcVals|
        invariant 0 <= ch <= 2
        invariant Calibration.ChannelVolts(ReadScale(maxV), pregain, gain, adcVals, ch) == Ok(voltages)
      {
        if pregain[ch].None? || gain[ch].None? {
          Calibration.ChannelVoltsStops(ReadScale(maxV), pregain, gain, adcVals, ch, 2);
          return Err(TypeError);
        }
        voltages := voltages + [Calibration.Volts(ReadScale(maxV), pregain[ch].value, gain[ch].value, adcVals[ch])];
        ch := ch + 1;
      }
      r := Ok(voltages);
    }
  }

  /** The outcome of a setter step. */
  function Done<T>(r: Result<T>): Outcome {
    if r.Ok? then Pass else Fail(r.error)
  }

  /** The value, unless the last command raised. */
  function Then<T>(o: Outcome, v: T): Result<T> {
    if o.Pass? then Ok(v) else Err(o.error)
  }

  /** `VoltageStreamer`: a queue of readings filled by the looped acquisition
      and drained when streaming stops. */
  class VoltageStreamer {
    var reader: VoltageSingleRead
    /** The `ThreadLoop` runner, modelled by the scheduler of concurrent.py. */
    const runner: Concurrent.Scheduler
    /** `_voltage_stream`, oldest first. */
    var stream: seq<seq<real>>

    constructor (reader: VoltageSingleRead, periodMs: real, now: real)
      ensures this.reader == reader && stream == []
      ensures fresh(runner) && !runner.worker && runner.periodMs == periodMs
    {
      this.reader := reader;
      runner := new Concurrent.Scheduler(periodMs, now);
      stream := [];
    }

    /** `_voltage_acquire_c`: one reading, put on the queue; a raising read
        leaves the queue as it was. */
    method Acquire() returns (o: Outcome)
      requires reader.Valid()
      modifies reader`usbVoltage, reader`resolution, reader.scope`log, this`stream
      ensures var st := ReadStep(Meter(old(reader.usbVoltage), old(reader.resolution)), reader.pregain, reader.gain,
                                 reader.scope.failing, reader.scope.answers);
        && Meter(reader.usbVoltage, reader.resolution) == st.meter
        && reader.scope.log == old(reader.scope.log) + st.log
        && o == Done(st.result)
        && stream == old(stream) + (if st.result.Ok? then [st.result.value] else [])
    {
      var v := reader.Read();
      if v.Err? {
        return Fail(v.error);
      }
      stream := stream + [v.value];
      o := Pass;
    }

    /** `_stream_queue_clear`: takes every reading off the queue, oldest first. */
    method ClearStream() returns (drained: seq<seq<real>>)
      modifies this`stream
      ensures drained == old(stream) && stream == []
    {
      drained := [];
      while stream != []
        invariant drained + stream == old(stream)
        decreases |stream|
      {
        drained := drained + [stream[0]];
        stream := stream[1..];
      }
    }

    /** `stream_queue_get`, and the `voltage_stream` property: the queue itself. */
    method StreamQueueGet() returns (q: seq<seq<real>>)
      ensures q == stream
    {
      q := stream;
    }

    /** `stream_period_get`: the runner's period. */
    method StreamPeriodGet() returns (p: real)
      ensures p == runner.periodMs
    {
      p := runner.periodMs;
    }

    /** `voltage_reader_set`: later acquisitions read through the new reader. */
    method VoltageReaderSet(reader: VoltageSingleRead)
      modifies this`reader
      ensures this.reader == reader
    {
      this.reader := reader;
    }

    /** `start`. */
    method Start(now: real) returns (o: Outcome)
      modifies runner`worker, runner`looping, runner`deadline
      ensures old(runner.worker) ==>
        o == Fail(ConcurrentError) && runner.worker && runner.looping == old(runner.looping) && runner.deadline == old(runner.deadline)
      ensures !old(runner.worker) ==> o == Pass && runner.worker && runner.looping && runner.deadline == now
    {
      o := runner.Start(now);
    }

    /** `stop`: the runner stops, then the queue is emptied. */
    method Stop(clock: seq<real>)
      modifies runner`worker, runner`looping, runner`signals, runner`deadline, runner`runs, this`stream
      ensures !runner.worker && stream == []
      ensures !old(runner.worker) ==> runner.State() == old(runner.State())
      ensures old(runner.worker) ==>
        runner.State() == Concurrent.Trace(old(runner.State()).(signals := old(runner.signals) + [true]), runner.periodMs, clock)
      ensures old(runner.worker) && |clock| > |old(runner.signals)| ==> !runner.looping
    {
      runner.Stop(clock);
      var drained := ClearStream();
    }
  }
}
