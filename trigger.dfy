/** The trigger settings of model/controller/helper/trigger.py: a source and a
    polarity, each defaulted lazily by its getter and sent to the device by its
    setter before it is stored. */
module Trigger {
  import opened Common
  import opened Scope
  import Interface

  /** `TriggerSource`; `SourceLimit` is its `LIMIT` member. */
  datatype Source = Auto | Ch1 | Ch2 | SourceLimit

  /** `TriggerPol`; `PolLimit` is its `LIMIT` member. */
  datatype Polarity = Rising | Falling | PolLimit

  function SourceIndex(s: Source): int
    requires s != SourceLimit
  {
    match s
    case Auto => 0
    case Ch1 => 1
    case Ch2 => 2
  }

  function PolIndex(p: Polarity): int
    requires p != PolLimit
  {
    if p == Rising then 0 else 1
  }

  // ----- the guard -----

  /** `a >= b` between members of an `Enum` that defines no ordering: Python
      finds no `__ge__` and raises TypeError. The definition is that constant,
      so the as-written half of `GuardsAsWrittenRaise` holds by definition; its
      content is the intended guards' half. */
  function UnorderedAtLeast<E>(a: E, b: E): Result<bool> {
    Err(TypeError)
  }

  /** The source setter's guard as written: the exception `trigger_src >= LIMIT`
      raises, if any. */
  function SourceGuardAsWritten(s: Source): Option<Error> {
    match UnorderedAtLeast(s, SourceLimit)
    case Err(e) => Some(e)
    case Ok(ge) => if ge then Some(TriggerSettingsError) else None
  }

  /** The polarity setter's guard as written. */
  function PolGuardAsWritten(p: Polarity): Option<Error> {
    match UnorderedAtLeast(p, PolLimit)
    case Err(e) => Some(e)
    case Ok(ge) => if ge then Some(TriggerSettingsError) else None
  }

  /** As written both guards raise TypeError for every value, valid ones
      included, so no setting and no lazy default ever reaches the device; the
      intended guards reject exactly LIMIT. */
  lemma GuardsAsWrittenRaise(s: Source, p: Polarity)
    ensures SourceGuardAsWritten(s) == Some(TypeError) && PolGuardAsWritten(p) == Some(TypeError)
    ensures SourceGuard(s).Some? <==> s == SourceLimit
    ensures PolGuard(p).Some? <==> p == PolLimit
  {
  }

  /** The intended guards: TriggerSettingsException for LIMIT. */
  function SourceGuard(s: Source): Option<Error> {
    if s == SourceLimit then Some(TriggerSettingsError) else None
  }

  function PolGuard(p: Polarity): Option<Error> {
    if p == PolLimit then Some(TriggerSettingsError) else None
  }

  // ----- the settings as step functions -----

  /** What a setter or getter returns, the stored value afterwards and the
      commands issued. */
  datatype Setting<T> = Setting(result: Result<T>, stored: Option<T>, log: seq<Request>)

  const SourceOp := Interface.TrigSource.opcode
  const PolOp := Interface.TrigPol.opcode

  /** The `source` setter: guard, `trig_source`, then the assignment. */
  function SetSourceStep(cur: Option<Source>, s: Source, f: set<int>): Setting<Source> {
    if SourceGuard(s).Some? then Setting(Err(SourceGuard(s).value), cur, [])
    else if SourceOp in f then Setting(Err(CommsError(DeviceFault)), cur, [TrigSource(SourceIndex(s))])
    else Setting(Ok(s), Some(s), [TrigSource(SourceIndex(s))])
  }

  /** The `source` getter: an unset source is first set to auto. */
  function GetSourceStep(cur: Option<Source>, f: set<int>): Setting<Source> {
    if cur.None? then SetSourceStep(cur, Auto, f) else Setting(Ok(cur.value), cur, [])
  }

  /** The `pol` setter. */
  function SetPolStep(cur: Option<Polarity>, p: Polarity, f: set<int>): Setting<Polarity> {
    if PolGuard(p).Some? then Setting(Err(PolGuard(p).value), cur, [])
    else if PolOp in f then Setting(Err(CommsError(DeviceFault)), cur, [TrigPol(PolIndex(p))])
    else Setting(Ok(p), Some(p), [TrigPol(PolIndex(p))])
  }

  /** The `pol` getter: an unset polarity is first set to rising. */
  function GetPolStep(cur: Option<Polarity>, f: set<int>): Setting<Polarity> {
    if cur.None? then SetPolStep(cur, Rising, f) else Setting(Ok(cur.value), cur, [])
  }

  /** LIMIT is rejected with TriggerSettingsException before any command; an
      accepted source sends one `trig_source` with its index first, and is
      stored only if that command does not raise. */
  lemma SetSourceSpec(cur: Option<Source>, s: Source, f: set<int>)
    ensures var st := SetSourceStep(cur, s, f);
      && (s == SourceLimit ==> st == Setting(Err(TriggerSettingsError), cur, []))
      && (s != SourceLimit ==> st.log == [TrigSource(SourceIndex(s))])
      && (s != SourceLimit ==> (st.result.Ok? <==> SourceOp !in f))
      && (st.result.Ok? ==> st.stored == Some(s) && st.result.value == s)
      && (st.result.Err? ==> st.stored == cur)
  {
  }

  lemma SetPolSpec(cur: Option<Polarity>, p: Polarity, f: set<int>)
    ensures var st := SetPolStep(cur, p, f);
      && (p == PolLimit ==> st == Setting(Err(TriggerSettingsError), cur, []))
      && (p != PolLimit ==> st.log == [TrigPol(PolIndex(p))])
      && (p != PolLimit ==> (st.result.Ok? <==> PolOp !in f))
      && (st.result.Ok? ==> st.stored == Some(p) && st.result.value == p)
      && (st.result.Err? ==> st.stored == cur)
  {
  }

  /** An unset source reads as auto after exactly one `trig_source(0)`; a
      stored source is returned with no command. */
  lemma SourceDefault(cur: Option<Source>, f: set<int>)
    ensures cur.Some? ==> GetSourceStep(cur, f) == Setting(Ok(cur.value), cur, [])
    ensures cur.None? && SourceOp !in f ==>
      var st := GetSourceStep(cur, f);
      && st == Setting(Ok(Auto), Some(Auto), [TrigSource(0)])
      && GetSourceStep(st.stored, f) == Setting(Ok(Auto), Some(Auto), [])
  {
  }

  /** An unset polarity reads as rising after exactly one `trig_pol(0)`; a
      stored polarity is returned with no command. */
  lemma PolDefault(cur: Option<Polarity>, f: set<int>)
    ensures cur.Some? ==> GetPolStep(cur, f) == Setting(Ok(cur.value), cur, [])
    ensures cur.None? && PolOp !in f ==>
      var st := GetPolStep(cur, f);
      && st == Setting(Ok(Rising), Some(Rising), [TrigPol(0)])
      && GetPolStep(st.stored, f) == Setting(Ok(Rising), Some(Rising), [])
  {
  }

  /** The stored values are never LIMIT. */
  lemma StoredNeverLimit(cs: Option<Source>, s: Source, cp: Option<Polarity>, p: Polarity, f: set<int>)
    requires cs != Some(SourceLimit) && cp != Some(PolLimit)
    ensures SetSourceStep(cs, s, f).stored != Some(SourceLimit)
    ensures GetSourceStep(cs, f).stored != Some(SourceLimit)
    ensures SetPolStep(cp, p, f).stored != Some(PolLimit)
    ensures GetPolStep(cp, f).stored != Some(PolLimit)
  {
  }

  // ----- the class -----

  /** `TriggerSettings`. */
  class TriggerSettings {
    const scope: FakeScope
    var source: Option<Source>
    var pol: Option<Polarity>

    constructor (scope: FakeScope)
      ensures this.scope == scope && source == None && pol == None
    {
      this.scope := scope;
      source := None;
      pol := None;
    }

    /** The `source` setter. */
    method SetSource(s: Source) returns (o: Outcome)
      modifies this`source, scope`log
      ensures var st := SetSourceStep(old(source), s, scope.failing);
        && o == (if st.result.Ok? then Pass else Fail(st.result.error))
        && source == st.stored
        && scope.log == old(scope.log) + st.log
    {
      var e := SourceGuard(s);
      if e.Some? {
        return Fail(e.value);
      }
      var x := Issue(scope, TrigSource(SourceIndex(s)));
      if x.Err? {
        return Fail(x.error);
      }
      source := Some(s);
      o := Pass;
    }

    /** The `source` getter. */
    method GetSource() returns (r: Result<Source>)
      modifies this`source, scope`log
      ensures var st := GetSourceStep(old(source), scope.failing);
        && r == st.result && source == st.stored && scope.log == old(scope.log) + st.log
    {
      if source.None? {
        var o := SetSource(Auto);
        if o.Fail? {
          return Err(o.error);
        }
      }
      r := Ok(source.value);
    }

    /** The `pol` setter. */
    method SetPol(p: Polarity) returns (o: Outcome)
      modifies this`pol, scope`log
      ensures var st := SetPolStep(old(pol), p, scope.failing);
        && o == (if st.result.Ok? then Pass else Fail(st.result.error))
        && pol == st.stored
        && scope.log == old(scope.log) + st.log
    {
      var e := PolGuard(p);
      if e.Some? {
        return Fail(e.value);
      }
      var x := Issue(scope, TrigPol(PolIndex(p)));
      if x.Err? {
        return Fail(x.error);
      }
      pol := Some(p);
      o := Pass;
    }

    /** The `pol` getter. */
    method GetPol() returns (r: Result<Polarity>)
      modifies this`pol, scope`log
      ensures var st := GetPolStep(old(pol), scope.failing);
        && r == st.result && pol == st.stored && scope.log == old(scope.log) + st.log
    {
      if pol.None? {
        var o := SetPol(Rising);
        if o.Fail? {
          return Err(o.error);
        }
      }
      r := Ok(pol.value);
    }
  }
}
