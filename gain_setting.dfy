/** The gain options of controller/helper/gain_setting.py: each option pairs a
    display string and a plot scale with the pregain and gain the circuit is
    set to; `GainOptions` keeps them in a dictionary keyed by display string
    (in insertion order, as a Python dict does) and remembers which key was
    selected. */
module GainSetting {
  import opened Common
  import Gains

  /** `GainSetting`: its fields are only assigned by `__init__`. */
  datatype Setting = Setting(display: string, mVPerDiv: real, pregain: int, gain: int)

  /** `_nominal_vcc` and `_scale_down`. */
  const NominalVcc: real := 5.0
  const ScaleDown: real := 4.0

  /** `cumulative_gain`. */
  function CumulativeGain(s: Setting): int {
    s.gain * s.pregain
  }

  /** `voltage_max`: ZeroDivisionError when the cumulative gain is zero. */
  function VoltageMax(s: Setting): (r: Result<real>)
    ensures r.Err? <==> CumulativeGain(s) == 0
    ensures r.Err? ==> r.error == ZeroDivisionError
    ensures r.Ok? ==> r.value * CumulativeGain(s) as real == NominalVcc * ScaleDown
  {
    if CumulativeGain(s) == 0 then Err(ZeroDivisionError)
    else Ok(NominalVcc * ScaleDown / CumulativeGain(s) as real)
  }

  /** The seven options `GainOptions.__init__` adds, in order. */
  const Defaults: seq<Setting> := [
    Setting("1 V/div", 1000.0, 1, 4),
    Setting("0.5 V/div", 500.0, 1, 8),
    Setting("0.2 V/div", 200.0, 10, 2),
    Setting("0.1 V/div", 100.0, 10, 4),
    Setting("50 mV/div", 50.0, 10, 8),
    Setting("20 mV/div", 20.0, 10, 16),
    Setting("10 mV/div", 10.0, 10, 32)
  ]

  /** Every default pregain is 1 or 10 and every default gain a power of two
      from 2 to 32, so each has a code in the amplifier tables. */
  lemma DefaultsInTables()
    ensures forall i :: 0 <= i < |Defaults| ==> Defaults[i].pregain in {1, 10} && Defaults[i].gain in {2, 4, 8, 16, 32}
    ensures forall i :: 0 <= i < |Defaults| ==>
      Gains.ValToCode(Gains.PreGainTable, Defaults[i].pregain).Ok? && Gains.ValToCode(Gains.GainTable, Defaults[i].gain).Ok?
  {
    AmplifierCodes();
  }

  /** The pregains 1 and 10 and the gains 2 to 32 all have codes. */
  lemma AmplifierCodes()
    ensures forall p :: p in {1, 10} ==> Gains.ValToCode(Gains.PreGainTable, p).Ok?
    ensures forall g :: g in {2, 4, 8, 16, 32} ==> Gains.ValToCode(Gains.GainTable, g).Ok?
  {
    forall p | p in {1, 10} ensures Gains.ValToCode(Gains.PreGainTable, p).Ok? {
      Gains.PreGainLookups(0, p);
    }
    forall g | g in {2, 4, 8, 16, 32} ensures Gains.ValToCode(Gains.GainTable, g).Ok? {
      Gains.GainLookups(0, g);
      assert g in Gains.GainValues;
    }
  }

  /** The cumulative gains of the defaults, in order. */
  const DefaultCumulative: seq<int> := [4, 8, 20, 40, 80, 160, 320]

  /** The full-scale voltages of the defaults: 5 V down to 62.5 mV. */
  const DefaultVoltageMax: seq<real> := [5.0, 2.5, 1.0, 0.5, 0.25, 0.125, 0.0625]

  lemma DefaultsFullScale()
    ensures |Defaults| == 7
    ensures forall i :: 0 <= i < 7 ==> CumulativeGain(Defaults[i]) == DefaultCumulative[i]
    ensures forall i :: 0 <= i < 7 ==> VoltageMax(Defaults[i]) == Ok(DefaultVoltageMax[i])
  {
  }

  /** The dictionary of options with its key order, and the selected key. */
  datatype Table = Table(keys: seq<string>, options: map<string, Setting>, selected: Option<string>)

  /** The keys are listed once each, and they are the dictionary's keys. */
  ghost predicate WellFormed(t: Table) {
    && (forall i, j :: 0 <= i < j < |t.keys| ==> t.keys[i] != t.keys[j])
    && (forall k :: k in t.keys <==> k in t.options)
  }

  /** `gain_option_add`: `update` keeps a key's place when it is already there
      and appends a new one at the end. */
  function Add(t: Table, s: Setting): Table {
    Table(if s.display in t.options then t.keys else t.keys + [s.display],
          t.options[s.display := s], t.selected)
  }

  /** Adding keeps the table well formed, stores the option under its display
      string, leaves every other option and the selection alone, and changes
      the key order only by appending a new key. */
  lemma AddSpec(t: Table, s: Setting)
    requires WellFormed(t)
    ensures var u := Add(t, s);
      && WellFormed(u)
      && u.options[s.display] == s
      && (forall k :: k in t.options && k != s.display ==> k in u.options && u.options[k] == t.options[k])
      && u.selected == t.selected
      && (s.display in t.options ==> u.keys == t.keys)
      && (s.display !in t.options ==> u.keys == t.keys + [s.display])
  {
  }

  /** The options added one after another. */
  function AddAll(t: Table, ss: seq<Setting>): Table
    decreases |ss|
  {
    if ss == [] then t else Add(AddAll(t, ss[..|ss| - 1]), ss[|ss| - 1])
  }

  const Empty := Table([], map[], None)

  /** Options with distinct display strings, added one after another to an
      empty dictionary, are listed in the order they were added, each under its
      own display string. */
  lemma {:induction false} AddAllDistinct(ss: seq<Setting>)
    requires forall i, j :: 0 <= i < j < |ss| ==> ss[i].display != ss[j].display
    decreases |ss|
    ensures var t := AddAll(Empty, ss);
      && WellFormed(t) && t.selected == None && |t.keys| == |ss|
      && forall i :: 0 <= i < |ss| ==>
           t.keys[i] == ss[i].display && ss[i].display in t.options && t.options[ss[i].display] == ss[i]
  {
    if ss != [] {
      var init := ss[..|ss| - 1];
      var last := ss[|ss| - 1];
      AddAllDistinct(init);
      var t := AddAll(Empty, init);
      assert last.display !in t.keys;
      AddSpec(t, last);
    }
  }

  /** After `__init__` the options are the seven defaults keyed by their display
      strings, listed in the order they were added, and none is selected. */
  lemma DefaultTable()
    ensures var t := AddAll(Empty, Defaults);
      && t.keys == DefaultKeys
      && (forall i :: 0 <= i < 7 ==> Defaults[i].display in t.options && t.options[Defaults[i].display] == Defaults[i])
      && t.selected == None
      && WellFormed(t)
  {
    DefaultsDistinct();
    AddAllDistinct(Defaults);
    DefaultKeysListed();
  }

  /** The display strings of the defaults, in order. */
  const DefaultKeys: seq<string> :=
    ["1 V/div", "0.5 V/div", "0.2 V/div", "0.1 V/div", "50 mV/div", "20 mV/div", "10 mV/div"]

  lemma DefaultKeysListed()
    ensures |DefaultKeys| == |Defaults| && forall i :: 0 <= i < |Defaults| ==> DefaultKeys[i] == Defaults[i].display
  {
  }

  /** The first and third characters of the default display strings. */
  const DefaultTags: seq<(char, char)> :=
    [('1', 'V'), ('0', '5'), ('0', '2'), ('0', '1'), ('5', ' '), ('2', ' '), ('1', ' ')]

  lemma DefaultsDistinct()
    ensures forall i, j :: 0 <= i < j < |Defaults| ==> Defaults[i].display != Defaults[j].display
  {
    assert forall i :: 0 <= i < 7 ==> (Defaults[i].display[0], Defaults[i].display[2]) == DefaultTags[i];
    assert forall i, j :: 0 <= i < j < 7 ==> DefaultTags[i] != DefaultTags[j];
  }

  /** The `selected_gain` setter: a key not among the options raises ValueError
      and changes nothing. */
  function Select(t: Table, key: string): (Outcome, Table) {
    if key !in t.options then (Fail(ValueError), t)
    else (Pass, t.(selected := Some(key)))
  }

  /** The `selected_gain` getter: `gain_options[_selected_gain]`, KeyError for
      an unset selection. */
  function Selected(t: Table): Result<Setting> {
    if t.selected.None? || t.selected.value !in t.options then Err(KeyError)
    else Ok(t.options[t.selected.value])
  }

  /** Selecting succeeds exactly for a key among the options, and the getter
      then returns that key's option; a refused key leaves the table as it was.
      Nothing but `Select` ever stores a key, so a selection is always a key. */
  lemma SelectSpec(t: Table, key: string)
    ensures var (o, u) := Select(t, key);
      && (o.Pass? <==> key in t.options)
      && (o.Pass? ==> Selected(u) == Ok(t.options[key]) && u.keys == t.keys && u.options == t.options)
      && (o.Fail? ==> o.error == ValueError && u == t)
  {
  }

  /** Before any selection the getter raises KeyError; adding options never
      loses a stored selection. */
  lemma SelectedAfterAdd(t: Table, s: Setting)
    ensures Selected(t.(selected := None)) == Err(KeyError)
    ensures Selected(t).Ok? ==> Selected(Add(t, s)).Ok?
    ensures Selected(t).Ok? && t.selected.value != s.display ==> Selected(Add(t, s)) == Selected(t)
  {
  }

  /** `GainOptions`. */
  class GainOptions {
    /** `list(gain_options)`: the dictionary's keys in insertion order. */
    var keys: seq<string>
    var options: map<string, Setting>
    /** `_selected_gain`. */
    var selected: Option<string>

    function State(): Table
      reads this
    {
      Table(keys, options, selected)
    }

    /** `__init__`: adds the seven defaults in order. */
    constructor ()
      ensures State() == AddAll(Empty, Defaults)
    {
      keys := [];
      options := map[];
      selected := None;
      new;
      for i := 0 to |Defaults|
        invariant State() == AddAll(Empty, Defaults[..i])
      {
        assert Defaults[..i + 1][..i] == Defaults[..i];
        GainOptionAdd(Defaults[i]);
      }
      assert Defaults[..|Defaults|] == Defaults;
    }

    /** `gains`. */
    method GetGains() returns (g: seq<string>)
      ensures g == keys
      ensures WellFormed(State()) ==> forall k :: k in g <==> k in options
    {
      g := keys;
    }

    /** `gain_option_add`. */
    method GainOptionAdd(s: Setting)
      modifies this`keys, this`options
      ensures State() == Add(old(State()), s)
    {
      if s.display !in options {
        keys := keys + [s.display];
      }
      options := options[s.display := s];
    }

    /** The `selected_gain` setter. */
    method SetSelected(key: string) returns (o: Outcome)
      modifies this`selected
      ensures (o, State()) == Select(old(State()), key)
    {
      if key !in options {
        return Fail(ValueError);
      }
      selected := Some(key);
      o := Pass;
    }

    /** The `selected_gain` getter. */
    method GetSelected() returns (r: Result<Setting>)
      ensures r == Selected(State())
    {
      if selected.None? || selected.value !in options {
        return Err(KeyError);
      }
      r := Ok(options[selected.value]);
    }
  }
}
