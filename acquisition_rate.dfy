/** The acquisition rate options of controller/helper/acquisition_rate.py: a
    fixed dictionary from display strings to milliseconds per plot division,
    the selected option, and the measurement period it implies. */
module AcquisitionRate {
  import opened Common

  /** `reads_per_div`. */
  const ReadsPerDiv := 10

  /** `_rate_options`, in the dictionary's order. */
  const RateOptions: seq<(string, int)> :=
    [("100 ms/div", 100), ("200 ms/div", 200), ("500 ms/div", 500), ("1 s/div", 1000)]

  /** `speeds`: the dictionary's keys in order. */
  function Speeds(): (ks: seq<string>)
    ensures |ks| == |RateOptions| && forall i :: 0 <= i < |ks| ==> ks[i] == RateOptions[i].0
  {
    seq(|RateOptions|, i requires 0 <= i < |RateOptions| => RateOptions[i].0)
  }

  /** `_rate_options[key]`, if the key is there. */
  function MsPerDiv(key: string): (r: Option<int>)
    ensures r.Some? <==> key in Speeds()
    ensures r.Some? ==> exists i :: 0 <= i < |RateOptions| && RateOptions[i] == (key, r.value)
  {
    if key == RateOptions[0].0 then Some(RateOptions[0].1)
    else if key == RateOptions[1].0 then Some(RateOptions[1].1)
    else if key == RateOptions[2].0 then Some(RateOptions[2].1)
    else if key == RateOptions[3].0 then Some(RateOptions[3].1)
    else None
  }

  /** The speeds are exactly the four options, and they give periods of 10, 20,
      50 and 100 ms between reads. */
  lemma SpeedsAndPeriods()
    ensures Speeds() == ["100 ms/div", "200 ms/div", "500 ms/div", "1 s/div"]
    ensures Period("100 ms/div") == Some(10.0) && Period("200 ms/div") == Some(20.0)
    ensures Period("500 ms/div") == Some(50.0) && Period("1 s/div") == Some(100.0)
  {
  }

  /** The period the setter stores for an accepted key: the division's time
      spread over `reads_per_div` reads. */
  function Period(key: string): (p: Option<real>)
    ensures p.Some? <==> key in Speeds()
    ensures p.Some? ==> p.value * ReadsPerDiv as real == MsPerDiv(key).value as real
  {
    if MsPerDiv(key).None? then None else Some(MsPerDiv(key).value as real / ReadsPerDiv as real)
  }

  /** What the setter leaves: the selected key and the period. */
  datatype Rate = Rate(selected: Option<string>, periodMs: Option<real>)

  /** The `selected_speed` setter: an unknown key raises ValueError and changes
      neither attribute. */
  function Select(r: Rate, key: string): (Outcome, Rate) {
    if MsPerDiv(key).None? then (Fail(ValueError), r)
    else (Pass, Rate(Some(key), Period(key)))
  }

  /** The period is the one of the selected key, and there is none while no
      key is selected: both start as None and are set together. */
  predicate Consistent(r: Rate) {
    && (r.selected.None? <==> r.periodMs.None?)
    && (r.selected.Some? ==> r.periodMs == Period(r.selected.value))
  }

  /** An accepted key is read back by the getter, and its period, one of the
      four, by `period_get`; a refused one changes nothing. Selecting keeps the
      two attributes consistent, so `period_get` returns None exactly until a
      speed has been accepted. */
  lemma SelectSpec(r: Rate, key: string)
    ensures var (o, u) := Select(r, key);
      && (o.Pass? <==> key in Speeds())
      && (o.Pass? ==> u.selected == Some(key) && u.periodMs.Some? && u.periodMs == Period(key))
      && (o.Pass? ==> u.periodMs.value in {10.0, 20.0, 50.0, 100.0})
      && (o.Fail? ==> o.error == ValueError && u == r)
      && Consistent(Rate(None, None))
      && (Consistent(r) ==> Consistent(u))
  {
  }

  /** `AcquisitionRate`. */
  class Acquisition {
    /** `_selected_speed`. */
    var selected: Option<string>
    /** `_period_ms`. */
    var periodMs: Option<real>

    function State(): Rate
      reads this
    {
      Rate(selected, periodMs)
    }

    /** Both attributes start as None. */
    constructor ()
      ensures selected == None && periodMs == None
    {
      selected := None;
      periodMs := None;
    }

    /** `speeds`. */
    method GetSpeeds() returns (ks: seq<string>)
      ensures ks == ["100 ms/div", "200 ms/div", "500 ms/div", "1 s/div"]
    {
      SpeedsAndPeriods();
      ks := Speeds();
    }

    /** The `selected_speed` getter. */
    method GetSelected() returns (k: Option<string>)
      ensures k == selected
    {
      k := selected;
    }

    /** The `selected_speed` setter. */
    method SetSelected(key: string) returns (o: Outcome)
      modifies this`selected, this`periodMs
      ensures (o, State()) == Select(old(State()), key)
    {
      var ms := MsPerDiv(key);
      if ms.None? {
        return Fail(ValueError);
      }
      selected := Some(key);
      periodMs := Some(ms.value as real / ReadsPerDiv as real);
      o := Pass;
    }

    /** `period_get`: None until a speed has been accepted. */
    method PeriodGet() returns (p: Option<real>)
      ensures p == periodMs
    {
      p := periodMs;
    }
  }
}
