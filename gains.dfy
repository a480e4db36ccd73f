/** The gain and pregain tables and their two lookups
    (model/controller/helper/gain.py; model/controller/helper.py holds a copy).
    A lookup collects every matching entry, as the list comprehensions do, and
    succeeds only when exactly one entry matches. */
module Gains {
  import opened Common

  datatype GainType = GainType(code: int, val: int)

  /** `Gain.set`: the eight amplifier gains. */
  const GainTable: seq<GainType> := [
    GainType(0, 1), GainType(1, 2), GainType(2, 4), GainType(3, 5),
    GainType(4, 8), GainType(5, 10), GainType(6, 16), GainType(7, 32)
  ]

  /** `PreGain.set`: the two preamplifier gains. */
  const PreGainTable: seq<GainType> := [GainType(0, 1), GainType(1, 10)]

  /** Which field a lookup matches on; the other one is returned. */
  datatype Side = ByVal | ByCode

  function Key(e: GainType, side: Side): int {
    if side == ByVal then e.val else e.code
  }

  function Other(e: GainType, side: Side): int {
    if side == ByVal then e.code else e.val
  }

  /** `[gain.code for gain in self.set if gain.val == val]` (or the reverse). */
  function Matches(t: seq<GainType>, side: Side, k: int): (m: seq<int>)
    ensures |m| <= |t|
  {
    if t == [] then []
    else (if Key(t[0], side) == k then [Other(t[0], side)] else []) + Matches(t[1..], side, k)
  }

  /** One lookup: GainException unless exactly one entry matches. */
  function Lookup(t: seq<GainType>, side: Side, k: int): (r: Result<int>)
    ensures r.Err? ==> r.error == GainError
  {
    var m := Matches(t, side, k);
    if |m| != 1 then Err(GainError) else Ok(m[0])
  }

  /** `val_to_code`. */
  function ValToCode(t: seq<GainType>, val: int): Result<int> {
    Lookup(t, ByVal, val)
  }

  /** `code_to_val`. */
  function CodeToVal(t: seq<GainType>, code: int): Result<int> {
    Lookup(t, ByCode, code)
  }

  /** No two entries share a key on the given side. */
  predicate Unique(t: seq<GainType>, side: Side) {
    forall i, j :: 0 <= i < j < |t| ==> Key(t[i], side) != Key(t[j], side)
  }

  lemma {:induction false} MatchesAbsent(t: seq<GainType>, side: Side, k: int)
    requires forall i :: 0 <= i < |t| ==> Key(t[i], side) != k
    ensures Matches(t, side, k) == []
  {
    if t != [] {
      assert forall i :: 0 <= i < |t[1..]| ==> Key(t[1..][i], side) != k by {
        forall i | 0 <= i < |t[1..]| ensures Key(t[1..][i], side) != k {
          assert t[1..][i] == t[i + 1];
        }
      }
      MatchesAbsent(t[1..], side, k);
    }
  }

  lemma {:induction false} MatchesUnique(t: seq<GainType>, side: Side, i: nat)
    requires Unique(t, side) && i < |t|
    ensures Matches(t, side, Key(t[i], side)) == [Other(t[i], side)]
  {
    var k := Key(t[i], side);
    assert forall a, b :: 0 <= a < b < |t[1..]| ==> Key(t[1..][a], side) != Key(t[1..][b], side) by {
      forall a, b | 0 <= a < b < |t[1..]| ensures Key(t[1..][a], side) != Key(t[1..][b], side) {
        assert t[1..][a] == t[a + 1] && t[1..][b] == t[b + 1];
      }
    }
    if i == 0 {
      forall j | 0 <= j < |t[1..]| ensures Key(t[1..][j], side) != k {
        assert t[1..][j] == t[j + 1];
      }
      MatchesAbsent(t[1..], side, k);
      assert [Other(t[0], side)] + [] == [Other(t[0], side)];
    } else {
      assert Key(t[0], side) != k;
      assert t[1..][i - 1] == t[i];
      MatchesUnique(t[1..], side, i - 1);
    }
  }

  /** With unique keys, a lookup succeeds exactly on the keys present, with the
      entry's other field, and raises GainException on every other key. */
  lemma LookupSpec(t: seq<GainType>, side: Side, k: int)
    requires Unique(t, side)
    ensures Lookup(t, side, k).Ok? <==> exists i :: 0 <= i < |t| && Key(t[i], side) == k
    ensures forall i :: 0 <= i < |t| && Key(t[i], side) == k ==> Lookup(t, side, k) == Ok(Other(t[i], side))
  {
    if i :| 0 <= i < |t| && Key(t[i], side) == k {
      MatchesUnique(t, side, i);
      forall j | 0 <= j < |t| && Key(t[j], side) == k ensures Lookup(t, side, k) == Ok(Other(t[j], side)) {
        MatchesUnique(t, side, j);
      }
    } else {
      MatchesAbsent(t, side, k);
    }
  }

  /** A table whose codes and values are both unique is a bijection. */
  predicate Bijective(t: seq<GainType>) {
    Unique(t, ByVal) && Unique(t, ByCode)
  }

  /** `val_to_code(code_to_val(c)) == c` for every code `code_to_val` accepts. */
  lemma CodeRoundTrip(t: seq<GainType>, code: int)
    requires Bijective(t) && CodeToVal(t, code).Ok?
    ensures ValToCode(t, CodeToVal(t, code).value) == Ok(code)
  {
    LookupSpec(t, ByCode, code);
    var i :| 0 <= i < |t| && t[i].code == code;
    LookupSpec(t, ByVal, t[i].val);
    assert Key(t[i], ByVal) == t[i].val;
  }

  /** `code_to_val(val_to_code(v)) == v` for every value `val_to_code` accepts. */
  lemma ValRoundTrip(t: seq<GainType>, val: int)
    requires Bijective(t) && ValToCode(t, val).Ok?
    ensures CodeToVal(t, ValToCode(t, val).value) == Ok(val)
  {
    LookupSpec(t, ByVal, val);
    var i :| 0 <= i < |t| && t[i].val == val;
    LookupSpec(t, ByCode, t[i].code);
    assert Key(t[i], ByCode) == t[i].code;
  }

  /** The values of `Gain.set`, indexed by code. */
  const GainValues: seq<int> := [1, 2, 4, 5, 8, 10, 16, 32]

  lemma GainTableShape()
    ensures |GainTable| == 8
    ensures forall i :: 0 <= i < 8 ==> GainTable[i] == GainType(i, GainValues[i])
    ensures forall i, j :: 0 <= i < j < 8 ==> GainValues[i] < GainValues[j]
  {
  }

  /** Codes and values are unique in both tables. */
  lemma TablesBijective()
    ensures Bijective(GainTable) && Bijective(PreGainTable)
  {
    GainTableShape();
  }

  /** Gain `code_to_val` maps codes 0 to 7 onto 1, 2, 4, 5, 8, 10, 16, 32 and
      rejects every other code; `val_to_code` accepts exactly those eight values. */
  lemma GainLookups(code: int, val: int)
    ensures CodeToVal(GainTable, code) == if 0 <= code < 8 then Ok(GainValues[code]) else Err(GainError)
    ensures ValToCode(GainTable, val).Ok? <==> val in GainValues
  {
    TablesBijective();
    GainTableShape();
    LookupSpec(GainTable, ByCode, code);
    if 0 <= code < 8 { assert Key(GainTable[code], ByCode) == code; }
    LookupSpec(GainTable, ByVal, val);
    if val in GainValues {
      var i :| 0 <= i < 8 && GainValues[i] == val;
      assert Key(GainTable[i], ByVal) == val;
    }
  }

  /** PreGain maps code 0 to 1 and code 1 to 10, and nothing else. */
  lemma PreGainLookups(code: int, val: int)
    ensures CodeToVal(PreGainTable, code) ==
      if code == 0 then Ok(1) else if code == 1 then Ok(10) else Err(GainError)
    ensures ValToCode(PreGainTable, val) ==
      if val == 1 then Ok(0) else if val == 10 then Ok(1) else Err(GainError)
  {
    TablesBijective();
    LookupSpec(PreGainTable, ByCode, code);
    LookupSpec(PreGainTable, ByVal, val);
    assert Key(PreGainTable[0], ByCode) == 0 && Key(PreGainTable[1], ByCode) == 1;
    assert Key(PreGainTable[0], ByVal) == 1 && Key(PreGainTable[1], ByVal) == 10;
  }

  /** A table in which a value occurs twice rejects that value, although it is
      defined: the lookup insists on exactly one match. */
  lemma DuplicateRejected(a: int, b: int, v: int)
    ensures ValToCode([GainType(a, v), GainType(b, v)], v) == Err(GainError)
  {
    var t := [GainType(a, v), GainType(b, v)];
    assert t[1..] == [GainType(b, v)] && t[1..][1..] == [];
    assert Matches(t, ByVal, v) == [a, b];
  }

  // ----- the copy in model/controller/helper.py -----

  /** `Gain.set` and `PreGain.set` of helper.py. */
  const HelperGainTable: seq<GainType> := [
    GainType(0, 1), GainType(1, 2), GainType(2, 4), GainType(3, 5),
    GainType(4, 8), GainType(5, 10), GainType(6, 16), GainType(7, 32)
  ]

  const HelperPreGainTable: seq<GainType> := [GainType(0, 1), GainType(1, 10)]

  /** `code_for_val`. */
  function CodeForVal(t: seq<GainType>, val: int): Result<int> {
    Lookup(t, ByVal, val)
  }

  /** `val_for_code`. */
  function ValForCode(t: seq<GainType>, code: int): Result<int> {
    Lookup(t, ByCode, code)
  }

  /** helper.py holds the same tables, and its lookups agree with gain.py's on
      every key: they are mutual inverses on the defined codes and values too. */
  lemma HelperAgrees(val: int, code: int)
    ensures HelperGainTable == GainTable && HelperPreGainTable == PreGainTable
    ensures CodeForVal(HelperGainTable, val) == ValToCode(GainTable, val)
    ensures ValForCode(HelperGainTable, code) == CodeToVal(GainTable, code)
    ensures CodeForVal(HelperPreGainTable, val) == ValToCode(PreGainTable, val)
    ensures ValForCode(HelperPreGainTable, code) == CodeToVal(PreGainTable, code)
    ensures ValForCode(HelperGainTable, code).Ok? ==>
      CodeForVal(HelperGainTable, ValForCode(HelperGainTable, code).value) == Ok(code)
  {
    TablesBijective();
    if ValForCode(HelperGainTable, code).Ok? {
      CodeRoundTrip(GainTable, code);
    }
  }
}
