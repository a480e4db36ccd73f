/** The block-capture pollers of model/controller/helper/poll.py: arm the
    device, read back until a block arrives, abort, and split the block into
    the two channels. */
module Poll {
  import opened Common
  import opened Scope
  import Interface

  /** `PollType`; `PollLimit` is its `LIMIT` member. */
  datatype PollType = Time | Fft | PollLimit

  /** The two poller classes. */
  datatype PollKind = TimePoll | FftPoll

  /** `make_poll`. */
  function MakePoll(t: PollType): (r: Result<PollKind>)
    ensures r.Ok? <==> t != PollLimit
    ensures r.Err? ==> r.error == InvalidPollType
  {
    match t
    case Time => Ok(TimePoll)
    case Fft => Ok(FftPoll)
    case PollLimit => Err(InvalidPollType)
  }

  /** `make_poll` gives the time poller for Time and the frequency poller for
      Fft. */
  lemma MakePollKinds()
    ensures MakePoll(Time) == Ok(TimePoll) && MakePoll(Fft) == Ok(FftPoll)
  {
  }

  /** `raadback_bytes`: the largest block the readback returns. */
  const ReadbackBytes := 205

  // ----- parsing -----

  /** `data[1:]`: the block without its status byte. */
  function Strip(data: seq<int>): (d: seq<int>)
    ensures |d| == if data == [] then 0 else |data| - 1
    ensures forall i :: 0 <= i < |d| ==> d[i] == data[i + 1]
  {
    if data == [] then [] else data[1..]
  }

  /** `d[0::2]`: the items at even positions. */
  function Evens(d: seq<int>): (r: seq<int>)
    decreases |d|
    ensures |r| == (|d| + 1) / 2
    ensures forall i :: 0 <= i < |r| ==> r[i] == d[2 * i]
  {
    if d == [] then []
    else if |d| == 1 then [d[0]]
    else [d[0]] + Evens(d[2..])
  }

  /** `d[1::2]`: the items at odd positions. */
  function Odds(d: seq<int>): (r: seq<int>)
    ensures |r| == |d| / 2
    ensures forall i :: 0 <= i < |r| ==> r[i] == d[2 * i + 1]
  {
    if d == [] then [] else Evens(d[1..])
  }

  /** One item of each channel in turn, the first channel first. */
  function Interleave(a: seq<int>, b: seq<int>): seq<int>
    requires |b| <= |a| <= |b| + 1
    decreases |a|
  {
    if a == [] then []
    else if b == [] then [a[0]]
    else [a[0], b[0]] + Interleave(a[1..], b[1..])
  }

  /** Re-interleaving the two channels gives the data back. */
  lemma {:induction false} InterleaveRestores(d: seq<int>)
    decreases |d|
    ensures Interleave(Evens(d), Odds(d)) == d
  {
    if |d| >= 2 {
      InterleaveRestores(d[2..]);
      assert Evens(d)[1..] == Evens(d[2..]);
      if |d| >= 3 {
        assert Odds(d)[1..] == Odds(d[2..]) by {
          assert d[1..][2..] == d[2..][1..];
        }
      }
      assert d == [d[0], d[1]] + d[2..];
    }
  }

  /** `PollTime._parse`: even positions of the stripped block go to channel 1,
      odd positions to channel 2. */
  function ParseTime(data: seq<int>): (seq<int>, seq<int>) {
    var d := Strip(data);
    (Evens(d), Odds(d))
  }

  /** For `n` samples after the status byte, channel 1 has `ceil(n/2)` of them
      and channel 2 `floor(n/2)`, and interleaving them gives `data[1:]` back. */
  lemma ParseTimeSpec(data: seq<int>)
    ensures var (c1, c2) := ParseTime(data); var n := |Strip(data)|;
      && |c1| == (n + 1) / 2 && |c2| == n / 2
      && (forall i :: 0 <= i < |c1| ==> c1[i] == data[2 * i + 1])
      && (forall i :: 0 <= i < |c2| ==> c2[i] == data[2 * i + 2])
      && Interleave(c1, c2) == Strip(data)
  {
    InterleaveRestores(Strip(data));
  }

  /** `PollFft._parse` as written: `len(data)/2 + 1` is a float in Python 3, and
      slicing with it raises TypeError on every block. The definition is that
      constant, so the as-written half of `ParseFftSpec` holds by definition;
      what carries content there is the corrected split. */
  function ParseFftAsWritten(data: seq<int>): Result<(seq<int>, seq<int>)> {
    Err(TypeError)
  }

  /** The evidently intended split index, `len(data)//2 + 1`. */
  function FftSplit(n: nat): nat {
    n / 2 + 1
  }

  /** `PollFft._parse` with the integer split index; slicing clamps an index
      past the end, as Python does. */
  function ParseFft(data: seq<int>): (seq<int>, seq<int>) {
    var d := Strip(data);
    var k := Min(FftSplit(|d|), |d|);
    (d[..k], d[k..])
  }

  /** The two parts are a prefix of `min(n/2 + 1, n)` samples and the rest,
      together `data[1:]`; the parse as written never returns. */
  lemma ParseFftSpec(data: seq<int>)
    ensures var (c1, c2) := ParseFft(data); var n := |Strip(data)|;
      && c1 + c2 == Strip(data)
      && |c1| == Min(n / 2 + 1, n)
      && ParseFftAsWritten(data) == Err(TypeError)
  {
    var d := Strip(data);
    var k := Min(FftSplit(|d|), |d|);
    assert d[..k] + d[k..] == d;
  }

  // ----- the capture -----

  /** Whether a readback result ends the `while not data` loop: None and an
      empty block do not. */
  predicate Arrived(b: Option<seq<int>>) {
    b.Some? && b.value != []
  }

  /** The index of the first block that arrives, or the script length. */
  function FirstArrival(script: seq<Option<seq<int>>>): (k: nat)
    ensures k <= |script|
    ensures forall j :: 0 <= j < k ==> !Arrived(script[j])
    ensures k < |script| ==> Arrived(script[k])
  {
    if script == [] then 0
    else if Arrived(script[0]) then 0
    else 1 + FirstArrival(script[1..])
  }

  /** `n` calls of `read_back(205)`. */
  function ReadBacks(n: nat): (qs: seq<Request>)
    ensures |qs| == n && forall i :: 0 <= i < n ==> qs[i] == ReadBack(ReadbackBytes)
  {
    if n == 0 then [] else ReadBacks(n - 1) + [ReadBack(ReadbackBytes)]
  }

  /** What `do` returns, the commands it issues and the readback script left. */
  datatype Capture = Capture(result: Result<(seq<int>, seq<int>)>, log: seq<Request>,
                             rest: seq<Option<seq<int>>>)

  const ArmOp := Interface.Arm.opcode
  const ReadBackOp := Interface.ReadBackOpcode
  const AbortOp := Interface.Abort.opcode

  /** The readback loop alone: its result, how many readbacks it issues and
      the script left. */
  datatype Wait = Wait(result: Result<seq<int>>, count: nat, rest: seq<Option<seq<int>>>)

  /** `while not data: data = read_back(205)`: the loop stops at the first
      block that arrived; a failing readback or an exhausted script raises. */
  function Await(f: set<int>, script: seq<Option<seq<int>>>): Wait {
    var k := FirstArrival(script);
    if ReadBackOp in f then Wait(Err(CommsError(DeviceFault)), 1, script)
    else if k == |script| then Wait(Err(NoDataYet), k + 1, [])
    else Wait(Ok(script[k].value), k + 1, script[k + 1..])
  }

  /** The readback loop and what follows it, once the device is armed. */
  function Collect(kind: PollKind, f: set<int>, script: seq<Option<seq<int>>>): Capture {
    var w := Await(f, script);
    if w.result.Err? then Capture(Err(w.result.error), ReadBacks(w.count), w.rest)
    else
      var log := ReadBacks(w.count) + [Abort];
      if AbortOp in f then Capture(Err(CommsError(DeviceFault)), log, w.rest)
      else
        var data := w.result.value;
        Capture(Ok(if kind == TimePoll then ParseTime(data) else ParseFft(data)), log, w.rest)
  }

  /** `do`: the time poller sends `arm(0)`; the frequency poller's `arm_fft()`
      passes no argument to a `"BB"` command and is refused by the count check
      before anything is written. */
  function DoStep(kind: PollKind, f: set<int>, script: seq<Option<seq<int>>>): Capture {
    if kind == FftPoll then Capture(Err(CommandError), [], script)
    else if ArmOp in f then Capture(Err(CommsError(DeviceFault)), [Arm(0)], script)
    else
      var c := Collect(kind, f, script);
      Capture(c.result, [Arm(0)] + c.log, c.rest)
  }

  /** A capture that succeeds arms with `arm(0)`, reads back until the first
      block that arrived, sends `abort` exactly once, and returns that block
      parsed; the frequency poller never gets past its arm. */
  lemma DoSpec(kind: PollKind, f: set<int>, script: seq<Option<seq<int>>>)
    ensures var c := DoStep(kind, f, script); var k := FirstArrival(script);
      && (kind == FftPoll ==> c.result == Err(CommandError) && c.log == [])
      && (c.result.Ok? ==>
            && kind == TimePoll && k < |script|
            && c.log == [Arm(0)] + ReadBacks(k + 1) + [Abort]
            && c.result.value == ParseTime(script[k].value)
            && c.rest == script[k + 1..]
            && (forall i :: 0 <= i < |c.log| - 1 ==> c.log[i] != Abort))
      && (kind == TimePoll && ArmOp !in f && ReadBackOp !in f && AbortOp !in f ==>
            (c.result.Ok? <==> k < |script|))
  {
    var k := FirstArrival(script);
    if DoStep(kind, f, script).result.Ok? {
      var log := [Arm(0)] + ReadBacks(k + 1) + [Abort];
      assert forall i :: 0 <= i < |log| - 1 ==> log[i] != Abort by {
        forall i | 0 <= i < |log| - 1 ensures log[i] != Abort {
          if i > 0 { assert log[i] == ReadBacks(k + 1)[i - 1]; }
        }
      }
    }
  }

  /** `PollTime` and `PollFft` over the fake interface. */
  class Poller {
    const kind: PollKind
    const scope: FakeScope

    constructor (kind: PollKind, scope: FakeScope)
      ensures this.kind == kind && this.scope == scope
    {
      this.kind := kind;
      this.scope := scope;
    }

    /** `_arm`. */
    method Arming() returns (o: Outcome)
      modifies scope`log
      ensures kind == FftPoll ==> o == Fail(CommandError) && scope.log == old(scope.log)
      ensures kind == TimePoll ==>
        && scope.log == old(scope.log) + [Arm(0)]
        && (o.Fail? <==> ArmOp in scope.failing)
        && (o.Fail? ==> o.error == CommsError(DeviceFault))
    {
      if kind == TimePoll {
        var x := Issue(scope, Arm(0));
        o := if x.Ok? then Pass else Fail(x.error);
      } else {
        ArmFftWithoutArgumentsRefused();
        var x := scope.Send(ArmFft([]));
        o := if x.Ok? then Pass else Fail(x.error);
      }
    }

    /** The readback loop of `do`. */
    method AwaitBlock() returns (r: Result<seq<int>>)
      modifies scope`log, scope`blocks
      ensures var w := Await(scope.failing, old(scope.blocks));
        && r == w.result && scope.log == old(scope.log) + ReadBacks(w.count) && scope.blocks == w.rest
    {
      ghost var script := scope.blocks;
      var data: Option<seq<int>> := None;
      ghost var n: nat := 0;
      while !Arrived(data)
        invariant n <= |script| && scope.blocks == script[n..]
        invariant n > 0 ==> forall j :: 0 <= j < n - 1 ==> !Arrived(script[j])
        invariant n == 0 ==> data == None
        invariant ReadBackOp in scope.failing ==> n == 0
        invariant n > 0 ==> data == script[n - 1]
        invariant scope.log == old(scope.log) + ReadBacks(n)
        decreases |scope.blocks|, if Arrived(data) then 0 else 1
      {
        var got := scope.ReadBack(ReadbackBytes);
        if got.Err? {
          if got.error == NoDataYet {
            FirstArrivalSkips(script, n);
          }
          return Err(got.error);
        }
        data := got.value;
        n := n + 1;
      }
      FirstArrivalSkips(script, n - 1);
      r := Ok(data.value);
    }

    /** Everything `do` does after the arm. */
    method CollectBlock() returns (r: Result<(seq<int>, seq<int>)>)
      modifies scope`log, scope`blocks
      ensures var c := Collect(kind, scope.failing, old(scope.blocks));
        && r == c.result && scope.log == old(scope.log) + c.log && scope.blocks == c.rest
    {
      var data := AwaitBlock();
      if data.Err? {
        return Err(data.error);
      }
      var x := Issue(scope, Abort);
      if x.Err? {
        return Err(x.error);
      }
      r := Ok(if kind == TimePoll then ParseTime(data.value) else ParseFft(data.value));
    }

    /** `do`. */
    method Do() returns (r: Result<(seq<int>, seq<int>)>)
      modifies scope`log, scope`blocks
      ensures var c := DoStep(kind, scope.failing, old(scope.blocks));
        && r == c.result && scope.log == old(scope.log) + c.log && scope.blocks == c.rest
    {
      var armed := Arming();
      if armed.Fail? {
        return Err(armed.error);
      }
      r := CollectBlock();
      ghost var c := Collect(kind, scope.failing, old(scope.blocks));
      AppendAssoc(old(scope.log), [Arm(0)], c.log);
    }
  }

  /** The first arrival is at `n` when none of the first `n` blocks arrived and
      block `n` did, or the script ended there. */
  lemma {:induction false} FirstArrivalSkips(script: seq<Option<seq<int>>>, n: nat)
    requires n <= |script|
    requires forall j :: 0 <= j < n ==> !Arrived(script[j])
    requires n < |script| ==> Arrived(script[n])
    ensures FirstArrival(script) == n
  {
    if n > 0 {
      assert !Arrived(script[0]);
      FirstArrivalSkips(script[1..], n - 1);
    }
  }
}
