/** The periodic runner of concurrent.py (`ConcurrentBase`). The worker thread
    is modelled by its loop state and driven by a sequence of clock readings,
    one per iteration of `_main_loop_c`; each run of the looped function is
    recorded by the clock reading at which it happened. */
module Concurrent {
  import opened Common

  /** What the worker's loop works on: whether it still loops, the pending stop
      queue, the next deadline (seconds) and the readings at which the looped
      function ran. */
  datatype Loop = Loop(looping: bool, signals: seq<bool>, deadline: real, runs: seq<real>)

  /** One iteration of `_main_loop_c` at clock reading `now`: take a stop signal
      if one is queued, and end on a truthy one; otherwise run the body when the
      deadline has come and move the deadline on by one period. */
  function Tick(s: Loop, periodMs: real, now: real): Loop
    requires s.looping
  {
    if s.signals != [] && s.signals[0] then s.(looping := false, signals := s.signals[1..])
    else
      var rest := if s.signals == [] then [] else s.signals[1..];
      if now >= s.deadline then
        s.(signals := rest, deadline := s.deadline + periodMs / 1000.0, runs := s.runs + [now])
      else s.(signals := rest)
  }

  /** The loop over successive clock readings, until the readings run out or the
      loop ends. */
  function Trace(s: Loop, periodMs: real, clock: seq<real>): Loop
    decreases |clock|
  {
    if clock == [] || !s.looping then s
    else Trace(Tick(s, periodMs, clock[0]), periodMs, clock[1..])
  }

  /** A truthy stop signal is looked at before the clock: the loop ends and the
      body does not run. */
  lemma StopSignalFirst(s: Loop, periodMs: real, now: real)
    requires s.looping && s.signals != [] && s.signals[0]
    ensures var t := Tick(s, periodMs, now);
      !t.looping && t.runs == s.runs && t.deadline == s.deadline
      && forall c :: Trace(t, periodMs, c) == t
  {
  }

  /** Without a truthy signal the body runs exactly when the deadline has come,
      and then the deadline moves by exactly one period, whatever `now` is. */
  lemma TickFires(s: Loop, periodMs: real, now: real)
    requires s.looping && !(s.signals != [] && s.signals[0])
    ensures var t := Tick(s, periodMs, now);
      && t.looping
      && (now >= s.deadline ==> t.runs == s.runs + [now] && t.deadline == s.deadline + periodMs / 1000.0)
      && (now < s.deadline ==> t.runs == s.runs && t.deadline == s.deadline)
  {
  }

  /** `m` periods of `periodMs` milliseconds, in seconds, added one at a time
      as the loop adds them. */
  function Periods(m: nat, periodMs: real): real {
    if m == 0 then 0.0 else Periods(m - 1, periodMs) + periodMs / 1000.0
  }

  /** ... which is `m` times the period. */
  lemma {:induction false} PeriodsTimes(m: nat, periodMs: real)
    ensures Periods(m, periodMs) == m as real * (periodMs / 1000.0)
  {
    if m > 0 {
      PeriodsTimes(m - 1, periodMs);
      assert m as real * (periodMs / 1000.0) == (m - 1) as real * (periodMs / 1000.0) + periodMs / 1000.0;
    }
  }

  /** The deadline is never reset from the clock: after any readings it is the
      deadline on entry plus one period per run, and earlier runs are kept. */
  lemma {:induction false} TraceDeadline(s: Loop, periodMs: real, clock: seq<real>)
    decreases |clock|
    ensures var t := Trace(s, periodMs, clock);
      && |s.runs| <= |t.runs| && t.runs[..|s.runs|] == s.runs
      && t.deadline == s.deadline + Periods(|t.runs| - |s.runs|, periodMs)
  {
    if clock != [] && s.looping {
      var u := Tick(s, periodMs, clock[0]);
      TraceDeadline(u, periodMs, clock[1..]);
      var t := Trace(u, periodMs, clock[1..]);
      assert t.runs[..|s.runs|] == t.runs[..|u.runs|][..|s.runs|];
      if |u.runs| > |s.runs| {
        PeriodsShift(|t.runs| - |u.runs|, periodMs);
      }
    }
  }

  /** One period first, then `m` more, is `m + 1` periods. */
  lemma {:induction false} PeriodsShift(m: nat, periodMs: real)
    ensures periodMs / 1000.0 + Periods(m, periodMs) == Periods(m + 1, periodMs)
  {
  }

  /** The k-th run after entry happens at a clock reading no earlier than the
      entry deadline plus k periods, and at one of the readings. */
  lemma {:induction false} TraceRunsOnTime(s: Loop, periodMs: real, clock: seq<real>)
    decreases |clock|
    ensures var t := Trace(s, periodMs, clock);
      forall k :: |s.runs| <= k < |t.runs| ==>
        t.runs[k] >= s.deadline + Periods(k - |s.runs|, periodMs) && t.runs[k] in clock
  {
    if clock != [] && s.looping {
      var u := Tick(s, periodMs, clock[0]);
      TraceRunsOnTime(u, periodMs, clock[1..]);
      TraceDeadline(u, periodMs, clock[1..]);
      var t := Trace(u, periodMs, clock[1..]);
      assert t == Trace(s, periodMs, clock);
      if |u.runs| > |s.runs| {
        assert t.runs[|s.runs|] == t.runs[..|u.runs|][|s.runs|] == clock[0];
        forall k | |u.runs| <= k < |t.runs|
          ensures t.runs[k] >= s.deadline + Periods(k - |s.runs|, periodMs)
        {
          PeriodsShift(k - |u.runs|, periodMs);
        }
      }
    }
  }

  /** The last run, as an instance of `TraceRunsOnTime`. */
  lemma LastRunOnTime(s: Loop, periodMs: real, clock: seq<real>)
    requires |Trace(s, periodMs, clock).runs| > |s.runs|
    ensures var t := Trace(s, periodMs, clock); var k := |t.runs| - 1;
      t.runs[k] >= s.deadline + Periods(k - |s.runs|, periodMs) && t.runs[k] in clock
  {
    TraceRunsOnTime(s, periodMs, clock);
  }

  /** The runs up to time `T` are bounded: if `n` runs happened at readings no
      later than `T`, then `n - 1` periods fit between the entry deadline and
      `T` (by `PeriodsTimes`, `(n - 1) * period <= T - start`), so with a
      positive period `n <= floor((T - start) / period) + 1`. */
  lemma RunCountBound(s: Loop, periodMs: real, clock: seq<real>, horizon: real)
    requires forall i :: 0 <= i < |clock| ==> clock[i] <= horizon
    ensures var n := |Trace(s, periodMs, clock).runs| - |s.runs|;
      n > 0 ==> Periods(n - 1, periodMs) <= horizon - s.deadline
  {
    var t := Trace(s, periodMs, clock);
    if |t.runs| > |s.runs| {
      var k := |t.runs| - 1;
      LastRunOnTime(s, periodMs, clock);
      var i :| 0 <= i < |clock| && clock[i] == t.runs[k];
    }
  }

  /** A queue whose last signal is truthy ends the loop within as many
      iterations as it holds signals: the join of `stop` returns. */
  lemma {:induction false} StopSignalEndsLoop(s: Loop, periodMs: real, clock: seq<real>)
    requires s.signals != [] && s.signals[|s.signals| - 1]
    requires |clock| >= |s.signals|
    decreases |clock|
    ensures !Trace(s, periodMs, clock).looping
  {
    if s.looping {
      var u := Tick(s, periodMs, clock[0]);
      if u.looping {
        assert u.signals == s.signals[1..];
        StopSignalEndsLoop(u, periodMs, clock[1..]);
      }
    }
  }

  /** `ConcurrentBase` with its worker: `worker` stands for `thread_process`
      being set. */
  class Scheduler {
    var worker: bool
    var looping: bool
    /** `_stop_command`, oldest first. */
    var signals: seq<bool>
    var periodMs: real
    /** `_t_next`, in seconds. */
    var deadline: real
    var runs: seq<real>

    function State(): Loop
      reads this
    {
      Loop(looping, signals, deadline, runs)
    }

    /** `__init__(period_ms)` at clock reading `now`. */
    constructor (periodMs: real, now: real)
      ensures !worker && !looping && signals == [] && runs == []
      ensures this.periodMs == periodMs && deadline == now
    {
      worker := false;
      looping := false;
      signals := [];
      this.periodMs := periodMs;
      deadline := now;
      runs := [];
    }

    /** The `period_ms` setter. */
    method SetPeriod(periodMs: real)
      modifies this`periodMs
      ensures this.periodMs == periodMs
    {
      this.periodMs := periodMs;
    }

    /** `start` at clock reading `now`: from idle it creates the worker, whose
        loop sets the deadline to that reading on entry; with a worker present it
        raises ConcurrentException and changes nothing. */
    method Start(now: real) returns (o: Outcome)
      modifies this`worker, this`looping, this`deadline
      ensures old(worker) ==> o == Fail(ConcurrentError) && worker && looping == old(looping) && deadline == old(deadline)
      ensures !old(worker) ==> o == Pass && worker && looping && deadline == now
    {
      if worker {
        return Fail(ConcurrentError);
      }
      worker := true;
      looping := true;
      deadline := now;
      o := Pass;
    }

    /** One iteration of the worker's loop. */
    method Iterate(now: real)
      requires looping
      modifies this`looping, this`signals, this`deadline, this`runs
      ensures State() == Tick(old(State()), periodMs, now)
    {
      var stop := false;
      if signals != [] {
        stop := signals[0];
        signals := signals[1..];
      }
      if stop {
        looping := false;
        return;
      }
      if now >= deadline {
        runs := runs + [now];
        deadline := deadline + periodMs / 1000.0;
      }
    }

    /** The worker's loop over successive clock readings. */
    method Run(clock: seq<real>)
      modifies this`looping, this`signals, this`deadline, this`runs
      ensures State() == Trace(old(State()), periodMs, clock)
    {
      var i := 0;
      while i < |clock| && looping
        invariant 0 <= i <= |clock|
        invariant Trace(old(State()), periodMs, clock) == Trace(State(), periodMs, clock[i..])
      {
        assert clock[i..][1..] == clock[i + 1..];
        Iterate(clock[i]);
        i := i + 1;
      }
    }

    /** `stop`: on an idle scheduler nothing happens. Otherwise the stop signal is
        posted, the worker runs on over the readings `clock` until it ends (the
        join) and the scheduler is idle again, so `start` succeeds. */
    method Stop(clock: seq<real>)
      modifies this`worker, this`looping, this`signals, this`deadline, this`runs
      ensures !worker
      ensures !old(worker) ==> State() == old(State())
      ensures old(worker) ==>
        State() == Trace(old(State()).(signals := old(signals) + [true]), periodMs, clock)
      ensures old(worker) && |clock| > |old(signals)| ==> !looping
    {
      if worker {
        signals := signals + [true];
        Run(clock);
        if |clock| > |old(signals)| {
          StopSignalEndsLoop(old(State()).(signals := old(signals) + [true]), periodMs, clock);
        }
        worker := false;
      }
    }

    /** `close`: ConcurrentException while a stop signal is still queued. */
    method Close() returns (o: Outcome)
      ensures o.Fail? <==> signals != []
      ensures o.Fail? ==> o.error == ConcurrentError
    {
      if signals != [] {
        return Fail(ConcurrentError);
      }
      o := Pass;
    }
  }

  /** Right after `start` the deadline is the entry reading, so the first
      iteration at that reading runs the body at once. */
  lemma FirstIterationFires(s: Loop, periodMs: real, now: real)
    requires s.looping && s.deadline == now && s.signals == []
    ensures Tick(s, periodMs, now).runs == s.runs + [now]
  {
  }
}
