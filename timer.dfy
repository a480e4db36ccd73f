/** The rolling-rate timer of common/timer.py (`RateInTimeWindow`). The ping
    queue is a count of pending marks, the results queue a sequence of rates,
    and the worker process one call of `Step` per loop iteration at a given
    monotonic clock reading. */
module Timer {
  import opened Common
  import Concurrent

  /** The stamps are in temporal order. */
  predicate Sorted(s: seq<real>) {
    forall i, j :: 0 <= i < j < |s| ==> s[i] <= s[j]
  }

  /** How many stamps `_trim_timestamps_c(t_ref)` pops: it pops from the front
      while the first stamp is earlier than `ref`, and the IndexError on running
      out only logs. Every stamp popped is earlier than `ref`, and the first one
      kept is not. */
  function TrimCount(s: seq<real>, ref: real): (k: nat)
    decreases |s|
    ensures k <= |s|
    ensures forall j :: 0 <= j < k ==> s[j] < ref
    ensures k < |s| ==> s[k] >= ref
  {
    if s != [] && s[0] < ref then 1 + TrimCount(s[1..], ref) else 0
  }

  /** The buffer after trimming: a suffix of the buffer before. */
  function Trimmed(s: seq<real>, ref: real): seq<real> {
    s[TrimCount(s, ref)..]
  }

  /** For a buffer in temporal order, trimming keeps exactly the stamps no
      earlier than the reference: all of them survive, and nothing earlier. */
  lemma TrimSorted(s: seq<real>, ref: real)
    requires Sorted(s)
    ensures var r := Trimmed(s, ref);
      && Sorted(r)
      && (forall i :: 0 <= i < |r| ==> r[i] >= ref)
      && (forall j :: 0 <= j < |s| && s[j] >= ref ==> s[j] in r)
  {
    var r := Trimmed(s, ref);
    var k := TrimCount(s, ref);
    forall i | 0 <= i < |r| ensures r[i] >= ref {
      assert r[i] == s[k + i] && r[0] == s[k];
    }
    forall j | 0 <= j < |s| && s[j] >= ref ensures s[j] in r {
      assert k <= j;
      assert s[j] == r[j - k];
    }
  }

  /** A buffer whose stamps are all older than the reference ends empty (the
      IndexError path); an empty buffer is left as it is. */
  lemma TrimEdges(s: seq<real>, ref: real)
    ensures (forall i :: 0 <= i < |s| ==> s[i] < ref) ==> Trimmed(s, ref) == []
    ensures Trimmed([], ref) == []
  {
  }

  /** The timer's state: the stamps buffer, the marks not yet taken and the
      rates put on the results queue, oldest first. */
  datatype Window = Window(stamps: seq<real>, pings: nat, rates: seq<real>)

  /** What one loop iteration raises, if anything, and the state after it. */
  datatype Turn = Turn(outcome: Outcome, state: Window)

  /** `_time_window_s`. */
  function WindowSeconds(windowMs: real): real {
    windowMs / 1000.0
  }

  /** `_timer_c` at clock reading `now`: with no mark the wait for a ping times
      out (Empty) and nothing changes; otherwise the mark is taken, the buffer is
      trimmed to the window and `now` appended, and the rate, the buffer length
      over the window, is queued.  A zero window raises ZeroDivisionError after
      the append, which `_timer_c` does not catch. */
  function TimerStep(w: Window, windowMs: real, now: real): Turn {
    if w.pings == 0 then Turn(Pass, w)
    else
      var stamps := Trimmed(w.stamps, now - WindowSeconds(windowMs)) + [now];
      var taken := w.(pings := w.pings - 1, stamps := stamps);
      if WindowSeconds(windowMs) == 0.0 then Turn(Fail(ZeroDivisionError), taken)
      else Turn(Pass, taken.(rates := w.rates + [|stamps| as real / WindowSeconds(windowMs)]))
  }

  /** With no mark the step is a no-op. With one, exactly one mark is taken,
      the new buffer ends with `now`, and the rate queued is the buffer length
      over the window in seconds; a zero window raises instead of queueing. */
  lemma TimerStepSpec(w: Window, windowMs: real, now: real)
    ensures w.pings == 0 ==> TimerStep(w, windowMs, now) == Turn(Pass, w)
    ensures w.pings > 0 ==>
      var t := TimerStep(w, windowMs, now); var s := t.state.stamps;
      && t.state.pings == w.pings - 1
      && s != [] && s[|s| - 1] == now
      && (t.outcome.Fail? <==> windowMs == 0.0)
      && (t.outcome.Fail? ==> t.outcome.error == ZeroDivisionError && t.state.rates == w.rates)
      && (t.outcome.Pass? ==> t.state.rates == w.rates + [1000.0 * |s| as real / windowMs])
  {
    if w.pings > 0 && windowMs != 0.0 {
      var s := TimerStep(w, windowMs, now).state.stamps;
      PerMillisecond(|s| as real, windowMs);
    }
  }

  lemma PerMillisecond(n: real, ms: real)
    requires ms != 0.0
    ensures n / (ms / 1000.0) == 1000.0 * n / ms
  {
    var x := n / (ms / 1000.0);
    assert x * (ms / 1000.0) == n;
    assert (1000.0 * n / ms) * ms == 1000.0 * n;
    assert x * ms == 1000.0 * n;
  }

  /** A stamp no earlier than the buffer's stamps keeps it in order. */
  lemma SortedAppend(r: seq<real>, now: real)
    requires Sorted(r) && forall i :: 0 <= i < |r| ==> r[i] <= now
    ensures Sorted(r + [now])
  {
  }

  /** For stamps in order and no later than `now`, the buffer after the step
      stays in order, and after a mark with a window of no negative length it
      holds only stamps within the window ending at `now`. */
  lemma TimerStepKeepsOrder(w: Window, windowMs: real, now: real)
    requires Sorted(w.stamps) && forall i :: 0 <= i < |w.stamps| ==> w.stamps[i] <= now
    ensures var s := TimerStep(w, windowMs, now).state.stamps;
      && Sorted(s)
      && (w.pings > 0 && windowMs >= 0.0 ==> forall i :: 0 <= i < |s| ==> now - windowMs / 1000.0 <= s[i] <= now)
  {
    if w.pings > 0 {
      TrimThenAppend(w.stamps, now - WindowSeconds(windowMs), now);
    }
  }

  /** Trimming a buffer in order to `ref` and appending a later `now` leaves a
      buffer in order; with `ref <= now` all its stamps lie between the two. */
  lemma TrimThenAppend(stamps: seq<real>, ref: real, now: real)
    requires Sorted(stamps) && forall i :: 0 <= i < |stamps| ==> stamps[i] <= now
    ensures var s := Trimmed(stamps, ref) + [now];
      && Sorted(s)
      && (ref <= now ==> forall i :: 0 <= i < |s| ==> ref <= s[i] <= now)
  {
    var r := Trimmed(stamps, ref);
    TrimSorted(stamps, ref);
    var k := TrimCount(stamps, ref);
    assert forall i :: 0 <= i < |r| ==> r[i] == stamps[k + i];
    SortedAppend(r, now);
  }

  /** The last rate queued, if any. */
  function Latest(rates: seq<real>): (r: Option<real>)
    ensures r.None? <==> rates == []
    ensures r.Some? ==> r.value == rates[|rates| - 1] && r.value in rates
  {
    if rates == [] then None else Some(rates[|rates| - 1])
  }

  /** `RateInTimeWindow`. */
  class RateWindow {
    /** `_time_window_ms`. */
    const windowMs: real
    /** `_time_stamps`. */
    var stamps: seq<real>
    /** The marks on `_ping_signal` not yet taken. */
    var pings: nat
    /** `_rate_results`, oldest first. */
    var rates: seq<real>
    /** `_loop_runner`, a process loop with period 0. */
    const runner: Concurrent.Scheduler

    function State(): Window
      reads this
    {
      Window(stamps, pings, rates)
    }

    /** `__init__(time_window_ms)`, at clock reading `now`. */
    constructor (windowMs: real, now: real)
      ensures this.windowMs == windowMs && stamps == [] && pings == 0 && rates == []
      ensures fresh(runner) && !runner.worker && runner.periodMs == 0.0
    {
      this.windowMs := windowMs;
      stamps := [];
      pings := 0;
      rates := [];
      runner := new Concurrent.Scheduler(0.0, now);
    }

    /** `_trim_timestamps_c`: pops from the front in place. */
    method Trim(ref: real)
      modifies this`stamps
      ensures stamps == Trimmed(old(stamps), ref)
    {
      if |stamps| > 0 {
        ghost var i := 0;
        while stamps != [] && stamps[0] < ref
          invariant 0 <= i <= |old(stamps)| && stamps == old(stamps)[i..]
          invariant i + TrimCount(stamps, ref) == TrimCount(old(stamps), ref)
          decreases |stamps|
        {
          stamps := stamps[1..];
          i := i + 1;
        }
      }
    }

    /** `_timer_c` at clock reading `now`. */
    method Step(now: real) returns (o: Outcome)
      modifies this`stamps, this`pings, this`rates
      ensures Turn(o, State()) == TimerStep(old(State()), windowMs, now)
    {
      if pings == 0 {
        return Pass;
      }
      pings := pings - 1;
      Trim(now - WindowSeconds(windowMs));
      stamps := stamps + [now];
      if WindowSeconds(windowMs) == 0.0 {
        return Fail(ZeroDivisionError);
      }
      rates := rates + [|stamps| as real / WindowSeconds(windowMs)];
      o := Pass;
    }

    /** `mark`: one more ping on the queue. */
    method Mark()
      modifies this`pings
      ensures pings == old(pings) + 1
    {
      pings := pings + 1;
    }

    /** `rate_get`: drains the results queue and returns the last rate, or None
        when the queue was empty. */
    method RateGet() returns (r: Option<real>)
      modifies this`rates
      ensures r == Latest(old(rates)) && rates == []
    {
      r := None;
      ghost var i := 0;
      while rates != []
        invariant 0 <= i <= |old(rates)| && rates == old(rates)[i..]
        invariant r == if i == 0 then None else Some(old(rates)[i - 1])
        decreases |rates|
      {
        r := Some(rates[0]);
        rates := rates[1..];
        i := i + 1;
      }
    }

    /** `start`. */
    method Start(now: real) returns (o: Outcome)
      modifies runner`worker, runner`looping, runner`deadline
      ensures old(runner.worker) ==>
        o == Fail(ConcurrentError) && runner.worker && runner.looping == old(runner.looping) && runner.deadline == old(runner.deadline)
      ensures !old(runner.worker) ==> o == Pass && runner.worker && runner.looping && runner.deadline == now
    {
      o := runner.Start(now);
    }

    /** `stop`: the loop runner stops, then the buffer is cleared. */
    method Stop(clock: seq<real>)
      modifies runner`worker, runner`looping, runner`signals, runner`deadline, runner`runs, this`stamps
      ensures !runner.worker && stamps == []
      ensures !old(runner.worker) ==> runner.State() == old(runner.State())
      ensures old(runner.worker) ==>
        runner.State() == Concurrent.Trace(old(runner.State()).(signals := old(runner.signals) + [true]), runner.periodMs, clock)
      ensures old(runner.worker) && |clock| > |old(runner.signals)| ==> !runner.looping
    {
      runner.Stop(clock);
      stamps := [];
    }
  }
}
