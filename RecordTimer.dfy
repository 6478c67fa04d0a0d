/** The elapsed-time flow of the recorder controller (startTimer) and the accumulation of
    its emissions into the running total. The wall clock is an input: each loop iteration
    reads it twice, once for the emitted delta and once for the new start. */
module RecordTimer {

  /** The two clock readings one iteration of the timer loop takes: `current` before the
      emission and `restart`, the new startMillis, after it. */
  datatype Tick = Tick(current: int, restart: int)

  /** One emission: the time since the last start when the clock moved forward, else 0. */
  function Elapsed(start: int, current: int): (d: nat)
    ensures current > start ==> d == current - start
    ensures current <= start ==> d == 0
  {
    if current > start then current - start else 0
  }

  /** The value of startMillis at the beginning of iteration k. */
  function StartOf(start: int, ticks: seq<Tick>, k: nat): int
    requires k <= |ticks|
  {
    if k == 0 then start else ticks[k - 1].restart
  }

  /** Sum of a sequence of emissions, added from the front as the collector receives them. */
  function Sum(s: seq<nat>): nat {
    if s == [] then 0 else Sum(s[..|s| - 1]) + s[|s| - 1]
  }

  /** Total time the emissions of a recording timer add up to over a run of iterations. */
  function ElapsedTotal(start: int, ticks: seq<Tick>): nat
    decreases |ticks|
  {
    if ticks == [] then 0
    else Elapsed(start, ticks[0].current) + ElapsedTotal(ticks[0].restart, ticks[1..])
  }

  /** startTimer(isRecording): reads startMillis, then while recording emits the clamped
      delta to the current reading and restarts from a new reading. The sequence of ticks
      is the iterations that run before the flow is cancelled. Returns the emissions and
      the final value of startMillis. */
  method TimerFlow(isRecording: bool, start: int, ticks: seq<Tick>) returns (emitted: seq<nat>, startMillis: int)
    ensures !isRecording ==> emitted == [] && startMillis == start
    ensures isRecording ==> |emitted| == |ticks| && startMillis == StartOf(start, ticks, |ticks|)
    ensures forall k :: 0 <= k < |emitted| ==> emitted[k] == Elapsed(StartOf(start, ticks, k), ticks[k].current)
    ensures Sum(emitted) == if isRecording then ElapsedTotal(start, ticks) else 0
  {
    startMillis := start;
    emitted := [];
    var i := 0;
    while isRecording && i < |ticks|
      invariant 0 <= i <= |ticks|
      invariant !isRecording ==> i == 0
      invariant |emitted| == i
      invariant startMillis == StartOf(start, ticks, i)
      invariant forall k :: 0 <= k < i ==> emitted[k] == Elapsed(StartOf(start, ticks, k), ticks[k].current)
      invariant Sum(emitted) + ElapsedTotal(startMillis, ticks[i..]) == ElapsedTotal(start, ticks)
    {
      var elapsedTimeSinceStart := Elapsed(startMillis, ticks[i].current);
      assert ticks[i..][1..] == ticks[i + 1..];
      assert (emitted + [elapsedTimeSinceStart])[..i] == emitted;
      emitted := emitted + [elapsedTimeSinceStart];
      startMillis := ticks[i].restart;
      i := i + 1;
    }
  }

  /** Readings of a clock that never goes backwards: start, then each current and restart. */
  predicate Monotone(start: int, ticks: seq<Tick>) {
    forall k :: 0 <= k < |ticks| ==>
      StartOf(start, ticks, k) <= ticks[k].current <= ticks[k].restart
  }

  /** Restarting exactly at the emission's reading leaves no gap between iterations. */
  predicate Gapless(ticks: seq<Tick>) {
    forall k :: 0 <= k < |ticks| ==> ticks[k].restart == ticks[k].current
  }

  lemma {:induction false} MonotoneTail(start: int, ticks: seq<Tick>)
    requires ticks != [] && Monotone(start, ticks)
    ensures Monotone(ticks[0].restart, ticks[1..])
  {
    forall k | 0 <= k < |ticks[1..]|
      ensures StartOf(ticks[0].restart, ticks[1..], k) <= ticks[1..][k].current <= ticks[1..][k].restart
    {
      assert StartOf(ticks[0].restart, ticks[1..], k) == StartOf(start, ticks, k + 1);
      assert ticks[1..][k] == ticks[k + 1];
    }
  }

  /** On a clock that never goes backwards the accumulated time never exceeds the clock
      time since the timer started, and equals it when each iteration restarts at the
      reading it emitted against: time is lost only between an emission and the restart. */
  lemma {:induction false} ElapsedTotalBound(start: int, ticks: seq<Tick>)
    requires Monotone(start, ticks)
    ensures ElapsedTotal(start, ticks) <= StartOf(start, ticks, |ticks|) - start
    ensures Gapless(ticks) ==> ElapsedTotal(start, ticks) == StartOf(start, ticks, |ticks|) - start
    decreases |ticks|
  {
    if ticks != [] {
      assert StartOf(start, ticks, 0) <= ticks[0].current <= ticks[0].restart;
      MonotoneTail(start, ticks);
      ElapsedTotalBound(ticks[0].restart, ticks[1..]);
      assert StartOf(ticks[0].restart, ticks[1..], |ticks[1..]|) == StartOf(start, ticks, |ticks|);
      if Gapless(ticks) {
        assert Gapless(ticks[1..]) by {
          forall k | 0 <= k < |ticks[1..]| ensures ticks[1..][k].restart == ticks[1..][k].current {
            assert ticks[1..][k] == ticks[k + 1];
          }
        }
      }
    }
  }
}
