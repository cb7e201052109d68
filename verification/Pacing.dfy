/** When the pacer ticks (run_until in pacer.py): each tick is due a period after the one before was due, not after it
ended.
*/
module Pacing {

  // How long a tick's work takes, and how late the sleep after it wakes; any clock, any machine.
  datatype Tick = Tick(work: real, overshoot: real)

  // When a tick starts, and when it was due.
  datatype Loop = Loop(start: real, due: real)

  predicate Forward(ts: seq<Tick>) {
    forall k :: 0 <= k < |ts| ==> ts[k].work >= 0.0 && ts[k].overshoot >= 0.0
  }

  function Next(period: real, l: Loop, t: Tick): Loop {
    var now := l.start + t.work;
    var due := if l.due + period < now - period then now else l.due + period;
    Loop(if due > now then due + t.overshoot else now, due)
  }

  // Tick n of a loop that begins at t0.
  function At(period: real, t0: real, ts: seq<Tick>, n: nat): Loop
    requires n <= |ts|
  {
    if n == 0 then Loop(t0, t0) else Next(period, At(period, t0, ts, n - 1), ts[n - 1])
  }

  // run_until, stopped after |ts| ticks: when each tick started, and when the next would.
  method RunUntil(period: real, t0: real, ts: seq<Tick>) returns (starts: seq<real>)
    ensures |starts| == |ts| + 1
    ensures forall n {:trigger starts[n]} :: 0 <= n <= |ts| ==> starts[n] == At(period, t0, ts, n).start
  {
    var clock := t0;
    var nextAt := clock;
    starts := [clock];
    var n := 0;
    while n < |ts|
      invariant n <= |ts| && |starts| == n + 1
      invariant At(period, t0, ts, n) == Loop(clock, nextAt)
      invariant forall k {:trigger starts[k]} :: 0 <= k <= n ==> starts[k] == At(period, t0, ts, k).start
    {
      ghost var before := Loop(clock, nextAt);
      clock := clock + ts[n].work;
      nextAt := nextAt + period;
      var now := clock;
      if nextAt < now - period {
        nextAt := now;
      }
      if nextAt > now {
        clock := now + (nextAt - now) + ts[n].overshoot;
      }
      assert Loop(clock, nextAt) == Next(period, before, ts[n]);
      n := n + 1;
      starts := starts + [clock];
    }
  }

  function Periods(n: int, period: real): real {
    n as real * period
  }

  lemma OneMore(n: int, period: real)
    ensures Periods(n + 1, period) == Periods(n, period) + period
  {
    assert (n + 1) as real == n as real + 1.0;
  }

  // Every tick's work and the lateness of its sleep fit in a period.
  predicate Fits(period: real, late: real, ts: seq<Tick>) {
    Forward(ts) && late >= 0.0 && forall k :: 0 <= k < |ts| ==> ts[k].overshoot <= late && ts[k].work + late <= period
  }

  // Then no tick drifts: tick n starts within one sleep's lateness of t0 + n periods, for every n.
  lemma {:induction false} OnTime(period: real, late: real, t0: real, ts: seq<Tick>, n: nat)
    requires Fits(period, late, ts) && n <= |ts|
    ensures At(period, t0, ts, n).due == t0 + Periods(n, period)
    ensures t0 + Periods(n, period) <= At(period, t0, ts, n).start <= t0 + Periods(n, period) + late
  {
    if n > 0 {
      OnTime(period, late, t0, ts, n - 1);
      OneMore(n - 1, period);
    }
  }

  // No tick starts before it is due, and none is due more than a period before the work of the last one ended.
  lemma {:induction false} NeverEarly(period: real, t0: real, ts: seq<Tick>, n: nat)
    requires Forward(ts) && period >= 0.0 && n <= |ts|
    ensures At(period, t0, ts, n).start >= At(period, t0, ts, n).due
    ensures n > 0 ==> At(period, t0, ts, n).due >= At(period, t0, ts, n - 1).start - period
    ensures n > 0 ==> At(period, t0, ts, n).due >= At(period, t0, ts, n - 1).due + period
  {
    if n > 0 {
      NeverEarly(period, t0, ts, n - 1);
    }
  }

  lemma {:induction false} DueGrows(period: real, t0: real, ts: seq<Tick>, i: nat, n: nat)
    requires Forward(ts) && period >= 0.0 && i <= n <= |ts|
    ensures At(period, t0, ts, n).due >= At(period, t0, ts, i).due + Periods(n - i, period)
    decreases n
  {
    if i < n {
      DueGrows(period, t0, ts, i, n - 1);
      NeverEarly(period, t0, ts, n);
      OneMore(n - 1 - i, period);
    } else {
      assert Periods(0, period) == 0.0;
    }
  }

  // However long a tick stalls, no burst follows: from any tick the k-th one after it is at least k - 2 periods away.
  lemma NoBurst(period: real, t0: real, ts: seq<Tick>, i: nat, k: nat)
    requires Forward(ts) && period >= 0.0 && 0 < k && i + k <= |ts|
    ensures At(period, t0, ts, i + k).start >= At(period, t0, ts, i).start + Periods(k - 2, period)
  {
    NeverEarly(period, t0, ts, i + 1);
    DueGrows(period, t0, ts, i + 1, i + k);
    NeverEarly(period, t0, ts, i + k);
    OneMore(k - 2, period);
  }
}
