/** The tick decimation of main.c's SysTickIntHandler: one uint8 counter per task,
    each raising its task's flag once every period of the hardware tick. */
module Scheduler {
  import opened CInt

  /** main.c: task periods, in SysTick interrupts. */
  const ControlPeriod := 4
  const ButtonPeriod := 10
  const DisplayPeriod := 15
  const UartPeriod := 200

  /** One task's part of the tick handler: when the counter has reached the period the
      flag is raised and the counter restarts; then the tick is counted in a uint8. */
  function TickCounter(count: uint8, period: nat): (r: (uint8, bool))
    ensures r.1 <==> count >= period
    ensures 1 <= period <= 0xFF && count <= period ==> 1 <= r.0 <= period
  {
    var fire := count >= period;
    var c := if fire then 0 else count;
    (ToUInt8(c + 1), fire)
  }

  /** The counter after n ticks from start-up, where it is 0. */
  function CounterAfter(period: nat, n: nat): uint8 {
    if n == 0 then 0 else TickCounter(CounterAfter(period, n - 1), period).0
  }

  /** Whether tick n, counting from 1, raises the task's flag. */
  function FiresOn(period: nat, n: nat): bool
    requires n >= 1
  {
    TickCounter(CounterAfter(period, n - 1), period).1
  }

  /** How many of ticks 1..n raise the task's flag. */
  function FireCount(period: nat, n: nat): nat {
    if n == 0 then 0 else FireCount(period, n - 1) + (if FiresOn(period, n) then 1 else 0)
  }

  lemma MulAtLeast(p: int, k: int)
    requires p > 0 && k >= 1
    ensures p * k >= p
  {
  }

  /** Euclidean division has one quotient and one remainder. */
  lemma DivModUnique(x: int, p: int, q: int, r: int)
    requires p > 0 && x == p * q + r && 0 <= r < p
    ensures x / p == q && x % p == r
  {
    var q', r' := x / p, x % p;
    assert x == p * q' + r';
    assert p * (q - q') == r' - r;
    if q > q' {
      MulAtLeast(p, q - q');
    } else if q < q' {
      MulAtLeast(p, q' - q);
    }
  }

  /** Counting one more: the remainder steps on, and wraps to 0 when the quotient steps on. */
  lemma DivModSucc(m: nat, p: nat)
    requires p >= 1
    ensures (m + 1) % p == (if m % p == p - 1 then 0 else m % p + 1)
    ensures (m + 1) / p == (if m % p == p - 1 then m / p + 1 else m / p)
  {
    var q, r := m / p, m % p;
    if r == p - 1 {
      DivModUnique(m + 1, p, q + 1, 0);
    } else {
      DivModUnique(m + 1, p, q, r + 1);
    }
  }

  /** After every tick the counter is in [1, period]: for periods up to 255 the
      uint8 counter never overflows. */
  lemma {:induction false} CounterClosedForm(period: nat, n: nat)
    requires 1 <= period <= 0xFF && n >= 1
    ensures CounterAfter(period, n) == (n - 1) % period + 1
    decreases n
  {
    if n > 1 {
      CounterClosedForm(period, n - 1);
      DivModSucc(n - 2, period);
      var m := (n - 2) % period;
      assert CounterAfter(period, n) == TickCounter(m + 1, period).0;
      if m == period - 1 {
        assert TickCounter(m + 1, period).0 == 1;
      } else {
        assert TickCounter(m + 1, period).0 == m + 2;
      }
    }
  }

  /** From the second tick on, the flag is raised exactly when the previous tick
      left the counter at the period. */
  lemma FiresWhenFull(period: nat, n: nat)
    requires 1 <= period <= 0xFF && n >= 2
    ensures FiresOn(period, n) <==> (n - 2) % period == period - 1
  {
    CounterClosedForm(period, n - 1);
    assert CounterAfter(period, n - 1) == (n - 2) % period + 1;
  }

  /** The flag is raised on tick period + 1 and then on every period-th tick after it:
      exactly on the ticks k * period + 1 with k >= 1. */
  lemma FiresExactly(period: nat, n: nat)
    requires 1 <= period <= 0xFF && n >= 1
    ensures FiresOn(period, n) <==> n > period && (n - 1) % period == 0
  {
    if n == 1 {
      assert !FiresOn(period, n);
    } else {
      FiresWhenFull(period, n);
      DivModSucc(n - 2, period);
      if (n - 1) % period == 0 {
        var k := (n - 1) / period;
        assert n - 1 == period * k;
        MulAtLeast(period, k);
      }
    }
  }

  /** Over n ticks the flag is raised (n - 1) / period times: once per period. */
  lemma {:induction false} FireCountPerPeriod(period: nat, n: nat)
    requires 1 <= period <= 0xFF && n >= 1
    ensures FireCount(period, n) == (n - 1) / period
    decreases n
  {
    if n == 1 {
      assert !FiresOn(period, n);
    } else {
      FireCountPerPeriod(period, n - 1);
      FiresWhenFull(period, n);
      DivModSucc(n - 2, period);
    }
  }
}
