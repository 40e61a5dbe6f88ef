/** The arithmetic shared by both progress tickers: every 16 ms the bar's
    percentage is recomputed as `offset * 100 / timeout` and the offset grows
    by 16. Exact arithmetic stands for the source's `toFixed(2)` numbers. */
module Progress {

  /** The interval period in milliseconds, which is also the offset step. */
  const Period: int := 16

  /** The percentage a tick computes from the elapsed offset. */
  function Ratio(offset: int, timeout: int): real
    requires timeout > 0
  {
    (offset * 100) as real / timeout as real
  }

  /** The ticker's stop test `value >= 100` holds exactly when the offset
      has reached the timeout. */
  lemma RatioThreshold(offset: int, timeout: int)
    requires timeout > 0
    ensures Ratio(offset, timeout) >= 100.0 <==> offset >= timeout
  {
    var t := timeout as real;
    var r := Ratio(offset, timeout);
    assert r * t == (offset * 100) as real;
    SignOfProduct(r - 100.0, t);
    assert (r - 100.0) * t == (offset * 100) as real - 100.0 * t;
  }

  /** Multiplying by a positive number keeps the sign. */
  lemma SignOfProduct(x: real, t: real)
    requires t > 0.0
    ensures x * t >= 0.0 <==> x >= 0.0
  {
    if x < 0.0 {
      assert (-x) * t > 0.0;
    }
  }

  /** The percentage grows with the offset. */
  lemma RatioMonotone(a: int, b: int, timeout: int)
    requires timeout > 0 && a <= b
    ensures Ratio(a, timeout) <= Ratio(b, timeout)
  {
  }

  /** The number of ticks after which a ticker started at offset 0 stops:
      `ceil(timeout / 16) + 1`, one more than the timeout needs because each
      tick computes its value from the offset before adding 16. */
  function TicksToStop(timeout: int): (n: nat)
    requires timeout > 0
    ensures n >= 2
    ensures Period * (n - 2) < timeout <= Period * (n - 1)
  {
    (timeout + Period - 1) / Period + 1
  }

  /** The `k`-th tick (counting from 1) computes `Ratio(16 * (k - 1))`; that
      value first reaches 100 at tick `TicksToStop(timeout)`. */
  lemma StopsAtTick(timeout: int, k: int)
    requires timeout > 0 && k >= 1
    ensures Ratio(Period * (k - 1), timeout) >= 100.0 <==> k >= TicksToStop(timeout)
  {
    RatioThreshold(Period * (k - 1), timeout);
    var n := TicksToStop(timeout);
    if k >= n {
      assert Period * (k - 1) >= Period * (n - 1);
    } else {
      assert Period * (k - 1) <= Period * (n - 2);
    }
  }
}
