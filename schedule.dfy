/**
 * The segment scheduler every render loop runs once per tick: when the
 * persistent counter `outputSampleCnt` has reached the period (`hop_size`
 * in the windowed variants, `segment_size` in block mode) a new segment is
 * produced and the counter restarts at 0; the tick then emits the sample at
 * the counter and increments it.  The functions below give the counter
 * after any number of ticks; the lemmas give it in closed form, which is
 * what makes the refill schedule a function of the global tick index alone.
 */
module Schedule {
  import ModArith

  /** The segment index a tick emits when it starts with counter `cnt`. */
  function EmitIndex(cnt: nat, period: nat): nat
  {
    if cnt >= period then 0 else cnt
  }

  /** The counter after `t` ticks, starting from the value `start` left by setup. */
  function Counter(start: nat, period: nat, t: nat): nat
  {
    if t == 0 then start else EmitIndex(Counter(start, period, t - 1), period) + 1
  }

  /** The number of refills done by the first `t` ticks. */
  function RefillCount(start: nat, period: nat, t: nat): nat
  {
    if t == 0 then 0
    else RefillCount(start, period, t - 1) + (if Counter(start, period, t - 1) >= period then 1 else 0)
  }

  /** The segment played by tick `n`: refills up to and including that tick (0 is the initial one). */
  function Block(start: nat, period: nat, n: nat): nat
  {
    RefillCount(start, period, n + 1)
  }

  /** The position inside that segment played by tick `n`. */
  function Index(start: nat, period: nat, n: nat): nat
  {
    EmitIndex(Counter(start, period, n), period)
  }

  /** The two initial counter values the sources use: 0, or `segment_size` in lts_audioInput/render.cpp. */
  predicate ValidStart(start: nat, period: nat)
  {
    period > 0 && (start == 0 || start == period)
  }

  /**
   * The counter never exceeds the period and, with the ticks already done,
   * accounts for every full period: ticks + start == refills * period + counter.
   */
  lemma {:induction false} CounterInvariant(start: nat, period: nat, t: nat)
    requires ValidStart(start, period)
    ensures t + start == RefillCount(start, period, t) * period + Counter(start, period, t)
    ensures Counter(start, period, t) <= period
    ensures Counter(start, period, t) == 0 ==> t == 0 && start == 0
  {
    if t > 0 {
      CounterInvariant(start, period, t - 1);
      var r, c := RefillCount(start, period, t - 1), Counter(start, period, t - 1);
      if c >= period {
        assert RefillCount(start, period, t) == r + 1 && Counter(start, period, t) == 1;
        ModArith.MulSucc(r, period);
      } else {
        assert RefillCount(start, period, t) == r && Counter(start, period, t) == c + 1;
      }
    }
  }

  /** Tick `n` plays sample `(n + start) % period` of segment `(n + start) / period`. */
  lemma BlockIndex(start: nat, period: nat, n: nat)
    requires ValidStart(start, period)
    ensures Block(start, period, n) == (n + start) / period
    ensures Index(start, period, n) == (n + start) % period
    ensures Index(start, period, n) < period
    ensures Block(start, period, n) * period <= n + start
  {
    CounterInvariant(start, period, n);
    var r, c := RefillCount(start, period, n), Counter(start, period, n);
    if c >= period {
      assert Block(start, period, n) == r + 1 && Index(start, period, n) == 0;
      ModArith.MulSucc(r, period);
      ModArith.DivModUnique(n + start, period, r + 1, 0);
    } else {
      assert Block(start, period, n) == r && Index(start, period, n) == c;
      ModArith.DivModUnique(n + start, period, r, c);
    }
  }

  /**
   * Tick `n` refills exactly when `n + start` is a positive multiple of the
   * period: on ticks period, 2*period, ... from counter 0, and on ticks
   * 0, period, 2*period, ... from counter `period`.
   */
  lemma RefillTicks(start: nat, period: nat, n: nat)
    requires ValidStart(start, period)
    ensures Counter(start, period, n) >= period <==> n + start > 0 && (n + start) % period == 0
  {
    CounterInvariant(start, period, n);
    var r, c := RefillCount(start, period, n), Counter(start, period, n);
    if c >= period {
      ModArith.MulSucc(r, period);
      ModArith.DivModUnique(n + start, period, r + 1, 0);
    } else {
      ModArith.DivModUnique(n + start, period, r, c);
    }
  }

  /**
   * The counter only depends on the number of ticks, not on how they are
   * split among render calls: `a` ticks followed by `b` ticks leave the
   * counter that `a + b` ticks leave.
   */
  lemma {:induction false} CounterSplit(start: nat, period: nat, a: nat, b: nat)
    ensures Counter(start, period, a + b) == Counter(Counter(start, period, a), period, b)
  {
    if b > 0 {
      CounterSplit(start, period, a, b - 1);
    }
  }

  /** Likewise the refills done in `a + b` ticks are those of the first `a` plus those of the next `b`. */
  lemma {:induction false} RefillSplit(start: nat, period: nat, a: nat, b: nat)
    ensures RefillCount(start, period, a + b)
         == RefillCount(start, period, a) + RefillCount(Counter(start, period, a), period, b)
  {
    if b > 0 {
      RefillSplit(start, period, a, b - 1);
      CounterSplit(start, period, a, b - 1);
    }
  }

  /** From counter 0, the first period of ticks plays the initial segment. */
  lemma InitialSegmentFirst(period: nat, n: nat)
    requires period > 0 && n < period
    ensures Block(0, period, n) == 0 && Index(0, period, n) == n
  {
    BlockIndex(0, period, n);
    ModArith.ModSmall(n, period);
  }

  /**
   * From counter `period`, tick `n` refills exactly when `n` is a multiple
   * of the period, and plays sample `n % period` of the block of refill `n / period`.
   */
  lemma FullStart(period: nat, n: nat)
    requires period > 0
    ensures Counter(period, period, n) >= period <==> n % period == 0
    ensures Block(period, period, n) == n / period + 1 && Index(period, period, n) == n % period
  {
    CounterInvariant(period, period, n);
    var r, c := RefillCount(period, period, n), Counter(period, period, n);
    if c >= period {
      assert Block(period, period, n) == r + 1 && Index(period, period, n) == 0;
      ModArith.DivModUnique(n, period, r, 0);
    } else {
      assert Block(period, period, n) == r && Index(period, period, n) == c;
      ModArith.PositiveFactor(r, period);
      ModArith.MulSucc(r - 1, period);
      ModArith.DivModUnique(n, period, r - 1, c);
    }
  }
}
