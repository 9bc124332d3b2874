/**
 The Market Overheat Index scoring step of `scripts/moi/calc_moi.py`:
 clamping, normalisation to the 0..100 scale, the weekday decay toward the
 baseline 50 and the per-run computation `calc_mvp_today`.

 Arithmetic is over exact reals, not IEEE doubles. The weekday and the
 event contribution, which the source reads from the clock and hard-codes,
 are parameters.
 */
module MoiScore {

  /** The neutral resting value the score decays toward. */
  const Baseline: real := 50.0
  /** One unit of z moves the score by this many points. */
  const Sigma: real := 15.0

  const NoEventFactor: string := "特筆すべき経済イベントなし"
  const CpiFactor: string := "米CPI上振れ"

  /** The event contribution the source currently hard-codes. */
  const StubEventZ: real := 0.0

  function Abs(x: real): real { if x < 0.0 then -x else x }

  /** Python's `max(lo, min(hi, x))`. */
  function Clamp(x: real, lo: real, hi: real): (r: real)
    ensures lo <= hi ==> lo <= r <= hi
    ensures lo <= x <= hi ==> r == x
    ensures x < lo ==> r == lo
    ensures lo <= hi < x ==> r == hi
    ensures hi < lo ==> r == lo
  {
    var m := if hi <= x then hi else x;
    if lo >= m then lo else m
  }

  /** `clamp(50 + 15 * z)` onto the default range [0, 100]. */
  function Normalize(z: real): (r: real)
    ensures 0.0 <= r <= 100.0
    ensures 0.0 <= Baseline + Sigma * z <= 100.0 ==> r == Baseline + Sigma * z
    ensures Baseline + Sigma * z < 0.0 ==> r == 0.0
    ensures 100.0 < Baseline + Sigma * z ==> r == 100.0
  {
    Clamp(Baseline + Sigma * z, 0.0, 100.0)
  }

  /** The z-like rescaling `(cooled - 50) / 15` applied before normalising. */
  function ToZ(score: real): real { (score - Baseline) / Sigma }

  /** Python's `weekday()` numbers Saturday 5 and Sunday 6. */
  predicate IsWeekend(weekday: int) { weekday == 5 || weekday == 6 }

  /** The decay rate and the fixed market noise chosen for one run. */
  datatype DayPolicy = DayPolicy(decay: real, noise: real)

  /** The calendar policy: faster cooling and no noise at the weekend,
      slower cooling plus a small fixed warming on other days. */
  function Policy(weekday: int): (p: DayPolicy)
    ensures 0.0 <= p.decay <= 1.0
    ensures IsWeekend(weekday) ==> p.decay == 0.08 && p.noise == 0.0
    ensures !IsWeekend(weekday) ==> p.decay == 0.05 && p.noise == 0.2
  {
    if IsWeekend(weekday) then DayPolicy(0.08, 0.0) else DayPolicy(0.05, 0.2)
  }

  /** `prev*(1-decay) + 50*decay`: the gap to the baseline shrinks by the factor `1 - decay`. */
  function Cool(prev: real, decay: real): (c: real)
    ensures c - Baseline == (1.0 - decay) * (prev - Baseline)
  {
    prev * (1.0 - decay) + Baseline * decay
  }

  /** The result of one `calc_mvp_today` call. */
  datatype Today = Today(value: real, factors: seq<string>)

  /** One run of `calc_mvp_today` with `eventZ` standing for `pseudo_event_z`. */
  function CalcMvpToday(prev: real, weekday: int, eventZ: real): (t: Today)
    ensures 0.0 <= t.value <= 100.0
    ensures t.value == Clamp(Cool(prev, Policy(weekday).decay) + Sigma * (eventZ + Policy(weekday).noise), 0.0, 100.0)
    ensures |t.factors| == 1
    ensures t.factors[0] == NoEventFactor <==> Abs(eventZ) < 0.01
    ensures t.factors[0] == CpiFactor <==> !(Abs(eventZ) < 0.01)
  {
    var p := Policy(weekday);
    var cooled := Cool(prev, p.decay);
    var moi := Normalize(ToZ(cooled) + eventZ + p.noise);
    assert Baseline + Sigma * (ToZ(cooled) + eventZ + p.noise) == cooled + Sigma * (eventZ + p.noise);
    Today(moi, if Abs(eventZ) < 0.01 then [NoEventFactor] else [CpiFactor])
  }

  // ---------------------------------------------------------------------
  // Properties

  /** Clamping twice is clamping once. */
  lemma ClampIdempotent(x: real, lo: real, hi: real)
    requires lo <= hi
    ensures Clamp(Clamp(x, lo, hi), lo, hi) == Clamp(x, lo, hi)
  {
  }

  /** Clamping preserves order. */
  lemma ClampMonotone(x: real, y: real, lo: real, hi: real)
    requires lo <= hi
    requires x <= y
    ensures Clamp(x, lo, hi) <= Clamp(y, lo, hi)
  {
  }

  /** Rescaling a score already on the 0..100 scale to z and normalising it back is the identity. */
  lemma NormalizeToZRoundTrip(score: real)
    requires 0.0 <= score <= 100.0
    ensures Normalize(ToZ(score)) == score
  {
    assert Sigma * ToZ(score) == score - Baseline;
  }

  /** Normalisation preserves order. */
  lemma NormalizeMonotone(z: real, w: real)
    requires z <= w
    ensures Normalize(z) <= Normalize(w)
  {
    ClampMonotone(Baseline + Sigma * z, Baseline + Sigma * w, 0.0, 100.0);
  }

  /** Scaling by a factor in [0, 1] moves a number toward zero without crossing it. */
  lemma ScaleTowardZero(k: real, g: real)
    requires 0.0 <= k <= 1.0
    ensures g <= 0.0 ==> g <= k * g <= 0.0
    ensures 0.0 <= g ==> 0.0 <= k * g <= g
    ensures Abs(k * g) == k * Abs(g)
  {
    if g < 0.0 {
      assert k * g == -(k * (-g));
      assert k * (-g) <= 1.0 * (-g);
    } else {
      assert k * g <= 1.0 * g;
    }
  }

  /** With a rate in [0, 1] the cooled value lies between `prev` and the baseline,
      and its distance to the baseline shrinks by exactly the factor `1 - decay`. */
  lemma CoolStaysOnSegment(prev: real, decay: real)
    requires 0.0 <= decay <= 1.0
    ensures prev <= Baseline ==> prev <= Cool(prev, decay) <= Baseline
    ensures Baseline <= prev ==> Baseline <= Cool(prev, decay) <= prev
    ensures Abs(Cool(prev, decay) - Baseline) == (1.0 - decay) * Abs(prev - Baseline)
    ensures Abs(Cool(prev, decay) - Baseline) <= Abs(prev - Baseline)
  {
    ScaleTowardZero(1.0 - decay, prev - Baseline);
  }

  /** On the weekend path with no event, the normalisation undoes the rescaling:
      the run's value is exactly the cooled previous value. */
  lemma WeekendIsPureDecay(prev: real, weekday: int)
    requires 0.0 <= prev <= 100.0
    requires IsWeekend(weekday)
    ensures CalcMvpToday(prev, weekday, 0.0).value == Cool(prev, 0.08)
  {
    CoolStaysOnSegment(prev, 0.08);
    NormalizeToZRoundTrip(Cool(prev, 0.08));
  }

  /** On other days the fixed noise of 0.2 in z adds exactly 3 points to the cooled value before clamping. */
  lemma WeekdayAddsThreePoints(prev: real, weekday: int)
    requires !IsWeekend(weekday)
    ensures CalcMvpToday(prev, weekday, 0.0).value == Clamp(Cool(prev, 0.05) + 3.0, 0.0, 100.0)
  {
    var c := Cool(prev, 0.05);
    assert Baseline + Sigma * (ToZ(c) + 0.0 + 0.2) == c + 3.0;
  }

  /** A stored value above the scale cools at the weekend but is clamped back to 100. */
  lemma WeekendFromAboveScaleSaturates(weekday: int)
    requires IsWeekend(weekday)
    ensures CalcMvpToday(200.0, weekday, 0.0).value == 100.0
  {
    assert Cool(200.0, 0.08) == 188.0;
  }

  /** The baseline is a fixed point of a weekend run. */
  lemma WeekendBaselineIsFixedPoint(weekday: int)
    requires IsWeekend(weekday)
    ensures CalcMvpToday(Baseline, weekday, 0.0).value == Baseline
  {
    WeekendIsPureDecay(Baseline, weekday);
  }

  /** From the baseline an ordinary day yields 53. */
  lemma WeekdayFromBaselineIsFiftyThree(weekday: int)
    requires !IsWeekend(weekday)
    ensures CalcMvpToday(Baseline, weekday, 0.0).value == 53.0
  {
    WeekdayAddsThreePoints(Baseline, weekday);
  }

  /** `base` raised to the `n`-th power. */
  function Pow(base: real, n: nat): real
  {
    if n == 0 then 1.0 else base * Pow(base, n - 1)
  }

  /** The value after `n` consecutive weekend runs without events, starting at `prev`. */
  function WeekendRuns(prev: real, weekday: int, n: nat): real
  {
    if n == 0 then prev else CalcMvpToday(WeekendRuns(prev, weekday, n - 1), weekday, 0.0).value
  }

  /** One weekend run without events keeps a score on the 0..100 scale and
      multiplies its distance to the baseline by 0.92. */
  lemma WeekendStep(v: real, weekday: int)
    requires 0.0 <= v <= 100.0
    requires IsWeekend(weekday)
    ensures 0.0 <= CalcMvpToday(v, weekday, 0.0).value <= 100.0
    ensures Abs(CalcMvpToday(v, weekday, 0.0).value - Baseline) == 0.92 * Abs(v - Baseline)
  {
    WeekendIsPureDecay(v, weekday);
    CoolStaysOnSegment(v, 0.08);
  }

  /** Repeated weekend runs without events never leave the 0..100 scale. */
  lemma {:induction false} WeekendRunsStayInRange(prev: real, weekday: int, n: nat)
    requires 0.0 <= prev <= 100.0
    requires IsWeekend(weekday)
    ensures 0.0 <= WeekendRuns(prev, weekday, n) <= 100.0
  {
    if n > 0 {
      WeekendRunsStayInRange(prev, weekday, n - 1);
      WeekendStep(WeekendRuns(prev, weekday, n - 1), weekday);
    }
  }

  /** `n` applications of the weekend decay alone, without normalisation. */
  function CoolRuns(prev: real, n: nat): real
  {
    if n == 0 then prev else Cool(CoolRuns(prev, n - 1), 0.08)
  }

  /** Pure decay shrinks the distance to the baseline geometrically. */
  lemma {:induction false} CoolRunsGeometric(prev: real, n: nat)
    ensures CoolRuns(prev, n) - Baseline == Pow(0.92, n) * (prev - Baseline)
  {
    if n > 0 {
      CoolRunsGeometric(prev, n - 1);
      var p := Pow(0.92, n - 1);
      var d := prev - Baseline;
      assert 0.92 * (p * d) == (0.92 * p) * d;
    }
  }

  /** Within the scale, repeated weekend runs without events are exactly repeated decay. */
  lemma {:induction false} WeekendRunsAreDecay(prev: real, weekday: int, n: nat)
    requires 0.0 <= prev <= 100.0
    requires IsWeekend(weekday)
    ensures WeekendRuns(prev, weekday, n) == CoolRuns(prev, n)
  {
    if n > 0 {
      WeekendRunsAreDecay(prev, weekday, n - 1);
      WeekendRunsStayInRange(prev, weekday, n - 1);
      WeekendIsPureDecay(WeekendRuns(prev, weekday, n - 1), weekday);
    }
  }

  /** Repeated weekend runs converge geometrically to the baseline: after `n` runs the
      distance to 50 is `0.92^n` times the starting distance, on the same side of 50. */
  lemma WeekendRunsConverge(prev: real, weekday: int, n: nat)
    requires 0.0 <= prev <= 100.0
    requires IsWeekend(weekday)
    ensures WeekendRuns(prev, weekday, n) - Baseline == Pow(0.92, n) * (prev - Baseline)
  {
    WeekendRunsAreDecay(prev, weekday, n);
    CoolRunsGeometric(prev, n);
  }

  /** The distance to the baseline never grows from one weekend run to the next,
      from any starting value, including one outside the scale. */
  lemma WeekendRunsNonIncreasing(prev: real, weekday: int, n: nat)
    requires IsWeekend(weekday)
    ensures Abs(WeekendRuns(prev, weekday, n + 1) - Baseline) <= Abs(WeekendRuns(prev, weekday, n) - Baseline)
  {
    CoolStaysOnSegment(WeekendRuns(prev, weekday, n), 0.08);
  }
}
