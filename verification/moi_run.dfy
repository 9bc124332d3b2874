/**
 One invocation of `main` in `scripts/moi/calc_moi.py`: load the previous
 value, run the scoring step, round the value and the delta to one decimal,
 keep at most two factors, attach the label and save the new value.
 The weekday and the formatted current time are parameters.
 */
module MoiRun {
  import opened MoiScore
  import opened MoiLabel
  import opened MoiState

  /** `x` is a whole number of tenths. */
  predicate IsTenth(x: real)
  {
    (x * 10.0).Floor as real == x * 10.0
  }

  /** Round to the nearest integer, ties to the even neighbour. */
  function RoundHalfEven(x: real): (k: int)
    ensures -0.5 <= k as real - x <= 0.5
    ensures x - x.Floor as real == 0.5 ==> k % 2 == 0
  {
    var n := x.Floor;
    var f := x - n as real;
    if f < 0.5 then n
    else if f > 0.5 then n + 1
    else if n % 2 == 0 then n
    else n + 1
  }

  /** `round(x, 1)` on exact reals: the nearest multiple of 0.1. */
  function RoundTenth(x: real): (r: real)
    ensures IsTenth(r)
    ensures Abs(r - x) <= 0.05
  {
    var y := x * 10.0;
    var k := RoundHalfEven(y);
    var r := k as real / 10.0;
    assert r * 10.0 == k as real;
    assert (r * 10.0).Floor == k;
    assert r - x == (k as real - y) / 10.0;
    r
  }

  /** `factors[:2]`. */
  function TakeFactors(factors: seq<string>): (r: seq<string>)
    ensures |r| <= 2
    ensures |r| == if |factors| <= 2 then |factors| else 2
    ensures r <= factors
    ensures |factors| <= 2 ==> r == factors
  {
    if |factors| <= 2 then factors else factors[..2]
  }

  /** The published reading of one run. */
  datatype Reading = Reading(value: real, delta: real, mainFactors: seq<string>, updatedAt: string, labelText: string)

  /** The outcome of one run: the reading, the unrounded score and the state file written. */
  datatype Run = Run(reading: Reading, score: real, newState: StateFile)

  /** `main`, with `eventZ` standing for the pluggable event contribution. */
  function RunMain(state: StateFile, weekday: int, now: string, eventZ: real): (r: Run)
    ensures r.score == CalcMvpToday(LoadPrev(state), weekday, eventZ).value
    ensures 0.0 <= r.score <= 100.0
    ensures LoadPrev(r.newState) == r.score
    ensures IsTenth(r.reading.value) && Abs(r.reading.value - r.score) <= 0.05
    ensures 0.0 <= r.reading.value <= 100.0
    ensures IsTenth(r.reading.delta) && Abs(r.reading.delta - (r.score - LoadPrev(state))) <= 0.05
    ensures |r.reading.mainFactors| == 1
    ensures r.reading.mainFactors[0] == NoEventFactor <==> Abs(eventZ) < 0.01
    ensures r.reading.mainFactors[0] == CpiFactor <==> !(Abs(eventZ) < 0.01)
    ensures r.reading.updatedAt == now
    ensures r.reading.labelText == LabelOf(r.score)
  {
    var prev := LoadPrev(state);
    var today := CalcMvpToday(prev, weekday, eventZ);
    var value := today.value;
    var reading := Reading(RoundTenth(value), RoundTenth(value - prev), TakeFactors(today.factors), now, LabelOf(value));
    SaveLoadRoundTrip(value);
    Run(reading, value, SaveState(value))
  }

  // ---------------------------------------------------------------------
  // Properties

  /** The label depends on the score alone: two runs with the same score carry the
      same label, whatever state, weekday or time produced them. */
  lemma LabelDependsOnlyOnScore(s1: StateFile, w1: int, n1: string, z1: real,
                                s2: StateFile, w2: int, n2: string, z2: real)
    requires RunMain(s1, w1, n1, z1).score == RunMain(s2, w2, n2, z2).score
    ensures RunMain(s1, w1, n1, z1).reading.labelText == RunMain(s2, w2, n2, z2).reading.labelText
  {
  }

  /** Successive runs chain through the state file: the next run starts from
      the unrounded score of the previous one. */
  lemma RunsChain(state: StateFile, w1: int, n1: string, z1: real, w2: int, n2: string, z2: real)
    ensures var r1 := RunMain(state, w1, n1, z1);
            RunMain(r1.newState, w2, n2, z2).score == CalcMvpToday(r1.score, w2, z2).value
  {
  }

  /** First run at the weekend from an absent state file: the baseline is kept. */
  lemma FirstWeekendRunKeepsBaseline(now: string)
    ensures RunMain(Absent, 6, now, StubEventZ).reading
         == Reading(50.0, 0.0, [NoEventFactor], now, "平常")
  {
    WeekendBaselineIsFixedPoint(6);
    assert RoundTenth(50.0) == 50.0;
    assert RoundTenth(0.0) == 0.0;
  }

  /** A weekday run from the baseline warms the score to 53. */
  lemma WeekdayRunFromBaseline(now: string)
    ensures RunMain(SaveState(50.0), 2, now, StubEventZ).reading
         == Reading(53.0, 3.0, [NoEventFactor], now, "平常")
  {
    WeekdayFromBaselineIsFiftyThree(2);
    assert RoundTenth(53.0) == 53.0;
    assert RoundTenth(3.0) == 3.0;
  }

  /** A weekend run from 70 cools to 68.4, a delta of -1.6, still somewhat overheated. */
  lemma WeekendRunFromSeventy(now: string)
    ensures RunMain(SaveState(70.0), 5, now, StubEventZ).reading
         == Reading(68.4, -1.6, [NoEventFactor], now, "やや過熱")
  {
    WeekendIsPureDecay(70.0, 5);
    assert Cool(70.0, 0.08) == 68.4;
    assert RoundTenth(68.4) == 68.4;
    assert RoundTenth(68.4 - 70.0) == -1.6;
  }

  /** The label is taken from the unrounded score, so a reading can show 75.0 next to
      the label of the bucket below 75. */
  lemma DisplayedValueMayCrossThreshold()
    ensures RoundTenth(74.96) == 75.0
    ensures LabelOf(74.96) == Text(SomewhatOverheated)
    ensures LabelOf(75.0) == Text(Overheated)
  {
    assert RoundHalfEven(749.6) == 750;
  }
}
