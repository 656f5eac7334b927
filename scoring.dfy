/**
 * The bike score: a day's weather mapped to an integer from 0 to 100, and the
 * colour band the score gauge is drawn in.
 *
 * The score is computed over exact reals, exactly as the application writes it
 * with doubles: three sub-scores, a 0.4/0.4/0.2 weighted sum times 100, rounded
 * to the nearest integer (ties toward positive infinity) and clamped to [0, 100].
 */
module Scoring {
  import opened Weather

  /** Temperature sub-score: [18, 24] is ideal, [10, 30] acceptable; both bands are
      inclusive and the ideal band is checked first. */
  function TempScore(avgTempC: real): (t: real)
    ensures t == 1.0 <==> 18.0 <= avgTempC <= 24.0
    ensures t == 0.7 <==> (10.0 <= avgTempC < 18.0 || 24.0 < avgTempC <= 30.0)
    ensures t == 0.3 <==> (avgTempC < 10.0 || 30.0 < avgTempC)
  {
    if 18.0 <= avgTempC <= 24.0 then 1.0
    else if 10.0 <= avgTempC <= 30.0 then 0.7
    else 0.3
  }

  /** Rain sub-score: linear in the chance of rain, given in percent. */
  function RainScore(chanceOfRain: int): (r: real)
    ensures r * 100.0 == (100 - chanceOfRain) as real
    ensures 0 <= chanceOfRain <= 100 ==> 0.0 <= r <= 1.0
  {
    1.0 - chanceOfRain as real / 100.0
  }

  /** Wind sub-score: calm below 15 kph, acceptable below 30 kph; both bounds strict. */
  function WindScore(maxWindKph: real): (w: real)
    ensures w == 1.0 <==> maxWindKph < 15.0
    ensures w == 0.7 <==> 15.0 <= maxWindKph < 30.0
    ensures w == 0.3 <==> 30.0 <= maxWindKph
  {
    if maxWindKph < 15.0 then 1.0
    else if maxWindKph < 30.0 then 0.7
    else 0.3
  }

  /** The weighted sum of the sub-scores, scaled to percent, before rounding. */
  function WeightedScore(day: Day): (w: real)
    ensures 0 <= day.dailyChanceOfRain <= 100 ==> 18.0 <= w <= 100.0
  {
    (TempScore(day.avgTempC) * 0.4 + RainScore(day.dailyChanceOfRain) * 0.4 + WindScore(day.maxWindKph) * 0.2) * 100.0
  }

  /** Kotlin's `roundToInt`: the nearest integer, ties toward positive infinity. */
  function RoundToInt(x: real): (n: int)
    ensures x - 0.5 < n as real <= x + 0.5
  {
    (x + 0.5).Floor
  }

  /** Kotlin's `coerceIn`. */
  function CoerceIn(n: int, lo: int, hi: int): (c: int)
    requires lo <= hi
    ensures lo <= c <= hi
    ensures lo <= n <= hi ==> c == n
    ensures n < lo ==> c == lo
    ensures hi < n ==> c == hi
  {
    if n < lo then lo else if hi < n then hi else n
  }

  /** The bike score of a day; total, and in [0, 100] for every input. */
  function BikeScore(day: Day): (score: int)
    ensures 0 <= score <= 100
  {
    CoerceIn(RoundToInt(WeightedScore(day)), 0, 100)
  }

  // ---------------------------------------------------------------------------
  // An integer-only reference definition of the same score.

  /** The temperature sub-score in percent. */
  function TempPercent(avgTempC: real): (p: int)
    ensures p as real == TempScore(avgTempC) * 100.0
  {
    if 18.0 <= avgTempC <= 24.0 then 100
    else if 10.0 <= avgTempC <= 30.0 then 70
    else 30
  }

  /** The wind sub-score in percent. */
  function WindPercent(maxWindKph: real): (p: int)
    ensures p as real == WindScore(maxWindKph) * 100.0
  {
    if maxWindKph < 15.0 then 100
    else if maxWindKph < 30.0 then 70
    else 30
  }

  /** Ten times the weighted score: 4T + 4R + 2W with every sub-score in percent. */
  function Numerator(day: Day): int
  {
    4 * TempPercent(day.avgTempC) + 4 * (100 - day.dailyChanceOfRain) + 2 * WindPercent(day.maxWindKph)
  }

  /** round(Numerator / 10) by integer floor division, then clamped. */
  function IntegerBikeScore(day: Day): (score: int)
    ensures 0 <= score <= 100
  {
    CoerceIn((Numerator(day) + 5) / 10, 0, 100)
  }

  /** Floor of a tenth agrees with integer floor division by ten. */
  lemma FloorOfTenth(a: int)
    ensures (a as real / 10.0).Floor == a / 10
  {
    var q, r := a / 10, a % 10;
    assert a as real / 10.0 == q as real + r as real / 10.0;
  }

  /** The numerator is even and is never 5 modulo 10. */
  lemma NumeratorResidue(day: Day)
    ensures Numerator(day) % 2 == 0
    ensures Numerator(day) % 10 != 5
  {
  }

  /** The real-valued score and the integer-only score agree on every day. */
  lemma BikeScoreIsIntegerScore(day: Day)
    ensures WeightedScore(day) == Numerator(day) as real / 10.0
    ensures BikeScore(day) == IntegerBikeScore(day)
  {
  }

  /** Rounding half away from zero, the convention commonly meant by "standard rounding". */
  function RoundHalfAwayFromZero(x: real): (n: int)
    ensures x >= 0.0 ==> x - 0.5 < n as real <= x + 0.5
    ensures x < 0.0 ==> x - 0.5 <= n as real < x + 0.5
  {
    if x >= 0.0 then (x + 0.5).Floor else -((-x + 0.5).Floor)
  }

  /** The weighted score is never exactly halfway between two integers, so the tie
      rule of the rounding never matters: ties-up and half-away-from-zero agree. */
  lemma RoundingConventionIrrelevant(day: Day)
    ensures (WeightedScore(day) + 0.5).Floor as real != WeightedScore(day) + 0.5
    ensures RoundToInt(WeightedScore(day)) == RoundHalfAwayFromZero(WeightedScore(day))
  {
  }

  /** The exact score lies at least 0.1 away from every rounding boundary, so an
      error smaller than 0.1 in computing it (double arithmetic is far more precise)
      never changes the rounded score. */
  lemma RoundingMargin(day: Day, err: real)
    requires -0.1 < err < 0.1
    ensures RoundToInt(WeightedScore(day) + err) == RoundToInt(WeightedScore(day))
  {
    var n := Numerator(day);
    BikeScoreIsIntegerScore(day);
    NumeratorResidue(day);
    var x := WeightedScore(day);
    var k := (n + 5) / 10;
    FloorOfTenth(n + 5);
    assert x + 0.5 == (n + 5) as real / 10.0;
    assert 1 <= (n + 5) % 10 <= 9;
    assert (n + 5) as real == 10.0 * k as real + ((n + 5) % 10) as real;
    assert k as real + 0.1 <= x + 0.5 <= k as real + 0.9;
    assert k as real <= x + err + 0.5 < k as real + 1.0;
  }

  /** For rain chances in [0, 100] the weighted score lies in [18, 100], so the clamp
      never applies and the score is the rounded weighted sum. */
  lemma ValidRainChanceNeedsNoClamp(day: Day)
    requires 0 <= day.dailyChanceOfRain <= 100
    ensures 18.0 <= WeightedScore(day) <= 100.0
    ensures BikeScore(day) == RoundToInt(WeightedScore(day))
    ensures 18 <= BikeScore(day)
  {
  }

  /** With the other inputs fixed, a higher chance of rain never raises the score. */
  lemma MoreRainNeverRaisesScore(day: Day, chance: int)
    requires day.dailyChanceOfRain <= chance
    ensures BikeScore(day.(dailyChanceOfRain := chance)) <= BikeScore(day)
  {
  }

  /** Two worked scores: an ideal day and a cold, wet, windy one. */
  lemma WorkedScores(condition: Condition)
    ensures BikeScore(Day(20.0, 20.0, 20.0, 10.0, 0, condition)) == 100
    ensures BikeScore(Day(5.0, 5.0, 5.0, 40.0, 100, condition)) == 18
  {
  }

  // ---------------------------------------------------------------------------
  // The gauge colour.

  datatype GaugeColor = Green | Yellow | Blue | Orange | Pink

  /** The colour the score gauge is drawn in: bands at 80, 60 and 40; the dark theme
      swaps only the top band's green for yellow. */
  function GaugeColorFor(score: int, darkTheme: bool): (c: GaugeColor)
    ensures c == Pink <==> score < 40
    ensures c == Orange <==> 40 <= score < 60
    ensures c == Blue <==> 60 <= score < 80
    ensures c == (if darkTheme then Yellow else Green) <==> 80 <= score
    ensures c != (if darkTheme then Green else Yellow)
  {
    if score >= 80 then (if darkTheme then Yellow else Green)
    else if score >= 60 then Blue
    else if score >= 40 then Orange
    else Pink
  }

  /** The rank of a colour band, worst first. */
  function Band(c: GaugeColor): nat
  {
    match c
    case Pink => 0
    case Orange => 1
    case Blue => 2
    case Green => 3
    case Yellow => 3
  }

  /** A better score never gets a worse colour band. */
  lemma GaugeBandMonotone(lower: int, higher: int, darkTheme: bool)
    requires lower <= higher
    ensures Band(GaugeColorFor(lower, darkTheme)) <= Band(GaugeColorFor(higher, darkTheme))
  {
  }
}
