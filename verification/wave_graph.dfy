/**
  The two computations of the WaveGraph component that feed the chart: the
  data (the point list of src/lib's generateWavePath on the component's five
  parameters) and the Y-axis ticks.  The tick count is 5 for amplitudes up to
  1 and otherwise min(ceil(2 * amplitude) + 1, 9); the ticks run evenly from
  +amplitude down to -amplitude, each rounded to one decimal.
 */
module WaveGraph {
  import opened Wave
  import opened Samples

  /** The number of Y-axis ticks for `amplitude`. */
  function TickCount(amplitude: real): (steps: int)
    ensures 4 <= steps <= 9
    ensures amplitude <= 1.0 ==> steps == 5
    ensures amplitude > 1.0 ==> (steps == 9 <==> 2.0 * amplitude > 7.0)
    ensures amplitude > 1.0 && steps < 9 ==>
      (steps - 2) as real < 2.0 * amplitude <= (steps - 1) as real
  {
    if amplitude <= 1.0 then 5
    else
      var c := JsCeil(amplitude * 2.0) + 1;
      if c < 9 then c else 9
  }

  /** (i * (2 * amplitude)) / (steps - 1): how far tick `i` lies below the top. */
  function Offset(amplitude: real, steps: int, i: int): real
    requires steps >= 2
  {
    ((i as real) * (2.0 * amplitude)) / ((steps - 1) as real)
  }

  /** The gap between neighbouring ticks before rounding. */
  function Gap(amplitude: real): real {
    (2.0 * amplitude) / ((TickCount(amplitude) - 1) as real)
  }

  /** The unrounded value of tick `i`. */
  function TickValue(amplitude: real, i: int): real {
    amplitude - Offset(amplitude, TickCount(amplitude), i)
  }

  /** Math.round(v * 10) / 10: the nearest multiple of 1/10, halves rounded up. */
  function RoundTenth(v: real): (r: real)
    ensures v - 0.05 < r <= v + 0.05
    ensures IsIntegral(r * 10.0)
  {
    var n := JsRound(v * 10.0);
    assert (n as real / 10.0) * 10.0 == n as real;
    n as real / 10.0
  }

  /** The ticks as a whole. */
  function Ticks(amplitude: real): seq<real> {
    var steps := TickCount(amplitude);
    seq(steps, i requires 0 <= i < steps => RoundTenth(TickValue(amplitude, i)))
  }

  /** The loop of the component, one push per tick. */
  method YTicks(amplitude: real) returns (ticks: seq<real>)
    ensures |ticks| == TickCount(amplitude)
    ensures forall i :: 0 <= i < |ticks| ==>
      && IsIntegral(ticks[i] * 10.0)
      && TickValue(amplitude, i) - 0.05 < ticks[i] <= TickValue(amplitude, i) + 0.05
    ensures ticks == Ticks(amplitude)
  {
    var steps := if amplitude <= 1.0 then 5 else
      (if JsCeil(amplitude * 2.0) + 1 < 9 then JsCeil(amplitude * 2.0) + 1 else 9);
    ticks := [];
    var i := 0;
    while i < steps
      invariant steps == TickCount(amplitude)
      invariant 0 <= i <= steps
      invariant |ticks| == i
      invariant forall k :: 0 <= k < i ==> ticks[k] == RoundTenth(TickValue(amplitude, k))
    {
      var value := amplitude - Offset(amplitude, steps, i);
      ticks := ticks + [RoundTenth(value)];
      i := i + 1;
    }
  }

  /** Tick `i` lies `i` gaps below the amplitude. */
  lemma OffsetIsGaps(amplitude: real, i: int)
    ensures Offset(amplitude, TickCount(amplitude), i) == (i as real) * Gap(amplitude)
    ensures Gap(amplitude) * ((TickCount(amplitude) - 1) as real) == 2.0 * amplitude
  {
    var k := (TickCount(amplitude) - 1) as real;
    var d := Gap(amplitude);
    assert d * k == 2.0 * amplitude;
    assert (i as real) * (2.0 * amplitude) == ((i as real) * d) * k;
  }

  /**
    Before rounding the ticks form an arithmetic progression from +amplitude
    to -amplitude in steps of one gap.
   */
  lemma TickProgression(amplitude: real)
    ensures TickValue(amplitude, 0) == amplitude
    ensures TickValue(amplitude, TickCount(amplitude) - 1) == -amplitude
    ensures forall i :: TickValue(amplitude, i) - TickValue(amplitude, i + 1) == Gap(amplitude)
  {
    var steps := TickCount(amplitude);
    OffsetIsGaps(amplitude, steps - 1);
    forall i ensures TickValue(amplitude, i) - TickValue(amplitude, i + 1) == Gap(amplitude) {
      OffsetIsGaps(amplitude, i);
      OffsetIsGaps(amplitude, i + 1);
    }
  }

  /** The first tick is the rounded amplitude and the last the rounded negated amplitude. */
  lemma TickEnds(amplitude: real)
    ensures var ticks := Ticks(amplitude);
      && ticks[0] == (JsRound(10.0 * amplitude) as real) / 10.0
      && ticks[|ticks| - 1] == (JsRound(-10.0 * amplitude) as real) / 10.0
  {
    TickProgression(amplitude);
    assert amplitude * 10.0 == 10.0 * amplitude;
    assert -amplitude * 10.0 == -10.0 * amplitude;
  }

  lemma RoundTenthMonotone(v: real, w: real)
    requires v <= w
    ensures RoundTenth(v) <= RoundTenth(w)
  {
    JsRoundMonotone(v * 10.0, w * 10.0);
  }

  /** Rounding opposite values cancels, except at a tie, which both round up. */
  lemma RoundTenthOpposite(v: real)
    ensures RoundTenth(v) + RoundTenth(-v) == (if IsIntegral(v * 10.0 + 0.5) then 0.1 else 0.0)
  {
    JsRoundOpposite(v * 10.0);
    assert -v * 10.0 == -(v * 10.0);
  }

  /** A later tick is never above an earlier one when the amplitude is non-negative. */
  lemma TickValueFalls(amplitude: real, i: int, j: int)
    requires amplitude >= 0.0 && i <= j
    ensures TickValue(amplitude, j) <= TickValue(amplitude, i)
  {
    OffsetIsGaps(amplitude, i);
    OffsetIsGaps(amplitude, j);
    var d := Gap(amplitude);
    assert d >= 0.0;
    assert ((j - i) as real) * d >= 0.0;
    assert (j as real) * d - (i as real) * d == ((j - i) as real) * d;
  }

  /** Ticks `i` and `steps - 1 - i` are opposite before rounding. */
  lemma TickValueMirror(amplitude: real, i: int)
    ensures TickValue(amplitude, TickCount(amplitude) - 1 - i) == -TickValue(amplitude, i)
  {
    var n := TickCount(amplitude);
    OffsetIsGaps(amplitude, i);
    OffsetIsGaps(amplitude, n - 1 - i);
    OffsetIsGaps(amplitude, n - 1);
    var d := Gap(amplitude);
    assert ((n - 1 - i) as real) * d + (i as real) * d == ((n - 1) as real) * d;
  }

  /** For a non-negative amplitude the ticks never rise from one to the next. */
  lemma TicksNonIncreasing(amplitude: real)
    requires amplitude >= 0.0
    ensures var ticks := Ticks(amplitude);
      forall i, j :: 0 <= i < j < |ticks| ==> ticks[i] >= ticks[j]
  {
    var ticks := Ticks(amplitude);
    forall i, j | 0 <= i < j < |ticks| ensures ticks[i] >= ticks[j] {
      TickValueFalls(amplitude, i, j);
      RoundTenthMonotone(TickValue(amplitude, j), TickValue(amplitude, i));
    }
  }

  /**
    Ticks `i` and `steps - 1 - i` are mirror images before rounding, so after
    rounding they cancel, except that a value ending in exactly 5 hundredths
    rounds up on both sides and leaves 0.1.
   */
  lemma TicksNearlySymmetric(amplitude: real)
    ensures var ticks := Ticks(amplitude); var n := |ticks|;
      forall i :: 0 <= i < n ==>
        ticks[i] + ticks[n - 1 - i]
          == (if IsIntegral(TickValue(amplitude, i) * 10.0 + 0.5) then 0.1 else 0.0)
  {
    var ticks := Ticks(amplitude);
    var n := |ticks|;
    forall i | 0 <= i < n
      ensures ticks[i] + ticks[n - 1 - i]
        == (if IsIntegral(TickValue(amplitude, i) * 10.0 + 0.5) then 0.1 else 0.0)
    {
      TickValueMirror(amplitude, i);
      RoundTenthOpposite(TickValue(amplitude, i));
    }
  }

  /** Rounding leaves a multiple of 1/10 alone. */
  lemma RoundTenthExact(v: real)
    requires IsIntegral(v * 10.0)
    ensures RoundTenth(v) == v
  {
    assert JsRound(v * 10.0) == (v * 10.0).Floor;
  }

  /**
    When the amplitude and the gap are both multiples of 1/10, rounding
    changes nothing: each tick is its unrounded value.
   */
  lemma TicksExact(amplitude: real)
    requires IsIntegral(amplitude * 10.0) && IsIntegral(Gap(amplitude) * 10.0)
    ensures var ticks := Ticks(amplitude);
      forall i :: 0 <= i < |ticks| ==> ticks[i] == TickValue(amplitude, i)
  {
    var ticks := Ticks(amplitude);
    forall i | 0 <= i < |ticks| ensures ticks[i] == TickValue(amplitude, i) {
      TickValueIntegral(amplitude, i);
      RoundTenthExact(TickValue(amplitude, i));
    }
  }

  lemma TickValueIntegral(amplitude: real, i: int)
    requires IsIntegral(amplitude * 10.0) && IsIntegral(Gap(amplitude) * 10.0)
    ensures IsIntegral(TickValue(amplitude, i) * 10.0)
  {
    OffsetIsGaps(amplitude, i);
    TenthsStep(amplitude, Gap(amplitude), i);
  }

  /** Multiples of 1/10 stay multiples of 1/10 under a - i * d. */
  lemma TenthsStep(a: real, d: real, i: int)
    requires IsIntegral(a * 10.0) && IsIntegral(d * 10.0)
    ensures IsIntegral((a - (i as real) * d) * 10.0)
  {
    var m, g := (a * 10.0).Floor, (d * 10.0).Floor;
    assert (i as real) * (g as real) == (i * g) as real;
    assert (a - (i as real) * d) * 10.0 == (m - i * g) as real;
  }

  /** Amplitude 2 has five ticks, one unit apart from 2 down. */
  lemma AmplitudeTwoTickValues()
    ensures |Ticks(2.0)| == 5
    ensures forall i :: 0 <= i < 5 ==> Ticks(2.0)[i] == 2.0 - i as real
  {
    assert TickCount(2.0) == 5 && Gap(2.0) == 1.0;
    TicksExact(2.0);
    forall i | 0 <= i < 5 ensures TickValue(2.0, i) == 2.0 - i as real {
      OffsetIsGaps(2.0, i);
    }
  }

  /** Amplitude 2: the ticks 2, 1, 0, -1, -2. */
  lemma AmplitudeTwoTicks()
    ensures Ticks(2.0) == [2.0, 1.0, 0.0, -1.0, -2.0]
  {
    AmplitudeTwoTickValues();
    var ticks := Ticks(2.0);
    assert ticks[0] == 2.0 && ticks[1] == 1.0 && ticks[2] == 0.0 && ticks[3] == -1.0 && ticks[4] == -2.0;
  }

  /** Amplitude 1 has five ticks, half a unit apart from 1 down. */
  lemma AmplitudeOneTickValues()
    ensures |Ticks(1.0)| == 5
    ensures forall i :: 0 <= i < 5 ==> Ticks(1.0)[i] == 1.0 - (i as real) / 2.0
  {
    assert TickCount(1.0) == 5 && Gap(1.0) == 0.5;
    TicksExact(1.0);
    forall i | 0 <= i < 5 ensures TickValue(1.0, i) == 1.0 - (i as real) / 2.0 {
      OffsetIsGaps(1.0, i);
    }
  }

  /** Amplitude 1, the component's usual setting: the ticks 1, 0.5, 0, -0.5, -1. */
  lemma AmplitudeOneTicks()
    ensures Ticks(1.0) == [1.0, 0.5, 0.0, -0.5, -1.0]
  {
    AmplitudeOneTickValues();
    var ticks := Ticks(1.0);
    assert ticks[0] == 1.0 && ticks[1] == 0.5 && ticks[2] == 0.0 && ticks[3] == -0.5 && ticks[4] == -1.0;
  }

  /** What the component hands to the chart: the plotted points and the Y-axis ticks. */
  datatype Chart = Chart(data: seq<Point>, yTicks: seq<real>)

  /** The component's two memoised computations on its five parameters. */
  method Render(p: WaveParams, t: Trig) returns (chart: Chart)
    ensures chart.data == WavePoints(p, t)
    ensures chart.yTicks == Ticks(p.amplitude)
    ensures chart.data == [] <==> p.width <= 0.0
    ensures 4 <= |chart.yTicks| <= 9
  {
    var data := GenerateWavePath(p, t);
    var ticks := YTicks(p.amplitude);
    chart := Chart(data, ticks);
  }

  /**
    With sin and cos in [-1, 1] and a non-negative amplitude, the Y-axis
    ticks bracket every plotted value to within 0.1.
   */
  lemma TicksSpanData(p: WaveParams, t: Trig)
    requires TrigBounded(t) && p.amplitude >= 0.0
    ensures var ticks := Ticks(p.amplitude);
      forall pt :: pt in WavePoints(p, t) ==>
        ticks[|ticks| - 1] - 0.1 < pt.value < ticks[0] + 0.1
  {
    TickProgression(p.amplitude);
    ValuesWithinAmplitude(p, t);
  }
}
