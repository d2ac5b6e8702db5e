/**
  generateWavePath of src/lib/waveUtils.ts: the point-list form that the
  chart plots.  A non-positive width gives no points; otherwise the angles
  0..360 are swept in steps of one degree and each yields the waveform value
  scaled by the amplitude and rounded to three decimals.
 */
module Samples {
  import opened Wave

  datatype Point = Point(angle: int, value: real)

  /** Math.round(y * 1000) / 1000: the nearest multiple of 1/1000, halves rounded up. */
  function Round3(y: real): (r: real)
    ensures y - 0.0005 < r <= y + 0.0005
    ensures IsIntegral(r * 1000.0)
  {
    var n := JsRound(y * 1000.0);
    assert (n as real / 1000.0) * 1000.0 == n as real;
    n as real / 1000.0
  }

  /** The value plotted at `angle`: raw * amplitude, rounded to three decimals. */
  function SampleValue(p: WaveParams, t: Trig, angle: int): real {
    Round3(Scaled(p.kind, t, angle, p.frequency, p.amplitude))
  }

  /** The points the sweep produces, stated as a whole. */
  function WavePoints(p: WaveParams, t: Trig): seq<Point> {
    if p.width <= 0.0 then []
    else seq(LastAngle + 1, i requires 0 <= i <= LastAngle => Point(i, SampleValue(p, t, i)))
  }

  /** The loop of the source, one push per degree. */
  method GenerateWavePath(p: WaveParams, t: Trig) returns (points: seq<Point>)
    ensures points == [] <==> p.width <= 0.0
    ensures p.width > 0.0 ==> |points| == LastAngle + 1
    ensures forall i :: 0 <= i < |points| ==> points[i].angle == i
    ensures forall i :: 0 <= i < |points| ==>
      points[i].value == Round3(Scaled(p.kind, t, i, p.frequency, p.amplitude))
    ensures points == WavePoints(p, t)
  {
    if p.width <= 0.0 {
      return [];
    }
    points := [];
    var angle := 0;
    while angle <= LastAngle
      invariant 0 <= angle <= LastAngle + 1
      invariant |points| == angle
      invariant forall i :: 0 <= i < angle ==> points[i] == Point(i, SampleValue(p, t, i))
    {
      var yValue := Scaled(p.kind, t, angle, p.frequency, p.amplitude);
      var rounded := Round3(yValue);
      points := points + [Point(angle, rounded)];
      angle := angle + 1;
    }
  }

  /** Angles run strictly upward from 0 to 360. */
  lemma AnglesAscend(p: WaveParams, t: Trig)
    requires p.width > 0.0
    ensures var pts := WavePoints(p, t);
      && |pts| == 361 && pts[0].angle == 0 && pts[360].angle == 360
      && forall i, j :: 0 <= i < j < |pts| ==> pts[i].angle < pts[j].angle
  {
  }

  /** Past the guard, neither the height nor the size of the width is read. */
  lemma CanvasSizeIrrelevant(p: WaveParams, t: Trig, width: real, height: real)
    requires p.width > 0.0 && width > 0.0
    ensures WavePoints(p, t) == WavePoints(p.(width := width, height := height), t)
  {
    var q := p.(width := width, height := height);
    var a, b := WavePoints(p, t), WavePoints(q, t);
    assert |a| == |b|;
    forall i | 0 <= i < |a| ensures a[i] == b[i] {
      assert q.kind == p.kind && q.frequency == p.frequency && q.amplitude == p.amplitude;
    }
  }

  lemma ZeroAmplitudeIsFlat(p: WaveParams, t: Trig)
    requires p.amplitude == 0.0
    ensures forall pt :: pt in WavePoints(p, t) ==> pt.value == 0.0
  {
  }

  lemma UnknownKindIsFlat(p: WaveParams, t: Trig)
    requires p.kind == Other
    ensures forall pt :: pt in WavePoints(p, t) ==> pt.value == 0.0
  {
  }

  /** Frequency 0: a sine is flat at 0, a cosine is flat at the rounded amplitude. */
  lemma ZeroFrequency(p: WaveParams, t: Trig)
    requires TrigAt(t) && p.frequency == 0.0
    ensures p.kind != Cosine ==> forall pt :: pt in WavePoints(p, t) ==> pt.value == 0.0
    ensures p.kind == Cosine ==>
      forall pt :: pt in WavePoints(p, t) ==> pt.value == Round3(p.amplitude)
  {
    forall i | 0 <= i <= LastAngle {
      RawAtZeroFrequency(p.kind, t, i);
    }
  }

  /** Every value is a multiple of 1/1000 within half a thousandth of raw * amplitude. */
  lemma ValuesAreRounded(p: WaveParams, t: Trig)
    ensures forall i :: 0 <= i < |WavePoints(p, t)| ==>
      var v := WavePoints(p, t)[i].value;
      var y := Scaled(p.kind, t, i, p.frequency, p.amplitude);
      && IsIntegral(v * 1000.0)
      && y - 0.0005 < v <= y + 0.0005
  {
  }

  /** With sin and cos in [-1, 1] no value strays beyond the amplitude by more than the rounding. */
  lemma ValuesWithinAmplitude(p: WaveParams, t: Trig)
    requires TrigBounded(t)
    ensures forall pt :: pt in WavePoints(p, t) ==>
      -Abs(p.amplitude) - 0.0005 < pt.value <= Abs(p.amplitude) + 0.0005
  {
    forall i | 0 <= i <= LastAngle
      ensures -Abs(p.amplitude) <= Scaled(p.kind, t, i, p.frequency, p.amplitude) <= Abs(p.amplitude)
    {
      ScaledWithinAmplitude(p.kind, t, i, p.frequency, p.amplitude);
    }
  }

  /** Sine, amplitude 1, frequency 1: 0 at both ends, 1 at 90 degrees, -1 at 270 degrees. */
  lemma SineQuarterTurns(p: WaveParams, t: Trig)
    requires TrigAt(t) && p.width > 0.0
    requires p.kind == Sine && p.amplitude == 1.0 && p.frequency == 1.0
    ensures var pts := WavePoints(p, t);
      && pts[0] == Point(0, 0.0) && pts[90] == Point(90, 1.0)
      && pts[270] == Point(270, -1.0) && pts[360] == Point(360, 0.0)
  {
    RawAtQuarterTurns(t);
  }

  /** Cosine, amplitude 1, frequency 1: 1 at both ends, 0 at 90 and 270 degrees. */
  lemma CosineQuarterTurns(p: WaveParams, t: Trig)
    requires TrigAt(t) && p.width > 0.0
    requires p.kind == Cosine && p.amplitude == 1.0 && p.frequency == 1.0
    ensures var pts := WavePoints(p, t);
      && pts[0] == Point(0, 1.0) && pts[90] == Point(90, 0.0)
      && pts[270] == Point(270, 0.0) && pts[360] == Point(360, 1.0)
  {
    RawAtQuarterTurns(t);
  }

  /** Sine with amplitude 2 peaks at 2 and -2; with amplitude -1 the peaks swap sides. */
  lemma SineAmplitudePeaks(p: WaveParams, t: Trig)
    requires TrigAt(t) && p.width > 0.0
    requires p.kind == Sine && p.frequency == 1.0
    requires p.amplitude == 2.0 || p.amplitude == -1.0
    ensures var pts := WavePoints(p, t);
      pts[90].value == p.amplitude && pts[270].value == -p.amplitude
  {
    RawAtQuarterTurns(t);
  }

  /** Frequency 2 crosses zero at 90, 180 and 270 degrees; frequency -1 is -1 at 90 degrees. */
  lemma SineFrequencyScenarios(p: WaveParams, t: Trig)
    requires TrigAt(t) && p.width > 0.0
    requires p.kind == Sine && p.amplitude == 1.0
    requires p.frequency == 2.0 || p.frequency == -1.0
    ensures var pts := WavePoints(p, t);
      && (p.frequency == 2.0 ==> pts[90].value == 0.0 && pts[180].value == 0.0 && pts[270].value == 0.0)
      && (p.frequency == -1.0 ==> pts[90].value == -1.0)
  {
    RawAtQuarterTurns(t);
  }

  /** Fractional parameters give values that are not whole: sine, amplitude 0.5, frequency 1.5 reaches 0.5 at 60 degrees. */
  lemma FractionalParameters(p: WaveParams, t: Trig)
    requires TrigAt(t)
    requires p == WaveParams(Sine, 0.5, 1.5, 360.5, 200.5)
    ensures var pts := WavePoints(p, t);
      && |pts| == LastAngle + 1 && pts[60] == Point(60, 0.5)
      && exists pt :: pt in pts && pt.value != pt.value.Floor as real
  {
    assert Phase(t, 60, 1.5) == t.pi / 2.0;
    var pts := WavePoints(p, t);
    assert pts[60] in pts;
  }
}
