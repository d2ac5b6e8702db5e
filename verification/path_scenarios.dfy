/**
  The scenarios of the path-string tests, stated as lemmas: on a 360 by 200
  canvas x equals the angle and the written pairs can be given literally.
  Every scenario requires `TrigAt`, the sine and cosine values at the angles
  involved.

  Each expected pair is written as its two numbers joined by "," (for
  example "90.000" + "," + "20.000") rather than as one literal: that is the
  shape in which PairText builds it, so the verifier matches the two without
  unfolding either string character by character.
 */
module PathScenarios {
  import opened Text
  import opened Fixed
  import opened Wave
  import opened SvgPath

  /** On a 360-wide canvas x equals the angle. */
  lemma XOnDegreeCanvas(p: WaveParams, angle: int)
    requires p.width == 360.0
    ensures X(p, angle) == angle as real
  {
  }

  /** On a 360-wide canvas the pair for `angle` is the angle and y, each to three decimals. */
  lemma DegreePair(p: WaveParams, t: Trig, angle: int, y: real)
    requires p.width == 360.0 && Y(p, t, angle) == y
    ensures PairText(p, t, angle) == ToFixed3(angle as real) + "," + ToFixed3(y)
  {
    XOnDegreeCanvas(p, angle);
  }

  /** The path starts "M x,y" with the pair for angle 0. */
  lemma StartsWithPair(p: WaveParams, t: Trig, y: real, xs: string, ys: string)
    requires p.width == 360.0 && Y(p, t, 0) == y && ToFixed3(0.0) == xs && ToFixed3(y) == ys
    ensures var toks := Split(GeneratePath(p, t), ' ');
      |toks| == 3 + LastAngle && toks[0] == "M" && toks[1] == xs + "," + ys
  {
    DegreePair(p, t, 0, y);
    FirstAndLastTokens(p, t);
  }

  /** The last token of the path is the pair for angle 360. */
  lemma EndsWithPair(p: WaveParams, t: Trig, y: real, xs: string, ys: string)
    requires p.width == 360.0 && Y(p, t, LastAngle) == y && ToFixed3(360.0) == xs && ToFixed3(y) == ys
    ensures var toks := Split(GeneratePath(p, t), ' '); toks[|toks| - 1] == xs + "," + ys
  {
    DegreePair(p, t, LastAngle, y);
    FirstAndLastTokens(p, t);
  }

  /** The pair for `angle` is one of the tokens of the path. */
  lemma TokenOfPair(p: WaveParams, t: Trig, angle: int, y: real)
    requires p.width == 360.0 && 0 <= angle <= LastAngle && Y(p, t, angle) == y
    ensures HasToken(GeneratePath(p, t), ToFixed3(angle as real) + "," + ToFixed3(y))
  {
    DegreePair(p, t, angle, y);
    PairInPath(p, t, angle);
  }

  /** Sine, amplitude 1, frequency 1 on a 360 by 200 canvas: centre at the ends, peaks at 90 and 270. */
  lemma SinePathScenario(p: WaveParams, t: Trig)
    requires TrigAt(t) && p == WaveParams(Sine, 1.0, 1.0, 360.0, 200.0)
    ensures var path := GeneratePath(p, t); var toks := Split(path, ' ');
      && |toks| == 3 + LastAngle && toks[0] == "M" && toks[1] == "0.000" + "," + "100.000"
      && toks[|toks| - 1] == "360.000" + "," + "100.000"
      && HasToken(path, "90.000" + "," + "20.000") && HasToken(path, "270.000" + "," + "180.000")
  {
    RawAtQuarterTurns(t);
    Text0(); Text20(); Text90(); Text100(); Text180(); Text270(); Text360();
    StartsWithPair(p, t, 100.0, "0.000", "100.000");
    EndsWithPair(p, t, 100.0, "360.000", "100.000");
    TokenOfPair(p, t, 90, 20.0);
    TokenOfPair(p, t, 270, 180.0);
  }

  /** Cosine, amplitude 1, frequency 1: top of the band at the ends, centre at 90 and 270. */
  lemma CosinePathScenario(p: WaveParams, t: Trig)
    requires TrigAt(t) && p == WaveParams(Cosine, 1.0, 1.0, 360.0, 200.0)
    ensures var path := GeneratePath(p, t); var toks := Split(path, ' ');
      && |toks| == 3 + LastAngle && toks[0] == "M" && toks[1] == "0.000" + "," + "20.000"
      && toks[|toks| - 1] == "360.000" + "," + "20.000"
      && HasToken(path, "90.000" + "," + "100.000") && HasToken(path, "270.000" + "," + "100.000")
  {
    RawAtQuarterTurns(t);
    Text0(); Text20(); Text90(); Text100(); Text270(); Text360();
    StartsWithPair(p, t, 20.0, "0.000", "20.000");
    EndsWithPair(p, t, 20.0, "360.000", "20.000");
    TokenOfPair(p, t, 90, 100.0);
    TokenOfPair(p, t, 270, 100.0);
  }

  /** Amplitude 2 pushes the peaks past the canvas: y = -60 at 90 degrees and 260 at 270. */
  lemma AmplitudeTwoScenario(p: WaveParams, t: Trig)
    requires TrigAt(t) && p == WaveParams(Sine, 2.0, 1.0, 360.0, 200.0)
    ensures var path := GeneratePath(p, t);
      HasToken(path, "90.000" + "," + "-60.000") && HasToken(path, "270.000" + "," + "260.000")
  {
    RawAtQuarterTurns(t);
    Text90(); TextMinus60(); Text260(); Text270();
    TokenOfPair(p, t, 90, -60.0);
    TokenOfPair(p, t, 270, 260.0);
  }

  /** Frequency 2 crosses the centre line at 90, 180 and 270 degrees. */
  lemma FrequencyTwoScenario(p: WaveParams, t: Trig)
    requires TrigAt(t) && p == WaveParams(Sine, 1.0, 2.0, 360.0, 200.0)
    ensures var path := GeneratePath(p, t);
      && HasToken(path, "90.000" + "," + "100.000") && HasToken(path, "180.000" + "," + "100.000")
      && HasToken(path, "270.000" + "," + "100.000")
  {
    RawAtQuarterTurns(t);
    Text90(); Text100(); Text180(); Text270();
    TokenOfPair(p, t, 90, 100.0);
    TokenOfPair(p, t, 180, 100.0);
    TokenOfPair(p, t, 270, 100.0);
  }

  /** Amplitude -1 turns the curve over; frequency -1 does the same at 90 degrees. */
  lemma NegativeParameterScenarios(p: WaveParams, t: Trig)
    requires TrigAt(t)
    requires p == WaveParams(Sine, -1.0, 1.0, 360.0, 200.0) || p == WaveParams(Sine, 1.0, -1.0, 360.0, 200.0)
    ensures var path := GeneratePath(p, t);
      && HasToken(path, "90.000" + "," + "180.000")
      && (p.amplitude == -1.0 ==> HasToken(path, "270.000" + "," + "20.000"))
  {
    RawAtQuarterTurns(t);
    Text20(); Text90(); Text180(); Text270();
    TokenOfPair(p, t, 90, 180.0);
    if p.amplitude == -1.0 {
      TokenOfPair(p, t, 270, 20.0);
    }
  }

  /** Height 0: the path still has its M and L, and starts at the origin. */
  lemma ZeroHeightScenario(p: WaveParams, t: Trig)
    requires p == WaveParams(Sine, 1.0, 1.0, 360.0, 0.0)
    ensures var path := GeneratePath(p, t); var toks := Split(path, ' ');
      |toks| == 3 + LastAngle && toks[0] == "M" && toks[1] == "0.000" + "," + "0.000" && toks[2] == "L"
  {
    Text0();
    ZeroHeightIsFlat(p, t);
    StartsWithPair(p, t, 0.0, "0.000", "0.000");
    PathTokens(p, t);
  }

  /** A flat sine (amplitude 0) or an unknown kind sits on the centre line at every x. */
  lemma FlatScenario(p: WaveParams, t: Trig)
    requires p == WaveParams(Sine, 0.0, 1.0, 360.0, 200.0) || p == WaveParams(Other, 1.0, 1.0, 360.0, 200.0)
    ensures var path := GeneratePath(p, t); var toks := Split(path, ' ');
      && |toks| == 3 + LastAngle && toks[0] == "M" && toks[1] == "0.000" + "," + "100.000"
      && HasToken(path, "100.000" + "," + "100.000") && HasToken(path, "200.000" + "," + "100.000")
  {
    Text0(); Text100(); Text200();
    FlatOnCentreLine(p, t);
    StartsWithPair(p, t, 100.0, "0.000", "100.000");
    TokenOfPair(p, t, 100, 100.0);
    TokenOfPair(p, t, 200, 100.0);
  }

  /** Frequency 0: every pair's y is written "100.000". */
  lemma ZeroFrequencyScenario(p: WaveParams, t: Trig)
    requires TrigAt(t) && p == WaveParams(Sine, 1.0, 0.0, 360.0, 200.0)
    ensures forall i :: 0 <= i <= LastAngle ==> PairText(p, t, i) == ToFixed3(X(p, i)) + "," + "100.000"
  {
    Text100();
    SineZeroFrequencyOnCentreLine(p, t);
  }

  /** toFixed(3) of the whole numbers the scenarios meet, one value per lemma. */
  lemma Text0()
    ensures ToFixed3(0.0) == "0.000"
  {
    IntegerText(0);
  }

  lemma Text20()
    ensures ToFixed3(20.0) == "20.000"
  {
    IntegerText(20);
  }

  lemma TextMinus60()
    ensures ToFixed3(-60.0) == "-60.000"
  {
    IntegerText(-60);
  }

  lemma Text90()
    ensures ToFixed3(90.0) == "90.000"
  {
    IntegerText(90);
  }

  lemma Text100()
    ensures ToFixed3(100.0) == "100.000"
  {
    IntegerText(100);
    assert NatToString(100) == "100" by { assert NatToString(10) == "10"; }
  }

  lemma Text180()
    ensures ToFixed3(180.0) == "180.000"
  {
    IntegerText(180);
    assert NatToString(180) == "180" by { assert NatToString(18) == "18"; }
  }

  lemma Text200()
    ensures ToFixed3(200.0) == "200.000"
  {
    IntegerText(200);
    assert NatToString(200) == "200" by { assert NatToString(20) == "20"; }
  }

  lemma Text260()
    ensures ToFixed3(260.0) == "260.000"
  {
    IntegerText(260);
    assert NatToString(260) == "260" by { assert NatToString(26) == "26"; }
  }

  lemma Text270()
    ensures ToFixed3(270.0) == "270.000"
  {
    IntegerText(270);
    assert NatToString(270) == "270" by { assert NatToString(27) == "27"; }
  }

  lemma Text360()
    ensures ToFixed3(360.0) == "360.000"
  {
    IntegerText(360);
    assert NatToString(360) == "360" by { assert NatToString(36) == "36"; }
  }
}
