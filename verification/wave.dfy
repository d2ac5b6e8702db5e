/**
  What both generateWavePath variants share: the waveform kind, the five
  input parameters, the JavaScript rounding primitives on exact reals, and the
  per-angle dispatch to sin, cos or a flat zero.

  Math.sin, Math.cos and Math.PI are not computable here; they are a `Trig`
  parameter, and lemmas that need particular values of them require
  `TrigAt` (the values at the angles the tests use) or `TrigBounded`.
 */
module Wave {

  /** WaveFunction: "sin", "cos", or any other string cast to the enum. */
  datatype Kind = Sine | Cosine | Other

  datatype WaveParams = WaveParams(
    kind: Kind,
    amplitude: real,
    frequency: real,
    width: real,
    height: real)

  /** The last angle of the sweep, in degrees; the sweep has LastAngle + 1 points. */
  const LastAngle := 360

  datatype Trig = Trig(sin: real -> real, cos: real -> real, pi: real)

  /** The tested angles, including the negative ones a frequency of -1 reaches. */
  ghost predicate TrigAt(t: Trig) {
    var pi := t.pi;
    && pi > 0.0
    && t.sin(0.0) == 0.0 && t.cos(0.0) == 1.0
    && t.sin(pi / 2.0) == 1.0 && t.cos(pi / 2.0) == 0.0
    && t.sin(pi) == 0.0 && t.cos(pi) == -1.0
    && t.sin(3.0 * pi / 2.0) == -1.0 && t.cos(3.0 * pi / 2.0) == 0.0
    && t.sin(2.0 * pi) == 0.0 && t.cos(2.0 * pi) == 1.0
    && t.sin(3.0 * pi) == 0.0 && t.cos(3.0 * pi) == -1.0
    // odd and even symmetry, at the points the negative-frequency tests use
    && t.sin(-(pi / 2.0)) == -t.sin(pi / 2.0) && t.cos(-(pi / 2.0)) == t.cos(pi / 2.0)
    && t.sin(-(3.0 * pi / 2.0)) == -t.sin(3.0 * pi / 2.0)
    && t.cos(-(3.0 * pi / 2.0)) == t.cos(3.0 * pi / 2.0)
  }

  ghost predicate TrigBounded(t: Trig) {
    && (forall x :: -1.0 <= t.sin(x) <= 1.0)
    && (forall x :: -1.0 <= t.cos(x) <= 1.0)
  }

  /** Math.round: the nearest integer, halves rounded up. */
  function JsRound(x: real): (n: int)
    ensures x - 0.5 < n as real <= x + 0.5
  {
    (x + 0.5).Floor
  }

  /** Math.ceil: the least integer not below `x`. */
  function JsCeil(x: real): (n: int)
    ensures x <= n as real < x + 1.0
  {
    -((-x).Floor)
  }

  predicate IsIntegral(x: real) {
    x.Floor as real == x
  }

  /** Two roundings of opposite numbers cancel, except at a half, where Math.round is not odd. */
  lemma JsRoundOpposite(x: real)
    ensures JsRound(x) + JsRound(-x) == (if IsIntegral(x + 0.5) then 1 else 0)
  {
    var k := (x + 0.5).Floor;
    if IsIntegral(x + 0.5) {
      assert -x + 0.5 == (1 - k) as real;
    } else {
      assert k as real < x + 0.5 < k as real + 1.0;
      assert (-x + 0.5).Floor == -k;
    }
  }

  lemma JsRoundMonotone(x: real, y: real)
    requires x <= y
    ensures JsRound(x) <= JsRound(y)
  {
  }

  function Abs(x: real): (m: real)
    ensures m >= 0.0 && (m == x || m == -x)
  {
    if x < 0.0 then -x else x
  }

  /** angle * (Math.PI / 180) */
  function Radian(t: Trig, angle: int): real {
    (angle as real) * (t.pi / 180.0)
  }

  /** radian * frequency, the argument handed to Math.sin or Math.cos. */
  function Phase(t: Trig, angle: int, frequency: real): real {
    Radian(t, angle) * frequency
  }

  /**
    The unscaled waveform value at `angle` degrees: sin or cos of the
    phase, and 0 for a kind that is neither.
   */
  function Raw(kind: Kind, t: Trig, angle: int, frequency: real): (r: real)
    ensures kind == Other ==> r == 0.0
    ensures TrigBounded(t) ==> -1.0 <= r <= 1.0
  {
    match kind
    case Sine => t.sin(Phase(t, angle, frequency))
    case Cosine => t.cos(Phase(t, angle, frequency))
    case Other => 0.0
  }

  /** The raw value times the amplitude: `yValue` before any rounding. */
  function Scaled(kind: Kind, t: Trig, angle: int, frequency: real, amplitude: real): real {
    Raw(kind, t, angle, frequency) * amplitude
  }

  /** With sin and cos in [-1, 1], the scaled value never exceeds the amplitude in size. */
  lemma ScaledWithinAmplitude(kind: Kind, t: Trig, angle: int, frequency: real, amplitude: real)
    requires TrigBounded(t)
    ensures -Abs(amplitude) <= Scaled(kind, t, angle, frequency, amplitude) <= Abs(amplitude)
  {
    UnitTimes(Raw(kind, t, angle, frequency), amplitude);
  }

  lemma UnitTimes(r: real, a: real)
    requires -1.0 <= r <= 1.0
    ensures -Abs(a) <= r * a <= Abs(a)
  {
    var m := Abs(a);
    assert (1.0 - r) * m >= 0.0 && (1.0 + r) * m >= 0.0;
    if a >= 0.0 {
      assert r * a == r * m;
    } else {
      assert r * a == -(r * m);
    }
  }

  /** Negating the amplitude negates the scaled value. */
  lemma ScaledNegated(kind: Kind, t: Trig, angle: int, frequency: real, amplitude: real)
    ensures Scaled(kind, t, angle, frequency, -amplitude) == -Scaled(kind, t, angle, frequency, amplitude)
  {
    var r := Raw(kind, t, angle, frequency);
    assert r * -amplitude == -(r * amplitude);
  }

  /** With frequency 0 every angle evaluates the trig function at 0. */
  lemma RawAtZeroFrequency(kind: Kind, t: Trig, angle: int)
    requires TrigAt(t)
    ensures Raw(kind, t, angle, 0.0) == (if kind == Cosine then 1.0 else 0.0)
  {
    assert Phase(t, angle, 0.0) == 0.0;
  }

  /** Raw values at the quarter turns, for frequencies 1, 2 and -1. */
  lemma RawAtQuarterTurns(t: Trig)
    requires TrigAt(t)
    ensures Raw(Sine, t, 0, 1.0) == 0.0 && Raw(Sine, t, 90, 1.0) == 1.0
    ensures Raw(Sine, t, 270, 1.0) == -1.0 && Raw(Sine, t, 360, 1.0) == 0.0
    ensures Raw(Cosine, t, 0, 1.0) == 1.0 && Raw(Cosine, t, 90, 1.0) == 0.0
    ensures Raw(Cosine, t, 270, 1.0) == 0.0 && Raw(Cosine, t, 360, 1.0) == 1.0
    ensures Raw(Sine, t, 90, 2.0) == 0.0 && Raw(Sine, t, 180, 2.0) == 0.0
    ensures Raw(Sine, t, 270, 2.0) == 0.0
    ensures Raw(Sine, t, 90, -1.0) == -1.0 && Raw(Sine, t, 270, -1.0) == 1.0
  {
    var pi := t.pi;
    assert Phase(t, 0, 1.0) == 0.0;
    assert Phase(t, 90, 1.0) == pi / 2.0;
    assert Phase(t, 270, 1.0) == 3.0 * pi / 2.0;
    assert Phase(t, 360, 1.0) == 2.0 * pi;
    assert Phase(t, 90, 2.0) == pi;
    assert Phase(t, 180, 2.0) == 2.0 * pi;
    assert Phase(t, 270, 2.0) == 3.0 * pi;
    assert Phase(t, 90, -1.0) == -(pi / 2.0);
    assert Phase(t, 270, -1.0) == -(3.0 * pi / 2.0);
  }
}
