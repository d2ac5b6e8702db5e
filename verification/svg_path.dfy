/**
  generateWavePath of src/libs/waveUtils.ts: the SVG path-string form.
  Each angle 0..360 becomes a canvas point x = angle/360 * width,
  y = height/2 - raw * amplitude * (height/2 * 0.8), written "x,y" with
  toFixed(3); the result is "M " + first pair + " L " + the other 360 pairs
  joined by single spaces.  This version has no width guard: the loop always
  pushes 361 pairs, so its empty-list branch is never taken.
 */
module SvgPath {
  import opened Text
  import opened Fixed
  import opened Wave

  /** (angle / 360) * width */
  function X(p: WaveParams, angle: int): real {
    ((angle as real) / 360.0) * p.width
  }

  /** yCenter - raw * amplitude * (yCenter * 0.8), with yCenter = height / 2 */
  function Y(p: WaveParams, t: Trig, angle: int): real {
    var yCenter := p.height / 2.0;
    yCenter - Scaled(p.kind, t, angle, p.frequency, p.amplitude) * (yCenter * 0.8)
  }

  /** `${x.toFixed(3)},${y.toFixed(3)}` */
  function PairText(p: WaveParams, t: Trig, angle: int): (s: string)
    ensures ' ' !in s
  {
    ToFixed3(X(p, angle)) + "," + ToFixed3(Y(p, t, angle))
  }

  /** The `points` array once the loop has run. */
  function Pairs(p: WaveParams, t: Trig): (pairs: seq<string>)
    ensures |pairs| == LastAngle + 1
    ensures forall i :: 0 <= i < |pairs| ==> pairs[i] == PairText(p, t, i)
  {
    seq(LastAngle + 1, i requires 0 <= i <= LastAngle => PairText(p, t, i))
  }

  /** The tail of the source: "" for no points, else "M p0 L p1 p2 ...". */
  function Assemble(points: seq<string>): (path: string)
    ensures path == "" <==> |points| == 0
    ensures |points| > 0 ==> |path| >= 2 && path[..2] == "M "
  {
    if |points| == 0 then ""
    else "M " + points[0] + " L " + Join(' ', points[1..])
  }

  /** The path string exactly as the source builds it (no width guard). */
  function GeneratePath(p: WaveParams, t: Trig): string {
    Assemble(Pairs(p, t))
  }

  /** Every input, a non-positive width included, yields a non-empty path starting "M ". */
  lemma PathNeverEmpty(p: WaveParams, t: Trig)
    ensures GeneratePath(p, t) != ""
    ensures GeneratePath(p, t)[..2] == "M "
  {
  }

  /** The width-0 case the test expects to be "": the source returns a path instead. */
  lemma ZeroWidthPathIsNotEmpty(t: Trig)
    ensures GeneratePath(WaveParams(Sine, 1.0, 1.0, 0.0, 200.0), t) != ""
  {
    PathNeverEmpty(WaveParams(Sine, 1.0, 1.0, 0.0, 200.0), t);
  }

  /** The corrected variant: the guard the tests and the point-list form expect. */
  function GuardedPath(p: WaveParams, t: Trig): string {
    if p.width <= 0.0 then "" else GeneratePath(p, t)
  }

  lemma GuardedPathEmptyIff(p: WaveParams, t: Trig)
    ensures GuardedPath(p, t) == "" <==> p.width <= 0.0
    ensures p.width > 0.0 ==> GuardedPath(p, t) == GeneratePath(p, t)
  {
  }

  /** "M p0 L rest" is the space-join of the tokens M, p0, L and the rest. */
  lemma AssembleAsJoin(points: seq<string>)
    requires |points| >= 2
    ensures Assemble(points) == Join(' ', ["M", points[0], "L"] + points[1..])
  {
    var toks := ["M", points[0], "L"] + points[1..];
    var rest := Join(' ', points[1..]);
    assert toks[1..][1..][1..] == points[1..];
    assert Join(' ', toks[1..][1..]) == "L" + [' '] + rest;
    assert Join(' ', toks[1..]) == points[0] + [' '] + ("L" + [' '] + rest);
    assert Join(' ', toks) == "M" + [' '] + (points[0] + [' '] + ("L" + [' '] + rest));
  }

  /**
    Split at spaces, the path is M, the first pair, L, then the other 360
    pairs: exactly 360 single-space-separated pairs follow " L ".
   */
  lemma PathTokens(p: WaveParams, t: Trig)
    ensures var pairs := Pairs(p, t);
      Split(GeneratePath(p, t), ' ') == ["M", pairs[0], "L"] + pairs[1..]
    ensures |Split(GeneratePath(p, t), ' ')| == 3 + LastAngle
  {
    var pairs := Pairs(p, t);
    var toks := ["M", pairs[0], "L"] + pairs[1..];
    AssembleAsJoin(pairs);
    forall k | 0 <= k < |toks| ensures ' ' !in toks[k] {
      if k >= 3 {
        assert toks[k] == PairText(p, t, k - 2);
      }
    }
    SplitJoin(toks, ' ');
  }

  /** An assembled path begins with "M " and the first point and ends with the last point. */
  lemma AssembleEnds(points: seq<string>)
    requires |points| >= 2
    ensures var path := Assemble(points); var first := "M " + points[0];
      var last := points[|points| - 1];
      && |path| >= |first| && path[..|first|] == first
      && |path| >= |last| && path[|path| - |last|..] == last
  {
    var path := Assemble(points);
    var first := "M " + points[0];
    var rest := Join(' ', points[1..]);
    var head := first + " L ";
    assert path == head + rest;
    assert head[..|first|] == first;
    assert path[..|first|] == head[..|first|];
    JoinEndsWithLast(' ', points[1..]);
    assert path[|path| - |rest|..] == rest;
  }

  /** The path ends with the pair for 360 degrees and begins with "M " and the pair for 0. */
  lemma PathEnds(p: WaveParams, t: Trig)
    ensures var path := GeneratePath(p, t); var first := "M " + PairText(p, t, 0);
      var last := PairText(p, t, LastAngle);
      && |path| >= |first| && path[..|first|] == first
      && |path| >= |last| && path[|path| - |last|..] == last
  {
    AssembleEnds(Pairs(p, t));
  }

  /** Reads back one "x,y" pair. */
  function DecodePair(s: string): Option<(real, real)> {
    var parts := Split(s, ',');
    if |parts| != 2 then None
    else match (ParseFixed(parts[0]), ParseFixed(parts[1]))
      case (Some(x), Some(y)) => Some((x, y))
      case _ => None
  }

  function DecodePairs(texts: seq<string>): Option<seq<(real, real)>>
    decreases |texts|
  {
    if |texts| == 0 then Some([])
    else match (DecodePair(texts[0]), DecodePairs(texts[1..]))
      case (Some(xy), Some(rest)) => Some([xy] + rest)
      case _ => None
  }

  /** Reads back a path of the form "M p0 L p1 ... pn" into its coordinates. */
  function DecodePath(path: string): Option<seq<(real, real)>> {
    var toks := Split(path, ' ');
    if |toks| < 3 || toks[0] != "M" || toks[2] != "L" then None
    else DecodePairs([toks[1]] + toks[3..])
  }

  /** The coordinates as written: each rounded by toFixed(3). */
  function Written(p: WaveParams, t: Trig, angle: int): (real, real) {
    (FixedValue(X(p, angle)), FixedValue(Y(p, t, angle)))
  }

  lemma DecodePairText(p: WaveParams, t: Trig, angle: int)
    ensures DecodePair(PairText(p, t, angle)) == Some(Written(p, t, angle))
  {
    var xs, ys := ToFixed3(X(p, angle)), ToFixed3(Y(p, t, angle));
    SplitAtFirstSep(xs, ys, ',');
    SplitWithoutSep(ys, ',');
    assert Split(PairText(p, t, angle), ',') == [xs, ys];
    ParseToFixed3(X(p, angle));
    ParseToFixed3(Y(p, t, angle));
  }

  /** Decoding a list of pairs succeeds when each pair decodes, and keeps their order. */
  lemma {:induction false} DecodeEachPair(texts: seq<string>, xys: seq<(real, real)>)
    requires |texts| == |xys|
    requires forall k :: 0 <= k < |texts| ==> DecodePair(texts[k]) == Some(xys[k])
    ensures DecodePairs(texts) == Some(xys)
    decreases |texts|
  {
    if |texts| > 0 {
      DecodeEachPair(texts[1..], xys[1..]);
      assert [xys[0]] + xys[1..] == xys;
    }
  }

  /** Decoding the path recovers every point of the sweep, as rounded by toFixed(3). */
  lemma DecodeGeneratePath(p: WaveParams, t: Trig)
    ensures DecodePath(GeneratePath(p, t))
      == Some(seq(LastAngle + 1, i requires 0 <= i <= LastAngle => Written(p, t, i)))
  {
    var pairs := Pairs(p, t);
    var xys := seq(LastAngle + 1, i requires 0 <= i <= LastAngle => Written(p, t, i));
    PathTokens(p, t);
    var toks := ["M", pairs[0], "L"] + pairs[1..];
    assert [toks[1]] + toks[3..] == pairs;
    forall k | 0 <= k < |pairs| ensures DecodePair(pairs[k]) == Some(xys[k]) {
      DecodePairText(p, t, k);
    }
    DecodeEachPair(pairs, xys);
  }

  /** The first x is 0 and the last is the full width; x grows with the angle when width > 0. */
  lemma XSpansWidth(p: WaveParams)
    ensures X(p, 0) == 0.0 && X(p, LastAngle) == p.width
    ensures p.width > 0.0 ==> forall i, j :: 0 <= i < j <= LastAngle ==> X(p, i) < X(p, j)
  {
    if p.width > 0.0 {
      forall i, j | 0 <= i < j <= LastAngle ensures X(p, i) < X(p, j) {
        var a, b := (i as real) / 360.0, (j as real) / 360.0;
        assert a < b;
        assert a * p.width < b * p.width;
      }
    }
  }

  /** A flat waveform (unknown kind or zero amplitude) keeps every y on the centre line. */
  lemma FlatOnCentreLine(p: WaveParams, t: Trig)
    requires p.kind == Other || p.amplitude == 0.0
    ensures forall i :: Y(p, t, i) == p.height / 2.0
  {
  }

  /** Height 0 puts every y at 0. */
  lemma ZeroHeightIsFlat(p: WaveParams, t: Trig)
    requires p.height == 0.0
    ensures forall i :: Y(p, t, i) == 0.0
  {
  }

  /** A sine of frequency 0 stays on the centre line. */
  lemma SineZeroFrequencyOnCentreLine(p: WaveParams, t: Trig)
    requires TrigAt(t) && p.kind == Sine && p.frequency == 0.0
    ensures forall i :: Y(p, t, i) == p.height / 2.0
  {
    forall i ensures Y(p, t, i) == p.height / 2.0 {
      RawAtZeroFrequency(Sine, t, i);
    }
  }

  /**
    With |amplitude| <= 1 and sin, cos in [-1, 1], the curve keeps a margin
    of 10% of the height above and below: 0.1 h <= y <= 0.9 h.
   */
  lemma WithinMargins(p: WaveParams, t: Trig, angle: int)
    requires TrigBounded(t) && -1.0 <= p.amplitude <= 1.0 && p.height >= 0.0
    ensures 0.1 * p.height <= Y(p, t, angle) <= 0.9 * p.height
  {
    var s := Scaled(p.kind, t, angle, p.frequency, p.amplitude);
    ScaledWithinAmplitude(p.kind, t, angle, p.frequency, p.amplitude);
    var c := p.height / 2.0 * 0.8;
    assert Y(p, t, angle) == p.height / 2.0 - s * c;
    UnitTimes(s, c);
  }

  /** Negating the amplitude mirrors the curve about the centre line. */
  lemma NegatedAmplitudeMirrors(p: WaveParams, t: Trig, angle: int)
    ensures Y(p, t, angle) + Y(p.(amplitude := -p.amplitude), t, angle) == p.height
  {
    var q := p.(amplitude := -p.amplitude);
    ScaledNegated(p.kind, t, angle, p.frequency, p.amplitude);
    assert q.kind == p.kind && q.frequency == p.frequency && q.height == p.height;
    var s := Scaled(p.kind, t, angle, p.frequency, p.amplitude);
    var c := p.height / 2.0 * 0.8;
    assert -s * c == -(s * c);
  }

  /** Each pair of the sweep is one of the space-separated tokens of the path. */
  lemma PairInPath(p: WaveParams, t: Trig, angle: int)
    requires 0 <= angle <= LastAngle
    ensures PairText(p, t, angle) in Split(GeneratePath(p, t), ' ')
  {
    PathTokens(p, t);
    var pairs := Pairs(p, t);
    var toks := ["M", pairs[0], "L"] + pairs[1..];
    if angle == 0 {
      assert toks[1] == pairs[0];
    } else {
      assert toks[angle + 2] == pairs[angle];
    }
  }

  /** `text` is one of the space-separated tokens of the path's "d" attribute. */
  predicate HasToken(path: string, text: string) {
    text in Split(path, ' ')
  }

  /** The path reads "M", then the pair for 0 degrees, and ends with the pair for 360 degrees. */
  lemma FirstAndLastTokens(p: WaveParams, t: Trig)
    ensures var toks := Split(GeneratePath(p, t), ' ');
      && |toks| == 3 + LastAngle && toks[0] == "M" && toks[1] == PairText(p, t, 0)
      && toks[|toks| - 1] == PairText(p, t, LastAngle)
  {
    PathTokens(p, t);
  }

  /** Whatever the parameters, the path carries a number written with three decimals: the x of its first pair. */
  lemma FirstPairHasThreeDecimals(p: WaveParams, t: Trig)
    ensures var toks := Split(GeneratePath(p, t), ' '); var xs := ToFixed3(X(p, 0));
      && |toks| == 3 + LastAngle && toks[1] == xs + "," + ToFixed3(Y(p, t, 0))
      && IsDigit(xs[|xs| - 5]) && xs[|xs| - 4] == '.' && AllDigits(xs[|xs| - 3..])
  {
    FirstAndLastTokens(p, t);
  }
}
