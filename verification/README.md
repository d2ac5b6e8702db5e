# nami_canvas wave widget — a Dafny model

The widget plots a sine or cosine wave from five parameters: waveform kind,
amplitude, frequency, canvas width and canvas height. This project models the
three pure computations behind it and proves what they promise:

- `generateWavePath` in `src/lib/waveUtils.ts` (module `Samples`). This is the
  point-list form the chart uses.
  - A width of 0 or less gives no points.
  - Otherwise the angles 0..360 are swept in one-degree steps.
  - Each angle yields sin, cos or a flat 0 of `angle * pi/180 * frequency`,
    times the amplitude, rounded to three decimals.
- `generateWavePath` in `src/libs/waveUtils.ts` (module `SvgPath`). This is the
  SVG path-string form.
  - Each angle becomes `x = angle/360 * width` and
    `y = height/2 - raw * amplitude * (height/2 * 0.8)`.
  - Each pair is written `x,y` with `toFixed(3)`.
  - The whole path is `"M " + p0 + " L " + p1 + " " + ... + p360`.
  - `PathScenarios` restates the path tests of this form as lemmas.
- The `WaveGraph` component (module `WaveGraph`). Only the two values it hands
  to the chart are modelled:
  - the point list (lines 36-44);
  - the Y-axis ticks (lines 47-57). The tick count is 5 for amplitudes up to 1,
    otherwise `min(ceil(2a) + 1, 9)`. The ticks run evenly from `+a` down to
    `-a`, each rounded to one decimal.

Shared pieces:

- `Wave` holds the kind, the parameters, and the JavaScript rounding
  primitives on exact reals. `Math.round(x)` is `Floor(x + 0.5)` and
  `Math.ceil(x)` is `-Floor(-x)`. It also holds the per-angle dispatch.
- `Fixed` holds `toFixed(3)` and a parser that reads its output back.
- `Text` holds digits, join and split.

`Math.sin`, `Math.cos` and `Math.PI` cannot be computed by Dafny. They are a
`Trig` parameter. Lemmas that need their values require one of two predicates:

- `TrigAt`: the values at the tested angles, including the two negative ones
  reached with frequency -1.
- `TrigBounded`: sin and cos lie in [-1, 1].

## Model

| member | source | states |
|---|---|---|
| Wave.Raw | src/lib/waveUtils.ts:43-51 | An unknown kind gives 0. With sin and cos bounded by 1, the raw value lies in [-1, 1]. |
| Wave.JsRound | src/lib/waveUtils.ts:54 | `Math.round` lands within half a unit of its argument, with halves going up. |
| Wave.JsCeil | src/components/WaveGraph.tsx:50 | `Math.ceil` is the least integer not below its argument. |
| Wave.JsRoundOpposite | src/components/WaveGraph.tsx:54 | Rounding x and -x cancels, except at exact halves, where the sum is 1: `Math.round` is not odd. |
| Wave.JsRoundMonotone | src/components/WaveGraph.tsx:54 | `Math.round` preserves order. |
| Wave.ScaledWithinAmplitude | src/lib/waveUtils.ts:47-51 | With bounded trig, raw times amplitude never exceeds the amplitude in size. |
| Wave.ScaledNegated | src/libs/waveUtils.ts:45 | Negating the amplitude negates raw times amplitude. |
| Wave.RawAtZeroFrequency | src/lib/waveUtils.ts:47-51 | With frequency 0, every angle evaluates the trig function at 0: 1 for cosine, 0 otherwise. |
| Wave.RawAtQuarterTurns | src/lib/waveUtils.test.ts:11-139 | Under the trig axioms, gives sine and cosine at 0, 90, 270 and 360 degrees, frequency 2 at 90, 180 and 270, and frequency -1 at 90 and 270. |
| Samples.Round3 | src/lib/waveUtils.ts:54 | `Math.round(y*1000)/1000` is a multiple of 1/1000 within half a thousandth of y. |
| Samples.GenerateWavePath | src/lib/waveUtils.ts:27-62 | The loop returns nothing exactly when width <= 0. Otherwise it returns 361 points, with point i at angle i holding raw times amplitude rounded to thousandths. |
| Samples.AnglesAscend | src/lib/waveUtils.ts:42-58 | The 361 angles run strictly upward from 0 to 360. |
| Samples.CanvasSizeIrrelevant | src/lib/waveUtils.ts:35-61 | Past the guard, the points do not depend on the height or on the size of the width. |
| Samples.ZeroAmplitudeIsFlat | src/lib/waveUtils.ts:47-57 | Amplitude 0 makes every value 0. |
| Samples.UnknownKindIsFlat | src/lib/waveUtils.ts:44-51 | A kind that is neither sine nor cosine makes every value 0. |
| Samples.ZeroFrequency | src/lib/waveUtils.ts:47-50 | With frequency 0, sine is flat at 0, but cosine is flat at the rounded amplitude. |
| Samples.ValuesAreRounded | src/lib/waveUtils.ts:54-57 | Every value is a multiple of 1/1000 within half a thousandth of raw times amplitude. |
| Samples.ValuesWithinAmplitude | src/lib/waveUtils.ts:47-57 | With bounded trig, every value lies within the amplitude, give or take the rounding. |
| Samples.SineQuarterTurns | src/lib/waveUtils.test.ts:11-53 | Sine with amplitude 1 and frequency 1 gives 0, 1, -1 and 0 at 0, 90, 270 and 360 degrees. |
| Samples.CosineQuarterTurns | src/lib/waveUtils.test.ts:55-98 | Cosine with amplitude 1 and frequency 1 gives 1, 0, 0 and 1 at 0, 90, 270 and 360 degrees. |
| Samples.SineAmplitudePeaks | src/lib/waveUtils.test.ts:101-116 | Amplitude 2 peaks at 2 and -2. Amplitude -1 swaps the peaks to -1 at 90 degrees and 1 at 270. |
| Samples.SineFrequencyScenarios | src/lib/waveUtils.test.ts:118-139 | Frequency 2 is 0 at 90, 180 and 270 degrees. Frequency -1 is -1 at 90 degrees. |
| Samples.FractionalParameters | src/lib/waveUtils.test.ts:243-257 | Sine with amplitude 0.5 and frequency 1.5 gives 361 points, with the value 0.5 at 60 degrees, so some value is not a whole number. |
| Text.NatToString | src/libs/waveUtils.ts:47 | The integer part of a formatted number is a non-empty run of digits, with a leading zero only for 0. |
| Text.ParseNatToString | src/libs/waveUtils.ts:47 | Reading back the digits of n gives n. |
| Text.ParsePad3 | src/libs/waveUtils.ts:47 | Reading back the three zero-padded fraction digits gives their value. |
| Text.SplitJoin | src/libs/waveUtils.ts:54 | Splitting a join at its separator gives back the parts, when no part contains the separator. |
| Text.JoinEndsWithLast | src/libs/waveUtils.ts:54 | A join ends with its last part. |
| Fixed.Thousandths | src/libs/waveUtils.ts:47 | `toFixed(3)` rounds the magnitude to the nearest thousandth. |
| Fixed.FixedValue | src/libs/waveUtils.ts:47 | The number written by `toFixed(3)` is a multiple of 1/1000 within half a thousandth of x. |
| Fixed.ToFixed3 | src/libs/waveUtils.ts:47 | The text ends with a digit, a dot and exactly three digits, holds only digits, '-' and '.', and never a space or comma. |
| Fixed.ParseToFixed3 | src/libs/waveUtils.ts:47 | Parsing the `toFixed(3)` text of x gives back the rounded value of x. |
| Fixed.IntegerText | src/libs/waveUtils.test.ts:22 | A whole number is written as its sign and digits followed by ".000". |
| SvgPath.PairText | src/libs/waveUtils.ts:47 | A formatted pair contains no space, so the path's spaces separate pairs. |
| SvgPath.Assemble | src/libs/waveUtils.ts:50-54 | The result is empty exactly when there are no points. Otherwise it starts with "M ". |
| SvgPath.PathNeverEmpty | src/libs/waveUtils.ts:33-54 | For every input, including width <= 0, the path is non-empty and starts with "M ". |
| SvgPath.ZeroWidthPathIsNotEmpty | src/libs/waveUtils.test.ts:140-150 | With width 0 the path is not the "" the test expects. |
| SvgPath.GuardedPathEmptyIff | src/libs/waveUtils.test.ts:140-150 | With a width guard added, the path is empty exactly when width <= 0, and unchanged otherwise. |
| SvgPath.AssembleAsJoin | src/libs/waveUtils.ts:54 | "M p0 L rest" is the space-join of M, p0, L and the remaining pairs. |
| SvgPath.PathTokens | src/libs/waveUtils.ts:54 | Split at spaces, the path is M, p0, L, then exactly 360 more pairs. |
| SvgPath.AssembleEnds | src/libs/waveUtils.ts:54 | An assembled path begins with "M " and the first point, and ends with the last point. |
| SvgPath.PathEnds | src/libs/waveUtils.ts:47-54 | The path begins with "M " and the pair for 0 degrees, and ends with the pair for 360 degrees. |
| SvgPath.DecodePairText | src/libs/waveUtils.ts:47 | Decoding a pair gives back x and y as rounded by `toFixed(3)`. |
| SvgPath.DecodeGeneratePath | src/libs/waveUtils.ts:33-54 | Decoding the path gives all 361 points of the sweep, in order, as rounded by `toFixed(3)`. |
| SvgPath.XSpansWidth | src/libs/waveUtils.ts:34 | x is 0 at 0 degrees and the full width at 360. It strictly increases with the angle when width > 0. |
| SvgPath.FlatOnCentreLine | src/libs/waveUtils.ts:30-45 | An unknown kind or a zero amplitude puts every y on height/2. |
| SvgPath.ZeroHeightIsFlat | src/libs/waveUtils.ts:30-45 | Height 0 puts every y at 0. |
| SvgPath.SineZeroFrequencyOnCentreLine | src/libs/waveUtils.ts:38-45 | A sine with frequency 0 stays on height/2. |
| SvgPath.WithinMargins | src/libs/waveUtils.ts:45 | With bounded trig and \|amplitude\| <= 1, y stays between 10% and 90% of the height. |
| SvgPath.NegatedAmplitudeMirrors | src/libs/waveUtils.ts:45 | Negating the amplitude mirrors y about the centre line: the two y values sum to the height. |
| SvgPath.PairInPath | src/libs/waveUtils.ts:47-54 | Each of the 361 pairs appears as a space-separated token of the path. |
| SvgPath.FirstAndLastTokens | src/libs/waveUtils.ts:54 | The tokens are M, the pair for 0 degrees, and so on, ending with the pair for 360 degrees. |
| SvgPath.FirstPairHasThreeDecimals | src/libs/waveUtils.test.ts:241-253 | For every input, the first pair token begins with the x coordinate written as digits, a dot and exactly three digits. |
| PathScenarios.XOnDegreeCanvas | src/libs/waveUtils.ts:34 | On a 360-wide canvas, x equals the angle. |
| PathScenarios.DegreePair | src/libs/waveUtils.ts:34-47 | On a 360-wide canvas, the pair is the formatted angle, a comma and the formatted y. |
| PathScenarios.SinePathScenario | src/libs/waveUtils.test.ts:12-53 | Sine at 360 by 200 starts "M 0.000,100.000", ends "360.000,100.000", and contains "90.000,20.000" and "270.000,180.000". |
| PathScenarios.CosinePathScenario | src/libs/waveUtils.test.ts:57-96 | Cosine starts "M 0.000,20.000", ends "360.000,20.000", and contains "90.000,100.000" and "270.000,100.000". |
| PathScenarios.AmplitudeTwoScenario | src/libs/waveUtils.test.ts:100-118 | Amplitude 2 is not clamped: it contains "90.000,-60.000" and "270.000,260.000". |
| PathScenarios.FrequencyTwoScenario | src/libs/waveUtils.test.ts:120-137 | Frequency 2 is on the centre line at 90, 180 and 270 degrees. |
| PathScenarios.NegativeParameterScenarios | src/libs/waveUtils.test.ts:198-225 | Amplitude -1 gives "90.000,180.000" and "270.000,20.000". Frequency -1 gives "90.000,180.000". |
| PathScenarios.ZeroHeightScenario | src/libs/waveUtils.test.ts:152-164 | Height 0 starts "M 0.000,0.000" and keeps its "L". |
| PathScenarios.FlatScenario | src/libs/waveUtils.test.ts:166-179 | Amplitude 0 or an unknown kind starts "M 0.000,100.000" and contains "100.000,100.000" and "200.000,100.000". |
| PathScenarios.ZeroFrequencyScenario | src/libs/waveUtils.test.ts:181-196 | With frequency 0, every pair's y is written "100.000". |
| WaveGraph.TickCount | src/components/WaveGraph.tsx:49-50 | The count is 5 for amplitude <= 1 and lies in 4..9. Above 1 it is 9 exactly when 2a > 7, and otherwise the least count with 2a <= count - 1. |
| WaveGraph.RoundTenth | src/components/WaveGraph.tsx:54 | `Math.round(v*10)/10` is a multiple of 1/10 within 0.05 of v. |
| WaveGraph.YTicks | src/components/WaveGraph.tsx:47-57 | The loop pushes one tick per step. Each tick is a multiple of 1/10 within 0.05 of its unrounded value. |
| WaveGraph.OffsetIsGaps | src/components/WaveGraph.tsx:53 | Tick i lies i gaps below the amplitude, and count - 1 gaps make 2a. |
| WaveGraph.TickProgression | src/components/WaveGraph.tsx:52-55 | Before rounding, the ticks run from +a to -a in equal gaps. |
| WaveGraph.TickEnds | src/components/WaveGraph.tsx:53-54 | The first tick is `Math.round(10a)/10` and the last is `Math.round(-10a)/10`. |
| WaveGraph.RoundTenthMonotone | src/components/WaveGraph.tsx:54 | Rounding to tenths preserves order. |
| WaveGraph.RoundTenthOpposite | src/components/WaveGraph.tsx:54 | Rounding v and -v to tenths cancels, except at a tie, which leaves 0.1. |
| WaveGraph.TickValueFalls | src/components/WaveGraph.tsx:53 | For a >= 0, a later unrounded tick is never above an earlier one. |
| WaveGraph.TickValueMirror | src/components/WaveGraph.tsx:53 | Unrounded ticks i and count-1-i are opposite. |
| WaveGraph.TicksNonIncreasing | src/components/WaveGraph.tsx:52-55 | For a >= 0 the ticks never rise. |
| WaveGraph.TicksNearlySymmetric | src/components/WaveGraph.tsx:52-55 | Mirrored ticks sum to 0, or to 0.1 exactly when the value sits on a rounding tie. |
| WaveGraph.RoundTenthExact | src/components/WaveGraph.tsx:54 | Rounding leaves a multiple of 1/10 unchanged. |
| WaveGraph.TicksExact | src/components/WaveGraph.tsx:52-55 | When a and the gap are multiples of 1/10, every tick equals its unrounded value. |
| WaveGraph.AmplitudeTwoTicks | src/components/WaveGraph.test.tsx:204-225 | Amplitude 2 gives the ticks 2, 1, 0, -1, -2. |
| WaveGraph.AmplitudeOneTicks | src/components/WaveGraph.tsx:47-57 | Amplitude 1 gives the ticks 1, 0.5, 0, -0.5, -1. |
| WaveGraph.Render | src/components/WaveGraph.tsx:36-57 | The chart gets the point list of the same five parameters, which is empty exactly when width <= 0, and 4 to 9 ticks. |
| WaveGraph.TicksSpanData | src/components/WaveGraph.tsx:36-57 | With bounded trig and a >= 0, every plotted value lies within 0.1 of the range from the last tick to the first. |

## Left out

- IEEE-754 arithmetic is not modelled; reals are exact. For example, `Math.sin(Math.PI)` is about 1.2e-16 in JavaScript but exactly 0 under `TrigAt`.
- `Math.sin`, `Math.cos` and `Math.PI` are a parameter. Only the spot values in `TrigAt` and the bound in `TrigBounded` are assumed, and only where a lemma requires them.
- The `-0 → 0` normalisation (src/lib/waveUtils.ts:57) is the identity on reals, so `value` is the rounded number itself.
- `toFixed` on numbers of magnitude 1e21 or more switches to exponent notation. `Fixed.ToFixed3` always writes plain decimals.
- Negating the amplitude does not negate every rounded value elementwise: ties round up on both sides. Only the tested 90 and 270 degree points are claimed (`Samples.SineAmplitudePeaks`).
- The "very large values" test only checks that output exists, and reals cannot overflow. The "fractional parameters" tests are modelled by `Samples.FractionalParameters` and `SvgPath.FirstPairHasThreeDecimals`; the widths 360.5 and 200.5 they pass play no part in either claim.
- The React and recharts rendering (src/components/WaveGraph.tsx:59-107) is left out: container size, grid, axes, tooltip, styling. Of it, only the two values passed to the chart are modelled.
- WaveControlPanel, the page, the stories and the prop interfaces are UI. They are not part of this model. The `WaveFunction` enum becomes `Kind`, with `Other` for any string that is neither "sin" nor "cos".
- NaN and infinite parameters are not modelled.

## Findings

| source | as written | input that shows it | evidently intended | confidence | as-written member | corrected member |
|---|---|---|---|---|---|---|
| src/libs/waveUtils.ts:33-52 | The loop always pushes 361 pairs, so the `points.length === 0` branch is dead and a non-positive width still yields a full path. | Sine, amplitude 1, frequency 1, width 0, height 200 gives a path starting "M 0.000,100.000", not "". | An empty path for width <= 0, as src/libs/waveUtils.test.ts:140-150 expects and as the point-list form does at src/lib/waveUtils.ts:35-37. | high; not executed | SvgPath.ZeroWidthPathIsNotEmpty | SvgPath.GuardedPathEmptyIff |

`SvgPath.GeneratePath` models the code as written. `SvgPath.GuardedPath` adds the guard. For every width > 0 the two agree (`SvgPath.GuardedPathEmptyIff`), so all path properties above, proved for widths of 360, hold for either.
