# Gradient effects: a verified model

This project models, in Dafny, the geometry of four animated gradient effects of
an Android (Jetpack Compose) demo app. Each effect computes, for each frame, where
its gradient brushes lie and which clip rectangles it fills.

- **Parabola gradient carousel** (module `Carousel`, `carousel.dfy`). A circle shows
  the current palette's linear gradient. The next palette is revealed over it
  from the top down, behind a parabolic boundary. The boundary narrows and
  descends in three eased phases as the sweep progress `u` runs from 0 to 1. The
  reveal is drawn as 280 vertical slices. Each slice is one hard clip rectangle,
  9 feather bands and 12 glow bands. After every sweep the palette index
  advances by one, modulo 6. The per-frame computation is a function
  (`RenderFrame`). The draw loops are methods proved equal to it (`PaintFrame`,
  `DrawReveal`, `DrawSlice`, `DrawFeather`, `DrawGlow`). The driver loop is a
  class, `CarouselState`, whose fields `curIdx` and `sweep` its methods update.
- **Parabola wave gradient** (module `ParabolaWave`, `wave.dfy`). 180 vertical
  slices, each filled with a vertical gradient band 1.35 h long. The band is
  centred on a per-slice height: a bobbing parabola, plus two interfering sine
  waves, plus a global bob. A vignette is drawn over the result.
- **Vertically moving linear gradient** (module `VerticalGradient`,
  `vertical.dfy`). A repeated four-colour gradient whose axis slides by
  `t * h * 0.55`.
- **Rotating linear gradient** (module `RotatingGradient`, `rotating.dfy`). A
  three-colour gradient whose axis turns about the centre of the box and reaches
  half the diagonal on either side.

The shared vocabulary is in module `Geometry` (`geometry.dfy`): points,
rectangles, gradient axes, `lerp`, `clamp01`/`coerceIn`, smoothstep, and a few
sign facts about products and quotients.

Floats are modelled as `real`. `sin`, `cos` and `hypot` are parameters of the
functions that use them. Each lemma states, as a precondition, exactly the fact
about them it relies on: a value in [-1, 1], `cos² + sin² = 1`,
`hypot(w, h)² = w² + h²`, or, for the carousel's seam, that `sin` and `cos`
take the same values at `TwoPi` as at 0. The animated inputs (`u`, `t`, `drift`, `deg`) are
parameters. Draw calls are emitted as sequences of records. A record is either a clip rectangle with the brush layer and alpha, or a gradient brush with its colours, axis and tile mode.

Source paths in the table are relative to the repository root.

## Model

| member | source | states |
|---|---|---|
| Geometry.Clamp | app/src/main/kotlin/com/poroshin/gleb/animations/ui/gradient/ParabolaGradientCarouselBox.kt:43 | `coerceIn(lo, hi)`: the result lies in [lo, hi]. It is `x` inside, `lo` below and `hi` above. |
| Geometry.Clamp01 | app/src/main/kotlin/com/poroshin/gleb/animations/ui/gradient/ParabolaGradientCarouselBox.kt:43 | `clamp01`: the result lies in [0, 1] and leaves values already in [0, 1] unchanged. |
| Geometry.Min | app/src/main/kotlin/com/poroshin/gleb/animations/ui/gradient/ParabolaGradientCarouselBox.kt:86 | `minOf`: the result is one of the two arguments and at most both. |
| Geometry.Max | app/src/main/kotlin/com/poroshin/gleb/animations/ui/gradient/ParabolaGradientCarouselBox.kt:102 | `maxOf`: the result is one of the two arguments and at least both. |
| Geometry.Lerp | app/src/main/kotlin/com/poroshin/gleb/animations/ui/gradient/ParabolaGradientCarouselBox.kt:42 | `lerp` gives `a` at t = 0 and `b` at t = 1, and stays between `a` and `b` for t in [0, 1]. The wave effect's `lerp` (ParabolaWaveGradientBox.kt:74) is the same function. |
| Geometry.LerpMonotone | app/src/main/kotlin/com/poroshin/gleb/animations/ui/gradient/ParabolaGradientCarouselBox.kt:42 | As t grows, `lerp` moves monotonically from `a` towards `b`, in either direction. |
| Geometry.Smoothstep01 | app/src/main/kotlin/com/poroshin/gleb/animations/ui/gradient/ParabolaGradientCarouselBox.kt:46-49 | `smoothstep01` maps every input into [0, 1]. It gives 0 for every x ≤ 0 and 1 for every x ≥ 1. |
| Geometry.SmoothstepMonotone | app/src/main/kotlin/com/poroshin/gleb/animations/ui/gradient/ParabolaGradientCarouselBox.kt:46-49 | `smoothstep01` is non-decreasing everywhere, so the easing never runs backwards. |
| Geometry.CubicMonotone | app/src/main/kotlin/com/poroshin/gleb/animations/ui/gradient/ParabolaGradientCarouselBox.kt:48 | `t·t·(3 − 2t)` is non-decreasing on [0, 1]. |
| Geometry.DivAntitone | app/src/main/kotlin/com/poroshin/gleb/animations/ui/gradient/ParabolaGradientCarouselBox.kt:208 | Dividing a non-negative number by a larger positive divisor never gives a larger quotient. This is the step that makes `a` grow as the half-width shrinks. |
| Carousel.PalettesOpaque | app/src/main/kotlin/com/poroshin/gleb/animations/ui/gradient/ParabolaGradientCarouselBox.kt:31-40 | There are six palettes. Each has four fully opaque colours and starts with white. |
| Carousel.NextIndex | app/src/main/kotlin/com/poroshin/gleb/animations/ui/gradient/ParabolaGradientCarouselBox.kt:122 | `(curIdx + 1) % size` is always a valid palette index. It is `i + 1`, or 0 after the last palette. |
| Carousel.IndexAfterCycles | app/src/main/kotlin/com/poroshin/gleb/animations/ui/gradient/ParabolaGradientCarouselBox.kt:61-75 | After n sweeps from index i the index is `(i + n) % 6` and always in bounds, so sweeps visit 0, 1, …, 5, 0, … |
| Carousel.CircleLayout | app/src/main/kotlin/com/poroshin/gleb/animations/ui/gradient/ParabolaGradientCarouselBox.kt:86-91 | The circle's box is 2r by 2r, centred on the surface and inside it. r ≥ 0, and r > 0 on a non-empty surface. |
| Carousel.SlicesPartition | app/src/main/kotlin/com/poroshin/gleb/animations/ui/gradient/ParabolaGradientCarouselBox.kt:98-99 | The 280 slices are contiguous (each ends where the next begins) and exactly cover [0, 2r]. |
| Carousel.SliceColumnInside | app/src/main/kotlin/com/poroshin/gleb/animations/ui/gradient/ParabolaGradientCarouselBox.kt:224-225 | Slice i's column `[i·sliceW, i·sliceW + sliceW]` ends where slice i + 1 begins and lies in [0, 2r]. |
| Carousel.Phase1 | app/src/main/kotlin/com/poroshin/gleb/animations/ui/gradient/ParabolaGradientCarouselBox.kt:173-178 | Phase 1 keeps the vertex at 0, with k in [0, 0.66] and the half-width between `lerp(wide, narrow, 0.45)` and wide. |
| Carousel.Phase2 | app/src/main/kotlin/com/poroshin/gleb/animations/ui/gradient/ParabolaGradientCarouselBox.kt:180-189 | Phase 2 has k in [0.66, 1.4], vY in [0, 0.70·pathLen] and the half-width between the 85% and 45% values. |
| Carousel.Phase3 | app/src/main/kotlin/com/poroshin/gleb/animations/ui/gradient/ParabolaGradientCarouselBox.kt:191-196 | Phase 3 has k in [1.4, 2], vY in [0.70·pathLen, pathLen] and the half-width between narrow and the 85% value. |
| Carousel.Schedule | app/src/main/kotlin/com/poroshin/gleb/animations/ui/gradient/ParabolaGradientCarouselBox.kt:172-197 | For every u: k in [0, 2], vY in [0, pathLen], half-width in [hwNarrow, hwWide]. |
| Carousel.FirstSeamContinuous | app/src/main/kotlin/com/poroshin/gleb/animations/ui/gradient/ParabolaGradientCarouselBox.kt:172-189 | At u = 0.22 phases 1 and 2 both give (0.66, 0, lerp(wide, narrow, 0.45)): no jump at the first seam. |
| Carousel.SecondSeamContinuous | app/src/main/kotlin/com/poroshin/gleb/animations/ui/gradient/ParabolaGradientCarouselBox.kt:180-196 | At u = 0.82 phases 2 and 3 both give (1.4, 0.70·pathLen, lerp(wide, narrow, 0.85)): no jump at the second seam. |
| Carousel.ScheduleStart | app/src/main/kotlin/com/poroshin/gleb/animations/ui/gradient/ParabolaGradientCarouselBox.kt:173-178 | At u = 0 the parabola is flat (k = 0), at the top, and widest. |
| Carousel.ScheduleEnd | app/src/main/kotlin/com/poroshin/gleb/animations/ui/gradient/ParabolaGradientCarouselBox.kt:191-196 | At u = 1 the parabola is steepest (k = 2), at the end of its path, and narrowest. |
| Carousel.ScheduleMonotone | app/src/main/kotlin/com/poroshin/gleb/animations/ui/gradient/ParabolaGradientCarouselBox.kt:172-197 | As u grows, k and vY never decrease and the half-width never increases, across phase boundaries too. |
| Carousel.Phase1Monotone | app/src/main/kotlin/com/poroshin/gleb/animations/ui/gradient/ParabolaGradientCarouselBox.kt:173-178 | Within phase 1, k rises and the half-width shrinks with u. |
| Carousel.Phase2Monotone | app/src/main/kotlin/com/poroshin/gleb/animations/ui/gradient/ParabolaGradientCarouselBox.kt:180-189 | Within phase 2, k and vY rise and the half-width shrinks with u. |
| Carousel.Phase3Monotone | app/src/main/kotlin/com/poroshin/gleb/animations/ui/gradient/ParabolaGradientCarouselBox.kt:191-196 | Within phase 3, k and vY rise and the half-width shrinks with u. |
| Carousel.CurvaturePositive | app/src/main/kotlin/com/poroshin/gleb/animations/ui/gradient/ParabolaGradientCarouselBox.kt:206-208 | On a circle with r > 0, every scheduled half-width is positive, so `a = edgeDrop / halfWidth²` is defined and positive. |
| Carousel.EdgeDrop | app/src/main/kotlin/com/poroshin/gleb/animations/ui/gradient/ParabolaGradientCarouselBox.kt:206-207 | The branch drop at the half-width lies in [0.10 r, 0.78 r] for every k. |
| Carousel.EdgeDropMonotone | app/src/main/kotlin/com/poroshin/gleb/animations/ui/gradient/ParabolaGradientCarouselBox.kt:206-207 | A larger k never gives a smaller branch drop. |
| Carousel.Curvature | app/src/main/kotlin/com/poroshin/gleb/animations/ui/gradient/ParabolaGradientCarouselBox.kt:208 | `a = edgeDrop / halfWidth²` is positive on a circle with r > 0. |
| Carousel.CurvatureOrder | app/src/main/kotlin/com/poroshin/gleb/animations/ui/gradient/ParabolaGradientCarouselBox.kt:206-208 | Of two mask shapes, the one with larger k and smaller half-width (at least hwNarrow) has the larger `a`. |
| Carousel.CurvatureMonotone | app/src/main/kotlin/com/poroshin/gleb/animations/ui/gradient/ParabolaGradientCarouselBox.kt:172-208 | As u grows the boundary coefficient `a` never decreases: the branches only steepen during a sweep. |
| Carousel.BoundaryY | app/src/main/kotlin/com/poroshin/gleb/animations/ui/gradient/ParabolaGradientCarouselBox.kt:210-214 | `boundaryY` always lies in [0, 2r]. |
| Carousel.Bend | app/src/main/kotlin/com/poroshin/gleb/animations/ui/gradient/ParabolaGradientCarouselBox.kt:211-212 | The parabola's drop `a · dx²` is non-negative for a ≥ 0 and zero on the axis. |
| Carousel.BendMonotone | app/src/main/kotlin/com/poroshin/gleb/animations/ui/gradient/ParabolaGradientCarouselBox.kt:211-212 | A larger `a` drops at least as far at every distance from the axis. |
| Carousel.BoundaryBelowCircle | app/src/main/kotlin/com/poroshin/gleb/animations/ui/gradient/ParabolaGradientCarouselBox.kt:210-214 | With a ≥ 0 and the vertex at or below 2r, the boundary is 2r at every abscissa. |
| Carousel.BoundaryMonotone | app/src/main/kotlin/com/poroshin/gleb/animations/ui/gradient/ParabolaGradientCarouselBox.kt:210-214 | A lower vertex and a larger `a` give a boundary at least as deep at every abscissa. |
| Carousel.FeatherAlphaRises | app/src/main/kotlin/com/poroshin/gleb/animations/ui/gradient/ParabolaGradientCarouselBox.kt:242-243 | Feather alpha strictly increases with the step and reaches exactly 0.16 at step 9. |
| Carousel.FeatherAlpha | app/src/main/kotlin/com/poroshin/gleb/animations/ui/gradient/ParabolaGradientCarouselBox.kt:244 | Feather alpha `s / 9 · 0.16` lies in [0, 0.16] for every step of the loop. |
| Carousel.GlowAlphaFalls | app/src/main/kotlin/com/poroshin/gleb/animations/ui/gradient/ParabolaGradientCarouselBox.kt:257-260 | Glow alpha strictly decreases with the step, stays in [0, 0.22], and is 0 at step 12. |
| Carousel.Falloff | app/src/main/kotlin/com/poroshin/gleb/animations/ui/gradient/ParabolaGradientCarouselBox.kt:259-260 | `1 − g / 12` lies in [0, 1] for every step of the loop and is 0 at the last step. |
| Carousel.GlowAlpha | app/src/main/kotlin/com/poroshin/gleb/animations/ui/gradient/ParabolaGradientCarouselBox.kt:259-261 | Glow alpha `falloff² · 0.22` lies in [0, 0.22] for every step of the loop. |
| Carousel.FeatherDepth | app/src/main/kotlin/com/poroshin/gleb/animations/ui/gradient/ParabolaGradientCarouselBox.kt:241-247 | Feather band s reaches `s · featherPx / 9` below the boundary. That is positive from the first band on, and exactly `featherPx` at the last. |
| Carousel.FeatherDepthMonotone | app/src/main/kotlin/com/poroshin/gleb/animations/ui/gradient/ParabolaGradientCarouselBox.kt:241-247 | Each feather band reaches at least as deep as the one before. |
| Carousel.GlowAbove | app/src/main/kotlin/com/poroshin/gleb/animations/ui/gradient/ParabolaGradientCarouselBox.kt:257-261 | Glow band g reaches `glowUp · g / 12` above the boundary: non-negative, and exactly `glowUp` at the last band. |
| Carousel.GlowBelow | app/src/main/kotlin/com/poroshin/gleb/animations/ui/gradient/ParabolaGradientCarouselBox.kt:257-262 | Glow band g reaches `glowDown · g / 12` below the boundary: non-negative, and exactly `glowDown` at the last band. |
| Carousel.GlowReachMonotone | app/src/main/kotlin/com/poroshin/gleb/animations/ui/gradient/ParabolaGradientCarouselBox.kt:257-262 | Each glow band reaches at least as far above and below the boundary as the one before. |
| Carousel.FeatherBand | app/src/main/kotlin/com/poroshin/gleb/animations/ui/gradient/ParabolaGradientCarouselBox.kt:241-252 | Feather band s covers the slice column from the circle's top down to `min(y1 + FeatherDepth(s), bottom)`. That is the boundary plus its depth, cut off at the circle's bottom (`coerceAtMost(bottom)`), and never further in either case. For s ≥ 1 it reaches strictly below a boundary that lies above the bottom. It uses the next palette at `FeatherAlpha(s)`. |
| Carousel.GlowBand | app/src/main/kotlin/com/poroshin/gleb/animations/ui/gradient/ParabolaGradientCarouselBox.kt:256-268 | Glow band g spans the slice column over `[max(y1 - GlowAbove(g), top), min(y1 + GlowBelow(g), bottom)]`. That is the stated reach around the boundary, cut off at the circle's box and never beyond the reach. So it straddles a boundary inside the box. It uses the next palette at `GlowAlpha(g)`. |
| Carousel.FeatherBandsDeepen | app/src/main/kotlin/com/poroshin/gleb/animations/ui/gradient/ParabolaGradientCarouselBox.kt:242-251 | Feather bands are of increasing height: a later band's bottom is at least as low as an earlier one's. |
| Carousel.GlowBandsWiden | app/src/main/kotlin/com/poroshin/gleb/animations/ui/gradient/ParabolaGradientCarouselBox.kt:256-268 | Glow bands widen with g: a later band's top is at least as high and its bottom at least as low. |
| Carousel.GlowBandWithin | app/src/main/kotlin/com/poroshin/gleb/animations/ui/gradient/ParabolaGradientCarouselBox.kt:258-265 | A glow band around a boundary inside the box is clipped inside the box and uses the next palette. |
| Carousel.FeatherBandsWithin | app/src/main/kotlin/com/poroshin/gleb/animations/ui/gradient/ParabolaGradientCarouselBox.kt:241-252 | Every feather band lies inside the circle's box and uses the next palette. |
| Carousel.GlowBandsWithin | app/src/main/kotlin/com/poroshin/gleb/animations/ui/gradient/ParabolaGradientCarouselBox.kt:257-269 | Every glow band lies inside the circle's box and uses the next palette. |
| Carousel.FeatherBands | app/src/main/kotlin/com/poroshin/gleb/animations/ui/gradient/ParabolaGradientCarouselBox.kt:241-252 | The feather loop emits exactly n bands, and the j-th is band j + 1, in order. |
| Carousel.GlowBands | app/src/main/kotlin/com/poroshin/gleb/animations/ui/gradient/ParabolaGradientCarouselBox.kt:257-269 | The glow loop emits exactly n bands, and the j-th is band j + 1, in order. |
| Carousel.SliceCommands | app/src/main/kotlin/com/poroshin/gleb/animations/ui/gradient/ParabolaGradientCarouselBox.kt:224-269 | A slice emits either nothing or exactly 22 fills. When it emits fills, fills 1..9 are feather bands 1..9 and fills 10..21 are glow bands 1..12, in that order. All of them sit on the slice's column and its boundary depth. |
| Carousel.SliceSkipped | app/src/main/kotlin/com/poroshin/gleb/animations/ui/gradient/ParabolaGradientCarouselBox.kt:226-229 | A slice emits nothing if and only if its boundary, sampled at the slice centre, is at most 0.5 deep. |
| Carousel.SliceRevealed | app/src/main/kotlin/com/poroshin/gleb/animations/ui/gradient/ParabolaGradientCarouselBox.kt:224-239 | Otherwise it emits 22 fills. The first is the hard reveal of its column, from the circle's top down to the boundary, with the next palette at full alpha. |
| Carousel.SliceDepthMonotone | app/src/main/kotlin/com/poroshin/gleb/animations/ui/gradient/ParabolaGradientCarouselBox.kt:172-229 | The next palette is revealed from the top down: as u grows, every slice's boundary is at least as deep. |
| Carousel.SliceStaysRevealed | app/src/main/kotlin/com/poroshin/gleb/animations/ui/gradient/ParabolaGradientCarouselBox.kt:172-229 | A slice that is drawn at some u is still drawn at every later u of the sweep. |
| Carousel.SliceWithin | app/src/main/kotlin/com/poroshin/gleb/animations/ui/gradient/ParabolaGradientCarouselBox.kt:223-269 | Every fill a slice emits is clipped inside the circle's box and uses the next palette. |
| Carousel.RevealWithin | app/src/main/kotlin/com/poroshin/gleb/animations/ui/gradient/ParabolaGradientCarouselBox.kt:223-270 | The same holds for all fills of the slice loop. |
| Carousel.RevealCommands | app/src/main/kotlin/com/poroshin/gleb/animations/ui/gradient/ParabolaGradientCarouselBox.kt:223-270 | The slice loop over n slices emits at most 22 fills per slice. |
| Carousel.BaseFill | app/src/main/kotlin/com/poroshin/gleb/animations/ui/gradient/ParabolaGradientCarouselBox.kt:221 | The first fill paints the circle's whole box with the current palette at full opacity. |
| Carousel.FrameCommands | app/src/main/kotlin/com/poroshin/gleb/animations/ui/gradient/ParabolaGradientCarouselBox.kt:220-270 | A frame's fills start with the base fill and number between 1 and 1 + 280 · 22. |
| Carousel.RenderFrame | app/src/main/kotlin/com/poroshin/gleb/animations/ui/gradient/ParabolaGradientCarouselBox.kt:119-270 | The frame uses `palettes[curIdx]` for the current brush and `palettes[(curIdx + 1) % size]` for the next. Both brushes share one axis, and the first fill is the base fill. |
| Carousel.FrameWithin | app/src/main/kotlin/com/poroshin/gleb/animations/ui/gradient/ParabolaGradientCarouselBox.kt:220-270 | A frame's first fill is the current palette over the whole box. Every later fill uses the next palette inside the box. |
| Carousel.Drift | app/src/main/kotlin/com/poroshin/gleb/animations/ui/gradient/ParabolaGradientCarouselBox.kt:134-135 | A drift `s · r · k` with s in [-1, 1] stays within k · r of zero. |
| Carousel.DriftedAxis | app/src/main/kotlin/com/poroshin/gleb/animations/ui/gradient/ParabolaGradientCarouselBox.kt:134-149 | The drifted axis spans exactly the circle's box. With sine and cosine values in [-1, 1] it starts within 0.16 r across and 0.10 r down of the box corner. |
| Carousel.FrameAxis | app/src/main/kotlin/com/poroshin/gleb/animations/ui/gradient/ParabolaGradientCarouselBox.kt:130-149 | The axis both brushes of a frame share spans (2r, 2r). With `sin(2πu)` and `cos(2πu)` in [-1, 1] it starts within 0.16 r across and 0.10 r down of the box corner. |
| Carousel.SliceRevealedToBottom | app/src/main/kotlin/com/poroshin/gleb/animations/ui/gradient/ParabolaGradientCarouselBox.kt:210-239 | With the vertex below the circle and a ≥ 0, every slice is revealed down to the circle's bottom. |
| Carousel.FullRevealAtEnd | app/src/main/kotlin/com/poroshin/gleb/animations/ui/gradient/ParabolaGradientCarouselBox.kt:191-239 | On a circle more than half a pixel across (r > 0.25), with the final mask of a sweep (u = 1, by `ScheduleEnd`), every one of the 280 slices is revealed from the top to the bottom of the circle with the next palette. |
| Carousel.SweepSeam | app/src/main/kotlin/com/poroshin/gleb/animations/ui/gradient/ParabolaGradientCarouselBox.kt:121-149 | Given `sin`/`cos` equal at 0 and at `TwoPi`, the next brush at u = 1 equals the current brush at u = 0 after the index advance: same colours, same axis. |
| Carousel.DrawFeather | app/src/main/kotlin/com/poroshin/gleb/animations/ui/gradient/ParabolaGradientCarouselBox.kt:241-252 | The feather loop emits bands 1..9 in order. |
| Carousel.DrawGlow | app/src/main/kotlin/com/poroshin/gleb/animations/ui/gradient/ParabolaGradientCarouselBox.kt:257-269 | The glow loop emits bands 1..12 in order. |
| Carousel.DrawSlice | app/src/main/kotlin/com/poroshin/gleb/animations/ui/gradient/ParabolaGradientCarouselBox.kt:224-269 | One slice's body emits exactly the slice's fills: nothing (`continue`), or reveal, feather, glow. |
| Carousel.DrawReveal | app/src/main/kotlin/com/poroshin/gleb/animations/ui/gradient/ParabolaGradientCarouselBox.kt:223-270 | The slice loop emits the slices' fills left to right. |
| Carousel.PaintFrame | app/src/main/kotlin/com/poroshin/gleb/animations/ui/gradient/ParabolaGradientCarouselBox.kt:119-270 | `onDrawBehind` paints the specified frame: current palette over the whole circle, then only next-palette fills inside the box. |
| Carousel.CarouselState.constructor | app/src/main/kotlin/com/poroshin/gleb/animations/ui/gradient/ParabolaGradientCarouselBox.kt:52-55 | The state starts at palette 0 with sweep 0. |
| Carousel.CarouselState.Sweep | app/src/main/kotlin/com/poroshin/gleb/animations/ui/gradient/ParabolaGradientCarouselBox.kt:63-74 | One sweep ends with sweep = 1 and the index advanced by one. The palette revealed during the sweep becomes the current one. |
| Carousel.CarouselState.Run | app/src/main/kotlin/com/poroshin/gleb/animations/ui/gradient/ParabolaGradientCarouselBox.kt:61-75 | n iterations of the driver loop leave the index at `(old + n) % 6`, always in bounds. |
| Carousel.CarouselState.Paint | app/src/main/kotlin/com/poroshin/gleb/animations/ui/gradient/ParabolaGradientCarouselBox.kt:119-122 | The frame for the current state uses `palettes[curIdx]` and `palettes[(curIdx + 1) % size]`. |
| ParabolaWave.Sin01 | app/src/main/kotlin/com/poroshin/gleb/animations/ui/gradient/ParabolaWaveGradientBox.kt:77-80 | `sin01` maps a sine value into [0, 1], with -1 to 0 and 1 to 1. |
| ParabolaWave.VertexY | app/src/main/kotlin/com/poroshin/gleb/animations/ui/gradient/ParabolaWaveGradientBox.kt:93 | The vertex height lies in [0.18 h, 0.82 h]. |
| ParabolaWave.Cx | app/src/main/kotlin/com/poroshin/gleb/animations/ui/gradient/ParabolaWaveGradientBox.kt:96 | The parabola's axis stays in [0.44 w, 0.56 w]. |
| ParabolaWave.CentreBound | app/src/main/kotlin/com/poroshin/gleb/animations/ui/gradient/ParabolaWaveGradientBox.kt:96 | `w/2 + 0.06 w · s` lies in [0.44 w, 0.56 w] for s in [-1, 1]. |
| ParabolaWave.DomeCurvatures | app/src/main/kotlin/com/poroshin/gleb/animations/ui/gradient/ParabolaWaveGradientBox.kt:100-103 | On a non-empty surface, 0 < kWide < kNarrow and kNarrow = 4 · kWide. |
| ParabolaWave.DomeDrop | app/src/main/kotlin/com/poroshin/gleb/animations/ui/gradient/ParabolaWaveGradientBox.kt:100-103 | The curvature `4 · drop / w²` makes a parabola fall by exactly `drop` at distance w/2 from its axis, and is non-negative for a non-negative drop. |
| ParabolaWave.KWide | app/src/main/kotlin/com/poroshin/gleb/animations/ui/gradient/ParabolaWaveGradientBox.kt:100-103 | The flat dome falls exactly 0.18 h at half the width from its axis and is non-negative for h ≥ 0. |
| ParabolaWave.KNarrow | app/src/main/kotlin/com/poroshin/gleb/animations/ui/gradient/ParabolaWaveGradientBox.kt:100-103 | The steep dome falls exactly 0.72 h at half the width from its axis and is non-negative for h ≥ 0. |
| ParabolaWave.DomeOrder | app/src/main/kotlin/com/poroshin/gleb/animations/ui/gradient/ParabolaWaveGradientBox.kt:100-103 | 0 ≤ kWide ≤ kNarrow whenever w > 0 and h ≥ 0. |
| ParabolaWave.K | app/src/main/kotlin/com/poroshin/gleb/animations/ui/gradient/ParabolaWaveGradientBox.kt:106 | The current curvature lies between kWide and kNarrow. |
| ParabolaWave.GlobalDy | app/src/main/kotlin/com/poroshin/gleb/animations/ui/gradient/ParabolaWaveGradientBox.kt:118 | The global bob stays within 0.08 h either way. |
| ParabolaWave.BobBound | app/src/main/kotlin/com/poroshin/gleb/animations/ui/gradient/ParabolaWaveGradientBox.kt:118 | `(0.08 h)·s` lies in [-0.08 h, 0.08 h] for s in [-1, 1]. |
| ParabolaWave.Dx | app/src/main/kotlin/com/poroshin/gleb/animations/ui/gradient/ParabolaWaveGradientBox.kt:117 | For drift in [-1, 1], the horizontal drift stays within 0.18 w either way. |
| ParabolaWave.DriftBound | app/src/main/kotlin/com/poroshin/gleb/animations/ui/gradient/ParabolaWaveGradientBox.kt:117 | `drift·w·0.18` lies in [-0.18 w, 0.18 w] for drift in [-1, 1]. |
| ParabolaWave.FrameOf | app/src/main/kotlin/com/poroshin/gleb/animations/ui/gradient/ParabolaWaveGradientBox.kt:93-118 | The per-frame quantities all lie in the bounds above. |
| ParabolaWave.SlicesPartition | app/src/main/kotlin/com/poroshin/gleb/animations/ui/gradient/ParabolaWaveGradientBox.kt:71-72 | The 180 slices are contiguous and exactly cover [0, w]. |
| ParabolaWave.SliceInside | app/src/main/kotlin/com/poroshin/gleb/animations/ui/gradient/ParabolaWaveGradientBox.kt:126-127 | Slice i's column ends where slice i + 1 begins and lies in [0, w]. |
| ParabolaWave.ParabolaY | app/src/main/kotlin/com/poroshin/gleb/animations/ui/gradient/ParabolaWaveGradientBox.kt:131-132 | `parabolaY` equals vertexY on the axis. With k ≥ 0 it never exceeds vertexY, and with k > 0 it is strictly less off the axis: the vertex is the dome's lowest point on screen. |
| ParabolaWave.Interference | app/src/main/kotlin/com/poroshin/gleb/animations/ui/gradient/ParabolaWaveGradientBox.kt:109-110 | `a1·s1 + a2·s2` with a1 = 0.10 h and a2 = 0.05 h lies within 0.15 h of zero. |
| ParabolaWave.Wave | app/src/main/kotlin/com/poroshin/gleb/animations/ui/gradient/ParabolaWaveGradientBox.kt:135-137 | The two-sine wave stays within 0.15 h of zero. |
| ParabolaWave.SliceCommands | app/src/main/kotlin/com/poroshin/gleb/animations/ui/gradient/ParabolaWaveGradientBox.kt:125-153 | The slice loop emits exactly one command per slice. |
| ParabolaWave.ShiftY | app/src/main/kotlin/com/poroshin/gleb/animations/ui/gradient/ParabolaWaveGradientBox.kt:140 | On a frame with the bounds `FrameOf` guarantees, no band is centred more than 0.23 h below the vertex, nor lower than 1.05 h. |
| ParabolaWave.SliceCommand | app/src/main/kotlin/com/poroshin/gleb/animations/ui/gradient/ParabolaWaveGradientBox.kt:125-152 | Slice i uses the four colour stops and is clipped to its own column [x0, x1] × [0, h], which lies inside the surface for i in the loop's range. Its brush is vertical at the slice centre plus dx, exactly 1.35 h long and centred on `shiftY`. |
| ParabolaWave.Vignette | app/src/main/kotlin/com/poroshin/gleb/animations/ui/gradient/ParabolaWaveGradientBox.kt:83-87 | The vignette runs from transparent to white, is centred on the surface, and has radius 0.62 · min(w, h), positive on a non-empty surface. |
| ParabolaWave.WaveCommands | app/src/main/kotlin/com/poroshin/gleb/animations/ui/gradient/ParabolaWaveGradientBox.kt:124-156 | A frame is 181 commands: the j-th is slice j for j < 180, then the vignette. |
| ParabolaWave.SliceCommandsWithin | app/src/main/kotlin/com/poroshin/gleb/animations/ui/gradient/ParabolaWaveGradientBox.kt:125-153 | Every emitted slice lies inside the surface with a vertical brush of length 1.35 h. |
| ParabolaWave.FrameShape | app/src/main/kotlin/com/poroshin/gleb/animations/ui/gradient/ParabolaWaveGradientBox.kt:124-156 | A frame is 180 such slices followed by the vignette. |
| ParabolaWave.DrawWave | app/src/main/kotlin/com/poroshin/gleb/animations/ui/gradient/ParabolaWaveGradientBox.kt:89-157 | `onDrawBehind` emits the specified frame: the slice loop's commands, then the vignette, 181 commands in all. |
| ParabolaWave.DrawSlices | app/src/main/kotlin/com/poroshin/gleb/animations/ui/gradient/ParabolaWaveGradientBox.kt:121-153 | The slice loop emits exactly the specified slice commands, one per slice from left to right. |
| VerticalGradient.Brush | app/src/main/kotlin/com/poroshin/gleb/animations/ui/gradient/VerticalMovingLinearGradientBox.kt:56-63 | The axis is vertical at x = w/2, starts at dy, and is exactly h long. |
| VerticalGradient.Dy | app/src/main/kotlin/com/poroshin/gleb/animations/ui/gradient/VerticalMovingLinearGradientBox.kt:56 | dy is 0 at t = 0, and lies within 0.55 h either way for t in [-1, 1] and h ≥ 0. |
| VerticalGradient.DyAtKeyTimes | app/src/main/kotlin/com/poroshin/gleb/animations/ui/gradient/VerticalMovingLinearGradientBox.kt:56 | dy is -0.55 h at t = -1, 0 at t = 0, and 0.55 h at t = 1. |
| VerticalGradient.DyMonotone | app/src/main/kotlin/com/poroshin/gleb/animations/ui/gradient/VerticalMovingLinearGradientBox.kt:56 | For h ≥ 0, dy never decreases as t grows. |
| VerticalGradient.BrushAxisFixed | app/src/main/kotlin/com/poroshin/gleb/animations/ui/gradient/VerticalMovingLinearGradientBox.kt:59-63 | For every pair of times, the axes share x = w/2 and the same length h, the repeated tile period. |
| VerticalGradient.RestartShift | app/src/main/kotlin/com/poroshin/gleb/animations/ui/gradient/VerticalMovingLinearGradientBox.kt:55-56 | When t restarts, the pattern moves by 2·travel periods. |
| VerticalGradient.RestartJumps | app/src/main/kotlin/com/poroshin/gleb/animations/ui/gradient/VerticalMovingLinearGradientBox.kt:55-56 | As written, the restart moves the repeated pattern by 1.1 periods, not a whole number, so it jumps. |
| VerticalGradient.HalfTravelLoops | app/src/main/kotlin/com/poroshin/gleb/animations/ui/gradient/VerticalMovingLinearGradientBox.kt:55-56 | With a travel of 0.5, the axis moves exactly one height per cycle and the restart is seamless. |
| VerticalGradient.SeamlessTravels | app/src/main/kotlin/com/poroshin/gleb/animations/ui/gradient/VerticalMovingLinearGradientBox.kt:55-56 | For travels in [0, 1), the restart is seamless exactly when the travel is 0 or 0.5. |
| RotatingGradient.SymmetricAxis | app/src/main/kotlin/com/poroshin/gleb/animations/ui/gradient/RotatingLinearGradientBox.kt:52-53 | The endpoints' midpoint is the centre, and end − start = 2·halfDiag·(vx, vy). |
| RotatingGradient.Center | app/src/main/kotlin/com/poroshin/gleb/animations/ui/gradient/RotatingLinearGradientBox.kt:40-41 | The centre is as far from the right edge as from the left, and from the bottom as from the top. It lies inside a box of non-negative size. |
| RotatingGradient.HalfDiag | app/src/main/kotlin/com/poroshin/gleb/animations/ui/gradient/RotatingLinearGradientBox.kt:44 | halfDiag is non-negative when `hypot` is. If `hypot(w, h)² = w² + h²`, then halfDiag² = (w/2)² + (h/2)². |
| RotatingGradient.Direction | app/src/main/kotlin/com/poroshin/gleb/animations/ui/gradient/RotatingLinearGradientBox.kt:47-49 | A full turn of 360° maps to 2π radians. The direction has unit length wherever cos² + sin² = 1 at that angle. |
| RotatingGradient.Brush | app/src/main/kotlin/com/poroshin/gleb/animations/ui/gradient/RotatingLinearGradientBox.kt:40-53 | The brush axis is centred on (w/2, h/2) and end − start = 2·halfDiag·(cos rad, sin rad). |
| RotatingGradient.EndsAtDistance | app/src/main/kotlin/com/poroshin/gleb/animations/ui/gradient/RotatingLinearGradientBox.kt:52-53 | With a unit direction, both endpoints lie at distance halfDiag from the centre. |
| RotatingGradient.BrushEndsOnCircle | app/src/main/kotlin/com/poroshin/gleb/animations/ui/gradient/RotatingLinearGradientBox.kt:47-53 | Given cos² + sin² = 1 at the angle drawn, both ends of the brush axis are half a diagonal from the centre. |
| RotatingGradient.HalfDiagCoversSides | app/src/main/kotlin/com/poroshin/gleb/animations/ui/gradient/RotatingLinearGradientBox.kt:44 | Given hypot² = w² + h² and hypot ≥ 0, halfDiag ≥ w/2 and halfDiag ≥ h/2. |
| RotatingGradient.ProjectionWithinAxis | app/src/main/kotlin/com/poroshin/gleb/animations/ui/gradient/RotatingLinearGradientBox.kt:43-53 | For a unit direction and halfDiag² = (w/2)² + (h/2)², every point of the box projects onto the axis within halfDiag of the centre. |
| RotatingGradient.BrushCoversBox | app/src/main/kotlin/com/poroshin/gleb/animations/ui/gradient/RotatingLinearGradientBox.kt:43-53 | At every angle, every point of the box projects between the brush's endpoints: the gradient always covers the whole box, as the comment on `halfDiag` intends. |

## Left out

- The animation drivers are not modelled: `Animatable`, `tween`, `CubicBezierEasing`, `infiniteRepeatable`, `RepeatMode`, and the coroutine `while (isActive)` and its cancellation. The animated values `u`, `t`, `drift` and `deg` are parameters.
- Carousel.CarouselState.Sweep: models `snapTo(0)` then `animateTo(1)` as two assignments. The intermediate values of `sweep` during the animation are the `u` parameter of `RenderFrame`.
- Rendering is not modelled: the oval `clipPath`, alpha blending, `blur`, the colour interpolation inside `Brush.linearGradient`/`radialGradient`, and the pixel effect of `TileMode.Repeated`. A brush is a record of its colours, axis and tile mode. A fill is a record of its clip rectangle, brush layer and alpha. The carousel's base fill is clipped to the circle's bounding box rather than the circle itself.
- The carousel's vignette brush (ParabolaGradientCarouselBox.kt:113-117) is built but never drawn; it is not modelled.
- Float rounding (`toFloat()`, single-precision arithmetic) is not modelled: all arithmetic is on `real`. `TwoPi` and `Pi` are the decimal values of the Kotlin constants.
- `sin`, `cos` and `hypot` are parameters, not implementations. Periodicity is not proved.
- Carousel.SweepSeam: assumes that the drift samples at u = 0 and u = 1 are equal. The source's comment relies on this too (ParabolaGradientCarouselBox.kt:126-128), but it holds only up to the rounding of 2π. `TwoPi` is the float 6.2831855, where the real sine is about 1.7e-7 rather than 0, so periodicity alone would not discharge the precondition.
- Carousel.SweepSeam: states the seam for the brushes only. At u = 0 the edge slices are still drawn, because the boundary there is about 0.09 r deep. So the first frame of a sweep is not stated to equal the last frame of the previous one.
- Zero-sized surfaces are not modelled. The source divides by `w * w` (the wave curvatures) and by `halfWidth * halfWidth`, which gives NaN or infinity in Kotlin on an empty surface. The model requires w > 0 (and h > 0 where the circle must be non-degenerate).
- Carousel.FullRevealAtEnd: stated for the mask shape (2, pathLen, hwNarrow), which is `Schedule(1.0, r)` by Carousel.ScheduleEnd, rather than by calling `Schedule` inside the lemma.
- Screen composition and activity setup (`GradientAnimationsScreen.kt`, `MainActivity.kt`) are not part of this model.

## Findings

| source | as written | input that shows it | evidently intended | confidence | as-written member | corrected member |
|---|---|---|---|---|---|---|
| app/src/main/kotlin/com/poroshin/gleb/animations/ui/gradient/VerticalMovingLinearGradientBox.kt:55-63 | `dy = t * h * 0.55` with `t` restarting from 1 to -1. The axis moves 1.1 h over a cycle, while `TileMode.Repeated` repeats the colours every h. | any h > 0, at the restart from t = 1 to t = -1: the pattern jumps by 0.1 h | The comment at line 55 says the shift is chosen for seamless looping. That needs a whole number of periods per cycle: a travel of 0.5 h per unit of t. | medium, not executed | VerticalGradient.RestartJumps | VerticalGradient.HalfTravelLoops |

The rendered brush (`VerticalGradient.Brush`) keeps the 0.55 factor, because that
is what the app draws. The corrected travel is `VerticalGradient.SeamlessTravel`,
and `VerticalGradient.SeamlessTravels` shows that 0.5 is the only non-zero travel
below one period that loops seamlessly.
