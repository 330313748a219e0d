# JustGrainy grain engine, modelled in Dafny

This project models the film-grain engine of JustGrainy, the class `JustGrainy` in
`lib/justgrainy.js`, with the DOM taken out. The engine keeps three background layers.
Each layer has a texture, a tile size and an opacity. Layers 0 and 1 alternate. Layer 2
is the persistent layer used in flicker-free mode. On every scheduled tick the engine
generates a random RGBA noise texture and puts it on a layer. Then it swaps opacities
instantly, or it starts a crossfade, or (flicker-free) it only re-textures the persistent
layer. A drift-corrected scheduler decides when a tick renders.

The model has these modules:

- `Config` (config.dfy): the options, their defaults and the `[0, 1]` clamp of the opacity ceiling.
- `Texture` (texture.dfy): the noise generator. It fills a fresh byte array in place, 4 bytes per pixel.
- `Scheduler` (scheduler.dfy): one tick of the scheduler as a step function. JavaScript's `%` is written out as a truncated remainder over reals.
- `Crossfade` (crossfade.dfy): the clamped progress `t` and the linear interpolation of the two opacities.
- `GrainEngine` (engine.dfy): the class `JustGrainy`. Its methods update the fields in place. The pure function `Render` specifies what `renderFrame` does to the layers.
- `Scenarios` (scenarios.dfy): clients that run several operations in a row.
- `Wrappers` (wrappers.dfy): `Option`.
- `Arith` (arith.dfy): sign facts about products and quotients of reals.

Host inputs become parameters:

- `performance.now()` and the frame timestamps are `now`, `clock` and `currentTime`.
- The values `Math.random() * 255` gives are a sequence `noise` of bytes, one sequence per generated texture.
- `requestAnimationFrame` and `cancelAnimationFrame` become two flags. `frameHandle` says `animationFrameId` is set. `tickQueued` says the host will call the scheduler's callback.
- A crossfade in flight is a `Transition` value. `RenderFrame` returns it and `StepTransition` runs one of its frames.

Timestamps, opacities, `fps` and durations are reals.

## Model

| member | source | states |
|---|---|---|
| `Config.Clamp01` | lib/justgrainy.js:258 | The stored ceiling is always in [0, 1]. A value already in range is kept, a negative one becomes 0 and one above 1 becomes 1. |
| `Config.Clamp01Idempotent` | lib/justgrainy.js:258 | Clamping a clamped value changes nothing, so re-applying a stored ceiling keeps it. |
| `Config.Configure` | lib/justgrainy.js:11-26 | Each field follows its JavaScript defaulting. A number or string option that is missing, 0 or empty takes its default (`\|\|`): fps 2, duration 400, canvas size 128, pixel scale 1, blend mode `screen`, the default tint colour; any other value is kept, a negative fps or duration included. A given flag is kept (`!== undefined`); missing `animated` and `smoothTransition` are on, the others off. A given ceiling becomes its clamp into [0, 1] and a missing one is 1. So the settings are well formed: canvas size > 0, fps ≠ 0, duration ≠ 0, ceiling in [0, 1], and tint and blend mode are non-empty. |
| `Config.NoOptionsGiveDefaults` | lib/justgrainy.js:11-26 | An engine built with no options gets exactly the default settings. |
| `Crossfade.Progress` | lib/justgrainy.js:199-200 | `t` never exceeds 1. With a positive duration it is at least 0 once elapsed ≥ 0, and `t < 1` holds exactly while elapsed < duration. `t` is 0 at elapsed 0. |
| `Crossfade.Lerp` | lib/justgrainy.js:202-203 | The interpolated opacity is the start at t = 0 and the target at t = 1. For t in [0, 1] it lies between start and target. |
| `Crossfade.LerpMonotone` | lib/justgrainy.js:202-203 | As `t` grows, the interpolated value moves monotonically from its start towards its target, in either direction. |
| `Crossfade.ProgressMonotone` | lib/justgrainy.js:199-200 | `t` never decreases as elapsed time grows (positive duration). |
| `Crossfade.FadeStartsAtCapturedValues` | lib/justgrainy.js:192-206 | At the start time both layers get exactly the captured start opacities, and a fade with a positive duration asks for another step. |
| `Crossfade.FadeEndsAtTargets` | lib/justgrainy.js:194-209 | Once the duration has elapsed, `t` is 1, the outgoing opacity is its target 0, the incoming opacity is the ceiling captured at the start, and no step follows. |
| `Crossfade.FadeContinuesIff` | lib/justgrainy.js:208-210 | A step asks for the next step if and only if less than the duration has elapsed. |
| `Crossfade.FadeMonotone` | lib/justgrainy.js:197-206 | Between two steps of a fade with a positive duration, each of the two opacities moves monotonically towards its target. |
| `Crossfade.FadeStaysBetween` | lib/justgrainy.js:197-206 | From the start on, each opacity of a fade with a positive duration stays between its captured start and its target. |
| `Crossfade.NegativeDurationNeverEnds` | lib/justgrainy.js:197-209 | With a negative duration, which the defaulting keeps, `t` is negative at every frame after the start, every step asks for another one, and each opacity moves away from its target past its start. |
| `Crossfade.NegativeDurationExample` | lib/justgrainy.js:197-209 | A fade from 1 to 0 and from 0 to 1 with duration -400 stands at 1.25 and -0.25 after 100 ms and goes on. |
| `Scheduler.JsRem` | lib/justgrainy.js:146 | The JavaScript remainder of a non-negative dividend lies in [0, \|divisor\|). |
| `Scheduler.FrameInterval` | lib/justgrainy.js:134 | `1000 / fps` times fps is 1000. It is non-zero, and positive for a positive fps. |
| `Scheduler.TickStep` | lib/justgrainy.js:136-150 | A disabled engine stops the loop without rendering. Otherwise the loop goes on, and it renders if and only if more than one interval has elapsed. After a render (positive interval) 0 ≤ now − lastFrame < interval and lastFrame has moved forward but not past now. Without a render lastFrame is unchanged. |
| `Scheduler.TickStaysOnGrid` | lib/justgrainy.js:143-147 | A render moves lastFrame forward by a whole number of intervals, at least one, so over many ticks the renders stay on the grid of the first timestamp and lag never builds up. |
| `Scheduler.NegativeIntervalRendersEveryTick` | lib/justgrainy.js:134-147 | With a negative fps, which the constructor accepts, every enabled tick whose clock has not gone backwards renders, and the new lastFrame lies in (now + interval, now]. |
| `Scheduler.DriftExample` | lib/justgrainy.js:143-147 | At 2 fps the interval is 500 ms. Callbacks 510 ms and then 505 ms apart both render, with lastFrame going 0, 500, 1000. A later tick 400 ms after 1000 does not render. |
| `Texture.Grain` | lib/justgrainy.js:110-126 | A texture for n pixels has 4·n bytes. |
| `Texture.GrainAt` | lib/justgrainy.js:114-125 | Bytes 4p to 4p+3 of the texture are exactly pixel p as the loop writes it, so no index is skipped. |
| `Texture.GrainOpaque` | lib/justgrainy.js:117 | Every pixel's alpha is 255. |
| `Texture.GrainMonochromeGray` | lib/justgrainy.js:113-118 | In monochrome mode R = G = B for every pixel, and all three equal the pixel's one random value. |
| `Texture.GrainColorChannels` | lib/justgrainy.js:119-125 | In colour mode R, G and B of pixel p are the random values 3p, 3p+1 and 3p+2, so each channel gets its own value. |
| `Texture.CreateGrainImage` | lib/justgrainy.js:108-127 | It returns a fresh buffer whose contents are the texture drawn from the random values in order, whichever mode was chosen. |
| `Texture.FillMonochrome` | lib/justgrainy.js:114-118 | The monochrome loop, stepping by 4, leaves the whole buffer equal to the monochrome texture. |
| `Texture.FillColor` | lib/justgrainy.js:120-125 | The colour loop, stepping by 4, leaves the whole buffer equal to the colour texture. |
| `GrainEngine.NextLayerIndex` | lib/justgrainy.js:169 | The next index is in {0, 1} and, from 0 or 1, is the other one. |
| `GrainEngine.Render` | lib/justgrainy.js:155-185 | Flicker-free: only layer 2 gets the new texture; no opacity or index changes and no crossfade starts. Otherwise: only layer (index+1)%2 gets the new texture, layer 2 is untouched and the index flips within {0, 1}. An instant swap sets the outgoing opacity to 0 and the incoming one to the ceiling. A smooth swap changes no opacity and starts a crossfade from the current opacities to 0 and the ceiling. Opacities stay in [0, 1] and the persistent-layer and one-visible-layer invariants are kept. |
| `GrainEngine.JustGrainy.constructor` | lib/justgrainy.js:3-32 | The engine starts enabled with its configuration defaulted. Each of the three layers has its initial opacity and a fresh texture. The tint is applied (always, since the tint option has a default). The scheduler is running exactly when `animated`. All invariants hold. |
| `GrainEngine.JustGrainy.SetupLayers` | lib/justgrainy.js:55-86 | Layer 0 is at the ceiling and layer 1 at 0. Layer 2 is at half the ceiling in flicker-free mode and at 0 otherwise. No layer has a texture yet, and `currentLayerIndex` is 0. |
| `GrainEngine.JustGrainy.Init` | lib/justgrainy.js:88-106 | All three layers are re-textured in order. A non-empty tint colour is applied. The scheduler is started at `now` exactly when `animated`. |
| `GrainEngine.JustGrainy.GenerateGrainTexture` | lib/justgrainy.js:108-129 | The canvas holds the texture generated from the given random values, 4·size² bytes. |
| `GrainEngine.JustGrainy.StartAnimation` | lib/justgrainy.js:131-153 | lastFrame is the start time and a tick is requested and held. |
| `GrainEngine.JustGrainy.Animate` | lib/justgrainy.js:136-150 | The tick does what `TickStep` says. Disabled: the handle is cleared, nothing is rescheduled and nothing is rendered. Enabled: it reschedules, and it renders as `Render` says exactly when more than an interval has elapsed. Otherwise layers, index, canvas and lastFrame are unchanged. Layer and scheduler invariants are kept. |
| `GrainEngine.JustGrainy.RenderFrame` | lib/justgrainy.js:155-185 | It generates a texture onto the canvas. The new layers, index and started crossfade are those of `Render`. |
| `GrainEngine.JustGrainy.TransitionOpacity` | lib/justgrainy.js:187-214 | The fade captures the two layers' current opacities, the targets 0 and the current ceiling, the configured duration and the start time. At the start time it reproduces the captured opacities, and its endpoints lie in [0, 1] when the opacities did. |
| `GrainEngine.JustGrainy.StepTransition` | lib/justgrainy.js:197-211 | Only the two faded layers change: the outgoing one gets the interpolated outgoing opacity and the incoming one the interpolated incoming opacity. Another step is requested iff t < 1. Layer 2 is untouched. Opacities stay in [0, 1] for a fade with endpoints in range, a positive duration and a frame time from the start on. For such a fade between layers 0 and 1 with smooth transitions on, all layer invariants are kept. |
| `GrainEngine.JustGrainy.ApplyColorTint` | lib/justgrainy.js:216-237 | An empty colour changes nothing. Otherwise the old tint is replaced by exactly one tint of that colour at opacity 0.5. |
| `GrainEngine.JustGrainy.SetupGrain` | lib/justgrainy.js:239-254 | Every one of the three layers gets a fresh texture from its own random values and the configured tile size. Opacities are untouched. |
| `GrainEngine.JustGrainy.SetMaxOpacity` | lib/justgrainy.js:256-265 | The ceiling becomes the clamped value and nothing else in the configuration changes. In flicker-free mode layer 2 becomes half the new ceiling; otherwise the visible alternating layer becomes the new ceiling. No other layer changes, and the layer invariants are kept. |
| `GrainEngine.JustGrainy.Toggle` | lib/justgrainy.js:267-286 | `isEnabled` flips. Enabling re-textures all three layers and restarts the scheduler iff `animated`, otherwise leaving it as it was. Disabling cancels a held tick, clears the handle and sets every layer's texture to none, with opacities, canvas and lastFrame unchanged. Layer and scheduler invariants are kept. |
| `GrainEngine.JustGrainy.Destroy` | lib/justgrainy.js:288-297 | The overlay is detached and the engine is disabled. A held tick is cancelled, so from a consistent state no tick is left to fire. |
| `Scenarios.FirstFrameCrossfade` | lib/justgrainy.js:136-211 | At fps 2 with a 400 ms smooth transition, a tick at 400 ms does not render and a tick at 510 ms does. 400 ms later the outgoing layer is at 0, the incoming one at the ceiling 1 and no further step is asked for. The index has flipped once, to 1. |
| `Scenarios.FinishCrossfade` | lib/justgrainy.js:197-211 | A step taken once the duration has elapsed puts both faded layers at their targets and stops. |
| `Scenarios.ToggleRoundTrip` | lib/justgrainy.js:267-286 | Disable then enable leaves the engine enabled with the same configuration. Every layer shows a texture generated at the re-enable, the opacities are as before, and the scheduler is restarted when `animated`. |
| `Scenarios.FlickerFreeCeiling` | lib/justgrainy.js:256-265 | In flicker-free mode, lowering the ceiling from 1 to 0.2 puts layer 2 at 0.1 but leaves layer 0 at 1. |

## What the code does at its edges

The model follows the code in each of these cases.

- Tint. `colorTint` defaults to `'rgb(0, 139, 231)'` (lib/justgrainy.js:22), and `||` also replaces an empty string, so `init` always applies a tint (lib/justgrainy.js:98-100).
- fps. `options.fps || 2` turns 0 into 2 and keeps a negative value (lib/justgrainy.js:17). A negative value gives a negative interval, and then every tick renders (`Scheduler.NegativeIntervalRendersEveryTick`).
- Crossfade duration. `options.smoothTransitionDuration || 400` turns 0 into 400 and keeps a negative value (lib/justgrainy.js:19). With a negative duration `t = Math.min(elapsed / duration, 1)` is negative after the start, so `t < 1` always holds and the crossfade never stops; the opacities move away from their targets and leave [0, 1] (`Crossfade.NegativeDurationNeverEnds`, `Crossfade.NegativeDurationExample`). The [0, 1] bounds, the monotonicity and the end of a crossfade are proved for a positive duration only.
- Opacity bounds. No opacity write is clamped. The model proves that every opacity stays in [0, 1] for a positive duration, not that it stays at or below the current ceiling. In flicker-free mode layer 0 stays at the ceiling it had when `setupLayers` ran, and `setMaxOpacity` does not touch it, so it can sit above a lowered ceiling (`Scenarios.FlickerFreeCeiling`).
- Flicker-free layers. In flicker-free mode layer 0 is shown at the ceiling, with its initial texture, under the persistent layer (lib/justgrainy.js:74-80).
- Destroy. `destroy` cancels the pending frame but leaves `animationFrameId` set (lib/justgrainy.js:294-296). The model keeps `frameHandle` set.
- Progress is clamped only from above. A frame timestamp earlier than the start reading gives t < 0, and the lerp then overshoots its start. The bounds and monotonicity of the crossfade are stated for frame times from the start on.

## Left out

- DOM construction and styling are not modelled. This covers `setupOverlay` (the lookup-or-create of `.grain-overlay`, its styles, the overlay blend mode), layer styles other than texture, tile size and opacity (position, `transition`, `imageRendering`, `backgroundRepeat`), and `appendChild`/`removeChild`. The overlay is a flag `overlayAttached`.
- `canvas.toDataURL` is not modelled. A layer's texture is the bitmap the canvas held. `createImageData`/`putImageData` are a fresh array copied onto the canvas. Assigning the canvas width and height in `init` is not modelled.
- `Math.random` is not modelled. It becomes input sequences of bytes. The rounding of `Math.random() * 255` into a `Uint8ClampedArray` is not modelled.
- `requestAnimationFrame` and `cancelAnimationFrame` are not modelled, and neither are the opaque frame ids. They become the flags `frameHandle` and `tickQueued`.
- Interleaving of the scheduler loop with in-flight crossfades is not modelled, and neither are overlapping crossfades. Each step is its own method. `StepTransition` does not check `isEnabled`, as in the code, so a crossfade keeps running after a disable.
- Floating point is not modelled. Reals are exact, so rounding in `1000 / fps`, in `%` and in the lerp is ignored. Number-to-string conversions of opacities are taken as exact.
- Options are typed. JavaScript falsiness of other values (`null`, `NaN`, non-numbers) is not covered, and a negative `canvasSize` cannot be expressed (`nat`). `performanceMode` is stored and has no effect, as in the code.
- The tint's CSS colour string and blend mode are not modelled beyond being recorded.
- The module export boilerplate (lib/justgrainy.js:300-307) is not modelled.
- cursor.js is not part of this model. It is a separate pointer indicator and shares no state with the engine.
- Scheduler.TickStep: the lag bound and the forward movement of lastFrame after a render are stated for a positive interval only. A negative interval is covered only by `NegativeIntervalRendersEveryTick`.
