/**
 * The engine's configuration: the options a caller may pass, the defaults the
 * constructor of `JustGrainy` fills in (lib/justgrainy.js:11-26) and the clamp
 * that keeps the opacity ceiling in [0, 1].
 */
module Config {

  import opened Wrappers

  /** What a caller passes; every option may be left out. */
  datatype Options = Options(
    blendMode: Option<string>,
    canvasSize: Option<nat>,
    grainPixelScale: Option<real>,
    monochrome: Option<bool>,
    animated: Option<bool>,
    fps: Option<real>,
    smoothTransition: Option<bool>,
    smoothTransitionDuration: Option<real>,
    flickerFree: Option<bool>,
    performanceMode: Option<bool>,
    colorTint: Option<string>,
    maxOpacity: Option<real>)

  /** The options after defaulting: what the engine reads as `this.options`. */
  datatype Settings = Settings(
    blendMode: string,
    canvasSize: nat,
    grainPixelScale: real,
    monochrome: bool,
    animated: bool,
    fps: real,
    smoothTransition: bool,
    smoothTransitionDuration: real,
    flickerFree: bool,
    performanceMode: bool,
    colorTint: string,
    maxOpacity: real)

  const DefaultBlendMode: string := "screen"
  const DefaultCanvasSize: nat := 128
  const DefaultGrainPixelScale: real := 1.0
  const DefaultFps: real := 2.0
  const DefaultSmoothTransitionDuration: real := 400.0
  const DefaultColorTint: string := "rgb(0, 139, 231)"

  function Min(x: real, y: real): real { if x <= y then x else y }

  function Max(x: real, y: real): real { if x >= y then x else y }

  /** `Math.max(0, Math.min(1, v))`, used at construction and by setMaxOpacity. */
  function Clamp01(v: real): (r: real)
    ensures 0.0 <= r <= 1.0
    ensures 0.0 <= v <= 1.0 ==> r == v
    ensures v < 0.0 ==> r == 0.0
    ensures v > 1.0 ==> r == 1.0
  {
    Max(0.0, Min(1.0, v))
  }

  /** JavaScript's `x || d` on a number: a missing option and 0 both take the default. */
  function NumberOr(x: Option<real>, d: real): real
  {
    if x.Some? && x.value != 0.0 then x.value else d
  }

  /** `x || d` on a size. */
  function SizeOr(x: Option<nat>, d: nat): nat
  {
    if x.Some? && x.value != 0 then x.value else d
  }

  /** `x || d` on a string: a missing option and the empty string both take the default. */
  function StringOr(x: Option<string>, d: string): string
  {
    if x.Some? && x.value != "" then x.value else d
  }

  /** `x !== undefined ? x : d` on a flag. */
  function FlagOr(x: Option<bool>, d: bool): bool
  {
    if x.Some? then x.value else d
  }

  /** The facts about the settings the rest of the engine relies on. */
  ghost predicate WellFormed(s: Settings)
  {
    && s.canvasSize > 0
    && s.fps != 0.0
    && s.smoothTransitionDuration != 0.0
    && 0.0 <= s.maxOpacity <= 1.0
  }

  /** The constructor's defaulting of `options` (lib/justgrainy.js:11-26). */
  function Configure(o: Options): (s: Settings)
    ensures WellFormed(s)
    ensures s.colorTint != "" && s.blendMode != ""
    // a number option is kept unless it is missing or 0, which take the default
    ensures s.fps == (if o.fps.None? || o.fps.value == 0.0 then DefaultFps else o.fps.value)
    ensures s.smoothTransitionDuration ==
      (if o.smoothTransitionDuration.None? || o.smoothTransitionDuration.value == 0.0
       then DefaultSmoothTransitionDuration else o.smoothTransitionDuration.value)
    ensures s.grainPixelScale ==
      (if o.grainPixelScale.None? || o.grainPixelScale.value == 0.0
       then DefaultGrainPixelScale else o.grainPixelScale.value)
    ensures s.canvasSize == (if o.canvasSize.None? || o.canvasSize.value == 0 then DefaultCanvasSize else o.canvasSize.value)
    // a string option is kept unless it is missing or empty
    ensures s.colorTint == (if o.colorTint.None? || o.colorTint.value == "" then DefaultColorTint else o.colorTint.value)
    ensures s.blendMode == (if o.blendMode.None? || o.blendMode.value == "" then DefaultBlendMode else o.blendMode.value)
    // a given ceiling is clamped into [0, 1]; a missing one is 1
    ensures o.maxOpacity.None? ==> s.maxOpacity == 1.0
    ensures o.maxOpacity.Some? ==> s.maxOpacity == Clamp01(o.maxOpacity.value)
    ensures o.maxOpacity.Some? && 0.0 <= o.maxOpacity.value <= 1.0 ==> s.maxOpacity == o.maxOpacity.value
    // a given flag is kept; missing `animated` and `smoothTransition` are on, the others off
    ensures s.animated == (o.animated.None? || o.animated.value)
    ensures s.smoothTransition == (o.smoothTransition.None? || o.smoothTransition.value)
    ensures s.flickerFree == (o.flickerFree.Some? && o.flickerFree.value)
    ensures s.monochrome == (o.monochrome.Some? && o.monochrome.value)
    ensures s.performanceMode == (o.performanceMode.Some? && o.performanceMode.value)
  {
    Settings(
      StringOr(o.blendMode, DefaultBlendMode),
      SizeOr(o.canvasSize, DefaultCanvasSize),
      NumberOr(o.grainPixelScale, DefaultGrainPixelScale),
      FlagOr(o.monochrome, false),
      FlagOr(o.animated, true),
      NumberOr(o.fps, DefaultFps),
      FlagOr(o.smoothTransition, true),
      NumberOr(o.smoothTransitionDuration, DefaultSmoothTransitionDuration),
      FlagOr(o.flickerFree, false),
      FlagOr(o.performanceMode, false),
      StringOr(o.colorTint, DefaultColorTint),
      if o.maxOpacity.Some? then Clamp01(o.maxOpacity.value) else 1.0)
  }

  /** An engine built without options gets exactly the documented defaults. */
  lemma NoOptionsGiveDefaults()
    ensures Configure(Options(None, None, None, None, None, None, None, None, None, None, None, None))
      == Settings(DefaultBlendMode, DefaultCanvasSize, DefaultGrainPixelScale, false, true, DefaultFps,
                  true, DefaultSmoothTransitionDuration, false, false, DefaultColorTint, 1.0)
  {
  }

  /** Clamping twice is clamping once: a ceiling already in range is stored as it is. */
  lemma Clamp01Idempotent(v: real)
    ensures Clamp01(Clamp01(v)) == Clamp01(v)
  {
  }
}
