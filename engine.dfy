/**
 * The grain engine, class `JustGrainy` of lib/justgrainy.js, without its DOM:
 * three background layers (a texture, a tile size and an opacity each), the
 * index of the visible alternating layer, the enabled flag, the handle of the
 * pending animation frame and the scheduler's `lastFrame`. Host primitives
 * become parameters: `now`/`clock` for `performance.now()` and the frame
 * timestamps, `noise` for the values `Math.random()` yields. A layer's texture
 * is the bitmap the canvas held when it was encoded; the encoding itself is not
 * modelled.
 */
module GrainEngine {

  import opened Wrappers
  import opened Config
  import opened Texture
  import Crossfade
  import Scheduler

  /** One background layer: its texture (none after a disable), its tile size and its opacity. */
  datatype Layer = Layer(texture: Option<seq<byte>>, tileSize: Option<real>, opacity: real)

  /** A crossfade in flight: the layer fading out, the layer fading in, and what was captured at its start. */
  datatype Transition = Transition(from: nat, to: nat, fade: Crossfade.Fade)

  /** The flat-colour tint layer; its blend mode is always multiply. */
  datatype Tint = Tint(color: string, opacity: real)

  /** What one render leaves: the layers, the visible alternating layer and the crossfade it started, if any. */
  datatype Frame = Frame(layers: seq<Layer>, index: nat, transition: Option<Transition>)

  const TintOpacity: real := 0.5
  /** The layer that flicker-free mode re-textures; layers 0 and 1 alternate. */
  const PersistentLayer: nat := 2

  function Pixels(c: Settings): nat
  {
    c.canvasSize * c.canvasSize
  }

  /** Random values consumed by one texture of the configured size. */
  function NoisePerTexture(c: Settings): nat
  {
    Draws(c.monochrome, Pixels(c))
  }

  /** `canvasSize * grainPixelScale`: the on-screen size of one tile of the texture. */
  function TileSize(c: Settings): real
  {
    c.canvasSize as real * c.grainPixelScale
  }

  /** The texture generated from `noise` at the configured size and mode. */
  function GrainOf(c: Settings, noise: seq<byte>): seq<byte>
    requires NoisePerTexture(c) <= |noise|
  {
    Grain(c.monochrome, noise, Pixels(c))
  }

  /** A layer showing `grain`, tiled at the configured size. */
  function Textured(l: Layer, grain: seq<byte>, c: Settings): Layer
  {
    l.(texture := Some(grain), tileSize := Some(TileSize(c)))
  }

  /** The opacity `setupLayers` gives layer `index`. */
  function InitialOpacity(c: Settings, index: nat): real
  {
    if c.flickerFree && index == PersistentLayer then c.maxOpacity * 0.5
    else if index == 0 then c.maxOpacity
    else 0.0
  }

  /** `(currentLayerIndex + 1) % 2`: the other alternating layer. */
  function NextLayerIndex(i: nat): (j: nat)
    ensures j < 2
    ensures i < 2 ==> j == 1 - i
  {
    (i + 1) % 2
  }

  /** Every layer's opacity lies in [0, 1]. */
  ghost predicate OpacitiesInUnit(ls: seq<Layer>)
  {
    forall i :: 0 <= i < |ls| ==> 0.0 <= ls[i].opacity <= 1.0
  }

  /** The persistent layer sits at half the ceiling in flicker-free mode and is hidden otherwise. */
  ghost predicate PersistentLayerHeld(c: Settings, ls: seq<Layer>)
  {
    |ls| == 3 && ls[PersistentLayer].opacity == (if c.flickerFree then c.maxOpacity * 0.5 else 0.0)
  }

  /**
   * With alternating layers and instant swaps, exactly one alternating layer is
   * shown, at the ceiling, and it is the one `currentLayerIndex` names.
   */
  ghost predicate InstantPairHeld(c: Settings, ls: seq<Layer>, index: nat)
  {
    |ls| == 3 && index < 2 &&
    (!c.flickerFree && !c.smoothTransition ==> ls[index].opacity == c.maxOpacity && ls[1 - index].opacity == 0.0)
  }

  /** All captured endpoints of a fade lie in [0, 1]. */
  ghost predicate FadeInUnit(f: Crossfade.Fade)
  {
    && 0.0 <= f.startFrom <= 1.0 && 0.0 <= f.targetFrom <= 1.0
    && 0.0 <= f.startTo <= 1.0 && 0.0 <= f.targetTo <= 1.0
  }

  /**
   * What `renderFrame` does to the layers once the new texture `grain` is on the
   * canvas (lib/justgrainy.js:155-185), at host time `clock`.
   */
  function Render(c: Settings, ls: seq<Layer>, index: nat, grain: seq<byte>, clock: real): (f: Frame)
    requires |ls| == 3 && index < 2
    ensures |f.layers| == 3 && f.index < 2
    // flicker-free: only the persistent layer is re-textured; no opacity and no index changes
    ensures c.flickerFree ==>
      && f.index == index && f.transition.None?
      && f.layers[0] == ls[0] && f.layers[1] == ls[1]
      && f.layers[2] == ls[2].(texture := Some(grain), tileSize := Some(TileSize(c)))
    // alternating: the new texture goes only to the other layer, the index flips, layer 2 is untouched
    ensures !c.flickerFree ==>
      && f.index == 1 - index
      && f.layers[2] == ls[2]
      && f.layers[f.index].texture == Some(grain) && f.layers[f.index].tileSize == Some(TileSize(c))
      && f.layers[index].texture == ls[index].texture && f.layers[index].tileSize == ls[index].tileSize
    // instant swap: outgoing hidden, incoming at the ceiling
    ensures !c.flickerFree && !c.smoothTransition ==>
      && f.transition.None?
      && f.layers[index].opacity == 0.0 && f.layers[f.index].opacity == c.maxOpacity
    // smooth swap: no opacity changes yet; a crossfade from the current opacities starts at `clock`
    ensures !c.flickerFree && c.smoothTransition ==>
      && (forall i :: 0 <= i < 3 ==> f.layers[i].opacity == ls[i].opacity)
      && f.transition == Some(Transition(index, f.index,
           Crossfade.Fade(clock, c.smoothTransitionDuration, ls[index].opacity, 0.0, ls[f.index].opacity, c.maxOpacity)))
    ensures 0.0 <= c.maxOpacity <= 1.0 && OpacitiesInUnit(ls) ==> OpacitiesInUnit(f.layers)
    ensures 0.0 <= c.maxOpacity <= 1.0 && OpacitiesInUnit(ls) && f.transition.Some? ==> FadeInUnit(f.transition.value.fade)
    ensures PersistentLayerHeld(c, ls) ==> PersistentLayerHeld(c, f.layers)
    ensures InstantPairHeld(c, ls, index) ==> InstantPairHeld(c, f.layers, f.index)
  {
    if c.flickerFree then
      Frame(ls[PersistentLayer := Textured(ls[PersistentLayer], grain, c)], index, None)
    else
      var next := NextLayerIndex(index);
      var textured := ls[next := Textured(ls[next], grain, c)];
      if c.smoothTransition then
        var fade := Crossfade.Fade(clock, c.smoothTransitionDuration, textured[index].opacity, 0.0,
                                   textured[next].opacity, c.maxOpacity);
        Frame(textured, next, Some(Transition(index, next, fade)))
      else
        var out := textured[index := textured[index].(opacity := 0.0)];
        Frame(out[next := out[next].(opacity := c.maxOpacity)], next, None)
  }

  class JustGrainy {
    /** `this.options`; only `maxOpacity` changes after construction. */
    var config: Settings
    /** `this.backgroundLayers`, as the values of their styles. */
    var layers: seq<Layer>
    var currentLayerIndex: nat
    var isEnabled: bool
    /** `this.animationFrameId` is set (truthy). */
    var frameHandle: bool
    /** A scheduler tick is requested from the host and not cancelled: the host will call it. */
    var tickQueued: bool
    /** The scheduler closure's `lastFrame`. */
    var lastFrame: real
    /** The bitmap on the reusable canvas: the last generated texture. */
    var canvas: seq<byte>
    var tintLayer: Option<Tint>
    /** The overlay is part of the page. */
    var overlayAttached: bool

    ghost predicate Valid()
      reads this
    {
      WellFormed(config) && |layers| == 3 && currentLayerIndex < 2
    }

    /** The layer invariants every operation keeps. */
    ghost predicate LayersConsistent()
      reads this
    {
      && OpacitiesInUnit(layers)
      && PersistentLayerHeld(config, layers)
      && InstantPairHeld(config, layers, currentLayerIndex)
    }

    /** A queued tick belongs to an enabled engine that holds its handle, so at most one loop runs. */
    ghost predicate SchedulerConsistent()
      reads this
    {
      tickQueued ==> isEnabled && frameHandle
    }

    /**
     * The constructor (lib/justgrainy.js:3-32): defaults the options, creates the
     * overlay and the layers, generates a texture for each of the three layers,
     * applies the tint and starts the scheduler when `animated`. It takes the
     * random values for the three initial textures and the clock reading of
     * `startAnimation`.
     */
    constructor(options: Options, noises: seq<seq<byte>>, now: real)
      requires |noises| == 3
      requires forall i :: 0 <= i < 3 ==> NoisePerTexture(Configure(options)) <= |noises[i]|
      ensures Valid() && config == Configure(options)
      ensures isEnabled && overlayAttached && currentLayerIndex == 0
      ensures forall i :: 0 <= i < 3 ==>
        layers[i] == Textured(Layer(None, None, InitialOpacity(config, i)), GrainOf(config, noises[i]), config)
      ensures canvas == GrainOf(config, noises[2])
      ensures tintLayer == Some(Tint(config.colorTint, TintOpacity))
      ensures frameHandle == config.animated && tickQueued == config.animated
      ensures config.animated ==> lastFrame == now
      ensures LayersConsistent() && SchedulerConsistent()
    {
      config := Configure(options);
      layers := [];
      currentLayerIndex := 0;
      isEnabled := true;
      frameHandle, tickQueued := false, false;
      lastFrame := 0.0;
      canvas := [];
      tintLayer := None;
      overlayAttached := true;
      new;
      SetupLayers();
      Init(noises, now);
    }

    /** `setupLayers` (lib/justgrainy.js:55-86): three untextured layers with their initial opacities. */
    method SetupLayers()
      requires WellFormed(config)
      modifies this`layers, this`currentLayerIndex
      ensures Valid()
      ensures forall i :: 0 <= i < 3 ==> layers[i] == Layer(None, None, InitialOpacity(config, i))
      ensures layers[0].opacity == config.maxOpacity && layers[1].opacity == 0.0
      ensures layers[2].opacity == (if config.flickerFree then config.maxOpacity * 0.5 else 0.0)
      ensures currentLayerIndex == 0
      ensures LayersConsistent()
    {
      var created: seq<Layer> := [];
      for index := 0 to 3
        invariant |created| == index
        invariant forall i :: 0 <= i < index ==> created[i] == Layer(None, None, InitialOpacity(config, i))
      {
        var opacity := if config.flickerFree && index == PersistentLayer then config.maxOpacity * 0.5
                       else if index == 0 then config.maxOpacity
                       else 0.0;
        created := created + [Layer(None, None, opacity)];
      }
      layers := created;
      currentLayerIndex := 0;
    }

    /** `init` (lib/justgrainy.js:88-106): textures for all layers, the tint, and the scheduler if `animated`. */
    method Init(noises: seq<seq<byte>>, now: real)
      requires Valid()
      requires |noises| == 3 && forall i :: 0 <= i < 3 ==> NoisePerTexture(config) <= |noises[i]|
      modifies this`layers, this`canvas, this`tintLayer, this`lastFrame, this`frameHandle, this`tickQueued
      ensures Valid()
      ensures forall i :: 0 <= i < 3 ==> layers[i] == Textured(old(layers[i]), GrainOf(config, noises[i]), config)
      ensures canvas == GrainOf(config, noises[2])
      ensures config.colorTint != "" ==> tintLayer == Some(Tint(config.colorTint, TintOpacity))
      ensures config.colorTint == "" ==> tintLayer == old(tintLayer)
      ensures config.animated ==> frameHandle && tickQueued && lastFrame == now
      ensures !config.animated ==>
        frameHandle == old(frameHandle) && tickQueued == old(tickQueued) && lastFrame == old(lastFrame)
    {
      SetupGrain(noises);
      if config.colorTint != "" {
        ApplyColorTint(config.colorTint);
      }
      if config.animated {
        StartAnimation(now);
      }
    }

    /**
     * `generateGrainTexture` with `putImageData` (lib/justgrainy.js:108-129): the
     * canvas now holds a fresh texture drawn from `noise`.
     */
    method GenerateGrainTexture(noise: seq<byte>)
      requires WellFormed(config) && NoisePerTexture(config) <= |noise|
      modifies this`canvas
      ensures canvas == GrainOf(config, noise)
      ensures |canvas| == 4 * Pixels(config)
    {
      var data := CreateGrainImage(config.canvasSize, config.canvasSize, config.monochrome, noise);
      canvas := data[..];
    }

    /** `startAnimation` (lib/justgrainy.js:131-153): records the start time and requests the first tick. */
    method StartAnimation(now: real)
      modifies this`lastFrame, this`frameHandle, this`tickQueued
      ensures lastFrame == now && frameHandle && tickQueued
    {
      lastFrame := now;
      frameHandle := true;
      tickQueued := true;
    }

    /**
     * One call of the scheduler's `animate` closure (lib/justgrainy.js:136-150)
     * at frame time `currentTime`; `noise` and `clock` feed the render it may do.
     * It behaves as `Scheduler.TickStep` says and renders as `Render` says.
     */
    method Animate(currentTime: real, noise: seq<byte>, clock: real) returns (transition: Option<Transition>)
      requires Valid() && tickQueued && NoisePerTexture(config) <= |noise|
      modifies this`canvas, this`layers, this`currentLayerIndex, this`frameHandle, this`tickQueued, this`lastFrame
      ensures Valid()
      ensures var step := Scheduler.TickStep(currentTime, old(lastFrame), Scheduler.FrameInterval(config.fps), isEnabled);
        && (step.Stop? ==> !frameHandle && !tickQueued && lastFrame == old(lastFrame))
        && (step.Next? ==> frameHandle && tickQueued && lastFrame == step.lastFrame)
        && (step.Stop? || !step.render ==>
              layers == old(layers) && currentLayerIndex == old(currentLayerIndex)
              && canvas == old(canvas) && transition.None?)
        && (step.Next? && step.render ==>
              canvas == GrainOf(config, noise)
              && Frame(layers, currentLayerIndex, transition) == Render(config, old(layers), old(currentLayerIndex), canvas, clock))
      ensures old(LayersConsistent()) ==> LayersConsistent()
      ensures SchedulerConsistent()
    {
      var frameInterval := Scheduler.FrameInterval(config.fps);
      transition := None;
      if !isEnabled {
        frameHandle := false;
        tickQueued := false;
        return;
      }
      var elapsed := currentTime - lastFrame;
      if elapsed > frameInterval {
        transition := RenderFrame(noise, clock);
        lastFrame := currentTime - Scheduler.JsRem(elapsed, frameInterval);
      }
      frameHandle := true;
      tickQueued := true;
    }

    /** `renderFrame` (lib/justgrainy.js:155-185) with the new texture drawn from `noise`. */
    method RenderFrame(noise: seq<byte>, clock: real) returns (transition: Option<Transition>)
      requires Valid() && NoisePerTexture(config) <= |noise|
      modifies this`canvas, this`layers, this`currentLayerIndex
      ensures Valid()
      ensures canvas == GrainOf(config, noise)
      ensures Frame(layers, currentLayerIndex, transition) == Render(config, old(layers), old(currentLayerIndex), canvas, clock)
    {
      GenerateGrainTexture(noise);
      var grainUrl := canvas;
      if config.flickerFree {
        layers := layers[PersistentLayer := Textured(layers[PersistentLayer], grainUrl, config)];
        transition := None;
      } else {
        var nextLayerIndex := NextLayerIndex(currentLayerIndex);
        layers := layers[nextLayerIndex := Textured(layers[nextLayerIndex], grainUrl, config)];
        if config.smoothTransition {
          var started := TransitionOpacity(currentLayerIndex, nextLayerIndex, clock);
          transition := Some(started);
        } else {
          layers := layers[currentLayerIndex := layers[currentLayerIndex].(opacity := 0.0)];
          layers := layers[nextLayerIndex := layers[nextLayerIndex].(opacity := config.maxOpacity)];
          transition := None;
        }
        currentLayerIndex := nextLayerIndex;
      }
    }

    /**
     * `transitionOpacity` (lib/justgrainy.js:187-214) up to its first frame
     * request: captures the current opacities of both layers, the targets 0 and
     * the current ceiling, the duration and the start time.
     */
    method TransitionOpacity(from: nat, to: nat, startTime: real) returns (transition: Transition)
      requires Valid() && from < 3 && to < 3
      ensures transition.from == from && transition.to == to
      ensures transition.fade == Crossfade.Fade(startTime, config.smoothTransitionDuration,
                                                layers[from].opacity, 0.0, layers[to].opacity, config.maxOpacity)
      ensures transition.fade.duration != 0.0
      ensures Crossfade.FromOpacity(transition.fade, startTime) == layers[from].opacity
      ensures Crossfade.ToOpacity(transition.fade, startTime) == layers[to].opacity
      ensures OpacitiesInUnit(layers) ==> FadeInUnit(transition.fade)
    {
      var duration := config.smoothTransitionDuration;
      var startOpacityFrom := layers[from].opacity;
      var startOpacityTo := layers[to].opacity;
      var fade := Crossfade.Fade(startTime, duration, startOpacityFrom, 0.0, startOpacityTo, config.maxOpacity);
      Crossfade.FadeStartsAtCapturedValues(fade);
      transition := Transition(from, to, fade);
    }

    /**
     * One call of the crossfade's `animate` closure (lib/justgrainy.js:197-211) at
     * frame time `now`: writes both interpolated opacities and reports whether it
     * requests another step. It does not look at `isEnabled`.
     */
    method StepTransition(transition: Transition, now: real) returns (again: bool)
      requires Valid() && transition.from < 3 && transition.to < 3 && transition.fade.duration != 0.0
      modifies this`layers
      ensures Valid()
      ensures layers == old(layers)
        [transition.from := old(layers)[transition.from].(opacity := Crossfade.FromOpacity(transition.fade, now))]
        [transition.to := old(layers)[transition.to].(opacity := Crossfade.ToOpacity(transition.fade, now))]
      ensures again == Crossfade.Continues(transition.fade, now)
      ensures transition.from < 2 && transition.to < 2 ==> layers[PersistentLayer] == old(layers[PersistentLayer])
      ensures (old(OpacitiesInUnit(layers)) && FadeInUnit(transition.fade)
               && transition.fade.duration > 0.0 && now >= transition.fade.startTime) ==> OpacitiesInUnit(layers)
      // a step of a fade that `Render` started keeps all layer invariants
      ensures (old(LayersConsistent()) && config.smoothTransition && transition.from < 2 && transition.to < 2
               && FadeInUnit(transition.fade) && transition.fade.duration > 0.0
               && now >= transition.fade.startTime) ==> LayersConsistent()
    {
      var f := transition.fade;
      var elapsed := now - f.startTime;
      var t := Crossfade.Progress(elapsed, f.duration);
      var newOpacityFrom := Crossfade.Lerp(f.startFrom, f.targetFrom, t);
      var newOpacityTo := Crossfade.Lerp(f.startTo, f.targetTo, t);
      if FadeInUnit(f) && f.duration > 0.0 && now >= f.startTime {
        Crossfade.FadeStaysBetween(f, now);
      }
      layers := layers[transition.from := layers[transition.from].(opacity := newOpacityFrom)];
      layers := layers[transition.to := layers[transition.to].(opacity := newOpacityTo)];
      again := t < 1.0;
    }

    /** `applyColorTint` (lib/justgrainy.js:216-237): an empty colour is ignored; otherwise the old tint is replaced. */
    method ApplyColorTint(color: string)
      modifies this`tintLayer
      ensures color == "" ==> tintLayer == old(tintLayer)
      ensures color != "" ==> tintLayer == Some(Tint(color, TintOpacity))
    {
      if color == "" {
        return;
      }
      tintLayer := Some(Tint(color, TintOpacity));
    }

    /** `setupGrain` (lib/justgrainy.js:239-254): a fresh texture for each of the three layers, in order. */
    method SetupGrain(noises: seq<seq<byte>>)
      requires Valid()
      requires |noises| == 3 && forall i :: 0 <= i < 3 ==> NoisePerTexture(config) <= |noises[i]|
      modifies this`layers, this`canvas
      ensures Valid()
      ensures forall i :: 0 <= i < 3 ==> layers[i] == Textured(old(layers[i]), GrainOf(config, noises[i]), config)
      ensures canvas == GrainOf(config, noises[2])
    {
      for index := 0 to 3
        invariant |layers| == 3
        invariant forall i :: 0 <= i < index ==> layers[i] == Textured(old(layers[i]), GrainOf(config, noises[i]), config)
        invariant forall i :: index <= i < 3 ==> layers[i] == old(layers[i])
        invariant index > 0 ==> canvas == GrainOf(config, noises[index - 1])
      {
        GenerateGrainTexture(noises[index]);
        var grainUrl := canvas;
        layers := layers[index := Textured(layers[index], grainUrl, config)];
      }
    }

    /**
     * `setMaxOpacity` (lib/justgrainy.js:256-265): stores the clamped ceiling and
     * re-applies it to the persistent layer (flicker-free) or to the visible
     * alternating layer; the other layers keep their opacities.
     */
    method SetMaxOpacity(opacity: real)
      requires Valid()
      modifies this`config, this`layers
      ensures Valid()
      ensures config == old(config).(maxOpacity := Clamp01(opacity))
      ensures config.flickerFree ==>
        layers == old(layers)[PersistentLayer := old(layers)[PersistentLayer].(opacity := config.maxOpacity * 0.5)]
      ensures !config.flickerFree ==>
        layers == old(layers)[currentLayerIndex := old(layers)[currentLayerIndex].(opacity := config.maxOpacity)]
      ensures old(LayersConsistent()) ==> LayersConsistent()
    {
      config := config.(maxOpacity := Clamp01(opacity));
      if config.flickerFree {
        layers := layers[PersistentLayer := layers[PersistentLayer].(opacity := config.maxOpacity * 0.5)];
      } else {
        layers := layers[currentLayerIndex := layers[currentLayerIndex].(opacity := config.maxOpacity)];
      }
    }

    /**
     * `toggle` (lib/justgrainy.js:267-286). Enabling re-textures all three layers
     * from `noises` and restarts the scheduler at `now` when `animated`.
     * Disabling cancels the pending tick and removes every layer's texture,
     * leaving the opacities as they are.
     */
    method Toggle(noises: seq<seq<byte>>, now: real)
      requires Valid()
      requires |noises| == 3 && forall i :: 0 <= i < 3 ==> NoisePerTexture(config) <= |noises[i]|
      modifies this`isEnabled, this`layers, this`canvas, this`lastFrame, this`frameHandle, this`tickQueued
      ensures Valid()
      ensures isEnabled == !old(isEnabled)
      ensures isEnabled ==>
        && (forall i :: 0 <= i < 3 ==> layers[i] == Textured(old(layers[i]), GrainOf(config, noises[i]), config))
        && canvas == GrainOf(config, noises[2])
      ensures isEnabled && config.animated ==> frameHandle && tickQueued && lastFrame == now
      ensures isEnabled && !config.animated ==>
        frameHandle == old(frameHandle) && tickQueued == old(tickQueued) && lastFrame == old(lastFrame)
      ensures !isEnabled ==>
        && (forall i :: 0 <= i < 3 ==> layers[i] == old(layers[i]).(texture := None))
        && !frameHandle && tickQueued == (old(tickQueued) && !old(frameHandle))
        && canvas == old(canvas) && lastFrame == old(lastFrame)
      ensures old(LayersConsistent()) ==> LayersConsistent()
      ensures old(SchedulerConsistent()) ==> SchedulerConsistent()
    {
      isEnabled := !isEnabled;
      if isEnabled {
        SetupGrain(noises);
        if config.animated {
          StartAnimation(now);
        }
      } else {
        if frameHandle {
          tickQueued := false;
          frameHandle := false;
        }
        for index := 0 to 3
          modifies this`layers
          invariant |layers| == 3
          invariant forall i :: 0 <= i < index ==> layers[i] == old(layers[i]).(texture := None)
          invariant forall i :: index <= i < 3 ==> layers[i] == old(layers[i])
        {
          layers := layers[index := layers[index].(texture := None)];
        }
      }
    }

    /**
     * `destroy` (lib/justgrainy.js:288-297): detaches the overlay, disables the
     * engine and cancels the pending tick. The handle itself is not cleared.
     */
    method Destroy()
      modifies this`overlayAttached, this`isEnabled, this`tickQueued
      ensures !overlayAttached && !isEnabled
      ensures tickQueued == (old(tickQueued) && !frameHandle)
      ensures old(SchedulerConsistent()) ==> !tickQueued && SchedulerConsistent()
    {
      if overlayAttached {
        overlayAttached := false;
      }
      isEnabled := false;
      if frameHandle {
        tickQueued := false;
      }
    }
  }
}
