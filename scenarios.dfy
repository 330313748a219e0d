/**
 * Clients of the engine that run its operations in sequence and prove what a
 * caller observes: a first frame and its crossfade, a disable/enable round
 * trip, and the opacities after lowering the ceiling in flicker-free mode.
 */
module Scenarios {

  import opened Wrappers
  import opened Config
  import opened Texture
  import opened GrainEngine
  import Crossfade

  /** Random values one default-sized (128 x 128) colour texture consumes. */
  const DefaultNoise: nat := 3 * 128 * 128

  /**
   * At 2 frames per second with a 400 ms crossfade and alternating layers: a
   * tick 400 ms after the start renders nothing, a tick at 510 ms renders and
   * starts a crossfade, and 400 ms after that the outgoing layer is hidden, the
   * incoming one sits at the ceiling, no further step is requested and the
   * visible layer index has flipped exactly once.
   */
  method FirstFrameCrossfade(size: nat, noises: seq<seq<byte>>, noise: seq<byte>)
    returns (index: nat, outgoing: real, incoming: real, again: bool)
    requires size > 0
    requires |noises| == 3 && forall i :: 0 <= i < 3 ==> Draws(false, size * size) <= |noises[i]|
    requires Draws(false, size * size) <= |noise|
    ensures index == 1 && outgoing == 0.0 && incoming == 1.0 && !again
  {
    var options := Options(None, Some(size), None, None, None, Some(2.0), Some(true), Some(400.0), Some(false),
                           None, None, None);
    var settings := Settings(DefaultBlendMode, size, DefaultGrainPixelScale, false, true, 2.0,
                             true, 400.0, false, false, DefaultColorTint, 1.0);
    assert Configure(options) == settings;
    var engine := new JustGrainy(options, noises, 0.0);
    assert Scheduler.FrameInterval(2.0) == 500.0;
    assert Scheduler.TickStep(400.0, 0.0, 500.0, true) == Scheduler.Next(false, 0.0);
    var early := engine.Animate(400.0, noise, 400.0);
    assert engine.currentLayerIndex == 0 && engine.lastFrame == 0.0 && engine.config == settings;
    assert (510.0 / 500.0).Floor == 1;
    assert Scheduler.TickStep(510.0, 0.0, 500.0, true) == Scheduler.Next(true, 500.0);
    ghost var before := engine.layers;
    assert before[0].opacity == 1.0 && before[1].opacity == 0.0;
    var started := engine.Animate(510.0, noise, 510.0);
    assert started.Some? && engine.currentLayerIndex == 1;
    var transition := started.value;
    assert transition == Transition(0, 1, Crossfade.Fade(510.0, 400.0, 1.0, 0.0, 0.0, 1.0));
    index := engine.currentLayerIndex;
    outgoing, incoming, again := FinishCrossfade(engine, transition, 910.0);
  }

  /** A crossfade step once the duration has elapsed puts both layers at their targets and stops. */
  method FinishCrossfade(engine: JustGrainy, transition: Transition, now: real)
    returns (outgoing: real, incoming: real, again: bool)
    requires engine.Valid() && transition.from < 3 && transition.to < 3 && transition.from != transition.to
    requires transition.fade.duration > 0.0 && now - transition.fade.startTime >= transition.fade.duration
    modifies engine`layers
    ensures engine.Valid()
    ensures outgoing == transition.fade.targetFrom && incoming == transition.fade.targetTo && !again
    ensures engine.layers[transition.from].opacity == outgoing && engine.layers[transition.to].opacity == incoming
  {
    Crossfade.FadeEndsAtTargets(transition.fade, now);
    again := engine.StepTransition(transition, now);
    outgoing := engine.layers[transition.from].opacity;
    incoming := engine.layers[transition.to].opacity;
  }

  /**
   * Disabling and enabling again leaves the engine enabled, every layer showing
   * a texture generated for the enable, the opacities as they were, and the
   * scheduler restarted when `animated`.
   */
  method ToggleRoundTrip(engine: JustGrainy, first: seq<seq<byte>>, second: seq<seq<byte>>, now: real)
    requires engine.Valid() && engine.isEnabled && engine.SchedulerConsistent()
    requires |first| == 3 && forall i :: 0 <= i < 3 ==> NoisePerTexture(engine.config) <= |first[i]|
    requires |second| == 3 && forall i :: 0 <= i < 3 ==> NoisePerTexture(engine.config) <= |second[i]|
    modifies engine
    ensures engine.Valid() && engine.isEnabled && engine.SchedulerConsistent()
    ensures engine.config == old(engine.config)
    ensures forall i :: 0 <= i < 3 ==>
      && engine.layers[i].texture == Some(GrainOf(engine.config, second[i]))
      && engine.layers[i].opacity == old(engine.layers[i].opacity)
    ensures engine.config.animated ==> engine.tickQueued && engine.lastFrame == now
  {
    engine.Toggle(first, now);
    assert !engine.isEnabled && !engine.tickQueued;
    engine.Toggle(second, now);
  }

  /**
   * In flicker-free mode, lowering the ceiling from 1 to 0.2 moves the persistent
   * layer to 0.1 but leaves layer 0, which `setupLayers` showed at the old
   * ceiling, at 1.
   */
  method FlickerFreeCeiling(noises: seq<seq<byte>>) returns (first: real, persistent: real, ceiling: real)
    requires |noises| == 3 && forall i :: 0 <= i < 3 ==> DefaultNoise <= |noises[i]|
    ensures ceiling == 0.2 && persistent == 0.1 && first == 1.0
  {
    var options := Options(None, None, None, None, Some(false), None, None, None, Some(true),
                           None, None, None);
    assert NoisePerTexture(Configure(options)) == DefaultNoise;
    var engine := new JustGrainy(options, noises, 0.0);
    engine.SetMaxOpacity(0.2);
    first := engine.layers[0].opacity;
    persistent := engine.layers[PersistentLayer].opacity;
    ceiling := engine.config.maxOpacity;
  }
}
