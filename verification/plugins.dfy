/** Plugin registration: the registry handed to each plugin
    (src/deckhand/plugins/registry.py) and the `register` functions of the
    built-in plugin (src/deckhand/plugins/builtin.py) and of the example
    lights plugin (examples/example_plugin.py). Each registered handler is
    bound to the registry's state store; its events go to the registry's
    bus, which is that store's bus. */
module Plugins {
  import opened Base
  import opened Events
  import opened State
  import opened Manager
  import opened Catalogs
  import opened Actions
  import opened Signals
  import BuiltinPlugin
  import LightsPlugin

  /** `PluginRegistry`: what a plugin's `register` receives. */
  datatype PluginRegistry = PluginRegistry(
    actions: ActionRegistry,
    signals: SignalRegistry,
    state: StateStore,
    events: EventBus,
    orchestrator: Orchestrator)
  {
    /** The service's wiring: the orchestrator's store and bus, the action
        registry that drives that orchestrator, and a store that emits on
        the registry's bus. */
    predicate Wired()
    {
      && state == orchestrator.store
      && events == orchestrator.bus
      && actions.orchestrator == orchestrator
      && state.bus == events
    }
  }

  /** The built-in plugin's `register`: the `ui.open_url` action and the
      `camera.motion` signal, nothing else. */
  method RegisterBuiltin(p: PluginRegistry)
    requires p.Wired() && p.actions.Valid() && p.signals.Valid()
    modifies p.actions, p.signals
    ensures p.actions.Valid() && p.signals.Valid()
    ensures p.actions.View() ==
            Registered(old(p.actions.View()), "ui.open_url", OpenUrl(p.state),
                       BuiltinPlugin.OpenUrlDescription, Some(BuiltinPlugin.OpenUrlSchema))
    ensures p.signals.View() ==
            Registered(old(p.signals.View()), "camera.motion", CameraMotion(p.state),
                       BuiltinPlugin.CameraMotionDescription, Some(BuiltinPlugin.CameraMotionSchema))
  {
    p.actions.Register("ui.open_url", OpenUrl(p.state),
                       BuiltinPlugin.OpenUrlDescription, Some(BuiltinPlugin.OpenUrlSchema));
    p.signals.Register("camera.motion", CameraMotion(p.state),
                       BuiltinPlugin.CameraMotionDescription, Some(BuiltinPlugin.CameraMotionSchema));
  }

  /** The lights plugin's `register`: three actions and one signal. */
  method RegisterLights(p: PluginRegistry)
    requires p.Wired() && p.actions.Valid() && p.signals.Valid()
    modifies p.actions, p.signals
    ensures p.actions.Valid() && p.signals.Valid()
    ensures p.actions.View() ==
            var a1 := Registered(old(p.actions.View()), "lights.turn_on", TurnOnLights(p.state),
                                 LightsPlugin.TurnOnDescription, Some(LightsPlugin.TurnOnSchema));
            var a2 := Registered(a1, "lights.turn_off", TurnOffLights(p.state),
                                 LightsPlugin.TurnOffDescription, Some(LightsPlugin.TurnOffSchema));
            Registered(a2, "lights.set_brightness", SetBrightness(p.state),
                       LightsPlugin.SetBrightnessDescription, Some(LightsPlugin.SetBrightnessSchema))
    ensures p.signals.View() ==
            Registered(old(p.signals.View()), "lights.status_webhook", LightsStatusWebhook(p.state),
                       LightsPlugin.WebhookDescription, Some(LightsPlugin.WebhookSchema))
  {
    p.actions.Register("lights.turn_on", TurnOnLights(p.state),
                       LightsPlugin.TurnOnDescription, Some(LightsPlugin.TurnOnSchema));
    p.actions.Register("lights.turn_off", TurnOffLights(p.state),
                       LightsPlugin.TurnOffDescription, Some(LightsPlugin.TurnOffSchema));
    p.actions.Register("lights.set_brightness", SetBrightness(p.state),
                       LightsPlugin.SetBrightnessDescription, Some(LightsPlugin.SetBrightnessSchema));
    p.signals.Register("lights.status_webhook", LightsStatusWebhook(p.state),
                       LightsPlugin.WebhookDescription, Some(LightsPlugin.WebhookSchema));
  }
}
