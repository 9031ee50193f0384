/** The heads-up display shown in immersive mode: the planet switcher, the
    audio toggle and the volume slider. */
module ImmersiveHud {
  import opened Wrappers
  import opened ImmersiveContext

  /** The HUD's own state: which overlay is open. */
  datatype Hud = Hud(showPlanetSelector: bool, showSettings: bool)

  const HudStart: Hud := Hud(false, false)

  datatype Entry = Entry(id: Planet, name: string, color: string)

  const HudPlanets: seq<Entry> := [
    Entry(Grid, "Grid", "#00e5ff"),
    Entry(Sol, "Sol", "#ffb88c"),
    Entry(Flux, "Flux", "#ff2aad"),
    Entry(Terra, "Terra", "#22c55e"),
    Entry(Glacis, "Glacis", "#7dd3fc")
  ]

  /** The switcher offers every planet once. */
  lemma HudPlanetsCover(p: Planet)
    ensures |HudPlanets| == 5
    ensures forall k :: 0 <= k < |HudPlanets| ==> HudPlanets[k].id == AllPlanets[k]
    ensures exists k :: 0 <= k < |HudPlanets| && HudPlanets[k].id == p
  {
    AllPlanetsComplete(p);
    var k :| 0 <= k < |AllPlanets| && AllPlanets[k] == p;
    assert HudPlanets[k].id == p;
  }

  /** The volume values the slider offers: 0 to 0.8 in steps of 0.1. */
  const VolumeSteps: seq<real> := [0.0, 0.1, 0.2, 0.3, 0.4, 0.5, 0.6, 0.7, 0.8]

  lemma VolumeStepsRange()
    ensures |VolumeSteps| == 9
    ensures forall k :: 0 <= k < |VolumeSteps| ==> VolumeSteps[k] == k as real / 10.0
    ensures forall k :: 0 <= k < |VolumeSteps| ==> 0.0 <= VolumeSteps[k] <= 0.8
  {
  }

  /** What is on screen. */
  datatype View = View(selectorOpen: bool, settingsOpen: bool, highlighted: Option<Planet>, sliderEnabled: bool)

  /** The render gate: nothing outside immersive mode. The selected planet's
      button is highlighted and the slider is usable only with audio on. */
  function Render(c: Context, hud: Hud): (v: Option<View>)
    ensures v.None? <==> !c.state.isImmersive
    ensures v.Some? ==> v.value.highlighted == c.state.selectedPlanet
    ensures v.Some? ==> (v.value.sliderEnabled <==> c.state.settings.audioEnabled)
    ensures v.Some? ==> v.value.selectorOpen == hud.showPlanetSelector && v.value.settingsOpen == hud.showSettings
  {
    if !c.state.isImmersive then None
    else Some(View(hud.showPlanetSelector, hud.showSettings, c.state.selectedPlanet, c.state.settings.audioEnabled))
  }

  /** The result of a switcher click: the HUD state, and the planet a travel
      is started to, if any. */
  datatype Switch = Switch(hud: Hud, travelTo: Option<Planet>)

  /** `handlePlanetSwitch`: always close the switcher; start a travel only to a
      planet other than the selected one. */
  function HandlePlanetSwitch(hud: Hud, c: Context, planet: Planet): (r: Switch)
    ensures !r.hud.showPlanetSelector && r.hud.showSettings == hud.showSettings
    ensures r.travelTo.Some? <==> c.state.selectedPlanet != Some(planet)
    ensures r.travelTo.Some? ==> r.travelTo.value == planet
  {
    Switch(hud.(showPlanetSelector := false),
           if Some(planet) != c.state.selectedPlanet then Some(planet) else None)
  }

  /** The audio button flips the flag and changes nothing else. */
  function ToggleAudio(c: Context): (r: Context)
    ensures r.state.settings.audioEnabled == !c.state.settings.audioEnabled
    ensures r.state == c.state.(settings := r.state.settings)
    ensures r.state.settings == c.state.settings.(audioEnabled := r.state.settings.audioEnabled)
    ensures Valid(c) ==> Valid(r)
  {
    SetAudioEnabled(c, !c.state.settings.audioEnabled)
  }

  /** Pressing the audio button twice restores the state. */
  lemma ToggleAudioTwice(c: Context)
    ensures ToggleAudio(ToggleAudio(c)).state == c.state
  {
  }

  /** Moving the slider to its `k`-th stop: the volume follows when audio is
      on; a disabled slider cannot move, so nothing changes. */
  function MoveSlider(c: Context, k: nat): (r: Context)
    requires k < |VolumeSteps|
    ensures c.state.settings.audioEnabled ==> r.state.settings.audioVolume == k as real / 10.0
    ensures c.state.settings.audioEnabled ==> 0.0 <= r.state.settings.audioVolume <= 0.8
    ensures !c.state.settings.audioEnabled ==> r == c
    ensures r.state == c.state.(settings := c.state.settings.(audioVolume := r.state.settings.audioVolume))
    ensures Valid(c) ==> Valid(r)
  {
    VolumeStepsRange();
    if c.state.settings.audioEnabled then SetAudioVolume(c, VolumeSteps[k]) else c
  }
}
