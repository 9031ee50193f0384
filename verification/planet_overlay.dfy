/** The per-planet decoration layered behind immersive pages. */
module PlanetOverlay {
  import opened Wrappers
  import opened ImmersiveContext

  /** The overlay of each planet; the two animated ones record whether their
      background drifts. */
  datatype Overlay =
    | Starfield(drifting: bool)
    | SolGlow
    | FluxPattern(reverseDrifting: bool)
    | TerraMist
    | GlacisFrost

  /** The CSS animation an overlay's patterned layer runs. */
  function Animation(o: Overlay): string {
    match o
    case Starfield(d) => if d then "drift 30s linear infinite" else "none"
    case FluxPattern(d) => if d then "drift 20s linear infinite reverse" else "none"
    case _ => "none"
  }

  /** The render gate and the per-planet choice: nothing unless immersive
      with a planet selected; the grid starfield drifts, and the flux pattern
      drifts in reverse, exactly at the high effects level. */
  function OverlayFor(s: State): (o: Option<Overlay>)
    ensures o.None? <==> !(s.isImmersive && s.selectedPlanet.Some?)
    ensures o.Some? ==> match s.selectedPlanet.value
              case Grid => o.value.Starfield?
              case Sol => o.value == SolGlow
              case Flux => o.value.FluxPattern?
              case Terra => o.value == TerraMist
              case Glacis => o.value == GlacisFrost
    ensures o.Some? && o.value.Starfield? ==> (o.value.drifting <==> s.settings.effectsLevel == High)
    ensures o.Some? && o.value.FluxPattern? ==> (o.value.reverseDrifting <==> s.settings.effectsLevel == High)
  {
    if !s.isImmersive || s.selectedPlanet.None? then None
    else
      var high := s.settings.effectsLevel == High;
      match s.selectedPlanet.value
      case Grid => Some(Starfield(high))
      case Sol => Some(SolGlow)
      case Flux => Some(FluxPattern(high))
      case Terra => Some(TerraMist)
      case Glacis => Some(GlacisFrost)
  }

  /** Only the grid and flux overlays depend on the effects level. */
  lemma EffectsLevelMattersOnlyForGridAndFlux(s: State, level: EffectsLevel)
    ensures s.selectedPlanet != Some(Grid) && s.selectedPlanet != Some(Flux) ==>
              OverlayFor(s.(settings := s.settings.(effectsLevel := level))) == OverlayFor(s)
    ensures s.isImmersive && (s.selectedPlanet == Some(Grid) || s.selectedPlanet == Some(Flux)) ==>
              (OverlayFor(s.(settings := s.settings.(effectsLevel := level))) == OverlayFor(s)
               <==> level == s.settings.effectsLevel)
  {
  }

  /** The drifting layers animate exactly at the high level. */
  lemma AnimationFollowsEffectsLevel(s: State)
    requires s.isImmersive && (s.selectedPlanet == Some(Grid) || s.selectedPlanet == Some(Flux))
    ensures Animation(OverlayFor(s).value) != "none" <==> s.settings.effectsLevel == High
  {
  }
}
