/** The immersive-mode store: its five state fields, the settings persisted
    under `endgame-immersive`, the markers it writes on the document root, and
    the timed travel sequence (depart, traverse, arrive, idle). */
module ImmersiveContext {
  import opened Wrappers

  datatype Planet = Grid | Sol | Flux | Terra | Glacis

  /** Every planet, in the order the pages list them. */
  const AllPlanets: seq<Planet> := [Grid, Sol, Flux, Terra, Glacis]

  function PlanetName(p: Planet): string {
    match p
    case Grid => "grid"
    case Sol => "sol"
    case Flux => "flux"
    case Terra => "terra"
    case Glacis => "glacis"
  }

  lemma AllPlanetsComplete(p: Planet)
    ensures p in AllPlanets
  {
  }

  datatype EffectsLevel = Low | High

  /** The three fields that are persisted. */
  datatype Settings = Settings(effectsLevel: EffectsLevel, audioEnabled: bool, audioVolume: real)

  /** The initial values of the three persisted fields. */
  const DefaultSettings: Settings := Settings(High, false, 0.3)

  /** What the settings key holds: nothing (or the empty string), text that
      does not parse, or a parsed record whose fields may each be missing. */
  datatype StoredSettings =
    | Absent
    | Malformed
    | Record(effects: Option<EffectsLevel>, audio: Option<bool>, volume: Option<real>)

  /** The settings record exactly as the save effect writes it. */
  function SaveSettings(s: Settings): (stored: StoredSettings)
    ensures stored.Record? && stored.effects.Some? && stored.audio.Some? && stored.volume.Some?
  {
    Record(Some(s.effectsLevel), Some(s.audioEnabled), Some(s.audioVolume))
  }

  /** The mount-time load. Each field falls back with `||`, so any falsy
      stored value is replaced: a missing level gives `high`, a missing or
      false audio flag gives `false`, and a missing or zero volume gives 0.3.
      A missing key or a parse failure keeps all three defaults. */
  function LoadSettings(stored: StoredSettings): (s: Settings)
    ensures !stored.Record? ==> s == DefaultSettings
    ensures stored.Record? && stored.effects.Some? ==> s.effectsLevel == stored.effects.value
    ensures stored.Record? && stored.effects.None? ==> s.effectsLevel == High
    ensures stored.Record? ==> (s.audioEnabled <==> stored.audio == Some(true))
    ensures stored.Record? && stored.volume.Some? && stored.volume.value != 0.0 ==> s.audioVolume == stored.volume.value
    ensures stored.Record? && (stored.volume.None? || stored.volume == Some(0.0)) ==> s.audioVolume == 0.3
    ensures s.audioVolume != 0.0
  {
    match stored
    case Record(effects, audio, volume) =>
      Settings(
        if effects.Some? then effects.value else High,
        audio == Some(true),
        if volume.Some? && volume.value != 0.0 then volume.value else 0.3)
    case _ => DefaultSettings
  }

  /** Saving and reloading gives the settings back exactly when the volume is
      not zero; a saved volume of zero comes back as 0.3. */
  lemma SettingsRoundTrip(s: Settings)
    ensures LoadSettings(SaveSettings(s)) == s <==> s.audioVolume != 0.0
    ensures s.audioVolume == 0.0 ==> LoadSettings(SaveSettings(s)) == s.(audioVolume := 0.3)
  {
  }

  /** The shared state every consumer reads. */
  datatype State = State(isImmersive: bool, selectedPlanet: Option<Planet>, settings: Settings)

  /** The transient classes the travel sequence puts on the document root. */
  datatype PhaseClass = Depart | Traverse | Arrive

  /** The document-root markers: `data-immersive`, `data-planet` and the
      travel classes. */
  datatype Dom = Dom(dataImmersive: Option<string>, dataPlanet: Option<string>, classes: set<PhaseClass>)

  const BlankDom: Dom := Dom(None, None, {})

  /** A travel request, with the audio settings as they stood when the travel
      began: the timer callbacks read the values captured at that moment. */
  datatype Request = Request(target: Planet, cueEnabled: bool, cueVolume: real)

  /** Where a travel stands. Departing, traversing and arriving each wait for
      one timer. A travel is stalled when the traverse step threw before it
      armed its timer: nothing more happens and the travel never resolves. */
  datatype Phase =
    | Idle
    | Departing(req: Request)
    | Traversing(req: Request)
    | Arriving(req: Request)
    | Stalled(req: Request)

  /** The phases that wait on a timer. */
  predicate Armed(p: Phase) {
    p.Departing? || p.Traversing? || p.Arriving?
  }

  /** The externally visible effects of a travel step, in emission order. */
  datatype Event =
    | ClassAdded(added: PhaseClass)
    | ClassesRemoved(removed: set<PhaseClass>)
    | Cue(volume: real)
    | PlanetCommitted(planet: Planet)
    | Resolved

  /** The provider: state, document markers, persisted record, travel phase. */
  datatype Context = Context(state: State, dom: Dom, stored: StoredSettings, phase: Phase)

  /** One step of the provider: its new value and what it emitted. */
  datatype Step = Step(context: Context, events: seq<Event>)

  /** The travel classes present in each phase. */
  function ClassesOf(p: Phase): set<PhaseClass> {
    match p
    case Idle => {}
    case Departing(_) => {Depart}
    case Traversing(_) => {Depart, Traverse}
    case Arriving(_) => {Arrive}
    case Stalled(_) => {Depart, Traverse}
  }

  /** The delay, in milliseconds, each phase is held before the next step;
      no timer runs in the idle and stalled phases. */
  function Delay(p: Phase): nat {
    match p
    case Idle => 0
    case Stalled(_) => 0
    case Departing(_) => 300
    case Traversing(_) => 1200
    case Arriving(_) => 1000
  }

  /** The mode effect: immersive mode sets `data-immersive` and, when a planet
      is selected, `data-planet`; leaving it removes both. With no planet
      selected an existing `data-planet` is left as it was. */
  function ApplyMode(dom: Dom, s: State): (d: Dom)
    ensures d.classes == dom.classes
    ensures !s.isImmersive ==> d.dataImmersive.None? && d.dataPlanet.None?
    ensures s.isImmersive ==> d.dataImmersive == Some("on")
    ensures s.isImmersive && s.selectedPlanet.Some? ==> d.dataPlanet == Some(PlanetName(s.selectedPlanet.value))
    ensures s.isImmersive && s.selectedPlanet.None? ==> d.dataPlanet == dom.dataPlanet
  {
    if s.isImmersive then
      dom.(dataImmersive := Some("on"),
           dataPlanet := if s.selectedPlanet.Some? then Some(PlanetName(s.selectedPlanet.value)) else dom.dataPlanet)
    else
      dom.(dataImmersive := None, dataPlanet := None)
  }

  /** Running the mode effect again changes nothing. */
  lemma ApplyModeIdempotent(dom: Dom, s: State)
    ensures ApplyMode(ApplyMode(dom, s), s) == ApplyMode(dom, s)
  {
  }

  /** The markers agree with the state. */
  predicate ModeMarked(c: Context) {
    && (!c.state.isImmersive ==> c.dom.dataImmersive.None? && c.dom.dataPlanet.None?)
    && (c.state.isImmersive ==> c.dom.dataImmersive == Some("on"))
    && (c.state.isImmersive && c.state.selectedPlanet.Some? ==>
          c.dom.dataPlanet == Some(PlanetName(c.state.selectedPlanet.value)))
  }

  /** The persisted record is the current settings, and nothing else. */
  predicate Persisted(c: Context) {
    c.stored == SaveSettings(c.state.settings)
  }

  /** The provider invariant: effects have caught up with the state, and the
      travel classes are those of the current phase. */
  predicate Valid(c: Context) {
    Persisted(c) && ModeMarked(c) && c.dom.classes == ClassesOf(c.phase)
  }

  /** A change of mode or planet: the mode effect runs; the settings, and so
      the persisted record, stay as they were. */
  function Reshow(c: Context, isImmersive: bool, planet: Option<Planet>): (r: Context)
    ensures r.state == c.state.(isImmersive := isImmersive, selectedPlanet := planet)
    ensures r.stored == c.stored && r.phase == c.phase && r.dom.classes == c.dom.classes
    ensures ModeMarked(r)
    ensures Valid(c) ==> Valid(r)
  {
    var s := c.state.(isImmersive := isImmersive, selectedPlanet := planet);
    c.(state := s, dom := ApplyMode(c.dom, s))
  }

  /** A change of the persisted settings: the save effect writes them; the
      mode effect does not depend on them. */
  function Resettle(c: Context, settings: Settings): (r: Context)
    ensures r.state == c.state.(settings := settings)
    ensures r.stored == SaveSettings(settings) && r.phase == c.phase && r.dom == c.dom
    ensures Valid(c) ==> Valid(r)
  {
    c.(state := c.state.(settings := settings), stored := SaveSettings(settings))
  }

  /** Mounting over whatever storage holds: not immersive, no planet, the
      loaded settings, then both effects. */
  function Mount(stored: StoredSettings): (c: Context)
    ensures Valid(c) && c.phase.Idle?
    ensures !c.state.isImmersive && c.state.selectedPlanet.None?
    ensures c.state.settings == LoadSettings(stored)
  {
    var s := State(false, None, LoadSettings(stored));
    Context(s, ApplyMode(BlankDom, s), SaveSettings(s.settings), Idle)
  }

  /** `setImmersive`: leaving immersive mode also clears the planet; entering
      it keeps whatever planet is selected. */
  function SetImmersive(c: Context, enabled: bool): (r: Context)
    ensures r.state.isImmersive == enabled
    ensures !enabled ==> r.state.selectedPlanet.None?
    ensures enabled ==> r.state.selectedPlanet == c.state.selectedPlanet
    ensures r.state.settings == c.state.settings && r.stored == c.stored && r.phase == c.phase
    ensures Valid(c) ==> Valid(r)
  {
    Reshow(c, enabled, if enabled then c.state.selectedPlanet else None)
  }

  /** `setPlanet`: the planet changes and nothing else does, not even the mode. */
  function SetPlanet(c: Context, p: Option<Planet>): (r: Context)
    ensures r.state == c.state.(selectedPlanet := p) && r.phase == c.phase
    ensures Valid(c) ==> Valid(r)
  {
    Reshow(c, c.state.isImmersive, p)
  }

  function SetEffectsLevel(c: Context, level: EffectsLevel): (r: Context)
    ensures r.state == c.state.(settings := c.state.settings.(effectsLevel := level))
    ensures r.stored == SaveSettings(r.state.settings) && r.phase == c.phase
    ensures Valid(c) ==> Valid(r)
  {
    Resettle(c, c.state.settings.(effectsLevel := level))
  }

  function SetAudioEnabled(c: Context, enabled: bool): (r: Context)
    ensures r.state == c.state.(settings := c.state.settings.(audioEnabled := enabled))
    ensures r.stored == SaveSettings(r.state.settings) && r.phase == c.phase
    ensures Valid(c) ==> Valid(r)
  {
    Resettle(c, c.state.settings.(audioEnabled := enabled))
  }

  /** `setAudioVolume` takes any number; the store does not clamp it. */
  function SetAudioVolume(c: Context, volume: real): (r: Context)
    ensures r.state == c.state.(settings := c.state.settings.(audioVolume := volume))
    ensures r.stored == SaveSettings(r.state.settings) && r.phase == c.phase
    ensures Valid(c) ==> Valid(r)
  {
    Resettle(c, c.state.settings.(audioVolume := volume))
  }

  /** `exitImmersive`: an instant exit that clears the mode and the planet. */
  function ExitImmersive(c: Context): (r: Context)
    ensures !r.state.isImmersive && r.state.selectedPlanet.None?
    ensures r.state.settings == c.state.settings && r.phase == c.phase
    ensures r.dom.dataImmersive.None? && r.dom.dataPlanet.None?
    ensures Valid(c) ==> Valid(r)
  {
    Reshow(c, false, None)
  }

  /** The two ways out of immersive mode end in the same provider value. */
  lemma ExitAgreesWithSetImmersive(c: Context)
    ensures ExitImmersive(c) == SetImmersive(c, false)
  {
  }

  /** `beginTravel`, first step: add `depart` and start the first timer. The
      audio settings are captured now. Overlapping travels are not modelled,
      so a travel starts from the idle phase. */
  function BeginTravel(c: Context, target: Planet): (r: Step)
    requires c.phase.Idle?
    ensures r.context.state == c.state && r.context.stored == c.stored
    ensures r.context.phase == Departing(Request(target, c.state.settings.audioEnabled, c.state.settings.audioVolume))
    ensures r.context.dom == c.dom.(classes := c.dom.classes + {Depart})
    ensures r.events == [ClassAdded(Depart)]
    ensures Valid(c) ==> Valid(r.context)
  {
    var req := Request(target, c.state.settings.audioEnabled, c.state.settings.audioVolume);
    Step(c.(dom := c.dom.(classes := c.dom.classes + {Depart}), phase := Departing(req)), [ClassAdded(Depart)])
  }

  /** The volumes a media element accepts: the HTML Living Standard's
      `volume` setter throws an `IndexSizeError` for any value outside
      [0, 1]. */
  predicate VolumeAccepted(v: real) {
    0.0 <= v <= 1.0
  }

  /** The traverse step throws: audio was on when the travel began, and the
      captured volume is one the media element rejects. */
  predicate Throws(req: Request) {
    req.cueEnabled && !VolumeAccepted(req.cueVolume)
  }

  /** The audio settings make every travel stall. */
  predicate Stalls(s: Settings) {
    s.audioEnabled && !VolumeAccepted(s.audioVolume)
  }

  const IndexSizeError: string := "IndexSizeError"

  /** The warp cue of the traverse step, with the captured audio settings:
      nothing when audio was off; otherwise the volume is assigned to the
      media element, which throws for a volume outside [0, 1], and then the
      cue plays. A rejected `play()` is caught and adds no event. */
  function WarpCue(req: Request): (r: Result<seq<Event>, string>)
    ensures r.Failure? <==> Throws(req)
    ensures r.Failure? ==> r.error == IndexSizeError
    ensures r.Success? ==> (r.value == [Cue(req.cueVolume)] <==> req.cueEnabled)
    ensures r.Success? ==> (r.value == [] <==> !req.cueEnabled)
    ensures r.Success? && req.cueEnabled ==> VolumeAccepted(req.cueVolume)
  {
    if !req.cueEnabled then Success([])
    else if VolumeAccepted(req.cueVolume) then Success([Cue(req.cueVolume)])
    else Failure(IndexSizeError)
  }

  /** One timer firing. Departing: add `traverse`, then play the cue and arm
      the next timer; when the volume assignment throws, the callback stops
      there and the travel stalls with `depart` and `traverse` still set.
      Traversing: commit the planet, drop `depart` and `traverse`, add
      `arrive`. Arriving: drop `arrive` and resolve the travel. */
  function Tick(c: Context): (r: Step)
    requires Armed(c.phase)
    ensures r.context.state.isImmersive == c.state.isImmersive
    ensures r.context.state.settings == c.state.settings
    ensures r.context.stored == c.stored
    ensures c.phase.Traversing? ==> r.context.state.selectedPlanet == Some(c.phase.req.target)
    ensures !c.phase.Traversing? ==> r.context.state.selectedPlanet == c.state.selectedPlanet
    ensures c.phase.Departing? && !Throws(c.phase.req) ==> r.context.phase == Traversing(c.phase.req)
    ensures c.phase.Departing? && Throws(c.phase.req) ==>
              r.context.phase == Stalled(c.phase.req) && r.events == [ClassAdded(Traverse)]
    ensures c.phase.Traversing? ==> r.context.phase == Arriving(c.phase.req)
    ensures c.phase.Arriving? ==> r.context.phase.Idle?
    ensures (Resolved in r.events) <==> c.phase.Arriving?
    ensures (exists v :: Cue(v) in r.events) <==>
              c.phase.Departing? && c.phase.req.cueEnabled && VolumeAccepted(c.phase.req.cueVolume)
    ensures Valid(c) ==> Valid(r.context)
  {
    match c.phase
    case Departing(req) =>
      var traversing := c.dom.(classes := c.dom.classes + {Traverse});
      (match WarpCue(req)
       case Success(cue) => Step(c.(dom := traversing, phase := Traversing(req)), [ClassAdded(Traverse)] + cue)
       case Failure(_) => Step(c.(dom := traversing, phase := Stalled(req)), [ClassAdded(Traverse)]))
    case Traversing(req) =>
      var moved := Reshow(c, c.state.isImmersive, Some(req.target));
      Step(moved.(dom := moved.dom.(classes := moved.dom.classes - {Depart, Traverse} + {Arrive}),
                  phase := Arriving(req)),
           [PlanetCommitted(req.target), ClassesRemoved({Depart, Traverse}), ClassAdded(Arrive)])
    case Arriving(req) =>
      Step(c.(dom := c.dom.(classes := c.dom.classes - {Arrive}), phase := Idle),
           [ClassesRemoved({Arrive}), Resolved])
  }

  /** An event stamped with the milliseconds elapsed since the travel began. */
  datatype Timed = Timed(at: nat, event: Event)

  function Stamp(at: nat, events: seq<Event>): (r: seq<Timed>)
    ensures |r| == |events|
    ensures forall i :: 0 <= i < |r| ==> r[i] == Timed(at, events[i])
  {
    if events == [] then [] else [Timed(at, events[0])] + Stamp(at, events[1..])
  }

  /** A travel run as far as it goes: the starting step and the timer steps
      that follow, each stamped with the time it runs. A stalled travel ends
      after the traverse step. */
  datatype Run = Run(context: Context, trace: seq<Timed>)

  function RunTravel(c: Context, target: Planet): (r: Run)
    requires c.phase.Idle?
    ensures Valid(c) ==> Valid(r.context)
    ensures !Stalls(c.state.settings) ==>
              && r.context.phase.Idle?
              && r.context.state == c.state.(selectedPlanet := Some(target))
              && |r.trace| >= 2 && r.trace[|r.trace| - 1] == Timed(2500, Resolved)
              && (forall i :: 0 <= i < |r.trace| - 1 ==> r.trace[i].event != Resolved)
    ensures Stalls(c.state.settings) ==>
              && r.context.phase.Stalled?
              && r.context.state == c.state
              && (forall i :: 0 <= i < |r.trace| ==>
                    r.trace[i].event != Resolved && !r.trace[i].event.PlanetCommitted?)
  {
    var s1 := BeginTravel(c, target);
    var t1 := Delay(s1.context.phase);
    var s2 := Tick(s1.context);
    var head := Stamp(0, s1.events) + Stamp(t1, s2.events);
    if s2.context.phase.Stalled? then
      Run(s2.context, head)
    else
      var t2 := t1 + Delay(s2.context.phase);
      var s3 := Tick(s2.context);
      var t3 := t2 + Delay(s3.context.phase);
      var s4 := Tick(s3.context);
      assert t3 == 2500;
      assert s4.events == [ClassesRemoved({Arrive}), Resolved];
      Run(s4.context, head + Stamp(t2, s3.events) + Stamp(t3, s4.events))
  }

  /** A travel whose settings do not stall: the phases run in order with the
      classes of each phase, the planet changes once (at the arrive step, to
      the target), mode and settings never change, and the events come out in
      this order at these times. */
  lemma TravelSequence(c: Context, target: Planet)
    requires Valid(c) && c.phase.Idle?
    ensures !Stalls(c.state.settings) ==>
            var req := Request(target, c.state.settings.audioEnabled, c.state.settings.audioVolume);
            var s1 := BeginTravel(c, target);
            var s2 := Tick(s1.context);
            var s3 := Tick(s2.context);
            var s4 := Tick(s3.context);
            && s1.context.state == c.state && s1.context.dom.classes == {Depart}
            && s2.context.state == c.state && s2.context.dom.classes == {Depart, Traverse}
            && s3.context.state == c.state.(selectedPlanet := Some(target))
            && s3.context.dom.classes == {Arrive}
            && s4.context.state == s3.context.state && s4.context.dom.classes == {}
            && s4.context.phase.Idle? && Valid(s4.context)
            && RunTravel(c, target).context == s4.context
            && RunTravel(c, target).trace ==
                 [Timed(0, ClassAdded(Depart)), Timed(300, ClassAdded(Traverse))]
                 + Stamp(300, WarpCue(req).value)
                 + [Timed(1500, PlanetCommitted(target)), Timed(1500, ClassesRemoved({Depart, Traverse})),
                    Timed(1500, ClassAdded(Arrive)),
                    Timed(2500, ClassesRemoved({Arrive})), Timed(2500, Resolved)]
  {
    if !Stalls(c.state.settings) {
      var req := Request(target, c.state.settings.audioEnabled, c.state.settings.audioVolume);
      var s1 := BeginTravel(c, target);
      var s2 := Tick(s1.context);
      assert s2.events == [ClassAdded(Traverse)] + WarpCue(req).value;
      var s3 := Tick(s2.context);
      var s4 := Tick(s3.context);
      StampAppend(300, [ClassAdded(Traverse)], WarpCue(req).value);
    }
  }

  /** A travel whose settings stall: `depart` at 0 ms, `traverse` at 300 ms,
      and then nothing. The classes stay on the document, no cue plays, the
      planet is never committed and the travel never resolves. */
  lemma TravelStalls(c: Context, target: Planet)
    requires Valid(c) && c.phase.Idle?
    ensures Stalls(c.state.settings) ==>
            var r := RunTravel(c, target);
            && r.context.phase == Stalled(Request(target, c.state.settings.audioEnabled, c.state.settings.audioVolume))
            && r.context.dom.classes == {Depart, Traverse}
            && r.context.state == c.state
            && r.trace == [Timed(0, ClassAdded(Depart)), Timed(300, ClassAdded(Traverse))]
  {
  }

  lemma StampAppend(at: nat, a: seq<Event>, b: seq<Event>)
    ensures Stamp(at, a + b) == Stamp(at, a) + Stamp(at, b)
  {
    assert |Stamp(at, a + b)| == |Stamp(at, a) + Stamp(at, b)|;
  }

  /** Travel to flux with audio on at volume 0.3, from any valid idle provider. */
  lemma FluxTravelExample(c: Context)
    requires Valid(c) && c.phase.Idle?
    requires c.state.settings.audioEnabled && c.state.settings.audioVolume == 0.3
    ensures RunTravel(c, Flux).trace ==
      [Timed(0, ClassAdded(Depart)),
       Timed(300, ClassAdded(Traverse)), Timed(300, Cue(0.3)),
       Timed(1500, PlanetCommitted(Flux)), Timed(1500, ClassesRemoved({Depart, Traverse})),
       Timed(1500, ClassAdded(Arrive)),
       Timed(2500, ClassesRemoved({Arrive})), Timed(2500, Resolved)]
    ensures RunTravel(c, Flux).context.state.selectedPlanet == Some(Flux)
  {
    TravelSequence(c, Flux);
  }

  /** Mode and planet are independent: a travel from a freshly mounted
      provider selects a planet while the mode stays off. */
  lemma PlanetWithoutImmersion()
    ensures var c := RunTravel(Mount(Absent), Flux).context;
            !c.state.isImmersive && c.state.selectedPlanet == Some(Flux)
  {
    TravelSequence(Mount(Absent), Flux);
  }

  /** A stored volume of 2 with audio on is loaded as it stands, and every
      travel from that provider stalls after the traverse step. */
  lemma StoredLoudVolumeStalls()
    ensures var c := Mount(Record(None, Some(true), Some(2.0)));
            var r := RunTravel(c, Flux);
            && c.state.settings.audioVolume == 2.0
            && r.context.phase.Stalled?
            && r.context.dom.classes == {Depart, Traverse}
            && r.context.state.selectedPlanet.None?
            && r.trace == [Timed(0, ClassAdded(Depart)), Timed(300, ClassAdded(Traverse))]
  {
    var c := Mount(Record(None, Some(true), Some(2.0)));
    TravelStalls(c, Flux);
  }

  /** A volume clamped into [0, 1], which the media element always accepts. */
  function Clamp01(v: real): (w: real)
    ensures VolumeAccepted(w)
    ensures VolumeAccepted(v) ==> w == v
    ensures v < 0.0 ==> w == 0.0
    ensures v > 1.0 ==> w == 1.0
  {
    if v < 0.0 then 0.0 else if v > 1.0 then 1.0 else v
  }

  /** `beginTravel` with the captured volume clamped before it reaches the
      media element; otherwise the same first step. */
  function BeginTravelClamped(c: Context, target: Planet): (r: Step)
    requires c.phase.Idle?
    ensures r.context.phase == Departing(Request(target, c.state.settings.audioEnabled, Clamp01(c.state.settings.audioVolume)))
    ensures !Throws(r.context.phase.req)
    ensures r.context.state == c.state && r.context.stored == c.stored
    ensures r.context.dom == BeginTravel(c, target).context.dom && r.events == BeginTravel(c, target).events
    ensures Valid(c) ==> Valid(r.context)
  {
    var req := Request(target, c.state.settings.audioEnabled, Clamp01(c.state.settings.audioVolume));
    Step(c.(dom := c.dom.(classes := c.dom.classes + {Depart}), phase := Departing(req)), [ClassAdded(Depart)])
  }

  /** With the volume clamped every travel completes, whatever the stored
      volume: the cue plays iff audio is on, at the stored volume when that
      is in range, and the travel commits the planet and resolves. */
  lemma ClampedTravelResolves(c: Context, target: Planet)
    requires Valid(c) && c.phase.Idle?
    ensures var s1 := BeginTravelClamped(c, target);
            var s2 := Tick(s1.context);
            var s3 := Tick(s2.context);
            var s4 := Tick(s3.context);
            && ((exists v :: Cue(v) in s2.events) <==> c.state.settings.audioEnabled)
            && (VolumeAccepted(c.state.settings.audioVolume) ==>
                  s2.events == [ClassAdded(Traverse)] + WarpCue(BeginTravel(c, target).context.phase.req).value)
            && s4.context.phase.Idle? && Valid(s4.context)
            && s4.context.state == c.state.(selectedPlanet := Some(target))
            && Resolved in s4.events
  {
    var s1 := BeginTravelClamped(c, target);
    var s2 := Tick(s1.context);
    var s3 := Tick(s2.context);
  }

  const ProviderMissing: string := "useImmersive must be used within an ImmersiveProvider"

  /** `useImmersive`: the provider's value, or the error thrown outside one. */
  function UseImmersive(context: Option<Context>): (r: Result<Context, string>)
    ensures r.Success? <==> context.Some?
    ensures r.Success? ==> r.value == context.value
    ensures r.Failure? ==> r.error == ProviderMissing
  {
    match context
    case Some(c) => Success(c)
    case None => Failure(ProviderMissing)
  }
}
