# realities-chess: a Dafny model of the landing page's logic

This project models the parts of the realities-chess landing page that have
logic you can state. The page is a themed marketing front end for a chess
trainer, written in React. The model covers:

- the **theme store** (`ThemeContext`) and the world selector that feeds it;
- the **immersive-mode store** (`ImmersiveContext`). This covers its persisted
  settings, the markers it writes on the document root, and the timed travel
  sequence depart → traverse → arrive → idle;
- the two **background engines**. `ParticleBackground` draws drifting dots and
  joins them with lines under the neon theme. `WorldBackground` draws rotating
  shapes that wrap with a 100-pixel margin;
- the **chess board preview**: square indices, algebraic names (Appendix C of
  the FIDE Laws of Chess), light and dark squares (Article 2.1), and the fixed
  piece placement;
- the small derived behaviours of the **landing page**, the **HUD**, the
  **planet overlay** and the **hero banner**.

Each source file has one module: `ThemeContext`, `ImmersiveContext`,
`ParticleBackground`, `WorldBackground`, `ChessBoardPreview`, `Landing`,
`ImmersiveHud`, `PlanetOverlay`, `ThemeSelector` and `HeroSection`. Two helper
modules hold shared pieces. `Wrappers` has `Option` and `Result`. `Canvas` has
the `Math.random()` range, table picks and the per-axis wrap that both engines
use.

Inputs that the page gets from its environment are parameters here:

- Every `Math.random()` value is a parameter, a real in [0, 1). A `Draw`
  record holds the values one particle or element consumes.
- The window size is a pair of naturals.
- Storage contents are an optional string or a `StoredSettings` value.
- Timer delays are constants. Each travel timer firing is one `Tick`. Each
  run of the typing effect is one `TypingStep`. A run that shows a character
  waits out an 80 ms timer first; the run that stops typing does not wait.
- Positions and velocities are `real`.

Notes on how the source behaves, each captured in the model:

- `Theme` has nine values. The type declares five. The world selector casts
  four more ids (`light`, `dark`, `neon`, `zen`) into it. The store accepts
  and saves those four. On the next load it rejects them
  (`ThemeSelector.ChoiceDoesNotSurviveReload`).
- The particle table has rows only for `dark`, `neon` and `zen`. The world
  table has rows for all four selector ids: `light`, `dark`, `neon` and `zen`.
  Everything else falls through to each table's default row, including all
  five declared themes and, in the particle table, `light`.
- The settings load uses `||`, so a saved volume of 0 reloads as 0.3
  (`ImmersiveContext.SettingsRoundTrip`).
- The travel timers read the audio settings captured when `beginTravel` was
  called. `Request` keeps that snapshot.
- The neon pass moves particle *i* and then compares it with particles *j > i*,
  which have not yet moved in that frame. `FrameLinks` states exactly this.
- Nothing keeps `selectedPlanet` empty outside immersive mode. The arrive
  step of `beginTravel` (src/contexts/ImmersiveContext.tsx:94-98) and
  `setPlanet` (:74-76) both set the planet without touching `isImmersive`.
  `ImmersiveContext.PlanetWithoutImmersion` gives a reachable state with a
  planet selected and the mode off. The same holds when `exitImmersive` runs
  during a travel: the arrive step still sets the planet afterwards.
- The store does not clamp `audioVolume`: `setAudioVolume`
  (src/contexts/ImmersiveContext.tsx:125) accepts any number
  (`ImmersiveContext.SetAudioVolume`). Only the HUD slider
  (src/components/ImmersiveHUD.tsx:170-177) keeps it in [0, 0.8]
  (`ImmersiveHud.MoveSlider`).
- A travel can hang. The traverse step assigns the captured volume to the
  media element (src/contexts/ImmersiveContext.tsx:90) before it arms the
  next timer, and that assignment throws for a volume outside [0, 1]. The
  store accepts such volumes from storage and from `setAudioVolume`. With
  audio on, the travel then stops with `depart` and `traverse` set, never
  selects the planet and never resolves, so `handleEnterWorld` never
  navigates. The model follows the code (`ImmersiveContext.Tick`) and logs
  this under "## Findings".
- The two engines wrap differently. The particle engine wraps exactly at the
  viewport edge (src/components/ParticleBackground.tsx:91-94). The world
  engine wraps 100 pixels beyond it (src/components/WorldBackground.tsx:272-275).

## Model

| member | source | states |
|---|---|---|
| Canvas.FloorIndex | src/components/ParticleBackground.tsx:76 | `Math.floor(Math.random() * n)` is always a valid index below `n` |
| Canvas.Pick | src/components/WorldBackground.tsx:103-104 | a random pick from a table is always one of the table's entries |
| Canvas.Wrap | src/components/ParticleBackground.tsx:90-94 | the two sequential wrap tests land in [low, high], leave an in-range value alone, send a value below `low` to `high` and one above `high` to `low` |
| ThemeContext.LoadTheme | src/contexts/ThemeContext.tsx:15-20 | a stored value is adopted iff it is one of grid/sol/flux/terra/glacis; otherwise the theme is the default `grid` |
| ThemeContext.Publish | src/contexts/ThemeContext.tsx:22-25 | after the change effect, `data-theme` and the stored value both equal the theme |
| ThemeContext.Mount | src/contexts/ThemeContext.tsx:13-25 | the mounted provider is synced, holds a declared theme, and is `grid` exactly when storage held nothing valid or held `grid` |
| ThemeContext.SetTheme | src/contexts/ThemeContext.tsx:22-25 | any theme value is accepted, and attribute and storage follow it |
| ThemeContext.SaveLoadRoundTrip | src/contexts/ThemeContext.tsx:15-25 | save then reload keeps a theme iff it is one of the five declared ones, else yields `grid` |
| ThemeContext.UseTheme | src/contexts/ThemeContext.tsx:34-39 | outside a provider the hook fails with its error message; inside it returns the provider |
| ImmersiveContext.AllPlanetsComplete | src/contexts/ImmersiveContext.tsx:3 | the planet list holds every planet value |
| ImmersiveContext.SaveSettings | src/contexts/ImmersiveContext.tsx:46-52 | the saved record carries all three settings and nothing about mode or planet |
| ImmersiveContext.LoadSettings | src/contexts/ImmersiveContext.tsx:31-43 | a missing or unparsable record gives high/false/0.3; each field falls back on a falsy value, so a stored volume of 0 gives 0.3 and a loaded volume is never 0 |
| ImmersiveContext.SettingsRoundTrip | src/contexts/ImmersiveContext.tsx:31-52 | save then load returns the settings iff the volume is not 0; a volume of 0 returns as 0.3 |
| ImmersiveContext.ApplyMode | src/contexts/ImmersiveContext.tsx:55-65 | out of immersive mode both `data-immersive` and `data-planet` are absent; in it `data-immersive` is on, `data-planet` names the planet, and with no planet an old `data-planet` stays |
| ImmersiveContext.ApplyModeIdempotent | src/contexts/ImmersiveContext.tsx:55-65 | re-running the mode effect changes nothing |
| ImmersiveContext.Reshow | src/contexts/ImmersiveContext.tsx:55-65 | a mode or planet change updates the markers and leaves the persisted record and the travel classes alone |
| ImmersiveContext.Resettle | src/contexts/ImmersiveContext.tsx:46-52 | a settings change is written to storage, so the persisted record always equals the current settings |
| ImmersiveContext.Mount | src/contexts/ImmersiveContext.tsx:24-52 | the provider starts not immersive, with no planet, with the loaded settings, and satisfies the store invariant |
| ImmersiveContext.SetImmersive | src/contexts/ImmersiveContext.tsx:67-72 | `setImmersive(false)` clears mode and planet; `setImmersive(true)` keeps the planet; settings are untouched |
| ImmersiveContext.SetPlanet | src/contexts/ImmersiveContext.tsx:74-76 | only the planet changes, the mode does not |
| ImmersiveContext.SetEffectsLevel | src/contexts/ImmersiveContext.tsx:123 | the level changes and is persisted; nothing else changes |
| ImmersiveContext.SetAudioEnabled | src/contexts/ImmersiveContext.tsx:124 | the audio flag changes and is persisted; nothing else changes |
| ImmersiveContext.SetAudioVolume | src/contexts/ImmersiveContext.tsx:125 | any volume is stored unclamped and persisted; nothing else changes |
| ImmersiveContext.ExitImmersive | src/contexts/ImmersiveContext.tsx:109-112 | an instant exit: mode off, no planet, both markers removed, settings kept |
| ImmersiveContext.ExitAgreesWithSetImmersive | src/contexts/ImmersiveContext.tsx:67-112 | `exitImmersive()` and `setImmersive(false)` end in the same provider value |
| ImmersiveContext.BeginTravel | src/contexts/ImmersiveContext.tsx:78-82 | a travel adds `depart` first and captures the audio settings; state and storage are untouched |
| ImmersiveContext.WarpCue | src/contexts/ImmersiveContext.tsx:87-92 | with audio off there is no cue; with audio on, assigning a volume outside [0, 1] throws `IndexSizeError` and nothing plays; otherwise one cue plays at the captured volume, and a rejected `play()` adds no event |
| ImmersiveContext.Tick | src/contexts/ImmersiveContext.tsx:83-105 | each timer advances one phase; a depart step whose volume assignment throws leaves `depart` and `traverse` set and stalls with no further timer; only the traverse→arrive step sets the planet (to the target); mode and settings never change; `Resolved` comes only from the last step, a cue only from a non-throwing first step |
| ImmersiveContext.RunTravel | src/contexts/ImmersiveContext.tsx:78-107 | the awaited travel keeps the store invariant; when the audio settings do not throw it ends idle with the target selected, its trace ending with `Resolved` at 2500 ms and nothing earlier resolving; when they do, it stalls with the state unchanged, never committing the planet and never resolving |
| ImmersiveContext.TravelSequence | src/contexts/ImmersiveContext.tsx:78-107 | when the audio settings do not throw, a travel emits depart at 0 ms, traverse (and the cue) at 300 ms, planet and arrive at 1500 ms, and clears arrive and resolves at 2500 ms; the planet changes once, at arrival |
| ImmersiveContext.TravelStalls | src/contexts/ImmersiveContext.tsx:83-94 | with audio on and a volume outside [0, 1], a travel emits depart at 0 ms and traverse at 300 ms and then nothing: both classes stay, no cue, no planet, no resolution |
| ImmersiveContext.StoredLoudVolumeStalls | src/contexts/ImmersiveContext.tsx:31-94 | a stored volume of 2 with audio on loads unchanged, and a travel from there stalls after traverse with no planet selected |
| ImmersiveContext.Clamp01 | src/contexts/ImmersiveContext.tsx:90 | a clamped volume is always accepted by the media element, and an accepted volume is left as it is |
| ImmersiveContext.BeginTravelClamped | src/contexts/ImmersiveContext.tsx:78-92 | the corrected first step: the same classes and events as `beginTravel`, but the captured volume is clamped, so the traverse step cannot throw |
| ImmersiveContext.ClampedTravelResolves | src/contexts/ImmersiveContext.tsx:78-107 | with the volume clamped every travel plays the cue iff audio is on, commits the planet and resolves, keeping the store invariant |
| ImmersiveContext.FluxTravelExample | src/contexts/ImmersiveContext.tsx:78-107 | the worked trace of a travel to flux with audio on at volume 0.3 |
| ImmersiveContext.PlanetWithoutImmersion | src/contexts/ImmersiveContext.tsx:94-98 | a travel can select a planet while immersive mode is off |
| ImmersiveContext.UseImmersive | src/contexts/ImmersiveContext.tsx:134-140 | outside a provider the hook fails with its error message |
| ParticleBackground.ConfigFor | src/components/ParticleBackground.tsx:31-62 | dark gives 50 particles, neon 80, zen 30; every other theme, including the five declared ones, gets the default row of 40 |
| ParticleBackground.NewParticle | src/components/ParticleBackground.tsx:69-77 | a new particle is on the canvas, short of the far edge on any non-empty side, with each velocity component in [-speed/2, speed/2), size in [min, max), opacity in [0.1, 0.6) and a hue from the row |
| ParticleBackground.Batch | src/components/ParticleBackground.tsx:64-79 | a batch has one live particle per draw |
| ParticleBackground.CreateParticles | src/components/ParticleBackground.tsx:64-79 | the loop discards the old batch and yields exactly `particleCount` particles, the `i`-th built from the `i`-th draw |
| ParticleBackground.Move | src/components/ParticleBackground.tsx:86-94 | after a frame a particle is in [0, w] × [0, h] whatever its velocity; an in-range move is not wrapped; only the position changes |
| ParticleBackground.Start | src/components/ParticleBackground.tsx:145-147 | mounting or a theme change seeds a full batch for the theme at the window size |
| ParticleBackground.Resize | src/components/ParticleBackground.tsx:149-152 | resizing re-creates the batch at the new size with the same count |
| ParticleBackground.Frame | src/components/ParticleBackground.tsx:81-94 | a frame moves every particle and keeps the engine invariant |
| ParticleBackground.FramesKeepInvariant | src/components/ParticleBackground.tsx:81-94 | after any number of frames the count is unchanged, all particles are on the canvas, and velocity, size, opacity and hue never change |
| ParticleBackground.DistanceRule | src/components/ParticleBackground.tsx:123-127 | `distance < 100` is the same test as squared distance below 10000 |
| ParticleBackground.LineAlpha | src/components/ParticleBackground.tsx:129 | a line's alpha `(1 - d/100) * 0.2` lies in (0, 0.2] and is 0.2 only at distance 0 |
| ParticleBackground.LineAlphaDecreasing | src/components/ParticleBackground.tsx:129 | nearer pairs get more opaque lines |
| ParticleBackground.PartnersOf | src/components/ParticleBackground.tsx:122-138 | from a moved particle a line goes to exactly the later particles near it |
| ParticleBackground.LinksFrom | src/components/ParticleBackground.tsx:85-140 | a line (i, j) is drawn iff i < j and moved particle i is near not-yet-moved particle j |
| ParticleBackground.FrameLinks | src/components/ParticleBackground.tsx:121-138 | no lines are drawn outside neon; under neon the pair rule above holds for every pair |
| WorldBackground.ConfigFor | src/components/WorldBackground.tsx:33-76 | light gives 8 elements, dark 12, neon 15, zen 10 with their shape kinds; every other theme gets 8 clouds |
| WorldBackground.ShapesOfTheme | src/components/WorldBackground.tsx:33-76 | the shapes a theme can seed are exactly its row's kinds |
| WorldBackground.NewElement | src/components/WorldBackground.tsx:83-93 | a new element is on the canvas, with opacity in [0.1, 0.4), size in [min, max), rotation speed in [-0.01, 0.01), each velocity component in [-speed/2, speed/2), and a kind from the row |
| WorldBackground.Batch | src/components/WorldBackground.tsx:78-95 | a batch has one live element per draw, each on the canvas itself rather than merely within the margin |
| WorldBackground.CreateElements | src/components/WorldBackground.tsx:78-95 | the loop clears and refills with exactly `elementCount` elements, the `i`-th built from the `i`-th draw |
| WorldBackground.Move | src/components/WorldBackground.tsx:265-276 | after a frame an element is within 100 px of the canvas; below -100 it jumps to the far edge plus 100, past that it jumps to -100; rotation grows by exactly the rotation speed; nothing else changes |
| WorldBackground.Start | src/components/WorldBackground.tsx:283-285 | mounting or a theme change seeds a full batch for the theme, every element on the canvas |
| WorldBackground.Resize | src/components/WorldBackground.tsx:287-290 | resizing re-creates the batch at the new size with the same count, every element on the new canvas |
| WorldBackground.Frame | src/components/WorldBackground.tsx:261-278 | a frame moves every element and keeps the engine invariant |
| WorldBackground.FramesKeepInvariant | src/components/WorldBackground.tsx:265-275 | after n frames all elements are in the margin band, rotation has grown by n times the rotation speed, and velocity, size, opacity and kind never change |
| WorldBackground.FrameColors | src/components/WorldBackground.tsx:103-104 | each element's colour is picked afresh every frame, and is always in the row's colour list |
| WorldBackground.EveryColorReachable | src/components/WorldBackground.tsx:103-104 | every colour of the row can come up |
| ChessBoardPreview.IndexBijection | src/components/ChessBoardPreview.tsx:65-67 | index ↦ (index/8, index%8) is a bijection from [0, 64) onto [0, 8) × [0, 8) |
| ChessBoardPreview.FileChar | src/components/ChessBoardPreview.tsx:68 | the file letter of a column is in a..h |
| ChessBoardPreview.RankText | src/components/ChessBoardPreview.tsx:69 | the rank of a row is the single digit 1..8 |
| ChessBoardPreview.SquareName | src/components/ChessBoardPreview.tsx:68-70 | a generated square name is a file letter followed by a rank digit |
| ChessBoardPreview.SquareNamesDistinct | src/components/ChessBoardPreview.tsx:68-70 | the 64 generated names are pairwise distinct |
| ChessBoardPreview.FileToCol | src/components/ChessBoardPreview.tsx:55 | `fileToCol` is `NaN` exactly for an empty string, and a file letter a..h gives a column in [0, 8) |
| ChessBoardPreview.RankToRow | src/components/ChessBoardPreview.tsx:56 | `rankToRow` of a single digit d is 8 - d, so ranks 1..8 give rows in [0, 8); an empty rank gives `NaN` |
| ChessBoardPreview.ParseOneDigit | src/components/ChessBoardPreview.tsx:56 | `parseInt` of a single decimal digit is that digit's value |
| ChessBoardPreview.ParseInt | src/components/ChessBoardPreview.tsx:56 | `parseInt` yields a number for a string starting with a digit and `NaN` for the empty string |
| ChessBoardPreview.CoordinatesRoundTrip | src/components/ChessBoardPreview.tsx:55-70 | `fileToCol` and `rankToRow` give back the column and row of every generated square |
| ChessBoardPreview.AdjacentSquaresDiffer | src/components/ChessBoardPreview.tsx:20 | squares sharing an edge have opposite colours |
| ChessBoardPreview.CornersAreLight | src/components/ChessBoardPreview.tsx:20 | a8 and h1 are light squares |
| ChessBoardPreview.PaletteFor | src/components/ChessBoardPreview.tsx:22-39 | grid, flux and terra have their own palettes; every other theme, glacis included, uses the sol/amber one; light and dark classes differ |
| ChessBoardPreview.SquareClass | src/components/ChessBoardPreview.tsx:19-40 | `getSquareClass` returns one of the theme's two classes, the light one exactly on light squares |
| ChessBoardPreview.SquareClassFollowsParity | src/components/ChessBoardPreview.tsx:19-40 | under one theme two squares share a class iff they share a colour |
| ChessBoardPreview.Find | src/components/ChessBoardPreview.tsx:72 | the lookup returns the first piece standing on the asked square, and nothing exactly when no piece stands there |
| ChessBoardPreview.PieceSquaresNamed | src/components/ChessBoardPreview.tsx:3-14 | every piece stands on a real board square |
| ChessBoardPreview.PiecePositionsDistinct | src/components/ChessBoardPreview.tsx:3-14 | no two pieces share a position |
| ChessBoardPreview.PieceAt | src/components/ChessBoardPreview.tsx:72 | the piece drawn on a square is one of the ten and stands there; a square is empty exactly when none of the ten does |
| ChessBoardPreview.Occupancy | src/components/ChessBoardPreview.tsx:65-72 | exactly the ten placement squares are occupied, each by its own piece |
| Landing.TypingStep | src/pages/Landing.tsx:56-65 | a run shows one more character of the full text; at full length typing stops; once stopped nothing more happens; the prefix invariant is kept |
| Landing.TypingStepGrowsByOne | src/pages/Landing.tsx:57-59 | each run grows the typed text by exactly one character, never past the full text |
| Landing.TypingRun | src/pages/Landing.tsx:56-65 | after k ≤ \|full\| effect runs, k × 80 ms in, the first k characters show; the next run, at that same instant, stops typing with the full text shown |
| Landing.GreetingTyped | src/pages/Landing.tsx:53-65 | the 37-character greeting is complete 2960 ms in, and the run that stops typing comes at that same instant |
| Landing.CardsCoverPlanets | src/pages/Landing.tsx:7-43 | the card ids are distinct and cover all five planets |
| Landing.EnterWorld | src/pages/Landing.tsx:84-89 | with no selection nothing happens; when the travel resolves, every effect but the last belongs to the travel, the only `Resolved` is at 2500 ms just before the end, and the last effect is the single navigation to `/`, with the planet selected and the mode unchanged; when the travel stalls, there is no navigation and no resolution and the state is unchanged |
| Landing.ExitToSite | src/pages/Landing.tsx:91-94 | back to the normal site: mode off, no planet, then navigate to `/` |
| ImmersiveHud.HudPlanetsCover | src/components/ImmersiveHUD.tsx:14-20 | the switcher offers all five planets |
| ImmersiveHud.VolumeStepsRange | src/components/ImmersiveHUD.tsx:170-177 | the slider stops are 0 to 0.8 in steps of 0.1 |
| ImmersiveHud.Render | src/components/ImmersiveHUD.tsx:39 | nothing is rendered out of immersive mode; the slider is enabled iff audio is on |
| ImmersiveHud.HandlePlanetSwitch | src/components/ImmersiveHUD.tsx:41-46 | the switcher always closes; a travel starts iff the planet differs from the selected one, and then to that planet |
| ImmersiveHud.ToggleAudio | src/components/ImmersiveHUD.tsx:166 | the audio button flips the flag and nothing else |
| ImmersiveHud.ToggleAudioTwice | src/components/ImmersiveHUD.tsx:166 | two presses restore the state |
| ImmersiveHud.MoveSlider | src/components/ImmersiveHUD.tsx:170-177 | with audio on the slider sets a volume in [0, 0.8]; with audio off it is disabled and nothing changes |
| PlanetOverlay.OverlayFor | src/components/PlanetOverlay.tsx:6-61 | nothing renders unless immersive with a planet; grid's starfield drifts iff the level is high, and so does flux's reversed pattern |
| PlanetOverlay.EffectsLevelMattersOnlyForGridAndFlux | src/components/PlanetOverlay.tsx:8-58 | the sol, terra and glacis overlays do not depend on the effects level; grid and flux do |
| PlanetOverlay.AnimationFollowsEffectsLevel | src/components/PlanetOverlay.tsx:13-41 | the grid and flux layers animate iff the level is high |
| ThemeSelector.EntryIds | src/components/ThemeSelector.tsx:5-34 | the four ids are light/dark/neon/zen, pairwise distinct, and none is whitelisted |
| ThemeSelector.Click | src/components/ThemeSelector.tsx:50 | a click sets the theme to the button's id |
| ThemeSelector.HighlightIsUnique | src/components/ThemeSelector.tsx:49-62 | at most one button is highlighted, and after a click exactly the clicked one |
| ThemeSelector.ChoiceDoesNotSurviveReload | src/components/ThemeSelector.tsx:50 | a selector choice is saved but comes back as `grid` after a reload |
| HeroSection.ContentFor | src/components/HeroSection.tsx:9-43 | dark, neon and zen have their own copy; every other theme, the declared ones included, gets Aurora |
| HeroSection.Split | src/components/HeroSection.tsx:58 | `split(' ')` yields at least one piece and no piece holds a space |
| HeroSection.JoinSplit | src/components/HeroSection.tsx:58-60 | `Join` (`join(' ')`) after `Split` gives back the title |
| HeroSection.JoinAppend | src/components/HeroSection.tsx:58-60 | joining two lists is joining each with a space between |
| HeroSection.Cut | src/components/HeroSection.tsx:58-60 | the tail `slice(-2)` has two words, or all of them when there are fewer |
| HeroSection.TitleReassembles | src/components/HeroSection.tsx:58-60 | `Lead` (`slice(0, -2)`) and `Tail` (`slice(-2)`) cover the title: the lead, a space and the tail give it back; a title of at most two words has an empty lead |
| HeroSection.TailIsLastTwoWords | src/components/HeroSection.tsx:60 | `Tail`, the highlighted span, is the last two words |
| HeroSection.TwoWordTitle | src/components/HeroSection.tsx:58-60 | a two-word title is all highlight |
| HeroSection.ThreeWordTitle | src/components/HeroSection.tsx:58-60 | a three-word title leads with its first word and highlights the other two |
| HeroSection.TwoWordBanner | src/components/HeroSection.tsx:9-60 | every banner but Eden shows its whole title as the highlight |
| HeroSection.EdenBanner | src/components/HeroSection.tsx:27-60 | the Eden banner's lead is "Welcome" and its highlight "to Eden" |

## Findings

| source | as written | input that shows it | evidently intended | confidence | as-written member | corrected member |
|---|---|---|---|---|---|---|
| src/contexts/ImmersiveContext.tsx:88-94 | the traverse callback assigns the unchecked `audioVolume` to the media element before arming the arrive timer; the assignment throws for a volume outside [0, 1] and the travel never resolves | stored settings `{"audioEnabled":true,"audioVolume":2}`, then a travel to flux | the volume is clamped into [0, 1] before it is assigned, so every travel completes | high for the hang, given the standard's setter; not executed | ImmersiveContext.StoredLoudVolumeStalls | ImmersiveContext.ClampedTravelResolves |

## Left out

- Canvas drawing is left out: every `ctx` path, gradient and shadow call, and the per-shape bodies of `drawElement`. These are foreign rendering calls with no result to state. The zen petal's random shape choice and the board pieces' random animation delay are left out for the same reason.
- The missing-canvas early return is left out. With no drawing surface the engines do nothing, so there is no state to model.
- `requestAnimationFrame` and `cancelAnimationFrame` scheduling, and effect clean-up on unmount or theme change, are left out. A frame is one `Frame` call, and n frames are `Frames`. The typing timer's `clearTimeout` is not modelled.
- Real-time delays are constants: 300, 1200 and 1000 ms for the travel, 80 ms per typed character.
- Overlapping travels are left out. This includes a new travel started while an earlier one is stalled. `BeginTravel` starts from the idle phase because the behaviour of a second call in flight is undefined.
- Floating point is left out. Positions are exact reals. `Math.sqrt` appears only as a given distance whose square is the squared distance. `Math.PI * 2` is the real constant `TwoPi`.
- The mouse parallax on the landing page is left out because it is floating-point presentation.
- `localStorage`, `JSON.parse`/`JSON.stringify`, `Audio` and the DOM are left out. They appear as an optional string, the `StoredSettings` value, emitted `Cue` events, and the `Dom` record.
- The `console.warn` on a settings parse failure is left out, because it is logging only. The failure itself is the `Malformed` case, which keeps the defaults.
- ImmersiveContext.LoadSettings: it does not model stored fields of the wrong JSON type, or a stored `NaN` volume (falsy, so 0.3), because the model types each stored field.
- ChessBoardPreview.ParseInt: it does not model `parseInt`'s hexadecimal `0x` prefix or its non-ASCII white space (such as U+00A0, U+FEFF and the line separators), because rank strings never contain either.
- ChessBoardPreview.FileToCol: `charCodeAt` reads a UTF-16 unit and Dafny's `char` is a Unicode scalar. They agree on every square name.
- `getPieceColor`, and the `getFontClass` tables in `Navigation.tsx` and `FeatureSection.tsx`, are left out as plain class-name lookups.
- `tailwind.config.ts`, `ui/button.tsx`, `App.tsx` and `Index.tsx` are left out. They are styling and route composition.
- `handlePlanetSelect` on the landing page only stores the clicked card. It appears as the `selected` argument of `Landing.EnterWorld`.
- The landing page's audio button calls the same setter as the HUD's, so it is the same as `ImmersiveHud.ToggleAudio`.
- The HUD's effects-level buttons are the `ImmersiveContext.SetEffectsLevel` setter.
- The HUD's open and close buttons for its two overlays are left out as plain boolean flips.
