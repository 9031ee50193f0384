/** The decorative "world" engine: a batch of rotating shapes seeded from a
    per-theme table, moved every frame and wrapped with a 100-pixel margin
    beyond the viewport, each drawn in a colour picked afresh every frame. */
module WorldBackground {
  import opened Canvas
  import opened ThemeContext

  /** The shape kinds the engine can draw. `Lattice` is the engine's `'grid'`
      shape tag, renamed so that it does not read as the `grid` theme. */
  datatype Shape = Cloud | Bird | SunRay | Planet | Star | Comet | Circuit | Hexagon | Lattice | Leaf | Petal | Branch

  /** One row of the engine's theme table. */
  datatype Config = Config(count: nat, shapes: seq<Shape>, colors: seq<string>, speed: real, sizeMin: real, sizeMax: real)

  predicate WellFormed(cfg: Config) {
    cfg.count > 0 && |cfg.shapes| > 0 && |cfg.colors| > 0 && cfg.speed > 0.0 && cfg.sizeMin < cfg.sizeMax
  }

  /** The fallback row: eight clouds in one colour. */
  const DefaultConfig: Config := Config(8, [Cloud], ["35 90% 60%"], 0.2, 20.0, 60.0)

  /** The theme table: `light`, `dark`, `neon` and `zen` have rows; every
      other value, the five declared themes included, gets the default. */
  function ConfigFor(t: Theme): (cfg: Config)
    ensures WellFormed(cfg)
    ensures t == Light ==> cfg.count == 8 && cfg.shapes == [Cloud, Bird, SunRay]
    ensures t == Dark ==> cfg.count == 12 && cfg.shapes == [Planet, Star, Comet]
    ensures t == Neon ==> cfg.count == 15 && cfg.shapes == [Circuit, Hexagon, Lattice]
    ensures t == Zen ==> cfg.count == 10 && cfg.shapes == [Leaf, Petal, Branch]
    ensures !(t.Light? || t.Dark? || t.Neon? || t.Zen?) ==> cfg == DefaultConfig && cfg.count == 8 && cfg.shapes == [Cloud]
    ensures IsDeclared(t) ==> cfg == DefaultConfig
  {
    match t
    case Light => Config(8, [Cloud, Bird, SunRay], ["35 90% 60%", "25 95% 70%", "200 60% 75%"], 0.2, 20.0, 60.0)
    case Dark => Config(12, [Planet, Star, Comet], ["200 100% 60%", "240 80% 70%", "190 90% 65%"], 0.15, 15.0, 45.0)
    case Neon => Config(15, [Circuit, Hexagon, Lattice], ["300 100% 65%", "320 100% 70%", "140 100% 60%"], 0.3, 25.0, 50.0)
    case Zen => Config(10, [Leaf, Petal, Branch], ["120 60% 40%", "115 70% 45%", "25 70% 55%"], 0.1, 18.0, 40.0)
    case _ => DefaultConfig
  }

  /** The shapes a theme can seed, whichever table row it takes: exactly the
      kinds of that row. */
  lemma ShapesOfTheme(t: Theme, s: Shape)
    ensures s in ConfigFor(t).shapes <==>
      match t
      case Light => s in {Cloud, Bird, SunRay}
      case Dark => s in {Planet, Star, Comet}
      case Neon => s in {Circuit, Hexagon, Lattice}
      case Zen => s in {Leaf, Petal, Branch}
      case _ => s == Cloud
  {
  }

  /** `Math.PI * 2` as the engine computes it. */
  const TwoPi: real := 6.283185307179586

  /** The edge margin: elements wrap 100 pixels beyond the viewport. */
  const Margin: real := 100.0

  /** The nine `Math.random()` values one element consumes, in order. */
  datatype Draw = Draw(x: real, y: real, vx: real, vy: real, size: real, opacity: real,
                       rotation: real, spin: real, shape: real)

  predicate ValidDraw(d: Draw) {
    IsUnit(d.x) && IsUnit(d.y) && IsUnit(d.vx) && IsUnit(d.vy) && IsUnit(d.size)
    && IsUnit(d.opacity) && IsUnit(d.rotation) && IsUnit(d.spin) && IsUnit(d.shape)
  }

  predicate ValidDraws(ds: seq<Draw>) {
    forall i :: 0 <= i < |ds| ==> ValidDraw(ds[i])
  }

  datatype Element = Element(x: real, y: real, vx: real, vy: real, size: real, opacity: real,
                             rotation: real, rotationSpeed: real, shape: Shape)

  /** Within the margin band around the canvas, edges included. */
  predicate InBand(e: Element, w: nat, h: nat) {
    -Margin <= e.x <= w as real + Margin && -Margin <= e.y <= h as real + Margin
  }

  /** The attributes an element is created with and keeps while it lives. */
  predicate Shaped(e: Element, cfg: Config) {
    && -cfg.speed / 2.0 <= e.vx < cfg.speed / 2.0
    && -cfg.speed / 2.0 <= e.vy < cfg.speed / 2.0
    && cfg.sizeMin <= e.size < cfg.sizeMax
    && 0.1 <= e.opacity < 0.4
    && -0.01 <= e.rotationSpeed < 0.01
    && e.shape in cfg.shapes
  }

  predicate Live(e: Element, cfg: Config, w: nat, h: nat) {
    InBand(e, w, h) && Shaped(e, cfg)
  }

  /** On the canvas itself, edges included: where a fresh element starts. */
  predicate OnCanvas(e: Element, w: nat, h: nat) {
    0.0 <= e.x <= w as real && 0.0 <= e.y <= h as real
  }

  /** One element of a fresh batch: on the canvas, turned by `[0, 2π)`. */
  function NewElement(cfg: Config, w: nat, h: nat, d: Draw): (e: Element)
    requires WellFormed(cfg) && ValidDraw(d)
    ensures Live(e, cfg, w, h) && OnCanvas(e, w, h)
    ensures 0.0 <= e.rotation < TwoPi
  {
    Element(
      Scaled(d.x, w as real), Scaled(d.y, h as real),
      Centred(d.vx, cfg.speed), Centred(d.vy, cfg.speed),
      Spread(d.size, cfg.sizeMin, cfg.sizeMax - cfg.sizeMin),
      Spread(d.opacity, 0.1, 0.3),
      Scaled(d.rotation, TwoPi),
      Centred(d.spin, 0.02),
      Pick(cfg.shapes, d.shape))
  }

  /** A batch: one element per draw, in draw order. */
  function Batch(cfg: Config, w: nat, h: nat, ds: seq<Draw>): (es: seq<Element>)
    requires WellFormed(cfg) && ValidDraws(ds)
    ensures |es| == |ds|
    ensures forall i :: 0 <= i < |es| ==> Live(es[i], cfg, w, h) && OnCanvas(es[i], w, h)
  {
    seq(|ds|, i requires 0 <= i < |ds| => NewElement(cfg, w, h, ds[i]))
  }

  /** `createElements`: empty the array and push `count` new elements. */
  method CreateElements(theme: Theme, w: nat, h: nat, ds: seq<Draw>) returns (es: seq<Element>)
    requires |ds| == ConfigFor(theme).count && ValidDraws(ds)
    ensures |es| == ConfigFor(theme).count
    ensures forall i :: 0 <= i < |es| ==> es[i] == NewElement(ConfigFor(theme), w, h, ds[i])
    ensures es == Batch(ConfigFor(theme), w, h, ds)
  {
    var cfg := ConfigFor(theme);
    es := [];
    var i := 0;
    while i < cfg.count
      invariant 0 <= i <= cfg.count
      invariant |es| == i
      invariant forall k :: 0 <= k < i ==> es[k] == NewElement(cfg, w, h, ds[k])
    {
      es := es + [NewElement(cfg, w, h, ds[i])];
      i := i + 1;
    }
  }

  /** One element's frame: move, turn by exactly its rotation speed, then wrap
      each axis with the margin. Dropping below `-100` jumps to the far edge
      plus 100; passing the far edge plus 100 jumps to `-100`. */
  function Move(e: Element, w: nat, h: nat): (q: Element)
    ensures InBand(q, w, h)
    ensures q == e.(x := q.x, y := q.y, rotation := q.rotation)
    ensures q.rotation == e.rotation + e.rotationSpeed
    ensures -Margin <= e.x + e.vx <= w as real + Margin ==> q.x == e.x + e.vx
    ensures -Margin <= e.y + e.vy <= h as real + Margin ==> q.y == e.y + e.vy
    ensures e.x + e.vx < -Margin ==> q.x == w as real + Margin
    ensures e.x + e.vx > w as real + Margin ==> q.x == -Margin
    ensures e.y + e.vy < -Margin ==> q.y == h as real + Margin
    ensures e.y + e.vy > h as real + Margin ==> q.y == -Margin
  {
    e.(x := Wrap(e.x + e.vx, -Margin, w as real + Margin),
       y := Wrap(e.y + e.vy, -Margin, h as real + Margin),
       rotation := e.rotation + e.rotationSpeed)
  }

  /** The running engine: theme, canvas size and the live batch. */
  datatype Engine = Engine(theme: Theme, width: nat, height: nat, elements: seq<Element>)

  /** A full batch of live elements for the engine's theme and size. */
  predicate Inv(e: Engine) {
    var cfg := ConfigFor(e.theme);
    |e.elements| == cfg.count
    && forall i :: 0 <= i < |e.elements| ==> Live(e.elements[i], cfg, e.width, e.height)
  }

  /** Mounting, or re-running the effect after a theme change: a full batch,
      every element on the canvas rather than merely within the margin. */
  function Start(theme: Theme, w: nat, h: nat, ds: seq<Draw>): (e: Engine)
    requires |ds| == ConfigFor(theme).count && ValidDraws(ds)
    ensures e.theme == theme && e.width == w && e.height == h
    ensures Inv(e)
    ensures forall i :: 0 <= i < |e.elements| ==> OnCanvas(e.elements[i], w, h)
  {
    Engine(theme, w, h, Batch(ConfigFor(theme), w, h, ds))
  }

  /** `handleResize`: new canvas size, and a batch re-created in full. */
  function Resize(e: Engine, w: nat, h: nat, ds: seq<Draw>): (r: Engine)
    requires |ds| == ConfigFor(e.theme).count && ValidDraws(ds)
    ensures r.theme == e.theme && r.width == w && r.height == h
    ensures Inv(r)
    ensures Inv(e) ==> |r.elements| == |e.elements|
    ensures forall i :: 0 <= i < |r.elements| ==> OnCanvas(r.elements[i], w, h)
  {
    Start(e.theme, w, h, ds)
  }

  /** One animation frame's update of every element. */
  function Frame(e: Engine): (r: Engine)
    ensures r.theme == e.theme && r.width == e.width && r.height == e.height
    ensures |r.elements| == |e.elements|
    ensures forall i :: 0 <= i < |r.elements| ==> r.elements[i] == Move(e.elements[i], e.width, e.height)
    ensures Inv(e) ==> Inv(r)
  {
    e.(elements := seq(|e.elements|, i requires 0 <= i < |e.elements| => Move(e.elements[i], e.width, e.height)))
  }

  function Frames(e: Engine, n: nat): Engine
    decreases n
  {
    if n == 0 then e else Frames(Frame(e), n - 1)
  }

  /** However many frames run, the batch keeps its size, every element stays
      within the margin band, its rotation has advanced by `n` times its
      rotation speed, and its velocity, size, opacity and shape never change. */
  lemma {:induction false} FramesKeepInvariant(e: Engine, n: nat)
    requires Inv(e)
    ensures var r := Frames(e, n);
            && Inv(r) && r.theme == e.theme && r.width == e.width && r.height == e.height
            && |r.elements| == |e.elements|
            && forall i :: 0 <= i < |r.elements| ==>
                 && r.elements[i] == e.elements[i].(x := r.elements[i].x, y := r.elements[i].y,
                                                    rotation := r.elements[i].rotation)
                 && r.elements[i].rotation == e.elements[i].rotation + n as real * e.elements[i].rotationSpeed
    decreases n
  {
    if n > 0 {
      var f := Frame(e);
      FramesKeepInvariant(f, n - 1);
      var r := Frames(e, n);
      forall i | 0 <= i < |r.elements|
        ensures r.elements[i].rotation == e.elements[i].rotation + n as real * e.elements[i].rotationSpeed
      {
        assert f.elements[i].rotation == e.elements[i].rotation + e.elements[i].rotationSpeed;
        assert f.elements[i].rotationSpeed == e.elements[i].rotationSpeed;
      }
    }
  }

  /** The colours `drawElement` picks in one frame, one fresh draw per element:
      any colour of the row may come up, but never one outside it. */
  function FrameColors(cfg: Config, picks: seq<real>): (cs: seq<string>)
    requires |cfg.colors| > 0
    requires forall i :: 0 <= i < |picks| ==> IsUnit(picks[i])
    ensures |cs| == |picks|
    ensures forall i :: 0 <= i < |cs| ==> cs[i] in cfg.colors
  {
    seq(|picks|, i requires 0 <= i < |picks| => Pick(cfg.colors, picks[i]))
  }

  /** Every colour of a row is reachable: the pick `i / n` selects entry `i`. */
  lemma EveryColorReachable(cfg: Config, i: nat)
    requires i < |cfg.colors|
    ensures IsUnit(i as real / |cfg.colors| as real)
    ensures Pick(cfg.colors, i as real / |cfg.colors| as real) == cfg.colors[i]
  {
    var n := |cfg.colors| as real;
    var r := i as real / n;
    assert r * n == i as real;
    assert FloorIndex(r, |cfg.colors|) == i;
  }
}
