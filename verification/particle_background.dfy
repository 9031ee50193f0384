/** The particle engine behind the page: a batch of drifting dots seeded from
    a per-theme table, moved and wrapped at the viewport edge every frame, and
    joined by faint lines under the neon theme. */
module ParticleBackground {
  import opened Canvas
  import opened ThemeContext

  /** One row of the engine's theme table. */
  datatype Config = Config(count: nat, hues: seq<int>, speed: real, sizeMin: real, sizeMax: real)

  predicate WellFormed(cfg: Config) {
    cfg.count > 0 && |cfg.hues| > 0 && cfg.speed > 0.0 && cfg.sizeMin < cfg.sizeMax
  }

  /** The fallback row (commented as the light theme in the table). */
  const DefaultConfig: Config := Config(40, [45, 42, 38], 0.25, 1.0, 3.0)

  /** The theme table. Only `dark`, `neon` and `zen` have rows of their own;
      every other value, the five declared themes included, gets the default. */
  function ConfigFor(t: Theme): (cfg: Config)
    ensures WellFormed(cfg)
    ensures t == Dark ==> cfg.count == 50
    ensures t == Neon ==> cfg.count == 80
    ensures t == Zen ==> cfg.count == 30
    ensures !(t.Dark? || t.Neon? || t.Zen?) ==> cfg == DefaultConfig && cfg.count == 40
    ensures IsDeclared(t) ==> cfg == DefaultConfig
  {
    match t
    case Dark => Config(50, [280, 285, 270], 0.3, 1.0, 3.0)
    case Neon => Config(80, [180, 165, 120], 0.5, 1.0, 4.0)
    case Zen => Config(30, [120, 110, 350], 0.2, 2.0, 5.0)
    case _ => DefaultConfig
  }

  /** The seven `Math.random()` values one particle consumes, in order. */
  datatype Draw = Draw(x: real, y: real, vx: real, vy: real, size: real, opacity: real, hue: real)

  predicate ValidDraw(d: Draw) {
    IsUnit(d.x) && IsUnit(d.y) && IsUnit(d.vx) && IsUnit(d.vy)
    && IsUnit(d.size) && IsUnit(d.opacity) && IsUnit(d.hue)
  }

  predicate ValidDraws(ds: seq<Draw>) {
    forall i :: 0 <= i < |ds| ==> ValidDraw(ds[i])
  }

  datatype Particle = Particle(x: real, y: real, vx: real, vy: real, size: real, opacity: real, hue: int)

  /** On the canvas, edges included. */
  predicate InView(p: Particle, w: nat, h: nat) {
    0.0 <= p.x <= w as real && 0.0 <= p.y <= h as real
  }

  /** The attributes a particle is created with and keeps while it lives. */
  predicate Shaped(p: Particle, cfg: Config) {
    && -cfg.speed / 2.0 <= p.vx < cfg.speed / 2.0
    && -cfg.speed / 2.0 <= p.vy < cfg.speed / 2.0
    && cfg.sizeMin <= p.size < cfg.sizeMax
    && 0.1 <= p.opacity < 0.6
    && p.hue in cfg.hues
  }

  predicate Live(p: Particle, cfg: Config, w: nat, h: nat) {
    InView(p, w, h) && Shaped(p, cfg)
  }

  /** One particle of a fresh batch. Its position is strictly inside the
      canvas on any side of non-zero length. */
  function NewParticle(cfg: Config, w: nat, h: nat, d: Draw): (p: Particle)
    requires WellFormed(cfg) && ValidDraw(d)
    ensures Live(p, cfg, w, h)
    ensures w > 0 ==> p.x < w as real
    ensures h > 0 ==> p.y < h as real
  {
    Particle(
      Scaled(d.x, w as real), Scaled(d.y, h as real),
      Centred(d.vx, cfg.speed), Centred(d.vy, cfg.speed),
      Spread(d.size, cfg.sizeMin, cfg.sizeMax - cfg.sizeMin),
      Spread(d.opacity, 0.1, 0.5),
      Pick(cfg.hues, d.hue))
  }

  /** A batch: one particle per draw, in draw order. */
  function Batch(cfg: Config, w: nat, h: nat, ds: seq<Draw>): (ps: seq<Particle>)
    requires WellFormed(cfg) && ValidDraws(ds)
    ensures |ps| == |ds|
    ensures forall i :: 0 <= i < |ps| ==> Live(ps[i], cfg, w, h)
  {
    seq(|ds|, i requires 0 <= i < |ds| => NewParticle(cfg, w, h, ds[i]))
  }

  /** `createParticles`: drop the old batch and push `count` new particles. */
  method CreateParticles(theme: Theme, w: nat, h: nat, ds: seq<Draw>) returns (ps: seq<Particle>)
    requires |ds| == ConfigFor(theme).count && ValidDraws(ds)
    ensures |ps| == ConfigFor(theme).count
    ensures forall i :: 0 <= i < |ps| ==> ps[i] == NewParticle(ConfigFor(theme), w, h, ds[i])
    ensures ps == Batch(ConfigFor(theme), w, h, ds)
  {
    var cfg := ConfigFor(theme);
    ps := [];
    var i := 0;
    while i < cfg.count
      invariant 0 <= i <= cfg.count
      invariant |ps| == i
      invariant forall k :: 0 <= k < i ==> ps[k] == NewParticle(cfg, w, h, ds[k])
    {
      ps := ps + [NewParticle(cfg, w, h, ds[i])];
      i := i + 1;
    }
  }

  /** One particle's frame: move by its velocity, then wrap each axis at the
      canvas edge. Nothing but the position changes. */
  function Move(p: Particle, w: nat, h: nat): (q: Particle)
    ensures InView(q, w, h)
    ensures q == p.(x := q.x, y := q.y)
    ensures 0.0 <= p.x + p.vx <= w as real ==> q.x == p.x + p.vx
    ensures 0.0 <= p.y + p.vy <= h as real ==> q.y == p.y + p.vy
    ensures p.x + p.vx < 0.0 ==> q.x == w as real
    ensures p.x + p.vx > w as real ==> q.x == 0.0
    ensures p.y + p.vy < 0.0 ==> q.y == h as real
    ensures p.y + p.vy > h as real ==> q.y == 0.0
  {
    p.(x := Wrap(p.x + p.vx, 0.0, w as real), y := Wrap(p.y + p.vy, 0.0, h as real))
  }

  /** The running engine: theme, canvas size and the live batch. */
  datatype Engine = Engine(theme: Theme, width: nat, height: nat, particles: seq<Particle>)

  /** A full batch of live particles for the engine's theme and size. */
  predicate Inv(e: Engine) {
    var cfg := ConfigFor(e.theme);
    |e.particles| == cfg.count
    && forall i :: 0 <= i < |e.particles| ==> Live(e.particles[i], cfg, e.width, e.height)
  }

  /** Mounting, or re-running the effect after a theme change: size the
      canvas to the window and seed a fresh batch. */
  function Start(theme: Theme, w: nat, h: nat, ds: seq<Draw>): (e: Engine)
    requires |ds| == ConfigFor(theme).count && ValidDraws(ds)
    ensures e.theme == theme && e.width == w && e.height == h
    ensures Inv(e)
  {
    Engine(theme, w, h, Batch(ConfigFor(theme), w, h, ds))
  }

  /** `handleResize`: the canvas takes the new size and the batch is
      re-created in full; the count is that of the unchanged theme. */
  function Resize(e: Engine, w: nat, h: nat, ds: seq<Draw>): (r: Engine)
    requires |ds| == ConfigFor(e.theme).count && ValidDraws(ds)
    ensures r.theme == e.theme && r.width == w && r.height == h
    ensures Inv(r)
    ensures Inv(e) ==> |r.particles| == |e.particles|
  {
    Start(e.theme, w, h, ds)
  }

  /** One animation frame's update of every particle. */
  function Frame(e: Engine): (r: Engine)
    ensures r.theme == e.theme && r.width == e.width && r.height == e.height
    ensures |r.particles| == |e.particles|
    ensures forall i :: 0 <= i < |r.particles| ==> r.particles[i] == Move(e.particles[i], e.width, e.height)
    ensures Inv(e) ==> Inv(r)
  {
    e.(particles := seq(|e.particles|, i requires 0 <= i < |e.particles| => Move(e.particles[i], e.width, e.height)))
  }

  /** `n` frames in a row. */
  function Frames(e: Engine, n: nat): Engine
    decreases n
  {
    if n == 0 then e else Frames(Frame(e), n - 1)
  }

  /** However many frames run, the batch keeps its size, every particle stays
      on the canvas, and velocity, size, opacity and hue never change. */
  lemma {:induction false} FramesKeepInvariant(e: Engine, n: nat)
    requires Inv(e)
    ensures var r := Frames(e, n);
            && Inv(r) && r.theme == e.theme && r.width == e.width && r.height == e.height
            && |r.particles| == |e.particles|
            && forall i :: 0 <= i < |r.particles| ==>
                 r.particles[i] == e.particles[i].(x := r.particles[i].x, y := r.particles[i].y)
    decreases n
  {
    if n > 0 {
      var f := Frame(e);
      FramesKeepInvariant(f, n - 1);
    }
  }

  /** Squared distance between two particles. */
  function Dist2(p: Particle, q: Particle): real {
    (p.x - q.x) * (p.x - q.x) + (p.y - q.y) * (p.y - q.y)
  }

  /** Closer than 100 pixels, stated on the squared distance. */
  predicate Near(p: Particle, q: Particle) {
    Dist2(p, q) < 10000.0
  }

  /** For a distance `d >= 0` whose square is the squared distance (the value
      `Math.sqrt` returns), `d < 100` is exactly `Near`. */
  lemma DistanceRule(p: Particle, q: Particle, d: real)
    requires d >= 0.0 && d * d == Dist2(p, q)
    ensures d < 100.0 <==> Near(p, q)
  {
    if d < 100.0 {
      assert d * d <= d * 100.0 < 100.0 * 100.0;
    } else {
      assert d * d >= d * 100.0 >= 100.0 * 100.0;
    }
  }

  /** The opacity of a connecting line at distance `d`: `(1 - d/100) * 0.2`. */
  function LineAlpha(d: real): (a: real)
    requires 0.0 <= d < 100.0
    ensures 0.0 < a <= 0.2
    ensures d == 0.0 <==> a == 0.2
  {
    (1.0 - d / 100.0) * 0.2
  }

  /** Closer pairs get more opaque lines. */
  lemma LineAlphaDecreasing(d1: real, d2: real)
    requires 0.0 <= d1 <= d2 < 100.0
    ensures LineAlpha(d2) <= LineAlpha(d1)
  {
  }

  /** A line from particle `from` to particle `to`, drawn during a frame. */
  datatype Link = Link(from: nat, to: nat)

  /** The lines drawn from particle `i` (already moved, `a`) to the particles
      `j..` of the batch as it stood before this frame. */
  function PartnersOf(a: Particle, before: seq<Particle>, i: nat, j: nat): (r: seq<Link>)
    requires j <= |before|
    ensures forall l :: l in r <==> l.from == i && j <= l.to < |before| && Near(a, before[l.to])
    decreases |before| - j
  {
    if j == |before| then []
    else (if Near(a, before[j]) then [Link(i, j)] else []) + PartnersOf(a, before, i, j + 1)
  }

  /** The lines drawn from particles `i..`. The frame loop moves particle `i`
      and then compares it with every later particle, which this frame has
      not moved yet. */
  function LinksFrom(moved: seq<Particle>, before: seq<Particle>, i: nat): (r: seq<Link>)
    requires |moved| == |before| && i <= |before|
    ensures forall l :: l in r <==> i <= l.from < l.to < |before| && Near(moved[l.from], before[l.to])
    decreases |before| - i
  {
    if i == |before| then []
    else PartnersOf(moved[i], before, i, i + 1) + LinksFrom(moved, before, i + 1)
  }

  /** The lines drawn during the frame that advances `e`: none outside the
      neon theme; under neon, one per pair `i < j` whose moved `i` is near
      the not-yet-moved `j`. */
  function FrameLinks(e: Engine): (r: seq<Link>)
    ensures e.theme != Neon ==> r == []
    ensures e.theme == Neon ==> forall l :: l in r <==>
              l.from < l.to < |e.particles| && Near(Frame(e).particles[l.from], e.particles[l.to])
  {
    if e.theme == Neon then LinksFrom(Frame(e).particles, e.particles, 0) else []
  }
}
