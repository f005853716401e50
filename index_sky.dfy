/** The older star-field canvas of index.tsx (`ConstellationBackground`): three
    hand-placed constellations stroked without a bounds check, 200 background
    stars created once per effect run, and a shooting-star pool with cap 3 and
    decay 0.98. */
module IndexSky {
  import opened Draws
  import opened Projection
  import opened StarCatalog
  import opened ShootingStars

  /** A star of `CONSTELLATIONS`, in canvas pixels; `name` is optional in the source. */
  datatype Label = Unnamed | Named(name: string)
  datatype FigureStar = FigureStar(x: real, y: real, size: real, title: Label)
  datatype Figure = Figure(name: string, stars: seq<FigureStar>, lines: seq<Edge>)

  function OrionFigure(): Figure {
    Figure("Orion",
      [ FigureStar(300.0, 100.0, 4.0, Named("Betelgeuse")),
        FigureStar(400.0, 100.0, 3.0, Named("Bellatrix")),
        FigureStar(320.0, 200.0, 2.0, Unnamed),
        FigureStar(350.0, 220.0, 2.0, Unnamed),
        FigureStar(380.0, 200.0, 2.0, Unnamed),
        FigureStar(300.0, 350.0, 3.0, Named("Saiph")),
        FigureStar(400.0, 350.0, 4.0, Named("Rigel")) ],
      [ Edge(0, 2), Edge(2, 3), Edge(3, 4), Edge(4, 1), Edge(2, 5), Edge(4, 6) ])
  }

  function UrsaMajorFigure(): Figure {
    Figure("Ursa Major",
      [ FigureStar(100.0, 200.0, 2.0, Unnamed),
        FigureStar(150.0, 180.0, 2.0, Unnamed),
        FigureStar(200.0, 190.0, 2.0, Unnamed),
        FigureStar(250.0, 210.0, 2.0, Unnamed),
        FigureStar(240.0, 280.0, 2.0, Unnamed),
        FigureStar(300.0, 300.0, 2.0, Unnamed),
        FigureStar(350.0, 280.0, 2.0, Unnamed) ],
      [ Edge(0, 1), Edge(1, 2), Edge(2, 3), Edge(3, 4), Edge(4, 5), Edge(5, 6), Edge(3, 6) ])
  }

  function ScorpiusFigure(): Figure {
    Figure("Scorpius",
      [ FigureStar(550.0, 50.0, 2.0, Unnamed),
        FigureStar(520.0, 100.0, 2.0, Unnamed),
        FigureStar(500.0, 150.0, 2.0, Unnamed),
        FigureStar(480.0, 200.0, 4.0, Named("Antares")),
        FigureStar(460.0, 250.0, 2.0, Unnamed),
        FigureStar(440.0, 300.0, 2.0, Unnamed),
        FigureStar(420.0, 350.0, 2.0, Unnamed) ],
      [ Edge(0, 1), Edge(1, 2), Edge(2, 3), Edge(3, 4), Edge(4, 5), Edge(5, 6) ])
  }

  /** `Object.values(CONSTELLATIONS)`, in insertion order. */
  function Figures(): seq<Figure> {
    [OrionFigure(), UrsaMajorFigure(), ScorpiusFigure()]
  }

  /** A stroked line from one star's centre to another's. */
  datatype Segment = Segment(from: Point, to: Point)

  /** The outcome of the line pass over one constellation: `constellation.stars[i]`
      is read with no bounds check, so an index past the end yields `undefined`
      and reading its `.x` throws before the next frame is requested, which
      stops the animation loop. */
  datatype LinePass = Thrown | Stroked(segments: seq<Segment>)

  function Centre(s: FigureStar): Point {
    Point(s.x, s.y)
  }

  /** `lines.forEach(([start, end]) => stroke(stars[start], stars[end]))`: every
      edge is stroked in order exactly when every index is in bounds, and the
      pass throws otherwise. */
  function StrokeLines(stars: seq<FigureStar>, lines: seq<Edge>): (r: LinePass)
    ensures r.Stroked? <==> forall k :: 0 <= k < |lines| ==> EdgeInBounds(lines[k], |stars|)
    ensures r.Stroked? ==> |r.segments| == |lines|
    ensures r.Stroked? ==> forall k :: 0 <= k < |lines| ==>
      r.segments[k] == Segment(Centre(stars[lines[k].from]), Centre(stars[lines[k].to]))
  {
    if lines == [] then Stroked([])
    else if !EdgeInBounds(lines[0], |stars|) then Thrown
    else match StrokeLines(stars, lines[1..])
      case Thrown => Thrown
      case Stroked(rest) =>
        Stroked([Segment(Centre(stars[lines[0].from]), Centre(stars[lines[0].to]))] + rest)
  }

  /** Each of the three constellations has seven stars, every edge index is
      below seven, so the unguarded line pass strokes every edge and never throws. */
  lemma FiguresNeverThrow()
    ensures forall i :: 0 <= i < |Figures()| ==> |Figures()[i].stars| == 7
    ensures forall i :: 0 <= i < |Figures()| ==>
      StrokeLines(Figures()[i].stars, Figures()[i].lines).Stroked?
    ensures forall i :: 0 <= i < |Figures()| ==>
      |StrokeLines(Figures()[i].stars, Figures()[i].lines).segments| == |Figures()[i].lines|
  {
    var fs := Figures();
    forall i | 0 <= i < |fs|
      ensures forall k :: 0 <= k < |fs[i].lines| ==> EdgeInBounds(fs[i].lines[k], |fs[i].stars|)
    {
    }
  }

  /** The five `Math.random()` results one background star consumes, in call order. */
  datatype BackgroundDraw = BackgroundDraw(x: real, y: real, size: real, brightness: real, twinkle: real)

  predicate IsBackgroundDraw(d: BackgroundDraw) {
    IsDraw(d.x) && IsDraw(d.y) && IsDraw(d.size) && IsDraw(d.brightness) && IsDraw(d.twinkle)
  }

  /** The four `Math.random()` results `createShootingStar` consumes, in call order. */
  datatype SpawnDraw = SpawnDraw(x: real, vx: real, vy: real, length: real)

  predicate IsSpawnDraw(d: SpawnDraw) {
    IsDraw(d.x) && IsDraw(d.vx) && IsDraw(d.vy) && IsDraw(d.length)
  }

  /** An entry of `starsRef.current`. */
  datatype BackgroundStar = BackgroundStar(x: real, y: real, size: real, brightness: real, twinkleSpeed: real)

  const BackgroundStarCount: nat := 200
  const MaxShootingStars: nat := 3
  const SpawnChance: real := 0.01
  const Decay: real := 0.98

  function NewBackgroundStar(d: BackgroundDraw, width: real, height: real): BackgroundStar
    requires IsBackgroundDraw(d)
  {
    BackgroundStar(Scaled(d.x, width), Scaled(d.y, height), d.size * 2.0, d.brightness,
                   0.02 + d.twinkle * 0.03)
  }

  /** `Array.from({ length: n }, makeStar)`: the i-th star from the i-th draws. */
  function BackgroundStars(ds: seq<BackgroundDraw>, width: real, height: real): seq<BackgroundStar>
    requires forall k :: 0 <= k < |ds| ==> IsBackgroundDraw(ds[k])
  {
    seq(|ds|, i requires 0 <= i < |ds| => NewBackgroundStar(ds[i], width, height))
  }

  /** A background star on a `width` x `height` canvas, with size in [0, 2),
      brightness in [0, 1) and twinkle speed in [0.02, 0.05). */
  predicate BackgroundStarInRange(s: BackgroundStar, width: real, height: real) {
    && 0.0 <= s.x <= width && 0.0 <= s.y <= height
    && 0.0 <= s.size < 2.0
    && 0.0 <= s.brightness < 1.0
    && 0.02 <= s.twinkleSpeed < 0.05
  }

  /** An effect run creates exactly 200 stars, each in range for the canvas it was created on. */
  lemma BackgroundLayer(w: nat, h: nat, ds: seq<BackgroundDraw>)
    requires |ds| == BackgroundStarCount && forall k :: 0 <= k < |ds| ==> IsBackgroundDraw(ds[k])
    ensures |BackgroundStars(ds, w as real, h as real)| == 200
    ensures var stars := BackgroundStars(ds, w as real, h as real);
      forall k :: 0 <= k < |stars| ==> BackgroundStarInRange(stars[k], w as real, h as real)
  {
  }

  /** `createShootingStar`: enters above the top edge at full opacity, moving
      down and to the left. */
  function NewShootingStar(width: real, d: SpawnDraw): ShootingStar
    requires IsSpawnDraw(d)
  {
    ShootingStar(Scaled(d.x, width), -50.0, -1.0 - d.vx * 2.0, 2.0 + d.vy * 3.0,
                 50.0 + d.length * 50.0, 1.0, true)
  }

  /** A new shooting star has y = -50, opacity 1, vx in (-3, -1], vy in [2, 5),
      trail length in [50, 100) and x on the canvas. */
  lemma NewShootingStarRanges(width: real, d: SpawnDraw)
    requires IsSpawnDraw(d) && width >= 0.0
    ensures var s := NewShootingStar(width, d);
      && s.y == -50.0 && s.active && s.opacity == 1.0
      && -3.0 < s.vx <= -1.0
      && 2.0 <= s.vy < 5.0
      && 50.0 <= s.length < 100.0
      && 0.0 <= s.x <= width
  {
  }

  /** A shooting star as the pool of this canvas keeps it. */
  predicate PoolMember(s: ShootingStar) {
    FallingLive(s, 2.0)
  }

  class BackgroundCanvas {
    var width: nat
    var height: nat
    var stars: seq<BackgroundStar>
    var shootingStars: seq<ShootingStar>
    var frame: nat

    /** The pool holds at most three stars, each live and falling at least 2 px a frame. */
    ghost predicate Valid()
      reads this
    {
      && |shootingStars| <= MaxShootingStars
      && forall k :: 0 <= k < |shootingStars| ==> PoolMember(shootingStars[k])
    }

    /** The refs as the component first renders them. */
    constructor ()
      ensures Valid()
      ensures stars == [] && shootingStars == [] && frame == 0
    {
      width, height := 0, 0;
      stars, shootingStars, frame := [], [], 0;
    }

    /** One run of the effect: size the canvas to the window and replace the
        background stars by 200 new ones. The pool and the frame count, held
        in refs, carry over from any earlier run. */
    method RunEffect(w: nat, h: nat, draws: seq<BackgroundDraw>)
      requires Valid()
      requires |draws| == BackgroundStarCount && forall k :: 0 <= k < |draws| ==> IsBackgroundDraw(draws[k])
      modifies this
      ensures Valid()
      ensures width == w && height == h
      ensures stars == BackgroundStars(draws, w as real, h as real)
      ensures shootingStars == old(shootingStars) && frame == old(frame)
    {
      Resize(w, h);
      stars := BackgroundStars(draws, w as real, h as real);
    }

    /** `resizeCanvas`: only the canvas size changes; the background stars are
        neither regenerated nor rescaled. */
    method Resize(w: nat, h: nat)
      requires Valid()
      modifies this
      ensures Valid()
      ensures width == w && height == h
      ensures stars == old(stars) && shootingStars == old(shootingStars) && frame == old(frame)
    {
      width, height := w, h;
    }

    /** One `animate` frame, drawing left out: with probability 0.01 and room
        in the pool, one new shooting star; then the pool is advanced one step
        (decay 0.98) and the frame count goes up by one. */
    method Animate(spawnRoll: real, spawn: SpawnDraw)
      requires Valid() && IsSpawnDraw(spawn)
      modifies this
      ensures Valid()
      ensures shootingStars == Advanced(
        TrySpawn(old(shootingStars), MaxShootingStars, SpawnChance, spawnRoll,
                 NewShootingStar(width as real, spawn)),
        Decay, height as real)
      ensures frame == old(frame) + 1
      ensures stars == old(stars) && width == old(width) && height == old(height)
    {
      var pool := shootingStars;
      if spawnRoll < SpawnChance && |pool| < MaxShootingStars {
        NewShootingStarRanges(width as real, spawn);
        pool := pool + [NewShootingStar(width as real, spawn)];
      }
      var survivors := AdvancePool(pool, Decay, height as real);
      SurvivorsKeepFalling(pool, Decay, height as real, 2.0);
      shootingStars := survivors;
      frame := frame + 1;
    }
  }

  /** Once spawning stops, a pool of members is empty after `DrainBound` frames. */
  lemma PoolEmptiesWithoutSpawns(pool: seq<ShootingStar>, height: real, n: nat)
    requires forall k :: 0 <= k < |pool| ==> PoolMember(pool[k])
    requires n >= DrainBound(pool, height)
    ensures AdvancedTimes(pool, Decay, height, n) == []
  {
    PoolDrains(pool, Decay, height, n);
  }

  /** `Math.sin(frame * speed) * 0.5 + 0.5`: with the sine in [-1, 1], in [0, 1]. */
  function Twinkle(sine: real): (t: real)
    requires -1.0 <= sine <= 1.0
    ensures 0.0 <= t <= 1.0
    ensures sine == 1.0 ==> t == 1.0
    ensures sine == -1.0 ==> t == 0.0
  {
    sine * 0.5 + 0.5
  }

  lemma ScaledBelowOne(b: real, t: real)
    requires 0.0 <= b < 1.0 && 0.0 <= t <= 1.0
    ensures 0.0 <= b * t < 1.0
  {
    assert b * (1.0 - t) >= 0.0;
  }

  /** The background-star fill alpha `brightness * twinkle * 0.8`: for a
      brightness in [0, 1) it lies in [0, 0.8), reaching 0 at the trough of
      the sine and 80% of the brightness at its crest. */
  function FillAlpha(brightness: real, sine: real): (a: real)
    requires 0.0 <= brightness < 1.0 && -1.0 <= sine <= 1.0
    ensures 0.0 <= a < 0.8
    ensures sine == -1.0 ==> a == 0.0
    ensures sine == 1.0 ==> a == brightness * 0.8
  {
    var t := Twinkle(sine);
    ScaledBelowOne(brightness, t);
    brightness * t * 0.8
  }
}
