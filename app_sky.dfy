/** The star-field canvas of src/App.tsx (`ConstellationBackground`): a reseed
    step that lays out the catalog stars, 300 field stars and three nebulae for
    a canvas size, and a frame step that may add a shooting star (cap 2) and
    advances the shooting-star pool (decay 0.985). */
module AppSky {
  import opened Draws
  import opened Projection
  import opened StarCatalog
  import opened HexAlpha
  import opened ShootingStars

  datatype Option<T> = None | Some(value: T)

  /** An entry of `starsRef.current`. */
  datatype SkyStar = SkyStar(
    x: real, y: real,
    size: real,
    brightness: real,
    twinkleSpeed: real,
    spectralClass: string
  )

  /** An entry of `nebulaeRef.current`. */
  datatype Nebula = Nebula(x: real, y: real, radius: real, opacity: real, color: string)

  /** The six `Math.random()` results one field star consumes, in call order. */
  datatype FieldDraw = FieldDraw(x: real, y: real, size: real, brightness: real, twinkle: real, spectral: real)

  predicate IsFieldDraw(d: FieldDraw) {
    IsDraw(d.x) && IsDraw(d.y) && IsDraw(d.size) && IsDraw(d.brightness) && IsDraw(d.twinkle) && IsDraw(d.spectral)
  }

  /** The five `Math.random()` results `createShootingStar` consumes, in call order. */
  datatype SpawnDraw = SpawnDraw(x: real, vx: real, vy: real, length: real, opacity: real)

  predicate IsSpawnDraw(d: SpawnDraw) {
    IsDraw(d.x) && IsDraw(d.vx) && IsDraw(d.vy) && IsDraw(d.length) && IsDraw(d.opacity)
  }

  const FieldStarCount: nat := 300
  const FieldClasses: seq<string> := ["A", "F", "G", "K", "M"]
  const MaxShootingStars: nat := 2
  const SpawnChance: real := 0.008
  const Decay: real := 0.985

  /** `Math.max(0.1, 1 - magnitude / 6)`: brighter (lower-magnitude) stars get
      more brightness, floored at 0.1 from magnitude 5.4 on. */
  function CatalogBrightness(magnitude: real): (b: real)
    ensures b >= 0.1
    ensures magnitude >= 0.0 ==> b <= 1.0
    ensures magnitude <= 5.4 ==> b == 1.0 - magnitude / 6.0
    ensures magnitude >= 5.4 ==> b == 0.1
  {
    var linear := 1.0 - magnitude / 6.0;
    if 0.1 < linear then linear else 0.1
  }

  /** A catalog star placed on a `width` x `height` canvas, with its twinkle draw. */
  function ProjectedStar(s: CatalogStar, width: real, height: real, twinkleDraw: real): SkyStar {
    var p := CelestialToScreen(s.rightAscension, s.declination, width, height);
    SkyStar(p.x, p.y, MagnitudeSize(s.magnitude), CatalogBrightness(s.magnitude),
            0.01 + twinkleDraw * 0.02, s.spectralClass)
  }

  function ProjectedStars(stars: seq<CatalogStar>, width: real, height: real, draws: seq<real>): seq<SkyStar>
    requires |draws| == |stars|
  {
    seq(|stars|, i requires 0 <= i < |stars| => ProjectedStar(stars[i], width, height, draws[i]))
  }

  /** One background field star. */
  function FieldStar(d: FieldDraw, width: real, height: real): SkyStar
    requires IsFieldDraw(d)
  {
    SkyStar(Scaled(d.x, width), Scaled(d.y, height), d.size * 1.5 + 0.5, d.brightness * 0.3 + 0.1,
            0.005 + d.twinkle * 0.015, FieldClasses[Pick(d.spectral, |FieldClasses|)])
  }

  function FieldStars(ds: seq<FieldDraw>, width: real, height: real): seq<SkyStar>
    requires forall k :: 0 <= k < |ds| ==> IsFieldDraw(ds[k])
  {
    seq(|ds|, i requires 0 <= i < |ds| => FieldStar(ds[i], width, height))
  }

  /** The three nebulae at fixed fractions of the canvas. */
  function Nebulae(width: real, height: real): seq<Nebula> {
    [ Nebula(width * 0.3, height * 0.2, 80.0, 0.1, "#ff6b6b"),
      Nebula(width * 0.7, height * 0.6, 60.0, 0.08, "#4ecdc4"),
      Nebula(width * 0.1, height * 0.8, 100.0, 0.06, "#ffe66d") ]
  }

  /** `createShootingStar`: enters above the top edge, moving down and to the left. */
  function NewShootingStar(width: real, d: SpawnDraw): ShootingStar
    requires IsSpawnDraw(d)
  {
    ShootingStar(Scaled(d.x, width), -50.0, -2.0 - d.vx * 3.0, 3.0 + d.vy * 4.0,
                 60.0 + d.length * 80.0, 0.8 + d.opacity * 0.2, true)
  }

  /** A new shooting star has y = -50, opacity in [0.8, 1), vx in (-5, -2],
      vy in [3, 7), trail length in [60, 140) and x on the canvas. */
  lemma NewShootingStarRanges(width: real, d: SpawnDraw)
    requires IsSpawnDraw(d) && width >= 0.0
    ensures var s := NewShootingStar(width, d);
      && s.y == -50.0 && s.active
      && 0.8 <= s.opacity < 1.0
      && -5.0 < s.vx <= -2.0
      && 3.0 <= s.vy < 7.0
      && 60.0 <= s.length < 140.0
      && 0.0 <= s.x <= width
  {
  }

  /** A shooting star as the pool of this canvas keeps it. */
  predicate PoolMember(s: ShootingStar) {
    FallingLive(s, 3.0)
  }

  lemma {:induction false} AllStarsSplit(cs: seq<ConstellationData>, c: nat)
    requires c <= |cs|
    ensures AllStars(cs) == AllStars(cs[..c]) + AllStars(cs[c..])
    decreases c
  {
    if c == 0 {
      assert cs[..0] == [] && cs[0..] == cs;
    } else {
      AllStarsSplit(cs[1..], c - 1);
      assert cs[..c][0] == cs[0] && cs[..c][1..] == cs[1..][..c - 1];
      assert cs[c..] == cs[1..][c - 1..];
    }
  }

  /** The nested `forEach` over the constellations and their stars: one
      projected star per catalog star, in visiting order, the k-th with the
      k-th twinkle draw. */
  method ProjectConstellations(cs: seq<ConstellationData>, width: real, height: real, twinkleDraws: seq<real>)
    returns (projected: seq<SkyStar>)
    requires |twinkleDraws| == |AllStars(cs)|
    ensures projected == ProjectedStars(AllStars(cs), width, height, twinkleDraws)
  {
    ghost var all := AllStars(cs);
    projected := [];
    var c := 0;
    while c < |cs|
      invariant 0 <= c <= |cs|
      invariant |projected| == |AllStars(cs[..c])| <= |all|
      invariant forall k :: 0 <= k < |projected| ==>
        projected[k] == ProjectedStar(all[k], width, height, twinkleDraws[k])
    {
      AllStarsSplit(cs, c);
      ghost var before := AllStars(cs[..c]);
      var members := cs[c].stars;
      assert AllStars(cs[c..]) == members + AllStars(cs[c + 1..]) by {
        assert cs[c..][0] == cs[c] && cs[c..][1..] == cs[c + 1..];
      }
      var j := 0;
      while j < |members|
        invariant 0 <= j <= |members|
        invariant |projected| == |before| + j
        invariant forall k :: 0 <= k < |projected| ==>
          projected[k] == ProjectedStar(all[k], width, height, twinkleDraws[k])
      {
        var k := |projected|;
        assert all[k] == members[j];
        projected := projected + [ProjectedStar(members[j], width, height, twinkleDraws[k])];
        j := j + 1;
      }
      AllStarsAppend(cs[..c], cs[c]);
      assert cs[..c + 1] == cs[..c] + [cs[c]];
      c := c + 1;
      AllStarsSplit(cs, c);
    }
    assert cs[..c] == cs;
  }

  /** The field-star loop of `resizeCanvas`: one field star per draw, appended
      in draw order after the stars already laid out. */
  method AppendFieldStars(projected: seq<SkyStar>, fieldDraws: seq<FieldDraw>, width: real, height: real)
    returns (all: seq<SkyStar>)
    requires forall k :: 0 <= k < |fieldDraws| ==> IsFieldDraw(fieldDraws[k])
    ensures all == projected + FieldStars(fieldDraws, width, height)
  {
    all := projected;
    var n := |projected|;
    var i := 0;
    while i < |fieldDraws|
      invariant 0 <= i <= |fieldDraws|
      invariant |all| == n + i && all[..n] == projected
      invariant forall k :: 0 <= k < i ==> all[n + k] == FieldStar(fieldDraws[k], width, height)
    {
      all := all + [FieldStar(fieldDraws[i], width, height)];
      i := i + 1;
    }
    ghost var field := FieldStars(fieldDraws, width, height);
    assert forall k :: n <= k < |all| ==> all[k] == (projected + field)[k];
  }

  class ConstellationCanvas {
    var width: nat
    var height: nat
    var stars: seq<SkyStar>
    var nebulae: seq<Nebula>
    var shootingStars: seq<ShootingStar>
    var frame: nat

    /** The pool holds at most two stars, each live and falling at least 3 px a frame. */
    ghost predicate Valid()
      reads this
    {
      && |shootingStars| <= MaxShootingStars
      && forall k :: 0 <= k < |shootingStars| ==> PoolMember(shootingStars[k])
    }

    /** The refs as the component first renders them. */
    constructor ()
      ensures Valid()
      ensures stars == [] && nebulae == [] && shootingStars == [] && frame == 0
    {
      width, height := 0, 0;
      stars, nebulae, shootingStars, frame := [], [], [], 0;
    }

    /** `resizeCanvas`: takes the window size, projects every catalog star (one
        twinkle draw each, in catalog order), appends 300 field stars and
        replaces the nebulae. The shooting stars and the frame count are untouched. */
    method ResizeCanvas(w: nat, h: nat, twinkleDraws: seq<real>, fieldDraws: seq<FieldDraw>)
      requires Valid()
      requires |twinkleDraws| == |AllStars(Catalog())|
      requires |fieldDraws| == FieldStarCount && forall k :: 0 <= k < |fieldDraws| ==> IsFieldDraw(fieldDraws[k])
      modifies this
      ensures Valid()
      ensures width == w && height == h
      ensures stars == ProjectedStars(AllStars(Catalog()), w as real, h as real, twinkleDraws)
                     + FieldStars(fieldDraws, w as real, h as real)
      ensures nebulae == Nebulae(w as real, h as real)
      ensures shootingStars == old(shootingStars) && frame == old(frame)
    {
      width, height := w, h;
      var projected := ProjectConstellations(Catalog(), w as real, h as real, twinkleDraws);
      var all := AppendFieldStars(projected, fieldDraws, w as real, h as real);
      stars := all;
      nebulae := Nebulae(w as real, h as real);
    }

    /** One `animate` frame, drawing left out: with probability 0.008 and room
        in the pool, one new shooting star; then the pool is advanced one step
        and the frame count goes up by one. Stars and nebulae are untouched. */
    method Animate(spawnRoll: real, spawn: SpawnDraw)
      requires Valid() && IsSpawnDraw(spawn)
      modifies this
      ensures Valid()
      ensures shootingStars == Advanced(
        TrySpawn(old(shootingStars), MaxShootingStars, SpawnChance, spawnRoll,
                 NewShootingStar(width as real, spawn)),
        Decay, height as real)
      ensures frame == old(frame) + 1
      ensures stars == old(stars) && nebulae == old(nebulae)
      ensures width == old(width) && height == old(height)
    {
      var pool := shootingStars;
      if spawnRoll < SpawnChance && |pool| < MaxShootingStars {
        NewShootingStarRanges(width as real, spawn);
        pool := pool + [NewShootingStar(width as real, spawn)];
      }
      var survivors := AdvancePool(pool, Decay, height as real);
      SurvivorsKeepFalling(pool, Decay, height as real, 3.0);
      shootingStars := survivors;
      frame := frame + 1;
    }
  }

  /** A catalog star in its domain, projected: on the canvas, size in [0.8, 4],
      brightness in [0.1, 1], twinkle speed in [0.01, 0.03), class kept. */
  predicate ProjectedInRange(p: SkyStar, s: CatalogStar, w: real, h: real) {
    && 0.0 <= p.x <= w && 0.0 <= p.y <= h
    && 0.8 <= p.size <= 4.0
    && 0.1 <= p.brightness <= 1.0
    && 0.01 <= p.twinkleSpeed < 0.03
    && p.spectralClass == s.spectralClass
  }

  lemma ProjectedStarRanges(s: CatalogStar, w: real, h: real, r: real)
    requires InDomain(s) && IsDraw(r) && w >= 0.0 && h >= 0.0
    ensures ProjectedInRange(ProjectedStar(s, w, h, r), s, w, h)
  {
    MagnitudeSizeRange(s.magnitude);
  }

  /** Projecting stars that are all in their domain puts each one on the
      canvas, in range, in the order given. */
  lemma ProjectedLayer(all: seq<CatalogStar>, w: real, h: real, twinkleDraws: seq<real>)
    requires |twinkleDraws| == |all| && AllDraws(twinkleDraws) && w >= 0.0 && h >= 0.0
    requires forall s :: s in all ==> InDomain(s)
    ensures var ps := ProjectedStars(all, w, h, twinkleDraws);
      && |ps| == |all|
      && forall i :: 0 <= i < |all| ==>
        && ps[i].x == CelestialToScreen(all[i].rightAscension, all[i].declination, w, h).x
        && ps[i].y == CelestialToScreen(all[i].rightAscension, all[i].declination, w, h).y
        && ProjectedInRange(ps[i], all[i], w, h)
  {
    var ps := ProjectedStars(all, w, h, twinkleDraws);
    forall i | 0 <= i < |all|
      ensures ProjectedInRange(ps[i], all[i], w, h)
    {
      assert all[i] in all;
      ProjectedStarRanges(all[i], w, h, twinkleDraws[i]);
    }
  }

  /** After `resizeCanvas` the list starts with the 36 catalog stars, in
      catalog order, each at its projected position and in range. */
  lemma CatalogLayer(w: nat, h: nat, twinkleDraws: seq<real>)
    requires |twinkleDraws| == |AllStars(Catalog())| && AllDraws(twinkleDraws)
    ensures |AllStars(Catalog())| == 36
    ensures var all := AllStars(Catalog());
      forall i :: 0 <= i < |all| ==>
        ProjectedInRange(ProjectedStars(all, w as real, h as real, twinkleDraws)[i], all[i], w as real, h as real)
  {
    CatalogStarCount();
    CatalogWellFormed();
    ProjectedLayer(AllStars(Catalog()), w as real, h as real, twinkleDraws);
  }

  /** A field star lies on the canvas, has size in [0.5, 2), brightness in
      [0.1, 0.4), twinkle speed in [0.005, 0.02) and a class among A, F, G, K, M. */
  predicate FieldStarInRange(s: SkyStar, w: real, h: real) {
    && 0.0 <= s.x <= w && 0.0 <= s.y <= h
    && 0.5 <= s.size < 2.0
    && 0.1 <= s.brightness < 0.4
    && 0.005 <= s.twinkleSpeed < 0.02
    && s.spectralClass in FieldClasses
  }

  lemma FieldLayer(w: nat, h: nat, fieldDraws: seq<FieldDraw>)
    requires forall k :: 0 <= k < |fieldDraws| ==> IsFieldDraw(fieldDraws[k])
    ensures var fs := FieldStars(fieldDraws, w as real, h as real);
      && |fs| == |fieldDraws|
      && forall i :: 0 <= i < |fs| ==> FieldStarInRange(fs[i], w as real, h as real)
  {
  }

  /** Every field-star class is reachable: draw i / 5 picks class i. */
  lemma FieldClassesReachable(i: nat)
    requires i < |FieldClasses|
    ensures FieldStar(FieldDraw(0.0, 0.0, 0.0, 0.0, 0.0, i as real / 5.0), 0.0, 0.0).spectralClass == FieldClasses[i]
  {
    PickReachesEvery(i, |FieldClasses|);
  }

  /** Two reseeds at one size agree on everything but the random parts: the
      same count, and the same catalog positions, sizes, brightnesses and classes. */
  lemma ReseedShapeIsStable(w: nat, h: nat, t1: seq<real>, t2: seq<real>, f1: seq<FieldDraw>, f2: seq<FieldDraw>)
    requires |t1| == |t2| == |AllStars(Catalog())|
    requires |f1| == |f2| == FieldStarCount
    requires forall k :: 0 <= k < |f1| ==> IsFieldDraw(f1[k])
    requires forall k :: 0 <= k < |f2| ==> IsFieldDraw(f2[k])
    ensures var s1 := ProjectedStars(AllStars(Catalog()), w as real, h as real, t1) + FieldStars(f1, w as real, h as real);
      var s2 := ProjectedStars(AllStars(Catalog()), w as real, h as real, t2) + FieldStars(f2, w as real, h as real);
      && |s1| == |s2|
      && forall i :: 0 <= i < |AllStars(Catalog())| ==>
           s1[i].(twinkleSpeed := 0.0) == s2[i].(twinkleSpeed := 0.0)
  {
  }

  /** The nebulae sit at 30%/20%, 70%/60% and 10%/80% of the canvas, inside it. */
  lemma NebulaePlacement(w: nat, h: nat)
    ensures var ns := Nebulae(w as real, h as real);
      && |ns| == 3
      && forall k :: 0 <= k < 3 ==> 0.0 <= ns[k].x <= w as real && 0.0 <= ns[k].y <= h as real
  {
  }

  /** The centre colour of nebula k gets alpha byte 0x19, 0x14 or 0x0f:
      floor(0.1 * 255), floor(0.08 * 255), floor(0.06 * 255). */
  lemma NebulaAlphas(w: real, h: real, k: nat)
    requires k < 3
    ensures AlphaSuffix(Nebulae(w, h)[k].opacity * 255.0) == ["19", "14", "0f"][k]
  {
    var opacity := Nebulae(w, h)[k].opacity;
    if k == 0 {
      assert (opacity * 255.0).Floor == 25;
      AlphaOfByte(opacity * 255.0, 25, "19");
    } else if k == 1 {
      assert (opacity * 255.0).Floor == 20;
      AlphaOfByte(opacity * 255.0, 20, "14");
    } else {
      assert (opacity * 255.0).Floor == 15;
      AlphaOfByte(opacity * 255.0, 15, "0f");
    }
  }

  lemma AlphaOfByte(v: real, n: nat, digits: string)
    requires v.Floor == n && n < 256
    requires digits == (if n < 16 then "0" else [HexDigits[n / 16]]) + [HexDigits[n % 16]]
    ensures AlphaSuffix(v) == digits
  {
    if n >= 16 {
      assert NatToHex(n / 16) == [HexDigits[n / 16]];
    }
  }

  /** `Math.sin(frame * speed) * 0.3 + 0.7`: with the sine in [-1, 1], in [0.4, 1]. */
  function Twinkle(sine: real): (t: real)
    requires -1.0 <= sine <= 1.0
    ensures 0.4 <= t <= 1.0
  {
    sine * 0.3 + 0.7
  }

  lemma Dimmed(v: real, t: real)
    requires 0.0 <= v && 0.4 <= t <= 1.0
    ensures v * 0.4 <= v * t <= v
  {
    assert v * (1.0 - t) >= 0.0;
    assert v * (t - 0.4) >= 0.0;
  }

  /** `v * twinkle`, as the brightness and the core radius are scaled:
      between 40% and 100% of `v`. */
  function Twinkled(v: real, sine: real): (r: real)
    requires 0.0 <= v && -1.0 <= sine <= 1.0
    ensures v * 0.4 <= r <= v
    ensures sine == 1.0 ==> r == v
  {
    Dimmed(v, Twinkle(sine));
    v * Twinkle(sine)
  }

  /** `base` followed by a two-digit lowercase hex alpha byte. */
  predicate IsAlphaColor(c: string, base: string) {
    |c| == |base| + 2 && c[..|base|] == base && IsHexString(c[|base|..])
  }

  /** `base + Math.floor(v).toString(16).padStart(2, '0')`: a well-formed
      `#rrggbbaa` colour exactly when 0 <= v < 256; three or more digits from
      256 on, and a minus sign in place of the first digit below 0. */
  function WithAlpha(base: string, v: real): (c: string)
    ensures 0.0 <= v < 256.0 ==> IsAlphaColor(c, base) && HexValue(c[|base|..]) == v.Floor
    ensures v >= 256.0 ==> |c| >= |base| + 3
    ensures v < 0.0 ==> !IsAlphaColor(c, base)
  {
    if 0.0 <= v < 256.0 then
      AlphaSuffixTwoDigits(v);
      assert (base + AlphaSuffix(v))[|base|..] == AlphaSuffix(v);
      base + AlphaSuffix(v)
    else if v >= 256.0 then AlphaSuffixOverflows(v); base + AlphaSuffix(v)
    else
      AlphaSuffixNegative(v);
      assert (base + AlphaSuffix(v))[|base|..] == AlphaSuffix(v);
      base + AlphaSuffix(v)
  }

  /** The core colour, alpha `min(255, b * 255)`: well-formed for every b >= 0. */
  function WithCoreAlpha(base: string, b: real): (c: string)
    requires b >= 0.0
    ensures IsAlphaColor(c, base)
  {
    var suffix := CoreAlpha(b);
    assert (base + suffix)[..|base|] == base && (base + suffix)[|base|..] == suffix;
    base + suffix
  }

  /** The colours one star is painted with in a frame. */
  datatype StarPaint = StarPaint(spikes: Option<string>, glowInner: string, glowOuter: string, core: string, coreRadius: real)

  /** One star's drawing: diffraction spikes only for stars larger than 2 px,
      alpha `b * 100`; glow stops at `b * 180` and `b * 60`; a core at
      `min(255, b * 255)` whose radius is the size times the twinkle. */
  function PaintStar(s: SkyStar, sine: real): (p: StarPaint)
    requires 0.0 <= s.brightness && 0.0 <= s.size && -1.0 <= sine <= 1.0
    ensures p.spikes.Some? <==> s.size > 2.0
    ensures s.size * 0.4 <= p.coreRadius <= s.size
  {
    var color := StarColor(s.spectralClass);
    var b := Twinkled(s.brightness, sine);
    StarPaint(
      if s.size > 2.0 then Some(WithAlpha(color, b * 100.0)) else None,
      WithAlpha(color, b * 180.0),
      WithAlpha(color, b * 60.0),
      WithCoreAlpha(color, b),
      Twinkled(s.size, sine))
  }

  /** For any star of the canvas (brightness at most 1.4; catalog and field
      stars stay at or below 1) every colour is the class colour followed by
      a well-formed alpha byte: only the core alpha is clamped, and the others
      stay below 256 without it. */
  lemma PaintWellFormed(s: SkyStar, sine: real)
    requires 0.0 <= s.brightness <= 1.4 && 0.0 <= s.size && -1.0 <= sine <= 1.0
    ensures var p := PaintStar(s, sine);
      var base := StarColor(s.spectralClass);
      && (p.spikes.Some? ==> IsAlphaColor(p.spikes.value, base))
      && IsAlphaColor(p.glowInner, base)
      && IsAlphaColor(p.glowOuter, base)
      && IsAlphaColor(p.core, base)
  {
    var b := Twinkled(s.brightness, sine);
    assert b * 180.0 < 256.0;
  }

  /** A brightness above 256 / 180 (about 1.42) would push the inner-glow alpha
      to three hex digits: the bound of PaintWellFormed is close to tight. */
  lemma GlowOverflowsAboveBound(s: SkyStar)
    requires s.brightness >= 1.5 && 0.0 <= s.size
    ensures |PaintStar(s, 1.0).glowInner| >= |StarColor(s.spectralClass)| + 3
  {
    var b := Twinkled(s.brightness, 1.0);
    assert b * 180.0 >= 256.0;
  }

  /** Sum of the projected x (or y) coordinates of a constellation's stars. */
  function SumX(stars: seq<CatalogStar>, width: real, height: real): real {
    if stars == [] then 0.0
    else SumX(stars[..|stars| - 1], width, height)
         + CelestialToScreen(stars[|stars| - 1].rightAscension, stars[|stars| - 1].declination, width, height).x
  }

  function SumY(stars: seq<CatalogStar>, width: real, height: real): real {
    if stars == [] then 0.0
    else SumY(stars[..|stars| - 1], width, height)
         + CelestialToScreen(stars[|stars| - 1].rightAscension, stars[|stars| - 1].declination, width, height).y
  }

  /** The label anchor of a constellation: the centre of its projected stars,
      accumulated star by star; none for a constellation without stars. */
  method LabelCenter(c: ConstellationData, width: real, height: real) returns (center: Option<Point>)
    ensures c.stars == [] <==> center == None
    ensures center.Some? ==> center.value == Point(SumX(c.stars, width, height) / |c.stars| as real,
                                                   SumY(c.stars, width, height) / |c.stars| as real)
  {
    if |c.stars| == 0 {
      return None;
    }
    var centerX, centerY := 0.0, 0.0;
    var i := 0;
    while i < |c.stars|
      invariant 0 <= i <= |c.stars|
      invariant centerX == SumX(c.stars[..i], width, height)
      invariant centerY == SumY(c.stars[..i], width, height)
    {
      var pos := CelestialToScreen(c.stars[i].rightAscension, c.stars[i].declination, width, height);
      assert c.stars[..i + 1][..i] == c.stars[..i];
      centerX := centerX + pos.x;
      centerY := centerY + pos.y;
      i := i + 1;
    }
    assert c.stars[..i] == c.stars;
    center := Some(Point(centerX / |c.stars| as real, centerY / |c.stars| as real));
  }

  /** One more value in [0, span] keeps a sum of `n` such values within `n + 1` spans. */
  lemma AddWithin(sum: real, x: real, n: nat, span: real)
    requires 0.0 <= sum <= n as real * span && 0.0 <= x <= span
    ensures 0.0 <= sum + x <= (n + 1) as real * span
  {
    assert (n + 1) as real * span == n as real * span + span;
  }

  /** The accumulated x of `n` stars whose right ascension is in [0, 24) lies in [0, n * width]. */
  lemma {:induction false} SumXOnCanvas(stars: seq<CatalogStar>, width: real, height: real)
    requires width >= 0.0
    requires forall k :: 0 <= k < |stars| ==> 0.0 <= stars[k].rightAscension < 24.0
    ensures 0.0 <= SumX(stars, width, height) <= |stars| as real * width
    decreases |stars|
  {
    if stars != [] {
      var n := |stars| - 1;
      var prefix := stars[..n];
      var v := CelestialToScreen(stars[n].rightAscension, stars[n].declination, width, height).x;
      assert 0.0 <= v <= width by {
        assert 0.0 <= stars[n].rightAscension < 24.0;
      }
      forall k | 0 <= k < n
        ensures 0.0 <= prefix[k].rightAscension < 24.0
      {
        assert prefix[k] == stars[k];
      }
      SumXOnCanvas(prefix, width, height);
      AddWithin(SumX(prefix, width, height), v, n, width);
      assert SumX(stars, width, height) == SumX(prefix, width, height) + v;
    }
  }

  /** The accumulated y of `n` stars whose declination is in [-90, 90] lies in [0, n * height]. */
  lemma {:induction false} SumYOnCanvas(stars: seq<CatalogStar>, width: real, height: real)
    requires height >= 0.0
    requires forall k :: 0 <= k < |stars| ==> -90.0 <= stars[k].declination <= 90.0
    ensures 0.0 <= SumY(stars, width, height) <= |stars| as real * height
    decreases |stars|
  {
    if stars != [] {
      var n := |stars| - 1;
      var prefix := stars[..n];
      var v := CelestialToScreen(stars[n].rightAscension, stars[n].declination, width, height).y;
      assert 0.0 <= v <= height by {
        assert -90.0 <= stars[n].declination <= 90.0;
      }
      forall k | 0 <= k < n
        ensures -90.0 <= prefix[k].declination <= 90.0
      {
        assert prefix[k] == stars[k];
      }
      SumYOnCanvas(prefix, width, height);
      AddWithin(SumY(prefix, width, height), v, n, height);
      assert SumY(stars, width, height) == SumY(prefix, width, height) + v;
    }
  }

  lemma MeanWithin(sum: real, n: real, span: real)
    requires n > 0.0 && 0.0 <= sum <= n * span
    ensures 0.0 <= sum / n <= span
  {
    var m := sum / n;
    assert m * n == sum;
    assert (span - m) * n == n * span - sum;
  }

  /** The label anchor of a well-formed constellation with stars lies on the canvas. */
  lemma LabelCenterOnCanvas(c: ConstellationData, width: real, height: real)
    requires WellFormed(c) && width >= 0.0 && height >= 0.0
    ensures 0.0 <= SumX(c.stars, width, height) / |c.stars| as real <= width
    ensures 0.0 <= SumY(c.stars, width, height) / |c.stars| as real <= height
  {
    SumXOnCanvas(c.stars, width, height);
    SumYOnCanvas(c.stars, width, height);
    MeanWithin(SumX(c.stars, width, height), |c.stars| as real, width);
    MeanWithin(SumY(c.stars, width, height), |c.stars| as real, height);
  }

  /** Every catalog constellation has stars, so gets a label, and its label anchor lies on the canvas. */
  lemma CatalogLabelsOnCanvas(i: nat, width: real, height: real)
    requires i < |Catalog()| && width >= 0.0 && height >= 0.0
    ensures var c := Catalog()[i];
      && c.stars != []
      && 0.0 <= SumX(c.stars, width, height) / |c.stars| as real <= width
      && 0.0 <= SumY(c.stars, width, height) / |c.stars| as real <= height
  {
    CatalogWellFormed();
    LabelCenterOnCanvas(Catalog()[i], width, height);
  }
}
