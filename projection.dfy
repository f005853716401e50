/** The celestial projector of src/App.tsx: a flat linear map from right
    ascension and declination to canvas pixels, magnitude to render size, and
    spectral class to colour. */
module Projection {

  datatype Point = Point(x: real, y: real)

  /** `celestialToScreen`: right ascension (hours, 0..24) becomes the fraction of
      the width, declination (degrees, -90..+90) the fraction of the height,
      measured from the bottom. Every coordinate in that domain lands on the canvas. */
  function CelestialToScreen(ra: real, dec: real, width: real, height: real): (p: Point)
    ensures 0.0 <= ra <= 24.0 && width >= 0.0 ==> 0.0 <= p.x <= width
    ensures -90.0 <= dec <= 90.0 && height >= 0.0 ==> 0.0 <= p.y <= height
  {
    var fx, fy := ra / 24.0, (dec + 90.0) / 180.0;
    assert 0.0 <= ra <= 24.0 && width >= 0.0 ==> 0.0 <= fx * width <= width by {
      if 0.0 <= ra <= 24.0 && width >= 0.0 { FractionOfSpan(fx, width); }
    }
    assert -90.0 <= dec <= 90.0 && height >= 0.0 ==> 0.0 <= fy * height <= height by {
      if -90.0 <= dec <= 90.0 && height >= 0.0 { FractionOfSpan(fy, height); }
    }
    Point(fx * width, height - fy * height)
  }

  lemma FractionOfSpan(f: real, span: real)
    requires 0.0 <= f <= 1.0 && span >= 0.0
    ensures 0.0 <= f * span <= span
  {
    assert (1.0 - f) * span >= 0.0;
  }

  /** The map is proportional: x is to the width as right ascension is to 24 h,
      and the distance from the bottom edge is to the height as the declination
      above -90 deg is to 180 deg. */
  lemma ProjectionIsProportional(ra: real, dec: real, width: real, height: real)
    ensures CelestialToScreen(ra, dec, width, height).x * 24.0 == ra * width
    ensures (height - CelestialToScreen(ra, dec, width, height).y) * 180.0 == (dec + 90.0) * height
  {
  }

  /** The anchors of the map: the north pole is the top edge, the south pole the
      bottom edge, right ascension 0 the left edge and 24 h the right edge. */
  lemma ProjectionAnchors(ra: real, dec: real, width: real, height: real)
    ensures CelestialToScreen(ra, 90.0, width, height).y == 0.0
    ensures CelestialToScreen(ra, -90.0, width, height).y == height
    ensures CelestialToScreen(0.0, dec, width, height).x == 0.0
    ensures CelestialToScreen(24.0, dec, width, height).x == width
  {
  }

  /** Larger right ascension is further right and larger declination is higher
      up (smaller y) on any canvas of non-negative size. */
  lemma ProjectionMonotone(ra1: real, ra2: real, dec1: real, dec2: real, width: real, height: real)
    requires ra1 <= ra2 && dec1 <= dec2 && width >= 0.0 && height >= 0.0
    ensures CelestialToScreen(ra1, dec1, width, height).x <= CelestialToScreen(ra2, dec2, width, height).x
    ensures CelestialToScreen(ra1, dec1, width, height).y >= CelestialToScreen(ra2, dec2, width, height).y
  {
    assert (ra2 - ra1) * width >= 0.0;
    assert (dec2 - dec1) * height >= 0.0;
  }

  /** Betelgeuse (5.92 h, +7.41 deg) on a 1000 x 1000 canvas: x = 246.67, y = 458.83. */
  lemma BetelgeuseOnSquareCanvas()
    ensures CelestialToScreen(5.92, 7.41, 1000.0, 1000.0) == Point(740.0 / 3.0, 2753.0 / 6.0)
  {
  }

  /** `getMagnitudeSize`: the magnitude shifted by 1.5 and clamped to [0, 8]. */
  function NormalizedMagnitude(magnitude: real): (n: real)
    ensures 0.0 <= n <= 8.0
    ensures -1.5 <= magnitude <= 6.5 ==> n == magnitude + 1.5
  {
    var shifted := magnitude + 1.5;
    var capped := if 8.0 < shifted then 8.0 else shifted;
    if 0.0 < capped then capped else 0.0
  }

  /** `getMagnitudeSize`: `max(0.5, 4 - 0.4 * normalized)`. */
  function MagnitudeSize(magnitude: real): (size: real)
  {
    var linear := 4.0 - NormalizedMagnitude(magnitude) * 0.4;
    if 0.5 < linear then linear else 0.5
  }

  /** The size is always between 0.8 and 4, so the 0.5 floor never applies and
      the size is exactly the linear formula of the normalized magnitude. */
  lemma MagnitudeSizeRange(magnitude: real)
    ensures 0.8 <= MagnitudeSize(magnitude) <= 4.0
    ensures MagnitudeSize(magnitude) == 4.0 - 0.4 * NormalizedMagnitude(magnitude)
  {
  }

  /** Brighter (lower magnitude) stars are never drawn smaller. */
  lemma MagnitudeSizeNonIncreasing(m1: real, m2: real)
    requires m1 <= m2
    ensures MagnitudeSize(m1) >= MagnitudeSize(m2)
  {
  }

  /** Over the visible range [-1.5, 6.5] the size strictly decreases. */
  lemma MagnitudeSizeStrictOnVisibleRange(m1: real, m2: real)
    requires -1.5 <= m1 < m2 <= 6.5
    ensures MagnitudeSize(m1) > MagnitudeSize(m2)
  {
  }

  /** The colour of each of the seven spectral classes, in the order O, B, A, F, G, K, M. */
  const SpectralClasses: string := "OBAFGKM"
  const ClassColors: seq<string> :=
    ["#9bb0ff", "#aabfff", "#cad7ff", "#f8f7ff", "#fff4ea", "#ffd2a1", "#ffad51"]
  const Unclassified: string := "#ffffff"

  /** `getStarColor`: switch on `spectralClass.charAt(0)`; `charAt(0)` of the
      empty string is the empty string, which matches no case. */
  function StarColor(spectralClass: string): (color: string)
    ensures spectralClass == [] ==> color == Unclassified
    ensures spectralClass != [] && spectralClass[0] !in SpectralClasses ==> color == Unclassified
    ensures forall i :: 0 <= i < |SpectralClasses| && spectralClass != [] && spectralClass[0] == SpectralClasses[i]
              ==> color == ClassColors[i]
  {
    if spectralClass == [] then Unclassified
    else match spectralClass[0]
      case 'O' => "#9bb0ff"
      case 'B' => "#aabfff"
      case 'A' => "#cad7ff"
      case 'F' => "#f8f7ff"
      case 'G' => "#fff4ea"
      case 'K' => "#ffd2a1"
      case 'M' => "#ffad51"
      case _ => Unclassified
  }

  /** Only the first character matters: a subclass digit or luminosity suffix
      never changes the colour. */
  lemma StarColorFirstCharOnly(a: string, b: string)
    requires a != [] && b != [] && a[0] == b[0]
    ensures StarColor(a) == StarColor(b)
  {
  }

  /** The seven classes get seven different colours, none of them the fallback white. */
  lemma StarColorsDistinct(c1: char, c2: char)
    requires c1 in SpectralClasses && c2 in SpectralClasses && c1 != c2
    ensures StarColor([c1]) != StarColor([c2])
    ensures StarColor([c1]) != Unclassified
  {
  }
}
