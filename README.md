# tarot-trader: star field and market readings

A Dafny model of the two pieces of logic in the tarot-trader page, each of
which exists twice: in `src/App.tsx` (the current component) and in
`index.tsx` (an older variant).

- **The star field.** `src/App.tsx` projects a catalog of 36 real stars
  (six constellations, with right ascension, declination, magnitude and
  spectral class) onto the canvas, adds 300 random field stars and three
  nebulae whenever the canvas is resized, and runs a shooting-star pool
  (cap 2, spawn chance 0.008, fade 0.985 per frame). Each frame paints every
  star in its class colour with a two-hex-digit alpha suffix, and writes each
  constellation's name at the centre of its stars. `index.tsx` draws three
  hand-placed constellations whose edges are indexed with no bounds check,
  200 background stars created once per effect run, and a pool with cap 3,
  chance 0.01 and fade 0.98.
- **The reading generator.** It is the same code in both files. A 22-card
  major-arcana deck is drawn for a theme card and for one card per weekday
  (MON to FRI), for a stock and a crypto market, with a signal (RISING,
  FALLING, VOLATILE, STAGNANT) and a confluence level (WEAK, MODERATE,
  STRONG, ABSOLUTE). Two lookups turn a signal into a colour and a
  confluence level into a bar width.

Every `Math.random()` call is an explicit draw `r` with `0 <= r < 1`
(module `Draws`), passed in in call order. Every `Math.sin` value is a
parameter in `[-1, 1]`. Arithmetic is over `real`.

Modules:

- `Draws` (draws.dfy): draws, `Math.floor(r * n)` and `Math.random() * span`.
- `StarCatalog` (star_catalog.dfy): `STAR_CATALOG`, the visiting order of the nested `forEach`, and the edge guard.
- `Projection` (projection.dfy): `celestialToScreen`, `getMagnitudeSize`, `getStarColor`.
- `HexAlpha` (hex_alpha.dfy): `Math.floor(v).toString(16).padStart(2, '0')`.
- `ShootingStars` (shooting_stars.dfy): the pool step shared by both files, with the cap, decay and canvas height as parameters.
- `AppSky` (app_sky.dfy): the `src/App.tsx` canvas, as class `ConstellationCanvas` (reseed, frame) plus star painting and label centres.
- `IndexSky` (index_sky.dfy): the `index.tsx` canvas, as class `BackgroundCanvas`, plus `CONSTELLATIONS` and the background-star alpha.
- `Readings` (readings.dfy): the deck, `generateReadings`, the initial readings, `getSignalColor`, `getConfluenceIntensity`.

The two canvas components keep their state in React refs that their
functions update in place. Each is modelled as a class whose fields are
those refs (canvas size, star list, nebulae, shooting-star pool, frame
count). Its methods are `resizeCanvas`/the effect run and one `animate`
frame, and each method is proved against a specification function of the
old state and the draws. The pool loop (`filter` with an in-place update of
each star) is a method with a loop, proved equal to the function `Advanced`.
The lemmas about `Advanced` state what the source promises: order is kept,
the pool never grows, and with no new spawns every star leaves the pool.

Two behaviours of the code that the model makes explicit:

- A constellation edge whose index is at or past the star count is skipped
  at draw time in `src/App.tsx` (`StarCatalog.DrawnEdges`). `index.tsx`
  has no such guard, so the same edge would throw before the next frame is
  requested, which stops the animation loop (`IndexSky.StrokeLines`). The shipped data has no such edge in either
  file (`StarCatalog.CatalogWellFormed`, `IndexSky.FiguresNeverThrow`).
- The initial crypto reading's confluence is 'VOLATILE', which is a signal
  name and not a confluence level, so its bar is 0% wide
  (`Readings.InitialReadingsShape`). Every reading `generateReadings`
  produces carries one of the four levels; of the two initial readings,
  the stock one does ('STRONG', a 75% bar) and the crypto one does not.

## Model

| member | source | states |
|---|---|---|
| Draws.Pick | src/App.tsx:258 | `Math.floor(r * n)` for a draw r is a valid index of an n-entry table, namely the i with i <= r*n < i+1 |
| Draws.PickReachesEvery | src/App.tsx:258 | every index i < n is picked by some draw (r = i/n), so no table entry is unreachable |
| Draws.Scaled | src/App.tsx:253-254 | `Math.random() * span` lies in [0, span], and strictly below span when span > 0 |
| StarCatalog.CatalogStarCount | src/App.tsx:68-159 | the six constellations hold 8, 7, 7, 5, 5 and 4 stars, 36 in all in visiting order |
| StarCatalog.AllStarsAppend | src/App.tsx:234-235 | the nested `forEach` visits a constellation list followed by one more constellation as the list's stars followed by that one's |
| StarCatalog.DrawnEdges | src/App.tsx:316-329 | an edge is stroked if and only if it is an edge of the constellation and both indices are below the star count; with all edges in bounds, all are stroked in order |
| StarCatalog.CatalogWellFormed | src/App.tsx:68-159 | every catalog star has ra in [0, 24), dec in [-90, 90], magnitude in [0, 6] and a class starting with O, B, A, F, G, K or M; every edge is in bounds, so the guard of line 319 never hides one |
| Projection.CelestialToScreen | src/App.tsx:191-196 | ra in [0, 24] lands in [0, width] and dec in [-90, 90] in [0, height] |
| Projection.ProjectionIsProportional | src/App.tsx:191-196 | x is to the width as ra is to 24 h; the distance from the bottom is to the height as dec + 90 is to 180 |
| Projection.ProjectionAnchors | src/App.tsx:191-196 | dec +90 is the top edge, dec -90 the bottom edge, ra 0 the left edge and ra 24 the right edge |
| Projection.ProjectionMonotone | src/App.tsx:191-196 | larger ra is never further left and larger dec never lower on the canvas |
| Projection.BetelgeuseOnSquareCanvas | src/App.tsx:75 | Betelgeuse (5.92 h, +7.41 deg) on a 1000 x 1000 canvas lands at (740/3, 2753/6) |
| Projection.NormalizedMagnitude | src/App.tsx:216 | magnitude + 1.5 clamped to [0, 8], equal to magnitude + 1.5 on [-1.5, 6.5] |
| Projection.MagnitudeSizeRange | src/App.tsx:213-218 | the size is always in [0.8, 4], so the 0.5 floor never applies and the size is 4 - 0.4 * normalized |
| Projection.MagnitudeSizeNonIncreasing | src/App.tsx:213-218 | a brighter (lower-magnitude) star is never drawn smaller |
| Projection.MagnitudeSizeStrictOnVisibleRange | src/App.tsx:213-218 | on [-1.5, 6.5] the size strictly decreases with magnitude |
| Projection.StarColor | src/App.tsx:199-210 | each of O, B, A, F, G, K, M as first character gives its own colour; an empty class or any other first character gives #ffffff |
| Projection.StarColorFirstCharOnly | src/App.tsx:200 | two classes with the same first character get the same colour |
| Projection.StarColorsDistinct | src/App.tsx:199-210 | the seven classes get seven different colours, none of them the fallback |
| HexAlpha.PadStart | src/App.tsx:301 | `padStart(target, fill)` prepends fill characters up to the target length and never truncates |
| HexAlpha.NatToHexRoundTrip | src/App.tsx:301 | `toString(16)` of a non-negative integer prints lowercase hex digits that read back as the integer |
| HexAlpha.IntToHexRoundTrip | src/App.tsx:301 | `toString(16)` of an integer starts with '-' exactly when it is negative, and the characters after the sign are hex digits that read back as its magnitude |
| HexAlpha.AlphaSuffixNegative | src/App.tsx:301 | below 0 the padded suffix starts with '-', which is not a hex digit |
| HexAlpha.NatToHexLength | src/App.tsx:301 | one digit below 16, two from 16 to 255, three or more from 256 on |
| HexAlpha.AlphaSuffixTwoDigits | src/App.tsx:301 | for 0 <= v < 256 the suffix is exactly two lowercase hex digits that read back as floor(v) |
| HexAlpha.AlphaSuffixOverflows | src/App.tsx:343 | from v >= 256 on the suffix has three or more digits |
| HexAlpha.CoreAlpha | src/App.tsx:368 | with the `min(255, ...)` clamp the suffix is two hex digits for every brightness >= 0, and equals floor(b * 255) when b <= 1 |
| ShootingStars.Moved | src/App.tsx:428-430 | one frame adds the velocity to the position and multiplies the opacity by the decay, leaving velocity, length and liveness alone |
| ShootingStars.AdvancePool | src/App.tsx:408-438 | the `filter` loop with its in-place updates returns exactly `Advanced` of the pool |
| ShootingStars.AdvancedAppend | src/App.tsx:408-438 | the filter works star by star: advancing a + b is advancing a followed by advancing b |
| ShootingStars.AdvancedCharacterized | src/App.tsx:408-438 | the new pool is the stepped survivors of the old one in their old order; a star survives if and only if it was active and after its move has opacity >= 0.01 and y <= height + 50 |
| ShootingStars.AdvancedNeverGrows | src/App.tsx:408 | filtering never grows the pool |
| ShootingStars.AdvancedSurvivorsLive | src/App.tsx:432-437 | every star left in the pool is active, not retired, and the step of a star of the old pool |
| ShootingStars.EmptyStaysEmpty | src/App.tsx:408 | an empty pool stays empty without spawns |
| ShootingStars.LoneStarFalls | src/App.tsx:428-429 | a star falling at least 1 px per frame is, n frames on, gone or at least n px lower with its velocity unchanged |
| ShootingStars.FramesToExit | src/App.tsx:433 | a frame count after which a star falling at least 1 px per frame is below height + 50 |
| ShootingStars.LoneStarRetires | src/App.tsx:433-434 | such a star has left the pool after FramesToExit + 1 frames |
| ShootingStars.DrainBound | src/App.tsx:433 | a frame count at least FramesToExit + 1 for every star of the pool |
| ShootingStars.PoolDrains | src/App.tsx:408-438 | with no spawns, a pool whose stars all fall at least 1 px per frame is empty after DrainBound frames: no star lives forever |
| ShootingStars.SurvivorsKeepFalling | src/App.tsx:408-438 | advancing a pool of live stars that each fall at least minVy px a frame never grows it, and every survivor is again live and falling at least minVy px a frame; both canvases use it, with minVy 3 here and 2 in index.tsx:218-255 |
| ShootingStars.TrySpawn | src/App.tsx:403-405 | one star is appended if and only if the draw is below the chance and the pool is below the cap; a pool within the cap stays within it |
| AppSky.CatalogBrightness | src/App.tsx:241 | `max(0.1, 1 - mag/6)` is at least 0.1, at most 1 for non-negative magnitudes, 1 - mag/6 up to magnitude 5.4 and 0.1 from there on |
| AppSky.NewShootingStarRanges | src/App.tsx:273-281 | a new star has y = -50, opacity in [0.8, 1), vx in (-5, -2], vy in [3, 7), length in [60, 140) and x on the canvas |
| AppSky.AllStarsSplit | src/App.tsx:234-235 | the catalog's stars are those of its first c constellations followed by those of the rest |
| AppSky.ProjectConstellations | src/App.tsx:232-248 | the nested loops push one projected star per catalog star, in visiting order, the k-th with the k-th twinkle draw |
| AppSky.AppendFieldStars | src/App.tsx:251-260 | the field loop appends one field star per draw, in draw order, after the stars already laid out |
| AppSky.ConstellationCanvas.constructor | src/App.tsx:163-187 | the refs start empty with frame 0, and the pool invariant holds |
| AppSky.ConstellationCanvas.ResizeCanvas | src/App.tsx:227-268 | the canvas takes the new size; the star list is the projected catalog followed by 300 field stars; the nebulae are replaced; pool and frame count are unchanged; the pool invariant is kept |
| AppSky.ConstellationCanvas.Animate | src/App.tsx:403-440 | the pool becomes `Advanced(TrySpawn(pool, 2, 0.008, ...), 0.985, height)`, the frame count goes up by one, the stars, nebulae and size are unchanged, and the pool keeps at most 2 live stars each falling at least 3 px per frame |
| AppSky.ProjectedStarRanges | src/App.tsx:236-244 | a catalog star in its domain is projected onto the canvas with size in [0.8, 4], brightness in [0.1, 1], twinkle speed in [0.01, 0.03) and its own class |
| AppSky.ProjectedLayer | src/App.tsx:232-248 | projecting stars in their domain gives one star per input, in order, at its `celestialToScreen` position and in range |
| AppSky.CatalogLayer | src/App.tsx:232-248 | after a reseed the first 36 stars are the catalog stars, in catalog order, each on the canvas and in range |
| AppSky.FieldLayer | src/App.tsx:251-260 | every field star is on the canvas with size in [0.5, 2), brightness in [0.1, 0.4), twinkle speed in [0.005, 0.02) and a class among A, F, G, K, M |
| AppSky.FieldClassesReachable | src/App.tsx:258 | each of the five field classes is picked by some draw |
| AppSky.ReseedShapeIsStable | src/App.tsx:227-268 | two reseeds at one size give lists of equal length whose catalog part differs only in twinkle speed |
| AppSky.NebulaePlacement | src/App.tsx:263-267 | there are exactly three nebulae, each inside the canvas |
| AppSky.NebulaAlphas | src/App.tsx:301 | the nebula centre alphas are the bytes 19, 14 and 0f |
| AppSky.Twinkle | src/App.tsx:337 | the twinkle factor `sin * 0.3 + 0.7` lies in [0.4, 1] |
| AppSky.Twinkled | src/App.tsx:339 | a value scaled by the twinkle stays between 40% and 100% of itself, and is unchanged at the sine's crest |
| AppSky.WithAlpha | src/App.tsx:343 | colour plus alpha suffix is the colour followed by two hex digits exactly when 0 <= v < 256, and those digits read back as floor(v): longer from 256 on, and not a hex byte below 0 (a minus sign) |
| AppSky.WithCoreAlpha | src/App.tsx:368 | the clamped core colour is always the colour followed by two hex digits |
| AppSky.PaintStar | src/App.tsx:336-371 | spikes are drawn if and only if the size exceeds 2, and the core radius is between 40% and 100% of the size |
| AppSky.PaintWellFormed | src/App.tsx:336-371 | for brightness up to 1.4 every colour of a star (spikes, both glow stops, core) is its class colour plus a two-digit alpha |
| AppSky.GlowOverflowsAboveBound | src/App.tsx:358 | from brightness 1.5 on, the inner glow alpha has three digits at the sine's crest |
| AppSky.LabelCenter | src/App.tsx:375-386 | no label for a constellation without stars; otherwise the label anchor is the mean of the projected star positions |
| AppSky.SumXOnCanvas | src/App.tsx:378-383 | the accumulated x of n stars with right ascension in [0, 24) lies in [0, n * width] |
| AppSky.SumYOnCanvas | src/App.tsx:378-383 | the accumulated y of n stars with declination in [-90, 90] lies in [0, n * height] |
| AppSky.LabelCenterOnCanvas | src/App.tsx:375-386 | the label anchor of a well-formed constellation lies on the canvas |
| AppSky.CatalogLabelsOnCanvas | src/App.tsx:375-386 | every catalog constellation has stars, so gets a label, and its anchor lies on the canvas |
| IndexSky.StrokeLines | index.tsx:168-177 | the unguarded line pass strokes every edge in order if and only if every index is below the star count, and throws otherwise |
| IndexSky.FiguresNeverThrow | index.tsx:46-86 | each of the three constellations has 7 stars and edges with indices below 7, so every edge is stroked and the pass never throws |
| IndexSky.BackgroundLayer | index.tsx:123-129 | an effect run creates exactly 200 stars, each on the canvas with size in [0, 2), brightness in [0, 1) and twinkle speed in [0.02, 0.05) |
| IndexSky.NewShootingStarRanges | index.tsx:132-140 | a new star has y = -50, opacity 1, vx in (-3, -1], vy in [2, 5), length in [50, 100) and x on the canvas |
| IndexSky.BackgroundCanvas.constructor | index.tsx:90-107 | the refs start empty with frame 0, and the pool invariant holds |
| IndexSky.BackgroundCanvas.RunEffect | index.tsx:109-129 | the canvas takes the window size and the star list becomes 200 new stars; pool and frame count carry over |
| IndexSky.BackgroundCanvas.Resize | index.tsx:116-119 | only the canvas size changes: the stars are neither regenerated nor rescaled |
| IndexSky.BackgroundCanvas.Animate | index.tsx:212-257 | the pool becomes `Advanced(TrySpawn(pool, 3, 0.01, ...), 0.98, height)`, the frame count goes up by one, the rest is unchanged, and the pool keeps at most 3 live stars each falling at least 2 px per frame |
| IndexSky.PoolEmptiesWithoutSpawns | index.tsx:218-255 | with no spawns a pool of this canvas is empty after DrainBound frames |
| IndexSky.Twinkle | index.tsx:154 | `sin * 0.5 + 0.5` lies in [0, 1], 0 at the trough and 1 at the crest |
| IndexSky.FillAlpha | index.tsx:154-155 | for brightness in [0, 1) the fill alpha lies in [0, 0.8), 0 at the trough and 0.8 * brightness at the crest |
| Readings.DayCardsKeys | src/App.tsx:610-613 | the day table has exactly the weekdays as keys |
| Readings.DayCardsFromDeck | src/App.tsx:611-612 | every day card is a card of the deck |
| Readings.DayCardsPerDay | src/App.tsx:610-613 | with distinct day names, each day holds the card of its own draw: no later day overwrites it |
| Readings.DayCardsSnoc | src/App.tsx:610-613 | assigning the next weekday extends the table built so far by that day and the card of its draw |
| Readings.WeekdayCards | src/App.tsx:610-613 | over the five distinct weekday names, each weekday holds the card its own draw picks |
| Readings.ReadingOfWellFormed | src/App.tsx:615-630 | a reading built from three draws and a weekday table has a deck theme, a signal, a confluence level and a deck card for exactly MON to FRI |
| Readings.ReadingsWellFormed | src/App.tsx:606-631 | both readings have a deck card as theme, a signal and a confluence level from their tables, and a deck card for exactly MON to FRI, each day the card of its own draw |
| Readings.GenerateReadings | src/App.tsx:606-631 | the loop and the six table draws produce exactly `ReadingsFrom(draws)`, and both readings are well formed; the same code is at index.tsx:412-437 |
| Readings.ReadingOfPicks | src/App.tsx:619-621 | the draws c/22, s/4 and q/4 pick theme card c, signal s and confluence level q |
| Readings.EveryOutcomeReachable | src/App.tsx:619-628 | every deck card, signal and confluence level is produced by some draws |
| Readings.SignalColor | src/App.tsx:640-648 | each of the four signals gets its own colour, any other string the theme's secondary text colour; the same code is at index.tsx:446-454 |
| Readings.SignalColorIdentifiesSignal | src/App.tsx:640-648 | when the fallback is not one of the four colours, the colour determines the signal |
| Readings.ConfluenceBarWidth | src/App.tsx:650-657 | the k-th confluence level (WEAK, MODERATE, STRONG, ABSOLUTE) fills 25 * (k + 1) percent; the same code is at index.tsx:456-463 |
| Readings.ConfluenceBarEmpty | src/App.tsx:658 | any string that is not a confluence level gets a 0% bar; the same code is at index.tsx:464 |
| Readings.InitialReadingsShape | src/App.tsx:592-604 | the initial themes are THE TOWER and THE MOON with signals RISING (#10B981) and FALLING (#EF4444); the stock bar is 75%; the crypto confluence VOLATILE gives a 0% bar and a reading `generateReadings` never produces; the same code is at index.tsx:398-410 |
| Readings.InitialDayTables | src/App.tsx:592-604 | both initial day tables hold a deck card for exactly MON to FRI, so the initial stock reading is well formed; the same code is at index.tsx:398-410 |

## Left out

- The JSX tree, styling, CSS animations, the decorative components and the theme table: presentation only.
- The canvas 2D calls (gradients, arcs, strokes, text, line dashes): a foreign drawing API. Star painting is modelled only as the colour strings and radius it computes (`AppSky.PaintStar`), lines as segments (`IndexSky.StrokeLines`), labels as their anchor (`AppSky.LabelCenter`).
- The label texts and their offsets (name at y - 20, mythology at y - 5, star names at x + 8, y - 5), the constellation line and glow colours built from the theme: drawing details with no logic.
- The host loop: `requestAnimationFrame`, the `resize` listener, and the effect rerunning on each theme change, which starts a second `animate` loop without stopping the first. These are host-driven and concurrent; the model offers one frame step and one resize step that a caller can sequence.
- The 2.5 s `setTimeout` delay and the `isGenerating` flag of `handleGenerateReading`: asynchronous UI plumbing around `generateReadings`.
- `Math.random`: replaced by explicit draws in [0, 1). No generator is modelled.
- `Math.sin`: a parameter in [-1, 1].
- IEEE-754 rounding: all arithmetic is over reals, so decimal outputs are exact here and approximate in the source.
- In-place mutation of star objects inside `filter`: stars are values. Only the pool holds them, so no aliasing is lost.
- `src/main.tsx` (React bootstrap) and the date display (`toLocaleDateString`).
- The catalog stars' `x`/`y` placeholders (always 0) and their `constellation` field (the owner's name).
- The reading generator appears twice, identically: at src/App.tsx:565-658 and at index.tsx:371-464. It is modelled once, and the Readings rows above cite the src/App.tsx copy.
- Readings.ConfluenceIntensity (src/App.tsx:650-658): carries no contract of its own; its meaning is stated by `Readings.ConfluenceBarWidth` and `Readings.ConfluenceBarEmpty`.
- Edge indices are modelled as naturals (`StarCatalog.Edge`). A negative or fractional index in the data, such as `[-1, 0]` or `[1.5, 0]`, would pass the guard of src/App.tsx:319 and then throw when the missing star's coordinates are read (and in index.tsx the `.x` read at lines 174-175 would throw too); the model does not represent such data, and the shipped data has none.
- Projection.MagnitudeSize (src/App.tsx:213-218): carries no contract of its own; its meaning is stated by `Projection.MagnitudeSizeRange`, `Projection.MagnitudeSizeNonIncreasing` and `Projection.MagnitudeSizeStrictOnVisibleRange`.
- ShootingStars.Advanced (src/App.tsx:408-438, index.tsx:218-255): carries no contract of its own; its meaning is stated by `ShootingStars.AdvancedCharacterized`, `ShootingStars.AdvancedSurvivorsLive` and `ShootingStars.PoolDrains`, and `ShootingStars.AdvancePool` proves the loop equal to it.
- ShootingStars.Stepped (src/App.tsx:427-434): carries no contract of its own; its meaning is stated by `ShootingStars.Moved` and `ShootingStars.AdvancedCharacterized`.
- ShootingStars.Retired (src/App.tsx:433): carries no contract of its own; it is the retirement test that `ShootingStars.AdvancedCharacterized` and `ShootingStars.LoneStarRetires` state their results in.
- HexAlpha.AlphaSuffix (src/App.tsx:301): carries no contract of its own; its meaning is stated by `HexAlpha.AlphaSuffixTwoDigits` and `HexAlpha.AlphaSuffixOverflows`.
- HexAlpha.NatToHex (src/App.tsx:301): carries no contract of its own; its meaning is stated by `HexAlpha.NatToHexRoundTrip` and `HexAlpha.NatToHexLength`.
- HexAlpha.IntToHex (src/App.tsx:301): carries no contract of its own; its meaning is stated by `HexAlpha.IntToHexRoundTrip`.
- AppSky.ProjectedStar (src/App.tsx:236-244): carries no contract of its own; its meaning is stated by `AppSky.ProjectedStarRanges`.
- AppSky.ProjectedStars (src/App.tsx:232-248): carries no contract of its own; its meaning is stated by `AppSky.ProjectedLayer` and `AppSky.CatalogLayer`, and `AppSky.ProjectConstellations` proves the nested loops equal to it.
- AppSky.FieldStar (src/App.tsx:252-259): carries no contract of its own; its meaning is stated by `AppSky.FieldLayer` and `AppSky.FieldClassesReachable`.
- AppSky.FieldStars (src/App.tsx:251-260): carries no contract of its own; its meaning is stated by `AppSky.FieldLayer`, and `AppSky.AppendFieldStars` proves the loop equal to it.
- AppSky.Nebulae (src/App.tsx:263-267): carries no contract of its own; its meaning is stated by `AppSky.NebulaePlacement` and `AppSky.NebulaAlphas`.
- AppSky.NewShootingStar (src/App.tsx:273-281): carries no contract of its own; its meaning is stated by `AppSky.NewShootingStarRanges`.
- IndexSky.NewBackgroundStar (index.tsx:123-129): carries no contract of its own; its meaning is stated by `IndexSky.BackgroundLayer`.
- IndexSky.BackgroundStars (index.tsx:123-129): carries no contract of its own; its meaning is stated by `IndexSky.BackgroundLayer`.
- IndexSky.NewShootingStar (index.tsx:132-140): carries no contract of its own; its meaning is stated by `IndexSky.NewShootingStarRanges`.
- Readings.StockDayDraws (src/App.tsx:611): its contract only gives the draw it picks for each weekday; what that selection means, that each weekday's stock card is the card of draw 2i of the call order, is stated by `Readings.ReadingsWellFormed` and `Readings.GenerateReadings`.
- Readings.CryptoDayDraws (src/App.tsx:612): its contract only gives the draw it picks for each weekday; what that selection means, that each weekday's crypto card is the card of draw 2i+1 of the call order, is stated by `Readings.ReadingsWellFormed` and `Readings.GenerateReadings`.
- Readings.CardOf (src/App.tsx:611-612): carries no contract of its own; its meaning is stated by `Readings.DayCardsFromDeck` and `Readings.ReadingOfPicks`.
- Readings.DayCards (src/App.tsx:610-613): carries no contract of its own; its meaning is stated by `Readings.DayCardsKeys`, `Readings.DayCardsFromDeck`, `Readings.DayCardsPerDay` and `Readings.DayCardsSnoc`.
- Readings.ReadingOf (src/App.tsx:615-630): carries no contract of its own; its meaning is stated by `Readings.ReadingOfWellFormed` and `Readings.ReadingOfPicks`.
- Readings.ReadingsFrom (src/App.tsx:606-631): carries no contract of its own; its meaning is stated by `Readings.ReadingsWellFormed` and `Readings.EveryOutcomeReachable`, and `Readings.GenerateReadings` proves the method equal to it.
- Readings.InitialReadings (src/App.tsx:592-604): carries no contract of its own; its meaning is stated by `Readings.InitialReadingsShape` and `Readings.InitialDayTables`.
