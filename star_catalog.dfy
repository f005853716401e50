/** The static star catalog of src/App.tsx (`STAR_CATALOG`): six constellations
    of real stars with magnitude, spectral class and equatorial coordinates, and
    the edges drawn between them. */
module StarCatalog {

  /** One catalog entry. The source's `x`/`y` fields are always 0 placeholders
      and its `constellation` field repeats the owner's name; both are dropped. */
  datatype CatalogStar = CatalogStar(
    name: string,
    catalogId: string,
    magnitude: real,
    spectralClass: string,
    rightAscension: real,  // hours
    declination: real      // degrees
  )

  /** An edge `[i, j]` between two stars of one constellation, by position. */
  datatype Edge = Edge(from: nat, to: nat)

  datatype ConstellationData = ConstellationData(
    name: string,
    abbreviation: string,
    mythology: string,
    season: string,
    stars: seq<CatalogStar>,
    lines: seq<Edge>
  )

  function Orion(): ConstellationData {
    ConstellationData("Orion", "Ori", "The Hunter", "Winter",
      [ CatalogStar("Betelgeuse", "α Ori", 0.45, "M1", 5.92, 7.41),
        CatalogStar("Bellatrix", "γ Ori", 1.64, "B2", 5.42, 6.35),
        CatalogStar("Mintaka", "δ Ori", 2.23, "O9", 5.53, -0.30),
        CatalogStar("Alnilam", "ε Ori", 1.69, "O9", 5.60, -1.20),
        CatalogStar("Alnitak", "ζ Ori", 1.74, "O9", 5.68, -1.94),
        CatalogStar("Saiph", "κ Ori", 2.07, "B0", 5.80, -9.67),
        CatalogStar("Rigel", "β Ori", 0.18, "B8", 5.24, -8.20),
        CatalogStar("Tabit", "π³ Ori", 3.39, "K2", 4.83, 6.96) ],
      [ Edge(0, 1), Edge(1, 3), Edge(3, 2), Edge(2, 4), Edge(4, 3),
        Edge(3, 6), Edge(6, 5), Edge(5, 0), Edge(0, 7) ])
  }

  function UrsaMajor(): ConstellationData {
    ConstellationData("Ursa Major", "UMa", "The Great Bear", "Spring",
      [ CatalogStar("Dubhe", "α UMa", 1.85, "K0", 11.06, 61.75),
        CatalogStar("Merak", "β UMa", 2.34, "A0", 11.03, 56.38),
        CatalogStar("Phecda", "γ UMa", 2.41, "A0", 11.90, 53.69),
        CatalogStar("Megrez", "δ UMa", 3.32, "A3", 12.26, 57.03),
        CatalogStar("Alioth", "ε UMa", 1.76, "B3", 12.90, 55.96),
        CatalogStar("Mizar", "ζ UMa", 2.23, "A0", 13.42, 54.93),
        CatalogStar("Alkaid", "η UMa", 1.85, "B3", 13.79, 49.31) ],
      [ Edge(0, 1), Edge(1, 2), Edge(2, 3), Edge(3, 4), Edge(4, 5), Edge(5, 6) ])
  }

  function Scorpius(): ConstellationData {
    ConstellationData("Scorpius", "Sco", "The Scorpion", "Summer",
      [ CatalogStar("Antares", "α Sco", 1.06, "M1", 16.49, -26.43),
        CatalogStar("Graffias", "β¹ Sco", 2.56, "B1", 16.09, -19.81),
        CatalogStar("Dschubba", "δ Sco", 2.29, "B2", 16.00, -22.62),
        CatalogStar("Sargas", "θ Sco", 2.89, "K2", 17.62, -42.99),
        CatalogStar("Shaula", "λ Sco", 1.86, "B0", 17.56, -37.10),
        CatalogStar("Lesath", "υ Sco", 2.70, "B2", 17.51, -37.30),
        CatalogStar("Fang", "π Sco", 3.21, "F3", 15.98, -26.11) ],
      [ Edge(6, 2), Edge(2, 1), Edge(1, 0), Edge(0, 3), Edge(3, 4), Edge(4, 5) ])
  }

  function Cassiopeia(): ConstellationData {
    ConstellationData("Cassiopeia", "Cas", "The Queen", "Autumn",
      [ CatalogStar("Schedar", "α Cas", 2.24, "K0", 0.67, 56.54),
        CatalogStar("Caph", "β Cas", 2.28, "F2", 0.15, 59.15),
        CatalogStar("Navi", "γ Cas", 2.47, "B0", 0.95, 60.72),
        CatalogStar("Ruchbah", "δ Cas", 2.68, "A5", 1.43, 60.24),
        CatalogStar("Segin", "ε Cas", 3.35, "B3", 1.91, 63.67) ],
      [ Edge(0, 1), Edge(1, 2), Edge(2, 3), Edge(3, 4) ])
  }

  function Cygnus(): ConstellationData {
    ConstellationData("Cygnus", "Cyg", "The Swan", "Summer",
      [ CatalogStar("Deneb", "α Cyg", 1.25, "A2", 20.69, 45.28),
        CatalogStar("Albireo", "β Cyg", 3.05, "K3", 19.51, 27.96),
        CatalogStar("Sadr", "γ Cyg", 2.23, "F8", 20.37, 40.26),
        CatalogStar("Gienah", "ε Cyg", 2.86, "A0", 20.77, 33.97),
        CatalogStar("Delta Cygni", "δ Cyg", 2.49, "B9", 19.75, 45.13) ],
      [ Edge(4, 2), Edge(2, 0), Edge(2, 3), Edge(2, 1) ])
  }

  function Lyra(): ConstellationData {
    ConstellationData("Lyra", "Lyr", "The Lyre", "Summer",
      [ CatalogStar("Vega", "α Lyr", 0.03, "A0", 18.62, 38.78),
        CatalogStar("Sulafat", "γ Lyr", 3.52, "M4", 18.98, 32.69),
        CatalogStar("Sheliak", "β Lyr", 4.30, "B7", 18.83, 33.36),
        CatalogStar("Delta1 Lyrae", "δ¹ Lyr", 4.94, "A8", 18.88, 36.90) ],
      [ Edge(0, 1), Edge(1, 2), Edge(2, 3), Edge(3, 0) ])
  }

  /** `Object.values(STAR_CATALOG)`: the constellations in insertion order. */
  function Catalog(): seq<ConstellationData> {
    [Orion(), UrsaMajor(), Scorpius(), Cassiopeia(), Cygnus(), Lyra()]
  }

  /** The catalog's stars, constellation after constellation, each in its own order:
      the order in which the nested `forEach` visits them. */
  function AllStars(cs: seq<ConstellationData>): seq<CatalogStar> {
    if cs == [] then [] else cs[0].stars + AllStars(cs[1..])
  }

  lemma {:induction false} AllStarsAppend(cs: seq<ConstellationData>, c: ConstellationData)
    ensures AllStars(cs + [c]) == AllStars(cs) + c.stars
  {
    if cs == [] {
      assert AllStars([c]) == c.stars + AllStars([]);
    } else {
      assert (cs + [c])[1..] == cs[1..] + [c];
      AllStarsAppend(cs[1..], c);
    }
  }

  /** The catalog holds 8 + 7 + 7 + 5 + 5 + 4 = 36 stars. */
  lemma CatalogStarCount()
    ensures |Orion().stars| == 8 && |UrsaMajor().stars| == 7 && |Scorpius().stars| == 7
    ensures |Cassiopeia().stars| == 5 && |Cygnus().stars| == 5 && |Lyra().stars| == 4
    ensures |AllStars(Catalog())| == 36
  {
    var cs := Catalog();
    assert AllStars(cs[5..]) == Lyra().stars + AllStars([]);
    assert AllStars(cs[4..]) == Cygnus().stars + AllStars(cs[5..]);
    assert AllStars(cs[3..]) == Cassiopeia().stars + AllStars(cs[4..]);
    assert AllStars(cs[2..]) == Scorpius().stars + AllStars(cs[3..]);
    assert AllStars(cs[1..]) == UrsaMajor().stars + AllStars(cs[2..]);
  }

  /** The first spectral-class letter is one of O, B, A, F, G, K, M. */
  predicate HasStandardClass(s: CatalogStar) {
    |s.spectralClass| > 0 && s.spectralClass[0] in "OBAFGKM"
  }

  /** A star lies in the documented coordinate domain and is no brighter than
      magnitude 0 and visible to the eye (magnitude at most 6). */
  predicate InDomain(s: CatalogStar) {
    && 0.0 <= s.rightAscension < 24.0
    && -90.0 <= s.declination <= 90.0
    && 0.0 <= s.magnitude <= 6.0
    && HasStandardClass(s)
  }

  predicate EdgeInBounds(e: Edge, n: nat) {
    e.from < n && e.to < n
  }

  predicate EdgesInBounds(c: ConstellationData) {
    forall k :: 0 <= k < |c.lines| ==> EdgeInBounds(c.lines[k], |c.stars|)
  }

  /** The edges the draw loop actually strokes: those that pass the bounds guard
      `startIdx < stars.length && endIdx < stars.length`. */
  function DrawnEdges(c: ConstellationData): (es: seq<Edge>)
    ensures forall e :: e in es <==> e in c.lines && EdgeInBounds(e, |c.stars|)
    ensures EdgesInBounds(c) ==> es == c.lines
  {
    DrawnFrom(c.lines, |c.stars|)
  }

  function DrawnFrom(lines: seq<Edge>, n: nat): (es: seq<Edge>)
    ensures forall e :: e in es <==> e in lines && EdgeInBounds(e, n)
    ensures (forall k :: 0 <= k < |lines| ==> EdgeInBounds(lines[k], n)) ==> es == lines
  {
    if lines == [] then []
    else (if EdgeInBounds(lines[0], n) then [lines[0]] else []) + DrawnFrom(lines[1..], n)
  }

  /** A constellation with at least one star, whose stars are all in their
      domain and whose edges are all in bounds. */
  predicate WellFormed(c: ConstellationData) {
    && c.stars != []
    && EdgesInBounds(c)
    && forall j :: 0 <= j < |c.stars| ==> InDomain(c.stars[j])
  }

  lemma {:induction false} AllStarsMember(cs: seq<ConstellationData>, s: CatalogStar)
    requires s in AllStars(cs)
    ensures exists i :: 0 <= i < |cs| && s in cs[i].stars
  {
    if s !in cs[0].stars {
      AllStarsMember(cs[1..], s);
      var i :| 0 <= i < |cs[1..]| && s in cs[1..][i].stars;
      assert s in cs[i + 1].stars;
    }
  }

  lemma OrionWellFormed() ensures WellFormed(Orion()) {}
  lemma UrsaMajorWellFormed() ensures WellFormed(UrsaMajor()) {}
  lemma ScorpiusWellFormed() ensures WellFormed(Scorpius()) {}
  lemma CassiopeiaWellFormed() ensures WellFormed(Cassiopeia()) {}
  lemma CygnusWellFormed() ensures WellFormed(Cygnus()) {}
  lemma LyraWellFormed() ensures WellFormed(Lyra()) {}

  /** Every catalog star is in its domain and every edge of every constellation
      is in bounds, so the guard never hides an edge. */
  lemma CatalogWellFormed()
    ensures forall i :: 0 <= i < |Catalog()| ==> WellFormed(Catalog()[i])
    ensures forall i :: 0 <= i < |Catalog()| ==> DrawnEdges(Catalog()[i]) == Catalog()[i].lines
    ensures forall s :: s in AllStars(Catalog()) ==> InDomain(s)
  {
    OrionWellFormed();
    UrsaMajorWellFormed();
    ScorpiusWellFormed();
    CassiopeiaWellFormed();
    CygnusWellFormed();
    LyraWellFormed();
    var cs := Catalog();
    assert forall i :: 0 <= i < |cs| ==> WellFormed(cs[i]);
    forall s | s in AllStars(cs) ensures InDomain(s) {
      AllStarsMember(cs, s);
      var i :| 0 <= i < |cs| && s in cs[i].stars;
      var j :| 0 <= j < |cs[i].stars| && cs[i].stars[j] == s;
    }
  }
}
