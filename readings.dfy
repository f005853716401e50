/** The market reading generator, the same code in src/App.tsx and index.tsx:
    a 22-card major-arcana deck, a theme card, a signal and a confluence level
    per market, one card per weekday, and the two lookups that turn a signal
    into a colour and a confluence level into a bar width. */
module Readings {
  import opened Draws

  datatype Card = Card(name: string, symbol: string, aspect: string, power: string)

  /** `arcana`, the 22 major arcana in deck order. */
  const Arcana: seq<Card> := [
    Card("THE FOOL", "◈", "RISK", "CHAOS"),
    Card("THE MAGICIAN", "⟐", "CONTROL", "MANIPULATION"),
    Card("HIGH PRIESTESS", "◉", "HIDDEN", "KNOWLEDGE"),
    Card("THE EMPRESS", "♦", "GROWTH", "ABUNDANCE"),
    Card("THE EMPEROR", "▲", "ORDER", "DOMINION"),
    Card("HIEROPHANT", "⟐", "SYSTEM", "STRUCTURE"),
    Card("THE LOVERS", "◈", "CHOICE", "UNITY"),
    Card("THE CHARIOT", "▣", "DRIVE", "VICTORY"),
    Card("STRENGTH", "◐", "FORCE", "WILL"),
    Card("THE HERMIT", "◯", "SEARCH", "WISDOM"),
    Card("WHEEL FORTUNE", "◎", "FATE", "CYCLES"),
    Card("JUSTICE", "⟐", "BALANCE", "LAW"),
    Card("HANGED MAN", "◈", "SACRIFICE", "INSIGHT"),
    Card("DEATH", "◆", "END", "REBIRTH"),
    Card("TEMPERANCE", "◉", "MERGE", "ALCHEMY"),
    Card("THE DEVIL", "▼", "BIND", "TEMPTATION"),
    Card("THE TOWER", "⟐", "DESTROY", "REVELATION"),
    Card("THE STAR", "✦", "HOPE", "GUIDANCE"),
    Card("THE MOON", "◐", "ILLUSION", "MYSTERY"),
    Card("THE SUN", "◉", "TRUTH", "VITALITY"),
    Card("JUDGEMENT", "▲", "VERDICT", "AWAKENING"),
    Card("THE WORLD", "◎", "COMPLETE", "MASTERY")
  ]

  const Weekdays: seq<string> := ["MON", "TUE", "WED", "THU", "FRI"]
  const Signals: seq<string> := ["RISING", "FALLING", "VOLATILE", "STAGNANT"]
  const Confluences: seq<string> := ["WEAK", "MODERATE", "STRONG", "ABSOLUTE"]

  datatype MarketReading = MarketReading(theme: Card, signal: string, confluence: string, days: map<string, Card>)

  /** `arcana[Math.floor(Math.random() * arcana.length)]`. */
  function CardOf(r: real): Card
    requires IsDraw(r)
  {
    Arcana[Pick(r, |Arcana|)]
  }

  predicate Distinct(xs: seq<string>) {
    forall i, j :: 0 <= i < j < |xs| ==> xs[i] != xs[j]
  }

  /** The day table after assigning `days[d] = card` for each day in order,
      the k-th day taking the card of the k-th draw. */
  function DayCards(days: seq<string>, rs: seq<real>): map<string, Card>
    requires |rs| == |days| && AllDraws(rs)
    decreases |days|
  {
    if days == [] then map[]
    else
      var n := |days| - 1;
      DayCards(days[..n], rs[..n])[days[n] := CardOf(rs[n])]
  }

  /** The table has exactly the given days as keys. */
  lemma {:induction false} DayCardsKeys(days: seq<string>, rs: seq<real>)
    requires |rs| == |days| && AllDraws(rs)
    ensures DayCards(days, rs).Keys == set d | d in days
    decreases |days|
  {
    if days != [] {
      var n := |days| - 1;
      DayCardsKeys(days[..n], rs[..n]);
      assert days == days[..n] + [days[n]];
      assert (set d | d in days) == (set d | d in days[..n]) + {days[n]};
    }
  }

  /** Every entry of the table is a deck card. */
  lemma {:induction false} DayCardsFromDeck(days: seq<string>, rs: seq<real>)
    requires |rs| == |days| && AllDraws(rs)
    ensures forall d :: d in DayCards(days, rs) ==> DayCards(days, rs)[d] in Arcana
    decreases |days|
  {
    if days != [] {
      var n := |days| - 1;
      DayCardsFromDeck(days[..n], rs[..n]);
    }
  }

  /** With distinct days, day `i` holds the card of draw `i`: no later
      assignment overwrites an earlier day. */
  lemma {:induction false} DayCardsPerDay(days: seq<string>, rs: seq<real>, i: nat)
    requires |rs| == |days| && AllDraws(rs) && Distinct(days) && i < |days|
    ensures days[i] in DayCards(days, rs) && DayCards(days, rs)[days[i]] == CardOf(rs[i])
    decreases |days|
  {
    var n := |days| - 1;
    if i < n {
      assert days[..n][i] == days[i] && rs[..n][i] == rs[i];
      assert Distinct(days[..n]);
      DayCardsPerDay(days[..n], rs[..n], i);
      assert days[i] != days[n];
    }
  }

  /** How many `Math.random()` calls one `generateReadings` makes. */
  const ReadingDrawCount: nat := 16

  /** The draws of `generateReadings` in call order: for each weekday the stock
      card then the crypto card (indices 0..9), then the stock theme, signal and
      confluence (10..12), then the crypto theme, signal and confluence (13..15). */
  function StockDayDraws(draws: seq<real>): (rs: seq<real>)
    requires |draws| == ReadingDrawCount && AllDraws(draws)
    ensures |rs| == |Weekdays| && AllDraws(rs)
    ensures forall i :: 0 <= i < |rs| ==> rs[i] == draws[2 * i]
  {
    seq(|Weekdays|, i requires 0 <= i < |Weekdays| => draws[2 * i])
  }

  function CryptoDayDraws(draws: seq<real>): (rs: seq<real>)
    requires |draws| == ReadingDrawCount && AllDraws(draws)
    ensures |rs| == |Weekdays| && AllDraws(rs)
    ensures forall i :: 0 <= i < |rs| ==> rs[i] == draws[2 * i + 1]
  {
    seq(|Weekdays|, i requires 0 <= i < |Weekdays| => draws[2 * i + 1])
  }

  /** One market's reading from its theme, signal and confluence draws and its day table. */
  function ReadingOf(themeDraw: real, signalDraw: real, confluenceDraw: real, days: map<string, Card>): MarketReading
    requires IsDraw(themeDraw) && IsDraw(signalDraw) && IsDraw(confluenceDraw)
  {
    MarketReading(CardOf(themeDraw), Signals[Pick(signalDraw, |Signals|)],
                  Confluences[Pick(confluenceDraw, |Confluences|)], days)
  }

  /** The stock and crypto readings `generateReadings` sets for the given draws. */
  function ReadingsFrom(draws: seq<real>): (MarketReading, MarketReading)
    requires |draws| == ReadingDrawCount && AllDraws(draws)
  {
    (ReadingOf(draws[10], draws[11], draws[12], DayCards(Weekdays, StockDayDraws(draws))),
     ReadingOf(draws[13], draws[14], draws[15], DayCards(Weekdays, CryptoDayDraws(draws))))
  }

  /** What a generated reading looks like: a deck card as theme, a signal and
      a confluence level from their tables, and a deck card for exactly the
      five weekdays. */
  predicate WellFormedReading(r: MarketReading) {
    && r.theme in Arcana
    && r.signal in Signals
    && r.confluence in Confluences
    && r.days.Keys == set d | d in Weekdays
    && forall d :: d in r.days ==> r.days[d] in Arcana
  }

  /** A market's reading drawn over the weekdays is well formed. */
  lemma ReadingOfWellFormed(themeDraw: real, signalDraw: real, confluenceDraw: real, rs: seq<real>)
    requires IsDraw(themeDraw) && IsDraw(signalDraw) && IsDraw(confluenceDraw)
    requires |rs| == |Weekdays| && AllDraws(rs)
    ensures WellFormedReading(ReadingOf(themeDraw, signalDraw, confluenceDraw, DayCards(Weekdays, rs)))
  {
    DayCardsKeys(Weekdays, rs);
    DayCardsFromDeck(Weekdays, rs);
  }

  lemma WeekdaysDistinct()
    ensures Distinct(Weekdays)
  {
  }

  /** Each weekday carries the card its own draw picks. */
  lemma WeekdayCards(rs: seq<real>)
    requires |rs| == |Weekdays| && AllDraws(rs)
    ensures forall i :: 0 <= i < |Weekdays| ==>
      Weekdays[i] in DayCards(Weekdays, rs) && DayCards(Weekdays, rs)[Weekdays[i]] == CardOf(rs[i])
  {
    WeekdaysDistinct();
    forall i | 0 <= i < |Weekdays|
      ensures Weekdays[i] in DayCards(Weekdays, rs) && DayCards(Weekdays, rs)[Weekdays[i]] == CardOf(rs[i])
    {
      DayCardsPerDay(Weekdays, rs, i);
    }
  }

  /** Every reading `generateReadings` can produce is well formed, and each
      weekday of each market carries the card its own draw picks. */
  lemma ReadingsWellFormed(draws: seq<real>)
    requires |draws| == ReadingDrawCount && AllDraws(draws)
    ensures WellFormedReading(ReadingsFrom(draws).0) && WellFormedReading(ReadingsFrom(draws).1)
    ensures forall i :: 0 <= i < |Weekdays| ==>
      && ReadingsFrom(draws).0.days[Weekdays[i]] == CardOf(draws[2 * i])
      && ReadingsFrom(draws).1.days[Weekdays[i]] == CardOf(draws[2 * i + 1])
  {
    var stockDraws, cryptoDraws := StockDayDraws(draws), CryptoDayDraws(draws);
    ReadingOfWellFormed(draws[10], draws[11], draws[12], stockDraws);
    ReadingOfWellFormed(draws[13], draws[14], draws[15], cryptoDraws);
    WeekdayCards(stockDraws);
    WeekdayCards(cryptoDraws);
  }

  /** One more assignment extends the day table by the next day and its card. */
  lemma DayCardsSnoc(days: seq<string>, rs: seq<real>, i: nat)
    requires |rs| == |days| && AllDraws(rs) && i < |days|
    ensures AllDraws(rs[..i]) && AllDraws(rs[..i + 1])
    ensures DayCards(days[..i + 1], rs[..i + 1]) == DayCards(days[..i], rs[..i])[days[i] := CardOf(rs[i])]
  {
    assert days[..i + 1][..i] == days[..i];
    assert rs[..i + 1][..i] == rs[..i];
  }

  /** `generateReadings`: fills both day tables in one pass over the weekdays,
      then draws each market's theme, signal and confluence. */
  method GenerateReadings(draws: seq<real>) returns (stock: MarketReading, crypto: MarketReading)
    requires |draws| == ReadingDrawCount && AllDraws(draws)
    ensures (stock, crypto) == ReadingsFrom(draws)
    ensures WellFormedReading(stock) && WellFormedReading(crypto)
  {
    var stockDays: map<string, Card> := map[];
    var cryptoDays: map<string, Card> := map[];
    ghost var stockDraws, cryptoDraws := StockDayDraws(draws), CryptoDayDraws(draws);
    var i := 0;
    while i < |Weekdays|
      invariant 0 <= i <= |Weekdays|
      invariant AllDraws(stockDraws[..i]) && AllDraws(cryptoDraws[..i])
      invariant stockDays == DayCards(Weekdays[..i], stockDraws[..i])
      invariant cryptoDays == DayCards(Weekdays[..i], cryptoDraws[..i])
    {
      DayCardsSnoc(Weekdays, stockDraws, i);
      DayCardsSnoc(Weekdays, cryptoDraws, i);
      stockDays := stockDays[Weekdays[i] := CardOf(draws[2 * i])];
      cryptoDays := cryptoDays[Weekdays[i] := CardOf(draws[2 * i + 1])];
      i := i + 1;
    }
    assert Weekdays[..i] == Weekdays && stockDraws[..i] == stockDraws && cryptoDraws[..i] == cryptoDraws;
    stock := ReadingOf(draws[10], draws[11], draws[12], stockDays);
    crypto := ReadingOf(draws[13], draws[14], draws[15], cryptoDays);
    ReadingsWellFormed(draws);
  }

  /** The draws c / 22, s / 4 and q / 4 give theme card c, signal s and confluence level q. */
  lemma ReadingOfPicks(themeDraw: real, signalDraw: real, confluenceDraw: real, days: map<string, Card>,
                       c: nat, s: nat, q: nat)
    requires c < |Arcana| && s < |Signals| && q < |Confluences|
    requires themeDraw == c as real / |Arcana| as real
    requires signalDraw == s as real / |Signals| as real
    requires confluenceDraw == q as real / |Confluences| as real
    ensures IsDraw(themeDraw) && IsDraw(signalDraw) && IsDraw(confluenceDraw)
    ensures var r := ReadingOf(themeDraw, signalDraw, confluenceDraw, days);
      r.theme == Arcana[c] && r.signal == Signals[s] && r.confluence == Confluences[q]
  {
    PickReachesEvery(c, |Arcana|);
    PickReachesEvery(s, |Signals|);
    PickReachesEvery(q, |Confluences|);
  }

  /** Every theme card, signal and confluence level can come out of a
      generation: the draws i / n pick entry i of a table of n. */
  lemma EveryOutcomeReachable(draws: seq<real>, c: nat, s: nat, q: nat)
    requires |draws| == ReadingDrawCount && AllDraws(draws)
    requires c < |Arcana| && s < |Signals| && q < |Confluences|
    requires draws[10] == draws[13] == c as real / |Arcana| as real
    requires draws[11] == draws[14] == s as real / |Signals| as real
    requires draws[12] == draws[15] == q as real / |Confluences| as real
    ensures ReadingsFrom(draws).0.theme == Arcana[c] && ReadingsFrom(draws).1.theme == Arcana[c]
    ensures ReadingsFrom(draws).0.signal == Signals[s] && ReadingsFrom(draws).1.signal == Signals[s]
    ensures ReadingsFrom(draws).0.confluence == Confluences[q] && ReadingsFrom(draws).1.confluence == Confluences[q]
  {
    ReadingOfPicks(draws[10], draws[11], draws[12], DayCards(Weekdays, StockDayDraws(draws)), c, s, q);
    ReadingOfPicks(draws[13], draws[14], draws[15], DayCards(Weekdays, CryptoDayDraws(draws)), c, s, q);
  }

  /** The two readings before any generation: fixed themes, signals and
      confluence levels, and day tables drawn by `weekdays.reduce`, the stock
      table's five draws first. */
  function InitialReadings(draws: seq<real>): (MarketReading, MarketReading)
    requires |draws| == 2 * |Weekdays| && AllDraws(draws)
  {
    (MarketReading(Arcana[16], "RISING", "STRONG", DayCards(Weekdays, draws[..5])),
     MarketReading(Arcana[18], "FALLING", "VOLATILE", DayCards(Weekdays, draws[5..])))
  }

  const SignalColors: seq<string> := ["#10B981", "#EF4444", "#F59E0B", "#6B7280"]

  /** `getSignalColor`: the colour of each of the four signals, and the theme's
      secondary text colour for anything else. */
  function SignalColor(signal: string, textSecondary: string): (color: string)
    ensures forall i :: 0 <= i < |Signals| && signal == Signals[i] ==> color == SignalColors[i]
    ensures signal !in Signals ==> color == textSecondary
  {
    match signal
      case "RISING" => "#10B981"
      case "FALLING" => "#EF4444"
      case "VOLATILE" => "#F59E0B"
      case "STAGNANT" => "#6B7280"
      case _ => textSecondary
  }

  /** Distinct signals get distinct colours: when the fallback is none of the
      four signal colours, the colour identifies the signal. */
  lemma SignalColorIdentifiesSignal(a: string, b: string, textSecondary: string)
    requires textSecondary !in SignalColors
    requires SignalColor(a, textSecondary) == SignalColor(b, textSecondary)
    ensures a in Signals <==> b in Signals
    ensures a in Signals ==> a == b
  {
  }

  /** `getConfluenceIntensity`: the bar width for each confluence level. */
  function ConfluenceIntensity(confluence: string): (width: string)
  {
    match confluence
      case "WEAK" => "25%"
      case "MODERATE" => "50%"
      case "STRONG" => "75%"
      case "ABSOLUTE" => "100%"
      case _ => "0%"
  }

  /** The decimal digits of a natural number, most significant first. */
  function Decimal(n: nat): string
    decreases n
  {
    if n < 10 then ["0123456789"[n]] else Decimal(n / 10) + ["0123456789"[n % 10]]
  }

  /** The bar is 25% per rank: the k-th confluence level (from 0) fills
      25 * (k + 1) percent. */
  lemma ConfluenceBarWidth(k: nat)
    requires k < |Confluences|
    ensures ConfluenceIntensity(Confluences[k]) == Decimal(25 * (k + 1)) + "%"
  {
    if k == 0 {
      assert Decimal(25) == "25";
    } else if k == 1 {
      assert Decimal(50) == "50";
    } else if k == 2 {
      assert Decimal(75) == "75";
    } else {
      assert Decimal(10) == "10";
      assert Decimal(100) == "100";
    }
  }

  /** Any string that is not a confluence level gets an empty bar. */
  lemma ConfluenceBarEmpty(confluence: string)
    requires confluence !in Confluences
    ensures ConfluenceIntensity(confluence) == Decimal(0) + "%"
  {
  }

  /** The initial readings: THE TOWER, rising, strong for stocks and THE MOON,
      falling for crypto. The crypto confluence 'VOLATILE' is a signal name, no
      confluence level, so its bar is 0% wide and the initial crypto reading is
      one `generateReadings` never produces. */
  lemma InitialReadingsShape(draws: seq<real>, textSecondary: string)
    requires |draws| == 2 * |Weekdays| && AllDraws(draws)
    ensures var (stock, crypto) := InitialReadings(draws);
      && stock.theme.name == "THE TOWER" && crypto.theme.name == "THE MOON"
      && SignalColor(stock.signal, textSecondary) == "#10B981"
      && SignalColor(crypto.signal, textSecondary) == "#EF4444"
      && ConfluenceIntensity(stock.confluence) == "75%"
      && ConfluenceIntensity(crypto.confluence) == "0%"
      && crypto.confluence !in Confluences
      && !WellFormedReading(crypto)
  {
  }

  /** The initial day tables cover exactly the five weekdays with deck cards,
      so the initial stock reading is well formed. */
  lemma InitialDayTables(draws: seq<real>)
    requires |draws| == 2 * |Weekdays| && AllDraws(draws)
    ensures var (stock, crypto) := InitialReadings(draws);
      && WellFormedReading(stock)
      && crypto.days.Keys == set d | d in Weekdays
      && forall d :: d in crypto.days ==> crypto.days[d] in Arcana
  {
    DayCardsKeys(Weekdays, draws[..5]);
    DayCardsKeys(Weekdays, draws[5..]);
    DayCardsFromDeck(Weekdays, draws[..5]);
    DayCardsFromDeck(Weekdays, draws[5..]);
  }
}
