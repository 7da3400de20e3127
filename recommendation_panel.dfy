/** The recommendation panel: the per-mode distance adjustment, the
    metres/kilometres display rule, the per-card decision whether a distance
    is shown, and the four-language label table. The great-circle (haversine)
    distance is not modelled: it is the parameter `greatCircle`. */
module RecommendationPanel {
  import opened Options
  import opened Decimal

  /** A position in decimal degrees. */
  datatype Coordinate = Coordinate(lat: real, lon: real)

  /** A point of interest as the panel receives it. */
  datatype Recommendation = Recommendation(
    id: int,
    name: string,
    description: string,
    image: string,
    rating: real,
    crowdLevel: string,
    bestTime: string,
    category: string,
    location: Coordinate)

  /** One row of the label table. */
  datatype Labels = Labels(
    nearbyAttractions: string,
    crowdLevel: string,
    bestTime: string,
    category: string,
    distance: string)

  const SupportedLanguages: set<string> := {"en", "es", "fr", "de"}

  /** The label table. There is no fallback row: an unknown code finds nothing. */
  function Translations(language: string): (r: Option<Labels>)
    ensures r.Some? <==> language in SupportedLanguages
  {
    if language == "en" then
      Some(Labels("Nearby Attractions", "Crowd Level", "Best Time", "Category", "Distance"))
    else if language == "es" then
      Some(Labels("Atracciones Cercanas", "Nivel de Gente", "Mejor Hora", "Categoría", "Distancia"))
    else if language == "fr" then
      Some(Labels("Attractions à Proximité", "Niveau de Foule", "Meilleur Moment", "Catégorie", "Distance"))
    else if language == "de" then
      Some(Labels("Attraktionen in der Nähe", "Besucherzahl", "Beste Zeit", "Kategorie", "Entfernung"))
    else
      None
  }

  /** The `language` prop defaults to "en" only when it is omitted. */
  function ResolveLanguage(language: Option<string>): (code: string)
    ensures language.None? ==> code == "en"
    ensures language.Some? ==> code == language.value
  {
    language.GetOr("en")
  }

  // ---------------------------------------------------------------------
  // Distance

  /** The `multipliers` object: defined for three modes only, and every
      entry is at least 1, so none of them is falsy. */
  function MultiplierTable(transportMode: string): (m: Option<real>)
    ensures m.Some? <==> transportMode in {"driving-car", "cycling", "foot-walking"}
    ensures m.Some? ==> m.value >= 1.0
  {
    if transportMode == "driving-car" then Some(1.0)
    else if transportMode == "cycling" then Some(1.2)
    else if transportMode == "foot-walking" then Some(1.5)
    else None
  }

  /** `multipliers[mode] || 1`: a missing (or falsy) entry means 1. */
  function ModeMultiplier(transportMode: string): (m: real)
    ensures 1.0 <= m <= 1.5
    ensures m == 1.0 <==> transportMode != "cycling" && transportMode != "foot-walking"
    ensures transportMode == "cycling" ==> m == 1.2
    ensures transportMode == "foot-walking" ==> m == 1.5
  {
    match MultiplierTable(transportMode)
    case Some(v) => if v != 0.0 then v else 1.0
    case None => 1.0
  }

  /** The straight-line distance in km, scaled by the mode's multiplier. */
  function CalculateDistance(greatCircleKm: real, transportMode: string): (d: real)
    ensures greatCircleKm >= 0.0 ==> greatCircleKm <= d <= 1.5 * greatCircleKm
    ensures d == 0.0 <==> greatCircleKm == 0.0
  {
    greatCircleKm * ModeMultiplier(transportMode)
  }

  /** Walking is never shorter than cycling, cycling never shorter than
      driving, and driving (like every unknown mode) is the straight line. */
  lemma ModeOrdering(greatCircleKm: real, unknownMode: string)
    requires greatCircleKm >= 0.0
    requires unknownMode != "cycling" && unknownMode != "foot-walking"
    ensures CalculateDistance(greatCircleKm, "foot-walking") >= CalculateDistance(greatCircleKm, "cycling")
    ensures CalculateDistance(greatCircleKm, "cycling") >= CalculateDistance(greatCircleKm, "driving-car")
    ensures CalculateDistance(greatCircleKm, "driving-car") == greatCircleKm
    ensures CalculateDistance(greatCircleKm, unknownMode) == greatCircleKm
  {
  }

  // ---------------------------------------------------------------------
  // Display

  /** `Math.round` over the reals: the nearest integer, halves upward. */
  function RoundHalfUp(x: real): (n: int)
    ensures x - 0.5 < n as real <= x + 0.5
  {
    (x + 0.5).Floor
  }

  /** `x.toFixed(1)` for a non-negative x: digits, a point and exactly one
      digit, reading as x rounded to the nearest tenth. */
  function ToFixed1(x: real): (r: string)
    requires x >= 0.0
    ensures |r| >= 3 && r[|r| - 2] == '.' && AllDigits(r[..|r| - 2]) && IsDigit(r[|r| - 1])
    ensures DigitsValue(r[..|r| - 2]) * 10 + DigitValue(r[|r| - 1]) == RoundHalfUp(x * 10.0)
    ensures |r| > 3 ==> r[0] != '0'
  {
    var n := RoundHalfUp(x * 10.0);
    var whole := NatText(n / 10);
    var r := whole + "." + [DigitChar(n % 10)];
    assert r[..|r| - 2] == whole;
    NatTextRoundTrip(n / 10);
    DigitRoundTrip(n % 10);
    r
  }

  /** The unit suffix of a displayed distance is "km". */
  predicate ShowsKm(s: string) {
    |s| >= 2 && s[|s| - 2..] == "km"
  }

  /** `formatDistanceStr`: whole metres under 1 km, else km to one decimal.
      The text always ends in "m"; it ends in "km" exactly from 1 km upward,
      and below that the "m" follows a digit. */
  function FormatDistance(distance: real): (s: string)
    ensures |s| >= 2 && s[|s| - 1] == 'm'
    ensures ShowsKm(s) <==> distance >= 1.0
    ensures distance < 1.0 ==> IsDigit(s[|s| - 2])
  {
    if distance < 1.0 then
      var m := RoundHalfUp(distance * 1000.0);
      var t := IntText(m);
      assert IsDigit(t[|t| - 1]) by {
        if m < 0 { assert t[|t| - 1] == t[1..][|t| - 2]; }
      }
      var s := t + "m";
      assert s[|s| - 2..][0] == t[|t| - 1];
      s
    else
      ToFixed1(distance) + "km"
  }

  /** Reads a displayed distance back as kilometres: "<digits>.<digit>km"
      or "<digits>m". */
  function DisplayedKm(s: string): Option<real> {
    if |s| >= 5 && s[|s| - 2..] == "km" && s[|s| - 4] == '.' && IsDigit(s[|s| - 3])
       && AllDigits(s[..|s| - 4])
    then
      Some(DigitsValue(s[..|s| - 4]) as real + DigitValue(s[|s| - 3]) as real / 10.0)
    else if |s| >= 2 && s[|s| - 1] == 'm' && AllDigits(s[..|s| - 1]) then
      Some(DigitsValue(s[..|s| - 1]) as real / 1000.0)
    else
      None
  }

  /** Below 1 km the text is a whole number of metres in [0, 1000]; 1000
      itself appears for distances in [0.9995, 1). */
  lemma FormatMetres(distance: real)
    requires 0.0 <= distance < 1.0
    ensures var m := RoundHalfUp(distance * 1000.0);
      0 <= m <= 1000 && FormatDistance(distance) == NatText(m) + "m"
    ensures distance >= 0.9995 ==> FormatDistance(distance) == "1000m"
  {
  }

  /** The displayed text reads back to within half a unit of the distance:
      half a metre below 1 km, half a tenth of a kilometre from 1 km on. */
  lemma FormatAccuracy(distance: real)
    requires distance >= 0.0
    ensures DisplayedKm(FormatDistance(distance)).Some?
    ensures var v := DisplayedKm(FormatDistance(distance)).value;
      if distance < 1.0 then distance - 0.0005 < v <= distance + 0.0005
      else distance - 0.05 < v <= distance + 0.05
  {
    if distance < 1.0 {
      MetresAccuracy(distance);
    } else {
      KilometresAccuracy(distance);
    }
  }

  lemma MetresAccuracy(distance: real)
    requires 0.0 <= distance < 1.0
    ensures DisplayedKm(FormatDistance(distance)).Some?
    ensures var v := DisplayedKm(FormatDistance(distance)).value;
      distance - 0.0005 < v <= distance + 0.0005
  {
    var s := FormatDistance(distance);
    var m := RoundHalfUp(distance * 1000.0);
    var t := IntText(m);
    assert s == t + "m";
    assert s[..|s| - 1] == t;
    assert !ShowsKm(s);
    assert DisplayedKm(s) == Some(DigitsValue(t) as real / 1000.0);
  }

  lemma KilometresAccuracy(distance: real)
    requires distance >= 1.0
    ensures DisplayedKm(FormatDistance(distance)).Some?
    ensures var v := DisplayedKm(FormatDistance(distance)).value;
      distance - 0.05 < v <= distance + 0.05
  {
    var s := FormatDistance(distance);
    var fixed := ToFixed1(distance);
    assert s == fixed + "km";
    assert s[..|s| - 4] == fixed[..|fixed| - 2];
    assert s[|s| - 2..] == "km";
    var n := RoundHalfUp(distance * 10.0);
    var w, d := DigitsValue(fixed[..|fixed| - 2]), DigitValue(fixed[|fixed| - 1]);
    assert DisplayedKm(s) == Some(w as real + d as real / 10.0);
    assert w as real + d as real / 10.0 == n as real / 10.0;
  }

  /** Pinned examples of the display rule below 1 km: half a kilometre,
      a distance that rounds up to 5 m, and one that rounds up to 1000 m. */
  lemma FormatExampleHalfKm()
    ensures FormatDistance(0.5) == "500m"
  {
    FormatMetres(0.5);
    assert RoundHalfUp(0.5 * 1000.0) == 500 && NatText(500) == "500";
  }

  lemma FormatExampleFiveMetres()
    ensures FormatDistance(0.0049) == "5m"
  {
    var d := 0.0049;
    FormatMetres(d);
    assert d * 1000.0 == 4.9;
    assert RoundHalfUp(d * 1000.0) == 5;
    assert NatText(5) == [DigitChar(5)] == "5";
  }

  lemma FormatExampleThousandMetres()
    ensures FormatDistance(0.9996) == "1000m"
  {
    FormatMetres(0.9996);
  }

  /** Pinned examples of the display rule from 1 km on. */
  lemma FormatExamplesKilometres()
    ensures FormatDistance(1.0) == "1.0km"
    ensures FormatDistance(19.46) == "19.5km"
  {
    assert RoundHalfUp(10.0) == 10 && NatText(1) == "1";
    assert RoundHalfUp(194.6) == 195 && NatText(19) == "19";
  }

  // ---------------------------------------------------------------------
  // Cards

  /** What `{distance && (...)}` leaves in a card's info row: `null`
      renders nothing; the number 0 is printed by React as a bare "0",
      without icon or unit; otherwise the distance element with its text. */
  datatype DistanceSlot = NoDistance | BareZero | Shown(text: string)

  /** The characters a distance slot puts on screen. */
  function SlotText(slot: DistanceSlot): string {
    match slot
    case NoDistance => ""
    case BareZero => "0"
    case Shown(text) => text
  }

  /** One rendered card: the place and its distance slot. */
  datatype Card = Card(place: Recommendation, distance: DistanceSlot)

  /** What the panel renders: the heading and one card per place. */
  datatype PanelView = PanelView(heading: string, cards: seq<Card>)

  /** The adjusted distance to a place, or nothing without a user location. */
  function PlaceDistance(
    userLocation: Option<Coordinate>, place: Recommendation, transportMode: string,
    greatCircle: (Coordinate, Coordinate) -> real): (d: Option<real>)
    ensures d.Some? <==> userLocation.Some?
    ensures d.Some? ==> (d.value == 0.0 <==> greatCircle(userLocation.value, place.location) == 0.0)
    ensures d.Some? && greatCircle(userLocation.value, place.location) >= 0.0 ==>
      d.value >= greatCircle(userLocation.value, place.location)
  {
    if userLocation.Some? then
      Some(CalculateDistance(greatCircle(userLocation.value, place.location), transportMode))
    else
      None
  }

  /** The card for one place, as the code renders it: no distance without
      a user location; a bare "0" when the place is at zero straight-line
      distance, whatever the mode; otherwise the formatted distance, which
      reads back as a distance whenever the straight line is non-negative. */
  function CardFor(
    place: Recommendation, userLocation: Option<Coordinate>, transportMode: string,
    greatCircle: (Coordinate, Coordinate) -> real): (c: Card)
    ensures c.place == place
    ensures c.distance.NoDistance? <==> userLocation.None?
    ensures c.distance.BareZero? <==>
      userLocation.Some? && greatCircle(userLocation.value, place.location) == 0.0
    ensures c.distance.Shown? ==>
      c.distance.text == FormatDistance(
        CalculateDistance(greatCircle(userLocation.value, place.location), transportMode))
    ensures c.distance.Shown? && greatCircle(userLocation.value, place.location) >= 0.0 ==>
      DisplayedKm(c.distance.text).Some?
  {
    var distance := PlaceDistance(userLocation, place, transportMode, greatCircle);
    if distance.None? then
      Card(place, NoDistance)
    else if !Truthy(distance) then
      Card(place, BareZero)
    else
      var text := FormatDistance(distance.value);
      assert distance.value >= 0.0 ==> DisplayedKm(text).Some? by {
        if distance.value >= 0.0 { FormatAccuracy(distance.value); }
      }
      Card(place, Shown(text))
  }

  /** The card as evidently intended: the distance is shown whenever the
      user location is known, so a place at zero distance reads "0m". */
  function IntendedCardFor(
    place: Recommendation, userLocation: Option<Coordinate>, transportMode: string,
    greatCircle: (Coordinate, Coordinate) -> real): (c: Card)
    ensures c.place == place
    ensures c.distance.NoDistance? <==> userLocation.None?
    ensures !c.distance.BareZero?
    ensures c.distance.Shown? ==>
      c.distance.text == FormatDistance(
        CalculateDistance(greatCircle(userLocation.value, place.location), transportMode))
  {
    var distance := PlaceDistance(userLocation, place, transportMode, greatCircle);
    if distance.None? then Card(place, NoDistance)
    else Card(place, Shown(FormatDistance(distance.value)))
  }

  /** The code and the intended card differ exactly at zero distance, where
      the code prints "0" and the intended card "0m". */
  lemma StrayZero(
    place: Recommendation, userLocation: Option<Coordinate>, transportMode: string,
    greatCircle: (Coordinate, Coordinate) -> real)
    ensures CardFor(place, userLocation, transportMode, greatCircle)
      != IntendedCardFor(place, userLocation, transportMode, greatCircle)
      <==> userLocation.Some? && greatCircle(userLocation.value, place.location) == 0.0
    ensures userLocation.Some? && greatCircle(userLocation.value, place.location) == 0.0 ==>
      SlotText(CardFor(place, userLocation, transportMode, greatCircle).distance) == "0"
      && SlotText(IntendedCardFor(place, userLocation, transportMode, greatCircle).distance) == "0m"
  {
    if userLocation.Some? && greatCircle(userLocation.value, place.location) == 0.0 {
      assert RoundHalfUp(0.0 * 1000.0) == 0;
    }
  }

  /** `recommendations.map(...)`: one card per place, in input order. */
  function Cards(
    recommendations: seq<Recommendation>, userLocation: Option<Coordinate>,
    transportMode: string, greatCircle: (Coordinate, Coordinate) -> real): (cards: seq<Card>)
    ensures |cards| == |recommendations|
    ensures forall i :: 0 <= i < |recommendations| ==>
      cards[i] == CardFor(recommendations[i], userLocation, transportMode, greatCircle)
  {
    if recommendations == [] then []
    else
      [CardFor(recommendations[0], userLocation, transportMode, greatCircle)]
      + Cards(recommendations[1..], userLocation, transportMode, greatCircle)
  }

  /** The whole panel. The heading is read from the label row of the
      language. An unsupported code has no row, and reading the heading of
      the missing row throws a TypeError during rendering: None stands for
      that failed render. */
  function Panel(
    recommendations: seq<Recommendation>, userLocation: Option<Coordinate>,
    transportMode: string, language: Option<string>,
    greatCircle: (Coordinate, Coordinate) -> real): (r: Option<PanelView>)
    ensures r.Some? <==> ResolveLanguage(language) in SupportedLanguages
  {
    var t := Translations(ResolveLanguage(language));
    if t.None? then None
    else Some(PanelView(t.value.nearbyAttractions,
                        Cards(recommendations, userLocation, transportMode, greatCircle)))
  }

  /** An omitted language renders the English heading; a supplied
      unsupported code (even one that differs from "en" only in case) does
      not fall back to English: the render fails. */
  lemma PanelLanguage(
    recommendations: seq<Recommendation>, userLocation: Option<Coordinate>,
    transportMode: string, code: string, greatCircle: (Coordinate, Coordinate) -> real)
    ensures Panel(recommendations, userLocation, transportMode, None, greatCircle)
      == Some(PanelView("Nearby Attractions", Cards(recommendations, userLocation, transportMode, greatCircle)))
    ensures code !in SupportedLanguages ==>
      Panel(recommendations, userLocation, transportMode, Some(code), greatCircle) == None
  {
  }

  /** The rendered cards are the places, one each, none dropped or
      reordered; without a user location none shows a distance. */
  lemma {:induction false} PanelCards(
    recommendations: seq<Recommendation>, userLocation: Option<Coordinate>,
    transportMode: string, language: Option<string>,
    greatCircle: (Coordinate, Coordinate) -> real)
    requires Panel(recommendations, userLocation, transportMode, language, greatCircle).Some?
    ensures var cards := Panel(recommendations, userLocation, transportMode, language, greatCircle).value.cards;
      |cards| == |recommendations|
      && (forall i :: 0 <= i < |cards| ==> cards[i].place == recommendations[i])
      && (userLocation.None? ==> forall i :: 0 <= i < |cards| ==> cards[i].distance.NoDistance?)
  {
  }
}
