/**
 * unit_converter.py: the eight-category converter. `Convert` is its
 * `convert(category, unit, value)`; `ConvertAndRecord` is what one press of
 * "Convert Now" does to the session history; `Rerun` is one run of the
 * script as far as the history is concerned.
 *
 * Values are reals, so every constant is exact and every formula is a
 * linear or affine map.
 */
module SmartConverter {
  import opened Wrappers
  import opened PyOps
  import opened Labels
  import Ascii
  import Ledger

  /** The categories of the first drop-down, in order. */
  const Categories := [Length, Weight, Time, Energy, Currency, Temperature, Speed, Volume]

  /** The `units` dictionary: the directions offered for each category. */
  const Units: map<string, seq<string>> := map[
    Length := [KilometersToMiles, MilesToKilometers],
    Weight := [KilogramsToPounds, PoundsToKilograms],
    Time := TimeDirections,
    Energy := [JoulesToKilojoules, KilojoulesToJoules],
    Currency := [UsdToEur, EurToUsd],
    Temperature := [CelsiusToFahrenheit, FahrenheitToCelsius],
    Speed := [KmhToMph, MphToKmh],
    Volume := [LitersToGallons, GallonsToLiters]
  ]

  /**
   * The pairs for which `convert` returns a number. Length, Weight, Energy
   * and Currency accept any label; Time, Temperature, Speed and Volume
   * accept only their own labels, spelled exactly.
   */
  predicate Handles(category: string, unit: string)
  {
    category == Length || category == Weight || category == Energy || category == Currency
    || (category == Time && unit in TimeDirections)
    || (category == Temperature && (unit == CelsiusToFahrenheit || unit == FahrenheitToCelsius))
    || (category == Speed && (unit == KmhToMph || unit == MphToKmh))
    || (category == Volume && (unit == LitersToGallons || unit == GallonsToLiters))
  }

  /** `convert(category, unit, value)`: `None` is Python's `None`. */
  function Convert(category: string, unit: string, value: real): (r: Option<real>)
    ensures r.Some? <==> Handles(category, unit)
  {
    if category == Length then
      Some(if Contains(unit, "Kilometers") then value * 0.621371 else value / 0.621371)
    else if category == Weight then
      Some(if Contains(unit, "Kilograms") then value * 2.20462 else value / 2.20462)
    else if category == Time then
      Get(TimeTable(value), unit)
    else if category == Energy then
      Some(if Contains(unit, "Joules") then value * 1000.0 else value / 1000.0)
    else if category == Currency then
      Some(value * GetOr(map[UsdToEur := 0.85, EurToUsd := 1.18], unit, 1.0))
    else if category == Temperature then
      if unit == CelsiusToFahrenheit then Some(value * 9.0 / 5.0 + 32.0)
      else if unit == FahrenheitToCelsius then Some((value - 32.0) * 5.0 / 9.0)
      else None
    else if category == Speed then
      if unit == KmhToMph then Some(value * 0.621371)
      else if unit == MphToKmh then Some(value / 0.621371)
      else None
    else if category == Volume then
      if unit == LitersToGallons then Some(value * 0.264172)
      else if unit == GallonsToLiters then Some(value / 0.264172)
      else None
    else
      None
  }

  /** Every category of the drop-down has an entry in `units`, and no other does. */
  lemma CategoriesHaveUnits()
    ensures forall c :: c in Categories <==> c in Units
  {
  }

  /** Every direction that `units` offers for a category converts. */
  lemma ListedDirectionsConvert(category: string, unit: string, value: real)
    requires category in Units && unit in Units[category]
    ensures Convert(category, unit, value).Some?
  {
  }

  /** The keyword that Length, Weight and Energy look for in the label, and its factor. */
  function Keyword(category: string): string
  {
    if category == Length then "Kilometers"
    else if category == Weight then "Kilograms"
    else "Joules"
  }

  function KeywordFactor(category: string): real
  {
    if category == Length then 0.621371
    else if category == Weight then 2.20462
    else 1000.0
  }

  /**
   * Length, Weight and Energy test for a word in the label: a nonzero value
   * is multiplied exactly when the label contains the word, and divided
   * exactly when it does not.
   */
  lemma KeywordDecides(category: string, unit: string, value: real)
    requires category == Length || category == Weight || category == Energy
    requires value != 0.0
    ensures Convert(category, unit, value) == Some(value * KeywordFactor(category))
            <==> Contains(unit, Keyword(category))
    ensures Convert(category, unit, value) == Some(value / KeywordFactor(category))
            <==> !Contains(unit, Keyword(category))
  {
    var f := KeywordFactor(category);
    assert f * f != 1.0;
    ScaledDiffer(value, f);
  }

  lemma NonzeroProduct(x: real, y: real)
    requires x != 0.0 && y != 0.0
    ensures x * y != 0.0
  {
  }

  /** Multiplying and dividing by a factor that is not its own inverse differ. */
  lemma ScaledDiffer(value: real, f: real)
    requires value != 0.0 && f > 0.0 && f * f != 1.0
    ensures value * f != value / f
  {
    NonzeroProduct(value, f * f - 1.0);
    assert value * f - value / f == value * (f * f - 1.0) / f;
  }

  /** Both Length labels contain "Kilometers", so both multiply by 0.621371. */
  lemma LengthLabelsMultiply(value: real)
    ensures Convert(Length, KilometersToMiles, value) == Some(value * 0.621371)
    ensures Convert(Length, MilesToKilometers, value) == Some(value * 0.621371)
  {
    ContainsAt(KilometersToMiles, "Kilometers", 0);
    assert MilesToKilometers == "Miles ➡️ " + "Kilometers";
    ContainsTail("Miles ➡️ ", "Kilometers");
  }

  /** Both Weight labels contain "Kilograms", so both multiply by 2.20462. */
  lemma WeightLabelsMultiply(value: real)
    ensures Convert(Weight, KilogramsToPounds, value) == Some(value * 2.20462)
    ensures Convert(Weight, PoundsToKilograms, value) == Some(value * 2.20462)
  {
    ContainsAt(KilogramsToPounds, "Kilograms", 0);
    assert PoundsToKilograms == "Pounds ➡️ " + "Kilograms";
    ContainsTail("Pounds ➡️ ", "Kilograms");
  }

  /** Both Energy labels contain "Joules", so both multiply by 1000. */
  lemma EnergyLabelsMultiply(value: real)
    ensures Convert(Energy, JoulesToKilojoules, value) == Some(value * 1000.0)
    ensures Convert(Energy, KilojoulesToJoules, value) == Some(value * 1000.0)
  {
    ContainsAt(JoulesToKilojoules, "Joules", 0);
    assert KilojoulesToJoules == "Kilojoules ➡️ " + "Joules";
    ContainsTail("Kilojoules ➡️ ", "Joules");
  }

  /**
   * Both listed Length directions contain "Kilometers", both Weight
   * directions contain "Kilograms" and both Energy directions contain
   * "Joules", so each pair gives one and the same product.
   */
  lemma ReverseLabelsMultiply(value: real)
    ensures Convert(Length, KilometersToMiles, value) == Some(value * 0.621371)
    ensures Convert(Length, MilesToKilometers, value) == Some(value * 0.621371)
    ensures Convert(Weight, KilogramsToPounds, value) == Some(value * 2.20462)
    ensures Convert(Weight, PoundsToKilograms, value) == Some(value * 2.20462)
    ensures Convert(Energy, JoulesToKilojoules, value) == Some(value * 1000.0)
    ensures Convert(Energy, KilojoulesToJoules, value) == Some(value * 1000.0)
  {
    LengthLabelsMultiply(value);
    WeightLabelsMultiply(value);
    EnergyLabelsMultiply(value);
  }

  /** A label without the keyword divides, even one that belongs to another category. */
  lemma ForeignLabelDivides()
    ensures Convert(Length, CelsiusToFahrenheit, 5.0) == Some(5.0 / 0.621371)
  {
    NotContainsFirst(CelsiusToFahrenheit, "Kilometers");
  }

  /** A word whose first letter does not occur in `s` does not occur in `s`. */
  lemma {:induction false} NotContainsFirst(s: string, sub: string)
    requires |sub| > 0 && forall i :: 0 <= i < |s| ==> s[i] != sub[0]
    ensures !Contains(s, sub)
    decreases |s|
  {
    if |s| > 0 {
      assert s[0] != sub[0];
      assert forall i :: 0 <= i < |s[1..]| ==> s[1..][i] == s[i + 1];
      NotContainsFirst(s[1..], sub);
    }
  }

  /**
   * Currency: the two listed directions use fixed rates; any other label
   * uses the default rate 1 and returns the value unchanged.
   */
  lemma CurrencyRates(unit: string, value: real)
    ensures Convert(Currency, UsdToEur, value) == Some(value * 0.85)
    ensures Convert(Currency, EurToUsd, value) == Some(value * 1.18)
    ensures unit != UsdToEur && unit != EurToUsd ==> Convert(Currency, unit, value) == Some(value)
  {
  }

  /** Reference values of single conversions: the freezing point both ways, two hours, ten kilometres, zero pounds. */
  lemma Landmarks()
    ensures Convert(Temperature, CelsiusToFahrenheit, 0.0) == Some(32.0)
    ensures Convert(Temperature, FahrenheitToCelsius, 32.0) == Some(0.0)
    ensures Convert(Time, HoursToMinutes, 2.0) == Some(120.0)
    ensures Convert(Length, KilometersToMiles, 10.0) == Some(6.21371)
    ensures Convert(Weight, PoundsToKilograms, 0.0) == Some(0.0)
  {
    ContainsAt(KilometersToMiles, "Kilometers", 0);
  }

  /** `a` and `b` are `x` and `y`, in either order. */
  predicate Swapped(a: string, b: string, x: string, y: string)
  {
    (a == x && b == y) || (a == y && b == x)
  }

  /** Two listed directions of one category that name the same units in opposite order. */
  predicate Opposite(category: string, a: string, b: string)
  {
    (category == Length && Swapped(a, b, KilometersToMiles, MilesToKilometers))
    || (category == Weight && Swapped(a, b, KilogramsToPounds, PoundsToKilograms))
    || (category == Time && (Swapped(a, b, SecondsToMinutes, MinutesToSeconds)
                             || Swapped(a, b, MinutesToHours, HoursToMinutes)
                             || Swapped(a, b, HoursToDays, DaysToHours)))
    || (category == Energy && Swapped(a, b, JoulesToKilojoules, KilojoulesToJoules))
    || (category == Currency && Swapped(a, b, UsdToEur, EurToUsd))
    || (category == Temperature && Swapped(a, b, CelsiusToFahrenheit, FahrenheitToCelsius))
    || (category == Speed && Swapped(a, b, KmhToMph, MphToKmh))
    || (category == Volume && Swapped(a, b, LitersToGallons, GallonsToLiters))
  }

  /** The Time table divides and multiplies by the same 60 or 24. */
  lemma TimeRoundTrip(a: string, b: string, value: real)
    requires Opposite(Time, a, b)
    ensures Convert(Time, a, value).Some?
    ensures Convert(Time, b, Convert(Time, a, value).value) == Some(value)
  {
    var m := TimeTable(value);
    var back := TimeTable(m[a]);
    assert back[b] == value;
  }

  /** Time, Temperature, Speed and Volume: converting there and back gives the value back. */
  lemma RoundTrip(category: string, a: string, b: string, value: real)
    requires Opposite(category, a, b)
    requires category == Time || category == Temperature || category == Speed || category == Volume
    ensures Convert(category, a, value).Some?
    ensures Convert(category, b, Convert(category, a, value).value) == Some(value)
  {
    if category == Time {
      TimeRoundTrip(a, b, value);
    }
  }

  /** Applying a factor twice, or two factors whose product is not 1, changes a nonzero value. */
  lemma TwiceScaledDiffers(value: real, f: real, g: real)
    requires value != 0.0 && f * g != 1.0
    ensures value * f * g != value
  {
    NonzeroProduct(value, f * g - 1.0);
    assert value * f * g - value == value * (f * g - 1.0);
  }

  /** Both directions of a keyword category multiply by the same factor, so a round-trip squares it. */
  lemma KeywordRoundTripBroken(category: string, a: string, b: string, value: real)
    requires Opposite(category, a, b)
    requires category == Length || category == Weight || category == Energy
    requires value != 0.0
    ensures Convert(category, a, value).Some?
    ensures Convert(category, b, Convert(category, a, value).value) != Some(value)
  {
    var f := KeywordFactor(category);
    if category == Length {
      LengthLabelsMultiply(value);
      LengthLabelsMultiply(value * f);
    } else if category == Weight {
      WeightLabelsMultiply(value);
      WeightLabelsMultiply(value * f);
    } else {
      EnergyLabelsMultiply(value);
      EnergyLabelsMultiply(value * f);
    }
    TwiceScaledDiffers(value, f, f);
  }

  /** 0.85 and 1.18 are not reciprocals, so a Currency round-trip changes a nonzero value. */
  lemma CurrencyRoundTripBroken(a: string, b: string, value: real)
    requires Opposite(Currency, a, b)
    requires value != 0.0
    ensures Convert(Currency, a, value).Some?
    ensures Convert(Currency, b, Convert(Currency, a, value).value) != Some(value)
  {
    var f := if a == UsdToEur then 0.85 else 1.18;
    var g := if a == UsdToEur then 1.18 else 0.85;
    assert Convert(Currency, a, value) == Some(value * f);
    assert Convert(Currency, b, value * f) == Some(value * f * g);
    TwiceScaledDiffers(value, f, g);
  }

  /**
   * Length, Weight, Energy and Currency: there and back changes every
   * nonzero value, Length, Weight and Energy because both directions
   * multiply, Currency because 0.85 and 1.18 are not reciprocals.
   */
  lemma RoundTripBroken(category: string, a: string, b: string, value: real)
    requires Opposite(category, a, b)
    requires category == Length || category == Weight || category == Energy || category == Currency
    requires value != 0.0
    ensures Convert(category, a, value).Some?
    ensures Convert(category, b, Convert(category, a, value).value) != Some(value)
  {
    if category == Currency {
      CurrencyRoundTripBroken(a, b, value);
    } else {
      KeywordRoundTripBroken(category, a, b, value);
    }
  }

  /**
   * The conversion the Length, Weight and Energy branches evidently mean:
   * the label's source unit, not any mention of the word, picks the
   * direction. Energy uses 1 kJ = 1000 J. Every other category is `Convert`.
   */
  function ConvertIntended(category: string, unit: string, value: real): (r: Option<real>)
    ensures r.Some? <==> Handles(category, unit)
  {
    if category == Length then
      Some(if "Kilometers" <= unit then value * 0.621371 else value / 0.621371)
    else if category == Weight then
      Some(if "Kilograms" <= unit then value * 2.20462 else value / 2.20462)
    else if category == Energy then
      Some(if "Kilojoules" <= unit then value * 1000.0 else value / 1000.0)
    else
      Convert(category, unit, value)
  }

  /** The correction leaves every category but Length, Weight and Energy as it was. */
  lemma IntendedAgreesElsewhere(category: string, unit: string, value: real)
    requires category != Length && category != Weight && category != Energy
    ensures ConvertIntended(category, unit, value) == Convert(category, unit, value)
  {
  }

  /** The correction keeps the forward labels of Length, Weight and Energy as they were. */
  lemma IntendedKeepsForward(value: real)
    ensures ConvertIntended(Length, KilometersToMiles, value) == Some(value * 0.621371)
    ensures ConvertIntended(Weight, KilogramsToPounds, value) == Some(value * 2.20462)
    ensures ConvertIntended(Energy, KilojoulesToJoules, value) == Some(value * 1000.0)
  {
    assert KilometersToMiles[..10] == "Kilometers";
    assert KilogramsToPounds[..9] == "Kilograms";
    assert KilojoulesToJoules[..10] == "Kilojoules";
  }

  /**
   * What the correction changes: "Miles ➡️ Kilometers" and "Pounds ➡️ Kilograms"
   * now divide, and so does "Joules ➡️ Kilojoules", since 1 kJ = 1000 J.
   */
  lemma IntendedChangesReverse(value: real)
    ensures ConvertIntended(Length, MilesToKilometers, value) == Some(value / 0.621371)
    ensures ConvertIntended(Weight, PoundsToKilograms, value) == Some(value / 2.20462)
    ensures ConvertIntended(Energy, JoulesToKilojoules, value) == Some(value / 1000.0)
  {
    assert MilesToKilometers[0] == 'M';
    assert PoundsToKilograms[0] == 'P';
    assert JoulesToKilojoules[0] == 'J';
  }

  /** The intended Length, Weight and Energy branches divide by the factor they multiply by. */
  lemma IntendedKeywordRoundTrip(category: string, a: string, b: string, value: real)
    requires Opposite(category, a, b)
    requires category == Length || category == Weight || category == Energy
    ensures ConvertIntended(category, a, value).Some?
    ensures ConvertIntended(category, b, ConvertIntended(category, a, value).value) == Some(value)
  {
    // Each forward label starts with its word; no reverse label does.
    var (f, x, y) :=
      if category == Length then (0.621371, KilometersToMiles, MilesToKilometers)
      else if category == Weight then (2.20462, KilogramsToPounds, PoundsToKilograms)
      else (1000.0, KilojoulesToJoules, JoulesToKilojoules);
    assert KilometersToMiles[..10] == "Kilometers" && MilesToKilometers[0] == 'M';
    assert KilogramsToPounds[..9] == "Kilograms" && PoundsToKilograms[0] == 'P';
    assert KilojoulesToJoules[..10] == "Kilojoules" && JoulesToKilojoules[0] == 'J';
    assert ConvertIntended(category, x, value) == Some(value * f);
    assert ConvertIntended(category, y, value) == Some(value / f);
    assert ConvertIntended(category, y, value * f) == Some(value);
    assert ConvertIntended(category, x, value / f) == Some(value);
  }

  /** With the intended dispatch every opposite pair except Currency round-trips. */
  lemma IntendedRoundTrip(category: string, a: string, b: string, value: real)
    requires Opposite(category, a, b) && category != Currency
    ensures ConvertIntended(category, a, value).Some?
    ensures ConvertIntended(category, b, ConvertIntended(category, a, value).value) == Some(value)
  {
    if category == Length || category == Weight || category == Energy {
      IntendedKeywordRoundTrip(category, a, b, value);
    } else {
      RoundTrip(category, a, b, value);
    }
  }

  /** `"History: " + remove_emojis(record)`: one line of the PDF report. */
  function ReportLine(record: string): string
  {
    "History: " + Ascii.RemoveEmojis(record)
  }

  /** The loop that writes the last history records into the report, one cleaned line each. */
  method ReportLines(records: seq<string>) returns (lines: seq<string>)
    ensures |lines| == |records|
    ensures forall i :: 0 <= i < |records| ==> lines[i] == ReportLine(records[i])
    ensures forall i :: 0 <= i < |lines| ==> Ascii.IsAscii(lines[i])
  {
    lines := [];
    for i := 0 to |records|
      invariant |lines| == i
      invariant forall j :: 0 <= j < i ==> lines[j] == ReportLine(records[j])
      invariant forall j :: 0 <= j < i ==> Ascii.IsAscii(lines[j])
    {
      var clean := Ascii.RemoveEmojis(records[i]);
      assert Ascii.IsAscii("History: ");
      lines := lines + ["History: " + clean];
    }
  }

  /**
   * One press of "Convert Now": a value that is not positive is rejected,
   * a failed conversion leaves the history alone, and a successful one
   * appends exactly one entry and produces the report of the last five
   * entries. `valueText` and `resultText` render the two numbers.
   */
  method ConvertAndRecord(session: Ledger.Session, category: string, unit: string, value: real,
                          valueText: real -> string, resultText: real -> string)
    returns (outcome: Ledger.Outcome, report: seq<string>)
    requires session.present
    modifies session
    ensures session.present
    ensures value <= 0.0 ==> outcome == Ledger.Rejected
    ensures value > 0.0 ==> outcome == match Convert(category, unit, value)
                                       case None => Ledger.Failed
                                       case Some(r) => Ledger.Converted(r)
    ensures session.history == if outcome.Converted?
      then old(session.history) + [Ledger.Entry(category, unit, valueText(value), resultText(outcome.result))]
      else old(session.history)
    ensures |report| == if outcome.Converted? then |session.Recent(Ledger.Window)| else 0
    ensures forall i :: 0 <= i < |report| ==> report[i] == ReportLine(session.Recent(Ledger.Window)[i])
  {
    report := [];
    if value <= 0.0 {
      outcome := Ledger.Rejected;
    } else {
      var result := Convert(category, unit, value);
      if result.Some? {
        outcome := Ledger.Converted(result.value);
        session.Append(Ledger.Entry(category, unit, valueText(value), resultText(result.value)));
        report := ReportLines(session.Recent(Ledger.Window));
      } else {
        outcome := Ledger.Failed;
      }
    }
  }

  /**
   * One run of the script, as far as the history goes: create the list if
   * missing, handle "Convert Now", show the last five entries, then handle
   * "Clear History". The entries shown are taken before the clear.
   */
  method Rerun(session: Ledger.Session, convertPressed: bool, category: string, unit: string,
               value: real, clearPressed: bool, valueText: real -> string, resultText: real -> string)
    returns (shown: seq<string>)
    modifies session
    ensures session.present
    ensures var start := if old(session.present) then old(session.history) else [];
            var converted := convertPressed && value > 0.0 && Convert(category, unit, value).Some?;
            var after := if converted
              then start + [Ledger.Entry(category, unit, valueText(value),
                                         resultText(Convert(category, unit, value).value))]
              else start;
            shown == PyOps.SliceFrom(after, -(Ledger.Window as int)) &&
            session.history == if clearPressed then [] else after
  {
    session.Init();
    if convertPressed {
      var outcome, report := ConvertAndRecord(session, category, unit, value, valueText, resultText);
    }
    shown := session.Recent(Ledger.Window);
    if clearPressed {
      session.Clear();
    }
  }
}
