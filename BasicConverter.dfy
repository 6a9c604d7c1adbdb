/**
 * assignment1.py: the three-category version of the converter. Its Length,
 * Weight and Time branches are those of unit_converter.py; every other
 * category gives `None`. Its script creates the history list only after
 * handling "Convert Now", so appending relies on an earlier run.
 */
module BasicConverter {
  import opened Wrappers
  import opened PyOps
  import opened Labels
  import Ledger
  import SmartConverter

  /** The categories of the drop-down, in order. */
  const Categories := [Length, Weight, Time]

  /** The `units` dictionary of this script. */
  const Units: map<string, seq<string>> := map[
    Length := [KilometersToMiles, MilesToKilometers],
    Weight := [KilogramsToPounds, PoundsToKilograms],
    Time := TimeDirections
  ]

  /** Length and Weight accept any label, Time only its six labels, nothing else converts. */
  predicate Handles(category: string, unit: string)
  {
    category == Length || category == Weight || (category == Time && unit in TimeDirections)
  }

  /** `convert(category, unit, value)` of assignment1.py. */
  function Convert(category: string, unit: string, value: real): (r: Option<real>)
    ensures r.Some? <==> Handles(category, unit)
  {
    if category == Length then
      Some(if Contains(unit, "Kilometers") then value * 0.621371 else value / 0.621371)
    else if category == Weight then
      Some(if Contains(unit, "Kilograms") then value * 2.20462 else value / 2.20462)
    else if category == Time then
      Get(TimeTable(value), unit)
    else
      None
  }

  /** Every category of the drop-down has an entry in `units`, and no other does. */
  lemma CategoriesHaveUnits()
    ensures forall c :: c in Categories <==> c in Units
  {
  }

  /** Every direction that `units` offers for a category converts. */
  lemma ListedDirectionsConvert(category: string, unit: string, value: real)
    requires category in Units && unit in Units[category]
    ensures Convert(category, unit, value).Some?
  {
  }

  /**
   * The three shared categories behave exactly as in unit_converter.py;
   * every other category, Energy and Currency included, gives `None`.
   */
  lemma AgreesWithSmartConverter(category: string, unit: string, value: real)
    ensures category == Length || category == Weight || category == Time
            ==> Convert(category, unit, value) == SmartConverter.Convert(category, unit, value)
    ensures category != Length && category != Weight && category != Time
            ==> Convert(category, unit, value) == None
  {
  }

  /** Both listed Length directions and both Weight directions give the same product. */
  lemma ReverseLabelsMultiply(value: real)
    ensures Convert(Length, KilometersToMiles, value) == Some(value * 0.621371)
    ensures Convert(Length, MilesToKilometers, value) == Some(value * 0.621371)
    ensures Convert(Weight, KilogramsToPounds, value) == Some(value * 2.20462)
    ensures Convert(Weight, PoundsToKilograms, value) == Some(value * 2.20462)
  {
    SmartConverter.ReverseLabelsMultiply(value);
    AgreesWithSmartConverter(Length, KilometersToMiles, value);
    AgreesWithSmartConverter(Length, MilesToKilometers, value);
    AgreesWithSmartConverter(Weight, KilogramsToPounds, value);
    AgreesWithSmartConverter(Weight, PoundsToKilograms, value);
  }

  /** Time pairs undo each other; Length and Weight pairs change every nonzero value. */
  lemma RoundTrip(category: string, a: string, b: string, value: real)
    requires category in Units && SmartConverter.Opposite(category, a, b)
    ensures Convert(category, a, value).Some?
    ensures category == Time ==> Convert(category, b, Convert(category, a, value).value) == Some(value)
    ensures category != Time && value != 0.0
            ==> Convert(category, b, Convert(category, a, value).value) != Some(value)
  {
    var there := Convert(category, a, value);
    AgreesWithSmartConverter(category, a, value);
    assert there.Some?;
    AgreesWithSmartConverter(category, b, there.value);
    if category == Time {
      SmartConverter.RoundTrip(category, a, b, value);
    } else if value != 0.0 {
      SmartConverter.RoundTripBroken(category, a, b, value);
    }
  }

  /** The evidently intended conversion: the label's source unit picks the Length and Weight direction. */
  function ConvertIntended(category: string, unit: string, value: real): (r: Option<real>)
    ensures r.Some? <==> Handles(category, unit)
  {
    if category == Length || category == Weight then
      SmartConverter.ConvertIntended(category, unit, value)
    else
      Convert(category, unit, value)
  }

  /** With the intended dispatch every listed opposite pair round-trips. */
  lemma IntendedRoundTrip(category: string, a: string, b: string, value: real)
    requires category in Units && SmartConverter.Opposite(category, a, b)
    ensures ConvertIntended(category, a, value).Some?
    ensures ConvertIntended(category, b, ConvertIntended(category, a, value).value) == Some(value)
  {
    if category == Time {
      RoundTrip(category, a, b, value);
    } else {
      SmartConverter.IntendedKeywordRoundTrip(category, a, b, value);
    }
  }

  /**
   * One press of "Convert Now": a value that is not positive is rejected,
   * a failed conversion leaves the history alone, and a successful one
   * appends exactly one entry. The list must already exist.
   */
  method ConvertAndRecord(session: Ledger.Session, category: string, unit: string, value: real,
                          valueText: real -> string, resultText: real -> string)
    returns (outcome: Ledger.Outcome)
    requires session.present
    modifies session
    ensures session.present
    ensures value <= 0.0 ==> outcome == Ledger.Rejected
    ensures value > 0.0 ==> outcome == match Convert(category, unit, value)
                                       case None => Ledger.Failed
                                       case Some(r) => Ledger.Converted(r)
    ensures session.history == if outcome.Converted?
      then old(session.history) + [Ledger.Entry(category, unit, valueText(value), resultText(outcome.result))]
      else old(session.history)
  {
    if value <= 0.0 {
      outcome := Ledger.Rejected;
    } else {
      var result := Convert(category, unit, value);
      if result.Some? {
        outcome := Ledger.Converted(result.value);
        session.Append(Ledger.Entry(category, unit, valueText(value), resultText(result.value)));
      } else {
        outcome := Ledger.Failed;
      }
    }
  }

  /**
   * One run of the script, as far as the history goes: handle "Convert
   * Now", then create the list if missing, show the last five entries and
   * handle "Clear History". A press of "Convert Now" therefore needs the
   * list from an earlier run; every run leaves it in place for the next.
   */
  method Rerun(session: Ledger.Session, convertPressed: bool, category: string, unit: string,
               value: real, clearPressed: bool, valueText: real -> string, resultText: real -> string)
    returns (shown: seq<string>)
    requires convertPressed ==> session.present
    modifies session
    ensures session.present
    ensures var start := if old(session.present) then old(session.history) else [];
            var converted := convertPressed && value > 0.0 && Convert(category, unit, value).Some?;
            var after := if converted
              then start + [Ledger.Entry(category, unit, valueText(value),
                                         resultText(Convert(category, unit, value).value))]
              else start;
            shown == PyOps.SliceFrom(after, -(Ledger.Window as int)) &&
            session.history == if clearPressed then [] else after
  {
    if convertPressed {
      var outcome := ConvertAndRecord(session, category, unit, value, valueText, resultText);
    }
    session.Init();
    shown := session.Recent(Ledger.Window);
    if clearPressed {
      session.Clear();
    }
  }
}
