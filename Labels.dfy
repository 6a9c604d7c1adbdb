/**
 * The category and direction labels the converter scripts show in their
 * drop-downs and dispatch on, emoji included, and the Time table that both
 * `convert` functions build. Labels shared by both scripts are defined once.
 */
module Labels {

  // Categories.
  const Length := "📏 Length"
  const Weight := "⚖️ Weight"
  const Time := "⏰ Time"
  const Energy := "💡 Energy"
  const Currency := "💰 Currency"
  const Temperature := "🌡️ Temperature"
  const Speed := "🏃 Speed"
  const Volume := "🧴 Volume"

  // Directions.
  const KilometersToMiles := "Kilometers ➡️ Miles"
  const MilesToKilometers := "Miles ➡️ Kilometers"
  const KilogramsToPounds := "Kilograms ➡️ Pounds"
  const PoundsToKilograms := "Pounds ➡️ Kilograms"
  const SecondsToMinutes := "Seconds ➡️ Minutes"
  const MinutesToSeconds := "Minutes ➡️ Seconds"
  const MinutesToHours := "Minutes ➡️ Hours"
  const HoursToMinutes := "Hours ➡️ Minutes"
  const HoursToDays := "Hours ➡️ Days"
  const DaysToHours := "Days ➡️ Hours"
  const JoulesToKilojoules := "Joules ➡️ Kilojoules"
  const KilojoulesToJoules := "Kilojoules ➡️ Joules"
  const UsdToEur := "USD ➡️ EUR"
  const EurToUsd := "EUR ➡️ USD"
  const CelsiusToFahrenheit := "Celsius ➡️ Fahrenheit"
  const FahrenheitToCelsius := "Fahrenheit ➡️ Celsius"
  const KmhToMph := "Kilometers per hour ➡️ Miles per hour"
  const MphToKmh := "Miles per hour ➡️ Kilometers per hour"
  const LitersToGallons := "Liters ➡️ Gallons"
  const GallonsToLiters := "Gallons ➡️ Liters"

  /** The six Time directions, in the order the drop-down lists them. */
  const TimeDirections := [SecondsToMinutes, MinutesToSeconds, MinutesToHours,
                           HoursToMinutes, HoursToDays, DaysToHours]

  /**
   * The dictionary of converted values that `convert` builds for Time, keyed
   * by direction; the label is then looked up in it.
   */
  function TimeTable(value: real): (m: map<string, real>)
    ensures m.Keys == set d | d in TimeDirections
    ensures SecondsToMinutes in m && m[SecondsToMinutes] * 60.0 == value
    ensures MinutesToSeconds in m && m[MinutesToSeconds] == value * 60.0
    ensures MinutesToHours in m && m[MinutesToHours] * 60.0 == value
    ensures HoursToMinutes in m && m[HoursToMinutes] == value * 60.0
    ensures HoursToDays in m && m[HoursToDays] * 24.0 == value
    ensures DaysToHours in m && m[DaysToHours] == value * 24.0
  {
    map[SecondsToMinutes := value / 60.0,
        MinutesToSeconds := value * 60.0,
        MinutesToHours := value / 60.0,
        HoursToMinutes := value * 60.0,
        HoursToDays := value / 24.0,
        DaysToHours := value * 24.0]
  }
}
