/** The greeting helpers of `src/lib/greeting.ts`: time-of-day greeting,
    location slang greeting and the coordinate boxes that name a location. */
module Greeting {
  import opened Wrappers
  import opened Text

  /** The profile used when none is stored (`DEFAULT_MOCK_PROFILE`). */
  const DefaultFirstName: string := "User"
  const DefaultLocation: string := "Hawaii"

  /** `getTimeOfDayGreeting(firstName, hour, hasLocation)`; `hour` is what
      `Date.getHours()` returns. */
  function TimeOfDayGreeting(firstName: string, hour: int, hasLocation: bool): (r: string)
    ensures 5 <= hour <= 11 ==> r == "Good morning, " + firstName
    ensures 17 <= hour <= 20 ==> r == "Good evening, " + firstName
    ensures (hour >= 21 || hour <= 4) && !hasLocation ==> r == "Hello night Owl"
    ensures (hour >= 21 || hour <= 4) && hasLocation ==> r == "Hello, " + firstName
    ensures 12 <= hour <= 16 ==> r == "Hello, " + firstName
  {
    if 5 <= hour <= 11 then "Good morning, " + firstName
    else if 17 <= hour <= 20 then "Good evening, " + firstName
    else if (hour >= 21 || hour <= 4) && !hasLocation then "Hello night Owl"
    else "Hello, " + firstName
  }

  /** Whether a location is known changes the greeting exactly at night
      (21:00 to 04:59), whatever the name. */
  lemma LocationMattersOnlyAtNight(firstName: string, hour: int)
    ensures TimeOfDayGreeting(firstName, hour, true) != TimeOfDayGreeting(firstName, hour, false)
            <==> (hour >= 21 || hour <= 4)
  {
    if hour >= 21 || hour <= 4 {
      assert TimeOfDayGreeting(firstName, hour, true)[5] == ',';
      assert TimeOfDayGreeting(firstName, hour, false)[5] == ' ';
    }
  }

  /** Every greeting but the night-owl one addresses the person by name. */
  lemma GreetingEndsWithName(firstName: string, hour: int, hasLocation: bool)
    requires TimeOfDayGreeting(firstName, hour, hasLocation) != "Hello night Owl"
    ensures var g := TimeOfDayGreeting(firstName, hour, hasLocation);
            |g| >= |firstName| && g[|g| - |firstName|..] == firstName
  {
  }

  /** The locationLabel trimmed and lower-cased, as the slang greeting compares it. */
  function NormalizeLabel(locationLabel: string): (r: string)
    ensures |r| <= |locationLabel|
    ensures r == "" <==> IsBlank(locationLabel)
    ensures forall i :: 0 <= i < |r| ==> !('A' <= r[i] <= 'Z')
  {
    Lower(Trim(locationLabel))
  }

  /** `getLocationSlangGreeting(firstName, locationLabel)`: an absent or empty
      label gives no greeting; otherwise Hawaii and Spain (any case, any
      surrounding whitespace) have one. */
  function LocationSlangGreeting(firstName: string, locationLabel: Option<string>): (r: Option<string>)
    ensures locationLabel.None? || locationLabel.value == "" ==> r.None?
    ensures locationLabel.Some? && locationLabel.value != "" && NormalizeLabel(locationLabel.value) == "hawaii"
            ==> r == Some("Aloha, " + firstName)
    ensures locationLabel.Some? && locationLabel.value != "" && NormalizeLabel(locationLabel.value) == "spain"
            ==> r == Some("Ola, " + firstName)
    ensures r.Some? ==> locationLabel.Some? && NormalizeLabel(locationLabel.value) in {"hawaii", "spain"}
  {
    if locationLabel.None? || locationLabel.value == "" then None
    else
      var normalized := NormalizeLabel(locationLabel.value);
      if normalized == "hawaii" then Some("Aloha, " + firstName)
      else if normalized == "spain" then Some("Ola, " + firstName)
      else None
  }

  /** The inclusive box that `matchLocationFromCoords` calls Hawaii. */
  predicate InHawaiiBox(lat: real, lon: real) {
    18.0 <= lat <= 23.0 && -161.0 <= lon <= -154.0
  }

  /** The inclusive box that `matchLocationFromCoords` calls Spain. */
  predicate InSpainBox(lat: real, lon: real) {
    36.0 <= lat <= 44.0 && -9.5 <= lon <= 3.5
  }

  /** `matchLocationFromCoords(lat, lon)`. The boxes do not overlap, so the
      result names exactly the box the point is in. */
  function MatchLocationFromCoords(lat: real, lon: real): (r: Option<string>)
    ensures r == Some("Hawaii") <==> InHawaiiBox(lat, lon)
    ensures r == Some("Spain") <==> InSpainBox(lat, lon)
    ensures r.None? <==> !InHawaiiBox(lat, lon) && !InSpainBox(lat, lon)
  {
    if InHawaiiBox(lat, lon) then Some("Hawaii")
    else if InSpainBox(lat, lon) then Some("Spain")
    else None
  }

  /** A location found from coordinates always has a slang greeting:
      Hawaii greets with "Aloha", Spain with "Ola". */
  lemma {:induction false} MatchedLocationHasSlang(firstName: string, lat: real, lon: real)
    ensures InHawaiiBox(lat, lon) ==>
              LocationSlangGreeting(firstName, MatchLocationFromCoords(lat, lon)) == Some("Aloha, " + firstName)
    ensures InSpainBox(lat, lon) ==>
              LocationSlangGreeting(firstName, MatchLocationFromCoords(lat, lon)) == Some("Ola, " + firstName)
  {
    if InHawaiiBox(lat, lon) {
      HawaiiNormalized(MatchLocationFromCoords(lat, lon).value);
    } else if InSpainBox(lat, lon) {
      SpainNormalized(MatchLocationFromCoords(lat, lon).value);
    }
  }

  /** A label with no whitespace at its ends normalizes to its lower-cased
      letters. */
  lemma PlainLabelNormalized(text: string, lowered: string)
    requires text != [] && !IsWhitespace(text[0]) && !IsWhitespace(text[|text| - 1])
    requires |lowered| == |text| && forall i :: 0 <= i < |text| ==> LowerChar(text[i]) == lowered[i]
    ensures NormalizeLabel(text) == lowered
  {
    TrimOfTrimmed(text);
  }

  lemma HawaiiNormalized(text: string)
    requires text == "Hawaii"
    ensures NormalizeLabel(text) == "hawaii"
  {
    PlainLabelNormalized(text, "hawaii");
  }

  lemma SpainNormalized(text: string)
    requires text == "Spain"
    ensures NormalizeLabel(text) == "spain"
  {
    PlainLabelNormalized(text, "spain");
  }
}
