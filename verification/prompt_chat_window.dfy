/** The prompt window of `src/components/PromptChatWindow.tsx`: the stored
    mock profile and how it is cleaned on load, the greeting computed from
    it, the submit guard, and the location update from a geolocation fix.
    Storage is the value found under the profile key, passed in; what the
    window writes back is returned. The hour of the day is a parameter. */
module PromptChatWindow {
  import opened Wrappers
  import opened Text
  import opened Greeting

  datatype MockUserProfile = MockUserProfile(firstName: string, location: Option<string>)

  /** `DEFAULT_MOCK_PROFILE`. */
  const DefaultProfile: MockUserProfile := MockUserProfile(DefaultFirstName, Some(DefaultLocation))

  /** The `userName` prop when the caller passes none. */
  const DefaultUserName: string := "there"

  /** One property of the parsed JSON: absent (also when the JSON was
      `null` or not an object), a string, or some other JSON value. */
  datatype Field = Missing | Str(s: string) | NonString

  /** What `readMockProfile` finds: storage it cannot use (no window, or
      `localStorage` throwing), no entry (or an empty one), text that does
      not parse, or a parsed value with its two fields. */
  datatype StoredProfile = StorageUnavailable | NoEntry | Unparseable | Parsed(firstName: Field, location: Field)

  /** A stored field, trimmed, when it is a non-blank string; otherwise the
      fallback. */
  function CleanField(f: Field, fallback: string): (r: string)
    ensures f.Str? && !IsBlank(f.s) ==> r == Trim(f.s) && r != ""
    ensures !(f.Str? && !IsBlank(f.s)) ==> r == fallback
  {
    if f.Str? && !IsBlank(f.s) then Trim(f.s) else fallback
  }

  /** `readMockProfile`: the profile the window starts with, and the profile
      written back to storage, if any. */
  function LoadProfile(stored: StoredProfile, userName: string): (r: (MockUserProfile, Option<MockUserProfile>))
    ensures r.1.Some? ==> r.1.value == r.0
    ensures stored.StorageUnavailable? ==>
              r == (MockUserProfile(if userName != "" then userName else DefaultFirstName, Some(DefaultLocation)), None)
    ensures stored.NoEntry? || stored.Unparseable? ==> r == (DefaultProfile, Some(DefaultProfile))
    ensures stored.Parsed? ==> r == LoadParsed(stored.firstName, stored.location)
  {
    match stored
    case StorageUnavailable =>
      (MockUserProfile(if userName != "" then userName else DefaultFirstName, Some(DefaultLocation)), None)
    case NoEntry => (DefaultProfile, Some(DefaultProfile))
    case Unparseable => (DefaultProfile, Some(DefaultProfile))
    case Parsed(firstName, location) => LoadParsed(firstName, location)
  }

  /** The parsed case of `readMockProfile`: each field cleaned, and the
      cleaned profile written back exactly when a field changed. */
  function LoadParsed(firstName: Field, location: Field): (r: (MockUserProfile, Option<MockUserProfile>))
    ensures r.0 == MockUserProfile(CleanField(firstName, DefaultFirstName), Some(CleanField(location, DefaultLocation)))
    ensures r.1.Some? ==> r.1.value == r.0
    ensures r.1.None? <==> firstName == Str(r.0.firstName) && location == Str(r.0.location.value)
  {
    var cleaned := MockUserProfile(CleanField(firstName, DefaultFirstName), Some(CleanField(location, DefaultLocation)));
    var changed := firstName != Str(cleaned.firstName) || location != Str(cleaned.location.value);
    (cleaned, if changed then Some(cleaned) else None)
  }

  /** A non-empty string that trimming leaves as it is. */
  predicate Trimmed(s: string) {
    s != "" && Trim(s) == s
  }

  lemma DefaultNameTrimmed()
    ensures Trimmed(DefaultFirstName)
  {
    TrimOfTrimmed(DefaultFirstName);
  }

  lemma DefaultLocationTrimmed()
    ensures Trimmed(DefaultLocation)
  {
    TrimOfTrimmed(DefaultLocation);
  }

  /** A cleaned field is trimmed whenever its fallback is. */
  lemma CleanFieldTrimmed(f: Field, fallback: string)
    requires Trimmed(fallback)
    ensures Trimmed(CleanField(f, fallback))
  {
    if f.Str? && !IsBlank(f.s) {
      TrimOfTrimmed(Trim(f.s));
    }
  }

  /** Whenever storage is usable, the profile loaded has a trimmed,
      non-empty name and location. */
  lemma LoadedProfileIsTrimmed(stored: StoredProfile, userName: string)
    requires !stored.StorageUnavailable?
    ensures var p := LoadProfile(stored, userName).0;
            Trimmed(p.firstName) && p.location.Some? && Trimmed(p.location.value)
  {
    var p := LoadProfile(stored, userName).0;
    if stored.Parsed? {
      assert p == LoadParsed(stored.firstName, stored.location).0;
      DefaultNameTrimmed();
      DefaultLocationTrimmed();
      CleanFieldTrimmed(stored.firstName, DefaultFirstName);
      CleanFieldTrimmed(stored.location, DefaultLocation);
    } else {
      assert p == DefaultProfile;
      DefaultNameTrimmed();
      DefaultLocationTrimmed();
    }
  }

  /** A stored profile that is already clean is read as it is and not
      written back. */
  lemma CleanProfileIsKept(p: MockUserProfile)
    requires Trimmed(p.firstName) && p.location.Some? && Trimmed(p.location.value)
    ensures LoadParsed(Str(p.firstName), Str(p.location.value)) == (p, None)
  {
  }

  /** Cleaning is done once: loading again what was just loaded (and, if
      needed, written back) gives the same profile and writes nothing. */
  lemma LoadIsStable(stored: StoredProfile, userName: string)
    requires !stored.StorageUnavailable?
    ensures var p := LoadProfile(stored, userName).0;
            LoadProfile(Parsed(Str(p.firstName), Str(p.location.value)), userName) == (p, None)
  {
    LoadedProfileIsTrimmed(stored, userName);
    CleanProfileIsKept(LoadProfile(stored, userName).0);
  }

  /** The name the greeting uses: the trimmed first name, else the
      `userName` prop, else "there". It is never empty. */
  function ResolvedName(profile: MockUserProfile, userName: string): (r: string)
    ensures r != ""
    ensures Trim(profile.firstName) != "" ==> r == Trim(profile.firstName)
    ensures Trim(profile.firstName) == "" && userName != "" ==> r == userName
  {
    var trimmed := Trim(profile.firstName);
    if trimmed != "" then trimmed else if userName != "" then userName else DefaultUserName
  }

  /** `computeGreeting`: the location's slang greeting when it has one,
      else the time-of-day greeting, which only counts a non-empty location. */
  function ComputeGreeting(profile: MockUserProfile, userName: string, hour: int): (r: string)
    ensures LocationSlangGreeting(ResolvedName(profile, userName), profile.location).Some? ==>
              r == LocationSlangGreeting(ResolvedName(profile, userName), profile.location).value
    ensures LocationSlangGreeting(ResolvedName(profile, userName), profile.location).None? ==>
              r == TimeOfDayGreeting(ResolvedName(profile, userName), hour,
                                     profile.location.Some? && profile.location.value != "")
  {
    var name := ResolvedName(profile, userName);
    var slang := LocationSlangGreeting(name, profile.location);
    if slang.Some? then slang.value
    else TimeOfDayGreeting(name, hour, profile.location.Some? && profile.location.value != "")
  }

  /** A location that normalizes to "hawaii" is greeted with "Aloha",
      whatever the hour. */
  lemma HawaiiLocationSaysAloha(profile: MockUserProfile, userName: string, hour: int)
    requires profile.location.Some? && profile.location.value != ""
    requires NormalizeLabel(profile.location.value) == "hawaii"
    ensures ComputeGreeting(profile, userName, hour) == "Aloha, " + ResolvedName(profile, userName)
  {
  }

  /** The default profile lives in Hawaii, so it is greeted with "Aloha"
      at every hour. */
  lemma DefaultProfileSaysAloha(profile: MockUserProfile, userName: string, hour: int)
    requires profile == DefaultProfile
    ensures ComputeGreeting(profile, userName, hour) == "Aloha, " + DefaultFirstName
  {
    assert ResolvedName(profile, userName) == DefaultFirstName by {
      TrimOfTrimmed(profile.firstName);
    }
    assert ComputeGreeting(profile, userName, hour) == "Aloha, " + ResolvedName(profile, userName) by {
      HawaiiNormalized(profile.location.value);
      HawaiiLocationSaysAloha(profile, userName, hour);
    }
  }

  /** The stored location already names the matched place, up to case. */
  predicate SameLocation(location: Option<string>, matched: string) {
    location.Some? && Lower(location.value) == Lower(matched)
  }

  /** The profile after a geolocation fix named `matched`. */
  function ProfileAfterFix(profile: MockUserProfile, matched: string): (r: MockUserProfile)
    ensures r.firstName == profile.firstName
    ensures SameLocation(r.location, matched)
    ensures SameLocation(profile.location, matched) <==> r == profile
    ensures !SameLocation(profile.location, matched) ==> r == profile.(location := Some(matched))
  {
    if SameLocation(profile.location, matched) then profile else profile.(location := Some(matched))
  }

  /** A second fix on the same place changes nothing. */
  lemma FixIsIdempotent(profile: MockUserProfile, matched: string)
    ensures ProfileAfterFix(ProfileAfterFix(profile, matched), matched) == ProfileAfterFix(profile, matched)
  {
  }

  /** A fix inside the Hawaii box makes the greeting "Aloha", whether the
      location was replaced or already said Hawaii in another case. */
  lemma HawaiiFixSaysAloha(profile: MockUserProfile, userName: string, hour: int, lat: real, lon: real)
    requires InHawaiiBox(lat, lon)
    ensures var p := ProfileAfterFix(profile, MatchLocationFromCoords(lat, lon).value);
            ComputeGreeting(p, userName, hour) == "Aloha, " + ResolvedName(p, userName)
  {
    var matched := MatchLocationFromCoords(lat, lon).value;
    var p := ProfileAfterFix(profile, matched);
    var loc := p.location.value;
    assert Lower(loc) == "hawaii" by {
      LowerPointwise(matched, "hawaii");
    }
    assert NormalizeLabel(loc) == "hawaii" by {
      assert LowerChar(loc[0]) == 'h' && LowerChar(loc[5]) == 'i';
      TrimOfTrimmed(loc);
    }
    HawaiiLocationSaysAloha(p, userName, hour);
  }

  /** The window's state. */
  class PromptWindow {
    var prompt: string
    var isAnimating: bool
    var profile: MockUserProfile
    /** The profile last written to storage by this window, if any. */
    var saved: Option<MockUserProfile>

    /** The first render: the profile comes from `readMockProfile`. */
    constructor(stored: StoredProfile, userName: string)
      ensures (profile, saved) == LoadProfile(stored, userName)
      ensures prompt == "" && !isAnimating
    {
      var loaded := LoadProfile(stored, userName);
      profile := loaded.0;
      saved := loaded.1;
      prompt := "";
      isAnimating := false;
    }

    function Greeting(userName: string, hour: int): string
      reads this
    {
      ComputeGreeting(profile, userName, hour)
    }

    /** `handleSubmit`: a prompt that is not blank is handed, untrimmed, to
        the handler and cleared, unless there is no handler or the hint
        animation is running. */
    method HandleSubmit(hasHandler: bool) returns (submitted: Option<string>)
      modifies this
      ensures submitted.Some? <==> !IsBlank(old(prompt)) && hasHandler && !isAnimating
      ensures submitted.Some? ==> submitted.value == old(prompt) && prompt == ""
      ensures submitted.None? ==> prompt == old(prompt)
      ensures isAnimating == old(isAnimating) && profile == old(profile) && saved == old(saved)
    {
      if !IsBlank(prompt) && hasHandler && !isAnimating {
        submitted := Some(prompt);
        prompt := "";
      } else {
        submitted := None;
      }
    }

    /** The geolocation success handler: a fix outside both boxes, a fix
        arriving after unmount, or one naming the stored place (up to
        case) changes nothing; otherwise the location is replaced and the
        profile saved. */
    method HandleGeoSuccess(lat: real, lon: real, cancelled: bool)
      modifies this
      ensures var matched := MatchLocationFromCoords(lat, lon);
              if cancelled || matched.None? || SameLocation(old(profile).location, matched.value)
              then profile == old(profile) && saved == old(saved)
              else profile == ProfileAfterFix(old(profile), matched.value) && saved == Some(profile)
      ensures prompt == old(prompt) && isAnimating == old(isAnimating)
    {
      if cancelled {
        return;
      }
      var matched := MatchLocationFromCoords(lat, lon);
      if matched.None? {
        return;
      }
      if SameLocation(profile.location, matched.value) {
        return;
      }
      profile := profile.(location := Some(matched.value));
      saved := Some(profile);
    }
  }
}
