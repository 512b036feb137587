/**
 * The first-run wizard (frontend/src/pages/onboarding/OnboardingWizard.tsx):
 * six steps (welcome, username, theme, preferences, about, complete), a
 * username checked first locally and then by the server, four dietary
 * toggles, and a single profile update on "Finish Setup".
 */
module Onboarding {
  import opened Wrappers
  import Strings

  datatype Step = Welcome | Username | ThemeStep | PreferencesStep | About | Complete

  /** `STEPS`, in display order. */
  const Steps: seq<Step> := [Welcome, Username, ThemeStep, PreferencesStep, About, Complete]

  /** The four dietary flags the wizard collects and the menu personalizes by. */
  datatype Preferences = Preferences(isVeg: bool, isVegan: bool, spicyLover: bool, sweetTooth: bool)

  const NoPreferences := Preferences(false, false, false, false)

  datatype PrefKey = VegKey | VeganKey | SpicyKey | SweetKey

  function Pref(p: Preferences, k: PrefKey): bool {
    match k
    case VegKey => p.isVeg
    case VeganKey => p.isVegan
    case SpicyKey => p.spicyLover
    case SweetKey => p.sweetTooth
  }

  /** `{ ...p, [key]: !p[key] }`: one flag inverted, the others kept. */
  function Flipped(p: Preferences, k: PrefKey): (r: Preferences)
    ensures Pref(r, k) == !Pref(p, k)
    ensures forall j :: j != k ==> Pref(r, j) == Pref(p, j)
  {
    match k
    case VegKey => p.(isVeg := !p.isVeg)
    case VeganKey => p.(isVegan := !p.isVegan)
    case SpicyKey => p.(spicyLover := !p.spicyLover)
    case SweetKey => p.(sweetTooth := !p.sweetTooth)
  }

  /** Clicking a preference tile twice leaves the preferences as they were. */
  lemma FlipTwice(p: Preferences, k: PrefKey)
    ensures Flipped(Flipped(p, k), k) == p
  {
  }

  /** `usernameAvailable`: `null`, `true` or `false`. */
  datatype Availability = Unknown | Available | Unavailable

  /** What `check_username_availability` came back with: data, an error object, or a thrown exception. */
  datatype RpcResult = Data(available: bool) | RpcError | Threw

  predicate UsernameChar(c: char) {
    'a' <= c <= 'z' || '0' <= c <= '9' || c == '_'
  }

  /** `/^[a-z0-9_]{4,}$/`. */
  predicate MatchesPattern(u: string) {
    |u| >= 4 && forall i :: 0 <= i < |u| ==> UsernameChar(u[i])
  }

  /**
   * The availability the debounced check settles on for a username. The
   * length test counts UTF-16 code units, as `username.length` does.
   */
  function CheckUsername(u: string, rpc: RpcResult): (r: Availability)
    ensures r == Unknown <==> Strings.Utf16Length(u) < 4
    ensures r == Available ==> MatchesPattern(u)
    ensures Strings.Utf16Length(u) >= 4 && !MatchesPattern(u) ==> r == Unavailable
  {
    if Strings.Utf16Length(u) < 4 then Unknown
    else if !MatchesPattern(u) then Unavailable
    else match rpc
      case Data(b) => if b then Available else Unavailable
      case RpcError => Unavailable
      case Threw => Unavailable
  }

  /**
   * A username is reported available exactly when it is long enough, uses
   * only the allowed characters, and the server said yes; a server failure
   * always counts as taken.
   */
  lemma AvailableIff(u: string, rpc: RpcResult)
    ensures CheckUsername(u, rpc) == Available <==> MatchesPattern(u) && rpc == Data(true)
    ensures CheckUsername(u, rpc) == Unknown <==> Strings.Utf16Length(u) < 4
    ensures Strings.Utf16Length(u) >= 4 && (rpc.RpcError? || rpc.Threw?) ==> CheckUsername(u, rpc) == Unavailable
  {
  }

  /**
   * On a name of ASCII characters the length test is the character count;
   * a name of three characters, one outside the Basic Multilingual Plane,
   * is long enough for the length test and is then refused by the pattern.
   */
  lemma LengthCountsCodeUnits(u: string, rpc: RpcResult)
    ensures (forall i :: 0 <= i < |u| ==> u[i] as int < 0x80) ==> (CheckUsername(u, rpc) == Unknown <==> |u| < 4)
    ensures CheckUsername("ab\U{1F600}", rpc) == Unavailable
  {
    assert Strings.Utf16Length("ab\U{1F600}") == 4 by {
      assert "ab\U{1F600}"[1..] == "b\U{1F600}";
      assert "b\U{1F600}"[1..] == "\U{1F600}";
      assert "\U{1F600}"[1..] == "";
    }
    assert !UsernameChar("ab\U{1F600}"[2]);
  }

  /** A name the pattern rejects gets the same answer whatever the server would say. */
  lemma LocalCheckFirst(u: string, rpc1: RpcResult, rpc2: RpcResult)
    requires !MatchesPattern(u)
    ensures CheckUsername(u, rpc1) == CheckUsername(u, rpc2) != Available
  {
  }

  /** Typed text is lower-cased, so upper-case letters never reach the pattern; other characters still can. */
  lemma TypedNameHasNoCapitals(text: string)
    ensures forall i :: 0 <= i < |Strings.Lower(text)| ==> !('A' <= Strings.Lower(text)[i] <= 'Z')
  {
  }

  /** The progress bar is shown on the four form steps between welcome and complete. */
  predicate ProgressShown(step: int) {
    0 < step < 5
  }

  /** `(currentStep / 5) * 100` percent. */
  function ProgressWidth(step: int): real {
    step as real / 5.0 * 100.0
  }

  /** A shown bar is 20, 40, 60 or 80 percent wide and grows with the step. */
  lemma ProgressBounds(step: int, later: int)
    requires ProgressShown(step) && ProgressShown(later) && step < later
    ensures 20.0 <= ProgressWidth(step) < ProgressWidth(later) <= 80.0
    ensures ProgressWidth(step) == 20.0 * step as real
  {
  }

  /** The body of the `users` update: username, theme, and the preferences with `about` folded in. */
  datatype ProfileUpdate = ProfileUpdate(username: string, theme: string, preferences: Preferences, about: string)

  class Wizard {
    var currentStep: int
    var saving: bool
    var username: string
    var availability: Availability
    var theme: string
    var preferences: Preferences
    var about: string
    /** The last update the server accepted. */
    var saved: Option<ProfileUpdate>
    /** The description of the last "Error saving profile" toast. */
    var saveError: Option<string>
    var navigatedTo: Option<string>

    /** `STEPS[currentStep]` exists. */
    predicate Valid()
      reads this
    {
      0 <= currentStep < |Steps|
    }

    function CurrentStep(): Step
      reads this
      requires Valid()
    {
      Steps[currentStep]
    }

    constructor ()
      ensures Valid() && CurrentStep() == Welcome
      ensures !saving && username == "" && availability == Unknown && theme == "classic"
      ensures preferences == NoPreferences && about == ""
      ensures saved == None && saveError == None && navigatedTo == None
    {
      currentStep := 0;
      saving := false;
      username := "";
      availability := Unknown;
      theme := "classic";
      preferences := NoPreferences;
      about := "";
      saved := None;
      saveError := None;
      navigatedTo := None;
    }

    /** The profile effect: a stored username replaces the field's text. */
    method LoadProfile(profileUsername: Option<string>)
      modifies this
      ensures username == if profileUsername.Some? && profileUsername.value != ""  then profileUsername.value else old(username)
      ensures currentStep == old(currentStep) && availability == old(availability)
      ensures preferences == old(preferences) && theme == old(theme) && about == old(about)
    {
      if profileUsername.Some? && profileUsername.value != "" {
        username := profileUsername.value;
      }
    }

    /** The username field: the text is lower-cased; availability is not touched until the check runs. */
    method TypeUsername(text: string)
      modifies this
      ensures username == Strings.Lower(text)
      ensures availability == old(availability) && currentStep == old(currentStep)
      ensures preferences == old(preferences) && theme == old(theme) && about == old(about)
    {
      username := Strings.Lower(text);
    }

    /** The debounced availability check, run on the current username. */
    method RunUsernameCheck(rpc: RpcResult)
      modifies this
      ensures availability == CheckUsername(username, rpc)
      ensures username == old(username) && currentStep == old(currentStep)
      ensures preferences == old(preferences) && theme == old(theme) && about == old(about)
    {
      if Strings.Utf16Length(username) < 4 {
        availability := Unknown;
        return;
      }
      if !(forall i :: 0 <= i < |username| ==> UsernameChar(username[i])) {
        availability := Unavailable;
        return;
      }
      match rpc
      case RpcError =>
        availability := Unavailable;
      case Threw =>
        availability := Unavailable;
      case Data(b) =>
        availability := if b then Available else Unavailable;
    }

    /** The enabled state of the forward button on the current step. */
    predicate NextEnabled()
      reads this
    {
      currentStep != 1 || availability == Available
    }

    /**
     * "Continue" on the welcome step and "Next" on the username, theme and
     * preference steps. On the username step the button is disabled unless
     * the name was reported available, and a click on it does nothing.
     */
    method PressNext()
      requires Valid() && 0 <= currentStep <= 3
      modifies this
      ensures Valid()
      ensures currentStep == if old(NextEnabled()) then old(currentStep) + 1 else old(currentStep)
      ensures username == old(username) && availability == old(availability)
      ensures preferences == old(preferences) && theme == old(theme) && about == old(about)
      ensures saved == old(saved)
    {
      if currentStep != 1 || availability == Available {
        currentStep := currentStep + 1;
      }
    }

    /** "Back" on the username, theme, preference and about steps. */
    method PressBack()
      requires Valid() && 1 <= currentStep <= 4
      modifies this
      ensures Valid() && currentStep == old(currentStep) - 1
      ensures username == old(username) && availability == old(availability)
      ensures preferences == old(preferences) && theme == old(theme) && about == old(about)
    {
      currentStep := currentStep - 1;
    }

    /** A theme tile: the chosen id is kept for the update. */
    method SelectTheme(id: string)
      modifies this
      ensures theme == id
      ensures currentStep == old(currentStep) && username == old(username)
      ensures preferences == old(preferences) && about == old(about)
    {
      theme := id;
    }

    /** A preference tile. */
    method TogglePreference(k: PrefKey)
      modifies this
      ensures preferences == Flipped(old(preferences), k)
      ensures currentStep == old(currentStep) && username == old(username)
      ensures theme == old(theme) && about == old(about)
    {
      preferences := Flipped(preferences, k);
    }

    method EditAbout(text: string)
      modifies this
      ensures about == text
      ensures currentStep == old(currentStep) && username == old(username)
      ensures theme == old(theme) && preferences == old(preferences)
    {
      about := text;
    }

    /**
     * "Finish Setup" (disabled while saving): the form is sent as one update;
     * on success the wizard moves to the completion step, on failure it stays
     * and shows the error. The spinner is off again afterwards.
     */
    method Finish(failure: Option<string>)
      requires Valid() && currentStep == 4 && !saving
      modifies this
      ensures Valid() && !saving
      ensures failure.None? ==> currentStep == 5 && saved == Some(ProfileUpdate(username, theme, preferences, about))
      ensures failure.None? ==> saveError == old(saveError)
      ensures failure.Some? ==> currentStep == 4 && saved == old(saved) && saveError == failure
      ensures username == old(username) && theme == old(theme)
      ensures preferences == old(preferences) && about == old(about)
    {
      saving := true;
      if failure.None? {
        saved := Some(ProfileUpdate(username, theme, preferences, about));
        currentStep := currentStep + 1;
      } else {
        saveError := failure;
      }
      saving := false;
    }

    /** "Start Ordering" on the completion step. */
    method StartOrdering()
      requires Valid() && currentStep == 5
      modifies this
      ensures navigatedTo == Some("/dashboard")
      ensures currentStep == old(currentStep) && saved == old(saved)
    {
      navigatedTo := Some("/dashboard");
    }
  }
}
