/**
 * `DashboardSettings`: the settings dialog. Its state is a draft of the user
 * settings and three password fields; saving runs a chain of guards and, when
 * they all pass, hands the draft to `onSettingsUpdate`, clears the password
 * fields and closes the dialog. `formatTime` labels the feed-hour sliders.
 */
module SettingsDialog {

  import opened JsText
  import opened DashboardTypes

  const MIN_PASSWORD_LENGTH: nat := 6
  const MIN_STORIES: int := 1
  const MAX_STORIES: int := 10

  // ------------------------------------------------------------ sliders

  /** A slider's range and step; it only ever reports values on this grid. */
  datatype Slider = Slider(min: int, max: int, step: int)

  const MORNING_SLIDER: Slider := Slider(5, 11, 1)
  const EVENING_SLIDER: Slider := Slider(13, 20, 1)
  const STORIES_SLIDER: Slider := Slider(MIN_STORIES, MAX_STORIES, 1)
  const REFRESH_SLIDER: Slider := Slider(5, 60, 5)

  predicate Emits(s: Slider, value: int)
    requires s.step > 0
  {
    s.min <= value <= s.max && (value - s.min) % s.step == 0
  }

  /** The refresh slider offers 5, 10, ..., 60 minutes: twelve settings. */
  lemma RefreshSliderValues(value: int)
    ensures Emits(REFRESH_SLIDER, value) <==> exists k :: 1 <= k <= 12 && value == 5 * k
  {
    if Emits(REFRESH_SLIDER, value) {
      assert value == 5 * (value / 5);
    }
  }

  /** A story count the slider can produce always passes the save check's range test. */
  lemma StoriesSliderWithinSaveRange(value: int)
    requires Emits(STORIES_SLIDER, value)
    ensures !StoryCountRejected(value)
  {
  }

  // ------------------------------------------------------------ the save check

  datatype SaveOutcome = Saved | InvalidStoryCount | PasswordMismatch | PasswordTooShort | CurrentPasswordRequired

  predicate StoryCountRejected(count: int)
  {
    count < MIN_STORIES || count > MAX_STORIES
  }

  /** A password change is attempted when any of the three fields is non-empty. */
  predicate ChangeAttempted(newPassword: Text, confirmPassword: Text, currentPassword: Text)
  {
    newPassword != [] || confirmPassword != [] || currentPassword != []
  }

  /** Which guard of `handleSave` stops the save, if any. */
  function SaveCheck(local: UserSettings, newPassword: Text, confirmPassword: Text, currentPassword: Text): (r: SaveOutcome)
    ensures r == Saved <==>
      && !StoryCountRejected(local.topStoriesCount)
      && (ChangeAttempted(newPassword, confirmPassword, currentPassword) ==>
            newPassword == confirmPassword && |newPassword| >= MIN_PASSWORD_LENGTH && currentPassword != [])
  {
    if StoryCountRejected(local.topStoriesCount) then InvalidStoryCount
    else if ChangeAttempted(newPassword, confirmPassword, currentPassword) then
      if newPassword != confirmPassword then PasswordMismatch
      else if |newPassword| < MIN_PASSWORD_LENGTH then PasswordTooShort
      else if currentPassword == [] then CurrentPasswordRequired
      else Saved
    else Saved
  }

  /** The story-count guard comes first: a bad count is reported whatever the password fields hold. */
  lemma StoryCountCheckedFirst(local: UserSettings, newPassword: Text, confirmPassword: Text, currentPassword: Text)
    ensures SaveCheck(local, newPassword, confirmPassword, currentPassword) == InvalidStoryCount <==>
      StoryCountRejected(local.topStoriesCount)
  {
  }

  /**
   * With a valid count, a mismatch is reported before the length and the
   * current-password checks; filling in only the current password is reported
   * as a too-short new password.
   */
  lemma MismatchBeforeLength(local: UserSettings, newPassword: Text, confirmPassword: Text, currentPassword: Text)
    requires !StoryCountRejected(local.topStoriesCount)
    ensures SaveCheck(local, newPassword, confirmPassword, currentPassword) == PasswordMismatch <==>
      newPassword != confirmPassword
    ensures SaveCheck(local, newPassword, confirmPassword, currentPassword) == PasswordTooShort <==>
      newPassword == confirmPassword && ChangeAttempted(newPassword, confirmPassword, currentPassword)
      && |newPassword| < MIN_PASSWORD_LENGTH
  {
  }

  /** Only the story count is re-checked: the feed hours and the refresh interval never stop a save. */
  lemma OnlyStoryCountChecked(local: UserSettings, morning: int, evening: int, refresh: int,
                              newPassword: Text, confirmPassword: Text, currentPassword: Text)
    ensures SaveCheck(local.(morningFeedHour := morning, eveningFeedHour := evening, refreshInterval := refresh),
                      newPassword, confirmPassword, currentPassword)
         == SaveCheck(local, newPassword, confirmPassword, currentPassword)
  {
  }

  // ------------------------------------------------------------ the dialog

  class SettingsDialog {
    var localSettings: UserSettings
    var newPassword: Text
    var confirmPassword: Text
    var currentPassword: Text
    var open: bool
    /** Every settings value handed to `onSettingsUpdate`, oldest first. */
    var published: seq<UserSettings>

    /** The dialog as mounted: the draft is the settings passed in, the password fields are empty. */
    constructor (settings: UserSettings)
      ensures localSettings == settings && open && published == []
      ensures newPassword == [] && confirmPassword == [] && currentPassword == []
    {
      localSettings := settings;
      newPassword, confirmPassword, currentPassword := [], [], [];
      open := true;
      published := [];
    }

    method SetMorningFeedHour(value: int)
      requires Emits(MORNING_SLIDER, value)
      modifies this
      ensures localSettings == old(localSettings).(morningFeedHour := value)
      ensures 5 <= localSettings.morningFeedHour <= 11
      ensures newPassword == old(newPassword) && confirmPassword == old(confirmPassword)
      ensures currentPassword == old(currentPassword) && open == old(open) && published == old(published)
    {
      localSettings := localSettings.(morningFeedHour := value);
    }

    method SetEveningFeedHour(value: int)
      requires Emits(EVENING_SLIDER, value)
      modifies this
      ensures localSettings == old(localSettings).(eveningFeedHour := value)
      ensures 13 <= localSettings.eveningFeedHour <= 20
      ensures newPassword == old(newPassword) && confirmPassword == old(confirmPassword)
      ensures currentPassword == old(currentPassword) && open == old(open) && published == old(published)
    {
      localSettings := localSettings.(eveningFeedHour := value);
    }

    method SetTopStoriesCount(value: int)
      requires Emits(STORIES_SLIDER, value)
      modifies this
      ensures localSettings == old(localSettings).(topStoriesCount := value)
      ensures !StoryCountRejected(localSettings.topStoriesCount)
      ensures newPassword == old(newPassword) && confirmPassword == old(confirmPassword)
      ensures currentPassword == old(currentPassword) && open == old(open) && published == old(published)
    {
      localSettings := localSettings.(topStoriesCount := value);
    }

    method SetRefreshInterval(value: int)
      requires Emits(REFRESH_SLIDER, value)
      modifies this
      ensures localSettings == old(localSettings).(refreshInterval := value)
      ensures 5 <= localSettings.refreshInterval <= 60 && localSettings.refreshInterval % 5 == 0
      ensures newPassword == old(newPassword) && confirmPassword == old(confirmPassword)
      ensures currentPassword == old(currentPassword) && open == old(open) && published == old(published)
    {
      localSettings := localSettings.(refreshInterval := value);
    }

    /** Typing into the three password inputs. */
    method SetPasswords(current: Text, typed: Text, confirm: Text)
      modifies this
      ensures currentPassword == current && newPassword == typed && confirmPassword == confirm
      ensures localSettings == old(localSettings) && open == old(open) && published == old(published)
    {
      currentPassword, newPassword, confirmPassword := current, typed, confirm;
    }

    /**
     * `handleSave`: the first failing guard ends the save with nothing changed;
     * otherwise the draft is published as is, the password fields are cleared
     * and the dialog closes.
     */
    method HandleSave() returns (outcome: SaveOutcome)
      modifies this
      ensures outcome == SaveCheck(old(localSettings), old(newPassword), old(confirmPassword), old(currentPassword))
      ensures localSettings == old(localSettings)
      ensures outcome == Saved ==>
        && published == old(published) + [old(localSettings)]
        && newPassword == [] && confirmPassword == [] && currentPassword == [] && !open
      ensures outcome != Saved ==>
        && published == old(published) && open == old(open)
        && newPassword == old(newPassword) && confirmPassword == old(confirmPassword) && currentPassword == old(currentPassword)
    {
      if localSettings.topStoriesCount < 1 || localSettings.topStoriesCount > 10 {
        return InvalidStoryCount;
      }
      if newPassword != [] || confirmPassword != [] || currentPassword != [] {
        if newPassword != confirmPassword {
          return PasswordMismatch;
        }
        if |newPassword| < 6 {
          return PasswordTooShort;
        }
        if currentPassword == [] {
          return CurrentPasswordRequired;
        }
      }
      published := published + [localSettings];
      newPassword, confirmPassword, currentPassword := [], [], [];
      open := false;
      return Saved;
    }
  }

  // ------------------------------------------------------------ formatTime

  const AM: Text := Lit(" AM")
  const PM: Text := Lit(" PM")

  /** The 12-hour label of an hour of the day: `${hour} AM` interpolates `String(hour)`. */
  function FormatTime(hour: int): (shown: Text)
    ensures |shown| > 3
    ensures hour < 12 ==> shown[|shown| - 3..] == AM
    ensures hour >= 12 ==> shown[|shown| - 3..] == PM
    ensures 0 < hour < 12 ==> shown[..|shown| - 3] == Decimal(hour)
    ensures 12 < hour ==> shown[..|shown| - 3] == Decimal(hour - 12)
    ensures hour == 0 || hour == 12 ==> shown[..|shown| - 3] == Decimal(12)
  {
    if hour == 0 then Decimal(12) + AM
    else if hour < 12 then SignedDecimal(hour) + AM
    else if hour == 12 then Decimal(12) + PM
    else SignedDecimal(hour - 12) + PM
  }

  lemma AmPmDiffer()
    ensures AM != PM
  {
    assert AM[1] != PM[1];
  }

  /** The twelve-hour value shown for an hour of the day: 12 for midnight and noon. */
  function ClockHour(hour: int): int
  {
    if hour == 0 || hour == 12 then 12 else if hour < 12 then hour else hour - 12
  }

  /** Distinct hours of the day get distinct labels. */
  lemma FormatTimeInjective(a: int, b: int)
    requires 0 <= a <= 23 && 0 <= b <= 23
    requires FormatTime(a) == FormatTime(b)
    ensures a == b
  {
    var la, lb := FormatTime(a), FormatTime(b);
    AmPmDiffer();
    assert (a < 12) == (b < 12) by {
      assert la[|la| - 3..] == lb[|lb| - 3..];
    }
    assert Decimal(ClockHour(a)) == la[..|la| - 3] == lb[..|lb| - 3] == Decimal(ClockHour(b));
    DecimalInjective(ClockHour(a), ClockHour(b));
  }

  /** The morning slider's labels all read `h AM` with h in 5..11; the evening slider's read `h PM` with h in 1..8. */
  lemma SliderLabels(morning: int, evening: int)
    requires Emits(MORNING_SLIDER, morning) && Emits(EVENING_SLIDER, evening)
    ensures FormatTime(morning) == Decimal(morning) + AM
    ensures FormatTime(evening) == Decimal(evening - 12) + PM && 1 <= evening - 12 <= 8
  {
  }
}
