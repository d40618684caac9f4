/**
 * The preferences slice of the Redux store: language, time zone, date
 * format, and two groups of flags (notification channels, accessibility)
 * that reducers update by partial merge. The time zone of the initial state
 * is read from the environment (`Intl`) once; here it is a constructor
 * parameter.
 */
module PreferencesSlice {
  import opened Wrappers

  datatype NotificationPreferences = NotificationPreferences(email: bool, push: bool, desktop: bool)

  datatype AccessibilityPreferences = AccessibilityPreferences(highContrast: bool, fontSize: int, reduceMotion: bool)

  /** A `Partial<...>` payload: `None` is a key the payload does not carry. */
  datatype NotificationPatch = NotificationPatch(email: Option<bool>, push: Option<bool>, desktop: Option<bool>)

  datatype AccessibilityPatch = AccessibilityPatch(highContrast: Option<bool>, fontSize: Option<int>, reduceMotion: Option<bool>)

  const DefaultNotifications := NotificationPreferences(true, true, true)

  const DefaultAccessibility := AccessibilityPreferences(false, 16, false)

  /** `{ ...current, ...patch }` for the notification group. */
  function MergeNotifications(current: NotificationPreferences, patch: NotificationPatch): (r: NotificationPreferences)
    ensures patch.email.Some? ==> r.email == patch.email.value
    ensures patch.email.None? ==> r.email == current.email
    ensures patch.push.Some? ==> r.push == patch.push.value
    ensures patch.push.None? ==> r.push == current.push
    ensures patch.desktop.Some? ==> r.desktop == patch.desktop.value
    ensures patch.desktop.None? ==> r.desktop == current.desktop
  {
    NotificationPreferences(
      patch.email.GetOr(current.email),
      patch.push.GetOr(current.push),
      patch.desktop.GetOr(current.desktop))
  }

  /** `{ ...current, ...patch }` for the accessibility group. */
  function MergeAccessibility(current: AccessibilityPreferences, patch: AccessibilityPatch): (r: AccessibilityPreferences)
    ensures patch.highContrast.Some? ==> r.highContrast == patch.highContrast.value
    ensures patch.highContrast.None? ==> r.highContrast == current.highContrast
    ensures patch.fontSize.Some? ==> r.fontSize == patch.fontSize.value
    ensures patch.fontSize.None? ==> r.fontSize == current.fontSize
    ensures patch.reduceMotion.Some? ==> r.reduceMotion == patch.reduceMotion.value
    ensures patch.reduceMotion.None? ==> r.reduceMotion == current.reduceMotion
  {
    AccessibilityPreferences(
      patch.highContrast.GetOr(current.highContrast),
      patch.fontSize.GetOr(current.fontSize),
      patch.reduceMotion.GetOr(current.reduceMotion))
  }

  /** The payload whose keys are those of `second`, then those of `first` that `second` lacks. */
  function ThenNotifications(first: NotificationPatch, second: NotificationPatch): NotificationPatch {
    NotificationPatch(
      if second.email.Some? then second.email else first.email,
      if second.push.Some? then second.push else first.push,
      if second.desktop.Some? then second.desktop else first.desktop)
  }

  /** Merging the same payload twice is merging it once; an empty payload changes nothing. */
  lemma MergeNotificationsIdempotent(current: NotificationPreferences, patch: NotificationPatch)
    ensures MergeNotifications(MergeNotifications(current, patch), patch) == MergeNotifications(current, patch)
    ensures MergeNotifications(current, NotificationPatch(None, None, None)) == current
  {
  }

  /** Two successive merges equal one merge of the combined payload, later keys winning. */
  lemma MergeNotificationsCompose(current: NotificationPreferences, first: NotificationPatch, second: NotificationPatch)
    ensures MergeNotifications(MergeNotifications(current, first), second)
         == MergeNotifications(current, ThenNotifications(first, second))
  {
  }

  lemma MergeAccessibilityIdempotent(current: AccessibilityPreferences, patch: AccessibilityPatch)
    ensures MergeAccessibility(MergeAccessibility(current, patch), patch) == MergeAccessibility(current, patch)
    ensures MergeAccessibility(current, AccessibilityPatch(None, None, None)) == current
  {
  }

  class PreferencesState {
    /** The time zone the environment reported when the initial state was built. */
    const initialTimezone: string

    var language: string
    var timezone: string
    var dateFormat: string
    var notifications: NotificationPreferences
    var accessibility: AccessibilityPreferences

    /** The state has the values of `initialState`. */
    predicate IsInitial()
      reads this
    {
      && language == "en"
      && timezone == initialTimezone
      && dateFormat == "MM/DD/YYYY"
      && notifications == DefaultNotifications
      && accessibility == DefaultAccessibility
    }

    constructor (environmentTimezone: string)
      ensures initialTimezone == environmentTimezone && IsInitial()
    {
      initialTimezone := environmentTimezone;
      language := "en";
      timezone := environmentTimezone;
      dateFormat := "MM/DD/YYYY";
      notifications := DefaultNotifications;
      accessibility := DefaultAccessibility;
    }

    method SetLanguage(value: string)
      modifies this
      ensures language == value
      ensures timezone == old(timezone) && dateFormat == old(dateFormat)
      ensures notifications == old(notifications) && accessibility == old(accessibility)
    {
      language := value;
    }

    method SetTimezone(value: string)
      modifies this
      ensures timezone == value
      ensures language == old(language) && dateFormat == old(dateFormat)
      ensures notifications == old(notifications) && accessibility == old(accessibility)
    {
      timezone := value;
    }

    method SetDateFormat(value: string)
      modifies this
      ensures dateFormat == value
      ensures language == old(language) && timezone == old(timezone)
      ensures notifications == old(notifications) && accessibility == old(accessibility)
    {
      dateFormat := value;
    }

    /** `setNotificationPreferences`: merge the payload into the notification group only. */
    method SetNotificationPreferences(patch: NotificationPatch)
      modifies this
      ensures notifications == MergeNotifications(old(notifications), patch)
      ensures language == old(language) && timezone == old(timezone) && dateFormat == old(dateFormat)
      ensures accessibility == old(accessibility)
    {
      notifications := MergeNotifications(notifications, patch);
    }

    /** `setAccessibilityPreferences`: merge the payload into the accessibility group only. */
    method SetAccessibilityPreferences(patch: AccessibilityPatch)
      modifies this
      ensures accessibility == MergeAccessibility(old(accessibility), patch)
      ensures language == old(language) && timezone == old(timezone) && dateFormat == old(dateFormat)
      ensures notifications == old(notifications)
    {
      accessibility := MergeAccessibility(accessibility, patch);
    }

    /** `resetPreferences`: back to the initial state, whatever the current one. */
    method ResetPreferences()
      modifies this
      ensures IsInitial()
    {
      language := "en";
      timezone := initialTimezone;
      dateFormat := "MM/DD/YYYY";
      notifications := DefaultNotifications;
      accessibility := DefaultAccessibility;
    }
  }
}
