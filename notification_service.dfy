/** The persisted notification store of mobile/services/NotificationService.ts.
    The two AsyncStorage keys (`@citysafe_notifications` and
    `@citysafe_notification_settings`) are the two fields of a
    `NotificationStore` object; every mutating operation reads the stored list,
    computes a new one with a pure list transform, and writes it back. */
module NotificationService {
  import opened Wrappers
  import opened Text
  import opened Seqs
  import opened NotificationModel

  // ---------------------------------------------------------------------------
  // Constants
  // ---------------------------------------------------------------------------

  /** Every toggle on: what `getSettings` answers while nothing is stored. */
  const DefaultSettings := NotificationSettings(true, true, true, true, true)

  // ---------------------------------------------------------------------------
  // Pure list transforms
  // ---------------------------------------------------------------------------

  /** The unread notifications, in stored order. */
  function Unread(list: seq<Notification>): seq<Notification> {
    Filter(list, IsUnread)
  }

  /** The number of unread notifications. */
  function UnreadCount(list: seq<Notification>): nat {
    |Unread(list)|
  }

  /** `list.map(n => n.id === id ? { ...n, read } : n)`. */
  function WithReadFlag(list: seq<Notification>, id: string, read: bool): (r: seq<Notification>)
    ensures |r| == |list|
    ensures forall i :: 0 <= i < |list| ==>
      r[i] == (if list[i].id == id then list[i].(read := read) else list[i])
  {
    if list == [] then []
    else [if list[0].id == id then list[0].(read := read) else list[0]]
         + WithReadFlag(list[1..], id, read)
  }

  /** `list.map(n => ({ ...n, read: true }))`. */
  function AllRead(list: seq<Notification>): (r: seq<Notification>)
    ensures |r| == |list|
    ensures forall i :: 0 <= i < |list| ==> r[i] == list[i].(read := true)
  {
    if list == [] then [] else [list[0].(read := true)] + AllRead(list[1..])
  }

  /** `list.filter(n => n.id !== id)`. */
  function WithoutId(list: seq<Notification>, id: string): (r: seq<Notification>)
    ensures forall n :: n in r <==> n in list && n.id != id
  {
    Filter(list, (n: Notification) => n.id != id)
  }

  /** `list.filter(n => n.timestamp > cutoff)`. */
  function NewerThan(list: seq<Notification>, cutoff: int): (r: seq<Notification>)
    ensures forall n :: n in r <==> n in list && n.timestamp > cutoff
  {
    Filter(list, (n: Notification) => n.timestamp > cutoff)
  }

  /** `{ ...current, ...patch }`: a supplied field overwrites, an absent one keeps. */
  function MergeSettings(current: NotificationSettings, patch: SettingsPatch): (r: NotificationSettings)
    ensures r.enableSafetyAlerts == patch.enableSafetyAlerts.GetOr(current.enableSafetyAlerts)
    ensures r.enableIncidentReports == patch.enableIncidentReports.GetOr(current.enableIncidentReports)
    ensures r.enableLocationBased == patch.enableLocationBased.GetOr(current.enableLocationBased)
    ensures r.notificationSound == patch.notificationSound.GetOr(current.notificationSound)
    ensures r.vibration == patch.vibration.GetOr(current.vibration)
  {
    NotificationSettings(
      patch.enableSafetyAlerts.GetOr(current.enableSafetyAlerts),
      patch.enableIncidentReports.GetOr(current.enableIncidentReports),
      patch.enableLocationBased.GetOr(current.enableLocationBased),
      patch.notificationSound.GetOr(current.notificationSound),
      patch.vibration.GetOr(current.vibration))
  }

  /** The settings in force: the stored record, or the defaults when none is stored. */
  function SettingsOrDefault(stored: Option<NotificationSettings>): NotificationSettings {
    stored.GetOr(DefaultSettings)
  }

  /** The notification `createNotification` builds from a draft. */
  function Stamp(draft: NotificationDraft, id: string, now: int): (n: Notification)
    ensures !n.read && n.id == id && n.timestamp == now
    ensures n.title == draft.title && n.message == draft.message && n.kind == draft.kind
    ensures n.priority == draft.priority && n.location == draft.location
  {
    Notification(id, draft.title, draft.message, draft.kind, now, false, draft.location, draft.priority)
  }

  /** The draft `generateLocationBasedNotification` hands to `createNotification`. */
  function LocationDraft(location: string, incidentType: Option<string>): (d: NotificationDraft)
    ensures d.kind == (if Truthy(incidentType) then IncidentReport else Warning)
    ensures d.priority == Medium && d.location == Some(location)
  {
    if Truthy(incidentType) then
      NotificationDraft(
        "Incident Reported Near " + location,
        "A " + incidentType.value + " incident was recently reported in your area. Please exercise caution.",
        IncidentReport, Medium, Some(location))
    else
      NotificationDraft(
        "Safety Alert for " + location,
        "Safety conditions in " + location
          + " may require your attention. Please stay alert and follow safety guidelines.",
        Warning, Medium, Some(location))
  }

  /** The draft `generateIncidentReportNotification` hands to `createNotification`. */
  function IncidentDraft(reportTitle: string, location: string): NotificationDraft {
    NotificationDraft(
      "New Incident Report",
      "A new incident report titled \"" + reportTitle + "\" has been filed for " + location + ".",
      IncidentReport, Medium, Some(location))
  }

  // ---------------------------------------------------------------------------
  // Properties of the list transforms
  // ---------------------------------------------------------------------------

  /** Marking as read touches exactly the entries with that id and nothing else
      about them; a second call changes nothing. */
  lemma MarkReadExactly(list: seq<Notification>, id: string)
    ensures forall i :: 0 <= i < |list| ==>
      (WithReadFlag(list, id, true)[i].read <==> list[i].id == id || list[i].read)
    ensures forall i :: 0 <= i < |list| ==>
      WithReadFlag(list, id, true)[i].(read := list[i].read) == list[i]
    ensures WithReadFlag(WithReadFlag(list, id, true), id, true) == WithReadFlag(list, id, true)
  {
  }

  /** Marking an id that no entry carries changes nothing. */
  lemma WithReadFlagUnknownId(list: seq<Notification>, id: string, read: bool)
    requires forall i :: 0 <= i < |list| ==> list[i].id != id
    ensures WithReadFlag(list, id, read) == list
  {
  }

  /** After marking everything read nothing is unread. */
  lemma AllReadHasNoUnread(list: seq<Notification>)
    ensures UnreadCount(AllRead(list)) == 0
    ensures Unread(AllRead(list)) == []
  {
    FilterNonePass(AllRead(list), IsUnread);
  }

  /** Deleting an id no entry carries changes nothing. */
  lemma WithoutUnknownIdKeepsAll(list: seq<Notification>, id: string)
    ensures (forall i :: 0 <= i < |list| ==> list[i].id != id) ==> WithoutId(list, id) == list
  {
    if forall i :: 0 <= i < |list| ==> list[i].id != id {
      FilterAllPass(list, (n: Notification) => n.id != id);
    }
  }

  /** Deleting keeps the survivors in their relative order: deleting from a
      concatenation is deleting from each part. */
  lemma WithoutIdKeepsOrder(a: seq<Notification>, b: seq<Notification>, id: string)
    ensures WithoutId(a + b, id) == WithoutId(a, id) + WithoutId(b, id)
  {
    FilterAppend(a, b, (n: Notification) => n.id != id);
  }

  /** Cleanup keeps the survivors in their relative order: cleaning a
      concatenation is cleaning each part. */
  lemma NewerThanKeepsOrder(a: seq<Notification>, b: seq<Notification>, cutoff: int)
    ensures NewerThan(a + b, cutoff) == NewerThan(a, cutoff) + NewerThan(b, cutoff)
  {
    FilterAppend(a, b, (n: Notification) => n.timestamp > cutoff);
  }

  /** `updateSettings({ notificationSound: false })` on the defaults differs from
      the defaults in the sound toggle only. */
  lemma SoundOffOnDefaults()
    ensures MergeSettings(DefaultSettings, SettingsPatch(None, None, None, Some(false), None))
         == DefaultSettings.(notificationSound := false)
  {
  }

  /** An empty patch changes nothing. */
  lemma MergeEmptyPatch(s: NotificationSettings)
    ensures MergeSettings(s, SettingsPatch(None, None, None, None, None)) == s
  {
  }

  /** Applying the same patch twice is applying it once. */
  lemma MergeIdempotent(s: NotificationSettings, patch: SettingsPatch)
    ensures MergeSettings(MergeSettings(s, patch), patch) == MergeSettings(s, patch)
  {
  }

  // ---------------------------------------------------------------------------
  // The store
  // ---------------------------------------------------------------------------

  /** What a read of the notifications key answers: the stored list, or []
      when `getItem` or `JSON.parse` throws, which `getNotifications` catches.
      `readOk` says whether the read went through. */
  function ReadList(stored: seq<Notification>, readOk: bool): seq<Notification> {
    if readOk then stored else []
  }

  /** What a read of the settings key finds: the stored record, or nothing when
      `getItem` or `JSON.parse` throws, which `getSettings` catches. */
  function ReadSettings(stored: Option<NotificationSettings>, readOk: bool): Option<NotificationSettings> {
    if readOk then stored else None
  }

  class NotificationStore {
    /** The list stored under the notifications key (an absent key reads as []). */
    var notifications: seq<Notification>
    /** The record stored under the settings key, if any. */
    var settings: Option<NotificationSettings>

    /** A fresh device: nothing stored under either key. */
    constructor ()
      ensures notifications == [] && settings == None
    {
      notifications := [];
      settings := None;
    }

    /** `getNotifications`: the stored list, or [] when nothing is stored or
        the read fails. */
    method GetNotifications(readOk: bool) returns (r: seq<Notification>)
      ensures readOk ==> r == notifications
      ensures !readOk ==> r == []
    {
      if readOk {
        r := notifications;
      } else {
        r := [];
      }
    }

    /** `getUnreadNotifications`: the entries read whose `read` flag is false. */
    method GetUnreadNotifications(readOk: bool) returns (r: seq<Notification>)
      ensures forall n :: n in r <==> n in ReadList(notifications, readOk) && !n.read
      ensures |r| == UnreadCount(ReadList(notifications, readOk))
    {
      var all := GetNotifications(readOk);
      r := Filter(all, IsUnread);
    }

    /** `createNotification`: stamps the draft, prepends it to the list read and
        stores the result; after a failed read the stored list is replaced by
        the new notification alone. */
    method CreateNotification(draft: NotificationDraft, id: string, now: int, readOk: bool) returns (n: Notification)
      modifies this
      ensures n == Stamp(draft, id, now) && !n.read
      ensures notifications == [n] + ReadList(old(notifications), readOk)
      ensures !readOk ==> notifications == [n]
      ensures settings == old(settings)
    {
      n := Stamp(draft, id, now);
      var existing := GetNotifications(readOk);
      notifications := [n] + existing;
    }

    /** `markAsRead`; after a failed read the stored list becomes []. */
    method MarkAsRead(id: string, readOk: bool)
      modifies this
      ensures notifications == WithReadFlag(ReadList(old(notifications), readOk), id, true)
      ensures !readOk ==> notifications == []
      ensures settings == old(settings)
    {
      var current := GetNotifications(readOk);
      notifications := WithReadFlag(current, id, true);
    }

    /** `markAllAsRead`; after a failed read the stored list becomes []. */
    method MarkAllAsRead(readOk: bool)
      modifies this
      ensures notifications == AllRead(ReadList(old(notifications), readOk))
      ensures !readOk ==> notifications == []
      ensures settings == old(settings)
    {
      var current := GetNotifications(readOk);
      notifications := AllRead(current);
    }

    /** `deleteNotification`; after a failed read the stored list becomes []. */
    method DeleteNotification(id: string, readOk: bool)
      modifies this
      ensures notifications == WithoutId(ReadList(old(notifications), readOk), id)
      ensures !readOk ==> notifications == []
      ensures settings == old(settings)
    {
      var current := GetNotifications(readOk);
      notifications := WithoutId(current, id);
    }

    /** `clearAllNotifications`. */
    method ClearAllNotifications()
      modifies this
      ensures notifications == [] && settings == old(settings)
    {
      notifications := [];
    }

    /** `getSettings`: the stored record, or the all-true defaults when nothing
        is stored or the read fails. */
    method GetSettings(readOk: bool) returns (s: NotificationSettings)
      ensures s == SettingsOrDefault(ReadSettings(settings, readOk))
      ensures settings == None || !readOk ==> s == DefaultSettings
    {
      if readOk && settings.Some? {
        s := settings.value;
      } else {
        s := DefaultSettings;
      }
    }

    /** `updateSettings`: merges the supplied fields over the settings read,
        stores the result and returns exactly what it stored; after a failed
        read the merge is over the defaults. */
    method UpdateSettings(patch: SettingsPatch, readOk: bool) returns (s: NotificationSettings)
      modifies this
      ensures s == MergeSettings(SettingsOrDefault(ReadSettings(old(settings), readOk)), patch)
      ensures settings == Some(s)
      ensures notifications == old(notifications)
    {
      var current := GetSettings(readOk);
      s := MergeSettings(current, patch);
      settings := Some(s);
    }

    /** `generateLocationBasedNotification`. `settingsReadOk` and `listReadOk`
        say whether the reads of the two keys went through. */
    method GenerateLocationBasedNotification(location: string, incidentType: Option<string>, id: string, now: int,
                                             settingsReadOk: bool, listReadOk: bool)
      returns (r: Option<Notification>)
      modifies this
      ensures settings == old(settings)
      ensures !SettingsOrDefault(ReadSettings(settings, settingsReadOk)).enableLocationBased ==>
        r == None && notifications == old(notifications)
      ensures SettingsOrDefault(ReadSettings(settings, settingsReadOk)).enableLocationBased ==>
        && r.Some? && !r.value.read
        && r.value.priority == Medium && r.value.location == Some(location)
        && r.value.kind == (if Truthy(incidentType) then IncidentReport else Warning)
        && r.value == Stamp(LocationDraft(location, incidentType), id, now)
        && notifications == [r.value] + ReadList(old(notifications), listReadOk)
    {
      var current := GetSettings(settingsReadOk);
      if !current.enableLocationBased {
        return None;
      }
      var n := CreateNotification(LocationDraft(location, incidentType), id, now, listReadOk);
      r := Some(n);
    }

    /** `generateSafetyAlert`: the same unread `alert` notification either way;
        it is stored only while safety alerts are enabled. */
    method GenerateSafetyAlert(message: string, priority: Priority, id: string, now: int,
                               settingsReadOk: bool, listReadOk: bool)
      returns (n: Notification)
      modifies this
      ensures settings == old(settings)
      ensures n == Notification(id, "Safety Alert", message, Alert, now, false, None, priority)
      ensures notifications ==
        if SettingsOrDefault(ReadSettings(settings, settingsReadOk)).enableSafetyAlerts
        then [n] + ReadList(old(notifications), listReadOk)
        else old(notifications)
    {
      var current := GetSettings(settingsReadOk);
      if !current.enableSafetyAlerts {
        return Notification(id, "Safety Alert", message, Alert, now, false, None, priority);
      }
      n := CreateNotification(NotificationDraft("Safety Alert", message, Alert, priority, None), id, now, listReadOk);
    }

    /** `generateIncidentReportNotification`. */
    method GenerateIncidentReportNotification(reportTitle: string, location: string, id: string, now: int,
                                              settingsReadOk: bool, listReadOk: bool)
      returns (r: Option<Notification>)
      modifies this
      ensures settings == old(settings)
      ensures !SettingsOrDefault(ReadSettings(settings, settingsReadOk)).enableIncidentReports ==>
        r == None && notifications == old(notifications)
      ensures SettingsOrDefault(ReadSettings(settings, settingsReadOk)).enableIncidentReports ==>
        && r == Some(Stamp(IncidentDraft(reportTitle, location), id, now))
        && r.value.kind == IncidentReport && r.value.priority == Medium && !r.value.read
        && notifications == [r.value] + ReadList(old(notifications), listReadOk)
    {
      var current := GetSettings(settingsReadOk);
      if !current.enableIncidentReports {
        return None;
      }
      var n := CreateNotification(IncidentDraft(reportTitle, location), id, now, listReadOk);
      r := Some(n);
    }

    /** `cleanupOldNotifications`: keeps the entries read that are strictly
        newer than thirty days before `now`. The cutoff steps back thirty days
        of the local calendar (`setDate(getDate() - 30)`), which is thirty
        times twenty-four hours only when no daylight-saving change falls in
        between, so the step is the clock's `daysBefore`. */
    method CleanupOldNotifications(now: int, daysBefore: (int, nat) -> int, readOk: bool)
      modifies this
      ensures notifications == NewerThan(ReadList(old(notifications), readOk), daysBefore(now, 30))
      ensures forall n :: n in notifications <==>
        n in ReadList(old(notifications), readOk) && n.timestamp > daysBefore(now, 30)
      ensures settings == old(settings)
    {
      var cutoff := daysBefore(now, 30);
      var current := GetNotifications(readOk);
      notifications := NewerThan(current, cutoff);
    }
  }
}
