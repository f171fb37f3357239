/** The notification record and the notification settings record of the mobile
    client, as declared in mobile/components/notifications/NotificationModel.ts
    and used by the notification store. */
module NotificationModel {
  import opened Wrappers

  datatype NotificationType = Info | Warning | Alert | IncidentReport | SafetyUpdate

  datatype Priority = Low | Medium | High

  /** One user-facing notification. `timestamp` is a date in milliseconds since
      the epoch. */
  datatype Notification = Notification(
    id: string,
    title: string,
    message: string,
    kind: NotificationType,
    timestamp: int,
    read: bool,
    location: Option<string>,
    priority: Priority)

  /** What a caller of `createNotification` supplies: a notification without its
      `id`, `timestamp` and `read` flag. */
  datatype NotificationDraft = NotificationDraft(
    title: string,
    message: string,
    kind: NotificationType,
    priority: Priority,
    location: Option<string>)

  datatype NotificationSettings = NotificationSettings(
    enableSafetyAlerts: bool,
    enableIncidentReports: bool,
    enableLocationBased: bool,
    notificationSound: bool,
    vibration: bool)

  /** A `Partial<NotificationSettings>`: `None` marks a field the caller left out. */
  datatype SettingsPatch = SettingsPatch(
    enableSafetyAlerts: Option<bool>,
    enableIncidentReports: Option<bool>,
    enableLocationBased: Option<bool>,
    notificationSound: Option<bool>,
    vibration: Option<bool>)

  predicate IsUnread(n: Notification) {
    !n.read
  }
}
