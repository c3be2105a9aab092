/**
 * The two ways the components report to the user: `onNotification(message,
 * type)`, handed down from the page to the notification list, and the
 * `toast` pop-up.
 */
module Notifications {
  /** The `type` argument of `onNotification`. */
  datatype Severity = Warning | Alert

  /** One call of `onNotification(message, type)`. */
  datatype Notification = Notification(message: string, severity: Severity)

  /** One call of `toast({title, description, variant})`; `destructive` is the `"destructive"` variant. */
  datatype Toast = Toast(title: string, description: string, destructive: bool)
}
