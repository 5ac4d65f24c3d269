/** QtNotificationsActionReceiver: the broadcast receiver that turns a delivered
    intent into at most one call of a native callback. */
module AndroidReceiver {
  import opened QtTypes

  const ACTION_NOTIFICATION: string := "org.qtproject.qt.android.notifications.ACTION_NOTIFICATION"
  const ACTION_NOTIFICATION_CLOSED: string := "org.qtproject.qt.android.notifications.ACTION_NOTIFICATION_CLOSED"

  /** An intent extra, by the type it was stored with. */
  datatype Extra = IntExtra(i: int32) | StringExtra(s: string) | OtherExtra

  /** A delivered intent: its action string (null when absent) and its extras. */
  datatype Intent = Intent(action: Option<string>, extras: map<string, Extra>)

  /** Intent.getIntExtra: the stored int, or the default when the extra is missing
      or holds another type. */
  function GetIntExtra(intent: Intent, name: string, default: int32): int32
  {
    if name in intent.extras && intent.extras[name].IntExtra? then intent.extras[name].i else default
  }

  /** Intent.getStringExtra: the stored string, or null. */
  function GetStringExtra(intent: Intent, name: string): Option<string>
  {
    if name in intent.extras && intent.extras[name].StringExtra? then Some(intent.extras[name].s) else None
  }

  /** The native methods the receiver may call; the id is widened to a Java long. */
  datatype NativeCallback =
    | NotifyNotificationClosed(id: int)
    | NotifyActionInvoked(id: int, actionKey: string)

  /** onReceive: a closed intent reports the close, an action intent carrying a key
      reports that key, and anything else reports nothing. The id is the
      notification_id extra, 0 when missing. */
  function OnReceive(intent: Intent): (callback: Option<NativeCallback>)
    ensures callback.Some? ==> callback.value.id == GetIntExtra(intent, "notification_id", 0)
    ensures (callback.Some? && callback.value.NotifyNotificationClosed?) <==>
            intent.action == Some(ACTION_NOTIFICATION_CLOSED)
    ensures (callback.Some? && callback.value.NotifyActionInvoked?) <==>
            intent.action == Some(ACTION_NOTIFICATION) && GetStringExtra(intent, "action_key").Some?
    ensures callback.Some? && callback.value.NotifyActionInvoked? ==>
            callback.value.actionKey == GetStringExtra(intent, "action_key").value
  {
    var notificationId := GetIntExtra(intent, "notification_id", 0);
    if intent.action == Some(ACTION_NOTIFICATION_CLOSED) then
      Some(NotifyNotificationClosed(notificationId))
    else if intent.action == Some(ACTION_NOTIFICATION) then
      match GetStringExtra(intent, "action_key")
      case Some(key) => Some(NotifyActionInvoked(notificationId, key))
      case None => None
    else None
  }

  /** Any intent whose action is neither of the two constants is ignored. */
  lemma OtherActionsIgnored(intent: Intent)
    requires intent.action != Some(ACTION_NOTIFICATION_CLOSED) && intent.action != Some(ACTION_NOTIFICATION)
    ensures OnReceive(intent).None?
  {
  }
}
