/** The Linux engine: the argument list of org.freedesktop.Notifications.Notify (as
    the freedesktop.org Desktop Notifications Specification defines that method), the
    success test on the reply, and the two signal relays. The session bus itself is an
    oracle: its connection state and the reply to the call are inputs. */
module LinuxDBus {
  import opened QtTypes

  /** The D-Bus values the engine puts on the wire. */
  datatype DBusValue =
    | DString(s: string)
    | DUint32(u: uint32)
    | DInt32(i: int32)
    | DStringList(items: seq<string>)
    | DVariantMap(entries: map<string, DBusValue>)

  /** The D-Bus type signature of one value. */
  function TypeCode(v: DBusValue): string
  {
    match v
    case DString(_) => "s"
    case DUint32(_) => "u"
    case DInt32(_) => "i"
    case DStringList(_) => "as"
    case DVariantMap(_) => "a{sv}"
  }

  /** The argument types of Notify, one type code per argument: together they spell
      the method signature "susssasa{sv}i". */
  const NOTIFY_SIGNATURE: seq<string> := ["s", "u", "s", "s", "s", "as", "a{sv}", "i"]

  const APP_NAME: string := "qtnotifications"
  const EXPIRE_TIMEOUT_MS: int32 := 5000

  /** The action list of Notify: key, label, key, label, ... in the map's order. */
  function FlattenActions(actions: seq<(string, string)>): (list: seq<string>)
    ensures |list| == 2 * |actions|
    ensures forall i :: 0 <= i < |actions| ==> list[2 * i] == actions[i].0 && list[2 * i + 1] == actions[i].1
    decreases |actions|
  {
    if actions == [] then []
    else FlattenActions(actions[..|actions| - 1]) + [actions[|actions| - 1].0, actions[|actions| - 1].1]
  }

  /** Builds the action list as sendNotification does, appending each key and value. */
  method BuildActionList(actions: QStringMap) returns (list: seq<string>)
    ensures list == FlattenActions(actions)
  {
    list := [];
    var i := 0;
    while i < |actions|
      invariant 0 <= i <= |actions|
      invariant list == FlattenActions(actions[..i])
    {
      assert actions[..i + 1][..i] == actions[..i];
      list := list + [actions[i].0, actions[i].1];
      i := i + 1;
    }
    assert actions[..i] == actions;
  }

  /** Reads a flattened action list back into (key, label) pairs. */
  function PairUp(list: seq<string>): (r: Option<seq<(string, string)>>)
    ensures r.Some? <==> |list| % 2 == 0
    decreases |list|
  {
    if list == [] then Some([])
    else if |list| == 1 then None
    else match PairUp(list[2..])
      case None => None
      case Some(rest) => Some([(list[0], list[1])] + rest)
  }

  lemma {:induction false} FlattenFront(actions: seq<(string, string)>)
    requires |actions| > 0
    ensures FlattenActions(actions) == [actions[0].0, actions[0].1] + FlattenActions(actions[1..])
    decreases |actions|
  {
    var n := |actions|;
    var init := actions[..n - 1];
    var rest := actions[1..];
    if n == 1 {
      assert init == [] && rest == [];
    } else {
      FlattenFront(init);
      assert init[0] == actions[0];
      assert rest[..|rest| - 1] == init[1..];
      assert rest[|rest| - 1] == actions[n - 1];
      ConcatAssoc([actions[0].0, actions[0].1], FlattenActions(init[1..]), [actions[n - 1].0, actions[n - 1].1]);
    }
  }

  /** Flattening loses nothing and adds nothing: pairing the list up again gives back
      exactly the entries, in order. */
  lemma {:induction false} PairUpFlatten(actions: seq<(string, string)>)
    ensures PairUp(FlattenActions(actions)) == Some(actions)
    decreases |actions|
  {
    if actions != [] {
      FlattenFront(actions);
      var list := FlattenActions(actions);
      PairUpFlatten(actions[1..]);
      assert list[2..] == FlattenActions(actions[1..]);
      assert [(list[0], list[1])] + actions[1..] == actions;
    }
  }

  /** No entry is invented: every string of the action list is a key or a label of the
      map (in particular no "default" pair appears unless the caller gave one). */
  lemma FlattenHasNoSyntheticEntries(actions: seq<(string, string)>, k: nat)
    requires k < |FlattenActions(actions)|
    ensures var s := FlattenActions(actions)[k];
            exists i :: 0 <= i < |actions| && (s == actions[i].0 || s == actions[i].1)
  {
    var i := k / 2;
    assert k == 2 * i || k == 2 * i + 1;
  }

  /** The arguments of Notify: application name, replaces_id 0, icon, summary, body,
      the flattened actions, an empty hints map and a 5000 ms timeout. */
  function NotifyArguments(summary: string, body: string, icon: string, actions: QStringMap): seq<DBusValue>
  {
    [DString(APP_NAME), DUint32(0), DString(icon), DString(summary), DString(body),
     DStringList(FlattenActions(actions)), DVariantMap(map[]), DInt32(EXPIRE_TIMEOUT_MS)]
  }

  /** The arguments match the signature of Notify: there are eight, and each has the
      type Notify expects in its position. */
  lemma NotifyArgumentsSignature(summary: string, body: string, icon: string, actions: QStringMap)
    ensures |NotifyArguments(summary, body, icon, actions)| == |NOTIFY_SIGNATURE|
    ensures forall i :: 0 <= i < |NOTIFY_SIGNATURE| ==>
              TypeCode(NotifyArguments(summary, body, icon, actions)[i]) == NOTIFY_SIGNATURE[i]
  {
  }

  datatype MessageType = MethodCallMessage | ReplyMessage | ErrorMessage | SignalMessage | InvalidMessage

  /** What QDBusConnection::call returned. */
  datatype Reply = Reply(kind: MessageType, arguments: seq<DBusValue>)

  /** Sends one notification. `call` is the session bus answering the Notify method
      call; the type argument is ignored. Success is a method reply carrying at least
      one argument (the server's notification id). */
  method SendNotification(summary: string, body: string, icon: string, actions: QStringMap,
                          notificationType: int, call: seq<DBusValue> -> Reply)
    returns (ok: bool)
    ensures var reply := call(NotifyArguments(summary, body, icon, actions));
            ok <==> reply.kind == ReplyMessage && |reply.arguments| > 0
  {
    var actionList := BuildActionList(actions);
    var args := [DString(APP_NAME), DUint32(0), DString(icon), DString(summary), DString(body),
                 DStringList(actionList), DVariantMap(map[]), DInt32(EXPIRE_TIMEOUT_MS)];
    var reply := call(args);
    ok := reply.kind == ReplyMessage && reply.arguments != [];
  }

  /** The ActionInvoked signal is relayed once, with its id and key unchanged. */
  function OnActionInvoked(id: uint32, actionKey: string): (events: seq<EngineEvent>)
    ensures |events| == 1 && events[0].ActionInvoked?
    ensures events[0].id == id && events[0].actionKey == actionKey
  {
    [ActionInvoked(id, actionKey)]
  }

  /** The NotificationClosed signal is relayed once, with the server's raw reason code
      and no mapping onto QNotifications::ClosedReason. */
  function OnNotificationClosed(id: uint32, reason: uint32): (events: seq<EngineEvent>)
    ensures |events| == 1 && events[0].NotificationClosed?
    ensures events[0].id == id && events[0].reason == reason
  {
    [NotificationClosed(id, reason)]
  }

  /** The freedesktop.org reason codes (1 expired, 2 dismissed by the user, 3 closed by
      CloseNotification, 4 undefined) reach the ClosedReason enum unmapped, so each
      reads one enumerator later than it means, and 4 names no enumerator. */
  lemma RawReasonReadsAsEnum(id: uint32)
    ensures ReasonOfCode(OnNotificationClosed(id, 1)[0].reason) == Some(Dismissed)
    ensures ReasonOfCode(OnNotificationClosed(id, 2)[0].reason) == Some(Closed)
    ensures ReasonOfCode(OnNotificationClosed(id, 3)[0].reason) == Some(Undefined)
    ensures ReasonOfCode(OnNotificationClosed(id, 4)[0].reason) == None
  {
  }
}
