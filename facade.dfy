/** The public QNotifications object and the choice of platform engine behind it. The
    facade holds at most one engine, chosen once when it is built; it answers
    isSupported and sendNotification by asking that engine, and re-emits the engine's
    signals through the connections made in its constructor. */
module Facade {
  import opened QtTypes

  // ---------------------------------------------------------------------------
  // Engine selection

  /** The Q_OS_* macros a build defines. Qt defines Q_OS_LINUX on Android as well. */
  datatype PlatformMacros = PlatformMacros(android: bool, linux: bool, windows: bool, macos: bool, ios: bool)

  datatype EngineKind = AndroidEngine | LinuxEngine | WindowsEngine | DarwinEngine

  /** qt_notification_engine: the branches are tried in the order Android, Linux,
      Windows, macOS/iOS; a build that defines none of them has no engine. */
  function SelectEngine(m: PlatformMacros): (kind: Option<EngineKind>)
    ensures m.android ==> kind == Some(AndroidEngine)
    ensures !m.android && m.linux ==> kind == Some(LinuxEngine)
    ensures kind.None? <==> !(m.android || m.linux || m.windows || m.macos || m.ios)
  {
    if m.android then Some(AndroidEngine)
    else if m.linux then Some(LinuxEngine)
    else if m.windows then Some(WindowsEngine)
    else if m.macos || m.ios then Some(DarwinEngine)
    else None
  }

  /** The system a build targets. */
  datatype TargetOs = Android | DesktopLinux | Windows | MacOS | IOS | OtherOs

  /** The macros Qt defines for each target. */
  function Macros(os: TargetOs): PlatformMacros
  {
    match os
    case Android => PlatformMacros(true, true, false, false, false)
    case DesktopLinux => PlatformMacros(false, true, false, false, false)
    case Windows => PlatformMacros(false, false, true, false, false)
    case MacOS => PlatformMacros(false, false, false, true, false)
    case IOS => PlatformMacros(false, false, false, false, true)
    case OtherOs => PlatformMacros(false, false, false, false, false)
  }

  /** The engine each target is meant to get. */
  function IntendedEngine(os: TargetOs): Option<EngineKind>
  {
    match os
    case Android => Some(AndroidEngine)
    case DesktopLinux => Some(LinuxEngine)
    case Windows => Some(WindowsEngine)
    case MacOS | IOS => Some(DarwinEngine)
    case OtherOs => None
  }

  /** Every target gets its own engine: the Android branch comes before the Linux one, so an Android
      build, which defines both macros, still selects the Android engine. */
  lemma SelectionMatchesTarget(os: TargetOs)
    ensures SelectEngine(Macros(os)) == IntendedEngine(os)
  {
  }

  // ---------------------------------------------------------------------------
  // The facade

  /** A QVariant held in the parameters map; the facade passes it through unread. */
  datatype Variant =
    | VNull
    | VString(s: string)
    | VInt(i: int)
    | VBytes(bytes: seq<bv8>)
    | VMap(entries: map<string, Variant>)

  /** The arguments of sendNotification. */
  datatype SendRequest = SendRequest(title: string, message: string,
                                     parameters: map<string, Variant>, actions: QStringMap)

  /** An engine as the facade sees it: its own isSupported answer and what its
      sendNotification returns for each request. */
  datatype Engine = Engine(kind: EngineKind, supported: bool, send: SendRequest -> uint32)

  /** The three engine signals the constructor can connect. */
  datatype Signal = ActionInvokedSignal | NotificationClosedSignal | NotificationClickedSignal

  function SignalOf(e: EngineEvent): Signal
  {
    match e
    case ActionInvoked(_, _) => ActionInvokedSignal
    case NotificationClosed(_, _) => NotificationClosedSignal
    case NotificationClicked(_) => NotificationClickedSignal
  }

  /** m_engine and the connections made from its signals to the facade's signals of the
      same name. */
  datatype QNotifications = QNotifications(engine: Option<Engine>, connections: seq<Signal>)

  /** How many connections a signal has. */
  function Count(connections: seq<Signal>, s: Signal): (n: nat)
    ensures n <= |connections|
    ensures n == 0 <==> s !in connections
  {
    if connections == [] then 0
    else (if connections[0] == s then 1 else 0) + Count(connections[1..], s)
  }

  /** The constructor: keeps the selected engine and, when there is one, connects each
      of its three signals once. */
  function Construct(engine: Option<Engine>): (q: QNotifications)
    ensures q.engine == engine
    ensures forall s: Signal :: Count(q.connections, s) == (if engine.Some? then 1 else 0)
  {
    if engine.Some? then
      var connections := [ActionInvokedSignal, NotificationClosedSignal, NotificationClickedSignal];
      assert connections[1..][1..][1..] == [];
      QNotifications(engine, connections)
    else QNotifications(None, [])
  }

  /** isSupported: an engine exists and it reports support. */
  function IsSupported(q: QNotifications): (supported: bool)
    ensures supported ==> q.engine.Some?
  {
    q.engine.Some? && q.engine.value.supported
  }

  /** Only the unknown target selects no engine, and a facade built without an engine
      is never supported. */
  lemma UnknownPlatformUnsupported(os: TargetOs)
    requires SelectEngine(Macros(os)).None?
    ensures os == OtherOs
    ensures !IsSupported(Construct(None))
  {
  }

  /** A facade with an engine is supported exactly when its engine says so. */
  lemma SupportFollowsEngine(engine: Engine)
    ensures IsSupported(Construct(Some(engine))) == engine.supported
    ensures !IsSupported(Construct(None))
  {
  }

  /** sendNotification: with no engine it returns 0 and asks nothing (no request is
      forwarded); otherwise it forwards the request unchanged and returns the engine's
      answer. */
  function SendNotification(q: QNotifications, request: SendRequest): (result: (uint32, Option<SendRequest>))
    ensures q.engine.None? ==> result.0 == 0 && result.1.None?
    ensures q.engine.Some? ==> result.1 == Some(request) && result.0 == q.engine.value.send(result.1.value)
  {
    if q.engine.None? then (0, None)
    else (q.engine.value.send(request), Some(request))
  }

  /** One engine event as the facade re-emits it: once per connection of its signal. */
  function Relay(q: QNotifications, e: EngineEvent): (emitted: seq<EngineEvent>)
    ensures |emitted| == Count(q.connections, SignalOf(e))
    ensures forall k :: 0 <= k < |emitted| ==> emitted[k] == e
  {
    seq(Count(q.connections, SignalOf(e)), _ => e)
  }

  /** A sequence of engine events as the facade re-emits them. */
  function RelayAll(q: QNotifications, events: seq<EngineEvent>): seq<EngineEvent>
  {
    if events == [] then [] else Relay(q, events[0]) + RelayAll(q, events[1..])
  }

  /** With an engine every event comes out exactly once and in order; without one,
      nothing comes out. */
  lemma {:induction false} RelayAllExactlyOnce(engine: Option<Engine>, events: seq<EngineEvent>)
    ensures engine.Some? ==> RelayAll(Construct(engine), events) == events
    ensures engine.None? ==> RelayAll(Construct(engine), events) == []
  {
    if events != [] {
      RelayAllExactlyOnce(engine, events[1..]);
      var q := Construct(engine);
      if engine.Some? {
        assert Relay(q, events[0]) == [events[0]];
        assert [events[0]] + events[1..] == events;
      } else {
        assert Relay(q, events[0]) == [];
      }
    }
  }
}
