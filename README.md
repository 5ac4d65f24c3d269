# QtNotifications in Dafny

This project models the core of QtNotifications, a Qt module for sending desktop and
mobile notifications. It covers:

- the `QNotifications` facade;
- the choice of platform engine (`qt_notification_engine`);
- three of the engines behind it:
  - the Windows toast engine;
  - the Linux engine, which calls `org.freedesktop.Notifications` over D-Bus;
  - the Java half of the Android engine (`QtNotifications` and `QtNotificationsActionReceiver`).

Each engine turns one "send a notification" request into its platform's form, and turns
the platform's callbacks back into signals:

- the Windows engine emits `actionInvoked`, `notificationClicked` and `notificationClosed`;
- the Linux engine emits `actionInvoked` and `notificationClosed`;
- the Android receiver calls back only for actions and dismissals, because the content intent of a tap is not handled.

The facade relays whichever of the three signals its engine emits.

Modules, one per source file:

- `QtTypes` (`qt_types.dfy`) holds the types every engine shares:
  - Qt's `uint` and Java's `int`, with wrap-around written out;
  - `QMap<QString, QString>`, as a sequence of entries whose keys ascend strictly in QString's order, which compares UTF-16 code units;
  - the `ClosedReason` enum and its integer codes;
  - the engine signals.
- `WindowsToast` (`windows_engine.dfy`) models:
  - the AppUserModelID sanitiser and the identity built from it;
  - the Windows 10 version gate and the image placement rule;
  - the toast XML payload, both as a specification function and as the loop that builds it;
  - the engine as a class, whose send updates the static id counter and `m_lastNotificationId`;
  - the Activated and Dismissed handlers.
- `LinuxDBus` (`linux_engine.dfy`) models:
  - the flattened action list, as a specification function and as the loop that builds it;
  - the eight `Notify` arguments and their D-Bus signature;
  - the test applied to the reply;
  - the two signal relays.
- `AndroidReceiver` (`android_receiver.dfy`) models `onReceive`: an intent becomes at
  most one native callback.
- `AndroidJava` (`android_notifications.dfy`) models `QtNotifications.sendNotification`:
  - a class whose `mNotificationId` advances only on success;
  - the dismiss, content and action pending intents with their request codes;
  - the loop that adds one button per action;
  - the order in which icons take effect.

  It also models `getIconFromData`: a specification function, plus a method that fills
  an `int[]` of ARGB pixels from RGBA or RGB bytes.
- `Facade` (`facade.dfy`) models:
  - the ordered platform-to-engine selection;
  - the facade's constructor wiring;
  - `isSupported` and `sendNotification`;
  - the relay of engine signals.

The model treats each platform service as an input. Each input is a parameter or a field:

- whether WinRT's `LoadXml` accepts a payload, and whether `Show` succeeds;
- what `RtlGetVersion` reports;
- the D-Bus reply to `Notify`;
- whether `BitmapFactory` decodes some bytes or a file;
- the Android API level, and whether the app has an `ic_launcher` drawable;
- whether the Android framework calls complete without an exception;
- each engine's own `isSupported` answer and send result, as the facade sees them.

Some behaviour of the code worth stating up front:

- The Linux engine adds no synthetic `default` action pair and sends no urgency or image hints.
- The Linux engine passes the freedesktop close reason through as the raw number
  (`LinuxDBus.RawReasonReadsAsEnum` shows what observers then read).
- No engine keeps an id-correlation table:
  - the Windows engine reports every event with the id of the last toast it built;
  - `m_notificationIdMap` (qplatformnotificationengine_windows.h:37) is never used.
- Several headers disagree with the `.cpp` files:
  - `qplatformnotificationengine_windows.h` and the `.cpp` declare different `sendNotification` signatures;
  - `qplatformnotificationengine.h` declares an engine `sendNotification` that takes an icon path and returns `bool`, but `qnotifications.cpp:130` calls it with a parameters map and returns its result as a `uint`.
  - `qplatformnotificationengine.h:24-26` declares no `notificationClicked` signal, yet `qnotifications.cpp:97` connects one and `qplatformnotificationengine_windows.cpp:197` emits one. The model assumes the signal exists (`EngineEvent.NotificationClicked`, `Facade.Construct`).
  - `qnotifications.h:37` declares `notificationClosed(uint, ClosedReason)`, while the engine's signal at `qplatformnotificationengine.h:26` carries `(uint, uint)`. The model's `Facade.Relay` passes the `uint` reason through unchanged.

  The model follows the `.cpp` files. In the facade, an engine's send is a function from
  the request to the `uint` it returns.
- `m_lastNotificationId` is not declared in the Windows header that is shown. The model
  gives it the value 0 until the first toast is built.
- The Java code uses `QtNotificationsActionReceiver.ACTION_NOTIFICATION_CLICKED`, but
  the receiver does not declare that constant. The model gives it a distinct string.
  Because the receiver handles only its own two actions, a click on an Android
  notification produces no callback (`AndroidJava.IntentsDispatch`).

## Model

| member | source | states |
|---|---|---|
| QtTypes.ReasonCode | src/notifications/qnotifications.h:20-25 | ClosedReason is zero-based: every enumerator's code is below 4 |
| QtTypes.ReasonOfCode | src/notifications/qnotifications.h:20-25 | an integer names an enumerator exactly when it is below 4 |
| QtTypes.ReasonCodeRoundTrip | src/notifications/qnotifications.h:20-25 | enumerator to code to enumerator is the identity; so is code to enumerator to code for codes below 4 |
| QtTypes.StrLessIsNotCodePointOrder | src/notifications/qplatformnotificationengine_linux.cpp:44-45 | the actions map is iterated in QString order, which compares UTF-16 code units: a key U+1F600 (high surrogate 0xD83D) comes before a key U+FFFD, although it is the larger code point |
| WindowsToast.Sanitize | src/notifications/qplatformnotificationengine_windows.cpp:24-29 | the result has the input's length; each character outside `[A-Za-z0-9.-]` becomes `_` and every other one is kept |
| WindowsToast.SanitizeOutput | src/notifications/qplatformnotificationengine_windows.cpp:24-29 | every character of a sanitised string is in `[A-Za-z0-9.-]` or is `_` |
| WindowsToast.SanitizeIdempotent | src/notifications/qplatformnotificationengine_windows.cpp:24-29 | sanitising twice gives the same string as sanitising once |
| WindowsToast.SanitizeFixesKept | src/notifications/qplatformnotificationengine_windows.cpp:24-29 | a string made only of allowed characters is unchanged |
| WindowsToast.AppUserModelId | src/notifications/qplatformnotificationengine_windows.cpp:31-39 | the identity holds only allowed characters and `_`; its length is the organisation's plus one plus the application's; a dot sits right after the organisation part |
| WindowsToast.DefaultAppUserModelId | src/notifications/qplatformnotificationengine_windows.cpp:35-39 | without an application object the identity is `qt.QtNotifications` |
| WindowsToast.IsSupported | src/notifications/qplatformnotificationengine_windows.cpp:43-57 | supported iff ntdll is loaded, RtlGetVersion resolves, and it reports major version 10 or more; the zeroed structure makes every other case false |
| WindowsToast.ContainsIgnoringCase | src/notifications/qplatformnotificationengine_windows.cpp:79-81 | true iff the word occurs at some offset when text and word are both folded to lower case |
| WindowsToast.ChoosePlacement | src/notifications/qplatformnotificationengine_windows.cpp:73-86 | an empty icon gets no image; otherwise hero iff the path mentions hero, inline iff it mentions inline but not hero, appLogoOverride iff it mentions neither |
| WindowsToast.HeroWinsOverInline | src/notifications/qplatformnotificationengine_windows.cpp:79-83 | a path that mentions both words is placed as hero |
| WindowsToast.AppendImage | src/notifications/qplatformnotificationengine_windows.cpp:72-86 | the step appends exactly the image element the placement rule calls for, or nothing for an empty icon |
| WindowsToast.AppendActions | src/notifications/qplatformnotificationengine_windows.cpp:94-100 | the loop appends nothing for an empty map; otherwise it appends the `<actions>` block with one element per entry in key order |
| WindowsToast.BuildToastXml | src/notifications/qplatformnotificationengine_windows.cpp:66-101 | the built payload is the specified document: prefix, optional image, the two texts, the actions block, `</toast>` |
| WindowsToast.ActionListAppend | src/notifications/qplatformnotificationengine_windows.cpp:96-98 | the elements of two runs of entries are those of the first followed by those of the second |
| WindowsToast.ActionListSplit | src/notifications/qplatformnotificationengine_windows.cpp:96-98 | the action elements split at any entry into the elements before it, that entry's element and the elements after it |
| WindowsToast.ActionListFront | src/notifications/qplatformnotificationengine_windows.cpp:96-98 | the first entry's element comes first, followed by the elements of the rest |
| WindowsToast.ParseActionXml | src/notifications/qplatformnotificationengine_windows.cpp:97 | one action element reads back as its (key, label) pair: the label is the content, the key the arguments |
| WindowsToast.ParseActionListRoundTrip | src/notifications/qplatformnotificationengine_windows.cpp:94-100 | when no key or label contains a double quote, a textual reading of the action elements (no entity decoding) gives back exactly the map's entries in order: none lost, none added |
| WindowsToast.DismissalToReason | src/notifications/qplatformnotificationengine_windows.cpp:207-220 | ApplicationHidden is reported as Closed, TimedOut as Expired and UserCanceled as Dismissed; Undefined is given exactly for the reasons outside these three |
| WindowsToast.DismissalReasonsDistinct | src/notifications/qplatformnotificationengine_windows.cpp:207-216 | the three named dismissal reasons map to three different close reasons |
| WindowsToast.WindowsEngine.constructor | src/notifications/qplatformnotificationengine_windows.cpp:31-41 | the engine stores the composed identity; the id counter starts at 1 |
| WindowsToast.WindowsEngine.SendNotification | src/notifications/qplatformnotificationengine_windows.cpp:59-121 | the counter advances on every call, failing ones included; the last id changes to the call's id only once the payload has loaded; the result is true iff loading and showing both succeed; the type is ignored |
| WindowsToast.WindowsEngine.OnToastActivated | src/notifications/qplatformnotificationengine_windows.cpp:187-202 | two events: a click iff the arguments are missing, empty or "default", otherwise the action with the argument string; then a close with reason Closed; both carry the last id |
| WindowsToast.WindowsEngine.OnToastDismissed | src/notifications/qplatformnotificationengine_windows.cpp:204-221 | exactly one close event, carrying the last id and the mapped reason |
| WindowsToast.ActionButtonActivation | src/notifications/qplatformnotificationengine_windows.cpp:94-98 | the toast's actions element holds, in map order, a button whose arguments attribute is each action's key; activating it with that attribute text reports the text, unless it is empty or "default", which reads as a click |
| LinuxDBus.FlattenActions | src/notifications/qplatformnotificationengine_linux.cpp:43-45 | the list has length 2n; position 2i holds the i-th key and position 2i+1 the i-th label |
| LinuxDBus.BuildActionList | src/notifications/qplatformnotificationengine_linux.cpp:43-45 | the loop builds exactly the flattened list |
| LinuxDBus.PairUp | src/notifications/qplatformnotificationengine_linux.cpp:43-45 | a list pairs up iff its length is even |
| LinuxDBus.PairUpFlatten | src/notifications/qplatformnotificationengine_linux.cpp:43-45 | pairing the flattened list gives back exactly the map's entries in order |
| LinuxDBus.FlattenHasNoSyntheticEntries | src/notifications/qplatformnotificationengine_linux.cpp:43-45 | every string in the action list is a key or a label of the map |
| LinuxDBus.NotifyArgumentsSignature | src/notifications/qplatformnotificationengine_linux.cpp:46-53 | there are eight arguments and each has, in its position, the D-Bus type of Notify's signature `susssasa{sv}i` |
| LinuxDBus.SendNotification | src/notifications/qplatformnotificationengine_linux.cpp:32-60 | the call carries ("qtnotifications", 0, icon, summary, body, actions, {}, 5000) whatever the type; the result is true iff the reply is a method reply with at least one argument |
| LinuxDBus.OnActionInvoked | src/notifications/qplatformnotificationengine_linux.cpp:62-65 | the signal is relayed once with its id and key unchanged |
| LinuxDBus.OnNotificationClosed | src/notifications/qplatformnotificationengine_linux.cpp:67-70 | the signal is relayed once with its id and raw reason code unchanged |
| LinuxDBus.RawReasonReadsAsEnum | src/notifications/qplatformnotificationengine_linux.cpp:67-70 | for every notification id, unmapped freedesktop codes read as the next enumerator: expired (1) as Dismissed, dismissed (2) as Closed, closed (3) as Undefined; undefined (4) names no enumerator |
| AndroidReceiver.OnReceive | src/android/src/org/qtproject/qt/android/notifications/QtNotificationsActionReceiver.java:18-35 | at most one callback: a close iff the action is ACTION_NOTIFICATION_CLOSED; an action iff the action is ACTION_NOTIFICATION and a key is present, with the key unchanged; the id is the notification_id extra, 0 when missing |
| AndroidReceiver.OtherActionsIgnored | src/android/src/org/qtproject/qt/android/notifications/QtNotificationsActionReceiver.java:24-34 | any other action string gives no callback |
| AndroidJava.ArgbChannels | src/android/src/org/qtproject/qt/android/notifications/QtNotifications.java:249-254 | packing keeps all four channels: alpha, red, green and blue read back unchanged |
| AndroidJava.RgbaPixels | src/android/src/org/qtproject/qt/android/notifications/QtNotifications.java:244-255 | there are w*h pixels, pixel i made from bytes 4i..4i+3 |
| AndroidJava.RgbPixels | src/android/src/org/qtproject/qt/android/notifications/QtNotifications.java:257-267 | there are w*h pixels, pixel i made from bytes 3i..3i+2 with alpha 0xFF |
| AndroidJava.PackRgba | src/android/src/org/qtproject/qt/android/notifications/QtNotifications.java:246-255 | the loop fills a new int array with exactly the RGBA pixels |
| AndroidJava.PackRgb | src/android/src/org/qtproject/qt/android/notifications/QtNotifications.java:259-267 | the loop fills a new int array with exactly the RGB pixels |
| AndroidJava.GetIconFromData | src/android/src/org/qtproject/qt/android/notifications/QtNotifications.java:177-287 | the step-by-step method returns exactly the specified icon |
| AndroidJava.IconFromDataRejects | src/android/src/org/qtproject/qt/android/notifications/QtNotifications.java:178-202 | null, a non-map, a non-byte-array data field or empty data gives no icon |
| AndroidJava.EncodedImageWins | src/android/src/org/qtproject/qt/android/notifications/QtNotifications.java:229-234 | bytes that decode as an image are used as that image and never read as raw pixels |
| AndroidJava.RawRgbaIcon | src/android/src/org/qtproject/qt/android/notifications/QtNotifications.java:236-256 | when decoding fails, with positive dimensions, four channels and w*h*4 bytes, the icon has w*h pixels and pixel i holds bytes 4i..4i+3 as ARGB |
| AndroidJava.RawRgbIcon | src/android/src/org/qtproject/qt/android/notifications/QtNotifications.java:257-268 | with three channels and w*h*3 bytes, pixel i holds bytes 3i..3i+2 and is fully opaque |
| AndroidJava.RawIconRejects | src/android/src/org/qtproject/qt/android/notifications/QtNotifications.java:237-272 | a byte count other than w*h*channels, or a channel count other than 3 or 4, gives no icon |
| AndroidJava.RawSizeCheckOverflow | src/android/src/org/qtproject/qt/android/notifications/QtNotifications.java:239-241 | the size test as written accepts 131072 bytes for a 32768 x 32769 RGBA image, whose loop indexes far past them, and 262144 bytes for a 65536 x 65537 RGBA image, whose wrapped `width * height` of 65536 leaves the pixel array short of the dimensions |
| AndroidJava.RawReadsInBounds | src/android/src/org/qtproject/qt/android/notifications/QtNotifications.java:239-268 | whenever the raw path (with the exact size test) yields an icon: the channel count is 3 or 4, the bitmap has exactly width x height pixels, and every byte the pixel loops read lies inside the array |
| AndroidJava.RawSizeTestsDifferOnlyBeyondInt | src/android/src/org/qtproject/qt/android/notifications/QtNotifications.java:239-241 | for any int-sized array and positive dimensions, the wrapping test and the exact test disagree only when the exact byte count exceeds 2^31-1, and then the array is shorter than the image needs |
| AndroidJava.ActionButtons | src/android/src/org/qtproject/qt/android/notifications/QtNotifications.java:143-161 | exactly one button per entry |
| AndroidJava.BuildActionButtons | src/android/src/org/qtproject/qt/android/notifications/QtNotifications.java:143-161 | the loop adds exactly the buttons of the entries, none for a null or empty map; button i is titled with the value, carries the key, and has request code id*1000+i |
| AndroidJava.ContentRequestCode | src/android/src/org/qtproject/qt/android/notifications/QtNotifications.java:80 | the content intent's request code never equals the dismiss intent's (the id itself), and is id + 10000 whenever that fits an int |
| AndroidJava.ActionRequestCode | src/android/src/org/qtproject/qt/android/notifications/QtNotifications.java:154 | the code is congruent to id * 1000 + index modulo 2^32, and equals it whenever that fits an int |
| AndroidJava.ActionRequestCodesDistinct | src/android/src/org/qtproject/qt/android/notifications/QtNotifications.java:152-157 | while id*1000+999 fits an int and a notification has at most 1000 actions, no two action request codes coincide |
| QtTypes.WrapInt32Absorbs | src/android/src/org/qtproject/qt/android/notifications/QtNotifications.java:154 | wrapping the product before adding the index gives the same int as wrapping the exact sum once |
| AndroidJava.ActionRequestCodeCollision | src/android/src/org/qtproject/qt/android/notifications/QtNotifications.java:154 | the 1001st action of notification 1 shares its request code with the first action of notification 2 |
| AndroidJava.IntentsDispatch | src/android/src/org/qtproject/qt/android/notifications/QtNotifications.java:61-159 | the dismiss intent reaches the receiver as a close with the id; button i reaches it as an action with its key and the id; the content intent produces no callback |
| AndroidJava.ChooseIcons | src/android/src/org/qtproject/qt/android/notifications/QtNotifications.java:93-139 | for both the small and the large icon, a loaded path icon beats a loaded data icon, which beats the default (ic_launcher if present, else ic_dialog_info, and none for the large icon); a failed load changes nothing; a path that is neither a string nor null raises the cast failure |
| AndroidJava.IncrementThenDecrement | src/android/src/org/qtproject/qt/android/notifications/QtNotifications.java:166-169 | `mNotificationId++` followed by `mNotificationId - 1` gives back the id used, also across the int wrap |
| AndroidJava.QtNotifications.constructor | src/android/src/org/qtproject/qt/android/notifications/QtNotifications.java:29 | the id starts at 1 |
| AndroidJava.QtNotifications.SendNotification | src/android/src/org/qtproject/qt/android/notifications/QtNotifications.java:50-175 | on success: returns the current id, posts the notification built from it, and advances the id by one; on any exception: returns 0, posts nothing, and leaves the id unchanged |
| Facade.SelectEngine | src/notifications/qplatformnotificationengine.cpp:5-22 | Android wins whenever it is defined; Linux wins when Android is not defined; there is no engine iff no platform macro is defined |
| Facade.SelectionMatchesTarget | src/notifications/qplatformnotificationengine.cpp:7-21 | each target gets its own engine: Android builds, which define both macros, get Android; Linux gets Linux, Windows gets Windows, macOS and iOS get Darwin, anything else none |
| Facade.Construct | src/notifications/qnotifications.cpp:90-99 | the engine is kept; each of the three signals is connected exactly once when there is an engine, and none is connected otherwise |
| Facade.IsSupported | src/notifications/qnotifications.cpp:109-112 | support needs an engine |
| Facade.SupportFollowsEngine | src/notifications/qnotifications.cpp:109-112 | with an engine, support equals the engine's answer; without one it is false |
| Facade.UnknownPlatformUnsupported | src/notifications/qplatformnotificationengine.cpp:19-20 | only an unknown target selects no engine, and a facade on one is never supported |
| Facade.SendNotification | src/notifications/qnotifications.cpp:123-131 | without an engine the result is 0 and nothing is forwarded; with one, the request is forwarded unchanged and the engine's result is returned |
| Facade.Relay | src/notifications/qnotifications.cpp:94-98 | an engine event is re-emitted unchanged, once per connection of its signal |
| Facade.RelayAllExactlyOnce | src/notifications/qnotifications.cpp:90-99 | with an engine, a sequence of events comes out exactly as it went in, in order; without one, nothing comes out |

## Left out

- Windows native plumbing:
  - COM initialisation (`ensureComInitialized`);
  - the registry entries and the process AppUserModelID set by `setAppUserModelID`;
  - the WinRT event registration.

  The model's inputs stand for `LoadXml`, `ToastNotification` construction, `CreateToastNotifier` and `Show` (success or a thrown `hresult_error`).
- The D-Bus transport is an input: the signal subscriptions made in the Linux constructor and the synchronous `call`. The reply is a value.
- The Linux engine's `isSupported` is session-bus connectivity. Here it is the `supported` input of the engine the facade holds. The engine keeps no state, so no send can change it.
- The Android engine's C++ half (`qplatformnotificationengine_android.cpp`) is not part of this model. That covers JNI marshalling and the queued hop to the engine's thread. `QtNotifications.isSupported` is left out too.
- The Android framework is an input:
  - notification channel creation;
  - `PendingIntent`, `Notification.Builder` and `NotificationManager.notify` (a single "no exception" flag);
  - `BitmapFactory` decoding and the file checks of `getIconFromPath` (predicates on the bytes and the path);
  - `Build.VERSION`.
- `cancelAllNotifications` and `cancelNotification` are left out: they only forward to `NotificationManager`.
- The Darwin engine is not part of this model, because no implementation of it is shown. Selection still returns it for macOS and iOS.
- The QML binding and the examples are left out.
- Singleton identity: the model has no object identity for engines. Repeated selection returns the same engine kind because `Facade.SelectEngine` is a function. That the same instance is returned is not modelled.
- WindowsToast.Sanitize: it counts length in code points. The regular-expression replace also turns a character outside the Basic Multilingual Plane into one `_`, but `QString::length()` then shrinks by one per such character, which the model's length clause does not express.
- WindowsToast.ContainsIgnoringCase: it folds only ASCII letters. Qt's full Unicode case folding is not modelled.
- WindowsToast.ActionButtonActivation: it takes the arguments WinRT delivers to be the raw attribute text the payload carries. An XML parser decodes character and entity references in attribute values and turns tab, CR and LF into spaces, so a key such as `a&amp;b` comes back as `a&b`, and a tab in a key comes back as a space. A key with `<` or a bare `&` makes `LoadXml` fail, and then there is no button. The model does not capture this decoding.
- WindowsToast.BuildToastXml: nothing in the payload is XML-escaped, in the source or in the model. Whether LoadXml accepts a payload with `<`, `&` or `"` in it is left to the input, and the round trip is proved only for keys and labels without a double quote.
- Java `HashMap` iteration order is not modelled. The order of the actions map is an input (a sequence of entries).
- The Android `parameters` values that this code never reads are not modelled.
- Floating-point `Number` values of width, height and channels are not modelled. Only integral ones are (`intValue()` truncation of doubles is not).
- `OutOfMemoryError` and other `Error`s that `catch (Exception)` does not catch are not modelled.
- AndroidJava.GetIconFromData: it and `AndroidJava.RawIcon` compare the byte count with the exact product `width * height * channels`, not with the wrapping `int` product of QtNotifications.java:239-241. `AndroidJava.RawSizeTestsDifferOnlyBeyondInt` shows the two tests differ only for images needing more than 2^31-1 bytes, whose array is then too short. There the Java method either runs out of memory allocating the pixel array (an `Error`, not modelled), or, when `width * height` wraps to a negative int, gets a `NegativeArraySizeException`, or reads past the byte array and gets an `ArrayIndexOutOfBoundsException` (both turned into `null` by the catch at :281), or (when `width * height` wraps too) hands `Bitmap.createBitmap` fewer pixels than the dimensions. The model's `None` matches the two exception cases; the framework's answer in the third is not modelled.
- WindowsToast.WindowsEngine.OnToastActivated and WindowsToast.WindowsEngine.OnToastDismissed: the WinRT Activated and Dismissed handlers (qplatformnotificationengine_windows.cpp:187-221) run on a WinRT thread and read `m_lastNotificationId` without synchronisation against the write in `sendNotification`. The model reads the field sequentially. It captures neither that race nor the thread on which the signals are emitted.
- The `long` id of the native callbacks is an unbounded integer.

## Findings

| source | as written | input that shows it | evidently intended | confidence | as-written member | corrected member |
|---|---|---|---|---|---|---|
| src/android/src/org/qtproject/qt/android/notifications/QtNotifications.java:239-241 | `width * height * expectedChannels` is computed in 32-bit `int` and wraps before it is compared with the byte count; `new int[width * height]` at :246 and :259 wraps as well | (a) 32768 x 32769 RGBA with 131072 bytes: the product 4295098368 wraps to 131072 and the test passes. `new int[1073774592]` then either throws `OutOfMemoryError`, which escapes both `catch (Exception)` blocks, or succeeds, and then reading `iconData[131072]` throws `ArrayIndexOutOfBoundsException`, which the catch at :281 turns into a null icon. (b) 65536 x 65537 RGBA with 262144 bytes: the test passes, `width * height` wraps to 65536, the loop fills 65536 pixels inside the array, and `Bitmap.createBitmap` receives 65536 pixels for a 65536 x 65537 image. Java checks array bounds, so no byte past the array is read in either case | accept raw pixels only when the byte count is exactly width x height x channels, so that the pixel array matches the dimensions and every byte the loops read exists | not executed | AndroidJava.RawSizeCheckOverflow | AndroidJava.RawReadsInBounds |
