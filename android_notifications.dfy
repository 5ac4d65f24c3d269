/** The Java half of the Android engine (QtNotifications): id allocation, the pending
    intents a notification carries, one button per action, which icon ends up on the
    notification, and the raw-pixel fallback that turns RGBA or RGB bytes into ARGB
    ints. The Android framework is an oracle (`Platform`). */
module AndroidJava {
  import opened QtTypes
  import opened AndroidReceiver

  /** The action of the content intent. QtNotificationsActionReceiver does not declare
      this constant; the value here is assumed, distinct from the two it declares. */
  const ACTION_NOTIFICATION_CLICKED: string := "org.qtproject.qt.android.notifications.ACTION_NOTIFICATION_CLICKED"

  /** A value of the Map<String, Object> the C++ side passes in. */
  datatype JValue =
    | JNull
    | JString(s: string)
    | JInteger(i: int32)
    | JNumber(n: int)            // another integral java.lang.Number (Long, Short, Byte)
    | JBoolean(b: bool)
    | JBytes(bytes: seq<bv8>)
    | JMap(m: map<string, JValue>)

  /** Map.get: null for a missing key. */
  function MapGet(m: map<string, JValue>, key: string): JValue
  {
    if key in m then m[key] else JNull
  }

  /** How getIconFromData reads width, height and channels: an Integer as it is, any
      other Number through intValue() (its low 32 bits), anything else as null. */
  function IntValue(v: JValue): Option<int32>
  {
    match v
    case JInteger(i) => Some(i)
    case JNumber(n) => Some(WrapInt32(n))
    case _ => None
  }

  datatype Bitmap =
    | EncodedBitmap(bytes: seq<bv8>)
    | FileBitmap(path: string)
    | PixelBitmap(width: int32, height: int32, pixels: seq<bv32>)

  datatype Icon = ResourceIcon(name: string) | BitmapIcon(bitmap: Bitmap)

  /** What the Android framework answers. */
  datatype Platform = Platform(
    sdkAtLeastM: bool,             // Build.VERSION.SDK_INT >= 23
    launcherIconPresent: bool,     // the app has a drawable named ic_launcher
    decodes: seq<bv8> -> bool,     // BitmapFactory.decodeByteArray yields a bitmap
    fileDecodes: string -> bool,   // the path is an existing file that decodeFile reads
    frameworkOk: bool)             // PendingIntent, Notification.Builder and notify() throw nothing

  /** getIconFromBitmap: Icon.createWithBitmap from API 23, null before. */
  function IconFromBitmap(b: Bitmap, p: Platform): Option<Icon>
  {
    if p.sdkAtLeastM then Some(BitmapIcon(b)) else None
  }

  // ---------------------------------------------------------------------------
  // Raw pixels

  /** `(a << 24) | (r << 16) | (g << 8) | b` on Java ints, as its 32-bit pattern; each
      byte enters masked with 0xFF. */
  function Argb(a: bv8, r: bv8, g: bv8, b: bv8): bv32
  {
    ((a as bv32) << 24) | ((r as bv32) << 16) | ((g as bv32) << 8) | (b as bv32)
  }

  /** The byte of a pixel at the given bit offset. */
  function Channel(pixel: bv32, shift: nat): bv8
    requires shift <= 24
  {
    ((pixel >> shift) & 0xFF) as bv8
  }

  /** Packing keeps every channel: alpha, red, green and blue read back unchanged. */
  lemma ArgbChannels(a: bv8, r: bv8, g: bv8, b: bv8)
    ensures Channel(Argb(a, r, g, b), 24) == a
    ensures Channel(Argb(a, r, g, b), 16) == r
    ensures Channel(Argb(a, r, g, b), 8) == g
    ensures Channel(Argb(a, r, g, b), 0) == b
  {
  }

  /** RGBA bytes, four per pixel, as ARGB ints. */
  function RgbaPixels(data: seq<bv8>, n: nat): (pixels: seq<bv32>)
    requires |data| == 4 * n
    ensures |pixels| == n
  {
    seq(n, i requires 0 <= i < n => Argb(data[4 * i + 3], data[4 * i], data[4 * i + 1], data[4 * i + 2]))
  }

  /** RGB bytes, three per pixel, as opaque ARGB ints. */
  function RgbPixels(data: seq<bv8>, n: nat): (pixels: seq<bv32>)
    requires |data| == 3 * n
    ensures |pixels| == n
  {
    seq(n, i requires 0 <= i < n => Argb(0xFF, data[3 * i], data[3 * i + 1], data[3 * i + 2]))
  }

  /** The size test `iconData.length == width * height * expectedChannels` as written:
      the product is computed in 32-bit int arithmetic and can wrap. */
  function RawSizeMatchesAsWritten(length: int, width: int32, height: int32, channels: int32): bool
  {
    length == WrapInt32(WrapInt32(width * height) * channels)
  }

  /** The size test as intended: the exact number of bytes the pixels need. */
  function RawSizeMatches(length: int, width: int32, height: int32, channels: int32): bool
  {
    length == width * height * channels
  }

  /** The wrapped test lets through byte arrays that do not fit the dimensions. For a
      32768 x 32769 RGBA image it admits 131072 bytes, while the loop goes on to index
      bytes far past them (Java stops it there with ArrayIndexOutOfBoundsException).
      For 65536 x 65537 RGBA it admits 262144 bytes; `width * height` then wraps to
      65536, so the loop stays inside the array but fills only 65536 pixels for an
      image of 65536 x 65537. */
  lemma RawSizeCheckOverflow()
    ensures RawSizeMatchesAsWritten(131072, 32768, 32769, 4) && !RawSizeMatches(131072, 32768, 32769, 4)
    ensures 4 * (32768 * 32769 - 1) + 3 >= 131072
    ensures RawSizeMatchesAsWritten(262144, 65536, 65537, 4) && !RawSizeMatches(262144, 65536, 65537, 4)
    ensures WrapInt32(65536 * 65537) == 65536 && 4 * WrapInt32(65536 * 65537) == 262144
  {
  }

  /** The two tests disagree only for images whose exact byte count does not fit in an
      int, and then the array, whose length is an int, is shorter than the image needs. */
  lemma RawSizeTestsDifferOnlyBeyondInt(length: int, width: int32, height: int32, channels: int32)
    requires 0 <= length <= INT32_MAX
    requires width > 0 && height > 0 && channels > 0
    ensures RawSizeMatchesAsWritten(length, width, height, channels) != RawSizeMatches(length, width, height, channels) ==>
              INT32_MAX < width * height * channels && length < width * height * channels
  {
    var n := (width as int) * (height as int);
    MulMonotone(n, 1, channels as int);
    if n * channels <= INT32_MAX {
      assert WrapInt32(n) == n;
      assert WrapInt32(n * channels) == n * channels;
    }
  }

  /** Once the raw path yields an icon, the channel count is 3 or 4, the bitmap has
      exactly width*height pixels, and every byte the pixel loops read (ch*i up to
      ch*i+ch-1 for pixel i) lies inside the array. */
  lemma RawReadsInBounds(data: seq<bv8>, w: int32, h: int32, channels: Option<int32>, p: Platform, i: int)
    requires RawIcon(data, Some(w), Some(h), channels, p).Some?
    requires 0 <= i < w * h
    ensures var icon := RawIcon(data, Some(w), Some(h), channels, p).value;
            icon.BitmapIcon? && icon.bitmap.PixelBitmap? && |icon.bitmap.pixels| == w * h
    ensures var ch := ChannelCount(channels);
            (ch == 3 || ch == 4) && 0 <= ch * i && ch * i + ch <= |data|
  {
    var ch := ChannelCount(channels);
    assert RawSizeMatches(|data|, w, h, ch);
    assert ch * i + ch == ch * (i + 1);
    MulMonotone(ch as int, i + 1, w * h);
    assert ch * (w * h) == w * h * ch;
  }

  lemma MulMonotone(c: nat, x: int, y: int)
    requires x <= y
    ensures c * x <= c * y
  {
  }

  /** The number of channels used: the given count when positive, else 4 (RGBA). */
  function ChannelCount(channels: Option<int32>): int32
  {
    if channels.Some? && channels.value > 0 then channels.value else 4
  }

  /** The raw-pixel fallback, reached when the bytes do not decode as an image. */
  function RawIcon(data: seq<bv8>, width: Option<int32>, height: Option<int32>, channels: Option<int32>,
                   p: Platform): Option<Icon>
  {
    if width.None? || height.None? || width.value <= 0 || height.value <= 0 then None
    else
      var w := width.value;
      var h := height.value;
      var ch := ChannelCount(channels);
      if !RawSizeMatches(|data|, w, h, ch) then None
      else if ch == 4 then IconFromBitmap(PixelBitmap(w, h, RgbaPixels(data, w * h)), p)
      else if ch == 3 then IconFromBitmap(PixelBitmap(w, h, RgbPixels(data, w * h)), p)
      else None
  }

  /** getIconFromData: a map whose "data" entry is a non-empty byte array, decoded as an
      encoded image when possible and otherwise read as raw pixels; null otherwise. */
  function IconFromData(obj: JValue, p: Platform): Option<Icon>
  {
    match obj
    case JMap(m) =>
      var data := MapGet(m, "data");
      if !data.JBytes? || |data.bytes| == 0 then None
      else if p.decodes(data.bytes) then IconFromBitmap(EncodedBitmap(data.bytes), p)
      else RawIcon(data.bytes, IntValue(MapGet(m, "width")), IntValue(MapGet(m, "height")),
                   IntValue(MapGet(m, "channels")), p)
    case _ => None
  }

  /** Anything but a map with a non-empty byte array under "data" gives no icon. */
  lemma IconFromDataRejects(obj: JValue, p: Platform)
    requires !obj.JMap? || !MapGet(obj.m, "data").JBytes? || |MapGet(obj.m, "data").bytes| == 0
    ensures IconFromData(obj, p).None?
  {
  }

  /** Bytes that decode as an image are never read as raw pixels. */
  lemma EncodedImageWins(m: map<string, JValue>, p: Platform)
    requires MapGet(m, "data").JBytes? && |MapGet(m, "data").bytes| > 0
    requires p.decodes(MapGet(m, "data").bytes)
    ensures IconFromData(JMap(m), p) == IconFromBitmap(EncodedBitmap(MapGet(m, "data").bytes), p)
  {
  }

  /** A raw RGBA icon: w*h pixels, pixel i built from bytes 4i..4i+3 with alpha on top. */
  lemma {:induction false} RawRgbaIcon(m: map<string, JValue>, p: Platform, w: int32, h: int32, i: int)
    requires MapGet(m, "data").JBytes? && |MapGet(m, "data").bytes| > 0
    requires !p.decodes(MapGet(m, "data").bytes) && p.sdkAtLeastM
    requires IntValue(MapGet(m, "width")) == Some(w) && IntValue(MapGet(m, "height")) == Some(h)
    requires w > 0 && h > 0 && ChannelCount(IntValue(MapGet(m, "channels"))) == 4
    requires |MapGet(m, "data").bytes| == w * h * 4
    requires 0 <= i < w * h
    ensures var icon := IconFromData(JMap(m), p);
            var data := MapGet(m, "data").bytes;
            icon.Some? && icon.value.BitmapIcon? && icon.value.bitmap.PixelBitmap? &&
            |icon.value.bitmap.pixels| == w * h &&
            Channel(icon.value.bitmap.pixels[i], 24) == data[4 * i + 3] &&
            Channel(icon.value.bitmap.pixels[i], 16) == data[4 * i] &&
            Channel(icon.value.bitmap.pixels[i], 8) == data[4 * i + 1] &&
            Channel(icon.value.bitmap.pixels[i], 0) == data[4 * i + 2]
  {
    var data := MapGet(m, "data").bytes;
    var pixels := RgbaPixels(data, w * h);
    assert IconFromData(JMap(m), p) == Some(BitmapIcon(PixelBitmap(w, h, pixels)));
    ArgbChannels(data[4 * i + 3], data[4 * i], data[4 * i + 1], data[4 * i + 2]);
  }

  /** A raw RGB icon: pixel i built from bytes 3i..3i+2 and is fully opaque. */
  lemma {:induction false} RawRgbIcon(m: map<string, JValue>, p: Platform, w: int32, h: int32, i: int)
    requires MapGet(m, "data").JBytes? && |MapGet(m, "data").bytes| > 0
    requires !p.decodes(MapGet(m, "data").bytes) && p.sdkAtLeastM
    requires IntValue(MapGet(m, "width")) == Some(w) && IntValue(MapGet(m, "height")) == Some(h)
    requires w > 0 && h > 0 && IntValue(MapGet(m, "channels")) == Some(3)
    requires |MapGet(m, "data").bytes| == w * h * 3
    requires 0 <= i < w * h
    ensures var icon := IconFromData(JMap(m), p);
            var data := MapGet(m, "data").bytes;
            icon.Some? && icon.value.BitmapIcon? && icon.value.bitmap.PixelBitmap? &&
            |icon.value.bitmap.pixels| == w * h &&
            Channel(icon.value.bitmap.pixels[i], 24) == 0xFF &&
            Channel(icon.value.bitmap.pixels[i], 16) == data[3 * i] &&
            Channel(icon.value.bitmap.pixels[i], 8) == data[3 * i + 1] &&
            Channel(icon.value.bitmap.pixels[i], 0) == data[3 * i + 2]
  {
    var data := MapGet(m, "data").bytes;
    var pixels := RgbPixels(data, w * h);
    assert IconFromData(JMap(m), p) == Some(BitmapIcon(PixelBitmap(w, h, pixels)));
    ArgbChannels(0xFF, data[3 * i], data[3 * i + 1], data[3 * i + 2]);
  }

  /** A byte count that is not exactly width*height*channels gives no icon, and so
      does a channel count other than 3 or 4. */
  lemma RawIconRejects(data: seq<bv8>, w: int32, h: int32, channels: Option<int32>, p: Platform)
    requires !RawSizeMatches(|data|, w, h, ChannelCount(channels)) ||
             (ChannelCount(channels) != 3 && ChannelCount(channels) != 4)
    ensures RawIcon(data, Some(w), Some(h), channels, p).None?
  {
  }

  /** Fills a fresh int array with the ARGB form of RGBA bytes. */
  method PackRgba(data: seq<bv8>, n: nat) returns (pixels: array<bv32>)
    requires |data| == 4 * n
    ensures fresh(pixels) && pixels[..] == RgbaPixels(data, n)
  {
    pixels := new bv32[n];
    var i := 0;
    while i < n
      invariant 0 <= i <= n
      invariant forall k :: 0 <= k < i ==> pixels[k] == RgbaPixels(data, n)[k]
    {
      pixels[i] := Argb(data[4 * i + 3], data[4 * i], data[4 * i + 1], data[4 * i + 2]);
      i := i + 1;
    }
  }

  /** Fills a fresh int array with the opaque ARGB form of RGB bytes. */
  method PackRgb(data: seq<bv8>, n: nat) returns (pixels: array<bv32>)
    requires |data| == 3 * n
    ensures fresh(pixels) && pixels[..] == RgbPixels(data, n)
  {
    pixels := new bv32[n];
    var i := 0;
    while i < n
      invariant 0 <= i <= n
      invariant forall k :: 0 <= k < i ==> pixels[k] == RgbPixels(data, n)[k]
    {
      pixels[i] := Argb(0xFF, data[3 * i], data[3 * i + 1], data[3 * i + 2]);
      i := i + 1;
    }
  }

  /** getIconFromData as a sequence of steps: decode first, then pack raw pixels into a
      fresh int array. The size test is the exact one, not the
      wrapping int product the Java code compares; RawSizeTestsDifferOnlyBeyondInt
      says where the two differ. */
  method GetIconFromData(obj: JValue, p: Platform) returns (icon: Option<Icon>)
    ensures icon == IconFromData(obj, p)
  {
    if !obj.JMap? {
      return None;
    }
    var m := obj.m;
    var dataObj := MapGet(m, "data");
    if !dataObj.JBytes? || |dataObj.bytes| == 0 {
      return None;
    }
    var iconData := dataObj.bytes;
    var width := IntValue(MapGet(m, "width"));
    var height := IntValue(MapGet(m, "height"));
    var channels := IntValue(MapGet(m, "channels"));
    if p.decodes(iconData) {
      return IconFromBitmap(EncodedBitmap(iconData), p);
    }
    icon := None;
    if width.Some? && height.Some? && width.value > 0 && height.value > 0 {
      var w, h := width.value, height.value;
      var expectedChannels := if channels.Some? && channels.value > 0 then channels.value else 4;
      if |iconData| == (w as int) * (h as int) * (expectedChannels as int) {
        if expectedChannels == 4 {
          var pixels := PackRgba(iconData, (w as int) * (h as int));
          icon := IconFromBitmap(PixelBitmap(w, h, pixels[..]), p);
        } else if expectedChannels == 3 {
          var pixels := PackRgb(iconData, (w as int) * (h as int));
          icon := IconFromBitmap(PixelBitmap(w, h, pixels[..]), p);
        }
      }
    }
  }

  // ---------------------------------------------------------------------------
  // Pending intents and action buttons

  datatype PendingIntent = PendingIntent(requestCode: int32, intent: Intent)

  /** A button added with builder.addAction: its title and its pending intent. */
  datatype ActionButton = ActionButton(title: string, pending: PendingIntent)

  /** The request code of the dismiss intent: the id itself. */
  function DismissRequestCode(id: int32): int32
  {
    id
  }

  /** The request code of the content intent: id + 10000 in int arithmetic. */
  function ContentRequestCode(id: int32): (code: int32)
    ensures code != DismissRequestCode(id)
    ensures id <= INT32_MAX - 10000 ==> code == id + 10000
  {
    WrapInt32(id + 10000)
  }

  /** The request code of the action at `index`: id * 1000 + index in int arithmetic,
      wrapped after the product and again after the sum. */
  function ActionRequestCode(id: int32, index: nat): (code: int32)
    ensures (code - (id * 1000 + index)) % UINT32_MODULUS == 0
    ensures 0 <= id * 1000 && id * 1000 + index <= INT32_MAX ==> code == id * 1000 + index
  {
    WrapInt32Absorbs(id * 1000, index);
    WrapInt32(WrapInt32(id * 1000) + index)
  }

  /** While id * 1000 + 999 fits an int, the action request codes of different
      notifications, or of different actions of one notification, never coincide as long
      as each notification has at most 1000 actions. */
  lemma {:induction false} ActionRequestCodesDistinct(id1: int32, i1: nat, id2: int32, i2: nat)
    requires 0 <= id1 && 0 <= id2
    requires id1 * 1000 + 999 <= INT32_MAX && id2 * 1000 + 999 <= INT32_MAX
    requires i1 < 1000 && i2 < 1000
    requires id1 != id2 || i1 != i2
    ensures ActionRequestCode(id1, i1) != ActionRequestCode(id2, i2)
  {
    WrapInt32Absorbs(id1 * 1000, i1);
    WrapInt32Absorbs(id2 * 1000, i2);
    if id1 < id2 {
      assert id1 * 1000 + 1000 <= id2 * 1000 by { MulMonotone(1000, id1 + 1, id2); }
    } else if id2 < id1 {
      assert id2 * 1000 + 1000 <= id1 * 1000 by { MulMonotone(1000, id2 + 1, id1); }
    }
  }

  /** Past 1000 actions the codes collide with the next notification's. */
  lemma ActionRequestCodeCollision()
    ensures ActionRequestCode(1, 1000) == ActionRequestCode(2, 0)
  {
  }

  function NotificationIntent(action: string, id: int32): Intent
  {
    Intent(Some(action), map["notification_id" := IntExtra(id)])
  }

  function DismissIntent(id: int32): PendingIntent
  {
    PendingIntent(DismissRequestCode(id), NotificationIntent(ACTION_NOTIFICATION_CLOSED, id))
  }

  function ContentIntent(id: int32): PendingIntent
  {
    PendingIntent(ContentRequestCode(id), NotificationIntent(ACTION_NOTIFICATION_CLICKED, id))
  }

  function ActionIntent(id: int32, key: string): Intent
  {
    Intent(Some(ACTION_NOTIFICATION), map["notification_id" := IntExtra(id), "action_key" := StringExtra(key)])
  }

  /** One button per entry, in the map's iteration order: the value is its title, the
      key travels in its intent. */
  function ActionButtons(id: int32, entries: seq<(string, string)>): (buttons: seq<ActionButton>)
    ensures |buttons| == |entries|
  {
    seq(|entries|, i requires 0 <= i < |entries| =>
      ActionButton(entries[i].1, PendingIntent(ActionRequestCode(id, i), ActionIntent(id, entries[i].0))))
  }

  /** A null map has no entries. */
  function EntriesOf(actions: Option<seq<(string, string)>>): seq<(string, string)>
  {
    if actions.Some? then actions.value else []
  }

  /** The action loop of sendNotification, with its running actionIndex. */
  method BuildActionButtons(id: int32, actions: Option<seq<(string, string)>>)
    returns (buttons: seq<ActionButton>)
    ensures buttons == ActionButtons(id, EntriesOf(actions))
  {
    buttons := [];
    if actions.Some? && |actions.value| != 0 {
      var entries := actions.value;
      var actionIndex := 0;
      while actionIndex < |entries|
        invariant 0 <= actionIndex <= |entries|
        invariant buttons == ActionButtons(id, entries)[..actionIndex]
      {
        var entry := entries[actionIndex];
        var pending := PendingIntent(WrapInt32(WrapInt32(id * 1000) + actionIndex), ActionIntent(id, entry.0));
        buttons := buttons + [ActionButton(entry.1, pending)];
        actionIndex := actionIndex + 1;
      }
    }
  }

  /** The intents of a posted notification reach the receiver as: dismissal reports a
      close with the id, action button i reports its key with the id, and a click on
      the notification body reports nothing, since the receiver does not handle the
      content intent's action. */
  lemma {:induction false} IntentsDispatch(id: int32, entries: seq<(string, string)>, i: nat)
    requires i < |entries|
    ensures OnReceive(DismissIntent(id).intent) == Some(NotifyNotificationClosed(id))
    ensures OnReceive(ActionButtons(id, entries)[i].pending.intent) == Some(NotifyActionInvoked(id, entries[i].0))
    ensures OnReceive(ContentIntent(id).intent).None?
  {
    var action := ActionIntent(id, entries[i].0);
    assert "notification_id" != "action_key";
    assert GetIntExtra(action, "notification_id", 0) == id;
    assert GetStringExtra(action, "action_key") == Some(entries[i].0);
    assert ACTION_NOTIFICATION_CLICKED != ACTION_NOTIFICATION_CLOSED by {
      assert ACTION_NOTIFICATION_CLICKED[61] != ACTION_NOTIFICATION_CLOSED[61];
    }
    assert ACTION_NOTIFICATION_CLICKED != ACTION_NOTIFICATION;
  }

  // ---------------------------------------------------------------------------
  // Icons

  /** The small icon set first: ic_launcher when the app has one, else ic_dialog_info. */
  function DefaultSmallIcon(p: Platform): Icon
  {
    ResourceIcon(if p.launcherIconPresent then "ic_launcher" else "android.R.drawable.ic_dialog_info")
  }

  /** The icon built from a data parameter, when the key is present. */
  function DataIcon(params: map<string, JValue>, key: string, p: Platform): Option<Icon>
  {
    if key in params then IconFromData(params[key], p) else None
  }

  /** `(String) parameters.get(key)` throws: the value is neither a string nor null. */
  predicate PathCastFails(params: map<string, JValue>, key: string)
  {
    key in params && !params[key].JString? && !params[key].JNull?
  }

  /** The icon getIconFromPath loads for a path parameter, when the key is present. */
  function PathIcon(params: map<string, JValue>, key: string, p: Platform): Option<Icon>
  {
    if key in params && params[key].JString? && p.fileDecodes(params[key].s)
    then IconFromBitmap(FileBitmap(params[key].s), p)
    else None
  }

  predicate CastFails(parameters: Option<map<string, JValue>>)
  {
    parameters.Some? &&
    (PathCastFails(parameters.value, "smallIconPath") || PathCastFails(parameters.value, "largeIconPath"))
  }

  /** The small icon that wins: a loaded path icon, else a loaded data icon, else the
      default one. */
  function SmallIcon(parameters: Option<map<string, JValue>>, p: Platform): Icon
  {
    if parameters.None? then DefaultSmallIcon(p)
    else if PathIcon(parameters.value, "smallIconPath", p).Some? then PathIcon(parameters.value, "smallIconPath", p).value
    else if DataIcon(parameters.value, "smallIconData", p).Some? then DataIcon(parameters.value, "smallIconData", p).value
    else DefaultSmallIcon(p)
  }

  /** The large icon that wins: a loaded path icon, else a loaded data icon, else none. */
  function LargeIcon(parameters: Option<map<string, JValue>>, p: Platform): Option<Icon>
  {
    if parameters.None? then None
    else if PathIcon(parameters.value, "largeIconPath", p).Some? then PathIcon(parameters.value, "largeIconPath", p)
    else DataIcon(parameters.value, "largeIconData", p)
  }

  /** The icon statements of sendNotification in their order: each successful load
      replaces what was set before, a failed one leaves it. */
  method ChooseIcons(parameters: Option<map<string, JValue>>, p: Platform)
    returns (small: Icon, large: Option<Icon>, castFailed: bool)
    ensures castFailed <==> CastFails(parameters)
    ensures !castFailed ==> small == SmallIcon(parameters, p) && large == LargeIcon(parameters, p)
  {
    small := DefaultSmallIcon(p);
    large := None;
    castFailed := false;
    if parameters.Some? {
      var params := parameters.value;
      if "smallIconData" in params {
        var iconObj := GetIconFromData(params["smallIconData"], p);
        if iconObj.Some? {
          small := iconObj.value;
        }
      }
      if "smallIconPath" in params {
        if PathCastFails(params, "smallIconPath") {
          return small, large, true;
        }
        var iconObj := PathIcon(params, "smallIconPath", p);
        if iconObj.Some? {
          small := iconObj.value;
        }
      }
      if "largeIconData" in params {
        var iconObj := GetIconFromData(params["largeIconData"], p);
        if iconObj.Some? {
          large := iconObj;
        }
      }
      if "largeIconPath" in params {
        if PathCastFails(params, "largeIconPath") {
          return small, large, true;
        }
        var iconObj := PathIcon(params, "largeIconPath", p);
        if iconObj.Some? {
          large := iconObj;
        }
      }
    }
  }

  // ---------------------------------------------------------------------------
  // Sending

  /** The notification handed to NotificationManager.notify. */
  datatype PostedNotification = PostedNotification(
    id: int32, title: string, text: string, autoCancel: bool,
    deleteIntent: PendingIntent, contentIntent: PendingIntent,
    smallIcon: Icon, largeIcon: Option<Icon>, actions: seq<ActionButton>)

  function ExpectedNotification(id: int32, title: string, text: string,
                                parameters: Option<map<string, JValue>>,
                                actions: Option<seq<(string, string)>>, p: Platform): PostedNotification
  {
    PostedNotification(id, title, text, true, DismissIntent(id), ContentIntent(id),
                       SmallIcon(parameters, p), LargeIcon(parameters, p), ActionButtons(id, EntriesOf(actions)))
  }

  /** A send succeeds when the framework throws nothing and both icon paths, if given,
      are strings or null. */
  predicate SendSucceeds(parameters: Option<map<string, JValue>>, p: Platform)
  {
    p.frameworkOk && !CastFails(parameters)
  }

  /** Incrementing and then subtracting one in int arithmetic gives back the value
      started from, across the wrap at 2^31 - 1 too. */
  lemma IncrementThenDecrement(n: int32)
    ensures WrapInt32(WrapInt32(n + 1) - 1) == n
  {
    if n == INT32_MAX {
      assert WrapInt32(n + 1) == INT32_MIN;
    }
  }

  class QtNotifications {
    /** mNotificationId: the id the next successful send uses. */
    var notificationId: int32

    constructor ()
      ensures notificationId == 1
    {
      notificationId := 1;
    }

    /** Posts one notification. On success the id used is returned and the counter
        advances by one; on any exception 0 is returned, nothing is posted and the
        counter is left alone. */
    method SendNotification(title: string, text: string, parameters: Option<map<string, JValue>>,
                            actions: Option<seq<(string, string)>>, p: Platform)
      returns (result: int32, posted: Option<PostedNotification>)
      modifies this
      ensures SendSucceeds(parameters, p) ==>
                result == old(notificationId) &&
                notificationId == WrapInt32(old(notificationId) + 1) &&
                posted == Some(ExpectedNotification(old(notificationId), title, text, parameters, actions, p))
      ensures !SendSucceeds(parameters, p) ==>
                result == 0 && notificationId == old(notificationId) && posted.None?
    {
      if !p.frameworkOk {
        return 0, None;
      }
      var small, large, castFailed := ChooseIcons(parameters, p);
      if castFailed {
        return 0, None;
      }
      var buttons := BuildActionButtons(notificationId, actions);
      posted := Some(PostedNotification(notificationId, title, text, true,
                                        DismissIntent(notificationId), ContentIntent(notificationId),
                                        small, large, buttons));
      IncrementThenDecrement(notificationId);
      notificationId := WrapInt32(notificationId + 1);
      result := WrapInt32(notificationId - 1);
    }
  }
}
