/** The Windows toast engine: the application identity, the OS version gate, the toast
    payload (built by plain string concatenation, nothing escaped), the id bookkeeping
    of a send, and the classification of the toast's Activated and Dismissed events.
    WinRT itself (LoadXml, ToastNotifier::Show), COM and the registry are oracles. */
module WindowsToast {
  import opened QtTypes

  // ---------------------------------------------------------------------------
  // Application identity (AppUserModelID)

  /** The characters the regular expression `[^A-Za-z0-9.-]` leaves alone. */
  predicate IsKeptChar(c: char)
  {
    ('A' <= c <= 'Z') || ('a' <= c <= 'z') || ('0' <= c <= '9') || c == '.' || c == '-'
  }

  /** Replaces every character outside `[A-Za-z0-9.-]` by `_`. */
  function Sanitize(s: string): (r: string)
    ensures |r| == |s|
    ensures forall i :: 0 <= i < |s| ==> r[i] == (if IsKeptChar(s[i]) then s[i] else '_')
  {
    seq(|s|, i requires 0 <= i < |s| => if IsKeptChar(s[i]) then s[i] else '_')
  }

  /** Text an identity may hold: kept characters and the replacement `_`. */
  predicate IsIdentityText(s: string)
  {
    forall i :: 0 <= i < |s| ==> IsKeptChar(s[i]) || s[i] == '_'
  }

  /** Every character of a sanitised string is a kept one or `_`. */
  lemma SanitizeOutput(s: string)
    ensures IsIdentityText(Sanitize(s))
  {
  }

  lemma IdentityTextConcat(a: string, b: string)
    requires IsIdentityText(a) && IsIdentityText(b)
    ensures IsIdentityText(a + b)
  {
  }

  /** Sanitising twice is sanitising once. */
  lemma SanitizeIdempotent(s: string)
    ensures Sanitize(Sanitize(s)) == Sanitize(s)
  {
    var r := Sanitize(s);
    forall i | 0 <= i < |r|
      ensures Sanitize(r)[i] == r[i]
    {
      if !IsKeptChar(s[i]) {
        assert r[i] == '_' && !IsKeptChar('_');
      }
    }
  }

  /** A string made only of kept characters is its own sanitisation. */
  lemma SanitizeFixesKept(s: string)
    requires forall i :: 0 <= i < |s| ==> IsKeptChar(s[i])
    ensures Sanitize(s) == s
  {
  }

  /** qApp's organisation domain and application name, when a QCoreApplication exists. */
  datatype AppInfo = AppInfo(organizationDomain: string, applicationName: string)

  /** The organisation domain and application name the constructor starts from. */
  function IdentityParts(app: Option<AppInfo>): (string, string)
  {
    if app.Some? then (app.value.organizationDomain, app.value.applicationName)
    else ("qt", "QtNotifications")
  }

  /** The identity the constructor composes: sanitised organisation, a dot, sanitised
      application name. */
  function AppUserModelId(app: Option<AppInfo>): (id: string)
    ensures IsIdentityText(id)
    ensures |id| == |IdentityParts(app).0| + 1 + |IdentityParts(app).1|
    ensures id[|IdentityParts(app).0|] == '.'
  {
    var org := Sanitize(IdentityParts(app).0);
    var name := Sanitize(IdentityParts(app).1);
    SanitizeOutput(IdentityParts(app).0);
    SanitizeOutput(IdentityParts(app).1);
    IdentityTextConcat(org, ".");
    IdentityTextConcat(org + ".", name);
    org + "." + name
  }

  /** Without an application object the identity is "qt.QtNotifications". */
  lemma DefaultAppUserModelId()
    ensures AppUserModelId(None) == "qt" + "." + "QtNotifications"
  {
    SanitizeFixesKept("qt");
    SanitizeFixesKept("QtNotifications");
  }

  // ---------------------------------------------------------------------------
  // Version gate

  /** What isSupported observes: whether ntdll.dll is loaded, and, when RtlGetVersion
      could be resolved, the major version it reports. */
  datatype VersionProbe = VersionProbe(ntdllLoaded: bool, rtlGetVersion: Option<uint32>)

  /** dwMajorVersion after the probe; the structure starts zeroed. */
  function ReportedMajorVersion(p: VersionProbe): uint32
  {
    if p.ntdllLoaded && p.rtlGetVersion.Some? then p.rtlGetVersion.value else 0
  }

  /** Toasts are supported exactly on Windows 10 or later, and never when the version
      could not be read. */
  function IsSupported(p: VersionProbe): (r: bool)
    ensures r <==> p.ntdllLoaded && p.rtlGetVersion.Some? && p.rtlGetVersion.value >= 10
  {
    ReportedMajorVersion(p) >= 10
  }

  // ---------------------------------------------------------------------------
  // Image placement

  /** Qt::CaseInsensitive comparison of one character, folded to lower case. */
  function FoldCase(c: char): char
  {
    if 'A' <= c <= 'Z' then (c - 'A' + 'a') as char else c
  }

  /** The word `w` occurs in `s` at offset `j`, both sides folded to lower case. */
  predicate OccursAt(s: string, w: string, j: int)
  {
    0 <= j && j + |w| <= |s| && forall k :: 0 <= k < |w| ==> FoldCase(s[j + k]) == FoldCase(w[k])
  }

  ghost predicate Mentions(s: string, w: string)
  {
    exists j :: OccursAt(s, w, j)
  }

  /** QString::contains(w, Qt::CaseInsensitive), searching from offset `from`. */
  function ContainsFrom(s: string, w: string, from: nat): (r: bool)
    ensures r <==> exists j :: from <= j && OccursAt(s, w, j)
    decreases |s| - from
  {
    if from + |w| > |s| then false
    else OccursAt(s, w, from) || ContainsFrom(s, w, from + 1)
  }

  function ContainsIgnoringCase(s: string, w: string): (r: bool)
    ensures r <==> Mentions(s, w)
  {
    ContainsFrom(s, w, 0)
  }

  datatype Placement = AppLogoOverride | Hero | Inline

  function PlacementName(p: Placement): string
  {
    match p
    case AppLogoOverride => "appLogoOverride"
    case Hero => "hero"
    case Inline => "inline"
  }

  /** No image for an empty icon path; otherwise "hero" when the path mentions hero in
      any case, else "inline" when it mentions inline, else "appLogoOverride". */
  function ChoosePlacement(icon: string): (p: Option<Placement>)
    ensures p.None? <==> icon == ""
    ensures p == Some(Hero) <==> icon != "" && Mentions(icon, "hero")
    ensures p == Some(Inline) <==> icon != "" && !Mentions(icon, "hero") && Mentions(icon, "inline")
    ensures p == Some(AppLogoOverride) <==> icon != "" && !Mentions(icon, "hero") && !Mentions(icon, "inline")
  {
    if icon == "" then None
    else if ContainsIgnoringCase(icon, "hero") then Some(Hero)
    else if ContainsIgnoringCase(icon, "inline") then Some(Inline)
    else Some(AppLogoOverride)
  }

  /** A path that names both words is shown as hero. */
  lemma HeroWinsOverInline(icon: string, i: nat, j: nat)
    requires OccursAt(icon, "hero", i) && OccursAt(icon, "inline", j)
    ensures ChoosePlacement(icon) == Some(Hero)
  {
    assert |icon| >= 4;
  }

  // ---------------------------------------------------------------------------
  // Toast payload

  const TOAST_OPEN: string := "<toast><visual><binding template=\"ToastGeneric\">"
  const TOAST_CLOSE: string := "</toast>"
  const ACTION_OPEN: string := "<action content=\""
  const ARGUMENTS_OPEN: string := " arguments=\""
  const ACTION_CLOSE: string := " activationType=\"foreground\"/>"

  function ImageXml(icon: string): string
  {
    match ChoosePlacement(icon)
    case None => ""
    case Some(p) => "<image placement=\"" + PlacementName(p) + "\" src=\"" + icon + "\"/>"
  }

  function TextXml(summary: string, body: string): string
  {
    "<text>" + summary + "</text><text>" + body + "</text></binding></visual>"
  }

  /** One action element: the label is its content, the key its arguments. */
  function ActionXml(entry: (string, string)): string
  {
    ACTION_OPEN + entry.1 + "\"" + ARGUMENTS_OPEN + entry.0 + "\"" + ACTION_CLOSE
  }

  /** The action elements of the entries, appended in iteration order. */
  function ActionList(entries: seq<(string, string)>): string
    decreases |entries|
  {
    if entries == [] then ""
    else ActionList(entries[..|entries| - 1]) + ActionXml(entries[|entries| - 1])
  }

  function ActionsXml(actions: QStringMap): string
  {
    if |actions| == 0 then "" else "<actions>" + ActionList(actions) + "</actions>"
  }

  /** The toast document sendNotification hands to LoadXml. */
  function ToastXml(summary: string, body: string, icon: string, actions: QStringMap): string
  {
    TOAST_OPEN + ImageXml(icon) + TextXml(summary, body) + ActionsXml(actions) + TOAST_CLOSE
  }

  /** Appends the image element the icon calls for, if any. */
  method AppendImage(xml: string, icon: string) returns (result: string)
    ensures result == xml + ImageXml(icon)
  {
    result := xml;
    if icon != "" {
      var placement := if ContainsIgnoringCase(icon, "hero") then "hero"
                       else if ContainsIgnoringCase(icon, "inline") then "inline"
                       else "appLogoOverride";
      var image := "<image placement=\"" + placement + "\" src=\"" + icon + "\"/>";
      result := result + image;
    } else {
      assert xml + ImageXml(icon) == xml + "";
      assert xml + "" == xml;
    }
  }

  /** Appends the actions block: nothing for an empty map, otherwise one action element
      per entry between the <actions> tags. */
  method AppendActions(xml: string, actions: QStringMap) returns (result: string)
    ensures result == xml + ActionsXml(actions)
  {
    result := xml;
    if |actions| != 0 {
      result := result + "<actions>";
      var i := 0;
      while i < |actions|
        invariant 0 <= i <= |actions|
        invariant result == xml + "<actions>" + ActionList(actions[..i])
      {
        assert actions[..i + 1][..i] == actions[..i];
        ConcatAssoc(xml + "<actions>", ActionList(actions[..i]), ActionXml(actions[i]));
        result := result + ActionXml(actions[i]);
        i := i + 1;
      }
      assert actions[..i] == actions;
      ConcatAssoc(xml, "<actions>", ActionList(actions));
      ConcatAssoc(xml, "<actions>" + ActionList(actions), "</actions>");
      result := result + "</actions>";
    } else {
      assert xml + ActionsXml(actions) == xml + "";
      assert xml + "" == xml;
    }
  }

  /** Builds the payload as sendNotification does: the fixed prefix, the optional image,
      both texts, then one action element per map entry, then the closing tag. */
  method BuildToastXml(summary: string, body: string, icon: string, actions: QStringMap)
    returns (xml: string)
    ensures xml == ToastXml(summary, body, icon, actions)
  {
    xml := TOAST_OPEN;
    xml := AppendImage(xml, icon);
    xml := xml + TextXml(summary, body);
    xml := AppendActions(xml, actions);
    xml := xml + TOAST_CLOSE;
  }

  lemma EmptyConcat(x: string)
    ensures "" + x == x && x + "" == x
  {
  }

  /** The elements of two runs of entries are the elements of the first followed by
      those of the second. */
  lemma {:induction false} ActionListAppend(a: seq<(string, string)>, b: seq<(string, string)>)
    ensures ActionList(a + b) == ActionList(a) + ActionList(b)
    decreases |b|
  {
    if b == [] {
      assert a + b == a;
      EmptyConcat(ActionList(a));
    } else {
      var init := b[..|b| - 1];
      ActionListAppend(a, init);
      assert (a + b)[..|a + b| - 1] == a + init;
      assert (a + b)[|a + b| - 1] == b[|b| - 1];
      ConcatAssoc(ActionList(a), ActionList(init), ActionXml(b[|b| - 1]));
    }
  }

  lemma ActionListSingle(e: (string, string))
    ensures ActionList([e]) == ActionXml(e)
  {
    assert [e][..0] == [];
    EmptyConcat(ActionXml(e));
  }

  lemma ActionListFront(entries: seq<(string, string)>)
    requires |entries| > 0
    ensures ActionList(entries) == ActionXml(entries[0]) + ActionList(entries[1..])
  {
    assert entries == [entries[0]] + entries[1..];
    ActionListAppend([entries[0]], entries[1..]);
    ActionListSingle(entries[0]);
  }

  /** The action list splits at any entry into what precedes it, that entry's element,
      and what follows it: one element per entry, in order. */
  lemma ActionListSplit(entries: seq<(string, string)>, i: nat)
    requires i < |entries|
    ensures ActionList(entries) == ActionList(entries[..i]) + ActionXml(entries[i]) + ActionList(entries[i + 1..])
  {
    var pre, here, post := entries[..i], entries[i], entries[i + 1..];
    var tail := entries[i..];
    assert entries == pre + tail;
    assert tail[0] == here && tail[1..] == post;
    ActionListAppend(pre, tail);
    ActionListFront(tail);
    ConcatAssoc(ActionList(pre), ActionXml(here), ActionList(post));
  }

  // Reading action elements back, to show that nothing is lost or duplicated.

  predicate StartsWith(s: string, p: string)
  {
    |p| <= |s| && s[..|p|] == p
  }

  /** The text before the first double quote, and what follows that quote. */
  function SplitAtQuote(s: string): (r: Option<(string, string)>)
    ensures r.Some? ==> '"' !in r.value.0 && s == r.value.0 + "\"" + r.value.1
    ensures r.None? ==> '"' !in s
    decreases |s|
  {
    if s == [] then None
    else if s[0] == '"' then Some(([], s[1..]))
    else match SplitAtQuote(s[1..])
      case None => None
      case Some(p) => Some(([s[0]] + p.0, p.1))
  }

  lemma {:induction false} SplitAtQuoteOf(x: string, rest: string)
    requires '"' !in x
    ensures SplitAtQuote(x + "\"" + rest) == Some((x, rest))
    decreases |x|
  {
    var s := x + "\"" + rest;
    if x != [] {
      assert s[0] == x[0];
      assert s[1..] == x[1..] + "\"" + rest;
      SplitAtQuoteOf(x[1..], rest);
      assert [x[0]] + x[1..] == x;
    } else {
      assert s[0] == '"' && s[1..] == rest;
    }
  }

  /** Reads one action element at the front of `s`: its (key, label) pair and the text
      after it. */
  function ParseAction(s: string): (r: Option<((string, string), string)>)
    ensures r.Some? ==> |r.value.1| < |s|
  {
    if !StartsWith(s, ACTION_OPEN) then None
    else match SplitAtQuote(s[|ACTION_OPEN|..])
      case None => None
      case Some(first) =>
        if !StartsWith(first.1, ARGUMENTS_OPEN) then None
        else match SplitAtQuote(first.1[|ARGUMENTS_OPEN|..])
          case None => None
          case Some(second) =>
            if !StartsWith(second.1, ACTION_CLOSE) then None
            else Some(((second.0, first.0), second.1[|ACTION_CLOSE|..]))
  }

  /** Parses consecutive action elements into (key, label) pairs. */
  function ParseActionList(s: string): Option<seq<(string, string)>>
    decreases |s|
  {
    if s == [] then Some([])
    else match ParseAction(s)
      case None => None
      case Some(p) =>
        match ParseActionList(p.1)
        case None => None
        case Some(rest) => Some([p.0] + rest)
  }

  predicate QuoteFree(entries: seq<(string, string)>)
  {
    forall i :: 0 <= i < |entries| ==> '"' !in entries[i].0 && '"' !in entries[i].1
  }

  /** One action element followed by more text, regrouped the way the parser reads it:
      opening, label, quote, then the remainder. */
  lemma ActionXmlRegroup(e: (string, string), rest: string)
    ensures ActionXml(e) + rest ==
            ACTION_OPEN + (e.1 + "\"" + (ARGUMENTS_OPEN + (e.0 + "\"" + (ACTION_CLOSE + rest))))
  {
    var r2 := ACTION_CLOSE + rest;
    var x3 := ACTION_OPEN + e.1 + "\"";
    var x5 := x3 + ARGUMENTS_OPEN + e.0;
    ConcatAssoc(x5 + "\"", ACTION_CLOSE, rest);
    ConcatAssoc(x5, "\"", r2);
    ConcatAssoc(x3 + ARGUMENTS_OPEN, e.0, "\"" + r2);
    ConcatAssoc(e.0, "\"", r2);
    var r1 := ARGUMENTS_OPEN + (e.0 + "\"" + r2);
    ConcatAssoc(x3, ARGUMENTS_OPEN, e.0 + "\"" + r2);
    ConcatAssoc(ACTION_OPEN + e.1, "\"", r1);
    ConcatAssoc(ACTION_OPEN, e.1, "\"" + r1);
    ConcatAssoc(e.1, "\"", r1);
  }

  /** One action element reads back as its (key, label) pair: the label is the content,
      the key the arguments. */
  lemma ParseActionXml(e: (string, string), rest: string)
    requires '"' !in e.0 && '"' !in e.1
    ensures ParseAction(ActionXml(e) + rest) == Some((e, rest))
  {
    var r2 := ACTION_CLOSE + rest;
    var r1 := ARGUMENTS_OPEN + (e.0 + "\"" + r2);
    var s := ACTION_OPEN + (e.1 + "\"" + r1);
    ActionXmlRegroup(e, rest);
    assert s[..|ACTION_OPEN|] == ACTION_OPEN;
    assert s[|ACTION_OPEN|..] == e.1 + "\"" + r1;
    SplitAtQuoteOf(e.1, r1);
    assert r1[..|ARGUMENTS_OPEN|] == ARGUMENTS_OPEN;
    assert r1[|ARGUMENTS_OPEN|..] == e.0 + "\"" + r2;
    SplitAtQuoteOf(e.0, r2);
    assert r2[..|ACTION_CLOSE|] == ACTION_CLOSE;
    assert r2[|ACTION_CLOSE|..] == rest;
  }

  /** Round trip: when no key or label holds a double quote, the action elements read
      back as exactly the map's entries, in key order. */
  lemma {:induction false} ParseActionListRoundTrip(entries: seq<(string, string)>)
    requires QuoteFree(entries)
    ensures ParseActionList(ActionList(entries)) == Some(entries)
    decreases |entries|
  {
    if entries != [] {
      ActionListFront(entries);
      assert QuoteFree(entries[1..]) by {
        forall i | 0 <= i < |entries| - 1 ensures '"' !in entries[1..][i].0 && '"' !in entries[1..][i].1 {
          assert entries[1..][i] == entries[i + 1];
        }
      }
      ParseActionListRoundTrip(entries[1..]);
      assert '"' !in entries[0].0 && '"' !in entries[0].1;
      ParseActionXml(entries[0], ActionList(entries[1..]));
      assert ActionList(entries) != [];
      assert [entries[0]] + entries[1..] == entries;
    }
  }

  // ---------------------------------------------------------------------------
  // Activation and dismissal

  /** What Activated delivers: ToastActivatedEventArgs with its argument string, or an
      object of another type (try_as yields null). */
  datatype ActivationArgs = ToastActivatedEventArgs(arguments: string) | OtherInspectable

  /** ToastDismissalReason, with room for values outside the three it names. */
  datatype ToastDismissalReason = UserCanceled | ApplicationHidden | TimedOut | OtherReason(value: int)

  /** The close reason a dismissal is reported with. */
  function DismissalToReason(r: ToastDismissalReason): (c: ClosedReason)
    ensures r == ApplicationHidden ==> c == Closed
    ensures r == TimedOut ==> c == Expired
    ensures r == UserCanceled ==> c == Dismissed
    ensures c == Undefined <==> r.OtherReason?
  {
    match r
    case ApplicationHidden => Closed
    case TimedOut => Expired
    case UserCanceled => Dismissed
    case OtherReason(_) => Undefined
  }

  /** The three named dismissal reasons are told apart. */
  lemma DismissalReasonsDistinct(a: ToastDismissalReason, b: ToastDismissalReason)
    requires !a.OtherReason? && !b.OtherReason? && a != b
    ensures DismissalToReason(a) != DismissalToReason(b)
  {
  }

  /** The key onToastActivated works with: "default" when the arguments are of another type. */
  function ActivationKey(args: ActivationArgs): string
  {
    if args.ToastActivatedEventArgs? then args.arguments else "default"
  }

  /** The toast engine. `notificationCounter` is the function-static s_notificationId of
      sendNotification; the engine is a process-wide singleton, so it lives here. */
  class WindowsEngine {
    const appUserModelId: string
    var notificationCounter: uint32
    var lastNotificationId: uint32

    constructor (app: Option<AppInfo>)
      ensures appUserModelId == AppUserModelId(app)
      ensures notificationCounter == 1 && lastNotificationId == 0
    {
      notificationCounter := 1;
      lastNotificationId := 0;
      appUserModelId := AppUserModelId(app);
    }

    /** Sends one toast. `loadXml` says whether LoadXml and the ToastNotification
        construction accept a payload; `shown` whether CreateToastNotifier and Show
        succeed. The type argument is ignored. */
    method SendNotification(summary: string, body: string, icon: string, actions: QStringMap,
                            notificationType: int, loadXml: string -> bool, shown: bool)
      returns (ok: bool)
      modifies this
      ensures notificationCounter == WrapUint32(old(notificationCounter) + 1)
      ensures lastNotificationId ==
              if loadXml(ToastXml(summary, body, icon, actions)) then old(notificationCounter)
              else old(lastNotificationId)
      ensures ok <==> loadXml(ToastXml(summary, body, icon, actions)) && shown
    {
      var notificationId := notificationCounter;
      notificationCounter := WrapUint32(notificationCounter + 1);
      var xml := BuildToastXml(summary, body, icon, actions);
      if !loadXml(xml) {
        return false;
      }
      lastNotificationId := notificationId;
      ok := shown;
    }

    /** An activation is a click when its key is empty or "default", an action
        otherwise; either way the toast is then reported closed. Every event carries
        the id of the last toast built. */
    function OnToastActivated(args: ActivationArgs): (events: seq<EngineEvent>)
      reads this
      ensures |events| == 2
      ensures events[0].NotificationClicked? <==>
              args.OtherInspectable? || args.arguments == "" || args.arguments == "default"
      ensures events[0].ActionInvoked? ==> events[0] == ActionInvoked(lastNotificationId, args.arguments)
      ensures events[0].id == lastNotificationId && !events[0].NotificationClosed?
      ensures events[1] == NotificationClosed(lastNotificationId, ReasonCode(Closed))
    {
      var key := ActivationKey(args);
      var first := if key == "" || key == "default" then NotificationClicked(lastNotificationId)
                   else ActionInvoked(lastNotificationId, key);
      [first, NotificationClosed(lastNotificationId, ReasonCode(Closed))]
    }

    /** A dismissal is reported as exactly one close event with the mapped reason. */
    function OnToastDismissed(reason: ToastDismissalReason): (events: seq<EngineEvent>)
      reads this
      ensures |events| == 1 && events[0].NotificationClosed?
      ensures events[0].id == lastNotificationId
      ensures ReasonOfCode(events[0].reason) == Some(DismissalToReason(reason))
    {
      [NotificationClosed(lastNotificationId, ReasonCode(DismissalToReason(reason)))]
    }
  }

  /** The toast carries one button per action, whose arguments attribute is the
      action's key; activating that button reports the key, unless it is empty or
      "default", which reads as a click on the toast body. */
  lemma ActionButtonActivation(e: WindowsEngine, actions: QStringMap, i: nat)
    requires i < |actions|
    ensures ActionsXml(actions) == "<actions>" + ActionList(actions) + "</actions>"
    ensures ActionList(actions) == ActionList(actions[..i]) + ActionXml(actions[i]) + ActionList(actions[i + 1..])
    ensures var events := e.OnToastActivated(ToastActivatedEventArgs(actions[i].0));
            ((actions[i].0 == "" || actions[i].0 == "default") <==> events[0].NotificationClicked?) &&
            (actions[i].0 != "" && actions[i].0 != "default" ==>
               events[0] == ActionInvoked(e.lastNotificationId, actions[i].0))
  {
    ActionListSplit(actions, i);
  }
}
