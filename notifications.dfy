/** The dashboard's notification bar: which single status message the bottom
    bar shows, at which severity, and what it falls back to when the display
    window of the last message has passed.

    `Bar` is the value of the bar's state; `Pushed`, `Decayed`,
    `SettingsApplied` and `Toggled` say what each operation makes of it. The
    class `NotificationBar` is the bar itself, updated in place, and each of
    its methods is proved to move its state as the matching function says. */
module Notifications {
  import opened Severity

  datatype Option<T> = None | Some(value: T)

  /** A log event as the bar sees it: its text and its severity. */
  datatype LogEntry = LogEntry(content: string, severity: LogSeverity)

  /** The two settings the bar reads: the notification threshold and whether
      the tip feature is on. */
  datatype Settings = Settings(notificationLevel: LogSeverity, showNotificationTip: bool)

  /** Instants are nanoseconds of a monotonic clock. */
  const Timeout: nat := 5_000_000_000

  const IdleMessage: string := "No new notifications"

  const TipPrefix: string := "Tip: "

  /** The catalog from which a tip is drawn. */
  const Tips: seq<string> := [
    "If you started having crashes after changing some settings, reset ALVR by re-running \"Run setup wizard\" from the \"Installation\" tab and clicking \"Reset settings\".",
    "Some settings are hidden by default. Click the \"Expand\" button next to some settings to expand the submenus.",
    "It's highly advisable to keep audio settings as default in ALVR and modify the default audio device in the taskbar tray.",
    "Increasing \"Video\"->\"Maximum buffering\" may reduce stutters at the cost of more latency.",
    "Sometimes switching between h264 and HEVC codecs is necessary on certain GPUs to fix crashing or fallback to software encoding.",
    "If you're using an NVIDIA GPU, it's best to use high-bitrate H264; if you're using an AMD GPU, HEVC might look better.",
    "If you experience \"white snow\" flickering, set \"Presets\"->\"Resolution\" to \"Low\" and disable \"Video\"->\"Foveated encoding\".",
    "Increasing \"Video\"->\"Color correction\"->\"Sharpness\" may improve the perceived image quality.",
    "If you have problems syncing external controllers or trackers to ALVR tracking space, add one element to \"Headset\"->\"Extra OpenVR properties\", then set a custom \"Tracking system name string\".",
    "To change the visual appearance of controllers, set \"Headset\"->\"Controllers\"->\"Emulation mode\".",
    "ALVR supports custom button bindings! If you need help, please ask us on our Discord server.",
    "ALVR supports hand tracking gestures (\"Presets\"->\"Hand tracking interaction\"->\"ALVR bindings\"). Check out wiki how to use them properly: https://github.com/alvr-org/ALVR/wiki/Hand-tracking-controller-bindings.",
    "If hand tracking gestures are annoying, you can disable them in \"Headset\"->\"Controllers\"->\"Hand tracking interaction\". Alternatively, you can enable \"Hand tracking interaction\"->\"Only touch\".",
    "You can fine-tune the controllers' responsiveness with \"Headset\"->\"Controllers\"->\"Prediction\".",
    "If the visual controller/hand models do not match the physical controller's position, you can tweak the offset in \"Headset\"->\"Controllers\"->\"Left controller position/rotation offset\" (affects both controllers).",
    "When using external trackers or controllers, you should set both \"Headset\"->\"Position/Rotation recentering mode\" to \"Disabled\".",
    "You can enable tilt mode. Set \"Headset\"->\"Position recentering mode\" to \"Local\" and \"Headset\"->\"Rotation recentering mode\" to \"Tilted\".",
    "If you often experience image glitching, you can trade that with stutter frames using \"Connection\"->\"Avoid video glitching\".",
    "You can run custom commands/programs at headset connection/disconnection using \"Connection\"->\"Enable on connect/disconnect script\".",
    "In case you want to report a bug, to get a log file, enable \"Extra\"->\"Logging\"->\"Log to disk\". The log will be inside \"session_log.txt\".",
    "For hacking purposes, you can enable \"Extra\"->\"Logging\"->\"Log tracking\", \"Log button presses\" and \"Log haptics\". You can get the data using a websocket at ws://localhost:8082/api/events.",
    "In case you want to report a bug and share your log, you should enable \"Extra\"->\"Logging\"->\"Prefer backtrace\".",
    "You can quickly cycle through tips like this one by toggling \"Extra\"->\"Logging\"->\"Show notification tip\".",
    "It's handy to enable \"Extra\"->\"SteamVR Launcher\"->\"Open and close SteamVR automatically\".",
    "If you want to share a video recording for reporting a bug, you can enable \"Extra\"->\"Capture\"->\"Rolling video files\" to limit the file size of the upload.",
    "If your headset does not appear in the device list, it might be in a different subnet. Try \"Add device manually\" with IP shown from inside device."
  ]

  /** Symbolic colours: the theme pair for Debug and the light log colours. */
  datatype Color = Black | ThemeFg | ThemeLighterBg | ErrorLight | WarningLight | InfoLight

  datatype WrapMode = Truncate | Wrap

  /** What one frame draws: the text, its foreground and background colours,
      how the text wraps and whether the bar's height is capped. */
  datatype View = View(text: string, fg: Color, bg: Color, wrap: WrapMode, heightCapped: bool)

  /** The state of the bar as a value. */
  datatype Bar = Bar(
    message: string,
    currentLevel: LogSeverity,
    receiveInstant: nat,
    minNotificationLevel: LogSeverity,
    tipMessage: Option<string>,
    expanded: bool)

  /** A catalog tip with its label, as the tip feature stores it. */
  ghost predicate IsCatalogTip(m: string) {
    exists i :: 0 <= i < |Tips| && m == TipPrefix + Tips[i]
  }

  ghost predicate TipWellFormed(tip: Option<string>) {
    tip.Some? ==> IsCatalogTip(tip.value)
  }

  /** The bar's consistency: a stored tip comes from the catalog, and what is
      shown is either an accepted entry at that entry's severity, or the idle
      text or a catalog tip at level Debug. */
  ghost predicate Explained(b: Bar, accepted: set<LogEntry>) {
    TipWellFormed(b.tipMessage) &&
    (LogEntry(b.message, b.currentLevel) in accepted ||
     (b.currentLevel == Debug && (b.message == IdleMessage || IsCatalogTip(b.message))))
  }

  /** The state right after construction at instant `now`. */
  function Initial(now: nat): (b: Bar)
    ensures b.message == IdleMessage && b.currentLevel == Debug && b.receiveInstant == now
    ensures b.minNotificationLevel == Debug && b.tipMessage == None && !b.expanded
    ensures Explained(b, {})
  {
    Bar(IdleMessage, Debug, now, Debug, None, false)
  }

  /** The display window that started at `receiveInstant` has passed. */
  predicate Expired(receiveInstant: nat, now: nat) {
    now > receiveInstant + Timeout
  }

  /** The severity an event needs to be admitted: a fixed floor for events the
      dashboard raises itself (Debug in a development build, Info otherwise),
      the configured threshold for all others. */
  function EffectiveMinimum(fromDashboard: bool, debugBuild: bool, configured: LogSeverity): (m: LogSeverity)
    ensures !fromDashboard ==> m == configured
    ensures fromDashboard ==> AtLeast(Info, m)
    ensures fromDashboard && debugBuild ==> forall s :: AtLeast(s, m)
    ensures fromDashboard && !debugBuild ==> (forall s :: AtLeast(s, m) <==> s != Debug)
  {
    if fromDashboard then
      if debugBuild then Debug else Info
    else
      configured
  }

  predicate Admits(b: Bar, entry: LogEntry, fromDashboard: bool, debugBuild: bool) {
    AtLeast(entry.severity, EffectiveMinimum(fromDashboard, debugBuild, b.minNotificationLevel))
  }

  /** An admitted event replaces the message when the window has passed or when
      it is at least as severe as what is shown. */
  predicate Accepts(b: Bar, entry: LogEntry, fromDashboard: bool, debugBuild: bool, now: nat) {
    Admits(b, entry, fromDashboard, debugBuild) &&
    (Expired(b.receiveInstant, now) || AtLeast(entry.severity, b.currentLevel))
  }

  /** The state after `push_notification(entry, fromDashboard)` at `now`. */
  function Pushed(b: Bar, entry: LogEntry, fromDashboard: bool, debugBuild: bool, now: nat): (r: Bar)
    // the threshold, the tip and the expanded flag are never touched
    ensures r.minNotificationLevel == b.minNotificationLevel
    ensures r.tipMessage == b.tipMessage && r.expanded == b.expanded
    // either nothing changes or the entry becomes the shown message, received now
    ensures r == b || (r.message == entry.content && r.currentLevel == entry.severity && r.receiveInstant == now)
    // an event below the effective minimum is dropped
    ensures !Admits(b, entry, fromDashboard, debugBuild) ==> r == b
    // an admitted event is shown once the window has passed, or whenever it is
    // at least as severe as the current message
    ensures Admits(b, entry, fromDashboard, debugBuild) && (Expired(b.receiveInstant, now) || AtLeast(entry.severity, b.currentLevel))
      ==> r.message == entry.content && r.currentLevel == entry.severity && r.receiveInstant == now
    // within the window the shown severity never drops
    ensures !Expired(b.receiveInstant, now) ==> AtLeast(r.currentLevel, b.currentLevel)
  {
    if Accepts(b, entry, fromDashboard, debugBuild, now) then
      b.(message := entry.content, currentLevel := entry.severity, receiveInstant := now)
    else
      b
  }

  /** The timeout part of a UI tick at `now`. */
  function Decayed(b: Bar, now: nat): (r: Bar)
    // the instant of the last accepted message, the threshold, the tip and the
    // expanded flag are never touched
    ensures r.receiveInstant == b.receiveInstant && r.minNotificationLevel == b.minNotificationLevel
    ensures r.tipMessage == b.tipMessage && r.expanded == b.expanded
    // within the window nothing changes
    ensures !Expired(b.receiveInstant, now) ==> r == b
    // after it, the tip (or, without a tip, the idle text) is shown at level Debug
    ensures Expired(b.receiveInstant, now) ==> r.currentLevel == Debug
    ensures Expired(b.receiveInstant, now) && b.tipMessage.Some? ==> r.message == b.tipMessage.value
    ensures Expired(b.receiveInstant, now) && b.tipMessage.None? ==> r.message == IdleMessage
  {
    if Expired(b.receiveInstant, now) then
      b.(message := match b.tipMessage case Some(t) => t case None => IdleMessage,
         currentLevel := Debug)
    else
      b
  }

  /** The state after `update_settings(settings)`, where `tipIndex` is the
      catalog index the random choice would draw. */
  function SettingsApplied(b: Bar, settings: Settings, tipIndex: nat): (r: Bar)
    requires tipIndex < |Tips|
    // the threshold is always taken from the settings
    ensures r.minNotificationLevel == settings.notificationLevel
    // what is shown, its level, its instant and the expanded flag are untouched
    ensures r.message == b.message && r.currentLevel == b.currentLevel
    ensures r.receiveInstant == b.receiveInstant && r.expanded == b.expanded
    // a tip is stored exactly when the feature is on
    ensures r.tipMessage.Some? <==> settings.showNotificationTip
    // a tip already chosen is kept while the feature stays on
    ensures settings.showNotificationTip && b.tipMessage.Some? ==> r.tipMessage == b.tipMessage
    // a tip chosen now is a labelled catalog entry
    ensures settings.showNotificationTip && b.tipMessage.None? ==> IsCatalogTip(r.tipMessage.value)
  {
    var tip :=
      if settings.showNotificationTip then
        if b.tipMessage.None? then Some(TipPrefix + Tips[tipIndex]) else b.tipMessage
      else
        None;
    b.(minNotificationLevel := settings.notificationLevel, tipMessage := tip)
  }

  /** The Expand/Reduce button: a click flips the expanded flag. */
  function Toggled(b: Bar, clicked: bool): (r: Bar)
    ensures r.expanded <==> (b.expanded != clicked)
    ensures r.(expanded := b.expanded) == b
  {
    if !b.expanded then
      if clicked then b.(expanded := true) else b
    else if clicked then
      b.(expanded := false)
    else
      b
  }

  /** The foreground and background colours for a severity. */
  function Colors(level: LogSeverity): (c: (Color, Color))
    // log severities are drawn dark on their light log colour; Debug uses the theme
    ensures level != Debug <==> c.0 == Black
    ensures level == Debug <==> c.1 == ThemeLighterBg
    // each log severity has its own light background
    ensures level == Error ==> c.1 == ErrorLight
    ensures level == Warning ==> c.1 == WarningLight
    ensures level == Info ==> c.1 == InfoLight
    ensures level == Debug ==> c == (ThemeFg, ThemeLighterBg)
  {
    match level
    case Error => (Black, ErrorLight)
    case Warning => (Black, WarningLight)
    case Info => (Black, InfoLight)
    case Debug => (ThemeFg, ThemeLighterBg)
  }

  /** What a frame draws for state `b`. */
  function Render(b: Bar): (v: View)
    ensures v.text == b.message && (v.fg, v.bg) == Colors(b.currentLevel)
    // the collapsed bar both caps its height and truncates its text
    ensures v.heightCapped <==> v.wrap == Truncate
    ensures v.heightCapped <==> !b.expanded
  {
    var (fg, bg) := Colors(b.currentLevel);
    View(b.message, fg, bg, if !b.expanded then Truncate else Wrap, !b.expanded)
  }

  /** Each operation keeps the bar explained by the entries accepted so far. */
  lemma PushedKeepsExplained(b: Bar, accepted: set<LogEntry>, entry: LogEntry, fromDashboard: bool, debugBuild: bool, now: nat)
    requires Explained(b, accepted)
    ensures Explained(Pushed(b, entry, fromDashboard, debugBuild, now),
                      if Accepts(b, entry, fromDashboard, debugBuild, now) then accepted + {entry} else accepted)
  {
  }

  lemma DecayedKeepsExplained(b: Bar, accepted: set<LogEntry>, now: nat)
    requires Explained(b, accepted)
    ensures Explained(Decayed(b, now), accepted)
  {
  }

  lemma SettingsAppliedKeepsExplained(b: Bar, accepted: set<LogEntry>, settings: Settings, tipIndex: nat)
    requires tipIndex < |Tips|
    requires Explained(b, accepted)
    ensures Explained(SettingsApplied(b, settings, tipIndex), accepted)
  {
  }

  /** A tick after the window has passed may be repeated without effect. */
  lemma DecayedIdempotent(b: Bar, now: nat)
    ensures Decayed(Decayed(b, now), now) == Decayed(b, now)
  {
  }

  /** Calling `update_settings` again with the same settings changes nothing,
      whatever the random choice would draw. */
  lemma SettingsAppliedIdempotent(b: Bar, settings: Settings, i: nat, j: nat)
    requires i < |Tips| && j < |Tips|
    ensures SettingsApplied(SettingsApplied(b, settings, i), settings, j) == SettingsApplied(b, settings, i)
  {
  }

  /** Turning the tip feature off and on again draws afresh. */
  lemma TipRedrawnAfterDisable(b: Bar, on: Settings, off: Settings, i: nat, j: nat)
    requires i < |Tips| && j < |Tips|
    requires on.showNotificationTip && !off.showNotificationTip
    ensures SettingsApplied(SettingsApplied(SettingsApplied(b, on, i), off, i), on, j).tipMessage == Some(TipPrefix + Tips[j])
  {
  }

  /** The bar, updated in place by the dashboard's render loop. */
  class NotificationBar {
    var message: string
    var currentLevel: LogSeverity
    var receiveInstant: nat
    var minNotificationLevel: LogSeverity
    var tipMessage: Option<string>
    var expanded: bool
    /** The entries accepted so far. */
    ghost var Accepted: set<LogEntry>

    function State(): Bar
      reads this
    {
      Bar(message, currentLevel, receiveInstant, minNotificationLevel, tipMessage, expanded)
    }

    ghost predicate Valid()
      reads this
    {
      Explained(State(), Accepted)
    }

    constructor (now: nat)
      ensures Valid() && Accepted == {}
      ensures State() == Initial(now)
    {
      message := IdleMessage;
      currentLevel := Debug;
      receiveInstant := now;
      minNotificationLevel := Debug;
      tipMessage := None;
      expanded := false;
      Accepted := {};
    }

    /** `tipIndex` stands for the random draw from the catalog. */
    method UpdateSettings(settings: Settings, tipIndex: nat)
      requires Valid() && tipIndex < |Tips|
      modifies this
      ensures Valid() && Accepted == old(Accepted)
      ensures State() == SettingsApplied(old(State()), settings, tipIndex)
    {
      minNotificationLevel := settings.notificationLevel;
      if settings.showNotificationTip {
        if tipMessage.None? {
          tipMessage := Some(TipPrefix + Tips[tipIndex]);
        }
      } else {
        tipMessage := None;
      }
      SettingsAppliedKeepsExplained(old(State()), Accepted, settings, tipIndex);
    }

    /** `now` is the clock's reading, never earlier than the last accepted
        message; `debugBuild` is whether debug assertions are compiled in. */
    method PushNotification(entry: LogEntry, fromDashboard: bool, debugBuild: bool, now: nat)
      requires Valid() && now >= receiveInstant
      modifies this
      ensures Valid()
      ensures State() == Pushed(old(State()), entry, fromDashboard, debugBuild, now)
      ensures Accepted == if Accepts(old(State()), entry, fromDashboard, debugBuild, now)
                          then old(Accepted) + {entry} else old(Accepted)
    {
      var minSeverity := if fromDashboard then (if debugBuild then Debug else Info) else minNotificationLevel;
      if AtLeast(entry.severity, minSeverity)
         && (now > receiveInstant + Timeout || AtLeast(entry.severity, currentLevel))
      {
        message := entry.content;
        currentLevel := entry.severity;
        receiveInstant := now;
        Accepted := Accepted + {entry};
      }
      PushedKeepsExplained(old(State()), old(Accepted), entry, fromDashboard, debugBuild, now);
    }

    /** One frame: the timeout decay, then the frame to draw, then the effect
        of a click on the Expand/Reduce button. */
    method Ui(now: nat, clicked: bool) returns (view: View)
      requires Valid() && now >= receiveInstant
      modifies this
      ensures Valid() && Accepted == old(Accepted)
      ensures view == Render(Decayed(old(State()), now))
      ensures State() == Toggled(Decayed(old(State()), now), clicked)
    {
      if now > receiveInstant + Timeout {
        message := match tipMessage case Some(t) => t case None => IdleMessage;
        currentLevel := Debug;
      }
      DecayedKeepsExplained(old(State()), Accepted, now);
      var (fg, bg) := Colors(currentLevel);
      var wrapping := if !expanded then Truncate else Wrap;
      view := View(message, fg, bg, wrapping, !expanded);
      if !expanded {
        if clicked {
          expanded := true;
        }
      } else if clicked {
        expanded := false;
      }
    }
  }

  /** A caller's view: an Error from the server pins the bar against a later
      Info within the window, and the first frame after the window shows the
      idle text again. */
  method GpuErrorScenario(t0: nat) {
    var bar := new NotificationBar(t0);
    bar.UpdateSettings(Settings(Info, false), 0);
    bar.PushNotification(LogEntry("GPU error", Error), false, false, t0);
    assert bar.message == "GPU error";
    bar.PushNotification(LogEntry("info msg", Info), false, false, t0 + 2_000_000_000);
    assert bar.message == "GPU error" && bar.currentLevel == Error;
    var view := bar.Ui(t0 + 6_000_000_000, false);
    assert view.text == IdleMessage && bar.currentLevel == Debug;
  }
}
