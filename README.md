# ALVR dashboard notification bar, modelled in Dafny

The ALVR dashboard has a bar along its bottom edge that shows one status
message at a time. `NotificationBar` decides which message that is:

- **Admission.** A log event is dropped unless its severity reaches a threshold. The threshold is the configured notification level. For events the dashboard raises itself it is instead a fixed floor: Debug in a development build, Info otherwise.
- **Preemption.** An admitted event replaces the shown message if the 5-second display window has passed. It also replaces it, even inside the window, if it is at least as severe as the shown message.
- **Decay.** On every frame after the window has passed, the bar falls back to the stored tip, or to "No new notifications" if there is none, at level Debug.
- **Tips.** When the tip feature is on, a settings refresh draws a catalog tip once and keeps it. When the feature is off, the tip is cleared.

Files:

- `severity.dfy` (module `Severity`): the four log severities and their single order, used for every comparison.
- `notifications.dfy` (module `Notifications`): the constants (timeout, idle text, tip label, the 26-tip catalog) and the bar's state as a value, `Bar`.
  - It holds one function per operation: `SettingsApplied`, `Pushed`, `Decayed`, `Toggled` and `Render`. Each has a contract.
  - It holds the class `NotificationBar`. The class's fields are updated in place, and each method is proved to move the state as the matching function says.
  - A ghost set `Accepted` records the entries accepted so far. The class invariant `Valid()` (predicate `Explained`) says that the bar shows either one of those entries at that entry's own severity, or the idle text or a catalog tip at level Debug.
- `traces.dfy` (module `NotificationTraces`): whole runs of settings refreshes, pushes and frames, and the guarantees that hold over a run. These are proved by induction on the run.

Time is a natural number counting nanoseconds of a monotonic clock, and the timeout is 5 000 000 000. "The window has passed" is the strict comparison `now > receiveInstant + Timeout`, as in the code. So at exactly 5 s the window has not yet passed, and a frame at that instant changes nothing.

## Model

| member | source | states |
|---|---|---|
| `Severity.AtLeastIsTotalOrder` | alvr/dashboard/src/dashboard/components/notifications.rs:97-98 | the severity comparison used for admission and preemption is a total order with Debug lowest and Error highest |
| `Notifications.Initial` | alvr/dashboard/src/dashboard/components/notifications.rs:60-69 | a new bar shows the idle text at Debug, received at the construction instant, with threshold Debug, no tip and collapsed, and is already consistent |
| `Notifications.EffectiveMinimum` | alvr/dashboard/src/dashboard/components/notifications.rs:87-95 | events from elsewhere need the configured threshold. Dashboard events need at most Info whatever is configured. In a development build every dashboard event is admitted. In a release build a dashboard event is admitted exactly when it is not Debug |
| `Notifications.Pushed` | alvr/dashboard/src/dashboard/components/notifications.rs:97-103 | an event below the effective minimum changes nothing. An admitted event becomes the message, at its severity and received now, if the window has passed or it is at least as severe as the current message. Otherwise nothing changes. The threshold, tip and expanded flag never change. Inside the window the shown severity never drops |
| `Notifications.Decayed` | alvr/dashboard/src/dashboard/components/notifications.rs:107-114 | inside the window a frame changes nothing. After it, the bar shows the tip (or the idle text when there is no tip) at Debug. The receive instant, threshold, tip and flag are untouched |
| `Notifications.SettingsApplied` | alvr/dashboard/src/dashboard/components/notifications.rs:71-83 | the threshold is always taken from the settings, and the message, level and instant are untouched. A tip is stored exactly when the feature is on. An existing tip is kept while the feature stays on. A newly drawn tip is a catalog entry with the "Tip: " label |
| `Notifications.Toggled` | alvr/dashboard/src/dashboard/components/notifications.rs:143-149 | a click on Expand/Reduce flips the expanded flag and changes nothing else |
| `Notifications.Colors` | alvr/dashboard/src/dashboard/components/notifications.rs:116-121 | every severity has a colour pair. Info, Warning and Error are drawn black on their light log colour. Debug, and only Debug, uses the theme pair |
| `Notifications.Render` | alvr/dashboard/src/dashboard/components/notifications.rs:116-139 | the frame shows the current message in the colours of its level. The height is capped exactly when the text is truncated, and that is exactly when the bar is collapsed |
| `Notifications.PushedKeepsExplained` | alvr/dashboard/src/dashboard/components/notifications.rs:97-103 | a push keeps the bar consistent. If the entry was accepted, it joins the set of accepted entries |
| `Notifications.DecayedKeepsExplained` | alvr/dashboard/src/dashboard/components/notifications.rs:108-114 | the decay keeps the bar consistent: the fallback is the idle text or a catalog tip, at Debug |
| `Notifications.SettingsAppliedKeepsExplained` | alvr/dashboard/src/dashboard/components/notifications.rs:71-83 | a settings refresh keeps the bar consistent: any tip it stores comes from the catalog |
| `Notifications.DecayedIdempotent` | alvr/dashboard/src/dashboard/components/notifications.rs:108-114 | two decays at the same instant have the same effect as one (so two frames without a click do too) |
| `Notifications.SettingsAppliedIdempotent` | alvr/dashboard/src/dashboard/components/notifications.rs:74-79 | a second refresh with the same settings changes nothing, whatever tip the random choice would draw |
| `Notifications.TipRedrawnAfterDisable` | alvr/dashboard/src/dashboard/components/notifications.rs:74-82 | turning the tips off and on again stores the newly drawn tip, not the old one |
| `Notifications.NotificationBar.constructor` | alvr/dashboard/src/dashboard/components/notifications.rs:60-69 | sets the fields to the initial state, with no entries accepted yet |
| `Notifications.NotificationBar.UpdateSettings` | alvr/dashboard/src/dashboard/components/notifications.rs:71-83 | the fields are updated in place to `SettingsApplied` of the old state, and the invariant is kept |
| `Notifications.NotificationBar.PushNotification` | alvr/dashboard/src/dashboard/components/notifications.rs:85-104 | the fields are updated in place to `Pushed` of the old state. The entry joins the accepted set exactly when it is accepted, and the invariant is kept |
| `Notifications.NotificationBar.Ui` | alvr/dashboard/src/dashboard/components/notifications.rs:106-158 | the frame drawn is `Render` of the decayed state, and the button click is applied only after the frame's layout was chosen. The new state is the decayed state with the click applied, and the invariant is kept |
| `NotificationTraces.RunStaysExplained` | alvr/dashboard/src/dashboard/components/notifications.rs:71-114 | over any run, the bar shows either an entry it was offered at that entry's own severity, or the idle text or a catalog tip at Debug |
| `NotificationTraces.NoDowngradeWithinWindow` | alvr/dashboard/src/dashboard/components/notifications.rs:97-114 | while every push and frame falls inside one display window, the shown severity never drops and the receive instant stays inside that window. A more urgent message is never masked by a less urgent one |
| `NotificationTraces.TipSticky` | alvr/dashboard/src/dashboard/components/notifications.rs:71-83 | once a tip is chosen, no run in which every refresh keeps the feature on ever replaces it |
| `NotificationTraces.QuietFramesShowFallback` | alvr/dashboard/src/dashboard/components/notifications.rs:106-114 | once the window has passed, any number of frames with no event in between show the tip or the idle text at Debug, without restarting the window |

## Left out

- All of `alvr/server_openvr/cpp/platform/win32/FrameRender.h` is left out. It is Direct3D, COM and Win32 resource plumbing and has no logic of the bar.
- The drawing itself is left out: the egui panel, margins, the top or centre alignment, the button widgets and the label's font size. Only the text, the colours, the wrap mode, the height cap and the button's effect on the expanded flag are modelled.
- `Notifications.Colors` is symbolic. The concrete `Color32` values of the theme and log colours are not modelled.
- The random draw of a tip is not modelled. It becomes a catalog index supplied by the caller, which must lie in the catalog, as the random choice's result always does. The case where `choose` returns nothing on an empty catalog cannot occur with the fixed 26-tip catalog and is not modelled.
- `Instant::now()` and the wasm/native clock switch are not modelled. The instant is a parameter, and the methods require it to be no earlier than the last accepted message, which a monotonic clock guarantees. A possible overflow of `Instant + Duration` is not modelled.
- `cfg!(debug_assertions)` becomes the parameter `debugBuild`.
- The `Settings` and `LogEntry` types are not part of this model beyond the fields the bar reads. Those fields are the notification threshold, the tip switch, and the event's content and severity.
- The severity enumeration of `alvr_common` is not part of this model. Its order is taken to be Debug < Info < Warning < Error.
