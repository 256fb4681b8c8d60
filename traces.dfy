/** Runs of the notification bar: what a whole sequence of settings
    refreshes, pushed events and frames does to the bar, and the guarantees
    that hold over such a run rather than for one call. */
module NotificationTraces {
  import opened Severity
  import opened Notifications

  /** One call into the bar. */
  datatype Step =
    | Configure(settings: Settings, tipIndex: nat)
    | Push(entry: LogEntry, fromDashboard: bool, now: nat)
    | Frame(now: nat, clicked: bool)

  /** Every random draw of the run lies in the catalog. */
  predicate WellFormed(steps: seq<Step>) {
    forall k :: 0 <= k < |steps| && steps[k].Configure? ==> steps[k].tipIndex < |Tips|
  }

  function Apply(b: Bar, step: Step, debugBuild: bool): (r: Bar)
    requires step.Configure? ==> step.tipIndex < |Tips|
  {
    match step
    case Configure(settings, tipIndex) => SettingsApplied(b, settings, tipIndex)
    case Push(entry, fromDashboard, now) => Pushed(b, entry, fromDashboard, debugBuild, now)
    case Frame(now, clicked) => Toggled(Decayed(b, now), clicked)
  }

  function Run(b: Bar, steps: seq<Step>, debugBuild: bool): (r: Bar)
    requires WellFormed(steps)
    decreases |steps|
  {
    if steps == [] then b
    else Run(Apply(b, steps[0], debugBuild), steps[1..], debugBuild)
  }

  /** The entries the run offers to the bar. */
  function Offered(steps: seq<Step>): set<LogEntry>
    decreases |steps|
  {
    if steps == [] then {}
    else (if steps[0].Push? then {steps[0].entry} else {}) + Offered(steps[1..])
  }

  /** Throughout any run the bar shows only an entry it was offered, at that
      entry's own severity, or the idle text or a catalog tip at level Debug. */
  lemma {:induction false} RunStaysExplained(b: Bar, steps: seq<Step>, debugBuild: bool, accepted: set<LogEntry>)
    requires WellFormed(steps)
    requires Explained(b, accepted)
    ensures Explained(Run(b, steps, debugBuild), accepted + Offered(steps))
    decreases |steps|
  {
    if steps != [] {
      var next := Apply(b, steps[0], debugBuild);
      var offered := if steps[0].Push? then {steps[0].entry} else {};
      if steps[0].Configure? {
        SettingsAppliedKeepsExplained(b, accepted, steps[0].settings, steps[0].tipIndex);
      } else if steps[0].Push? {
        PushedKeepsExplained(b, accepted, steps[0].entry, steps[0].fromDashboard, debugBuild, steps[0].now);
      } else {
        DecayedKeepsExplained(b, accepted, steps[0].now);
      }
      assert Explained(next, accepted + offered);
      RunStaysExplained(next, steps[1..], debugBuild, accepted + offered);
    }
  }

  /** Every call of the step happens no later than the end of the display
      window that opened at `start`, and not before `start`. */
  predicate InWindow(step: Step, start: nat) {
    match step
    case Configure(_, _) => true
    case Push(_, _, now) => start <= now <= start + Timeout
    case Frame(now, _) => start <= now <= start + Timeout
  }

  /** A more urgent message is never masked by a less urgent one while its
      window lasts: in a run that stays within the window opened at `start`,
      the shown severity never drops and the display instant stays inside
      that window. */
  lemma {:induction false} NoDowngradeWithinWindow(b: Bar, steps: seq<Step>, debugBuild: bool, start: nat)
    requires WellFormed(steps)
    requires start <= b.receiveInstant <= start + Timeout
    requires forall k :: 0 <= k < |steps| ==> InWindow(steps[k], start)
    ensures AtLeast(Run(b, steps, debugBuild).currentLevel, b.currentLevel)
    ensures start <= Run(b, steps, debugBuild).receiveInstant <= start + Timeout
    decreases |steps|
  {
    if steps != [] {
      var next := Apply(b, steps[0], debugBuild);
      assert InWindow(steps[0], start);
      assert AtLeast(next.currentLevel, b.currentLevel);
      assert forall k :: 0 <= k < |steps[1..]| ==> InWindow(steps[1..][k], start) by {
        forall k | 0 <= k < |steps[1..]| ensures InWindow(steps[1..][k], start) {
          assert steps[1..][k] == steps[k + 1];
        }
      }
      NoDowngradeWithinWindow(next, steps[1..], debugBuild, start);
    }
  }

  /** While every settings refresh keeps the tip feature on, a tip once
      chosen is never replaced. */
  lemma {:induction false} TipSticky(b: Bar, steps: seq<Step>, debugBuild: bool)
    requires WellFormed(steps)
    requires b.tipMessage.Some?
    requires forall k :: 0 <= k < |steps| && steps[k].Configure? ==> steps[k].settings.showNotificationTip
    ensures Run(b, steps, debugBuild).tipMessage == b.tipMessage
    decreases |steps|
  {
    if steps != [] {
      var next := Apply(b, steps[0], debugBuild);
      assert next.tipMessage == b.tipMessage;
      assert forall k :: 0 <= k < |steps[1..]| && steps[1..][k].Configure? ==> steps[1..][k].settings.showNotificationTip by {
        forall k | 0 <= k < |steps[1..]| && steps[1..][k].Configure?
          ensures steps[1..][k].settings.showNotificationTip
        {
          assert steps[1..][k] == steps[k + 1];
        }
      }
      TipSticky(next, steps[1..], debugBuild);
    }
  }

  /** Once the window has passed and no further event arrives, every frame
      shows the fallback at level Debug: the tip if one is stored, otherwise
      the idle text. */
  lemma {:induction false} QuietFramesShowFallback(b: Bar, steps: seq<Step>, debugBuild: bool)
    requires WellFormed(steps) && steps != []
    requires forall k :: 0 <= k < |steps| ==> steps[k].Frame? && Expired(b.receiveInstant, steps[k].now)
    ensures Run(b, steps, debugBuild).currentLevel == Debug
    ensures Run(b, steps, debugBuild).message == match b.tipMessage case Some(t) => t case None => IdleMessage
    ensures Run(b, steps, debugBuild).receiveInstant == b.receiveInstant
    decreases |steps|
  {
    var next := Apply(b, steps[0], debugBuild);
    if |steps| > 1 {
      assert forall k :: 0 <= k < |steps[1..]| ==> steps[1..][k].Frame? && Expired(next.receiveInstant, steps[1..][k].now) by {
        forall k | 0 <= k < |steps[1..]|
          ensures steps[1..][k].Frame? && Expired(next.receiveInstant, steps[1..][k].now)
        {
          assert steps[1..][k] == steps[k + 1];
        }
      }
      QuietFramesShowFallback(next, steps[1..], debugBuild);
    } else {
      assert Run(b, steps, debugBuild) == Run(next, [], debugBuild);
    }
  }
}
