/**
 * The accessibility service: it watches window events, and when a blocked app comes to
 * the foreground and the policy says a gate is due, it marks the gate active at once and
 * queues the launch. The queued launch later opens the gate and records the showing.
 * A broadcast from the gate (completed or dismissed) marks the gate inactive again.
 *
 * Asynchronous work is modelled as separate steps: each store emission is one collector
 * step, and each queued launch runs when `RunPendingLaunch` is called, oldest first.
 */
module Accessibility {
  import opened Wrappers
  import Session
  import Preferences

  /** `AccessibilityEvent.TYPE_WINDOW_STATE_CHANGED` and `TYPE_WINDOW_CONTENT_CHANGED`. */
  const TYPE_WINDOW_STATE_CHANGED: int := 0x20
  const TYPE_WINDOW_CONTENT_CHANGED: int := 0x800

  /** The gate's broadcast actions and the extra that names the package. */
  const ACTION_GATE_COMPLETED: string := "com.fouwaz.tokki_learn.action.GATE_COMPLETED"
  const ACTION_GATE_DISMISSED: string := "com.fouwaz.tokki_learn.action.GATE_DISMISSED"

  /** The collectors' starting values, before the store first emits. */
  const DEFAULT_COOLDOWN_MINUTES: int := 15

  datatype AccessibilityEvent = AccessibilityEvent(eventType: int, packageName: Option<string>)

  /** A received intent: its action and its package-name extra, each possibly absent. */
  datatype GateIntent = GateIntent(action: Option<string>, packageNameExtra: Option<string>)

  /** A launch queued by an event: the package and the event-time clock reading. */
  datatype PendingLaunch = PendingLaunch(packageName: string, now: int)

  /** The service's state as a value. */
  datatype ServiceState = ServiceState(
    blockedPackages: set<string>,
    cooldownMinutes: int,
    policy: Session.PolicyState,
    pending: seq<PendingLaunch>,
    /** Gates started, as (package, app label), oldest first. */
    launched: seq<(string, string)>,
    /** Showings written to the store, as (package, time), oldest first. */
    recorded: seq<(string, int)>)

  const InitialState: ServiceState :=
    ServiceState({}, DEFAULT_COOLDOWN_MINUTES, Session.InitialState, [], [], [])

  // ---------------------------------------------------------------------------
  // The event filter chain
  // ---------------------------------------------------------------------------

  /**
   * The package an event should open a gate for: none for a missing event, an event of
   * another type, one without a package, one from this app itself, or one for an app that
   * is not blocked; otherwise the package, when the policy says a gate is due.
   */
  function GateTarget(s: ServiceState, ownPackage: string, event: Option<AccessibilityEvent>, now: int): Option<string> {
    if event.None? then None
    else if event.value.eventType != TYPE_WINDOW_STATE_CHANGED
         && event.value.eventType != TYPE_WINDOW_CONTENT_CHANGED then None
    else if event.value.packageName.None? then None
    else
      var packageName := event.value.packageName.value;
      if packageName == ownPackage then None
      else if packageName !in s.blockedPackages then None
      else if !s.policy.ShouldShowGate(packageName, now, s.cooldownMinutes) then None
      else Some(packageName)
  }

  /** `onAccessibilityEvent`: for a gate target, mark it active and queue its launch. */
  function AfterEvent(s: ServiceState, ownPackage: string, event: Option<AccessibilityEvent>, now: int): ServiceState {
    match GateTarget(s, ownPackage, event, now)
    case None => s
    case Some(packageName) =>
      s.(policy := s.policy.MarkGateActive(packageName),
         pending := s.pending + [PendingLaunch(packageName, now)])
  }

  /** The queued launch: open the gate, then record the showing at the event's time. */
  function AfterPendingLaunch(s: ServiceState, appLabel: string): ServiceState {
    if s.pending == [] then s
    else
      var p := s.pending[0];
      s.(pending := s.pending[1..],
         launched := s.launched + [(p.packageName, appLabel)],
         recorded := s.recorded + [(p.packageName, p.now)],
         policy := s.policy.MarkGateShown(p.packageName, p.now))
  }

  /** The gate receiver: either terminal action marks the named package inactive. */
  function AfterReceive(s: ServiceState, intent: Option<GateIntent>): ServiceState {
    if intent.None? || intent.value.packageNameExtra.None? then s
    else if intent.value.action == Some(ACTION_GATE_COMPLETED) || intent.value.action == Some(ACTION_GATE_DISMISSED) then
      s.(policy := s.policy.MarkGateInactive(intent.value.packageNameExtra.value))
    else s
  }

  function AfterBlockedPackages(s: ServiceState, packages: set<string>): ServiceState {
    s.(blockedPackages := packages)
  }

  function AfterCooldown(s: ServiceState, minutes: int): ServiceState {
    s.(cooldownMinutes := minutes)
  }

  function AfterTimestamps(s: ServiceState, timestamps: map<string, int>): ServiceState {
    s.(policy := s.policy.RefreshLastGateCache(timestamps))
  }

  // ---------------------------------------------------------------------------
  // Properties
  // ---------------------------------------------------------------------------

  /** An event that fails any filter changes nothing and queues nothing. */
  lemma FilteredEventsChangeNothing(s: ServiceState, ownPackage: string, event: Option<AccessibilityEvent>, now: int)
    requires || event.None?
             || (event.value.eventType != TYPE_WINDOW_STATE_CHANGED && event.value.eventType != TYPE_WINDOW_CONTENT_CHANGED)
             || event.value.packageName.None?
             || event.value.packageName.value == ownPackage
             || event.value.packageName.value !in s.blockedPackages
    ensures AfterEvent(s, ownPackage, event, now) == s
  {
  }

  /**
   * An event queues a launch exactly when it passes the filters and the policy says a gate
   * is due; the package is then active before the launch runs, and nothing else changes.
   */
  lemma {:induction false} EventLaunchesIffDue(s: ServiceState, ownPackage: string, packageName: string, eventType: int, now: int)
    requires eventType == TYPE_WINDOW_STATE_CHANGED || eventType == TYPE_WINDOW_CONTENT_CHANGED
    requires packageName != ownPackage && packageName in s.blockedPackages
    ensures var r := AfterEvent(s, ownPackage, Some(AccessibilityEvent(eventType, Some(packageName))), now);
            if s.policy.ShouldShowGate(packageName, now, s.cooldownMinutes) then
              r.pending == s.pending + [PendingLaunch(packageName, now)]
              && r.policy.activeGates == s.policy.activeGates + {packageName}
              && r.policy.lastGateTimestamps == s.policy.lastGateTimestamps
              && r.launched == s.launched && r.recorded == s.recorded
              && r.blockedPackages == s.blockedPackages && r.cooldownMinutes == s.cooldownMinutes
            else r == s
  {
  }

  /**
   * A repeat event for a package whose gate is queued or running, before the gate's end
   * broadcast, launches nothing: the first event made the package active, and neither the
   * queued launch nor the collectors clear that.
   */
  lemma {:induction false} RepeatEventLaunchesNothing(s: ServiceState, ownPackage: string, event1: AccessibilityEvent,
                                                      now1: int, event2: AccessibilityEvent, now2: int, appLabel: string)
    requires GateTarget(s, ownPackage, Some(event1), now1).Some?
    requires event2.packageName == event1.packageName
    ensures var afterFirst := AfterEvent(s, ownPackage, Some(event1), now1);
            AfterEvent(afterFirst, ownPackage, Some(event2), now2) == afterFirst
            && var afterTail := AfterPendingLaunch(afterFirst, appLabel);
               AfterEvent(afterTail, ownPackage, Some(event2), now2) == afterTail
  {
    var packageName := event1.packageName.value;
    var afterFirst := AfterEvent(s, ownPackage, Some(event1), now1);
    assert packageName in afterFirst.policy.activeGates;
    var afterTail := AfterPendingLaunch(afterFirst, appLabel);
    assert afterTail.policy.activeGates == afterFirst.policy.activeGates;
    Session.ActiveIsNeverGated(afterFirst.policy, packageName);
    Session.ActiveIsNeverGated(afterTail.policy, packageName);
  }

  /**
   * The queued launch opens the gate with the given appLabel and records the event's own
   * time, both in the store and in the policy; the active set is left alone.
   */
  lemma LaunchRecordsEventTime(s: ServiceState, appLabel: string)
    requires s.pending != []
    ensures var p := s.pending[0];
            var r := AfterPendingLaunch(s, appLabel);
            r.pending == s.pending[1..]
            && r.launched == s.launched + [(p.packageName, appLabel)]
            && r.recorded == s.recorded + [(p.packageName, p.now)]
            && r.policy.lastGateTimestamps == s.policy.lastGateTimestamps[p.packageName := p.now]
            && r.policy.activeGates == s.policy.activeGates
  {
  }

  /**
   * Both end broadcasts mark the named package inactive; an intent without the package
   * extra, a missing intent, or another action changes nothing.
   */
  lemma ReceiverMarksInactive(s: ServiceState, intent: Option<GateIntent>)
    ensures var r := AfterReceive(s, intent);
            if intent.Some? && intent.value.packageNameExtra.Some?
               && intent.value.action in {Some(ACTION_GATE_COMPLETED), Some(ACTION_GATE_DISMISSED)} then
              r.policy.activeGates == s.policy.activeGates - {intent.value.packageNameExtra.value}
              && r.policy.lastGateTimestamps == s.policy.lastGateTimestamps
              && r.pending == s.pending && r.blockedPackages == s.blockedPackages
            else r == s
  {
  }

  /** After an end broadcast for a package, its next event is decided by the cooldown alone. */
  lemma {:induction false} EndBroadcastReenablesGating(s: ServiceState, ownPackage: string, action: string,
                                                       event: AccessibilityEvent, now: int)
    requires action == ACTION_GATE_COMPLETED || action == ACTION_GATE_DISMISSED
    requires event.packageName.Some?
    ensures var r := AfterReceive(s, Some(GateIntent(Some(action), event.packageName)));
            var p := event.packageName.value;
            p !in r.policy.activeGates
            && r.policy.ShouldShowGate(p, now, r.cooldownMinutes)
               == Session.GateDue({}, s.policy.lastGateTimestamps, p, now, s.cooldownMinutes)
  {
  }

  /** Until the store first emits, the blocked set is empty, so no event opens a gate. */
  lemma NothingGatedInitially(ownPackage: string, event: Option<AccessibilityEvent>, now: int)
    ensures InitialState.cooldownMinutes == 15
    ensures AfterEvent(InitialState, ownPackage, event, now) == InitialState
  {
  }

  /** A timestamp emission replaces the policy's records wholesale and nothing else. */
  lemma TimestampsReplaceCache(s: ServiceState, timestamps: map<string, int>)
    ensures AfterTimestamps(s, timestamps).policy.lastGateTimestamps == timestamps
    ensures AfterTimestamps(s, timestamps).policy.activeGates == s.policy.activeGates
    ensures AfterTimestamps(s, timestamps).(policy := s.policy) == s
  {
  }

  /**
   * A launch writes the same showing to the store as to the policy's records: when the
   * store's timestamps matched the records before, decoding the store after the write
   * gives the records after the launch.
   */
  lemma {:induction false} PersistedShowingMatchesCache(s: ServiceState, appLabel: string, prefs: Preferences.Prefs)
    requires s.pending != []
    requires Preferences.LastGateTimestamps(prefs) == s.policy.lastGateTimestamps
    ensures var r := AfterPendingLaunch(s, appLabel);
            var written := r.recorded[|r.recorded| - 1];
            Preferences.LastGateTimestamps(Preferences.AfterRecordGateShown(prefs, written.0, written.1))
            == r.policy.lastGateTimestamps
  {
    var p := s.pending[0];
    LaunchRecordsEventTime(s, appLabel);
    Preferences.RecordGateShownRoundTrip(prefs, p.packageName, p.now);
  }

  // ---------------------------------------------------------------------------
  // The service object
  // ---------------------------------------------------------------------------

  class TokiAccessibilityService {
    /** This app's own package name. */
    const ownPackage: string
    const sessionPolicy: Session.SessionPolicy
    var blockedPackages: set<string>
    var cooldownMinutes: int
    var pending: seq<PendingLaunch>
    var launched: seq<(string, string)>
    var recorded: seq<(string, int)>

    function State(): ServiceState
      reads this, sessionPolicy
    {
      ServiceState(blockedPackages, cooldownMinutes, sessionPolicy.State(), pending, launched, recorded)
    }

    /** `onCreate`: a fresh policy whose cooldown is this service's current cooldown field. */
    constructor(ownPackage: string)
      ensures this.ownPackage == ownPackage && fresh(sessionPolicy)
      ensures State() == InitialState
    {
      this.ownPackage := ownPackage;
      blockedPackages := {};
      cooldownMinutes := DEFAULT_COOLDOWN_MINUTES;
      pending := [];
      launched := [];
      recorded := [];
      sessionPolicy := new Session.SessionPolicy();
    }

    method OnAccessibilityEvent(event: Option<AccessibilityEvent>, now: int)
      modifies this, sessionPolicy
      ensures State() == AfterEvent(old(State()), ownPackage, event, now)
    {
      if event.None? {
        return;
      }
      if event.value.eventType != TYPE_WINDOW_STATE_CHANGED && event.value.eventType != TYPE_WINDOW_CONTENT_CHANGED {
        return;
      }
      if event.value.packageName.None? {
        return;
      }
      var packageName := event.value.packageName.value;
      if packageName == ownPackage {
        return;
      }
      if packageName !in blockedPackages {
        return;
      }
      var show := sessionPolicy.ShouldShowGate(packageName, now, cooldownMinutes);
      if !show {
        return;
      }
      sessionPolicy.MarkGateActive(packageName);
      pending := pending + [PendingLaunch(packageName, now)];
    }

    /** The oldest queued launch runs; `appLabel` is the installed app's appLabel. */
    method RunPendingLaunch(appLabel: string)
      modifies this, sessionPolicy
      ensures State() == AfterPendingLaunch(old(State()), appLabel)
    {
      if pending == [] {
        return;
      }
      var p := pending[0];
      pending := pending[1..];
      launched := launched + [(p.packageName, appLabel)];
      recorded := recorded + [(p.packageName, p.now)];
      sessionPolicy.MarkGateShown(p.packageName, p.now);
    }

    method OnReceive(intent: Option<GateIntent>)
      modifies this, sessionPolicy
      ensures State() == AfterReceive(old(State()), intent)
    {
      if intent.None? || intent.value.packageNameExtra.None? {
        return;
      }
      var packageName := intent.value.packageNameExtra.value;
      if intent.value.action == Some(ACTION_GATE_COMPLETED) || intent.value.action == Some(ACTION_GATE_DISMISSED) {
        sessionPolicy.MarkGateInactive(packageName);
      }
    }

    method OnBlockedPackages(packages: set<string>)
      modifies this
      ensures State() == AfterBlockedPackages(old(State()), packages)
    {
      blockedPackages := packages;
    }

    method OnCooldownMinutes(minutes: int)
      modifies this
      ensures State() == AfterCooldown(old(State()), minutes)
    {
      cooldownMinutes := minutes;
    }

    method OnLastGateTimestamps(timestamps: map<string, int>)
      modifies sessionPolicy
      ensures State() == AfterTimestamps(old(State()), timestamps)
    {
      sessionPolicy.RefreshLastGateCache(timestamps);
    }
  }
}
