/**
 * The gate screen's host activity: it reads the target package and label from its
 * intent (leaving at once when either is missing or empty), swallows the back button,
 * and turns the session's events into broadcasts and app launches. It sends one
 * terminal broadcast: COMPLETED the first time the session reports completion or the
 * user continues, DISMISSED when it is destroyed without having sent COMPLETED.
 */
module GateHost {
  import opened Wrappers
  import Gate

  const ACTION_GATE_COMPLETED: string := "com.fouwaz.tokki_learn.action.GATE_COMPLETED"
  const ACTION_GATE_DISMISSED: string := "com.fouwaz.tokki_learn.action.GATE_DISMISSED"

  /** What the activity does to the outside world, in order. */
  datatype Effect =
    | Broadcast(action: string, packageName: string)
    | LaunchTarget(packageName: string)
    | LaunchMain
    | Finish

  /**
   * The activity's state. The two `lateinit` fields are `None` until assigned;
   * `collecting` is the event collector, `contentSet` the screen, `backCallback` the
   * back-press interceptor, all set up by a successful `onCreate`.
   */
  datatype ActivityState = ActivityState(
    targetPackageName: Option<string>,
    appLabel: Option<string>,
    completionBroadcastSent: bool,
    backCallback: bool,
    collecting: bool,
    contentSet: bool,
    finishing: bool,
    destroyed: bool,
    effects: seq<Effect>)

  const Launched: ActivityState := ActivityState(None, None, false, false, false, false, false, false, [])

  /** `isNullOrEmpty`. */
  predicate IsNullOrEmpty(s: Option<string>) {
    s.None? || s.value == ""
  }

  /** The number of broadcasts among the effects. */
  function BroadcastCount(effects: seq<Effect>): (n: nat)
    ensures n <= |effects|
  {
    if effects == [] then 0
    else BroadcastCount(effects[..|effects| - 1]) + (if effects[|effects| - 1].Broadcast? then 1 else 0)
  }

  lemma {:induction false} BroadcastCountAppend(effects: seq<Effect>, more: seq<Effect>)
    ensures BroadcastCount(effects + more) == BroadcastCount(effects) + BroadcastCount(more)
    decreases |more|
  {
    if more == [] {
      assert effects + more == effects;
    } else {
      var init := more[..|more| - 1];
      BroadcastCountAppend(effects, init);
      assert (effects + more)[..|effects + more| - 1] == effects + init;
    }
  }

  // ---------------------------------------------------------------------------
  // The lifecycle steps
  // ---------------------------------------------------------------------------

  /** `onCreate`: leave at once on a missing or empty extra, otherwise set everything up. */
  function AfterCreate(s: ActivityState, packageNameExtra: Option<string>, labelExtra: Option<string>): ActivityState {
    if IsNullOrEmpty(packageNameExtra) || IsNullOrEmpty(labelExtra) then
      s.(finishing := true, effects := s.effects + [Finish])
    else
      s.(targetPackageName := packageNameExtra, appLabel := labelExtra,
         backCallback := true, collecting := true, contentSet := true)
  }

  /**
   * `notifyGateCompleted`: the first call sends COMPLETED and sets the flag; later calls
   * do nothing. Sending reads the `lateinit` target, so it must have been assigned.
   */
  function AfterNotifyGateCompleted(s: ActivityState): ActivityState
    requires s.completionBroadcastSent || s.targetPackageName.Some?
  {
    if s.completionBroadcastSent then s
    else s.(completionBroadcastSent := true,
            effects := s.effects + [Broadcast(ACTION_GATE_COMPLETED, s.targetPackageName.value)])
  }

  /**
   * The event collector's `when`. `hasLaunchIntent` is whether the package manager has a
   * launch intent for the event's package. Without a collector the event is lost.
   */
  function AfterGateEvent(s: ActivityState, event: Gate.GateEvent, hasLaunchIntent: bool): ActivityState
    requires s.collecting ==> s.targetPackageName.Some?
  {
    if !s.collecting then s
    else
      var notified := AfterNotifyGateCompleted(s);
      match event
      case Completed(_) => notified
      case ContinueToApp(packageName) =>
        notified.(finishing := true,
                  effects := notified.effects + (if hasLaunchIntent then [LaunchTarget(packageName)] else []) + [Finish])
      case ContinueLearning =>
        notified.(finishing := true, effects := notified.effects + [LaunchMain, Finish])
  }

  /** The back button: with the interceptor installed it does nothing; otherwise it finishes. */
  function AfterBackPressed(s: ActivityState): ActivityState {
    if s.backCallback then s else s.(finishing := true, effects := s.effects + [Finish])
  }

  /**
   * `onDestroy` as written: DISMISSED unless COMPLETED was sent, reading the `lateinit`
   * target to do so. The read needs the target to have been assigned.
   */
  function AfterDestroyAsWritten(s: ActivityState): ActivityState
    requires s.completionBroadcastSent || s.targetPackageName.Some?
  {
    var sent := if s.completionBroadcastSent then []
                else [Broadcast(ACTION_GATE_DISMISSED, s.targetPackageName.value)];
    s.(destroyed := true, collecting := false, effects := s.effects + sent)
  }

  /**
   * `onDestroy` with the `lateinit` read guarded: DISMISSED unless COMPLETED was sent, and
   * nothing at all for an activity that left before learning its target.
   */
  function AfterDestroy(s: ActivityState): ActivityState {
    var sent := if s.completionBroadcastSent || s.targetPackageName.None? then []
                else [Broadcast(ACTION_GATE_DISMISSED, s.targetPackageName.value)];
    s.(destroyed := true, collecting := false, effects := s.effects + sent)
  }

  // ---------------------------------------------------------------------------
  // The activity invariant and its properties
  // ---------------------------------------------------------------------------

  /**
   * A collector exists only with both fields assigned and before destruction; at most
   * one broadcast was sent, exactly one once the flag is set, none while neither the flag
   * is set nor the activity destroyed.
   */
  ghost predicate ActivityInvariant(s: ActivityState) {
    (s.collecting ==> s.targetPackageName.Some? && s.appLabel.Some? && !s.destroyed)
    && BroadcastCount(s.effects) <= 1
    && (s.completionBroadcastSent ==> BroadcastCount(s.effects) == 1)
    && (!s.completionBroadcastSent && !s.destroyed ==> BroadcastCount(s.effects) == 0)
  }

  lemma {:induction false} CreateEstablishesInvariant(packageNameExtra: Option<string>, labelExtra: Option<string>)
    ensures ActivityInvariant(AfterCreate(Launched, packageNameExtra, labelExtra))
  {
    assert BroadcastCount([Finish]) == 0 by {
      assert [Finish][..0] == [];
    }
  }

  /** A missing or empty extra finishes at once: no collector, no screen, nothing learnt. */
  lemma EarlyExit(s: ActivityState, packageNameExtra: Option<string>, labelExtra: Option<string>)
    requires IsNullOrEmpty(packageNameExtra) || IsNullOrEmpty(labelExtra)
    ensures var r := AfterCreate(s, packageNameExtra, labelExtra);
            r.finishing && r.effects == s.effects + [Finish]
            && r.collecting == s.collecting && r.contentSet == s.contentSet
            && r.targetPackageName == s.targetPackageName && r.backCallback == s.backCallback
  {
  }

  /** The first notification sends COMPLETED for the target; a second one sends nothing. */
  lemma NotifySendsOnce(s: ActivityState)
    requires !s.completionBroadcastSent && s.targetPackageName.Some?
    ensures var once := AfterNotifyGateCompleted(s);
            once.effects == s.effects + [Broadcast(ACTION_GATE_COMPLETED, s.targetPackageName.value)]
            && AfterNotifyGateCompleted(once) == once
  {
  }

  /** Every event keeps the invariant, so no event sequence sends a second broadcast. */
  lemma {:induction false} EventPreservesInvariant(s: ActivityState, event: Gate.GateEvent, hasLaunchIntent: bool)
    requires ActivityInvariant(s)
    ensures ActivityInvariant(AfterGateEvent(s, event, hasLaunchIntent))
  {
    if s.collecting {
      var notified := AfterNotifyGateCompleted(s);
      if !s.completionBroadcastSent {
        BroadcastCountAppend(s.effects, [Broadcast(ACTION_GATE_COMPLETED, s.targetPackageName.value)]);
        assert BroadcastCount([Broadcast(ACTION_GATE_COMPLETED, s.targetPackageName.value)]) == 1 by {
          assert [Broadcast(ACTION_GATE_COMPLETED, s.targetPackageName.value)][..0] == [];
        }
      }
      assert BroadcastCount(notified.effects) == 1;
      var tail := match event
                  case Completed(_) => []
                  case ContinueToApp(packageName) =>
                    (if hasLaunchIntent then [LaunchTarget(packageName)] else []) + [Finish]
                  case ContinueLearning => [LaunchMain, Finish];
      assert AfterGateEvent(s, event, hasLaunchIntent).effects == notified.effects + tail;
      NoBroadcastIn(tail);
      BroadcastCountAppend(notified.effects, tail);
    }
  }

  /** Launches and finishes are not broadcasts. */
  lemma {:induction false} NoBroadcastIn(effects: seq<Effect>)
    requires forall k :: 0 <= k < |effects| ==> !effects[k].Broadcast?
    ensures BroadcastCount(effects) == 0
    decreases |effects|
  {
    if effects != [] {
      NoBroadcastIn(effects[..|effects| - 1]);
    }
  }

  /**
   * The dispatch: `Completed` only notifies; `ContinueToApp` notifies, starts the target
   * (when it has a launch intent) and finishes; `ContinueLearning` notifies, starts the
   * main app and finishes.
   */
  lemma EventDispatch(s: ActivityState, event: Gate.GateEvent, hasLaunchIntent: bool)
    requires s.collecting && s.targetPackageName.Some?
    ensures var notified := AfterNotifyGateCompleted(s);
            var r := AfterGateEvent(s, event, hasLaunchIntent);
            match event
            case Completed(_) => r == notified
            case ContinueToApp(p) =>
              r.completionBroadcastSent && r.finishing
              && r.effects == notified.effects + (if hasLaunchIntent then [LaunchTarget(p)] else []) + [Finish]
            case ContinueLearning =>
              r.completionBroadcastSent && r.finishing && r.effects == notified.effects + [LaunchMain, Finish]
  {
  }

  /** Once the interceptor is installed, the back button changes nothing. */
  lemma BackIsSwallowed(s: ActivityState, packageNameExtra: Option<string>, labelExtra: Option<string>)
    requires !IsNullOrEmpty(packageNameExtra) && !IsNullOrEmpty(labelExtra)
    ensures var created := AfterCreate(s, packageNameExtra, labelExtra);
            AfterBackPressed(created) == created
  {
  }

  /**
   * Destruction sends DISMISSED exactly when COMPLETED was never sent (for an activity
   * that learnt its target), and keeps the single-broadcast invariant.
   */
  lemma {:induction false} DestroySendsDismissedIffNotCompleted(s: ActivityState)
    requires ActivityInvariant(s) && !s.destroyed
    ensures var r := AfterDestroy(s);
            ActivityInvariant(r)
            && (s.targetPackageName.Some? ==>
                  (r.effects == s.effects + [Broadcast(ACTION_GATE_DISMISSED, s.targetPackageName.value)]
                   <==> !s.completionBroadcastSent))
            && BroadcastCount(r.effects) <= 1
  {
    var r := AfterDestroy(s);
    if !s.completionBroadcastSent && s.targetPackageName.Some? {
      var sent := [Broadcast(ACTION_GATE_DISMISSED, s.targetPackageName.value)];
      BroadcastCountAppend(s.effects, sent);
      assert BroadcastCount(sent) == 1 by {
        assert sent[..0] == [];
      }
    } else {
      assert s.effects + [] == s.effects;
      if s.targetPackageName.Some? {
        assert |r.effects| == |s.effects|;
      }
    }
  }

  /**
   * The as-written `onDestroy` after the early exit: the target was never assigned and no
   * COMPLETED was sent, so the `lateinit` read it makes is not allowed.
   */
  lemma DestroyAfterEarlyExitReadsUnassignedTarget(labelExtra: Option<string>)
    ensures var s := AfterCreate(Launched, None, labelExtra);
            !(s.completionBroadcastSent || s.targetPackageName.Some?)
    ensures var s := AfterCreate(Launched, Some(""), labelExtra);
            !(s.completionBroadcastSent || s.targetPackageName.Some?)
  {
  }

  /** Where the as-written `onDestroy` can run, the guarded one agrees with it. */
  lemma DestroyAgreesWhereDefined(s: ActivityState)
    requires s.completionBroadcastSent || s.targetPackageName.Some?
    ensures AfterDestroy(s) == AfterDestroyAsWritten(s)
  {
  }

  // ---------------------------------------------------------------------------
  // The activity object
  // ---------------------------------------------------------------------------

  class GateActivity {
    var targetPackageName: Option<string>
    var appLabel: Option<string>
    var completionBroadcastSent: bool
    var backCallback: bool
    var collecting: bool
    var contentSet: bool
    var finishing: bool
    var destroyed: bool
    var effects: seq<Effect>

    function State(): ActivityState
      reads this
    {
      ActivityState(targetPackageName, appLabel, completionBroadcastSent, backCallback,
                    collecting, contentSet, finishing, destroyed, effects)
    }

    constructor()
      ensures State() == Launched
    {
      targetPackageName := None;
      appLabel := None;
      completionBroadcastSent := false;
      backCallback := false;
      collecting := false;
      contentSet := false;
      finishing := false;
      destroyed := false;
      effects := [];
    }

    method OnCreate(packageNameExtra: Option<string>, labelExtra: Option<string>)
      modifies this
      ensures State() == AfterCreate(old(State()), packageNameExtra, labelExtra)
    {
      if IsNullOrEmpty(packageNameExtra) || IsNullOrEmpty(labelExtra) {
        Finish();
        return;
      }
      targetPackageName := packageNameExtra;
      appLabel := labelExtra;
      backCallback := true;
      collecting := true;
      contentSet := true;
    }

    method Finish()
      modifies this
      ensures State() == old(State()).(finishing := true, effects := old(effects) + [Effect.Finish])
    {
      finishing := true;
      effects := effects + [Effect.Finish];
    }

    method NotifyGateCompleted()
      requires completionBroadcastSent || targetPackageName.Some?
      modifies this
      ensures State() == AfterNotifyGateCompleted(old(State()))
    {
      if !completionBroadcastSent {
        completionBroadcastSent := true;
        effects := effects + [Broadcast(ACTION_GATE_COMPLETED, targetPackageName.value)];
      }
    }

    method OnGateEvent(event: Gate.GateEvent, hasLaunchIntent: bool)
      requires collecting ==> targetPackageName.Some?
      modifies this
      ensures State() == AfterGateEvent(old(State()), event, hasLaunchIntent)
    {
      if !collecting {
        return;
      }
      match event
      case Completed(_) =>
        NotifyGateCompleted();
      case ContinueToApp(packageName) =>
        NotifyGateCompleted();
        if hasLaunchIntent {
          effects := effects + [LaunchTarget(packageName)];
        }
        Finish();
      case ContinueLearning =>
        NotifyGateCompleted();
        effects := effects + [LaunchMain];
        Finish();
    }

    method OnBackPressed()
      modifies this
      ensures State() == AfterBackPressed(old(State()))
    {
      if !backCallback {
        Finish();
      }
    }

    /** `onDestroy` as written: callable only once the `lateinit` target could be read. */
    method OnDestroyAsWritten()
      requires completionBroadcastSent || targetPackageName.Some?
      modifies this
      ensures State() == AfterDestroyAsWritten(old(State()))
    {
      destroyed := true;
      collecting := false;
      if !completionBroadcastSent {
        effects := effects + [Broadcast(ACTION_GATE_DISMISSED, targetPackageName.value)];
      }
    }

    /** `onDestroy` with the target read guarded, as the corrected model uses it. */
    method OnDestroy()
      modifies this
      ensures State() == AfterDestroy(old(State()))
    {
      destroyed := true;
      collecting := false;
      if !completionBroadcastSent && targetPackageName.Some? {
        effects := effects + [Broadcast(ACTION_GATE_DISMISSED, targetPackageName.value)];
      }
    }
  }
}
