/**
 * The gate policy of one accessibility service: the packages whose gate is on screen
 * ("active"), the time each package's gate was last shown, and the decision whether a
 * new foreground event for a package should open a gate.
 *
 * Times are epoch milliseconds; the cooldown, in minutes, is whatever the provider
 * answers at the moment of the decision, so it is a parameter of that decision.
 */
module Session {

  const MILLIS_PER_MINUTE: int := 60000

  /** `TimeUnit.MINUTES.toMillis`. */
  function CooldownMillis(cooldownMinutes: int): int {
    cooldownMinutes * MILLIS_PER_MINUTE
  }

  /**
   * `shouldShowGate`: never while a gate for the package is active; always when the
   * package has no recorded showing; otherwise once the cooldown has fully elapsed.
   */
  predicate GateDue(activeGates: set<string>, lastGateTimestamps: map<string, int>,
                    packageName: string, nowMillis: int, cooldownMinutes: int)
  {
    if packageName in activeGates then false
    else if packageName !in lastGateTimestamps then true
    else nowMillis - lastGateTimestamps[packageName] >= CooldownMillis(cooldownMinutes)
  }

  /** The policy's state as a value, for stating properties of sequences of calls. */
  datatype PolicyState = PolicyState(activeGates: set<string>, lastGateTimestamps: map<string, int>)
  {
    function RefreshLastGateCache(timestamps: map<string, int>): PolicyState {
      this.(lastGateTimestamps := timestamps)
    }

    function MarkGateActive(packageName: string): PolicyState {
      this.(activeGates := activeGates + {packageName})
    }

    function MarkGateInactive(packageName: string): PolicyState {
      this.(activeGates := activeGates - {packageName})
    }

    function MarkGateShown(packageName: string, timestampMillis: int): PolicyState {
      this.(lastGateTimestamps := lastGateTimestamps[packageName := timestampMillis])
    }

    predicate ShouldShowGate(packageName: string, nowMillis: int, cooldownMinutes: int) {
      GateDue(activeGates, lastGateTimestamps, packageName, nowMillis, cooldownMinutes)
    }
  }

  const InitialState: PolicyState := PolicyState({}, map[])

  // ---------------------------------------------------------------------------
  // Properties of the decision
  // ---------------------------------------------------------------------------

  /** An active package is never gated, at any time and under any cooldown. */
  lemma ActiveIsNeverGated(st: PolicyState, packageName: string)
    requires packageName in st.activeGates
    ensures forall now: int, cooldown: int :: !st.ShouldShowGate(packageName, now, cooldown)
  {
  }

  /** A package that is not active and was never shown is always gated. */
  lemma UnseenIsAlwaysGated(st: PolicyState, packageName: string)
    requires packageName !in st.activeGates && packageName !in st.lastGateTimestamps
    ensures forall now: int, cooldown: int :: st.ShouldShowGate(packageName, now, cooldown)
  {
  }

  /**
   * Once gated, a package stays gated as time passes: the decision is monotone in the
   * current time (for a fixed state and cooldown).
   */
  lemma GateDueIsMonotone(st: PolicyState, packageName: string, now: int, later: int, cooldown: int)
    requires now <= later && st.ShouldShowGate(packageName, now, cooldown)
    ensures st.ShouldShowGate(packageName, later, cooldown)
  {
  }

  /**
   * The cooldown boundary: after a showing at `t0`, an inactive package is not gated one
   * millisecond before `t0 + cooldown minutes` and is gated exactly at it.
   */
  lemma CooldownBoundary(st: PolicyState, packageName: string, t0: int, cooldown: int)
    requires packageName !in st.activeGates
    ensures !st.MarkGateShown(packageName, t0).ShouldShowGate(packageName, t0 + CooldownMillis(cooldown) - 1, cooldown)
    ensures st.MarkGateShown(packageName, t0).ShouldShowGate(packageName, t0 + CooldownMillis(cooldown), cooldown)
  {
  }

  /**
   * The decision for a package recorded as shown at `t` is exactly "the cooldown in
   * milliseconds has elapsed since `t`", in both directions.
   */
  lemma ShownDecision(st: PolicyState, packageName: string, t: int, now: int, cooldown: int)
    requires packageName !in st.activeGates
    ensures st.MarkGateShown(packageName, t).ShouldShowGate(packageName, now, cooldown)
        <==> now - t >= cooldown * MILLIS_PER_MINUTE
  {
  }

  // ---------------------------------------------------------------------------
  // Properties of the updates
  // ---------------------------------------------------------------------------

  /** Marking active, and marking inactive, are idempotent. */
  lemma MarkIdempotent(st: PolicyState, packageName: string)
    ensures st.MarkGateActive(packageName).MarkGateActive(packageName) == st.MarkGateActive(packageName)
    ensures st.MarkGateInactive(packageName).MarkGateInactive(packageName) == st.MarkGateInactive(packageName)
  {
  }

  /** Marking an inactive package inactive changes nothing. */
  lemma MarkInactiveOfAbsentIsNoOp(st: PolicyState, packageName: string)
    requires packageName !in st.activeGates
    ensures st.MarkGateInactive(packageName) == st
  {
  }

  /**
   * Marking a package active and then inactive returns every decision to what it was
   * before, for every package, as long as the package was not active to begin with.
   */
  lemma {:induction false} ActiveThenInactiveRestores(st: PolicyState, packageName: string, other: string, now: int, cooldown: int)
    requires packageName !in st.activeGates
    ensures st.MarkGateActive(packageName).MarkGateInactive(packageName).ShouldShowGate(other, now, cooldown)
        == st.ShouldShowGate(other, now, cooldown)
  {
    assert st.activeGates + {packageName} - {packageName} == st.activeGates;
  }

  /** Every update to one package leaves the decisions about every other package as they were. */
  lemma UpdatesAreLocal(st: PolicyState, packageName: string, other: string, t: int, now: int, cooldown: int)
    requires other != packageName
    ensures st.MarkGateActive(packageName).ShouldShowGate(other, now, cooldown) == st.ShouldShowGate(other, now, cooldown)
    ensures st.MarkGateInactive(packageName).ShouldShowGate(other, now, cooldown) == st.ShouldShowGate(other, now, cooldown)
    ensures st.MarkGateShown(packageName, t).ShouldShowGate(other, now, cooldown) == st.ShouldShowGate(other, now, cooldown)
  {
  }

  /**
   * A showing overwrites the recorded time, even with an earlier one (no maximum is kept),
   * and touches neither the active set nor any other package's record.
   */
  lemma MarkShownOverwrites(st: PolicyState, packageName: string, t: int)
    ensures st.MarkGateShown(packageName, t).lastGateTimestamps[packageName] == t
    ensures st.MarkGateShown(packageName, t).activeGates == st.activeGates
    ensures forall p :: p != packageName && p in st.lastGateTimestamps ==>
              p in st.MarkGateShown(packageName, t).lastGateTimestamps
              && st.MarkGateShown(packageName, t).lastGateTimestamps[p] == st.lastGateTimestamps[p]
    ensures st.MarkGateShown(packageName, t).lastGateTimestamps.Keys == st.lastGateTimestamps.Keys + {packageName}
  {
  }

  /** A cache refresh replaces the records wholesale and keeps the active set. */
  lemma RefreshReplaces(st: PolicyState, timestamps: map<string, int>)
    ensures st.RefreshLastGateCache(timestamps).lastGateTimestamps == timestamps
    ensures st.RefreshLastGateCache(timestamps).activeGates == st.activeGates
  {
  }

  // ---------------------------------------------------------------------------
  // The two unit scenarios (a 15-minute cooldown)
  // ---------------------------------------------------------------------------

  /** Gated at first, not gated 10 minutes after a showing, gated again 16 minutes after it. */
  lemma ScenarioCooldownExpired(packageName: string)
    ensures InitialState.ShouldShowGate(packageName, 0, 15)
    ensures !InitialState.MarkGateShown(packageName, 0).ShouldShowGate(packageName, 10 * MILLIS_PER_MINUTE, 15)
    ensures InitialState.MarkGateShown(packageName, 0).ShouldShowGate(packageName, 16 * MILLIS_PER_MINUTE, 15)
  {
  }

  /** An active gate blocks a duplicate trigger until it is marked inactive. */
  lemma ScenarioActiveBlocksDuplicates(packageName: string)
    ensures !InitialState.MarkGateActive(packageName).ShouldShowGate(packageName, 0, 15)
    ensures InitialState.MarkGateActive(packageName).MarkGateInactive(packageName).ShouldShowGate(packageName, 0, 15)
  {
  }

  // ---------------------------------------------------------------------------
  // The policy object
  // ---------------------------------------------------------------------------

  class SessionPolicy {
    var activeGates: set<string>
    var lastGateTimestamps: map<string, int>

    /** The policy's current state as a value. */
    function State(): PolicyState
      reads this
    {
      PolicyState(activeGates, lastGateTimestamps)
    }

    constructor()
      ensures State() == InitialState
    {
      activeGates := {};
      lastGateTimestamps := map[];
    }

    method RefreshLastGateCache(timestamps: map<string, int>)
      modifies this
      ensures State() == old(State()).RefreshLastGateCache(timestamps)
    {
      lastGateTimestamps := map[];
      lastGateTimestamps := lastGateTimestamps + timestamps;
    }

    /** `cooldownMinutes` is the provider's answer at the time of this call. */
    method ShouldShowGate(packageName: string, nowMillis: int, cooldownMinutes: int) returns (show: bool)
      ensures show == GateDue(activeGates, lastGateTimestamps, packageName, nowMillis, cooldownMinutes)
      ensures packageName in activeGates ==> !show
      ensures packageName !in activeGates && packageName !in lastGateTimestamps ==> show
    {
      if packageName in activeGates {
        return false;
      }
      var cooldownMillis := CooldownMillis(cooldownMinutes);
      if packageName !in lastGateTimestamps {
        return true;
      }
      var lastShown := lastGateTimestamps[packageName];
      return nowMillis - lastShown >= cooldownMillis;
    }

    method MarkGateActive(packageName: string)
      modifies this
      ensures State() == old(State()).MarkGateActive(packageName)
    {
      activeGates := activeGates + {packageName};
    }

    method MarkGateInactive(packageName: string)
      modifies this
      ensures State() == old(State()).MarkGateInactive(packageName)
    {
      activeGates := activeGates - {packageName};
    }

    method MarkGateShown(packageName: string, timestampMillis: int)
      modifies this
      ensures State() == old(State()).MarkGateShown(packageName, timestampMillis)
    {
      lastGateTimestamps := lastGateTimestamps[packageName := timestampMillis];
    }
  }
}
